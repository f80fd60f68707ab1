/**
 * The player built into a chat message (ChatMessage.js), the one the widget
 * actually uses. A message with an audio URL plays through its media element
 * once the element knows a positive duration (the real path); otherwise it
 * simulates playback from `audioDuration` with an interval timer (the mock
 * path). The clock (`performance.now()`, milliseconds) is a parameter, each
 * timer firing is a call of `Tick`, and what the page asks of the media
 * engine is logged in `requests`.
 */
module ChatMessage {
  import opened Wrappers
  import opened Browser
  import opened TimeFormat

  datatype MessageType = User | Ai

  /**
   * The media element's state as the message reads it: its duration is
   * `None` (NaN) until the metadata is loaded.
   */
  datatype MediaElement = MediaElement(duration: Option<real>, currentTime: real)

  /** The URL that marks a message as simulated only. */
  const MockAudioUrl := "mock"

  /** `render()` creates a media element for a truthy URL other than `'mock'`. */
  predicate HasRealAudio(audioUrl: Option<string>) {
    audioUrl.Some? && audioUrl.value != "" && audioUrl.value != MockAudioUrl
  }

  /** The real path is taken when there is an element whose duration is known and positive. */
  predicate RealReady(element: Option<MediaElement>) {
    element.Some? && element.value.duration.Some? && element.value.duration.value > 0.0
  }

  /** `audioDuration` as the value handed to `formatDuration`. */
  function DurationValue(d: Option<real>): (v: JsValue)
    ensures v.Null? <==> d.None?
    ensures d.Some? ==> v == Number(d.value) && IsFiniteNumber(v)
  {
    if d.Some? then Number(d.value) else Null
  }

  /**
   * The duration `seekAudio` works against: the element's when the real path
   * is ready, `audioDuration` otherwise. A seek has a positive duration to
   * work against exactly when `toggleAudioPlay` would act.
   */
  function EffectiveDuration(element: Option<MediaElement>, audioDuration: Option<real>): (d: Option<real>)
    ensures RealReady(element) ==> d == element.value.duration
    ensures !RealReady(element) ==> d == audioDuration
    ensures (d.Some? && d.value > 0.0) <==> RealReady(element) || (audioDuration.Some? && audioDuration.value > 0.0)
  {
    if RealReady(element) then element.value.duration else audioDuration
  }

  /** `totalDuration * Math.max(0, Math.min(1, ratio))`: the click fraction clamped to the track. */
  function SeekTime(total: real, ratio: real): (t: real)
    requires 0.0 < total
    ensures 0.0 <= t <= total
    ensures ratio <= 0.0 ==> t == 0.0
    ensures 1.0 <= ratio ==> t == total
    ensures 0.0 <= ratio <= 1.0 ==> t == total * ratio
  {
    var fraction := if ratio < 0.0 then 0.0 else if ratio > 1.0 then 1.0 else ratio;
    assert total * fraction <= total * 1.0;
    total * fraction
  }

  class ChatMessage {
    const msgType: MessageType
    const content: Option<string>
    const audioUrl: Option<string>
    /** Seconds; `None` is `null`. Set by the caller, and by `loadedmetadata`. */
    var audioDuration: Option<real>
    var audioPlaying: bool
    var audioElement: Option<MediaElement>
    var progressBarInterval: Option<Interval>
    /** The timers started for this message and not yet cleared: they keep firing. */
    var timers: set<Interval>
    var nextTimerId: nat
    var currentMockPlaybackTime: real
    /** The waveform's `--audio-progress` value, in percent. */
    var progress: JsValue
    /** The duration span's text. */
    var timeLabel: string
    var icon: Icon
    /** Everything the page has asked of the media engine, oldest first. */
    ghost var requests: seq<MediaRequest>

    /**
     * At most one timer is live, the one the message holds; it exists only
     * for a message with a duration.
     */
    ghost predicate TimersValid()
      reads this
    {
      && timers == Live(progressBarInterval)
      && (progressBarInterval.Some? ==>
            && audioDuration.Some?
            && 0.0 <= progressBarInterval.value.startPlaybackTime
            && progressBarInterval.value.id < nextTimerId)
      && 0.0 <= currentMockPlaybackTime
      && (audioElement.Some? ==>
            0.0 <= audioElement.value.currentTime &&
            (audioElement.value.duration.Some? ==> 0.0 <= audioElement.value.duration.value))
    }

    /** Besides, a message without a media element is playing exactly when it holds a timer. */
    ghost predicate Valid()
      reads this
    {
      TimersValid() && (audioElement.None? ==> (audioPlaying <==> progressBarInterval.Some?))
    }

    /**
     * The constructor as written: `render()` creates the media element, and
     * the very next statement sets `audioElement` back to `null`, so no
     * message ever holds an element.
     */
    constructor AsWritten(msgType: MessageType, content: Option<string>, audioUrl: Option<string>, audioDuration: Option<real>)
      ensures Valid()
      ensures this.msgType == msgType && this.content == content && this.audioUrl == audioUrl
      ensures this.audioDuration == audioDuration
      ensures audioElement == None
      ensures !audioPlaying && progressBarInterval == None && timers == {} && currentMockPlaybackTime == 0.0
      ensures audioUrl.Some? && audioUrl.value != "" ==>
                timeLabel == FormatDuration(DurationValue(audioDuration)) && icon == PlayIcon
      ensures audioUrl == Some(MockAudioUrl) ==> progress == Number(0.0)
      ensures requests == []
    {
      this.msgType := msgType;
      this.content := content;
      this.audioUrl := audioUrl;
      this.audioDuration := audioDuration;
      audioPlaying := false;
      if audioUrl.Some? && audioUrl.value != "" {
        icon := PlayIcon;
        timeLabel := FormatDuration(DurationValue(audioDuration));
        if audioUrl.value == MockAudioUrl {
          progress := Number(0.0);
        }
      }
      audioElement := None;
      progressBarInterval := None;
      timers := {};
      nextTimerId := 0;
      currentMockPlaybackTime := 0.0;
      requests := [];
    }

    /**
     * The constructor as evidently intended: the element `render()` creates
     * is kept, so a message with a real audio URL holds an element whose
     * metadata is not yet loaded.
     */
    constructor Corrected(msgType: MessageType, content: Option<string>, audioUrl: Option<string>, audioDuration: Option<real>)
      ensures Valid()
      ensures this.msgType == msgType && this.content == content && this.audioUrl == audioUrl
      ensures this.audioDuration == audioDuration
      ensures audioElement.Some? <==> HasRealAudio(audioUrl)
      ensures audioElement.Some? ==> audioElement.value == MediaElement(None, 0.0)
      ensures !audioPlaying && progressBarInterval == None && timers == {} && currentMockPlaybackTime == 0.0
      ensures audioUrl.Some? && audioUrl.value != "" ==>
                timeLabel == FormatDuration(DurationValue(audioDuration)) && icon == PlayIcon
      ensures audioUrl == Some(MockAudioUrl) ==> progress == Number(0.0)
      ensures requests == []
    {
      this.msgType := msgType;
      this.content := content;
      this.audioUrl := audioUrl;
      this.audioDuration := audioDuration;
      audioPlaying := false;
      audioElement := None;
      if audioUrl.Some? && audioUrl.value != "" {
        icon := PlayIcon;
        timeLabel := FormatDuration(DurationValue(audioDuration));
        if audioUrl.value == MockAudioUrl {
          progress := Number(0.0);
        } else {
          audioElement := Some(MediaElement(None, 0.0));
        }
      }
      progressBarInterval := None;
      timers := {};
      nextTimerId := 0;
      currentMockPlaybackTime := 0.0;
      requests := [];
    }

    /**
     * `toggleAudioPlay`. On the real path the flag flips and the engine is
     * asked to pause or play. Otherwise, without a positive `audioDuration`
     * nothing happens; with one the flag flips, and starting clears any
     * previous timer before the new one is made, anchored at the current
     * position, while stopping clears it.
     */
    method ToggleAudioPlay(now: real)
      requires TimersValid()
      modifies this
      ensures TimersValid()
      ensures old(Valid()) ==> Valid()
      ensures RealReady(old(audioElement)) ==>
                && audioPlaying == !old(audioPlaying)
                && requests == old(requests) + [if old(audioPlaying) then PauseRequest else PlayRequest]
                && icon == (if audioPlaying then PauseIcon else PlayIcon)
                && progressBarInterval == old(progressBarInterval) && timers == old(timers)
                && nextTimerId == old(nextTimerId)
      ensures !RealReady(old(audioElement)) && (audioDuration.None? || audioDuration.value <= 0.0) ==>
                unchanged(this)
      ensures !RealReady(old(audioElement)) && audioDuration.Some? && audioDuration.value > 0.0 ==>
                && audioPlaying == !old(audioPlaying)
                && icon == (if audioPlaying then PauseIcon else PlayIcon)
                && requests == old(requests)
                && (audioPlaying ==>
                      && progressBarInterval == Some(Interval(old(nextTimerId), now, currentMockPlaybackTime))
                      && timers == {progressBarInterval.value})
                && (!audioPlaying ==> progressBarInterval == None && timers == {})
                && nextTimerId == old(nextTimerId) + (if audioPlaying then 1 else 0)
                && Valid()
      ensures audioDuration == old(audioDuration) && audioElement == old(audioElement)
      ensures currentMockPlaybackTime == old(currentMockPlaybackTime)
      ensures progress == old(progress) && timeLabel == old(timeLabel)
    {
      if RealReady(audioElement) {
        if audioPlaying {
          requests := requests + [PauseRequest];
          icon := PlayIcon;
        } else {
          requests := requests + [PlayRequest];
          icon := PauseIcon;
        }
        audioPlaying := !audioPlaying;
        return;
      }
      if audioDuration.None? || audioDuration.value <= 0.0 {
        return;
      }
      audioPlaying := !audioPlaying;
      icon := if audioPlaying then PauseIcon else PlayIcon;
      if audioPlaying {
        StartTimer(now);
      } else {
        ClearTimer();
      }
    }

    /** `clearInterval` on the held timer, if any, then `setInterval` anchored at `now` and the current position. */
    method StartTimer(now: real)
      requires TimersValid() && audioDuration.Some?
      modifies this
      ensures TimersValid()
      ensures progressBarInterval == Some(Interval(old(nextTimerId), now, currentMockPlaybackTime))
      ensures timers == {progressBarInterval.value} && nextTimerId == old(nextTimerId) + 1
      ensures audioPlaying == old(audioPlaying) && audioElement == old(audioElement) && audioDuration == old(audioDuration)
      ensures currentMockPlaybackTime == old(currentMockPlaybackTime) && icon == old(icon)
      ensures progress == old(progress) && timeLabel == old(timeLabel) && requests == old(requests)
    {
      timers := timers - Live(progressBarInterval);
      var iv := Interval(nextTimerId, now, currentMockPlaybackTime);
      nextTimerId := nextTimerId + 1;
      timers := timers + {iv};
      progressBarInterval := Some(iv);
    }

    /** `clearInterval` on the held timer, if any, and forget it. */
    method ClearTimer()
      requires TimersValid()
      modifies this
      ensures TimersValid()
      ensures progressBarInterval == None && timers == {} && nextTimerId == old(nextTimerId)
      ensures audioPlaying == old(audioPlaying) && audioElement == old(audioElement) && audioDuration == old(audioDuration)
      ensures currentMockPlaybackTime == old(currentMockPlaybackTime) && icon == old(icon)
      ensures progress == old(progress) && timeLabel == old(timeLabel) && requests == old(requests)
    {
      timers := timers - Live(progressBarInterval);
      progressBarInterval := None;
    }

    /**
     * One firing of the mock timer at instant `now`: the position becomes the
     * anchored position plus the elapsed time; at or past `audioDuration` the
     * player is reset, otherwise progress and label follow the position.
     */
    method Tick(iv: Interval, now: real)
      requires Valid() && iv in timers && iv.startTime <= now
      modifies this
      ensures Valid()
      ensures TickPosition(iv, now) >= old(audioDuration).value ==>
                && !audioPlaying && icon == PlayIcon
                && progressBarInterval == None && timers == {}
                && currentMockPlaybackTime == 0.0
                && progress == Number(0.0)
                && timeLabel == FormatDuration(DurationValue(audioDuration))
                && audioElement == (if old(audioElement).Some? then Some(old(audioElement).value.(currentTime := 0.0)) else None)
      ensures TickPosition(iv, now) < old(audioDuration).value ==>
                && audioPlaying == old(audioPlaying) && progressBarInterval == Some(iv) && timers == {iv}
                && currentMockPlaybackTime == TickPosition(iv, now)
                && progress == Percent(currentMockPlaybackTime, audioDuration.value)
                && progress.Number? && 0.0 <= progress.x < 100.0
                && timeLabel == FormatDuration(Number(currentMockPlaybackTime))
                && icon == old(icon) && audioElement == old(audioElement)
      ensures audioDuration == old(audioDuration) && requests == old(requests) && nextTimerId == old(nextTimerId)
    {
      var t := TickPosition(iv, now);
      if t >= audioDuration.value {
        // The position is first set to `audioDuration`; the reset below sets it to 0.
        ResetAudioPlayer();
        return;
      }
      currentMockPlaybackTime := t;
      progress := Percent(currentMockPlaybackTime, audioDuration.value);
      timeLabel := FormatDuration(Number(currentMockPlaybackTime));
    }

    /**
     * `updateAudioProgress`, run on the element's `timeupdate`: only with an
     * element whose duration is known do progress and label follow the
     * element's position.
     */
    method UpdateAudioProgress()
      requires Valid()
      modifies this
      ensures Valid()
      ensures audioElement.None? || audioElement.value.duration.None? ==> unchanged(this)
      ensures audioElement.Some? && audioElement.value.duration.Some? ==>
                && progress == Percent(audioElement.value.currentTime, audioElement.value.duration.value)
                && timeLabel == FormatDuration(Number(audioElement.value.currentTime))
      ensures audioPlaying == old(audioPlaying) && audioElement == old(audioElement)
      ensures progressBarInterval == old(progressBarInterval) && timers == old(timers)
      ensures currentMockPlaybackTime == old(currentMockPlaybackTime) && icon == old(icon)
      ensures audioDuration == old(audioDuration) && requests == old(requests) && nextTimerId == old(nextTimerId)
    {
      if audioElement.Some? && audioElement.value.duration.Some? {
        var el := audioElement.value;
        progress := Percent(el.currentTime, el.duration.value);
        timeLabel := FormatDuration(Number(el.currentTime));
      }
    }

    /**
     * The element's `timeupdate` event, the engine having advanced to
     * `time`, which never lies past a known duration.
     */
    method OnTimeUpdate(time: real)
      requires Valid() && audioElement.Some? && 0.0 <= time
      requires audioElement.value.duration.Some? ==> time <= audioElement.value.duration.value
      modifies this
      ensures Valid()
      ensures audioElement == Some(old(audioElement).value.(currentTime := time))
      ensures audioElement.value.duration.Some? ==>
                progress == Percent(time, audioElement.value.duration.value) && timeLabel == FormatDuration(Number(time))
      ensures audioElement.value.duration.Some? && audioElement.value.duration.value > 0.0 ==>
                progress.Number? && 0.0 <= progress.x <= 100.0
      ensures audioElement.value.duration.None? ==> progress == old(progress) && timeLabel == old(timeLabel)
      ensures audioPlaying == old(audioPlaying) && audioDuration == old(audioDuration)
      ensures progressBarInterval == old(progressBarInterval) && timers == old(timers) && nextTimerId == old(nextTimerId)
      ensures icon == old(icon) && currentMockPlaybackTime == old(currentMockPlaybackTime) && requests == old(requests)
    {
      audioElement := Some(audioElement.value.(currentTime := time));
      UpdateAudioProgress();
    }

    /**
     * The element's `loadedmetadata` event: `audioDuration` takes the
     * element's duration, the label shows it and progress restarts at 0.
     * Without an element in the field the listener fails at its first read of
     * `this.audioElement.duration` and nothing changes.
     */
    method OnLoadedMetadata(duration: real)
      requires Valid() && 0.0 <= duration
      modifies this
      ensures Valid()
      ensures old(audioElement).None? ==> unchanged(this)
      ensures old(audioElement).Some? ==>
                && audioElement == Some(old(audioElement).value.(duration := Some(duration)))
                && audioDuration == Some(duration)
                && timeLabel == FormatDuration(Number(duration)) && progress == Number(0.0)
      ensures audioPlaying == old(audioPlaying) && currentMockPlaybackTime == old(currentMockPlaybackTime)
      ensures progressBarInterval == old(progressBarInterval) && timers == old(timers) && nextTimerId == old(nextTimerId)
      ensures icon == old(icon) && requests == old(requests)
    {
      if audioElement.None? {
        return;
      }
      audioElement := Some(audioElement.value.(duration := Some(duration)));
      audioDuration := Some(duration);
      timeLabel := FormatDuration(Number(duration));
      progress := Number(0.0);
    }

    /**
     * `resetAudioPlayer`, run on completion of either path: stopped, no
     * timer, positions at zero, progress 0 and the label showing
     * `audioDuration`.
     */
    method ResetAudioPlayer()
      requires Valid()
      modifies this
      ensures Valid()
      ensures !audioPlaying && icon == PlayIcon
      ensures progressBarInterval == None && timers == {}
      ensures currentMockPlaybackTime == 0.0
      ensures audioElement == (if old(audioElement).Some? then Some(old(audioElement).value.(currentTime := 0.0)) else None)
      ensures progress == Number(0.0) && timeLabel == FormatDuration(DurationValue(audioDuration))
      ensures audioDuration == old(audioDuration) && requests == old(requests) && nextTimerId == old(nextTimerId)
    {
      audioPlaying := false;
      icon := PlayIcon;
      if audioElement.Some? {
        audioElement := Some(audioElement.value.(currentTime := 0.0));
      }
      ClearTimer();
      currentMockPlaybackTime := 0.0;
      progress := Number(0.0);
      timeLabel := FormatDuration(DurationValue(audioDuration));
    }

    /**
     * `seekAudio`, for a click at fraction `ratio` of the waveform's width.
     * Nothing happens without a positive effective duration. Otherwise the
     * target is the clamped fraction of that duration: a message with an
     * element moves the element; one without sets the mock position and
     * updates progress and label at once, and if it was playing, clears its
     * timer and toggles, which PAUSES it.
     */
    method SeekAudio(ratio: real, now: real)
      requires Valid()
      modifies this
      ensures Valid()
      ensures var total := EffectiveDuration(old(audioElement), old(audioDuration));
              total.None? || total.value <= 0.0 ==> unchanged(this)
      ensures var total := EffectiveDuration(old(audioElement), old(audioDuration));
              total.Some? && total.value > 0.0 && old(audioElement).Some? ==>
                && audioElement == Some(old(audioElement).value.(currentTime := SeekTime(total.value, ratio)))
                && audioPlaying == old(audioPlaying) && currentMockPlaybackTime == old(currentMockPlaybackTime)
                && progressBarInterval == old(progressBarInterval) && timers == old(timers)
                && progress == old(progress) && timeLabel == old(timeLabel) && icon == old(icon)
      ensures var total := EffectiveDuration(old(audioElement), old(audioDuration));
              total.Some? && total.value > 0.0 && old(audioElement).None? ==>
                && currentMockPlaybackTime == SeekTime(total.value, ratio)
                && progress == Percent(currentMockPlaybackTime, total.value)
                && timeLabel == FormatDuration(Number(currentMockPlaybackTime))
                && !audioPlaying && progressBarInterval == None && timers == {}
                && icon == (if old(audioPlaying) then PlayIcon else old(icon))
                && audioElement == None
      ensures audioDuration == old(audioDuration) && requests == old(requests) && nextTimerId == old(nextTimerId)
    {
      var total := EffectiveDuration(audioElement, audioDuration);
      if total.None? || total.value <= 0.0 {
        return;
      }
      var newTime := SeekTime(total.value, ratio);
      if audioElement.Some? {
        audioElement := Some(audioElement.value.(currentTime := newTime));
      } else {
        currentMockPlaybackTime := newTime;
        progress := Percent(currentMockPlaybackTime, total.value);
        timeLabel := FormatDuration(Number(currentMockPlaybackTime));
        if audioPlaying {
          ClearTimer();
          ToggleAudioPlay(now);
        }
      }
    }
  }

  /**
   * A simulated fifteen-second message, playing, clicked at the middle of its
   * waveform: the position moves to 7.5 seconds and the message is paused,
   * not restarted from there.
   */
  method SeekWhilePlayingPauses() returns (playing: bool, position: real, live: set<Interval>)
    ensures !playing && position == 7.5 && live == {}
  {
    var m := new ChatMessage.Corrected(User, None, Some(MockAudioUrl), Some(15.0));
    m.ToggleAudioPlay(0.0);
    m.SeekAudio(0.5, 1000.0);
    playing, position, live := m.audioPlaying, m.currentMockPlaybackTime, m.timers;
  }
}
