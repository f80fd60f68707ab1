/**
 * The player over a real media element (HTMLMediaAudioPlayer.js). The media
 * engine is an environment: what the page asks of it (`load()`, `play()`,
 * `pause()`) is appended to a log of requests, and what it reports
 * (`loadedmetadata`, `timeupdate`, `ended`, `play`, `pause`, `error`) is a
 * method per event. The playing flag follows the engine's `play` and `pause`
 * events only, never the page's own requests.
 */
module HTMLMediaAudioPlayer {
  import opened Browser
  import opened TimeFormat
  import opened AudioPlayerBase

  /** The label the player shows once the engine reports an error. */
  const ErrorLabel := "Ошибка"

  class HTMLMediaAudioPlayer {
    const base: AudioPlayerBase
    const audioUrl: string
    /** Zero until the engine reports the track's metadata. */
    var totalDuration: real
    /** The engine's playback position, `audio.currentTime`, in seconds. */
    var position: real
    var icon: Icon
    /** Everything the page has asked of the engine, oldest first. */
    ghost var requests: seq<MediaRequest>

    ghost predicate Valid()
      reads this
    {
      0.0 <= totalDuration && 0.0 <= position
    }

    constructor (audioUrl: string)
      ensures Valid() && fresh(base)
      ensures this.audioUrl == audioUrl
      ensures !base.isPlaying && totalDuration == 0.0 && position == 0.0 && requests == []
    {
      base := new AudioPlayerBase();
      this.audioUrl := audioUrl;
      totalDuration := 0.0;
      position := 0.0;
      requests := [];
    }

    /** `loadedmetadata`: the duration becomes known; the label shows it and progress restarts at 0. */
    method OnLoadedMetadata(duration: real)
      requires Valid() && 0.0 <= duration
      modifies this, base
      ensures Valid()
      ensures totalDuration == duration
      ensures base.timeLabel == FormatDuration(Number(duration)) && base.progress == Number(0.0)
      ensures base.isPlaying == old(base.isPlaying) && position == old(position)
      ensures icon == old(icon) && requests == old(requests)
    {
      totalDuration := duration;
      base.timeLabel := FormatDuration(Number(totalDuration));
      base.UpdateWaveformProgress(Number(0.0));
    }

    /**
     * `timeupdate`, the engine having advanced to `time`: progress and label
     * follow the position once the duration is known, and stay as they were
     * before. The engine never reports a position past the duration.
     */
    method OnTimeUpdate(time: real)
      requires Valid() && 0.0 <= time
      requires totalDuration > 0.0 ==> time <= totalDuration
      modifies this, base
      ensures Valid() && position == time
      ensures totalDuration > 0.0 ==>
                && base.progress == Percent(time, totalDuration)
                && 0.0 <= base.progress.x <= 100.0
                && base.timeLabel == FormatDuration(Number(time))
      ensures totalDuration == 0.0 ==>
                base.progress == old(base.progress) && base.timeLabel == old(base.timeLabel)
      ensures base.isPlaying == old(base.isPlaying) && totalDuration == old(totalDuration)
      ensures icon == old(icon) && requests == old(requests)
    {
      position := time;
      if totalDuration > 0.0 {
        var progress := Percent(position, totalDuration);
        base.UpdateWaveformProgress(progress);
        base.UpdateCurrentTimeDisplay(Number(position));
      }
    }

    /** `ended`: stopped, rewound to zero, progress 0, and the label shows the whole duration. */
    method OnEnded()
      requires Valid()
      modifies this, base
      ensures Valid()
      ensures !base.isPlaying && position == 0.0 && icon == PlayIcon
      ensures base.progress == Number(0.0) && base.timeLabel == FormatDuration(Number(totalDuration))
      ensures totalDuration == old(totalDuration) && requests == old(requests)
    {
      base.isPlaying := false;
      position := 0.0;
      icon := PlayIcon;
      base.UpdateWaveformProgress(Number(0.0));
      base.UpdateCurrentTimeDisplay(Number(totalDuration));
    }

    /** The engine's `play` event: now playing. */
    method OnPlay()
      requires Valid()
      modifies this, base
      ensures Valid()
      ensures base.isPlaying && icon == PauseIcon
      ensures base.progress == old(base.progress) && base.timeLabel == old(base.timeLabel)
      ensures totalDuration == old(totalDuration) && position == old(position) && requests == old(requests)
    {
      base.isPlaying := true;
      icon := PauseIcon;
    }

    /** The engine's `pause` event: no longer playing. */
    method OnPause()
      requires Valid()
      modifies this, base
      ensures Valid()
      ensures !base.isPlaying && icon == PlayIcon
      ensures base.progress == old(base.progress) && base.timeLabel == old(base.timeLabel)
      ensures totalDuration == old(totalDuration) && position == old(position) && requests == old(requests)
    {
      base.isPlaying := false;
      icon := PlayIcon;
    }

    /** `error`: the label reads the error text and nothing else changes. */
    method OnError()
      requires Valid()
      modifies base
      ensures Valid()
      ensures base.timeLabel == ErrorLabel
      ensures base.isPlaying == old(base.isPlaying) && base.progress == old(base.progress)
    {
      base.timeLabel := ErrorLabel;
    }

    /**
     * `play()`: asks the engine to load first when no duration is known yet,
     * then to play; the playing flag waits for the engine's event.
     */
    method Play()
      requires Valid()
      modifies this
      ensures Valid()
      ensures requests == old(requests) + (if totalDuration == 0.0 then [LoadRequest, PlayRequest] else [PlayRequest])
      ensures totalDuration == old(totalDuration) && position == old(position) && icon == old(icon)
    {
      if totalDuration == 0.0 {
        requests := requests + [LoadRequest];
      }
      requests := requests + [PlayRequest];
    }

    /** `pause()`: asks the engine to pause; the playing flag waits for the engine's event. */
    method Pause()
      requires Valid()
      modifies this
      ensures Valid()
      ensures requests == old(requests) + [PauseRequest]
      ensures totalDuration == old(totalDuration) && position == old(position) && icon == old(icon)
    {
      requests := requests + [PauseRequest];
    }

    /**
     * `seek(t)`: nothing until the duration is known; then the engine's
     * position becomes `t` clamped to the track. Progress and label follow
     * with the engine's next `timeupdate`.
     */
    method Seek(newTime: real)
      requires Valid()
      modifies this
      ensures Valid()
      ensures totalDuration == 0.0 ==> position == old(position)
      ensures totalDuration > 0.0 ==> position == Clamp(newTime, totalDuration)
      ensures totalDuration == old(totalDuration) && icon == old(icon) && requests == old(requests)
    {
      if totalDuration > 0.0 {
        position := Clamp(newTime, totalDuration);
      }
    }

    /** `togglePlay()`: asks for a pause while playing and for playback otherwise. */
    method TogglePlay()
      requires Valid()
      modifies this
      ensures Valid()
      ensures requests == old(requests) +
                (if base.isPlaying then [PauseRequest]
                 else if totalDuration == 0.0 then [LoadRequest, PlayRequest]
                 else [PlayRequest])
      ensures totalDuration == old(totalDuration) && position == old(position) && icon == old(icon)
    {
      if base.isPlaying {
        Pause();
      } else {
        Play();
      }
    }

    /** `getCurrentTime()`: the engine's position. */
    method GetCurrentTime() returns (t: real)
      requires Valid()
      ensures t == position && 0.0 <= t
    {
      t := position;
    }

    /** `getTotalDuration()`: zero until the metadata is known. */
    method GetTotalDuration() returns (d: real)
      requires Valid()
      ensures d == totalDuration && 0.0 <= d
    {
      d := totalDuration;
    }
  }

  /**
   * An engine error only changes the label: a later seek still moves the
   * engine's position, and a later toggle still asks the engine to play.
   */
  method SeekAfterError() returns (position: real, ghost asked: seq<MediaRequest>, shown: string)
    ensures position == 4.0 && asked == [PlayRequest] && shown == ErrorLabel
  {
    var p := new HTMLMediaAudioPlayer("assets/audio/ai-sample.mp3");
    p.OnLoadedMetadata(10.0);
    p.OnError();
    p.Seek(4.0);
    p.TogglePlay();
    position, shown := p.position, p.base.timeLabel;
    asked := p.requests;
  }
}
