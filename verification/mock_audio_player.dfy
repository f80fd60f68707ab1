/**
 * The simulated player (MockAudioPlayer.js): no media behind it, only a
 * nominal duration and a 50 ms interval timer that recomputes the playback
 * position from the clock. The clock (`performance.now()`, milliseconds) is a
 * parameter of every operation that reads it, and each firing of the timer
 * is an explicit call of `Tick`.
 */
module MockAudioPlayer {
  import opened Wrappers
  import opened Browser
  import opened TimeFormat
  import opened AudioPlayerBase

  class MockAudioPlayer {
    /** The shared player state: playing flag, waveform progress and time label. */
    const base: AudioPlayerBase
    /** The nominal duration in seconds. */
    const totalDuration: real
    var currentMockPlaybackTime: real
    var progressBarInterval: Option<Interval>
    /** The timers started for this player and not yet cleared: they keep firing. */
    var timers: set<Interval>
    var nextTimerId: nat
    var icon: Icon

    /**
     * The position stays within the track, and the player is playing exactly
     * when it holds a timer, which is then the only one that is live.
     */
    ghost predicate Valid()
      reads this, base
    {
      && 0.0 <= totalDuration
      && 0.0 <= currentMockPlaybackTime <= totalDuration
      && (base.isPlaying <==> progressBarInterval.Some?)
      && timers == Live(progressBarInterval)
      && (progressBarInterval.Some? ==>
            && 0.0 <= progressBarInterval.value.startPlaybackTime <= totalDuration
            && progressBarInterval.value.id < nextTimerId)
    }

    constructor (mockDuration: real)
      requires 0.0 <= mockDuration
      ensures Valid() && fresh(base)
      ensures totalDuration == mockDuration && !base.isPlaying
      ensures currentMockPlaybackTime == 0.0 && progressBarInterval == None && timers == {}
      ensures base.progress == Number(0.0) && base.timeLabel == FormatDuration(Number(mockDuration))
    {
      base := new AudioPlayerBase();
      totalDuration := mockDuration;
      currentMockPlaybackTime := 0.0;
      progressBarInterval := None;
      timers := {};
      nextTimerId := 0;
      new;
      base.timeLabel := FormatDuration(Number(totalDuration));
      base.UpdateWaveformProgress(Number(0.0));
    }

    /**
     * `play()`: a no-op while playing; otherwise starts one timer anchored at
     * the current position and the current instant.
     */
    method Play(now: real)
      requires Valid()
      modifies this, base
      ensures Valid()
      ensures old(base.isPlaying) ==> unchanged(this) && unchanged(base)
      ensures !old(base.isPlaying) ==>
                && base.isPlaying && icon == PauseIcon
                && progressBarInterval == Some(Interval(old(nextTimerId), now, currentMockPlaybackTime))
                && timers == {progressBarInterval.value}
                && nextTimerId == old(nextTimerId) + 1
      ensures currentMockPlaybackTime == old(currentMockPlaybackTime)
      ensures base.progress == old(base.progress) && base.timeLabel == old(base.timeLabel)
    {
      if base.isPlaying {
        return;
      }
      base.isPlaying := true;
      icon := PauseIcon;
      var iv := Interval(nextTimerId, now, currentMockPlaybackTime);
      nextTimerId := nextTimerId + 1;
      timers := timers + {iv};
      progressBarInterval := Some(iv);
    }

    /**
     * One firing of the playback timer at instant `now`: the position becomes
     * the anchored position plus the elapsed time; at or past the end the
     * player completes, otherwise progress and label follow the position.
     */
    method Tick(iv: Interval, now: real)
      requires Valid() && iv in timers && iv.startTime <= now
      modifies this, base
      ensures Valid()
      ensures TickPosition(iv, now) >= totalDuration ==>
                && !base.isPlaying && icon == PlayIcon
                && progressBarInterval == None && timers == {}
                && currentMockPlaybackTime == 0.0
                && base.progress == Number(0.0)
                && base.timeLabel == FormatDuration(Number(totalDuration))
      ensures TickPosition(iv, now) < totalDuration ==>
                && base.isPlaying && progressBarInterval == Some(iv) && timers == {iv}
                && currentMockPlaybackTime == TickPosition(iv, now)
                && base.progress == Percent(currentMockPlaybackTime, totalDuration)
                && 0.0 <= base.progress.x < 100.0
                && base.timeLabel == FormatDuration(Number(currentMockPlaybackTime))
                && icon == old(icon)
      ensures nextTimerId == old(nextTimerId)
    {
      var t := TickPosition(iv, now);
      if t >= totalDuration {
        currentMockPlaybackTime := t;
        StopMockPlayback(true);
        return;
      }
      currentMockPlaybackTime := t;
      var progress := Percent(currentMockPlaybackTime, totalDuration);
      base.UpdateWaveformProgress(progress);
      base.UpdateCurrentTimeDisplay(Number(currentMockPlaybackTime));
    }

    /** `pause()`: a no-op unless playing; otherwise clears the timer and keeps the position. */
    method Pause()
      requires Valid()
      modifies this, base
      ensures Valid()
      ensures !old(base.isPlaying) ==> unchanged(this) && unchanged(base)
      ensures !base.isPlaying && progressBarInterval == None && timers == {}
      ensures old(base.isPlaying) ==> icon == PlayIcon
      ensures currentMockPlaybackTime == old(currentMockPlaybackTime) && nextTimerId == old(nextTimerId)
      ensures base.progress == old(base.progress) && base.timeLabel == old(base.timeLabel)
    {
      if !base.isPlaying {
        return;
      }
      base.isPlaying := false;
      icon := PlayIcon;
      timers := timers - Live(progressBarInterval);
      progressBarInterval := None;
    }

    /**
     * `seek(t)`: the position becomes `t` clamped to the track and progress and
     * label follow at once; a playing player stays playing with a single new
     * timer anchored at the new position (restart on seek).
     */
    method Seek(newTime: real, now: real)
      requires Valid()
      modifies this, base
      ensures Valid()
      ensures currentMockPlaybackTime == Clamp(newTime, totalDuration)
      ensures base.progress == Percent(currentMockPlaybackTime, totalDuration)
      ensures base.timeLabel == FormatDuration(Number(currentMockPlaybackTime))
      ensures base.isPlaying == old(base.isPlaying)
      ensures old(base.isPlaying) ==>
                && progressBarInterval == Some(Interval(old(nextTimerId), now, currentMockPlaybackTime))
                && timers == {progressBarInterval.value}
                && icon == PauseIcon && nextTimerId == old(nextTimerId) + 1
      ensures !old(base.isPlaying) ==>
                progressBarInterval == None && timers == {} && icon == old(icon) && nextTimerId == old(nextTimerId)
    {
      currentMockPlaybackTime := Clamp(newTime, totalDuration);
      var progress := Percent(currentMockPlaybackTime, totalDuration);
      base.UpdateWaveformProgress(progress);
      base.UpdateCurrentTimeDisplay(Number(currentMockPlaybackTime));
      if base.isPlaying {
        Pause();
        Play(now);
      }
    }

    /** `togglePlay()`: pauses a playing player and plays a paused one. */
    method TogglePlay(now: real)
      requires Valid()
      modifies this, base
      ensures Valid()
      ensures base.isPlaying == !old(base.isPlaying)
      ensures icon == (if base.isPlaying then PauseIcon else PlayIcon)
      ensures base.isPlaying ==>
                && progressBarInterval == Some(Interval(old(nextTimerId), now, currentMockPlaybackTime))
                && timers == {progressBarInterval.value} && nextTimerId == old(nextTimerId) + 1
      ensures !base.isPlaying ==> progressBarInterval == None && timers == {} && nextTimerId == old(nextTimerId)
      ensures currentMockPlaybackTime == old(currentMockPlaybackTime)
      ensures base.progress == old(base.progress) && base.timeLabel == old(base.timeLabel)
    {
      if base.isPlaying {
        Pause();
      } else {
        Play(now);
      }
    }

    /**
     * `_stopMockPlayback(completed)`: clears the timer and stops; on
     * completion the position and progress return to zero while the label
     * shows the whole duration.
     */
    method StopMockPlayback(completed: bool)
      requires 0.0 <= totalDuration
      requires progressBarInterval.Some? ==> progressBarInterval.value.id < nextTimerId
      requires timers == Live(progressBarInterval)
      requires completed || 0.0 <= currentMockPlaybackTime <= totalDuration
      modifies this, base
      ensures Valid()
      ensures !base.isPlaying && icon == PlayIcon && progressBarInterval == None && timers == {}
      ensures nextTimerId == old(nextTimerId)
      ensures completed ==>
                && currentMockPlaybackTime == 0.0
                && base.progress == Number(0.0)
                && base.timeLabel == FormatDuration(Number(totalDuration))
      ensures !completed ==>
                && currentMockPlaybackTime == old(currentMockPlaybackTime)
                && base.progress == old(base.progress) && base.timeLabel == old(base.timeLabel)
    {
      timers := timers - Live(progressBarInterval);
      progressBarInterval := None;
      base.isPlaying := false;
      icon := PlayIcon;
      if completed {
        currentMockPlaybackTime := 0.0;
        base.UpdateWaveformProgress(Number(0.0));
        base.UpdateCurrentTimeDisplay(Number(totalDuration));
      }
    }

    /** `getCurrentTime()`: the position, which lies within the track. */
    method GetCurrentTime() returns (t: real)
      requires Valid()
      ensures t == currentMockPlaybackTime && 0.0 <= t <= totalDuration
    {
      t := currentMockPlaybackTime;
    }

    /** `getTotalDuration()`: the nominal duration given at construction. */
    method GetTotalDuration() returns (d: real)
      requires Valid()
      ensures d == totalDuration && 0.0 <= d
    {
      d := totalDuration;
    }
  }

  /** While valid, a simulated player has at most one live timer, and one exactly when playing. */
  lemma AtMostOneDriver(p: MockAudioPlayer)
    requires p.Valid()
    ensures |p.timers| <= 1
    ensures p.base.isPlaying <==> |p.timers| == 1
  {
  }

  /**
   * Playing a five-second track from the start and letting the timer fire
   * 5.05 seconds later leaves the player idle at position zero with the label
   * showing the whole duration.
   */
  method FiveSecondPlaythrough() returns (playing: bool, position: real, shown: string)
    ensures !playing && position == 0.0 && shown == "00:05"
  {
    var p := new MockAudioPlayer(5.0);
    p.Play(0.0);
    p.Tick(p.progressBarInterval.value, 5050.0);
    playing, position, shown := p.base.isPlaying, p.currentMockPlaybackTime, p.base.timeLabel;
    assert (5.0 / 60.0).Floor == 0 && Round(Rem60(5.0)) == 5;
    assert Pad2(0) == "00" && Pad2(5) == "05";
  }
}
