/**
 * The part every audio player shares (AudioPlayerBase.js): the playing flag,
 * and the two page elements the player writes, the waveform's
 * `--audio-progress` percentage and the time label.
 */
module AudioPlayerBase {
  import opened Browser
  import opened TimeFormat

  class AudioPlayerBase {
    var isPlaying: bool
    /** The waveform element's `--audio-progress` value, in percent. */
    var progress: JsValue
    /** The duration element's text. */
    var timeLabel: string

    /** A new player is not playing; the two elements keep whatever the page gave them. */
    constructor ()
      ensures !isPlaying
    {
      isPlaying := false;
    }

    /** `_updateWaveformProgress(p)`: the waveform shows `p` percent and nothing else changes. */
    method UpdateWaveformProgress(progressPercent: JsValue)
      modifies this
      ensures progress == progressPercent
      ensures isPlaying == old(isPlaying) && timeLabel == old(timeLabel)
    {
      progress := progressPercent;
    }

    /** `_updateCurrentTimeDisplay(t)`: the label reads `formatDuration(t)` and nothing else changes. */
    method UpdateCurrentTimeDisplay(timeInSeconds: JsValue)
      modifies this
      ensures timeLabel == FormatDuration(timeInSeconds)
      ensures isPlaying == old(isPlaying) && progress == old(progress)
    {
      timeLabel := FormatDuration(timeInSeconds);
    }
  }
}
