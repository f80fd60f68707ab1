/**
 * The small part of the browser's JavaScript semantics that the chat
 * widget's audio code relies on: numbers that may be NaN or infinite,
 * `Math.floor`/`Math.round`/`%`, division by zero, interval timers and the
 * requests a page can make of a media element.
 */
module Browser {
  import opened Wrappers

  /** A value handed to a formatting helper: `null` (or any non-number), or a number. */
  datatype JsValue = Null | NaN | Infinity(negative: bool) | Number(x: real)

  /** `typeof v === 'number' && !isNaN(v) && isFinite(v)` */
  predicate IsFiniteNumber(v: JsValue) {
    v.Number?
  }

  /** `Math.round`: the nearest integer, halves going towards +infinity. */
  function Round(x: real): (r: int)
    ensures x - 0.5 < r as real <= x + 0.5
  {
    (x + 0.5).Floor
  }

  /** `Math.trunc` */
  function Trunc(x: real): (r: int)
    ensures 0.0 <= x ==> r as real <= x < r as real + 1.0
    ensures x < 0.0 ==> r as real - 1.0 < x <= r as real
  {
    if x >= 0.0 then x.Floor else -((-x).Floor)
  }

  /** `x % 60` on numbers: the remainder of truncating division, with the sign of `x`. */
  function Rem60(x: real): (r: real)
    ensures 0.0 <= x ==> 0.0 <= r < 60.0
    ensures x < 0.0 ==> -60.0 < r <= 0.0
  {
    x - 60.0 * Trunc(x / 60.0) as real
  }

  /** `cur / total * 100` as JavaScript evaluates it, including division by zero. */
  function Percent(cur: real, total: real): (r: JsValue)
    ensures total == 0.0 && cur == 0.0 ==> r == NaN
    ensures 0.0 <= cur <= total && total > 0.0 ==> r.Number? && 0.0 <= r.x <= 100.0
    ensures 0.0 <= cur < total ==> r.Number? && r.x < 100.0
    ensures total > 0.0 && cur == total ==> r == Number(100.0)
  {
    if total != 0.0 then Number(cur / total * 100.0)
    else if cur == 0.0 then NaN
    else Infinity(cur < 0.0)
  }

  /** `Math.min(Math.max(0, t), hi)` */
  function Clamp(t: real, hi: real): (r: real)
    requires 0.0 <= hi
    ensures 0.0 <= r <= hi
    ensures 0.0 <= t <= hi ==> r == t
    ensures t < 0.0 ==> r == 0.0
    ensures hi < t ==> r == hi
  {
    if t < 0.0 then 0.0 else if t > hi then hi else t
  }

  /**
   * A live `setInterval` timer whose callback closes over the instant it was
   * started (`performance.now()`, in milliseconds) and the playback position
   * it was started from (in seconds).
   */
  datatype Interval = Interval(id: nat, startTime: real, startPlaybackTime: real)

  /** The position a playback tick computes: `startPlaybackTime + elapsed / 1000`. */
  function TickPosition(iv: Interval, now: real): (t: real)
    ensures now == iv.startTime ==> t == iv.startPlaybackTime
    ensures iv.startTime <= now ==> iv.startPlaybackTime <= t
  {
    iv.startPlaybackTime + (now - iv.startTime) / 1000.0
  }

  /** The live timers a stored handle accounts for: none for `null`, one otherwise. */
  function Live(handle: Option<Interval>): (s: set<Interval>)
    ensures |s| <= 1
    ensures forall iv :: iv in s <==> handle == Some(iv)
  {
    if handle.Some? then {handle.value} else {}
  }

  /** What the page asks of a media element; the engine answers later with events. */
  datatype MediaRequest = LoadRequest | PlayRequest | PauseRequest

  /** The icon a play button shows. */
  datatype Icon = PlayIcon | PauseIcon
}
