/** Rounding to whole frames at 24 frames per second. The repository rounds
    in two flavours: Python's `round` (nearest integer, ties to even) in the
    export scripts and JavaScript's `Math.round` (nearest integer, ties
    towards +infinity) in the compositions. Every time in the repository is
    a whole number of milliseconds, and at that resolution the two never
    disagree: 24 * ms / 1000 is never exactly halfway between two frames. */
module Rounding {

  /** Python `round(x)` on an exact value: the nearest integer, and on a tie
      the even one of the two neighbours. */
  function RoundHalfEven(x: real): (r: int)
    ensures -0.5 <= x - r as real <= 0.5
    ensures x - r as real == 0.5 || x - r as real == -0.5 ==> r % 2 == 0
  {
    var f := x.Floor;
    var d := x - f as real;
    if d < 0.5 then f
    else if d > 0.5 then f + 1
    else if f % 2 == 0 then f
    else f + 1
  }

  /** JavaScript `Math.round(x)`: the nearest integer, and on a tie the larger
      of the two neighbours (so `Math.round(-2.5) == -2`). */
  function JsRound(x: real): (r: int)
    ensures r as real - 0.5 <= x < r as real + 0.5
  {
    (x + 0.5).Floor
  }

  /** The two postconditions of RoundHalfEven single out one integer. */
  lemma RoundHalfEvenUnique(x: real, n: int)
    requires -0.5 <= x - n as real <= 0.5
    requires x - n as real == 0.5 || x - n as real == -0.5 ==> n % 2 == 0
    ensures n == RoundHalfEven(x)
  {
  }

  /** On a tie whose lower neighbour is even the two roundings differ: 12.5
      frames (half a second plus 1/48 s) rounds to 12 in Python and to 13
      in JavaScript. */
  lemma RoundingsDifferOnTie()
    ensures RoundHalfEven(12.5) == 12 && JsRound(12.5) == 13
  {
  }

  /** The number of frames in `ms` milliseconds at 24 frames per second: the
      integer nearest to 24 * ms / 1000 = 3 * ms / 125, which is always
      strictly less than half a frame away. */
  function FramesAt24(ms: int): (r: int)
    ensures -125 < 2 * (3 * ms - 125 * r) < 125
  {
    (6 * ms + 125) / 250
  }

  /** The exact number of frames in `ms` milliseconds at 24 fps. */
  function ExactFrames(ms: int): real {
    ms as real * 24.0 / 1000.0
  }

  /** FramesAt24 is the frame count strictly nearer than half a frame. */
  lemma FramesAt24Nearest(ms: int)
    ensures -0.5 < ExactFrames(ms) - FramesAt24(ms) as real < 0.5
  {
    var r := FramesAt24(ms);
    var e := 3 * ms - 125 * r;
    assert ExactFrames(ms) - r as real == e as real / 125.0;
  }

  /** Python's `int(round(s * 24))` for a time of `ms` milliseconds. */
  lemma FramesAt24IsPythonRound(ms: int)
    ensures FramesAt24(ms) == RoundHalfEven(ExactFrames(ms))
  {
    FramesAt24Nearest(ms);
    RoundHalfEvenUnique(ExactFrames(ms), FramesAt24(ms));
  }

  /** JavaScript's `Math.round(s * 24)` for a time of `ms` milliseconds. */
  lemma FramesAt24IsJsRound(ms: int)
    ensures FramesAt24(ms) == JsRound(ExactFrames(ms))
  {
    FramesAt24Nearest(ms);
  }

  /** Whole seconds are exactly 24 frames each. */
  lemma FramesAt24WholeSeconds(s: int)
    ensures FramesAt24(1000 * s) == 24 * s
  {
  }
}
