/** The fade transition: a sweep of overlay alpha values, one display update and delay each. */
module Fading {

  /** Python's `range(start, stop, step)` for a non-zero step. */
  function PyRange(start: int, stop: int, step: int): (r: seq<int>)
    requires step != 0
    ensures r == [] <==> (step > 0 && start >= stop) || (step < 0 && start <= stop)
    ensures step > 0 ==> forall k :: 0 <= k < |r| ==> start <= r[k] < stop
    ensures step < 0 ==> forall k :: 0 <= k < |r| ==> stop < r[k] <= start
    decreases if step > 0 then stop - start else start - stop
  {
    if (step > 0 && start >= stop) || (step < 0 && start <= stop) then []
    else [start] + PyRange(start + step, stop, step)
  }

  /** A unit-step range holds the consecutive integers from `start` towards `stop`, excluding `stop`. */
  lemma {:induction false} UnitRangeAt(start: int, stop: int, step: int)
    requires step == 1 || step == -1
    ensures |PyRange(start, stop, step)| ==
      (if step == 1 && start < stop then stop - start else if step == -1 && start > stop then start - stop else 0)
    ensures forall k :: 0 <= k < |PyRange(start, stop, step)| ==> PyRange(start, stop, step)[k] == start + step * k
    decreases if step > 0 then stop - start else start - stop
  {
    if !((step > 0 && start >= stop) || (step < 0 && start <= stop)) {
      UnitRangeAt(start + step, stop, step);
    }
  }

  /** One iteration of the fade loop: the overlay alpha shown and the delay after it, in ms. */
  datatype FadeStep = FadeStep(alpha: int, delay: int)

  /**
   * `Game.fade(direction, duration)`: `"out"` sweeps alpha 0..254, anything else 255..0;
   * every step waits `duration // 255` ms (floor division, which Dafny's `/` agrees with
   * for the positive divisor 255).
   */
  method Fade(direction: string, duration: int) returns (steps: seq<FadeStep>)
    ensures |steps| == if direction == "out" then 255 else 256
    ensures forall k :: 0 <= k < |steps| ==>
      steps[k] == FadeStep(if direction == "out" then k else 255 - k, duration / 255)
  {
    var start, stop, step := 0, 255, 1;
    if direction != "out" {
      start, stop, step := 255, -1, -1;
    }
    UnitRangeAt(start, stop, step);
    steps := Sweep(PyRange(start, stop, step), duration / 255);
  }

  /** The loop of `Game.fade`: one overlay update per alpha value, each followed by `delay` ms. */
  method Sweep(alphas: seq<int>, delay: int) returns (steps: seq<FadeStep>)
    ensures |steps| == |alphas|
    ensures forall k :: 0 <= k < |alphas| ==> steps[k] == FadeStep(alphas[k], delay)
  {
    steps := [];
    for i := 0 to |alphas|
      invariant |steps| == i
      invariant forall k :: 0 <= k < i ==> steps[k] == FadeStep(alphas[k], delay)
    {
      steps := steps + [FadeStep(alphas[i], delay)];
    }
  }
}
