/**
 * Brightness arithmetic of the LED strip: the clamp of led_setbrightness and the
 * quantised ramp the two animation loops compute each frame.
 *
 * The loops compute ceil((t / T) * 10) / 10 on floats and push int(brightness * 255).
 * Here elapsed time t and duration T are integers in one time unit, the ramp step is
 * ceil(10 t / T) in 0..10, and the pushed value is floor(step * 255 / 10), or
 * floor((10 - step) * 255 / 10) when the ramp is inverted.
 */
module Brightness {

  const MaxBrightness: int := 255
  const RampSteps: int := 10

  function Abs(x: int): nat {
    if x < 0 then -x else x
  }

  /** led_setbrightness's clamp of its argument to 0..255. */
  function Clamp(b: int): (r: int)
    ensures 0 <= r <= MaxBrightness
    ensures 0 <= b <= MaxBrightness ==> r == b
  {
    if b < 0 then 0 else if b > MaxBrightness then MaxBrightness else b
  }

  /** The clamped value is the brightness in 0..255 nearest to the argument. */
  lemma ClampNearest(b: int, v: int)
    requires 0 <= v <= MaxBrightness
    ensures Abs(Clamp(b) - b) <= Abs(v - b)
  {
  }

  /** Clamping keeps order and is idempotent. */
  lemma ClampMonotoneIdempotent(b1: int, b2: int)
    ensures b1 <= b2 ==> Clamp(b1) <= Clamp(b2)
    ensures Clamp(Clamp(b1)) == Clamp(b1)
  {
  }

  /**
   * ceil(10 t / T): the least step whose share of the duration is at least t.
   * Only evaluated inside the loops, where the duration is positive.
   */
  function RampStep(t: nat, duration: int): (step: nat)
    requires duration > 0
    ensures step * duration >= RampSteps * t
    ensures step * duration < RampSteps * t + duration
  {
    (RampSteps * t + duration - 1) / duration
  }

  /** Inside the loop (t < T) the step is in 0..10, zero exactly at t = 0, and ten exactly in the last tenth. */
  lemma RampStepRange(t: nat, duration: int)
    requires t < duration
    ensures RampStep(t, duration) <= RampSteps
    ensures RampStep(t, duration) == 0 <==> t == 0
    ensures RampStep(t, duration) == RampSteps <==> (RampSteps - 1) * duration < RampSteps * t
  {
    var step := RampStep(t, duration);
    MulMonotone(RampSteps + 1, step, duration);
    MulMonotone(step, RampSteps - 1, duration);
    MulMonotone(RampSteps, step, duration);
  }

  lemma MulMonotone(a: int, b: int, c: nat)
    ensures a <= b ==> a * c <= b * c
  {
  }

  /** The step never decreases as elapsed time grows. */
  lemma RampStepMonotone(t1: nat, t2: nat, duration: int)
    requires t1 <= t2 && duration > 0
    ensures RampStep(t1, duration) <= RampStep(t2, duration)
  {
    var s1, s2 := RampStep(t1, duration), RampStep(t2, duration);
    MulMonotone(s2 + 1, s1, duration);
  }

  /** int(brightness * 255) for the step, inverted (1 - brightness) when decreasing. */
  function RampLevel(step: nat, decrease: bool): (v: int)
    requires step <= RampSteps
    ensures 0 <= v <= MaxBrightness
    ensures v == 0 <==> (if decrease then step == RampSteps else step == 0)
    ensures v == MaxBrightness <==> (if decrease then step == 0 else step == RampSteps)
  {
    if decrease then (RampSteps - step) * MaxBrightness / RampSteps
    else step * MaxBrightness / RampSteps
  }

  /** The increasing levels grow with the step, the inverted ones shrink, and inverting mirrors the step. */
  lemma RampLevelMonotone(s1: nat, s2: nat)
    requires s1 <= s2 <= RampSteps
    ensures RampLevel(s1, false) <= RampLevel(s2, false)
    ensures RampLevel(s1, true) >= RampLevel(s2, true)
    ensures RampLevel(s1, true) == RampLevel(RampSteps - s1, false)
  {
    MulMonotone(s1, s2, MaxBrightness);
    MulMonotone(RampSteps - s2, RampSteps - s1, MaxBrightness);
  }

  /** The brightness pushed for a frame taken at elapsed time t of a loop lasting duration. */
  function FrameLevel(t: nat, duration: int, decrease: bool): (v: int)
    requires t < duration
    ensures 0 <= v <= MaxBrightness
  {
    RampStepRange(t, duration);
    RampLevel(RampStep(t, duration), decrease)
  }

  /**
   * Over a loop the pushed brightness moves one way only: up from 0 for a fade-in, down
   * from 255 for a fade-out. It reaches the far end (255, or 0) exactly in the last tenth
   * of the duration, and led_setbrightness's clamp leaves it unchanged.
   */
  lemma FrameLevelProperties(t1: nat, t2: nat, duration: int)
    requires t1 <= t2 < duration
    ensures FrameLevel(t1, duration, false) <= FrameLevel(t2, duration, false)
    ensures FrameLevel(t1, duration, true) >= FrameLevel(t2, duration, true)
    ensures FrameLevel(0, duration, false) == 0 && FrameLevel(0, duration, true) == MaxBrightness
    ensures FrameLevel(t2, duration, false) == MaxBrightness <==> (RampSteps - 1) * duration < RampSteps * t2
    ensures FrameLevel(t2, duration, true) == 0 <==> (RampSteps - 1) * duration < RampSteps * t2
    ensures Clamp(FrameLevel(t1, duration, true)) == FrameLevel(t1, duration, true)
    ensures Clamp(FrameLevel(t1, duration, false)) == FrameLevel(t1, duration, false)
  {
    RampStepMonotone(t1, t2, duration);
    RampStepRange(t1, duration);
    RampStepRange(t2, duration);
    RampStepRange(0, duration);
    RampLevelMonotone(RampStep(t1, duration), RampStep(t2, duration));
  }
}
