/**
 * The LED strip as the animation loops see it, and the two loops rainbow and colorrotate.
 *
 * The strip keeps its brightness, whether its pixels are all off (dark), and the list of
 * frames pushed to the driver; a frame records the brightness and darkness it was pushed
 * with. Pixel colours and hues are not modelled. The loops read the wall clock before the
 * first frame and after each one; here the clock is a sequence of elapsed-time readings
 * in milliseconds, each rounded up to a whole millisecond and never negative, and a loop
 * of runSeconds lasts runSeconds * 1000 of them.
 */
module Animation {
  import opened Brightness

  const MillisPerSecond: int := 1000

  datatype Frame = Frame(brightness: int, dark: bool)

  class LedStrip {
    var brightness: int
    var dark: bool
    var pushed: seq<Frame>

    /** push_to_driver: send the current state as one frame. */
    method PushToDriver()
      modifies this
      ensures pushed == old(pushed) + [Frame(brightness, dark)]
      ensures brightness == old(brightness) && dark == old(dark)
    {
      pushed := pushed + [Frame(brightness, dark)];
    }

    /** led_setbrightness: store the argument clamped to 0..255, then push. */
    method SetBrightness(b: int)
      modifies this
      ensures brightness == Clamp(b) && dark == old(dark)
      ensures pushed == old(pushed) + [Frame(Clamp(b), dark)]
    {
      brightness := Clamp(b);
      PushToDriver();
    }

    /** led_clear: all pixels off, then push. */
    method Clear()
      modifies this
      ensures dark && brightness == old(brightness)
      ensures pushed == old(pushed) + [Frame(brightness, true)]
    {
      dark := true;
      PushToDriver();
    }
  }

  /** The number of frames a loop renders: the readings before the first one at or past the duration. */
  function FramesBefore(clock: seq<nat>, duration: int): (n: nat)
    ensures n <= |clock|
    ensures forall i :: 0 <= i < n ==> clock[i] < duration
    ensures n < |clock| ==> clock[n] >= duration
  {
    if clock == [] || clock[0] >= duration then 0
    else 1 + FramesBefore(clock[1..], duration)
  }

  ghost predicate AllBefore(ts: seq<nat>, duration: int) {
    forall i :: 0 <= i < |ts| ==> ts[i] < duration
  }

  /** The brightness of each rendered frame. */
  function Levels(ts: seq<nat>, duration: int, decrease: bool): seq<int>
    requires AllBefore(ts, duration)
  {
    seq(|ts|, i requires 0 <= i < |ts| => FrameLevel(ts[i], duration, decrease))
  }

  /** One lit frame per level (rainbow pushes once per iteration). */
  function Lit(ls: seq<int>): seq<Frame> {
    seq(|ls|, i requires 0 <= i < |ls| => Frame(ls[i], false))
  }

  /**
   * Two frames per level (colorrotate pushes in led_setbrightness and again after the
   * fill); the very first one still shows the pixels as they were before the loop.
   */
  function Doubled(ls: seq<int>, dark0: bool): seq<Frame> {
    seq(2 * |ls|, i requires 0 <= i < 2 * |ls| => Frame(ls[i / 2], i == 0 && dark0))
  }

  /** The optional closing frame of led_clear. */
  function ClearFrames(clear: bool, b: int): seq<Frame> {
    if clear then [Frame(b, true)] else []
  }

  /**
   * With a clock that never runs backwards, a fade-in pushes brightness that never
   * decreases and a fade-out brightness that never increases, all within 0..255.
   */
  lemma {:induction false} LevelsMonotone(ts: seq<nat>, duration: int, decrease: bool, i: nat, j: nat)
    requires AllBefore(ts, duration)
    requires forall k :: 0 < k < |ts| ==> ts[k - 1] <= ts[k]
    requires i <= j < |ts|
    ensures 0 <= Levels(ts, duration, decrease)[i] <= MaxBrightness
    ensures !decrease ==> Levels(ts, duration, decrease)[i] <= Levels(ts, duration, decrease)[j]
    ensures decrease ==> Levels(ts, duration, decrease)[i] >= Levels(ts, duration, decrease)[j]
    decreases j - i
  {
    if i < j {
      LevelsMonotone(ts, duration, decrease, i + 1, j);
      FrameLevelProperties(ts[i], ts[i + 1], duration);
    }
  }

  lemma LevelsSnoc(ts: seq<nat>, t: nat, duration: int, decrease: bool)
    requires AllBefore(ts, duration) && t < duration
    ensures AllBefore(ts + [t], duration)
    ensures Levels(ts + [t], duration, decrease) == Levels(ts, duration, decrease) + [FrameLevel(t, duration, decrease)]
  {
    var ts' := ts + [t];
    assert forall i :: 0 <= i < |ts| ==> ts'[i] == ts[i];
  }

  /** Where the loop stops: at the first reading at or past the duration, or when the readings run out. */
  lemma FramesBeforeExit(clock: seq<nat>, duration: int, i: nat)
    requires i <= |clock| && AllBefore(clock[..i], duration)
    requires i == |clock| || clock[i] >= duration
    ensures FramesBefore(clock, duration) == i
  {
    var n := FramesBefore(clock, duration);
    assert forall k :: 0 <= k < i ==> clock[k] == clock[..i][k];
  }

  lemma LitSnoc(ls: seq<int>, l: int)
    ensures Lit(ls + [l]) == Lit(ls) + [Frame(l, false)]
  {
  }

  lemma DoubledSnoc(ls: seq<int>, l: int, dark0: bool)
    ensures Doubled(ls + [l], dark0) == Doubled(ls, dark0) + [Frame(l, ls == [] && dark0), Frame(l, false)]
  {
    var ls' := ls + [l];
    assert forall i :: 0 <= i < 2 * |ls| ==> i / 2 < |ls| && ls'[i / 2] == ls[i / 2];
    assert (2 * |ls|) / 2 == |ls| && (2 * |ls| + 1) / 2 == |ls|;
  }

  /**
   * rainbow(runSeconds, clear, decreaseBrightness): one frame per reading taken before
   * runSeconds elapsed, each at the ramp's brightness, then the optional clear. With a
   * non-positive duration the loop never runs, so no ramp is computed at all.
   */
  method Rainbow(strip: LedStrip, runSeconds: int, clear: bool, decrease: bool, clock: seq<nat>)
    modifies strip
    ensures var n := FramesBefore(clock, runSeconds * MillisPerSecond);
            var ls := Levels(clock[..n], runSeconds * MillisPerSecond, decrease);
            && strip.brightness == (if n == 0 then old(strip.brightness) else ls[n - 1])
            && strip.dark == (clear || (n == 0 && old(strip.dark)))
            && strip.pushed == old(strip.pushed) + Lit(ls) + ClearFrames(clear, strip.brightness)
    ensures runSeconds <= 0 ==> strip.pushed == old(strip.pushed) + ClearFrames(clear, strip.brightness)
  {
    var duration := runSeconds * MillisPerSecond;
    var i := 0;
    while i < |clock| && clock[i] < duration
      invariant i <= |clock| && AllBefore(clock[..i], duration)
      invariant var ls := Levels(clock[..i], duration, decrease);
                && strip.brightness == (if i == 0 then old(strip.brightness) else ls[i - 1])
                && strip.dark == (i == 0 && old(strip.dark))
                && strip.pushed == old(strip.pushed) + Lit(ls)
    {
      var level := FrameLevel(clock[i], duration, decrease);
      // setHSV on every pixel lights the strip; set_brightness stores the level as it is.
      strip.dark := false;
      strip.brightness := level;
      strip.PushToDriver();
      LevelsSnoc(clock[..i], clock[i], duration, decrease);
      assert clock[..i + 1] == clock[..i] + [clock[i]];
      LitSnoc(Levels(clock[..i], duration, decrease), level);
      i := i + 1;
    }
    FramesBeforeExit(clock, duration, i);
    if clear {
      strip.Clear();
    }
  }

  /** One iteration of colorrotate for a level in 0..255: led_setbrightness, fillHSV, push. */
  method ShowColorFrame(strip: LedStrip, level: int)
    requires 0 <= level <= MaxBrightness
    modifies strip
    ensures strip.brightness == level && !strip.dark
    ensures strip.pushed == old(strip.pushed) + [Frame(level, old(strip.dark)), Frame(level, false)]
  {
    strip.SetBrightness(level);
    // fillHSV lights every pixel.
    strip.dark := false;
    strip.PushToDriver();
  }

  /**
   * colorrotate(runSeconds, clear, decreaseBrightness): per reading before runSeconds,
   * led_setbrightness pushes the ramp's brightness (which its clamp leaves unchanged) and
   * the fill pushes again; then the optional clear.
   */
  method ColorRotate(strip: LedStrip, runSeconds: int, clear: bool, decrease: bool, clock: seq<nat>)
    modifies strip
    ensures var n := FramesBefore(clock, runSeconds * MillisPerSecond);
            var ls := Levels(clock[..n], runSeconds * MillisPerSecond, decrease);
            && strip.brightness == (if n == 0 then old(strip.brightness) else ls[n - 1])
            && strip.dark == (clear || (n == 0 && old(strip.dark)))
            && strip.pushed == old(strip.pushed) + Doubled(ls, old(strip.dark)) + ClearFrames(clear, strip.brightness)
    ensures runSeconds <= 0 ==> strip.pushed == old(strip.pushed) + ClearFrames(clear, strip.brightness)
  {
    var duration := runSeconds * MillisPerSecond;
    var i := 0;
    while i < |clock| && clock[i] < duration
      invariant i <= |clock| && AllBefore(clock[..i], duration)
      invariant var ls := Levels(clock[..i], duration, decrease);
                && strip.brightness == (if i == 0 then old(strip.brightness) else ls[i - 1])
                && strip.dark == (i == 0 && old(strip.dark))
                && strip.pushed == old(strip.pushed) + Doubled(ls, old(strip.dark))
    {
      var level := FrameLevel(clock[i], duration, decrease);
      ShowColorFrame(strip, level);
      LevelsSnoc(clock[..i], clock[i], duration, decrease);
      assert clock[..i + 1] == clock[..i] + [clock[i]];
      DoubledSnoc(Levels(clock[..i], duration, decrease), level, old(strip.dark));
      i := i + 1;
    }
    FramesBeforeExit(clock, duration, i);
    if clear {
      strip.Clear();
    }
  }
}
