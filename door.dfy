/**
 * The door guard: a one-bit latch ("doorRunning" in the shared cache) that lets at most
 * one door routine run at a time, and the skeleton of the door routine that uses it.
 * The strip and the door are distinct objects.
 */
module DoorGuard {
  import opened Brightness
  import opened Animation

  /** The length of the closing fade-out, in seconds. */
  const ClosingSeconds: int := 2

  /** The latch; the cached flag is the field doorRunning. */
  class Door {
    var doorRunning: bool

    /** Creating the guard clears the cached flag. */
    constructor ()
      ensures !doorRunning
    {
      doorRunning := false;
    }

    method Start()
      modifies this
      ensures doorRunning
    {
      doorRunning := true;
    }

    method Stop()
      modifies this
      ensures !doorRunning
    {
      doorRunning := false;
    }

    /**
     * Check-and-set: grants the run (and sets the flag) exactly when the flag was clear;
     * a refused call leaves the flag as it was, that is, set.
     */
    method CanIRun() returns (granted: bool)
      modifies this
      ensures granted == !old(doorRunning)
      ensures doorRunning
    {
      if doorRunning {
        granted := false;
      } else {
        doorRunning := true;
        granted := true;
      }
    }
  }

  /**
   * doorLightsOn: while the door is still open (the GPIO reading is 0), the strip is set
   * to full brightness directly, bypassing led_setbrightness, lit white and pushed.
   */
  method DoorLightsOn(strip: LedStrip, doorOpen: bool)
    modifies strip
    ensures strip.brightness == (if doorOpen then MaxBrightness else old(strip.brightness))
    ensures strip.dark == (!doorOpen && old(strip.dark))
    ensures strip.pushed == old(strip.pushed) + LightsOnFrames([doorOpen])
  {
    if doorOpen {
      strip.brightness := MaxBrightness;
      strip.dark := false;
      strip.PushToDriver();
    }
  }

  /** The frames a series of doorLightsOn calls pushes, given the door reading each one sees. */
  function LightsOnFrames(opens: seq<bool>): (fs: seq<Frame>)
    ensures forall i :: 0 <= i < |fs| ==> fs[i] == Frame(MaxBrightness, false)
    ensures |fs| == 0 <==> true !in opens
    ensures |fs| <= |opens|
  {
    if opens == [] then []
    else LightsOnFrames(opens[..|opens| - 1]) + (if opens[|opens| - 1] then [Frame(MaxBrightness, false)] else [])
  }

  /** Some doorLightsOn call saw the door open. */
  function AnyOpen(opens: seq<bool>): (r: bool)
    ensures r <==> true in opens
  {
    if opens == [] then false else AnyOpen(opens[..|opens| - 1]) || opens[|opens| - 1]
  }

  lemma LightsOnSnoc(opens: seq<bool>, b: bool)
    ensures LightsOnFrames(opens + [b]) == LightsOnFrames(opens) + LightsOnFrames([b])
    ensures AnyOpen(opens + [b]) == (AnyOpen(opens) || b)
  {
    assert (opens + [b])[..|opens|] == opens;
  }

  /**
   * The doorLightsOn calls of the monitoring loop, one per iteration in which no show was
   * running; opens[i] is the door reading the i-th call sees.
   */
  method Monitor(strip: LedStrip, opens: seq<bool>)
    modifies strip
    ensures strip.brightness == (if AnyOpen(opens) then MaxBrightness else old(strip.brightness))
    ensures strip.dark == (!AnyOpen(opens) && old(strip.dark))
    ensures strip.pushed == old(strip.pushed) + LightsOnFrames(opens)
  {
    var i := 0;
    ghost var seen: seq<bool> := [];
    while i < |opens|
      invariant i <= |opens| && seen == opens[..i]
      invariant strip.brightness == (if AnyOpen(seen) then MaxBrightness else old(strip.brightness))
      invariant strip.dark == (!AnyOpen(seen) && old(strip.dark))
      invariant strip.pushed == old(strip.pushed) + LightsOnFrames(seen)
    {
      DoorLightsOn(strip, opens[i]);
      LightsOnSnoc(seen, opens[i]);
      seen := seen + [opens[i]];
      i := i + 1;
    }
    assert seen == opens;
  }

  /**
   * The skeleton of doorRoutine: acquire the guard; when acquired, start the door song
   * unless a show is already running, run the monitoring loop (whose doorLightsOn calls
   * see the readings in lightsOn), play the closing cue colorrotate(2, True, True) on the
   * strip, and release the guard. snapshotRaised says that one of the camera snapshots
   * (or another call before the closing cue) raised after those doorLightsOn calls: the
   * thread then ends there, and nothing releases the guard, which stays set. A refused
   * routine touches neither the strip nor the latch.
   */
  method DoorRoutine(door: Door, showRunning: bool, strip: LedStrip, lightsOn: seq<bool>,
                     snapshotRaised: bool, closingClock: seq<nat>)
    returns (acquired: bool, startsDoorSong: bool)
    modifies door, strip
    ensures acquired == !old(door.doorRunning)
    ensures startsDoorSong == (acquired && !showRunning)
    ensures door.doorRunning == (old(door.doorRunning) || snapshotRaised)
    ensures !acquired ==>
              strip.pushed == old(strip.pushed) && strip.brightness == old(strip.brightness)
              && strip.dark == old(strip.dark)
    ensures acquired && snapshotRaised ==>
              strip.pushed == old(strip.pushed) + LightsOnFrames(lightsOn)
              && strip.dark == (!AnyOpen(lightsOn) && old(strip.dark))
              && strip.brightness == (if AnyOpen(lightsOn) then MaxBrightness else old(strip.brightness))
    ensures acquired && !snapshotRaised ==>
              var n := FramesBefore(closingClock, ClosingSeconds * MillisPerSecond);
              var ls := Levels(closingClock[..n], ClosingSeconds * MillisPerSecond, true);
              var dark1 := !AnyOpen(lightsOn) && old(strip.dark);
              var bright1 := if AnyOpen(lightsOn) then MaxBrightness else old(strip.brightness);
              && strip.dark
              && strip.brightness == (if n == 0 then bright1 else ls[n - 1])
              && strip.pushed == old(strip.pushed) + LightsOnFrames(lightsOn) + Doubled(ls, dark1)
                                 + [Frame(strip.brightness, true)]
  {
    startsDoorSong := false;
    acquired := door.CanIRun();
    if acquired {
      if !showRunning {
        startsDoorSong := true;
      }
      Monitor(strip, lightsOn);
      if snapshotRaised {
        return;
      }
      ColorRotate(strip, ClosingSeconds, true, true, closingClock);
      door.Stop();
    }
  }

  /**
   * doorRoutine with its body after canIRun wrapped in try/finally door.stop(): the same
   * frames, but the guard is released on every path, a raised snapshot included.
   */
  method DoorRoutineReleasing(door: Door, showRunning: bool, strip: LedStrip, lightsOn: seq<bool>,
                              snapshotRaised: bool, closingClock: seq<nat>)
    returns (acquired: bool, startsDoorSong: bool)
    modifies door, strip
    ensures acquired == !old(door.doorRunning)
    ensures startsDoorSong == (acquired && !showRunning)
    ensures door.doorRunning == old(door.doorRunning)
    ensures !acquired ==>
              strip.pushed == old(strip.pushed) && strip.brightness == old(strip.brightness)
              && strip.dark == old(strip.dark)
    ensures acquired && snapshotRaised ==>
              strip.pushed == old(strip.pushed) + LightsOnFrames(lightsOn)
              && strip.dark == (!AnyOpen(lightsOn) && old(strip.dark))
              && strip.brightness == (if AnyOpen(lightsOn) then MaxBrightness else old(strip.brightness))
    ensures acquired && !snapshotRaised ==>
              var n := FramesBefore(closingClock, ClosingSeconds * MillisPerSecond);
              var ls := Levels(closingClock[..n], ClosingSeconds * MillisPerSecond, true);
              var dark1 := !AnyOpen(lightsOn) && old(strip.dark);
              var bright1 := if AnyOpen(lightsOn) then MaxBrightness else old(strip.brightness);
              && strip.dark
              && strip.brightness == (if n == 0 then bright1 else ls[n - 1])
              && strip.pushed == old(strip.pushed) + LightsOnFrames(lightsOn) + Doubled(ls, dark1)
                                 + [Frame(strip.brightness, true)]
  {
    startsDoorSong := false;
    acquired := door.CanIRun();
    if acquired {
      if !showRunning {
        startsDoorSong := true;
      }
      Monitor(strip, lightsOn);
      if !snapshotRaised {
        ColorRotate(strip, ClosingSeconds, true, true, closingClock);
      }
      door.Stop();
    }
  }

  /**
   * A door routine whose snapshot raises leaves the guard set, so the routine of the next
   * door edge is refused (the latch taken as a plain flag).
   */
  method LeakedGuard(strip: LedStrip) returns (first: bool, later: bool)
    modifies strip
    ensures first && !later
  {
    var door := new Door();
    var song;
    first, song := DoorRoutine(door, false, strip, [], true, []);
    later, song := DoorRoutine(door, false, strip, [], false, []);
  }

  /** With the guard released in a finally clause, the next door edge runs its routine. */
  method ReleasedGuard(strip: LedStrip) returns (first: bool, later: bool)
    modifies strip
    ensures first && later
  {
    var door := new Door();
    var song;
    first, song := DoorRoutineReleasing(door, false, strip, [], true, []);
    later, song := DoorRoutineReleasing(door, false, strip, [], false, []);
  }

  /**
   * Two door edges while the first routine still holds the guard: the first is granted,
   * the second refused; once the first releases it, a third edge is granted again.
   */
  method SecondEdgeIgnored() returns (first: bool, second: bool, afterRelease: bool)
    ensures first && !second && afterRelease
  {
    var door := new Door();
    first := door.CanIRun();
    second := door.CanIRun();
    door.Stop();
    afterRelease := door.CanIRun();
  }
}
