/**
 * The ripple-wave bookkeeping of the shader background: a fixed buffer of
 * four wave slots `(x, y, startTime)`, a click that claims the first free
 * slot, the per-frame clock, and the shader's test for drawing a wave.
 */
module ShaderWaves {

  const MaxWaves: nat := 4
  /** Seconds a wave stays alive. */
  const WaveLifetime: real := 4.0
  /** Clock advance per animation frame. */
  const FrameStep: real := 0.015
  /** Start time of a slot that has never held a wave. */
  const InactiveStart: real := -100.0

  datatype Wave = Wave(x: real, y: real, start: real)

  /** A slot may be reused when it is inactive or its wave has outlived its lifetime. */
  predicate IsFree(w: Wave, now: real)
    ensures !IsFree(w, now) <==> 0.0 <= w.start && now <= w.start + WaveLifetime
  {
    w.start < 0.0 || now - w.start > WaveLifetime
  }

  /** The fragment shader's `continue` conditions: it draws nothing for this wave. */
  predicate ShaderSkips(w: Wave, time: real)
    ensures !ShaderSkips(w, time) <==> 0.0 <= w.start <= time <= w.start + WaveLifetime
  {
    w.start < 0.0 || time - w.start < 0.0 || time - w.start > WaveLifetime
  }

  /** For a non-negative elapsed time the shader skips a wave exactly when its slot is free. */
  lemma ShaderSkipsExactlyFreeSlots(w: Wave, time: real)
    requires time - w.start >= 0.0
    ensures ShaderSkips(w, time) <==> IsFree(w, time)
  {
  }

  /** A wave the shader draws always occupies a slot that is not free. */
  lemma DrawnWavesAreNotFree(w: Wave, time: real)
    requires !ShaderSkips(w, time)
    ensures !IsFree(w, time)
  {
  }

  /** The lowest index of a free slot, or -1 when every slot is busy. */
  function FirstFree(s: seq<Wave>, now: real): (k: int)
    ensures -1 <= k < |s|
    ensures k == -1 <==> forall i :: 0 <= i < |s| ==> !IsFree(s[i], now)
    ensures 0 <= k ==> IsFree(s[k], now) && forall i :: 0 <= i < k ==> !IsFree(s[i], now)
  {
    if |s| == 0 then -1
    else if IsFree(s[0], now) then 0
    else
      var k := FirstFree(s[1..], now);
      if k == -1 then -1 else k + 1
  }

  /** The slots after a click at `(x, y)` at time `now`. */
  function Spawned(s: seq<Wave>, now: real, x: real, y: real): (r: seq<Wave>)
    ensures |r| == |s|
    ensures forall i :: 0 <= i < |s| && r[i] != s[i] ==> i == FirstFree(s, now) && r[i] == Wave(x, y, now)
    ensures r == s <==> FirstFree(s, now) == -1 || s[FirstFree(s, now)] == Wave(x, y, now)
  {
    var k := FirstFree(s, now);
    if k == -1 then s else s[k := Wave(x, y, now)]
  }

  /**
   * A click overwrites the lowest free slot with `(x, y, now)` and leaves
   * every other slot alone; with no free slot nothing changes.
   */
  lemma SpawnOverwritesLowestFreeSlot(s: seq<Wave>, now: real, x: real, y: real, k: nat)
    requires k < |s| && IsFree(s[k], now)
    requires forall i :: 0 <= i < k ==> !IsFree(s[i], now)
    ensures var r := Spawned(s, now, x, y);
            |r| == |s| && r[k] == Wave(x, y, now) &&
            forall i :: 0 <= i < |s| && i != k ==> r[i] == s[i]
  {
  }

  /** With every slot busy, a click leaves the buffer as it was. */
  lemma SpawnWithoutFreeSlotChangesNothing(s: seq<Wave>, now: real, x: real, y: real)
    requires forall i :: 0 <= i < |s| ==> !IsFree(s[i], now)
    ensures Spawned(s, now, x, y) == s
  {
  }

  /** Number of free slots. */
  function FreeCount(s: seq<Wave>, now: real): nat {
    if |s| == 0 then 0
    else (if IsFree(s[0], now) then 1 else 0) + FreeCount(s[1..], now)
  }

  /** A click at a non-negative time uses up exactly one free slot, if there is one. */
  lemma {:induction false} SpawnUsesOneFreeSlot(s: seq<Wave>, now: real, x: real, y: real)
    requires now >= 0.0
    ensures FreeCount(Spawned(s, now, x, y), now) ==
            if FreeCount(s, now) == 0 then 0 else FreeCount(s, now) - 1
  {
    if |s| == 0 {
    } else if IsFree(s[0], now) {
      var r := Spawned(s, now, x, y);
      assert r[1..] == s[1..];
    } else {
      var k := FirstFree(s[1..], now);
      SpawnUsesOneFreeSlot(s[1..], now, x, y);
      if k == -1 {
        assert Spawned(s, now, x, y) == s;
      } else {
        var r := Spawned(s, now, x, y);
        assert r[0] == s[0];
        assert r[1..] == Spawned(s[1..], now, x, y);
      }
    }
  }

  /** The clock after `frames` animation frames starting from `t`. */
  function TimeAfter(t: real, frames: nat): (r: real)
    ensures r >= t
    ensures frames > 0 ==> r > t
    decreases frames
  {
    if frames == 0 then t else TimeAfter(t + FrameStep, frames - 1)
  }

  lemma {:induction false} TimeAfterIsLinear(t: real, frames: nat)
    ensures TimeAfter(t, frames) == t + FrameStep * frames as real
    decreases frames
  {
    if frames > 0 {
      TimeAfterIsLinear(t + FrameStep, frames - 1);
    }
  }

  /**
   * A wave started at a non-negative time stays busy for 266 frames
   * (3.99 time units) and is free from the 267th frame on (4.005 units).
   */
  lemma FreshWaveLifetimeInFrames(x: real, y: real, t: real, frames: nat)
    requires t >= 0.0
    ensures IsFree(Wave(x, y, t), TimeAfter(t, frames)) <==> frames > 266
  {
    TimeAfterIsLinear(t, frames);
    if frames > 266 {
      assert frames as real >= 267.0;
    } else {
      assert frames as real <= 266.0;
    }
  }

  /** When every slot is free, the free count is the buffer length. */
  lemma {:induction false} FreeCountWhenAllFree(s: seq<Wave>, now: real)
    requires forall i :: 0 <= i < |s| ==> IsFree(s[i], now)
    ensures FreeCount(s, now) == |s|
  {
    if |s| > 0 {
      FreeCountWhenAllFree(s[1..], now);
    }
  }

  /** Every slot of the initial buffer is free, whatever the clock says. */
  lemma InitialSlotsAreFree(now: real)
    ensures var s := seq(MaxWaves, _ => Wave(0.0, 0.0, InactiveStart));
            FirstFree(s, now) == 0 && FreeCount(s, now) == MaxWaves
  {
    FreeCountWhenAllFree(seq(MaxWaves, _ => Wave(0.0, 0.0, InactiveStart)), now);
  }

  /** The free-slot scan of the click handler: stops at the first free slot. */
  method FindFreeSlot(waves: array<Wave>, currentTime: real) returns (freeSlotIndex: int)
    ensures freeSlotIndex == FirstFree(waves[..], currentTime)
  {
    freeSlotIndex := -1;
    var i := 0;
    while i < waves.Length
      invariant 0 <= i <= waves.Length
      invariant freeSlotIndex == -1
      invariant forall j :: 0 <= j < i ==> !IsFree(waves[j], currentTime)
    {
      var w := waves[i];
      var elapsed := currentTime - w.start;
      if w.start < 0.0 || elapsed > WaveLifetime {
        freeSlotIndex := i;
        break;
      }
      i := i + 1;
    }
  }

  /** The wave buffer and clock shared between the click handler, the frame loop and the shader. */
  class RippleField {
    var waves: array<Wave>
    var time: real

    ghost predicate Valid()
      reads this
    {
      waves.Length == MaxWaves && time >= 0.0
    }

    /** Four inactive slots at start time -100 and the clock at 0. */
    constructor ()
      ensures Valid() && fresh(waves) && time == 0.0
      ensures waves[..] == seq(MaxWaves, _ => Wave(0.0, 0.0, InactiveStart))
    {
      time := 0.0;
      waves := new Wave[MaxWaves](_ => Wave(0.0, 0.0, InactiveStart));
    }

    /** A click or touch at physical position `(x, y)`. */
    method HandleInteraction(x: real, y: real)
      requires Valid()
      modifies waves
      ensures Valid()
      ensures waves[..] == Spawned(old(waves[..]), time, x, y)
    {
      var freeSlotIndex := FindFreeSlot(waves, time);
      if freeSlotIndex != -1 {
        waves[freeSlotIndex] := Wave(x, y, time);
      }
    }

    /** One animation frame: the clock advances. */
    method Animate()
      requires Valid()
      modifies this
      ensures Valid() && waves == old(waves) && unchanged(waves)
      ensures time == old(time) + FrameStep
    {
      time := time + FrameStep;
    }
  }
}
