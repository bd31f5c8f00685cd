/**
 * Negative.cs: inverts the picture by `ratio`. Each trigger waits one empty
 * frame, then animates `ratio` from one end of [0, 1] to the other,
 * alternating direction from run to run.
 */
module NegativeEffect {
  import opened UnityMath
  import opened Transition
  import opened Controller

  /**
   * A fresh component starts with `isNegative` unset, so its first run
   * animates `ratio` from 0 to 1, the next from 1 back to 0, and so on:
   * the run that follows n earlier runs goes up when n is even.
   */
  lemma RunDirection(n: nat)
    ensures PhaseEnds(PhaseAfter(false, n), 1.0) == (if n % 2 == 0 then (0.0, 1.0) else (1.0, 0.0))
  {
    PhaseEndsAlternate(false, n, 1.0);
  }

  class Negative {
    /** ClampedFloatParameter(0, 0, 1). */
    var ratio: real
    /** FloatParameter(0.25): the length of a run, in seconds. */
    var effectTime: real
    /** Set when the last run animated towards the negative picture. */
    var isNegative: bool
    /** Whether Setup created the material. */
    var hasMaterial: bool

    ghost predicate Valid()
      reads this
    {
      0.0 <= ratio <= 1.0
    }

    /** The component as declared, with or without its material. */
    constructor (hasMaterial: bool)
      ensures Valid()
      ensures ratio == 0.0 && effectTime == 0.25 && !isNegative && this.hasMaterial == hasMaterial
      ensures !IsActive()
    {
      ratio := 0.0;
      effectTime := 0.25;
      isNegative := false;
      this.hasMaterial := hasMaterial;
    }

    function IsActive(): (active: bool)
      reads this
      ensures active ==> hasMaterial
      ensures hasMaterial ==> (active <==> ratio > 0.0)
    {
      hasMaterial && ratio > 0.0
    }

    /** Writes `ratio` only: the effect becomes inactive, and the phase is kept. */
    method Reset()
      modifies this`ratio
      ensures ratio == 0.0 && Valid() && !IsActive()
    {
      ratio := 0.0;
    }

    /**
     * Execute: starts ApplyNegative whatever the trigger type. `dts` are the
     * frame times of the frames in which the coroutine's loop body runs,
     * after its initial empty frame.
     */
    method Execute(kind: PostProcessType, dts: seq<real>, ease: Easer) returns (duration: real)
      requires Valid() && NonNegative(dts)
      modifies this`ratio, this`isNegative
      ensures Valid() && isNegative == !old(isNegative)
      ensures StoppedAt(effectTime, dts, duration)
      ensures Countdown(effectTime, dts) == [] ==> ratio == old(ratio)
      ensures Countdown(effectTime, dts) != [] ==>
        var (start, end) := PhaseEnds(old(isNegative), 1.0);
        ratio == Clamp(ease(QuadOut, start, end, LastProgress(effectTime, dts)), 0.0, 1.0)
    {
      duration := ApplyNegative(dts, ease);
    }

    /**
     * The coroutine: after its empty frame it reads the phase, picks
     * (start, end) = isNegative ? (1, 0) : (0, 1), flips the phase and counts
     * `duration` down from `effectTime`, writing `ratio` on every iteration.
     * The last write is the eased value at the progress where the countdown
     * stopped, clamped into [0, 1] (a progress of exactly 1 once the frames
     * add up to `effectTime`).
     */
    method ApplyNegative(dts: seq<real>, ease: Easer) returns (duration: real)
      requires Valid() && NonNegative(dts)
      modifies this`ratio, this`isNegative
      ensures Valid() && isNegative == !old(isNegative)
      ensures StoppedAt(effectTime, dts, duration)
      ensures Countdown(effectTime, dts) == [] ==> ratio == old(ratio)
      ensures Countdown(effectTime, dts) != [] ==>
        var (start, end) := PhaseEnds(old(isNegative), 1.0);
        ratio == Clamp(ease(QuadOut, start, end, LastProgress(effectTime, dts)), 0.0, 1.0)
    {
      duration := effectTime;
      var start: real := if isNegative then 1.0 else 0.0;
      var end := 1.0 - start;
      isNegative := !isNegative;
      ghost var written: seq<real> := [];
      CountingStarts(effectTime, dts);
      var i := 0;
      while duration > 0.0 && i < |dts|
        invariant Counting(effectTime, dts, i, written, duration)
        invariant written == [] ==> ratio == old(ratio)
        invariant written != [] ==> ratio == Clamp(ease(QuadOut, start, end, Elapsed(duration, effectTime)), 0.0, 1.0)
        invariant Valid() && isNegative == !old(isNegative)
        decreases |dts| - i
      {
        CountingStep(effectTime, dts, i, written, duration);
        duration := Max(duration - dts[i], 0.0);
        ratio := Clamp(ease(QuadOut, start, end, Elapsed(duration, effectTime)), 0.0, 1.0);
        written := written + [duration];
        i := i + 1;
      }
      CountingStops(effectTime, dts, i, written, duration);
    }
  }
}
