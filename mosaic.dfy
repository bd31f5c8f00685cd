/**
 * Mosaic.cs: pixelates the picture into blocks of size `scale`. Each
 * trigger decays `scale` from `maxScale` towards 1.
 */
module MosaicEffect {
  import opened UnityMath
  import opened Transition
  import opened Controller

  class Mosaic {
    /** ClampedFloatParameter(0, 0, 100). */
    var scale: real
    /** ClampedFloatParameter(64, 0, 100). */
    var maxScale: real
    /** BoolParameter(false). */
    var isCircle: bool
    /** The length of a run, in seconds. */
    var transitionT: real
    var hasMaterial: bool

    ghost predicate Valid()
      reads this
    {
      0.0 <= scale <= 100.0 && 0.0 <= maxScale <= 100.0
    }

    constructor (hasMaterial: bool, transitionT: real)
      ensures Valid()
      ensures scale == 0.0 && maxScale == 64.0 && !isCircle
      ensures this.transitionT == transitionT && this.hasMaterial == hasMaterial
      ensures !IsActive()
    {
      scale := 0.0;
      maxScale := 64.0;
      isCircle := false;
      this.transitionT := transitionT;
      this.hasMaterial := hasMaterial;
    }

    function IsActive(): (active: bool)
      reads this
      ensures active ==> hasMaterial
      ensures hasMaterial ==> (active <==> scale > 0.0)
    {
      hasMaterial && scale > 0.0
    }

    /** Clears `isCircle` only: `scale`, and so whether the effect is active, is kept. */
    method Reset()
      requires Valid()
      modifies this`isCircle
      ensures !isCircle && Valid()
      ensures IsActive() == old(IsActive())
    {
      isCircle := false;
    }

    /** Execute: starts ApplyMosaic whatever the trigger type. */
    method Execute(kind: PostProcessType, dts: seq<real>, ease: Easer) returns (duration: real)
      requires Valid() && NonNegative(dts)
      modifies this`scale
      ensures Valid() && StoppedAt(transitionT, dts, duration)
      ensures Countdown(transitionT, dts) == [] ==> scale == old(scale)
      ensures Countdown(transitionT, dts) != [] ==>
        scale == Clamp(ease(QuadOut, maxScale, 1.0, LastProgress(transitionT, dts)), 0.0, 100.0)
    {
      duration := ApplyMosaic(dts, ease);
    }

    /**
     * The coroutine, which runs its first iteration at once: it counts
     * `duration` down from `transitionT`, writing `scale` eased from
     * `maxScale` towards 1 on every iteration, with no phase. The last write
     * uses the progress where the countdown stopped (exactly 1 once the
     * frames add up to `transitionT`), clamped into [0, 100].
     */
    method ApplyMosaic(dts: seq<real>, ease: Easer) returns (duration: real)
      requires Valid() && NonNegative(dts)
      modifies this`scale
      ensures Valid() && StoppedAt(transitionT, dts, duration)
      ensures Countdown(transitionT, dts) == [] ==> scale == old(scale)
      ensures Countdown(transitionT, dts) != [] ==>
        scale == Clamp(ease(QuadOut, maxScale, 1.0, LastProgress(transitionT, dts)), 0.0, 100.0)
    {
      duration := transitionT;
      ghost var written: seq<real> := [];
      CountingStarts(transitionT, dts);
      var i := 0;
      while duration > 0.0 && i < |dts|
        invariant Counting(transitionT, dts, i, written, duration)
        invariant written == [] ==> scale == old(scale)
        invariant written != [] ==> scale == Clamp(ease(QuadOut, maxScale, 1.0, Elapsed(duration, transitionT)), 0.0, 100.0)
        invariant Valid()
        decreases |dts| - i
      {
        CountingStep(transitionT, dts, i, written, duration);
        duration := Max(duration - dts[i], 0.0);
        scale := Clamp(ease(QuadOut, maxScale, 1.0, Elapsed(duration, transitionT)), 0.0, 100.0);
        written := written + [duration];
        i := i + 1;
      }
      CountingStops(transitionT, dts, i, written, duration);
    }
  }
}
