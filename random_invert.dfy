/**
 * RandomInvert.cs: inverts the picture through a noise threshold. Each
 * trigger waits one empty frame, records the time, flips `isInvert` and
 * counts `threshold` down from 1 to 0.
 */
module RandomInvertEffect {
  import opened UnityMath
  import opened Transition
  import opened Controller

  class RandomInvert {
    /** ClampedFloatParameter(0.25, 0, 3). */
    var fadeTime: real
    /** ClampedFloatParameter(250, 0, 500). */
    var noiseScale: real
    /** FloatParameter(0): not clamped. */
    var threshold: real
    /** BoolParameter(false). */
    var isInvert: bool
    var startTime: real
    /**
     * The declared curve (QuintOut); the coroutine passes QuadOut
     * instead, so this field has no effect.
     */
    var easeType: EaseType
    /** The length of a run, in seconds. */
    var transitionT: real
    var hasMaterial: bool

    ghost predicate Valid()
      reads this
    {
      && 0.0 <= fadeTime <= 3.0
      && 0.0 <= noiseScale <= 500.0
    }

    constructor (hasMaterial: bool, transitionT: real)
      ensures Valid()
      ensures fadeTime == 0.25 && noiseScale == 250.0 && threshold == 0.0 && !isInvert && startTime == 0.0
      ensures easeType == QuintOut && this.transitionT == transitionT && this.hasMaterial == hasMaterial
      ensures IsActive() == hasMaterial
    {
      fadeTime := 0.25;
      noiseScale := 250.0;
      threshold := 0.0;
      isInvert := false;
      startTime := 0.0;
      easeType := QuintOut;
      this.transitionT := transitionT;
      this.hasMaterial := hasMaterial;
    }

    /** Depends on `fadeTime` only, which no operation here writes. */
    function IsActive(): (active: bool)
      reads this
      ensures active ==> hasMaterial
      ensures hasMaterial ==> (active <==> fadeTime > 0.0)
    {
      hasMaterial && fadeTime > 0.0
    }

    /** Clears `isInvert` and nothing else. */
    method Reset()
      requires Valid()
      modifies this`isInvert
      ensures !isInvert && Valid()
      ensures IsActive() == old(IsActive())
    {
      isInvert := false;
    }

    /**
     * Execute: starts ApplyRandomInvert whatever the trigger type. `time`
     * is Time.time on the frame after the trigger; `dts` are the frame
     * times of the frames in which the loop body runs.
     */
    method Execute(kind: PostProcessType, time: real, dts: seq<real>, ease: Easer) returns (duration: real)
      requires Valid() && NonNegative(dts)
      modifies this`threshold, this`isInvert, this`startTime
      ensures Valid() && startTime == time && isInvert == !old(isInvert)
      ensures StoppedAt(transitionT, dts, duration)
      ensures Countdown(transitionT, dts) == [] ==> threshold == old(threshold)
      ensures Countdown(transitionT, dts) != [] ==> threshold == ease(QuadOut, 1.0, 0.0, LastLeft(transitionT, dts))
      ensures IsActive() == old(IsActive())
    {
      duration := ApplyRandomInvert(time, dts, ease);
    }

    /**
     * The coroutine: after its empty frame it records the time, flips
     * `isInvert` and counts `duration` down from `transitionT`, writing
     * `threshold` with the remaining fraction `duration / transitionT` as
     * progress, from 1 towards 0, always with QuadOut. The last write uses
     * the remaining fraction where the countdown stopped (exactly 0 once the
     * frames add up to `transitionT`).
     */
    method ApplyRandomInvert(time: real, dts: seq<real>, ease: Easer) returns (duration: real)
      requires Valid() && NonNegative(dts)
      modifies this`threshold, this`isInvert, this`startTime
      ensures Valid() && startTime == time && isInvert == !old(isInvert)
      ensures StoppedAt(transitionT, dts, duration)
      ensures Countdown(transitionT, dts) == [] ==> threshold == old(threshold)
      ensures Countdown(transitionT, dts) != [] ==> threshold == ease(QuadOut, 1.0, 0.0, LastLeft(transitionT, dts))
    {
      duration := transitionT;
      startTime := time;
      isInvert := !isInvert;
      ghost var written: seq<real> := [];
      CountingStarts(transitionT, dts);
      var i := 0;
      while duration > 0.0 && i < |dts|
        invariant Counting(transitionT, dts, i, written, duration)
        invariant written == [] ==> threshold == old(threshold)
        invariant written != [] ==> threshold == ease(QuadOut, 1.0, 0.0, Left(duration, transitionT))
        invariant Valid() && startTime == time && isInvert == !old(isInvert)
        decreases |dts| - i
      {
        CountingStep(transitionT, dts, i, written, duration);
        duration := Max(duration - dts[i], 0.0);
        threshold := ease(QuadOut, 1.0, 0.0, Left(duration, transitionT));
        written := written + [duration];
        i := i + 1;
      }
      CountingStops(transitionT, dts, i, written, duration);
    }
  }
}
