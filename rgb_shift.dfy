/**
 * RGBShift.cs: shifts the colour channels apart by `power`. Each trigger
 * decays `power` from `maxPower` to 0.
 */
module RGBShiftEffect {
  import opened UnityMath
  import opened Transition
  import opened Controller

  class RGBShift {
    /** ClampedFloatParameter(0, 0, 100). */
    var power: real
    /** ClampedFloatParameter(54, 0, 100). */
    var maxPower: real
    /** FloatParameter(0.25). */
    var effectTime: real
    var hasMaterial: bool

    ghost predicate Valid()
      reads this
    {
      0.0 <= power <= 100.0 && 0.0 <= maxPower <= 100.0
    }

    constructor (hasMaterial: bool)
      ensures Valid()
      ensures power == 0.0 && maxPower == 54.0 && effectTime == 0.25
      ensures this.hasMaterial == hasMaterial
      ensures !IsActive()
    {
      power := 0.0;
      maxPower := 54.0;
      effectTime := 0.25;
      this.hasMaterial := hasMaterial;
    }

    function IsActive(): (active: bool)
      reads this
      ensures active ==> hasMaterial
      ensures hasMaterial ==> (active <==> power > 0.0)
    {
      hasMaterial && power > 0.0
    }

    /** Zeroes `power` and nothing else: the effect becomes inactive. */
    method Reset()
      requires Valid()
      modifies this`power
      ensures power == 0.0 && Valid() && !IsActive()
    {
      power := 0.0;
    }

    /** Execute: starts ApplyRGBShift whatever the trigger type. */
    method Execute(kind: PostProcessType, dts: seq<real>, ease: Easer) returns (duration: real)
      requires Valid() && NonNegative(dts)
      modifies this`power
      ensures Valid() && StoppedAt(effectTime, dts, duration)
      ensures Countdown(effectTime, dts) == [] ==> power == old(power)
      ensures Countdown(effectTime, dts) != [] ==>
        power == Clamp(ease(QuadOut, maxPower, 0.0, LastProgress(effectTime, dts)), 0.0, 100.0)
    {
      duration := ApplyRGBShift(dts, ease);
    }

    /**
     * The coroutine, which runs its first iteration at once: it counts
     * `duration` down from `effectTime`, writing `power` eased from
     * `maxPower` towards 0 on every iteration. The last write uses the
     * progress where the countdown stopped (exactly 1 once the frames add
     * up to `effectTime`), clamped into [0, 100].
     */
    method ApplyRGBShift(dts: seq<real>, ease: Easer) returns (duration: real)
      requires Valid() && NonNegative(dts)
      modifies this`power
      ensures Valid() && StoppedAt(effectTime, dts, duration)
      ensures Countdown(effectTime, dts) == [] ==> power == old(power)
      ensures Countdown(effectTime, dts) != [] ==>
        power == Clamp(ease(QuadOut, maxPower, 0.0, LastProgress(effectTime, dts)), 0.0, 100.0)
    {
      duration := effectTime;
      ghost var written: seq<real> := [];
      CountingStarts(effectTime, dts);
      var i := 0;
      while duration > 0.0 && i < |dts|
        invariant Counting(effectTime, dts, i, written, duration)
        invariant written == [] ==> power == old(power)
        invariant written != [] ==> power == Clamp(ease(QuadOut, maxPower, 0.0, Elapsed(duration, effectTime)), 0.0, 100.0)
        invariant Valid()
        decreases |dts| - i
      {
        CountingStep(effectTime, dts, i, written, duration);
        duration := Max(duration - dts[i], 0.0);
        power := Clamp(ease(QuadOut, maxPower, 0.0, Elapsed(duration, effectTime)), 0.0, 100.0);
        written := written + [duration];
        i := i + 1;
      }
      CountingStops(effectTime, dts, i, written, duration);
    }
  }
}
