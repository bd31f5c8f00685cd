/**
 * Distortion.cs: two distortions in one component. A NoiseDistortion
 * trigger decays the noise power from its maximum to 0; a BarrelDistortion
 * trigger animates the barrel vector between zero and its maximum,
 * alternating direction from run to run.
 */
module DistortionEffect {
  import opened UnityMath
  import opened Transition
  import opened Controller

  /**
   * A fresh component has its switcher unset, so its first barrel run
   * animates from 0 up to the maximum, the next back down to 0: the run
   * that follows n earlier barrel runs goes up when n is even.
   */
  lemma BarrelRunDirection(n: nat, maxBarrel: real)
    ensures PhaseEnds(PhaseAfter(false, n), maxBarrel) == (if n % 2 == 0 then (0.0, maxBarrel) else (maxBarrel, 0.0))
  {
    PhaseEndsAlternate(false, n, maxBarrel);
  }

  class Distortion {
    /** ClampedFloatParameter(0.5, 0, 1). */
    var noiseDistortionScale: real
    /** ClampedFloatParameter(0, 0, 1). */
    var noiseDistortionPower: real
    /** ClampedFloatParameter(5, 0, 10). */
    var noiseDistortionTimeScale: real
    /** ClampedFloatParameter(0.15, 0, 1). */
    var maxNoiseDistortionPower: real
    /** ClampedFloatParameter(6, 0, 10). */
    var maxBarrelDistortionPower: real
    /** Vector2Parameter((0, 0)): not clamped. */
    var barrelDistortionPower: Vector2
    /** FloatParameter(0.25). */
    var effectTime: real
    var barrelDistortionSwitcher: bool
    var hasMaterial: bool

    ghost predicate Valid()
      reads this
    {
      && 0.0 <= noiseDistortionScale <= 1.0
      && 0.0 <= noiseDistortionPower <= 1.0
      && 0.0 <= noiseDistortionTimeScale <= 10.0
      && 0.0 <= maxNoiseDistortionPower <= 1.0
      && 0.0 <= maxBarrelDistortionPower <= 10.0
    }

    constructor (hasMaterial: bool)
      ensures Valid()
      ensures noiseDistortionScale == 0.5 && noiseDistortionPower == 0.0 && noiseDistortionTimeScale == 5.0
      ensures maxNoiseDistortionPower == 0.15 && maxBarrelDistortionPower == 6.0
      ensures barrelDistortionPower == Vector2(0.0, 0.0) && effectTime == 0.25 && !barrelDistortionSwitcher
      ensures this.hasMaterial == hasMaterial
      ensures !IsActive()
    {
      noiseDistortionScale := 0.5;
      noiseDistortionPower := 0.0;
      noiseDistortionTimeScale := 5.0;
      maxNoiseDistortionPower := 0.15;
      maxBarrelDistortionPower := 6.0;
      barrelDistortionPower := Vector2(0.0, 0.0);
      effectTime := 0.25;
      barrelDistortionSwitcher := false;
      this.hasMaterial := hasMaterial;
    }

    /** Active while the noise is on (power and scale both positive) or the barrel vector is not zero. */
    function IsActive(): (active: bool)
      reads this
      ensures active ==> hasMaterial
      ensures hasMaterial && !IsZero(barrelDistortionPower) ==> active
      ensures hasMaterial && noiseDistortionPower > 0.0 && noiseDistortionScale > 0.0 ==> active
      ensures active ==> (noiseDistortionPower > 0.0 && noiseDistortionScale > 0.0) || Pass() == 1
    {
      hasMaterial &&
        ((noiseDistortionPower > 0.0 && noiseDistortionScale > 0.0) || !IsZero(barrelDistortionPower))
    }

    /**
     * The shader pass Render draws with: 1 when the barrel vector is not
     * zero, 0 otherwise. The noise test in Render assigns 0 to a pass that
     * already holds 0, so the noise settings never change the pass.
     */
    function Pass(): (pass: nat)
      reads this
      ensures pass <= 1
      ensures pass == 1 <==> !IsZero(barrelDistortionPower)
    {
      var pass := 0;
      if !IsZero(barrelDistortionPower) then pass + 1 else pass
    }

    /** Zeroes both powers; the switcher is kept, and the effect becomes inactive. */
    method Reset()
      requires Valid()
      modifies this`noiseDistortionPower, this`barrelDistortionPower
      ensures noiseDistortionPower == 0.0 && barrelDistortionPower == Vector2(0.0, 0.0)
      ensures Valid() && !IsActive() && Pass() == 0
    {
      noiseDistortionPower := 0.0;
      barrelDistortionPower := Vector2(0.0, 0.0);
    }

    /**
     * Execute: a NoiseDistortion trigger starts the noise run, a
     * BarrelDistortion trigger the barrel run, and any other trigger type
     * starts nothing and changes nothing.
     */
    method Execute(kind: PostProcessType, dts: seq<real>, ease: Easer)
      requires Valid() && NonNegative(dts)
      modifies this`noiseDistortionPower, this`barrelDistortionPower, this`barrelDistortionSwitcher
      ensures Valid()
      ensures kind != NoiseDistortion ==> noiseDistortionPower == old(noiseDistortionPower)
      ensures kind != BarrelDistortion ==>
        barrelDistortionPower == old(barrelDistortionPower) && barrelDistortionSwitcher == old(barrelDistortionSwitcher)
      ensures kind == NoiseDistortion ==> NoiseRan(old(noiseDistortionPower), dts, ease)
      ensures kind == BarrelDistortion ==>
        barrelDistortionSwitcher == !old(barrelDistortionSwitcher) &&
        BarrelRan(old(barrelDistortionSwitcher), old(barrelDistortionPower), dts, ease)
    {
      if kind == NoiseDistortion {
        var _ := ApplyNoiseDistortion(dts, ease);
      }
      if kind == BarrelDistortion {
        var _ := ApplyBarrelDistortion(dts, ease);
      }
    }

    /**
     * What a noise run leaves in `noiseDistortionPower`, which held `before`:
     * nothing written when the loop does not run, otherwise the eased value
     * from the maximum towards 0 at the last progress, clamped into [0, 1].
     */
    ghost predicate NoiseRan(before: real, dts: seq<real>, ease: Easer)
      requires NonNegative(dts)
      reads this
    {
      && (Countdown(effectTime, dts) == [] ==> noiseDistortionPower == before)
      && (Countdown(effectTime, dts) != [] ==>
            noiseDistortionPower ==
              Clamp(ease(QuadOut, maxNoiseDistortionPower, 0.0, LastProgress(effectTime, dts)), 0.0, 1.0))
    }

    /**
     * What a barrel run started in phase `phase` leaves in the barrel
     * vector, which held `before`: nothing written when the loop does not
     * run, otherwise both components equal to the eased value at the last
     * progress, between the phase's (start, end) pair.
     */
    ghost predicate BarrelRan(phase: bool, before: Vector2, dts: seq<real>, ease: Easer)
      requires NonNegative(dts)
      reads this
    {
      && (Countdown(effectTime, dts) == [] ==> barrelDistortionPower == before)
      && (Countdown(effectTime, dts) != [] ==>
            var (start, end) := PhaseEnds(phase, maxBarrelDistortionPower);
            var p := ease(QuadOut, start, end, LastProgress(effectTime, dts));
            barrelDistortionPower == Vector2(p, p))
    }

    /**
     * A barrel run whose last eased value lies at least kEpsilon from 0
     * leaves a barrel vector that compares unequal to Vector2.zero: Render
     * draws pass 1, and the component is active while it has its material.
     */
    lemma BarrelRunShows(phase: bool, before: Vector2, dts: seq<real>, ease: Easer)
      requires NonNegative(dts) && BarrelRan(phase, before, dts, ease) && Countdown(effectTime, dts) != []
      requires var (start, end) := PhaseEnds(phase, maxBarrelDistortionPower);
        var p := ease(QuadOut, start, end, LastProgress(effectTime, dts));
        p >= Epsilon || p <= -Epsilon
      ensures Pass() == 1 && (hasMaterial ==> IsActive())
    {
      var (start, end) := PhaseEnds(phase, maxBarrelDistortionPower);
      DiagonalAwayFromZero(ease(QuadOut, start, end, LastProgress(effectTime, dts)));
    }

    /**
     * The noise coroutine, which runs its first iteration at once: it counts
     * `duration` down from `effectTime`, writing the noise power on every
     * iteration, with no phase.
     */
    method ApplyNoiseDistortion(dts: seq<real>, ease: Easer) returns (duration: real)
      requires Valid() && NonNegative(dts)
      modifies this`noiseDistortionPower
      ensures Valid() && StoppedAt(effectTime, dts, duration)
      ensures NoiseRan(old(noiseDistortionPower), dts, ease)
    {
      duration := effectTime;
      ghost var written: seq<real> := [];
      CountingStarts(effectTime, dts);
      var i := 0;
      while duration > 0.0 && i < |dts|
        invariant Counting(effectTime, dts, i, written, duration)
        invariant written == [] ==> noiseDistortionPower == old(noiseDistortionPower)
        invariant written != [] ==>
          noiseDistortionPower == Clamp(ease(QuadOut, maxNoiseDistortionPower, 0.0, Elapsed(duration, effectTime)), 0.0, 1.0)
        invariant Valid()
        decreases |dts| - i
      {
        CountingStep(effectTime, dts, i, written, duration);
        duration := Max(duration - dts[i], 0.0);
        noiseDistortionPower := Clamp(ease(QuadOut, maxNoiseDistortionPower, 0.0, Elapsed(duration, effectTime)), 0.0, 1.0);
        written := written + [duration];
        i := i + 1;
      }
      CountingStops(effectTime, dts, i, written, duration);
    }

    /**
     * The barrel coroutine, which runs its first iteration at once: it picks
     * (start, end) = switcher ? (max, 0) : (0, max), flips the switcher and
     * counts `duration` down from `effectTime`, writing the eased power into
     * both components of the barrel vector on every iteration.
     */
    method ApplyBarrelDistortion(dts: seq<real>, ease: Easer) returns (duration: real)
      requires Valid() && NonNegative(dts)
      modifies this`barrelDistortionPower, this`barrelDistortionSwitcher
      ensures Valid() && StoppedAt(effectTime, dts, duration)
      ensures barrelDistortionSwitcher == !old(barrelDistortionSwitcher)
      ensures BarrelRan(old(barrelDistortionSwitcher), old(barrelDistortionPower), dts, ease)
    {
      var start: real := if barrelDistortionSwitcher then maxBarrelDistortionPower else 0.0;
      var end := maxBarrelDistortionPower - start;
      assert (start, end) == PhaseEnds(barrelDistortionSwitcher, maxBarrelDistortionPower);
      barrelDistortionSwitcher := !barrelDistortionSwitcher;
      duration := BarrelLoop(start, end, dts, ease);
    }

    /**
     * The barrel coroutine's loop between `start` and `end`: it counts
     * `duration` down from `effectTime`, writing the eased power into both
     * components of the barrel vector on every iteration.
     */
    method BarrelLoop(start: real, end: real, dts: seq<real>, ease: Easer) returns (duration: real)
      requires Valid() && NonNegative(dts)
      modifies this`barrelDistortionPower
      ensures Valid() && StoppedAt(effectTime, dts, duration)
      ensures Countdown(effectTime, dts) == [] ==> barrelDistortionPower == old(barrelDistortionPower)
      ensures Countdown(effectTime, dts) != [] ==>
        var p := ease(QuadOut, start, end, LastProgress(effectTime, dts));
        barrelDistortionPower == Vector2(p, p)
    {
      duration := effectTime;
      ghost var written: seq<real> := [];
      CountingStarts(effectTime, dts);
      var i := 0;
      while duration > 0.0 && i < |dts|
        invariant Counting(effectTime, dts, i, written, duration)
        invariant written == [] ==> barrelDistortionPower == old(barrelDistortionPower)
        invariant written != [] ==>
          var p := ease(QuadOut, start, end, Elapsed(duration, effectTime));
          barrelDistortionPower == Vector2(p, p)
        invariant Valid()
        decreases |dts| - i
      {
        CountingStep(effectTime, dts, i, written, duration);
        duration := Max(duration - dts[i], 0.0);
        var power := ease(QuadOut, start, end, Elapsed(duration, effectTime));
        barrelDistortionPower := Vector2(power, power);
        written := written + [duration];
        i := i + 1;
      }
      CountingStops(effectTime, dts, i, written, duration);
    }
  }
}
