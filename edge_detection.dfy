/**
 * EdgeDetection.cs: draws the detected edges over the picture, faded in by
 * `blend`. Each trigger animates `blend` between 1 and 0, alternating
 * direction from run to run; the edges are detected on a buffer reduced by
 * `downSampling`.
 */
module EdgeDetectionEffect {
  import opened Wrappers
  import opened UnityMath
  import opened Transition
  import opened Controller

  /**
   * The size of the temporary edge buffer Render asks for: the source size
   * divided by `downSampling` in C# integer division. A zero factor makes
   * that division throw DivideByZeroException (None); a factor of 1 keeps
   * the source size, and any larger factor gives the floor of the quotient.
   */
  function EdgeTextureSize(width: nat, height: nat, downSampling: int): (r: Option<(int, int)>)
    ensures r.None? <==> downSampling == 0
    ensures downSampling == 1 ==> r == Some((width, height))
    ensures downSampling > 0 ==>
      && 0 <= r.value.0 <= width && 0 <= r.value.1 <= height
      && r.value.0 * downSampling <= width < (r.value.0 + 1) * downSampling
      && r.value.1 * downSampling <= height < (r.value.1 + 1) * downSampling
    ensures downSampling < 0 ==> r.value.0 <= 0 && r.value.1 <= 0
  {
    if downSampling == 0 then None
    else
      var w := Quot(width, downSampling);
      var h := Quot(height, downSampling);
      if downSampling > 0 then
        QuotAtMost(width, downSampling);
        QuotAtMost(height, downSampling);
        Some((w, h))
      else
      Some((w, h))
  }

  /**
   * A fresh component has its switcher unset, so its first run animates
   * `blend` from 1 down to 0, the next from 0 back up to 1: the run that
   * follows n earlier runs goes down when n is even.
   */
  lemma RunDirection(n: nat)
    ensures PhaseEnds(!PhaseAfter(false, n), 1.0) == (if n % 2 == 0 then (1.0, 0.0) else (0.0, 1.0))
  {
    PhaseAfterParity(false, n);
  }

  class EdgeDetection {
    /** ClampedFloatParameter(1, 0, 10). */
    var power: real
    /** ClampedFloatParameter(0.5, 0, 1). */
    var threshold: real
    /** ClampedFloatParameter(0, 0, 1). */
    var depthThreshold: real
    /** ClampedFloatParameter(0, 0, 1). */
    var blend: real
    /** IntParameter(1): not clamped. */
    var downSampling: int
    /** FloatParameter(0.25). */
    var effectTime: real
    var edgeDetectSwitcher: bool
    var hasMaterial: bool

    ghost predicate Valid()
      reads this
    {
      && 0.0 <= power <= 10.0
      && 0.0 <= threshold <= 1.0
      && 0.0 <= depthThreshold <= 1.0
      && 0.0 <= blend <= 1.0
    }

    constructor (hasMaterial: bool)
      ensures Valid()
      ensures power == 1.0 && threshold == 0.5 && depthThreshold == 0.0 && blend == 0.0
      ensures downSampling == 1 && effectTime == 0.25 && !edgeDetectSwitcher
      ensures this.hasMaterial == hasMaterial
      ensures IsActive() == hasMaterial
    {
      power := 1.0;
      threshold := 0.5;
      depthThreshold := 0.0;
      blend := 0.0;
      downSampling := 1;
      effectTime := 0.25;
      edgeDetectSwitcher := false;
      this.hasMaterial := hasMaterial;
    }

    /** Depends on `power`, which no operation here writes, and not on `blend`. */
    function IsActive(): (active: bool)
      reads this
      ensures active ==> hasMaterial
      ensures hasMaterial ==> (active <==> power > 0.0)
    {
      hasMaterial && power > 0.0
    }

    /** Writes `blend` only: the switcher and whether the effect is active are kept. */
    method Reset()
      requires Valid()
      modifies this`blend
      ensures blend == 1.0 && Valid()
      ensures IsActive() == old(IsActive())
    {
      blend := 1.0;
    }

    /** Execute: starts ApplyEdgeDetection whatever the trigger type. */
    method Execute(kind: PostProcessType, dts: seq<real>, ease: Easer) returns (duration: real)
      requires Valid() && NonNegative(dts)
      modifies this`blend, this`edgeDetectSwitcher
      ensures Valid() && edgeDetectSwitcher == !old(edgeDetectSwitcher)
      ensures StoppedAt(effectTime, dts, duration)
      ensures Countdown(effectTime, dts) == [] ==> blend == old(blend)
      ensures Countdown(effectTime, dts) != [] ==>
        var (start, end) := PhaseEnds(!old(edgeDetectSwitcher), 1.0);
        blend == Clamp(ease(QuadOut, start, end, LastProgress(effectTime, dts)), 0.0, 1.0)
      ensures IsActive() == old(IsActive())
    {
      duration := ApplyEdgeDetection(dts, ease);
    }

    /**
     * The coroutine, which runs its first iteration at once: it picks
     * (start, end) = switcher ? (0, 1) : (1, 0), flips the switcher and
     * counts `duration` down from `effectTime`, writing `blend` on every
     * iteration. The last write is the eased value at the progress where the
     * countdown stopped, clamped into [0, 1].
     */
    method ApplyEdgeDetection(dts: seq<real>, ease: Easer) returns (duration: real)
      requires Valid() && NonNegative(dts)
      modifies this`blend, this`edgeDetectSwitcher
      ensures Valid() && edgeDetectSwitcher == !old(edgeDetectSwitcher)
      ensures StoppedAt(effectTime, dts, duration)
      ensures Countdown(effectTime, dts) == [] ==> blend == old(blend)
      ensures Countdown(effectTime, dts) != [] ==>
        var (start, end) := PhaseEnds(!old(edgeDetectSwitcher), 1.0);
        blend == Clamp(ease(QuadOut, start, end, LastProgress(effectTime, dts)), 0.0, 1.0)
    {
      duration := effectTime;
      var start: real := if edgeDetectSwitcher then 0.0 else 1.0;
      var end := 1.0 - start;
      edgeDetectSwitcher := !edgeDetectSwitcher;
      ghost var written: seq<real> := [];
      CountingStarts(effectTime, dts);
      var i := 0;
      while duration > 0.0 && i < |dts|
        invariant Counting(effectTime, dts, i, written, duration)
        invariant written == [] ==> blend == old(blend)
        invariant written != [] ==> blend == Clamp(ease(QuadOut, start, end, Elapsed(duration, effectTime)), 0.0, 1.0)
        invariant Valid() && edgeDetectSwitcher == !old(edgeDetectSwitcher)
        decreases |dts| - i
      {
        CountingStep(effectTime, dts, i, written, duration);
        duration := Max(duration - dts[i], 0.0);
        blend := Clamp(ease(QuadOut, start, end, Elapsed(duration, effectTime)), 0.0, 1.0);
        written := written + [duration];
        i := i + 1;
      }
      CountingStops(effectTime, dts, i, written, duration);
    }
  }
}
