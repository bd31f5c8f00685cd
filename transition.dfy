/**
 * The countdown that every effect's coroutine runs once it is started:
 *
 *   duration = total;
 *   while (duration > 0) {
 *     duration = Mathf.Max(duration - Time.deltaTime, 0);
 *     parameter = Easing.Ease(QuadOut, start, end, 1 - duration / total);
 *     yield return null;
 *   }
 *
 * Each effect writes that loop itself, over the deltaTime of the frames in
 * which its body runs. This module gives the loop's specification: the
 * values `duration` takes (Countdown), the progress each write passes to
 * Ease, and the facts about them that hold for every effect. Easing.Ease is
 * not part of this model; it is a parameter of type Easer, and nothing is
 * assumed about it.
 */
module Transition {
  import opened UnityMath

  /** The easing curves the effects name. */
  datatype EaseType = QuadOut | QuintOut

  /** Easing.Ease(type, start, end, t). */
  type Easer = (EaseType, real, real, real) -> real

  /** `duration = Mathf.Max(duration - dt, 0)`: one frame of the countdown. */
  function Step(remaining: real, dt: real): (r: real)
    requires dt >= 0.0
    ensures r >= 0.0
    ensures remaining >= 0.0 ==> r <= remaining
    ensures remaining > 0.0 && dt > 0.0 ==> r < remaining
    ensures r == 0.0 <==> remaining <= dt
  {
    Max(remaining - dt, 0.0)
  }

  /** `1 - duration / total`, the progress argument most effects pass to Ease. */
  function Elapsed(duration: real, total: real): (p: real)
    requires 0.0 < total && 0.0 <= duration <= total
    ensures 0.0 <= p <= 1.0
    ensures p == 1.0 <==> duration == 0.0
    ensures p == 0.0 <==> duration == total
  {
    var f := duration / total;
    assert 0.0 <= f <= 1.0 by { assert f * total == duration; }
    assert f == 0.0 <==> duration == 0.0 by { assert f * total == duration; }
    assert f == 1.0 <==> duration == total by { assert f * total == duration; }
    1.0 - f
  }

  /** `duration / total`, the progress argument RandomInvert passes to Ease: it counts down. */
  function Left(duration: real, total: real): (p: real)
    requires 0.0 < total && 0.0 <= duration <= total
    ensures p == 1.0 - Elapsed(duration, total)
    ensures 0.0 <= p <= 1.0
    ensures p == 0.0 <==> duration == 0.0
  {
    duration / total
  }

  /** Frame times as Time.deltaTime reports them. */
  predicate NonNegative(dts: seq<real>)
  {
    forall i :: 0 <= i < |dts| ==> dts[i] >= 0.0
  }

  predicate Positive(dts: seq<real>)
  {
    forall i :: 0 <= i < |dts| ==> dts[i] > 0.0
  }

  /**
   * The values `duration` takes, one per iteration of the loop, when it
   * starts at d and its body runs on frames lasting dts. The loop stops at
   * the first test that finds `duration` not positive, or when the frames
   * run out (the coroutine is then still suspended).
   */
  function Countdown(d: real, dts: seq<real>): (ds: seq<real>)
    requires NonNegative(dts)
    ensures |ds| <= |dts|
    ensures |ds| == 0 <==> d <= 0.0 || dts == []
    decreases |dts|
  {
    if dts == [] || d <= 0.0 then []
    else
      var next := Step(d, dts[0]);
      [next] + Countdown(next, dts[1..])
  }

  /** One turn of the loop, seen from frame i on: the body runs once and the rest follows. */
  lemma CountdownStep(d: real, dts: seq<real>, i: nat)
    requires NonNegative(dts) && d > 0.0 && i < |dts|
    ensures NonNegative(dts[i + 1..])
    ensures Countdown(d, dts[i..]) == [Step(d, dts[i])] + Countdown(Step(d, dts[i]), dts[i + 1..])
  {
    assert dts[i..][1..] == dts[i + 1..];
  }

  /**
   * `duration` stays in [0, d] on every iteration; with frames of positive
   * length it strictly decreases from iteration to iteration.
   */
  lemma {:induction false} CountdownBounds(d: real, dts: seq<real>)
    requires NonNegative(dts)
    ensures forall k :: 0 <= k < |Countdown(d, dts)| ==> 0.0 <= Countdown(d, dts)[k] <= d
    ensures Positive(dts) ==> forall k :: 0 <= k < |Countdown(d, dts)| ==> Countdown(d, dts)[k] < d
    ensures Positive(dts) ==>
      forall k :: 0 <= k < |Countdown(d, dts)| - 1 ==> Countdown(d, dts)[k] > Countdown(d, dts)[k + 1]
    decreases |dts|
  {
    if dts != [] && d > 0.0 {
      var next := Step(d, dts[0]);
      CountdownBounds(next, dts[1..]);
    }
  }

  /**
   * The loop leaves before the frames run out only because `duration`
   * reached 0: the last write of such a run is made at `duration == 0`.
   */
  lemma {:induction false} CountdownExitsAtZero(d: real, dts: seq<real>)
    requires NonNegative(dts) && d > 0.0
    requires |Countdown(d, dts)| < |dts|
    ensures |Countdown(d, dts)| > 0
    ensures Countdown(d, dts)[|Countdown(d, dts)| - 1] == 0.0
    decreases |dts|
  {
    var next := Step(d, dts[0]);
    if next > 0.0 {
      CountdownExitsAtZero(next, dts[1..]);
    }
  }

  /**
   * The loop's state after its body has run on the first i frames, having
   * left `duration` at each value in `written`: the rest of the countdown
   * continues from `duration` on the remaining frames.
   */
  ghost predicate Counting(total: real, dts: seq<real>, i: nat, written: seq<real>, duration: real)
    requires NonNegative(dts)
  {
    && i <= |dts| && |written| == i
    && Countdown(total, dts) == written + Countdown(duration, dts[i..])
    && (written == [] ==> duration == total)
    && (written != [] ==> 0.0 < total && duration == written[i - 1] && 0.0 <= duration <= total)
  }

  /** `duration` where the loop left it: `total` when the body never ran, else its last value. */
  ghost predicate StoppedAt(total: real, dts: seq<real>, duration: real)
    requires NonNegative(dts)
  {
    var ds := Countdown(total, dts);
    && (ds == [] ==> duration == total)
    && (ds != [] ==> 0.0 < total && duration == ds[|ds| - 1] && 0.0 <= duration <= total)
  }

  lemma CountingStarts(total: real, dts: seq<real>)
    requires NonNegative(dts)
    ensures Counting(total, dts, 0, [], total)
  {
  }

  /** One iteration of the loop body keeps the loop state. */
  lemma CountingStep(total: real, dts: seq<real>, i: nat, written: seq<real>, duration: real)
    requires NonNegative(dts) && Counting(total, dts, i, written, duration)
    requires duration > 0.0 && i < |dts|
    ensures 0.0 < total && 0.0 <= Step(duration, dts[i]) <= total
    ensures Counting(total, dts, i + 1, written + [Step(duration, dts[i])], Step(duration, dts[i]))
  {
    CountdownStep(duration, dts, i);
  }

  /** When the loop test fails, every write has been made and `duration` is where the countdown stopped. */
  lemma CountingStops(total: real, dts: seq<real>, i: nat, written: seq<real>, duration: real)
    requires NonNegative(dts) && Counting(total, dts, i, written, duration)
    requires !(duration > 0.0 && i < |dts|)
    ensures written == Countdown(total, dts)
    ensures StoppedAt(total, dts, duration)
  {
  }

  function Sum(dts: seq<real>): real
  {
    if dts == [] then 0.0 else dts[0] + Sum(dts[1..])
  }

  lemma {:induction false} SumNonNegative(dts: seq<real>)
    requires NonNegative(dts)
    ensures Sum(dts) >= 0.0
  {
    if dts != [] {
      SumNonNegative(dts[1..]);
    }
  }

  /** Frames that each last at least `delta` add up to at least |dts| * delta. */
  lemma {:induction false} SumAtLeast(dts: seq<real>, delta: real)
    requires forall i :: 0 <= i < |dts| ==> dts[i] >= delta
    ensures Sum(dts) >= |dts| as real * delta
  {
    if dts != [] {
      SumAtLeast(dts[1..], delta);
      assert |dts| as real * delta == delta + |dts[1..]| as real * delta;
    }
  }

  /**
   * The countdown is the clamped difference: once the loop has stopped,
   * `duration` is max(d - S, 0) for frames totalling S, however the time is
   * split into frames (a frame after the loop has left changes nothing).
   */
  lemma {:induction false} CountdownLast(d: real, dts: seq<real>)
    requires d >= 0.0 && NonNegative(dts)
    requires |Countdown(d, dts)| > 0
    ensures Countdown(d, dts)[|Countdown(d, dts)| - 1] == Max(d - Sum(dts), 0.0)
    decreases |dts|
  {
    SumNonNegative(dts);
    SumNonNegative(dts[1..]);
    var next := Step(d, dts[0]);
    if next > 0.0 && dts[1..] != [] {
      CountdownLast(next, dts[1..]);
    }
  }

  /**
   * Frames totalling at least d make the loop run out its duration: its
   * last write is made at `duration == 0`, that is with progress exactly 1.
   */
  lemma {:induction false} CountdownFinishes(d: real, dts: seq<real>)
    requires NonNegative(dts) && 0.0 < d <= Sum(dts)
    ensures |Countdown(d, dts)| > 0
    ensures Countdown(d, dts)[|Countdown(d, dts)| - 1] == 0.0
    decreases |dts|
  {
    assert dts != [];
    var next := Step(d, dts[0]);
    if next > 0.0 {
      assert next == d - dts[0];
      CountdownFinishes(next, dts[1..]);
    }
  }

  /**
   * Termination: when every frame lasts at least delta > 0, the loop
   * reaches `duration == 0` within ceil(d / delta) frames.
   */
  lemma FinishesWithin(d: real, dts: seq<real>, delta: real)
    requires 0.0 < d && delta > 0.0
    requires forall i :: 0 <= i < |dts| ==> dts[i] >= delta
    requires |dts| as real * delta >= d
    ensures |Countdown(d, dts)| > 0
    ensures Countdown(d, dts)[|Countdown(d, dts)| - 1] == 0.0
  {
    SumAtLeast(dts, delta);
    CountdownFinishes(d, dts);
  }

  /** The value `duration` has after the last iteration of a loop whose body ran at least once. */
  function LastDuration(total: real, dts: seq<real>): (d: real)
    requires NonNegative(dts) && Countdown(total, dts) != []
    ensures 0.0 < total && 0.0 <= d <= total
  {
    CountdownBounds(total, dts);
    Countdown(total, dts)[|Countdown(total, dts)| - 1]
  }

  /**
   * The progress `1 - duration / total` of the last write. It lies in
   * [0, 1], and it is exactly 1 when the frames add up to `total`.
   */
  function LastProgress(total: real, dts: seq<real>): (p: real)
    requires NonNegative(dts) && Countdown(total, dts) != []
    ensures 0.0 <= p <= 1.0
    ensures total <= Sum(dts) ==> p == 1.0
  {
    LastDurationFinishes(total, dts);
    Elapsed(LastDuration(total, dts), total)
  }

  /** Once the frames add up to `total`, the loop's last duration is 0. */
  lemma LastDurationFinishes(total: real, dts: seq<real>)
    requires NonNegative(dts) && Countdown(total, dts) != []
    ensures total <= Sum(dts) ==> LastDuration(total, dts) == 0.0
  {
    if total <= Sum(dts) {
      CountdownFinishes(total, dts);
    }
  }

  /**
   * The progress `duration / total` of the last write of a countdown that
   * passes the remaining fraction: it is exactly 0 when the frames add up
   * to `total`.
   */
  function LastLeft(total: real, dts: seq<real>): (p: real)
    requires NonNegative(dts) && Countdown(total, dts) != []
    ensures 0.0 <= p <= 1.0 && p == 1.0 - LastProgress(total, dts)
    ensures total <= Sum(dts) ==> p == 0.0
  {
    Left(LastDuration(total, dts), total)
  }

  // ---------------------------------------------------------------------
  // The phase boolean that some effects flip on every run.

  /** The phase after `runs` runs that each flip it once. */
  function PhaseAfter(initial: bool, runs: nat): bool
  {
    if runs == 0 then initial else !PhaseAfter(initial, runs - 1)
  }

  /** An even number of runs restores the phase; an odd number inverts it. */
  lemma {:induction false} PhaseAfterParity(initial: bool, runs: nat)
    ensures PhaseAfter(initial, runs) == (if runs % 2 == 0 then initial else !initial)
  {
    if runs > 0 {
      PhaseAfterParity(initial, runs - 1);
    }
  }

  /**
   * The (start, end) pair of a run that animates between 0 and `high`:
   * from `high` down to 0 when the phase is set, from 0 up to `high`
   * otherwise.
   */
  function PhaseEnds(phase: bool, high: real): (ends: (real, real))
    ensures ends.0 + ends.1 == high
    ensures ends.0 == 0.0 || ends.0 == high
  {
    if phase then (high, 0.0) else (0.0, high)
  }

  /**
   * Runs alternate direction: the run that starts after n earlier runs
   * (each flipping the phase) uses the first run's pair when n is even
   * and the swapped pair when n is odd.
   */
  lemma {:induction false} PhaseEndsAlternate(initial: bool, n: nat, high: real)
    ensures PhaseEnds(PhaseAfter(initial, n), high) ==
      (if n % 2 == 0 then PhaseEnds(initial, high) else (PhaseEnds(initial, high).1, PhaseEnds(initial, high).0))
  {
    PhaseAfterParity(initial, n);
  }
}
