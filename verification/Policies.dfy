/** The backoff and retry policies. */
module Policies {
  import opened Basics

  // ---- Truncated exponential backoff ----

  /** The state of ExponentialBackoffPolicy, in microseconds; the scaling factor is exact. */
  datatype Backoff = Backoff(range: nat, maximum: nat, scaling: real)

  function InitialBackoff(initial: nat, maximum: nat, scaling: real): Backoff {
    Backoff(2 * initial, maximum, scaling)
  }

  predicate Sound(b: Backoff) {
    b.scaling > 1.0
  }

  /** The product of a count and the scaling factor. */
  function Times(n: nat, s: real): (r: real)
    ensures s > 1.0 ==> r >= n as real
  {
    if n == 0 then 0.0 else Times(n - 1, s) + s
  }

  lemma {:induction false} TimesIsProduct(n: nat, s: real)
    ensures Times(n, s) == n as real * s
  {
    if n > 0 { TimesIsProduct(n - 1, s); }
  }

  /** range * scaling, truncated to whole microseconds. */
  function Scaled(range: nat, scaling: real): (r: nat)
    requires scaling > 1.0
    ensures r >= range
  {
    Times(range, scaling).Floor
  }

  lemma ScaledIsTruncated(range: nat, scaling: real)
    requires scaling > 1.0
    ensures Scaled(range, scaling) as real <= range as real * scaling < Scaled(range, scaling) as real + 1.0
  {
    TimesIsProduct(range, scaling);
  }

  function Advance(b: Backoff): Backoff
    requires Sound(b)
  {
    var r := Scaled(b.range, b.scaling);
    b.(range := if r >= b.maximum then b.maximum else r)
  }

  /** The values a draw from [range / 2, range] can take, numbered by u. */
  function Draw(b: Backoff, u: nat): (d: nat)
    ensures b.range / 2 <= d <= b.range
  {
    b.range / 2 + u % (b.range - b.range / 2 + 1)
  }

  /** The wait is a draw in whole milliseconds. */
  lemma DelayIsDraw(b: Backoff, u: nat)
    ensures b.range / 2 / 1000 <= Delay(b, u) <= b.range / 1000
  {
  }

  lemma DelayReachesAll(b: Backoff, milliseconds: nat) returns (u: nat)
    requires b.range / 2 / 1000 <= milliseconds <= b.range / 1000
    ensures Delay(b, u) == milliseconds
  {
    var d := Max(b.range / 2, 1000 * milliseconds);
    u := d - b.range / 2;
    DrawReachesAll(b, d);
  }

  lemma DrawReachesAll(b: Backoff, d: nat)
    requires b.range / 2 <= d <= b.range
    ensures Draw(b, d - b.range / 2) == d
  {
  }

  /** The wait that OnCompletion() returns, in milliseconds. */
  function Delay(b: Backoff, u: nat): nat {
    Draw(b, u) / 1000
  }

  /** From x to y, which is the maximum if x * scaling reaches it, and else the whole microseconds of x * scaling. */
  predicate ByFactor(x: nat, y: nat, scaling: real, maximum: nat) {
    if x as real * scaling >= maximum as real then y == maximum
    else y as real <= x as real * scaling < y as real + 1.0
  }

  lemma AdvanceIsByFactor(b: Backoff)
    requires Sound(b)
    ensures ByFactor(b.range, Advance(b).range, b.scaling, b.maximum)
  {
    ScaledIsTruncated(b.range, b.scaling);
  }

  class ExponentialBackoffPolicy {
    var range: nat
    var seeded: bool    // generator_ holds a generator
    const maximum: nat
    const scaling: real

    function View(): Backoff
      reads this
    {
      Backoff(range, maximum, scaling)
    }

    ghost predicate Valid()
      reads this
    {
      Sound(View())
    }

    /** Throws std::invalid_argument unless the scaling factor exceeds one. */
    static method Create(initial: nat, maximum: nat, scaling: real) returns (r: Option<ExponentialBackoffPolicy>)
      ensures r.Some? <==> scaling > 1.0
      ensures r.Some? ==> fresh(r.value) && r.value.Valid()
                          && r.value.View() == InitialBackoff(initial, maximum, scaling)
                          && r.value.range == 2 * initial && r.value.maximum == maximum && r.value.scaling == scaling
                          && !r.value.seeded
    {
      if scaling <= 1.0 {
        return None;
      }
      var p := new ExponentialBackoffPolicy.Copy(Backoff(2 * initial, maximum, scaling));
      r := Some(p);
    }

    constructor Copy(b: Backoff)
      ensures View() == b && !seeded
    {
      range, seeded, maximum, scaling := b.range, false, b.maximum, b.scaling;
    }

    /** The copy continues from the current range; it draws from a generator of its own. */
    method Clone() returns (c: ExponentialBackoffPolicy)
      requires Valid()
      ensures fresh(c) && c.Valid() && c.View() == View() && !c.seeded
    {
      c := new ExponentialBackoffPolicy.Copy(Backoff(range, maximum, scaling));
    }

    /** OnCompletion(), with the number drawn by the generator. */
    method OnCompletion(u: nat) returns (milliseconds: nat)
      requires Valid()
      modifies this
      ensures Valid() && seeded
      ensures milliseconds == Delay(old(View()), u) && View() == Advance(old(View()))
      ensures old(range) / 2 / 1000 <= milliseconds <= old(range) / 1000
      ensures ByFactor(old(range), range, scaling, maximum)
    {
      DelayIsDraw(View(), u);
      AdvanceIsByFactor(View());
      if !seeded {
        seeded := true;
      }
      var delay := range / 2 + u % (range - range / 2 + 1);
      range := Scaled(range, scaling);
      if range >= maximum {
        range := maximum;
      }
      milliseconds := delay / 1000;
    }
  }

  // ---- How the range grows ----

  function After(b: Backoff, k: nat): (r: Backoff)
    requires Sound(b)
    ensures Sound(r) && r.maximum == b.maximum && r.scaling == b.scaling
  {
    if k == 0 then b else Advance(After(b, k - 1))
  }

  function Power(s: real, k: nat): real {
    if k == 0 then 1.0 else s * Power(s, k - 1)
  }

  /** Every call multiplies the range by the factor, down to whole microseconds and up to the maximum. */
  lemma RangeGrowsByFactor(b: Backoff, k: nat)
    requires Sound(b)
    ensures ByFactor(After(b, k).range, After(b, k + 1).range, b.scaling, b.maximum)
  {
    hide ByFactor, Advance;
    AdvanceIsByFactor(After(b, k));
    assert After(b, k + 1) == Advance(After(b, k));
  }

  /** The range never decreases. */
  lemma RangeNeverDecreases(b: Backoff, k: nat)
    requires Sound(b) && b.range <= b.maximum
    ensures After(b, k).range <= After(b, k + 1).range <= b.maximum
  {
    RangeInBounds(b, k);
  }

  lemma {:induction false} RangeInBounds(b: Backoff, k: nat)
    requires Sound(b) && b.range <= b.maximum
    ensures b.range <= After(b, k).range <= b.maximum
  {
    if k > 0 { RangeInBounds(b, k - 1); }
  }

  lemma StepBound(b: Backoff, k: nat)
    requires Sound(b)
    ensures AtMost(After(b, k).range, After(b, k + 1).range, b.scaling)
  {
    assert After(b, k + 1) == Advance(After(b, k));
  }

  /** The range without truncation and without a maximum. */
  function Untruncated(range: real, s: real, k: nat): real {
    if k == 0 then range else Untruncated(range, s, k - 1) * s
  }

  function Geometric(range: real, s: real, k: nat): real {
    range * Power(s, k)
  }

  lemma {:induction false} UntruncatedIsGeometric(range: real, s: real, k: nat)
    ensures Untruncated(range, s, k) == Geometric(range, s, k)
  {
    if k > 0 {
      UntruncatedIsGeometric(range, s, k - 1);
      assert range * Power(s, k - 1) * s == range * (s * Power(s, k - 1));
    }
  }

  /** No entry exceeds the one before it by more than the factor s. */
  predicate GrowsAtMost(ranges: seq<nat>, s: real) {
    forall j :: 0 <= j < |ranges| - 1 ==> AtMost(ranges[j], ranges[j + 1], s)
  }

  predicate AtMost(x: nat, y: nat, s: real) {
    y as real <= Times(x, s)
  }

  lemma {:induction false} BelowUntruncated(ranges: seq<nat>, s: real, k: nat)
    requires s > 0.0 && GrowsAtMost(ranges, s) && k < |ranges|
    ensures ranges[k] as real <= Untruncated(ranges[0] as real, s, k)
  {
    if k > 0 {
      BelowUntruncated(ranges, s, k - 1);
      assert AtMost(ranges[k - 1], ranges[k - 1 + 1], s);
      TimesIsProduct(ranges[k - 1], s);
      MulMonotone(ranges[k - 1] as real, Untruncated(ranges[0] as real, s, k - 1), s);
    }
  }

  /** The ranges of k calls, in order. */
  function Ranges(b: Backoff, k: nat): (r: seq<nat>)
    requires Sound(b)
    ensures |r| == k + 1 && r[0] == b.range && r[k] == After(b, k).range
  {
    if k == 0 then [b.range] else Ranges(b, k - 1) + [After(b, k).range]
  }

  lemma {:induction false} RangesGrowAtMost(b: Backoff, k: nat)
    requires Sound(b)
    ensures GrowsAtMost(Ranges(b, k), b.scaling)
  {
    if k > 0 {
      RangesGrowAtMost(b, k - 1);
      StepBound(b, k - 1);
      var rs := Ranges(b, k - 1);
      forall j | 0 <= j < k ensures AtMost(Ranges(b, k)[j], Ranges(b, k)[j + 1], b.scaling) {
        assert j < k - 1 ==> AtMost(rs[j], rs[j + 1], b.scaling);
      }
    }
  }

  /** After k calls the range is at most the untruncated range. */
  lemma RangeGrowsGeometrically(b: Backoff, k: nat)
    requires Sound(b)
    ensures After(b, k).range as real <= Untruncated(b.range as real, b.scaling, k)
  {
    RangesGrowAtMost(b, k);
    BelowUntruncated(Ranges(b, k), b.scaling, k);
  }

  /** After k calls the range is at most min(maximum, range * scaling^k). */
  lemma RangeAtMost(b: Backoff, k: nat)
    requires Sound(b) && b.range <= b.maximum
    ensures After(b, k).range <= b.maximum
    ensures After(b, k).range as real <= Geometric(b.range as real, b.scaling, k)
  {
    hide *;
    RangeInBounds(b, k);
    RangeGrowsGeometrically(b, k);
    UntruncatedIsGeometric(b.range as real, b.scaling, k);
  }

  lemma MulMonotone(x: real, y: real, s: real)
    requires x <= y && s > 0.0
    ensures x * s <= y * s
  {
    assert (y - x) * s >= 0.0;
  }

  /** A step grows the range by at least one microsecond if and only if range * (scaling - 1) >= 1. */
  lemma GrowsIff(range: nat, s: real)
    requires s > 1.0
    ensures Scaled(range, s) >= range + 1 <==> range as real * (s - 1.0) >= 1.0
  {
    ScaledIsTruncated(range, s);
    assert range as real * s == range as real + range as real * (s - 1.0);
  }

  lemma StillGrows(low: nat, range: nat, s: real)
    requires s > 1.0 && low <= range && low as real * (s - 1.0) >= 1.0
    ensures Scaled(range, s) >= range + 1
  {
    MulMonotone(low as real, range as real, s - 1.0);
    GrowsIff(range, s);
  }

  /** A range that can grow reaches the maximum within maximum - range calls, and stays there. */
  lemma {:induction false} ReachesMaximum(b: Backoff, k: nat)
    requires Sound(b) && b.range <= b.maximum && b.range as real * (b.scaling - 1.0) >= 1.0
    ensures After(b, k).range >= Min(b.maximum, b.range + k)
    ensures k >= b.maximum - b.range ==> After(b, k).range == b.maximum
  {
    RangeInBounds(b, k);
    if k > 0 {
      ReachesMaximum(b, k - 1);
      StepClimbs(b, k - 1);
    }
  }

  lemma StepClimbs(b: Backoff, k: nat)
    requires Sound(b) && b.range <= b.maximum && b.range as real * (b.scaling - 1.0) >= 1.0
    ensures After(b, k + 1).range >= Min(b.maximum, After(b, k).range + 1)
  {
    RangeInBounds(b, k);
    StillGrows(b.range, After(b, k).range, b.scaling);
    assert After(b, k + 1) == Advance(After(b, k));
  }

  /** Below the maximum, a range that cannot grow never changes. */
  lemma {:induction false} StaysForever(b: Backoff, k: nat)
    requires Sound(b) && b.range < b.maximum && b.range as real * (b.scaling - 1.0) < 1.0
    ensures After(b, k) == b
  {
    hide Scaled;
    if k > 0 {
      StaysForever(b, k - 1);
      GrowsIff(b.range, b.scaling);
    }
  }

  /** The delays reach the maximum exactly if they start there or the first step already grows. */
  lemma ReachesMaximumIff(b: Backoff)
    requires Sound(b) && b.range <= b.maximum
    ensures (exists k: nat :: After(b, k).range == b.maximum) <==>
            b.range == b.maximum || b.range as real * (b.scaling - 1.0) >= 1.0
  {
    if b.range == b.maximum {
      assert After(b, 0).range == b.maximum;
    } else if b.range as real * (b.scaling - 1.0) >= 1.0 {
      ReachesMaximum(b, b.maximum - b.range);
    } else {
      forall k: nat ensures After(b, k).range != b.maximum { StaysForever(b, k); }
    }
  }

  /** 10 microseconds with factor 1.01 never grow, whatever the maximum. */
  lemma TinyDelayNeverGrows(k: nat)
    ensures After(InitialBackoff(10, 1000000, 1.01), k).range == 20
  {
    StaysForever(InitialBackoff(10, 1000000, 1.01), k);
  }

  // ---- Retry policies ----

  /** LimitedErrorCountRetryPolicy and LimitedTimeRetryPolicy. */
  datatype RetryPolicy =
    | ErrorCount(failures: int, maximum: int)
    | TimeLimit(deadline: int)

  /** OnFailure() for an error that is permanent or not, at the given time: the new policy, and whether to
      try again. */
  function Judge(p: RetryPolicy, permanent: bool, now: int): (RetryPolicy, bool) {
    if permanent then (p, false)
    else match p
         case ErrorCount(n, max) => (ErrorCount(n + 1, max), n + 1 <= max)
         case TimeLimit(d) => (p, now < d)
  }

  /** The answers of a policy to a sequence of transient errors. */
  function Verdicts(p: RetryPolicy, times: seq<int>): (v: seq<bool>)
    ensures |v| == |times|
    decreases |times|
  {
    if times == [] then [] else
    var (p1, again) := Judge(p, false, times[0]);
    [again] + Verdicts(p1, times[1..])
  }

  /** A fresh count policy tolerates exactly max(0, maximum) transient errors. */
  lemma {:induction false} CountPolicyTolerates(p: RetryPolicy, times: seq<int>, k: nat)
    requires p.ErrorCount? && k < |times|
    ensures Verdicts(p, times)[k] <==> p.failures + k < p.maximum
    decreases k
  {
    if k > 0 { CountPolicyTolerates(Judge(p, false, times[0]).0, times[1..], k - 1); }
  }

  /** A time policy tolerates transient errors exactly before its deadline. */
  lemma {:induction false} TimePolicyTolerates(p: RetryPolicy, times: seq<int>, k: nat)
    requires p.TimeLimit? && k < |times|
    ensures Verdicts(p, times)[k] <==> times[k] < p.deadline
    decreases k
  {
    if k > 0 { TimePolicyTolerates(p, times[1..], k - 1); }
  }

  /** A permanent error is refused by every policy, and changes none. */
  lemma PermanentIsRefused(p: RetryPolicy, now: int)
    ensures Judge(p, true, now) == (p, false)
  {
  }

  class LimitedErrorCountRetryPolicy {
    var failureCount: int
    const maximumFailures: int

    function View(): RetryPolicy
      reads this
    {
      ErrorCount(failureCount, maximumFailures)
    }

    constructor (maximum: int)
      ensures View() == ErrorCount(0, maximum)
    {
      failureCount, maximumFailures := 0, maximum;
    }

    /** A clone starts counting from zero. */
    method Clone() returns (c: LimitedErrorCountRetryPolicy)
      ensures fresh(c) && c.View() == ErrorCount(0, maximumFailures)
    {
      c := new LimitedErrorCountRetryPolicy(maximumFailures);
    }

    predicate IsExhausted()
      reads this
    {
      failureCount > maximumFailures
    }

    method OnFailure(permanent: bool) returns (again: bool)
      modifies this
      ensures (View(), again) == Judge(old(View()), permanent, 0)
      ensures failureCount == old(failureCount) + (if permanent then 0 else 1)
      ensures again <==> !permanent && failureCount <= maximumFailures
    {
      if permanent {
        return false;
      }
      failureCount := failureCount + 1;
      again := !IsExhausted();
    }
  }
}
