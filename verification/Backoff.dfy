/** The backoff arithmetic of config.go, with the 64-bit wrap-around of time.Duration. */
module Backoff {
  import opened Strconv

  const TWO_62: int := 0x4000_0000_0000_0000
  const TWO_64: int := 0x1_0000_0000_0000_0000

  /** What an int64 holds after an operation whose exact result is `x`. */
  function Wrap(x: int): Int64 {
    (x + TWO_64 / 2) % TWO_64 - TWO_64 / 2
  }

  /** RetryConfig after defaulting. */
  datatype RetryConfig = RetryConfig(maxImmediateRetries: Int64, initialBackoff: Int64, maxBackoff: Int64)

  /** The doubling loop from `d`, with `n` iterations to go. */
  function Doubling(d: Int64, max: Int64, n: nat): Int64
    decreases n
  {
    if n == 0 then (if d > max then max else d)
    else if d >= max then max
    else Doubling(Wrap(2 * d), max, n - 1)
  }

  method BackoffUpperBound(r: RetryConfig, i: nat) returns (d: Int64)
    ensures d == Doubling(r.initialBackoff, r.maxBackoff, i)
  {
    d := r.initialBackoff;
    for k := 0 to i
      invariant Doubling(d, r.maxBackoff, i - k) == Doubling(r.initialBackoff, r.maxBackoff, i)
    {
      if d >= r.maxBackoff {
        return r.maxBackoff;
      }
      d := Wrap(2 * d);
    }
    if d > r.maxBackoff {
      d := r.maxBackoff;
    }
  }

  /** The wrapped sum of the first `n` upper bounds. */
  function CodeSum(r: RetryConfig, n: nat): Int64 {
    if n == 0 then 0
    else Wrap(CodeSum(r, n - 1) + Doubling(r.initialBackoff, r.maxBackoff, n - 1))
  }

  function Retries(r: RetryConfig): nat {
    if r.maxImmediateRetries < 0 then 0 else r.maxImmediateRetries
  }

  method WorstCaseBackoff(r: RetryConfig) returns (total: Int64)
    ensures total == CodeSum(r, if r.maxImmediateRetries < 0 then 0 else r.maxImmediateRetries)
  {
    total := 0;
    for i := 0 to Retries(r)
      invariant total == CodeSum(r, i)
    {
      var d := BackoffUpperBound(r, i);
      total := Wrap(total + d);
    }
  }

  // ----- what the arithmetic is meant to be -----

  /** InitialBackoff doubled `i` times, exactly. */
  function Doubled(initial: int, i: nat): int {
    if i == 0 then initial else 2 * Doubled(initial, i - 1)
  }

  /** min(InitialBackoff * 2^i, MaxBackoff) */
  function Bound(initial: int, max: int, i: nat): int {
    if Doubled(initial, i) < max then Doubled(initial, i) else max
  }

  function BoundSum(initial: int, max: int, n: nat): int {
    if n == 0 then 0 else BoundSum(initial, max, n - 1) + Bound(initial, max, n - 1)
  }

  lemma {:induction false} DoubledGrows(initial: int, i: nat, j: nat)
    requires 0 <= initial && i <= j
    ensures initial <= Doubled(initial, i) <= Doubled(initial, j)
    ensures i < j && 0 < initial ==> Doubled(initial, i) < Doubled(initial, j)
    decreases j
  {
    if i < j {
      DoubledGrows(initial, i, j - 1);
    } else if i > 0 {
      DoubledGrows(initial, i - 1, j - 1);
    }
  }

  lemma {:induction false} DoubledShift(initial: int, i: nat)
    ensures Doubled(2 * initial, i) == Doubled(initial, i + 1)
  {
    if i > 0 {
      DoubledShift(initial, i - 1);
    }
  }

  /** The sleep bound never shrinks from one retry to the next and never exceeds MaxBackoff. */
  lemma BoundMonotone(initial: int, max: int, i: nat, j: nat)
    requires 0 <= initial && i <= j
    ensures Bound(initial, max, i) <= Bound(initial, max, j) <= max
  {
    DoubledGrows(initial, i, j);
  }

  /** The loop computes the bound exactly as long as no doubling leaves the int64 range. */
  lemma {:induction false} DoublingExact(initial: Int64, max: Int64, i: nat)
    requires 0 <= initial
    requires forall j :: 0 <= j < i && Doubled(initial, j) < max ==> Doubled(initial, j) < TWO_62
    ensures Doubling(initial, max, i) == Bound(initial, max, i)
    decreases i
  {
    if i > 0 {
      assert Doubled(initial, 0) == initial;
      if initial >= max {
        DoubledGrows(initial, 0, i);
      } else {
        forall j: nat | j < i - 1 && Doubled(2 * initial, j) < max ensures Doubled(2 * initial, j) < TWO_62 {
          DoubledShift(initial, j);
        }
        assert initial < TWO_62 && Wrap(2 * initial) == 2 * initial;
        DoublingExact(2 * initial, max, i - 1);
        DoubledShift(initial, i - 1);
      }
    }
  }

  /** The exact condition: the loop is right for every InitialBackoff and every retry if and only if
      MaxBackoff is at most 2^62 nanoseconds. */
  lemma DoublingExactIff(max: Int64)
    requires 0 <= max
    ensures (forall initial: Int64, i: nat :: 0 <= initial ==> Doubling(initial, max, i) == Bound(initial, max, i))
            <==> max <= TWO_62
  {
    if max <= TWO_62 {
      forall initial: Int64, i: nat | 0 <= initial ensures Doubling(initial, max, i) == Bound(initial, max, i) {
        DoublingExact(initial, max, i);
      }
    } else {
      DoublingOverflows(max);
      var initial: Int64 := TWO_62;
      assert Doubling(initial, max, 1) != Bound(initial, max, 1);
    }
  }

  /** With a larger MaxBackoff, doubling 2^62 gives a negative bound. */
  lemma DoublingOverflows(max: Int64)
    requires TWO_62 < max
    ensures Doubling(TWO_62, max, 1) < 0 && Bound(TWO_62, max, 1) == max
  {
    assert Wrap(2 * TWO_62) == MIN_INT64;
    assert Doubling(TWO_62, max, 1) == Doubling(MIN_INT64, max, 0);
    assert Doubled(TWO_62, 0) == TWO_62;
  }

  // ----- the closed form of the sum -----

  /** How many of the first `n` bounds are still below MaxBackoff. */
  function Doublings(initial: int, max: int, n: nat): (k: nat)
    ensures k <= n
  {
    if n == 0 then 0
    else if Doubled(initial, n - 1) < max then n
    else Doublings(initial, max, n - 1)
  }

  function Pow2(k: nat): nat {
    if k == 0 then 1 else 2 * Pow2(k - 1)
  }

  lemma {:induction false} DoubledIsPower(initial: int, k: nat)
    ensures Doubled(initial, k) == initial * Pow2(k)
  {
    if k > 0 {
      DoubledIsPower(initial, k - 1);
      assert 2 * (initial * Pow2(k - 1)) == initial * (2 * Pow2(k - 1));
    }
  }

  lemma PowerStep(initial: int, p: int)
    ensures initial * (p - 1) + initial * p == initial * (2 * p - 1)
  {
  }

  lemma OneMoreMax(k: int, max: int)
    ensures k * max + max == (k + 1) * max
  {
  }

  /** The sum is InitialBackoff * (2^k - 1) + (n - k) * MaxBackoff, where the first k of the n bounds are
      below MaxBackoff. */
  lemma {:induction false} SumClosedForm(initial: int, max: int, n: nat)
    requires 0 <= initial
    ensures var k := Doublings(initial, max, n);
            BoundSum(initial, max, n) == initial * (Pow2(k) - 1) + (n - k) * max
  {
    if n > 0 {
      SumClosedForm(initial, max, n - 1);
      if Doubled(initial, n - 1) < max {
        AllBelow(initial, max, n - 1);
        DoubledIsPower(initial, n - 1);
        PowerStep(initial, Pow2(n - 1));
      } else {
        var k := Doublings(initial, max, n - 1);
        OneMoreMax(n - 1 - k, max);
      }
    }
  }

  lemma {:induction false} AllBelow(initial: int, max: int, n: nat)
    requires 0 <= initial && Doubled(initial, n) < max
    ensures Doublings(initial, max, n) == n
  {
    if n > 0 {
      DoubledGrows(initial, n - 1, n);
    }
  }

  // ----- the check at construction -----

  lemma {:induction false} SumGrows(initial: int, max: int, m: nat, n: nat)
    requires 0 <= initial && 0 <= max && m <= n
    ensures 0 <= BoundSum(initial, max, m) <= BoundSum(initial, max, n)
    decreases n
  {
    if m < n {
      SumGrows(initial, max, m, n - 1);
      DoubledGrows(initial, 0, n - 1);
    } else if n > 0 {
      SumGrows(initial, max, m - 1, n - 1);
      DoubledGrows(initial, 0, n - 1);
    }
  }

  /** When the exact sum of `n` bounds fits in an int64, none of its doublings overflowed. */
  lemma SumFitsImpliesExact(initial: Int64, max: Int64, n: nat, i: nat)
    requires 0 <= initial && 0 <= max && i < n && BoundSum(initial, max, n) <= MAX_INT64
    ensures Doubling(initial, max, i) == Bound(initial, max, i)
  {
    forall j: nat | j < i && Doubled(initial, j) < max ensures Doubled(initial, j) < TWO_62 {
      DoubledGrows(initial, j, j + 1);
      BoundMonotone(initial, max, j + 1, i);
      SumGrows(initial, max, 0, j);
      SumGrows(initial, max, j + 1, i);
      SumGrows(initial, max, i + 1, n);
      assert BoundSum(initial, max, j + 1) == BoundSum(initial, max, j) + Bound(initial, max, j);
      assert BoundSum(initial, max, i + 1) == BoundSum(initial, max, i) + Bound(initial, max, i);
      assert Doubled(initial, j + 1) == 2 * Doubled(initial, j);
    }
    DoublingExact(initial, max, i);
  }

  lemma {:induction false} CodeSumExact(r: RetryConfig, m: nat, n: nat)
    requires 0 <= r.initialBackoff && 0 <= r.maxBackoff && m <= n
    requires BoundSum(r.initialBackoff, r.maxBackoff, n) <= MAX_INT64
    ensures CodeSum(r, m) == BoundSum(r.initialBackoff, r.maxBackoff, m)
    decreases m
  {
    if m > 0 {
      CodeSumExact(r, m - 1, n);
      SumFitsImpliesExact(r.initialBackoff, r.maxBackoff, n, m - 1);
      SumGrows(r.initialBackoff, r.maxBackoff, m, n);
      SumGrows(r.initialBackoff, r.maxBackoff, 0, m);
    }
  }

  /** The exact condition for the construction check: among the configurations it accepts, the worst-case
      backoff is below ClaimMinIdle if and only if the exact sum fits in an int64. */
  lemma AcceptedBudgetIff(r: RetryConfig, claimMinIdle: Int64)
    requires 0 <= r.initialBackoff && 0 <= r.maxBackoff
    requires CodeSum(r, Retries(r)) < claimMinIdle
    ensures BoundSum(r.initialBackoff, r.maxBackoff, Retries(r)) < claimMinIdle
            <==> BoundSum(r.initialBackoff, r.maxBackoff, Retries(r)) <= MAX_INT64
  {
    if BoundSum(r.initialBackoff, r.maxBackoff, Retries(r)) <= MAX_INT64 {
      CodeSumExact(r, Retries(r), Retries(r));
    }
  }

  function Total(sleeps: seq<int>): int {
    if sleeps == [] then 0 else Total(sleeps[..|sleeps| - 1]) + sleeps[|sleeps| - 1]
  }

  /** Each sleep is drawn below the bound the code computes for its retry (no sleep when that is not positive). */
  ghost predicate Jittered(r: RetryConfig, sleeps: seq<int>) {
    && |sleeps| <= Retries(r)
    && forall i :: 0 <= i < |sleeps| ==>
         var upper := Doubling(r.initialBackoff, r.maxBackoff, i);
         0 <= sleeps[i] && (if upper <= 0 then sleeps[i] == 0 else sleeps[i] < upper)
  }

  lemma {:induction false} SleepsWithinSum(r: RetryConfig, sleeps: seq<int>)
    requires 0 <= r.initialBackoff && 0 <= r.maxBackoff && Jittered(r, sleeps)
    requires BoundSum(r.initialBackoff, r.maxBackoff, Retries(r)) <= MAX_INT64
    ensures 0 <= Total(sleeps) <= BoundSum(r.initialBackoff, r.maxBackoff, |sleeps|)
  {
    if sleeps != [] {
      SleepsWithinSum(r, sleeps[..|sleeps| - 1]);
      SumFitsImpliesExact(r.initialBackoff, r.maxBackoff, Retries(r), |sleeps| - 1);
      DoubledGrows(r.initialBackoff, 0, |sleeps| - 1);
    }
  }

  lemma {:induction false} TotalOfBounds(r: RetryConfig, bounds: seq<int>)
    requires forall i :: 0 <= i < |bounds| ==> bounds[i] == Bound(r.initialBackoff, r.maxBackoff, i)
    ensures Total(bounds) == BoundSum(r.initialBackoff, r.maxBackoff, |bounds|)
  {
    if bounds != [] {
      TotalOfBounds(r, bounds[..|bounds| - 1]);
    }
  }

  /** The code's worst case is the sum of exactly MaxImmediateRetries bounds, when that sum fits in an int64. */
  lemma WorstCaseIsTotal(r: RetryConfig, bounds: seq<int>)
    requires 0 <= r.initialBackoff && 0 <= r.maxBackoff && |bounds| == r.maxImmediateRetries
    requires forall i :: 0 <= i < |bounds| ==> bounds[i] == Bound(r.initialBackoff, r.maxBackoff, i)
    requires Total(bounds) <= MAX_INT64
    ensures CodeSum(r, Retries(r)) == Total(bounds)
  {
    TotalOfBounds(r, bounds);
    CodeSumExact(r, |bounds|, |bounds|);
  }

  // ----- the longest a delivery can sleep -----

  /** The longest jittered sleep of retry `i`: one below its bound, and none when the bound is not positive. */
  function Longest(r: RetryConfig, i: nat): nat {
    var upper := Doubling(r.initialBackoff, r.maxBackoff, i);
    if upper <= 0 then 0 else upper - 1
  }

  function MaxSleep(r: RetryConfig, n: nat): nat {
    if n == 0 then 0 else MaxSleep(r, n - 1) + Longest(r, n - 1)
  }

  function LongestSleeps(r: RetryConfig, n: nat): (s: seq<int>)
    ensures |s| == n && forall i :: 0 <= i < n ==> s[i] == Longest(r, i)
  {
    if n == 0 then [] else LongestSleeps(r, n - 1) + [Longest(r, n - 1)]
  }

  lemma {:induction false} SleepsAtMost(r: RetryConfig, sleeps: seq<int>, n: nat)
    requires Jittered(r, sleeps) && |sleeps| <= n
    ensures Total(sleeps) <= MaxSleep(r, n)
    decreases n
  {
    if |sleeps| == n && n > 0 {
      SleepsAtMost(r, sleeps[..n - 1], n - 1);
    } else if n > 0 {
      SleepsAtMost(r, sleeps, n - 1);
    }
  }

  lemma {:induction false} LongestTotal(r: RetryConfig, n: nat)
    ensures Total(LongestSleeps(r, n)) == MaxSleep(r, n)
  {
    if n > 0 {
      LongestTotal(r, n - 1);
      assert LongestSleeps(r, n)[..n - 1] == LongestSleeps(r, n - 1);
    }
  }

  lemma LongestIsReached(r: RetryConfig, n: nat)
    requires n <= Retries(r)
    ensures Jittered(r, LongestSleeps(r, n)) && Total(LongestSleeps(r, n)) == MaxSleep(r, n)
  {
    LongestTotal(r, n);
  }

  /** For every configuration: no jitter choice makes one delivery sleep as long as ClaimMinIdle if and only if the
      longest sleeps add up to less. */
  lemma SleepBelowMinIdleIff(r: RetryConfig, claimMinIdle: Int64)
    ensures (forall sleeps :: Jittered(r, sleeps) ==> Total(sleeps) < claimMinIdle)
            <==> MaxSleep(r, Retries(r)) < claimMinIdle
  {
    LongestIsReached(r, Retries(r));
    if MaxSleep(r, Retries(r)) < claimMinIdle {
      forall sleeps | Jittered(r, sleeps) ensures Total(sleeps) < claimMinIdle {
        SleepsAtMost(r, sleeps, Retries(r));
      }
    }
  }

  /** An accepted configuration whose exact sum fits keeps every jitter choice below ClaimMinIdle. */
  lemma SleepBelowMinIdle(r: RetryConfig, claimMinIdle: Int64)
    requires 0 <= r.initialBackoff && 0 <= r.maxBackoff && CodeSum(r, Retries(r)) < claimMinIdle
    requires BoundSum(r.initialBackoff, r.maxBackoff, Retries(r)) <= MAX_INT64
    ensures MaxSleep(r, Retries(r)) < claimMinIdle
  {
    LongestIsReached(r, Retries(r));
    SleepsWithinSum(r, LongestSleeps(r, Retries(r)));
    AcceptedBudgetIff(r, claimMinIdle);
  }

  /** A configuration the check lets through whatever ClaimMinIdle is, although some jitter choice sleeps longer: three
      retries of 2^62 ns each wrap to a negative sum. */
  lemma OverlongBackoffAccepted(claimMinIdle: Int64) returns (sleeps: seq<int>)
    requires 0 < claimMinIdle
    ensures var r := RetryConfig(3, TWO_62, TWO_62);
            CodeSum(r, Retries(r)) < claimMinIdle && Jittered(r, sleeps) && Total(sleeps) >= claimMinIdle
  {
    var r := RetryConfig(3, TWO_62, TWO_62);
    sleeps := LongestSleeps(r, 3);
    LongestIsReached(r, 3);
    assert Wrap(TWO_62) == TWO_62 && Wrap(TWO_62 + TWO_62) == MIN_INT64;
    assert Wrap(MIN_INT64 + TWO_62) == MIN_INT64 + TWO_62;
    assert forall i: nat :: Doubling(TWO_62, TWO_62, i) == TWO_62 && Longest(r, i) == TWO_62 - 1;
    assert CodeSum(r, 0) == 0 && CodeSum(r, 1) == TWO_62 && CodeSum(r, 2) == MIN_INT64;
    assert CodeSum(r, 3) == MIN_INT64 + TWO_62;
    assert MaxSleep(r, 0) == 0 && MaxSleep(r, 1) == TWO_62 - 1 && MaxSleep(r, 2) == 2 * TWO_62 - 2 && MaxSleep(r, 3) == 3 * TWO_62 - 3;
  }

  /** An exact sum that overflows need not be slept: here the second bound wraps negative, so only the first retry
      waits. */
  lemma OverflowCanShortenSleep()
    ensures var r := RetryConfig(2, TWO_62, TWO_62 + 1);
            && CodeSum(r, Retries(r)) < TWO_62
            && BoundSum(r.initialBackoff, r.maxBackoff, Retries(r)) > MAX_INT64
            && MaxSleep(r, Retries(r)) < TWO_62
  {
    var r := RetryConfig(2, TWO_62, TWO_62 + 1);
    DoublingOverflows(TWO_62 + 1);
    assert Doubling(TWO_62, TWO_62 + 1, 0) == TWO_62;
    assert Doubling(TWO_62, TWO_62 + 1, 1) == MIN_INT64;
    assert Wrap(TWO_62) == TWO_62 && Wrap(TWO_62 + MIN_INT64) == MIN_INT64 + TWO_62;
    assert CodeSum(r, 0) == 0 && CodeSum(r, 1) == TWO_62 && CodeSum(r, 2) == MIN_INT64 + TWO_62;
    assert Doubled(TWO_62, 0) == TWO_62 && Doubled(TWO_62, 1) == 2 * TWO_62;
    assert Bound(TWO_62, TWO_62 + 1, 0) == TWO_62 && Bound(TWO_62, TWO_62 + 1, 1) == TWO_62 + 1;
    assert BoundSum(TWO_62, TWO_62 + 1, 0) == 0 && BoundSum(TWO_62, TWO_62 + 1, 1) == TWO_62;
    assert BoundSum(TWO_62, TWO_62 + 1, 2) == TWO_62 + TWO_62 + 1;
    assert Longest(r, 0) == TWO_62 - 1 && Longest(r, 1) == 0;
    assert MaxSleep(r, 0) == 0 && MaxSleep(r, 1) == TWO_62 - 1 && MaxSleep(r, 2) == TWO_62 - 1;
  }
}
