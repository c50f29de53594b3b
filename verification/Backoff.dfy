/**
 Durations as Go's time.Duration (a signed 64-bit count of nanoseconds) and the capped
 doubling of internal/outbox/backoff.go.
 */
module Backoff {
  const INT64_MAX := 0x7FFF_FFFF_FFFF_FFFF

  /** Go's time.Duration: every arithmetic step on it must stay inside 64 bits. */
  newtype Duration = d: int | -0x8000_0000_0000_0000 <= d <= INT64_MAX

  /** Go's 64-bit int. */
  newtype GoInt = n: int | -0x8000_0000_0000_0000 <= n <= INT64_MAX

  function Pow2(n: nat): (p: nat)
    ensures p > 0
  {
    if n == 0 then 1 else 2 * Pow2(n - 1)
  }

  function Min(a: int, b: int): int {
    if a <= b then a else b
  }

  /** The delay after the given failure, over unbounded integers: min(base * 2^(max(n,1)-1), cap). */
  function CappedDoubling(base: int, cap: int, failedAttempts: int): int {
    Min(base * Pow2(if failedAttempts <= 1 then 0 else failedAttempts - 1), cap)
  }

  lemma {:induction false} Pow2Grows(m: nat, n: nat)
    requires m <= n
    ensures Pow2(m) <= Pow2(n)
    ensures n - m < Pow2(n)
  {
    if m < n {
      Pow2Grows(m, n - 1);
    } else if n > 0 {
      Pow2Grows(0, n);
    }
  }

  lemma ScaleGrows(base: int, p: int, q: int)
    requires 0 < base && 0 <= p <= q
    ensures p <= base * p <= base * q
  {
  }

  /** base after n doublings, as the loop reaches it. */
  function Doubled(base: int, n: nat): int {
    if n == 0 then base else 2 * Doubled(base, n - 1)
  }

  lemma {:induction false} DoubledIsScaled(base: int, n: nat)
    ensures Doubled(base, n) == base * Pow2(n)
  {
    if n > 0 {
      DoubledIsScaled(base, n - 1);
    }
  }

  /** A later failure never waits less than an earlier one, and every delay lies between base and cap. */
  lemma DelayMonotone(base: int, cap: int, m: int, n: int)
    requires 0 < base <= cap
    requires m <= n
    ensures base <= CappedDoubling(base, cap, m) <= CappedDoubling(base, cap, n) <= cap
  {
    var i := if m <= 1 then 0 else m - 1;
    var j := if n <= 1 then 0 else n - 1;
    Pow2Grows(i, j);
    ScaleGrows(base, 1, Pow2(i));
    ScaleGrows(base, Pow2(i), Pow2(j));
  }

  /** Once doubling would pass the cap, every later failure waits exactly the cap. */
  lemma CapReached(base: int, cap: int, doublings: nat, failedAttempts: int)
    requires 0 < base <= cap
    requires failedAttempts - 1 > doublings
    requires 2 * Doubled(base, doublings) > cap
    ensures CappedDoubling(base, cap, failedAttempts) == cap
  {
    Pow2Grows(doublings + 1, failedAttempts - 1);
    ScaleGrows(base, Pow2(doublings + 1), Pow2(failedAttempts - 1));
    DoubledIsScaled(base, doublings + 1);
  }

  /** A positive 64-bit delay can be doubled at most 62 times. */
  lemma DoublingsFit(base: int, doublings: nat)
    requires 0 < base
    requires Doubled(base, doublings) <= INT64_MAX
    ensures doublings <= 62
  {
    if doublings > 62 {
      DoubledIsScaled(base, doublings);
      Pow2Grows(63, doublings);
      ScaleGrows(base, Pow2(63), Pow2(doublings));
      Pow2Of63();
    }
  }

  lemma Pow2Of63()
    ensures Pow2(63) == 0x8000_0000_0000_0000
  {
    assert Pow2(8) == 256;
    assert Pow2(16) == 0x1_0000;
    assert Pow2(24) == 0x100_0000;
    assert Pow2(32) == 0x1_0000_0000;
    assert Pow2(40) == 0x100_0000_0000;
    assert Pow2(48) == 0x1_0000_0000_0000;
    assert Pow2(56) == 0x100_0000_0000_0000;
  }

  /** The same delay step by step, in linear arithmetic: double the previous delay, never past the cap. */
  function DelayAfter(base: int, cap: int, failedAttempts: int): int
    decreases failedAttempts
  {
    if failedAttempts <= 1 then Min(base, cap) else Min(2 * DelayAfter(base, cap, failedAttempts - 1), cap)
  }

  /** Capping at every doubling gives the closed form, which caps once. */
  lemma {:induction false} DelayIsCappedDoubling(base: int, cap: int, failedAttempts: int)
    requires 0 < base <= cap
    ensures DelayAfter(base, cap, failedAttempts) == CappedDoubling(base, cap, failedAttempts)
    ensures base <= DelayAfter(base, cap, failedAttempts) <= cap
    decreases failedAttempts
  {
    DelayMonotone(base, cap, failedAttempts, failedAttempts);
    if failedAttempts > 1 {
      DelayIsCappedDoubling(base, cap, failedAttempts - 1);
      DoubledIsScaled(base, failedAttempts - 1);
      DoubledIsScaled(base, failedAttempts - 2);
    }
  }

  /** The two settings a policy is made of. */
  datatype Policy = Policy(base: Duration, max: Duration) {
    predicate Valid() {
      0 < base <= max
    }

    /**
     retryDelay: the loop of doublings. Besides the delay it reports, for proofs only, how often
     the loop body was entered.
     */
    method RetryDelay(failedAttempts: GoInt) returns (delay: Duration, ghost entries: nat)
      requires Valid()
      ensures delay as int == CappedDoubling(base as int, max as int, failedAttempts as int)
      ensures entries <= 63
    {
      entries := 0;
      if failedAttempts <= 1 {
        return base, 0;
      }

      delay := base;
      var remaining := failedAttempts - 1;
      while remaining > 0
        invariant 0 <= remaining <= failedAttempts - 1
        invariant entries == (failedAttempts - 1 - remaining) as int
        invariant delay as int == Doubled(base as int, entries)
        invariant base <= delay <= max
      {
        DoublingsFit(base as int, entries);
        entries := entries + 1;
        if delay > max - delay {
          CapReached(base as int, max as int, entries - 1, failedAttempts as int);
          return max, entries;
        }
        delay := delay * 2;
        remaining := remaining - 1;
      }
      DoublingsFit(base as int, entries);
      DoubledIsScaled(base as int, entries);
    }
  }

  /** newBackoffPolicy: accepts exactly the policies RetryDelay can be asked for. */
  method NewBackoffPolicy(base: Duration, max: Duration) returns (ok: bool, policy: Policy)
    ensures ok <==> 0 < base <= max
    ensures ok ==> policy == Policy(base, max) && policy.Valid()
  {
    policy := Policy(0, 0);
    if base <= 0 {
      return false, policy;
    }
    if max <= 0 {
      return false, policy;
    }
    if max < base {
      return false, policy;
    }
    return true, Policy(base, max);
  }
}
