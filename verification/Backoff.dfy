/** The reconnect delay: doubled per attempt, capped, then jittered. */
module Backoff {
  const TWO63: int := 0x8000_0000_0000_0000
  newtype Duration = x: int | -0x8000_0000_0000_0000 <= x < 0x8000_0000_0000_0000

  const HALF_SECOND: Duration := 500_000_000

  function Pow2(n: nat): nat { if n == 0 then 1 else 2 * Pow2(n - 1) }

  function Min(a: int, b: int): int { if a < b then a else b }

  /** The delay before jitter that doubling without a cap on intermediate values would give. */
  function Capped(minimum: int, maximum: int, attempt: nat): int { Min(minimum * Pow2(attempt), maximum) }

  lemma Doubling(minimum: int, n: nat)
    ensures minimum * Pow2(n + 1) == 2 * (minimum * Pow2(n))
  {
    var p := Pow2(n);
    assert minimum * (2 * p) == 2 * (minimum * p);
  }

  lemma {:induction false} CappedAtLeast(minimum: int, n: nat)
    requires 0 < minimum
    ensures minimum <= minimum * Pow2(n)
  {
    if n > 0 {
      CappedAtLeast(minimum, n - 1);
      Doubling(minimum, n - 1);
    }
  }

  lemma {:induction false} CappedRises(minimum: int, maximum: int, a: nat, b: nat)
    requires 0 < minimum <= maximum && a <= b
    ensures minimum <= Capped(minimum, maximum, a) <= Capped(minimum, maximum, b) <= maximum
    decreases b
  {
    CappedAtLeast(minimum, a);
    if a < b {
      CappedRises(minimum, maximum, a, b - 1);
      CappedAtLeast(minimum, b - 1);
      Doubling(minimum, b - 1);
    }
  }

  /** The delay doubles until it reaches the maximum, which takes at most one attempt for each
      nanosecond of it, and stays there. */
  lemma {:induction false} CappedDoubles(minimum: int, maximum: int, attempt: nat)
    requires 0 < minimum <= maximum
    ensures Capped(minimum, maximum, attempt + 1) == Min(2 * Capped(minimum, maximum, attempt), maximum)
    ensures attempt >= maximum ==> Capped(minimum, maximum, attempt) == maximum
  {
    Doubling(minimum, attempt);
    CappedAtLeast(minimum, attempt);
    Outgrows(minimum, attempt);
  }

  lemma {:induction false} Outgrows(minimum: int, n: nat)
    requires 0 < minimum
    ensures minimum * Pow2(n) > n
  {
    if n > 0 {
      Outgrows(minimum, n - 1);
      Doubling(minimum, n - 1);
    }
  }

  /** base times the factor that a draw from [0, 1) scales to [0.8, 1.2). */
  function Jitter(base: real, draw: real): real { base * (0.8 + draw * 0.4) }

  lemma JitterStaysClose(base: real, draw: real)
    requires base > 0.0 && 0.0 <= draw < 1.0
    ensures base * 0.8 <= Jitter(base, draw) < base * 1.2
  {
    assert base * (draw * 0.4) >= 0.0;
    assert base * (0.4 - draw * 0.4) > 0.0;
  }

  /** The jitter uses its whole range: it grows with the draw, strictly, from 0.8 of the delay at 0 to 1.2 of
      it at 1, and is the delay itself at the middle draw. */
  lemma JitterSpansItsRange(base: real, a: real, b: real)
    requires base > 0.0 && a < b
    ensures Jitter(base, a) < Jitter(base, b)
    ensures Jitter(base, 0.0) == base * 0.8 && Jitter(base, 0.5) == base && Jitter(base, 1.0) == base * 1.2
  {
    assert Jitter(base, b) - Jitter(base, a) == base * ((b - a) * 0.4);
    assert base * ((b - a) * 0.4) > 0.0;
  }

  /** A positive float64 converted to an integer: truncated if it is in range, and whatever the
      platform makes of it otherwise. */
  function Truncated(x: real, outOfRange: Duration): Duration
    requires x >= 0.0
  {
    if x.Floor < TWO63 then x.Floor as Duration else outOfRange
  }

  class Backoff {
    const min: Duration
    const max: Duration

    constructor (minimum: Duration, maximum: Duration)
      ensures 0 < min <= max
      ensures min == if minimum <= 0 then 500_000_000 else minimum
      ensures max == if maximum < min then min else maximum
    {
      var lower := if minimum <= 0 then HALF_SECOND else minimum;
      min := lower;
      max := if maximum < lower then lower else maximum;
    }

    /** The delay before jitter; that delay * 2 never overflows is part of its type. */
    method Base(attempt: int) returns (delay: Duration)
      requires 0 < min <= max
      ensures delay as int == Capped(min as int, max as int, if attempt < 0 then 0 else attempt)
    {
      var attempts := if attempt < 0 then 0 else attempt;
      delay := min;
      var i := 0;
      while i < attempts && delay < max
        invariant 0 <= i <= attempts && min <= delay <= max
        invariant delay as int == Capped(min as int, max as int, i)
        decreases attempts - i
      {
        CappedDoubles(min as int, max as int, i);
        if delay > max / 2 {
          delay := max;
        } else {
          delay := delay * 2;
        }
        i := i + 1;
      }
      CappedRises(min as int, max as int, i, attempts);
      if delay > max {
        delay := max;
      }
    }

    /** draw is the generator's next number; outOfRange is what the platform makes of a product that
        exceeds 64 bits. Within range the result is the closed form, up to a fifth either way and one
        nanosecond of truncation; in every case it is positive and at most the maximum. */
    method Delay(attempt: int, draw: real, outOfRange: Duration) returns (result: Duration)
      requires 0 < min <= max && 0.0 <= draw < 1.0
      ensures 1 <= result <= max
      ensures var base := Capped(min as int, max as int, if attempt < 0 then 0 else attempt) as real;
        var jittered := Jitter(base, draw).Floor;
        base * 1.2 <= TWO63 as real ==>
          && result as int == (if jittered <= 0 then 1 else Min(jittered, max as int))
          && base * 0.8 - 1.0 < result as real
          && (result == 1 || result as real < base * 1.2)
    {
      var delay := Base(attempt);
      ghost var attempts := if attempt < 0 then 0 else attempt;
      CappedRises(min as int, max as int, attempts, attempts);
      var base := delay as int as real;
      JitterStaysClose(base, draw);
      result := Truncated(Jitter(base, draw), outOfRange);
      if result <= 0 {
        result := 1;
      } else if result > max {
        result := max;
      }
    }
  }
}
