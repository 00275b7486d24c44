// The retry delay in wrapping 64-bit nanoseconds (internal/retry/scheduler.go).
module Backoff {
  const TWO_63: int := 0x8000_0000_0000_0000
  const TWO_64: int := 0x1_0000_0000_0000_0000
  const MAX_SHIFT: nat := 30

  function Wrap(x: int): (r: int)
    ensures -TWO_63 <= r < TWO_63
  {
    (x + TWO_63) % TWO_64 - TWO_63
  }

  function Pow2(n: nat): (r: nat)
    ensures r > 0
  {
    if n == 0 then 1 else 2 * Pow2(n - 1)
  }

  function Shift(attempt: int): (r: nat)
    ensures r <= MAX_SHIFT
  {
    if attempt <= 1 then 0 else if attempt - 1 > MAX_SHIFT then MAX_SHIFT else attempt - 1
  }

  function Min(a: int, b: int): int {
    if a <= b then a else b
  }

  // What the code computes before jitter.
  function Capped(attempt: int, base: int, max: int): int {
    var d := Wrap(base * Pow2(Shift(attempt)));
    if d > max || d < 0 then max else d
  }

  // What it is meant to compute.
  function Intended(attempt: int, base: int, max: int): int {
    Min(base * Pow2(Shift(attempt)), max)
  }

  // Conversion to an integer drops the fraction.
  function Truncate(x: real): int {
    if x >= 0.0 then x.Floor else -((-x).Floor)
  }

  function Spread(d: int, jitterPct: int): real {
    d as real * jitterPct as real / 100.0
  }

  function Scale(rand: real, range: real): real {
    rand * range
  }

  // rand is twice a number in [0, 1) less one; real arithmetic stands for float64.
  function Moved(d: int, jitterPct: int, rand: real): real {
    d as real + Scale(rand, Spread(d, jitterPct))
  }

  function Jittered(d: int, jitterPct: int, rand: real): int {
    if jitterPct <= 0 then d
    else
      var t := Truncate(Moved(d, jitterPct, rand));
      if t < 0 then 0 else t
  }

  method BackoffWithJitter(attempt: int, base: int, max: int, jitterPct: int, rand: real) returns (d: int)
    ensures d == Jittered(Capped(attempt, base, max), jitterPct, rand)
  {
    hide Pow2, Wrap, Moved, Truncate;
    var n := attempt;
    if n <= 0 {
      n := 1;
    }
    var shift := n - 1;
    if shift > 30 {
      shift := 30;
    }
    assert shift == Shift(attempt);
    d := Wrap(base * Pow2(shift));
    if d > max || d < 0 {
      d := max;
    }
    assert d == Capped(attempt, base, max);
    if jitterPct > 0 {
      d := Truncate(Moved(d, jitterPct, rand));
      if d < 0 {
        d := 0;
      }
    }
  }

  lemma WrapCases(x: int)
    requires x >= 0
    ensures x < TWO_63 ==> Wrap(x) == x
    ensures Wrap(x) < 0 <==> x / TWO_63 % 2 == 1
    ensures Wrap(x) <= x
  {
    var q, r := x / TWO_63, x % TWO_63;
    assert x == q * TWO_63 + r;
    var h := q / 2;
    if q % 2 == 1 {
      assert x + TWO_63 == (h + 1) * TWO_64 + r;
      ModOf(x + TWO_63, h + 1, r);
    } else {
      assert x + TWO_63 == h * TWO_64 + (r + TWO_63);
      ModOf(x + TWO_63, h, r + TWO_63);
    }
  }

  lemma ModOf(x: int, q: int, r: int)
    requires x == q * TWO_64 + r && 0 <= r < TWO_64
    ensures x % TWO_64 == r
  {
    var q', r' := x / TWO_64, x % TWO_64;
    assert x == q' * TWO_64 + r';
    assert (q' - q) * TWO_64 == r - r';
  }

  lemma ProductPositive(base: int, shift: nat)
    requires base > 0
    ensures base * Pow2(shift) >= base
  {
  }

  // The cap is right for one attempt, whatever the maximum, exactly when the product fits in 63
  // bits or leaves the sign bit set: a product that wraps to a non-negative number escapes the cap.
  lemma CapRightIff(attempt: int, base: int)
    requires 0 < base < TWO_63
    ensures var product := base * Pow2(Shift(attempt));
            (forall max :: 0 < max < TWO_63 ==> Capped(attempt, base, max) == Intended(attempt, base, max))
            <==> product < TWO_63 || product / TWO_63 % 2 == 1
  {
    hide Pow2, Wrap;
    var product := base * Pow2(Shift(attempt));
    ProductPositive(base, Shift(attempt));
    WrapCases(product);
    if product >= TWO_63 && Wrap(product) >= 0 {
      WrapsShort(base, Shift(attempt));
      var max := Wrap(product) + 1;
      assert Capped(attempt, base, max) == Wrap(product) != Intended(attempt, base, max);
    }
  }

  // For one maximum the exact condition also lets a wrapped product through that reaches it.
  lemma CapRightForIff(attempt: int, base: int, max: int)
    requires 0 < base < TWO_63 && 0 < max < TWO_63
    ensures var product := base * Pow2(Shift(attempt));
            Capped(attempt, base, max) == Intended(attempt, base, max)
            <==> product < TWO_63 || Wrap(product) < 0 || Wrap(product) >= max
  {
    hide Pow2, Wrap;
    var product := base * Pow2(Shift(attempt));
    ProductPositive(base, Shift(attempt));
    WrapCases(product);
  }

  // The product of an overflowing shift is even, so it cannot wrap to the largest number.
  lemma WrapsShort(base: int, shift: nat)
    requires 0 < base < TWO_63 && base * Pow2(shift) >= TWO_63
    ensures Wrap(base * Pow2(shift)) + 1 < TWO_63
  {
    assert shift > 0;
    Doubles(base, shift);
    EvenWrapsShort(base * Pow2(shift - 1));
  }

  lemma Doubles(base: int, shift: nat)
    requires shift > 0
    ensures base * Pow2(shift) == 2 * (base * Pow2(shift - 1))
  {
  }

  lemma EvenWrapsShort(half: int)
    ensures Wrap(2 * half) + 1 < TWO_63
  {
    var x := 2 * half + TWO_63;
    var q, m := x / TWO_64, x % TWO_64;
    assert m == 2 * (half + TWO_63 / 2 - q * TWO_63);
    assert m != TWO_64 - 1;
  }

  lemma {:induction false} Pow2Grows(m: nat, n: nat)
    requires m <= n
    ensures Pow2(m) <= Pow2(n)
  {
    if m < n {
      Pow2Grows(m, n - 1);
    }
  }

  lemma Pow2At30()
    ensures Pow2(MAX_SHIFT) == 0x4000_0000
  {
    assert Pow2(10) == 1024;
    assert Pow2(20) == 1024 * Pow2(10);
    assert Pow2(30) == 1024 * Pow2(20);
  }

  // Below 2^34 nanoseconds (about 17 seconds) the delay is what it is meant to be at every attempt.
  lemma ShortBasesAreSafe(attempt: int, base: int, max: int)
    requires 0 < base < 0x4_0000_0000 && 0 < max < TWO_63
    ensures Capped(attempt, base, max) == Intended(attempt, base, max)
  {
    hide Pow2, Wrap;
    Pow2At30();
    Pow2Grows(Shift(attempt), MAX_SHIFT);
    var product := base * Pow2(Shift(attempt));
    ProductPositive(base, Shift(attempt));
    MulGrows(base, Pow2(Shift(attempt)), 0x4000_0000);
    CapRightIff(attempt, base);
  }

  // At 2^34 it wraps to no delay at all.
  lemma BaseEscapesCap(max: int)
    requires 0 < max < TWO_63
    ensures Capped(31, 0x4_0000_0000, max) == 0 && Intended(31, 0x4_0000_0000, max) == max
  {
    hide Pow2;
    Pow2At30();
    assert 0x4_0000_0000 * Pow2(30) == TWO_64;
  }

  // Later attempts never wait less.
  lemma LaterWaitsLonger(m: int, n: int, base: int, max: int)
    requires m <= n && 0 < base < 0x4_0000_0000 && 0 < max < TWO_63
    ensures Capped(m, base, max) <= Capped(n, base, max)
  {
    hide Pow2, Wrap, Capped;
    ShortBasesAreSafe(m, base, max);
    ShortBasesAreSafe(n, base, max);
    Pow2Grows(Shift(m), Shift(n));
    MulGrows(base, Pow2(Shift(m)), Pow2(Shift(n)));
  }

  lemma MulGrows(k: int, a: int, b: int)
    requires k > 0 && a <= b
    ensures k * a <= k * b
  {
  }

  // Jitter moves the delay by at most its percentage, down to the nanosecond, and never below zero.
  lemma JitterBounds(d: int, jitterPct: int, rand: real)
    requires d >= 0 && -1.0 <= rand < 1.0
    ensures var r, pct := Jittered(d, jitterPct, rand), if jitterPct < 0 then 0 else jitterPct;
            && r >= 0
            && 100 * r <= 100 * d + d * pct
            && 100 * (r + 1) > 100 * d - d * pct
  {
    hide Moved, Truncate;
    if jitterPct > 0 {
      MovedWithin(d, jitterPct, rand);
      Truncated(Moved(d, jitterPct, rand));
      Within(d, d * jitterPct, Moved(d, jitterPct, rand), Truncate(Moved(d, jitterPct, rand)));
    }
  }

  lemma MovedWithin(d: int, jitterPct: int, rand: real)
    requires d >= 0 && jitterPct > 0 && -1.0 <= rand < 1.0
    ensures d * jitterPct >= 0
    ensures (100 * d - d * jitterPct) as real <= 100.0 * Moved(d, jitterPct, rand) <= (100 * d + d * jitterPct) as real
  {
    hide Spread, Scale;
    SpreadExact(d, jitterPct);
    Scaled(rand, Spread(d, jitterPct));
  }

  lemma SpreadExact(d: int, jitterPct: int)
    requires d >= 0 && jitterPct > 0
    ensures 100.0 * Spread(d, jitterPct) == (d * jitterPct) as real
    ensures Spread(d, jitterPct) >= 0.0 && d * jitterPct >= 0
  {
    var p := d as real * jitterPct as real;
    assert p == (d * jitterPct) as real;
  }

  lemma Within(d: int, p: int, x: real, t: int)
    requires d >= 0 && p >= 0 && (100 * d - p) as real <= 100.0 * x <= (100 * d + p) as real
    requires x >= 0.0 ==> x - 1.0 < t as real <= x
    requires x < 0.0 ==> t <= 0
    ensures var r := if t < 0 then 0 else t;
            r >= 0 && 100 * r <= 100 * d + p && 100 * (r + 1) > 100 * d - p
  {
  }

  lemma Truncated(x: real)
    ensures x >= 0.0 ==> x - 1.0 < Truncate(x) as real <= x
    ensures x < 0.0 ==> Truncate(x) <= 0
  {
  }

  lemma Scaled(rand: real, range: real)
    requires -1.0 <= rand < 1.0 && range >= 0.0
    ensures -range <= Scale(rand, range) <= range
  {
    var up, down := 1.0 + rand, 1.0 - rand;
    NonNegative(up, range);
    NonNegative(down, range);
    assert up * range == range + rand * range;
    assert down * range == range - rand * range;
  }

  lemma NonNegative(a: real, b: real)
    requires a >= 0.0 && b >= 0.0
    ensures a * b >= 0.0
  {
  }
}
