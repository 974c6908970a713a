/** Integer facts the byte and clock arithmetic needs. */
module Arithmetic {
  function Min(a: int, b: int): int { if a < b then a else b }
  function Max(a: int, b: int): int { if a > b then a else b }

  /** Multiplication by a natural number is monotone. */
  lemma {:induction false} TimesGrows(a: int, b: int, factor: nat)
    requires a <= b
    ensures a * factor <= b * factor
    decreases factor
  {
    if factor > 0 {
      TimesGrows(a, b, factor - 1);
      TimesNext(a, factor - 1);
      TimesNext(b, factor - 1);
    }
  }

  lemma TimesNext(a: int, factor: int)
    ensures a * (factor + 1) == a * factor + a
  {
  }

  lemma TimesSum(a: int, b: int, factor: int)
    ensures (a + b) * factor == a * factor + b * factor
  {
  }

  lemma TimesSwaps(a: int, b: int)
    ensures a * b == b * a
  {
  }

  /** A common positive factor cancels. */
  lemma Cancel(a: int, b: int, d: int)
    requires d > 0 && a * d < b * d
    ensures a < b
  {
    if b <= a {
      TimesGrows(b, a, d);
    }
  }

  /** The quotient is the number of whole divisors that fit. */
  lemma Floor(x: int, d: int)
    requires d > 0
    ensures x / d * d <= x < (x / d + 1) * d
  {
    TimesSum(x / d, 1, d);
  }

  lemma DivideIs(x: int, d: int, q: int)
    requires d > 0 && q * d <= x < (q + 1) * d
    ensures x / d == q
  {
    Floor(x, d);
    Cancel(q, x / d + 1, d);
    Cancel(x / d, q + 1, d);
  }

  lemma DivideBounds(x: int, d: int, low: int, high: int)
    requires d > 0 && low * d <= x <= high * d
    ensures low <= x / d <= high
  {
    Floor(x, d);
    TimesSum(high, 1, d);
    Cancel(low, x / d + 1, d);
    Cancel(x / d, high + 1, d);
  }

  lemma DivideGrows(x: int, y: int, d: int)
    requires x <= y && d > 0
    ensures x / d <= y / d
  {
    Floor(x, d);
    Floor(y, d);
    Cancel(x / d, y / d + 1, d);
  }

  lemma DivideBelow(x: int, d: int, limit: int)
    requires d > 0 && x < limit * d
    ensures x / d < limit
  {
    Floor(x, d);
    Cancel(x / d, limit, d);
  }

  /** Floors of a sum: they add up to no more than the floor of a bound on it. */
  lemma DivideSum(x: int, y: int, z: int, d: int)
    requires d > 0 && x + y <= z
    ensures x / d + y / d <= z / d
  {
    Floor(x, d);
    Floor(y, d);
    Floor(z, d);
    TimesSum(x / d, y / d, d);
    Cancel(x / d + y / d, z / d + 1, d);
  }
}
