/** Decimal arithmetic on unbounded magnitudes: powers of ten, the decimal
    digit count of a positive magnitude, and the split of a magnitude into a
    high and a low part at a decimal digit boundary. */
module Digits {

  /** 10^k, the `10 ** m` of the source. */
  function Pow10(k: nat): (r: nat)
    ensures r >= 1
  {
    if k == 0 then 1 else 10 * Pow10(k - 1)
  }

  lemma {:induction false} Pow10Monotone(i: nat, j: nat)
    requires i <= j
    ensures Pow10(i) <= Pow10(j)
    ensures i < j ==> 10 * Pow10(i) <= Pow10(j)
  {
    if i < j {
      Pow10Monotone(i, j - 1);
    }
  }

  /** Powers of ten multiply by adding exponents. */
  lemma {:induction false} Pow10Add(i: nat, j: nat)
    ensures Pow10(i + j) == Pow10(i) * Pow10(j)
  {
    if j > 0 {
      Pow10Add(i, j - 1);
    }
  }

  /** The magnitude of an integer (`abs` in the source). */
  function Abs(n: int): (r: nat)
    ensures r == n || r == -n
  {
    if n < 0 then -n else n
  }

  /** The number of decimal digits of a positive magnitude, that is the
      length of its canonical decimal rendering without leading zeros.
      It is pinned down by the bounds 10^(r-1) <= x < 10^r. */
  function NumDigits(x: nat): (r: nat)
    requires x > 0
    ensures r >= 1 && Pow10(r - 1) <= x < Pow10(r)
  {
    if x < 10 then 1 else 1 + NumDigits(x / 10)
  }

  /** The bounds of NumDigits determine the digit count uniquely. */
  lemma {:induction false} NumDigitsUnique(x: nat, k: nat)
    requires x > 0 && k >= 1
    requires Pow10(k - 1) <= x < Pow10(k)
    ensures NumDigits(x) == k
  {
    var r := NumDigits(x);
    if r < k {
      Pow10Monotone(r, k - 1);
    } else if r > k {
      Pow10Monotone(k, r - 1);
    }
  }

  /** A magnitude of ten or more has at least two digits. */
  lemma NumDigitsAtLeastTwo(x: nat)
    requires x >= 10
    ensures NumDigits(x) >= 2
  {
  }

  /** Python's `divmod` on a magnitude and a positive base: the quotient and
      the remainder of Euclidean division. */
  function DivMod(a: nat, b: nat): (r: (nat, nat))
    requires b > 0
    ensures r.0 * b + r.1 == a
    ensures r.1 < b
  {
    (a / b, a % b)
  }

  /** Splits |n| into (high, low) with base 10^m: `divmod(abs(n), 10 ** m)`. */
  function Split(n: int, m: nat): (r: (nat, nat))
    ensures r.0 * Pow10(m) + r.1 == Abs(n)
    ensures r.1 < Pow10(m)
  {
    DivMod(Abs(n), Pow10(m))
  }

  lemma MulAtLeast(a: int, b: nat)
    requires a >= 1
    ensures a * b >= b
  {
  }

  /** Any pair satisfying Split's round trip and bound is the split itself. */
  lemma SplitUnique(n: int, m: nat, high: nat, low: nat)
    requires high * Pow10(m) + low == Abs(n)
    requires low < Pow10(m)
    ensures Split(n, m) == (high, low)
  {
    var (h, l) := Split(n, m);
    var b := Pow10(m);
    if high > h {
      assert (high - h) * b == l - low;
      MulAtLeast(high - h, b);
    } else if high < h {
      assert (h - high) * b == low - l;
      MulAtLeast(h - high, b);
    }
  }

  /** The high part is zero exactly when the split boundary lies at or beyond
      the magnitude's digit count. */
  lemma SplitHighZero(n: int, m: nat)
    ensures Split(n, m).0 == 0 <==> Abs(n) < Pow10(m)
  {
    if Abs(n) < Pow10(m) {
      SplitUnique(n, m, 0, Abs(n));
    }
  }

  /** With a boundary of at least one digit, neither part exceeds the
      magnitude, the high part of a positive magnitude is strictly smaller,
      and a magnitude of at least 10^m has both its low part and the sum of
      its parts strictly smaller than itself. */
  lemma SplitShrinks(n: int, m: nat)
    requires m >= 1
    ensures Split(n, m).0 + Split(n, m).1 <= Abs(n)
    ensures Abs(n) > 0 ==> Split(n, m).0 < Abs(n)
    ensures Abs(n) >= Pow10(m) ==>
              Split(n, m).1 < Abs(n) && Split(n, m).0 + Split(n, m).1 < Abs(n)
  {
  }
}
