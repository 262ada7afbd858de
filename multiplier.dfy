/** Karatsuba multiplication of signed, unbounded integers with decimal digit
    splitting and a digit threshold below which the product is computed
    directly. */
module Multiplier {
  import opened Digits

  /** The threshold the source uses when the caller gives none. */
  const DefaultThreshold: int := 16

  /** The one validation failure reachable with integer arguments: a digit
      threshold below 1 (the source raises ValueError). */
  datatype Error = InvalidThreshold

  datatype Result<T> = Ok(value: T) | Err(error: Error)

  /** `max` of the source. */
  function Max(a: int, b: int): (r: int)
    ensures r >= a && r >= b
    ensures r == a || r == b
  {
    if a < b then b else a
  }

  /** The sign of the product: -1 when exactly one operand is negative,
      otherwise 1 (zero counts as non-negative). */
  function Sign(x: int, y: int): (r: int)
    ensures r == -1 || r == 1
    ensures r == -1 <==> (x < 0) != (y < 0)
  {
    if (x < 0) != (y < 0) then -1 else 1
  }

  /** Reapplying the sign to the product of the magnitudes gives the signed
      product. */
  lemma SignedProduct(x: int, y: int)
    ensures Sign(x, y) * (Abs(x) * Abs(y)) == x * y
  {
  }

  /** The branch the multiplier takes on two magnitudes. */
  datatype Case =
    | ZeroOperand      // a zero operand: the product is 0
    | SingleDigit      // an operand below 10: direct multiplication
    | WithinThreshold  // both digit counts within the threshold: direct multiplication
    | Recurse(m: nat)  // split both magnitudes at m decimal digits and recurse

  /** Chooses among the three base cases and the recursive case, in the
      source's order. The single-digit fast path does not depend on the
      threshold; the recursive case is taken exactly when both magnitudes
      have at least two digits and one of them has more digits than the
      threshold, and its split boundary lies strictly inside the longer
      operand. */
  function Classify(a: nat, b: nat, t: int): (c: Case)
    ensures c == ZeroOperand <==> a == 0 || b == 0
    ensures c == SingleDigit <==> a != 0 && b != 0 && (a < 10 || b < 10)
    ensures c.Recurse? <==>
              a >= 10 && b >= 10 && (NumDigits(a) > t || NumDigits(b) > t)
    ensures c.Recurse? ==>
              var n := Max(NumDigits(a), NumDigits(b));
              n >= 2 && 1 <= c.m < n && c.m == Max(1, n / 2)
  {
    if a == 0 || b == 0 then ZeroOperand
    else if a < 10 || b < 10 then SingleDigit
    else
      var nx, ny := NumDigits(a), NumDigits(b);
      var n := Max(nx, ny);
      if nx <= t && ny <= t then WithinThreshold
      else
        NumDigitsAtLeastTwo(a);
        Recurse(Max(1, n / 2))
  }

  /** Termination: in the recursive case every one of the three recursive
      calls receives operands whose combined magnitude is strictly smaller.
      The longer operand is at least 10^(n-1) >= 10^m, so its high part is at
      least 1, which makes both its low part and the sum of its parts strictly
      smaller than itself; the other operand never grows. */
  lemma {:induction false} RecursiveCallsShrink(a: nat, b: nat, t: int)
    requires Classify(a, b, t).Recurse?
    ensures var m := Classify(a, b, t).m;
            var (xh, xl) := Split(a, m);
            var (yh, yl) := Split(b, m);
            xh + yh < a + b && xl + yl < a + b && (xh + xl) + (yh + yl) < a + b
  {
    var m := Classify(a, b, t).m;
    var nx, ny := NumDigits(a), NumDigits(b);
    SplitShrinks(a, m);
    SplitShrinks(b, m);
    if nx >= ny {
      Pow10Monotone(m, nx - 1);
      assert a >= Pow10(m);
    } else {
      Pow10Monotone(m, ny - 1);
      assert b >= Pow10(m);
    }
  }

  /** The algebraic identity behind the recombination: with
      z2 = xh*yh, z0 = xl*yl and z1 = (xh+xl)*(yh+yl) - z2 - z0,
      z2*B^2 + z1*B + z0 is the product of xh*B + xl and yh*B + yl. */
  lemma Recombine(xh: int, xl: int, yh: int, yl: int, base: int)
    ensures (xh * base + xl) * (yh * base + yl)
            == xh * yh * (base * base)
               + ((xh + xl) * (yh + yl) - xh * yh - xl * yl) * base
               + xl * yl
  {
  }

  /** The body of `karatsuba` after validation: sign, magnitudes, the three
      base cases, the split, the three recursive calls and the recombination.
      Its result is the product of x and y, whatever the threshold. */
  function Product(x: int, y: int, t: int): (r: int)
    requires t >= 1
    ensures r == x * y
    decreases Abs(x) + Abs(y)
  {
    var sign := Sign(x, y);
    var a, b := Abs(x), Abs(y);
    SignedProduct(x, y);
    match Classify(a, b, t)
    case ZeroOperand => 0
    case SingleDigit => sign * (a * b)
    case WithinThreshold => sign * (a * b)
    case Recurse(m) =>
      var (xh, xl) := Split(a, m);
      var (yh, yl) := Split(b, m);
      RecursiveCallsShrink(a, b, t);
      var z2 := Product(xh, yh, t);
      var z0 := Product(xl, yl, t);
      var z1 := Product(xh + xl, yh + yl, t) - z2 - z0;
      var baseM := Pow10(m);
      Recombine(xh, xl, yh, yl, baseM);
      sign * (z2 * (baseM * baseM) + z1 * baseM + z0)
  }

  /** `karatsuba(x, y, threshold_digits)`: InvalidThreshold when the
      threshold is below 1, otherwise the product of x and y. */
  function Karatsuba(x: int, y: int, t: int := DefaultThreshold): (r: Result<int>)
    ensures r.Err? <==> t < 1
    ensures r.Err? ==> r.error == InvalidThreshold
    ensures r.Ok? ==> r.value == x * y
  {
    if t < 1 then Err(InvalidThreshold) else Ok(Product(x, y, t))
  }

  /** The threshold affects only which path is taken, never the value. */
  lemma ThresholdInvariance(x: int, y: int, t1: int, t2: int)
    requires t1 >= 1 && t2 >= 1
    ensures Karatsuba(x, y, t1) == Karatsuba(x, y, t2)
  {
  }

  /** The two operands may be exchanged. */
  lemma Commutative(x: int, y: int, t: int)
    ensures Karatsuba(x, y, t) == Karatsuba(y, x, t)
  {
  }

  /** A zero operand gives 0 through the first base case, whatever the sign
      of the other operand. */
  lemma ZeroOperandGivesZero(x: int, y: int, t: int)
    requires t >= 1
    requires x == 0 || y == 0
    ensures Classify(Abs(x), Abs(y), t) == ZeroOperand
    ensures Karatsuba(x, y, t) == Ok(0)
  {
  }

  /** An operand whose magnitude is a single digit is multiplied directly,
      with no recursion, whatever the threshold, including t = 1. */
  lemma SingleDigitIsDirect(x: int, y: int, t: int)
    requires t >= 1
    requires x != 0 && y != 0 && (Abs(x) < 10 || Abs(y) < 10)
    ensures Classify(Abs(x), Abs(y), t) == SingleDigit
    ensures Karatsuba(x, y, t) == Ok(Sign(x, y) * (Abs(x) * Abs(y)))
  {
  }

  /** The result is negative exactly when one operand is negative and neither
      is zero, and positive exactly when both are non-zero with equal signs. */
  lemma ResultSign(x: int, y: int, t: int)
    requires t >= 1
    ensures Karatsuba(x, y, t).value < 0 <==> x != 0 && y != 0 && (x < 0) != (y < 0)
    ensures Karatsuba(x, y, t).value > 0 <==> x != 0 && y != 0 && (x < 0) == (y < 0)
  {
  }

  /** Leaving out the threshold is the same as passing 16. */
  lemma DefaultThresholdIsSixteen(x: int, y: int)
    ensures Karatsuba(x, y) == Karatsuba(x, y, 16)
  {
  }

  /** Rows of the source's self-test, including the rejected threshold 0. */
  lemma SelfTestCases()
    ensures Karatsuba(1, 1, 16) == Ok(1)
    ensures Karatsuba(2, 3, 16) == Ok(6)
    ensures Karatsuba(1234, 5678, 16) == Ok(7006652)
    ensures Karatsuba(9999, 9999, 16) == Ok(99980001)
    ensures Karatsuba(100_000_000_000_000_000_000, 100_000_000_000_000_000_000, 16)
            == Ok(10_000_000_000_000_000_000_000_000_000_000_000_000_000)
    ensures Karatsuba(12345678901234567890, 98765432109876543210, 16)
            == Ok(1219326311370217952237463801111263526900)
    ensures Karatsuba(-1_000_000_000_000_000_000_000_000_000_000,
                      -10_000_000_000_000_000_000_000_000, 16)
            == Ok(10_000_000_000_000_000_000_000_000_000_000_000_000_000_000_000_000_000_000)
    ensures Karatsuba(12, 34, 0) == Err(InvalidThreshold)
  {
  }

  /** The twenty-digit self-test operands take the recursive path, split at
      ten digits, under the default threshold, and the direct path under a
      threshold of twenty; their product is the same either way. */
  lemma TwentyDigitPaths()
    ensures Classify(12345678901234567890, 98765432109876543210, 16) == Recurse(10)
    ensures Classify(12345678901234567890, 98765432109876543210, 20) == WithinThreshold
    ensures Karatsuba(12345678901234567890, 98765432109876543210, 16)
            == Karatsuba(12345678901234567890, 98765432109876543210, 20)
  {
    assert Pow10(5) == 100_000;
    Pow10Add(5, 4);
    Pow10Add(5, 5);
    Pow10Add(10, 9);
    Pow10Add(10, 10);
    NumDigitsUnique(12345678901234567890, 20);
    NumDigitsUnique(98765432109876543210, 20);
  }
}
