# Karatsuba multiplication of signed unbounded integers

This project models a Karatsuba multiplier for signed integers of any size, written in Python in `main.py`. It proves properties of the model with Dafny.

The multiplier does four things:

- It rejects a digit threshold below 1.
- It works out the sign of the product by exclusive or of the operand signs, and from then on works on magnitudes.
- It has three base cases, all using direct multiplication or a constant:
  - a zero operand gives 0;
  - an operand below 10 is multiplied directly, whatever the threshold;
  - when both digit counts are within the threshold, it multiplies directly.
- Otherwise it splits both magnitudes at `m = max(1, n // 2)` decimal digits, where `n` is the larger digit count. It then makes three recursive calls and recombines their results with powers of ten.

Layout:

- `digits.dfy`, module `Digits`, holds the decimal arithmetic the multiplier relies on:
  - powers of ten;
  - the magnitude of an integer;
  - Python's `divmod` on magnitudes;
  - the decimal digit count that stands in for `len(str(x))`;
  - the high/low splitter `_split_int`, with its round trip, its uniqueness and its size bounds.
- `multiplier.dfy`, module `Multiplier`, holds the multiplier itself:
  - the sign rule;
  - the choice among the three base cases and the recursive case (`Classify`, returning a `Case`);
  - the termination argument;
  - the recombination identity;
  - the recursive multiplication (`Product`);
  - the validating entry point `Karatsuba`, returning a `Result`.

  `Karatsuba` uses a threshold of 16 when the caller gives none, as the source does.

The central results are:

- `Product(x, y, t) == x * y` for every threshold `t >= 1`.
- `Karatsuba(x, y, t)` gives `InvalidThreshold` when `t < 1` and `x * y` otherwise.

The Dafny verifier proves both by induction through the function's own recursive calls. It uses the combined magnitude `|x| + |y|` as the termination measure.

## Model

| member | source | states |
|---|---|---|
| `Digits.Pow10` | main.py:8 | `10 ** m` is at least 1; its partners `Pow10Monotone` and `Pow10Add` give its growth and its exponent law |
| `Digits.Pow10Monotone` | main.py:56-57 | `10^i <= 10^j` for `i <= j`, and `10 * 10^i <= 10^j` for `i < j` |
| `Digits.Pow10Add` | main.py:56-57 | `10^(i+j) == 10^i * 10^j` |
| `Digits.Abs` | main.py:28 | the magnitude is the non-negative one of `n` and `-n` |
| `Digits.DivMod` | main.py:9 | quotient times base plus remainder gives back the dividend, and the remainder is below the base |
| `Digits.Split` | main.py:6-10 | `high * 10^m + low == abs(n)`, `0 <= low < 10^m` and `high >= 0` |
| `Digits.SplitUnique` | main.py:6-10 | any pair `(h, l)` with `h * 10^m + l == abs(n)` and `0 <= l < 10^m` is exactly the split, so the split is the Euclidean quotient and remainder |
| `Digits.SplitHighZero` | main.py:6-10 | the high part is 0 exactly when `abs(n) < 10^m`, that is when the boundary reaches past the magnitude's digits |
| `Digits.SplitShrinks` | main.py:45-49 | for `m >= 1`: the two parts sum to at most `abs(n)`; the high part of a positive magnitude is strictly smaller than it; a magnitude of at least `10^m` has its low part and the sum of its parts strictly smaller than itself |
| `Digits.NumDigits` | main.py:36-37 | the digit count `r` of a positive magnitude satisfies `r >= 1` and `10^(r-1) <= x < 10^r` |
| `Digits.NumDigitsUnique` | main.py:36-37 | those bounds determine the digit count: any `k >= 1` with `10^(k-1) <= x < 10^k` equals it |
| `Multiplier.Max` | main.py:38 | `max(a, b)` is one of `a` and `b` and at least both |
| `Multiplier.Sign` | main.py:27 | the sign is 1 or -1, and -1 exactly when one operand is negative; its partner `SignedProduct` ties it to the product |
| `Multiplier.SignedProduct` | main.py:27-28 | applying the XOR sign to the product of the magnitudes gives the signed product `x * y` |
| `Multiplier.Classify` | main.py:31-45 | the zero case fires exactly when an operand is 0; the single-digit case fires exactly when both are non-zero and one is below 10, with no dependence on the threshold; the recursive case fires exactly when both are at least 10 and one digit count exceeds the threshold; its boundary is `max(1, n // 2)` with `n >= 2` and `1 <= m < n` |
| `Multiplier.RecursiveCallsShrink` | main.py:44-54 | in the recursive case each of the three calls (`xh, yh`), (`xl, yl`) and (`xh+xl, yh+yl`) receives a combined magnitude strictly below `abs(x) + abs(y)` |
| `Multiplier.Recombine` | main.py:52-57 | `(xh*B + xl)(yh*B + yl) == z2*B*B + ((xh+xl)(yh+yl) - z2 - z0)*B + z0` with `z2 = xh*yh` and `z0 = xl*yl` |
| `Multiplier.Product` | main.py:27-58 | for every threshold `t >= 1` the sign, base cases, split, three recursive calls and recombination compute exactly `x * y` |
| `Multiplier.Karatsuba` | main.py:13-58 | fails exactly when the threshold is below 1, and then with `InvalidThreshold`; otherwise it returns `x * y` |
| `Multiplier.DefaultThresholdIsSixteen` | main.py:13 | a call without a threshold behaves as a call with threshold 16 |
| `Multiplier.ThresholdInvariance` | main.py:41-58 | for `t1, t2 >= 1` the result is the same: the threshold only decides between the direct and the recursive path |
| `Multiplier.Commutative` | main.py:13-58 | exchanging the operands does not change the result, including the error result |
| `Multiplier.ZeroOperandGivesZero` | main.py:31-32 | a zero operand takes the zero base case and gives 0, whatever the other operand's sign |
| `Multiplier.SingleDigitIsDirect` | main.py:33-34 | a non-zero operand below 10 in magnitude takes the single-digit base case and gives `sign * (abs(x) * abs(y))` under every threshold, `t = 1` included |
| `Multiplier.ResultSign` | main.py:27 | the result is negative exactly when both operands are non-zero and exactly one is negative, and positive exactly when both are non-zero with equal signs |
| `Multiplier.SelfTestCases` | main.py:68-81 | the self-test's valid rows give the native product (`9999 * 9999 == 99980001`, `(-10^30) * (-10^25) == 10^55`, the twenty-digit pair, `2 * 3 == 6`, ...); the row with threshold 0 gives `InvalidThreshold` |
| `Multiplier.TwentyDigitPaths` | main.py:36-45 | the twenty-digit self-test operands take the recursive path with `m = 10` under threshold 16 and the direct path under threshold 20, with the same result on both paths |

## Left out

- The `isinstance` checks at main.py:20-23, which raise `TypeError` for a string or a float operand or threshold, are not modelled. Dafny's static `int` parameters make those inputs impossible, so `Error` has only `InvalidThreshold`.
- Threshold validation is done once, in `Karatsuba`. The source repeats it at main.py:24-25 on every recursive call. The recursion passes the threshold on unchanged, so the repeated check always passes and has no effect. `Product` is the recursive part and requires `t >= 1`.
- `_self_test` (main.py:61-103) is a test harness with a loop, `try`/`except` and `print`. It is not modelled. Its rows are restated in `SelfTestCases`, except `2**1000` squared and `(10**100 + 1)` squared, whose products are too long to write as literals.
- `_run_cli` (main.py:106-126) is not modelled. It covers argument parsing, `int()` on strings, printing and the exit status, all of which are I/O.
- `len(str(x))` is modelled as the arithmetic digit count `NumDigits`, not as a decimal string rendering.
- Karatsuba: the interpreter's limit on int-to-str conversion (ValueError above 4300 digits by default on CPython 3.11+) is not modelled; the model returns the product for operands of any size, and so does `Product`. In the source, `str()` at main.py:36-37 fails for such operands once both are at least 10.
- `Split` takes the boundary as a `nat`. Python would compute `10 ** m` as a float for a negative `m`, but the multiplier never passes one.
- Running time, and the performance reason for the threshold, are not modelled.
