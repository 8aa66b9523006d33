/**
  Python's `round`: `round(s)` is the integer nearest to s and `round(x, n)`
  the multiple of 10^-n nearest to x, ties going to the even neighbour
  ("banker's rounding") in both.

  The argument is taken to be the exact real number the float denotes, so the
  model says nothing about the error made while computing that float, nor about
  the nearest-double representation of the decimal result.
 */
module PyRound {

  /** 10^n as a real. */
  function Pow10(n: nat): (p: real)
    ensures p >= 1.0
  {
    if n == 0 then 1.0 else 10.0 * Pow10(n - 1)
  }

  /** How many units 10^-digits there are in x. */
  function Units(x: real, digits: nat): real
  {
    x * Pow10(digits)
  }

  /** k is the integer nearest to s; at a tie (s exactly halfway) k is even. */
  ghost predicate IsNearestEven(s: real, k: int)
  {
    && -0.5 <= k as real - s <= 0.5
    && ((k as real - s == 0.5 || k as real - s == -0.5) ==> k % 2 == 0)
  }

  /** Round-half-even to an integer, `round(s)`. */
  function RoundToInt(s: real): (k: int)
    ensures IsNearestEven(s, k)
  {
    var f := s.Floor;
    var frac := s - f as real;
    if frac > 0.5 then f + 1
    else if frac < 0.5 then f
    else if f % 2 == 0 then f
    else f + 1
  }

  /** The nearest-even property leaves no choice: RoundToInt is the only
      function meeting it. */
  lemma NearestEvenIsUnique(s: real, k1: int, k2: int)
    requires IsNearestEven(s, k1) && IsNearestEven(s, k2)
    ensures k1 == k2
  {
  }

  /** r is a whole number of units 10^-digits. */
  predicate OnGrid(r: real, digits: nat)
  {
    Units(r, digits).Floor as real == Units(r, digits)
  }

  /** Round-half-even to `digits` decimals: r is on the grid, and its number
      of units is the nearest-even integer to the number of units in x. */
  ghost predicate IsRoundHalfEven(x: real, digits: nat, r: real)
  {
    OnGrid(r, digits) && IsNearestEven(Units(x, digits), Units(r, digits).Floor)
  }

  /** `round(x, digits)`. */
  function Round(x: real, digits: nat): (r: real)
    ensures IsRoundHalfEven(x, digits, r)
  {
    var k := RoundToInt(Units(x, digits));
    WholeUnits(k, digits);
    k as real / Pow10(digits)
  }

  /** k units of 10^-digits hold exactly k units. */
  lemma WholeUnits(k: int, digits: nat)
    ensures Units(k as real / Pow10(digits), digits) == k as real
  {
    DivThenMul(k as real, Pow10(digits));
  }

  /** The defining property pins the rounded value down: Round is the only
      function meeting it. */
  lemma RoundIsUnique(x: real, digits: nat, r1: real, r2: real)
    requires IsRoundHalfEven(x, digits, r1) && IsRoundHalfEven(x, digits, r2)
    ensures r1 == r2
  {
    NearestEvenIsUnique(Units(x, digits), Units(r1, digits).Floor, Units(r2, digits).Floor);
    MulCancel(r1, r2, Pow10(digits));
  }

  /** A value that already has at most `digits` decimals is returned unchanged. */
  lemma RoundOnGrid(x: real, digits: nat)
    requires OnGrid(x, digits)
    ensures Round(x, digits) == x
  {
    assert IsRoundHalfEven(x, digits, x);
    RoundIsUnique(x, digits, Round(x, digits), x);
  }

  /** Any nearest-even unit count is the one Round picks. */
  lemma RoundToUnits(x: real, digits: nat, k: int)
    requires IsNearestEven(Units(x, digits), k)
    ensures Round(x, digits) == k as real / Pow10(digits)
  {
    WholeUnits(k, digits);
    assert (k as real).Floor == k;
    assert IsRoundHalfEven(x, digits, k as real / Pow10(digits));
    RoundIsUnique(x, digits, Round(x, digits), k as real / Pow10(digits));
  }

  /** The rounding error is at most half a unit: |round(x, d) - x| <= 1/2 * 10^-d. */
  lemma RoundError(x: real, digits: nat)
    ensures -0.5 / Pow10(digits) <= Round(x, digits) - x <= 0.5 / Pow10(digits)
  {
    HalfEvenError(x, digits, Round(x, digits));
  }

  lemma HalfEvenError(x: real, digits: nat, r: real)
    requires IsRoundHalfEven(x, digits, r)
    ensures -0.5 / Pow10(digits) <= r - x <= 0.5 / Pow10(digits)
  {
    HalfUnitApart(x, digits, r);
    ScaledHalfUnit(r, x, Pow10(digits), Units(r, digits), Units(x, digits));
  }

  lemma HalfUnitApart(x: real, digits: nat, r: real)
    requires IsRoundHalfEven(x, digits, r)
    ensures -0.5 <= Units(r, digits) - Units(x, digits) <= 0.5
  {
    var ur := Units(r, digits);
    assert ur.Floor as real == ur;
  }

  // Facts of ordered-field arithmetic, each over plain variables so that the
  // solver meets one product or quotient at a time.

  lemma DivThenMul(a: real, p: real)
    requires p != 0.0
    ensures (a / p) * p == a
  {
  }

  lemma MulCancel(a: real, b: real, p: real)
    requires p != 0.0 && a * p == b * p
    ensures a == b
  {
  }

  lemma MulSub(a: real, b: real, p: real)
    ensures a * p - b * p == (a - b) * p
  {
  }

  lemma DivMono(a: real, b: real, p: real)
    requires p > 0.0 && a <= b
    ensures a / p <= b / p
  {
  }

  /** Dividing -1/2 <= r*p - x*p <= 1/2 through by p > 0. */
  lemma ScaledHalfUnit(r: real, x: real, p: real, rp: real, xp: real)
    requires p > 0.0 && rp == r * p && xp == x * p
    requires -0.5 <= rp - xp <= 0.5
    ensures -0.5 / p <= r - x <= 0.5 / p
  {
    MulSub(r, x, p);
    HalfUnit(r - x, p);
  }

  /** Dividing -1/2 <= d*p <= 1/2 through by p > 0. */
  lemma HalfUnit(d: real, p: real)
    requires p > 0.0
    requires -0.5 <= d * p <= 0.5
    ensures -0.5 / p <= d <= 0.5 / p
  {
    DivMono(d * p, 0.5, p);
    DivMono(-0.5, d * p, p);
    assert (d * p) / p == d;
  }
}
