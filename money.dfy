/**
 * Exact decimal money with explicit rounding to two places.
 *
 * The calculator sets `Big.DP = 2` and `Big.RM = roundHalfUp` globally, so every
 * big.js `div` rounds its quotient half-up (ties away from zero) to two places;
 * `plus`, `minus` and `times` are exact. Both rounding modes the split rules name
 * are written out here on `real`.
 */
module Money {

  /** `x` has at most two decimal places. */
  predicate HasTwoDecimals(x: real) {
    (x * 100.0).Floor as real == x * 100.0
  }

  /** `x` lies exactly half-way between two neighbouring cent values. */
  predicate IsCentTie(x: real) {
    x * 100.0 - (x * 100.0).Floor as real == 0.5
  }

  function Abs(x: real): real {
    if x < 0.0 then -x else x
  }

  /** Cents of a non-negative value, half-up. */
  function HalfUpCents(y: real): int
    requires y >= 0.0
  {
    (y * 100.0 + 0.5).Floor
  }

  /** The cent count that half-even rounding picks for `x * 100`. */
  function HalfEvenCents(x: real): int {
    var f := (x * 100.0).Floor;
    var d := x * 100.0 - f as real;
    if d < 0.5 then f
    else if d > 0.5 then f + 1
    else if f % 2 == 0 then f
    else f + 1
  }

  /**
   * Round half-up to two places: the nearest value with two decimals, and on a tie
   * the one farther from zero (big.js `roundHalfUp`).
   */
  function Round2HalfUp(x: real): (r: real)
    ensures HasTwoDecimals(r)
  {
    HalfUpFacts(x);
    if x >= 0.0 then HalfUpCents(x) as real / 100.0
    else -(HalfUpCents(-x) as real / 100.0)
  }

  /** Half-up rounding is off by at most half a cent, and a tie moves away from zero. */
  lemma HalfUpIsNearest(x: real)
    ensures Abs(Round2HalfUp(x) - x) <= 0.005
    ensures Abs(Round2HalfUp(x) - x) == 0.005 ==> Abs(Round2HalfUp(x)) > Abs(x)
  {
    HalfUpFacts(x);
  }

  /**
   * Round half-even ("bankers"): the nearest value with two decimals, and on a tie
   * the one whose last digit is even (big.js `roundHalfEven`).
   */
  function Round2HalfEven(x: real): (r: real)
    ensures HasTwoDecimals(r)
  {
    HalfEvenFacts(x);
    HalfEvenCents(x) as real / 100.0
  }

  /** Half-even rounding is off by at most half a cent, and a tie lands on an even cent. */
  lemma HalfEvenIsNearest(x: real)
    ensures Abs(Round2HalfEven(x) - x) <= 0.005
    ensures Abs(Round2HalfEven(x) - x) == 0.005 ==> (Round2HalfEven(x) * 100.0).Floor % 2 == 0
  {
    HalfEvenFacts(x);
  }

  /** big.js `a.div(b)` under `Big.DP = 2`, `Big.RM = roundHalfUp`. */
  function Div(a: real, b: real): (q: real)
    requires b != 0.0
    ensures HasTwoDecimals(q)
  {
    Round2HalfUp(a / b)
  }

  lemma FloorIs(z: real, n: int)
    requires n as real <= z < n as real + 1.0
    ensures z.Floor == n
  {
  }

  lemma CentsValue(n: int)
    ensures (n as real / 100.0) * 100.0 == n as real
    ensures HasTwoDecimals(n as real / 100.0)
  {
    FloorIs(n as real, n);
  }

  lemma HalfUpCentsBounds(y: real)
    requires y >= 0.0
    ensures var n := HalfUpCents(y) as real; n - 0.5 <= y * 100.0 < n + 0.5
  {
    var z := y * 100.0 + 0.5;
    assert z.Floor as real <= z < z.Floor as real + 1.0;
  }

  lemma HalfUpFacts(x: real)
    ensures var r := if x >= 0.0 then HalfUpCents(x) as real / 100.0 else -(HalfUpCents(-x) as real / 100.0);
      HasTwoDecimals(r) && Abs(r - x) <= 0.005 && (Abs(r - x) == 0.005 ==> Abs(r) > Abs(x))
  {
    if x >= 0.0 {
      CentsValue(HalfUpCents(x));
      HalfUpCentsBounds(x);
    } else {
      var n := HalfUpCents(-x);
      CentsValue(-n);
      HalfUpCentsBounds(-x);
      assert -(n as real / 100.0) == (-n) as real / 100.0;
    }
  }

  lemma HalfEvenFacts(x: real)
    ensures var r := HalfEvenCents(x) as real / 100.0;
      HasTwoDecimals(r) && Abs(r - x) <= 0.005 && (Abs(r - x) == 0.005 ==> (r * 100.0).Floor % 2 == 0)
  {
    var y := x * 100.0;
    assert y.Floor as real <= y < y.Floor as real + 1.0;
    CentsValue(HalfEvenCents(x));
  }

  /** Rounding leaves a value that already has two decimals unchanged. */
  lemma RoundingFixesTwoDecimals(x: real)
    requires HasTwoDecimals(x)
    ensures Round2HalfUp(x) == x
    ensures Round2HalfEven(x) == x
  {
    var k := (x * 100.0).Floor;
    if x >= 0.0 {
      FloorIs(x * 100.0 + 0.5, k);
    } else {
      FloorIs(-x * 100.0 + 0.5, -k);
    }
    FloorIs(x * 100.0, k);
  }

  /** The two modes differ only on exact cent ties. */
  lemma HalfUpAgreesWithHalfEvenOffTies(x: real)
    requires !IsCentTie(x)
    ensures Round2HalfUp(x) == Round2HalfEven(x)
  {
    var y := x * 100.0;
    var f := y.Floor;
    var d := y - f as real;
    assert 0.0 <= d < 1.0;
    if x >= 0.0 {
      if d < 0.5 { FloorIs(y + 0.5, f); } else { FloorIs(y + 0.5, f + 1); }
    } else {
      if d < 0.5 {
        if d == 0.0 { FloorIs(-y + 0.5, -f); } else { FloorIs(-y + 0.5, -f); }
      } else {
        FloorIs(-y + 0.5, -f - 1);
      }
    }
  }

  /** The tie cases that distinguish the two modes. */
  lemma TieExamples()
    ensures Round2HalfUp(12.345) == 12.35
    ensures Round2HalfEven(12.345) == 12.34
    ensures Round2HalfUp(-2.345) == -2.35
    ensures Round2HalfEven(-2.345) == -2.34
    ensures Round2HalfEven(0.135) == 0.14
  {
    FloorIs(1234.5 + 0.5, 1235);
    FloorIs(1234.5, 1234);
    FloorIs(234.5 + 0.5, 235);
    FloorIs(-234.5, -235);
    FloorIs(13.5, 13);
  }
}
