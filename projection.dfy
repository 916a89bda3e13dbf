// The projection engine of the dashboard: one row per simulated year, with
// house price and hourly wage compounding at fixed annual rates from their
// base-year values, and the yearly wage derived from the same row's wage.
// Money is modelled with exact reals; floating-point rounding is not modelled.
module Projection {

  /** House prices grow by 5.3% per year. */
  const HouseGrowth: real := 1.053
  /** Wages grow by 3.7% per year. */
  const WageGrowth: real := 1.037
  /** Working hours in one year, turning an hourly wage into a yearly one. */
  const HoursPerYear: real := 2080.0
  /** Number of years generated when the caller does not say. */
  const DefaultMaxYears: int := 4000

  /** One row of the precomputed table. */
  datatype YearRecord = YearRecord(year: int, housePrice: real, wage: real, totalWage: real)

  /** b raised to the natural power n. */
  function Pow(b: real, n: nat): real
  {
    if n == 0 then 1.0 else b * Pow(b, n - 1)
  }

  /** c compounded year over year, n times, by the factor b. */
  function Grown(c: real, b: real, n: nat): real
  {
    if n == 0 then c else Grown(c, b, n - 1) * b
  }

  /** Number of elements of Python's range(maxYears): none when maxYears <= 0. */
  function Horizon(maxYears: int): (n: nat)
    ensures maxYears > 0 ==> n == maxYears
    ensures maxYears <= 0 ==> n == 0
  {
    if maxYears > 0 then maxYears else 0
  }

  /** Years in t are consecutive integers starting at base. */
  ghost predicate Contiguous(t: seq<YearRecord>, base: int)
  {
    forall i :: 0 <= i < |t| ==> t[i].year == base + i
  }

  /** The house price of row i is hp0 compounded i years at 5.3%. */
  ghost predicate HousePrices(t: seq<YearRecord>, hp0: real)
  {
    forall i :: 0 <= i < |t| ==> t[i].housePrice == Grown(hp0, HouseGrowth, i)
  }

  /** The hourly wage of row i is w0 compounded i years at 3.7%. */
  ghost predicate Wages(t: seq<YearRecord>, w0: real)
  {
    forall i :: 0 <= i < |t| ==> t[i].wage == Grown(w0, WageGrowth, i)
  }

  /** Every row's yearly wage is that same row's hourly wage times 2080. */
  ghost predicate TotalWages(t: seq<YearRecord>)
  {
    forall i :: 0 <= i < |t| ==> t[i].totalWage == t[i].wage * HoursPerYear
  }

  /** The table precomputed for one base year.  The body uses the closed
      form initial * rate^i; the contract states what it amounts to: one row
      per year from the base year on, each column the previous year's value
      grown by one year's rate, the yearly wage taken from the same row. */
  function PrecomputeData(baseYear: int, initialHousePrice: real, initialWage: real, maxYears: int)
    : (t: seq<YearRecord>)
    ensures |t| == Horizon(maxYears)
    ensures Contiguous(t, baseYear)
    ensures HousePrices(t, initialHousePrice)
    ensures Wages(t, initialWage)
    ensures TotalWages(t)
  {
    AllGrownClosedForm(initialHousePrice, HouseGrowth, Horizon(maxYears));
    AllGrownClosedForm(initialWage, WageGrowth, Horizon(maxYears));
    seq(Horizon(maxYears), i requires 0 <= i =>
      YearRecord(baseYear + i,
                 initialHousePrice * Pow(HouseGrowth, i),
                 initialWage * Pow(WageGrowth, i),
                 initialWage * Pow(WageGrowth, i) * HoursPerYear))
  }

  // ---------------------------------------------------------------------------
  // Arithmetic on compounding

  /** Compounding n times year over year is the closed form c * b^n. */
  lemma {:induction false} GrownClosedForm(c: real, b: real, n: nat)
    ensures Grown(c, b, n) == c * Pow(b, n)
  {
    if n > 0 {
      GrownClosedForm(c, b, n - 1);
      assert Grown(c, b, n) == (c * Pow(b, n - 1)) * b;
      assert (c * Pow(b, n - 1)) * b == c * (b * Pow(b, n - 1));
    }
  }

  lemma AllGrownClosedForm(c: real, b: real, n: nat)
    ensures forall i :: 0 <= i < n ==> Grown(c, b, i) == c * Pow(b, i)
  {
    forall i | 0 <= i < n ensures Grown(c, b, i) == c * Pow(b, i) {
      GrownClosedForm(c, b, i);
    }
  }

  /** Compounding i + k times is compounding i times, then k more. */
  lemma {:induction false} GrownSplit(c: real, b: real, i: nat, k: nat)
    ensures Grown(c, b, i + k) == Grown(c, b, i) * Pow(b, k)
  {
    if k > 0 {
      GrownSplit(c, b, i, k - 1);
      assert Grown(c, b, i + k) == (Grown(c, b, i) * Pow(b, k - 1)) * b;
      assert (Grown(c, b, i) * Pow(b, k - 1)) * b == Grown(c, b, i) * (b * Pow(b, k - 1));
    }
  }

  /** Multiplying a positive value by a factor above one makes it larger. */
  lemma GrowsByFactor(b: real, p: real, q: real)
    requires b > 1.0 && p > 0.0 && q == p * b
    ensures p < q
  {
  }

  /** The product of two positive values is positive. */
  lemma ProductPositive(x: real, y: real, xy: real)
    requires x > 0.0 && y > 0.0 && xy == x * y
    ensures xy > 0.0
  {
  }

  /** Multiplying by a positive value keeps a strict order. */
  lemma ScaleStrict(c: real, x: real, y: real, cx: real, cy: real)
    requires c > 0.0 && x < y && cx == c * x && cy == c * y
    ensures cx < cy
  {
  }

  lemma {:induction false} PowPositive(b: real, n: nat)
    requires b > 0.0
    ensures Pow(b, n) > 0.0
  {
    if n > 0 {
      PowPositive(b, n - 1);
      ProductPositive(b, Pow(b, n - 1), Pow(b, n));
    }
  }

  lemma {:induction false} GrownPositive(c: real, b: real, n: nat)
    requires c > 0.0 && b > 0.0
    ensures Grown(c, b, n) > 0.0
  {
    if n > 0 {
      GrownPositive(c, b, n - 1);
      ProductPositive(Grown(c, b, n - 1), b, Grown(c, b, n));
    }
  }

  /** A positive value compounded at a rate above zero strictly increases. */
  lemma {:induction false} GrownStrictlyIncreasing(c: real, b: real, m: nat, n: nat)
    requires c > 0.0 && b > 1.0 && m < n
    ensures Grown(c, b, m) < Grown(c, b, n)
  {
    GrownPositive(c, b, n - 1);
    GrowsByFactor(b, Grown(c, b, n - 1), Grown(c, b, n));
    if m < n - 1 {
      GrownStrictlyIncreasing(c, b, m, n - 1);
    }
  }

  /** A larger positive base gives a strictly larger power. */
  lemma {:induction false} PowBaseStrictlyMonotone(a: real, b: real, n: nat)
    requires 0.0 < a < b && n > 0
    ensures Pow(a, n) < Pow(b, n)
  {
    PowPositive(a, n - 1);
    ScaleStrict(Pow(a, n - 1), a, b, a * Pow(a, n - 1), b * Pow(a, n - 1));
    if n > 1 {
      PowBaseStrictlyMonotone(a, b, n - 1);
      ScaleStrict(b, Pow(a, n - 1), Pow(b, n - 1), b * Pow(a, n - 1), Pow(b, n));
    }
  }

  /** When y is x grown by p, y scaled by h is x scaled by h, grown by p. */
  lemma ScaledGrowth(x: real, y: real, p: real, h: real)
    requires y == x * p
    ensures y * h == (x * h) * p
  {
  }

  /** The arithmetic step of GapWidens: h * (w * x) < (h * y) * w when x < y. */
  lemma CrossMultiply(h: real, w: real, x: real, y: real, wx: real, hy: real)
    requires h > 0.0 && w > 0.0 && x < y && wx == w * x && hy == h * y
    ensures h * wx < hy * w
  {
    ProductPositive(h, w, h * w);
    ScaleStrict(h * w, x, y, (h * w) * x, (h * w) * y);
    assert h * wx == (h * w) * x;
    assert hy * w == (h * w) * y;
  }

  // ---------------------------------------------------------------------------
  // Properties of the precomputed table

  /** Row 0 holds exactly the initial values. */
  lemma FirstRowIsInitial(baseYear: int, hp0: real, w0: real, maxYears: int)
    requires maxYears > 0
    ensures PrecomputeData(baseYear, hp0, w0, maxYears)[0]
         == YearRecord(baseYear, hp0, w0, w0 * HoursPerYear)
  {
  }

  /** Years are strictly ascending, so no year is missing or repeated. */
  lemma YearsStrictlyAscending(t: seq<YearRecord>, base: int, i: int, j: int)
    requires Contiguous(t, base)
    requires 0 <= i < j < |t|
    ensures t[i].year < t[j].year && t[j].year - t[i].year == j - i
  {
  }

  /** Each row is the previous row one year later, grown by one year's rates. */
  lemma NextRowGrowth(t: seq<YearRecord>, base: int, hp0: real, w0: real, i: nat)
    requires Contiguous(t, base) && HousePrices(t, hp0) && Wages(t, w0) && TotalWages(t)
    requires i + 1 < |t|
    ensures t[i + 1].year == t[i].year + 1
    ensures t[i + 1].housePrice == t[i].housePrice * HouseGrowth
    ensures t[i + 1].wage == t[i].wage * WageGrowth
    ensures t[i + 1].totalWage == t[i].totalWage * WageGrowth
  {
    assert t[i + 1].wage == Grown(w0, WageGrowth, i) * WageGrowth;
  }

  /** Between rows i and i + k, a column is compounded k times. */
  lemma {:induction false} RowsCompound(t: seq<YearRecord>, hp0: real, w0: real, i: nat, k: nat)
    requires HousePrices(t, hp0) && Wages(t, w0) && TotalWages(t)
    requires i + k < |t|
    ensures t[i + k].housePrice == t[i].housePrice * Pow(HouseGrowth, k)
    ensures t[i + k].wage == t[i].wage * Pow(WageGrowth, k)
    ensures t[i + k].totalWage == t[i].totalWage * Pow(WageGrowth, k)
  {
    GrownSplit(hp0, HouseGrowth, i, k);
    GrownSplit(w0, WageGrowth, i, k);
    ScaledGrowth(t[i].wage, t[i + k].wage, Pow(WageGrowth, k), HoursPerYear);
  }

  /** With positive initial values every column grows strictly with the year. */
  lemma ColumnsStrictlyIncreasing(t: seq<YearRecord>, hp0: real, w0: real, i: nat, j: nat)
    requires HousePrices(t, hp0) && Wages(t, w0) && TotalWages(t)
    requires hp0 > 0.0 && w0 > 0.0
    requires i < j < |t|
    ensures t[i].housePrice < t[j].housePrice
    ensures t[i].wage < t[j].wage
    ensures t[i].totalWage < t[j].totalWage
  {
    GrownStrictlyIncreasing(hp0, HouseGrowth, i, j);
    GrownStrictlyIncreasing(w0, WageGrowth, i, j);
  }

  /** The gap the dashboard shows widens: the ratio of house price to yearly
      wage strictly increases with the year (cross-multiplied, so no division). */
  lemma GapWidens(t: seq<YearRecord>, hp0: real, w0: real, i: nat, j: nat)
    requires HousePrices(t, hp0) && Wages(t, w0) && TotalWages(t)
    requires hp0 > 0.0 && w0 > 0.0
    requires i < j < |t|
    ensures t[i].housePrice * t[j].totalWage < t[j].housePrice * t[i].totalWage
  {
    var k := j - i;
    RowsCompound(t, hp0, w0, i, k);
    PowBaseStrictlyMonotone(WageGrowth, HouseGrowth, k);
    GrownPositive(hp0, HouseGrowth, i);
    GrownPositive(w0, WageGrowth, i);
    CrossMultiply(t[i].housePrice, t[i].totalWage, Pow(WageGrowth, k), Pow(HouseGrowth, k),
                  t[j].totalWage, t[j].housePrice);
  }
}
