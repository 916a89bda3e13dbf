// The dashboard's session state and the operations a page interaction runs
// on it: adopting the base year chosen in the sidebar, the "+1 Year" and
// "+10 Years" buttons, and the two read-outs (the current year's row and the
// rows charted so far).  Widgets become parameters and method calls.
module Navigation {
  import opened Projection
  import opened Table

  /** The years the sidebar offers as a starting year. */
  type BaseYear = y: int | y == 1960 || y == 2010 witness 1960

  datatype Option<T> = None | Some(value: T)

  /** The house price and hourly wage in a base year. */
  datatype InitialValues = InitialValues(housePrice: real, wage: real)

  /** The fixed starting values of each selectable base year. */
  function InitialValuesFor(y: BaseYear): (v: InitialValues)
    ensures v.housePrice > 0.0 && v.wage > 0.0
    ensures y == 1960 ==> v.housePrice == 11600.0 && v.wage == 1.25
    ensures y == 2010 ==> v.housePrice == 172000.0 && v.wage == 11.0
  {
    if y == 1960 then InitialValues(11600.0, 1.25) else InitialValues(172000.0, 11.0)
  }

  /** The table generated for a base year, over the default horizon. */
  function Series(y: BaseYear): seq<YearRecord>
  {
    var v := InitialValuesFor(y);
    PrecomputeData(y, v.housePrice, v.wage, DefaultMaxYears)
  }

  /** The last year a table generated for base year y contains. */
  function LastYear(y: BaseYear): int
  {
    y + DefaultMaxYears - 1
  }

  /** Whether a step moved by the amount asked for, or stopped at the last year
      (the case in which the page shows a warning). */
  datatype StepOutcome = Advanced | ClampedAtMax

  /** Where a step leaves the current year, and how it ended. */
  datatype Move = Move(year: int, outcome: StepOutcome)

  /** The "+1 Year" rule: one year on while below the last year, else stay. */
  function StepOneMove(current: int, maxYear: int): (m: Move)
    ensures m.outcome == Advanced <==> current < maxYear
    ensures m.outcome == Advanced ==> m.year == current + 1
    ensures m.outcome == ClampedAtMax ==> m.year == current
    ensures current <= maxYear ==> current <= m.year <= maxYear
  {
    if current < maxYear then Move(current + 1, Advanced) else Move(current, ClampedAtMax)
  }

  /** The "+10 Years" rule: ten years on when that stays within the last
      year, else jump to the last year. */
  function StepTenMove(current: int, maxYear: int): (m: Move)
    ensures m.outcome == Advanced <==> current + 10 <= maxYear
    ensures m.outcome == Advanced ==> m.year == current + 10
    ensures m.outcome == ClampedAtMax ==> m.year == maxYear
    ensures current <= maxYear ==> current <= m.year <= maxYear
  {
    var next := current + 10;
    if next <= maxYear then Move(next, Advanced) else Move(maxYear, ClampedAtMax)
  }

  /** The year reached by pressing "+1 Year" k times. */
  function RepeatStepOne(current: int, maxYear: int, k: nat): int
    decreases k
  {
    if k == 0 then current else RepeatStepOne(StepOneMove(current, maxYear).year, maxYear, k - 1)
  }

  /** From any year in range, k presses of "+1 Year" advance by k years but
      never past the last year. */
  lemma {:induction false} RepeatStepOneClamps(current: int, maxYear: int, k: nat)
    requires current <= maxYear
    ensures RepeatStepOne(current, maxYear, k) == if current + k <= maxYear then current + k else maxYear
    decreases k
  {
    if k > 0 {
      RepeatStepOneClamps(StepOneMove(current, maxYear).year, maxYear, k - 1);
    }
  }

  /** One press of "+10 Years" lands where ten presses of "+1 Year" would. */
  lemma StepTenIsTenStepOnes(current: int, maxYear: int)
    requires current <= maxYear
    ensures StepTenMove(current, maxYear).year == RepeatStepOne(current, maxYear, 10)
  {
    RepeatStepOneClamps(current, maxYear, 10);
  }

  /** At the last year both buttons leave the year as it is and warn. */
  lemma ClampedAtLastYear(maxYear: int)
    ensures StepOneMove(maxYear, maxYear) == Move(maxYear, ClampedAtMax)
    ensures StepTenMove(maxYear, maxYear) == Move(maxYear, ClampedAtMax)
  {
  }

  /** What the page shows for the current year: nothing before a base year is
      set, the row of the current year, or the "not available" error. */
  datatype Snapshot = NotStarted | Available(row: YearRecord) | NotAvailable

  /** The first row selected for the current year, or the error when the
      selection is empty. */
  function SnapshotOf(rows: seq<YearRecord>): (s: Snapshot)
    ensures s.NotAvailable? <==> rows == []
    ensures s.Available? ==> s.row == rows[0]
    ensures !s.NotStarted?
  {
    if rows == [] then NotAvailable else Available(rows[0])
  }

  /** The session of one user: the base year in effect, the current year and
      the table generated for the base year.  All three start unset. */
  class Dashboard {
    var baseYear: Option<BaseYear>
    var currentYear: Option<int>
    var data: seq<YearRecord>

    /** Before the first base year is adopted nothing is set; afterwards the
        table is the one generated for the base year and the current year lies
        between the base year and the table's last year. */
    ghost predicate Valid()
      reads this
    {
      match baseYear
      case None => currentYear == None && data == []
      case Some(b) =>
        && data == Series(b)
        && currentYear.Some?
        && b <= currentYear.value <= LastYear(b)
    }

    constructor ()
      ensures Valid()
      ensures baseYear == None && currentYear == None && data == []
    {
      baseYear := None;
      currentYear := None;
      data := [];
    }

    /** Adopts the base year selected in the sidebar.  A change of base year
        regenerates the table and moves the current year back to the base
        year; selecting the base year already in effect changes nothing. */
    method Rebase(selected: BaseYear)
      requires Valid()
      modifies this
      ensures Valid()
      ensures old(baseYear) == Some(selected) ==>
        baseYear == old(baseYear) && currentYear == old(currentYear) && data == old(data)
      ensures old(baseYear) != Some(selected) ==>
        baseYear == Some(selected) && currentYear == Some(selected as int) && data == Series(selected)
    {
      if baseYear != Some(selected) {
        baseYear := Some(selected);
        currentYear := Some(selected as int);
        data := Series(selected);
      }
    }

    /** The "+1 Year" button: the largest year of the table bounds the move. */
    method StepOne() returns (outcome: StepOutcome)
      requires Valid() && baseYear.Some?
      modifies this`currentYear
      ensures Valid()
      ensures var m := StepOneMove(old(currentYear).value, LastYear(baseYear.value));
        currentYear == Some(m.year) && outcome == m.outcome
      ensures old(VisibleRange()) <= VisibleRange()
    {
      var b := baseYear.value;
      var maxYear := MaxYear(data);
      MaxYearContiguous(data, b);
      if currentYear.value < maxYear {
        currentYear := Some(currentYear.value + 1);
        outcome := Advanced;
      } else {
        outcome := ClampedAtMax;
      }
      RowsUpToGrows(data, b, old(currentYear).value, currentYear.value);
    }

    /** The "+10 Years" button: ten years on, or the table's largest year. */
    method StepTen() returns (outcome: StepOutcome)
      requires Valid() && baseYear.Some?
      modifies this`currentYear
      ensures Valid()
      ensures var m := StepTenMove(old(currentYear).value, LastYear(baseYear.value));
        currentYear == Some(m.year) && outcome == m.outcome
      ensures old(VisibleRange()) <= VisibleRange()
    {
      var b := baseYear.value;
      var newYear := currentYear.value + 10;
      var maxYear := MaxYear(data);
      MaxYearContiguous(data, b);
      if newYear <= maxYear {
        currentYear := Some(newYear);
        outcome := Advanced;
      } else {
        currentYear := Some(maxYear);
        outcome := ClampedAtMax;
      }
      RowsUpToGrows(data, b, old(currentYear).value, currentYear.value);
    }

    /** The row shown for the current year.  Once a base year is set there is
        exactly one row of the current year, so "not available" never shows. */
    function CurrentSnapshot(): (s: Snapshot)
      reads this
      requires Valid()
      ensures s.NotStarted? <==> baseYear.None?
      ensures !s.NotAvailable?
      ensures s.Available? ==>
        && |RowsWithYear(data, currentYear.value)| == 1
        && s.row == data[currentYear.value - baseYear.value]
        && s.row.year == currentYear.value
    {
      match currentYear
      case None => NotStarted
      case Some(y) =>
        RowsWithYearContiguous(data, baseYear.value, y);
        SnapshotOf(RowsWithYear(data, y))
    }

    /** The rows charted: every row up to the current year, in year order,
        which is the first current - base + 1 rows of the table. */
    function VisibleRange(): (r: seq<YearRecord>)
      reads this
      requires Valid()
      ensures baseYear.None? ==> r == []
      ensures baseYear.Some? ==>
        && |r| == currentYear.value - baseYear.value + 1
        && r == data[..|r|]
        && r[|r| - 1] == CurrentSnapshot().row
    {
      match currentYear
      case None => []
      case Some(y) =>
        RowsUpToContiguous(data, baseYear.value, y);
        RowsUpTo(data, y)
    }

    /** The two button handlers in script order: "+1 Year" if pressed, then
        "+10 Years" if pressed.  The page warns when either step clamped. */
    method PressButtons(plusOne: bool, plusTen: bool) returns (warned: bool)
      requires Valid() && baseYear.Some?
      modifies this`currentYear
      ensures Valid()
      ensures var one := StepOneMove(old(currentYear).value, LastYear(baseYear.value));
        var afterOne := if plusOne then one.year else old(currentYear).value;
        var ten := StepTenMove(afterOne, LastYear(baseYear.value));
        && currentYear == Some(if plusTen then ten.year else afterOne)
        && warned == ((plusOne && one.outcome == ClampedAtMax) || (plusTen && ten.outcome == ClampedAtMax))
    {
      warned := false;
      if plusOne {
        var outcome := StepOne();
        warned := outcome == ClampedAtMax;
      }
      if plusTen {
        var outcome := StepTen();
        warned := warned || outcome == ClampedAtMax;
      }
    }

    /** One run of the page: adopt the sidebar's base year, handle the
        buttons pressed, then read the current row and the chart. */
    method Interact(selected: BaseYear, plusOne: bool, plusTen: bool)
      returns (warned: bool, shown: Snapshot, chart: seq<YearRecord>)
      requires Valid()
      modifies this
      ensures Valid() && baseYear == Some(selected)
      ensures var start := if old(baseYear) == Some(selected) then old(currentYear).value else selected as int;
        var one := StepOneMove(start, LastYear(selected));
        var afterOne := if plusOne then one.year else start;
        var ten := StepTenMove(afterOne, LastYear(selected));
        && currentYear == Some(if plusTen then ten.year else afterOne)
        && warned == ((plusOne && one.outcome == ClampedAtMax) || (plusTen && ten.outcome == ClampedAtMax))
      ensures shown == CurrentSnapshot() && shown.Available?
      ensures chart == VisibleRange()
    {
      Rebase(selected);
      warned := PressButtons(plusOne, plusTen);
      shown := CurrentSnapshot();
      chart := VisibleRange();
    }
  }

  /** The 1960 and 2010 walk-throughs: the base year's own values first, then
      one year of growth. */
  method Walkthrough()
  {
    var d := new Dashboard();
    d.Rebase(1960);
    var s := d.CurrentSnapshot();
    assert s.row.housePrice == 11600.0 && s.row.wage == 1.25;
    var outcome := d.StepOne();
    assert outcome == Advanced && d.currentYear == Some(1961);
    s := d.CurrentSnapshot();
    assert s.row.housePrice == 12214.8;
    outcome := d.StepTen();
    assert d.currentYear == Some(1971);
    d.Rebase(2010);
    assert d.currentYear == Some(2010);
    s := d.CurrentSnapshot();
    assert s.row.housePrice == 172000.0 && s.row.wage == 11.0 && s.row.totalWage == 22880.0;
  }
}
