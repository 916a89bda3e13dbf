// The queries the dashboard runs on its precomputed table: the row mask
// `Year == y`, the row mask `Year <= y`, and the maximum of the Year column.
// A table is a sequence of rows in table order; a mask keeps the rows it
// selects in that order.
module Table {
  import opened Projection

  /** The rows of t whose year is y, in table order. */
  function RowsWithYear(t: seq<YearRecord>, y: int): (r: seq<YearRecord>)
    ensures |r| <= |t|
    ensures forall k :: 0 <= k < |r| ==> r[k].year == y && r[k] in t
    ensures forall k :: 0 <= k < |t| && t[k].year == y ==> t[k] in r
  {
    if t == [] then []
    else
      assert forall k :: 1 <= k < |t| ==> t[k] == t[1..][k - 1];
      (if t[0].year == y then [t[0]] else []) + RowsWithYear(t[1..], y)
  }

  /** The rows of t whose year is at most y, in table order. */
  function RowsUpTo(t: seq<YearRecord>, y: int): (r: seq<YearRecord>)
    ensures |r| <= |t|
    ensures forall k :: 0 <= k < |r| ==> r[k].year <= y && r[k] in t
    ensures forall k :: 0 <= k < |t| && t[k].year <= y ==> t[k] in r
  {
    if t == [] then []
    else
      assert forall k :: 1 <= k < |t| ==> t[k] == t[1..][k - 1];
      (if t[0].year <= y then [t[0]] else []) + RowsUpTo(t[1..], y)
  }

  /** The largest year in a non-empty table. */
  function MaxYear(t: seq<YearRecord>): (m: int)
    requires |t| > 0
    ensures exists k :: 0 <= k < |t| && t[k].year == m
    ensures forall k :: 0 <= k < |t| ==> t[k].year <= m
  {
    if |t| == 1 then t[0].year
    else
      var rest := MaxYear(t[1..]);
      assert forall k :: 1 <= k < |t| ==> t[k] == t[1..][k - 1];
      if t[0].year >= rest then t[0].year else rest
  }

  /** The tail of a contiguous table is contiguous from the next year. */
  lemma ContiguousTail(t: seq<YearRecord>, base: int)
    requires Contiguous(t, base) && t != []
    ensures Contiguous(t[1..], base + 1)
  {
    assert forall k :: 0 <= k < |t| - 1 ==> t[1..][k] == t[k + 1];
  }

  /** In a contiguous table, selecting by year finds the one row of that year
      when it is in range, and nothing otherwise. */
  lemma {:induction false} RowsWithYearContiguous(t: seq<YearRecord>, base: int, y: int)
    requires Contiguous(t, base)
    ensures base <= y < base + |t| ==> RowsWithYear(t, y) == [t[y - base]]
    ensures !(base <= y < base + |t|) ==> RowsWithYear(t, y) == []
    decreases |t|
  {
    if t != [] {
      ContiguousTail(t, base);
      RowsWithYearContiguous(t[1..], base + 1, y);
      if y != base {
        assert t[0].year != y;
        if base + 1 <= y < base + |t| {
          assert t[1..][y - (base + 1)] == t[y - base];
        }
      } else {
        assert RowsWithYear(t[1..], y) == [];
      }
    }
  }

  /** In a contiguous table, selecting the years up to y gives the first
      y - base + 1 rows (all of them, or none, when y is out of range). */
  lemma {:induction false} RowsUpToContiguous(t: seq<YearRecord>, base: int, y: int)
    requires Contiguous(t, base)
    ensures y < base ==> RowsUpTo(t, y) == []
    ensures base <= y < base + |t| ==> RowsUpTo(t, y) == t[..y - base + 1]
    ensures base + |t| <= y ==> RowsUpTo(t, y) == t
    decreases |t|
  {
    if t != [] {
      ContiguousTail(t, base);
      RowsUpToContiguous(t[1..], base + 1, y);
      if y < base {
        assert t[0].year > y;
      } else if y == base {
        assert RowsUpTo(t[1..], y) == [];
        assert t[..1] == [t[0]];
      } else if y < base + |t| {
        assert RowsUpTo(t[1..], y) == t[1..][..y - base];
        assert [t[0]] + t[1..][..y - base] == t[..y - base + 1];
      } else {
        assert [t[0]] + t[1..] == t;
      }
    }
  }

  /** The maximum year of a non-empty contiguous table is its last row's. */
  lemma MaxYearContiguous(t: seq<YearRecord>, base: int)
    requires Contiguous(t, base) && |t| > 0
    ensures MaxYear(t) == base + |t| - 1
  {
    var k :| 0 <= k < |t| && t[k].year == MaxYear(t);
    assert t[|t| - 1].year <= MaxYear(t);
  }

  /** Raising the cut-off year only adds rows at the end of a contiguous
      table's visible range, so the charted range never shrinks. */
  lemma RowsUpToGrows(t: seq<YearRecord>, base: int, y1: int, y2: int)
    requires Contiguous(t, base) && y1 <= y2
    ensures RowsUpTo(t, y1) <= RowsUpTo(t, y2)
  {
    RowsUpToContiguous(t, base, y1);
    RowsUpToContiguous(t, base, y2);
  }
}
