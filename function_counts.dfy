/**
 * `count_SUs_by_entity`, `count_applied_by_entity`, `count_approved_by_entity` and
 * `count_applied_to_approved_ratio`: keep the rows of one `Function`, then sum one
 * measure per entity. The source groups with pandas, which sorts the keys, so the
 * result is modelled as a map without a key order.
 */
module FunctionCounts {
  import opened Table
  import opened Aggregation

  /** The rows whose `Function` equals `selected`, in their original order. */
  function FilterFunction(rows: seq<Row>, selected: string): (r: seq<Row>)
    ensures forall x :: x in r <==> x in rows && x.func == selected
  {
    if rows == [] then []
    else
      var p, x := rows[..|rows| - 1], rows[|rows| - 1];
      assert rows == p + [x];
      FilterFunction(p, selected) + (if x.func == selected then [x] else [])
  }

  /**
   * The filter drops no matching row: every row of the selected function is kept as
   * often as it occurs, and the kept rows stay in their original order.
   */
  lemma {:induction false} FilterKeepsEveryMatch(rows: seq<Row>, selected: string)
    ensures forall y :: multiset(FilterFunction(rows, selected))[y] == if y.func == selected then multiset(rows)[y] else 0
    ensures SubsequenceOf(FilterFunction(rows, selected), rows)
  {
    if rows != [] {
      var p, x := rows[..|rows| - 1], rows[|rows| - 1];
      assert rows == p + [x];
      FilterKeepsEveryMatch(p, selected);
      var fp := FilterFunction(p, selected);
      var f := FilterFunction(rows, selected);
      assert multiset(rows) == multiset(p) + multiset{x};
      if x.func == selected {
        assert f == fp + [x];
        assert multiset(f) == multiset(fp) + multiset{x};
        assert f[..|f| - 1] == fp;
      } else {
        assert f == fp;
      }
    }
  }

  /** Reference definition: the measure summed over the rows of entity `e` and function `selected`. */
  function MatchingSum(rows: seq<Row>, selected: string, e: string, mode: Mode, m: Measure): int
  {
    if rows == [] then 0
    else
      var x := rows[|rows| - 1];
      MatchingSum(rows[..|rows| - 1], selected, e, mode, m)
        + (if x.entity == e && x.func == selected then Value(x, mode, m) else 0)
  }

  lemma {:induction false} FilteredSum(rows: seq<Row>, selected: string, e: string, mode: Mode, m: Measure)
    ensures SumFor(Column(FilterFunction(rows, selected), mode, m), e) == MatchingSum(rows, selected, e, mode, m)
  {
    if rows != [] {
      var p, x := rows[..|rows| - 1], rows[|rows| - 1];
      FilteredSum(p, selected, e, mode, m);
      var fp := FilterFunction(p, selected);
      if x.func == selected {
        ColumnAppend(fp, x, mode, m);
        SumForAppend(Column(fp, mode, m), Entry(x.entity, Value(x, mode, m)), e);
      } else {
        assert FilterFunction(rows, selected) == fp;
      }
    }
  }

  /** Every entry of the filtered column comes from a row of the selected function. */
  lemma FilteredEntrySource(rows: seq<Row>, selected: string, mode: Mode, m: Measure, j: nat)
    requires j < |Column(FilterFunction(rows, selected), mode, m)|
    ensures exists i :: 0 <= i < |rows| && rows[i].entity == Column(FilterFunction(rows, selected), mode, m)[j].entity
                        && rows[i].func == selected
  {
    var f := FilterFunction(rows, selected);
    assert f[j] in f;
    var i :| 0 <= i < |rows| && rows[i] == f[j];
  }

  /** Every row of the selected function has an entry in the filtered column. */
  lemma FilteredEntryPresent(rows: seq<Row>, selected: string, mode: Mode, m: Measure, i: nat)
    requires i < |rows| && rows[i].func == selected
    ensures exists j :: 0 <= j < |Column(FilterFunction(rows, selected), mode, m)|
                        && Column(FilterFunction(rows, selected), mode, m)[j].entity == rows[i].entity
  {
    var f := FilterFunction(rows, selected);
    assert rows[i] in f;
    var j :| 0 <= j < |f| && f[j] == rows[i];
    assert Column(f, mode, m)[j].entity == rows[i].entity;
  }

  /**
   * One measure summed per entity over the rows of the selected function: an entity
   * appears exactly when it has a row of that function.
   */
  function CountByEntity(rows: seq<Row>, selected: string, mode: Mode, m: Measure): (r: map<string, int>)
    ensures forall e :: e in r <==> exists i :: 0 <= i < |rows| && rows[i].entity == e && rows[i].func == selected
    ensures forall e :: e in r ==> r[e] == MatchingSum(rows, selected, e, mode, m)
  {
    var r := Aggregate(Column(FilterFunction(rows, selected), mode, m)).sums;
    assert forall e :: e in r <==> exists i :: 0 <= i < |rows| && rows[i].entity == e && rows[i].func == selected by {
      var c := Column(FilterFunction(rows, selected), mode, m);
      forall e | e in r ensures exists i :: 0 <= i < |rows| && rows[i].entity == e && rows[i].func == selected {
        var j :| 0 <= j < |c| && c[j].entity == e;
        FilteredEntrySource(rows, selected, mode, m, j);
      }
      forall e | exists i :: 0 <= i < |rows| && rows[i].entity == e && rows[i].func == selected ensures e in r {
        var i :| 0 <= i < |rows| && rows[i].entity == e && rows[i].func == selected;
        FilteredEntryPresent(rows, selected, mode, m, i);
      }
    }
    assert forall e :: e in r ==> r[e] == MatchingSum(rows, selected, e, mode, m) by {
      forall e | e in r ensures r[e] == MatchingSum(rows, selected, e, mode, m) {
        FilteredSum(rows, selected, e, mode, m);
      }
    }
    r
  }
}
