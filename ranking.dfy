/**
 * `display_score_ranks`: sort the joined rows by `Total`, descending; rank them by
 * position; replace the rank by '-' when the total is 0; put a medal before the
 * entity of the first three positions when their total is not 0.
 */
module Ranking {
  import opened Merge

  predicate SortedByTotal(s: seq<CombinedRow>)
  {
    forall i, j :: 0 <= i < j < |s| ==> s[i].total >= s[j].total
  }

  /** No row of `s` has a total above `bound`. */
  predicate AtMost(s: seq<CombinedRow>, bound: int)
  {
    forall j :: 0 <= j < |s| ==> s[j].total <= bound
  }

  lemma AtMostPermutation(t: seq<CombinedRow>, u: seq<CombinedRow>, x: CombinedRow, bound: int)
    requires multiset(t) == multiset(u) + multiset{x}
    requires AtMost(u, bound) && x.total <= bound
    ensures AtMost(t, bound)
  {
    forall j | 0 <= j < |t| ensures t[j].total <= bound {
      assert t[j] in multiset(t);
      if t[j] != x {
        assert t[j] in multiset(u);
        var k :| 0 <= k < |u| && u[k] == t[j];
      }
    }
  }

  lemma SortedCons(h: CombinedRow, t: seq<CombinedRow>)
    requires SortedByTotal(t) && AtMost(t, h.total)
    ensures SortedByTotal([h] + t)
  {
    var s := [h] + t;
    forall i, j | 0 <= i < j < |s| ensures s[i].total >= s[j].total {
      assert s[j] == t[j - 1];
      if i > 0 {
        assert s[i] == t[i - 1];
      }
    }
  }

  function InsertByTotal(x: CombinedRow, s: seq<CombinedRow>): (r: seq<CombinedRow>)
    requires SortedByTotal(s)
    ensures SortedByTotal(r)
    ensures multiset(r) == multiset(s) + multiset{x}
  {
    if s == [] || x.total >= s[0].total then
      assert AtMost(s, x.total) by {
        if s != [] {
          forall j | 0 <= j < |s| ensures s[j].total <= x.total {
            assert j == 0 || s[0].total >= s[j].total;
          }
        }
      }
      SortedCons(x, s);
      [x] + s
    else
      var t := InsertByTotal(x, s[1..]);
      assert s == [s[0]] + s[1..];
      assert AtMost(s[1..], s[0].total) by {
        forall j | 0 <= j < |s[1..]| ensures s[1..][j].total <= s[0].total {
          assert s[1..][j] == s[j + 1];
        }
      }
      AtMostPermutation(t, s[1..], x, s[0].total);
      SortedCons(s[0], t);
      [s[0]] + t
  }

  /**
   * `sort_values(by='Total', ascending=False)`. pandas does not promise an order among
   * equal totals; this is one admissible order.
   */
  function SortByTotal(s: seq<CombinedRow>): (r: seq<CombinedRow>)
    ensures SortedByTotal(r)
    ensures multiset(r) == multiset(s)
  {
    if s == [] then []
    else
      assert s == [s[0]] + s[1..];
      InsertByTotal(s[0], SortByTotal(s[1..]))
  }

  /** A rank: a 1-based position, or the '-' of a row whose total is 0. */
  datatype Rank = Place(n: nat) | Unranked

  const Gold: string := "\U{1F947} "
  const Silver: string := "\U{1F948} "
  const Bronze: string := "\U{1F949} "

  /** The medal prefix of the first three positions. */
  function Medal(position: nat): string
  {
    if position == 1 then Gold else if position == 2 then Silver else if position == 3 then Bronze else ""
  }

  /** The rank of the row at a 1-based position. */
  function RankAt(position: nat, total: int): (r: Rank)
    ensures r == Unranked <==> total == 0
    ensures r.Place? ==> r.n == position
  {
    if total == 0 then Unranked else Place(position)
  }

  /** The new `Entity` value: a medal for ranks 1, 2 and 3 with a non-zero total. */
  function MedalLabel(rank: Rank, total: int, entity: string): (r: string)
    ensures rank.Place? && 1 <= rank.n <= 3 && total != 0 ==> r == Medal(rank.n) + entity
    ensures !(rank.Place? && 1 <= rank.n <= 3 && total != 0) ==> r == entity
  {
    if rank == Place(1) && total != 0 then Gold + entity
    else if rank == Place(2) && total != 0 then Silver + entity
    else if rank == Place(3) && total != 0 then Bronze + entity
    else entity
  }

  /**
   * A row of the ranked table: `shown` is what the source writes into `Entity`; `row` keeps
   * the other columns and the undecorated entity.
   */
  datatype RankedRow = RankedRow(rank: Rank, shown: string, row: CombinedRow)

  /** The undecorated rows of a ranked table. */
  function RowsOf(r: seq<RankedRow>): seq<CombinedRow>
  {
    seq(|r|, i requires 0 <= i < |r| => r[i].row)
  }

  /**
   * Ranks and medals over an already sorted table. The rank is '-' exactly when the total
   * is 0 and the position otherwise; a label differs from its entity exactly at the first
   * three positions with a non-zero total, where it carries that position's medal.
   */
  function AssignRanks(sorted: seq<CombinedRow>): (r: seq<RankedRow>)
    ensures |r| == |sorted| && RowsOf(r) == sorted
    ensures forall i :: 0 <= i < |r| ==> (r[i].rank == Unranked <==> sorted[i].total == 0)
    ensures forall i :: 0 <= i < |r| && sorted[i].total != 0 ==> r[i].rank == Place(i + 1)
    ensures forall i :: 0 <= i < |r| ==> (r[i].shown != sorted[i].entity <==> i < 3 && sorted[i].total != 0)
    ensures forall i :: 0 <= i < |r| && i < 3 && sorted[i].total != 0 ==> r[i].shown == Medal(i + 1) + sorted[i].entity
  {
    var r := seq(|sorted|, i requires 0 <= i < |sorted| =>
      var rank := RankAt(i + 1, sorted[i].total);
      RankedRow(rank, MedalLabel(rank, sorted[i].total, sorted[i].entity), sorted[i]));
    assert forall i :: 0 <= i < |r| ==> (r[i].shown != sorted[i].entity <==> i < 3 && sorted[i].total != 0) by {
      forall i | 0 <= i < |r| ensures r[i].shown != sorted[i].entity <==> i < 3 && sorted[i].total != 0 {
        if i < 3 && sorted[i].total != 0 {
          assert |r[i].shown| == |Medal(i + 1)| + |sorted[i].entity| > |sorted[i].entity|;
        }
      }
    }
    r
  }

  /** `display_score_ranks`: the rows sorted by total, then ranked and decorated. */
  function DisplayScoreRanks(rows: seq<CombinedRow>): (r: seq<RankedRow>)
    ensures |r| == |rows|
    ensures multiset(RowsOf(r)) == multiset(rows)
    ensures forall i, j :: 0 <= i < j < |r| ==> r[i].row.total >= r[j].row.total
    ensures forall i :: 0 <= i < |r| ==> (r[i].rank == Unranked <==> r[i].row.total == 0)
    ensures forall i :: 0 <= i < |r| && r[i].row.total != 0 ==> r[i].rank == Place(i + 1)
    ensures forall i :: 0 <= i < |r| ==> (r[i].shown != r[i].row.entity <==> i < 3 && r[i].row.total != 0)
    ensures forall i :: 0 <= i < |r| && i < 3 && r[i].row.total != 0 ==> r[i].shown == Medal(i + 1) + r[i].row.entity
  {
    var s := SortByTotal(rows);
    var r := AssignRanks(s);
    assert |s| == |multiset(s)| == |multiset(rows)| == |rows|;
    assert forall i :: 0 <= i < |r| ==> r[i].row == s[i] by {
      forall i | 0 <= i < |r| ensures r[i].row == s[i] {
        assert RowsOf(r)[i] == s[i];
      }
    }
    r
  }

  /** At most three rows carry a medal. */
  lemma AtMostThreeMedals(rows: seq<CombinedRow>)
    ensures var r := DisplayScoreRanks(rows);
      |set i | 0 <= i < |r| && r[i].shown != r[i].row.entity| <= 3
  {
    var r := DisplayScoreRanks(rows);
    var medalled := set i | 0 <= i < |r| && r[i].shown != r[i].row.entity;
    assert medalled <= {0, 1, 2};
    SubsetSize(medalled, {0, 1, 2});
  }

  lemma SubsetSize(a: set<int>, b: set<int>)
    requires a <= b
    ensures |a| <= |b|
  {
    assert b == a + (b - a);
    assert a * (b - a) == {};
  }

  /** A medalled row's total is at least that of every row past the third position. */
  lemma MedalistsLead(rows: seq<CombinedRow>, i: nat, j: nat)
    requires i < |DisplayScoreRanks(rows)| && 3 <= j < |DisplayScoreRanks(rows)|
    requires DisplayScoreRanks(rows)[i].shown != DisplayScoreRanks(rows)[i].row.entity
    ensures DisplayScoreRanks(rows)[i].row.total >= DisplayScoreRanks(rows)[j].row.total
  {
  }

  /** The gold medal goes to a row with the largest total of the input. */
  lemma {:induction false} GoldHasTopTotal(rows: seq<CombinedRow>, x: CombinedRow)
    requires x in rows
    requires |DisplayScoreRanks(rows)| > 0
    requires DisplayScoreRanks(rows)[0].shown != DisplayScoreRanks(rows)[0].row.entity
    ensures x.total <= DisplayScoreRanks(rows)[0].row.total
  {
    var r := DisplayScoreRanks(rows);
    assert x in multiset(RowsOf(r));
    var j :| 0 <= j < |RowsOf(r)| && RowsOf(r)[j] == x;
    assert r[j].row == x;
  }

  /**
   * With no negative totals every ranked row precedes every '-' row, so the ranks shown
   * are 1, 2, ..., k with no gap.
   */
  lemma RanksContiguousWhenNonNegative(rows: seq<CombinedRow>, i: nat, j: nat)
    requires forall x :: x in rows ==> x.total >= 0
    requires i < j < |DisplayScoreRanks(rows)|
    requires DisplayScoreRanks(rows)[j].rank != Unranked
    ensures DisplayScoreRanks(rows)[i].rank == Place(i + 1)
  {
    var r := DisplayScoreRanks(rows);
    assert r[j].row in multiset(rows) by {
      assert RowsOf(r)[j] == r[j].row;
    }
  }
}
