/**
 * The calculation half of `main`: one grouped sum per measure, the ratio table, the
 * inner joins into one row per entity, and the grand totals shown above the table.
 */
module Leaderboard {
  import opened Table
  import opened Aggregation
  import opened Ratio
  import opened Merge

  /** What the leaderboard row of entity `e` must hold: its four sums and its approval ratio. */
  function EntityRow(data: seq<Row>, mode: Mode, e: string): CombinedRow
  {
    var applied := SumFor(Column(data, mode, Applied), e);
    var approved := SumFor(Column(data, mode, Approved), e);
    CombinedRow(e, applied, approved, SumFor(Column(data, mode, MoUs), e),
                ApprovalRatio(approved, applied), SumFor(Column(data, mode, Points), e))
  }

  /** The leaderboard table `main` builds: the four grouped sums and the ratio table, joined. */
  function Combine(data: seq<Row>, mode: Mode): seq<CombinedRow>
  {
    var apl := Aggregate(Column(data, mode, Applied));
    var apd := Aggregate(Column(data, mode, Approved));
    ColumnKeys(data, mode, Applied);
    ColumnKeys(data, mode, Approved);
    Join(apl, apd, Aggregate(Column(data, mode, MoUs)), RatioTable(apd, apl), Aggregate(Column(data, mode, Points)))
  }

  lemma AggregateKeys(data: seq<Row>, mode: Mode, m: Measure)
    ensures Aggregate(Column(data, mode, m)).keys == Distinct(Entities(data))
    ensures forall k :: k in Entities(data) ==> k in Aggregate(Column(data, mode, m)).sums
  {
    ColumnKeys(data, mode, m);
  }

  /**
   * All four tables come from the same rows, so they share one key sequence and the inner
   * joins drop nothing: one row per distinct entity, in first-occurrence order, holding
   * that entity's sums and ratio.
   */
  lemma CombineHasEveryEntity(data: seq<Row>, mode: Mode)
    ensures |Combine(data, mode)| == |Distinct(Entities(data))|
    ensures forall i :: 0 <= i < |Combine(data, mode)| ==>
      Combine(data, mode)[i] == EntityRow(data, mode, Distinct(Entities(data))[i])
  {
    AggregateKeys(data, mode, Applied);
    AggregateKeys(data, mode, Approved);
    AggregateKeys(data, mode, MoUs);
    AggregateKeys(data, mode, Points);
    var apl := Aggregate(Column(data, mode, Applied));
    var apd := Aggregate(Column(data, mode, Approved));
    var mou := Aggregate(Column(data, mode, MoUs));
    var pts := Aggregate(Column(data, mode, Points));
    JoinSharedKeys(apl, apd, mou, pts);
    var d := Distinct(Entities(data));
    var c := Combine(data, mode);
    forall i | 0 <= i < |d| ensures c[i] == EntityRow(data, mode, d[i]) {
      var k := d[i];
      ColumnKeys(data, mode, Applied);
      ColumnKeys(data, mode, Approved);
      ColumnKeys(data, mode, MoUs);
      ColumnKeys(data, mode, Points);
      AggregateAt(Column(data, mode, Applied), k);
      AggregateAt(Column(data, mode, Approved), k);
      AggregateAt(Column(data, mode, MoUs), k);
      AggregateAt(Column(data, mode, Points), k);
    }
  }

  /** Every entity of the input has exactly one row in the leaderboard table. */
  lemma CombineKeepsEachEntityOnce(data: seq<Row>, mode: Mode)
    ensures forall e :: e in Entities(data) <==> exists i :: 0 <= i < |Combine(data, mode)| && Combine(data, mode)[i].entity == e
    ensures forall i, j :: 0 <= i < j < |Combine(data, mode)| ==> Combine(data, mode)[i].entity != Combine(data, mode)[j].entity
  {
    CombineHasEveryEntity(data, mode);
    var d := Distinct(Entities(data));
    var c := Combine(data, mode);
    forall e | e in Entities(data) ensures exists i :: 0 <= i < |c| && c[i].entity == e {
      var i :| 0 <= i < |d| && d[i] == e;
      assert c[i].entity == e;
    }
  }

  /**
   * The calculation half of `main`. The grand totals equal the column totals of the raw
   * rows, and the joined table is `Combine`.
   */
  method BuildLeaderboard(data: seq<Row>, mode: Mode)
    returns (combined: seq<CombinedRow>, totalApproved: int, totalApplied: int, totalMou: int)
    ensures combined == Combine(data, mode)
    ensures totalApproved == ColumnTotal(Column(data, mode, Approved))
    ensures totalApplied == ColumnTotal(Column(data, mode, Applied))
    ensures totalMou == ColumnTotal(Column(data, mode, MoUs))
  {
    var apl := AggregateSum(Column(data, mode, Applied));
    var apd := AggregateSum(Column(data, mode, Approved));
    var mou := AggregateSum(Column(data, mode, MoUs));
    ColumnKeys(data, mode, Applied);
    ColumnKeys(data, mode, Approved);
    var ratios := RatioTable(apd, apl);
    var pts := AggregateSum(Column(data, mode, Points));
    combined := Join(apl, apd, mou, ratios, pts);
    totalApproved := GrandTotal(apd);
    totalApplied := GrandTotal(apl);
    totalMou := GrandTotal(mou);
    Conservation(Column(data, mode, Approved));
    Conservation(Column(data, mode, Applied));
    Conservation(Column(data, mode, MoUs));
  }
}
