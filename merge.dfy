/**
 * The chain of inner joins on `Entity` in `main` that puts the per-entity tables side
 * by side: applications, approvals, MoUs, the ratio table and the points.
 */
module Merge {
  import opened Table
  import opened Aggregation
  import opened Ratio

  datatype Option<T> = None | Some(value: T)

  /** One row of the joined table, in the order of its columns. */
  datatype CombinedRow = CombinedRow(entity: string, applied: int, approved: int, mous: int, ratio: Float, total: int)

  /** The ratio of the first row of the ratio table whose entity is `k`, if any. */
  function FindRatio(rs: seq<RatioRow>, k: string): (o: Option<Float>)
    ensures o.Some? <==> exists i :: 0 <= i < |rs| && rs[i].entity == k
  {
    if rs == [] then None
    else if rs[0].entity == k then Some(rs[0].ratio)
    else
      var o := FindRatio(rs[1..], k);
      assert (exists i :: 0 <= i < |rs| && rs[i].entity == k) ==> exists i :: 0 <= i < |rs[1..]| && rs[1..][i].entity == k by {
        if exists i :: 0 <= i < |rs| && rs[i].entity == k {
          var i :| 0 <= i < |rs| && rs[i].entity == k;
          assert rs[1..][i - 1].entity == k;
        }
      }
      o
  }

  /** A row found by its entity is the row at the entity's first position. */
  lemma {:induction false} FindRatioAt(rs: seq<RatioRow>, i: nat)
    requires i < |rs|
    requires forall j :: 0 <= j < i ==> rs[j].entity != rs[i].entity
    ensures FindRatio(rs, rs[i].entity) == Some(rs[i].ratio)
  {
    if i > 0 {
      FindRatioAt(rs[1..], i - 1);
    }
  }

  /** `k` has a row in each table the left table is joined with. */
  predicate InAll(k: string, apd: Tally, mou: Tally, ratios: seq<RatioRow>, pts: Tally)
  {
    k in apd.sums && k in mou.sums && FindRatio(ratios, k).Some? && k in pts.sums
  }

  /** The `Entity` column of a joined table. */
  function Names(r: seq<CombinedRow>): seq<string>
  {
    seq(|r|, i requires 0 <= i < |r| => r[i].entity)
  }

  /**
   * The inner joins, walking the left table's keys in order: pandas keeps the order of
   * the left keys, and a key missing from any right table drops its row. A key is in
   * the result exactly when it is a left key present in every right table.
   */
  function JoinKeys(keys: seq<string>, apl: Tally, apd: Tally, mou: Tally, ratios: seq<RatioRow>, pts: Tally): (r: seq<CombinedRow>)
    requires forall k :: k in keys ==> k in apl.sums
    ensures |r| <= |keys|
    ensures forall k :: k in Names(r) <==> k in keys && InAll(k, apd, mou, ratios, pts)
  {
    if keys == [] then []
    else
      var p, k := keys[..|keys| - 1], keys[|keys| - 1];
      assert keys == p + [k];
      var rp := JoinKeys(p, apl, apd, mou, ratios, pts);
      if InAll(k, apd, mou, ratios, pts) then
        var row := CombinedRow(k, apl.sums[k], apd.sums[k], mou.sums[k], FindRatio(ratios, k).value, pts.sums[k]);
        assert Names(rp + [row]) == Names(rp) + [k];
        rp + [row]
      else rp
  }

  /**
   * The rows the joins keep: each is a left key with every table's value for it, and
   * the kept keys appear in the order of the left table.
   */
  lemma {:induction false} JoinRowsInLeftOrder(keys: seq<string>, apl: Tally, apd: Tally, mou: Tally, ratios: seq<RatioRow>, pts: Tally)
    requires forall k :: k in keys ==> k in apl.sums
    ensures SubsequenceOf(Names(JoinKeys(keys, apl, apd, mou, ratios, pts)), keys)
    ensures forall i :: 0 <= i < |JoinKeys(keys, apl, apd, mou, ratios, pts)| ==>
      var r := JoinKeys(keys, apl, apd, mou, ratios, pts);
      var k := r[i].entity;
      k in apl.sums && InAll(k, apd, mou, ratios, pts)
      && r[i] == CombinedRow(k, apl.sums[k], apd.sums[k], mou.sums[k], FindRatio(ratios, k).value, pts.sums[k])
  {
    if keys != [] {
      var p, k := keys[..|keys| - 1], keys[|keys| - 1];
      assert keys == p + [k];
      JoinRowsInLeftOrder(p, apl, apd, mou, ratios, pts);
      var rp := JoinKeys(p, apl, apd, mou, ratios, pts);
      var r := JoinKeys(keys, apl, apd, mou, ratios, pts);
      if InAll(k, apd, mou, ratios, pts) {
        var row := CombinedRow(k, apl.sums[k], apd.sums[k], mou.sums[k], FindRatio(ratios, k).value, pts.sums[k]);
        assert r == rp + [row];
        assert Names(r) == Names(rp) + [k];
        assert Names(r)[..|Names(r)| - 1] == Names(rp);
      } else {
        assert r == rp;
      }
    }
  }

  function Join(apl: Tally, apd: Tally, mou: Tally, ratios: seq<RatioRow>, pts: Tally): seq<CombinedRow>
    requires Valid(apl)
  {
    JoinKeys(apl.keys, apl, apd, mou, ratios, pts)
  }

  /** When every right table holds every left key, the join keeps each left row, in order. */
  lemma {:induction false} JoinKeepsEveryKey(keys: seq<string>, apl: Tally, apd: Tally, mou: Tally, ratios: seq<RatioRow>, pts: Tally)
    requires forall k :: k in keys ==> k in apl.sums && InAll(k, apd, mou, ratios, pts)
    ensures |JoinKeys(keys, apl, apd, mou, ratios, pts)| == |keys|
    ensures forall i :: 0 <= i < |keys| ==>
      var k := keys[i];
      JoinKeys(keys, apl, apd, mou, ratios, pts)[i]
        == CombinedRow(k, apl.sums[k], apd.sums[k], mou.sums[k], FindRatio(ratios, k).value, pts.sums[k])
  {
    if keys != [] {
      var p, k := keys[..|keys| - 1], keys[|keys| - 1];
      assert keys == p + [k];
      assert forall k' :: k' in p ==> k' in keys;
      JoinKeepsEveryKey(p, apl, apd, mou, ratios, pts);
      assert InAll(k, apd, mou, ratios, pts);
      assert JoinKeys(keys, apl, apd, mou, ratios, pts) == JoinKeys(p, apl, apd, mou, ratios, pts)
        + [CombinedRow(k, apl.sums[k], apd.sums[k], mou.sums[k], FindRatio(ratios, k).value, pts.sums[k])];
    }
  }

  /**
   * Tables that list the same keys in the same order join into one row per key, and the
   * ratio table built from two of them gives each key its own ratio.
   */
  lemma JoinSharedKeys(apl: Tally, apd: Tally, mou: Tally, pts: Tally)
    requires Valid(apl) && Valid(apd) && Valid(mou) && Valid(pts)
    requires apd.keys == apl.keys && mou.keys == apl.keys && pts.keys == apl.keys
    ensures |Join(apl, apd, mou, RatioTable(apd, apl), pts)| == |apl.keys|
    ensures forall i :: 0 <= i < |apl.keys| ==>
      var k := apl.keys[i];
      Join(apl, apd, mou, RatioTable(apd, apl), pts)[i]
        == CombinedRow(k, apl.sums[k], apd.sums[k], mou.sums[k], ApprovalRatio(apd.sums[k], apl.sums[k]), pts.sums[k])
  {
    var ratios := RatioTable(apd, apl);
    RatiosFound(apd, apl);
    JoinKeepsEveryKey(apl.keys, apl, apd, mou, ratios, pts);
  }

  /** In a ratio table built from tables with one key sequence, each key finds its own ratio. */
  lemma RatiosFound(apd: Tally, apl: Tally)
    requires Valid(apd) && Valid(apl) && apd.keys == apl.keys
    ensures forall k :: k in apl.keys ==> FindRatio(RatioTable(apd, apl), k) == Some(ApprovalRatio(apd.sums[k], apl.sums[k]))
  {
    var d := apl.keys;
    var ratios := RatioTable(apd, apl);
    forall k | k in d ensures FindRatio(ratios, k) == Some(ApprovalRatio(apd.sums[k], apl.sums[k])) {
      var i :| 0 <= i < |d| && d[i] == k;
      FindRatioAt(ratios, i);
    }
  }
}
