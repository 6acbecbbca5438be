/**
 * Per-entity grouped summation: the loop shared by `calculate_total_applied`,
 * `calculate_total_approved`, `calculate_total_mou` and `calulate_total_points`.
 * Each walks the rows and keeps a dict keyed by entity: the first row of an entity
 * creates its entry, later rows add to it. A Python dict keeps insertion order, so
 * the result is modelled as a key sequence (first-occurrence order) plus a map.
 */
module Aggregation {
  import opened Table

  predicate NoDuplicates(s: seq<string>)
  {
    forall i, j :: 0 <= i < j < |s| ==> s[i] != s[j]
  }

  /** The distinct values of `s`, each once, in order of first occurrence. */
  function Distinct(s: seq<string>): (d: seq<string>)
    ensures NoDuplicates(d)
    ensures forall x :: x in d <==> x in s
  {
    if s == [] then []
    else
      var p := s[..|s| - 1];
      assert forall x :: x in s <==> x in p || x == s[|s| - 1] by {
        assert s == p + [s[|s| - 1]];
      }
      var dp := Distinct(p);
      if s[|s| - 1] in dp then dp else dp + [s[|s| - 1]]
  }

  /** Position of the first occurrence of `x` in `s`. */
  function FirstIndex(s: seq<string>, x: string): (k: nat)
    requires x in s
    ensures k < |s| && s[k] == x && x !in s[..k]
  {
    if s[0] == x then 0
    else
      var k := 1 + FirstIndex(s[1..], x);
      assert s[..k] == [s[0]] + s[1..][..k - 1];
      k
  }

  lemma {:induction false} FirstIndexUnique(s: seq<string>, x: string, k: nat)
    requires k < |s| && s[k] == x && x !in s[..k]
    ensures FirstIndex(s, x) == k
  {
    if s[0] != x {
      assert s[1..][..k - 1] == s[..k][1..];
      FirstIndexUnique(s[1..], x, k - 1);
    }
  }

  /** Extending a sequence does not move the first occurrence of a value it already holds. */
  lemma FirstIndexExtend(p: seq<string>, y: string, x: string)
    requires x in p
    ensures FirstIndex(p + [y], x) == FirstIndex(p, x)
  {
    var k := FirstIndex(p, x);
    assert (p + [y])[..k] == p[..k];
    FirstIndexUnique(p + [y], x, k);
  }

  /** Keys leave the dict in the order in which their first rows appear in the input. */
  lemma {:induction false} DistinctFirstOccurrenceOrder(s: seq<string>, i: nat, j: nat)
    requires i < j < |Distinct(s)|
    ensures FirstIndex(s, Distinct(s)[i]) < FirstIndex(s, Distinct(s)[j])
  {
    var p, y := s[..|s| - 1], s[|s| - 1];
    assert s == p + [y];
    var d := Distinct(p);
    var di, dj := Distinct(s)[i], Distinct(s)[j];
    if y in d {
      DistinctFirstOccurrenceOrder(p, i, j);
      FirstIndexExtend(p, y, di);
      FirstIndexExtend(p, y, dj);
    } else if j < |d| {
      DistinctFirstOccurrenceOrder(p, i, j);
      FirstIndexExtend(p, y, di);
      FirstIndexExtend(p, y, dj);
    } else {
      assert dj == y && y !in p;
      FirstIndexUnique(s, y, |p|);
      FirstIndexExtend(p, y, di);
    }
  }

  /** The sum of the values of the entries keyed `e`. */
  function SumFor(s: seq<Entry>, e: string): int
  {
    if s == [] then 0
    else SumFor(s[..|s| - 1], e) + (if s[|s| - 1].entity == e then s[|s| - 1].value else 0)
  }

  /** The sum of a whole column. */
  function ColumnTotal(s: seq<Entry>): int
  {
    if s == [] then 0 else ColumnTotal(s[..|s| - 1]) + s[|s| - 1].value
  }

  /** A key that no entry carries sums to zero. */
  lemma {:induction false} SumForAbsent(s: seq<Entry>, e: string)
    requires e !in Keys(s)
    ensures SumFor(s, e) == 0
  {
    if s != [] {
      assert Keys(s[..|s| - 1]) == Keys(s)[..|s| - 1];
      assert Keys(s)[|s| - 1] == s[|s| - 1].entity;
      SumForAbsent(s[..|s| - 1], e);
    }
  }

  lemma SumForAppend(s: seq<Entry>, x: Entry, e: string)
    ensures SumFor(s + [x], e) == SumFor(s, e) + (if x.entity == e then x.value else 0)
  {
    assert (s + [x])[..|s|] == s;
  }

  /** A dict with insertion-ordered keys. */
  datatype Tally = Tally(keys: seq<string>, sums: map<string, int>)

  /** The keys are listed once each and are exactly the keys of the map. */
  ghost predicate Valid(t: Tally)
  {
    NoDuplicates(t.keys) && forall k :: k in t.sums <==> k in t.keys
  }

  /**
   * The dict the grouping loop builds: one key per distinct entity of the input,
   * in first-occurrence order, holding the sum of that entity's values.
   */
  function Aggregate(s: seq<Entry>): (t: Tally)
    ensures Valid(t)
    ensures forall k :: k in t.sums <==> exists i :: 0 <= i < |s| && s[i].entity == k
  {
    var t := Tally(Distinct(Keys(s)), map k | k in Keys(s) :: SumFor(s, k));
    assert forall k :: k in Keys(s) <==> exists i :: 0 <= i < |s| && s[i].entity == k by {
      forall k | k in Keys(s) ensures exists i :: 0 <= i < |s| && s[i].entity == k {
        var i :| 0 <= i < |s| && Keys(s)[i] == k;
      }
      forall k | exists i :: 0 <= i < |s| && s[i].entity == k ensures k in Keys(s) {
        var i :| 0 <= i < |s| && s[i].entity == k;
        assert Keys(s)[i] == k;
      }
    }
    t
  }

  lemma AggregateAt(s: seq<Entry>, k: string)
    requires k in Keys(s)
    ensures k in Aggregate(s).sums && Aggregate(s).sums[k] == SumFor(s, k)
  {
  }

  /** `keys` and `sums` are the dict the grouping loop has built after reading `s`. */
  ghost predicate Tallies(keys: seq<string>, sums: map<string, int>, s: seq<Entry>)
  {
    && keys == Distinct(Keys(s))
    && (forall k :: k in sums <==> k in Keys(s))
    && (forall k :: k in sums ==> sums[k] == SumFor(s, k))
  }

  /** One iteration of the loop: insert on first sight of a key, add to its entry afterwards. */
  lemma TallyStep(keys: seq<string>, sums: map<string, int>, s: seq<Entry>, x: Entry)
    requires Tallies(keys, sums, s)
    ensures x.entity !in sums ==> Tallies(keys + [x.entity], sums[x.entity := x.value], s + [x])
    ensures x.entity in sums ==> Tallies(keys, sums[x.entity := sums[x.entity] + x.value], s + [x])
  {
    KeysAppend(s, x);
    assert Keys(s + [x])[..|s|] == Keys(s);
    forall k ensures SumFor(s + [x], k) == SumFor(s, k) + (if x.entity == k then x.value else 0) {
      SumForAppend(s, x, k);
    }
    if x.entity !in sums {
      SumForAbsent(s, x.entity);
    }
  }

  lemma TalliesAggregate(keys: seq<string>, sums: map<string, int>, s: seq<Entry>)
    requires Tallies(keys, sums, s)
    ensures Tally(keys, sums) == Aggregate(s)
  {
  }

  /** The grouping loop of leaderboard.py: insert on first sight of a key, add afterwards. */
  method AggregateSum(entries: seq<Entry>) returns (t: Tally)
    ensures t == Aggregate(entries)
  {
    var keys: seq<string> := [];
    var sums: map<string, int> := map[];
    for i := 0 to |entries|
      invariant Tallies(keys, sums, entries[..i])
    {
      var x := entries[i];
      assert entries[..i + 1] == entries[..i] + [x];
      TallyStep(keys, sums, entries[..i], x);
      if x.entity !in sums {
        sums := sums[x.entity := x.value];
        keys := keys + [x.entity];
      } else {
        sums := sums[x.entity := sums[x.entity] + x.value];
      }
    }
    assert entries[..|entries|] == entries;
    TalliesAggregate(keys, sums, entries);
    t := Tally(keys, sums);
  }

  /** The `.sum()` of a per-entity column: the values of a dict summed in key order. */
  function GrandTotal(t: Tally): int
    requires Valid(t)
  {
    SumKeys(t.keys, t.sums)
  }

  function SumKeys(keys: seq<string>, sums: map<string, int>): int
    requires forall k :: k in keys ==> k in sums
  {
    if keys == [] then 0 else SumKeys(keys[..|keys| - 1], sums) + sums[keys[|keys| - 1]]
  }

  /** The sum of the per-key sums of `s` over the listed keys. */
  function SumOver(keys: seq<string>, s: seq<Entry>): int
  {
    if keys == [] then 0 else SumOver(keys[..|keys| - 1], s) + SumFor(s, keys[|keys| - 1])
  }

  lemma {:induction false} SumKeysIsSumOver(keys: seq<string>, sums: map<string, int>, s: seq<Entry>)
    requires forall k :: k in keys ==> k in sums && sums[k] == SumFor(s, k)
    ensures SumKeys(keys, sums) == SumOver(keys, s)
  {
    if keys != [] {
      SumKeysIsSumOver(keys[..|keys| - 1], sums, s);
    }
  }

  /** One more entry adds its value to exactly one of a set of distinct keys, or to none. */
  lemma {:induction false} SumOverAppend(keys: seq<string>, s: seq<Entry>, x: Entry)
    requires NoDuplicates(keys)
    ensures SumOver(keys, s + [x]) == SumOver(keys, s) + (if x.entity in keys then x.value else 0)
  {
    if keys != [] {
      var p, k := keys[..|keys| - 1], keys[|keys| - 1];
      assert keys == p + [k];
      SumOverAppend(p, s, x);
      SumForAppend(s, x, k);
      assert x.entity == k ==> x.entity !in p;
    }
  }

  lemma {:induction false} SumOverDistinct(s: seq<Entry>)
    ensures SumOver(Distinct(Keys(s)), s) == ColumnTotal(s)
  {
    if s != [] {
      var p, x := s[..|s| - 1], s[|s| - 1];
      assert s == p + [x];
      KeysAppend(p, x);
      assert Keys(s)[..|s| - 1] == Keys(p);
      var d := Distinct(Keys(p));
      SumOverDistinct(p);
      SumOverAppend(d, p, x);
      if x.entity !in d {
        SumForAppend(p, x, x.entity);
        SumForAbsent(p, x.entity);
      }
    }
  }

  /** Conservation: the column total of an aggregate equals the column total of the raw rows. */
  lemma Conservation(s: seq<Entry>)
    ensures GrandTotal(Aggregate(s)) == ColumnTotal(s)
  {
    var t := Aggregate(s);
    SumKeysIsSumOver(t.keys, t.sums, s);
    SumOverDistinct(s);
  }

  lemma {:induction false} SumForConcat(a: seq<Entry>, b: seq<Entry>, e: string)
    ensures SumFor(a + b, e) == SumFor(a, e) + SumFor(b, e)
  {
    if b == [] {
      assert a + b == a;
    } else {
      var p, x := b[..|b| - 1], b[|b| - 1];
      assert a + b == (a + p) + [x];
      assert (a + b)[..|a + b| - 1] == a + p;
      assert b == p + [x];
      SumForConcat(a, p, e);
      SumForAppend(a + p, x, e);
      SumForAppend(p, x, e);
    }
  }

  /** Taking the entry at position `k` out of `b` removes exactly its contribution. */
  lemma SumForRemove(b: seq<Entry>, k: nat, e: string)
    requires k < |b|
    ensures SumFor(b, e) == SumFor(b[..k] + b[k + 1..], e) + (if b[k].entity == e then b[k].value else 0)
  {
    assert b == (b[..k] + [b[k]]) + b[k + 1..];
    SumForConcat(b[..k] + [b[k]], b[k + 1..], e);
    SumForConcat(b[..k], b[k + 1..], e);
    SumForAppend(b[..k], b[k], e);
  }

  lemma MultisetRemove(b: seq<Entry>, k: nat)
    requires k < |b|
    ensures multiset(b[..k] + b[k + 1..]) == multiset(b) - multiset{b[k]}
  {
    assert b == b[..k] + [b[k]] + b[k + 1..];
  }

  /** A per-entity sum does not depend on the order of the rows. */
  lemma {:induction false} SumForPermutation(a: seq<Entry>, b: seq<Entry>, e: string)
    requires multiset(a) == multiset(b)
    ensures SumFor(a, e) == SumFor(b, e)
  {
    if a == [] {
      assert |b| == |multiset(b)| == 0;
    } else {
      var p, x := a[..|a| - 1], a[|a| - 1];
      assert a == p + [x];
      assert x in multiset(b);
      var k :| 0 <= k < |b| && b[k] == x;
      MultisetRemove(b, k);
      MultisetRemove(a, |a| - 1);
      SumForPermutation(p, b[..k] + b[k + 1..], e);
      SumForRemove(b, k, e);
      SumForAppend(p, x, e);
    }
  }

  /** Reordering the input rows changes only the key order of an aggregate, not its sums. */
  lemma AggregateOrderIndependent(a: seq<Entry>, b: seq<Entry>)
    requires multiset(a) == multiset(b)
    ensures Aggregate(a).sums == Aggregate(b).sums
  {
    forall k ensures k in Keys(a) <==> k in Keys(b) {
      if k in Keys(a) {
        var i :| 0 <= i < |a| && a[i].entity == k;
        assert a[i] in multiset(b);
        var j :| 0 <= j < |b| && b[j] == a[i];
        assert Keys(b)[j] == k;
      }
      if k in Keys(b) {
        var j :| 0 <= j < |b| && b[j].entity == k;
        assert b[j] in multiset(a);
        var i :| 0 <= i < |a| && a[i] == b[j];
        assert Keys(a)[i] == k;
      }
    }
    forall k | k in Keys(a) ensures SumFor(a, k) == SumFor(b, k) {
      SumForPermutation(a, b, k);
    }
  }
}
