/**
 * The data half of `applied_to_approved_ratio_bar_chart_and_data`: approvals as a
 * percentage of applications per entity, with +inf and NaN replaced by 0.
 */
module Ratio {
  import opened Aggregation

  /** The outcome of a floating-point division: a finite value, an infinity or NaN. */
  datatype Float = Finite(value: real) | PlusInfinity | MinusInfinity | NotANumber

  /** IEEE 754 division of two finite operands, over exact reals (no rounding). */
  function Divide(n: real, d: real): (r: Float)
    ensures r.Finite? <==> d != 0.0
    ensures r.Finite? ==> r.value * d == n
    ensures r == PlusInfinity <==> d == 0.0 && n > 0.0
    ensures r == MinusInfinity <==> d == 0.0 && n < 0.0
    ensures r == NotANumber <==> d == 0.0 && n == 0.0
  {
    if d != 0.0 then Finite(n / d)
    else if n > 0.0 then PlusInfinity
    else if n < 0.0 then MinusInfinity
    else NotANumber
  }

  /** `.replace([float('inf'), float('nan')], 0)`: -inf is not in the list and survives. */
  function ReplaceInfNaN(f: Float): (r: Float)
    ensures r != PlusInfinity && r != NotANumber
    ensures f.Finite? || f == MinusInfinity ==> r == f
    ensures f == PlusInfinity || f == NotANumber ==> r == Finite(0.0)
  {
    if f == PlusInfinity || f == NotANumber then Finite(0.0) else f
  }

  /**
   * `approved * 100 / applied` with the zero guard: never +inf or NaN; zero applications
   * give 0 unless the approvals are negative, in which case -inf is kept.
   */
  function ApprovalRatio(approved: int, applied: int): (r: Float)
    ensures r != PlusInfinity && r != NotANumber
    ensures applied == 0 && approved >= 0 ==> r == Finite(0.0)
    ensures r == MinusInfinity <==> applied == 0 && approved < 0
    ensures applied != 0 ==> r == Finite((approved * 100) as real / applied as real)
  {
    ReplaceInfNaN(Divide((approved * 100) as real, applied as real))
  }

  /** With no more approvals than applications, the ratio is a percentage. */
  lemma RatioIsPercentage(approved: int, applied: int)
    requires 0 <= approved <= applied && 0 < applied
    ensures ApprovalRatio(approved, applied).Finite?
    ensures 0.0 <= ApprovalRatio(approved, applied).value <= 100.0
  {
    var n, d := (approved * 100) as real, applied as real;
    assert 0.0 <= n <= 100.0 * d;
    assert 0.0 <= n / d <= (100.0 * d) / d == 100.0;
    assert ApprovalRatio(approved, applied) == Finite(n / d);
  }

  /** One row of the ratio table: `Entity` and `APL_to_APD`. */
  datatype RatioRow = RatioRow(entity: string, ratio: Float)

  /**
   * The ratio table: entities come from the approvals table, and the division pairs the
   * two tables row by row (pandas aligns the two columns on their position, not on Entity).
   * When both tables list their entities in the same order, every entity is divided by its
   * own applications.
   */
  function RatioTable(apd: Tally, apl: Tally): (r: seq<RatioRow>)
    requires Valid(apd) && Valid(apl) && |apd.keys| == |apl.keys|
    ensures |r| == |apd.keys|
    ensures forall i :: 0 <= i < |r| ==> r[i].entity == apd.keys[i]
    ensures forall i :: 0 <= i < |r| ==> r[i].ratio == ApprovalRatio(apd.sums[apd.keys[i]], apl.sums[apl.keys[i]])
    ensures apd.keys == apl.keys ==>
      forall i :: 0 <= i < |r| ==> r[i].ratio == ApprovalRatio(apd.sums[r[i].entity], apl.sums[r[i].entity])
  {
    seq(|apd.keys|, i requires 0 <= i < |apd.keys| =>
      RatioRow(apd.keys[i], ApprovalRatio(apd.sums[apd.keys[i]], apl.sums[apl.keys[i]])))
  }
}
