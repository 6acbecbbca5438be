/** Rows of the spreadsheet export and the measure columns the leaderboard reads. */
module Table {

  /** The column family the dashboard reads: "Total ..." columns or "Daily ..." columns. */
  datatype Mode = TotalNumbers | DailyNumbers

  /** The measure names that follow the mode prefix in a column name. */
  datatype Measure = Applied | Approved | MoUs | SUs | AplApd | Points

  /** One family of measure columns of a row. `Points` is the column named "<mode> Total". */
  datatype Measures = Measures(applied: int, approved: int, mous: int, sus: int, aplApd: int, points: int)

  /** One row of the export: the grouping key `Entity`, the `Function` column (`func`) and both column families. */
  datatype Row = Row(entity: string, func: string, totals: Measures, daily: Measures)

  /** The value of column "<mode> <measure>" of a row. */
  function Value(r: Row, mode: Mode, m: Measure): int
  {
    var ms := if mode == TotalNumbers then r.totals else r.daily;
    match m
    case Applied => ms.applied
    case Approved => ms.approved
    case MoUs => ms.mous
    case SUs => ms.sus
    case AplApd => ms.aplApd
    case Points => ms.points
  }

  /** A (key, value) pair: what one iteration of a grouping loop reads from a row. */
  datatype Entry = Entry(entity: string, value: int)

  /** The `Entity` column paired with one measure column, row by row. */
  function Column(rows: seq<Row>, mode: Mode, m: Measure): seq<Entry>
  {
    seq(|rows|, i requires 0 <= i < |rows| => Entry(rows[i].entity, Value(rows[i], mode, m)))
  }

  /** The `Entity` column of the rows. */
  function Entities(rows: seq<Row>): seq<string>
  {
    seq(|rows|, i requires 0 <= i < |rows| => rows[i].entity)
  }

  /** The keys of a sequence of entries. */
  function Keys(s: seq<Entry>): seq<string>
  {
    seq(|s|, i requires 0 <= i < |s| => s[i].entity)
  }

  /** `a` is `b` with some elements left out and the others kept in their order. */
  predicate SubsequenceOf<T(==)>(a: seq<T>, b: seq<T>)
    decreases |b|
  {
    if b == [] then a == []
    else (SubsequenceOf(a, b[..|b| - 1])
          || (a != [] && a[|a| - 1] == b[|b| - 1] && SubsequenceOf(a[..|a| - 1], b[..|b| - 1])))
  }

  /** Every measure column of the same rows carries the same keys, in the same order. */
  lemma ColumnKeys(rows: seq<Row>, mode: Mode, m: Measure)
    ensures Keys(Column(rows, mode, m)) == Entities(rows)
  {
  }

  lemma ColumnAppend(rows: seq<Row>, x: Row, mode: Mode, m: Measure)
    ensures Column(rows + [x], mode, m) == Column(rows, mode, m) + [Entry(x.entity, Value(x, mode, m))]
  {
  }

  lemma KeysAppend(s: seq<Entry>, x: Entry)
    ensures Keys(s + [x]) == Keys(s) + [x.entity]
  {
  }
}
