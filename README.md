# Leaderboard aggregation and ranking, modelled in Dafny

The dashboard in `leaderboard.py` reads a spreadsheet export with one row per record:
an `Entity` (the grouping key), a `Function`, and measure columns named
`"<mode> <measure>"` (`Total Applied`, `Total Approved`, `Total MoUs`, `Total SUs`,
`Total %APL-APD`, `Total Total`, and the `Daily ...` family). From these rows it

1. sums each of four measures per entity with one copy of the same loop
   (`calculate_total_applied`, `calculate_total_approved`, `calculate_total_mou`,
   `calulate_total_points`), a dict whose keys keep their first-occurrence order;
2. defines functions that sum one measure per entity over the rows of a selected
   `Function` (`count_*_by_entity` and `count_applied_to_approved_ratio`,
   leaderboard.py:71-101: a filter followed by a pandas `groupby`). `main` never calls
   them: the `Function` select box (leaderboard.py:530-531) and all four calls
   (leaderboard.py:537, :545, :555, :564) are commented out. The model covers these
   functions as they are defined;
3. divides approvals by applications per entity, times 100, and replaces `+inf` and
   `NaN` by 0;
4. joins the per-entity tables on `Entity` and totals three columns (`main`);
5. sorts the joined rows by `Total`, ranks them by position, writes `'-'` for a zero
   total, and puts 🥇/🥈/🥉 before the entity of the first three positions with a
   non-zero total (`display_score_ranks`).

The model has one module per stage:

- `table.dfy` (`Table`): rows, the mode and measure selectors, the `(entity, value)`
  column a grouping loop reads.
- `aggregation.dfy` (`Aggregation`): the grouping loop as the method `AggregateSum`,
  proved equal to the specification `Aggregate` (distinct keys in first-occurrence
  order, each with the sum over exactly its rows), plus conservation of totals and
  independence from row order.
- `function_counts.dfy` (`FunctionCounts`): filter on `Function`, then group-sum; a map,
  because pandas `groupby` sorts its keys and no order is modelled.
- `ratio.dfy` (`Ratio`): the IEEE outcomes of the division as a datatype and the
  `inf`/`NaN` replacement.
- `merge.dfy` (`Merge`): the inner joins on `Entity`.
- `leaderboard.dfy` (`Leaderboard`): the calculation half of `main`.
- `ranking.dfy` (`Ranking`): sort, rank, `'-'` sentinel and medals.

Some behaviour of the code that the model states as it is:

- Rows with equal totals come out in no promised order: `sort_values` uses pandas'
  default quicksort, which is not stable (leaderboard.py:106). So the model promises only
  "sorted by total, descending, and a permutation of the input".
- A rank is the row's 1-based position (leaderboard.py:107), so the shown ranks skip
  the positions of rows with a zero total when such rows come before ranked ones.
- Only `+inf` and `NaN` are replaced by 0 (leaderboard.py:173-174), so a negative
  numerator over 0 stays `-inf`.
- The ratio table does not pair the two tables by `Entity`. pandas aligns the two
  columns on their row position (leaderboard.py:168-169). `Ratio.RatioTable` models
  this positional pairing. `Merge.JoinSharedKeys` and `Leaderboard.CombineHasEveryEntity`
  show that the pairing is correct because every aggregate lists the same keys in the
  same order.

## Model

| member | source | states |
|---|---|---|
| `Table.ColumnKeys` | leaderboard.py:26-28 | every measure column of the same rows carries the same entity keys in the same order |
| `Aggregation.Distinct` | leaderboard.py:29-32 | the dict's keys: no key twice, and a value is a key exactly when some row carries it |
| `Aggregation.FirstIndex` | leaderboard.py:29-30 | the position returned holds the value and no earlier position does |
| `Aggregation.DistinctFirstOccurrenceOrder` | leaderboard.py:29-32 | keys are ordered by the position of their entity's first row in the input |
| `Aggregation.SumForAbsent` | leaderboard.py:29-30 | an entity with no rows contributes nothing, so creating an entry with the first value equals adding it to 0 |
| `Aggregation.Aggregate` | leaderboard.py:24-33 | the dict is well formed, and an entity is a key exactly when some input row carries it |
| `Aggregation.TallyStep` | leaderboard.py:29-32 | one iteration: a new entity is appended with its value, a known entity has the value added, and the dict then describes one more row |
| `Aggregation.AggregateSum` | leaderboard.py:24-69 | the loop's dict has the distinct entities in first-occurrence order, each mapped to the sum of the measure over exactly its rows |
| `Aggregation.Conservation` | leaderboard.py:486-488 | `GrandTotal`, the sum of an aggregate's values, equals the sum of the measure over all input rows |
| `Aggregation.SumForConcat` | leaderboard.py:26-32 | a per-entity sum over two runs of rows is the sum of the two per-entity sums |
| `Aggregation.SumForPermutation` | leaderboard.py:26-32 | reordering the rows does not change any per-entity sum |
| `Aggregation.AggregateOrderIndependent` | leaderboard.py:24-33 | reordering the rows changes only the key order of the dict, not its keys or sums |
| `FunctionCounts.FilterFunction` | leaderboard.py:72 | a row is kept exactly when it is an input row whose `Function` is the selected one |
| `FunctionCounts.FilterKeepsEveryMatch` | leaderboard.py:72 | the filter keeps every row of the selected function as many times as it occurs, drops every other row, and keeps the kept rows in their input order |
| `FunctionCounts.FilteredSum` | leaderboard.py:72-73 | group-summing the filtered rows equals summing over the rows with both the entity and the selected function |
| `FunctionCounts.CountByEntity` | leaderboard.py:71-101 | an entity is in the result exactly when it has a row of the selected function, and its value is the sum over those rows only |
| `Ratio.Divide` | leaderboard.py:169 | the IEEE outcome of a division: finite exactly when the divisor is not 0, and then the quotient times the divisor is the dividend; over 0, `+inf`, `-inf` or `NaN` by the sign of the dividend |
| `Ratio.ReplaceInfNaN` | leaderboard.py:173-174 | the result is never `+inf` or `NaN`; those two become 0, and a finite value or `-inf` is left unchanged |
| `Ratio.ApprovalRatio` | leaderboard.py:169-174 | the ratio is never `+inf` or `NaN`; 0 when applications are 0 and approvals are not negative; `-inf` exactly when applications are 0 and approvals negative; otherwise approvals×100/applications |
| `Ratio.RatioIsPercentage` | leaderboard.py:169 | with 0 ≤ approvals ≤ applications and applications > 0 the ratio is finite and between 0 and 100 |
| `Ratio.RatioTable` | leaderboard.py:166-170 | one row per approvals key, in its order; row i divides the approvals of the i-th approvals key by the applications of the i-th applications key (pairing by position); so when both tables list the same keys in the same order, each entity is divided by its own applications |
| `Merge.FindRatio` | leaderboard.py:483 | the lookup finds a ratio exactly when the ratio table has a row for the entity |
| `Merge.FindRatioAt` | leaderboard.py:483 | with distinct entities, the lookup returns that entity's own row |
| `Merge.JoinKeys` | leaderboard.py:480-483 | the inner join is no longer than the left table, and an entity is in it exactly when it is a left key present in every right table |
| `Merge.JoinRowsInLeftOrder` | leaderboard.py:480-483 | the kept entities appear in the order of the left keys, and each kept row holds that entity's value from every table and its ratio |
| `Merge.JoinKeepsEveryKey` | leaderboard.py:480-483 | when every right table holds every left key, the join keeps every left row, in the left order, with each table's value for that key |
| `Merge.RatiosFound` | leaderboard.py:166-170 | in a ratio table built from tables with one key sequence, every key finds the ratio of its own approvals and applications |
| `Merge.JoinSharedKeys` | leaderboard.py:476-483 | `Join` of tables with one key sequence (the join in the order of the left table's keys) gives one row per key, holding each table's value for it and its own ratio |
| `Leaderboard.AggregateKeys` | leaderboard.py:473-477 | each aggregate lists the distinct entities of the input in first-occurrence order |
| `Leaderboard.CombineHasEveryEntity` | leaderboard.py:473-483 | `Combine`, the joined table built from the four aggregates and the ratio table, has one row per distinct entity, in first-occurrence order, holding that entity's four sums and its approval ratio |
| `Leaderboard.CombineKeepsEachEntityOnce` | leaderboard.py:473-483 | every input entity has a row in the joined table, and no entity has two |
| `Leaderboard.BuildLeaderboard` | leaderboard.py:473-488 | the joined table is the one above, and each grand total equals the column total of the raw rows |
| `Ranking.AtMostPermutation` | leaderboard.py:106 | a bound on every total survives adding a row within the bound and reordering |
| `Ranking.SortedCons` | leaderboard.py:106 | a row at least as large as a sorted tail keeps the sequence sorted when put in front |
| `Ranking.InsertByTotal` | leaderboard.py:106 | inserting a row into a sorted table keeps it sorted descending and adds exactly that row |
| `Ranking.SortByTotal` | leaderboard.py:106 | the sorted table is ordered by `Total`, descending, and is a permutation of the input |
| `Ranking.RankAt` | leaderboard.py:107-111 | the rank is `'-'` exactly when the total is 0, and otherwise the given 1-based position |
| `Ranking.MedalLabel` | leaderboard.py:114-118 | ranks 1, 2 and 3 with a non-zero total get 🥇, 🥈 or 🥉 and a space before the entity; every other row keeps its entity |
| `Ranking.AssignRanks` | leaderboard.py:107-118 | other columns unchanged; rank is `'-'` exactly when the total is 0, else the 1-based position; the entity label changes exactly at positions 1-3 with a non-zero total, where it gets that position's medal |
| `Ranking.DisplayScoreRanks` | leaderboard.py:104-121 | a permutation of the input rows, sorted by total descending; rank `'-'` exactly for a zero total and the position otherwise; the label differs from the entity exactly at positions 1-3 with a non-zero total, where it is that position's medal followed by the entity |
| `Ranking.AtMostThreeMedals` | leaderboard.py:114-118 | at most three rows carry a medal |
| `Ranking.MedalistsLead` | leaderboard.py:106-118 | a medalled row's total is at least that of every row past the third position |
| `Ranking.GoldHasTopTotal` | leaderboard.py:106-115 | the gold medal goes to a row whose total is the largest of the input |
| `Ranking.RanksContiguousWhenNonNegative` | leaderboard.py:107-111 | with no negative totals, every row before a ranked row is ranked too, so the shown ranks are 1..k with no gap |

## Left out

- `px` (`plotly.express`) is used but never imported (leaderboard.py:1-8, :135), so `main` as written stops with `NameError` in the first chart function (reached from leaderboard.py:473), before the joins and totals. The model describes `main` as if `plotly.express` were imported.
- `load_data` (leaderboard.py:14-21): a network CSV read with a five-second cache. The model starts from the rows; a failed load, which the source reports and then skips, is not modelled.
- All Streamlit and Plotly rendering: `display_summary_numbers`, the CSS and HTML of `display_leaderboard_table`, `functional_image_rendering`, `functional_bar_charts_formatting`, the `px.bar` calls, `st_autorefresh`, and the image and sheet URLs.
- The conversion rate in `display_summary_numbers` (leaderboard.py:215): it is computed but never shown.
- `display_leaderboard_table` writes `1..n` into `Rank` again (leaderboard.py:318), so the rendered table never shows `'-'`. The model stops at `display_score_ranks`.
- `radio_button` (leaderboard.py:365-403): a wall-clock and time-zone computation whose result is unused. The mode it returns is always `"Total"`. The model takes the mode as a parameter.
- Ratio.ApprovalRatio: no rounding to two decimal places. The model divides exact reals, so `round(..., 2)` and IEEE rounding are not modelled.
- Ratio.RatioTable: requires the two tables to have the same length. With unequal lengths, pandas would align on the union of positions and fill the gaps with `NaN`. `main` always passes two aggregates of the same rows (leaderboard.py:473-476), which have the same keys in the same order (`Leaderboard.AggregateKeys`).
- Merge.JoinKeys: a right table with a repeated key would make pandas emit one row per match. The model takes the first match. Every right table here has distinct keys.
- Ranking.SortByTotal: fixes one order among rows with equal totals. pandas' quicksort promises none. The lemmas about `AssignRanks` hold for any sorted order.
- Ranking.DisplayScoreRanks: the source overwrites `Entity` with the decorated label. The model keeps the undecorated row beside the label in `shown`.
- Measure values are integers. Empty cells, which pandas reads as `NaN`, and 64-bit overflow are not modelled.
- A measure column missing from the export raises `KeyError` in the source. Rows in the model always carry every column, so that error is not modelled.
