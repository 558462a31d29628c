# SwingTrading rolling columns, in Dafny

This project models `SwingTrading.add_rolling_columns(rows_forward)`, the one
transform of the SwingTrading repository that computes something from the
price table. For a window length `n` it writes five columns into the table
held by the object:

- `High_n`: for each row, the largest `High` of the `n` rows that follow it;
- `High_lag_n`: the 1-based offset inside that window where the maximum first
  occurs (`list.index` picks the earliest of tied values);
- `Low_n` and `Low_lag_n`: the same for the smallest `Low`;
- `High_Low_lag_5`: `UpTrend` when the high's offset exceeds the low's,
  `DownTrend` when the low's exceeds the high's, `NoTrend` otherwise
  (including when either offset is undefined).

A cell of a numeric column is a number or undefined (`Windows.Cell`, pandas'
NaN). The columns are built, as the source builds them, by a pandas rolling
window (`Windows.Rolling`: undefined for the first `n - 1` rows and wherever
the window holds an undefined price), the slice `[n:]` (`Windows.Drop`) and
padding with `n` zeros (`Windows.Zeros`); `Windows.ForwardColumn` is that
pipeline. Because the slice drops `n` entries, row `j` looks at rows
`j+1 .. j+n`: the current row is not in its window. The last `n` rows hold
`0`, and so they are labelled `NoTrend`.

The table is a class, `SwingTrading.PriceTable`, with a row count and a map
from column name to column (`Numbers` for prices, dates and lags, `Labels`
for trend labels). `PriceTable.AddRollingColumns` writes the `High` columns
and then calls `PriceTable.WriteLowColumns` for the `Low` columns and the
label, as the two blocks of the source follow each other, and stops at the
first fault. The pure functions `SwingTrading.AddRolling` and
`SwingTrading.AddLowColumns` give the table and outcome after each half; the
methods' postconditions equate their effect with those functions, and the
lemmas in `SwingTradingProperties` state what the functions promise.

Faults, in the order the source meets them: a missing `High` column (a
`KeyError`), a negative window (pandas refuses it), a text `High` column, a
window longer than a non-empty table (the padded list has `n` entries
instead of the row count and the first column assignment raises), then —
after `High_n` and `High_lag_n` have already been written — a missing or text
`Low` column. A call that fails keeps whatever it wrote before the fault.
A table without rows does not fail on the length: pandas gives it the
index of the first list written (`n` rows) and fills every existing column,
`Low` included, with undefined cells (`SwingTrading.Reindexed`); the call
then completes with padding only (`SwingTradingProperties.EmptyTableGrows`).

Column names come from `'{}_{}'.format(...)`, modelled by
`ColumnNames.Decimal` (decimal digits of `n`). The label name is fixed at
`High_Low_lag_5`, whatever `n` is, so a later call with another window
length replaces the label column but not the earlier value and lag columns.

## Model

| member | source | states |
|---|---|---|
| `Windows.Max` | SwingTrading.py:70 | the rolling `max` of a non-empty window is one of its values and no value exceeds it |
| `Windows.Min` | SwingTrading.py:80 | the rolling `min` of a non-empty window is one of its values and no value is below it |
| `Windows.IndexOf` | SwingTrading.py:71 | `list.index(v)` returns a position holding `v` with no earlier position holding `v` |
| `Windows.Reduce` | SwingTrading.py:70-71 | `max` of a window is one of its values and no value exceeds it, `min` likewise with no value below it; each lag lambda returns an offset in `1..len(x)` |
| `Windows.FirstMaxOffsetIsEarliest` | SwingTrading.py:71 | the max-lag lambda returns an offset in `1..len(x)` holding the maximum, with every earlier value strictly smaller |
| `Windows.FirstMinOffsetIsEarliest` | SwingTrading.py:81 | the min-lag lambda returns an offset in `1..len(x)` holding the minimum, with every earlier value strictly larger |
| `Windows.ReduceWindow` | SwingTrading.py:70-71 | a window's reduction is defined exactly when none of its cells is undefined, and is then the reducer's value on its numbers |
| `Windows.Rolling` | SwingTrading.py:70 | `rolling(n)` yields one entry per row of the column |
| `Windows.RollingDefinedExactlyWhen` | SwingTrading.py:70 | a rolling entry is defined exactly when `n` rows end at it and none of them is undefined |
| `Windows.RollingAt` | SwingTrading.py:70 | rolling entry `n+j` reduces rows `j+1..j+n` |
| `Windows.Zeros` | SwingTrading.py:72 | `[0]*n` has `n` entries, all `0` |
| `Windows.Drop` | SwingTrading.py:70 | the slice `[n:]` has `N-n` entries, or none when `n > N` |
| `Windows.Undefined` | SwingTrading.py:75 | the fill pandas gives an existing column when an empty table is reindexed: `k` undefined cells |
| `Windows.ForwardColumn` | SwingTrading.py:70-74 | the sliced-and-padded list has `N` entries when `n <= N` and `n` otherwise, and its last `n` entries are `0` |
| `Windows.ForwardColumnAt` | SwingTrading.py:70-74 | row `j < N-n` of a forward column is the reduction of rows `j+1..j+n` (current row excluded) |
| `Windows.ForwardColumnOfShortColumn` | SwingTrading.py:70-74 | a column of at most `n` rows gives nothing but `n` zeros |
| `Windows.FirstMaxInRows` | SwingTrading.py:71 | on rows `j+1..j+n` of the whole `High` column, the lag is in `1..n`, points at the maximum, and every earlier row is strictly lower |
| `Windows.FirstMinInRows` | SwingTrading.py:81 | on rows `j+1..j+n` of the whole `Low` column, the lag is in `1..n`, points at the minimum, and every earlier row is strictly higher |
| `ColumnNames.Decimal` | SwingTrading.py:75 | the formatted window length is a non-empty string of digits without a leading zero |
| `ColumnNames.DecimalRoundTrip` | SwingTrading.py:75 | reading the formatted window length back gives the window length |
| `ColumnNames.DecimalInjective` | SwingTrading.py:75-76 | different window lengths are formatted differently |
| `ColumnNames.HighName` | SwingTrading.py:75 | the `High` value column's name ends with the window length in decimal |
| `ColumnNames.HighLagName` | SwingTrading.py:76 | the `High` lag column's name ends with the window length in decimal |
| `ColumnNames.LowName` | SwingTrading.py:85 | the `Low` value column's name ends with the window length in decimal |
| `ColumnNames.LowLagName` | SwingTrading.py:86 | the `Low` lag column's name ends with the window length in decimal |
| `ColumnNames.NamesReadBack` | SwingTrading.py:75-86 | each name is its fixed prefix (`High_`, `High_lag_`, `Low_`, `Low_lag_`) followed by digits that read back as the window length |
| `ColumnNames.WrittenNames` | SwingTrading.py:75-89 | one call writes exactly five distinct column names |
| `ColumnNames.WrittenNamesDistinct` | SwingTrading.py:75-89 | the five written names are pairwise different and none is `High` or `Low` |
| `ColumnNames.NamesDetermineWindow` | SwingTrading.py:75-86 | value and lag column names of different window lengths never coincide |
| `ColumnNames.WindowNamesNotWrittenBy` | SwingTrading.py:75-89 | no value or lag column of one window length is written by a call with another |
| `ColumnNames.OnlyLabelShared` | SwingTrading.py:89 | two calls with different window lengths write exactly one common column, `High_Low_lag_5` |
| `SwingTrading.Reindexed` | SwingTrading.py:75 | reindexing an empty table keeps its column names and makes every column `k` undefined cells, so the table is aligned at `k` rows |
| `SwingTrading.TrendColumn` | SwingTrading.py:89-90 | one label per row: `UpTrend` iff both lags are defined and the high's is larger, `DownTrend` iff both are defined and the low's is larger, `NoTrend` iff either is undefined or they are equal |
| `SwingTrading.AddRolling` | SwingTrading.py:55-92 | a window below 1 fails with the table untouched; the row count stays, or an empty table grows to at least `n` rows; the call only adds written names; a completed call adds all five |
| `SwingTrading.AddLowColumns` | SwingTrading.py:79-90 | the `Low` half keeps the row count, adds only `Low_n`, `Low_lag_n` and the label, adds all three when it completes, and changes nothing when it fails |
| `SwingTrading.OtherColumnsUnchanged` | SwingTrading.py:75-89 | every column other than the five written ones keeps its value, whatever the outcome, unless an empty table grew, when it holds undefined cells |
| `SwingTrading.PriceTable.AddRollingColumns` | SwingTrading.py:55-92 | keeps every column one entry per row, has the effect and outcome of `AddRolling`, and leaves every column outside the five written names as it was (or undefined, after growth) |
| `SwingTrading.PriceTable.WriteLowColumns` | SwingTrading.py:79-90 | keeps every column one entry per row and the row count, has the effect and outcome of `AddLowColumns`, and leaves every column but the three it writes as it was |
| `SwingTradingProperties.HighColumnIsForwardMax` | SwingTrading.py:70-75 | for `j < N-n` with a defined window, `High_n[j]` is at least every `High[r]` with `j < r <= j+n` and equals one of them |
| `SwingTradingProperties.HighLagIsFirstOffsetOfMax` | SwingTrading.py:70-77 | for `j < N-n` with a defined window, `1 <= High_lag_n[j] <= n`, `High[j + High_lag_n[j]] == High_n[j]`, and every earlier row of the window is strictly lower |
| `SwingTradingProperties.MaxLagAt` | SwingTrading.py:71 | the same for any pair of columns holding the window's max and lag at row `j` |
| `SwingTradingProperties.LowColumnIsForwardMin` | SwingTrading.py:80-85 | for `j < N-n` with a defined window, `Low_n[j]` is at most every `Low[r]` with `j < r <= j+n` and equals one of them |
| `SwingTradingProperties.LowLagIsFirstOffsetOfMin` | SwingTrading.py:80-87 | for `j < N-n` with a defined window, `1 <= Low_lag_n[j] <= n`, `Low[j + Low_lag_n[j]] == Low_n[j]`, and every earlier row of the window is strictly higher |
| `SwingTradingProperties.MinLagAt` | SwingTrading.py:81 | the same for any pair of columns holding the window's min and lag at row `j` |
| `SwingTradingProperties.UndefinedPriceBlanksRow` | SwingTrading.py:70-81 | an undefined price in rows `j+1..j+n` makes row `j` of every value and lag column undefined |
| `SwingTradingProperties.WindowOfOneIsNoTrend` | SwingTrading.py:70-90 | with `n == 1` every row is labelled `NoTrend` |
| `SwingTradingProperties.RisingWindowComplete` | SwingTrading.py:70 | strictly rising prices leave no undefined cell in any window |
| `SwingTradingProperties.RisingHighsPeakLast` | SwingTrading.py:70-71 | on strictly rising highs, `High_n[j] == High[j+n]` and `High_lag_n[j] == n` |
| `SwingTradingProperties.RisingLowsBottomFirst` | SwingTrading.py:80-81 | on strictly rising lows, `Low_n[j] == Low[j+1]` and `Low_lag_n[j] == 1` |
| `SwingTradingProperties.RisingPricesAreUpTrend` | SwingTrading.py:89-90 | on strictly rising highs and lows with `n >= 2`, every row with a full window is `UpTrend` |
| `SwingTradingProperties.CompletesExactlyWhen` | SwingTrading.py:69-87 | a call completes iff `High` is numeric, `Low` is present, `n >= 1`, and the table is empty or `Low` is numeric with `n <= N`; `n > N >= 1` fails at the first write with the table unchanged; a missing `High` fails first |
| `SwingTradingProperties.EmptyTableGrows` | SwingTrading.py:70-90 | on a table without rows the call completes with `n` rows, the four value and lag columns are zeros, every label is `NoTrend`, and every other column is undefined |
| `SwingTradingProperties.MissingLowKeepsHighColumns` | SwingTrading.py:75-79 | a missing `Low` column raises after `High_n` and `High_lag_n` have been written, and only they were |
| `SwingTradingProperties.CompletedCallColumns` | SwingTrading.py:70-90 | a completed call keeps the row count, adds exactly the five written names, keeps every column one entry per row, and holds the forward extremum, lag and label columns |
| `SwingTradingProperties.TrendLabelMeaning` | SwingTrading.py:89-90 | in the table after any completed call, a row is `UpTrend` iff both lag columns are defined and the high's is larger, `DownTrend` iff the low's is larger, `NoTrend` iff either is undefined or they are equal |
| `SwingTradingProperties.PriceColumnsUnchanged` | SwingTrading.py:70-89 | the input `High` and `Low` columns are never overwritten with computed values (only reindexed when an empty table grows) |
| `SwingTradingProperties.TailRowsAreZero` | SwingTrading.py:72-90 | on a completed call, each of the last `n` rows is `0` in all four value and lag columns and `NoTrend` |
| `SwingTradingProperties.CallTwiceIsCallOnce` | SwingTrading.py:55-92 | calling twice with the same window length gives the same table and outcome as calling once |
| `SwingTradingProperties.SecondCallSeesSameHigh` | SwingTrading.py:70-71 | the `High` column a second call reads gives the same forward columns as the first call's |
| `SwingTradingProperties.LabelFollowsLatestWindow` | SwingTrading.py:89-90 | after a second completed call, `High_Low_lag_5` holds the labels of the second call's window |
| `SwingTradingProperties.EarlierWindowColumnsKept` | SwingTrading.py:75-87 | a later call with another window length keeps the earlier call's value and lag columns |

## Left out

- `get_data` (SwingTrading.py:38-53) downloads the table from a market-data service; the model takes the table as given (the `PriceTable` constructor).
- `__init__` (SwingTrading.py:9-36) only stores settings that `add_rolling_columns` does not read.
- Prices are integers, not floats: the transform only compares and copies prices, so no arithmetic is lost. Undefined prices are modelled as undefined cells; infinities are not.
- Column dtypes: pandas stores the value and lag columns as floats, or as integers when they hold only padding; the model stores integers. Reindexing keeps a float, text or date column's dtype and turns an integer column into floats; the model makes every reindexed column numeric undefined cells.
- A text `High` column, and a text `Low` column on a table with rows, is refused as `NotNumeric`; pandas rolls a text column whose values all convert to numbers, such as the empty `High` of an empty table.
- Column order: the table is a map from name to column, so the order of columns is not modelled. pandas appends each new column at the end, and a column that is written again keeps its place.
- A window length of `0` is rejected as `EmptyWindow`; what pandas does with a zero-length window (all-undefined columns, or an error from `max` of an empty window) is not modelled.
- `SwingTrading.PriceTable.AddRollingColumns` returns an outcome instead of raising an exception, and does not return the table object, which the caller already holds.
- SwingTradingProperties.CallTwiceIsCallOnce: on a table without rows it is stated for aligned columns only, which every `PriceTable` has.
