/**
 * What `add_rolling_columns` promises about the columns it writes, about the
 * table as a whole, and about repeated calls.
 */
module SwingTradingProperties {
  import opened Windows
  import opened ColumnNames
  import opened SwingTrading

  // ---------------------------------------------------------------------
  // The value and lag columns, row by row
  // ---------------------------------------------------------------------

  /** `High_n[j]` is the largest `High` among rows `j+1 .. j+n`, when all of them are defined. */
  lemma HighColumnIsForwardMax(high: seq<Cell>, n: nat, j: nat)
    requires 1 <= n <= |high| && j < |high| - n && Complete(high[j + 1 .. j + n + 1])
    ensures var col := ForwardColumn(high, n, WindowMax);
            && col[j].Some?
            && (forall r :: j < r <= j + n ==> high[r].Some? && high[r].value <= col[j].value)
            && (exists r :: j < r <= j + n && high[r] == col[j])
  {
    ForwardColumnAt(high, n, WindowMax, j);
    var w := high[j + 1 .. j + n + 1];
    var vs := Values(w);
    assert forall r :: j < r <= j + n ==> high[r] == w[r - j - 1];
    var i :| 0 <= i < |vs| && vs[i] == Max(vs);
    assert high[j + (i + 1)] == w[i];
  }

  /**
   * `High_lag_n[j]` is the first offset in `1..n` at which that maximum
   * occurs: `list.index` picks the earliest of tied maxima.
   */
  lemma HighLagIsFirstOffsetOfMax(high: seq<Cell>, n: nat, j: nat)
    requires 1 <= n <= |high| && j < |high| - n && Complete(high[j + 1 .. j + n + 1])
    ensures var lag := ForwardColumn(high, n, FirstMaxOffset)[j];
            var v := ForwardColumn(high, n, WindowMax)[j];
            && lag.Some? && v.Some?
            && 1 <= lag.value <= n
            && high[j + lag.value] == v
            && forall r :: j < r < j + lag.value ==> high[r].Some? && high[r].value < v.value
  {
    ForwardColumnAt(high, n, WindowMax, j);
    ForwardColumnAt(high, n, FirstMaxOffset, j);
    MaxLagAt(high, n, j, ForwardColumn(high, n, FirstMaxOffset), ForwardColumn(high, n, WindowMax));
  }

  /** `HighLagIsFirstOffsetOfMax` for any pair of columns that hold the window's reductions at row `j`. */
  lemma MaxLagAt(high: seq<Cell>, n: nat, j: nat, lags: seq<Cell>, values: seq<Cell>)
    requires 1 <= n && j + n < |high| && Complete(high[j + 1 .. j + n + 1])
    requires j < |lags| && lags[j] == ReduceWindow(FirstMaxOffset, high[j + 1 .. j + n + 1])
    requires j < |values| && values[j] == ReduceWindow(WindowMax, high[j + 1 .. j + n + 1])
    ensures var lag := lags[j];
            var v := values[j];
            && lag.Some? && v.Some?
            && 1 <= lag.value <= n
            && high[j + lag.value] == v
            && forall r :: j < r < j + lag.value ==> high[r].Some? && high[r].value < v.value
  {
    FirstMaxInRows(high, j, n);
  }

  /** `Low_n[j]` is the smallest `Low` among rows `j+1 .. j+n`, when all of them are defined. */
  lemma LowColumnIsForwardMin(low: seq<Cell>, n: nat, j: nat)
    requires 1 <= n <= |low| && j < |low| - n && Complete(low[j + 1 .. j + n + 1])
    ensures var col := ForwardColumn(low, n, WindowMin);
            && col[j].Some?
            && (forall r :: j < r <= j + n ==> low[r].Some? && col[j].value <= low[r].value)
            && (exists r :: j < r <= j + n && low[r] == col[j])
  {
    ForwardColumnAt(low, n, WindowMin, j);
    var w := low[j + 1 .. j + n + 1];
    var vs := Values(w);
    assert forall r :: j < r <= j + n ==> low[r] == w[r - j - 1];
    var i :| 0 <= i < |vs| && vs[i] == Min(vs);
    assert low[j + (i + 1)] == w[i];
  }

  /** `Low_lag_n[j]` is the first offset in `1..n` at which that minimum occurs. */
  lemma LowLagIsFirstOffsetOfMin(low: seq<Cell>, n: nat, j: nat)
    requires 1 <= n <= |low| && j < |low| - n && Complete(low[j + 1 .. j + n + 1])
    ensures var lag := ForwardColumn(low, n, FirstMinOffset)[j];
            var v := ForwardColumn(low, n, WindowMin)[j];
            && lag.Some? && v.Some?
            && 1 <= lag.value <= n
            && low[j + lag.value] == v
            && forall r :: j < r < j + lag.value ==> low[r].Some? && v.value < low[r].value
  {
    ForwardColumnAt(low, n, WindowMin, j);
    ForwardColumnAt(low, n, FirstMinOffset, j);
    MinLagAt(low, n, j, ForwardColumn(low, n, FirstMinOffset), ForwardColumn(low, n, WindowMin));
  }

  /** `LowLagIsFirstOffsetOfMin` for any pair of columns that hold the window's reductions at row `j`. */
  lemma MinLagAt(low: seq<Cell>, n: nat, j: nat, lags: seq<Cell>, values: seq<Cell>)
    requires 1 <= n && j + n < |low| && Complete(low[j + 1 .. j + n + 1])
    requires j < |lags| && lags[j] == ReduceWindow(FirstMinOffset, low[j + 1 .. j + n + 1])
    requires j < |values| && values[j] == ReduceWindow(WindowMin, low[j + 1 .. j + n + 1])
    ensures var lag := lags[j];
            var v := values[j];
            && lag.Some? && v.Some?
            && 1 <= lag.value <= n
            && low[j + lag.value] == v
            && forall r :: j < r < j + lag.value ==> low[r].Some? && v.value < low[r].value
  {
    FirstMinInRows(low, j, n);
  }

  /**
   * An undefined price anywhere in rows `j+1 .. j+n` leaves row `j` of every
   * forward column undefined (pandas' `min_periods = n`).
   */
  lemma UndefinedPriceBlanksRow(s: seq<Cell>, n: nat, red: Reducer, j: nat, r: nat)
    requires 1 <= n <= |s| && j < |s| - n && j < r <= j + n && s[r] == None
    ensures ForwardColumn(s, n, red)[j] == None
  {
    ForwardColumnAt(s, n, red, j);
    assert s[j + 1 .. j + n + 1][r - j - 1] == None;
  }

  // ---------------------------------------------------------------------
  // The trend label
  // ---------------------------------------------------------------------

  /** With a one-row window both offsets are 1 (or undefined, or padding), so every row is `NoTrend`. */
  lemma WindowOfOneIsNoTrend(high: seq<Cell>, low: seq<Cell>, j: nat)
    requires |high| == |low| && j < |high|
    ensures TrendColumn(ForwardColumn(high, 1, FirstMaxOffset), ForwardColumn(low, 1, FirstMinOffset))[j] == NoTrend
  {
    if j < |high| - 1 {
      ForwardColumnAt(high, 1, FirstMaxOffset, j);
      ForwardColumnAt(low, 1, FirstMinOffset, j);
    }
  }

  /** Every price is defined and each is above the one before. */
  predicate StrictlyRising(s: seq<Cell>) {
    Complete(s) && forall a, b :: 0 <= a < b < |s| ==> s[a].value < s[b].value
  }

  /** Two rows of a strictly rising column compare as their positions do. */
  lemma RisingAt(s: seq<Cell>, a: nat, b: nat)
    requires StrictlyRising(s) && a <= b < |s|
    ensures s[a].Some? && s[b].Some? && s[a].value <= s[b].value
    ensures s[a].value == s[b].value ==> a == b
  {
  }

  /** Every window of a strictly rising column is complete. */
  lemma RisingWindowComplete(s: seq<Cell>, n: nat, j: nat)
    requires StrictlyRising(s) && j + n < |s|
    ensures Complete(s[j + 1 .. j + n + 1])
  {
    var w := s[j + 1 .. j + n + 1];
    forall i | 0 <= i < |w|
      ensures w[i].Some?
    {
      assert w[i] == s[j + 1 + i];
    }
  }

  /** On strictly rising highs the window's maximum is its last row. */
  lemma RisingHighsPeakLast(high: seq<Cell>, n: nat, j: nat)
    requires StrictlyRising(high) && 1 <= n <= |high| && j < |high| - n
    ensures ForwardColumn(high, n, WindowMax)[j] == high[j + n]
    ensures ForwardColumn(high, n, FirstMaxOffset)[j] == Some(n)
  {
    RisingWindowComplete(high, n, j);
    HighColumnIsForwardMax(high, n, j);
    HighLagIsFirstOffsetOfMax(high, n, j);
    var v := ForwardColumn(high, n, WindowMax)[j];
    var lag := ForwardColumn(high, n, FirstMaxOffset)[j].value;
    var r :| j < r <= j + n && high[r] == v;
    RisingAt(high, r, j + n);
    assert high[j + n].value <= v.value;
    RisingAt(high, j + lag, j + n);
  }

  /** On strictly rising lows the window's minimum is its first row. */
  lemma RisingLowsBottomFirst(low: seq<Cell>, n: nat, j: nat)
    requires StrictlyRising(low) && 1 <= n <= |low| && j < |low| - n
    ensures ForwardColumn(low, n, WindowMin)[j] == low[j + 1]
    ensures ForwardColumn(low, n, FirstMinOffset)[j] == Some(1)
  {
    RisingWindowComplete(low, n, j);
    LowColumnIsForwardMin(low, n, j);
    LowLagIsFirstOffsetOfMin(low, n, j);
    var v := ForwardColumn(low, n, WindowMin)[j];
    var lag := ForwardColumn(low, n, FirstMinOffset)[j].value;
    var r :| j < r <= j + n && low[r] == v;
    RisingAt(low, j + 1, r);
    assert v.value <= low[j + 1].value;
    RisingAt(low, j + 1, j + lag);
  }

  /**
   * On strictly rising highs and lows with a window of at least two rows,
   * the maximum comes after the minimum, so every row that has a full
   * window is labelled `UpTrend`.
   */
  lemma RisingPricesAreUpTrend(high: seq<Cell>, low: seq<Cell>, n: nat, j: nat)
    requires |high| == |low| && 2 <= n <= |high| && j < |high| - n
    requires StrictlyRising(high) && StrictlyRising(low)
    ensures TrendColumn(ForwardColumn(high, n, FirstMaxOffset), ForwardColumn(low, n, FirstMinOffset))[j] == UpTrend
  {
    RisingHighsPeakLast(high, n, j);
    RisingLowsBottomFirst(low, n, j);
  }

  // ---------------------------------------------------------------------
  // The table
  // ---------------------------------------------------------------------

  /** Column `c` is numeric and holds `v` at row `j`. */
  predicate NumberAt(c: Column, j: nat, v: int) {
    c.Numbers? && j < |c.values| && c.values[j] == Some(v)
  }

  /** Both input columns are present and numeric. */
  predicate HasPrices(columns: map<string, Column>) {
    && "High" in columns && columns["High"].Numbers?
    && "Low" in columns && columns["Low"].Numbers?
  }

  /**
   * On an aligned table a call completes exactly when `High` is numeric,
   * `Low` is present, `n >= 1`, and either the table has no rows (it then
   * grows to `n` rows and `Low` becomes undefined numbers) or `Low` is
   * numeric and `n <= rows`. On a table with rows, `n > rows` fails at the
   * first write and leaves the table as it was.
   */
  lemma CompletesExactlyWhen(columns: map<string, Column>, rows: nat, n: int)
    requires Aligned(rows, columns)
    ensures AddRolling(columns, rows, n).outcome == Done <==>
              && "High" in columns && columns["High"].Numbers? && "Low" in columns && 1 <= n
              && (rows == 0 || (columns["Low"].Numbers? && n <= rows))
    ensures "High" in columns && columns["High"].Numbers? && 1 <= rows < n ==>
              AddRolling(columns, rows, n) == Step(rows, columns, Failed(LengthMismatch(rows, n)))
    ensures "High" !in columns ==>
              AddRolling(columns, rows, n) == Step(rows, columns, Failed(MissingColumn("High")))
  {
    if "High" in columns && columns["High"].Numbers? && n >= 1 {
      WrittenNamesDistinct(n);
      if rows == 0 && "Low" in columns {
        EmptyTableGrows(columns, n);
      }
    }
  }

  /**
   * A call on a table without rows, with a numeric `High` and any `Low`,
   * completes and leaves `n` rows: pandas reindexes the table to the length
   * of the first list written, every other column becomes `n` undefined
   * cells, the four value and lag columns hold only the padding, and every
   * row is labelled `NoTrend`.
   */
  lemma EmptyTableGrows(columns: map<string, Column>, n: int)
    requires Aligned(0, columns) && "High" in columns && columns["High"].Numbers? && "Low" in columns
    requires n >= 1
    ensures var after := AddRolling(columns, 0, n);
            && after.outcome == Done && after.rows == n
            && Aligned(n, after.columns)
            && after.columns[HighName(n)] == Numbers(Zeros(n))
            && after.columns[HighLagName(n)] == Numbers(Zeros(n))
            && after.columns[LowName(n)] == Numbers(Zeros(n))
            && after.columns[LowLagName(n)] == Numbers(Zeros(n))
            && after.columns[LabelName].Labels? && |after.columns[LabelName].trends| == n
            && (forall j :: 0 <= j < n ==> after.columns[LabelName].trends[j] == NoTrend)
            && forall name :: name in columns && name !in WrittenNames(n) ==>
                 after.columns[name] == Numbers(Undefined(n))
  {
    WrittenNamesDistinct(n);
    var high := columns["High"].values;
    assert |high| == 0;
    ForwardColumnOfShortColumn(high, n, WindowMax);
    ForwardColumnOfShortColumn(high, n, FirstMaxOffset);
    ForwardColumnOfShortColumn(Undefined(n), n, WindowMin);
    ForwardColumnOfShortColumn(Undefined(n), n, FirstMinOffset);
  }

  /**
   * A missing `Low` column is only found after `High_n` and `High_lag_n`
   * have been written: the call raises with those two columns added.
   */
  lemma MissingLowKeepsHighColumns(columns: map<string, Column>, rows: nat, n: int)
    requires Aligned(rows, columns)
    requires "High" in columns && columns["High"].Numbers? && "Low" !in columns
    requires 1 <= n <= rows
    ensures var high := columns["High"].values;
            AddRolling(columns, rows, n) == Step(rows,
              columns[HighName(n) := Numbers(ForwardColumn(high, n, WindowMax))]
                     [HighLagName(n) := Numbers(ForwardColumn(high, n, FirstMaxOffset))],
              Failed(MissingColumn("Low")))
  {
    WrittenNamesDistinct(n);
  }

  /**
   * A completed call on a table with at least `n` rows keeps the row count,
   * adds exactly the five written columns, each with one entry per row, and
   * holds the forward extremum, lag and label columns.
   */
  lemma CompletedCallColumns(columns: map<string, Column>, rows: nat, n: int)
    requires Aligned(rows, columns) && HasPrices(columns) && 1 <= n <= rows
    ensures var r := AddRolling(columns, rows, n);
            var after := r.columns;
            var high := columns["High"].values;
            var low := columns["Low"].values;
            && r.outcome == Done && r.rows == rows
            && after.Keys == columns.Keys + WrittenNames(n)
            && Aligned(rows, after)
            && after[HighName(n)] == Numbers(ForwardColumn(high, n, WindowMax))
            && after[HighLagName(n)] == Numbers(ForwardColumn(high, n, FirstMaxOffset))
            && after[LowName(n)] == Numbers(ForwardColumn(low, n, WindowMin))
            && after[LowLagName(n)] == Numbers(ForwardColumn(low, n, FirstMinOffset))
            && after[LabelName] == Labels(TrendColumn(ForwardColumn(high, n, FirstMaxOffset),
                                                      ForwardColumn(low, n, FirstMinOffset)))
  {
    WrittenNamesDistinct(n);
  }

  /**
   * The label column reads the two lag columns back from the table: on any
   * completed call, a row is `UpTrend` exactly when both lags are defined
   * and the high's is larger, `DownTrend` exactly when both are defined and
   * the low's is larger, and `NoTrend` otherwise.
   */
  lemma TrendLabelMeaning(columns: map<string, Column>, rows: nat, n: int, j: nat)
    requires AddRolling(columns, rows, n).outcome == Done
    requires j < |AddRolling(columns, rows, n).columns[LabelName].trends|
    ensures var after := AddRolling(columns, rows, n).columns;
            var hl := after[HighLagName(n)].values;
            var ll := after[LowLagName(n)].values;
            var trends := after[LabelName].trends;
            && j < |hl| && j < |ll|
            && (trends[j] == UpTrend <==> hl[j].Some? && ll[j].Some? && hl[j].value > ll[j].value)
            && (trends[j] == DownTrend <==> hl[j].Some? && ll[j].Some? && ll[j].value > hl[j].value)
            && (trends[j] == NoTrend <==> hl[j].None? || ll[j].None? || hl[j].value == ll[j].value)
  {
    WrittenNamesDistinct(n);
  }

  /** The input columns `High` and `Low` are never overwritten with computed values. */
  lemma PriceColumnsUnchanged(columns: map<string, Column>, rows: nat, n: int)
    requires "High" in columns && "Low" in columns
    ensures var r := AddRolling(columns, rows, n);
            && "High" in r.columns && "Low" in r.columns
            && r.columns["High"] == (if r.rows == rows then columns["High"] else Numbers(Undefined(r.rows)))
            && r.columns["Low"] == (if r.rows == rows then columns["Low"] else Numbers(Undefined(r.rows)))
  {
    if n >= 1 {
      WrittenNamesDistinct(n);
    }
    OtherColumnsUnchanged(columns, rows, n, "High");
    OtherColumnsUnchanged(columns, rows, n, "Low");
  }

  /**
   * On a completed call, each of the last `n` rows holds 0 in all four value
   * and lag columns and is therefore labelled `NoTrend`.
   */
  lemma TailRowsAreZero(columns: map<string, Column>, rows: nat, n: int, j: nat)
    requires Aligned(rows, columns) && HasPrices(columns) && 1 <= n <= rows
    requires rows - n <= j < rows
    ensures var after := AddRolling(columns, rows, n).columns;
            && NumberAt(after[HighName(n)], j, 0)
            && NumberAt(after[HighLagName(n)], j, 0)
            && NumberAt(after[LowName(n)], j, 0)
            && NumberAt(after[LowLagName(n)], j, 0)
            && after[LabelName].Labels? && j < |after[LabelName].trends|
            && after[LabelName].trends[j] == NoTrend
  {
    CompletedCallColumns(columns, rows, n);
  }

  /** Writing a column with the value it already holds changes nothing. */
  lemma RewriteSame(t: map<string, Column>, name: string, c: Column)
    requires name in t && t[name] == c
    ensures t[name := c] == t
  {
  }

  /**
   * Calling twice with the same window length leaves the table as one call
   * does. On a table without rows this needs the columns to be aligned (as a
   * table's columns always are): the second call then sees undefined prices
   * where the first saw none, and both give only padding.
   */
  lemma CallTwiceIsCallOnce(columns: map<string, Column>, rows: nat, n: int)
    ensures var once := AddRolling(columns, rows, n);
            rows >= 1 || Aligned(rows, columns) ==> AddRolling(once.columns, once.rows, n) == once
  {
    var once := AddRolling(columns, rows, n);
    if "High" in columns && n >= 1 && columns["High"].Numbers? && (rows >= 1 || Aligned(rows, columns)) {
      var high := columns["High"].values;
      var rollingMax := ForwardColumn(high, n, WindowMax);
      var maxLag := ForwardColumn(high, n, FirstMaxOffset);
      if |rollingMax| == rows || rows == 0 {
        WrittenNamesDistinct(n);
        var rows1 := |rollingMax|;
        var base := if rows == 0 then Reindexed(columns, rows1) else columns;
        var withHigh := base[HighName(n) := Numbers(rollingMax)][HighLagName(n) := Numbers(maxLag)];
        assert once.rows == rows1 >= 1;
        SecondCallSeesSameHigh(columns, rows, n);
        RewriteSame(once.columns, HighName(n), Numbers(rollingMax));
        RewriteSame(once.columns[HighName(n) := Numbers(rollingMax)], HighLagName(n), Numbers(maxLag));
        if "Low" in withHigh && withHigh["Low"].Numbers?
          && |ForwardColumn(withHigh["Low"].values, n, WindowMin)| == rows1
        {
          var low := withHigh["Low"].values;
          var lowCol := Numbers(ForwardColumn(low, n, WindowMin));
          var lowLagCol := Numbers(ForwardColumn(low, n, FirstMinOffset));
          var labelCol := Labels(TrendColumn(maxLag, ForwardColumn(low, n, FirstMinOffset)));
          assert once.columns == withHigh[LowName(n) := lowCol][LowLagName(n) := lowLagCol][LabelName := labelCol];
          assert "Low" in once.columns && once.columns["Low"] == withHigh["Low"];
          RewriteSame(once.columns, LowName(n), lowCol);
          RewriteSame(once.columns, LowLagName(n), lowLagCol);
          RewriteSame(once.columns, LabelName, labelCol);
        } else {
          assert once.columns == withHigh;
        }
      }
    }
  }

  /**
   * The `High` column a second call finds yields the same forward columns
   * as the one the first call read: it is the same column, or, on a table
   * that grew from no rows, undefined cells where there were none, both of
   * which give only padding.
   */
  lemma SecondCallSeesSameHigh(columns: map<string, Column>, rows: nat, n: int)
    requires "High" in columns && n >= 1 && columns["High"].Numbers?
    requires rows >= 1 || Aligned(rows, columns)
    requires |ForwardColumn(columns["High"].values, n, WindowMax)| == rows || rows == 0
    ensures var once := AddRolling(columns, rows, n);
            var high := columns["High"].values;
            && "High" in once.columns && once.columns["High"].Numbers?
            && ForwardColumn(once.columns["High"].values, n, WindowMax) == ForwardColumn(high, n, WindowMax)
            && ForwardColumn(once.columns["High"].values, n, FirstMaxOffset) == ForwardColumn(high, n, FirstMaxOffset)
  {
    WrittenNamesDistinct(n);
    var high := columns["High"].values;
    if rows == 0 {
      assert |high| == 0;
      var grown := AddRolling(columns, rows, n).columns["High"].values;
      assert grown == Undefined(n);
      ForwardColumnOfShortColumn(high, n, WindowMax);
      ForwardColumnOfShortColumn(high, n, FirstMaxOffset);
      ForwardColumnOfShortColumn(grown, n, WindowMax);
      ForwardColumnOfShortColumn(grown, n, FirstMaxOffset);
    }
  }

  /**
   * A later completed call with a different window length replaces the
   * label column with its own: the label always follows the latest call.
   */
  lemma LabelFollowsLatestWindow(columns: map<string, Column>, rows: nat, n: int, m: int)
    requires Aligned(rows, columns) && HasPrices(columns)
    requires 1 <= n <= rows && 1 <= m <= rows
    ensures var first := AddRolling(columns, rows, n);
            var second := AddRolling(first.columns, first.rows, m).columns;
            var high := columns["High"].values;
            var low := columns["Low"].values;
            second[LabelName] == Labels(TrendColumn(ForwardColumn(high, m, FirstMaxOffset),
                                                    ForwardColumn(low, m, FirstMinOffset)))
  {
    var first := AddRolling(columns, rows, n).columns;
    CompletedCallColumns(columns, rows, n);
    PriceColumnsUnchanged(columns, rows, n);
    assert HasPrices(first);
    CompletedCallColumns(first, rows, m);
  }

  /**
   * A later call with a different window length leaves the earlier call's
   * value and lag columns in place.
   */
  lemma EarlierWindowColumnsKept(columns: map<string, Column>, rows: nat, n: int, m: int)
    requires Aligned(rows, columns) && HasPrices(columns)
    requires 1 <= n <= rows && 1 <= m && n != m
    ensures var first := AddRolling(columns, rows, n);
            var second := AddRolling(first.columns, first.rows, m).columns;
            && HighName(n) in second && second[HighName(n)] == first.columns[HighName(n)]
            && HighLagName(n) in second && second[HighLagName(n)] == first.columns[HighLagName(n)]
            && LowName(n) in second && second[LowName(n)] == first.columns[LowName(n)]
            && LowLagName(n) in second && second[LowLagName(n)] == first.columns[LowLagName(n)]
  {
    var first := AddRolling(columns, rows, n).columns;
    CompletedCallColumns(columns, rows, n);
    OnlyLabelShared(n, m);
    OtherColumnsUnchanged(first, rows, m, HighName(n));
    OtherColumnsUnchanged(first, rows, m, HighLagName(n));
    OtherColumnsUnchanged(first, rows, m, LowName(n));
    OtherColumnsUnchanged(first, rows, m, LowLagName(n));
  }
}
