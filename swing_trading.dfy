/**
 * The price table of a `SwingTrading` object and its one transform,
 * `add_rolling_columns(rows_forward)`: forward rolling maximum of `High`
 * and minimum of `Low` with the first offset where each occurs, padded with
 * zeros, plus a three-valued trend label comparing the two offsets.
 */
module SwingTrading {
  import opened Windows
  import opened ColumnNames

  /** The label written by `np.where` into `High_Low_lag_5`. */
  datatype Trend = UpTrend | DownTrend | NoTrend

  /** A column of the table: numbers (prices, lags, dates) or trend labels. */
  datatype Column = Numbers(values: seq<Cell>) | Labels(trends: seq<Trend>)
  {
    function Length(): nat {
      match this
      case Numbers(vs) => |vs|
      case Labels(ts) => |ts|
    }
  }

  /** Why a call raised instead of returning the table. */
  datatype Failure =
    | MissingColumn(name: string)                  // KeyError on `self.data[name]`
    | NegativeWindow                               // `rolling(n)` with n < 0
    | EmptyWindow                                  // n == 0: pandas' zero-length window is not modelled
    | NotNumeric(name: string)                     // rolling max/min of a text column
    | LengthMismatch(rows: nat, values: nat)       // assigning a list of the wrong length

  datatype Outcome = Done | Failed(failure: Failure)

  /** The table's row count and columns after a call, and whether the call completed. */
  datatype Step = Step(rows: nat, columns: map<string, Column>, outcome: Outcome)

  /** Every column has one entry per row. */
  ghost predicate Aligned(rows: nat, columns: map<string, Column>) {
    forall name :: name in columns ==> columns[name].Length() == rows
  }

  /**
   * What pandas does to a table without rows when a list of `k > 0` values
   * is assigned to a column: the index becomes `0 .. k-1` and every existing
   * column is filled with `k` undefined cells.
   */
  function Reindexed(columns: map<string, Column>, k: nat): (r: map<string, Column>)
    ensures r.Keys == columns.Keys
    ensures forall name :: name in r ==> r[name] == Numbers(Undefined(k))
    ensures Aligned(k, r)
  {
    map name | name in columns :: Numbers(Undefined(k))
  }

  /**
   * The element-wise label of two lag columns,
   * `np.where(hl > ll, 'UpTrend', np.where(ll > hl, 'DownTrend', 'NoTrend'))`.
   * A comparison with an undefined cell is false, so such a row is `NoTrend`.
   */
  function TrendColumn(highLags: seq<Cell>, lowLags: seq<Cell>): (r: seq<Trend>)
    requires |highLags| == |lowLags|
    ensures |r| == |highLags|
    ensures forall j :: 0 <= j < |r| ==>
              (r[j] == UpTrend <==> highLags[j].Some? && lowLags[j].Some? && highLags[j].value > lowLags[j].value)
    ensures forall j :: 0 <= j < |r| ==>
              (r[j] == DownTrend <==> highLags[j].Some? && lowLags[j].Some? && lowLags[j].value > highLags[j].value)
    ensures forall j :: 0 <= j < |r| ==>
              (r[j] == NoTrend <==> highLags[j].None? || lowLags[j].None? || highLags[j].value == lowLags[j].value)
  {
    seq(|highLags|, j requires 0 <= j < |highLags| =>
      var hl := highLags[j];
      var ll := lowLags[j];
      if hl.Some? && ll.Some? && hl.value > ll.value then UpTrend
      else if hl.Some? && ll.Some? && ll.value > hl.value then DownTrend
      else NoTrend)
  }

  /**
   * `add_rolling_columns(n)` on a table with `rows` rows: the table after
   * the call and its outcome. Each write happens in the source's order, so a
   * call that raises part-way keeps the columns written before the fault. A
   * table without rows takes the length of the first list written into it.
   */
  function AddRolling(columns: map<string, Column>, rows: nat, n: int): (r: Step)
    ensures n < 1 ==> r.rows == rows && r.columns == columns && r.outcome.Failed?
    ensures r.rows == rows || (rows == 0 && 1 <= n <= r.rows)
    ensures n >= 1 ==> columns.Keys <= r.columns.Keys <= columns.Keys + WrittenNames(n)
    ensures r.outcome == Done ==> n >= 1 && r.columns.Keys == columns.Keys + WrittenNames(n)
  {
    if "High" !in columns then Step(rows, columns, Failed(MissingColumn("High")))
    else if n < 0 then Step(rows, columns, Failed(NegativeWindow))
    else if n == 0 then Step(rows, columns, Failed(EmptyWindow))
    else if !columns["High"].Numbers? then Step(rows, columns, Failed(NotNumeric("High")))
    else
      var high := columns["High"].values;
      var rollingMax := ForwardColumn(high, n, WindowMax);
      var maxLag := ForwardColumn(high, n, FirstMaxOffset);
      if |rollingMax| != rows && rows != 0 then
        Step(rows, columns, Failed(LengthMismatch(rows, |rollingMax|)))
      else
        var rows1 := |rollingMax|;
        var base := if rows == 0 then Reindexed(columns, rows1) else columns;
        var withHigh := base[HighName(n) := Numbers(rollingMax)][HighLagName(n) := Numbers(maxLag)];
        AddLowColumns(withHigh, rows1, n, maxLag)
  }

  /** The columns written from `Low`: its value and lag columns, then the label. */
  function LowWrittenNames(n: nat): set<string> {
    {LowName(n), LowLagName(n), LabelName}
  }

  /**
   * The second half of `add_rolling_columns(n)`: the `Low` columns and the
   * label, written into the table the `High` half left, whose `High` lag
   * column is `maxLag`.
   */
  function AddLowColumns(columns: map<string, Column>, rows: nat, n: nat, maxLag: seq<Cell>): (r: Step)
    requires n >= 1 && |maxLag| == rows
    ensures r.rows == rows
    ensures columns.Keys <= r.columns.Keys <= columns.Keys + LowWrittenNames(n)
    ensures r.outcome == Done ==> r.columns.Keys == columns.Keys + LowWrittenNames(n)
    ensures r.outcome != Done ==> r.columns == columns
  {
    if "Low" !in columns then Step(rows, columns, Failed(MissingColumn("Low")))
    else if !columns["Low"].Numbers? then Step(rows, columns, Failed(NotNumeric("Low")))
    else
      var low := columns["Low"].values;
      var rollingMin := ForwardColumn(low, n, WindowMin);
      var minLag := ForwardColumn(low, n, FirstMinOffset);
      if |rollingMin| != rows then Step(rows, columns, Failed(LengthMismatch(rows, |rollingMin|)))
      else
        var withLow := columns[LowName(n) := Numbers(rollingMin)][LowLagName(n) := Numbers(minLag)];
        Step(rows, withLow[LabelName := Labels(TrendColumn(maxLag, minLag))], Done)
  }

  /**
   * Every column other than the five written ones — including `High`, `Low`
   * and the other price and date columns — keeps its value, whatever the
   * outcome, unless the table had no rows and grew: then it holds undefined
   * cells.
   */
  lemma OtherColumnsUnchanged(columns: map<string, Column>, rows: nat, n: int, name: string)
    requires name in columns
    requires n < 1 || name !in WrittenNames(n)
    ensures var r := AddRolling(columns, rows, n);
            && name in r.columns
            && r.columns[name] == if r.rows == rows then columns[name] else Numbers(Undefined(r.rows))
  {
  }

  /** The `self.data` table of a `SwingTrading` object. */
  class PriceTable {
    var rows: nat
    var columns: map<string, Column>

    ghost predicate Valid()
      reads this
    {
      Aligned(rows, columns)
    }

    /** The table `get_data` leaves behind, taken as given. */
    constructor (rows: nat, columns: map<string, Column>)
      requires Aligned(rows, columns)
      ensures Valid() && this.rows == rows && this.columns == columns
    {
      this.rows := rows;
      this.columns := columns;
    }

    /**
     * `add_rolling_columns(rows_forward)`: writes the five columns one after
     * another into the table, or stops at the first fault. Columns it does
     * not write keep their values, unless the table had no rows and the
     * first write gave it some.
     */
    method AddRollingColumns(n: int) returns (outcome: Outcome)
      requires Valid()
      modifies this
      ensures Valid()
      ensures Step(rows, columns, outcome) == AddRolling(old(columns), old(rows), n)
      ensures forall name :: name in old(columns) && (n < 1 || name !in WrittenNames(n)) ==>
                name in columns &&
                columns[name] == if rows == old(rows) then old(columns)[name] else Numbers(Undefined(rows))
    {
      if "High" !in columns {
        return Failed(MissingColumn("High"));
      }
      if n < 0 {
        return Failed(NegativeWindow);
      }
      if n == 0 {
        return Failed(EmptyWindow);
      }
      if !columns["High"].Numbers? {
        return Failed(NotNumeric("High"));
      }
      WrittenNamesDistinct(n);
      var high := columns["High"].values;
      var rollingMax := ForwardColumn(high, n, WindowMax);
      var maxLag := ForwardColumn(high, n, FirstMaxOffset);
      if |rollingMax| != rows {
        if rows != 0 {
          return Failed(LengthMismatch(rows, |rollingMax|));
        }
        // An empty table is reindexed to the length of the list.
        rows := |rollingMax|;
        columns := Reindexed(columns, rows);
      }
      columns := columns[HighName(n) := Numbers(rollingMax)];
      columns := columns[HighLagName(n) := Numbers(maxLag)];

      outcome := WriteLowColumns(n, maxLag);
    }

    /**
     * The `Low` half of `add_rolling_columns(rows_forward)`, on a table that
     * already holds the `High` columns: the `Low` value and lag columns, then
     * the label. Every other column keeps its value.
     */
    method WriteLowColumns(n: nat, maxLag: seq<Cell>) returns (outcome: Outcome)
      requires Valid() && 1 <= n <= rows && |maxLag| == rows
      modifies this
      ensures Valid() && rows == old(rows)
      ensures Step(rows, columns, outcome) == AddLowColumns(old(columns), old(rows), n, maxLag)
      ensures forall name :: name in old(columns) && name !in LowWrittenNames(n) ==>
                name in columns && columns[name] == old(columns)[name]
    {
      if "Low" !in columns {
        return Failed(MissingColumn("Low"));
      }
      if !columns["Low"].Numbers? {
        return Failed(NotNumeric("Low"));
      }
      var low := columns["Low"].values;
      var rollingMin := ForwardColumn(low, n, WindowMin);
      var minLag := ForwardColumn(low, n, FirstMinOffset);
      // `Low` has one entry per row and `n <= rows`, so this write cannot
      // fail where the `High` one did not.
      assert |rollingMin| == rows;
      columns := columns[LowName(n) := Numbers(rollingMin)];
      columns := columns[LowLagName(n) := Numbers(minLag)];

      columns := columns[LabelName := Labels(TrendColumn(maxLag, minLag))];
      outcome := Done;
    }
  }
}
