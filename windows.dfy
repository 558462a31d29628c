/**
 * The rolling-window primitives that `SwingTrading.add_rolling_columns`
 * builds its columns from: pandas' `Series.rolling(n)` with a reducer,
 * Python's `max`/`min` over a window, `list.index`, slicing and padding.
 * Prices are integers; only their order and equality matter. A cell of a
 * numeric column is a number or undefined (pandas' NaN).
 */
module Windows {

  datatype Option<T> = None | Some(value: T)

  /** One entry of a numeric column; `None` is NaN. */
  type Cell = Option<int>

  /** The largest value of a non-empty window (`max(x)`). */
  function Max(w: seq<int>): (m: int)
    requires |w| > 0
    ensures m in w
    ensures forall k :: 0 <= k < |w| ==> w[k] <= m
  {
    if |w| == 1 then w[0]
    else
      var rest := Max(w[1..]);
      if w[0] >= rest then w[0] else rest
  }

  /** The smallest value of a non-empty window (`min(x)`). */
  function Min(w: seq<int>): (m: int)
    requires |w| > 0
    ensures m in w
    ensures forall k :: 0 <= k < |w| ==> m <= w[k]
  {
    if |w| == 1 then w[0]
    else
      var rest := Min(w[1..]);
      if w[0] <= rest then w[0] else rest
  }

  /** Python's `list.index(v)`: the position of the first occurrence of `v`. */
  function IndexOf(w: seq<int>, v: int): (i: nat)
    requires v in w
    ensures i < |w| && w[i] == v
    ensures forall k :: 0 <= k < i ==> w[k] != v
  {
    if w[0] == v then 0
    else
      assert v in w[1..] by {
        var p :| 0 <= p < |w| && w[p] == v;
        assert w[1..][p - 1] == v;
      }
      1 + IndexOf(w[1..], v)
  }

  /**
   * The four reducers applied to each rolling window: `.max()`, `.min()`,
   * and the two `.apply(lambda x: list(x).index(max(x))+1)` /
   * `.apply(lambda x: list(x).index(min(x))+1)` lag lambdas.
   */
  datatype Reducer = WindowMax | WindowMin | FirstMaxOffset | FirstMinOffset

  /** One reducer applied to one complete window. */
  function Reduce(red: Reducer, w: seq<int>): (r: int)
    requires |w| > 0
    ensures red == WindowMax || red == WindowMin ==> r in w
    ensures red == WindowMax ==> forall k :: 0 <= k < |w| ==> w[k] <= r
    ensures red == WindowMin ==> forall k :: 0 <= k < |w| ==> r <= w[k]
    ensures red == FirstMaxOffset || red == FirstMinOffset ==> 1 <= r <= |w|
  {
    match red
    case WindowMax => Max(w)
    case WindowMin => Min(w)
    case FirstMaxOffset => IndexOf(w, Max(w)) + 1
    case FirstMinOffset => IndexOf(w, Min(w)) + 1
  }

  /**
   * The lag lambda's result is the 1-based position of the first maximum:
   * every earlier position holds a strictly smaller value.
   */
  lemma FirstMaxOffsetIsEarliest(w: seq<int>)
    requires |w| > 0
    ensures var lag := Reduce(FirstMaxOffset, w);
            && 1 <= lag <= |w|
            && w[lag - 1] == Reduce(WindowMax, w)
            && forall k :: 0 <= k < lag - 1 ==> w[k] < Reduce(WindowMax, w)
  {
  }

  /**
   * The lag lambda's result is the 1-based position of the first minimum:
   * every earlier position holds a strictly larger value.
   */
  lemma FirstMinOffsetIsEarliest(w: seq<int>)
    requires |w| > 0
    ensures var lag := Reduce(FirstMinOffset, w);
            && 1 <= lag <= |w|
            && w[lag - 1] == Reduce(WindowMin, w)
            && forall k :: 0 <= k < lag - 1 ==> Reduce(WindowMin, w) < w[k]
  {
  }

  /** No cell of `w` is undefined. */
  predicate Complete(w: seq<Cell>) {
    forall i :: 0 <= i < |w| ==> w[i].Some?
  }

  /** The numbers of a window without undefined cells. */
  function Values(w: seq<Cell>): (vs: seq<int>)
    requires Complete(w)
    ensures |vs| == |w|
    ensures forall i :: 0 <= i < |w| ==> w[i] == Some(vs[i])
  {
    seq(|w|, i requires 0 <= i < |w| => w[i].value)
  }

  /** `k` undefined cells: what pandas fills a column with when it reindexes it. */
  function Undefined(k: nat): (w: seq<Cell>)
    ensures |w| == k && forall i :: 0 <= i < k ==> w[i] == None
  {
    seq(k, _ => None)
  }

  /**
   * One reducer applied to one window of cells: undefined as soon as one
   * cell is (pandas' `min_periods = n`), otherwise the reducer's result.
   */
  function ReduceWindow(red: Reducer, w: seq<Cell>): (c: Cell)
    requires |w| > 0
    ensures c.Some? <==> Complete(w)
    ensures c.Some? ==> c.value == Reduce(red, Values(w))
  {
    if Complete(w) then Some(Reduce(red, Values(w))) else None
  }

  /**
   * `s.rolling(n).<reducer>`: entry `i` reduces the `n` values ending at
   * row `i`. It is undefined while fewer than `n` rows exist.
   */
  function Rolling(s: seq<Cell>, n: nat, red: Reducer): (r: seq<Cell>)
    requires n >= 1
    ensures |r| == |s|
  {
    seq(|s|, i requires 0 <= i < |s| =>
      if i + 1 < n then None else ReduceWindow(red, s[i + 1 - n .. i + 1]))
  }

  /**
   * A rolling entry is defined exactly when `n` rows end at it and none of
   * their values is undefined.
   */
  lemma RollingDefinedExactlyWhen(s: seq<Cell>, n: nat, red: Reducer, i: nat)
    requires n >= 1 && i < |s|
    ensures Rolling(s, n, red)[i].Some? <==> n <= i + 1 && Complete(s[i + 1 - n .. i + 1])
  {
  }

  /** Python's slice `xs[n:]`, which is empty when `n` is past the end. */
  function Drop<T>(xs: seq<T>, n: nat): (r: seq<T>)
    ensures |r| == if n <= |xs| then |xs| - n else 0
  {
    if n <= |xs| then xs[n..] else []
  }

  /** `[0]*n` */
  function Zeros(n: nat): (r: seq<Cell>)
    ensures |r| == n && forall i :: 0 <= i < n ==> r[i] == Some(0)
  {
    seq(n, _ => Some(0))
  }

  /**
   * `list(s.rolling(n).<reducer>)[n:] + [0]*n`: the rolling result moved
   * up by `n` rows and padded at the end with `n` zeros. The padded list has
   * `N` entries only when `n <= N`; otherwise it has `n`.
   */
  function ForwardColumn(s: seq<Cell>, n: nat, red: Reducer): (col: seq<Cell>)
    requires n >= 1
    ensures |col| == if n <= |s| then |s| else n
    ensures forall j :: |col| - n <= j < |col| ==> col[j] == Some(0)
  {
    Drop(Rolling(s, n, red), n) + Zeros(n)
  }

  /**
   * Row `j` of a forward column reduces the `n` rows strictly after `j`
   * (the current row is not in its window), and is undefined when one of
   * them is.
   */
  lemma ForwardColumnAt(s: seq<Cell>, n: nat, red: Reducer, j: nat)
    requires 1 <= n <= |s| && j < |s| - n
    ensures ForwardColumn(s, n, red)[j] == ReduceWindow(red, s[j + 1 .. j + n + 1])
  {
    var rolled := Rolling(s, n, red);
    assert ForwardColumn(s, n, red) == rolled[n..] + Zeros(n);
    assert (rolled[n..] + Zeros(n))[j] == rolled[n + j];
    RollingAt(s, n, red, j);
  }

  /** Entry `n + j` of a rolling result reduces rows `j+1 .. j+n`. */
  lemma RollingAt(s: seq<Cell>, n: nat, red: Reducer, j: nat)
    requires 1 <= n && j + n < |s|
    ensures Rolling(s, n, red)[n + j] == ReduceWindow(red, s[j + 1 .. j + n + 1])
  {
    var i := n + j;
    assert i + 1 - n == j + 1 && i + 1 == j + n + 1;
  }

  /** A column of at most `n` rows yields nothing but the padding. */
  lemma ForwardColumnOfShortColumn(s: seq<Cell>, n: nat, red: Reducer)
    requires n >= 1 && |s| <= n
    ensures ForwardColumn(s, n, red) == Zeros(n)
  {
    assert Drop(Rolling(s, n, red), n) == [];
  }

  /**
   * The same as `FirstMaxOffsetIsEarliest`, stated over rows `j+1 .. j+n` of
   * a column whose window has no undefined cell.
   */
  lemma FirstMaxInRows(s: seq<Cell>, j: nat, n: nat)
    requires 1 <= n && j + n < |s| && Complete(s[j + 1 .. j + n + 1])
    ensures var lag := ReduceWindow(FirstMaxOffset, s[j + 1 .. j + n + 1]);
            var v := ReduceWindow(WindowMax, s[j + 1 .. j + n + 1]);
            && lag.Some? && v.Some?
            && 1 <= lag.value <= n
            && s[j + lag.value] == v
            && forall r :: j < r < j + lag.value ==> s[r].Some? && s[r].value < v.value
  {
    var w := s[j + 1 .. j + n + 1];
    var vs := Values(w);
    FirstMaxOffsetIsEarliest(vs);
    var lag := Reduce(FirstMaxOffset, vs);
    assert s[j + lag] == w[lag - 1];
    forall r | j < r < j + lag
      ensures s[r].Some? && s[r].value < Reduce(WindowMax, vs)
    {
      assert s[r] == w[r - j - 1];
    }
  }

  /**
   * The same as `FirstMinOffsetIsEarliest`, stated over rows `j+1 .. j+n` of
   * a column whose window has no undefined cell.
   */
  lemma FirstMinInRows(s: seq<Cell>, j: nat, n: nat)
    requires 1 <= n && j + n < |s| && Complete(s[j + 1 .. j + n + 1])
    ensures var lag := ReduceWindow(FirstMinOffset, s[j + 1 .. j + n + 1]);
            var v := ReduceWindow(WindowMin, s[j + 1 .. j + n + 1]);
            && lag.Some? && v.Some?
            && 1 <= lag.value <= n
            && s[j + lag.value] == v
            && forall r :: j < r < j + lag.value ==> s[r].Some? && v.value < s[r].value
  {
    var w := s[j + 1 .. j + n + 1];
    var vs := Values(w);
    FirstMinOffsetIsEarliest(vs);
    var lag := Reduce(FirstMinOffset, vs);
    assert s[j + lag] == w[lag - 1];
    forall r | j < r < j + lag
      ensures s[r].Some? && Reduce(WindowMin, vs) < s[r].value
    {
      assert s[r] == w[r - j - 1];
    }
  }
}
