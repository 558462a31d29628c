/**
 * The names `add_rolling_columns` writes to: `'{}_{}'.format(...)` of a
 * prefix and the window length, and the fixed label column name.
 */
module ColumnNames {

  predicate IsDigit(c: char) {
    '0' <= c <= '9'
  }

  predicate AllDigits(s: string) {
    forall i :: 0 <= i < |s| ==> IsDigit(s[i])
  }

  function DigitChar(d: nat): (c: char)
    requires d < 10
    ensures IsDigit(c) && (c as int) - ('0' as int) == d
  {
    (('0' as int) + d) as char
  }

  /** Python's `str(n)` for a natural number: decimal digits, no leading zeros. */
  function Decimal(n: nat): (s: string)
    ensures |s| >= 1 && AllDigits(s)
    ensures n >= 10 ==> s[0] != '0'
    decreases n
  {
    if n < 10 then [DigitChar(n)]
    else Decimal(n / 10) + [DigitChar(n % 10)]
  }

  /** The value of a string of decimal digits. */
  function DecimalValue(s: string): nat
    requires AllDigits(s)
  {
    if |s| == 0 then 0
    else DecimalValue(s[..|s| - 1]) * 10 + ((s[|s| - 1] as int) - ('0' as int))
  }

  /** Reading back a formatted window length gives the window length. */
  lemma {:induction false} DecimalRoundTrip(n: nat)
    ensures DecimalValue(Decimal(n)) == n
    decreases n
  {
    var s := Decimal(n);
    if n >= 10 {
      DecimalRoundTrip(n / 10);
      assert s[..|s| - 1] == Decimal(n / 10);
    }
  }

  /** Distinct window lengths are formatted differently. */
  lemma DecimalInjective(a: nat, b: nat)
    ensures Decimal(a) == Decimal(b) ==> a == b
  {
    DecimalRoundTrip(a);
    DecimalRoundTrip(b);
  }

  /** `'{}_{}'.format('High', n)`: `High_` followed by the window length in decimal. */
  function HighName(n: nat): (name: string)
    ensures |name| > 5 && name[5..] == Decimal(n)
  {
    var name := "High_" + Decimal(n);
    assert name[5..] == Decimal(n);
    name
  }

  /** `'{}_lag_{}'.format('High', n)`: `High_lag_` followed by the window length in decimal. */
  function HighLagName(n: nat): (name: string)
    ensures |name| > 9 && name[9..] == Decimal(n)
  {
    var name := "High_lag_" + Decimal(n);
    assert name[9..] == Decimal(n);
    name
  }

  /** `'{}_{}'.format('Low', n)`: `Low_` followed by the window length in decimal. */
  function LowName(n: nat): (name: string)
    ensures |name| > 4 && name[4..] == Decimal(n)
  {
    var name := "Low_" + Decimal(n);
    assert name[4..] == Decimal(n);
    name
  }

  /** `'{}_lag_{}'.format('Low', n)`: `Low_lag_` followed by the window length in decimal. */
  function LowLagName(n: nat): (name: string)
    ensures |name| > 8 && name[8..] == Decimal(n)
  {
    var name := "Low_lag_" + Decimal(n);
    assert name[8..] == Decimal(n);
    name
  }

  /**
   * Each name is its fixed prefix followed by digits that read back as the
   * window length.
   */
  lemma NamesReadBack(n: nat)
    ensures HighName(n)[..5] == "High_" && AllDigits(HighName(n)[5..]) && DecimalValue(HighName(n)[5..]) == n
    ensures HighLagName(n)[..9] == "High_lag_" && AllDigits(HighLagName(n)[9..]) && DecimalValue(HighLagName(n)[9..]) == n
    ensures LowName(n)[..4] == "Low_" && AllDigits(LowName(n)[4..]) && DecimalValue(LowName(n)[4..]) == n
    ensures LowLagName(n)[..8] == "Low_lag_" && AllDigits(LowLagName(n)[8..]) && DecimalValue(LowLagName(n)[8..]) == n
  {
    DecimalRoundTrip(n);
  }

  /** The trend label column; its name does not depend on the window length. */
  const LabelName: string := "High_Low_lag_5"

  /** The five columns one call writes. */
  function WrittenNames(n: nat): (names: set<string>)
    ensures |names| == 5
  {
    WrittenNamesDistinct(n);
    {HighName(n), HighLagName(n), LowName(n), LowLagName(n), LabelName}
  }

  /**
   * The five written names are pairwise different, and none of them is one
   * of the input columns `High` and `Low`.
   */
  lemma WrittenNamesDistinct(n: nat)
    ensures HighName(n) != HighLagName(n) && HighName(n) != LowName(n)
    ensures HighName(n) != LowLagName(n) && HighName(n) != LabelName
    ensures HighLagName(n) != LowName(n) && HighLagName(n) != LowLagName(n)
    ensures HighLagName(n) != LabelName
    ensures LowName(n) != LowLagName(n) && LowName(n) != LabelName
    ensures LowLagName(n) != LabelName
    ensures "High" !in {HighName(n), HighLagName(n), LowName(n), LowLagName(n), LabelName}
    ensures "Low" !in {HighName(n), HighLagName(n), LowName(n), LowLagName(n), LabelName}
  {
    var d := Decimal(n);
    assert HighName(n)[5] == d[0] && HighLagName(n)[5] == 'l' && LabelName[5] == 'L';
    assert LowName(n)[4] == d[0] && LowLagName(n)[4] == 'l';
    assert IsDigit(d[0]);
  }

  /** Calls with different window lengths write different value and lag columns. */
  lemma NamesDetermineWindow(n: nat, m: nat)
    requires n != m
    ensures HighName(n) != HighName(m) && HighLagName(n) != HighLagName(m)
    ensures LowName(n) != LowName(m) && LowLagName(n) != LowLagName(m)
    ensures HighName(n) != HighLagName(m) && LowName(n) != LowLagName(m)
  {
    DecimalInjective(n, m);
    assert HighName(n)[5..] == Decimal(n) && HighName(m)[5..] == Decimal(m);
    assert HighLagName(n)[9..] == Decimal(n) && HighLagName(m)[9..] == Decimal(m);
    assert LowName(n)[4..] == Decimal(n) && LowName(m)[4..] == Decimal(m);
    assert LowLagName(n)[8..] == Decimal(n) && LowLagName(m)[8..] == Decimal(m);
    assert HighName(n)[5] == Decimal(n)[0] && HighLagName(m)[5] == 'l';
    assert LowName(n)[4] == Decimal(n)[0] && LowLagName(m)[4] == 'l';
    assert IsDigit(Decimal(n)[0]);
  }

  /** None of the value and lag names of one window length is written by a call with another. */
  lemma WindowNamesNotWrittenBy(n: nat, m: nat)
    requires n != m
    ensures HighName(n) !in WrittenNames(m) && HighLagName(n) !in WrittenNames(m)
    ensures LowName(n) !in WrittenNames(m) && LowLagName(n) !in WrittenNames(m)
  {
    assert WrittenNames(m) == {HighName(m), HighLagName(m), LowName(m), LowLagName(m), LabelName};
    HighNamesNotWrittenBy(n, m);
    LowNamesNotWrittenBy(n, m);
  }

  /** The `High` value and lag names of `n` are none of the five names of `m`. */
  lemma HighNamesNotWrittenBy(n: nat, m: nat)
    requires n != m
    ensures HighName(n) !in {HighName(m), HighLagName(m), LowName(m), LowLagName(m), LabelName}
    ensures HighLagName(n) !in {HighName(m), HighLagName(m), LowName(m), LowLagName(m), LabelName}
  {
    NamesDetermineWindow(n, m);
    NamesDetermineWindow(m, n);
    WrittenNamesDistinct(n);
    FirstLetters(n);
    FirstLetters(m);
  }

  /** The `Low` value and lag names of `n` are none of the five names of `m`. */
  lemma LowNamesNotWrittenBy(n: nat, m: nat)
    requires n != m
    ensures LowName(n) !in {HighName(m), HighLagName(m), LowName(m), LowLagName(m), LabelName}
    ensures LowLagName(n) !in {HighName(m), HighLagName(m), LowName(m), LowLagName(m), LabelName}
  {
    NamesDetermineWindow(n, m);
    NamesDetermineWindow(m, n);
    WrittenNamesDistinct(n);
    FirstLetters(n);
    FirstLetters(m);
  }

  /** The `High` names start with `H`, the `Low` names with `L`. */
  lemma FirstLetters(n: nat)
    ensures HighName(n)[0] == 'H' && HighLagName(n)[0] == 'H'
    ensures LowName(n)[0] == 'L' && LowLagName(n)[0] == 'L'
  {
    assert HighName(n)[..5][0] == 'H' && HighLagName(n)[..9][0] == 'H';
    assert LowName(n)[..4][0] == 'L' && LowLagName(n)[..8][0] == 'L';
  }

  /**
   * Two calls with different window lengths share exactly one written
   * column: the label.
   */
  lemma OnlyLabelShared(n: nat, m: nat)
    requires n != m
    ensures WrittenNames(n) * WrittenNames(m) == {LabelName}
    ensures HighName(n) !in WrittenNames(m) && HighLagName(n) !in WrittenNames(m)
    ensures LowName(n) !in WrittenNames(m) && LowLagName(n) !in WrittenNames(m)
  {
    WindowNamesNotWrittenBy(n, m);
    forall x | x in WrittenNames(n) * WrittenNames(m)
      ensures x == LabelName
    {
    }
  }
}
