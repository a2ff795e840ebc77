/** Per-user summary of the post records: `processSummaryData` sums every
    numeric or boolean field over all rows, and `displaySummaryData` shows
    each total with its change since the previous summary. */
module Summary {
  import opened Numbers
  import opened Wrappers

  /** A field value of a post record after parsing (the reviver turns
      `null` into ''). */
  datatype Value = Int(i: int) | Bool(b: bool) | Str(s: string)

  /** One row: its fields in object order. */
  type Row = seq<(string, Value)>

  const TotalCountKey := "totalcount"

  /** The number a field contributes to its column: booleans count 1 or 0,
      and every other value counts when `isNumeric` holds of it, i.e. when
      `BigInt(value)` does not throw. */
  function Contribution(v: Value): Conversion
  {
    match v
    case Int(i) => Converted(i)
    case Bool(b) => Converted(if b then 1 else 0)
    case Str(s) => BigIntOfString(s)
  }

  predicate RowHasColumn(row: Row, k: string)
  {
    exists j :: 0 <= j < |row| && row[j].0 == k && Contribution(row[j].1).Converted?
  }

  predicate HasColumn(rows: seq<Row>, k: string)
  {
    exists i :: 0 <= i < |rows| && RowHasColumn(rows[i], k)
  }

  /** Sum of the numeric values of field `k` in one row. */
  function RowTotal(row: Row, k: string): int
  {
    if row == [] then 0
    else
      var last := row[|row| - 1];
      RowTotal(row[..|row| - 1], k)
      + (if last.0 == k && Contribution(last.1).Converted? then Contribution(last.1).value else 0)
  }

  /** Sum of the numeric values of field `k` over all rows. */
  function ColumnTotal(rows: seq<Row>, k: string): int
  {
    if rows == [] then 0 else ColumnTotal(rows[..|rows| - 1], k) + RowTotal(rows[|rows| - 1], k)
  }

  /** `processSummaryData`: one formatted total per column that has a
      numeric value somewhere, and `totalcount`, the number of rows, which
      replaces any column of that name. */
  method ProcessSummaryData(rows: seq<Row>) returns (summary: map<string, string>)
    ensures forall k :: k in summary <==> k == TotalCountKey || HasColumn(rows, k)
    ensures summary[TotalCountKey] == BigIntToString(|rows|)
    ensures forall k :: k in summary && k != TotalCountKey ==> summary[k] == BigIntToString(ColumnTotal(rows, k))
  {
    var sums: map<string, int> := map[];
    var totalCount := 0;
    for i := 0 to |rows|
      invariant totalCount == i
      invariant forall k :: k in sums <==> HasColumn(rows[..i], k)
      invariant forall k :: k in sums ==> sums[k] == ColumnTotal(rows[..i], k)
    {
      assert rows[..i + 1][..i] == rows[..i];
      var before := sums;
      sums := AddRowTotals(sums, rows[i]);
      forall k | k in sums
        ensures sums[k] == ColumnTotal(rows[..i + 1], k)
      {
        if k !in before {
          ColumnTotalWithoutColumn(rows[..i], k);
        }
      }
      forall k | HasColumn(rows[..i + 1], k)
        ensures HasColumn(rows[..i], k) || RowHasColumn(rows[i], k)
      {
        var w :| 0 <= w < i + 1 && RowHasColumn(rows[..i + 1][w], k);
        if w < i {
          assert rows[..i][w] == rows[..i + 1][w];
        }
      }
      totalCount := totalCount + 1;
    }
    assert rows[..|rows|] == rows;
    summary := map k | k in sums :: BigIntToString(sums[k]);
    summary := summary[TotalCountKey := BigIntToString(totalCount)];
  }

  /** The inner loop of `processSummaryData`: adds the numeric fields of one
      row to the running column sums, creating a column at its first
      numeric value. */
  method AddRowTotals(sums: map<string, int>, row: Row) returns (r: map<string, int>)
    ensures forall k :: k in r <==> k in sums || RowHasColumn(row, k)
    ensures forall k :: k in r ==> r[k] == (if k in sums then sums[k] else 0) + RowTotal(row, k)
  {
    r := sums;
    for j := 0 to |row|
      invariant Partial(sums, row, j, r)
    {
      ghost var before := r;
      var (key, value) := row[j];
      var n := Contribution(value);
      if n.Converted? {
        var prior := if key in r then r[key] else 0;
        r := r[key := prior + n.value];
      }
      PartialStep(sums, row, j, before, r);
    }
    assert row[..|row|] == row;
  }

  /** The column sums after the first `j` fields of `row`. */
  ghost predicate Partial(sums: map<string, int>, row: Row, j: int, r: map<string, int>)
    requires 0 <= j <= |row|
  {
    && (forall k :: k in r <==> k in sums || RowHasColumn(row[..j], k))
    && (forall k :: k in r ==> r[k] == (if k in sums then sums[k] else 0) + RowTotal(row[..j], k))
  }

  /** Adding field `j` to its column extends the sums by one field. */
  lemma PartialStep(sums: map<string, int>, row: Row, j: int, before: map<string, int>, r: map<string, int>)
    requires 0 <= j < |row| && Partial(sums, row, j, before)
    requires var n := Contribution(row[j].1);
             var key := row[j].0;
             r == if n.Converted? then before[key := (if key in before then before[key] else 0) + n.value] else before
    ensures Partial(sums, row, j + 1, r)
  {
    forall k
      ensures k in r <==> k in sums || RowHasColumn(row[..j + 1], k)
    {
      RowHasColumnSnoc(row, j, k);
    }
    forall k | k in r
      ensures r[k] == (if k in sums then sums[k] else 0) + RowTotal(row[..j + 1], k)
    {
      RowTotalSnoc(row, j, k);
      if k !in before {
        RowTotalWithoutColumn(row[..j], k);
      }
    }
  }

  /** One more field adds its contribution to its own column. */
  lemma RowTotalSnoc(row: Row, j: int, k: string)
    requires 0 <= j < |row|
    ensures RowTotal(row[..j + 1], k)
            == RowTotal(row[..j], k)
               + (if row[j].0 == k && Contribution(row[j].1).Converted? then Contribution(row[j].1).value else 0)
  {
    assert row[..j + 1][..j] == row[..j];
  }

  /** One more field opens its own column when it is numeric. */
  lemma RowHasColumnSnoc(row: Row, j: int, k: string)
    requires 0 <= j < |row|
    ensures RowHasColumn(row[..j + 1], k)
            <==> RowHasColumn(row[..j], k) || (row[j].0 == k && Contribution(row[j].1).Converted?)
  {
    if RowHasColumn(row[..j + 1], k) {
      var w :| 0 <= w < j + 1 && row[..j + 1][w].0 == k && Contribution(row[..j + 1][w].1).Converted?;
      if w < j {
        assert row[..j][w] == row[w];
      }
    }
    if RowHasColumn(row[..j], k) {
      var w :| 0 <= w < j && row[..j][w].0 == k && Contribution(row[..j][w].1).Converted?;
      assert row[..j + 1][w] == row[w];
    }
    if row[j].0 == k && Contribution(row[j].1).Converted? {
      assert row[..j + 1][j] == row[j];
    }
  }

  lemma {:induction false} RowTotalWithoutColumn(row: Row, k: string)
    requires !RowHasColumn(row, k)
    ensures RowTotal(row, k) == 0
  {
    if row != [] {
      var init := row[..|row| - 1];
      RowTotalWithoutColumn(init, k);
    }
  }

  lemma {:induction false} ColumnTotalWithoutColumn(rows: seq<Row>, k: string)
    requires !HasColumn(rows, k)
    ensures ColumnTotal(rows, k) == 0
  {
    if rows != [] {
      var init := rows[..|rows| - 1];
      ColumnTotalWithoutColumn(init, k);
      RowTotalWithoutColumn(rows[|rows| - 1], k);
    }
  }

  /** Reads a formatted total back with its sign: `stringToBigInt` of the
      digits, negated when the text starts with '-'. */
  function SignedStringToBigInt(s: string): int
  {
    if |s| > 0 && s[0] == '-' then 0 - StringToBigInt(s) else StringToBigInt(s)
  }

  lemma SignedStringToBigIntOfFormatted(i: int)
    ensures SignedStringToBigInt(BigIntToString(i)) == i
  {
    StringToBigIntOfFormatted(i);
    FormattedSign(i);
  }

  /** The change shown beside a numeric total in `displaySummaryData`, as
      written: both totals are read with `stringToBigInt`, the difference is
      formatted, a '' or '0' difference shows nothing, and any other gets a
      '+' unless it starts with '-'. */
  function DeltaText(value: string, prior: string): Option<string>
  {
    var d := BigIntToString(StringToBigInt(value) - StringToBigInt(prior));
    if d == "" || d == "0" then None else Some(if d[0] != '-' then "+" + d else d)
  }

  /** The same display with both totals read back with their sign. */
  function DeltaTextSigned(value: string, prior: string): Option<string>
  {
    var d := BigIntToString(SignedStringToBigInt(value) - SignedStringToBigInt(prior));
    if d == "" || d == "0" then None else Some(if d[0] != '-' then "+" + d else d)
  }

  /** A formatted difference is "0" exactly when it is zero. */
  lemma FormattedZero(d: int)
    ensures (BigIntToString(d) == "0") <==> d == 0
  {
    StringToBigIntOfFormatted(d);
    FormattedSign(d);
    if BigIntToString(d) == "0" {
      assert KeepDigits("0") == "0";
      assert DigitsValue("0") == 0;
    }
  }

  /** What the display shows for a difference `d`: nothing when it is zero,
      otherwise a signed text that reads back as `d`. */
  lemma {:induction false} DeltaOfDifference(d: int)
    ensures var t := BigIntToString(d);
            (if t == "" || t == "0" then None else Some(if t[0] != '-' then "+" + t else t))
            == (if d == 0 then None else Some(if d > 0 then "+" + BigIntToString(d) else BigIntToString(d)))
  {
    FormattedZero(d);
    FormattedSign(d);
  }

  /** For non-negative totals (the view, vote and comment sums) the delta is
      shown exactly when the totals differ, with '+' for a rise and '-' for a
      fall, and its digits give the size of the change. */
  lemma DeltaOfNonNegativeTotals(a: nat, b: nat)
    ensures DeltaText(BigIntToString(a), BigIntToString(b)).Some? <==> a != b
    ensures DeltaText(BigIntToString(a), BigIntToString(b)).Some? ==>
              var t := DeltaText(BigIntToString(a), BigIntToString(b)).value;
              |t| >= 1 && (t[0] == '+' <==> a > b) && (t[0] == '-' <==> a < b)
              && StringToBigInt(t) == (if a > b then a - b else b - a)
  {
    StringToBigIntOfFormatted(a);
    StringToBigIntOfFormatted(b);
    var d := a - b;
    DeltaOfDifference(d);
    FormattedSign(d);
    StringToBigIntOfFormatted(d);
    if d > 0 {
      KeepDigitsConcat("+", BigIntToString(d));
      assert "+"[1..] == [];
      assert KeepDigits("+") == [];
      assert KeepDigits("+" + BigIntToString(d)) == KeepDigits(BigIntToString(d));
    }
  }

  /** As written, a negative total loses its sign on the way back: the
      difference between a total of -10 and a prior total of -5 is shown as
      a rise of 5. */
  lemma DeltaOfNegativeTotalsAsWritten()
    ensures DeltaText(BigIntToString(-10), BigIntToString(-5)) == Some("+5")
  {
    var x, y := BigIntToString(-10), BigIntToString(-5);
    StringToBigIntOfFormatted(-10);
    StringToBigIntOfFormatted(-5);
    assert StringToBigInt(x) - StringToBigInt(y) == 5;
    assert NatToString(5) == [DigitChar(5)] == "5";
    assert Group(5) == "5";
    assert BigIntToString(5) == "5";
    var d := BigIntToString(StringToBigInt(x) - StringToBigInt(y));
    assert d == "5" && d[0] == '5';
    assert DeltaText(x, y) == Some("+" + d);
    assert "+" + "5" == "+5";
  }

  /** Read with their sign, totals of any sign give the true difference. */
  lemma DeltaSignedOfTotals(a: int, b: int)
    ensures DeltaTextSigned(BigIntToString(a), BigIntToString(b)).Some? <==> a != b
    ensures DeltaTextSigned(BigIntToString(a), BigIntToString(b)).Some? ==>
              var t := DeltaTextSigned(BigIntToString(a), BigIntToString(b)).value;
              |t| >= 1 && (t[0] == '+' <==> a > b)
              && SignedStringToBigInt(if t[0] == '+' then t[1..] else t) == a - b
  {
    SignedStringToBigIntOfFormatted(a);
    SignedStringToBigIntOfFormatted(b);
    var d := a - b;
    DeltaOfDifference(d);
    FormattedSign(d);
    SignedStringToBigIntOfFormatted(d);
    if d > 0 {
      var t := "+" + BigIntToString(d);
      assert t[1..] == BigIntToString(d);
    }
  }
}
