/**
 * The data side of the table component: which columns it shows, their headers, and the
 * cell values of every row before locale formatting.
 */
module TableRows {
  import opened Options
  import opened Strings
  import opened Rows
  import opened Dates
  import opened Seqs

  /** `defaultExcludeFields`: bookkeeping columns the table never shows. */
  const DefaultExcludeFields: seq<string> := ["id", "owner", "created_at", "updated_at"]

  /** What the component renders: the no-data message, or a table. */
  datatype TableView =
    | NoData
    | Table(columns: seq<string>, headers: seq<string>, rows: seq<Record>)

  /** The table's columns: the first row's keys, in order, minus the default and the caller's excluded fields. */
  function Columns(keys: seq<string>, excludeFields: seq<string>): (columns: seq<string>)
    ensures forall f :: f in columns <==> f in keys && f !in DefaultExcludeFields && f !in excludeFields
  {
    if |keys| == 0 then []
    else
      var rest := Columns(keys[1..], excludeFields);
      assert forall f :: f in keys <==> f == keys[0] || f in keys[1..];
      var k := keys[0];
      if k !in DefaultExcludeFields + excludeFields then [k] + rest else rest
  }

  /** Every column is one of the keys, so distinct keys give distinct columns. */
  lemma {:induction false} ColumnsDistinct(keys: seq<string>, excludeFields: seq<string>)
    requires NoDuplicates(keys)
    ensures NoDuplicates(Columns(keys, excludeFields))
  {
    if |keys| > 0 {
      var rest := keys[1..];
      assert NoDuplicates(rest) by {
        assert forall i :: 0 <= i < |rest| ==> rest[i] == keys[i + 1];
      }
      ColumnsDistinct(rest, excludeFields);
      assert keys[0] !in rest;
    }
  }

  /** Past a distinct first key, positions in the key list are one more than in its tail. */
  lemma IndexOfTail(keys: seq<string>, y: string)
    requires |keys| > 0 && y in keys[1..] && y != keys[0]
    ensures IndexOf(keys, y) == IndexOf(keys[1..], y) + 1
  {
  }

  /** Keeping or dropping the first key preserves the order a filtered tail already has. */
  lemma FilterStepKeepsOrder(keys: seq<string>, cs: seq<string>, keep: bool)
    requires |keys| > 0 && keys[0] !in keys[1..]
    requires forall i :: 0 <= i < |cs| ==> cs[i] in keys[1..]
    requires forall i, j :: 0 <= i < j < |cs| ==> IndexOf(keys[1..], cs[i]) < IndexOf(keys[1..], cs[j])
    ensures var columns := if keep then [keys[0]] + cs else cs;
      && (forall i :: 0 <= i < |columns| ==> columns[i] in keys)
      && forall i, j :: 0 <= i < j < |columns| ==> IndexOf(keys, columns[i]) < IndexOf(keys, columns[j])
  {
    var tail := keys[1..];
    assert keys == [keys[0]] + tail;
    forall i | 0 <= i < |cs| ensures IndexOf(keys, cs[i]) == IndexOf(tail, cs[i]) + 1 {
      IndexOfTail(keys, cs[i]);
    }
    var columns := if keep then [keys[0]] + cs else cs;
    forall i, j | 0 <= i < j < |columns|
      ensures IndexOf(keys, columns[i]) < IndexOf(keys, columns[j])
    {
      if keep {
        assert columns[j] == cs[j - 1];
        if i > 0 {
          assert columns[i] == cs[i - 1];
        }
      }
    }
  }

  /** The columns keep the order of the keys they come from. */
  lemma {:induction false} ColumnsKeepOrder(keys: seq<string>, excludeFields: seq<string>)
    requires NoDuplicates(keys)
    ensures forall i, j :: 0 <= i < j < |Columns(keys, excludeFields)| ==>
      IndexOf(keys, Columns(keys, excludeFields)[i]) < IndexOf(keys, Columns(keys, excludeFields)[j])
  {
    if |keys| > 0 {
      var rest := keys[1..];
      assert NoDuplicates(rest) by {
        assert forall i :: 0 <= i < |rest| ==> rest[i] == keys[i + 1];
      }
      ColumnsKeepOrder(rest, excludeFields);
      assert keys[0] !in rest;
      var cs := Columns(rest, excludeFields);
      FilterStepKeepsOrder(keys, cs, keys[0] !in DefaultExcludeFields + excludeFields);
    }
  }

  /**
   * A cell's value: `item[field] ?? '-'`, then `formatDateTime` when the value is a string, the
   * field's name contains `time` or `date` in any letter case, and the string is a valid date.
   */
  function Cell(parse: Parser, field: string, value: Option<Val>): (cell: Val)
    ensures (value.None? || value.value.Null?) && (!IsDateFieldName(field) || parse("-").None?) ==> cell == Str("-")
    ensures (value.None? || value.value.Null?) && IsDateFieldName(field) && parse("-").Some? ==>
      && cell.Str?
      && ParseMonthText(cell.s, "年", "月") == Some((parse("-").value.year, parse("-").value.month as int))
      && forall t :: ParseMonthText(t, "年", "月") == Some((parse("-").value.year, parse("-").value.month as int)) ==> cell == Str(t)
    ensures value.Some? && !value.value.Null? && !value.value.Str? ==> cell == value.value
    ensures value.Some? && value.value.Str? && (!IsDateFieldName(field) || parse(value.value.s).None?) ==>
      cell == value.value
    ensures value.Some? && value.value.Str? && IsDateFieldName(field) && parse(value.value.s).Some? ==>
      && cell.Str?
      && ParseMonthText(cell.s, "年", "月") == Some((parse(value.value.s).value.year, parse(value.value.s).value.month as int))
      && forall t :: ParseMonthText(t, "年", "月") == Some((parse(value.value.s).value.year, parse(value.value.s).value.month as int)) ==>
        cell == Str(t)
  {
    var v := if value.None? || value.value.Null? then Str("-") else value.value;
    if v.Str? && IsDateFieldName(field) && parse(v.s).Some? then FormatDateTime(parse, v) else v
  }

  /** One displayed row: an entry per column, in column order, holding that column's rendered cell. */
  function RowOf(parse: Parser, item: Record, columns: seq<string>): (row: Record)
    ensures Keys(row) == columns
    ensures forall j :: 0 <= j < |columns| ==> row[j].val == Cell(parse, columns[j], Lookup(item, columns[j]))
  {
    seq(|columns|, j requires 0 <= j < |columns| => Field(columns[j], Cell(parse, columns[j], Lookup(item, columns[j]))))
  }

  /** `headers`: each column under its translated name. */
  function Headers(translations: map<string, string>, columns: seq<string>): (headers: seq<string>)
    ensures |headers| == |columns|
    ensures forall j :: 0 <= j < |columns| ==>
      headers[j] == if columns[j] in translations && translations[columns[j]] != "" then translations[columns[j]] else columns[j]
  {
    seq(|columns|, j requires 0 <= j < |columns| => Translate(translations, columns[j]))
  }

  /**
   * The `Table` component: no data for an empty list. Otherwise the first row's keys, minus
   * the excluded ones, are the columns, in key order. Each column is headed by its translated
   * name, and row `r` holds item `r`'s cell for every column, in column order.
   */
  function BuildTable(parse: Parser, incomeDataList: seq<Record>, excludeFields: seq<string>,
                      translations: map<string, string>): (view: TableView)
    ensures view.NoData? <==> |incomeDataList| == 0
    ensures view.Table? ==>
      && (forall f :: f in view.columns <==>
            f in Keys(incomeDataList[0]) && f !in DefaultExcludeFields && f !in excludeFields)
      && |view.headers| == |view.columns|
      && |view.rows| == |incomeDataList|
      && forall r :: 0 <= r < |view.rows| ==> Keys(view.rows[r]) == view.columns
    ensures view.Table? ==> view.columns == Columns(Keys(incomeDataList[0]), excludeFields)
    ensures view.Table? ==> forall j :: 0 <= j < |view.columns| ==>
      view.headers[j] == Translate(translations, view.columns[j])
    ensures view.Table? ==> forall r :: 0 <= r < |view.rows| ==>
      && |view.rows[r]| == |view.columns|
      && forall j :: 0 <= j < |view.columns| ==>
        view.rows[r][j].val == Cell(parse, view.columns[j], Lookup(incomeDataList[r], view.columns[j]))
  {
    if |incomeDataList| == 0 then NoData
    else
      var columns := Columns(Keys(incomeDataList[0]), excludeFields);
      Table(columns, Headers(translations, columns),
            seq(|incomeDataList|, r requires 0 <= r < |incomeDataList| => RowOf(parse, incomeDataList[r], columns)))
  }
}
