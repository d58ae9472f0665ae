/**
 * The `formatDateTime` helper shared by the dashboard and the table: a string that parses as
 * a date is shown as `YYYY年MM月`; anything else is shown as it is.
 */
module Dates {
  import opened Options
  import opened Strings
  import opened Rows

  /**
   * `new Date(s)` followed by the `isNaN(date.getTime())` test: `None` for an invalid date.
   * JS date parsing is not modelled; it is a parameter of every operation that needs it.
   */
  type Parser = string -> Option<Stamp>

  /**
   * The `YYYY年MM月` label: the year as written by `String`, the month zero-padded to two digits.
   * It reads back as the year and month, and it is the only text that does.
   */
  function MonthLabel(at: Stamp): (text: string)
    ensures ParseMonthText(text, "年", "月") == Some((at.year, at.month as int))
    ensures forall t :: ParseMonthText(t, "年", "月") == Some((at.year, at.month as int)) ==> t == text
  {
    MonthText(at.year, at.month, "年", "月")
  }

  /**
   * `formatDateTime`: a non-string value and a string that is not a valid date come back
   * unchanged; a valid date string becomes the label of its year and month, which reads back
   * as exactly that year and month.
   */
  function FormatDateTime(parse: Parser, v: Val): (r: Val)
    ensures !v.Str? ==> r == v
    ensures v.Str? && parse(v.s).None? ==> r == v
    ensures v.Str? && parse(v.s).Some? ==>
      && r.Str?
      && ParseMonthText(r.s, "年", "月") == Some((parse(v.s).value.year, parse(v.s).value.month as int))
    ensures v.Str? && parse(v.s).Some? ==> forall t ::
      ParseMonthText(t, "年", "月") == Some((parse(v.s).value.year, parse(v.s).value.month as int)) ==> r == Str(t)
  {
    if v.Str? && parse(v.s).Some? then
      Str(MonthLabel(parse(v.s).value))
    else v
  }

  /** Two strings get the same label exactly when they parse to the same year and month. */
  lemma FormatDateTimeSameMonth(parse: Parser, a: string, b: string)
    requires parse(a).Some? && parse(b).Some?
    ensures FormatDateTime(parse, Str(a)) == FormatDateTime(parse, Str(b)) <==>
      parse(a).value.year == parse(b).value.year && parse(a).value.month == parse(b).value.month
  {
    var x := FormatDateTime(parse, Str(a));
    var y := FormatDateTime(parse, Str(b));
    if x == y {
      assert ParseMonthText(x.s, "年", "月") == ParseMonthText(y.s, "年", "月");
    }
  }
}
