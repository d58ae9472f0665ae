/**
 * The dashboard's own derivations: the header's time range, the summary refresh guarded by
 * a non-empty row list, and the two category charts built from the breakdown series.
 */
module AppView {
  import opened Options
  import opened Strings
  import opened Rows
  import opened Dates
  import opened IncomeUtils
  import opened Charts

  /** The `fieldTranslations` table the dashboard passes to the breakdowns. */
  const FieldTranslations: map<string, string> := map[
    "time" := "时间-年月",
    "base_salary" := "基本工资",
    "overtime_meal" := "加班餐补",
    "housing_fund" := "公积金",
    "leave_deduction" := "请假扣款",
    "housing_fund_deduction" := "公积金扣款",
    "medical_insurance" := "医疗保险",
    "pension_insurance" := "养老保险",
    "unemployment_insurance" := "失业保险",
    "tax" := "个人所得税",
    "rent" := "房租"
  ]

  // ---------------------------------------------------------------------------------------
  // The time range in the header

  /** The row's `time` when it is a non-empty string, the values `filter(Boolean)` keeps. */
  predicate HasTruthyTime(x: Income) {
    var t := Lookup(x.fields, "time");
    t.Some? && t.value.Str? && t.value.s != ""
  }

  function TimeOf(x: Income): string {
    var t := Lookup(x.fields, "time");
    if t.Some? && t.value.Str? then t.value.s else ""
  }

  /** The number of rows whose `time` is a non-empty string. */
  function RowsWithTime(incomes: seq<Income>): nat {
    if |incomes| == 0 then 0
    else (if HasTruthyTime(incomes[0]) then 1 else 0) + RowsWithTime(incomes[1..])
  }

  /** The times `timeRange` collects: each row's time, in row order, dropping the rows without one. */
  function TruthyTimes(incomes: seq<Income>): (times: seq<string>)
    ensures |times| == RowsWithTime(incomes)
    ensures forall t :: t in times ==> t != ""
    ensures forall x :: x in incomes && HasTruthyTime(x) ==> TimeOf(x) in times
    ensures forall t :: t in times ==> exists x :: x in incomes && HasTruthyTime(x) && TimeOf(x) == t
  {
    if |incomes| == 0 then []
    else
      var rest := TruthyTimes(incomes[1..]);
      assert forall x :: x in incomes[1..] ==> x in incomes;
      assert forall x :: x in incomes ==> x == incomes[0] || x in incomes[1..];
      (if HasTruthyTime(incomes[0]) then [TimeOf(incomes[0])] else []) + rest
  }

  /** A time as the header shows it: `formatDateTime` of the string. */
  function ShownTime(parse: Parser, t: string): (shown: string)
    ensures t != "" ==> shown != ""
  {
    var v := FormatDateTime(parse, Str(t));
    if v.Str? then v.s else ""
  }

  /**
   * `timeRange`: after `sort()` the first and last times are the least and greatest in code
   * unit order; both are shown through `formatDateTime`, followed by the number of times.
   */
  function TimeRange(parse: Parser, incomes: seq<Income>): (range: string)
    ensures range == "" <==> TruthyTimes(incomes) == []
    ensures |incomes| == 0 ==> range == ""
  {
    if |incomes| == 0 then ""
    else
      var times := TruthyTimes(incomes);
      if |times| == 0 then ""
      else
        assert LexMin(times) in times && LexMax(times) in times;
        var start := ShownTime(parse, LexMin(times));
        var end := ShownTime(parse, LexMax(times));
        if start != "" && end != "" then start + "-" + end + "(" + NatText(|times|) + ")"
        else ""
  }

  /**
   * With at least one time, the header shows the least time, a dash, the greatest time (both
   * through `formatDateTime`) and the number of times in parentheses, whichever least and
   * greatest element is considered.
   */
  lemma TimeRangeBounds(parse: Parser, incomes: seq<Income>, first: string, last: string)
    requires first in TruthyTimes(incomes) && last in TruthyTimes(incomes)
    requires forall t :: t in TruthyTimes(incomes) ==> LexLe(first, t) && LexLe(t, last)
    ensures TimeRange(parse, incomes) ==
      ShownTime(parse, first) + "-" + ShownTime(parse, last) + "(" + NatText(RowsWithTime(incomes)) + ")"
  {
    var times := TruthyTimes(incomes);
    LexMinUnique(times, first);
    LexMaxUnique(times, last);
  }

  // ---------------------------------------------------------------------------------------
  // The summary refresh

  /** The averages and projections of a summary are all finite numbers. */
  predicate FiniteSummary(t: TotalInfo) {
    && t.averageMonthlyIncome.Finite?
    && t.estimatedAnnualIncomeAfterTax.Finite?
    && t.estimatedAnnualIncomeBeforeTax.Finite?
  }

  /**
   * The effect on `[incomes]`: the summary is recomputed only for a non-empty row list;
   * otherwise the previous summary (initially none) stays. Because of that guard, a summary on
   * screen never holds NaN: "no summary or a finite one" is kept for every row list.
   */
  function RefreshTotals(previous: Option<TotalInfo>, incomes: seq<Income>): (shown: Option<TotalInfo>)
    ensures |incomes| > 0 ==> shown == Some(GetTotalInfo(incomes))
    ensures shown != previous ==> |incomes| > 0
    ensures (previous.Some? ==> FiniteSummary(previous.value)) ==> (shown.Some? ==> FiniteSummary(shown.value))
  {
    if |incomes| > 0 then
      var t := GetTotalInfo(incomes);
      assert t == Summarize(t.totalIncomeAfterTax, t.totalExpenses, |incomes|);
      Some(t)
    else previous
  }

  /** Without the guard an empty row list would yield NaN averages. */
  lemma UnguardedEmptyIsNaN()
    ensures GetTotalInfo([]).averageMonthlyIncome == NaN
    ensures GetTotalInfo([]).estimatedAnnualIncomeAfterTax == NaN
    ensures GetTotalInfo([]).estimatedAnnualIncomeBeforeTax == NaN
  {
    var t := GetTotalInfo([]);
    assert t.totalIncomeAfterTax == 0 && t.totalExpenses == 0;
  }

  // ---------------------------------------------------------------------------------------
  // The category charts

  /** `lostChart`: the deduction breakdown grouped by category, one zero-filled row each. */
  function LostChart(incomes: seq<Income>): Chart {
    CategoryChart(GetLostChartData(incomes, FieldTranslations))
  }

  /** `inChart`: the income breakdown grouped by category, one zero-filled row each. */
  function InChart(incomes: seq<Income>): Chart {
    CategoryChart(GetInChartData(incomes, FieldTranslations))
  }

  /**
   * In the deduction chart every value is a positive deduction, except the zeros that fill
   * the months in which a category has no deduction; a zero means exactly that.
   */
  lemma LostChartZeros(incomes: seq<Income>)
    ensures forall k, j :: 0 <= k < |LostChart(incomes).datasets| && 0 <= j < |LostChart(incomes).labels| ==>
      && LostChart(incomes).datasets[k].data[j] >= 0
      && (LostChart(incomes).datasets[k].data[j] == 0 <==>
          FirstValue(GetLostChartData(incomes, FieldTranslations), LostChart(incomes).datasets[k].name, LostChart(incomes).labels[j]).None?)
  {
    var list := GetLostChartData(incomes, FieldTranslations);
    assert forall i :: 0 <= i < |list| ==> list[i].value > 0;
    CategoryChartZeros(list);
    assert LostChart(incomes) == CategoryChart(list);
  }

  /** In the income chart every value, zero fills included, is non-negative. */
  lemma InChartNonNegative(incomes: seq<Income>)
    ensures forall k, j :: 0 <= k < |InChart(incomes).datasets| && 0 <= j < |InChart(incomes).labels| ==>
      InChart(incomes).datasets[k].data[j] >= 0
  {
    var list := GetInChartData(incomes, FieldTranslations);
    assert forall i :: 0 <= i < |list| ==> list[i].value >= 0;
    CategoryChartNonNegative(list);
    assert InChart(incomes) == CategoryChart(list);
  }
}
