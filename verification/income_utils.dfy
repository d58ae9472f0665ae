/**
 * The aggregation helpers of the dashboard (src/utils/income.ts): month labels, record and
 * list sums, the summary totals, the two-line trend series and the per-field breakdowns.
 */
module IncomeUtils {
  import opened Options
  import opened Strings
  import opened Sorting
  import opened Rows

  // ---------------------------------------------------------------------------------------
  // Month labels

  /**
   * `formatTime`: the `YYYY-MM` label of a parsed time. It reads back as the time's year and
   * month, and it is the only text that does.
   */
  function FormatTime(at: Stamp): (text: string)
    ensures ParseMonthText(text, "-", "") == Some((at.year, at.month as int))
    ensures forall t :: ParseMonthText(t, "-", "") == Some((at.year, at.month as int)) ==> t == text
  {
    MonthText(at.year, at.month, "-", "")
  }

  /** Two times share a label exactly when they fall in the same year and month. */
  lemma FormatTimeSameMonth(a: Stamp, b: Stamp)
    ensures FormatTime(a) == FormatTime(b) <==> a.year == b.year && a.month == b.month
  {
    if FormatTime(a) == FormatTime(b) {
      assert Some((a.year, a.month as int)) == Some((b.year, b.month as int));
    }
  }

  // ---------------------------------------------------------------------------------------
  // Sums

  /** `sumNumArr`: the sum of the list, added from the left starting at 0. */
  function SumNumArr(list: seq<int>): int {
    if |list| == 0 then 0 else SumNumArr(list[..|list| - 1]) + list[|list| - 1]
  }

  /** The sum is additive over concatenation (and so 0 for the empty list). */
  lemma {:induction false} SumNumArrConcat(a: seq<int>, b: seq<int>)
    ensures SumNumArr(a + b) == SumNumArr(a) + SumNumArr(b)
    decreases |b|
  {
    if |b| == 0 {
      assert a + b == a;
    } else {
      assert (a + b)[..|a + b| - 1] == a + b[..|b| - 1];
      SumNumArrConcat(a, b[..|b| - 1]);
    }
  }

  /** `f` applied to every element, in order. */
  function MapSeq<T, U>(f: T -> U, xs: seq<T>): (ys: seq<U>)
    ensures |ys| == |xs|
    ensures forall i :: 0 <= i < |xs| ==> ys[i] == f(xs[i])
  {
    seq(|xs|, i requires 0 <= i < |xs| => f(xs[i]))
  }

  lemma SumMapConcat<T>(f: T -> int, a: seq<T>, b: seq<T>)
    ensures SumNumArr(MapSeq(f, a + b)) == SumNumArr(MapSeq(f, a)) + SumNumArr(MapSeq(f, b))
  {
    MapConcat(f, a, b);
    SumNumArrConcat(MapSeq(f, a), MapSeq(f, b));
  }

  lemma SumMapCons<T>(f: T -> int, xs: seq<T>)
    requires |xs| > 0
    ensures SumNumArr(MapSeq(f, xs)) == f(xs[0]) + SumNumArr(MapSeq(f, xs[1..]))
  {
    assert xs == [xs[0]] + xs[1..];
    SumMapConcat(f, [xs[0]], xs[1..]);
  }

  /**
   * The first element of `a` occurs in any permutation `b` of `a`, at some position `i`; taking
   * it out of `b` leaves a permutation of the rest of `a`.
   */
  lemma MatchFirst<T>(a: seq<T>, b: seq<T>) returns (i: nat)
    requires |a| > 0 && multiset(a) == multiset(b)
    ensures i < |b| && b[i] == a[0]
    ensures b == b[..i] + [a[0]] + b[i + 1..]
    ensures multiset(a[1..]) == multiset(b[..i] + b[i + 1..])
  {
    var x := a[0];
    assert x in multiset(b);
    i :| 0 <= i < |b| && b[i] == x;
    var rest := b[..i] + b[i + 1..];
    assert b == b[..i] + [x] + b[i + 1..];
    assert a == [x] + a[1..];
    assert multiset(b) == multiset(b[..i]) + multiset{x} + multiset(b[i + 1..]);
    assert multiset(a) == multiset{x} + multiset(a[1..]);
    assert multiset(rest) == multiset(b[..i]) + multiset(b[i + 1..]);
    assert multiset(rest) + multiset{x} == multiset(b);
    assert multiset(rest) + multiset{x} == multiset(a[1..]) + multiset{x};
    assert multiset(rest) == (multiset(rest) + multiset{x}) - multiset{x};
    assert multiset(a[1..]) == (multiset(a[1..]) + multiset{x}) - multiset{x};
  }

  /** Reordering the list does not change the sum of `f` over it. */
  lemma {:induction false} SumMapPermutation<T>(f: T -> int, a: seq<T>, b: seq<T>)
    requires multiset(a) == multiset(b)
    ensures SumNumArr(MapSeq(f, a)) == SumNumArr(MapSeq(f, b))
    decreases |a|
  {
    if |a| == 0 {
      assert |b| == |multiset(b)| == 0;
    } else {
      var x := a[0];
      var i := MatchFirst(a, b);
      SumMapPermutation(f, a[1..], b[..i] + b[i + 1..]);
      SumMapCons(f, a);
      SumMapConcat(f, b[..i] + [x], b[i + 1..]);
      SumMapConcat(f, b[..i], [x]);
      SumMapConcat(f, b[..i], b[i + 1..]);
    }
  }

  lemma MapConcat<T, U>(f: T -> U, a: seq<T>, b: seq<T>)
    ensures MapSeq(f, a + b) == MapSeq(f, a) + MapSeq(f, b)
  {
  }

  /** Reordering the list reorders its image: `map` keeps every element's multiplicity. */
  lemma {:induction false} MapPermutation<T, U>(f: T -> U, a: seq<T>, b: seq<T>)
    requires multiset(a) == multiset(b)
    ensures multiset(MapSeq(f, a)) == multiset(MapSeq(f, b))
    decreases |a|
  {
    if |a| == 0 {
      assert |b| == |multiset(b)| == 0;
    } else {
      var i := MatchFirst(a, b);
      var rest := b[..i] + b[i + 1..];
      MapPermutation(f, a[1..], rest);
      MapConcat(f, [a[0]], a[1..]);
      assert a == [a[0]] + a[1..];
      MapConcat(f, b[..i] + [a[0]], b[i + 1..]);
      MapConcat(f, b[..i], [a[0]]);
      MapConcat(f, b[..i], b[i + 1..]);
    }
  }

  /** Summing `f + g` is summing `f` and summing `g`. */
  lemma {:induction false} SumMapAdd<T>(f: T -> int, g: T -> int, h: T -> int, xs: seq<T>)
    requires forall x :: h(x) == f(x) + g(x)
    ensures SumNumArr(MapSeq(h, xs)) == SumNumArr(MapSeq(f, xs)) + SumNumArr(MapSeq(g, xs))
  {
    if |xs| > 0 {
      SumMapCons(f, xs);
      SumMapCons(g, xs);
      SumMapCons(h, xs);
      SumMapAdd(f, g, h, xs[1..]);
    }
  }

  /** Which numbers a filter over a record's values keeps. */
  datatype Sign = AnySign | Negative | NonNegative

  predicate HasSign(sign: Sign, n: int) {
    match sign
    case AnySign => true
    case Negative => n < 0
    case NonNegative => n >= 0
  }

  /** The numeric values of a record with the given sign, in entry order. */
  function NumbersOf(r: Record, sign: Sign): (ns: seq<int>)
    ensures |ns| <= |r|
    ensures forall i :: 0 <= i < |ns| ==> HasSign(sign, ns[i])
  {
    if |r| == 0 then []
    else (if r[0].val.Num? && HasSign(sign, r[0].val.n) then [r[0].val.n] else []) + NumbersOf(r[1..], sign)
  }

  lemma {:induction false} NumbersOfConcat(a: Record, b: Record, sign: Sign)
    ensures NumbersOf(a + b, sign) == NumbersOf(a, sign) + NumbersOf(b, sign)
  {
    if |a| == 0 {
      assert a + b == b;
    } else {
      assert (a + b)[1..] == a[1..] + b;
      NumbersOfConcat(a[1..], b, sign);
    }
  }

  /** A record has no numeric value of the given sign exactly when that filter is empty. */
  lemma {:induction false} NumbersOfEmpty(r: Record, sign: Sign)
    ensures NumbersOf(r, sign) == [] <==> forall i :: 0 <= i < |r| ==> !(r[i].val.Num? && HasSign(sign, r[i].val.n))
  {
    if |r| > 0 {
      NumbersOfEmpty(r[1..], sign);
      assert forall i :: 1 <= i < |r| ==> r[i] == r[1..][i - 1];
    }
  }

  /**
   * `sumObj`: walks the record's own entries in order and adds every number; strings and
   * nulls add nothing. It equals the sum of the record's numeric values.
   */
  function SumObj(r: Record): (sum: int)
    ensures sum == SumNumArr(NumbersOf(r, AnySign))
  {
    if |r| == 0 then 0
    else
      var init := r[..|r| - 1];
      var last := r[|r| - 1];
      assert r == init + [last];
      NumbersOfConcat(init, [last], AnySign);
      SumNumArrConcat(NumbersOf(init, AnySign), NumbersOf([last], AnySign));
      SumObj(init) + (if last.val.Num? then last.val.n else 0)
  }

  /** An empty record, or one without numbers, sums to 0; appending records adds their sums. */
  lemma SumObjProperties(a: Record, b: Record)
    ensures SumObj(a + b) == SumObj(a) + SumObj(b)
    ensures (forall i :: 0 <= i < |a| ==> !a[i].val.Num?) ==> SumObj(a) == 0
  {
    NumbersOfConcat(a, b, AnySign);
    SumNumArrConcat(NumbersOf(a, AnySign), NumbersOf(b, AnySign));
    NumbersOfEmpty(a, AnySign);
  }

  lemma {:induction false} SumNumArrNegative(ns: seq<int>)
    requires forall i :: 0 <= i < |ns| ==> ns[i] < 0
    ensures SumNumArr(ns) <= 0
    ensures |ns| > 0 ==> SumNumArr(ns) < 0
  {
    if |ns| > 0 {
      SumNumArrNegative(ns[..|ns| - 1]);
    }
  }

  /**
   * The deduction of one month (an entry of `lostList`): the negated sum of its strictly
   * negative numbers. Never negative, and zero exactly when the month has no deduction.
   */
  function LostValue(r: Record): (v: int)
    ensures v >= 0
    ensures v == 0 <==> forall i :: 0 <= i < |r| ==> !(r[i].val.Num? && r[i].val.n < 0)
  {
    SumNumArrNegative(NumbersOf(r, Negative));
    NumbersOfEmpty(r, Negative);
    -SumNumArr(NumbersOf(r, Negative))
  }

  /** The month's pay before deductions: the sum of its non-negative numbers. */
  function GrossValue(r: Record): int {
    SumNumArr(NumbersOf(r, NonNegative))
  }

  /** A month's net amount is its gross pay less its deductions. */
  lemma {:induction false} NetIsGrossLessLost(r: Record)
    ensures SumObj(r) == GrossValue(r) - LostValue(r)
  {
    if |r| > 0 {
      NetIsGrossLessLost(r[1..]);
      assert r == [r[0]] + r[1..];
      NumbersOfConcat([r[0]], r[1..], AnySign);
      NumbersOfConcat([r[0]], r[1..], Negative);
      NumbersOfConcat([r[0]], r[1..], NonNegative);
      SumNumArrConcat(NumbersOf([r[0]], AnySign), NumbersOf(r[1..], AnySign));
      SumNumArrConcat(NumbersOf([r[0]], Negative), NumbersOf(r[1..], Negative));
      SumNumArrConcat(NumbersOf([r[0]], NonNegative), NumbersOf(r[1..], NonNegative));
    }
  }

  // ---------------------------------------------------------------------------------------
  // Ordering and the per-month series

  /** The key the time sort compares: the row's instant, as `getTime()` gives it. */
  function ByTime(x: Income): int {
    x.at.instant
  }

  /** The rows sorted by ascending time into a copy, rows with equal times kept in input order. */
  function SortByTime(incomes: seq<Income>): (sorted: seq<Income>)
    ensures |sorted| == |incomes| && multiset(sorted) == multiset(incomes)
    ensures forall i, j :: 0 <= i < j < |sorted| ==> sorted[i].at.instant <= sorted[j].at.instant
    ensures forall t :: WithKey(sorted, ByTime, t) == WithKey(incomes, ByTime, t)
  {
    SortByStable(incomes, ByTime);
    SortBy(incomes, ByTime)
  }

  /** A point of a chart series; `category` is the source's `type` field. */
  datatype Point = Point(time: string, value: int, category: string)

  function PointValue(p: Point): int {
    p.value
  }

  /** The values of a series, in order. */
  function ValuesOf(ps: seq<Point>): seq<int> {
    MapSeq(PointValue, ps)
  }

  const RealIncomeType: string := "实际收入"
  const LostType: string := "硬性支出"

  /** A month's net amount, `sumObj(item)`. */
  function NetOf(x: Income): int {
    SumObj(x.fields)
  }

  /** A month's deduction, the value of its `lostList` entry. */
  function LostOf(x: Income): int {
    LostValue(x.fields)
  }

  function GrossOf(x: Income): int {
    GrossValue(x.fields)
  }

  /** `realIncomeList`: one net-amount point per month of the sorted rows. */
  function RealIncomeList(sorted: seq<Income>): (ps: seq<Point>)
    ensures |ps| == |sorted|
    ensures ValuesOf(ps) == MapSeq(NetOf, sorted)
  {
    var ps := seq(|sorted|, i requires 0 <= i < |sorted| => Point(FormatTime(sorted[i].at), NetOf(sorted[i]), RealIncomeType));
    assert ValuesOf(ps) == MapSeq(NetOf, sorted);
    ps
  }

  /** `lostList`: one deduction point per month of the sorted rows. */
  function LostList(sorted: seq<Income>): (ps: seq<Point>)
    ensures |ps| == |sorted|
    ensures ValuesOf(ps) == MapSeq(LostOf, sorted)
  {
    var ps := seq(|sorted|, i requires 0 <= i < |sorted| => Point(FormatTime(sorted[i].at), LostOf(sorted[i]), LostType));
    assert ValuesOf(ps) == MapSeq(LostOf, sorted);
    ps
  }

  // ---------------------------------------------------------------------------------------
  // Summary

  /** A JS number produced by a division: finite, an infinity, or NaN. */
  datatype Quotient = Finite(value: real) | Infinity(negative: bool) | NaN

  /** JS `a / n` where `n` is a list length. */
  function Divide(a: int, n: nat): (q: Quotient)
    ensures n > 0 ==> q == Finite(a as real / n as real)
    ensures n > 0 ==> q.value * n as real == a as real
    ensures n == 0 ==> !q.Finite?
    ensures n == 0 && a == 0 ==> q == NaN
  {
    if n > 0 then Finite(a as real / n as real)
    else if a == 0 then NaN
    else Infinity(a < 0)
  }

  /** JS `q * 12`. */
  function Times12(q: Quotient): (r: Quotient)
    ensures q.Finite? <==> r.Finite?
    ensures q.Finite? ==> r.value == q.value * 12.0
    ensures q.NaN? <==> r.NaN?
  {
    match q
    case Finite(v) => Finite(v * 12.0)
    case Infinity(neg) => Infinity(neg)
    case NaN => NaN
  }

  datatype TotalInfo = TotalInfo(
    totalIncomeAfterTax: int,
    totalIncomeBeforeTax: int,
    totalExpenses: int,
    averageMonthlyIncome: Quotient,
    estimatedAnnualIncomeAfterTax: Quotient,
    estimatedAnnualIncomeBeforeTax: Quotient)

  /**
   * `getTotalInfo`. The totals do not depend on the order of the rows; the pre-tax total is
   * the post-tax total plus the deductions, i.e. the sum of every month's non-negative
   * amounts; deductions are never negative. With rows, the averages and projections are the
   * stated quotients; without rows, every division is 0 / 0 and yields NaN.
   */
  function GetTotalInfo(incomes: seq<Income>): (t: TotalInfo)
    ensures t.totalIncomeAfterTax == SumNumArr(MapSeq(NetOf, incomes))
    ensures t.totalExpenses == SumNumArr(MapSeq(LostOf, incomes))
    ensures t.totalIncomeBeforeTax == t.totalIncomeAfterTax + t.totalExpenses
    ensures t.totalIncomeBeforeTax == SumNumArr(MapSeq(GrossOf, incomes))
    ensures t.totalExpenses >= 0
    ensures t == Summarize(t.totalIncomeAfterTax, t.totalExpenses, |incomes|)
  {
    var sorted := SortByTime(incomes);
    var realIncomeList := RealIncomeList(sorted);
    var lostList := LostList(sorted);
    SeriesTotals(incomes, sorted);
    Summarize(SumNumArr(ValuesOf(realIncomeList)), SumNumArr(ValuesOf(lostList)), |incomes|)
  }

  /**
   * The arithmetic tail of `getTotalInfo`, from the sum of the net amounts, the sum of the
   * deductions and the row count. The pre-tax total is the net total plus the deductions.
   * With rows, the average times the count is the net total and both projections are twelve
   * monthly averages; with no rows (and so zero sums) every quotient is NaN.
   */
  function Summarize(afterTaxSum: int, lostSum: int, count: nat): (t: TotalInfo)
    ensures t.totalIncomeAfterTax == afterTaxSum
    ensures t.totalIncomeBeforeTax == afterTaxSum + lostSum
    ensures t.totalExpenses == lostSum
    ensures count > 0 ==>
      && t.averageMonthlyIncome.Finite?
      && t.averageMonthlyIncome.value * count as real == afterTaxSum as real
      && t.estimatedAnnualIncomeAfterTax == Finite(t.averageMonthlyIncome.value * 12.0)
      && t.estimatedAnnualIncomeBeforeTax == Finite((afterTaxSum + lostSum) as real / count as real * 12.0)
    ensures count == 0 && afterTaxSum == 0 && lostSum == 0 ==>
      && t.averageMonthlyIncome == NaN
      && t.estimatedAnnualIncomeAfterTax == NaN
      && t.estimatedAnnualIncomeBeforeTax == NaN
  {
    var totalIncomeAfterTax := afterTaxSum;
    var totalIncomeBeforeTax := totalIncomeAfterTax + lostSum;
    var totalExpenses := totalIncomeBeforeTax - totalIncomeAfterTax;
    var averageMonthlyIncome := Divide(totalIncomeAfterTax, count);
    TotalInfo(
      totalIncomeAfterTax,
      totalIncomeBeforeTax,
      totalExpenses,
      averageMonthlyIncome,
      Times12(averageMonthlyIncome),
      Times12(Divide(totalIncomeBeforeTax, count)))
  }

  /** The sums over the time-sorted series are the sums over the rows as given. */
  lemma SeriesTotals(incomes: seq<Income>, sorted: seq<Income>)
    requires multiset(sorted) == multiset(incomes)
    ensures SumNumArr(ValuesOf(RealIncomeList(sorted))) == SumNumArr(MapSeq(NetOf, incomes))
    ensures SumNumArr(ValuesOf(LostList(sorted))) == SumNumArr(MapSeq(LostOf, incomes)) >= 0
    ensures SumNumArr(MapSeq(GrossOf, incomes)) == SumNumArr(MapSeq(NetOf, incomes)) + SumNumArr(MapSeq(LostOf, incomes))
  {
    SumMapPermutation(NetOf, sorted, incomes);
    SumMapPermutation(LostOf, sorted, incomes);
    ForallNetIsGrossLessLost();
    SumMapAdd(NetOf, LostOf, GrossOf, incomes);
    SumOfNonNegative(LostOf, incomes);
  }

  lemma ForallNetIsGrossLessLost()
    ensures forall x :: GrossOf(x) == NetOf(x) + LostOf(x)
  {
    forall x ensures GrossOf(x) == NetOf(x) + LostOf(x) {
      NetIsGrossLessLost(x.fields);
    }
  }

  lemma {:induction false} SumOfNonNegative<T>(f: T -> int, xs: seq<T>)
    requires forall x :: f(x) >= 0
    ensures SumNumArr(MapSeq(f, xs)) >= 0
  {
    if |xs| > 0 {
      SumMapCons(f, xs);
      SumOfNonNegative(f, xs[1..]);
    }
  }

  datatype TotalChart = TotalChart(realIncomeList: seq<Point>, lostList: seq<Point>)

  /**
   * `getTotalChartData`: two parallel series with one point per row, both in ascending time
   * order with the same labels, carrying the very amounts `getTotalInfo` adds up.
   */
  function GetTotalChartData(incomes: seq<Income>): (c: TotalChart)
    ensures |c.realIncomeList| == |incomes| && |c.lostList| == |incomes|
    ensures forall i :: 0 <= i < |incomes| ==>
      && c.realIncomeList[i].time == c.lostList[i].time == FormatTime(SortByTime(incomes)[i].at)
      && c.realIncomeList[i].value == NetOf(SortByTime(incomes)[i])
      && c.lostList[i].value == LostOf(SortByTime(incomes)[i])
      && c.lostList[i].value >= 0
      && c.realIncomeList[i].category == RealIncomeType
      && c.lostList[i].category == LostType
    ensures SumNumArr(ValuesOf(c.realIncomeList)) == GetTotalInfo(incomes).totalIncomeAfterTax
    ensures SumNumArr(ValuesOf(c.lostList)) == GetTotalInfo(incomes).totalExpenses
  {
    var sorted := SortByTime(incomes);
    TotalChart(RealIncomeList(sorted), LostList(sorted))
  }

  // ---------------------------------------------------------------------------------------
  // Per-field breakdowns

  /** `getLostChartData` collects deductions; `getInChartData` collects income items. */
  datatype Kind = Lost | In

  /** The keys each breakdown filters out before looking at values. */
  function ExcludedKeys(kind: Kind): seq<string> {
    match kind
    case Lost => ["id", "owner", "time", "created_at", "updated_at"]
    case In => ["id", "owner", "time", "created_at", "updated_at", "leave_deduction"]
  }

  /**
   * A field becomes a point when its key is not excluded and its value is a number that is
   * negative (deductions) or non-negative (income items).
   */
  predicate Qualifies(kind: Kind, f: Field) {
    && f.key !in ExcludedKeys(kind)
    && f.val.Num?
    && (if kind == Lost then f.val.n < 0 else f.val.n >= 0)
  }

  /** The value a point carries: `-val` for a deduction, `val` for an income item. */
  function Magnitude(kind: Kind, f: Field): int {
    if !f.val.Num? then 0 else if kind == Lost then -f.val.n else f.val.n
  }

  /** Sort key of the deduction sort, which orders entries by descending value: ascending magnitude. */
  function LostKey(f: Field): int {
    Magnitude(Lost, f)
  }

  /** Sort key of the income sort, which orders entries by ascending value. */
  function InKey(f: Field): int {
    Magnitude(In, f)
  }

  function SortKey(kind: Kind): Field -> int {
    if kind == Lost then LostKey else InKey
  }

  /** The qualifying entries of a record, in entry order. */
  function QualifyingFields(kind: Kind, r: Record): (qs: Record)
    ensures |qs| <= |r|
    ensures forall i :: 0 <= i < |qs| ==> Qualifies(kind, qs[i])
    ensures forall f :: f in qs <==> f in r && Qualifies(kind, f)
  {
    if |r| == 0 then []
    else (if Qualifies(kind, r[0]) then [r[0]] else []) + QualifyingFields(kind, r[1..])
  }

  /**
   * Filtering joined entries is joining the filtered parts, so the kept entries stay in entry
   * order, each as often as it occurs.
   */
  lemma {:induction false} QualifyingFieldsConcat(kind: Kind, a: Record, b: Record)
    ensures QualifyingFields(kind, a + b) == QualifyingFields(kind, a) + QualifyingFields(kind, b)
  {
    if |a| == 0 {
      assert a + b == b;
    } else {
      assert (a + b)[1..] == a[1..] + b;
      QualifyingFieldsConcat(kind, a[1..], b);
    }
  }

  function LostCount(x: Income): int {
    |QualifyingFields(Lost, x.fields)|
  }

  function InCount(x: Income): int {
    |QualifyingFields(In, x.fields)|
  }

  /** How many points a row contributes to a breakdown. */
  function CountOf(kind: Kind): Income -> int {
    if kind == Lost then LostCount else InCount
  }

  /** The point pushed for field `f` of a row parsed at `at`. */
  function PointOf(kind: Kind, translations: map<string, string>, at: Stamp, f: Field): Point {
    Point(FormatTime(at), Magnitude(kind, f), Translate(translations, f.key))
  }

  /** One point per field of `fs`, in the order of `fs`. */
  function PointsOf(kind: Kind, translations: map<string, string>, at: Stamp, fs: seq<Field>): (ps: seq<Point>)
    ensures |ps| == |fs|
    ensures forall i :: 0 <= i < |fs| ==> ps[i] == PointOf(kind, translations, at, fs[i])
  {
    seq(|fs|, i requires 0 <= i < |fs| => PointOf(kind, translations, at, fs[i]))
  }

  /** Reordering the fields reorders their points and nothing else. */
  lemma PointsOfPermutation(kind: Kind, translations: map<string, string>, at: Stamp, a: seq<Field>, b: seq<Field>)
    requires multiset(a) == multiset(b)
    ensures multiset(PointsOf(kind, translations, at, a)) == multiset(PointsOf(kind, translations, at, b))
  {
    var point := (f: Field) => PointOf(kind, translations, at, f);
    assert PointsOf(kind, translations, at, a) == MapSeq(point, a);
    assert PointsOf(kind, translations, at, b) == MapSeq(point, b);
    MapPermutation(point, a, b);
  }

  /** The points of one row: its qualifying fields, stably sorted by `SortKey`, as points. */
  function RecordPoints(kind: Kind, translations: map<string, string>, x: Income): (ps: seq<Point>)
  {
    PointsOf(kind, translations, x.at, SortBy(QualifyingFields(kind, x.fields), SortKey(kind)))
  }

  /** Point `p` was pushed for some qualifying field of some row in `rows`. */
  ghost predicate FromQualifying(kind: Kind, translations: map<string, string>, rows: seq<Income>, p: Point) {
    exists x, f :: x in rows && f in x.fields && Qualifies(kind, f) && p == PointOf(kind, translations, x.at, f)
  }

  /** The points of a row are its qualifying fields, sorted, one point each. */
  lemma RecordPointsAreSorted(kind: Kind, translations: map<string, string>, x: Income)
    ensures |RecordPoints(kind, translations, x)| == |SortBy(QualifyingFields(kind, x.fields), SortKey(kind))|
    ensures forall i :: 0 <= i < |RecordPoints(kind, translations, x)| ==>
      && RecordPoints(kind, translations, x)[i] == PointOf(kind, translations, x.at, SortBy(QualifyingFields(kind, x.fields), SortKey(kind))[i])
      && SortBy(QualifyingFields(kind, x.fields), SortKey(kind))[i] in QualifyingFields(kind, x.fields)
  {
    var qs := QualifyingFields(kind, x.fields);
    var sorted := SortBy(qs, SortKey(kind));
    forall i | 0 <= i < |sorted| ensures sorted[i] in qs {
      assert sorted[i] in multiset(qs);
    }
  }

  /**
   * A row yields one point per qualifying field, all labelled with the row's month, and
   * within the row the carried values never decrease (deductions are sorted by descending
   * value, income items by ascending value).
   */
  lemma RecordPointsOrder(kind: Kind, translations: map<string, string>, x: Income)
    ensures |RecordPoints(kind, translations, x)| == CountOf(kind)(x)
    ensures forall i :: 0 <= i < |RecordPoints(kind, translations, x)| ==>
      RecordPoints(kind, translations, x)[i].time == FormatTime(x.at)
    ensures forall i, j :: 0 <= i < j < |RecordPoints(kind, translations, x)| ==>
      RecordPoints(kind, translations, x)[i].value <= RecordPoints(kind, translations, x)[j].value
  {
    var ps := RecordPoints(kind, translations, x);
    var key := SortKey(kind);
    var sorted := SortBy(QualifyingFields(kind, x.fields), key);
    RecordPointsAreSorted(kind, translations, x);
    assert SortedBy(sorted, key);
    forall i | 0 <= i < |ps| ensures ps[i].value == key(sorted[i]) {
    }
  }

  /**
   * Every point of a row carries a positive deduction or a non-negative income amount, and
   * comes from a qualifying field of the row.
   */
  lemma RecordPointsSource(kind: Kind, translations: map<string, string>, x: Income)
    ensures forall i :: 0 <= i < |RecordPoints(kind, translations, x)| ==>
      && RecordPoints(kind, translations, x)[i].value >= 0
      && (kind == Lost ==> RecordPoints(kind, translations, x)[i].value > 0)
      && FromQualifying(kind, translations, [x], RecordPoints(kind, translations, x)[i])
  {
    var ps := RecordPoints(kind, translations, x);
    var qs := QualifyingFields(kind, x.fields);
    var sorted := SortBy(qs, SortKey(kind));
    RecordPointsAreSorted(kind, translations, x);
    forall i | 0 <= i < |ps|
      ensures ps[i].value >= 0 && (kind == Lost ==> ps[i].value > 0)
      ensures FromQualifying(kind, translations, [x], ps[i])
    {
      assert Qualifies(kind, sorted[i]) && sorted[i] in x.fields;
      assert x in [x];
    }
  }

  lemma FromQualifyingWiden(kind: Kind, translations: map<string, string>, a: seq<Income>, b: seq<Income>, p: Point)
    requires FromQualifying(kind, translations, a, p)
    requires forall x :: x in a ==> x in multiset(b)
    ensures FromQualifying(kind, translations, b, p)
  {
    var y, f :| y in a && f in y.fields && Qualifies(kind, f) && p == PointOf(kind, translations, y.at, f);
    assert y in multiset(b);
  }

  /** The lists of `lists`, joined end to end. */
  function Concat<T>(lists: seq<seq<T>>): seq<T> {
    if |lists| == 0 then [] else lists[0] + Concat(lists[1..])
  }

  function Length<T>(s: seq<T>): int {
    |s|
  }

  /** The joined list is as long as all the lists together. */
  lemma {:induction false} ConcatLength<T>(lists: seq<seq<T>>)
    ensures |Concat(lists)| == SumNumArr(MapSeq(Length, lists))
  {
    if |lists| > 0 {
      ConcatLength(lists[1..]);
      SumMapCons(Length, lists);
    }
  }

  /** Where element `i` of the joined list comes from: element `pos.1` of list `pos.0`. */
  function ConcatPos<T>(lists: seq<seq<T>>, i: nat): (pos: (nat, nat))
    requires i < |Concat(lists)|
    ensures pos.0 < |lists| && pos.1 < |lists[pos.0]| && Concat(lists)[i] == lists[pos.0][pos.1]
  {
    if i < |lists[0]| then (0, i)
    else
      var p := ConcatPos(lists[1..], i - |lists[0]|);
      (p.0 + 1, p.1)
  }

  /** Joining keeps order: a later element comes from a later list, or later in the same list. */
  lemma {:induction false} ConcatPosOrder<T>(lists: seq<seq<T>>, i: nat, i': nat)
    requires i < i' < |Concat(lists)|
    ensures ConcatPos(lists, i).0 <= ConcatPos(lists, i').0
    ensures ConcatPos(lists, i).0 == ConcatPos(lists, i').0 ==> ConcatPos(lists, i).1 < ConcatPos(lists, i').1
  {
    if i >= |lists[0]| {
      ConcatPosOrder(lists[1..], i - |lists[0]|, i' - |lists[0]|);
    }
  }

  /** Element `j` of list `k` is in the joined list. */
  lemma {:induction false} ConcatContains<T>(lists: seq<seq<T>>, k: nat, j: nat)
    requires k < |lists| && j < |lists[k]|
    ensures lists[k][j] in Concat(lists)
  {
    if k > 0 {
      ConcatContains(lists[1..], k - 1, j);
    }
  }

  lemma {:induction false} ConcatAppend<T>(a: seq<seq<T>>, b: seq<seq<T>>)
    ensures Concat(a + b) == Concat(a) + Concat(b)
  {
    if |a| == 0 {
      assert a + b == b;
    } else {
      assert (a + b)[1..] == a[1..] + b;
      ConcatAppend(a[1..], b);
    }
  }

  /** The per-row point lists, in row order. */
  function PointLists(kind: Kind, translations: map<string, string>, rows: seq<Income>): (lists: seq<seq<Point>>)
    ensures |lists| == |rows|
    ensures forall k :: 0 <= k < |rows| ==> lists[k] == RecordPoints(kind, translations, rows[k])
  {
    seq(|rows|, k requires 0 <= k < |rows| => RecordPoints(kind, translations, rows[k]))
  }

  /** The points of all rows, concatenated in row order. */
  function AllPoints(kind: Kind, translations: map<string, string>, rows: seq<Income>): seq<Point> {
    Concat(PointLists(kind, translations, rows))
  }

  /** One point per qualifying field of every row. */
  lemma AllPointsLength(kind: Kind, translations: map<string, string>, rows: seq<Income>)
    ensures |AllPoints(kind, translations, rows)| == SumNumArr(MapSeq(CountOf(kind), rows))
  {
    var lists := PointLists(kind, translations, rows);
    ConcatLength(lists);
    forall k | 0 <= k < |rows|
      ensures MapSeq(Length, lists)[k] == MapSeq(CountOf(kind), rows)[k]
    {
      RecordPointsOrder(kind, translations, rows[k]);
    }
    assert MapSeq(Length, lists) == MapSeq(CountOf(kind), rows);
  }

  /** Point `i` of `AllPoints` carries a valid value and comes from a qualifying field. */
  lemma AllPointsAt(kind: Kind, translations: map<string, string>, rows: seq<Income>, i: nat)
    requires i < |AllPoints(kind, translations, rows)|
    ensures var p := AllPoints(kind, translations, rows)[i];
      && p.value >= 0 && (kind == Lost ==> p.value > 0)
      && FromQualifying(kind, translations, rows, p)
  {
    var lists := PointLists(kind, translations, rows);
    var pos := ConcatPos(lists, i);
    var k, j := pos.0, pos.1;
    var p := lists[k][j];
    RecordPointsSource(kind, translations, rows[k]);
    assert rows[k] in multiset(rows);
    FromQualifyingWiden(kind, translations, [rows[k]], rows, p);
  }

  /** The final `if (list.length > 1)` block: the first two points trade places. */
  function SwapFirstTwo<T>(list: seq<T>): (r: seq<T>)
    ensures |r| == |list|
    ensures multiset(r) == multiset(list)
    ensures |list| > 1 ==> r[0] == list[1] && r[1] == list[0] && r[2..] == list[2..]
    ensures |list| <= 1 ==> r == list
  {
    if |list| > 1 then
      assert list == [list[0], list[1]] + list[2..];
      [list[1], list[0]] + list[2..]
    else list
  }

  /**
   * `getLostChartData` / `getInChartData`: the points of every row in ascending time order,
   * then the first two swapped.
   */
  function Breakdown(kind: Kind, translations: map<string, string>, incomes: seq<Income>): (ps: seq<Point>)
  {
    SwapFirstTwo(AllPoints(kind, translations, SortByTime(incomes)))
  }

  /** Element `i` of the swapped list is element `j` of the original. */
  lemma SwapFirstTwoIndex<T>(list: seq<T>, i: nat) returns (j: nat)
    requires i < |list|
    ensures j < |list| && SwapFirstTwo(list)[i] == list[j]
  {
    j := if |list| > 1 && i == 0 then 1 else if |list| > 1 && i == 1 then 0 else i;
  }

  /** Provenance carries over to any reordering of the rows. */
  lemma PermutedPointAt(kind: Kind, translations: map<string, string>, rows: seq<Income>, incomes: seq<Income>, j: nat)
    requires multiset(rows) == multiset(incomes)
    requires j < |AllPoints(kind, translations, rows)|
    ensures var p := AllPoints(kind, translations, rows)[j];
      && p.value >= 0 && (kind == Lost ==> p.value > 0)
      && FromQualifying(kind, translations, incomes, p)
  {
    AllPointsAt(kind, translations, rows, j);
    assert forall x :: x in rows ==> x in multiset(incomes);
    FromQualifyingWiden(kind, translations, rows, incomes, AllPoints(kind, translations, rows)[j]);
  }

  /** Point `i` of a breakdown carries a valid value and comes from a qualifying field. */
  lemma BreakdownAt(kind: Kind, translations: map<string, string>, incomes: seq<Income>, i: nat)
    requires i < |Breakdown(kind, translations, incomes)|
    ensures var p := Breakdown(kind, translations, incomes)[i];
      && p.value >= 0 && (kind == Lost ==> p.value > 0)
      && FromQualifying(kind, translations, incomes, p)
  {
    var sorted := SortByTime(incomes);
    var j := SwapFirstTwoIndex(AllPoints(kind, translations, sorted), i);
    PermutedPointAt(kind, translations, sorted, incomes, j);
  }

  /**
   * There is one point per qualifying field of any row; every point comes from a qualifying
   * field of some row (so never from an excluded key) and carries a positive deduction or a
   * non-negative income amount.
   */
  lemma BreakdownFacts(kind: Kind, translations: map<string, string>, incomes: seq<Income>)
    ensures var ps := Breakdown(kind, translations, incomes);
      && |ps| == SumNumArr(MapSeq(CountOf(kind), incomes))
      && forall i :: 0 <= i < |ps| ==>
           && ps[i].value >= 0 && (kind == Lost ==> ps[i].value > 0)
           && FromQualifying(kind, translations, incomes, ps[i])
  {
    var sorted := SortByTime(incomes);
    SumMapPermutation(CountOf(kind), sorted, incomes);
    AllPointsLength(kind, translations, sorted);
    var ps := Breakdown(kind, translations, incomes);
    forall i | 0 <= i < |ps|
      ensures ps[i].value >= 0 && (kind == Lost ==> ps[i].value > 0)
      ensures FromQualifying(kind, translations, incomes, ps[i])
    {
      BreakdownAt(kind, translations, incomes, i);
    }
  }

  /**
   * `getLostChartData`: one point per strictly negative number of any row outside the
   * bookkeeping keys, carrying the deduction as a positive amount.
   */
  function GetLostChartData(incomes: seq<Income>, translations: map<string, string>): (list: seq<Point>)
    ensures |list| == SumNumArr(MapSeq(LostCount, incomes))
    ensures forall i :: 0 <= i < |list| ==> list[i].value > 0
  {
    BreakdownFacts(Lost, translations, incomes);
    Breakdown(Lost, translations, incomes)
  }

  /** Every deduction point names its row's month and the translated key of a negative entry. */
  lemma LostChartDataSource(incomes: seq<Income>, translations: map<string, string>, i: nat)
    requires i < |GetLostChartData(incomes, translations)|
    ensures exists x, f ::
      && x in incomes && f in x.fields
      && f.key !in ["id", "owner", "time", "created_at", "updated_at"]
      && f.val.Num? && f.val.n < 0
      && GetLostChartData(incomes, translations)[i] == Point(FormatTime(x.at), -f.val.n, Translate(translations, f.key))
  {
    BreakdownAt(Lost, translations, incomes, i);
  }

  /**
   * `getInChartData`: one point per non-negative number of any row outside the bookkeeping
   * keys and `leave_deduction`, carrying the amount itself.
   */
  function GetInChartData(incomes: seq<Income>, translations: map<string, string>): (list: seq<Point>)
    ensures |list| == SumNumArr(MapSeq(InCount, incomes))
    ensures forall i :: 0 <= i < |list| ==> list[i].value >= 0
  {
    BreakdownFacts(In, translations, incomes);
    Breakdown(In, translations, incomes)
  }

  /** Every income point names its row's month and the translated key of a non-negative entry. */
  lemma InChartDataSource(incomes: seq<Income>, translations: map<string, string>, i: nat)
    requires i < |GetInChartData(incomes, translations)|
    ensures exists x, f ::
      && x in incomes && f in x.fields
      && f.key !in ["id", "owner", "time", "created_at", "updated_at", "leave_deduction"]
      && f.val.Num? && f.val.n >= 0
      && GetInChartData(incomes, translations)[i] == Point(FormatTime(x.at), f.val.n, Translate(translations, f.key))
  {
    BreakdownAt(In, translations, incomes, i);
  }

  // ---------------------------------------------------------------------------------------
  // The deduction breakdown against the summary

  /** The amounts a list of points carries, added up. */
  function PointsTotal(ps: seq<Point>): int {
    SumNumArr(ValuesOf(ps))
  }

  /** Joining lists of points adds their totals. */
  lemma {:induction false} ConcatTotal(lists: seq<seq<Point>>)
    ensures PointsTotal(Concat(lists)) == SumNumArr(MapSeq(PointsTotal, lists))
  {
    if |lists| > 0 {
      ConcatTotal(lists[1..]);
      assert ValuesOf(lists[0] + Concat(lists[1..])) == ValuesOf(lists[0]) + ValuesOf(Concat(lists[1..]));
      SumNumArrConcat(ValuesOf(lists[0]), ValuesOf(Concat(lists[1..])));
      SumMapCons(PointsTotal, lists);
    }
  }

  /** Sorting a row's fields does not change what its points add up to. */
  lemma RecordPointsTotal(kind: Kind, translations: map<string, string>, x: Income)
    ensures PointsTotal(RecordPoints(kind, translations, x)) == SumNumArr(MapSeq(SortKey(kind), QualifyingFields(kind, x.fields)))
  {
    var qs := QualifyingFields(kind, x.fields);
    var sorted := SortBy(qs, SortKey(kind));
    RecordPointsAreSorted(kind, translations, x);
    assert ValuesOf(RecordPoints(kind, translations, x)) == MapSeq(SortKey(kind), sorted);
    SumMapPermutation(SortKey(kind), sorted, qs);
  }

  /** No bookkeeping column of the record holds a negative number. */
  predicate NoExcludedDeduction(r: Record) {
    forall i :: 0 <= i < |r| && r[i].val.Num? && r[i].val.n < 0 ==> r[i].key !in ExcludedKeys(Lost)
  }

  /** Without negative bookkeeping values, the qualifying deductions are all the deductions. */
  lemma {:induction false} QualifyingLostTotal(r: Record)
    requires NoExcludedDeduction(r)
    ensures SumNumArr(MapSeq(LostKey, QualifyingFields(Lost, r))) == LostValue(r)
  {
    if |r| > 0 {
      var rest := r[1..];
      assert NoExcludedDeduction(rest) by {
        assert forall i :: 0 <= i < |rest| ==> rest[i] == r[i + 1];
      }
      QualifyingLostTotal(rest);
      var head: Record := if Qualifies(Lost, r[0]) then [r[0]] else [];
      SumMapConcat(LostKey, head, QualifyingFields(Lost, rest));
      var nh: seq<int> := if r[0].val.Num? && r[0].val.n < 0 then [r[0].val.n] else [];
      SumNumArrConcat(nh, NumbersOf(rest, Negative));
    }
  }

  /** The deduction points of rows add up to the rows' deductions. */
  lemma AllLostPointsTotal(translations: map<string, string>, rows: seq<Income>)
    requires forall x :: x in rows ==> NoExcludedDeduction(x.fields)
    ensures PointsTotal(AllPoints(Lost, translations, rows)) == SumNumArr(MapSeq(LostOf, rows))
  {
    var lists := PointLists(Lost, translations, rows);
    ConcatTotal(lists);
    forall k | 0 <= k < |rows|
      ensures MapSeq(PointsTotal, lists)[k] == MapSeq(LostOf, rows)[k]
    {
      RecordPointsTotal(Lost, translations, rows[k]);
      QualifyingLostTotal(rows[k].fields);
    }
    assert MapSeq(PointsTotal, lists) == MapSeq(LostOf, rows);
  }

  /**
   * The deduction chart and the summary agree: when no bookkeeping column holds a negative
   * number, the points of `getLostChartData` add up to `totalExpenses` of `getTotalInfo`.
   */
  lemma LostChartTotal(incomes: seq<Income>, translations: map<string, string>)
    requires forall x :: x in incomes ==> NoExcludedDeduction(x.fields)
    ensures PointsTotal(GetLostChartData(incomes, translations)) == GetTotalInfo(incomes).totalExpenses
  {
    var sorted := SortByTime(incomes);
    forall x | x in sorted
      ensures NoExcludedDeduction(x.fields)
    {
      assert x in multiset(sorted);
    }
    AllLostPointsTotal(translations, sorted);
    var all := AllPoints(Lost, translations, sorted);
    SumMapPermutation(PointValue, SwapFirstTwo(all), all);
    SumMapPermutation(LostOf, sorted, incomes);
  }

  // ---------------------------------------------------------------------------------------
  // The breakdowns against the unsorted reference

  /** The points of one row before any sorting: its qualifying entries in entry order. */
  function RowPoints(kind: Kind, translations: map<string, string>, x: Income): (ps: seq<Point>)
    ensures |ps| == CountOf(kind)(x)
  {
    PointsOf(kind, translations, x.at, QualifyingFields(kind, x.fields))
  }

  function RowPointLists(kind: Kind, translations: map<string, string>, rows: seq<Income>): (lists: seq<seq<Point>>)
    ensures |lists| == |rows|
    ensures forall k :: 0 <= k < |rows| ==> lists[k] == RowPoints(kind, translations, rows[k])
  {
    seq(|rows|, k requires 0 <= k < |rows| => RowPoints(kind, translations, rows[k]))
  }

  /**
   * The reference breakdown: the rows in input order, each row's qualifying entries in entry
   * order, one point each, with no sorting and no swap.
   */
  function UnsortedPoints(kind: Kind, translations: map<string, string>, rows: seq<Income>): seq<Point> {
    Concat(RowPointLists(kind, translations, rows))
  }

  /** Sorting a row's entries reorders its points and nothing else. */
  lemma RecordPointsPermutation(kind: Kind, translations: map<string, string>, x: Income)
    ensures multiset(RecordPoints(kind, translations, x)) == multiset(RowPoints(kind, translations, x))
  {
    var qs := QualifyingFields(kind, x.fields);
    PointsOfPermutation(kind, translations, x.at, SortBy(qs, SortKey(kind)), qs);
  }

  /** Replacing every list by a reordering of it reorders the joined list. */
  lemma {:induction false} ConcatPointwise<T>(a: seq<seq<T>>, b: seq<seq<T>>)
    requires |a| == |b|
    requires forall k :: 0 <= k < |a| ==> multiset(a[k]) == multiset(b[k])
    ensures multiset(Concat(a)) == multiset(Concat(b))
  {
    if |a| > 0 {
      ConcatPointwise(a[1..], b[1..]);
    }
  }

  /** Reordering the lists reorders the joined list. */
  lemma {:induction false} ConcatPermutation<T, U>(f: T -> seq<U>, a: seq<T>, b: seq<T>)
    requires multiset(a) == multiset(b)
    ensures multiset(Concat(MapSeq(f, a))) == multiset(Concat(MapSeq(f, b)))
    decreases |a|
  {
    if |a| == 0 {
      assert |b| == |multiset(b)| == 0;
    } else {
      var i := MatchFirst(a, b);
      var l, r := b[..i], b[i + 1..];
      ConcatPermutation(f, a[1..], l + r);
      var ml, mx, mr := MapSeq(f, l), MapSeq(f, [a[0]]), MapSeq(f, r);
      assert a == [a[0]] + a[1..];
      MapConcat(f, [a[0]], a[1..]);
      MapConcat(f, l + [a[0]], r);
      MapConcat(f, l, [a[0]]);
      MapConcat(f, l, r);
      ConcatAppend(mx, MapSeq(f, a[1..]));
      ConcatAppend(ml + mx, mr);
      ConcatAppend(ml, mx);
      ConcatAppend(ml, mr);
      assert Concat([f(a[0])]) == f(a[0]) + Concat([]);
    }
  }

  /**
   * A breakdown holds exactly the reference points, each as often: the time sort, the per-row
   * sort and the final swap only reorder.
   */
  lemma BreakdownIsPermutation(kind: Kind, translations: map<string, string>, incomes: seq<Income>)
    ensures multiset(Breakdown(kind, translations, incomes)) == multiset(UnsortedPoints(kind, translations, incomes))
  {
    var sorted := SortByTime(incomes);
    var rowPoints := (x: Income) => RowPoints(kind, translations, x);
    var lists := PointLists(kind, translations, sorted);
    forall k | 0 <= k < |lists|
      ensures multiset(lists[k]) == multiset(MapSeq(rowPoints, sorted)[k])
    {
      RecordPointsPermutation(kind, translations, sorted[k]);
    }
    ConcatPointwise(lists, MapSeq(rowPoints, sorted));
    ConcatPermutation(rowPoints, sorted, incomes);
    assert RowPointLists(kind, translations, incomes) == MapSeq(rowPoints, incomes);
  }

  /** Every qualifying entry of every row yields its point in the breakdown. */
  lemma BreakdownComplete(kind: Kind, translations: map<string, string>, incomes: seq<Income>, x: Income, f: Field)
    requires x in incomes && f in x.fields && Qualifies(kind, f)
    ensures PointOf(kind, translations, x.at, f) in Breakdown(kind, translations, incomes)
  {
    var k :| 0 <= k < |incomes| && incomes[k] == x;
    var qs := QualifyingFields(kind, x.fields);
    var i :| 0 <= i < |qs| && qs[i] == f;
    var lists := RowPointLists(kind, translations, incomes);
    ConcatContains(lists, k, i);
    BreakdownIsPermutation(kind, translations, incomes);
    assert PointOf(kind, translations, x.at, f) in multiset(UnsortedPoints(kind, translations, incomes));
  }

  /**
   * Before the swap the points come row by row in ascending time: of two points, the later
   * one belongs to the same row, further on, or to a row at the same or a later time.
   */
  lemma AllPointsRowOrder(kind: Kind, translations: map<string, string>, incomes: seq<Income>, i: nat, i': nat)
    requires i < i' < |AllPoints(kind, translations, SortByTime(incomes))|
    ensures var sorted := SortByTime(incomes);
      var p := ConcatPos(PointLists(kind, translations, sorted), i);
      var q := ConcatPos(PointLists(kind, translations, sorted), i');
      && AllPoints(kind, translations, sorted)[i] == RecordPoints(kind, translations, sorted[p.0])[p.1]
      && AllPoints(kind, translations, sorted)[i'] == RecordPoints(kind, translations, sorted[q.0])[q.1]
      && p.0 <= q.0
      && sorted[p.0].at.instant <= sorted[q.0].at.instant
      && (p.0 == q.0 ==> p.1 < q.1)
  {
    var sorted := SortByTime(incomes);
    ConcatPosOrder(PointLists(kind, translations, sorted), i, i');
  }
}
