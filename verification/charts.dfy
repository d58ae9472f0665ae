/**
 * The view-side reshaping of a breakdown series into a category chart: the points are
 * grouped by category, the distinct month labels are collected, and every category gets one
 * zero-filled value per label.
 */
module Charts {
  import opened Options
  import opened Seqs
  import opened IncomeUtils

  // ---------------------------------------------------------------------------------------
  // Grouping by category

  /** `{ time, value }`, the element pushed into a category's array. */
  datatype Entry = Entry(time: string, value: int)

  /** One key of the grouping object with its array. */
  datatype Group = Group(category: string, entries: seq<Entry>)

  function EntryOf(p: Point): Entry {
    Entry(p.time, p.value)
  }

  function CategoriesOf(list: seq<Point>): seq<string> {
    seq(|list|, i requires 0 <= i < |list| => list[i].category)
  }

  function TimesOf(list: seq<Point>): seq<string> {
    seq(|list|, i requires 0 <= i < |list| => list[i].time)
  }

  /** Where `acc[category]` lives, or `|groups|` when the key is not set yet. */
  function FindGroup(groups: seq<Group>, category: string): (k: nat)
    ensures k <= |groups|
    ensures k < |groups| ==> groups[k].category == category
    ensures forall j :: 0 <= j < k ==> groups[j].category != category
  {
    if |groups| == 0 then 0
    else if groups[0].category == category then 0
    else FindGroup(groups[1..], category) + 1
  }

  /**
   * The `reduce` callback: `if (!acc[cur.type]) acc[cur.type] = []`, then push. A new key goes
   * to the end of the object's key order.
   */
  function AddPoint(groups: seq<Group>, p: Point): seq<Group> {
    var k := FindGroup(groups, p.category);
    if k == |groups| then groups + [Group(p.category, [EntryOf(p)])]
    else groups[k := groups[k].(entries := groups[k].entries + [EntryOf(p)])]
  }

  /** The category grouping behind `lostChartGroup` and `inChartGroup`: `AddPoint` applied to each point from the left, starting with no groups. */
  function GroupByCategory(list: seq<Point>): seq<Group> {
    if |list| == 0 then []
    else AddPoint(GroupByCategory(list[..|list| - 1]), list[|list| - 1])
  }

  /** The reference grouping: the entries of one category, in list order. */
  function EntriesOf(list: seq<Point>, category: string): seq<Entry> {
    if |list| == 0 then []
    else
      var p := list[|list| - 1];
      EntriesOf(list[..|list| - 1], category) + (if p.category == category then [EntryOf(p)] else [])
  }

  lemma {:induction false} EntriesOfAbsent(list: seq<Point>, category: string)
    requires category !in CategoriesOf(list)
    ensures EntriesOf(list, category) == []
  {
    if |list| > 0 {
      var init := list[..|list| - 1];
      assert CategoriesOf(list) == CategoriesOf(init) + [list[|list| - 1].category];
      EntriesOfAbsent(init, category);
    }
  }

  /**
   * The reduction yields one group per distinct category, in first-occurrence order, and
   * each group holds exactly that category's points in list order.
   */
  lemma {:induction false} GroupByCategoryIsGrouping(list: seq<Point>)
    ensures var groups := GroupByCategory(list);
      var categories := Dedup(CategoriesOf(list));
      && |groups| == |categories|
      && forall k :: 0 <= k < |groups| ==> groups[k] == Group(categories[k], EntriesOf(list, categories[k]))
  {
    if |list| > 0 {
      var init := list[..|list| - 1];
      var p := list[|list| - 1];
      GroupByCategoryIsGrouping(init);
      var groups0 := GroupByCategory(init);
      var cats0 := Dedup(CategoriesOf(init));
      assert CategoriesOf(list)[..|list| - 1] == CategoriesOf(init);
      assert CategoriesOf(list)[|list| - 1] == p.category;
      var groups := GroupByCategory(list);
      var cats := Dedup(CategoriesOf(list));
      assert groups == AddPoint(groups0, p);
      var k := FindGroup(groups0, p.category);
      if p.category in cats0 {
        assert cats == cats0;
        var j := IndexOf(cats0, p.category);
        assert groups0[j].category == p.category;
        assert k < |groups0|;
        forall m | 0 <= m < |groups|
          ensures groups[m] == Group(cats[m], EntriesOf(list, cats[m]))
        {
          if m != k {
            assert cats0[m] != cats0[k];
          }
        }
      } else {
        assert cats == cats0 + [p.category];
        assert k == |groups0|;
        EntriesOfAbsent(init, p.category);
        forall m | 0 <= m < |groups|
          ensures groups[m] == Group(cats[m], EntriesOf(list, cats[m]))
        {
          if m < |groups0| {
            assert cats[m] == cats0[m] != p.category;
          }
        }
      }
    }
  }

  // ---------------------------------------------------------------------------------------
  // Zero-filled datasets

  /** The value of the first entry whose month label is `time`, or none when no entry has it. */
  function FindValue(entries: seq<Entry>, time: string): Option<int> {
    if |entries| == 0 then None
    else if entries[0].time == time then Some(entries[0].value)
    else FindValue(entries[1..], time)
  }

  /**
   * The reference: the value of the first point of `list` with this category and time, or
   * `None` when there is no such point.
   */
  function FirstValue(list: seq<Point>, category: string, time: string): (v: Option<int>)
    ensures v.None? <==> forall i :: 0 <= i < |list| ==> !(list[i].category == category && list[i].time == time)
    ensures v.Some? ==> exists i ::
      && 0 <= i < |list|
      && list[i].category == category && list[i].time == time && list[i].value == v.value
      && forall j :: 0 <= j < i ==> !(list[j].category == category && list[j].time == time)
  {
    if |list| == 0 then None
    else if list[0].category == category && list[0].time == time then Some(list[0].value)
    else
      var v := FirstValue(list[1..], category, time);
      assert forall i :: 1 <= i < |list| ==> list[i] == list[1..][i - 1];
      if v.Some? then
        var i :|
          && 0 <= i < |list[1..]|
          && list[1..][i].category == category && list[1..][i].time == time && list[1..][i].value == v.value
          && forall j :: 0 <= j < i ==> !(list[1..][j].category == category && list[1..][j].time == time);
        assert list[i + 1] == list[1..][i];
        v
      else v
  }

  lemma {:induction false} FindValueAppend(a: seq<Entry>, b: seq<Entry>, time: string)
    ensures FindValue(a + b, time) == if FindValue(a, time).Some? then FindValue(a, time) else FindValue(b, time)
  {
    if |a| == 0 {
      assert a + b == b;
    } else {
      assert (a + b)[1..] == a[1..] + b;
      FindValueAppend(a[1..], b, time);
    }
  }

  lemma {:induction false} FirstValueAppend(list: seq<Point>, p: Point, category: string, time: string)
    ensures FirstValue(list + [p], category, time) ==
      if FirstValue(list, category, time).Some? then FirstValue(list, category, time)
      else if p.category == category && p.time == time then Some(p.value)
      else None
  {
    if |list| > 0 {
      assert (list + [p])[1..] == list[1..] + [p];
      FirstValueAppend(list[1..], p, category, time);
    }
  }

  /** Looking a time up in a category's array finds that category's first point at that time. */
  lemma {:induction false} FindValueIsFirstValue(list: seq<Point>, category: string, time: string)
    ensures FindValue(EntriesOf(list, category), time) == FirstValue(list, category, time)
  {
    if |list| > 0 {
      var init := list[..|list| - 1];
      var p := list[|list| - 1];
      assert list == init + [p];
      FindValueIsFirstValue(init, category, time);
      FirstValueAppend(init, p, category, time);
      FindValueAppend(EntriesOf(init, category), if p.category == category then [EntryOf(p)] else [], time);
    }
  }

  datatype Dataset = Dataset(name: string, data: seq<int>)

  /** The `{ labels, datasets }` object handed to the chart. */
  datatype Chart = Chart(labels: seq<string>, datasets: seq<Dataset>)

  /** A dataset's data: for each label, the value of the category's first entry with that label, or 0. */
  function ZeroFilled(entries: seq<Entry>, labels: seq<string>): seq<int> {
    seq(|labels|, j requires 0 <= j < |labels| => FindValue(entries, labels[j]).GetOr(0))
  }

  /** The `label` of every dataset, in order. */
  function Names(datasets: seq<Dataset>): seq<string> {
    seq(|datasets|, k requires 0 <= k < |datasets| => datasets[k].name)
  }

  /** `lostChart` / `inChart` built from a breakdown series. */
  function CategoryChart(list: seq<Point>): Chart {
    var labels := Dedup(TimesOf(list));
    var groups := GroupByCategory(list);
    Chart(labels, seq(|groups|, k requires 0 <= k < |groups| => Dataset(groups[k].category, ZeroFilled(groups[k].entries, labels))))
  }

  /** A month label occurs in the series exactly when some point carries it. */
  lemma TimesOfMembership(list: seq<Point>, t: string)
    ensures t in TimesOf(list) <==> exists i :: 0 <= i < |list| && list[i].time == t
  {
    if t in TimesOf(list) {
      var i := IndexOf(TimesOf(list), t);
      assert list[i].time == t;
    }
    if exists i :: 0 <= i < |list| && list[i].time == t {
      var i :| 0 <= i < |list| && list[i].time == t;
      assert TimesOf(list)[i] == t;
    }
  }

  /**
   * The labels are the distinct month labels of the series, each once, in the order of their
   * first occurrence: a label is shown exactly when some point carries it.
   */
  lemma CategoryChartLabels(list: seq<Point>)
    ensures NoDuplicates(CategoryChart(list).labels)
    ensures forall t :: t in CategoryChart(list).labels <==> exists i :: 0 <= i < |list| && list[i].time == t
    ensures forall i, j :: 0 <= i < j < |CategoryChart(list).labels| ==>
      IndexOf(TimesOf(list), CategoryChart(list).labels[i]) < IndexOf(TimesOf(list), CategoryChart(list).labels[j])
  {
    DedupOrder(TimesOf(list));
    forall t {
      TimesOfMembership(list, t);
    }
  }

  /**
   * There is one dataset per distinct category of the series, named after it, in the order of
   * first occurrence; so the dataset names are exactly the categories that occur.
   */
  lemma CategoryChartNames(list: seq<Point>)
    ensures Names(CategoryChart(list).datasets) == Dedup(CategoriesOf(list))
    ensures forall c :: c in Names(CategoryChart(list).datasets) <==> c in CategoriesOf(list)
  {
    GroupByCategoryIsGrouping(list);
    assert Names(CategoryChart(list).datasets) == Dedup(CategoriesOf(list));
  }

  /**
   * Every dataset has one value per label: the value of the first point with the dataset's
   * category and that month, or 0 where the category has no point that month.
   */
  lemma CategoryChartData(list: seq<Point>)
    ensures forall k :: 0 <= k < |CategoryChart(list).datasets| ==>
      && |CategoryChart(list).datasets[k].data| == |CategoryChart(list).labels|
      && forall j :: 0 <= j < |CategoryChart(list).labels| ==>
           CategoryChart(list).datasets[k].data[j] ==
             FirstValue(list, CategoryChart(list).datasets[k].name, CategoryChart(list).labels[j]).GetOr(0)
  {
    var chart := CategoryChart(list);
    var groups := GroupByCategory(list);
    var categories := Dedup(CategoriesOf(list));
    GroupByCategoryIsGrouping(list);
    forall k, j | 0 <= k < |chart.datasets| && 0 <= j < |chart.labels|
      ensures chart.datasets[k].data[j] == FirstValue(list, chart.datasets[k].name, chart.labels[j]).GetOr(0)
    {
      assert groups[k] == Group(categories[k], EntriesOf(list, categories[k]));
      FindValueIsFirstValue(list, categories[k], chart.labels[j]);
    }
  }

  /**
   * For a series of positive values (the deduction breakdown), a chart value is 0 exactly
   * where the category has no point in that month, and positive elsewhere.
   */
  lemma CategoryChartZeros(list: seq<Point>)
    requires forall i :: 0 <= i < |list| ==> list[i].value > 0
    ensures forall k, j :: 0 <= k < |CategoryChart(list).datasets| && 0 <= j < |CategoryChart(list).labels| ==>
      && CategoryChart(list).datasets[k].data[j] >= 0
      && (CategoryChart(list).datasets[k].data[j] == 0 <==>
          FirstValue(list, CategoryChart(list).datasets[k].name, CategoryChart(list).labels[j]).None?)
  {
    var chart := CategoryChart(list);
    CategoryChartData(list);
    forall k, j | 0 <= k < |chart.datasets| && 0 <= j < |chart.labels|
      ensures chart.datasets[k].data[j] >= 0
      ensures chart.datasets[k].data[j] == 0 <==> FirstValue(list, chart.datasets[k].name, chart.labels[j]).None?
    {
      var v := FirstValue(list, chart.datasets[k].name, chart.labels[j]);
      assert chart.datasets[k].data[j] == v.GetOr(0);
      if v.Some? {
        var i :| 0 <= i < |list| && list[i].value == v.value;
      }
    }
  }

  /** For a series of non-negative values (the income breakdown), every chart value is non-negative. */
  lemma CategoryChartNonNegative(list: seq<Point>)
    requires forall i :: 0 <= i < |list| ==> list[i].value >= 0
    ensures forall k, j :: 0 <= k < |CategoryChart(list).datasets| && 0 <= j < |CategoryChart(list).labels| ==>
      CategoryChart(list).datasets[k].data[j] >= 0
  {
    var chart := CategoryChart(list);
    CategoryChartData(list);
    forall k, j | 0 <= k < |chart.datasets| && 0 <= j < |chart.labels|
      ensures chart.datasets[k].data[j] >= 0
    {
      var v := FirstValue(list, chart.datasets[k].name, chart.labels[j]);
      assert chart.datasets[k].data[j] == v.GetOr(0);
      if v.Some? {
        var i :| 0 <= i < |list| && list[i].value == v.value;
      }
    }
  }
}
