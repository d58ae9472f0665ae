# income-analysis: a Dafny model of the payroll dashboard's core

income-analysis is a small React dashboard over a table of monthly payroll rows. Each row holds
a `time`, an `owner`, bookkeeping columns and signed amounts. Income items are non-negative.
Deductions such as tax, insurance and rent are negative. This project models the part of the
dashboard that turns the rows into what is shown:

- `src/utils/income.ts`. The `YYYY-MM` month label (`formatTime`). The record and list sums
  (`sumObj`, `sumNumArr`). The summary totals, averages and yearly projections (`getTotalInfo`).
  The two-line trend series (`getTotalChartData`). The per-field deduction and income breakdowns
  (`getLostChartData`, `getInChartData`).
- `src/App.tsx`:
  - grouping a breakdown by category;
  - the distinct month labels and the zero-filled datasets of the two category charts;
  - `formatDateTime` (`YYYY年MM月`);
  - the header's time range;
  - the guard that refreshes the summary only for a non-empty row list.
- `src/components/Table.tsx`. The column filter, the translated headers, the `'-'` placeholder
  and the date reformatting of cells.

The Dafny modules follow that structure:

| module | file | contents |
|---|---|---|
| `Options` | `options.dfy` | `Option` with `GetOr`, the fallback of `?.value` and `??` |
| `Strings` | `strings.dfy` | `String(n)`, `padStart(2, '0')`, month texts and their parser, JS string order, the case-insensitive name test |
| `Sorting` | `sorting.dfy` | the stable `Array.prototype.sort` as an insertion sort by an integer key |
| `Rows` | `rows.dfy` | row values, entries, parsed dates, `obj[key]`, translated field names |
| `IncomeUtils` | `income_utils.dfy` | everything in `income.ts` |
| `Seqs` | `seqs.dfy` | first occurrence in a sequence, and the distinct values of a sequence in first-occurrence order |
| `Charts` | `charts.dfy` | the category charts of `App.tsx` |
| `Dates` | `dates.dfy` | `formatDateTime` |
| `AppView` | `app_view.dfy` | the time range, the summary guard, the two charts with the dashboard's translation table |
| `TableRows` | `table_rows.dfy` | the table component's data |

Modelling decisions:

- A row is a sequence of entries `Field(key, val)` in `Object.entries` order. A value is
  `Num(int)`, `Str(string)` or `Null`. Amounts are integers, for instance cents.
- Averages are reals wrapped in `Quotient`, a JS number produced by division. It is `Finite`,
  `Infinity` or `NaN`, so dividing by an empty row count is modelled rather than excluded.
- `new Date(s)` is not modelled. A row carries its parsed time as a `Stamp`. `instant` is
  `getTime()`, and `year` and `month` are `getFullYear()` and `getMonth() + 1`. The raw `time`
  string stays among the row's entries. Where the view parses strings itself, a `Parser`
  (`string -> Option<Stamp>`, `None` for an invalid date) is a parameter.
- `Array.prototype.sort` has been stable since ES2019. It is modelled as the stable insertion
  sort `Sorting.SortBy`. `Sorting.SortByIsTheStableSort` shows that every sorted and stable
  reordering equals it, so the choice of algorithm does not matter.
- A JS object used as a grouping map is a sequence of `Group`s in key-insertion order.
  `Array.from(new Set(xs))` is `Seqs.Dedup`.
- Month labels are specified through their reader `Strings.ParseMonthText`. It accepts only
  canonical integer text: no leading zeros and no "-0". So "reads back as the year and month"
  fixes the label's exact text (`Strings.MonthText`, `Strings.MonthTextOfParse`).
- The source's `type` field of a chart point is named `category` here.
- `sumObj` adds every own numeric field, so a numeric `id` counts toward a month's net amount.
  The breakdowns exclude `id` by key.

## Model

| member | source | states |
|---|---|---|
| Strings.NatText | src/utils/income.ts:8 | The decimal text of a number is non-empty, all digits, without a leading zero, one digit below 10 and two below 100. |
| Strings.IntTextRoundTrip | src/utils/income.ts:9 | `String(n)` for any integer reads back as `n`. |
| Strings.Pad2RoundTrip | src/utils/income.ts:8 | `padStart(2, '0')` of a month number gives two digits that read back as the month. |
| Strings.MonthText | src/utils/income.ts:5-10 | For a real month, the label `<year><sep><MM><suffix>` reads back as exactly its year and month, and it is the only text that does. This one contract serves both `formatTime` and `formatDateTime`. |
| Strings.MonthTextRoundTrip | src/utils/income.ts:5-10 | The year's text, separator, padded month and suffix, joined, parse back to exactly the year and month. |
| Strings.NatTextOfParseNat | src/utils/income.ts:8-9 | Digits without a leading zero are the decimal text of their own value, so `String(n)` is the only such text for `n`. |
| Strings.IntTextOfParseInt | src/utils/income.ts:9 | Every text the integer reader accepts is `String` of the value it reads. The reader rejects leading zeros and "-0", so a year such as "02024" is not read. |
| Strings.Pad2OfParseNat | src/utils/income.ts:8 | Any two digits are `padStart(2, '0')` of the number they stand for. |
| Strings.MonthTextOfParse | src/utils/income.ts:5-10 | The converse round trip: a text that reads back as a year and month is exactly the year's text, the separator, the padded month and the suffix, with a month below 100. |
| Strings.MonthTextOnly | src/App.tsx:163-165 | For a real month, the joined pieces are the only text that reads back as that year and month. |
| Strings.LexMin | src/App.tsx:174-175 | The first string after `sort()` is one of the times and precedes every other in JS string order. |
| Strings.LexMax | src/App.tsx:174-176 | The last string after `sort()` is one of the times and follows every other. |
| Strings.LexMinUnique | src/App.tsx:174-175 | Any least time is the one `LexMin` picks, so the result does not depend on how the sort breaks ties. |
| Strings.LexMaxUnique | src/App.tsx:174-176 | Any greatest time is the one `LexMax` picks. |
| Strings.LexLeTotal | src/App.tsx:174 | JS string order compares any two strings. |
| Strings.LexLeAntisymmetric | src/App.tsx:174 | Two strings that each precede the other are equal. |
| Strings.LexLeTransitive | src/App.tsx:174 | JS string order is transitive. |
| Strings.IsDateFieldName | src/components/Table.tsx:44 | The date-like field test matches exactly when "time" or "date" occurs in the name in any ASCII letter case. |
| Sorting.Insert | src/utils/income.ts:27 | Inserting into a sorted list keeps it sorted and adds exactly the one element. |
| Sorting.SortBy | src/utils/income.ts:27 | The sort returns a sorted permutation of its input. |
| Sorting.SortByStable | src/utils/income.ts:27 | For every key, the elements with that key keep their input order. |
| Sorting.StableSortUnique | src/utils/income.ts:27 | Two sorted lists with the same elements per key, in the same order, are equal. |
| Sorting.SortByIsTheStableSort | src/utils/income.ts:27 | Any sorted and stable reordering of the input equals `SortBy`'s result. |
| Rows.IndexOfKey | src/components/Table.tsx:40 | `item[field]` reads the first entry with that key. |
| Rows.Lookup | src/components/Table.tsx:40 | `item[field]` is undefined exactly when the row has no such key, and otherwise is that entry's value. |
| Rows.Translate | src/utils/income.ts:89 | A field is shown under its non-empty translation, otherwise under its own key, and never as an empty name unless the key is empty. |
| IncomeUtils.FormatTime | src/utils/income.ts:5-10 | The `YYYY-MM` label reads back as the year and month of the time, and it is the only text that does: the year exactly as `String` writes it, then the two-digit month. It follows from `Strings.MonthText` with separator '-'. |
| IncomeUtils.FormatTimeSameMonth | src/utils/income.ts:5-10 | Two times share a label exactly when they fall in the same year and month. |
| IncomeUtils.SumNumArr | src/utils/income.ts:22-24 | Adds the list from the left, starting at 0. Its properties are stated by `SumNumArrConcat`, `SumMapPermutation` and `SumMapAdd`. |
| IncomeUtils.SumNumArrConcat | src/utils/income.ts:22-24 | The sum of a joined list is the sum of its parts. |
| IncomeUtils.SumMapPermutation | src/utils/income.ts:42-43 | Reordering a list does not change the sum of any amount over it. |
| IncomeUtils.SumMapAdd | src/utils/income.ts:43 | Summing the sum of two amounts is summing each and adding. |
| IncomeUtils.SumObj | src/utils/income.ts:12-20 | A record's sum is the sum of its numeric values; strings and nulls add nothing. |
| IncomeUtils.SumObjProperties | src/utils/income.ts:12-20 | A record without numbers sums to 0, and the sum is additive over the record's entries. |
| IncomeUtils.NumbersOfEmpty | src/utils/income.ts:34 | The filter `typeof val === 'number'` with a sign test is empty exactly when no entry passes it. |
| IncomeUtils.LostValue | src/utils/income.ts:33-41 | A month's deduction is never negative, and it is 0 exactly when no entry is a negative number. |
| IncomeUtils.NetIsGrossLessLost | src/utils/income.ts:12-20 | A month's net amount is its non-negative amounts less its deduction. |
| IncomeUtils.SortByTime | src/utils/income.ts:27 | The sorted rows are a permutation in ascending time, and rows with equal times keep their input order. |
| IncomeUtils.RealIncomeList | src/utils/income.ts:28-32 | One point per row, carrying the row's net amount. |
| IncomeUtils.LostList | src/utils/income.ts:33-41 | One point per row, carrying the row's deduction. |
| IncomeUtils.Divide | src/utils/income.ts:45 | Dividing by a positive count gives the finite quotient. Dividing by zero is never finite, and 0 / 0 is NaN. |
| IncomeUtils.Times12 | src/utils/income.ts:46-47 | Multiplying by 12 keeps a number finite, infinite or NaN, and scales a finite value by 12. |
| IncomeUtils.GetTotalInfo | src/utils/income.ts:26-56 | Post-tax total = sum of net amounts. Expenses = sum of deductions, never negative. Pre-tax total = post-tax + expenses = sum of non-negative amounts. None depends on row order. |
| IncomeUtils.Summarize | src/utils/income.ts:42-55 | With rows, the average times the count is the post-tax total and the projections are 12 averages. With no rows and zero sums, all three quotients are NaN. |
| IncomeUtils.SeriesTotals | src/utils/income.ts:42-44 | The sums over the time-sorted series equal the sums over the rows as given, and pre-tax = net + deductions. |
| IncomeUtils.GetTotalChartData | src/utils/income.ts:58-75 | Two parallel series, one point per row in time order, with equal month labels, net and deduction values, and fixed categories. Their sums are the summary's post-tax total and expenses. |
| IncomeUtils.QualifyingFields | src/utils/income.ts:82-85 | The kept entries are exactly the row's entries outside the excluded keys with a number of the right sign, and there are never more of them than entries. |
| IncomeUtils.QualifyingFieldsConcat | src/utils/income.ts:81-85 | Filtering joined entries joins the filtered parts. Together with membership and length, this fixes the kept entries in entry order, each as often as it occurs. |
| IncomeUtils.RecordPoints | src/utils/income.ts:81-92 | Computes a row's points: its qualifying entries stably sorted, then pushed one point each. Its properties are stated by `RecordPointsOrder`, `RecordPointsSource` and `RecordPointsPermutation`. |
| IncomeUtils.RecordPointsOrder | src/utils/income.ts:81-92 | A row yields one point per qualifying entry, all with the row's month label. Within the row the values never decrease (deductions by descending value, income by ascending value). |
| IncomeUtils.RecordPointsSource | src/utils/income.ts:84-91 | Each point of a row comes from one of its qualifying entries, with a positive deduction or a non-negative income amount. |
| IncomeUtils.ConcatLength | src/utils/income.ts:80-93 | Pushing every row's points gives as many points as all rows together. |
| IncomeUtils.SwapFirstTwo | src/utils/income.ts:94-98 | With two or more points, only the first two trade places. Shorter lists are unchanged. The result is a permutation. |
| IncomeUtils.Breakdown | src/utils/income.ts:77-100 | Computes `getLostChartData` and, with the other kind, `getInChartData` (lines 102-125): every time-sorted row's points, then the swap. Its properties are stated by `BreakdownFacts`, `BreakdownIsPermutation`, `BreakdownComplete` and `AllPointsRowOrder`. |
| IncomeUtils.BreakdownFacts | src/utils/income.ts:77-100 | A breakdown has as many points as there are qualifying entries in all rows. Every point comes from a qualifying entry and carries a valid amount. |
| IncomeUtils.RowPoints | src/utils/income.ts:81-92 | The reference points of one row, without sorting: one per qualifying entry. |
| IncomeUtils.PointsOf | src/utils/income.ts:84-91 | The `forEach` push: one point per entry, in the entries' order. Each point is built from that entry's amount and translated key, with the row's month label. |
| IncomeUtils.PointsOfPermutation | src/utils/income.ts:83-91 | Pushing a reordering of the entries yields a reordering of the points. |
| IncomeUtils.RecordPointsPermutation | src/utils/income.ts:83 | Sorting a row's entries only reorders its points; every point keeps its multiplicity. |
| IncomeUtils.BreakdownIsPermutation | src/utils/income.ts:77-100 | A breakdown is a permutation of the reference list: rows in input order, each row's qualifying entries in entry order, one point each. The time sort, the per-row sort and the swap only reorder. |
| IncomeUtils.BreakdownComplete | src/utils/income.ts:80-92 | Every qualifying entry of every row yields its point (row month, amount, translated key) in the breakdown. |
| IncomeUtils.ConcatPosOrder | src/utils/income.ts:80-93 | Pushing row after row keeps order: a later point comes from a later row, or from later in the same row. |
| IncomeUtils.AllPointsRowOrder | src/utils/income.ts:78-93 | Before the swap, the points come row by row in ascending `getTime()`: of two points, the later one is further on in the same row, or belongs to a later row with the same or a later time. |
| IncomeUtils.GetLostChartData | src/utils/income.ts:77-100 | One point per negative number outside the bookkeeping keys, summed over all rows; every value is positive. |
| IncomeUtils.LostChartDataSource | src/utils/income.ts:82-91 | Every deduction point is (row month, -value, translated key) of a negative entry of some row whose key is not excluded. |
| IncomeUtils.GetInChartData | src/utils/income.ts:102-125 | One point per non-negative number outside the bookkeeping keys and `leave_deduction`; every value is non-negative. |
| IncomeUtils.InChartDataSource | src/utils/income.ts:107-116 | Every income point is (row month, value, translated key) of a non-negative entry of some row whose key is not excluded. |
| IncomeUtils.ConcatTotal | src/utils/income.ts:80-93 | The pushed points add up to the sum of every row's points. |
| IncomeUtils.RecordPointsTotal | src/utils/income.ts:83 | Sorting a row's entries does not change what its points add up to. |
| IncomeUtils.QualifyingLostTotal | src/utils/income.ts:82-85 | Without negative bookkeeping values, a row's qualifying deductions add up to its deduction. |
| IncomeUtils.LostChartTotal | src/utils/income.ts:77-100 | Without negative bookkeeping values, the deduction breakdown adds up to `totalExpenses` of the summary. |
| Seqs.Dedup | src/App.tsx:126 | `Array.from(new Set(xs))` has no duplicates and holds exactly the values of `xs`. |
| Seqs.DedupOrder | src/App.tsx:126 | Distinct values come in the order of their first occurrence. |
| Charts.AddPoint | src/App.tsx:122-123 | The `reduce` step: it creates the category's array when missing, then pushes. Its effect is stated by `GroupByCategoryIsGrouping`. |
| Charts.GroupByCategory | src/App.tsx:121-125 | The grouping reduction. It is characterised against the `EntriesOf` reference by `GroupByCategoryIsGrouping`. |
| Charts.GroupByCategoryIsGrouping | src/App.tsx:121-125 | The reduction gives one group per distinct category, in first-occurrence order, each holding exactly its category's points in list order. |
| Charts.FirstValue | src/App.tsx:129 | The reference lookup is the first point with that category and month, and none exactly when no such point exists. |
| Charts.FindValue | src/App.tsx:129 | The value of a category's first entry in a given month, if any. It is characterised by `FindValueIsFirstValue`. |
| Charts.FindValueIsFirstValue | src/App.tsx:129 | Searching a category's entries for a month finds the value of the category's first point in that month in the whole series. |
| Charts.ZeroFilled | src/App.tsx:129 | One value per label, 0 where the category has no entry. It is characterised by `CategoryChartData` and `CategoryChartZeros`. |
| Charts.CategoryChart | src/App.tsx:126-137 | The `{ labels, datasets }` object of a category chart. Its labels, names and data are stated by `CategoryChartLabels`, `CategoryChartNames` and `CategoryChartData`. |
| Charts.TimesOfMembership | src/App.tsx:126 | A month label is among the series' times exactly when some point carries it. |
| Charts.CategoryChartLabels | src/App.tsx:126 | The chart labels are distinct and in first-occurrence order. A label is shown exactly when some point of the series carries it. |
| Charts.CategoryChartNames | src/App.tsx:127-128 | There is one dataset per distinct category, in first-occurrence order, named after it. |
| Charts.CategoryChartData | src/App.tsx:127-133 | Each dataset has one value per label: the first matching point's value, or 0 where the category has no point that month. |
| Charts.CategoryChartZeros | src/App.tsx:129 | For positive series, a value is 0 exactly where the category has no point that month, and otherwise positive. |
| Charts.CategoryChartNonNegative | src/App.tsx:147 | For non-negative series, every chart value is non-negative. |
| Dates.MonthLabel | src/App.tsx:163-165 | The `YYYY年MM月` label reads back as exactly the year and month it was made from, and it is the only text that does. It follows from `Strings.MonthText` with '年' and '月'. |
| Dates.FormatDateTime | src/App.tsx:159-169 | Non-strings and invalid dates come back unchanged. A valid date string becomes a label that parses back as its year and month. It is the only text that does, so the label is exact. |
| Dates.FormatDateTimeSameMonth | src/App.tsx:159-169 | Two valid date strings get the same label exactly when they share year and month. |
| AppView.TruthyTimes | src/App.tsx:174 | There is one kept time per row whose `time` is a non-empty string, counted by `RowsWithTime`. The kept times are non-empty, and they are exactly the string times of those rows. |
| AppView.ShownTime | src/App.tsx:175-177 | A non-empty time is never shown as an empty string. |
| AppView.TimeRange | src/App.tsx:172-180 | The range is empty exactly when no row has a non-empty time, in particular for no rows. |
| AppView.TimeRangeBounds | src/App.tsx:172-180 | With times, the range is least time, dash, greatest time (both through `formatDateTime`), then in parentheses the number of rows with a non-empty time. |
| AppView.RefreshTotals | src/App.tsx:89-93 | A non-empty row list always yields the fresh summary, and only a non-empty one changes what is shown. So if no summary was shown or a finite one was, the summary afterwards is also absent or finite: the screen never shows a NaN average. |
| AppView.UnguardedEmptyIsNaN | src/utils/income.ts:45-47 | Without the guard, an empty row list would give NaN averages and projections. |
| AppView.LostChart | src/App.tsx:134-137 | The deduction chart built from `getLostChartData` with the dashboard's translations. Its values are stated by `LostChartZeros`. |
| AppView.InChart | src/App.tsx:152-155 | The income chart built from `getInChartData` with the dashboard's translations. Its values are stated by `InChartNonNegative`. |
| AppView.LostChartZeros | src/App.tsx:121-137 | In the deduction chart, a value is 0 exactly for a month without that deduction, and otherwise positive. |
| AppView.InChartNonNegative | src/App.tsx:139-155 | In the income chart, every value is non-negative. |
| TableRows.Columns | src/components/Table.tsx:15-17 | A key is a column exactly when the first row has it and neither exclusion list names it. |
| TableRows.ColumnsDistinct | src/components/Table.tsx:15-17 | Distinct keys give distinct columns. |
| TableRows.ColumnsKeepOrder | src/components/Table.tsx:15-17 | Columns keep the order of the keys. |
| TableRows.Headers | src/components/Table.tsx:20-22 | One header per column: its non-empty translation, otherwise the key. |
| TableRows.Cell | src/components/Table.tsx:40-48 | A missing or null value shows as '-'. In a date-like field, it shows the month label instead only if '-' itself parses as a date. Numbers pass unchanged. A string is reformatted only when the field is date-like and it parses. The reformatted label reads back as the date's year and month, and it is the only text that does. |
| TableRows.RowOf | src/components/Table.tsx:38-51 | Each row has exactly the columns as keys, in order, and each cell's value follows the cell rule. |
| TableRows.BuildTable | src/components/Table.tsx:12-52 | No data exactly for an empty list. Otherwise the columns are the first row's non-excluded keys in key order (`Columns`, so `ColumnsKeepOrder` applies). Header `j` is column `j`'s translated name. There is one row per item, and row `r` holds item `r`'s rendered cell for every column, in column order. |

## Left out

- Fetching rows from the database, the `loading` flag and React state are not modelled. The row list is an input, and the effect at `src/App.tsx:89-93` is a function from the previous summary to the next.
- Chart.js rendering is not modelled: colours, `tension`, the `hsl` hues and the JSX markup. The `totalChartData` object at `src/App.tsx:101-119` only copies the series' labels and values, which `IncomeUtils.GetTotalChartData` already states.
- The other components (`IncomeForm`, `IncomeCharts`, `IncomeStats`, `OtherIncomeList`), the static `otherIncomeList` and `toLocaleString` formatting are not modelled; they are display glue outside the core.
- JS date parsing and time zones are not modelled. A row carries its parsed `Stamp`, and string parsing is the `Parser` parameter. The model does not check that a row's `Stamp` matches its `time` string.
- Floating point is not modelled. Amounts are integers, and averages are exact reals.
- IncomeUtils.RecordPoints: the breakdowns sort all of a row's non-excluded entries with `val2 - val1` (or `val1 - val2`) before filtering. The model sorts only the qualifying numeric entries. JS coerces `null` to 0, so with numbers and nulls only, a stable sort followed by the filter gives the same order. A non-numeric string makes the comparator return NaN, and the resulting order is implementation-defined.
- Object key order is not modelled. JS enumerates integer-like keys (such as "12") first, in ascending order, before the other keys in insertion order. The model keeps plain insertion order for the grouping object's categories and a row's entries.
- Prototype properties are not modelled. With `fieldTranslations[key]`, `acc[cur.type]` and `item[field]`, a key such as "constructor" would find an inherited property. The model sees only own entries.
- Strings.LexLe compares code points, where JS `sort()` compares UTF-16 code units. The two agree outside the supplementary planes.
- AppView.TruthyTimes keeps only string times. A non-string truthy `time`, such as a number, is treated as absent.
- TableRows.ColumnsKeepOrder assumes the keys are distinct, which an object's keys always are.
- IncomeUtils.LostChartTotal assumes no excluded column holds a negative number. Otherwise `getTotalInfo` counts that number and the breakdown does not.
