/**
 * The shape of a payroll row as the dashboard sees it: an object whose own enumerable
 * entries, in key order, are strings, numbers or null.
 */
module Rows {
  import opened Options

  /** A field value; amounts are integers (for instance cents) rather than JS floats. */
  datatype Val = Num(n: int) | Str(s: string) | Null

  datatype Field = Field(key: string, val: Val)

  /** An object's own entries in enumeration order (`Object.entries`). */
  type Record = seq<Field>

  /** `Date.getMonth() + 1`. */
  type MonthNumber = m: int | 1 <= m <= 12 witness 1

  /**
   * A parsed `Date`: `instant` is `getTime()`, used for ordering; `year` and `month` are
   * `getFullYear()` and `getMonth() + 1` in the viewer's time zone.
   */
  datatype Stamp = Stamp(instant: int, year: int, month: MonthNumber)

  /**
   * A row of the income table. `fields` holds every column, the raw `time` string included;
   * `at` is that time already parsed, which is what the aggregation code reads.
   */
  datatype Income = Income(at: Stamp, fields: Record)

  function Keys(r: Record): (ks: seq<string>)
    ensures |ks| == |r|
    ensures forall i :: 0 <= i < |r| ==> ks[i] == r[i].key
  {
    seq(|r|, i requires 0 <= i < |r| => r[i].key)
  }

  /** The position of the first entry with key `key`, as `obj[key]` finds it. */
  function IndexOfKey(r: Record, key: string): (i: nat)
    requires key in Keys(r)
    ensures i < |r| && r[i].key == key
    ensures forall j :: 0 <= j < i ==> r[j].key != key
  {
    if r[0].key == key then 0
    else
      var i :| 0 <= i < |r| && Keys(r)[i] == key;
      assert Keys(r[1..])[i - 1] == key;
      1 + IndexOfKey(r[1..], key)
  }

  /** `obj[key]`: the value of the entry with that key, `None` for `undefined`. */
  function Lookup(r: Record, key: string): (v: Option<Val>)
    ensures v.None? <==> key !in Keys(r)
    ensures v.Some? ==> v.value == r[IndexOfKey(r, key)].val
  {
    if key in Keys(r) then Some(r[IndexOfKey(r, key)].val) else None
  }

  /**
   * `translations[key] || key`: the display name of a field, falling back to the raw key when
   * the table has no entry or an empty one.
   */
  function Translate(translations: map<string, string>, key: string): (name: string)
    ensures key in translations && translations[key] != "" ==> name == translations[key]
    ensures key !in translations || translations[key] == "" ==> name == key
    ensures name != "" || key == ""
  {
    if key in translations && translations[key] != "" then translations[key] else key
  }
}
