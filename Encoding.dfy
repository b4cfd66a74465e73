/**
  The fixed name-to-code tables of the recommender (time of day, weekday, month).
  Each table is a map literal, as in the source; the `...Labels` sequences list the
  same labels in code order, so the name at position `i` has code `i + 1`.
 */
module Encoding {
  import opened Wrappers

  const TimeLabels: seq<string> := ["Morning", "Afternoon", "Night"]
  const WeekdayLabels: seq<string> := ["Mon", "Tue", "Wed", "Thu", "Fri", "Sat", "Sun"]
  const MonthLabels: seq<string> :=
    ["Jan", "Feb", "Mar", "Apr", "May", "Jun", "Jul", "Aug", "Sep", "Oct", "Nov", "Dec"]

  const TimeMap: map<string, int> := map["Morning" := 1, "Afternoon" := 2, "Night" := 3]
  const WeekdayMap: map<string, int> :=
    map["Mon" := 1, "Tue" := 2, "Wed" := 3, "Thu" := 4, "Fri" := 5, "Sat" := 6, "Sun" := 7]
  const MonthMap: map<string, int> :=
    map["Jan" := 1, "Feb" := 2, "Mar" := 3, "Apr" := 4, "May" := 5, "Jun" := 6,
        "Jul" := 7, "Aug" := 8, "Sep" := 9, "Oct" := 10, "Nov" := 11, "Dec" := 12]

  /** Looks a label up in a table; `None` is the failed lookup. */
  function Lookup(table: map<string, int>, name: string): Option<int>
  {
    if name in table then Some(table[name]) else None
  }

  /** Time-of-day code: Morning, Afternoon, Night are 1, 2, 3; any other label has none. */
  function TimeCode(name: string): (r: Option<int>)
    ensures r.Some? <==> name in TimeLabels
    ensures r.Some? ==> 1 <= r.value <= |TimeLabels| && TimeLabels[r.value - 1] == name
  {
    Lookup(TimeMap, name)
  }

  /** Weekday code: Mon .. Sun are 1 .. 7; any other label has none. */
  function WeekdayCode(name: string): (r: Option<int>)
    ensures r.Some? <==> name in WeekdayLabels
    ensures r.Some? ==> 1 <= r.value <= |WeekdayLabels| && WeekdayLabels[r.value - 1] == name
  {
    Lookup(WeekdayMap, name)
  }

  /** Month code: Jan .. Dec are 1 .. 12; any other label has none. */
  function MonthCode(name: string): (r: Option<int>)
    ensures r.Some? <==> name in MonthLabels
    ensures r.Some? ==> 1 <= r.value <= |MonthLabels| && MonthLabels[r.value - 1] == name
  {
    Lookup(MonthMap, name)
  }

  /** Every name of each table has the code given by its position. */
  lemma CodesFollowLabelOrder(i: nat)
    ensures i < |TimeLabels| ==> TimeCode(TimeLabels[i]) == Some(i + 1)
    ensures i < |WeekdayLabels| ==> WeekdayCode(WeekdayLabels[i]) == Some(i + 1)
    ensures i < |MonthLabels| ==> MonthCode(MonthLabels[i]) == Some(i + 1)
  {
  }

  /** No two labels of a table share a code. */
  lemma CodesInjective(a: string, b: string)
    ensures TimeCode(a).Some? && TimeCode(a) == TimeCode(b) ==> a == b
    ensures WeekdayCode(a).Some? && WeekdayCode(a) == WeekdayCode(b) ==> a == b
    ensures MonthCode(a).Some? && MonthCode(a) == MonthCode(b) ==> a == b
  {
  }
}
