/** The day-by-day view of the logistics screen: the calendar days of a
    trip, and the activities shown under each day. */
module Itinerary {
  import opened Wrappers
  import opened Calendar
  import opened Model

  /** Number of days from `start` to `end` inclusive; 0 for an inverted
      range. */
  function SpanLength(start: Date, end: Date): nat
    requires ValidDate(start) && ValidDate(end)
  {
    if Ordinal(end) < Ordinal(start) then 0 else Ordinal(end) - Ordinal(start) + 1
  }

  /** Day list of a range: entry i is the day i days after `start`. */
  ghost predicate DayList(days: seq<string>, start: Date)
    requires ValidDate(start)
  {
    forall i :: 0 <= i < |days| ==>
      Parse(days[i]).Some? && Ordinal(Parse(days[i]).value) == Ordinal(start) + i
  }

  /** `tripDays`: every calendar day from the trip's start date to its end
      date inclusive, as `YYYY-MM-DD` strings. Nothing when either date is
      empty or unreadable, or when the end comes before the start. */
  method TripDays(startDate: string, endDate: string) returns (days: seq<string>)
    ensures startDate == "" || endDate == "" ==> days == []
    ensures Parse(startDate).None? || Parse(endDate).None? ==> days == []
    ensures Parse(startDate).Some? && Parse(endDate).Some? ==>
              && |days| == SpanLength(Parse(startDate).value, Parse(endDate).value)
              && DayList(days, Parse(startDate).value)
    ensures |days| > 0 ==> days[0] == startDate && days[|days| - 1] == endDate
  {
    if startDate == "" || endDate == "" {
      ParseNeedsTenChars(startDate);
      ParseNeedsTenChars(endDate);
      return [];
    }
    days := ReadableDays(startDate, endDate);
  }

  /** `tripDays` once both dates are non-empty: read them, then walk. */
  method ReadableDays(startDate: string, endDate: string) returns (days: seq<string>)
    ensures Parse(startDate).None? || Parse(endDate).None? ==> days == []
    ensures Parse(startDate).Some? && Parse(endDate).Some? ==>
              && |days| == SpanLength(Parse(startDate).value, Parse(endDate).value)
              && DayList(days, Parse(startDate).value)
    ensures |days| > 0 ==> days[0] == startDate && days[|days| - 1] == endDate
  {
    var parsedStart, parsedEnd := Parse(startDate), Parse(endDate);
    if parsedStart.None? || parsedEnd.None? {
      return [];
    }
    days := WalkRange(startDate, endDate, parsedStart.value, parsedEnd.value);
  }

  /** The walk over two readable dates, with the endpoints as written. */
  method WalkRange(startDate: string, endDate: string, start: Date, end: Date) returns (days: seq<string>)
    requires Parse(startDate) == Some(start) && Parse(endDate) == Some(end)
    ensures |days| == SpanLength(start, end) && DayList(days, start)
    ensures |days| > 0 ==> days[0] == startDate && days[|days| - 1] == endDate
  {
    days := EnumerateDays(start, end);
    if |days| > 0 {
      DaysEndpoints(days, startDate, endDate, start, end);
    }
  }

  /** The loop of `tripDays`: step one day at a time while the current day
      is not after `end`. */
  method EnumerateDays(start: Date, end: Date) returns (days: seq<string>)
    requires ValidDate(start) && ValidDate(end) && end.year <= 9999
    ensures |days| == SpanLength(start, end)
    ensures DayList(days, start)
  {
    days := [];
    var dt := start;
    while Ordinal(dt) <= Ordinal(end)
      invariant ValidDate(dt)
      invariant Ordinal(dt) == Ordinal(start) + |days|
      invariant |days| == 0 || Ordinal(dt) <= Ordinal(end) + 1
      invariant DayList(days, start)
      decreases Ordinal(end) + 1 - Ordinal(dt)
    {
      OrdinalOrdersYears(dt, end);
      ParseFormat(dt);
      days := days + [Format(dt)];
      dt := NextDay(dt);
    }
  }

  /** Consecutive entries of a day list are consecutive calendar days. */
  lemma ConsecutiveDays(days: seq<string>, start: Date, i: nat)
    requires ValidDate(start)
    requires DayList(days, start)
    requires i + 1 < |days|
    ensures Parse(days[i + 1]).value == NextDay(Parse(days[i]).value)
  {
    OrdinalInjective(Parse(days[i + 1]).value, NextDay(Parse(days[i]).value));
  }

  /** No day appears twice in a day list. */
  lemma DaysAreDistinct(days: seq<string>, start: Date, i: nat, j: nat)
    requires ValidDate(start)
    requires DayList(days, start)
    requires i < j < |days|
    ensures days[i] != days[j]
  {
  }

  /** The list opens with the start date and closes with the end date, as
      they were written. */
  lemma DaysEndpoints(days: seq<string>, startDate: string, endDate: string, start: Date, end: Date)
    requires Parse(startDate) == Some(start) && Parse(endDate) == Some(end)
    requires DayList(days, start)
    requires |days| == SpanLength(start, end) > 0
    ensures days[0] == startDate && days[|days| - 1] == endDate
  {
    OrdinalInjective(Parse(days[0]).value, start);
    OrdinalInjective(Parse(days[|days| - 1]).value, end);
  }

  // ---- Activities of one day -------------------------------------------

  /** `a.time || ''`: an activity without a time sorts as the empty time. */
  function TimeKey(a: Activity): string {
    a.time.GetOr("")
  }

  /** Code-point lexicographic order on strings. */
  predicate LexLe(a: string, b: string) {
    |a| == 0 || (|b| > 0 && (a[0] < b[0] || (a[0] == b[0] && LexLe(a[1..], b[1..]))))
  }

  lemma {:induction false} LexLeTotal(a: string, b: string)
    ensures LexLe(a, b) || LexLe(b, a)
  {
    if |a| > 0 && |b| > 0 && a[0] == b[0] {
      LexLeTotal(a[1..], b[1..]);
    }
  }

  lemma {:induction false} LexLeTransitive(a: string, b: string, c: string)
    requires LexLe(a, b) && LexLe(b, c)
    ensures LexLe(a, c)
  {
    if |a| > 0 && a[0] == b[0] && b[0] == c[0] {
      LexLeTransitive(a[1..], b[1..], c[1..]);
    }
  }

  ghost predicate SortedByTime(xs: seq<Activity>) {
    forall i, j :: 0 <= i < j < |xs| ==> LexLe(TimeKey(xs[i]), TimeKey(xs[j]))
  }

  /** The activities dated `day`, in their stored order. */
  function ActivitiesOn(acts: seq<Activity>, day: string): (r: seq<Activity>)
    ensures forall i :: 0 <= i < |r| ==> r[i].date == day && r[i] in acts
    ensures forall i :: 0 <= i < |acts| && acts[i].date == day ==> acts[i] in r
    ensures multiset(r) <= multiset(acts)
  {
    if |acts| == 0 then []
    else
      var rest := ActivitiesOn(acts[1..], day);
      var r := (if acts[0].date == day then [acts[0]] else []) + rest;
      FilterStep(acts, day, rest, r);
      r
  }

  /** One step of the day filter: what holds of the tail's result carries
      over to the whole list. */
  lemma FilterStep(acts: seq<Activity>, day: string, rest: seq<Activity>, r: seq<Activity>)
    requires |acts| > 0
    requires forall i :: 0 <= i < |rest| ==> rest[i].date == day && rest[i] in acts[1..]
    requires forall i :: 1 <= i < |acts| && acts[i].date == day ==> acts[i] in rest
    requires multiset(rest) <= multiset(acts[1..])
    requires r == (if acts[0].date == day then [acts[0]] else []) + rest
    ensures forall i :: 0 <= i < |r| ==> r[i].date == day && r[i] in acts
    ensures forall i :: 0 <= i < |acts| && acts[i].date == day ==> acts[i] in r
    ensures multiset(r) <= multiset(acts)
  {
    assert acts == [acts[0]] + acts[1..];
    assert multiset(acts) == multiset{acts[0]} + multiset(acts[1..]);
    forall i | 0 <= i < |r|
      ensures r[i].date == day && r[i] in acts
    {
      if acts[0].date == day && i == 0 {
        assert r[i] == acts[0];
      } else {
        var k := if acts[0].date == day then i - 1 else i;
        assert r[i] == rest[k];
      }
    }
  }

  /** The filter distributes over concatenation, so the activities of a
      day keep their relative order. */
  lemma {:induction false} ActivitiesOnConcat(a: seq<Activity>, b: seq<Activity>, day: string)
    ensures ActivitiesOn(a + b, day) == ActivitiesOn(a, day) + ActivitiesOn(b, day)
  {
    if |a| == 0 {
      assert a + b == b;
    } else {
      assert (a + b)[1..] == a[1..] + b;
      ActivitiesOnConcat(a[1..], b, day);
    }
  }

  /** Puts `x` before the first element whose time is not earlier. */
  function InsertByTime(x: Activity, xs: seq<Activity>): (r: seq<Activity>)
    requires SortedByTime(xs)
    ensures SortedByTime(r)
    ensures multiset(r) == multiset(xs) + multiset{x}
  {
    if |xs| == 0 then [x]
    else if LexLe(TimeKey(x), TimeKey(xs[0])) then
      assert forall j :: 0 <= j < |xs| ==> LexLe(TimeKey(x), TimeKey(xs[j])) by {
        forall j | 0 <= j < |xs| ensures LexLe(TimeKey(x), TimeKey(xs[j])) {
          if j > 0 {
            LexLeTransitive(TimeKey(x), TimeKey(xs[0]), TimeKey(xs[j]));
          }
        }
      }
      [x] + xs
    else
      var tail := InsertByTime(x, xs[1..]);
      InsertAfterHead(x, xs, tail);
      [xs[0]] + tail
  }

  /** When `x` goes after the head, the head still comes first. */
  lemma InsertAfterHead(x: Activity, xs: seq<Activity>, tail: seq<Activity>)
    requires |xs| > 0 && SortedByTime(xs) && !LexLe(TimeKey(x), TimeKey(xs[0]))
    requires SortedByTime(tail) && multiset(tail) == multiset(xs[1..]) + multiset{x}
    ensures SortedByTime([xs[0]] + tail)
    ensures multiset([xs[0]] + tail) == multiset(xs) + multiset{x}
  {
    LexLeTotal(TimeKey(x), TimeKey(xs[0]));
    assert xs == [xs[0]] + xs[1..];
    forall j | 0 <= j < |tail| ensures LexLe(TimeKey(xs[0]), TimeKey(tail[j])) {
      assert tail[j] in multiset(tail);
      if tail[j] != x {
        assert tail[j] in multiset(xs[1..]);
        var k :| 0 <= k < |xs[1..]| && xs[1..][k] == tail[j];
        assert xs[k + 1] == tail[j];
      }
    }
    var r := [xs[0]] + tail;
    forall i, j | 0 <= i < j < |r| ensures LexLe(TimeKey(r[i]), TimeKey(r[j])) {
      if i == 0 {
        assert r[j] == tail[j - 1];
      } else {
        assert r[i] == tail[i - 1] && r[j] == tail[j - 1];
      }
    }
  }

  /** Insertion sort by time. */
  function SortByTime(xs: seq<Activity>): (r: seq<Activity>)
    ensures SortedByTime(r)
    ensures multiset(r) == multiset(xs)
  {
    if |xs| == 0 then []
    else
      assert xs == [xs[0]] + xs[1..];
      InsertByTime(xs[0], SortByTime(xs[1..]))
  }

  /** The activities listed under `day`: exactly those dated `day` (by
      string equality), each as often as stored, ordered by time. */
  function DayActivities(acts: seq<Activity>, day: string): (r: seq<Activity>)
    ensures SortedByTime(r)
    ensures multiset(r) == multiset(ActivitiesOn(acts, day))
    ensures forall i :: 0 <= i < |r| ==> r[i].date == day && r[i] in acts
    ensures forall i :: 0 <= i < |acts| && acts[i].date == day ==> acts[i] in r
  {
    var on := ActivitiesOn(acts, day);
    var r := SortByTime(on);
    forall i | 0 <= i < |r| ensures r[i].date == day && r[i] in acts {
      assert r[i] in multiset(on);
      var k :| 0 <= k < |on| && on[k] == r[i];
    }
    forall i | 0 <= i < |acts| && acts[i].date == day ensures acts[i] in r {
      assert acts[i] in multiset(r);
    }
    r
  }
}
