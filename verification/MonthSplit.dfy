/** The calendar-month split of a date range, `date-utils.ts`.

    A calendar month is numbered `12 * year + (month - 1)`; a day is numbered from
    1 January of year 0, so that the difference of two day numbers is the difference of two
    UTC midnights in days. */
module MonthSplit {
  predicate IsLeap(year: nat) {
    year % 4 == 0 && (year % 100 != 0 || year % 400 == 0)
  }

  function DaysInMonth(year: nat, month: nat): (d: nat)
    requires 1 <= month <= 12
    ensures 28 <= d <= 31
  {
    if month == 2 then (if IsLeap(year) then 29 else 28)
    else if month in {4, 6, 9, 11} then 30
    else 31
  }

  function MonthLength(n: nat): (d: nat)
    ensures 28 <= d <= 31
  {
    DaysInMonth(n / 12, n % 12 + 1)
  }

  /** The day number of the first day of a month. */
  function FirstDay(n: nat): nat {
    if n == 0 then 0 else FirstDay(n - 1) + MonthLength(n - 1)
  }

  /** A UTC midnight, by its month and its day of the month. */
  datatype Date = Date(month: nat, day: nat) {
    predicate Valid() { 1 <= day <= MonthLength(month) }

    function Time(): nat
      requires day >= 1
    {
      FirstDay(month) + day - 1
    }
  }

  /** A date as it is written, `YYYY-MM-DD`. */
  datatype Written = Written(year: nat, month: nat, day: nat) {
    predicate Valid() { 1 <= month <= 12 && 1 <= day <= DaysInMonth(year, month) }
  }

  /** `Date.UTC` reads the years 0 to 99 as 1900 to 1999, and rolls a day past the end of the
      month into the next one (29 February of year 0 becomes 1 March 1900). */
  function ParseDate(w: Written): (d: Date)
    requires w.Valid()
    ensures d.Valid()
    ensures d == Date(12 * w.year + w.month - 1, w.day) <==> w.year >= 100
  {
    var n := 12 * (if w.year <= 99 then 1900 + w.year else w.year) + w.month - 1;
    if w.day <= MonthLength(n) then Date(n, w.day) else Date(n + 1, w.day - MonthLength(n))
  }

  lemma {:induction false} FirstDayIncreases(m: nat, n: nat)
    requires m <= n
    ensures FirstDay(m) + 28 * (n - m) <= FirstDay(n)
    decreases n
  {
    if m < n { FirstDayIncreases(m, n - 1); }
  }

  /** Midnights are ordered as their month and day are. */
  lemma TimeOrder(a: Date, b: Date)
    requires a.Valid() && b.Valid()
    ensures a.Time() <= b.Time() <==> a.month < b.month || (a.month == b.month && a.day <= b.day)
  {
    if a.month < b.month {
      FirstDayIncreases(a.month + 1, b.month);
    } else if b.month < a.month {
      FirstDayIncreases(b.month + 1, a.month);
    }
  }

  datatype Segment = Segment(month: nat, days: nat, monthStart: Date, monthEnd: Date)

  function TotalDays(segments: seq<Segment>): nat {
    if segments == [] then 0
    else TotalDays(segments[..|segments| - 1]) + segments[|segments| - 1].days
  }

  ghost function Interval(lo: nat, hi: nat): (s: set<nat>)
    ensures forall t: nat :: t in s <==> lo <= t <= hi
    ensures lo <= hi + 1 ==> |s| == hi + 1 - lo
    decreases hi + 1 - lo
  {
    if lo > hi then {} else {lo} + Interval(lo + 1, hi)
  }

  /** The days of a range that fall in one calendar month. */
  ghost function DaysOfMonth(start: Date, end: Date, month: nat): set<nat>
    requires start.Valid() && end.Valid()
  {
    set t | t in Interval(start.Time(), end.Time()) && FirstDay(month) <= t < FirstDay(month + 1)
  }

  /** How many they are. */
  function DaysWithin(start: Date, end: Date, month: nat): (days: nat)
    requires start.Valid() && end.Valid()
    ensures days == |DaysOfMonth(start, end, month)|
  {
    var lo := if start.Time() < FirstDay(month) then FirstDay(month) else start.Time();
    var past := if end.Time() + 1 < FirstDay(month + 1) then end.Time() + 1 else FirstDay(month + 1);
    DaysAreInterval(start, end, month);
    if lo < past then past - lo else 0
  }

  lemma DaysAreInterval(start: Date, end: Date, month: nat)
    requires start.Valid() && end.Valid()
    ensures var lo := if start.Time() < FirstDay(month) then FirstDay(month) else start.Time();
            var past := if end.Time() + 1 < FirstDay(month + 1) then end.Time() + 1 else FirstDay(month + 1);
            |DaysOfMonth(start, end, month)| == if lo < past then past - lo else 0
  {
    var lo := if start.Time() < FirstDay(month) then FirstDay(month) else start.Time();
    var past := if end.Time() + 1 < FirstDay(month + 1) then end.Time() + 1 else FirstDay(month + 1);
    if lo < past {
      assert DaysOfMonth(start, end, month) == Interval(lo, past - 1);
    } else {
      assert DaysOfMonth(start, end, month) == {};
    }
  }

  /** The segment of one month of a range: its bounds, and how many of its days are in the range. */
  ghost predicate IsSegment(start: Date, end: Date, month: nat, s: Segment)
    requires start.Valid() && end.Valid()
  {
    && s.month == month
    && s.days == |DaysOfMonth(start, end, month)|
    && 1 <= s.days <= MonthLength(month)
    && s.monthStart == Date(month, 1)
    && s.monthEnd == Date(month, MonthLength(month))
  }

  /** One segment per month, in order. */
  ghost predicate AreSegments(start: Date, end: Date, r: seq<Segment>)
    requires start.Valid() && end.Valid()
  {
    forall i :: 0 <= i < |r| ==> IsSegment(start, end, start.month + i, r[i])
  }

  lemma SegmentLength(start: Date, end: Date, n: nat, lo: nat, hi: nat)
    requires start.Valid() && end.Valid() && start.month <= n <= end.month
    requires start.Time() <= end.Time()
    requires lo == if n == start.month then start.Time() else FirstDay(n)
    requires hi == if n == end.month then end.Time() else FirstDay(n + 1) - 1
    ensures lo <= hi && DaysOfMonth(start, end, n) == Interval(lo, hi)
    ensures hi + 1 - lo <= MonthLength(n)
  {
    BoundsInMonth(start, end, n, lo, hi);
    forall t
      ensures t in DaysOfMonth(start, end, n) <==> t in Interval(lo, hi)
    {}
  }

  lemma BoundsInMonth(start: Date, end: Date, n: nat, lo: nat, hi: nat)
    requires start.Valid() && end.Valid() && start.month <= n <= end.month
    requires start.Time() <= end.Time()
    requires lo == if n == start.month then start.Time() else FirstDay(n)
    requires hi == if n == end.month then end.Time() else FirstDay(n + 1) - 1
    ensures start.Time() <= lo && hi <= end.Time() && lo <= hi
    ensures FirstDay(n) <= lo && hi < FirstDay(n + 1) == FirstDay(n) + MonthLength(n)
    ensures n != start.month ==> start.Time() < FirstDay(n)
    ensures n != end.month ==> FirstDay(n + 1) <= end.Time()
  {
    InItsMonth(start);
    InItsMonth(end);
    InItsMonth(Date(n, 1));
    StartsEarlier(start, n);
    EndsLater(end, n);
  }

  lemma StartsEarlier(start: Date, n: nat)
    requires start.Valid() && start.month <= n
    ensures start.month < n ==> start.Time() < FirstDay(n)
  {
    if start.month < n { FirstDayIncreases(start.month + 1, n); }
  }

  lemma EndsLater(end: Date, n: nat)
    requires end.Valid() && n <= end.month
    ensures n < end.month ==> FirstDay(n + 1) <= end.Time()
  {
    if n < end.month { FirstDayIncreases(n + 1, end.month); }
  }

  lemma InItsMonth(d: Date)
    requires d.Valid()
    ensures FirstDay(d.month) <= d.Time() < FirstDay(d.month + 1) == FirstDay(d.month) + MonthLength(d.month)
  {}

  lemma AppendSegment(start: Date, end: Date, r: seq<Segment>, s: Segment)
    requires start.Valid() && end.Valid() && AreSegments(start, end, r)
    requires IsSegment(start, end, start.month + |r|, s)
    ensures AreSegments(start, end, r + [s])
    ensures TotalDays(r + [s]) == TotalDays(r) + s.days
  {
    assert (r + [s])[..|r|] == r;
  }

  function NextMonth(d: Date): (r: Date)
    ensures r.Valid() && r.month == d.month + 1 && r.day == 1 && r.Time() == FirstDay(d.month + 1)
  {
    Date(d.month + 1, 1)
  }

  /** The split of a range as it is written. */
  method SplitByMonth(start: Written, end: Written) returns (result: seq<Segment>)
    requires start.Valid() && end.Valid()
    ensures IsSplit(ParseDate(start), ParseDate(end), result)
  {
    var startDate, endDate := ParseDate(start), ParseDate(end);
    result := SplitDates(startDate, endDate);
  }

  /** One segment per month that the range touches, whose days are an exact partition of it. */
  ghost predicate IsSplit(start: Date, end: Date, r: seq<Segment>)
    requires start.Valid() && end.Valid()
  {
    if end.Time() < start.Time() then r == []
    else
      && |r| == end.month - start.month + 1
      && AreSegments(start, end, r)
      && TotalDays(r) == end.Time() - start.Time() + 1
  }

  /** The split terminates, its months are consecutive, and its day counts are an exact
      partition of the range. */
  method SplitDates(startDate: Date, endDate: Date) returns (result: seq<Segment>)
    requires startDate.Valid() && endDate.Valid()
    ensures IsSplit(startDate, endDate, result)
  {
    result := [];
    if endDate.Time() < startDate.Time() {
      return;
    }
    TimeOrder(startDate, endDate);
    var cursor := startDate;
    while cursor.Time() <= endDate.Time()
      invariant cursor.Valid() && |result| == cursor.month - startDate.month
      invariant startDate.month <= cursor.month <= endDate.month + 1
      invariant cursor == startDate || (cursor.day == 1 && startDate.month < cursor.month)
      invariant AreSegments(startDate, endDate, result)
      invariant TotalDays(result) ==
                (if cursor.month <= endDate.month then cursor.Time() else endDate.Time() + 1) - startDate.Time()
      decreases endDate.month + 1 - cursor.month
    {
      TimeOrder(cursor, endDate);
      var segment := MonthSegment(startDate, endDate, cursor);
      AppendSegment(startDate, endDate, result, segment);
      result := result + [segment];
      cursor := NextMonth(cursor);
    }
    TimeOrder(cursor, endDate);
  }

  /** The body of the loop: the segment of the cursor's month. */
  method MonthSegment(startDate: Date, endDate: Date, cursor: Date) returns (s: Segment)
    requires startDate.Valid() && endDate.Valid() && startDate.Time() <= endDate.Time()
    requires cursor.Valid() && cursor.month <= endDate.month
    requires cursor == startDate || (cursor.day == 1 && startDate.month < cursor.month)
    ensures IsSegment(startDate, endDate, cursor.month, s)
    ensures s.days == (if cursor.month == endDate.month then endDate.Time() + 1 else FirstDay(cursor.month + 1)) - cursor.Time()
  {
    var lastDayOfMonth := Date(cursor.month, MonthLength(cursor.month));
    TimeOrder(endDate, lastDayOfMonth);
    TimeOrder(lastDayOfMonth, endDate);
    var segEnd := if lastDayOfMonth.Time() < endDate.Time() then lastDayOfMonth else endDate;
    var firstDayOfMonth := Date(cursor.month, 1);
    TimeOrder(firstDayOfMonth, startDate);
    TimeOrder(startDate, firstDayOfMonth);
    var segStart := if firstDayOfMonth.Time() > startDate.Time() then firstDayOfMonth else startDate;
    SegmentLength(startDate, endDate, cursor.month, segStart.Time(), segEnd.Time());
    s := Segment(cursor.month, segEnd.Time() - segStart.Time() + 1, firstDayOfMonth, lastDayOfMonth);
  }

  /** No month occurs twice. */
  lemma MonthsAreDistinct(start: Date, end: Date, r: seq<Segment>, i: nat, j: nat)
    requires start.Valid() && end.Valid() && AreSegments(start, end, r)
    requires i < j < |r|
    ensures r[i].month < r[j].month
  {
    assert IsSegment(start, end, start.month + i, r[i]);
    assert IsSegment(start, end, start.month + j, r[j]);
  }

  /** The length of the first `i` months of a year. */
  function LengthOfMonths(year: nat, i: nat): nat
    requires i <= 12
  {
    if i == 0 then 0 else LengthOfMonths(year, i - 1) + DaysInMonth(year, i)
  }

  lemma {:induction false} FirstDayInYear(year: nat, i: nat)
    requires i <= 12
    ensures FirstDay(12 * year + i) == FirstDay(12 * year) + LengthOfMonths(year, i)
    decreases i
  {
    if i != 0 {
      FirstDayInYear(year, i - 1);
      MonthOfYear(year, i - 1);
    }
  }

  lemma MonthOfYear(year: nat, i: nat)
    requires i < 12
    ensures MonthLength(12 * year + i) == DaysInMonth(year, i + 1)
  {
    assert (12 * year + i) / 12 == year && (12 * year + i) % 12 == i;
  }

  /** Across a year end: the twelve months of a year are as long as the year. */
  lemma YearLength(year: nat)
    ensures FirstDay(12 * (year + 1)) == FirstDay(12 * year) + if IsLeap(year) then 366 else 365
  {
    FirstDayInYear(year, 12);
    var feb := DaysInMonth(year, 2);
    assert LengthOfMonths(year, 1) == 31 && LengthOfMonths(year, 2) == 31 + feb;
    assert LengthOfMonths(year, 3) == 62 + feb && LengthOfMonths(year, 4) == 92 + feb;
    assert LengthOfMonths(year, 5) == 123 + feb && LengthOfMonths(year, 6) == 153 + feb;
    assert LengthOfMonths(year, 7) == 184 + feb && LengthOfMonths(year, 8) == 215 + feb;
    assert LengthOfMonths(year, 9) == 245 + feb && LengthOfMonths(year, 10) == 276 + feb;
    assert LengthOfMonths(year, 11) == 306 + feb && LengthOfMonths(year, 12) == 337 + feb;
  }
}
