/** What the buckets of the share timeline are on the calendar: UTC months, dates, and hours of a date. */
module TimelineDates {
  import opened Wrappers
  import opened Calendar
  import opened ShareTimeline

  function DateOf(t: int): Date { CivilDate(t / DAY) }
  function HourOf(t: int): int { t % DAY / HOUR }

  /** Two instants of one point: the same month of all time, the same date, or the same hour of the same date. */
  predicate Together(period: Period, s: int, t: int) {
    match period
    case AllTime => DateOf(s).year == DateOf(t).year && DateOf(s).month == DateOf(t).month
    case LastDays(_) => DateOf(s) == DateOf(t)
    case Last24Hours => DateOf(s) == DateOf(t) && HourOf(s) == HourOf(t)
  }

  function NextDate(date: Date): Date {
    if date.day < MonthLength(date.year, date.month) then date.(day := date.day + 1)
    else if date.month < 12 then Date(date.year, date.month + 1, 1)
    else Date(date.year + 1, 1, 1)
  }

  /** `t` is in the month, on the date, or in the hour after that of `s`. */
  predicate Follows(period: Period, s: int, t: int) {
    match period
    case AllTime =>
      if DateOf(s).month == 12 then DateOf(t).year == DateOf(s).year + 1 && DateOf(t).month == 1
      else DateOf(t).year == DateOf(s).year && DateOf(t).month == DateOf(s).month + 1
    case LastDays(_) => DateOf(t) == NextDate(DateOf(s))
    case Last24Hours =>
      if HourOf(s) == 23 then DateOf(t) == NextDate(DateOf(s)) && HourOf(t) == 0
      else DateOf(t) == DateOf(s) && HourOf(t) == HourOf(s) + 1
  }

  lemma HourSplit(t: int)
    ensures t / HOUR == 24 * (t / DAY) + HourOf(t) && 0 <= HourOf(t) < 24
  {
    assert t == DAY * (t / DAY) + t % DAY;
    assert DAY * (t / DAY) == HOUR * (24 * (t / DAY));
    SplitQuotient(24 * (t / DAY), t % DAY);
  }

  lemma SplitQuotient(q: int, r: int)
    ensures (HOUR * q + r) / HOUR == q + r / HOUR
  {
  }

  lemma SameDateIff(m: int, n: int)
    ensures CivilDate(m) == CivilDate(n) <==> m == n
  {
    DayNumberRoundTrip(m);
    DayNumberRoundTrip(n);
  }

  lemma NextDateIs(n: int)
    ensures CivilDate(n + 1) == NextDate(CivilDate(n))
  {
    DayNumberRoundTrip(n);
    DayNumberRoundTrip(n + 1);
    var date := CivilDate(n);
    var next := NextDate(date);
    if date.day == MonthLength(date.year, date.month) && date.month == 12 {
      WholeYear(date.year);
      assert DaysBeforeMonth(date.year, 13) == DaysBeforeMonth(date.year, 12) + MonthLength(date.year, 12);
      YearStep(date.year);
    }
    assert ValidDate(next) && DayNumber(next) == n + 1;
    DayNumberInjective(next, CivilDate(n + 1));
  }

  lemma MonthIndexSplits(t: int)
    ensures 1 <= DateOf(t).month <= 12 && MonthIndex(t) == 12 * DateOf(t).year + DateOf(t).month - 1
  {
    DayNumberRoundTrip(t / DAY);
  }

  /** Two instants are drawn in one point if and only if they belong together on the calendar. */
  lemma SameBucketIff(period: Period, s: int, t: int)
    ensures Bucket(period, s) == Bucket(period, t) <==> Together(period, s, t)
  {
    match period
    case AllTime =>
      MonthIndexSplits(s);
      MonthIndexSplits(t);
    case LastDays(_) =>
      SameDateIff(s / DAY, t / DAY);
    case Last24Hours =>
      SameDateIff(s / DAY, t / DAY);
      HourSplit(s);
      HourSplit(t);
  }

  /** The next point is the next month, date or hour: a timeline without gaps skips none. */
  lemma NextBucketIff(period: Period, s: int, t: int)
    ensures Bucket(period, t) == Bucket(period, s) + 1 <==> Follows(period, s, t)
  {
    match period
    case AllTime =>
      MonthIndexSplits(s);
      MonthIndexSplits(t);
    case LastDays(_) =>
      NextDateIs(s / DAY);
      SameDateIff(s / DAY + 1, t / DAY);
    case Last24Hours =>
      NextDateIs(s / DAY);
      SameDateIff(s / DAY + 1, t / DAY);
      SameDateIff(s / DAY, t / DAY);
      HourSplit(s);
      HourSplit(t);
  }

  /** A later bucket is a later month, date or hour. */
  lemma LaterBucketIsLater(period: Period, s: int, t: int)
    ensures Bucket(period, s) < Bucket(period, t) ==> s < t
  {
    if period.AllTime? && t <= s {
      MonthsAdvance(t, s);
    }
  }

  // ----- The window -----

  /** The window is the last 24 hours, the last so many dates up to and including today, or everything up to and
      including today. */
  lemma InWindowIff(period: Period, now: int, t: int)
    ensures InWindow(period, now, t) <==>
      match period
      case Last24Hours => now - DAY <= t < now
      case LastDays(days) => now / DAY - days < t / DAY <= now / DAY
      case AllTime => t / DAY <= now / DAY
  {
    var today := now / DAY;
    match period
    case Last24Hours =>
    case LastDays(days) =>
      assert today * DAY - (days - 1) * DAY == (today - (days - 1)) * DAY;
      DayBounds(t, today - (days - 1));
      DayBounds(t, today + 1);
    case AllTime =>
      DayBounds(t, today + 1);
  }

  lemma DayBounds(t: int, day: int)
    ensures day * DAY <= t <==> day <= t / DAY
  {
  }

  /** The last point is that of the present moment; a period of days has as many points, the last 24 hours touch 25. */
  lemma WindowSpan(period: Period, now: int, earliest: int)
    ensures LastBucket(period, now) == Bucket(period, now) + 1
    ensures period.LastDays? ==> LastBucket(period, now) - FirstBucket(period, now, earliest) == period.days
    ensures period.Last24Hours? ==> LastBucket(period, now) - FirstBucket(period, now, earliest) == 25
  {
    var today := now / DAY;
    match period
    case Last24Hours =>
      HourSplit(now);
      HourSplit(now - DAY);
    case LastDays(days) =>
      assert today * DAY - (days - 1) * DAY == (today - (days - 1)) * DAY;
      assert today * DAY + DAY == (today + 1) * DAY;
    case AllTime =>
      assert (today * DAY + DAY - 1) / DAY == today;
  }

  // ----- The points -----

  function TokensTogether(period: Period, rows: seq<Row>, t: int): int {
    if rows == [] then 0
    else
      var row := rows[|rows| - 1];
      TokensTogether(period, rows[..|rows| - 1], t) + (if Together(period, row.instant, t) then Known(row) else 0)
  }

  function UnknownTogether(period: Period, rows: seq<Row>, t: int): nat {
    if rows == [] then 0
    else
      var row := rows[|rows| - 1];
      UnknownTogether(period, rows[..|rows| - 1], t) +
        (if Together(period, row.instant, t) && row.tokens.None? then 1 else 0)
  }

  /** The rows of the groups that share a series. */
  function SlotRows(rows: seq<Row>, breakdown: seq<Series>, slot: nat): seq<Row> {
    if rows == [] then []
    else
      var row := rows[|rows| - 1];
      SlotRows(rows[..|rows| - 1], breakdown, slot) +
        (if Min(PositionOf(breakdown, row.name), VISIBLE_SERIES) == slot then [row] else [])
  }

  lemma TokensAppended(period: Period, rows: seq<Row>, row: Row, t: int)
    ensures TokensTogether(period, rows + [row], t) ==
      TokensTogether(period, rows, t) + if Together(period, row.instant, t) then Known(row) else 0
  {
    assert (rows + [row])[..|rows|] == rows;
  }

  /** The point of an instant holds the known tokens of the rows that belong together with it, and counts the ones
      without a total. */
  lemma {:induction false} PointHolds(period: Period, rows: seq<Row>, breakdown: seq<Series>, t: int)
    requires Drawable(breakdown, rows)
    ensures
      var p := PointAt(period, rows, breakdown, Bucket(period, t));
      p.tokens == TokensTogether(period, rows, t) && p.unknownEvents == UnknownTogether(period, rows, t)
  {
    if rows != [] {
      PointHolds(period, rows[..|rows| - 1], breakdown, t);
      SameBucketIff(period, rows[|rows| - 1].instant, t);
    }
  }

  lemma ValueStep(period: Period, init: seq<Row>, row: Row, breakdown: seq<Series>, t: int, slot: nat)
    requires Drawable(breakdown, init) && Drawable(breakdown, init + [row]) && slot < SeriesCount(breakdown)
    ensures PointAt(period, init + [row], breakdown, Bucket(period, t)).values[slot] ==
      PointAt(period, init, breakdown, Bucket(period, t)).values[slot] +
      if Together(period, row.instant, t) && Slot(breakdown, row.name) == slot then Known(row) else 0
  {
    assert (init + [row])[..|init|] == init;
    SameBucketIff(period, row.instant, t);
  }

  /** Series by series it holds those of the groups of the series. */
  lemma {:induction false} ValuesHold(period: Period, rows: seq<Row>, breakdown: seq<Series>, t: int, slot: nat)
    requires Drawable(breakdown, rows) && slot < SeriesCount(breakdown)
    ensures PointAt(period, rows, breakdown, Bucket(period, t)).values[slot] ==
      TokensTogether(period, SlotRows(rows, breakdown, slot), t)
  {
    if rows != [] {
      var init, row := rows[..|rows| - 1], rows[|rows| - 1];
      assert rows == init + [row];
      ValuesHold(period, init, breakdown, t, slot);
      ValueStep(period, init, row, breakdown, t, slot);
      SlotStep(period, init, row, breakdown, t, slot);
    }
  }

  lemma SlotStep(period: Period, init: seq<Row>, row: Row, breakdown: seq<Series>, t: int, slot: nat)
    ensures TokensTogether(period, SlotRows(init + [row], breakdown, slot), t) ==
      TokensTogether(period, SlotRows(init, breakdown, slot), t) +
      if Together(period, row.instant, t) && Slot(breakdown, row.name) == slot then Known(row) else 0
  {
    var before := SlotRows(init, breakdown, slot);
    assert (init + [row])[..|init|] == init;
    TokensAppended(period, before, row, t);
    assert SlotRows(init + [row], breakdown, slot) ==
      if Min(PositionOf(breakdown, row.name), VISIBLE_SERIES) == slot then before + [row] else before;
  }
}
