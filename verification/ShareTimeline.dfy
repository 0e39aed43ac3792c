/** The share timeline of the analytics page in UTC: `analyticsShareTimeline`, `fillAnalyticsSharePoints` and
    `fillAnalyticsPoints` (internal/database/database.go). Ratios and labels are not modelled. */
module ShareTimeline {
  import opened Wrappers
  import opened Calendar

  datatype Name = Name(text: string)

  /** One stored event inside the window: its instant in seconds, its group, and its total if known. */
  datatype Row = Row(instant: int, name: Name, tokens: Option<int>)

  datatype Series = Series(name: Name, tokens: int)

  datatype Point = Point(bucket: int, tokens: int, unknownEvents: nat, values: seq<int>)

  datatype Period = Last24Hours | LastDays(days: nat) | AllTime

  const VISIBLE_SERIES: nat := 5
  const HOUR: int := 3600
  const DAY: int := 86400

  // ----- Windows and buckets -----

  function WindowEnd(period: Period, now: int): int {
    if period == Last24Hours then now else now / DAY * DAY + DAY
  }

  function WindowStart(period: Period, now: int): Option<int> {
    match period
    case Last24Hours => Some(now - DAY)
    case LastDays(days) => Some(now / DAY * DAY - (days - 1) * DAY)
    case AllTime => None
  }

  predicate InWindow(period: Period, now: int, t: int) {
    (WindowStart(period, now).Some? ==> WindowStart(period, now).value <= t) && t < WindowEnd(period, now)
  }

  function MonthIndex(t: int): int {
    var date := CivilDate(t / DAY);
    date.year * 12 + date.month - 1
  }

  function Bucket(period: Period, t: int): int {
    match period
    case Last24Hours => t / HOUR
    case LastDays(_) => t / DAY
    case AllTime => MonthIndex(t)
  }

  /** The first filled bucket; for all time it is the earliest one that holds a row. */
  function FirstBucket(period: Period, now: int, earliest: int): int {
    match period
    case Last24Hours => (now - DAY) / HOUR
    case LastDays(days) => (now / DAY * DAY - (days - 1) * DAY) / DAY
    case AllTime => earliest
  }

  /** One past the last filled bucket. */
  function LastBucket(period: Period, now: int): int {
    match period
    case Last24Hours => now / HOUR + 1
    case LastDays(_) => WindowEnd(period, now) / DAY
    case AllTime => MonthIndex(WindowEnd(period, now) - 1) + 1
  }

  lemma MonthsAdvance(a: int, b: int)
    requires a <= b
    ensures MonthIndex(a) <= MonthIndex(b)
  {
    var m, n := a / DAY, b / DAY;
    DayNumberRoundTrip(m);
    DayNumberRoundTrip(n);
    var x, y := CivilDate(m), CivilDate(n);
    DayOfYear(x);
    DayOfYear(y);
    if y.year < x.year {
      EarlierYear(y.year, x.year);
    } else if y.year == x.year && y.month < x.month {
      EarlierMonth(y.year, y.month, x.month);
    }
  }

  lemma WindowIsFilled(period: Period, now: int, earliest: int, t: int)
    requires InWindow(period, now, t) && earliest <= Bucket(period, t)
    ensures FirstBucket(period, now, earliest) <= Bucket(period, t) < LastBucket(period, now)
  {
    match period
    case Last24Hours =>
    case LastDays(days) =>
      var today := now / DAY;
      assert (today * DAY - (days - 1) * DAY) == (today - (days - 1)) * DAY;
    case AllTime =>
      MonthsAdvance(t, WindowEnd(period, now) - 1);
  }

  // ----- Groups -----

  function PositionOf(breakdown: seq<Series>, name: Name): (i: nat)
    ensures i <= |breakdown|
    ensures i < |breakdown| ==> breakdown[i].name == name
    ensures i == |breakdown| ==> forall k :: 0 <= k < |breakdown| ==> breakdown[k].name != name
  {
    if breakdown == [] then 0
    else if breakdown[0].name == name then 0
    else PositionOf(breakdown[1..], name) + 1
  }

  function TokensNamed(rows: seq<Row>, name: Name): int {
    if rows == [] then 0
    else
      var row := rows[|rows| - 1];
      TokensNamed(rows[..|rows| - 1], name) + (if row.name == name then Known(row) else 0)
  }

  function Known(row: Row): int {
    if row.tokens.Some? then row.tokens.value else 0
  }

  function TotalTokens(rows: seq<Row>): int {
    if rows == [] then 0 else TotalTokens(rows[..|rows| - 1]) + Known(rows[|rows| - 1])
  }

  /** What GROUP BY returns for the window: one entry per group, with the sum of its known totals. */
  predicate IsBreakdown(breakdown: seq<Series>, rows: seq<Row>) {
    && (forall i, j :: 0 <= i < j < |breakdown| ==> breakdown[i].name != breakdown[j].name)
    && (forall i :: 0 <= i < |rows| ==> PositionOf(breakdown, rows[i].name) < |breakdown|)
    && (forall i :: 0 <= i < |breakdown| ==> breakdown[i].tokens == TokensNamed(rows, breakdown[i].name))
    && (rows == [] ==> breakdown == [])
  }

  // ----- Series -----

  function SeriesCount(breakdown: seq<Series>): nat {
    Min(|breakdown|, VISIBLE_SERIES + 1)
  }

  /** The series a group is drawn in: its own, or the last one, "Other". */
  function Slot(breakdown: seq<Series>, name: Name): nat {
    Min(PositionOf(breakdown, name), VISIBLE_SERIES)
  }

  function SumSeries(series: seq<Series>): int {
    if series == [] then 0 else series[0].tokens + SumSeries(series[1..])
  }

  function SumValues(values: seq<int>): int {
    if values == [] then 0 else values[0] + SumValues(values[1..])
  }

  function SlotTokens(rows: seq<Row>, breakdown: seq<Series>, slot: nat): int {
    if rows == [] then 0
    else
      var row := rows[|rows| - 1];
      SlotTokens(rows[..|rows| - 1], breakdown, slot) + (if Slot(breakdown, row.name) == slot then Known(row) else 0)
  }

  // ----- Points -----

  function ZeroPoint(bucket: int, width: nat): Point {
    Point(bucket, 0, 0, seq(width, _ => 0))
  }

  function AddRow(p: Point, row: Row, slot: nat): Point
    requires slot < |p.values|
  {
    if row.tokens.None? then p.(unknownEvents := p.unknownEvents + 1)
    else p.(tokens := p.tokens + row.tokens.value, values := p.values[slot := p.values[slot] + row.tokens.value])
  }

  predicate Drawable(breakdown: seq<Series>, rows: seq<Row>) {
    forall i :: 0 <= i < |rows| ==> PositionOf(breakdown, rows[i].name) < |breakdown|
  }

  /** The point of one bucket after the given rows. */
  function PointAt(period: Period, rows: seq<Row>, breakdown: seq<Series>, bucket: int): (p: Point)
    requires Drawable(breakdown, rows)
    ensures p.bucket == bucket && |p.values| == SeriesCount(breakdown)
  {
    if rows == [] then ZeroPoint(bucket, SeriesCount(breakdown))
    else
      var init, row := rows[..|rows| - 1], rows[|rows| - 1];
      var p := PointAt(period, init, breakdown, bucket);
      if Bucket(period, row.instant) == bucket then AddRow(p, row, Slot(breakdown, row.name)) else p
  }

  method BuildSeries(breakdown: seq<Series>) returns (series: seq<Series>, selected: map<Name, nat>)
    requires forall i, j :: 0 <= i < j < |breakdown| ==> breakdown[i].name != breakdown[j].name
    ensures |series| == SeriesCount(breakdown)
    ensures forall i :: 0 <= i < |series| && i < VISIBLE_SERIES ==> series[i] == breakdown[i]
    ensures |breakdown| > VISIBLE_SERIES ==>
      series[VISIBLE_SERIES].tokens == SumSeries(breakdown[VISIBLE_SERIES..])
    ensures Selects(selected, breakdown)
  {
    series, selected := [], map[];
    for i := 0 to |breakdown|
      invariant |series| == Min(i, VISIBLE_SERIES)
      invariant forall k :: 0 <= k < |series| ==> series[k] == breakdown[k]
      invariant forall k :: 0 <= k < |series| ==> breakdown[k].name in selected && selected[breakdown[k].name] == k
      invariant forall name :: name in selected ==> selected[name] < |series| && breakdown[selected[name]].name == name
    {
      if |series| >= VISIBLE_SERIES {
        break;
      }
      selected := selected[breakdown[i].name := |series|];
      series := series + [breakdown[i]];
    }
    forall name ensures name in selected <==> PositionOf(breakdown, name) < Min(|breakdown|, VISIBLE_SERIES) {
    }
    if |breakdown| > VISIBLE_SERIES {
      var tokens := 0;
      for i := VISIBLE_SERIES to |breakdown|
        invariant tokens + SumSeries(breakdown[i..]) == SumSeries(breakdown[VISIBLE_SERIES..])
      {
        assert breakdown[i..][1..] == breakdown[i + 1..];
        tokens := tokens + breakdown[i].tokens;
      }
      series := series + [Series(Name("Other"), tokens)];
    }
  }

  ghost predicate Selects(selected: map<Name, nat>, breakdown: seq<Series>) {
    && (forall name :: name in selected <==> PositionOf(breakdown, name) < Min(|breakdown|, VISIBLE_SERIES))
    && (forall name :: name in selected ==> selected[name] == PositionOf(breakdown, name))
  }

  /** The body of the row loop for one row. */
  method AddToPoint(point: Point, row: Row, breakdown: seq<Series>, selected: map<Name, nat>, width: nat)
    returns (added: Point)
    requires |point.values| == width == SeriesCount(breakdown) && PositionOf(breakdown, row.name) < |breakdown|
    requires Selects(selected, breakdown)
    ensures added == AddRow(point, row, Slot(breakdown, row.name))
  {
    if row.tokens.None? {
      return point.(unknownEvents := point.unknownEvents + 1);
    }
    added := point.(tokens := point.tokens + row.tokens.value);
    var index, ok := 0, row.name in selected;
    if ok {
      index := selected[row.name];
    }
    if !ok && width > VISIBLE_SERIES {
      index, ok := width - 1, true;
    }
    if ok {
      added := added.(values := added.values[index := added.values[index] + row.tokens.value]);
    }
  }

  function BucketsOf(period: Period, rows: seq<Row>): set<int> {
    set i | 0 <= i < |rows| :: Bucket(period, rows[i].instant)
  }

  /** The map of points after some rows. */
  ghost predicate Collected(byDate: map<int, Point>, period: Period, rows: seq<Row>, breakdown: seq<Series>)
    requires Drawable(breakdown, rows)
  {
    && byDate.Keys == BucketsOf(period, rows)
    && forall b ::
      if b in byDate then byDate[b] == PointAt(period, rows, breakdown, b)
      else PointAt(period, rows, breakdown, b) == ZeroPoint(b, SeriesCount(breakdown))
  }

  lemma OneMoreBucket(period: Period, rows: seq<Row>, row: Row)
    ensures BucketsOf(period, rows + [row]) == BucketsOf(period, rows) + {Bucket(period, row.instant)}
  {
    var more := rows + [row];
    assert more[|rows|] == row && forall i :: 0 <= i < |rows| ==> more[i] == rows[i];
    forall b | b in BucketsOf(period, rows) ensures b in BucketsOf(period, more) {
      var i :| 0 <= i < |rows| && b == Bucket(period, rows[i].instant);
      assert b == Bucket(period, more[i].instant);
    }
  }

  lemma OneMoreRow(
    byDate: map<int, Point>, period: Period, rows: seq<Row>, breakdown: seq<Series>, row: Row, point: Point)
    requires Drawable(breakdown, rows + [row]) && Drawable(breakdown, rows)
    requires PositionOf(breakdown, row.name) < |breakdown|
    requires Collected(byDate, period, rows, breakdown)
    requires point ==
      AddRow(PointAt(period, rows, breakdown, Bucket(period, row.instant)), row, Slot(breakdown, row.name))
    ensures Collected(byDate[Bucket(period, row.instant) := point], period, rows + [row], breakdown)
  {
    assert (rows + [row])[..|rows|] == rows;
    OneMoreBucket(period, rows, row);
  }

  method CollectPoints(period: Period, rows: seq<Row>, breakdown: seq<Series>, selected: map<Name, nat>, width: nat)
    returns (byDate: map<int, Point>)
    requires Drawable(breakdown, rows) && width == SeriesCount(breakdown) && Selects(selected, breakdown)
    ensures Collected(byDate, period, rows, breakdown)
  {
    byDate := map[];
    for i := 0 to |rows|
      invariant Collected(byDate, period, rows[..i], breakdown)
    {
      var row := rows[i];
      var bucket := Bucket(period, row.instant);
      var point := if bucket in byDate then byDate[bucket] else ZeroPoint(bucket, width);
      var added := AddToPoint(point, row, breakdown, selected, width);
      OneMoreRow(byDate, period, rows[..i], breakdown, row, added);
      assert rows[..i] + [row] == rows[..i + 1];
      byDate := byDate[bucket := added];
    }
    assert rows[..|rows|] == rows;
  }

  /** One point for every bucket of the range; buckets without rows get a zero point. */
  method FillPoints(byDate: map<int, Point>, first: int, last: int, width: nat) returns (points: seq<Point>)
    ensures |points| == Max(0, last - first)
    ensures forall i :: 0 <= i < |points| ==>
      points[i] == if first + i in byDate then byDate[first + i] else ZeroPoint(first + i, width)
  {
    points := [];
    var cursor := first;
    while cursor < last
      invariant first <= cursor <= Max(first, last) && |points| == cursor - first
      invariant forall i :: 0 <= i < |points| ==>
        points[i] == if first + i in byDate then byDate[first + i] else ZeroPoint(first + i, width)
    {
      points := points + [if cursor in byDate then byDate[cursor] else ZeroPoint(cursor, width)];
      cursor := cursor + 1;
    }
  }

  method Pick<T>(elements: set<T>) returns (element: T)
    requires elements != {}
    ensures element in elements
  {
    element :| element in elements;
  }

  /** The first date of the sorted points. */
  method Earliest(byDate: map<int, Point>) returns (earliest: int)
    requires byDate.Keys != {}
    ensures earliest in byDate && forall b :: b in byDate ==> earliest <= b
  {
    earliest := Pick(byDate.Keys);
    var dates := byDate.Keys - {earliest};
    while dates != {}
      invariant dates <= byDate.Keys && earliest in byDate
      invariant forall b :: b in byDate && b !in dates ==> earliest <= b
      decreases |dates|
    {
      var date := Pick(dates);
      dates := dates - {date};
      if date < earliest {
        earliest := date;
      }
    }
  }

  /** Points of the consecutive buckets from `first` on, each as the rows make it. */
  ghost predicate Timeline(points: seq<Point>, period: Period, rows: seq<Row>, breakdown: seq<Series>, first: int)
    requires Drawable(breakdown, rows)
  {
    forall i :: 0 <= i < |points| ==> points[i] == PointAt(period, rows, breakdown, first + i)
  }

  function FirstOf(points: seq<Point>): int {
    if points == [] then 0 else points[0].bucket
  }

  /** The points span the window: from its start, or for all time from the earliest row, to its end. */
  ghost predicate Spans(points: seq<Point>, period: Period, now: int, rows: seq<Row>) {
    if rows == [] then points == []
    else
      && points != [] && FirstOf(points) + |points| == LastBucket(period, now)
      && (if period.AllTime? then FirstOf(points) in BucketsOf(period, rows)
          else FirstOf(points) == Bucket(period, WindowStart(period, now).value))
      && forall i :: 0 <= i < |rows| ==> FirstOf(points) <= Bucket(period, rows[i].instant) < FirstOf(points) + |points|
  }

  /** The series without their tokens, and every filled bucket. */
  method BuildPoints(
    period: Period, now: int, rows: seq<Row>, breakdown: seq<Series>, selected: map<Name, nat>, width: nat)
    returns (points: seq<Point>)
    requires Drawable(breakdown, rows) && width == SeriesCount(breakdown) && Selects(selected, breakdown)
    requires forall i :: 0 <= i < |rows| ==> InWindow(period, now, rows[i].instant)
    ensures Timeline(points, period, rows, breakdown, FirstOf(points)) && Spans(points, period, now, rows)
  {
    var byDate := CollectPoints(period, rows, breakdown, selected, width);
    NoRowsNoBuckets(period, rows);
    if byDate.Keys == {} {
      return [];
    }
    var earliest := Earliest(byDate);
    points := FillPoints(byDate, FirstBucket(period, now, earliest), LastBucket(period, now), width);
    FilledIsTimeline(byDate, points, period, rows, breakdown, FirstBucket(period, now, earliest));
    FilledSpans(points, period, now, rows, earliest);
  }

  lemma FilledSpans(points: seq<Point>, period: Period, now: int, rows: seq<Row>, earliest: int)
    requires forall i :: 0 <= i < |rows| ==> InWindow(period, now, rows[i].instant)
    requires earliest in BucketsOf(period, rows) && forall b :: b in BucketsOf(period, rows) ==> earliest <= b
    requires |points| == Max(0, LastBucket(period, now) - FirstBucket(period, now, earliest))
    requires points != [] ==> points[0].bucket == FirstBucket(period, now, earliest)
    ensures Spans(points, period, now, rows)
  {
    RowsInRange(period, now, rows, earliest);
    var i :| 0 <= i < |rows| && earliest == Bucket(period, rows[i].instant);
  }

  lemma FilledIsTimeline(
    byDate: map<int, Point>, points: seq<Point>, period: Period, rows: seq<Row>, breakdown: seq<Series>, first: int)
    requires Drawable(breakdown, rows) && Collected(byDate, period, rows, breakdown)
    requires forall i :: 0 <= i < |points| ==>
      points[i] == if first + i in byDate then byDate[first + i] else ZeroPoint(first + i, SeriesCount(breakdown))
    ensures Timeline(points, period, rows, breakdown, first)
  {
  }

  lemma NoRowsNoBuckets(period: Period, rows: seq<Row>)
    ensures BucketsOf(period, rows) == {} ==> rows == []
  {
    assert rows != [] ==> Bucket(period, rows[0].instant) in BucketsOf(period, rows);
  }

  lemma RowsInRange(period: Period, now: int, rows: seq<Row>, earliest: int)
    requires forall i :: 0 <= i < |rows| ==> InWindow(period, now, rows[i].instant)
    requires forall b :: b in BucketsOf(period, rows) ==> earliest <= b
    ensures forall i :: 0 <= i < |rows| ==>
      FirstBucket(period, now, earliest) <= Bucket(period, rows[i].instant) < LastBucket(period, now)
  {
    forall i | 0 <= i < |rows|
      ensures FirstBucket(period, now, earliest) <= Bucket(period, rows[i].instant) < LastBucket(period, now)
    {
      assert Bucket(period, rows[i].instant) in BucketsOf(period, rows);
      WindowIsFilled(period, now, earliest, rows[i].instant);
    }
  }

  method AnalyticsShareTimeline(period: Period, now: int, rows: seq<Row>, breakdown: seq<Series>)
    returns (series: seq<Series>, points: seq<Point>)
    requires IsBreakdown(breakdown, rows)
    requires forall i :: 0 <= i < |rows| ==> InWindow(period, now, rows[i].instant)
    ensures |series| == SeriesCount(breakdown)
    ensures forall i :: 0 <= i < |series| ==> series[i].tokens == SlotTokens(rows, breakdown, i)
    ensures Timeline(points, period, rows, breakdown, FirstOf(points)) && Spans(points, period, now, rows)
  {
    var selected;
    series, selected := BuildSeries(breakdown);
    SeriesAreSlots(rows, breakdown, series);
    if |series| == 0 {
      assert rows != [] ==> PositionOf(breakdown, rows[0].name) < |breakdown|;
      return series, [];
    }
    points := BuildPoints(period, now, rows, breakdown, selected, |series|);
  }

  // ----- Conservation -----

  /** The groups from `from` on, summed over their entries or over their rows. */
  function TokensFrom(rows: seq<Row>, breakdown: seq<Series>, from: nat): int {
    if rows == [] then 0
    else
      var row := rows[|rows| - 1];
      TokensFrom(rows[..|rows| - 1], breakdown, from) +
        (if PositionOf(breakdown, row.name) >= from then Known(row) else 0)
  }

  function NamedFrom(rows: seq<Row>, breakdown: seq<Series>, from: nat): int
    requires from <= |breakdown|
    decreases |breakdown| - from
  {
    if from == |breakdown| then 0 else TokensNamed(rows, breakdown[from].name) + NamedFrom(rows, breakdown, from + 1)
  }

  lemma {:induction false} PositionUnique(breakdown: seq<Series>, i: nat)
    requires i < |breakdown| && forall a, b :: 0 <= a < b < |breakdown| ==> breakdown[a].name != breakdown[b].name
    ensures PositionOf(breakdown, breakdown[i].name) == i
  {
    if i > 0 {
      PositionUnique(breakdown[1..], i - 1);
    }
  }

  lemma {:induction false} OneRowNamedFrom(rows: seq<Row>, row: Row, breakdown: seq<Series>, from: nat)
    requires forall a, b :: 0 <= a < b < |breakdown| ==> breakdown[a].name != breakdown[b].name
    requires from <= |breakdown| && PositionOf(breakdown, row.name) < |breakdown|
    ensures NamedFrom(rows + [row], breakdown, from) ==
      NamedFrom(rows, breakdown, from) + if PositionOf(breakdown, row.name) >= from then Known(row) else 0
    decreases |breakdown| - from
  {
    assert (rows + [row])[..|rows|] == rows;
    if from < |breakdown| {
      PositionUnique(breakdown, from);
      OneRowNamedFrom(rows, row, breakdown, from + 1);
    }
  }

  lemma {:induction false} NamedIsTokens(rows: seq<Row>, breakdown: seq<Series>, from: nat)
    requires forall a, b :: 0 <= a < b < |breakdown| ==> breakdown[a].name != breakdown[b].name
    requires from <= |breakdown| && Drawable(breakdown, rows)
    ensures NamedFrom(rows, breakdown, from) == TokensFrom(rows, breakdown, from)
  {
    if rows == [] {
      NothingNamed(breakdown, from);
    } else {
      NamedIsTokens(rows[..|rows| - 1], breakdown, from);
      OneRowNamedFrom(rows[..|rows| - 1], rows[|rows| - 1], breakdown, from);
      assert rows[..|rows| - 1] + [rows[|rows| - 1]] == rows;
    }
  }

  lemma {:induction false} NothingNamed(breakdown: seq<Series>, from: nat)
    requires from <= |breakdown|
    ensures NamedFrom([], breakdown, from) == 0
    decreases |breakdown| - from
  {
    if from < |breakdown| {
      NothingNamed(breakdown, from + 1);
    }
  }

  lemma {:induction false} SumIsNamed(rows: seq<Row>, breakdown: seq<Series>, from: nat)
    requires IsBreakdown(breakdown, rows) && from <= |breakdown|
    ensures SumSeries(breakdown[from..]) == NamedFrom(rows, breakdown, from)
    decreases |breakdown| - from
  {
    if from < |breakdown| {
      assert breakdown[from..][1..] == breakdown[from + 1..];
      SumIsNamed(rows, breakdown, from + 1);
    }
  }

  lemma {:induction false} SlotOfOther(rows: seq<Row>, breakdown: seq<Series>)
    ensures SlotTokens(rows, breakdown, VISIBLE_SERIES) == TokensFrom(rows, breakdown, VISIBLE_SERIES)
  {
    if rows != [] {
      SlotOfOther(rows[..|rows| - 1], breakdown);
    }
  }

  lemma {:induction false} SlotOfVisible(rows: seq<Row>, breakdown: seq<Series>, i: nat)
    requires i < |breakdown| && i < VISIBLE_SERIES
    requires forall a, b :: 0 <= a < b < |breakdown| ==> breakdown[a].name != breakdown[b].name
    ensures SlotTokens(rows, breakdown, i) == TokensNamed(rows, breakdown[i].name)
  {
    PositionUnique(breakdown, i);
    if rows != [] {
      SlotOfVisible(rows[..|rows| - 1], breakdown, i);
    }
  }

  lemma SeriesAreSlots(rows: seq<Row>, breakdown: seq<Series>, series: seq<Series>)
    requires IsBreakdown(breakdown, rows) && |series| == SeriesCount(breakdown)
    requires forall i :: 0 <= i < |series| && i < VISIBLE_SERIES ==> series[i] == breakdown[i]
    requires |breakdown| > VISIBLE_SERIES ==> series[VISIBLE_SERIES].tokens == SumSeries(breakdown[VISIBLE_SERIES..])
    ensures forall i :: 0 <= i < |series| ==> series[i].tokens == SlotTokens(rows, breakdown, i)
  {
    forall i | 0 <= i < |series| ensures series[i].tokens == SlotTokens(rows, breakdown, i) {
      if i < VISIBLE_SERIES {
        SlotOfVisible(rows, breakdown, i);
      } else {
        SumIsNamed(rows, breakdown, VISIBLE_SERIES);
        NamedIsTokens(rows, breakdown, VISIBLE_SERIES);
        SlotOfOther(rows, breakdown);
      }
    }
  }

  lemma {:induction false} SumUpdate(values: seq<int>, k: nat, d: int)
    requires k < |values|
    ensures SumValues(values[k := values[k] + d]) == SumValues(values) + d
  {
    if k > 0 {
      assert values[k := values[k] + d][1..] == values[1..][k - 1 := values[1..][k - 1] + d];
      SumUpdate(values[1..], k - 1, d);
    } else {
      assert values[0 := values[0] + d][1..] == values[1..];
    }
  }

  lemma {:induction false} SumZeros(n: nat)
    ensures SumValues(seq(n, _ => 0)) == 0
  {
    if n > 0 {
      assert seq(n, _ => 0)[1..] == seq(n - 1, _ => 0);
      SumZeros(n - 1);
    }
  }

  /** In every bucket the values of the series add up to the tokens of the bucket. */
  lemma {:induction false} ValuesAddUp(period: Period, rows: seq<Row>, breakdown: seq<Series>, bucket: int)
    requires Drawable(breakdown, rows)
    ensures
      var p := PointAt(period, rows, breakdown, bucket);
      SumValues(p.values) == p.tokens
  {
    if rows == [] {
      SumZeros(SeriesCount(breakdown));
    } else {
      var init, row := rows[..|rows| - 1], rows[|rows| - 1];
      ValuesAddUp(period, init, breakdown, bucket);
      if row.tokens.Some? {
        SumUpdate(PointAt(period, init, breakdown, bucket).values, Slot(breakdown, row.name), row.tokens.value);
      }
    }
  }

  /** A series or, for `slot` equal to the number of series, the tokens of whole points, summed over a run of
      buckets. */
  function SumOver(period: Period, rows: seq<Row>, breakdown: seq<Series>, slot: nat, first: int, count: nat): int
    requires Drawable(breakdown, rows) && slot < SeriesCount(breakdown)
  {
    if count == 0 then 0
    else SumOver(period, rows, breakdown, slot, first, count - 1) +
         PointAt(period, rows, breakdown, first + count - 1).values[slot]
  }

  lemma {:induction false} OneRowInRun(
    period: Period, rows: seq<Row>, row: Row, breakdown: seq<Series>, slot: nat, first: int, count: nat)
    requires Drawable(breakdown, rows) && Drawable(breakdown, rows + [row]) && slot < SeriesCount(breakdown)
    ensures SumOver(period, rows + [row], breakdown, slot, first, count) ==
      SumOver(period, rows, breakdown, slot, first, count) +
      (if first <= Bucket(period, row.instant) < first + count && Slot(breakdown, row.name) == slot then Known(row)
       else 0)
  {
    assert (rows + [row])[..|rows|] == rows;
    if count > 0 {
      OneRowInRun(period, rows, row, breakdown, slot, first, count - 1);
    }
  }

  /** Over a run of buckets that holds all rows, every series adds up to its total. */
  lemma {:induction false} SeriesAddUp(
    period: Period, rows: seq<Row>, breakdown: seq<Series>, slot: nat, first: int, count: nat)
    requires Drawable(breakdown, rows) && slot < SeriesCount(breakdown)
    requires forall i :: 0 <= i < |rows| ==> first <= Bucket(period, rows[i].instant) < first + count
    ensures SumOver(period, rows, breakdown, slot, first, count) == SlotTokens(rows, breakdown, slot)
  {
    if rows == [] {
      EmptyRun(period, breakdown, slot, first, count);
    } else {
      var init, row := rows[..|rows| - 1], rows[|rows| - 1];
      assert init + [row] == rows;
      SeriesAddUp(period, init, breakdown, slot, first, count);
      OneRowInRun(period, init, row, breakdown, slot, first, count);
    }
  }

  lemma {:induction false} EmptyRun(period: Period, breakdown: seq<Series>, slot: nat, first: int, count: nat)
    requires slot < SeriesCount(breakdown)
    ensures SumOver(period, [], breakdown, slot, first, count) == 0
  {
    if count > 0 {
      EmptyRun(period, breakdown, slot, first, count - 1);
    }
  }

  function SlotSum(rows: seq<Row>, breakdown: seq<Series>, n: nat): int {
    if n == 0 then 0 else SlotSum(rows, breakdown, n - 1) + SlotTokens(rows, breakdown, n - 1)
  }

  lemma {:induction false} OneRowSlotSum(rows: seq<Row>, row: Row, breakdown: seq<Series>, n: nat)
    ensures SlotSum(rows + [row], breakdown, n) ==
      SlotSum(rows, breakdown, n) + if Slot(breakdown, row.name) < n then Known(row) else 0
  {
    assert (rows + [row])[..|rows|] == rows;
    if n > 0 {
      OneRowSlotSum(rows, row, breakdown, n - 1);
    }
  }

  /** The series together hold every known token of the window. */
  lemma {:induction false} SlotsHoldEverything(rows: seq<Row>, breakdown: seq<Series>)
    requires Drawable(breakdown, rows)
    ensures SlotSum(rows, breakdown, SeriesCount(breakdown)) == TotalTokens(rows)
  {
    if rows == [] {
      NoSlots(breakdown, SeriesCount(breakdown));
    } else {
      var init, row := rows[..|rows| - 1], rows[|rows| - 1];
      assert init + [row] == rows;
      SlotsHoldEverything(init, breakdown);
      OneRowSlotSum(init, row, breakdown, SeriesCount(breakdown));
    }
  }

  lemma {:induction false} NoSlots(breakdown: seq<Series>, n: nat)
    ensures SlotSum([], breakdown, n) == 0
  {
    if n > 0 {
      NoSlots(breakdown, n - 1);
    }
  }

  lemma {:induction false} SumIsSlotSum(rows: seq<Row>, breakdown: seq<Series>, series: seq<Series>, from: nat)
    requires from <= |series| && forall i :: 0 <= i < |series| ==> series[i].tokens == SlotTokens(rows, breakdown, i)
    ensures SumSeries(series[from..]) == SlotSum(rows, breakdown, |series|) - SlotSum(rows, breakdown, from)
    decreases |series| - from
  {
    if from < |series| {
      assert series[from..][1..] == series[from + 1..];
      SumIsSlotSum(rows, breakdown, series, from + 1);
    }
  }

  function SumPoints(points: seq<Point>): int {
    if points == [] then 0 else SumPoints(points[..|points| - 1]) + points[|points| - 1].tokens
  }

  lemma {:induction false} OneRowInPoints(
    period: Period, rows: seq<Row>, row: Row, breakdown: seq<Series>, before: seq<Point>, after: seq<Point>, first: int)
    requires Drawable(breakdown, rows) && Drawable(breakdown, rows + [row]) && |before| == |after|
    requires Timeline(before, period, rows, breakdown, first) && Timeline(after, period, rows + [row], breakdown, first)
    ensures SumPoints(after) == SumPoints(before) +
      if first <= Bucket(period, row.instant) < first + |after| then Known(row) else 0
  {
    assert (rows + [row])[..|rows|] == rows;
    if before != [] {
      var n := |before| - 1;
      OneRowInPoints(period, rows, row, breakdown, before[..n], after[..n], first);
    }
  }

  lemma {:induction false} PointsAddUp(
    period: Period, rows: seq<Row>, breakdown: seq<Series>, points: seq<Point>, first: int)
    requires Drawable(breakdown, rows) && Timeline(points, period, rows, breakdown, first)
    requires forall i :: 0 <= i < |rows| ==> first <= Bucket(period, rows[i].instant) < first + |points|
    ensures SumPoints(points) == TotalTokens(rows)
    decreases |rows|
  {
    if rows == [] {
      EmptyPoints(points);
    } else {
      var init, row := rows[..|rows| - 1], rows[|rows| - 1];
      assert init + [row] == rows;
      var before := seq(|points|, i => PointAt(period, init, breakdown, first + i));
      PointsAddUp(period, init, breakdown, before, first);
      OneRowInPoints(period, init, row, breakdown, before, points, first);
    }
  }

  lemma {:induction false} EmptyPoints(points: seq<Point>)
    requires forall i :: 0 <= i < |points| ==> points[i].tokens == 0
    ensures SumPoints(points) == 0
  {
    if points != [] {
      EmptyPoints(points[..|points| - 1]);
    }
  }

  lemma SeriesConserve(rows: seq<Row>, breakdown: seq<Series>, series: seq<Series>)
    requires IsBreakdown(breakdown, rows) && |series| == SeriesCount(breakdown)
    requires forall i :: 0 <= i < |series| ==> series[i].tokens == SlotTokens(rows, breakdown, i)
    ensures SumSeries(series) == TotalTokens(rows)
  {
    SlotsHoldEverything(rows, breakdown);
    SumIsSlotSum(rows, breakdown, series, 0);
    assert series[0..] == series;
  }

  lemma PointsConserve(period: Period, rows: seq<Row>, breakdown: seq<Series>, points: seq<Point>, first: int)
    requires Drawable(breakdown, rows) && Timeline(points, period, rows, breakdown, first)
    requires forall i :: 0 <= i < |rows| ==> first <= Bucket(period, rows[i].instant) < first + |points|
    ensures SumPoints(points) == TotalTokens(rows)
    ensures forall i :: 0 <= i < |points| ==>
      points[i].bucket == first + i && SumValues(points[i].values) == points[i].tokens
  {
    PointsAddUp(period, rows, breakdown, points, first);
    forall i | 0 <= i < |points| ensures SumValues(points[i].values) == points[i].tokens {
      ValuesAddUp(period, rows, breakdown, first + i);
    }
  }

  lemma SpansRows(points: seq<Point>, period: Period, now: int, rows: seq<Row>)
    requires Spans(points, period, now, rows)
    ensures forall i :: 0 <= i < |rows| ==>
      FirstOf(points) <= Bucket(period, rows[i].instant) < FirstOf(points) + |points|
  {
  }

  /** Everything the timeline shows is conserved: the series and the points both add up to the window total, each point
      to its own values, each series over time to its own total. */
  lemma TimelineConserves(
    period: Period, now: int, rows: seq<Row>, breakdown: seq<Series>, series: seq<Series>, points: seq<Point>)
    requires IsBreakdown(breakdown, rows) && |series| == SeriesCount(breakdown)
    requires forall i :: 0 <= i < |series| ==> series[i].tokens == SlotTokens(rows, breakdown, i)
    requires Timeline(points, period, rows, breakdown, FirstOf(points)) && Spans(points, period, now, rows)
    ensures SumSeries(series) == TotalTokens(rows)
    ensures SumPoints(points) == TotalTokens(rows)
    ensures forall i :: 0 <= i < |points| ==>
      points[i].bucket == FirstOf(points) + i && SumValues(points[i].values) == points[i].tokens
    ensures forall k :: 0 <= k < |series| ==>
      SumOver(period, rows, breakdown, k, FirstOf(points), |points|) == series[k].tokens
  {
    var first := FirstOf(points);
    SpansRows(points, period, now, rows);
    SeriesConserve(rows, breakdown, series);
    PointsConserve(period, rows, breakdown, points, first);
    forall k | 0 <= k < |series| ensures SumOver(period, rows, breakdown, k, first, |points|) == series[k].tokens {
      SeriesAddUp(period, rows, breakdown, k, first, |points|);
    }
  }
}
