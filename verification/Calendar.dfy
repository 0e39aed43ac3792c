/** The UTC day bucket of a stored timestamp: `localDayBucket` and `isCalendarDate` (internal/database/database.go). */
module Calendar {
  import opened Wrappers

  // ----- The proleptic Gregorian calendar -----

  datatype Date = Date(year: int, month: int, day: int)

  predicate LeapYear(y: int) {
    y % 4 == 0 && (y % 100 != 0 || y % 400 == 0)
  }

  function YearLength(y: int): int {
    if LeapYear(y) then 366 else 365
  }

  /** Section 5.7 of RFC 3339. */
  function MonthLength(y: int, m: int): int {
    if m == 2 then (if LeapYear(y) then 29 else 28)
    else if m == 4 || m == 6 || m == 9 || m == 11 then 30
    else 31
  }

  predicate ValidDate(date: Date) {
    1 <= date.month <= 12 && 1 <= date.day <= MonthLength(date.year, date.month)
  }

  /** Days from the first of January of year 0 to that of year `y`. */
  function DaysBeforeYear(y: int): int
    decreases if y < 0 then -y else y
  {
    if y == 0 then 0
    else if y > 0 then DaysBeforeYear(y - 1) + YearLength(y - 1)
    else DaysBeforeYear(y + 1) - YearLength(y)
  }

  function DaysBeforeMonth(y: int, m: int): int
    requires 1 <= m <= 13
  {
    if m == 1 then 0 else DaysBeforeMonth(y, m - 1) + MonthLength(y, m - 1)
  }

  function DayNumber(date: Date): int
    requires ValidDate(date)
  {
    DaysBeforeYear(date.year) + DaysBeforeMonth(date.year, date.month) + date.day - 1
  }

  /** The month that day `n` of year `y` falls in, counting from month `m` and its first day. */
  function MonthOf(y: int, m: int, n: int): Date
    requires 1 <= m <= 12 && 0 <= n
    decreases 12 - m
  {
    if m == 12 || n < MonthLength(y, m) then Date(y, m, n + 1) else MonthOf(y, m + 1, n - MonthLength(y, m))
  }

  /** The date of day `n`, counting from the first of January of year `y`. */
  function DateFrom(y: int, n: int): Date
    decreases n < 0, if n < 0 then -n else n
  {
    if n < 0 then DateFrom(y - 1, n + YearLength(y - 1))
    else if n >= YearLength(y) then DateFrom(y + 1, n - YearLength(y))
    else MonthOf(y, 1, n)
  }

  function CivilDate(n: int): Date {
    DateFrom(0, n)
  }

  lemma YearStep(y: int)
    ensures DaysBeforeYear(y + 1) == DaysBeforeYear(y) + YearLength(y)
  {
  }

  lemma WholeYear(y: int)
    ensures DaysBeforeMonth(y, 13) == YearLength(y)
  {
    var feb := MonthLength(y, 2);
    assert DaysBeforeMonth(y, 2) == 31 && DaysBeforeMonth(y, 3) == 31 + feb;
    assert DaysBeforeMonth(y, 4) == 62 + feb && DaysBeforeMonth(y, 5) == 92 + feb;
    assert DaysBeforeMonth(y, 6) == 123 + feb && DaysBeforeMonth(y, 7) == 153 + feb;
    assert DaysBeforeMonth(y, 8) == 184 + feb && DaysBeforeMonth(y, 9) == 215 + feb;
    assert DaysBeforeMonth(y, 10) == 245 + feb && DaysBeforeMonth(y, 11) == 276 + feb;
    assert DaysBeforeMonth(y, 12) == 306 + feb;
  }

  lemma {:induction false} MonthFound(y: int, m: int, n: int)
    requires 1 <= m <= 12 && 0 <= n < YearLength(y) - DaysBeforeMonth(y, m)
    ensures
      var date := MonthOf(y, m, n);
      ValidDate(date) && date.year == y && m <= date.month &&
      DaysBeforeMonth(y, date.month) + date.day - 1 == DaysBeforeMonth(y, m) + n
    decreases 12 - m
  {
    WholeYear(y);
    if m < 12 && n >= MonthLength(y, m) {
      MonthFound(y, m + 1, n - MonthLength(y, m));
    }
  }

  lemma {:induction false} DateFound(y: int, n: int)
    ensures
      var date := DateFrom(y, n);
      ValidDate(date) && DayNumber(date) == DaysBeforeYear(y) + n
    decreases n < 0, if n < 0 then -n else n
  {
    if n < 0 {
      YearStep(y - 1);
      DateFound(y - 1, n + YearLength(y - 1));
    } else if n >= YearLength(y) {
      YearStep(y);
      DateFound(y + 1, n - YearLength(y));
    } else {
      MonthFound(y, 1, n);
    }
  }

  /** Every day number is the number of exactly one valid date. */
  lemma DayNumberRoundTrip(n: int)
    ensures ValidDate(CivilDate(n)) && DayNumber(CivilDate(n)) == n
  {
    DateFound(0, n);
  }

  lemma {:induction false} EarlierYear(a: int, b: int)
    requires a < b
    ensures DaysBeforeYear(a) + YearLength(a) <= DaysBeforeYear(b)
    decreases b - a
  {
    YearStep(a);
    if a + 1 < b {
      EarlierYear(a + 1, b);
    }
  }

  lemma {:induction false} EarlierMonth(y: int, a: int, b: int)
    requires 1 <= a < b <= 13
    ensures DaysBeforeMonth(y, a) + MonthLength(y, a) <= DaysBeforeMonth(y, b)
    decreases b - a
  {
    if a + 1 < b {
      EarlierMonth(y, a + 1, b);
    }
  }

  lemma DayOfYear(date: Date)
    requires ValidDate(date)
    ensures 0 <= DaysBeforeMonth(date.year, date.month) + date.day - 1 < YearLength(date.year)
  {
    WholeYear(date.year);
    EarlierMonth(date.year, date.month, 13);
    if date.month > 1 {
      EarlierMonth(date.year, 1, date.month);
    }
  }

  lemma DayNumberInjective(a: Date, b: Date)
    requires ValidDate(a) && ValidDate(b) && DayNumber(a) == DayNumber(b)
    ensures a == b
  {
    DayOfYear(a);
    DayOfYear(b);
    if a.year < b.year {
      EarlierYear(a.year, b.year);
    } else if b.year < a.year {
      EarlierYear(b.year, a.year);
    } else if a.month < b.month {
      EarlierMonth(a.year, a.month, b.month);
    } else if b.month < a.month {
      EarlierMonth(a.year, b.month, a.month);
    }
  }

  lemma CivilDateRoundTrip(date: Date)
    requires ValidDate(date)
    ensures CivilDate(DayNumber(date)) == date
  {
    DayNumberRoundTrip(DayNumber(date));
    DayNumberInjective(CivilDate(DayNumber(date)), date);
  }

  /** The calendar is the Gregorian one: thirty days everywhere but in February, the thirty-first in seven months, the
      twenty-ninth of February in leap years. */
  lemma GregorianDates(date: Date)
    ensures ValidDate(date) <==>
      && 1 <= date.month <= 12 && 1 <= date.day <= 31
      && (date.day == 31 ==> date.month in {1, 3, 5, 7, 8, 10, 12})
      && (date.day == 30 ==> date.month != 2)
      && (date.day == 29 && date.month == 2 ==>
            date.year % 400 == 0 || (date.year % 4 == 0 && date.year % 100 != 0))
  {
  }

  /** The leap days of the years from 0 to before `y`. */
  function LeapDays(y: nat): int {
    (y + 3) / 4 - (y + 99) / 100 + (y + 399) / 400
  }

  function One(holds: bool): int {
    if holds then 1 else 0
  }

  lemma LeapDaysStep(y: nat)
    ensures LeapDays(y + 1) == LeapDays(y) + One(y % 4 == 0) - One(y % 100 == 0) + One(y % 400 == 0)
  {
    assert (y + 4) / 4 == (y + 3) / 4 + One(y % 4 == 0);
    assert (y + 100) / 100 == (y + 99) / 100 + One(y % 100 == 0);
    assert (y + 400) / 400 == (y + 399) / 400 + One(y % 400 == 0);
  }

  lemma HundredIsFours(y: nat)
    ensures y % 100 == 0 ==> y % 4 == 0
  {
    if y % 100 == 0 {
      assert y == 4 * (25 * (y / 100));
    }
  }

  lemma FourHundredIsHundreds(y: nat)
    ensures y % 400 == 0 ==> y % 100 == 0
  {
    if y % 400 == 0 {
      assert y == 100 * (4 * (y / 400));
    }
  }

  lemma LeapYearIs(y: nat)
    ensures YearLength(y) == 365 + One(y % 4 == 0) - One(y % 100 == 0) + One(y % 400 == 0)
  {
    HundredIsFours(y);
    FourHundredIsHundreds(y);
  }

  /** Years have 365 days and a leap day every fourth year, but not every hundredth, but every four-hundredth. */
  lemma {:induction false} YearsBefore(y: nat)
    ensures DaysBeforeYear(y) == 365 * y + LeapDays(y)
  {
    if y > 0 {
      YearsBefore(y - 1);
      LeapDaysStep(y - 1);
      LeapYearIs(y - 1);
    }
  }

  /** The first of January 1970 is day 719528, and four hundred years have 146097 days. */
  lemma EpochDay()
    ensures DayNumber(Date(1970, 1, 1)) == 719528
    ensures DaysBeforeYear(400) == 146097
  {
    YearsBefore(1970);
    YearsBefore(400);
  }

  // ----- Digits -----

  predicate Digit(c: char) {
    '0' <= c <= '9'
  }

  predicate AllDigits(s: string) {
    forall i :: 0 <= i < |s| ==> Digit(s[i])
  }

  function Value(s: string): nat
    requires AllDigits(s)
  {
    if s == "" then 0 else 10 * Value(s[..|s| - 1]) + (s[|s| - 1] as int - '0' as int)
  }

  /** The decimal digits of `n`, padded with zeros to `width`. */
  function Padded(n: nat, width: nat): string
    decreases n, width
  {
    if n == 0 && width == 0 then ""
    else Padded(n / 10, if width == 0 then 0 else width - 1) + [(n % 10 + '0' as int) as char]
  }

  lemma {:induction false} PaddedValue(s: string)
    requires AllDigits(s)
    ensures Padded(Value(s), |s|) == s
  {
    if s == "" {
    } else {
      var init, last := s[..|s| - 1], s[|s| - 1];
      PaddedValue(init);
      assert Value(s) / 10 == Value(init) && Value(s) % 10 == last as int - '0' as int;
      assert s == init + [last];
    }
  }

  method IsASCIIDigits(value: string) returns (ok: bool)
    ensures ok <==> AllDigits(value)
  {
    for index := 0 to |value|
      invariant forall i :: 0 <= i < index ==> Digit(value[i])
    {
      if value[index] < '0' || value[index] > '9' {
        return false;
      }
    }
    ok := true;
  }

  /** String order on two-character strings. */
  predicate AtMost(a: string, b: string)
    requires |a| == 2 && |b| == 2
  {
    a[0] < b[0] || (a[0] == b[0] && a[1] <= b[1])
  }

  lemma TwoDigits(a: string, b: string)
    requires |a| == 2 && |b| == 2 && AllDigits(a) && AllDigits(b)
    ensures AtMost(a, b) <==> Value(a) <= Value(b)
    ensures Value(a) == 10 * (a[0] as int - '0' as int) + (a[1] as int - '0' as int)
  {
    assert a[..1][..0] == "" && a[..1][0] == a[0] && b[..1][..0] == "" && b[..1][0] == b[0];
    assert Value(a[..1]) == a[0] as int - '0' as int && Value(b[..1]) == b[0] as int - '0' as int;
  }

  const DAYS_IN_MONTH: seq<int> := [31, 28, 31, 30, 31, 30, 31, 31, 30, 31, 30, 31]

  method ReadNumber(digits: string) returns (n: nat)
    requires AllDigits(digits)
    ensures n == Value(digits)
  {
    n := 0;
    for index := 0 to |digits|
      invariant n == Value(digits[..index])
    {
      assert digits[..index + 1][..index] == digits[..index];
      n := n * 10 + (digits[index] as int - '0' as int);
    }
    assert digits[..|digits|] == digits;
  }

  method IsCalendarDate(year: string, month: string, day: string) returns (ok: bool)
    requires |year| == 4 && |month| == 2 && |day| == 2
    requires AllDigits(year) && AllDigits(month) && AllDigits(day)
    ensures ok <==> ValidDate(Date(Value(year), Value(month), Value(day)))
  {
    TwoDigits(month, "00");
    TwoDigits("00", month);
    TwoDigits(month, "12");
    TwoDigits("12", month);
    TwoDigits(day, "00");
    TwoDigits("00", day);
    TwoDigits(day, "31");
    TwoDigits("31", day);
    if AtMost(month, "00") || !AtMost(month, "12") || AtMost(day, "00") || !AtMost(day, "31") {
      return false;
    }
    var y := ReadNumber(year);
    var m := ReadNumber(month);
    var d := ReadNumber(day);
    if m == 2 && (y % 4 == 0 && (y % 100 != 0 || y % 400 == 0)) {
      return d <= 29;
    }
    ok := d <= DAYS_IN_MONTH[m - 1];
  }

  // ----- Timestamps -----

  /** A parsed instant, in whole seconds since the first instant of year 0; fractions never change the day. */
  type Seconds = int

  const SECONDS_PER_DAY: int := 86400

  /** time-secfrac of section 5.6 of RFC 3339, or nothing; the parser also takes a comma for the point. */
  predicate Fraction(s: string) {
    s == "" || ((s[0] == '.' || s[0] == ',') && |s| > 1 && AllDigits(s[1..]))
  }

  predicate TwoDigitField(s: string, limit: nat) {
    |s| == 2 && AllDigits(s) && Value(s) <= limit
  }

  /** Where the fraction ends and the offset begins: a final Z, or a sign five characters before a final +hh:mm. */
  function OffsetStart(s: string): int {
    if s != "" && s[|s| - 1] == 'Z' then |s| - 1 else |s| - 6
  }

  predicate OffsetShape(s: string) {
    s == "Z" ||
    (|s| == 6 && (s[0] == '+' || s[0] == '-') && TwoDigitField(s[1..3], 23) && s[3] == ':' &&
      TwoDigitField(s[4..6], 59))
  }

  function OffsetSeconds(s: string): int
    requires OffsetShape(s)
  {
    if s == "Z" then 0
    else
      var seconds := Value(s[1..3]) * 3600 + Value(s[4..6]) * 60;
      if s[0] == '-' then -seconds else seconds
  }

  /** The first nineteen characters: full-date "T" hh:mm:ss. */
  predicate DateTimeShape(s: string) {
    && |s| >= 20
    && s[4] == '-' && s[7] == '-' && s[10] == 'T' && s[13] == ':' && s[16] == ':'
    && AllDigits(s[0..4]) && AllDigits(s[5..7]) && AllDigits(s[8..10])
    && TwoDigitField(s[11..13], 23) && TwoDigitField(s[14..16], 59) && TwoDigitField(s[17..19], 59)
    && ValidDate(Date(Value(s[0..4]), Value(s[5..7]), Value(s[8..10])))
  }

  /** The date-times of section 5.6 of RFC 3339, without leap seconds and with either sign before a fraction. */
  predicate Accepted(s: string) {
    DateTimeShape(s) && 19 <= OffsetStart(s) <= |s| && Fraction(s[19..OffsetStart(s)]) &&
      OffsetShape(s[OffsetStart(s)..])
  }

  function Parse(s: string): Option<Seconds> {
    if !Accepted(s) then None
    else
      var date := Date(Value(s[0..4]), Value(s[5..7]), Value(s[8..10]));
      Some(DayNumber(date) * SECONDS_PER_DAY + Value(s[11..13]) * 3600 + Value(s[14..16]) * 60 + Value(s[17..19])
           - OffsetSeconds(s[OffsetStart(s)..]))
  }

  function FormatDate(date: Date): string
    requires ValidDate(date)
  {
    (if date.year < 0 then "-" + Padded(-date.year, 4) else Padded(date.year, 4)) +
    "-" + Padded(date.month, 2) + "-" + Padded(date.day, 2)
  }

  /** The UTC calendar day of an instant. */
  function UtcDay(t: Seconds): string {
    var day := CivilDate(t / SECONDS_PER_DAY);
    DayNumberRoundTrip(t / SECONDS_PER_DAY);
    FormatDate(day)
  }

  /** Parse, then format the day: what the fast path replaces. */
  function ParseThenFormat(s: string): Option<string> {
    var t := Parse(s);
    if t.None? then None else Some(UtcDay(t.value))
  }

  /** The guard of the fast path. It does not look at the characters between the seconds and the final Z. */
  predicate Canonical(s: string) {
    DateTimeShape(s) && s[|s| - 1] == 'Z'
  }

  method LocalDayBucket(timestamp: string) returns (day: Option<string>)
    ensures day == if Canonical(timestamp) then Some(timestamp[..10]) else ParseThenFormat(timestamp)
  {
    if |timestamp| >= 20 && timestamp[10] == 'T' && timestamp[13] == ':' && timestamp[16] == ':' &&
       timestamp[|timestamp| - 1] == 'Z' && timestamp[4] == '-' && timestamp[7] == '-' {
      var y := IsASCIIDigits(timestamp[0..4]);
      var m := IsASCIIDigits(timestamp[5..7]);
      var d := IsASCIIDigits(timestamp[8..10]);
      var hh := IsASCIIDigits(timestamp[11..13]);
      var mm := IsASCIIDigits(timestamp[14..16]);
      var ss := IsASCIIDigits(timestamp[17..19]);
      if y && m && d && hh && mm && ss {
        TwoDigits(timestamp[11..13], "23");
        TwoDigits("23", timestamp[11..13]);
        TwoDigits(timestamp[14..16], "59");
        TwoDigits("59", timestamp[14..16]);
        TwoDigits(timestamp[17..19], "59");
        if AtMost(timestamp[11..13], "23") && AtMost(timestamp[14..16], "59") && AtMost(timestamp[17..19], "59") {
          var valid := IsCalendarDate(timestamp[0..4], timestamp[5..7], timestamp[8..10]);
          if valid {
            return Some(timestamp[..10]);
          }
        }
      }
    }
    day := ParseThenFormat(timestamp);
  }

  lemma DatePrefix(s: string)
    requires DateTimeShape(s)
    ensures FormatDate(Date(Value(s[0..4]), Value(s[5..7]), Value(s[8..10]))) == s[..10]
  {
    PaddedValue(s[0..4]);
    PaddedValue(s[5..7]);
    PaddedValue(s[8..10]);
    assert s[..10] == s[0..4] + "-" + s[5..7] + "-" + s[8..10];
  }

  lemma SameDay(days: int, seconds: int)
    requires 0 <= seconds < SECONDS_PER_DAY
    ensures (days * SECONDS_PER_DAY + seconds) / SECONDS_PER_DAY == days
  {
  }

  /** On everything the parser accepts, the prefix is the day of the instant. */
  lemma FastPathRefines(s: string)
    requires Canonical(s) && Accepted(s)
    ensures ParseThenFormat(s) == Some(s[..10])
  {
    var date := Date(Value(s[0..4]), Value(s[5..7]), Value(s[8..10]));
    assert s[OffsetStart(s)..] == "Z";
    SameDay(DayNumber(date), Value(s[11..13]) * 3600 + Value(s[14..16]) * 60 + Value(s[17..19]));
    CivilDateRoundTrip(date);
    DatePrefix(s);
  }

  /** The fast path changes the result exactly when the unchecked characters are no fraction of a second. */
  lemma FastPathAgreesIff(s: string)
    requires Canonical(s)
    ensures ParseThenFormat(s) == Some(s[..10]) <==> Fraction(s[19..|s| - 1])
  {
    assert s[OffsetStart(s)..] == "Z";
    if Accepted(s) {
      FastPathRefines(s);
    }
  }

  /** For instance it buckets a timestamp with one stray character, which the parser rejects. */
  lemma FastPathAcceptsMore(s: string)
    requires Canonical(s) && |s| == 20
    ensures
      var stray := s[..19] + "xZ";
      Canonical(stray) && Parse(stray) == None && stray[..10] == s[..10]
  {
    var stray := s[..19] + "xZ";
    assert stray[0..4] == s[0..4] && stray[5..7] == s[5..7] && stray[8..10] == s[8..10];
    assert stray[11..13] == s[11..13] && stray[14..16] == s[14..16] && stray[17..19] == s[17..19];
    assert stray[19..OffsetStart(stray)] == "x";
  }

  /** A numeric offset is how far local time is ahead of UTC, so it is taken off: the same local time with a positive
      offset is an earlier instant, with a negative one a later. */
  lemma OffsetShifts(local: string, offset: string)
    requires |local| == 19 && DateTimeShape(local + "Z") && OffsetShape(offset) && |offset| == 6
    ensures Parse(local + "Z").Some? && Parse(local + offset).Some?
    ensures
      var seconds := Value(offset[1..3]) * 3600 + Value(offset[4..6]) * 60;
      Parse(local + offset).value ==
        Parse(local + "Z").value + if offset[0] == '+' then -seconds else seconds
  {
    var utc, shifted := local + "Z", local + offset;
    assert shifted[..19] == local == utc[..19];
    assert shifted[0..4] == utc[0..4] && shifted[5..7] == utc[5..7] && shifted[8..10] == utc[8..10];
    assert shifted[11..13] == utc[11..13] && shifted[14..16] == utc[14..16] && shifted[17..19] == utc[17..19];
    assert shifted[OffsetStart(shifted)..] == offset && utc[OffsetStart(utc)..] == "Z";
    assert shifted[19..OffsetStart(shifted)] == "" && utc[19..OffsetStart(utc)] == "";
  }
}
