/** Two calendars: the closed form of `core/src/config.rs` and the subtraction loops of
    `relay/src/apache_mock.rs`. Both invert the Gregorian day count, so they agree. */
module Calendar {

  datatype Civil = Civil(year: nat, month: nat, day: nat, hour: nat, minute: nat, second: nat)

  predicate Leap(y: int) {
    (y % 4 == 0 && y % 100 != 0) || y % 400 == 0
  }

  function YearDays(y: int): nat {
    if Leap(y) then 366 else 365
  }

  const MDAYS: seq<nat> := [31, 28, 31, 30, 31, 30, 31, 31, 30, 31, 30, 31]

  /** Days of month `m`, counted from 1. */
  function MonthDays(y: int, m: nat): nat
    requires 1 <= m <= 12
  {
    MDAYS[m - 1] + if m == 2 && Leap(y) then 1 else 0
  }

  // ---------------------------------------------------------------- the reference count

  /** Days of the proleptic Gregorian years before `y`. */
  function DaysBeforeYear(y: nat): nat {
    if y == 0 then 0 else DaysBeforeYear(y - 1) + YearDays(y - 1)
  }

  function DaysBeforeMonth(y: int, m: nat): nat
    requires 1 <= m <= 13
  {
    if m == 1 then 0 else DaysBeforeMonth(y, m - 1) + MonthDays(y, m - 1)
  }

  const EPOCH: int := 719528

  ghost predicate Valid(c: Civil) {
    && 1 <= c.month <= 12 && 1 <= c.day <= MonthDays(c.year, c.month)
    && c.hour < 24 && c.minute < 60 && c.second < 60
  }

  function DayNumber(y: nat, m: nat, d: nat): int
    requires 1 <= m <= 12
  {
    DaysBeforeYear(y) + DaysBeforeMonth(y, m) + d - 1 - EPOCH
  }

  /** Seconds since 1970-01-01T00:00:00Z. */
  function Timestamp(c: Civil): int
    requires 1 <= c.month <= 12
  {
    DayNumber(c.year, c.month, c.day) * 86400 + c.hour * 3600 + c.minute * 60 + c.second
  }

  lemma {:induction false} DaysBeforeYearClosed(y: nat)
    ensures DaysBeforeYear(y) == 365 * y + (y + 3) / 4 - (y + 99) / 100 + (y + 399) / 400
  {
    if y > 0 {
      DaysBeforeYearClosed(y - 1);
      LeapStep(y);
    }
  }

  lemma LeapStep(y: nat)
    requires y > 0
    ensures YearDays(y - 1) - 365
         == ((y + 3) / 4 - (y + 2) / 4) - ((y + 99) / 100 - (y + 98) / 100) + ((y + 399) / 400 - (y + 398) / 400)
  {
    Step4(y);
    Step100(y);
    Step400(y);
    LeapDivisors(y - 1);
  }

  lemma LeapDivisors(y: nat)
    ensures y % 400 == 0 ==> y % 100 == 0
    ensures y % 100 == 0 ==> y % 4 == 0
  {
    if y % 400 == 0 {
      assert y == 0 + 100 * (4 * (y / 400));
      Period100(0, 4 * (y / 400));
    }
    if y % 100 == 0 {
      assert y == 0 + 4 * (25 * (y / 100));
      Period4(0, 25 * (y / 100));
    }
  }

  lemma Step4(y: nat)
    requires y > 0
    ensures (y + 3) / 4 - (y + 2) / 4 == if (y - 1) % 4 == 0 then 1 else 0
  {
  }

  lemma Step100(y: nat)
    requires y > 0
    ensures (y + 99) / 100 - (y + 98) / 100 == if (y - 1) % 100 == 0 then 1 else 0
  {
  }

  lemma Step400(y: nat)
    requires y > 0
    ensures (y + 399) / 400 - (y + 398) / 400 == if (y - 1) % 400 == 0 then 1 else 0
  {
  }

  lemma EpochIs1970()
    ensures DaysBeforeYear(1970) == EPOCH
  {
    DaysBeforeYearClosed(1970);
  }

  lemma MonthsOfYear(y: int)
    ensures DaysBeforeMonth(y, 2) == 31
    ensures var l := if Leap(y) then 1 else 0;
            && DaysBeforeMonth(y, 3) == 59 + l && DaysBeforeMonth(y, 4) == 90 + l
            && DaysBeforeMonth(y, 5) == 120 + l && DaysBeforeMonth(y, 6) == 151 + l
            && DaysBeforeMonth(y, 7) == 181 + l && DaysBeforeMonth(y, 8) == 212 + l
            && DaysBeforeMonth(y, 9) == 243 + l && DaysBeforeMonth(y, 10) == 273 + l
            && DaysBeforeMonth(y, 11) == 304 + l && DaysBeforeMonth(y, 12) == 334 + l
            && DaysBeforeMonth(y, 13) == YearDays(y)
  {
    assert DaysBeforeMonth(y, 1) == 0;
    assert DaysBeforeMonth(y, 4) == DaysBeforeMonth(y, 3) + MonthDays(y, 3);
    assert DaysBeforeMonth(y, 6) == DaysBeforeMonth(y, 5) + MonthDays(y, 5);
    assert DaysBeforeMonth(y, 8) == DaysBeforeMonth(y, 7) + MonthDays(y, 7);
    assert DaysBeforeMonth(y, 10) == DaysBeforeMonth(y, 9) + MonthDays(y, 9);
    assert DaysBeforeMonth(y, 12) == DaysBeforeMonth(y, 11) + MonthDays(y, 11);
  }

  lemma {:induction false} YearsMonotone(a: nat, b: nat)
    requires a <= b
    ensures DaysBeforeYear(a) + 365 * (b - a) <= DaysBeforeYear(b)
    decreases b - a
  {
    if a < b {
      YearsMonotone(a, b - 1);
    }
  }

  lemma {:induction false} MonthsMonotone(y: int, a: nat, b: nat)
    requires 1 <= a < b <= 13
    ensures DaysBeforeMonth(y, a) + MonthDays(y, a) <= DaysBeforeMonth(y, b)
    decreases b - a
  {
    if a + 1 < b {
      MonthsMonotone(y, a, b - 1);
    }
  }

  lemma DayInYear(y: nat, m: nat, d: nat)
    requires 1 <= m <= 12 && 1 <= d <= MonthDays(y, m)
    ensures DaysBeforeMonth(y, m) + d <= YearDays(y)
  {
    MonthsMonotone(y, m, 13);
    MonthsOfYear(y);
  }

  lemma EarlierDay(y: nat, m: nat, d: nat, y': nat, m': nat, d': nat)
    requires 1 <= m <= 12 && 1 <= d <= MonthDays(y, m)
    requires 1 <= m' <= 12 && 1 <= d' <= MonthDays(y', m')
    requires y < y' || (y == y' && (m < m' || (m == m' && d < d')))
    ensures DayNumber(y, m, d) < DayNumber(y', m', d')
  {
    if y < y' {
      DayInYear(y, m, d);
      YearsMonotone(y + 1, y');
    } else if m < m' {
      MonthsMonotone(y, m, m');
    }
  }

  lemma SameClock(a: Civil, b: Civil)
    requires Valid(a) && Valid(b)
    requires a.hour * 3600 + a.minute * 60 + a.second == b.hour * 3600 + b.minute * 60 + b.second
    ensures a.hour == b.hour && a.minute == b.minute && a.second == b.second
  {
  }

  /** The day count determines the date: there is one valid civil time per timestamp. */
  lemma TimestampInjective(a: Civil, b: Civil)
    requires Valid(a) && Valid(b) && Timestamp(a) == Timestamp(b)
    ensures a == b
  {
    var da, db := DayNumber(a.year, a.month, a.day), DayNumber(b.year, b.month, b.day);
    var sa, sb := a.hour * 3600 + a.minute * 60 + a.second, b.hour * 3600 + b.minute * 60 + b.second;
    assert 0 <= sa < 86400 && 0 <= sb < 86400;
    assert da == db && sa == sb;
    SameClock(a, b);
    if a.year < b.year || (a.year == b.year && (a.month < b.month || (a.month == b.month && a.day < b.day))) {
      EarlierDay(a.year, a.month, a.day, b.year, b.month, b.day);
    } else if b.year < a.year || (a.year == b.year && (b.month < a.month || (a.month == b.month && b.day < a.day))) {
      EarlierDay(b.year, b.month, b.day, a.year, a.month, a.day);
    }
  }

  // ---------------------------------------------------------------- the loops

  /** `format_rfc7231`: subtract whole years, then whole months. The date is the one the
      timestamp counts to, and the loops stop; for every time a clock in milliseconds of
      64 bits can show, the year fits the 32-bit variable that holds it. */
  method FormatRfc7231(timestamp: nat) returns (c: Civil, weekday: nat)
    ensures Valid(c) && Timestamp(c) == timestamp
    ensures weekday == (c.day - 1 + 4) % 7
    ensures timestamp < 0x1_0000_0000_0000_0000 / 1000 ==> c.year < 0x8000_0000
  {
    var days: int := timestamp / 86400;
    var rem := timestamp % 86400;
    var hh := rem / 3600;
    rem := rem % 3600;
    var mm := rem / 60;
    var ss := rem % 60;
    ghost var total := days;
    var year := 1970;
    EpochIs1970();
    while true
      invariant 0 <= days && 1970 <= year
      invariant days + DaysBeforeYear(year) - EPOCH == total
      decreases days
    {
      var d := if Leap(year) then 366 else 365;
      if days < d {
        break;
      }
      days := days - d;
      year := year + 1;
    }
    var mon := 0;
    while mon < 12
      invariant 0 <= mon <= 12 && 0 <= days
      invariant days + DaysBeforeMonth(year, mon + 1) < YearDays(year)
      invariant days + DaysBeforeMonth(year, mon + 1) + DaysBeforeYear(year) - EPOCH == total
    {
      var d := MDAYS[mon] + if mon == 1 && Leap(year) then 1 else 0;
      if days < d {
        break;
      }
      days := days - d;
      mon := mon + 1;
    }
    MonthsOfYear(year);
    c := Civil(year, mon + 1, days + 1, hh, mm, ss);
    weekday := (days + 4) % 7;
    YearsMonotone(1970, year);
  }

  // ---------------------------------------------------------------- the closed form

  datatype Date = Date(year: nat, month: nat, day: nat)

  /** `format_unix_utc`: Hinnant's days-to-civil. All operands are non-negative here, so
      the truncating divisions of the source are these. */
  function UnixUtc(seconds: nat): Civil {
    var date := CivilDay(seconds / 86400);
    var remainder := seconds % 86400;
    Civil(date.year, date.month, date.day, remainder / 3600, remainder % 3600 / 60, remainder % 60)
  }

  function CivilDay(days: nat): Date {
    var z := days + 719468;
    var era := z / 146097;
    EraDate(era, z - era * 146097)
  }

  function EraDate(era: nat, doe: nat): Date
    requires doe < 146097
  {
    var yoe := YearOfEra(doe);
    EraOfDays(doe);
    MonthAndDay(yoe + era * 400, doe - EraDays(yoe))
  }

  /** Month and day of day `doy` of the year that begins on the first of March `year`. */
  function MonthAndDay(year: nat, doy: nat): Date
    requires doy <= 365
  {
    var mp := (5 * doy + 2) / 153;
    var day := doy - (153 * mp + 2) / 5 + 1;
    var month := if mp < 10 then mp + 3 else mp - 9;
    Date(if month <= 2 then year + 1 else year, month, day)
  }

  function YearOfEra(doe: nat): nat {
    (doe - doe / 1460 + doe / 36524 - doe / 146096) / 365
  }

  /** Days of the first `y` years of an era, which begins on the first of March. */
  function EraDays(y: nat): nat {
    365 * y + y / 4 - y / 100
  }

  /** A day of an era by century, four-year cycle, year and day. */
  lemma Cycles(doe: nat) returns (c: nat, q: nat, a: nat, d: nat)
    requires doe < 146097
    ensures doe == 36524 * c + 1461 * q + 365 * a + d
    ensures c <= 3 && q <= 24 && a <= 3 && d <= 365
    ensures d == 365 ==> a == 3 && (q < 24 || c == 3)
    ensures doe / 36524 - doe / 146096 == c
  {
    c := if doe / 36524 < 3 then doe / 36524 else 3;
    var r := doe - 36524 * c;
    q := r / 1461;
    var t := r - 1461 * q;
    a := if t / 365 < 3 then t / 365 else 3;
    d := t - 365 * a;
  }

  lemma EraDaysOfCycles(c: nat, q: nat, a: nat)
    requires c <= 3 && q <= 24 && a <= 3
    ensures EraDays(100 * c + 4 * q + a) == 36524 * c + 1461 * q + 365 * a
  {
    var y := 100 * c + 4 * q + a;
    assert y / 4 == 25 * c + q;
    assert y / 100 == c;
  }

  lemma YearOfCycles(doe: nat, c: nat, q: nat, a: nat, d: nat)
    requires doe == 36524 * c + 1461 * q + 365 * a + d
    requires c <= 3 && q <= 24 && a <= 3 && d <= 365 && (d == 365 ==> a == 3)
    requires doe / 36524 - doe / 146096 == c
    ensures YearOfEra(doe) == 100 * c + 4 * q + a
  {
    var u := 24 * c + q + 365 * a + d;
    assert doe == 1460 * (25 * c + q) + u;
    var carry := if u >= 1460 then 1 else 0;
    assert doe / 1460 == 25 * c + q + carry;
    assert doe - doe / 1460 + c == 365 * (100 * c + 4 * q + a) + (d - carry);
  }

  /** Every day of an era lies in the year the formula names; only a leap year has a 366th. */
  lemma EraOfDays(doe: nat)
    requires doe < 146097
    ensures YearOfEra(doe) < 400
    ensures EraDays(YearOfEra(doe)) <= doe <= EraDays(YearOfEra(doe)) + 365
    ensures doe == EraDays(YearOfEra(doe)) + 365 ==> Leap(YearOfEra(doe) + 1)
  {
    var c, q, a, d := Cycles(doe);
    EraDaysOfCycles(c, q, a);
    YearOfCycles(doe, c, q, a, d);
    if d == 365 {
      var y := 100 * c + 4 * q + 4;
      assert y % 4 == 0;
      if q == 24 {
        assert y == 400;
      } else {
        assert y % 100 == 4 * q + 4;
      }
    }
  }

  /** The March-based count against the January-based one. */
  lemma MarchYear(era: nat, yoe: nat)
    requires yoe < 400
    ensures var y := yoe + 400 * era;
            DaysBeforeYear(y + 1) == 146097 * era + EraDays(yoe) + 366
  {
    var y := yoe + 400 * era;
    DaysBeforeYearClosed(y + 1);
    assert (y + 4) / 4 == yoe / 4 + 100 * era + 1;
    assert (y + 100) / 100 == yoe / 100 + 4 * era + 1;
    assert (y + 400) / 400 == era + 1;
  }

  lemma Period4(y: int, k: int)
    ensures (y + 4 * k) % 4 == y % 4
  {
    assert y + 4 * k == 4 * (y / 4 + k) + y % 4;
  }

  lemma Period100(y: int, k: int)
    ensures (y + 100 * k) % 100 == y % 100
  {
    assert y + 100 * k == 100 * (y / 100 + k) + y % 100;
  }

  lemma Period400(y: int, k: int)
    ensures (y + 400 * k) % 400 == y % 400
  {
    assert y + 400 * k == 400 * (y / 400 + k) + y % 400;
  }

  lemma LeapPeriod(y: int, era: nat)
    ensures Leap(y + 400 * era) == Leap(y)
  {
    Period400(y, era);
    Period100(y, 4 * era);
    Period4(y, 100 * era);
  }

  lemma MonthOfDay(y: nat, doy: nat)
    requires doy <= 365 && (doy == 365 ==> Leap(y + 1))
    ensures var d := MonthAndDay(y, doy);
            && 1 <= d.month <= 12 && 1 <= d.day <= MonthDays(d.year, d.month)
            && DaysBeforeYear(d.year) + DaysBeforeMonth(d.year, d.month) + d.day - 1
               == DaysBeforeYear(y + 1) - 306 + doy
  {
    assert DaysBeforeYear(y + 1) == DaysBeforeYear(y) + YearDays(y);
    if doy < 306 {
      SpringToYearEnd(y, doy);
    } else {
      NewYear(y, doy);
    }
  }

  /** March to December. */
  lemma SpringToYearEnd(y: nat, doy: nat)
    requires doy < 306
    ensures var d := MonthAndDay(y, doy);
            && d.year == y && 3 <= d.month <= 12 && 1 <= d.day <= MonthDays(y, d.month)
            && DaysBeforeMonth(y, d.month) + d.day - 1 == YearDays(y) - 306 + doy
  {
    MonthsOfYear(y);
  }

  /** January and February of the next year. */
  lemma NewYear(y: nat, doy: nat)
    requires 306 <= doy <= 365 && (doy == 365 ==> Leap(y + 1))
    ensures var d := MonthAndDay(y, doy);
            && d.year == y + 1 && 1 <= d.month <= 2 && 1 <= d.day <= MonthDays(y + 1, d.month)
            && DaysBeforeMonth(y + 1, d.month) + d.day - 1 == doy - 306
  {
    MonthsOfYear(y + 1);
  }

  ghost predicate DateIs(d: Date, number: int) {
    && 1 <= d.month <= 12 && 1 <= d.day <= MonthDays(d.year, d.month)
    && DayNumber(d.year, d.month, d.day) == number
  }

  lemma MonthOfEraYear(era: nat, yoe: nat, doy: nat, number: int)
    requires number == era * 146097 + EraDays(yoe) + doy - 719468
    requires yoe < 400 && doy <= 365 && (doy == 365 ==> Leap(yoe + 1))
    ensures DateIs(MonthAndDay(yoe + era * 400, doy), number)
  {
    MarchYear(era, yoe);
    LeapPeriod(yoe + 1, era);
    var y := yoe + era * 400;
    assert Leap(y + 1) == Leap(yoe + 1);
    MonthOfDay(y, doy);
  }

  lemma EraDateIs(era: nat, doe: nat)
    requires doe < 146097
    ensures DateIs(EraDate(era, doe), era * 146097 + doe - 719468)
  {
    EraOfDays(doe);
    var yoe := YearOfEra(doe);
    var doy := doe - EraDays(yoe);
    assert EraDate(era, doe) == MonthAndDay(yoe + era * 400, doy);
    MonthOfEraYear(era, yoe, doy, era * 146097 + doe - 719468);
  }

  lemma CivilDayNumber(days: nat)
    ensures DateIs(CivilDay(days), days)
  {
    var z := days + 719468;
    var era := z / 146097;
    EraDateIs(era, z - era * 146097);
  }

  /** The closed form yields the valid civil time of every timestamp. */
  lemma UnixUtcIsCivil(seconds: nat)
    ensures Valid(UnixUtc(seconds)) && Timestamp(UnixUtc(seconds)) == seconds
  {
    CivilDayNumber(seconds / 86400);
    Recompose(seconds, UnixUtc(seconds));
  }

  lemma Recompose(seconds: nat, c: Civil)
    requires 1 <= c.month <= 12 && DayNumber(c.year, c.month, c.day) == seconds / 86400
    requires c.hour == seconds % 86400 / 3600
    requires c.minute == seconds % 86400 % 3600 / 60 && c.second == seconds % 86400 % 60
    ensures Timestamp(c) == seconds && c.hour < 24 && c.minute < 60 && c.second < 60
  {
    SplitSeconds(seconds % 86400);
  }

  lemma SplitSeconds(r: nat)
    requires r < 86400
    ensures r / 3600 * 3600 + r % 3600 / 60 * 60 + r % 60 == r
    ensures r / 3600 < 24 && r % 3600 / 60 < 60
  {
    var h, t := r / 3600, r % 3600;
    assert r == h * 3600 + t;
    var m, u := t / 60, t % 60;
    assert t == m * 60 + u;
    assert r == 60 * (60 * h + m) + u;
  }

  // ---------------------------------------------------------------- the claims

  /** Both renderings agree in every field, for every timestamp. */
  method CalendarsAgree(timestamp: nat) returns (c: Civil, weekday: nat)
    ensures c == UnixUtc(timestamp)
  {
    c, weekday := FormatRfc7231(timestamp);
    UnixUtcIsCivil(timestamp);
    TimestampInjective(c, UnixUtc(timestamp));
  }

  /** And the closed form recovers every valid date from its timestamp. */
  lemma UnixUtcInverts(c: Civil)
    requires Valid(c) && c.year >= 1970
    ensures Timestamp(c) >= 0 && UnixUtc(Timestamp(c)) == c
  {
    EpochIs1970();
    YearsMonotone(1970, c.year);
    UnixUtcIsCivil(Timestamp(c));
    TimestampInjective(c, UnixUtc(Timestamp(c)));
  }

  /** The day of the week a date falls on, Sunday being 0: the epoch was a Thursday. */
  function Weekday(timestamp: nat): nat {
    (timestamp / 86400 + 4) % 7
  }

  /** The weekday printed by the loops counts from the day of the month, not from the day
      number, so it is right exactly when a whole number of weeks precedes the month. */
  lemma PrintedWeekday(c: Civil)
    requires Valid(c) && c.year >= 1970
    ensures Timestamp(c) >= 0
    ensures (c.day - 1 + 4) % 7 == Weekday(Timestamp(c))
       <==> (DaysBeforeYear(c.year) - EPOCH + DaysBeforeMonth(c.year, c.month)) % 7 == 0
  {
    EpochIs1970();
    YearsMonotone(1970, c.year);
    var before := DaysBeforeYear(c.year) - EPOCH + DaysBeforeMonth(c.year, c.month);
    DayOfTimestamp(c, before + c.day - 1);
    WeeksBefore(before, c.day);
  }

  lemma DayOfTimestamp(c: Civil, day: int)
    requires Valid(c) && day == DayNumber(c.year, c.month, c.day) >= 0
    ensures Timestamp(c) >= 0 && Timestamp(c) / 86400 == day
  {
    var s := c.hour * 3600 + c.minute * 60 + c.second;
    assert 0 <= s < 86400;
    assert Timestamp(c) == 86400 * day + s;
  }

  lemma WeeksBefore(before: int, day: nat)
    ensures (day - 1 + 4) % 7 == (before + day - 1 + 4) % 7 <==> before % 7 == 0
  {
    var r := before % 7;
    assert before + day + 3 == 7 * (before / 7) + (r + day + 3);
    Period7(r + day + 3, before / 7);
  }

  lemma Period7(y: int, k: int)
    ensures (y + 7 * k) % 7 == y % 7
  {
    assert y + 7 * k == 7 * (y / 7 + k) + y % 7;
  }

  /** 1970-02-01 was a Sunday and is printed as a Thursday. */
  lemma WeekdayOffInFebruary1970()
    ensures var c := Civil(1970, 2, 1, 0, 0, 0);
            Valid(c) && Timestamp(c) >= 0 && Weekday(Timestamp(c)) == 0 && (c.day - 1 + 4) % 7 == 4
  {
    EpochIs1970();
    MonthsOfYear(1970);
  }
}
