/** Days since the Unix epoch to a calendar date, and the time-of-day split of a timestamp. */
module CivilDate {
  import opened Arithmetic
  import opened Wrappers

  datatype Date = Date(year: int, month: int, day: int)

  datatype Timestamp = Timestamp(date: Date, hour: int, minute: int, second: int)

  /** Rust's `/` on signed integers: it truncates toward zero. */
  function TruncDiv(a: int, b: int): int
    requires b > 0
  {
    if a >= 0 then a / b else -((-a) / b)
  }

  function CivilFromDays(days: int): Date {
    var z := days + 719_468;
    var era := TruncDiv(if z >= 0 then z else z - 146_096, 146_097);
    DateInEra(era, z - era * 146_097)
  }

  function DateInEra(era: int, doe: int): Date {
    var yoe := YearOfEra(doe);
    var y := yoe + era * 400;
    var doy := doe - (365 * yoe + yoe / 4 - yoe / 100);
    var mp := (5 * doy + 2) / 153;
    var d := doy - (153 * mp + 2) / 5 + 1;
    var m := if mp < 10 then mp + 3 else mp - 9;
    Date(if m <= 2 then y + 1 else y, m, d)
  }

  function YearOfEra(doe: int): int {
    (doe - doe / 1460 + doe / 36524 - doe / 146_096) / 365
  }

  /** The leap rule of Appendix C of RFC 3339. */
  predicate IsLeap(year: int) {
    year % 4 == 0 && (year % 100 != 0 || year % 400 == 0)
  }

  function DaysInMonth(year: int, month: int): int
    requires 1 <= month <= 12
  {
    if month == 2 then (if IsLeap(year) then 29 else 28)
    else if month == 4 || month == 6 || month == 9 || month == 11 then 30
    else 31
  }

  predicate IsDate(d: Date) {
    1 <= d.month <= 12 && 1 <= d.day <= DaysInMonth(d.year, d.month)
  }

  // Calendar order.
  predicate Before(a: Date, b: Date) {
    a.year < b.year ||
    (a.year == b.year && (a.month < b.month || (a.month == b.month && a.day < b.day)))
  }

  /** The date after `d`, read off the calendar. */
  function NextDate(d: Date): Date
    requires IsDate(d)
  {
    if d.day < DaysInMonth(d.year, d.month) then d.(day := d.day + 1)
    else if d.month < 12 then Date(d.year, d.month + 1, 1)
    else Date(d.year + 1, 1, 1)
  }

  // Days from the epoch to 1 January of `year`: 365 a year and one for each leap year passed.
  function DaysBeforeYear(year: int): int {
    var y := year - 1;
    365 * y + y / 4 - y / 100 + y / 400 - 719_162
  }

  function DaysBeforeMonth(year: int, month: int): int
    requires 1 <= month <= 12
  {
    if month == 1 then 0
    else DaysBeforeMonth(year, month - 1) + DaysInMonth(year, month - 1)
  }

  /** The inverse: month lengths summed from 1 January, no era arithmetic. */
  function DaysFromCivil(d: Date): int
    requires IsDate(d)
  {
    DaysBeforeYear(d.year) + DaysBeforeMonth(d.year, d.month) + d.day - 1
  }

  // Days from the start of an era to its March-based year `yoe`.
  function YearStart(yoe: int): int {
    365 * yoe + yoe / 4 - yoe / 100
  }

  // A day of an era in mixed radix: centuries, four-year groups, and the day within the group.
  ghost predicate EraDigits(doe: int, c: int, b: int, t: int) {
    0 <= c <= 3 && 0 <= b <= 24 && 0 <= t <= 1460 &&
    doe == 36_524 * c + 1461 * b + t &&
    (b == 24 && c < 3 ==> t < 1460)
  }

  lemma {:induction false} EraDigitsExist(doe: int) returns (c: int, b: int, t: int)
    requires 0 <= doe <= 146_096
    ensures EraDigits(doe, c, b, t)
  {
    c := if doe == 146_096 then 3 else doe / 36_524;
    var r := doe - 36_524 * c;
    b := r / 1461;
    t := r % 1461;
  }

  // The correction terms of YearOfEra cancel exactly the leap days already passed.
  lemma {:induction false} YearOfEraDigits(doe: int, c: int, b: int, t: int)
    requires EraDigits(doe, c, b, t)
    ensures YearOfEra(doe) == 100 * c + 4 * b + (if t == 1460 then 3 else t / 365)
  {
    var e := if 24 * c + b + t >= 1460 then 1 else 0;
    assert doe / 1460 == 25 * c + b + e by {
      assert doe == 1460 * (25 * c + b + e) + (24 * c + b + t - 1460 * e);
    }
    var last := doe == 146_096;
    assert doe / 36_524 == (if last then 4 else c);
    assert doe / 146_096 == (if last then 1 else 0);
    assert doe - doe / 1460 + doe / 36_524 - doe / 146_096 == 365 * (100 * c + 4 * b) + (t - e);
    assert YearOfEra(doe) == 100 * c + 4 * b + (t - e) / 365;
  }

  lemma {:induction false} YearStartDigits(c: int, b: int, j: int)
    requires 0 <= c && 0 <= b <= 24 && 0 <= j <= 3
    ensures YearStart(100 * c + 4 * b + j) == 36_524 * c + 1461 * b + 365 * j
  {
    assert (100 * c + 4 * b + j) / 4 == 25 * c + b;
    assert (100 * c + 4 * b + j) / 100 == c;
  }

  lemma {:induction false} YearOfEraBounds(doe: int)
    requires 0 <= doe <= 146_096
    ensures 0 <= YearOfEra(doe) <= 399
    ensures YearStart(YearOfEra(doe)) <= doe
    ensures doe < YearStart(YearOfEra(doe) + 1) || (doe == 146_096 && YearOfEra(doe) == 399)
  {
    var c, b, t := EraDigitsExist(doe);
    YearOfEraDigits(doe, c, b, t);
    var j := if t == 1460 then 3 else t / 365;
    YearStartDigits(c, b, j);
    if j < 3 {
      YearStartDigits(c, b, j + 1);
    } else if b < 24 {
      YearStartDigits(c, b + 1, 0);
    } else {
      YearStartDigits(c + 1, 0, 0);
    }
  }

  // ----- The forward direction: a real date, `n` days after the epoch.

  lemma {:induction false} YearStep(year: int)
    ensures DaysBeforeYear(year + 1) == DaysBeforeYear(year) + (if IsLeap(year) then 366 else 365)
  {
    var y := year - 1;
    assert (y + 1) / 4 == y / 4 + (if year % 4 == 0 then 1 else 0);
    assert (y + 1) / 100 == y / 100 + (if year % 100 == 0 then 1 else 0);
    assert (y + 1) / 400 == y / 400 + (if year % 400 == 0 then 1 else 0);
  }

  // The years of an era and the calendar's own leap rule count the same days.
  lemma {:induction false} EraYear(era: int, yoe: int)
    requires 0 <= yoe <= 399
    ensures DaysBeforeYear(yoe + era * 400 + 1) == era * 146_097 + YearStart(yoe) - 719_162
  {
    var y := yoe + era * 400;
    assert y / 4 == 100 * era + yoe / 4;
    assert y / 100 == 4 * era + yoe / 100;
    assert y / 400 == era;
  }

  lemma {:induction false} MonthTable(year: int)
    ensures forall m | 1 <= m <= 12 ::
              DaysBeforeMonth(year, m) ==
                var leap := if IsLeap(year) then 1 else 0;
                if m == 1 then 0 else if m == 2 then 31
                else 59 + leap + (153 * (m - 3) + 2) / 5
  {
    assert DaysBeforeMonth(year, 1) == 0;
    assert DaysBeforeMonth(year, 2) == 31;
    assert DaysBeforeMonth(year, 3) == DaysBeforeMonth(year, 2) + DaysInMonth(year, 2);
    assert DaysBeforeMonth(year, 4) == DaysBeforeMonth(year, 3) + 31;
    assert DaysBeforeMonth(year, 5) == DaysBeforeMonth(year, 4) + 30;
    assert DaysBeforeMonth(year, 6) == DaysBeforeMonth(year, 5) + 31;
    assert DaysBeforeMonth(year, 7) == DaysBeforeMonth(year, 6) + 30;
    assert DaysBeforeMonth(year, 8) == DaysBeforeMonth(year, 7) + 31;
    assert DaysBeforeMonth(year, 9) == DaysBeforeMonth(year, 8) + 31;
    assert DaysBeforeMonth(year, 10) == DaysBeforeMonth(year, 9) + 30;
    assert DaysBeforeMonth(year, 11) == DaysBeforeMonth(year, 10) + 31;
    assert DaysBeforeMonth(year, 12) == DaysBeforeMonth(year, 11) + 30;
  }

  // A day of the March-based year, as the last lines of CivilFromDays read it.
  lemma {:induction false} DateInYear(y: int, doy: int, d: Date)
    requires 0 <= doy <= 365
    requires doy == 365 ==> IsLeap(y + 1)
    requires var mp := (5 * doy + 2) / 153;
             && d.day == doy - (153 * mp + 2) / 5 + 1
             && d.month == (if mp < 10 then mp + 3 else mp - 9)
             && d.year == (if d.month <= 2 then y + 1 else y)
    ensures IsDate(d)
    ensures DaysFromCivil(d) == DaysBeforeYear(y + 1) + doy - 306
  {
    var mp := (5 * doy + 2) / 153;
    assert 0 <= mp <= 11;
    assert 1 <= d.month <= 12;
    assert IsDate(d);
    MonthTable(d.year);
    YearStep(y);
  }

  // Hinnant's shifted truncating division is a floor.
  lemma {:induction false} ShiftedDivFloors(z: int, era: int, doe: int)
    requires z == era * 146_097 + doe && 0 <= doe <= 146_096
    ensures TruncDiv(if z >= 0 then z else z - 146_096, 146_097) == era
  {
    if z < 0 {
      assert -(z - 146_096) == (-era) * 146_097 + (146_096 - doe);
    }
  }

  lemma {:induction false} DayInEra(days: int, era: int, doe: int)
    requires days == era * 146_097 + doe - 719_468 && 0 <= doe <= 146_096
    ensures CivilFromDays(days) == DateInEra(era, doe)
  {
    ShiftedDivFloors(days + 719_468, era, doe);
  }

  lemma {:induction false} EraOfDay(days: int) returns (era: int, doe: int)
    ensures 0 <= doe <= 146_096
    ensures days == era * 146_097 + doe - 719_468
    ensures CivilFromDays(days) == DateInEra(era, doe)
  {
    era, doe := (days + 719_468) / 146_097, (days + 719_468) % 146_097;
    assert days + 719_468 == era * 146_097 + doe;
    DayInEra(days, era, doe);
  }

  lemma {:induction false} LeapInEra(era: int, yoe: int)
    ensures IsLeap(yoe + era * 400) <==> IsLeap(yoe)
  {
    DivModShift(yoe, 400, era);
    DivModShift(yoe, 100, 4 * era);
    DivModShift(yoe, 4, 100 * era);
  }

  lemma {:induction false} YearStartStep(yoe: int)
    requires 0 <= yoe <= 398
    ensures YearStart(yoe + 1) - YearStart(yoe) == (if IsLeap(yoe + 1) then 366 else 365)
  {
    EraYear(0, yoe);
    EraYear(0, yoe + 1);
    YearStep(yoe + 1);
  }

  lemma {:induction false} DayOfYearBounds(era: int, yoe: int, doe: int)
    requires 0 <= yoe <= 399 && YearStart(yoe) <= doe
    requires doe < YearStart(yoe + 1) || (doe == 146_096 && yoe == 399)
    ensures doe - YearStart(yoe) <= 365
    ensures doe - YearStart(yoe) == 365 ==> IsLeap(yoe + era * 400 + 1)
  {
    LeapInEra(era, yoe + 1);
    if yoe < 399 {
      YearStartStep(yoe);
    }
  }

  lemma {:induction false} DateInEraCorrect(era: int, doe: int)
    requires 0 <= doe <= 146_096
    ensures IsDate(DateInEra(era, doe))
    ensures DaysFromCivil(DateInEra(era, doe)) == era * 146_097 + doe - 719_468
  {
    YearOfEraBounds(doe);
    var yoe := YearOfEra(doe);
    DayOfYearBounds(era, yoe, doe);
    EraYear(era, yoe);
    var date := DateInEra(era, doe);
    DateInYear(yoe + era * 400, doe - YearStart(yoe), date);
  }

  /** Every day number gives a real proleptic Gregorian date, and exactly the one it counts to. */
  lemma {:induction false} CivilFromDaysCorrect(days: int)
    ensures IsDate(CivilFromDays(days))
    ensures DaysFromCivil(CivilFromDays(days)) == days
  {
    var era, doe := EraOfDay(days);
    DateInEraCorrect(era, doe);
  }

  // ----- The backward direction: the date counted to is the only one.

  lemma {:induction false} YearsMonotone(a: int, b: int)
    requires a <= b
    ensures DaysBeforeYear(a) <= DaysBeforeYear(b)
    decreases b - a
  {
    if a < b {
      YearStep(a);
      YearsMonotone(a + 1, b);
    }
  }

  lemma {:induction false} MonthBounds(d: Date)
    requires IsDate(d)
    ensures forall m | d.month < m <= 12 :: DaysBeforeMonth(d.year, d.month) + d.day <= DaysBeforeMonth(d.year, m)
    ensures DaysBeforeMonth(d.year, d.month) + d.day <= (if IsLeap(d.year) then 366 else 365)
  {
    MonthTable(d.year);
  }

  /** Day numbers order dates exactly as the calendar does. */
  lemma {:induction false} DaysFromCivilMonotone(a: Date, b: Date)
    requires IsDate(a) && IsDate(b)
    ensures Before(a, b) <==> DaysFromCivil(a) < DaysFromCivil(b)
  {
    if Before(a, b) {
      DaysFromCivilStrict(a, b);
    } else if a != b {
      DaysFromCivilStrict(b, a);
    }
  }

  lemma {:induction false} DaysFromCivilStrict(a: Date, b: Date)
    requires IsDate(a) && IsDate(b) && Before(a, b)
    ensures DaysFromCivil(a) < DaysFromCivil(b)
  {
    MonthBounds(a);
    if a.year < b.year {
      YearStep(a.year);
      YearsMonotone(a.year + 1, b.year);
      MonthTable(b.year);
    }
  }

  /** Each real date is produced, and by its own day number only. */
  lemma {:induction false} CivilFromDaysInverse(d: Date)
    requires IsDate(d)
    ensures CivilFromDays(DaysFromCivil(d)) == d
  {
    var e := CivilFromDays(DaysFromCivil(d));
    CivilFromDaysCorrect(DaysFromCivil(d));
    DaysFromCivilMonotone(d, e);
    DaysFromCivilMonotone(e, d);
  }

  lemma {:induction false} CivilFromDaysMonotone(m: int, n: int)
    ensures m < n <==> Before(CivilFromDays(m), CivilFromDays(n))
  {
    CivilFromDaysCorrect(m);
    CivilFromDaysCorrect(n);
    DaysFromCivilMonotone(CivilFromDays(m), CivilFromDays(n));
  }

  lemma {:induction false} NextDateCounts(d: Date)
    requires IsDate(d)
    ensures IsDate(NextDate(d)) && DaysFromCivil(NextDate(d)) == DaysFromCivil(d) + 1
  {
    YearStep(d.year);
    if d.day == DaysInMonth(d.year, d.month) {
      if d.month == 12 {
        MonthTable(d.year);
      } else {
        assert DaysBeforeMonth(d.year, d.month + 1) == DaysBeforeMonth(d.year, d.month) + d.day;
      }
    }
  }

  lemma {:induction false} NextDateIsNext(d: Date, e: Date)
    requires IsDate(d) && IsDate(e) && DaysFromCivil(e) == DaysFromCivil(d) + 1
    ensures e == NextDate(d)
  {
    NextDateCounts(d);
    DaysFromCivilMonotone(NextDate(d), e);
    DaysFromCivilMonotone(e, NextDate(d));
  }

  /** Counting one more day turns the calendar page: month ends, leap days and year ends included. */
  lemma {:induction false} CivilFromDaysSteps(days: int)
    ensures IsDate(CivilFromDays(days))
    ensures CivilFromDays(days + 1) == NextDate(CivilFromDays(days))
  {
    CivilFromDaysCorrect(days);
    CivilFromDaysCorrect(days + 1);
    NextDateIsNext(CivilFromDays(days), CivilFromDays(days + 1));
  }

  // ----- Timestamps

  /** What `format_rfc3339_utc` prints for a clock reading in whole seconds; `None` is a clock before the epoch. */
  function FormatFields(secondsSinceEpoch: Option<nat>): Timestamp {
    var total := secondsSinceEpoch.GetOr(0);
    var secondsOfDay := total % 86_400;
    Timestamp(CivilFromDays(total / 86_400), secondsOfDay / 3600, (secondsOfDay % 3600) / 60, secondsOfDay % 60)
  }

  function SecondsOf(t: Timestamp): int
    requires IsDate(t.date)
  {
    86_400 * DaysFromCivil(t.date) + 3600 * t.hour + 60 * t.minute + t.second
  }

  lemma {:induction false} SecondsOfDay(s: int)
    requires 0 <= s < 86_400
    ensures s == 3600 * (s / 3600) + 60 * ((s % 3600) / 60) + s % 60
    ensures 0 <= s / 3600 < 24 && 0 <= (s % 3600) / 60 < 60
  {
    assert s % 60 == (s % 3600) % 60;
  }

  lemma {:induction false} SecondsAddUp(date: Date, days: int, s: int)
    requires IsDate(date) && DaysFromCivil(date) == days && 0 <= s < 86_400
    ensures SecondsOf(Timestamp(date, s / 3600, (s % 3600) / 60, s % 60)) == 86_400 * days + s
  {
    SecondsOfDay(s);
  }

  /** A printed timestamp is a real date and time of day, and no second is lost. */
  lemma {:induction false} FormatFieldsExact(secondsSinceEpoch: Option<nat>)
    ensures var t := FormatFields(secondsSinceEpoch);
            && IsDate(t.date)
            && 0 <= t.hour < 24 && 0 <= t.minute < 60 && 0 <= t.second < 60
            && SecondsOf(t) == secondsSinceEpoch.GetOr(0)
  {
    var total := secondsSinceEpoch.GetOr(0);
    CivilFromDaysCorrect(total / 86_400);
    SecondsOfDay(total % 86_400);
    SecondsAddUp(CivilFromDays(total / 86_400), total / 86_400, total % 86_400);
  }
}
