/**
 * Day numbers and civil dates of the proleptic Gregorian calendar (the leap rule of RFC 3339,
 * appendix C), converted by arithmetic on 400-year eras that start on 1 March.
 */
module Calendar {

  datatype Date = Date(year: int, month: nat, day: nat)

  predicate IsLeap(year: int)
  {
    year % 4 == 0 && (year % 100 != 0 || year % 400 == 0)
  }

  function DaysInMonth(year: int, month: nat): (days: nat)
  {
    if month == 1 || month == 3 || month == 5 || month == 7 || month == 8 || month == 10 || month == 12 then 31
    else if month == 4 || month == 6 || month == 9 || month == 11 then 30
    else if month == 2 then (if IsLeap(year) then 29 else 28)
    else 0
  }

  predicate ValidDate(d: Date)
  {
    1 <= d.month <= 12 && 1 <= d.day <= DaysInMonth(d.year, d.month)
  }

  /** Division that truncates toward zero, as the source's integers divide. */
  function TruncDiv(a: int, b: int): int
    requires b > 0
  {
    if a >= 0 then a / b else -((-a) / b)
  }

  /** Which 400-year era a day number (counted from 0000-03-01) falls in. */
  function EraOfDay(z: int): (era: int)
    ensures era == z / 146_097
  {
    TruncDiv(if z >= 0 then z else z - 146_096, 146_097)
  }

  function EraOfYear(y: int): (era: int)
    ensures era == y / 400
  {
    TruncDiv(if y >= 0 then y else y - 399, 400)
  }

  /** Year of the era, from the day of the era. */
  function YearOfEra(doe: nat): nat
    requires doe <= 146_096
  {
    (doe - doe / 1460 + doe / 36_524 - doe / 146_096) / 365
  }

  /** The first day of year `yoe` within its era. */
  function YearStart(yoe: nat): nat
  {
    365 * yoe + yoe / 4 - yoe / 100
  }

  function CivilFromUnixDays(unixDays: int): Date
  {
    var z := unixDays + 719_468;
    var era := EraOfDay(z);
    var doe := z - era * 146_097;
    var yoe := YearOfEra(doe);
    YearOfEraBrackets(doe);
    var doy := doe - YearStart(yoe);
    var mp := (5 * doy + 2) / 153;
    var d := doy - (153 * mp + 2) / 5 + 1;
    var m := if mp < 10 then mp + 3 else mp - 9;
    var y := yoe + era * 400;
    Date(if m <= 2 then y + 1 else y, m, d)
  }

  /** The day of a year that starts on 1 March. */
  function DayOfYear(m: nat, d: nat): int
  {
    (153 * (if m > 2 then m - 3 else m + 9) + 2) / 5 + d - 1
  }

  function UnixDaysFromCivil(date: Date): int
  {
    var y := if date.month <= 2 then date.year - 1 else date.year;
    var era := EraOfYear(y);
    var yoe := y - era * 400;
    var doe := yoe * 365 + yoe / 4 - yoe / 100 + DayOfYear(date.month, date.day);
    era * 146_097 + doe - 719_468
  }

  /** Length of year `yoe` of an era: its last day is 29 February when year `yoe + 1` is leap. */
  function YearLength(yoe: nat): nat
  {
    if IsLeap(yoe + 1) then 366 else 365
  }

  // ---------------------------------------------------------------- years within an era

  /** A day of the era as century, four-year cycle, year and day: the last day of the longer
      cycles is the leap day. */
  predicate DayParts(c: nat, q: nat, t: nat, u: nat)
  {
    c <= 3 && q <= 24 && t <= 3 && u <= 365 && (u == 365 ==> t == 3 && (q < 24 || c == 3))
  }

  function DayOf(c: nat, q: nat, t: nat, u: nat): nat
  {
    36_524 * c + 1461 * q + 365 * t + u
  }

  lemma PartsOfYear(c: nat, q: nat, t: nat)
    requires c <= 3 && q <= 24 && t <= 3
    ensures YearStart(100 * c + 4 * q + t) == DayOf(c, q, t, 0)
    ensures YearLength(100 * c + 4 * q + t) == if t == 3 && (q < 24 || c == 3) then 366 else 365
  {
    var yoe := 100 * c + 4 * q + t;
    assert yoe / 4 == 25 * c + q && yoe / 100 == c;
    assert (yoe + 1) % 4 == (t + 1) % 4;
    assert (yoe + 1) % 100 == (4 * q + t + 1) % 100;
  }

  /** The year-of-era formula undoes the decomposition. */
  lemma YearOfParts(c: nat, q: nat, t: nat, u: nat)
    requires DayParts(c, q, t, u)
    ensures DayOf(c, q, t, u) <= 146_096
    ensures YearOfEra(DayOf(c, q, t, u)) == 100 * c + 4 * q + t
  {
    var doe := DayOf(c, q, t, u);
    var over := 24 * c + q + 365 * t + u;
    assert doe == 1460 * (25 * c + q) + over;
    var e1 := if over >= 1460 then 1 else 0;
    assert doe / 1460 == 25 * c + q + e1;
    var e2 := if q == 24 && t == 3 && u == 365 then 1 else 0;
    assert doe / 36_524 == c + e2;
    var e3 := if doe == 146_096 then 1 else 0;
    assert doe / 146_096 == e3;
    assert doe - doe / 1460 + doe / 36_524 - doe / 146_096 == 365 * (100 * c + 4 * q + t) + (u - e1 + e2 - e3);
  }

  lemma PartsOfDay(doe: nat) returns (c: nat, q: nat, t: nat, u: nat)
    requires doe <= 146_096
    ensures DayParts(c, q, t, u) && DayOf(c, q, t, u) == doe
  {
    c := if doe == 146_096 then 3 else doe / 36_524;
    var r := doe - 36_524 * c;
    q := r / 1461;
    var s := r - 1461 * q;
    t := if s == 1460 then 3 else s / 365;
    u := s - 365 * t;
  }

  /** The year-of-era formula finds the year whose days contain the given one. */
  lemma YearOfEraBrackets(doe: nat)
    requires doe <= 146_096
    ensures var yoe := YearOfEra(doe);
      yoe <= 399 && YearStart(yoe) <= doe < YearStart(yoe) + YearLength(yoe)
  {
    var c, q, t, u := PartsOfDay(doe);
    YearOfParts(c, q, t, u);
    PartsOfYear(c, q, t);
  }

  /** And no other year's days contain it. */
  lemma YearOfEraUnique(yoe: nat, doy: nat)
    requires yoe <= 399 && doy < YearLength(yoe)
    ensures YearStart(yoe) + doy <= 146_096 && YearOfEra(YearStart(yoe) + doy) == yoe
  {
    var c, q, t := yoe / 100, yoe % 100 / 4, yoe % 4;
    assert yoe == 100 * c + 4 * q + t;
    PartsOfYear(c, q, t);
    YearOfParts(c, q, t, doy);
  }

  // ---------------------------------------------------------------- months within a year

  /** Month `mp` counted from March. */
  function MonthNumber(mp: nat): nat
    requires mp <= 11
  {
    if mp < 10 then mp + 3 else mp - 9
  }

  function FirstDayOfMonth(mp: nat): nat
    requires mp <= 11
  {
    (153 * mp + 2) / 5
  }

  /** The month formula finds the month whose days contain the given day of the year. */
  lemma MonthBrackets(doy: nat)
    requires doy <= 365
    ensures var mp := (5 * doy + 2) / 153;
      && mp <= 11
      && FirstDayOfMonth(mp) <= doy
      && (mp < 11 ==> doy < FirstDayOfMonth(mp + 1))
  {
    var mp := (5 * doy + 2) / 153;
    assert 153 * mp <= 5 * doy + 2 < 153 * (mp + 1);
  }

  lemma MonthUnique(mp: nat, d: nat)
    requires mp <= 11 && 1 <= d
    requires if mp < 11 then FirstDayOfMonth(mp) + d <= FirstDayOfMonth(mp + 1) else d <= 29
    ensures (5 * (FirstDayOfMonth(mp) + d - 1) + 2) / 153 == mp
  {
    var x := FirstDayOfMonth(mp);
    assert 153 * mp + 2 - 4 <= 5 * x <= 153 * mp + 2;
  }

  lemma MonthLengths(year: int, mp: nat)
    requires mp <= 11
    ensures mp < 11 ==>
      FirstDayOfMonth(mp + 1) - FirstDayOfMonth(mp) == DaysInMonth(year, MonthNumber(mp))
    ensures mp == 11 ==> FirstDayOfMonth(mp) + DaysInMonth(year, 2) == if IsLeap(year) then 366 else 365
  {
  }

  // ---------------------------------------------------------------- round trips

  lemma DivisionIsUnique(x: int, k: int, q: int, r: int)
    requires k > 0 && x == k * q + r && 0 <= r < k
    ensures x / k == q && x % k == r
  {
    var e := x / k - q;
    assert k * e == r - x % k;
    assert e >= 1 ==> k * e >= k;
    assert e <= -1 ==> k * e <= -k;
  }

  lemma LeapRepeats(year: int, era: int)
    ensures IsLeap(year + 400 * era) == IsLeap(year)
  {
    DivisionIsUnique(year + 400 * era, 400, year / 400 + era, year % 400);
    DivisionIsUnique(year + 400 * era, 100, year / 100 + 4 * era, year % 100);
    DivisionIsUnique(year + 400 * era, 4, year / 4 + 100 * era, year % 4);
  }

  /** A date laid out from 1 March: era, year of the era, month and day. */
  function DateOfParts(era: int, yoe: nat, mp: nat, d: nat): Date
    requires mp <= 11
  {
    var y := yoe + era * 400;
    Date(if mp >= 10 then y + 1 else y, MonthNumber(mp), d)
  }

  function UnixOfParts(era: int, yoe: nat, mp: nat, d: nat): int
    requires mp <= 11
  {
    era * 146_097 + YearStart(yoe) + FirstDayOfMonth(mp) + d - 1 - 719_468
  }

  predicate ValidParts(yoe: nat, mp: nat, d: nat)
  {
    && yoe <= 399 && mp <= 11 && 1 <= d
    && (if mp < 11 then FirstDayOfMonth(mp) + d <= FirstDayOfMonth(mp + 1)
        else FirstDayOfMonth(mp) + d <= YearLength(yoe))
  }

  lemma NumberOfParts(era: int, yoe: nat, mp: nat, d: nat)
    requires yoe <= 399 && mp <= 11
    ensures UnixDaysFromCivil(DateOfParts(era, yoe, mp, d)) == UnixOfParts(era, yoe, mp, d)
  {
    DivisionIsUnique(yoe + era * 400, 400, era, yoe);
  }

  lemma DateOfNumber(era: int, yoe: nat, mp: nat, d: nat)
    requires ValidParts(yoe, mp, d)
    ensures CivilFromUnixDays(UnixOfParts(era, yoe, mp, d)) == DateOfParts(era, yoe, mp, d)
  {
    hide YearOfEra, YearStart, IsLeap;
    var doy := FirstDayOfMonth(mp) + d - 1;
    YearOfEraUnique(yoe, doy);
    MonthUnique(mp, d);
    var n := UnixOfParts(era, yoe, mp, d);
    DivisionIsUnique(n + 719_468, 146_097, era, YearStart(yoe) + doy);
  }

  lemma PartsAreValidDates(era: int, yoe: nat, mp: nat, d: nat)
    requires yoe <= 399 && mp <= 11
    ensures ValidParts(yoe, mp, d) <==> ValidDate(DateOfParts(era, yoe, mp, d))
  {
    MonthLengths(DateOfParts(era, yoe, mp, d).year, mp);
    LeapRepeats(yoe + 1, era);
  }

  lemma PartsOfNumber(n: int) returns (era: int, yoe: nat, mp: nat, d: nat)
    ensures ValidParts(yoe, mp, d) && n == UnixOfParts(era, yoe, mp, d)
  {
    era := (n + 719_468) / 146_097;
    var doe := n + 719_468 - era * 146_097;
    yoe := YearOfEra(doe);
    YearOfEraBrackets(doe);
    var doy := doe - YearStart(yoe);
    MonthBrackets(doy);
    mp := (5 * doy + 2) / 153;
    d := doy - FirstDayOfMonth(mp) + 1;
  }

  lemma PartsOfDate(date: Date) returns (era: int, yoe: nat, mp: nat)
    requires 1 <= date.month <= 12
    ensures yoe <= 399 && mp <= 11 && DateOfParts(era, yoe, mp, date.day) == date
  {
    var y := if date.month <= 2 then date.year - 1 else date.year;
    era, yoe := y / 400, y % 400;
    mp := if date.month > 2 then date.month - 3 else date.month + 9;
  }

  /** Every day number is the number of its own date, and that date is valid. */
  lemma DaysRoundTrip(n: int)
    ensures ValidDate(CivilFromUnixDays(n))
    ensures UnixDaysFromCivil(CivilFromUnixDays(n)) == n
  {
    hide CivilFromUnixDays, UnixDaysFromCivil, ValidDate, YearStart;
    var era, yoe, mp, d := PartsOfNumber(n);
    DateOfNumber(era, yoe, mp, d);
    NumberOfParts(era, yoe, mp, d);
    PartsAreValidDates(era, yoe, mp, d);
  }

  /** Every valid date is the date of its own day number. */
  lemma DateRoundTrip(date: Date)
    requires ValidDate(date)
    ensures CivilFromUnixDays(UnixDaysFromCivil(date)) == date
  {
    hide CivilFromUnixDays, UnixDaysFromCivil, YearStart;
    var era, yoe, mp := PartsOfDate(date);
    PartsAreValidDates(era, yoe, mp, date.day);
    NumberOfParts(era, yoe, mp, date.day);
    DateOfNumber(era, yoe, mp, date.day);
  }

  /** The day after, by the calendar on the wall. */
  function NextDate(d: Date): Date
  {
    if d.day < DaysInMonth(d.year, d.month) then Date(d.year, d.month, d.day + 1) else NextMonth(d)
  }

  /** The first day of the month after. */
  function NextMonth(d: Date): Date
  {
    if d.month < 12 then Date(d.year, d.month + 1, 1) else Date(d.year + 1, 1, 1)
  }

  /** One year of an era follows the other, and the eras follow each other. */
  lemma YearsAreContiguous(yoe: nat)
    requires yoe <= 399
    ensures YearStart(yoe) + YearLength(yoe) == if yoe < 399 then YearStart(yoe + 1) else 146_097
  {
    var c, q, t := yoe / 100, yoe % 100 / 4, yoe % 4;
    assert yoe == 100 * c + 4 * q + t;
    PartsOfYear(c, q, t);
    if t < 3 {
      PartsOfYear(c, q, t + 1);
    } else if q < 24 {
      PartsOfYear(c, q + 1, 0);
    } else if c < 3 {
      PartsOfYear(c + 1, 0, 0);
    }
  }

  /** Month lengths are what the day numbers say they are. */
  lemma MonthsAreContiguous(d: Date)
    requires 1 <= d.month <= 12 && d.day == 1
    ensures UnixDaysFromCivil(NextMonth(d)) - UnixDaysFromCivil(d) == DaysInMonth(d.year, d.month)
  {
    hide UnixDaysFromCivil, YearStart, YearLength, IsLeap;
    var era, yoe, mp := PartsOfDate(d);
    NumberOfParts(era, yoe, mp, 1);
    MonthLengths(d.year, mp);
    if mp < 11 {
      assert NextMonth(d) == DateOfParts(era, yoe, mp + 1, 1);
      NumberOfParts(era, yoe, mp + 1, 1);
    } else {
      YearEnd(era, yoe);
      YearsAreContiguous(yoe);
      if yoe < 399 {
        assert NextMonth(d) == DateOfParts(era, yoe + 1, 0, 1);
        NumberOfParts(era, yoe + 1, 0, 1);
      } else {
        assert NextMonth(d) == DateOfParts(era + 1, 0, 0, 1);
        NumberOfParts(era + 1, 0, 0, 1);
      }
    }
  }

  lemma YearEnd(era: int, yoe: nat)
    ensures FirstDayOfMonth(11) + DaysInMonth(yoe + era * 400 + 1, 2) == YearLength(yoe)
    ensures YearStart(0) == 0
  {
    LeapRepeats(yoe + 1, era);
  }

  /** Within a month, days count up. */
  lemma DaysCountUp(d: Date)
    requires 1 <= d.month <= 12
    ensures UnixDaysFromCivil(d) == UnixDaysFromCivil(Date(d.year, d.month, 1)) + d.day - 1
  {
  }

  // ---------------------------------------------------------------- weekdays

  /** The weekday of a date, from Monday as 0, by the year's count of leap days and the shift of each
      month. January and February count with the year before. */
  function WeekdayOfDate(date: Date): int
    requires 1 <= date.month <= 12
  {
    var y := if date.month <= 2 then date.year - 1 else date.year;
    var shift := [0, 3, 2, 5, 0, 3, 5, 1, 4, 6, 2, 4][date.month - 1];
    (y + y / 4 - y / 100 + y / 400 + shift + date.day + 6) % 7
  }

  lemma EraLeapDays(y: int)
    ensures var era, yoe := y / 400, y % 400;
      y / 4 == 100 * era + yoe / 4 && y / 100 == 4 * era + yoe / 100 && 0 <= yoe <= 399
  {
    var era, yoe := y / 400, y % 400;
    DivisionIsUnique(y, 4, 100 * era + yoe / 4, yoe % 4);
    DivisionIsUnique(y, 100, 4 * era + yoe / 100, yoe % 100);
  }

  /** A day number is that of its year, counted with leap days, and of its day within the year. */
  lemma DayNumber(date: Date)
    requires 1 <= date.month <= 12
    ensures
      var y := if date.month <= 2 then date.year - 1 else date.year;
      UnixDaysFromCivil(date)
      == 365 * y + y / 4 - y / 100 + y / 400 + DayOfYear(date.month, date.day) - 719_468
  {
    var y := if date.month <= 2 then date.year - 1 else date.year;
    EraLeapDays(y);
  }

  lemma MonthShift(m: nat, d: nat)
    requires 1 <= m <= 12
    ensures var shift := [0, 3, 2, 5, 0, 3, 5, 1, 4, 6, 2, 4][m - 1];
      (DayOfYear(m, d) - shift - d) % 7 == 4
  {
    var shift := [0, 3, 2, 5, 0, 3, 5, 1, 4, 6, 2, 4][m - 1];
    var days := (153 * (if m > 2 then m - 3 else m + 9) + 2) / 5;
    assert DayOfYear(m, d) - shift - d == days - 1 - shift;
  }

  /** Counting sevens from the epoch, a Thursday, gives the weekday of the date. */
  lemma WeekdaysFollowTheCalendar(n: int)
    ensures WeekdayOfDate(CivilFromUnixDays(n)) == (n + 3) % 7
  {
    hide CivilFromUnixDays, UnixDaysFromCivil;
    DaysRoundTrip(n);
    var d := CivilFromUnixDays(n);
    var y := if d.month <= 2 then d.year - 1 else d.year;
    DayNumber(d);
    MonthShift(d.month, d.day);
    var shift := [0, 3, 2, 5, 0, 3, 5, 1, 4, 6, 2, 4][d.month - 1];
    var x := y + y / 4 - y / 100 + y / 400 + shift + d.day + 6;
    var rest := DayOfYear(d.month, d.day) - shift - d.day;
    SameWeekday(n + 3, x, 52 * y + (rest - 4) / 7 - 102_781);
  }

  lemma SameWeekday(a: int, b: int, weeks: int)
    requires a == b + 7 * weeks
    ensures a % 7 == b % 7
  {
    DivisionIsUnique(a, 7, b / 7 + weeks, b % 7);
  }

  lemma EpochIsDayZero()
    ensures CivilFromUnixDays(0) == Date(1970, 1, 1)
  {
    assert EraOfDay(719_468) == 4 && YearOfEra(135_080) == 369 && YearStart(369) == 134_774;
  }

  /** Day zero is 1 January 1970, and counting days is walking the calendar. Together with the
      round trips this fixes both conversions everywhere. */
  lemma DaysFollowTheCalendar(n: int)
    ensures CivilFromUnixDays(0) == Date(1970, 1, 1)
    ensures CivilFromUnixDays(n + 1) == NextDate(CivilFromUnixDays(n))
  {
    hide CivilFromUnixDays, UnixDaysFromCivil, IsLeap;
    EpochIsDayZero();
    DaysRoundTrip(n);
    var d := CivilFromUnixDays(n);
    DaysCountUp(d);
    DaysCountUp(Date(d.year, d.month, d.day + 1));
    MonthsAreContiguous(Date(d.year, d.month, 1));
    DateRoundTrip(NextDate(d));
  }
}
