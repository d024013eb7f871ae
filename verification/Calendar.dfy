/** The C library's UTC calendar as the cron watcher uses it: gmtime, and timegm, which also takes a
    minute count that has run past 59. Years are counted from year 0, not from 1900. */
module Calendar {
  datatype Tm = Tm(sec: int, min: int, hour: int, mday: int, mon: int, year: int, wday: int)

  predicate IsLeap(year: int) {
    year % 4 == 0 && (year % 100 != 0 || year % 400 == 0)
  }

  /** Leap years up to and including `year`, counted from the start of the calendar. */
  function LeapsUpTo(year: int): int {
    year / 4 - year / 100 + year / 400
  }

  /** Days from 1970-01-01 to the first of January of `year`. */
  function DaysBeforeYear(year: int): int {
    365 * (year - 1970) + LeapsUpTo(year - 1) - LeapsUpTo(1969)
  }

  function YearLength(year: int): int {
    if IsLeap(year) then 366 else 365
  }

  lemma LeapsStep(year: int)
    ensures year / 4 == (year - 1) / 4 + if year % 4 == 0 then 1 else 0
    ensures year / 100 == (year - 1) / 100 + if year % 100 == 0 then 1 else 0
    ensures year / 400 == (year - 1) / 400 + if year % 400 == 0 then 1 else 0
  {
  }

  lemma Centuries(year: int)
    ensures year % 400 == 0 ==> year % 100 == 0
    ensures year % 100 == 0 ==> year % 4 == 0
  {
    assert year % 100 == 0 ==> year == 4 * (25 * (year / 100));
    assert year % 400 == 0 ==> year == 100 * (4 * (year / 400));
  }

  lemma NextYear(year: int)
    ensures DaysBeforeYear(year + 1) == DaysBeforeYear(year) + YearLength(year)
  {
    LeapsStep(year);
    Centuries(year);
  }

  /** Days of the year before month `mon`, counted from 0; month 12 is the year's end. */
  function DaysBeforeMonth(mon: int, leap: bool): int
    requires 0 <= mon <= 12
  {
    [0, 31, 59, 90, 120, 151, 181, 212, 243, 273, 304, 334, 365][mon] + if leap && mon > 1 then 1 else 0
  }

  function MonthLength(mon: int, leap: bool): int
    requires 0 <= mon < 12
  {
    DaysBeforeMonth(mon + 1, leap) - DaysBeforeMonth(mon, leap)
  }

  /** Days from 1970-01-01 to the given date. */
  function DayNumber(year: int, mon: int, mday: int): int
    requires 0 <= mon < 12
  {
    DaysBeforeYear(year) + DaysBeforeMonth(mon, IsLeap(year)) + mday - 1
  }

  /** timegm. */
  function TimeGm(tm: Tm): int
    requires 0 <= tm.mon < 12
  {
    86400 * DayNumber(tm.year, tm.mon, tm.mday) + 3600 * tm.hour + 60 * tm.min + tm.sec
  }

  function YearFrom(day: int, year: int): (r: int)
    requires DaysBeforeYear(year) <= day
    ensures DaysBeforeYear(r) <= day < DaysBeforeYear(r + 1)
    decreases day - DaysBeforeYear(year)
  {
    NextYear(year);
    if day < DaysBeforeYear(year + 1) then year else YearFrom(day, year + 1)
  }

  function YearOf(day: int): (r: int)
    ensures DaysBeforeYear(r) <= day < DaysBeforeYear(r + 1)
  {
    YearFrom(day, if day >= 0 then 1970 else 1970 + day / 365)
  }

  function MonthFrom(day: int, leap: bool, mon: int): (r: int)
    requires 0 <= mon < 12 && DaysBeforeMonth(mon, leap) <= day < DaysBeforeMonth(12, leap)
    ensures 0 <= r < 12 && DaysBeforeMonth(r, leap) <= day < DaysBeforeMonth(r + 1, leap)
    decreases 12 - mon
  {
    if day < DaysBeforeMonth(mon + 1, leap) then mon else MonthFrom(day, leap, mon + 1)
  }

  /** gmtime. 1970-01-01 was a Thursday. */
  function GmTime(t: int): Tm {
    var day, second := t / 86400, t % 86400;
    var year := YearOf(day);
    NextYear(year);
    var ofYear := day - DaysBeforeYear(year);
    var mon := MonthFrom(ofYear, IsLeap(year), 0);
    Tm(second % 60, second / 60 % 60, second / 3600, ofYear - DaysBeforeMonth(mon, IsLeap(year)) + 1, mon, year, (day + 4) % 7)
  }

  /** A date of the calendar and a time of day, with the right weekday. */
  predicate Proper(tm: Tm) {
    && 0 <= tm.sec < 60 && 0 <= tm.min < 60 && 0 <= tm.hour < 24 && 0 <= tm.mon < 12
    && 1 <= tm.mday <= MonthLength(tm.mon, IsLeap(tm.year))
    && tm.wday == (DayNumber(tm.year, tm.mon, tm.mday) + 4) % 7
  }

  /** timegm inverts gmtime, and gmtime gives proper dates. */
  lemma TimeGmOfGmTime(t: int)
    ensures Proper(GmTime(t)) && TimeGm(GmTime(t)) == t
  {
    hide DaysBeforeYear, DaysBeforeMonth, IsLeap;
  }

  lemma {:induction false} YearsAscend(a: int, b: int)
    requires a <= b
    ensures DaysBeforeYear(a) <= DaysBeforeYear(b)
    decreases b - a
  {
    if a < b {
      NextYear(b - 1);
      YearsAscend(a, b - 1);
    }
  }

  lemma YearIsUnique(day: int, a: int, b: int)
    requires DaysBeforeYear(a) <= day < DaysBeforeYear(a + 1)
    requires DaysBeforeYear(b) <= day < DaysBeforeYear(b + 1)
    ensures a == b
  {
    hide DaysBeforeYear;
    if a < b {
      YearsAscend(a + 1, b);
    } else if b < a {
      YearsAscend(b + 1, a);
    }
  }

  lemma {:induction false} MonthsAscend(a: int, b: int, leap: bool)
    requires 0 <= a <= b <= 12
    ensures DaysBeforeMonth(a, leap) <= DaysBeforeMonth(b, leap)
    decreases b - a
  {
    if a < b {
      MonthsAscend(a, b - 1, leap);
    }
  }

  /** gmtime inverts timegm: every proper date is the time of exactly one instant. */
  lemma GmTimeOfTimeGm(tm: Tm)
    requires Proper(tm)
    ensures GmTime(TimeGm(tm)) == tm
  {
    hide DaysBeforeYear, DaysBeforeMonth, IsLeap, LeapsUpTo;
    var leap, day := IsLeap(tm.year), DayNumber(tm.year, tm.mon, tm.mday);
    TimeOfDay(day, tm.hour, tm.min, tm.sec);
    YearStarts(tm.year);
    NextYear(tm.year);
    MonthsAscend(0, tm.mon, leap);
    MonthsAscend(tm.mon + 1, 12, leap);
    YearIsUnique(day, tm.year, YearOf(day));
    var other := GmTime(TimeGm(tm));
    if tm.mon < other.mon {
      MonthsAscend(tm.mon + 1, other.mon, leap);
    } else if other.mon < tm.mon {
      MonthsAscend(other.mon + 1, tm.mon, leap);
    }
  }

  lemma TimeOfDay(day: int, hour: int, min: int, sec: int)
    requires 0 <= hour < 24 && 0 <= min < 60 && 0 <= sec < 60
    ensures var second := 3600 * hour + 60 * min + sec; var t := 86400 * day + second;
      && t / 86400 == day && t % 86400 == second
      && second % 60 == sec && second / 60 % 60 == min && second / 3600 == hour
  {
    var second := 3600 * hour + 60 * min + sec;
    assert second / 60 == 60 * hour + min;
  }

  lemma YearStarts(year: int)
    ensures DaysBeforeMonth(0, IsLeap(year)) == 0 && DaysBeforeMonth(12, IsLeap(year)) == YearLength(year)
  {
  }
}
