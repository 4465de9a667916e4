/**
  The window of the monthly export: the first and the last instant of the n-th month before now,
  reached by stepping a local date with setDate and setMonth.
*/
module MonthlyWindow {

  /** A civil date: a day of a month, months counted through from January of year 0, twelve to a year. */
  datatype Date = Date(index: int, day: int) {

    /** getMonth, from 0. */
    function Month(): int {
      index % 12
    }
  }

  predicate IsLeap(year: int) {
    year % 4 == 0 && (year % 100 != 0 || year % 400 == 0)
  }

  function DaysIn(year: int, month: int): int
    requires 0 <= month < 12
  {
    if month == 1 then (if IsLeap(year) then 29 else 28)
    else if month in {3, 5, 8, 10} then 30 else 31
  }

  function DaysInIndex(index: int): int {
    DaysIn(index / 12, index % 12)
  }

  predicate Valid(d: Date) {
    1 <= d.day <= DaysInIndex(d.index)
  }

  /** Days of the proleptic Gregorian calendar before a month, counted month by month in either direction. */
  function MonthStart(index: int): int
    decreases if index < 0 then -index else index
  {
    if index > 0 then MonthStart(index - 1) + DaysInIndex(index - 1)
    else if index < 0 then MonthStart(index + 1) - DaysInIndex(index)
    else 0
  }

  function DayNumber(d: Date): int {
    MonthStart(d.index) + d.day - 1
  }

  /** The next month starts right after the last day of this one, across the end of a year too. */
  lemma MonthLength(index: int)
    ensures MonthStart(index + 1) == MonthStart(index) + DaysInIndex(index)
  {
  }

  /** The months by name, and February in leap years. */
  lemma MonthLengths(year: int, month: int)
    requires 0 <= month < 12
    ensures DaysInIndex(12 * year + month) ==
            [31, if year % 4 == 0 && (year % 100 != 0 || year % 400 == 0) then 29 else 28,
             31, 30, 31, 30, 31, 31, 30, 31, 30, 31][month]
  {
    assert (12 * year + month) / 12 == year && (12 * year + month) % 12 == month;
  }

  /** A year has 366 days if it is divisible by 4 and not by 100, or by 400; else 365. */
  lemma YearLength(year: int)
    ensures MonthStart(12 * (year + 1)) - MonthStart(12 * year) ==
            if year % 4 == 0 && (year % 100 != 0 || year % 400 == 0) then 366 else 365
  {
    MonthsFrom(year, 12);
  }

  function DaysThrough(year: int, months: nat): int
    requires months <= 12
  {
    [0, 31, 59, 90, 120, 151, 181, 212, 243, 273, 304, 334, 365][months]
    + if months > 1 && year % 4 == 0 && (year % 100 != 0 || year % 400 == 0) then 1 else 0
  }

  lemma {:induction false} MonthsFrom(year: int, months: nat)
    requires months <= 12
    ensures MonthStart(12 * year + months) == MonthStart(12 * year) + DaysThrough(year, months)
  {
    if months > 0 {
      MonthsFrom(year, months - 1);
      MonthLength(12 * year + months - 1);
      MonthLengths(year, months - 1);
    }
  }

  /** Days before a year in closed form. */
  lemma {:induction false} YearStart(year: int)
    ensures MonthStart(12 * year) == 365 * year + (year + 3) / 4 - (year + 99) / 100 + (year + 399) / 400
    decreases if year < 0 then -year else year
  {
    if year > 0 {
      YearStart(year - 1);
      NextYearStart(year - 1);
    } else if year < 0 {
      YearStart(year + 1);
      NextYearStart(year);
    }
  }

  lemma NextYearStart(year: int)
    ensures MonthStart(12 * (year + 1)) - MonthStart(12 * year) ==
            (365 * (year + 1) + (year + 4) / 4 - (year + 100) / 100 + (year + 400) / 400)
            - (365 * year + (year + 3) / 4 - (year + 99) / 100 + (year + 399) / 400)
  {
    YearLength(year);
    LeapCount(year);
  }

  lemma LeapCount(year: int)
    ensures (year + 4) / 4 - (year + 3) / 4 == if year % 4 == 0 then 1 else 0
    ensures (year + 100) / 100 - (year + 99) / 100 == if year % 100 == 0 then 1 else 0
    ensures (year + 400) / 400 - (year + 399) / 400 == if year % 400 == 0 then 1 else 0
    ensures year % 400 == 0 ==> year % 100 == 0
    ensures year % 100 == 0 ==> year % 4 == 0
  {
    FourYears(year);
    HundredYears(year);
    FourCenturies(year);
    Divides(year);
  }

  lemma FourYears(year: int)
    ensures (year + 4) / 4 - (year + 3) / 4 == if year % 4 == 0 then 1 else 0
  {
  }

  lemma HundredYears(year: int)
    ensures (year + 100) / 100 - (year + 99) / 100 == if year % 100 == 0 then 1 else 0
  {
  }

  lemma FourCenturies(year: int)
    ensures (year + 400) / 400 - (year + 399) / 400 == if year % 400 == 0 then 1 else 0
  {
  }

  lemma Divides(year: int)
    ensures year % 400 == 0 ==> year % 100 == 0
    ensures year % 100 == 0 ==> year % 4 == 0
  {
    if year % 400 == 0 {
      Hundreds(4 * (year / 400));
      assert year == 100 * (4 * (year / 400));
    }
    if year % 100 == 0 {
      Fours(25 * (year / 100));
      assert year == 4 * (25 * (year / 100));
    }
  }

  lemma Hundreds(q: int)
    ensures (100 * q) % 100 == 0
  {
  }

  lemma Fours(q: int)
    ensures (4 * q) % 4 == 0
  {
  }

  /** The Gregorian cycle. */
  lemma FourHundredYears(year: int)
    ensures MonthStart(12 * (year + 400)) - MonthStart(12 * year) == 146097
  {
    YearStart(year);
    YearStart(year + 400);
    CycleCounts(year);
  }

  lemma CycleCounts(year: int)
    ensures (year + 403) / 4 == (year + 3) / 4 + 100
    ensures (year + 499) / 100 == (year + 99) / 100 + 4
    ensures (year + 799) / 400 == (year + 399) / 400 + 1
  {
  }

  /** A Date object in local time, of which only the civil date matters here. */
  class LocalDate {
    var date: Date

    constructor (now: Date)
      ensures date == now
    {
      date := now;
    }

    method SetDate(day: nat)
      requires Valid(date) && day <= 31
      modifies this
      ensures date == MakeDate(old(date).index, day)
    {
      date := MakeDate(date.index, day);
    }

    /** Counts from January of the same year and keeps the day, which may carry into the month after. */
    method SetMonth(month: int)
      requires Valid(date)
      modifies this
      ensures date == MakeDate(old(date).index - old(date).Month() + month, old(date).day)
    {
      date := MakeDate(date.index - date.Month() + month, date.day);
    }
  }

  /** The date that lies day - 1 days after the first of a month, for the days a date can carry. */
  function MakeDate(index: int, day: nat): (d: Date)
    requires day <= 31
    ensures Valid(d)
    ensures DayNumber(d) == MonthStart(index) + day - 1
  {
    if day == 0 then
      MonthLength(index - 1);
      Date(index - 1, DaysInIndex(index - 1))
    else if day <= DaysInIndex(index) then Date(index, day)
    else
      MonthLength(index);
      Date(index + 1, day - DaysInIndex(index))
  }

  const DAY := 86400000

  function Instant(d: Date, msOfDay: int): int
    requires Valid(d)
  {
    DayNumber(d) * DAY + msOfDay
  }

  method FirstDayOfPreviousNMonth(now: Date, n: nat) returns (first: int)
    requires Valid(now)
    ensures first == MonthStart(now.index - n) * DAY
  {
    var date := new LocalDate(now);
    date.SetDate(1);
    date.SetMonth(date.date.Month() - n);
    first := Instant(date.date, 0);
  }

  /** Where setDate(0) and setMonth end up: the day of the previous month's end, carried n - 1 months back. */
  function LastDate(now: Date, n: nat): Date
    requires Valid(now)
  {
    MakeDate(now.index - n, DaysInIndex(now.index - 1))
  }

  method LastDayOfPreviousNMonth(now: Date, n: nat) returns (last: int)
    requires Valid(now)
    ensures last == Instant(LastDate(now, n), DAY - 1)
  {
    var date := new LocalDate(now);
    date.SetDate(0);
    date.SetMonth(date.date.Month() - (n - 1));
    last := Instant(date.date, DAY - 1);
  }

  lemma {:induction false} MonthStartsIncrease(a: int, b: int)
    requires a <= b
    ensures MonthStart(a) + 28 * (b - a) <= MonthStart(b)
    decreases b - a
  {
    if a < b {
      MonthStartsIncrease(a, b - 1);
      MonthLength(b - 1);
    }
  }

  /** A date lies between the start of its month and the start of the next. */
  lemma DateInItsMonth(d: Date)
    requires Valid(d)
    ensures MonthStart(d.index) <= DayNumber(d) < MonthStart(d.index + 1)
  {
    MonthLength(d.index);
  }

  /** A day span from the start of one month to the start of the next holds the dates of that month and no other. */
  lemma SpanOfMonth(index: int, d: Date, msOfDay: int)
    requires Valid(d) && 0 <= msOfDay < DAY
    ensures MonthStart(index) * DAY <= Instant(d, msOfDay) < MonthStart(index + 1) * DAY <==> d.index == index
  {
    DateInItsMonth(d);
    if d.index < index {
      MonthStartsIncrease(d.index + 1, index);
    } else if d.index > index {
      MonthStartsIncrease(index + 1, d.index);
    }
  }

  /** The window of the cron (n = 1): for every now, exactly the instants of the previous calendar month. */
  lemma WindowIsPreviousMonth(now: Date, d: Date, msOfDay: int)
    requires Valid(now) && Valid(d) && 0 <= msOfDay < DAY
    ensures MonthStart(now.index - 1) * DAY <= Instant(d, msOfDay) <= Instant(LastDate(now, 1), DAY - 1)
            <==> d.index == now.index - 1
  {
    LastIsExact(now, 1);
    SpanOfMonth(now.index - 1, d, msOfDay);
    var next := MonthStart(now.index) * DAY;
    assert Instant(LastDate(now, 1), DAY - 1) + 1 == next;
    assert Instant(d, msOfDay) <= Instant(LastDate(now, 1), DAY - 1) <==> Instant(d, msOfDay) < next;
  }

  /**
    For any n: the last instant is the end of the month the first instant starts exactly when that
    month is as long as the previous one.  A shorter month is overrun, a longer one is cut.
  */
  lemma LastIsExact(now: Date, n: nat)
    requires Valid(now)
    ensures Instant(LastDate(now, n), DAY - 1) + 1 == MonthStart(now.index - n + 1) * DAY
            <==> DaysInIndex(now.index - n) == DaysInIndex(now.index - 1)
  {
    var target := now.index - n;
    MonthLength(target);
    var last, length := DayNumber(LastDate(now, n)), DaysInIndex(now.index - 1);
    assert last == MonthStart(target) + length - 1;
    EndOfDay(last, length, MonthStart(target), DaysInIndex(target));
  }

  lemma EndOfDay(last: int, length: int, start: int, days: int)
    requires last == start + length - 1
    ensures last * DAY + (DAY - 1) + 1 == (start + days) * DAY <==> days == length
  {
  }

  /** Consecutive windows tile the calendar: one ends a millisecond before the next begins. */
  lemma WindowsTile(now: Date, next: Date)
    requires Valid(now) && Valid(next) && next.index == now.index + 1
    ensures Instant(LastDate(now, 1), DAY - 1) + 1 == MonthStart(next.index - 1) * DAY
  {
    LastIsExact(now, 1);
  }
}
