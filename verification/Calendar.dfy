/** Dates and time values as ECMA-262 defines them (section 21.4.1), in whole milliseconds of UTC. */
module Calendar {

  const MS_PER_DAY: int := 86_400_000
  const MS_PER_HOUR: int := 3_600_000
  const MS_PER_MINUTE: int := 60_000

  function Day(t: int): int { t / MS_PER_DAY }

  predicate IsLeap(year: int) {
    year % 4 == 0 && (year % 100 != 0 || year % 400 == 0)
  }

  function DaysInYear(year: int): int { if IsLeap(year) then 366 else 365 }

  /** The day number of January 1. */
  function DayFromYear(year: int): int {
    365 * (year - 1970) + (year - 1969) / 4 - (year - 1901) / 100 + (year - 1601) / 400
  }

  lemma YearLength(year: int)
    ensures DayFromYear(year + 1) == DayFromYear(year) + DaysInYear(year)
  {
    Carry(year - 1969, 4);
    Carry(year - 1901, 100);
    Carry(year - 1601, 400);
  }

  lemma YearGrows(year: int)
    ensures DayFromYear(year) < DayFromYear(year + 1)
  {
    YearLength(year);
  }

  lemma Carry(x: int, n: int)
    requires n == 4 || n == 100 || n == 400
    ensures (x + 1) / n == x / n + if (x + 1) % n == 0 then 1 else 0
  {
  }

  /** The year that contains the day, looked for from `year` on. */
  function YearNear(day: int, year: int): (r: int)
    ensures DayFromYear(r) <= day < DayFromYear(r + 1)
    decreases day < DayFromYear(year), if day < DayFromYear(year) then DayFromYear(year) - day else day - DayFromYear(year)
  {
    hide DayFromYear;
    YearGrows(year);
    YearGrows(year - 1);
    if day < DayFromYear(year) then YearNear(day, year - 1)
    else if day >= DayFromYear(year + 1) then YearNear(day, year + 1)
    else year
  }

  function YearFromDay(day: int): (r: int)
    ensures DayFromYear(r) <= day < DayFromYear(r + 1)
  {
    YearNear(day, 1970)
  }

  lemma {:induction false} YearsApart(a: int, b: int)
    requires a <= b
    ensures DayFromYear(b) >= DayFromYear(a) + 365 * (b - a)
    decreases b - a
  {
    if a < b {
      YearsApart(a, b - 1);
      YearLength(b - 1);
    }
  }

  /** The year of a day is the only one that contains it. */
  lemma YearIsUnique(day: int, year: int)
    requires DayFromYear(year) <= day < DayFromYear(year + 1)
    ensures YearFromDay(day) == year
  {
    var found := YearFromDay(day);
    if found < year {
      YearsApart(found + 1, year);
    } else if found > year {
      YearsApart(year + 1, found);
    }
  }

  /** Days of the year before month `month`. */
  function DayFromMonth(month: int, leap: bool): int
    requires 0 <= month <= 12
  {
    var extra := if leap && month >= 2 then 1 else 0;
    [0, 31, 59, 90, 120, 151, 181, 212, 243, 273, 304, 334, 365][month] + extra
  }

  /** The month of a day of the year. */
  function MonthFrom(dayInYear: int, leap: bool, month: int): (r: int)
    requires 0 <= month < 12 && DayFromMonth(month, leap) <= dayInYear < DayFromMonth(12, leap)
    ensures 0 <= r < 12 && DayFromMonth(r, leap) <= dayInYear < DayFromMonth(r + 1, leap)
    decreases 12 - month
  {
    if dayInYear < DayFromMonth(month + 1, leap) then month else MonthFrom(dayInYear, leap, month + 1)
  }

  datatype Date = Date(year: int, month: int, date: int)

  function DateFromDay(day: int): (r: Date)
    ensures 0 <= r.month < 12 && 1 <= r.date <= 31
  {
    var year := YearFromDay(day);
    YearLength(year);
    var month := MonthFrom(day - DayFromYear(year), IsLeap(year), 0);
    Date(year, month, day - DayFromYear(year) - DayFromMonth(month, IsLeap(year)) + 1)
  }

  /** MakeDay: a month or a date out of range runs over into its neighbours. */
  function MakeDay(year: int, month: int, date: int): int {
    var y, m := year + month / 12, month % 12;
    DayFromYear(y) + DayFromMonth(m, IsLeap(y)) + date - 1
  }

  /** Taking a day apart and putting it together again, `more` days on, is counting `more` days on. */
  lemma MakeDayCounts(day: int, more: int)
    ensures var d := DateFromDay(day); MakeDay(d.year, d.month, d.date + more) == day + more
  {
    hide DayFromYear, DayFromMonth, IsLeap, YearFromDay, MonthFrom;
    var month := DateFromDay(day).month;
    assert month / 12 == 0 && month % 12 == month;
  }

  /** A proper date is what its day is taken apart into. */
  lemma DateRoundTrip(d: Date)
    requires 0 <= d.month < 12
    requires 1 <= d.date <= DayFromMonth(d.month + 1, IsLeap(d.year)) - DayFromMonth(d.month, IsLeap(d.year))
    ensures DateFromDay(MakeDay(d.year, d.month, d.date)) == d
  {
    hide DayFromYear, DayFromMonth, IsLeap, YearFromDay, MonthFrom;
    var day := MakeDay(d.year, d.month, d.date);
    YearLength(d.year);
    YearEnd(IsLeap(d.year));
    MonthsApart(d.month + 1, 12, IsLeap(d.year));
    MonthsApart(0, d.month, IsLeap(d.year));
    YearIsUnique(day, d.year);
    var month := DateFromDay(day).month;
    if month < d.month {
      MonthsApart(month + 1, d.month, IsLeap(d.year));
    } else if month > d.month {
      MonthsApart(d.month + 1, month, IsLeap(d.year));
    }
  }

  lemma YearEnd(leap: bool)
    ensures DayFromMonth(0, leap) == 0 && DayFromMonth(12, leap) == if leap then 366 else 365
  {
  }

  lemma {:induction false} MonthsApart(a: int, b: int, leap: bool)
    requires 0 <= a <= b <= 12
    ensures DayFromMonth(a, leap) <= DayFromMonth(b, leap)
    decreases b - a
  {
    if a < b {
      MonthsApart(a, b - 1, leap);
    }
  }

  /** Sunday is 0. */
  function WeekDay(day: int): (r: int)
    ensures 0 <= r < 7
  {
    (day + 4) % 7
  }

  function HourFromTime(t: int): int { t / MS_PER_HOUR % 24 }

  function MinuteFromTime(t: int): int { t / MS_PER_MINUTE % 60 }

  /** Date.UTC: the two-digit years stand for the twentieth century. */
  function DateUtc(year: int, month: int, date: int, hour: int, minute: int): int {
    var full := if 0 <= year <= 99 then 1900 + year else year;
    MakeDay(full, month, date) * MS_PER_DAY + hour * MS_PER_HOUR + minute * MS_PER_MINUTE
  }
}
