/**
 Civil dates of the proleptic Gregorian calendar as day numbers. Day 365 is
 1 January of year 1, a Monday; a weekday is a number from 0, Sunday, to 6, Saturday.
 */
module CivilDates {

  /** A date as the key of a map of holidays. */
  datatype Date = Day(number: int)

  const SUNDAY := 0
  const MONDAY := 1
  const THURSDAY := 4
  const SATURDAY := 6

  predicate IsLeap(year: int) {
    year % 4 == 0 && (year % 100 != 0 || year % 400 == 0)
  }

  /** The day number of 1 January. */
  function YearStart(year: int): int {
    365 * year + (year - 1) / 4 - (year - 1) / 100 + (year - 1) / 400
  }

  function YearLength(year: int): int {
    if IsLeap(year) then 366 else 365
  }

  lemma LeapQuarters(year: int)
    ensures year / 4 - (year - 1) / 4 == if year % 4 == 0 then 1 else 0
  {
  }

  lemma LeapCenturies(year: int)
    ensures year / 100 - (year - 1) / 100 == if year % 100 == 0 then 1 else 0
  {
  }

  lemma LeapEras(year: int)
    ensures year / 400 - (year - 1) / 400 == if year % 400 == 0 then 1 else 0
  {
  }

  lemma EraIsCentury(year: int)
    ensures year % 400 == 0 ==> year % 100 == 0
  {
  }

  lemma CenturyIsQuarter(year: int)
    ensures year % 100 == 0 ==> year % 4 == 0
  {
  }

  lemma NextYear(year: int)
    ensures YearStart(year + 1) == YearStart(year) + YearLength(year)
  {
    LeapQuarters(year);
    LeapCenturies(year);
    LeapEras(year);
    EraIsCentury(year);
    CenturyIsQuarter(year);
  }

  lemma {:induction false} YearStartGrows(year: int, later: int)
    requires year <= later
    ensures YearStart(year) + 365 * (later - year) <= YearStart(later)
    decreases later - year
  {
    if year < later {
      NextYear(year);
      YearStartGrows(year + 1, later);
    }
  }

  predicate InYear(date: int, year: int) {
    YearStart(year) <= date < YearStart(year + 1)
  }

  /** Days of the year before the month; month 13 is the January after. */
  function DaysBefore(year: int, month: int): int
    requires 1 <= month <= 13
  {
    var feb := if IsLeap(year) then 29 else 28;
    if month == 1 then 0
    else if month == 2 then 31
    else if month == 3 then 31 + feb
    else if month == 4 then 62 + feb
    else if month == 5 then 92 + feb
    else if month == 6 then 123 + feb
    else if month == 7 then 153 + feb
    else if month == 8 then 184 + feb
    else if month == 9 then 215 + feb
    else if month == 10 then 245 + feb
    else if month == 11 then 276 + feb
    else if month == 12 then 306 + feb
    else 337 + feb
  }

  function DaysIn(year: int, month: int): int
    requires 1 <= month <= 12
  {
    DaysBefore(year, month + 1) - DaysBefore(year, month)
  }

  /** April, June, September and November have 30 days, February 28 or 29, the other months 31. */
  lemma MonthLengths(year: int, month: int)
    requires 1 <= month <= 12
    ensures DaysIn(year, month) ==
            if month in {4, 6, 9, 11} then 30
            else if month == 2 then (if year % 4 == 0 && (year % 100 != 0 || year % 400 == 0) then 29 else 28)
            else 31
  {
  }

  /** A day beyond the month's last counts on into the months after, as time.Date does. */
  function DayNumber(year: int, month: int, day: int): int
    requires 1 <= month <= 13
  {
    YearStart(year) + DaysBefore(year, month) + day - 1
  }

  function Weekday(date: int): int {
    date % 7
  }

  predicate IsWeekend(date: int) {
    Weekday(date) == SATURDAY || Weekday(date) == SUNDAY
  }

  // ---------------------------------------------------------------- civil dates

  datatype Civil = Civil(year: int, month: int, day: int)

  predicate IsDate(c: Civil) {
    1 <= c.year && 1 <= c.month <= 12 && 1 <= c.day <= DaysIn(c.year, c.month)
  }

  function Number(c: Civil): int
    requires IsDate(c)
  {
    DayNumber(c.year, c.month, c.day)
  }

  lemma DateInItsYear(c: Civil)
    requires IsDate(c)
    ensures InYear(Number(c), c.year)
  {
    NextYear(c.year);
  }

  /** A date lies in one year only. */
  lemma OneYear(date: int, year: int, other: int)
    requires InYear(date, year) && InYear(date, other)
    ensures year == other
  {
  }

  /** Day numbers tell civil dates apart. */
  lemma NumbersAreUnique(a: Civil, b: Civil)
    requires IsDate(a) && IsDate(b) && Number(a) == Number(b)
    ensures a == b
  {
    DateInItsYear(a);
    DateInItsYear(b);
    OneYear(Number(a), a.year, b.year);
  }

  /** Every day number from year 1 on is a civil date. */
  lemma {:induction false} NumbersAreDates(date: int) returns (c: Civil)
    requires date >= YearStart(1)
    ensures IsDate(c) && Number(c) == date
    decreases date
  {
    if date == YearStart(1) {
      c := Civil(1, 1, 1);
    } else {
      var before := NumbersAreDates(date - 1);
      if before.day < DaysIn(before.year, before.month) {
        c := Civil(before.year, before.month, before.day + 1);
      } else if before.month < 12 {
        c := Civil(before.year, before.month + 1, 1);
      } else {
        c := Civil(before.year + 1, 1, 1);
        NextYear(before.year);
      }
    }
  }
}
