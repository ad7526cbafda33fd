/** Calendar days as the cost ledger names them (src/cost/pricing.ts).
  *
  * The program leaves date arithmetic to the language's Date type, whose day numbers and year and month functions are
  * those of section 21.4.1 of ECMA-262. A day here is a day number: days since 1 January 1970. */
module Calendar {
  import opened Collections

  const MsPerDay := 86_400_000
  const EightHours := 28_800_000

  /** The largest time value, and the day numbers it spans. */
  const MaxTime := 8_640_000_000_000_000
  const MaxDay := 100_000_000

  datatype Date = Date(year: int, month: nat, day: nat)

  predicate IsLeap(year: int) {
    year % 4 == 0 && (year % 100 != 0 || year % 400 == 0)
  }

  function DaysInYear(year: int): nat {
    if IsLeap(year) then 366 else 365
  }

  /** The number of the first day of a year. */
  function DayFromYear(year: int): int {
    365 * (year - 1970) + (year - 1969) / 4 - (year - 1901) / 100 + (year - 1601) / 400
  }

  lemma FourthYears(x: int)
    ensures (x + 1) / 4 - x / 4 == if (x + 1) % 4 == 0 then 1 else 0
  {
  }

  lemma Centuries(x: int)
    ensures (x + 1) / 100 - x / 100 == if (x + 1) % 100 == 0 then 1 else 0
  {
  }

  lemma FourthCenturies(x: int)
    ensures (x + 1) / 400 - x / 400 == if (x + 1) % 400 == 0 then 1 else 0
  {
  }

  lemma SinceFourthYear(year: int)
    ensures (year - 1968) % 4 == 0 <==> year % 4 == 0
  {
  }

  lemma SinceCentury(year: int)
    ensures (year - 1900) % 100 == 0 <==> year % 100 == 0
  {
  }

  lemma SinceFourthCentury(year: int)
    ensures (year - 1600) % 400 == 0 <==> year % 400 == 0
  {
  }

  lemma CenturiesAreFourthYears(year: int)
    ensures year % 100 == 0 ==> year % 4 == 0
  {
    assert year == 100 * (year / 100) + year % 100;
  }

  lemma FourthCenturiesAreCenturies(year: int)
    ensures year % 400 == 0 ==> year % 100 == 0
  {
    assert year == 400 * (year / 400) + year % 400;
  }

  lemma YearLength(year: int)
    ensures DayFromYear(year + 1) == DayFromYear(year) + DaysInYear(year)
  {
    FourthYears(year - 1969);
    Centuries(year - 1901);
    FourthCenturies(year - 1601);
    SinceFourthYear(year);
    SinceCentury(year);
    SinceFourthCentury(year);
    CenturiesAreFourthYears(year);
    FourthCenturiesAreCenturies(year);
  }

  lemma {:induction false} YearsAscend(a: int, b: int)
    requires a < b
    ensures DayFromYear(a) + 365 * (b - a) <= DayFromYear(b)
    decreases b - a
  {
    YearLength(b - 1);
    if a < b - 1 {
      YearsAscend(a, b - 1);
    }
  }

  /** The year a day belongs to, searched from a guess. */
  function YearNear(day: int, guess: int): (year: int)
    ensures DayFromYear(year) <= day < DayFromYear(year + 1)
    decreases if day < DayFromYear(guess) then DayFromYear(guess) - day else day - DayFromYear(guess)
  {
    YearLength(guess);
    YearLength(guess - 1);
    if day < DayFromYear(guess) then
      if DayFromYear(guess - 1) <= day then guess - 1 else YearNear(day, guess - 1)
    else if DayFromYear(guess + 1) <= day then YearNear(day, guess + 1)
    else guess
  }

  function YearOf(day: int): int {
    YearNear(day, 1970)
  }

  /** Days before the first of a month, January being month 0. */
  function MonthStart(month: nat, leap: bool): nat {
    var extra := if leap && month >= 2 then 1 else 0;
    if month == 0 then 0
    else if month == 1 then 31
    else if month == 2 then 59 + extra
    else if month == 3 then 90 + extra
    else if month == 4 then 120 + extra
    else if month == 5 then 151 + extra
    else if month == 6 then 181 + extra
    else if month == 7 then 212 + extra
    else if month == 8 then 243 + extra
    else if month == 9 then 273 + extra
    else if month == 10 then 304 + extra
    else if month == 11 then 334 + extra
    else 365 + extra
  }

  /** The month of a day of the year. */
  function MonthOf(dayInYear: nat, leap: bool): (month: nat)
    requires dayInYear < (if leap then 366 else 365)
    ensures month < 12 && MonthStart(month, leap) <= dayInYear < MonthStart(month + 1, leap)
  {
    if dayInYear < MonthStart(1, leap) then 0
    else if dayInYear < MonthStart(2, leap) then 1
    else if dayInYear < MonthStart(3, leap) then 2
    else if dayInYear < MonthStart(4, leap) then 3
    else if dayInYear < MonthStart(5, leap) then 4
    else if dayInYear < MonthStart(6, leap) then 5
    else if dayInYear < MonthStart(7, leap) then 6
    else if dayInYear < MonthStart(8, leap) then 7
    else if dayInYear < MonthStart(9, leap) then 8
    else if dayInYear < MonthStart(10, leap) then 9
    else if dayInYear < MonthStart(11, leap) then 10
    else 11
  }

  /** A date that exists: months are 0 to 11, days start at 1. */
  predicate ValidDate(d: Date) {
    d.month < 12 && 1 <= d.day && MonthStart(d.month, IsLeap(d.year)) + d.day <= MonthStart(d.month + 1, IsLeap(d.year))
  }

  /** The day number of a date. A day of the month that does not exist counts on from the first, as the Date type does. */
  function DayNumber(year: int, month: nat, day: int): int {
    DayFromYear(year) + MonthStart(month, IsLeap(year)) + day - 1
  }

  function NumberOf(d: Date): int {
    DayNumber(d.year, d.month, d.day)
  }

  /** The date of a day number. */
  function DateOf(day: int): (d: Date)
    ensures ValidDate(d) && NumberOf(d) == day
  {
    var year := YearOf(day);
    YearLength(year);
    var dayInYear: nat := day - DayFromYear(year);
    var month := MonthOf(dayInYear, IsLeap(year));
    Date(year, month, dayInYear - MonthStart(month, IsLeap(year)) + 1)
  }

  predicate Earlier(a: Date, b: Date) {
    a.year < b.year || (a.year == b.year && (a.month < b.month || (a.month == b.month && a.day < b.day)))
  }

  lemma MonthsAscend(a: nat, b: nat, leap: bool)
    requires a < b <= 12
    ensures MonthStart(a, leap) < MonthStart(b, leap) && MonthStart(a + 1, leap) <= MonthStart(b, leap)
  {
  }

  lemma DateInYear(d: Date)
    requires ValidDate(d)
    ensures DayFromYear(d.year) <= NumberOf(d) < DayFromYear(d.year + 1)
  {
    YearLength(d.year);
    if d.month + 1 < 12 {
      MonthsAscend(d.month + 1, 12, IsLeap(d.year));
    }
  }

  lemma EarlierIsLess(a: Date, b: Date)
    requires ValidDate(a) && ValidDate(b) && Earlier(a, b)
    ensures NumberOf(a) < NumberOf(b)
  {
    if a.year < b.year {
      DateInYear(a);
      DateInYear(b);
      if a.year + 1 < b.year {
        YearsAscend(a.year + 1, b.year);
      }
    } else if a.month < b.month {
      MonthsAscend(a.month, b.month, IsLeap(a.year));
    }
  }

  /** Dates order as their day numbers do, so a day has exactly one date. */
  lemma DatesAreChronological(a: Date, b: Date)
    requires ValidDate(a) && ValidDate(b)
    ensures Earlier(a, b) <==> NumberOf(a) < NumberOf(b)
    ensures NumberOf(a) == NumberOf(b) ==> a == b
  {
    if Earlier(a, b) {
      EarlierIsLess(a, b);
    } else if Earlier(b, a) {
      EarlierIsLess(b, a);
    }
  }
}
