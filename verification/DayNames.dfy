/** The text of a calendar day, and the day arithmetic that goes through it (src/cost/pricing.ts).
  *
  * Days are stored, compared and subtracted as text. The text is the date part of the Date type's ISO form, section
  * 21.4.4.36 of ECMA-262: four year digits up to the year 9999, a sign and six digits outside. */
module DayNames {
  import opened Collections
  import opened Calendar

  // ---------------------------------------------------------------- text order

  /** The order the language gives two strings: by the first character that differs. */
  predicate Less(a: string, b: string) {
    if b == "" then false
    else if a == "" then true
    else if a[0] != b[0] then a[0] < b[0]
    else Less(a[1..], b[1..])
  }

  /** Texts of one length compare by their front, and by their back only when the fronts agree. */
  lemma {:induction false} LessByParts(a: string, b: string, c: string, d: string)
    requires |a| == |b|
    ensures Less(a + c, b + d) <==> Less(a, b) || (a == b && Less(c, d))
  {
    if a == "" {
      assert a + c == c && b + d == d;
    } else {
      assert (a + c)[1..] == a[1..] + c && (b + d)[1..] == b[1..] + d;
      LessByParts(a[1..], b[1..], c, d);
      assert a == [a[0]] + a[1..] && b == [b[0]] + b[1..];
    }
  }

  lemma {:induction false} LessIsTotal(a: string, b: string)
    ensures a == b || Less(a, b) || Less(b, a)
    ensures !(Less(a, b) && Less(b, a)) && !Less(a, a)
  {
    if a != "" && b != "" {
      LessIsTotal(a[1..], b[1..]);
      LessIsTotal(a[1..], a[1..]);
      assert a == [a[0]] + a[1..] && b == [b[0]] + b[1..];
    } else if a != "" {
      LessIsTotal(a[1..], a[1..]);
    }
  }

  lemma {:induction false} LessIsTransitive(a: string, b: string, c: string)
    requires Less(a, b) && Less(b, c)
    ensures Less(a, c)
  {
    if a != "" && a[0] == b[0] == c[0] {
      LessIsTransitive(a[1..], b[1..], c[1..]);
    }
  }

  // ---------------------------------------------------------------- digits

  function Power(width: nat): nat {
    if width == 0 then 1 else 10 * Power(width - 1)
  }

  function Digit(n: nat): char
    requires n < 10
  {
    ('0' as int + n) as char
  }

  function Digits(n: nat, width: nat): (text: string)
    ensures |text| == width
  {
    if width == 0 then "" else Digits(n / 10, width - 1) + [Digit(n % 10)]
  }

  function Parse(text: string): nat
    requires forall i :: 0 <= i < |text| ==> '0' <= text[i] <= '9'
  {
    if text == "" then 0 else 10 * Parse(text[..|text| - 1]) + (text[|text| - 1] as int - '0' as int)
  }

  lemma {:induction false} DigitsParse(n: nat, width: nat)
    requires n < Power(width)
    ensures forall i :: 0 <= i < width ==> '0' <= Digits(n, width)[i] <= '9'
    ensures Parse(Digits(n, width)) == n
  {
    if width > 0 {
      DigitsParse(n / 10, width - 1);
      assert Digits(n, width)[..width - 1] == Digits(n / 10, width - 1);
    }
  }

  lemma {:induction false} DigitsOrder(a: nat, b: nat, width: nat)
    requires a < Power(width) && b < Power(width)
    ensures Less(Digits(a, width), Digits(b, width)) <==> a < b
    ensures Digits(a, width) == Digits(b, width) <==> a == b
  {
    if width > 0 {
      DigitsOrder(a / 10, b / 10, width - 1);
      LessByParts(Digits(a / 10, width - 1), Digits(b / 10, width - 1), [Digit(a % 10)], [Digit(b % 10)]);
      assert Digits(a, width)[..width - 1] == Digits(a / 10, width - 1);
      assert Digits(b, width)[..width - 1] == Digits(b / 10, width - 1);
      assert Digits(a, width)[width - 1] == Digit(a % 10) && Digits(b, width)[width - 1] == Digit(b % 10);
    }
  }

  // ---------------------------------------------------------------- day names

  function YearText(year: int): string {
    if 0 <= year <= 9999 then Digits(year, 4)
    else if year < 0 then "-" + Digits(-year, 6)
    else "+" + Digits(year, 6)
  }

  /** The first ten characters of a date's ISO form. */
  function NameOf(d: Date): string {
    var text := YearText(d.year) + ("-" + (Digits(d.month + 1, 2) + ("-" + Digits(d.day, 2))));
    if |text| <= 10 then text else text[..10]
  }

  /** Four-digit years, the only ones whose name is the whole date. */
  predicate Plain(d: Date) {
    ValidDate(d) && 0 <= d.year <= 9999
  }

  lemma Powers()
    ensures Power(2) == 100 && Power(4) == 10000 && Power(6) == 1000000
  {
  }

  lemma MonthLength(d: Date)
    requires ValidDate(d)
    ensures d.day <= 31
  {
    var leap := IsLeap(d.year);
    assert MonthStart(d.month + 1, leap) <= MonthStart(d.month, leap) + 31;
  }

  /** A plain name, part by part. */
  lemma PlainName(d: Date)
    requires Plain(d)
    ensures NameOf(d) == Digits(d.year, 4) + ("-" + (Digits(d.month + 1, 2) + ("-" + Digits(d.day, 2))))
    ensures d.day <= 31
  {
    MonthLength(d);
  }

  lemma TwoParts(a: nat, b: nat, c: string, d: string, width: nat)
    requires a < Power(width) && b < Power(width)
    ensures Less(Digits(a, width) + ("-" + c), Digits(b, width) + ("-" + d)) <==> a < b || (a == b && Less(c, d))
  {
    DigitsOrder(a, b, width);
    LessByParts("-", "-", c, d);
    LessByParts(Digits(a, width), Digits(b, width), "-" + c, "-" + d);
  }

  /** Within a year the month and day text orders as month and day. */
  lemma MonthsOrder(a: nat, first: nat, b: nat, second: nat)
    requires a < 12 && b < 12 && first <= 31 && second <= 31
    ensures Less(Digits(a + 1, 2) + ("-" + Digits(first, 2)), Digits(b + 1, 2) + ("-" + Digits(second, 2)))
            <==> a < b || (a == b && first < second)
  {
    Powers();
    DigitsOrder(first, second, 2);
    TwoParts(a + 1, b + 1, Digits(first, 2), Digits(second, 2), 2);
  }

  lemma NamesOrderAsDates(a: Date, b: Date)
    requires Plain(a) && Plain(b)
    ensures Less(NameOf(a), NameOf(b)) <==> Earlier(a, b)
  {
    PlainName(a);
    PlainName(b);
    MonthsOrder(a.month, a.day, b.month, b.day);
    Powers();
    TwoParts(a.year, b.year, Digits(a.month + 1, 2) + ("-" + Digits(a.day, 2)),
             Digits(b.month + 1, 2) + ("-" + Digits(b.day, 2)), 4);
  }

  /** Among plain dates the text order is the calendar order, and a name names one date. */
  lemma NamesAreChronological(a: Date, b: Date)
    requires Plain(a) && Plain(b)
    ensures Less(NameOf(a), NameOf(b)) <==> NumberOf(a) < NumberOf(b)
    ensures NameOf(a) == NameOf(b) ==> a == b
  {
    NamesOrderAsDates(a, b);
    NamesOrderAsDates(b, a);
    DatesAreChronological(a, b);
    DatesAreChronological(b, a);
    LessIsTotal(NameOf(a), NameOf(b));
  }

  /** From the year 10000 on it is not: every such name sorts before every name of the year 1000 or later, though its
    * day is later. */
  lemma LaterYearsSortFirst(a: Date, b: Date)
    requires ValidDate(a) && 10000 <= a.year <= 275760 && Plain(b)
    ensures Less(NameOf(a), NameOf(b)) && NumberOf(b) < NumberOf(a)
  {
    PlainName(b);
    Powers();
    DatesAreChronological(a, b);
    DigitsParse(b.year, 4);
    assert NameOf(a)[0] == '+' && NameOf(b)[0] == Digits(b.year, 4)[0];
  }

  // ---------------------------------------------------------------- days of instants and day arithmetic

  /** The name of a day number; outside the Date type's range there is none, and asking for it throws. */
  function NameOfDay(day: int): Option<string> {
    if -MaxDay <= day <= MaxDay then Some(NameOf(DateOf(day))) else None
  }

  /** The Beijing day of an instant; None is the range error. */
  function CostDay(time: int): Option<string> {
    var shifted := time + EightHours;
    if -MaxTime <= shifted <= MaxTime then Some(NameOf(DateOf(shifted / MsPerDay))) else None
  }

  /** First millisecond of a Beijing day. */
  function DayStart(d: Date): int {
    NumberOf(d) * MsPerDay - EightHours
  }

  /** The digits of a day's name read back. */
  predicate IsDayName(name: string) {
    && |name| == 10 && name[4] == '-' && name[7] == '-'
    && (forall i :: 0 <= i < 10 && i != 4 && i != 7 ==> '0' <= name[i] <= '9')
    && Parse(name[5..7]) >= 1
    && ValidDate(Date(Parse(name[..4]), Parse(name[5..7]) - 1, Parse(name[8..])))
  }

  function ReadName(name: string): Date
    requires IsDayName(name)
  {
    Date(Parse(name[..4]), Parse(name[5..7]) - 1, Parse(name[8..]))
  }

  /** The Date type reads a year from 0 to 99 as one of the twentieth century. */
  function UtcYear(year: nat): nat {
    if year <= 99 then 1900 + year else year
  }

  function UtcDay(d: Date, days: int): int
    requires d.year >= 0
  {
    DayNumber(UtcYear(d.year), d.month, d.day - days)
  }

  /** The day a number of days before another. */
  function DaysBefore(name: string, days: nat): Option<string>
    requires IsDayName(name)
  {
    NameOfDay(UtcDay(ReadName(name), days))
  }

  /** Day of the week, Sunday being 0. */
  function WeekDay(day: int): nat {
    (day + 4) % 7
  }

  function WeekStart(name: string): Option<string>
    requires IsDayName(name)
  {
    WeekStartOf(ReadName(name))
  }

  function WeekStartOf(d: Date): Option<string>
    requires d.year >= 0
  {
    NameOfDay(UtcDay(d, (WeekDay(UtcDay(d, 0)) + 6) % 7))
  }

  function MonthStartName(name: string): string
    requires |name| == 10
  {
    name[..8] + "01"
  }

  const WindowDays := 60

  /** The oldest day that is still kept. */
  function WindowStart(now: int): Option<string> {
    var today := CostDay(now);
    if today.Some? && IsDayName(today.value) then DaysBefore(today.value, WindowDays - 1) else None
  }

  lemma NameParts(d: Date)
    requires Plain(d)
    ensures var name := NameOf(d);
            && |name| == 10 && name[..4] == Digits(d.year, 4) && name[4] == '-'
            && name[5..7] == Digits(d.month + 1, 2) && name[7] == '-' && name[8..] == Digits(d.day, 2)
            && name[..8] == Digits(d.year, 4) + ("-" + (Digits(d.month + 1, 2) + "-"))
  {
    PlainName(d);
  }

  predicate AreDigits(text: string) {
    forall i :: 0 <= i < |text| ==> '0' <= text[i] <= '9'
  }

  lemma PartsAreDigits(d: Date)
    requires Plain(d)
    ensures d.year < Power(4) && d.month + 1 < Power(2) && d.day < Power(2)
    ensures AreDigits(Digits(d.year, 4)) && AreDigits(Digits(d.month + 1, 2)) && AreDigits(Digits(d.day, 2))
    ensures Parse(Digits(d.year, 4)) == d.year && Parse(Digits(d.month + 1, 2)) == d.month + 1
    ensures Parse(Digits(d.day, 2)) == d.day
  {
    Powers();
    MonthLength(d);
    DigitsParse(d.year, 4);
    DigitsParse(d.month + 1, 2);
    DigitsParse(d.day, 2);
  }

  /** Reading the name of a plain date gives the date back. */
  lemma NamesReadBack(d: Date)
    requires Plain(d)
    ensures IsDayName(NameOf(d)) && ReadName(NameOf(d)) == d
  {
    NameParts(d);
    PartsAreDigits(d);
    var name := NameOf(d);
    forall i | 0 <= i < 10 && i != 4 && i != 7
      ensures '0' <= name[i] <= '9'
    {
      if i < 4 {
        assert name[i] == name[..4][i];
      } else if i < 7 {
        assert name[i] == name[5..7][i - 5];
      } else {
        assert name[i] == name[8..][i - 8];
      }
    }
  }

  /** An instant belongs to the day whose 24 Beijing hours hold it. */
  lemma CostDayHoldsInstant(time: int)
    requires CostDay(time).Some?
    ensures var d := DateOf((time + EightHours) / MsPerDay);
            && CostDay(time) == Some(NameOf(d)) && DayStart(d) <= time < DayStart(d) + MsPerDay
  {
  }

  /** An instant within eight hours of the end of time has no Beijing day, although it is a valid instant. */
  lemma CostDayFailsExactlyAtTheEnd(time: int)
    requires 0 <= time <= MaxTime
    ensures CostDay(time).None? <==> time > MaxTime - EightHours
  {
  }

  /** Subtracting days is exact, across months, years and leap days, exactly when the year is past 99. */
  lemma DaysBeforeIsExact(d: Date, days: nat)
    requires Plain(d)
    ensures IsDayName(NameOf(d)) && DaysBefore(NameOf(d), days) == NameOfDay(UtcDay(d, days))
    ensures UtcDay(d, days) == NumberOf(d) - days <==> d.year > 99
  {
    NamesReadBack(d);
    if d.year <= 99 {
      YearsAscend(d.year, 1900 + d.year);
    }
  }

  /** The Monday at or before a day: a whole number of weeks from the fifth of January 1970. */
  function MondayOf(day: int): (monday: int)
    ensures day - 6 <= monday <= day && WeekDay(monday) == 1 && (monday - 4) % 7 == 0
  {
    MondayIsMonday(day);
    day - (WeekDay(day) + 6) % 7
  }

  lemma MondayIsMonday(day: int)
    ensures (day - (day + 4 + 6) % 7 + 4) % 7 == 1 && ((day + 4) % 7 + 6) % 7 == (day + 4 + 6) % 7
    ensures (day - (day + 4 + 6) % 7 - 4) % 7 == 0
  {
    var week := (day + 10) / 7;
    assert day + 10 == 7 * week + (day + 10) % 7;
    assert day - (day + 10) % 7 + 4 == 7 * (week - 1) + 1;
    assert day - (day + 10) % 7 - 4 == 7 * (week - 2);
  }

  lemma WeekStartOfIsMonday(d: Date)
    requires d.year > 99
    ensures WeekStartOf(d) == NameOfDay(MondayOf(NumberOf(d)))
  {
    UtcDayCounts(d, 0);
    UtcDayCounts(d, (WeekDay(NumberOf(d)) + 6) % 7);
  }

  lemma UtcDayCounts(d: Date, days: int)
    requires d.year > 99
    ensures UtcDay(d, days) == NumberOf(d) - days
  {
  }

  /** The week starts on the Monday at or before the day. */
  lemma WeekStartIsMonday(d: Date)
    requires Plain(d) && d.year > 99
    ensures IsDayName(NameOf(d)) && WeekStart(NameOf(d)) == NameOfDay(MondayOf(NumberOf(d)))
  {
    NamesReadBack(d);
    WeekStartOfIsMonday(d);
  }

  lemma Reassociate(a: string, b: string, c: string)
    ensures (a + ("-" + (b + "-"))) + c == a + ("-" + (b + ("-" + c)))
  {
  }

  lemma NamePrefix(d: Date)
    requires Plain(d)
    ensures |NameOf(d)| == 10 && NameOf(d)[..8] == Digits(d.year, 4) + ("-" + (Digits(d.month + 1, 2) + "-"))
  {
    NameParts(d);
  }

  lemma NameSplits(d: Date)
    requires Plain(d)
    ensures |NameOf(d)| == 10 && NameOf(d) == NameOf(d)[..8] + Digits(d.day, 2)
  {
    NamePrefix(d);
    PlainName(d);
    Reassociate(Digits(d.year, 4), Digits(d.month + 1, 2), Digits(d.day, 2));
  }

  lemma FirstText()
    ensures Digits(1, 2) == "01"
  {
    assert Digits(0, 1) == Digits(0, 0) + ['0'];
  }

  /** The month starts on its own first day. */
  lemma MonthStartIsFirst(d: Date)
    requires Plain(d)
    ensures |NameOf(d)| == 10 && Plain(d.(day := 1)) && MonthStartName(NameOf(d)) == NameOf(d.(day := 1))
  {
    var first := d.(day := 1);
    NamePrefix(d);
    NamePrefix(first);
    NameSplits(first);
    FirstText();
  }

  // ---------------------------------------------------------------- how far names reach

  /** Every name has ten characters: of a year outside four digits the day is cut off. */
  lemma NameHasTen(d: Date)
    ensures |NameOf(d)| == 10
    ensures d.year > 9999 ==> NameOf(d) == "+" + Digits(d.year, 6) + "-" + Digits(d.month + 1, 2)
  {
    var text := YearText(d.year) + ("-" + (Digits(d.month + 1, 2) + ("-" + Digits(d.day, 2))));
    if d.year > 9999 {
      assert text == ("+" + Digits(d.year, 6) + "-" + Digits(d.month + 1, 2)) + ("-" + Digits(d.day, 2));
    }
  }

  /** A day has a name exactly within a hundred million days of 1970. */
  lemma NamedExactlyWhen(day: int)
    ensures NameOfDay(day) == if -100000000 <= day <= 100000000 then Some(NameOf(DateOf(day))) else None
  {
  }

  /** The window begins 59 days before today. */
  lemma WindowIsSixtyDays(now: int)
    requires CostDay(now).Some?
    requires var today := DateOf((now + EightHours) / MsPerDay); Plain(today) && today.year > 99
    ensures WindowStart(now) == NameOfDay(NumberOf(DateOf((now + EightHours) / MsPerDay)) - 59)
  {
    var today := DateOf((now + EightHours) / MsPerDay);
    CostDayHoldsInstant(now);
    DaysBeforeIsExact(today, 59);
  }
}
