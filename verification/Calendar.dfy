/**
 * Dates relative to a reference time, on the proleptic Gregorian calendar. Times are
 * milliseconds since 1970, days are whole days since then, as in section 21.4.1 of ECMA-262.
 */
module Calendar {
  const DAY_MS := 24 * 60 * 60 * 1000

  /** Month 1 to 12, day of the month from 1. */
  datatype Civil = Civil(year: int, month: int, day: int)

  function DayOf(t: int): int {
    t / DAY_MS
  }

  predicate Leap(y: int) {
    y % 4 == 0 && (y % 100 != 0 || y % 400 == 0)
  }

  function DaysInYear(y: int): int {
    if Leap(y) then 366 else 365
  }

  /** The day number of the first of January. */
  function DayFromYear(y: int): int {
    365 * (y - 1970) + (y - 1969) / 4 - (y - 1901) / 100 + (y - 1601) / 400
  }

  function DaysInMonth(leap: bool, m: int): int {
    if m == 2 then if leap then 29 else 28
    else if m == 4 || m == 6 || m == 9 || m == 11 then 30 else 31
  }

  /** Days of the year before month `m`; month 13 gives the length of the year. */
  function MonthStart(leap: bool, m: int): (n: int)
    requires 1 <= m <= 13
    ensures 28 * (m - 1) <= n
  {
    if m == 1 then 0 else MonthStart(leap, m - 1) + DaysInMonth(leap, m - 1)
  }

  lemma MonthsFillYear(leap: bool)
    ensures MonthStart(leap, 13) == if leap then 366 else 365
  {
    assert MonthStart(leap, 2) == 31;
    assert MonthStart(leap, 3) == if leap then 60 else 59;
    assert MonthStart(leap, 5) == if leap then 121 else 120;
    assert MonthStart(leap, 7) == if leap then 182 else 181;
    assert MonthStart(leap, 9) == if leap then 244 else 243;
    assert MonthStart(leap, 11) == if leap then 305 else 304;
  }

  predicate ValidDate(c: Civil) {
    1 <= c.month <= 12 && 1 <= c.day <= DaysInMonth(Leap(c.year), c.month)
  }

  function DayNumber(c: Civil): int
    requires 1 <= c.month <= 12
  {
    DayFromYear(c.year) + MonthStart(Leap(c.year), c.month) + c.day - 1
  }

  lemma FourYearStep(y: int)
    ensures (y - 1968) / 4 - (y - 1969) / 4 == if y % 4 == 0 then 1 else 0
  {
  }

  lemma HundredYearStep(y: int)
    ensures (y - 1900) / 100 - (y - 1901) / 100 == if y % 100 == 0 then 1 else 0
  {
  }

  lemma FourHundredYearStep(y: int)
    ensures (y - 1600) / 400 - (y - 1601) / 400 == if y % 400 == 0 then 1 else 0
  {
  }

  lemma CenturiesDivide(y: int)
    ensures y % 100 == 0 ==> y % 4 == 0
    ensures y % 400 == 0 ==> y % 100 == 0
  {
  }

  lemma YearLength(y: int)
    ensures DayFromYear(y + 1) == DayFromYear(y) + DaysInYear(y)
  {
    FourYearStep(y);
    HundredYearStep(y);
    FourHundredYearStep(y);
    CenturiesDivide(y);
  }

  lemma {:induction false} YearsOrdered(y: int, z: int)
    requires y <= z
    ensures DayFromYear(z) - DayFromYear(y) >= 365 * (z - y)
    decreases z - y
  {
    if y < z {
      YearsOrdered(y, z - 1);
      YearLength(z - 1);
    }
  }

  /** The year of a day, searched upwards from one that has begun by then. */
  function YearUp(day: int, y: int): (r: int)
    requires DayFromYear(y) <= day
    ensures DayFromYear(r) <= day < DayFromYear(r + 1)
    decreases day - DayFromYear(y)
  {
    YearLength(y);
    if day < DayFromYear(y + 1) then y else YearUp(day, y + 1)
  }

  function YearOf(day: int): (y: int)
    ensures DayFromYear(y) <= day < DayFromYear(y + 1)
  {
    var from := if day >= 0 then 1970 else 1970 + day;
    YearsOrdered(from, 1970);
    YearUp(day, from)
  }

  function MonthUp(leap: bool, dayOfYear: int, m: int): (r: int)
    requires 1 <= m <= 12 && MonthStart(leap, m) <= dayOfYear < MonthStart(leap, 13)
    ensures 1 <= r <= 12 && MonthStart(leap, r) <= dayOfYear < MonthStart(leap, r) + DaysInMonth(leap, r)
    decreases 12 - m
  {
    if m == 12 || dayOfYear < MonthStart(leap, m + 1) then m else MonthUp(leap, dayOfYear, m + 1)
  }

  function CivilOf(day: int): (c: Civil)
    ensures ValidDate(c) && DayNumber(c) == day
  {
    var y := YearOf(day);
    YearLength(y);
    MonthsFillYear(Leap(y));
    var dayOfYear := day - DayFromYear(y);
    var m := MonthUp(Leap(y), dayOfYear, 1);
    Civil(y, m, dayOfYear - MonthStart(Leap(y), m) + 1)
  }

  lemma {:induction false} MonthsOrdered(leap: bool, m: int, n: int)
    requires 1 <= m < n <= 13
    ensures MonthStart(leap, m) + DaysInMonth(leap, m) <= MonthStart(leap, n)
    decreases n
  {
    if m < n - 1 {
      MonthsOrdered(leap, m, n - 1);
    }
  }

  /** The day of the year, from 0, lies within its year. */
  lemma YearBounds(c: Civil)
    requires ValidDate(c)
    ensures DayFromYear(c.year) <= DayNumber(c) < DayFromYear(c.year + 1)
  {
    YearLength(c.year);
    MonthsFillYear(Leap(c.year));
    MonthsOrdered(Leap(c.year), c.month, 13);
  }

  lemma SameYear(y: int, z: int, day: int)
    requires DayFromYear(y) <= day < DayFromYear(y + 1) && DayFromYear(z) <= day < DayFromYear(z + 1)
    ensures y == z
  {
  }

  lemma SameMonth(leap: bool, m: int, n: int, dayOfYear: int)
    requires 1 <= m <= 12 && 1 <= n <= 12
    requires MonthStart(leap, m) <= dayOfYear < MonthStart(leap, m) + DaysInMonth(leap, m)
    requires MonthStart(leap, n) <= dayOfYear < MonthStart(leap, n) + DaysInMonth(leap, n)
    ensures m == n
  {
    if m < n {
      MonthsOrdered(leap, m, n);
    } else if n < m {
      MonthsOrdered(leap, n, m);
    }
  }

  /** Dates and day numbers correspond one to one: `CivilOf` promises one direction, this is the other. */
  lemma CivilRoundTrip(c: Civil)
    requires ValidDate(c)
    ensures CivilOf(DayNumber(c)) == c
  {
    SameDate(c, CivilOf(DayNumber(c)));
  }

  lemma SameDate(c: Civil, d: Civil)
    requires ValidDate(c) && ValidDate(d) && DayNumber(c) == DayNumber(d)
    ensures c == d
  {
    YearBounds(c);
    YearBounds(d);
    SameYear(c.year, d.year, DayNumber(c));
    SameMonth(Leap(c.year), c.month, d.month, DayNumber(c) - DayFromYear(c.year));
  }

  /* ---- anchors ---- */

  /** Day number 0 is 1 January 1970. */
  lemma EpochIsDayZero()
    ensures DayNumber(Civil(1970, 1, 1)) == 0 && CivilOf(0) == Civil(1970, 1, 1)
  {
    assert DayFromYear(1970) == 0 by {
      assert (1970 - 1969) / 4 == 0 && (1970 - 1901) / 100 == 0 && (1970 - 1601) / 400 == 0;
    }
    CivilRoundTrip(Civil(1970, 1, 1));
  }

  /** The lengths of the months, spelled out. */
  predicate LastOfMonth(c: Civil) {
    || (c.month in {1, 3, 5, 7, 8, 10, 12} && c.day == 31)
    || (c.month in {4, 6, 9, 11} && c.day == 30)
    || (c.month == 2 && c.day == if c.year % 400 == 0 || (c.year % 4 == 0 && c.year % 100 != 0) then 29 else 28)
  }

  /** The date of the next day. */
  function Tomorrow(c: Civil): Civil {
    if !LastOfMonth(c) then c.(day := c.day + 1)
    else if c.month < 12 then Civil(c.year, c.month + 1, 1) else Civil(c.year + 1, 1, 1)
  }

  /**
   * Consecutive day numbers are consecutive dates of the Gregorian calendar. With day 0 this
   * fixes the date of every day.
   */
  lemma NextDayIsTomorrow(day: int)
    ensures CivilOf(day + 1) == Tomorrow(CivilOf(day))
  {
    hide CivilOf, DayFromYear;
    var c := CivilOf(day);
    YearLength(c.year);
    MonthsFillYear(Leap(c.year));
    assert DayNumber(Tomorrow(c)) == day + 1;
    CivilRoundTrip(Tomorrow(c));
  }

  /* ---- the program's date operations ---- */

  /** Monday is 0. */
  function PyWeekday(day: int): (w: int)
    ensures 0 <= w < 7
  {
    ((day + 4) % 7 + 6) % 7
  }

  /** Years 0 to 99 mean 1900 to 1999, as in section 21.4.1.30 of ECMA-262. */
  function FullYear(y: int): int {
    if 0 <= y <= 99 then 1900 + y else y
  }

  /** `Date.UTC` of a calendar date; the month is in range wherever it is called. */
  function DateUtc(y: int, m: int, d: int): int
    requires 1 <= m <= 12
  {
    DayNumber(Civil(FullYear(y), m, d)) * DAY_MS
  }

  function ToMidnightUtc(t: int): int {
    var c := CivilOf(DayOf(t));
    DateUtc(c.year, c.month, c.day)
  }

  function AddDays(t: int, days: int): int {
    t + days * DAY_MS
  }

  /** The date the ISO text names. */
  function DateIso(t: int): Civil {
    CivilOf(DayOf(ToMidnightUtc(t)))
  }

  /** A recognised phrase; `Offset` stands for every fixed or counted number of days. */
  datatype Phrase =
    | Offset(days: int)
    | LastDay(weekday: int)
    | NextDay(weekday: int)
    | LastWeek | ThisWeek | NextWeek
    | LastMonth | ThisMonth | NextMonth

  function FirstOfMonth(t: int): int {
    var c := CivilOf(DayOf(t));
    DateUtc(c.year, c.month, 1)
  }

  /** Days from a reference day of weekday `dow` to the day a weekday phrase reaches. */
  function WeekdayShift(last: bool, target: int, dow: int): int {
    if last then
      var mod := ((dow - target - 7) % 7 + 7) % 7;
      if mod == 0 then -7 else mod
    else
      var mod := ((target - dow + 7) % 7 + 7) % 7;
      if mod == 0 then 7 else mod
  }

  /** The instant whose date a phrase stands for. */
  function Target(p: Phrase, t: int): int {
    match p
    case Offset(days) => AddDays(t, days)
    case LastDay(target) => AddDays(t, WeekdayShift(true, target, PyWeekday(DayOf(t))))
    case NextDay(target) => AddDays(t, WeekdayShift(false, target, PyWeekday(DayOf(t))))
    case LastWeek => AddDays(t, -(PyWeekday(DayOf(t)) + 7))
    case ThisWeek => AddDays(t, -PyWeekday(DayOf(t)))
    case NextWeek => AddDays(t, 7 - PyWeekday(DayOf(t)))
    case LastMonth => FirstOfMonth(AddDays(FirstOfMonth(t), -1))
    case ThisMonth => FirstOfMonth(t)
    case NextMonth => FirstOfMonth(AddDays(DateUtc(CivilOf(DayOf(t)).year, CivilOf(DayOf(t)).month, 28), 4))
  }

  function InferTemporalDate(p: Phrase, t: int): Civil {
    DateIso(Target(p, t))
  }

  /* ---- what they compute ---- */

  /** The years the two-digit rule leaves alone. */
  predicate PlainYear(y: int) {
    !(0 <= y <= 99)
  }

  /** 1 January 1970 was a Thursday, and every day is one weekday on. */
  lemma WeekdaysAre(day: int)
    ensures PyWeekday(0) == 3 && PyWeekday(day + 1) == if PyWeekday(day) == 6 then 0 else PyWeekday(day) + 1
  {
  }

  lemma DayOfMidnight(day: int)
    ensures DayOf(day * DAY_MS) == day
  {
  }

  lemma DayOfAdd(t: int, days: int)
    ensures DayOf(AddDays(t, days)) == DayOf(t) + days
  {
  }

  /** Every two-digit year has a namesake of the nineteen-hundreds with at least its months and days. */
  lemma FullYearValid(c: Civil)
    requires ValidDate(c) && 0 <= c.year <= 99
    ensures Civil(1900 + c.year, c.month, c.day) != c
    ensures ValidDate(Civil(1900 + c.year, c.month, c.day)) || c == Civil(0, 2, 29)
  {
  }

  /** 1900 has no 29th of February: asking for it gives the first of March. */
  lemma LeapDayOverflows()
    ensures DayNumber(Civil(1900, 2, 29)) == DayNumber(Civil(1900, 3, 1))
  {
  }

  /** The text names the day of its instant if and only if its year is not one of 0 to 99. */
  lemma DateIsoExact(t: int)
    ensures DateIso(t) == CivilOf(DayOf(t)) <==> PlainYear(CivilOf(DayOf(t)).year)
  {
    hide CivilOf, DayNumber;
    var c := CivilOf(DayOf(t));
    var full := Civil(FullYear(c.year), c.month, c.day);
    DayOfMidnight(DayNumber(full));
    if PlainYear(c.year) {
      CivilRoundTrip(c);
    } else {
      FullYearValid(c);
      if ValidDate(full) {
        CivilRoundTrip(full);
      } else {
        LeapDayOverflows();
        CivilRoundTrip(Civil(1900, 3, 1));
      }
    }
  }

  /** In the years 0 to 99 the text names the same date of the nineteen-hundreds instead. */
  lemma TwoDigitYears(t: int)
    ensures var c := CivilOf(DayOf(t));
            0 <= c.year <= 99 ==>
              DateIso(t) == if c == Civil(0, 2, 29) then Civil(1900, 3, 1) else Civil(1900 + c.year, c.month, c.day)
  {
    hide CivilOf, DayNumber;
    var c := CivilOf(DayOf(t));
    if 0 <= c.year <= 99 {
      var full := Civil(1900 + c.year, c.month, c.day);
      FullYearValid(c);
      DayOfMidnight(DayNumber(full));
      if c == Civil(0, 2, 29) {
        LeapDayOverflows();
        CivilRoundTrip(Civil(1900, 3, 1));
      } else {
        CivilRoundTrip(full);
      }
    }
  }

  /** A fixed or counted number of days is that many days on, exactly on plain years. */
  lemma OffsetExact(days: int, t: int)
    ensures var day := CivilOf(t / 86_400_000 + days);
            InferTemporalDate(Offset(days), t) == day <==> PlainYear(day.year)
  {
    hide CivilOf, InferTemporalDate;
    DayOfAdd(t, days);
    NamesExactly(Offset(days), t, DayOf(t) + days);
  }

  /** The Monday of the week of a day: the only one in the seven days up to it. */
  function MondayOf(day: int): (m: int)
    ensures PyWeekday(m) == 0 && m <= day <= m + 6
    ensures forall o :: PyWeekday(o) == 0 && o <= day <= o + 6 ==> o == m
  {
    day - PyWeekday(day)
  }

  /** A phrase names the day `day` of its instant if and only if that day's year is a plain one. */
  lemma NamesExactly(p: Phrase, t: int, day: int)
    requires DayOf(Target(p, t)) == day
    ensures InferTemporalDate(p, t) == CivilOf(day) <==> PlainYear(CivilOf(day).year)
  {
    hide CivilOf, DateIso, Target;
    DateIsoExact(Target(p, t));
  }

  /** This, last and next week give the Monday of the week, exactly when its year is a plain one. */
  lemma WeeksExact(t: int)
    ensures var m := MondayOf(DayOf(t));
            && (InferTemporalDate(ThisWeek, t) == CivilOf(m) <==> PlainYear(CivilOf(m).year))
            && (InferTemporalDate(LastWeek, t) == CivilOf(m - 7) <==> PlainYear(CivilOf(m - 7).year))
            && (InferTemporalDate(NextWeek, t) == CivilOf(m + 7) <==> PlainYear(CivilOf(m + 7).year))
  {
    hide CivilOf, InferTemporalDate;
    var m, dow := MondayOf(DayOf(t)), PyWeekday(DayOf(t));
    DayOfAdd(t, -dow);
    DayOfAdd(t, -(dow + 7));
    DayOfAdd(t, 7 - dow);
    NamesExactly(ThisWeek, t, m);
    NamesExactly(LastWeek, t, m - 7);
    NamesExactly(NextWeek, t, m + 7);
  }

  lemma WeekdayAfter(day: int, shift: int)
    ensures PyWeekday(day + shift) == (PyWeekday(day) + shift) % 7
  {
  }

  lemma NextShift(target: int, dow: int)
    requires 0 <= target < 7 && 0 <= dow < 7
    ensures var next := WeekdayShift(false, target, dow); 1 <= next <= 7 && (dow + next) % 7 == target
  {
  }

  lemma LastShift(target: int, dow: int)
    requires 0 <= target < 7 && 0 <= dow < 7
    ensures WeekdayShift(true, target, dow) == if dow == target then -7 else (dow - target) % 7
    ensures dow != target ==> (dow + (dow - target) % 7) % 7 != target
  {
    if dow < target {
      assert (dow - target) % 7 == dow - target + 7;
    } else {
      assert (dow - target) % 7 == dow - target;
    }
  }

  /** `next <weekday>` lands on that weekday one to seven days later. */
  lemma NextDayExact(target: int, t: int)
    requires 0 <= target < 7
    ensures var day := DayOf(t) + WeekdayShift(false, target, PyWeekday(DayOf(t)));
            && PyWeekday(day) == target && DayOf(t) + 1 <= day <= DayOf(t) + 7
            && (InferTemporalDate(NextDay(target), t) == CivilOf(day) <==> PlainYear(CivilOf(day).year))
  {
    hide CivilOf, InferTemporalDate, WeekdayShift;
    var dow := PyWeekday(DayOf(t));
    var shift := WeekdayShift(false, target, dow);
    NextShift(target, dow);
    WeekdayAfter(DayOf(t), shift);
    DayOfAdd(t, shift);
    NamesExactly(NextDay(target), t, DayOf(t) + shift);
  }

  /** Where `last <weekday>` goes from a day. */
  lemma LastDayReached(target: int, day: int)
    requires 0 <= target < 7
    ensures var reached := day + WeekdayShift(true, target, PyWeekday(day));
            && (PyWeekday(reached) == target <==> PyWeekday(day) == target)
            && reached == if PyWeekday(day) == target then day - 7 else day + (PyWeekday(day) - target) % 7
  {
    hide WeekdayShift, PyWeekday;
    var dow := PyWeekday(day);
    LastShift(target, dow);
    WeekdayAfter(day, WeekdayShift(true, target, dow));
    assert dow == target ==> (dow - 7) % 7 == dow;
  }

  /**
   * `last <weekday>` lands on that weekday if and only if the reference day is one, and then
   * a week earlier; on every other day it moves forward, by as many days as have passed since
   * that weekday, to another weekday.
   */
  lemma LastDayExact(target: int, t: int)
    requires 0 <= target < 7
    ensures var from, dow := DayOf(t), PyWeekday(DayOf(t));
            var day := if dow == target then from - 7 else from + (dow - target) % 7;
            && (PyWeekday(day) == target <==> dow == target)
            && (InferTemporalDate(LastDay(target), t) == CivilOf(day) <==> PlainYear(CivilOf(day).year))
  {
    hide CivilOf, InferTemporalDate, WeekdayShift, PyWeekday;
    var shift := WeekdayShift(true, target, PyWeekday(DayOf(t)));
    LastDayReached(target, DayOf(t));
    DayOfAdd(t, shift);
    NamesExactly(LastDay(target), t, DayOf(t) + shift);
  }

  function NextMonthOf(c: Civil): Civil {
    if c.month == 12 then Civil(c.year + 1, 1, 1) else Civil(c.year, c.month + 1, 1)
  }

  function PreviousMonthOf(c: Civil): Civil {
    if c.month == 1 then Civil(c.year - 1, 12, 1) else Civil(c.year, c.month - 1, 1)
  }

  /** The first of the month, in the year the two-digit rule makes of it. */
  lemma FirstExact(t: int)
    ensures var c := CivilOf(DayOf(t));
            var first := Civil(FullYear(c.year), c.month, 1);
            && DayOf(FirstOfMonth(t)) == DayNumber(first)
            && CivilOf(DayOf(FirstOfMonth(t))) == first
            && DateIso(FirstOfMonth(t)) == first
  {
    hide CivilOf, DayNumber;
    var c := CivilOf(DayOf(t));
    var first := Civil(FullYear(c.year), c.month, 1);
    DayOfMidnight(DayNumber(first));
    CivilRoundTrip(first);
    DateIsoExact(FirstOfMonth(t));
  }

  /** The day before the first of a month is the last of the previous one. */
  lemma DayBeforeFirst(c: Civil)
    requires 1 <= c.month <= 12
    ensures var p := CivilOf(DayNumber(Civil(c.year, c.month, 1)) - 1);
            p.year == PreviousMonthOf(c).year && p.month == PreviousMonthOf(c).month
  {
    hide CivilOf, DayFromYear, Leap;
    var p := PreviousMonthOf(c);
    var last := Civil(p.year, p.month, DaysInMonth(Leap(p.year), p.month));
    YearLength(p.year);
    MonthsFillYear(Leap(p.year));
    assert DayNumber(last) == DayNumber(Civil(c.year, c.month, 1)) - 1;
    CivilRoundTrip(last);
  }

  /** Four days after the 28th always lies in the next month, in leap years too. */
  lemma FourDaysAfter28th(c: Civil)
    requires 1 <= c.month <= 12
    ensures var n := CivilOf(DayNumber(Civil(c.year, c.month, 28)) + 4);
            n.year == NextMonthOf(c).year && n.month == NextMonthOf(c).month
  {
    hide CivilOf, DayFromYear, Leap;
    var n := NextMonthOf(c);
    var reached := Civil(n.year, n.month, 32 - DaysInMonth(Leap(c.year), c.month));
    YearLength(c.year);
    MonthsFillYear(Leap(c.year));
    assert DayNumber(reached) == DayNumber(Civil(c.year, c.month, 28)) + 4;
    CivilRoundTrip(reached);
  }

  /** The month phrases in full: the first of the right month, with every year taken under the two-digit rule. */
  lemma MonthsAre(t: int)
    ensures var c := CivilOf(DayOf(t));
            var full := Civil(FullYear(c.year), c.month, 1);
            var p, n := PreviousMonthOf(full), NextMonthOf(full);
            && InferTemporalDate(ThisMonth, t) == full
            && InferTemporalDate(LastMonth, t) == p.(year := FullYear(p.year))
            && InferTemporalDate(NextMonth, t) == n.(year := FullYear(n.year))
  {
    hide CivilOf, DayNumber, DateIso;
    var c := CivilOf(DayOf(t));
    var full := Civil(FullYear(c.year), c.month, 1);
    var first := FirstOfMonth(t);
    FirstExact(t);
    DayBeforeFirst(full);
    DayOfAdd(first, -1);
    FirstExact(AddDays(first, -1));
    var day28 := DateUtc(c.year, c.month, 28);
    DayOfMidnight(DayNumber(Civil(FullYear(c.year), c.month, 28)));
    FourDaysAfter28th(full);
    DayOfAdd(day28, 4);
    FirstExact(AddDays(day28, 4));
  }

  /** They are right if and only if neither the reference year nor the resulting year is one of 0 to 99. */
  lemma MonthsExact(t: int)
    ensures var c := CivilOf(DayOf(t));
            var p, n := PreviousMonthOf(c), NextMonthOf(c);
            && (InferTemporalDate(ThisMonth, t) == Civil(c.year, c.month, 1) <==> PlainYear(c.year))
            && (InferTemporalDate(LastMonth, t) == p <==> PlainYear(c.year) && PlainYear(p.year))
            && (InferTemporalDate(NextMonth, t) == n <==> PlainYear(c.year) && PlainYear(n.year))
  {
    hide CivilOf, InferTemporalDate;
    MonthsAre(t);
  }
}
