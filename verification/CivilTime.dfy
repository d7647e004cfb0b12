/** The benchmark's time stamp: a civil date and time from seconds since the Epoch. */
module CivilTime {
  import opened Text
  import opened Digits

  predicate IsLeap(year: nat) {
    year % 4 == 0 && (year % 100 != 0 || year % 400 == 0)
  }

  function DaysInYear(year: nat): nat {
    if IsLeap(year) then 366 else 365
  }

  function DaysInMonth(year: nat, month: nat): nat
    requires 1 <= month <= 12
  {
    if month == 2 then (if IsLeap(year) then 29 else 28)
    else if month == 4 || month == 6 || month == 9 || month == 11 then 30
    else 31
  }

  datatype Date = Date(year: nat, month: nat, day: nat)
  datatype Moment = Moment(date: Date, hours: nat, minutes: nat, seconds: nat)

  // The Gregorian calendar from 1970 on.
  predicate IsDate(d: Date) {
    1970 <= d.year && 1 <= d.month <= 12 && 1 <= d.day <= DaysInMonth(d.year, d.month)
  }

  predicate IsMoment(m: Moment) {
    IsDate(m.date) && m.hours < 24 && m.minutes < 60 && m.seconds < 60
  }

  // ---- Counting days -------------------------------------------------------------------------

  function DaysBeforeYear(year: nat): nat
    requires 1970 <= year
  {
    if year == 1970 then 0 else DaysBeforeYear(year - 1) + DaysInYear(year - 1)
  }

  function DaysBeforeMonth(year: nat, month: nat): nat
    requires 1 <= month <= 13
  {
    if month == 1 then 0 else DaysBeforeMonth(year, month - 1) + DaysInMonth(year, month - 1)
  }

  function DayNumber(d: Date): nat
    requires IsDate(d)
  {
    DaysBeforeYear(d.year) + DaysBeforeMonth(d.year, d.month) + d.day - 1
  }

  lemma MonthsFillYear(year: nat)
    ensures DaysBeforeMonth(year, 13) == DaysInYear(year)
  {
    assert DaysBeforeMonth(year, 2) == 31;
    assert DaysBeforeMonth(year, 3) == 31 + DaysInMonth(year, 2);
    assert DaysBeforeMonth(year, 5) == DaysBeforeMonth(year, 3) + 61;
    assert DaysBeforeMonth(year, 7) == DaysBeforeMonth(year, 5) + 61;
    assert DaysBeforeMonth(year, 9) == DaysBeforeMonth(year, 7) + 62;
    assert DaysBeforeMonth(year, 11) == DaysBeforeMonth(year, 9) + 61;
    assert DaysBeforeMonth(year, 13) == DaysBeforeMonth(year, 11) + 61;
  }

  lemma {:induction false} MonthsGrow(year: nat, a: nat, b: nat)
    requires 1 <= a < b <= 13
    ensures DaysBeforeMonth(year, a) + DaysInMonth(year, a) <= DaysBeforeMonth(year, b)
  {
    if a < b - 1 {
      MonthsGrow(year, a, b - 1);
    }
  }

  lemma {:induction false} YearsGrow(a: nat, b: nat)
    requires 1970 <= a < b
    ensures DaysBeforeYear(a) + DaysInYear(a) <= DaysBeforeYear(b)
  {
    if a < b - 1 {
      YearsGrow(a, b - 1);
    }
  }

  lemma DayFitsYear(d: Date)
    requires IsDate(d)
    ensures DaysBeforeMonth(d.year, d.month) + d.day <= DaysInYear(d.year)
  {
    MonthsFillYear(d.year);
    MonthsGrow(d.year, d.month, 13);
  }

  predicate Earlier(a: Date, b: Date) {
    a.year < b.year || (a.year == b.year && (a.month < b.month || (a.month == b.month && a.day < b.day)))
  }

  /** Day numbers order dates, so no two dates share one. */
  lemma DayNumberIncreases(a: Date, b: Date)
    requires IsDate(a) && IsDate(b)
    ensures Earlier(a, b) <==> DayNumber(a) < DayNumber(b)
    ensures a == b <==> DayNumber(a) == DayNumber(b)
  {
    if Earlier(a, b) {
      EarlierIsSmaller(a, b);
    } else if Earlier(b, a) {
      EarlierIsSmaller(b, a);
    }
  }

  lemma EarlierIsSmaller(a: Date, b: Date)
    requires IsDate(a) && IsDate(b) && Earlier(a, b)
    ensures DayNumber(a) < DayNumber(b)
  {
    if a.year < b.year {
      DayFitsYear(a);
      YearsGrow(a.year, b.year);
    } else if a.month < b.month {
      MonthsGrow(a.year, a.month, b.month);
    }
  }

  // ---- The program ---------------------------------------------------------------------------

  method MonthLengths(year: nat) returns (lengths: seq<nat>)
    ensures |lengths| == 12
    ensures forall m :: 1 <= m <= 12 ==> lengths[m - 1] == DaysInMonth(year, m)
  {
    if year % 4 == 0 && (year % 100 != 0 || year % 400 == 0) {
      lengths := [31, 29, 31, 30, 31, 30, 31, 31, 30, 31, 30, 31];
    } else {
      lengths := [31, 28, 31, 30, 31, 30, 31, 31, 30, 31, 30, 31];
    }
  }

  method CivilDate(days: nat) returns (d: Date)
    ensures IsDate(d) && DayNumber(d) == days
  {
    var year := 1970;
    var remaining := days;
    while true
      invariant 1970 <= year && DaysBeforeYear(year) + remaining == days
      decreases remaining
    {
      var daysInYear := if year % 4 == 0 && (year % 100 != 0 || year % 400 == 0) then 366 else 365;
      if remaining < daysInYear {
        break;
      }
      remaining := remaining - daysInYear;
      year := year + 1;
    }
    var lengths := MonthLengths(year);
    ghost var dayOfYear := remaining;
    MonthsFillYear(year);
    var month := 1;
    for i := 0 to 12
      invariant month == i + 1
      invariant DaysBeforeMonth(year, month) + remaining == dayOfYear < DaysInYear(year)
    {
      if remaining < lengths[i] {
        break;
      }
      remaining := remaining - lengths[i];
      month := month + 1;
    }
    d := Date(year, month, remaining + 1);
  }

  method CivilMoment(secs: nat) returns (m: Moment)
    ensures IsMoment(m) && SecondsOf(m) == secs
  {
    var days := secs / 86400;
    var timeOfDay := secs % 86400;
    var hours := timeOfDay / 3600;
    var minutes := timeOfDay % 3600 / 60;
    var seconds := timeOfDay % 60;
    var date := CivilDate(days);
    m := Moment(date, hours, minutes, seconds);
  }

  method Timestamp(secs: nat) returns (text: string)
    ensures exists m :: IsMoment(m) && SecondsOf(m) == secs && text == Show(m)
  {
    var m := CivilMoment(secs);
    text := PrintPadded(m.date.year, Decimal, 4) + PrintPadded(m.date.month, Decimal, 2)
            + PrintPadded(m.date.day, Decimal, 2) + "-" + PrintPadded(m.hours, Decimal, 2)
            + PrintPadded(m.minutes, Decimal, 2) + PrintPadded(m.seconds, Decimal, 2);
    assert text == Show(m);
  }

  // ---- The standard formula ------------------------------------------------------------------

  function SecondsOf(m: Moment): nat
    requires IsMoment(m)
  {
    DayNumber(m.date) * 86400 + m.hours * 3600 + m.minutes * 60 + m.seconds
  }

  // Section 4.16 of IEEE Std 1003.1-2017, in its own terms: years since 1900, days since January 1.
  function PosixSeconds(sec: int, min: int, hour: int, yday: int, tmYear: int): int {
    sec + min * 60 + hour * 3600 + yday * 86400 + (tmYear - 70) * 31536000
    + ((tmYear - 69) / 4) * 86400 - ((tmYear - 1) / 100) * 86400 + ((tmYear + 299) / 400) * 86400
  }

  lemma {:induction false} LeapDaysCount(year: nat)
    requires 1970 <= year
    ensures DaysBeforeYear(year)
            == (year - 1970) * 365 + (year - 1969) / 4 - (year - 1901) / 100 + (year - 1601) / 400
  {
    if year > 1970 {
      LeapDaysCount(year - 1);
      LeapStep4(year);
      LeapStep100(year);
      LeapStep400(year);
      CenturiesAreMultiples(year - 1);
    }
  }

  lemma CenturiesAreMultiples(year: nat)
    ensures year % 400 == 0 ==> year % 100 == 0
    ensures year % 100 == 0 ==> year % 4 == 0
  {
    if year % 400 == 0 {
      assert year == 100 * (4 * (year / 400));
    }
    if year % 100 == 0 {
      assert year == 4 * (25 * (year / 100));
    }
  }

  // Each quotient steps up exactly when the year just completed is a multiple.
  lemma LeapStep4(year: nat)
    requires 1970 < year
    ensures (year - 1969) / 4 == (year - 1970) / 4 + if (year - 1) % 4 == 0 then 1 else 0
  {}

  lemma LeapStep100(year: nat)
    requires 1970 < year
    ensures (year - 1901) / 100 == (year - 1902) / 100 + if (year - 1) % 100 == 0 then 1 else 0
  {}

  lemma LeapStep400(year: nat)
    requires 1970 < year
    ensures (year - 1601) / 400 == (year - 1602) / 400 + if (year - 1) % 400 == 0 then 1 else 0
  {}

  /** The loops' notion of seconds is the standard's, leap-year rule and all. */
  lemma AgreesWithPosix(m: Moment)
    requires IsMoment(m)
    ensures SecondsOf(m) ==
            PosixSeconds(m.seconds, m.minutes, m.hours,
                         DaysBeforeMonth(m.date.year, m.date.month) + m.date.day - 1, m.date.year - 1900)
  {
    LeapDaysCount(m.date.year);
  }

  function SecondOfDay(m: Moment): nat {
    m.hours * 3600 + m.minutes * 60 + m.seconds
  }

  // Days first, then seconds.
  lemma DaysThenSeconds(a: nat, x: nat, b: nat, y: nat)
    requires x < 86400 && y < 86400
    ensures a * 86400 + x == b * 86400 + y <==> a == b && x == y
    ensures a * 86400 + x < b * 86400 + y <==> a < b || (a == b && x < y)
  {}

  lemma TimesAreUnique(h: nat, m: nat, s: nat, h': nat, m': nat, s': nat)
    requires h < 24 && m < 60 && s < 60 && h' < 24 && m' < 60 && s' < 60
    ensures h * 3600 + m * 60 + s < 86400
    ensures h * 3600 + m * 60 + s == h' * 3600 + m' * 60 + s' <==> h == h' && m == m' && s == s'
  {}

  lemma SecondsSplit(m: Moment)
    requires IsMoment(m)
    ensures SecondsOf(m) == DayNumber(m.date) * 86400 + SecondOfDay(m)
  {}

  /** Seconds determine the moment, so the time stamp is a function of the clock. */
  lemma MomentIsUnique(a: Moment, b: Moment)
    requires IsMoment(a) && IsMoment(b)
    ensures SecondsOf(a) == SecondsOf(b) <==> a == b
    ensures SecondsOf(a) < SecondsOf(b) <==>
            Earlier(a.date, b.date) || (a.date == b.date && SecondOfDay(a) < SecondOfDay(b))
  {
    DayNumberIncreases(a.date, b.date);
    TimesAreUnique(a.hours, a.minutes, a.seconds, b.hours, b.minutes, b.seconds);
    TimesAreUnique(b.hours, b.minutes, b.seconds, a.hours, a.minutes, a.seconds);
    SecondsSplit(a);
    SecondsSplit(b);
    DaysThenSeconds(DayNumber(a.date), SecondOfDay(a), DayNumber(b.date), SecondOfDay(b));
  }

  // ---- The printed form ----------------------------------------------------------------------

  function Show(m: Moment): string {
    PrintPadded(m.date.year, Decimal, 4) + PrintPadded(m.date.month, Decimal, 2)
    + PrintPadded(m.date.day, Decimal, 2) + "-" + PrintPadded(m.hours, Decimal, 2)
    + PrintPadded(m.minutes, Decimal, 2) + PrintPadded(m.seconds, Decimal, 2)
  }

  function ShowDate(d: Date): string {
    Fixed(d.year, 4) + (Fixed(d.month, 2) + Fixed(d.day, 2))
  }

  function ShowTime(m: Moment): string {
    Fixed(m.hours, 2) + (Fixed(m.minutes, 2) + Fixed(m.seconds, 2))
  }

  lemma ShowIsFixed(m: Moment)
    requires IsMoment(m) && m.date.year <= 9999
    ensures Show(m) == ShowDate(m.date) + ("-" + ShowTime(m)) && |Show(m)| == 15
  {
    assert Pow10(2) == 100 && Pow10(4) == 10000 by {
      assert Pow10(1) == 10 && Pow10(3) == 1000;
    }
    PaddedIsFixed(m.date.year, 4);
    PaddedIsFixed(m.date.month, 2);
    PaddedIsFixed(m.date.day, 2);
    PaddedIsFixed(m.hours, 2);
    PaddedIsFixed(m.minutes, 2);
    PaddedIsFixed(m.seconds, 2);
  }

  // Fixed-width fields compare like their numbers, the first difference deciding.
  lemma FieldOrders(a: nat, b: nat, w: nat, x: string, y: string)
    requires a < Pow10(w) && b < Pow10(w)
    requires a < b || (a == b && Before(x, y))
    ensures Before(Fixed(a, w) + x, Fixed(b, w) + y)
  {
    if a < b {
      FixedIncreasing(a, b, w);
    }
    BeforeExtends(Fixed(a, w), Fixed(b, w), x, y);
  }

  lemma ShowDateIncreases(a: Date, b: Date)
    requires IsDate(a) && IsDate(b) && b.year <= 9999 && Earlier(a, b)
    ensures Before(ShowDate(a), ShowDate(b))
  {
    assert Pow10(2) == 100 && Pow10(4) == 10000 by {
      assert Pow10(1) == 10 && Pow10(3) == 1000;
    }
    if a.year == b.year {
      if a.month == b.month {
        FixedIncreasing(a.day, b.day, 2);
      }
      FieldOrders(a.month, b.month, 2, Fixed(a.day, 2), Fixed(b.day, 2));
    }
    FieldOrders(a.year, b.year, 4, Fixed(a.month, 2) + Fixed(a.day, 2), Fixed(b.month, 2) + Fixed(b.day, 2));
  }

  lemma ShowTimeIncreases(a: Moment, b: Moment)
    requires IsMoment(a) && IsMoment(b) && SecondOfDay(a) < SecondOfDay(b)
    ensures Before(ShowTime(a), ShowTime(b))
  {
    assert Pow10(2) == 100 by {
      assert Pow10(1) == 10;
    }
    if a.hours == b.hours {
      if a.minutes == b.minutes {
        FixedIncreasing(a.seconds, b.seconds, 2);
      }
      FieldOrders(a.minutes, b.minutes, 2, Fixed(a.seconds, 2), Fixed(b.seconds, 2));
    }
    FieldOrders(a.hours, b.hours, 2, Fixed(a.minutes, 2) + Fixed(a.seconds, 2),
                Fixed(b.minutes, 2) + Fixed(b.seconds, 2));
  }

  /** Through the year 9999 time stamps have 15 characters and sort like the clock. */
  lemma TimestampsSort(a: Moment, b: Moment)
    requires IsMoment(a) && IsMoment(b) && b.date.year <= 9999 && SecondsOf(a) < SecondsOf(b)
    ensures |Show(a)| == |Show(b)| == 15 && Before(Show(a), Show(b))
  {
    MomentIsUnique(a, b);
    ShowIsFixed(a);
    ShowIsFixed(b);
    if Earlier(a.date, b.date) {
      ShowDateIncreases(a.date, b.date);
    } else {
      ShowTimeIncreases(a, b);
      BeforeExtends("-", "-", ShowTime(a), ShowTime(b));
    }
    BeforeExtends(ShowDate(a.date), ShowDate(b.date), "-" + ShowTime(a), "-" + ShowTime(b));
  }
}
