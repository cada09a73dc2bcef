// Days and civil dates of the proleptic Gregorian calendar, as section 21.4.1 of
// ECMA-262 defines them, and dates written as YYYY-MM-DD.
module CivilDate {
  import opened Prelude

  // ------------------------------------------------------------- days and years

  function DayFromYear(y: int): int {
    365 * (y - 1970) + (y - 1969) / 4 - (y - 1901) / 100 + (y - 1601) / 400
  }

  predicate IsLeap(y: int) {
    y % 4 == 0 && (y % 100 != 0 || y % 400 == 0)
  }

  function YearLength(y: int): int {
    if IsLeap(y) then 366 else 365
  }

  lemma YearsAddUp(y: int)
    ensures DayFromYear(y + 1) == DayFromYear(y) + YearLength(y)
  {
    FourthYears(y);
    HundredthYears(y);
    FourHundredthYears(y);
    LeapRule(y);
  }

  lemma LeapRule(y: int)
    ensures YearLength(y) ==
            365 + (if y % 4 == 0 then 1 else 0) - (if y % 100 == 0 then 1 else 0) + (if y % 400 == 0 then 1 else 0)
  {
    if y % 400 == 0 { assert y == 100 * (4 * (y / 400)); }
    if y % 100 == 0 { assert y == 4 * (25 * (y / 100)); }
  }

  lemma FourthYears(y: int)
    ensures (y + 1 - 1969) / 4 == (y - 1969) / 4 + if y % 4 == 0 then 1 else 0
  {
  }

  lemma HundredthYears(y: int)
    ensures (y + 1 - 1901) / 100 == (y - 1901) / 100 + if y % 100 == 0 then 1 else 0
  {
  }

  lemma FourHundredthYears(y: int)
    ensures (y + 1 - 1601) / 400 == (y - 1601) / 400 + if y % 400 == 0 then 1 else 0
  {
  }

  lemma {:induction false} YearsAreOrdered(y: int, z: int)
    requires y <= z
    ensures DayFromYear(z) >= DayFromYear(y) + 365 * (z - y)
    decreases z - y
  {
    if y < z {
      YearsAddUp(z - 1);
      YearsAreOrdered(y, z - 1);
    }
  }

  // The largest year that has begun by this day, looking upward from one that has.
  function YearFrom(y: int, day: int): (r: int)
    requires DayFromYear(y) <= day
    ensures DayFromYear(r) <= day < DayFromYear(r + 1)
    decreases day - DayFromYear(y)
  {
    YearsAddUp(y);
    if DayFromYear(y + 1) <= day then YearFrom(y + 1, day) else y
  }

  function YearFromDay(day: int): (r: int)
    ensures DayFromYear(r) <= day < DayFromYear(r + 1)
  {
    var start := if day >= 0 then 1970 + day / 366 else 1970 + day / 365;
    YearFrom(start, day)
  }

  lemma YearFromDayIsTheOnlyOne(y: int, day: int)
    requires DayFromYear(y) <= day < DayFromYear(y + 1)
    ensures YearFromDay(day) == y
  {
    var r := YearFromDay(day);
    if r < y {
      YearsAreOrdered(r + 1, y);
    } else if r > y {
      YearsAreOrdered(y + 1, r);
    }
  }

  // --------------------------------------------------------------------- months

  // Months count from 0, as in ECMA-262, until they are written.
  function MonthLength(y: int, m: int): int
    requires 0 <= m <= 11
  {
    if m == 1 then (if IsLeap(y) then 29 else 28)
    else if m == 3 || m == 5 || m == 8 || m == 10 then 30
    else 31
  }

  function DaysBeforeMonth(y: int, m: int): int
    requires 0 <= m <= 12
  {
    if m == 0 then 0 else DaysBeforeMonth(y, m - 1) + MonthLength(y, m - 1)
  }

  // Written out, so that month arithmetic needs no unrolling.
  function MonthStart(m: int): int
    requires 0 <= m <= 12
  {
    [0, 31, 59, 90, 120, 151, 181, 212, 243, 273, 304, 334, 365][m]
  }

  lemma {:induction false} MonthsAddUp(y: int, m: int)
    requires 0 <= m <= 12
    ensures DaysBeforeMonth(y, m) == MonthStart(m) + if m >= 2 && IsLeap(y) then 1 else 0
  {
    if m > 0 {
      MonthsAddUp(y, m - 1);
    }
  }

  function MonthFrom(y: int, m: int, dayInYear: int): (r: int)
    requires 0 <= m <= 11 && DaysBeforeMonth(y, m) <= dayInYear < YearLength(y)
    ensures 0 <= r <= 11 && DaysBeforeMonth(y, r) <= dayInYear < DaysBeforeMonth(y, r + 1)
    decreases 12 - m
  {
    if m < 11 && DaysBeforeMonth(y, m + 1) <= dayInYear then MonthFrom(y, m + 1, dayInYear)
    else
      MonthsAddUp(y, 12);
      m
  }

  // ----------------------------------------------------------------- civil dates

  datatype Date = Date(year: int, month: int, day: int)  // month 0..11

  predicate Real(date: Date) {
    0 <= date.month <= 11 && 1 <= date.day <= MonthLength(date.year, date.month)
  }

  // The day number of a year, month and day; months outside 0..11 carry into the year,
  // and days outside the month run on from it.
  function MakeDay(year: int, month: int, day: int): int {
    var y, m := year + month / 12, month % 12;
    DayFromYear(y) + DaysBeforeMonth(y, m) + day - 1
  }

  function DayNumber(date: Date): int {
    MakeDay(date.year, date.month, date.day)
  }

  function DateInYear(y: int, dayInYear: int): (date: Date)
    requires 0 <= dayInYear < YearLength(y)
    ensures Real(date) && date.year == y && DayInYear(date) == dayInYear
  {
    var m := MonthFrom(y, 0, dayInYear);
    Date(y, m, dayInYear - DaysBeforeMonth(y, m) + 1)
  }

  function DateOf(day: int): (date: Date)
    ensures Real(date)
  {
    var y := YearFromDay(day);
    YearsAddUp(y);
    DateInYear(y, day - DayFromYear(y))
  }

  lemma MonthsAreOrdered(y: int, m: int, n: int)
    requires 0 <= m < n <= 12
    ensures DaysBeforeMonth(y, m) + MonthLength(y, m) <= DaysBeforeMonth(y, n)
  {
    MonthsAddUp(y, m);
    MonthsAddUp(y, n);
  }

  // Days since the first of January.
  function DayInYear(date: Date): int
    requires Real(date)
  {
    DaysBeforeMonth(date.year, date.month) + date.day - 1
  }

  lemma DayNumberOfReal(date: Date)
    requires Real(date)
    ensures DayNumber(date) == DayFromYear(date.year) + DayInYear(date)
  {
    assert date.month / 12 == 0 && date.month % 12 == date.month;
  }

  lemma DayInYearFits(date: Date)
    requires Real(date)
    ensures 0 <= DayInYear(date) < YearLength(date.year)
  {
    MonthsAreOrdered(date.year, date.month, 12);
    MonthsAddUp(date.year, 12);
    MonthsAddUp(date.year, date.month);
  }

  lemma MonthFromIsTheOnlyOne(date: Date)
    requires Real(date)
    ensures 0 <= DayInYear(date) < YearLength(date.year)
    ensures MonthFrom(date.year, 0, DayInYear(date)) == date.month
  {
    DayInYearFits(date);
    var y, m, r := date.year, date.month, MonthFrom(date.year, 0, DayInYear(date));
    if r < m { MonthsAreOrdered(y, r, m); }
    if r > m { MonthsAreOrdered(y, m, r); }
  }

  lemma DateInYearIsTheOnlyOne(date: Date)
    requires Real(date)
    ensures 0 <= DayInYear(date) < YearLength(date.year)
    ensures DateInYear(date.year, DayInYear(date)) == date
  {
    MonthFromIsTheOnlyOne(date);
  }

  // Civil date to day number and back, and day number to civil date and back.
  lemma DateOfDayNumber(date: Date)
    requires Real(date)
    ensures DateOf(DayNumber(date)) == date
  {
    DayNumberOfReal(date);
    DateOfDay(DayNumber(date), date);
  }

  lemma DateOfDay(day: int, date: Date)
    requires Real(date) && day == DayFromYear(date.year) + DayInYear(date)
    ensures DateOf(day) == date
  {
    DayInYearFits(date);
    YearsAddUp(date.year);
    YearFromDayIsTheOnlyOne(date.year, day);
    DateInYearIsTheOnlyOne(date);
  }

  lemma DayNumberOfDate(day: int)
    ensures DayNumber(DateOf(day)) == day
  {
    DayNumberOfReal(DateOf(day));
  }

  predicate Earlier(a: Date, b: Date) {
    a.year < b.year || (a.year == b.year && (a.month < b.month || (a.month == b.month && a.day < b.day)))
  }

  // Day numbers are in date order.
  lemma DayNumbersAreOrdered(a: Date, b: Date)
    requires Real(a) && Real(b)
    ensures DayNumber(a) < DayNumber(b) <==> Earlier(a, b)
  {
    DateOfDayNumber(a);
    DateOfDayNumber(b);
    if Earlier(a, b) {
      EarlierIsBefore(a, b);
    } else if Earlier(b, a) {
      EarlierIsBefore(b, a);
    } else {
      assert a == b;
    }
  }

  lemma EarlierIsBefore(a: Date, b: Date)
    requires Real(a) && Real(b) && Earlier(a, b)
    ensures DayNumber(a) < DayNumber(b)
  {
    DayNumberOfReal(a);
    DayNumberOfReal(b);
    DayInYearFits(a);
    DayInYearFits(b);
    if a.year < b.year {
      YearsAddUp(a.year);
      YearsAreOrdered(a.year + 1, b.year);
    } else if a.month < b.month {
      MonthsAreOrdered(a.year, a.month, b.month);
    }
  }

  // ------------------------------------------------------------------ as text

  // A number in decimal, with zeros in front of it up to a width.
  function Padded(n: nat, width: nat): string {
    if n < 10 && width <= 1 then [Digit(n)]
    else Padded(n / 10, if width > 0 then width - 1 else 0) + [Digit(n % 10)]
  }

  lemma {:induction false} PaddedIsDigits(n: nat, width: nat)
    ensures |Padded(n, width)| >= width && |Padded(n, width)| >= 1
    ensures forall i | 0 <= i < |Padded(n, width)| :: IsDigit(Padded(n, width)[i])
  {
    if !(n < 10 && width <= 1) {
      PaddedIsDigits(n / 10, if width > 0 then width - 1 else 0);
    }
  }

  lemma TwoDigits(n: nat)
    requires n < 100
    ensures Padded(n, 2) == [Digit(n / 10), Digit(n % 10)]
  {
    assert Padded(n / 10, 1) == [Digit(n / 10)];
  }

  lemma FourDigits(n: nat)
    requires n < 10000
    ensures Padded(n, 4) == Padded(n / 100, 2) + Padded(n % 100, 2)
    ensures |Padded(n, 4)| == 4
  {
    TwoDigits(n / 100);
    TwoDigits(n % 100);
    assert n / 10 / 10 == n / 100 && n / 10 % 10 == n % 100 / 10 && n % 10 == n % 100 % 10;
    var front := Padded(n / 10 / 10, 2);
    assert Padded(n / 10, 3) == front + [Digit(n / 10 % 10)];
    assert Padded(n, 4) == front + [Digit(n / 10 % 10)] + [Digit(n % 10)];
  }

  // `a < b` on strings, character by character.
  predicate Before(a: string, b: string) {
    b != [] && (a == [] || a[0] < b[0] || (a[0] == b[0] && Before(a[1..], b[1..])))
  }

  lemma {:induction false} BeforeByParts(p: string, q: string, r: string, s: string)
    requires |p| == |q|
    ensures Before(p + r, q + s) <==> Before(p, q) || (p == q && Before(r, s))
  {
    if p == [] {
      assert p + r == r && q + s == s;
    } else {
      assert (p + r)[1..] == p[1..] + r && (q + s)[1..] == q[1..] + s;
      assert p == [p[0]] + p[1..] && q == [q[0]] + q[1..];
      BeforeByParts(p[1..], q[1..], r, s);
    }
  }

  lemma DigitsInOrder(m: int, n: int)
    requires 0 <= m <= 9 && 0 <= n <= 9
    ensures Digit(m) < Digit(n) <==> m < n
    ensures Digit(m) == Digit(n) <==> m == n
  {
  }

  lemma TwoDigitsInOrder(m: nat, n: nat)
    requires m < 100 && n < 100
    ensures Before(Padded(m, 2), Padded(n, 2)) <==> m < n
    ensures Padded(m, 2) == Padded(n, 2) <==> m == n
  {
    TwoDigits(m);
    TwoDigits(n);
    var p, q := Padded(m, 2), Padded(n, 2);
    DigitsInOrder(m / 10, n / 10);
    DigitsInOrder(m % 10, n % 10);
    assert p[1..] == [Digit(m % 10)] && q[1..] == [Digit(n % 10)];
    assert Before([Digit(m % 10)], [Digit(n % 10)]) <==> Digit(m % 10) < Digit(n % 10);
    assert p == q <==> p[0] == q[0] && p[1] == q[1];
    assert m == 10 * (m / 10) + m % 10 && n == 10 * (n / 10) + n % 10;
  }

  lemma FourDigitsInOrder(m: nat, n: nat)
    requires m < 10000 && n < 10000
    ensures Before(Padded(m, 4), Padded(n, 4)) <==> m < n
    ensures Padded(m, 4) == Padded(n, 4) <==> m == n
  {
    FourDigits(m);
    FourDigits(n);
    TwoDigitsInOrder(m / 100, n / 100);
    TwoDigitsInOrder(m % 100, n % 100);
    TwoDigits(m / 100);
    TwoDigits(n / 100);
    BeforeByParts(Padded(m / 100, 2), Padded(n / 100, 2), Padded(m % 100, 2), Padded(n % 100, 2));
    assert Padded(m, 4)[..2] == Padded(m / 100, 2) && Padded(m, 4)[2..] == Padded(m % 100, 2);
    assert Padded(n, 4)[..2] == Padded(n / 100, 2) && Padded(n, 4)[2..] == Padded(n % 100, 2);
  }

  predicate FourDigitYear(date: Date) {
    Real(date) && 0 <= date.year <= 9999
  }

  function MonthAndDay(date: Date): string
    requires FourDigitYear(date)
  {
    Padded(date.month + 1, 2) + "-" + Padded(date.day, 2)
  }

  function Iso(date: Date): string
    requires FourDigitYear(date)
  {
    Padded(date.year, 4) + "-" + MonthAndDay(date)
  }

  lemma JoinedInOrder(p: string, q: string, r: string, s: string)
    requires |p| == |q|
    ensures Before(p + "-" + r, q + "-" + s) <==> Before(p, q) || (p == q && Before(r, s))
    ensures p + "-" + r == q + "-" + s <==> p == q && r == s
  {
    var a, b := p + "-" + r, q + "-" + s;
    assert a == p + ("-" + r) && b == q + ("-" + s);
    BeforeByParts(p, q, "-" + r, "-" + s);
    BeforeByParts("-", "-", r, s);
    assert a[..|p|] == p && a[|p| + 1..] == r && b[..|q|] == q && b[|q| + 1..] == s;
  }

  // Dates written this way are in string order exactly when they are in date order.
  lemma IsoOrderIsDateOrder(a: Date, b: Date)
    requires FourDigitYear(a) && FourDigitYear(b)
    ensures Before(Iso(a), Iso(b)) <==> DayNumber(a) < DayNumber(b)
    ensures Iso(a) == Iso(b) <==> a == b
  {
    DayNumbersAreOrdered(a, b);
    IsoOrder(a, b);
  }

  lemma MonthAndDayOrder(a: Date, b: Date)
    requires FourDigitYear(a) && FourDigitYear(b)
    ensures Before(MonthAndDay(a), MonthAndDay(b)) <==> a.month < b.month || (a.month == b.month && a.day < b.day)
    ensures MonthAndDay(a) == MonthAndDay(b) <==> a.month == b.month && a.day == b.day
  {
    TwoDigits(a.month + 1);
    TwoDigits(b.month + 1);
    TwoDigitsInOrder(a.month + 1, b.month + 1);
    TwoDigitsInOrder(a.day, b.day);
    JoinedInOrder(Padded(a.month + 1, 2), Padded(b.month + 1, 2), Padded(a.day, 2), Padded(b.day, 2));
  }

  lemma IsoOrder(a: Date, b: Date)
    requires FourDigitYear(a) && FourDigitYear(b)
    ensures Before(Iso(a), Iso(b)) <==> Earlier(a, b)
    ensures Iso(a) == Iso(b) <==> a == b
  {
    FourDigits(a.year);
    FourDigits(b.year);
    FourDigitsInOrder(a.year, b.year);
    MonthAndDayOrder(a, b);
    JoinedInOrder(Padded(a.year, 4), Padded(b.year, 4), MonthAndDay(a), MonthAndDay(b));
  }

  lemma IsoParts(date: Date)
    requires FourDigitYear(date)
    ensures var s := Iso(date);
            && |s| == 10 && s[4] == '-' && s[7] == '-'
            && s[..4] == Padded(date.year, 4) && s[5..7] == Padded(date.month + 1, 2) && s[8..] == Padded(date.day, 2)
            && (forall i | 0 <= i < 10 && i != 4 && i != 7 :: IsDigit(s[i]))
  {
    FourDigits(date.year);
    TwoDigits(date.month + 1);
    TwoDigits(date.day);
    PaddedIsDigits(date.year, 4);
    PaddedIsDigits(date.month + 1, 2);
    PaddedIsDigits(date.day, 2);
    var s, y, m, d := Iso(date), Padded(date.year, 4), Padded(date.month + 1, 2), Padded(date.day, 2);
    assert forall i | 0 <= i < 10 ::
        s[i] == if i < 4 then y[i] else if i == 4 || i == 7 then '-' else if i < 7 then m[i - 5] else d[i - 8];
  }
}
