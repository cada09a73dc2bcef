// The date picker's month grid (washnpress-mobile/src/components/calendar.tsx:48-59, 114-133).
module CalendarGrid {
  import opened Prelude
  import opened CivilDate

  // ------------------------------------------------------------- what the code asks

  // Date.UTC takes the years 0 to 99 for 1900 to 1999.
  function FullYear(year: int): int {
    if 0 <= year <= 99 then 1900 + year else year
  }

  function UtcDay(year: int, month: int, day: int): int {
    MakeDay(FullYear(year), month, day)
  }

  // Sunday is 0.
  function WeekDay(day: int): int {
    (day + 4) % 7
  }

  function DaysInMonth(year: int, month: int): int {
    DateOf(UtcDay(year, month + 1, 0)).day
  }

  // Monday first.
  function LeadingBlanks(year: int, month: int): int {
    (WeekDay(UtcDay(year, month, 1)) + 6) % 7
  }

  // The year is not padded here.
  function IsoText(year: nat, month: nat, day: nat): string {
    Padded(year, 1) + "-" + Padded(month + 1, 2) + "-" + Padded(day, 2)
  }

  predicate Given(bound: Option<string>) {
    bound.Some? && bound.value != ""
  }

  predicate Blocked(year: nat, month: nat, day: nat, minDate: Option<string>, maxDate: Option<string>) {
    var d := IsoText(year, month, day);
    (Given(minDate) && Before(d, minDate.value)) || (Given(maxDate) && Before(maxDate.value, d))
  }

  // Where the month buttons go, from a year and month.
  function Stepped(at: (int, int), delta: int): (int, int) {
    var next := at.1 + delta;
    if next < 0 then (at.0 - 1, 11)
    else if next > 11 then (at.0 + 1, 0)
    else (at.0, next)
  }

  // --------------------------------------------------------------- month lengths

  // The day before the first of the next month is the last of this one.
  lemma LastDayOfMonth(y: int, m: int)
    requires 0 <= m <= 11
    ensures MakeDay(y, m + 1, 0) == DayNumber(Date(y, m, MonthLength(y, m)))
    ensures MakeDay(y, m + 1, 1) == DayNumber(Date(y, m, 1)) + MonthLength(y, m)
  {
    DayNumberOfReal(Date(y, m, MonthLength(y, m)));
    DayNumberOfReal(Date(y, m, 1));
    if m == 11 {
      YearsAddUp(y);
      MonthsAddUp(y, 12);
    }
  }

  // The code's day count is the Gregorian length of the month.
  lemma DaysInMonthIsMonthLength(year: int, month: int)
    requires 0 <= month <= 11
    ensures DaysInMonth(year, month) == MonthLength(FullYear(year), month)
  {
    var y := FullYear(year);
    LastDayOfMonth(y, month);
    DateOfDayNumber(Date(y, month, MonthLength(y, month)));
  }

  lemma FirstOfMonthAfter(year: int, month: int)
    requires 0 <= month <= 11
    ensures var next := Stepped((year, month), 1);
            MakeDay(next.0, next.1, 1) == MakeDay(year, month, 1) + MonthLength(year, month)
  {
    LastDayOfMonth(year, month);
    var next := Stepped((year, month), 1);
    assert next.0 == year + (month + 1) / 12 && next.1 == (month + 1) % 12;
    assert next.0 + next.1 / 12 == next.0 && next.1 % 12 == next.1;
  }

  // Each month starts in the column after the one before it ends in.
  lemma NextMonthFollowsOn(year: int, month: int)
    requires year >= 100 && 0 <= month <= 11
    ensures var next := Stepped((year, month), 1);
            LeadingBlanks(next.0, next.1) == (LeadingBlanks(year, month) + DaysInMonth(year, month)) % 7
  {
    DaysInMonthIsMonthLength(year, month);
    var days, first := DaysInMonth(year, month), UtcDay(year, month, 1);
    FirstOfMonthAfter(year, month);
    ColumnsAddUp(first, days);
  }

  // ---------------------------------------------------------------------- the grid

  function Column(day: int): int {
    (WeekDay(day) + 6) % 7
  }

  lemma ColumnsAddUp(day: int, more: int)
    ensures Column(day + more) == (Column(day) + more) % 7
  {
  }

  method Grid(year: int, month: int) returns (cells: seq<Option<int>>)
    requires 0 <= month <= 11
    ensures var blanks, days := LeadingBlanks(year, month), DaysInMonth(year, month);
            && |cells| == blanks + days
            && forall i | 0 <= i < |cells| :: cells[i] == if i < blanks then None else Some(i - blanks + 1)
  {
    var blanks := LeadingBlanks(year, month);
    cells := seq(blanks, _ => None);
    var last := DaysInMonth(year, month);
    var d := 1;
    while d <= last
      invariant 1 <= d <= last + 1
      invariant |cells| == blanks + d - 1
      invariant forall i | 0 <= i < |cells| :: cells[i] == if i < blanks then None else Some(i - blanks + 1)
    {
      cells := cells + [Some(d)];
      d := d + 1;
    }
  }

  // The weekday of a date, Monday being 0, from its year, month and day alone: January and
  // February are counted with the year before.
  function CivilWeekday(date: Date): int
    requires 0 <= date.month <= 11
  {
    var y := if date.month < 2 then date.year - 1 else date.year;
    (y + y / 4 - y / 100 + y / 400 + WeekShift(date.month) + date.day) % 7
  }

  // How far into a week the days before each month reach.
  function WeekShift(month: int): int
    requires 0 <= month <= 11
  {
    [6, 2, 1, 4, 6, 2, 4, 0, 3, 5, 1, 3][month]
  }

  function NextDay(date: Date): Date
    requires Real(date)
  {
    if date.day < MonthLength(date.year, date.month) then Date(date.year, date.month, date.day + 1)
    else if date.month < 11 then Date(date.year, date.month + 1, 1)
    else Date(date.year + 1, 0, 1)
  }

  // It is the weekday: 1 January 1970 was a Thursday, and each day is followed by the next.
  lemma CivilWeekdayIsTheWeek(date: Date)
    requires Real(date)
    ensures CivilWeekday(Date(1970, 0, 1)) == 3
    ensures Real(NextDay(date)) && CivilWeekday(NextDay(date)) == (CivilWeekday(date) + 1) % 7
  {
    WeekdayOfNextDay(date, NextDay(date));
  }

  lemma WeekdayOfNextDay(date: Date, next: Date)
    requires Real(date) && next == NextDay(date)
    ensures Real(next) && CivilWeekday(next) == (CivilWeekday(date) + 1) % 7
  {
    NextDayNumber(date);
    ColumnIsCivilWeekday(date);
    ColumnIsCivilWeekday(next);
    ColumnsAddUp(DayNumber(date), 1);
  }

  lemma NextDayNumber(date: Date)
    requires Real(date)
    ensures Real(NextDay(date)) && DayNumber(NextDay(date)) == DayNumber(date) + 1
  {
    DayNumberOfReal(date);
    DayNumberOfReal(NextDay(date));
    if date.month == 11 {
      YearsAddUp(date.year);
      MonthsAddUp(date.year, 12);
      MonthsAddUp(date.year, 11);
    }
  }

  // Leap years up to and including y, however they are counted.
  lemma LeapYearsCounted(y: int)
    ensures LeapsBy(y) == LeapsBy(y - 1) + if IsLeap(y) then 1 else 0
  {
    LeapRule(y);
    FourthsBy(y);
    HundredthsBy(y);
    FourHundredthsBy(y);
  }

  function LeapsBy(y: int): int {
    y / 4 - y / 100 + y / 400
  }

  lemma FourthsBy(y: int)
    ensures y / 4 == (y - 1) / 4 + if y % 4 == 0 then 1 else 0
  {
  }

  lemma HundredthsBy(y: int)
    ensures y / 100 == (y - 1) / 100 + if y % 100 == 0 then 1 else 0
  {
  }

  lemma FourHundredthsBy(y: int)
    ensures y / 400 == (y - 1) / 400 + if y % 400 == 0 then 1 else 0
  {
  }

  lemma FirstOfYear(y: int)
    ensures DayFromYear(y) == 365 * (y - 1970) + LeapsBy(y - 1) - 477
  {
    assert (y - 1969) / 4 == (y - 1) / 4 - 492;
    assert (y - 1901) / 100 == (y - 1) / 100 - 19;
    assert (y - 1601) / 400 == (y - 1) / 400 - 4;
  }

  // January and February fall in the column the year before reckons with; the leap day of
  // their own year stands behind them.
  lemma ShiftIsMonthStart(month: int)
    requires 0 <= month <= 11
    ensures exists k :: WeekShift(month) == MonthStart(month) + (if month < 2 then 6 else 5) - 7 * k
  {
    var k := [0, 5, 9, 13, 17, 22, 26, 31, 35, 39, 44, 48][month];
    assert WeekShift(month) == MonthStart(month) + (if month < 2 then 6 else 5) - 7 * k;
  }

  lemma ColumnIsCivilWeekday(date: Date)
    requires Real(date)
    ensures Column(DayNumber(date)) == CivilWeekday(date)
  {
    var y := date.year;
    DayNumberOfReal(date);
    MonthsAddUp(y, date.month);
    FirstOfYear(y);
    LeapYearsCounted(y);
    ShiftIsMonthStart(date.month);
    var k :| WeekShift(date.month) == MonthStart(date.month) + (if date.month < 2 then 6 else 5) - 7 * k;
    var reckoned := if date.month < 2 then y - 1 else y;
    WholeWeeksApart(DayNumber(date) + 10, reckoned + LeapsBy(reckoned) + WeekShift(date.month) + date.day, 52 * y - 102789 + k);
  }

  lemma WholeWeeksApart(a: int, b: int, weeks: int)
    requires a == b + 7 * weeks
    ensures a % 7 == b % 7 && ((a - 6) % 7 + 6) % 7 == a % 7
  {
  }

  // The grid holds exactly the days that exist, each in the column of its true weekday.
  lemma DaysSitUnderTheirWeekday(year: int, month: int, d: int)
    requires year >= 100 && 0 <= month <= 11
    ensures Real(Date(year, month, d)) <==> 1 <= d <= DaysInMonth(year, month)
    ensures Real(Date(year, month, d)) ==> (LeadingBlanks(year, month) + d - 1) % 7 == CivilWeekday(Date(year, month, d))
    ensures 0 <= LeadingBlanks(year, month) <= 6
  {
    DaysInMonthIsMonthLength(year, month);
    if Real(Date(year, month, d)) {
      DayNumberOfReal(Date(year, month, d));
      DayNumberOfReal(Date(year, month, 1));
      ColumnsAddUp(UtcDay(year, month, 1), d - 1);
      ColumnIsCivilWeekday(Date(year, month, d));
    }
  }

  // The years 0 to 99 show the grid of 1900 to 1999.
  lemma FirstCenturyShowsTheTwentieth(year: int, month: int)
    requires 0 <= year <= 99 && 0 <= month <= 11
    ensures LeadingBlanks(year, month) == LeadingBlanks(1900 + year, month)
    ensures DaysInMonth(year, month) == DaysInMonth(1900 + year, month)
  {
  }

  // --------------------------------------------------------------- blocked days

  lemma {:induction false} FourFiguresNeedNoPadding(year: nat)
    requires 1000 <= year <= 9999
    ensures Padded(year, 1) == Padded(year, 4)
  {
    assert Padded(year / 10 / 10 / 10, 1) == Padded(year / 1000, 0);
    assert Padded(year / 10 / 10, 2) == Padded(year / 10 / 10, 0);
    assert Padded(year / 10, 3) == Padded(year / 10, 0);
  }

  predicate OutOfRange(date: Date, first: Option<Date>, last: Option<Date>) {
    || (first.Some? && DayNumber(date) < DayNumber(first.value))
    || (last.Some? && DayNumber(last.value) < DayNumber(date))
  }

  function BoundText(bound: Option<Date>): Option<string>
    requires bound.Some? ==> FourDigitYear(bound.value)
  {
    if bound.Some? then Some(Iso(bound.value)) else None
  }

  predicate FourDigitBound(bound: Option<Date>) {
    bound.Some? ==> FourDigitYear(bound.value)
  }

  predicate BlockedRightly(date: Date, first: Option<Date>, last: Option<Date>)
    requires Real(date) && date.year >= 0 && FourDigitBound(first) && FourDigitBound(last)
  {
    Blocked(date.year, date.month, date.day, BoundText(first), BoundText(last)) <==> OutOfRange(date, first, last)
  }

  // Without a bound, or with an empty one, no day of any year is blocked.
  lemma NoBoundBlocksNothing(year: nat, month: nat, day: nat, first: Option<string>, last: Option<string>)
    requires (first.Some? ==> first.value == "") && (last.Some? ==> last.value == "")
    ensures !Blocked(year, month, day, first, last)
  {
  }

  // For the years 1000 to 9999 a day is blocked exactly when it is before the first
  // allowed day or after the last.
  lemma BlockedIsOutOfRange(date: Date, first: Option<Date>, last: Option<Date>)
    requires Real(date) && 1000 <= date.year <= 9999
    requires FourDigitBound(first) && FourDigitBound(last)
    ensures BlockedRightly(date, first, last)
  {
    FourFiguresNeedNoPadding(date.year);
    assert IsoText(date.year, date.month, date.day) == Iso(date);
    if first.Some? {
      IsoParts(first.value);
      IsoOrderIsDateOrder(date, first.value);
    }
    if last.Some? {
      IsoParts(last.value);
      IsoOrderIsDateOrder(last.value, date);
    }
  }

  // The first four digits of a year.
  function LeadingFour(year: nat): (four: nat)
    ensures four <= 9999
    ensures year >= 1000 ==> four >= 1000
  {
    if year <= 9999 then year else LeadingFour(year / 10)
  }

  ghost predicate BlockedRightlyByAllBounds(date: Date)
    requires Real(date) && date.year >= 0
  {
    forall first, last | FourDigitBound(first) && FourDigitBound(last) :: BlockedRightly(date, first, last)
  }

  // A day of any year is blocked rightly by every pair of bounds exactly when its year has
  // four figures, or has more and begins 9999. Years below 1000 are written short, and all
  // other long years are read as if they ended at their fourth figure.
  lemma BlockedRightlyIffYearReadsRight(date: Date)
    requires Real(date) && date.year >= 0
    ensures BlockedRightlyByAllBounds(date) <==> date.year >= 1000 && (date.year > 9999 ==> LeadingFour(date.year) == 9999)
  {
    if date.year < 1000 {
      ShortYearIsBlockedByItself(date);
      assert !BlockedRightly(date, Some(date), Some(date));
    } else if date.year <= 9999 {
      forall first, last | FourDigitBound(first) && FourDigitBound(last) ensures BlockedRightly(date, first, last) {
        BlockedIsOutOfRange(date, first, last);
      }
    } else if LeadingFour(date.year) == 9999 {
      forall first, last | FourDigitBound(first) && FourDigitBound(last) ensures BlockedRightly(date, first, last) {
        LongYearIsBlocked(date, first, last);
      }
    } else {
      LongYearIsBlocked(date, Some(Date(9999, 0, 1)), None);
      assert !BlockedRightly(date, Some(Date(9999, 0, 1)), None);
    }
  }

  // Below 1000 the picker blocks a day that is its own first and last allowed day.
  lemma ShortYearIsBlockedByItself(date: Date)
    requires Real(date) && 0 <= date.year < 1000
    ensures Blocked(date.year, date.month, date.day, Some(Iso(date)), Some(Iso(date)))
  {
    var text, iso := IsoText(date.year, date.month, date.day), Iso(date);
    FourDigits(date.year);
    TwoDigits(date.year / 100);
    assert iso[0] == '0';
    if date.year == 0 {
      TwoDigits(0);
      assert text[0] == '0' && text[1] == '-' && iso[1] == '0';
      assert text[1..][0] == '-' && iso[1..][0] == '0';
    } else {
      FirstFigureIsNotZero(date.year, 1);
      assert text[0] == Padded(date.year, 1)[0];
    }
  }

  lemma {:induction false} FirstFigureIsNotZero(n: nat, width: nat)
    requires n >= 1 && width <= 1
    ensures Padded(n, width) != "" && '0' < Padded(n, width)[0]
  {
    if n >= 10 {
      FirstFigureIsNotZero(n / 10, 0);
    }
  }

  lemma {:induction false} LongYearFigures(n: nat, width: nat)
    requires n >= 10000 && width <= 1
    ensures |Padded(n, width)| > 4 && Padded(n, width)[..4] == Padded(LeadingFour(n), 4)
  {
    var front := Padded(n / 10, 0);
    assert Padded(n, width) == front + [Digit(n % 10)];
    if n / 10 <= 9999 {
      FourFiguresNeedNoPadding(n / 10);
      FourDigits(n / 10);
      assert Padded(n / 10, 1) == front;
    } else {
      LongYearFigures(n / 10, 0);
    }
  }

  // A year of more than four figures is compared by its first four, and is later than
  // every bound whose year is no more than those.
  lemma LongYearAgainst(date: Date, bound: Date)
    requires Real(date) && date.year > 9999 && FourDigitYear(bound)
    ensures var text := IsoText(date.year, date.month, date.day);
            && (Before(text, Iso(bound)) <==> LeadingFour(date.year) < bound.year)
            && (Before(Iso(bound), text) <==> bound.year <= LeadingFour(date.year))
  {
    var text, figures := IsoText(date.year, date.month, date.day), Padded(date.year, 1);
    LongYearFigures(date.year, 1);
    var four, rest := figures[..4], text[4..];
    PaddedIsDigits(date.year, 1);
    FourDigits(bound.year);
    FourDigitsInOrder(LeadingFour(date.year), bound.year);
    FourDigitsInOrder(bound.year, LeadingFour(date.year));
    assert text == four + rest && rest[0] == figures[4];
    var tail := "-" + MonthAndDay(bound);
    assert Iso(bound) == Padded(bound.year, 4) + tail;
    BeforeByParts(four, Padded(bound.year, 4), rest, tail);
    BeforeByParts(Padded(bound.year, 4), four, tail, rest);
  }

  lemma LongYearIsBlocked(date: Date, first: Option<Date>, last: Option<Date>)
    requires Real(date) && date.year > 9999 && FourDigitBound(first) && FourDigitBound(last)
    ensures Blocked(date.year, date.month, date.day, BoundText(first), BoundText(last)) <==>
            || (first.Some? && LeadingFour(date.year) < first.value.year)
            || (last.Some? && last.value.year <= LeadingFour(date.year))
    ensures OutOfRange(date, first, last) <==> last.Some?
  {
    if first.Some? {
      LongYearAgainst(date, first.value);
      IsoParts(first.value);
      DayNumbersAreOrdered(date, first.value);
    }
    if last.Some? {
      LongYearAgainst(date, last.value);
      IsoParts(last.value);
      DayNumbersAreOrdered(last.value, date);
    }
  }

  // ------------------------------------------------------------------- navigation

  function MonthsSinceYearZero(at: (int, int)): int {
    12 * at.0 + at.1
  }

  class CalendarModal {
    var year: int
    var month: int

    constructor (year: int, month: int)
      ensures (this.year, this.month) == (year, month)
    {
      this.year, this.month := year, month;
    }

    method Step(delta: int)
      modifies this
      ensures (year, month) == Stepped(old((year, month)), delta)
      ensures 0 <= old(month) <= 11 ==>
                0 <= month <= 11 &&
                (-1 <= delta <= 1 ==>
                   MonthsSinceYearZero((year, month)) == MonthsSinceYearZero(old((year, month))) + delta)
    {
      var next := month + delta;
      if next < 0 {
        month := 11;
        year := year - 1;
        return;
      }
      if next > 11 {
        month := 0;
        year := year + 1;
        return;
      }
      month := next;
    }
  }

  // A step moves by its own size exactly when it reaches no further than the month on
  // either side of the year.
  lemma StepMovesByDelta(at: (int, int), delta: int)
    requires 0 <= at.1 <= 11
    ensures 0 <= Stepped(at, delta).1 <= 11
    ensures MonthsSinceYearZero(Stepped(at, delta)) == MonthsSinceYearZero(at) + delta <==> -1 <= at.1 + delta <= 12
  {
  }

  function Walk(at: (int, int), deltas: seq<int>): (int, int) {
    if deltas == [] then at else Stepped(Walk(at, Init(deltas)), Last(deltas))
  }

  function Total(deltas: seq<int>): int {
    if deltas == [] then 0 else Total(Init(deltas)) + Last(deltas)
  }

  // Any walk of the two month buttons stays within the year's months and ends exactly as
  // far away as the presses add up to.
  lemma {:induction false} WalkMovesByTotal(at: (int, int), deltas: seq<int>)
    requires 0 <= at.1 <= 11
    requires forall i | 0 <= i < |deltas| :: deltas[i] == 1 || deltas[i] == -1
    ensures 0 <= Walk(at, deltas).1 <= 11
    ensures MonthsSinceYearZero(Walk(at, deltas)) == MonthsSinceYearZero(at) + Total(deltas)
  {
    if deltas != [] {
      WalkMovesByTotal(at, Init(deltas));
      StepMovesByDelta(Walk(at, Init(deltas)), Last(deltas));
    }
  }
}
