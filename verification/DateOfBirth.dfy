// A date of birth chosen as year, month and day
// (washnpress-mobile/src/contact-rules.ts:65-76).
module DateOfBirth {
  import opened Prelude
  import opened CivilDate

  const MS_PER_DAY: int := 86400000

  // How the engine reads a date-time string: a time in milliseconds, or NaN.
  type Parse = string -> Option<int>

  const MIDNIGHT := "T00:00:00.000Z"

  // What ECMA-262 fixes of it: a date-time string naming a day that exists is midnight
  // of that day. What an engine makes of any other string is left open.
  ghost predicate ReadsRealDates(parse: Parse) {
    forall date | FourDigitYear(date) :: parse(Iso(date) + "T00:00:00.000Z") == Some(DayNumber(date) * 86400000)
  }

  // There is such an engine: the one that rejects every other string.
  ghost predicate IsMidnightOf(s: string, date: Date) {
    FourDigitYear(date) && s == Iso(date) + MIDNIGHT
  }

  lemma OneDatePerText(s: string, a: Date, b: Date)
    requires IsMidnightOf(s, a) && IsMidnightOf(s, b)
    ensures a == b
  {
    IsoParts(a);
    IsoParts(b);
    assert s[..10] == Iso(a) && s[..10] == Iso(b);
    IsoOrderIsDateOrder(a, b);
  }

  ghost function StrictEngine(s: string): (time: Option<int>)
    ensures forall date | IsMidnightOf(s, date) :: time == Some(DayNumber(date) * MS_PER_DAY)
  {
    if read :| IsMidnightOf(s, read) then
      assert forall date | IsMidnightOf(s, date) :: date == read by {
        forall date | IsMidnightOf(s, date) ensures date == read { OneDatePerText(s, date, read); }
      }
      Some(DayNumber(read) * MS_PER_DAY)
    else None
  }

  lemma SomeEngineReadsRealDates()
    ensures ReadsRealDates(StrictEngine)
  {
    forall date | FourDigitYear(date) ensures StrictEngine(Iso(date) + MIDNIGHT) == Some(DayNumber(date) * MS_PER_DAY) {
      assert IsMidnightOf(Iso(date) + MIDNIGHT, date);
    }
  }

  // The date part of toISOString: years outside 0..9999 are signed, with six digits or more.
  function IsoDatePart(time: int): string {
    DatePart(DateOf(time / MS_PER_DAY))
  }

  function DatePart(date: Date): string
    requires Real(date)
  {
    if FourDigitYear(date) then Iso(date)
    else SignedYear(date.year) + ("-" + Padded(date.month + 1, 2) + "-" + Padded(date.day, 2))
  }

  function SignedYear(year: int): string {
    if year < 0 then "-" + Padded(-year, 6) else "+" + Padded(year, 6)
  }

  function FirstTen(s: string): string {
    if |s| <= 10 then s else s[..10]
  }

  function PadStart2(s: string): string {
    if |s| >= 2 then s else if |s| == 1 then "0" + s else "00"
  }

  predicate Chosen(field: Option<string>) {
    field.Some? && field.value != ""
  }

  const EARLIEST := "1900-01-01"

  function DateOfBirthFrom(
    parse: Parse, year: Option<string>, month: Option<string>, day: Option<string>, today: string): Option<string>
  {
    if !Chosen(year) || !Chosen(month) || !Chosen(day) then None
    else
      var iso := year.value + "-" + PadStart2(month.value) + "-" + PadStart2(day.value);
      var parsed := parse(iso + MIDNIGHT);
      if parsed.None? || FirstTen(IsoDatePart(parsed.value)) != iso then None
      else if !Before(iso, EARLIEST) && !Before(today, iso) then Some(iso)
      else None
  }

  // The three fields, as the digits of this date: the year in full, and the month and day
  // with or without their leading zero.
  predicate Spells(year: Option<string>, month: Option<string>, day: Option<string>, date: Date)
    requires FourDigitYear(date)
  {
    && year == Some(Padded(date.year, 4))
    && (month == Some(Padded(date.month + 1, 1)) || month == Some(Padded(date.month + 1, 2)))
    && (day == Some(Padded(date.day, 1)) || day == Some(Padded(date.day, 2)))
  }

  // Padding puts the zero in front of a single digit, and leaves two alone.
  lemma PaddingIsInFront(s: string, n: nat)
    requires s != "" && n <= 99
    ensures PadStart2(s) == Padded(n, 2) <==> s == Padded(n, 1) || s == Padded(n, 2)
    ensures Padded(n, 1) != ""
  {
    TwoDigits(n);
    if n < 10 {
      assert Padded(n, 1) == [Digit(n)] && Padded(n, 2) == "0" + [Digit(n)];
      assert PadStart2(s) == Padded(n, 2) && |s| == 1 ==> s[0] == PadStart2(s)[1];
    } else {
      assert Padded(n, 1) == Padded(n / 10, 0) + [Digit(n % 10)];
    }
  }

  lemma SpellsByPadding(year: Option<string>, month: Option<string>, day: Option<string>, date: Date)
    requires FourDigitYear(date)
    ensures Spells(year, month, day, date) <==>
            && year == Some(Padded(date.year, 4))
            && Chosen(month) && PadStart2(month.value) == Padded(date.month + 1, 2)
            && Chosen(day) && PadStart2(day.value) == Padded(date.day, 2)
    ensures Padded(date.year, 4) != ""
  {
    FourDigits(date.year);
    PaddedIsDigits(date.month + 1, 1);
    PaddedIsDigits(date.day, 1);
    TwoDigits(date.month + 1);
    TwoDigits(date.day);
    if Chosen(month) { PaddingIsInFront(month.value, date.month + 1); }
    if Chosen(day) { PaddingIsInFront(day.value, date.day); }
  }

  predicate InBounds(date: Date, today: Date) {
    DayNumber(Date(1900, 0, 1)) <= DayNumber(date) <= DayNumber(today)
  }

  // Whatever the three fields hold, the answer is a date exactly when they spell a day
  // that exists, from 1900-01-01 to today, and it is that day; and this whatever the
  // engine does with days that do not exist: reject them, or roll them over.
  lemma AcceptsExactlyRealDates(
    parse: Parse, year: Option<string>, month: Option<string>, day: Option<string>, today: Date, answer: string)
    requires ReadsRealDates(parse) && FourDigitYear(today)
    ensures DateOfBirthFrom(parse, year, month, day, Iso(today)) == Some(answer) <==>
            exists date | FourDigitYear(date) ::
              Spells(year, month, day, date) && InBounds(date, today) && answer == Iso(date)
  {
    if DateOfBirthFrom(parse, year, month, day, Iso(today)) == Some(answer) {
      AcceptedIsReal(parse, year, month, day, today, answer);
    }
    if date :| FourDigitYear(date) && Spells(year, month, day, date) && InBounds(date, today) && answer == Iso(date) {
      RealIsAccepted(parse, year, month, day, today, date);
    }
  }

  lemma AcceptedIsReal(
    parse: Parse, year: Option<string>, month: Option<string>, day: Option<string>, today: Date, answer: string)
    requires FourDigitYear(today) && DateOfBirthFrom(parse, year, month, day, Iso(today)) == Some(answer)
    ensures exists date | FourDigitYear(date) ::
              Spells(year, month, day, date) && InBounds(date, today) && answer == Iso(date)
  {
    var time := parse(answer + MIDNIGHT).value;
    var date := DateOf(time / MS_PER_DAY);
    RoundTripSpells(year.value, PadStart2(month.value), PadStart2(day.value), date);
    SpellsByPadding(year, month, day, date);
    assert Spells(year, month, day, date) && answer == Iso(date);
    BoundsAgree(date, today);
  }

  lemma RealIsAccepted(
    parse: Parse, year: Option<string>, month: Option<string>, day: Option<string>, today: Date, date: Date)
    requires ReadsRealDates(parse) && FourDigitYear(today)
    requires FourDigitYear(date) && Spells(year, month, day, date) && InBounds(date, today)
    ensures DateOfBirthFrom(parse, year, month, day, Iso(today)) == Some(Iso(date))
  {
    SpellsByPadding(year, month, day, date);
    JoinedIsIso(year.value, PadStart2(month.value), PadStart2(day.value), date);
    RealDateRoundTrips(date);
    BoundsAgree(date, today);
  }

  lemma JoinedIsIso(year: string, month: string, day: string, date: Date)
    requires FourDigitYear(date)
    requires year == Padded(date.year, 4) && month == Padded(date.month + 1, 2) && day == Padded(date.day, 2)
    ensures year + "-" + month + "-" + day == Iso(date)
  {
  }

  lemma RealDateRoundTrips(date: Date)
    requires FourDigitYear(date)
    ensures FirstTen(IsoDatePart(DayNumber(date) * MS_PER_DAY)) == Iso(date)
  {
    var day := DayNumber(date);
    assert day * MS_PER_DAY / MS_PER_DAY == day;
    DateOfDayNumber(date);
    IsoParts(date);
  }

  lemma BoundsAgree(date: Date, today: Date)
    requires FourDigitYear(date) && FourDigitYear(today)
    ensures InBounds(date, today) <==> !Before(Iso(date), EARLIEST) && !Before(Iso(today), Iso(date))
  {
    EarliestIsNewYear1900();
    IsoOrderIsDateOrder(date, Date(1900, 0, 1));
    IsoOrderIsDateOrder(today, date);
  }

  lemma EarliestIsNewYear1900()
    ensures Iso(Date(1900, 0, 1)) == EARLIEST
  {
    FourDigits(1900);
    TwoDigits(19);
    TwoDigits(0);
    TwoDigits(1);
  }

  // If the text survives the round trip through a time, it is the text of that time's own
  // date, field by field: a signed or overflowing date never comes back the same.
  lemma RoundTripSpells(year: string, month: string, day: string, date: Date)
    requires Real(date) && year != "" && |month| >= 2 && |day| >= 2
    requires FirstTen(DatePart(date)) == year + "-" + month + "-" + day
    ensures FourDigitYear(date) && year + "-" + month + "-" + day == Iso(date)
    ensures year == Padded(date.year, 4) && month == Padded(date.month + 1, 2) && day == Padded(date.day, 2)
  {
    if FourDigitYear(date) {
      IsoParts(date);
      DashesPlaceTheParts(year, month, day, date);
    } else {
      SignedDatesHaveNoEarlyDash(date);
      DashComesEarly(year, month, day, FirstTen(DatePart(date)));
      assert false;
    }
  }

  // Ten characters of such text have a dash within the first six.
  lemma DashComesEarly(year: string, month: string, day: string, s: string)
    requires year != "" && |month| >= 2 && |day| >= 2 && |s| <= 10
    requires s == year + "-" + month + "-" + day
    ensures 1 <= |year| <= 4 && s[|year|] == '-'
  {
  }

  lemma DashesPlaceTheParts(year: string, month: string, day: string, date: Date)
    requires year != "" && |month| >= 2 && |day| >= 2 && FourDigitYear(date)
    requires Iso(date) == year + "-" + month + "-" + day
    ensures year == Padded(date.year, 4) && month == Padded(date.month + 1, 2) && day == Padded(date.day, 2)
  {
    var iso := Iso(date);
    IsoParts(date);
    assert iso[|year|] == '-' && iso[|year| + 1 + |month|] == '-';
    assert |year| == 4 && |month| == 2;
    assert iso[..4] == year && iso[5..7] == month && iso[8..] == day;
  }

  lemma SignedDatesHaveNoEarlyDash(date: Date)
    requires Real(date) && !FourDigitYear(date)
    ensures |DatePart(date)| > 10
    ensures forall i | 1 <= i < 7 :: DatePart(date)[i] != '-'
  {
    SignedYearHasNoEarlyDash(date.year);
    TwoDigits(date.month + 1);
    TwoDigits(date.day);
    assert forall i | 1 <= i < 7 :: DatePart(date)[i] == SignedYear(date.year)[i];
  }

  lemma SignedYearHasNoEarlyDash(year: int)
    ensures |SignedYear(year)| >= 7
    ensures forall i | 1 <= i < 7 :: SignedYear(year)[i] != '-'
  {
    var years: nat := if year < 0 then -year else year;
    PaddedIsDigits(years, 6);
    assert SignedYear(year)[1..] == Padded(years, 6);
    assert forall i | 1 <= i < 7 :: SignedYear(year)[i] == SignedYear(year)[1..][i - 1];
  }
}
