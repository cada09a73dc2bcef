// Measured quantities: how they are rounded, printed, typed and read back
// (washnpress-mobile/src/api/units.ts). Numbers are exact decimals.
module Measurements {
  import opened Prelude

  datatype MeasurementUnit = Kg | Piece | Hour | Job | Vehicle | Room | Sqft | Pair | Item

  predicate IsFractional(u: MeasurementUnit) {
    u.Kg? || u.Hour? || u.Sqft?
  }

  function Suffix(u: MeasurementUnit, one: bool): string {
    match u
    case Kg => "kg"
    case Piece => if one then "piece" else "pieces"
    case Hour => if one then "hour" else "hours"
    case Job => if one then "job" else "jobs"
    case Vehicle => if one then "vehicle" else "vehicles"
    case Room => if one then "room" else "rooms"
    case Sqft => "sq ft"
    case Pair => if one then "pair" else "pairs"
    case Item => if one then "item" else "items"
  }

  // A JavaScript number: a value, or one of NaN and the infinities.
  datatype Number = Finite(value: real) | NotFinite

  // A quantity worth keeping, in hundredths.
  function Hundredths(u: MeasurementUnit, q: real): nat
    requires q > 0.0
  {
    if IsFractional(u) then (q * 100.0 + 0.5).Floor else 100 * q.Floor
  }

  function Normalise(u: MeasurementUnit, q: Number): real {
    if q.NotFinite? || q.value <= 0.0 then 0.0 else Hundredths(u, q.value) as real / 100.0
  }

  // ------------------------------------------------------------------- as text

  function DigitValue(c: char): nat
    requires IsDigit(c)
  {
    c as int - '0' as int
  }

  function Digits(n: nat): string {
    if n < 10 then [Digit(n)] else Digits(n / 10) + [Digit(n % 10)]
  }

  // h hundredths, as a whole number when it is one and with two decimals otherwise.
  function Shown(h: nat): string {
    if h % 100 == 0 then Digits(h / 100)
    else Digits(h / 100) + "." + [Digit(h / 10 % 10), Digit(h % 10)]
  }

  function Format(u: MeasurementUnit, q: Number): string {
    var h := if q.NotFinite? || q.value <= 0.0 then 0 else Hundredths(u, q.value);
    Shown(h) + (" " + Suffix(u, h == 100))
  }

  // ------------------------------------------------------------------ read back

  predicate Kept(c: char) {
    IsDigit(c) || c == '.'
  }

  // Every character but the digits and the points is dropped.
  function Stripped(s: string): string {
    if s == "" then ""
    else if Kept(Last(s)) then Stripped(Init(s)) + [Last(s)]
    else Stripped(Init(s))
  }

  function Points(s: string): nat {
    if s == "" then 0 else Points(Init(s)) + if Last(s) == '.' then 1 else 0
  }

  // The digits read as one whole number, points ignored.
  function Figures(s: string): nat {
    if s == "" then 0
    else if IsDigit(Last(s)) then 10 * Figures(Init(s)) + DigitValue(Last(s))
    else Figures(Init(s))
  }

  // One for text without a point, and ten for each character behind the last one.
  function Scale(s: string): (r: nat)
    ensures r >= 1
  {
    if Points(s) == 0 || Last(s) == '.' then 1 else 10 * Scale(Init(s))
  }

  // What Number() makes of text of digits and points: empty text is zero, and a lone
  // point or a second one is no number.
  function NumberOf(s: string): Number {
    if s == "" then Finite(0.0)
    else if s == "." || Points(s) > 1 then NotFinite
    else Finite(Figures(s) as real / Scale(s) as real)
  }

  function Parse(text: string, u: MeasurementUnit): Option<real> {
    var value := NumberOf(Stripped(text));
    if value.NotFinite? || value.value <= 0.0 then None else Some(Normalise(u, value))
  }

  // Digits and the first point, whatever was typed.
  function Sanitized(text: string): string {
    var out := Stripped(text);
    var at := FirstPoint(out);
    if at < |out| then out[..at + 1] + WithoutPoints(out[at + 1..]) else out
  }

  function FirstPoint(s: string): (at: nat)
    ensures at <= |s|
  {
    if s == "" || s[0] == '.' then 0 else 1 + FirstPoint(s[1..])
  }

  function WithoutPoints(s: string): string {
    if s == "" then ""
    else if Last(s) == '.' then WithoutPoints(Init(s))
    else WithoutPoints(Init(s)) + [Last(s)]
  }

  // ------------------------------------------------------------------- rounding

  // Rounding twice is rounding once, for every unit and every number.
  lemma NormaliseIsIdempotent(u: MeasurementUnit, q: Number)
    ensures Normalise(u, Finite(Normalise(u, q))) == Normalise(u, q)
  {
    if q.Finite? && q.value > 0.0 {
      WholeHundredthsStay(u, q.value);
    }
  }

  lemma WholeHundredthsStay(u: MeasurementUnit, q: real)
    requires q > 0.0
    ensures var h := Hundredths(u, q); h > 0 ==> Hundredths(u, h as real / 100.0) == h
  {
    var h := Hundredths(u, q);
    var back := h as real / 100.0;
    if IsFractional(u) {
      assert back * 100.0 == h as real;
      assert (h as real + 0.5).Floor == h;
    } else {
      assert back == q.Floor as real;
    }
  }

  // Weights, hours and areas are measured, to the hundredth; everything else is counted.
  predicate IsMeasured(u: MeasurementUnit) {
    u in {Kg, Hour, Sqft}
  }

  // A measured quantity moves by at most half a hundredth, to a whole number of them; a
  // counted one loses less than a whole, and is whole.
  lemma NormaliseStaysClose(u: MeasurementUnit, q: real)
    requires q > 0.0
    ensures var kept := Normalise(u, Finite(q));
            if IsMeasured(u) then -0.005 < kept - q <= 0.005 && (kept * 100.0).Floor as real == kept * 100.0
            else -1.0 < kept - q <= 0.0 && kept.Floor as real == kept
  {
    var h := Hundredths(u, q);
    if IsFractional(u) {
      assert h as real <= q * 100.0 + 0.5 < h as real + 1.0;
      assert h as real / 100.0 * 100.0 == h as real;
    } else {
      assert q.Floor as real <= q < q.Floor as real + 1.0;
      assert h as real / 100.0 == q.Floor as real;
    }
  }

  // ----------------------------------------------------------- printing and reading

  predicate AllKept(s: string) {
    forall i | 0 <= i < |s| :: Kept(s[i])
  }

  lemma {:induction false} StrippedConcat(s: string, t: string)
    ensures Stripped(s + t) == Stripped(s) + Stripped(t)
  {
    if t == "" {
      assert s + t == s;
    } else {
      assert Init(s + t) == s + Init(t);
      StrippedConcat(s, Init(t));
    }
  }

  lemma {:induction false} StrippedKeeps(s: string)
    requires AllKept(s)
    ensures Stripped(s) == s
  {
    if s != "" {
      assert Kept(Last(s)) && s == Init(s) + [Last(s)];
      StrippedKeeps(Init(s));
    }
  }

  lemma {:induction false} StrippedDrops(s: string)
    requires forall i | 0 <= i < |s| :: !Kept(s[i])
    ensures Stripped(s) == ""
  {
    if s != "" {
      StrippedDrops(Init(s));
    }
  }

  lemma {:induction false} StrippedIsKept(s: string)
    ensures AllKept(Stripped(s))
  {
    if s != "" {
      StrippedIsKept(Init(s));
    }
  }

  lemma {:induction false} DigitsRead(n: nat)
    ensures AllKept(Digits(n)) && Digits(n) != ""
    ensures Figures(Digits(n)) == n && Points(Digits(n)) == 0
  {
    if n < 10 {
      assert Init(Digits(n)) == "";
    } else {
      DigitsRead(n / 10);
      assert Init(Digits(n)) == Digits(n / 10);
    }
  }

  // One more digit at the end.
  lemma DigitAppended(s: string, c: char)
    requires IsDigit(c)
    ensures Figures(s + [c]) == 10 * Figures(s) + DigitValue(c) && Points(s + [c]) == Points(s)
    ensures Scale(s + [c]) == if Points(s) == 0 then 1 else 10 * Scale(s)
  {
    assert Init(s + [c]) == s;
  }

  lemma PointAppended(s: string)
    ensures Figures(s + ".") == Figures(s) && Points(s + ".") == Points(s) + 1 && Scale(s + ".") == 1
  {
    assert Init(s + ".") == s;
  }

  lemma ShownReads(h: nat)
    ensures AllKept(Shown(h))
    ensures NumberOf(Shown(h)) == Finite(h as real / 100.0)
  {
    var whole := Digits(h / 100);
    DigitsRead(h / 100);
    if h % 100 == 0 {
      assert h == 100 * (h / 100);
    } else {
      TwoDecimalsRead(whole, h / 10 % 10, h % 10);
      HundredthsInDigits(h);
    }
  }

  lemma TwoDecimalsRead(whole: string, a: int, b: int)
    requires 0 <= a <= 9 && 0 <= b <= 9 && Points(whole) == 0
    ensures var s := whole + "." + [Digit(a), Digit(b)];
            Points(s) == 1 && Scale(s) == 100 && Figures(s) == 10 * (10 * Figures(whole) + a) + b
  {
    PointAppended(whole);
    DigitAppended(whole + ".", Digit(a));
    DigitAppended(whole + "." + [Digit(a)], Digit(b));
    assert whole + "." + [Digit(a), Digit(b)] == whole + "." + [Digit(a)] + [Digit(b)];
  }

  lemma HundredthsInDigits(h: nat)
    ensures h == 10 * (10 * (h / 100) + h / 10 % 10) + h % 10
  {
    assert h / 10 / 10 == h / 100;
  }

  lemma SuffixIsDropped(u: MeasurementUnit, one: bool)
    ensures Stripped(" " + Suffix(u, one)) == ""
  {
    StrippedDrops(" " + Suffix(u, one));
  }

  // How a quantity is said: two decimals or none, and one of a thing by its own name.
  lemma SaidAsAPersonWould(u: MeasurementUnit)
    ensures Format(Kg, Finite(4.5)) == "4.50 kg" && Format(Kg, Finite(4.0)) == "4 kg"
    ensures Format(Piece, Finite(1.0)) == "1 piece" && Format(Piece, Finite(6.0)) == "6 pieces"
    ensures if u == Kg then Suffix(u, true) == Suffix(u, false) == "kg"
            else if u == Sqft then Suffix(u, true) == Suffix(u, false) == "sq ft"
            else Suffix(u, false) == Suffix(u, true) + "s"
  {
    assert 4.5 * 100.0 + 0.5 == 450.5 && (450.5).Floor == 450;
    assert 4.0 * 100.0 + 0.5 == 400.5 && (400.5).Floor == 400;
    assert (1.0).Floor == 1 && (6.0).Floor == 6;
    assert Shown(450) == "4" + "." + "50";
    assert Shown(400) == "4" && Shown(100) == "1" && Shown(600) == "6";
  }

  // A box without a figure in it reads as nothing given.
  lemma NoFigureReadsAsNothing(text: string, u: MeasurementUnit)
    requires forall i | 0 <= i < |text| :: text[i] !in "0123456789"
    ensures Parse(text, u) == None
  {
    NoFigures(text);
  }

  lemma {:induction false} NoFigures(text: string)
    requires forall i | 0 <= i < |text| :: text[i] !in "0123456789"
    ensures Figures(Stripped(text)) == 0
  {
    if text != "" {
      DigitsAre(Last(text));
      NoFigures(Init(text));
      if Last(text) == '.' { PointAppended(Stripped(Init(text))); }
    }
  }

  lemma DigitsAre(c: char)
    ensures IsDigit(c) <==> c in "0123456789"
    ensures Kept(c) <==> c in "0123456789."
  {
  }

  // Printing a quantity and reading it back gives the quantity as it was rounded,
  // whenever anything was left of it, and nothing otherwise.
  lemma PrintedReadsBack(u: MeasurementUnit, q: Number)
    ensures Parse(Format(u, q), u) == if Normalise(u, q) > 0.0 then Some(Normalise(u, q)) else None
  {
    var h := if q.NotFinite? || q.value <= 0.0 then 0 else Hundredths(u, q.value);
    FormatReads(u, q, h);
    NormaliseIsIdempotent(u, q);
    ParseOfHundredths(Format(u, q), u, h);
  }

  lemma FormatReads(u: MeasurementUnit, q: Number, h: nat)
    requires h == if q.NotFinite? || q.value <= 0.0 then 0 else Hundredths(u, q.value)
    ensures NumberOf(Stripped(Format(u, q))) == Finite(h as real / 100.0)
  {
    SuffixIsDropped(u, h == 100);
    ShownWithSuffixReads(h, " " + Suffix(u, h == 100));
  }

  lemma ParseOfHundredths(text: string, u: MeasurementUnit, h: nat)
    requires NumberOf(Stripped(text)) == Finite(h as real / 100.0)
    ensures Parse(text, u) == if h > 0 then Some(Normalise(u, Finite(h as real / 100.0))) else None
  {
  }

  lemma ShownWithSuffixReads(h: nat, suffix: string)
    requires Stripped(suffix) == ""
    ensures NumberOf(Stripped(Shown(h) + suffix)) == Finite(h as real / 100.0)
  {
    ShownReads(h);
    StrippedKeeps(Shown(h));
    StrippedConcat(Shown(h), suffix);
    assert Shown(h) + "" == Shown(h);
  }

  // A reading of zero is not ruled out: it is what a positive number too small to
  // round up to anything reads as.
  lemma ReadsAsZeroIffTooSmall(text: string, u: MeasurementUnit)
    ensures Parse(text, u) == Some(0.0) <==>
            var value := NumberOf(Stripped(text));
            value.Finite? && 0.0 < value.value < (if IsMeasured(u) then 0.005 else 1.0)
  {
    var value := NumberOf(Stripped(text));
    if value.Finite? && value.value > 0.0 {
      NothingLeftIffSmall(u, value.value);
    }
  }

  lemma NothingLeftIffSmall(u: MeasurementUnit, q: real)
    requires q > 0.0
    ensures Hundredths(u, q) == 0 <==> q < (if IsFractional(u) then 0.005 else 1.0)
  {
    var h := Hundredths(u, q);
    if IsFractional(u) {
      assert h as real <= q * 100.0 + 0.5 < h as real + 1.0;
    }
  }

  // --------------------------------------------------------------- the typing box

  lemma {:induction false} PointsConcat(s: string, t: string)
    ensures Points(s + t) == Points(s) + Points(t)
  {
    if t == "" {
      assert s + t == s;
    } else {
      assert Init(s + t) == s + Init(t);
      PointsConcat(s, Init(t));
    }
  }

  lemma {:induction false} WithoutPointsConcat(s: string, t: string)
    ensures WithoutPoints(s + t) == WithoutPoints(s) + WithoutPoints(t)
  {
    if t == "" {
      assert s + t == s;
    } else {
      assert Init(s + t) == s + Init(t);
      WithoutPointsConcat(s, Init(t));
    }
  }

  lemma {:induction false} NoPointsLeft(s: string)
    ensures Points(WithoutPoints(s)) == 0
    ensures AllKept(s) ==> AllKept(WithoutPoints(s))
  {
    if s != "" {
      NoPointsLeft(Init(s));
      if Last(s) != '.' {
        assert Init(WithoutPoints(s)) == WithoutPoints(Init(s));
      }
    }
  }

  lemma {:induction false} WithoutPointsKeeps(s: string)
    requires Points(s) == 0
    ensures WithoutPoints(s) == s
  {
    if s != "" {
      WithoutPointsKeeps(Init(s));
    }
  }

  lemma {:induction false} NoPointBeforeFirst(s: string)
    ensures Points(s[..FirstPoint(s)]) == 0
    ensures FirstPoint(s) < |s| ==> s[FirstPoint(s)] == '.'
  {
    if s != "" && s[0] != '.' {
      var at := FirstPoint(s);
      NoPointBeforeFirst(s[1..]);
      assert s[..at] == [s[0]] + s[1..][..at - 1];
      PointsConcat([s[0]], s[1..][..at - 1]);
    }
  }

  // Text is what comes before its first point, that point, and what comes after it.
  lemma SplitAtFirstPoint(s: string)
    requires FirstPoint(s) < |s|
    ensures var at := FirstPoint(s);
            && s == s[..at] + "." + s[at + 1..] && Points(s[..at]) == 0
            && Points(s) == 1 + Points(s[at + 1..])
            && WithoutPoints(s) == s[..at] + WithoutPoints(s[at + 1..])
  {
    var at := FirstPoint(s);
    NoPointBeforeFirst(s);
    PartsOf(s, at);
    AroundAPoint(s[..at], s[at + 1..]);
  }

  lemma PartsOf(s: string, at: nat)
    requires at < |s| && s[at] == '.'
    ensures s == s[..at] + "." + s[at + 1..]
  {
    assert s == s[..at] + [s[at]] + s[at + 1..];
  }

  lemma AroundAPoint(front: string, rest: string)
    requires Points(front) == 0
    ensures Points(front + "." + rest) == 1 + Points(rest)
    ensures WithoutPoints(front + "." + rest) == front + WithoutPoints(rest)
  {
    PointsConcat(front + ".", rest);
    PointAppended(front);
    WithoutPointsConcat(front + ".", rest);
    WithoutPointsConcat(front, ".");
    WithoutPointsKeeps(front);
  }

  lemma {:induction false} FirstPointAfter(front: string, rest: string)
    requires Points(front) == 0
    ensures FirstPoint(front + "." + rest) == |front|
  {
    if front == "" {
      assert front + "." + rest == "." + rest;
    } else {
      assert front == [front[0]] + front[1..];
      PointsConcat([front[0]], front[1..]);
      assert (front + "." + rest)[1..] == front[1..] + "." + rest;
      FirstPointAfter(front[1..], rest);
    }
  }

  // What the box holds after a keystroke: the digits that were typed, in order, with
  // at most one point, the first.
  lemma SanitizedIsAMeasurement(text: string)
    ensures var out, typed := Sanitized(text), Stripped(text);
            && AllKept(out)
            && Points(out) == (if Points(typed) > 0 then 1 else 0)
            && WithoutPoints(out) == WithoutPoints(typed)
            && FirstPoint(out) == FirstPoint(typed)
  {
    var typed := Stripped(text);
    StrippedIsKept(text);
    if FirstPoint(typed) < |typed| {
      var at := FirstPoint(typed);
      var front, rest := typed[..at], typed[at + 1..];
      SplitAtFirstPoint(typed);
      NoPointsLeft(rest);
      AroundAPoint(front, WithoutPoints(rest));
      WithoutPointsKeeps(WithoutPoints(rest));
      FirstPointAfter(front, WithoutPoints(rest));
      assert typed[..at + 1] == front + ".";
    } else {
      NoPointBeforeFirst(typed);
      assert typed[..FirstPoint(typed)] == typed;
    }
  }

  // Text that is already a measurement is left alone, and no other text is.
  lemma SanitizedKeepsExactlyMeasurements(text: string)
    ensures Sanitized(text) == text <==> AllKept(text) && Points(text) <= 1
  {
    SanitizedIsAMeasurement(text);
    if AllKept(text) && Points(text) <= 1 {
      StrippedKeeps(text);
      OnePointIsKept(text);
    }
  }

  lemma OnePointIsKept(text: string)
    requires Points(Stripped(text)) <= 1
    ensures Sanitized(text) == Stripped(text)
  {
    var typed := Stripped(text);
    if FirstPoint(typed) < |typed| {
      SplitAtFirstPoint(typed);
      WithoutPointsKeeps(typed[FirstPoint(typed) + 1..]);
      assert typed[..FirstPoint(typed) + 1] == typed[..FirstPoint(typed)] + ".";
    }
  }

  lemma SanitizedTwiceIsOnce(text: string)
    ensures Sanitized(Sanitized(text)) == Sanitized(text)
  {
    SanitizedIsAMeasurement(text);
    SanitizedKeepsExactlyMeasurements(Sanitized(text));
  }

  // Cleaning what was typed changes what it reads as only when there was a second point,
  // which made it read as nothing, and the digits with one point make a quantity.
  lemma SanitizedReadsTheSame(text: string, u: MeasurementUnit)
    ensures Parse(Sanitized(text), u) == Parse(text, u) <==>
            Points(Stripped(text)) <= 1 || Parse(Sanitized(text), u) == None
  {
    SanitizedIsAMeasurement(text);
    StrippedKeeps(Sanitized(text));
    if Points(Stripped(text)) <= 1 {
      OnePointIsKept(text);
    }
  }
}
