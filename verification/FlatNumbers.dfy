// The number on a flat's door, taken out of an address written in one string: the mobile
// rule and the web rule (washnpress-mobile/src/unit-display.ts:14-53,
// washnpress-web/lib/unit.ts:28-50). Text is ASCII.
module FlatNumbers {
  import opened Prelude

  predicate IsSpace(c: char) {
    c == ' ' || c == '\t' || c == '\n' || c == '\r' || c == '\U{000B}' || c == '\U{000C}'
  }

  predicate IsLetter(c: char) {
    'a' <= c <= 'z' || 'A' <= c <= 'Z'
  }

  predicate IsWordChar(c: char) {
    IsLetter(c) || IsDigit(c) || c == '_'
  }

  // [\s/-]
  predicate IsSeparator(c: char) {
    IsSpace(c) || c == '/' || c == '-'
  }

  // [\s:.-]
  predicate IsFlatFiller(c: char) {
    IsSpace(c) || c == ':' || c == '.' || c == '-'
  }

  function Lower(c: char): char {
    if 'A' <= c <= 'Z' then (c as int + 32) as char else c
  }

  // Whether s begins with prefix, in any case.
  predicate Begins(s: string, prefix: string) {
    |prefix| <= |s| && forall i | 0 <= i < |prefix| :: Lower(s[i]) == Lower(prefix[i])
  }

  // A word boundary at position n, just after a word character.
  predicate EndsWord(s: string, n: nat)
    requires n <= |s|
  {
    n == |s| || !IsWordChar(s[n])
  }

  // The whole first word of s is this one, in any case.
  predicate LeadsWithWord(s: string, word: string) {
    Begins(s, word) && EndsWord(s, |word|)
  }

  function SkipWhile(p: char -> bool, s: string): (rest: string)
    ensures |rest| <= |s|
  {
    if s != [] && p(s[0]) then SkipWhile(p, s[1..]) else s
  }

  function TrimEnd(s: string): string {
    if s != [] && IsSpace(Last(s)) then TrimEnd(Init(s)) else s
  }

  function Trim(s: string): string {
    TrimEnd(SkipWhile(IsSpace, s))
  }

  // ------------------------------------------------------------------- "Flat no."

  // What follows "flat", and "no" and a point when they follow it; None when the text
  // does not begin with the word "flat".
  function AfterFlatNo(s: string): Option<string> {
    if !LeadsWithWord(s, "flat") then None
    else
      var rest := SkipWhile(IsSpace, s[4..]);
      if LeadsWithWord(rest, "no") then
        Some(if |rest| > 2 && rest[2] == '.' then rest[3..] else rest[2..])
      else Some(s[4..])
  }

  function MobileStripFlatWord(value: string): string {
    match AfterFlatNo(value)
    case Some(rest) => Trim(SkipWhile(IsFlatFiller, rest))
    case None => Trim(value)
  }

  function WebStripFlatWord(value: string): string {
    var stripped := match AfterFlatNo(value) case Some(rest) => Trim(SkipWhile(IsSpace, rest)) case None => Trim(value);
    if stripped != "" then stripped else value
  }

  // ----------------------------------------------------------------- the prefix

  function MobileStripPrefix(value: string, prefix: string): string {
    if prefix == "" || |value| <= |prefix| then value
    else if !Begins(value, prefix) then value
    else
      var rest := value[|prefix|..];
      if !IsSeparator(rest[0]) then value
      else
        var bare := Trim(SkipWhile(IsSeparator, rest));
        if bare != "" then bare else value
  }

  function WebStripPrefix(value: string, prefix: string): Option<string> {
    if prefix == "" then None
    else if !(Begins(value, prefix) && |value| > |prefix| && IsSeparator(value[|prefix|])) then None
    else
      var rest := Trim(SkipWhile(IsSeparator, value[|prefix|..]));
      if rest != "" then Some(rest) else None
  }

  // The two prefix rules are one rule.
  lemma PrefixRulesAgree(value: string, prefix: string)
    ensures MobileStripPrefix(value, prefix) == WebStripPrefix(value, prefix).GetOr(value)
  {
  }

  // ----------------------------------------------------------------- short forms

  function BuildingWord(s: string): nat {
    if Begins(s, "tower") || Begins(s, "block") || Begins(s, "phase") then 5
    else if Begins(s, "wing") then 4
    else 0
  }

  // The mobile rule wants a space after the building word.
  function MobileShort(tower: string): string {
    var n := BuildingWord(tower);
    if n > 0 && n < |tower| && IsSpace(tower[n]) then Trim(SkipWhile(IsSpace, tower[n..])) else Trim(tower)
  }

  // The web rule wants only that the word ends.
  function WebShort(tower: string): string {
    var n := BuildingWord(tower);
    if n > 0 && n <= |tower| && EndsWord(tower, n) then Trim(SkipWhile(IsSpace, tower[n..])) else Trim(tower)
  }

  // ------------------------------------------------------------------- the rules

  function MobileBareFlat(unit: Option<string>, towerName: Option<string>): string {
    var value := MobileStripFlatWord(Trim(unit.GetOr("")));
    var tower := Trim(towerName.GetOr(""));
    if tower == "" then value
    else
      var short := MobileShort(tower);
      var full := MobileStripPrefix(value, tower);
      var bare := if full == value && short != "" && short != tower then MobileStripPrefix(full, short) else full;
      MobileStripFlatWord(bare)
  }

  function WebBareFlat(unit: Option<string>, towerName: Option<string>): string {
    var value := WebStripFlatWord(Trim(unit.GetOr("")));
    var tower := Trim(towerName.GetOr(""));
    if tower == "" || value == "" then value
    else
      var short := WebShort(tower);
      match WebStripPrefix(value, tower)
      case Some(bare) => bare
      case None => if short != tower then WebStripPrefix(value, short).GetOr(value) else value
  }

  // ------------------------------------------------------------ writing an address

  const DIGITS := "0123456789"
  const SPACES := " \t\n\r\U{000B}\U{000C}"
  const SEPARATORS := " \t\n\r\U{000B}\U{000C}/-"
  const FILLERS := " \t\n\r\U{000B}\U{000C}:.-"
  const SMALLS := "abcdefghijklmnopqrstuvwxyz"
  const CAPITALS := "ABCDEFGHIJKLMNOPQRSTUVWXYZ"

  predicate Among(s: string, chars: string) {
    forall i | 0 <= i < |s| :: s[i] in chars
  }

  predicate AllOf(p: char -> bool, s: string) {
    forall i | 0 <= i < |s| :: p(s[i])
  }

  predicate InAWord(c: char) {
    c in SMALLS || c in CAPITALS || c in DIGITS || c == '_'
  }

  // One letter, small or capital; in ASCII the two are 32 apart.
  predicate SameLetter(c: char, d: char) {
    || c == d
    || ('a' <= c <= 'z' && c as int == d as int + 32)
    || ('a' <= d <= 'z' && d as int == c as int + 32)
  }

  predicate AnyCase(s: string, t: string) {
    |s| == |t| && forall i | 0 <= i < |s| :: SameLetter(s[i], t[i])
  }

  // The first word of s is this one.
  predicate Leads(s: string, word: string) {
    |word| <= |s| && AnyCase(s[..|word|], word) && (|word| == |s| || !InAWord(s[|word|]))
  }

  predicate IsDoor(door: string) {
    door != "" && Among(door, DIGITS)
  }

  // A name that can be told from what the flat word takes with it: it begins with none of
  // the characters dropped behind that word, and its own first word is not "flat".
  predicate PlainName(name: string) {
    name != "" && name[0] !in FILLERS && !Leads(name, "flat")
  }

  predicate LedByBuildingWord(tower: string) {
    Leads(tower, "tower") || Leads(tower, "block") || Leads(tower, "wing") || Leads(tower, "phase")
  }

  predicate NamedBy(tower: string, word: string, gap: string, short: string) {
    && (AnyCase(word, "tower") || AnyCase(word, "block") || AnyCase(word, "wing") || AnyCase(word, "phase"))
    && gap != "" && Among(gap, SPACES) && tower == word + gap + short
  }

  // A tower as a society names it, without spaces around it; `short` is the name without a
  // building word that leads it, or the whole name when none does.
  ghost predicate TowerWithShort(tower: string, short: string) {
    && PlainName(tower) && PlainName(short) && Last(tower) !in SPACES
    && if LedByBuildingWord(tower) then exists word, gap :: NamedBy(tower, word, gap, short) else short == tower
  }

  // The tower in an address, in any case, under its name or its short form.
  datatype Form = DoorOnly | FullName(name: string, separators: string) | ShortName(name: string, separators: string)

  predicate ProperForm(form: Form, tower: string, short: string) {
    match form
    case DoorOnly => true
    case FullName(name, separators) => AnyCase(name, tower) && separators != "" && Among(separators, SEPARATORS)
    case ShortName(name, separators) => AnyCase(name, short) && separators != "" && Among(separators, SEPARATORS)
  }

  function NameIn(form: Form): string {
    if form.DoorOnly? then "" else form.name
  }

  function Prefix(form: Form): string {
    if form.DoorOnly? then "" else form.name + form.separators
  }

  // "Flat", "Flat no" or "Flat no." in any case, or none of them.
  datatype Lead = NoLead | Flat(word: string, gap: string) | FlatNo(word: string, between: string, no: string, gap: string)

  predicate ProperLead(lead: Lead) {
    match lead
    case NoLead => true
    case Flat(word, gap) => AnyCase(word, "flat") && gap != "" && Among(gap, SPACES)
    case FlatNo(word, between, no, gap) =>
      && AnyCase(word, "flat") && between != "" && Among(between, SPACES)
      && ((AnyCase(no, "no") && gap != "") || AnyCase(no, "no.")) && Among(gap, SPACES)
  }

  function LeadText(lead: Lead): string {
    match lead
    case NoLead => ""
    case Flat(word, gap) => word + gap
    case FlatNo(word, between, no, gap) => word + (between + (no + gap))
  }

  function Written(lead: Lead, form: Form, door: string): string {
    LeadText(lead) + (Prefix(form) + door)
  }

  // Spaces around a text say nothing.
  predicate Around(text: string, field: Option<string>, before: string, after: string) {
    Among(before, SPACES) && Among(after, SPACES) && field == Some(before + text + after)
  }

  // ------------------------------------------- the characters the code tells apart

  lemma Classes(c: char)
    ensures IsDigit(c) <==> c in DIGITS
    ensures IsSpace(c) <==> c in SPACES
    ensures IsSeparator(c) <==> c in SEPARATORS
    ensures IsFlatFiller(c) <==> c in FILLERS
    ensures IsWordChar(c) <==> InAWord(c)
  {
    Letter(c);
  }

  lemma Letter(c: char)
    ensures IsLetter(c) <==> c in SMALLS || c in CAPITALS
  {
  }

  lemma Classed(s: string)
    ensures AllOf(IsDigit, s) <==> Among(s, DIGITS)
    ensures AllOf(IsSpace, s) <==> Among(s, SPACES)
    ensures AllOf(IsSeparator, s) <==> Among(s, SEPARATORS)
  {
    forall i | 0 <= i < |s| ensures (IsDigit(s[i]) <==> s[i] in DIGITS) && (IsSpace(s[i]) <==> s[i] in SPACES)
                                    && (IsSeparator(s[i]) <==> s[i] in SEPARATORS) {
      Classes(s[i]);
    }
  }

  lemma SameLetterIsSameLower(c: char, d: char)
    ensures SameLetter(c, d) <==> Lower(c) == Lower(d)
  {
  }

  lemma AnyCaseIsBegins(s: string, t: string)
    requires |t| <= |s|
    ensures AnyCase(s[..|t|], t) <==> Begins(s, t)
  {
    forall i | 0 <= i < |t| ensures SameLetter(s[..|t|][i], t[i]) <==> Lower(s[i]) == Lower(t[i]) {
      SameLetterIsSameLower(s[i], t[i]);
    }
  }

  lemma LeadsIsLeadsWithWord(s: string, word: string)
    ensures Leads(s, word) <==> LeadsWithWord(s, word)
  {
    if |word| <= |s| {
      AnyCaseIsBegins(s, word);
      if |word| < |s| { Classes(s[|word|]); }
    }
  }

  lemma PlainNameInCode(name: string)
    requires PlainName(name)
    ensures !IsFlatFiller(name[0]) && !IsSpace(name[0]) && !LeadsWithWord(name, "flat")
  {
    Classes(name[0]);
    LeadsIsLeadsWithWord(name, "flat");
  }

  // A name is as plain in any case.
  lemma PlainInAnyCase(written: string, name: string)
    requires PlainName(name) && AnyCase(written, name)
    ensures PlainName(written) && Begins(written, name) && Letters(written) == Letters(name)
  {
    assert written[..|name|] == written;
    AnyCaseIsBegins(written, name);
    SameLetters(written, name);
    SameLetterIsSameLower(written[0], name[0]);
    Classes(written[0]);
    Classes(name[0]);
    LeadsIsLeadsWithWord(name, "flat");
    if Leads(written, "flat") {
      LeadsIsLeadsWithWord(written, "flat");
      SameWordInAnyCase(written, name, "flat");
      assert false;
    }
  }

  lemma SameWordInAnyCase(s: string, t: string, word: string)
    requires |s| == |t| && Begins(s, t) && LeadsWithWord(s, word)
    ensures LeadsWithWord(t, word)
  {
    assert |word| < |s| ==> Lower(s[|word|]) == Lower(t[|word|]);
  }

  // ------------------------------------------------------------------ small steps

  lemma {:induction false} SkipsAll(p: char -> bool, skipped: string, rest: string)
    requires AllOf(p, skipped) && (rest == "" || !p(rest[0]))
    ensures SkipWhile(p, skipped + rest) == rest
  {
    if skipped == "" {
      assert skipped + rest == rest;
    } else {
      assert (skipped + rest)[1..] == skipped[1..] + rest;
      SkipsAll(p, skipped[1..], rest);
    }
  }

  lemma TrimKeeps(s: string)
    requires s == "" || (!IsSpace(s[0]) && !IsSpace(Last(s)))
    ensures Trim(s) == s
  {
  }

  function Letters(s: string): nat {
    if s == "" then 0 else Letters(Init(s)) + if IsLetter(Last(s)) then 1 else 0
  }

  lemma {:induction false} LettersAdd(s: string, t: string)
    ensures Letters(s + t) == Letters(s) + Letters(t)
  {
    if t == "" {
      assert s + t == s;
    } else {
      assert Init(s + t) == s + Init(t);
      LettersAdd(s, Init(t));
    }
  }

  lemma {:induction false} NoLetters(s: string)
    requires forall i | 0 <= i < |s| :: !IsLetter(s[i])
    ensures Letters(s) == 0
  {
    if s != "" {
      NoLetters(Init(s));
    }
  }

  lemma {:induction false} SameLetters(s: string, t: string)
    requires |s| == |t| && Begins(s, t)
    ensures Letters(s) == Letters(t)
  {
    if s != "" {
      SameLetters(Init(s), Init(t));
      assert Lower(Last(s)) == Lower(Last(t));
    }
  }

  // A word that a longer text leads with is led with by its first part, where a character
  // that belongs to no word follows.
  lemma WordStaysInside(name: string, rest: string, word: string)
    requires AllOf(IsLetter, word) && word != ""
    requires rest != "" && !IsWordChar(rest[0])
    requires LeadsWithWord(name + rest, word)
    ensures LeadsWithWord(name, word)
  {
    assert |name| < |word| ==> Lower((name + rest)[|name|]) == Lower(word[|name|]);
    assert forall i | 0 <= i < |name| :: (name + rest)[i] == name[i];
  }

  lemma NameIsNoWord(name: string, rest: string, word: string)
    requires rest != "" && !IsWordChar(rest[0]) && AllOf(IsLetter, word) && word != ""
    requires !LeadsWithWord(name, word)
    ensures !LeadsWithWord(name + rest, word)
  {
    if LeadsWithWord(name + rest, word) { WordStaysInside(name, rest, word); }
  }

  predicate IsPlainText(s: string) {
    s != "" && s[0] !in FILLERS && Last(s) in DIGITS && !Leads(s, "flat")
  }

  // The text behind "Flat" leads with neither word.
  lemma PlainTextIsNoWord(form: Form, tower: string, short: string, door: string)
    requires PlainName(tower) && PlainName(short) && ProperForm(form, tower, short) && IsDoor(door)
    ensures var s := Prefix(form) + door;
            IsPlainText(s) && (!Leads(NameIn(form), "no") ==> !Leads(s, "no"))
  {
    DoorIsNoWord(door);
    if form.DoorOnly? {
      assert Prefix(form) + door == door;
    } else {
      PlainInAnyCase(form.name, if form.FullName? then tower else short);
      NamedTextIsNoWord(form.name, form.separators, door);
      assert form.name + form.separators + door == form.name + (form.separators + door);
    }
  }

  lemma NamedTextIsNoWord(name: string, separators: string, door: string)
    requires PlainName(name) && separators != "" && Among(separators, SEPARATORS) && IsDoor(door)
    ensures var s := name + (separators + door);
            IsPlainText(s) && (!Leads(name, "no") ==> !Leads(s, "no"))
  {
    DoorIsNoWord(door);
    SeparatedNameIsNoWord(name, separators + door, "flat");
    if !Leads(name, "no") { SeparatedNameIsNoWord(name, separators + door, "no"); }
  }

  lemma {:induction false} TrimmedEnds(s: string)
    requires Trim(s) == s && s != ""
    ensures !IsSpace(s[0]) && !IsSpace(Last(s))
  {
    var front := SkipWhile(IsSpace, s);
    TrimEndShrinks(front);
    SkipShrinks(s);
  }

  lemma {:induction false} TrimEndShrinks(s: string)
    ensures |TrimEnd(s)| <= |s|
    ensures s != "" && IsSpace(Last(s)) ==> |TrimEnd(s)| < |s|
  {
    if s != "" && IsSpace(Last(s)) {
      TrimEndShrinks(Init(s));
    }
  }

  lemma SkipShrinks(s: string)
    ensures s != "" && IsSpace(s[0]) ==> |SkipWhile(IsSpace, s)| < |s|
    ensures s != "" && !IsSpace(s[0]) ==> SkipWhile(IsSpace, s) == s
  {
  }

  // The short form both rules compute.
  lemma ShortForms(tower: string, short: string)
    requires TowerWithShort(tower, short)
    ensures MobileShort(tower) == short && WebShort(tower) == short
    ensures short == tower || Letters(tower) > Letters(short)
  {
    LedInCode(tower);
    NameIsTrimmed(tower);
    if LedByBuildingWord(tower) {
      var word, gap :| NamedBy(tower, word, gap, short);
      NamedInCode(tower, word, gap, short);
      SpacedShortForms(tower, short, |word + gap|);
      SpacedShortHasFewerLetters(tower, short, |word + gap|);
    }
  }

  lemma NameIsTrimmed(name: string)
    requires PlainName(name) && Last(name) !in SPACES
    ensures Trim(name) == name
  {
    PlainNameInCode(name);
    Classes(Last(name));
    TrimKeeps(name);
  }

  // What the code makes of the building words.
  predicate LeadsWithBuildingWord(tower: string) {
    var w := BuildingWord(tower);
    w > 0 && (w >= |tower| || !IsWordChar(tower[w]))
  }

  predicate SpacedShort(tower: string, short: string, n: int) {
    var w := BuildingWord(tower);
    && w < n <= |tower| && AllOf(IsSpace, tower[w..n]) && tower[n..] == short
  }

  lemma LedInCode(tower: string)
    ensures LedByBuildingWord(tower) <==> LeadsWithBuildingWord(tower)
  {
    LeadsIsLeadsWithWord(tower, "tower");
    LeadsIsLeadsWithWord(tower, "block");
    LeadsIsLeadsWithWord(tower, "phase");
    LeadsIsLeadsWithWord(tower, "wing");
    WingIsNoOther(tower);
  }

  lemma WingIsNoOther(tower: string)
    ensures Begins(tower, "wing") ==> !Begins(tower, "tower") && !Begins(tower, "block") && !Begins(tower, "phase")
  {
    assert Lower("wing"[0]) == 'w' && Lower("tower"[0]) == 't' && Lower("block"[0]) == 'b' && Lower("phase"[0]) == 'p';
  }

  lemma NamedInCode(tower: string, word: string, gap: string, short: string)
    requires NamedBy(tower, word, gap, short)
    ensures SpacedShort(tower, short, |word + gap|)
  {
    assert tower[..|word|] == word && tower[|word|..|word + gap|] == gap && tower[|word + gap|..] == short;
    Classed(gap);
    WingIsNoOther(tower);
    var literal := if AnyCase(word, "tower") then "tower" else if AnyCase(word, "block") then "block"
                   else if AnyCase(word, "phase") then "phase" else "wing";
    AnyCaseIsBegins(tower, literal);
  }

  lemma SpacedShortForms(tower: string, short: string, n: int)
    requires PlainName(tower) && Last(tower) !in SPACES && PlainName(short)
    requires LeadsWithBuildingWord(tower) && SpacedShort(tower, short, n)
    ensures MobileShort(tower) == short && WebShort(tower) == short
  {
    PlainNameInCode(short);
    assert Last(short) == Last(tower);
    SkipsSpaces(tower, BuildingWord(tower), n);
    NameIsTrimmed(short);
  }

  lemma SkipsSpaces(s: string, w: nat, n: nat)
    requires w < n < |s| && AllOf(IsSpace, s[w..n]) && !IsSpace(s[n])
    ensures IsSpace(s[w]) && SkipWhile(IsSpace, s[w..]) == s[n..]
  {
    assert s[w..n][0] == s[w];
    assert s[w..] == s[w..n] + s[n..];
    SkipsAll(IsSpace, s[w..n], s[n..]);
  }

  lemma SpacedShortHasFewerLetters(tower: string, short: string, n: int)
    requires LeadsWithBuildingWord(tower) && SpacedShort(tower, short, n)
    ensures Letters(tower) > Letters(short)
  {
    var w := BuildingWord(tower);
    BuildingWordHasLetters(tower);
    assert tower[..n] + short == tower;
    assert tower[..w] + tower[w..n] == tower[..n];
    LettersAdd(tower[..n], short);
    LettersAdd(tower[..w], tower[w..n]);
  }

  lemma BuildingWordHasLetters(tower: string)
    requires BuildingWord(tower) > 0
    ensures BuildingWord(tower) <= |tower| && Letters(tower[..BuildingWord(tower)]) > 0
  {
    var w := BuildingWord(tower);
    var word := if Begins(tower, "tower") then "tower" else if Begins(tower, "block") then "block"
                else if Begins(tower, "phase") then "phase" else "wing";
    assert forall i | 0 <= i < w :: tower[..w][i] == tower[i];
    assert Begins(tower[..w], word);
    SameLetters(tower[..w], word);
    assert Letters(word) == Letters(Init(word)) + 1;
  }

  // Taking "Flat" off what was written leaves the rest of it, by either rule.
  lemma FlatWordComesOff(lead: Lead, s: string)
    requires ProperLead(lead) && IsPlainText(s) && (lead.Flat? ==> !Leads(s, "no"))
    ensures var unit := LeadText(lead) + s;
            Trim(unit) == unit && MobileStripFlatWord(unit) == s && WebStripFlatWord(unit) == s
  {
    var unit := LeadText(lead) + s;
    Classes(s[0]);
    Classes(Last(s));
    LeadsIsLeadsWithWord(s, "flat");
    assert Last(unit) == Last(s);
    TrimKeeps(s);
    if lead.NoLead? {
      assert unit == s;
    } else {
      LeadIsTakenOff(lead, s);
      SkipsAll(IsSpace, lead.gap, s);
      Classed(lead.gap);
      SkipsAll(IsFlatFiller, lead.gap, s);
      FlatIsNoSpace(unit);
      TrimKeeps(unit);
    }
  }

  lemma FlatIsNoSpace(s: string)
    requires LeadsWithWord(s, "flat")
    ensures !IsSpace(s[0])
  {
    assert Lower(s[0]) == Lower("flat"[0]);
  }

  // Behind the flat word, and "no" where it is written, stand the spaces and the rest.
  lemma LeadIsTakenOff(lead: Lead, s: string)
    requires ProperLead(lead) && lead != NoLead && s != "" && !IsSpace(s[0]) && (lead.Flat? ==> !Leads(s, "no"))
    ensures LeadsWithWord(LeadText(lead) + s, "flat") && AfterFlatNo(LeadText(lead) + s) == Some(lead.gap + s)
    ensures AllOf(IsSpace, lead.gap)
  {
    Classed(lead.gap);
    match lead
    case Flat(word, gap) =>
      assert word + gap + s == word + (gap + s);
      FlatAloneLeads(word, gap, s);
    case FlatNo(word, between, no, gap) =>
      Reassociated(word, between, no, gap, s);
      FlatNoLeads(word, between, no, gap, s);
  }

  lemma Reassociated(a: string, b: string, c: string, d: string, e: string)
    ensures a + (b + (c + d)) + e == a + (b + (c + d + e))
  {
    assert a + (b + (c + d)) + e == a + b + c + d + e;
    assert a + (b + (c + d + e)) == a + b + c + d + e;
  }

  lemma FlatAloneLeads(word: string, gap: string, s: string)
    requires AnyCase(word, "flat") && gap != "" && Among(gap, SPACES)
    requires s != "" && !IsSpace(s[0]) && !Leads(s, "no")
    ensures var unit := word + (gap + s);
            LeadsWithWord(unit, "flat") && AfterFlatNo(unit) == Some(gap + s)
  {
    FlatLeads(word, gap, s);
    Classed(gap);
    SkipsAll(IsSpace, gap, s);
    LeadsIsLeadsWithWord(s, "no");
  }

  lemma FlatNoLeads(word: string, between: string, no: string, gap: string, s: string)
    requires ProperLead(FlatNo(word, between, no, gap)) && s != ""
    ensures var unit := word + (between + (no + gap + s));
            LeadsWithWord(unit, "flat") && AfterFlatNo(unit) == Some(gap + s)
  {
    FlatLeads(word, between, no + gap + s);
    NoIsTakenOff(between, no, gap, s);
  }

  lemma FlatLeads(word: string, gap: string, rest: string)
    requires AnyCase(word, "flat") && gap != "" && Among(gap, SPACES)
    ensures var unit := word + (gap + rest);
            LeadsWithWord(unit, "flat") && unit[4..] == gap + rest
  {
    SpacedWordLeads(word, gap + rest, "flat");
  }

  lemma SpacedWordLeads(written: string, behind: string, word: string)
    requires AnyCase(written, word) && (behind == "" || behind[0] in SPACES || behind[0] == '.')
    ensures LeadsWithWord(written + behind, word)
  {
    assert (written + behind)[..|word|] == written;
    AnyCaseIsBegins(written + behind, word);
    if behind != "" {
      SpaceEndsAWord(behind[0]);
      assert (written + behind)[|word|] == behind[0];
    }
  }

  lemma SpaceEndsAWord(c: char)
    requires c in SPACES || c == '.'
    ensures !IsWordChar(c)
  {
  }

  lemma NoIsTakenOff(between: string, no: string, gap: string, s: string)
    requires between != "" && Among(between, SPACES) && Among(gap, SPACES)
    requires (AnyCase(no, "no") && gap != "") || AnyCase(no, "no.")
    ensures var rest := no + gap + s;
            && SkipWhile(IsSpace, between + rest) == rest && LeadsWithWord(rest, "no") && |rest| > 2
            && (if rest[2] == '.' then rest[3..] else rest[2..]) == gap + s
  {
    var rest := no + gap + s;
    Classed(between);
    NoBehind(no, gap, s);
    assert Lower(rest[0]) == Lower("no"[0]);
    SkipsAll(IsSpace, between, rest);
  }

  lemma NoBehind(no: string, gap: string, s: string)
    requires Among(gap, SPACES) && ((AnyCase(no, "no") && gap != "") || AnyCase(no, "no."))
    ensures var rest := no + gap + s;
            && LeadsWithWord(rest, "no") && |rest| > 2
            && (if rest[2] == '.' then rest[3..] else rest[2..]) == gap + s
  {
    var rest := no + gap + s;
    if |no| == 2 {
      assert rest == no + (gap + s);
      SpacedWordLeads(no, gap + s, "no");
      assert rest[2] == gap[0];
    } else {
      assert SameLetter(no[2], '.');
      assert rest == no[..2] + ("." + gap + s) && rest[3..] == gap + s;
      SpacedWordLeads(no[..2], "." + gap + s, "no");
    }
  }

  lemma NamedPrefixComesOff(written: string, name: string, separators: string, rest: string)
    requires name != "" && AnyCase(written, name) && separators != "" && Among(separators, SEPARATORS)
    requires rest != "" && rest[0] !in SEPARATORS && Last(rest) !in SPACES
    ensures WebStripPrefix(written + separators + rest, name) == Some(rest)
  {
    var value := written + separators + rest;
    assert value[|name|..] == separators + rest && value[..|name|] == written;
    AnyCaseIsBegins(value, name);
    Classed(separators);
    assert value[|name|] == separators[0];
    Classes(rest[0]);
    Classes(Last(rest));
    SkipsAll(IsSeparator, separators, rest);
    TrimKeeps(rest);
  }

  // A door has no tower in front of it, whatever its digits.
  lemma DoorHasNoPrefix(door: string, name: string)
    requires IsDoor(door)
    ensures WebStripPrefix(door, name) == None
  {
    Classed(door);
    if |door| > |name| { assert IsDigit(door[|name|]); }
  }

  // Separators and a door have no letters in them.
  lemma WritingAddsNoLetters(short: string, separators: string, door: string)
    requires Among(separators, SEPARATORS) && IsDoor(door)
    ensures Letters(short + separators + door) == Letters(short)
  {
    Classed(separators);
    Classed(door);
    LettersAdd(short + separators, door);
    LettersAdd(short, separators);
    NoLetters(separators);
    NoLetters(door);
  }

  // The short form is never mistaken for the full name: it has too few letters.
  lemma ShortIsNotFull(tower: string, short: string, separators: string, door: string)
    requires Letters(tower) > Letters(short) && Among(separators, SEPARATORS) && IsDoor(door)
    ensures !Begins(short + separators + door, tower)
  {
    WritingAddsNoLetters(short, separators, door);
    if Begins(short + separators + door, tower) {
      PrefixHasNoMoreLetters(short + separators + door, tower);
    }
  }

  lemma PrefixHasNoMoreLetters(value: string, prefix: string)
    requires Begins(value, prefix)
    ensures Letters(prefix) <= Letters(value)
  {
    var head := value[..|prefix|];
    assert forall i | 0 <= i < |prefix| :: head[i] == value[i];
    SameLetters(head, prefix);
    assert value == head + value[|prefix|..];
    LettersAdd(head, value[|prefix|..]);
  }

  // Both rules read back what was written: the door, whether the address gave it bare,
  // under the tower's full name, or under its short form, in any case, with or without
  // "Flat", and with spaces around the address or the tower.
  lemma BothRulesReadTheDoor(
    lead: Lead, form: Form, door: string, tower: string, short: string, unit: Option<string>, towerName: Option<string>)
    requires TowerWithShort(tower, short) && ProperLead(lead) && ProperForm(form, tower, short) && IsDoor(door)
    requires lead.Flat? ==> !Leads(NameIn(form), "no")
    requires exists before, after :: Around(Written(lead, form, door), unit, before, after)
    requires exists before, after :: Around(tower, towerName, before, after)
    ensures MobileBareFlat(unit, towerName) == door && WebBareFlat(unit, towerName) == door
  {
    var value := Prefix(form) + door;
    PlainTextIsNoWord(form, tower, short, door);
    FlatWordComesOff(lead, value);
    ReadsTheText(LeadText(lead) + value, unit);
    NameIsTrimmed(tower);
    ReadsTheText(tower, towerName);
    ShortForms(tower, short);
    PrefixComesOff(form, tower, short, door);
    DoorStays(door);
    PrefixRulesAgree(value, tower);
    PrefixRulesAgree(value, short);
  }

  // Without a tower both rules take the flat word off, and nothing else.
  lemma WithoutTowerTheTextIsRead(lead: Lead, s: string, unit: Option<string>, towerName: Option<string>)
    requires ProperLead(lead) && IsPlainText(s) && (lead.Flat? ==> !Leads(s, "no"))
    requires exists before, after :: Around(LeadText(lead) + s, unit, before, after)
    requires towerName.Some? ==> Among(towerName.value, SPACES)
    ensures MobileBareFlat(unit, towerName) == s && WebBareFlat(unit, towerName) == s
  {
    FlatWordComesOff(lead, s);
    ReadsTheText(LeadText(lead) + s, unit);
    if towerName.Some? {
      Classed(towerName.value);
      assert towerName.value + "" == towerName.value;
      SkipsAll(IsSpace, towerName.value, "");
    }
  }

  predicate BothRead(unit: string, towerName: Option<string>, door: string) {
    MobileBareFlat(Some(unit), towerName) == door && WebBareFlat(Some(unit), towerName) == door
  }

  lemma ReadAsWritten(lead: Lead, form: Form, door: string, tower: string, short: string, unit: string)
    requires TowerWithShort(tower, short) && ProperLead(lead) && ProperForm(form, tower, short) && IsDoor(door)
    requires lead.Flat? ==> !Leads(NameIn(form), "no")
    requires Written(lead, form, door) == unit
    ensures BothRead(unit, Some(tower), door)
  {
    NothingAround(unit);
    NothingAround(tower);
    BothRulesReadTheDoor(lead, form, door, tower, short, Some(unit), Some(tower));
  }

  lemma NothingAround(text: string)
    ensures Around(text, Some(text), "", "")
  {
    assert "" + text + "" == text;
  }

  // The addresses the documentation gives, each with the number it promises.
  lemma DocumentedAddresses()
    ensures BothRead("A-402", Some("A"), "402") && BothRead("402", Some("A"), "402")
    ensures BothRead("Flat A-204", Some("A"), "204")
    ensures BothRead("a 301", Some("A"), "301") && BothRead("A/401", Some("A"), "401")
    ensures BothRead("Tower 1-101", Some("Tower 1"), "101") && BothRead("1-101", Some("Tower 1"), "101")
    ensures BothRead("1101", Some("Tower 1"), "1101")
    ensures BothRead("North Wing-201", Some("North Wing"), "201")
    ensures BothRead("101", None, "101") && BothRead("Flat no. 12", None, "12")
  {
    DashInTowerA();
    SpaceInTowerA();
    SlashInTowerA();
    FlatInTowerA();
    AddressInTower1();
    ShortAddressInTower1();
    DoorsInTowers();
    AddressInNorthWing();
    DoorWithoutTower();
    FlatWithoutTower();
  }

  lemma DashInTowerA()
    ensures BothRead("A-402", Some("A"), "402")
  {
    AddressInTowerA("A", "-", "402", "A-402");
  }

  lemma SpaceInTowerA()
    ensures BothRead("a 301", Some("A"), "301")
  {
    AddressInTowerA("a", " ", "301", "a 301");
  }

  lemma SlashInTowerA()
    ensures BothRead("A/401", Some("A"), "401")
  {
    AddressInTowerA("A", "/", "401", "A/401");
  }

  lemma DoorsInTowers()
    ensures BothRead("402", Some("A"), "402") && BothRead("1101", Some("Tower 1"), "1101")
  {
    TowerA();
    Tower1();
    DoorInTower("A", "A", "402");
    DoorInTower("Tower 1", "1", "1101");
  }

  lemma TowerA()
    ensures TowerWithShort("A", "A")
  {
  }

  lemma AddressInTowerA(name: string, separators: string, door: string, unit: string)
    requires AnyCase(name, "A") && separators != "" && Among(separators, SEPARATORS) && IsDoor(door)
    requires name + separators + door == unit
    ensures BothRead(unit, Some("A"), door)
  {
    TowerA();
    assert "" + unit == unit;
    ReadAsWritten(NoLead, FullName(name, separators), door, "A", "A", unit);
  }

  lemma FlatInTowerA()
    ensures BothRead("Flat A-204", Some("A"), "204")
  {
    TowerA();
    ReadAsWritten(Flat("Flat", " "), FullName("A", "-"), "204", "A", "A", "Flat A-204");
  }

  lemma DoorInTower(tower: string, short: string, door: string)
    requires TowerWithShort(tower, short) && IsDoor(door)
    ensures BothRead(door, Some(tower), door)
  {
    assert "" + ("" + door) == door;
    ReadAsWritten(NoLead, DoorOnly, door, tower, short, door);
  }

  lemma Tower1()
    ensures TowerWithShort("Tower 1", "1")
  {
    LedByTower("Tower 1", "Tower", " ", "1");
    LeadsByFirstLetter("Tower 1", "flat");
    LeadsByFirstLetter("1", "flat");
  }

  lemma LedByTower(tower: string, word: string, gap: string, short: string)
    requires AnyCase(word, "tower") && gap == " " && tower == word + gap + short
    ensures NamedBy(tower, word, gap, short) && LedByBuildingWord(tower)
  {
    assert tower[..5] == word && tower[5] == ' ';
  }

  lemma AddressInTower1()
    ensures BothRead("Tower 1-101", Some("Tower 1"), "101")
  {
    Tower1();
    FullAddress("Tower 1", "1", "-", "101", "Tower 1-101");
  }

  lemma ShortAddressInTower1()
    ensures BothRead("1-101", Some("Tower 1"), "101")
  {
    Tower1();
    var form := ShortName("1", "-");
    assert Written(NoLead, form, "101") == "1-101" by { assert "" + ("1" + "-" + "101") == "1-101"; }
    ReadAsWritten(NoLead, form, "101", "Tower 1", "1", "1-101");
  }

  lemma FullAddress(tower: string, short: string, separators: string, door: string, unit: string)
    requires TowerWithShort(tower, short) && separators != "" && Among(separators, SEPARATORS) && IsDoor(door)
    requires tower + separators + door == unit
    ensures BothRead(unit, Some(tower), door)
  {
    assert "" + unit == unit;
    ReadAsWritten(NoLead, FullName(tower, separators), door, tower, short, unit);
  }

  lemma AddressInNorthWing()
    ensures BothRead("North Wing-201", Some("North Wing"), "201")
  {
    var tower := "North Wing";
    assert TowerWithShort(tower, tower) by {
      LeadsByFirstLetter(tower, "flat");
      LeadsByFirstLetter(tower, "tower");
      LeadsByFirstLetter(tower, "block");
      LeadsByFirstLetter(tower, "wing");
      LeadsByFirstLetter(tower, "phase");
    }
    FullAddress(tower, tower, "-", "201", "North Wing-201");
  }

  lemma DoorWithoutTower()
    ensures BothRead("101", None, "101")
  {
    DoorIsNoWord("101");
    ReadWithoutTower(NoLead, "101", "101");
  }

  lemma FlatWithoutTower()
    ensures BothRead("Flat no. 12", None, "12")
  {
    DoorIsNoWord("12");
    var lead := FlatNo("Flat", " ", "no.", " ");
    assert ProperLead(lead) by { assert AnyCase("Flat", "flat") && AnyCase("no.", "no."); }
    assert LeadText(lead) == "Flat no. ";
    ReadWithoutTower(lead, "12", "Flat no. 12");
  }

  lemma ReadWithoutTower(lead: Lead, door: string, unit: string)
    requires ProperLead(lead) && IsPlainText(door) && !Leads(door, "no") && LeadText(lead) + door == unit
    ensures BothRead(unit, None, door)
  {
    NothingAround(unit);
    WithoutTowerTheTextIsRead(lead, door, Some(unit), None);
  }

  // The rules read the text without the spaces around it.
  lemma ReadsTheText(text: string, field: Option<string>)
    requires text != "" && Trim(text) == text
    requires exists before, after :: Around(text, field, before, after)
    ensures Trim(field.GetOr("")) == text
  {
    var before, after :| Around(text, field, before, after);
    TrimmedEnds(text);
    Classed(before);
    Classed(after);
    assert field.value == before + (text + after);
    SkipsAll(IsSpace, before, text + after);
    TrimsEnd(text, after);
  }

  lemma {:induction false} TrimsEnd(text: string, after: string)
    requires text != "" && !IsSpace(Last(text)) && AllOf(IsSpace, after)
    ensures TrimEnd(text + after) == text
  {
    if after == "" {
      assert text + after == text;
    } else {
      assert Init(text + after) == text + Init(after);
      TrimsEnd(text, Init(after));
    }
  }

  lemma DoorStays(door: string)
    requires IsDoor(door)
    ensures Trim(door) == door && MobileStripFlatWord(door) == door && WebStripFlatWord(door) == door
  {
    DoorIsNoWord(door);
    FlatWordComesOff(NoLead, door);
    assert LeadText(NoLead) + door == door;
  }

  lemma PrefixComesOff(form: Form, tower: string, short: string, door: string)
    requires PlainName(tower) && PlainName(short) && ProperForm(form, tower, short) && IsDoor(door)
    requires short == tower || Letters(tower) > Letters(short)
    ensures var value := Prefix(form) + door;
            match WebStripPrefix(value, tower)
            case Some(bare) => bare == door && bare != value
            case None => WebStripPrefix(value, short) == Some(door) || (value == door && WebStripPrefix(value, short) == None)
  {
    DoorIsNoWord(door);
    match form
    case DoorOnly =>
      assert "" + door == door;
      DoorHasNoPrefix(door, tower);
      DoorHasNoPrefix(door, short);
    case FullName(name, separators) =>
      NamedPrefixComesOff(name, tower, separators, door);
    case ShortName(name, separators) =>
      NamedPrefixComesOff(name, short, separators, door);
      PlainInAnyCase(name, short);
      if short != tower {
        ShortIsNotFull(tower, name, separators, door);
      }
  }

  // Addresses written another way are read differently: the mobile rule looks for
  // "Flat" again behind the tower, and the web rule does not.
  lemma OnlyMobileReadsFlatBehindTower(tower: string, separators: string, door: string)
    requires PlainName(tower) && Last(tower) !in SPACES && IsDoor(door)
    requires separators != "" && Among(separators, SEPARATORS)
    ensures var unit := Some(tower + separators + ("Flat " + door));
            MobileBareFlat(unit, Some(tower)) == door && WebBareFlat(unit, Some(tower)) == "Flat " + door
  {
    var rest := "Flat " + door;
    NameIsTrimmed(tower);
    TowerThenFlat(tower, separators, rest, door);
    PrefixRulesAgree(tower + separators + rest, tower);
    DoorIsNoWord(door);
    FlatWordComesOff(Flat("Flat", " "), door);
    assert LeadText(Flat("Flat", " ")) + door == rest;
  }

  lemma SeparatedTowerIsNoFlat(tower: string, separators: string, rest: string)
    requires PlainName(tower) && separators != "" && Among(separators, SEPARATORS) && rest != ""
    ensures var value := tower + separators + rest;
            value[0] !in FILLERS && Last(value) == Last(rest) && !Leads(value, "flat")
  {
    assert tower + separators + rest == tower + (separators + rest);
    SeparatedNameIsNoWord(tower, separators + rest, "flat");
  }

  lemma SeparatorEndsAWord(c: char)
    requires c in SEPARATORS
    ensures !IsWordChar(c)
  {
  }

  lemma SeparatedNameIsNoWord(name: string, behind: string, word: string)
    requires behind != "" && behind[0] in SEPARATORS && word != "" && AllOf(IsLetter, word) && !Leads(name, word)
    ensures !Leads(name + behind, word)
  {
    SeparatorEndsAWord(behind[0]);
    LeadsIsLeadsWithWord(name, word);
    LeadsIsLeadsWithWord(name + behind, word);
    NameIsNoWord(name, behind, word);
  }

  lemma TowerThenFlat(tower: string, separators: string, rest: string, door: string)
    requires PlainName(tower) && IsDoor(door) && rest == "Flat " + door
    requires separators != "" && Among(separators, SEPARATORS)
    ensures var value := tower + separators + rest;
            && Trim(value) == value && MobileStripFlatWord(value) == value && WebStripFlatWord(value) == value
            && WebStripPrefix(value, tower) == Some(rest)
  {
    var value := tower + separators + rest;
    assert Last(rest) == Last(door);
    DoorIsNoWord(door);
    SeparatedTowerIsNoFlat(tower, separators, rest);
    NamedPrefixComesOff(tower, tower, separators, rest);
    FlatWordComesOff(NoLead, value);
    assert LeadText(NoLead) + value == value;
  }

  lemma LeadsByFirstLetter(s: string, word: string)
    requires s != "" && word != ""
    ensures Leads(s, word) ==> SameLetter(s[0], word[0])
  {
    assert Leads(s, word) ==> s[..|word|][0] == s[0];
  }

  lemma DoorIsNoWord(door: string)
    requires IsDoor(door)
    ensures !Leads(door, "flat") && !Leads(door, "no")
    ensures door[0] !in FILLERS && door[0] !in SEPARATORS && Last(door) in DIGITS && Last(door) !in SPACES
  {
    Classes(door[0]);
    Classes(Last(door));
    LeadsByFirstLetter(door, "flat");
    LeadsByFirstLetter(door, "no");
  }

  // --------------------------------------------- exactly when the two rules agree

  predicate Trimmed(s: string) {
    s != "" ==> !IsSpace(s[0]) && !IsSpace(Last(s))
  }

  predicate EndOf(s: string, x: string) {
    |x| <= |s| && s[|s| - |x|..] == x
  }

  lemma EndOfEnd(s: string, x: string, y: string)
    requires EndOf(s, x) && EndOf(x, y)
    ensures EndOf(s, y)
  {
    assert s[|s| - |y|..] == s[|s| - |x|..][|x| - |y|..];
  }

  lemma {:induction false} SkipWhileIsEnd(p: char -> bool, s: string)
    ensures var rest := SkipWhile(p, s); EndOf(s, rest) && (rest == "" || !p(rest[0]))
  {
    if s != "" && p(s[0]) {
      SkipWhileIsEnd(p, s[1..]);
      EndOfEnd(s, s[1..], SkipWhile(p, s[1..]));
    }
  }

  lemma {:induction false} SkipWhileDrops(p: char -> bool, s: string)
    ensures AllOf(p, s[..|s| - |SkipWhile(p, s)|])
  {
    if s != "" && p(s[0]) {
      var dropped := |s| - |SkipWhile(p, s)|;
      SkipWhileDrops(p, s[1..]);
      assert s[..dropped] == [s[0]] + s[1..][..dropped - 1];
    }
  }

  // Trimming the end of trimmed text takes only spaces from its front.
  lemma TrimOfEnd(s: string, x: string)
    requires Trimmed(s) && EndOf(s, x)
    ensures Trim(x) == SkipWhile(IsSpace, x) && EndOf(s, Trim(x)) && Trimmed(Trim(x))
  {
    var rest := SkipWhile(IsSpace, x);
    SkipWhileIsEnd(IsSpace, x);
    EndOfEnd(s, x, rest);
    if rest != "" {
      assert Last(rest) == Last(s);
    }
  }

  lemma {:induction false} TrimIsTrimmed(s: string)
    ensures Trimmed(Trim(s))
  {
    var rest := SkipWhile(IsSpace, s);
    SkipWhileIsEnd(IsSpace, s);
    TrimEndIsTrimmed(rest);
  }

  lemma {:induction false} TrimEndIsTrimmed(s: string)
    requires s == "" || !IsSpace(s[0])
    ensures Trimmed(TrimEnd(s))
  {
    if s != "" && IsSpace(Last(s)) {
      TrimEndIsTrimmed(Init(s));
    }
  }

  lemma AfterFlatNoIsEnd(s: string)
    requires AfterFlatNo(s).Some?
    ensures EndOf(s, AfterFlatNo(s).value) && |AfterFlatNo(s).value| < |s|
  {
    var rest := SkipWhile(IsSpace, s[4..]);
    SkipWhileIsEnd(IsSpace, s[4..]);
    if LeadsWithWord(rest, "no") {
      EndOfEnd(s, s[4..], rest);
      EndOfEnd(s, rest, AfterFlatNo(s).value);
    }
  }

  // Both flat-word rules keep an end of the text; the mobile one keeps all of it only
  // where there is no flat word.
  lemma MobileStripIsEnd(s: string)
    requires Trimmed(s)
    ensures var r := MobileStripFlatWord(s);
            && EndOf(s, r) && Trimmed(r) && (r == s <==> !LeadsWithWord(s, "flat"))
  {
    match AfterFlatNo(s)
    case None => TrimOfEnd(s, s);
    case Some(rest) =>
      AfterFlatNoIsEnd(s);
      SkipWhileIsEnd(IsFlatFiller, rest);
      EndOfEnd(s, rest, SkipWhile(IsFlatFiller, rest));
      TrimOfEnd(s, SkipWhile(IsFlatFiller, rest));
  }

  // "Flat" with nothing behind it, or with a colon, point or dash next.
  predicate OddGap(s: string) {
    match AfterFlatNo(s)
    case None => false
    case Some(_) => BehindFlat(s) == "" || IsFlatFiller(BehindFlat(s)[0])
  }

  // What stands behind "flat no" and its spaces.
  function BehindFlat(s: string): string
    requires AfterFlatNo(s).Some?
  {
    SkipWhile(IsSpace, AfterFlatNo(s).value)
  }

  lemma BehindFlatIsEnd(s: string)
    requires Trimmed(s) && AfterFlatNo(s).Some?
    ensures EndOf(s, BehindFlat(s)) && |BehindFlat(s)| < |s|
    ensures Trimmed(BehindFlat(s)) && Trim(BehindFlat(s)) == BehindFlat(s)
  {
    var rest, next := AfterFlatNo(s).value, BehindFlat(s);
    AfterFlatNoIsEnd(s);
    SkipWhileIsEnd(IsSpace, rest);
    EndOfEnd(s, rest, next);
    TrimOfEnd(s, next);
  }

  lemma StripsBehindFlat(s: string)
    requires Trimmed(s) && AfterFlatNo(s).Some?
    ensures WebStripFlatWord(s) == if BehindFlat(s) != "" then BehindFlat(s) else s
    ensures MobileStripFlatWord(s) == SkipWhile(IsFlatFiller, BehindFlat(s))
  {
    var next := BehindFlat(s);
    BehindFlatIsEnd(s);
    SameFillers(AfterFlatNo(s).value);
    SkipWhileIsEnd(IsFlatFiller, next);
    TrimOfEnd(next, SkipWhile(IsFlatFiller, next));
  }

  // The flat-word halves of the two rules agree exactly outside such a gap, where the
  // mobile rule keeps less.
  lemma FlatWordHalvesAgree(s: string)
    requires Trimmed(s)
    ensures var m, v := MobileStripFlatWord(s), WebStripFlatWord(s);
            && EndOf(v, m) && Trimmed(v) && (m == v <==> !OddGap(s))
  {
    match AfterFlatNo(s)
    case None => TrimOfEnd(s, s);
    case Some(_) =>
      BehindFlatIsEnd(s);
      StripsBehindFlat(s);
      SkipWhileIsEnd(IsFlatFiller, BehindFlat(s));
  }

  // Spaces are among the characters dropped, so dropping them first changes nothing.
  lemma {:induction false} SameFillers(s: string)
    ensures SkipWhile(IsFlatFiller, s) == SkipWhile(IsFlatFiller, SkipWhile(IsSpace, s))
  {
    if s != "" && IsSpace(s[0]) {
      SameFillers(s[1..]);
    }
  }

  // The tower step the two rules share, given the short form each computes.
  function TowerOff(value: string, tower: string, short: string): string {
    match WebStripPrefix(value, tower)
    case Some(bare) => bare
    case None => if short != tower then WebStripPrefix(value, short).GetOr(value) else value
  }

  lemma PrefixOffIsEnd(value: string, prefix: string)
    requires Trimmed(value) && WebStripPrefix(value, prefix).Some?
    ensures var bare := WebStripPrefix(value, prefix).value;
            && EndOf(value, bare) && |bare| < |value| && Trimmed(bare)
            && bare == SkipWhile(IsSeparator, value[|prefix|..])
  {
    var rest := value[|prefix|..];
    var bare := SkipWhile(IsSeparator, rest);
    SkipWhileIsEnd(IsSeparator, rest);
    EndOfEnd(value, rest, bare);
    TrimOfEnd(value, bare);
  }

  lemma TowerOffIsEnd(value: string, tower: string, short: string)
    requires Trimmed(value)
    ensures var bare := TowerOff(value, tower, short);
            EndOf(value, bare) && Trimmed(bare)
  {
    if WebStripPrefix(value, tower).Some? { PrefixOffIsEnd(value, tower); }
    if WebStripPrefix(value, short).Some? { PrefixOffIsEnd(value, short); }
  }

  function TextOf(field: Option<string>): string {
    Trim(field.GetOr(""))
  }

  lemma MobileInSteps(unit: Option<string>, towerName: Option<string>)
    ensures var v, tower := MobileStripFlatWord(TextOf(unit)), TextOf(towerName);
            MobileBareFlat(unit, towerName) ==
            if tower == "" then v else MobileStripFlatWord(TowerOff(v, tower, MobileShort(tower)))
  {
    var v, tower := MobileStripFlatWord(TextOf(unit)), TextOf(towerName);
    TrimIsTrimmed(unit.GetOr(""));
    MobileStripIsEnd(TextOf(unit));
    PrefixRulesAgree(v, tower);
    PrefixRulesAgree(v, MobileShort(tower));
    if WebStripPrefix(v, tower).Some? { PrefixOffIsEnd(v, tower); }
  }

  lemma WebInSteps(unit: Option<string>, towerName: Option<string>)
    ensures var v, tower := WebStripFlatWord(TextOf(unit)), TextOf(towerName);
            WebBareFlat(unit, towerName) == if tower == "" then v else TowerOff(v, tower, WebShort(tower))
  {
  }

  // Where the two short forms differ, mobile has none, and the web's begins with a
  // character that belongs to no word.
  lemma ShortFormsDiffer(tower: string)
    requires Trimmed(tower) && MobileShort(tower) != WebShort(tower)
    ensures MobileShort(tower) == tower
    ensures WebShort(tower) != "" ==> !IsWordChar(WebShort(tower)[0])
  {
    TrimOfEnd(tower, tower);
    var n := BuildingWord(tower);
    TrimOfEnd(tower, tower[n..]);
  }

  // The web rule takes a short form off that the mobile rule does not have: "Block-C" has
  // the short form "-C" on the web.
  predicate WebOnlyShort(value: string, tower: string) {
    && WebStripPrefix(value, tower).None?
    && WebShort(tower) != tower && WebShort(tower) != MobileShort(tower)
    && WebStripPrefix(value, WebShort(tower)).Some?
  }

  // From one value, the rest of the two rules agree exactly when the web takes off no
  // such short form and no flat word shows once the tower is off.
  lemma TowerHalvesAgree(value: string, tower: string)
    requires Trimmed(value) && Trimmed(tower)
    ensures MobileStripFlatWord(TowerOff(value, tower, MobileShort(tower))) == TowerOff(value, tower, WebShort(tower)) <==>
            !WebOnlyShort(value, tower) && !LeadsWithWord(TowerOff(value, tower, MobileShort(tower)), "flat")
  {
    var a := TowerOff(value, tower, MobileShort(tower));
    TowerOffIsEnd(value, tower, MobileShort(tower));
    MobileStripIsEnd(a);
    if WebOnlyShort(value, tower) {
      WebOnlyShortDiffers(value, tower);
    } else {
      SameTowerOff(value, tower);
    }
  }

  lemma SameTowerOff(value: string, tower: string)
    requires Trimmed(tower) && !WebOnlyShort(value, tower)
    ensures TowerOff(value, tower, MobileShort(tower)) == TowerOff(value, tower, WebShort(tower))
  {
    if MobileShort(tower) != WebShort(tower) {
      ShortFormsDiffer(tower);
    }
  }

  lemma WebOnlyShortDiffers(value: string, tower: string)
    requires Trimmed(value) && Trimmed(tower) && WebOnlyShort(value, tower)
    ensures TowerOff(value, tower, MobileShort(tower)) == value && !LeadsWithWord(value, "flat")
    ensures |TowerOff(value, tower, WebShort(tower))| < |value|
  {
    ShortFormsDiffer(tower);
    PrefixOffIsEnd(value, WebShort(tower));
    PunctuatedIsNoFlat(value, WebShort(tower));
  }

  lemma PunctuatedIsNoFlat(value: string, prefix: string)
    requires prefix != "" && Begins(value, prefix) && !IsWordChar(prefix[0])
    ensures !LeadsWithWord(value, "flat")
  {
    assert Lower(value[0]) == Lower(prefix[0]);
    assert Lower("flat"[0]) == 'f';
  }

  // What the web rule takes off the front of a value.
  function WebPrefixOf(value: string, tower: string): Option<string> {
    if WebStripPrefix(value, tower).Some? then Some(tower)
    else if WebShort(tower) != tower && WebStripPrefix(value, WebShort(tower)).Some? then Some(WebShort(tower))
    else None
  }

  // `rest` ends the value, and between it and the prefix there are separators only.
  predicate StandsBehind(value: string, prefix: string, rest: string) {
    && rest != "" && !IsSeparator(rest[0]) && |prefix| + |rest| <= |value|
    && AllOf(IsSeparator, value[|prefix|..|value| - |rest|])
  }

  lemma SkipsToIff(p: char -> bool, s: string, rest: string)
    requires EndOf(s, rest)
    ensures SkipWhile(p, s) == rest <==> (rest == "" || !p(rest[0])) && AllOf(p, s[..|s| - |rest|])
  {
    SkipWhileIsEnd(p, s);
    SkipWhileDrops(p, s);
    var skipped := s[..|s| - |rest|];
    assert s == skipped + rest;
    if (rest == "" || !p(rest[0])) && AllOf(p, skipped) {
      SkipsAll(p, skipped, rest);
    }
  }

  lemma PrefixOffIff(value: string, prefix: string, rest: string)
    requires Trimmed(value) && WebStripPrefix(value, prefix).Some? && EndOf(value, rest)
    ensures WebStripPrefix(value, prefix).value == rest <==> StandsBehind(value, prefix, rest)
  {
    var tail := value[|prefix|..];
    PrefixOffIsEnd(value, prefix);
    if |rest| <= |tail| {
      assert EndOf(tail, rest) by { assert tail[|tail| - |rest|..] == value[|value| - |rest|..]; }
      SkipsToIff(IsSeparator, tail, rest);
      assert tail[..|tail| - |rest|] == value[|prefix|..|value| - |rest|];
    } else {
      SkipWhileIsEnd(IsSeparator, tail);
    }
  }

  // The prefix in any case, then separators, then the rest.
  predicate Separated(value: string, prefix: string, rest: string) {
    var at := |value| - |rest|;
    && prefix != "" && rest != "" && |prefix| < at
    && AnyCase(value[..|prefix|], prefix) && Among(value[|prefix|..at], SEPARATORS)
    && value[at..] == rest && rest[0] !in SEPARATORS
  }

  // The tower comes off a text exactly when it stands at its head, in any case, with
  // separators behind it and something behind those; and then the rest stays.
  lemma PrefixComesOffIff(value: string, prefix: string, rest: string)
    requires Trimmed(value)
    ensures WebStripPrefix(value, prefix) == Some(rest) <==> Separated(value, prefix, rest)
  {
    if Separated(value, prefix, rest) {
      SeparatedComesOff(value, prefix, rest);
    }
    if WebStripPrefix(value, prefix) == Some(rest) {
      OnlySeparatedComesOff(value, prefix, rest);
    }
  }

  lemma SeparatedComesOff(value: string, prefix: string, rest: string)
    requires Trimmed(value) && Separated(value, prefix, rest)
    ensures WebStripPrefix(value, prefix) == Some(rest)
  {
    var n, at := |prefix|, |value| - |rest|;
    assert Last(rest) == Last(value);
    Classes(Last(rest));
    assert value[n..at][0] == value[n];
    assert value == value[..n] + value[n..at] + rest;
    NamedPrefixComesOff(value[..n], prefix, value[n..at], rest);
  }

  lemma OnlySeparatedComesOff(value: string, prefix: string, rest: string)
    requires Trimmed(value) && WebStripPrefix(value, prefix) == Some(rest)
    ensures Separated(value, prefix, rest)
  {
    PrefixOffIsEnd(value, prefix);
    PrefixOffIff(value, prefix, rest);
    AnyCaseIsBegins(value, prefix);
    Classes(rest[0]);
    Classed(value[|prefix|..|value| - |rest|]);
    assert value[|prefix|] != rest[0];
  }

  // The condition, on the address and the tower as they are written: behind an odd gap,
  // the web has to take a prefix off, the mobile rule no tower, and with the flat word taken
  // off twice what is left has to stand right behind that prefix; otherwise no tower, or the
  // condition of the tower halves.
  predicate WrittenForBoth(unit: Option<string>, towerName: Option<string>) {
    var s, tower := TextOf(unit), TextOf(towerName);
    var m := MobileStripFlatWord(s);
    if OddGap(s) then
      var value := WebStripFlatWord(s);
      && WebPrefixOf(value, tower).Some? && TowerOff(m, tower, MobileShort(tower)) == m
      && StandsBehind(value, WebPrefixOf(value, tower).value, MobileStripFlatWord(m))
    else
      tower == "" || (!WebOnlyShort(m, tower) && !LeadsWithWord(TowerOff(m, tower, MobileShort(tower)), "flat"))
  }

  // For every address and every tower: mobile and web read the same flat number exactly then.
  lemma RulesAgreeIff(unit: Option<string>, towerName: Option<string>)
    ensures MobileBareFlat(unit, towerName) == WebBareFlat(unit, towerName) <==> WrittenForBoth(unit, towerName)
  {
    var s, tower := TextOf(unit), TextOf(towerName);
    TrimIsTrimmed(unit.GetOr(""));
    TrimIsTrimmed(towerName.GetOr(""));
    FlatWordHalvesAgree(s);
    MobileInSteps(unit, towerName);
    WebInSteps(unit, towerName);
    if OddGap(s) {
      OddGapAgreesIff(unit, towerName);
    } else if tower != "" {
      TowerHalvesAgree(MobileStripFlatWord(s), tower);
    }
  }

  lemma OddGapAgreesIff(unit: Option<string>, towerName: Option<string>)
    requires OddGap(TextOf(unit))
    ensures MobileBareFlat(unit, towerName) == WebBareFlat(unit, towerName) <==> WrittenForBoth(unit, towerName)
  {
    TrimIsTrimmed(unit.GetOr(""));
    TrimIsTrimmed(towerName.GetOr(""));
    FlatWordHalvesAgree(TextOf(unit));
    MobileStripIsEnd(TextOf(unit));
    WebInSteps(unit, towerName);
    MobileInSteps(unit, towerName);
    OddGapParts(TextOf(unit));
    OddGapValuesAgreeIff(WebStripFlatWord(TextOf(unit)), MobileStripFlatWord(TextOf(unit)), TextOf(towerName));
  }

  // What the mobile rule makes of its value, once the tower is known.
  function MobileAnswer(m: string, tower: string): string {
    if tower == "" then m else MobileStripFlatWord(TowerOff(m, tower, MobileShort(tower)))
  }

  lemma OddGapValuesAgreeIff(value: string, m: string, tower: string)
    requires Trimmed(value) && Trimmed(m) && Trimmed(tower) && EndOf(value, m) && m != value
    requires value != "" && (m != "" ==> IsFlatFiller(value[0]) && !IsFlatFiller(m[0]))
    ensures MobileAnswer(m, tower) == (if tower == "" then value else TowerOff(value, tower, WebShort(tower))) <==>
            && WebPrefixOf(value, tower).Some? && TowerOff(m, tower, MobileShort(tower)) == m
            && StandsBehind(value, WebPrefixOf(value, tower).value, MobileStripFlatWord(m))
  {
    var bare, answer := TowerOff(m, tower, MobileShort(tower)), MobileAnswer(m, tower);
    TowerOffIsEnd(m, tower, MobileShort(tower));
    MobileStripIsEnd(bare);
    AnswerIsEnd(value, m, bare, answer);
    ShorterAnswerAgreesIff(value, tower, answer);
    if WebPrefixOf(value, tower).Some? && bare != m {
      OddGapTowerOffDiffers(value, m, tower);
    }
  }

  lemma OddGapTowerOffDiffers(value: string, m: string, tower: string)
    requires Trimmed(value) && Trimmed(m) && Trimmed(tower) && EndOf(value, m) && m != value
    requires value != "" && (m != "" ==> IsFlatFiller(value[0]) && !IsFlatFiller(m[0]))
    requires WebPrefixOf(value, tower).Some? && TowerOff(m, tower, MobileShort(tower)) != m
    ensures MobileAnswer(m, tower) != TowerOff(value, tower, WebShort(tower))
  {
    TowerOffBothDiffers(value, m, tower);
    TowerOffIsEnd(m, tower, MobileShort(tower));
    MobileStripIsEnd(TowerOff(m, tower, MobileShort(tower)));
  }

  lemma AnswerIsEnd(value: string, m: string, bare: string, answer: string)
    requires EndOf(value, m) && m != value && EndOf(m, bare) && (answer == m || EndOf(bare, answer))
    ensures EndOf(value, answer) && |answer| < |value| && |bare| <= |m|
  {
    EndOfEnd(value, m, bare);
    if EndOf(bare, answer) { EndOfEnd(value, bare, answer); }
  }

  // Behind an odd gap the web keeps the filler and the mobile rule keeps none of it.
  lemma OddGapParts(s: string)
    requires Trimmed(s) && OddGap(s)
    ensures var value, m := WebStripFlatWord(s), MobileStripFlatWord(s);
            && value != "" && (m != "" ==> IsFlatFiller(value[0]) && !IsFlatFiller(m[0]))
  {
    BehindFlatIsEnd(s);
    StripsBehindFlat(s);
    SkipWhileIsEnd(IsFlatFiller, BehindFlat(s));
  }

  // When the web takes a prefix off and the mobile rule takes the tower off behind the
  // filler, the web leaves more: the tower has letters that its prefix has not.
  lemma TowerOffBothDiffers(value: string, m: string, tower: string)
    requires Trimmed(value) && Trimmed(tower) && Trimmed(m) && EndOf(value, m) && m != ""
    requires IsFlatFiller(value[0]) && !IsFlatFiller(m[0])
    requires WebPrefixOf(value, tower).Some? && TowerOff(m, tower, MobileShort(tower)) != m
    ensures |WebStripPrefix(value, WebPrefixOf(value, tower).value).value| > |TowerOff(m, tower, MobileShort(tower))|
  {
    var prefix := WebPrefixOf(value, tower).value;
    var bare := WebStripPrefix(value, prefix).value;
    PrefixOffIsEnd(value, prefix);
    assert Lower(value[0]) == Lower(prefix[0]) && IsFlatFiller(prefix[0]);
    if WebStripPrefix(m, tower).None? {
      FillerLedShortStays(m, tower);
    } else {
      assert Lower(m[0]) == Lower(tower[0]);
      PrefixOffIsEnd(m, tower);
      assert prefix == WebShort(tower) && prefix != tower;
      ShortHasFewerLetters(tower);
      LettersStopSeparators(value, prefix, m, tower);
    }
  }

  lemma FillerLedShortStays(m: string, tower: string)
    requires m != "" && !IsFlatFiller(m[0]) && WebStripPrefix(m, tower).None? && Trimmed(tower)
    requires tower != "" && (IsFlatFiller(tower[0]) || (WebShort(tower) != "" && IsFlatFiller(WebShort(tower)[0])))
    ensures TowerOff(m, tower, MobileShort(tower)) == m
  {
    var short := MobileShort(tower);
    if short != WebShort(tower) {
      ShortFormsDiffer(tower);
    }
    assert short != "" && Begins(m, short) ==> Lower(m[0]) == Lower(short[0]);
  }

  lemma ShortHasFewerLetters(tower: string)
    requires Trimmed(tower) && WebShort(tower) != tower
    ensures Letters(WebShort(tower)) < Letters(tower)
  {
    var n := BuildingWord(tower);
    TrimOfEnd(tower, tower);
    BuildingWordHasLetters(tower);
    TrimOfEnd(tower, tower[n..]);
    SkipWhileIsEnd(IsSpace, tower[n..]);
    EndHasFewerLetters(tower, n, WebShort(tower));
  }

  lemma EndHasFewerLetters(s: string, n: nat, end: string)
    requires n + |end| <= |s| && EndOf(s, end) && Letters(s[..n]) > 0
    ensures Letters(end) < Letters(s)
  {
    var front := s[..|s| - |end|];
    MoreLettersFurtherOn(s, n, |s| - |end|);
    LettersAdd(front, end);
    assert s == front + end;
  }

  lemma {:induction false} MoreLettersFurtherOn(s: string, i: nat, j: nat)
    requires i <= j <= |s|
    ensures Letters(s[..i]) <= Letters(s[..j])
  {
    if i < j {
      MoreLettersFurtherOn(s, i, j - 1);
      assert Init(s[..j]) == s[..j - 1];
    }
  }

  lemma {:induction false} NoMoreLettersFurtherOn(s: string, i: nat, j: nat)
    requires i <= j <= |s| && forall k | i <= k < j :: !IsLetter(s[k])
    ensures Letters(s[..j]) == Letters(s[..i])
  {
    if i < j {
      NoMoreLettersFurtherOn(s, i, j - 1);
      assert Init(s[..j]) == s[..j - 1];
    }
  }

  lemma {:induction false} EndHasNoMoreLetters(s: string, end: string, t: nat)
    requires EndOf(s, end) && t <= |end|
    ensures Letters(end[..t]) <= Letters(s[..|s| - |end| + t])
  {
    if t > 0 {
      var at := |s| - |end| + t;
      EndHasNoMoreLetters(s, end, t - 1);
      assert Init(end[..t]) == end[..t - 1] && Init(s[..at]) == s[..at - 1];
      assert s[at - 1] == s[|s| - |end|..][t - 1];
    }
  }

  // Separators are skipped only up to the next letter, and the tower at the head of m has
  // more letters than the prefix at the head of the whole value.
  lemma LettersStopSeparators(value: string, prefix: string, m: string, tower: string)
    requires Trimmed(value) && Trimmed(m) && EndOf(value, m)
    requires WebStripPrefix(value, prefix).Some? && WebStripPrefix(m, tower).Some?
    requires Letters(prefix) < Letters(tower)
    ensures |WebStripPrefix(value, prefix).value| > |WebStripPrefix(m, tower).value|
  {
    OffByLetters(value, prefix);
    OffByLetters(m, tower);
    LettersStop(value, prefix, WebStripPrefix(value, prefix).value, m, tower, WebStripPrefix(m, tower).value);
  }

  // What was taken off has just the prefix's letters.
  predicate LettersOff(value: string, prefix: string, left: string) {
    |left| <= |value| && Letters(value[..|value| - |left|]) == Letters(prefix)
  }

  lemma LettersStop(value: string, prefix: string, bare: string, m: string, tower: string, mine: string)
    requires EndOf(value, m) && LettersOff(value, prefix, bare) && LettersOff(m, tower, mine)
    requires Letters(prefix) < Letters(tower)
    ensures |bare| > |mine|
  {
    if |bare| <= |mine| {
      EndHasNoMoreLetters(value, m, |m| - |mine|);
      MoreLettersFurtherOn(value, |value| - |mine|, |value| - |bare|);
    }
  }

  lemma OffByLetters(value: string, prefix: string)
    requires Trimmed(value) && WebStripPrefix(value, prefix).Some?
    ensures LettersOff(value, prefix, WebStripPrefix(value, prefix).value)
  {
    var p, bare := |prefix|, WebStripPrefix(value, prefix).value;
    PrefixOffIsEnd(value, prefix);
    SkipWhileDrops(IsSeparator, value[p..]);
    SkipWhileIsEnd(IsSeparator, value[p..]);
    PrefixLetters(value, prefix);
    forall k | p <= k < |value| - |bare| ensures !IsLetter(value[k]) {
      assert value[k] == value[p..][..|value[p..]| - |bare|][k - p];
    }
    NoMoreLettersFurtherOn(value, p, |value| - |bare|);
  }

  lemma PrefixLetters(value: string, prefix: string)
    requires Begins(value, prefix)
    ensures Letters(value[..|prefix|]) == Letters(prefix)
  {
    var head := value[..|prefix|];
    assert forall i | 0 <= i < |prefix| :: head[i] == value[i];
    SameLetters(head, prefix);
  }

  lemma ShorterAnswerAgreesIff(value: string, tower: string, answer: string)
    requires Trimmed(value) && EndOf(value, answer) && |answer| < |value|
    ensures answer == (if tower == "" then value else TowerOff(value, tower, WebShort(tower))) <==>
            WebPrefixOf(value, tower).Some? && StandsBehind(value, WebPrefixOf(value, tower).value, answer)
  {
    if WebPrefixOf(value, tower).Some? {
      PrefixOffIff(value, WebPrefixOf(value, tower).value, answer);
    }
  }

  // A tower named with punctuation first, or with a building word and no space behind it.
  predicate OddTower(tower: string) {
    tower != "" && (IsFlatFiller(tower[0]) || (WebShort(tower) != "" && !IsWordChar(WebShort(tower)[0])))
  }

  // For every other tower: the rules agree exactly where the address has no odd gap and no
  // flat word shows behind the tower.
  lemma PlainTowersAgreeIff(unit: Option<string>, towerName: Option<string>)
    requires !OddTower(TextOf(towerName))
    ensures var s, tower := TextOf(unit), TextOf(towerName);
            MobileBareFlat(unit, towerName) == WebBareFlat(unit, towerName) <==>
            && !OddGap(s)
            && (tower == "" || !LeadsWithWord(TowerOff(MobileStripFlatWord(s), tower, MobileShort(tower)), "flat"))
  {
    var s, tower := TextOf(unit), TextOf(towerName);
    TrimIsTrimmed(unit.GetOr(""));
    TrimIsTrimmed(towerName.GetOr(""));
    RulesAgreeIff(unit, towerName);
    if OddGap(s) {
      PlainTowerStaysBehindGap(s, tower);
    } else if WebOnlyShort(MobileStripFlatWord(s), tower) {
      ShortFormsDiffer(tower);
    }
  }

  // A filler at the head of a value is the head of its prefix, too.
  lemma FillerLeadsNoPlainPrefix(value: string, prefix: string)
    requires prefix != "" && Begins(value, prefix)
    ensures IsFlatFiller(value[0]) ==> IsFlatFiller(prefix[0]) && !IsWordChar(prefix[0])
  {
    assert Lower(value[0]) == Lower(prefix[0]);
  }

  lemma PlainTowerStaysBehindGap(s: string, tower: string)
    requires Trimmed(s) && OddGap(s) && !OddTower(tower)
    ensures var value, m := WebStripFlatWord(s), MobileStripFlatWord(s);
            m == "" || WebPrefixOf(value, tower).None?
  {
    var value := WebStripFlatWord(s);
    OddGapParts(s);
    if WebPrefixOf(value, tower).Some? {
      FillerLeadsNoPlainPrefix(value, WebPrefixOf(value, tower).value);
    }
  }
}
