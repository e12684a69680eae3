/** Account mapping rules: text normalisation, rule scopes and ids, and ranked resolution with an
    ambiguity verdict. A rule id stands for the scope key it is a digest of. */
module MappingRules {
  import opened Results
  import opened Text

  // ---------------------------------------------------------------- text

  const SEPARATOR: char := '\U{1F}'

  function Spaced(text: string): string {
    seq(|text|, i requires 0 <= i < |text| => if text[i] == '\U{A0}' || text[i] == '\U{3000}' then ' ' else text[i])
  }

  function DropSpaces(text: string): string {
    if text != [] && IsSpace(text[0]) then DropSpaces(text[1..]) else text
  }

  lemma {:induction false} DropSpacesShrinks(text: string)
    ensures |DropSpaces(text)| <= |text|
    ensures DropSpaces(text) == [] || !IsSpace(DropSpaces(text)[0])
  {
    if text != [] && IsSpace(text[0]) { DropSpacesShrinks(text[1..]); }
  }

  /** Every run of white space becomes one space. */
  function Collapse(text: string): string
    decreases |text|
  {
    if text == [] then []
    else if IsSpace(text[0]) then
      DropSpacesShrinks(text[1..]);
      " " + Collapse(DropSpaces(text[1..]))
    else [text[0]] + Collapse(text[1..])
  }

  function Normalize(text: string): string { Strip(Collapse(Strip(Spaced(text)))) }

  predicate SingleSpaced(text: string) {
    && (forall i :: 0 <= i < |text| && IsSpace(text[i]) ==> text[i] == ' ')
    && (forall i :: 0 < i < |text| ==> !(IsSpace(text[i - 1]) && IsSpace(text[i])))
  }

  /** Normal texts: no white space but single spaces between other characters. */
  predicate Normal(text: string) { SingleSpaced(text) && Trimmed(text) }

  lemma {:induction false} CollapseIsSingleSpaced(text: string)
    ensures SingleSpaced(Collapse(text))
    ensures text != [] && !IsSpace(text[0]) ==> Collapse(text) != [] && Collapse(text)[0] == text[0]
    decreases |text|
  {
    if text != [] {
      if IsSpace(text[0]) {
        DropSpacesShrinks(text[1..]);
        CollapseIsSingleSpaced(DropSpaces(text[1..]));
        CollapseOfNothing(DropSpaces(text[1..]));
      } else {
        CollapseIsSingleSpaced(text[1..]);
      }
    }
  }

  lemma CollapseOfNothing(text: string)
    ensures Collapse(text) == [] <==> text == []
  {
  }

  lemma {:induction false} StripIsInfix(text: string) returns (a: nat, b: nat)
    ensures a <= b <= |text| && Strip(text) == text[a..b]
  {
    a := StripLeftIsSuffix(text);
    StripRightEnds(StripLeft(text));
    b := a + |Strip(text)|;
  }

  lemma {:induction false} StripLeftIsSuffix(text: string) returns (a: nat)
    ensures a <= |text| && StripLeft(text) == text[a..]
  {
    if text != [] && IsSpace(text[0]) {
      a := StripLeftIsSuffix(text[1..]);
      a := a + 1;
    } else {
      a := 0;
    }
  }

  lemma NormalizeIsNormal(text: string)
    ensures Normal(Normalize(text))
  {
    var collapsed := Collapse(Strip(Spaced(text)));
    CollapseIsSingleSpaced(Strip(Spaced(text)));
    StripIsTrimmed(collapsed);
    var a, b := StripIsInfix(collapsed);
  }

  lemma {:induction false} CollapseFixes(text: string)
    requires SingleSpaced(text)
    ensures Collapse(text) == text
    decreases |text|
  {
    if text != [] {
      assert SingleSpaced(text[1..]) by {
        assert forall i :: 0 <= i < |text[1..]| ==> text[1..][i] == text[i + 1];
        assert forall i :: 0 < i < |text[1..]| ==> text[1..][i - 1] == text[i];
      }
      CollapseFixes(text[1..]);
      if IsSpace(text[0]) {
        assert |text| > 1 ==> !IsSpace(text[1]);
        assert DropSpaces(text[1..]) == text[1..];
      }
    }
  }

  /** Normalising changes exactly the texts that are not normal; so it is idempotent. */
  lemma NormalizeFixes(text: string)
    ensures Normalize(text) == text <==> Normal(text)
  {
    NormalizeIsNormal(text);
    if Normal(text) {
      assert Spaced(text) == text;
      StripFixes(text);
      CollapseFixes(text);
    }
  }

  /** The characters that are no white space, each with whether a gap comes before it; the start is a gap. */
  function Letters(text: string, gap: bool): seq<(bool, char)> {
    if text == [] then []
    else if IsSpace(text[0]) then Letters(text[1..], true)
    else [(gap, text[0])] + Letters(text[1..], false)
  }

  lemma {:induction false} SpacedLetters(text: string, gap: bool)
    ensures Letters(Spaced(text), gap) == Letters(text, gap)
  {
    if text != [] {
      assert Spaced(text)[1..] == Spaced(text[1..]);
      SpacedLetters(text[1..], if IsSpace(text[0]) then true else false);
    }
  }

  lemma {:induction false} StripLeftLetters(text: string)
    ensures Letters(StripLeft(text), true) == Letters(text, true)
  {
    if text != [] && IsSpace(text[0]) { StripLeftLetters(text[1..]); }
  }

  lemma {:induction false} SpaceAtEnd(text: string, gap: bool)
    requires text != [] && IsSpace(text[|text| - 1])
    ensures Letters(text[..|text| - 1], gap) == Letters(text, gap)
  {
    if |text| > 1 {
      var front := text[..|text| - 1];
      assert front[1..] == text[1..][..|text[1..]| - 1];
      SpaceAtEnd(text[1..], if IsSpace(text[0]) then true else false);
    }
  }

  lemma {:induction false} StripRightLetters(text: string, gap: bool)
    ensures Letters(StripRight(text), gap) == Letters(text, gap)
  {
    if text != [] && IsSpace(text[|text| - 1]) {
      SpaceAtEnd(text, gap);
      StripRightLetters(text[..|text| - 1], gap);
    }
  }

  lemma {:induction false} DropSpacesLetters(text: string)
    ensures Letters(DropSpaces(text), true) == Letters(text, true)
  {
    if text != [] && IsSpace(text[0]) { DropSpacesLetters(text[1..]); }
  }

  lemma {:induction false} CollapseLetters(text: string, gap: bool)
    ensures Letters(Collapse(text), gap) == Letters(text, gap)
    decreases |text|
  {
    if text != [] {
      if IsSpace(text[0]) {
        DropSpacesShrinks(text[1..]);
        DropSpacesLetters(text[1..]);
        CollapseLetters(DropSpaces(text[1..]), true);
        assert (" " + Collapse(DropSpaces(text[1..])))[1..] == Collapse(DropSpaces(text[1..]));
      } else {
        CollapseLetters(text[1..], false);
        assert ([text[0]] + Collapse(text[1..]))[1..] == Collapse(text[1..]);
      }
    }
  }

  /** Normalising keeps every other character and every gap between two of them. */
  lemma NormalizeKeepsLetters(text: string)
    ensures Letters(Normalize(text), true) == Letters(text, true)
  {
    var spaced := Spaced(text);
    var stripped := Strip(spaced);
    var collapsed := Collapse(stripped);
    SpacedLetters(text, true);
    StripLeftLetters(spaced);
    StripRightLetters(StripLeft(spaced), true);
    CollapseLetters(stripped, true);
    StripLeftLetters(collapsed);
    StripRightLetters(StripLeft(collapsed), true);
  }

  lemma {:induction false} OnlySpaces(text: string, gap: bool)
    requires Letters(text, gap) == []
    ensures forall i :: 0 <= i < |text| ==> IsSpace(text[i])
  {
    if text != [] {
      OnlySpaces(text[1..], true);
      assert forall i :: 1 <= i < |text| ==> text[i] == text[1..][i - 1];
    }
  }

  predicate Ends(text: string) { text == [] || !IsSpace(text[|text| - 1]) }

  lemma TailIsTight(text: string)
    requires text != [] && SingleSpaced(text) && Ends(text)
    ensures SingleSpaced(text[1..]) && Ends(text[1..]) && (IsSpace(text[0]) ==> text[0] == ' ' && text[1..] != [] && !IsSpace(text[1..][0]))
  {
    assert forall i :: 0 <= i < |text[1..]| ==> text[1..][i] == text[i + 1];
    assert forall i :: 0 < i < |text[1..]| ==> text[1..][i - 1] == text[i];
  }

  /** Tight texts with the same letters are the same. */
  lemma {:induction false} LettersDecide(a: string, b: string, gap: bool)
    requires SingleSpaced(a) && SingleSpaced(b) && Ends(a) && Ends(b) && Letters(a, gap) == Letters(b, gap)
    requires gap ==> (a == [] || !IsSpace(a[0])) && (b == [] || !IsSpace(b[0]))
    ensures a == b
    decreases |a| + |b|
  {
    if a == [] {
      OnlySpaces(b, gap);
    } else if b == [] {
      OnlySpaces(a, gap);
    } else {
      TailIsTight(a);
      TailIsTight(b);
      assert a == [a[0]] + a[1..] && b == [b[0]] + b[1..];
      LettersStart(a, gap);
      LettersStart(b, gap);
      LettersDecide(a[1..], b[1..], IsSpace(a[0]));
    }
  }

  lemma LettersStart(a: string, gap: bool)
    requires a != [] && SingleSpaced(a) && Ends(a)
    ensures Letters(a, gap) != []
    ensures IsSpace(a[0]) ==> Letters(a, gap) == Letters(a[1..], true) && Letters(a, gap)[0].0
    ensures !IsSpace(a[0]) ==> Letters(a, gap)[0] == (gap, a[0]) && Letters(a, gap)[1..] == Letters(a[1..], false)
  {
    TailIsTight(a);
  }

  /** The normalised text is the only normal one with these letters and gaps. */
  lemma NormalizeIsExact(text: string, normal: string)
    ensures normal == Normalize(text) <==> Normal(normal) && Letters(normal, true) == Letters(text, true)
  {
    hide Normalize;
    NormalizeIsNormal(text);
    NormalizeKeepsLetters(text);
    if Normal(normal) && Letters(normal, true) == Letters(text, true) { LettersDecide(normal, Normalize(text), true); }
  }

  lemma NormalHasNoSeparator(text: string)
    requires Normal(text)
    ensures SEPARATOR !in text
  {
    assert IsSpace(SEPARATOR);
  }

  // ---------------------------------------------------------------- keys

  function Join(fields: seq<string>): string {
    if |fields| == 0 then "" else if |fields| == 1 then fields[0] else fields[0] + [SEPARATOR] + Join(fields[1..])
  }

  lemma SplitAtSeparator(a: string, x: string, b: string, y: string)
    requires SEPARATOR !in a && SEPARATOR !in b && a + [SEPARATOR] + x == b + [SEPARATOR] + y
    ensures a == b && x == y
  {
    var left, right := a + [SEPARATOR] + x, b + [SEPARATOR] + y;
    assert left[|a|] == SEPARATOR && right[|b|] == SEPARATOR;
    assert forall i :: 0 <= i < |a| ==> left[i] == a[i];
    assert forall i :: 0 <= i < |b| ==> right[i] == b[i];
    assert left[..|a|] == a && right[..|b|] == b && left[|a| + 1..] == x && right[|b| + 1..] == y;
  }

  /** Joining separator-free fields loses nothing. */
  lemma {:induction false} JoinIsInjective(a: seq<string>, b: seq<string>)
    requires |a| == |b| && Join(a) == Join(b)
    requires forall i :: 0 <= i < |a| ==> SEPARATOR !in a[i] && SEPARATOR !in b[i]
    ensures a == b
  {
    if |a| > 1 {
      SplitAtSeparator(a[0], Join(a[1..]), b[0], Join(b[1..]));
      JoinIsInjective(a[1..], b[1..]);
      assert a == [a[0]] + a[1..] && b == [b[0]] + b[1..];
    } else if |a| == 1 {
      assert a == [a[0]] && b == [b[0]];
    }
  }

  lemma {:induction false} NatTextHasNoSeparator(n: nat)
    ensures SEPARATOR !in NatText(n)
  {
    if n >= 10 { NatTextHasNoSeparator(n / 10); }
  }

  // ---------------------------------------------------------------- dates

  predicate LexLess(a: string, b: string) {
    if a == [] then b != [] else b != [] && (a[0] < b[0] || (a[0] == b[0] && LexLess(a[1..], b[1..])))
  }

  function DaysIn(year: nat, month: nat): nat {
    if month == 2 then (if year % 4 == 0 && (year % 100 != 0 || year % 400 == 0) then 29 else 28)
    else if month in {4, 6, 9, 11} then 30 else 31
  }

  /** Eight digits that name a day. */
  predicate IsDay(digits: string) {
    && |digits| == 8 && AllDigits(digits)
    && var year, month, day := NatValue(digits[..4]), NatValue(digits[4..6]), NatValue(digits[6..]);
       1 <= year && 1 <= month <= 12 && 1 <= day <= DaysIn(year, month)
  }

  function IsoText(digits: string): string
    requires |digits| == 8
  {
    digits[..4] + "-" + digits[4..6] + "-" + digits[6..]
  }

  /** The digits of a calendar date, written with dashes or without. */
  function DateDigits(text: string): string {
    if |text| == 10 && text[4] == '-' && text[7] == '-' then text[..4] + text[5..7] + text[8..] else text
  }

  /** The normalised date: empty stays empty, anything that names no day is refused. */
  function IsoDate(text: string): Option<string> {
    var digits := DateDigits(Normalize(text));
    if Normalize(text) == "" then Some("") else if IsDay(digits) then Some(IsoText(digits)) else None
  }

  /** The calendar is the Gregorian one: a year has 365 days, and 366 if it divides by four and not by a hundred, or
      by four hundred. */
  lemma MonthsAddUp(year: nat)
    ensures DaysIn(year, 1) + DaysIn(year, 2) + DaysIn(year, 3) + DaysIn(year, 4) + DaysIn(year, 5) + DaysIn(year, 6)
            + DaysIn(year, 7) + DaysIn(year, 8) + DaysIn(year, 9) + DaysIn(year, 10) + DaysIn(year, 11) + DaysIn(year, 12)
         == if year % 400 == 0 || (year % 4 == 0 && year % 100 != 0) then 366 else 365
    ensures forall month :: 1 <= month <= 12 ==> 28 <= DaysIn(year, month) <= 31
  {
  }

  /** The normalised date, exactly: of a text that is, white space apart, the digits of a day with or without its
      dashes, the digits with dashes; of a text of white space only, nothing. */
  lemma IsoDateExactly(text: string, date: string)
    ensures IsoDate(text) == Some(date)
       <==> || (date == "" && Normalize(text) == "")
            || (exists digits :: |digits| == 8 && IsDay(digits) && date == IsoText(digits) && (Normalize(text) == digits || Normalize(text) == IsoText(digits)))
  {
    hide Normalize, IsDay;
    var normal := Normalize(text);
    forall digits | |digits| == 8 && IsDay(digits) && (normal == digits || normal == IsoText(digits)) ensures DateDigits(normal) == digits && normal != "" {
      DayIsDigits(digits);
      IsoTextIsNormal(digits);
      assert |digits| == 8;
    }
    if normal != "" && IsDay(DateDigits(normal)) {
      DayIsDigits(DateDigits(normal));
      if |normal| == 10 && normal[4] == '-' && normal[7] == '-' { DashedIsIso(normal); }
    }
  }

  lemma DashedIsIso(text: string)
    requires |text| == 10 && text[4] == '-' && text[7] == '-'
    ensures |DateDigits(text)| == 8 && IsoText(DateDigits(text)) == text
  {
    var digits := text[..4] + text[5..7] + text[8..];
    assert digits[..4] == text[..4] && digits[4..6] == text[5..7] && digits[6..] == text[8..];
    assert text == text[..4] + [text[4]] + text[5..7] + [text[7]] + text[8..];
  }

  lemma IsoTextIsNormal(digits: string)
    requires |digits| == 8 && AllDigits(digits)
    ensures Normal(IsoText(digits)) && IsoText(digits) != "" && DateDigits(IsoText(digits)) == digits
  {
    var text := IsoText(digits);
    assert |text| == 10 && text[4] == '-' && text[7] == '-';
    assert text[..4] == digits[..4] && text[5..7] == digits[4..6] && text[8..] == digits[6..];
    assert digits == digits[..4] + digits[4..6] + digits[6..];
    assert forall i :: 0 <= i < 10 ==> text[i] == '-' || IsDigit(text[i]);
  }

  lemma IsoDateIsStable(text: string)
    requires IsoDate(text).Some?
    ensures IsoDate(IsoDate(text).value) == IsoDate(text) && Normal(IsoDate(text).value)
  {
    hide Normalize, IsDay;
    NormalizeFixes("");
    if Normalize(text) != "" {
      var digits := DateDigits(Normalize(text));
      DayIsDigits(digits);
      IsoTextIsNormal(digits);
      NormalizeFixes(IsoText(digits));
    }
  }

  lemma DayIsDigits(digits: string)
    requires IsDay(digits)
    ensures |digits| == 8 && AllDigits(digits)
  {
  }

  /** Texts compare by their first parts of equal size, then by the rest. */
  lemma {:induction false} LexByParts(a: string, x: string, b: string, y: string)
    requires |a| == |b|
    ensures LexLess(a + x, b + y) <==> LexLess(a, b) || (a == b && LexLess(x, y))
    decreases |a|
  {
    if a == [] {
      assert a + x == x && b + y == y;
    } else {
      assert (a + x)[1..] == a[1..] + x && (b + y)[1..] == b[1..] + y;
      assert a == [a[0]] + a[1..] && b == [b[0]] + b[1..];
      LexByParts(a[1..], x, b[1..], y);
    }
  }

  lemma {:induction false} LexIsNumeric(a: string, b: string)
    requires |a| == |b| && AllDigits(a) && AllDigits(b)
    ensures LexLess(a, b) <==> NatValue(a) < NatValue(b)
    ensures a == b <==> NatValue(a) == NatValue(b)
    decreases |a|
  {
    if a != [] {
      var n := |a| - 1;
      LexIsNumeric(a[..n], b[..n]);
      LexByParts(a[..n], [a[n]], b[..n], [b[n]]);
      assert a == a[..n] + [a[n]] && b == b[..n] + [b[n]];
      assert LexLess([a[n]], [b[n]]) <==> a[n] < b[n];
    }
  }

  /** Comparing normalised dates as texts is comparing days. */
  lemma DatesCompareAsDays(a: string, b: string)
    requires IsDay(a) && IsDay(b)
    ensures LexLess(IsoText(a), IsoText(b)) <==> NatValue(a) < NatValue(b)
  {
    hide LexLess, NatValue;
    LexIsNumeric(a, b);
    LexByParts(a[..4], a[4..], b[..4], b[4..]);
    LexByParts(a[4..6], a[6..], b[4..6], b[6..]);
    assert a == a[..4] + a[4..] && b == b[..4] + b[4..];
    assert a[4..] == a[4..6] + a[6..] && b[4..] == b[4..6] + b[6..];
    var x, y := "-" + a[6..], "-" + b[6..];
    LexByParts(a[4..6], x, b[4..6], y);
    LexByParts("-", a[6..], "-", b[6..]);
    LexIrreflexive("-");
    LexByParts("-", a[4..6] + x, "-", b[4..6] + y);
    LexByParts(a[..4], "-" + (a[4..6] + x), b[..4], "-" + (b[4..6] + y));
    assert IsoText(a) == a[..4] + ("-" + (a[4..6] + x)) && IsoText(b) == b[..4] + ("-" + (b[4..6] + y));
  }

  lemma {:induction false} LexIrreflexive(a: string)
    ensures !LexLess(a, a)
  {
    if a != [] { LexIrreflexive(a[1..]); }
  }

  // ---------------------------------------------------------------- rules

  datatype Origin = Manual | AiConfirmed

  datatype Activation = PendingReconfirmation | Active | Disabled

  datatype Target = Target(
    debitCode: string, debitName: string, creditCode: string, creditName: string, taxCode: string,
    aux: map<string, string>, businessClass: string)

  datatype Rule = Rule(
    sourceType: string, seller: string, item: string, project: string, effectiveFrom: string, effectiveTo: string, priority: int,
    target: Target, activation: Activation, legacyIds: seq<string>, origin: Origin, confirmedAt: string, confirmedBy: string)

  type RuleId = string

  function ScopeFields(r: Rule): seq<string> {
    [r.sourceType, r.seller, r.item, r.project, r.effectiveFrom, r.effectiveTo, IntText(r.priority)]
  }

  /** The id of a normalised rule. */
  function IdOf(r: Rule): RuleId { Join(ScopeFields(r)) }

  function NormalizedRule(r: Rule): Option<Rule> {
    var from, to := IsoDate(r.effectiveFrom), IsoDate(r.effectiveTo);
    if from == None || to == None then None
    else if from.value != "" && to.value != "" && LexLess(to.value, from.value) then None
    else
      Some(r.(sourceType := Normalize(r.sourceType), seller := Normalize(r.seller), item := Normalize(r.item),
              project := Normalize(r.project), effectiveFrom := from.value, effectiveTo := to.value))
  }

  predicate IsNormalized(r: Rule) { NormalizedRule(r) == Some(r) }

  /** The normalised rule, exactly: texts and dates normalised each in its place, the rest as it was; there is none
      if a date is no date or the last day comes before the first. */
  lemma NormalizedRuleExactly(r: Rule, normal: Rule)
    ensures NormalizedRule(r) == Some(normal)
       <==> && normal.sourceType == Normalize(r.sourceType) && normal.seller == Normalize(r.seller)
            && normal.item == Normalize(r.item) && normal.project == Normalize(r.project)
            && Some(normal.effectiveFrom) == IsoDate(r.effectiveFrom) && Some(normal.effectiveTo) == IsoDate(r.effectiveTo)
            && (normal.effectiveFrom != "" && normal.effectiveTo != "" ==> !LexLess(normal.effectiveTo, normal.effectiveFrom))
            && normal.priority == r.priority && normal.target == r.target && normal.activation == r.activation
            && normal.legacyIds == r.legacyIds && normal.origin == r.origin
            && normal.confirmedAt == r.confirmedAt && normal.confirmedBy == r.confirmedBy
  {
    hide Normalize, IsoDate, LexLess;
  }

  /** Normalising a rule twice is normalising it once. */
  lemma NormalizedIsStable(r: Rule)
    requires NormalizedRule(r).Some?
    ensures IsNormalized(NormalizedRule(r).value)
  {
    hide Normalize, IsoDate, LexLess;
    IsoDateIsStable(r.effectiveFrom);
    IsoDateIsStable(r.effectiveTo);
    forall text ensures Normalize(Normalize(text)) == Normalize(text) {
      NormalizeIsNormal(text);
      NormalizeFixes(Normalize(text));
    }
  }

  predicate SameScope(a: Rule, b: Rule) { ScopeFields(a) == ScopeFields(b) && a.priority == b.priority }

  lemma ScopeHasNoSeparator(r: Rule)
    requires IsNormalized(r)
    ensures forall i :: 0 <= i < 7 ==> SEPARATOR !in ScopeFields(r)[i]
  {
    hide Normalize, IsoDate, LexLess, Normal, Join;
    var n := NormalizedRule(r).value;
    NormalizeIsNormal(r.sourceType);
    NormalizeIsNormal(r.seller);
    NormalizeIsNormal(r.item);
    NormalizeIsNormal(r.project);
    IsoDateIsStable(r.effectiveFrom);
    IsoDateIsStable(r.effectiveTo);
    NormalHasNoSeparator(r.sourceType);
    NormalHasNoSeparator(r.seller);
    NormalHasNoSeparator(r.item);
    NormalHasNoSeparator(r.project);
    NormalHasNoSeparator(r.effectiveFrom);
    NormalHasNoSeparator(r.effectiveTo);
    NatTextHasNoSeparator(if r.priority < 0 then -r.priority else r.priority);
  }

  /** Distinct normalised scopes have distinct ids. */
  lemma IdsTellScopesApart(a: Rule, b: Rule)
    requires IsNormalized(a) && IsNormalized(b)
    ensures IdOf(a) == IdOf(b) <==> SameScope(a, b)
  {
    hide NormalizedRule, Join, IntText;
    ScopeHasNoSeparator(a);
    ScopeHasNoSeparator(b);
    if IdOf(a) == IdOf(b) {
      JoinIsInjective(ScopeFields(a), ScopeFields(b));
      assert ScopeFields(a)[6] == ScopeFields(b)[6];
      IntTextIsInjective(a.priority, b.priority);
    }
  }
}
