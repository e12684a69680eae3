/** What resolution chooses, told by the fields of the rules: scope, dates, and the order of preference. */
module RuleChoice {
  import opened Results
  import opened Text
  import opened MappingRules
  import opened RuleResolution

  /** The day that a normalised date names, as a number that grows with the calendar. */
  function Day(date: string): nat
    requires IsDay(DateDigits(date))
  {
    var digits := DateDigits(date);
    NatValue(digits)
  }

  /** A bound that is not set does not bind. */
  predicate NotBefore(date: string, bound: string) { bound == "" || (IsDay(DateDigits(bound)) && IsDay(DateDigits(date)) && Day(bound) <= Day(date)) }

  predicate NotAfter(date: string, bound: string) { bound == "" || (IsDay(DateDigits(bound)) && IsDay(DateDigits(date)) && Day(date) <= Day(bound)) }

  /** An active rule each of whose scope fields is unset or is the context's normalised text, on a day within its
      dates; a rule with a date needs a context with one. */
  predicate InScope(r: Rule, context: Context) {
    && r.activation == Active
    && (r.sourceType == "" || r.sourceType == Normalize(context.sourceType))
    && (r.seller == "" || r.seller == Normalize(context.seller))
    && (r.item == "" || r.item == Normalize(context.item))
    && (r.project == "" || r.project == Normalize(context.project))
    && IsoDate(context.date).Some?
    && var date := IsoDate(context.date).value; NotBefore(date, r.effectiveFrom) && NotAfter(date, r.effectiveTo)
  }

  datatype Field = SourceType | Seller | Item | Project | Dates

  /** The fields in which a rule is specific. */
  function SetFields(r: Rule): set<Field> {
    Single(SourceType, r.sourceType == "") + Single(Seller, r.seller == "") + Single(Item, r.item == "")
    + Single(Project, r.project == "") + Single(Dates, r.effectiveFrom == "" && r.effectiveTo == "")
  }

  /** Rules made by hand come first, then those specific in more fields, then those of higher priority. */
  predicate Preferred(a: Rule, b: Rule) {
    if a.origin != b.origin then a.origin == Manual
    else if |SetFields(a)| != |SetFields(b)| then |SetFields(a)| > |SetFields(b)|
    else a.priority > b.priority
  }

  lemma NormalizedDates(r: Rule)
    requires IsNormalized(r)
    ensures r.effectiveFrom == "" || (IsDay(DateDigits(r.effectiveFrom)) && r.effectiveFrom == IsoText(DateDigits(r.effectiveFrom)))
    ensures r.effectiveTo == "" || (IsDay(DateDigits(r.effectiveTo)) && r.effectiveTo == IsoText(DateDigits(r.effectiveTo)))
  {
    hide Normalize, IsDay, LexLess;
    DateIsIsoText(r.effectiveFrom);
    DateIsIsoText(r.effectiveTo);
  }

  /** A normalised date is its digits, with dashes. */
  lemma DateIsIsoText(text: string)
    requires IsoDate(text).Some?
    ensures var date := IsoDate(text).value; date == "" || (IsDay(DateDigits(date)) && date == IsoText(DateDigits(date)))
  {
    hide Normalize, IsDay;
    if IsoDate(text).value != "" {
      var digits := DateDigits(Normalize(text));
      DayIsDigits(digits);
      IsoTextIsNormal(digits);
    }
  }

  lemma BoundsExactly(date: string, bound: string)
    requires date == "" || (IsDay(DateDigits(date)) && date == IsoText(DateDigits(date)))
    requires bound == "" || (IsDay(DateDigits(bound)) && bound == IsoText(DateDigits(bound)))
    ensures NotBefore(date, bound) <==> bound == "" || (date != "" && !LexLess(date, bound))
    ensures NotAfter(date, bound) <==> bound == "" || (date != "" && !LexLess(bound, date))
  {
    hide LexLess, NatValue, IsoText;
    if date != "" && bound != "" {
      DatesCompareAsDays(DateDigits(date), DateDigits(bound));
      DatesCompareAsDays(DateDigits(bound), DateDigits(date));
    }
    NoDay();
  }

  lemma NoDay()
    ensures !IsDay(DateDigits(""))
  {
  }

  lemma InScopeExactly(r: Rule, context: Context)
    requires IsNormalized(r)
    ensures Applies(r, context) <==> InScope(r, context)
  {
    hide Normalize, IsDay, LexLess, IsoText, IsNormalized, IsoDate, NotBefore, NotAfter;
    if IsoDate(context.date).Some? {
      var date := IsoDate(context.date).value;
      NormalizedDates(r);
      DateIsIsoText(context.date);
      BoundsExactly(date, r.effectiveFrom);
      BoundsExactly(date, r.effectiveTo);
    }
  }

  lemma DisjointSum(a: set<Field>, b: set<Field>)
    requires a !! b
    ensures |a + b| == |a| + |b|
  {
  }

  function Single(field: Field, unset: bool): set<Field> { if unset then {} else {field} }

  lemma SingleCount(field: Field, unset: bool)
    ensures |Single(field, unset)| == One(!unset) && Single(field, unset) <= {field}
  {
  }

  lemma FiveCounts(a: set<Field>, b: set<Field>, c: set<Field>, d: set<Field>, e: set<Field>)
    requires a <= {SourceType} && b <= {Seller} && c <= {Item} && d <= {Project} && e <= {Dates}
    ensures |a + b + c + d + e| == |a| + |b| + |c| + |d| + |e|
  {
    assert a !! b && (a + b) !! c && (a + b + c) !! d && (a + b + c + d) !! e;
    DisjointSum(a, b);
    DisjointSum(a + b, c);
    DisjointSum(a + b + c, d);
    DisjointSum(a + b + c + d, e);
  }

  lemma FieldsAreCounted(r: Rule)
    ensures |SetFields(r)| == Specificity(r)
  {
    hide Single;
    SingleCount(SourceType, r.sourceType == "");
    SingleCount(Seller, r.seller == "");
    SingleCount(Item, r.item == "");
    SingleCount(Project, r.project == "");
    SingleCount(Dates, r.effectiveFrom == "" && r.effectiveTo == "");
    FiveCounts(Single(SourceType, r.sourceType == ""), Single(Seller, r.seller == ""), Single(Item, r.item == ""),
               Single(Project, r.project == ""), Single(Dates, r.effectiveFrom == "" && r.effectiveTo == ""));
  }

  lemma PreferredExactly(a: Rule, b: Rule)
    ensures Below(RankOf(b), RankOf(a)) <==> Preferred(a, b)
  {
    hide SetFields, Specificity;
    FieldsAreCounted(a);
    FieldsAreCounted(b);
  }

  /** A rule in scope to which no rule in scope is preferred. */
  predicate Chosen(r: Rule, rules: seq<Rule>, context: Context) {
    r in rules && InScope(r, context) && forall other :: other in rules && InScope(other, context) ==> !Preferred(other, r)
  }

  lemma ChosenExactly(r: Rule, rules: seq<Rule>, context: Context)
    requires forall other :: other in rules ==> IsNormalized(other)
    ensures Top(r, rules, context) <==> Chosen(r, rules, context)
  {
    hide Applies, InScope, RankOf, Below, Preferred, IsNormalized;
    forall other | other in rules ensures Applies(other, context) <==> InScope(other, context) { InScopeExactly(other, context); }
    forall other ensures Below(RankOf(r), RankOf(other)) <==> Preferred(other, r) { PreferredExactly(other, r); }
  }

  /** The candidates are the chosen rules, by their ids and without who confirmed them. */
  ghost predicate AreChosen(candidates: set<(RuleId, Rule)>, rules: seq<Rule>, context: Context) {
    forall id, r :: (id, r) in candidates
      <==> exists c :: c in rules && Chosen(c, rules, context) && id == IdOf(c) && r == c.(confirmedAt := "", confirmedBy := "")
  }

  /** The verdict, exactly, for a context whose date is a date or empty: unmatched if no rule is in scope; ambiguous
      if two chosen rules have different targets, with all chosen rules as candidates; otherwise the chosen rule
      with the least digest. */
  lemma ChoiceIsExact(rules: seq<Rule>, context: Context, digest: RuleId -> nat)
    requires (forall r :: r in rules ==> IsNormalized(r)) && IsoDate(context.date).Some?
    ensures var outcome := Resolve(rules, context, digest);
            && (outcome == Unmatched <==> forall r :: r in rules ==> !InScope(r, context))
            && (outcome.Ambiguous? <==> exists a, b :: Chosen(a, rules, context) && Chosen(b, rules, context) && a.target != b.target)
            && (outcome.Ambiguous? ==> AreChosen(outcome.candidates, rules, context))
            && (outcome.Matched? ==>
                  && Chosen(outcome.rule, rules, context)
                  && forall r :: r in rules && Chosen(r, rules, context) ==>
                       r.target == outcome.rule.target && digest(IdOf(outcome.rule)) <= digest(IdOf(r)))
            && (outcome.Unmatched? || outcome.Ambiguous? || outcome.Matched?)
  {
    hide Applies, InScope, IsNormalized, Resolve, Top, IsoDate, IdOf, Chosen;
    ResolvesExactly(rules, context, digest);
    forall r | r in rules ensures Applies(r, context) <==> InScope(r, context) { InScopeExactly(r, context); }
    forall r ensures Top(r, rules, context) <==> Chosen(r, rules, context) { ChosenExactly(r, rules, context); }
    TopIsRule(rules, context);
    CandidatesAreChosen(rules, context);
  }

  lemma CandidatesAreChosen(rules: seq<Rule>, context: Context)
    requires forall r :: Top(r, rules, context) <==> Chosen(r, rules, context)
    ensures AreChosen(TopCandidates(rules, context), rules, context)
  {
    hide Top, Chosen, IdOf;
  }

  /** Rules are normalised first: one that cannot be makes the whole list invalid, and otherwise the verdict is that
      over the normalised rules. */
  lemma NormalizedFirst(rules: seq<Rule>, normal: seq<Rule>, context: Context, digest: RuleId -> nat)
    requires |normal| == |rules| && forall i :: 0 <= i < |rules| && NormalizedRule(rules[i]).Some? ==> NormalizedRule(rules[i]) == Some(normal[i])
    ensures Resolve(rules, context, digest) == InvalidRule <==> exists i :: 0 <= i < |rules| && NormalizedRule(rules[i]) == None
    ensures Resolve(rules, context, digest) != InvalidRule ==> Resolve(rules, context, digest) == Resolve(normal, context, digest)
  {
    hide NormalizedRule, IsNormalized, Applicable, WithRank, BestRank, FieldsMatch, IsoDate;
    NormalizedTogether(rules, normal);
    if NormalizedAll(rules) == Some(normal) {
      forall r | r in normal ensures IsNormalized(r) {
        var i :| 0 <= i < |normal| && normal[i] == r;
        NormalizedIsStable(rules[i]);
      }
      AlreadyNormal(normal);
    }
  }

  lemma {:induction false} NormalizedTogether(rules: seq<Rule>, normal: seq<Rule>)
    requires |normal| == |rules| && forall i :: 0 <= i < |rules| && NormalizedRule(rules[i]).Some? ==> NormalizedRule(rules[i]) == Some(normal[i])
    ensures (exists i :: 0 <= i < |rules| && NormalizedRule(rules[i]) == None) ==> NormalizedAll(rules) == None
    ensures (forall i :: 0 <= i < |rules| ==> NormalizedRule(rules[i]).Some?) ==> NormalizedAll(rules) == Some(normal)
  {
    hide NormalizedRule;
    if rules != [] {
      var n := |rules| - 1;
      NormalizedTogether(rules[..n], normal[..n]);
      assert normal == normal[..n] + [normal[n]];
    }
  }
}
