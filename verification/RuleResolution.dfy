/** Resolving the account rule for a source line: the applicable rules of greatest rank decide, the least
    id among them wins, and different targets at that rank are an ambiguity. */
module RuleResolution {
  import opened Results
  import opened MappingRules

  /** A source line's context; its texts and its date as given. */
  datatype Context = Context(sourceType: string, seller: string, item: string, project: string, date: string)

  predicate FieldMatches(expected: string, actual: string) { expected == "" || expected == Normalize(actual) }

  predicate FieldsMatch(r: Rule, context: Context) {
    && r.activation == Active
    && FieldMatches(r.sourceType, context.sourceType) && FieldMatches(r.seller, context.seller)
    && FieldMatches(r.item, context.item) && FieldMatches(r.project, context.project)
  }

  predicate DateMatches(r: Rule, date: string) {
    && (r.effectiveFrom != "" || r.effectiveTo != "" ==> date != "")
    && !(r.effectiveFrom != "" && LexLess(date, r.effectiveFrom))
    && !(r.effectiveTo != "" && LexLess(r.effectiveTo, date))
  }

  predicate Applies(r: Rule, context: Context) {
    FieldsMatch(r, context) && IsoDate(context.date).Some? && DateMatches(r, IsoDate(context.date).value)
  }

  function One(set_: bool): nat { if set_ then 1 else 0 }

  function Specificity(r: Rule): nat {
    One(r.sourceType != "") + One(r.seller != "") + One(r.item != "") + One(r.project != "")
    + One(r.effectiveFrom != "" || r.effectiveTo != "")
  }

  datatype Rank = Rank(manual: nat, specificity: nat, priority: int)

  function RankOf(r: Rule): Rank { Rank(One(r.origin == Manual), Specificity(r), r.priority) }

  predicate Below(a: Rank, b: Rank) {
    a.manual < b.manual
    || (a.manual == b.manual && (a.specificity < b.specificity || (a.specificity == b.specificity && a.priority < b.priority)))
  }

  /** What a rule means, whoever confirmed it. */
  function Semantic(r: Rule): Rule { r.(confirmedAt := "", confirmedBy := "") }

  /** Candidates are reported by id and fingerprint, in the order of their digests. */
  datatype Outcome =
    | Unmatched | Matched(rule: Rule) | Ambiguous(candidates: set<(RuleId, Rule)>) | InvalidRule | InvalidDate

  function NormalizedAll(rules: seq<Rule>): Option<seq<Rule>> {
    if rules == [] then Some([])
    else
      match (NormalizedAll(rules[..|rules| - 1]), NormalizedRule(rules[|rules| - 1]))
      case (Some(rest), Some(last)) => Some(rest + [last])
      case _ => None
  }

  function Applicable(rules: seq<Rule>, context: Context): seq<Rule> {
    if rules == [] then []
    else Applicable(rules[..|rules| - 1], context) + (if Applies(rules[|rules| - 1], context) then [rules[|rules| - 1]] else [])
  }

  function BestRank(rules: seq<Rule>): (best: Rank)
    requires rules != []
    ensures exists i :: 0 <= i < |rules| && RankOf(rules[i]) == best
    ensures forall i :: 0 <= i < |rules| ==> !Below(best, RankOf(rules[i]))
  {
    var n := |rules| - 1;
    if n == 0 then RankOf(rules[0])
    else
      var rest := BestRank(rules[..n]);
      if Below(rest, RankOf(rules[n])) then RankOf(rules[n]) else rest
  }

  function WithRank(rules: seq<Rule>, rank: Rank): seq<Rule> {
    if rules == [] then []
    else WithRank(rules[..|rules| - 1], rank) + (if RankOf(rules[|rules| - 1]) == rank then [rules[|rules| - 1]] else [])
  }

  function Targets(rules: seq<Rule>): set<Target> { set i | 0 <= i < |rules| :: rules[i].target }

  /** The first rule whose id has the least digest. */
  function LeastId(rules: seq<Rule>, digest: RuleId -> nat): (least: Rule)
    requires rules != []
    ensures least in rules && forall i :: 0 <= i < |rules| ==> digest(IdOf(least)) <= digest(IdOf(rules[i]))
  {
    var n := |rules| - 1;
    if n == 0 then rules[0]
    else
      var rest := LeastId(rules[..n], digest);
      if digest(IdOf(rules[n])) < digest(IdOf(rest)) then rules[n] else rest
  }

  function Candidates(rules: seq<Rule>): set<(RuleId, Rule)> { set i | 0 <= i < |rules| :: (IdOf(rules[i]), Semantic(rules[i])) }

  function Resolve(rules: seq<Rule>, context: Context, digest: RuleId -> nat): Outcome {
    match NormalizedAll(rules)
    case None => InvalidRule
    case Some(normalized) =>
      if IsoDate(context.date) == None && (exists i :: 0 <= i < |normalized| && FieldsMatch(normalized[i], context)) then InvalidDate
      else
        var applicable := Applicable(normalized, context);
        if applicable == [] then Unmatched
        else
          var finalists := WithRank(applicable, BestRank(applicable));
          if |Targets(finalists)| > 1 then Ambiguous(Candidates(finalists)) else LeastOf(finalists, digest)
  }

  function LeastOf(finalists: seq<Rule>, digest: RuleId -> nat): Outcome {
    if finalists == [] then Unmatched else Matched(LeastId(finalists, digest))
  }

  // ---------------------------------------------------------------- what a resolution means

  ghost predicate Injective(digest: RuleId -> nat) { forall a, b :: digest(a) == digest(b) ==> a == b }

  predicate UniqueIds(rules: seq<Rule>) { forall i, j :: 0 <= i < j < |rules| ==> IdOf(rules[i]) != IdOf(rules[j]) }

  /** The rule applies and no applicable rule ranks higher. */
  predicate Top(r: Rule, rules: seq<Rule>, context: Context) {
    r in rules && Applies(r, context) && forall other :: other in rules && Applies(other, context) ==> !Below(RankOf(r), RankOf(other))
  }

  predicate Agreed(rules: seq<Rule>, context: Context) {
    forall a, b :: a in rules && b in rules && Top(a, rules, context) && Top(b, rules, context) ==> a.target == b.target
  }

  lemma {:induction false} ApplicableAre(rules: seq<Rule>, context: Context)
    ensures forall r :: r in Applicable(rules, context) <==> r in rules && Applies(r, context)
  {
    if rules != [] {
      ApplicableAre(rules[..|rules| - 1], context);
      assert rules == rules[..|rules| - 1] + [rules[|rules| - 1]];
    }
  }

  lemma {:induction false} WithRankAre(rules: seq<Rule>, rank: Rank)
    ensures forall r :: r in WithRank(rules, rank) <==> r in rules && RankOf(r) == rank
  {
    if rules != [] {
      WithRankAre(rules[..|rules| - 1], rank);
      assert rules == rules[..|rules| - 1] + [rules[|rules| - 1]];
    }
  }

  lemma ManyTargets(rules: seq<Rule>)
    ensures |Targets(rules)| > 1 <==> exists a, b :: a in rules && b in rules && a.target != b.target
  {
    var targets := Targets(rules);
    if a, b :| a in rules && b in rules && a.target != b.target {
      assert {a.target, b.target} <= targets;
      SubsetSize({a.target, b.target}, targets);
    } else if rules != [] {
      assert forall r :: r in rules ==> r.target == rules[0].target;
      assert targets == {rules[0].target};
    }
  }

  lemma SubsetSize<T>(small: set<T>, large: set<T>)
    requires small <= large
    ensures |small| <= |large|
  {
    assert large == small + (large - small);
  }

  lemma BelowIsTotal(a: Rank, b: Rank)
    ensures a == b || Below(a, b) || Below(b, a)
    ensures !(Below(a, b) && Below(b, a))
  {
  }

  /** The best rank is reached, and by nobody exceeded. */
  lemma BestRankIsBest(rules: seq<Rule>)
    requires rules != []
    ensures exists r :: r in rules && RankOf(r) == BestRank(rules)
    ensures forall r :: r in rules ==> !Below(BestRank(rules), RankOf(r))
  {
    hide RankOf, Below;
    var best := BestRank(rules);
    var i :| 0 <= i < |rules| && RankOf(rules[i]) == best;
    assert rules[i] in rules;
    forall r | r in rules ensures !Below(best, RankOf(r)) {
      var k :| 0 <= k < |rules| && rules[k] == r;
    }
  }

  /** The finalists are exactly the top rules. */
  lemma FinalistsAreTop(rules: seq<Rule>, context: Context)
    requires Applicable(rules, context) != []
    ensures var applicable := Applicable(rules, context);
            && (forall r :: r in WithRank(applicable, BestRank(applicable)) <==> Top(r, rules, context))
            && WithRank(applicable, BestRank(applicable)) != []
  {
    hide Applies, RankOf, BestRank, Below, Applicable, WithRank;
    var applicable := Applicable(rules, context);
    var best := BestRank(applicable);
    ApplicableAre(rules, context);
    WithRankAre(applicable, best);
    BestRankIsBest(applicable);
    var winner :| winner in applicable && RankOf(winner) == best;
    assert winner in WithRank(applicable, best);
    forall r ensures r in WithRank(applicable, best) <==> Top(r, rules, context) {
      BelowIsTotal(RankOf(r), best);
      assert Top(r, rules, context) ==> !Below(RankOf(r), RankOf(winner));
    }
  }

  function TopCandidates(rules: seq<Rule>, context: Context): set<(RuleId, Rule)> {
    set r | r in rules && Top(r, rules, context) :: (IdOf(r), Semantic(r))
  }

  predicate DateRefused(rules: seq<Rule>, context: Context) {
    IsoDate(context.date) == None && exists r :: r in rules && FieldsMatch(r, context)
  }

  /** The verdict over normalised rules, exactly. Nothing matches if and only if no rule applies; the
      verdict is ambiguous if and only if two top rules disagree on the target, and then the candidates are
      the top rules; otherwise the match is the top rule with the least digest. */
  lemma ResolvesExactly(rules: seq<Rule>, context: Context, digest: RuleId -> nat)
    requires forall r :: r in rules ==> IsNormalized(r)
    requires !DateRefused(rules, context)
    ensures var outcome := Resolve(rules, context, digest);
            && (outcome == Unmatched <==> forall r :: r in rules ==> !Applies(r, context))
            && (outcome.Ambiguous? <==> !Agreed(rules, context))
            && (outcome.Ambiguous? ==> outcome.candidates == TopCandidates(rules, context))
            && (outcome.Matched? ==>
                  && Top(outcome.rule, rules, context)
                  && forall r :: r in rules && Top(r, rules, context) ==> digest(IdOf(outcome.rule)) <= digest(IdOf(r)))
            && (outcome.Unmatched? || outcome.Ambiguous? || outcome.Matched?)
  {
    hide Applies, FieldsMatch, RankOf, IsNormalized, NormalizedRule, BestRank, Top;
    AlreadyNormal(rules);
    ApplicableAre(rules, context);
    var applicable := Applicable(rules, context);
    NoTopWithoutApplicable(rules, context);
    if applicable != [] {
      FinalistsAreTop(rules, context);
      var finalists := WithRank(applicable, BestRank(applicable));
      ManyTargets(finalists);
      TopIsRule(rules, context);
      CandidatesAre(finalists, rules, context);
      assert applicable[0] in rules && Applies(applicable[0], context);
    }
  }

  lemma TopIsRule(rules: seq<Rule>, context: Context)
    ensures forall r :: Top(r, rules, context) ==> r in rules
  {
  }

  lemma NoTopWithoutApplicable(rules: seq<Rule>, context: Context)
    ensures (forall r :: r in rules ==> !Applies(r, context)) ==> forall r :: !Top(r, rules, context)
  {
  }

  lemma CandidatesAre(finalists: seq<Rule>, rules: seq<Rule>, context: Context)
    requires forall r :: r in finalists <==> Top(r, rules, context)
    ensures Candidates(finalists) == TopCandidates(rules, context)
  {
    hide Top, IdOf;
    TopIsRule(rules, context);
    forall c | c in Candidates(finalists) ensures c in TopCandidates(rules, context) {
      var i :| 0 <= i < |finalists| && c == (IdOf(finalists[i]), Semantic(finalists[i]));
      assert finalists[i] in finalists;
    }
    forall c | c in TopCandidates(rules, context) ensures c in Candidates(finalists) {
      var r :| r in rules && Top(r, rules, context) && c == (IdOf(r), Semantic(r));
      var i :| 0 <= i < |finalists| && finalists[i] == r;
      assert c == (IdOf(finalists[i]), Semantic(finalists[i]));
    }
  }

  lemma {:induction false} AlreadyNormal(rules: seq<Rule>)
    requires forall r :: r in rules ==> IsNormalized(r)
    ensures NormalizedAll(rules) == Some(rules)
  {
    hide NormalizedRule;
    if rules != [] {
      assert IsNormalized(rules[|rules| - 1]);
      AlreadyNormal(rules[..|rules| - 1]);
      assert rules == rules[..|rules| - 1] + [rules[|rules| - 1]];
    }
  }

  ghost predicate SameRules(a: seq<Rule>, b: seq<Rule>) { forall r :: r in a <==> r in b }

  lemma SameTop(a: seq<Rule>, b: seq<Rule>, context: Context)
    requires SameRules(a, b)
    ensures forall r :: Top(r, a, context) <==> Top(r, b, context)
    ensures TopCandidates(a, context) == TopCandidates(b, context)
  {
    hide Applies, RankOf, IdOf;
  }

  lemma OneLeast(a: Rule, b: Rule, rules: seq<Rule>, digest: RuleId -> nat)
    requires Injective(digest) && UniqueIds(rules) && a in rules && b in rules
    requires digest(IdOf(a)) <= digest(IdOf(b)) && digest(IdOf(b)) <= digest(IdOf(a))
    ensures a == b
  {
    hide IdOf;
    assert IdOf(a) == IdOf(b);
    var i :| 0 <= i < |rules| && rules[i] == a;
    var j :| 0 <= j < |rules| && rules[j] == b;
    assert i == j;
  }

  /** Resolution depends only on the set of rules: with unique ids no reordering changes the outcome. */
  lemma OrderDoesNotMatter(a: seq<Rule>, b: seq<Rule>, context: Context, digest: RuleId -> nat)
    requires Injective(digest) && SameRules(a, b) && UniqueIds(a)
    requires forall r :: r in a ==> IsNormalized(r)
    ensures Resolve(a, context, digest) == Resolve(b, context, digest)
  {
    hide Applies, FieldsMatch, IsNormalized, Top, UniqueIds, Injective, TopCandidates;
    if DateRefused(a, context) {
      RefusedExactly(a, context, digest);
      RefusedExactly(b, context, digest);
    } else {
      SameTop(a, b, context);
      ResolvesExactly(a, context, digest);
      ResolvesExactly(b, context, digest);
      TopIsRule(a, context);
      TopIsRule(b, context);
      var x, y := Resolve(a, context, digest), Resolve(b, context, digest);
      if x.Matched? && y.Matched? { OneLeast(x.rule, y.rule, a, digest); }
    }
  }

  lemma RefusedExactly(rules: seq<Rule>, context: Context, digest: RuleId -> nat)
    requires forall r :: r in rules ==> IsNormalized(r)
    ensures Resolve(rules, context, digest) == InvalidDate <==> DateRefused(rules, context)
  {
    hide Applies, FieldsMatch, IsNormalized, BestRank;
    AlreadyNormal(rules);
    if DateRefused(rules, context) {
      var r :| r in rules && FieldsMatch(r, context);
      var i :| 0 <= i < |rules| && rules[i] == r;
      assert FieldsMatch(rules[i], context);
    }
  }

  /** An inapplicable rule never matters, and neither does one that ranks below an applicable one; unless the
      context's date is no date and the rule is the first whose other fields match. */
  lemma IrrelevantRules(rules: seq<Rule>, extra: Rule, context: Context, digest: RuleId -> nat)
    requires Injective(digest) && UniqueIds(rules + [extra])
    requires forall r :: r in rules + [extra] ==> IsNormalized(r)
    requires DateRefused(rules + [extra], context) ==> DateRefused(rules, context)
    requires !Applies(extra, context) || exists r :: r in rules && Applies(r, context) && Below(RankOf(extra), RankOf(r))
    ensures Resolve(rules + [extra], context, digest) == Resolve(rules, context, digest)
  {
    hide Applies, FieldsMatch, IsNormalized, UniqueIds, Injective, IdOf, RankOf, Resolve, Top, TopCandidates, Agreed, Below, DateRefused;
    var all := rules + [extra];
    assert forall r :: r in all <==> r in rules || r == extra;
    RefusalGrows(rules, extra, context);
    RefusedExactly(rules, context, digest);
    RefusedExactly(all, context, digest);
    if !DateRefused(rules, context) {
      ResolvesExactly(rules, context, digest);
      ResolvesExactly(all, context, digest);
      ExtraIsNeverTop(rules, extra, context);
      TopIsRule(rules, context);
      TopIsRule(all, context);
      SameAgreement(rules, all, context);
      var x, y := Resolve(rules, context, digest), Resolve(all, context, digest);
      if x.Matched? && y.Matched? { OneLeast(x.rule, y.rule, all, digest); }
    }
  }

  lemma RefusalGrows(rules: seq<Rule>, extra: Rule, context: Context)
    ensures DateRefused(rules, context) ==> DateRefused(rules + [extra], context)
    ensures DateRefused(rules + [extra], context) ==>
              DateRefused(rules, context) || (IsoDate(context.date) == None && FieldsMatch(extra, context))
  {
    assert forall r :: r in rules + [extra] <==> r in rules || r == extra;
  }

  lemma SameAgreement(a: seq<Rule>, b: seq<Rule>, context: Context)
    requires forall r :: Top(r, a, context) <==> Top(r, b, context)
    ensures Agreed(a, context) <==> Agreed(b, context)
  {
    hide Applies, RankOf;
    TopIsRule(a, context);
    TopIsRule(b, context);
  }

  /** The excluded case: the added rule applies to nothing, for the context has no date; yet the outcome
      changes exactly when its other fields match and no rule's did before. */
  lemma UndatedContextExposesRule(rules: seq<Rule>, extra: Rule, context: Context, digest: RuleId -> nat)
    requires Injective(digest) && UniqueIds(rules + [extra]) && IsoDate(context.date) == None
    requires forall r :: r in rules + [extra] ==> IsNormalized(r)
    ensures !Applies(extra, context)
    ensures Resolve(rules + [extra], context, digest) != Resolve(rules, context, digest)
       <==> FieldsMatch(extra, context) && forall r :: r in rules ==> !FieldsMatch(r, context)
  {
    hide FieldsMatch, IsNormalized, UniqueIds, Injective, Resolve, IsoDate;
    RefusedExactly(rules, context, digest);
    RefusedExactly(rules + [extra], context, digest);
    assert forall r :: r in rules + [extra] <==> r in rules || r == extra;
    if DateRefused(rules + [extra], context) ==> DateRefused(rules, context) { IrrelevantRules(rules, extra, context, digest); }
  }

  lemma ExtraIsNeverTop(rules: seq<Rule>, extra: Rule, context: Context)
    requires !Applies(extra, context) || exists r :: r in rules && Applies(r, context) && Below(RankOf(extra), RankOf(r))
    ensures forall r :: r in rules && Top(r, rules, context) ==> Top(r, rules + [extra], context)
    ensures forall r :: Top(r, rules + [extra], context) ==> Top(r, rules, context)
    ensures TopCandidates(rules, context) == TopCandidates(rules + [extra], context)
  {
    hide Applies, IdOf, RankOf;
    var all := rules + [extra];
    assert forall r :: r in all <==> r in rules || r == extra;
    forall r | r in rules && Top(r, rules, context) ensures Top(r, all, context) {
      if Applies(extra, context) {
        var other :| other in rules && Applies(other, context) && Below(RankOf(extra), RankOf(other));
        BelowIsTransitive(RankOf(r), RankOf(extra), RankOf(other));
      }
    }
    assert forall r :: Top(r, all, context) ==> Top(r, rules, context);
  }

  lemma BelowIsTransitive(a: Rank, b: Rank, c: Rank)
    requires Below(b, c) && !Below(a, c)
    ensures !Below(a, b)
  {
  }
}
