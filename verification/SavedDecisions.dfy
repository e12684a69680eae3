/** Saving a decision: merging it with the decisions already stored, materialising the lines, and keeping
    a decision template for every line that was or could be there. */
module SavedDecisions {
  import opened Results
  import opened Text
  import opened Decisions
  import opened VoucherLines

  type Templates = map<LineId, Decision>

  datatype Snapshot = Snapshot(
    sources: seq<Source>, lines: seq<Line>, templates: Templates, allocations: seq<Allocation>, treatment: Treatment, balanced: bool)

  const BLANK: LineId := OtherId("")

  function DecisionOf(line: Line): Decision {
    Decision(line.id, line.account, line.aux, line.role, line.summary, line.direction, line.amount, line.sourceIds, line.allocationIds)
  }

  // ---------------------------------------------------------------- merging

  predicate HasLine(lines: seq<Line>, id: LineId) { exists i :: 0 <= i < |lines| && lines[i].id == id }

  predicate Known(lines: seq<Line>, templates: Templates, id: LineId) { id != BLANK && (HasLine(lines, id) || id in templates) }

  /** The stored decisions: the templates, then lines with an account that have no template. */
  function StoredDecisions(lines: seq<Line>, templates: Templates): Templates {
    if lines == [] then templates
    else
      var line, rest := lines[|lines| - 1], StoredDecisions(lines[..|lines| - 1], templates);
      if line.id != BLANK && line.account != "" && line.id !in rest then rest[line.id := DecisionOf(line)] else rest
  }

  predicate Repeated(raw: seq<Decision>, i: nat)
    requires i < |raw|
  {
    exists j :: 0 <= j < |raw| && j != i && raw[j].id == raw[i].id
  }

  function WithDecision(decisions: Templates, decision: Decision): Templates {
    decisions[decision.id :=
      if decision.id in decisions then decisions[decision.id].(account := decision.account, aux := decision.aux) else decision]
  }

  function Overridden(lines: seq<Line>, templates: Templates, raw: seq<Decision>, i: nat, decisions: Templates): Result<Templates, Error>
    requires i <= |raw|
    decreases |raw| - i
  {
    if i == |raw| then Ok(decisions)
    else if !Known(lines, templates, raw[i].id) then Err(UnknownLine)
    else if Repeated(raw, i) then Err(DuplicateDecision)
    else Overridden(lines, templates, raw, i + 1, WithDecision(decisions, raw[i]))
  }

  function Merged(lines: seq<Line>, templates: Templates, raw: seq<Decision>): Result<Templates, Error> {
    Overridden(lines, templates, raw, 0, StoredDecisions(lines, templates))
  }

  /** The merging loops. */
  method MergeDecisions(lines: seq<Line>, templates: Templates, raw: seq<Decision>) returns (r: Result<Templates, Error>)
    ensures r == Merged(lines, templates, raw)
  {
    var known := templates.Keys;
    var decisions := templates;
    for i := 0 to |lines|
      invariant forall id :: id in known <==> HasLine(lines[..i], id) || id in templates
      invariant decisions == StoredDecisions(lines[..i], templates)
    {
      var line := lines[i];
      LineAppended(lines, i);
      known := known + {line.id};
      if line.id != BLANK && line.account != "" && line.id !in decisions { decisions := decisions[line.id := DecisionOf(line)]; }
    }
    assert lines[..|lines|] == lines;
    for i := 0 to |raw|
      invariant Overridden(lines, templates, raw, i, decisions) == Merged(lines, templates, raw)
    {
      if raw[i].id == BLANK || raw[i].id !in known { return Err(UnknownLine); }
      if Repeated(raw, i) { return Err(DuplicateDecision); }
      decisions := WithDecision(decisions, raw[i]);
    }
    r := Ok(decisions);
  }

  lemma LineAppended(lines: seq<Line>, i: nat)
    requires i < |lines|
    ensures lines[..i + 1][..i] == lines[..i]
    ensures forall id :: HasLine(lines[..i + 1], id) <==> HasLine(lines[..i], id) || id == lines[i].id
  {
    var next := lines[..i + 1];
    forall id ensures HasLine(next, id) <==> HasLine(lines[..i], id) || id == lines[i].id {
      if HasLine(lines[..i], id) {
        var j :| 0 <= j < i && lines[..i][j].id == id;
        assert next[j].id == id;
      }
      assert next[i].id == lines[i].id;
      if HasLine(next, id) {
        var j :| 0 <= j < i + 1 && next[j].id == id;
        assert j < i ==> lines[..i][j].id == id;
      }
    }
  }

  // ---------------------------------------------------------------- templates

  predicate IsTemplate(sources: seq<Source>, id: LineId) { id.TemplateId? && HasSource(sources, id.sourceId) }

  function LineDecisions(lines: seq<Line>): Templates {
    if lines == [] then map[]
    else LineDecisions(lines[..|lines| - 1])[lines[|lines| - 1].id := DecisionOf(lines[|lines| - 1])]
  }

  /** The templates kept with the lines: per source and role whatever was decided, overridden by the lines. */
  function Retained(sources: seq<Source>, lines: seq<Line>, decisions: Templates): Templates {
    (map id | id in decisions && IsTemplate(sources, id) :: decisions[id]) + LineDecisions(lines)
  }

  const ROLES: seq<Role> := [Cost, InputTax, Payable]

  function RoleIndex(role: Role): nat { match role case Cost => 0 case InputTax => 1 case Payable => 2 }

  function SourceTemplates(sourceId: string, decisions: Templates): Templates {
    map id | id in decisions && id.TemplateId? && id.sourceId == sourceId :: decisions[id]
  }

  /** The inner loop over the three roles. */
  method RetainRoles(sourceId: string, decisions: Templates, before: Templates) returns (retained: Templates)
    ensures retained == before + SourceTemplates(sourceId, decisions)
  {
    retained := before;
    for k := 0 to 3
      invariant retained.Keys == before.Keys + EarlierTemplates(sourceId, decisions, k)
      invariant forall id :: id in retained ==>
                  retained[id] == if id in EarlierTemplates(sourceId, decisions, k) then decisions[id] else before[id]
    {
      var id := TemplateId(sourceId, ROLES[k]);
      assert forall role :: RoleIndex(role) == k <==> role == ROLES[k];
      if id in decisions { retained := retained[id := decisions[id]]; }
      assert EarlierTemplates(sourceId, decisions, k + 1)
          == EarlierTemplates(sourceId, decisions, k) + (if id in decisions then {id} else {});
    }
    assert EarlierTemplates(sourceId, decisions, 3) == SourceTemplates(sourceId, decisions).Keys;
  }

  ghost function EarlierTemplates(sourceId: string, decisions: Templates, k: nat): set<LineId> {
    set id | id in decisions && id.TemplateId? && id.sourceId == sourceId && RoleIndex(id.role) < k
  }

  /** The loop over the lines: each overrides the template of its id. */
  method OverrideWithLines(base: Templates, lines: seq<Line>) returns (retained: Templates)
    ensures retained == base + LineDecisions(lines)
  {
    retained := base;
    for i := 0 to |lines|
      invariant retained == base + LineDecisions(lines[..i])
    {
      assert lines[..i + 1][..i] == lines[..i];
      retained := retained[lines[i].id := DecisionOf(lines[i])];
    }
    assert lines[..|lines|] == lines;
  }

  method RetainTemplates(sources: seq<Source>, lines: seq<Line>, decisions: Templates) returns (retained: Templates)
    ensures retained == Retained(sources, lines, decisions)
  {
    hide LineDecisions;
    retained := map[];
    for i := 0 to |sources|
      invariant retained == map id | id in decisions && IsTemplate(sources[..i], id) :: decisions[id]
    {
      retained := RetainRoles(sources[i].id, decisions, retained);
      SourceAppended(sources, i);
    }
    assert sources[..|sources|] == sources;
    retained := OverrideWithLines(retained, lines);
  }

  // ---------------------------------------------------------------- saving

  function Save(
    before: Snapshot, allocations: seq<Allocation>, raw: seq<Decision>, treatment: Treatment, catalogs: Catalogs)
    : Result<Snapshot, Error>
  {
    if before.sources == [] then Err(NoSources)
    else
      match ValidatedAllocations(before.sources, allocations)
      case Err(e) => Err(e)
      case Ok(accepted) =>
        match Merged(before.lines, before.templates, raw)
        case Err(e) => Err(e)
        case Ok(decisions) =>
          match Materialized(before.sources, accepted, decisions, treatment, catalogs)
          case Err(e) => Err(e)
          case Ok(lines) =>
            Ok(Snapshot(before.sources, lines, Retained(before.sources, lines, decisions), accepted, treatment,
                        SideTotal(lines, Debit) == SideTotal(lines, Credit)))
  }

  // ---------------------------------------------------------------- distinct line ids

  predicate DistinctPlans(plans: seq<Plan>) { forall i, j :: 0 <= i < j < |plans| ==> IdOf(plans[i]) != IdOf(plans[j]) }

  predicate DistinctLines(lines: seq<Line>) { forall i, j :: 0 <= i < j < |lines| ==> lines[i].id != lines[j].id }

  lemma {:induction false} OwnAreListed(allocations: seq<Allocation>, id: string)
    ensures forall i :: 0 <= i < |BySource(allocations, id)| ==>
              HasAllocation(allocations, BySource(allocations, id)[i].id) && BySource(allocations, id)[i].sourceId == id
  {
    if allocations != [] {
      var n := |allocations| - 1;
      OwnAreListed(allocations[..n], id);
      AllocationAppended(allocations, n);
      assert allocations[..n + 1] == allocations;
    }
  }

  lemma {:induction false} OwnAreDistinct(allocations: seq<Allocation>, id: string)
    requires DistinctAllocations(allocations)
    ensures DistinctAllocations(BySource(allocations, id))
  {
    if allocations != [] {
      var n := |allocations| - 1;
      assert DistinctAllocations(allocations[..n]);
      OwnAreDistinct(allocations[..n], id);
      OwnAreListed(allocations[..n], id);
      DistinctExactly(allocations);
      assert !HasAllocation(allocations[..n], allocations[n].id);
    }
  }

  lemma BlockIsDistinct(source: Source, own: seq<Allocation>, treatment: Treatment)
    requires DistinctAllocations(own)
    ensures DistinctPlans(SourcePlans(source, own, treatment))
    ensures forall i :: 0 <= i < |SourcePlans(source, own, treatment)| ==> SourcePlans(source, own, treatment)[i].source == source
  {
    hide SourceSummary, Joined;
  }

  lemma {:induction false} PlansAreDistinct(sources: seq<Source>, accepted: seq<Allocation>, treatment: Treatment)
    requires DistinctSources(sources) && DistinctAllocations(accepted)
    ensures DistinctPlans(Plans(sources, accepted, treatment))
    ensures forall i :: 0 <= i < |Plans(sources, accepted, treatment)| ==> HasSource(sources, Plans(sources, accepted, treatment)[i].source.id)
  {
    hide SourcePlans, BySource, DistinctAllocations;
    if sources != [] {
      var n := |sources| - 1;
      assert DistinctSources(sources[..n]);
      PlansAreDistinct(sources[..n], accepted, treatment);
      OwnAreDistinct(accepted, sources[n].id);
      BlockIsDistinct(sources[n], BySource(accepted, sources[n].id), treatment);
      SourceAppended(sources, n);
      assert sources[..n + 1] == sources;
      LastIsNew(sources);
      AppendedIsDistinct(Plans(sources[..n], accepted, treatment), SourcePlans(sources[n], BySource(accepted, sources[n].id), treatment), sources[..n]);
    }
  }

  lemma LastIsNew(sources: seq<Source>)
    requires sources != [] && DistinctSources(sources)
    ensures !HasSource(sources[..|sources| - 1], sources[|sources| - 1].id)
  {
  }

  lemma AppendedIsDistinct(before: seq<Plan>, block: seq<Plan>, sources: seq<Source>)
    requires DistinctPlans(before) && DistinctPlans(block)
    requires forall i :: 0 <= i < |before| ==> HasSource(sources, before[i].source.id)
    requires forall i :: 0 <= i < |block| ==> !HasSource(sources, block[i].source.id)
    ensures DistinctPlans(before + block)
  {
    hide HasSource;
    var all := before + block;
    forall i, j | 0 <= i < j < |all| ensures IdOf(all[i]) != IdOf(all[j]) {
      assert IdOf(all[i]).sourceId == all[i].source.id && IdOf(all[j]).sourceId == all[j].source.id;
    }
  }

  /** All line ids of a saved voucher are distinct. */
  lemma LineIdsAreDistinct(
    sources: seq<Source>, accepted: seq<Allocation>, decisions: Templates, treatment: Treatment, catalogs: Catalogs)
    requires DistinctSources(sources) && DistinctAllocations(accepted)
    requires Materialized(sources, accepted, decisions, treatment, catalogs).Ok?
    ensures DistinctLines(Materialized(sources, accepted, decisions, treatment, catalogs).value)
  {
    hide DistinctSources, DistinctAllocations, Plans;
    PlansAreDistinct(sources, accepted, treatment);
    var plans := Plans(sources, accepted, treatment);
    LinesFollowPlans(plans, decisions, catalogs);
    var lines := LinesOf(plans, decisions, catalogs).value;
    forall i, j | 0 <= i < j < |lines| ensures lines[i].id != lines[j].id {
      LineHasPlanId(plans[i], decisions, catalogs);
      LineHasPlanId(plans[j], decisions, catalogs);
    }
  }

  lemma LineHasPlanId(plan: Plan, decisions: Templates, catalogs: Catalogs)
    requires DecidedLine(plan, decisions, catalogs).Ok?
    ensures DecidedLine(plan, decisions, catalogs).value.id == IdOf(plan)
  {
  }

  // ---------------------------------------------------------------- saving again

  /** The catalogs are indexed by account code and by auxiliary value id. */
  predicate WellIndexed(catalogs: Catalogs) {
    && (forall code :: code in catalogs.accounts ==> catalogs.accounts[code].code == code)
    && (forall id :: id in catalogs.auxValues ==> catalogs.auxValues[id].valueId == id)
  }

  /** The same line, whatever its amount. */
  predicate SamePlace(a: Plan, b: Plan) { a.source.id == b.source.id && a.role == b.role && a.allocation == b.allocation }

  predicate SameAccount(decision: Decision, line: Line) { decision.account == line.account && decision.aux == line.aux }

  predicate DecidedAs(decisions: Templates, id: LineId, line: Line) { id in decisions && SameAccount(decisions[id], line) }

  lemma LineAuxIsStable(plan: Plan, again: Plan, decided: Aux, account: Account, catalogs: Catalogs)
    requires SamePlace(plan, again) && LineAux(plan, decided, account, catalogs).Ok?
    ensures var aux := LineAux(plan, decided, account, catalogs).value; LineAux(again, aux, account, catalogs) == Ok(aux)
  {
    hide Strip;
    var aux := LineAux(plan, decided, account, catalogs).value;
    if plan.allocation.Some? && Strip(plan.allocation.value.projectId) != "" {
      var project := catalogs.auxValues[plan.allocation.value.projectId];
      if project.dimension in account.requiredAux { assert aux[project.dimension := project.valueId] == aux; }
    }
  }

  /** A line's own account and auxiliary values decide it again, and a line in the same place alike. */
  lemma LineDecidesItself(plan: Plan, again: Plan, decisions: Templates, later: Templates, catalogs: Catalogs)
    requires WellIndexed(catalogs) && SamePlace(plan, again) && DecidedLine(plan, decisions, catalogs).Ok?
    requires DecidedAs(later, IdOf(plan), DecidedLine(plan, decisions, catalogs).value)
    ensures var line := DecidedLine(plan, decisions, catalogs).value;
            DecidedLine(again, later, catalogs) == Ok(line.(amount := again.amount, summary := again.summary, direction := again.direction))
  {
    hide Strip, AuxValid;
    var line := DecidedLine(plan, decisions, catalogs).value;
    var account := catalogs.accounts[Chosen(plan, decisions).value.account];
    assert account.code == Chosen(plan, decisions).value.account;
    LineAuxIsStable(plan, again, Chosen(plan, decisions).value.aux, account, catalogs);
  }

  lemma {:induction false} LineDecisionsAreLines(lines: seq<Line>)
    requires DistinctLines(lines)
    ensures forall id :: id in LineDecisions(lines) <==> HasLine(lines, id)
    ensures forall i :: 0 <= i < |lines| ==> lines[i].id in LineDecisions(lines) && LineDecisions(lines)[lines[i].id] == DecisionOf(lines[i])
  {
    if lines != [] {
      var n := |lines| - 1;
      assert DistinctLines(lines[..n]);
      LineDecisionsAreLines(lines[..n]);
      LineAppended(lines, n);
      assert lines[..n + 1] == lines;
      forall i | 0 <= i < |lines|
        ensures lines[i].id in LineDecisions(lines) && LineDecisions(lines)[lines[i].id] == DecisionOf(lines[i]) {
        assert i < n ==> lines[..n][i] == lines[i];
      }
    }
  }

  lemma {:induction false} NothingToStore(lines: seq<Line>, templates: Templates)
    requires forall i :: 0 <= i < |lines| ==> lines[i].id in templates
    ensures StoredDecisions(lines, templates) == templates
  {
    if lines != [] { NothingToStore(lines[..|lines| - 1], templates); }
  }

  /** What a saved proposal stores is what the next save starts from. */
  lemma SavedDecisionsAreTemplates(
    before: Snapshot, allocations: seq<Allocation>, raw: seq<Decision>, treatment: Treatment, catalogs: Catalogs)
    requires Save(before, allocations, raw, treatment, catalogs).Ok?
    ensures var after := Save(before, allocations, raw, treatment, catalogs).value;
            && Merged(after.lines, after.templates, []) == Ok(after.templates)
            && DistinctLines(after.lines)
            && (forall i :: 0 <= i < |after.lines| ==>
                  after.lines[i].id in after.templates && after.templates[after.lines[i].id] == DecisionOf(after.lines[i]))
  {
    hide ValidatedAllocations, Materialized, LineDecisions, DistinctLines, Acceptable, Grouped;
    var after := Save(before, allocations, raw, treatment, catalogs).value;
    AcceptedExactly(before.sources, allocations);
    GroupedIsAcceptable(before.sources, allocations);
    var decisions := Merged(before.lines, before.templates, raw).value;
    AcceptableIsDistinct(before.sources, Grouped(before.sources, allocations));
    LineIdsAreDistinct(before.sources, Grouped(before.sources, allocations), decisions, treatment, catalogs);
    LineDecisionsAreLines(after.lines);
    NothingToStore(after.lines, after.templates);
  }

  lemma AcceptableIsDistinct(sources: seq<Source>, allocations: seq<Allocation>)
    requires Acceptable(sources, allocations)
    ensures DistinctSources(sources) && DistinctAllocations(allocations)
  {
  }

  lemma {:induction false} GroupedAreListed(sources: seq<Source>, allocations: seq<Allocation>)
    ensures forall i :: 0 <= i < |Grouped(sources, allocations)| ==> Grouped(sources, allocations)[i] in allocations
    ensures forall i :: 0 <= i < |Grouped(sources, allocations)| ==> HasSource(sources, Grouped(sources, allocations)[i].sourceId)
  {
    if sources != [] {
      var n := |sources| - 1;
      GroupedAreListed(sources[..n], allocations);
      OwnAreAmong(allocations, sources[n].id);
      SourceAppended(sources, n);
      assert sources[..n + 1] == sources;
    }
  }

  lemma {:induction false} OwnAreAmong(allocations: seq<Allocation>, id: string)
    ensures forall i :: 0 <= i < |BySource(allocations, id)| ==>
              BySource(allocations, id)[i] in allocations && BySource(allocations, id)[i].sourceId == id
  {
    if allocations != [] { OwnAreAmong(allocations[..|allocations| - 1], id); }
  }

  lemma {:induction false} GroupedIsDistinct(sources: seq<Source>, allocations: seq<Allocation>)
    requires DistinctSources(sources) && DistinctAllocations(allocations)
    ensures DistinctAllocations(Grouped(sources, allocations))
  {
    if sources != [] {
      var n := |sources| - 1;
      assert DistinctSources(sources[..n]);
      GroupedIsDistinct(sources[..n], allocations);
      OwnAreDistinct(allocations, sources[n].id);
      GroupedAreListed(sources[..n], allocations);
      OwnAreAmong(allocations, sources[n].id);
      LastIsNew(sources);
      var before, own := Grouped(sources[..n], allocations), BySource(allocations, sources[n].id);
      forall i, j | 0 <= i < |before| && 0 <= j < |own| ensures before[i].id != own[j].id {
        assert before[i] in allocations && own[j] in allocations;
        assert before[i].sourceId != own[j].sourceId;
        SameIdIsSame(allocations, before[i], own[j]);
      }
    }
  }

  lemma SameIdIsSame(allocations: seq<Allocation>, a: Allocation, b: Allocation)
    requires DistinctAllocations(allocations) && a in allocations && b in allocations
    ensures a.id == b.id ==> a == b
  {
    var i :| 0 <= i < |allocations| && allocations[i] == a;
    var j :| 0 <= j < |allocations| && allocations[j] == b;
    if i < j { assert allocations[i].id != allocations[j].id; }
    if j < i { assert allocations[j].id != allocations[i].id; }
  }

  /** Accepted allocations are accepted again, unchanged. */
  lemma GroupedIsAcceptable(sources: seq<Source>, allocations: seq<Allocation>)
    requires Acceptable(sources, allocations)
    ensures Acceptable(sources, Grouped(sources, allocations))
    ensures forall id :: HasSource(sources, id) ==> BySource(Grouped(sources, allocations), id) == BySource(allocations, id)
  {
    hide SoundAllocation, SourceCovered, BySource, Grouped;
    var grouped := Grouped(sources, allocations);
    GroupedIsDistinct(sources, allocations);
    GroupedAreListed(sources, allocations);
    forall id | HasSource(sources, id) ensures BySource(grouped, id) == BySource(allocations, id) {
      GroupedBySource(sources, allocations, id);
    }
    forall i | 0 <= i < |sources| ensures SourceCovered(sources[i], BySource(grouped, sources[i].id)) {
      assert HasSource(sources, sources[i].id);
    }
    forall i | 0 <= i < |grouped| ensures SoundAllocation(sources, grouped[i]) {
      assert grouped[i] in allocations;
    }
  }

  lemma {:induction false} GroupedTwice(sources: seq<Source>, a: seq<Allocation>, b: seq<Allocation>)
    requires forall i :: 0 <= i < |sources| ==> BySource(a, sources[i].id) == BySource(b, sources[i].id)
    ensures Grouped(sources, a) == Grouped(sources, b)
  {
    if sources != [] { GroupedTwice(sources[..|sources| - 1], a, b); }
  }

  lemma DecidedAgain(plans: seq<Plan>, decisions: Templates, later: Templates, catalogs: Catalogs)
    requires WellIndexed(catalogs) && LinesOf(plans, decisions, catalogs).Ok?
    requires |LinesOf(plans, decisions, catalogs).value| == |plans|
    requires forall i :: 0 <= i < |plans| ==> DecidedAs(later, IdOf(plans[i]), LinesOf(plans, decisions, catalogs).value[i])
    ensures LinesOf(plans, later, catalogs) == LinesOf(plans, decisions, catalogs)
  {
    hide DecidedAs, LinesOf, WellIndexed;
    LinesFollowPlans(plans, decisions, catalogs);
    LinesFollowPlans(plans, later, catalogs);
    var lines := LinesOf(plans, decisions, catalogs).value;
    forall i | 0 <= i < |plans| ensures DecidedLine(plans[i], later, catalogs) == Ok(lines[i]) {
      LineDecidesItself(plans[i], plans[i], decisions, later, catalogs);
      LineHasPlan(plans[i], decisions, catalogs);
    }
    if LinesOf(plans, later, catalogs).Ok? { assert LinesOf(plans, later, catalogs).value == lines; }
  }

  lemma LineHasPlan(plan: Plan, decisions: Templates, catalogs: Catalogs)
    requires DecidedLine(plan, decisions, catalogs).Ok?
    ensures var line := DecidedLine(plan, decisions, catalogs).value;
            line.id == IdOf(plan) && line.amount == plan.amount && line.summary == plan.summary && line.direction == plan.direction
  {
  }

  lemma RetainedAgain(sources: seq<Source>, lines: seq<Line>, decisions: Templates)
    ensures Retained(sources, lines, Retained(sources, lines, decisions)) == Retained(sources, lines, decisions)
  {
    hide IsTemplate, LineDecisions;
  }

  /** A successful save, taken apart. */
  lemma SaveParts(before: Snapshot, allocations: seq<Allocation>, raw: seq<Decision>, treatment: Treatment, catalogs: Catalogs)
    requires Save(before, allocations, raw, treatment, catalogs).Ok?
    ensures var after := Save(before, allocations, raw, treatment, catalogs).value;
            && before.sources != [] && Acceptable(before.sources, allocations)
            && after.sources == before.sources && after.treatment == treatment
            && after.allocations == Grouped(before.sources, allocations)
            && Merged(before.lines, before.templates, raw).Ok?
            && var decisions, plans := Merged(before.lines, before.templates, raw).value, Plans(before.sources, after.allocations, treatment);
               && LinesOf(plans, decisions, catalogs) == Ok(after.lines) && |after.lines| == |plans|
               && (forall i :: 0 <= i < |plans| ==>
                     DecidedLine(plans[i], decisions, catalogs) == Ok(after.lines[i]) && after.lines[i].id == IdOf(plans[i]))
               && after.templates == Retained(before.sources, after.lines, decisions)
               && after.balanced == (SideTotal(after.lines, Debit) == SideTotal(after.lines, Credit))
  {
    hide ValidatedAllocations, Plans, LinesOf, Merged, Acceptable, DecidedLine, Retained;
    AcceptedExactly(before.sources, allocations);
    var after := Save(before, allocations, raw, treatment, catalogs).value;
    var decisions, plans := Merged(before.lines, before.templates, raw).value, Plans(before.sources, after.allocations, treatment);
    LinesFollowPlans(plans, decisions, catalogs);
    forall i | 0 <= i < |plans| ensures after.lines[i].id == IdOf(plans[i]) { LineHasPlan(plans[i], decisions, catalogs); }
  }

  /** Saving what was saved, with the allocations as given or as stored, changes nothing. */
  lemma ResaveIsFixedPoint(
    before: Snapshot, allocations: seq<Allocation>, again: seq<Allocation>, raw: seq<Decision>, treatment: Treatment, catalogs: Catalogs)
    requires WellIndexed(catalogs) && Save(before, allocations, raw, treatment, catalogs).Ok?
    requires again == allocations || again == Save(before, allocations, raw, treatment, catalogs).value.allocations
    ensures Save(Save(before, allocations, raw, treatment, catalogs).value, again, [], treatment, catalogs)
         == Save(before, allocations, raw, treatment, catalogs)
  {
    hide ValidatedAllocations, Plans, LinesOf, Merged, Acceptable, DecidedLine, Retained, SideTotal, WellIndexed, DistinctLines;
    var after := Save(before, allocations, raw, treatment, catalogs).value;
    SaveParts(before, allocations, raw, treatment, catalogs);
    SavedDecisionsAreTemplates(before, allocations, raw, treatment, catalogs);
    var decisions := Merged(before.lines, before.templates, raw).value;
    AcceptedAgain(before.sources, allocations, again);
    DecidedAgain(Plans(before.sources, after.allocations, treatment), decisions, after.templates, catalogs);
    RetainedAgain(before.sources, after.lines, decisions);
  }

  lemma AcceptedAgain(sources: seq<Source>, allocations: seq<Allocation>, again: seq<Allocation>)
    requires Acceptable(sources, allocations) && (again == allocations || again == Grouped(sources, allocations))
    ensures ValidatedAllocations(sources, again) == Ok(Grouped(sources, allocations))
  {
    hide Acceptable, Grouped, ValidatedAllocations, BySource;
    GroupedIsAcceptable(sources, allocations);
    AcceptedExactly(sources, again);
    forall i | 0 <= i < |sources| ensures BySource(again, sources[i].id) == BySource(allocations, sources[i].id) {
      assert HasSource(sources, sources[i].id);
    }
    GroupedTwice(sources, again, allocations);
  }

  predicate Placed(plan: Plan, plans: seq<Plan>) { exists j :: 0 <= j < |plans| && SamePlace(plan, plans[j]) }

  lemma PlacedInSum(plan: Plan, a: seq<Plan>, b: seq<Plan>)
    ensures Placed(plan, a) || Placed(plan, b) ==> Placed(plan, a + b)
  {
    if j :| 0 <= j < |a| && SamePlace(plan, a[j]) { assert (a + b)[j] == a[j]; }
    if j :| 0 <= j < |b| && SamePlace(plan, b[j]) { assert (a + b)[|a| + j] == b[j]; }
  }

  /** Only input tax lines come and go with the tax treatment. */
  lemma {:induction false} Counterpart(sources: seq<Source>, accepted: seq<Allocation>, from: Treatment, to: Treatment, i: nat)
    requires i < |Plans(sources, accepted, from)|
    ensures var plan := Plans(sources, accepted, from)[i];
            || (plan.role == InputTax && plan.allocation == None && HasSource(sources, plan.source.id))
            || Placed(plan, Plans(sources, accepted, to))
  {
    hide SourcePlans, BySource, Placed, HasSource;
    var n := |sources| - 1;
    var source, own := sources[n], BySource(accepted, sources[n].id);
    var olds, news, block := Plans(sources[..n], accepted, from), Plans(sources[..n], accepted, to), SourcePlans(source, own, to);
    SourceAppended(sources, n);
    assert sources[..n + 1] == sources;
    var plan := Plans(sources, accepted, from)[i];
    PlacedInSum(plan, news, block);
    if i < |olds| {
      Counterpart(sources[..n], accepted, from, to, i);
    } else {
      BlockCounterpart(source, own, from, to, i - |olds|);
    }
  }

  lemma BlockCounterpart(source: Source, own: seq<Allocation>, from: Treatment, to: Treatment, i: nat)
    requires i < |SourcePlans(source, own, from)|
    ensures var plan := SourcePlans(source, own, from)[i];
            || (plan.role == InputTax && plan.allocation == None && plan.source.id == source.id)
            || Placed(plan, SourcePlans(source, own, to))
  {
    hide SourceSummary, Joined;
    var a, b := SourcePlans(source, own, from), SourcePlans(source, own, to);
    if i < |own| {
      assert SamePlace(a[i], b[i]);
    } else if i == |a| - 1 {
      assert SamePlace(a[i], b[|b| - 1]);
    }
  }

  /** A line of the first save is still decided the same way after a save under another treatment. */
  lemma SwitchKeepsDecision(
    before: Snapshot, allocations: seq<Allocation>, raw: seq<Decision>, first: Treatment, second: Treatment, catalogs: Catalogs, i: nat)
    requires WellIndexed(catalogs) && Save(before, allocations, raw, first, catalogs).Ok?
    requires var one := Save(before, allocations, raw, first, catalogs).value;
             i < |one.lines| && Save(one, allocations, [], second, catalogs).Ok?
    ensures var one := Save(before, allocations, raw, first, catalogs).value;
            DecidedAs(Save(one, allocations, [], second, catalogs).value.templates, one.lines[i].id, one.lines[i])
  {
    hide ValidatedAllocations, Plans, LinesOf, Merged, Acceptable, DecidedLine, LineDecisions, SideTotal, Save, Grouped, DistinctLines, WellIndexed;
    var one := Save(before, allocations, raw, first, catalogs).value;
    var two := Save(one, allocations, [], second, catalogs).value;
    SaveParts(before, allocations, raw, first, catalogs);
    SaveParts(one, allocations, [], second, catalogs);
    SavedDecisionsAreTemplates(before, allocations, raw, first, catalogs);
    SavedDecisionsAreTemplates(one, allocations, [], second, catalogs);
    var sources, line := before.sources, one.lines[i];
    var planA, plansB := Plans(sources, one.allocations, first)[i], Plans(sources, one.allocations, second);
    var decisions := Merged(before.lines, before.templates, raw).value;
    Counterpart(sources, one.allocations, first, second, i);
    if j :| 0 <= j < |plansB| && SamePlace(planA, plansB[j]) {
      LineDecidesItself(planA, plansB[j], decisions, one.templates, catalogs);
      assert two.lines[j].id == line.id;
    } else {
      LineDecisionsAreLines(two.lines);
      assert forall j :: 0 <= j < |two.lines| ==> !SamePlace(planA, plansB[j]) && two.lines[j].id != line.id;
    }
  }

  /** Switching the tax treatment and back restores the lines: the decisions for lines that disappear are
      kept as templates. */
  lemma SwitchingBackRestores(
    before: Snapshot, allocations: seq<Allocation>, raw: seq<Decision>, first: Treatment, second: Treatment, catalogs: Catalogs)
    requires WellIndexed(catalogs) && Save(before, allocations, raw, first, catalogs).Ok?
    requires Save(Save(before, allocations, raw, first, catalogs).value, allocations, [], second, catalogs).Ok?
    ensures var one := Save(before, allocations, raw, first, catalogs).value;
            var two := Save(one, allocations, [], second, catalogs).value;
            var back := Save(two, allocations, [], first, catalogs);
            back.Ok? && back.value.lines == one.lines && back.value.allocations == one.allocations && back.value.balanced == one.balanced
  {
    hide ValidatedAllocations, Plans, LinesOf, Merged, Acceptable, DecidedLine, Retained, SideTotal, WellIndexed, DecidedAs, Grouped, DistinctLines;
    var one := Save(before, allocations, raw, first, catalogs).value;
    var two := Save(one, allocations, [], second, catalogs).value;
    SaveParts(before, allocations, raw, first, catalogs);
    SaveParts(one, allocations, [], second, catalogs);
    SavedDecisionsAreTemplates(one, allocations, [], second, catalogs);
    forall i | 0 <= i < |one.lines| ensures DecidedAs(two.templates, one.lines[i].id, one.lines[i]) {
      SwitchKeepsDecision(before, allocations, raw, first, second, catalogs, i);
    }
    var decisions := Merged(before.lines, before.templates, raw).value;
    DecidedAgain(Plans(before.sources, one.allocations, first), decisions, two.templates, catalogs);
    AcceptedAgain(before.sources, allocations, allocations);
  }
}
