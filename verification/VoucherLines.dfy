/** From accepted allocations and account decisions to voucher lines, and what saving a decision does to
    the stored proposal. */
module VoucherLines {
  import opened Results
  import opened Text
  import opened Decisions

  /** A line before its account is known. */
  datatype Plan = Plan(source: Source, role: Role, direction: Direction, amount: int, summary: string, allocation: Option<Allocation>)

  function Joined(parts: seq<string>): string {
    if parts == [] then ""
    else
      var rest := Joined(parts[1..]);
      if parts[0] == "" then rest else if rest == "" then parts[0] else parts[0] + " " + rest
  }

  function CostAmount(a: Allocation, treatment: Treatment): int {
    if treatment == NonDeductible then Cents(a.total) else Cents(a.pretax)
  }

  function CostPlan(source: Source, a: Allocation, treatment: Treatment): Plan {
    Plan(source, Cost, Debit, CostAmount(a, treatment),
         Joined(["采购", source.seller, source.itemName, a.projectName, source.invoiceNo]), Some(a))
  }

  function SourceSummary(source: Source): string { Joined(["采购", source.seller, source.itemName, source.invoiceNo]) }

  function CostPlans(source: Source, own: seq<Allocation>, treatment: Treatment): seq<Plan> {
    seq(|own|, i requires 0 <= i < |own| => CostPlan(source, own[i], treatment))
  }

  function TaxPlans(source: Source, treatment: Treatment): seq<Plan> {
    if treatment == Deductible && Cents(source.tax) != 0
    then [Plan(source, InputTax, Debit, Cents(source.tax), SourceSummary(source), None)] else []
  }

  function PayablePlan(source: Source): Plan {
    Plan(source, Payable, Credit, Cents(source.total), SourceSummary(source), None)
  }

  function SourcePlans(source: Source, own: seq<Allocation>, treatment: Treatment): seq<Plan> {
    CostPlans(source, own, treatment) + TaxPlans(source, treatment) + [PayablePlan(source)]
  }

  function Plans(sources: seq<Source>, accepted: seq<Allocation>, treatment: Treatment): seq<Plan> {
    if sources == [] then []
    else
      var n := |sources| - 1;
      Plans(sources[..n], accepted, treatment) + SourcePlans(sources[n], BySource(accepted, sources[n].id), treatment)
  }

  function TemplateOf(plan: Plan): LineId { TemplateId(plan.source.id, plan.role) }

  function IdOf(plan: Plan): LineId {
    if plan.allocation.Some? then AllocationId(plan.source.id, plan.allocation.value.id, plan.role) else TemplateOf(plan)
  }

  // ---------------------------------------------------------------- one line

  /** The auxiliary values of a line: those decided, with the project of its allocation filled in where the
      account asks for that dimension. */
  function LineAux(plan: Plan, decided: Aux, account: Account, catalogs: Catalogs): Result<Aux, Error> {
    if plan.allocation.Some? && Strip(plan.allocation.value.projectId) != "" then
      var projectId := plan.allocation.value.projectId;
      if projectId !in catalogs.auxValues || !catalogs.auxValues[projectId].enabled then Err(BadProject)
      else
        var project := catalogs.auxValues[projectId];
        Ok(if project.dimension in account.requiredAux then decided[project.dimension := project.valueId] else decided)
    else Ok(decided)
  }

  predicate AuxValid(aux: Aux, catalogs: Catalogs) {
    forall dimension :: dimension in aux ==>
      && aux[dimension] in catalogs.auxValues
      && catalogs.auxValues[aux[dimension]].dimension == dimension && catalogs.auxValues[aux[dimension]].enabled
  }

  function Chosen(plan: Plan, decisions: map<LineId, Decision>): Option<Decision> {
    if IdOf(plan) in decisions then Some(decisions[IdOf(plan)])
    else if TemplateOf(plan) in decisions then Some(decisions[TemplateOf(plan)])
    else None
  }

  function DecidedLine(plan: Plan, decisions: map<LineId, Decision>, catalogs: Catalogs): Result<Line, Error> {
    var chosen := Chosen(plan, decisions);
    if chosen.None? || Strip(chosen.value.account) == "" then Err(NoAccount)
    else if chosen.value.account !in catalogs.accounts then Err(UnknownAccount)
    else
      var account := catalogs.accounts[chosen.value.account];
      if !account.enabled || !account.isLeaf then Err(ClosedAccount)
      else
        match LineAux(plan, chosen.value.aux, account, catalogs)
        case Err(e) => Err(e)
        case Ok(aux) =>
          if !AuxValid(aux, catalogs) then Err(BadAux)
          else
            Ok(Line(IdOf(plan), plan.role, plan.summary, account.code, account.name, plan.direction, plan.amount, aux,
                    [plan.source.id], if plan.allocation.Some? then [plan.allocation.value.id] else []))
  }

  function LinesOf(plans: seq<Plan>, decisions: map<LineId, Decision>, catalogs: Catalogs): Result<seq<Line>, Error> {
    if plans == [] then Ok([])
    else
      match LinesOf(plans[..|plans| - 1], decisions, catalogs)
      case Err(e) => Err(e)
      case Ok(lines) =>
        match DecidedLine(plans[|plans| - 1], decisions, catalogs)
        case Err(e) => Err(e)
        case Ok(line) => Ok(lines + [line])
  }

  function Materialized(
    sources: seq<Source>, accepted: seq<Allocation>, decisions: map<LineId, Decision>, treatment: Treatment, catalogs: Catalogs)
    : Result<seq<Line>, Error>
  {
    LinesOf(Plans(sources, accepted, treatment), decisions, catalogs)
  }

  lemma LinesGrow(plans: seq<Plan>, plan: Plan, decisions: map<LineId, Decision>, catalogs: Catalogs)
    ensures LinesOf(plans, decisions, catalogs).Err? ==> LinesOf(plans + [plan], decisions, catalogs) == LinesOf(plans, decisions, catalogs)
    ensures LinesOf(plans, decisions, catalogs).Ok? && DecidedLine(plan, decisions, catalogs).Err? ==>
              LinesOf(plans + [plan], decisions, catalogs) == Err(DecidedLine(plan, decisions, catalogs).error)
    ensures LinesOf(plans, decisions, catalogs).Ok? && DecidedLine(plan, decisions, catalogs).Ok? ==>
              LinesOf(plans + [plan], decisions, catalogs)
              == Ok(LinesOf(plans, decisions, catalogs).value + [DecidedLine(plan, decisions, catalogs).value])
  {
    assert (plans + [plan])[..|plans|] == plans;
  }

  lemma {:induction false} ErrorsStay(plans: seq<Plan>, more: seq<Plan>, decisions: map<LineId, Decision>, catalogs: Catalogs)
    requires LinesOf(plans, decisions, catalogs).Err?
    ensures LinesOf(plans + more, decisions, catalogs) == LinesOf(plans, decisions, catalogs)
    decreases |more|
  {
    if more == [] {
      assert plans + more == plans;
    } else {
      var n := |more| - 1;
      ErrorsStay(plans, more[..n], decisions, catalogs);
      assert plans + more == plans + more[..n] + [more[n]];
      LinesGrow(plans + more[..n], more[n], decisions, catalogs);
    }
  }

  lemma {:induction false} PlansArePrefix(sources: seq<Source>, accepted: seq<Allocation>, treatment: Treatment, i: nat)
    requires i <= |sources|
    ensures Plans(sources[..i], accepted, treatment) <= Plans(sources, accepted, treatment)
    decreases |sources|
  {
    if i < |sources| {
      PlansArePrefix(sources[..|sources| - 1], accepted, treatment, i);
      assert sources[..|sources| - 1][..i] == sources[..i];
    } else {
      assert sources[..i] == sources;
    }
  }

  lemma BlockIsPrefix(sources: seq<Source>, accepted: seq<Allocation>, treatment: Treatment, i: nat)
    requires i < |sources|
    ensures Plans(sources[..i + 1], accepted, treatment)
         == Plans(sources[..i], accepted, treatment) + SourcePlans(sources[i], BySource(accepted, sources[i].id), treatment)
    ensures Plans(sources[..i + 1], accepted, treatment) <= Plans(sources, accepted, treatment)
  {
    assert sources[..i + 1][..i] == sources[..i];
    PlansArePrefix(sources, accepted, treatment, i + 1);
  }

  lemma FirstErrorWins(done: seq<Plan>, plan: Plan, all: seq<Plan>, decisions: map<LineId, Decision>, catalogs: Catalogs)
    requires done + [plan] <= all && LinesOf(done, decisions, catalogs).Ok? && DecidedLine(plan, decisions, catalogs).Err?
    ensures LinesOf(all, decisions, catalogs) == Err(DecidedLine(plan, decisions, catalogs).error)
  {
    LinesGrow(done, plan, decisions, catalogs);
    assert all == done + [plan] + all[|done| + 1..];
    ErrorsStay(done + [plan], all[|done| + 1..], decisions, catalogs);
  }

  /** One more line at the end; `done` are the plans of the lines so far. */
  method AppendLine(
    ghost done: seq<Plan>, ghost all: seq<Plan>, lines: seq<Line>, plan: Plan, decisions: map<LineId, Decision>, catalogs: Catalogs)
    returns (r: Result<seq<Line>, Error>)
    requires done + [plan] <= all && LinesOf(done, decisions, catalogs) == Ok(lines)
    ensures r.Ok? ==> LinesOf(done + [plan], decisions, catalogs) == r
    ensures r.Err? ==> LinesOf(all, decisions, catalogs) == r
  {
    hide DecidedLine, LinesOf;
    var line := DecidedLine(plan, decisions, catalogs);
    LinesGrow(done, plan, decisions, catalogs);
    if line.Err? {
      FirstErrorWins(done, plan, all, decisions, catalogs);
      return Err(line.error);
    }
    r := Ok(lines + [line.value]);
  }

  /** The loops over sources and their allocations. */
  method MaterializeLines(
    sources: seq<Source>, accepted: seq<Allocation>, decisions: map<LineId, Decision>, treatment: Treatment, catalogs: Catalogs)
    returns (r: Result<seq<Line>, Error>)
    ensures r == Materialized(sources, accepted, decisions, treatment, catalogs)
  {
    hide DecidedLine, CostPlan, PayablePlan, LinesOf, BySource, SourceSummary;
    ghost var all := Plans(sources, accepted, treatment);
    NoPlans(decisions, catalogs);
    r := Ok([]);
    for i := 0 to |sources|
      invariant r.Ok? && LinesOf(Plans(sources[..i], accepted, treatment), decisions, catalogs) == r
    {
      r := SourceLines(sources, accepted, decisions, treatment, catalogs, i, r.value);
      if r.Err? { return; }
    }
    assert sources[..|sources|] == sources;
  }

  /** The body of the outer loop: cost lines, the input tax line, the payable line. */
  method SourceLines(
    sources: seq<Source>, accepted: seq<Allocation>, decisions: map<LineId, Decision>, treatment: Treatment, catalogs: Catalogs,
    i: nat, lines: seq<Line>)
    returns (r: Result<seq<Line>, Error>)
    requires i < |sources| && LinesOf(Plans(sources[..i], accepted, treatment), decisions, catalogs) == Ok(lines)
    ensures r.Ok? ==> LinesOf(Plans(sources[..i + 1], accepted, treatment), decisions, catalogs) == r
    ensures r.Err? ==> Materialized(sources, accepted, decisions, treatment, catalogs) == r
  {
    hide DecidedLine, CostPlan, PayablePlan, LinesOf, BySource, SourceSummary, Plans;
    ghost var all, before := Plans(sources, accepted, treatment), Plans(sources[..i], accepted, treatment);
    BlockIsPrefix(sources, accepted, treatment, i);
    var source := sources[i];
    var own := BySource(accepted, source.id);
    ghost var costs := CostPlans(source, own, treatment);
    assert before + costs[..0] == before;
    r := Ok(lines);
    for j := 0 to |own|
      invariant r.Ok? && LinesOf(before + costs[..j], decisions, catalogs) == r
    {
      assert before + costs[..j] + [costs[j]] == before + costs[..j + 1];
      r := AppendLine(before + costs[..j], all, r.value, CostPlan(source, own[j], treatment), decisions, catalogs);
      if r.Err? { return; }
    }
    assert before + costs[..|own|] == before + costs;
    assert before + costs + [] == before + costs;
    if treatment == Deductible && Cents(source.tax) != 0 {
      r := AppendLine(before + costs, all, r.value, Plan(source, InputTax, Debit, Cents(source.tax), SourceSummary(source), None),
                      decisions, catalogs);
      if r.Err? { return; }
    }
    assert before + SourcePlans(source, own, treatment) == before + costs + TaxPlans(source, treatment) + [PayablePlan(source)];
    r := AppendLine(before + costs + TaxPlans(source, treatment), all, r.value, PayablePlan(source), decisions, catalogs);
  }

  lemma NoPlans(decisions: map<LineId, Decision>, catalogs: Catalogs)
    ensures LinesOf([], decisions, catalogs) == Ok([])
  {
  }

  // ---------------------------------------------------------------- lines are their plans

  lemma {:induction false} LinesFollowPlans(plans: seq<Plan>, decisions: map<LineId, Decision>, catalogs: Catalogs)
    ensures LinesOf(plans, decisions, catalogs).Ok? <==> forall i :: 0 <= i < |plans| ==> DecidedLine(plans[i], decisions, catalogs).Ok?
    ensures LinesOf(plans, decisions, catalogs).Ok? ==>
              var lines := LinesOf(plans, decisions, catalogs).value;
              |lines| == |plans| && forall i :: 0 <= i < |plans| ==> DecidedLine(plans[i], decisions, catalogs) == Ok(lines[i])
  {
    hide DecidedLine;
    if plans != [] { LinesFollowPlans(plans[..|plans| - 1], decisions, catalogs); }
  }

  // ---------------------------------------------------------------- double entry

  function SideTotal(lines: seq<Line>, direction: Direction): int {
    if lines == [] then 0
    else SideTotal(lines[..|lines| - 1], direction)
         + (if lines[|lines| - 1].direction == direction then lines[|lines| - 1].amount else 0)
  }

  function PlanTotal(plans: seq<Plan>, direction: Direction): int {
    if plans == [] then 0
    else PlanTotal(plans[..|plans| - 1], direction)
         + (if plans[|plans| - 1].direction == direction then plans[|plans| - 1].amount else 0)
  }

  lemma {:induction false} LineTotals(plans: seq<Plan>, decisions: map<LineId, Decision>, catalogs: Catalogs, direction: Direction)
    requires LinesOf(plans, decisions, catalogs).Ok?
    ensures SideTotal(LinesOf(plans, decisions, catalogs).value, direction) == PlanTotal(plans, direction)
  {
    if plans != [] { LineTotals(plans[..|plans| - 1], decisions, catalogs, direction); }
  }

  lemma {:induction false} PlanTotalOfSum(a: seq<Plan>, b: seq<Plan>, direction: Direction)
    ensures PlanTotal(a + b, direction) == PlanTotal(a, direction) + PlanTotal(b, direction)
    decreases |b|
  {
    if b == [] {
      assert a + b == a;
    } else {
      assert (a + b)[..|a + b| - 1] == a + b[..|b| - 1];
      PlanTotalOfSum(a, b[..|b| - 1], direction);
    }
  }

  lemma {:induction false} CostTotals(source: Source, own: seq<Allocation>, treatment: Treatment)
    ensures PlanTotal(CostPlans(source, own, treatment), Credit) == 0
    ensures PlanTotal(CostPlans(source, own, treatment), Debit)
         == if treatment == NonDeductible then SumsOf(own).total else SumsOf(own).pretax
  {
    if own != [] {
      var n := |own| - 1;
      CostTotals(source, own[..n], treatment);
      assert CostPlans(source, own, treatment)[..n] == CostPlans(source, own[..n], treatment);
    }
  }

  function DebitOf(source: Source, treatment: Treatment): int {
    if treatment == Pending then Cents(source.total) - Cents(source.tax) else Cents(source.total)
  }

  lemma {:induction false} SumsBalance(own: seq<Allocation>)
    requires forall i :: 0 <= i < |own| ==> Cents(own[i].pretax) + Cents(own[i].tax) == Cents(own[i].total) && Cents(own[i].tax) >= 0
    ensures SumsOf(own).pretax + SumsOf(own).tax == SumsOf(own).total && SumsOf(own).tax >= 0
  {
    if own != [] { SumsBalance(own[..|own| - 1]); }
  }

  predicate Covered(source: Source, own: seq<Allocation>) {
    && SourceCovered(source, own)
    && Cents(source.pretax) + Cents(source.tax) == Cents(source.total) && Cents(source.tax) >= 0
  }

  lemma SourceTotals(source: Source, own: seq<Allocation>, treatment: Treatment)
    requires Covered(source, own)
    ensures PlanTotal(SourcePlans(source, own, treatment), Credit) == Cents(source.total)
    ensures PlanTotal(SourcePlans(source, own, treatment), Debit) == DebitOf(source, treatment)
  {
    hide PayablePlan, CostPlans, SourceSummary;
    CostTotals(source, own, treatment);
    forall direction ensures PlanTotal(SourcePlans(source, own, treatment), direction)
                          == PlanTotal(CostPlans(source, own, treatment), direction) + PlanTotal(TaxPlans(source, treatment), direction)
                             + PlanTotal([PayablePlan(source)], direction) {
      PlanTotalOfSum(CostPlans(source, own, treatment) + TaxPlans(source, treatment), [PayablePlan(source)], direction);
      PlanTotalOfSum(CostPlans(source, own, treatment), TaxPlans(source, treatment), direction);
    }
    SmallTotals(source, treatment);
  }

  lemma SmallTotals(source: Source, treatment: Treatment)
    ensures PlanTotal([PayablePlan(source)], Credit) == Cents(source.total) && PlanTotal([PayablePlan(source)], Debit) == 0
    ensures PlanTotal(TaxPlans(source, treatment), Credit) == 0
    ensures PlanTotal(TaxPlans(source, treatment), Debit) == if treatment == Deductible then Cents(source.tax) else 0
  {
  }

  function SourceSum(sources: seq<Source>, treatment: Treatment, side: Direction): int {
    if sources == [] then 0
    else SourceSum(sources[..|sources| - 1], treatment, side)
         + (if side.Credit? then Cents(sources[|sources| - 1].total) else DebitOf(sources[|sources| - 1], treatment))
  }

  lemma {:induction false} PlansTotal(sources: seq<Source>, accepted: seq<Allocation>, treatment: Treatment, side: Direction)
    requires forall i :: 0 <= i < |sources| ==> Covered(sources[i], BySource(accepted, sources[i].id))
    ensures PlanTotal(Plans(sources, accepted, treatment), side) == SourceSum(sources, treatment, side)
  {
    hide Covered, SourcePlans, DebitOf;
    if sources != [] {
      var n := |sources| - 1;
      PlansTotal(sources[..n], accepted, treatment, side);
      PlanTotalOfSum(Plans(sources[..n], accepted, treatment), SourcePlans(sources[n], BySource(accepted, sources[n].id), treatment), side);
      SourceTotals(sources[n], BySource(accepted, sources[n].id), treatment);
    }
  }

  predicate NoTax(sources: seq<Source>) { forall i :: 0 <= i < |sources| ==> Cents(sources[i].tax) == 0 }

  lemma {:induction false} SumsAgree(sources: seq<Source>, treatment: Treatment)
    requires forall i :: 0 <= i < |sources| ==> Cents(sources[i].tax) >= 0
    ensures SourceSum(sources, treatment, Debit) <= SourceSum(sources, treatment, Credit)
    ensures SourceSum(sources, treatment, Debit) == SourceSum(sources, treatment, Credit) <==> treatment != Pending || NoTax(sources)
  {
    if sources != [] {
      var n := |sources| - 1;
      SumsAgree(sources[..n], treatment);
      assert NoTax(sources) <==> NoTax(sources[..n]) && Cents(sources[n].tax) == 0;
    }
  }

  lemma {:induction false} GroupedBySource(sources: seq<Source>, allocations: seq<Allocation>, id: string)
    requires DistinctSources(sources)
    ensures BySource(Grouped(sources, allocations), id) == if HasSource(sources, id) then BySource(allocations, id) else []
  {
    if sources != [] {
      var n := |sources| - 1;
      assert DistinctSources(sources[..n]);
      GroupedBySource(sources[..n], allocations, id);
      SourceAppended(sources, n);
      assert sources[..n + 1] == sources;
      BySourceOfSum(Grouped(sources[..n], allocations), BySource(allocations, sources[n].id), id);
      BySourceTwice(allocations, sources[n].id, id);
      if HasSource(sources[..n], id) {
        var j :| 0 <= j < n && sources[..n][j].id == id;
        assert sources[j].id != sources[n].id;
      }
    }
  }

  lemma {:induction false} BySourceOfSum(a: seq<Allocation>, b: seq<Allocation>, id: string)
    ensures BySource(a + b, id) == BySource(a, id) + BySource(b, id)
    decreases |b|
  {
    if b == [] {
      assert a + b == a;
    } else {
      assert (a + b)[..|a + b| - 1] == a + b[..|b| - 1];
      BySourceOfSum(a, b[..|b| - 1], id);
    }
  }

  lemma {:induction false} BySourceTwice(allocations: seq<Allocation>, first: string, second: string)
    ensures BySource(BySource(allocations, first), second) == if first == second then BySource(allocations, first) else []
  {
    if allocations != [] {
      var n := |allocations| - 1;
      BySourceTwice(allocations[..n], first, second);
      if allocations[n].sourceId == first {
        BySourceOfSum(BySource(allocations[..n], first), [allocations[n]], second);
        assert [allocations[n]][..0] == [];
        assert BySource([allocations[n]], second) == if first == second then [allocations[n]] else [];
      } else {
        assert BySource(allocations, first) == BySource(allocations[..n], first);
      }
    }
  }

  lemma {:induction false} OwnAreSound(sources: seq<Source>, allocations: seq<Allocation>, id: string)
    requires forall i :: 0 <= i < |allocations| ==> SoundAllocation(sources, allocations[i])
    ensures forall i :: 0 <= i < |BySource(allocations, id)| ==> SoundAllocation(sources, BySource(allocations, id)[i])
  {
    hide SoundAllocation;
    if allocations != [] { OwnAreSound(sources, allocations[..|allocations| - 1], id); }
  }

  lemma SoundSumsBalance(sources: seq<Source>, own: seq<Allocation>)
    requires forall i :: 0 <= i < |own| ==> SoundAllocation(sources, own[i])
    ensures SumsOf(own).pretax + SumsOf(own).tax == SumsOf(own).total && SumsOf(own).tax >= 0
  {
    hide HasSource, Strip, SumsOf;
    SumsBalance(own);
  }

  lemma AcceptedIsCovered(sources: seq<Source>, allocations: seq<Allocation>)
    requires Acceptable(sources, allocations)
    ensures forall i :: 0 <= i < |sources| ==> Covered(sources[i], BySource(Grouped(sources, allocations), sources[i].id))
  {
    hide SoundAllocation, BySource, Grouped, SumsOf, DistinctAllocations, DistinctSources;
    forall i | 0 <= i < |sources| ensures Covered(sources[i], BySource(Grouped(sources, allocations), sources[i].id)) {
      GroupedBySource(sources, allocations, sources[i].id);
      assert HasSource(sources, sources[i].id);
      OwnAreSound(sources, allocations, sources[i].id);
      SoundSumsBalance(sources, BySource(allocations, sources[i].id));
      assert SourceCovered(sources[i], BySource(allocations, sources[i].id));
    }
  }

  /** Double entry, exactly. For accepted allocations the credits are the source totals, the debits never
      exceed them, and the voucher balances if and only if the tax treatment is settled or no source
      carries tax. */
  lemma BalancesExactly(
    sources: seq<Source>, allocations: seq<Allocation>, decisions: map<LineId, Decision>, treatment: Treatment, catalogs: Catalogs)
    requires Acceptable(sources, allocations) && Materialized(sources, Grouped(sources, allocations), decisions, treatment, catalogs).Ok?
    ensures var lines := Materialized(sources, Grouped(sources, allocations), decisions, treatment, catalogs).value;
            && SideTotal(lines, Credit) == SourceSum(sources, treatment, Credit)
            && SideTotal(lines, Debit) <= SideTotal(lines, Credit)
            && (SideTotal(lines, Debit) == SideTotal(lines, Credit) <==> treatment != Pending || NoTax(sources))
  {
    hide LinesOf, Plans, SideTotal, PlanTotal, Grouped;
    var accepted := Grouped(sources, allocations);
    AcceptedIsCovered(sources, allocations);
    forall side ensures SideTotal(Materialized(sources, accepted, decisions, treatment, catalogs).value, side) == SourceSum(sources, treatment, side) {
      PlansTotal(sources, accepted, treatment, side);
      LineTotals(Plans(sources, accepted, treatment), decisions, catalogs, side);
    }
    SumsAgree(sources, treatment);
  }

  /** Per source: the lines of one source have its total on the credit side, and on the debit side its total,
      less its tax while the treatment is pending. */
  lemma SourceBalancesExactly(sources: seq<Source>, allocations: seq<Allocation>, treatment: Treatment, i: nat)
    requires Acceptable(sources, allocations) && i < |sources|
    ensures var plans := SourcePlans(sources[i], BySource(Grouped(sources, allocations), sources[i].id), treatment);
            && PlanTotal(plans, Credit) == Cents(sources[i].total)
            && (PlanTotal(plans, Debit) == PlanTotal(plans, Credit) <==> treatment != Pending || Cents(sources[i].tax) == 0)
  {
    hide Grouped, SourcePlans, PlanTotal;
    AcceptedIsCovered(sources, allocations);
    SourceTotals(sources[i], BySource(Grouped(sources, allocations), sources[i].id), treatment);
  }

  /** The lines of one source on one side. */
  function OwnTotal(lines: seq<Line>, sourceId: string, direction: Direction): int {
    if lines == [] then 0
    else
      var last := lines[|lines| - 1];
      OwnTotal(lines[..|lines| - 1], sourceId, direction)
      + (if last.sourceIds == [sourceId] && last.direction == direction then last.amount else 0)
  }

  function OwnPlanTotal(plans: seq<Plan>, sourceId: string, direction: Direction): int {
    if plans == [] then 0
    else
      var last := plans[|plans| - 1];
      OwnPlanTotal(plans[..|plans| - 1], sourceId, direction)
      + (if last.source.id == sourceId && last.direction == direction then last.amount else 0)
  }

  lemma {:induction false} OwnLineTotals(plans: seq<Plan>, decisions: map<LineId, Decision>, catalogs: Catalogs, sourceId: string, direction: Direction)
    requires LinesOf(plans, decisions, catalogs).Ok?
    ensures OwnTotal(LinesOf(plans, decisions, catalogs).value, sourceId, direction) == OwnPlanTotal(plans, sourceId, direction)
  {
    if plans != [] { OwnLineTotals(plans[..|plans| - 1], decisions, catalogs, sourceId, direction); }
  }

  lemma {:induction false} OwnTotalOfSum(a: seq<Plan>, b: seq<Plan>, sourceId: string, direction: Direction)
    ensures OwnPlanTotal(a + b, sourceId, direction) == OwnPlanTotal(a, sourceId, direction) + OwnPlanTotal(b, sourceId, direction)
    decreases |b|
  {
    if b == [] {
      assert a + b == a;
    } else {
      assert (a + b)[..|a + b| - 1] == a + b[..|b| - 1];
      OwnTotalOfSum(a, b[..|b| - 1], sourceId, direction);
    }
  }

  lemma {:induction false} OneSourceOnly(plans: seq<Plan>, owner: string, sourceId: string, direction: Direction)
    requires forall i :: 0 <= i < |plans| ==> plans[i].source.id == owner
    ensures OwnPlanTotal(plans, sourceId, direction) == if owner == sourceId then PlanTotal(plans, direction) else 0
  {
    if plans != [] { OneSourceOnly(plans[..|plans| - 1], owner, sourceId, direction); }
  }

  lemma BlockHasOneSource(source: Source, own: seq<Allocation>, treatment: Treatment)
    ensures forall i :: 0 <= i < |SourcePlans(source, own, treatment)| ==> SourcePlans(source, own, treatment)[i].source == source
  {
    hide SourceSummary, Joined;
  }

  lemma {:induction false} OwnTotalIsBlock(sources: seq<Source>, accepted: seq<Allocation>, treatment: Treatment, i: nat, direction: Direction)
    requires DistinctSources(sources) && i < |sources|
    ensures OwnPlanTotal(Plans(sources, accepted, treatment), sources[i].id, direction)
         == PlanTotal(SourcePlans(sources[i], BySource(accepted, sources[i].id), treatment), direction)
    decreases |sources|
  {
    hide SourcePlans, BySource, PlanTotal;
    var n := |sources| - 1;
    var block := SourcePlans(sources[n], BySource(accepted, sources[n].id), treatment);
    BlockHasOneSource(sources[n], BySource(accepted, sources[n].id), treatment);
    OwnTotalOfSum(Plans(sources[..n], accepted, treatment), block, sources[i].id, direction);
    OneSourceOnly(block, sources[n].id, sources[i].id, direction);
    if i < n {
      assert DistinctSources(sources[..n]) && sources[..n][i] == sources[i];
      OwnTotalIsBlock(sources[..n], accepted, treatment, i, direction);
    } else {
      NothingOfLast(sources, accepted, treatment, n, direction);
    }
  }

  /** The last source has no lines among those of the earlier ones. */
  lemma {:induction false} NothingOfLast(sources: seq<Source>, accepted: seq<Allocation>, treatment: Treatment, k: nat, direction: Direction)
    requires DistinctSources(sources) && sources != [] && k < |sources|
    ensures OwnPlanTotal(Plans(sources[..k], accepted, treatment), sources[|sources| - 1].id, direction) == 0
    decreases k
  {
    hide SourcePlans, BySource;
    if k > 0 {
      var last, block := sources[|sources| - 1].id, SourcePlans(sources[k - 1], BySource(accepted, sources[k - 1].id), treatment);
      assert sources[..k][..k - 1] == sources[..k - 1];
      NothingOfLast(sources, accepted, treatment, k - 1, direction);
      BlockHasOneSource(sources[k - 1], BySource(accepted, sources[k - 1].id), treatment);
      OwnTotalOfSum(Plans(sources[..k - 1], accepted, treatment), block, last, direction);
      OneSourceOnly(block, sources[k - 1].id, last, direction);
    }
  }

  /** The materialised lines, source by source: those of one source have its total on the credit side, and
      they balance if and only if the treatment is settled or that source has no tax. */
  lemma SourceLinesBalanceExactly(
    sources: seq<Source>, allocations: seq<Allocation>, decisions: map<LineId, Decision>, treatment: Treatment, catalogs: Catalogs, i: nat)
    requires Acceptable(sources, allocations) && i < |sources|
    requires Materialized(sources, Grouped(sources, allocations), decisions, treatment, catalogs).Ok?
    ensures var lines := Materialized(sources, Grouped(sources, allocations), decisions, treatment, catalogs).value;
            && OwnTotal(lines, sources[i].id, Credit) == Cents(sources[i].total)
            && (OwnTotal(lines, sources[i].id, Debit) == OwnTotal(lines, sources[i].id, Credit)
                <==> treatment != Pending || Cents(sources[i].tax) == 0)
  {
    hide LinesOf, Plans, OwnTotal, OwnPlanTotal, Grouped, SourcePlans, PlanTotal;
    var accepted := Grouped(sources, allocations);
    forall direction
      ensures OwnTotal(Materialized(sources, accepted, decisions, treatment, catalogs).value, sources[i].id, direction)
           == PlanTotal(SourcePlans(sources[i], BySource(accepted, sources[i].id), treatment), direction) {
      OwnLineTotals(Plans(sources, accepted, treatment), decisions, catalogs, sources[i].id, direction);
      OwnTotalIsBlock(sources, accepted, treatment, i, direction);
    }
    SourceBalancesExactly(sources, allocations, treatment, i);
  }
}
