/** What a save makes of the decisions: which account and auxiliary values every line gets, told by what was
    stored and what was asked for, and which lines there are. */
module SavedLines {
  import opened Results
  import opened Text
  import opened Decisions
  import opened VoucherLines
  import opened SavedDecisions

  // ---------------------------------------------------------------- who decides a line

  /** The first line of that id with an account. */
  predicate FirstLine(lines: seq<Line>, k: nat, id: LineId) {
    && k < |lines| && lines[k].id == id && lines[k].account != ""
    && forall m :: 0 <= m < k && lines[m].id == id ==> lines[m].account == ""
  }

  predicate Asked(raw: seq<Decision>, id: LineId) { exists j :: 0 <= j < |raw| && raw[j].id == id }

  predicate InLines(lines: seq<Line>, id: LineId) { exists k :: 0 <= k < |lines| && lines[k].id == id && lines[k].account != "" }

  /** Account and auxiliary values for an id: those asked for now; else those of its template; else those of
      the stored line. */
  predicate Rules(before: Snapshot, raw: seq<Decision>, id: LineId, account: string, aux: Aux) {
    if Asked(raw, id) then exists j :: 0 <= j < |raw| && raw[j].id == id && raw[j].account == account && raw[j].aux == aux
    else if id in before.templates then before.templates[id].account == account && before.templates[id].aux == aux
    else exists k :: && 0 <= k < |before.lines| && FirstLine(before.lines, k, id)
                     && before.lines[k].account == account && before.lines[k].aux == aux
  }

  predicate Unruled(before: Snapshot, raw: seq<Decision>, id: LineId) {
    !Asked(raw, id) && id !in before.templates && !InLines(before.lines, id)
  }

  lemma {:induction false} StoredExactly(lines: seq<Line>, templates: Templates, id: LineId)
    requires id != BLANK
    ensures var stored := StoredDecisions(lines, templates);
            && (id in templates ==> id in stored && stored[id] == templates[id])
            && (id !in templates ==>
                  if InLines(lines, id)
                  then id in stored && exists k :: 0 <= k < |lines| && FirstLine(lines, k, id) && stored[id] == DecisionOf(lines[k])
                  else id !in stored)
  {
    if lines != [] {
      var n := |lines| - 1;
      var front, line := lines[..n], lines[n];
      StoredExactly(front, templates, id);
      InFront(lines, id);
      if id !in templates {
        if InLines(front, id) {
          var k :| 0 <= k < n && FirstLine(front, k, id) && StoredDecisions(front, templates)[id] == DecisionOf(front[k]);
          FirstInFront(lines, k, id);
        } else if line.id == id && line.account != "" {
          FirstIsLast(lines, id);
        }
      }
    }
  }

  lemma InFront(lines: seq<Line>, id: LineId)
    requires lines != []
    ensures var n := |lines| - 1;
            InLines(lines, id) <==> InLines(lines[..n], id) || (lines[n].id == id && lines[n].account != "")
  {
    var n := |lines| - 1;
    assert lines == lines[..n] + [lines[n]];
  }

  lemma FirstInFront(lines: seq<Line>, k: nat, id: LineId)
    requires k + 1 < |lines| && FirstLine(lines[..|lines| - 1], k, id)
    ensures FirstLine(lines, k, id) && lines[k] == lines[..|lines| - 1][k]
  {
    var front := lines[..|lines| - 1];
    forall m | 0 <= m < k && lines[m].id == id ensures lines[m].account == "" { assert lines[m] == front[m]; }
  }

  lemma FirstIsLast(lines: seq<Line>, id: LineId)
    requires lines != [] && !InLines(lines[..|lines| - 1], id)
    requires lines[|lines| - 1].id == id && lines[|lines| - 1].account != ""
    ensures FirstLine(lines, |lines| - 1, id)
  {
    var front := lines[..|lines| - 1];
    forall m | 0 <= m < |front| && lines[m].id == id ensures lines[m].account == "" { assert lines[m] == front[m]; }
  }

  lemma {:induction false} OverriddenExactly(lines: seq<Line>, templates: Templates, raw: seq<Decision>, i: nat, decisions: Templates, id: LineId)
    requires i <= |raw| && Overridden(lines, templates, raw, i, decisions).Ok?
    ensures var result := Overridden(lines, templates, raw, i, decisions).value;
            if Asked(raw[i..], id)
            then id in result && exists j :: i <= j < |raw| && raw[j].id == id && result[id].account == raw[j].account && result[id].aux == raw[j].aux
            else (id in result <==> id in decisions) && (id in result ==> result[id] == decisions[id])
    decreases |raw| - i
  {
    if i < |raw| {
      var next := WithDecision(decisions, raw[i]);
      OverriddenExactly(lines, templates, raw, i + 1, next, id);
      AskedFrom(raw, i, id);
      NotAskedAgain(raw, i);
    }
  }

  lemma NotAskedAgain(raw: seq<Decision>, i: nat)
    requires i < |raw| && !Repeated(raw, i)
    ensures !Asked(raw[i + 1..], raw[i].id)
  {
    var rest := raw[i + 1..];
    forall j | 0 <= j < |rest| ensures rest[j].id != raw[i].id { assert rest[j] == raw[i + 1 + j]; }
  }

  lemma AskedFrom(raw: seq<Decision>, i: nat, id: LineId)
    requires i < |raw|
    ensures Asked(raw[i..], id) <==> raw[i].id == id || Asked(raw[i + 1..], id)
  {
    var all, rest := raw[i..], raw[i + 1..];
    assert all == [raw[i]] + rest;
    assert all[0] == raw[i];
    if Asked(rest, id) {
      var j :| 0 <= j < |rest| && rest[j].id == id;
      assert all[j + 1].id == id;
    }
  }

  /** The merged decisions rule as they should. */
  lemma MergedRules(before: Snapshot, raw: seq<Decision>, id: LineId)
    requires id != BLANK && Merged(before.lines, before.templates, raw).Ok?
    ensures var decisions := Merged(before.lines, before.templates, raw).value;
            if id in decisions then Rules(before, raw, id, decisions[id].account, decisions[id].aux) else Unruled(before, raw, id)
  {
    hide StoredDecisions, Overridden;
    var stored := StoredDecisions(before.lines, before.templates);
    StoredExactly(before.lines, before.templates, id);
    OverriddenExactly(before.lines, before.templates, raw, 0, stored, id);
    assert raw[0..] == raw;
  }

  /** Nothing else rules. */
  lemma RulesAreMerged(before: Snapshot, raw: seq<Decision>, id: LineId, account: string, aux: Aux)
    requires id != BLANK && Merged(before.lines, before.templates, raw).Ok? && Rules(before, raw, id, account, aux)
    ensures var decisions := Merged(before.lines, before.templates, raw).value;
            id in decisions && decisions[id].account == account && decisions[id].aux == aux
  {
    hide StoredDecisions, Overridden;
    var stored := StoredDecisions(before.lines, before.templates);
    StoredExactly(before.lines, before.templates, id);
    OverriddenExactly(before.lines, before.templates, raw, 0, stored, id);
    OverriddenSucceeds(before.lines, before.templates, raw, 0, stored);
    assert raw[0..] == raw;
  }

  /** Decisions are merged, exactly, if each is about a line or template there is, and no two about the same. */
  lemma {:induction false} OverriddenSucceeds(lines: seq<Line>, templates: Templates, raw: seq<Decision>, i: nat, decisions: Templates)
    requires i <= |raw|
    ensures Overridden(lines, templates, raw, i, decisions).Ok?
       <==> forall j :: i <= j < |raw| ==> Known(lines, templates, raw[j].id) && !Repeated(raw, j)
    decreases |raw| - i
  {
    if i < |raw| { OverriddenSucceeds(lines, templates, raw, i + 1, WithDecision(decisions, raw[i])); }
  }

  // ---------------------------------------------------------------- the line that is decided

  /** The auxiliary values of a line: those decided, with the allocation's project under its dimension exactly
      where the account asks for that dimension. */
  predicate AuxOf(aux: Aux, decided: Aux, allocation: Option<Allocation>, account: Account, catalogs: Catalogs) {
    if allocation == None || Strip(allocation.value.projectId) == "" then aux == decided
    else
      var projectId := allocation.value.projectId;
      && projectId in catalogs.auxValues && catalogs.auxValues[projectId].enabled
      && var dimension := catalogs.auxValues[projectId].dimension;
         if dimension in account.requiredAux
         then dimension in aux && aux[dimension] == projectId && aux - {dimension} == decided - {dimension}
         else aux == decided
  }

  /** Every auxiliary value is known, enabled and of its dimension. */
  predicate AuxKnown(aux: Aux, catalogs: Catalogs) {
    forall dimension :: dimension in aux ==>
      aux[dimension] in catalogs.auxValues && catalogs.auxValues[aux[dimension]] == AuxValue(aux[dimension], dimension, true)
  }

  /** The account is there, open and a leaf, and rules this line with these auxiliary values. */
  predicate DecidedBy(line: Line, plan: Plan, decided: Aux, catalogs: Catalogs) {
    && Strip(line.account) != "" && line.account in catalogs.accounts
    && var account := catalogs.accounts[line.account];
       && account.enabled && account.isLeaf && line.accountName == account.name
       && AuxOf(line.aux, decided, plan.allocation, account, catalogs) && AuxKnown(line.aux, catalogs)
  }

  /** An account and auxiliary values that the line can take. */
  ghost predicate Decidable(plan: Plan, account: string, decided: Aux, catalogs: Catalogs) {
    && Strip(account) != "" && account in catalogs.accounts && catalogs.accounts[account].enabled && catalogs.accounts[account].isLeaf
    && exists aux :: AuxOf(aux, decided, plan.allocation, catalogs.accounts[account], catalogs) && AuxKnown(aux, catalogs)
  }

  /** A line is decided, exactly, if its own decision, or else that of its template, is one that it can take. */
  lemma DecidedIfDecidable(plan: Plan, decisions: Templates, catalogs: Catalogs)
    requires WellIndexed(catalogs)
    ensures var key := if IdOf(plan) in decisions then IdOf(plan) else TemplateOf(plan);
            DecidedLine(plan, decisions, catalogs).Ok?
            <==> key in decisions && Decidable(plan, decisions[key].account, decisions[key].aux, catalogs)
  {
    hide Strip, AuxOf, AuxKnown;
    var key := if IdOf(plan) in decisions then IdOf(plan) else TemplateOf(plan);
    if key in decisions && decisions[key].account in catalogs.accounts {
      AuxExactly(plan, decisions[key].aux, catalogs.accounts[decisions[key].account], catalogs);
    }
  }

  lemma AuxExactly(plan: Plan, decided: Aux, account: Account, catalogs: Catalogs)
    requires WellIndexed(catalogs)
    ensures LineAux(plan, decided, account, catalogs).Err? ==> forall aux :: !AuxOf(aux, decided, plan.allocation, account, catalogs)
    ensures LineAux(plan, decided, account, catalogs).Ok? ==>
              forall aux :: AuxOf(aux, decided, plan.allocation, account, catalogs) <==> aux == LineAux(plan, decided, account, catalogs).value
    ensures forall aux :: AuxValid(aux, catalogs) <==> AuxKnown(aux, catalogs)
  {
    hide Strip;
    if plan.allocation.Some? && Strip(plan.allocation.value.projectId) != "" && LineAux(plan, decided, account, catalogs).Ok? {
      var projectId := plan.allocation.value.projectId;
      var dimension := catalogs.auxValues[projectId].dimension;
      if dimension in account.requiredAux {
        assert decided[dimension := projectId] - {dimension} == decided - {dimension};
        forall aux: Aux | dimension in aux && aux[dimension] == projectId && aux - {dimension} == decided - {dimension}
          ensures aux == decided[dimension := projectId] {
          assert aux == (aux - {dimension})[dimension := projectId];
          assert decided[dimension := projectId] == (decided - {dimension})[dimension := projectId];
        }
      }
    }
  }

  lemma DecidedLineExactly(plan: Plan, decisions: Templates, catalogs: Catalogs)
    requires WellIndexed(catalogs) && DecidedLine(plan, decisions, catalogs).Ok?
    ensures var line := DecidedLine(plan, decisions, catalogs).value;
            && Follows(line, plan)
            && var key := if IdOf(plan) in decisions then IdOf(plan) else TemplateOf(plan);
               key in decisions && line.account == decisions[key].account && DecidedBy(line, plan, decisions[key].aux, catalogs)
  {
    hide Strip;
    var line := DecidedLine(plan, decisions, catalogs).value;
    var key := if IdOf(plan) in decisions then IdOf(plan) else TemplateOf(plan);
    if plan.allocation.Some? && Strip(plan.allocation.value.projectId) != "" {
      var dimension := catalogs.auxValues[plan.allocation.value.projectId].dimension;
      assert line.aux - {dimension} == decisions[key].aux - {dimension};
    }
  }

  /** The id of a line and that of its template decide it, in this order. */
  predicate LineRuled(before: Snapshot, raw: seq<Decision>, plan: Plan, account: string, decided: Aux) {
    || Rules(before, raw, IdOf(plan), account, decided)
    || (Unruled(before, raw, IdOf(plan)) && Rules(before, raw, TemplateOf(plan), account, decided))
  }

  ghost predicate LineSaved(before: Snapshot, raw: seq<Decision>, plan: Plan, line: Line, catalogs: Catalogs) {
    && Follows(line, plan)
    && exists decided :: LineRuled(before, raw, plan, line.account, decided) && DecidedBy(line, plan, decided, catalogs)
  }

  /** Every line of a saved proposal has the account that rules it, with the auxiliary values that go with it. */
  lemma LinesAreRuled(
    before: Snapshot, allocations: seq<Allocation>, raw: seq<Decision>, treatment: Treatment, catalogs: Catalogs, i: nat)
    requires WellIndexed(catalogs) && Save(before, allocations, raw, treatment, catalogs).Ok?
    requires i < |Save(before, allocations, raw, treatment, catalogs).value.lines|
    ensures var after := Save(before, allocations, raw, treatment, catalogs).value;
            var plans := Plans(before.sources, after.allocations, treatment);
            |plans| == |after.lines| && LineSaved(before, raw, plans[i], after.lines[i], catalogs)
  {
    hide Save, Plans, LinesOf, Merged, Acceptable, DecidedLine, Retained, SideTotal, DecidedBy, Rules, Unruled, WellIndexed;
    var after := Save(before, allocations, raw, treatment, catalogs).value;
    SaveParts(before, allocations, raw, treatment, catalogs);
    var decisions, plan := Merged(before.lines, before.templates, raw).value, Plans(before.sources, after.allocations, treatment)[i];
    DecidedLineExactly(plan, decisions, catalogs);
    MergedRules(before, raw, IdOf(plan));
    MergedRules(before, raw, TemplateOf(plan));
    var key := if IdOf(plan) in decisions then IdOf(plan) else TemplateOf(plan);
    assert LineRuled(before, raw, plan, after.lines[i].account, decisions[key].aux);
  }

  ghost predicate CanDecide(before: Snapshot, raw: seq<Decision>, plan: Plan, catalogs: Catalogs) {
    exists account, decided :: LineRuled(before, raw, plan, account, decided) && Decidable(plan, account, decided, catalogs)
  }

  /** The id is one of a line or a template, and no blank. */
  predicate IsThere(before: Snapshot, id: LineId) {
    id != OtherId("") && (id in before.templates || exists k :: 0 <= k < |before.lines| && before.lines[k].id == id)
  }

  lemma KnownIsThere(before: Snapshot, id: LineId)
    ensures Known(before.lines, before.templates, id) <==> IsThere(before, id)
  {
  }

  lemma NoneRepeated(raw: seq<Decision>)
    ensures (forall j :: 0 <= j < |raw| ==> !Repeated(raw, j)) <==> forall j, k :: 0 <= j < k < |raw| ==> raw[j].id != raw[k].id
  {
    if j, k :| 0 <= j < k < |raw| && raw[j].id == raw[k].id { assert Repeated(raw, j); }
  }

  ghost predicate AllDecided(before: Snapshot, raw: seq<Decision>, plans: seq<Plan>, catalogs: Catalogs) {
    forall i :: 0 <= i < |plans| ==> CanDecide(before, raw, plans[i], catalogs)
  }

  lemma AllDecidedExactly(before: Snapshot, raw: seq<Decision>, plans: seq<Plan>, catalogs: Catalogs)
    requires WellIndexed(catalogs) && Merged(before.lines, before.templates, raw).Ok?
    ensures LinesOf(plans, Merged(before.lines, before.templates, raw).value, catalogs).Ok? <==> AllDecided(before, raw, plans, catalogs)
  {
    hide LinesOf, DecidedLine, CanDecide, WellIndexed;
    LinesFollowPlans(plans, Merged(before.lines, before.templates, raw).value, catalogs);
    forall i | 0 <= i < |plans|
      ensures DecidedLine(plans[i], Merged(before.lines, before.templates, raw).value, catalogs).Ok? <==> CanDecide(before, raw, plans[i], catalogs) {
      CanDecideExactly(before, raw, plans[i], catalogs);
    }
  }

  /** A save succeeds, exactly, if there are sources, the allocations are acceptable, each decision is about a line
      or template there is and no two about the same, and every line has an account and values it can take. */
  lemma SaveExactly(before: Snapshot, allocations: seq<Allocation>, raw: seq<Decision>, treatment: Treatment, catalogs: Catalogs)
    requires WellIndexed(catalogs)
    ensures Save(before, allocations, raw, treatment, catalogs).Ok?
       <==> && before.sources != [] && Acceptable(before.sources, allocations)
            && (forall j :: 0 <= j < |raw| ==> IsThere(before, raw[j].id)) && (forall j, k :: 0 <= j < k < |raw| ==> raw[j].id != raw[k].id)
            && AllDecided(before, raw, Plans(before.sources, Grouped(before.sources, allocations), treatment), catalogs)
  {
    hide Plans, LinesOf, Acceptable, Retained, SideTotal, AllDecided, Known, Grouped, Overridden, ValidatedAllocations, WellIndexed;
    AcceptedExactly(before.sources, allocations);
    OverriddenSucceeds(before.lines, before.templates, raw, 0, StoredDecisions(before.lines, before.templates));
    NoneRepeated(raw);
    forall id ensures Known(before.lines, before.templates, id) <==> IsThere(before, id) { KnownIsThere(before, id); }
    hide IsThere, Repeated;
    if Merged(before.lines, before.templates, raw).Ok? {
      AllDecidedExactly(before, raw, Plans(before.sources, Grouped(before.sources, allocations), treatment), catalogs);
    }
  }

  lemma CanDecideExactly(before: Snapshot, raw: seq<Decision>, plan: Plan, catalogs: Catalogs)
    requires WellIndexed(catalogs) && Merged(before.lines, before.templates, raw).Ok?
    ensures DecidedLine(plan, Merged(before.lines, before.templates, raw).value, catalogs).Ok? <==> CanDecide(before, raw, plan, catalogs)
  {
    hide Merged, DecidedLine, Decidable, Rules, Unruled, WellIndexed;
    var decisions := Merged(before.lines, before.templates, raw).value;
    var id, template := IdOf(plan), TemplateOf(plan);
    var key := if id in decisions then id else template;
    DecidedIfDecidable(plan, decisions, catalogs);
    MergedRules(before, raw, id);
    MergedRules(before, raw, template);
    if key in decisions { assert LineRuled(before, raw, plan, decisions[key].account, decisions[key].aux); }
    forall account, decided | LineRuled(before, raw, plan, account, decided)
      ensures key in decisions && decisions[key].account == account && decisions[key].aux == decided {
      if Rules(before, raw, id, account, decided) {
        RulesAreMerged(before, raw, id, account, decided);
      } else {
        RulesAreMerged(before, raw, template, account, decided);
        UnruledIsNotMerged(before, raw, id);
      }
    }
  }

  lemma UnruledIsNotMerged(before: Snapshot, raw: seq<Decision>, id: LineId)
    requires id != BLANK && Merged(before.lines, before.templates, raw).Ok? && Unruled(before, raw, id)
    ensures id !in Merged(before.lines, before.templates, raw).value
  {
    hide StoredDecisions, Overridden;
    StoredExactly(before.lines, before.templates, id);
    OverriddenExactly(before.lines, before.templates, raw, 0, StoredDecisions(before.lines, before.templates), id);
    assert raw[0..] == raw;
  }

  /** A decision that was asked for takes effect: the line has that account, and those auxiliary values with
      the allocation's project filled in. */
  lemma OverrideTakesEffect(
    before: Snapshot, allocations: seq<Allocation>, raw: seq<Decision>, treatment: Treatment, catalogs: Catalogs, i: nat, j: nat)
    requires WellIndexed(catalogs) && Save(before, allocations, raw, treatment, catalogs).Ok?
    requires i < |Save(before, allocations, raw, treatment, catalogs).value.lines| && j < |raw|
    requires Save(before, allocations, raw, treatment, catalogs).value.lines[i].id == raw[j].id
    ensures var after := Save(before, allocations, raw, treatment, catalogs).value;
            && i < |Plans(before.sources, after.allocations, treatment)|
            && after.lines[i].account == raw[j].account
            && DecidedBy(after.lines[i], Plans(before.sources, after.allocations, treatment)[i], raw[j].aux, catalogs)
  {
    hide Save, Plans, DecidedBy, WellIndexed, Unruled;
    LinesAreRuled(before, allocations, raw, treatment, catalogs, i);
    OneOfEach(before, allocations, raw, treatment, catalogs, j);
    var after := Save(before, allocations, raw, treatment, catalogs).value;
    var plan := Plans(before.sources, after.allocations, treatment)[i];
    AskedIsRuled(before, raw, IdOf(plan), j);
  }

  lemma AskedIsRuled(before: Snapshot, raw: seq<Decision>, id: LineId, j: nat)
    requires j < |raw| && raw[j].id == id
    ensures Asked(raw, id) && !Unruled(before, raw, id)
  {
  }

  lemma OneOfEach(before: Snapshot, allocations: seq<Allocation>, raw: seq<Decision>, treatment: Treatment, catalogs: Catalogs, j: nat)
    requires Save(before, allocations, raw, treatment, catalogs).Ok? && j < |raw|
    ensures forall k :: 0 <= k < |raw| && raw[k].id == raw[j].id ==> k == j
    ensures Known(before.lines, before.templates, raw[j].id)
  {
    hide Materialized, ValidatedAllocations, Overridden, StoredDecisions, Retained, SideTotal, Known;
    OverriddenSucceeds(before.lines, before.templates, raw, 0, StoredDecisions(before.lines, before.templates));
  }

  /** A line that nothing was asked for, itself or by its template, keeps its stored account; likewise its
      auxiliary values, with the allocation's project filled in. */
  lemma OthersKeepTheirAccount(
    before: Snapshot, allocations: seq<Allocation>, raw: seq<Decision>, treatment: Treatment, catalogs: Catalogs, i: nat)
    requires WellIndexed(catalogs) && Save(before, allocations, raw, treatment, catalogs).Ok?
    requires i < |Save(before, allocations, raw, treatment, catalogs).value.lines|
    requires var line := Save(before, allocations, raw, treatment, catalogs).value.lines[i];
             line.id in before.templates && !Asked(raw, line.id)
    ensures var after := Save(before, allocations, raw, treatment, catalogs).value;
            && i < |Plans(before.sources, after.allocations, treatment)|
            && after.lines[i].account == before.templates[after.lines[i].id].account
            && DecidedBy(after.lines[i], Plans(before.sources, after.allocations, treatment)[i],
                         before.templates[after.lines[i].id].aux, catalogs)
  {
    hide Save, Plans, DecidedBy, WellIndexed;
    LinesAreRuled(before, allocations, raw, treatment, catalogs, i);
  }

  // ---------------------------------------------------------------- which lines there are

  /** The summary of a line names what there is to name, in this order, with single spaces between. */
  predicate Names(summary: string, parts: seq<string>)
    decreases |parts|
  {
    if parts == [] then summary == ""
    else if parts[0] == "" then Names(summary, parts[1..])
    else
      && |summary| >= |parts[0]| && summary[..|parts[0]|] == parts[0]
      && (if |summary| == |parts[0]| then forall k :: 1 <= k < |parts| ==> parts[k] == ""
          else summary[|parts[0]|] == ' ' && summary[|parts[0]| + 1..] != "" && Names(summary[|parts[0]| + 1..], parts[1..]))
  }

  lemma {:induction false} JoinedNames(parts: seq<string>)
    ensures Names(Joined(parts), parts)
    ensures Joined(parts) == "" <==> forall k :: 0 <= k < |parts| ==> parts[k] == ""
  {
    if parts != [] {
      var rest := parts[1..];
      JoinedNames(rest);
      assert forall k :: 1 <= k < |parts| ==> parts[k] == rest[k - 1];
      if parts[0] != "" && Joined(rest) != "" {
        var all := parts[0] + " " + Joined(rest);
        assert all[|parts[0]| + 1..] == Joined(rest);
      }
    }
  }

  /** A debit line for an allocation: its amount without tax, or with it where the tax is not deductible. */
  predicate CostLine(line: Line, source: Source, a: Allocation, treatment: Treatment) {
    && line.role == Cost && line.direction == Debit && line.id == AllocationId(source.id, a.id, Cost)
    && line.sourceIds == [source.id] && line.allocationIds == [a.id]
    && Some(line.amount) == (if treatment == NonDeductible then a.total else a.pretax)
    && Names(line.summary, ["采购", source.seller, source.itemName, a.projectName, source.invoiceNo])
  }

  /** A line for the source itself: its deductible tax on the debit side, or its total on the credit side. */
  predicate SourceLine(line: Line, source: Source, role: Role, direction: Direction, amount: Option<int>) {
    && line.role == role && line.direction == direction && line.id == TemplateId(source.id, role)
    && line.sourceIds == [source.id] && line.allocationIds == [] && Some(line.amount) == amount
    && Names(line.summary, ["采购", source.seller, source.itemName, source.invoiceNo])
  }

  /** The lines of one source: one for each of its allocations in their order, one for the tax if it is
      deductible and not zero, one payable. */
  predicate LinesOfSource(lines: seq<Line>, source: Source, own: seq<Allocation>, treatment: Treatment) {
    var taxed := treatment == Deductible && source.tax != Some(0);
    && |lines| == |own| + (if taxed then 2 else 1)
    && (forall j :: 0 <= j < |own| ==> CostLine(lines[j], source, own[j], treatment))
    && (taxed ==> SourceLine(lines[|own|], source, InputTax, Debit, source.tax))
    && SourceLine(lines[|lines| - 1], source, Payable, Credit, source.total)
  }

  /** The lines of a voucher, source by source. */
  predicate AllLines(lines: seq<Line>, sources: seq<Source>, accepted: seq<Allocation>, treatment: Treatment)
    decreases |sources|
  {
    if sources == [] then lines == []
    else
      var n := |sources| - 1;
      exists k :: 0 <= k <= |lines| && AllLines(lines[..k], sources[..n], accepted, treatment)
                  && LinesOfSource(lines[k..], sources[n], BySource(accepted, sources[n].id), treatment)
  }

  /** A line as its plan has it. */
  predicate Follows(line: Line, plan: Plan) {
    && line.id == IdOf(plan) && line.role == plan.role && line.direction == plan.direction && line.amount == plan.amount
    && line.summary == plan.summary && line.sourceIds == [plan.source.id]
    && line.allocationIds == (if plan.allocation.Some? then [plan.allocation.value.id] else [])
  }

  predicate FollowAll(lines: seq<Line>, plans: seq<Plan>) {
    |lines| == |plans| && forall i :: 0 <= i < |plans| ==> Follows(lines[i], plans[i])
  }

  lemma BlockLines(lines: seq<Line>, source: Source, own: seq<Allocation>, treatment: Treatment)
    requires FollowAll(lines, SourcePlans(source, own, treatment))
    requires source.tax.Some? && source.total.Some? && forall j :: 0 <= j < |own| ==> own[j].pretax.Some? && own[j].total.Some?
    ensures LinesOfSource(lines, source, own, treatment)
  {
    hide Joined, Names;
    var plans := SourcePlans(source, own, treatment);
    JoinedNames(["采购", source.seller, source.itemName, source.invoiceNo]);
    forall j | 0 <= j < |own| ensures CostLine(lines[j], source, own[j], treatment) {
      assert plans[j] == CostPlan(source, own[j], treatment) && Follows(lines[j], plans[j]);
      JoinedNames(["采购", source.seller, source.itemName, own[j].projectName, source.invoiceNo]);
    }
    assert Follows(lines[|lines| - 1], plans[|plans| - 1]) && plans[|plans| - 1] == PayablePlan(source);
    if treatment == Deductible && source.tax != Some(0) { assert Follows(lines[|own|], plans[|own|]); }
  }

  lemma {:induction false} PlannedLines(lines: seq<Line>, sources: seq<Source>, accepted: seq<Allocation>, treatment: Treatment)
    requires FollowAll(lines, Plans(sources, accepted, treatment))
    requires forall i :: 0 <= i < |sources| ==> sources[i].tax.Some? && sources[i].total.Some?
    requires forall j :: 0 <= j < |accepted| ==> accepted[j].pretax.Some? && accepted[j].total.Some?
    ensures AllLines(lines, sources, accepted, treatment)
    decreases |sources|
  {
    hide Follows, LinesOfSource, SourcePlans, BySource;
    if sources != [] {
      var n := |sources| - 1;
      var before, own := Plans(sources[..n], accepted, treatment), BySource(accepted, sources[n].id);
      var block, k := SourcePlans(sources[n], own, treatment), |before|;
      var plans := Plans(sources, accepted, treatment);
      assert plans == before + block;
      forall i | 0 <= i < k ensures Follows(lines[..k][i], before[i]) { assert Follows(lines[i], plans[i]); }
      forall i | 0 <= i < |block| ensures Follows(lines[k..][i], block[i]) { assert Follows(lines[k + i], plans[k + i]); }
      PlannedLines(lines[..k], sources[..n], accepted, treatment);
      OwnAreAmong(accepted, sources[n].id);
      BlockLines(lines[k..], sources[n], own, treatment);
    }
  }

  /** The lines of a saved proposal, exactly: which there are, in which order, on which side, with which amount,
      id, references and summary. */
  lemma SavedLinesAre(before: Snapshot, allocations: seq<Allocation>, raw: seq<Decision>, treatment: Treatment, catalogs: Catalogs)
    requires Save(before, allocations, raw, treatment, catalogs).Ok?
    ensures var after := Save(before, allocations, raw, treatment, catalogs).value;
            AllLines(after.lines, before.sources, after.allocations, treatment)
  {
    hide Save, Plans, LinesOf, Merged, DecidedLine, Retained, SideTotal, SourceCovered, Grouped, AllLines;
    var after := Save(before, allocations, raw, treatment, catalogs).value;
    SaveParts(before, allocations, raw, treatment, catalogs);
    var plans, decisions := Plans(before.sources, after.allocations, treatment), Merged(before.lines, before.templates, raw).value;
    forall i | 0 <= i < |plans| ensures Follows(after.lines[i], plans[i]) { LineFollowsPlan(plans[i], decisions, catalogs); }
    GroupedAreListed(before.sources, allocations);
    forall i | 0 <= i < |before.sources| ensures before.sources[i].tax.Some? && before.sources[i].total.Some? {
      CoveredHasAmounts(before.sources[i], BySource(allocations, before.sources[i].id));
    }
    forall j | 0 <= j < |after.allocations| ensures after.allocations[j].pretax.Some? && after.allocations[j].total.Some? {
      assert after.allocations[j] in allocations;
    }
    PlannedLines(after.lines, before.sources, after.allocations, treatment);
  }

  lemma LineFollowsPlan(plan: Plan, decisions: Templates, catalogs: Catalogs)
    requires DecidedLine(plan, decisions, catalogs).Ok?
    ensures Follows(DecidedLine(plan, decisions, catalogs).value, plan)
  {
  }

  lemma CoveredHasAmounts(source: Source, own: seq<Allocation>)
    requires SourceCovered(source, own)
    ensures source.tax.Some? && source.total.Some?
  {
  }
}
