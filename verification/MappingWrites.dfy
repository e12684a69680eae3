/** What a write or an append of the mapping file accepts and what it leaves, exactly, told by the store that is
    loaded and by the arguments. */
module MappingWrites {
  import opened Results
  import opened MappingRules
  import opened RuleResolution
  import opened MappingStore

  /** The revision is the expected one, and the binding is the store's, or its first while there are no rules. */
  predicate MayChange(current: Store, expected: Option<int>, binding: Option<Binding>) {
    && (expected == None || expected == Some(current.revision))
    && (binding == None || current.binding == binding || (current.binding == None && current.rules == []))
  }

  /** Each rule can be normalised, and no two then have the same scope. */
  predicate CanNormalize(rules: seq<Rule>) {
    && (forall i :: 0 <= i < |rules| ==> NormalizedRule(rules[i]).Some?)
    && (forall i, j :: 0 <= i < j < |rules| ==>
          NormalizedRule(rules[i]).Some? && NormalizedRule(rules[j]).Some?
          && IdOf(NormalizedRule(rules[i]).value) != IdOf(NormalizedRule(rules[j]).value))
  }

  lemma {:induction false} NormalizedAllExactly(rules: seq<Rule>)
    ensures NormalizedAll(rules).Some? <==> forall i :: 0 <= i < |rules| ==> NormalizedRule(rules[i]).Some?
  {
    hide NormalizedRule;
    if rules != [] { NormalizedAllExactly(rules[..|rules| - 1]); }
  }

  lemma CanNormalizeExactly(rules: seq<Rule>)
    ensures NormalizedAll(rules).Some? && UniqueIds(NormalizedAll(rules).value) <==> CanNormalize(rules)
  {
    hide NormalizedRule, IdOf, NormalizedAll, IsNormalized;
    NormalizedAllExactly(rules);
    if NormalizedAll(rules).Some? {
      NormalizedAllAre(rules);
      var all := NormalizedAll(rules).value;
      assert forall i :: 0 <= i < |rules| ==> NormalizedRule(rules[i]) == Some(all[i]);
    }
  }

  /** A write is accepted, exactly, if the file loads, may be changed so, and the rules can be normalised. It then
      holds just these rules, normalised and in their order, one revision on, under the same or its first binding,
      with the receipts there were. */
  lemma WriteExactly(file: File, rules: seq<Rule>, expected: Option<int>, binding: Option<Binding>, now: string)
    ensures Written(file, rules, expected, binding, now).Ok?
       <==> Load(file).Ok? && MayChange(Load(file).value, expected, binding) && CanNormalize(rules)
    ensures Written(file, rules, expected, binding, now).Ok? ==>
              var before, after := Load(file).value, Written(file, rules, expected, binding, now).value;
              && after.revision == before.revision + 1 && after.updatedAt == now && after.receipts == before.receipts
              && after.binding == (if binding == None then before.binding else binding)
              && |after.rules| == |rules| && forall i :: 0 <= i < |rules| ==> NormalizedRule(rules[i]) == Some(after.rules[i])
  {
    hide NormalizedRule, IdOf, NormalizedAll, IsNormalized, UniqueIds, VersionOf, Load, CanNormalize;
    CanNormalizeExactly(rules);
    if NormalizedAll(rules).Some? { NormalizedAllAre(rules); }
  }

  /** A stale revision or a foreign binding is refused whatever the rules, and the store is what it was. */
  lemma StaleOrForeignIsRefused(file: File, rules: seq<Rule>, call: Call)
    requires Load(file).Ok? && !MayChange(Load(file).value, call.expected, call.binding)
    ensures Written(file, rules, call.expected, call.binding, call.now).Err?
    ensures Appending(file, call).Err? && AfterCall(file, call) == file
  {
    hide Load, NormalizedRule, IdOf, UniqueIds, NormalizedAll;
  }

  // ---------------------------------------------------------------- appends

  /** The rule says what a stored rule of its scope already says, and does not name another to stand in for. */
  predicate Already(rules: seq<Rule>, stored: Rule, replacing: Option<RuleId>) {
    && (exists r :: r in rules && IdOf(r) == IdOf(stored) && Semantic(r) == Semantic(stored))
    && (replacing == None || replacing == Some(IdOf(stored)))
  }

  /** A rule of the same scope gives way to a manual rule that names it, or, made by the assistant, to another made
      by the assistant; a named rule gives way to a manual rule if the scope is free or its own. */
  predicate MayTakePlace(rules: seq<Rule>, stored: Rule, replacing: Option<RuleId>) {
    && (forall r :: r in rules && IdOf(r) == IdOf(stored) ==>
          if stored.origin == Manual then replacing == Some(IdOf(stored)) else r.origin == AiConfirmed)
    && (replacing.Some? && HasId(rules, IdOf(stored)) ==> replacing == Some(IdOf(stored)))
  }

  /** Whether the append is accepted, over the store that is loaded. */
  predicate CanAppend(current: Store, call: Call) {
    && MayChange(current, call.expected, call.binding)
    && NormalizedRule(call.rule).Some?
    && var stored := NormalizedRule(call.rule).value;
       && (call.replacing.Some? ==> HasId(current.rules, call.replacing.value) && stored.origin == Manual)
       && (Already(current.rules, stored, call.replacing) || MayTakePlace(current.rules, stored, call.replacing))
  }

  lemma OneOfScope(rules: seq<Rule>, id: RuleId)
    requires UniqueIds(rules)
    ensures forall r :: r in rules && IdOf(r) == id ==> WithId(rules, id) == Some(r)
    ensures WithId(rules, id).Some? ==> WithId(rules, id).value in rules && IdOf(WithId(rules, id).value) == id
    ensures HasId(rules, id) <==> WithId(rules, id).Some?
  {
    hide IdOf;
    forall r | r in rules && IdOf(r) == id ensures WithId(rules, id) == Some(r) { OneWithId(rules, r); }
  }

  lemma AlreadyExactly(rules: seq<Rule>, stored: Rule, replacing: Option<RuleId>)
    requires UniqueIds(rules)
    ensures var existing := WithId(rules, IdOf(stored));
            var replacement := if replacing.Some? then WithId(rules, replacing.value) else None;
            (replacing == None || replacement.Some?) ==>
              (Already(rules, stored, replacing)
               <==> && existing.Some? && Semantic(existing.value) == Semantic(stored)
                    && (replacement == None || IdOf(replacement.value) == IdOf(existing.value)))
  {
    hide IdOf, Semantic, UniqueIds;
    OneOfScope(rules, IdOf(stored));
    if replacing.Some? { OneOfScope(rules, replacing.value); }
  }

  lemma MayTakePlaceExactly(rules: seq<Rule>, stored: Rule, replacing: Option<RuleId>)
    requires UniqueIds(rules) && (replacing.Some? ==> HasId(rules, replacing.value) && stored.origin == Manual)
    ensures var existing := WithId(rules, IdOf(stored));
            var replacement := if replacing.Some? then WithId(rules, replacing.value) else None;
            AppendError(stored, existing, replacing, replacement) == None <==> MayTakePlace(rules, stored, replacing)
  {
    hide IdOf, UniqueIds;
    OneOfScope(rules, IdOf(stored));
    if replacing.Some? { OneOfScope(rules, replacing.value); }
  }

  /** The rules with one more can be written: they are normal, and their scopes stay apart. */
  lemma PlaceIsFree(file: File, stored: Rule, ids: set<RuleId>)
    requires Load(file).Ok? && IsNormalized(stored) && (forall r :: r in Load(file).value.rules && IdOf(r) == IdOf(stored) ==> IdOf(r) in ids)
    ensures var rules := Without(Load(file).value.rules, ids) + [stored]; NormalizedAll(rules) == Some(rules) && UniqueIds(rules)
  {
    hide IdOf, UniqueIds, IsNormalized, Load, NormalizedAll;
    LoadIsSound(file);
    var current := Load(file).value.rules;
    WithoutAre(current, ids);
    AlreadyNormal(Without(current, ids) + [stored]);
    StaysUnique(Without(current, ids), stored);
  }

  lemma StaysUnique(rules: seq<Rule>, r: Rule)
    requires UniqueIds(rules) && forall other :: other in rules ==> IdOf(other) != IdOf(r)
    ensures UniqueIds(rules + [r])
  {
    hide IdOf;
  }

  lemma AppendWrites(file: File, call: Call)
    requires Load(file).Ok? && CanAppend(Load(file).value, call)
    requires !Already(Load(file).value.rules, NormalizedRule(call.rule).value, call.replacing)
    ensures var current, stored := Load(file).value, NormalizedRule(call.rule).value;
            var existing := WithId(current.rules, IdOf(stored));
            var replacement := if call.replacing.Some? then WithId(current.rules, call.replacing.value) else None;
            Written(file, Without(current.rules, Ids(existing, replacement)) + [stored], Some(current.revision),
                    Resolved(current.binding, call.binding), call.now).Ok?
  {
    hide IdOf, UniqueIds, IsNormalized, Load, NormalizedAll, NormalizedRule, Already, MayTakePlace, HasId, VersionOf;
    LoadIsSound(file);
    var current, stored := Load(file).value, NormalizedRule(call.rule).value;
    OneOfScope(current.rules, IdOf(stored));
    NormalizedIsStable(call.rule);
    var existing := WithId(current.rules, IdOf(stored));
    var replacement := if call.replacing.Some? then WithId(current.rules, call.replacing.value) else None;
    PlaceIsFree(file, stored, Ids(existing, replacement));
  }

  /** An append is accepted, exactly, if the file loads and the rule may take its place. */
  lemma AppendExactly(file: File, call: Call)
    ensures Appending(file, call).Ok? <==> Load(file).Ok? && CanAppend(Load(file).value, call)
  {
    hide IdOf, UniqueIds, IsNormalized, Load, NormalizedRule, Written, Already, MayTakePlace, AppendError, Semantic, HasId, WithId, Without, Resolved;
    LoadIsSound(file);
    if Load(file).Ok? && NormalizedRule(call.rule).Some? {
      var current, stored := Load(file).value, NormalizedRule(call.rule).value;
      AlreadyExactly(current.rules, stored, call.replacing);
      if call.replacing.Some? { OneOfScope(current.rules, call.replacing.value); }
      if call.replacing.Some? ==> HasId(current.rules, call.replacing.value) && stored.origin == Manual {
        MayTakePlaceExactly(current.rules, stored, call.replacing);
      }
      if CanAppend(current, call) && !Already(current.rules, stored, call.replacing) { AppendWrites(file, call); }
    }
  }

  /** What an accepted append leaves: the file as it is if the rule was there already; otherwise the rules but those
      of its scope and the named one, and the normalised rule at the end. */
  lemma AppendLeaves(file: File, call: Call)
    requires Appending(file, call).Ok?
    ensures Load(file).Ok? && NormalizedRule(call.rule).Some?
    ensures var before, stored := Load(file).value, NormalizedRule(call.rule).value;
            if Already(before.rules, stored, call.replacing) then AfterCall(file, call) == file
            else
              && Load(AfterCall(file, call)).Ok?
              && var after := Load(AfterCall(file, call)).value;
                 && after.revision == before.revision + 1 && after.updatedAt == call.now && after.receipts == before.receipts
                 && after.binding == (if before.binding.Some? then before.binding else call.binding)
                 && after.rules != [] && after.rules[|after.rules| - 1] == stored
                 && forall r :: r in after.rules[..|after.rules| - 1] <==>
                      r in before.rules && IdOf(r) != IdOf(stored) && call.replacing != Some(IdOf(r))
  {
    hide IdOf, UniqueIds, IsNormalized, Load, NormalizedRule, Already, MayTakePlace, AppendError, Semantic, NormalizedAll, VersionOf;
    AppendExactly(file, call);
    LoadIsSound(file);
    var before, stored := Load(file).value, NormalizedRule(call.rule).value;
    AlreadyExactly(before.rules, stored, call.replacing);
    OneOfScope(before.rules, IdOf(stored));
    if call.replacing.Some? { OneOfScope(before.rules, call.replacing.value); }
    if !Already(before.rules, stored, call.replacing) {
      var existing := WithId(before.rules, IdOf(stored));
      var replacement := if call.replacing.Some? then WithId(before.rules, call.replacing.value) else None;
      var ids := Ids(existing, replacement);
      WithoutAre(before.rules, ids);
      NormalizedIsStable(call.rule);
      PlaceIsFree(file, stored, ids);
      WrittenIsSound(file, Without(before.rules, ids) + [stored], Some(before.revision), Resolved(before.binding, call.binding), call.now);
    }
  }

  // ---------------------------------------------------------------- loading

  /** A file loads, exactly, if there is none, or if it is of the second generation, with a revision, rules that can
      be normalised, and the version digest of just these; it loads as what it says, its rules normalised. A
      well-formed first-generation file asks for migration, and anything else is corrupt. */
  lemma LoadExactly(file: File)
    ensures file.Absent? ==> Load(file) == Ok(Store(0, "", VersionOf([], None), [], None, map[]))
    ensures file.V1? ==> Load(file) == Err(if WellFormed(file.legacy) then MigrationRequired else Corrupt)
    ensures file.Unreadable? ==> Load(file) == Err(Corrupt)
    ensures file.V2? ==>
              (Load(file).Ok? <==> && file.store.revision >= 0 && CanNormalize(file.store.rules)
                                   && file.store.rulesVersion == VersionOf(NormalForms(file.store.rules), file.store.binding))
    ensures file.V2? && Load(file).Ok? ==> Load(file).value == file.store.(rules := NormalForms(file.store.rules))
    ensures file.V2? && Load(file).Err? ==> Load(file) == Err(Corrupt)
  {
    hide NormalizedRule, IdOf, IsNormalized, UniqueIds, VersionOf, WellFormed, CanNormalize, NormalizedAll;
    if file.V2? {
      CanNormalizeExactly(file.store.rules);
      if NormalizedAll(file.store.rules).Some? { NormalFormsAre(file.store.rules); } else { NotNormalizable(file.store.rules); }
    }
  }

  function NormalForms(rules: seq<Rule>): seq<Rule> {
    seq(|rules|, i requires 0 <= i < |rules| => if NormalizedRule(rules[i]).Some? then NormalizedRule(rules[i]).value else rules[i])
  }

  lemma NormalFormsAre(rules: seq<Rule>)
    requires NormalizedAll(rules).Some?
    ensures NormalizedAll(rules).value == NormalForms(rules)
  {
    hide NormalizedRule, NormalizedAll, IsNormalized;
    NormalizedAllAre(rules);
    assert forall i :: 0 <= i < |rules| ==> NormalizedRule(rules[i]) == Some(NormalizedAll(rules).value[i]);
  }

  lemma NotNormalizable(rules: seq<Rule>)
    requires NormalizedAll(rules) == None
    ensures !CanNormalize(rules)
  {
    hide NormalizedRule, NormalizedAll, IdOf;
    NormalizedAllExactly(rules);
  }
}
