/** The revisioned mapping file: loading, writing and appending rules. A version digest stands for the
    content it is taken of: the binding, and the rules in the order of their ids, which is a map. */
module MappingStore {
  import opened Results
  import opened MappingRules
  import opened RuleResolution

  datatype Binding = Binding(companyId: string, environment: string, ledger: string, profile: string, accounts: string, aux: string)

  datatype Version = Version(binding: Option<Binding>, rules: map<RuleId, Rule>)

  datatype ReceiptKey = ReceiptKey(
    source: Legacy, preview: Preview, expectedRevision: int, binding: Binding, confirmedBy: string, commandId: string)

  /** `backup` is the tag in the name of the backup file. */
  datatype Receipt = Receipt(key: ReceiptKey, backup: nat, migratedAt: string)

  datatype Store = Store(
    revision: int, updatedAt: string, rulesVersion: Version, rules: seq<Rule>, binding: Option<Binding>, receipts: map<ReceiptKey, Receipt>)

  /** A first-generation rule record; absent fields read as empty texts. */
  datatype LegacyRule = LegacyRule(
    ruleId: string, seller: string, project: string, target: Target, origin: Option<Origin>, confirmedAt: string, confirmedBy: string,
    unknownFields: bool)

  datatype Legacy = Legacy(revision: Option<int>, unknownFields: bool, rules: seq<LegacyRule>, updatedAt: string)

  /** What a migration preview is a digest of. */
  datatype Preview = Preview(source: Legacy, binding: Binding, targets: seq<Rule>)

  /** The content under the live name. */
  datatype File = Absent | V1(legacy: Legacy) | V2(store: Store) | Unreadable

  datatype Error =
    | MigrationRequired | Corrupt | RevisionConflict | BoundElsewhere | UnboundRules | RuleInvalid | DuplicateScope
    | ReplacedRuleMissing | AiMayNotReplace | ManualIsProtected | ReplacementNotNamed | ScopeTaken

  // ---------------------------------------------------------------- versions

  function SemanticById(rules: seq<Rule>): map<RuleId, Rule> {
    if rules == [] then map[]
    else SemanticById(rules[..|rules| - 1])[IdOf(rules[|rules| - 1]) := Semantic(rules[|rules| - 1])]
  }

  function VersionOf(rules: seq<Rule>, binding: Option<Binding>): Version { Version(binding, SemanticById(rules)) }

  function Meanings(rules: seq<Rule>): set<Rule> { set i | 0 <= i < |rules| :: Semantic(rules[i]) }

  lemma {:induction false} ByIdIsMeanings(rules: seq<Rule>)
    requires UniqueIds(rules)
    ensures forall id :: id in SemanticById(rules) ==> SemanticById(rules)[id] in Meanings(rules) && IdOf(SemanticById(rules)[id]) == id
    ensures forall r :: r in Meanings(rules) ==> IdOf(r) in SemanticById(rules) && SemanticById(rules)[IdOf(r)] == r
  {
    hide IdOf, Semantic, Meanings, UniqueIds;
    if rules == [] {
      NoMeanings();
    } else {
      var n := |rules| - 1;
      UniqueInFront(rules);
      ByIdIsMeanings(rules[..n]);
      SemanticKeepsId(rules[n]);
      LastMeaning(rules);
    }
  }

  lemma NoMeanings()
    ensures Meanings([]) == {}
  {
  }

  lemma UniqueInFront(rules: seq<Rule>)
    requires rules != [] && UniqueIds(rules)
    ensures UniqueIds(rules[..|rules| - 1])
  {
    hide IdOf;
    var front := rules[..|rules| - 1];
    forall i, j | 0 <= i < j < |front| ensures IdOf(front[i]) != IdOf(front[j]) {
      assert front[i] == rules[i] && front[j] == rules[j];
    }
  }

  lemma LastMeaning(rules: seq<Rule>)
    requires rules != [] && UniqueIds(rules)
    ensures Meanings(rules) == Meanings(rules[..|rules| - 1]) + {Semantic(rules[|rules| - 1])}
    ensures forall r :: r in Meanings(rules[..|rules| - 1]) ==> IdOf(r) != IdOf(rules[|rules| - 1])
  {
    hide IdOf, Semantic;
    var n := |rules| - 1;
    var front := rules[..n];
    forall r | r in Meanings(front) ensures r in Meanings(rules) && IdOf(r) != IdOf(rules[n]) {
      var i :| 0 <= i < n && r == Semantic(front[i]);
      assert front[i] == rules[i];
      SemanticKeepsId(rules[i]);
    }
    forall r | r in Meanings(rules) ensures r in Meanings(front) || r == Semantic(rules[n]) {
      var i :| 0 <= i < |rules| && r == Semantic(rules[i]);
      assert i < n ==> front[i] == rules[i];
    }
    assert Semantic(rules[n]) in Meanings(rules);
  }

  lemma SemanticKeepsId(r: Rule)
    ensures IdOf(Semantic(r)) == IdOf(r)
  {
  }

  /** The version forgets the order of the rules and who confirmed them, and nothing else. */
  lemma VersionIsExact(a: seq<Rule>, b: seq<Rule>, x: Option<Binding>, y: Option<Binding>)
    requires UniqueIds(a) && UniqueIds(b)
    ensures VersionOf(a, x) == VersionOf(b, y) <==> x == y && Meanings(a) == Meanings(b)
  {
    hide IdOf, UniqueIds, SemanticById, Meanings;
    ByIdIsMeanings(a);
    ByIdIsMeanings(b);
    var m, n := SemanticById(a), SemanticById(b);
    if Meanings(a) == Meanings(b) {
      forall id | id in m ensures id in n && m[id] == n[id] { assert m[id] in Meanings(b); }
      forall id | id in n ensures id in m && m[id] == n[id] { assert n[id] in Meanings(a); }
      assert m == n;
    }
    if m == n {
      forall r ensures r in Meanings(a) <==> r in Meanings(b) {}
    }
  }

  // ---------------------------------------------------------------- loading and writing

  function EmptyStore(): Store { Store(0, "", VersionOf([], None), [], None, map[]) }

  /** What every store in the file must be. */
  predicate Sound(s: Store) {
    && s.revision >= 0 && (forall r :: r in s.rules ==> IsNormalized(r)) && UniqueIds(s.rules)
    && s.rulesVersion == VersionOf(s.rules, s.binding)
  }

  /** A first-generation file that its own schema accepts. */
  predicate WellFormed(legacy: Legacy) {
    && legacy.revision.Some? && legacy.revision.value >= 0
    && forall i :: 0 <= i < |legacy.rules| ==> legacy.rules[i].origin.Some? && !legacy.rules[i].unknownFields
  }

  function Load(file: File): Result<Store, Error> {
    match file
    case Absent => Ok(EmptyStore())
    case V1(legacy) => Err(if WellFormed(legacy) then MigrationRequired else Corrupt)
    case Unreadable => Err(Corrupt)
    case V2(s) =>
      match NormalizedAll(s.rules)
      case None => Err(Corrupt)
      case Some(rules) =>
        if s.revision < 0 || !UniqueIds(rules) || s.rulesVersion != VersionOf(rules, s.binding) then Err(Corrupt)
        else Ok(s.(rules := rules))
  }

  lemma {:induction false} NormalizedAllAre(rules: seq<Rule>)
    requires NormalizedAll(rules).Some?
    ensures |NormalizedAll(rules).value| == |rules|
    ensures forall i :: 0 <= i < |rules| ==> NormalizedRule(rules[i]) == Some(NormalizedAll(rules).value[i])
    ensures forall r :: r in NormalizedAll(rules).value ==> IsNormalized(r)
  {
    hide NormalizedRule;
    if rules != [] {
      NormalizedAllAre(rules[..|rules| - 1]);
      NormalizedIsStable(rules[|rules| - 1]);
    }
  }

  /** Loading yields sound stores, and gives back exactly every sound store that was written. */
  lemma LoadIsSound(file: File)
    ensures Load(file).Ok? ==> Sound(Load(file).value)
    ensures file.V2? && Sound(file.store) ==> Load(file) == Ok(file.store)
  {
    hide NormalizedRule, IdOf, IsNormalized;
    if file.V2? {
      if NormalizedAll(file.store.rules).Some? { NormalizedAllAre(file.store.rules); }
      if Sound(file.store) { AlreadyNormal(file.store.rules); }
    }
  }

  function BindingError(current: Store, binding: Option<Binding>): Option<Error> {
    if current.binding.Some? && binding.Some? && current.binding != binding then Some(BoundElsewhere)
    else if current.binding == None && current.rules != [] && binding.Some? then Some(UnboundRules)
    else None
  }

  function Resolved(current: Option<Binding>, binding: Option<Binding>): Option<Binding> { if current.Some? then current else binding }

  /** The store a write leaves. */
  function Written(file: File, rules: seq<Rule>, expected: Option<int>, binding: Option<Binding>, now: string): Result<Store, Error> {
    match Load(file)
    case Err(e) => Err(e)
    case Ok(current) =>
      if expected.Some? && current.revision != expected.value then Err(RevisionConflict)
      else if BindingError(current, binding).Some? then Err(BindingError(current, binding).value)
      else
        match NormalizedAll(rules)
        case None => Err(RuleInvalid)
        case Some(normalized) =>
          if !UniqueIds(normalized) then Err(DuplicateScope)
          else
            var bound := if binding == None then current.binding else binding;
            Ok(Store(current.revision + 1, now, VersionOf(normalized, bound), normalized, bound, current.receipts))
  }

  lemma WrittenIsSound(file: File, rules: seq<Rule>, expected: Option<int>, binding: Option<Binding>, now: string)
    requires Written(file, rules, expected, binding, now).Ok?
    ensures var s := Written(file, rules, expected, binding, now).value;
            Sound(s) && Load(V2(s)) == Ok(s) && s.revision == Load(file).value.revision + 1 && s.receipts == Load(file).value.receipts
  {
    hide NormalizedRule, UniqueIds, VersionOf;
    LoadIsSound(file);
    NormalizedAllAre(rules);
    LoadIsSound(V2(Written(file, rules, expected, binding, now).value));
  }

  // ---------------------------------------------------------------- appending

  predicate HasId(rules: seq<Rule>, id: RuleId) { exists i :: 0 <= i < |rules| && IdOf(rules[i]) == id }

  function WithId(rules: seq<Rule>, id: RuleId): (r: Option<Rule>)
    ensures r.Some? <==> HasId(rules, id)
    ensures r.Some? ==> r.value in rules && IdOf(r.value) == id
  {
    if rules == [] then None
    else if IdOf(rules[0]) == id then Some(rules[0])
    else
      assert forall i :: 0 < i < |rules| ==> rules[i] == rules[1..][i - 1];
      WithId(rules[1..], id)
  }

  function Without(rules: seq<Rule>, ids: set<RuleId>): seq<Rule> {
    if rules == [] then []
    else Without(rules[..|rules| - 1], ids) + (if IdOf(rules[|rules| - 1]) in ids then [] else [rules[|rules| - 1]])
  }

  function Ids(a: Option<Rule>, b: Option<Rule>): set<RuleId> {
    (if a.Some? then {IdOf(a.value)} else {}) + (if b.Some? then {IdOf(b.value)} else {})
  }

  /** The new content and the rule reported; the content is unchanged when the rule was there already. */
  datatype Appended = Appended(file: File, rule: Rule)

  /** Why the rule may not take its place among the current ones. */
  function AppendError(stored: Rule, existing: Option<Rule>, replacing: Option<RuleId>, replacement: Option<Rule>): Option<Error> {
    if existing.Some? && existing.value.origin == Manual && stored.origin == AiConfirmed then Some(ManualIsProtected)
    else if existing.Some? && stored.origin == Manual && replacing != Some(IdOf(existing.value)) then Some(ReplacementNotNamed)
    else if replacement.Some? && replacement.value.origin == Manual && stored.origin != Manual then Some(ManualIsProtected)
    else if replacement.Some? && existing.Some? && IdOf(replacement.value) != IdOf(existing.value) then Some(ScopeTaken)
    else None
  }

  function AppendResult(
    file: File, rule: Rule, expected: Option<int>, replacing: Option<RuleId>, binding: Option<Binding>, now: string): Result<Appended, Error>
  {
    match Load(file)
    case Err(e) => Err(e)
    case Ok(current) =>
      if expected.Some? && current.revision != expected.value then Err(RevisionConflict)
      else if BindingError(current, binding).Some? then Err(BindingError(current, binding).value)
      else
        match NormalizedRule(rule)
        case None => Err(RuleInvalid)
        case Some(stored) =>
          var existing := WithId(current.rules, IdOf(stored));
          var replacement := if replacing.Some? then WithId(current.rules, replacing.value) else None;
          if replacing.Some? && replacement == None then Err(ReplacedRuleMissing)
          else if replacing.Some? && stored.origin != Manual then Err(AiMayNotReplace)
          else if existing.Some? && Semantic(existing.value) == Semantic(stored)
                  && (replacement == None || IdOf(replacement.value) == IdOf(existing.value)) then Ok(Appended(file, existing.value))
          else if AppendError(stored, existing, replacing, replacement).Some? then
            Err(AppendError(stored, existing, replacing, replacement).value)
          else
            var rules := Without(current.rules, Ids(existing, replacement)) + [stored];
            match Written(file, rules, Some(current.revision), Resolved(current.binding, binding), now)
            case Err(e) => Err(e)
            case Ok(s) => Ok(Appended(V2(s), stored))
  }

  /** The mapping file behind its lock. */
  class MappingFile {
    var file: File

    constructor (file: File)
      ensures this.file == file
    {
      this.file := file;
    }

    method WriteMapping(rules: seq<Rule>, expected: Option<int>, binding: Option<Binding>, now: string) returns (r: Result<Store, Error>)
      modifies this
      ensures r == Written(old(file), rules, expected, binding, now)
      ensures file == if r.Ok? then V2(r.value) else old(file)
    {
      hide NormalizedAll, UniqueIds;
      var current := Load(file);
      if current.Err? { return Err(current.error); }
      if expected.Some? && current.value.revision != expected.value { return Err(RevisionConflict); }
      var refused := BindingError(current.value, binding);
      if refused.Some? { return Err(refused.value); }
      var normalized := NormalizedAll(rules);
      if normalized == None { return Err(RuleInvalid); }
      if !UniqueIds(normalized.value) { return Err(DuplicateScope); }
      var bound := if binding == None then current.value.binding else binding;
      r := Ok(Store(current.value.revision + 1, now, VersionOf(normalized.value, bound), normalized.value, bound, current.value.receipts));
      file := V2(r.value);
    }

    method AppendRule(rule: Rule, expected: Option<int>, replacing: Option<RuleId>, binding: Option<Binding>, now: string)
      returns (r: Result<Rule, Error>)
      modifies this
      ensures match AppendResult(old(file), rule, expected, replacing, binding, now)
              case Ok(appended) => r == Ok(appended.rule) && file == appended.file
              case Err(e) => r == Err(e) && file == old(file)
    {
      hide Load, NormalizedRule, IdOf, Semantic, Written;
      var loaded := Load(file);
      if loaded.Err? { return Err(loaded.error); }
      var current := loaded.value;
      if expected.Some? && current.revision != expected.value { return Err(RevisionConflict); }
      var refused := BindingError(current, binding);
      if refused.Some? { return Err(refused.value); }
      var stored := NormalizedRule(rule);
      if stored == None { return Err(RuleInvalid); }
      var existing := WithId(current.rules, IdOf(stored.value));
      var replacement := if replacing.Some? then WithId(current.rules, replacing.value) else None;
      if replacing.Some? && replacement == None { return Err(ReplacedRuleMissing); }
      if replacing.Some? && stored.value.origin != Manual { return Err(AiMayNotReplace); }
      if existing.Some? && Semantic(existing.value) == Semantic(stored.value)
         && (replacement == None || IdOf(replacement.value) == IdOf(existing.value)) {
        return Ok(existing.value);
      }
      refused := AppendError(stored.value, existing, replacing, replacement);
      if refused.Some? { return Err(refused.value); }
      var rules := Without(current.rules, Ids(existing, replacement)) + [stored.value];
      var written := WriteMapping(rules, Some(current.revision), Resolved(current.binding, binding), now);
      if written.Err? { return Err(written.error); }
      r := Ok(stored.value);
    }
  }

  // ---------------------------------------------------------------- what one append does

  lemma {:induction false} WithoutAre(rules: seq<Rule>, ids: set<RuleId>)
    ensures forall r :: r in Without(rules, ids) <==> r in rules && IdOf(r) !in ids
    ensures UniqueIds(rules) ==> UniqueIds(Without(rules, ids))
  {
    hide IdOf;
    if rules != [] {
      var n := |rules| - 1;
      assert rules == rules[..n] + [rules[n]];
      assert UniqueIds(rules) ==> UniqueIds(rules[..n]) by {
        assert forall i :: 0 <= i < n ==> rules[..n][i] == rules[i];
      }
      WithoutAre(rules[..n], ids);
      if UniqueIds(rules) && IdOf(rules[n]) !in ids {
        var kept := Without(rules[..n], ids);
        forall i | 0 <= i < |kept| ensures IdOf(kept[i]) != IdOf(rules[n]) {
          assert kept[i] in rules[..n];
          var j :| 0 <= j < n && rules[j] == kept[i];
        }
      }
    }
  }

  datatype Call = Call(rule: Rule, expected: Option<int>, replacing: Option<RuleId>, binding: Option<Binding>, now: string)

  function Appending(file: File, call: Call): Result<Appended, Error> {
    AppendResult(file, call.rule, call.expected, call.replacing, call.binding, call.now)
  }

  /** An append that changes the file, taken apart. */
  lemma AppendParts(file: File, call: Call)
    requires Appending(file, call).Ok? && Appending(file, call).value.file != file
    ensures Load(file).Ok? && NormalizedRule(call.rule).Some? && Appending(file, call).value.file.V2?
    ensures var current, stored, after := Load(file).value, NormalizedRule(call.rule).value, Appending(file, call).value.file;
            var existing := WithId(current.rules, IdOf(stored));
            var replacement := if call.replacing.Some? then WithId(current.rules, call.replacing.value) else None;
            && Appending(file, call).value.rule == stored
            && (call.replacing.Some? ==> replacement.Some? && stored.origin == Manual)
            && AppendError(stored, existing, call.replacing, replacement) == None
            && after.store.rules == Without(current.rules, Ids(existing, replacement)) + [stored]
            && after.store.binding == Resolved(current.binding, call.binding)
            && Sound(after.store) && Load(after) == Ok(after.store)
            && after.store.revision == current.revision + 1 && after.store.receipts == current.receipts
  {
    hide NormalizedRule, IdOf, Semantic, IsNormalized, UniqueIds, VersionOf, NormalizedAll, Load, Sound;
    var current, stored := Load(file).value, NormalizedRule(call.rule).value;
    var existing := WithId(current.rules, IdOf(stored));
    var replacement := if call.replacing.Some? then WithId(current.rules, call.replacing.value) else None;
    var rules := Without(current.rules, Ids(existing, replacement)) + [stored];
    WrittenIsSound(file, rules, Some(current.revision), Resolved(current.binding, call.binding), call.now);
    RulesStayNormal(file, call.rule, Ids(existing, replacement));
  }

  lemma RulesStayNormal(file: File, rule: Rule, ids: set<RuleId>)
    requires Load(file).Ok? && NormalizedRule(rule).Some?
    ensures var rules := Without(Load(file).value.rules, ids) + [NormalizedRule(rule).value]; NormalizedAll(rules) == Some(rules)
  {
    hide NormalizedRule, IdOf, IsNormalized, UniqueIds, VersionOf, NormalizedAll, Load;
    LoadIsSound(file);
    WithoutAre(Load(file).value.rules, ids);
    NormalizedIsStable(rule);
    AlreadyNormal(Without(Load(file).value.rules, ids) + [NormalizedRule(rule).value]);
  }

  /** One accepted append: the rule is stored and nothing else is new; either it was there already and the file
      is untouched, or the revision grows by one; and a rule disappears only if a manual rule named it, or if
      both it and the rule that takes its scope came from the assistant. */
  lemma AppendIsSafe(file: File, call: Call)
    requires Appending(file, call).Ok?
    ensures Load(file).Ok? && NormalizedRule(call.rule).Some? && Load(AfterCall(file, call)).Ok?
    ensures var before, after := Load(file).value, Load(AfterCall(file, call)).value;
            && (AfterCall(file, call) == file || after.revision == before.revision + 1)
            && after.receipts == before.receipts
            && Semantic(NormalizedRule(call.rule).value) in Meanings(after.rules)
            && (forall r :: r in after.rules ==> r in before.rules || r == NormalizedRule(call.rule).value)
            && (forall r :: r in before.rules && r !in after.rules ==>
                  || (call.replacing == Some(IdOf(r)) && NormalizedRule(call.rule).value.origin == Manual)
                  || (&& IdOf(r) == IdOf(NormalizedRule(call.rule).value)
                      && r.origin == NormalizedRule(call.rule).value.origin == AiConfirmed))
  {
    hide NormalizedRule, IdOf, Semantic, UniqueIds, VersionOf, NormalizedAll, Load, Appending, IsNormalized;
    AppendLoads(file, call);
    LoadIsSound(file);
    var current := Load(file).value;
    if AfterCall(file, call) != file {
      AppendParts(file, call);
      var stored, after := NormalizedRule(call.rule).value, Load(AfterCall(file, call)).value;
      var existing := WithId(current.rules, IdOf(stored));
      var replacement := if call.replacing.Some? then WithId(current.rules, call.replacing.value) else None;
      WithoutAre(current.rules, Ids(existing, replacement));
      assert after.rules[|after.rules| - 1] == stored;
      forall r | r in current.rules && r !in after.rules
        ensures || (call.replacing == Some(IdOf(r)) && stored.origin == Manual)
                || (IdOf(r) == IdOf(stored) && r.origin == stored.origin == AiConfirmed) {
        OneWithId(current.rules, r);
      }
    }
  }

  lemma AppendLoads(file: File, call: Call)
    requires Appending(file, call).Ok?
    ensures Load(file).Ok? && NormalizedRule(call.rule).Some?
    ensures Appending(file, call).value.file == file ==>
              Semantic(NormalizedRule(call.rule).value) in Meanings(Load(file).value.rules)
  {
    hide NormalizedRule, IdOf, Load, Semantic;
    var current, stored := Load(file).value, NormalizedRule(call.rule).value;
    var existing := WithId(current.rules, IdOf(stored));
    if Appending(file, call).value.file == file {
      WriteIsNoticed(file, call);
      var i :| 0 <= i < |current.rules| && current.rules[i] == existing.value;
      assert Semantic(current.rules[i]) == Semantic(stored);
    }
  }

  /** A write always changes the file, by its revision. */
  lemma WriteIsNoticed(file: File, call: Call)
    requires Appending(file, call).Ok? && Appending(file, call).value.file == file
    ensures Load(file).Ok? && NormalizedRule(call.rule).Some?
    ensures var existing := WithId(Load(file).value.rules, IdOf(NormalizedRule(call.rule).value));
            existing.Some? && Semantic(existing.value) == Semantic(NormalizedRule(call.rule).value)
  {
    hide NormalizedRule, IdOf, Semantic, UniqueIds, VersionOf, NormalizedAll;
  }

  /** Appending a rule that was just appended is a no-op: same file, and the stored rule is reported. */
  lemma RepeatedAppendIsNoOp(file: File, call: Call)
    requires Appending(file, call).Ok?
    ensures var again := Appending(AfterCall(file, call), call.(replacing := None, expected := None));
            again.Ok? && again.value.file == AfterCall(file, call)
            && Semantic(again.value.rule) == Semantic(NormalizedRule(call.rule).value)
  {
    hide NormalizedRule, IdOf, Semantic, UniqueIds, VersionOf, NormalizedAll, Load, Appending, IsNormalized;
    AppendIsSafe(file, call);
    var after, stored := AfterCall(file, call), NormalizedRule(call.rule).value;
    LoadIsSound(after);
    var i :| 0 <= i < |Load(after).value.rules| && Semantic(Load(after).value.rules[i]) == Semantic(stored);
    SemanticSameId(Load(after).value.rules[i], stored);
    OneWithId(Load(after).value.rules, Load(after).value.rules[i]);
    BindingStays(file, call);
    KnownRuleIsNoOp(after, call.(replacing := None, expected := None));
  }

  lemma BindingStays(file: File, call: Call)
    requires Appending(file, call).Ok? && Load(AfterCall(file, call)).Ok?
    ensures BindingError(Load(AfterCall(file, call)).value, call.binding) == None
  {
    hide NormalizedRule, IdOf, Semantic, UniqueIds, VersionOf, NormalizedAll, Load, Written, AppendError;
    AppendLoads(file, call);
    if AfterCall(file, call) != file { AppendParts(file, call); }
  }

  lemma KnownRuleIsNoOp(file: File, call: Call)
    requires Load(file).Ok? && NormalizedRule(call.rule).Some? && call.replacing == None && call.expected == None
    requires BindingError(Load(file).value, call.binding) == None
    requires var existing := WithId(Load(file).value.rules, IdOf(NormalizedRule(call.rule).value));
             existing.Some? && Semantic(existing.value) == Semantic(NormalizedRule(call.rule).value)
    ensures var existing := WithId(Load(file).value.rules, IdOf(NormalizedRule(call.rule).value));
            Appending(file, call) == Ok(Appended(file, existing.value))
  {
    hide NormalizedRule, IdOf, Semantic, Load, Written;
  }

  lemma SemanticSameId(a: Rule, b: Rule)
    ensures Semantic(a) == Semantic(b) ==> IdOf(a) == IdOf(b)
  {
    SemanticKeepsId(a);
    SemanticKeepsId(b);
  }

  lemma OneWithId(rules: seq<Rule>, r: Rule)
    requires UniqueIds(rules) && r in rules
    ensures WithId(rules, IdOf(r)) == Some(r)
  {
    hide IdOf;
    var i :| 0 <= i < |rules| && rules[i] == r;
    assert HasId(rules, IdOf(r));
    var found := WithId(rules, IdOf(r)).value;
    var j :| 0 <= j < |rules| && rules[j] == found;
    assert i == j;
  }

  // ---------------------------------------------------------------- runs

  function AfterCall(file: File, call: Call): File {
    match Appending(file, call) case Ok(appended) => appended.file case Err(_) => file
  }

  function AfterCalls(file: File, calls: seq<Call>): File
    decreases |calls|
  {
    if calls == [] then file else AfterCalls(AfterCall(file, calls[0]), calls[1..])
  }

  /** Some call in the run is by hand and names the rule as the one it stands in for. */
  predicate NamedByHand(calls: seq<Call>, id: RuleId) {
    exists i :: 0 <= i < |calls| && calls[i].replacing == Some(id) && calls[i].rule.origin == Manual
  }

  lemma NormalizedKeepsOrigin(r: Rule)
    requires NormalizedRule(r).Some?
    ensures NormalizedRule(r).value.origin == r.origin
  {
  }

  /** Over any run of appends to a file that loads: it keeps loading to a sound store, its revision grows by
      at most one per call, its receipts stay, and a manual rule is still there unless a manual rule named it. */
  lemma {:induction false} AppendsAreSafe(file: File, calls: seq<Call>)
    requires Load(file).Ok?
    ensures var after := AfterCalls(file, calls);
            && Load(after).Ok? && Sound(Load(after).value)
            && Load(file).value.revision <= Load(after).value.revision <= Load(file).value.revision + |calls|
            && Load(after).value.receipts == Load(file).value.receipts
            && (forall r :: r in Load(file).value.rules && r.origin == Manual && r !in Load(after).value.rules ==>
                  NamedByHand(calls, IdOf(r)))
    decreases |calls|
  {
    hide NormalizedRule, IdOf, Appending, Load;
    if calls == [] {
      LoadIsSound(file);
    } else {
      var next, rest := AfterCall(file, calls[0]), calls[1..];
      if Appending(file, calls[0]).Ok? {
        AppendIsSafe(file, calls[0]);
        NormalizedKeepsOrigin(calls[0].rule);
      }
      AppendsAreSafe(next, rest);
      var after := AfterCalls(file, calls);
      forall r | r in Load(file).value.rules && r.origin == Manual && r !in Load(after).value.rules
        ensures NamedByHand(calls, IdOf(r)) {
        if r in Load(next).value.rules {
          var i :| 0 <= i < |rest| && rest[i].replacing == Some(IdOf(r)) && rest[i].rule.origin == Manual;
          assert calls[i + 1] == rest[i];
        } else {
          assert calls[0].replacing == Some(IdOf(r));
        }
      }
    }
  }
}
