/** Voucher decisions: project allocations checked against the source lines and materialised into
    double-entry lines with the accounts decided for them. Amounts are cents; a line id stands for the
    content it is a digest of. */
module Decisions {
  import opened Results
  import opened Text

  type Aux = map<string, string>

  datatype Treatment = Deductible | NonDeductible | Pending

  /** An amount is absent when its text is no finite number of whole cents. */
  datatype Source = Source(
    id: string, seller: string, itemName: string, invoiceNo: string, pretax: Option<int>, tax: Option<int>, total: Option<int>)

  datatype Allocation = Allocation(
    id: string, sourceId: string, projectId: string, projectName: string, pretax: Option<int>, tax: Option<int>, total: Option<int>)

  datatype Role = Cost | InputTax | Payable

  datatype Direction = Debit | Credit

  datatype LineId = TemplateId(sourceId: string, role: Role) | AllocationId(sourceId: string, allocationId: string, role: Role) | OtherId(text: string)

  datatype Decision = Decision(
    id: LineId, account: string, aux: Aux, role: Role, summary: string, direction: Direction, amount: int,
    sourceIds: seq<string>, allocationIds: seq<string>)

  datatype Line = Line(
    id: LineId, role: Role, summary: string, account: string, accountName: string, direction: Direction, amount: int, aux: Aux,
    sourceIds: seq<string>, allocationIds: seq<string>)

  datatype Account = Account(code: string, name: string, enabled: bool, isLeaf: bool, requiredAux: set<string>)

  datatype AuxValue = AuxValue(valueId: string, dimension: string, enabled: bool)

  datatype Catalogs = Catalogs(accounts: map<string, Account>, auxValues: map<string, AuxValue>)

  datatype Error =
    | DuplicateSource | UnknownSource | BadAllocationId | NoProject | BadAmount | NegativeAmount | Unbalanced
    | MissingAllocation | SumMismatch | UnknownLine | DuplicateDecision | NoAccount | UnknownAccount | ClosedAccount
    | BadProject | BadAux | NoSources

  // ---------------------------------------------------------------- allocations

  function BySource(allocations: seq<Allocation>, id: string): seq<Allocation> {
    if allocations == [] then []
    else
      var n := |allocations| - 1;
      BySource(allocations[..n], id) + (if allocations[n].sourceId == id then [allocations[n]] else [])
  }

  /** The allocations source by source, in the order of the sources. */
  function Grouped(sources: seq<Source>, allocations: seq<Allocation>): seq<Allocation> {
    if sources == [] then []
    else
      var n := |sources| - 1;
      Grouped(sources[..n], allocations) + BySource(allocations, sources[n].id)
  }

  datatype Sums = Sums(pretax: int, tax: int, total: int)

  function Cents(amount: Option<int>): int { if amount.Some? then amount.value else 0 }

  function SumsOf(allocations: seq<Allocation>): Sums {
    if allocations == [] then Sums(0, 0, 0)
    else
      var n := |allocations| - 1;
      var rest := SumsOf(allocations[..n]);
      Sums(rest.pretax + Cents(allocations[n].pretax), rest.tax + Cents(allocations[n].tax), rest.total + Cents(allocations[n].total))
  }

  predicate HasSource(sources: seq<Source>, id: string) { exists i :: 0 <= i < |sources| && sources[i].id == id }

  predicate HasAllocation(allocations: seq<Allocation>, id: string) {
    exists i :: 0 <= i < |allocations| && allocations[i].id == id
  }

  predicate DistinctSources(sources: seq<Source>) {
    forall i, j :: 0 <= i < j < |sources| ==> sources[i].id != sources[j].id
  }

  /** What is wrong with one allocation, given the ones before it. */
  function AllocationError(sources: seq<Source>, before: seq<Allocation>, a: Allocation): Option<Error> {
    if !HasSource(sources, a.sourceId) then Some(UnknownSource)
    else if Strip(a.id) == "" || HasAllocation(before, a.id) then Some(BadAllocationId)
    else if Strip(a.projectId) == "" && Strip(a.projectName) == "" then Some(NoProject)
    else if a.pretax == None || a.tax == None || a.total == None then Some(BadAmount)
    else if a.pretax.value < 0 || a.tax.value < 0 || a.total.value <= 0 then Some(NegativeAmount)
    else if a.pretax.value + a.tax.value != a.total.value then Some(Unbalanced)
    else None
  }

  function AllocationErrors(sources: seq<Source>, allocations: seq<Allocation>, i: nat): Option<Error>
    requires i <= |allocations|
    decreases |allocations| - i
  {
    if i == |allocations| then None
    else
      var error := AllocationError(sources, allocations[..i], allocations[i]);
      if error.Some? then error else AllocationErrors(sources, allocations, i + 1)
  }

  function SourceError(source: Source, own: seq<Allocation>): Option<Error> {
    if source.pretax == None || source.tax == None || source.total == None then Some(BadAmount)
    else if SumsOf(own) != Sums(source.pretax.value, source.tax.value, source.total.value) then Some(SumMismatch)
    else None
  }

  function SourceErrors(sources: seq<Source>, allocations: seq<Allocation>, i: nat): Option<Error>
    requires i <= |sources|
    decreases |sources| - i
  {
    if i == |sources| then None
    else
      var error := SourceError(sources[i], BySource(allocations, sources[i].id));
      if error.Some? then error else SourceErrors(sources, allocations, i + 1)
  }

  predicate EverySourceAllocated(sources: seq<Source>, allocations: seq<Allocation>) {
    forall i :: 0 <= i < |sources| ==> BySource(allocations, sources[i].id) != []
  }

  function ValidatedAllocations(sources: seq<Source>, allocations: seq<Allocation>): Result<seq<Allocation>, Error> {
    if !DistinctSources(sources) then Err(DuplicateSource)
    else
      match AllocationErrors(sources, allocations, 0)
      case Some(e) => Err(e)
      case None =>
        if !EverySourceAllocated(sources, allocations) then Err(MissingAllocation)
        else
          match SourceErrors(sources, allocations, 0)
          case Some(e) => Err(e)
          case None => Ok(Grouped(sources, allocations))
  }

  lemma BySourceIsEmpty(allocations: seq<Allocation>, id: string)
    ensures BySource(allocations, id) == [] <==> forall i :: 0 <= i < |allocations| ==> allocations[i].sourceId != id
  {
    if allocations != [] { BySourceIsEmpty(allocations[..|allocations| - 1], id); }
  }

  /** The dictionary of sources, all without allocations yet; None for a repeated id. */
  method SourceDictionary(sources: seq<Source>) returns (bySource: Option<map<string, seq<Allocation>>>)
    ensures bySource.Some? <==> DistinctSources(sources)
    ensures bySource.Some? ==> forall id :: id in bySource.value <==> HasSource(sources, id)
    ensures bySource.Some? ==> forall id :: id in bySource.value ==> bySource.value[id] == []
  {
    hide DistinctSources;
    NothingYet(sources, []);
    var known: map<string, seq<Allocation>> := map[];
    for i := 0 to |sources|
      invariant forall id :: id in known <==> HasSource(sources[..i], id)
      invariant forall id :: id in known ==> known[id] == []
      invariant DistinctSources(sources[..i])
    {
      if sources[i].id in known {
        RepeatedSource(sources, i);
        return None;
      }
      SourceAppended(sources, i);
      known := known[sources[i].id := []];
    }
    assert sources[..|sources|] == sources;
    bySource := Some(known);
  }

  /** The loop over the allocations: each is checked and filed under its source. */
  method FileAllocations(sources: seq<Source>, allocations: seq<Allocation>, empty: map<string, seq<Allocation>>)
    returns (r: Result<map<string, seq<Allocation>>, Error>)
    requires forall id :: id in empty <==> HasSource(sources, id)
    requires forall id :: id in empty ==> empty[id] == []
    ensures r.Err? ==> AllocationErrors(sources, allocations, 0) == Some(r.error)
    ensures r.Ok? ==> AllocationErrors(sources, allocations, 0) == None
    ensures r.Ok? ==> forall id :: id in r.value <==> HasSource(sources, id)
    ensures r.Ok? ==> forall id :: id in r.value ==> r.value[id] == BySource(allocations, id)
  {
    hide AllocationError, HasAllocation, HasSource;
    NothingYet(sources, allocations);
    var bySource := empty;
    var seen: set<string> := {};
    for i := 0 to |allocations|
      invariant AllocationErrors(sources, allocations, i) == AllocationErrors(sources, allocations, 0)
      invariant forall id :: id in bySource <==> HasSource(sources, id)
      invariant forall id :: id in bySource ==> bySource[id] == BySource(allocations[..i], id)
      invariant forall id :: id in seen <==> HasAllocation(allocations[..i], id)
    {
      var a := allocations[i];
      var error := CheckAllocation(sources, allocations[..i], a, bySource.Keys, seen);
      if error.Some? { return Err(error.value); }
      AllocationAppended(allocations, i);
      seen := seen + {a.id};
      KnownSource(sources, allocations[..i], a);
      bySource := bySource[a.sourceId := bySource[a.sourceId] + [a]];
    }
    assert allocations[..|allocations|] == allocations;
    r := Ok(bySource);
  }

  /** The checks with the dictionaries they fill. */
  method ValidateAllocations(sources: seq<Source>, allocations: seq<Allocation>) returns (r: Result<seq<Allocation>, Error>)
    ensures r == ValidatedAllocations(sources, allocations)
  {
    hide AllocationErrors, SourceError, SumsOf, DistinctSources, BySource;
    var empty := SourceDictionary(sources);
    if empty == None { return Err(DuplicateSource); }
    var filed := FileAllocations(sources, allocations, empty.value);
    if filed.Err? { return Err(filed.error); }
    var bySource := filed.value;
    forall i | 0 <= i < |sources| ensures sources[i].id in bySource { assert HasSource(sources, sources[i].id); }
    if exists id :: id in bySource && bySource[id] == [] {
      var id :| id in bySource && bySource[id] == [];
      assert HasSource(sources, id);
      return Err(MissingAllocation);
    }
    var result: seq<Allocation> := [];
    for i := 0 to |sources|
      invariant SourceErrors(sources, allocations, i) == SourceErrors(sources, allocations, 0)
      invariant result == Grouped(sources[..i], allocations)
    {
      var own := bySource[sources[i].id];
      var error := SourceError(sources[i], own);
      if error.Some? { return Err(error.value); }
      assert sources[..i + 1][..i] == sources[..i];
      result := result + own;
    }
    assert sources[..|sources|] == sources;
    r := Ok(result);
  }

  lemma NothingYet(sources: seq<Source>, allocations: seq<Allocation>)
    ensures DistinctSources(sources[..0]) && forall id :: !HasAllocation(allocations[..0], id)
  {
  }

  lemma RepeatedSource(sources: seq<Source>, i: nat)
    requires i < |sources| && HasSource(sources[..i], sources[i].id)
    ensures !DistinctSources(sources)
  {
    var j :| 0 <= j < i && sources[..i][j].id == sources[i].id;
    assert sources[j].id == sources[i].id;
  }

  lemma SourceAppended(sources: seq<Source>, i: nat)
    requires i < |sources|
    ensures forall id :: HasSource(sources[..i + 1], id) <==> HasSource(sources[..i], id) || id == sources[i].id
    ensures DistinctSources(sources[..i]) && !HasSource(sources[..i], sources[i].id) ==> DistinctSources(sources[..i + 1])
  {
    forall id ensures HasSource(sources[..i + 1], id) <==> HasSource(sources[..i], id) || id == sources[i].id {
      if HasSource(sources[..i], id) {
        var j :| 0 <= j < i && sources[..i][j].id == id;
        assert sources[..i + 1][j].id == id;
      }
      assert sources[..i + 1][i].id == sources[i].id;
      if HasSource(sources[..i + 1], id) {
        var j :| 0 <= j < i + 1 && sources[..i + 1][j].id == id;
        assert j < i ==> sources[..i][j].id == id;
      }
    }
    assert forall j :: 0 <= j < i ==> sources[..i][j] == sources[..i + 1][j];
  }

  lemma AllocationAppended(allocations: seq<Allocation>, i: nat)
    requires i < |allocations|
    ensures forall id :: HasAllocation(allocations[..i + 1], id) <==> HasAllocation(allocations[..i], id) || id == allocations[i].id
    ensures forall id :: BySource(allocations[..i + 1], id)
                      == BySource(allocations[..i], id) + (if allocations[i].sourceId == id then [allocations[i]] else [])
  {
    var next := allocations[..i + 1];
    assert next[..i] == allocations[..i] && next[i] == allocations[i];
    forall id ensures HasAllocation(next, id) <==> HasAllocation(allocations[..i], id) || id == allocations[i].id {
      if HasAllocation(allocations[..i], id) {
        var j :| 0 <= j < i && allocations[..i][j].id == id;
        assert next[j].id == id;
      }
      if HasAllocation(next, id) {
        var j :| 0 <= j < i + 1 && next[j].id == id;
        assert j < i ==> allocations[..i][j].id == id;
      }
    }
  }

  /** The checks of one allocation against the names collected so far. */
  method CheckAllocation(
    sources: seq<Source>, before: seq<Allocation>, a: Allocation, sourceIds: set<string>, seen: set<string>) returns (error: Option<Error>)
    requires forall id :: id in sourceIds <==> HasSource(sources, id)
    requires forall id :: id in seen <==> HasAllocation(before, id)
    ensures error == AllocationError(sources, before, a)
  {
    if a.sourceId !in sourceIds { return Some(UnknownSource); }
    if Strip(a.id) == "" || a.id in seen { return Some(BadAllocationId); }
    if Strip(a.projectId) == "" && Strip(a.projectName) == "" { return Some(NoProject); }
    if a.pretax == None || a.tax == None || a.total == None { return Some(BadAmount); }
    if a.pretax.value < 0 || a.tax.value < 0 || a.total.value <= 0 { return Some(NegativeAmount); }
    if a.pretax.value + a.tax.value != a.total.value { return Some(Unbalanced); }
    error := None;
  }

  lemma KnownSource(sources: seq<Source>, before: seq<Allocation>, a: Allocation)
    requires AllocationError(sources, before, a) == None
    ensures HasSource(sources, a.sourceId)
  {
  }

  // ---------------------------------------------------------------- what acceptance means

  predicate SoundAllocation(sources: seq<Source>, a: Allocation) {
    && HasSource(sources, a.sourceId) && Strip(a.id) != "" && (Strip(a.projectId) != "" || Strip(a.projectName) != "")
    && a.pretax.Some? && a.tax.Some? && a.total.Some?
    && a.pretax.value >= 0 && a.tax.value >= 0 && a.total.value > 0 && a.pretax.value + a.tax.value == a.total.value
  }

  predicate SourceCovered(source: Source, own: seq<Allocation>) {
    && own != [] && source.pretax.Some? && source.tax.Some? && source.total.Some?
    && SumsOf(own) == Sums(source.pretax.value, source.tax.value, source.total.value)
  }

  predicate DistinctAllocations(allocations: seq<Allocation>) {
    forall i, j :: 0 <= i < j < |allocations| ==> allocations[i].id != allocations[j].id
  }

  predicate Acceptable(sources: seq<Source>, allocations: seq<Allocation>) {
    && DistinctSources(sources) && DistinctAllocations(allocations)
    && (forall i :: 0 <= i < |allocations| ==> SoundAllocation(sources, allocations[i]))
    && (forall i :: 0 <= i < |sources| ==> SourceCovered(sources[i], BySource(allocations, sources[i].id)))
  }

  lemma {:induction false} NoAllocationErrors(sources: seq<Source>, allocations: seq<Allocation>, i: nat)
    requires i <= |allocations|
    ensures AllocationErrors(sources, allocations, i) == None
       <==> forall j :: i <= j < |allocations| ==> AllocationError(sources, allocations[..j], allocations[j]) == None
    decreases |allocations| - i
  {
    hide AllocationError;
    if i < |allocations| { NoAllocationErrors(sources, allocations, i + 1); }
  }

  lemma {:induction false} NoSourceErrors(sources: seq<Source>, allocations: seq<Allocation>, i: nat)
    requires i <= |sources|
    ensures SourceErrors(sources, allocations, i) == None
       <==> forall j :: i <= j < |sources| ==> SourceError(sources[j], BySource(allocations, sources[j].id)) == None
    decreases |sources| - i
  {
    hide SourceError;
    if i < |sources| { NoSourceErrors(sources, allocations, i + 1); }
  }

  lemma SoundExactly(sources: seq<Source>, allocations: seq<Allocation>, j: nat)
    requires j < |allocations|
    ensures AllocationError(sources, allocations[..j], allocations[j]) == None
       <==> SoundAllocation(sources, allocations[j]) && !HasAllocation(allocations[..j], allocations[j].id)
  {
    hide HasSource, HasAllocation, Strip;
  }

  lemma DistinctExactly(allocations: seq<Allocation>)
    ensures DistinctAllocations(allocations)
       <==> forall j :: 0 <= j < |allocations| ==> !HasAllocation(allocations[..j], allocations[j].id)
  {
    if forall j :: 0 <= j < |allocations| ==> !HasAllocation(allocations[..j], allocations[j].id) {
      forall i, j | 0 <= i < j < |allocations| ensures allocations[i].id != allocations[j].id {
        assert !HasAllocation(allocations[..j], allocations[j].id);
        assert allocations[..j][i] == allocations[i];
      }
    }
    if DistinctAllocations(allocations) {
      forall j | 0 <= j < |allocations| ensures !HasAllocation(allocations[..j], allocations[j].id) {
        forall i | 0 <= i < j ensures allocations[..j][i].id != allocations[j].id { assert allocations[..j][i] == allocations[i]; }
      }
    }
  }

  /** Allocations are accepted if and only if ids are distinct, every allocation is sound and every source
      is covered to the cent; what is returned is the input, source by source. */
  lemma AcceptedExactly(sources: seq<Source>, allocations: seq<Allocation>)
    ensures ValidatedAllocations(sources, allocations).Ok? <==> Acceptable(sources, allocations)
    ensures ValidatedAllocations(sources, allocations).Ok? ==> ValidatedAllocations(sources, allocations).value == Grouped(sources, allocations)
  {
    hide AllocationError, SoundAllocation, HasAllocation, HasSource, DistinctAllocations, DistinctSources;
    NoAllocationErrors(sources, allocations, 0);
    NoSourceErrors(sources, allocations, 0);
    DistinctExactly(allocations);
    forall j | 0 <= j < |allocations|
      ensures AllocationError(sources, allocations[..j], allocations[j]) == None
         <==> SoundAllocation(sources, allocations[j]) && !HasAllocation(allocations[..j], allocations[j].id) {
      SoundExactly(sources, allocations, j);
    }
  }

  lemma {:induction false} GroupedSplits(sources: seq<Source>, allocations: seq<Allocation>)
    requires DistinctSources(sources) && allocations != []
    ensures var last := allocations[|allocations| - 1];
            && multiset(Grouped(sources, allocations))
               == multiset(Grouped(sources, allocations[..|allocations| - 1]))
                  + (if HasSource(sources, last.sourceId) then multiset{last} else multiset{})
  {
    if sources != [] {
      var m, n := |sources| - 1, |allocations| - 1;
      assert DistinctSources(sources[..m]);
      GroupedSplits(sources[..m], allocations);
      SourceAppended(sources, m);
      assert sources[..m + 1] == sources;
    }
  }

  /** Grouping loses and repeats nothing. */
  lemma {:induction false} GroupedIsPermutation(sources: seq<Source>, allocations: seq<Allocation>)
    requires DistinctSources(sources) && forall i :: 0 <= i < |allocations| ==> HasSource(sources, allocations[i].sourceId)
    ensures multiset(Grouped(sources, allocations)) == multiset(allocations)
  {
    hide HasSource, Grouped;
    if allocations == [] {
      GroupedNothing(sources);
    } else {
      var n := |allocations| - 1;
      GroupedIsPermutation(sources, allocations[..n]);
      GroupedSplits(sources, allocations);
      assert allocations == allocations[..n] + [allocations[n]];
    }
  }

  lemma {:induction false} GroupedNothing(sources: seq<Source>)
    ensures Grouped(sources, []) == []
  {
    if sources != [] { GroupedNothing(sources[..|sources| - 1]); }
  }
}
