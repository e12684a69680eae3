/** The store operation behind saving a decision: all checks first, then one item replaced. */
module ProposalStore {
  import opened Results
  import opened Text
  import opened Decisions
  import opened VoucherLines
  import opened SavedDecisions

  datatype Status = Draft | Blocked | ReviewPending | Rejected | Settled

  /** A proposal revision is the proposal itself, as it was read. */
  datatype Item = Item(status: Status, snapshot: Snapshot, revision: nat)

  datatype Patch = Patch(
    key: string, commandId: string, decidedBy: string, storeRevision: nat, proposal: Snapshot,
    allocations: seq<Allocation>, decisions: seq<Decision>, treatment: Treatment)

  datatype StoreError = MissingCommand | StoreConflict | UnknownVoucher | NotEditable | ProposalConflict | Refused(error: Error)

  /** The item a patch makes of a stored one. */
  function Decided(items: map<string, Item>, revision: nat, patch: Patch, catalogs: Catalogs): Result<Item, StoreError> {
    if Strip(patch.commandId) == "" || Strip(patch.decidedBy) == "" then Err(MissingCommand)
    else if revision != patch.storeRevision then Err(StoreConflict)
    else if patch.key !in items then Err(UnknownVoucher)
    else if items[patch.key].status == Settled then Err(NotEditable)
    else if items[patch.key].snapshot != patch.proposal then Err(ProposalConflict)
    else
      match Save(items[patch.key].snapshot, patch.allocations, patch.decisions, patch.treatment, catalogs)
      case Err(e) => Err(Refused(e))
      case Ok(snapshot) => Ok(Item(ReviewPending, snapshot, items[patch.key].revision + 1))
  }

  method SaveSnapshot(before: Snapshot, allocations: seq<Allocation>, raw: seq<Decision>, treatment: Treatment, catalogs: Catalogs)
    returns (r: Result<Snapshot, Error>)
    ensures r == Save(before, allocations, raw, treatment, catalogs)
  {
    hide ValidatedAllocations, Merged, Materialized, Retained;
    if before.sources == [] { return Err(NoSources); }
    var accepted := ValidateAllocations(before.sources, allocations);
    if accepted.Err? { return Err(accepted.error); }
    var decisions := MergeDecisions(before.lines, before.templates, raw);
    if decisions.Err? { return Err(decisions.error); }
    var lines := MaterializeLines(before.sources, accepted.value, decisions.value, treatment, catalogs);
    if lines.Err? { return Err(lines.error); }
    var templates := RetainTemplates(before.sources, lines.value, decisions.value);
    var debit := AddUp(lines.value, Debit);
    var credit := AddUp(lines.value, Credit);
    r := Ok(Snapshot(before.sources, lines.value, templates, accepted.value, treatment, debit == credit));
  }

  method AddUp(lines: seq<Line>, direction: Direction) returns (total: int)
    ensures total == SideTotal(lines, direction)
  {
    total := 0;
    for i := 0 to |lines|
      invariant total == SideTotal(lines[..i], direction)
    {
      assert lines[..i + 1][..i] == lines[..i];
      if lines[i].direction == direction { total := total + lines[i].amount; }
    }
    assert lines[..|lines|] == lines;
  }

  class VoucherStore {
    var revision: nat
    var items: map<string, Item>

    constructor (items: map<string, Item>)
      ensures this.items == items && revision == 0
    {
      this.items, revision := items, 0;
    }

    method ApplyVoucherDecision(patch: Patch, catalogs: Catalogs) returns (r: Result<Item, StoreError>)
      modifies this
      ensures r == Decided(old(items), old(revision), patch, catalogs)
      ensures r.Ok? ==> items == old(items)[patch.key := r.value] && revision == old(revision) + 1
      ensures r.Err? ==> items == old(items) && revision == old(revision)
    {
      hide Save, Strip;
      if Strip(patch.commandId) == "" || Strip(patch.decidedBy) == "" { return Err(MissingCommand); }
      if revision != patch.storeRevision { return Err(StoreConflict); }
      if patch.key !in items { return Err(UnknownVoucher); }
      var item := items[patch.key];
      if item.status == Settled { return Err(NotEditable); }
      if item.snapshot != patch.proposal { return Err(ProposalConflict); }
      var saved := SaveSnapshot(item.snapshot, patch.allocations, patch.decisions, patch.treatment, catalogs);
      if saved.Err? { return Err(Refused(saved.error)); }
      var updated := Item(ReviewPending, saved.value, item.revision + 1);
      items, revision := items[patch.key := updated], revision + 1;
      r := Ok(updated);
    }
  }

  /** A saved proposal is marked balanced exactly when its double entry is. */
  lemma BalanceFlagIsExact(before: Snapshot, allocations: seq<Allocation>, raw: seq<Decision>, treatment: Treatment, catalogs: Catalogs)
    requires Save(before, allocations, raw, treatment, catalogs).Ok?
    ensures Save(before, allocations, raw, treatment, catalogs).value.balanced <==> treatment != Pending || NoTax(before.sources)
  {
    hide Materialized, Merged, Retained, SideTotal, Acceptable, ValidatedAllocations;
    AcceptedExactly(before.sources, allocations);
    var decisions := Merged(before.lines, before.templates, raw).value;
    BalancesExactly(before.sources, allocations, decisions, treatment, catalogs);
  }

  /** A decision is applied, exactly, to a voucher that is there and can still be edited, in the store and proposal
      revision it was made for, named and signed, and if the save succeeds; it then awaits review, one revision on. */
  lemma DecidedExactly(items: map<string, Item>, revision: nat, patch: Patch, catalogs: Catalogs)
    ensures Decided(items, revision, patch, catalogs).Ok?
       <==> && Strip(patch.commandId) != "" && Strip(patch.decidedBy) != "" && revision == patch.storeRevision
            && patch.key in items && items[patch.key].status != Settled && items[patch.key].snapshot == patch.proposal
            && Save(patch.proposal, patch.allocations, patch.decisions, patch.treatment, catalogs).Ok?
    ensures Decided(items, revision, patch, catalogs).Ok? ==>
              var item := Decided(items, revision, patch, catalogs).value;
              && item.status == ReviewPending && item.revision == items[patch.key].revision + 1
              && Save(patch.proposal, patch.allocations, patch.decisions, patch.treatment, catalogs) == Ok(item.snapshot)
  {
    hide Save, Strip;
  }
}
