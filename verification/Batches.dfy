/** The export, authorize, import and finalize state machine over vouchers and import batches.
    A content hash is represented by the content it was taken of. */
module Batches {
  import opened Results
  import opened Text

  type Key = string
  type BatchId = string
  type Hash = string

  datatype Status =
    | Draft | Blocked | ReviewPending | Approved | Rejected
    | Exported | Importing | Imported | ImportFailed | FailedConfirmed | ImportUnknown
    | ReconciledItem | ManualEntry

  datatype BatchState =
    | Prepared | DryRunPassed | AwaitingAuthorization | Applying | Observed
    | Reconciled | FailedBeforeCommit | Partial | UnknownResult

  datatype ItemAudit = ItemAudit(before: Status, after: Status, batch: BatchId, payload: Option<Payload>)

  datatype Item = Item(
    status: Status, approvedRevision: Hash, batchId: BatchId, exportFile: string, voucherNo: string,
    revision: nat, lastObservation: Option<Payload>, audit: seq<ItemAudit>)

  datatype BatchItem = BatchItem(key: Key, proposalRevision: Hash, plannedNo: string, signature: Hash)

  datatype BatchAudit = DryRunPassedAudit(payload: DryRun) | AppliedAudit(authorization: Authorization) | FinalizedAudit(receipt: Receipt)

  datatype Batch = Batch(
    id: BatchId, filePath: string, fileHash: Hash, ledger: string, period: string,
    items: seq<BatchItem>, expectedCount: nat, expectedDebit: int, expectedCredit: int,
    revision: nat, state: BatchState, authorization: Option<Authorization>,
    receipts: map<Payload, Receipt>, audit: seq<BatchAudit>)

  /** The dry-run report; money in cents. */
  datatype DryRun = DryRun(ok: bool, fileHash: Hash, voucherCount: int, debit: int, credit: int)

  datatype Authorization = Authorization(
    batchId: string, fileHash: string, ledger: string, period: string, command: string, authorizedBy: string)

  /** One read-back entry; `voucherNo` is None when the field is absent. */
  datatype Observation = Observation(key: string, state: string, signature: string, voucherNo: Option<string>)

  datatype Evidence = Evidence(readback: string, commitNotAttempted: bool, absenceConfirmed: bool)

  datatype Payload = Payload(mode: string, outcome: string, items: seq<Observation>, evidence: Evidence)

  datatype Receipt = Receipt(batchId: BatchId, payload: Payload, state: BatchState, itemStates: seq<Status>)

  datatype Error =
    | RevisionConflict | MissingBatch | MissingVoucher | FileHashConflict | NotApproved | RevisionChanged
    | WrongState | FileChanged | DryRunMismatch | AuthorizationMismatch | NotExported
    | BadMode | BadOutcome | BlankKey | DuplicateKey | OutsideBatch
    | IncompleteReadback | InconsistentReadback | ContradictoryEvidence | MissingReadback
    | AbsenceUnproven | FailureUnproven | BadObservedState | SettledRewritten | SignatureMismatch
    | VoucherNoMismatch | VoucherNoMissing

  datatype Store = Store(revision: nat, items: map<Key, Item>, batches: map<BatchId, Batch>)

  const EMPTY: Store := Store(0, map[], map[])

  // ---------------------------------------------------------------- register

  function Export(item: Item, batch: Batch, entry: BatchItem): Item {
    item.(status := Exported, exportFile := batch.filePath, batchId := batch.id, voucherNo := entry.plannedNo,
          revision := item.revision + 1, audit := item.audit + [ItemAudit(Approved, Exported, batch.id, None)])
  }

  function ExportFrom(items: map<Key, Item>, batch: Batch, i: nat): Result<map<Key, Item>, Error>
    requires i <= |batch.items|
    decreases |batch.items| - i
  {
    if i == |batch.items| then Ok(items)
    else
      var entry := batch.items[i];
      if entry.key !in items then Err(MissingVoucher)
      else if items[entry.key].status != Approved then Err(NotApproved)
      else if items[entry.key].approvedRevision != entry.proposalRevision then Err(RevisionChanged)
      else ExportFrom(items[entry.key := Export(items[entry.key], batch, entry)], batch, i + 1)
  }

  /** A batch as prepared: nothing has happened to it yet, and it is not empty. */
  predicate Fresh(batch: Batch) {
    && batch.state == Prepared && batch.receipts == map[] && batch.authorization == None
    && batch.items != []
  }

  function RegisterResult(store: Store, batch: Batch, expectedRevision: nat): Result<Store, Error> {
    if store.revision != expectedRevision then Err(RevisionConflict)
    else if batch.id in store.batches then
      if store.batches[batch.id].fileHash != batch.fileHash then Err(FileHashConflict) else Ok(store)
    else
      match ExportFrom(store.items, batch, 0)
      case Err(e) => Err(e)
      case Ok(items) => Ok(Store(store.revision + 1, items, store.batches[batch.id := batch]))
  }

  // ---------------------------------------------------------------- dry run

  function DryRunResult(store: Store, id: BatchId, payload: DryRun, fileNow: Option<Hash>): Result<Store, Error> {
    if id !in store.batches then Err(MissingBatch)
    else
      var batch := store.batches[id];
      if batch.state !in {Prepared, DryRunPassed, AwaitingAuthorization} then Err(WrongState)
      else if fileNow != Some(batch.fileHash) then Err(FileChanged)
      else if payload.fileHash != batch.fileHash || !payload.ok
              || (if payload.voucherCount == 0 then -1 else payload.voucherCount) != batch.expectedCount
              || payload.debit != batch.expectedDebit || payload.credit != batch.expectedCredit then Err(DryRunMismatch)
      else
        var updated := batch.(revision := batch.revision + 1, state := AwaitingAuthorization,
                              audit := batch.audit + [DryRunPassedAudit(payload)]);
        Ok(Store(store.revision + 1, store.items, store.batches[id := updated]))
  }

  // ---------------------------------------------------------------- begin

  function BeginItem(item: Item, id: BatchId): Item {
    item.(status := Importing, revision := item.revision + 1,
          audit := item.audit + [ItemAudit(Exported, Importing, id, None)])
  }

  function BeginFrom(items: map<Key, Item>, batch: Batch, i: nat): Result<map<Key, Item>, Error>
    requires i <= |batch.items|
    decreases |batch.items| - i
  {
    if i == |batch.items| then Ok(items)
    else
      var key := batch.items[i].key;
      if key !in items then Err(MissingVoucher)
      else if items[key].status != Exported || items[key].batchId != batch.id then Err(NotExported)
      else BeginFrom(items[key := BeginItem(items[key], batch.id)], batch, i + 1)
  }

  predicate AuthorizationBinds(a: Authorization, batch: Batch) {
    && a.batchId == batch.id && a.fileHash == batch.fileHash && a.ledger == batch.ledger && a.period == batch.period
    && Strip(a.command) != "" && Strip(a.authorizedBy) != ""
  }

  function BeginResult(store: Store, id: BatchId, authorization: Authorization, fileNow: Option<Hash>): Result<Store, Error> {
    if id !in store.batches then Err(MissingBatch)
    else
      var batch := store.batches[id];
      if batch.state != AwaitingAuthorization then Err(WrongState)
      else if fileNow != Some(batch.fileHash) then Err(FileChanged)
      else if !AuthorizationBinds(authorization, batch) then Err(AuthorizationMismatch)
      else
        match BeginFrom(store.items, batch, 0)
        case Err(e) => Err(e)
        case Ok(items) =>
          var updated := batch.(revision := batch.revision + 1, state := Applying, authorization := Some(authorization),
                                audit := batch.audit + [AppliedAudit(authorization)]);
          Ok(Store(store.revision + 1, items, store.batches[id := updated]))
  }

  // ---------------------------------------------------------------- finalize

  function ModeOf(payload: Payload): string { if payload.mode == "" then "apply" else payload.mode }

  function CollectFrom(observations: seq<Observation>, i: nat, seen: map<string, Observation>): Result<map<string, Observation>, Error>
    requires i <= |observations|
    decreases |observations| - i
  {
    if i == |observations| then Ok(seen)
    else
      var key := Strip(observations[i].key);
      if key == "" then Err(BlankKey)
      else if key in seen then Err(DuplicateKey)
      else CollectFrom(observations, i + 1, seen[key := observations[i]])
  }

  function BatchKeys(batch: Batch): set<Key> { set entry | entry in batch.items :: entry.key }

  function FailedKeys(observed: map<string, Observation>): set<string> {
    set key | key in observed && observed[key].state == "import_failed_confirmed"
  }

  /** The checks of a payload against the batch as a whole. */
  function CheckPayload(batch: Batch, payload: Payload, observed: map<string, Observation>): Option<Error> {
    var evidence := payload.evidence;
    var readback := Strip(evidence.readback) != "";
    if !(observed.Keys <= BatchKeys(batch)) then Some(OutsideBatch)
    else if payload.outcome == "confirmed_success" && observed.Keys != BatchKeys(batch) then Some(IncompleteReadback)
    else if payload.outcome == "confirmed_success"
            && (exists key :: key in observed && observed[key].state != "imported") then Some(InconsistentReadback)
    else if payload.outcome == "confirmed_success"
            && (evidence.commitNotAttempted || evidence.absenceConfirmed) then Some(ContradictoryEvidence)
    else if payload.outcome == "confirmed_success" && !readback then Some(MissingReadback)
    else if (exists key :: key in observed && observed[key].state == "imported") && !readback then Some(MissingReadback)
    else if FailedKeys(observed) != {} && (!readback || !evidence.absenceConfirmed) then Some(AbsenceUnproven)
    else if payload.outcome == "failed_before_commit"
            && !(batch.state == Applying && ModeOf(payload) == "apply" && evidence.commitNotAttempted && observed == map[])
            && !(ModeOf(payload) == "reconcile_only" && readback && evidence.absenceConfirmed
                 && observed.Keys == BatchKeys(batch) && FailedKeys(observed) == BatchKeys(batch))
         then Some(FailureUnproven)
    else None
  }

  /** The state the payload asks for one voucher of the batch. */
  function NextState(payload: Payload, observation: Option<Observation>): Result<Status, Error> {
    if payload.outcome == "confirmed_success" then Ok(Imported)
    else if payload.outcome == "failed_before_commit" then Ok(FailedConfirmed)
    else if payload.outcome == "unknown" then Ok(ImportUnknown)
    else
      var state := if observation.None? || observation.value.state == "" then "import_unknown" else observation.value.state;
      if state == "imported" then Ok(Imported)
      else if state == "import_failed_confirmed" then Ok(FailedConfirmed)
      else if state == "import_unknown" then Ok(ImportUnknown)
      else Err(BadObservedState)
  }

  predicate Settled(status: Status) { status == Imported || status == FailedConfirmed }

  function ObservedNo(observation: Option<Observation>): string {
    if observation.Some? && observation.value.voucherNo.Some? then Strip(observation.value.voucherNo.value) else ""
  }

  function ObservedSignature(observation: Option<Observation>): string {
    if observation.Some? then observation.value.signature else ""
  }

  /** What a finalize does to one voucher; a settled voucher is only ever confirmed, never rewritten. */
  function SettleOne(item: Item, id: BatchId, entry: BatchItem, payload: Payload, observation: Option<Observation>): Result<Item, Error> {
    if item.status !in {Importing, ImportUnknown, FailedConfirmed, Imported} then Err(WrongState)
    else if Settled(item.status) && observation.None? then Ok(item)
    else
      match NextState(payload, observation)
      case Err(e) => Err(e)
      case Ok(next) =>
        if Settled(item.status) then
          if next != item.status then Err(SettledRewritten)
          else if item.status == Imported && ObservedSignature(observation) != entry.signature then Err(SignatureMismatch)
          else if item.status == Imported
                  && (ObservedNo(observation) == "" || (item.voucherNo != "" && ObservedNo(observation) != item.voucherNo))
               then Err(VoucherNoMismatch)
          else Ok(item)
        else if next == Imported && ObservedSignature(observation) != entry.signature then Err(SignatureMismatch)
        else if next == Imported && ObservedNo(observation) == "" then Err(VoucherNoMissing)
        else
          Ok(item.(status := next, revision := item.revision + 1, lastObservation := Some(payload),
                   audit := item.audit + [ItemAudit(item.status, next, id, Some(payload))],
                   voucherNo := if observation.Some? && observation.value.voucherNo.Some?
                                then observation.value.voucherNo.value else item.voucherNo))
  }

  function Lookup(observed: map<string, Observation>, key: Key): Option<Observation> {
    if key in observed then Some(observed[key]) else None
  }

  datatype Settlement = Settlement(items: map<Key, Item>, states: seq<Status>)

  function SettleFrom(
    done: Settlement, batch: Batch, payload: Payload, observed: map<string, Observation>, i: nat): Result<Settlement, Error>
    requires i <= |batch.items|
    decreases |batch.items| - i
  {
    if i == |batch.items| then Ok(done)
    else
      var entry := batch.items[i];
      if entry.key !in done.items then Err(MissingVoucher)
      else
        match SettleOne(done.items[entry.key], batch.id, entry, payload, Lookup(observed, entry.key))
        case Err(e) => Err(e)
        case Ok(item) =>
          SettleFrom(Settlement(done.items[entry.key := item], done.states + [item.status]), batch, payload, observed, i + 1)
  }

  function Summary(states: seq<Status>): BatchState {
    if forall i :: 0 <= i < |states| ==> states[i] == Imported then Reconciled
    else if forall i :: 0 <= i < |states| ==> states[i] == FailedConfirmed then FailedBeforeCommit
    else if forall i :: 0 <= i < |states| ==> states[i] == ImportUnknown then UnknownResult
    else Partial
  }

  datatype Finalized = Finalized(store: Store, batch: Batch, idempotent: bool, receipt: Receipt)

  function Recorded(batch: Batch, payload: Payload, states: seq<Status>): Batch {
    var receipt := Receipt(batch.id, payload, Summary(states), states);
    batch.(revision := batch.revision + 1, state := Summary(states), receipts := batch.receipts[payload := receipt],
           audit := batch.audit + [FinalizedAudit(receipt)])
  }

  function FinalizeResult(store: Store, id: BatchId, payload: Payload): Result<Finalized, Error> {
    if id !in store.batches then Err(MissingBatch)
    else
      var batch := store.batches[id];
      if payload in batch.receipts then Ok(Finalized(store, batch, true, batch.receipts[payload]))
      else if batch.state == Applying && ModeOf(payload) !in {"apply", "reconcile_only"} then Err(BadMode)
      else if batch.state in {UnknownResult, Partial} && ModeOf(payload) != "reconcile_only" then Err(BadMode)
      else if batch.state !in {Applying, UnknownResult, Partial} then Err(WrongState)
      else if payload.outcome !in {"confirmed_success", "failed_before_commit", "partial", "unknown"} then Err(BadOutcome)
      else
        match CollectFrom(payload.items, 0, map[])
        case Err(e) => Err(e)
        case Ok(observed) =>
          match CheckPayload(batch, payload, observed)
          case Some(e) => Err(e)
          case None =>
            match SettleFrom(Settlement(store.items, []), batch, payload, observed, 0)
            case Err(e) => Err(e)
            case Ok(done) =>
              var updated := Recorded(batch, payload, done.states);
              Ok(Finalized(Store(store.revision + 1, done.items, store.batches[id := updated]),
                           updated, false, updated.receipts[payload]))
  }

  // ---------------------------------------------------------------- the store object

  /** The status file behind its lock: each method is one locked read, decide and replace. */
  class VoucherStatusStore {
    var revision: nat
    var items: map<Key, Item>
    var batches: map<BatchId, Batch>

    function Contents(): Store
      reads this
    {
      Store(revision, items, batches)
    }

    constructor ()
      ensures Contents() == EMPTY
    {
      revision, items, batches := 0, map[], map[];
    }

    method Replace(items: map<Key, Item>, batches: map<BatchId, Batch>)
      modifies this
      ensures Contents() == Store(old(revision) + 1, items, batches)
    {
      this.revision, this.items, this.batches := this.revision + 1, items, batches;
    }

    method RegisterExportBatch(batch: Batch, expectedRevision: nat) returns (error: Option<Error>)
      modifies this
      ensures match RegisterResult(old(Contents()), batch, expectedRevision)
              case Ok(after) => error == None && Contents() == after
              case Err(e) => error == Some(e) && Contents() == old(Contents())
    {
      if revision != expectedRevision { return Some(RevisionConflict); }
      if batch.id in batches {
        return if batches[batch.id].fileHash != batch.fileHash then Some(FileHashConflict) else None;
      }
      var next := items;
      for i := 0 to |batch.items|
        invariant ExportFrom(items, batch, 0) == ExportFrom(next, batch, i)
      {
        var entry := batch.items[i];
        if entry.key !in next { return Some(MissingVoucher); }
        var item := next[entry.key];
        if item.status != Approved { return Some(NotApproved); }
        if item.approvedRevision != entry.proposalRevision { return Some(RevisionChanged); }
        next := next[entry.key := Export(item, batch, entry)];
      }
      Replace(next, batches[batch.id := batch]);
      error := None;
    }

    method RecordDryRun(id: BatchId, payload: DryRun, fileNow: Option<Hash>) returns (error: Option<Error>)
      modifies this
      ensures match DryRunResult(old(Contents()), id, payload, fileNow)
              case Ok(after) => error == None && Contents() == after
              case Err(e) => error == Some(e) && Contents() == old(Contents())
    {
      if id !in batches { return Some(MissingBatch); }
      var batch := batches[id];
      if batch.state !in {Prepared, DryRunPassed, AwaitingAuthorization} { return Some(WrongState); }
      if fileNow != Some(batch.fileHash) { return Some(FileChanged); }
      if payload.fileHash != batch.fileHash || !payload.ok { return Some(DryRunMismatch); }
      if (if payload.voucherCount == 0 then -1 else payload.voucherCount) != batch.expectedCount { return Some(DryRunMismatch); }
      if payload.debit != batch.expectedDebit || payload.credit != batch.expectedCredit { return Some(DryRunMismatch); }
      var updated := batch.(revision := batch.revision + 1, state := AwaitingAuthorization,
                            audit := batch.audit + [DryRunPassedAudit(payload)]);
      Replace(items, batches[id := updated]);
      error := None;
    }

    method BeginImportBatch(id: BatchId, authorization: Authorization, fileNow: Option<Hash>) returns (error: Option<Error>)
      modifies this
      ensures match BeginResult(old(Contents()), id, authorization, fileNow)
              case Ok(after) => error == None && Contents() == after
              case Err(e) => error == Some(e) && Contents() == old(Contents())
    {
      if id !in batches { return Some(MissingBatch); }
      var batch := batches[id];
      if batch.state != AwaitingAuthorization { return Some(WrongState); }
      if fileNow != Some(batch.fileHash) { return Some(FileChanged); }
      if !AuthorizationBinds(authorization, batch) { return Some(AuthorizationMismatch); }
      var next := items;
      for i := 0 to |batch.items|
        invariant BeginFrom(items, batch, 0) == BeginFrom(next, batch, i)
      {
        var key := batch.items[i].key;
        if key !in next { return Some(MissingVoucher); }
        if next[key].status != Exported || next[key].batchId != batch.id { return Some(NotExported); }
        next := next[key := BeginItem(next[key], batch.id)];
      }
      var updated := batch.(revision := batch.revision + 1, state := Applying, authorization := Some(authorization),
                            audit := batch.audit + [AppliedAudit(authorization)]);
      Replace(next, batches[id := updated]);
      error := None;
    }

    method FinalizeImportBatch(id: BatchId, payload: Payload) returns (result: Result<(Batch, bool, Receipt), Error>)
      modifies this
      ensures match FinalizeResult(old(Contents()), id, payload)
              case Ok(f) => result == Ok((f.batch, f.idempotent, f.receipt)) && Contents() == f.store
              case Err(e) => result == Err(e) && Contents() == old(Contents())
    {
      hide CheckPayload, SettleOne, Summary;
      if id !in batches { return Err(MissingBatch); }
      var batch := batches[id];
      if payload in batch.receipts { return Ok((batch, true, batch.receipts[payload])); }
      if batch.state == Applying {
        if ModeOf(payload) !in {"apply", "reconcile_only"} { return Err(BadMode); }
      } else if batch.state in {UnknownResult, Partial} {
        if ModeOf(payload) != "reconcile_only" { return Err(BadMode); }
      } else {
        return Err(WrongState);
      }
      if payload.outcome !in {"confirmed_success", "failed_before_commit", "partial", "unknown"} { return Err(BadOutcome); }
      var observed: map<string, Observation> := map[];
      for i := 0 to |payload.items|
        invariant CollectFrom(payload.items, 0, map[]) == CollectFrom(payload.items, i, observed)
      {
        var key := Strip(payload.items[i].key);
        if key == "" { return Err(BlankKey); }
        if key in observed { return Err(DuplicateKey); }
        observed := observed[key := payload.items[i]];
      }
      var problem := CheckPayload(batch, payload, observed);
      if problem.Some? { return Err(problem.value); }
      var next, states: seq<Status> := items, [];
      for i := 0 to |batch.items|
        invariant SettleFrom(Settlement(items, []), batch, payload, observed, 0)
               == SettleFrom(Settlement(next, states), batch, payload, observed, i)
      {
        var entry := batch.items[i];
        if entry.key !in next { return Err(MissingVoucher); }
        var settled := SettleOne(next[entry.key], batch.id, entry, payload, Lookup(observed, entry.key));
        if settled.Err? { return Err(settled.error); }
        next, states := next[entry.key := settled.value], states + [settled.value.status];
      }
      var updated := Recorded(batch, payload, states);
      Replace(next, batches[id := updated]);
      result := Ok((updated, false, updated.receipts[payload]));
    }
  }
}
