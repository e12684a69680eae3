/** What every run of the batch operations keeps, and what no run can undo. */
module BatchRuns {
  import opened Results
  import opened Text
  import opened Batches

  // ---------------------------------------------------------------- runs

  datatype Op =
    | Register(batch: Batch, expectedRevision: nat)
    | RecordDryRun(id: BatchId, dryRun: DryRun, fileNow: Option<Hash>)
    | Begin(id: BatchId, authorization: Authorization, fileNow: Option<Hash>)
    | Finalize(id: BatchId, payload: Payload)
    | EditVoucher(key: Key, item: Item)

  predicate Editable(status: Status) { status in {Draft, Blocked, ReviewPending, Rejected} }

  /** Merging drafts, saving a decision and reviewing only touch vouchers that are still editable. */
  predicate EditAllowed(store: Store, key: Key, item: Item) {
    && (key in store.items ==> Editable(store.items[key].status))
    && item.status in {Draft, ReviewPending, Approved, Rejected}
  }

  /** One operation; a rejected operation leaves the store alone. */
  function Step(store: Store, op: Op): Store {
    match op
    case Register(batch, expected) =>
      if !Fresh(batch) then store
      else (match RegisterResult(store, batch, expected) case Ok(after) => after case Err(_) => store)
    case RecordDryRun(id, dryRun, fileNow) =>
      (match DryRunResult(store, id, dryRun, fileNow) case Ok(after) => after case Err(_) => store)
    case Begin(id, authorization, fileNow) =>
      (match BeginResult(store, id, authorization, fileNow) case Ok(after) => after case Err(_) => store)
    case Finalize(id, payload) =>
      (match FinalizeResult(store, id, payload) case Ok(f) => f.store case Err(_) => store)
    case EditVoucher(key, item) =>
      if EditAllowed(store, key, item) then Store(store.revision + 1, store.items[key := item], store.batches) else store
  }

  function Run(store: Store, ops: seq<Op>): Store
    decreases |ops|
  {
    if ops == [] then store else Run(Step(store, ops[0]), ops[1..])
  }

  // ---------------------------------------------------------------- the invariant

  predicate DistinctKeys(batch: Batch) {
    forall i, j :: 0 <= i < j < |batch.items| ==> batch.items[i].key != batch.items[j].key
  }

  predicate Owns(items: map<Key, Item>, batch: Batch) {
    forall i :: 0 <= i < |batch.items| ==>
      batch.items[i].key in items && items[batch.items[i].key].batchId == batch.id
  }

  function StatesOf(items: map<Key, Item>, batch: Batch): seq<Status>
    requires Owns(items, batch)
  {
    seq(|batch.items|, i requires 0 <= i < |batch.items| => items[batch.items[i].key].status)
  }

  predicate AllAre(states: seq<Status>, status: Status) {
    forall i :: 0 <= i < |states| ==> states[i] == status
  }

  predicate AllObserved(states: seq<Status>) {
    forall i :: 0 <= i < |states| ==> Settled(states[i]) || states[i] == ImportUnknown
  }

  /** The batch state is an exact summary of the states of its vouchers. */
  predicate StateSummarises(state: BatchState, states: seq<Status>) {
    match state
    case Prepared => AllAre(states, Exported)
    case DryRunPassed => AllAre(states, Exported)
    case AwaitingAuthorization => AllAre(states, Exported)
    case Applying => AllAre(states, Importing)
    case Observed => false
    case Reconciled => AllAre(states, Imported)
    case FailedBeforeCommit => AllAre(states, FailedConfirmed)
    case UnknownResult => AllAre(states, ImportUnknown)
    case Partial => AllObserved(states) && !AllAre(states, Imported) && !AllAre(states, FailedConfirmed) && !AllAre(states, ImportUnknown)
  }

  predicate ReadBack(payload: Payload) { Strip(payload.evidence.readback) != "" }

  /** The payload read this voucher back from the ledger as imported, with this number. */
  predicate JustifiesImport(payload: Payload, entry: BatchItem, voucherNo: string) {
    && ReadBack(payload) && Strip(voucherNo) != ""
    && exists i :: 0 <= i < |payload.items| && Strip(payload.items[i].key) == entry.key
                   && payload.items[i].state == "imported" && payload.items[i].signature == entry.signature
                   && payload.items[i].voucherNo == Some(voucherNo)
  }

  predicate AbsenceRead(payload: Payload, key: Key) {
    && ReadBack(payload) && payload.evidence.absenceConfirmed
    && exists i :: 0 <= i < |payload.items| && Strip(payload.items[i].key) == key
                   && payload.items[i].state == "import_failed_confirmed"
  }

  /** The payload proves this voucher never reached the ledger: either it was read back as absent, or
      it settles a first attempt in which nothing was committed. */
  predicate JustifiesFailure(payload: Payload, key: Key, lastAudit: ItemAudit) {
    || AbsenceRead(payload, key)
    || (payload.evidence.commitNotAttempted && payload.items == [] && ModeOf(payload) == "apply" && lastAudit.before == Importing)
  }

  predicate EvidenceKept(item: Item, entry: BatchItem, batch: Batch) {
    && (item.status in {Imported, FailedConfirmed, ImportUnknown} ==>
          item.lastObservation.Some? && item.lastObservation.value in batch.receipts && item.audit != [])
    && (item.status == Imported ==> JustifiesImport(item.lastObservation.value, entry, item.voucherNo))
    && (item.status == FailedConfirmed ==>
          JustifiesFailure(item.lastObservation.value, entry.key, item.audit[|item.audit| - 1]))
  }

  /** A batch has an authorization once it began, and it names exactly this file, ledger and period. */
  predicate AuthorizationKept(batch: Batch) {
    if batch.state in {Prepared, DryRunPassed, AwaitingAuthorization}
    then batch.authorization == None && batch.receipts == map[]
    else
      && batch.authorization.Some?
      && var a := batch.authorization.value;
         && a.batchId == batch.id && a.fileHash == batch.fileHash && a.ledger == batch.ledger && a.period == batch.period
         && Strip(a.command) != "" && Strip(a.authorizedBy) != ""
  }

  predicate BatchKept(items: map<Key, Item>, batch: Batch) {
    && AuthorizationKept(batch)
    && batch.items != [] && DistinctKeys(batch) && Owns(items, batch)
    && StateSummarises(batch.state, StatesOf(items, batch))
    && (forall i :: 0 <= i < |batch.items| ==> EvidenceKept(items[batch.items[i].key], batch.items[i], batch))
    && (forall payload :: payload in batch.receipts ==>
          batch.receipts[payload].payload == payload && batch.receipts[payload].batchId == batch.id)
  }

  predicate InBatch(store: Store, key: Key, id: BatchId) {
    id in store.batches && exists i :: 0 <= i < |store.batches[id].items| && store.batches[id].items[i].key == key
  }

  predicate Launched(status: Status) { status in {Exported, Importing, Imported, FailedConfirmed, ImportUnknown} }

  predicate Inv(store: Store) {
    && (forall id :: id in store.batches ==> store.batches[id].id == id && BatchKept(store.items, store.batches[id]))
    && (forall key :: key in store.items && Launched(store.items[key].status) ==> InBatch(store, key, store.items[key].batchId))
  }

  /** A voucher belongs to at most one registered batch, and appears in it once. */
  lemma OneBatchPerVoucher(store: Store, a: BatchId, i: nat, b: BatchId, j: nat)
    requires Inv(store) && a in store.batches && b in store.batches
    requires i < |store.batches[a].items| && j < |store.batches[b].items|
    requires store.batches[a].items[i].key == store.batches[b].items[j].key
    ensures a == b && i == j
  {
    assert BatchKept(store.items, store.batches[a]) && BatchKept(store.items, store.batches[b]);
  }

  // ---------------------------------------------------------------- what one loop over a batch does

  predicate Among(batch: Batch, i: nat, key: Key) {
    exists j :: i <= j < |batch.items| && batch.items[j].key == key
  }

  /** `after` differs from `before` only at the keys of the entries from `i` on. */
  predicate OnlyEntriesFrom(before: map<Key, Item>, after: map<Key, Item>, batch: Batch, i: nat) {
    && after.Keys == before.Keys
    && forall key :: key in before && !Among(batch, i, key) ==> after[key] == before[key]
  }

  lemma {:induction false} ExportLoop(items: map<Key, Item>, batch: Batch, i: nat)
    requires i <= |batch.items| && ExportFrom(items, batch, i).Ok?
    ensures var after := ExportFrom(items, batch, i).value;
            && OnlyEntriesFrom(items, after, batch, i)
            && (forall j :: i <= j < |batch.items| ==>
                  var entry := batch.items[j];
                  && entry.key in items && items[entry.key].status == Approved
                  && after[entry.key] == Export(items[entry.key], batch, entry))
            && (forall j, k :: i <= j < k < |batch.items| ==> batch.items[j].key != batch.items[k].key)
    decreases |batch.items| - i
  {
    hide OnlyEntriesFrom;
    if i < |batch.items| {
      var entry := batch.items[i];
      var next := items[entry.key := Export(items[entry.key], batch, entry)];
      ExportLoop(next, batch, i + 1);
      assert forall j :: i < j < |batch.items| ==> batch.items[j].key != entry.key;
      OneMoreEntry(items, next, ExportFrom(next, batch, i + 1).value, batch, i);
    } else {
      NoEntries(items, batch, i);
    }
  }

  lemma {:induction false} BeginLoop(items: map<Key, Item>, batch: Batch, i: nat)
    requires i <= |batch.items| && BeginFrom(items, batch, i).Ok? && DistinctKeys(batch)
    ensures var after := BeginFrom(items, batch, i).value;
            && OnlyEntriesFrom(items, after, batch, i)
            && (forall j :: i <= j < |batch.items| ==>
                  var key := batch.items[j].key;
                  key in items && items[key].status == Exported && after[key] == BeginItem(items[key], batch.id))
    decreases |batch.items| - i
  {
    hide OnlyEntriesFrom;
    if i < |batch.items| {
      var key := batch.items[i].key;
      var next := items[key := BeginItem(items[key], batch.id)];
      BeginLoop(next, batch, i + 1);
      OneMoreEntry(items, next, BeginFrom(next, batch, i + 1).value, batch, i);
    } else {
      NoEntries(items, batch, i);
    }
  }

  lemma {:induction false} BeginLoopSucceeds(items: map<Key, Item>, batch: Batch, i: nat)
    requires i <= |batch.items| && DistinctKeys(batch) && Owns(items, batch)
    requires forall j :: i <= j < |batch.items| ==> items[batch.items[j].key].status == Exported
    ensures BeginFrom(items, batch, i).Ok?
    decreases |batch.items| - i
  {
    if i < |batch.items| {
      var key := batch.items[i].key;
      BeginLoopSucceeds(items[key := BeginItem(items[key], batch.id)], batch, i + 1);
    }
  }

  lemma {:induction false} SettleLoop(
    done: Settlement, batch: Batch, payload: Payload, observed: map<string, Observation>, i: nat)
    requires i <= |batch.items| && DistinctKeys(batch)
    requires SettleFrom(done, batch, payload, observed, i).Ok?
    ensures var after := SettleFrom(done, batch, payload, observed, i).value;
            && OnlyEntriesFrom(done.items, after.items, batch, i)
            && |after.states| == |done.states| + |batch.items| - i && done.states <= after.states
            && (forall j :: i <= j < |batch.items| ==>
                  var entry := batch.items[j];
                  && entry.key in done.items
                  && SettleOne(done.items[entry.key], batch.id, entry, payload, Lookup(observed, entry.key)) == Ok(after.items[entry.key])
                  && after.states[|done.states| + j - i] == after.items[entry.key].status)
    decreases |batch.items| - i
  {
    hide SettleOne, Lookup, OnlyEntriesFrom;
    if i < |batch.items| {
      var entry := batch.items[i];
      var item := SettleOne(done.items[entry.key], batch.id, entry, payload, Lookup(observed, entry.key)).value;
      var next := Settlement(done.items[entry.key := item], done.states + [item.status]);
      SettleLoop(next, batch, payload, observed, i + 1);
      var after := SettleFrom(next, batch, payload, observed, i + 1).value;
      OneMoreEntry(done.items, next.items, after.items, batch, i);
      assert after.states[|done.states|] == next.states[|done.states|] == item.status;
      forall j | i <= j < |batch.items|
        ensures batch.items[j].key in done.items
        ensures SettleOne(done.items[batch.items[j].key], batch.id, batch.items[j], payload, Lookup(observed, batch.items[j].key))
             == Ok(after.items[batch.items[j].key])
        ensures after.states[|done.states| + j - i] == after.items[batch.items[j].key].status {
        if j > i { assert batch.items[j].key != entry.key && |next.states| + j - (i + 1) == |done.states| + j - i; }
      }
    } else {
      NoEntries(done.items, batch, i);
    }
  }

  lemma NoEntries(items: map<Key, Item>, batch: Batch, i: nat)
    ensures OnlyEntriesFrom(items, items, batch, i)
  {
  }

  /** One entry changed, then only later ones: the entry keeps its change, the rest is as before. */
  lemma OneMoreEntry(before: map<Key, Item>, next: map<Key, Item>, after: map<Key, Item>, batch: Batch, i: nat)
    requires i < |batch.items| && !Among(batch, i + 1, batch.items[i].key) && batch.items[i].key in before
    requires next.Keys == before.Keys && (forall key :: key in before && key != batch.items[i].key ==> next[key] == before[key])
    requires OnlyEntriesFrom(next, after, batch, i + 1)
    ensures OnlyEntriesFrom(before, after, batch, i) && after[batch.items[i].key] == next[batch.items[i].key]
  {
    forall key | key in before && !Among(batch, i, key) ensures after[key] == before[key] {
      assert key != batch.items[i].key;
      assert !Among(batch, i + 1, key);
    }
  }

  lemma {:induction false} CollectKeepsOrigin(observations: seq<Observation>, i: nat, seen: map<string, Observation>)
    requires i <= |observations| && CollectFrom(observations, i, seen).Ok?
    requires forall key :: key in seen ==> exists j :: 0 <= j < i && Strip(observations[j].key) == key && observations[j] == seen[key]
    ensures var all := CollectFrom(observations, i, seen).value;
            && (forall key :: key in all ==> exists j :: 0 <= j < |observations| && Strip(observations[j].key) == key && observations[j] == all[key])
            && seen.Keys <= all.Keys && (i < |observations| ==> all.Keys != {})
    decreases |observations| - i
  {
    if i < |observations| {
      CollectKeepsOrigin(observations, i + 1, seen[Strip(observations[i].key) := observations[i]]);
    }
  }

  // ---------------------------------------------------------------- every operation keeps the invariant

  /** Batches whose vouchers are untouched stay as they were. */
  lemma FrameBatch(before: map<Key, Item>, after: map<Key, Item>, batch: Batch)
    requires BatchKept(before, batch)
    requires forall i :: 0 <= i < |batch.items| ==> batch.items[i].key in after && after[batch.items[i].key] == before[batch.items[i].key]
    ensures BatchKept(after, batch)
  {
    hide EvidenceKept, StateSummarises;
    assert StatesOf(after, batch) == StatesOf(before, batch);
  }

  lemma LaunchedInBatch(items: map<Key, Item>, batch: Batch, i: nat)
    requires BatchKept(items, batch) && i < |batch.items|
    ensures batch.items[i].key in items && items[batch.items[i].key].batchId == batch.id
    ensures Launched(items[batch.items[i].key].status)
  {
    var states := StatesOf(items, batch);
    assert states[i] == items[batch.items[i].key].status;
  }

  /** The other batches and the other vouchers after the vouchers of one batch were updated. */
  lemma FrameStore(store: Store, items: map<Key, Item>, updated: Batch)
    requires Inv(store) && updated.id in store.batches && updated.items == store.batches[updated.id].items
    requires OnlyEntriesFrom(store.items, items, updated, 0)
    requires BatchKept(items, updated)
    ensures Inv(Store(store.revision + 1, items, store.batches[updated.id := updated]))
  {
    hide EvidenceKept, StateSummarises;
    var after := Store(store.revision + 1, items, store.batches[updated.id := updated]);
    forall id | id in after.batches ensures after.batches[id].id == id && BatchKept(items, after.batches[id]) {
      if id != updated.id {
        var other := store.batches[id];
        forall i | 0 <= i < |other.items| ensures other.items[i].key in items && items[other.items[i].key] == store.items[other.items[i].key] {
          assert BatchKept(store.items, store.batches[updated.id]);
          assert !Among(updated, 0, other.items[i].key);
        }
        FrameBatch(store.items, items, other);
      }
    }
    forall key | key in items && Launched(items[key].status) ensures InBatch(after, key, items[key].batchId) {
      if Among(updated, 0, key) {
        var j :| 0 <= j < |updated.items| && updated.items[j].key == key;
      } else {
        assert InBatch(store, key, items[key].batchId);
      }
    }
  }

  /** An update that only touches vouchers not yet exported leaves every batch as it was. */
  lemma LaunchedVouchersStay(store: Store, items: map<Key, Item>)
    requires Inv(store)
    requires forall key :: key in store.items && Launched(store.items[key].status) ==> key in items && items[key] == store.items[key]
    ensures forall id :: id in store.batches ==> BatchKept(items, store.batches[id])
  {
    hide EvidenceKept, StateSummarises;
    forall id | id in store.batches ensures BatchKept(items, store.batches[id]) {
      var batch := store.batches[id];
      forall i | 0 <= i < |batch.items| ensures batch.items[i].key in items && items[batch.items[i].key] == store.items[batch.items[i].key] {
        LaunchedInBatch(store.items, batch, i);
      }
      FrameBatch(store.items, items, batch);
    }
  }

  lemma RegisteredBatchIsKept(items: map<Key, Item>, batch: Batch)
    requires Fresh(batch) && ExportFrom(items, batch, 0).Ok?
    ensures BatchKept(ExportFrom(items, batch, 0).value, batch)
  {
    hide EvidenceKept, ExportFrom;
    ExportLoop(items, batch, 0);
    var after := ExportFrom(items, batch, 0).value;
    forall i | 0 <= i < |batch.items| ensures EvidenceKept(after[batch.items[i].key], batch.items[i], batch) {
      NothingObservedYet(after[batch.items[i].key], batch.items[i], batch);
    }
  }

  lemma RegisterKeepsInv(store: Store, batch: Batch, expected: nat)
    requires Inv(store) && Fresh(batch) && RegisterResult(store, batch, expected).Ok?
    ensures Inv(RegisterResult(store, batch, expected).value)
  {
    hide BatchKept, ExportFrom;
    var after := RegisterResult(store, batch, expected).value;
    if batch.id !in store.batches {
      ExportLoop(store.items, batch, 0);
      RegisteredBatchIsKept(store.items, batch);
      LaunchedVouchersStay(store, after.items);
      forall key | key in after.items && Launched(after.items[key].status) ensures InBatch(after, key, after.items[key].batchId) {
        if Among(batch, 0, key) { EntryIsInBatch(after, batch, key); } else { OlderIsInBatch(store, after, key); }
      }
    }
  }

  lemma EntryIsInBatch(after: Store, batch: Batch, key: Key)
    requires Among(batch, 0, key) && batch.id in after.batches && after.batches[batch.id] == batch
    ensures InBatch(after, key, batch.id)
  {
    var j :| 0 <= j < |batch.items| && batch.items[j].key == key;
    assert after.batches[batch.id].items[j].key == key;
  }

  lemma OlderIsInBatch(before: Store, after: Store, key: Key)
    requires Inv(before) && key in before.items && Launched(before.items[key].status)
    requires forall id :: id in before.batches ==> id in after.batches && after.batches[id] == before.batches[id]
    ensures InBatch(after, key, before.items[key].batchId)
  {
    hide BatchKept;
    var id := before.items[key].batchId;
    assert InBatch(before, key, id);
    var i :| 0 <= i < |before.batches[id].items| && before.batches[id].items[i].key == key;
    assert after.batches[id].items[i].key == key;
  }

  lemma NothingObservedYet(item: Item, entry: BatchItem, batch: Batch)
    requires item.status == Exported || item.status == Importing
    ensures EvidenceKept(item, entry, batch)
  {
  }

  lemma DryRunKeepsInv(store: Store, id: BatchId, dryRun: DryRun, fileNow: Option<Hash>)
    requires Inv(store) && DryRunResult(store, id, dryRun, fileNow).Ok?
    ensures Inv(DryRunResult(store, id, dryRun, fileNow).value)
  {
    var batch := store.batches[id];
    var updated := DryRunResult(store, id, dryRun, fileNow).value.batches[id];
    assert StatesOf(store.items, updated) == StatesOf(store.items, batch);
    forall i | 0 <= i < |updated.items| ensures EvidenceKept(store.items[updated.items[i].key], updated.items[i], updated) {
      assert EvidenceKept(store.items[batch.items[i].key], batch.items[i], batch);
    }
    FrameStore(store, store.items, updated);
  }

  function Begun(batch: Batch, authorization: Authorization): Batch {
    batch.(revision := batch.revision + 1, state := Applying, authorization := Some(authorization),
           audit := batch.audit + [AppliedAudit(authorization)])
  }

  lemma BegunBatchIsKept(items: map<Key, Item>, batch: Batch, authorization: Authorization)
    requires BatchKept(items, batch) && BeginFrom(items, batch, 0).Ok? && AuthorizationBinds(authorization, batch)
    ensures BatchKept(BeginFrom(items, batch, 0).value, Begun(batch, authorization))
  {
    hide EvidenceKept, BeginFrom;
    BeginLoop(items, batch, 0);
    var after := BeginFrom(items, batch, 0).value;
    forall i | 0 <= i < |batch.items| ensures EvidenceKept(after[batch.items[i].key], batch.items[i], Begun(batch, authorization)) {
      NothingObservedYet(after[batch.items[i].key], batch.items[i], Begun(batch, authorization));
    }
  }

  lemma BeginKeepsInv(store: Store, id: BatchId, authorization: Authorization, fileNow: Option<Hash>)
    requires Inv(store) && BeginResult(store, id, authorization, fileNow).Ok?
    ensures Inv(BeginResult(store, id, authorization, fileNow).value)
  {
    hide BatchKept, AuthorizationBinds, BeginFrom;
    var batch := store.batches[id];
    var after := BeginResult(store, id, authorization, fileNow).value;
    var updated := Begun(batch, authorization);
    BegunBatchIsKept(store.items, batch, authorization);
    assert DistinctKeys(batch) by { KeptKeysAreDistinct(store.items, batch); }
    BeginLoop(store.items, batch, 0);
    assert OnlyEntriesFrom(store.items, after.items, updated, 0) by {
      assert forall key :: Among(updated, 0, key) == Among(batch, 0, key);
    }
    FrameStore(store, after.items, updated);
  }

  lemma KeptKeysAreDistinct(items: map<Key, Item>, batch: Batch)
    requires BatchKept(items, batch)
    ensures DistinctKeys(batch)
  {
  }

  /** One voucher after a finalize that passed the checks: settled or unknown, with its evidence. */
  lemma SettledWithEvidence(
    item: Item, entry: BatchItem, batch: Batch, payload: Payload, observed: map<string, Observation>, states: seq<Status>)
    requires CollectFrom(payload.items, 0, map[]) == Ok(observed)
    requires CheckPayload(batch, payload, observed) == None
    requires payload.outcome in {"confirmed_success", "failed_before_commit", "partial", "unknown"}
    requires entry.key in BatchKeys(batch) && EvidenceKept(item, entry, batch)
    requires batch.state == Applying ==> item.status == Importing
    requires SettleOne(item, batch.id, entry, payload, Lookup(observed, entry.key)).Ok?
    ensures var after := SettleOne(item, batch.id, entry, payload, Lookup(observed, entry.key)).value;
            && (Settled(after.status) || after.status == ImportUnknown)
            && (Settled(item.status) ==> after == item)
            && after.batchId == item.batchId
            && EvidenceKept(after, entry, Recorded(batch, payload, states))
  {
    hide CollectFrom, CheckPayload, JustifiesImport, JustifiesFailure;
    var after := SettleOne(item, batch.id, entry, payload, Lookup(observed, entry.key)).value;
    if !Settled(item.status) {
      if after.status == Imported {
        ImportIsJustified(item, entry, batch, payload, observed);
      } else if after.status == FailedConfirmed {
        FailureIsJustified(item, entry, batch, payload, observed);
      }
    }
  }

  lemma ImportIsJustified(item: Item, entry: BatchItem, batch: Batch, payload: Payload, observed: map<string, Observation>)
    requires CollectFrom(payload.items, 0, map[]) == Ok(observed)
    requires CheckPayload(batch, payload, observed) == None && !Settled(item.status)
    requires SettleOne(item, batch.id, entry, payload, Lookup(observed, entry.key)).Ok?
    requires SettleOne(item, batch.id, entry, payload, Lookup(observed, entry.key)).value.status == Imported
    ensures JustifiesImport(payload, entry, SettleOne(item, batch.id, entry, payload, Lookup(observed, entry.key)).value.voucherNo)
  {
    hide CollectFrom;
    CollectKeepsOrigin(payload.items, 0, map[]);
    StripOfNothing();
    assert entry.key in observed;
    assert observed[entry.key].state == "imported";
  }

  lemma StripOfNothing()
    ensures Strip("") == ""
  {
  }

  /** What an accepted payload must bring to speak of failures. */
  lemma FailureEvidence(batch: Batch, payload: Payload, observed: map<string, Observation>)
    requires CheckPayload(batch, payload, observed) == None
    ensures FailedKeys(observed) != {} ==> Strip(payload.evidence.readback) != "" && payload.evidence.absenceConfirmed
    ensures payload.outcome == "failed_before_commit" ==>
              || (batch.state == Applying && ModeOf(payload) == "apply" && payload.evidence.commitNotAttempted && observed == map[])
              || FailedKeys(observed) == BatchKeys(batch)
  {
  }

  lemma FailureIsJustified(item: Item, entry: BatchItem, batch: Batch, payload: Payload, observed: map<string, Observation>)
    requires CollectFrom(payload.items, 0, map[]) == Ok(observed)
    requires CheckPayload(batch, payload, observed) == None && !Settled(item.status)
    requires batch.state == Applying ==> item.status == Importing
    requires entry.key in BatchKeys(batch)
    requires SettleOne(item, batch.id, entry, payload, Lookup(observed, entry.key)).Ok?
    requires SettleOne(item, batch.id, entry, payload, Lookup(observed, entry.key)).value.status == FailedConfirmed
    ensures var after := SettleOne(item, batch.id, entry, payload, Lookup(observed, entry.key)).value;
            JustifiesFailure(payload, entry.key, after.audit[|after.audit| - 1])
  {
    hide CollectFrom, CheckPayload;
    FailureEvidence(batch, payload, observed);
    CollectKeepsOrigin(payload.items, 0, map[]);
    if entry.key in FailedKeys(observed) {
      assert observed[entry.key].state == "import_failed_confirmed";
    } else {
      assert payload.outcome == "failed_before_commit";
      assert FailedKeys(observed) != BatchKeys(batch);
    }
  }

  lemma SummaryIsExact(states: seq<Status>)
    requires states != [] && AllObserved(states)
    ensures StateSummarises(Summary(states), states)
    ensures Summary(states) in {Reconciled, FailedBeforeCommit, UnknownResult, Partial}
  {
  }

  /** The vouchers of a batch after a finalize that recorded something. */
  lemma FinalizedVouchers(items: map<Key, Item>, batch: Batch, payload: Payload, observed: map<string, Observation>)
    requires BatchKept(items, batch)
    requires CollectFrom(payload.items, 0, map[]) == Ok(observed) && CheckPayload(batch, payload, observed) == None
    requires payload.outcome in {"confirmed_success", "failed_before_commit", "partial", "unknown"}
    requires SettleFrom(Settlement(items, []), batch, payload, observed, 0).Ok?
    ensures var done := SettleFrom(Settlement(items, []), batch, payload, observed, 0).value;
            var updated := Recorded(batch, payload, done.states);
            && OnlyEntriesFrom(items, done.items, batch, 0)
            && |done.states| == |batch.items| && AllObserved(done.states)
            && (forall i :: 0 <= i < |batch.items| ==>
                  var key := batch.items[i].key;
                  && key in items && (Settled(items[key].status) ==> done.items[key] == items[key])
                  && done.items[key].batchId == batch.id && done.items[key].status == done.states[i]
                  && items[key].audit <= done.items[key].audit
                  && EvidenceKept(done.items[key], batch.items[i], updated))
  {
    hide EvidenceKept, CheckPayload, SettleOne, CollectFrom, Summary, OnlyEntriesFrom, AllObserved, SettleFrom, Recorded, BatchKept, Lookup;
    var start := Settlement(items, []);
    KeptKeysAreDistinct(items, batch);
    SettleLoop(start, batch, payload, observed, 0);
    var done := SettleFrom(start, batch, payload, observed, 0).value;
    SameVouchers(items, done.items, batch);
    forall i | 0 <= i < |batch.items|
      ensures var key := batch.items[i].key;
              && key in items && (Settled(items[key].status) ==> done.items[key] == items[key])
              && done.items[key].batchId == batch.id && done.items[key].status == done.states[i]
              && items[key].audit <= done.items[key].audit
              && EvidenceKept(done.items[key], batch.items[i], Recorded(batch, payload, done.states))
              && (Settled(done.states[i]) || done.states[i] == ImportUnknown)
    {
      var entry := batch.items[i];
      FinalizedVoucher(items, batch, payload, observed, done.states, i);
      SettlingExtendsAudit(items[entry.key], batch.id, entry, payload, Lookup(observed, entry.key));
    }
    ObservedStates(done.states);
  }

  lemma SettlingExtendsAudit(item: Item, id: BatchId, entry: BatchItem, payload: Payload, observation: Option<Observation>)
    requires SettleOne(item, id, entry, payload, observation).Ok?
    ensures item.audit <= SettleOne(item, id, entry, payload, observation).value.audit
  {
  }

  lemma SameVouchers(before: map<Key, Item>, after: map<Key, Item>, batch: Batch)
    requires OnlyEntriesFrom(before, after, batch, 0)
    ensures after.Keys == before.Keys
  {
  }

  lemma ObservedStates(states: seq<Status>)
    requires forall i :: 0 <= i < |states| ==> Settled(states[i]) || states[i] == ImportUnknown
    ensures AllObserved(states)
  {
  }

  lemma FinalizedVoucher(
    items: map<Key, Item>, batch: Batch, payload: Payload, observed: map<string, Observation>, states: seq<Status>, i: nat)
    requires BatchKept(items, batch) && i < |batch.items| && batch.items[i].key in items
    requires CollectFrom(payload.items, 0, map[]) == Ok(observed) && CheckPayload(batch, payload, observed) == None
    requires payload.outcome in {"confirmed_success", "failed_before_commit", "partial", "unknown"}
    requires SettleOne(items[batch.items[i].key], batch.id, batch.items[i], payload, Lookup(observed, batch.items[i].key)).Ok?
    ensures var entry := batch.items[i];
            var item := items[entry.key];
            var after := SettleOne(item, batch.id, entry, payload, Lookup(observed, entry.key)).value;
            && (Settled(item.status) ==> after == item) && after.batchId == batch.id
            && (Settled(after.status) || after.status == ImportUnknown)
            && EvidenceKept(after, entry, Recorded(batch, payload, states))
  {
    hide EvidenceKept, CheckPayload, SettleOne, CollectFrom, Recorded, Lookup;
    var entry := batch.items[i];
    assert EvidenceKept(items[entry.key], entry, batch);
    assert StatesOf(items, batch)[i] == items[entry.key].status;
    assert entry in batch.items;
    SettledWithEvidence(items[entry.key], entry, batch, payload, observed, states);
  }

  lemma FinalizedBatchIsKept(items: map<Key, Item>, batch: Batch, payload: Payload, observed: map<string, Observation>)
    requires BatchKept(items, batch) && batch.state in {Applying, UnknownResult, Partial}
    requires CollectFrom(payload.items, 0, map[]) == Ok(observed) && CheckPayload(batch, payload, observed) == None
    requires payload.outcome in {"confirmed_success", "failed_before_commit", "partial", "unknown"}
    requires SettleFrom(Settlement(items, []), batch, payload, observed, 0).Ok?
    ensures var done := SettleFrom(Settlement(items, []), batch, payload, observed, 0).value;
            BatchKept(done.items, Recorded(batch, payload, done.states))
  {
    hide EvidenceKept, CheckPayload, SettleFrom, CollectFrom, Summary, StateSummarises, AllObserved;
    FinalizedVouchers(items, batch, payload, observed);
    var done := SettleFrom(Settlement(items, []), batch, payload, observed, 0).value;
    var updated := Recorded(batch, payload, done.states);
    assert StatesOf(done.items, updated) == done.states;
    SummaryIsExact(done.states);
  }

  lemma FinalizeKeepsInv(store: Store, id: BatchId, payload: Payload)
    requires Inv(store) && FinalizeResult(store, id, payload).Ok?
    ensures Inv(FinalizeResult(store, id, payload).value.store)
  {
    hide BatchKept, CheckPayload, SettleFrom, CollectFrom, Summary, InBatch, Launched;
    var batch := store.batches[id];
    if payload !in batch.receipts {
      var observed := CollectFrom(payload.items, 0, map[]).value;
      FinalizedBatchIsKept(store.items, batch, payload, observed);
      FinalizedVouchers(store.items, batch, payload, observed);
      var done := SettleFrom(Settlement(store.items, []), batch, payload, observed, 0).value;
      var updated := Recorded(batch, payload, done.states);
      assert OnlyEntriesFrom(store.items, done.items, updated, 0) by {
        assert forall key :: Among(updated, 0, key) == Among(batch, 0, key);
      }
      FrameStore(store, done.items, updated);
    }
  }

  lemma EditKeepsInv(store: Store, key: Key, item: Item)
    requires Inv(store) && EditAllowed(store, key, item)
    ensures Inv(Store(store.revision + 1, store.items[key := item], store.batches))
  {
    hide EvidenceKept, StateSummarises;
    var after := Store(store.revision + 1, store.items[key := item], store.batches);
    LaunchedVouchersStay(store, after.items);
    forall k | k in after.items && Launched(after.items[k].status) ensures InBatch(after, k, after.items[k].batchId) {
      assert InBatch(store, k, after.items[k].batchId);
    }
  }

  lemma StepKeepsInv(store: Store, op: Op)
    requires Inv(store)
    ensures Inv(Step(store, op))
  {
    hide Inv, RegisterResult, DryRunResult, BeginResult, FinalizeResult;
    match op {
      case Register(batch, expected) =>
        if Fresh(batch) && RegisterResult(store, batch, expected).Ok? { RegisterKeepsInv(store, batch, expected); }
      case RecordDryRun(id, dryRun, fileNow) =>
        if DryRunResult(store, id, dryRun, fileNow).Ok? { DryRunKeepsInv(store, id, dryRun, fileNow); }
      case Begin(id, authorization, fileNow) =>
        if BeginResult(store, id, authorization, fileNow).Ok? { BeginKeepsInv(store, id, authorization, fileNow); }
      case Finalize(id, payload) =>
        if FinalizeResult(store, id, payload).Ok? { FinalizeKeepsInv(store, id, payload); }
      case EditVoucher(key, item) =>
        if EditAllowed(store, key, item) { EditKeepsInv(store, key, item); }
    }
  }

  /** Every reachable store satisfies the invariant. */
  lemma {:induction false} RunKeepsInv(store: Store, ops: seq<Op>)
    requires Inv(store)
    ensures Inv(Run(store, ops))
    decreases |ops|
  {
    hide Inv, Step;
    if ops != [] {
      StepKeepsInv(store, ops[0]);
      RunKeepsInv(Step(store, ops[0]), ops[1..]);
    }
  }
}
