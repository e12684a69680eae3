/** What each operation on a batch accepts and what it leaves, exactly, told by its arguments alone. */
module BatchOutcomes {
  import opened Results
  import opened Text
  import opened Batches
  import opened BatchRuns

  /** One more revision; beside the batch itself and its vouchers nothing is new, gone or changed. */
  predicate OnlyBatchChanges(before: Store, after: Store, batch: Batch) {
    && after.revision == before.revision + 1
    && OnlyEntriesFrom(before.items, after.items, batch, 0)
    && after.batches.Keys == before.batches.Keys + {batch.id}
    && (forall id :: id in before.batches && id != batch.id ==> after.batches[id] == before.batches[id])
  }

  // ---------------------------------------------------------------- register

  /** Every entry names another voucher, approved in the very revision that was exported. */
  predicate CanExport(items: map<Key, Item>, batch: Batch, i: nat) {
    && (forall j, k :: i <= j < k < |batch.items| ==> batch.items[j].key != batch.items[k].key)
    && (forall j :: i <= j < |batch.items| ==>
          var entry := batch.items[j];
          entry.key in items && items[entry.key].status == Approved && items[entry.key].approvedRevision == entry.proposalRevision)
  }

  lemma {:induction false} ExportExactly(items: map<Key, Item>, batch: Batch, i: nat)
    requires i <= |batch.items|
    ensures ExportFrom(items, batch, i).Ok? <==> CanExport(items, batch, i)
    decreases |batch.items| - i
  {
    if i < |batch.items| {
      var entry := batch.items[i];
      if entry.key in items && items[entry.key].status == Approved {
        var next := items[entry.key := Export(items[entry.key], batch, entry)];
        ExportExactly(next, batch, i + 1);
        if CanExport(next, batch, i + 1) {
          forall j | i + 1 <= j < |batch.items| ensures batch.items[j].key != entry.key {
            assert next[batch.items[j].key].status == Approved;
          }
        }
      }
    }
  }

  /** Registering, exactly: a known batch must have the same file and nothing happens; a new one needs the
      expected revision, distinct vouchers, and each approved in the exported revision. */
  lemma RegisterExactly(store: Store, batch: Batch, expected: nat)
    ensures RegisterResult(store, batch, expected).Ok?
       <==> && store.revision == expected
            && (if batch.id in store.batches then store.batches[batch.id].fileHash == batch.fileHash
                else CanExport(store.items, batch, 0))
    ensures RegisterResult(store, batch, expected).Ok? && batch.id in store.batches ==>
              RegisterResult(store, batch, expected).value == store
    ensures RegisterResult(store, batch, expected).Ok? && batch.id !in store.batches ==>
              var after := RegisterResult(store, batch, expected).value;
              && OnlyBatchChanges(store, after, batch) && after.batches[batch.id] == batch
              && forall j :: 0 <= j < |batch.items| ==>
                   var entry := batch.items[j];
                   var item := store.items[entry.key];
                   after.items[entry.key]
                   == Item(Exported, entry.proposalRevision, batch.id, batch.filePath, entry.plannedNo, item.revision + 1,
                           item.lastObservation, item.audit + [ItemAudit(Approved, Exported, batch.id, None)])
  {
    ExportExactly(store.items, batch, 0);
    if ExportFrom(store.items, batch, 0).Ok? { ExportLoop(store.items, batch, 0); }
  }

  // ---------------------------------------------------------------- dry run and begin

  /** A dry run is accepted, exactly, for an unchanged file with the batch's count and totals before any
      authorization; then the batch awaits one. */
  lemma DryRunExactly(store: Store, id: BatchId, report: DryRun, fileNow: Option<Hash>)
    requires Inv(store)
    ensures DryRunResult(store, id, report, fileNow).Ok?
       <==> && id in store.batches
            && var batch := store.batches[id];
               && batch.state in {Prepared, DryRunPassed, AwaitingAuthorization}
               && fileNow == Some(batch.fileHash) && report.fileHash == batch.fileHash && report.ok
               && report.voucherCount == batch.expectedCount != 0
               && report.debit == batch.expectedDebit && report.credit == batch.expectedCredit
    ensures DryRunResult(store, id, report, fileNow).Ok? ==>
              var after := DryRunResult(store, id, report, fileNow).value;
              && OnlyBatchChanges(store, after, store.batches[id]) && after.items == store.items
              && after.batches[id].state == AwaitingAuthorization
              && after.batches[id].audit == store.batches[id].audit + [DryRunPassedAudit(report)]
              && SameFile(after.batches[id], store.batches[id])
  {
    hide BatchKept;
  }

  /** The parts of a batch that no operation changes, and its authorization and receipts. */
  predicate SameFile(a: Batch, b: Batch) {
    && a.id == b.id && a.filePath == b.filePath && a.fileHash == b.fileHash && a.ledger == b.ledger && a.period == b.period
    && a.items == b.items && a.expectedCount == b.expectedCount && a.expectedDebit == b.expectedDebit
    && a.expectedCredit == b.expectedCredit && a.revision == b.revision + 1
    && a.authorization == b.authorization && a.receipts == b.receipts
  }

  predicate CanBegin(items: map<Key, Item>, batch: Batch, i: nat) {
    forall j :: i <= j < |batch.items| ==>
      var key := batch.items[j].key; key in items && items[key].status == Exported && items[key].batchId == batch.id
  }

  lemma {:induction false} BeginLoopExactly(items: map<Key, Item>, batch: Batch, i: nat)
    requires i <= |batch.items| && DistinctKeys(batch)
    ensures BeginFrom(items, batch, i).Ok? <==> CanBegin(items, batch, i)
    decreases |batch.items| - i
  {
    if i < |batch.items| {
      var key := batch.items[i].key;
      if key in items { BeginLoopExactly(items[key := BeginItem(items[key], batch.id)], batch, i + 1); }
    }
  }

  /** An import begins, exactly, for a batch that awaits authorization, with its file unchanged and an
      authorization that names this batch, file, ledger and period and who gave it by which command. Then every
      voucher of the batch is being imported. */
  lemma BeginExactly(store: Store, id: BatchId, authorization: Authorization, fileNow: Option<Hash>)
    requires Inv(store)
    ensures BeginResult(store, id, authorization, fileNow).Ok?
       <==> && id in store.batches
            && var batch := store.batches[id];
               && batch.state == AwaitingAuthorization && fileNow == Some(batch.fileHash)
               && authorization.batchId == id && authorization.fileHash == batch.fileHash
               && authorization.ledger == batch.ledger && authorization.period == batch.period
               && Strip(authorization.command) != "" && Strip(authorization.authorizedBy) != ""
    ensures BeginResult(store, id, authorization, fileNow).Ok? ==>
              var after, batch := BeginResult(store, id, authorization, fileNow).value, store.batches[id];
              && OnlyBatchChanges(store, after, batch)
              && after.batches[id].state == Applying && after.batches[id].authorization == Some(authorization)
              && after.batches[id].audit == batch.audit + [AppliedAudit(authorization)]
              && SameFile(after.batches[id].(authorization := batch.authorization), batch)
              && forall j :: 0 <= j < |batch.items| ==>
                   var item := store.items[batch.items[j].key];
                   after.items[batch.items[j].key]
                   == item.(status := Importing, revision := item.revision + 1,
                            audit := item.audit + [ItemAudit(Exported, Importing, id, None)])
  {
    hide EvidenceKept, AuthorizationKept, BeginFrom;
    if id in store.batches {
      var batch := store.batches[id];
      assert BatchKept(store.items, batch);
      BeginLoopExactly(store.items, batch, 0);
      if batch.state == AwaitingAuthorization {
        forall j | 0 <= j < |batch.items| ensures store.items[batch.items[j].key].status == Exported {
          assert StatesOf(store.items, batch)[j] == Exported;
        }
      }
      if BeginFrom(store.items, batch, 0).Ok? { BeginLoop(store.items, batch, 0); }
    }
  }

  // ---------------------------------------------------------------- the observations of a payload

  /** The observations by their trimmed keys, none of them blank and none there twice. */
  ghost predicate Collects(observations: seq<Observation>, observed: map<string, Observation>) {
    && (forall i :: 0 <= i < |observations| ==>
          var key := Strip(observations[i].key); key != "" && key in observed && observed[key] == observations[i])
    && (forall i, j :: 0 <= i < j < |observations| ==> Strip(observations[i].key) != Strip(observations[j].key))
    && (forall key :: key in observed ==> exists i :: 0 <= i < |observations| && Strip(observations[i].key) == key)
  }

  lemma CollectedOnce(observations: seq<Observation>, a: map<string, Observation>, b: map<string, Observation>)
    requires Collects(observations, a) && Collects(observations, b)
    ensures a == b
  {
    hide Strip;
  }

  lemma CollectedMore(observations: seq<Observation>, i: nat, seen: map<string, Observation>)
    requires i < |observations| && Collects(observations[..i], seen)
    requires Strip(observations[i].key) != "" && Strip(observations[i].key) !in seen
    ensures Collects(observations[..i + 1], seen[Strip(observations[i].key) := observations[i]])
  {
    hide Strip;
    var more, all := observations[..i + 1], seen[Strip(observations[i].key) := observations[i]];
    forall key | key in all ensures exists j :: 0 <= j < |more| && Strip(more[j].key) == key {
      if key in seen {
        var j :| 0 <= j < i && Strip(observations[..i][j].key) == key;
        assert more[j] == observations[..i][j];
      } else {
        assert more[i] == observations[i];
      }
    }
    assert forall j :: 0 <= j < i ==> more[j] == observations[..i][j];
  }

  lemma CollectedPart(observations: seq<Observation>, i: nat, seen: map<string, Observation>, observed: map<string, Observation>)
    requires i < |observations| && Collects(observations[..i], seen) && Collects(observations, observed)
    ensures Strip(observations[i].key) != "" && Strip(observations[i].key) !in seen
  {
    hide Strip;
    assert forall j :: 0 <= j < i ==> Strip(observations[..i][j].key) == Strip(observations[j].key) != Strip(observations[i].key);
  }

  lemma {:induction false} CollectExactlyFrom(observations: seq<Observation>, i: nat, seen: map<string, Observation>, observed: map<string, Observation>)
    requires i <= |observations| && Collects(observations[..i], seen)
    ensures CollectFrom(observations, i, seen) == Ok(observed) <==> Collects(observations, observed)
    decreases |observations| - i
  {
    hide Strip, Collects;
    if i == |observations| {
      assert observations[..i] == observations;
      if Collects(observations, observed) { CollectedOnce(observations, seen, observed); }
    } else {
      var key := Strip(observations[i].key);
      if Collects(observations, observed) { CollectedPart(observations, i, seen, observed); }
      if key != "" && key !in seen {
        CollectedMore(observations, i, seen);
        CollectExactlyFrom(observations, i + 1, seen[key := observations[i]], observed);
      }
    }
  }

  lemma CollectExactly(observations: seq<Observation>, observed: map<string, Observation>)
    ensures CollectFrom(observations, 0, map[]) == Ok(observed) <==> Collects(observations, observed)
  {
    hide CollectFrom;
    assert observations[..0] == [];
    CollectExactlyFrom(observations, 0, map[], observed);
  }

  // ---------------------------------------------------------------- evidence

  predicate EachObserved(batch: Batch, observed: map<string, Observation>, state: string) {
    forall i :: 0 <= i < |batch.items| ==> batch.items[i].key in observed && observed[batch.items[i].key].state == state
  }

  /** The evidence that each outcome needs. */
  predicate Sufficient(batch: Batch, payload: Payload, observed: map<string, Observation>) {
    var evidence := payload.evidence;
    var readback := Strip(evidence.readback) != "";
    && (forall key :: key in observed ==> Among(batch, 0, key))
    && (payload.outcome == "confirmed_success" ==>
          readback && !evidence.commitNotAttempted && !evidence.absenceConfirmed && EachObserved(batch, observed, "imported"))
    && (payload.outcome == "failed_before_commit" ==>
          || (batch.state == Applying && payload.mode in {"", "apply"} && evidence.commitNotAttempted && observed == map[])
          || (&& payload.mode == "reconcile_only" && readback && evidence.absenceConfirmed
              && EachObserved(batch, observed, "import_failed_confirmed")))
    && (forall key :: key in observed && observed[key].state == "imported" ==> readback)
    && (forall key :: key in observed && observed[key].state == "import_failed_confirmed" ==> readback && evidence.absenceConfirmed)
  }

  lemma KeysAreEntries(batch: Batch, key: Key)
    ensures key in BatchKeys(batch) <==> Among(batch, 0, key)
  {
    if key in BatchKeys(batch) {
      var entry :| entry in batch.items && entry.key == key;
      var j :| 0 <= j < |batch.items| && batch.items[j] == entry;
    }
  }

  lemma SufficientExactly(batch: Batch, payload: Payload, observed: map<string, Observation>)
    ensures CheckPayload(batch, payload, observed) == None <==> Sufficient(batch, payload, observed)
  {
    hide Strip, BatchKeys, Among;
    forall key ensures key in BatchKeys(batch) <==> Among(batch, 0, key) { KeysAreEntries(batch, key); }
    EntriesAreAmong(batch);
    AllKeysObserved(batch, observed, "imported");
    AllKeysObserved(batch, observed, "import_failed_confirmed");
    if key :| key in observed && observed[key].state == "import_failed_confirmed" { assert key in FailedKeys(observed); }
  }

  lemma EntriesAreAmong(batch: Batch)
    ensures forall i :: 0 <= i < |batch.items| ==> Among(batch, 0, batch.items[i].key)
  {
  }

  /** Each entry is observed in a state if and only if all of the batch's keys, and no others, are. */
  lemma AllKeysObserved(batch: Batch, observed: map<string, Observation>, state: string)
    requires forall key :: key in BatchKeys(batch) <==> Among(batch, 0, key)
    ensures (observed.Keys <= BatchKeys(batch) && EachObserved(batch, observed, state))
       <==> (observed.Keys == BatchKeys(batch) && forall key :: key in observed ==> observed[key].state == state)
  {
    hide BatchKeys;
    if observed.Keys <= BatchKeys(batch) && EachObserved(batch, observed, state) {
      forall key | key in BatchKeys(batch) ensures key in observed && observed[key].state == state {
        var j :| 0 <= j < |batch.items| && batch.items[j].key == key;
      }
    }
    if observed.Keys == BatchKeys(batch) && forall key :: key in observed ==> observed[key].state == state {
      EntriesAreAmong(batch);
    }
  }

  // ---------------------------------------------------------------- one voucher

  /** What the payload says about one voucher, seen through its observation if there is one. */
  predicate Asks(payload: Payload, observation: Option<Observation>, status: Status) {
    match payload.outcome
    case "confirmed_success" => status == Imported
    case "failed_before_commit" => status == FailedConfirmed
    case "unknown" => status == ImportUnknown
    case _ =>
      || (status == Imported && observation.Some? && observation.value.state == "imported")
      || (status == FailedConfirmed && observation.Some? && observation.value.state == "import_failed_confirmed")
      || (status == ImportUnknown && (observation == None || observation.value.state in {"", "import_unknown"}))
  }

  /** The observation shows this entry's content under a number. */
  predicate Shows(observation: Option<Observation>, entry: BatchItem) {
    && observation.Some? && observation.value.signature == entry.signature
    && observation.value.voucherNo.Some? && Strip(observation.value.voucherNo.value) != ""
  }

  /** The voucher can take what the payload says: a settled one only if nothing is said about it or just what
      is known, with the number it has. */
  predicate Takes(item: Item, entry: BatchItem, payload: Payload, observation: Option<Observation>) {
    match item.status
    case Imported =>
      observation == None
      || (Asks(payload, observation, Imported) && Shows(observation, entry)
          && (item.voucherNo == "" || Strip(observation.value.voucherNo.value) == item.voucherNo))
    case FailedConfirmed => observation == None || Asks(payload, observation, FailedConfirmed)
    case Importing => TakesNew(entry, payload, observation)
    case ImportUnknown => TakesNew(entry, payload, observation)
    case _ => false
  }

  predicate TakesNew(entry: BatchItem, payload: Payload, observation: Option<Observation>) {
    || (Asks(payload, observation, Imported) && Shows(observation, entry))
    || Asks(payload, observation, FailedConfirmed) || Asks(payload, observation, ImportUnknown)
  }

  /** The voucher before and after: a settled one is as it was, any other is in the state asked for, with the
      number that was read if one was. */
  predicate Settles(before: Item, after: Item, id: BatchId, payload: Payload, observation: Option<Observation>) {
    if Settled(before.status) then after == before
    else
      && Asks(payload, observation, after.status)
      && after == before.(status := after.status, revision := before.revision + 1, lastObservation := Some(payload),
                          audit := before.audit + [ItemAudit(before.status, after.status, id, Some(payload))],
                          voucherNo := after.voucherNo)
      && after.voucherNo == if observation.Some? && observation.value.voucherNo.Some? then observation.value.voucherNo.value
                            else before.voucherNo
  }

  lemma SettleExactly(item: Item, id: BatchId, entry: BatchItem, payload: Payload, observation: Option<Observation>)
    requires payload.outcome in {"confirmed_success", "failed_before_commit", "partial", "unknown"}
    ensures SettleOne(item, id, entry, payload, observation).Ok? <==> Takes(item, entry, payload, observation)
    ensures SettleOne(item, id, entry, payload, observation).Ok? ==>
              Settles(item, SettleOne(item, id, entry, payload, observation).value, id, payload, observation)
  {
    hide Strip;
    StripOfNothing();
  }

  lemma {:induction false} SettleLoopExactly(
    done: Settlement, batch: Batch, payload: Payload, observed: map<string, Observation>, i: nat)
    requires i <= |batch.items| && DistinctKeys(batch)
    requires payload.outcome in {"confirmed_success", "failed_before_commit", "partial", "unknown"}
    requires forall j :: 0 <= j < |batch.items| ==> batch.items[j].key in done.items
    ensures SettleFrom(done, batch, payload, observed, i).Ok?
       <==> forall j :: i <= j < |batch.items| ==>
              var entry := batch.items[j]; Takes(done.items[entry.key], entry, payload, Lookup(observed, entry.key))
    decreases |batch.items| - i
  {
    hide SettleOne, Takes, Lookup;
    if i < |batch.items| {
      var entry := batch.items[i];
      var observation := Lookup(observed, entry.key);
      SettleExactly(done.items[entry.key], batch.id, entry, payload, observation);
      var settled := SettleOne(done.items[entry.key], batch.id, entry, payload, observation);
      if settled.Ok? {
        SettleLoopExactly(Settlement(done.items[entry.key := settled.value], done.states + [settled.value.status]),
                          batch, payload, observed, i + 1);
      }
    }
  }

  // ---------------------------------------------------------------- finalize

  predicate ModeAllowed(batch: Batch, payload: Payload) {
    || (batch.state == Applying && payload.mode in {"", "apply", "reconcile_only"})
    || (batch.state in {UnknownResult, Partial} && payload.mode == "reconcile_only")
  }

  ghost predicate CanFinalize(store: Store, id: BatchId, payload: Payload) {
    && id in store.batches && payload !in store.batches[id].receipts && ModeAllowed(store.batches[id], payload)
    && payload.outcome in {"confirmed_success", "failed_before_commit", "partial", "unknown"}
    && exists observed ::
         && Collects(payload.items, observed) && Sufficient(store.batches[id], payload, observed)
         && forall i :: 0 <= i < |store.batches[id].items| ==>
              var entry := store.batches[id].items[i];
              entry.key in store.items && Takes(store.items[entry.key], entry, payload, Lookup(observed, entry.key))
  }

  predicate RecordsNow(store: Store, id: BatchId, payload: Payload) {
    FinalizeResult(store, id, payload).Ok? && !FinalizeResult(store, id, payload).value.idempotent
  }

  /** A payload is recorded, exactly, if it is new, its mode goes with the batch, its observations name vouchers
      of the batch once, its evidence suffices, and every voucher can take it. */
  lemma FinalizeExactly(store: Store, id: BatchId, payload: Payload)
    requires Inv(store)
    ensures RecordsNow(store, id, payload) <==> CanFinalize(store, id, payload)
  {
    hide CheckPayload, SettleFrom, CollectFrom, Collects, Sufficient, Takes, EvidenceKept, AuthorizationKept, StateSummarises, Summary, Lookup;
    if id in store.batches {
      var batch := store.batches[id];
      assert BatchKept(store.items, batch);
      forall observed ensures CollectFrom(payload.items, 0, map[]) == Ok(observed) <==> Collects(payload.items, observed) {
        CollectExactly(payload.items, observed);
      }
      forall observed ensures CheckPayload(batch, payload, observed) == None <==> Sufficient(batch, payload, observed) {
        SufficientExactly(batch, payload, observed);
      }
      if payload.outcome in {"confirmed_success", "failed_before_commit", "partial", "unknown"} {
        forall observed
          ensures SettleFrom(Settlement(store.items, []), batch, payload, observed, 0).Ok?
             <==> forall j :: 0 <= j < |batch.items| ==>
                    var entry := batch.items[j]; Takes(store.items[entry.key], entry, payload, Lookup(observed, entry.key)) {
          SettleLoopExactly(Settlement(store.items, []), batch, payload, observed, 0);
        }
      }
    }
  }

  predicate VoucherLeft(before: Store, after: Store, entry: BatchItem, payload: Payload, observed: map<string, Observation>, id: BatchId) {
    && entry.key in before.items && entry.key in after.items
    && Takes(before.items[entry.key], entry, payload, Lookup(observed, entry.key))
    && Settles(before.items[entry.key], after.items[entry.key], id, payload, Lookup(observed, entry.key))
  }

  /** What a recorded payload leaves: every voucher settled by its observation, the batch and its receipt
      summarising them, the receipt kept under the payload, and nothing else changed. */
  predicate Leaves(before: Store, f: Finalized, id: BatchId, payload: Payload, observed: map<string, Observation>) {
    && id in before.batches && id in f.store.batches && f.batch == f.store.batches[id]
    && var batch := before.batches[id];
       && OnlyBatchChanges(before, f.store, batch) && SameFile(f.batch.(receipts := batch.receipts), batch)
       && (forall i :: 0 <= i < |batch.items| ==> VoucherLeft(before, f.store, batch.items[i], payload, observed, id))
       && |f.receipt.itemStates| == |batch.items| > 0
       && (forall i :: 0 <= i < |batch.items| && batch.items[i].key in f.store.items ==>
             f.receipt.itemStates[i] == f.store.items[batch.items[i].key].status)
       && f.receipt.batchId == id && f.receipt.payload == payload && f.receipt.state == f.batch.state
       && StateSummarises(f.batch.state, f.receipt.itemStates)
       && f.batch.receipts == batch.receipts[payload := f.receipt] && f.batch.audit == batch.audit + [FinalizedAudit(f.receipt)]
  }

  lemma FinalizeLeaves(store: Store, id: BatchId, payload: Payload) returns (observed: map<string, Observation>)
    requires Inv(store) && RecordsNow(store, id, payload)
    ensures Leaves(store, FinalizeResult(store, id, payload).value, id, payload, observed)
    ensures Collects(payload.items, observed) && Sufficient(store.batches[id], payload, observed)
  {
    hide CheckPayload, SettleFrom, CollectFrom, Collects, Sufficient, VoucherLeft, OnlyEntriesFrom, EvidenceKept, AuthorizationKept, Summary, StateSummarises;
    var batch := store.batches[id];
    observed := CollectFrom(payload.items, 0, map[]).value;
    assert BatchKept(store.items, batch);
    CollectExactly(payload.items, observed);
    SufficientExactly(batch, payload, observed);
    VouchersAreLeft(store, id, payload, observed);
    BatchIsSummarised(store, id, payload);
  }

  lemma VouchersAreLeft(store: Store, id: BatchId, payload: Payload, observed: map<string, Observation>)
    requires Inv(store) && RecordsNow(store, id, payload) && CollectFrom(payload.items, 0, map[]) == Ok(observed)
    ensures var f, batch := FinalizeResult(store, id, payload).value, store.batches[id];
            && OnlyEntriesFrom(store.items, f.store.items, batch, 0)
            && |f.receipt.itemStates| == |batch.items| > 0
            && forall i :: 0 <= i < |batch.items| ==>
                 && VoucherLeft(store, f.store, batch.items[i], payload, observed, id)
                 && f.receipt.itemStates[i] == f.store.items[batch.items[i].key].status
  {
    hide CheckPayload, SettleOne, SettleFrom, CollectFrom, Takes, Settles, EvidenceKept, AuthorizationKept, Summary, Lookup, StateSummarises;
    var batch := store.batches[id];
    assert BatchKept(store.items, batch);
    SettleLoop(Settlement(store.items, []), batch, payload, observed, 0);
    var f := FinalizeResult(store, id, payload).value;
    forall i | 0 <= i < |batch.items| ensures VoucherLeft(store, f.store, batch.items[i], payload, observed, id) {
      var entry := batch.items[i];
      SettleExactly(store.items[entry.key], batch.id, entry, payload, Lookup(observed, entry.key));
    }
  }

  lemma BatchIsSummarised(store: Store, id: BatchId, payload: Payload)
    requires Inv(store) && RecordsNow(store, id, payload)
    ensures var f := FinalizeResult(store, id, payload).value;
            StateSummarises(f.batch.state, f.receipt.itemStates) && f.receipt.state == f.batch.state
  {
    hide CheckPayload, SettleFrom, CollectFrom, EvidenceKept, AuthorizationKept, Summary, StateSummarises;
    var batch := store.batches[id];
    assert BatchKept(store.items, batch);
    var observed := CollectFrom(payload.items, 0, map[]).value;
    FinalizedVouchers(store.items, batch, payload, observed);
    SummaryIsExact(SettleFrom(Settlement(store.items, []), batch, payload, observed, 0).value.states);
  }

  /** The payload has an observation of this voucher. */
  predicate Mentions(payload: Payload, key: Key) { exists j :: 0 <= j < |payload.items| && Strip(payload.items[j].key) == key }

  predicate ReadsNumber(payload: Payload, key: Key, voucherNo: string) {
    exists j :: 0 <= j < |payload.items| && Strip(payload.items[j].key) == key && payload.items[j].voucherNo == Some(voucherNo)
  }

  /** The states before and after of every voucher of the batch, with its key, are related so. */
  predicate Everywhere(before: Store, f: Finalized, relation: (Key, Item, Item) -> bool) {
    forall i :: 0 <= i < |f.batch.items| ==>
      var key := f.batch.items[i].key;
      key in before.items && key in f.store.items && relation(key, before.items[key], f.store.items[key])
  }

  lemma ObservedIsMentioned(observations: seq<Observation>, observed: map<string, Observation>, key: Key)
    requires Collects(observations, observed)
    ensures key in observed <==> exists j :: 0 <= j < |observations| && Strip(observations[j].key) == key
    ensures key in observed ==> exists j :: 0 <= j < |observations| && Strip(observations[j].key) == key && observations[j] == observed[key]
    ensures forall j :: 0 <= j < |observations| && Strip(observations[j].key) == key ==> key in observed && observations[j] == observed[key]
  {
    hide Strip;
  }

  /** Confirmed success: the batch is reconciled, every voucher imported, one that was not before under the
      number that was read for it. */
  lemma SuccessImportsAll(store: Store, id: BatchId, payload: Payload)
    requires Inv(store) && RecordsNow(store, id, payload) && payload.outcome == "confirmed_success"
    ensures var f := FinalizeResult(store, id, payload).value;
            && f.receipt.state == f.batch.state == Reconciled
            && Everywhere(store, f, (key, before: Item, after: Item) =>
                 && after.status == Imported
                 && (if before.status == Imported then after == before else ReadsNumber(payload, key, after.voucherNo)))
  {
    hide FinalizeResult, Strip, Inv, StateSummarises, OnlyBatchChanges, Collects, ReadsNumber;
    var observed := FinalizeLeaves(store, id, payload);
    var f := FinalizeResult(store, id, payload).value;
    forall i | 0 <= i < |f.batch.items|
      ensures var key := f.batch.items[i].key;
              && f.receipt.itemStates[i] == f.store.items[key].status == Imported
              && (if store.items[key].status == Imported then f.store.items[key] == store.items[key]
                  else ReadsNumber(payload, key, f.store.items[key].voucherNo)) {
      var entry := f.batch.items[i];
      assert VoucherLeft(store, f.store, entry, payload, observed, id);
      NumberIsRead(payload, observed, entry.key);
    }
    OneState(f.batch.state, f.receipt.itemStates, Imported);
  }

  lemma NumberIsRead(payload: Payload, observed: map<string, Observation>, key: Key)
    requires Collects(payload.items, observed)
    ensures key in observed && observed[key].voucherNo.Some? ==> ReadsNumber(payload, key, observed[key].voucherNo.value)
  {
    hide Strip, Collects;
    ObservedIsMentioned(payload.items, observed, key);
  }

  /** Failed before commit: the batch is failed, every voucher confirmed as failed. */
  lemma FailureFailsAll(store: Store, id: BatchId, payload: Payload)
    requires Inv(store) && RecordsNow(store, id, payload) && payload.outcome == "failed_before_commit"
    ensures var f := FinalizeResult(store, id, payload).value;
            && f.receipt.state == f.batch.state == FailedBeforeCommit
            && Everywhere(store, f, (key, before: Item, after: Item) => after.status == FailedConfirmed)
  {
    hide FinalizeResult, Strip, StateSummarises, OnlyBatchChanges, BatchKept, Collects;
    var observed := FinalizeLeaves(store, id, payload);
    var f, batch := FinalizeResult(store, id, payload).value, store.batches[id];
    assert BatchKept(store.items, batch);
    forall i | 0 <= i < |f.batch.items|
      ensures f.receipt.itemStates[i] == f.store.items[f.batch.items[i].key].status == FailedConfirmed {
      var entry := f.batch.items[i];
      assert VoucherLeft(store, f.store, entry, payload, observed, id);
      if batch.state == Applying { ApplyingIsUnsettled(store.items, batch, i); }
    }
    OneState(f.batch.state, f.receipt.itemStates, FailedConfirmed);
  }

  lemma ApplyingIsUnsettled(items: map<Key, Item>, batch: Batch, i: nat)
    requires BatchKept(items, batch) && batch.state == Applying && i < |batch.items|
    ensures batch.items[i].key in items && items[batch.items[i].key].status == Importing
  {
    hide EvidenceKept;
    assert StatesOf(items, batch)[i] == Importing;
  }

  /** Unknown: every voucher not settled before is unknown; a settled one was not spoken of and is as it was. */
  lemma UnknownSettlesNothing(store: Store, id: BatchId, payload: Payload)
    requires Inv(store) && RecordsNow(store, id, payload) && payload.outcome == "unknown"
    ensures Everywhere(store, FinalizeResult(store, id, payload).value, (key, before: Item, after: Item) =>
              if Settled(before.status) then after == before && !Mentions(payload, key) else after.status == ImportUnknown)
  {
    hide FinalizeResult, Strip, Inv, StateSummarises, OnlyBatchChanges, Sufficient, Collects, Mentions;
    var observed := FinalizeLeaves(store, id, payload);
    var f := FinalizeResult(store, id, payload).value;
    forall i | 0 <= i < |f.batch.items|
      ensures var key := f.batch.items[i].key;
              if Settled(store.items[key].status) then f.store.items[key] == store.items[key] && !Mentions(payload, key)
              else f.store.items[key].status == ImportUnknown {
      var entry := f.batch.items[i];
      assert VoucherLeft(store, f.store, entry, payload, observed, id);
      MentionedIsObserved(payload, observed, entry.key);
    }
  }

  lemma MentionedIsObserved(payload: Payload, observed: map<string, Observation>, key: Key)
    requires Collects(payload.items, observed)
    ensures Mentions(payload, key) <==> key in observed
  {
    hide Strip, Collects;
    ObservedIsMentioned(payload.items, observed, key);
  }

  /** What an observed state makes of a voucher that was not settled. */
  predicate AsObserved(payload: Payload, key: Key, status: Status) {
    forall j :: 0 <= j < |payload.items| && Strip(payload.items[j].key) == key ==>
      && (payload.items[j].state == "imported" <==> status == Imported)
      && (payload.items[j].state == "import_failed_confirmed" <==> status == FailedConfirmed)
      && (payload.items[j].state in {"", "import_unknown"} <==> status == ImportUnknown)
  }

  /** Partial: a voucher not settled before is in the state that was observed of it, or unknown if none was; a
      settled one is as it was, and what was observed of it agrees. */
  lemma PartialFollowsObservations(store: Store, id: BatchId, payload: Payload)
    requires Inv(store) && RecordsNow(store, id, payload) && payload.outcome == "partial"
    ensures Everywhere(store, FinalizeResult(store, id, payload).value, (key, before: Item, after: Item) =>
              && (Settled(before.status) ==> after == before) && AsObserved(payload, key, after.status)
              && (!Settled(before.status) && !Mentions(payload, key) ==> after.status == ImportUnknown))
  {
    hide FinalizeResult, Strip, Inv, StateSummarises, OnlyBatchChanges, Sufficient, Collects, Mentions, AsObserved;
    var observed := FinalizeLeaves(store, id, payload);
    var f := FinalizeResult(store, id, payload).value;
    forall i | 0 <= i < |f.batch.items|
      ensures var key := f.batch.items[i].key;
              && (Settled(store.items[key].status) ==> f.store.items[key] == store.items[key])
              && AsObserved(payload, key, f.store.items[key].status)
              && (!Settled(store.items[key].status) && !Mentions(payload, key) ==> f.store.items[key].status == ImportUnknown) {
      var entry := f.batch.items[i];
      assert VoucherLeft(store, f.store, entry, payload, observed, id);
      MentionedIsObserved(payload, observed, entry.key);
      LeftAsObserved(store, f.store, entry, payload, observed, id);
    }
  }

  lemma LeftAsObserved(before: Store, after: Store, entry: BatchItem, payload: Payload, observed: map<string, Observation>, id: BatchId)
    requires Collects(payload.items, observed) && payload.outcome == "partial" && VoucherLeft(before, after, entry, payload, observed, id)
    ensures AsObserved(payload, entry.key, after.items[entry.key].status)
  {
    hide Strip, Collects;
    ObservedIsMentioned(payload.items, observed, entry.key);
  }

  lemma OneState(state: BatchState, states: seq<Status>, status: Status)
    requires states != [] && AllAre(states, status) && status in {Imported, FailedConfirmed} && StateSummarises(state, states)
    ensures state == if status == Imported then Reconciled else FailedBeforeCommit
  {
    assert states[0] == status;
  }
}
