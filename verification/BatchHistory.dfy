/** Comparing two points of a run: what only grows, what never changes, what happens at most once. */
module BatchHistory {
  import opened Results
  import opened Text
  import opened Batches
  import opened BatchRuns

  function Rank(state: BatchState): nat {
    match state
    case Prepared => 0 case DryRunPassed => 0 case AwaitingAuthorization => 1 case Applying => 2
    case UnknownResult => 3 case Partial => 4 case Observed => 4 case Reconciled => 5 case FailedBeforeCommit => 5
  }

  function ItemRank(status: Status): nat {
    match status
    case Draft => 0 case Blocked => 0 case ReviewPending => 0 case Approved => 0 case Rejected => 0
    case Exported => 1 case Importing => 2 case ImportUnknown => 3
    case Imported => 4 case FailedConfirmed => 4 case ImportFailed => 4 case ReconciledItem => 4 case ManualEntry => 4
  }

  /** The parts of a batch that say what is to be imported. */
  predicate SameManifest(a: Batch, b: Batch) {
    && a.id == b.id && a.filePath == b.filePath && a.fileHash == b.fileHash && a.ledger == b.ledger && a.period == b.period
    && a.items == b.items && a.expectedCount == b.expectedCount
    && a.expectedDebit == b.expectedDebit && a.expectedCredit == b.expectedCredit
  }

  predicate BatchGrows(a: Batch, b: Batch) {
    && SameManifest(a, b) && a.revision <= b.revision && a.audit <= b.audit && (a.revision == b.revision ==> a == b)
    && Rank(a.state) <= Rank(b.state) && (Rank(a.state) == 5 ==> b == a)
    && (a.authorization.Some? ==> b.authorization == a.authorization)
    && (forall payload :: payload in a.receipts ==> payload in b.receipts && b.receipts[payload] == a.receipts[payload])
  }

  predicate ItemGrows(a: Item, b: Item) {
    && ItemRank(a.status) <= ItemRank(b.status)
    && (Settled(a.status) ==> b == a)
    && (ItemRank(a.status) >= 1 ==> a.audit <= b.audit)
  }

  predicate Grows(a: Store, b: Store) {
    && a.revision <= b.revision
    && (a.revision == b.revision ==> a == b)
    && (forall id :: id in a.batches ==> id in b.batches && BatchGrows(a.batches[id], b.batches[id]))
    && (forall key :: key in a.items ==> key in b.items && ItemGrows(a.items[key], b.items[key]))
  }

  lemma GrowsTransitive(a: Store, b: Store, c: Store)
    requires Grows(a, b) && Grows(b, c)
    ensures Grows(a, c)
  {
    forall id | id in a.batches ensures id in c.batches && BatchGrows(a.batches[id], c.batches[id]) {
      var x, y, z := a.batches[id], b.batches[id], c.batches[id];
      assert BatchGrows(x, y) && BatchGrows(y, z);
      forall payload | payload in x.receipts ensures payload in z.receipts && z.receipts[payload] == x.receipts[payload] {
        assert payload in y.receipts;
      }
    }
  }

  lemma RegisterGrows(store: Store, batch: Batch, expected: nat)
    requires RegisterResult(store, batch, expected).Ok?
    ensures Grows(store, RegisterResult(store, batch, expected).value)
  {
    if batch.id !in store.batches {
      ExportLoop(store.items, batch, 0);
      var after := RegisterResult(store, batch, expected).value;
      forall key | key in store.items ensures ItemGrows(store.items[key], after.items[key]) {
        if Among(batch, 0, key) {
          var j :| 0 <= j < |batch.items| && batch.items[j].key == key;
        }
      }
    }
  }

  lemma BeginGrows(store: Store, id: BatchId, authorization: Authorization, fileNow: Option<Hash>)
    requires Inv(store) && BeginResult(store, id, authorization, fileNow).Ok?
    ensures Grows(store, BeginResult(store, id, authorization, fileNow).value)
  {
    hide EvidenceKept, AuthorizationBinds, BeginFrom;
    var batch := store.batches[id];
    assert BatchKept(store.items, batch);
    BegunItemsGrow(store.items, batch);
  }

  lemma BegunItemsGrow(items: map<Key, Item>, batch: Batch)
    requires DistinctKeys(batch) && BeginFrom(items, batch, 0).Ok?
    ensures var after := BeginFrom(items, batch, 0).value;
            forall key :: key in items ==> key in after && ItemGrows(items[key], after[key])
  {
    BeginLoop(items, batch, 0);
    var after := BeginFrom(items, batch, 0).value;
    forall key | key in items ensures ItemGrows(items[key], after[key]) {
      if Among(batch, 0, key) {
        var j :| 0 <= j < |batch.items| && batch.items[j].key == key;
      }
    }
  }

  lemma FinalizedItemsGrow(items: map<Key, Item>, batch: Batch, payload: Payload, observed: map<string, Observation>)
    requires BatchKept(items, batch) && batch.state in {Applying, UnknownResult, Partial}
    requires CollectFrom(payload.items, 0, map[]) == Ok(observed) && CheckPayload(batch, payload, observed) == None
    requires payload.outcome in {"confirmed_success", "failed_before_commit", "partial", "unknown"}
    requires SettleFrom(Settlement(items, []), batch, payload, observed, 0).Ok?
    ensures var done := SettleFrom(Settlement(items, []), batch, payload, observed, 0).value;
            && (forall key :: key in items ==> key in done.items && ItemGrows(items[key], done.items[key]))
            && Rank(batch.state) <= Rank(Summary(done.states))
  {
    hide BatchKept, CheckPayload, SettleFrom, CollectFrom, EvidenceKept, Summary;
    FinalizedVouchers(items, batch, payload, observed);
    var done := SettleFrom(Settlement(items, []), batch, payload, observed, 0).value;
    forall key | key in items ensures ItemGrows(items[key], done.items[key]) {
      if Among(batch, 0, key) {
        var j :| 0 <= j < |batch.items| && batch.items[j].key == key;
        assert done.states[j] == done.items[key].status;
        ObservedItemGrows(items, batch, j, done.items[key]);
      }
    }
    SummaryGrows(items, batch, done.items, done.states);
  }

  lemma FinalizeGrows(store: Store, id: BatchId, payload: Payload)
    requires Inv(store) && FinalizeResult(store, id, payload).Ok?
    ensures Grows(store, FinalizeResult(store, id, payload).value.store)
  {
    hide BatchKept, CheckPayload, SettleFrom, CollectFrom, Summary, ItemGrows;
    var batch := store.batches[id];
    assert BatchKept(store.items, batch);
    if payload !in batch.receipts {
      FinalizedItemsGrow(store.items, batch, payload, CollectFrom(payload.items, 0, map[]).value);
    } else {
      GrowsReflexive(store);
    }
  }

  lemma ObservedItemGrows(items: map<Key, Item>, batch: Batch, j: nat, after: Item)
    requires BatchKept(items, batch) && batch.state in {Applying, UnknownResult, Partial} && j < |batch.items|
    requires Settled(after.status) || after.status == ImportUnknown
    requires Settled(items[batch.items[j].key].status) ==> after == items[batch.items[j].key]
    requires items[batch.items[j].key].audit <= after.audit
    ensures ItemGrows(items[batch.items[j].key], after)
  {
    hide EvidenceKept, AuthorizationKept, Summary;
    var states := StatesOf(items, batch);
    assert states[j] == items[batch.items[j].key].status;
    if batch.state == Applying { assert states[j] == Importing; }
  }

  /** A partial batch holds a settled voucher, and settled vouchers stay: it never becomes unknown. */
  lemma SummaryGrows(items: map<Key, Item>, batch: Batch, after: map<Key, Item>, states: seq<Status>)
    requires BatchKept(items, batch) && batch.state in {Applying, UnknownResult, Partial}
    requires |states| == |batch.items|
    requires forall i :: 0 <= i < |batch.items| ==>
               var key := batch.items[i].key;
               && key in after && after[key].status == states[i]
               && (Settled(items[key].status) ==> after[key] == items[key])
    ensures Rank(batch.state) <= Rank(Summary(states))
    ensures batch.state == Partial ==> Summary(states) != UnknownResult
  {
    hide EvidenceKept, AuthorizationKept;
    var before := StatesOf(items, batch);
    if batch.state == Partial {
      var i :| 0 <= i < |before| && before[i] != ImportUnknown;
      assert Settled(before[i]);
      assert states[i] == before[i];
    }
  }

  lemma StepGrows(store: Store, op: Op)
    requires Inv(store)
    ensures Grows(store, Step(store, op))
  {
    hide Inv, RegisterResult, DryRunResult, BeginResult, FinalizeResult;
    match op {
      case Register(batch, expected) =>
        if Fresh(batch) && RegisterResult(store, batch, expected).Ok? { RegisterGrows(store, batch, expected); }
      case RecordDryRun(id, dryRun, fileNow) =>
        if DryRunResult(store, id, dryRun, fileNow).Ok? { DryRunGrows(store, id, dryRun, fileNow); }
      case Begin(id, authorization, fileNow) =>
        if BeginResult(store, id, authorization, fileNow).Ok? { BeginGrows(store, id, authorization, fileNow); }
      case Finalize(id, payload) =>
        if FinalizeResult(store, id, payload).Ok? { FinalizeGrows(store, id, payload); }
      case EditVoucher(key, item) =>
    }
  }

  lemma DryRunGrows(store: Store, id: BatchId, dryRun: DryRun, fileNow: Option<Hash>)
    requires DryRunResult(store, id, dryRun, fileNow).Ok?
    ensures Grows(store, DryRunResult(store, id, dryRun, fileNow).value)
  {
  }

  /** Along any run the store only grows: batches stay, receipts and audits are only extended,
      settled vouchers and decided batches never change, and every change takes a new revision. */
  lemma {:induction false} RunGrows(store: Store, ops: seq<Op>)
    requires Inv(store)
    ensures Inv(Run(store, ops)) && Grows(store, Run(store, ops))
    decreases |ops|
  {
    hide Inv, Step, BatchGrows;
    if ops == [] {
      GrowsReflexive(store);
    } else {
      var next := Step(store, ops[0]);
      StepKeepsInv(store, ops[0]);
      StepGrows(store, ops[0]);
      RunGrows(next, ops[1..]);
      GrowsTransitive(store, next, Run(next, ops[1..]));
    }
  }

  lemma GrowsReflexive(store: Store)
    ensures Grows(store, store)
  {
  }

  // ---------------------------------------------------------------- consequences

  /** This operation takes the batch into `Applying`. */
  predicate BeginsBatch(store: Store, op: Op, id: BatchId) {
    op.Begin? && op.id == id && BeginResult(store, id, op.authorization, op.fileNow).Ok?
  }

  /** This operation takes the voucher into `Importing`. */
  predicate BeginsVoucher(store: Store, op: Op, key: Key) {
    var after := Step(store, op);
    && key in after.items && after.items[key].status == Importing
    && (key in store.items ==> store.items[key].status != Importing)
  }

  /** In any run a batch is handed to the importer at most once, and so is a voucher. */
  lemma ImportBeginsAtMostOnce(before: seq<Op>, first: Op, between: seq<Op>, second: Op, id: BatchId, key: Key)
    ensures var s1 := Run(EMPTY, before);
            var s2 := Run(Step(s1, first), between);
            && !(BeginsBatch(s1, first, id) && BeginsBatch(s2, second, id))
            && !(BeginsVoucher(s1, first, key) && BeginsVoucher(s2, second, key))
  {
    hide Inv, Grows, Step, Run, BeginsBatch, BeginsVoucher;
    var s1 := Run(EMPTY, before);
    EmptyIsKept();
    RunKeepsInv(EMPTY, before);
    StepKeepsInv(s1, first);
    RunGrows(Step(s1, first), between);
    StepGrows(Run(Step(s1, first), between), second);
    BatchBeginsOnce(s1, first, Run(Step(s1, first), between), second, id);
    VoucherBeginsOnce(s1, first, Run(Step(s1, first), between), second, key);
  }

  lemma BatchBeginsOnce(s1: Store, first: Op, s2: Store, second: Op, id: BatchId)
    requires Grows(Step(s1, first), s2)
    ensures !(BeginsBatch(s1, first, id) && BeginsBatch(s2, second, id))
  {
    hide BatchGrows, ItemGrows, RegisterResult, DryRunResult, FinalizeResult, BeginFrom;
    if BeginsBatch(s1, first, id) { RankOnlyGrows(Step(s1, first).batches[id], s2.batches[id]); }
  }

  lemma VoucherBeginsOnce(s1: Store, first: Op, s2: Store, second: Op, key: Key)
    requires Grows(Step(s1, first), s2) && Grows(s2, Step(s2, second))
    ensures !(BeginsVoucher(s1, first, key) && BeginsVoucher(s2, second, key))
  {
    hide BatchGrows, Step;
    if BeginsVoucher(s1, first, key) && key in s2.items {
      assert ItemGrows(Step(s1, first).items[key], s2.items[key]);
      assert key in Step(s2, second).items ==> ItemGrows(s2.items[key], Step(s2, second).items[key]);
    }
  }

  lemma RankOnlyGrows(a: Batch, b: Batch)
    requires BatchGrows(a, b)
    ensures Rank(a.state) <= Rank(b.state)
  {
  }

  lemma EmptyIsKept()
    ensures Inv(EMPTY)
  {
  }

  /** A recorded payload sent again, after any number of later operations, returns the receipt it
      returned first and changes nothing. */
  lemma ReplayReturnsFirstReceipt(store: Store, id: BatchId, payload: Payload, later: seq<Op>)
    requires Inv(store) && FinalizeResult(store, id, payload).Ok?
    ensures var first := FinalizeResult(store, id, payload).value;
            var now := Run(first.store, later);
            && id in now.batches
            && FinalizeResult(now, id, payload) == Ok(Finalized(now, now.batches[id], true, first.receipt))
            && Step(now, Finalize(id, payload)) == now
            && first.receipt.payload == payload && first.receipt.batchId == id
  {
    hide Step, FinalizeResult, Inv, BatchGrows;
    var first := FinalizeResult(store, id, payload).value;
    FinalizeKeepsInv(store, id, payload);
    FirstIsRecorded(store, id, payload);
    RunGrows(first.store, later);
    var now := Run(first.store, later);
    ReceiptIsKept(first.store.batches[id], now.batches[id], payload);
    ReplayChangesNothing(now, id, payload);
  }

  lemma FirstIsRecorded(store: Store, id: BatchId, payload: Payload)
    requires Inv(store) && FinalizeResult(store, id, payload).Ok?
    ensures var first := FinalizeResult(store, id, payload).value;
            && id in first.store.batches && payload in first.store.batches[id].receipts
            && first.store.batches[id].receipts[payload] == first.receipt
            && first.receipt.payload == payload && first.receipt.batchId == id
  {
    hide CheckPayload, SettleFrom, CollectFrom, StatesOf, StateSummarises, EvidenceKept;
    assert BatchKept(store.items, store.batches[id]);
  }

  lemma ReceiptIsKept(a: Batch, b: Batch, payload: Payload)
    requires BatchGrows(a, b) && payload in a.receipts
    ensures payload in b.receipts && b.receipts[payload] == a.receipts[payload]
  {
  }

  lemma ReplayChangesNothing(store: Store, id: BatchId, payload: Payload)
    requires id in store.batches && payload in store.batches[id].receipts
    ensures FinalizeResult(store, id, payload)
         == Ok(Finalized(store, store.batches[id], true, store.batches[id].receipts[payload]))
    ensures Step(store, Finalize(id, payload)) == store
  {
  }

  lemma GrownStates(a: Batch, b: Batch)
    requires BatchGrows(a, b) && b.state != Observed
    ensures a.state in {Reconciled, FailedBeforeCommit} ==> b == a
    ensures a.state == Partial ==> b.state in {Partial, Reconciled, FailedBeforeCommit}
  {
  }

  lemma GrownItem(a: Item, b: Item)
    requires ItemGrows(a, b)
    ensures Settled(a.status) ==> b == a
  {
  }

  /** Settled vouchers never change again, decided batches never change again, and a partial batch
      never falls back to unknown. */
  lemma SettledIsPermanent(store: Store, later: seq<Op>, key: Key, id: BatchId)
    requires Inv(store)
    ensures var now := Run(store, later);
            && (key in store.items && Settled(store.items[key].status) ==> key in now.items && now.items[key] == store.items[key])
            && (id in store.batches && store.batches[id].state in {Reconciled, FailedBeforeCommit} ==>
                  id in now.batches && now.batches[id] == store.batches[id])
            && (id in store.batches && store.batches[id].state == Partial ==>
                  id in now.batches && now.batches[id].state in {Partial, Reconciled, FailedBeforeCommit})
  {
    hide Inv, BatchGrows, ItemGrows;
    RunGrows(store, later);
    var now := Run(store, later);
    ReachableStatesAreKnown(now, id);
    if id in store.batches { GrownStates(store.batches[id], now.batches[id]); }
    if key in store.items { assert ItemGrows(store.items[key], now.items[key]); GrownItem(store.items[key], now.items[key]); }
  }

  lemma ReachableStatesAreKnown(store: Store, id: BatchId)
    requires Inv(store)
    ensures id in store.batches ==> store.batches[id].state != Observed
  {
    assert id in store.batches ==> BatchKept(store.items, store.batches[id]);
  }

  /** Every voucher that a run shows as imported was read back from the ledger, with its signature
      and its number, by a payload whose receipt is on record; every confirmed failure was read back
      as absent or settles a first attempt that committed nothing. */
  lemma EverySettlementHasEvidence(ops: seq<Op>, id: BatchId, i: nat)
    requires id in Run(EMPTY, ops).batches && i < |Run(EMPTY, ops).batches[id].items|
    ensures var store := Run(EMPTY, ops);
            var batch := store.batches[id];
            var entry := batch.items[i];
            && BatchKept(store.items, batch)
            && entry.key in store.items && store.items[entry.key].batchId == id
            && EvidenceKept(store.items[entry.key], entry, batch)
            && StateSummarises(batch.state, StatesOf(store.items, batch))
            && AuthorizationKept(batch)
  {
    hide EvidenceKept, StateSummarises, AuthorizationKept;
    EmptyIsKept();
    RunKeepsInv(EMPTY, ops);
    assert BatchKept(Run(EMPTY, ops).items, Run(EMPTY, ops).batches[id]);
  }

  /** Nothing blocks an awaiting batch except its own preconditions: with the file unchanged and a
      binding authorization the import begins. */
  lemma AwaitingBatchCanBegin(store: Store, id: BatchId, authorization: Authorization)
    requires Inv(store) && id in store.batches && store.batches[id].state == AwaitingAuthorization
    requires AuthorizationBinds(authorization, store.batches[id])
    ensures BeginResult(store, id, authorization, Some(store.batches[id].fileHash)).Ok?
  {
    hide EvidenceKept, AuthorizationBinds, BeginFrom;
    var batch := store.batches[id];
    assert BatchKept(store.items, batch);
    forall i | 0 <= i < |batch.items| ensures store.items[batch.items[i].key].status == Exported {
      assert StatesOf(store.items, batch)[i] == store.items[batch.items[i].key].status;
    }
    BeginLoopSucceeds(store.items, batch, 0);
  }

  /** Reading an imported voucher back again under the number it was recorded with is confirmed if and
      only if that number carries no surrounding white space: the number is stored as received but
      compared after stripping. */
  lemma ReobservationNeedsTrimmedNumber(item: Item, id: BatchId, entry: BatchItem, payload: Payload, key: string)
    requires item.status == Imported && Strip(item.voucherNo) != ""
    requires NextState(payload, Some(Observation(key, "imported", entry.signature, Some(item.voucherNo)))) == Ok(Imported)
    ensures SettleOne(item, id, entry, payload, Some(Observation(key, "imported", entry.signature, Some(item.voucherNo)))).Ok?
       <==> Trimmed(item.voucherNo)
  {
    StripFixes(item.voucherNo);
    assert Strip("") == "";
  }
}
