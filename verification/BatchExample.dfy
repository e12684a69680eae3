/** A run in which an imported voucher can never be confirmed again: its number was read back with white
    space around it, is stored as received, and is compared stripped. */
module BatchExample {
  import opened Results
  import opened Text
  import opened Batches
  import opened BatchRuns

  const V := "v"
  const W := "w"
  const ID := "b"
  const REV := "r"
  const FILE := "f"
  const SIG := "s"
  const PADDED := " 1 "

  const APPROVED: Item := Item(Approved, REV, "", "", "", 0, None, [])
  const ENTRY_V: BatchItem := BatchItem(V, REV, "001", SIG)
  const ENTRY_W: BatchItem := BatchItem(W, REV, "002", SIG)
  const BATCH: Batch := Batch(ID, "", FILE, "l", "p", [ENTRY_V, ENTRY_W], 2, 0, 0, 0, Prepared, None, map[], [])
  const REPORT: DryRun := DryRun(true, FILE, 2, 0, 0)
  const GRANT: Authorization := Authorization(ID, FILE, "l", "p", "c", "a")
  const SEEN: Observation := Observation(V, "imported", SIG, Some(PADDED))
  const FIRST: Payload := Payload("apply", "partial", [SEEN], Evidence("e", false, false))
  const SECOND: Payload := Payload("reconcile_only", "partial", [SEEN], Evidence("e", false, false))

  const OPS: seq<Op> := [
    EditVoucher(V, APPROVED), EditVoucher(W, APPROVED), Register(BATCH, 2), RecordDryRun(ID, REPORT, Some(FILE)),
    Begin(ID, GRANT, Some(FILE)), Finalize(ID, FIRST)]

  // ---------------------------------------------------------------- the stages of the run

  const EXPORTED_V: Item := Export(APPROVED, BATCH, ENTRY_V)
  const EXPORTED_W: Item := Export(APPROVED, BATCH, ENTRY_W)
  const REGISTERED: Store := Store(3, map[V := EXPORTED_V, W := EXPORTED_W], map[ID := BATCH])
  const AWAITING: Batch := BATCH.(revision := 1, state := AwaitingAuthorization, audit := [DryRunPassedAudit(REPORT)])
  const CHECKED: Store := Store(4, map[V := EXPORTED_V, W := EXPORTED_W], map[ID := AWAITING])
  const APPLYING: Batch := AWAITING.(revision := 2, state := Applying, authorization := Some(GRANT),
                                     audit := [DryRunPassedAudit(REPORT), AppliedAudit(GRANT)])
  const BEGUN_V: Item := BeginItem(EXPORTED_V, ID)
  const BEGUN_W: Item := BeginItem(EXPORTED_W, ID)
  const BEGUN: Store := Store(5, map[V := BEGUN_V, W := BEGUN_W], map[ID := APPLYING])

  lemma RegisterStage()
    ensures Run(EMPTY, OPS[..3]) == REGISTERED
  {
    var s1 := Step(EMPTY, OPS[0]);
    assert s1 == Store(1, map[V := APPROVED], map[]);
    var s2 := Step(s1, OPS[1]);
    assert s2 == Store(2, map[V := APPROVED, W := APPROVED], map[]);
    ExportBoth();
    assert Step(s2, OPS[2]) == REGISTERED;
    RunOfThree(EMPTY, OPS[..3]);
  }

  lemma ExportBoth()
    ensures ExportFrom(map[V := APPROVED, W := APPROVED], BATCH, 0) == Ok(map[V := EXPORTED_V, W := EXPORTED_W])
  {
    var items := map[V := APPROVED, W := APPROVED];
    assert BATCH.items[0] == ENTRY_V && BATCH.items[1] == ENTRY_W;
    var one := items[V := EXPORTED_V];
    assert ExportFrom(one[W := EXPORTED_W], BATCH, 2) == Ok(one[W := EXPORTED_W]);
    assert ExportFrom(one, BATCH, 1) == Ok(one[W := EXPORTED_W]);
    assert ExportFrom(items, BATCH, 0) == ExportFrom(one, BATCH, 1);
    assert one[W := EXPORTED_W] == map[V := EXPORTED_V, W := EXPORTED_W];
  }

  lemma BeginBoth()
    ensures BeginFrom(map[V := EXPORTED_V, W := EXPORTED_W], AWAITING, 0) == Ok(map[V := BEGUN_V, W := BEGUN_W])
  {
    var items := map[V := EXPORTED_V, W := EXPORTED_W];
    assert AWAITING.items[0] == ENTRY_V && AWAITING.items[1] == ENTRY_W;
    var one := items[V := BEGUN_V];
    assert BeginFrom(one[W := BEGUN_W], AWAITING, 2) == Ok(one[W := BEGUN_W]);
    assert BeginFrom(one, AWAITING, 1) == Ok(one[W := BEGUN_W]);
    assert BeginFrom(items, AWAITING, 0) == BeginFrom(one, AWAITING, 1);
    assert one[W := BEGUN_W] == map[V := BEGUN_V, W := BEGUN_W];
  }

  lemma RunOfThree(s: Store, ops: seq<Op>)
    requires |ops| == 3
    ensures Run(s, ops) == Step(Step(Step(s, ops[0]), ops[1]), ops[2])
  {
    hide Step;
    var one, two := ops[1..], ops[2..];
    assert one[1..] == two && two[1..] == [];
    var s1 := Step(s, ops[0]);
    var s2 := Step(s1, ops[1]);
    assert Run(s2, two) == Run(Step(s2, ops[2]), []);
    assert Run(s1, one) == Run(s2, two);
  }

  lemma CheckStage()
    ensures Step(REGISTERED, OPS[3]) == CHECKED
  {
    assert REGISTERED.batches[ID] == BATCH && BATCH.audit + [DryRunPassedAudit(REPORT)] == AWAITING.audit;
    assert REGISTERED.batches[ID := AWAITING] == CHECKED.batches;
  }

  lemma BeginStage()
    ensures Step(CHECKED, OPS[4]) == BEGUN
  {
    BeginBoth();
    GrantBinds();
    assert CHECKED.batches[ID] == AWAITING && AWAITING.audit + [AppliedAudit(GRANT)] == APPLYING.audit;
    assert CHECKED.batches[ID := APPLYING] == BEGUN.batches;
  }

  lemma GrantBinds()
    ensures AuthorizationBinds(GRANT, AWAITING)
  {
    assert Strip("c") == "c" && Strip("a") == "a";
  }

  // ---------------------------------------------------------------- the first finalize

  lemma StripsTo()
    ensures Strip(PADDED) == "1" && Strip(V) == V && Strip("e") == "e" && PADDED != "1"
  {
    assert StripLeft(PADDED) == PADDED[1..] == "1 ";
    assert StripRight("1 ") == "1 "[..1] == "1";
  }

  const SETTLED_V: Item := BEGUN_V.(
    status := Imported, revision := BEGUN_V.revision + 1, lastObservation := Some(FIRST),
    audit := BEGUN_V.audit + [ItemAudit(Importing, Imported, ID, Some(FIRST))], voucherNo := PADDED)
  const UNKNOWN_W: Item := BEGUN_W.(
    status := ImportUnknown, revision := BEGUN_W.revision + 1, lastObservation := Some(FIRST),
    audit := BEGUN_W.audit + [ItemAudit(Importing, ImportUnknown, ID, Some(FIRST))])
  const PARTIAL: Batch := Recorded(APPLYING, FIRST, [Imported, ImportUnknown])
  const OBSERVED: map<string, Observation> := map[V := SEEN]
  const SETTLED: Store := Store(6, map[V := SETTLED_V, W := UNKNOWN_W], map[ID := PARTIAL])

  lemma Collected(payload: Payload)
    requires payload == FIRST || payload == SECOND
    ensures CollectFrom(payload.items, 0, map[]) == Ok(OBSERVED)
  {
    StripsTo();
    assert payload.items == [SEEN];
    assert CollectFrom(payload.items, 1, map[V := SEEN]) == Ok(map[V := SEEN]);
  }

  lemma PayloadPasses(batch: Batch, payload: Payload)
    requires batch.items == [ENTRY_V, ENTRY_W] && (payload == FIRST || payload == SECOND)
    ensures CheckPayload(batch, payload, OBSERVED) == None
  {
    StripsTo();
    assert ENTRY_V in batch.items && V in BatchKeys(batch);
    assert FailedKeys(OBSERVED) == {};
  }

  lemma FirstSettles()
    ensures SettleOne(BEGUN_V, ID, ENTRY_V, FIRST, Some(SEEN)) == Ok(SETTLED_V)
    ensures SettleOne(BEGUN_W, ID, ENTRY_W, FIRST, None) == Ok(UNKNOWN_W)
  {
    StripsTo();
  }

  lemma SettleBoth()
    ensures SettleFrom(Settlement(map[V := BEGUN_V, W := BEGUN_W], []), APPLYING, FIRST, OBSERVED, 0)
         == Ok(Settlement(map[V := SETTLED_V, W := UNKNOWN_W], [Imported, ImportUnknown]))
  {
    hide SettleOne;
    FirstSettles();
    var items := map[V := BEGUN_V, W := BEGUN_W];
    assert APPLYING.items[0] == ENTRY_V && APPLYING.items[1] == ENTRY_W;
    var one := items[V := SETTLED_V];
    var two := one[W := UNKNOWN_W];
    assert [] + [Imported] == [Imported] && [Imported] + [ImportUnknown] == [Imported, ImportUnknown];
    assert SettleFrom(Settlement(two, [Imported, ImportUnknown]), APPLYING, FIRST, OBSERVED, 2)
        == Ok(Settlement(two, [Imported, ImportUnknown]));
    assert SettleFrom(Settlement(one, [Imported]), APPLYING, FIRST, OBSERVED, 1) == Ok(Settlement(two, [Imported, ImportUnknown]));
    assert SettleFrom(Settlement(items, []), APPLYING, FIRST, OBSERVED, 0)
        == SettleFrom(Settlement(one, [Imported]), APPLYING, FIRST, OBSERVED, 1);
    assert two == map[V := SETTLED_V, W := UNKNOWN_W];
  }

  lemma FinalizeStage()
    ensures Step(BEGUN, OPS[5]) == SETTLED
  {
    hide CollectFrom, CheckPayload, SettleFrom, Recorded, ModeOf;
    Collected(FIRST);
    PayloadPasses(APPLYING, FIRST);
    SettleBoth();
    FirstMode();
    assert BEGUN.batches[ID] == APPLYING && FIRST !in APPLYING.receipts;
  }

  lemma FirstMode()
    ensures ModeOf(FIRST) == "apply" && ModeOf(SECOND) == "reconcile_only"
  {
  }

  // ---------------------------------------------------------------- the second finalize

  lemma BatchIsPartial()
    ensures PARTIAL.state == Partial && PARTIAL.items == [ENTRY_V, ENTRY_W] && PARTIAL.id == ID && SECOND !in PARTIAL.receipts
  {
    var states := [Imported, ImportUnknown];
    assert states[0] != FailedConfirmed && states[0] != ImportUnknown && states[1] != Imported;
  }

  lemma SecondReadingDiffers()
    ensures SettleOne(SETTLED_V, ID, ENTRY_V, SECOND, Some(SEEN)) == Err(VoucherNoMismatch)
  {
    StripsTo();
  }

  lemma SecondStops()
    ensures SettleFrom(Settlement(SETTLED.items, []), PARTIAL, SECOND, OBSERVED, 0) == Err(VoucherNoMismatch)
  {
    hide SettleOne, PARTIAL;
    BatchIsPartial();
    SecondReadingDiffers();
    assert PARTIAL.items[0] == ENTRY_V;
  }

  lemma SecondIsRefused()
    ensures FinalizeResult(SETTLED, ID, SECOND) == Err(VoucherNoMismatch)
  {
    hide CollectFrom, CheckPayload, ModeOf, SettleFrom, PARTIAL;
    BatchIsPartial();
    Collected(SECOND);
    PayloadPasses(PARTIAL, SECOND);
    FirstMode();
    SecondStops();
    assert SETTLED.batches[ID] == PARTIAL;
  }

  /** The run: two vouchers are approved, exported, checked and imported; the first is read back under a
      padded number and recorded with it; a second reading of the very same observation is then refused. */
  lemma PaddedNumberIsNeverConfirmed()
    ensures var store := Run(EMPTY, OPS);
            && V in store.items && store.items[V].status == Imported && store.items[V].voucherNo == PADDED
            && ID in store.batches && store.batches[ID].state == Partial
            && SECOND.items == FIRST.items
            && FinalizeResult(store, ID, SECOND) == Err(VoucherNoMismatch)
  {
    hide Step, FinalizeResult, PARTIAL;
    BatchIsPartial();
    RegisterStage();
    CheckStage();
    BeginStage();
    FinalizeStage();
    SecondIsRefused();
    RunOfThree(REGISTERED, OPS[3..]);
    RunsJoin(EMPTY, OPS, 3);
  }

  lemma {:induction false} RunsJoin(s: Store, ops: seq<Op>, k: nat)
    requires k <= |ops|
    ensures Run(s, ops) == Run(Run(s, ops[..k]), ops[k..])
    decreases k
  {
    hide Step;
    if k == 0 {
      assert ops[0..] == ops;
    } else {
      assert ops[..k][0] == ops[0] && ops[..k][1..] == ops[1..][..k - 1] && ops[1..][k - 1..] == ops[k..];
      RunsJoin(Step(s, ops[0]), ops[1..], k - 1);
    }
  }
}
