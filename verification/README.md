# Verified model of InvoiceHub

This project models the parts of InvoiceHub that have to keep a promise under interruption, and proves
those promises in Dafny:

- **Bounded HTTP responses** (`HttpFraming`, `HttpFragmentation`, `HttpEncoding`, `HttpAcceptance`): the incremental
  reader that accepts one reply however it is split and never a truncated one, a strict subset of RFC 9112.
- **The bookkeeping pipeline**: allocations become double-entry lines (`Decisions`, `VoucherLines`,
  `SavedDecisions`, `SavedLines`, `ProposalStore`), lines become an import sheet (`ImportFile`), the sheet is parsed back
  and reconciled (`DryRunner`, `PreparedBatch`), and the batch goes through export, authorization, import
  and settlement (`Batches`, `BatchRuns`, `BatchOutcomes`, `BatchHistory`, `BatchExample`); `PostedVouchers` joins its
  halves.
- **Update and monitor recovery**: the durable promise to restart a stopped monitor (`RecoveryMarkers`,
  `MonitorWorld`, `MonitorRecovery`, `UpdateCoordinator`, `RecoveryRuns`), the marker files that hold it
  (`MarkerRegister`, `UnixMarkerStore`, `WindowsMarkerStore`), the host's ownership (`BackendLifecycle`) and its
  private update service (`HostUpdater`).
- **Account mapping**: rule scopes and resolution (`MappingRules`, `RuleResolution`, `RuleChoice`), the revisioned store
  (`MappingStore`, `MappingWrites`) and its migration (`MappingMigration`).
- **The replay window** (`ReplayWindow`) and **the demo tax calculator** (`DemoTax`).

`Results`, `Text` and `Money` hold what they share. Amounts are whole cents, or exact reals where rounding
is the point. A digest stands for the content it is a digest of. Protocols whose steps interleave are state
machines over single actions; sequential code that changes objects step by step is a class whose methods
are proved against a specification.

What the proofs say about the code beyond its documentation:

- A stop is a request that may land after its call has failed. If its reply is lost, the restore that follows
  can see the monitor still up and remove the marker; when the stop then lands, the monitor stays down with
  nothing written down (`RecoveryRuns.AStopThatLandsLateIsForgotten`). The obligation survives a clear exactly
  if nothing is owed unseen and no stop is in flight (`RecoveryRuns.ClearSurvivesExactly`).
- A migration trusts a backup that it finds without syncing the directory, so a power failure between its
  replacement of the live file and the next sync can take away the source
  (`MappingMigration.UnsyncedBackupCanBeLost`); one that wrote its own backup, with syncs that work, cannot
  (`MappingMigration.OwnBackupIsCareful`).
- A batch records its totals rounded once, halves to even; the dry run adds amounts rounded one by one.
  The two agree for cent-precise amounts and can differ otherwise (`PreparedBatch.HalfCentsDisagree`).
- A voucher number observed at import is stored as received but later compared stripped, so a number with
  surrounding white space cannot be confirmed again (`BatchHistory.ReobservationNeedsTrimmedNumber`,
  reached in `BatchExample.PaddedNumberIsNeverConfirmed`).
- An expiry sweep treats a candidate stored after its clock reading as expired
  (`HostUpdater.SweepDiscardsFreshExactly`, with a run in `HostUpdater.FreshCandidateIsSwept`).
- The reader accepts a complete message only if some read stops at its last byte; bytes that arrive in the
  same read after it are an error, as the code has it (`HttpFragmentation.CompletePrefixDecides`).
- The tax calculator's way back from net to gross is exact, but its text field refuses a gross amount of more
  than nine digits (`DemoTax.NetIsRecoveredThroughText`).
- Its way from gross to net and back is exact only for some remainders (`DemoTax.GrossIsRecoveredExactly`); four
  cents at thirteen per cent come back as five.

## Model

| member | source | states |
|---|---|---|
| `HttpFraming.FindFrom` | src-tauri/src/local_http.rs:94-99 | The result is the first occurrence at or after the start, and none is reported only when there is none. |
| `HttpFraming.ParseHeadBlock` | src-tauri/src/local_http.rs:109-147 | The loop over header lines computes the parse of the block: status line, token names, allowed value bytes, no duplicate name, or the error. |
| `HttpFraming.Chunks` | src-tauri/src/local_http.rs:181-226 | The cursor loop computes the chunk decoding of all bytes present: a complete body, an error, or incomplete. |
| `HttpFraming.NextChunkIsFinal` | src-tauri/src/local_http.rs:188-224 | A chunk that was taken or refused is taken or refused alike when more bytes follow. |
| `HttpFraming.ChunkDecisionsAreFinal` | src-tauri/src/local_http.rs:181-226 | Later bytes never change a chunk error, and a complete body followed by anything is an error, not another body. |
| `HttpFraming.DecodedBodyWithinLimit` | src-tauri/src/local_http.rs:181-226 | A decoded chunked body never exceeds the limit. |
| `HttpFraming.HeaderEndExtends` | src-tauri/src/local_http.rs:94-99 | The end of the header block, once seen, does not move when more bytes arrive. |
| `HttpFraming.ParsedHeadIsStable` | src-tauri/src/local_http.rs:234-256 | The head parsed from a prefix is the head parsed from the whole, so parsing it once is enough. |
| `HttpFraming.DecisionsAreFinal` | src-tauri/src/local_http.rs:228-296 | Errors are absorbing and complete messages are prefix-free: once the reader has decided on a prefix, every extension is an error (or the same error). |
| `HttpFraming.ReadFramed` | src-tauri/src/local_http.rs:228-296 | The incremental reader returns the specified outcome of the script and leaves exactly the unread events unread. |
| `HttpFragmentation.CompletePrefixDecides` | src-tauri/src/local_http.rs:228-296 | Exact outcome when some prefix of the stream is a complete message: the reply is accepted if and only if some read stops exactly there; otherwise the read that overshoots is an error. |
| `HttpFragmentation.NoCompletePrefix` | src-tauri/src/local_http.rs:228-296 | Exact outcome when no prefix is a complete message: success only for a reply delimited by a clean close. |
| `HttpFragmentation.CompleteMessageIsAccepted` | src-tauri/src/local_http.rs:228-296 | Fragmentation independence: every split of a complete message into non-empty reads, with any ending, gives the same reply and reads nothing past it (RFC 9112 section 6.3). |
| `HttpFragmentation.TruncationIsRejected` | src-tauri/src/local_http.rs:228-296 | If the stream ends or resets at any strict prefix of a self-delimited message the result is an error (RFC 9112 section 8). |
| `HttpFragmentation.SplitDoesNotMatter` | src-tauri/src/local_http.rs:228-296 | Two streams with the same bytes and the same ending succeed with the same reply, unless a message completes before the end of the bytes. |
| `HttpEncoding.DecodeInvertsEncode` | src-tauri/src/local_http.rs:181-226 | Decoding an encoded list of chunks, extensions and leading zeros included, gives the concatenation of their data (RFC 9112 section 7.1). |
| `HttpEncoding.StrictPrefixIsIncomplete` | src-tauri/src/local_http.rs:181-226 | Every strict prefix of a chunked encoding is incomplete, never an error and never a body. |
| `HttpEncoding.EncodingsArePrefixFree` | src-tauri/src/local_http.rs:181-226 | No chunked encoding is a strict prefix of another. |
| `HttpEncoding.CanonicalSizeLine` | src-tauri/src/local_http.rs:190-203 | The shortest hexadecimal text of a size is a size line announcing it, so every list of pieces has an encoding. |
| `HttpEncoding.HeadRoundTrip` | src-tauri/src/local_http.rs:109-147 | Parsing a well-formed header block, of either version and with or without a reason, recovers the status and the lower-cased, trimmed headers. |
| `HttpEncoding.HeadBoundary` | src-tauri/src/local_http.rs:94-99 | The block is recognised to end exactly where it ends, whatever body follows. |
| `HttpEncoding.MessageRoundTrip` | src-tauri/src/local_http.rs:149-178 | A well-formed message with an empty, counted or chunked body within the limits is complete with its status, headers and content. |
| `HttpEncoding.SentIsReceived` | src-tauri/src/local_http.rs:228-296 | End to end: a well-formed message, split and interrupted in any way after its last byte, is received as sent. |
| `HttpAcceptance.ReceivedExactly` | src-tauri/src/local_http.rs:228-296 | The reader answers with a reply if and only if some read returns right at the end of a well-formed message that carries it and fits the limit, or the connection closes cleanly on a message that ends so: every other stream is an error. |
| `HttpAcceptance.CloseDelimitedIsReceived` | src-tauri/src/local_http.rs:177-177 | A reply without length or coding is received whole on a clean close, however it is split, and is an error on any other ending or beyond the limit. |
| `HttpAcceptance.HeadAcceptedExactly` | src-tauri/src/local_http.rs:109-147 | The parser accepts exactly the header blocks a sender may send, and takes from each what it means. |
| `HttpAcceptance.TrimIsExact` | src-tauri/src/local_http.rs:129-129 | A header value loses the white space at both ends, all of it, and nothing else. |
| `HttpAcceptance.FramingIsAnnounced` | src-tauri/src/local_http.rs:149-178 | The framing accepted is exactly the one announced; any other announcement is refused. |
| `HttpAcceptance.SizeLineExactly` | src-tauri/src/local_http.rs:190-203 | A chunk line announces a size exactly if it is hexadecimal digits of it, alone or before a semicolon and anything but control characters. |
| `HttpAcceptance.DecodedExactly` | src-tauri/src/local_http.rs:181-226 | The decoder gives a body for exactly the chunked encodings of it that fit the limit. |
| `HttpAcceptance.CutHeadIsRejected` | src-tauri/src/local_http.rs:228-296 | A stream that ends inside the header block is an error, whatever the block announces. |
| `HttpAcceptance.EndingDecides` | src-tauri/src/local_http.rs:270-294 | A stream that ends before anything was decided is read to its end, and the error says how much was read, and the status and expected length if the header block was there. |
| `HttpAcceptance.OverrunIsRefused` | src-tauri/src/local_http.rs:274-281 | A read that goes over the limit ends the reading there. |
| `Money.MoneyRoundTrip` | src/invoice_hub/bookkeeping/import_file.py:173-178 | The text written for an amount of cents is trimmed, non-empty, and read back by the runner as the same cents. |
| `Money.HalfUpIsExact` | src/invoice_hub/bookkeeping/import_file.py:173-178 | Rounding an amount that is already whole cents changes nothing. |
| `Money.HalfUpIsNearest` | src/invoice_hub/bookkeeping/import_file.py:173-178 | Rounding is to the nearest cent, halves away from zero. |
| `Money.MoneyExactly` | scripts/tools/jierui_voucher_import.py:74-83 | A cell is read exactly as a signed or unsigned decimal to the nearest cent, or as nothing if empty; anything else is refused. |
| `Text.StripFixes` | scripts/tools/jierui_voucher_import.py:89-96 | Stripping changes exactly the texts that are not trimmed. |
| `Text.StripIsExact` | scripts/tools/jierui_voucher_import.py:89-96 | Stripping takes white space off both ends, as much as there is, and nothing else. |
| `Batches.VoucherStatusStore.RegisterExportBatch` | src/invoice_hub/bookkeeping/batches.py:177-215 | Registers a batch under a revision check, exporting every approved voucher with its planned number; the same batch again is a no-op or a file conflict; an error leaves the store alone. |
| `Batches.VoucherStatusStore.RecordDryRun` | src/invoice_hub/bookkeeping/batches.py:226-262 | Accepts a dry run only for the unchanged file with matching count and totals, and then awaits authorization; otherwise the store is unchanged. |
| `Batches.VoucherStatusStore.BeginImportBatch` | src/invoice_hub/bookkeeping/batches.py:265-317 | Begins only with an authorization that binds batch, file, ledger and period; moves every voucher from exported to importing, or changes nothing. |
| `Batches.VoucherStatusStore.FinalizeImportBatch` | src/invoice_hub/bookkeeping/batches.py:320-490 | Returns the recorded receipt for a known payload; otherwise checks the payload, settles voucher by voucher, records receipt and summary, or changes nothing. |
| `BatchOutcomes.RegisterExactly` | src/invoice_hub/bookkeeping/batches.py:177-215 | A batch is registered exactly if it is known with the same file, or new in the expected revision with distinct vouchers approved in the exported revision; then each is exported under its planned number and nothing else changes. |
| `BatchOutcomes.DryRunExactly` | src/invoice_hub/bookkeeping/batches.py:226-262 | A dry run is accepted exactly for an unchanged file with the batch's count and totals before any authorization. |
| `BatchOutcomes.BeginExactly` | src/invoice_hub/bookkeeping/batches.py:265-317 | An import begins exactly for an awaiting batch with an unchanged file and an authorization naming this batch, file, ledger and period and who gave it; then every voucher is importing. |
| `BatchOutcomes.FinalizeExactly` | src/invoice_hub/bookkeeping/batches.py:320-450 | A payload is recorded exactly if it is new, its mode goes with the batch, its observations name vouchers of the batch once, its evidence suffices, and every voucher can take it. |
| `BatchOutcomes.FinalizeLeaves` | src/invoice_hub/bookkeeping/batches.py:395-490 | What a recorded payload leaves: every voucher settled by its observation, batch and receipt summarising them, nothing else changed. |
| `BatchOutcomes.SuccessImportsAll` | src/invoice_hub/bookkeeping/batches.py:410-411 | Confirmed success: the batch is reconciled and every voucher imported, under the number read for it. |
| `BatchOutcomes.FailureFailsAll` | src/invoice_hub/bookkeeping/batches.py:412-413 | Failed before commit: the batch is failed and every voucher confirmed as failed. |
| `BatchOutcomes.UnknownSettlesNothing` | src/invoice_hub/bookkeeping/batches.py:414-415 | Unknown: every voucher not settled before is unknown, and a settled one was not spoken of and is as it was. |
| `BatchOutcomes.PartialFollowsObservations` | src/invoice_hub/bookkeeping/batches.py:416-419 | Partial: a voucher not settled before is in the state observed of it, or unknown if none was; what is observed of a settled one agrees. |
| `BatchRuns.RunKeepsInv` | src/invoice_hub/bookkeeping/batches.py:177-490 | Over every run of register, dry run, begin, finalize and edits: batches own their vouchers, the batch state is an exact summary of them, and every settlement keeps its evidence. |
| `BatchRuns.OneBatchPerVoucher` | src/invoice_hub/bookkeeping/batches.py:177-215 | A voucher belongs to at most one registered batch and appears in it once. |
| `BatchRuns.SummaryIsExact` | src/invoice_hub/bookkeeping/batches.py:440-458 | The state computed from the voucher states is the one that summarises them exactly. |
| `BatchHistory.RunGrows` | src/invoice_hub/bookkeeping/batches.py:177-490 | Along any run batches stay, receipts, batch audits and the audits of exported vouchers are only extended, settled vouchers never change, and every change takes a new revision. |
| `BatchHistory.ImportBeginsAtMostOnce` | src/invoice_hub/bookkeeping/batches.py:265-317 | In any run a batch enters applying at most once, and a voucher enters importing at most once. |
| `BatchHistory.ReplayReturnsFirstReceipt` | src/invoice_hub/bookkeeping/batches.py:320-329 | A recorded payload replayed after any later operations returns the first receipt and changes nothing. |
| `BatchHistory.SettledIsPermanent` | src/invoice_hub/bookkeeping/batches.py:330-450 | Settled vouchers and decided batches never change, and a partial batch never becomes unknown. |
| `BatchHistory.EverySettlementHasEvidence` | src/invoice_hub/bookkeeping/batches.py:330-450 | In every reachable store an imported voucher was read back with its signature and a number by a recorded payload, and a confirmed failure has absence evidence or settles an uncommitted first attempt. |
| `BatchHistory.AwaitingBatchCanBegin` | src/invoice_hub/bookkeeping/batches.py:265-317 | An awaiting batch with an unchanged file and a binding authorization can always begin. |
| `BatchHistory.ReobservationNeedsTrimmedNumber` | src/invoice_hub/bookkeeping/batches.py:400-430 | Reading an imported voucher back under its recorded number is confirmed if and only if that number is trimmed: it is stored as received and compared stripped. |
| `BatchExample.PaddedNumberIsNeverConfirmed` | src/invoice_hub/bookkeeping/batches.py:400-430 | A run from the empty store after which a voucher is imported under a padded number and the very same observation is refused. |
| `ImportFile.FillRow` | src/invoice_hub/bookkeeping/import_file.py:49-63 | The dictionary of a row, overridden by auxiliary values, gives the specified cell under every column. |
| `ImportFile.WriteImportSheet` | src/invoice_hub/bookkeeping/import_file.py:28-97 | The loops over drafts and lines write one row per line and report, per voucher, its row range and number; bad template facts write nothing. |
| `DryRunner.ParseImportSheet` | scripts/tools/jierui_voucher_import.py:111-144 | The parsing loop yields one group per maximal run of non-blank rows with the same key, or the first amount error. |
| `DryRunner.RunCloses` | scripts/tools/jierui_voucher_import.py:127-143 | A run of equal keys followed by a different key becomes exactly one group. |
| `DryRunner.Compare` | scripts/tools/jierui_voucher_import.py:256-309 | The four error lists hold exactly the duplicates, the unbalanced, the missing and the unmatched; all are empty if and only if the file reconciles. |
| `DryRunner.ReconcilesExactly` | scripts/tools/jierui_voucher_import.py:273-309 | Reconciliation reports nothing if and only if numbers are distinct, every group balances, and the numbered contents of the file are the expected ones. |
| `PreparedBatch.LineReadsBack` | scripts/tools/jierui_voucher_import.py:111-177 | A written line is read back with its key, its amounts per side to the cent, and its stripped texts. |
| `PreparedBatch.CellsAre` | src/invoice_hub/bookkeeping/import_file.py:52-65 | An auxiliary value stands under the column of its name, no attachments are counted, and other columns are empty. |
| `PreparedBatch.SheetRoundTrip` | scripts/tools/jierui_voucher_import.py:111-144 | Parsing the written sheet yields one group per voucher with lines, in order. |
| `PreparedBatch.RowRangeIsRecorded` | src/invoice_hub/bookkeeping/import_file.py:47-72 | The rows of a parsed group are exactly the row range the writer recorded for its voucher. |
| `PreparedBatch.OwnSheetReconciles` | scripts/tools/jierui_voucher_import.py:223-309 | A batch reconciles with its own sheet if and only if every voucher has lines, balances to the cent and carries only trimmed texts. |
| `PreparedBatch.DryRunFile` | scripts/tools/jierui_voucher_import.py:326-407 | The runner's report: count, totals per side and whether the file reconciles. |
| `PreparedBatch.PreparedBatchIs` | src/invoice_hub/bookkeeping/batches.py:57-168 | The recorded batch has one entry per voucher, in order, with key, revision, number and the digest of its date and lines. |
| `PreparedBatch.HalfEvenIsNearest` | src/invoice_hub/bookkeeping/batches.py:20-30 | The batch totals are rounded to the nearest cent, halves to even. |
| `PreparedBatch.FreshBatchDryRun` | src/invoice_hub/bookkeeping/batches.py:226-262 | A freshly prepared batch passes its own dry run if and only if it is not empty, every voucher survives the sheet, and amounts rounded one by one add up to the batch's once-rounded totals. |
| `PreparedBatch.PreparedBatchPasses` | src/invoice_hub/bookkeeping/batches.py:57-168 | Cent-precise, balanced vouchers with trimmed texts always pass their own dry run and then await authorization. |
| `PreparedBatch.PreciseTotalsAgree` | src/invoice_hub/bookkeeping/batches.py:20-30 | With cent-precise amounts the batch totals and the reported totals agree. |
| `PreparedBatch.HalfCentsDisagree` | src/invoice_hub/bookkeeping/batches.py:20-30 | Without cent precision they need not: half-cent lines that balance give differing totals. |
| `PreparedBatch.HalfCentsAreRefused` | src/invoice_hub/bookkeeping/batches.py:226-262 | So a freshly prepared batch of such a voucher is refused by its own dry run. |
| `RecoveryMarkers.DecodesExactlyTheEncoded` | src-tauri/src/monitor_recovery.rs:109-170 | A stored value decodes to a marker if and only if it is what that valid marker encodes to. |
| `RecoveryMarkers.DecodedMarkerIs` | src-tauri/src/monitor_recovery.rs:109-170 | A stored value that decodes holds lower-case hexadecimal names of the right length and the released lease of a running, self-owned backend of the same scope. |
| `MonitorRecovery.Host.Pause` | src-tauri/src/monitor_recovery.rs:293-318 | The pause as it runs, action by action, is the specified transaction. |
| `MonitorRecovery.PauseFacts` | src-tauri/src/monitor_recovery.rs:293-318 | Publishes a marker before it stops, and only after seeing the monitor up; from the stop on the marker is there, whatever fails; reports stopped only when seen down under a still valid lease; with a marker present does nothing and says why; only an unanswered stop leaves something in flight. |
| `MonitorRecovery.PublishAndStopFacts` | src-tauri/src/monitor_recovery.rs:310-317 | The end of a pause, in order publish, stop, observe, with the marker kept once the stop was sent, whatever fails. |
| `MonitorRecovery.Host.Restore` | src-tauri/src/monitor_recovery.rs:320-346 | The restore as it runs, action by action, is the specified transaction. |
| `MonitorRecovery.RestoreFacts` | src-tauri/src/monitor_recovery.rs:320-346 | Acts only on a valid marker of its scope; removes it only right after the monitor was seen running and ready; starts it only when seen down; without faults fails only on a foreign or invalid marker or a monitor not seen ready, and says which; with nothing in flight it exposes no obligation. |
| `MonitorRecovery.StartAndClearFacts` | src-tauri/src/monitor_recovery.rs:339-345 | The end of a restore, in order start, observe, clear; the marker stays unless the clear was reached. |
| `MonitorWorld.StopFacts` | src/invoice_hub/services/monitor_bridge.py:190-222 | A stop sent under its marker keeps every obligation written down; answered, it is over; unanswered, it may have landed or may still be in flight. |
| `MonitorWorld.ClearFacts` | src-tauri/src/monitor_recovery.rs:320-346 | A clear removes only the expected marker, and exposes no obligation unless one is owed or a stop is in flight. |
| `UpdateCoordinator.Execute` | src-tauri/src/update_coordinator.rs:229-295 | The update as it runs, with its single restore, is the specified transaction. |
| `UpdateCoordinator.ExecuteFacts` | src-tauri/src/update_coordinator.rs:229-295 | Effects happen only in the order verify, pause, install, relaunch, with at most one trailing restore; the result names the first that was not accepted, or success if all were; what is installed is what was verified for this candidate; on success a stopped monitor keeps its marker; after a failure without faults that left a stopped monitor or a marker the restore is tried to its end. |
| `UpdateCoordinator.InstallFacts` | src-tauri/src/update_coordinator.rs:256-269 | From the install on: a failure gets one restore exactly when the pause had stopped the monitor, tried until the marker is cleared or the monitor is seen not up. |
| `RecoveryRuns.FailedUpdateOwesNothing` | src-tauri/src/update_coordinator.rs:229-295 | An update begun with nothing in flight and nothing exposed that fails with any recovery but a failed one leaves nothing owed and nothing in flight, unless its pause failed for want of an answer. |
| `RecoveryRuns.UpdateSurvivesExactly` | src-tauri/src/update_coordinator.rs:229-295 | Whatever becomes of such an update, unanswered pauses included: the obligation stays written down at each of its steps, whatever happens next by itself, if and only if none of its clears exposed it. |
| `RecoveryRuns.ObligationSurvivesExactly` | src-tauri/src/monitor_recovery.rs:293-346 | For every run of pauses, restores, updates, outside events and crashes: whatever happens next by itself from any durable state, the obligation stays written down, if and only if no marker was removed while a stop had taken effect or was in flight. |
| `RecoveryRuns.ClearSurvivesExactly` | src-tauri/src/monitor_recovery.rs:320-346 | One clear: the obligation survives it, whatever happens next by itself, if and only if nothing was owed unseen and no stop was in flight. |
| `RecoveryRuns.NothingIsForgotten` | src-tauri/src/monitor_recovery.rs:293-346 | In a run whose clears expose nothing, a monitor the host took down and has not seen up again, or still may take down, has a valid marker of its scope. |
| `RecoveryRuns.OrderlyRunsForgetNothing` | src-tauri/src/monitor_recovery.rs:293-346 | A run, crashes included, loses nothing if no pause fails for want of an answer and no crash comes while a stop is on its way. |
| `RecoveryRuns.AStopThatLandsLateIsForgotten` | src-tauri/src/update_coordinator.rs:241-256 | A run that loses the obligation: the stop's reply is lost, the restore sees the monitor up and clears the marker, then the stop lands. |
| `BackendLifecycle.RunKeepsInv` | src-tauri/src/backend.rs:1161-1213 | Over every interleaving the record and the event history stay consistent. |
| `BackendLifecycle.NothingAfterRevocation` | src-tauri/src/backend.rs:1021-1041 | After the first invalidation no lease is captured or revalidated and the gate is not released; what succeeds is the operation its thread began last, and that beginning came before the flag went down, so none begun later succeeds; every lease handed out is the same one. |
| `BackendLifecycle.CaptureIsExact` | src-tauri/src/backend.rs:1169-1213 | Under the lock a capture or revalidation succeeds if and only if the history holds a release of the gate and no invalidation, even if the generation counter wraps. |
| `BackendLifecycle.OperationIsExact` | src-tauri/src/backend.rs:1021-1213 | An undisturbed capture, confirmation or release does to the record just what it should, and succeeds exactly when it should. |
| `BackendLifecycle.RevocationIsExact` | src-tauri/src/backend.rs:1161-1166 | A revocation, or a release that finds the flag down, leaves the record invalid or terminating, unreleased and under another generation. |
| `UnixMarkerStore.AbsentOrComplete` | src-tauri/src/monitor_recovery.rs:678-763 | For any interleaving, kills and power failures: the fixed name is absent or holds one complete valid marker, and so does everything a power failure can bring back. |
| `UnixMarkerStore.RefinesRegister` | src-tauri/src/monitor_recovery.rs:684-763 | The store is an atomic register: each step changes it only by create-if-absent for a publish or compare-and-delete for a clear of the expected marker. |
| `UnixMarkerStore.SuccessIsDurable` | src-tauri/src/monitor_recovery.rs:736-762 | A publish or clear that reports success cannot be undone by a power failure. |
| `UnixMarkerStore.LoadIsRegister` | src-tauri/src/monitor_recovery.rs:679-682 | What a load returns is what the register holds while the load has the lock. |
| `UnixMarkerStore.JobIsAtomic` | src-tauri/src/monitor_recovery.rs:678-763 | From any reachable state with the lock free, an undisturbed publish, clear or load does to the register exactly what it should, and reports it. |
| `UnixMarkerStore.ProceedKeepsInv` | src-tauri/src/monitor_recovery.rs:678-763 | One system call of one process keeps the invariant and refines the register. |
| `WindowsMarkerStore.RefinesRegister` | src-tauri/src/monitor_recovery/windows_marker_store.rs:380-455 | Without any lock the same register: publish never replaces, and only an object that a clear compared with the expected marker and marked is removed. |
| `WindowsMarkerStore.ClearedIsGone` | src-tauri/src/monitor_recovery/windows_marker_store.rs:440-455 | A clear that succeeded marked an object holding the expected marker, and a marked object cannot keep the fixed name once nobody has it open. |
| `WindowsMarkerStore.LoadIsRegister` | src-tauri/src/monitor_recovery/windows_marker_store.rs:380-388 | What a load returns is what the register held at a moment within the call. |
| `WindowsMarkerStore.PublishedIsReadBack` | src-tauri/src/monitor_recovery/windows_marker_store.rs:430-437 | Over every run, a publish that is about to report success has opened an object holding its whole marker. |
| `WindowsMarkerStore.JobIsAtomic` | src-tauri/src/monitor_recovery/windows_marker_store.rs:380-455 | From any reachable state in which nobody else has an object open, an undisturbed publish, clear or load does to the register exactly what it should, and reports it. |
| `WindowsMarkerStore.ProceedKeepsInv` | src-tauri/src/monitor_recovery/windows_marker_store.rs:389-455 | One action of one process keeps the invariant and refines the register. |
| `HostUpdater.GateOnlyAdvances` | src-tauri/src/host_rpc.rs:263-361 | No step moves the gate back. |
| `HostUpdater.ReadyIsNeverRegained` | src-tauri/src/host_rpc.rs:297-361 | Once the gate has left ready it is never ready again. |
| `HostUpdater.ActionRunsOnceAfterReply` | src-tauri/src/host_rpc.rs:1039-1158 | For every interleaving the update action runs at most once, and only after its success reply was flushed. |
| `HostUpdater.QuitIsBlockedOnlyInFlight` | src-tauri/src/host_rpc.rs:340-346 | The gate blocks a normal quit only while a thread still answers for the commit or the worker has yet to finish it. |
| `HostUpdater.CommitIsForFreshCandidate` | src-tauri/src/host_rpc.rs:545-575 | A commit is reserved at most once, and only for a candidate that a check stored and that was within its time to live when the install that had it looked at the clock. |
| `HostUpdater.CheckStores` | src-tauri/src/host_rpc.rs:462-543 | An undisturbed check stores a new candidate, checked now, in place of any other. |
| `HostUpdater.InstallTakesFresh` | src-tauri/src/host_rpc.rs:545-575 | An undisturbed install empties the slot and reserves the commit exactly if the candidate is fresh. |
| `HostUpdater.CommitRuns` | src-tauri/src/host_rpc.rs:1039-1140 | An undisturbed commit flushes its reply, runs the action and prepares the relaunch. |
| `HostUpdater.WorkerEnds` | src-tauri/src/host_rpc.rs:1085-1104 | What becomes of an action, told it runs, fails, or finds the gate moved on: the gate that each case leaves, and that a worker told otherwise never runs it. |
| `HostUpdater.LossStopsCommits` | src-tauri/src/host_rpc.rs:382-393 | Along any run after ownership is lost no commit is reserved but by an install already past its last look, and a gate that was not ready never is. |
| `HostUpdater.SweepDiscards` | src-tauri/src/host_rpc.rs:445-460 | A sweep removes the candidate in the slot if and only if the generations agree, that is, it is the one it saw or a positive multiple of 2^64 checks newer. |
| `HostUpdater.SweepDiscardsFreshExactly` | src-tauri/src/host_rpc.rs:445-460 | In every run, what a sweep removes is still fresh at that moment if and only if it is within its time to live and was stored after the sweep read the clock, or is newer under the same wrapped generation. |
| `HostUpdater.UndisturbedSweepIsSafe` | src-tauri/src/host_rpc.rs:445-460 | A sweep overtaken neither by a check stored after its clock reading nor by 2^64 checks removes only what has expired. |
| `HostUpdater.FreshCandidateIsSwept` | src-tauri/src/host_rpc.rs:445-460 | A run in which a sweep whose clock reading is one tick older discards a candidate that is brand new. |
| `Decisions.ValidateAllocations` | src/invoice_hub/bookkeeping/decisions.py:120-165 | The checking loops compute the specified verdict and grouping. |
| `Decisions.AcceptedExactly` | src/invoice_hub/bookkeeping/decisions.py:120-165 | Allocations are accepted if and only if ids are distinct, every allocation is sound and every source is covered to the cent. |
| `Decisions.GroupedIsPermutation` | src/invoice_hub/bookkeeping/decisions.py:165 | The accepted allocations are a permutation of the input, source by source. |
| `VoucherLines.MaterializeLines` | src/invoice_hub/bookkeeping/decisions.py:209-272 | The loops over sources and allocations compute the specified lines or the first error. |
| `VoucherLines.BalancesExactly` | src/invoice_hub/bookkeeping/decisions.py:209-272 | Credits are the source totals, debits never exceed them, and the voucher balances if and only if the treatment is settled or no source carries tax. |
| `VoucherLines.SourceLinesBalanceExactly` | src/invoice_hub/bookkeeping/decisions.py:223-271 | Per source, over the materialised lines: credits are its total, and its lines balance if and only if the treatment is settled or the source has no tax. |
| `VoucherLines.GroupedBySource` | src/invoice_hub/bookkeeping/decisions.py:216-218 | Regrouping the accepted allocations gives back each source's own. |
| `SavedDecisions.MergeDecisions` | src/invoice_hub/bookkeeping/decisions.py:168-206 | The merging loops compute the stored decisions with the overrides, or the error. |
| `SavedDecisions.RetainTemplates` | src/invoice_hub/bookkeeping/decisions.py:331-354 | The retaining loops keep per source and role what was decided, overridden by the lines. |
| `SavedDecisions.LineIdsAreDistinct` | src/invoice_hub/bookkeeping/decisions.py:275-294 | All line ids of a materialised voucher are distinct. |
| `SavedDecisions.LineDecidesItself` | src/invoice_hub/bookkeeping/decisions.py:275-328 | A line's own account and auxiliary values decide it again, and any line in the same place alike. |
| `SavedDecisions.ResaveIsFixedPoint` | src/invoice_hub/bookkeeping/decisions.py:33-117 | Saving again with the same allocations, treatment and catalogs and no overrides reproduces the proposal. |
| `SavedDecisions.SwitchingBackRestores` | src/invoice_hub/bookkeeping/decisions.py:331-354 | Saving under another tax treatment and then under the first one again restores the original lines. |
| `SavedLines.SaveExactly` | src/invoice_hub/bookkeeping/decisions.py:33-117 | A save succeeds exactly if there are sources, the allocations are acceptable, each decision names one line or template there is, and every line has an account and values it can take. |
| `SavedLines.LinesAreRuled` | src/invoice_hub/bookkeeping/decisions.py:168-206 | Every saved line has the account asked for it, else its template's, else its stored one, its own id before its template's, with the values that go with it. |
| `SavedLines.OverrideTakesEffect` | src/invoice_hub/bookkeeping/decisions.py:200-205 | A decision that was asked for takes effect: its account, and its auxiliary values with the allocation's project filled in. |
| `SavedLines.OthersKeepTheirAccount` | src/invoice_hub/bookkeeping/decisions.py:168-199 | A line nothing was asked for keeps its account and auxiliary values. |
| `SavedLines.SavedLinesAre` | src/invoice_hub/bookkeeping/decisions.py:209-328 | Which lines there are, exactly: per source a debit line for each allocation, one for deductible tax, one payable, each with its amount, id, references and summary. |
| `ProposalStore.DecidedExactly` | src/invoice_hub/bookkeeping/decisions.py:33-60 | A decision is applied exactly to an editable voucher in the store and proposal revision it was made for, named and signed, if the save succeeds. |
| `ProposalStore.SaveSnapshot` | src/invoice_hub/bookkeeping/decisions.py:54-83 | The save pipeline with its loops computes the specified proposal or error. |
| `ProposalStore.VoucherStore.ApplyVoucherDecision` | src/invoice_hub/bookkeeping/decisions.py:33-117 | Under store and proposal revision checks one item is replaced, awaiting review; an error changes nothing. |
| `ProposalStore.BalanceFlagIsExact` | src/invoice_hub/bookkeeping/decisions.py:62-78 | A saved proposal is marked balanced if and only if the treatment is settled or no source carries tax. |
| `PostedVouchers.SavedProposalAsDraft` | src/invoice_hub/bookkeeping/import_file.py:28-72 | A saved proposal makes a cent-precise draft with lines, balanced if and only if its tax treatment is settled or no source carries tax. |
| `PostedVouchers.SavedProposalsPassExactly` | src/invoice_hub/bookkeeping/batches.py:57-168 | A batch of saved proposals passes its own dry run if and only if it is not empty, every tax treatment is settled or without tax, and all texts are trimmed. |
| `MappingRules.NormalizeIsNormal` | src/invoice_hub/bookkeeping/mapping.py:115-117 | A normalised text has no white space but single inner spaces. |
| `MappingRules.NormalizeFixes` | src/invoice_hub/bookkeeping/mapping.py:115-117 | Normalising changes exactly the texts that are not normal, so it is idempotent. |
| `MappingRules.NormalizeIsExact` | src/invoice_hub/bookkeeping/mapping.py:115-117 | The normalised text is the only normal one with the same characters and the same gaps. |
| `MappingRules.JoinIsInjective` | src/invoice_hub/bookkeeping/mapping.py:134-145 | Joining separator-free fields loses nothing. |
| `MappingRules.DatesCompareAsDays` | src/invoice_hub/bookkeeping/mapping.py:436-441 | Comparing normalised dates as texts is comparing days. |
| `MappingRules.IsoDateExactly` | src/invoice_hub/bookkeeping/mapping.py:148-156 | A text is a date exactly if, white space apart, it is the digits of a day with or without dashes. |
| `MappingRules.NormalizedIsStable` | src/invoice_hub/bookkeeping/mapping.py:158-188 | Normalising a rule twice is normalising it once. |
| `MappingRules.NormalizedRuleExactly` | src/invoice_hub/bookkeeping/mapping.py:158-188 | A normalised rule has each text and date normalised in its place and is otherwise the same; it exists exactly if its dates are dates in order. |
| `MappingRules.IdsTellScopesApart` | src/invoice_hub/bookkeeping/mapping.py:120-145 | Normalised rules have the same id if and only if they have the same scope. |
| `RuleResolution.BestRank` | src/invoice_hub/bookkeeping/mapping.py:508-509 | The best rank is some rule's rank and no rule ranks above it. |
| `RuleResolution.ResolvesExactly` | src/invoice_hub/bookkeeping/mapping.py:474-559 | Unmatched if and only if nothing applies; ambiguous if and only if two top-ranked applicable rules differ in target, and then the candidates are the top-ranked ones; otherwise the top-ranked rule of least id. |
| `RuleResolution.OrderDoesNotMatter` | src/invoice_hub/bookkeeping/mapping.py:474-559 | With unique ids the outcome depends only on the set of rules. |
| `RuleResolution.IrrelevantRules` | src/invoice_hub/bookkeeping/mapping.py:474-559 | Adding an inapplicable rule, or one ranked below an applicable rule, changes nothing, unless the context date is no date and the rule is the first whose other fields match. |
| `RuleResolution.UndatedContextExposesRule` | src/invoice_hub/bookkeeping/mapping.py:427-435 | In a context whose date is no date an added rule changes the outcome if and only if its other fields match and no rule's did before. |
| `RuleResolution.RefusedExactly` | src/invoice_hub/bookkeeping/mapping.py:427-435 | A context date that is no date is refused if and only if some active rule matches the other fields. |
| `RuleChoice.InScopeExactly` | src/invoice_hub/bookkeeping/mapping.py:413-442 | A rule applies exactly if it is active, each set scope field is the context's normalised text, and the day is within its dates. |
| `RuleChoice.ChoiceIsExact` | src/invoice_hub/bookkeeping/mapping.py:445-511 | The verdict told by the fields: rules made by hand first, then those specific in more fields, then those of higher priority; ambiguous exactly if two such rules have different targets. |
| `RuleChoice.NormalizedFirst` | src/invoice_hub/bookkeeping/mapping.py:491-511 | One rule that cannot be normalised makes the list invalid, whether it applies or not; otherwise the verdict is that over the normalised rules. |
| `MappingStore.VersionIsExact` | src/invoice_hub/bookkeeping/mapping.py:216-228 | Two stores have the same version if and only if binding and rules agree, up to order and to who confirmed them. |
| `MappingStore.LoadIsSound` | src/invoice_hub/bookkeeping/mapping.py:244-307 | Loading yields only sound stores and gives back every sound store exactly; a first-generation file asks for migration, unless it is malformed. |
| `MappingStore.WrittenIsSound` | src/invoice_hub/bookkeeping/mapping.py:310-339 | What a write leaves loads to the same store, one revision on, with its receipts. |
| `MappingStore.MappingFile.WriteMapping` | src/invoice_hub/bookkeeping/mapping.py:310-339 | A write under its checks replaces the file with the specified store, or leaves it. |
| `MappingStore.MappingFile.AppendRule` | src/invoice_hub/bookkeeping/mapping.py:364-410 | An append computes the specified file and rule, or leaves the file. |
| `MappingWrites.LoadExactly` | src/invoice_hub/bookkeeping/mapping.py:244-307 | Which files load, exactly, and as what; the others ask for migration or are corrupt. |
| `MappingWrites.WriteExactly` | src/invoice_hub/bookkeeping/mapping.py:310-339 | A write is accepted exactly in the expected revision, under the store's or its first binding, with rules that can be normalised to distinct scopes; it then holds just these. |
| `MappingWrites.AppendExactly` | src/invoice_hub/bookkeeping/mapping.py:364-410 | An append is accepted exactly if the rule is there already or may take its place under the rules of origin and naming. |
| `MappingWrites.AppendLeaves` | src/invoice_hub/bookkeeping/mapping.py:389-410 | What an accepted append leaves: the file as it is, or the rules but those of its scope and the named one, and the rule. |
| `MappingWrites.StaleOrForeignIsRefused` | src/invoice_hub/bookkeeping/mapping.py:320-327 | A stale revision or a foreign binding is refused, and the file is what it was. |
| `MappingStore.AppendIsSafe` | src/invoice_hub/bookkeeping/mapping.py:364-410 | After an accepted append the rule is stored and nothing else is new, the file is untouched or one revision on, and a rule is gone only if a manual rule named it or both it and its successor in the same scope came from the assistant. |
| `MappingStore.RepeatedAppendIsNoOp` | src/invoice_hub/bookkeeping/mapping.py:389-392 | Appending a rule that was just appended leaves the file as it is. |
| `MappingStore.AppendsAreSafe` | src/invoice_hub/bookkeeping/mapping.py:364-410 | Over any run of appends the store stays sound, the revision grows by at most one per call, receipts stay, and a manual rule is gone only if a manual rule named it. |
| `MappingMigration.StepIsSafe` | src/invoice_hub/bookkeeping/mapping_migration.py:304-334 | One step of an apply keeps the exact source under the live or the backup name and never changes a backup. |
| `MappingMigration.SourceIsNeverLost` | src/invoice_hub/bookkeeping/mapping_migration.py:304-444 | At every point of every run of migrations, broken off anywhere, appends and writes, with the power on: the source content is under the live or the backup name, and no backup ever changes. |
| `MappingMigration.SourceSurvivesPowerFailuresExactly` | src/invoice_hub/bookkeeping/mapping_migration.py:304-444 | In runs of migrations, appends and writes with power failures anywhere: the source survives every one if and only if each migration replaced the live file over a backup that no power failure could take away. |
| `MappingMigration.StepIsDurableExactly` | src/invoice_hub/bookkeeping/mapping_migration.py:304-334 | One step keeps the source through a power failure if and only if it does not replace the live file over a backup that is not durable. |
| `MappingMigration.OwnBackupIsCareful` | src/invoice_hub/bookkeeping/mapping_migration.py:304-334 | A migration that writes its own backup and whose directory syncs work is careful, wherever it breaks off. |
| `MappingMigration.UnsyncedBackupCanBeLost` | src/invoice_hub/bookkeeping/mapping_migration.py:305-309 | For every source that can be migrated, a run that loses it: an attempt stops before the directory sync, the next trusts the backup it finds and replaces the live file, and the power fails. |
| `MappingMigration.AppliedMeansMigrated` | src/invoice_hub/bookkeeping/mapping_migration.py:356-444 | An apply that reports success on a first-generation file has the backup and the new store in place, and on disk if its directory syncs worked. |
| `MappingMigration.MigrationIsFaithful` | src/invoice_hub/bookkeeping/mapping_migration.py:94-276 | The new store is sound, one revision on, and has exactly one pending rule per old rule, in order, with unique ids. |
| `MappingMigration.MigrationCarriesFields` | src/invoice_hub/bookkeeping/mapping_migration.py:94-174 | Every old rule is carried over in its place: seller, project, accounts, origin, confirmation and id each in their own fields. |
| `MappingMigration.ConflictsExactly` | src/invoice_hub/bookkeeping/mapping_migration.py:183-276 | What has no conflicts, exactly: known fields and origins, a revision, ids that belong to their scopes, and no two rules of one scope. |
| `MappingMigration.VerdictExactly` | src/invoice_hub/bookkeeping/mapping_migration.py:366-405 | An apply goes on exactly if it is confirmed and signed, the file is the source it was previewed for, at its revision, with the same preview and no conflicts. |
| `MappingMigration.UndisturbedApplies` | src/invoice_hub/bookkeeping/mapping_migration.py:366-444 | An apply that is due and undisturbed succeeds, with the source under the backup name and the new store live, both on disk. |
| `MappingMigration.ReplayIsRecognised` | src/invoice_hub/bookkeeping/mapping_migration.py:337-392 | Replaying an applied request whose result is on disk, after any later appends, writes of whole rule lists, migration attempts and power failures, reports that it was applied and writes nothing. |
| `ReplayWindow.ReplayGuard.ConsumeChallenge` | src/invoice_hub/api/app.py:244-254 | Queue and set change together as specified, and the result says whether the challenge was accepted. |
| `ReplayWindow.ConsumeKeepsAgreement` | src/invoice_hub/api/app.py:244-254 | Queue and set keep holding the same distinct challenges, at most 128. |
| `ReplayWindow.GuardIsWindow` | src/invoice_hub/api/app.py:244-254 | After any run the queue is the last 128 accepted challenges, and the next one is accepted if and only if it is not among them. |
| `ReplayWindow.WindowIs128` | src/invoice_hub/api/app.py:244-254 | The guard remembers just the last 128 accepted challenges. |
| `DemoTax.SplitIsExact` | website/demo-data.js:63-71 | Net and tax add up to gross, the given side is kept, and the computed side is within half a cent of the exact quotient. |
| `DemoTax.NetIsRecovered` | website/demo-data.js:63-71 | From net to gross and back gives the same net and tax for every amount and rate. |
| `DemoTax.NetIsRecoveredThroughText` | website/demo-data.js:63-71 | Through the text field the way back works if and only if the gross amount still has at most nine digits before the point. |
| `DemoTax.GrossIsRecoveredExactly` | website/demo-data.js:63-71 | From gross to net and back gives the same breakdown if and only if the remainder of a hundred times the gross by a hundred plus the rate is at most fifty or at least fifty-one plus the rate. |
| `DemoTax.FiguresAreSafe` | website/demo-data.js:64-70 | All figures stay non-negative and below 2^53. |
| `DemoTax.AmountRoundTrip` | website/demo-data.js:64-66 | The text of an amount of cents is read back exactly, and refused exactly beyond nine digits. |
| `DemoTax.AmountExactly` | website/demo-data.js:64-66 | Which texts the amount field takes, exactly, and how many cents each is worth. |
| `DemoTax.SummarizeDetails` | website/demo-data.js:41-52 | One group per project, rate, specification and unit, each the sum of its line items; the groups together conserve quantity and net; missing families are counted. |

## Left out

- Sockets, deadlines, process control, windows and dialogs: the connection is a script of reads, and bridge,
  storage, installer and relaunch outcomes are free at every call.
- Digests and signatures: a digest is the content it is taken of, so collisions and the proof check of a
  monitor recovery request are not part of this model; only the order of rule digests is a parameter.
- JSON and XLSX byte formats: a workbook is a grid of texts (cell typing, such as a text that starts with an
  equals sign, is not modelled), a marker is its fields, a mapping file its content.
- Decimal texts with exponents, non-ASCII digits, underscores or a negative zero: amounts are plain decimals.
- Types coerced from payloads (a number given as text, a missing field read as empty) beyond the fields shown.
- Timestamps, log files and the texts of error messages; errors are told apart where the code branches on them.
- `prepare_import_batch_files` for an already existing batch directory.
- Voucher edits by hand outside decisions: one guarded edit operation in the batch runs stands for them.
- MonitorWorld.StopFacts: a second host acting on the same monitor at the same time is not modelled, and a stop
  in flight may outlive a later start; the source's start clears the stop flag, but not a request still queued.
- WindowsMarkerStore.RefinesRegister: processes may be killed at any point, but the order in which Windows
  makes directory changes durable in a power failure is not modelled; the platform promises none.
- HostUpdater.ActionRunsOnceAfterReply: a state machine on values, one atomic action per step; locks are
  single steps and lock poisoning is an early return.
- UnixMarkerStore.RefinesRegister: processes that ignore the advisory lock, and entries that are no regular
  file, are not modelled.
- SavedDecisions.RetainTemplates: templates are kept as a map; the stored list is that map in the order of its
  keys.
- RuleResolution.ResolvesExactly: ambiguous candidates are a set; the reported list is that set in the order
  of the digests.
- MappingRules.DatesCompareAsDays: dates are written with or without dashes; the ISO week form, which the
  library function also accepts, is refused here.
- MappingMigration.StepIsSafe: the atomic replacement of the live file is one step, made durable by its
  directory sync; a temporary file has one name; the preview's warnings are part of its digest only through the
  source.
- ImportFile.WriteImportSheet: numbers are assigned in the order of the drafts; the optional argument
  `planned_voucher_nos` that overrides them is not modelled.
- PreparedBatch.LineReadsBack: assumes template headers without a padded copy of a column the parser reads, and
  auxiliary names other than those columns; with either, the parser reads another cell, and only
  `DryRunner.ReconcilesExactly`, which holds for every sheet, says what is reported.
- PreparedBatch.SheetRoundTrip: the same assumption on headers and auxiliary names.
- PreparedBatch.FreshBatchDryRun: the same assumption on headers and auxiliary names.
- PostedVouchers.SavedProposalsPassExactly: the same assumption on headers and auxiliary names.
- PreparedBatch.DryRunFile: the expected vouchers are the drafts of the batch; the runner's checks of the status
  file it reads them from are not modelled.
- ProposalStore.SaveSnapshot: the business, payment, evidence and receiving fields, which the save copies
  from the request, are not modelled.
- ProposalStore.VoucherStore.ApplyVoucherDecision: the audit entry and the check of the stored proposal's digest
  are not modelled.
- The command-line runner's path checks, catalogs, OCR, routing, skins, the rest of the website
  (`selectionSummary`, `printPlan`, `referenceAmount`) and the release scripts: none of them takes part in a
  protocol or a round trip stated above.
