/** The two halves of the pipeline together: proposals saved with their decisions, written to the import
    sheet, and put through their own dry run. */
module PostedVouchers {
  import opened Results
  import opened Text
  import opened Money
  import D = Decisions
  import V = VoucherLines
  import S = SavedDecisions
  import ProposalStore
  import opened ImportFile
  import opened DryRunner
  import opened PreparedBatch
  import Batches

  function SideOf(direction: D.Direction): Direction { if direction == D.Debit then DebitSide else CreditSide }

  /** The line as the sheet writer gets it: its amount is the number of cents as an exact decimal. */
  function PostedLine(line: D.Line): Line {
    Line(line.summary, line.account, SideOf(line.direction), line.amount as real / 100.0, line.aux)
  }

  function PostedLines(lines: seq<D.Line>): seq<Line> {
    seq(|lines|, i requires 0 <= i < |lines| => PostedLine(lines[i]))
  }

  /** A saved proposal with the voucher's key, revision and date. */
  datatype Posted = Posted(key: string, revision: string, date: string, proposal: S.Snapshot)

  function DraftOf(p: Posted): Draft { Draft(p.key, p.revision, p.date, PostedLines(p.proposal.lines)) }

  function DraftsOf(posted: seq<Posted>): seq<Draft> {
    seq(|posted|, i requires 0 <= i < |posted| => DraftOf(posted[i]))
  }

  /** The proposal is the result of saving some decision. */
  ghost predicate Saved(proposal: S.Snapshot) {
    exists before, allocations, raw, treatment, catalogs :: S.Save(before, allocations, raw, treatment, catalogs) == Ok(proposal)
  }

  lemma WholeCentsArePrecise(cents: int)
    ensures CentPrecise(cents as real / 100.0) && HalfUp(cents as real / 100.0) == cents
  {
    var amount := cents as real / 100.0;
    assert amount * 100.0 == cents as real;
    assert (cents as real).Floor == cents;
    HalfUpIsExact(amount, cents);
  }

  lemma {:induction false} SidesAgree(lines: seq<D.Line>, direction: D.Direction)
    ensures SideTotal(PostedLines(lines), SideOf(direction)) == V.SideTotal(lines, direction)
  {
    hide HalfUp;
    if lines != [] {
      var n := |lines| - 1;
      SidesAgree(lines[..n], direction);
      assert PostedLines(lines)[..n] == PostedLines(lines[..n]);
      WholeCentsArePrecise(lines[n].amount);
    }
  }

  lemma PlansAreThere(sources: seq<D.Source>, accepted: seq<D.Allocation>, treatment: D.Treatment)
    requires sources != []
    ensures V.Plans(sources, accepted, treatment) != []
  {
  }

  /** A saved proposal makes a cent-precise draft with lines, balanced if and only if the tax treatment is
      settled or no source carries tax. */
  lemma SavedProposalAsDraft(p: Posted)
    requires Saved(p.proposal)
    ensures PreciseDraft(DraftOf(p)) && DraftOf(p).lines != []
    ensures Balanced(DraftOf(p)) <==> p.proposal.treatment != D.Pending || V.NoTax(p.proposal.sources)
  {
    hide S.Save, V.Plans, V.LinesOf, SideTotal, V.SideTotal, CentPrecise, V.NoTax, D.Acceptable, S.Retained, S.Merged;
    var before, allocations, raw, treatment, catalogs :| S.Save(before, allocations, raw, treatment, catalogs) == Ok(p.proposal);
    S.SaveParts(before, allocations, raw, treatment, catalogs);
    ProposalStore.BalanceFlagIsExact(before, allocations, raw, treatment, catalogs);
    PlansAreThere(before.sources, p.proposal.allocations, treatment);
    SidesAgree(p.proposal.lines, D.Debit);
    SidesAgree(p.proposal.lines, D.Credit);
    forall j | 0 <= j < |DraftOf(p).lines| ensures CentPrecise(DraftOf(p).lines[j].amount) {
      WholeCentsArePrecise(p.proposal.lines[j].amount);
    }
  }

  /** From saved decisions to the dry run. A batch of saved proposals passes its own dry run if and only if
      it is not empty, every tax treatment is settled or without tax to settle, and all texts are trimmed. */
  lemma SavedProposalsPassExactly(
    columns: seq<string>, posted: seq<Posted>, digest: ((string, seq<Line>)) -> Batches.Hash, store: Batches.Store,
    id: Batches.BatchId, path: string, fileHash: Batches.Hash, ledger: string, period: string)
    requires forall i :: 0 <= i < |posted| ==> Saved(posted[i].proposal)
    requires CleanColumns(columns) && PlainDrafts(DraftsOf(posted))
    requires id in store.batches
             && store.batches[id] == PrepareBatch(DraftsOf(posted), digest, id, path, fileHash, ledger, period)
    ensures var report := Report(SheetOf(columns, DraftsOf(posted)), DraftsOf(posted), fileHash);
            && report.Some?
            && (Batches.DryRunResult(store, id, report.value, Some(fileHash)).Ok? <==>
                  && posted != []
                  && forall i :: 0 <= i < |posted| ==>
                       && (posted[i].proposal.treatment != D.Pending || V.NoTax(posted[i].proposal.sources))
                       && TrimmedTexts(DraftOf(posted[i])))
  {
    hide Saved, PlainDrafts, CleanColumns, PrepareBatch, Report, SheetOf, Batches.DryRunResult, TotalsAgree,
         PreciseDraft, Balanced, TrimmedTexts, DraftOf, V.NoTax;
    var drafts := DraftsOf(posted);
    FreshBatchDryRun(columns, drafts, digest, store, id, path, fileHash, ledger, period);
    forall i | 0 <= i < |posted|
      ensures PreciseDraft(drafts[i])
      ensures Survives(drafts[i]) <==>
                && (posted[i].proposal.treatment != D.Pending || V.NoTax(posted[i].proposal.sources))
                && TrimmedTexts(DraftOf(posted[i])) {
      SavedProposalAsDraft(posted[i]);
    }
    PreciseTotalsAgree(drafts);
  }
}
