/** A freshly prepared batch against its own dry run: the sheet the writer makes is parsed back,
    reconciled with the vouchers it was made from, and reported to the batch state machine. */
module PreparedBatch {
  import opened Results
  import opened Text
  import opened Money
  import opened ImportFile
  import opened DryRunner
  import Batches

  /** The columns the parser reads. */
  const PARSED: set<string> := REQUIRED - {ATTACHMENTS}

  /** Template columns whose header is not a padded copy of a column the parser reads. */
  predicate CleanColumns(columns: seq<string>) {
    && FactsValid(columns)
    && (forall i :: 0 <= i < |columns| && Strip(columns[i]) in PARSED ==> columns[i] == Strip(columns[i]))
  }

  predicate PlainAux(line: Line) { line.aux.Keys !! PARSED }

  predicate PlainDraft(draft: Draft) { forall j :: 0 <= j < |draft.lines| ==> PlainAux(draft.lines[j]) }

  predicate PlainDrafts(drafts: seq<Draft>) { forall k :: 0 <= k < |drafts| ==> PlainDraft(drafts[k]) }

  function SheetOf(columns: seq<string>, drafts: seq<Draft>): Sheet { WriteSpec(columns, drafts).sheet }

  function Stripped(columns: seq<string>): seq<string> {
    seq(|columns|, i requires 0 <= i < |columns| => Strip(columns[i]))
  }

  function LineRecord(columns: seq<string>, number: string, date: string, line: Line): Record {
    RecordOf(Stripped(columns), RowFor(columns, number, date, line))
  }

  // ---------------------------------------------------------------- one line

  lemma FieldIsCell(columns: seq<string>, number: string, date: string, line: Line, name: string)
    requires CleanColumns(columns) && name in PARSED
    ensures Field(LineRecord(columns, number, date, line), name) == Strip(CellFor(name, number, date, line))
  {
    hide Strip, CellFor, CentsText, HalfUp;
    var headers := Stripped(columns);
    TrimmedColumnIsHeader(columns, name);
    var i := LastColumn(headers, name);
    assert columns[i] == name;
    assert RowFor(columns, number, date, line)[i] == CellFor(name, number, date, line);
  }

  lemma TrimmedColumnIsHeader(columns: seq<string>, name: string)
    requires CleanColumns(columns) && name in PARSED
    ensures name in Stripped(columns)
  {
    assert name in columns;
    var i :| 0 <= i < |columns| && columns[i] == name;
    FixedNamesAreTrimmed();
    StripFixes(name);
    assert Stripped(columns)[i] == name;
  }

  lemma FixedNamesAreTrimmed()
    ensures forall name :: name in PARSED ==> Trimmed(name)
  {
  }

  lemma StripText(text: string)
    requires Trimmed(text)
    ensures Strip(text) == text
  {
    StripFixes(text);
  }

  function SideText(line: Line, direction: Direction): string {
    if line.direction == direction then CentsText(HalfUp(line.amount)) else ""
  }

  lemma FixedCells(number: string, date: string, line: Line)
    requires PlainAux(line)
    ensures CellFor(KIND, number, date, line) == VOUCHER_KIND
    ensures CellFor(NUMBER, number, date, line) == number
    ensures CellFor(DATE, number, date, line) == date
    ensures CellFor(SUMMARY, number, date, line) == line.summary
    ensures CellFor(ACCOUNT, number, date, line) == line.account
    ensures CellFor(DEBIT, number, date, line) == SideText(line, DebitSide)
    ensures CellFor(CREDIT, number, date, line) == SideText(line, CreditSide)
  {
    hide CentsText, HalfUp;
    assert KIND in PARSED && NUMBER in PARSED && DATE in PARSED && SUMMARY in PARSED;
    assert ACCOUNT in PARSED && DEBIT in PARSED && CREDIT in PARSED;
  }

  /** Every cell of a written row: an auxiliary value under the column of its name, whatever else would be there;
      otherwise the fixed content of the fixed columns, with no attachments, and nothing in any other. */
  lemma CellsAre(column: string, number: string, date: string, line: Line)
    ensures column in line.aux ==> CellFor(column, number, date, line) == line.aux[column]
    ensures column !in line.aux && column == "附单据数" ==> CellFor(column, number, date, line) == "0"
    ensures column !in line.aux && column !in REQUIRED ==> CellFor(column, number, date, line) == ""
  {
    hide CentsText, HalfUp;
  }

  lemma LineFields(columns: seq<string>, number: string, date: string, line: Line)
    requires CleanColumns(columns) && PlainAux(line)
    ensures var record := LineRecord(columns, number, date, line);
            && Field(record, KIND) == VOUCHER_KIND && Field(record, NUMBER) == Strip(number)
            && Field(record, DATE) == Strip(date) && Field(record, SUMMARY) == Strip(line.summary)
            && Field(record, ACCOUNT) == Strip(line.account)
            && Field(record, DEBIT) == SideText(line, DebitSide) && Field(record, CREDIT) == SideText(line, CreditSide)
  {
    hide CellFor, LineRecord, CleanColumns, Field, Strip, CentsText, HalfUp;
    assert KIND in PARSED && NUMBER in PARSED && DATE in PARSED && SUMMARY in PARSED;
    assert ACCOUNT in PARSED && DEBIT in PARSED && CREDIT in PARSED;
    hide PARSED;
    FixedCells(number, date, line);
    FieldIsCell(columns, number, date, line, KIND);
    FieldIsCell(columns, number, date, line, NUMBER);
    FieldIsCell(columns, number, date, line, DATE);
    FieldIsCell(columns, number, date, line, SUMMARY);
    FieldIsCell(columns, number, date, line, ACCOUNT);
    FieldIsCell(columns, number, date, line, DEBIT);
    FieldIsCell(columns, number, date, line, CREDIT);
    MoneyRoundTrip(HalfUp(line.amount));
    StripText(CentsText(HalfUp(line.amount)));
    StripText(VOUCHER_KIND);
    StripText("");
  }

  function ExpectedLine(line: Line): SignatureLine {
    SignatureLine(line.summary, line.account, line.direction, HalfUp(line.amount))
  }

  function ReadLine(line: Line): SignatureLine {
    SignatureLine(Strip(line.summary), Strip(line.account), line.direction, HalfUp(line.amount))
  }

  function SideAmount(line: Line, direction: Direction): int {
    if line.direction == direction then HalfUp(line.amount) else 0
  }

  /** What the parser makes of one written line. */
  lemma LineReadsBack(columns: seq<string>, number: string, date: string, line: Line)
    requires CleanColumns(columns) && PlainAux(line)
    ensures var record := LineRecord(columns, number, date, line);
            && !Blank(record)
            && KeyOf(record) == GroupKey(VOUCHER_KIND, NormalizeNo(Strip(number)), Strip(date))
            && SideCents(record, DEBIT) == Some(SideAmount(line, DebitSide))
            && SideCents(record, CREDIT) == Some(SideAmount(line, CreditSide))
            && SignatureLineOf(record) == Some(ReadLine(line))
  {
    LineFields(columns, number, date, line);
    MoneyRoundTrip(HalfUp(line.amount));
    EmptyIsZero();
    var record := LineRecord(columns, number, date, line);
    assert Field(record, KIND) == "记" != "";
    hide LineRecord, Strip, CentsText, HalfUp, ParseMoney, NormalizeNo;
    assert KIND in record && record[KIND] != "";
  }

  lemma EmptyIsZero()
    ensures ParseMoney("") == Some(0)
  {
  }

  // ---------------------------------------------------------------- planned numbers

  lemma PlannedNoReadsBack(k: nat)
    ensures Strip(PlannedNo(k)) == PlannedNo(k) && NormalizeNo(PlannedNo(k)) == PlannedNo(k)
    ensures AllDigits(PlannedNo(k)) && NatValue(PlannedNo(k)) == k + 1
  {
    NatTextParses(k + 1);
    ZeroFillKeepsValue(NatText(k + 1), 3);
    DigitsAreTrimmed(PlannedNo(k));
    StripText(PlannedNo(k));
    assert |PlannedNo(k)| >= 3;
  }

  lemma PlannedNosDiffer(j: nat, k: nat)
    requires j != k
    ensures PlannedNo(j) != PlannedNo(k)
  {
    PlannedNoReadsBack(j);
    PlannedNoReadsBack(k);
  }

  // ---------------------------------------------------------------- one voucher

  function SideTotal(lines: seq<Line>, direction: Direction): int {
    if lines == [] then 0
    else SideTotal(lines[..|lines| - 1], direction) + SideAmount(lines[|lines| - 1], direction)
  }

  function ReadLines(lines: seq<Line>): seq<SignatureLine> {
    seq(|lines|, j requires 0 <= j < |lines| => ReadLine(lines[j]))
  }

  function ExpectedLines(lines: seq<Line>): seq<SignatureLine> {
    seq(|lines|, j requires 0 <= j < |lines| => ExpectedLine(lines[j]))
  }

  /** The rows of one voucher as the parser numbers and reads them. */
  function Block(columns: seq<string>, number: string, first: nat, draft: Draft): seq<Numbered> {
    seq(|draft.lines|, j requires 0 <= j < |draft.lines| =>
      Numbered(first + j, LineRecord(columns, number, draft.date, draft.lines[j])))
  }

  lemma {:induction false} BlockReads(columns: seq<string>, number: string, first: nat, draft: Draft, n: nat)
    requires CleanColumns(columns) && PlainDraft(draft) && n <= |draft.lines|
    ensures var rows := Block(columns, number, first, draft)[..n];
            && Total(rows, DEBIT) == Some(SideTotal(draft.lines[..n], DebitSide))
            && Total(rows, CREDIT) == Some(SideTotal(draft.lines[..n], CreditSide))
            && SignatureLines(rows) == Some(ReadLines(draft.lines[..n]))
  {
    hide LineRecord, CleanColumns, SideCents, SignatureLineOf, ReadLine, SideAmount, Strip, NormalizeNo, Blank, KeyOf;
    var all := Block(columns, number, first, draft);
    if n > 0 {
      var rows, lines := all[..n], draft.lines[..n];
      BlockReads(columns, number, first, draft, n - 1);
      assert rows[..|rows| - 1] == all[..n - 1] && lines[..|lines| - 1] == draft.lines[..n - 1];
      LineReadsBack(columns, number, draft.date, draft.lines[n - 1]);
      assert ReadLines(lines) == ReadLines(draft.lines[..n - 1]) + [ReadLine(draft.lines[n - 1])];
    } else {
      assert all[..0] == [] && draft.lines[..0] == [];
      assert ReadLines([]) == [];
    }
  }

  function Span(first: nat, count: nat): seq<nat> { seq(count, j requires 0 <= j < count => first + j) }

  /** The group the parser makes of the voucher at position `k`. */
  function GroupFor(drafts: seq<Draft>, k: nat): Group
    requires k < |drafts|
  {
    var lines := drafts[k].lines;
    Group(GroupKey(VOUCHER_KIND, PlannedNo(k), Strip(drafts[k].date)), Span(LinesUpTo(drafts, k) + 2, |lines|),
          SideTotal(lines, DebitSide), SideTotal(lines, CreditSide), Signature(Strip(drafts[k].date), ReadLines(lines)))
  }

  function BlockOf(columns: seq<string>, drafts: seq<Draft>, k: nat): seq<Numbered>
    requires k < |drafts|
  {
    Block(columns, PlannedNo(k), LinesUpTo(drafts, k) + 2, drafts[k])
  }

  function KeyFor(drafts: seq<Draft>, k: nat): GroupKey
    requires k < |drafts|
  {
    GroupKey(VOUCHER_KIND, PlannedNo(k), Strip(drafts[k].date))
  }

  lemma BlockKeys(columns: seq<string>, drafts: seq<Draft>, k: nat, j: nat)
    requires CleanColumns(columns) && PlainDrafts(drafts) && k < |drafts| && j < |drafts[k].lines|
    ensures KeyOf(BlockOf(columns, drafts, k)[j].record) == KeyFor(drafts, k)
    ensures !Blank(BlockOf(columns, drafts, k)[j].record)
  {
    hide LineRecord, CleanColumns, KeyOf, Blank, PlannedNo, NormalizeNo, Strip, SideCents, SignatureLineOf;
    assert PlainDraft(drafts[k]) && PlainAux(drafts[k].lines[j]);
    LineReadsBack(columns, PlannedNo(k), drafts[k].date, drafts[k].lines[j]);
    PlannedNoReadsBack(k);
  }

  lemma BlockBuilds(columns: seq<string>, drafts: seq<Draft>, k: nat)
    requires CleanColumns(columns) && PlainDrafts(drafts) && k < |drafts|
    ensures BuildGroup(KeyFor(drafts, k), BlockOf(columns, drafts, k)) == Ok(GroupFor(drafts, k))
  {
    hide LineRecord, CleanColumns, Total, SignatureLines, SideTotal, ReadLines, PlannedNo, Strip, PlainDraft;
    var rows := BlockOf(columns, drafts, k);
    var n := |drafts[k].lines|;
    BlockReads(columns, PlannedNo(k), LinesUpTo(drafts, k) + 2, drafts[k], n);
    assert rows[..n] == rows && drafts[k].lines[..n] == drafts[k].lines;
    assert RowNumbers(rows) == Span(LinesUpTo(drafts, k) + 2, n);
  }

  // ---------------------------------------------------------------- the whole sheet

  lemma {:induction false} BodySize(columns: seq<string>, drafts: seq<Draft>, n: nat)
    requires n <= |drafts|
    ensures |BodyUpTo(columns, drafts, n)| == LinesUpTo(drafts, n)
  {
    hide RowFor;
    if n > 0 { BodySize(columns, drafts, n - 1); }
  }

  lemma {:induction false} BodyRow(columns: seq<string>, drafts: seq<Draft>, n: nat, k: nat, j: nat)
    requires k < n <= |drafts| && j < |drafts[k].lines|
    ensures LinesUpTo(drafts, k) + j < |BodyUpTo(columns, drafts, n)|
    ensures BodyUpTo(columns, drafts, n)[LinesUpTo(drafts, k) + j]
         == RowFor(columns, PlannedNo(k), drafts[k].date, drafts[k].lines[j])
    decreases n
  {
    hide RowFor, PlannedNo;
    BodySize(columns, drafts, n - 1);
    if k < n - 1 { BodyRow(columns, drafts, n - 1, k, j); }
  }

  lemma {:induction false} LinesGrow(drafts: seq<Draft>, k: nat, n: nat)
    requires k <= n <= |drafts|
    ensures LinesUpTo(drafts, k) <= LinesUpTo(drafts, n)
    decreases n
  {
    if k < n { LinesGrow(drafts, k, n - 1); }
  }

  function RecordsAt(columns: seq<string>, drafts: seq<Draft>, i: nat): seq<Numbered>
    requires 1 <= i <= |SheetOf(columns, drafts)|
  {
    RecordsFrom(Stripped(columns), SheetOf(columns, drafts), i)
  }

  lemma {:induction false} BlockIsRead(columns: seq<string>, drafts: seq<Draft>, k: nat, j: nat)
    requires CleanColumns(columns) && PlainDrafts(drafts) && k < |drafts| && j <= |drafts[k].lines|
    ensures LinesUpTo(drafts, k + 1) + 1 <= |SheetOf(columns, drafts)|
    ensures RecordsAt(columns, drafts, LinesUpTo(drafts, k) + 1 + j)
         == BlockOf(columns, drafts, k)[j..] + RecordsAt(columns, drafts, LinesUpTo(drafts, k + 1) + 1)
    decreases |drafts[k].lines| - j
  {
    hide RowFor, PlannedNo, Stripped, Blank, RecordOf, KeyOf, CleanColumns, PlainDrafts, RecordsFrom, BodyUpTo;
    BodySize(columns, drafts, |drafts|);
    LinesGrow(drafts, k + 1, |drafts|);
    var rows := BlockOf(columns, drafts, k);
    if j < |drafts[k].lines| {
      SheetRow(columns, drafts, k, j);
      BlockIsRead(columns, drafts, k, j + 1);
      assert rows[j..] == [rows[j]] + rows[j + 1..];
    } else {
      assert rows[j..] == [];
    }
  }

  lemma SheetRow(columns: seq<string>, drafts: seq<Draft>, k: nat, j: nat)
    requires CleanColumns(columns) && PlainDrafts(drafts) && k < |drafts| && j < |drafts[k].lines|
    ensures LinesUpTo(drafts, k) + 2 + j <= |SheetOf(columns, drafts)|
    ensures RecordsAt(columns, drafts, LinesUpTo(drafts, k) + 1 + j)
         == [BlockOf(columns, drafts, k)[j]] + RecordsAt(columns, drafts, LinesUpTo(drafts, k) + 2 + j)
  {
    hide RowFor, PlannedNo, Stripped, Blank, RecordOf, KeyOf, CleanColumns, PlainDrafts, BodyUpTo;
    BodyRow(columns, drafts, |drafts|, k, j);
    BlockKeys(columns, drafts, k, j);
  }

  /** One group per voucher with lines, from position `k` on. */
  function GroupsFrom(drafts: seq<Draft>, k: nat): seq<Group>
    requires k <= |drafts|
    decreases |drafts| - k
  {
    if k == |drafts| then []
    else (if drafts[k].lines == [] then [] else [GroupFor(drafts, k)]) + GroupsFrom(drafts, k + 1)
  }

  predicate StartsAfter(rows: seq<Numbered>, drafts: seq<Draft>, k: nat) {
    rows != [] ==> exists m: nat :: k <= m < |drafts| && KeyOf(rows[0].record) == KeyFor(drafts, m)
  }

  lemma {:induction false} SheetReadsFrom(columns: seq<string>, drafts: seq<Draft>, k: nat)
    requires CleanColumns(columns) && PlainDrafts(drafts) && k <= |drafts|
    ensures LinesUpTo(drafts, k) + 1 <= |SheetOf(columns, drafts)|
    ensures GroupsOf(RecordsAt(columns, drafts, LinesUpTo(drafts, k) + 1)) == Ok(GroupsFrom(drafts, k))
    ensures StartsAfter(RecordsAt(columns, drafts, LinesUpTo(drafts, k) + 1), drafts, k)
    decreases |drafts| - k
  {
    hide CleanColumns, PlainDrafts, GroupsFrom, StartsAfter, GroupsOf, BlockOf, RecordsAt, SheetOf;
    if k < |drafts| {
      SheetReadsFrom(columns, drafts, k + 1);
      BlockIsRead(columns, drafts, k, 0);
      BlockSize(columns, drafts, k);
      assert BlockOf(columns, drafts, k)[0..] == BlockOf(columns, drafts, k);
      BlockGroups(columns, drafts, k, RecordsAt(columns, drafts, LinesUpTo(drafts, k + 1) + 1));
    } else {
      NothingFollows(columns, drafts);
    }
  }

  lemma BlockGroups(columns: seq<string>, drafts: seq<Draft>, k: nat, rest: seq<Numbered>)
    requires CleanColumns(columns) && PlainDrafts(drafts) && k < |drafts|
    requires GroupsOf(rest) == Ok(GroupsFrom(drafts, k + 1)) && StartsAfter(rest, drafts, k + 1)
    ensures GroupsOf(BlockOf(columns, drafts, k) + rest) == Ok(GroupsFrom(drafts, k))
    ensures StartsAfter(BlockOf(columns, drafts, k) + rest, drafts, k)
  {
    hide PlannedNo, KeyOf, CleanColumns, PlainDrafts, GroupFor, BuildGroup, GroupsOf, BlockOf, Strip;
    var rows := BlockOf(columns, drafts, k);
    BlockSize(columns, drafts, k);
    if drafts[k].lines == [] {
      assert rows + rest == rest;
      assert GroupsFrom(drafts, k) == GroupsFrom(drafts, k + 1);
    } else {
      forall j | 0 <= j < |rows| ensures KeyOf(rows[j].record) == KeyFor(drafts, k) { BlockKeys(columns, drafts, k, j); }
      if rest != [] {
        var m: nat :| k + 1 <= m < |drafts| && KeyOf(rest[0].record) == KeyFor(drafts, m);
        PlannedNosDiffer(k, m);
      }
      RunCloses(rows, rest);
      BlockBuilds(columns, drafts, k);
    }
  }

  lemma BlockSize(columns: seq<string>, drafts: seq<Draft>, k: nat)
    requires k < |drafts|
    ensures |BlockOf(columns, drafts, k)| == |drafts[k].lines|
  {
  }

  lemma NothingFollows(columns: seq<string>, drafts: seq<Draft>)
    ensures |SheetOf(columns, drafts)| == LinesUpTo(drafts, |drafts|) + 1
    ensures RecordsAt(columns, drafts, LinesUpTo(drafts, |drafts|) + 1) == []
    ensures GroupsOf([]) == Ok(GroupsFrom(drafts, |drafts|)) && StartsAfter([], drafts, |drafts|)
  {
    BodySize(columns, drafts, |drafts|);
  }

  /** Writer and parser across the sheet: one group per voucher with lines, in order, holding exactly
      the rows the writer recorded for it. */
  lemma SheetRoundTrip(columns: seq<string>, drafts: seq<Draft>)
    requires CleanColumns(columns) && PlainDrafts(drafts)
    ensures ParseSpec(SheetOf(columns, drafts)) == Ok(GroupsFrom(drafts, 0))
  {
    hide GroupsOf, RecordsFrom, Strip;
    SheetReadsFrom(columns, drafts, 0);
    assert Headers(SheetOf(columns, drafts)) == Stripped(columns);
    forall name | name in PARSED ensures name in Stripped(columns) { TrimmedColumnIsHeader(columns, name); }
  }

  /** The rows of a group are the row range the writer recorded for its voucher. */
  lemma RowRangeIsRecorded(drafts: seq<Draft>, k: nat, row: nat)
    requires k < |drafts|
    ensures row in GroupFor(drafts, k).rowNumbers <==> ItemFor(drafts, k).firstRow <= row <= ItemFor(drafts, k).lastRow
  {
    hide PlannedNo, SideTotal, Strip, ReadLines;
    var rows, first := GroupFor(drafts, k).rowNumbers, ItemFor(drafts, k).firstRow;
    if first <= row <= ItemFor(drafts, k).lastRow { assert rows[row - first] == row; }
  }

  // ---------------------------------------------------------------- the groups by voucher

  lemma {:induction false} GroupHasVoucher(drafts: seq<Draft>, k: nat, i: nat) returns (m: nat)
    requires k <= |drafts| && i < |GroupsFrom(drafts, k)|
    ensures k <= m < |drafts| && drafts[m].lines != [] && GroupsFrom(drafts, k)[i] == GroupFor(drafts, m)
    decreases |drafts| - k
  {
    hide GroupFor;
    if drafts[k].lines == [] {
      m := GroupHasVoucher(drafts, k + 1, i);
    } else if i > 0 {
      m := GroupHasVoucher(drafts, k + 1, i - 1);
    } else {
      m := k;
    }
  }

  lemma {:induction false} VoucherHasGroup(drafts: seq<Draft>, k: nat, m: nat) returns (i: nat)
    requires k <= m < |drafts| && drafts[m].lines != []
    ensures i < |GroupsFrom(drafts, k)| && GroupsFrom(drafts, k)[i] == GroupFor(drafts, m)
    decreases |drafts| - k
  {
    hide GroupFor;
    if k == m {
      i := 0;
    } else {
      i := VoucherHasGroup(drafts, k + 1, m);
      if drafts[k].lines != [] { i := i + 1; }
    }
  }

  lemma {:induction false} GroupNumbersDiffer(drafts: seq<Draft>, k: nat)
    requires k <= |drafts|
    ensures forall i, j :: 0 <= i < j < |GroupsFrom(drafts, k)| ==>
              GroupsFrom(drafts, k)[i].key.number != GroupsFrom(drafts, k)[j].key.number
    decreases |drafts| - k
  {
    hide PlannedNo, SideTotal, Strip, Span, ReadLines;
    if k < |drafts| {
      var rest := GroupsFrom(drafts, k + 1);
      GroupNumbersDiffer(drafts, k + 1);
      forall j | 0 <= j < |rest| ensures rest[j].key.number != PlannedNo(k) {
        var m := GroupHasVoucher(drafts, k + 1, j);
        PlannedNosDiffer(m, k);
      }
    }
  }

  // ---------------------------------------------------------------- reconciliation

  function ExpectedVoucher(drafts: seq<Draft>, k: nat): Expected
    requires k < |drafts|
  {
    Expected(drafts[k].key, NormalizeNo(PlannedNo(k)), Signature(drafts[k].date, ExpectedLines(drafts[k].lines)))
  }

  function ExpectedVouchers(drafts: seq<Draft>): seq<Expected> {
    seq(|drafts|, k requires 0 <= k < |drafts| => ExpectedVoucher(drafts, k))
  }

  predicate TrimmedTexts(draft: Draft) {
    && Trimmed(draft.date)
    && (forall j :: 0 <= j < |draft.lines| ==> Trimmed(draft.lines[j].summary) && Trimmed(draft.lines[j].account))
  }

  predicate Balanced(draft: Draft) { SideTotal(draft.lines, DebitSide) == SideTotal(draft.lines, CreditSide) }

  /** What a voucher needs to survive the trip through the sheet. */
  predicate Survives(draft: Draft) { draft.lines != [] && Balanced(draft) && TrimmedTexts(draft) }

  lemma SignatureSurvives(draft: Draft)
    ensures TrimmedTexts(draft) <==>
      Signature(Strip(draft.date), ReadLines(draft.lines)) == Signature(draft.date, ExpectedLines(draft.lines))
  {
    hide Strip, HalfUp, Trimmed;
    StripFixes(draft.date);
    var read, expected := ReadLines(draft.lines), ExpectedLines(draft.lines);
    forall j | 0 <= j < |draft.lines|
      ensures read[j] == expected[j] <==> Trimmed(draft.lines[j].summary) && Trimmed(draft.lines[j].account) {
      StripFixes(draft.lines[j].summary);
      StripFixes(draft.lines[j].account);
    }
  }

  lemma GroupMatchesVoucher(drafts: seq<Draft>, m: nat, k: nat)
    requires m < |drafts| && k < |drafts|
    ensures Matches(GroupFor(drafts, m), ExpectedVoucher(drafts, k)) <==> m == k && TrimmedTexts(drafts[k])
  {
    hide PlannedNo, Strip, NormalizeNo, TrimmedTexts, ReadLines, ExpectedLines, Span, SideTotal;
    PlannedNoReadsBack(k);
    SignatureSurvives(drafts[k]);
    if m != k { PlannedNosDiffer(m, k); }
  }

  /** The reconciliation of a batch with its own sheet is exact: it reports nothing if and only if
      every voucher has lines, balances to the cent, and carries only trimmed texts. */
  lemma OwnSheetReconciles(drafts: seq<Draft>)
    ensures Reconciles(GroupsFrom(drafts, 0), ExpectedVouchers(drafts))
       <==> forall k :: 0 <= k < |drafts| ==> Survives(drafts[k])
  {
    if forall k :: 0 <= k < |drafts| ==> Survives(drafts[k]) { SurvivorsReconcile(drafts); }
    if Reconciles(GroupsFrom(drafts, 0), ExpectedVouchers(drafts)) {
      forall k | 0 <= k < |drafts| ensures Survives(drafts[k]) { ReconciledSurvives(drafts, k); }
    }
  }

  lemma SurvivorsReconcile(drafts: seq<Draft>)
    requires forall k :: 0 <= k < |drafts| ==> Survives(drafts[k])
    ensures Reconciles(GroupsFrom(drafts, 0), ExpectedVouchers(drafts))
  {
    hide PlannedNo, Strip, NormalizeNo, TrimmedTexts, ReadLines, ExpectedLines, Span, SideTotal, GroupFor, ExpectedVoucher, GroupsFrom, Matches;
    var groups, expected := GroupsFrom(drafts, 0), ExpectedVouchers(drafts);
    GroupNumbersDiffer(drafts, 0);
    forall k | 0 <= k < |expected| ensures FirstMatch(groups, expected[k], 0).Some? {
      var i := VoucherHasGroup(drafts, 0, k);
      GroupMatchesVoucher(drafts, k, k);
    }
    forall i | 0 <= i < |groups| ensures groups[i].debit == groups[i].credit && Matched(groups, expected, i) {
      var m := GroupHasVoucher(drafts, 0, i);
      assert Survives(drafts[m]);
      GroupTotals(drafts, m);
      var found := FirstMatch(groups, expected[m], 0).value;
      var other := GroupHasVoucher(drafts, 0, found);
      GroupMatchesVoucher(drafts, other, m);
      assert groups[found] == groups[i];
    }
  }

  lemma GroupTotals(drafts: seq<Draft>, m: nat)
    requires m < |drafts|
    ensures GroupFor(drafts, m).debit == SideTotal(drafts[m].lines, DebitSide)
    ensures GroupFor(drafts, m).credit == SideTotal(drafts[m].lines, CreditSide)
  {
  }

  lemma ReconciledSurvives(drafts: seq<Draft>, k: nat)
    requires Reconciles(GroupsFrom(drafts, 0), ExpectedVouchers(drafts)) && k < |drafts|
    ensures Survives(drafts[k])
  {
    hide PlannedNo, Strip, NormalizeNo, TrimmedTexts, ReadLines, ExpectedLines, Span, SideTotal, GroupFor, ExpectedVoucher, GroupsFrom, Matches;
    var groups, expected := GroupsFrom(drafts, 0), ExpectedVouchers(drafts);
    assert FirstMatch(groups, expected[k], 0).Some?;
    var i := FirstMatch(groups, expected[k], 0).value;
    var m := GroupHasVoucher(drafts, 0, i);
    GroupMatchesVoucher(drafts, m, k);
    GroupTotals(drafts, k);
  }

  // ---------------------------------------------------------------- the report and the batch

  /** The exact total of one side. */
  function ExactTotal(lines: seq<Line>, direction: Direction): real {
    if lines == [] then 0.0
    else ExactTotal(lines[..|lines| - 1], direction)
         + (if lines[|lines| - 1].direction == direction then lines[|lines| - 1].amount else 0.0)
  }

  function ExactTotals(drafts: seq<Draft>, direction: Direction, k: nat): real
    requires k <= |drafts|
  {
    if k == 0 then 0.0 else ExactTotals(drafts, direction, k - 1) + ExactTotal(drafts[k - 1].lines, direction)
  }

  /** The nearest integer, halves to the even one. */
  function RoundHalfEven(x: real): int {
    var below := x.Floor;
    var rest := x - below as real;
    if rest < 0.5 || (rest == 0.5 && below % 2 == 0) then below else below + 1
  }

  /** The totals a batch records: added exactly, then rounded once, halves to even. */
  function BatchTotal(drafts: seq<Draft>, direction: Direction): int {
    RoundHalfEven(ExactTotals(drafts, direction, |drafts|) * 100.0)
  }

  /** The totals the dry run reports: every amount rounded first, halves up. */
  function ReportTotal(drafts: seq<Draft>, direction: Direction, k: nat): int
    requires k <= |drafts|
  {
    if k == 0 then 0 else ReportTotal(drafts, direction, k - 1) + SideTotal(drafts[k - 1].lines, direction)
  }

  function GroupTotal(groups: seq<Group>, direction: Direction): int {
    if groups == [] then 0
    else GroupTotal(groups[1..], direction) + (if direction.DebitSide? then groups[0].debit else groups[0].credit)
  }

  function PreparedItem(drafts: seq<Draft>, digest: ((string, seq<Line>)) -> Batches.Hash, k: nat): Batches.BatchItem
    requires k < |drafts|
  {
    var item := ItemFor(drafts, k);
    Batches.BatchItem(item.key, item.proposalRevision, item.plannedNo, digest(item.signed))
  }

  /** The batch recorded for the written file. */
  function PrepareBatch(
    drafts: seq<Draft>, digest: ((string, seq<Line>)) -> Batches.Hash, id: Batches.BatchId, path: string,
    fileHash: Batches.Hash, ledger: string, period: string): Batches.Batch
  {
    Batches.Batch(id, path, fileHash, ledger, period,
                  seq(|drafts|, k requires 0 <= k < |drafts| => PreparedItem(drafts, digest, k)),
                  |drafts|, BatchTotal(drafts, DebitSide), BatchTotal(drafts, CreditSide), 0, Batches.Prepared, None, map[], [])
  }

  /** The recorded batch: one entry per voucher in order, with its key, its revision, its number in the file and the
      digest of its date and lines; counted and added up; nothing has happened to it. */
  lemma PreparedBatchIs(
    drafts: seq<Draft>, digest: ((string, seq<Line>)) -> Batches.Hash, id: Batches.BatchId, path: string,
    fileHash: Batches.Hash, ledger: string, period: string)
    ensures var batch := PrepareBatch(drafts, digest, id, path, fileHash, ledger, period);
            && batch.id == id && batch.filePath == path && batch.fileHash == fileHash && batch.ledger == ledger && batch.period == period
            && |batch.items| == |drafts| == batch.expectedCount
            && (forall k :: 0 <= k < |drafts| ==>
                  && batch.items[k].key == drafts[k].key && batch.items[k].proposalRevision == drafts[k].proposalRevision
                  && AllDigits(batch.items[k].plannedNo) && |batch.items[k].plannedNo| >= 3 && NatValue(batch.items[k].plannedNo) == k + 1
                  && batch.items[k].signature == digest((drafts[k].date, drafts[k].lines)))
            && batch.state == Batches.Prepared && batch.authorization == None && batch.receipts == map[] && batch.audit == []
  {
    hide PlannedNo, BatchTotal;
    var batch := PrepareBatch(drafts, digest, id, path, fileHash, ledger, period);
    forall k | 0 <= k < |drafts|
      ensures AllDigits(batch.items[k].plannedNo) && |batch.items[k].plannedNo| >= 3 && NatValue(batch.items[k].plannedNo) == k + 1 {
      PlannedNoReadsBack(k);
      PlannedNoIsWide(k);
    }
  }

  lemma PlannedNoIsWide(k: nat)
    ensures |PlannedNo(k)| >= 3
  {
  }

  /** Rounding halves to even is rounding to the nearest, and between two as near to the even one. */
  lemma HalfEvenIsNearest(x: real)
    ensures var n := RoundHalfEven(x);
            && -0.5 <= n as real - x <= 0.5 && (n as real - x == 0.5 || n as real - x == -0.5 ==> n % 2 == 0)
  {
  }

  /** What the runner reports about a file: its groups reconciled with the expected vouchers, and their totals. */
  function Report(sheet: Sheet, drafts: seq<Draft>, fileHash: Batches.Hash): Option<Batches.DryRun> {
    match ParseSpec(sheet)
    case Err(_) => None
    case Ok(groups) =>
      Some(Batches.DryRun(Reconciles(groups, ExpectedVouchers(drafts)), fileHash, |groups|,
                          GroupTotal(groups, DebitSide), GroupTotal(groups, CreditSide)))
  }

  lemma GroupTotalSoFar(groups: seq<Group>, n: nat, direction: Direction)
    requires n < |groups|
    ensures GroupTotal(groups[n..], direction)
         == GroupTotal(groups[n + 1..], direction) + (if direction.DebitSide? then groups[n].debit else groups[n].credit)
  {
    assert groups[n..][1..] == groups[n + 1..];
  }

  /** The runner: parse, compare, add up, report. */
  method DryRunFile(sheet: Sheet, drafts: seq<Draft>, fileHash: Batches.Hash) returns (report: Option<Batches.DryRun>)
    ensures report == Report(sheet, drafts, fileHash)
  {
    hide ParseSpec, Reconciles, GroupTotal, ExpectedVouchers;
    var parsed := ParseImportSheet(sheet);
    if parsed.Err? { return None; }
    var groups := parsed.value;
    var errors := Compare(groups, ExpectedVouchers(drafts));
    var debit, credit := 0, 0;
    NoGroupsNoTotal(groups);
    for n := 0 to |groups|
      invariant debit + GroupTotal(groups[n..], DebitSide) == GroupTotal(groups, DebitSide)
      invariant credit + GroupTotal(groups[n..], CreditSide) == GroupTotal(groups, CreditSide)
    {
      GroupTotalSoFar(groups, n, DebitSide);
      GroupTotalSoFar(groups, n, CreditSide);
      debit, credit := debit + groups[n].debit, credit + groups[n].credit;
    }
    report := Some(Batches.DryRun(errors == Errors([], [], [], []), fileHash, |groups|, debit, credit));
  }

  lemma NoGroupsNoTotal(groups: seq<Group>)
    ensures groups[0..] == groups
    ensures forall direction :: GroupTotal(groups[|groups|..], direction) == 0
  {
  }

  predicate TotalsAgree(drafts: seq<Draft>) {
    forall direction :: ReportTotal(drafts, direction, |drafts|) == BatchTotal(drafts, direction)
  }

  predicate AllSurvive(drafts: seq<Draft>) { forall k :: 0 <= k < |drafts| ==> Survives(drafts[k]) }

  lemma {:induction false} GroupTotalSplits(drafts: seq<Draft>, direction: Direction, k: nat)
    requires k <= |drafts|
    ensures ReportTotal(drafts, direction, k) + GroupTotal(GroupsFrom(drafts, k), direction)
         == ReportTotal(drafts, direction, |drafts|)
    decreases |drafts| - k
  {
    hide SideTotal, GroupFor;
    if k < |drafts| {
      GroupTotalSplits(drafts, direction, k + 1);
      GroupTotals(drafts, k);
      var rest := GroupsFrom(drafts, k + 1);
      if drafts[k].lines == [] {
        NoLinesNoTotal(direction);
        assert GroupsFrom(drafts, k) == rest;
      } else {
        assert GroupsFrom(drafts, k)[1..] == rest;
      }
    }
  }

  lemma NoLinesNoTotal(direction: Direction)
    ensures SideTotal([], direction) == 0 && ExactTotal([], direction) == 0.0
  {
  }

  lemma {:induction false} OneGroupEach(drafts: seq<Draft>, k: nat)
    requires k <= |drafts| && AllSurvive(drafts)
    ensures |GroupsFrom(drafts, k)| == |drafts| - k
    decreases |drafts| - k
  {
    hide GroupFor, TrimmedTexts, Balanced;
    if k < |drafts| {
      assert Survives(drafts[k]);
      OneGroupEach(drafts, k + 1);
    }
  }

  /** A freshly prepared batch passes its own dry run if and only if it is not empty, every voucher
      survives the sheet, and rounding the amounts one by one adds up to the batch's rounded totals. */
  lemma FreshBatchDryRun(
    columns: seq<string>, drafts: seq<Draft>, digest: ((string, seq<Line>)) -> Batches.Hash, store: Batches.Store,
    id: Batches.BatchId, path: string, fileHash: Batches.Hash, ledger: string, period: string)
    requires CleanColumns(columns) && PlainDrafts(drafts)
    requires id in store.batches && store.batches[id] == PrepareBatch(drafts, digest, id, path, fileHash, ledger, period)
    ensures var report := Report(SheetOf(columns, drafts), drafts, fileHash);
            && report.Some?
            && (Batches.DryRunResult(store, id, report.value, Some(fileHash)).Ok?
                <==> drafts != [] && AllSurvive(drafts) && TotalsAgree(drafts))
  {
    hide ParseSpec, Reconciles, Survives, BatchTotal, ReportTotal, GroupTotal, ExpectedVouchers, SheetOf, GroupsFrom;
    SheetRoundTrip(columns, drafts);
    OwnSheetReconciles(drafts);
    GroupTotalSplits(drafts, DebitSide, 0);
    GroupTotalSplits(drafts, CreditSide, 0);
    NothingReported(drafts);
    if AllSurvive(drafts) { OneGroupEach(drafts, 0); }
    TwoSides(drafts);
  }

  lemma NothingReported(drafts: seq<Draft>)
    ensures ReportTotal(drafts, DebitSide, 0) == 0 && ReportTotal(drafts, CreditSide, 0) == 0
  {
  }

  lemma TwoSides(drafts: seq<Draft>)
    ensures TotalsAgree(drafts) <==>
      && ReportTotal(drafts, DebitSide, |drafts|) == BatchTotal(drafts, DebitSide)
      && ReportTotal(drafts, CreditSide, |drafts|) == BatchTotal(drafts, CreditSide)
  {
    hide ReportTotal, BatchTotal;
    forall direction: Direction
      ensures ReportTotal(drafts, direction, |drafts|)
           == ReportTotal(drafts, if direction.DebitSide? then DebitSide else CreditSide, |drafts|) {
    }
  }

  // ---------------------------------------------------------------- cent-precise amounts

  predicate PreciseDraft(draft: Draft) { forall j :: 0 <= j < |draft.lines| ==> CentPrecise(draft.lines[j].amount) }

  lemma {:induction false} PreciseLines(lines: seq<Line>, direction: Direction)
    requires forall j :: 0 <= j < |lines| ==> CentPrecise(lines[j].amount)
    ensures IsCents(ExactTotal(lines, direction), SideTotal(lines, direction))
  {
    if lines != [] {
      var n := |lines| - 1;
      PreciseLines(lines[..n], direction);
      HalfUpIsExact(lines[n].amount, (lines[n].amount * 100.0).Floor);
    }
  }

  lemma {:induction false} PreciseDrafts(drafts: seq<Draft>, direction: Direction, k: nat)
    requires k <= |drafts| && (forall i :: 0 <= i < |drafts| ==> PreciseDraft(drafts[i]))
    ensures IsCents(ExactTotals(drafts, direction, k), ReportTotal(drafts, direction, k))
  {
    if k > 0 {
      PreciseDrafts(drafts, direction, k - 1);
      PreciseLines(drafts[k - 1].lines, direction);
    }
  }

  /** With cent-precise amounts the two ways of rounding agree. */
  lemma PreciseTotalsAgree(drafts: seq<Draft>)
    requires forall i :: 0 <= i < |drafts| ==> PreciseDraft(drafts[i])
    ensures TotalsAgree(drafts)
  {
    forall direction ensures ReportTotal(drafts, direction, |drafts|) == BatchTotal(drafts, direction) {
      PreciseDrafts(drafts, direction, |drafts|);
    }
  }

  /** A freshly prepared batch of cent-precise, balanced vouchers with trimmed texts passes its own dry
      run and then waits for authorization. */
  lemma PreparedBatchPasses(
    columns: seq<string>, drafts: seq<Draft>, digest: ((string, seq<Line>)) -> Batches.Hash, store: Batches.Store,
    id: Batches.BatchId, path: string, fileHash: Batches.Hash, ledger: string, period: string)
    requires CleanColumns(columns) && PlainDrafts(drafts) && drafts != [] && AllSurvive(drafts)
    requires forall k :: 0 <= k < |drafts| ==> PreciseDraft(drafts[k])
    requires id in store.batches && store.batches[id] == PrepareBatch(drafts, digest, id, path, fileHash, ledger, period)
    ensures var report := Report(SheetOf(columns, drafts), drafts, fileHash);
            && report.Some?
            && var after := Batches.DryRunResult(store, id, report.value, Some(fileHash));
               after.Ok? && after.value.batches[id].state == Batches.AwaitingAuthorization
  {
    hide Report, SheetOf, AllSurvive, TotalsAgree, PrepareBatch, CleanColumns, PlainDrafts;
    FreshBatchDryRun(columns, drafts, digest, store, id, path, fileHash, ledger, period);
    PreciseTotalsAgree(drafts);
  }

  function HalfCent(direction: Direction): Line { Line("a", "1", direction, 0.005, map[]) }

  lemma OneLineMore(lines: seq<Line>, line: Line, direction: Direction)
    ensures SideTotal(lines + [line], direction) == SideTotal(lines, direction) + SideAmount(line, direction)
    ensures ExactTotal(lines + [line], direction)
         == ExactTotal(lines, direction) + (if line.direction == direction then line.amount else 0.0)
  {
    assert (lines + [line])[..|lines|] == lines;
  }

  lemma HalfCentSums()
    ensures var lines := [HalfCent(DebitSide), HalfCent(DebitSide), HalfCent(CreditSide), HalfCent(CreditSide)];
            forall direction :: SideTotal(lines, direction) == 2 && ExactTotal(lines, direction) == 0.01
  {
    hide SideTotal, ExactTotal;
    var d, c := HalfCent(DebitSide), HalfCent(CreditSide);
    assert HalfUp(0.005) == 1;
    assert [] + [d] == [d] && [d] + [d] == [d, d] && [d, d] + [c] == [d, d, c] && [d, d, c] + [c] == [d, d, c, c];
    forall direction ensures SideTotal([d, d, c, c], direction) == 2 && ExactTotal([d, d, c, c], direction) == 0.01 {
      OneLineMore([], d, direction);
      OneLineMore([d], d, direction);
      OneLineMore([d, d], c, direction);
      OneLineMore([d, d, c], c, direction);
      NoLinesNoTotal(direction);
    }
  }

  /** Not without cent precision: two half-cent lines a side balance and survive, but the file says two
      cents where the batch recorded one. */
  lemma HalfCentsDisagree()
    ensures var lines := [HalfCent(DebitSide), HalfCent(DebitSide), HalfCent(CreditSide), HalfCent(CreditSide)];
            var drafts := [Draft("v", "r", "d", lines)];
            Survives(drafts[0]) && PlainDrafts(drafts) && !TotalsAgree(drafts)
  {
    hide SideTotal, ExactTotal;
    HalfCentSums();
    var d, c := HalfCent(DebitSide), HalfCent(CreditSide);
    var drafts := [Draft("v", "r", "d", [d, d, c, c])];
    assert SideTotal(drafts[0].lines, DebitSide) == 2 && ReportTotal(drafts, DebitSide, 0) == 0;
    assert ExactTotal(drafts[0].lines, DebitSide) == 0.01 && ExactTotals(drafts, DebitSide, 0) == 0.0;
    assert ReportTotal(drafts, DebitSide, 1) == 2;
    assert ExactTotals(drafts, DebitSide, 1) == 0.01;
    assert BatchTotal(drafts, DebitSide) == 1;
  }

  /** So a batch of that voucher, freshly prepared, is refused by its own dry run. */
  lemma HalfCentsAreRefused(
    columns: seq<string>, digest: ((string, seq<Line>)) -> Batches.Hash, store: Batches.Store,
    id: Batches.BatchId, path: string, fileHash: Batches.Hash, ledger: string, period: string)
    requires CleanColumns(columns) && id in store.batches
    requires var lines := [HalfCent(DebitSide), HalfCent(DebitSide), HalfCent(CreditSide), HalfCent(CreditSide)];
             store.batches[id] == PrepareBatch([Draft("v", "r", "d", lines)], digest, id, path, fileHash, ledger, period)
    ensures var lines := [HalfCent(DebitSide), HalfCent(DebitSide), HalfCent(CreditSide), HalfCent(CreditSide)];
            var drafts := [Draft("v", "r", "d", lines)];
            && Report(SheetOf(columns, drafts), drafts, fileHash).Some?
            && Batches.DryRunResult(store, id, Report(SheetOf(columns, drafts), drafts, fileHash).value, Some(fileHash)).Err?
  {
    hide CleanColumns, PlainDrafts, PrepareBatch, Report, SheetOf, Batches.DryRunResult, TotalsAgree, AllSurvive, Survives;
    HalfCentsDisagree();
    var lines := [HalfCent(DebitSide), HalfCent(DebitSide), HalfCent(CreditSide), HalfCent(CreditSide)];
    FreshBatchDryRun(columns, [Draft("v", "r", "d", lines)], digest, store, id, path, fileHash, ledger, period);
  }
}
