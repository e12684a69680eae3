/** The import sheet writer: one row per voucher line, one numbered block of rows per voucher.
    A sheet is a grid of texts whose first row holds the column names. */
module ImportFile {
  import opened Results
  import opened Text
  import opened Money

  const KIND := "凭证类别"
  const NUMBER := "凭证号"
  const DATE := "凭证日期"
  const ATTACHMENTS := "附单据数"
  const SUMMARY := "摘要"
  const ACCOUNT := "科目编码"
  const DEBIT := "借方金额"
  const CREDIT := "贷方金额"
  const VOUCHER_KIND := "记"
  const COLUMN_COUNT: nat := 22

  datatype Direction = DebitSide | CreditSide

  datatype Line = Line(summary: string, account: string, direction: Direction, amount: real, aux: map<string, string>)

  datatype Draft = Draft(key: string, proposalRevision: string, date: string, lines: seq<Line>)

  type Row = seq<string>
  type Sheet = seq<Row>

  /** What the writer reports about one voucher; the signature is the hashed content itself. */
  datatype ExportedItem = ExportedItem(
    key: string, proposalRevision: string, firstRow: nat, lastRow: nat, plannedNo: string, signed: (string, seq<Line>))

  datatype Written = Written(sheet: Sheet, items: seq<ExportedItem>)

  const REQUIRED: set<string> := {KIND, NUMBER, DATE, ATTACHMENTS, SUMMARY, ACCOUNT, DEBIT, CREDIT}

  predicate FactsValid(columns: seq<string>) {
    && |columns| == COLUMN_COUNT
    && (forall i :: 0 <= i < |columns| ==> Strip(columns[i]) != "")
    && (forall name :: name in REQUIRED ==> name in columns)
  }

  /** The template facts that are taken: twenty-two columns with names, among them the eight fixed ones. */
  lemma FactsExactly(columns: seq<string>)
    ensures FactsValid(columns)
       <==> && |columns| == 22 && (forall i :: 0 <= i < 22 ==> Strip(columns[i]) != "")
            && "凭证类别" in columns && "凭证号" in columns && "凭证日期" in columns && "附单据数" in columns
            && "摘要" in columns && "科目编码" in columns && "借方金额" in columns && "贷方金额" in columns
  {
    hide Strip;
  }

  /** Zero-padded position of the voucher in the file, counted from one. */
  function PlannedNo(k: nat): string { ZeroFill(NatText(k + 1), 3) }

  function AmountColumn(direction: Direction): string { if direction.DebitSide? then DEBIT else CREDIT }

  /** The cell a line puts under a column: an auxiliary dimension overrides the fixed content. */
  function CellFor(column: string, number: string, date: string, line: Line): string {
    if column in line.aux then line.aux[column]
    else if column == AmountColumn(line.direction) then CentsText(HalfUp(line.amount))
    else if column == ACCOUNT then line.account
    else if column == SUMMARY then line.summary
    else if column == ATTACHMENTS then "0"
    else if column == DATE then date
    else if column == NUMBER then number
    else if column == KIND then VOUCHER_KIND
    else ""
  }

  function RowFor(columns: seq<string>, number: string, date: string, line: Line): Row {
    seq(|columns|, i requires 0 <= i < |columns| => CellFor(columns[i], number, date, line))
  }

  function RowsOf(columns: seq<string>, number: string, draft: Draft): seq<Row> {
    seq(|draft.lines|, j requires 0 <= j < |draft.lines| => RowFor(columns, number, draft.date, draft.lines[j]))
  }

  /** The rows of the vouchers before position `k`. */
  function BodyUpTo(columns: seq<string>, drafts: seq<Draft>, k: nat): seq<Row>
    requires k <= |drafts|
  {
    if k == 0 then [] else BodyUpTo(columns, drafts, k - 1) + RowsOf(columns, PlannedNo(k - 1), drafts[k - 1])
  }

  function LinesUpTo(drafts: seq<Draft>, k: nat): nat
    requires k <= |drafts|
  {
    if k == 0 then 0 else LinesUpTo(drafts, k - 1) + |drafts[k - 1].lines|
  }

  function ItemFor(drafts: seq<Draft>, k: nat): ExportedItem
    requires k < |drafts|
  {
    ExportedItem(drafts[k].key, drafts[k].proposalRevision, LinesUpTo(drafts, k) + 2, LinesUpTo(drafts, k + 1) + 1,
                 PlannedNo(k), (drafts[k].date, drafts[k].lines))
  }

  function ItemsUpTo(drafts: seq<Draft>, k: nat): seq<ExportedItem>
    requires k <= |drafts|
  {
    seq(k, j requires 0 <= j < k => ItemFor(drafts, j))
  }

  function WriteSpec(columns: seq<string>, drafts: seq<Draft>): Written {
    Written([columns] + BodyUpTo(columns, drafts, |drafts|), ItemsUpTo(drafts, |drafts|))
  }

  /** The dictionary of one row before the auxiliary values. */
  method FixedCells(columns: seq<string>, number: string, date: string, line: Line) returns (cells: map<string, string>)
    requires FactsValid(columns)
    ensures forall column :: column in cells <==> column in columns
    ensures forall column :: column in cells && column !in line.aux ==> cells[column] == CellFor(column, number, date, line)
  {
    hide KIND, NUMBER, DATE, ATTACHMENTS, SUMMARY, ACCOUNT, DEBIT, CREDIT, VOUCHER_KIND, Strip, CentsText, HalfUp;
    cells := map column | column in columns :: "";
    cells := cells[KIND := VOUCHER_KIND];
    cells := cells[NUMBER := number];
    cells := cells[DATE := date];
    cells := cells[ATTACHMENTS := "0"];
    cells := cells[SUMMARY := line.summary];
    cells := cells[ACCOUNT := line.account];
    if line.direction.DebitSide? {
      cells := cells[DEBIT := CentsText(HalfUp(line.amount))];
    } else {
      cells := cells[CREDIT := CentsText(HalfUp(line.amount))];
    }
  }

  /** The row: the dictionary overridden, column by column, by the auxiliary values. */
  method FillRow(columns: seq<string>, number: string, date: string, line: Line) returns (row: Row)
    requires FactsValid(columns)
    ensures row == RowFor(columns, number, date, line)
  {
    hide FactsValid;
    var cells := FixedCells(columns, number, date, line);
    ghost var fixed := cells;
    var pending := line.aux.Keys;
    while pending != {}
      invariant pending <= line.aux.Keys
      invariant cells.Keys == fixed.Keys
      invariant forall column :: column in cells ==>
                  cells[column] == if column in line.aux && column !in pending then line.aux[column] else fixed[column]
      decreases |pending|
    {
      var dimension :| dimension in pending;
      pending := pending - {dimension};
      if dimension in cells { cells := cells[dimension := line.aux[dimension]]; }
    }
    RowCells(columns, number, date, line, cells);
    row := seq(|columns|, i requires 0 <= i < |columns| && columns[i] in cells => cells[columns[i]]);
  }

  lemma RowCells(columns: seq<string>, number: string, date: string, line: Line, cells: map<string, string>)
    requires forall column :: column in cells <==> column in columns
    requires forall column :: column in cells ==>
      cells[column] == if column in line.aux then line.aux[column] else CellFor(column, number, date, line)
    ensures forall i :: 0 <= i < |columns| ==> columns[i] in cells && cells[columns[i]] == RowFor(columns, number, date, line)[i]
  {
    hide CellFor;
    forall i | 0 <= i < |columns|
      ensures columns[i] in cells && cells[columns[i]] == RowFor(columns, number, date, line)[i] {
      CellIsAux(columns[i], number, date, line);
    }
  }

  lemma CellIsAux(column: string, number: string, date: string, line: Line)
    ensures column in line.aux ==> CellFor(column, number, date, line) == line.aux[column]
  {
  }

  /** The rows of one voucher, appended line by line. */
  method AppendRows(sheet: Sheet, columns: seq<string>, number: string, draft: Draft) returns (extended: Sheet)
    requires FactsValid(columns)
    ensures extended == sheet + RowsOf(columns, number, draft)
  {
    hide CellFor, FactsValid, RowFor;
    var rows: Sheet := [];
    for j := 0 to |draft.lines|
      invariant rows == RowsOf(columns, number, draft)[..j]
    {
      var row := FillRow(columns, number, draft.date, draft.lines[j]);
      rows := rows + [row];
    }
    extended := sheet + rows;
  }

  /** The writer's loop over drafts. */
  method WriteImportSheet(columns: seq<string>, drafts: seq<Draft>) returns (written: Option<Written>)
    ensures written == if FactsValid(columns) then Some(WriteSpec(columns, drafts)) else None
  {
    hide FactsValid, RowsOf;
    if !FactsValid(columns) { return None; }
    var sheet, items, lineCount := [columns], [], 0;
    for k := 0 to |drafts|
      invariant sheet == [columns] + BodyUpTo(columns, drafts, k)
      invariant lineCount == LinesUpTo(drafts, k)
      invariant items == ItemsUpTo(drafts, k)
    {
      var draft, number := drafts[k], ZeroFill(NatText(k + 1), 3);
      var firstRow := lineCount + 2;
      sheet := AppendRows(sheet, columns, number, draft);
      lineCount := lineCount + |draft.lines|;
      items := items + [ExportedItem(draft.key, draft.proposalRevision, firstRow, lineCount + 1, number, (draft.date, draft.lines))];
    }
    written := Some(Written(sheet, items));
  }
}
