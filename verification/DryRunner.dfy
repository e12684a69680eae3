/** The dry run: parsing the import sheet back into voucher groups and reconciling them with the
    vouchers the batch expects. */
module DryRunner {
  import opened Results
  import opened Text
  import opened Money
  import opened ImportFile

  type Record = map<string, string>

  datatype SignatureLine = SignatureLine(summary: string, account: string, direction: Direction, amount: int)

  datatype Signature = Signature(date: string, lines: seq<SignatureLine>)

  datatype Numbered = Numbered(rowNumber: nat, record: Record)

  datatype GroupKey = GroupKey(kind: string, number: string, date: string)

  datatype Group = Group(key: GroupKey, rowNumbers: seq<nat>, debit: int, credit: int, signature: Signature)

  datatype Expected = Expected(key: string, number: string, signature: Signature)

  datatype ParseError = EmptyFile | MissingColumns | BadAmount

  // ---------------------------------------------------------------- records

  /** The last column with this header; a repeated header keeps its last cell. */
  function LastColumn(headers: seq<string>, name: string): nat
    requires name in headers
    ensures LastColumn(headers, name) < |headers| && headers[LastColumn(headers, name)] == name
  {
    var n := |headers|;
    if headers[n - 1] == name then n - 1 else LastColumn(headers[..n - 1], name)
  }

  function RecordOf(headers: seq<string>, row: Row): Record {
    map name | name in headers :: var i := LastColumn(headers, name); if i < |row| then Strip(row[i]) else ""
  }

  function Field(record: Record, name: string): string { if name in record then record[name] else "" }

  predicate Blank(record: Record) { forall name :: name in record ==> record[name] == "" }

  function NormalizeNo(text: string): string {
    var stripped := Strip(text);
    if stripped != "" && AllDigits(stripped) && |stripped| < 3 then ZeroFill(stripped, 3) else stripped
  }

  /** Numbers of one or two digits are filled up to three; any other text is only trimmed. */
  lemma NumberIsNormal(text: string)
    ensures var n, trimmed := NormalizeNo(text), Strip(text);
            if AllDigits(trimmed) && 1 <= |trimmed| <= 2 then |n| == 3 && AllDigits(n) && NatValue(n) == NatValue(trimmed) else n == trimmed
  {
    hide Strip;
    if AllDigits(Strip(text)) { ZeroFillKeepsValue(Strip(text), 3); }
  }

  function KeyOf(record: Record): GroupKey {
    GroupKey(Field(record, KIND), NormalizeNo(Field(record, NUMBER)), Field(record, DATE))
  }

  /** The rows of the sheet that are not blank, with their row numbers, from row `i` on. */
  function RecordsFrom(headers: seq<string>, sheet: Sheet, i: nat): seq<Numbered>
    requires 1 <= i <= |sheet|
    decreases |sheet| - i
  {
    if i == |sheet| then []
    else
      var record := RecordOf(headers, sheet[i]);
      (if Blank(record) then [] else [Numbered(i + 1, record)]) + RecordsFrom(headers, sheet, i + 1)
  }

  // ---------------------------------------------------------------- groups

  function SideCents(record: Record, column: string): Option<int> { ParseMoney(Field(record, column)) }

  function Total(rows: seq<Numbered>, column: string): Option<int> {
    if rows == [] then Some(0)
    else
      match (Total(rows[..|rows| - 1], column), SideCents(rows[|rows| - 1].record, column))
      case (Some(a), Some(b)) => Some(a + b)
      case _ => None
  }

  function SignatureLineOf(record: Record): Option<SignatureLine> {
    var debit := Field(record, DEBIT);
    match ParseMoney(if debit != "" then debit else Field(record, CREDIT))
    case None => None
    case Some(cents) =>
      Some(SignatureLine(Field(record, SUMMARY), Field(record, ACCOUNT), if debit != "" then DebitSide else CreditSide, cents))
  }

  /** A row is a debit exactly if its debit cell is not empty, and then the credit cell says nothing. */
  lemma SideOfRow(record: Record, line: SignatureLine)
    ensures SignatureLineOf(record) == Some(line)
       <==> && line.summary == Field(record, SUMMARY) && line.account == Field(record, ACCOUNT)
            && (line.direction.DebitSide? <==> Field(record, DEBIT) != "")
            && Some(line.amount) == ParseMoney(Field(record, if line.direction.DebitSide? then DEBIT else CREDIT))
  {
    hide ParseMoney;
  }

  function SignatureLines(rows: seq<Numbered>): Option<seq<SignatureLine>> {
    if rows == [] then Some([])
    else
      match (SignatureLines(rows[..|rows| - 1]), SignatureLineOf(rows[|rows| - 1].record))
      case (Some(lines), Some(line)) => Some(lines + [line])
      case _ => None
  }

  function RowNumbers(rows: seq<Numbered>): seq<nat> {
    seq(|rows|, i requires 0 <= i < |rows| => rows[i].rowNumber)
  }

  function BuildGroup(key: GroupKey, rows: seq<Numbered>): Result<Group, ParseError> {
    match (Total(rows, DEBIT), Total(rows, CREDIT), SignatureLines(rows))
    case (Some(debit), Some(credit), Some(lines)) =>
      Ok(Group(key, RowNumbers(rows), debit, credit, Signature(key.date, lines)))
    case _ => Err(BadAmount)
  }

  /** How many rows at the front share the key of the first one. */
  function RunLength(rows: seq<Numbered>): (n: nat)
    requires rows != []
    ensures 1 <= n <= |rows|
    ensures forall i :: 0 <= i < n ==> KeyOf(rows[i].record) == KeyOf(rows[0].record)
    ensures n < |rows| ==> KeyOf(rows[n].record) != KeyOf(rows[0].record)
  {
    if |rows| == 1 || KeyOf(rows[1].record) != KeyOf(rows[0].record) then 1 else 1 + RunLength(rows[1..])
  }

  /** One group for every maximal run of consecutive rows with the same key. */
  function GroupsOf(rows: seq<Numbered>): Result<seq<Group>, ParseError>
    decreases |rows|
  {
    if rows == [] then Ok([])
    else
      var n := RunLength(rows);
      match BuildGroup(KeyOf(rows[0].record), rows[..n])
      case Err(e) => Err(e)
      case Ok(group) =>
        match GroupsOf(rows[n..])
        case Err(e) => Err(e)
        case Ok(rest) => Ok([group] + rest)
  }

  function Headers(sheet: Sheet): seq<string>
    requires sheet != []
  {
    seq(|sheet[0]|, i requires 0 <= i < |sheet[0]| => Strip(sheet[0][i]))
  }

  predicate HasColumns(headers: seq<string>) {
    forall name :: name in REQUIRED - {ATTACHMENTS} ==> name in headers
  }

  function ParseSpec(sheet: Sheet): Result<seq<Group>, ParseError> {
    if sheet == [] then Err(EmptyFile)
    else if !HasColumns(Headers(sheet)) then Err(MissingColumns)
    else GroupsOf(RecordsFrom(Headers(sheet), sheet, 1))
  }

  lemma RunIsFound(rows: seq<Numbered>, n: nat)
    requires 1 <= n <= |rows|
    requires forall i :: 0 <= i < n ==> KeyOf(rows[i].record) == KeyOf(rows[0].record)
    requires n < |rows| ==> KeyOf(rows[n].record) != KeyOf(rows[0].record)
    ensures RunLength(rows) == n
  {
    hide KeyOf;
    var m := RunLength(rows);
    if m < n { assert false; }
  }

  function Joined(groups: seq<Group>, rest: Result<seq<Group>, ParseError>): Result<seq<Group>, ParseError> {
    match rest case Err(e) => Err(e) case Ok(more) => Ok(groups + more)
  }

  function Prefixed(first: Result<Group, ParseError>, rest: Result<seq<Group>, ParseError>): Result<seq<Group>, ParseError> {
    if first.Err? then Err(first.error) else Joined([first.value], rest)
  }

  /** Closing the current run: what the loop does when the key changes. */
  lemma RunCloses(current: seq<Numbered>, rest: seq<Numbered>)
    requires current != [] && (forall i :: 0 <= i < |current| ==> KeyOf(current[i].record) == KeyOf(current[0].record))
    requires rest != [] ==> KeyOf(rest[0].record) != KeyOf(current[0].record)
    ensures GroupsOf(current + rest) == Prefixed(BuildGroup(KeyOf(current[0].record), current), GroupsOf(rest))
  {
    hide KeyOf, BuildGroup;
    var all := current + rest;
    RunIsFound(all, |current|);
    assert all[..|current|] == current && all[|current|..] == rest;
  }

  lemma JoinedJoins(a: seq<Group>, b: seq<Group>, rest: Result<seq<Group>, ParseError>)
    ensures Joined(a, Joined(b, rest)) == Joined(a + b, rest)
  {
    if rest.Ok? { assert a + (b + rest.value) == a + b + rest.value; }
  }

  /** The parsing loop: a current run of rows, closed when the key changes and at the end. */
  method ParseImportSheet(sheet: Sheet) returns (r: Result<seq<Group>, ParseError>)
    ensures r == ParseSpec(sheet)
  {
    hide BuildGroup, KeyOf, Blank, RecordOf, GroupsOf;
    if sheet == [] { return Err(EmptyFile); }
    var headers := Headers(sheet);
    if !HasColumns(headers) { return Err(MissingColumns); }
    var groups: seq<Group>, current: seq<Numbered> := [], [];
    assert [] + RecordsFrom(headers, sheet, 1) == RecordsFrom(headers, sheet, 1);
    JoinedNothing(GroupsOf(RecordsFrom(headers, sheet, 1)));
    for i := 1 to |sheet|
      invariant forall j :: 0 <= j < |current| ==> KeyOf(current[j].record) == KeyOf(current[0].record)
      invariant Joined(groups, GroupsOf(current + RecordsFrom(headers, sheet, i))) == ParseSpec(sheet)
    {
      ghost var rest := RecordsFrom(headers, sheet, i + 1);
      var record := RecordOf(headers, sheet[i]);
      if Blank(record) {
        assert RecordsFrom(headers, sheet, i) == rest;
      } else {
        var row := Numbered(i + 1, record);
        ghost var tail := RecordsFrom(headers, sheet, i);
        assert tail == [row] + rest;
        if current != [] && KeyOf(record) != KeyOf(current[0].record) {
          RunCloses(current, tail);
          var group := BuildGroup(KeyOf(current[0].record), current);
          if group.Err? { return Err(group.error); }
          JoinedJoins(groups, [group.value], GroupsOf(tail));
          groups, current := groups + [group.value], [];
          assert [] + tail == tail;
        }
        assert current + tail == (current + [row]) + rest;
        current := current + [row];
      }
    }
    assert RecordsFrom(headers, sheet, |sheet|) == [];
    assert current + [] == current;
    NoRowsNoGroups();
    if current != [] {
      RunCloses(current, []);
      var group := BuildGroup(KeyOf(current[0].record), current);
      if group.Err? { return Err(group.error); }
      assert [group.value] + [] == [group.value];
      groups := groups + [group.value];
    } else {
      assert groups + [] == groups;
    }
    r := Ok(groups);
  }

  lemma NoRowsNoGroups()
    ensures GroupsOf([]) == Ok([])
  {
  }

  lemma JoinedNothing(rest: Result<seq<Group>, ParseError>)
    ensures Joined([], rest) == rest
  {
    if rest.Ok? { assert [] + rest.value == rest.value; }
  }

  // ---------------------------------------------------------------- reconciliation

  predicate Matches(group: Group, item: Expected) {
    group.key.number == item.number && group.signature == item.signature
  }

  /** The first group with the expected number and content. */
  function FirstMatch(groups: seq<Group>, item: Expected, from: nat): (r: Option<nat>)
    requires from <= |groups|
    ensures r.Some? ==> from <= r.value < |groups| && Matches(groups[r.value], item)
    ensures r.None? ==> forall i :: from <= i < |groups| ==> !Matches(groups[i], item)
    decreases |groups| - from
  {
    if from == |groups| then None
    else if Matches(groups[from], item) then Some(from)
    else FirstMatch(groups, item, from + 1)
  }

  /** Positions of the entries in each error list. */
  datatype Errors = Errors(duplicates: seq<nat>, unbalanced: seq<nat>, missing: seq<nat>, extra: seq<nat>)

  predicate Duplicate(groups: seq<Group>, i: nat)
    requires i < |groups|
  {
    exists j :: 0 <= j < i && groups[j].key.number == groups[i].key.number
  }

  predicate Matched(groups: seq<Group>, expected: seq<Expected>, i: nat)
    requires i < |groups|
  {
    exists k :: 0 <= k < |expected| && FirstMatch(groups, expected[k], 0) == Some(i)
  }

  /** Groups whose number was seen before. */
  method DuplicateNumbers(groups: seq<Group>) returns (duplicates: seq<nat>)
    ensures forall i :: i in duplicates <==> 0 <= i < |groups| && Duplicate(groups, i)
  {
    duplicates := [];
    var seen: set<string> := {};
    for i := 0 to |groups|
      invariant forall number :: number in seen <==> exists j :: 0 <= j < i && groups[j].key.number == number
      invariant forall j :: j in duplicates <==> 0 <= j < i && Duplicate(groups, j)
    {
      if groups[i].key.number in seen { duplicates := duplicates + [i]; }
      seen := seen + {groups[i].key.number};
    }
  }

  /** The scans of the reconciliation: the groups matched so far decide extras. */
  method Compare(groups: seq<Group>, expected: seq<Expected>) returns (errors: Errors)
    ensures forall i :: i in errors.duplicates <==> 0 <= i < |groups| && Duplicate(groups, i)
    ensures forall i :: i in errors.unbalanced <==> 0 <= i < |groups| && groups[i].debit != groups[i].credit
    ensures forall k :: k in errors.missing <==> 0 <= k < |expected| && FirstMatch(groups, expected[k], 0).None?
    ensures forall i :: i in errors.extra <==> 0 <= i < |groups| && !Matched(groups, expected, i)
    ensures errors == Errors([], [], [], []) <==> Reconciles(groups, expected)
  {
    hide FirstMatch, Duplicate;
    var unbalanced: seq<nat>, missing: seq<nat>, extra: seq<nat> := [], [], [];
    var duplicates := DuplicateNumbers(groups);
    for i := 0 to |groups|
      invariant forall j :: j in unbalanced <==> 0 <= j < i && groups[j].debit != groups[j].credit
    {
      if groups[i].debit != groups[i].credit { unbalanced := unbalanced + [i]; }
    }
    var matched: set<nat> := {};
    for k := 0 to |expected|
      invariant forall i :: i in matched <==> exists j :: 0 <= j < k && FirstMatch(groups, expected[j], 0) == Some(i)
      invariant forall j :: j in missing <==> 0 <= j < k && FirstMatch(groups, expected[j], 0).None?
    {
      var found := FirstMatch(groups, expected[k], 0);
      if found.Some? { matched := matched + {found.value}; } else { missing := missing + [k]; }
    }
    for i := 0 to |groups|
      invariant forall j :: j in extra <==> 0 <= j < i && !Matched(groups, expected, j)
    {
      if i !in matched { extra := extra + [i]; }
    }
    errors := Errors(duplicates, unbalanced, missing, extra);
    EmptyErrorsReconcile(groups, expected, errors);
  }

  lemma EmptyErrorsReconcile(groups: seq<Group>, expected: seq<Expected>, errors: Errors)
    requires forall i :: i in errors.duplicates <==> 0 <= i < |groups| && Duplicate(groups, i)
    requires forall i :: i in errors.unbalanced <==> 0 <= i < |groups| && groups[i].debit != groups[i].credit
    requires forall k :: k in errors.missing <==> 0 <= k < |expected| && FirstMatch(groups, expected[k], 0).None?
    requires forall i :: i in errors.extra <==> 0 <= i < |groups| && !Matched(groups, expected, i)
    ensures errors == Errors([], [], [], []) <==> Reconciles(groups, expected)
  {
    hide FirstMatch, Duplicate, Matched;
    NoEntries(errors.duplicates);
    NoEntries(errors.unbalanced);
    NoEntries(errors.missing);
    NoEntries(errors.extra);
  }

  lemma NoEntries(positions: seq<nat>)
    ensures positions == [] <==> forall i: nat :: i !in positions
  {
    if positions != [] { assert positions[0] in positions; }
  }

  /** No error list has an entry. */
  predicate Reconciles(groups: seq<Group>, expected: seq<Expected>) {
    && (forall i :: 0 <= i < |groups| ==> !Duplicate(groups, i))
    && (forall i :: 0 <= i < |groups| ==> groups[i].debit == groups[i].credit)
    && (forall k :: 0 <= k < |expected| ==> FirstMatch(groups, expected[k], 0).Some?)
    && (forall i :: 0 <= i < |groups| ==> Matched(groups, expected, i))
  }

  function GroupContents(groups: seq<Group>): set<(string, Signature)> {
    set i | 0 <= i < |groups| :: (groups[i].key.number, groups[i].signature)
  }

  function ExpectedContents(expected: seq<Expected>): set<(string, Signature)> {
    set k | 0 <= k < |expected| :: (expected[k].number, expected[k].signature)
  }

  /** Reconciliation is exact: it reports nothing if and only if the file holds each voucher number
      once, every voucher balances, and the numbered contents of the file are the expected ones. */
  lemma ReconcilesExactly(groups: seq<Group>, expected: seq<Expected>)
    ensures Reconciles(groups, expected) <==>
      && (forall i, j :: 0 <= i < j < |groups| ==> groups[i].key.number != groups[j].key.number)
      && (forall i :: 0 <= i < |groups| ==> groups[i].debit == groups[i].credit)
      && GroupContents(groups) == ExpectedContents(expected)
  {
    if Reconciles(groups, expected) {
      forall i, j | 0 <= i < j < |groups| ensures groups[i].key.number != groups[j].key.number {
        assert !Duplicate(groups, j);
      }
      ReconciledContents(groups, expected);
    }
    if && (forall i, j :: 0 <= i < j < |groups| ==> groups[i].key.number != groups[j].key.number)
       && (forall i :: 0 <= i < |groups| ==> groups[i].debit == groups[i].credit)
       && GroupContents(groups) == ExpectedContents(expected) {
      EqualContentsReconcile(groups, expected);
    }
  }

  lemma ReconciledContents(groups: seq<Group>, expected: seq<Expected>)
    requires Reconciles(groups, expected)
    ensures GroupContents(groups) == ExpectedContents(expected)
  {
    forall i | 0 <= i < |groups| ensures (groups[i].key.number, groups[i].signature) in ExpectedContents(expected) {
      assert Matched(groups, expected, i);
      var k :| 0 <= k < |expected| && FirstMatch(groups, expected[k], 0) == Some(i);
      assert (expected[k].number, expected[k].signature) in ExpectedContents(expected);
    }
    forall k | 0 <= k < |expected| ensures (expected[k].number, expected[k].signature) in GroupContents(groups) {
      var i := FirstMatch(groups, expected[k], 0).value;
      assert (groups[i].key.number, groups[i].signature) in GroupContents(groups);
    }
  }

  lemma EqualContentsReconcile(groups: seq<Group>, expected: seq<Expected>)
    requires forall i, j :: 0 <= i < j < |groups| ==> groups[i].key.number != groups[j].key.number
    requires forall i :: 0 <= i < |groups| ==> groups[i].debit == groups[i].credit
    requires GroupContents(groups) == ExpectedContents(expected)
    ensures Reconciles(groups, expected)
  {
    forall k | 0 <= k < |expected| ensures FirstMatch(groups, expected[k], 0).Some? {
      assert (expected[k].number, expected[k].signature) in GroupContents(groups);
      var i :| 0 <= i < |groups| && (groups[i].key.number, groups[i].signature) == (expected[k].number, expected[k].signature);
      assert Matches(groups[i], expected[k]);
    }
    forall i | 0 <= i < |groups| ensures Matched(groups, expected, i) {
      assert (groups[i].key.number, groups[i].signature) in ExpectedContents(expected);
      var k :| 0 <= k < |expected| && (expected[k].number, expected[k].signature) == (groups[i].key.number, groups[i].signature);
      assert Matches(groups[i], expected[k]);
      var found := FirstMatch(groups, expected[k], 0).value;
      assert groups[found].key.number == groups[i].key.number;
    }
  }
}
