/** Migrating the mapping file to its second generation: preview, exact backup, atomic replacement, and
    replay of a request that was already applied. Every step may fail, the process may stop after any, and
    power may fail at any point and undo directory changes that were not synced. */
module MappingMigration {
  import opened Results
  import opened Text
  import opened MappingRules
  import opened RuleResolution
  import opened MappingStore

  // ---------------------------------------------------------------- one rule

  const PURCHASE_INVOICE := "purchase_invoice"

  function LegacyId(r: LegacyRule): RuleId { Join([Normalize(r.seller), Normalize(r.project)]) }

  function StrippedTarget(t: Target): Target {
    Target(Strip(t.debitCode), Strip(t.debitName), Strip(t.creditCode), Strip(t.creditName), Strip(t.taxCode), t.aux, "")
  }

  /** The second-generation rule: the old scope with default fields, waiting to be confirmed again. */
  function MigratedRule(r: LegacyRule): Option<Rule> {
    if r.origin == None then None
    else
      Some(Rule(PURCHASE_INVOICE, Normalize(r.seller), "", Normalize(r.project), "", "", 0, StrippedTarget(r.target),
                PendingReconfirmation, [if r.ruleId != "" then r.ruleId else LegacyId(r)], r.origin.value, r.confirmedAt, r.confirmedBy))
  }

  function Targets(rules: seq<LegacyRule>): seq<Rule> {
    if rules == [] then []
    else
      var rest := Targets(rules[..|rules| - 1]);
      var migrated := MigratedRule(rules[|rules| - 1]);
      if migrated.Some? then rest + [migrated.value] else rest
  }

  predicate RuleConflicts(r: LegacyRule) { r.unknownFields || r.ruleId != LegacyId(r) || r.origin == None }

  predicate Conflicts(legacy: Legacy) {
    || legacy.unknownFields || legacy.revision == None || legacy.revision.value < 0
    || (exists i :: 0 <= i < |legacy.rules| && RuleConflicts(legacy.rules[i]))
    || !UniqueIds(Targets(legacy.rules))
  }

  function PreviewOf(legacy: Legacy, binding: Binding): Preview { Preview(legacy, binding, Targets(legacy.rules)) }

  // ---------------------------------------------------------------- requests

  datatype Request = Request(
    confirm: bool, source: Legacy, preview: Preview, expectedRevision: int, binding: Binding, confirmedBy: string, commandId: string)

  datatype MigrationError =
    | BadRequest | InvalidSource | SourceChanged | RevisionMismatch | PreviewStale | HasConflicts | BackupConflict | StorageFailed

  datatype Outcome = Running | Applied | AlreadyApplied | Refused(error: MigrationError)

  function KeyOf(q: Request): ReceiptKey {
    ReceiptKey(q.source, q.preview, q.expectedRevision, q.binding, Strip(q.confirmedBy), Strip(q.commandId))
  }

  /** The directory: the live name, backups by the tag their source gets, one temporary file. */
  datatype Name = Live | Backup(tag: nat) | Temporary

  datatype Content = Whole(file: File) | Partial

  type Dir = map<Name, Content>

  function LiveFile(dir: Dir): File {
    if Live in dir && dir[Live].Whole? then dir[Live].file else if Live in dir then Unreadable else Absent
  }

  function StoreFor(q: Request, tag: Legacy -> nat, now: string): Store {
    var rules := Targets(q.source.rules);
    Store(Revision(q.source) + 1, now, VersionOf(rules, Some(q.binding)), rules, Some(q.binding),
          map[KeyOf(q) := Receipt(KeyOf(q), tag(q.source), now)])
  }

  function Revision(legacy: Legacy): int { if legacy.revision.Some? then legacy.revision.value else 0 }

  /** What is decided before anything is written; None lets the migration go on. */
  function Verdict(q: Request, file: File): Option<Outcome> {
    if !q.confirm || Strip(q.confirmedBy) == "" || Strip(q.commandId) == "" then Some(Refused(BadRequest))
    else
      match file
      case Absent => Some(Refused(InvalidSource))
      case Unreadable => Some(Refused(InvalidSource))
      case V2(_) =>
        (match Load(file)
         case Err(_) => Some(Refused(InvalidSource))
         case Ok(store) => Some(if KeyOf(q) in store.receipts then AlreadyApplied else Refused(SourceChanged)))
      case V1(legacy) =>
        if legacy != q.source then Some(Refused(SourceChanged))
        else if legacy.revision == None then Some(Refused(InvalidSource))
        else if legacy.revision.value != q.expectedRevision then Some(Refused(RevisionMismatch))
        else if PreviewOf(legacy, q.binding) != q.preview then Some(Refused(PreviewStale))
        else if Conflicts(legacy) then Some(Refused(HasConflicts))
        else None
  }

  // ---------------------------------------------------------------- the disk

  /** The directory as it is read, and every directory that a power failure may leave of it. */
  datatype Disk = Disk(dir: Dir, possible: set<Dir>)

  /** A change of one name that is not synced yet: it may reach the disk with or without earlier ones. */
  function Written(disk: Disk, name: Name, content: Content): Disk {
    Disk(disk.dir[name := content], disk.possible + {disk.dir[name := content]} + set d | d in disk.possible :: d[name := content])
  }

  function Removed(disk: Disk, name: Name): Disk {
    Disk(disk.dir - {name}, disk.possible + {disk.dir - {name}} + set d | d in disk.possible :: d - {name})
  }

  /** The content of the file under this name is on disk, wherever the name is. */
  function FileSynced(disk: Disk, name: Name, content: Content): Disk {
    Disk(disk.dir[name := content],
         {disk.dir[name := content]} + set d | d in disk.possible :: if name in d then d[name := content] else d)
  }

  function DirSynced(disk: Disk): Disk { Disk(disk.dir, {disk.dir}) }

  /** How a step turns out; a directory that cannot be opened is not synced, and nobody is told. */
  datatype Fortune = Works | Unsynced | Breaks

  // ---------------------------------------------------------------- one apply, step by step

  /** Where an apply is; it holds the write lock throughout. */
  datatype Stage =
    | Deciding | LookingForBackup | WritingTemporary | SyncingTemporary | Linking | SyncingBackup | RemovingTemporary
    | CheckingBackup | Replacing | SyncingLive | Verifying | Over

  datatype Process = Process(stage: Stage, outcome: Outcome, disk: Disk)

  function Halt(p: Process, outcome: Outcome): Process { Process(Over, outcome, p.disk) }

  /** Giving up while the temporary file may exist. */
  function Stop(p: Process, error: MigrationError): Process { Process(Over, Refused(error), Removed(p.disk, Temporary)) }

  function Synced(p: Process, next: Stage, fortune: Fortune): Process {
    Process(next, Running, if fortune == Works then DirSynced(p.disk) else p.disk)
  }

  /** One step. `tag` names the backup of a source. */
  function Step(q: Request, tag: Legacy -> nat, now: string, p: Process, fortune: Fortune): Process {
    var backup, source, dir := Backup(tag(q.source)), Whole(V1(q.source)), p.disk.dir;
    if p.stage == Over then p
    else if p.stage == Deciding then
      var verdict := Verdict(q, LiveFile(dir));
      if verdict.Some? then Halt(p, verdict.value)
      else if fortune == Breaks then Halt(p, Refused(StorageFailed)) else p.(stage := LookingForBackup)
    else if fortune == Breaks then
      if p.stage in {WritingTemporary, SyncingTemporary, Linking, SyncingBackup} then Stop(p, StorageFailed)
      else Halt(p, Refused(StorageFailed))
    else
      match p.stage
      case LookingForBackup =>
        if backup !in dir then p.(stage := WritingTemporary)
        else if dir[backup] != source then Halt(p, Refused(BackupConflict))
        else p.(stage := Replacing)
      case WritingTemporary => Process(SyncingTemporary, Running, Written(p.disk, Temporary, Partial))
      case SyncingTemporary => Process(Linking, Running, FileSynced(p.disk, Temporary, source))
      case Linking =>
        if Temporary !in dir then Stop(p, StorageFailed)
        else if backup !in dir then Process(SyncingBackup, Running, Written(p.disk, backup, dir[Temporary]))
        else if dir[backup] != source then Stop(p, BackupConflict)
        else p.(stage := SyncingBackup)
      case SyncingBackup => Synced(p, RemovingTemporary, fortune)
      case RemovingTemporary => Process(CheckingBackup, Running, Removed(p.disk, Temporary))
      case CheckingBackup =>
        if backup !in dir || dir[backup] != source then Halt(p, Refused(BackupConflict)) else p.(stage := Replacing)
      case Replacing => Process(SyncingLive, Running, Written(p.disk, Live, Whole(V2(StoreFor(q, tag, now)))))
      case SyncingLive => Synced(p, Verifying, fortune)
      case _ => Halt(p, if Load(LiveFile(dir)).Ok? then Applied else Refused(StorageFailed))
  }

  /** An apply that gets as far as the given steps: it ends by itself, or the process stops there. */
  function Apply(q: Request, tag: Legacy -> nat, now: string, p: Process, fortunes: seq<Fortune>): Process
    decreases |fortunes|
  {
    if fortunes == [] then p else Apply(q, tag, now, Step(q, tag, now, p, fortunes[0]), fortunes[1..])
  }

  function Begin(disk: Disk): Process { Process(Deciding, Running, disk) }

  // ---------------------------------------------------------------- process stops

  /** The exact first-generation content is under the live name or under its backup name. */
  predicate Preserved(dir: Dir, tag: Legacy -> nat, source: Legacy) {
    || (Live in dir && dir[Live] == Whole(V1(source)))
    || HasBackup(dir, tag, source)
  }

  predicate HasBackup(dir: Dir, tag: Legacy -> nat, source: Legacy) {
    Backup(tag(source)) in dir && dir[Backup(tag(source))] == Whole(V1(source))
  }

  ghost predicate BackupsKept(before: Dir, after: Dir) {
    forall t :: Backup(t) in before ==> Backup(t) in after && after[Backup(t)] == before[Backup(t)]
  }

  /** What each stage may rely on. */
  predicate StageKept(q: Request, tag: Legacy -> nat, now: string, p: Process) {
    var source, dir := Whole(V1(q.source)), p.disk.dir;
    && (p.stage !in {Deciding, Over} ==> !Conflicts(q.source))
    && (p.stage !in {Deciding, Over, SyncingLive, Verifying} ==> Live in dir && dir[Live] == source)
    && (p.stage == Linking ==> Temporary in dir && dir[Temporary] == source)
    && (p.stage in {SyncingBackup, RemovingTemporary, Replacing, SyncingLive, Verifying} ==> HasBackup(dir, tag, q.source))
    && (p.stage in {SyncingLive, Verifying} ==> Live in dir && dir[Live] == Whole(V2(StoreFor(q, tag, now))))
    && (p.outcome == Applied ==> p.stage == Over && MigratedBy(q, tag, now, dir))
  }

  predicate MigratedBy(q: Request, tag: Legacy -> nat, now: string, dir: Dir) {
    !Conflicts(q.source) && Live in dir && dir[Live] == Whole(V2(StoreFor(q, tag, now))) && HasBackup(dir, tag, q.source)
  }

  /** One step keeps the source in the directory, changes no backup, and keeps what its stage relies on. */
  lemma StepIsSafe(q: Request, tag: Legacy -> nat, now: string, p: Process, fortune: Fortune, source: Legacy)
    requires StageKept(q, tag, now, p) && Preserved(p.disk.dir, tag, source)
    ensures var next := Step(q, tag, now, p, fortune);
            StageKept(q, tag, now, next) && Preserved(next.disk.dir, tag, source) && BackupsKept(p.disk.dir, next.disk.dir)
  {
    hide Conflicts, Load, StoreFor, KeyOf, PreviewOf, Strip;
  }

  lemma {:induction false} ApplyIsSafe(q: Request, tag: Legacy -> nat, now: string, p: Process, fortunes: seq<Fortune>, source: Legacy)
    requires StageKept(q, tag, now, p) && Preserved(p.disk.dir, tag, source)
    ensures var next := Apply(q, tag, now, p, fortunes);
            StageKept(q, tag, now, next) && Preserved(next.disk.dir, tag, source) && BackupsKept(p.disk.dir, next.disk.dir)
    decreases |fortunes|
  {
    hide StageKept, Step, Preserved;
    if fortunes != [] {
      StepIsSafe(q, tag, now, p, fortunes[0], source);
      ApplyIsSafe(q, tag, now, Step(q, tag, now, p, fortunes[0]), fortunes[1..], source);
    }
  }

  // ---------------------------------------------------------------- runs

  /** Everything that touches the directory: migrations that may break off anywhere, rule appends, writes of
      whole rule lists, and power failures, which leave one of the possible directories. */
  datatype Op =
    | Migrate(q: Request, now: string, fortunes: seq<Fortune>)
    | Append(call: Call, synced: bool)
    | Write(rules: seq<Rule>, expected: Option<int>, binding: Option<Binding>, written: string, synced: bool)
    | PowerFails(dir: Dir)

  predicate IsEdit(op: Op) { op.Append? || op.Write? }

  /** The live file after an append or a write; a refused one leaves it. */
  function Edited(file: File, op: Op): File
    requires IsEdit(op)
  {
    match op
    case Append(call, _) => AfterCall(file, call)
    case Write(rules, expected, binding, written, _) =>
      match MappingStore.Written(file, rules, expected, binding, written)
      case Ok(store) => V2(store)
      case Err(_) => file
  }

  function Edit(disk: Disk, op: Op): Disk
    requires IsEdit(op)
  {
    var file := Edited(LiveFile(disk.dir), op);
    if file == LiveFile(disk.dir) then disk
    else if op.synced then DirSynced(Written(disk, Live, Whole(file))) else Written(disk, Live, Whole(file))
  }

  function After(disk: Disk, tag: Legacy -> nat, op: Op): Disk {
    match op
    case Migrate(q, now, fortunes) => Apply(q, tag, now, Begin(disk), fortunes).disk
    case PowerFails(dir) => if dir in disk.possible then Disk(dir, {dir}) else disk
    case _ => Edit(disk, op)
  }

  function AfterAll(disk: Disk, tag: Legacy -> nat, ops: seq<Op>): Disk
    decreases |ops|
  {
    if ops == [] then disk else AfterAll(After(disk, tag, ops[0]), tag, ops[1..])
  }

  lemma OpIsSafe(disk: Disk, tag: Legacy -> nat, op: Op, source: Legacy)
    requires Preserved(disk.dir, tag, source) && !op.PowerFails?
    ensures Preserved(After(disk, tag, op).dir, tag, source) && BackupsKept(disk.dir, After(disk, tag, op).dir)
  {
    hide Appending, Conflicts;
    match op
    case Migrate(q, now, fortunes) => ApplyIsSafe(q, tag, now, Begin(disk), fortunes, source);
    case _ => LegacyRefusesEdits(source, op);
  }

  lemma LegacyRefusesEdits(source: Legacy, op: Op)
    requires IsEdit(op)
    ensures Edited(V1(source), op) == V1(source)
  {
  }

  /** At every point of every run without a power failure, wherever migrations break off: the source is under
      the live name or under its backup name, and no backup ever changes. */
  lemma {:induction false} SourceIsNeverLost(disk: Disk, tag: Legacy -> nat, ops: seq<Op>, source: Legacy)
    requires Preserved(disk.dir, tag, source) && forall i :: 0 <= i < |ops| ==> !ops[i].PowerFails?
    ensures Preserved(AfterAll(disk, tag, ops).dir, tag, source) && BackupsKept(disk.dir, AfterAll(disk, tag, ops).dir)
    decreases |ops|
  {
    hide Preserved, After;
    if ops != [] {
      OpIsSafe(disk, tag, ops[0], source);
      SourceIsNeverLost(After(disk, tag, ops[0]), tag, ops[1..], source);
    }
  }

  // ---------------------------------------------------------------- power failures

  /** No power failure can lose the source now. */
  predicate Durable(disk: Disk, tag: Legacy -> nat, source: Legacy) { forall d :: d in disk.possible ==> Preserved(d, tag, source) }

  /** The backup is there whatever a power failure leaves. */
  predicate BackupDurable(disk: Disk, tag: Legacy -> nat, source: Legacy) {
    forall d :: d in disk.possible ==> HasBackup(d, tag, source)
  }

  /** Under the live name there is this source, or a second-generation file. */
  predicate SourceOrStore(dir: Dir, source: Legacy) {
    Live in dir && dir[Live].Whole? && (dir[Live].file == V1(source) || dir[Live].file.V2?)
  }

  predicate DiskKept(disk: Disk, tag: Legacy -> nat, source: Legacy) {
    && disk.dir in disk.possible && (forall d :: d in disk.possible ==> SourceOrStore(d, source))
    && (LiveFile(disk.dir).V2? ==> BackupDurable(disk, tag, source))
  }

  /** The live file is replaced only over a durable backup. */
  predicate CarefulStep(q: Request, tag: Legacy -> nat, p: Process, fortune: Fortune) {
    p.stage == Replacing && fortune != Breaks ==> BackupDurable(p.disk, tag, q.source)
  }

  predicate CarefulApply(q: Request, tag: Legacy -> nat, now: string, p: Process, fortunes: seq<Fortune>)
    decreases |fortunes|
  {
    fortunes == []
    || (CarefulStep(q, tag, p, fortunes[0]) && CarefulApply(q, tag, now, Step(q, tag, now, p, fortunes[0]), fortunes[1..]))
  }

  predicate DurableApply(q: Request, tag: Legacy -> nat, now: string, p: Process, fortunes: seq<Fortune>, source: Legacy)
    decreases |fortunes|
  {
    && Durable(p.disk, tag, source)
    && (fortunes == [] || DurableApply(q, tag, now, Step(q, tag, now, p, fortunes[0]), fortunes[1..], source))
  }

  /** One step: the source stays durable if and only if the step is careful. */
  lemma StepIsDurableExactly(q: Request, tag: Legacy -> nat, now: string, p: Process, fortune: Fortune, source: Legacy)
    requires StageKept(q, tag, now, p) && DiskKept(p.disk, tag, source) && Durable(p.disk, tag, source)
    ensures CarefulStep(q, tag, p, fortune) ==> DiskKept(Step(q, tag, now, p, fortune).disk, tag, source)
    ensures Durable(Step(q, tag, now, p, fortune).disk, tag, source) <==> CarefulStep(q, tag, p, fortune)
  {
    hide Conflicts, Load, StoreFor, KeyOf, PreviewOf, Strip, Verdict;
    var next := Step(q, tag, now, p, fortune);
    if p.stage == Replacing && fortune != Breaks {
      var store := Whole(V2(StoreFor(q, tag, now)));
      ReplacingIsDurableExactly(p.disk, tag, source, store);
    } else if next.disk != p.disk {
      OtherStepsAreDurable(q, tag, now, p, fortune, source);
    }
  }

  lemma ReplacingIsDurableExactly(disk: Disk, tag: Legacy -> nat, source: Legacy, store: Content)
    requires DiskKept(disk, tag, source) && Durable(disk, tag, source) && store.Whole? && store.file.V2?
    ensures BackupDurable(disk, tag, source) ==> DiskKept(Written(disk, Live, store), tag, source)
    ensures Durable(Written(disk, Live, store), tag, source) <==> BackupDurable(disk, tag, source)
  {
    var next := Written(disk, Live, store);
    if Durable(next, tag, source) {
      forall d | d in disk.possible ensures HasBackup(d, tag, source) {
        assert d[Live := store] in next.possible;
      }
    }
  }

  lemma OtherStepsAreDurable(q: Request, tag: Legacy -> nat, now: string, p: Process, fortune: Fortune, source: Legacy)
    requires StageKept(q, tag, now, p) && DiskKept(p.disk, tag, source) && Durable(p.disk, tag, source)
    requires p.stage != Replacing || fortune == Breaks
    ensures DiskKept(Step(q, tag, now, p, fortune).disk, tag, source) && Durable(Step(q, tag, now, p, fortune).disk, tag, source)
  {
    hide Conflicts, Load, StoreFor, KeyOf, PreviewOf, Strip, Verdict;
  }

  lemma {:induction false} ApplyIsDurableExactly(
    q: Request, tag: Legacy -> nat, now: string, p: Process, fortunes: seq<Fortune>, source: Legacy)
    requires StageKept(q, tag, now, p) && DiskKept(p.disk, tag, source) && Durable(p.disk, tag, source)
    ensures DurableApply(q, tag, now, p, fortunes, source) <==> CarefulApply(q, tag, now, p, fortunes)
    ensures CarefulApply(q, tag, now, p, fortunes) ==>
              var end := Apply(q, tag, now, p, fortunes).disk; DiskKept(end, tag, source) && Durable(end, tag, source)
    decreases |fortunes|
  {
    hide StageKept, DiskKept, Durable, Step, CarefulStep;
    if fortunes != [] {
      var next := Step(q, tag, now, p, fortunes[0]);
      DiskPreserves(p.disk, tag, source);
      StepIsSafe(q, tag, now, p, fortunes[0], source);
      StepIsDurableExactly(q, tag, now, p, fortunes[0], source);
      if CarefulStep(q, tag, p, fortunes[0]) {
        ApplyIsDurableExactly(q, tag, now, next, fortunes[1..], source);
      } else {
        NeverDurableAgain(q, tag, now, next, fortunes[1..], source);
      }
    }
  }

  lemma DiskPreserves(disk: Disk, tag: Legacy -> nat, source: Legacy)
    requires DiskKept(disk, tag, source) && Durable(disk, tag, source)
    ensures Preserved(disk.dir, tag, source)
  {
  }

  lemma NeverDurableAgain(q: Request, tag: Legacy -> nat, now: string, p: Process, fortunes: seq<Fortune>, source: Legacy)
    requires !Durable(p.disk, tag, source)
    ensures !DurableApply(q, tag, now, p, fortunes, source)
  {
  }

  predicate CarefulOp(disk: Disk, tag: Legacy -> nat, op: Op) {
    op.Migrate? ==> CarefulApply(op.q, tag, op.now, Begin(disk), op.fortunes)
  }

  predicate CarefulRun(disk: Disk, tag: Legacy -> nat, ops: seq<Op>)
    decreases |ops|
  {
    ops == [] || (CarefulOp(disk, tag, ops[0]) && CarefulRun(After(disk, tag, ops[0]), tag, ops[1..]))
  }

  /** At every step of the run no power failure could lose the source. */
  predicate DurableRun(disk: Disk, tag: Legacy -> nat, ops: seq<Op>, source: Legacy)
    decreases |ops|
  {
    && Durable(disk, tag, source)
    && (ops == []
        || (&& (ops[0].Migrate? ==> DurableApply(ops[0].q, tag, ops[0].now, Begin(disk), ops[0].fortunes, source))
            && DurableRun(After(disk, tag, ops[0]), tag, ops[1..], source)))
  }

  lemma OtherOpsAreDurable(disk: Disk, tag: Legacy -> nat, op: Op, source: Legacy)
    requires DiskKept(disk, tag, source) && Durable(disk, tag, source) && !op.Migrate?
    ensures DiskKept(After(disk, tag, op), tag, source) && Durable(After(disk, tag, op), tag, source)
  {
    hide Appending, Load;
    if IsEdit(op) && Edited(LiveFile(disk.dir), op) != LiveFile(disk.dir) {
      LegacyRefusesEdits(source, op);
      ChangedFileIsStore(LiveFile(disk.dir), op);
      EditedIsDurable(disk, tag, source, Edited(LiveFile(disk.dir), op));
    }
  }

  /** What an edit writes loads again, with the receipts there were. */
  lemma ChangedFileIsStore(file: File, op: Op)
    requires IsEdit(op) && Edited(file, op) != file
    ensures Edited(file, op).V2? && Load(file).Ok? && Load(Edited(file, op)).Ok?
    ensures Load(Edited(file, op)).value.receipts == Load(file).value.receipts
  {
    hide Appending, Load, Sound, NormalizedRule;
    match op
    case Append(call, _) => AppendParts(file, call);
    case Write(rules, expected, binding, written, _) =>
      LoadedToWrite(file, rules, expected, binding, written);
      WrittenIsSound(file, rules, expected, binding, written);
  }

  lemma LoadedToWrite(file: File, rules: seq<Rule>, expected: Option<int>, binding: Option<Binding>, now: string)
    requires MappingStore.Written(file, rules, expected, binding, now).Ok?
    ensures Load(file).Ok?
  {
  }

  /** A live second-generation file may be replaced by another: a backup that must be there already is. */
  lemma EditedIsDurable(disk: Disk, tag: Legacy -> nat, source: Legacy, file: File)
    requires DiskKept(disk, tag, source) && Durable(disk, tag, source) && file.V2? && LiveFile(disk.dir).V2?
    ensures DiskKept(Written(disk, Live, Whole(file)), tag, source) && Durable(Written(disk, Live, Whole(file)), tag, source)
  {
  }

  function Fresh(source: Legacy): Disk {
    var dir := map[Live := Whole(V1(source))];
    Disk(dir, {dir})
  }

  lemma {:induction false} RunIsDurableExactly(disk: Disk, tag: Legacy -> nat, ops: seq<Op>, source: Legacy)
    requires DiskKept(disk, tag, source) && Durable(disk, tag, source)
    ensures DurableRun(disk, tag, ops, source) <==> CarefulRun(disk, tag, ops)
    decreases |ops|
  {
    hide DiskKept, Durable, After, StageKept, DurableApply, CarefulApply;
    if ops != [] {
      OpIsDurableExactly(disk, tag, ops[0], source);
      if CarefulOp(disk, tag, ops[0]) { RunIsDurableExactly(After(disk, tag, ops[0]), tag, ops[1..], source); }
    }
  }

  lemma OpIsDurableExactly(disk: Disk, tag: Legacy -> nat, op: Op, source: Legacy)
    requires DiskKept(disk, tag, source) && Durable(disk, tag, source)
    ensures op.Migrate? ==> (DurableApply(op.q, tag, op.now, Begin(disk), op.fortunes, source) <==> CarefulOp(disk, tag, op))
    ensures CarefulOp(disk, tag, op) ==> DiskKept(After(disk, tag, op), tag, source) && Durable(After(disk, tag, op), tag, source)
  {
    hide DiskKept, Durable, DurableApply, CarefulApply, Apply, Edit;
    if op.Migrate? {
      BegunIsKept(op.q, tag, op.now, disk);
      ApplyIsDurableExactly(op.q, tag, op.now, Begin(disk), op.fortunes, source);
    } else {
      OtherOpsAreDurable(disk, tag, op, source);
    }
  }

  lemma BegunIsKept(q: Request, tag: Legacy -> nat, now: string, disk: Disk)
    ensures StageKept(q, tag, now, Begin(disk))
  {
  }

  /** Power failures, exactly. In a run of migrations broken off anywhere, appends, writes and power failures, no power
      failure at any point could lose the source, if and only if every migration replaced the live file over
      a backup that no power failure could take away. */
  lemma SourceSurvivesPowerFailuresExactly(source: Legacy, tag: Legacy -> nat, ops: seq<Op>)
    ensures DurableRun(Fresh(source), tag, ops, source) <==> CarefulRun(Fresh(source), tag, ops)
  {
    RunIsDurableExactly(Fresh(source), tag, ops, source);
  }

  /** Once its directory is synced, a backup that a migration wrote itself stays durable until it is needed. */
  predicate OwnBackup(q: Request, tag: Legacy -> nat, p: Process) {
    && (p.stage in {Deciding, LookingForBackup} ==> Backup(tag(q.source)) !in p.disk.dir)
    && (p.stage in {RemovingTemporary, CheckingBackup, Replacing} ==> BackupDurable(p.disk, tag, q.source))
  }

  lemma OwnBackupStep(q: Request, tag: Legacy -> nat, now: string, p: Process, fortune: Fortune)
    requires StageKept(q, tag, now, p) && OwnBackup(q, tag, p) && fortune != Unsynced
    ensures OwnBackup(q, tag, Step(q, tag, now, p, fortune)) && CarefulStep(q, tag, p, fortune)
  {
    hide Conflicts, Load, StoreFor, KeyOf, PreviewOf, Strip, Verdict;
  }

  /** A migration that writes its own backup and whose directory syncs work is careful, wherever it breaks off. */
  lemma {:induction false} OwnBackupIsCareful(q: Request, tag: Legacy -> nat, now: string, p: Process, fortunes: seq<Fortune>)
    requires StageKept(q, tag, now, p) && Preserved(p.disk.dir, tag, q.source) && OwnBackup(q, tag, p)
    requires forall i :: 0 <= i < |fortunes| ==> fortunes[i] != Unsynced
    ensures CarefulApply(q, tag, now, p, fortunes)
    decreases |fortunes|
  {
    hide StageKept, OwnBackup, Preserved, Step, CarefulStep;
    if fortunes != [] {
      OwnBackupStep(q, tag, now, p, fortunes[0]);
      StepIsSafe(q, tag, now, p, fortunes[0], q.source);
      OwnBackupIsCareful(q, tag, now, Step(q, tag, now, p, fortunes[0]), fortunes[1..]);
    }
  }

  // ---------------------------------------------------------------- a run that power can undo

  /** The first attempt stops right after linking its backup, before the directory is synced. */
  const STOPPED: seq<Fortune> := [Works, Works, Works, Works, Works]

  /** The second finds that backup, trusts it, and replaces the live file. */
  const SECOND: seq<Fortune> := [Works, Works, Works]

  lemma StoppedAttempt(q: Request, tag: Legacy -> nat, now: string)
    requires Verdict(q, V1(q.source)) == None
    ensures var after := Apply(q, tag, now, Begin(Fresh(q.source)), STOPPED);
            && after.stage == SyncingBackup && LiveFile(after.disk.dir) == V1(q.source) && HasBackup(after.disk.dir, tag, q.source)
            && Fresh(q.source).dir in after.disk.possible
  {
    hide Verdict, StoreFor;
    var p0 := Begin(Fresh(q.source));
    var p1 := Step(q, tag, now, p0, Works);
    var p2 := Step(q, tag, now, p1, Works);
    var p3 := Step(q, tag, now, p2, Works);
    var p4 := Step(q, tag, now, p3, Works);
    var p5 := Step(q, tag, now, p4, Works);
    assert p3.disk.dir == Fresh(q.source).dir[Temporary := Partial] && Fresh(q.source).dir in p3.disk.possible;
    assert Temporary !in Fresh(q.source).dir && Fresh(q.source).dir in p4.disk.possible;
    assert p5.stage == SyncingBackup;
    FiveSteps(q, tag, now, p0);
  }

  lemma FiveSteps(q: Request, tag: Legacy -> nat, now: string, p: Process)
    ensures Apply(q, tag, now, p, STOPPED)
         == Step(q, tag, now, Step(q, tag, now, Step(q, tag, now, Step(q, tag, now, Step(q, tag, now, p, Works), Works), Works), Works), Works)
  {
    hide Step;
    var p2 := Step(q, tag, now, Step(q, tag, now, p, Works), Works);
    TwoMore(q, tag, now, p, STOPPED);
    TwoMore(q, tag, now, p2, STOPPED[2..]);
    assert STOPPED[2..][2..] == [Works];
    assert [Works][1..] == [];
  }

  lemma TwoMore(q: Request, tag: Legacy -> nat, now: string, p: Process, fortunes: seq<Fortune>)
    requires |fortunes| >= 2
    ensures Apply(q, tag, now, p, fortunes)
         == Apply(q, tag, now, Step(q, tag, now, Step(q, tag, now, p, fortunes[0]), fortunes[1]), fortunes[2..])
  {
    hide Step;
    assert fortunes[1..][1..] == fortunes[2..];
  }

  lemma SecondAttempt(q: Request, tag: Legacy -> nat, now: string, disk: Disk)
    requires Verdict(q, V1(q.source)) == None && LiveFile(disk.dir) == V1(q.source) && HasBackup(disk.dir, tag, q.source)
    requires Fresh(q.source).dir in disk.possible
    ensures var end := Apply(q, tag, now, Begin(disk), SECOND).disk;
            map[Live := Whole(V2(StoreFor(q, tag, now)))] in end.possible
  {
    hide Verdict, StoreFor;
    var p1 := Step(q, tag, now, Begin(disk), Works);
    var p2 := Step(q, tag, now, p1, Works);
    assert p2 == Process(Replacing, Running, disk);
    var p3 := Step(q, tag, now, p2, Works);
    assert Fresh(q.source).dir[Live := Whole(V2(StoreFor(q, tag, now)))] in p3.disk.possible;
    assert Fresh(q.source).dir[Live := Whole(V2(StoreFor(q, tag, now)))] == map[Live := Whole(V2(StoreFor(q, tag, now)))];
    TwoMore(q, tag, now, Begin(disk), SECOND);
    assert SECOND[2..] == [Works] && [Works][1..] == [];
  }

  /** For every source that can be migrated there is a run that loses it: the first attempt stops between
      linking the backup and syncing the directory; the second finds the backup, does not sync it, and
      replaces the live file; the power fails and keeps the replacement without the backup. */
  lemma UnsyncedBackupCanBeLost(q: Request, tag: Legacy -> nat, now: string)
    requires Verdict(q, V1(q.source)) == None
    ensures var left := map[Live := Whole(V2(StoreFor(q, tag, now)))];
            var end := AfterAll(Fresh(q.source), tag, [Migrate(q, now, STOPPED), Migrate(q, now, SECOND), PowerFails(left)]);
            end.dir == left && !Preserved(end.dir, tag, q.source)
  {
    hide Apply, StoreFor, Verdict;
    StoppedAttempt(q, tag, now);
    var one := Apply(q, tag, now, Begin(Fresh(q.source)), STOPPED).disk;
    SecondAttempt(q, tag, now, one);
    var two := Apply(q, tag, now, Begin(one), SECOND).disk;
    var left := map[Live := Whole(V2(StoreFor(q, tag, now)))];
    var ops := [Migrate(q, now, STOPPED), Migrate(q, now, SECOND), PowerFails(left)];
    assert ops[1..][1..] == [PowerFails(left)] && [PowerFails(left)][1..] == [];
    assert AfterAll(two, tag, [PowerFails(left)]) == AfterAll(Disk(left, {left}), tag, []);
    assert AfterAll(one, tag, ops[1..]) == AfterAll(two, tag, [PowerFails(left)]);
  }

  // ---------------------------------------------------------------- what a migration makes

  lemma {:induction false} TargetsAre(rules: seq<LegacyRule>)
    requires forall i :: 0 <= i < |rules| ==> rules[i].origin.Some?
    ensures |Targets(rules)| == |rules|
    ensures forall i :: 0 <= i < |rules| ==> MigratedRule(rules[i]) == Some(Targets(rules)[i])
  {
    hide MigratedRule;
    if rules != [] {
      TargetsAre(rules[..|rules| - 1]);
      OriginMigrates(rules[|rules| - 1]);
    }
  }

  lemma OriginMigrates(r: LegacyRule)
    ensures MigratedRule(r).Some? <==> r.origin.Some?
    ensures MigratedRule(r).Some? ==> MigratedRule(r).value.activation == PendingReconfirmation
  {
  }

  lemma MigratedIsNormalized(r: LegacyRule)
    requires r.origin.Some?
    ensures IsNormalized(MigratedRule(r).value)
  {
    hide Normalize, Strip, LexLess, PURCHASE_INVOICE, IsoDate;
    DefaultsAreNormal();
    NormalizeIsNormal(r.seller);
    NormalizeFixes(Normalize(r.seller));
    NormalizeIsNormal(r.project);
    NormalizeFixes(Normalize(r.project));
  }

  lemma DefaultsAreNormal()
    ensures Normalize(PURCHASE_INVOICE) == PURCHASE_INVOICE && Normalize("") == "" && IsoDate("") == Some("")
  {
    hide Normalize;
    NormalizeFixes("");
    PurchaseInvoiceIsNormal();
    NormalizeFixes(PURCHASE_INVOICE);
  }

  lemma PurchaseInvoiceIsNormal()
    ensures Normal(PURCHASE_INVOICE)
  {
    assert forall i :: 0 <= i < |PURCHASE_INVOICE| ==> PURCHASE_INVOICE[i] == '_' || 'a' <= PURCHASE_INVOICE[i] <= 'z';
  }

  /** A migration that reports success leaves a sound store one revision on, with exactly one rule per old
      rule in their order, each of the old scope, waiting to be confirmed, with ids of its own. */
  lemma MigrationIsFaithful(q: Request, tag: Legacy -> nat, now: string, dir: Dir)
    requires MigratedBy(q, tag, now, dir)
    ensures var file := LiveFile(dir);
            && Load(file).Ok? && Sound(Load(file).value)
            && var store := Load(file).value;
               && store.revision == Revision(q.source) + 1 && store.binding == Some(q.binding)
               && |store.rules| == |q.source.rules| && UniqueIds(store.rules)
               && (forall i :: 0 <= i < |store.rules| ==>
                     && MigratedRule(q.source.rules[i]) == Some(store.rules[i])
                     && store.rules[i].activation == PendingReconfirmation)
               && KeyOf(q) in store.receipts
  {
    hide MigratedRule, LegacyId, IsNormalized, IdOf, VersionOf, UniqueIds, Targets;
    var rules, store := q.source.rules, StoreFor(q, tag, now);
    forall i | 0 <= i < |rules| ensures rules[i].origin.Some? { assert !RuleConflicts(rules[i]); }
    TargetsAre(rules);
    forall i | 0 <= i < |rules| ensures IsNormalized(Targets(rules)[i]) && Targets(rules)[i].activation == PendingReconfirmation {
      MigratedIsNormalized(rules[i]);
      OriginMigrates(rules[i]);
    }
    LoadIsSound(V2(store));
  }

  /** An apply goes on, exactly, if it is confirmed, signed and named, and the file is the very source of the request
      at its revision, its preview is still the one confirmed, and it has no conflicts. */
  lemma VerdictExactly(q: Request, file: File)
    ensures Verdict(q, file) == None
       <==> && q.confirm && Strip(q.confirmedBy) != "" && Strip(q.commandId) != "" && file == V1(q.source)
            && q.source.revision == Some(q.expectedRevision)
            && q.preview == Preview(q.source, q.binding, Targets(q.source.rules)) && !Conflicts(q.source)
    ensures Verdict(q, file) == Some(AlreadyApplied)
       <==> && q.confirm && Strip(q.confirmedBy) != "" && Strip(q.commandId) != "" && file.V2? && Load(file).Ok?
            && ReceiptKey(q.source, q.preview, q.expectedRevision, q.binding, Strip(q.confirmedBy), Strip(q.commandId))
               in Load(file).value.receipts
  {
    hide Load, Strip, Conflicts, Targets;
  }

  /** An apply that went on and reports success was one that could. */
  lemma {:induction false} AppliedWasDue(q: Request, tag: Legacy -> nat, now: string, p: Process, fortunes: seq<Fortune>)
    requires p.stage == Deciding && p.outcome == Running
    ensures Apply(q, tag, now, p, fortunes).outcome == Applied ==> Verdict(q, LiveFile(p.disk.dir)) == None
  {
    hide Verdict, Load, StoreFor;
    if fortunes != [] {
      VerdictIsNotApplied(q, LiveFile(p.disk.dir));
      var next := Step(q, tag, now, p, fortunes[0]);
      if Verdict(q, LiveFile(p.disk.dir)).Some? { OverStays(q, tag, now, next, fortunes[1..]); }
    }
  }

  /** An apply that is due, over a directory without an older backup and with every step working: success, the
      source under the backup name and the new store live, both on disk. */
  lemma UndisturbedApplies(q: Request, tag: Legacy -> nat, now: string, disk: Disk)
    requires Verdict(q, LiveFile(disk.dir)) == None && Backup(tag(q.source)) !in disk.dir
    ensures var end := Apply(q, tag, now, Begin(disk), ALL_WORK);
            && end.outcome == Applied && end.disk.possible == {end.disk.dir}
            && end.disk.dir == (disk.dir - {Temporary})[Backup(tag(q.source)) := Whole(V1(q.source))][Live := Whole(V2(StoreFor(q, tag, now)))]
  {
    hide Verdict, Load, StoreFor, Conflicts, Step, Working, MigratedBy;
    VerdictExactly(q, LiveFile(disk.dir));
    TemporaryIsMade(q, tag, now, disk);
    var half := Working(q, tag, now, Begin(disk), 4);
    BackupIsMade(q, tag, now, half);
    var at := Working(q, tag, now, half, 4);
    StoreIsPut(q, tag, now, at);
    AllWorkSplits(q, tag, now, Begin(disk));
  }

  /** As often as an apply has steps. */
  const ALL_WORK: seq<Fortune> := [Works, Works, Works, Works, Works, Works, Works, Works, Works, Works, Works]

  lemma TemporaryIsMade(q: Request, tag: Legacy -> nat, now: string, disk: Disk)
    requires Verdict(q, LiveFile(disk.dir)) == None && Backup(tag(q.source)) !in disk.dir
    ensures var half := Working(q, tag, now, Begin(disk), 4);
            half.stage == Linking && half.outcome == Running && half.disk.dir == disk.dir[Temporary := Whole(V1(q.source))]
  {
    hide Verdict, Load, StoreFor;
    var a := Step(q, tag, now, Begin(disk), Works);
    var b := Step(q, tag, now, a, Works);
    var c := Step(q, tag, now, b, Works);
    var d := Step(q, tag, now, c, Works);
    assert c.disk.dir == disk.dir[Temporary := Partial];
    assert Working(q, tag, now, Begin(disk), 4) == Working(q, tag, now, a, 3) == Working(q, tag, now, b, 2)
        == Working(q, tag, now, c, 1) == Working(q, tag, now, d, 0);
  }

  lemma BackupIsMade(q: Request, tag: Legacy -> nat, now: string, half: Process)
    requires half.stage == Linking && half.outcome == Running && Backup(tag(q.source)) !in half.disk.dir
    requires Temporary in half.disk.dir && half.disk.dir[Temporary] == Whole(V1(q.source))
    ensures var at := Working(q, tag, now, half, 4);
            at.stage == Replacing && at.outcome == Running
            && at.disk.dir == (half.disk.dir - {Temporary})[Backup(tag(q.source)) := Whole(V1(q.source))]
  {
    hide Verdict, Load, StoreFor;
    var a := Step(q, tag, now, half, Works);
    var b := Step(q, tag, now, a, Works);
    var c := Step(q, tag, now, b, Works);
    var d := Step(q, tag, now, c, Works);
    assert b.disk.dir == half.disk.dir[Backup(tag(q.source)) := Whole(V1(q.source))];
    assert Working(q, tag, now, half, 4) == Working(q, tag, now, a, 3) == Working(q, tag, now, b, 2)
        == Working(q, tag, now, c, 1) == Working(q, tag, now, d, 0);
  }

  lemma StoreIsPut(q: Request, tag: Legacy -> nat, now: string, at: Process)
    requires at.stage == Replacing && at.outcome == Running && !Conflicts(q.source)
    requires HasBackup(at.disk.dir, tag, q.source)
    ensures var end := Working(q, tag, now, at, 3);
            && end.outcome == Applied && end.disk.dir == at.disk.dir[Live := Whole(V2(StoreFor(q, tag, now)))]
            && end.disk.possible == {end.disk.dir}
  {
    hide Verdict, Load, StoreFor, Conflicts;
    var a := Step(q, tag, now, at, Works);
    var b := Step(q, tag, now, a, Works);
    MigrationLoads(q, tag, now, b.disk.dir);
    var c := Step(q, tag, now, b, Works);
    assert Working(q, tag, now, at, 3) == Working(q, tag, now, a, 2) == Working(q, tag, now, b, 1) == Working(q, tag, now, c, 0);
  }

  lemma MigrationLoads(q: Request, tag: Legacy -> nat, now: string, dir: Dir)
    requires MigratedBy(q, tag, now, dir)
    ensures Load(LiveFile(dir)).Ok?
  {
    hide Load, MigratedBy, UniqueIds, MigratedRule;
    MigrationIsFaithful(q, tag, now, dir);
  }

  /** The steps one after the other, all of which work. */
  function Working(q: Request, tag: Legacy -> nat, now: string, p: Process, k: nat): Process
    decreases k
  {
    if k == 0 then p else Working(q, tag, now, Step(q, tag, now, p, Works), k - 1)
  }

  lemma {:induction false} WorkingIsApply(q: Request, tag: Legacy -> nat, now: string, p: Process, fortunes: seq<Fortune>)
    requires forall i :: 0 <= i < |fortunes| ==> fortunes[i] == Works
    ensures Apply(q, tag, now, p, fortunes) == Working(q, tag, now, p, |fortunes|)
    decreases |fortunes|
  {
    hide Step;
    if fortunes != [] { WorkingIsApply(q, tag, now, Step(q, tag, now, p, Works), fortunes[1..]); }
  }

  lemma {:induction false} WorkingJoins(q: Request, tag: Legacy -> nat, now: string, p: Process, j: nat, k: nat)
    ensures Working(q, tag, now, p, j + k) == Working(q, tag, now, Working(q, tag, now, p, j), k)
    decreases j
  {
    hide Step;
    if j > 0 { WorkingJoins(q, tag, now, Step(q, tag, now, p, Works), j - 1, k); }
  }

  lemma AllWorkSplits(q: Request, tag: Legacy -> nat, now: string, p: Process)
    ensures Apply(q, tag, now, p, ALL_WORK) == Working(q, tag, now, Working(q, tag, now, Working(q, tag, now, p, 4), 4), 3)
  {
    hide Step, Working, Apply;
    WorkingIsApply(q, tag, now, p, ALL_WORK);
    WorkingJoins(q, tag, now, p, 4, 7);
    WorkingJoins(q, tag, now, Working(q, tag, now, p, 4), 4, 3);
  }

  /** What a migrated rule is, field by field: the old seller and project, normalised, in their own places and
      no other part of a scope; the old accounts, trimmed; origin, confirmation and id kept; to be confirmed. */
  predicate Carries(from: LegacyRule, r: Rule) {
    && r.sourceType == "purchase_invoice" && r.seller == Normalize(from.seller) && r.project == Normalize(from.project)
    && r.item == "" && r.effectiveFrom == "" && r.effectiveTo == "" && r.priority == 0
    && r.target.debitCode == Strip(from.target.debitCode) && r.target.debitName == Strip(from.target.debitName)
    && r.target.creditCode == Strip(from.target.creditCode) && r.target.creditName == Strip(from.target.creditName)
    && r.target.taxCode == Strip(from.target.taxCode) && r.target.aux == from.target.aux && r.target.businessClass == ""
    && Some(r.origin) == from.origin && r.confirmedAt == from.confirmedAt && r.confirmedBy == from.confirmedBy
    && r.activation == PendingReconfirmation && r.legacyIds == [from.ruleId]
  }

  /** Every old rule is carried over, in its place. */
  lemma MigrationCarriesFields(q: Request, tag: Legacy -> nat, now: string, dir: Dir, i: nat)
    requires MigratedBy(q, tag, now, dir) && i < |q.source.rules|
    ensures var loaded := Load(LiveFile(dir));
            loaded.Ok? && |loaded.value.rules| == |q.source.rules| && Carries(q.source.rules[i], loaded.value.rules[i])
  {
    hide Load, Normalize, Strip, UniqueIds, Targets;
    MigrationIsFaithful(q, tag, now, dir);
    assert !RuleConflicts(q.source.rules[i]);
  }

  /** Known fields only, a known origin, and an id that belongs to its seller and project. */
  predicate KnownRule(r: LegacyRule) {
    !r.unknownFields && r.origin.Some? && r.ruleId == Normalize(r.seller) + [SEPARATOR] + Normalize(r.project)
  }

  predicate DistinctScopes(rules: seq<LegacyRule>) {
    forall i, j :: 0 <= i < j < |rules| ==>
      Normalize(rules[i].seller) != Normalize(rules[j].seller) || Normalize(rules[i].project) != Normalize(rules[j].project)
  }

  /** What has no conflicts, exactly: known fields, a revision, known rules, and no two of the same normalised
      seller and project. */
  lemma ConflictsExactly(legacy: Legacy)
    ensures !Conflicts(legacy)
       <==> && !legacy.unknownFields && legacy.revision.Some? && legacy.revision.value >= 0
            && (forall i :: 0 <= i < |legacy.rules| ==> KnownRule(legacy.rules[i])) && DistinctScopes(legacy.rules)
  {
    hide Normalize, Targets, UniqueIds, DistinctScopes;
    forall i | 0 <= i < |legacy.rules| ensures RuleConflicts(legacy.rules[i]) <==> !KnownRule(legacy.rules[i]) {
      JoinOfTwo(legacy.rules[i]);
    }
    if forall i :: 0 <= i < |legacy.rules| ==> KnownRule(legacy.rules[i]) { UniqueTargetsExactly(legacy.rules); }
  }

  lemma JoinOfTwo(r: LegacyRule)
    ensures LegacyId(r) == Normalize(r.seller) + [SEPARATOR] + Normalize(r.project)
  {
    hide Normalize;
    var fields := [Normalize(r.seller), Normalize(r.project)];
    assert fields[1..] == [Normalize(r.project)];
    assert Join(fields[1..]) == Normalize(r.project);
  }

  lemma UniqueTargetsExactly(rules: seq<LegacyRule>)
    requires forall i :: 0 <= i < |rules| ==> rules[i].origin.Some?
    ensures UniqueIds(Targets(rules)) <==> DistinctScopes(rules)
  {
    hide Normalize, IdOf, Targets, MigratedRule;
    TargetsAre(rules);
    var targets := Targets(rules);
    forall i, j | 0 <= i < j < |rules|
      ensures IdOf(targets[i]) != IdOf(targets[j])
         <==> Normalize(rules[i].seller) != Normalize(rules[j].seller) || Normalize(rules[i].project) != Normalize(rules[j].project) {
      SameTargetScope(rules[i], rules[j]);
    }
  }

  lemma SameTargetScope(a: LegacyRule, b: LegacyRule)
    requires a.origin.Some? && b.origin.Some?
    ensures MigratedRule(a).Some? && MigratedRule(b).Some?
    ensures IdOf(MigratedRule(a).value) == IdOf(MigratedRule(b).value)
       <==> Normalize(a.seller) == Normalize(b.seller) && Normalize(a.project) == Normalize(b.project)
  {
    hide Normalize, IdOf, IsNormalized, LegacyId, StrippedTarget;
    MigratedIsNormalized(a);
    MigratedIsNormalized(b);
    IdsTellScopesApart(MigratedRule(a).value, MigratedRule(b).value);
  }

  // ---------------------------------------------------------------- replay

  /** The file carries the receipt of this request. */
  predicate HasReceipt(dir: Dir, key: ReceiptKey) {
    LiveFile(dir).V2? && Load(LiveFile(dir)).Ok? && key in Load(LiveFile(dir)).value.receipts
  }

  predicate ReceiptIsDurable(disk: Disk, key: ReceiptKey) {
    disk.dir in disk.possible && forall d :: d in disk.possible ==> HasReceipt(d, key)
  }

  lemma SecondGenerationRefuses(q: Request, tag: Legacy -> nat, now: string, p: Process, fortunes: seq<Fortune>)
    requires LiveFile(p.disk.dir).V2? && p.stage in {Deciding, Over}
    ensures Apply(q, tag, now, p, fortunes).disk == p.disk
    decreases |fortunes|
  {
    hide Load, Conflicts;
    if fortunes != [] { SecondGenerationRefuses(q, tag, now, Step(q, tag, now, p, fortunes[0]), fortunes[1..]); }
  }

  lemma {:induction false} ReceiptStays(disk: Disk, tag: Legacy -> nat, ops: seq<Op>, key: ReceiptKey)
    requires ReceiptIsDurable(disk, key)
    ensures ReceiptIsDurable(AfterAll(disk, tag, ops), key)
    decreases |ops|
  {
    hide Load, Edited, Apply;
    if ops != [] {
      var next := After(disk, tag, ops[0]);
      match ops[0] {
        case Migrate(q, now, fortunes) => SecondGenerationRefuses(q, tag, now, Begin(disk), fortunes);
        case PowerFails(_) =>
        case _ => EditKeepsReceipt(disk, ops[0], key);
      }
      ReceiptStays(next, tag, ops[1..], key);
    }
  }

  lemma EditKeepsReceipt(disk: Disk, op: Op, key: ReceiptKey)
    requires ReceiptIsDurable(disk, key) && IsEdit(op)
    ensures ReceiptIsDurable(Edit(disk, op), key)
  {
    hide Load, Edited, Written;
    var file := Edited(LiveFile(disk.dir), op);
    assert HasReceipt(disk.dir, key);
    if file != LiveFile(disk.dir) {
      ChangedFileIsStore(LiveFile(disk.dir), op);
      WrittenReceiptIsDurable(disk, file, key);
    }
  }

  lemma WrittenReceiptIsDurable(disk: Disk, file: File, key: ReceiptKey)
    requires ReceiptIsDurable(disk, key) && file.V2? && Load(file).Ok? && key in Load(file).value.receipts
    ensures ReceiptIsDurable(Written(disk, Live, Whole(file)), key)
  {
    hide Load;
    var next := Written(disk, Live, Whole(file));
    forall d | d in next.possible ensures HasReceipt(d, key) {
      if d !in disk.possible { assert LiveFile(d) == file; }
    }
  }

  /** Replaying the request of an applied migration whose result is on disk, after any number of later
      appends, writes, migration attempts and power failures, reports that it was applied and writes nothing. */
  lemma ReplayIsRecognised(
    q: Request, tag: Legacy -> nat, now: string, disk: Disk, ops: seq<Op>, later: string, fortunes: seq<Fortune>)
    requires q.confirm && Strip(q.confirmedBy) != "" && Strip(q.commandId) != "" && fortunes != []
    requires disk.dir in disk.possible && forall d :: d in disk.possible ==> MigratedBy(q, tag, now, d)
    ensures var replay := Apply(q, tag, later, Begin(AfterAll(disk, tag, ops)), fortunes);
            replay.outcome == AlreadyApplied && replay.disk == AfterAll(disk, tag, ops)
  {
    hide Load, Conflicts, AfterAll, Strip, MigratedBy, Sound, UniqueIds, Targets, MigratedRule;
    forall d | d in disk.possible ensures HasReceipt(d, KeyOf(q)) {
      MigrationIsFaithful(q, tag, now, d);
      MigratedIsV2(q, tag, now, d);
    }
    ReceiptStays(disk, tag, ops, KeyOf(q));
    var start := Begin(AfterAll(disk, tag, ops));
    assert HasReceipt(start.disk.dir, KeyOf(q));
    OverStays(q, tag, later, Step(q, tag, later, start, fortunes[0]), fortunes[1..]);
  }

  lemma MigratedIsV2(q: Request, tag: Legacy -> nat, now: string, dir: Dir)
    requires MigratedBy(q, tag, now, dir)
    ensures LiveFile(dir).V2?
  {
  }

  lemma {:induction false} OverStays(q: Request, tag: Legacy -> nat, now: string, p: Process, fortunes: seq<Fortune>)
    requires p.stage == Over
    ensures Apply(q, tag, now, p, fortunes) == p
    decreases |fortunes|
  {
    if fortunes != [] { OverStays(q, tag, now, Step(q, tag, now, p, fortunes[0]), fortunes[1..]); }
  }

  /** An apply that reports success did all of it; and if its directory syncs worked, on disk. */
  lemma AppliedMeansMigrated(q: Request, tag: Legacy -> nat, now: string, disk: Disk, fortunes: seq<Fortune>)
    requires LiveFile(disk.dir).V1?
    ensures var end := Apply(q, tag, now, Begin(disk), fortunes);
            end.outcome == Applied ==>
              && MigratedBy(q, tag, now, end.disk.dir)
              && ((forall i :: 0 <= i < |fortunes| ==> fortunes[i] != Unsynced) ==> end.disk.possible == {end.disk.dir})
  {
    ApplyIsSafe(q, tag, now, Begin(disk), fortunes, LiveFile(disk.dir).legacy);
    if forall i :: 0 <= i < |fortunes| ==> fortunes[i] != Unsynced { AppliedIsSynced(q, tag, now, Begin(disk), fortunes); }
  }

  lemma {:induction false} AppliedIsSynced(q: Request, tag: Legacy -> nat, now: string, p: Process, fortunes: seq<Fortune>)
    requires forall i :: 0 <= i < |fortunes| ==> fortunes[i] != Unsynced
    requires p.stage == Verifying || p.outcome == Applied ==> p.disk.possible == {p.disk.dir}
    ensures var end := Apply(q, tag, now, p, fortunes); end.outcome == Applied ==> end.disk.possible == {end.disk.dir}
    decreases |fortunes|
  {
    hide Verdict, Load, StoreFor;
    if fortunes != [] {
      VerdictIsNotApplied(q, LiveFile(p.disk.dir));
      AppliedIsSynced(q, tag, now, Step(q, tag, now, p, fortunes[0]), fortunes[1..]);
    }
  }

  lemma VerdictIsNotApplied(q: Request, file: File)
    ensures Verdict(q, file) != Some(Applied)
  {
  }
}
