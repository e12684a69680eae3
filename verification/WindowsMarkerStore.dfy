/** The recovery marker file on Windows: no lock, but file objects. Publish writes a temporary object and
    renames it without replacing; clear compares an opened object and marks that object for deletion; a
    marked object loses its name when its last handle closes. Any process may be killed at any point. */
module WindowsMarkerStore {
  import opened Results
  import opened RecoveryMarkers
  import opened MarkerRegister

  datatype Name = Fixed | Temporary(nonce: nat)

  datatype Content = Partial | Whole(marker: Marker)

  /** Who asked for a deletion: nobody, the creator of a failed temporary, or a clear of this marker. */
  datatype Deletion = Kept | Discarded | ClearedAs(expected: Marker)

  datatype FileObject = FileObject(content: Content, deletion: Deletion)

  datatype Job = Publish(marker: Marker, nonce: nat) | Clear(expected: Marker) | Load

  datatype Outcome = Succeeded | Failed | Value(marker: Option<Marker>)

  datatype Process =
    | Idle
    | Started(job: Job)
    | Preflighted(job: Job)
    | TemporaryCreated(job: Job, id: nat)
    | TemporaryWritten(job: Job, id: nat)
    | Discarding(job: Job, id: nat)
    | Renamed(job: Job, id: nat)
    | ReadingBack(job: Job)
    | Opened(job: Job, id: nat)
    | Compared(job: Job, id: nat)
    | Closing(job: Job, id: nat, outcome: Outcome)
    | Done(job: Job, outcome: Outcome)

  datatype State = State(dir: map<Name, nat>, objects: map<nat, FileObject>, nextId: nat, processes: seq<Process>, log: seq<Change>)

  datatype Move = Start(p: nat, job: Job) | Advance(p: nat, ok: bool) | Kill(p: nat)

  function Handle(process: Process): Option<nat> {
    match process
    case TemporaryCreated(_, id) => Some(id)
    case TemporaryWritten(_, id) => Some(id)
    case Discarding(_, id) => Some(id)
    case Renamed(_, id) => Some(id)
    case Opened(_, id) => Some(id)
    case Compared(_, id) => Some(id)
    case Closing(_, id, _) => Some(id)
    case _ => None
  }

  /** The object is still unnamed for everyone but its creator. */
  predicate Private(process: Process) { process.TemporaryCreated? || process.TemporaryWritten? || process.Discarding? }

  function Register(s: State): Option<Marker> {
    if Fixed in s.dir && s.dir[Fixed] in s.objects && s.objects[s.dir[Fixed]].content.Whole?
    then Some(s.objects[s.dir[Fixed]].content.marker) else None
  }

  function Launch(processes: nat): State { State(map[], map[], 0, seq(processes, i => Idle), []) }

  predicate HeldByOther(processes: seq<Process>, p: nat, id: nat) {
    exists q :: 0 <= q < |processes| && q != p && Handle(processes[q]) == Some(id)
  }

  /** Process `p` closes its handle and goes on as `process`; the last close of a marked object removes its name. */
  function Close(s: State, p: nat, process: Process): State
    requires p < |s.processes|
  {
    var moved := s.(processes := s.processes[p := process]);
    var id := Handle(s.processes[p]);
    if id.None? || id.value !in s.objects || s.objects[id.value].deletion.Kept? || HeldByOther(s.processes, p, id.value) then moved
    else
      var named := map name | name in s.dir && s.dir[name] != id.value :: s.dir[name];
      moved.(dir := named,
             log := if Fixed in s.dir && Fixed !in named && Register(s).Some? then s.log + [Removed(Register(s).value)] else s.log)
  }

  function Goto(s: State, p: nat, process: Process): State
    requires p < |s.processes|
  {
    s.(processes := s.processes[p := process])
  }

  /** Opening the fixed name; a marked object cannot be opened. */
  function OpenFixed(s: State, p: nat, job: Job, ok: bool, absent: Outcome): State
    requires p < |s.processes|
  {
    if !ok then Goto(s, p, Done(job, Failed))
    else if Fixed !in s.dir then Goto(s, p, Done(job, absent))
    else if s.dir[Fixed] !in s.objects || !s.objects[s.dir[Fixed]].deletion.Kept? then Goto(s, p, Done(job, Failed))
    else Goto(s, p, Opened(job, s.dir[Fixed]))
  }

  function Mark(s: State, id: nat, deletion: Deletion): State
    requires id in s.objects
  {
    s.(objects := s.objects[id := s.objects[id].(deletion := deletion)])
  }

  function Begin(s: State, p: nat, job: Job, ok: bool): State
    requires p < |s.processes|
  {
    match job
    case Publish(marker, _) =>
      if !ValidMarker(marker) || !ok then Goto(s, p, Done(job, Failed))
      else if Fixed !in s.dir then Goto(s, p, Preflighted(job))
      else if s.dir[Fixed] !in s.objects || !s.objects[s.dir[Fixed]].deletion.Kept? then Goto(s, p, Done(job, Failed))
      else Goto(s, p, Closing(job, s.dir[Fixed], Failed))
    case Clear(_) => OpenFixed(s, p, job, ok, Failed)
    case Load => OpenFixed(s, p, job, ok, Value(None))
  }

  function Create(s: State, p: nat, job: Job): State
    requires p < |s.processes| && job.Publish?
  {
    Goto(s.(dir := s.dir[Temporary(job.nonce) := s.nextId], objects := s.objects[s.nextId := FileObject(Partial, Kept)],
            nextId := s.nextId + 1), p, TemporaryCreated(job, s.nextId))
  }

  function Rename(s: State, p: nat, job: Job, id: nat): State
    requires p < |s.processes| && job.Publish?
  {
    Goto(s.(dir := (s.dir - {Temporary(job.nonce)})[Fixed := id], log := s.log + [Created(job.marker)]), p, Renamed(job, id))
  }

  /** Reading the opened object and comparing it. */
  function Read(s: State, p: nat, job: Job, id: nat, ok: bool): State
    requires p < |s.processes|
  {
    if !ok || id !in s.objects || !s.objects[id].content.Whole? then Goto(s, p, Closing(job, id, Failed))
    else
      var found := s.objects[id].content.marker;
      match job
      case Publish(marker, _) => Goto(s, p, Closing(job, id, if found == marker then Succeeded else Failed))
      case Clear(expected) => Goto(s, p, if found == expected then Compared(job, id) else Closing(job, id, Failed))
      case Load => Goto(s, p, Closing(job, id, Value(Some(found))))
  }

  function Proceed(s: State, p: nat, ok: bool): State
    requires p < |s.processes|
  {
    match s.processes[p]
    case Idle => s
    case Started(job) => Begin(s, p, job, ok)
    case Preflighted(job) =>
      if ok && job.Publish? && Temporary(job.nonce) !in s.dir then Create(s, p, job) else Goto(s, p, Done(job, Failed))
    case TemporaryCreated(job, id) =>
      if ok && job.Publish? && id in s.objects
      then Goto(s.(objects := s.objects[id := FileObject(Whole(job.marker), Kept)]), p, TemporaryWritten(job, id))
      else Goto(s, p, Discarding(job, id))
    case TemporaryWritten(job, id) =>
      if ok && job.Publish? && Fixed !in s.dir then Rename(s, p, job, id) else Goto(s, p, Discarding(job, id))
    case Discarding(job, id) =>
      if ok && id in s.objects then Close(Mark(s, id, Discarded), p, Done(job, Failed)) else Close(s, p, Done(job, Failed))
    case Renamed(job, _) => Close(s, p, if ok then ReadingBack(job) else Done(job, Failed))
    case ReadingBack(job) => OpenFixed(s, p, job, ok, Failed)
    case Opened(job, id) => Read(s, p, job, id, ok)
    case Compared(job, id) =>
      if ok && job.Clear? && id in s.objects then Goto(Mark(s, id, ClearedAs(job.expected)), p, Closing(job, id, Succeeded))
      else Goto(s, p, Closing(job, id, Failed))
    case Closing(job, _, outcome) => Close(s, p, Done(job, if ok then outcome else Failed))
    case Done(_, _) => Goto(s, p, Idle)
  }

  function Step(s: State, move: Move): State {
    match move
    case Start(p, job) => if p < |s.processes| && s.processes[p].Idle? then Goto(s, p, Started(job)) else s
    case Advance(p, ok) => if p < |s.processes| then Proceed(s, p, ok) else s
    case Kill(p) => if p < |s.processes| then Close(s, p, Idle) else s
  }

  function Run(s: State, moves: seq<Move>): State
    decreases |moves|
  {
    if moves == [] then s else Run(Step(s, moves[0]), moves[1..])
  }

  // ---------------------------------------------------------------- invariant

  /** What may be said of one object, given the name it goes by. */
  predicate ObjectKept(file: FileObject) {
    file.deletion.ClearedAs? ==> file.content == Whole(file.deletion.expected)
  }

  predicate ProcessKept(objects: map<nat, FileObject>, process: Process) {
    match process
    case Preflighted(job) => job.Publish? && ValidMarker(job.marker)
    case TemporaryCreated(job, id) => job.Publish? && ValidMarker(job.marker) && id in objects && objects[id] == FileObject(Partial, Kept)
    case TemporaryWritten(job, id) => job.Publish? && ValidMarker(job.marker) && id in objects && objects[id] == FileObject(Whole(job.marker), Kept)
    case Discarding(job, id) => job.Publish? && id in objects && objects[id].deletion.Kept?
    case Renamed(job, id) => job.Publish? && id in objects && objects[id].content.Whole? && !objects[id].deletion.Discarded?
    case ReadingBack(job) => job.Publish?
    case Opened(job, id) => id in objects && objects[id].content.Whole? && !objects[id].deletion.Discarded?
    case Compared(job, id) =>
      job.Clear? && id in objects && objects[id].content == Whole(job.expected) && !objects[id].deletion.Discarded?
    case Closing(job, id, outcome) =>
      && id in objects && objects[id].content.Whole? && !objects[id].deletion.Discarded?
      && (job.Clear? && outcome == Succeeded ==> objects[id].deletion == ClearedAs(job.expected))
      && (job.Publish? && outcome == Succeeded ==> objects[id].content == Whole(job.marker))
    case _ => true
  }

  ghost predicate FilesKept(s: State) {
    && (forall id :: id in s.objects ==> id < s.nextId && ObjectKept(s.objects[id]))
    && (forall name :: name in s.dir ==> s.dir[name] in s.objects)
    && (Fixed in s.dir ==>
          && s.objects[s.dir[Fixed]].content.Whole? && ValidMarker(s.objects[s.dir[Fixed]].content.marker)
          && !s.objects[s.dir[Fixed]].deletion.Discarded?)
    && Replay(None, s.log) == Some(Register(s))
  }

  ghost predicate AllKept(s: State) { forall p :: 0 <= p < |s.processes| ==> ProcessKept(s.objects, s.processes[p]) }

  /** Nobody else has a handle on a private object, and it does not go by the fixed name. */
  ghost predicate PrivateKept(s: State, p: nat)
    requires p < |s.processes|
  {
    var id := Handle(s.processes[p]);
    id.Some? ==> !HeldByOther(s.processes, p, id.value) && (Fixed in s.dir ==> s.dir[Fixed] != id.value)
  }

  ghost predicate AllPrivate(s: State) {
    forall p :: 0 <= p < |s.processes| && Private(s.processes[p]) ==> PrivateKept(s, p)
  }

  ghost predicate Held(s: State, id: nat) { exists q :: 0 <= q < |s.processes| && Handle(s.processes[q]) == Some(id) }

  /** A marked object that still has the fixed name is open somewhere, so its name will go. */
  ghost predicate MarkedIsHeld(s: State) {
    Fixed in s.dir && s.dir[Fixed] in s.objects && s.objects[s.dir[Fixed]].deletion.ClearedAs? ==> Held(s, s.dir[Fixed])
  }

  ghost predicate Inv(s: State) { FilesKept(s) && AllKept(s) && AllPrivate(s) && MarkedIsHeld(s) }

  /** What one step did to the register: nothing; a creation by the publisher of that marker, who found it
      absent; or the removal of an object that a clear had compared with this very marker. */
  ghost predicate Refines(s: State, move: Move, next: State) {
    if next.log == s.log then Register(next) == Register(s)
    else
      || (&& move.Advance? && move.p < |s.processes| && s.processes[move.p].TemporaryWritten? && s.processes[move.p].job.Publish?
          && Register(s) == None && Register(next) == Some(s.processes[move.p].job.marker)
          && next.log == s.log + [Created(s.processes[move.p].job.marker)])
      || (&& Fixed in s.dir && s.dir[Fixed] in s.objects && s.objects[s.dir[Fixed]].deletion.ClearedAs?
          && var expected := s.objects[s.dir[Fixed]].deletion.expected;
             Register(s) == Some(expected) && Register(next) == None && next.log == s.log + [Removed(expected)])
  }

  // ---------------------------------------------------------------- one step

  predicate HandleFrom(s: State, p: nat, handle: Option<nat>)
    requires p < |s.processes|
  {
    || handle == None || handle == Handle(s.processes[p]) || handle == Some(s.nextId)
    || (Fixed in s.dir && handle == Some(s.dir[Fixed]))
  }

  /** The private objects of the others stay private. */
  lemma PrivacyKept(s: State, p: nat, next: State)
    requires Inv(s) && p < |s.processes| && |next.processes| == |s.processes| && next.processes == s.processes[p := next.processes[p]]
    requires HandleFrom(s, p, Handle(next.processes[p]))
    requires Fixed in next.dir ==>
               || (Fixed in s.dir && next.dir[Fixed] == s.dir[Fixed])
               || (Private(s.processes[p]) && Handle(s.processes[p]) == Some(next.dir[Fixed]))
    requires Private(next.processes[p]) ==> PrivateKept(next, p)
    ensures AllPrivate(next)
  {
    forall q | 0 <= q < |next.processes| && Private(next.processes[q]) ensures PrivateKept(next, q) {
      if q != p {
        assert next.processes[q] == s.processes[q] && PrivateKept(s, q) && ProcessKept(s.objects, s.processes[q]);
        var id := Handle(s.processes[q]).value;
        assert id in s.objects;
        assert Handle(s.processes[p]) != Some(id);
        forall r | 0 <= r < |next.processes| && r != q ensures Handle(next.processes[r]) != Some(id) {
          assert r != p ==> next.processes[r] == s.processes[r];
        }
      }
    }
  }

  /** Objects keep what the others rely on: an object only its owner holds may change freely, any other
      object may only become marked by a clear that compared it. */
  lemma OthersKept(s: State, p: nat, next: State)
    requires Inv(s) && p < |s.processes| && |next.processes| == |s.processes| && next.processes == s.processes[p := next.processes[p]]
    requires forall id :: id in s.objects ==>
               && id in next.objects
               && (|| next.objects[id] == s.objects[id]
                   || (Handle(s.processes[p]) == Some(id) && Private(s.processes[p]))
                   || (s.processes[p].Compared? && s.processes[p].job.Clear? && Handle(s.processes[p]) == Some(id)
                       && next.objects[id] == FileObject(s.objects[id].content, ClearedAs(s.processes[p].job.expected))))
    requires ProcessKept(next.objects, next.processes[p])
    ensures AllKept(next)
  {
    forall q | 0 <= q < |next.processes| ensures ProcessKept(next.objects, next.processes[q]) {
      if q != p {
        assert next.processes[q] == s.processes[q] && ProcessKept(s.objects, s.processes[q]) && ProcessKept(s.objects, s.processes[p]);
        var id := Handle(s.processes[q]);
        if id.Some? && Handle(s.processes[p]) == id {
          assert HeldByOther(s.processes, p, id.value) && HeldByOther(s.processes, q, id.value);
          assert !Private(s.processes[p]) && !Private(s.processes[q]);
          assert ObjectKept(s.objects[id.value]);
        }
      }
    }
  }

  lemma HeldKept(s: State, p: nat, next: State, id: nat)
    requires Held(s, id) && p < |s.processes| && |next.processes| == |s.processes| && next.processes == s.processes[p := next.processes[p]]
    requires Handle(s.processes[p]) == Some(id) ==> Handle(next.processes[p]) == Some(id)
    ensures Held(next, id)
  {
    var q :| 0 <= q < |s.processes| && Handle(s.processes[q]) == Some(id);
    assert Handle(next.processes[q]) == Some(id);
  }

  /** Steps that touch neither names nor objects nor the log. */
  lemma QuietStep(s: State, p: nat, process: Process)
    requires Inv(s) && p < |s.processes| && ProcessKept(s.objects, process) && HandleFrom(s, p, Handle(process))
    requires Private(process) ==> Private(s.processes[p]) && Handle(process) == Handle(s.processes[p])
    requires Handle(s.processes[p]).Some? ==> Handle(process) == Handle(s.processes[p])
    ensures Inv(Goto(s, p, process)) && forall move :: Refines(s, move, Goto(s, p, process))
  {
    hide Replay, ValidMarker, ProcessKept, Private, Handle;
    var next := Goto(s, p, process);
    assert forall r :: 0 <= r < |s.processes| && r != p ==> next.processes[r] == s.processes[r];
    if Private(process) { assert PrivateKept(s, p); }
    if Fixed in s.dir && s.objects[s.dir[Fixed]].deletion.ClearedAs? { HeldKept(s, p, next, s.dir[Fixed]); }
    PrivacyKept(s, p, next);
    OthersKept(s, p, next);
  }

  lemma StillHeld(s: State, p: nat, next: State, id: nat)
    requires p < |s.processes| && |next.processes| == |s.processes| && next.processes == s.processes[p := next.processes[p]]
    requires Handle(s.processes[p]) == Some(id) ==> HeldByOther(s.processes, p, id)
    requires Held(s, id)
    ensures Held(next, id)
  {
    var q :| 0 <= q < |s.processes| && Handle(s.processes[q]) == Some(id) && q != p;
    assert Handle(next.processes[q]) == Some(id);
  }

  lemma CloseKept(s: State, p: nat, process: Process)
    requires Inv(s) && p < |s.processes| && ProcessKept(s.objects, process) && Handle(process) == None
    requires ProcessKept(s.objects, process)
    ensures Inv(Close(s, p, process)) && forall move :: Refines(s, move, Close(s, p, process))
  {
    hide Replay, ValidMarker, ProcessKept;
    var next := Close(s, p, process);
    assert ProcessKept(s.objects, s.processes[p]);
    ReplayGrows(None, s.log);
    if Fixed in s.dir { assert ObjectKept(s.objects[s.dir[Fixed]]); }
    if Fixed in next.dir && s.objects[s.dir[Fixed]].deletion.ClearedAs? { StillHeld(s, p, next, s.dir[Fixed]); }
    PrivacyKept(s, p, next);
    OthersKept(s, p, next);
  }

  lemma CreateKept(s: State, p: nat, job: Job)
    requires Inv(s) && p < |s.processes| && s.processes[p] == Preflighted(job) && job.Publish? && Temporary(job.nonce) !in s.dir
    ensures Inv(Create(s, p, job)) && Refines(s, Advance(p, true), Create(s, p, job))
  {
    hide Replay, ValidMarker;
    var next := Create(s, p, job);
    assert ProcessKept(s.objects, s.processes[p]);
    forall r | 0 <= r < |next.processes| && r != p ensures Handle(next.processes[r]) != Some(s.nextId) {
      assert ProcessKept(s.objects, s.processes[r]);
      assert next.processes[r] == s.processes[r];
    }
    if Fixed in s.dir && s.objects[s.dir[Fixed]].deletion.ClearedAs? { HeldKept(s, p, next, s.dir[Fixed]); }
    PrivacyKept(s, p, next);
    OthersKept(s, p, next);
  }

  lemma WriteKept(s: State, p: nat)
    requires Inv(s) && p < |s.processes| && s.processes[p].TemporaryCreated?
    ensures Inv(Proceed(s, p, true)) && Refines(s, Advance(p, true), Proceed(s, p, true))
  {
    hide Replay, ValidMarker;
    var next := Proceed(s, p, true);
    assert ProcessKept(s.objects, s.processes[p]) && PrivateKept(s, p);
    assert forall r :: 0 <= r < |s.processes| && r != p ==> next.processes[r] == s.processes[r];
    if Fixed in s.dir && s.objects[s.dir[Fixed]].deletion.ClearedAs? { HeldKept(s, p, next, s.dir[Fixed]); }
    PrivacyKept(s, p, next);
    OthersKept(s, p, next);
  }

  lemma RenameKept(s: State, p: nat, job: Job, id: nat)
    requires Inv(s) && p < |s.processes| && s.processes[p] == TemporaryWritten(job, id) && job.Publish? && Fixed !in s.dir
    ensures Inv(Rename(s, p, job, id)) && Refines(s, Advance(p, true), Rename(s, p, job, id))
  {
    hide Replay, ValidMarker;
    var next := Rename(s, p, job, id);
    assert ProcessKept(s.objects, s.processes[p]) && PrivateKept(s, p);
    ReplayGrows(None, s.log);
    PrivacyKept(s, p, next);
    OthersKept(s, p, next);
  }

  lemma DiscardKept(s: State, p: nat)
    requires Inv(s) && p < |s.processes| && s.processes[p].Discarding?
    ensures Inv(Proceed(s, p, true)) && Refines(s, Advance(p, true), Proceed(s, p, true))
  {
    hide Replay, ValidMarker;
    var next := Proceed(s, p, true);
    assert ProcessKept(s.objects, s.processes[p]) && PrivateKept(s, p);
    if Fixed in s.dir && s.objects[s.dir[Fixed]].deletion.ClearedAs? { HeldKept(s, p, next, s.dir[Fixed]); }
    PrivacyKept(s, p, next);
    OthersKept(s, p, next);
  }

  lemma MarkKept(s: State, p: nat, job: Job, id: nat)
    requires Inv(s) && p < |s.processes| && s.processes[p] == Compared(job, id)
    ensures Inv(Proceed(s, p, true)) && Refines(s, Advance(p, true), Proceed(s, p, true))
  {
    hide Replay, ValidMarker;
    var next := Proceed(s, p, true);
    assert ProcessKept(s.objects, s.processes[p]);
    assert Handle(next.processes[p]) == Some(id);
    if Fixed in s.dir && s.objects[s.dir[Fixed]].deletion.ClearedAs? { HeldKept(s, p, next, s.dir[Fixed]); }
    PrivacyKept(s, p, next);
    OthersKept(s, p, next);
  }

  /** One action of one process. */
  lemma ProceedKeepsInv(s: State, p: nat, ok: bool)
    requires Inv(s) && p < |s.processes|
    ensures Inv(Proceed(s, p, ok)) && Refines(s, Advance(p, ok), Proceed(s, p, ok))
  {
    hide FilesKept, AllPrivate, MarkedIsHeld, Refines, Inv, Close, Create, Rename, Mark, ValidMarker;
    InvParts(s, p);
    var next := Proceed(s, p, ok);
    match s.processes[p]
    case Idle =>
      assert s.processes[p := Idle] == s.processes;
      QuietStep(s, p, Idle);
    case Started(job) => QuietStep(s, p, next.processes[p]);
    case Preflighted(job) =>
      if ok && Temporary(job.nonce) !in s.dir { CreateKept(s, p, job); } else { QuietStep(s, p, Done(job, Failed)); }
    case TemporaryCreated(job, id) => if ok { WriteKept(s, p); } else { QuietStep(s, p, Discarding(job, id)); }
    case TemporaryWritten(job, id) =>
      if ok && Fixed !in s.dir { RenameKept(s, p, job, id); } else { QuietStep(s, p, Discarding(job, id)); }
    case Discarding(job, id) => if ok { DiscardKept(s, p); } else { CloseKept(s, p, Done(job, Failed)); }
    case Renamed(job, _) => CloseKept(s, p, if ok then ReadingBack(job) else Done(job, Failed));
    case ReadingBack(job) => QuietStep(s, p, next.processes[p]);
    case Opened(job, id) => QuietStep(s, p, next.processes[p]);
    case Compared(job, id) => if ok { MarkKept(s, p, job, id); } else { QuietStep(s, p, Closing(job, id, Failed)); }
    case Closing(job, _, outcome) => CloseKept(s, p, Done(job, if ok then outcome else Failed));
    case Done(_, _) => QuietStep(s, p, Idle);
  }

  lemma InvParts(s: State, p: nat)
    requires Inv(s) && p < |s.processes|
    ensures ProcessKept(s.objects, s.processes[p])
    ensures Fixed in s.dir ==> s.dir[Fixed] in s.objects && s.objects[s.dir[Fixed]].content.Whole?
                               && !s.objects[s.dir[Fixed]].deletion.Discarded?
  {
  }

  lemma StepKeepsInv(s: State, move: Move)
    requires Inv(s)
    ensures Inv(Step(s, move)) && Refines(s, move, Step(s, move))
  {
    hide Proceed, Close, FilesKept, AllPrivate, MarkedIsHeld, AllKept;
    match move
    case Advance(p, ok) => if p < |s.processes| { ProceedKeepsInv(s, p, ok); }
    case Start(p, job) => if p < |s.processes| && s.processes[p].Idle? { QuietStep(s, p, Started(job)); }
    case Kill(p) => if p < |s.processes| { CloseKept(s, p, Idle); }
  }

  // ---------------------------------------------------------------- whole runs

  lemma {:induction false} RunKeepsInv(s: State, moves: seq<Move>)
    requires Inv(s)
    ensures Inv(Run(s, moves))
    decreases |moves|
  {
    if moves != [] {
      StepKeepsInv(s, moves[0]);
      RunKeepsInv(Step(s, moves[0]), moves[1..]);
    }
  }

  lemma LaunchInv(processes: nat)
    ensures Inv(Launch(processes))
  {
  }

  /** For any interleaving and any kills: the fixed name is absent or holds one complete valid marker; its
      value is the result of creations that found it absent and removals of the marker found; the next step
      changes it only by a creation for a publish that found it absent, or by removing an object that a
      clear compared with this very marker and marked. */
  lemma RefinesRegister(processes: nat, moves: seq<Move>, move: Move)
    ensures var s := Run(Launch(processes), moves);
            && (Fixed in s.dir ==> Register(s).Some? && ValidMarker(Register(s).value))
            && Replay(None, s.log) == Some(Register(s))
            && Refines(s, move, Step(s, move))
  {
    LaunchInv(processes);
    RunKeepsInv(Launch(processes), moves);
    StepKeepsInv(Run(Launch(processes), moves), move);
  }

  /** A clear that reports success at its last step has marked an object holding the expected marker; a
      marked object is gone once nobody has it open, so it cannot linger under the fixed name. */
  lemma ClearedIsGone(processes: nat, moves: seq<Move>)
    ensures var s := Run(Launch(processes), moves);
            && (forall p, job, id :: 0 <= p < |s.processes| && s.processes[p] == Closing(job, id, Succeeded) && job.Clear? ==>
                  id in s.objects && s.objects[id] == FileObject(Whole(job.expected), ClearedAs(job.expected)))
            && ((forall p :: 0 <= p < |s.processes| ==> Handle(s.processes[p]) == None) && Fixed in s.dir ==>
                  s.dir[Fixed] in s.objects && s.objects[s.dir[Fixed]].deletion.Kept?)
  {
    LaunchInv(processes);
    RunKeepsInv(Launch(processes), moves);
    var s := Run(Launch(processes), moves);
    forall p, job, id | 0 <= p < |s.processes| && s.processes[p] == Closing(job, id, Succeeded) && job.Clear?
      ensures id in s.objects && s.objects[id] == FileObject(Whole(job.expected), ClearedAs(job.expected)) {
      assert ProcessKept(s.objects, s.processes[p]) && ObjectKept(s.objects[id]);
    }
  }

  /** A publish that reports success at its last step has read its own marker back. */
  lemma PublishedIsReadBack(processes: nat, moves: seq<Move>, p: nat, job: Job, id: nat)
    ensures var s := Run(Launch(processes), moves);
            p < |s.processes| && s.processes[p] == Closing(job, id, Succeeded) && job.Publish? ==>
              id in s.objects && s.objects[id].content == Whole(job.marker)
  {
    LaunchInv(processes);
    RunKeepsInv(Launch(processes), moves);
    var s := Run(Launch(processes), moves);
    if p < |s.processes| { assert ProcessKept(s.objects, s.processes[p]); }
  }

  // ---------------------------------------------------------------- what a load returns

  lemma {:induction false} RunLast(s: State, moves: seq<Move>, n: nat)
    requires n < |moves|
    ensures Run(s, moves[..n + 1]) == Step(Run(s, moves[..n]), moves[n])
    decreases n
  {
    hide Step;
    if n == 0 {
      assert moves[..1] == [moves[0]] && moves[..0] == [] && [moves[0]][1..] == [];
    } else {
      RunLast(Step(s, moves[0]), moves[1..], n - 1);
      assert moves[..n + 1][1..] == moves[1..][..n] && moves[..n][1..] == moves[1..][..n - 1];
      assert moves[1..][n - 1] == moves[n];
    }
  }

  /** After `j` moves process `p` was about to open the fixed name for a load, the register held `value`, and
      the same call of `p` goes on until after `n` moves. */
  ghost predicate ReadSince(s: State, moves: seq<Move>, n: nat, p: nat, j: nat, value: Option<Marker>) {
    && j < n <= |moves| && p < |Run(s, moves[..j]).processes|
    && Run(s, moves[..j]).processes[p] == Started(Load) && Register(Run(s, moves[..j])) == value
    && forall i :: j < i <= n ==> p < |Run(s, moves[..i]).processes| && !Run(s, moves[..i]).processes[p].Idle?
  }

  /** What the opened object of a load, or its result, stands for. */
  function Seen(s: State, process: Process): Option<Option<Marker>> {
    match process
    case Opened(job, id) => if job.Load? && id in s.objects && s.objects[id].content.Whole? then Some(Some(s.objects[id].content.marker)) else None
    case Closing(_, _, Value(v)) => Some(v)
    case Done(_, Value(v)) => Some(v)
    case _ => None
  }

  function Mover(move: Move): nat { match move case Start(q, _) => q case Advance(q, _) => q case Kill(q) => q }

  lemma CloseShape(s: State, p: nat, process: Process)
    requires p < |s.processes|
    ensures Close(s, p, process).processes == s.processes[p := process] && Close(s, p, process).objects == s.objects
  {
  }

  /** One move keeps what a process has seen, or it is the move that opens the fixed name for a load. */
  predicate SeenStays(s: State, next: State, p: nat)
    requires p < |s.processes| == |next.processes|
  {
    var seen := Seen(next, next.processes[p]);
    seen.Some? ==>
      && !next.processes[p].Idle? && !s.processes[p].Idle?
      && (Seen(s, s.processes[p]) == seen || (s.processes[p] == Started(Load) && seen.value == Register(s)))
  }

  lemma MoveKeepsSeen(s: State, move: Move, p: nat)
    requires Inv(s) && p < |s.processes| == |Step(s, move).processes|
    ensures SeenStays(s, Step(s, move), p)
  {
    hide FilesKept, AllPrivate, MarkedIsHeld, SeenStays, Step;
    InvParts(s, p);
    if p != Mover(move) { SeenByOther(s, move, p); } else { SeenByMover(s, move, p); }
  }

  lemma SeenByOther(s: State, move: Move, p: nat)
    requires Inv(s) && p < |s.processes| == |Step(s, move).processes| && p != Mover(move)
    ensures SeenStays(s, Step(s, move), p)
  {
    hide FilesKept, MarkedIsHeld, Step, Seen, Register;
    OtherIsUntouched(s, move, p);
    SeenInObjects(s, Step(s, move), s.processes[p]);
  }

  lemma SeenInObjects(s: State, next: State, process: Process)
    requires ProcessKept(s.objects, process)
    requires forall id :: id in s.objects && Handle(process) == Some(id) && !Private(process) ==>
               id in next.objects && next.objects[id].content == s.objects[id].content
    ensures Seen(next, process) == Seen(s, process) && (process.Idle? ==> Seen(s, process) == None)
  {
  }

  lemma OtherIsUntouched(s: State, move: Move, p: nat)
    requires Inv(s) && p < |s.processes| && p != Mover(move)
    ensures var next := Step(s, move);
            && |next.processes| == |s.processes| && next.processes[p] == s.processes[p] && ProcessKept(s.objects, s.processes[p])
            && forall id :: id in s.objects && Handle(s.processes[p]) == Some(id) ==>
                 id in next.objects && next.objects[id].content == s.objects[id].content
  {
    hide Replay, ValidMarker, MarkedIsHeld, Close, HeldByOther;
    assert ProcessKept(s.objects, s.processes[p]);
    var m := Mover(move);
    if m < |s.processes| {
      assert ProcessKept(s.objects, s.processes[m]);
      forall state: State, process | m < |state.processes|
        ensures Close(state, m, process).processes == state.processes[m := process] && Close(state, m, process).objects == state.objects {
        CloseShape(state, m, process);
      }
      if Private(s.processes[m]) { NotTheirs(s, m, p); }
    }
  }

  lemma NotTheirs(s: State, m: nat, p: nat)
    requires Inv(s) && m < |s.processes| && p < |s.processes| && m != p && Private(s.processes[m])
    ensures Handle(s.processes[m]).Some? ==> Handle(s.processes[p]) != Handle(s.processes[m])
  {
    hide FilesKept, AllKept, MarkedIsHeld;
    assert PrivateKept(s, m);
  }

  lemma SeenByMover(s: State, move: Move, p: nat)
    requires p < |s.processes| == |Step(s, move).processes| && p == Mover(move)
    requires ProcessKept(s.objects, s.processes[p])
    requires Fixed in s.dir ==> s.dir[Fixed] in s.objects && s.objects[s.dir[Fixed]].content.Whole?
    ensures SeenStays(s, Step(s, move), p)
  {
    hide ValidMarker, Close, Create, Rename;
    forall state: State, process | p < |state.processes|
      ensures Close(state, p, process).processes == state.processes[p := process] && Close(state, p, process).objects == state.objects {
      CloseShape(state, p, process);
    }
    if move.Advance? && (s.processes[p].Preflighted? || Private(s.processes[p])) { PublisherSeesNothing(s, p, move.ok); }
  }

  lemma PublisherSeesNothing(s: State, p: nat, ok: bool)
    requires p < |s.processes| && ProcessKept(s.objects, s.processes[p]) && (s.processes[p].Preflighted? || Private(s.processes[p]))
    ensures var next := Proceed(s, p, ok); p < |next.processes| && Seen(next, next.processes[p]) == None
  {
    hide ValidMarker, HeldByOther;
  }

  lemma {:induction false} SeenSince(s: State, moves: seq<Move>, n: nat, p: nat) returns (j: nat)
    requires Inv(s) && n <= |moves| && p < |s.processes| && s.processes[p].Idle?
    requires p < |Run(s, moves[..n]).processes| && Seen(Run(s, moves[..n]), Run(s, moves[..n]).processes[p]).Some?
    ensures ReadSince(s, moves, n, p, j, Seen(Run(s, moves[..n]), Run(s, moves[..n]).processes[p]).value)
    decreases n
  {
    hide Step, Inv, Seen, Register;
    NothingSeen(s, p);
    assert moves[..0] == [];
    var before, after := Run(s, moves[..n - 1]), Run(s, moves[..n]);
    RunLast(s, moves, n - 1);
    RunKeepsInv(s, moves[..n - 1]);
    SameProcesses(s, moves[..n - 1]);
    SameProcesses(s, moves[..n]);
    MoveKeepsSeen(before, moves[n - 1], p);
    if Seen(before, before.processes[p]) == Seen(after, after.processes[p]) {
      j := SeenSince(s, moves, n - 1, p);
    } else {
      j := n - 1;
    }
  }

  lemma NothingSeen(s: State, p: nat)
    requires p < |s.processes| && s.processes[p].Idle?
    ensures Seen(s, s.processes[p]) == None
  {
  }

  /** What a load returns is what the register held at a moment within the call: when it opened the fixed
      name, or found none to open. */
  lemma LoadIsRegister(processes: nat, moves: seq<Move>, p: nat)
    ensures var s := Run(Launch(processes), moves);
            p < |s.processes| && s.processes[p].Done? && s.processes[p].outcome.Value? ==>
              exists j :: ReadSince(Launch(processes), moves, |moves|, p, j, s.processes[p].outcome.marker)
  {
    hide Step, Inv;
    LaunchInv(processes);
    SameProcesses(Launch(processes), moves);
    var s := Run(Launch(processes), moves);
    assert moves[..|moves|] == moves;
    if p < |s.processes| && s.processes[p].Done? && s.processes[p].outcome.Value? {
      var j := SeenSince(Launch(processes), moves, |moves|, p);
    }
  }

  lemma {:induction false} SameProcesses(s: State, moves: seq<Move>)
    ensures |Run(s, moves).processes| == |s.processes|
    decreases |moves|
  {
    if moves != [] { SameProcesses(Step(s, moves[0]), moves[1..]); }
  }

  // ---------------------------------------------------------------- one job by itself

  /** `k` actions of one process, all of which work. */
  function Calls(s: State, p: nat, k: nat): State
    decreases k
  {
    if k == 0 then s else Calls(Step(s, Advance(p, true)), p, k - 1)
  }

  /** What a job does to a register by itself, and what it reports. */
  function Answer(register: Option<Marker>, job: Job): (Option<Marker>, Outcome) {
    match job
    case Publish(marker, _) => if register == None && ValidMarker(marker) then (Some(marker), Succeeded) else (register, Failed)
    case Clear(expected) => if register == Some(expected) then (None, Succeeded) else (register, Failed)
    case Load => (register, Value(register))
  }

  predicate NobodyElseHolds(s: State, p: nat) { forall q :: 0 <= q < |s.processes| && q != p ==> Handle(s.processes[q]) == None }

  predicate Ends(end: State, p: nat, register: Option<Marker>, outcome: Outcome, job: Job) {
    p < |end.processes| && end.processes[p] == Done(job, outcome) && Register(end) == register
  }

  /** From any reachable state in which nobody else has an object open, a job whose actions all work and that is
      not killed does to the register exactly what it should, and reports it. */
  lemma JobIsAtomic(s: State, p: nat, job: Job) returns (k: nat)
    requires Inv(s) && p < |s.processes| && s.processes[p] == Started(job) && NobodyElseHolds(s, p)
    requires job.Publish? ==> Temporary(job.nonce) !in s.dir
    ensures Ends(Calls(s, p, k), p, Answer(Register(s), job).0, Answer(Register(s), job).1, job)
  {
    hide ValidMarker, Replay;
    NothingMarked(s, p);
    match job {
      case Load => k := ReadAlone(s, p, job);
      case Clear(expected) => k := ReadAlone(s, p, job);
      case Publish(marker, nonce) =>
        if ValidMarker(marker) && Register(s) == None { k := 8; PublishAlone(s, p, job); } else { k := RefusedAlone(s, p, job); }
    }
  }

  lemma NothingMarked(s: State, p: nat)
    requires Inv(s) && p < |s.processes| && s.processes[p].Started? && NobodyElseHolds(s, p)
    ensures Fixed in s.dir <==> Register(s).Some?
    ensures Fixed in s.dir ==> s.objects[s.dir[Fixed]].deletion.Kept? && !HeldByOther(s.processes, p, s.dir[Fixed])
  {
    hide ValidMarker, Replay;
    assert forall q :: 0 <= q < |s.processes| ==> Handle(s.processes[q]) == None;
  }

  lemma ReadAlone(s: State, p: nat, job: Job) returns (k: nat)
    requires p < |s.processes| && s.processes[p] == Started(job) && NobodyElseHolds(s, p) && !job.Publish?
    requires Fixed in s.dir <==> Register(s).Some?
    requires Fixed in s.dir ==> s.objects[s.dir[Fixed]].deletion.Kept?
    ensures Ends(Calls(s, p, k), p, Answer(Register(s), job).0, Answer(Register(s), job).1, job)
  {
    var a := Step(s, Advance(p, true));
    if Fixed !in s.dir {
      k := 1;
      assert Calls(s, p, 1) == Calls(a, p, 0);
    } else {
      var b := Step(a, Advance(p, true));
      var c := Step(b, Advance(p, true));
      if job.Clear? && Register(s) == Some(job.expected) {
        k := 4;
        var d := Step(c, Advance(p, true));
        assert !HeldByOther(c.processes, p, s.dir[Fixed]);
        assert Calls(s, p, 4) == Calls(a, p, 3) == Calls(b, p, 2) == Calls(c, p, 1) == Calls(d, p, 0);
      } else {
        k := 3;
        assert Calls(s, p, 3) == Calls(a, p, 2) == Calls(b, p, 1) == Calls(c, p, 0);
      }
    }
  }

  lemma RefusedAlone(s: State, p: nat, job: Job) returns (k: nat)
    requires p < |s.processes| && s.processes[p] == Started(job) && job.Publish?
    requires (Fixed in s.dir <==> Register(s).Some?) && (Fixed in s.dir ==> s.objects[s.dir[Fixed]].deletion.Kept?)
    requires !ValidMarker(job.marker) || Register(s).Some?
    ensures Ends(Calls(s, p, k), p, Register(s), Failed, job)
  {
    hide ValidMarker;
    var a := Step(s, Advance(p, true));
    if !ValidMarker(job.marker) {
      k := 1;
      assert Calls(s, p, 1) == Calls(a, p, 0);
    } else {
      k := 2;
      var b := Step(a, Advance(p, true));
      assert Calls(s, p, 2) == Calls(a, p, 1) == Calls(b, p, 0);
    }
  }

  lemma PublishAlone(s: State, p: nat, job: Job)
    requires Inv(s) && p < |s.processes| && s.processes[p] == Started(job) && NobodyElseHolds(s, p) && job.Publish?
    requires Fixed !in s.dir && ValidMarker(job.marker) && Temporary(job.nonce) !in s.dir
    ensures Ends(Calls(s, p, 8), p, Some(job.marker), Succeeded, job)
  {
    hide ValidMarker, Replay;
    var a := Step(s, Advance(p, true));
    var b := Step(a, Advance(p, true));
    var c := Step(b, Advance(p, true));
    var d := Step(c, Advance(p, true));
    TemporaryAlone(s, p, job);
    hide Inv;
    assert d.processes == s.processes[p := Renamed(job, s.nextId)] && d.objects == c.objects && d.dir[Fixed] == s.nextId;
    ReadBackAlone(d, p, job, s.nextId);
    FourMoreCalls(s, p, 4);
  }

  lemma FourMoreCalls(s: State, p: nat, k: nat)
    ensures var d := Step(Step(Step(Step(s, Advance(p, true)), Advance(p, true)), Advance(p, true)), Advance(p, true));
            Calls(s, p, k + 4) == Calls(d, p, k)
  {
    hide Step;
    var a := Step(s, Advance(p, true));
    var b := Step(a, Advance(p, true));
    var c := Step(b, Advance(p, true));
    assert Calls(s, p, k + 4) == Calls(a, p, k + 3);
    assert Calls(a, p, k + 3) == Calls(b, p, k + 2);
    assert Calls(b, p, k + 2) == Calls(c, p, k + 1);
  }

  lemma TemporaryAlone(s: State, p: nat, job: Job)
    requires Inv(s) && p < |s.processes| && s.processes[p] == Started(job) && NobodyElseHolds(s, p) && job.Publish?
    requires Fixed !in s.dir && ValidMarker(job.marker) && Temporary(job.nonce) !in s.dir
    ensures var c := Step(Step(Step(s, Advance(p, true)), Advance(p, true)), Advance(p, true));
            && c.processes == s.processes[p := TemporaryWritten(job, s.nextId)]
            && c.dir == s.dir[Temporary(job.nonce) := s.nextId]
            && c.objects == s.objects[s.nextId := FileObject(Whole(job.marker), Kept)]
  {
    hide ValidMarker, Replay;
    var a := Step(s, Advance(p, true));
    var b := Step(a, Advance(p, true));
    assert b.processes == s.processes[p := b.processes[p]];
  }

  lemma ReadBackAlone(s: State, p: nat, job: Job, id: nat)
    requires p < |s.processes| && s.processes[p] == Renamed(job, id) && job.Publish?
    requires Fixed in s.dir && s.dir[Fixed] == id && id in s.objects && s.objects[id] == FileObject(Whole(job.marker), Kept)
    ensures Ends(Calls(s, p, 4), p, Some(job.marker), Succeeded, job)
  {
    var a := Step(s, Advance(p, true));
    var b := Step(a, Advance(p, true));
    var c := Step(b, Advance(p, true));
    var d := Step(c, Advance(p, true));
    assert Calls(s, p, 4) == Calls(a, p, 3) == Calls(b, p, 2) == Calls(c, p, 1) == Calls(d, p, 0);
  }
}
