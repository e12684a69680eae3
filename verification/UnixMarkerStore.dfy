/** The recovery marker file on Unix: processes that serialise on a directory lock, publish by writing a
    temporary file and linking it to the fixed name, and clear by compare and unlink. Any process may be
    killed, and power may fail, between any two system calls. */
module UnixMarkerStore {
  import opened Results
  import opened RecoveryMarkers
  import opened MarkerRegister

  datatype Name = Fixed | Temporary(nonce: nat)

  datatype Content = Partial | Whole(marker: Marker)

  datatype Job = Publish(marker: Marker, nonce: nat) | Clear(expected: Marker) | Load

  datatype Outcome = Succeeded | Failed | Value(marker: Option<Marker>)

  /** Where a process is; everything from Locked on holds the lock. */
  datatype Process =
    | Idle
    | Waiting(job: Job)
    | Locked(job: Job)
    | TemporaryCreated(job: Job, id: nat)
    | TemporaryWritten(job: Job, id: nat)
    | CleaningUp(job: Job)
    | Linked(job: Job)
    | TemporaryRemoved(job: Job)
    | LinkSynced(job: Job)
    | Compared(job: Job)
    | Unlinked(job: Job)
    | Done(job: Job, outcome: Outcome)

  /** `possible` holds every binding of the fixed name that a power failure may bring back. */
  datatype State = State(
    dir: map<Name, nat>, files: map<nat, Content>, nextId: nat, possible: set<Option<nat>>,
    holder: Option<nat>, processes: seq<Process>, base: Option<Marker>, log: seq<Change>)

  /** `ok` is whether the system call succeeds. */
  datatype Move = Start(p: nat, job: Job) | Advance(p: nat, ok: bool) | Kill(p: nat) | PowerFails(binding: Option<nat>)

  function Bound(s: State): Option<nat> { if Fixed in s.dir then Some(s.dir[Fixed]) else None }

  function MarkerAt(files: map<nat, Content>, binding: Option<nat>): Option<Marker> {
    if binding.Some? && binding.value in files && files[binding.value].Whole? then Some(files[binding.value].marker) else None
  }

  /** What a reader of the fixed name finds. */
  function Register(s: State): Option<Marker> { MarkerAt(s.files, Bound(s)) }

  function Launch(processes: nat): State {
    State(map[], map[], 0, {None}, None, seq(processes, i => Idle), None, [])
  }

  function Goto(s: State, p: nat, process: Process): State
    requires p < |s.processes|
  {
    s.(processes := s.processes[p := process])
  }

  function CreateTemporary(s: State, p: nat, job: Job): State
    requires p < |s.processes| && job.Publish?
  {
    Goto(s.(dir := s.dir[Temporary(job.nonce) := s.nextId], files := s.files[s.nextId := Partial], nextId := s.nextId + 1),
         p, TemporaryCreated(job, s.nextId))
  }

  function LinkFixed(s: State, p: nat, job: Job, id: nat): State
    requires p < |s.processes| && job.Publish?
  {
    Goto(s.(dir := s.dir[Fixed := id], possible := s.possible + {Some(id)}, log := s.log + [Created(job.marker)]), p, Linked(job))
  }

  function UnlinkFixed(s: State, p: nat, job: Job): State
    requires p < |s.processes| && Register(s).Some?
  {
    Goto(s.(dir := s.dir - {Fixed}, possible := s.possible + {None}, log := s.log + [Removed(Register(s).value)]), p, Unlinked(job))
  }

  function Sync(s: State): State { s.(possible := {Bound(s)}) }

  /** The first system call of a job under the lock. */
  function Enter(s: State, p: nat, job: Job, ok: bool): State
    requires p < |s.processes|
  {
    var failed := Goto(s, p, Done(job, Failed));
    match job
    case Publish(marker, nonce) =>
      if !ValidMarker(marker) || !ok || Temporary(nonce) in s.dir then failed else CreateTemporary(s, p, job)
    case Clear(expected) => if ok && Register(s) == Some(expected) then Goto(s, p, Compared(job)) else failed
    case Load => if ok then Goto(s, p, Done(job, Value(Register(s)))) else failed
  }

  function RemoveTemporary(s: State, job: Job): State
    requires job.Publish?
  {
    s.(dir := s.dir - {Temporary(job.nonce)})
  }

  function Proceed(s: State, p: nat, ok: bool): State
    requires p < |s.processes|
  {
    match s.processes[p]
    case Idle => s
    case Waiting(job) => if s.holder == None && ok then Goto(s.(holder := Some(p)), p, Locked(job)) else if ok then s else Goto(s, p, Idle)
    case Locked(job) => Enter(s, p, job, ok)
    case TemporaryCreated(job, id) =>
      if ok && job.Publish? then Goto(s.(files := s.files[id := Whole(job.marker)]), p, TemporaryWritten(job, id))
      else Goto(s, p, CleaningUp(job))
    case TemporaryWritten(job, id) =>
      if ok && job.Publish? && Fixed !in s.dir then LinkFixed(s, p, job, id) else Goto(s, p, CleaningUp(job))
    case CleaningUp(job) => Goto(if ok && job.Publish? then RemoveTemporary(s, job) else s, p, Done(job, Failed))
    case Linked(job) =>
      if ok && job.Publish? then Goto(RemoveTemporary(s, job), p, TemporaryRemoved(job)) else Goto(s, p, Done(job, Failed))
    case TemporaryRemoved(job) => if ok then Goto(Sync(s), p, LinkSynced(job)) else Goto(s, p, Done(job, Failed))
    case LinkSynced(job) =>
      Goto(s, p, Done(job, if ok && job.Publish? && Register(s) == Some(job.marker) then Succeeded else Failed))
    case Compared(job) => if ok && Register(s).Some? then UnlinkFixed(s, p, job) else Goto(s, p, Done(job, Failed))
    case Unlinked(job) => if ok then Goto(Sync(s), p, Done(job, Succeeded)) else Goto(s, p, Done(job, Failed))
    case Done(_, _) => Goto(s.(holder := None), p, Idle)
  }

  function Step(s: State, move: Move): State {
    match move
    case Start(p, job) => if p < |s.processes| && s.processes[p].Idle? then Goto(s, p, Waiting(job)) else s
    case Advance(p, ok) => if p < |s.processes| then Proceed(s, p, ok) else s
    case Kill(p) =>
      if p < |s.processes| then Goto(s.(holder := if s.holder == Some(p) then None else s.holder), p, Idle) else s
    case PowerFails(binding) =>
      if binding !in s.possible then s
      else
        var dir := if binding.Some? then s.dir[Fixed := binding.value] else s.dir - {Fixed};
        s.(dir := dir, possible := {binding}, holder := None, processes := seq(|s.processes|, i => Idle),
           base := MarkerAt(s.files, binding), log := [])
  }

  function Run(s: State, moves: seq<Move>): State
    decreases |moves|
  {
    if moves == [] then s else Run(Step(s, moves[0]), moves[1..])
  }

  // ---------------------------------------------------------------- invariant

  predicate Complete(files: map<nat, Content>, binding: Option<nat>) {
    binding.Some? ==> binding.value in files && files[binding.value].Whole? && ValidMarker(files[binding.value].marker)
  }

  predicate Holding(process: Process) { !process.Idle? && !process.Waiting? }

  /** What the lock holder may rely on at each point. */
  predicate ProcessKept(s: State, process: Process) {
    match process
    case TemporaryCreated(job, id) =>
      job.Publish? && ValidMarker(job.marker) && id < s.nextId && Some(id) !in s.possible
    case TemporaryWritten(job, id) =>
      && job.Publish? && ValidMarker(job.marker) && id < s.nextId && Some(id) !in s.possible
      && id in s.files && s.files[id] == Whole(job.marker)
    case CleaningUp(job) => job.Publish?
    case Linked(job) => job.Publish? && Register(s) == Some(job.marker)
    case TemporaryRemoved(job) => job.Publish? && Register(s) == Some(job.marker)
    case LinkSynced(job) => job.Publish? && Register(s) == Some(job.marker) && s.possible == {Bound(s)}
    case Compared(job) => job.Clear? && Register(s) == Some(job.expected)
    case Unlinked(job) => job.Clear? && Register(s) == None
    case Done(job, outcome) =>
      && (outcome == Succeeded ==>
            && s.possible == {Bound(s)}
            && (job.Publish? || job.Clear?) && Register(s) == (if job.Publish? then Some(job.marker) else None))
      && (outcome.Value? ==> job.Load? && outcome.marker == Register(s))
    case _ => true
  }

  ghost predicate Shared(s: State) {
    && Bound(s) in s.possible
    && (forall binding :: binding in s.possible ==> Complete(s.files, binding))
    && (forall id :: id in s.files ==> id < s.nextId)
    && Replay(s.base, s.log) == Some(Register(s))
  }

  ghost predicate ProcessesKept(s: State) {
    forall p :: 0 <= p < |s.processes| && Holding(s.processes[p]) ==> s.holder == Some(p) && ProcessKept(s, s.processes[p])
  }

  ghost predicate Inv(s: State) { Shared(s) && ProcessesKept(s) }

  /** What one step did to the register, in the register's own terms. */
  ghost predicate Refines(s: State, move: Move, next: State) {
    if next.log == s.log && next.base == s.base then Register(next) == Register(s)
    else if move.PowerFails? then
      next.log == [] && next.base == Register(next) && exists binding :: binding in s.possible && next.base == MarkerAt(s.files, binding)
    else
      && move.Advance? && move.p < |s.processes| && next.base == s.base
      && (var process := s.processes[move.p];
          || (&& process.TemporaryWritten? && process.job.Publish? && Register(s) == None
              && next.log == s.log + [Created(process.job.marker)] && Register(next) == Some(process.job.marker))
          || (&& process.Compared? && process.job.Clear? && Register(s) == Some(process.job.expected)
              && next.log == s.log + [Removed(process.job.expected)] && Register(next) == None))
  }

  lemma OthersKept(s: State, p: nat, next: State)
    requires ProcessesKept(s) && p < |s.processes| && (s.holder == None || s.holder == Some(p))
    requires |next.processes| == |s.processes| && next.processes == s.processes[p := next.processes[p]]
    requires Holding(next.processes[p]) ==> next.holder == Some(p) && ProcessKept(next, next.processes[p])
    ensures ProcessesKept(next)
  {
    hide ProcessKept;
    forall q | 0 <= q < |next.processes| && Holding(next.processes[q])
      ensures next.holder == Some(q) && ProcessKept(next, next.processes[q]) {
      assert q == p;
    }
  }

  /** Steps that leave the fixed name, the files and the log alone. */
  lemma QuietStep(s: State, next: State)
    requires Shared(s) && Bound(next) == Bound(s) && next.files == s.files && next.nextId == s.nextId
    requires next.base == s.base && next.log == s.log && (next.possible == s.possible || next.possible == {Bound(s)})
    ensures Shared(next) && Register(next) == Register(s)
  {
  }

  lemma CreateKept(s: State, p: nat, job: Job)
    requires Inv(s) && p < |s.processes| && s.processes[p] == Locked(job) && job.Publish? && ValidMarker(job.marker)
    ensures Inv(CreateTemporary(s, p, job)) && Refines(s, Advance(p, true), CreateTemporary(s, p, job))
  {
    hide ValidMarker;
    var next := CreateTemporary(s, p, job);
    assert Holding(s.processes[p]);
    assert Complete(s.files, Bound(s));
    assert forall binding :: binding in s.possible ==> Complete(s.files, binding) && Complete(next.files, binding);
    OthersKept(s, p, next);
  }

  lemma WriteKept(s: State, p: nat)
    requires Inv(s) && p < |s.processes| && s.processes[p].TemporaryCreated?
    ensures Inv(Proceed(s, p, true)) && Refines(s, Advance(p, true), Proceed(s, p, true))
  {
    hide ValidMarker;
    var next := Proceed(s, p, true);
    assert Holding(s.processes[p]) && ProcessKept(s, s.processes[p]);
    assert forall binding :: binding in s.possible ==> Complete(s.files, binding) && Complete(next.files, binding);
    OthersKept(s, p, next);
  }

  lemma LinkKept(s: State, p: nat, job: Job, id: nat)
    requires Inv(s) && p < |s.processes| && s.processes[p] == TemporaryWritten(job, id) && Fixed !in s.dir && job.Publish?
    ensures Inv(LinkFixed(s, p, job, id)) && Refines(s, Advance(p, true), LinkFixed(s, p, job, id))
  {
    hide ValidMarker, Replay;
    var next := LinkFixed(s, p, job, id);
    assert Holding(s.processes[p]) && ProcessKept(s, s.processes[p]);
    ReplayGrows(s.base, s.log);
    OthersKept(s, p, next);
  }

  lemma UnlinkKept(s: State, p: nat, job: Job)
    requires Inv(s) && p < |s.processes| && s.processes[p] == Compared(job) && Register(s).Some?
    ensures Inv(UnlinkFixed(s, p, job)) && Refines(s, Advance(p, true), UnlinkFixed(s, p, job))
  {
    hide ValidMarker, Replay;
    var next := UnlinkFixed(s, p, job);
    assert Holding(s.processes[p]) && ProcessKept(s, s.processes[p]);
    ReplayGrows(s.base, s.log);
    OthersKept(s, p, next);
  }

  predicate ChangesFiles(s: State, p: nat, ok: bool)
    requires p < |s.processes|
  {
    match s.processes[p]
    case Locked(job) => job.Publish? && ValidMarker(job.marker) && ok && Temporary(job.nonce) !in s.dir
    case TemporaryCreated(job, _) => ok
    case TemporaryWritten(job, _) => ok && Fixed !in s.dir
    case Compared(job) => ok && Register(s).Some?
    case _ => false
  }

  lemma QuietProceed(s: State, p: nat, ok: bool)
    requires Inv(s) && p < |s.processes| && !ChangesFiles(s, p, ok)
    ensures Inv(Proceed(s, p, ok)) && Refines(s, Advance(p, ok), Proceed(s, p, ok))
  {
    if Holding(s.processes[p]) { QuietHolder(s, p, ok); } else { QuietWaiter(s, p, ok); }
  }

  lemma QuietWaiter(s: State, p: nat, ok: bool)
    requires Inv(s) && p < |s.processes| && !Holding(s.processes[p])
    ensures Inv(Proceed(s, p, ok)) && Refines(s, Advance(p, ok), Proceed(s, p, ok))
  {
    hide ValidMarker, Replay, Shared;
    var next := Proceed(s, p, ok);
    QuietStep(s, next);
    if Holding(next.processes[p]) {
      OthersKept(s, p, next);
    } else {
      hide ProcessKept;
      QuietProcesses(s, next);
      assert forall q :: 0 <= q < |next.processes| && Holding(next.processes[q]) ==>
        next.processes[q] == s.processes[q] && ProcessKept(s, s.processes[q]);
    }
  }

  lemma QuietHolder(s: State, p: nat, ok: bool)
    requires Inv(s) && p < |s.processes| && Holding(s.processes[p]) && !ChangesFiles(s, p, ok)
    ensures Inv(Proceed(s, p, ok)) && Refines(s, Advance(p, ok), Proceed(s, p, ok))
  {
    hide ValidMarker, Replay, Shared, MarkerAt, ProcessesKept, CreateTemporary, LinkFixed, UnlinkFixed;
    var next := Proceed(s, p, ok);
    HolderKept(s, p);
    QuietStep(s, next);
    OthersKept(s, p, next);
  }

  lemma HolderKept(s: State, p: nat)
    requires ProcessesKept(s) && p < |s.processes| && Holding(s.processes[p])
    ensures s.holder == Some(p) && ProcessKept(s, s.processes[p])
  {
  }

  lemma QuietProcesses(s: State, next: State)
    requires Bound(next) == Bound(s) && next.files == s.files && next.nextId == s.nextId && next.possible == s.possible
    ensures forall process :: ProcessKept(s, process) ==> ProcessKept(next, process)
  {
  }

  /** One system call of one process. */
  lemma ProceedKeepsInv(s: State, p: nat, ok: bool)
    requires Inv(s) && p < |s.processes|
    ensures Inv(Proceed(s, p, ok)) && Refines(s, Advance(p, ok), Proceed(s, p, ok))
  {
    hide ValidMarker, Shared, CreateTemporary, UnlinkFixed, LinkFixed, Refines;
    if !ChangesFiles(s, p, ok) {
      QuietProceed(s, p, ok);
    } else {
      assert Holding(s.processes[p]) && ProcessKept(s, s.processes[p]);
      match s.processes[p]
      case Locked(job) => CreateKept(s, p, job);
      case TemporaryCreated(_, _) => WriteKept(s, p);
      case TemporaryWritten(job, id) => LinkKept(s, p, job, id);
      case Compared(job) => UnlinkKept(s, p, job);
    }
  }

  lemma StepKeepsInv(s: State, move: Move)
    requires Inv(s)
    ensures Inv(Step(s, move)) && Refines(s, move, Step(s, move))
  {
    hide Proceed, ValidMarker, ProcessKept;
    var next := Step(s, move);
    match move
    case Advance(p, ok) => if p < |s.processes| { ProceedKeepsInv(s, p, ok); }
    case PowerFails(binding) =>
      if binding in s.possible {
        assert Complete(s.files, binding);
        ReplayGrows(next.base, []);
      }
    case Start(p, _) => if next != s { UnheldMove(s, p, next); }
    case Kill(p) => UnheldMove(s, p, next);
  }

  /** A start or a kill: nobody but `p` is affected, and `p` holds nothing afterwards. */
  lemma UnheldMove(s: State, p: nat, next: State)
    requires Inv(s) && (p < |s.processes| ==> |next.processes| == |s.processes| && !Holding(next.processes[p]))
    requires next == if p < |s.processes| then s.(processes := s.processes[p := next.processes[p]], holder := next.holder) else s
    requires next.holder == s.holder || (s.holder == Some(p) && next.holder == None)
    ensures Inv(next)
  {
    hide ValidMarker, Shared, ProcessKept, Register, Replay;
    QuietStep(s, next);
    QuietProcesses(s, next);
    forall q | 0 <= q < |next.processes| && Holding(next.processes[q])
      ensures next.holder == Some(q) && ProcessKept(next, next.processes[q]) {
      assert q != p && next.processes[q] == s.processes[q] && ProcessKept(s, s.processes[q]);
    }
  }

  // ---------------------------------------------------------------- whole runs

  lemma {:induction false} RunKeepsInv(s: State, moves: seq<Move>)
    requires Inv(s)
    ensures Inv(Run(s, moves))
    decreases |moves|
  {
    if moves != [] {
      StepKeepsInv(s, moves[0]);
      RunKeepsInv(Step(s, moves[0]), moves[1..]);
    }
  }

  lemma LaunchInv(processes: nat)
    ensures Inv(Launch(processes))
  {
  }

  /** For any interleaving, killed processes and power failures: the fixed name is absent or holds one
      complete valid marker, and so does everything a power failure could bring back. */
  lemma AbsentOrComplete(processes: nat, moves: seq<Move>)
    ensures var s := Run(Launch(processes), moves);
            && (Fixed in s.dir ==> Register(s).Some? && ValidMarker(Register(s).value))
            && (forall binding :: binding in s.possible && binding.Some? ==> MarkerAt(s.files, binding).Some?)
  {
    LaunchInv(processes);
    RunKeepsInv(Launch(processes), moves);
    var s := Run(Launch(processes), moves);
    assert Complete(s.files, Bound(s));
    assert forall binding :: binding in s.possible ==> Complete(s.files, binding);
  }

  /** The store is an atomic register: since the last power failure its value is the result of creations
      that found it absent and removals that found the removed marker, each made by the process whose job
      it is; and the next step changes it in no other way. */
  lemma RefinesRegister(processes: nat, moves: seq<Move>, move: Move)
    ensures var s := Run(Launch(processes), moves);
            Replay(s.base, s.log) == Some(Register(s)) && Refines(s, move, Step(s, move))
  {
    LaunchInv(processes);
    RunKeepsInv(Launch(processes), moves);
    StepKeepsInv(Run(Launch(processes), moves), move);
  }

  /** A job that reports success has taken effect durably: no power failure can undo it. */
  lemma SuccessIsDurable(processes: nat, moves: seq<Move>, p: nat)
    ensures var s := Run(Launch(processes), moves);
            p < |s.processes| && s.processes[p].Done? && s.processes[p].outcome == Succeeded ==>
              && !s.processes[p].job.Load?
              && forall binding :: binding in s.possible ==>
                   MarkerAt(s.files, binding) == if s.processes[p].job.Publish? then Some(s.processes[p].job.marker) else None
  {
    LaunchInv(processes);
    RunKeepsInv(Launch(processes), moves);
    var s := Run(Launch(processes), moves);
    if p < |s.processes| && s.processes[p].Done? {
      assert Holding(s.processes[p]) && ProcessKept(s, s.processes[p]);
    }
  }

  /** What a load returns is what the register holds while the load still has the lock. */
  lemma LoadIsRegister(processes: nat, moves: seq<Move>, p: nat)
    ensures var s := Run(Launch(processes), moves);
            p < |s.processes| && s.processes[p].Done? && s.processes[p].outcome.Value? ==>
              s.processes[p].job.Load? && s.processes[p].outcome == Value(Register(s))
  {
    LaunchInv(processes);
    RunKeepsInv(Launch(processes), moves);
    var s := Run(Launch(processes), moves);
    if p < |s.processes| && s.processes[p].Done? { assert Holding(s.processes[p]) && ProcessKept(s, s.processes[p]); }
  }

  // ---------------------------------------------------------------- one job by itself

  /** `k` system calls of one process, all of which work. */
  function Calls(s: State, p: nat, k: nat): State
    decreases k
  {
    if k == 0 then s else Calls(Step(s, Advance(p, true)), p, k - 1)
  }

  /** What a job does to a register by itself, and what it reports. */
  function Answer(register: Option<Marker>, job: Job): (Option<Marker>, Outcome) {
    match job
    case Publish(marker, _) => if register == None && ValidMarker(marker) then (Some(marker), Succeeded) else (register, Failed)
    case Clear(expected) => if register == Some(expected) then (None, Succeeded) else (register, Failed)
    case Load => (register, Value(register))
  }

  /** From any reachable state with the lock free, a job whose calls all work and that is not killed does to
      the register exactly what it should, and reports it. */
  lemma JobIsAtomic(s: State, p: nat, job: Job) returns (k: nat)
    requires Inv(s) && p < |s.processes| && s.processes[p] == Waiting(job) && s.holder == None
    requires job.Publish? ==> Temporary(job.nonce) !in s.dir
    ensures var end := Calls(s, p, k);
            p < |end.processes| && end.processes[p].Done? && (Register(end), end.processes[p].outcome) == Answer(Register(s), job)
  {
    hide ValidMarker, Replay, Complete;
    match job {
      case Load =>
        k := 2;
        var a := Step(s, Advance(p, true));
        assert Calls(s, p, 2) == Calls(a, p, 1) == Calls(Step(a, Advance(p, true)), p, 0);
      case Clear(expected) => k := ClearAlone(s, p, expected);
      case Publish(marker, nonce) => k := PublishAlone(s, p, marker, nonce);
    }
  }

  lemma ClearAlone(s: State, p: nat, expected: Marker) returns (k: nat)
    requires p < |s.processes| && s.processes[p] == Waiting(Clear(expected)) && s.holder == None
    ensures var end := Calls(s, p, k);
            p < |end.processes| && end.processes[p].Done? && (Register(end), end.processes[p].outcome) == Answer(Register(s), Clear(expected))
  {
    var a := Step(s, Advance(p, true));
    var b := Step(a, Advance(p, true));
    if Register(s) == Some(expected) {
      k := 4;
      var c := Step(b, Advance(p, true));
      var d := Step(c, Advance(p, true));
      assert c.processes[p] == Unlinked(Clear(expected)) && Register(c) == None;
      assert Calls(s, p, 4) == Calls(a, p, 3) == Calls(b, p, 2) == Calls(c, p, 1) == Calls(d, p, 0);
    } else {
      k := 2;
      assert Calls(s, p, 2) == Calls(a, p, 1) == Calls(b, p, 0);
    }
  }

  lemma PublishAlone(s: State, p: nat, marker: Marker, nonce: nat) returns (k: nat)
    requires Shared(s) && p < |s.processes| && s.processes[p] == Waiting(Publish(marker, nonce)) && s.holder == None
    requires Temporary(nonce) !in s.dir
    ensures var end := Calls(s, p, k);
            p < |end.processes| && end.processes[p].Done? && (Register(end), end.processes[p].outcome) == Answer(Register(s), Publish(marker, nonce))
  {
    hide ValidMarker, Replay;
    var job := Publish(marker, nonce);
    var a := Step(s, Advance(p, true));
    var b := Step(a, Advance(p, true));
    assert Calls(s, p, 2) == Calls(a, p, 1) == Calls(b, p, 0);
    if !ValidMarker(marker) {
      k := 2;
    } else {
      assert b.processes[p] == TemporaryCreated(job, s.nextId);
      var more := WriteAlone(s, b, p, job);
      k := 2 + more;
      assert Calls(s, p, k) == Calls(a, p, k - 1) == Calls(b, p, k - 2);
    }
  }

  lemma WriteAlone(s: State, b: State, p: nat, job: Job) returns (k: nat)
    requires Shared(s) && p < |s.processes| && job.Publish? && b.processes == s.processes[p := TemporaryCreated(job, s.nextId)]
    requires Bound(b) == Bound(s) && b.files == s.files[s.nextId := Partial]
    ensures var end := Calls(b, p, k);
            && p < |end.processes| && end.processes[p].Done?
            && Register(end) == (if Register(s) == None then Some(job.marker) else Register(s))
            && end.processes[p].outcome == if Register(s) == None then Succeeded else Failed
  {
    hide ValidMarker, Replay;
    assert Complete(s.files, Bound(s));
    var c := Step(b, Advance(p, true));
    var d := Step(c, Advance(p, true));
    assert c.processes[p] == TemporaryWritten(job, s.nextId) && Register(c) == Register(s);
    if Register(s) == None {
      k := 5;
      LinkAlone(d, p, job);
      assert Calls(b, p, 5) == Calls(c, p, 4) == Calls(d, p, 3);
    } else {
      k := 3;
      var e := Step(d, Advance(p, true));
      assert Calls(b, p, 3) == Calls(c, p, 2) == Calls(d, p, 1) == Calls(e, p, 0);
    }
  }

  lemma LinkAlone(s: State, p: nat, job: Job)
    requires p < |s.processes| && job.Publish? && s.processes[p] == Linked(job) && Register(s) == Some(job.marker)
    ensures var end := Calls(s, p, 3);
            p < |end.processes| && end.processes[p] == Done(job, Succeeded) && Register(end) == Some(job.marker)
  {
    var a := Step(s, Advance(p, true));
    var b := Step(a, Advance(p, true));
    var c := Step(b, Advance(p, true));
    assert Calls(s, p, 3) == Calls(a, p, 2) == Calls(b, p, 1) == Calls(c, p, 0);
  }
}
