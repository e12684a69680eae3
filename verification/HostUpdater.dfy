/** The private update service of the desktop host: checks, installs, expiry sweeps, deferred commits and
    their workers, interleaved action by action. */
module HostUpdater {
  import opened Results

  datatype Gate =
    | Disabled | Inactive | Activating | Ready | CommitReserved | CommitExecuting | RelaunchPrepared | Failed | CommitLost

  /** `ticket` counts the candidates ever stored; `generation` is the 64-bit counter kept with the slot. */
  datatype Candidate = Candidate(generation: nat, ticket: nat, checkedAt: nat)

  /** A connection, sweeping or activating thread; `w` is the commit worker a reply carries. */
  datatype Thread =
    | Idle
    | ActivationBegun
    | CheckBegun | CheckCleared | CheckFetched | CheckNumbered(ticket: nat)
    | InstallBegun | InstallReady | InstallTook(candidate: Candidate)
    | InstallFresh(candidate: Candidate, clock: nat) | InstallPassed(candidate: Candidate, clock: nat)
    | Reserved
    | Replying(w: nat) | Flushed(w: nat) | Sending(w: nat) | Cancelling(w: nat) | CancelSending(w: nat)
    | SweepTimed(clock: nat) | SweepSaw(candidate: Candidate, clock: nat)

  datatype Signal = NoSignal | Execute | Cancel | Closed

  datatype Phase = Waiting | Running | Restarting | Finished

  datatype Worker = Worker(signal: Signal, phase: Phase)

  /** A commit is taken for a candidate that was found fresh at a clock reading. */
  datatype Event = Stored(candidate: Candidate) | CommitTaken(candidate: Candidate, clock: nat) | ReplyFlushed(w: nat) | ActionRan(w: nat)

  datatype State = State(
    gate: Gate, operation: Option<nat>, slot: Option<Candidate>, total: nat, owned: bool, now: nat,
    threads: seq<Thread>, workers: seq<Worker>, log: seq<Event>)

  datatype Task = Activate | Check | Install | Sweep

  /** `ok` is how whatever the action depends on outside turns out. */
  datatype Move = Begin(p: nat, task: Task) | Advance(p: nat, ok: bool) | Work(w: nat, ok: bool) | Tick(amount: nat) | LoseOwnership

  const WRAP: nat := 0x1_0000_0000_0000_0000
  const TTL: nat := 300_000

  function Generation(ticket: nat): nat { ticket % WRAP }

  /** The age is known only if the clock reading is not older than the check. */
  predicate IsFresh(checkedAt: nat, clock: nat) { checkedAt <= clock && clock - checkedAt <= TTL }

  function Launch(enabled: bool, threads: nat): State {
    State(if enabled then Inactive else Disabled, None, None, 0, true, 0, seq(threads, i => Idle), [], [])
  }

  function Goto(s: State, p: nat, thread: Thread): State
    requires p < |s.threads|
  {
    s.(threads := s.threads[p := thread])
  }

  /** The end of an operation that holds the operation lock. */
  function Leave(s: State, p: nat): State
    requires p < |s.threads|
  {
    Goto(s, p, Idle).(operation := None)
  }

  function Start(s: State, p: nat, task: Task): State
    requires p < |s.threads|
  {
    if task == Sweep then Goto(s, p, SweepTimed(s.now))
    else if s.operation.Some? then s
    else if task == Activate then
      if s.gate == Inactive then Goto(s.(gate := Activating, operation := Some(p)), p, ActivationBegun) else s
    else Goto(s.(operation := Some(p)), p, if task == Check then CheckBegun else InstallBegun)
  }

  /** A check clears the slot, asks for an update, numbers it and stores it. */
  function ProceedCheck(s: State, p: nat, ok: bool): State
    requires p < |s.threads|
  {
    var ready := s.gate == Ready && s.owned;
    match s.threads[p]
    case CheckBegun => if ready && ok then Goto(s.(slot := None), p, CheckCleared) else Leave(s, p)
    case CheckCleared => if ready && ok then Goto(s, p, CheckFetched) else Leave(s, p)
    case CheckFetched => Goto(s.(total := s.total + 1), p, CheckNumbered(s.total + 1))
    case CheckNumbered(ticket) =>
      var candidate := Candidate(Generation(ticket), ticket, s.now);
      Leave(s.(slot := Some(candidate), log := s.log + [Stored(candidate)]), p)
    case _ => s
  }

  /** An install takes a fresh candidate and reserves the commit. */
  function ProceedInstall(s: State, p: nat, ok: bool): State
    requires p < |s.threads|
  {
    var ready := s.gate == Ready && s.owned;
    match s.threads[p]
    case InstallBegun => if ready then Goto(s, p, InstallReady) else Leave(s, p)
    case InstallReady => if s.slot.Some? then Goto(s.(slot := None), p, InstallTook(s.slot.value)) else Leave(s, p)
    case InstallTook(candidate) => if IsFresh(candidate.checkedAt, s.now) then Goto(s, p, InstallFresh(candidate, s.now)) else Leave(s, p)
    case InstallFresh(candidate, clock) => if ready then Goto(s, p, InstallPassed(candidate, clock)) else Leave(s, p)
    case InstallPassed(candidate, clock) =>
      if s.gate == Ready then Goto(s.(gate := CommitReserved, log := s.log + [CommitTaken(candidate, clock)]), p, Reserved) else Leave(s, p)
    case _ => s
  }

  /** The end of an activation, and the two halves of an expiry sweep. */
  function ProceedRest(s: State, p: nat, ok: bool): State
    requires p < |s.threads|
  {
    match s.threads[p]
    case ActivationBegun =>
      Leave(s.(gate := if ok && s.owned && s.gate == Activating then Ready else Failed), p)
    case SweepTimed(clock) =>
      if s.slot.Some? && !IsFresh(s.slot.value.checkedAt, clock) then Goto(s, p, SweepSaw(s.slot.value, clock)) else Goto(s, p, Idle)
    case SweepSaw(seen, _) =>
      Goto(s.(slot := if s.slot.Some? && s.slot.value.generation == seen.generation then None else s.slot), p, Idle)
    case _ => s
  }

  predicate Checks(thread: Thread) { thread.CheckBegun? || thread.CheckCleared? || thread.CheckFetched? || thread.CheckNumbered? }

  predicate Installs(thread: Thread) {
    thread.InstallBegun? || thread.InstallReady? || thread.InstallTook? || thread.InstallFresh? || thread.InstallPassed?
  }

  function ProceedPlain(s: State, p: nat, ok: bool): State
    requires p < |s.threads|
  {
    if Checks(s.threads[p]) then ProceedCheck(s, p, ok)
    else if Installs(s.threads[p]) then ProceedInstall(s, p, ok)
    else ProceedRest(s, p, ok)
  }

  /** From the reservation on: the worker is started, the reply written, and the worker told. */
  function ProceedCommit(s: State, p: nat, ok: bool): State
    requires p < |s.threads|
  {
    match s.threads[p]
    case Reserved =>
      if ok then Goto(s.(workers := s.workers + [Worker(NoSignal, Waiting)], operation := None), p, Replying(|s.workers|))
      else Leave(s.(gate := CommitLost), p)
    case Replying(w) => if ok then Goto(s.(log := s.log + [ReplyFlushed(w)]), p, Flushed(w)) else Goto(s, p, Cancelling(w))
    case Flushed(w) =>
      if s.gate == CommitReserved then Goto(s.(gate := CommitExecuting), p, Sending(w)) else Goto(s, p, Cancelling(w))
    case Sending(w) =>
      if ok then Goto(SendSignal(s, w, Execute), p, Idle)
      else Goto(SendSignal(s.(gate := CommitLost), w, Closed), p, Idle)
    case Cancelling(w) => Goto(s.(gate := CommitLost), p, CancelSending(w))
    case CancelSending(w) => Goto(SendSignal(s, w, if ok then Cancel else Closed), p, Idle)
    case _ => s
  }

  function Proceed(s: State, p: nat, ok: bool): State
    requires p < |s.threads|
  {
    if HasCommit(s.threads[p]) then ProceedCommit(s, p, ok) else ProceedPlain(s, p, ok)
  }

  function SendSignal(s: State, w: nat, signal: Signal): State {
    if w < |s.workers| then s.(workers := s.workers[w := s.workers[w].(signal := signal)]) else s
  }

  function WorkStep(s: State, w: nat, ok: bool): State
    requires w < |s.workers|
  {
    var worker := s.workers[w];
    match worker.phase
    case Waiting =>
      if worker.signal == NoSignal then s
      else if worker.signal == Execute then s.(workers := s.workers[w := worker.(phase := Running)], log := s.log + [ActionRan(w)])
      else s.(workers := s.workers[w := worker.(phase := Finished)], gate := CommitLost)
    case Running =>
      if ok && s.gate == CommitExecuting then s.(workers := s.workers[w := worker.(phase := Restarting)], gate := RelaunchPrepared)
      else s.(workers := s.workers[w := worker.(phase := Finished)], gate := Failed)
    case Restarting =>
      if ok then s.(workers := s.workers[w := worker.(phase := Finished)])
      else s.(workers := s.workers[w := worker.(phase := Finished)], gate := Failed)
    case Finished => s
  }

  function Step(s: State, move: Move): State {
    match move
    case Begin(p, task) => if p < |s.threads| && s.threads[p].Idle? then Start(s, p, task) else s
    case Advance(p, ok) => if p < |s.threads| then Proceed(s, p, ok) else s
    case Work(w, ok) => if w < |s.workers| then WorkStep(s, w, ok) else s
    case Tick(amount) => s.(now := s.now + amount)
    case LoseOwnership => s.(owned := false)
  }

  function Run(s: State, moves: seq<Move>): State
    decreases |moves|
  {
    if moves == [] then s else Run(Step(s, moves[0]), moves[1..])
  }

  // ---------------------------------------------------------------- the gate

  function Rank(gate: Gate): nat {
    match gate
    case Disabled => 0
    case Inactive => 1
    case Activating => 2
    case Ready => 3
    case CommitReserved => 4
    case CommitExecuting => 5
    case _ => 6
  }

  // ---------------------------------------------------------------- invariant

  predicate HoldsOperation(thread: Thread) {
    match thread
    case Idle => false
    case Replying(_) => false
    case Flushed(_) => false
    case Sending(_) => false
    case Cancelling(_) => false
    case CancelSending(_) => false
    case SweepTimed(_) => false
    case SweepSaw(_, _) => false
    case _ => true
  }

  /** The thread answers for a commit that no worker has been told about yet. */
  predicate HasCommit(thread: Thread) {
    thread.Reserved? || thread.Replying? || thread.Flushed? || thread.Sending? || thread.Cancelling? || thread.CancelSending?
  }

  predicate ThreadKept(s: State, p: nat)
    requires p < |s.threads|
  {
    && (HoldsOperation(s.threads[p]) ==> s.operation == Some(p))
    && (HasCommit(s.threads[p]) && !s.threads[p].Reserved? ==> s.workers == [Worker(NoSignal, Waiting)] && s.threads[p].w == 0)
    && match s.threads[p]
       case ActivationBegun => s.gate == Activating
       case Reserved => s.gate == CommitReserved && s.workers == []
       case Replying(_) => s.gate == CommitReserved
       case Flushed(_) => s.gate == CommitReserved && ReplyFlushed(0) in s.log
       case Sending(_) => s.gate == CommitExecuting && ReplyFlushed(0) in s.log
       case Cancelling(_) => s.gate == CommitReserved
       case CancelSending(_) => s.gate == CommitLost
       case _ => true
  }

  predicate WorkerKept(s: State, w: nat)
    requires w < |s.workers|
  {
    var worker := s.workers[w];
    && (worker.phase != Waiting && worker.phase != Finished ==> worker.signal == Execute)
    && (worker.signal == Execute ==> ReplyFlushed(w) in s.log)
    && (worker.phase == Waiting ==> ActionRan(w) !in s.log)
    && (worker.phase == Waiting && worker.signal == Execute ==> s.gate == CommitExecuting)
    && (worker.phase == Waiting && worker.signal in {Cancel, Closed} ==> s.gate == CommitLost)
    && (worker.phase == Running ==> s.gate == CommitExecuting)
    && (worker.phase == Restarting ==> s.gate == RelaunchPrepared)
    && (worker.phase == Finished ==> Rank(s.gate) == 6)
  }

  predicate InFlight(s: State) {
    || (exists p :: 0 <= p < |s.threads| && HasCommit(s.threads[p]))
    || (exists w :: 0 <= w < |s.workers| && s.workers[w].signal == Execute && s.workers[w].phase in {Waiting, Running})
  }

  predicate LogKept(log: seq<Event>) {
    forall k :: 0 <= k < |log| && log[k].ActionRan? ==>
      && log[k] == ActionRan(0) && (exists j :: 0 <= j < k && log[j] == ReplyFlushed(0))
      && (forall i :: 0 <= i < k ==> !log[i].ActionRan?)
  }

  predicate ThreadsKept(s: State) { forall p :: 0 <= p < |s.threads| ==> ThreadKept(s, p) }

  predicate WorkersKept(s: State) { |s.workers| <= 1 && forall w :: 0 <= w < |s.workers| ==> WorkerKept(s, w) }

  predicate OneCommit(s: State) {
    && (forall p, q :: 0 <= p < |s.threads| && 0 <= q < |s.threads| && HasCommit(s.threads[p]) && HasCommit(s.threads[q]) ==> p == q)
    && (Rank(s.gate) <= 3 ==> s.workers == [] && forall p :: 0 <= p < |s.threads| ==> !HasCommit(s.threads[p]))
  }

  predicate QuitKept(s: State) { s.gate == CommitReserved || s.gate == CommitExecuting ==> InFlight(s) }

  predicate ActionKept(s: State) { LogKept(s.log) && (s.workers == [] ==> ActionRan(0) !in s.log) }

  predicate Inv(s: State) { ThreadsKept(s) && WorkersKept(s) && OneCommit(s) && QuitKept(s) && ActionKept(s) }

  // ---------------------------------------------------------------- one step

  lemma LogGrows(log: seq<Event>, event: Event)
    requires LogKept(log)
    requires event.ActionRan? ==> event == ActionRan(0) && ReplyFlushed(0) in log && ActionRan(0) !in log
    ensures LogKept(log + [event])
    ensures forall e :: e in log + [event] <==> e in log || e == event
  {
    var next := log + [event];
    assert next[|log|] == event;
    forall k | 0 <= k < |next| && next[k].ActionRan?
      ensures next[k] == ActionRan(0) && (exists j :: 0 <= j < k && next[j] == ReplyFlushed(0))
      ensures forall i :: 0 <= i < k ==> !next[i].ActionRan? {
      if k < |log| {
        assert next[k] == log[k];
        var j :| 0 <= j < k && log[j] == ReplyFlushed(0);
        assert next[j] == ReplyFlushed(0);
      } else {
        var j :| 0 <= j < |log| && log[j] == ReplyFlushed(0);
        assert next[j] == ReplyFlushed(0);
        forall i | 0 <= i < k ensures !next[i].ActionRan? { assert next[i] == log[i]; }
      }
    }
  }

  predicate Quiet(event: Event) { event.Stored? || event.CommitTaken? }

  /** What a step of a thread without a commit may touch. */
  predicate Plain(s: State, p: nat, next: State)
    requires p < |s.threads|
  {
    && !HasCommit(s.threads[p]) && |next.threads| == |s.threads| && next.threads == s.threads[p := next.threads[p]]
    && next.workers == s.workers
    && (next.log == s.log || (|next.log| == |s.log| + 1 && next.log == s.log + [next.log[|s.log|]] && Quiet(next.log[|s.log|])))
    && (next.gate != s.gate ==> Rank(s.gate) <= 3 && (s.operation == None || s.operation == Some(p)))
    && (next.operation != s.operation ==> s.operation == None || s.operation == Some(p))
    && (HasCommit(next.threads[p]) <==> next.gate == CommitReserved && s.gate != CommitReserved)
    && (next.gate == CommitExecuting ==> s.gate == CommitExecuting)
  }

  lemma PlainKeepsOthers(s: State, p: nat, next: State)
    requires Inv(s) && p < |s.threads| && Plain(s, p, next) && ThreadKept(next, p)
    requires Rank(next.gate) <= 3 || Rank(s.gate) > 3 || s.workers == []
    ensures Inv(next)
  {
    hide LogKept;
    if next.log != s.log { LogGrows(s.log, next.log[|s.log|]); }
    forall q | 0 <= q < |next.threads| ensures ThreadKept(next, q) { if q != p { assert ThreadKept(s, q); } }
    forall w | 0 <= w < |next.workers| ensures WorkerKept(next, w) { assert WorkerKept(s, w); }
    InFlightStays(s, p, next);
  }

  /** A thread without a commit moves on: whatever is in flight stays in flight. */
  lemma InFlightStays(s: State, p: nat, next: State)
    requires p < |s.threads| && !HasCommit(s.threads[p]) && next.workers == s.workers
    requires |next.threads| == |s.threads| && next.threads == s.threads[p := next.threads[p]]
    ensures InFlight(s) ==> InFlight(next)
  {
    if q: nat :| q < |s.threads| && HasCommit(s.threads[q]) { assert HasCommit(next.threads[q]); }
  }

  lemma StartKeepsInv(s: State, p: nat, task: Task)
    requires Inv(s) && p < |s.threads| && s.threads[p].Idle?
    ensures Inv(Start(s, p, task))
  {
    hide LogKept, WorkersKept, QuitKept, ActionKept;
    var next := Start(s, p, task);
    assert ThreadKept(s, p);
    if next.threads != s.threads { PlainKeepsOthers(s, p, next); }
  }

  lemma PlainKeepsInv(s: State, p: nat, ok: bool)
    requires Inv(s) && p < |s.threads| && !HasCommit(s.threads[p])
    ensures Inv(Proceed(s, p, ok))
  {
    hide LogKept, WorkersKept, QuitKept, ActionKept, OneCommit, ThreadsKept, ProceedPlain;
    var next := Proceed(s, p, ok);
    ThreadHolds(s, p);
    CommitsAreLate(s);
    if Checks(s.threads[p]) {
      CheckIsPlain(s, p, ok);
    } else if Installs(s.threads[p]) {
      InstallIsPlain(s, p, ok);
    } else {
      RestIsPlain(s, p, ok);
    }
    if next != s { PlainKeepsOthers(s, p, next); }
  }

  lemma CommitsAreLate(s: State)
    requires Inv(s)
    ensures Rank(s.gate) <= 3 ==> s.workers == []
  {
  }

  lemma CheckIsPlain(s: State, p: nat, ok: bool)
    requires p < |s.threads| && ThreadKept(s, p) && Checks(s.threads[p])
    ensures var next := ProceedPlain(s, p, ok); Plain(s, p, next) && ThreadKept(next, p) && next.gate == s.gate
  {
  }

  lemma InstallIsPlain(s: State, p: nat, ok: bool)
    requires p < |s.threads| && ThreadKept(s, p) && Installs(s.threads[p]) && (Rank(s.gate) <= 3 ==> s.workers == [])
    ensures var next := ProceedPlain(s, p, ok);
            Plain(s, p, next) && ThreadKept(next, p) && (next.gate == s.gate || s.gate == Ready)
  {
    hide IsFresh;
  }

  lemma RestIsPlain(s: State, p: nat, ok: bool)
    requires p < |s.threads| && ThreadKept(s, p) && !HasCommit(s.threads[p]) && !Checks(s.threads[p]) && !Installs(s.threads[p])
    requires Rank(s.gate) <= 3 ==> s.workers == []
    ensures var next := ProceedPlain(s, p, ok);
            next == s || (Plain(s, p, next) && ThreadKept(next, p) && (next.gate == s.gate || s.gate == Activating))
  {
    hide IsFresh;
  }

  /** What a step of the thread with the commit may touch. */
  predicate Committing(s: State, p: nat, next: State)
    requires p < |s.threads|
  {
    && HasCommit(s.threads[p]) && |next.threads| == |s.threads| && next.threads == s.threads[p := next.threads[p]]
    && Rank(s.gate) > 3 && Rank(next.gate) > 3
    && (next.operation != s.operation ==> s.operation == Some(p))
    && (next.gate == CommitReserved || next.gate == CommitExecuting ==>
          HasCommit(next.threads[p]) || (next.workers != [] && next.workers[0] == Worker(Execute, Waiting)))
  }

  lemma CommitKeepsOthers(s: State, p: nat, next: State)
    requires Inv(s) && p < |s.threads| && Committing(s, p, next) && ThreadKept(next, p)
    ensures ThreadsKept(next) && OneCommit(next) && QuitKept(next)
  {
    hide WorkersKept, ActionKept, QuitKept;
    forall q | 0 <= q < |next.threads| ensures ThreadKept(next, q) { if q != p { assert ThreadKept(s, q); } }
    CommitInFlight(p, next);
  }

  lemma CommitInFlight(p: nat, next: State)
    requires p < |next.threads|
    requires next.gate == CommitReserved || next.gate == CommitExecuting ==>
      HasCommit(next.threads[p]) || (next.workers != [] && next.workers[0] == Worker(Execute, Waiting))
    ensures QuitKept(next)
  {
  }

  lemma CommitKeepsInv(s: State, p: nat, ok: bool)
    requires Inv(s) && p < |s.threads| && HasCommit(s.threads[p])
    ensures Inv(Proceed(s, p, ok))
  {
    hide LogKept, IsFresh, QuitKept, OneCommit, WorkersKept, ActionKept, ThreadsKept, Proceed;
    CommitMoves(s, p, ok);
    CommitKeepsOthers(s, p, Proceed(s, p, ok));
    CommitKeepsWorkers(s, p, ok);
  }

  lemma CommitMoves(s: State, p: nat, ok: bool)
    requires ThreadsKept(s) && p < |s.threads| && HasCommit(s.threads[p])
    ensures Committing(s, p, Proceed(s, p, ok)) && ThreadKept(Proceed(s, p, ok), p)
  {
    hide ThreadsKept, ProceedPlain, ProceedCommit, Committing;
    ThreadHolds(s, p);
    CommitIsCommitting(s, p, ok);
    CommitKeepsThread(s, p, ok);
  }

  lemma CommitIsCommitting(s: State, p: nat, ok: bool)
    requires p < |s.threads| && ThreadKept(s, p) && HasCommit(s.threads[p])
    ensures Committing(s, p, ProceedCommit(s, p, ok))
  {
  }

  lemma CommitKeepsThread(s: State, p: nat, ok: bool)
    requires p < |s.threads| && ThreadKept(s, p) && HasCommit(s.threads[p])
    ensures ThreadKept(ProceedCommit(s, p, ok), p)
  {
  }

  lemma CommitKeepsWorkers(s: State, p: nat, ok: bool)
    requires ThreadsKept(s) && WorkersKept(s) && ActionKept(s) && p < |s.threads| && HasCommit(s.threads[p])
    ensures WorkersKept(Proceed(s, p, ok)) && ActionKept(Proceed(s, p, ok))
  {
    hide LogKept;
    var next := Proceed(s, p, ok);
    assert ThreadKept(s, p);
    if next.log != s.log { LogGrows(s.log, ReplyFlushed(0)); }
    assert s.threads[p].Reserved? || WorkerKept(s, 0);
  }

  lemma WorkKeepsInv(s: State, w: nat, ok: bool)
    requires Inv(s) && w < |s.workers|
    ensures Inv(WorkStep(s, w, ok))
  {
    hide LogKept, QuitKept, ThreadsKept, OneCommit;
    var next := WorkStep(s, w, ok);
    assert WorkerKept(s, w);
    if s.workers[0].signal != NoSignal && next != s {
      RankOfCommitted(s);
      if next.log != s.log { LogGrows(s.log, ActionRan(0)); }
      WorkKeepsThreads(s, next);
    }
  }

  lemma RankOfCommitted(s: State)
    requires Inv(s) && s.workers != []
    ensures Rank(s.gate) > 3
  {
  }

  /** Once the worker has its signal no thread answers for the commit any more. */
  lemma WorkKeepsThreads(s: State, next: State)
    requires Inv(s) && |s.workers| == 1 && |next.workers| == 1 && s.workers[0].signal != NoSignal
    requires next == s.(workers := next.workers, gate := next.gate, log := next.log)
    requires Rank(s.gate) > 3 && Rank(next.gate) > 3
    requires next.gate == CommitReserved || next.gate == CommitExecuting ==>
      next.workers[0].signal == Execute && next.workers[0].phase == Running
    ensures ThreadsKept(next) && OneCommit(next) && QuitKept(next)
  {
    hide ActionKept;
    forall q | 0 <= q < |next.threads| ensures ThreadKept(next, q) && !HasCommit(next.threads[q]) { assert ThreadKept(s, q); }
  }

  lemma StepKeepsInv(s: State, move: Move)
    requires Inv(s)
    ensures Inv(Step(s, move))
  {
    hide ThreadKept, WorkerKept, LogKept, Proceed, WorkStep, Start;
    match move
    case Begin(p, task) => if p < |s.threads| && s.threads[p].Idle? { StartKeepsInv(s, p, task); }
    case Advance(p, ok) =>
      if p < |s.threads| { if HasCommit(s.threads[p]) { CommitKeepsInv(s, p, ok); } else { PlainKeepsInv(s, p, ok); } }
    case Work(w, ok) => if w < |s.workers| { WorkKeepsInv(s, w, ok); }
    case _ => Unmoved(s, Step(s, move));
  }

  /** Time and ownership are not part of the invariant. */
  lemma Unmoved(s: State, next: State)
    requires Inv(s) && next == s.(now := next.now, owned := next.owned)
    ensures Inv(next)
  {
    forall q | 0 <= q < |next.threads| ensures ThreadKept(next, q) { assert ThreadKept(s, q); }
    forall w | 0 <= w < |next.workers| ensures WorkerKept(next, w) { assert WorkerKept(s, w); }
  }

  /** No step moves the gate back, and a disabled gate stays disabled. */
  lemma GateOnlyAdvances(s: State, move: Move)
    requires Inv(s)
    ensures Rank(s.gate) <= Rank(Step(s, move).gate) && (s.gate == Disabled ==> Step(s, move).gate == Disabled)
  {
    hide LogKept, ProceedPlain, ProceedCommit, OneCommit, QuitKept, ActionKept;
    match move
    case Advance(p, ok) =>
      if p < |s.threads| {
        assert ThreadKept(s, p);
        if HasCommit(s.threads[p]) { CommitMoves(s, p, ok); CommitAdvances(s, p, ok); } else { PlainAdvances(s, p, ok); }
      }
    case Work(w, ok) => if w < |s.workers| { assert WorkerKept(s, w); }
    case _ =>
  }

  lemma CommitAdvances(s: State, p: nat, ok: bool)
    requires p < |s.threads| && ThreadKept(s, p) && HasCommit(s.threads[p])
    ensures Rank(s.gate) <= Rank(ProceedCommit(s, p, ok).gate) && s.gate != Disabled
  {
  }

  lemma PlainAdvances(s: State, p: nat, ok: bool)
    requires p < |s.threads| && ThreadKept(s, p) && !HasCommit(s.threads[p])
    ensures var next := ProceedPlain(s, p, ok);
            Rank(s.gate) <= Rank(next.gate) && (s.gate == Disabled ==> next.gate == Disabled)
  {
    hide IsFresh, Generation;
  }

  // ---------------------------------------------------------------- whole runs

  lemma {:induction false} RunKeepsInv(s: State, moves: seq<Move>)
    requires Inv(s)
    ensures Inv(Run(s, moves)) && Rank(s.gate) <= Rank(Run(s, moves).gate)
    decreases |moves|
  {
    if moves != [] {
      StepKeepsInv(s, moves[0]);
      GateOnlyAdvances(s, moves[0]);
      RunKeepsInv(Step(s, moves[0]), moves[1..]);
    }
  }

  lemma LaunchInv(enabled: bool, threads: nat)
    ensures Inv(Launch(enabled, threads))
  {
  }

  /** At most one commit: however checks, installs, sweeps, reply writes and workers interleave, the update
      action runs at most once, and only after the reply that promised it was flushed. */
  lemma ActionRunsOnceAfterReply(enabled: bool, threads: nat, moves: seq<Move>)
    ensures var log := Run(Launch(enabled, threads), moves).log;
            forall k, w :: 0 <= k < |log| && log[k] == ActionRan(w) ==>
              && (exists j :: 0 <= j < k && log[j] == ReplyFlushed(w))
              && (forall i, v :: 0 <= i < |log| && log[i] == ActionRan(v) ==> i == k)
  {
    LaunchInv(enabled, threads);
    RunKeepsInv(Launch(enabled, threads), moves);
    var log := Run(Launch(enabled, threads), moves).log;
    forall k, w | 0 <= k < |log| && log[k] == ActionRan(w)
      ensures exists j :: 0 <= j < k && log[j] == ReplyFlushed(w)
      ensures forall i, v :: 0 <= i < |log| && log[i] == ActionRan(v) ==> i == k {
      assert log[k].ActionRan?;
    }
  }

  lemma {:induction false} RunsCompose(s: State, before: seq<Move>, after: seq<Move>)
    ensures Run(s, before + after) == Run(Run(s, before), after)
    decreases |before|
  {
    if before == [] {
      assert before + after == after;
    } else {
      assert (before + after)[0] == before[0] && (before + after)[1..] == before[1..] + after;
      RunsCompose(Step(s, before[0]), before[1..], after);
    }
  }

  /** Once the gate has left Ready it is never Ready again. */
  lemma ReadyIsNeverRegained(enabled: bool, threads: nat, before: seq<Move>, after: seq<Move>)
    ensures var s := Run(Launch(enabled, threads), before);
            Rank(s.gate) > Rank(Ready) ==> Rank(Run(Launch(enabled, threads), before + after).gate) > Rank(Ready)
  {
    LaunchInv(enabled, threads);
    RunKeepsInv(Launch(enabled, threads), before);
    RunsCompose(Launch(enabled, threads), before, after);
    RunKeepsInv(Run(Launch(enabled, threads), before), after);
  }

  /** The gate blocks a normal quit only while some thread still answers for the commit or the worker is
      still to finish it: no lost reply or lost signal leaves it blocked. */
  lemma QuitIsBlockedOnlyInFlight(enabled: bool, threads: nat, moves: seq<Move>)
    ensures var s := Run(Launch(enabled, threads), moves);
            s.gate == CommitReserved || s.gate == CommitExecuting ==> InFlight(s)
  {
    LaunchInv(enabled, threads);
    RunKeepsInv(Launch(enabled, threads), moves);
  }

  // ---------------------------------------------------------------- what is committed

  /** A commit was taken for a candidate stored before, within its time to live at the clock reading. */
  predicate CommitKept(log: seq<Event>, k: nat)
    requires k < |log|
  {
    log[k].CommitTaken? ==>
      IsFresh(log[k].candidate.checkedAt, log[k].clock) && exists j :: 0 <= j < k && log[j] == Stored(log[k].candidate)
  }

  predicate CandidateThreadKept(log: seq<Event>, now: nat, thread: Thread) {
    match thread
    case InstallTook(c) => Stored(c) in log
    case InstallFresh(c, clock) => Stored(c) in log && IsFresh(c.checkedAt, clock) && clock <= now
    case InstallPassed(c, clock) => Stored(c) in log && IsFresh(c.checkedAt, clock) && clock <= now
    case _ => true
  }

  predicate Taken(log: seq<Event>) { exists k :: 0 <= k < |log| && log[k].CommitTaken? }

  predicate CandidatesKept(s: State) {
    && (s.slot.Some? ==> Stored(s.slot.value) in s.log)
    && (forall p :: 0 <= p < |s.threads| ==> CandidateThreadKept(s.log, s.now, s.threads[p]))
    && (forall k :: 0 <= k < |s.log| ==> CommitKept(s.log, k))
    && (forall i, k :: 0 <= i < k < |s.log| && s.log[i].CommitTaken? ==> !s.log[k].CommitTaken?)
    && (Taken(s.log) ==> Rank(s.gate) > 3)
  }

  /** What one step of a thread may do to candidates and commits. */
  predicate CandidateMoves(s: State, p: nat, next: State)
    requires p < |s.threads|
  {
    && |next.threads| == |s.threads| && next.threads == s.threads[p := next.threads[p]] && next.now == s.now
    && CandidateThreadKept(next.log, next.now, next.threads[p])
    && (next.slot.Some? ==> Stored(next.slot.value) in next.log)
    && (next.log == s.log
        || (|next.log| == |s.log| + 1 && next.log == s.log + [next.log[|s.log|]]
            && (next.log[|s.log|].CommitTaken? ==>
                  s.gate == Ready && next.gate == CommitReserved
                  && s.threads[p] == InstallPassed(next.log[|s.log|].candidate, next.log[|s.log|].clock))))
    && (Rank(s.gate) > 3 ==> Rank(next.gate) > 3)
  }

  lemma CandidateMoveKept(s: State, p: nat, next: State)
    requires CandidatesKept(s) && p < |s.threads| && CandidateMoves(s, p, next)
    ensures CandidatesKept(next)
  {
    hide IsFresh;
    assert CandidateThreadKept(s.log, s.now, s.threads[p]);
    LogStays(s.log, next.log);
    forall q | 0 <= q < |next.threads| ensures CandidateThreadKept(next.log, next.now, next.threads[q]) {
      assert CandidateThreadKept(s.log, s.now, s.threads[q]);
    }
    forall k | 0 <= k < |next.log| ensures CommitKept(next.log, k) {
      if k < |s.log| {
        CommitStays(s.log, next.log, k);
      } else if next.log[k].CommitTaken? {
        var j :| 0 <= j < |s.log| && s.log[j] == Stored(next.log[k].candidate);
        assert next.log[j] == s.log[j];
      }
    }
    if Taken(next.log) && next.log != s.log && !next.log[|s.log|].CommitTaken? {
      var k :| 0 <= k < |next.log| && next.log[k].CommitTaken?;
      assert s.log[k].CommitTaken?;
    }
  }

  lemma LogStays(log: seq<Event>, next: seq<Event>)
    requires log <= next
    ensures forall e :: e in log ==> e in next
    ensures forall k :: 0 <= k < |log| ==> next[k] == log[k]
  {
  }

  lemma CommitStays(log: seq<Event>, next: seq<Event>, k: nat)
    requires log <= next && k < |log| && CommitKept(log, k)
    ensures CommitKept(next, k)
  {
    hide IsFresh;
    if log[k].CommitTaken? {
      var j :| 0 <= j < k && log[j] == Stored(log[k].candidate);
      assert next[j] == log[j];
    }
  }

  lemma CheckMovesCandidates(s: State, p: nat, ok: bool)
    requires p < |s.threads| && Checks(s.threads[p]) && (s.slot.Some? ==> Stored(s.slot.value) in s.log)
    ensures CandidateMoves(s, p, ProceedCheck(s, p, ok))
  {
    hide Generation, IsFresh;
  }

  lemma InstallMovesCandidates(s: State, p: nat, ok: bool)
    requires p < |s.threads| && Installs(s.threads[p]) && (s.slot.Some? ==> Stored(s.slot.value) in s.log)
    requires CandidateThreadKept(s.log, s.now, s.threads[p])
    ensures CandidateMoves(s, p, ProceedInstall(s, p, ok))
  {
    hide IsFresh;
    var next := ProceedInstall(s, p, ok);
    if next.log != s.log { LogStays(s.log, next.log); }
  }

  lemma RestMovesCandidates(s: State, p: nat, ok: bool)
    requires p < |s.threads| && !Checks(s.threads[p]) && !Installs(s.threads[p]) && (s.slot.Some? ==> Stored(s.slot.value) in s.log)
    requires s.threads[p].ActivationBegun? ==> s.gate == Activating
    ensures CandidateMoves(s, p, ProceedRest(s, p, ok))
  {
    hide IsFresh;
  }

  lemma CommitMovesCandidates(s: State, p: nat, ok: bool)
    requires p < |s.threads| && HasCommit(s.threads[p]) && (s.slot.Some? ==> Stored(s.slot.value) in s.log) && Rank(s.gate) > 3
    ensures CandidateMoves(s, p, ProceedCommit(s, p, ok))
  {
    hide IsFresh;
    var next := ProceedCommit(s, p, ok);
    if next.log != s.log { LogStays(s.log, next.log); }
  }

  lemma ProceedMovesCandidates(s: State, p: nat, ok: bool)
    requires Inv(s) && CandidatesKept(s) && p < |s.threads|
    ensures CandidateMoves(s, p, Proceed(s, p, ok))
  {
    hide CandidateMoves, ProceedCheck, ProceedInstall, ProceedRest, ProceedCommit, CandidateThreadKept, CommitKept, LogKept, WorkersKept, QuitKept;
    assert ThreadKept(s, p) && CandidateThreadKept(s.log, s.now, s.threads[p]);
    if HasCommit(s.threads[p]) {
      CommitMovesCandidates(s, p, ok);
    } else if Checks(s.threads[p]) {
      CheckMovesCandidates(s, p, ok);
    } else if Installs(s.threads[p]) {
      InstallMovesCandidates(s, p, ok);
    } else {
      RestMovesCandidates(s, p, ok);
    }
  }

  lemma WorkMovesCandidates(s: State, w: nat, ok: bool)
    requires Inv(s) && CandidatesKept(s) && w < |s.workers|
    ensures CandidatesKept(WorkStep(s, w, ok))
  {
    hide IsFresh, LogKept, ThreadsKept, QuitKept, CommitKept, CandidateThreadKept;
    var next := WorkStep(s, w, ok);
    RankOfCommitted(s);
    LogStays(s.log, next.log);
    WorkedLog(s, w, ok);
    forall q | 0 <= q < |next.threads| ensures CandidateThreadKept(next.log, next.now, next.threads[q]) {
      ThreadStaysKept(s.log, next.log, s.now, s.threads[q]);
    }
    forall k | 0 <= k < |next.log| ensures CommitKept(next.log, k) {
      if k < |s.log| { CommitStays(s.log, next.log, k); } else { NoCommitHere(next.log, k); }
    }
  }

  lemma WorkedLog(s: State, w: nat, ok: bool)
    requires w < |s.workers| && Rank(s.gate) > 3 && WorkersKept(s)
    ensures var next := WorkStep(s, w, ok);
            && (next.log == s.log || next.log == s.log + [ActionRan(w)]) && next.threads == s.threads && next.slot == s.slot
            && next.now == s.now && Rank(next.gate) > 3
  {
  }

  lemma ThreadStaysKept(log: seq<Event>, next: seq<Event>, now: nat, thread: Thread)
    requires log <= next && CandidateThreadKept(log, now, thread)
    ensures CandidateThreadKept(next, now, thread)
  {
    hide IsFresh;
    LogStays(log, next);
  }

  lemma NoCommitHere(log: seq<Event>, k: nat)
    requires k < |log| && !log[k].CommitTaken?
    ensures CommitKept(log, k)
  {
  }

  lemma StepKeepsCandidates(s: State, move: Move)
    requires Inv(s) && CandidatesKept(s)
    ensures CandidatesKept(Step(s, move))
  {
    hide IsFresh, LogKept, Proceed, WorkStep, CommitKept, ThreadsKept, WorkersKept, OneCommit, QuitKept, ActionKept;
    match move
    case Advance(p, ok) =>
      if p < |s.threads| {
        ProceedMovesCandidates(s, p, ok);
        CandidateMoveKept(s, p, Proceed(s, p, ok));
      }
    case Work(w, ok) => if w < |s.workers| { WorkMovesCandidates(s, w, ok); }
    case _ =>
      forall q | 0 <= q < |s.threads| ensures CandidateThreadKept(s.log, Step(s, move).now, s.threads[q]) {
        assert CandidateThreadKept(s.log, s.now, s.threads[q]);
      }
  }

  lemma {:induction false} RunKeepsCandidates(s: State, moves: seq<Move>)
    requires Inv(s) && CandidatesKept(s)
    ensures CandidatesKept(Run(s, moves))
    decreases |moves|
  {
    if moves != [] {
      StepKeepsInv(s, moves[0]);
      StepKeepsCandidates(s, moves[0]);
      RunKeepsCandidates(Step(s, moves[0]), moves[1..]);
    }
  }

  /** A commit is taken at most once, and only for a candidate that a check had stored and that was within its
      time to live when an install that had it in hand looked at the clock. */
  lemma CommitIsForFreshCandidate(enabled: bool, threads: nat, moves: seq<Move>)
    ensures var log := Run(Launch(enabled, threads), moves).log;
            forall k: nat, c: Candidate, clock: nat :: 0 <= k < |log| && log[k] == CommitTaken(c, clock) ==>
              && c.checkedAt <= clock && clock - c.checkedAt <= 300_000
              && (exists j :: 0 <= j < k && log[j] == Stored(c))
              && (forall i :: 0 <= i < |log| && log[i].CommitTaken? ==> i == k)
  {
    LaunchInv(enabled, threads);
    RunKeepsCandidates(Launch(enabled, threads), moves);
    var log := Run(Launch(enabled, threads), moves).log;
    forall k: nat, c: Candidate, clock: nat | 0 <= k < |log| && log[k] == CommitTaken(c, clock)
      ensures c.checkedAt <= clock && clock - c.checkedAt <= 300_000 && exists j :: 0 <= j < k && log[j] == Stored(c) {
      assert CommitKept(log, k);
    }
  }

  // ---------------------------------------------------------------- one task by itself

  /** A thread takes `k` steps, all of which turn out well. */
  function Steps(s: State, p: nat, k: nat): State
    decreases k
  {
    if k == 0 then s else Steps(Step(s, Advance(p, true)), p, k - 1)
  }

  /** An activation that is not disturbed opens the gate. */
  lemma ActivationOpensGate(s: State, p: nat)
    requires p < |s.threads| && s.threads[p].Idle? && s.operation == None && s.gate == Inactive && s.owned
    ensures Steps(Step(s, Begin(p, Activate)), p, 1) == s.(gate := Ready, operation := None)
  {
    var a := Step(s, Begin(p, Activate));
    var b := Step(a, Advance(p, true));
    assert Steps(a, p, 1) == Steps(b, p, 0);
    assert b.threads == s.threads;
  }

  /** A check that is not disturbed stores a new candidate, checked now, in place of any other. */
  lemma CheckStores(s: State, p: nat)
    requires p < |s.threads| && s.threads[p].Idle? && s.operation == None && s.gate == Ready && s.owned
    ensures var candidate := Candidate(Generation(s.total + 1), s.total + 1, s.now);
            Steps(Step(s, Begin(p, Check)), p, 4)
            == s.(slot := Some(candidate), total := s.total + 1, log := s.log + [Stored(candidate)])
  {
    hide ProceedCommit, ProceedInstall, ProceedRest, WorkStep, Generation;
    var a := Step(s, Begin(p, Check));
    var b := Step(a, Advance(p, true));
    var c := Step(b, Advance(p, true));
    var d := Step(c, Advance(p, true));
    var e := Step(d, Advance(p, true));
    assert Steps(a, p, 4) == Steps(b, p, 3) == Steps(c, p, 2) == Steps(d, p, 1) == Steps(e, p, 0);
    assert e.threads == s.threads;
  }

  /** An install that is not disturbed takes the candidate: it reserves the commit if it is fresh, and otherwise
      ends with the slot empty and the gate ready. */
  lemma InstallTakesFresh(s: State, p: nat)
    requires p < |s.threads| && s.threads[p].Idle? && s.operation == None && s.gate == Ready && s.owned && s.slot.Some?
    ensures var begun := Step(s, Begin(p, Install));
            if IsFresh(s.slot.value.checkedAt, s.now)
            then Steps(begun, p, 5) == s.(slot := None, gate := CommitReserved, operation := Some(p), threads := s.threads[p := Reserved],
                                          log := s.log + [CommitTaken(s.slot.value, s.now)])
            else Steps(begun, p, 3) == s.(slot := None)
  {
    hide ProceedCommit, ProceedCheck, ProceedRest, WorkStep, IsFresh;
    var a := Step(s, Begin(p, Install));
    var b := Step(a, Advance(p, true));
    var c := Step(b, Advance(p, true));
    var d := Step(c, Advance(p, true));
    assert c.threads[p] == InstallTook(s.slot.value);
    if IsFresh(s.slot.value.checkedAt, s.now) {
      var e := Step(d, Advance(p, true));
      var f := Step(e, Advance(p, true));
      assert Steps(a, p, 5) == Steps(b, p, 4) == Steps(c, p, 3) == Steps(d, p, 2) == Steps(e, p, 1) == Steps(f, p, 0);
      assert f.threads == s.threads[p := Reserved];
    } else {
      assert Steps(a, p, 3) == Steps(b, p, 2) == Steps(c, p, 1) == Steps(d, p, 0);
      assert d.threads == s.threads;
    }
  }

  /** A reserved commit that is not disturbed: the reply is flushed, then the worker runs the update action and
      prepares the relaunch. */
  lemma CommitRuns(s: State, p: nat)
    requires Inv(s) && p < |s.threads| && s.threads[p].Reserved?
    ensures var told := Steps(s, p, 4);
            var ran := Step(Step(told, Work(0, true)), Work(0, true));
            && told.threads == s.threads[p := Idle] && told.gate == CommitExecuting
            && ran.gate == RelaunchPrepared && ran.workers == [Worker(Execute, Restarting)]
            && ran.log == s.log + [ReplyFlushed(0), ActionRan(0)]
  {
    hide LogKept, QuitKept, OneCommit, WorkersKept, ActionKept, Steps, Step;
    assert ThreadKept(s, p);
    WorkerIsTold(s, p);
    WorkerActs(Steps(s, p, 4));
    assert s.log + [ReplyFlushed(0)] + [ActionRan(0)] == s.log + [ReplyFlushed(0), ActionRan(0)];
  }

  lemma WorkerIsTold(s: State, p: nat)
    requires p < |s.threads| && s.threads[p].Reserved? && s.gate == CommitReserved && s.workers == []
    ensures var told := Steps(s, p, 4);
            && told.threads == s.threads[p := Idle] && told.gate == CommitExecuting && told.workers == [Worker(Execute, Waiting)]
            && told.log == s.log + [ReplyFlushed(0)]
  {
    hide Step;
    var a := Step(s, Advance(p, true));
    var b := Step(a, Advance(p, true));
    var c := Step(b, Advance(p, true));
    var d := Step(c, Advance(p, true));
    ReplyIsFlushed(s, p);
    SignalIsSent(b, p);
    assert Steps(s, p, 4) == Steps(a, p, 3) == Steps(b, p, 2) == Steps(c, p, 1) == Steps(d, p, 0);
  }

  lemma ReplyIsFlushed(s: State, p: nat)
    requires p < |s.threads| && s.threads[p].Reserved? && s.gate == CommitReserved && s.workers == []
    ensures var b := Step(Step(s, Advance(p, true)), Advance(p, true));
            && b.threads == s.threads[p := Flushed(0)] && b.gate == CommitReserved && b.workers == [Worker(NoSignal, Waiting)]
            && b.log == s.log + [ReplyFlushed(0)]
  {
    hide ProceedPlain, WorkStep;
    var a := Step(s, Advance(p, true));
    assert a == s.(workers := [Worker(NoSignal, Waiting)], operation := None, threads := s.threads[p := Replying(0)]);
  }

  lemma SignalIsSent(s: State, p: nat)
    requires p < |s.threads| && s.threads[p] == Flushed(0) && s.gate == CommitReserved && s.workers == [Worker(NoSignal, Waiting)]
    ensures var d := Step(Step(s, Advance(p, true)), Advance(p, true));
            && d.threads == s.threads[p := Idle] && d.gate == CommitExecuting && d.workers == [Worker(Execute, Waiting)] && d.log == s.log
  {
    hide ProceedPlain, WorkStep;
    var c := Step(s, Advance(p, true));
    assert c == s.(gate := CommitExecuting, threads := s.threads[p := Sending(0)]);
  }

  lemma WorkerActs(s: State)
    requires s.workers == [Worker(Execute, Waiting)] && s.gate == CommitExecuting
    ensures var ran := Step(Step(s, Work(0, true)), Work(0, true));
            ran.gate == RelaunchPrepared && ran.workers == [Worker(Execute, Restarting)] && ran.log == s.log + [ActionRan(0)]
  {
    hide Proceed;
  }

  /** What becomes of an action, exactly: one that fails, or finds the gate moved on, leaves it failed; one that works
      prepares the relaunch, and a relaunch that fails leaves the gate failed. A worker told otherwise does nothing. */
  lemma WorkerEnds(s: State, ok: bool)
    requires |s.workers| == 1
    ensures var next, worker := Step(s, Work(0, ok)), s.workers[0];
            && (worker == Worker(Execute, Running) ==>
                  if ok && s.gate == CommitExecuting then next.gate == RelaunchPrepared && next.workers == [Worker(Execute, Restarting)]
                  else next.gate == Failed && next.workers == [Worker(Execute, Finished)])
            && (worker == Worker(Execute, Restarting) ==>
                  next.workers == [Worker(Execute, Finished)] && next.gate == if ok then s.gate else Failed)
            && (worker.phase == Waiting && worker.signal in {Cancel, Closed} ==>
                  next.workers == [worker.(phase := Finished)] && next.gate == CommitLost && next.log == s.log)
            && (worker.phase == Finished || worker == Worker(NoSignal, Waiting) ==> next == s)
  {
    hide Proceed, Start;
  }

  /** What was fetched is stored, whatever has happened to gate or ownership since. */
  lemma FetchedIsStored(s: State, p: nat)
    requires p < |s.threads| && s.threads[p].CheckFetched?
    ensures var candidate := Candidate(Generation(s.total + 1), s.total + 1, s.now);
            Steps(s, p, 2) == s.(slot := Some(candidate), total := s.total + 1, operation := None, threads := s.threads[p := Idle],
                                 log := s.log + [Stored(candidate)])
  {
    hide ProceedCommit, ProceedInstall, ProceedRest, WorkStep, Generation;
    var a := Step(s, Advance(p, true));
    var b := Step(a, Advance(p, true));
    assert Steps(s, p, 2) == Steps(a, p, 1) == Steps(b, p, 0);
    assert b.threads == s.threads[p := Idle];
  }

  /** Wherever a check or an install looks for a ready gate and for ownership, it ends there if either is missing,
      and leaves everything else as it is. */
  lemma NotReadyEndsTask(s: State, p: nat, ok: bool)
    requires p < |s.threads| && (s.gate != Ready || !s.owned)
    requires s.threads[p].CheckBegun? || s.threads[p].CheckCleared? || s.threads[p].InstallBegun? || s.threads[p].InstallFresh?
    ensures Step(s, Advance(p, ok)) == s.(threads := s.threads[p := Idle], operation := None)
  {
    hide ProceedCommit, ProceedRest;
  }

  /** Ownership is lost, the gate is not ready for lack of it or beyond, and no install is past its last look. */
  predicate Shut(s: State) { !s.owned && forall p :: 0 <= p < |s.threads| ==> !s.threads[p].InstallPassed? }

  predicate NeverReady(s: State) { !s.owned && s.gate != Ready }

  lemma ShutStays(s: State, move: Move)
    ensures Shut(s) ==> Shut(Step(s, move))
    ensures Shut(s) && Step(s, move).log != s.log ==>
              |Step(s, move).log| == |s.log| + 1 && s.log <= Step(s, move).log && !Step(s, move).log[|s.log|].CommitTaken?
    ensures NeverReady(s) ==> NeverReady(Step(s, move))
  {
    hide IsFresh, Generation;
    match move
    case Advance(p, ok) => if p < |s.threads| { ShutStaysProceeding(s, p, ok); }
    case _ =>
  }

  /** What one step of a thread keeps of a loss. */
  predicate LossKept(s: State, next: State) {
    && (Shut(s) ==> Shut(next))
    && (Shut(s) && next.log != s.log ==> |next.log| == |s.log| + 1 && s.log <= next.log && !next.log[|s.log|].CommitTaken?)
    && (NeverReady(s) ==> NeverReady(next))
  }

  lemma ShutStaysProceeding(s: State, p: nat, ok: bool)
    requires p < |s.threads|
    ensures LossKept(s, Proceed(s, p, ok))
  {
    hide LossKept, ProceedCommit, ProceedCheck, ProceedInstall, ProceedRest;
    LossInCommit(s, p, ok);
    LossInCheck(s, p, ok);
    LossInInstall(s, p, ok);
    LossInRest(s, p, ok);
  }

  lemma LossInCommit(s: State, p: nat, ok: bool)
    requires p < |s.threads|
    ensures LossKept(s, ProceedCommit(s, p, ok))
  {
    OneThread(s, p, ProceedCommit(s, p, ok));
  }

  lemma LossInCheck(s: State, p: nat, ok: bool)
    requires p < |s.threads|
    ensures LossKept(s, ProceedCheck(s, p, ok))
  {
    hide Generation;
    OneThread(s, p, ProceedCheck(s, p, ok));
  }

  lemma LossInInstall(s: State, p: nat, ok: bool)
    requires p < |s.threads|
    ensures LossKept(s, ProceedInstall(s, p, ok))
  {
    hide IsFresh;
    OneThread(s, p, ProceedInstall(s, p, ok));
  }

  lemma LossInRest(s: State, p: nat, ok: bool)
    requires p < |s.threads|
    ensures LossKept(s, ProceedRest(s, p, ok))
  {
    hide IsFresh;
    OneThread(s, p, ProceedRest(s, p, ok));
  }

  lemma OneThread(s: State, p: nat, next: State)
    requires p < |s.threads|
    requires |next.threads| == |s.threads| && next.threads == s.threads[p := next.threads[p]]
    ensures !next.owned && Shut(s) && !next.threads[p].InstallPassed? ==> Shut(next)
  {
  }

  /** Once ownership is lost, no commit is taken but by an install that had passed its last look, and a gate that
      was not ready never is. */
  lemma {:induction false} LossStopsCommits(s: State, moves: seq<Move>)
    ensures Shut(s) ==>
              var log := Run(s, moves).log; s.log <= log && forall k :: |s.log| <= k < |log| ==> !log[k].CommitTaken?
    ensures NeverReady(s) ==> NeverReady(Run(s, moves))
    decreases |moves|
  {
    hide Step, Shut, NeverReady;
    if moves != [] {
      ShutStays(s, moves[0]);
      LossStopsCommits(Step(s, moves[0]), moves[1..]);
    }
  }

  // ---------------------------------------------------------------- the expiry sweep

  predicate CandidateKept(s: State, candidate: Candidate) {
    candidate.ticket <= s.total && candidate.generation == Generation(candidate.ticket) && candidate.checkedAt <= s.now
  }

  predicate SlotThreadKept(s: State, p: nat)
    requires p < |s.threads|
  {
    match s.threads[p]
    case CheckCleared => s.operation == Some(p) && s.slot == None
    case CheckFetched => s.operation == Some(p) && s.slot == None
    case CheckNumbered(ticket) => ticket <= s.total && s.operation == Some(p) && s.slot == None
    case SweepTimed(clock) => clock <= s.now
    case SweepSaw(seen, clock) =>
      && clock <= s.now && CandidateKept(s, seen) && !IsFresh(seen.checkedAt, clock)
      && (s.slot.Some? ==> seen.ticket < s.slot.value.ticket || s.slot == Some(seen))
    case _ => true
  }

  /** The slot only ever moves to newer candidates; a sweep saw one that the slot had before. */
  predicate SlotKept(s: State) {
    && (s.slot.Some? ==> CandidateKept(s, s.slot.value))
    && (forall p :: 0 <= p < |s.threads| ==> SlotThreadKept(s, p))
    && SweepsAreOlder(s)
  }

  predicate SweepsAreOlder(s: State) {
    forall p, q :: 0 <= p < |s.threads| && 0 <= q < |s.threads| && s.threads[p].CheckNumbered? && s.threads[q].SweepSaw? ==>
      s.threads[q].candidate.ticket < s.threads[p].ticket
  }

  /** What one step of a thread may do to the slot. */
  predicate SlotMoves(s: State, p: nat, next: State)
    requires p < |s.threads|
  {
    && |next.threads| == |s.threads| && next.threads == s.threads[p := next.threads[p]]
    && next.now == s.now && s.total <= next.total
    && (next.operation != s.operation ==> s.operation == None || s.operation == Some(p))
    && (|| next.slot == s.slot || next.slot == None
        || (s.threads[p].CheckNumbered? && next.slot == Some(Candidate(Generation(s.threads[p].ticket), s.threads[p].ticket, s.now))))
    && match next.threads[p]
       case CheckCleared => next.operation == Some(p) && next.slot == None
       case CheckFetched => next.operation == Some(p) && next.slot == None
       case CheckNumbered(ticket) => ticket == next.total == s.total + 1 && next.operation == Some(p) && next.slot == s.slot == None
       case SweepTimed(clock) => clock == s.now || next.threads[p] == s.threads[p]
       case SweepSaw(seen, clock) => next.slot == s.slot == Some(seen) && clock <= s.now && !IsFresh(seen.checkedAt, clock)
       case _ => true
  }

  lemma CheckMovesSlot(s: State, p: nat, ok: bool)
    requires p < |s.threads| && SlotThreadKept(s, p) && s.operation == Some(p) && Checks(s.threads[p])
    ensures SlotMoves(s, p, ProceedCheck(s, p, ok))
  {
    hide Generation;
  }

  lemma InstallMovesSlot(s: State, p: nat, ok: bool)
    requires p < |s.threads| && s.operation == Some(p) && Installs(s.threads[p])
    ensures SlotMoves(s, p, ProceedInstall(s, p, ok))
  {
    hide IsFresh, Generation;
  }

  lemma RestMovesSlot(s: State, p: nat, ok: bool)
    requires p < |s.threads| && SlotThreadKept(s, p) && !Checks(s.threads[p])
    requires HoldsOperation(s.threads[p]) ==> s.operation == Some(p)
    ensures SlotMoves(s, p, ProceedRest(s, p, ok))
  {
    hide IsFresh, Generation;
  }

  lemma PlainMovesSlot(s: State, p: nat, ok: bool)
    requires p < |s.threads| && SlotThreadKept(s, p) && (HoldsOperation(s.threads[p]) ==> s.operation == Some(p))
    ensures SlotMoves(s, p, ProceedPlain(s, p, ok))
  {
    hide SlotMoves, ProceedCheck, ProceedInstall, ProceedRest, SlotThreadKept;
    if Checks(s.threads[p]) {
      CheckMovesSlot(s, p, ok);
    } else if Installs(s.threads[p]) {
      InstallMovesSlot(s, p, ok);
    } else {
      RestMovesSlot(s, p, ok);
    }
  }

  lemma CommitMovesSlot(s: State, p: nat, ok: bool)
    requires p < |s.threads| && (HoldsOperation(s.threads[p]) ==> s.operation == Some(p)) && HasCommit(s.threads[p])
    ensures SlotMoves(s, p, ProceedCommit(s, p, ok))
  {
    hide Generation;
  }

  lemma ProceedMovesSlot(s: State, p: nat, ok: bool)
    requires ThreadsKept(s) && SlotKept(s) && p < |s.threads|
    ensures SlotMoves(s, p, Proceed(s, p, ok))
  {
    hide ThreadKept, SlotMoves, ProceedPlain, ProceedCommit, SweepsAreOlder;
    assert SlotThreadKept(s, p);
    ThreadHolds(s, p);
    if HasCommit(s.threads[p]) { CommitMovesSlot(s, p, ok); } else { PlainMovesSlot(s, p, ok); }
  }

  lemma SlotMoveKept(s: State, p: nat, next: State)
    requires SlotKept(s) && p < |s.threads| && SlotMoves(s, p, next)
    ensures SlotKept(next)
  {
    hide Generation;
    assert SlotThreadKept(s, p);
    forall q | 0 <= q < |next.threads| ensures SlotThreadKept(next, q) { assert SlotThreadKept(s, q); }
    forall q, r | 0 <= q < |next.threads| && 0 <= r < |next.threads| && next.threads[q].CheckNumbered? && next.threads[r].SweepSaw?
      ensures next.threads[r].candidate.ticket < next.threads[q].ticket {
      assert SlotThreadKept(s, q) && SlotThreadKept(s, r);
    }
  }

  lemma ThreadHolds(s: State, p: nat)
    requires ThreadsKept(s) && p < |s.threads|
    ensures ThreadKept(s, p) && (HoldsOperation(s.threads[p]) ==> s.operation == Some(p))
  {
    assert ThreadKept(s, p);
  }

  lemma StepKeepsSlot(s: State, move: Move)
    requires Inv(s) && SlotKept(s)
    ensures SlotKept(Step(s, move))
  {
    hide WorkersKept, OneCommit, QuitKept, ActionKept, ThreadKept, IsFresh, Proceed, SlotMoves, SlotKept, Start;
    match move
    case Advance(p, ok) =>
      if p < |s.threads| {
        ProceedMovesSlot(s, p, ok);
        SlotMoveKept(s, p, Proceed(s, p, ok));
      }
    case Begin(p, task) =>
      if p < |s.threads| && s.threads[p].Idle? {
        StartMovesSlot(s, p, task);
        SlotMoveKept(s, p, Start(s, p, task));
      }
    case Work(_, _) => SlotUnmoved(s, Step(s, move));
    case _ => SlotUnmoved(s, Step(s, move));
  }

  lemma StartMovesSlot(s: State, p: nat, task: Task)
    requires p < |s.threads| && s.threads[p].Idle?
    ensures SlotMoves(s, p, Start(s, p, task))
  {
  }

  lemma SlotUnmoved(s: State, next: State)
    requires SlotKept(s) && next.slot == s.slot && next.threads == s.threads && next.total == s.total
    requires next.operation == s.operation && s.now <= next.now
    ensures SlotKept(next)
  {
    forall q | 0 <= q < |s.threads| ensures SlotThreadKept(next, q) { assert SlotThreadKept(s, q); }
  }

  lemma {:induction false} RunKeepsSlot(s: State, moves: seq<Move>)
    requires Inv(s) && SlotKept(s)
    ensures Inv(Run(s, moves)) && SlotKept(Run(s, moves))
    decreases |moves|
  {
    if moves != [] {
      StepKeepsInv(s, moves[0]);
      StepKeepsSlot(s, moves[0]);
      RunKeepsSlot(Step(s, moves[0]), moves[1..]);
    }
  }

  /** From its first step on, and until it stores, a check leaves no candidate that an install could take. */
  lemma CheckForgetsOld(enabled: bool, threads: nat, moves: seq<Move>, p: nat)
    ensures var s := Run(Launch(enabled, threads), moves);
            p < |s.threads| && (s.threads[p].CheckCleared? || s.threads[p].CheckFetched? || s.threads[p].CheckNumbered?) ==> s.slot == None
  {
    hide Run;
    LaunchInv(enabled, threads);
    RunKeepsSlot(Launch(enabled, threads), moves);
    var s := Run(Launch(enabled, threads), moves);
    if p < |s.threads| { assert SlotThreadKept(s, p); }
  }

  /** What a sweep discards, exactly. It removes the candidate in the slot if and only if the stored
      generation is the one it saw; then that is the very candidate it saw, or one that a positive multiple
      of 2^64 checks later got the same generation again. */
  lemma SweepDiscards(enabled: bool, threads: nat, moves: seq<Move>, p: nat, ok: bool)
    requires var s := Run(Launch(enabled, threads), moves); p < |s.threads| && s.threads[p].SweepSaw? && s.slot.Some?
    ensures var s := Run(Launch(enabled, threads), moves);
            var seen, current := s.threads[p].candidate, s.slot.value;
            && seen.ticket <= current.ticket
            && (Step(s, Advance(p, ok)).slot == None <==> (current.ticket - seen.ticket) % WRAP == 0)
            && (Step(s, Advance(p, ok)).slot == None && current != seen ==> current.ticket - seen.ticket >= WRAP)
  {
    hide Run;
    LaunchInv(enabled, threads);
    RunKeepsSlot(Launch(enabled, threads), moves);
    var s := Run(Launch(enabled, threads), moves);
    hide *;
    SweepSlot(s, p, ok);
  }

  lemma SweepSlot(s: State, p: nat, ok: bool)
    requires SlotKept(s) && p < |s.threads| && s.threads[p].SweepSaw? && s.slot.Some?
    ensures var seen, current := s.threads[p].candidate, s.slot.value;
            && seen.ticket <= current.ticket
            && (Step(s, Advance(p, ok)).slot == None <==> (current.ticket - seen.ticket) % WRAP == 0)
            && (Step(s, Advance(p, ok)).slot == None && current != seen ==> current.ticket - seen.ticket >= WRAP)
  {
    hide Generation;
    assert SlotThreadKept(s, p);
    SameGeneration(s.threads[p].candidate.ticket, s.slot.value.ticket);
  }

  /** Generations agree for tickets a multiple of 2^64 apart. */
  lemma SameGeneration(a: nat, b: nat)
    requires a <= b
    ensures Generation(a) == Generation(b) <==> (b - a) % WRAP == 0
    ensures Generation(a) == Generation(b) && a < b ==> b - a >= WRAP
  {
  }

  /** Whether what a sweep removes was still good, exactly. In any run, when the last step of a sweep empties
      the slot, the candidate it removes is fresh at that moment if and only if it is within its time to live
      and was stored after the sweep read the clock, or is a newer one under the same generation. */
  lemma SweepDiscardsFreshExactly(enabled: bool, threads: nat, moves: seq<Move>, p: nat, ok: bool)
    requires var s := Run(Launch(enabled, threads), moves);
             && p < |s.threads| && s.threads[p].SweepSaw? && s.slot.Some? && Step(s, Advance(p, ok)).slot == None
    ensures var s := Run(Launch(enabled, threads), moves);
            var seen, clock, current := s.threads[p].candidate, s.threads[p].clock, s.slot.value;
            && clock <= s.now && current.checkedAt <= s.now
            && (IsFresh(current.checkedAt, s.now) <==>
                  s.now - current.checkedAt <= TTL && (current.checkedAt > clock || current.ticket - seen.ticket >= WRAP))
  {
    hide Run;
    LaunchInv(enabled, threads);
    RunKeepsSlot(Launch(enabled, threads), moves);
    var s := Run(Launch(enabled, threads), moves);
    SweepDiscards(enabled, threads, moves, p, ok);
    assert SlotThreadKept(s, p);
  }

  /** So a sweep that is not overtaken, neither by a check stored after its clock reading nor by 2^64 checks,
      removes only what has expired. */
  lemma UndisturbedSweepIsSafe(enabled: bool, threads: nat, moves: seq<Move>, p: nat, ok: bool)
    requires var s := Run(Launch(enabled, threads), moves);
             && p < |s.threads| && s.threads[p].SweepSaw? && s.slot.Some? && Step(s, Advance(p, ok)).slot == None
             && s.threads[p].candidate.checkedAt <= s.threads[p].clock && s.total < WRAP
    ensures var s := Run(Launch(enabled, threads), moves); !IsFresh(s.slot.value.checkedAt, s.now)
  {
    hide Run;
    LaunchInv(enabled, threads);
    RunKeepsSlot(Launch(enabled, threads), moves);
    SweepDiscards(enabled, threads, moves, p, ok);
    SweepDiscardsFreshExactly(enabled, threads, moves, p, ok);
  }

  function SweptMoves(): seq<Move> {
    [Begin(0, Activate), Advance(0, true), Begin(0, Check), Advance(0, true), Advance(0, true), Advance(0, true),
     Begin(1, Sweep), Tick(1), Advance(0, true), Advance(1, true)]
  }

  const SWEPT: State := State(Ready, None, Some(Candidate(1, 1, 1)), 1, true, 1, [Idle, SweepSaw(Candidate(1, 1, 1), 0)], [], [Stored(Candidate(1, 1, 1))])

  /** The second case does happen: a sweep that reads the clock just before a check stores its candidate
      discards that candidate, which is brand new. */
  lemma FreshCandidateIsSwept()
    ensures Run(Launch(true, 2), SweptMoves()) == SWEPT
    ensures IsFresh(SWEPT.slot.value.checkedAt, SWEPT.now) && Step(SWEPT, Advance(1, true)).slot == None
  {
    hide TwoMoves;
    SweptActivates();
    SweptChecks();
    SweptStores();
    SweptMovesAre(Launch(true, 2));
  }

  function Between(slot: Option<Candidate>, total: nat, now: nat, holder: Option<nat>, first: Thread, second: Thread): State {
    State(Ready, holder, slot, total, true, now, [first, second], [], [])
  }

  lemma SweptActivates()
    ensures TwoMoves(Launch(true, 2), Begin(0, Activate), Advance(0, true)) == Between(None, 0, 0, None, Idle, Idle)
    ensures TwoMoves(Between(None, 0, 0, None, Idle, Idle), Begin(0, Check), Advance(0, true))
         == Between(None, 0, 0, Some(0), CheckCleared, Idle)
  {
    hide ProceedCommit;
  }

  lemma SweptChecks()
    ensures TwoMoves(Between(None, 0, 0, Some(0), CheckCleared, Idle), Advance(0, true), Advance(0, true))
         == Between(None, 1, 0, Some(0), CheckNumbered(1), Idle)
    ensures TwoMoves(Between(None, 1, 0, Some(0), CheckNumbered(1), Idle), Begin(1, Sweep), Tick(1))
         == Between(None, 1, 1, Some(0), CheckNumbered(1), SweepTimed(0))
  {
    hide ProceedCommit;
  }

  lemma SweptStores()
    ensures TwoMoves(Between(None, 1, 1, Some(0), CheckNumbered(1), SweepTimed(0)), Advance(0, true), Advance(1, true)) == SWEPT
    ensures Step(SWEPT, Advance(1, true)).slot == None
  {
    hide ProceedCommit;
  }

  function TwoMoves(s: State, first: Move, second: Move): State { Step(Step(s, first), second) }

  lemma SweptMovesAre(s: State)
    ensures Run(s, SweptMoves())
         == TwoMoves(TwoMoves(TwoMoves(TwoMoves(TwoMoves(s, Begin(0, Activate), Advance(0, true)), Begin(0, Check), Advance(0, true)),
                                       Advance(0, true), Advance(0, true)), Begin(1, Sweep), Tick(1)), Advance(0, true), Advance(1, true))
  {
    hide Step;
    var moves := SweptMoves();
    var s1 := TwoMoves(s, moves[0], moves[1]);
    var s2 := TwoMoves(s1, moves[2], moves[3]);
    var s3 := TwoMoves(s2, moves[4], moves[5]);
    var s4 := TwoMoves(s3, moves[6], moves[7]);
    TwoSteps(s, moves);
    TwoSteps(s1, moves[2..]);
    assert moves[2..][2..] == moves[4..];
    TwoSteps(s2, moves[4..]);
    assert moves[4..][2..] == moves[6..];
    TwoSteps(s3, moves[6..]);
    assert moves[6..][2..] == moves[8..];
    TwoSteps(s4, moves[8..]);
    assert moves[8..][2..] == [];
  }

  lemma TwoSteps(s: State, moves: seq<Move>)
    requires |moves| >= 2
    ensures Run(s, moves) == Run(TwoMoves(s, moves[0], moves[1]), moves[2..])
  {
    hide Step;
    assert moves[1..][1..] == moves[2..];
  }
}
