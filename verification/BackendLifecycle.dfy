/** The backend host's ownership: one flag and one locked lifecycle record, used by any number of
    threads whose operations interleave between the flag, the process check and the lock. */
module BackendLifecycle {
  import opened Results
  import opened RecoveryMarkers

  /** What every lease of this host has in common; the process id is not zero. */
  datatype Identity = Identity(pid: U32, scope: string)

  datatype Operation = Capture | Revalidate(lease: Lease) | ReleaseGate

  /** Where a thread is: it began and saw the flag up at log position `at`, then saw the child running; or it has
      taken the flag down and has yet to invalidate the record. */
  datatype Thread = Idle | SawFlag(op: Operation, at: nat) | SawChild(op: Operation, at: nat) | TookFlagDown(phase: Phase)

  /** An operation begins by reading the flag, up or down; `Captured`, `Revalidated` and `GateReleased` are its
      successes. */
  datatype Event =
    | Begun(thread: nat, op: Operation, up: bool) | FlagTakenDown | Invalidated
    | Captured(thread: nat, lease: Lease) | Revalidated(thread: nat, lease: Lease) | GateReleased(thread: nat)

  datatype State = State(flag: bool, childRuns: bool, record: Lease, threads: seq<Thread>, log: seq<Event>)

  /** Who moves next, and what an idle thread begins. */
  datatype Move = Begin(thread: nat, op: Operation) | BeginRevoke(thread: nat, phase: Phase) | Continue(thread: nat) | ChildExits

  const MAX: nat := 0xFFFF_FFFF_FFFF_FFFF

  function Launch(id: Identity, threads: nat): State {
    State(true, true, Lease(1, GateHeld, id.pid, id.pid, id.pid, false, id.scope), seq(threads, i => Idle), [])
  }

  function Invalidate(record: Lease, phase: Phase): Lease {
    record.(generation := if record.generation == MAX then 1 else record.generation + 1, phase := phase, gateReleased := false)
  }

  /** The phase a revocation writes. */
  function RevokedPhase(phase: Phase): Phase { if phase == Terminating then Terminating else Invalid }

  predicate CaptureSucceeds(id: Identity, record: Lease) {
    && record.gateReleased && record.healthPid == id.pid && record.ownedPid == id.pid && record.processPid == id.pid
    && Eligible(record)
  }

  predicate RevalidateSucceeds(id: Identity, record: Lease, lease: Lease) {
    record == lease && lease.processPid == id.pid && Eligible(lease)
  }

  predicate ReleaseSucceeds(id: Identity, record: Lease) {
    && record.phase == GateHeld && !record.gateReleased
    && record.healthPid == id.pid && record.ownedPid == id.pid && record.processPid == id.pid
  }

  /** The section under the lock that ends an operation. */
  function Finish(id: Identity, s: State, t: nat, op: Operation): State
    requires t < |s.threads|
  {
    var idle := s.(threads := s.threads[t := Idle]);
    match op
    case Capture => if CaptureSucceeds(id, s.record) then idle.(log := s.log + [Captured(t, s.record)]) else idle
    case Revalidate(lease) => if RevalidateSucceeds(id, s.record, lease) then idle.(log := s.log + [Revalidated(t, lease)]) else idle
    case ReleaseGate =>
      if ReleaseSucceeds(id, s.record)
      then idle.(record := s.record.(phase := OwnedRunning, gateReleased := true), log := s.log + [GateReleased(t)])
      else idle
  }

  function TakeFlagDown(s: State, t: nat, phase: Phase): State
    requires t < |s.threads|
  {
    s.(flag := false, log := s.log + [FlagTakenDown], threads := s.threads[t := TookFlagDown(RevokedPhase(phase))])
  }

  /** One action of one thread. */
  function Step(id: Identity, s: State, move: Move): State {
    match move
    case ChildExits => s.(childRuns := false)
    case BeginRevoke(t, phase) => if t < |s.threads| && s.threads[t].Idle? then TakeFlagDown(s, t, phase) else s
    case Begin(t, op) =>
      if t >= |s.threads| || !s.threads[t].Idle? then s
      else if s.flag then s.(threads := s.threads[t := SawFlag(op, |s.log|)], log := s.log + [Begun(t, op, true)])
      else
        var begun := s.(log := s.log + [Begun(t, op, false)]);
        if op == ReleaseGate then TakeFlagDown(begun, t, Invalid) else begun
    case Continue(t) =>
      if t >= |s.threads| then s
      else
        match s.threads[t]
        case Idle => s
        case SawFlag(op, at) =>
          s.(threads := s.threads[t := if s.childRuns then SawChild(op, at) else Idle])
        case SawChild(op, _) => Finish(id, s, t, op)
        case TookFlagDown(phase) =>
          s.(threads := s.threads[t := Idle], record := Invalidate(s.record, phase), log := s.log + [Invalidated])
  }

  function Run(id: Identity, s: State, moves: seq<Move>): State
    decreases |moves|
  {
    if moves == [] then s else Run(id, Step(id, s, moves[0]), moves[1..])
  }

  // ---------------------------------------------------------------- invariant

  predicate Before(log: seq<Event>, k: nat, event: Event) { exists j :: 0 <= j < k && j < |log| && log[j] == event }

  /** The one lease this host ever hands out. */
  function TheLease(id: Identity): Lease { Lease(1, OwnedRunning, id.pid, id.pid, id.pid, true, id.scope) }

  /** The thread and the operation that an event is the success of. */
  function Success(event: Event): Option<(nat, Operation)> {
    match event
    case Captured(t, _) => Some((t, Capture))
    case Revalidated(t, lease) => Some((t, Revalidate(lease)))
    case GateReleased(t) => Some((t, ReleaseGate))
    case _ => None
  }

  predicate IsBy(event: Event, t: nat) {
    (event.Begun? && event.thread == t) || (Success(event).Some? && Success(event).value.0 == t)
  }

  /** Thread `t` began this operation at `at`, seeing the flag that nobody had taken down yet, and has neither
      begun nor completed another before `k`. */
  predicate RunningSince(log: seq<Event>, at: nat, k: nat, t: nat, op: Operation) {
    && at < k <= |log| && log[at] == Begun(t, op, true) && !Before(log, at, FlagTakenDown)
    && forall j :: at < j < k ==> !IsBy(log[j], t)
  }

  /** The operation that succeeded at `k` had begun, itself, before anyone took the flag down, and nothing had
      been invalidated yet. */
  predicate Timely(log: seq<Event>, k: nat)
    requires k < |log|
  {
    Success(log[k]).Some? ==>
      && !Before(log, k, Invalidated)
      && exists at :: 0 <= at < k && RunningSince(log, at, k, Success(log[k]).value.0, Success(log[k]).value.1)
  }

  predicate LeaseIsTheLease(id: Identity, event: Event) {
    match event
    case Captured(_, lease) => lease == TheLease(id)
    case Revalidated(_, lease) => lease == TheLease(id)
    case _ => true
  }

  predicate ThreadKept(log: seq<Event>, t: nat, thread: Thread) {
    match thread
    case SawFlag(op, at) => RunningSince(log, at, |log|, t, op)
    case SawChild(op, at) => RunningSince(log, at, |log|, t, op)
    case TookFlagDown(phase) => phase == Terminating || phase == Invalid
    case Idle => true
  }

  /** Some thread has released the startup gate. */
  predicate Released(log: seq<Event>) { exists k :: 0 <= k < |log| && log[k].GateReleased? }

  lemma ReleasedLast(log: seq<Event>, last: Event)
    ensures Released(log + [last]) <==> Released(log) || last.GateReleased?
  {
    if k :| 0 <= k < |log| && log[k].GateReleased? { assert (log + [last])[k] == log[k]; }
    assert (log + [last])[|log|] == last;
  }

  predicate RecordKept(id: Identity, record: Lease, log: seq<Event>) {
    if Before(log, |log|, Invalidated) then (record.phase == Terminating || record.phase == Invalid) && !record.gateReleased
    else if Released(log) then record == TheLease(id)
    else record == TheLease(id).(phase := GateHeld, gateReleased := false)
  }

  ghost predicate Inv(id: Identity, s: State) {
    && RecordKept(id, s.record, s.log)
    && (s.flag ==> !Before(s.log, |s.log|, FlagTakenDown))
    && (forall t :: 0 <= t < |s.threads| ==> ThreadKept(s.log, t, s.threads[t]))
    && (forall k :: 0 <= k < |s.log| ==> Timely(s.log, k) && LeaseIsTheLease(id, s.log[k]))
  }

  lemma BeforeExtends(log: seq<Event>, more: seq<Event>, k: nat, event: Event)
    requires k <= |log|
    ensures Before(log + more, k, event) <==> Before(log, k, event)
  {
    if Before(log, k, event) {
      var j :| 0 <= j < k && j < |log| && log[j] == event;
      assert (log + more)[j] == event;
    }
  }

  lemma BeforeLast(log: seq<Event>, last: Event, event: Event)
    ensures Before(log + [last], |log| + 1, event) <==> Before(log, |log|, event) || last == event
  {
    if Before(log, |log|, event) {
      var j :| 0 <= j < |log| && log[j] == event;
      assert (log + [last])[j] == event;
    }
    if last == event { assert (log + [last])[|log|] == event; }
  }

  lemma RunningExtends(log: seq<Event>, last: Event, at: nat, k: nat, t: nat, op: Operation)
    requires RunningSince(log, at, k, t, op)
    ensures at < k && RunningSince(log + [last], at, k, t, op)
    ensures k == |log| && !IsBy(last, t) ==> RunningSince(log + [last], at, k + 1, t, op)
  {
    hide Before, IsBy;
    BeforeExtends(log, [last], at, FlagTakenDown);
    forall j | at < j < k ensures !IsBy((log + [last])[j], t) { assert (log + [last])[j] == log[j]; }
  }

  /** Appending an event keeps what the invariant says about earlier ones, and about every thread but its own. */
  lemma HistoryKept(id: Identity, s: State, last: Event)
    requires Inv(id, s)
    ensures forall k :: 0 <= k < |s.log| ==> Timely(s.log + [last], k) && LeaseIsTheLease(id, (s.log + [last])[k])
    ensures forall t :: 0 <= t < |s.threads| && !IsBy(last, t) ==> ThreadKept(s.log + [last], t, s.threads[t])
  {
    hide TheLease, RunningSince, Before, RecordKept;
    var log := s.log + [last];
    forall k | 0 <= k < |s.log| ensures Timely(log, k) && LeaseIsTheLease(id, log[k]) {
      assert Timely(s.log, k) && LeaseIsTheLease(id, s.log[k]) && log[k] == s.log[k];
      BeforeExtends(s.log, [last], k, Invalidated);
      if Success(log[k]).Some? {
        var t, op := Success(log[k]).value.0, Success(log[k]).value.1;
        var at :| 0 <= at < k && RunningSince(s.log, at, k, t, op);
        RunningExtends(s.log, last, at, k, t, op);
      }
    }
    forall t | 0 <= t < |s.threads| && !IsBy(last, t) ensures ThreadKept(log, t, s.threads[t]) {
      assert ThreadKept(s.log, t, s.threads[t]);
      match s.threads[t]
      case SawFlag(op, at) => RunningExtends(s.log, last, at, |s.log|, t, op);
      case SawChild(op, at) => RunningExtends(s.log, last, at, |s.log|, t, op);
      case _ =>
    }
  }

  lemma SuccessIsTimely(id: Identity, s: State, t: nat, event: Event)
    requires Inv(id, s) && t < |s.threads| && s.threads[t].SawChild?
    requires Success(event) == Some((t, s.threads[t].op)) && !Before(s.log, |s.log|, Invalidated)
    ensures Timely(s.log + [event], |s.log|)
  {
    hide RunningSince, Before, RecordKept;
    var log, at := s.log + [event], s.threads[t].at;
    assert ThreadKept(s.log, t, s.threads[t]);
    BeforeExtends(s.log, [event], |s.log|, Invalidated);
    RunningExtends(s.log, event, at, |s.log|, t, s.threads[t].op);
    assert log[|s.log|] == event;
  }

  lemma FinishKeepsInv(id: Identity, s: State, t: nat, op: Operation)
    requires id.pid != 0 && Inv(id, s) && t < |s.threads| && s.threads[t].SawChild? && op == s.threads[t].op
    ensures Inv(id, Finish(id, s, t, op))
  {
    hide Timely, ThreadKept, Before, IsLowerHex, Released;
    var next := Finish(id, s, t, op);
    if next.log != s.log {
      var event := next.log[|s.log|];
      assert next.log == s.log + [event];
      assert !Before(s.log, |s.log|, Invalidated);
      HistoryKept(id, s, event);
      SuccessIsTimely(id, s, t, event);
      BeforeLast(s.log, event, Invalidated);
      BeforeLast(s.log, event, FlagTakenDown);
      ReleasedLast(s.log, event);
      IdleIsKept(next.log, t);
    } else {
      IdleIsKept(next.log, t);
    }
  }

  lemma IdleIsKept(log: seq<Event>, t: nat)
    ensures ThreadKept(log, t, Idle)
  {
  }

  lemma QuietEvent(id: Identity, s: State, last: Event)
    requires Inv(id, s) && Success(last) == None
    ensures Timely(s.log + [last], |s.log|) && LeaseIsTheLease(id, last)
  {
  }

  lemma StepKeepsInv(id: Identity, s: State, move: Move)
    requires id.pid != 0 && Inv(id, s)
    ensures Inv(id, Step(id, s, move))
  {
    hide Timely, Before, Finish, TheLease, Released;
    var next := Step(id, s, move);
    match move
    case Continue(t) =>
      if t < |s.threads| && s.threads[t].SawChild? {
        FinishKeepsInv(id, s, t, s.threads[t].op);
      } else if t < |s.threads| && s.threads[t].TookFlagDown? {
        Appended(id, s, Invalidated);
      }
    case ChildExits =>
    case BeginRevoke(t, phase) => if t < |s.threads| { FlagDownKeepsInv(id, s, t, phase); }
    case Begin(t, op) =>
      if t < |s.threads| && s.threads[t].Idle? { BeginKeepsInv(id, s, t, op); }
  }

  lemma FlagDownKeepsInv(id: Identity, s: State, t: nat, phase: Phase)
    requires Inv(id, s) && t < |s.threads|
    ensures Inv(id, TakeFlagDown(s, t, phase))
  {
    hide Timely, Before, TheLease, Released;
    Appended(id, s, FlagTakenDown);
  }

  lemma BeginKeepsInv(id: Identity, s: State, t: nat, op: Operation)
    requires id.pid != 0 && Inv(id, s) && t < |s.threads| && s.threads[t].Idle?
    ensures Inv(id, Step(id, s, Begin(t, op)))
  {
    hide Timely, Before, TheLease, Released, TakeFlagDown;
    var last := Begun(t, op, s.flag);
    Appended(id, s, last);
    BeforeExtends(s.log, [last], |s.log|, FlagTakenDown);
    if !s.flag {
      var begun := s.(log := s.log + [last]);
      assert Inv(id, begun);
      FlagDownKeepsInv(id, begun, t, Invalid);
    }
  }

  lemma Appended(id: Identity, s: State, last: Event)
    requires Inv(id, s) && Success(last) == None
    ensures var log := s.log + [last];
            && (forall k :: 0 <= k < |log| ==> Timely(log, k) && LeaseIsTheLease(id, log[k]))
            && (forall t :: 0 <= t < |s.threads| && !IsBy(last, t) ==> ThreadKept(log, t, s.threads[t]))
            && (Before(log, |log|, Invalidated) <==> Before(s.log, |s.log|, Invalidated) || last == Invalidated)
            && (Before(log, |log|, FlagTakenDown) <==> Before(s.log, |s.log|, FlagTakenDown) || last == FlagTakenDown)
            && (Released(log) <==> Released(s.log))
  {
    hide Timely, Before, ThreadKept, TheLease, Released;
    ReleasedLast(s.log, last);
    HistoryKept(id, s, last);
    QuietEvent(id, s, last);
    BeforeLast(s.log, last, Invalidated);
    BeforeLast(s.log, last, FlagTakenDown);
  }

  lemma {:induction false} RunKeepsInv(id: Identity, s: State, moves: seq<Move>)
    requires id.pid != 0 && Inv(id, s)
    ensures Inv(id, Run(id, s, moves))
    decreases |moves|
  {
    if moves != [] {
      StepKeepsInv(id, s, moves[0]);
      RunKeepsInv(id, Step(id, s, moves[0]), moves[1..]);
    }
  }

  // ---------------------------------------------------------------- whole lives of a host

  /** However threads interleave: once the record has been invalidated no lease is captured or revalidated
      and the gate is not released; an operation that begins after the flag went down never succeeds; and
      every lease handed out is the same one. What succeeds is the operation its thread began last, and that
      beginning came before anyone took the flag down. */
  lemma NothingAfterRevocation(id: Identity, threads: nat, moves: seq<Move>, k: nat)
    requires id.pid != 0 && k < |Run(id, Launch(id, threads), moves).log|
    ensures var log := Run(id, Launch(id, threads), moves).log;
            && LeaseIsTheLease(id, log[k])
            && (Success(log[k]).Some? ==>
                  var (t, op) := Success(log[k]).value;
                  && (forall j :: 0 <= j < k ==> log[j] != Invalidated)
                  && exists at :: && 0 <= at < k && log[at] == Begun(t, op, true)
                                  && (forall j :: at < j < k ==> !IsBy(log[j], t))
                                  && (forall j :: 0 <= j < at ==> log[j] != FlagTakenDown))
  {
    RunKeepsInv(id, Launch(id, threads), moves);
    var log := Run(id, Launch(id, threads), moves).log;
    assert Timely(log, k) && LeaseIsTheLease(id, log[k]);
    if Success(log[k]).Some? {
      var (t, op) := Success(log[k]).value;
      var at :| 0 <= at < k && RunningSince(log, at, k, t, op);
      assert forall j :: 0 <= j < at ==> log[j] != FlagTakenDown;
    }
  }

  // ---------------------------------------------------------------- one operation by itself

  function Continued(id: Identity, s: State, t: nat, k: nat): State
    decreases k
  {
    if k == 0 then s else Continued(id, Step(id, s, Continue(t)), t, k - 1)
  }

  /** What an operation that nobody disturbs does to the record, and the event of its success if it succeeds. */
  function Answer(id: Identity, record: Lease, t: nat, op: Operation): (Lease, Option<Event>) {
    match op
    case Capture => (record, if record == TheLease(id) then Some(Captured(t, record)) else None)
    case Revalidate(lease) => (record, if record == lease == TheLease(id) then Some(Revalidated(t, lease)) else None)
    case ReleaseGate =>
      if record == TheLease(id).(phase := GateHeld, gateReleased := false) then (TheLease(id), Some(GateReleased(t))) else (record, None)
  }

  /** An operation that nobody disturbs, from any reachable state with the flag up and the child running: a capture
      or a confirmation succeeds if the record is the one lease, a release if the gate is still held. */
  lemma OperationIsExact(id: Identity, s: State, t: nat, op: Operation)
    requires id.pid != 0 && IsLowerHex(id.scope, 64) && Inv(id, s) && t < |s.threads| && s.threads[t].Idle? && s.flag && s.childRuns
    ensures var end := Continued(id, Step(id, s, Begin(t, op)), t, 2);
            var (record, success) := Answer(id, s.record, t, op);
            && end.threads == s.threads && end.flag && end.record == record
            && end.log == s.log + [Begun(t, op, true)] + (match success case Some(event) => [event] case None => [])
  {
    hide Timely, ThreadKept, IsLowerHex;
    var a := Step(id, s, Begin(t, op));
    var b := Step(id, a, Continue(t));
    var c := Step(id, b, Continue(t));
    assert Continued(id, a, t, 2) == Continued(id, b, t, 1) == Continued(id, c, t, 0);
    assert b.threads[t] == SawChild(op, |s.log|) && b.record == s.record;
    assert c.threads == s.threads;
  }

  /** A revocation that nobody disturbs, and a release that finds the flag down: the flag is down, the record is
      invalid or terminating, under another generation, and no longer released. */
  lemma RevocationIsExact(id: Identity, s: State, t: nat, move: Move)
    requires t < |s.threads| && s.threads[t].Idle?
    requires (move.BeginRevoke? && move.thread == t) || (move == Begin(t, ReleaseGate) && !s.flag)
    ensures var end := Step(id, Step(id, s, move), Continue(t));
            && end.threads == s.threads && !end.flag && !end.record.gateReleased
            && end.record.phase == (if move.BeginRevoke? && move.phase == Terminating then Terminating else Invalid)
            && end.record.generation != s.record.generation && end.record.generation != 0
            && end.log != [] && end.log[|end.log| - 1] == Invalidated
  {
    var a := Step(id, s, move);
    assert a.threads[t].TookFlagDown?;
    assert Step(id, a, Continue(t)).threads == s.threads;
  }

  /** A thread that saw the flag and the child gets the lease if and only if, by the time it holds the lock,
      some thread has released the gate and none has invalidated the record; it gets a lease confirmed if and
      only if, besides, it is the one lease of this host. The generation counter may wrap: the phase alone
      shuts out every lease taken before. */
  lemma CaptureIsExact(id: Identity, threads: nat, moves: seq<Move>)
    requires id.pid != 0 && IsLowerHex(id.scope, 64)
    ensures var s := Run(id, Launch(id, threads), moves);
            var live := (exists k, t :: 0 <= k < |s.log| && s.log[k] == GateReleased(t)) && Invalidated !in s.log;
            && (CaptureSucceeds(id, s.record) <==> live)
            && (forall lease :: RevalidateSucceeds(id, s.record, lease) <==> lease == TheLease(id) && live)
            && (ReleaseSucceeds(id, s.record) <==>
                  Invalidated !in s.log && forall k :: 0 <= k < |s.log| ==> !s.log[k].GateReleased?)
  {
    hide Timely, ThreadKept;
    LaunchInv(id, threads);
    RunKeepsInv(id, Launch(id, threads), moves);
    var s := Run(id, Launch(id, threads), moves);
    assert Released(s.log) <==> exists k, t :: 0 <= k < |s.log| && s.log[k] == GateReleased(t) by {
      if k :| 0 <= k < |s.log| && s.log[k].GateReleased? { assert s.log[k] == GateReleased(s.log[k].thread); }
    }
    assert Before(s.log, |s.log|, Invalidated) <==> Invalidated in s.log;
  }

  lemma LaunchInv(id: Identity, threads: nat)
    ensures Inv(id, Launch(id, threads))
  {
  }
}
