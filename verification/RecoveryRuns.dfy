/** Whole runs of pauses, restores and updates, with crashes anywhere: exactly when the obligation to
    restart the monitor survives, and a run that loses it. */
module RecoveryRuns {
  import opened Results
  import opened RecoveryMarkers
  import World = MonitorWorld
  import opened MonitorWorld
  import opened MonitorRecovery
  import opened UpdateCoordinator

  datatype Task = Wait | DoPause | DoRestore | DoUpdate(candidate: Candidate)

  /** A task, the choices it meets, and where the process dies in it, if it does: after how many durable
      states, and the lease of the process that starts there. */
  datatype Op = Op(task: Task, script: seq<Choice>, crash: Option<(nat, Lease)>)

  function Worked(s: State, task: Task): State {
    match task
    case Wait => Environment(s)
    case DoPause => Pausing(s).0
    case DoRestore => Restoring(s).0
    case DoUpdate(candidate) => Executing(s, candidate).0
  }

  function Restarted(s: State, i: nat, lease: Lease): State
    requires i < |s.worlds|
  {
    s.(owned := true, lease := lease, now := s.worlds[i], worlds := s.worlds[..i + 1])
  }

  function Done(s: State, op: Op): State {
    var after := Worked(s.(script := op.script, clock := 0), op.task);
    if op.crash.Some? && |s.worlds| + op.crash.value.0 <= |after.worlds| && s.worlds != []
    then Restarted(after, |s.worlds| + op.crash.value.0 - 1, op.crash.value.1)
    else after
  }

  function Run(s: State, ops: seq<Op>): State
    decreases |ops|
  {
    if ops == [] then s else Run(Done(s, ops[0]), ops[1..])
  }

  function Launch(monitor: Snapshot, lease: Lease): State {
    var d := Durable(monitor, None, None, {});
    State(true, lease, d, 0, [], [d], [], 0)
  }

  // ---------------------------------------------------------------- histories

  lemma WorkedWent(s: State, task: Task)
    ensures Went(s, Worked(s, task))
  {
    hide Went, Environment, Pausing, Restoring, Executing;
    match task
    case Wait => EnvironmentOnlyEvents(s);
    case DoPause => var _ := PauseFacts(s);
    case DoRestore => var _ := RestoreFacts(s);
    case DoUpdate(candidate) => var _ := ExecuteFacts(s, candidate);
  }

  lemma DoneIsTraced(s: State, op: Op)
    requires Traced(s)
    ensures Traced(Done(s, op)) && s.worlds <= Done(s, op).worlds
  {
    hide Worked, Allowed, Eligible;
    var begun := s.(script := op.script, clock := 0);
    var after := Worked(begun, op.task);
    WorkedWent(begun, op.task);
    var end := Done(s, op);
    forall i | 0 <= i < |end.worlds| - 1 ensures Allowed(end.worlds[i], end.worlds[i + 1]) {
      assert end.worlds[i] == after.worlds[i] && end.worlds[i + 1] == after.worlds[i + 1];
    }
  }

  lemma {:induction false} RunIsTraced(s: State, ops: seq<Op>)
    requires Traced(s)
    ensures Traced(Run(s, ops)) && s.worlds <= Run(s, ops).worlds
    decreases |ops|
  {
    hide Traced, Done;
    if ops != [] {
      DoneIsTraced(s, ops[0]);
      RunIsTraced(Done(s, ops[0]), ops[1..]);
    }
  }

  lemma {:induction false} AllCovered(worlds: seq<Durable>, i: nat)
    requires Linked(worlds) && NoneExposing(worlds) && i < |worlds| && Covered(worlds[0])
    ensures Covered(worlds[i])
  {
    if i > 0 {
      AllCovered(worlds, i - 1);
      assert Allowed(worlds[i - 1], worlds[i - 1 + 1]);
    }
  }

  // ---------------------------------------------------------------- what may still happen by itself

  /** The durable state after outside events, with no host acting. */
  function Later(d: Durable, events: seq<Event>): Durable {
    if events == [] then d else Happened(Later(d, events[..|events| - 1]), events[|events| - 1])
  }

  lemma {:induction false} CoveredStays(d: Durable, events: seq<Event>)
    requires Covered(d)
    ensures Covered(Later(d, events))
  {
    hide Covered, Happened;
    if events != [] {
      CoveredStays(d, events[..|events| - 1]);
      HappenedIsAllowed(Later(d, events[..|events| - 1]), events[|events| - 1]);
    }
  }

  /** What is not covered can be lost with nobody acting: a stop in flight lands on a running monitor. */
  lemma UncoveredIsLost(d: Durable) returns (events: seq<Event>)
    requires !Covered(d)
    ensures !Safe(Later(d, events))
  {
    hide ValidMarker;
    if !Safe(d) {
      events := [];
    } else {
      var scope :| scope in d.inFlight && !Backed(d, scope);
      var up, down := Event(NoLanding, Some(UP), false, None), Event(Lands(scope), None, false, None);
      events := [up, down];
      assert events[..1] == [up] && [up][..0] == [];
      assert Later(d, []) == d;
      assert Later(d, [up]) == d.(monitor := UP);
    }
  }

  /** No outside events can lose the obligation if and only if it and everything in flight is covered. */
  lemma CoveredExactly(d: Durable)
    ensures Covered(d) <==> forall events :: Safe(Later(d, events))
  {
    hide Covered, Later;
    if Covered(d) {
      forall events ensures Safe(Later(d, events)) { CoveredStays(d, events); CoveredIsSafe(Later(d, events)); }
    } else {
      var events := UncoveredIsLost(d);
    }
  }

  lemma CoveredIsSafe(d: Durable)
    requires Covered(d)
    ensures Safe(d)
  {
  }

  // ---------------------------------------------------------------- whole runs

  /** A history that began covered: from each of its states, whatever happens next by itself keeps every
      obligation written down, if and only if none of its clears exposed one. */
  lemma HistorySurvivesExactly(worlds: seq<Durable>)
    requires worlds != [] && Linked(worlds) && Covered(worlds[0])
    ensures NoneExposing(worlds) <==> forall i, events :: 0 <= i < |worlds| ==> Safe(Later(worlds[i], events))
  {
    hide Allowed, Covered, Later, Safe;
    if NoneExposing(worlds) {
      forall i, events | 0 <= i < |worlds| ensures Safe(Later(worlds[i], events)) {
        AllCovered(worlds, i);
        CoveredExactly(worlds[i]);
      }
    } else {
      var i :| 0 <= i < |worlds| - 1 && Exposing(worlds[i], worlds[i + 1]);
      ExposedIsUncovered(worlds[i], worlds[i + 1]);
      CoveredExactly(worlds[i + 1]);
    }
  }

  /** The obligation survives exactly when no clear exposes it. From any state of any run, whatever happens
      next by itself keeps every obligation written down, if and only if no marker was removed in that run
      while a stop had taken effect or was still in flight. */
  lemma ObligationSurvivesExactly(monitor: Snapshot, lease: Lease, ops: seq<Op>)
    ensures var worlds := Run(Launch(monitor, lease), ops).worlds;
            NoneExposing(worlds) <==> forall i, events :: 0 <= i < |worlds| ==> Safe(Later(worlds[i], events))
  {
    hide Allowed, Covered, Later, Safe, Run;
    LaunchIsCovered(monitor, lease);
    RunIsTraced(Launch(monitor, lease), ops);
    HistorySurvivesExactly(Run(Launch(monitor, lease), ops).worlds);
  }

  lemma ExposedIsUncovered(a: Durable, b: Durable)
    requires Exposing(a, b)
    ensures !Covered(b)
  {
    if b.owed == None {
      var scope :| scope in b.inFlight;
      assert !Backed(b, scope);
    }
  }

  lemma LaunchIsCovered(monitor: Snapshot, lease: Lease)
    ensures Traced(Launch(monitor, lease)) && Covered(Launch(monitor, lease).worlds[0])
  {
  }

  /** One clear, exactly. The marker that is removed covered everything before; afterwards the obligation
      survives whatever happens by itself if and only if, at that clear, no stop had taken effect unseen and
      none was in flight. */
  lemma ClearSurvivesExactly(d: Durable)
    requires d.marker.Some?
    ensures (forall events :: Safe(Later(d.(marker := None), events))) <==> d.owed == None && d.inFlight == {}
  {
    hide Later;
    CoveredExactly(d.(marker := None));
    if d.owed == None && d.inFlight != {} {
      var scope :| scope in d.inFlight;
      assert !Backed(d.(marker := None), scope);
    }
  }

  /** The corollary for runs whose clears expose nothing: in every durable state, reached or to come, a
      monitor that the host took down and has not seen up again has a valid marker of its scope. */
  lemma NothingIsForgotten(monitor: Snapshot, lease: Lease, ops: seq<Op>, i: nat)
    requires i < |Run(Launch(monitor, lease), ops).worlds| && NoneExposing(Run(Launch(monitor, lease), ops).worlds)
    ensures var d := Run(Launch(monitor, lease), ops).worlds[i];
            && (d.owed.Some? ==> d.marker.Some? && ValidMarker(d.marker.value) && d.marker.value.scope == d.owed.value)
            && (forall scope :: scope in d.inFlight ==>
                  d.marker.Some? && ValidMarker(d.marker.value) && d.marker.value.scope == scope)
  {
    hide Allowed, Run, ValidMarker;
    LaunchIsCovered(monitor, lease);
    RunIsTraced(Launch(monitor, lease), ops);
    AllCovered(Run(Launch(monitor, lease), ops).worlds, i);
  }

  // ---------------------------------------------------------------- one update

  /** A host whose history so far exposed nothing, with no stop in flight. */
  predicate InOrderSoFar(s: State) { Traced(s) && Covered(s.worlds[0]) && NoneExposing(s.worlds) && s.now.inFlight == {} }

  /** An update begun in order that fails with any recovery but a failed one leaves nothing owed and nothing in
      flight, unless its pause failed for want of an answer. */
  lemma FailedUpdateOwesNothing(s: State, candidate: Candidate)
    requires InOrderSoFar(s)
    ensures var (after, r) := Executing(s, candidate);
            && (r.Err? && Attempt(r.error).Some? && !Attempt(r.error).value.Failed? && !PauseUnanswered(r) ==>
                  after.now.owed == None && after.now.inFlight == {})
            && (!PauseUnanswered(r) ==> InOrderSoFar(after))
  {
    hide Executing, Allowed;
    var t := ExecuteFacts(s, candidate);
    var (after, r) := Executing(s, candidate);
    if !PauseUnanswered(r) { AllCovered(after.worlds, |after.worlds| - 1); }
  }

  /** Whatever becomes of it, such an update keeps the obligation written down, at each of its steps and
      whatever happens next by itself, if and only if none of its clears exposed it. */
  lemma UpdateSurvivesExactly(s: State, candidate: Candidate)
    requires InOrderSoFar(s)
    ensures var worlds := Executing(s, candidate).0.worlds;
            NoneExposing(worlds) <==> forall i, events :: 0 <= i < |worlds| ==> Safe(Later(worlds[i], events))
  {
    hide Executing, Allowed, Covered, Later, Safe;
    var t := ExecuteFacts(s, candidate);
    HistorySurvivesExactly(Executing(s, candidate).0.worlds);
  }

  // ---------------------------------------------------------------- orderly runs

  /** No pause fails for want of an answer, and a crash comes only while no stop is on its way. */
  predicate Orderly(s: State, op: Op) {
    var begun := s.(script := op.script, clock := 0);
    && (op.crash.Some? ==> Done(s, op).now.inFlight == {})
    && match op.task
       case DoPause => op.crash.Some? || Pausing(begun).1 != Err(MonitorUnavailable)
       case DoUpdate(candidate) => !PauseUnanswered(Executing(begun, candidate).1)
       case _ => true
  }

  predicate OrderlyRun(s: State, ops: seq<Op>)
    decreases |ops|
  {
    ops == [] || (Orderly(s, ops[0]) && OrderlyRun(Done(s, ops[0]), ops[1..]))
  }

  lemma OrderlyIsUnexposed(s: State, op: Op)
    requires Orderly(s, op) && s.now.inFlight == {}
    ensures Unexposed(s, Done(s, op)) && Done(s, op).now.inFlight == {}
  {
    hide Went, Unexposed, Environment, Pausing, Restoring, Executing;
    var begun := s.(script := op.script, clock := 0);
    match op.task {
      case Wait => EnvironmentOnlyEvents(begun);
      case DoPause => var _ := PauseFacts(begun);
      case DoRestore => var _ := RestoreFacts(begun);
      case DoUpdate(candidate) => var _ := ExecuteFacts(begun, candidate);
    }
    SameHistory(s, begun, Worked(begun, op.task));
    CutIsUnexposed(s, op);
  }

  /** A crash leaves a part of the history. */
  lemma CutIsUnexposed(s: State, op: Op)
    requires Unexposed(s, Worked(s.(script := op.script, clock := 0), op.task))
    ensures Unexposed(s, Done(s, op))
  {
    hide Worked, Traced, Exposing;
    var after, end := Worked(s.(script := op.script, clock := 0), op.task), Done(s, op);
    if NoneExposing(after.worlds) {
      forall i | 0 <= i < |end.worlds| - 1 ensures !Exposing(end.worlds[i], end.worlds[i + 1]) {
        assert end.worlds[i] == after.worlds[i] && end.worlds[i + 1] == after.worlds[i + 1];
      }
    }
  }

  lemma SameHistory(s: State, begun: State, after: State)
    requires begun == s.(script := begun.script, clock := begun.clock) && Unexposed(begun, after)
    ensures Unexposed(s, after)
  {
    TracedIsHistory(s, begun);
  }

  lemma {:induction false} OrderlyRunIsUnexposed(s: State, ops: seq<Op>)
    requires OrderlyRun(s, ops) && Traced(s) && NoneExposing(s.worlds) && s.now.inFlight == {}
    ensures NoneExposing(Run(s, ops).worlds)
    decreases |ops|
  {
    hide Orderly, Done, Traced, NoneExposing;
    if ops != [] {
      OrderlyIsUnexposed(s, ops[0]);
      DoneIsTraced(s, ops[0]);
      OrderlyRunIsUnexposed(Done(s, ops[0]), ops[1..]);
    }
  }

  /** A run in which no pause fails for want of an answer, and no crash comes while a stop is on its way,
      exposes nothing, so it loses nothing. */
  lemma OrderlyRunsForgetNothing(monitor: Snapshot, lease: Lease, ops: seq<Op>, i: nat, events: seq<Event>)
    requires OrderlyRun(Launch(monitor, lease), ops) && i < |Run(Launch(monitor, lease), ops).worlds|
    ensures Safe(Later(Run(Launch(monitor, lease), ops).worlds[i], events))
  {
    hide Run, OrderlyRun, Later, Safe, Allowed;
    LaunchIsCovered(monitor, lease);
    OrderlyRunIsUnexposed(Launch(monitor, lease), ops);
    ObligationSurvivesExactly(monitor, lease, ops);
  }

  // ---------------------------------------------------------------- a run that loses it

  /** The next `n` choices are quiet. */
  ghost predicate QuietFor(s: State, n: nat) { forall k :: s.clock <= k < s.clock + n ==> ChoiceAt(s.script, k) == QUIET }

  /** Nothing but the durable state, the history and the clock moved. */
  predicate Same(a: State, b: State, n: nat) {
    b.owned == a.owned && b.lease == a.lease && b.script == a.script && b.clock == a.clock + n
  }

  lemma QuietEnvironment(s: State)
    requires ChoiceNow(s).event == NOTHING
    ensures Same(s, Environment(s), 1) && Environment(s).now == s.now
  {
  }

  lemma QuietNext(s: State, n: nat)
    requires QuietFor(s, n) && n > 0
    ensures ChoiceNow(s) == QUIET && forall a :: Same(s, a, 1) ==> QuietFor(a, n - 1)
  {
  }

  lemma QuietRevalidate(s: State, l: Lease)
    requires QuietFor(s, 1) && Holds(s, l)
    ensures var (a, refused) := Revalidate(s, l); refused == None && Same(s, a, 1) && a.now == s.now && Holds(a, l)
  {
    QuietNext(s, 1);
    QuietEnvironment(s);
  }

  /** The two quiet moments before any action: the lease holds and nothing has changed. */
  lemma QuietAction(s: State, l: Lease, n: nat)
    requires QuietFor(s, n) && n >= 2 && Holds(s, l)
    ensures var (a, refused) := Revalidate(s, l);
            && refused == None && ChoiceNow(a) == QUIET
            && Same(s, Environment(a), 2) && Environment(a).now == s.now && Holds(Environment(a), l)
            && (forall b :: Same(Environment(a), b, 0) ==> QuietFor(b, n - 2))
  {
    hide Environment, Eligible;
    QuietNext(s, n);
    QuietRevalidate(s, l);
    var a := Revalidate(s, l).0;
    QuietNext(a, n - 1);
    QuietEnvironment(a);
    forall b | Same(Environment(a), b, 0) ensures QuietFor(b, n - 2) { assert Same(a, b, 1); }
  }

  lemma QuietLoad(s: State, l: Lease)
    requires QuietFor(s, 3) && Holds(s, l) && (s.now.marker.Some? ==> ValidMarker(s.now.marker.value))
    ensures var (a, r) := LoadMarker(s, l); r == Ok(s.now.marker) && Same(s, a, 3) && a.now == s.now && Holds(a, l)
  {
    hide QuietFor, Environment, Eligible, ValidMarker;
    QuietAction(s, l, 3);
    var b := Environment(Revalidate(s, l).0);
    assert Same(b, b, 0);
    QuietRevalidate(b, l);
  }

  lemma QuietStatus(s: State, l: Lease)
    requires QuietFor(s, 3) && Holds(s, l) && s.now.monitor == UP
    ensures var (a, r) := Status(s, l); r == Ok(UP) && Same(s, a, 3) && a.now == s.now.(owed := None) && Holds(a, l)
  {
    hide QuietFor, Environment, Eligible;
    QuietAction(s, l, 3);
    var b := Environment(Revalidate(s, l).0);
    var c := Put(b.(log := b.log + [Observed(UP)]), b.now.(owed := None));
    assert Same(b, c, 0);
    QuietRevalidate(c, l);
  }

  lemma QuietPublish(s: State, l: Lease, m: Marker)
    requires QuietFor(s, 3) && Holds(s, l) && s.now.marker == None
    ensures var (a, error) := PublishMarker(s, l, m);
            error == None && Same(s, a, 3) && a.now == s.now.(marker := Some(m)) && Holds(a, l)
  {
    hide QuietFor, Environment, Eligible;
    QuietAction(s, l, 3);
    var b := Environment(Revalidate(s, l).0);
    var c := Put(b.(log := b.log + [PublishSent(m)]), b.now.(marker := Some(m)));
    assert Same(b, c, 0);
    QuietRevalidate(c, l);
  }

  lemma QuietClear(s: State, l: Lease, m: Marker)
    requires QuietFor(s, 3) && Holds(s, l) && s.now.marker == Some(m)
    ensures var (a, error) := ClearMarker(s, l, m);
            error == None && Same(s, a, 3) && a.now == s.now.(marker := None) && Holds(a, l)
  {
    hide QuietFor, Environment, Eligible;
    QuietAction(s, l, 3);
    var b := Environment(Revalidate(s, l).0);
    var c := Put(b.(log := b.log + [ClearSent(m)]), b.now.(marker := None));
    assert Same(b, c, 0);
    QuietRevalidate(c, l);
  }

  /** A stop whose reply is lost while the request is still on its way. */
  lemma LostStop(s: State, l: Lease)
    requires QuietFor(s, 1) && Holds(s, l)
    requires ChoiceAt(s.script, s.clock + 1) == QUIET.(fault := true, effect := false)
    ensures var (a, error) := World.Stop(s, l);
            && error == Some(MonitorUnavailable) && Same(s, a, 2) && Holds(a, l)
            && a.now == s.now.(inFlight := s.now.inFlight + {l.scope})
  {
    QuietRevalidate(s, l);
    var a := Revalidate(s, l).0;
    QuietEnvironment(a);
  }

  function LosingScript(candidate: Candidate): seq<Choice> {
    [QUIET.(verified := Some(VerifiedUpdate(candidate, "")))] + seq(12, i => QUIET) + [QUIET.(fault := true, effect := false)]
  }

  function LosingOps(candidate: Candidate, scope: string): seq<Op> {
    [Op(DoUpdate(candidate), LosingScript(candidate), None),
     Op(Wait, [QUIET.(event := Event(Lands(scope), None, false, None))], None)]
  }

  /** The start of the losing run: verified, lease captured, no marker, monitor seen up, nonce drawn. */
  lemma LosingStart(lease: Lease, candidate: Candidate)
    requires Eligible(lease)
    ensures var s := Launch(UP, lease).(script := LosingScript(candidate));
            var a := DownloadAndVerify(s, candidate);
            && a.1 == Some(VerifiedUpdate(candidate, "")) && Same(s, a.0, 1) && a.0.now == s.now
  {
    hide Eligible;
    var s := Launch(UP, lease).(script := LosingScript(candidate));
    assert ChoiceNow(s) == LosingScript(candidate)[0];
    QuietEnvironment(s);
  }

  lemma LosingChoices(candidate: Candidate, s: State)
    requires s.script == LosingScript(candidate)
    ensures forall n: nat :: s.clock >= 1 && s.clock + n <= 13 ==> QuietFor(s, n)
    ensures s.clock == 12 ==> ChoiceAt(s.script, s.clock + 1) == QUIET.(fault := true, effect := false)
    ensures s.clock >= 14 ==> forall n: nat :: QuietFor(s, n)
  {
  }

  lemma QuietCapture(s: State)
    requires QuietFor(s, 1) && Holds(s, s.lease)
    ensures var (a, r) := CaptureLease(s); r == Ok(s.lease) && Same(s, a, 1) && a.now == s.now && Holds(a, s.lease)
  {
    QuietNext(s, 1);
    QuietEnvironment(s);
  }

  function QuietNonce(): string { seq(32, i => '0') }

  lemma QuietRandom(s: State)
    requires QuietFor(s, 1)
    ensures RandomNonce(s) == (s.(clock := s.clock + 1), Some(QuietNonce()))
  {
    QuietNext(s, 1);
    var nonce := RandomNonce(s).1.value;
    forall i | 0 <= i < 32 ensures nonce[i] == '0' { assert ZEROS[i] == 0; }
    assert nonce == QuietNonce();
  }

  /** The pause fails for want of an answer; its marker is written and its stop is in flight. */
  lemma LosingPause(s: State, candidate: Candidate)
    requires s.script == LosingScript(candidate) && s.clock == 1 && Holds(s, s.lease)
    requires s.now == Durable(UP, None, None, {})
    ensures var (after, r) := Pausing(s);
            && r == Err(MonitorUnavailable) && Same(s, after, 13) && Holds(after, s.lease)
            && after.now == Durable(UP, Some(Marker(QuietNonce(), s.lease.scope, s.lease)), None, {s.lease.scope})
  {
    hide Eligible, QuietFor, CaptureLease, LoadMarker, Status, RandomNonce, PublishMarker, World.Stop, LosingScript, QuietNonce;
    var l := s.lease;
    LosingChoices(candidate, s);
    QuietCapture(s);
    var a := CaptureLease(s).0;
    LosingChoices(candidate, a);
    QuietLoad(a, l);
    var b := LoadMarker(a, l).0;
    LosingChoices(candidate, b);
    QuietStatus(b, l);
    var c := Status(b, l).0;
    LosingChoices(candidate, c);
    QuietRandom(c);
    var d, m := RandomNonce(c).0, Marker(QuietNonce(), l.scope, l);
    LosingChoices(candidate, d);
    QuietPublish(d, l, m);
    var e := PublishMarker(d, l, m).0;
    LosingChoices(candidate, e);
    LostStop(e, l);
  }

  /** The restore that follows sees the monitor still up and clears the marker. */
  lemma LosingRestore(s: State, candidate: Candidate, m: Marker)
    requires s.script == LosingScript(candidate) && s.clock == 14 && Holds(s, s.lease)
    requires s.now == Durable(UP, Some(m), None, {s.lease.scope}) && ValidMarker(m) && m.scope == s.lease.scope
    ensures var (after, r) := Restoring(s);
            && r == Ok(MonitorAlreadyReady) && after.now == Durable(UP, None, None, {s.lease.scope}) && after.script == s.script
  {
    hide Eligible, QuietFor, CaptureLease, LoadMarker, Status, ClearMarker, LosingScript, ValidMarker;
    var l := s.lease;
    LosingChoices(candidate, s);
    QuietCapture(s);
    var a := CaptureLease(s).0;
    LosingChoices(candidate, a);
    QuietLoad(a, l);
    var b := LoadMarker(a, l).0;
    LosingChoices(candidate, b);
    QuietStatus(b, l);
    var c := Status(b, l).0;
    LosingChoices(candidate, c);
    QuietClear(c, l, m);
  }

  /** The update reports a failed pause and a monitor that was already ready. */
  lemma LosingUpdate(lease: Lease, candidate: Candidate)
    requires Eligible(lease)
    ensures var (after, r) := Executing(Launch(UP, lease).(script := LosingScript(candidate)), candidate);
            && r == Err(PauseFailed(MonitorUnavailable, Resolved(MonitorAlreadyReady)))
            && after.now == Durable(UP, None, None, {lease.scope})
  {
    hide Eligible, DownloadAndVerify, Pausing, Restoring, LosingScript, QuietNonce, ValidMarker;
    var s := Launch(UP, lease).(script := LosingScript(candidate));
    LosingStart(lease, candidate);
    var a := DownloadAndVerify(s, candidate).0;
    LosingPause(a, candidate);
    var m := Marker(QuietNonce(), lease.scope, lease);
    QuietMarkerIsValid(lease);
    LosingRestore(Pausing(a).0, candidate, m);
  }

  lemma QuietMarkerIsValid(lease: Lease)
    requires Eligible(lease)
    ensures ValidMarker(Marker(QuietNonce(), lease.scope, lease))
  {
  }

  /** The obligation is lost: a stop request is sent, its reply is lost, the restore sees the monitor still
      up, clears the marker and reports it ready; then the stop lands. The monitor is down by the host's
      doing, with no marker, and the update had reported a recovery that did not fail. */
  lemma AStopThatLandsLateIsForgotten(lease: Lease, candidate: Candidate)
    requires Eligible(lease)
    ensures var begun := Launch(UP, lease).(script := LosingScript(candidate));
            var end := Run(Launch(UP, lease), LosingOps(candidate, lease.scope));
            && Executing(begun, candidate).1 == Err(PauseFailed(MonitorUnavailable, Resolved(MonitorAlreadyReady)))
            && end.now == Durable(Snapshot(false, false), None, Some(lease.scope), {})
            && !Safe(end.now)
  {
    hide Eligible, Executing, LosingScript;
    LosingUpdate(lease, candidate);
    var ops := LosingOps(candidate, lease.scope);
    var first := Done(Launch(UP, lease), ops[0]);
    assert first.now == Durable(UP, None, None, {lease.scope});
    assert Run(Launch(UP, lease), ops) == Run(first, ops[1..]);
    var second := Done(first, ops[1]);
    assert ops[1..][0] == ops[1] && ops[1..][1..] == [];
    assert second.now == Happened(first.now, Event(Lands(lease.scope), None, false, None));
    assert Run(first, ops[1..]) == second;
  }
}
