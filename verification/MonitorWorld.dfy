/** What the monitor recovery acts on: the monitor and the stop requests still on their way to it, the
    recovery marker, the lease, and everything about them that may fail or change between two actions. A
    script of choices settles what happens at each action; every durable state passed through is kept, so
    that a crash can be placed at any of them. */
module MonitorWorld {
  import opened Results
  import opened RecoveryMarkers

  datatype Snapshot = Snapshot(running: bool, ready: bool)

  const UP: Snapshot := Snapshot(true, true)

  datatype RecoveryError =
    | OwnershipLost | StartupGateHeld | LeaseInvalid | RecoveryPending | MonitorUnavailable
    | MonitorStillRunning | MonitorNotReady | MarkerScopeMismatch | MarkerFailed(error: MarkerError)

  datatype Candidate = Candidate(version: string, artifactId: string)

  datatype VerifiedUpdate = VerifiedUpdate(candidate: Candidate, bytes: seq<char>)

  /** What was asked of the world, in order. */
  datatype Effect =
    | Observed(snapshot: Snapshot) | PublishSent(marker: Marker) | StopSent | StartSent | ClearSent(marker: Marker)
    | VerifySent(candidate: Candidate, verified: Option<VerifiedUpdate>) 
    | InstallSent(update: VerifiedUpdate, accepted: bool) | RelaunchSent(accepted: bool)

  /** What outlives the process. `inFlight` are the scopes with a stop request that was sent and may still
      land: the monitor goes on running and reporting ready until it does. `owed` names the scope whose
      monitor a stop has taken down and that was not seen running and ready since. */
  datatype Durable = Durable(monitor: Snapshot, marker: Option<Marker>, owed: Option<string>, inFlight: set<string>)

  /** The marker is there for this scope. */
  predicate Backed(d: Durable, scope: string) { d.marker.Some? && ValidMarker(d.marker.value) && d.marker.value.scope == scope }

  /** The obligation is written down. */
  predicate Safe(d: Durable) { d.owed.Some? ==> Backed(d, d.owed.value) }

  /** The obligation is written down, and so is the one that any stop in flight would bring about. */
  predicate Covered(d: Durable) { Safe(d) && forall scope :: scope in d.inFlight ==> Backed(d, scope) }

  /** The marker goes while a stop has taken effect or still may. */
  predicate Exposing(a: Durable, b: Durable) { a.marker.Some? && b.marker == None && (b.owed.Some? || b.inFlight != {}) }

  // ---------------------------------------------------------------- outside events

  /** A stop request in flight lands, or comes to nothing. */
  datatype Landing = NoLanding | Lands(scope: string) | Drops(scope: string)

  function Landed(d: Durable, landing: Landing): Durable {
    match landing
    case NoLanding => d
    case Drops(scope) => d.(inFlight := d.inFlight - {scope})
    case Lands(scope) =>
      if scope !in d.inFlight then d
      else if d.monitor.running then Durable(Snapshot(false, false), d.marker, Some(scope), d.inFlight - {scope})
      else d.(inFlight := d.inFlight - {scope})
  }

  /** Between two actions: a stop in flight may land, the monitor may come or go by itself, and the lease
      may be lost or revoked. */
  datatype Event = Event(landing: Landing, monitor: Option<Snapshot>, loses: bool, revoked: Option<(U64, Phase)>)

  const NOTHING: Event := Event(NoLanding, None, false, None)

  function Happened(d: Durable, event: Event): Durable {
    var landed := Landed(d, event.landing);
    if event.monitor.Some? then landed.(monitor := event.monitor.value) else landed
  }

  /** One choice: what happens before an action, whether the action fails to be answered, whether it takes
      effect all the same, and what it yields. */
  datatype Choice = Choice(
    event: Event, fault: bool, effect: bool, ready: bool, digits: seq<nat>, verified: Option<VerifiedUpdate>)

  const ZEROS: seq<nat> := [0, 0, 0, 0, 0, 0, 0, 0, 0, 0, 0, 0, 0, 0, 0, 0, 0, 0, 0, 0, 0, 0, 0, 0, 0, 0, 0, 0, 0, 0, 0, 0]

  const QUIET: Choice := Choice(NOTHING, false, true, true, ZEROS, None)

  // ---------------------------------------------------------------- the state

  /** The host and its world. `worlds` are the durable states so far, `log` what was asked of the world,
      `faults` how often something failed or the lease was lost. */
  datatype State = State(
    owned: bool, lease: Lease, now: Durable, faults: nat, log: seq<Effect>, worlds: seq<Durable>, script: seq<Choice>, clock: nat)

  function ChoiceAt(script: seq<Choice>, k: nat): Choice { if k < |script| then script[k] else QUIET }

  function ChoiceNow(s: State): Choice { ChoiceAt(s.script, s.clock) }

  function Put(s: State, d: Durable): State { s.(now := d, worlds := s.worlds + [d]) }

  function Fault(s: State): State { s.(faults := s.faults + 1) }

  function Revoked(lease: Lease, generation: U64, phase: Phase): Lease {
    lease.(generation := generation, phase := if phase == Terminating then Terminating else Invalid, gateReleased := false)
  }

  function Environment(s: State): State {
    var event := ChoiceNow(s).event;
    var lease := if event.revoked.Some? then Revoked(s.lease, event.revoked.value.0, event.revoked.value.1) else s.lease;
    Put(s, Happened(s.now, event)).(
      clock := s.clock + 1, owned := s.owned && !event.loses, lease := lease,
      faults := s.faults + if event.loses || event.revoked.Some? then 1 else 0)
  }

  /** The lease is the current one and fit for recovery. */
  predicate Holds(s: State, l: Lease) { s.owned && s.lease == l && Eligible(l) }

  /** The lease is in force and the marker is valid and of its scope. */
  predicate Recoverable(s: State) {
    && Holds(s, s.lease) && s.now.marker.Some? && ValidMarker(s.now.marker.value) && s.now.marker.value.scope == s.lease.scope
  }

  // ---------------------------------------------------------------- histories

  /** A step of the world keeps the obligation written down, unless it exposes it. */
  predicate Allowed(a: Durable, b: Durable) { Covered(a) && !Exposing(a, b) ==> Covered(b) }

  predicate Linked(worlds: seq<Durable>) { forall i :: 0 <= i < |worlds| - 1 ==> Allowed(worlds[i], worlds[i + 1]) }

  predicate Traced(s: State) { s.worlds != [] && s.worlds[|s.worlds| - 1] == s.now && Linked(s.worlds) }

  predicate NoneExposing(worlds: seq<Durable>) { forall i :: 0 <= i < |worlds| - 1 ==> !Exposing(worlds[i], worlds[i + 1]) }

  /** Nothing was exposed on the way. */
  predicate Unexposed(a: State, b: State) { Traced(a) && NoneExposing(a.worlds) ==> NoneExposing(b.worlds) }

  /** What every action keeps: the history only grows, step by allowed step, a lost lease stays lost, and
      without faults the lease is as it was. */
  predicate Went(a: State, b: State) {
    && a.worlds <= b.worlds && a.faults <= b.faults && (Traced(a) ==> Traced(b))
    && (Holds(b, b.lease) ==> Holds(a, b.lease))
    && (b.faults == a.faults ==> b.owned == a.owned && b.lease == a.lease)
  }

  lemma PutIsTraced(s: State, d: Durable)
    requires Traced(s) ==> Allowed(s.now, d)
    ensures Traced(s) ==> Traced(Put(s, d))
    ensures !Exposing(s.now, d) ==> Unexposed(s, Put(s, d))
  {
    hide Allowed, Exposing;
    var worlds := s.worlds + [d];
    if Traced(s) && NoneExposing(s.worlds) && !Exposing(s.now, d) {
      forall i | 0 <= i < |worlds| - 1 ensures !Exposing(worlds[i], worlds[i + 1]) {
        assert i < |s.worlds| - 1 ==> worlds[i + 1] == s.worlds[i + 1];
      }
    }
    if Traced(s) {
      forall i | 0 <= i < |worlds| - 1 ensures Allowed(worlds[i], worlds[i + 1]) {
        assert i < |s.worlds| - 1 ==> worlds[i + 1] == s.worlds[i + 1];
      }
    }
  }

  /** What happens by itself never touches the marker, and nothing lands that was not sent. */
  lemma HappenedIsAllowed(d: Durable, event: Event)
    ensures var after := Happened(d, event);
            && Allowed(d, after) && after.marker == d.marker && after.inFlight <= d.inFlight
            && (d.inFlight == {} ==> after.owed == d.owed) && (Covered(d) ==> Covered(after))
  {
    hide ValidMarker;
  }

  /** Outside events and their count. */
  predicate OnlyEvents(a: State, b: State) {
    && Went(a, b) && Unexposed(a, b) && b.log == a.log && b.script == a.script
    && b.now.marker == a.now.marker && b.now.inFlight <= a.now.inFlight
    && (a.now.inFlight == {} ==> b.now.owed == a.now.owed)
    && (b.faults == a.faults ==> b.owned == a.owned && b.lease == a.lease)
  }

  lemma EnvironmentOnlyEvents(s: State)
    ensures OnlyEvents(s, Environment(s)) && Environment(s).clock == s.clock + 1
  {
    hide Traced, Allowed, Happened, ValidMarker, Covered, Safe, NoneExposing;
    HappenedIsAllowed(s.now, ChoiceNow(s).event);
    PutIsTraced(s, Happened(s.now, ChoiceNow(s).event));
    TracedIsHistory(Put(s, Happened(s.now, ChoiceNow(s).event)), Environment(s));
  }

  /** Only the durable states matter to the history. */
  lemma TracedIsHistory(a: State, b: State)
    requires a.worlds == b.worlds && a.now == b.now
    ensures Traced(a) <==> Traced(b)
  {
  }

  // ---------------------------------------------------------------- authority

  function CaptureLease(s: State): (State, Result<Lease, RecoveryError>) {
    var a := Environment(s);
    if !a.owned then (a, Err(OwnershipLost))
    else if !a.lease.gateReleased then (a, Err(StartupGateHeld))
    else if !Eligible(a.lease) then (a, Err(LeaseInvalid))
    else (a, Ok(a.lease))
  }

  function Revalidate(s: State, l: Lease): (State, Option<RecoveryError>) {
    var a := Environment(s);
    (a, if Holds(a, l) then None else Some(OwnershipLost))
  }

  // ---------------------------------------------------------------- bridge

  function Status(s: State, l: Lease): (State, Result<Snapshot, RecoveryError>) {
    var (a, refused) := Revalidate(s, l);
    if refused.Some? then (a, Err(refused.value))
    else
      var b := Environment(a);
      if ChoiceNow(a).fault then (Fault(b), Err(MonitorUnavailable))
      else
        var seen := b.now.monitor;
        var c := Put(b.(log := b.log + [Observed(seen)]), b.now.(owed := if seen == UP then None else b.now.owed));
        var (d, lost) := Revalidate(c, l);
        (d, if lost.Some? then Err(lost.value) else Ok(seen))
  }

  /** A stop that is answered is over: the monitor went down. One that is not answered may have taken effect,
      or may still be in flight. */
  function Stop(s: State, l: Lease): (State, Option<RecoveryError>) {
    var (a, refused) := Revalidate(s, l);
    if refused.Some? then (a, refused)
    else
      var b := Environment(a);
      var sent := Put(b.(log := b.log + [StopSent]), b.now.(inFlight := b.now.inFlight + {l.scope}));
      var landed := Landed(sent.now, Lands(l.scope));
      if ChoiceNow(a).fault then
        (Fault(if ChoiceNow(a).effect then Put(sent, landed) else sent), Some(MonitorUnavailable))
      else
        Revalidate(Put(sent, landed.(inFlight := b.now.inFlight)), l)
  }

  function Start(s: State, l: Lease): (State, Option<RecoveryError>) {
    var (a, refused) := Revalidate(s, l);
    if refused.Some? then (a, refused)
    else
      var b := Environment(a);
      var asked := b.(log := b.log + [StartSent]);
      var started := if ChoiceNow(a).effect then Put(asked, b.now.(monitor := Snapshot(true, ChoiceNow(a).ready))) else asked;
      if ChoiceNow(a).fault then (Fault(started), Some(MonitorUnavailable)) else Revalidate(started, l)
  }

  // ---------------------------------------------------------------- marker storage

  function LoadMarker(s: State, l: Lease): (State, Result<Option<Marker>, RecoveryError>) {
    var (a, refused) := Revalidate(s, l);
    if refused.Some? then (a, Err(refused.value))
    else
      var b := Environment(a);
      if ChoiceNow(a).fault then (Fault(b), Err(MarkerFailed(StorageUnavailable)))
      else if b.now.marker.Some? && !ValidMarker(b.now.marker.value) then (b, Err(MarkerFailed(CorruptMarker)))
      else
        var (c, lost) := Revalidate(b, l);
        (c, if lost.Some? then Err(lost.value) else Ok(b.now.marker))
  }

  /** Creates the marker only if there is none; a failure may leave it created. */
  function PublishMarker(s: State, l: Lease, m: Marker): (State, Option<RecoveryError>) {
    var (a, refused) := Revalidate(s, l);
    if refused.Some? then (a, refused)
    else
      var b := Environment(a);
      var asked := b.(log := b.log + [PublishSent(m)]);
      if b.now.marker.Some? then (asked, Some(MarkerFailed(MarkerChanged)))
      else
        var written := Put(asked, b.now.(marker := Some(m)));
        if ChoiceNow(a).fault then (Fault(if ChoiceNow(a).effect then written else asked), Some(MarkerFailed(StorageUnavailable)))
        else Revalidate(written, l)
  }

  /** Removes the marker only if it is the expected one; a failure may leave it removed. */
  function ClearMarker(s: State, l: Lease, expected: Marker): (State, Option<RecoveryError>) {
    var (a, refused) := Revalidate(s, l);
    if refused.Some? then (a, refused)
    else
      var b := Environment(a);
      var asked := b.(log := b.log + [ClearSent(expected)]);
      if b.now.marker != Some(expected) then (asked, Some(MarkerFailed(MarkerChanged)))
      else
        var removed := Put(asked, b.now.(marker := None));
        if ChoiceNow(a).fault then (Fault(if ChoiceNow(a).effect then removed else asked), Some(MarkerFailed(StorageUnavailable)))
        else Revalidate(removed, l)
  }

  function RandomNonce(s: State): (State, Option<string>) {
    var digits := ChoiceNow(s).digits;
    var a := s.(clock := s.clock + 1);
    if |digits| != 32 then (Fault(a), None)
    else (a, Some(seq(32, i requires 0 <= i < 32 => HexDigit(digits[i] % 16))))
  }

  function HexDigit(n: nat): (c: char)
    requires n < 16
    ensures IsLowerHexDigit(c)
  {
    if n < 10 then (n + 48) as char else (n - 10 + 97) as char
  }

  // ---------------------------------------------------------------- what each action does

  lemma WentOn(a: State, b: State, c: State)
    requires Went(a, b) && Went(b, c)
    ensures Went(a, c) && (Unexposed(a, b) && Unexposed(b, c) ==> Unexposed(a, c))
  {
    hide Traced, Eligible, NoneExposing;
  }

  lemma OnlyEventsOn(a: State, b: State, c: State)
    requires OnlyEvents(a, b) && OnlyEvents(b, c)
    ensures OnlyEvents(a, c)
  {
    hide Traced, Eligible, Unexposed;
    WentOn(a, b, c);
  }

  /** A change of the durable state by the host itself. */
  lemma PutWent(a: State, b: State, d: Durable)
    requires b == Put(a.(log := b.log), d) && (Traced(a) ==> Allowed(a.now, d))
    ensures Went(a, b) && (!Exposing(a.now, d) ==> Unexposed(a, b))
  {
    hide Allowed, Eligible, Exposing;
    PutIsTraced(a, d);
    TracedIsHistory(Put(a, d), b);
  }

  lemma LogWent(a: State, b: State)
    requires b == a.(log := b.log, faults := b.faults, clock := b.clock) && a.faults <= b.faults
    ensures Went(a, b) && Unexposed(a, b)
  {
    hide Eligible;
    TracedIsHistory(a, b);
  }

  lemma CaptureFacts(s: State)
    ensures var (after, r) := CaptureLease(s);
            && OnlyEvents(s, after) && after.clock == s.clock + 1
            && (r.Ok? ==> Holds(after, r.value))
            && (r.Err? && after.faults == s.faults ==> !Holds(s, s.lease))
  {
    hide Went;
    EnvironmentOnlyEvents(s);
  }

  lemma RevalidateFacts(s: State, l: Lease)
    ensures var (after, refused) := Revalidate(s, l);
            && OnlyEvents(s, after) && after.clock == s.clock + 1
            && (refused == None <==> Holds(after, l))
            && (refused != None && after.faults == s.faults ==> !Holds(s, l))
  {
    hide Went;
    EnvironmentOnlyEvents(s);
  }

  lemma StatusFacts(s: State, l: Lease) returns (did: seq<Effect>)
    ensures var (after, r) := Status(s, l);
            && Went(s, after) && Unexposed(s, after) && after.log == s.log + did && after.script == s.script
            && (did == [] || (|did| == 1 && did[0].Observed?))
            && (r.Ok? ==> Holds(after, l) && did == [Observed(r.value)])
            && after.now.marker == s.now.marker && after.now.inFlight <= s.now.inFlight
            && (s.now.inFlight == {} ==> after.now.owed == if did == [Observed(UP)] then None else s.now.owed)
            && (r.Err? && after.faults == s.faults ==> !Holds(s, l))
  {
    hide Went, Unexposed, ValidMarker, Eligible;
    did := [];
    var (a, refused) := Revalidate(s, l);
    RevalidateFacts(s, l);
    if refused == None {
      var b := Environment(a);
      EnvironmentOnlyEvents(a);
      OnlyEventsOn(s, a, b);
      if ChoiceNow(a).fault {
        LogWent(b, Fault(b));
        WentOn(s, b, Fault(b));
      } else {
        var seen := b.now.monitor;
        did := [Observed(seen)];
        var d := b.now.(owed := if seen == UP then None else b.now.owed);
        var c := Put(b.(log := b.log + did), d);
        SeenIsAllowed(b.now, d);
        PutWent(b, c, d);
        WentOn(s, b, c);
        RevalidateFacts(c, l);
        WentOn(s, c, Revalidate(c, l).0);
      }
    }
  }

  lemma SeenIsAllowed(a: Durable, b: Durable)
    requires b == a.(owed := b.owed) && (b.owed == a.owed || b.owed == None)
    ensures Allowed(a, b)
  {
  }

  lemma StopFacts(s: State, l: Lease, m: Marker) returns (did: seq<Effect>)
    requires s.now.marker == Some(m) && ValidMarker(m) && m.scope == l.scope
    ensures var (after, error) := Stop(s, l);
            && Went(s, after) && Unexposed(s, after) && after.log == s.log + did && after.script == s.script
            && (did == [] || did == [StopSent])
            && (error == None ==> Holds(after, l) && did == [StopSent])
            && after.now.marker == s.now.marker
            && after.now.inFlight <= s.now.inFlight + (if error == Some(MonitorUnavailable) then {l.scope} else {})
            && (error == Some(MonitorUnavailable) ==> did == [StopSent])
            && (error != None && after.faults == s.faults ==> !Holds(s, l))
  {
    hide Went, Unexposed, ValidMarker, Eligible;
    did := [];
    var (a, refused) := Revalidate(s, l);
    RevalidateFacts(s, l);
    if refused == None {
      var b := Environment(a);
      EnvironmentOnlyEvents(a);
      OnlyEventsOn(s, a, b);
      did := [StopSent];
      var sent := Put(b.(log := b.log + did), b.now.(inFlight := b.now.inFlight + {l.scope}));
      SentIsAllowed(b.now, m, l.scope);
      PutWent(b, sent, sent.now);
      WentOn(s, b, sent);
      var landed := Landed(sent.now, Lands(l.scope));
      LandedIsAllowed(sent.now, l.scope, b.now.inFlight);
      if ChoiceNow(a).fault {
        var left := if ChoiceNow(a).effect then Put(sent, landed) else sent;
        if ChoiceNow(a).effect { PutWent(sent, left, landed); } else { LogWent(sent, left); }
        WentOn(s, sent, left);
        LogWent(left, Fault(left));
        WentOn(s, left, Fault(left));
      } else {
        var answered := Put(sent, landed.(inFlight := b.now.inFlight));
        PutWent(sent, answered, answered.now);
        WentOn(s, sent, answered);
        RevalidateFacts(answered, l);
        WentOn(s, answered, Revalidate(answered, l).0);
      }
    }
  }

  lemma SentIsAllowed(d: Durable, m: Marker, scope: string)
    requires d.marker == Some(m) && ValidMarker(m) && m.scope == scope
    ensures Allowed(d, d.(inFlight := d.inFlight + {scope}))
  {
  }

  lemma LandedIsAllowed(d: Durable, scope: string, before: set<string>)
    requires d.inFlight == before + {scope}
    ensures var landed := Landed(d, Lands(scope));
            && Allowed(d, landed) && Allowed(d, landed.(inFlight := before))
            && landed.marker == d.marker && landed.inFlight <= d.inFlight
  {
    hide ValidMarker;
  }

  lemma StartFacts(s: State, l: Lease) returns (did: seq<Effect>)
    ensures var (after, error) := Start(s, l);
            && Went(s, after) && Unexposed(s, after) && after.log == s.log + did && after.script == s.script
            && (did == [] || did == [StartSent])
            && (error == None ==> Holds(after, l) && did == [StartSent])
            && after.now.marker == s.now.marker && after.now.inFlight <= s.now.inFlight
            && (s.now.inFlight == {} ==> after.now.owed == s.now.owed)
            && (error != None && after.faults == s.faults ==> !Holds(s, l))
  {
    hide Went, Unexposed, ValidMarker, Eligible;
    did := [];
    var (a, refused) := Revalidate(s, l);
    RevalidateFacts(s, l);
    if refused == None {
      var b := Environment(a);
      EnvironmentOnlyEvents(a);
      OnlyEventsOn(s, a, b);
      did := [StartSent];
      var asked := b.(log := b.log + did);
      var up := b.now.(monitor := Snapshot(true, ChoiceNow(a).ready));
      var started := if ChoiceNow(a).effect then Put(asked, up) else asked;
      MonitorIsAllowed(b.now, up);
      if ChoiceNow(a).effect { PutWent(b, started, up); } else { LogWent(b, started); }
      WentOn(s, b, started);
      if ChoiceNow(a).fault {
        LogWent(started, Fault(started));
        WentOn(s, started, Fault(started));
      } else {
        RevalidateFacts(started, l);
        WentOn(s, started, Revalidate(started, l).0);
      }
    }
  }

  lemma MonitorIsAllowed(a: Durable, b: Durable)
    requires b == a.(monitor := b.monitor)
    ensures Allowed(a, b)
  {
  }

  lemma LoadFacts(s: State, l: Lease)
    ensures var (after, r) := LoadMarker(s, l);
            && OnlyEvents(s, after)
            && (r.Ok? ==> Holds(after, l) && r.value == after.now.marker == s.now.marker
                          && (r.value.Some? ==> ValidMarker(r.value.value)))
            && (r.Err? && after.faults == s.faults ==>
                  || !Holds(s, l)
                  || (s.now.marker.Some? && !ValidMarker(s.now.marker.value) && r.error == MarkerFailed(CorruptMarker)))
  {
    hide Went, Unexposed, ValidMarker, Eligible;
    var (a, refused) := Revalidate(s, l);
    RevalidateFacts(s, l);
    if refused == None {
      var b := Environment(a);
      EnvironmentOnlyEvents(a);
      OnlyEventsOn(s, a, b);
      if ChoiceNow(a).fault {
        LogWent(b, Fault(b));
        WentOn(s, b, Fault(b));
      } else {
        RevalidateFacts(b, l);
        OnlyEventsOn(s, b, Revalidate(b, l).0);
      }
    }
  }

  lemma PublishFacts(s: State, l: Lease, m: Marker) returns (did: seq<Effect>)
    requires ValidMarker(m)
    ensures var (after, error) := PublishMarker(s, l, m);
            && Went(s, after) && Unexposed(s, after) && after.log == s.log + did && after.script == s.script
            && (did == [] || did == [PublishSent(m)])
            && (after.now.marker == s.now.marker || (s.now.marker == None && after.now.marker == Some(m) && did == [PublishSent(m)]))
            && (error == None ==> Holds(after, l) && did == [PublishSent(m)] && after.now.marker == Some(m))
            && after.now.inFlight <= s.now.inFlight
            && (s.now.inFlight == {} ==> after.now.owed == s.now.owed)
            && (error != None && after.faults == s.faults ==> !Holds(s, l) || s.now.marker.Some?)
  {
    hide Went, Unexposed, ValidMarker, Eligible;
    did := [];
    var (a, refused) := Revalidate(s, l);
    RevalidateFacts(s, l);
    if refused == None {
      var b := Environment(a);
      EnvironmentOnlyEvents(a);
      OnlyEventsOn(s, a, b);
      did := [PublishSent(m)];
      var asked := b.(log := b.log + did);
      LogWent(b, asked);
      WentOn(s, b, asked);
      if b.now.marker == None {
        var written := Put(asked, b.now.(marker := Some(m)));
        PublishedIsAllowed(b.now, m);
        PutWent(b, written, written.now);
        WentOn(s, b, written);
        if ChoiceNow(a).fault {
          var left := if ChoiceNow(a).effect then written else asked;
          LogWent(left, Fault(left));
          WentOn(s, left, Fault(left));
        } else {
          RevalidateFacts(written, l);
          WentOn(s, written, Revalidate(written, l).0);
        }
      }
    }
  }

  lemma PublishedIsAllowed(d: Durable, m: Marker)
    requires d.marker == None
    ensures Allowed(d, d.(marker := Some(m)))
  {
  }

  lemma ClearFacts(s: State, l: Lease, expected: Marker) returns (did: seq<Effect>)
    ensures var (after, error) := ClearMarker(s, l, expected);
            && Went(s, after) && (s.now.inFlight == {} && s.now.owed == None ==> Unexposed(s, after))
            && after.log == s.log + did && after.script == s.script
            && (did == [] || did == [ClearSent(expected)])
            && (after.now.marker == s.now.marker
                || (s.now.marker == Some(expected) && after.now.marker == None && did == [ClearSent(expected)]))
            && (error == None ==> Holds(after, l) && did == [ClearSent(expected)] && after.now.marker == None)
            && after.now.inFlight <= s.now.inFlight
            && (s.now.inFlight == {} ==> after.now.owed == s.now.owed)
            && (error != None && after.faults == s.faults ==> !Holds(s, l) || s.now.marker != Some(expected))
  {
    hide Went, Unexposed, ValidMarker, Eligible;
    did := [];
    var (a, refused) := Revalidate(s, l);
    RevalidateFacts(s, l);
    if refused == None {
      var b := Environment(a);
      EnvironmentOnlyEvents(a);
      OnlyEventsOn(s, a, b);
      did := [ClearSent(expected)];
      var asked := b.(log := b.log + did);
      LogWent(b, asked);
      WentOn(s, b, asked);
      if b.now.marker == Some(expected) {
        var removed := Put(asked, b.now.(marker := None));
        ClearedIsAllowed(b.now);
        PutWent(b, removed, removed.now);
        WentOn(s, b, removed);
        if ChoiceNow(a).fault {
          var left := if ChoiceNow(a).effect then removed else asked;
          LogWent(left, Fault(left));
          WentOn(s, left, Fault(left));
        } else {
          RevalidateFacts(removed, l);
          WentOn(s, removed, Revalidate(removed, l).0);
        }
      }
    }
  }

  lemma ClearedIsAllowed(d: Durable)
    requires d.marker.Some?
    ensures Allowed(d, d.(marker := None))
  {
  }

  lemma NonceFacts(s: State)
    ensures var (after, nonce) := RandomNonce(s);
            && Went(s, after) && Unexposed(s, after) && after == s.(faults := after.faults, clock := s.clock + 1)
            && (nonce.Some? ==> IsLowerHex(nonce.value, 32)) && (nonce == None ==> after.faults > s.faults)
  {
    hide Went;
    LogWent(s, RandomNonce(s).0);
  }
}
