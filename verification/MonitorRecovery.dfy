/** Pausing and restoring the monitor around an update. */
module MonitorRecovery {
  import opened Results
  import opened RecoveryMarkers
  import World = MonitorWorld
  import opened MonitorWorld

  datatype PauseOutcome = MonitorWasStopped | MonitorAlreadyStopped

  datatype RestoreOutcome = NoMarker | MonitorAlreadyReady | MonitorRestored

  type PauseResult = Result<PauseOutcome, RecoveryError>

  type RestoreResult = Result<RestoreOutcome, RecoveryError>

  predicate SeenDown(effects: seq<Effect>) { |effects| == 1 && effects[0].Observed? && !effects[0].snapshot.running }

  predicate PauseDone(effects: seq<Effect>, lease: Lease) {
    && |effects| == 4 && effects[0] == Observed(UP)
    && effects[1].PublishSent? && ValidMarker(effects[1].marker) && effects[1].marker.origin == lease
    && effects[2] == StopSent && effects[3].Observed? && !effects[3].snapshot.running
  }

  predicate PausePart(effects: seq<Effect>) {
    && |effects| <= 4
    && (|effects| >= 1 ==> effects[0].Observed?)
    && (|effects| >= 2 ==> effects[0] == Observed(UP) && effects[1].PublishSent? && ValidMarker(effects[1].marker))
    && (|effects| >= 3 ==> effects[2] == StopSent)
    && (|effects| >= 4 ==> effects[3].Observed?)
  }

  predicate RestoreReady(effects: seq<Effect>, marker: Marker) { effects == [Observed(UP), ClearSent(marker)] }

  predicate RestoreDone(effects: seq<Effect>, marker: Marker) {
    && |effects| == 4 && effects[0].Observed? && !effects[0].snapshot.running
    && effects[1] == StartSent && effects[2] == Observed(UP) && effects[3] == ClearSent(marker)
  }

  /** A start is asked for only when the monitor was seen down, a clear only right after it was seen up. */
  predicate RestorePart(effects: seq<Effect>) {
    && |effects| <= 4
    && (|effects| >= 1 ==> effects[0].Observed?)
    && (|effects| >= 2 ==> if effects[0].snapshot.running then effects[0] == Observed(UP) && effects[1].ClearSent? && |effects| == 2
                           else effects[1] == StartSent)
    && (|effects| >= 3 ==> effects[2].Observed?)
    && (|effects| >= 4 ==> effects[2] == Observed(UP) && effects[3].ClearSent?)
  }

  // ---------------------------------------------------------------- the two transactions

  function Pausing(s: State): (State, PauseResult) {
    var (a, captured) := CaptureLease(s);
    if captured.Err? then (a, Err(captured.error)) else PauseUnder(a, captured.value)
  }

  function PauseUnder(s: State, l: Lease): (State, PauseResult) {
    var (a, loaded) := LoadMarker(s, l);
    if loaded.Err? then (a, Err(loaded.error))
    else if loaded.value.Some? then (a, Err(if loaded.value.value.scope != l.scope then MarkerScopeMismatch else RecoveryPending))
    else
      var (b, before) := Status(a, l);
      if before.Err? then (b, Err(before.error))
      else if !before.value.running then (b, Ok(MonitorAlreadyStopped))
      else if !before.value.ready then (b, Err(MonitorNotReady))
      else
        var (c, nonce) := RandomNonce(b);
        if nonce == None then (c, Err(MarkerFailed(RandomUnavailable)))
        else PublishAndStop(c, l, Marker(nonce.value, l.scope, l))
  }

  /** The end of a pause whose monitor was seen up. */
  function PublishAndStop(s: State, l: Lease, m: Marker): (State, PauseResult) {
    var (a, unpublished) := PublishMarker(s, l, m);
    if unpublished.Some? then (a, Err(unpublished.value))
    else
      var (b, unstopped) := World.Stop(a, l);
      if unstopped.Some? then (b, Err(unstopped.value))
      else
        var (c, after) := Status(b, l);
        (c, if after.Err? then Err(after.error) else if after.value.running then Err(MonitorStillRunning) else Ok(MonitorWasStopped))
  }

  function Restoring(s: State): (State, RestoreResult) {
    var (a, captured) := CaptureLease(s);
    if captured.Err? then (a, Err(captured.error)) else RestoreUnder(a, captured.value)
  }

  function RestoreUnder(s: State, l: Lease): (State, RestoreResult) {
    var (a, loaded) := LoadMarker(s, l);
    if loaded.Err? then (a, Err(loaded.error))
    else if loaded.value == None then (a, Ok(NoMarker))
    else if loaded.value.value.scope != l.scope then (a, Err(MarkerScopeMismatch))
    else
      var (b, current) := Status(a, l);
      if current.Err? then (b, Err(current.error))
      else if current.value.running then
        if !current.value.ready then (b, Err(MonitorNotReady)) else Clearing(b, l, loaded.value.value, MonitorAlreadyReady)
      else StartAndClear(b, l, loaded.value.value)
  }

  function Clearing(s: State, l: Lease, m: Marker, outcome: RestoreOutcome): (State, RestoreResult) {
    var (a, uncleared) := ClearMarker(s, l, m);
    (a, if uncleared.Some? then Err(uncleared.value) else Ok(outcome))
  }

  /** The end of a restore whose monitor was seen down. */
  function StartAndClear(s: State, l: Lease, m: Marker): (State, RestoreResult) {
    var (a, unstarted) := Start(s, l);
    if unstarted.Some? then (a, Err(unstarted.value))
    else
      var (b, restored) := Status(a, l);
      if restored.Err? then (b, Err(restored.error))
      else if !restored.value.running || !restored.value.ready then (b, Err(MonitorNotReady))
      else Clearing(b, l, m, MonitorRestored)
  }

  /** The host object: each method is the transaction as it runs, action by action. */
  class Host {
    var s: State

    constructor (s: State)
      ensures this.s == s
    {
      this.s := s;
    }

    method Pause() returns (r: PauseResult)
      modifies this
      ensures (s, r) == Pausing(old(s))
    {
      hide World.Stop, Status, PublishMarker, LoadMarker, CaptureLease, RandomNonce;
      var captured, loaded, before, nonce, failed, after;
      s, captured := CaptureLease(s).0, CaptureLease(s).1;
      if captured.Err? { return Err(captured.error); }
      var l := captured.value;
      s, loaded := LoadMarker(s, l).0, LoadMarker(s, l).1;
      if loaded.Err? { return Err(loaded.error); }
      if loaded.value.Some? {
        if loaded.value.value.scope != l.scope { return Err(MarkerScopeMismatch); }
        return Err(RecoveryPending);
      }
      s, before := Status(s, l).0, Status(s, l).1;
      if before.Err? { return Err(before.error); }
      if !before.value.running { return Ok(MonitorAlreadyStopped); }
      if !before.value.ready { return Err(MonitorNotReady); }
      s, nonce := RandomNonce(s).0, RandomNonce(s).1;
      if nonce == None { return Err(MarkerFailed(RandomUnavailable)); }
      var m := Marker(nonce.value, l.scope, l);
      s, failed := PublishMarker(s, l, m).0, PublishMarker(s, l, m).1;
      if failed.Some? { return Err(failed.value); }
      s, failed := World.Stop(s, l).0, World.Stop(s, l).1;
      if failed.Some? { return Err(failed.value); }
      s, after := Status(s, l).0, Status(s, l).1;
      if after.Err? { return Err(after.error); }
      if after.value.running { return Err(MonitorStillRunning); }
      r := Ok(MonitorWasStopped);
    }

    method Restore() returns (r: RestoreResult)
      modifies this
      ensures (s, r) == Restoring(old(s))
    {
      hide Start, Status, ClearMarker, LoadMarker, CaptureLease;
      var captured, loaded, current, failed, restored;
      s, captured := CaptureLease(s).0, CaptureLease(s).1;
      if captured.Err? { return Err(captured.error); }
      var l := captured.value;
      s, loaded := LoadMarker(s, l).0, LoadMarker(s, l).1;
      if loaded.Err? { return Err(loaded.error); }
      if loaded.value == None { return Ok(NoMarker); }
      var m := loaded.value.value;
      if m.scope != l.scope { return Err(MarkerScopeMismatch); }
      s, current := Status(s, l).0, Status(s, l).1;
      if current.Err? { return Err(current.error); }
      if current.value.running {
        if !current.value.ready { return Err(MonitorNotReady); }
        s, failed := ClearMarker(s, l, m).0, ClearMarker(s, l, m).1;
        if failed.Some? { return Err(failed.value); }
        return Ok(MonitorAlreadyReady);
      }
      s, failed := Start(s, l).0, Start(s, l).1;
      if failed.Some? { return Err(failed.value); }
      s, restored := Status(s, l).0, Status(s, l).1;
      if restored.Err? { return Err(restored.error); }
      if !restored.value.running || !restored.value.ready { return Err(MonitorNotReady); }
      s, failed := ClearMarker(s, l, m).0, ClearMarker(s, l, m).1;
      if failed.Some? { return Err(failed.value); }
      r := Ok(MonitorRestored);
    }
  }

  // ---------------------------------------------------------------- what a pause does

  /** Why a pause is refused over a marker. */
  function MarkerRefusal(m: Marker, l: Lease): RecoveryError {
    if !ValidMarker(m) then MarkerFailed(CorruptMarker) else if m.scope != l.scope then MarkerScopeMismatch else RecoveryPending
  }

  lemma FreshMarkerIsValid(m: Marker)
    requires IsLowerHex(m.nonce, 32) && Eligible(m.origin) && m.scope == m.origin.scope
    ensures ValidMarker(m)
  {
  }

  /** What the end of a pause did, in order: publish, stop, observe. From the stop on the marker is there,
      whatever fails; and a stop is left in flight only if it was not answered. */
  lemma PublishAndStopFacts(s: State, l: Lease, m: Marker) returns (done: seq<Effect>)
    requires s.now.marker == None && ValidMarker(m) && m.origin == l && m.scope == l.scope
    ensures var (after, r) := PublishAndStop(s, l, m);
            && Went(s, after) && Unexposed(s, after) && after.log == s.log + done && |done| <= 3 && after.script == s.script
            && (|done| >= 1 ==> done[0] == PublishSent(m)) && (|done| >= 2 ==> done[1] == StopSent)
            && (|done| >= 3 ==> done[2].Observed?)
            && (after.now.marker == None || (after.now.marker == Some(m) && |done| >= 1))
            && (|done| >= 2 ==> after.now.marker == Some(m))
            && (r.Ok? ==> r.value == MonitorWasStopped && |done| == 3 && !done[2].snapshot.running && Holds(after, l))
            && after.now.inFlight <= s.now.inFlight + (if r == Err(MonitorUnavailable) && |done| == 2 then {l.scope} else {})
            && (r.Err? && after.faults == s.faults && Holds(s, l) ==> |done| == 3 && done[2].snapshot.running && r.error == MonitorStillRunning)
  {
    hide PublishMarker, World.Stop, Status, Went, Unexposed, ValidMarker, Eligible;
    var (a, unpublished) := PublishMarker(s, l, m);
    done := PublishFacts(s, l, m);
    FaultsGrow(s, a);
    if unpublished == None {
      var (b, unstopped) := World.Stop(a, l);
      var did := StopFacts(a, l, m);
      done := done + did;
      WentOn(s, a, b);
      FaultsGrow(a, b);
      if unstopped == None {
        did := StatusFacts(b, l);
        done := done + did;
        WentOn(s, b, Status(b, l).0);
        FaultsGrow(b, Status(b, l).0);
      }
      assert PublishAndStop(s, l, m).0.log == s.log + done;
    }
  }

  lemma StaysRecoverable(a: State, b: State)
    ensures b.owned == a.owned && b.lease == a.lease && b.now.marker == a.now.marker ==> (Recoverable(a) <==> Recoverable(b))
    ensures (&& Holds(a, a.lease) && b.owned == a.owned && b.lease == a.lease && b.now.marker.Some?
             && ValidMarker(b.now.marker.value) && b.now.marker.value.scope == a.lease.scope) ==> Recoverable(b)
  {
    hide Eligible, ValidMarker;
  }

  lemma FaultsGrow(a: State, b: State)
    requires Went(a, b)
    ensures a.faults <= b.faults && (b.faults == a.faults ==> b.owned == a.owned && b.lease == a.lease)
  {
  }

  /** What a whole pause did. With a marker present it does nothing; an answered stop leaves nothing in flight. */
  lemma PauseFacts(s: State) returns (done: seq<Effect>)
    ensures var (after, r) := Pausing(s);
            && Went(s, after) && Unexposed(s, after) && after.log == s.log + done && PausePart(done) && after.script == s.script
            && (r == Ok(MonitorWasStopped) ==> PauseDone(done, after.lease) && Holds(after, after.lease))
            && (r == Ok(MonitorAlreadyStopped) ==> SeenDown(done) && Holds(after, after.lease) && after.now.marker == None)
            && (s.now.marker.Some? ==> r.Err? && done == [] && after.now.marker == s.now.marker)
            && (s.now.marker == None ==> after.now.marker == None || (|done| >= 2 && after.now.marker == Some(done[1].marker)))
            && (|done| >= 3 ==> s.now.marker == None && after.now.marker == Some(done[1].marker))
            && (|done| >= 3 && after.faults == s.faults ==> Recoverable(after))
            && (Recoverable(s) && after.faults == s.faults ==> Recoverable(after))
            && ((r == Err(MonitorUnavailable) && |done| == 3) || after.now.inFlight <= s.now.inFlight)
            && (r.Err? && after.faults == s.faults && s.now.marker == None && Holds(s, s.lease) ==>
                  && done != [] && done[|done| - 1].Observed? && done[|done| - 1].snapshot.running
                  && r.error == if |done| == 1 then MonitorNotReady else MonitorStillRunning)
            && (after.faults == s.faults && s.now.marker.Some? && Holds(s, s.lease) ==> r == Err(MarkerRefusal(s.now.marker.value, s.lease)))
  {
    hide CaptureLease, PauseUnder, Went, Unexposed, ValidMarker, Eligible;
    var (a, captured) := CaptureLease(s);
    CaptureFacts(s);
    done := [];
    FaultsGrow(s, a);
    if captured.Ok? {
      done := PauseUnderFacts(a, captured.value);
      WentOn(s, a, Pausing(s).0);
      FaultsGrow(a, Pausing(s).0);
      StaysRecoverable(s, a);
      StaysRecoverable(a, Pausing(s).0);
    }
  }

  lemma PauseUnderFacts(s: State, l: Lease) returns (done: seq<Effect>)
    requires Holds(s, l)
    ensures var (after, r) := PauseUnder(s, l);
            && Went(s, after) && Unexposed(s, after) && after.log == s.log + done && PausePart(done) && after.script == s.script
            && (r == Ok(MonitorWasStopped) ==> PauseDone(done, l) && Holds(after, l))
            && (r == Ok(MonitorAlreadyStopped) ==> SeenDown(done) && Holds(after, l) && after.now.marker == None)
            && (s.now.marker.Some? ==> r.Err? && done == [] && after.now.marker == s.now.marker)
            && (s.now.marker == None ==> after.now.marker == None || (|done| >= 2 && after.now.marker == Some(done[1].marker)))
            && (|done| >= 3 ==> s.now.marker == None && after.now.marker == Some(done[1].marker))
            && (|done| >= 2 ==> done[1].marker.origin == l && done[1].marker.scope == l.scope)
            && ((r == Err(MonitorUnavailable) && |done| == 3) || after.now.inFlight <= s.now.inFlight)
            && (r.Err? && after.faults == s.faults && s.now.marker == None ==>
                  && done != [] && done[|done| - 1].Observed? && done[|done| - 1].snapshot.running
                  && r.error == if |done| == 1 then MonitorNotReady else MonitorStillRunning)
            && (after.faults == s.faults && s.now.marker.Some? ==> r == Err(MarkerRefusal(s.now.marker.value, l)))
  {
    hide LoadMarker, Status, RandomNonce, PublishAndStop, Went, Unexposed, ValidMarker;
    var (a, loaded) := LoadMarker(s, l);
    LoadFacts(s, l);
    FaultsGrow(s, a);
    done := [];
    if loaded == Ok(None) {
      var (b, before) := Status(a, l);
      done := StatusFacts(a, l);
      WentOn(s, a, b);
      FaultsGrow(a, b);
      if before == Ok(UP) {
        var (c, nonce) := RandomNonce(b);
        NonceFacts(b);
        WentOn(s, b, c);
        FaultsGrow(b, c);
        if nonce.Some? {
          var m := Marker(nonce.value, l.scope, l);
          FreshMarkerIsValid(m);
          var did := PublishAndStopFacts(c, l, m);
          done := done + did;
          WentOn(s, c, PublishAndStop(c, l, m).0);
          FaultsGrow(c, PublishAndStop(c, l, m).0);
        }
      }
    }
  }

  // ---------------------------------------------------------------- what a restore does

  /** Why a restore fails over a marker, without faults: nothing is asked of the monitor over a foreign or invalid
      one; over any other it was not seen up. */
  function RestoreRefusal(m: Marker, l: Lease): RecoveryError {
    if !ValidMarker(m) then MarkerFailed(CorruptMarker) else if m.scope != l.scope then MarkerScopeMismatch else MonitorNotReady
  }

  lemma StartAndClearFacts(s: State, l: Lease, m: Marker) returns (done: seq<Effect>)
    requires s.now.marker == Some(m)
    ensures var (after, r) := StartAndClear(s, l, m);
            && Went(s, after) && (s.now.inFlight == {} ==> Unexposed(s, after)) && after.log == s.log + done && |done| <= 3 && after.script == s.script
            && (|done| >= 1 ==> done[0] == StartSent) && (|done| >= 2 ==> done[1].Observed?)
            && (|done| >= 3 ==> done[1] == Observed(UP) && done[2] == ClearSent(m))
            && (r.Ok? ==> r.value == MonitorRestored && |done| == 3 && after.now.marker == None && Holds(after, l))
            && (after.now.marker == Some(m) || (after.now.marker == None && |done| == 3))
            && after.now.inFlight <= s.now.inFlight
            && (s.now.inFlight == {} ==> after.now.owed == if |done| >= 2 && done[1] == Observed(UP) then None else s.now.owed)
            && (r.Err? && after.faults == s.faults && Holds(s, l) ==>
                  after.now.marker == Some(m) && |done| == 2 && done[1].snapshot != UP && r.error == MonitorNotReady)
  {
    hide Start, Status, ClearMarker, Went, Unexposed, ValidMarker, Eligible;
    var (a, unstarted) := Start(s, l);
    done := StartFacts(s, l);
    FaultsGrow(s, a);
    if unstarted == None {
      var (b, restored) := Status(a, l);
      var did := StatusFacts(a, l);
      done := done + did;
      WentOn(s, a, b);
      FaultsGrow(a, b);
      if restored == Ok(UP) {
        did := ClearFacts(b, l, m);
        done := done + did;
        WentOn(s, b, ClearMarker(b, l, m).0);
        FaultsGrow(b, ClearMarker(b, l, m).0);
      }
      assert StartAndClear(s, l, m).0.log == s.log + done;
    }
  }

  lemma RestoreUnderFacts(s: State, l: Lease) returns (done: seq<Effect>)
    requires Holds(s, l)
    ensures var (after, r) := RestoreUnder(s, l);
            && Went(s, after) && (s.now.inFlight == {} ==> Unexposed(s, after)) && after.log == s.log + done && RestorePart(done) && after.script == s.script
            && (r == Ok(NoMarker) ==> done == [] && s.now.marker == None)
            && (r == Ok(MonitorAlreadyReady) ==> s.now.marker.Some? && RestoreReady(done, s.now.marker.value))
            && (r == Ok(MonitorRestored) ==> s.now.marker.Some? && RestoreDone(done, s.now.marker.value))
            && (r.Ok? ==> Holds(after, l) && after.now.marker == None)
            && (after.now.marker == s.now.marker || (after.now.marker == None && done != [] && done[|done| - 1].ClearSent?))
            && after.now.inFlight <= s.now.inFlight
            && (s.now.inFlight == {} && r.Ok? && r.value != NoMarker ==> after.now.owed == None)
            && (r.Err? && after.faults == s.faults ==>
                  && s.now.marker.Some? && after.now.marker == s.now.marker
                  && r.error == RestoreRefusal(s.now.marker.value, l)
                  && (r.error == MonitorNotReady ==> done != [] && done[|done| - 1].Observed? && done[|done| - 1].snapshot != UP))
            && (done != [] ==> s.now.marker.Some? && ValidMarker(s.now.marker.value) && s.now.marker.value.scope == l.scope)
  {
    hide LoadMarker, Status, StartAndClear, ClearMarker, Went, Unexposed, ValidMarker, Eligible;
    var (a, loaded) := LoadMarker(s, l);
    LoadFacts(s, l);
    FaultsGrow(s, a);
    done := [];
    if loaded.Ok? && loaded.value.Some? && loaded.value.value.scope == l.scope {
      var m := loaded.value.value;
      var (b, current) := Status(a, l);
      done := StatusFacts(a, l);
      WentOn(s, a, b);
      FaultsGrow(a, b);
      if current.Ok? && !current.value.running {
        var did := StartAndClearFacts(b, l, m);
        done := done + did;
        WentOn(s, b, StartAndClear(b, l, m).0);
        FaultsGrow(b, StartAndClear(b, l, m).0);
      } else if current == Ok(UP) {
        var did := ClearFacts(b, l, m);
        done := done + did;
        WentOn(s, b, ClearMarker(b, l, m).0);
        FaultsGrow(b, ClearMarker(b, l, m).0);
      }
      assert RestoreUnder(s, l).0.log == s.log + done;
    }
  }

  /** What a whole restore did. It adds nothing to what is in flight; with nothing in flight at its start, a
      restore that found a marker and succeeds leaves nothing owed. Without faults it fails only on a marker
      of another scope, an invalid marker, or a monitor that was not seen up. */
  lemma RestoreFacts(s: State) returns (done: seq<Effect>)
    ensures var (after, r) := Restoring(s);
            && Went(s, after) && (s.now.inFlight == {} ==> Unexposed(s, after)) && after.log == s.log + done && RestorePart(done) && after.script == s.script
            && (r == Ok(NoMarker) ==> done == [] && s.now.marker == None)
            && (r == Ok(MonitorAlreadyReady) ==> s.now.marker.Some? && RestoreReady(done, s.now.marker.value))
            && (r == Ok(MonitorRestored) ==> s.now.marker.Some? && RestoreDone(done, s.now.marker.value))
            && (r.Ok? ==> Holds(after, after.lease) && after.now.marker == None)
            && (after.now.marker == s.now.marker || (after.now.marker == None && done != [] && done[|done| - 1].ClearSent?))
            && after.now.inFlight <= s.now.inFlight
            && (s.now.inFlight == {} && r.Ok? && r.value != NoMarker ==> after.now.owed == None)
            && (r.Err? && after.faults == s.faults && Holds(s, s.lease) ==>
                  && s.now.marker.Some? && after.now.marker == s.now.marker
                  && r.error == RestoreRefusal(s.now.marker.value, s.lease)
                  && (r.error == MonitorNotReady ==> done != [] && done[|done| - 1].Observed? && done[|done| - 1].snapshot != UP))
            && (done != [] ==>
                  && s.now.marker.Some? && ValidMarker(s.now.marker.value)
                  && (after.faults == s.faults ==> s.now.marker.value.scope == s.lease.scope))
  {
    hide CaptureLease, RestoreUnder, Went, Unexposed, ValidMarker, Eligible;
    var (a, captured) := CaptureLease(s);
    CaptureFacts(s);
    done := [];
    FaultsGrow(s, a);
    if captured.Ok? {
      done := RestoreUnderFacts(a, captured.value);
      WentOn(s, a, Restoring(s).0);
      FaultsGrow(a, Restoring(s).0);
    }
  }
}
