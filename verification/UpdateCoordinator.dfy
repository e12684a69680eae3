/** The update transaction: verify, pause the monitor, install, relaunch, and at most one restore when a
    later step fails. */
module UpdateCoordinator {
  import opened Results
  import opened RecoveryMarkers
  import opened MonitorWorld
  import opened MonitorRecovery

  datatype RecoveryAttempt = NotNeeded | Resolved(outcome: RestoreOutcome) | Failed(error: RecoveryError)

  datatype UpdateOutcome = UpdateOutcome(candidate: Candidate, pause: PauseOutcome)

  datatype CoordinatorError =
    | DownloadOrVerification
    | CandidateMismatch(expected: Candidate, actual: Candidate)
    | PauseFailed(primary: RecoveryError, recovery: RecoveryAttempt)
    | InstallFailed(recovery: RecoveryAttempt)
    | RelaunchFailed(recovery: RecoveryAttempt)

  type UpdateResult = Result<UpdateOutcome, CoordinatorError>

  function Attempt(error: CoordinatorError): Option<RecoveryAttempt> {
    match error
    case PauseFailed(_, recovery) => Some(recovery)
    case InstallFailed(recovery) => Some(recovery)
    case RelaunchFailed(recovery) => Some(recovery)
    case _ => None
  }

  // ---------------------------------------------------------------- the transaction

  function DownloadAndVerify(s: State, candidate: Candidate): (State, Option<VerifiedUpdate>) {
    var verified := ChoiceNow(s).verified;
    var a := Environment(s);
    (a.(log := a.log + [VerifySent(candidate, verified)]), verified)
  }

  /** Asks for the install of an update, or for a relaunch; the answer is free. */
  function Request(s: State, update: Option<VerifiedUpdate>): (State, bool) {
    var a, accepted := Environment(s), !ChoiceNow(s).fault;
    (a.(log := a.log + [Requested(update, accepted)]), accepted)
  }

  function Requested(update: Option<VerifiedUpdate>, accepted: bool): Effect {
    match update case Some(u) => InstallSent(u, accepted) case None => RelaunchSent(accepted)
  }

  function BestEffortRestoreAfterPauseFailure(s: State): (State, RecoveryAttempt) {
    var (a, restored) := Restoring(s);
    (a, match restored case Ok(outcome) => Resolved(outcome) case Err(error) => Failed(error))
  }

  function BestEffortRestore(s: State, pause: PauseOutcome): (State, RecoveryAttempt) {
    if pause == MonitorAlreadyStopped then (s, NotNeeded) else BestEffortRestoreAfterPauseFailure(s)
  }

  function Executing(s: State, candidate: Candidate): (State, UpdateResult) {
    var (a, verified) := DownloadAndVerify(s, candidate);
    if verified == None then (a, Err(DownloadOrVerification))
    else if verified.value.candidate != candidate then (a, Err(CandidateMismatch(candidate, verified.value.candidate)))
    else
      var (b, paused) := Pausing(a);
      if paused.Err? then
        var (c, recovery) := BestEffortRestoreAfterPauseFailure(b);
        (c, Err(PauseFailed(paused.error, recovery)))
      else InstallAndRelaunch(b, candidate, verified.value, paused.value)
  }

  /** The transaction from the install on. */
  function InstallAndRelaunch(s: State, candidate: Candidate, update: VerifiedUpdate, pause: PauseOutcome): (State, UpdateResult) {
    var (a, installed) := Request(s, Some(update));
    if !installed then
      var (b, recovery) := BestEffortRestore(a, pause);
      (b, Err(InstallFailed(recovery)))
    else
      var (b, relaunched) := Request(a, None);
      if !relaunched then
        var (c, recovery) := BestEffortRestore(b, pause);
        (c, Err(RelaunchFailed(recovery)))
      else (b, Ok(UpdateOutcome(candidate, pause)))
  }

  /** The coordinator as it runs. */
  method Execute(host: Host, candidate: Candidate) returns (r: UpdateResult)
    modifies host
    ensures (host.s, r) == Executing(old(host.s), candidate)
  {
    hide Pausing, Restoring, DownloadAndVerify, Request;
    var verified;
    host.s, verified := DownloadAndVerify(host.s, candidate).0, DownloadAndVerify(host.s, candidate).1;
    if verified == None { return Err(DownloadOrVerification); }
    if verified.value.candidate != candidate { return Err(CandidateMismatch(candidate, verified.value.candidate)); }
    var paused := host.Pause();
    if paused.Err? {
      var recovery := AttemptRestore(host);
      return Err(PauseFailed(paused.error, recovery));
    }
    var installed, relaunched;
    host.s, installed := Request(host.s, verified).0, Request(host.s, verified).1;
    if !installed {
      if paused.value == MonitorAlreadyStopped { return Err(InstallFailed(NotNeeded)); }
      var recovery := AttemptRestore(host);
      return Err(InstallFailed(recovery));
    }
    host.s, relaunched := Request(host.s, None).0, Request(host.s, None).1;
    if !relaunched {
      if paused.value == MonitorAlreadyStopped { return Err(RelaunchFailed(NotNeeded)); }
      var recovery := AttemptRestore(host);
      return Err(RelaunchFailed(recovery));
    }
    r := Ok(UpdateOutcome(candidate, paused.value));
  }

  method AttemptRestore(host: Host) returns (attempt: RecoveryAttempt)
    modifies host
    ensures (host.s, attempt) == BestEffortRestoreAfterPauseFailure(old(host.s))
  {
    hide Restoring;
    var restored := host.Restore();
    attempt := match restored case Ok(outcome) => Resolved(outcome) case Err(error) => Failed(error);
  }

  // ---------------------------------------------------------------- what one transaction does

  /** What one transaction asked of the world, stage by stage. */
  datatype Transcript = Transcript(
    verify: seq<Effect>, pause: seq<Effect>, install: seq<Effect>, relaunch: seq<Effect>, restore: seq<Effect>)

  function Asked(t: Transcript): seq<Effect> { t.verify + t.pause + t.install + t.relaunch + t.restore }

  predicate NothingStarted(t: Transcript) { t.pause == [] && t.install == [] && t.relaunch == [] && t.restore == [] }

  /** One request and its answer. */
  predicate Asks(effects: seq<Effect>, update: Option<VerifiedUpdate>, accepted: bool) { effects == [Requested(update, accepted)] }

  predicate Accepted(effects: seq<Effect>, update: Option<VerifiedUpdate>) { Asks(effects, update, true) }

  predicate Declined(effects: seq<Effect>, update: Option<VerifiedUpdate>) { Asks(effects, update, false) }

  ghost predicate Paused(pause: seq<Effect>) { SeenDown(pause) || exists l :: PauseDone(pause, l) }

  /** The stages happen in this order, each only once the one before it is complete, and what is
      installed is what was verified for this candidate. */
  ghost predicate InOrder(t: Transcript, candidate: Candidate) {
    && |t.verify| == 1 && t.verify[0].VerifySent? && t.verify[0].candidate == candidate
    && PausePart(t.pause) && RestorePart(t.restore)
    && (t.pause != [] ==> t.verify[0].verified.Some? && t.verify[0].verified.value.candidate == candidate)
    && (t.install != [] ==>
          && Paused(t.pause) && t.verify[0].verified.Some?
          && (Accepted(t.install, t.verify[0].verified) || Declined(t.install, t.verify[0].verified)))
    && (t.relaunch != [] ==> Accepted(t.install, t.verify[0].verified) && (Accepted(t.relaunch, None) || Declined(t.relaunch, None)))
  }

  /** The result tells what happened: success if everything was accepted, or the first thing that was not. */
  predicate Verdict(t: Transcript, candidate: Candidate, r: UpdateResult)
    requires |t.verify| == 1 && t.verify[0].VerifySent?
  {
    match r
    case Ok(outcome) => outcome.candidate == candidate && Accepted(t.relaunch, None) && t.restore == []
    case Err(DownloadOrVerification) => t.verify[0].verified == None && NothingStarted(t)
    case Err(CandidateMismatch(expected, actual)) =>
      t.verify[0].verified.Some? && t.verify[0].verified.value.candidate == actual != candidate == expected && NothingStarted(t)
    case Err(PauseFailed(_, recovery)) => t.install == [] && recovery != NotNeeded
    case Err(InstallFailed(_)) => Declined(t.install, t.verify[0].verified) && t.relaunch == []
    case Err(RelaunchFailed(_)) => Declined(t.relaunch, None)
  }

  /** The pause got no further than its stop, which was not answered: it may still be in flight. */
  predicate StopUnanswered(t: Transcript, r: UpdateResult) { |t.pause| == 3 && PauseUnanswered(r) }

  /** What the caller sees of it. */
  predicate PauseUnanswered(r: UpdateResult) { r.Err? && r.error.PauseFailed? && r.error.primary == MonitorUnavailable }

  /** A restore was tried to its end: its marker was cleared, or the monitor was not seen up. */
  predicate Tried(attempt: RecoveryAttempt, restore: seq<Effect>) {
    && restore != [] && attempt != NotNeeded
    && var last := restore[|restore| - 1];
       if attempt.Resolved? then last.ClearSent? else last.Observed? && last.snapshot != UP
  }

  lemma VerifyFacts(s: State, candidate: Candidate)
    ensures var (after, verified) := DownloadAndVerify(s, candidate);
            && Went(s, after) && Unexposed(s, after) && after.log == s.log + [VerifySent(candidate, verified)] && after.script == s.script
            && after.now.marker == s.now.marker && after.now.inFlight <= s.now.inFlight
            && (s.now.inFlight == {} ==> after.now.owed == s.now.owed)
  {
    hide Went, Unexposed;
    var a := Environment(s);
    EnvironmentOnlyEvents(s);
    LogWent(a, DownloadAndVerify(s, candidate).0);
    WentOn(s, a, DownloadAndVerify(s, candidate).0);
  }

  lemma RequestFacts(s: State, update: Option<VerifiedUpdate>)
    ensures var (after, accepted) := Request(s, update);
            && Went(s, after) && Unexposed(s, after) && after.log == s.log + [Requested(update, accepted)] && after.script == s.script
            && after.now.marker == s.now.marker && after.now.inFlight <= s.now.inFlight
            && (s.now.inFlight == {} ==> after.now.owed == s.now.owed)
  {
    hide Went, Unexposed;
    var a := Environment(s);
    EnvironmentOnlyEvents(s);
    LogWent(a, Request(s, update).0);
    WentOn(s, a, Request(s, update).0);
  }

  lemma AttemptFacts(s: State) returns (done: seq<Effect>)
    ensures var (after, attempt) := BestEffortRestoreAfterPauseFailure(s);
            && Went(s, after) && (s.now.inFlight == {} ==> Unexposed(s, after)) && after.log == s.log + done && RestorePart(done) && after.script == s.script
            && attempt != NotNeeded && after.now.inFlight <= s.now.inFlight
            && (attempt.Resolved? ==> after.now.marker == None)
            && (attempt.Resolved? && s.now.marker.Some? ==> Tried(attempt, done))
            && (Recoverable(s) && after.faults == s.faults ==> Tried(attempt, done))
  {
    hide Went, Unexposed, Restoring;
    done := RestoreFacts(s);
  }

  lemma BestEffortFacts(s: State, pause: PauseOutcome) returns (done: seq<Effect>)
    requires pause == MonitorAlreadyStopped ==> s.now.marker == None
    ensures var (after, attempt) := BestEffortRestore(s, pause);
            && Went(s, after) && (s.now.inFlight == {} ==> Unexposed(s, after)) && after.log == s.log + done && RestorePart(done) && after.script == s.script
            && (attempt == NotNeeded <==> pause == MonitorAlreadyStopped) && (attempt == NotNeeded ==> done == [])
            && after.now.inFlight <= s.now.inFlight
            && (!attempt.Failed? ==> after.now.marker == None)
            && (pause == MonitorWasStopped && Recoverable(s) && after.faults == s.faults ==> Tried(attempt, done))
  {
    hide BestEffortRestoreAfterPauseFailure, RestorePart;
    done := [];
    EmptyParts();
    StayedWent(s);
    if pause != MonitorAlreadyStopped { done := AttemptFacts(s); }
  }

  lemma EmptyParts()
    ensures PausePart([]) && RestorePart([])
  {
  }

  lemma StayedWent(s: State)
    ensures Went(s, s) && Unexposed(s, s)
  {
  }

  lemma InstallFacts(s: State, candidate: Candidate, update: VerifiedUpdate, pause: PauseOutcome, before: Transcript)
    returns (t: Transcript)
    requires before.install == before.relaunch == before.restore == []
    requires pause == MonitorAlreadyStopped ==> s.now.marker == None
    ensures var (after, r) := InstallAndRelaunch(s, candidate, update, pause);
            && Went(s, after) && (s.now.inFlight == {} ==> Unexposed(s, after)) && t == before.(install := t.install, relaunch := t.relaunch, restore := t.restore)
            && after.script == s.script
            && after.log == s.log + t.install + t.relaunch + t.restore
            && RestorePart(t.restore)
            && after.now.inFlight <= s.now.inFlight
            && (r.Ok? ==> r.value == UpdateOutcome(candidate, pause) && Accepted(t.install, Some(update)) && Accepted(t.relaunch, None) && t.restore == []
                          && after.now.marker == s.now.marker)
            && (r.Err? ==>
                  && (r.error.InstallFailed? || r.error.RelaunchFailed?)
                  && (if r.error.InstallFailed? then Declined(t.install, Some(update)) && t.relaunch == []
                      else Accepted(t.install, Some(update)) && Declined(t.relaunch, None))
                  && (Attempt(r.error) == Some(NotNeeded) <==> pause == MonitorAlreadyStopped)
                  && (pause == MonitorAlreadyStopped ==> t.restore == [])
                  && (pause == MonitorWasStopped && Recoverable(s) && after.faults == s.faults ==>
                        Tried(Attempt(r.error).value, t.restore))
                  && (!Attempt(r.error).value.Failed? ==> after.now.marker == None))
  {
    hide Went, Unexposed, Request, BestEffortRestore, RestorePart;
    EmptyParts();
    var (a, installed) := Request(s, Some(update));
    RequestFacts(s, Some(update));
    t := before.(install := [InstallSent(update, installed)]);
    FaultsGrow(s, a);
    if !installed {
      var done := BestEffortFacts(a, pause);
      t := t.(restore := done);
      WentOn(s, a, BestEffortRestore(a, pause).0);
      FaultsGrow(a, BestEffortRestore(a, pause).0);
    } else {
      var (b, relaunched) := Request(a, None);
      RequestFacts(a, None);
      WentOn(s, a, b);
      FaultsGrow(a, b);
      t := t.(relaunch := [RelaunchSent(relaunched)]);
      if !relaunched {
        var done := BestEffortFacts(b, pause);
        t := t.(restore := done);
        WentOn(s, b, BestEffortRestore(b, pause).0);
        FaultsGrow(b, BestEffortRestore(b, pause).0);
      }
    }
  }

  /** Effects come in order; an obligation is exposed, and a stop in flight that was not before, only if
      something was in flight at the start or the pause failed because its stop was not answered. */
  ghost predicate Framed(s: State, after: State, r: UpdateResult, t: Transcript, candidate: Candidate) {
    && Went(s, after) && after.script == s.script && after.log == s.log + Asked(t) && InOrder(t, candidate)
    && (s.now.inFlight == {} && !StopUnanswered(t, r) ==> Unexposed(s, after))
    && (StopUnanswered(t, r) || after.now.inFlight <= s.now.inFlight)
  }

  /** What becomes of the marker. Success hands over to the next start: a stopped monitor keeps its marker. A
      failure before the pause leaves the marker alone. After a failure with any recovery but a failed one it
      is gone. Without faults a pause fails only over a marker or a monitor seen running, and a restore is
      tried to its end whenever the pause had sent a stop or the marker was there. */
  predicate Recovered(s: State, after: State, r: UpdateResult, t: Transcript) {
    && (r.Ok? ==> if r.value.pause == MonitorWasStopped
                  then |t.pause| == 4 && t.pause[1].PublishSent? && after.now.marker == Some(t.pause[1].marker)
                  else SeenDown(t.pause) && after.now.marker == None)
    && (r.Err? && Attempt(r.error) == None ==> after.now.marker == s.now.marker)
    && (r.Err? && Attempt(r.error).Some? && !Attempt(r.error).value.Failed? ==> after.now.marker == None)
    && (r.Err? && Attempt(r.error) == Some(NotNeeded) ==> SeenDown(t.pause) && t.restore == [])
    && (r.Err? && r.error.PauseFailed? && after.faults == s.faults && Holds(s, s.lease) && s.now.marker == None ==>
          t.pause != [] && t.pause[|t.pause| - 1].Observed? && t.pause[|t.pause| - 1].snapshot.running)
    && (r.Err? && Attempt(r.error).Some? && after.faults == s.faults && (|t.pause| >= 3 || (r.error.PauseFailed? && Recoverable(s))) ==>
          Tried(Attempt(r.error).value, t.restore))
  }

  /** One update, whatever fails, with at most one restore at the end. */
  lemma ExecuteFacts(s: State, candidate: Candidate) returns (t: Transcript)
    ensures var (after, r) := Executing(s, candidate);
            Framed(s, after, r, t, candidate) && Verdict(t, candidate, r) && Recovered(s, after, r, t)
  {
    hide Went, Unexposed, Recoverable, Tried, DownloadAndVerify, Pausing, InstallAndRelaunch, BestEffortRestoreAfterPauseFailure, Framed, Recovered;
    var (a, verified) := DownloadAndVerify(s, candidate);
    if verified == None || verified.value.candidate != candidate {
      t := Transcript([VerifySent(candidate, verified)], [], [], [], []);
      NothingBegun(s, candidate, t);
    } else if Pausing(a).1.Err? {
      t := PauseFailedFacts(s, candidate);
    } else {
      t := InstalledFacts(s, candidate);
    }
  }

  lemma NothingBegun(s: State, candidate: Candidate, t: Transcript)
    requires var verified := DownloadAndVerify(s, candidate).1;
             && (verified == None || verified.value.candidate != candidate)
             && t == Transcript([VerifySent(candidate, verified)], [], [], [], [])
    ensures var (after, r) := Executing(s, candidate);
            Framed(s, after, r, t, candidate) && Verdict(t, candidate, r) && Recovered(s, after, r, t)
  {
    hide Went, Unexposed, Recoverable, Tried, DownloadAndVerify, Pausing, InstallAndRelaunch, SeenDown, PausePart, RestorePart;
    EmptyParts();
    VerifyFacts(s, candidate);
    assert Asked(t) == t.verify;
  }

  lemma PauseFailedFacts(s: State, candidate: Candidate) returns (t: Transcript)
    requires var (a, verified) := DownloadAndVerify(s, candidate);
             verified.Some? && verified.value.candidate == candidate && Pausing(a).1.Err?
    ensures var (after, r) := Executing(s, candidate);
            Framed(s, after, r, t, candidate) && Verdict(t, candidate, r) && Recovered(s, after, r, t)
  {
    hide Went, Unexposed, Recoverable, Tried, DownloadAndVerify, Pausing, InstallAndRelaunch, SeenDown, PausePart, RestorePart, PauseDone, BestEffortRestoreAfterPauseFailure;
    var (a, verified) := DownloadAndVerify(s, candidate);
    VerifyFacts(s, candidate);
    var b := Pausing(a).0;
    var pause := PauseFacts(a);
    var restore := AttemptFacts(b);
    t := Transcript([VerifySent(candidate, verified)], pause, [], [], restore);
    assert Asked(t) == t.verify + t.pause + t.restore;
    LogOfThree(s.log, t.verify, t.pause, t.restore);
    var c := BestEffortRestoreAfterPauseFailure(b).0;
    WentOn(s, a, b);
    WentOn(s, b, c);
    FaultsGrow(s, a);
    FaultsGrow(a, b);
    FaultsGrow(b, c);
    StaysRecoverable(s, a);
  }

  lemma InstalledFacts(s: State, candidate: Candidate) returns (t: Transcript)
    requires var (a, verified) := DownloadAndVerify(s, candidate);
             verified.Some? && verified.value.candidate == candidate && Pausing(a).1.Ok?
    ensures var (after, r) := Executing(s, candidate);
            Framed(s, after, r, t, candidate) && Verdict(t, candidate, r) && Recovered(s, after, r, t)
  {
    hide Went, Unexposed, Recoverable, Tried, DownloadAndVerify, Pausing, InstallAndRelaunch, SeenDown, PausePart, RestorePart, PauseDone, Accepted, Declined, Asked;
    EmptyParts();
    var (a, verified) := DownloadAndVerify(s, candidate);
    VerifyFacts(s, candidate);
    var (b, paused) := Pausing(a);
    var pause := PauseFacts(a);
    if paused.value == MonitorWasStopped { PauseDoneShape(pause, b.lease); } else { SeenDownShape(pause); }
    t := InstallFacts(b, candidate, verified.value, paused.value, Transcript([VerifySent(candidate, verified)], pause, [], [], []));
    LogOfFive(s.log, t);
    var c := InstallAndRelaunch(b, candidate, verified.value, paused.value).0;
    WentOn(s, a, b);
    WentOn(s, b, c);
    FaultsGrow(s, a);
    FaultsGrow(a, b);
    FaultsGrow(b, c);
  }

  lemma LogOfFive(log: seq<Effect>, t: Transcript)
    ensures log + t.verify + t.pause + t.install + t.relaunch + t.restore == log + Asked(t)
  {
  }

  lemma LogOfThree(log: seq<Effect>, a: seq<Effect>, b: seq<Effect>, c: seq<Effect>)
    ensures log + a + b + c == log + (a + b + c)
  {
  }

  lemma SeenDownShape(effects: seq<Effect>)
    requires SeenDown(effects)
    ensures |effects| == 1
  {
  }

  lemma PauseDoneShape(effects: seq<Effect>, lease: Lease)
    requires PauseDone(effects, lease)
    ensures |effects| == 4 && effects[1].PublishSent?
  {
  }
}
