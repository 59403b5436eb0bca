/** The audit trail of the runtime status: no transition without its entry. */
module ControlAudit {
  import opened Wrappers
  import opened ControlFacts
  import opened RuntimeStates
  import opened ControlProtocol
  import opened KillSwitch

  /** Audits are only added, revisions never fall, and every revision reached since has its
      entry. */
  ghost predicate Trail(db: Db, after: Db) {
    && db.audits <= after.audits
    && db.status.revision <= after.status.revision
    && forall r: nat :: db.status.revision < r <= after.status.revision ==> OfTransition(r) in after.audits
  }

  lemma TrailChain(a: Db, b: Db, c: Db)
    requires Trail(a, b) && Trail(b, c)
    ensures Trail(a, c)
  {
  }

  lemma MoveTrail(db: Db, p: Progress, target: RuntimeState, reason: string, blockers: set<string>)
    requires Trail(db, p.db)
    ensures Trail(db, MoveTo(p, target, reason, blockers).db)
  {
    var next := Transition(p.db.status, target, reason, blockers);
    if next.Ok? && next.value != p.db.status {
      var saved := Saved(p.db, next.value);
      assert saved.audits[|saved.audits| - 1] == OfTransition(next.value.revision);
      TrailChain(db, p.db, saved);
    }
  }

  /** A transaction that adds audits and leaves the status alone. */
  lemma WriteTrail(db: Db, p: Progress, next: Db)
    requires Trail(db, p.db) && next.status == p.db.status && p.db.audits <= next.audits
    ensures Trail(db, Write(p, next).db)
  {
    TrailChain(db, p.db, next);
  }

  lemma HaltedTrail(db: Db, p: Progress, reason: string, blockers: set<string>)
    requires Trail(db, p.db)
    ensures Trail(db, TransitionHalted(p, reason, blockers).db)
  {
    hide Trail, MoveTo;
    MoveTrail(db, p, Disarmed, "operator stop completed before halt", {});
    var p1 := MoveFrom(p, RuntimeState.Stopping, Disarmed, "operator stop completed before halt", {});
    MoveTrail(db, p1, Starting, "operator emergency control started", {});
    var p2 := MoveFrom(p1, Disarmed, Starting, "operator emergency control started", {});
    MoveTrail(db, p2, Halted, reason, blockers);
  }

  lemma StartTrail(db: Db)
    ensures Trail(db, db) && Trail(db, Revoke(Begin(db)).db)
  {
  }

  lemma OnceTrail(db: Db, p: Progress, audit: AuditId)
    requires Trail(db, p.db)
    ensures Trail(db, AuditOnce(p, audit).db)
  {
    hide Trail, Write;
    WriteTrail(db, p, p.db.(audits := p.db.audits + [audit]));
  }

  lemma HaltTrail(db: Db, request: RequestId, now: Time)
    ensures Trail(db, Halt(db, request, now).db)
  {
    hide Trail, MoveTo, HasRow, AuditOnce, Write;
    StartTrail(db);
    var p1 := Revoke(Begin(db));
    MoveTrail(db, p1, Disarmed, "stop completed before emergency halt", {});
    var p2 := MoveFrom(p1, RuntimeState.Stopping, Disarmed, "stop completed before emergency halt", {});
    MoveTrail(db, p2, Starting, "local emergency halt control", {});
    var p3 := MoveFrom(p2, Disarmed, Starting, "local emergency halt control", {});
    MoveTrail(db, p3, Halted, "local emergency halt", p3.db.status.blockers + {KILL_SWITCH});
    var p4 := MoveTo(p3, Halted, "local emergency halt", p3.db.status.blockers + {KILL_SWITCH});
    WriteTrail(db, p4, p4.db.(risk := p4.db.risk + [RiskRow(OfRequest(request), Tripped, now)]));
    OnceTrail(db, TripOnce(p4, request, now), OfCommand(HaltCommand, request));
  }

  lemma DisarmTrail(db: Db, request: RequestId)
    ensures Trail(db, Disarm(db, request).db)
  {
    hide Trail, MoveTo, AuditOnce;
    StartTrail(db);
    var p1 := Revoke(Begin(db));
    MoveTrail(db, p1, RuntimeState.Stopping, "local disarm requested", p1.db.status.blockers);
    var p2 :=
      if p1.db.status.state.Disarmed? || p1.db.status.state.Stopping? then p1
      else MoveTo(p1, RuntimeState.Stopping, "local disarm requested", p1.db.status.blockers);
    var kept := OnlyKillSwitch(p2.db.status.blockers);
    MoveTrail(db, p2, Disarmed, "local disarm completed", kept);
    OnceTrail(db, MoveFrom(p2, RuntimeState.Stopping, Disarmed, "local disarm completed", kept),
              OfCommand(DisarmCommand, request));
  }

  lemma StopTrail(db: Db, request: RequestId)
    ensures Trail(db, Stop(db, request).db)
  {
    hide Trail, MoveTo, AuditOnce;
    StartTrail(db);
    var p1 := Revoke(Begin(db));
    MoveTrail(db, p1, Starting, "local stop control", {});
    var p2 := MoveFrom(p1, Disarmed, Starting, "local stop control", {});
    MoveTrail(db, p2, RuntimeState.Stopping, "local stop requested", p2.db.status.blockers);
    var p3 :=
      if p2.db.status.state.Stopping? then p2
      else MoveTo(p2, RuntimeState.Stopping, "local stop requested", p2.db.status.blockers);
    OnceTrail(db, p3, OfCommand(StopCommand, request));
  }

  lemma OperatorHaltTrail(db: Db, nonce: string, now: Time)
    ensures Trail(db, OperatorHalt(db, nonce, now).db)
  {
    hide Trail, TransitionHalted, Write;
    StartTrail(db);
    var p1 := Revoke(Begin(db));
    HaltedTrail(db, p1, "operator kill switch", db.status.blockers + {KILL_SWITCH});
    var p2 := TransitionHalted(p1, "operator kill switch", db.status.blockers + {KILL_SWITCH});
    WriteTrail(db, p2, p2.db.(risk := p2.db.risk + [RiskRow(Drawn(nonce), Tripped, now)],
                              audits := p2.db.audits + [OfOperator(nonce + ":audit")]));
  }

  lemma OperatorDisarmTrail(db: Db, nonce: string)
    ensures Trail(db, OperatorDisarm(db, nonce).db)
  {
    hide Trail, MoveTo, TrippedNow, Write;
    StartTrail(db);
    var p1 := Revoke(Begin(db));
    MoveTrail(db, p1, RuntimeState.Stopping, "operator disarm requested", db.status.blockers);
    var p2 :=
      if db.status.state.Disarmed? || db.status.state.Stopping? then p1
      else MoveTo(p1, RuntimeState.Stopping, "operator disarm requested", db.status.blockers);
    var kept := if TrippedNow(db) then {KILL_SWITCH} else {};
    MoveTrail(db, p2, Disarmed, "operator disarmed", kept);
    var p3 := MoveFrom(p2, RuntimeState.Stopping, Disarmed, "operator disarmed", kept);
    WriteTrail(db, p3, p3.db.(audits := p3.db.audits + [OfOperator(nonce)]));
  }

  lemma ResumeTrail(
    db: Db, confirmed: bool, answer: Reconciliation, nonce: string, resetNonce: string, now: Time
  )
    ensures Trail(db, Resume(db, confirmed, answer, nonce, resetNonce, now).db)
  {
    hide Trail, MoveTo, TransitionHalted, TrippedNow, Write;
    StartTrail(db);
    var noted := if TrippedNow(db) then {KILL_SWITCH} else {};
    WriteTrail(db, Begin(db), db.(active := {}, audits := db.audits + [OfOperator(nonce)]));
    var p1 := Write(Begin(db), db.(active := {}, audits := db.audits + [OfOperator(nonce)]));
    MoveTrail(db, p1, Reconciling, "explicit resume reconciliation", {});
    var p2 := MoveTo(p1, Reconciling, "explicit resume reconciliation", {});
    HaltedTrail(db, p2, "resume reconciliation raised an exception", {"RECONCILIATION_EXCEPTION"} + noted);
    if answer.Answered? {
      HaltedTrail(db, p2, "resume reconciliation did not pass", answer.blockers + noted);
    }
    WriteTrail(db, p2, p2.db.(risk := p2.db.risk + [RiskRow(Drawn(resetNonce), Reset, now)],
                              audits := p2.db.audits + [OfOperator(resetNonce + ":audit")]));
    WriteTrail(db, p2, p2.db.(audits := p2.db.audits + [OfOperator(resetNonce)]));
    var p3 := if TrippedNow(db) then RiskAndAudit(p2, Reset, resetNonce, now) else OperatorAudit(p2, resetNonce);
    MoveTrail(db, p3, Ready, "resume reconciliation passed", {});
  }

  lemma ReconcileTrail(db: Db, answer: Reconciliation)
    ensures Trail(db, Reconcile(db, answer).db)
  {
    hide Trail, MoveTo, TransitionHalted, TrippedNow;
    StartTrail(db);
    var p0 := Begin(db);
    MoveTrail(db, p0, Starting, "manual reconciliation requested", {});
    var p1 := MoveFrom(p0, Disarmed, Starting, "manual reconciliation requested", {});
    MoveTrail(db, p1, Reconciling, "manual reconciliation running", {});
    var p2 :=
      if p1.db.status.state.Reconciling? then p1
      else MoveTo(p1, Reconciling, "manual reconciliation running", {});
    HaltedTrail(db, p2, "manual reconciliation raised an exception", {"RECONCILIATION_EXCEPTION"});
    if answer.Answered? {
      HaltedTrail(db, p2, "manual reconciliation requires explicit resume",
        answer.blockers + (if TrippedNow(db) then {KILL_SWITCH} else {})
        + (if db.status.state.Halted? then {"EXPLICIT_RESUME_REQUIRED"} else {}));
    }
    MoveTrail(db, p2, Ready, "manual reconciliation passed", {});
  }

  lemma PerformTrail(db: Db, op: Op, now: Time)
    ensures Trail(db, Perform(db, op, now).db)
  {
    hide Trail, Halt, Disarm, Stop, OperatorHalt, OperatorDisarm, Resume, Reconcile, MoveTo, AuditOnce, TrippedNow,
      Write;
    StartTrail(db);
    match op
    case Requested(command, request) =>
      match command {
        case HaltCommand => HaltTrail(db, request, now);
        case DisarmCommand => DisarmTrail(db, request);
        case CancelCommand => OnceTrail(db, Begin(db), OfCommand(CancelCommand, request));
        case StopCommand => StopTrail(db, request);
      }
    case Finalize =>
      MoveTrail(db, Begin(db), Disarmed, "production stop completed", OnlyKillSwitch(db.status.blockers));
    case ByHalt(nonce) => OperatorHaltTrail(db, nonce, now);
    case ByDisarm(nonce) => OperatorDisarmTrail(db, nonce);
    case ByResume(confirmed, answer, nonce, resetNonce) =>
      ResumeTrail(db, confirmed, answer, nonce, resetNonce, now);
    case ByReconcile(answer) => ReconcileTrail(db, answer);
    case ByArm(others, lease, nonce) =>
      WriteTrail(db, Begin(db), db.(active := {lease}, audits := db.audits + [OfOperator(nonce)]));
    case ByService(target, reason, blockers) => MoveTrail(db, Begin(db), target, reason, blockers);
  }

  /** Over every run, with crashes after any transaction: audits are never lost, and every
      transition of the runtime has its entry. */
  lemma {:induction false} EveryTransitionAudited(db: Db, clock: Time, turns: seq<Turn>)
    ensures Trail(db, Play(db, clock, turns))
  {
    hide Trail, Perform;
    StartTrail(db);
    if turns != [] {
      var init, last := turns[..|turns| - 1], turns[|turns| - 1];
      EveryTransitionAudited(db, clock, init);
      var before := Play(db, clock, init);
      var living := before.(left := last.left);
      SameTrail(before, living);
      PerformTrail(living, last.op, Clock(clock, init) + last.wait);
      TrailChain(before, living, Play(db, clock, turns));
      TrailChain(db, before, Play(db, clock, turns));
    }
  }

  lemma SameTrail(db: Db, living: Db)
    requires living == db.(left := living.left)
    ensures Trail(db, living)
  {
  }
}
