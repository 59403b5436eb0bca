/** The control commands as the source runs them, one durable transaction after the other. */
module ControlService {
  import opened Wrappers
  import opened ControlFacts
  import opened RuntimeStates
  import P = ControlProtocol
  import K = KillSwitch
  import C = ControlConvergence

  /** The rows of the control tables. `end` is set once the command under way has raised,
      finished, or died with its process; nothing is written from then on. */
  class ControlDatabase {
    var status: Status
    var active: set<P.Lease>
    var risk: seq<P.RiskRow>
    var audits: seq<P.AuditId>
    var writesLeft: nat
    var end: Option<Flow<(), P.ControlError>>
    var stopPending: bool

    ghost function Db(): P.Db
      reads this
    {
      P.Db(status, active, risk, audits, writesLeft)
    }

    ghost function State(): P.Progress
      reads this
    {
      P.Progress(Db(), end)
    }

    constructor (writesLeft: nat)
      ensures State() == P.Begin(P.Db(INITIAL, {}, [], [], writesLeft))
      ensures K.Safe(Db(), 0)
    {
      status, active, risk, audits, this.writesLeft := INITIAL, {}, [], [], writesLeft;
      end, stopPending := None, false;
    }

    method Begin()
      modifies `end
      ensures State() == P.Begin(old(Db()))
    {
      end := None;
    }

    method Deny(error: P.ControlError)
      modifies `end
      ensures State() == P.Deny(old(State()), error)
    {
      if end.None? {
        end := Some(Raise(error));
      }
    }

    method Finish()
      modifies `end
      ensures State() == P.Finish(old(State()))
    {
      if end.None? {
        end := Some(Go(()));
      }
    }

    /** Begins a transaction; false when there is none any more. */
    method Alive() returns (ok: bool)
      modifies `end, `writesLeft
      ensures ok <==> old(end).None? && old(writesLeft) > 0
      ensures ok ==> writesLeft == old(writesLeft) - 1 && end == None
      ensures !ok ==>
        writesLeft == old(writesLeft) && end == if old(end).None? then Some(Die) else old(end)
    {
      if end.Some? {
        return false;
      }
      if writesLeft == 0 {
        end := Some(Die);
        return false;
      }
      writesLeft := writesLeft - 1;
      return true;
    }

    method RevokeArm()
      modifies `active, `end, `writesLeft
      ensures State() == P.Revoke(old(State()))
    {
      var ok := Alive();
      if ok {
        active := {};
      }
    }

    /** One transaction: the runtime row, guarded by what it was, the sweep of leases on
        entering HALTED, and the audits. */
    method SaveRuntime(previous: Status, next: Status) returns (conflict: bool)
      modifies `status, `active, `audits, `end, `writesLeft
      ensures conflict <==> old(end).None? && old(writesLeft) > 0 && old(status) != previous
      ensures !conflict ==> State() == P.Write(old(State()), P.Saved(old(Db()), next))
    {
      conflict := false;
      var ok := Alive();
      if ok {
        if status != previous {
          return true;
        }
        if next.state.Halted? && active != {} {
          audits := audits + [P.OfHaltRevocation(next.revision)];
        }
        if next.state.Halted? {
          active := {};
        }
        status := next;
        audits := audits + [P.OfTransition(next.revision)];
      }
    }

    method MoveTo(target: RuntimeState, reason: string, blockers: set<string>)
      modifies `status, `active, `audits, `end, `writesLeft
      ensures State() == P.MoveTo(old(State()), target, reason, blockers)
    {
      var next := Transition(status, target, reason, blockers);
      if next.Err? {
        Deny(P.Illegal);
      } else if next.value != status {
        var conflict := SaveRuntime(status, next.value);
        assert !conflict;
      }
    }

    method MoveFrom(source: RuntimeState, target: RuntimeState, reason: string, blockers: set<string>)
      modifies `status, `active, `audits, `end, `writesLeft
      ensures State() == P.MoveFrom(old(State()), source, target, reason, blockers)
    {
      if status.state == source {
        MoveTo(target, reason, blockers);
      }
    }

    method TripOnce(request: RequestId, now: Time)
      modifies `risk, `end, `writesLeft
      ensures State() == P.TripOnce(old(State()), request, now)
    {
      if !P.HasRow(risk, P.OfRequest(request)) {
        var ok := Alive();
        if ok {
          risk := risk + [P.RiskRow(P.OfRequest(request), P.Tripped, now)];
        }
      }
    }

    method AppendAudit(id: P.AuditId)
      modifies `audits, `end, `writesLeft
      ensures State() == P.AuditOnce(old(State()), id)
    {
      if id !in audits {
        var ok := Alive();
        if ok {
          audits := audits + [id];
        }
      }
    }

    /** HALT, from whatever state. */
    method Halt(request: RequestId, now: Time)
      modifies this
      ensures State() == P.Halt(old(Db()), request, now)
      ensures stopPending == old(stopPending)
      ensures end.Some? && !end.value.Raise?
      ensures end == Some(Go(())) ==> status.state.Halted? && P.KILL_SWITCH in status.blockers && active == {}
    {
      hide P.MoveTo, P.TripOnce, P.AuditOnce, C.OnTheWay;
      C.HaltAttempt(Db(), request, now);
      EndsHalted(Db());
      EndsKnown(Db(), HaltCommand, request, P.Halt(Db(), request, now));
      Begin();
      RevokeArm();
      MoveFrom(RuntimeState.Stopping, Disarmed, "stop completed before emergency halt", {});
      MoveFrom(Disarmed, Starting, "local emergency halt control", {});
      MoveTo(Halted, "local emergency halt", status.blockers + {P.KILL_SWITCH});
      TripOnce(request, now);
      AppendAudit(P.OfCommand(HaltCommand, request));
      Finish();
    }

    method Disarm(request: RequestId)
      modifies this
      ensures State() == P.Disarm(old(Db()), request)
      ensures stopPending == old(stopPending)
      ensures end.Some? && !end.value.Raise?
      ensures end == Some(Go(())) ==> status.state.Disarmed? && active == {}
    {
      hide P.MoveTo, P.AuditOnce, C.OnTheWay;
      C.DisarmAttempt(Db(), request);
      EndsDisarmed(Db());
      EndsKnown(Db(), DisarmCommand, request, P.Disarm(Db(), request));
      Begin();
      RevokeArm();
      if !status.state.Disarmed? && !status.state.Stopping? {
        MoveTo(RuntimeState.Stopping, "local disarm requested", status.blockers);
      }
      MoveFrom(RuntimeState.Stopping, Disarmed, "local disarm completed", P.OnlyKillSwitch(status.blockers));
      AppendAudit(P.OfCommand(DisarmCommand, request));
      Finish();
    }

    /** The part of a cancel that is not the broker's. */
    method Cancel(request: RequestId)
      modifies this
      ensures State() == P.Cancel(old(Db()), request)
      ensures stopPending == old(stopPending)
      ensures end.Some? && !end.value.Raise?
    {
      hide P.AuditOnce, C.OnTheWay;
      C.CancelAttempt(Db(), request);
      EndsKnown(Db(), CancelCommand, request, P.Cancel(Db(), request));
      Begin();
      AppendAudit(P.OfCommand(CancelCommand, request));
      Finish();
    }

    method Stop(request: RequestId)
      modifies this
      ensures State() == P.Stop(old(Db()), request)
      ensures stopPending == (old(stopPending) || end == Some(Go(())))
      ensures end.Some? && !end.value.Raise?
      ensures end == Some(Go(())) ==> status.state.Stopping? && active == {}
    {
      hide P.MoveTo, P.AuditOnce, C.OnTheWay;
      C.StopAttempt(Db(), request);
      EndsStopping(Db());
      EndsKnown(Db(), StopCommand, request, P.Stop(Db(), request));
      Begin();
      RevokeArm();
      MoveFrom(Disarmed, Starting, "local stop control", {});
      if !status.state.Stopping? {
        MoveTo(RuntimeState.Stopping, "local stop requested", status.blockers);
      }
      AppendAudit(P.OfCommand(StopCommand, request));
      Finish();
      if end == Some(Go(())) {
        stopPending := true;
      }
    }

    method FinalizeStop()
      modifies this
      ensures State() == P.FinalizeStop(old(Db()))
      ensures end == Some(Go(())) ==> !stopPending
    {
      hide P.MoveTo;
      Begin();
      MoveFrom(RuntimeState.Stopping, Disarmed, "production stop completed", P.OnlyKillSwitch(status.blockers));
      Finish();
      if end == Some(Go(())) {
        stopPending := false;
      }
    }

    // ------------------------------------------------------------- operator commands

    /** The code of the latest trip or reset row, else the status's blocker. */
    method KillSwitchTripped() returns (tripped: bool)
      ensures tripped == P.TrippedNow(Db())
    {
      var latest: Option<P.RiskRow> := None;
      var i := 0;
      while i < |risk|
        invariant 0 <= i <= |risk|
        invariant latest == P.Latest(risk[..i])
      {
        assert risk[..i + 1][..i] == risk[..i];
        if latest.None? || latest.value.at <= risk[i].at {
          latest := Some(risk[i]);
        }
        i := i + 1;
      }
      assert risk[..i] == risk;
      return if latest.Some? then latest.value.code.Tripped? else P.KILL_SWITCH in status.blockers;
    }

    method RiskAndAudit(code: P.RiskCode, nonce: string, now: Time)
      modifies `risk, `audits, `end, `writesLeft
      ensures State() == P.RiskAndAudit(old(State()), code, nonce, now)
    {
      var ok := Alive();
      if ok {
        risk := risk + [P.RiskRow(P.Drawn(nonce), code, now)];
        audits := audits + [P.OfOperator(nonce + ":audit")];
      }
    }

    method OperatorAudit(nonce: string)
      modifies `audits, `end, `writesLeft
      ensures State() == P.OperatorAudit(old(State()), nonce)
    {
      var ok := Alive();
      if ok {
        audits := audits + [P.OfOperator(nonce)];
      }
    }

    method TransitionHalted(reason: string, blockers: set<string>)
      modifies `status, `active, `audits, `end, `writesLeft
      ensures State() == P.TransitionHalted(old(State()), reason, blockers)
    {
      hide P.MoveTo;
      MoveFrom(RuntimeState.Stopping, Disarmed, "operator stop completed before halt", {});
      MoveFrom(Disarmed, Starting, "operator emergency control started", {});
      MoveTo(Halted, reason, blockers);
    }

    method OperatorHalt(nonce: string, now: Time, ghost clock: Time)
      requires K.Safe(Db(), clock) && clock <= now
      modifies this
      ensures State() == P.OperatorHalt(old(Db()), nonce, now) && K.Safe(Db(), now)
    {
      hide P.TransitionHalted, K.Safe;
      K.OperatorHaltIsSafe(Db(), clock, nonce, now);
      var blockers := status.blockers + {P.KILL_SWITCH};
      Begin();
      RevokeArm();
      TransitionHalted("operator kill switch", blockers);
      RiskAndAudit(P.Tripped, nonce, now);
      Finish();
    }

    method OperatorDisarm(nonce: string, ghost clock: Time)
      requires K.Safe(Db(), clock)
      modifies this
      ensures State() == P.OperatorDisarm(old(Db()), nonce) && K.Safe(Db(), clock)
    {
      hide P.MoveTo, P.TrippedNow, K.Safe;
      K.OperatorDisarmIsSafe(Db(), clock, nonce);
      var tripped := KillSwitchTripped();
      var before := status;
      Begin();
      RevokeArm();
      if !before.state.Disarmed? && !before.state.Stopping? {
        MoveTo(RuntimeState.Stopping, "operator disarm requested", before.blockers);
      }
      MoveFrom(RuntimeState.Stopping, Disarmed, "operator disarmed", if tripped then {P.KILL_SWITCH} else {});
      OperatorAudit(nonce);
      Finish();
    }

    method RevokeForResume(nonce: string)
      modifies `active, `audits, `end, `writesLeft
      ensures State()
           == P.Write(old(State()), old(Db()).(active := {}, audits := old(audits) + [P.OfOperator(nonce)]))
    {
      var ok := Alive();
      if ok {
        active := {};
        audits := audits + [P.OfOperator(nonce)];
      }
    }

    /** Out of HALTED only through a confirmed, passed reconciliation, which also resets a
        tripped kill switch. */
    method Resume(
      confirmed: bool, answer: P.Reconciliation, nonce: string, resetNonce: string, now: Time,
      ghost clock: Time
    )
      requires K.Safe(Db(), clock) && clock <= now
      modifies this
      ensures State() == P.Resume(old(Db()), confirmed, answer, nonce, resetNonce, now)
      ensures K.Safe(Db(), now)
    {
      hide P.MoveTo, P.TransitionHalted, P.TrippedNow, P.Write, P.RiskAndAudit, P.OperatorAudit, K.Safe;
      K.ResumeIsSafe(Db(), clock, confirmed, answer, nonce, resetNonce, now);
      Begin();
      if !confirmed {
        Deny(P.NotConfirmed);
        return;
      }
      if !status.state.Halted? {
        Deny(P.NotHalted);
        return;
      }
      var kill := KillSwitchTripped();
      var noted := if kill then {P.KILL_SWITCH} else {};
      RevokeForResume(nonce);
      MoveTo(Reconciling, "explicit resume reconciliation", {});
      if answer.Raised? {
        TransitionHalted("resume reconciliation raised an exception", {"RECONCILIATION_EXCEPTION"} + noted);
        Deny(P.ReconciliationFailed);
      } else if !answer.passed {
        TransitionHalted("resume reconciliation did not pass", answer.blockers + noted);
        Deny(P.ReconciliationFailed);
      } else {
        if kill {
          RiskAndAudit(P.Reset, resetNonce, now);
        } else {
          OperatorAudit(resetNonce);
        }
        MoveTo(Ready, "resume reconciliation passed", {});
        Finish();
      }
    }

    method Reconcile(answer: P.Reconciliation, ghost clock: Time)
      requires K.Safe(Db(), clock)
      modifies this
      ensures State() == P.Reconcile(old(Db()), answer) && K.Safe(Db(), clock)
    {
      hide P.MoveTo, P.TransitionHalted, P.TrippedNow, K.Safe;
      K.ReconcileIsSafe(Db(), clock, answer);
      var wasHalted := status.state.Halted?;
      var kill := KillSwitchTripped();
      Begin();
      if status.state.Stopping? {
        Deny(P.ControlError.Stopping);
        return;
      }
      MoveFrom(Disarmed, Starting, "manual reconciliation requested", {});
      if !status.state.Reconciling? {
        MoveTo(Reconciling, "manual reconciliation running", {});
      }
      if answer.Raised? {
        TransitionHalted("manual reconciliation raised an exception", {"RECONCILIATION_EXCEPTION"});
        Deny(P.ReconciliationFailed);
      } else if !answer.passed || kill || wasHalted {
        TransitionHalted("manual reconciliation requires explicit resume",
          answer.blockers + (if kill then {P.KILL_SWITCH} else {})
          + (if wasHalted then {"EXPLICIT_RESUME_REQUIRED"} else {}));
        Finish();
      } else {
        MoveTo(Ready, "manual reconciliation passed", {});
        Finish();
      }
    }

    /** Issues a lease, the only one, in a ready runtime whose kill switch is not tripped. */
    method ArmLive(others: bool, lease: P.Lease, nonce: string, ghost clock: Time)
      requires K.Safe(Db(), clock)
      modifies this
      ensures State() == P.Arm(old(Db()), others, lease, nonce) && K.Safe(Db(), clock)
    {
      hide P.TrippedNow, K.Safe;
      K.ArmIsSafe(Db(), clock, others, lease, nonce);
      Begin();
      if !status.state.Ready? {
        Deny(P.NotReady);
        return;
      }
      var tripped := KillSwitchTripped();
      if tripped {
        Deny(P.KillSwitchTripped);
        return;
      }
      if !others {
        Deny(P.PreconditionFailed);
        return;
      }
      var ok := Alive();
      if ok {
        active := {lease};
        audits := audits + [P.OfOperator(nonce)];
      }
      Finish();
    }
  }

  lemma EndsKnown(db: P.Db, command: Command, request: RequestId, p: P.Progress)
    requires C.Attempted(command, request, db, p)
    ensures p.end.Some? && !p.end.value.Raise?
    ensures p.end == Some(Go(())) ==>
      (!command.CancelCommand? ==> p.db.active == {}) && p.db.status == C.Target(command, db.status)
  {
    hide C.Target, C.TargetRows;
  }

  lemma EndsHalted(db: P.Db)
    ensures var s := C.Target(HaltCommand, db.status);
      s.state.Halted? && P.KILL_SWITCH in s.blockers
  {
  }

  lemma EndsDisarmed(db: P.Db)
    ensures C.Target(DisarmCommand, db.status).state.Disarmed?
  {
  }

  lemma EndsStopping(db: P.Db)
    ensures C.Target(StopCommand, db.status).state.Stopping?
  {
  }
}
