/** What the operator's commands come to, exactly: where each ends, what every crash point
    of a halt leaves, and that only a passed reconciliation leads to READY. */
module ControlOperator {
  import opened Wrappers
  import opened ControlFacts
  import opened RuntimeStates
  import opened ControlProtocol
  import opened KillSwitch

  // ------------------------------------------------------------------- the newest row

  /** The row that decides whether the kill switch reads as tripped: none is dated later,
      and none of its own time was written after it. */
  lemma {:induction false} LatestExactly(risk: seq<RiskRow>)
    ensures Latest(risk).None? <==> risk == []
    ensures Latest(risk).Some? ==>
      exists k :: 0 <= k < |risk| && risk[k] == Latest(risk).value
        && forall j :: 0 <= j < |risk| ==> risk[j].at <= risk[k].at && (k < j ==> risk[j].at < risk[k].at)
  {
    if risk != [] {
      var n := |risk| - 1;
      var init := risk[..n];
      LatestExactly(init);
      if Latest(init).Some? && Latest(init).value.at > risk[n].at {
        var k :| 0 <= k < n && init[k] == Latest(init).value
          && forall j :: 0 <= j < n ==> init[j].at <= init[k].at && (k < j ==> init[j].at < init[k].at);
        assert risk[k] == Latest(risk).value;
        assert forall j :: 0 <= j < n ==> init[j] == risk[j];
      } else {
        assert risk[n] == Latest(risk).value;
        forall j | 0 <= j < |risk| ensures risk[j].at <= risk[n].at {
          if j < n {
            assert init[j] == risk[j];
          }
        }
      }
    }
  }

  predicate NoneLater(risk: seq<RiskRow>, now: Time) {
    forall r :: r in risk ==> r.at <= now
  }

  lemma NewestRow(risk: seq<RiskRow>, row: RiskRow)
    ensures Latest(risk + [row]) == if NoneLater(risk, row.at) then Some(row) else Latest(risk)
  {
    hide Latest;
    LatestSnoc(risk, row);
    LatestExactly(risk);
    if risk != [] && NoneLater(risk, row.at) {
      assert Latest(risk).value in risk;
    }
  }

  // --------------------------------------------------------------- the way into HALTED

  /** A legal transition is one transaction, or none if it changes nothing. */
  lemma MoveWrites(p: Progress, target: RuntimeState, reason: string, blockers: set<string>)
    requires Running(p) && (target == p.db.status.state || CanMove(p.db.status.state, target))
    ensures var q := MoveTo(p, target, reason, blockers);
      var next := Status(target, p.db.status.revision + 1, reason, blockers);
      if p.db.status == next.(revision := p.db.status.revision) then q == p
      else if p.db.left == 0 then q == Progress(p.db, Some(Die))
      else
        && Running(q) && q.db.status == next && q.db.left == p.db.left - 1 && q.db.risk == p.db.risk
        && q.db.active == (if target.Halted? then {} else p.db.active)
  {
  }

  /** The statuses on the way into HALTED, the last of them HALTED. */
  function Halting(s: Status, reason: string, blockers: set<string>): (path: seq<Status>)
    ensures path == [] ==> s.state.Halted? && s.blockers == blockers
    ensures path != [] ==> path[|path| - 1].state.Halted? && path[|path| - 1].blockers == blockers
    ensures |path| <= 3
  {
    match s.state
    case Stopping =>
      [Status(Disarmed, s.revision + 1, "operator stop completed before halt", {}),
       Status(Starting, s.revision + 2, "operator emergency control started", {}),
       Status(Halted, s.revision + 3, reason, blockers)]
    case Disarmed =>
      [Status(Starting, s.revision + 1, "operator emergency control started", {}),
       Status(Halted, s.revision + 2, reason, blockers)]
    case _ =>
      if s == Status(Halted, s.revision, reason, blockers) then []
      else [Status(Halted, s.revision + 1, reason, blockers)]
  }

  /** Where the status stands after so many transactions on a way. */
  function Reached(s: Status, path: seq<Status>, writes: nat): Status
    requires writes <= |path|
  {
    if writes == 0 then s else path[writes - 1]
  }

  /** As many transactions as there are statuses on the way, none refused, each of them a
      point where the process may die. */
  ghost predicate Walks(p: Progress, path: seq<Status>, q: Progress) {
    && q.db.risk == p.db.risk && q.db.active <= p.db.active
    && (if p.db.left < |path| then
          q.end == Some(Die) && q.db.left == 0 && q.db.status == Reached(p.db.status, path, p.db.left)
        else
          && Running(q) && q.db.left == p.db.left - |path|
          && q.db.status == Reached(p.db.status, path, |path|)
          && (path != [] && path[|path| - 1].state.Halted? ==> q.db.active == {}))
  }

  lemma HaltingWalks(p: Progress, reason: string, blockers: set<string>)
    requires Running(p)
    ensures Walks(p, Halting(p.db.status, reason, blockers), TransitionHalted(p, reason, blockers))
  {
    hide MoveTo;
    if p.db.status.state.Stopping? {
      MoveWrites(p, Disarmed, "operator stop completed before halt", {});
    }
    var p1 := MoveFrom(p, RuntimeState.Stopping, Disarmed, "operator stop completed before halt", {});
    DeadStays(p1, Halted, reason, blockers);
    if Running(p1) {
      if p1.db.status.state.Disarmed? {
        MoveWrites(p1, Starting, "operator emergency control started", {});
      }
      var p2 := MoveFrom(p1, Disarmed, Starting, "operator emergency control started", {});
      DeadStays(p2, Halted, reason, blockers);
      if Running(p2) {
        MoveWrites(p2, Halted, reason, blockers);
      }
    } else {
      DeadStays(p1, Starting, "operator emergency control started", {});
    }
  }

  lemma DeadStays(p: Progress, target: RuntimeState, reason: string, blockers: set<string>)
    ensures !Running(p) ==> MoveTo(p, target, reason, blockers) == p
  {
  }

  // --------------------------------------------------------------------- operator halt

  /** Every crash point of an operator's halt: before its first transaction nothing has
      happened, after it no lease is alive, each further one is a status on the way to
      HALTED, and the trip row comes last. */
  lemma OperatorHaltCrashes(db: Db, nonce: string, now: Time)
    ensures var p := OperatorHalt(db, nonce, now);
      var path := Halting(db.status, "operator kill switch", db.status.blockers + {KILL_SWITCH});
      && (db.left == 0 ==> p == Progress(db, Some(Die)))
      && (db.left > 0 ==> p.db.active == {})
      && (0 < db.left < |path| + 2 ==>
            && p.end == Some(Die) && p.db.risk == db.risk && p.db.left == 0
            && p.db.status == Reached(db.status, path, db.left - 1))
      && (db.left >= |path| + 2 ==>
            && p.end == Some(Go(())) && p.db.left == db.left - |path| - 2
            && p.db.status == Reached(db.status, path, |path|)
            && p.db.risk == db.risk + [RiskRow(Drawn(nonce), Tripped, now)])
  {
    hide TransitionHalted, Halting, Reached, MoveTo;
    var blockers := db.status.blockers + {KILL_SWITCH};
    var p1 := Revoke(Begin(db));
    if Running(p1) {
      HaltingWalks(p1, "operator kill switch", blockers);
    } else {
      DeadHalts(p1, "operator kill switch", blockers);
    }
  }

  lemma DeadHalts(p: Progress, reason: string, blockers: set<string>)
    ensures !Running(p) ==> TransitionHalted(p, reason, blockers) == p
  {
  }

  /** From every state an operator's halt that lives for five transactions ends halted, with
      the old blockers and the kill switch, without a lease and with its trip row, which
      decides unless a row is dated later. */
  lemma OperatorHaltExactly(db: Db, nonce: string, now: Time)
    requires db.left >= 5
    ensures var p := OperatorHalt(db, nonce, now);
      && p.end == Some(Go(()))
      && p.db.status.state.Halted? && p.db.status.blockers == db.status.blockers + {KILL_SWITCH}
      && p.db.active == {}
      && p.db.risk == db.risk + [RiskRow(Drawn(nonce), Tripped, now)]
      && (TrippedNow(p.db) <==> NoneLater(db.risk, now) || TrippedByRow(db.risk))
  {
    hide Latest, OperatorHalt, Halting;
    OperatorHaltCrashes(db, nonce, now);
    NewestRow(db.risk, RiskRow(Drawn(nonce), Tripped, now));
    LatestExactly(db.risk);
  }

  // --------------------------------------------------------------------------- resume

  predicate Passed(answer: Reconciliation) { answer.Answered? && answer.passed }

  /** What a reconciliation that did not pass leaves as blockers. */
  function Objections(answer: Reconciliation): set<string> {
    if answer.Raised? then {"RECONCILIATION_EXCEPTION"} else answer.blockers
  }

  /** A resume is refused, unchanged, unless it is confirmed and the runtime halted. */
  lemma ResumeRefused(
    db: Db, confirmed: bool, answer: Reconciliation, nonce: string, resetNonce: string, now: Time
  )
    requires !confirmed || !db.status.state.Halted?
    ensures Resume(db, confirmed, answer, nonce, resetNonce, now)
         == Progress(db, Some(Raise(if !confirmed then NotConfirmed else NotHalted)))
  {
  }

  /** A confirmed resume of a halted runtime that lives to its end: with a reconciliation
      that passed it is READY, without blockers or leases, and a kill switch that was tripped
      has its reset row; with any other it is halted again, for what was objected and the
      kill switch if that was tripped, and it raises. */
  lemma ResumeExactly(db: Db, answer: Reconciliation, nonce: string, resetNonce: string, now: Time)
    requires db.status.state.Halted? && db.left >= 4
    ensures var p, tripped := Resume(db, true, answer, nonce, resetNonce, now), TrippedNow(db);
      && p.db.active == {}
      && if Passed(answer) then
           && p.end == Some(Go(())) && p.db.status.state.Ready? && p.db.status.blockers == {}
           && p.db.risk == (if tripped then db.risk + [RiskRow(Drawn(resetNonce), Reset, now)] else db.risk)
           && (TrippedNow(p.db) <==> tripped && !NoneLater(db.risk, now))
         else
           && p.end == Some(Raise(ReconciliationFailed)) && p.db.status.state.Halted?
           && p.db.status.blockers == Objections(answer) + (if tripped then {KILL_SWITCH} else {})
           && p.db.risk == db.risk
  {
    hide TransitionHalted, Halting, MoveTo, Latest, TrippedNow;
    var noted := if TrippedNow(db) then {KILL_SWITCH} else {};
    var p1 := Write(Begin(db), db.(active := {}, audits := db.audits + [OfOperator(nonce)]));
    MoveWrites(p1, Reconciling, "explicit resume reconciliation", {});
    var p2 := MoveTo(p1, Reconciling, "explicit resume reconciliation", {});
    if answer.Raised? {
      var raised := {"RECONCILIATION_EXCEPTION"} + noted;
      HaltingWalks(p2, "resume reconciliation raised an exception", raised);
      HaltingFromReconciling(p2.db.status, "resume reconciliation raised an exception", raised);
    } else if !answer.passed {
      HaltingWalks(p2, "resume reconciliation did not pass", answer.blockers + noted);
      HaltingFromReconciling(p2.db.status, "resume reconciliation did not pass", answer.blockers + noted);
    } else {
      var p3 := if TrippedNow(db) then RiskAndAudit(p2, Reset, resetNonce, now) else OperatorAudit(p2, resetNonce);
      MoveWrites(p3, Ready, "resume reconciliation passed", {});
      ResetReads(db, MoveTo(p3, Ready, "resume reconciliation passed", {}).db, RiskRow(Drawn(resetNonce), Reset, now));
    }
  }

  lemma HaltingFromReconciling(s: Status, reason: string, blockers: set<string>)
    requires s.state.Reconciling?
    ensures Halting(s, reason, blockers) == [Status(Halted, s.revision + 1, reason, blockers)]
  {
  }

  lemma ResetReads(db: Db, after: Db, row: RiskRow)
    requires row.code.Reset? && after.status.blockers == {}
    requires after.risk == if TrippedNow(db) then db.risk + [row] else db.risk
    ensures TrippedNow(after) <==> TrippedNow(db) && !NoneLater(db.risk, row.at)
  {
    NewestRow(db.risk, row);
    LatestExactly(db.risk);
    hide Latest;
  }

  // --------------------------------------------------------------- manual reconciliation

  /** A manual reconciliation that lives to its end: refused while stopping; READY exactly
      when it passed, nothing was tripped and the runtime was not halted; halted otherwise,
      for what was objected and what stands in the way. */
  lemma ReconcileExactly(db: Db, answer: Reconciliation)
    requires db.left >= 3
    ensures var p := Reconcile(db, answer);
      var (tripped, halted) := (TrippedNow(db), db.status.state.Halted?);
      && p.db.risk == db.risk && p.db.active <= db.active
      && if db.status.state.Stopping? then p == Progress(db, Some(Raise(ControlError.Stopping)))
         else if Passed(answer) && !tripped && !halted then
           p.end == Some(Go(())) && p.db.status.state.Ready? && p.db.status.blockers == {}
         else
           && p.db.status.state.Halted? && p.db.active == {}
           && p.end == Some(if answer.Raised? then Raise(ReconciliationFailed) else Go(()))
           && p.db.status.blockers == Objections(answer)
                + (if tripped && answer.Answered? then {KILL_SWITCH} else {})
                + (if halted && answer.Answered? then {"EXPLICIT_RESUME_REQUIRED"} else {})
  {
    hide TransitionHalted, Halting, MoveTo, MoveFrom, TrippedNow;
    if !db.status.state.Stopping? {
      ReachesReconciling(db);
      ReconcileEnds(ToReconciling(db));
    }
  }

  /** A manual reconciliation as far as asking the reconciler. */
  function ToReconciling(db: Db): Progress {
    var p1 := MoveFrom(Begin(db), Disarmed, Starting, "manual reconciliation requested", {});
    if p1.db.status.state.Reconciling? then p1
    else MoveTo(p1, Reconciling, "manual reconciliation running", {})
  }

  lemma ReachesReconciling(db: Db)
    requires db.left >= 2 && !db.status.state.Stopping?
    ensures var p := ToReconciling(db);
      && Running(p) && p.db.status.state.Reconciling? && p.db.left >= db.left - 2
      && p.db.risk == db.risk && p.db.active == db.active
  {
    hide MoveTo;
    if db.status.state.Disarmed? {
      MoveWrites(Begin(db), Starting, "manual reconciliation requested", {});
    }
    var p1 := MoveFrom(Begin(db), Disarmed, Starting, "manual reconciliation requested", {});
    if !p1.db.status.state.Reconciling? {
      MoveWrites(p1, Reconciling, "manual reconciliation running", {});
    }
  }

  lemma ReconcileEnds(p2: Progress)
    requires Running(p2) && p2.db.status.state.Reconciling? && p2.db.left >= 1
    ensures
      var raised := {"RECONCILIATION_EXCEPTION"};
      var q := TransitionHalted(p2, "manual reconciliation raised an exception", raised);
      Running(q) && q.db.status.state.Halted? && q.db.status.blockers == raised && q.db.active == {}
      && q.db.risk == p2.db.risk
    ensures forall blockers ::
      var q := TransitionHalted(p2, "manual reconciliation requires explicit resume", blockers);
      Running(q) && q.db.status.state.Halted? && q.db.status.blockers == blockers && q.db.active == {}
      && q.db.risk == p2.db.risk
    ensures var q := MoveTo(p2, Ready, "manual reconciliation passed", {});
      Running(q) && q.db.status.state.Ready? && q.db.status.blockers == {} && q.db.active == p2.db.active
      && q.db.risk == p2.db.risk
  {
    hide TransitionHalted, Halting, MoveTo;
    var reason := "manual reconciliation raised an exception";
    HaltingWalks(p2, reason, {"RECONCILIATION_EXCEPTION"});
    HaltingFromReconciling(p2.db.status, reason, {"RECONCILIATION_EXCEPTION"});
    forall blockers
      ensures var q := TransitionHalted(p2, "manual reconciliation requires explicit resume", blockers);
        Running(q) && q.db.status.state.Halted? && q.db.status.blockers == blockers && q.db.active == {}
        && q.db.risk == p2.db.risk
    {
      HaltingWalks(p2, "manual reconciliation requires explicit resume", blockers);
      HaltingFromReconciling(p2.db.status, "manual reconciliation requires explicit resume", blockers);
    }
    MoveWrites(p2, Ready, "manual reconciliation passed", {});
  }

  // ------------------------------------------------------------------- disarm, stop, arm

  /** An operator's disarm that lives for four transactions ends disarmed without leases; the
      kill switch alone is left as a blocker, and only if it was tripped. A runtime that was
      disarmed keeps its status. */
  lemma OperatorDisarmExactly(db: Db, nonce: string)
    requires db.left >= 4
    ensures var p := OperatorDisarm(db, nonce);
      && p.end == Some(Go(())) && p.db.status.state.Disarmed? && p.db.active == {} && p.db.risk == db.risk
      && (if db.status.state.Disarmed? then p.db.status == db.status
          else p.db.status.blockers == if TrippedNow(db) then {KILL_SWITCH} else {})
  {
    hide MoveTo, TrippedNow;
    var p1 := Revoke(Begin(db));
    if !db.status.state.Disarmed? {
      if !db.status.state.Stopping? {
        MoveWrites(p1, RuntimeState.Stopping, "operator disarm requested", db.status.blockers);
      }
      var p2 :=
        if db.status.state.Stopping? then p1
        else MoveTo(p1, RuntimeState.Stopping, "operator disarm requested", db.status.blockers);
      MoveWrites(p2, Disarmed, "operator disarmed", if TrippedNow(db) then {KILL_SWITCH} else {});
    }
  }

  /** The end of a stop takes a stopping runtime to disarmed, with the kill switch as its
      only blocker if it was one, and leaves every other runtime alone. */
  lemma FinalizeExactly(db: Db)
    requires db.left >= 1
    ensures var p := FinalizeStop(db);
      && p.end == Some(Go(())) && p.db.risk == db.risk && p.db.active == db.active
      && (if db.status.state.Stopping? then
            p.db.status.state.Disarmed? && p.db.status.blockers == db.status.blockers * {KILL_SWITCH}
          else p.db == db)
  {
    hide MoveTo;
    if db.status.state.Stopping? {
      MoveWrites(Begin(db), Disarmed, "production stop completed", OnlyKillSwitch(db.status.blockers));
    }
  }

  /** Arming succeeds exactly in a ready runtime that is not tripped, with every further gate
      open; then the new lease is the only one alive. Refused, it changes nothing. */
  lemma ArmExactly(db: Db, others: bool, lease: Lease, nonce: string)
    requires db.left >= 1
    ensures var p := Arm(db, others, lease, nonce);
      && (p.end == Some(Go(())) <==> db.status.state.Ready? && !TrippedNow(db) && others)
      && p.db.status == db.status && p.db.risk == db.risk
      && (if p.end == Some(Go(())) then p.db.active == {lease}
          else
            && p.db == db
            && p.end == Some(Raise(if !db.status.state.Ready? then NotReady
                                   else if TrippedNow(db) then KillSwitchTripped else PreconditionFailed)))
  {
  }

  /** Where the executor's commands end that live for six transactions, from any state. */
  lemma ExecutedExactly(db: Db, command: Command, request: RequestId, now: Time)
    requires db.left >= 6
    ensures var p, from := Execute(db, command, request, now), db.status;
      && p.end == Some(Go(())) && OfCommand(command, request) in p.db.audits
      && match command
         case HaltCommand =>
           && p.db.status.state.Halted? && p.db.active == {} && HasRow(p.db.risk, OfRequest(request))
           && p.db.status.blockers
              == (if from.state.Stopping? || from.state.Disarmed? then {} else from.blockers) + {KILL_SWITCH}
         case DisarmCommand =>
           && p.db.status.state.Disarmed? && p.db.active == {}
           && p.db.status.blockers
              == (if from.state.Disarmed? then from.blockers else from.blockers * {KILL_SWITCH})
         case StopCommand =>
           && p.db.status.state.Stopping? && p.db.active == {}
           && p.db.status.blockers == (if from.state.Disarmed? then {} else from.blockers)
         case CancelCommand => p.db.status == from && p.db.active == db.active
  {
    hide Execute, HasRow, ControlConvergence.OnTheWay;
    ControlConvergence.EveryAttempt(db, command, request, now);
  }

  // -------------------------------------------------------------------- only after a pass

  /** A resume or manual reconciliation whose reconciler passed. */
  predicate PassedTurn(op: Op) {
    match op
    case ByResume(confirmed, answer, _, _) => confirmed && Passed(answer)
    case ByReconcile(answer) => Passed(answer)
    case _ => false
  }

  lemma MoveReaches(p: Progress, target: RuntimeState, reason: string, blockers: set<string>)
    ensures MoveTo(p, target, reason, blockers).db.status.state in {p.db.status.state, target}
  {
  }

  lemma HaltedReaches(p: Progress, reason: string, blockers: set<string>)
    ensures TransitionHalted(p, reason, blockers).db.status.state
         in {p.db.status.state, Disarmed, Starting, Halted}
  {
    hide MoveTo;
    MoveReaches(p, Disarmed, "operator stop completed before halt", {});
    var p1 := MoveFrom(p, RuntimeState.Stopping, Disarmed, "operator stop completed before halt", {});
    MoveReaches(p1, Starting, "operator emergency control started", {});
    var p2 := MoveFrom(p1, Disarmed, Starting, "operator emergency control started", {});
    MoveReaches(p2, Halted, reason, blockers);
  }

  lemma ResumeReadies(
    db: Db, confirmed: bool, answer: Reconciliation, nonce: string, resetNonce: string, now: Time
  )
    requires !db.status.state.Ready?
    ensures Resume(db, confirmed, answer, nonce, resetNonce, now).db.status.state.Ready? ==>
      confirmed && Passed(answer)
  {
    hide MoveTo, TransitionHalted, TrippedNow;
    var noted := if TrippedNow(db) then {KILL_SWITCH} else {};
    var p1 := Write(Begin(db), db.(active := {}, audits := db.audits + [OfOperator(nonce)]));
    MoveReaches(p1, Reconciling, "explicit resume reconciliation", {});
    var p2 := MoveTo(p1, Reconciling, "explicit resume reconciliation", {});
    HaltedReaches(p2, "resume reconciliation raised an exception", {"RECONCILIATION_EXCEPTION"} + noted);
    if answer.Answered? {
      HaltedReaches(p2, "resume reconciliation did not pass", answer.blockers + noted);
    }
  }

  lemma ReconcileReadies(db: Db, answer: Reconciliation)
    requires !db.status.state.Ready?
    ensures Reconcile(db, answer).db.status.state.Ready? ==> Passed(answer)
  {
    hide MoveTo, TransitionHalted, TrippedNow;
    var p0 := Begin(db);
    MoveReaches(p0, Starting, "manual reconciliation requested", {});
    var p1 := MoveFrom(p0, Disarmed, Starting, "manual reconciliation requested", {});
    MoveReaches(p1, Reconciling, "manual reconciliation running", {});
    var p2 :=
      if p1.db.status.state.Reconciling? then p1
      else MoveTo(p1, Reconciling, "manual reconciliation running", {});
    HaltedReaches(p2, "manual reconciliation raised an exception", {"RECONCILIATION_EXCEPTION"});
    if answer.Answered? {
      HaltedReaches(p2, "manual reconciliation requires explicit resume",
        answer.blockers + (if TrippedNow(db) then {KILL_SWITCH} else {})
        + (if db.status.state.Halted? then {"EXPLICIT_RESUME_REQUIRED"} else {}));
    }
  }

  lemma HaltReadies(db: Db, request: RequestId, now: Time)
    requires !db.status.state.Ready?
    ensures !Halt(db, request, now).db.status.state.Ready?
  {
    hide MoveTo, HasRow;
    var p1 := Revoke(Begin(db));
    MoveReaches(p1, Disarmed, "stop completed before emergency halt", {});
    var p2 := MoveFrom(p1, RuntimeState.Stopping, Disarmed, "stop completed before emergency halt", {});
    MoveReaches(p2, Starting, "local emergency halt control", {});
    var p3 := MoveFrom(p2, Disarmed, Starting, "local emergency halt control", {});
    MoveReaches(p3, Halted, "local emergency halt", p3.db.status.blockers + {KILL_SWITCH});
  }

  lemma DisarmReadies(db: Db, request: RequestId)
    requires !db.status.state.Ready?
    ensures !Disarm(db, request).db.status.state.Ready?
  {
    hide MoveTo;
    var p1 := Revoke(Begin(db));
    MoveReaches(p1, RuntimeState.Stopping, "local disarm requested", p1.db.status.blockers);
    var p2 :=
      if p1.db.status.state.Disarmed? || p1.db.status.state.Stopping? then p1
      else MoveTo(p1, RuntimeState.Stopping, "local disarm requested", p1.db.status.blockers);
    MoveReaches(p2, Disarmed, "local disarm completed", OnlyKillSwitch(p2.db.status.blockers));
  }

  lemma StopReadies(db: Db, request: RequestId)
    requires !db.status.state.Ready?
    ensures !Stop(db, request).db.status.state.Ready?
  {
    hide MoveTo;
    var p1 := Revoke(Begin(db));
    MoveReaches(p1, Starting, "local stop control", {});
    var p2 := MoveFrom(p1, Disarmed, Starting, "local stop control", {});
    MoveReaches(p2, RuntimeState.Stopping, "local stop requested", p2.db.status.blockers);
  }

  lemma PerformReadies(db: Db, op: Op, now: Time)
    requires !db.status.state.Ready? && !op.ByService?
    ensures Perform(db, op, now).db.status.state.Ready? ==> PassedTurn(op)
  {
    hide MoveTo, TransitionHalted, TrippedNow, Halt, Disarm, Stop, Resume, Reconcile;
    match op
    case Requested(command, request) =>
      match command {
        case HaltCommand => HaltReadies(db, request, now);
        case DisarmCommand => DisarmReadies(db, request);
        case StopCommand => StopReadies(db, request);
        case CancelCommand =>
      }
    case Finalize => MoveReaches(Begin(db), Disarmed, "production stop completed", OnlyKillSwitch(db.status.blockers));
    case ByHalt(nonce) =>
      HaltedReaches(Revoke(Begin(db)), "operator kill switch", db.status.blockers + {KILL_SWITCH});
    case ByDisarm(nonce) =>
      var p1 := Revoke(Begin(db));
      MoveReaches(p1, RuntimeState.Stopping, "operator disarm requested", db.status.blockers);
      var p2 :=
        if db.status.state.Disarmed? || db.status.state.Stopping? then p1
        else MoveTo(p1, RuntimeState.Stopping, "operator disarm requested", db.status.blockers);
      MoveReaches(p2, Disarmed, "operator disarmed", if TrippedNow(db) then {KILL_SWITCH} else {});
    case ByResume(confirmed, answer, nonce, resetNonce) =>
      ResumeReadies(db, confirmed, answer, nonce, resetNonce, now);
    case ByReconcile(answer) => ReconcileReadies(db, answer);
    case _ =>
  }

  /** Over every run of commands, crashes included, that leaves the services' own moves
      aside: a runtime that was not READY is READY only if a reconciliation passed on the
      way, in a confirmed resume or a manual one. */
  lemma {:induction false} ReadyOnlyAfterPass(db: Db, clock: Time, turns: seq<Turn>)
    requires !db.status.state.Ready? && forall i :: 0 <= i < |turns| ==> !turns[i].op.ByService?
    ensures Play(db, clock, turns).status.state.Ready? ==>
      exists i :: 0 <= i < |turns| && PassedTurn(turns[i].op)
  {
    hide Perform;
    if turns != [] {
      var init, last := turns[..|turns| - 1], turns[|turns| - 1];
      ReadyOnlyAfterPass(db, clock, init);
      var before := Play(db, clock, init);
      if before.status.state.Ready? {
        var i :| 0 <= i < |init| && PassedTurn(init[i].op);
        assert PassedTurn(turns[i].op);
      } else {
        PerformReadies(before.(left := last.left), last.op, Clock(clock, init) + last.wait);
        assert last == turns[|turns| - 1];
      }
    }
  }
}
