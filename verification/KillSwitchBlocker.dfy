/** The kill switch read as the source reads it: by the newest trip or reset row, or by the
    status's blocker while there is no row. */
module KillSwitchBlocker {
  import opened Wrappers
  import opened ControlFacts
  import opened RuntimeStates
  import opened ControlProtocol
  import opened KillSwitch
  import opened ControlConvergence

  /** A status that names the kill switch goes with no live lease, and is never READY. */
  predicate Guarded(db: Db) {
    && (KILL_SWITCH in db.status.blockers ==> db.active == {})
    && (db.status.state.Ready? ==> KILL_SWITCH !in db.status.blockers)
  }

  /** The services name the kill switch as a blocker nowhere, except that a halt for any
      reason may. */
  predicate Ordinary(op: Op) {
    op.ByService? && KILL_SWITCH in op.blockers ==> op.target.Halted?
  }

  // ------------------------------------------------------------ command after command

  lemma MoveIsGuarded(p: Progress, target: RuntimeState, reason: string, blockers: set<string>)
    requires Guarded(p.db)
    requires Running(p) && KILL_SWITCH in blockers ==> target.Halted? || (p.db.active == {} && !target.Ready?)
    ensures var q := MoveTo(p, target, reason, blockers);
      Guarded(q.db) && q.db.active <= p.db.active && (!Running(p) ==> q == p)
  {
  }

  lemma HaltedIsGuarded(p: Progress, reason: string, blockers: set<string>)
    requires Guarded(p.db)
    ensures Guarded(TransitionHalted(p, reason, blockers).db)
  {
    hide Guarded, MoveTo;
    MoveIsGuarded(p, Disarmed, "operator stop completed before halt", {});
    var p1 := MoveFrom(p, RuntimeState.Stopping, Disarmed, "operator stop completed before halt", {});
    MoveIsGuarded(p1, Starting, "operator emergency control started", {});
    var p2 := MoveFrom(p1, Disarmed, Starting, "operator emergency control started", {});
    MoveIsGuarded(p2, Halted, reason, blockers);
  }

  lemma RevokeIsGuarded(db: Db)
    requires Guarded(db)
    ensures var p := Revoke(Begin(db));
      Guarded(p.db) && p.db.status == db.status && (Running(p) ==> p.db.active == {})
  {
  }

  lemma HaltIsGuarded(db: Db, request: RequestId, now: Time)
    requires Guarded(db)
    ensures Guarded(Halt(db, request, now).db)
  {
    RevokeIsGuarded(db);
    hide MoveTo, HasRow;
    var p1 := Revoke(Begin(db));
    MoveIsGuarded(p1, Disarmed, "stop completed before emergency halt", {});
    var p2 := MoveFrom(p1, RuntimeState.Stopping, Disarmed, "stop completed before emergency halt", {});
    MoveIsGuarded(p2, Starting, "local emergency halt control", {});
    var p3 := MoveFrom(p2, Disarmed, Starting, "local emergency halt control", {});
    MoveIsGuarded(p3, Halted, "local emergency halt", p3.db.status.blockers + {KILL_SWITCH});
  }

  lemma DisarmIsGuarded(db: Db, request: RequestId)
    requires Guarded(db)
    ensures Guarded(Disarm(db, request).db)
  {
    RevokeIsGuarded(db);
    hide MoveTo;
    var p1 := Revoke(Begin(db));
    MoveIsGuarded(p1, RuntimeState.Stopping, "local disarm requested", p1.db.status.blockers);
    var p2 :=
      if p1.db.status.state.Disarmed? || p1.db.status.state.Stopping? then p1
      else MoveTo(p1, RuntimeState.Stopping, "local disarm requested", p1.db.status.blockers);
    MoveIsGuarded(p2, Disarmed, "local disarm completed", OnlyKillSwitch(p2.db.status.blockers));
  }

  lemma StopIsGuarded(db: Db, request: RequestId)
    requires Guarded(db)
    ensures Guarded(Stop(db, request).db)
  {
    RevokeIsGuarded(db);
    hide MoveTo;
    var p1 := Revoke(Begin(db));
    MoveIsGuarded(p1, Starting, "local stop control", {});
    var p2 := MoveFrom(p1, Disarmed, Starting, "local stop control", {});
    MoveIsGuarded(p2, RuntimeState.Stopping, "local stop requested", p2.db.status.blockers);
  }

  lemma CancelIsGuarded(db: Db, request: RequestId)
    requires Guarded(db)
    ensures Guarded(Cancel(db, request).db)
  {
  }

  lemma OperatorDisarmIsGuarded(db: Db, nonce: string)
    requires Guarded(db)
    ensures Guarded(OperatorDisarm(db, nonce).db)
  {
    RevokeIsGuarded(db);
    hide MoveTo, TrippedNow;
    var p1 := Revoke(Begin(db));
    MoveIsGuarded(p1, RuntimeState.Stopping, "operator disarm requested", db.status.blockers);
    var p2 :=
      if db.status.state.Disarmed? || db.status.state.Stopping? then p1
      else MoveTo(p1, RuntimeState.Stopping, "operator disarm requested", db.status.blockers);
    MoveStops(p1, RuntimeState.Stopping, "operator disarm requested", db.status.blockers);
    MoveIsGuarded(p2, Disarmed, "operator disarmed", if TrippedNow(db) then {KILL_SWITCH} else {});
  }

  lemma MoveStops(p: Progress, target: RuntimeState, reason: string, blockers: set<string>)
    ensures Running(MoveTo(p, target, reason, blockers)) ==> Running(p)
  {
  }

  lemma OperatorHaltIsGuarded(db: Db, nonce: string, now: Time)
    requires Guarded(db)
    ensures Guarded(OperatorHalt(db, nonce, now).db)
  {
    RevokeIsGuarded(db);
    hide TransitionHalted;
    HaltedIsGuarded(Revoke(Begin(db)), "operator kill switch", db.status.blockers + {KILL_SWITCH});
  }

  lemma ResumeIsGuarded(
    db: Db, confirmed: bool, answer: Reconciliation, nonce: string, resetNonce: string, now: Time
  )
    requires Guarded(db)
    ensures Guarded(Resume(db, confirmed, answer, nonce, resetNonce, now).db)
  {
    var noted := if TrippedNow(db) then {KILL_SWITCH} else {};
    var p1 := Write(Begin(db), db.(active := {}, audits := db.audits + [OfOperator(nonce)]));
    assert Guarded(p1.db);
    hide MoveTo, TransitionHalted, TrippedNow;
    MoveIsGuarded(p1, Reconciling, "explicit resume reconciliation", {});
    var p2 := MoveTo(p1, Reconciling, "explicit resume reconciliation", {});
    HaltedIsGuarded(p2, "resume reconciliation raised an exception", {"RECONCILIATION_EXCEPTION"} + noted);
    if answer.Answered? {
      HaltedIsGuarded(p2, "resume reconciliation did not pass", answer.blockers + noted);
    }
    var p3 := if TrippedNow(db) then RiskAndAudit(p2, Reset, resetNonce, now) else OperatorAudit(p2, resetNonce);
    MoveIsGuarded(p3, Ready, "resume reconciliation passed", {});
  }

  lemma ReconcileIsGuarded(db: Db, answer: Reconciliation)
    requires Guarded(db)
    ensures Guarded(Reconcile(db, answer).db)
  {
    hide MoveTo, TransitionHalted, TrippedNow;
    var p0 := Begin(db);
    MoveIsGuarded(p0, Starting, "manual reconciliation requested", {});
    var p1 := MoveFrom(p0, Disarmed, Starting, "manual reconciliation requested", {});
    MoveIsGuarded(p1, Reconciling, "manual reconciliation running", {});
    var p2 :=
      if p1.db.status.state.Reconciling? then p1
      else MoveTo(p1, Reconciling, "manual reconciliation running", {});
    HaltedIsGuarded(p2, "manual reconciliation raised an exception", {"RECONCILIATION_EXCEPTION"});
    if answer.Answered? {
      HaltedIsGuarded(p2, "manual reconciliation requires explicit resume",
        answer.blockers + (if TrippedNow(db) then {KILL_SWITCH} else {})
        + (if db.status.state.Halted? then {"EXPLICIT_RESUME_REQUIRED"} else {}));
    }
    MoveIsGuarded(p2, Ready, "manual reconciliation passed", {});
  }

  lemma ArmIsGuarded(db: Db, others: bool, lease: Lease, nonce: string)
    requires Guarded(db)
    ensures Guarded(Arm(db, others, lease, nonce).db)
  {
  }

  lemma PerformIsGuarded(db: Db, op: Op, now: Time)
    requires Guarded(db) && Ordinary(op)
    ensures Guarded(Perform(db, op, now).db)
  {
    hide Guarded, Halt, Disarm, Stop, OperatorHalt, OperatorDisarm, Resume, Reconcile, Arm, MoveTo;
    match op
    case Requested(command, request) =>
      match command {
        case HaltCommand => HaltIsGuarded(db, request, now);
        case DisarmCommand => DisarmIsGuarded(db, request);
        case CancelCommand => CancelIsGuarded(db, request);
        case StopCommand => StopIsGuarded(db, request);
      }
    case Finalize => FinalizeIsGuarded(db);
    case ByHalt(nonce) => OperatorHaltIsGuarded(db, nonce, now);
    case ByDisarm(nonce) => OperatorDisarmIsGuarded(db, nonce);
    case ByResume(confirmed, answer, nonce, resetNonce) =>
      ResumeIsGuarded(db, confirmed, answer, nonce, resetNonce, now);
    case ByReconcile(answer) => ReconcileIsGuarded(db, answer);
    case ByArm(others, lease, nonce) => ArmIsGuarded(db, others, lease, nonce);
    case ByService(target, reason, blockers) => MoveIsGuarded(Begin(db), target, reason, blockers);
  }

  lemma FinalizeIsGuarded(db: Db)
    requires Guarded(db)
    ensures Guarded(FinalizeStop(db).db)
  {
    hide MoveTo;
    MoveIsGuarded(Begin(db), Disarmed, "production stop completed", OnlyKillSwitch(db.status.blockers));
  }

  // ---------------------------------------------------------------------- whole runs

  ghost predicate AllOrdinary(turns: seq<Turn>) {
    forall i :: 0 <= i < |turns| ==> Ordinary(turns[i].op)
  }

  lemma {:induction false} PlayIsGuarded(db: Db, clock: Time, turns: seq<Turn>)
    requires Guarded(db) && AllOrdinary(turns)
    ensures Guarded(Play(db, clock, turns))
  {
    hide Perform, Ordinary;
    if turns != [] {
      var (init, last) := (turns[..|turns| - 1], turns[|turns| - 1]);
      PlayIsGuarded(db, clock, init);
      var before := Play(db, clock, init);
      assert Ordinary(last.op);
      PerformIsGuarded(before.(left := last.left), last.op, Clock(clock, init) + last.wait);
    }
  }

  /** Kill-switch safety: after any run, with crashes anywhere, a kill switch that reads as
      tripped, by its row or by its blocker, means that no lease is alive. */
  lemma TrippedMeansNoLease(db: Db, clock: Time, turns: seq<Turn>)
    requires Safe(db, clock) && Guarded(db) && AllOrdinary(turns)
    ensures TrippedNow(Play(db, clock, turns)) ==> !LeaseLoaded(Play(db, clock, turns))
  {
    hide Play, Dated, Numbered, Latest;
    PlayIsSafe(db, clock, turns);
    PlayIsGuarded(db, clock, turns);
  }

  const START := Db(INITIAL, {}, [], [], 0)

  lemma StartIsSafe()
    ensures Safe(START, 0) && Guarded(START)
  {
  }

  // ------------------------------------------------------- what a trip is good for, exactly

  /** No run of ordinary commands loads a lease before a confirmed, passed resume. */
  ghost predicate Holds(db: Db, clock: Time) {
    forall turns: seq<Turn> ::
      AllOrdinary(turns) && (forall i :: 0 <= i < |turns| ==> !PassedResume(turns[i].op))
      ==> !LeaseLoaded(Play(db, clock, turns))
  }

  /** Commands that load a lease past a trip without a row, from any state whatever. */
  const WAY_AROUND: seq<Turn> := [
    Turn(Requested(DisarmCommand, 1), 6, 0), Turn(Requested(StopCommand, 2), 6, 0),
    Turn(Finalize, 6, 0), Turn(ByReconcile(Answered(true, {})), 6, 0), Turn(ByArm(true, "lease", "n"), 6, 0)]

  lemma PlaySnoc(db: Db, clock: Time, turns: seq<Turn>, last: Turn)
    ensures Play(db, clock, turns + [last]) == TakeTurn(Play(db, clock, turns), Clock(clock, turns), last)
  {
    hide TakeTurn;
    assert (turns + [last])[..|turns|] == turns;
  }

  lemma {:induction false} PlayJoins(db: Db, clock: Time, first: seq<Turn>, rest: seq<Turn>)
    ensures Play(db, clock, first + rest) == Play(Play(db, clock, first), Clock(clock, first), rest)
    ensures Clock(clock, first + rest) == Clock(Clock(clock, first), rest)
    decreases |rest|
  {
    hide TakeTurn;
    if rest == [] {
      assert first + rest == first;
    } else {
      var (init, last) := (rest[..|rest| - 1], rest[|rest| - 1]);
      PlayJoins(db, clock, first, init);
      assert first + rest == first + init + [last];
      assert (first + init + [last])[..|first + init|] == first + init;
    }
  }

  /** The first three commands clear the blocker; none of them is a resume. */
  lemma StopClears(db: Db, clock: Time)
    requires db.risk == []
    ensures var d := TakeTurn(db, clock, WAY_AROUND[0]);
      var s := TakeTurn(d, clock, WAY_AROUND[1]);
      var f := TakeTurn(s, clock, WAY_AROUND[2]);
      f.risk == [] && f.status.state.Disarmed? && f.status.blockers == {}
  {
    hide Execute, OnTheWay, MoveTo;
    EveryAttempt(db.(left := 6), DisarmCommand, 1, clock);
    var d := TakeTurn(db, clock, WAY_AROUND[0]);
    CommandKeepsRows(db.(left := 6), DisarmCommand, 1, clock);
    DisarmEnds(db.status);
    EveryAttempt(d.(left := 6), StopCommand, 2, clock);
    CommandKeepsRows(d.(left := 6), StopCommand, 2, clock);
    var s := TakeTurn(d, clock, WAY_AROUND[1]);
    StopEnds(d.status);
    FinalizeEnds(s.(left := 6));
  }

  lemma CommandKeepsRows(db: Db, command: Command, request: RequestId, now: Time)
    requires !command.HaltCommand? && db.risk == []
    ensures Execute(db, command, request, now).db.risk == []
  {
    hide Target, CountTrips, CountAudits;
    EveryAttempt(db, command, request, now);
    hide Execute;
    var after := Execute(db, command, request, now).db;
    assert TargetRows(command, request, after.risk) == TargetRows(command, request, []);
  }

  lemma DisarmEnds(s: Status)
    ensures Target(DisarmCommand, s).state.Disarmed?
  {
  }

  lemma StopEnds(s: Status)
    requires s.state.Disarmed?
    ensures Target(StopCommand, s).state.Stopping? && Target(StopCommand, s).blockers == {}
  {
  }

  lemma FinalizeEnds(db: Db)
    requires db.status.state.Stopping? && db.status.blockers == {} && db.left > 0
    ensures var f := FinalizeStop(db).db;
      f.status.state.Disarmed? && f.status.blockers == {} && f.risk == db.risk
  {
  }

  lemma ReconcileReadies(db: Db)
    requires db.status.state.Disarmed? && db.status.blockers == {} && db.risk == [] && db.left >= 3
    ensures var r := Reconcile(db, Answered(true, {})).db;
      r.status.state.Ready? && r.status.blockers == {} && r.risk == []
  {
    hide TransitionHalted;
  }

  lemma ArmLoads(db: Db, lease: Lease, nonce: string)
    requires db.status.state.Ready? && db.status.blockers == {} && db.risk == [] && db.left > 0
    ensures LeaseLoaded(Arm(db, true, lease, nonce).db)
  {
  }

  lemma WayAroundLoads(db: Db, clock: Time)
    requires db.risk == []
    ensures LeaseLoaded(Play(db, clock, WAY_AROUND))
  {
    hide Execute, FinalizeStop, Reconcile, Arm;
    StopClears(db, clock);
    var d := TakeTurn(db, clock, WAY_AROUND[0]);
    var s := TakeTurn(d, clock, WAY_AROUND[1]);
    var f := TakeTurn(s, clock, WAY_AROUND[2]);
    ReconcileReadies(f.(left := 6));
    var r := TakeTurn(f, clock, WAY_AROUND[3]);
    ArmLoads(r.(left := 6), "lease", "n");
    hide TakeTurn;
    PlayAll(db, clock);
  }

  lemma PlayAll(db: Db, clock: Time)
    ensures Play(db, clock, WAY_AROUND)
         == TakeTurn(TakeTurn(TakeTurn(TakeTurn(TakeTurn(
              db, clock, WAY_AROUND[0]), clock, WAY_AROUND[1]), clock, WAY_AROUND[2]),
              clock, WAY_AROUND[3]), clock, WAY_AROUND[4])
  {
    hide TakeTurn;
    var (t1, t2, t3, t4) :=
      ([] + [WAY_AROUND[0]], [] + [WAY_AROUND[0]] + [WAY_AROUND[1]],
       [] + [WAY_AROUND[0]] + [WAY_AROUND[1]] + [WAY_AROUND[2]],
       [] + [WAY_AROUND[0]] + [WAY_AROUND[1]] + [WAY_AROUND[2]] + [WAY_AROUND[3]]);
    PlaySnoc(db, clock, [], WAY_AROUND[0]);
    PlaySnoc(db, clock, t1, WAY_AROUND[1]);
    PlaySnoc(db, clock, t2, WAY_AROUND[2]);
    PlaySnoc(db, clock, t3, WAY_AROUND[3]);
    PlaySnoc(db, clock, t4, WAY_AROUND[4]);
    assert WAY_AROUND == t4 + [WAY_AROUND[4]];
    NoWaits(clock, t4);
    NoWaits(clock, t3);
    NoWaits(clock, t2);
    NoWaits(clock, t1);
    NoWaits(clock, []);
  }

  lemma {:induction false} NoWaits(clock: Time, turns: seq<Turn>)
    requires forall i :: 0 <= i < |turns| ==> turns[i].wait == 0
    ensures Clock(clock, turns) == clock
  {
    if turns != [] {
      NoWaits(clock, turns[..|turns| - 1]);
    }
  }

  /** A trip holds until a passed resume exactly when it has a row. One that is known only
      by the status's blocker can be got round from every state. */
  lemma TripHoldsExactly(db: Db, clock: Time)
    requires Safe(db, clock) && TrippedNow(db)
    ensures Holds(db, clock) <==> TrippedByRow(db.risk)
  {
    hide Dated, Numbered, Play, Ordinary;
    if TrippedByRow(db.risk) {
      forall turns: seq<Turn> | forall i :: 0 <= i < |turns| ==> !PassedResume(turns[i].op)
        ensures !LeaseLoaded(Play(db, clock, turns))
      {
        NoLeaseUntilPassedResume(db, clock, turns);
      }
    } else {
      assert db.risk == [];
      WayAroundLoads(db, clock);
      WayIsOrdinary();
    }
  }

  lemma WayIsOrdinary()
    ensures AllOrdinary(WAY_AROUND) && forall i :: 0 <= i < |WAY_AROUND| ==> !PassedResume(WAY_AROUND[i].op)
  {
  }

  /** A run from the first start: a HALT dies after its status and before its row; then the
      kill switch reads as tripped, and yet commands without any resume load a lease. */
  lemma TripWithoutRowIsLost()
    ensures var halt := [Turn(Requested(HaltCommand, 3), 3, 0)];
      && TrippedNow(Play(START, 0, halt)) && Play(START, 0, halt).status.state.Halted?
      && LeaseLoaded(Play(START, 0, halt + WAY_AROUND))
      && forall i :: 0 <= i < |halt + WAY_AROUND| ==>
           Ordinary((halt + WAY_AROUND)[i].op) && !PassedResume((halt + WAY_AROUND)[i].op)
  {
    var halt := [Turn(Requested(HaltCommand, 3), 3, 0)];
    assert halt[..0] == [];
    HaltDies();
    hide TakeTurn;
    var halted := Play(START, 0, halt);
    PlayJoins(START, 0, halt, WAY_AROUND);
    WayAroundLoads(halted, 0);
    WayIsOrdinary();
  }

  lemma HaltDies()
    ensures var db := Halt(START.(left := 3), 3, 0).db;
      db.risk == [] && db.status.state.Halted? && KILL_SWITCH in db.status.blockers
  {
  }
}
