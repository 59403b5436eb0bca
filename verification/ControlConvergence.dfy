/** Crashing and re-executing a control request comes to the same as executing it once. */
module ControlConvergence {
  import opened Wrappers
  import opened ControlFacts
  import opened RuntimeStates
  import opened ControlProtocol

  /** The risk rows without their times. */
  function Rows(risk: seq<RiskRow>): seq<(RiskId, RiskCode)> {
    if risk == [] then []
    else Rows(risk[..|risk| - 1]) + [(risk[|risk| - 1].id, risk[|risk| - 1].code)]
  }

  function CountTrips(risk: seq<RiskRow>, request: RequestId): nat {
    if risk == [] then 0
    else
      CountTrips(risk[..|risk| - 1], request)
      + (if risk[|risk| - 1].id == OfRequest(request) then 1 else 0)
  }

  function CountAudits(audits: seq<AuditId>, id: AuditId): nat {
    if audits == [] then 0
    else CountAudits(audits[..|audits| - 1], id) + (if audits[|audits| - 1] == id then 1 else 0)
  }

  function Moved(s: Status, target: RuntimeState, reason: string, blockers: set<string>): Status {
    if target == s.state && reason == s.reason && blockers == s.blockers then s
    else Status(target, s.revision + 1, reason, blockers)
  }

  /** Where the runtime status ends when the command is executed without a crash. */
  function Target(command: Command, s: Status): Status {
    match command
    case HaltCommand =>
      var s1 := if s.state.Stopping? then Moved(s, Disarmed, "stop completed before emergency halt", {}) else s;
      var s2 := if s1.state.Disarmed? then Moved(s1, Starting, "local emergency halt control", {}) else s1;
      Moved(s2, Halted, "local emergency halt", s2.blockers + {KILL_SWITCH})
    case DisarmCommand =>
      var s1 :=
        if s.state.Disarmed? || s.state.Stopping? then s
        else Moved(s, RuntimeState.Stopping, "local disarm requested", s.blockers);
      if s1.state.Stopping?
      then Moved(s1, Disarmed, "local disarm completed", OnlyKillSwitch(s1.blockers)) else s1
    case CancelCommand => s
    case StopCommand =>
      var s1 := if s.state.Disarmed? then Moved(s, Starting, "local stop control", {}) else s;
      if s1.state.Stopping? then s1
      else Moved(s1, RuntimeState.Stopping, "local stop requested", s1.blockers)
  }

  function TargetRows(command: Command, request: RequestId, risk: seq<RiskRow>): seq<(RiskId, RiskCode)> {
    if command.HaltCommand? && !HasRow(risk, OfRequest(request))
    then Rows(risk) + [(OfRequest(request), Tripped)] else Rows(risk)
  }

  /** `p` is on the way from `db` to the end of the command. */
  predicate OnTheWay(command: Command, request: RequestId, db: Db, p: Progress) {
    && (p.end.Some? ==> !p.end.value.Raise?)
    && Target(command, p.db.status) == Target(command, db.status)
    && TargetRows(command, request, p.db.risk) == TargetRows(command, request, db.risk)
    && (CountTrips(db.risk, request) <= 1 ==> CountTrips(p.db.risk, request) <= 1)
    && (CountAudits(db.audits, OfCommand(command, request)) <= 1
        ==> CountAudits(p.db.audits, OfCommand(command, request)) <= 1)
  }

  lemma {:induction false} CountsMembers(risk: seq<RiskRow>, request: RequestId)
    ensures HasRow(risk, OfRequest(request)) <==> CountTrips(risk, request) > 0
  {
    if risk != [] {
      var init, last := risk[..|risk| - 1], risk[|risk| - 1];
      CountsMembers(init, request);
      assert risk == init + [last];
      if HasRow(init, OfRequest(request)) {
        var r :| r in init && r.id == OfRequest(request);
        assert r in risk;
      }
      assert last in risk;
    }
  }

  lemma {:induction false} AuditMembers(audits: seq<AuditId>, id: AuditId)
    ensures id in audits <==> CountAudits(audits, id) > 0
  {
    if audits != [] {
      var init, last := audits[..|audits| - 1], audits[|audits| - 1];
      AuditMembers(init, id);
      assert audits == init + [last];
    }
  }

  lemma AuditSnoc(audits: seq<AuditId>, a: AuditId, id: AuditId)
    ensures CountAudits(audits + [a], id) == CountAudits(audits, id) + (if a == id then 1 else 0)
  {
    assert (audits + [a])[..|audits|] == audits;
  }

  lemma RowSnoc(risk: seq<RiskRow>, r: RiskRow, request: RequestId)
    ensures Rows(risk + [r]) == Rows(risk) + [(r.id, r.code)]
    ensures CountTrips(risk + [r], request)
         == CountTrips(risk, request) + (if r.id == OfRequest(request) then 1 else 0)
    ensures HasRow(risk + [r], OfRequest(request))
      <==> HasRow(risk, OfRequest(request)) || r.id == OfRequest(request)
  {
    assert (risk + [r])[..|risk|] == risk;
    if HasRow(risk, OfRequest(request)) {
      var q :| q in risk && q.id == OfRequest(request);
      assert q in risk + [r];
    }
    assert r in risk + [r];
  }

  /** A status transition, or the death before it, leaves the rest of the way as it is. */
  lemma MoveStays(
    command: Command, request: RequestId, db: Db, p: Progress,
    target: RuntimeState, reason: string, blockers: set<string>
  )
    requires OnTheWay(command, request, db, p)
    requires Transition(p.db.status, target, reason, blockers).Ok?
    requires Target(command, Moved(p.db.status, target, reason, blockers)) == Target(command, p.db.status)
    ensures var q := MoveTo(p, target, reason, blockers);
      && OnTheWay(command, request, db, q)
      && (Running(q) ==> q.db.status == Moved(p.db.status, target, reason, blockers))
      && (p.db.active == {} ==> q.db.active == {}) && q.db.risk == p.db.risk
      && (Running(q) ==> Running(p) && q.db.left >= p.db.left - 1)
      && (Running(p) && p.db.left > 0 ==> Running(q))
      && (!Running(p) ==> q == p)
  {
    hide Target, TargetRows;
    var id := OfCommand(command, request);
    var next := Transition(p.db.status, target, reason, blockers).value;
    AuditSnoc(p.db.audits, OfTransition(next.revision), id);
    AuditSnoc(p.db.audits, OfHaltRevocation(next.revision), id);
    AuditSnoc(p.db.audits + [OfHaltRevocation(next.revision)], OfTransition(next.revision), id);
    assert p.db.audits + [] == p.db.audits;
  }

  lemma RevokeStays(command: Command, request: RequestId, db: Db)
    ensures var q := Revoke(Begin(db));
      && OnTheWay(command, request, db, q) && q.db.status == db.status
      && q.db.risk == db.risk && q.db.audits == db.audits
      && (!command.CancelCommand? ==> q.db.active == Swept(command, db))
      && (Running(q) ==> q.db.left == db.left - 1)
      && (db.left > 0 ==> Running(q))
  {
    hide Target, TargetRows, CountTrips, CountAudits;
  }

  lemma TripStays(request: RequestId, db: Db, p: Progress, now: Time)
    requires OnTheWay(HaltCommand, request, db, p)
    ensures var q := TripOnce(p, request, now);
      && OnTheWay(HaltCommand, request, db, q) && q.db.status == p.db.status && q.db.active == p.db.active
      && (Running(q) ==>
            Running(p) && HasRow(q.db.risk, OfRequest(request)) && q.db.left >= p.db.left - 1)
      && (Running(p) && p.db.left > 0 ==> Running(q))
      && (if Running(p) then Running(q) || q.end == Some(Die) else q == p)
  {
    hide Target, Rows, CountTrips, CountAudits, HasRow;
    RowSnoc(p.db.risk, RiskRow(OfRequest(request), Tripped, now), request);
    CountsMembers(p.db.risk, request);
  }

  lemma AuditStays(command: Command, request: RequestId, db: Db, p: Progress)
    requires OnTheWay(command, request, db, p)
    ensures var q := Finish(AuditOnce(p, OfCommand(command, request)));
      && OnTheWay(command, request, db, q) && q.db.status == p.db.status && q.db.active == p.db.active
      && q.db.risk == p.db.risk
      && (q.end == Some(Go(())) <==>
            p.end == Some(Go(()))
            || (Running(p) && (OfCommand(command, request) in p.db.audits || p.db.left > 0)))
      && (q.end == Some(Go(())) && Running(p) ==> OfCommand(command, request) in q.db.audits)
      && q.end.Some? && (!Running(p) ==> q == p)
  {
    hide Target, TargetRows, CountTrips, CountAudits;
    AuditSnoc(p.db.audits, OfCommand(command, request), OfCommand(command, request));
    AuditMembers(p.db.audits, OfCommand(command, request));
  }

  /** The first transaction of every command but a cancel revokes the leases; none issues
      one. */
  function Swept(command: Command, db: Db): set<Lease> {
    if command.CancelCommand? || db.left == 0 then db.active else {}
  }

  /** What an attempt amounts to, crashed or not. */
  predicate Attempted(command: Command, request: RequestId, db: Db, p: Progress) {
    && OnTheWay(command, request, db, p)
    && p.end.Some?
    && (db.left >= 6 ==> p.end == Some(Go(())))
    && p.db.active == Swept(command, db)
    && (p.end == Some(Go(())) ==>
          && p.db.status == Target(command, db.status)
          && (!command.CancelCommand? ==> p.db.active == {})
          && (command.HaltCommand? ==> HasRow(p.db.risk, OfRequest(request)))
          && OfCommand(command, request) in p.db.audits)
  }

  lemma HaltAttempt(db: Db, request: RequestId, now: Time)
    ensures Attempted(HaltCommand, request, db, Halt(db, request, now))
  {
    hide OnTheWay, HasRow, AuditOnce, TripOnce;
    RevokeStays(HaltCommand, request, db);
    var p1 := Revoke(Begin(db));
    var p2 := MoveFrom(p1, RuntimeState.Stopping, Disarmed, "stop completed before emergency halt", {});
    if p1.db.status.state.Stopping? {
      MoveStays(HaltCommand, request, db, p1, Disarmed, "stop completed before emergency halt", {});
    }
    var p3 := MoveFrom(p2, Disarmed, Starting, "local emergency halt control", {});
    if p2.db.status.state.Disarmed? {
      MoveStays(HaltCommand, request, db, p2, Starting, "local emergency halt control", {});
    }
    HaltRest(db, request, now, p3);
  }

  lemma HaltRest(db: Db, request: RequestId, now: Time, p3: Progress)
    requires OnTheWay(HaltCommand, request, db, p3)
    requires p3.db.active == Swept(HaltCommand, db) && (Running(p3) ==> db.left > 0)
    requires Running(p3) ==>
      !p3.db.status.state.Stopping? && !p3.db.status.state.Disarmed?
    requires db.left >= 6 ==> Running(p3) && p3.db.left >= 3
    requires p3.end.Some? ==> p3.end.value.Die?
    ensures var p4 := MoveTo(p3, Halted, "local emergency halt", p3.db.status.blockers + {KILL_SWITCH});
      Attempted(HaltCommand, request, db,
        Finish(AuditOnce(TripOnce(p4, request, now), OfCommand(HaltCommand, request))))
  {
    hide OnTheWay, HasRow, AuditOnce, TripOnce, Target;
    var p4 := MoveTo(p3, Halted, "local emergency halt", p3.db.status.blockers + {KILL_SWITCH});
    if Running(p3) {
      HaltIsNext(p3.db.status);
      MoveStays(HaltCommand, request, db, p3, Halted, "local emergency halt", p3.db.status.blockers + {KILL_SWITCH});
    }
    TripStays(request, db, p4, now);
    AuditStays(HaltCommand, request, db, TripOnce(p4, request, now));
    OnTheWayTarget(HaltCommand, request, db, p4);
  }

  lemma OnTheWayTarget(command: Command, request: RequestId, db: Db, p: Progress)
    requires OnTheWay(command, request, db, p)
    ensures Target(command, p.db.status) == Target(command, db.status)
    ensures p.end.Some? ==> !p.end.value.Raise?
  {
  }

  lemma HaltIsNext(s: Status)
    requires !s.state.Stopping? && !s.state.Disarmed?
    ensures var next := Moved(s, Halted, "local emergency halt", s.blockers + {KILL_SWITCH});
      && Transition(s, Halted, "local emergency halt", s.blockers + {KILL_SWITCH}).Ok?
      && Target(HaltCommand, s) == next && Target(HaltCommand, next) == next
  {
    assert s.blockers + {KILL_SWITCH} + {KILL_SWITCH} == s.blockers + {KILL_SWITCH};
  }

  lemma DisarmAttempt(db: Db, request: RequestId)
    ensures Attempted(DisarmCommand, request, db, Disarm(db, request))
  {
    hide OnTheWay, HasRow, AuditOnce;
    RevokeStays(DisarmCommand, request, db);
    var p1 := Revoke(Begin(db));
    var p2 :=
      if p1.db.status.state.Disarmed? || p1.db.status.state.Stopping? then p1
      else MoveTo(p1, RuntimeState.Stopping, "local disarm requested", p1.db.status.blockers);
    if !p1.db.status.state.Disarmed? && !p1.db.status.state.Stopping? {
      MoveStays(DisarmCommand, request, db, p1, RuntimeState.Stopping, "local disarm requested",
                p1.db.status.blockers);
    }
    var kept := OnlyKillSwitch(p2.db.status.blockers);
    var p3 := MoveFrom(p2, RuntimeState.Stopping, Disarmed, "local disarm completed", kept);
    if p2.db.status.state.Stopping? {
      MoveStays(DisarmCommand, request, db, p2, Disarmed, "local disarm completed", kept);
    }
    OnTheWayTarget(DisarmCommand, request, db, p3);
    AuditStays(DisarmCommand, request, db, p3);
  }

  lemma StopAttempt(db: Db, request: RequestId)
    ensures Attempted(StopCommand, request, db, Stop(db, request))
  {
    hide OnTheWay, HasRow, AuditOnce;
    RevokeStays(StopCommand, request, db);
    var p1 := Revoke(Begin(db));
    var p2 := MoveFrom(p1, Disarmed, Starting, "local stop control", {});
    if p1.db.status.state.Disarmed? {
      MoveStays(StopCommand, request, db, p1, Starting, "local stop control", {});
    }
    var p3 :=
      if p2.db.status.state.Stopping? then p2
      else MoveTo(p2, RuntimeState.Stopping, "local stop requested", p2.db.status.blockers);
    if !p2.db.status.state.Stopping? && Running(p2) {
      MoveStays(StopCommand, request, db, p2, RuntimeState.Stopping, "local stop requested",
                p2.db.status.blockers);
    }
    OnTheWayTarget(StopCommand, request, db, p3);
    AuditStays(StopCommand, request, db, p3);
  }

  lemma CancelAttempt(db: Db, request: RequestId)
    ensures Attempted(CancelCommand, request, db, Cancel(db, request))
  {
    hide AuditOnce;
    AuditStays(CancelCommand, request, db, Begin(db));
  }

  /** No attempt meets an illegal transition, whatever state it starts from; a crashed one
      leaves the same end to be reached; a finished one has reached it. */
  lemma EveryAttempt(db: Db, command: Command, request: RequestId, now: Time)
    ensures Attempted(command, request, db, Execute(db, command, request, now))
  {
    match command
    case HaltCommand => HaltAttempt(db, request, now);
    case DisarmCommand => DisarmAttempt(db, request);
    case CancelCommand => CancelAttempt(db, request);
    case StopCommand => StopAttempt(db, request);
  }

  // ------------------------------------------------------------- any number of crashes

  /** The same request executed again and again, each time by a process that lives for so
      many transactions from so late on. */
  function Attempts(db: Db, command: Command, request: RequestId, lives: seq<(nat, Time)>): Db {
    if lives == [] then db
    else
      var before := Attempts(db, command, request, lives[..|lives| - 1]);
      var (left, now) := lives[|lives| - 1];
      Execute(before.(left := left), command, request, now).db
  }

  predicate OneOfEach(db: Db, command: Command, request: RequestId) {
    && CountTrips(db.risk, request) <= 1
    && CountAudits(db.audits, OfCommand(command, request)) <= 1
  }

  lemma {:induction false} CrashedAttemptsStay(
    db: Db, command: Command, request: RequestId, lives: seq<(nat, Time)>
  )
    requires OneOfEach(db, command, request)
    ensures var after := Attempts(db, command, request, lives);
      && OneOfEach(after, command, request)
      && Target(command, after.status) == Target(command, db.status)
      && TargetRows(command, request, after.risk) == TargetRows(command, request, db.risk)
  {
    hide Target, TargetRows, CountTrips, CountAudits, Execute;
    if lives != [] {
      CrashedAttemptsStay(db, command, request, lives[..|lives| - 1]);
      var before := Attempts(db, command, request, lives[..|lives| - 1]);
      var (left, now) := lives[|lives| - 1];
      EveryAttempt(before.(left := left), command, request, now);
    }
  }

  /** Crash as often as may be, after any transaction of any attempt, and execute once more:
      the runtime status with its blockers and revision, the set of leases, empty but for a
      cancel, and the trip and reset rows are those of one undisturbed execution; and there is exactly one
      audit row, and for HALT exactly one trip row. */
  lemma CrashesDoNotMatter(
    db: Db, command: Command, request: RequestId, lives: seq<(nat, Time)>, now: Time, later: Time
  )
    requires OneOfEach(db, command, request)
    ensures var once := Execute(db.(left := 6), command, request, now);
      var again := Execute(Attempts(db, command, request, lives).(left := 6), command, request, later);
      && once.end == again.end == Some(Go(()))
      && again.db.status == once.db.status
      && (!command.CancelCommand? ==> again.db.active == once.db.active == {})
      && Rows(again.db.risk) == Rows(once.db.risk)
      && CountAudits(again.db.audits, OfCommand(command, request)) == 1
      && (command.HaltCommand? ==> CountTrips(again.db.risk, request) == 1)
  {
    hide Target, CountTrips, CountAudits, Execute, Rows, HasRow;
    CrashedAttemptsStay(db, command, request, lives);
    var after := Attempts(db, command, request, lives);
    EveryAttempt(db.(left := 6), command, request, now);
    EveryAttempt(after.(left := 6), command, request, later);
    var again := Execute(after.(left := 6), command, request, later);
    AuditMembers(again.db.audits, OfCommand(command, request));
    CountsMembers(again.db.risk, request);
  }

  /** What the command reports as revoked does tell: it is the number of leases there were
      when the last attempt began. */
  function ReportedRevocations(db: Db): nat { |db.active| }

  lemma RevocationsReported(db: Db, command: Command, request: RequestId, left: nat, now: Time)
    requires !command.CancelCommand?
    ensures var crashed := Execute(db.(left := left), command, request, now).db;
      ReportedRevocations(crashed) == ReportedRevocations(db) <==> left == 0 || db.active == {}
  {
    hide OnTheWay, Target, Execute;
    EveryAttempt(db.(left := left), command, request, now);
    if db.active != {} {
      NoLeases(db.active);
    }
  }

  lemma NoLeases(active: set<Lease>)
    requires active != {}
    ensures |active| > 0
  {
  }
}
