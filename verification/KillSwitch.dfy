/** Kill-switch safety over every interleaving of commands, with a crash possible after
    any transaction of any of them. */
module KillSwitch {
  import opened Wrappers
  import opened ControlFacts
  import opened RuntimeStates
  import opened ControlProtocol
  import ControlConvergence

  /** Rows in the order of their times, none after `clock`. */
  predicate Dated(risk: seq<RiskRow>, clock: Time) {
    risk == []
    || (risk[|risk| - 1].at <= clock && Dated(risk[..|risk| - 1], risk[|risk| - 1].at))
  }

  predicate TrippedByRow(risk: seq<RiskRow>) {
    Latest(risk).Some? && Latest(risk).value.code.Tripped?
  }

  function Revision(id: AuditId): int {
    match id
    case OfTransition(r) => r
    case OfHaltRevocation(r) => r
    case _ => -1
  }

  /** No revision is audited before it is reached, nor twice. */
  predicate Numbered(audits: seq<AuditId>, revision: nat) {
    audits == []
    || (var init, last := audits[..|audits| - 1], audits[|audits| - 1];
        Numbered(init, revision) && Revision(last) <= revision && (Revision(last) >= 0 ==> last !in init))
  }

  ghost predicate Safe(db: Db, clock: Time) {
    && Dated(db.risk, clock)
    && Numbered(db.audits, db.status.revision)
    && (TrippedByRow(db.risk) ==> db.active == {})
  }

  /** At most one row a command, and a reset only from a confirmed resume whose
      reconciliation passed, out of a tripped halt. */
  predicate AddsRow(before: seq<RiskRow>, after: seq<RiskRow>, resets: bool) {
    || after == before
    || (|after| == |before| + 1 && before <= after && (after[|before|].code.Reset? ==> resets))
  }

  /** With times in order the latest row is simply the last one. */
  lemma {:induction false} LatestIsLast(risk: seq<RiskRow>, clock: Time)
    requires Dated(risk, clock)
    ensures Latest(risk) == if risk == [] then None else Some(risk[|risk| - 1])
  {
    if risk != [] {
      LatestIsLast(risk[..|risk| - 1], risk[|risk| - 1].at);
      if |risk| > 1 {
        assert risk[..|risk| - 1][|risk| - 2] == risk[|risk| - 2];
      }
    }
  }

  lemma RowIsLatest(risk: seq<RiskRow>, row: RiskRow, clock: Time)
    requires Dated(risk, clock) && clock <= row.at
    ensures Dated(risk + [row], row.at) && Latest(risk + [row]) == Some(row)
  {
    var longer := risk + [row];
    assert longer[..|risk|] == risk;
    DatedLater(risk, clock, row.at);
    LatestIsLast(longer, row.at);
  }

  lemma {:induction false} DatedLater(risk: seq<RiskRow>, clock: Time, later: Time)
    requires Dated(risk, clock) && clock <= later
    ensures Dated(risk, later)
  {
  }

  lemma {:induction false} NumberedLater(audits: seq<AuditId>, revision: nat, later: nat)
    requires Numbered(audits, revision) && revision <= later
    ensures Numbered(audits, later)
    ensures forall id :: id in audits ==> Revision(id) <= revision
  {
    if audits != [] {
      NumberedLater(audits[..|audits| - 1], revision, later);
      assert audits == audits[..|audits| - 1] + [audits[|audits| - 1]];
    }
  }

  lemma NumberedSnoc(audits: seq<AuditId>, revision: nat, id: AuditId)
    requires Numbered(audits, revision) && Revision(id) <= revision
    requires Revision(id) >= 0 ==> id !in audits
    ensures Numbered(audits + [id], revision)
  {
    assert (audits + [id])[..|audits|] == audits;
  }

  /** The rows a saved status adds are numbered by its new revision. */
  lemma SavedIsNumbered(db: Db, next: Status)
    requires Numbered(db.audits, db.status.revision) && next.revision == db.status.revision + 1
    ensures Numbered(Saved(db, next).audits, next.revision)
  {
    var r, audits := next.revision, db.audits;
    NumberedLater(audits, db.status.revision, r);
    NumberedSnoc(audits, r, OfTransition(r));
    NumberedSnoc(audits, r, OfHaltRevocation(r));
    NumberedSnoc(audits + [OfHaltRevocation(r)], r, OfTransition(r));
    hide Numbered;
    assert audits + [] == audits;
  }

  lemma MoveIsSafe(p: Progress, clock: Time, target: RuntimeState, reason: string, blockers: set<string>)
    requires Safe(p.db, clock)
    ensures var q := MoveTo(p, target, reason, blockers);
      && Safe(q.db, clock) && q.db.risk == p.db.risk && q.db.active <= p.db.active
      && (!Running(p) ==> q == p)
  {
    hide Dated, Latest, Numbered;
    var next := Transition(p.db.status, target, reason, blockers);
    if next.Ok? && next.value != p.db.status {
      SavedIsNumbered(p.db, next.value);
    }
  }

  lemma RevokeIsSafe(db: Db, clock: Time)
    requires Safe(db, clock)
    ensures var q := Revoke(Begin(db));
      && Safe(q.db, clock) && q.db.risk == db.risk && (Running(q) ==> q.db.active == {})
  {
    hide Dated, Latest, Numbered;
  }

  lemma AuditIsSafe(p: Progress, clock: Time, id: AuditId)
    requires Safe(p.db, clock) && Revision(id) < 0
    ensures Safe(AuditOnce(p, id).db, clock) && AuditOnce(p, id).db.risk == p.db.risk
    ensures var q := Write(p, p.db.(audits := p.db.audits + [id]));
      Safe(q.db, clock) && q.db.risk == p.db.risk
  {
    NumberedSnoc(p.db.audits, p.db.status.revision, id);
    hide Dated, Latest, Numbered;
  }

  lemma TripIsSafe(p: Progress, clock: Time, request: RequestId, now: Time)
    requires Safe(p.db, clock) && clock <= now && (Running(p) ==> p.db.active == {})
    ensures Safe(TripOnce(p, request, now).db, now)
    ensures AddsRow(p.db.risk, TripOnce(p, request, now).db.risk, false)
  {
    DatedLater(p.db.risk, clock, now);
    RowIsLatest(p.db.risk, RiskRow(OfRequest(request), Tripped, now), clock);
    hide Dated, Latest, Numbered, HasRow;
  }

  lemma RowIsSafe(p: Progress, clock: Time, code: RiskCode, nonce: string, now: Time)
    requires Safe(p.db, clock) && clock <= now
    requires code.Tripped? && Running(p) ==> p.db.active == {}
    ensures Safe(RiskAndAudit(p, code, nonce, now).db, now)
    ensures AddsRow(p.db.risk, RiskAndAudit(p, code, nonce, now).db.risk, code.Reset?)
  {
    DatedLater(p.db.risk, clock, now);
    RowIsLatest(p.db.risk, RiskRow(Drawn(nonce), code, now), clock);
    NumberedSnoc(p.db.audits, p.db.status.revision, OfOperator(nonce + ":audit"));
    hide Dated, Latest, Numbered;
  }

  lemma HaltedIsSafe(p: Progress, clock: Time, reason: string, blockers: set<string>)
    requires Safe(p.db, clock)
    ensures var q := TransitionHalted(p, reason, blockers);
      && Safe(q.db, clock) && q.db.risk == p.db.risk && q.db.active <= p.db.active
      && (!Running(p) ==> q == p)
  {
    hide Safe, MoveTo;
    MoveIsSafe(p, clock, Disarmed, "operator stop completed before halt", {});
    var p1 := MoveFrom(p, RuntimeState.Stopping, Disarmed, "operator stop completed before halt", {});
    MoveIsSafe(p1, clock, Starting, "operator emergency control started", {});
    var p2 := MoveFrom(p1, Disarmed, Starting, "operator emergency control started", {});
    MoveIsSafe(p2, clock, Halted, reason, blockers);
  }

  // ------------------------------------------------------------ command after command

  lemma HaltIsSafe(db: Db, clock: Time, request: RequestId, now: Time)
    requires Safe(db, clock) && clock <= now
    ensures Safe(Halt(db, request, now).db, now)
    ensures AddsRow(db.risk, Halt(db, request, now).db.risk, false)
  {
    hide Safe, MoveTo, TripOnce, AuditOnce;
    RevokeIsSafe(db, clock);
    var p1 := Revoke(Begin(db));
    MoveIsSafe(p1, clock, Disarmed, "stop completed before emergency halt", {});
    var p2 := MoveFrom(p1, RuntimeState.Stopping, Disarmed, "stop completed before emergency halt", {});
    MoveIsSafe(p2, clock, Starting, "local emergency halt control", {});
    var p3 := MoveFrom(p2, Disarmed, Starting, "local emergency halt control", {});
    MoveIsSafe(p3, clock, Halted, "local emergency halt", p3.db.status.blockers + {KILL_SWITCH});
    var p4 := MoveTo(p3, Halted, "local emergency halt", p3.db.status.blockers + {KILL_SWITCH});
    TripIsSafe(p4, clock, request, now);
    AuditIsSafe(TripOnce(p4, request, now), now, OfCommand(HaltCommand, request));
  }

  lemma DisarmIsSafe(db: Db, clock: Time, request: RequestId)
    requires Safe(db, clock)
    ensures Safe(Disarm(db, request).db, clock)
    ensures AddsRow(db.risk, Disarm(db, request).db.risk, false)
  {
    hide Safe, MoveTo, AuditOnce;
    RevokeIsSafe(db, clock);
    var p1 := Revoke(Begin(db));
    MoveIsSafe(p1, clock, RuntimeState.Stopping, "local disarm requested", p1.db.status.blockers);
    var p2 :=
      if p1.db.status.state.Disarmed? || p1.db.status.state.Stopping? then p1
      else MoveTo(p1, RuntimeState.Stopping, "local disarm requested", p1.db.status.blockers);
    var kept := OnlyKillSwitch(p2.db.status.blockers);
    MoveIsSafe(p2, clock, Disarmed, "local disarm completed", kept);
    AuditIsSafe(MoveFrom(p2, RuntimeState.Stopping, Disarmed, "local disarm completed", kept), clock,
                OfCommand(DisarmCommand, request));
  }

  lemma StopIsSafe(db: Db, clock: Time, request: RequestId)
    requires Safe(db, clock)
    ensures Safe(Stop(db, request).db, clock)
    ensures AddsRow(db.risk, Stop(db, request).db.risk, false)
  {
    hide Safe, MoveTo, AuditOnce;
    RevokeIsSafe(db, clock);
    var p1 := Revoke(Begin(db));
    MoveIsSafe(p1, clock, Starting, "local stop control", {});
    var p2 := MoveFrom(p1, Disarmed, Starting, "local stop control", {});
    MoveIsSafe(p2, clock, RuntimeState.Stopping, "local stop requested", p2.db.status.blockers);
    var p3 :=
      if p2.db.status.state.Stopping? then p2
      else MoveTo(p2, RuntimeState.Stopping, "local stop requested", p2.db.status.blockers);
    AuditIsSafe(p3, clock, OfCommand(StopCommand, request));
  }

  lemma OperatorHaltIsSafe(db: Db, clock: Time, nonce: string, now: Time)
    requires Safe(db, clock) && clock <= now
    ensures Safe(OperatorHalt(db, nonce, now).db, now)
    ensures AddsRow(db.risk, OperatorHalt(db, nonce, now).db.risk, false)
  {
    hide Safe, TransitionHalted, RiskAndAudit;
    RevokeIsSafe(db, clock);
    var p1 := Revoke(Begin(db));
    HaltedIsSafe(p1, clock, "operator kill switch", db.status.blockers + {KILL_SWITCH});
    RowIsSafe(TransitionHalted(p1, "operator kill switch", db.status.blockers + {KILL_SWITCH}), clock,
              Tripped, nonce, now);
  }

  lemma OperatorDisarmIsSafe(db: Db, clock: Time, nonce: string)
    requires Safe(db, clock)
    ensures Safe(OperatorDisarm(db, nonce).db, clock)
    ensures AddsRow(db.risk, OperatorDisarm(db, nonce).db.risk, false)
  {
    hide Safe, MoveTo, Write;
    RevokeIsSafe(db, clock);
    var p1 := Revoke(Begin(db));
    MoveIsSafe(p1, clock, RuntimeState.Stopping, "operator disarm requested", db.status.blockers);
    var p2 :=
      if db.status.state.Disarmed? || db.status.state.Stopping? then p1
      else MoveTo(p1, RuntimeState.Stopping, "operator disarm requested", db.status.blockers);
    var kept := if TrippedNow(db) then {KILL_SWITCH} else {};
    MoveIsSafe(p2, clock, Disarmed, "operator disarmed", kept);
    AuditIsSafe(MoveFrom(p2, RuntimeState.Stopping, Disarmed, "operator disarmed", kept), clock,
                OfOperator(nonce));
  }

  lemma ResumeIsSafe(
    db: Db, clock: Time, confirmed: bool, answer: Reconciliation, nonce: string, resetNonce: string, now: Time
  )
    requires Safe(db, clock) && clock <= now
    ensures Safe(Resume(db, confirmed, answer, nonce, resetNonce, now).db, now)
    ensures AddsRow(db.risk, Resume(db, confirmed, answer, nonce, resetNonce, now).db.risk,
      confirmed && answer.Answered? && answer.passed && db.status.state.Halted? && TrippedNow(db))
  {
    hide Safe, MoveTo, TransitionHalted, RiskAndAudit, Write, TrippedNow;
    SafeLater(db, clock, now);
    SweepIsSafe(db, now, nonce);
    var noted := if TrippedNow(db) then {KILL_SWITCH} else {};
    var p1 := Write(Begin(db), db.(active := {}, audits := db.audits + [OfOperator(nonce)]));
    MoveIsSafe(p1, now, Reconciling, "explicit resume reconciliation", {});
    var p2 := MoveTo(p1, Reconciling, "explicit resume reconciliation", {});
    HaltedIsSafe(p2, now, "resume reconciliation raised an exception", {"RECONCILIATION_EXCEPTION"} + noted);
    if answer.Answered? {
      HaltedIsSafe(p2, now, "resume reconciliation did not pass", answer.blockers + noted);
    }
    RowIsSafe(p2, now, Reset, resetNonce, now);
    AuditIsSafe(p2, now, OfOperator(resetNonce));
    var p3 := if TrippedNow(db) then RiskAndAudit(p2, Reset, resetNonce, now) else OperatorAudit(p2, resetNonce);
    MoveIsSafe(p3, now, Ready, "resume reconciliation passed", {});
  }

  lemma SafeLater(db: Db, clock: Time, now: Time)
    requires Safe(db, clock) && clock <= now
    ensures Safe(db, now)
  {
    DatedLater(db.risk, clock, now);
    hide Dated, Latest, Numbered;
  }

  lemma SweepIsSafe(db: Db, clock: Time, nonce: string)
    requires Safe(db, clock)
    ensures var q := Write(Begin(db), db.(active := {}, audits := db.audits + [OfOperator(nonce)]));
      Safe(q.db, clock) && q.db.risk == db.risk
  {
    NumberedSnoc(db.audits, db.status.revision, OfOperator(nonce));
    hide Dated, Latest, Numbered;
  }

  lemma ReconcileIsSafe(db: Db, clock: Time, answer: Reconciliation)
    requires Safe(db, clock)
    ensures Safe(Reconcile(db, answer).db, clock)
    ensures AddsRow(db.risk, Reconcile(db, answer).db.risk, false)
  {
    hide Safe, MoveTo, TransitionHalted;
    var p0 := Begin(db);
    MoveIsSafe(p0, clock, Starting, "manual reconciliation requested", {});
    var p1 := MoveFrom(p0, Disarmed, Starting, "manual reconciliation requested", {});
    MoveIsSafe(p1, clock, Reconciling, "manual reconciliation running", {});
    var p2 :=
      if p1.db.status.state.Reconciling? then p1
      else MoveTo(p1, Reconciling, "manual reconciliation running", {});
    HaltedIsSafe(p2, clock, "manual reconciliation raised an exception", {"RECONCILIATION_EXCEPTION"});
    if answer.Answered? {
      HaltedIsSafe(p2, clock, "manual reconciliation requires explicit resume",
        answer.blockers + (if TrippedNow(db) then {KILL_SWITCH} else {})
        + (if db.status.state.Halted? then {"EXPLICIT_RESUME_REQUIRED"} else {}));
    }
    MoveIsSafe(p2, clock, Ready, "manual reconciliation passed", {});
  }

  lemma ArmIsSafe(db: Db, clock: Time, others: bool, lease: Lease, nonce: string)
    requires Safe(db, clock)
    ensures Safe(Arm(db, others, lease, nonce).db, clock)
    ensures AddsRow(db.risk, Arm(db, others, lease, nonce).db.risk, false)
  {
    NumberedSnoc(db.audits, db.status.revision, OfOperator(nonce));
    hide Dated, Latest, Numbered;
  }

  // ---------------------------------------------------------------------- whole runs

  datatype Op =
    | Requested(command: Command, request: RequestId)
    | Finalize
    | ByHalt(nonce: string)
    | ByDisarm(nonce: string)
    | ByResume(confirmed: bool, answer: Reconciliation, nonce: string, resetNonce: string)
    | ByReconcile(answer: Reconciliation)
    | ByArm(others: bool, lease: Lease, nonce: string)
    | ByService(target: RuntimeState, reason: string, blockers: set<string>)

  predicate PassedResume(op: Op) {
    op.ByResume? && op.confirmed && op.answer.Answered? && op.answer.passed
  }

  function Perform(db: Db, op: Op, now: Time): Progress {
    match op
    case Requested(command, request) => Execute(db, command, request, now)
    case Finalize => FinalizeStop(db)
    case ByHalt(nonce) => OperatorHalt(db, nonce, now)
    case ByDisarm(nonce) => OperatorDisarm(db, nonce)
    case ByResume(confirmed, answer, nonce, resetNonce) =>
      Resume(db, confirmed, answer, nonce, resetNonce, now)
    case ByReconcile(answer) => Reconcile(db, answer)
    case ByArm(others, lease, nonce) => Arm(db, others, lease, nonce)
    case ByService(target, reason, blockers) => ServiceMove(db, target, reason, blockers)
  }

  lemma PerformIsSafe(db: Db, clock: Time, op: Op, now: Time)
    requires Safe(db, clock) && clock <= now
    ensures Safe(Perform(db, op, now).db, now)
    ensures AddsRow(db.risk, Perform(db, op, now).db.risk, PassedResume(op))
  {
    hide Safe, Halt, Disarm, Stop, OperatorHalt, OperatorDisarm, Resume, Reconcile, Arm, MoveTo;
    SafeLater(db, clock, now);
    match op
    case Requested(command, request) =>
      match command {
        case HaltCommand => HaltIsSafe(db, clock, request, now);
        case DisarmCommand => DisarmIsSafe(db, now, request);
        case CancelCommand => AuditIsSafe(Begin(db), now, OfCommand(CancelCommand, request));
        case StopCommand => StopIsSafe(db, now, request);
      }
    case Finalize =>
      MoveIsSafe(Begin(db), now, Disarmed, "production stop completed", OnlyKillSwitch(db.status.blockers));
    case ByHalt(nonce) => OperatorHaltIsSafe(db, clock, nonce, now);
    case ByDisarm(nonce) => OperatorDisarmIsSafe(db, now, nonce);
    case ByResume(confirmed, answer, nonce, resetNonce) =>
      ResumeIsSafe(db, clock, confirmed, answer, nonce, resetNonce, now);
    case ByReconcile(answer) => ReconcileIsSafe(db, now, answer);
    case ByArm(others, lease, nonce) => ArmIsSafe(db, now, others, lease, nonce);
    case ByService(target, reason, blockers) => MoveIsSafe(Begin(db), now, target, reason, blockers);
  }

  /** A command given a while after the last one, to a process that lives for so many
      transactions. */
  datatype Turn = Turn(op: Op, left: nat, wait: nat)

  function TakeTurn(db: Db, clock: Time, turn: Turn): Db {
    Perform(db.(left := turn.left), turn.op, clock + turn.wait).db
  }

  function Clock(start: Time, turns: seq<Turn>): (now: Time)
    ensures now >= start
  {
    if turns == [] then start
    else Clock(start, turns[..|turns| - 1]) + turns[|turns| - 1].wait
  }

  /** The durable state after a run of commands. */
  function Play(db: Db, clock: Time, turns: seq<Turn>): Db {
    if turns == [] then db
    else
      var init := turns[..|turns| - 1];
      TakeTurn(Play(db, clock, init), Clock(clock, init), turns[|turns| - 1])
  }

  lemma TurnIsSafe(db: Db, clock: Time, turn: Turn)
    requires Safe(db, clock)
    ensures Safe(TakeTurn(db, clock, turn), clock + turn.wait)
    ensures AddsRow(db.risk, TakeTurn(db, clock, turn).risk, PassedResume(turn.op))
  {
    hide Dated, Latest, Numbered, Perform;
    PerformIsSafe(db.(left := turn.left), clock, turn.op, clock + turn.wait);
  }

  lemma {:induction false} PlayIsSafe(db: Db, clock: Time, turns: seq<Turn>)
    requires Safe(db, clock)
    ensures Safe(Play(db, clock, turns), Clock(clock, turns))
  {
    hide Safe, TakeTurn;
    if turns != [] {
      var init := turns[..|turns| - 1];
      PlayIsSafe(db, clock, init);
      TurnIsSafe(Play(db, clock, init), Clock(clock, init), turns[|turns| - 1]);
    }
  }

  /** The table of rows only grows. */
  lemma {:induction false} RowsLast(db: Db, clock: Time, turns: seq<Turn>)
    requires Safe(db, clock)
    ensures db.risk <= Play(db, clock, turns).risk
  {
    hide TakeTurn, Safe;
    if turns != [] {
      var init := turns[..|turns| - 1];
      RowsLast(db, clock, init);
      PlayIsSafe(db, clock, init);
      TurnIsSafe(Play(db, clock, init), Clock(clock, init), turns[|turns| - 1]);
    }
  }

  /** Kill-switch safety. Take any run from a state whose last trip or reset row is a trip:
      whenever a lease is alive later on, a reset row has been written after that trip, by
      a confirmed resume of the run whose reconciliation passed. Until then no lease can
      be issued, and so none is loaded for live execution. */
  lemma {:induction false} NoLeaseUntilPassedResume(db: Db, clock: Time, turns: seq<Turn>)
    requires Safe(db, clock) && TrippedByRow(db.risk)
    ensures LeaseLoaded(Play(db, clock, turns)) ==> exists i :: 0 <= i < |turns| && PassedResume(turns[i].op)
    ensures var risk := Play(db, clock, turns).risk;
      || TrippedByRow(risk)
      || ((exists i :: 0 <= i < |turns| && PassedResume(turns[i].op))
          && exists k :: |db.risk| <= k < |risk| && risk[k].code.Reset?)
  {
    hide Dated, Numbered, TakeTurn, Latest;
    PlayIsSafe(db, clock, turns);
    RowsLast(db, clock, turns);
    if turns != [] {
      var init, last := turns[..|turns| - 1], turns[|turns| - 1];
      NoLeaseUntilPassedResume(db, clock, init);
      PlayIsSafe(db, clock, init);
      RowsLast(db, clock, init);
      var before, after := Play(db, clock, init), Play(db, clock, turns);
      TurnIsSafe(before, Clock(clock, init), last);
      LatestIsLast(after.risk, Clock(clock, turns));
      if !TrippedByRow(before.risk) {
        var i :| 0 <= i < |init| && PassedResume(init[i].op);
        var k :| |db.risk| <= k < |before.risk| && before.risk[k].code.Reset?;
        assert PassedResume(turns[i].op);
        assert after.risk[k].code.Reset?;
      } else if !TrippedByRow(after.risk) {
        assert PassedResume(turns[|turns| - 1].op);
        assert after.risk[|before.risk|].code.Reset?;
      }
    }
  }

  // ------------------------------------------------------------- exact conditions

  /** A lease comes to life only by an arm command, in a ready runtime whose kill switch is
      not tripped. */
  lemma LeaseOnlyByArm(db: Db, op: Op, now: Time)
    ensures var after := Perform(db, op, now).db;
      !(after.active <= db.active) ==>
        op.ByArm? && op.others && db.status.state.Ready? && !TrippedNow(db) && after.active == {op.lease}
  {
    hide MoveTo, HasRow, Latest, TrippedNow;
    forall p: Progress, target, reason, blockers
      ensures MoveTo(p, target, reason, blockers).db.active <= p.db.active
    {
      MoveIssuesNone(p, target, reason, blockers);
    }
    hide Disarm, Stop, Halt, OperatorHalt, OperatorDisarm, Resume, Reconcile;
    match op
    case Requested(command, request) => ExecuteIssuesNone(db, command, request, now);
    case ByHalt(nonce) => HaltIssuesNone(db, nonce, now);
    case ByDisarm(nonce) => DisarmIssuesNone(db, nonce);
    case ByResume(confirmed, answer, nonce, resetNonce) =>
      ResumeIssuesNone(db, confirmed, answer, nonce, resetNonce, now);
    case ByReconcile(answer) => ReconcileIssuesNone(db, answer);
    case _ =>
  }

  lemma MoveIssuesNone(p: Progress, target: RuntimeState, reason: string, blockers: set<string>)
    ensures MoveTo(p, target, reason, blockers).db.active <= p.db.active
    ensures MoveTo(p, target, reason, blockers).db.risk == p.db.risk
  {
  }

  lemma HaltedIssuesNone(p: Progress, reason: string, blockers: set<string>)
    ensures TransitionHalted(p, reason, blockers).db.active <= p.db.active
  {
    hide MoveTo;
    MoveIssuesNone(p, Disarmed, "operator stop completed before halt", {});
    var p1 := MoveFrom(p, RuntimeState.Stopping, Disarmed, "operator stop completed before halt", {});
    MoveIssuesNone(p1, Starting, "operator emergency control started", {});
    var p2 := MoveFrom(p1, Disarmed, Starting, "operator emergency control started", {});
    MoveIssuesNone(p2, Halted, reason, blockers);
  }

  lemma ExecuteIssuesNone(db: Db, command: Command, request: RequestId, now: Time)
    ensures Execute(db, command, request, now).db.active <= db.active
  {
    hide ControlConvergence.OnTheWay, Execute;
    ControlConvergence.EveryAttempt(db, command, request, now);
  }

  lemma HaltIssuesNone(db: Db, nonce: string, now: Time)
    ensures OperatorHalt(db, nonce, now).db.active <= db.active
  {
    hide TransitionHalted;
    HaltedIssuesNone(Revoke(Begin(db)), "operator kill switch", db.status.blockers + {KILL_SWITCH});
  }

  lemma DisarmIssuesNone(db: Db, nonce: string)
    ensures OperatorDisarm(db, nonce).db.active <= db.active
  {
    hide MoveTo, TrippedNow;
    var p1 := Revoke(Begin(db));
    MoveIssuesNone(p1, RuntimeState.Stopping, "operator disarm requested", db.status.blockers);
    var p2 :=
      if db.status.state.Disarmed? || db.status.state.Stopping? then p1
      else MoveTo(p1, RuntimeState.Stopping, "operator disarm requested", db.status.blockers);
    MoveIssuesNone(p2, Disarmed, "operator disarmed", if TrippedNow(db) then {KILL_SWITCH} else {});
  }

  lemma ResumeIssuesNone(
    db: Db, confirmed: bool, answer: Reconciliation, nonce: string, resetNonce: string, now: Time
  )
    ensures Resume(db, confirmed, answer, nonce, resetNonce, now).db.active <= db.active
  {
    hide MoveTo, TransitionHalted, TrippedNow;
    var noted := if TrippedNow(db) then {KILL_SWITCH} else {};
    var p1 := Write(Begin(db), db.(active := {}, audits := db.audits + [OfOperator(nonce)]));
    MoveIssuesNone(p1, Reconciling, "explicit resume reconciliation", {});
    var p2 := MoveTo(p1, Reconciling, "explicit resume reconciliation", {});
    HaltedIssuesNone(p2, "resume reconciliation raised an exception", {"RECONCILIATION_EXCEPTION"} + noted);
    if answer.Answered? {
      HaltedIssuesNone(p2, "resume reconciliation did not pass", answer.blockers + noted);
    }
    var p3 := if TrippedNow(db) then RiskAndAudit(p2, Reset, resetNonce, now) else OperatorAudit(p2, resetNonce);
    MoveIssuesNone(p3, Ready, "resume reconciliation passed", {});
  }

  lemma ReconcileIssuesNone(db: Db, answer: Reconciliation)
    ensures Reconcile(db, answer).db.active <= db.active
  {
    hide MoveTo, TransitionHalted, TrippedNow;
    var p0 := Begin(db);
    MoveIssuesNone(p0, Starting, "manual reconciliation requested", {});
    var p1 := MoveFrom(p0, Disarmed, Starting, "manual reconciliation requested", {});
    MoveIssuesNone(p1, Reconciling, "manual reconciliation running", {});
    var p2 :=
      if p1.db.status.state.Reconciling? then p1
      else MoveTo(p1, Reconciling, "manual reconciliation running", {});
    HaltedIssuesNone(p2, "manual reconciliation raised an exception", {"RECONCILIATION_EXCEPTION"});
    if answer.Answered? {
      HaltedIssuesNone(p2, "manual reconciliation requires explicit resume",
        answer.blockers + (if TrippedNow(db) then {KILL_SWITCH} else {})
        + (if db.status.state.Halted? then {"EXPLICIT_RESUME_REQUIRED"} else {}));
    }
    MoveIssuesNone(p2, Ready, "manual reconciliation passed", {});
  }

  /** A halt that lives to its end writes its trip row once. */
  lemma HaltWrites(db: Db, request: RequestId, now: Time)
    requires db.left >= 6
    ensures Halt(db, request, now).db.risk
         == if HasRow(db.risk, OfRequest(request)) then db.risk
            else db.risk + [RiskRow(OfRequest(request), Tripped, now)]
  {
    hide MoveTo, HasRow;
    ControlConvergence.EveryAttempt(db, HaltCommand, request, now);
    hide ControlConvergence.OnTheWay;
    var p1 := Revoke(Begin(db));
    MoveIssuesNone(p1, Disarmed, "stop completed before emergency halt", {});
    var p2 := MoveFrom(p1, RuntimeState.Stopping, Disarmed, "stop completed before emergency halt", {});
    MoveIssuesNone(p2, Starting, "local emergency halt control", {});
    var p3 := MoveFrom(p2, Disarmed, Starting, "local emergency halt control", {});
    MoveIssuesNone(p3, Halted, "local emergency halt", p3.db.status.blockers + {KILL_SWITCH});
  }

  /** Without ordered times a halt need not read back: exactly when its trip row counts.
      A halt delivered again after it wrote its row, and after a reset, does not trip. */
  lemma HaltTrips(db: Db, request: RequestId, now: Time)
    requires db.left >= 6
    ensures TrippedByRow(Halt(db, request, now).db.risk) <==>
      || TrippedByRow(db.risk)
      || (!HasRow(db.risk, OfRequest(request))
          && (Latest(db.risk).None? || Latest(db.risk).value.at <= now))
  {
    hide Halt, HasRow, Latest;
    HaltWrites(db, request, now);
    LatestSnoc(db.risk, RiskRow(OfRequest(request), Tripped, now));
  }

  lemma LatestSnoc(risk: seq<RiskRow>, row: RiskRow)
    ensures Latest(risk + [row])
         == if Latest(risk).Some? && Latest(risk).value.at > row.at then Latest(risk) else Some(row)
  {
    assert (risk + [row])[..|risk|] == risk;
  }

  /** A trip known only by the status's blocker does not outlive a reconciliation that dies
      after its first transaction; one with a row does. */
  lemma ReconcileForgetsBlocker(db: Db, answer: Reconciliation)
    requires db.status.state.Halted? && db.left == 1
    ensures TrippedNow(Reconcile(db, answer).db) <==> TrippedByRow(db.risk)
  {
  }
}
