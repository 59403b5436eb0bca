/** The control commands as sequences of durable transactions, any of which may be the
    last before the process dies. Commands run one at a time under the writer lease. */
module ControlProtocol {
  import opened Wrappers
  import opened ControlFacts
  import opened RuntimeStates

  type Lease = string

  const KILL_SWITCH := "KILL_SWITCH"

  datatype RiskCode = Tripped | Reset

  /** Ids of trip and reset rows: an executor's are derived from the request, an
      operator's are drawn at random. */
  datatype RiskId = OfRequest(request: RequestId) | Drawn(nonce: string)

  datatype RiskRow = RiskRow(id: RiskId, code: RiskCode, at: Time)

  datatype AuditId =
    | OfTransition(revision: nat)
    | OfHaltRevocation(revokedAt: nat)
    | OfCommand(command: Command, request: RequestId)
    | OfOperator(nonce: string)

  /** What is durable, and the transactions the process has left to live. `active` are the
      arm leases not revoked. */
  datatype Db = Db(
    status: Status, active: set<Lease>, risk: seq<RiskRow>, audits: seq<AuditId>, left: nat)

  datatype ControlError =
    | Illegal
    | Stopping
    | NotHalted
    | NotConfirmed
    | NotReady
    | KillSwitchTripped
    | PreconditionFailed
    | ReconciliationFailed

  /** A command under way: the state so far, and how it ended, if it has. */
  datatype Progress = Progress(db: Db, end: Option<Flow<(), ControlError>>)

  predicate Running(p: Progress) { p.end.None? }

  function Begin(db: Db): Progress { Progress(db, None) }

  function Deny(p: Progress, error: ControlError): Progress {
    if Running(p) then Progress(p.db, Some(Raise(error))) else p
  }

  function Finish(p: Progress): Progress {
    if Running(p) then Progress(p.db, Some(Go(()))) else p
  }

  /** One transaction turning the durable state into `next`, unless the process dies first. */
  function Write(p: Progress, next: Db): Progress {
    if !Running(p) then p
    else if p.db.left == 0 then Progress(p.db, Some(Die))
    else Progress(next.(left := p.db.left - 1), None)
  }

  function Revoke(p: Progress): Progress { Write(p, p.db.(active := {})) }

  /** The runtime row, its audit, and on entering HALTED the revocation of every lease. */
  function Saved(db: Db, next: Status): Db {
    var swept := if next.state.Halted? && db.active != {} then [OfHaltRevocation(next.revision)] else [];
    db.(status := next,
        active := if next.state.Halted? then {} else db.active,
        audits := db.audits + swept + [OfTransition(next.revision)])
  }

  function MoveTo(p: Progress, target: RuntimeState, reason: string, blockers: set<string>): Progress {
    var next := Transition(p.db.status, target, reason, blockers);
    if !Running(p) then p
    else if next.Err? then Deny(p, Illegal)
    else if next.value == p.db.status then p
    else Write(p, Saved(p.db, next.value))
  }

  function MoveFrom(
    p: Progress, source: RuntimeState, target: RuntimeState, reason: string, blockers: set<string>
  ): Progress {
    if p.db.status.state == source then MoveTo(p, target, reason, blockers) else p
  }

  predicate HasRow(risk: seq<RiskRow>, id: RiskId) {
    exists r :: r in risk && r.id == id
  }

  /** A trip row for a request is written once. */
  function TripOnce(p: Progress, request: RequestId, now: Time): Progress {
    if HasRow(p.db.risk, OfRequest(request)) then p
    else Write(p, p.db.(risk := p.db.risk + [RiskRow(OfRequest(request), Tripped, now)]))
  }

  function AuditOnce(p: Progress, audit: AuditId): Progress {
    if audit in p.db.audits then p else Write(p, p.db.(audits := p.db.audits + [audit]))
  }

  // ------------------------------------------------------------------ the executor

  function Halt(db: Db, request: RequestId, now: Time): Progress {
    var p1 := Revoke(Begin(db));
    var p2 := MoveFrom(p1, RuntimeState.Stopping, Disarmed, "stop completed before emergency halt", {});
    var p3 := MoveFrom(p2, Disarmed, Starting, "local emergency halt control", {});
    var p4 := MoveTo(p3, Halted, "local emergency halt", p3.db.status.blockers + {KILL_SWITCH});
    var p5 := TripOnce(p4, request, now);
    Finish(AuditOnce(p5, OfCommand(HaltCommand, request)))
  }

  function OnlyKillSwitch(blockers: set<string>): set<string> {
    if KILL_SWITCH in blockers then {KILL_SWITCH} else {}
  }

  function Disarm(db: Db, request: RequestId): Progress {
    var p1 := Revoke(Begin(db));
    var p2 :=
      if p1.db.status.state.Disarmed? || p1.db.status.state.Stopping? then p1
      else MoveTo(p1, RuntimeState.Stopping, "local disarm requested", p1.db.status.blockers);
    var p3 := MoveFrom(p2, RuntimeState.Stopping, Disarmed, "local disarm completed",
                       OnlyKillSwitch(p2.db.status.blockers));
    Finish(AuditOnce(p3, OfCommand(DisarmCommand, request)))
  }

  function Stop(db: Db, request: RequestId): Progress {
    var p1 := Revoke(Begin(db));
    var p2 := MoveFrom(p1, Disarmed, Starting, "local stop control", {});
    var p3 :=
      if p2.db.status.state.Stopping? then p2
      else MoveTo(p2, RuntimeState.Stopping, "local stop requested", p2.db.status.blockers);
    Finish(AuditOnce(p3, OfCommand(StopCommand, request)))
  }

  /** Cancelling the system's orders is the broker's doing; here it only leaves its audit. */
  function Cancel(db: Db, request: RequestId): Progress {
    Finish(AuditOnce(Begin(db), OfCommand(CancelCommand, request)))
  }

  function Execute(db: Db, command: Command, request: RequestId, now: Time): Progress {
    match command
    case HaltCommand => Halt(db, request, now)
    case DisarmCommand => Disarm(db, request)
    case CancelCommand => Cancel(db, request)
    case StopCommand => Stop(db, request)
  }

  function FinalizeStop(db: Db): Progress {
    Finish(MoveFrom(Begin(db), RuntimeState.Stopping, Disarmed, "production stop completed",
                    OnlyKillSwitch(db.status.blockers)))
  }

  // ------------------------------------------------------------------ the operator

  /** The latest trip or reset row: by time, and among equals by insertion. */
  function Latest(risk: seq<RiskRow>): Option<RiskRow> {
    if risk == [] then None
    else
      var before, last := Latest(risk[..|risk| - 1]), risk[|risk| - 1];
      if before.Some? && before.value.at > last.at then before else Some(last)
  }

  function TrippedNow(db: Db): bool {
    var row := Latest(db.risk);
    if row.Some? then row.value.code.Tripped? else KILL_SWITCH in db.status.blockers
  }

  /** A risk row and its audit, in one transaction. */
  function RiskAndAudit(p: Progress, code: RiskCode, nonce: string, now: Time): Progress {
    Write(p, p.db.(risk := p.db.risk + [RiskRow(Drawn(nonce), code, now)],
                   audits := p.db.audits + [OfOperator(nonce + ":audit")]))
  }

  function OperatorAudit(p: Progress, nonce: string): Progress {
    Write(p, p.db.(audits := p.db.audits + [OfOperator(nonce)]))
  }

  function TransitionHalted(p: Progress, reason: string, blockers: set<string>): Progress {
    var p1 := MoveFrom(p, RuntimeState.Stopping, Disarmed, "operator stop completed before halt", {});
    var p2 := MoveFrom(p1, Disarmed, Starting, "operator emergency control started", {});
    MoveTo(p2, Halted, reason, blockers)
  }

  function OperatorHalt(db: Db, nonce: string, now: Time): Progress {
    var p1 := Revoke(Begin(db));
    var p2 := TransitionHalted(p1, "operator kill switch", db.status.blockers + {KILL_SWITCH});
    Finish(RiskAndAudit(p2, Tripped, nonce, now))
  }

  function OperatorDisarm(db: Db, nonce: string): Progress {
    var p1 := Revoke(Begin(db));
    var p2 :=
      if db.status.state.Disarmed? || db.status.state.Stopping? then p1
      else MoveTo(p1, RuntimeState.Stopping, "operator disarm requested", db.status.blockers);
    var p3 := MoveFrom(p2, RuntimeState.Stopping, Disarmed, "operator disarmed",
                       if TrippedNow(db) then {KILL_SWITCH} else {});
    Finish(OperatorAudit(p3, nonce))
  }

  /** What the reconciler answers: its blockers and whether it passed, or an exception. */
  datatype Reconciliation = Answered(passed: bool, blockers: set<string>) | Raised

  function Resume(
    db: Db, confirmed: bool, answer: Reconciliation, nonce: string, resetNonce: string, now: Time
  ): Progress {
    var kill := TrippedNow(db);
    var noted := if kill then {KILL_SWITCH} else {};
    if !confirmed then Deny(Begin(db), NotConfirmed)
    else if !db.status.state.Halted? then Deny(Begin(db), NotHalted)
    else
      var p1 := Write(Begin(db), db.(active := {}, audits := db.audits + [OfOperator(nonce)]));
      var p2 := MoveTo(p1, Reconciling, "explicit resume reconciliation", {});
      if answer.Raised? then
        Deny(TransitionHalted(p2, "resume reconciliation raised an exception",
                              {"RECONCILIATION_EXCEPTION"} + noted), ReconciliationFailed)
      else if !answer.passed then
        Deny(TransitionHalted(p2, "resume reconciliation did not pass", answer.blockers + noted),
             ReconciliationFailed)
      else
        var p3 := if kill then RiskAndAudit(p2, Reset, resetNonce, now) else OperatorAudit(p2, resetNonce);
        Finish(MoveTo(p3, Ready, "resume reconciliation passed", {}))
  }

  function Reconcile(db: Db, answer: Reconciliation): Progress {
    var kill, wasHalted := TrippedNow(db), db.status.state.Halted?;
    var p0 := Begin(db);
    if db.status.state.Stopping? then Deny(p0, ControlError.Stopping)
    else
      var p1 := MoveFrom(p0, Disarmed, Starting, "manual reconciliation requested", {});
      var p2 :=
        if p1.db.status.state.Reconciling? then p1
        else MoveTo(p1, Reconciling, "manual reconciliation running", {});
      if answer.Raised? then
        Deny(TransitionHalted(p2, "manual reconciliation raised an exception",
                              {"RECONCILIATION_EXCEPTION"}), ReconciliationFailed)
      else if !answer.passed || kill || wasHalted then
        Finish(TransitionHalted(p2, "manual reconciliation requires explicit resume",
          answer.blockers + (if kill then {KILL_SWITCH} else {})
          + (if wasHalted then {"EXPLICIT_RESUME_REQUIRED"} else {})))
      else Finish(MoveTo(p2, Ready, "manual reconciliation passed", {}))
  }

  /** `others` stands for every further gate: terminal, mode, reconciliation receipt,
      readiness evidence, open orders, secret and confirmation. */
  function Arm(db: Db, others: bool, lease: Lease, nonce: string): Progress {
    var p := Begin(db);
    if !db.status.state.Ready? then Deny(p, NotReady)
    else if TrippedNow(db) then Deny(p, KillSwitchTripped)
    else if !others then Deny(p, PreconditionFailed)
    else Finish(Write(p, db.(active := {lease}, audits := db.audits + [OfOperator(nonce)])))
  }

  /** The services' own transitions, for any reason of theirs. */
  function ServiceMove(db: Db, target: RuntimeState, reason: string, blockers: set<string>): Progress {
    Finish(MoveTo(Begin(db), target, reason, blockers))
  }

  /** Live execution needs some lease that is not revoked. */
  predicate LeaseLoaded(db: Db) { db.active != {} }
}
