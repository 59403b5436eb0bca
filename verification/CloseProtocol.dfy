/** The close of one session as a sequence of durable writes, any of which may be the last
    one before the process dies. What other components answer is an input of the run. */
module CloseProtocol {
  import opened Wrappers
  import opened CloseLedger

  datatype Cause = Sync | Commit(decision: Decision) | Store(stored: Decision)

  /** One write of the account file, by what and between which hashes; storing a decision
      is noted among them and leaves the account where it is. */
  datatype Move = Move(cause: Cause, before: Digest, after: Digest)

  datatype Audit = DecisionAudit(decision: Decision) | RecoveryAudit(decision: Decision)

  /** The durable state, and the writes the process has left to live. `moves` is history. */
  datatype World = World(
    receipts: seq<Receipt>,
    decisions: seq<Decision>,
    account: Digest,
    moves: seq<Move>,
    reconciliations: seq<Digest>,
    audits: set<Audit>,
    left: nat)

  type Closing<+T> = Flow<T, CloseError>

  /** A passed reconciliation, the account hash its broker sync leads to, and whether what
      a sync committed is then found to be what was reviewed. */
  datatype Reconciled = Reconciled(id: Digest, snapshot: Digest, account: Digest, asReviewed: bool)

  /** What recomputing a stored decision comes to: the same one, an exception, or another
      one, which is found out only after the account was written. */
  datatype Recovery = Recovers | Refuses | Differs

  datatype Decided = Decided(after: Digest, payload: Digest)

  /** The answers of reconciler, data updater, strategy, reporter and backup in one run;
      None where they raise. `reportMatches` tells whether the report names the decision
      on record. */
  datatype Answers = Answers(
    eod: Option<Reconciled>,
    data: Option<Digest>,
    again: Option<Reconciled>,
    decided: Option<Decided>,
    recovery: Recovery,
    report: Option<Digest>,
    reportMatches: bool,
    backup: Option<Digest>)

  function ForSession(decisions: seq<Decision>, session: Session): (found: seq<Decision>)
    ensures forall d :: d in found <==> d in decisions && d.session == session
  {
    if decisions == [] then []
    else
      var init := ForSession(decisions[..|decisions| - 1], session);
      var last := decisions[|decisions| - 1];
      assert decisions == decisions[..|decisions| - 1] + [last];
      if last.session == session then init + [last] else init
  }

  function Append(w: World, session: Session, step: Step, evidence: Evidence): (World, Closing<Evidence>) {
    match AppendCheck(w.receipts, session, step, evidence)
    case Refused(error) => (w, Raise(error))
    case Already => (w, Go(evidence))
    case Fresh =>
      if w.left == 0 then (w, Die)
      else
        (w.(receipts := w.receipts + [Receipt(session, step, evidence)], left := w.left - 1),
         Go(evidence))
  }

  /** The account file is replaced. */
  function MoveAccount(w: World, cause: Cause, after: Digest): (World, Closing<()>) {
    if w.left == 0 then (w, Die)
    else
      (w.(account := after, moves := w.moves + [Move(cause, w.account, after)], left := w.left - 1),
       Go(()))
  }

  /** A reconciliation syncs the account to the broker where they differ, then is recorded;
      a sync is compared with its review last of all. */
  function Reconcile(w: World, answer: Option<Reconciled>): (World, Closing<Reconciled>) {
    if answer.None? then (w, Raise(ReconciliationFailed))
    else
      var (synced, flow) :=
        if answer.value.account == w.account then (w, Go(()))
        else MoveAccount(w, Sync, answer.value.account);
      if flow.Die? || synced.left == 0 then (synced, Die)
      else
        (synced.(reconciliations := synced.reconciliations + [answer.value.id],
                 left := synced.left - 1),
         if answer.value.account != w.account && !answer.value.asReviewed then Raise(CommittedOtherwise)
         else Go(answer.value))
  }

  function AuditOnce(w: World, audit: Audit): (World, Closing<()>) {
    if audit in w.audits then (w, Go(()))
    else if w.left == 0 then (w, Die)
    else (w.(audits := w.audits + {audit}, left := w.left - 1), Go(()))
  }

  /** A decision is on record but its account write may be missing: redo only that. */
  function RecoverDecision(w: World, d: Decision, recovery: Recovery): (World, Closing<nat>) {
    if w.account == d.after then (w, Go(0))
    else if w.account != d.before then (w, Raise(AccountContradiction))
    else if recovery.Refuses? then (w, Raise(RecoveryRefused))
    else
      var (moved, flow) := MoveAccount(w, Commit(d), d.after);
      if flow.Die? then (moved, Die)
      else if recovery.Differs? then (moved, Raise(RecoveryMismatch))
      else
        var (audited, end) := AuditOnce(moved, RecoveryAudit(d));
        (audited, if end.Die? then Die else Go(0))
  }

  /** A new decision is stored before the account it was computed for is replaced. */
  function CommitDecision(w: World, session: Session, answer: Option<Decided>): (World, Closing<nat>) {
    if answer.None? then (w, Raise(DecisionFailed))
    else if w.left == 0 then (w, Die)
    else
      var d := Decision(session, w.account, answer.value.after, answer.value.payload);
      var stored := w.(decisions := w.decisions + [d],
                       moves := w.moves + [Move(Store(d), w.account, w.account)],
                       left := w.left - 1);
      var (moved, flow) := MoveAccount(stored, Commit(d), d.after);
      if flow.Die? then (moved, Die)
      else
        var (audited, end) := AuditOnce(moved, DecisionAudit(d));
        (audited, if end.Die? then Die else Go(1))
  }

  function PostCloseDecision(w: World, session: Session, answers: Answers): (World, Closing<nat>) {
    var existing := ForSession(w.decisions, session);
    if |existing| > 1 then (w, Raise(MultipleDecisions))
    else if |existing| == 1 then RecoverDecision(w, existing[0], answers.recovery)
    else CommitDecision(w, session, answers.decided)
  }

  function EodStage(w: World, session: Session, answers: Answers): (World, Closing<Evidence>) {
    var known := Load(w.receipts, session, EodReconciled);
    if known.Some? then (w, Go(known.value))
    else
      var (reconciled, flow) := Reconcile(w, answers.eod);
      match flow
      case Die => (reconciled, Die)
      case Raise(error) => (reconciled, Raise(error))
      case Go(r) => Append(reconciled, session, EodReconciled, EodEvidence(r.id, r.snapshot))
  }

  function DataStage(w: World, session: Session, answers: Answers): (World, Closing<Evidence>) {
    var known := Load(w.receipts, session, DataValidated);
    if known.Some? then (w, Go(known.value))
    else if answers.data.None? then (w, Raise(DataUpdateFailed))
    else Append(w, session, DataValidated, DataEvidence(answers.data.value))
  }

  /** The number of decisions made in this run, and the decision on record. */
  function DecisionStage(
    w: World, session: Session, answers: Answers, eodIsNew: bool
  ): (World, Closing<(nat, Evidence)>) {
    var known := Load(w.receipts, session, DecisionCommitted);
    if known.Some? then (w, Go((0, known.value)))
    else
      var (ready, flow) :=
        if eodIsNew then (w, Go(Reconciled("", "", w.account, true))) else Reconcile(w, answers.again);
      match flow
      case Die => (ready, Die)
      case Raise(error) => (ready, Raise(error))
      case Go(_) => DecideAndRecord(ready, session, answers)
  }

  function DecideAndRecord(w: World, session: Session, answers: Answers): (World, Closing<(nat, Evidence)>) {
    var (decided, flow) := PostCloseDecision(w, session, answers);
    match flow
    case Die => (decided, Die)
    case Raise(error) => (decided, Raise(error))
    case Go(count) =>
      var found := ForSession(decided.decisions, session);
      if |found| != 1 then (decided, Raise(DecisionNotUnique))
      else
        var (recorded, end) :=
          Append(decided, session, DecisionCommitted, DecisionEvidence(found[0]));
        match end
        case Die => (recorded, Die)
        case Raise(error) => (recorded, Raise(error))
        case Go(evidence) => (recorded, Go((count, evidence)))
  }

  function ReportStage(w: World, session: Session, answers: Answers, d: Decision): (World, Closing<Evidence>) {
    var known := Load(w.receipts, session, ReportPublished);
    if known.Some? then (w, Go(known.value))
    else if answers.report.None? then (w, Raise(ReportFailed))
    else if !answers.reportMatches then (w, Raise(ReportIdentityMismatch))
    else Append(w, session, ReportPublished, ReportEvidence(answers.report.value, d))
  }

  function BackupStage(w: World, session: Session, answers: Answers, d: Decision): (World, Closing<Evidence>) {
    var known := Load(w.receipts, session, BackupVerified);
    if known.Some? then (w, Go(known.value))
    else if answers.backup.None? then (w, Raise(BackupFailed))
    else Append(w, session, BackupVerified, BackupEvidence(answers.backup.value, d))
  }

  /** Everything after the decision is on record. */
  function FinishRun(
    w: World, session: Session, answers: Answers, eod: Evidence, data: Evidence, count: nat, d: Decision
  ): (World, Closing<(nat, nat)>) {
    var (reported, flow) := ReportStage(w, session, answers, d);
    match flow
    case Die => (reported, Die)
    case Raise(error) => (reported, Raise(error))
    case Go(report) => CompleteRun(reported, session, answers, eod, data, count, d, report)
  }

  function CompleteRun(
    w: World, session: Session, answers: Answers, eod: Evidence, data: Evidence, count: nat, d: Decision,
    report: Evidence
  ): (World, Closing<(nat, nat)>) {
    var (backed, flow) := BackupStage(w, session, answers, d);
    match flow
    case Die => (backed, Die)
    case Raise(error) => (backed, Raise(error))
    case Go(backup) =>
      if !report.ReportEvidence? || !backup.BackupEvidence? || !eod.EodEvidence? || !data.DataEvidence? then
        (backed, Raise(CheckpointInvalid))
      else
        var (done, end) := Append(backed, session, Completed,
          CompletedEvidence(d, report.report, backup.backup, eod.reconciliation, data.manifest));
        (done,
         match end
         case Die => Die
         case Raise(error) => Raise(error)
         case Go(_) => Go((count, 1)))
  }

  function DecideRun(
    w: World, session: Session, answers: Answers, eodIsNew: bool, eod: Evidence
  ): (World, Closing<(nat, nat)>) {
    var (validated, flow) := DataStage(w, session, answers);
    match flow
    case Die => (validated, Die)
    case Raise(error) => (validated, Raise(error))
    case Go(data) =>
      if Load(validated.receipts, session, DecisionCommitted).None?
         && (!eod.EodEvidence? || !data.DataEvidence?) then
        (validated, Raise(CheckpointInvalid))
      else
        var (decided, flow2) := DecisionStage(validated, session, answers, eodIsNew);
        match flow2
        case Die => (decided, Die)
        case Raise(error) => (decided, Raise(error))
        case Go(result) =>
          if !result.1.DecisionEvidence? then (decided, Raise(CheckpointInvalid))
          else FinishRun(decided, session, answers, eod, data, result.0, result.1.decision)
  }

  /** One attempt to close a session: decisions made and closes completed in this run. */
  function CloseRun(w: World, session: Session, answers: Answers): (World, Closing<(nat, nat)>) {
    if Load(w.receipts, session, Completed).Some? then (w, Go((0, 0)))
    else
      var eodIsNew := Load(w.receipts, session, EodReconciled).None?;
      var (reconciled, flow) := EodStage(w, session, answers);
      match flow
      case Die => (reconciled, Die)
      case Raise(error) => (reconciled, Raise(error))
      case Go(eod) => DecideRun(reconciled, session, answers, eodIsNew, eod)
  }
}
