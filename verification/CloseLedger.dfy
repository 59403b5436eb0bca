/** The ledger of close-session checkpoints. A digest of evidence is modelled by the
    evidence itself, and a decision's id by the decision. */
module CloseLedger {
  import opened Wrappers

  type Session = int

  type Digest = string

  datatype Step =
    | EodReconciled | DataValidated | DecisionCommitted | ReportPublished | BackupVerified | Completed

  function Index(s: Step): (i: nat)
    ensures i < 6
  {
    match s
    case EodReconciled => 0
    case DataValidated => 1
    case DecisionCommitted => 2
    case ReportPublished => 3
    case BackupVerified => 4
    case Completed => 5
  }

  const STEP_ORDER: seq<Step> :=
    [EodReconciled, DataValidated, DecisionCommitted, ReportPublished, BackupVerified, Completed]

  /** An immutable strategy decision: the account hash it starts from and leads to. */
  datatype Decision = Decision(session: Session, before: Digest, after: Digest, payload: Digest)

  datatype Evidence =
    | EodEvidence(reconciliation: Digest, snapshot: Digest)
    | DataEvidence(manifest: Digest)
    | DecisionEvidence(decision: Decision)
    | ReportEvidence(report: Digest, reportDecision: Decision)
    | BackupEvidence(backup: Digest, backupDecision: Decision)
    | CompletedEvidence(
        closeDecision: Decision, closeReport: Digest, closeBackup: Digest,
        closeReconciliation: Digest, closeManifest: Digest)

  datatype Receipt = Receipt(session: Session, step: Step, evidence: Evidence)

  function Load(receipts: seq<Receipt>, session: Session, step: Step): (found: Option<Evidence>)
    ensures found.Some? ==> Receipt(session, step, found.value) in receipts
    ensures found.None? ==> forall e :: Receipt(session, step, e) !in receipts
  {
    if receipts == [] then None
    else if receipts[0].session == session && receipts[0].step == step then Some(receipts[0].evidence)
    else Load(receipts[1..], session, step)
  }

  lemma {:induction false} LoadSnoc(receipts: seq<Receipt>, r: Receipt, session: Session, step: Step)
    ensures Load(receipts + [r], session, step)
         == if Load(receipts, session, step).Some? then Load(receipts, session, step)
            else if r.session == session && r.step == step then Some(r.evidence) else None
  {
    if receipts == [] {
      assert Load([r][1..], session, step) == None;
    } else {
      assert (receipts + [r])[1..] == receipts[1..] + [r];
      LoadSnoc(receipts[1..], r, session, step);
    }
  }

  /** All steps before this one are on record. */
  predicate Preceded(receipts: seq<Receipt>, session: Session, step: Step) {
    forall s: Step :: Index(s) < Index(step) ==> Load(receipts, session, s).Some?
  }

  datatype CloseError =
    | PredecessorMissing
    | CheckpointConflict
    | CheckpointInvalid
    | ReconciliationFailed
    | DataUpdateFailed
    | MultipleDecisions
    | AccountContradiction
    | CommittedOtherwise
    | RecoveryRefused
    | RecoveryMismatch
    | DecisionFailed
    | DecisionNotUnique
    | ReportFailed
    | ReportIdentityMismatch
    | BackupFailed

  /** What appending evidence comes to, before anything is written. */
  datatype Appending = Fresh | Already | Refused(error: CloseError)

  function AppendCheck(receipts: seq<Receipt>, session: Session, step: Step, evidence: Evidence): Appending {
    var existing := Load(receipts, session, step);
    if !Preceded(receipts, session, step) then Refused(PredecessorMissing)
    else if existing.None? then Fresh
    else if existing.value == evidence then Already
    else Refused(CheckpointConflict)
  }

  // ------------------------------------------------------------- what stays in order

  /** No two receipts for one step, and no step before its predecessors. */
  predicate Ordered(receipts: seq<Receipt>) {
    receipts == []
    || (var init, last := receipts[..|receipts| - 1], receipts[|receipts| - 1];
        Ordered(init)
        && Preceded(init, last.session, last.step) && Load(init, last.session, last.step).None?)
  }

  lemma OrderedSnoc(receipts: seq<Receipt>, r: Receipt)
    requires Ordered(receipts) && AppendCheck(receipts, r.session, r.step, r.evidence).Fresh?
    ensures Ordered(receipts + [r])
  {
    assert (receipts + [r])[..|receipts|] == receipts;
  }

  /** The steps on record of a session are always an initial part of the step order. */
  lemma {:induction false} StepsArePrefix(receipts: seq<Receipt>, session: Session, step: Step)
    requires Ordered(receipts) && Load(receipts, session, step).Some?
    ensures Preceded(receipts, session, step)
  {
    hide Load;
    var init, last := receipts[..|receipts| - 1], receipts[|receipts| - 1];
    assert receipts == init + [last];
    assert receipts != [] by { LoadEmpty(session, step); }
    LoadSnoc(init, last, session, step);
    if Load(init, session, step).Some? {
      StepsArePrefix(init, session, step);
    }
    forall s: Step | Index(s) < Index(step) ensures Load(receipts, session, s).Some? {
      LoadSnoc(init, last, session, s);
    }
  }

  lemma LoadEmpty(session: Session, step: Step)
    ensures Load([], session, step).None?
  {
  }

  /** What is on record is never replaced. */
  lemma {:induction false} LoadLasts(earlier: seq<Receipt>, later: seq<Receipt>, session: Session, step: Step)
    requires earlier <= later && Load(earlier, session, step).Some?
    ensures Load(later, session, step) == Load(earlier, session, step)
    decreases |later|
  {
    if later != earlier {
      var init, last := later[..|later| - 1], later[|later| - 1];
      assert later == init + [last];
      LoadLasts(earlier, init, session, step);
      LoadSnoc(init, last, session, step);
    }
  }

  // ------------------------------------------------------------- incomplete sessions

  predicate Observed(receipts: seq<Receipt>, session: Session) {
    exists r :: r in receipts && r.session == session
  }

  predicate Incomplete(receipts: seq<Receipt>, session: Session) {
    Observed(receipts, session)
    && Load(receipts, session, Completed).None?
  }
}
