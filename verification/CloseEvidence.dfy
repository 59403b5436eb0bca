/** What the checkpoints of one close attempt say: no more than the components answered in
    that attempt. */
module CloseEvidence {
  import opened Wrappers
  import opened CloseLedger
  import opened CloseProtocol
  import opened CloseInvariant
  import opened CloseTheorems
  import opened CloseProgress

  /** A checkpoint written while the components gave these answers. */
  predicate SaysAnswers(r: Receipt, session: Session, answers: Answers) {
    && r.session == session
    && match r.step
       case EodReconciled =>
         answers.eod.Some? && r.evidence == EodEvidence(answers.eod.value.id, answers.eod.value.snapshot)
       case DataValidated => answers.data.Some? && r.evidence == DataEvidence(answers.data.value)
       case DecisionCommitted => r.evidence.DecisionEvidence? && r.evidence.decision.session == session
       case ReportPublished =>
         && answers.report.Some? && answers.reportMatches
         && r.evidence.ReportEvidence? && r.evidence.report == answers.report.value
       case BackupVerified =>
         answers.backup.Some? && r.evidence.BackupEvidence? && r.evidence.backup == answers.backup.value
       case Completed => r.evidence.CompletedEvidence?
  }

  /** Every checkpoint that is new says what was answered. */
  ghost predicate NewSay(w: World, v: World, session: Session, answers: Answers) {
    forall r :: r in v.receipts && r !in w.receipts ==> SaysAnswers(r, session, answers)
  }

  lemma SayChain(u: World, v: World, w: World, session: Session, answers: Answers)
    requires NewSay(u, v, session, answers) && NewSay(v, w, session, answers)
    ensures NewSay(u, w, session, answers)
  {
    hide SaysAnswers;
  }

  lemma AppendSays(w: World, session: Session, step: Step, evidence: Evidence, answers: Answers)
    requires SaysAnswers(Receipt(session, step, evidence), session, answers)
    ensures NewSay(w, Append(w, session, step, evidence).0, session, answers)
  {
    hide SaysAnswers, AppendCheck;
  }

  lemma EodSays(w: World, session: Session, answers: Answers)
    ensures NewSay(w, EodStage(w, session, answers).0, session, answers)
  {
    hide Load, Append, Reconcile;
    ReconcileAddsNone(w, answers.eod);
    var (reconciled, flow) := Reconcile(w, answers.eod);
    if flow.Go? {
      AppendSays(reconciled, session, EodReconciled, EodEvidence(flow.value.id, flow.value.snapshot), answers);
    }
  }

  lemma DataSays(w: World, session: Session, answers: Answers)
    ensures NewSay(w, DataStage(w, session, answers).0, session, answers)
  {
    hide Load, Append;
    if answers.data.Some? {
      AppendSays(w, session, DataValidated, DataEvidence(answers.data.value), answers);
    }
  }

  lemma DecisionSays(w: World, session: Session, answers: Answers, eodIsNew: bool)
    ensures NewSay(w, DecisionStage(w, session, answers, eodIsNew).0, session, answers)
  {
    hide Load, Append, Reconcile, PostCloseDecision, ForSession;
    ReconcileAddsNone(w, answers.again);
    var ready := if eodIsNew then w else Reconcile(w, answers.again).0;
    PostCloseAddsNone(ready, session, answers);
    var decided := PostCloseDecision(ready, session, answers).0;
    var found := ForSession(decided.decisions, session);
    if |found| == 1 {
      assert found[0] in found;
      AppendSays(decided, session, DecisionCommitted, DecisionEvidence(found[0]), answers);
    }
  }

  lemma ReportSays(w: World, session: Session, answers: Answers, d: Decision)
    ensures NewSay(w, ReportStage(w, session, answers, d).0, session, answers)
  {
    hide Load, Append;
    if answers.report.Some? && answers.reportMatches {
      AppendSays(w, session, ReportPublished, ReportEvidence(answers.report.value, d), answers);
    }
  }

  lemma CompleteSays(
    w: World, session: Session, answers: Answers, eod: Evidence, data: Evidence, count: nat, d: Decision,
    report: Evidence
  )
    ensures NewSay(w, CompleteRun(w, session, answers, eod, data, count, d, report).0, session, answers)
  {
    hide Load, Append;
    if answers.backup.Some? {
      AppendSays(w, session, BackupVerified, BackupEvidence(answers.backup.value, d), answers);
    }
    var (backed, flow) := BackupStage(w, session, answers, d);
    if flow.Go? && report.ReportEvidence? && flow.value.BackupEvidence? && eod.EodEvidence? && data.DataEvidence? {
      AppendSays(backed, session, Completed,
        CompletedEvidence(d, report.report, flow.value.backup, eod.reconciliation, data.manifest), answers);
      SayChain(w, backed, CompleteRun(w, session, answers, eod, data, count, d, report).0, session, answers);
    }
  }

  lemma FinishSays(
    w: World, session: Session, answers: Answers, eod: Evidence, data: Evidence, count: nat, d: Decision
  )
    ensures NewSay(w, FinishRun(w, session, answers, eod, data, count, d).0, session, answers)
  {
    hide ReportStage, CompleteRun, SaysAnswers;
    ReportSays(w, session, answers, d);
    var (reported, flow) := ReportStage(w, session, answers, d);
    if flow.Go? {
      CompleteSays(reported, session, answers, eod, data, count, d, flow.value);
    }
  }

  lemma DecideSays(w: World, session: Session, answers: Answers, eodIsNew: bool, eod: Evidence)
    ensures NewSay(w, DecideRun(w, session, answers, eodIsNew, eod).0, session, answers)
  {
    hide Load, DataStage, DecisionStage, FinishRun, SaysAnswers;
    DataSays(w, session, answers);
    var (validated, flow) := DataStage(w, session, answers);
    if flow.Go? {
      DecisionSays(validated, session, answers, eodIsNew);
      var (decided, flow2) := DecisionStage(validated, session, answers, eodIsNew);
      if flow2.Go? && flow2.value.1.DecisionEvidence? {
        FinishSays(decided, session, answers, eod, flow.value, flow2.value.0, flow2.value.1.decision);
      }
    }
  }

  /** Wherever an attempt ends, every checkpoint it wrote is of its session and carries what
      was answered in that attempt; a report is on record only if it named the decision. */
  lemma AttemptSaysAnswers(w: World, session: Session, answers: Answers)
    ensures NewSay(w, CloseRun(w, session, answers).0, session, answers)
  {
    hide Load, EodStage, DecideRun, SaysAnswers;
    EodSays(w, session, answers);
    var (reconciled, flow) := EodStage(w, session, answers);
    if flow.Go? {
      DecideSays(reconciled, session, answers, Load(w.receipts, session, EodReconciled).None?, flow.value);
    }
  }

  /** The answer a step needs if an earlier attempt did not record it. */
  predicate Answered(step: Step, answers: Answers) {
    match step
    case EodReconciled => answers.eod.Some?
    case DataValidated => answers.data.Some?
    case DecisionCommitted => true
    case ReportPublished => answers.report.Some? && answers.reportMatches
    case BackupVerified => answers.backup.Some?
    case Completed => true
  }

  /** An attempt completes only if every step was on record before or was answered, and
      answered to match: a report about another decision stops the close. */
  lemma CompletesOnlyAnswered(w: World, session: Session, answers: Answers, step: Step)
    requires Inv(w) && CloseRun(w, session, answers).1.Go?
    ensures Load(w.receipts, session, step).Some? || Answered(step, answers)
    ensures Load(CloseRun(w, session, answers).0.receipts, session, step).Some?
  {
    hide Load, CloseRun, Ordered, Evidenced, Moved, Recorded, ForSession;
    var v := CloseRun(w, session, answers).0;
    CloseRunKeeps(w, session, answers);
    AttemptSaysAnswers(w, session, answers);
    CompletedRepeatsEvidence(v, session);
    var e := Load(v.receipts, session, step).value;
    var r := Receipt(session, step, e);
    assert r in v.receipts;
    if Load(w.receipts, session, step).None? {
      assert r !in w.receipts;
    }
  }

  /** An attempt whose report does not match writes no report checkpoint, and neither backs up
      nor completes a session that had none. */
  lemma MismatchStopsClose(w: World, session: Session, answers: Answers)
    requires Inv(w) && Load(w.receipts, session, ReportPublished).None? && !answers.reportMatches
    ensures var (v, flow) := CloseRun(w, session, answers);
      && !flow.Go?
      && Load(v.receipts, session, ReportPublished).None?
      && Load(v.receipts, session, BackupVerified).None? && Load(v.receipts, session, Completed).None?
  {
    hide Load, CloseRun, Evidenced, Moved, Recorded, ForSession;
    var (v, flow) := CloseRun(w, session, answers);
    CloseRunKeeps(w, session, answers);
    AttemptSaysAnswers(w, session, answers);
    if flow.Go? {
      CompletesOnlyAnswered(w, session, answers, ReportPublished);
    }
    forall e: Evidence ensures Receipt(session, ReportPublished, e) !in v.receipts {
      assert Receipt(session, ReportPublished, e) !in w.receipts;
    }
    NoLaterStep(v.receipts, session);
  }

  lemma NoLaterStep(receipts: seq<Receipt>, session: Session)
    requires Ordered(receipts) && forall e: Evidence :: Receipt(session, ReportPublished, e) !in receipts
    ensures Load(receipts, session, ReportPublished).None?
    ensures Load(receipts, session, BackupVerified).None? && Load(receipts, session, Completed).None?
  {
    hide Load, Ordered;
    if Load(receipts, session, BackupVerified).Some? {
      StepsArePrefix(receipts, session, BackupVerified);
    }
    if Load(receipts, session, Completed).Some? {
      StepsArePrefix(receipts, session, Completed);
    }
  }
}
