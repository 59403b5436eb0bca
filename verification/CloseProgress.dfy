/** When a close attempt gets through: an exact condition. */
module CloseProgress {
  import opened Wrappers
  import opened CloseLedger
  import opened CloseProtocol
  import opened CloseInvariant
  import opened CloseTheorems

  /** Nobody raises in this run. */
  predicate Willing(answers: Answers) {
    && answers.eod.Some? && answers.eod.value.asReviewed
    && answers.again.Some? && answers.again.value.asReviewed
    && answers.data.Some? && answers.decided.Some? && answers.recovery.Recovers?
    && answers.report.Some? && answers.reportMatches && answers.backup.Some?
  }

  /** The account the decision stage will find. */
  function AccountAtDecision(w: World, session: Session, answers: Answers): Digest
    requires Willing(answers)
  {
    if Load(w.receipts, session, EodReconciled).None? then answers.eod.value.account
    else answers.again.value.account
  }

  /** A reconciliation that comes to its end from this account. */
  predicate Agrees(answer: Option<Reconciled>, account: Digest) {
    answer.Some? && (answer.value.account == account || answer.value.asReviewed)
  }

  lemma ReconcileGoes(w: World, answer: Option<Reconciled>)
    requires w.left >= 2
    ensures var (v, flow) := Reconcile(w, answer);
      && (flow.Go? <==> Agrees(answer, w.account)) && !flow.Die?
      && (flow.Go? ==> flow == Go(answer.value) && v.account == answer.value.account)
      && v.left >= w.left - 2 && v.receipts == w.receipts && v.decisions == w.decisions
  {
  }

  lemma EodGoes(w: World, session: Session, answers: Answers)
    requires w.left >= 3
    ensures var (v, flow) := EodStage(w, session, answers);
      var known := Load(w.receipts, session, EodReconciled);
      && (known.Some? ==> v == w && flow.Go?)
      && (known.None? ==> (flow.Go? <==> Agrees(answers.eod, w.account)))
      && (known.None? && flow.Go? ==> v.account == answers.eod.value.account)
      && v.left >= w.left - 3 && v.decisions == w.decisions
      && (forall step: Step :: step != EodReconciled ==>
            Load(v.receipts, session, step) == Load(w.receipts, session, step))
  {
    hide Load, Reconcile;
    ReconcileGoes(w, answers.eod);
    if answers.eod.Some? {
      var r := answers.eod.value;
      OthersStay(w.receipts, Receipt(session, EodReconciled, EodEvidence(r.id, r.snapshot)));
    }
  }

  lemma OthersStay(receipts: seq<Receipt>, r: Receipt)
    ensures forall step: Step :: step != r.step ==>
      Load(receipts + [r], r.session, step) == Load(receipts, r.session, step)
  {
    hide Load;
    forall step: Step
      ensures step != r.step ==> Load(receipts + [r], r.session, step) == Load(receipts, r.session, step)
    {
      LoadSnoc(receipts, r, r.session, step);
    }
  }

  lemma DataGoes(w: World, session: Session, answers: Answers)
    requires w.left >= 1 && Load(w.receipts, session, EodReconciled).Some?
    ensures var (v, flow) := DataStage(w, session, answers);
      && (flow.Go? <==> Load(w.receipts, session, DataValidated).Some? || answers.data.Some?)
      && v.left >= w.left - 1 && v.decisions == w.decisions && v.account == w.account
      && (forall step: Step :: step != DataValidated ==>
            Load(v.receipts, session, step) == Load(w.receipts, session, step))
  {
    hide Load;
    if answers.data.Some? {
      OthersStay(w.receipts, Receipt(session, DataValidated, DataEvidence(answers.data.value)));
    }
  }

  /** A stored decision passes only while the account is where it starts or leads. */
  predicate Passes(decisions: seq<Decision>, session: Session, account: Digest) {
    forall d :: d in ForSession(decisions, session) ==> account == d.before || account == d.after
  }

  /** The decision can be made, or its account write redone, from this account. */
  predicate Decides(decisions: seq<Decision>, session: Session, account: Digest, answers: Answers) {
    && (ForSession(decisions, session) == [] ==> answers.decided.Some?)
    && forall d :: d in ForSession(decisions, session) ==>
         account == d.after || (account == d.before && answers.recovery.Recovers?)
  }

  lemma PostCloseGoes(w: World, session: Session, answers: Answers)
    requires Unique(w.decisions) && w.left >= 3
    ensures var (v, flow) := PostCloseDecision(w, session, answers);
      && (flow.Go? <==> Decides(w.decisions, session, w.account, answers))
      && (flow.Go? ==> v.left >= w.left - 3)
  {
    hide ForSession;
    var existing := ForSession(w.decisions, session);
    assert |existing| == 1 ==> existing[0] in existing;
  }

  lemma DecisionGoes(w: World, session: Session, answers: Answers, eodIsNew: bool)
    requires Inv(w) && Preceded(w.receipts, session, DecisionCommitted)
    requires w.left >= if eodIsNew then 4 else 6
    ensures var (v, flow) := DecisionStage(w, session, answers, eodIsNew);
      && (flow.Go? <==>
            || Load(w.receipts, session, DecisionCommitted).Some?
            || (eodIsNew && Decides(w.decisions, session, w.account, answers))
            || (!eodIsNew && Agrees(answers.again, w.account)
                && Decides(w.decisions, session, answers.again.value.account, answers)))
      && (flow.Go? ==> v.left >= w.left - (if eodIsNew then 4 else 6))
  {
    hide Load, ForSession, Decides, Reconcile, PostCloseDecision, Preceded, Ordered, Evidenced, Moved, Recorded;
    DecisionKeeps(w, session, answers, eodIsNew);
    if Load(w.receipts, session, DecisionCommitted).None? {
      ReconcileGoes(w, answers.again);
      ReconcileKeeps(w, answers.again);
      if eodIsNew || Agrees(answers.again, w.account) {
        var ready := if eodIsNew then w else Reconcile(w, answers.again).0;
        PostCloseGoes(ready, session, answers);
        PostCloseKeeps(ready, session, answers);
      }
    }
  }

  lemma FinishGoes(
    w: World, session: Session, answers: Answers, eod: Evidence, data: Evidence, count: nat, d: Decision
  )
    requires Inv(w) && DecidedOn(w.receipts, session, eod, data, d) && w.left >= 3
    requires Load(w.receipts, session, Completed).None?
    ensures FinishRun(w, session, answers, eod, data, count, d).1.Go? <==>
      && (Load(w.receipts, session, ReportPublished).Some? || (answers.report.Some? && answers.reportMatches))
      && (Load(w.receipts, session, BackupVerified).Some? || answers.backup.Some?)
  {
    hide Inv, Load, Append;
    FinishKeeps(w, session, answers, eod, data, count, d);
    ReportKeeps(w, session, answers, d);
    ReportGoes(w, session, answers, d);
    var (reported, flow) := ReportStage(w, session, answers, d);
    if flow.Go? {
      DecidedLasts(w.receipts, reported.receipts, session, eod, data, d);
      BackupKeeps(reported, session, answers, d);
      BackupGoes(reported, session, answers, d);
      var (backed, flow2) := BackupStage(reported, session, answers, d);
      if flow2.Go? {
        DecidedLasts(reported.receipts, backed.receipts, session, eod, data, d);
        LoadLasts(reported.receipts, backed.receipts, session, ReportPublished);
        StagesLeaveOpen(w, session, answers, d);
        var evidence :=
          CompletedEvidence(d, flow.value.report, flow2.value.backup, eod.reconciliation, data.manifest);
        StageGoes(backed, session, Completed, evidence);
      }
    }
  }

  lemma ReportGoes(w: World, session: Session, answers: Answers, d: Decision)
    requires Preceded(w.receipts, session, ReportPublished) && w.left >= 1
    ensures var (v, flow) := ReportStage(w, session, answers, d);
      && (flow.Go? <==>
            Load(w.receipts, session, ReportPublished).Some? || (answers.report.Some? && answers.reportMatches))
      && v.left >= w.left - 1
      && Load(v.receipts, session, BackupVerified) == Load(w.receipts, session, BackupVerified)
  {
    hide Load;
    if answers.report.Some? {
      OthersStay(w.receipts, Receipt(session, ReportPublished, ReportEvidence(answers.report.value, d)));
    }
  }

  lemma BackupGoes(w: World, session: Session, answers: Answers, d: Decision)
    requires Preceded(w.receipts, session, BackupVerified) && w.left >= 1
    ensures var (v, flow) := BackupStage(w, session, answers, d);
      && (flow.Go? <==> Load(w.receipts, session, BackupVerified).Some? || answers.backup.Some?)
      && v.left >= w.left - 1
  {
    hide Load;
  }

  lemma StageGoes(w: World, session: Session, step: Step, evidence: Evidence)
    requires Preceded(w.receipts, session, step) && w.left >= 1
    ensures Load(w.receipts, session, step).None? ==>
      Append(w, session, step, evidence).1.Go? && Append(w, session, step, evidence).0.left >= w.left - 1
  {
    hide Load, Preceded;
  }

  /** What can be checked before an attempt: every step is on record or will be answered; the
      reconciliations it makes end as they were reviewed; and the account they lead to is one
      the decision can be made from, or its account write redone. */
  predicate GetsThrough(w: World, session: Session, answers: Answers) {
    var recorded := (step: Step) => Load(w.receipts, session, step).Some?;
    && (recorded(EodReconciled) || Agrees(answers.eod, w.account))
    && (recorded(DataValidated) || answers.data.Some?)
    && (recorded(DecisionCommitted)
        || (recorded(EodReconciled) && Agrees(answers.again, w.account)
            && Decides(w.decisions, session, answers.again.value.account, answers))
        || (!recorded(EodReconciled) && Agrees(answers.eod, w.account)
            && Decides(w.decisions, session, answers.eod.value.account, answers)))
    && (recorded(ReportPublished) || (answers.report.Some? && answers.reportMatches))
    && (recorded(BackupVerified) || answers.backup.Some?)
  }

  /** Whatever earlier attempts left behind and whatever is answered: an attempt that lives
      for eleven writes completes the close exactly under that condition. */
  lemma CompletesExactlyWhen(w: World, session: Session, answers: Answers)
    requires Inv(w) && w.left >= 11
    ensures CloseRun(w, session, answers).1.Go? <==>
      Load(w.receipts, session, Completed).Some? || GetsThrough(w, session, answers)
  {
    hide Inv, Load, EodStage, DecideRun, Decides;
    if Load(w.receipts, session, Completed).None? {
      var eodIsNew := Load(w.receipts, session, EodReconciled).None?;
      EodKeeps(w, session, answers);
      EodGoes(w, session, answers);
      var (reconciled, flow) := EodStage(w, session, answers);
      if flow.Go? {
        DecideRunGoes(reconciled, session, answers, eodIsNew, flow.value);
      }
    }
  }

  lemma DecideRunGoes(w: World, session: Session, answers: Answers, eodIsNew: bool, eod: Evidence)
    requires Inv(w) && w.left >= 8 + (if eodIsNew then 0 else 2)
    requires Load(w.receipts, session, EodReconciled) == Some(eod) && eod.EodEvidence?
    requires Load(w.receipts, session, Completed).None?
    ensures DecideRun(w, session, answers, eodIsNew, eod).1.Go? <==>
      && (Load(w.receipts, session, DataValidated).Some? || answers.data.Some?)
      && (|| Load(w.receipts, session, DecisionCommitted).Some?
          || (eodIsNew && Decides(w.decisions, session, w.account, answers))
          || (!eodIsNew && Agrees(answers.again, w.account)
              && Decides(w.decisions, session, answers.again.value.account, answers)))
      && (Load(w.receipts, session, ReportPublished).Some? || (answers.report.Some? && answers.reportMatches))
      && (Load(w.receipts, session, BackupVerified).Some? || answers.backup.Some?)
  {
    hide Inv, Load, DataStage, DecisionStage, FinishRun, Decides, Agrees;
    DataKeeps(w, session, answers);
    DataGoes(w, session, answers);
    DataLeavesOpen(w, session, answers);
    var (validated, flow) := DataStage(w, session, answers);
    if flow.Go? {
      LoadLasts(w.receipts, validated.receipts, session, EodReconciled);
      DecisionKeeps(validated, session, answers, eodIsNew);
      DecisionLeavesOpen(validated, session, answers, eodIsNew);
      DecisionGoes(validated, session, answers, eodIsNew);
      DecisionLeavesLater(validated, session, answers, eodIsNew);
      var (decided, flow2) := DecisionStage(validated, session, answers, eodIsNew);
      if flow2.Go? {
        LoadLasts(validated.receipts, decided.receipts, session, EodReconciled);
        LoadLasts(validated.receipts, decided.receipts, session, DataValidated);
        FinishGoes(decided, session, answers, eod, flow.value, flow2.value.0, flow2.value.1.decision);
      }
    }
  }

  lemma ReconcileAddsNone(w: World, answer: Option<Reconciled>)
    ensures Reconcile(w, answer).0.receipts == w.receipts
    ensures Reconcile(w, answer).1.Go? ==> answer == Some(Reconcile(w, answer).1.value)
  {
  }

  lemma PostCloseAddsNone(w: World, session: Session, answers: Answers)
    ensures PostCloseDecision(w, session, answers).0.receipts == w.receipts
  {
    hide ForSession;
  }

  lemma DecisionLeavesLater(w: World, session: Session, answers: Answers, eodIsNew: bool)
    ensures var v := DecisionStage(w, session, answers, eodIsNew).0;
      forall step: Step :: step != DecisionCommitted ==>
        Load(v.receipts, session, step) == Load(w.receipts, session, step)
  {
    hide Load, ForSession, Reconcile, PostCloseDecision;
    var ready := if eodIsNew then w else Reconcile(w, answers.again).0;
    ReconcileAddsNone(w, answers.again);
    PostCloseAddsNone(ready, session, answers);
    var found := ForSession(PostCloseDecision(ready, session, answers).0.decisions, session);
    if |found| == 1 {
      OthersStay(w.receipts, Receipt(session, DecisionCommitted, DecisionEvidence(found[0])));
    }
  }

  /** Whatever earlier attempts left behind, an attempt in which nobody raises and which
      lives for eleven writes completes the close exactly when the decision is already
      recorded, or not yet stored, or the account is where it starts or leads once the
      broker has been reconciled again. Otherwise every attempt fails, with a
      contradiction, until somebody writes the account. */
  lemma CompletesExactly(w: World, session: Session, answers: Answers)
    requires Inv(w) && Willing(answers) && w.left >= 11
    ensures CloseRun(w, session, answers).1.Go? <==>
      || Load(w.receipts, session, Completed).Some?
      || Load(w.receipts, session, DecisionCommitted).Some?
      || Passes(w.decisions, session, AccountAtDecision(w, session, answers))
  {
    hide Inv, Load, CloseRun, ForSession;
    CompletesExactlyWhen(w, session, answers);
  }
}
