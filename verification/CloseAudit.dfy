/** When a committed decision has its audit entry: an exact condition for each attempt, and
    a run on which it never gets one. */
module CloseAudit {
  import opened Wrappers
  import opened CloseLedger
  import opened CloseProtocol
  import opened CloseInvariant
  import opened CloseTheorems
  import opened CloseProgress
  import opened CloseOnce

  /** The decision is audited, as made or as recovered. */
  predicate Audited(w: World, d: Decision) { DecisionAudit(d) in w.audits || RecoveryAudit(d) in w.audits }

  lemma ReconcileAudits(w: World, answer: Option<Reconciled>)
    ensures Reconcile(w, answer).0.audits == w.audits
  {
  }

  lemma EodAudits(w: World, session: Session, answers: Answers)
    ensures EodStage(w, session, answers).0.audits == w.audits
  {
    hide Load, AppendCheck, Reconcile;
    ReconcileAudits(w, answers.eod);
  }

  lemma DataAudits(w: World, session: Session, answers: Answers)
    ensures DataStage(w, session, answers).0.audits == w.audits
  {
    hide Load, AppendCheck;
  }

  /** Nothing but checkpoints was added. */
  predicate OnlyAppends(w: World, v: World) {
    v.audits == w.audits && v.moves == w.moves && v.decisions == w.decisions && w.receipts <= v.receipts
  }

  lemma AppendOnlyAppends(w: World, session: Session, step: Step, evidence: Evidence)
    ensures OnlyAppends(w, Append(w, session, step, evidence).0)
  {
    hide AppendCheck;
  }

  lemma CompleteOnlyAppends(
    w: World, session: Session, answers: Answers, eod: Evidence, data: Evidence, count: nat, d: Decision,
    report: Evidence
  )
    ensures OnlyAppends(w, CompleteRun(w, session, answers, eod, data, count, d, report).0)
  {
    hide Load, Append;
    if answers.backup.Some? {
      AppendOnlyAppends(w, session, BackupVerified, BackupEvidence(answers.backup.value, d));
    }
    var (backed, flow) := BackupStage(w, session, answers, d);
    if flow.Go? && report.ReportEvidence? && flow.value.BackupEvidence? && eod.EodEvidence? && data.DataEvidence? {
      AppendOnlyAppends(backed, session, Completed,
        CompletedEvidence(d, report.report, flow.value.backup, eod.reconciliation, data.manifest));
    }
  }

  /** The stages after the decision add checkpoints and nothing else. */
  lemma FinishOnlyAppends(
    w: World, session: Session, answers: Answers, eod: Evidence, data: Evidence, count: nat, d: Decision
  )
    ensures OnlyAppends(w, FinishRun(w, session, answers, eod, data, count, d).0)
  {
    hide Load, Append, CompleteRun;
    if answers.report.Some? {
      AppendOnlyAppends(w, session, ReportPublished, ReportEvidence(answers.report.value, d));
    }
    var (reported, flow) := ReportStage(w, session, answers, d);
    if flow.Go? {
      CompleteOnlyAppends(reported, session, answers, eod, data, count, d, flow.value);
    }
  }

  lemma RecoverAudits(w: World, stored: Decision, recovery: Recovery)
    requires RecoverDecision(w, stored, recovery).1.Go?
    ensures var v := RecoverDecision(w, stored, recovery).0;
      Audited(v, stored) <==> Audited(w, stored) || MovesOf(v.moves, stored) > MovesOf(w.moves, stored)
  {
    hide MovesOf;
    MoveCounts(w, Commit(stored), stored.after, stored);
  }

  lemma CommitAudits(w: World, session: Session, answer: Option<Decided>)
    requires CommitDecision(w, session, answer).1.Go? && ForSession(w.decisions, session) == []
    ensures var v := CommitDecision(w, session, answer).0;
      var d := Decision(session, w.account, answer.value.after, answer.value.payload);
      && ForSession(v.decisions, session) == [d]
      && Audited(v, d) && MovesOf(v.moves, d) > MovesOf(w.moves, d)
  {
    hide MovesOf, ForSession;
    var d := Decision(session, w.account, answer.value.after, answer.value.payload);
    CommitCounts(w, session, answer, d);
    ForSessionSnoc(w.decisions, d, session);
    var note := Move(Store(d), w.account, w.account);
    MoveSnoc(w.moves, note, d);
    var stored := w.(decisions := w.decisions + [d], moves := w.moves + [note], left := w.left - 1);
    MoveCounts(stored, Commit(d), d.after, d);
  }

  lemma PostCloseAudits(w: World, session: Session, answers: Answers, d: Decision)
    requires Unique(w.decisions) && PostCloseDecision(w, session, answers).1.Go?
    requires ForSession(PostCloseDecision(w, session, answers).0.decisions, session) == [d]
    ensures var v := PostCloseDecision(w, session, answers).0;
      Audited(v, d) <==> Audited(w, d) || MovesOf(v.moves, d) > MovesOf(w.moves, d)
  {
    hide MovesOf, ForSession, CommitDecision, RecoverDecision;
    var existing := ForSession(w.decisions, session);
    if existing == [] {
      CommitAudits(w, session, answers.decided);
    } else {
      assert |existing| == 1;
      RecoverKeepsDecisions(w, existing[0], answers.recovery);
      RecoverAudits(w, existing[0], answers.recovery);
    }
  }

  lemma RecoverKeepsDecisions(w: World, stored: Decision, recovery: Recovery)
    ensures RecoverDecision(w, stored, recovery).0.decisions == w.decisions
  {
  }

  lemma DecisionAudits(w: World, session: Session, answers: Answers, eodIsNew: bool, d: Decision)
    requires Inv(w) && Load(w.receipts, session, DecisionCommitted).None?
    ensures var (v, flow) := DecisionStage(w, session, answers, eodIsNew);
      && (flow.Go? ==> Load(v.receipts, session, DecisionCommitted).Some?)
      && (Load(v.receipts, session, DecisionCommitted) == Some(DecisionEvidence(d)) ==>
            (Audited(v, d) <==> Audited(w, d) || MovesOf(v.moves, d) > MovesOf(w.moves, d)))
  {
    hide MovesOf, Load, Preceded, Reconcile, PostCloseDecision, ForSession, Ordered, Evidenced, Moved, Recorded,
      Audited;
    ReconcileKeeps(w, answers.again);
    ReconcileCounts(w, answers.again, d);
    ReconcileAddsNone(w, answers.again);
    ReconcileAudits(w, answers.again);
    var (ready, flow) :=
      if eodIsNew then (w, Go(Reconciled("", "", w.account, true))) else Reconcile(w, answers.again);
    if flow.Go? {
      PostCloseAddsNone(ready, session, answers);
      var (decided, flow2) := PostCloseDecision(ready, session, answers);
      var found := ForSession(decided.decisions, session);
      if flow2.Go? && |found| == 1 {
        LoadSnoc(w.receipts, Receipt(session, DecisionCommitted, DecisionEvidence(found[0])), session,
                 DecisionCommitted);
        PostCloseAudits(ready, session, answers, found[0]);
        var v := Append(decided, session, DecisionCommitted, DecisionEvidence(found[0])).0;
        AppendOnlyAppends(decided, session, DecisionCommitted, DecisionEvidence(found[0]));
        SameAudits(w, ready, d);
        SameAudits(decided, v, d);
      }
    }
  }

  lemma SameAudits(w: World, v: World, d: Decision)
    requires v.audits == w.audits
    ensures Audited(v, d) == Audited(w, d)
  {
  }

  lemma DecideAudits(
    w: World, session: Session, answers: Answers, eodIsNew: bool, eod: Evidence, d: Decision
  )
    requires Inv(w) && Load(w.receipts, session, EodReconciled) == Some(eod) && eod.EodEvidence?
    requires Load(w.receipts, session, DecisionCommitted).None?
    ensures var v := DecideRun(w, session, answers, eodIsNew, eod).0;
      Load(v.receipts, session, DecisionCommitted) == Some(DecisionEvidence(d)) ==>
        (Audited(v, d) <==> Audited(w, d) || MovesOf(v.moves, d) > MovesOf(w.moves, d))
  {
    hide Inv, MovesOf, Load, DataStage, DecisionStage, FinishRun, Audited, Extends;
    DataKeeps(w, session, answers);
    DataMovesNothing(w, session, answers);
    DataAudits(w, session, answers);
    DataLeavesDecision(w, session, answers);
    var (validated, flow) := DataStage(w, session, answers);
    SameAudits(w, validated, d);
    if flow.Go? {
      DecisionAudits(validated, session, answers, eodIsNew, d);
      var (decided, flow2) := DecisionStage(validated, session, answers, eodIsNew);
      if flow2.Go? && flow2.value.1.DecisionEvidence? {
        var (eodE, data, count, made) := (eod, flow.value, flow2.value.0, flow2.value.1.decision);
        var v := FinishRun(decided, session, answers, eodE, data, count, made).0;
        FinishOnlyAppends(decided, session, answers, eodE, data, count, made);
        SameAudits(decided, v, d);
        FinishLeavesDecision(decided, session, answers, eodE, data, count, made);
      }
    }
  }

  lemma FinishLeavesDecision(
    w: World, session: Session, answers: Answers, eod: Evidence, data: Evidence, count: nat, d: Decision
  )
    requires Load(w.receipts, session, DecisionCommitted).Some?
    ensures Load(FinishRun(w, session, answers, eod, data, count, d).0.receipts, session, DecisionCommitted)
         == Load(w.receipts, session, DecisionCommitted)
  {
    hide Load, FinishRun;
    FinishOnlyAppends(w, session, answers, eod, data, count, d);
    LoadLasts(w.receipts, FinishRun(w, session, answers, eod, data, count, d).0.receipts, session, DecisionCommitted);
  }

  /** An attempt that records the decision leaves it audited exactly when it was audited
      before or this attempt itself wrote the account for it. */
  lemma AuditedExactly(w: World, session: Session, answers: Answers, d: Decision)
    requires Inv(w) && Load(w.receipts, session, DecisionCommitted).None?
    requires Load(CloseRun(w, session, answers).0.receipts, session, DecisionCommitted) == Some(DecisionEvidence(d))
    ensures var v := CloseRun(w, session, answers).0;
      Audited(v, d) <==> Audited(w, d) || MovesOf(v.moves, d) > MovesOf(w.moves, d)
  {
    hide Inv, MovesOf, Load, EodStage, DecideRun, Audited;
    if Load(w.receipts, session, Completed).None? {
      EodKeeps(w, session, answers);
      EodCounts(w, session, answers, d);
      EodAudits(w, session, answers);
      EodLeavesDecision(w, session, answers);
      var (reconciled, flow) := EodStage(w, session, answers);
      SameAudits(w, reconciled, d);
      if flow.Go? {
        DecideAudits(reconciled, session, answers, Load(w.receipts, session, EodReconciled).None?, flow.value, d);
      }
    }
  }

  /** The attempt after one that died right after its account write, when the broker's
      account is where the decision leads. */
  lemma RerunAudits()
    ensures var v := CloseRun(Started(Crashed(5), 11), 1, Asked("b")).0;
      && Load(v.receipts, 1, DecisionCommitted) == Some(DecisionEvidence(MADE))
      && Load(v.receipts, 1, Completed).Some?
      && MovesOf(v.moves, MADE) == 1 && !Audited(v, MADE)
  {
    hide MovesOf, ForSession, CloseRun, Load, Inv, Play;
    CrashedFacts(5);
    var w := Started(Crashed(5), 11);
    StartedKeeps(Crashed(5), 11);
    ReceiptsSoFar();
    AttemptAppliesExactly(w, 1, Asked("b"), MADE);
    CompletesExactly(w, 1, Asked("b"));
    assert forall d :: d in ForSession(w.decisions, 1) ==> d in [MADE];
    CloseRunKeeps(w, 1, Asked("b"));
    var v := CloseRun(w, 1, Asked("b")).0;
    CompletedRepeatsEvidence(v, 1);
    OneOfSession(w.decisions, v.decisions, MADE);
    AuditedExactly(w, 1, Asked("b"), MADE);
  }

  /** A run from an empty ledger that closes the session and leaves its decision without any
      audit: the first attempt dies after its account write, and the second finds the account
      where the decision leads. */
  lemma NeverAudited()
    ensures Inv(EmptyWorld())
    ensures var run := [Attempt(1, Asked("a"), 5), Attempt(1, Asked("b"), 11)];
      var v := Play(EmptyWorld(), run, 1).0;
      && Load(v.receipts, 1, DecisionCommitted) == Some(DecisionEvidence(MADE))
      && Load(v.receipts, 1, Completed).Some?
      && MovesOf(v.moves, MADE) == 1 && !Audited(v, MADE)
  {
    hide MovesOf, ForSession, CloseRun, Load, Inv, Play, Audited, Crashed;
    EmptyInv();
    CrashedFacts(5);
    var run := [Attempt(1, Asked("a"), 5), Attempt(1, Asked("b"), 11)];
    assert run[..1] == [Attempt(1, Asked("a"), 5)];
    PlaySnoc(EmptyWorld(), run, 1);
    RerunAudits();
  }

  lemma OneOfSession(before: seq<Decision>, after: seq<Decision>, d: Decision)
    requires before <= after && d in before && |ForSession(after, d.session)| == 1
    ensures ForSession(after, d.session) == [d]
  {
    hide ForSession;
    assert d in ForSession(after, d.session);
  }
}
