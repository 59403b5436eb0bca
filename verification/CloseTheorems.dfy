/** Every schedule of crashed and repeated close attempts keeps the evidence in order. */
module CloseTheorems {
  import opened Wrappers
  import opened CloseLedger
  import opened CloseProtocol
  import opened CloseInvariant

  ghost predicate Kept(w: World, v: World) {
    Inv(v) && Extends(w, v)
  }

  /** Exceptions that would mean the durable state contradicts itself. */
  predicate Contradicts(error: CloseError) {
    || error.PredecessorMissing? || error.CheckpointConflict? || error.CheckpointInvalid?
    || error.MultipleDecisions? || error.DecisionNotUnique?
  }

  predicate Sane<T>(flow: Closing<T>) {
    flow.Raise? ==> !Contradicts(flow.error)
  }

  lemma KeptChains(u: World, v: World, w: World)
    requires Kept(u, v) && Kept(v, w)
    ensures Kept(u, w)
  {
    hide Inv;
  }

  lemma AppendKeeps(w: World, session: Session, step: Step, evidence: Evidence)
    requires Inv(w) && Load(w.receipts, session, step).None? && Preceded(w.receipts, session, step)
    requires Fits(w.receipts, w.decisions, w.reconciliations, Receipt(session, step, evidence))
    requires evidence.DecisionEvidence? ==> Reached(w.moves, evidence.decision)
    ensures var (v, flow) := Append(w, session, step, evidence);
      && Kept(w, v) && Sane(flow)
      && (flow.Go? ==> flow.value == evidence && Load(v.receipts, session, step) == Some(evidence))
      && v.decisions == w.decisions && v.moves == w.moves && v.account == w.account
      && v.reconciliations == w.reconciliations
  {
    hide Inv, Fits, Reached, Load, Preceded;
    if w.left > 0 {
      ReceiptKeeps(w, Receipt(session, step, evidence));
      LoadSnoc(w.receipts, Receipt(session, step, evidence), session, step);
    }
  }

  lemma ReconcileKeeps(w: World, answer: Option<Reconciled>)
    requires Inv(w)
    ensures var (v, flow) := Reconcile(w, answer);
      && Kept(w, v) && Sane(flow) && v.receipts == w.receipts && v.decisions == w.decisions
      && (flow.Go? ==> answer == Some(flow.value) && flow.value.id in v.reconciliations)
  {
    hide Inv;
    if answer.Some? {
      if answer.value.account == w.account {
        if w.left > 0 {
          ReconciliationKeeps(w, answer.value.id);
        }
      } else if w.left > 0 {
        MoveKeeps(w, Sync, answer.value.account);
        var synced := MoveAccount(w, Sync, answer.value.account).0;
        if synced.left > 0 {
          ReconciliationKeeps(synced, answer.value.id);
        }
      }
    }
  }

  lemma AuditKeeps(w: World, audit: Audit)
    requires Inv(w)
    ensures Kept(w, AuditOnce(w, audit).0)
    ensures var v := AuditOnce(w, audit).0;
      v.receipts == w.receipts && v.decisions == w.decisions && v.moves == w.moves
      && v.account == w.account && v.reconciliations == w.reconciliations
  {
    hide Ordered, Evidenced, Unique, Moved, Recorded;
  }

  lemma CommitMoveReaches(w: World, d: Decision)
    requires Inv(w) && w.left > 0 && d in w.decisions && w.account == d.before
    requires d.before != d.after || MovesOf(w.moves, d) == 0
    ensures var v := MoveAccount(w, Commit(d), d.after).0;
      Kept(w, v) && Reached(v.moves, d)
  {
    hide MovesOf, Returns, Reached, Ordered, Evidenced, Unique, Recorded, AppliedOnce, Chained;
    MoveKeeps(w, Commit(d), d.after);
    MoveSnoc(w.moves, Move(Commit(d), w.account, d.after), d);
  }

  lemma StandingIsReached(moves: seq<Move>, account: Digest, d: Decision)
    requires Chained(moves, account) && Stored(moves, d) && d.after == account
    requires forall m :: m in moves && m.cause.Store? ==> m.before == m.after
    ensures Reached(moves, d)
  {
    var init, last := moves[..|moves| - 1], moves[|moves| - 1];
    assert moves == init + [last];
    if last.cause != Store(d) {
      var k :| k in moves && k.cause == Store(d);
      assert k in init;
    }
  }

  // --------------------------------------------------------------- stage after stage

  /** The decision of the session is settled: on record, and the account has got there. */
  ghost predicate SettledOn(w: World, session: Session, d: Decision) {
    ForSession(w.decisions, session) == [d] && Reached(w.moves, d)
  }

  lemma RecoverKeeps(w: World, session: Session, d: Decision, recovery: Recovery)
    requires Inv(w) && ForSession(w.decisions, session) == [d]
    ensures var (v, flow) := RecoverDecision(w, d, recovery);
      && Kept(w, v) && Sane(flow) && v.receipts == w.receipts && v.decisions == w.decisions
      && (flow.Go? ==> flow.value == 0 && SettledOn(v, session, d))
  {
    hide MovesOf, Returns, Reached, Ordered, Evidenced, Recorded, AppliedOnce, Chained, ForSession;
    assert d in ForSession(w.decisions, session);
    if w.account == d.after {
      StandingIsReached(w.moves, w.account, d);
    } else if w.account == d.before && !recovery.Refuses? && w.left > 0 {
      CommitMoveReaches(w, d);
      AuditKeeps(MoveAccount(w, Commit(d), d.after).0, RecoveryAudit(d));
    }
  }

  lemma CommitKeeps(w: World, session: Session, answer: Option<Decided>)
    requires Inv(w) && ForSession(w.decisions, session) == []
    ensures var (v, flow) := CommitDecision(w, session, answer);
      && Kept(w, v) && Sane(flow) && v.receipts == w.receipts
      && (flow.Go? ==>
            && flow.value == 1 && answer.Some?
            && SettledOn(v, session, Decision(session, w.account, answer.value.after, answer.value.payload)))
  {
    hide MovesOf, Returns, Reached, Ordered, Evidenced, Recorded, AppliedOnce, Chained, ForSession,
      Unique, Stored;
    if answer.Some? && w.left > 0 {
      var d := Decision(session, w.account, answer.value.after, answer.value.payload);
      StoreKeeps(w, d);
      var stored := w.(decisions := w.decisions + [d],
                       moves := w.moves + [Move(Store(d), w.account, w.account)],
                       left := w.left - 1);
      if stored.left > 0 {
        CommitMoveReaches(stored, d);
        AuditKeeps(MoveAccount(stored, Commit(d), d.after).0, DecisionAudit(d));
      }
    }
  }

  lemma PostCloseKeeps(w: World, session: Session, answers: Answers)
    requires Inv(w)
    ensures var (v, flow) := PostCloseDecision(w, session, answers);
      && Kept(w, v) && Sane(flow) && v.receipts == w.receipts
      && (flow.Go? ==>
            && flow.value == |ForSession(v.decisions, session)| - |ForSession(w.decisions, session)|
            && |ForSession(v.decisions, session)| == 1
            && SettledOn(v, session, ForSession(v.decisions, session)[0]))
  {
    hide RecoverDecision, CommitDecision, Moved, Reached, Ordered, Evidenced, Recorded, ForSession;
    var existing := ForSession(w.decisions, session);
    if |existing| == 1 {
      RecoverKeeps(w, session, existing[0], answers.recovery);
    } else {
      assert |existing| <= 1;
      CommitKeeps(w, session, answers.decided);
    }
  }

  lemma EodKeeps(w: World, session: Session, answers: Answers)
    requires Inv(w)
    ensures var (v, flow) := EodStage(w, session, answers);
      && Kept(w, v) && Sane(flow) && v.decisions == w.decisions
      && (flow.Go? ==> Load(v.receipts, session, EodReconciled) == Some(flow.value)
                       && flow.value.EodEvidence?)
  {
    hide Moved, Reached, Ordered, Recorded, ForSession, Reconcile, Append, Unique, Load;
    var known := Load(w.receipts, session, EodReconciled);
    if known.Some? {
      assert Fits(w.receipts, w.decisions, w.reconciliations, Receipt(session, EodReconciled, known.value));
    } else {
      ReconcileKeeps(w, answers.eod);
      var (r, flow) := Reconcile(w, answers.eod);
      if flow.Go? {
        AppendKeeps(r, session, EodReconciled, EodEvidence(flow.value.id, flow.value.snapshot));
        KeptChains(w, r, Append(r, session, EodReconciled, EodEvidence(flow.value.id, flow.value.snapshot)).0);
      }
    }
  }

  lemma DataKeeps(w: World, session: Session, answers: Answers)
    requires Inv(w) && Load(w.receipts, session, EodReconciled).Some?
    ensures var (v, flow) := DataStage(w, session, answers);
      && Kept(w, v) && Sane(flow) && v.decisions == w.decisions
      && (flow.Go? ==> Load(v.receipts, session, DataValidated) == Some(flow.value)
                       && flow.value.DataEvidence?)
  {
    hide Moved, Reached, Ordered, Recorded, ForSession, Append, Unique, Load;
    var known := Load(w.receipts, session, DataValidated);
    if known.Some? {
      assert Fits(w.receipts, w.decisions, w.reconciliations, Receipt(session, DataValidated, known.value));
    } else if answers.data.Some? {
      AppendKeeps(w, session, DataValidated, DataEvidence(answers.data.value));
    }
  }

  lemma DecideKeeps(w: World, session: Session, answers: Answers)
    requires Inv(w) && Preceded(w.receipts, session, DecisionCommitted)
    requires Load(w.receipts, session, DecisionCommitted).None?
    ensures var (v, flow) := DecideAndRecord(w, session, answers);
      && Kept(w, v) && Sane(flow)
      && (flow.Go? ==>
            && Load(v.receipts, session, DecisionCommitted) == Some(flow.value.1)
            && flow.value.1.DecisionEvidence?
            && flow.value.0 == |ForSession(v.decisions, session)| - |ForSession(w.decisions, session)|)
  {
    hide Moved, Reached, Ordered, Recorded, ForSession, Append, Unique, Load, PostCloseDecision, Evidenced;
    PostCloseKeeps(w, session, answers);
    var (v, flow) := PostCloseDecision(w, session, answers);
    if flow.Go? {
      var d := ForSession(v.decisions, session)[0];
      AppendKeeps(v, session, DecisionCommitted, DecisionEvidence(d));
      KeptChains(w, v, Append(v, session, DecisionCommitted, DecisionEvidence(d)).0);
    }
  }

  lemma DecisionKeeps(w: World, session: Session, answers: Answers, eodIsNew: bool)
    requires Inv(w) && Preceded(w.receipts, session, DecisionCommitted)
    ensures var (v, flow) := DecisionStage(w, session, answers, eodIsNew);
      && Kept(w, v) && Sane(flow)
      && (flow.Go? ==>
            && Load(v.receipts, session, DecisionCommitted) == Some(flow.value.1)
            && flow.value.1.DecisionEvidence?
            && flow.value.0 == |ForSession(v.decisions, session)| - |ForSession(w.decisions, session)|)
  {
    hide Moved, Reached, Ordered, Recorded, ForSession, Append, Unique, Load, DecideAndRecord, Reconcile;
    var known := Load(w.receipts, session, DecisionCommitted);
    if known.Some? {
      assert Fits(w.receipts, w.decisions, w.reconciliations, Receipt(session, DecisionCommitted, known.value));
    } else {
      ReconcileKeeps(w, answers.again);
      var (ready, flow) :=
        if eodIsNew then (w, Go(Reconciled("", "", w.account, true))) else Reconcile(w, answers.again);
      if flow.Go? {
        DecideKeeps(ready, session, answers);
        KeptChains(w, ready, DecideAndRecord(ready, session, answers).0);
      }
    }
  }

  lemma ReportKeeps(w: World, session: Session, answers: Answers, d: Decision)
    requires Inv(w) && Preceded(w.receipts, session, ReportPublished)
    requires Load(w.receipts, session, DecisionCommitted) == Some(DecisionEvidence(d))
    ensures var (v, flow) := ReportStage(w, session, answers, d);
      && Kept(w, v) && Sane(flow) && v.decisions == w.decisions
      && (flow.Go? ==>
            && Load(v.receipts, session, ReportPublished) == Some(flow.value)
            && flow.value.ReportEvidence? && flow.value.reportDecision == d)
  {
    hide Moved, Reached, Ordered, Recorded, ForSession, Append, Unique, Load;
    var known := Load(w.receipts, session, ReportPublished);
    if known.Some? {
      assert Fits(w.receipts, w.decisions, w.reconciliations, Receipt(session, ReportPublished, known.value));
    } else if answers.report.Some? && answers.reportMatches {
      AppendKeeps(w, session, ReportPublished, ReportEvidence(answers.report.value, d));
    }
  }

  lemma BackupKeeps(w: World, session: Session, answers: Answers, d: Decision)
    requires Inv(w) && Preceded(w.receipts, session, BackupVerified)
    requires Load(w.receipts, session, DecisionCommitted) == Some(DecisionEvidence(d))
    ensures var (v, flow) := BackupStage(w, session, answers, d);
      && Kept(w, v) && Sane(flow) && v.decisions == w.decisions
      && (flow.Go? ==>
            && Load(v.receipts, session, BackupVerified) == Some(flow.value)
            && flow.value.BackupEvidence? && flow.value.backupDecision == d)
  {
    hide Moved, Reached, Ordered, Recorded, ForSession, Append, Unique, Load;
    var known := Load(w.receipts, session, BackupVerified);
    if known.Some? {
      assert Fits(w.receipts, w.decisions, w.reconciliations, Receipt(session, BackupVerified, known.value));
    } else if answers.backup.Some? {
      AppendKeeps(w, session, BackupVerified, BackupEvidence(answers.backup.value, d));
    }
  }

  /** Everything up to the decision is on record with this evidence. */
  ghost predicate DecidedOn(receipts: seq<Receipt>, session: Session, eod: Evidence, data: Evidence, d: Decision) {
    && Load(receipts, session, EodReconciled) == Some(eod) && eod.EodEvidence?
    && Load(receipts, session, DataValidated) == Some(data) && data.DataEvidence?
    && Load(receipts, session, DecisionCommitted) == Some(DecisionEvidence(d))
  }

  lemma DecidedLasts(
    earlier: seq<Receipt>, later: seq<Receipt>, session: Session, eod: Evidence, data: Evidence, d: Decision
  )
    requires DecidedOn(earlier, session, eod, data, d) && earlier <= later
    ensures DecidedOn(later, session, eod, data, d)
  {
    hide Load;
    LoadLasts(earlier, later, session, EodReconciled);
    LoadLasts(earlier, later, session, DataValidated);
    LoadLasts(earlier, later, session, DecisionCommitted);
  }

  lemma FinishKeeps(
    w: World, session: Session, answers: Answers, eod: Evidence, data: Evidence, count: nat, d: Decision
  )
    requires Inv(w) && DecidedOn(w.receipts, session, eod, data, d)
    requires Load(w.receipts, session, Completed).None?
    ensures var (v, flow) := FinishRun(w, session, answers, eod, data, count, d);
      && Kept(w, v) && Sane(flow) && v.decisions == w.decisions
      && (flow.Go? ==> flow.value == (count, 1) && Load(v.receipts, session, Completed).Some?)
  {
    hide Inv, Append, Load, ReportStage, BackupStage;
    ReportKeeps(w, session, answers, d);
    var (reported, flow) := ReportStage(w, session, answers, d);
    if flow.Go? {
      DecidedLasts(w.receipts, reported.receipts, session, eod, data, d);
      BackupKeeps(reported, session, answers, d);
      var (backed, flow2) := BackupStage(reported, session, answers, d);
      KeptChains(w, reported, backed);
      if flow2.Go? {
        DecidedLasts(reported.receipts, backed.receipts, session, eod, data, d);
        LoadLasts(reported.receipts, backed.receipts, session, ReportPublished);
        var evidence := CompletedEvidence(d, flow.value.report, flow2.value.backup, eod.reconciliation, data.manifest);
        StagesLeaveOpen(w, session, answers, d);
        AppendKeeps(backed, session, Completed, evidence);
        KeptChains(w, backed, Append(backed, session, Completed, evidence).0);
      }
    }
  }

  /** Neither stage completes the session by itself. */
  lemma StagesLeaveOpen(w: World, session: Session, answers: Answers, d: Decision)
    requires Load(w.receipts, session, Completed).None?
    ensures var reported := ReportStage(w, session, answers, d).0;
      Load(BackupStage(reported, session, answers, d).0.receipts, session, Completed).None?
  {
    hide Load;
    var reported := ReportStage(w, session, answers, d).0;
    OtherStepOpen(w.receipts, session, ReportPublished);
    OtherStepOpen(reported.receipts, session, BackupVerified);
  }

  lemma OtherStepOpen(receipts: seq<Receipt>, session: Session, step: Step)
    requires Load(receipts, session, Completed).None? && !step.Completed?
    ensures forall e :: Load(receipts + [Receipt(session, step, e)], session, Completed).None?
  {
    forall e ensures Load(receipts + [Receipt(session, step, e)], session, Completed).None? {
      LoadSnoc(receipts, Receipt(session, step, e), session, Completed);
    }
  }

  lemma EodLeavesOpen(w: World, session: Session, answers: Answers)
    requires Load(w.receipts, session, Completed).None?
    ensures Load(EodStage(w, session, answers).0.receipts, session, Completed).None?
  {
    hide Load;
    OtherStepOpen(w.receipts, session, EodReconciled);
  }

  lemma DataLeavesOpen(w: World, session: Session, answers: Answers)
    requires Load(w.receipts, session, Completed).None?
    ensures Load(DataStage(w, session, answers).0.receipts, session, Completed).None?
  {
    hide Load;
    OtherStepOpen(w.receipts, session, DataValidated);
  }

  lemma DecisionLeavesOpen(w: World, session: Session, answers: Answers, eodIsNew: bool)
    requires Load(w.receipts, session, Completed).None?
    ensures Load(DecisionStage(w, session, answers, eodIsNew).0.receipts, session, Completed).None?
  {
    hide Load, AuditOnce, MoveAccount;
    AccountLeavesReceipts(w, answers);
    var ready := if eodIsNew then w else Reconcile(w, answers.again).0;
    DecisionLeavesReceipts(ready, session, answers);
    OtherStepOpen(w.receipts, session, DecisionCommitted);
    hide Reconcile, PostCloseDecision;
  }

  lemma AccountLeavesReceipts(w: World, answers: Answers)
    ensures Reconcile(w, answers.again).0.receipts == w.receipts
  {
  }

  lemma DecisionLeavesReceipts(w: World, session: Session, answers: Answers)
    ensures PostCloseDecision(w, session, answers).0.receipts == w.receipts
  {
    hide ForSession;
  }

  lemma DecideRunKeeps(w: World, session: Session, answers: Answers, eodIsNew: bool, eod: Evidence)
    requires Inv(w) && Load(w.receipts, session, Completed).None?
    requires Load(w.receipts, session, EodReconciled) == Some(eod) && eod.EodEvidence?
    ensures var (v, flow) := DecideRun(w, session, answers, eodIsNew, eod);
      && Kept(w, v) && Sane(flow)
      && (flow.Go? ==>
            && flow.value.0 == |ForSession(v.decisions, session)| - |ForSession(w.decisions, session)|
            && flow.value.1 == 1 && Load(v.receipts, session, Completed).Some?)
  {
    hide Inv, Load, DataStage, DecisionStage, FinishRun, ForSession;
    DataKeeps(w, session, answers);
    DataLeavesOpen(w, session, answers);
    var (validated, flow) := DataStage(w, session, answers);
    if flow.Go? {
      LoadLasts(w.receipts, validated.receipts, session, EodReconciled);
      DecisionKeeps(validated, session, answers, eodIsNew);
      DecisionLeavesOpen(validated, session, answers, eodIsNew);
      var (decided, flow2) := DecisionStage(validated, session, answers, eodIsNew);
      KeptChains(w, validated, decided);
      if flow2.Go? {
        LoadLasts(validated.receipts, decided.receipts, session, EodReconciled);
        LoadLasts(validated.receipts, decided.receipts, session, DataValidated);
        var d := flow2.value.1.decision;
        FinishKeeps(decided, session, answers, eod, flow.value, flow2.value.0, d);
        KeptChains(w, decided, FinishRun(decided, session, answers, eod, flow.value, flow2.value.0, d).0);
      }
    }
  }

  /** One attempt, wherever it ends: the invariant holds, nothing durable is lost, no
      contradiction is ever reported, and the count it returns is the number of decisions
      it added. */
  lemma CloseRunKeeps(w: World, session: Session, answers: Answers)
    requires Inv(w)
    ensures var (v, flow) := CloseRun(w, session, answers);
      && Kept(w, v) && Sane(flow)
      && (flow.Go? ==>
            && flow.value.0 == |ForSession(v.decisions, session)| - |ForSession(w.decisions, session)|
            && Load(v.receipts, session, Completed).Some?)
  {
    hide Inv, Load, EodStage, DecideRun, ForSession;
    if Load(w.receipts, session, Completed).None? {
      EodKeeps(w, session, answers);
      EodLeavesOpen(w, session, answers);
      var (reconciled, flow) := EodStage(w, session, answers);
      if flow.Go? {
        var eodIsNew := Load(w.receipts, session, EodReconciled).None?;
        DecideRunKeeps(reconciled, session, answers, eodIsNew, flow.value);
        KeptChains(w, reconciled, DecideRun(reconciled, session, answers, eodIsNew, flow.value).0);
      }
    }
  }

  // ---------------------------------------------------------------------- schedules

  /** One attempt that may die after `writes` durable writes, or a write of the account by
      another component in between. */
  datatype Happening =
    | Attempt(session: Session, answers: Answers, writes: nat)
    | Elsewhere(account: Digest)

  function Started(w: World, writes: nat): World { w.(left := writes) }

  /** The durable state after a schedule, and the decisions its attempts at `session`
      returned. */
  ghost function Play(w: World, schedule: seq<Happening>, session: Session): (r: (World, nat))
    requires Inv(w)
    ensures Inv(r.0)
  {
    if schedule == [] then (w, 0)
    else
      var (before, total) := Play(w, schedule[..|schedule| - 1], session);
      match schedule[|schedule| - 1]
      case Attempt(s, answers, writes) =>
        StartedKeeps(before, writes);
        CloseRunKeeps(Started(before, writes), s, answers);
        var (after, flow) := CloseRun(Started(before, writes), s, answers);
        (after, if flow.Go? && s == session then total + flow.value.0 else total)
      case Elsewhere(account) =>
        StartedKeeps(before, 1);
        MoveKeeps(Started(before, 1), Sync, account);
        (MoveAccount(Started(before, 1), Sync, account).0, total)
  }

  lemma StartedKeeps(w: World, writes: nat)
    requires Inv(w)
    ensures Inv(Started(w, writes))
  {
    hide Ordered, Evidenced, Unique, Moved, Recorded;
  }

  lemma {:induction false} ForSessionGrows(earlier: seq<Decision>, later: seq<Decision>, session: Session)
    requires earlier <= later
    ensures |ForSession(earlier, session)| <= |ForSession(later, session)|
    decreases |later|
  {
    if earlier != later {
      var init, last := later[..|later| - 1], later[|later| - 1];
      ForSessionGrows(earlier, init, session);
      assert later == init + [last];
      ForSessionSnoc(init, last, session);
    }
  }

  /** Over all attempts of a schedule, at most one decision is ever reported as made, and
      only if it is the one now on record; and no receipt, decision or account write is
      ever lost. */
  lemma {:induction false} OneDecisionPerSession(w: World, schedule: seq<Happening>, session: Session)
    requires Inv(w)
    ensures var (v, total) := Play(w, schedule, session);
      && total <= |ForSession(v.decisions, session)| - |ForSession(w.decisions, session)|
      && |ForSession(v.decisions, session)| <= 1
      && w.receipts <= v.receipts && w.decisions <= v.decisions && w.moves <= v.moves
  {
    hide ForSession, Ordered, Evidenced, Moved, Recorded, CloseRun;
    if schedule != [] {
      OneDecisionPerSession(w, schedule[..|schedule| - 1], session);
      var before := Play(w, schedule[..|schedule| - 1], session).0;
      match schedule[|schedule| - 1]
      case Attempt(s, answers, writes) =>
        StartedKeeps(before, writes);
        CloseRunKeeps(Started(before, writes), s, answers);
        var after := CloseRun(Started(before, writes), s, answers).0;
        ForSessionGrows(before.decisions, after.decisions, session);
      case Elsewhere(_) =>
    }
  }

  /** A completed session repeats the ids its earlier checkpoints hold, and its decision is
      the session's only one. */
  lemma CompletedRepeatsEvidence(w: World, session: Session)
    requires Inv(w) && Load(w.receipts, session, Completed).Some?
    ensures var e := Load(w.receipts, session, Completed).value;
      && e.CompletedEvidence?
      && (exists snapshot ::
            Load(w.receipts, session, EodReconciled) == Some(EodEvidence(e.closeReconciliation, snapshot)))
      && Load(w.receipts, session, DataValidated) == Some(DataEvidence(e.closeManifest))
      && Load(w.receipts, session, DecisionCommitted) == Some(DecisionEvidence(e.closeDecision))
      && Load(w.receipts, session, ReportPublished) == Some(ReportEvidence(e.closeReport, e.closeDecision))
      && Load(w.receipts, session, BackupVerified) == Some(BackupEvidence(e.closeBackup, e.closeDecision))
      && ForSession(w.decisions, session) == [e.closeDecision]
      && e.closeReconciliation in w.reconciliations
  {
    hide Load, ForSession, Ordered, Moved, Recorded, Unique;
    var e := Load(w.receipts, session, Completed).value;
    assert Fits(w.receipts, w.decisions, w.reconciliations, Receipt(session, Completed, e));
    var snapshot :| Load(w.receipts, session, EodReconciled) == Some(EodEvidence(e.closeReconciliation, snapshot));
    assert Fits(w.receipts, w.decisions, w.reconciliations,
                Receipt(session, EodReconciled, EodEvidence(e.closeReconciliation, snapshot)));
    assert Fits(w.receipts, w.decisions, w.reconciliations,
                Receipt(session, DecisionCommitted, DecisionEvidence(e.closeDecision)));
  }

  // ------------------------------------------------------------- applied exactly once

  /** Writes by others that bring the account to where the decision leads. */
  function Arrivals(moves: seq<Move>, d: Decision): nat {
    if moves == [] then 0
    else
      var init, last := moves[..|moves| - 1], moves[|moves| - 1];
      Arrivals(init, d)
      + (if last.cause != Commit(d) && last.before != d.after && last.after == d.after then 1 else 0)
  }

  lemma {:induction false} ReachedByOwnMove(moves: seq<Move>, account: Digest, d: Decision)
    requires Chained(moves, account) && Reached(moves, d) && Arrivals(moves, d) == 0
    requires d.before != d.after
    requires forall m :: m in moves && m.cause.Store? ==> m.before == m.after
    requires forall m :: m in moves && m.cause == Store(d) ==> m.before == d.before
    ensures MovesOf(moves, d) >= 1
  {
    var init, last := moves[..|moves| - 1], moves[|moves| - 1];
    assert moves == init + [last];
    assert last in moves;
    if last.cause != Commit(d) {
      if !Reached(init, d) {
        StandingIsReached(init, last.before, d);
      }
      ReachedByOwnMove(init, last.before, d);
    }
  }

  /** The account goes from a recorded decision's before-hash to its after-hash exactly
      once, unless somebody else writes one of those two hashes; at worst once more for
      every time it was brought back. */
  lemma DecisionAppliedExactlyOnce(w: World, session: Session)
    requires Inv(w) && Load(w.receipts, session, DecisionCommitted).Some?
    ensures var e := Load(w.receipts, session, DecisionCommitted).value;
      && e.DecisionEvidence?
      && Reached(w.moves, e.decision)
      && MovesOf(w.moves, e.decision) <= 1 + Returns(w.moves, e.decision)
      && (e.decision.before != e.decision.after
          && Arrivals(w.moves, e.decision) == 0 && Returns(w.moves, e.decision) == 0
          ==> MovesOf(w.moves, e.decision) == 1)
  {
    hide Load, ForSession, Ordered, Unique, Reached, MovesOf, Returns, Arrivals, Chained;
    var e := Load(w.receipts, session, DecisionCommitted).value;
    assert Fits(w.receipts, w.decisions, w.reconciliations, Receipt(session, DecisionCommitted, e));
    var d := e.decision;
    assert Receipt(session, DecisionCommitted, e) in w.receipts;
    assert AppliedOnce(w.moves, w.account, d);
    if d.before != d.after && Arrivals(w.moves, d) == 0 {
      ReachedByOwnMove(w.moves, w.account, d);
    }
  }
}
