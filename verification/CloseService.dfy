/** The close protocol as the source runs it: step by step over the durable state. */
module CloseService {
  import opened Wrappers
  import opened CloseLedger
  import P = CloseProtocol
  import opened CloseInvariant
  import opened CloseTheorems

  /** The durable state. The process dies at the write after `writesLeft` others. */
  class CloseDatabase {
    var receipts: seq<Receipt>
    var decisions: seq<Decision>
    var account: Digest
    var reconciliations: seq<Digest>
    var audits: set<P.Audit>
    var writesLeft: nat
    ghost var moves: seq<P.Move>

    ghost function World(): P.World
      reads this
    {
      P.World(receipts, decisions, account, moves, reconciliations, audits, writesLeft)
    }

    constructor (account: Digest, writesLeft: nat)
      ensures World() == P.World([], [], account, [], [], {}, writesLeft)
      ensures Inv(World())
    {
      receipts, decisions, this.account, reconciliations, audits := [], [], account, [], {};
      this.writesLeft := writesLeft;
      moves := [];
    }

    /** Every step before this one has its checkpoint. */
    method RequirePredecessors(session: Session, step: Step) returns (ok: bool)
      ensures ok <==> Preceded(receipts, session, step)
    {
      var i := 0;
      while i < Index(step)
        invariant 0 <= i <= Index(step)
        invariant forall s: Step :: Index(s) < i ==> Load(receipts, session, s).Some?
      {
        assert Index(STEP_ORDER[i]) == i;
        if Load(receipts, session, STEP_ORDER[i]).None? {
          return false;
        }
        OneStepPerIndex(i);
        i := i + 1;
      }
      return true;
    }

    /** Writes the checkpoint of a step, once and in order; the same evidence again is
        accepted, other evidence refused. */
    method Append(session: Session, step: Step, evidence: Evidence) returns (flow: P.Closing<Evidence>)
      modifies `receipts, `writesLeft
      ensures (World(), flow) == P.Append(old(World()), session, step, evidence)
    {
      hide Load, Preceded;
      var ready := RequirePredecessors(session, step);
      if !ready {
        return Raise(PredecessorMissing);
      }
      var existing := Load(receipts, session, step);
      if existing.Some? {
        return if existing.value == evidence then Go(evidence) else Raise(CheckpointConflict);
      }
      if writesLeft == 0 {
        return Die;
      }
      receipts, writesLeft := receipts + [Receipt(session, step, evidence)], writesLeft - 1;
      return Go(evidence);
    }

    /** The latest session with some checkpoint but no completion. */
    method LatestIncompleteSession() returns (latest: Option<Session>)
      ensures latest.Some? ==> Incomplete(receipts, latest.value)
      ensures latest.Some? ==> forall s :: Incomplete(receipts, s) ==> s <= latest.value
      ensures latest.None? ==> forall s :: !Incomplete(receipts, s)
    {
      var observed: set<Session>, completed: set<Session> := {}, {};
      var i := 0;
      while i < |receipts|
        invariant 0 <= i <= |receipts|
        invariant forall s :: s in observed <==> Observed(receipts[..i], s)
        invariant forall s :: s in completed <==> Load(receipts[..i], s, Completed).Some?
      {
        assert receipts[..i + 1] == receipts[..i] + [receipts[i]];
        forall s ensures Observed(receipts[..i + 1], s) <==> Observed(receipts[..i], s) || s == receipts[i].session
        {
          ObservedSnoc(receipts[..i], receipts[i], s);
        }
        forall s ensures Load(receipts[..i + 1], s, Completed).Some? <==>
          (Load(receipts[..i], s, Completed).Some?
           || (s == receipts[i].session && receipts[i].step == Completed))
        {
          LoadSnoc(receipts[..i], receipts[i], s, Completed);
        }
        hide Load, Observed;
        observed := observed + {receipts[i].session};
        if receipts[i].step == Completed {
          completed := completed + {receipts[i].session};
        }
        i := i + 1;
      }
      assert receipts[..i] == receipts;
      hide Load, Observed;
      assert forall s :: Incomplete(receipts, s) <==> s in observed - completed;
      latest := Latest(receipts, observed - completed);
    }

    method MoveAccount(cause: P.Cause, after: Digest) returns (flow: P.Closing<()>)
      modifies `account, `moves, `writesLeft
      ensures (World(), flow) == P.MoveAccount(old(World()), cause, after)
    {
      if writesLeft == 0 {
        return Die;
      }
      moves := moves + [P.Move(cause, account, after)];
      account, writesLeft := after, writesLeft - 1;
      return Go(());
    }

    method Reconcile(answer: Option<P.Reconciled>) returns (flow: P.Closing<P.Reconciled>)
      modifies `account, `moves, `writesLeft, `reconciliations
      ensures (World(), flow) == P.Reconcile(old(World()), answer)
    {
      if answer.None? {
        return Raise(ReconciliationFailed);
      }
      var syncs := answer.value.account != account;
      if syncs {
        var synced := MoveAccount(P.Sync, answer.value.account);
        if synced.Die? {
          return Die;
        }
      }
      if writesLeft == 0 {
        return Die;
      }
      reconciliations, writesLeft := reconciliations + [answer.value.id], writesLeft - 1;
      if syncs && !answer.value.asReviewed {
        return Raise(CommittedOtherwise);
      }
      return Go(answer.value);
    }

    method AuditOnce(audit: P.Audit) returns (alive: bool)
      modifies `audits, `writesLeft
      ensures (World(), if alive then Go(()) else Die) == P.AuditOnce(old(World()), audit)
    {
      if audit in audits {
        return true;
      }
      if writesLeft == 0 {
        return false;
      }
      audits, writesLeft := audits + {audit}, writesLeft - 1;
      return true;
    }

    /** Decides a session once: a decision already on record only has its account write
        redone, where that is missing. */
    method PostCloseDecision(session: Session, answers: P.Answers) returns (flow: P.Closing<nat>)
      modifies `decisions, `account, `moves, `audits, `writesLeft
      ensures (World(), flow) == P.PostCloseDecision(old(World()), session, answers)
    {
      hide P.ForSession;
      var existing := P.ForSession(decisions, session);
      if |existing| > 0 {
        if |existing| != 1 {
          return Raise(MultipleDecisions);
        }
        var d := existing[0];
        if account == d.after {
          return Go(0);
        }
        if account != d.before {
          return Raise(AccountContradiction);
        }
        if answers.recovery.Refuses? {
          return Raise(RecoveryRefused);
        }
        var moved := MoveAccount(P.Commit(d), d.after);
        if moved.Die? {
          return Die;
        }
        if answers.recovery.Differs? {
          return Raise(RecoveryMismatch);
        }
        var alive := AuditOnce(P.RecoveryAudit(d));
        return if alive then Go(0) else Die;
      }
      flow := CommitDecision(session, answers.decided);
    }

    method CommitDecision(session: Session, answer: Option<P.Decided>) returns (flow: P.Closing<nat>)
      modifies `decisions, `account, `moves, `audits, `writesLeft
      ensures (World(), flow) == P.CommitDecision(old(World()), session, answer)
    {
      if answer.None? {
        return Raise(DecisionFailed);
      }
      if writesLeft == 0 {
        return Die;
      }
      var d := Decision(session, account, answer.value.after, answer.value.payload);
      decisions, writesLeft := decisions + [d], writesLeft - 1;
      moves := moves + [P.Move(P.Store(d), account, account)];
      var moved := MoveAccount(P.Commit(d), d.after);
      if moved.Die? {
        return Die;
      }
      var alive := AuditOnce(P.DecisionAudit(d));
      return if alive then Go(1) else Die;
    }

    method ReportSession(session: Session, answers: P.Answers, d: Decision)
      returns (flow: P.Closing<Evidence>)
      modifies `receipts, `writesLeft
      ensures (World(), flow) == P.ReportStage(old(World()), session, answers, d)
    {
      hide Load, P.Append;
      var known := Load(receipts, session, ReportPublished);
      if known.Some? {
        return Go(known.value);
      }
      if answers.report.None? {
        return Raise(ReportFailed);
      }
      if !answers.reportMatches {
        return Raise(ReportIdentityMismatch);
      }
      flow := Append(session, ReportPublished, ReportEvidence(answers.report.value, d));
    }

    method BackUpSession(session: Session, answers: P.Answers, d: Decision)
      returns (flow: P.Closing<Evidence>)
      modifies `receipts, `writesLeft
      ensures (World(), flow) == P.BackupStage(old(World()), session, answers, d)
    {
      hide Load, P.Append;
      var known := Load(receipts, session, BackupVerified);
      if known.Some? {
        return Go(known.value);
      }
      if answers.backup.None? {
        return Raise(BackupFailed);
      }
      flow := Append(session, BackupVerified, BackupEvidence(answers.backup.value, d));
    }

    method ValidateData(session: Session, answers: P.Answers) returns (flow: P.Closing<Evidence>)
      modifies `receipts, `writesLeft
      ensures (World(), flow) == P.DataStage(old(World()), session, answers)
    {
      hide Load, P.Append;
      var known := Load(receipts, session, DataValidated);
      if known.Some? {
        return Go(known.value);
      }
      if answers.data.None? {
        return Raise(DataUpdateFailed);
      }
      flow := Append(session, DataValidated, DataEvidence(answers.data.value));
    }

    /** The report, then the backup, then the completion that repeats all ids. */
    method FinishSession(
      session: Session, answers: P.Answers, eod: Evidence, data: Evidence, count: nat, d: Decision
    ) returns (flow: P.Closing<(nat, nat)>)
      modifies `receipts, `writesLeft
      ensures (World(), flow) == P.FinishRun(old(World()), session, answers, eod, data, count, d)
    {
      hide P.ReportStage, P.BackupStage, P.Append;
      var report := ReportSession(session, answers, d);
      if !report.Go? {
        return if report.Die? then Die else Raise(report.error);
      }
      var backup := BackUpSession(session, answers, d);
      if !backup.Go? {
        return if backup.Die? then Die else Raise(backup.error);
      }
      if !report.value.ReportEvidence? || !backup.value.BackupEvidence?
        || !eod.EodEvidence? || !data.DataEvidence?
      {
        return Raise(CheckpointInvalid);
      }
      var done := Append(session, Completed, CompletedEvidence(
        d, report.value.report, backup.value.backup, eod.reconciliation, data.manifest));
      match done
      case Die => return Die;
      case Raise(error) => return Raise(error);
      case Go(_) => return Go((count, 1));
    }

    /** The decision, freshly reconciled for when an earlier attempt got that far. */
    method DecideSession(session: Session, answers: P.Answers, eodIsNew: bool)
      returns (flow: P.Closing<(nat, Evidence)>)
      modifies this
      ensures (World(), flow) == P.DecisionStage(old(World()), session, answers, eodIsNew)
    {
      hide Load, P.Append, P.Reconcile, P.PostCloseDecision, P.ForSession;
      var known := Load(receipts, session, DecisionCommitted);
      if known.Some? {
        return Go((0, known.value));
      }
      if !eodIsNew {
        var again := Reconcile(answers.again);
        if !again.Go? {
          return if again.Die? then Die else Raise(again.error);
        }
      }
      flow := DecideAndRecord(session, answers);
    }

    method DecideAndRecord(session: Session, answers: P.Answers) returns (flow: P.Closing<(nat, Evidence)>)
      modifies this
      ensures (World(), flow) == P.DecideAndRecord(old(World()), session, answers)
    {
      hide Load, P.Append, P.PostCloseDecision, P.ForSession;
      var decided := PostCloseDecision(session, answers);
      if !decided.Go? {
        return if decided.Die? then Die else Raise(decided.error);
      }
      var found := P.ForSession(decisions, session);
      if |found| != 1 {
        return Raise(DecisionNotUnique);
      }
      var recorded := Append(session, DecisionCommitted, DecisionEvidence(found[0]));
      match recorded
      case Die => return Die;
      case Raise(error) => return Raise(error);
      case Go(evidence) => return Go((decided.value, evidence));
    }

    /** One attempt to close a session, resuming after the last checkpoint on record. */
    method CloseSession(session: Session, answers: P.Answers) returns (flow: P.Closing<(nat, nat)>)
      requires Inv(World())
      modifies this
      ensures (World(), flow) == P.CloseRun(old(World()), session, answers)
      ensures Inv(World()) && old(receipts) <= receipts && old(decisions) <= decisions
      ensures flow.Raise? ==> !Contradicts(flow.error)
    {
      hide Load, P.EodStage, P.DecideRun, Inv;
      CloseRunKeeps(World(), session, answers);
      if Load(receipts, session, Completed).Some? {
        return Go((0, 0));
      }
      var eodIsNew := Load(receipts, session, EodReconciled).None?;
      var eod := ReconcileSession(session, answers);
      if !eod.Go? {
        return if eod.Die? then Die else Raise(eod.error);
      }
      flow := CloseReconciled(session, answers, eodIsNew, eod.value);
    }

    method ReconcileSession(session: Session, answers: P.Answers) returns (flow: P.Closing<Evidence>)
      modifies this
      ensures (World(), flow) == P.EodStage(old(World()), session, answers)
    {
      hide Load, P.Append, P.Reconcile;
      var known := Load(receipts, session, EodReconciled);
      if known.Some? {
        return Go(known.value);
      }
      var reconciled := Reconcile(answers.eod);
      if !reconciled.Go? {
        return if reconciled.Die? then Die else Raise(reconciled.error);
      }
      var r := reconciled.value;
      flow := Append(session, EodReconciled, EodEvidence(r.id, r.snapshot));
    }

    method CloseReconciled(session: Session, answers: P.Answers, eodIsNew: bool, eod: Evidence)
      returns (flow: P.Closing<(nat, nat)>)
      modifies this
      ensures (World(), flow) == P.DecideRun(old(World()), session, answers, eodIsNew, eod)
    {
      hide Load, P.DataStage, P.DecisionStage, P.FinishRun;
      var data := ValidateData(session, answers);
      if !data.Go? {
        return if data.Die? then Die else Raise(data.error);
      }
      if Load(receipts, session, DecisionCommitted).None? && (!eod.EodEvidence? || !data.value.DataEvidence?) {
        return Raise(CheckpointInvalid);
      }
      var decided := DecideSession(session, answers, eodIsNew);
      if !decided.Go? {
        return if decided.Die? then Die else Raise(decided.error);
      }
      if !decided.value.1.DecisionEvidence? {
        return Raise(CheckpointInvalid);
      }
      flow := FinishSession(session, answers, eod, data.value, decided.value.0, decided.value.1.decision);
    }

    /** What startup does about closes that died: it resumes the latest one, and only that. */
    method ResumeIncompleteClose(answers: P.Answers) returns (resumed: Option<Session>, failed: bool)
      requires Inv(World())
      modifies this
      ensures Inv(World()) && old(receipts) <= receipts && old(decisions) <= decisions
      ensures resumed.None? <==> forall s :: !Incomplete(old(receipts), s)
      ensures resumed.None? ==> World() == old(World()) && !failed
      ensures resumed.Some? ==>
        && Incomplete(old(receipts), resumed.value)
        && (forall s :: Incomplete(old(receipts), s) ==> s <= resumed.value)
        && (!failed ==> Load(receipts, resumed.value, Completed).Some?)
    {
      hide Load, Inv, P.CloseRun;
      resumed := LatestIncompleteSession();
      failed := false;
      if resumed.Some? {
        CloseRunKeeps(World(), resumed.value, answers);
        var flow := CloseSession(resumed.value, answers);
        failed := !flow.Go?;
      }
    }
  }

  /** The greatest of some observed sessions. */
  method Latest(receipts: seq<Receipt>, sessions: set<Session>) returns (latest: Option<Session>)
    requires forall s :: s in sessions ==> Observed(receipts, s)
    ensures latest.None? ==> forall s :: s !in sessions
    ensures latest.Some? ==> latest.value in sessions && forall s :: s in sessions ==> s <= latest.value
  {
    latest := None;
    var i := 0;
    while i < |receipts|
      invariant 0 <= i <= |receipts|
      invariant latest.None? ==> forall r :: r in receipts[..i] ==> r.session !in sessions
      invariant latest.Some? ==> latest.value in sessions
      invariant latest.Some? ==>
        forall r :: r in receipts[..i] && r.session in sessions ==> r.session <= latest.value
    {
      assert receipts[..i + 1] == receipts[..i] + [receipts[i]];
      var s := receipts[i].session;
      if s in sessions && (latest.None? || s > latest.value) {
        latest := Some(s);
      }
      i := i + 1;
    }
    assert receipts[..i] == receipts;
  }

  lemma ObservedSnoc(receipts: seq<Receipt>, r: Receipt, session: Session)
    ensures Observed(receipts + [r], session) <==> Observed(receipts, session) || session == r.session
  {
    if Observed(receipts, session) {
      var q :| q in receipts && q.session == session;
      assert q in receipts + [r];
    }
    assert r in receipts + [r];
  }

  lemma OneStepPerIndex(i: nat)
    requires i < 6
    ensures forall s: Step :: Index(s) == i ==> s == STEP_ORDER[i]
  {
  }
}
