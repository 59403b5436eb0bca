/** What holds of the durable state after every single write of every run. */
module CloseInvariant {
  import opened Wrappers
  import opened CloseLedger
  import opened CloseProtocol

  function MovesOf(moves: seq<Move>, d: Decision): nat {
    if moves == [] then 0
    else
      MovesOf(moves[..|moves| - 1], d) + (if moves[|moves| - 1].cause == Commit(d) then 1 else 0)
  }

  /** Writes by others that bring the account back to where the decision started from,
      after it was applied. */
  function Returns(moves: seq<Move>, d: Decision): nat {
    if moves == [] then 0
    else
      var init, last := moves[..|moves| - 1], moves[|moves| - 1];
      Returns(init, d)
      + (if IsReturn(last, d) && MovesOf(init, d) > 0 then 1 else 0)
  }

  predicate IsReturn(m: Move, d: Decision) {
    m.cause != Commit(d) && m.before != d.before && m.after == d.before
  }

  predicate Stored(moves: seq<Move>, d: Decision) {
    exists m :: m in moves && m.cause == Store(d)
  }

  /** Since the decision was stored the account has stood at its after-hash. */
  predicate Reached(moves: seq<Move>, d: Decision) {
    moves != []
    && (var init, last := moves[..|moves| - 1], moves[|moves| - 1];
        Reached(init, d) || (last.after == d.after && (last.cause == Store(d) || Stored(init, d))))
  }

  predicate Chained(moves: seq<Move>, account: Digest) {
    moves == []
    || (var last := moves[|moves| - 1];
        last.after == account && Chained(moves[..|moves| - 1], last.before))
  }

  /** The decision on record for a session and the evidence of each step belong together. */
  ghost predicate Fits(
    receipts: seq<Receipt>, decisions: seq<Decision>, reconciliations: seq<Digest>, r: Receipt
  ) {
    match r.step
    case EodReconciled => r.evidence.EodEvidence? && r.evidence.reconciliation in reconciliations
    case DataValidated => r.evidence.DataEvidence?
    case DecisionCommitted =>
      r.evidence.DecisionEvidence? && ForSession(decisions, r.session) == [r.evidence.decision]
    case ReportPublished =>
      r.evidence.ReportEvidence?
      && Load(receipts, r.session, DecisionCommitted) == Some(DecisionEvidence(r.evidence.reportDecision))
    case BackupVerified =>
      r.evidence.BackupEvidence?
      && Load(receipts, r.session, DecisionCommitted) == Some(DecisionEvidence(r.evidence.backupDecision))
    case Completed =>
      && r.evidence.CompletedEvidence?
      && var e := r.evidence;
      && Load(receipts, r.session, DecisionCommitted) == Some(DecisionEvidence(e.closeDecision))
      && Load(receipts, r.session, ReportPublished)
         == Some(ReportEvidence(e.closeReport, e.closeDecision))
      && Load(receipts, r.session, BackupVerified)
         == Some(BackupEvidence(e.closeBackup, e.closeDecision))
      && (exists snapshot :: Load(receipts, r.session, EodReconciled)
            == Some(EodEvidence(e.closeReconciliation, snapshot)))
      && Load(receipts, r.session, DataValidated) == Some(DataEvidence(e.closeManifest))
  }

  ghost predicate Evidenced(receipts: seq<Receipt>, decisions: seq<Decision>, reconciliations: seq<Digest>) {
    forall r :: r in receipts ==> Fits(receipts, decisions, reconciliations, r)
  }

  ghost predicate Unique(decisions: seq<Decision>) {
    forall session :: |ForSession(decisions, session)| <= 1
  }

  /** A decision is applied once, and again only after somebody undid it. */
  predicate AppliedOnce(moves: seq<Move>, account: Digest, d: Decision) {
    MovesOf(moves, d) > 0 ==>
      && MovesOf(moves, d) <= 1 + Returns(moves, d)
      && (account == d.before && d.before != d.after ==> MovesOf(moves, d) <= Returns(moves, d))
  }

  ghost predicate Moved(moves: seq<Move>, account: Digest, decisions: seq<Decision>) {
    && Chained(moves, account)
    && (forall m :: m in moves && m.cause.Commit? ==>
          m.cause.decision in decisions
          && m.before == m.cause.decision.before && m.after == m.cause.decision.after)
    && (forall m :: m in moves && m.cause.Store? ==>
          m.cause.stored in decisions && m.before == m.after == m.cause.stored.before)
    && (forall d :: d in decisions ==> Stored(moves, d))
    && (forall d :: AppliedOnce(moves, account, d))
  }

  ghost predicate Recorded(receipts: seq<Receipt>, moves: seq<Move>) {
    forall r :: r in receipts && r.evidence.DecisionEvidence? ==> Reached(moves, r.evidence.decision)
  }

  ghost predicate Inv(w: World) {
    && Ordered(w.receipts)
    && Evidenced(w.receipts, w.decisions, w.reconciliations)
    && Unique(w.decisions)
    && Moved(w.moves, w.account, w.decisions)
    && Recorded(w.receipts, w.moves)
  }

  /** Nothing durable is ever taken back. */
  predicate Extends(w: World, v: World) {
    && w.receipts <= v.receipts
    && w.decisions <= v.decisions
    && w.moves <= v.moves
    && w.reconciliations <= v.reconciliations
    && w.audits <= v.audits
    && v.left <= w.left
  }

  // ---------------------------------------------------------------- one write at a time

  lemma FitsLasts(
    earlier: seq<Receipt>, later: seq<Receipt>, decisions: seq<Decision>,
    rs: seq<Digest>, more: seq<Digest>, r: Receipt
  )
    requires Fits(earlier, decisions, rs, r) && earlier <= later && rs <= more
    ensures Fits(later, decisions, more, r)
  {
    hide Load, ForSession;
    forall step: Step | Load(earlier, r.session, step).Some?
      ensures Load(later, r.session, step) == Load(earlier, r.session, step)
    {
      LoadLasts(earlier, later, r.session, step);
    }
  }

  lemma ReceiptKeeps(w: World, r: Receipt)
    requires Inv(w) && w.left > 0
    requires AppendCheck(w.receipts, r.session, r.step, r.evidence).Fresh?
    requires Fits(w.receipts, w.decisions, w.reconciliations, r)
    requires r.evidence.DecisionEvidence? ==> Reached(w.moves, r.evidence.decision)
    ensures Inv(w.(receipts := w.receipts + [r], left := w.left - 1))
  {
    hide AppendCheck, Fits, Ordered, Moved, Reached, ForSession;
    OrderedSnoc(w.receipts, r);
    forall q | q in w.receipts + [r]
      ensures Fits(w.receipts + [r], w.decisions, w.reconciliations, q)
    {
      FitsLasts(w.receipts, w.receipts + [r], w.decisions, w.reconciliations, w.reconciliations, q);
    }
  }

  lemma ReconciliationKeeps(w: World, id: Digest)
    requires Inv(w) && w.left > 0
    ensures Inv(w.(reconciliations := w.reconciliations + [id], left := w.left - 1))
  {
    hide Fits, Ordered, Moved, Reached, ForSession;
    forall q | q in w.receipts
      ensures Fits(w.receipts, w.decisions, w.reconciliations + [id], q)
    {
      FitsLasts(w.receipts, w.receipts, w.decisions, w.reconciliations, w.reconciliations + [id], q);
    }
  }

  lemma MoveSnoc(moves: seq<Move>, m: Move, d: Decision)
    ensures MovesOf(moves + [m], d) == MovesOf(moves, d) + (if m.cause == Commit(d) then 1 else 0)
    ensures Returns(moves + [m], d)
         == Returns(moves, d) + (if IsReturn(m, d) && MovesOf(moves, d) > 0 then 1 else 0)
    ensures Stored(moves, d) ==> Stored(moves + [m], d)
    ensures Reached(moves, d) ==> Reached(moves + [m], d)
    ensures Stored(moves, d) && m.after == d.after ==> Reached(moves + [m], d)
  {
    assert (moves + [m])[..|moves|] == moves;
    if Stored(moves, d) {
      var k :| k in moves && k.cause == Store(d);
      assert k in moves + [m];
    }
  }

  lemma MoveAppliesOnce(moves: seq<Move>, m: Move, d: Decision)
    requires AppliedOnce(moves, m.before, d)
    requires m.cause == Commit(d) ==>
      m.before == d.before && m.after == d.after && (d.before != d.after || MovesOf(moves, d) == 0)
    ensures AppliedOnce(moves + [m], m.after, d)
  {
    MoveSnoc(moves, m, d);
    hide MovesOf, Returns, Stored, Reached;
  }

  /** Anybody may move the account; a decision's own move needs it where it started. */
  lemma MoveKeeps(w: World, cause: Cause, after: Digest)
    requires Inv(w) && w.left > 0 && !cause.Store?
    requires cause.Commit? ==>
      var d := cause.decision;
      && d in w.decisions && w.account == d.before && after == d.after
      && (d.before != d.after || MovesOf(w.moves, d) == 0)
    ensures Inv(MoveAccount(w, cause, after).0)
  {
    hide MovesOf, Returns, Stored, Reached, Ordered, Evidenced, ForSession, AppliedOnce;
    var m := Move(cause, w.account, after);
    var moves := w.moves + [m];
    forall d ensures AppliedOnce(moves, after, d) {
      MoveAppliesOnce(w.moves, m, d);
    }
    forall d | d in w.decisions ensures Stored(moves, d) {
      MoveSnoc(w.moves, m, d);
    }
    assert moves[..|w.moves|] == w.moves;
    assert Moved(moves, after, w.decisions);
    RecordedLasts(w.receipts, w.moves, m);
  }

  lemma RecordedLasts(receipts: seq<Receipt>, moves: seq<Move>, m: Move)
    requires Recorded(receipts, moves)
    ensures Recorded(receipts, moves + [m])
  {
    hide Reached;
    forall r | r in receipts && r.evidence.DecisionEvidence? ensures Reached(moves + [m], r.evidence.decision) {
      MoveSnoc(moves, m, r.evidence.decision);
    }
  }

  lemma StoreKeeps(w: World, d: Decision)
    requires Inv(w) && w.left > 0 && ForSession(w.decisions, d.session) == [] && d.before == w.account
    ensures Inv(w.(decisions := w.decisions + [d], moves := w.moves + [Move(Store(d), w.account, w.account)],
                   left := w.left - 1))
    ensures MovesOf(w.moves + [Move(Store(d), w.account, w.account)], d) == 0
    ensures ForSession(w.decisions + [d], d.session) == [d]
  {
    hide Ordered, ForSession, Moved, Evidenced, Unique, Recorded, MovesOf;
    assert d !in w.decisions by {
      assert d in ForSession(w.decisions, d.session) <==> d in w.decisions;
    }
    StoreMoves(w, d);
    RecordedLasts(w.receipts, w.moves, Move(Store(d), w.account, w.account));
    ForSessionSnoc(w.decisions, d, d.session);
    StoreStaysUnique(w.receipts, w.decisions, w.reconciliations, d);
  }

  lemma StoreStaysUnique(
    receipts: seq<Receipt>, decisions: seq<Decision>, reconciliations: seq<Digest>, d: Decision
  )
    requires Unique(decisions) && Evidenced(receipts, decisions, reconciliations)
    requires ForSession(decisions, d.session) == []
    ensures Unique(decisions + [d]) && Evidenced(receipts, decisions + [d], reconciliations)
  {
    hide ForSession, Load;
    forall session
      ensures ForSession(decisions + [d], session)
           == if session == d.session then [d] else ForSession(decisions, session)
    {
      ForSessionSnoc(decisions, d, session);
    }
    forall r | r in receipts ensures Fits(receipts, decisions + [d], reconciliations, r) {
      assert Fits(receipts, decisions, reconciliations, r);
    }
  }

  lemma StoreMoves(w: World, d: Decision)
    requires Moved(w.moves, w.account, w.decisions) && d !in w.decisions && d.before == w.account
    ensures var moves := w.moves + [Move(Store(d), w.account, w.account)];
      Moved(moves, w.account, w.decisions + [d]) && MovesOf(moves, d) == 0
  {
    hide Returns, Reached, AppliedOnce;
    var m := Move(Store(d), w.account, w.account);
    var moves := w.moves + [m];
    assert moves[..|w.moves|] == w.moves;
    NeverMoved(w.moves, w.decisions, d);
    MoveSnoc(w.moves, m, d);
    hide MovesOf, Chained;
    forall e ensures AppliedOnce(moves, w.account, e) {
      MoveAppliesOnce(w.moves, m, e);
    }
    forall e | e in w.decisions + [d] ensures Stored(moves, e) {
      MoveSnoc(w.moves, m, e);
      assert m in moves;
    }
    assert Chained(moves, w.account) by {
      ChainedSnoc(w.moves, m);
    }
  }

  lemma ChainedSnoc(moves: seq<Move>, m: Move)
    requires Chained(moves, m.before)
    ensures Chained(moves + [m], m.after)
  {
    assert (moves + [m])[..|moves|] == moves;
  }

  lemma ForSessionSnoc(decisions: seq<Decision>, d: Decision, session: Session)
    ensures ForSession(decisions + [d], session)
         == if d.session == session then ForSession(decisions, session) + [d]
            else ForSession(decisions, session)
  {
    assert (decisions + [d])[..|decisions|] == decisions;
  }

  lemma {:induction false} NeverMoved(moves: seq<Move>, decisions: seq<Decision>, d: Decision)
    requires forall m :: m in moves && m.cause.Commit? ==> m.cause.decision in decisions
    requires d !in decisions
    ensures MovesOf(moves, d) == 0
  {
    if moves != [] {
      NeverMoved(moves[..|moves| - 1], decisions, d);
      assert moves[|moves| - 1] in moves;
    }
  }
}
