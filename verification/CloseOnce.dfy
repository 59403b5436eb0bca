/** How often a decision is applied to the account: an exact condition for each attempt,
    and runs on which an attempt is stuck or a decision is applied a second time. */
module CloseOnce {
  import opened Wrappers
  import opened CloseLedger
  import opened CloseProtocol
  import opened CloseInvariant
  import opened CloseTheorems
  import opened CloseProgress

  // ------------------------------------------------------ only the decision stage applies

  lemma MoveCounts(w: World, cause: Cause, after: Digest, d: Decision)
    ensures MovesOf(MoveAccount(w, cause, after).0.moves, d)
         == MovesOf(w.moves, d) + (if cause == Commit(d) && w.left > 0 then 1 else 0)
  {
    hide MovesOf, Returns, Stored, Reached;
    MoveSnoc(w.moves, Move(cause, w.account, after), d);
  }

  lemma ReconcileCounts(w: World, answer: Option<Reconciled>, d: Decision)
    ensures MovesOf(Reconcile(w, answer).0.moves, d) == MovesOf(w.moves, d)
  {
    hide MovesOf;
    if answer.Some? {
      MoveCounts(w, Sync, answer.value.account, d);
    }
  }

  lemma EodCounts(w: World, session: Session, answers: Answers, d: Decision)
    ensures MovesOf(EodStage(w, session, answers).0.moves, d) == MovesOf(w.moves, d)
  {
    hide MovesOf, Reconcile, Load, AppendCheck;
    ReconcileCounts(w, answers.eod, d);
  }

  lemma DataMovesNothing(w: World, session: Session, answers: Answers)
    ensures DataStage(w, session, answers).0.moves == w.moves
  {
    hide Load, AppendCheck;
  }

  lemma FinishMovesNothing(
    w: World, session: Session, answers: Answers, eod: Evidence, data: Evidence, count: nat, d: Decision
  )
    ensures FinishRun(w, session, answers, eod, data, count, d).0.moves == w.moves
  {
    hide Load, AppendCheck;
  }

  /** Whether deciding `session` in this state writes the account for `d`, given the life
      and the answers to get there. */
  predicate WouldApply(decisions: seq<Decision>, account: Digest, session: Session, answers: Answers, d: Decision)
    requires answers.decided.Some?
  {
    var existing := ForSession(decisions, session);
    if existing == [] then
      d == Decision(session, account, answers.decided.value.after, answers.decided.value.payload)
    else existing == [d] && account == d.before && d.before != d.after
  }

  lemma RecoverCounts(w: World, stored: Decision, recovery: Recovery, d: Decision)
    ensures var n := MovesOf(RecoverDecision(w, stored, recovery).0.moves, d) - MovesOf(w.moves, d);
      && 0 <= n <= 1
      && (recovery.Recovers? && w.left >= 1 ==>
            (n == 1 <==> stored == d && w.account == d.before && d.before != d.after))
      && (n == 1 ==> stored == d)
  {
    hide MovesOf;
    MoveCounts(w, Commit(stored), stored.after, d);
  }

  lemma CommitCounts(w: World, session: Session, answer: Option<Decided>, d: Decision)
    ensures var n := MovesOf(CommitDecision(w, session, answer).0.moves, d) - MovesOf(w.moves, d);
      && 0 <= n <= 1
      && (answer.Some? && w.left >= 2 ==>
            (n == 1 <==> d == Decision(session, w.account, answer.value.after, answer.value.payload)))
      && (n == 1 ==> d.session == session)
  {
    hide MovesOf, Returns, Stored, Reached;
    if answer.Some? && w.left > 0 {
      var made := Decision(session, w.account, answer.value.after, answer.value.payload);
      var note := Move(Store(made), w.account, w.account);
      var stored := w.(decisions := w.decisions + [made], moves := w.moves + [note], left := w.left - 1);
      MoveSnoc(w.moves, note, d);
      MoveCounts(stored, Commit(made), made.after, d);
    }
  }

  lemma PostCloseCounts(w: World, session: Session, answers: Answers, d: Decision)
    requires Unique(w.decisions)
    ensures var n := MovesOf(PostCloseDecision(w, session, answers).0.moves, d) - MovesOf(w.moves, d);
      && 0 <= n <= 1 && (n == 1 ==> d.session == session)
      && (Willing(answers) && w.left >= 2 ==>
            (n == 1 <==> WouldApply(w.decisions, w.account, session, answers, d)))
  {
    hide MovesOf, RecoverDecision, CommitDecision, ForSession;
    var existing := ForSession(w.decisions, session);
    assert |existing| <= 1;
    if existing == [] {
      CommitCounts(w, session, answers.decided, d);
    } else {
      assert existing == [existing[0]] && existing[0] in existing;
      RecoverCounts(w, existing[0], answers.recovery, d);
    }
  }

  lemma DecisionCounts(w: World, session: Session, answers: Answers, eodIsNew: bool, d: Decision)
    requires Inv(w)
    ensures var n := MovesOf(DecisionStage(w, session, answers, eodIsNew).0.moves, d) - MovesOf(w.moves, d);
      && 0 <= n <= 1 && (n == 1 ==> d.session == session)
      && (Load(w.receipts, session, DecisionCommitted).Some? ==> n == 0)
      && (Willing(answers) && w.left >= 4 && Load(w.receipts, session, DecisionCommitted).None? ==>
            (n == 1 <==> WouldApply(w.decisions, if eodIsNew then w.account else answers.again.value.account,
                                    session, answers, d)))
  {
    hide MovesOf, Load, AppendCheck, Reconcile, PostCloseDecision, ForSession, WouldApply,
      Ordered, Evidenced, Moved, Recorded;
    if Load(w.receipts, session, DecisionCommitted).None? {
      ReconcileKeeps(w, answers.again);
      ReconcileCounts(w, answers.again, d);
      if Willing(answers) && w.left >= 4 {
        ReconcileGoes(w, answers.again);
      }
      var ready := if eodIsNew then w else Reconcile(w, answers.again).0;
      PostCloseCounts(ready, session, answers, d);
    }
  }

  lemma DecideRunCounts(
    w: World, session: Session, answers: Answers, eodIsNew: bool, eod: Evidence, d: Decision
  )
    requires Inv(w) && Load(w.receipts, session, EodReconciled) == Some(eod) && eod.EodEvidence?
    ensures var n := MovesOf(DecideRun(w, session, answers, eodIsNew, eod).0.moves, d) - MovesOf(w.moves, d);
      && 0 <= n <= 1 && (n == 1 ==> d.session == session)
      && (Load(w.receipts, session, DecisionCommitted).Some? ==> n == 0)
      && (Willing(answers) && w.left >= 5 && Load(w.receipts, session, DecisionCommitted).None? ==>
            (n == 1 <==> WouldApply(w.decisions, if eodIsNew then w.account else answers.again.value.account,
                                    session, answers, d)))
  {
    hide Inv, MovesOf, Load, DataStage, DecisionStage, FinishRun, WouldApply;
    DataKeeps(w, session, answers);
    DataMovesNothing(w, session, answers);
    DataLeavesDecision(w, session, answers);
    var (validated, flow) := DataStage(w, session, answers);
    if flow.Go? {
      if Willing(answers) && w.left >= 5 {
        DataGoes(w, session, answers);
      }
      DecisionCounts(validated, session, answers, eodIsNew, d);
      var (decided, flow2) := DecisionStage(validated, session, answers, eodIsNew);
      if flow2.Go? && flow2.value.1.DecisionEvidence? {
        FinishMovesNothing(decided, session, answers, eod, flow.value, flow2.value.0, flow2.value.1.decision);
      }
    } else if Willing(answers) && w.left >= 5 {
      DataGoes(w, session, answers);
    }
  }

  lemma DataLeavesDecision(w: World, session: Session, answers: Answers)
    ensures Load(DataStage(w, session, answers).0.receipts, session, DecisionCommitted)
         == Load(w.receipts, session, DecisionCommitted)
  {
    hide Load;
    if answers.data.Some? {
      LoadSnoc(w.receipts, Receipt(session, DataValidated, DataEvidence(answers.data.value)), session,
               DecisionCommitted);
    }
  }

  lemma EodLeavesDecision(w: World, session: Session, answers: Answers)
    ensures Load(EodStage(w, session, answers).0.receipts, session, DecisionCommitted)
         == Load(w.receipts, session, DecisionCommitted)
  {
    hide Load;
    if answers.eod.Some? {
      var r := answers.eod.value;
      LoadSnoc(w.receipts, Receipt(session, EodReconciled, EodEvidence(r.id, r.snapshot)), session,
               DecisionCommitted);
    }
  }

  // ------------------------------------------------------------------- attempt by attempt

  /** What can be checked before an attempt: the decision is not recorded as committed, and
      the account the attempt will find is where the stored decision starts; or none is
      stored yet, and this is the one to be made. */
  predicate Applies(w: World, session: Session, answers: Answers, d: Decision)
    requires Willing(answers)
  {
    && Load(w.receipts, session, Completed).None?
    && Load(w.receipts, session, DecisionCommitted).None?
    && WouldApply(w.decisions, AccountAtDecision(w, session, answers), session, answers, d)
  }

  /** No attempt writes the account for a decision more than once, wherever it ends, and
      none does once the decision is recorded as committed. An attempt in which nobody
      raises and which lives for eleven writes does so exactly when the decision applies. */
  lemma AttemptAppliesExactly(w: World, session: Session, answers: Answers, d: Decision)
    requires Inv(w)
    ensures var n := MovesOf(CloseRun(w, session, answers).0.moves, d) - MovesOf(w.moves, d);
      && 0 <= n <= 1 && (n == 1 ==> d.session == session)
      && (Load(w.receipts, session, DecisionCommitted).Some? ==> n == 0)
      && (Willing(answers) && w.left >= 11 ==> (n == 1 <==> Applies(w, session, answers, d)))
  {
    hide Inv, MovesOf, Load, EodStage, DecideRun, WouldApply;
    if Load(w.receipts, session, Completed).None? {
      EodKeeps(w, session, answers);
      EodCounts(w, session, answers, d);
      EodLeavesDecision(w, session, answers);
      var (reconciled, flow) := EodStage(w, session, answers);
      if Willing(answers) && w.left >= 11 {
        EodGoes(w, session, answers);
      }
      if flow.Go? {
        DecideRunCounts(reconciled, session, answers, Load(w.receipts, session, EodReconciled).None?, flow.value, d);
      }
    }
  }

  lemma AppliedIsRecorded(w: World, session: Session, answers: Answers, d: Decision)
    requires Inv(w) && Willing(answers) && w.left >= 11 && Applies(w, session, answers, d)
    ensures Load(CloseRun(w, session, answers).0.receipts, session, DecisionCommitted).Some?
  {
    hide Load, CloseRun, Ordered, Evidenced, Moved, Recorded, ForSession;
    var account := AccountAtDecision(w, session, answers);
    assert Passes(w.decisions, session, account) by {
      var existing := ForSession(w.decisions, session);
      assert existing == [] || existing == [d];
    }
    CompletesExactly(w, session, answers);
    CloseRunKeeps(w, session, answers);
    CompletedRepeatsEvidence(CloseRun(w, session, answers).0, session);
  }

  // ---------------------------------------------------------------------------- whole runs

  /** A decision recorded as committed is never applied again, whatever happens. */
  lemma {:induction false} RecordedIsFinal(w: World, schedule: seq<Happening>, session: Session, d: Decision)
    requires Inv(w) && d.session == session && Load(w.receipts, session, DecisionCommitted).Some?
    ensures var v := Play(w, schedule, session).0;
      && MovesOf(v.moves, d) == MovesOf(w.moves, d)
      && Load(v.receipts, session, DecisionCommitted) == Load(w.receipts, session, DecisionCommitted)
  {
    hide Inv, MovesOf, Load, CloseRun;
    if schedule != [] {
      var init := schedule[..|schedule| - 1];
      RecordedIsFinal(w, init, session, d);
      HappeningCounts(Play(w, init, session).0, schedule[|schedule| - 1], session, d);
      PlaySnoc(w, schedule, session);
    }
  }

  /** The durable state one happening leads to. */
  ghost function Next(w: World, h: Happening): World {
    match h
    case Attempt(s, answers, writes) => CloseRun(Started(w, writes), s, answers).0
    case Elsewhere(account) => MoveAccount(Started(w, 1), Sync, account).0
  }

  lemma PlaySnoc(w: World, schedule: seq<Happening>, session: Session)
    requires Inv(w) && schedule != []
    ensures Play(w, schedule, session).0
         == Next(Play(w, schedule[..|schedule| - 1], session).0, schedule[|schedule| - 1])
  {
    hide Inv, CloseRun, MoveAccount;
  }

  lemma HappeningCounts(w: World, h: Happening, session: Session, d: Decision)
    requires Inv(w) && d.session == session
    ensures var n := MovesOf(Next(w, h).moves, d) - MovesOf(w.moves, d);
      var recorded := Load(w.receipts, session, DecisionCommitted);
      && 0 <= n <= 1
      && (recorded.Some? || !h.Attempt? || h.session != session ==> n == 0)
      && (recorded.Some? ==> Load(Next(w, h).receipts, session, DecisionCommitted) == recorded)
  {
    hide Inv, MovesOf, Load, CloseRun;
    match h
    case Attempt(s, answers, writes) =>
      StartedKeeps(w, writes);
      AttemptAppliesExactly(Started(w, writes), s, answers, d);
      CloseRunKeeps(Started(w, writes), s, answers);
      if Load(w.receipts, session, DecisionCommitted).Some? {
        LoadLasts(w.receipts, Next(w, h).receipts, session, DecisionCommitted);
      }
    case Elsewhere(account) => MoveCounts(Started(w, 1), Sync, account, d);
  }

  /** In an attempt at this session nobody raises, and it lives to its end. */
  predicate Living(h: Happening, session: Session) {
    h.Attempt? && h.session == session ==> Willing(h.answers) && h.writes >= 11
  }

  /** The attempt at this place of a schedule finds the decision to apply. */
  ghost predicate AppliesAt(w: World, schedule: seq<Happening>, i: nat, session: Session, d: Decision)
    requires Inv(w) && i < |schedule|
  {
    var h := schedule[i];
    && h.Attempt? && h.session == session && Willing(h.answers)
    && Applies(Started(Play(w, schedule[..i], session).0, h.writes), session, h.answers, d)
  }

  /** However crashed attempts left things: while attempts live, and whatever others write,
      a decision is applied once more exactly when some attempt finds it to apply, and
      never twice. */
  lemma {:induction false} LivingRunsApplyOnce(w: World, schedule: seq<Happening>, session: Session, d: Decision)
    requires Inv(w) && d.session == session
    requires forall i :: 0 <= i < |schedule| ==> Living(schedule[i], session)
    ensures var v := Play(w, schedule, session).0;
      var n := MovesOf(v.moves, d) - MovesOf(w.moves, d);
      && 0 <= n <= 1
      && (n == 1 <==> exists i :: 0 <= i < |schedule| && AppliesAt(w, schedule, i, session, d))
      && (n == 1 ==> Load(v.receipts, session, DecisionCommitted).Some?)
  {
    hide Inv, MovesOf, Load, Applies, Willing, Next, Play;
    if schedule == [] {
      PlayNothing(w, session);
    } else {
      var k := |schedule| - 1;
      var (init, h) := (schedule[..k], schedule[k]);
      LivingRunsApplyOnce(w, init, session, d);
      PlaySnoc(w, schedule, session);
      var before := Play(w, init, session).0;
      HappeningCounts(before, h, session, d);
      LastApplies(w, schedule, session, d);
      forall i | 0 <= i < k ensures AppliesAt(w, schedule, i, session, d) <==> AppliesAt(w, init, i, session, d) {
        assert schedule[..i] == init[..i];
      }
    }
  }

  lemma PlayNothing(w: World, session: Session)
    requires Inv(w)
    ensures Play(w, [], session).0 == w
  {
  }

  lemma LastApplies(w: World, schedule: seq<Happening>, session: Session, d: Decision)
    requires Inv(w) && schedule != [] && Living(schedule[|schedule| - 1], session) && d.session == session
    ensures var k := |schedule| - 1;
      var before := Play(w, schedule[..k], session).0;
      var after := Next(before, schedule[k]);
      && (MovesOf(after.moves, d) == MovesOf(before.moves, d) + 1 <==> AppliesAt(w, schedule, k, session, d))
      && (AppliesAt(w, schedule, k, session, d) ==>
            && Load(before.receipts, session, DecisionCommitted).None?
            && Load(after.receipts, session, DecisionCommitted).Some?)
  {
    hide Inv, MovesOf, Load, Willing, Play, CloseRun;
    var k := |schedule| - 1;
    var (before, h) := (Play(w, schedule[..k], session).0, schedule[k]);
    HappeningCounts(before, h, session, d);
    if h.Attempt? && h.session == session {
      StartedKeeps(before, h.writes);
      AttemptAppliesExactly(Started(before, h.writes), session, h.answers, d);
      if Applies(Started(before, h.writes), session, h.answers, d) {
        AppliedIsRecorded(Started(before, h.writes), session, h.answers, d);
      }
    }
  }

  // ------------------------------------------------------------------------- concrete runs

  const MADE := Decision(1, "a", "b", "p")

  function EmptyWorld(): World { World([], [], "a", [], [], {}, 0) }

  /** Nobody raises, and the broker's account is `account` when asked again. */
  function Asked(account: Digest): Answers {
    Answers(Some(Reconciled("r", "s", "a", true)), Some("m"), Some(Reconciled("r", "s", account, true)),
            Some(Decided("b", "p")), Recovers, Some("d"), true, Some("k"))
  }

  lemma EmptyInv()
    ensures Inv(EmptyWorld())
  {
  }

  /** What an attempt leaves that dies right after the decision was stored, or right after
      the account was written. */
  function Crashed(writes: nat): World {
    var stored := [] + [Move(Store(MADE), "a", "a")];
    World([] + [Receipt(1, EodReconciled, EodEvidence("r", "s"))] + [Receipt(1, DataValidated, DataEvidence("m"))],
          [] + [MADE], if writes == 5 then "b" else "a",
          if writes == 5 then stored + [Move(Commit(MADE), "a", "b")] else stored, [] + ["r"], {}, 0)
  }

  lemma ReceiptsSoFar()
    ensures var one := [] + [Receipt(1, EodReconciled, EodEvidence("r", "s"))];
      var two := one + [Receipt(1, DataValidated, DataEvidence("m"))];
      && (forall step: Step :: Load([], 1, step).None?)
      && (forall step: Step :: Load(one, 1, step).Some? <==> step == EodReconciled)
      && (forall step: Step :: Load(two, 1, step).Some? <==> step == EodReconciled || step == DataValidated)
  {
    hide Load;
    var first := Receipt(1, EodReconciled, EodEvidence("r", "s"));
    forall step: Step
      ensures Load([], 1, step).None?
      ensures Load([] + [first], 1, step).Some? <==> step == EodReconciled
      ensures Load([] + [first] + [Receipt(1, DataValidated, DataEvidence("m"))], 1, step).Some?
         <==> step == EodReconciled || step == DataValidated
    {
      LoadEmpty(1, step);
      LoadSnoc([], first, 1, step);
      LoadSnoc([] + [first], Receipt(1, DataValidated, DataEvidence("m")), 1, step);
    }
  }

  lemma FirstAttemptDies(writes: nat)
    requires 4 <= writes <= 5
    ensures CloseRun(Started(EmptyWorld(), writes), 1, Asked("a")).0 == Crashed(writes)
  {
    hide Load, ForSession;
    ReceiptsSoFar();
    StepOrder();
    var w := Started(EmptyWorld(), writes);
    var one := [] + [Receipt(1, EodReconciled, EodEvidence("r", "s"))];
    var reconciled := World(one, [], "a", [], [] + ["r"], {}, (writes - 2) as nat);
    assert EodStage(w, 1, Asked("a")) == (reconciled, Go(EodEvidence("r", "s")));
    var validated := reconciled.(
      receipts := one + [Receipt(1, DataValidated, DataEvidence("m"))], left := (writes - 3) as nat);
    assert DataStage(reconciled, 1, Asked("a")) == (validated, Go(DataEvidence("m")));
    assert ForSession([], 1) == [] by { NoneForSession(); }
    assert PostCloseDecision(validated, 1, Asked("a")) == (Crashed(writes), Die);
  }

  lemma StepOrder()
    ensures Index(EodReconciled) == 0 && Index(DataValidated) == 1
    ensures forall s: Step :: Index(s) < 1 ==> s == EodReconciled
  {
  }

  lemma NoneForSession()
    ensures ForSession([], 1) == []
  {
  }

  lemma CrashedFacts(writes: nat)
    requires 4 <= writes <= 5
    ensures Inv(EmptyWorld())
    ensures Play(EmptyWorld(), [Attempt(1, Asked("a"), writes)], 1).0 == Crashed(writes)
    ensures Inv(Crashed(writes)) && ForSession(Crashed(writes).decisions, 1) == [MADE]
    ensures MovesOf(Crashed(writes).moves, MADE) == writes - 4
  {
    hide Inv, ForSession, CloseRun, Returns, Stored, Reached, MovesOf;
    EmptyInv();
    FirstAttemptDies(writes);
    var schedule := [Attempt(1, Asked("a"), writes)];
    assert schedule[..0] == [];
    PlayNothing(EmptyWorld(), 1);
    PlaySnoc(EmptyWorld(), schedule, 1);
    NoneForSession();
    ForSessionSnoc([], MADE, 1);
    MoveSnoc([], Move(Store(MADE), "a", "a"), MADE);
    MoveSnoc([] + [Move(Store(MADE), "a", "a")], Move(Commit(MADE), "a", "b"), MADE);
    NoMoves();
  }

  lemma NoMoves()
    ensures MovesOf([], MADE) == 0
  {
  }

  /** A run from an empty ledger on which a decision is applied twice: the first attempt
      dies after its account write, the second finds the broker's account where it was. */
  lemma DecisionAppliedTwice()
    ensures Inv(EmptyWorld())
    ensures var run := [Attempt(1, Asked("a"), 5), Attempt(1, Asked("a"), 11)];
      var v := Play(EmptyWorld(), run, 1).0;
      MovesOf(v.moves, MADE) == 2 && Load(v.receipts, 1, DecisionCommitted).Some?
  {
    hide MovesOf, ForSession, CloseRun, Load, Inv, Play;
    EmptyInv();
    CrashedFacts(5);
    var run := [Attempt(1, Asked("a"), 5), Attempt(1, Asked("a"), 11)];
    assert run[..1] == [Attempt(1, Asked("a"), 5)];
    PlaySnoc(EmptyWorld(), run, 1);
    var w := Started(Crashed(5), 11);
    StartedKeeps(Crashed(5), 11);
    ReceiptsSoFar();
    AttemptAppliesExactly(w, 1, Asked("a"), MADE);
    AppliedIsRecorded(w, 1, Asked("a"), MADE);
  }

  /** A run from an empty ledger into a close that no attempt gets through while the
      broker's account is neither where the decision starts nor where it leads. */
  lemma CloseStuck(answers: Answers, writes: nat)
    requires Willing(answers) && answers.again.value.account !in {"a", "b"} && writes >= 11
    ensures Inv(EmptyWorld())
    ensures var w := Play(EmptyWorld(), [Attempt(1, Asked("a"), 4)], 1).0;
      !CloseRun(Started(w, writes), 1, answers).1.Go?
  {
    hide MovesOf, ForSession, CloseRun, Load, Inv, Play;
    EmptyInv();
    CrashedFacts(4);
    var w := Started(Crashed(4), writes);
    StartedKeeps(Crashed(4), writes);
    ReceiptsSoFar();
    CompletesExactly(w, 1, answers);
    assert MADE in ForSession(w.decisions, 1);
  }
}
