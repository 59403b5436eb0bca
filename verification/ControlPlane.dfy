/** The inbox and the executor together: requests are run by the executor, recorded in the
    inbox, and run again by a later process where one died in between. */
module ControlPlane {
  import opened Wrappers
  import opened ControlFacts
  import opened InboxFacts
  import opened RuntimeStates
  import C = ControlConvergence
  import I = ControlInbox
  import P = ControlProtocol
  import S = ControlService

  // ------------------------------------------------------- a command writes only its own audit

  lemma MoveCounts(
    p: P.Progress, target: RuntimeState, reason: string, blockers: set<string>, id: P.AuditId
  )
    requires id.OfCommand?
    ensures C.CountAudits(P.MoveTo(p, target, reason, blockers).db.audits, id) == C.CountAudits(p.db.audits, id)
  {
    hide C.CountAudits;
    var next := Transition(p.db.status, target, reason, blockers);
    if next.Ok? {
      var r := next.value.revision;
      C.AuditSnoc(p.db.audits, P.OfTransition(r), id);
      C.AuditSnoc(p.db.audits, P.OfHaltRevocation(r), id);
      C.AuditSnoc(p.db.audits + [P.OfHaltRevocation(r)], P.OfTransition(r), id);
      assert p.db.audits + [] == p.db.audits;
    }
  }

  lemma AuditCounts(p: P.Progress, audit: P.AuditId, id: P.AuditId)
    requires id != audit
    ensures C.CountAudits(P.AuditOnce(p, audit).db.audits, id) == C.CountAudits(p.db.audits, id)
  {
    hide C.CountAudits;
    C.AuditSnoc(p.db.audits, audit, id);
  }

  lemma HaltCounts(db: P.Db, request: RequestId, now: Time, id: P.AuditId)
    requires id.OfCommand? && id != P.OfCommand(HaltCommand, request)
    ensures C.CountAudits(P.Halt(db, request, now).db.audits, id) == C.CountAudits(db.audits, id)
  {
    hide C.CountAudits, P.MoveTo, P.AuditOnce;
    var p1 := P.Revoke(P.Begin(db));
    MoveCounts(p1, Disarmed, "stop completed before emergency halt", {}, id);
    var p2 := P.MoveFrom(p1, Stopping, Disarmed, "stop completed before emergency halt", {});
    MoveCounts(p2, Starting, "local emergency halt control", {}, id);
    var p3 := P.MoveFrom(p2, Disarmed, Starting, "local emergency halt control", {});
    var blockers := p3.db.status.blockers + {P.KILL_SWITCH};
    MoveCounts(p3, Halted, "local emergency halt", blockers, id);
    var p4 := P.MoveTo(p3, Halted, "local emergency halt", blockers);
    AuditCounts(P.TripOnce(p4, request, now), P.OfCommand(HaltCommand, request), id);
  }

  lemma DisarmCounts(db: P.Db, request: RequestId, id: P.AuditId)
    requires id.OfCommand? && id != P.OfCommand(DisarmCommand, request)
    ensures C.CountAudits(P.Disarm(db, request).db.audits, id) == C.CountAudits(db.audits, id)
  {
    hide C.CountAudits, P.MoveTo, P.AuditOnce;
    var p1 := P.Revoke(P.Begin(db));
    MoveCounts(p1, Stopping, "local disarm requested", p1.db.status.blockers, id);
    var p2 :=
      if p1.db.status.state.Disarmed? || p1.db.status.state.Stopping? then p1
      else P.MoveTo(p1, Stopping, "local disarm requested", p1.db.status.blockers);
    var kept := P.OnlyKillSwitch(p2.db.status.blockers);
    MoveCounts(p2, Disarmed, "local disarm completed", kept, id);
    AuditCounts(P.MoveFrom(p2, Stopping, Disarmed, "local disarm completed", kept),
                P.OfCommand(DisarmCommand, request), id);
  }

  lemma StopCounts(db: P.Db, request: RequestId, id: P.AuditId)
    requires id.OfCommand? && id != P.OfCommand(StopCommand, request)
    ensures C.CountAudits(P.Stop(db, request).db.audits, id) == C.CountAudits(db.audits, id)
  {
    hide C.CountAudits, P.MoveTo, P.AuditOnce;
    var p1 := P.Revoke(P.Begin(db));
    MoveCounts(p1, Starting, "local stop control", {}, id);
    var p2 := P.MoveFrom(p1, Disarmed, Starting, "local stop control", {});
    MoveCounts(p2, Stopping, "local stop requested", p2.db.status.blockers, id);
    var p3 :=
      if p2.db.status.state.Stopping? then p2
      else P.MoveTo(p2, Stopping, "local stop requested", p2.db.status.blockers);
    AuditCounts(p3, P.OfCommand(StopCommand, request), id);
  }

  /** Running a request leaves the audit rows of all others as they are, and its own at one
      at most; exactly one once it has ended. */
  lemma ExecuteCounts(db: P.Db, command: Command, request: RequestId, now: Time)
    ensures forall id: P.AuditId :: id.OfCommand? && id != P.OfCommand(command, request) ==>
      C.CountAudits(P.Execute(db, command, request, now).db.audits, id) == C.CountAudits(db.audits, id)
    ensures var (own, p) := (P.OfCommand(command, request), P.Execute(db, command, request, now));
      && (C.CountAudits(db.audits, own) <= 1 ==> C.CountAudits(p.db.audits, own) <= 1)
      && (p.end == Some(Go(())) ==> C.CountAudits(p.db.audits, own) >= 1)
  {
    hide C.CountAudits, P.Halt, P.Disarm, P.Stop, P.AuditOnce;
    forall id: P.AuditId | id.OfCommand? && id != P.OfCommand(command, request)
      ensures C.CountAudits(P.Execute(db, command, request, now).db.audits, id) == C.CountAudits(db.audits, id)
    {
      match command
      case HaltCommand => HaltCounts(db, request, now, id);
      case DisarmCommand => DisarmCounts(db, request, id);
      case CancelCommand => AuditCounts(P.Begin(db), P.OfCommand(CancelCommand, request), id);
      case StopCommand => StopCounts(db, request, id);
    }
    C.EveryAttempt(db, command, request, now);
    hide P.Execute, C.Target, C.TargetRows;
    C.AuditMembers(P.Execute(db, command, request, now).db.audits, P.OfCommand(command, request));
  }

  // ------------------------------------------------------------------------ both together

  /** No request has two audit rows for one command. */
  ghost predicate AtMostOne(audits: seq<P.AuditId>) {
    forall command, request :: C.CountAudits(audits, P.OfCommand(command, request)) <= 1
  }

  /** A request recorded as run has exactly one audit row for what it was run as. */
  ghost predicate AuditedOnce(k: ReceiptId, r: Receipt, audits: seq<P.AuditId>) {
    k.ForRequest? && r.outcome.Executed? ==>
      r.command.Some? && C.CountAudits(audits, P.OfCommand(r.command.value, k.id)) == 1
  }

  ghost predicate AllAudited(receipts: map<ReceiptId, Receipt>, audits: seq<P.AuditId>) {
    forall k :: k in receipts ==> AuditedOnce(k, receipts[k], audits)
  }

  lemma ServedAudited(
    receipts: map<ReceiptId, Receipt>, db: P.Db, request: Request, outcome: string, now: Time,
    stamp: ReceiptId -> Time
  )
    requires AllAudited(receipts, db.audits) && AtMostOne(db.audits) && ForRequest(request.id) !in receipts
    ensures var p := P.Execute(db, request.command, request.id, now);
      var r := Record(request, outcome, stamp);
      && AtMostOne(p.db.audits) && AllAudited(receipts, p.db.audits)
      && (p.end == Some(Go(())) ==> AllAudited(receipts[r.id := r], p.db.audits))
  {
    hide C.CountAudits, P.Execute;
    ExecuteCounts(db, request.command, request.id, now);
    var p := P.Execute(db, request.command, request.id, now);
    forall k | k in receipts ensures AuditedOnce(k, receipts[k], p.db.audits) {
      assert AuditedOnce(k, receipts[k], db.audits);
    }
    forall command, id
      ensures C.CountAudits(p.db.audits, P.OfCommand(command, id)) <= 1
    {
      assert C.CountAudits(db.audits, P.OfCommand(command, id)) <= 1;
    }
  }

  lemma RefusalsAudited(before: map<ReceiptId, Receipt>, after: map<ReceiptId, Receipt>, audits: seq<P.AuditId>)
    requires AllAudited(before, audits) && I.Extends(before, after) && I.OnlyRefusals(before, after)
    ensures AllAudited(after, audits)
  {
    hide C.CountAudits;
    forall k | k in after ensures AuditedOnce(k, after[k], audits) {
      if k in before {
        assert AuditedOnce(k, before[k], audits);
      }
    }
  }

  /** The one process that serves the inbox; another one takes over when it has died. */
  class ControlPlane {
    const inbox: I.ControlInbox
    const db: S.ControlDatabase

    ghost predicate Valid()
      reads this, inbox, db
    {
      inbox.Valid() && AtMostOne(db.audits) && AllAudited(inbox.receipts, db.audits)
    }

    constructor (host: string)
      ensures Valid() && fresh(inbox) && fresh(db)
    {
      inbox := new I.ControlInbox(host, 0);
      db := new S.ControlDatabase(0);
    }

    method Restart(fileOperations: nat, transactions: nat)
      requires Valid()
      modifies inbox, db
      ensures Valid()
    {
      inbox.Restart(fileOperations);
      db.writesLeft := transactions;
    }

    /** Has the executor run one request, and records it if the executor came to its end. */
    method Serve(request: Request, now: Time, stamp: ReceiptId -> Time) returns (end: I.Ending)
      requires Valid() && NamedFor(request.id) in inbox.inbox && ForRequest(request.id) !in inbox.receipts
      modifies inbox, db
      ensures Valid() && I.Extends(old(inbox.receipts), inbox.receipts)
      ensures inbox.calls == old(inbox.calls) + [request.id]
      ensures inbox.receipts.Keys <= old(inbox.receipts).Keys + {ForRequest(request.id)}
      ensures inbox.inbox == if end.Go? then old(inbox.inbox) - {NamedFor(request.id)} else old(inbox.inbox)
      ensures end.Go? ==>
        && ForRequest(request.id) in inbox.receipts && inbox.receipts[ForRequest(request.id)].outcome.Executed?
        && inbox.receipts[ForRequest(request.id)].command == Some(request.command)
    {
      hide AtMostOne, AllAudited, C.CountAudits, P.Halt, P.Disarm, P.Cancel, P.Stop;
      var outcome := "done";
      ServedAudited(inbox.receipts, db.Db(), request, outcome, now, stamp);
      match request.command {
        case HaltCommand => db.Halt(request.id, now);
        case DisarmCommand => db.Disarm(request.id);
        case CancelCommand => db.Cancel(request.id);
        case StopCommand => db.Stop(request.id);
      }
      var halts := !request.command.CancelCommand?;
      var answer :=
        if db.end == Some(Go(())) then Some(Execution(outcome, halts, request.command.StopCommand?)) else None;
      var r;
      end, r := inbox.RunOne(request, answer, stamp);
    }

    /** Consumes the inbox once: exactly the actionable requests not answered yet, halts first.
        However often processes died before, a request recorded as run was run to its end with
        exactly one audit row, and never is run again. */
    method ProcessPending(entries: seq<FileName>, now: Time, stamp: ReceiptId -> Time)
      returns (end: I.Ending, ghost batch: seq<Request>)
      requires Valid() && I.Lists(entries, inbox.inbox)
      modifies inbox, db
      ensures Valid() && I.Extends(old(inbox.receipts), inbox.receipts)
      ensures end.Go? ==> I.Chosen(batch, old(inbox.inbox), old(inbox.receipts), now, inbox.host)
      ensures end.Go? ==> inbox.inbox == map[] && ByUrgency(batch) && inbox.calls == old(inbox.calls) + I.Ids(batch)
      ensures end.Go? ==> forall r :: r in batch ==>
        && ForRequest(r.id) in inbox.receipts
        && C.CountAudits(db.audits, P.OfCommand(r.command, r.id)) == 1
    {
      hide AtMostOne, AllAudited, C.CountAudits, I.Waiting, I.Covers, I.Extends, I.Told, I.OnlyRefusals,
        I.AnyPoison, InOrder, ByUrgency, I.Chosen;
      batch := [];
      ghost var receipts0 := inbox.receipts;
      var screened, pending, rejected := inbox.Screen(entries, now, stamp);
      RefusalsAudited(receipts0, inbox.receipts, db.audits);
      if !screened.Go? {
        return screened, batch;
      }
      var ordered := Sort(pending);
      SortSorts(pending);
      I.SameMembers(pending, ordered, inbox.inbox, inbox.receipts);
      I.SameChosen(pending, ordered, old(inbox.inbox), old(inbox.receipts), now, inbox.host);
      InOrderExactly(ordered);
      batch := ordered;
      ghost var receipts1 := inbox.receipts;
      end := ServeAll(ordered, now, stamp);
      I.ExtendsChain(receipts0, receipts1, inbox.receipts);
      if end.Go? {
        forall r | r in batch
          ensures ForRequest(r.id) in inbox.receipts
          ensures C.CountAudits(db.audits, P.OfCommand(r.command, r.id)) == 1
        {
          RecordedOnce(inbox.receipts, db.audits, r);
        }
      }
    }

    method ServeAll(batch: seq<Request>, now: Time, stamp: ReceiptId -> Time) returns (end: I.Ending)
      requires Valid() && I.Waiting(batch, inbox.inbox, inbox.receipts) && I.Covers(batch, inbox.inbox)
      modifies inbox, db
      ensures Valid() && I.Extends(old(inbox.receipts), inbox.receipts)
      ensures end.Go? ==> inbox.inbox == map[] && inbox.calls == old(inbox.calls) + I.Ids(batch)
      ensures end.Go? ==> forall r :: r in batch ==> Ran(inbox.receipts, r)
    {
      hide AtMostOne, AllAudited, C.CountAudits, I.Waiting, I.Covers, I.Extends;
      var i := 0;
      assert batch[0..] == batch;
      I.ExtendsItself(inbox.receipts);
      while i < |batch|
        invariant 0 <= i <= |batch|
        invariant Valid() && I.Extends(old(inbox.receipts), inbox.receipts)
        invariant inbox.calls == old(inbox.calls) + I.Ids(batch)[..i]
        invariant I.Waiting(batch[i..], inbox.inbox, inbox.receipts) && I.Covers(batch[i..], inbox.inbox)
        invariant forall j :: 0 <= j < i ==> Ran(inbox.receipts, batch[j])
      {
        I.FirstWaits(batch[i..], inbox.inbox, inbox.receipts);
        ghost var inbox0, receipts0 := inbox.inbox, inbox.receipts;
        end := Serve(batch[i], now, stamp);
        I.ExtendsChain(old(inbox.receipts), receipts0, inbox.receipts);
        if !end.Go? {
          return;
        }
        RanLasts(batch, i, receipts0, inbox.receipts);
        assert I.Ids(batch)[..i + 1] == I.Ids(batch)[..i] + [batch[i].id];
        assert batch[i..][1..] == batch[i + 1..];
        I.RestWaits(batch[i..], inbox0, receipts0, inbox.receipts);
        i := i + 1;
      }
      assert batch[i..] == [];
      I.NothingLeft(inbox.inbox);
      end := Go(());
    }
  }

  ghost predicate Ran(receipts: map<ReceiptId, Receipt>, r: Request) {
    && ForRequest(r.id) in receipts && receipts[ForRequest(r.id)].outcome.Executed?
    && receipts[ForRequest(r.id)].command == Some(r.command)
  }

  lemma RanLasts(
    batch: seq<Request>, i: nat, before: map<ReceiptId, Receipt>, after: map<ReceiptId, Receipt>
  )
    requires i <= |batch| && I.Extends(before, after) && forall j :: 0 <= j < i ==> Ran(before, batch[j])
    ensures forall j :: 0 <= j < i ==> Ran(after, batch[j])
  {
  }

  lemma RecordedOnce(receipts: map<ReceiptId, Receipt>, audits: seq<P.AuditId>, r: Request)
    requires AllAudited(receipts, audits) && Ran(receipts, r)
    ensures C.CountAudits(audits, P.OfCommand(r.command, r.id)) == 1
  {
    assert AuditedOnce(ForRequest(r.id), receipts[ForRequest(r.id)], audits);
  }
}
