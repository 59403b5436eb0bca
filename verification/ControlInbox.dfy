/** The control inbox over two directories, consumed by one process that may die after any
    file operation, and between running a request and recording it. */
module ControlInbox {
  import opened Wrappers
  import opened ControlFacts
  import opened InboxFacts

  type Ending = Flow<(), InboxError>

  function Count(s: seq<RequestId>, id: RequestId): nat {
    if s == [] then 0 else Count(s[..|s| - 1], id) + (if s[|s| - 1] == id then 1 else 0)
  }

  lemma CountSnoc(s: seq<RequestId>, x: RequestId, id: RequestId)
    ensures Count(s + [x], id) == Count(s, id) + (if x == id then 1 else 0)
  {
    assert (s + [x])[..|s|] == s;
  }

  function Ids(rs: seq<Request>): (ids: seq<RequestId>)
    ensures |ids| == |rs| && forall i :: 0 <= i < |rs| ==> ids[i] == rs[i].id
  {
    seq(|rs|, i requires 0 <= i < |rs| => rs[i].id)
  }

  /** Nothing recorded is lost or changed. */
  predicate Extends(before: map<ReceiptId, Receipt>, after: map<ReceiptId, Receipt>) {
    forall k :: k in before ==> k in after && after[k] == before[k]
  }

  /** Every request that was queued is waiting or answered. */
  ghost predicate Kept(
    enqueued: set<RequestId>, inbox: map<FileName, Content>, receipts: map<ReceiptId, Receipt>
  ) {
    forall id :: id in enqueued ==> NamedFor(id) in inbox || ForRequest(id) in receipts
  }

  /** A request has been run once for its receipt, and once more for every run that was lost:
      the handler raised, or the process ended before the run was recorded. */
  predicate Accounted(
    calls: seq<RequestId>, lost: seq<RequestId>, receipts: map<ReceiptId, Receipt>, id: RequestId
  ) {
    Count(calls, id) == Count(lost, id)
      + (if ForRequest(id) in receipts && receipts[ForRequest(id)].outcome.Executed? then 1 else 0)
  }

  ghost predicate AllAccounted(
    calls: seq<RequestId>, lost: seq<RequestId>, receipts: map<ReceiptId, Receipt>
  ) {
    forall id :: Accounted(calls, lost, receipts, id)
  }

  /** A receipt that records no run leaves the account as it is. */
  lemma RefusalAccounted(
    calls: seq<RequestId>, lost: seq<RequestId>, receipts: map<ReceiptId, Receipt>, r: Receipt
  )
    requires AllAccounted(calls, lost, receipts) && r.id !in receipts && r.outcome.Refused?
    ensures AllAccounted(calls, lost, receipts[r.id := r])
  {
    hide Count;
    var after := receipts[r.id := r];
    forall id ensures Accounted(calls, lost, after, id) {
      assert Accounted(calls, lost, receipts, id);
    }
  }

  lemma RunAccounted(
    calls: seq<RequestId>, lost: seq<RequestId>, receipts: map<ReceiptId, Receipt>, r: Receipt, id: RequestId
  )
    requires AllAccounted(calls, lost, receipts) && r.id == ForRequest(id) && r.id !in receipts
    requires r.outcome.Executed?
    ensures AllAccounted(calls + [id], lost, receipts[r.id := r])
    ensures AllAccounted(calls + [id], lost + [id], receipts)
  {
    var after, called, missed := receipts[r.id := r], calls + [id], lost + [id];
    forall other
      ensures Accounted(called, lost, after, other) && Accounted(called, missed, receipts, other)
    {
      assert Accounted(calls, lost, receipts, other);
      CountSnoc(calls, id, other);
      CountSnoc(lost, id, other);
    }
    assert AllAccounted(called, lost, after) && AllAccounted(called, missed, receipts);
  }

  class ControlInbox {
    var inbox: map<FileName, Content>
    var receipts: map<ReceiptId, Receipt>
    const host: string
    var writesLeft: nat
    // History: what was queued, what the handler was run for, and the runs that raised or
    // whose process ended before the receipt was written.
    ghost var enqueued: set<RequestId>
    ghost var calls: seq<RequestId>
    ghost var lost: seq<RequestId>

    ghost predicate Valid()
      reads this
    {
      && Kept(enqueued, inbox, receipts)
      && AllAccounted(calls, lost, receipts)
    }

    constructor (host: string, writesLeft: nat)
      ensures Valid() && inbox == map[] && receipts == map[]
      ensures this.host == host && this.writesLeft == writesLeft
    {
      this.host, this.writesLeft := host, writesLeft;
      inbox, receipts, enqueued, calls, lost := map[], map[], {}, [], [];
    }

    /** Another process takes over the directories, to live for so many file operations. */
    method Restart(writes: nat)
      requires Valid()
      modifies `writesLeft
      ensures Valid() && writesLeft == writes
    {
      writesLeft := writes;
    }

    /** Queues a request once: again with the same contents it is answered already or
        still waiting. */
    method Enqueue(
      id: RequestId, command: Command, created: Time, ttl: int, reasonDigest: Option<string>
    ) returns (end: Flow<Request, InboxError>)
      requires Valid()
      modifies `inbox, `writesLeft, `enqueued
      ensures Valid()
      ensures end == Raise(TtlInvalid) <==> !(0 < ttl <= MAX_TTL)
      ensures end.Go? ==> end.value == Request(id, command, created, created + ttl, host, reasonDigest)
      ensures end.Go? ==> id in enqueued && enqueued == old(enqueued) + {id}
      ensures !end.Go? ==> inbox == old(inbox)
      ensures ForRequest(id) in receipts ==> inbox == old(inbox) && !end.Die?
      ensures ForRequest(id) in receipts && end.Raise? ==> end.error in {TtlInvalid, RequestIdCollision}
      ensures ForRequest(id) !in receipts && end.Go? ==>
        NamedFor(id) !in old(inbox) && inbox == old(inbox)[NamedFor(id) := Queued(end.value)]
      ensures 0 < ttl <= MAX_TTL && ForRequest(id) !in receipts && NamedFor(id) in old(inbox) ==>
        end == Raise(AlreadyQueued)
      ensures 0 < ttl <= MAX_TTL && ForRequest(id) !in receipts && NamedFor(id) !in old(inbox) ==>
        if old(writesLeft) == 0 then end.Die? else end.Go? && writesLeft == old(writesLeft) - 1
    {
      if !(0 < ttl <= MAX_TTL) {
        return Raise(TtlInvalid);
      }
      var request := Request(id, command, created, created + ttl, host, reasonDigest);
      if ForRequest(id) in receipts {
        if receipts[ForRequest(id)].request != OfContent(Queued(request)) {
          return Raise(RequestIdCollision);
        }
        enqueued := enqueued + {id};
        return Go(request);
      }
      if NamedFor(id) in inbox {
        return Raise(AlreadyQueued);
      }
      if writesLeft == 0 {
        return Die;
      }
      inbox, writesLeft := inbox[NamedFor(id) := Queued(request)], writesLeft - 1;
      enqueued := enqueued + {id};
      return Go(request);
    }

    /** Writes a receipt once; one that is there already must be the same. */
    method WriteReceipt(r: Receipt) returns (end: Ending)
      modifies `receipts, `writesLeft
      ensures end.Go? ==> receipts == old(receipts)[r.id := r] && Extends(old(receipts), receipts)
      ensures !end.Go? ==> receipts == old(receipts) && writesLeft == old(writesLeft)
      ensures end.Raise? <==> r.id in old(receipts) && old(receipts)[r.id] != r
      ensures end.Raise? ==> end.error == ReceiptCollision
      ensures end.Die? <==> r.id !in old(receipts) && old(writesLeft) == 0
      ensures end.Go? ==> writesLeft == old(writesLeft) - if r.id in old(receipts) then 0 else 1
    {
      if r.id in receipts {
        if receipts[r.id] != r {
          return Raise(ReceiptCollision);
        }
        assert receipts == receipts[r.id := r];
        return Go(());
      }
      if writesLeft == 0 {
        return Die;
      }
      receipts, writesLeft := receipts[r.id := r], writesLeft - 1;
      return Go(());
    }

    method Unlink(name: FileName) returns (alive: bool)
      modifies `inbox, `writesLeft
      ensures alive <==> old(writesLeft) > 0
      ensures inbox == if alive then old(inbox) - {name} else old(inbox)
      ensures writesLeft == if alive then old(writesLeft) - 1 else old(writesLeft)
    {
      if writesLeft == 0 {
        return false;
      }
      inbox, writesLeft := inbox - {name}, writesLeft - 1;
      return true;
    }

    /** Answers a file with a refusal and removes it. */
    method Reject(name: FileName, reason: Reason, stamp: ReceiptId -> Time) returns (end: Ending, r: Receipt)
      requires Valid() && name in inbox
      modifies `inbox, `receipts, `writesLeft
      ensures Valid() && Extends(old(receipts), receipts)
      ensures forall k :: k in receipts && k !in old(receipts) ==> Owns(name, k)
      ensures r == Rejection(name, old(inbox)[name], reason, stamp)
      ensures OnlyRefusals(old(receipts), receipts)
      ensures end.Go? ==> inbox == old(inbox) - {name} && receipts == old(receipts)[r.id := r]
      ensures !end.Go? ==> inbox == old(inbox)
      ensures end.Raise? <==>
        && RejectionId(name, old(inbox)[name], reason) in old(receipts)
        && old(receipts)[RejectionId(name, old(inbox)[name], reason)]
           != Rejection(name, old(inbox)[name], reason, stamp)
      ensures end.Raise? ==> end.error == ReceiptCollision
      ensures old(writesLeft) >= 2 ==> !end.Die?
      ensures end.Go? ==> writesLeft >= old(writesLeft) - 2
    {
      r := Rejection(name, inbox[name], reason, stamp);
      if r.id !in receipts {
        RefusalAccounted(calls, lost, receipts, r);
      } else if receipts[r.id] == r {
        assert receipts[r.id := r] == receipts;
      }
      end := WriteReceipt(r);
      if !end.Go? {
        return;
      }
      var alive := Unlink(name);
      end := if alive then Go(()) else Die;
    }

    /** Looks at one file: refused, answered already, or to be run. */
    method ScreenOne(name: FileName, now: Time, stamp: ReceiptId -> Time)
      returns (end: Ending, kept: Option<Request>, refused: Option<Receipt>)
      requires Valid() && name in inbox
      modifies `inbox, `receipts, `writesLeft
      ensures Valid() && Extends(old(receipts), receipts)
      ensures forall k :: k in receipts && k !in old(receipts) ==> Owns(name, k)
      ensures end.Raise? <==> Poison(name, old(inbox)[name], old(receipts), now, host, stamp)
      ensures end.Go? && kept.None? ==> inbox == old(inbox) - {name}
      ensures end.Go? && kept.Some? ==>
        && inbox == old(inbox) && receipts == old(receipts)
        && name == NamedFor(kept.value.id) && inbox[name] == Queued(kept.value)
        && ForRequest(kept.value.id) !in receipts
        && Refusal(name, inbox[name], now, host).None?
      ensures Refusal(name, old(inbox)[name], now, host).None?
        && ForRequest(old(inbox)[name].request.id) !in old(receipts)
        ==> end.Go? && kept == Some(old(inbox)[name].request) && writesLeft == old(writesLeft)
      ensures end.Go? ==> Told(old(receipts), receipts, if refused.Some? then [refused.value] else [])
      ensures OnlyRefusals(old(receipts), receipts)
      ensures old(writesLeft) >= 2 ==> !end.Die?
      ensures end.Go? ==> writesLeft >= old(writesLeft) - 2
    {
      kept, refused := None, None;
      var content := inbox[name];
      var refusal := Refusal(name, content, now, host);
      if refusal.Some? {
        var r;
        end, r := Reject(name, refusal.value, stamp);
        refused := Some(r);
        return;
      }
      var request := content.request;
      if ForRequest(request.id) in receipts {
        if receipts[ForRequest(request.id)].request != OfContent(content) {
          var r;
          end, r := Reject(name, COLLISION, stamp);
          refused := Some(r);
          return;
        }
        var alive := Unlink(name);
        return if alive then Go(()) else Die, None, None;
      }
      return Go(()), Some(request), None;
    }

    /** The first pass over the directory, in whatever order it is listed. It raises at a
        poisoned file, and otherwise leaves only requests to run. */
    method Screen(entries: seq<FileName>, now: Time, stamp: ReceiptId -> Time)
      returns (end: Ending, pending: seq<Request>, rejected: seq<Receipt>)
      requires Valid() && Lists(entries, inbox)
      modifies `inbox, `receipts, `writesLeft
      ensures Valid() && Extends(old(receipts), receipts)
      ensures end.Go? ==>
        Waiting(pending, inbox, receipts) && Covers(pending, inbox) && |pending| <= |entries|
      ensures end.Go? ==> forall p :: p in pending ==>
        NamedFor(p.id) in old(inbox) && old(inbox)[NamedFor(p.id)] == Queued(p)
        && ForRequest(p.id) !in old(receipts)
      ensures end.Go? ==> Chosen(pending, old(inbox), old(receipts), now, host)
      ensures end.Go? ==> Told(old(receipts), receipts, rejected)
      ensures OnlyRefusals(old(receipts), receipts)
      ensures end.Go? ==> !AnyPoison(old(inbox), old(receipts), now, host, stamp)
      ensures end.Raise? ==> AnyPoison(old(inbox), old(receipts), now, host, stamp)
      ensures old(writesLeft) >= 2 * |entries| ==> !end.Die?
      ensures end.Go? ==> writesLeft >= old(writesLeft) - 2 * |entries|
    {
      hide Poison, Refusal, AllAccounted, Kept, Owns, Screened, Lists, OwnedBefore, Waiting, Covers, Extends,
        Told, OnlyRefusals, ToRun, ChosenSoFar;
      pending, rejected := [], [];
      NothingTold(receipts);
      assert OnlyRefusals(receipts, receipts) by { NothingRefused(receipts); }
      var i := 0;
      ScreenedStarts(entries, inbox, receipts);
      NoneChosen(entries, inbox, receipts, now, host);
      while i < |entries|
        invariant 0 <= i <= |entries| && |pending| <= i
        invariant Valid()
        invariant Screened(entries, i, old(inbox), old(receipts), inbox, receipts, pending)
        invariant forall m :: 0 <= m < i ==>
          !Poison(entries[m], old(inbox)[entries[m]], old(receipts), now, host, stamp)
        invariant writesLeft >= old(writesLeft) - 2 * i
        invariant Told(old(receipts), receipts, rejected)
        invariant OnlyRefusals(old(receipts), receipts)
        invariant ChosenSoFar(pending, entries, i, old(inbox), old(receipts), now, host)
      {
        var name := entries[i];
        ScreenedNext(entries, i, old(inbox), old(receipts), inbox, receipts, pending);
        PoisonUnmoved(entries, i, inbox[name], old(receipts), receipts, now, host, stamp);
        ghost var inbox0, receipts0 := inbox, receipts;
        var step, kept, refused := ScreenOne(name, now, stamp);
        ScreenedExtends(entries, i, old(inbox), old(receipts), inbox0, receipts0, pending);
        RefusalsChain(old(receipts), receipts0, receipts);
        if !step.Go? {
          ExtendsChain(old(receipts), receipts0, receipts);
          return step, pending, rejected;
        }
        ChosenNext(pending, entries, i, old(inbox), old(receipts), receipts0, now, host, kept);
        var told := if refused.Some? then [refused.value] else [];
        ToldMore(old(receipts), receipts0, receipts, rejected, told);
        rejected := rejected + told;
        if kept.Some? {
          ScreenedKeeps(entries, i, old(inbox), old(receipts), inbox, receipts, pending, kept.value);
          pending := pending + [kept.value];
        } else {
          ScreenedDrops(entries, i, old(inbox), old(receipts), inbox0, receipts0, pending, receipts);
        }
        i := i + 1;
      }
      ScreenedEnds(entries, old(inbox), old(receipts), inbox, receipts, pending);
      NoneIsPoison(entries, old(inbox), old(receipts), now, host, stamp);
      AllChosen(pending, entries, old(inbox), old(receipts), now, host);
      return Go(()), pending, rejected;
    }

    /** Runs one request and records it; None when the handler raises. */
    method RunOne(request: Request, answer: Option<Execution>, stamp: ReceiptId -> Time)
      returns (end: Ending, r: Receipt)
      requires Valid() && NamedFor(request.id) in inbox && ForRequest(request.id) !in receipts
      modifies `inbox, `receipts, `writesLeft, `calls, `lost
      ensures Valid() && Extends(old(receipts), receipts)
      ensures calls == old(calls) + [request.id]
      ensures answer.Some? ==> r == Record(request, answer.value.outcome, stamp)
      ensures receipts == if answer.Some? && old(writesLeft) >= 1 then old(receipts)[r.id := r] else old(receipts)
      ensures inbox == if answer.Some? && old(writesLeft) >= 2 then old(inbox) - {NamedFor(request.id)} else old(inbox)
      ensures end.Go? ==> answer.Some? && old(writesLeft) >= 2
      ensures end.Raise? <==> answer.None?
      ensures end.Raise? ==> end.error == HandlerRaised
      ensures answer.Some? && old(writesLeft) >= 2 ==> end.Go?
      ensures end.Go? ==> writesLeft >= old(writesLeft) - 2
    {
      r := Record(request, if answer.Some? then answer.value.outcome else "", stamp);
      RunAccounted(calls, lost, receipts, r, request.id);
      calls := calls + [request.id];
      if answer.None? {
        lost := lost + [request.id];
        return Raise(HandlerRaised), r;
      }
      end := WriteReceipt(r);
      if !end.Go? {
        lost := lost + [request.id];
        return;
      }
      var alive := Unlink(NamedFor(request.id));
      end := if alive then Go(()) else Die;
    }

    /** The second pass: the batch in order, each request run and recorded before the next. */
    method RunBatch(batch: seq<Request>, answers: RequestId -> Option<Execution>, stamp: ReceiptId -> Time)
      returns (end: Ending, results: Batch, ghost n: nat)
      requires Valid() && Waiting(batch, inbox, receipts) && Covers(batch, inbox)
      modifies `inbox, `receipts, `writesLeft, `calls, `lost
      ensures Valid() && Extends(old(receipts), receipts)
      ensures n <= |batch| && calls == old(calls) + Ids(batch)[..n]
      ensures end.Go? ==> n == |batch| && inbox == map[] && Results(batch, answers, stamp, results)
      ensures end.Go? ==> Told(old(receipts), receipts, results.receipts)
      ensures end.Raise? ==>
        end.error == HandlerRaised && n > 0 && answers(batch[n - 1].id).None?
      ensures old(writesLeft) >= 2 * |batch| ==> !end.Die?
    {
      hide AllAccounted, Kept, Waiting, Covers, Extends, Told, Results;
      n := 0;
      results := Batch([], false, false);
      var i := 0;
      NothingTold(receipts);
      NoResults(answers, stamp);
      assert batch[..0] == [];
      assert batch[0..] == batch;
      ExtendsItself(receipts);
      while i < |batch|
        invariant 0 <= i <= |batch| && n == i
        invariant Valid() && Extends(old(receipts), receipts)
        invariant calls == old(calls) + Ids(batch)[..i]
        invariant Waiting(batch[i..], inbox, receipts) && Covers(batch[i..], inbox)
        invariant Results(batch[..i], answers, stamp, results)
        invariant Told(old(receipts), receipts, results.receipts)
        invariant old(writesLeft) >= 2 * |batch| ==> writesLeft >= 2 * (|batch| - i)
      {
        FirstWaits(batch[i..], inbox, receipts);
        ghost var inbox0, receipts0 := inbox, receipts;
        var answer := answers(batch[i].id);
        var r;
        end, r := RunOne(batch[i], answer, stamp);
        ExtendsChain(old(receipts), receipts0, receipts);
        assert Ids(batch)[..i + 1] == Ids(batch)[..i] + [batch[i].id];
        n := n + 1;
        if !end.Go? {
          return;
        }
        assert batch[..i + 1] == batch[..i] + [batch[i]];
        ResultsGrow(batch[..i], batch[i], answers, stamp, results);
        RecordTold(receipts0, r);
        ToldMore(old(receipts), receipts0, receipts, results.receipts, [r]);
        results := Batch(results.receipts + [r], results.halted || answer.value.halted,
                         results.stop || answer.value.stop);
        assert batch[i..][1..] == batch[i + 1..];
        RestWaits(batch[i..], inbox0, receipts0, receipts);
        i := i + 1;
      }
      assert batch[i..] == [] && batch[..i] == batch;
      NothingLeft(inbox);
      end := Go(());
    }

    /** Consumes the directory once. Requests are run in priority, age and id order, and
        only those without a receipt. With enough life and a handler that raises for none
        of them, the directory is drained exactly when no file in it is poisoned. */
    method ProcessPending(
      entries: seq<FileName>, now: Time, answers: RequestId -> Option<Execution>, stamp: ReceiptId -> Time
    ) returns (end: Ending, results: Batch, ghost batch: seq<Request>, ghost n: nat)
      requires Valid() && Lists(entries, inbox)
      modifies `inbox, `receipts, `writesLeft, `calls, `lost
      ensures Valid() && Extends(old(receipts), receipts)
      ensures InOrder(batch) && n <= |batch| && calls == old(calls) + Ids(batch)[..n]
      ensures forall r :: r in batch ==>
        NamedFor(r.id) in old(inbox) && old(inbox)[NamedFor(r.id)] == Queued(r)
        && ForRequest(r.id) !in old(receipts)
      ensures forall i, j :: 0 <= i < j < |batch| ==> batch[i].id != batch[j].id
      ensures ByUrgency(batch)
      ensures end.Go? || batch != [] ==> Chosen(batch, old(inbox), old(receipts), now, host)
      ensures end.Go? ==> inbox == map[] && n == |batch|
      ensures end.Go? ==> Told(old(receipts), receipts, results.receipts)
      ensures end.Go? ==>
        && (results.halted <==> exists r :: r in batch && Halts(answers(r.id)))
        && (results.stop <==> exists r :: r in batch && Stops(answers(r.id)))
      ensures AnyPoison(old(inbox), old(receipts), now, host, stamp) ==> !end.Go? && calls == old(calls)
      ensures old(writesLeft) >= 4 * |entries| && (forall id :: answers(id).Some?) ==>
        (end.Go? <==> !AnyPoison(old(inbox), old(receipts), now, host, stamp))
    {
      hide AllAccounted, Kept, Waiting, Covers, Extends, AnyPoison, InOrder, ByUrgency, Told, Chosen;
      batch, n, results := [], 0, Batch([], false, false);
      NoRequests();
      InOrderExactly([]);
      ghost var receipts0 := receipts;
      var screened, pending, rejected := Screen(entries, now, stamp);
      if !screened.Go? {
        return screened, results, batch, n;
      }
      var ordered := Sort(pending);
      SortSorts(pending);
      SameMembers(pending, ordered, inbox, receipts);
      SameChosen(pending, ordered, old(inbox), old(receipts), now, host);
      InOrderExactly(ordered);
      batch := ordered;
      ghost var receipts1 := receipts;
      end, results, n := RunBatch(ordered, answers, stamp);
      ExtendsChain(receipts0, receipts1, receipts);
      if end.Go? {
        ToldMore(receipts0, receipts1, receipts, rejected, results.receipts);
        results := results.(receipts := rejected + results.receipts);
      }
    }
  }

  /** From an empty directory to a file that stops every later batch: the process ends after
      the receipt of a run and before its file is removed, and the request expires. */
  method RunAndLeave(host: string, execution: Execution, stamp: ReceiptId -> Time) returns (left: ControlInbox)
    ensures fresh(left) && left.Valid() && left.host == host
    ensures forall now :: now >= 60 ==> AnyPoison(left.inbox, left.receipts, now, host, stamp)
  {
    left := new ControlInbox(host, 2);
    var queued := left.Enqueue(7, StopCommand, 0, 60, None);
    var screened, kept, refused := left.ScreenOne(NamedFor(7), 1, stamp);
    var end, r := left.RunOne(kept.value, Some(execution), stamp);
    forall now | now >= 60 ensures AnyPoison(left.inbox, left.receipts, now, host, stamp) {
      RunAndExpiredIsPoison(queued.value, left.receipts, now, host, stamp);
      assert NamedFor(7) in left.inbox;
    }
  }

  /** A file to be run: an actionable request under its own name, not answered yet. */
  predicate ToRun(
    name: FileName, content: Content, receipts: map<ReceiptId, Receipt>, now: Time, host: string
  ) {
    && content.Queued? && name == NamedFor(content.request.id)
    && Actionable(content.request, now, host) && ForRequest(content.request.id) !in receipts
  }

  /** These are exactly the requests to be run. */
  ghost predicate Chosen(
    batch: seq<Request>, inbox: map<FileName, Content>, receipts: map<ReceiptId, Receipt>, now: Time, host: string
  ) {
    forall r :: r in batch <==>
      NamedFor(r.id) in inbox && inbox[NamedFor(r.id)] == Queued(r)
      && ToRun(NamedFor(r.id), Queued(r), receipts, now, host)
  }

  ghost predicate ChosenSoFar(
    pending: seq<Request>, entries: seq<FileName>, i: nat, inbox: map<FileName, Content>,
    receipts: map<ReceiptId, Receipt>, now: Time, host: string
  )
    requires i <= |entries|
  {
    forall r :: r in pending <==>
      NamedIn(entries, 0, i, NamedFor(r.id)) && NamedFor(r.id) in inbox && inbox[NamedFor(r.id)] == Queued(r)
      && ToRun(NamedFor(r.id), Queued(r), receipts, now, host)
  }

  lemma NoneChosen(
    entries: seq<FileName>, inbox: map<FileName, Content>, receipts: map<ReceiptId, Receipt>, now: Time, host: string
  )
    ensures ChosenSoFar([], entries, 0, inbox, receipts, now, host)
  {
  }

  /** The next file is kept exactly if it is to be run; what earlier files were answered with
      does not concern it. */
  lemma ChosenNext(
    pending: seq<Request>, entries: seq<FileName>, i: nat, inbox: map<FileName, Content>,
    before: map<ReceiptId, Receipt>, receipts: map<ReceiptId, Receipt>, now: Time, host: string,
    kept: Option<Request>
  )
    requires i < |entries| && ChosenSoFar(pending, entries, i, inbox, before, now, host)
    requires forall j, m :: 0 <= j < m < |entries| ==> entries[j] != entries[m]
    requires entries[i] in inbox
    requires forall k :: Owns(entries[i], k) ==> (k in receipts <==> k in before)
    requires var content := inbox[entries[i]];
      if content.Queued? && Refusal(entries[i], content, now, host).None? && ForRequest(content.request.id) !in receipts
      then kept == Some(content.request) else kept == None
    ensures ChosenSoFar(pending + (if kept.Some? then [kept.value] else []), entries, i + 1, inbox, before, now, host)
    ensures kept.None? ==> ChosenSoFar(pending, entries, i + 1, inbox, before, now, host)
  {
    hide NamedIn, Refusal, Actionable;
    var content, more := inbox[entries[i]], pending + (if kept.Some? then [kept.value] else []);
    LetThroughExactly(entries[i], content, now, host);
    NotNamedBefore(entries, i);
    forall r
      ensures r in more <==>
        NamedIn(entries, 0, i + 1, NamedFor(r.id)) && NamedFor(r.id) in inbox && inbox[NamedFor(r.id)] == Queued(r)
        && ToRun(NamedFor(r.id), Queued(r), before, now, host)
    {
      NamedUpTo(entries, i, NamedFor(r.id));
    }
    assert kept.None? ==> more == pending;
  }

  lemma NamedUpTo(entries: seq<FileName>, i: nat, name: FileName)
    requires i < |entries|
    ensures NamedIn(entries, 0, i + 1, name) <==> NamedIn(entries, 0, i, name) || name == entries[i]
  {
    NamedGrows(entries, i, name);
    if NamedIn(entries, 0, i + 1, name) && name != entries[i] {
      var m :| 0 <= m < i + 1 && entries[m] == name;
      assert 0 <= m < i && entries[m] == name;
    }
  }

  lemma AllChosen(
    pending: seq<Request>, entries: seq<FileName>, inbox: map<FileName, Content>,
    receipts: map<ReceiptId, Receipt>, now: Time, host: string
  )
    requires Lists(entries, inbox) && ChosenSoFar(pending, entries, |entries|, inbox, receipts, now, host)
    ensures Chosen(pending, inbox, receipts, now, host)
  {
    hide ToRun;
    forall name | name in inbox ensures NamedIn(entries, 0, |entries|, name) {
      var m :| 0 <= m < |entries| && entries[m] == name;
    }
  }

  lemma SameChosen(
    pending: seq<Request>, ordered: seq<Request>, inbox: map<FileName, Content>,
    receipts: map<ReceiptId, Receipt>, now: Time, host: string
  )
    requires multiset(ordered) == multiset(pending) && Chosen(pending, inbox, receipts, now, host)
    ensures Chosen(ordered, inbox, receipts, now, host)
  {
    hide ToRun;
    forall r ensures r in ordered <==> r in pending {
      assert r in multiset(ordered) <==> r in multiset(pending);
    }
  }

  predicate Halts(e: Option<Execution>) { e.Some? && e.value.halted }

  predicate Stops(e: Option<Execution>) { e.Some? && e.value.stop }

  /** Nothing written meanwhile says that a request was run. */
  ghost predicate OnlyRefusals(before: map<ReceiptId, Receipt>, after: map<ReceiptId, Receipt>) {
    forall k :: k in after && k !in before ==> after[k].outcome.Refused?
  }

  lemma RefusalsChain(a: map<ReceiptId, Receipt>, b: map<ReceiptId, Receipt>, c: map<ReceiptId, Receipt>)
    requires Extends(a, b) && Extends(b, c) && OnlyRefusals(a, b) && OnlyRefusals(b, c)
    ensures OnlyRefusals(a, c)
  {
  }

  /** All that was written is told, and all that is told is on record. */
  ghost predicate Told(before: map<ReceiptId, Receipt>, after: map<ReceiptId, Receipt>, told: seq<Receipt>) {
    && Extends(before, after)
    && (forall k :: k in after && k !in before ==> after[k] in told)
    && (forall r :: r in told ==> r.id in after && after[r.id] == r)
  }

  lemma NothingRefused(receipts: map<ReceiptId, Receipt>)
    ensures OnlyRefusals(receipts, receipts)
  {
  }

  lemma NothingTold(receipts: map<ReceiptId, Receipt>)
    ensures Told(receipts, receipts, [])
  {
  }

  lemma RecordTold(receipts: map<ReceiptId, Receipt>, r: Receipt)
    requires r.id !in receipts
    ensures Told(receipts, receipts[r.id := r], [r])
  {
  }

  lemma ToldMore(
    a: map<ReceiptId, Receipt>, b: map<ReceiptId, Receipt>, c: map<ReceiptId, Receipt>,
    told: seq<Receipt>, more: seq<Receipt>
  )
    requires Told(a, b, told) && Told(b, c, more)
    ensures Told(a, c, told + more)
  {
  }

  /** One receipt for each request run, in order, and what any of them did to the runtime. */
  ghost predicate Results(
    batch: seq<Request>, answers: RequestId -> Option<Execution>, stamp: ReceiptId -> Time, results: Batch
  ) {
    && |results.receipts| == |batch|
    && (forall i :: 0 <= i < |batch| ==>
          answers(batch[i].id).Some?
          && results.receipts[i] == Record(batch[i], answers(batch[i].id).value.outcome, stamp))
    && (results.halted <==> exists r :: r in batch && Halts(answers(r.id)))
    && (results.stop <==> exists r :: r in batch && Stops(answers(r.id)))
  }

  lemma NoResults(answers: RequestId -> Option<Execution>, stamp: ReceiptId -> Time)
    ensures Results([], answers, stamp, Batch([], false, false))
  {
  }

  lemma ResultsGrow(
    batch: seq<Request>, r: Request, answers: RequestId -> Option<Execution>, stamp: ReceiptId -> Time,
    results: Batch
  )
    requires Results(batch, answers, stamp, results) && answers(r.id).Some?
    ensures var e := answers(r.id).value;
      Results(batch + [r], answers, stamp,
              Batch(results.receipts + [Record(r, e.outcome, stamp)], results.halted || e.halted,
                    results.stop || e.stop))
  {
    var all := batch + [r];
    assert forall p :: p in all <==> p in batch || p == r;
    if exists p :: p in batch && Halts(answers(p.id)) {
      var p :| p in batch && Halts(answers(p.id));
      assert p in all;
    }
    if exists p :: p in batch && Stops(answers(p.id)) {
      var p :| p in batch && Stops(answers(p.id));
      assert p in all;
    }
    assert r in all;
  }

  lemma ScreenedStarts(entries: seq<FileName>, inbox: map<FileName, Content>, receipts: map<ReceiptId, Receipt>)
    requires Lists(entries, inbox)
    ensures Screened(entries, 0, inbox, receipts, inbox, receipts, [])
    ensures forall j, m :: 0 <= j < m < |entries| ==> entries[j] != entries[m]
    ensures forall j :: 0 <= j < |entries| ==> entries[j] in inbox
  {
    forall name | name in inbox ensures NamedIn(entries, 0, |entries|, name) {
      var m :| 0 <= m < |entries| && entries[m] == name;
    }
  }

  lemma ScreenedNext(
    entries: seq<FileName>, i: nat, inbox0: map<FileName, Content>, receipts0: map<ReceiptId, Receipt>,
    inbox: map<FileName, Content>, receipts: map<ReceiptId, Receipt>, pending: seq<Request>
  )
    requires i < |entries| && Screened(entries, i, inbox0, receipts0, inbox, receipts, pending)
    ensures entries[i] in inbox && entries[i] in inbox0 && inbox[entries[i]] == inbox0[entries[i]]
    ensures Extends(receipts0, receipts)
    ensures forall k :: k in receipts && k !in receipts0 ==> OwnedBefore(entries, i, k)
  {
    hide OwnedBefore;
  }

  lemma ScreenedEnds(
    entries: seq<FileName>, inbox0: map<FileName, Content>, receipts0: map<ReceiptId, Receipt>,
    inbox: map<FileName, Content>, receipts: map<ReceiptId, Receipt>, pending: seq<Request>
  )
    requires Screened(entries, |entries|, inbox0, receipts0, inbox, receipts, pending)
    ensures Extends(receipts0, receipts) && Waiting(pending, inbox, receipts) && Covers(pending, inbox)
    ensures forall p :: p in pending ==>
      NamedFor(p.id) in inbox0 && inbox0[NamedFor(p.id)] == Queued(p) && ForRequest(p.id) !in receipts0
  {
    hide OwnedBefore;
  }

  lemma NoneIsPoison(
    entries: seq<FileName>, inbox: map<FileName, Content>, receipts: map<ReceiptId, Receipt>, now: Time,
    host: string, stamp: ReceiptId -> Time
  )
    requires Lists(entries, inbox)
    requires forall m :: 0 <= m < |entries| ==> !Poison(entries[m], inbox[entries[m]], receipts, now, host, stamp)
    ensures !AnyPoison(inbox, receipts, now, host, stamp)
  {
    hide Poison;
    forall name | name in inbox ensures !Poison(name, inbox[name], receipts, now, host, stamp) {
      assert name in entries;
    }
  }

  lemma ExtendsChain(a: map<ReceiptId, Receipt>, b: map<ReceiptId, Receipt>, c: map<ReceiptId, Receipt>)
    requires Extends(a, b) && Extends(b, c)
    ensures Extends(a, c)
  {
  }

  /** The requests, still in the directory and none of them answered. */
  ghost predicate Waiting(
    pending: seq<Request>, inbox: map<FileName, Content>, receipts: map<ReceiptId, Receipt>
  ) {
    && (forall p :: p in pending ==>
          NamedFor(p.id) in inbox && inbox[NamedFor(p.id)] == Queued(p) && ForRequest(p.id) !in receipts)
    && (forall i, j :: 0 <= i < j < |pending| ==> pending[i].id != pending[j].id)
  }

  /** Nothing but these requests is in the directory. */
  ghost predicate Covers(pending: seq<Request>, inbox: map<FileName, Content>) {
    forall name :: name in inbox ==> exists p :: p in pending && name == NamedFor(p.id)
  }

  predicate NamedIn(entries: seq<FileName>, lo: nat, hi: nat, name: FileName)
    requires lo <= hi <= |entries|
  {
    exists m :: lo <= m < hi && entries[m] == name
  }

  predicate Pends(pending: seq<Request>, name: FileName) {
    exists p :: p in pending && name == NamedFor(p.id)
  }

  ghost predicate Untouched(
    entries: seq<FileName>, i: nat, inbox0: map<FileName, Content>, inbox: map<FileName, Content>
  ) {
    forall j :: i <= j < |entries| ==>
      entries[j] in inbox && entries[j] in inbox0 && inbox[entries[j]] == inbox0[entries[j]]
  }

  ghost predicate Remaining(entries: seq<FileName>, i: nat, inbox: map<FileName, Content>, pending: seq<Request>)
    requires i <= |entries|
  {
    forall name :: name in inbox ==> NamedIn(entries, i, |entries|, name) || Pends(pending, name)
  }

  ghost predicate Seen(
    entries: seq<FileName>, i: nat, inbox0: map<FileName, Content>, receipts0: map<ReceiptId, Receipt>,
    pending: seq<Request>
  )
    requires i <= |entries|
  {
    forall p :: p in pending ==>
      NamedIn(entries, 0, i, NamedFor(p.id)) && NamedFor(p.id) in inbox0
      && inbox0[NamedFor(p.id)] == Queued(p) && ForRequest(p.id) !in receipts0
  }

  ghost predicate Answered(
    entries: seq<FileName>, i: nat, receipts0: map<ReceiptId, Receipt>, receipts: map<ReceiptId, Receipt>
  )
    requires i <= |entries|
  {
    Extends(receipts0, receipts)
    && forall k :: k in receipts && k !in receipts0 ==> OwnedBefore(entries, i, k)
  }

  /** Half-way through the first pass: `i` files seen, the others untouched. */
  ghost predicate Screened(
    entries: seq<FileName>, i: nat, inbox0: map<FileName, Content>, receipts0: map<ReceiptId, Receipt>,
    inbox: map<FileName, Content>, receipts: map<ReceiptId, Receipt>, pending: seq<Request>
  )
    requires i <= |entries|
  {
    && Answered(entries, i, receipts0, receipts)
    && Waiting(pending, inbox, receipts)
    && Seen(entries, i, inbox0, receipts0, pending)
    && Untouched(entries, i, inbox0, inbox)
    && Remaining(entries, i, inbox, pending)
  }

  lemma NamedGrows(entries: seq<FileName>, i: nat, name: FileName)
    requires i < |entries|
    ensures NamedIn(entries, 0, i, name) || name == entries[i] ==> NamedIn(entries, 0, i + 1, name)
    ensures NamedIn(entries, i, |entries|, name) ==>
      name == entries[i] || NamedIn(entries, i + 1, |entries|, name)
  {
    if NamedIn(entries, 0, i, name) {
      var m :| 0 <= m < i && entries[m] == name;
      assert 0 <= m < i + 1 && entries[m] == name;
    }
    if name == entries[i] {
      assert 0 <= i < i + 1 && entries[i] == name;
    }
    if NamedIn(entries, i, |entries|, name) && name != entries[i] {
      var m :| i <= m < |entries| && entries[m] == name;
      assert i + 1 <= m < |entries|;
    }
  }

  lemma NotNamedBefore(entries: seq<FileName>, i: nat)
    requires i < |entries| && forall j, m :: 0 <= j < m < |entries| ==> entries[j] != entries[m]
    ensures !NamedIn(entries, 0, i, entries[i])
  {
  }

  lemma SeenAfter(
    entries: seq<FileName>, i: nat, inbox0: map<FileName, Content>, receipts0: map<ReceiptId, Receipt>,
    pending: seq<Request>
  )
    requires i < |entries| && Seen(entries, i, inbox0, receipts0, pending)
    requires forall j, m :: 0 <= j < m < |entries| ==> entries[j] != entries[m]
    ensures Seen(entries, i + 1, inbox0, receipts0, pending)
    ensures forall p :: p in pending ==> NamedFor(p.id) != entries[i]
  {
    hide NamedIn;
    NotNamedBefore(entries, i);
    forall p | p in pending ensures NamedIn(entries, 0, i + 1, NamedFor(p.id)) {
      NamedGrows(entries, i, NamedFor(p.id));
    }
  }

  lemma AnsweredAfter(
    entries: seq<FileName>, i: nat, receipts0: map<ReceiptId, Receipt>, receipts: map<ReceiptId, Receipt>,
    more: map<ReceiptId, Receipt>
  )
    requires i < |entries| && Answered(entries, i, receipts0, receipts) && Extends(receipts, more)
    requires forall k :: k in more && k !in receipts ==> Owns(entries[i], k)
    ensures Answered(entries, i + 1, receipts0, more)
  {
    ExtendsChain(receipts0, receipts, more);
    OwnedGrows(entries, i);
    hide OwnedBefore, Owns;
  }

  lemma RemainingAfter(
    entries: seq<FileName>, i: nat, inbox: map<FileName, Content>, pending: seq<Request>,
    less: map<FileName, Content>, more: seq<Request>
  )
    requires i < |entries| && Remaining(entries, i, inbox, pending)
    requires forall name :: name in less ==> name in inbox
    requires entries[i] in less ==> Pends(more, entries[i])
    requires forall p :: p in pending ==> p in more
    ensures Remaining(entries, i + 1, less, more)
  {
    hide NamedIn;
    forall name | name in less
      ensures NamedIn(entries, i + 1, |entries|, name) || Pends(more, name)
    {
      NamedGrows(entries, i, name);
      if Pends(pending, name) {
        var p :| p in pending && name == NamedFor(p.id);
        assert p in more;
      }
    }
  }

  lemma ScreenedKeeps(
    entries: seq<FileName>, i: nat, inbox0: map<FileName, Content>, receipts0: map<ReceiptId, Receipt>,
    inbox: map<FileName, Content>, receipts: map<ReceiptId, Receipt>, pending: seq<Request>, p: Request
  )
    requires i < |entries| && Screened(entries, i, inbox0, receipts0, inbox, receipts, pending)
    requires forall j, m :: 0 <= j < m < |entries| ==> entries[j] != entries[m]
    requires entries[i] == NamedFor(p.id) && entries[i] in inbox && inbox[entries[i]] == Queued(p)
    requires ForRequest(p.id) !in receipts
    ensures Screened(entries, i + 1, inbox0, receipts0, inbox, receipts, pending + [p])
  {
    hide NamedIn, Remaining, Answered, Owns;
    SeenAfter(entries, i, inbox0, receipts0, pending);
    NamedGrows(entries, i, NamedFor(p.id));
    ExtendsItself(receipts);
    AnsweredAfter(entries, i, receipts0, receipts, receipts);
    assert p in pending + [p];
    RemainingAfter(entries, i, inbox, pending, inbox, pending + [p]);
    AnsweredExtends(entries, i, receipts0, receipts);
    assert ForRequest(p.id) !in receipts0;
  }

  lemma AnsweredExtends(
    entries: seq<FileName>, i: nat, receipts0: map<ReceiptId, Receipt>, receipts: map<ReceiptId, Receipt>
  )
    requires i <= |entries| && Answered(entries, i, receipts0, receipts)
    ensures Extends(receipts0, receipts)
  {
  }

  lemma ScreenedExtends(
    entries: seq<FileName>, i: nat, inbox0: map<FileName, Content>, receipts0: map<ReceiptId, Receipt>,
    inbox: map<FileName, Content>, receipts: map<ReceiptId, Receipt>, pending: seq<Request>
  )
    requires i <= |entries| && Screened(entries, i, inbox0, receipts0, inbox, receipts, pending)
    ensures Extends(receipts0, receipts)
  {
  }

  lemma ScreenedDrops(
    entries: seq<FileName>, i: nat, inbox0: map<FileName, Content>, receipts0: map<ReceiptId, Receipt>,
    inbox: map<FileName, Content>, receipts: map<ReceiptId, Receipt>, pending: seq<Request>,
    more: map<ReceiptId, Receipt>
  )
    requires i < |entries| && Screened(entries, i, inbox0, receipts0, inbox, receipts, pending)
    requires forall j, m :: 0 <= j < m < |entries| ==> entries[j] != entries[m]
    requires Extends(receipts, more)
    requires forall k :: k in more && k !in receipts ==> Owns(entries[i], k)
    ensures Screened(entries, i + 1, inbox0, receipts0, inbox - {entries[i]}, more, pending)
  {
    hide NamedIn, Remaining, Answered;
    SeenAfter(entries, i, inbox0, receipts0, pending);
    AnsweredAfter(entries, i, receipts0, receipts, more);
    RemainingAfter(entries, i, inbox, pending, inbox - {entries[i]}, pending);
    assert forall p :: p in pending ==> !Owns(entries[i], ForRequest(p.id));
    hide Owns;
  }

  /** A listing of a directory: every name once. */
  ghost predicate Lists(entries: seq<FileName>, inbox: map<FileName, Content>) {
    && (forall i, j :: 0 <= i < j < |entries| ==> entries[i] != entries[j])
    && (forall name :: name in inbox <==> name in entries)
  }

  ghost predicate AnyPoison(
    inbox: map<FileName, Content>, receipts: map<ReceiptId, Receipt>, now: Time, host: string,
    stamp: ReceiptId -> Time
  ) {
    exists name :: name in inbox && Poison(name, inbox[name], receipts, now, host, stamp)
  }

  predicate OwnedBefore(entries: seq<FileName>, i: nat, k: ReceiptId)
    requires i <= |entries|
  {
    exists m :: 0 <= m < i && Owns(entries[m], k)
  }

  lemma OwnedGrows(entries: seq<FileName>, i: nat)
    requires i < |entries|
    ensures forall k :: OwnedBefore(entries, i, k) || Owns(entries[i], k) ==> OwnedBefore(entries, i + 1, k)
  {
    forall k | OwnedBefore(entries, i, k) || Owns(entries[i], k) ensures OwnedBefore(entries, i + 1, k) {
      if Owns(entries[i], k) {
        assert 0 <= i < i + 1 && Owns(entries[i], k);
      } else {
        var m :| 0 <= m < i && Owns(entries[m], k);
        assert 0 <= m < i + 1;
      }
    }
  }

  lemma NotOwnedBefore(entries: seq<FileName>, i: nat, k: ReceiptId)
    requires i < |entries| && forall j, m :: 0 <= j < m < |entries| ==> entries[j] != entries[m]
    requires Owns(entries[i], k)
    ensures !OwnedBefore(entries, i, k)
  {
    forall m | 0 <= m < i ensures !Owns(entries[m], k) {
      assert entries[m] != entries[i];
    }
  }

  /** What earlier files were answered with does not concern a later one. */
  lemma PoisonUnmoved(
    entries: seq<FileName>, i: nat, content: Content, before: map<ReceiptId, Receipt>,
    after: map<ReceiptId, Receipt>, now: Time, host: string, stamp: ReceiptId -> Time
  )
    requires i < |entries| && forall j, m :: 0 <= j < m < |entries| ==> entries[j] != entries[m]
    requires Extends(before, after)
    requires forall k :: k in after && k !in before ==> OwnedBefore(entries, i, k)
    ensures forall k :: Owns(entries[i], k) ==> (k in after <==> k in before)
    ensures Poison(entries[i], content, after, now, host, stamp)
      <==> Poison(entries[i], content, before, now, host, stamp)
  {
    forall k | Owns(entries[i], k) ensures k in after <==> k in before {
      NotOwnedBefore(entries, i, k);
    }
    var name := entries[i];
    if content.Queued? && Refusal(name, content, now, host).None? {
      assert Owns(name, ForRequest(content.request.id));
    }
    hide Refusal;
    assert forall reason :: Owns(name, RejectionId(name, content, reason));
  }

  lemma NoRequests()
    ensures InOrder([])
  {
  }

  lemma ExtendsItself(receipts: map<ReceiptId, Receipt>)
    ensures Extends(receipts, receipts)
  {
  }

  lemma NothingLeft(inbox: map<FileName, Content>)
    requires Covers([], inbox)
    ensures inbox == map[]
  {
    assert forall name :: name !in inbox;
  }

  lemma FirstWaits(batch: seq<Request>, inbox: map<FileName, Content>, receipts: map<ReceiptId, Receipt>)
    requires batch != [] && Waiting(batch, inbox, receipts)
    ensures NamedFor(batch[0].id) in inbox && ForRequest(batch[0].id) !in receipts
  {
  }

  lemma RestWaits(
    batch: seq<Request>, inbox: map<FileName, Content>, receipts: map<ReceiptId, Receipt>,
    more: map<ReceiptId, Receipt>
  )
    requires batch != [] && Waiting(batch, inbox, receipts) && Covers(batch, inbox)
    requires forall k :: k in more ==> k in receipts || k == ForRequest(batch[0].id)
    ensures Waiting(batch[1..], inbox - {NamedFor(batch[0].id)}, more)
    ensures Covers(batch[1..], inbox - {NamedFor(batch[0].id)})
  {
    assert batch == [batch[0]] + batch[1..];
    forall p | p in batch[1..] ensures p.id != batch[0].id && p in batch {
      var j :| 0 <= j < |batch[1..]| && batch[1..][j] == p;
      assert batch[j + 1] == p;
    }
  }

  lemma SameMembers(
    pending: seq<Request>, ordered: seq<Request>, inbox: map<FileName, Content>,
    receipts: map<ReceiptId, Receipt>
  )
    requires multiset(pending) == multiset(ordered)
    requires Waiting(pending, inbox, receipts) && Covers(pending, inbox)
    ensures Waiting(ordered, inbox, receipts) && Covers(ordered, inbox) && |ordered| == |pending|
    ensures forall p :: p in ordered <==> p in pending
    ensures forall i, j :: 0 <= i < j < |ordered| ==> ordered[i].id != ordered[j].id
  {
    assert |ordered| == |multiset(ordered)| == |multiset(pending)| == |pending|;
    forall p ensures p in ordered <==> p in pending {
      assert p in multiset(ordered) <==> p in multiset(pending);
    }
    forall p | p in pending ensures multiset(pending)[p] == 1 {
      OnceEach(pending, p);
    }
    forall i, j | 0 <= i < j < |ordered| ensures ordered[i].id != ordered[j].id {
      TwiceCounts(ordered, i, j);
      assert inbox[NamedFor(ordered[i].id)] == Queued(ordered[i]);
      assert inbox[NamedFor(ordered[j].id)] == Queued(ordered[j]);
    }
  }

  lemma {:induction false} OnceEach(pending: seq<Request>, p: Request)
    requires p in pending && forall i, j :: 0 <= i < j < |pending| ==> pending[i].id != pending[j].id
    ensures multiset(pending)[p] == 1
  {
    var init, last := pending[..|pending| - 1], pending[|pending| - 1];
    assert pending == init + [last];
    if p in init {
      OnceEach(init, p);
      assert last != p;
    } else {
      assert multiset(init)[p] == 0;
    }
  }

  lemma TwiceCounts(rs: seq<Request>, i: nat, j: nat)
    requires i < j < |rs|
    ensures rs[i] == rs[j] ==> multiset(rs)[rs[i]] >= 2
  {
    assert rs == rs[..j] + rs[j..];
    assert rs[i] == rs[..j][i] && rs[j] == rs[j..][0];
    assert rs[i] in rs[..j] && rs[j] in rs[j..];
    assert multiset(rs)[rs[i]] == multiset(rs[..j])[rs[i]] + multiset(rs[j..])[rs[i]];
  }
}
