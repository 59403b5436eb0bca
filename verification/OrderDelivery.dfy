/** Out-of-order delivery: acknowledgements and fills of one broker order commute. */
module OrderDelivery {
  import opened Wrappers
  import opened Ids
  import opened Orders
  import opened OrderInvariant
  import opened OrderTable

  predicate IsAnswer(e: OrderEvent, orderId: Id) {
    || e.body == BrokerAcknowledged(orderId)
    || (e.body.FillReported? && e.body.fill.orderId == orderId && e.body.fill.shares > 0)
  }

  function Shares(e: OrderEvent): nat {
    if e.body.FillReported? then e.body.fill.shares else 0
  }

  function TotalShares(es: seq<OrderEvent>): nat {
    if es == [] then 0 else TotalShares(es[..|es| - 1]) + Shares(es[|es| - 1])
  }

  function FillsIn(es: seq<OrderEvent>): seq<AppliedFill> {
    if es == [] then []
    else
      FillsIn(es[..|es| - 1])
      + (if es[|es| - 1].body.FillReported? then [es[|es| - 1].body.fill] else [])
  }

  function Identities(es: seq<OrderEvent>): (log: seq<AppliedEvent>)
    ensures |log| == |es|
    ensures forall i :: 0 <= i < |es| ==> log[i] == AppliedEvent(es[i].eventId, es[i])
  {
    seq(|es|, i requires 0 <= i < |es| => AppliedEvent(es[i].eventId, es[i]))
  }

  /** New acknowledgements and distinct new fills of broker order `orderId` that fit
      in what the order still asks for. */
  ghost predicate NewAnswers(a: Aggregate, es: seq<OrderEvent>, orderId: Id) {
    && (a.brokerOrderId.None? || a.brokerOrderId == Some(orderId))
    && a.filled + TotalShares(es) <= a.intent.requested
    && (forall e :: e in es ==> IsAnswer(e, orderId) && multiset(es)[e] == 1)
    && (forall d, e :: d in es && e in es && d.eventId == e.eventId ==> d == e)
    && (forall d, e ::
          (d in es && e in es && d.body.FillReported? && e.body.FillReported?
           && d.body.fill.fillId == e.body.fill.fillId) ==> d == e)
    && (forall e, x :: e in es && x in a.applied ==> x.eventId != e.eventId)
    && (forall e, f :: e in es && f in a.fills && e.body.FillReported? ==>
          f.fillId != e.body.fill.fillId)
  }

  /** The same for an order at the broker. */
  ghost predicate Burst(a: Aggregate, es: seq<OrderEvent>, orderId: Id) {
    AtBroker(a.state) && NewAnswers(a, es, orderId)
  }

  predicate AnyFill(es: seq<OrderEvent>) { exists e :: e in es && e.body.FillReported? }

  predicate AnyAck(es: seq<OrderEvent>) { exists e :: e in es && e.body.BrokerAcknowledged? }

  /** Where a burst leaves the order: no word about the order of arrival. */
  function Settled(a: Aggregate, es: seq<OrderEvent>): OrderState {
    if a.filled + TotalShares(es) == a.intent.requested then Filled
    else if a.state.CancelRequested? then CancelRequested
    else if AnyFill(es) then PartiallyFilled
    else if AnyAck(es) && (a.state.Submitting? || a.state.Unknown?) then Acknowledged
    else a.state
  }

  function AfterBurst(a: Aggregate, es: seq<OrderEvent>, orderId: Id): Aggregate {
    a.(
      state := Settled(a, es),
      brokerOrderId := if es == [] then a.brokerOrderId else Some(orderId),
      filled := a.filled + TotalShares(es),
      fills := a.fills + FillsIn(es),
      applied := a.applied + Identities(es),
      version := a.version + |es|)
  }

  lemma AnswersPrefix(a: Aggregate, es: seq<OrderEvent>, orderId: Id)
    requires es != [] && NewAnswers(a, es, orderId)
    ensures NewAnswers(a, es[..|es| - 1], orderId)
    ensures es[|es| - 1] !in es[..|es| - 1] && WellFormed(es[|es| - 1])
  {
    var init, last := es[..|es| - 1], es[|es| - 1];
    assert es == init + [last];
    forall e | e in init ensures multiset(init)[e] == 1 && e != last {
      assert multiset(es)[e] == multiset(init)[e] + multiset([last])[e];
    }
  }

  /** Any burst is accepted, event by event, with exactly this outcome. */
  lemma {:induction false} BurstAccepted(a: Aggregate, es: seq<OrderEvent>, orderId: Id)
    requires Inv(a) && Burst(a, es, orderId)
    ensures Run(a, es) == Ok(AfterBurst(a, es, orderId))
    ensures Inv(AfterBurst(a, es, orderId))
  {
    hide Inv, Apply, AfterBurst;
    assert AtBroker(a.state);
    hide NewAnswers;
    if es == [] {
      EmptyBurst(a, orderId);
    } else {
      var init, last := es[..|es| - 1], es[|es| - 1];
      assert es == init + [last];
      AnswersPrefix(a, es, orderId);
      BurstAccepted(a, init, orderId);
      AnswerAccepted(a, init, last, orderId);
      ApplyKeepsInv(AfterBurst(a, init, orderId), last);
    }
  }

  lemma EmptyBurst(a: Aggregate, orderId: Id)
    requires Inv(a) && AtBroker(a.state)
    ensures AfterBurst(a, [], orderId) == a
  {
    hide ConstructorAccepts;
    assert a.applied + [] == a.applied && a.fills + [] == a.fills;
  }

  lemma AckAccepted(b: Aggregate, e: OrderEvent, orderId: Id)
    requires Inv(b) && (AtBroker(b.state) || b.state.Filled?) && e.body == BrokerAcknowledged(orderId)
    requires FindEvent(b.applied, e.eventId).None?
    requires b.brokerOrderId.None? || b.brokerOrderId == Some(orderId)
    ensures Apply(b, e) == Ok(b.(
      state := if b.state.Submitting? || b.state.Unknown? then Acknowledged else b.state,
      brokerOrderId := Some(orderId),
      applied := b.applied + [AppliedEvent(e.eventId, e)],
      version := b.version + 1))
  {
    ApplyKeepsInv(b, e);
    hide FindEvent, FindFill, Inv, ConstructorAccepts;
  }

  lemma UpdatedAccepted(
    a: Aggregate, e: OrderEvent, target: OrderState, orderId: Id, draft: Aggregate
  )
    requires target == a.state || CanMove(a.state, target)
    requires a.brokerOrderId.None? || a.brokerOrderId == Some(orderId)
    requires Updated(a, e, target, Some(orderId), draft) != Err(ConstructorRejected)
    ensures Updated(a, e, target, Some(orderId), draft) == Ok(draft.(
      state := target,
      brokerOrderId := Some(orderId),
      applied := a.applied + [AppliedEvent(e.eventId, e)],
      version := a.version + 1))
  {
    hide ConstructorAccepts, CanMove;
  }

  function FillTarget(b: Aggregate, fill: AppliedFill): OrderState {
    if b.filled + fill.shares == b.intent.requested then Filled
    else if b.state.CancelRequested? then CancelRequested else PartiallyFilled
  }

  lemma FillIsUpdate(b: Aggregate, e: OrderEvent, fill: AppliedFill)
    requires AtBroker(b.state) && e.body == FillReported(fill)
    requires FindEvent(b.applied, e.eventId).None? && FindFill(b.fills, fill.fillId).None?
    requires b.filled + fill.shares <= b.intent.requested
    ensures Apply(b, e)
         == Updated(b, e, FillTarget(b, fill), Some(fill.orderId),
              b.(filled := b.filled + fill.shares, fills := b.fills + [fill]))
  {
    hide Updated, WithAnomaly, FindEvent, FindFill;
  }

  lemma FillAccepted(b: Aggregate, e: OrderEvent, fill: AppliedFill)
    requires Inv(b) && AtBroker(b.state) && WellFormed(e) && e.body == FillReported(fill)
    requires FindEvent(b.applied, e.eventId).None? && FindFill(b.fills, fill.fillId).None?
    requires b.brokerOrderId.None? || b.brokerOrderId == Some(fill.orderId)
    requires b.filled + fill.shares <= b.intent.requested
    ensures Apply(b, e) == Ok(b.(
      state := FillTarget(b, fill),
      brokerOrderId := Some(fill.orderId),
      filled := b.filled + fill.shares,
      fills := b.fills + [fill],
      applied := b.applied + [AppliedEvent(e.eventId, e)],
      version := b.version + 1))
  {
    hide Inv, Apply, Updated, FindEvent, FindFill;
    ApplyKeepsInv(b, e);
    FillIsUpdate(b, e, fill);
    UpdatedAccepted(b, e, FillTarget(b, fill), fill.orderId,
      b.(filled := b.filled + fill.shares, fills := b.fills + [fill]));
  }

  /** Nothing the burst still holds has been recorded by the part already applied. */
  lemma StillFresh(a: Aggregate, init: seq<OrderEvent>, last: OrderEvent, orderId: Id)
    requires NewAnswers(a, init + [last], orderId) && last !in init
    ensures FindEvent(AfterBurst(a, init, orderId).applied, last.eventId).None?
    ensures last.body.FillReported? ==>
      FindFill(AfterBurst(a, init, orderId).fills, last.body.fill.fillId).None?
  {
    var b := AfterBurst(a, init, orderId);
    assert last in init + [last];
    forall x | x in b.applied ensures x.eventId != last.eventId {
      if x !in a.applied {
        var i :| 0 <= i < |init| && Identities(init)[i] == x;
        assert init[i] in init + [last];
      }
    }
    if last.body.FillReported? {
      forall f | f in b.fills ensures f.fillId != last.body.fill.fillId {
        if f !in a.fills {
          var e := FillOrigin(init, f);
          assert e in init + [last];
        }
      }
    }
  }

  lemma {:induction false} FillOrigin(es: seq<OrderEvent>, f: AppliedFill) returns (e: OrderEvent)
    requires f in FillsIn(es)
    ensures e in es && e.body == FillReported(f)
  {
    var init, last := es[..|es| - 1], es[|es| - 1];
    if last.body.FillReported? && last.body.fill == f {
      e := last;
    } else {
      e := FillOrigin(init, f);
    }
  }

  lemma AnyGrows(init: seq<OrderEvent>, last: OrderEvent)
    ensures AnyFill(init + [last]) <==> AnyFill(init) || last.body.FillReported?
    ensures AnyAck(init + [last]) <==> AnyAck(init) || last.body.BrokerAcknowledged?
  {
    var es := init + [last];
    assert forall e :: e in es <==> e in init || e == last;
    assert last in es;
    if AnyFill(init) {
      var e :| e in init && e.body.FillReported?;
      assert e in es;
    }
    if AnyAck(init) {
      var e :| e in init && e.body.BrokerAcknowledged?;
      assert e in es;
    }
  }

  lemma SettledGrows(a: Aggregate, init: seq<OrderEvent>, last: OrderEvent)
    requires AtBroker(a.state) && a.filled < a.intent.requested
    requires a.filled + TotalShares(init) + Shares(last) <= a.intent.requested
    requires TotalShares(init + [last]) == TotalShares(init) + Shares(last)
    requires last.body.BrokerAcknowledged? || (last.body.FillReported? && Shares(last) > 0)
    ensures AtBroker(Settled(a, init)) || (Settled(a, init).Filled? && last.body.BrokerAcknowledged?)
    ensures Settled(a, init + [last]) ==
      var s := Settled(a, init);
      if last.body.FillReported? then
        if a.filled + TotalShares(init) + Shares(last) == a.intent.requested then Filled
        else if s.CancelRequested? then CancelRequested else PartiallyFilled
      else if s.Submitting? || s.Unknown? then Acknowledged else s
  {
    hide AnyFill, AnyAck, TotalShares;
    AnyGrows(init, last);
  }

  lemma LogsGrow(a: Aggregate, init: seq<OrderEvent>, last: OrderEvent)
    ensures var es := init + [last];
      && TotalShares(es) == TotalShares(init) + Shares(last)
      && a.applied + Identities(es)
         == a.applied + Identities(init) + [AppliedEvent(last.eventId, last)]
      && a.fills + FillsIn(es)
         == if last.body.FillReported? then a.fills + FillsIn(init) + [last.body.fill]
            else a.fills + FillsIn(init)
  {
    var es := init + [last];
    assert es[..|es| - 1] == init;
    if last.body.FillReported? {
      assert a.fills + (FillsIn(init) + [last.body.fill]) == a.fills + FillsIn(init) + [last.body.fill];
    }
  }

  lemma BurstFacts(a: Aggregate, init: seq<OrderEvent>, last: OrderEvent, orderId: Id)
    requires Inv(a) && Burst(a, init + [last], orderId)
    ensures AtBroker(a.state) && a.filled < a.intent.requested
    ensures a.brokerOrderId.None? || a.brokerOrderId == Some(orderId)
    ensures a.filled + TotalShares(init) + Shares(last) <= a.intent.requested
    ensures TotalShares(init + [last]) == TotalShares(init) + Shares(last)
    ensures IsAnswer(last, orderId)
  {
    assert last in init + [last] && (init + [last])[..|init|] == init;
  }

  /** The aggregate after one accepted acknowledgement or fill. */
  function WithAnswer(b: Aggregate, e: OrderEvent, orderId: Id): Aggregate {
    b.(
      state :=
        if e.body.FillReported? then FillTarget(b, e.body.fill)
        else if b.state.Submitting? || b.state.Unknown? then Acknowledged else b.state,
      brokerOrderId := Some(orderId),
      filled := b.filled + Shares(e),
      fills := if e.body.FillReported? then b.fills + [e.body.fill] else b.fills,
      applied := b.applied + [AppliedEvent(e.eventId, e)],
      version := b.version + 1)
  }

  /** One more answer, seen from the closed form. */
  lemma AfterBurstGrows(a: Aggregate, init: seq<OrderEvent>, last: OrderEvent, orderId: Id)
    requires Inv(a) && Burst(a, init + [last], orderId) && Burst(a, init, orderId)
    ensures var b, c := AfterBurst(a, init, orderId), AfterBurst(a, init + [last], orderId);
      && (AtBroker(b.state) || (b.state.Filled? && last.body.BrokerAcknowledged?))
      && (b.brokerOrderId.None? || b.brokerOrderId == Some(orderId))
      && b.filled + Shares(last) == c.filled <= b.intent.requested
      && c == WithAnswer(b, last, orderId)
  {
    var es := init + [last];
    hide Inv, Burst, Settled, Identities, FillsIn, TotalShares;
    BurstFacts(a, init, last, orderId);
    LogsGrow(a, init, last);
    SettledGrows(a, init, last);
  }

  lemma AnswerAccepted(a: Aggregate, init: seq<OrderEvent>, last: OrderEvent, orderId: Id)
    requires Inv(a) && Burst(a, init + [last], orderId) && last !in init
    requires Inv(AfterBurst(a, init, orderId))
    requires Burst(a, init, orderId)
    ensures Apply(AfterBurst(a, init, orderId), last) == Ok(AfterBurst(a, init + [last], orderId))
  {
    hide Inv, Apply, AfterBurst;
    assert last in init + [last];
    StillFresh(a, init, last, orderId);
    AfterBurstGrows(a, init, last, orderId);
    if last.body.FillReported? {
      FillAccepted(AfterBurst(a, init, orderId), last, last.body.fill);
    } else {
      AckAccepted(AfterBurst(a, init, orderId), last, orderId);
    }
  }

  // ---------------------------------------------------------------- permutations

  lemma {:induction false} TakenOut(p: seq<OrderEvent>, x: OrderEvent, q: seq<OrderEvent>)
    ensures TotalShares(p + [x] + q) == TotalShares(p + q) + Shares(x)
    ensures multiset(FillsIn(p + [x] + q))
         == multiset(FillsIn(p + q))
            + (if x.body.FillReported? then multiset{x.body.fill} else multiset{})
    decreases q
  {
    if q == [] {
      assert p + [x] + q == p + [x] && p + q == p;
      assert (p + [x])[..|p|] == p;
    } else {
      var init, last := q[..|q| - 1], q[|q| - 1];
      TakenOut(p, x, init);
      var longer, shorter := p + [x] + q, p + q;
      assert longer[..|longer| - 1] == p + [x] + init;
      assert shorter[..|shorter| - 1] == p + init;
    }
  }

  lemma SameWithout(init: seq<OrderEvent>, x: OrderEvent, p: seq<OrderEvent>, q: seq<OrderEvent>)
    requires multiset(init + [x]) == multiset(p + [x] + q)
    ensures multiset(init) == multiset(p + q)
  {
    assert multiset(init) == multiset(init + [x]) - multiset{x};
    assert multiset(p + q) == multiset(p + [x] + q) - multiset{x};
  }

  lemma {:induction false} PermutedTotals(es: seq<OrderEvent>, fs: seq<OrderEvent>)
    requires multiset(es) == multiset(fs)
    ensures |es| == |fs| && TotalShares(es) == TotalShares(fs)
    ensures multiset(FillsIn(es)) == multiset(FillsIn(fs))
  {
    assert |es| == |multiset(es)| == |fs|;
    if es != [] {
      var init, x := es[..|es| - 1], es[|es| - 1];
      assert es == init + [x];
      assert x in multiset(fs);
      var i :| 0 <= i < |fs| && fs[i] == x;
      var p, q := fs[..i], fs[i + 1..];
      assert fs == p + [x] + q;
      SameWithout(init, x, p, q);
      PermutedTotals(init, p + q);
      TakenOut(p, x, q);
    }
  }

  lemma PermutedMembers(es: seq<OrderEvent>, fs: seq<OrderEvent>)
    requires multiset(es) == multiset(fs)
    ensures forall e :: e in es <==> e in fs
  {
    forall e ensures e in es <==> e in fs {
      assert e in es <==> e in multiset(es);
      assert e in fs <==> e in multiset(fs);
    }
  }

  lemma PermutedBurst(a: Aggregate, es: seq<OrderEvent>, fs: seq<OrderEvent>, orderId: Id)
    requires Burst(a, es, orderId) && multiset(es) == multiset(fs)
    ensures Burst(a, fs, orderId) && Settled(a, fs) == Settled(a, es)
  {
    hide FillsIn, TotalShares;
    PermutedTotals(es, fs);
    PermutedMembers(es, fs);
    PermutedFit(a, es, fs, orderId);
  }

  lemma PermutedFit(a: Aggregate, es: seq<OrderEvent>, fs: seq<OrderEvent>, orderId: Id)
    requires Burst(a, es, orderId) && TotalShares(es) == TotalShares(fs)
    requires multiset(es) == multiset(fs) && forall e :: e in es <==> e in fs
    ensures Burst(a, fs, orderId)
  {
    hide FillsIn, TotalShares;
  }

  lemma PermutedLog(es: seq<OrderEvent>, fs: seq<OrderEvent>)
    requires multiset(es) == multiset(fs)
    ensures multiset(Identities(es)) == multiset(Identities(fs))
  {
    LogCounts(es);
    LogCounts(fs);
    forall x ensures multiset(Identities(es))[x] == multiset(Identities(fs))[x] {
      assert multiset(Identities(es))[x]
          == if x.eventId == x.fingerprint.eventId then multiset(es)[x.fingerprint] else 0;
    }
  }

  lemma {:induction false} LogCounts(es: seq<OrderEvent>)
    ensures forall x :: (multiset(Identities(es))[x]
         == if x.eventId == x.fingerprint.eventId then multiset(es)[x.fingerprint] else 0)
  {
    if es != [] {
      var init, last := es[..|es| - 1], es[|es| - 1];
      LogCounts(init);
      assert es == init + [last];
      assert Identities(es) == Identities(init) + [AppliedEvent(last.eventId, last)];
    }
  }

  /** In whatever order a burst arrives it is accepted, and only the order of the two
      logs tells the arrivals apart. */
  lemma AnswersCommute(a: Aggregate, es: seq<OrderEvent>, fs: seq<OrderEvent>, orderId: Id)
    requires Inv(a) && Burst(a, es, orderId) && multiset(es) == multiset(fs)
    ensures Run(a, es).Ok? && Run(a, fs).Ok?
    ensures var b, c := Run(a, es).value, Run(a, fs).value;
      && c == b.(fills := c.fills, applied := c.applied)
      && multiset(c.fills) == multiset(b.fills)
      && multiset(c.applied) == multiset(b.applied)
  {
    hide Inv, Burst, Run, Settled;
    PermutedBurst(a, es, fs, orderId);
    BurstAccepted(a, es, orderId);
    BurstAccepted(a, fs, orderId);
    PermutedTotals(es, fs);
    PermutedLog(es, fs);
    assert es == [] <==> fs == [];
  }
}
