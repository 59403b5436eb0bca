/** A cancellation may overtake acknowledgements and fills of its order, or be overtaken. */
module OrderCancellation {
  import opened Wrappers
  import opened Ids
  import opened Orders
  import opened OrderInvariant
  import opened OrderHistory
  import opened OrderTable
  import opened OrderDelivery

  const LATE := LateFillAfter(Cancelled)

  /** A cancelled order that has taken these answers: still cancelled, and flagged once a
      fill was among them. */
  function AfterLate(b: Aggregate, es: seq<OrderEvent>, orderId: Id): Aggregate {
    b.(
      filled := b.filled + TotalShares(es),
      fills := b.fills + FillsIn(es),
      applied := b.applied + Identities(es),
      version := b.version + |es|,
      lateFillFlag := b.lateFillFlag || AnyFill(es),
      anomalies := if AnyFill(es) then WithAnomaly(b, LATE) else b.anomalies)
  }

  /** One answer to a cancelled order. */
  function WithLate(b: Aggregate, e: OrderEvent): Aggregate {
    b.(
      filled := b.filled + Shares(e),
      fills := if e.body.FillReported? then b.fills + [e.body.fill] else b.fills,
      applied := b.applied + [AppliedEvent(e.eventId, e)],
      version := b.version + 1,
      lateFillFlag := b.lateFillFlag || e.body.FillReported?,
      anomalies := if e.body.FillReported? then WithAnomaly(b, LATE) else b.anomalies)
  }

  lemma LateFillIsUpdate(b: Aggregate, e: OrderEvent, fill: AppliedFill)
    requires b.state.Cancelled? && e.body == FillReported(fill)
    requires FindEvent(b.applied, e.eventId).None? && FindFill(b.fills, fill.fillId).None?
    requires b.filled + fill.shares <= b.intent.requested
    ensures Apply(b, e)
         == Updated(b, e, b.state, Some(fill.orderId),
              b.(filled := b.filled + fill.shares, fills := b.fills + [fill],
                 lateFillFlag := true, anomalies := WithAnomaly(b, LATE)))
  {
    hide Updated, WithAnomaly, FindEvent, FindFill;
  }

  lemma LateAnswerAccepted(b: Aggregate, e: OrderEvent, orderId: Id)
    requires Inv(b) && b.state.Cancelled? && b.brokerOrderId == Some(orderId) && IsAnswer(e, orderId)
    requires FindEvent(b.applied, e.eventId).None?
    requires e.body.FillReported? ==> FindFill(b.fills, e.body.fill.fillId).None?
    requires b.filled + Shares(e) <= b.intent.requested
    ensures Apply(b, e) == Ok(WithLate(b, e)) && Inv(WithLate(b, e))
  {
    hide Inv, FindEvent, FindFill, Updated, WithAnomaly;
    ApplyKeepsInv(b, e);
    if e.body.FillReported? {
      hide Apply;
      var fill := e.body.fill;
      var draft := b.(filled := b.filled + fill.shares, fills := b.fills + [fill],
                      lateFillFlag := true, anomalies := WithAnomaly(b, LATE));
      LateFillIsUpdate(b, e, fill);
      UpdatedAccepted(b, e, b.state, orderId, draft);
    } else {
      UpdatedAccepted(b, e, b.state, orderId, b);
    }
  }

  lemma LateGrows(b: Aggregate, init: seq<OrderEvent>, last: OrderEvent, orderId: Id)
    ensures AfterLate(b, init + [last], orderId) == WithLate(AfterLate(b, init, orderId), last)
  {
    hide AnyFill, Identities, FillsIn, TotalShares;
    AnyGrows(init, last);
    LogsGrow(b, init, last);
  }

  /** A cancelled order accepts every acknowledgement and fitting new fill. */
  lemma {:induction false} LateAnswersAccepted(b: Aggregate, es: seq<OrderEvent>, orderId: Id)
    requires Inv(b) && b.state.Cancelled? && b.brokerOrderId == Some(orderId) && NewAnswers(b, es, orderId)
    ensures Run(b, es) == Ok(AfterLate(b, es, orderId)) && Inv(AfterLate(b, es, orderId))
  {
    hide Inv, Apply, AfterLate, NewAnswers;
    if es == [] {
      NothingLate(b, orderId);
    } else {
      var init, last := es[..|es| - 1], es[|es| - 1];
      assert es == init + [last];
      AnswersPrefix(b, es, orderId);
      LateAnswersAccepted(b, init, orderId);
      LateFits(b, init, last, orderId);
      LateAnswerAccepted(AfterLate(b, init, orderId), last, orderId);
      LateGrows(b, init, last, orderId);
    }
  }

  lemma NothingLate(b: Aggregate, orderId: Id)
    ensures AfterLate(b, [], orderId) == b
  {
    assert b.applied + [] == b.applied && b.fills + [] == b.fills;
  }

  lemma LateFits(b: Aggregate, init: seq<OrderEvent>, last: OrderEvent, orderId: Id)
    requires NewAnswers(b, init + [last], orderId) && last !in init && b.brokerOrderId == Some(orderId)
    ensures var c := AfterLate(b, init, orderId);
      && c.state == b.state && c.brokerOrderId == b.brokerOrderId && IsAnswer(last, orderId)
      && FindEvent(c.applied, last.eventId).None?
      && (last.body.FillReported? ==> FindFill(c.fills, last.body.fill.fillId).None?)
      && c.filled + Shares(last) <= c.intent.requested
  {
    hide FindEvent, FindFill;
    StillFresh(b, init, last, orderId);
    assert last in init + [last] && (init + [last])[..|init|] == init;
  }

  // ----------------------------------------------------------------- before and after

  lemma {:induction false} RunJoins(a: Aggregate, xs: seq<OrderEvent>, ys: seq<OrderEvent>)
    requires Run(a, xs).Ok?
    ensures Run(a, xs + ys) == Run(Run(a, xs).value, ys)
    decreases |ys|
  {
    hide Apply;
    if ys == [] {
      assert xs + ys == xs;
    } else {
      RunJoins(a, xs, ys[..|ys| - 1]);
      assert (xs + ys)[..|xs + ys| - 1] == xs + ys[..|ys| - 1];
    }
  }

  lemma {:induction false} TotalsJoin(xs: seq<OrderEvent>, ys: seq<OrderEvent>)
    ensures TotalShares(xs + ys) == TotalShares(xs) + TotalShares(ys)
    ensures FillsIn(xs + ys) == FillsIn(xs) + FillsIn(ys)
    decreases |ys|
  {
    if ys == [] {
      assert xs + ys == xs;
    } else {
      TotalsJoin(xs, ys[..|ys| - 1]);
      assert (xs + ys)[..|xs + ys| - 1] == xs + ys[..|ys| - 1];
    }
  }

  lemma Once(front: seq<OrderEvent>, back: seq<OrderEvent>, e: OrderEvent)
    requires multiset(front + back)[e] == 1
    ensures e in front ==> multiset(front)[e] == 1 && e !in back
    ensures e in back ==> multiset(back)[e] == 1 && e !in front
  {
    assert multiset(front + back)[e] == multiset(front)[e] + multiset(back)[e];
    assert e in front <==> e in multiset(front);
    assert e in back <==> e in multiset(back);
  }

  lemma FrontIsNew(a: Aggregate, front: seq<OrderEvent>, back: seq<OrderEvent>, orderId: Id)
    requires NewAnswers(a, front + back, orderId)
    ensures NewAnswers(a, front, orderId)
  {
    hide FillsIn, TotalShares;
    TotalsJoin(front, back);
    forall e | e in front ensures e in front + back && multiset(front)[e] == 1 {
      Once(front, back, e);
    }
  }

  /** Answers not yet taken are new to an order that has taken the others and one more event. */
  lemma BackIsNew(a: Aggregate, front: seq<OrderEvent>, c: OrderEvent, back: seq<OrderEvent>, orderId: Id, b: Aggregate)
    requires NewAnswers(a, front + back, orderId)
    requires forall e :: e in back ==> e.eventId != c.eventId
    requires b.brokerOrderId == Some(orderId) && b.intent == a.intent
    requires b.filled == a.filled + TotalShares(front) && b.fills == a.fills + FillsIn(front)
    requires b.applied == a.applied + Identities(front) + [AppliedEvent(c.eventId, c)]
    ensures NewAnswers(b, back, orderId)
  {
    hide FillsIn, TotalShares;
    TotalsJoin(front, back);
    forall e | e in back ensures e in front + back && multiset(back)[e] == 1 && e !in front {
      Once(front, back, e);
    }
    forall e, x | e in back && x in b.applied ensures x.eventId != e.eventId {
      if x in Identities(front) {
        var i :| 0 <= i < |front| && Identities(front)[i] == x;
        assert front[i] in front + back && front[i] != e;
      }
    }
    forall e, f | e in back && f in b.fills && e.body.FillReported? ensures f.fillId != e.body.fill.fillId {
      if f in FillsIn(front) {
        var d := FillOrigin(front, f);
        assert d in front + back && d != e;
      }
    }
  }

  lemma OpenCancelled(b: Aggregate, c: OrderEvent, orderId: Id)
    requires Inv(b) && AtBroker(b.state) && c.body == CancelConfirmed(Some(orderId))
    requires b.brokerOrderId.None? || b.brokerOrderId == Some(orderId)
    requires FindEvent(b.applied, c.eventId).None?
    ensures Apply(b, c) == Ok(b.(
      state := Cancelled,
      brokerOrderId := Some(orderId),
      applied := b.applied + [AppliedEvent(c.eventId, c)],
      version := b.version + 1))
    ensures Inv(Apply(b, c).value)
  {
    ApplyKeepsInv(b, c);
    hide FindEvent, FindFill, Inv, ConstructorAccepts;
  }

  /** An order at the broker that takes some answers, then its cancellation, then the rest. */
  ghost predicate Interrupted(
    a: Aggregate, front: seq<OrderEvent>, c: OrderEvent, back: seq<OrderEvent>, orderId: Id
  ) {
    && Burst(a, front + back, orderId)
    && a.filled + TotalShares(front) < a.intent.requested
    && c.body == CancelConfirmed(Some(orderId))
    && (forall e :: e in front + back ==> e.eventId != c.eventId)
    && FindEvent(a.applied, c.eventId).None?
  }

  /** Every such delivery is accepted: the order ends cancelled, with all the fills, and
      flagged exactly when one of them came after the cancellation. */
  lemma InterruptedAccepted(
    a: Aggregate, front: seq<OrderEvent>, c: OrderEvent, back: seq<OrderEvent>, orderId: Id
  )
    requires Inv(a) && Interrupted(a, front, c, back, orderId)
    ensures var r := Run(a, front + [c] + back);
      && r.Ok? && Inv(r.value) && r.value.state.Cancelled? && r.value.brokerOrderId == Some(orderId)
      && r.value.filled == a.filled + TotalShares(front + back)
      && r.value.fills == a.fills + FillsIn(front + back)
      && r.value.version == a.version + |front| + 1 + |back|
      && r.value.applied == a.applied + Identities(front + [c] + back)
      && (r.value.lateFillFlag <==> AnyFill(back))
  {
    hide Inv, NewAnswers, Apply, FillsIn, TotalShares, Settled, FindEvent, Run;
    FrontIsNew(a, front, back, orderId);
    BurstAccepted(a, front, orderId);
    var b := AfterBurst(a, front, orderId);
    BurstStaysOpen(a, front, orderId);
    CancelIsFresh(a, front, c, back);
    OpenCancelled(b, c, orderId);
    var cancelled := Apply(b, c).value;
    RunOne(a, front, c);
    BackIsNew(a, front, c, back, orderId, cancelled);
    LateAnswersAccepted(cancelled, back, orderId);
    RunJoins(a, front + [c], back);
    TotalsJoin(front, back);
    assert a.fills + FillsIn(front) + FillsIn(back) == a.fills + (FillsIn(front) + FillsIn(back));
    assert a.applied + Identities(front) + [AppliedEvent(c.eventId, c)] + Identities(back)
        == a.applied + Identities(front + [c] + back);
    NotFlagged(a);
  }

  lemma RunOne(a: Aggregate, es: seq<OrderEvent>, e: OrderEvent)
    requires Run(a, es).Ok?
    ensures Run(a, es + [e]) == Apply(Run(a, es).value, e)
  {
    assert (es + [e])[..|es|] == es;
  }

  lemma BurstStaysOpen(a: Aggregate, es: seq<OrderEvent>, orderId: Id)
    requires Burst(a, es, orderId) && a.filled + TotalShares(es) < a.intent.requested
    ensures var b := AfterBurst(a, es, orderId);
      AtBroker(b.state) && (b.brokerOrderId.None? || b.brokerOrderId == Some(orderId))
  {
    hide FillsIn, TotalShares, AnyFill, AnyAck, Identities;
  }

  lemma CancelIsFresh(a: Aggregate, front: seq<OrderEvent>, c: OrderEvent, back: seq<OrderEvent>)
    requires forall e :: e in front + back ==> e.eventId != c.eventId
    requires FindEvent(a.applied, c.eventId).None?
    ensures FindEvent(a.applied + Identities(front), c.eventId).None?
  {
    hide FindEvent;
    forall x | x in a.applied + Identities(front) ensures x.eventId != c.eventId {
      if x !in a.applied {
        var i :| 0 <= i < |front| && Identities(front)[i] == x;
        assert front[i] in front + back;
      }
    }
  }

  lemma NotFlagged(a: Aggregate)
    requires Inv(a) && AtBroker(a.state)
    ensures !a.lateFillFlag
  {
    hide SumShares, DistinctFillIds, DistinctEventIds, FillsOf, SubmitsOf, CancelsOf;
    assert LateFillAfter(a.state) in a.anomalies ==> Terminal(a.state);
  }
}
