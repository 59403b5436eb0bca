/** Whole runs of the order aggregate: reachability, absorption of terminal states,
    replay of its own log, and at-least-once delivery. */
module OrderHistory {
  import opened Wrappers
  import opened Ids
  import opened Orders
  import opened OrderInvariant

  /** Every delivery sequence from an intent keeps the invariant; what is refused is
      refused as a transition error. */
  lemma {:induction false} ReachableInv(intent: Intent, es: seq<OrderEvent>)
    requires intent.requested > 0
    requires forall e :: e in es ==> WellFormed(e)
    ensures Run(FromIntent(intent), es) != Err(ConstructorRejected)
    ensures Run(FromIntent(intent), es).Ok? ==> Inv(Run(FromIntent(intent), es).value)
  {
    if es == [] {
      InitialInv(intent);
    } else {
      ReachableInv(intent, es[..|es| - 1]);
      var before := Run(FromIntent(intent), es[..|es| - 1]);
      if before.Ok? {
        ApplyKeepsInv(before.value, es[|es| - 1]);
      }
    }
  }

  /** `b` is `a` with this event recorded once, at the end of the log. */
  ghost predicate Records(a: Aggregate, e: OrderEvent, b: Aggregate, fills: seq<AppliedFill>) {
    && b.intent == a.intent
    && b.applied == a.applied + [AppliedEvent(e.eventId, e)]
    && b.fills == fills
    && b.version == a.version + 1
    && (b.state == a.state || CanMove(a.state, b.state))
  }

  lemma UpdatedRecords(a: Aggregate, e: OrderEvent)
    ensures forall target, orderId, draft ::
      Updated(a, e, target, orderId, draft).Ok? && draft.intent == a.intent ==>
      Records(a, e, Updated(a, e, target, orderId, draft).value, draft.fills)
  {
    hide ConstructorAccepts, CanMove;
  }

  lemma FillRecords(a: Aggregate, e: OrderEvent, fill: AppliedFill)
    requires ApplyFill(a, e, fill).Ok?
    ensures var b := ApplyFill(a, e, fill).value;
      b == a || Records(a, e, b, a.fills + [fill])
  {
    hide Updated, FindFill, WithAnomaly, Records;
    UpdatedRecords(a, e);
  }

  lemma AckRecords(a: Aggregate, e: OrderEvent, orderId: Id)
    requires ApplyAck(a, e, orderId).Ok?
    ensures Records(a, e, ApplyAck(a, e, orderId).value, a.fills)
  {
    hide Updated, WithAnomaly, Records;
    UpdatedRecords(a, e);
  }

  lemma CancelledRecords(a: Aggregate, e: OrderEvent, orderId: Option<Id>)
    requires ApplyCancelled(a, e, orderId).Ok?
    ensures Records(a, e, ApplyCancelled(a, e, orderId).value, a.fills)
  {
    hide Updated, WithAnomaly, Records;
    UpdatedRecords(a, e);
  }

  /** An accepted event changes nothing, or is recorded once at the end of the log. */
  lemma ApplyRecords(a: Aggregate, e: OrderEvent)
    requires Apply(a, e).Ok?
    ensures var b := Apply(a, e).value;
      b == a
      || Records(a, e, b, if e.body.FillReported? then a.fills + [e.body.fill] else a.fills)
  {
    hide Updated, FindEvent, WithAnomaly, Records, ApplyFill, ApplyAck, ApplyCancelled;
    if FindEvent(a.applied, e.eventId).None? {
      match e.body
      case FillReported(fill) => FillRecords(a, e, fill);
      case BrokerAcknowledged(orderId) => AckRecords(a, e, orderId);
      case CancelConfirmed(orderId) => CancelledRecords(a, e, orderId);
      case _ => UpdatedRecords(a, e);
    }
  }

  /** The states passed through, one per event. */
  function States(a: Aggregate, es: seq<OrderEvent>): (path: seq<OrderState>)
    ensures |path| == |es| + 1
  {
    if es == [] then [a.state]
    else
      var r := Run(a, es);
      States(a, es[..|es| - 1])
      + [if r.Ok? then r.value.state else States(a, es[..|es| - 1])[|es| - 1]]
  }

  /** Every run walks the published table, and never leaves a terminal state. */
  lemma {:induction false} RunWalksTable(a: Aggregate, es: seq<OrderEvent>)
    ensures forall i :: 0 <= i < |es| ==>
      var path := States(a, es);
      path[i + 1] == path[i] || (CanMove(path[i], path[i + 1]) && !Terminal(path[i]))
    ensures Run(a, es).Ok? ==> States(a, es)[|es|] == Run(a, es).value.state
  {
    if es != [] {
      var init := es[..|es| - 1];
      RunWalksTable(a, init);
      var before := Run(a, init);
      if before.Ok? && Run(a, es).Ok? {
        ApplyRecords(before.value, es[|es| - 1]);
      }
      assert forall i :: 0 <= i < |es| ==> States(a, es)[i] == States(a, init)[i];
    }
  }

  lemma {:induction false} TerminalAbsorbs(a: Aggregate, es: seq<OrderEvent>)
    requires Terminal(a.state)
    ensures Run(a, es).Ok? ==> Run(a, es).value.state == a.state
  {
    if es != [] {
      var before := Run(a, es[..|es| - 1]);
      TerminalAbsorbs(a, es[..|es| - 1]);
      if before.Ok? && Run(a, es).Ok? {
        ApplyRecords(before.value, es[|es| - 1]);
      }
    }
  }

  /** Broker reality after the end: a new fill on a cancelled, rejected or expired
      order is retained and flagged exactly when it names the order's broker id and
      fits the request. */
  lemma LateFillRetained(a: Aggregate, e: OrderEvent, fill: AppliedFill)
    requires Inv(a) && WellFormed(e) && e.body == FillReported(fill)
    requires a.state.Cancelled? || a.state.Rejected? || a.state.Expired?
    requires FindEvent(a.applied, e.eventId).None? && FindFill(a.fills, fill.fillId).None?
    ensures Apply(a, e).Ok? <==>
      && (a.brokerOrderId.None? || a.brokerOrderId == Some(fill.orderId))
      && a.filled + fill.shares <= a.intent.requested
    ensures Apply(a, e).Ok? ==>
      var b := Apply(a, e).value;
      && b.state == a.state
      && b.fills == a.fills + [fill]
      && b.filled == a.filled + fill.shares
      && b.brokerOrderId == Some(fill.orderId)
      && b.lateFillFlag
      && LateFillAfter(a.state) in b.anomalies
  {
    hide SumShares, DistinctFillIds, DistinctEventIds, FindEvent, FindFill, FillsOf, SubmitsOf, CancelsOf;
    ApplyKeepsInv(a, e);
  }

  /** The investigation flag is raised exactly when a late fill was observed. */
  lemma FlagMeansLateFill(intent: Intent, es: seq<OrderEvent>)
    requires intent.requested > 0
    requires forall e :: e in es ==> WellFormed(e)
    ensures Run(FromIntent(intent), es).Ok? ==>
      var a := Run(FromIntent(intent), es).value;
      a.lateFillFlag <==> exists s :: LateFillAfter(s) in a.anomalies
  {
    ReachableInv(intent, es);
    var r := Run(FromIntent(intent), es);
    if r.Ok? && r.value.lateFillFlag {
      assert LateFillAfter(r.value.state) in r.value.anomalies;
    }
    if r.Ok? {
      forall s | LateFillAfter(s) in r.value.anomalies ensures r.value.lateFillFlag {
        assert ObservedIn(LateFillAfter(s)) == r.value.state;
      }
    }
  }

  /** The recorded events, in order. */
  function Recorded(applied: seq<AppliedEvent>): seq<OrderEvent> {
    if applied == [] then []
    else Recorded(applied[..|applied| - 1]) + [applied[|applied| - 1].fingerprint]
  }

  /** Event sourcing: the aggregate is a function of the log it keeps. */
  lemma {:induction false} ReplayRebuilds(intent: Intent, es: seq<OrderEvent>)
    requires Run(FromIntent(intent), es).Ok?
    ensures var a := Run(FromIntent(intent), es).value;
      Run(FromIntent(intent), Recorded(a.applied)) == Ok(a)
  {
    if es != [] {
      var e := es[|es| - 1];
      var before := Run(FromIntent(intent), es[..|es| - 1]).value;
      ReplayRebuilds(intent, es[..|es| - 1]);
      var a := Run(FromIntent(intent), es).value;
      ApplyRecords(before, e);
      if a != before {
        assert a.applied[..|a.applied| - 1] == before.applied;
        assert Recorded(a.applied)[..|Recorded(a.applied)| - 1] == Recorded(before.applied);
      }
    }
  }

  // ------------------------------------------------------------------ redelivery

  lemma {:induction false} FindEventSnoc(applied: seq<AppliedEvent>, x: AppliedEvent, eventId: Id)
    ensures FindEvent(applied + [x], eventId)
         == if FindEvent(applied, eventId).Some? then FindEvent(applied, eventId)
            else if x.eventId == eventId then Some(x) else None
  {
    if applied == [] {
      assert FindEvent([x][1..], eventId) == None;
    } else {
      assert (applied + [x])[1..] == applied[1..] + [x];
      FindEventSnoc(applied[1..], x, eventId);
    }
  }

  lemma {:induction false} FindFillSnoc(fills: seq<AppliedFill>, f: AppliedFill, fillId: Id)
    ensures FindFill(fills + [f], fillId)
         == if FindFill(fills, fillId).Some? then FindFill(fills, fillId)
            else if f.fillId == fillId then Some(f) else None
  {
    if fills == [] {
      assert FindFill([f][1..], fillId) == None;
    } else {
      assert (fills + [f])[1..] == fills[1..] + [f];
      FindFillSnoc(fills[1..], f, fillId);
    }
  }

  /** The aggregate will treat another copy of `e` as already applied. */
  predicate Absorbed(a: Aggregate, e: OrderEvent) {
    var seen := FindEvent(a.applied, e.eventId);
    if seen.Some? then seen.value.fingerprint == e
    else e.body.FillReported? && FindFill(a.fills, e.body.fill.fillId) == Some(e.body.fill)
  }

  lemma AbsorbedIsNoOp(a: Aggregate, e: OrderEvent)
    requires Absorbed(a, e)
    ensures Apply(a, e) == Ok(a)
  {
  }

  lemma AcceptedIsAbsorbed(a: Aggregate, e: OrderEvent)
    requires Apply(a, e).Ok?
    ensures Absorbed(Apply(a, e).value, e)
  {
    hide ConstructorAccepts, WithAnomaly, CanMove;
    ApplyRecords(a, e);
    FindEventSnoc(a.applied, AppliedEvent(e.eventId, e), e.eventId);
  }

  lemma AbsorptionLasts(a: Aggregate, e: OrderEvent, later: OrderEvent)
    requires Absorbed(a, e) && Apply(a, later).Ok?
    requires later.eventId == e.eventId ==> later == e
    ensures Absorbed(Apply(a, later).value, e)
  {
    hide Apply, FindEvent, FindFill;
    AbsorbedIsNoOp(a, e);
    ApplyRecords(a, later);
    FindEventSnoc(a.applied, AppliedEvent(later.eventId, later), e.eventId);
    if later.body.FillReported? && e.body.FillReported? {
      FindFillSnoc(a.fills, later.body.fill, e.body.fill.fillId);
    }
  }

  /** No event id carries two contents, neither in the delivery nor against the log. */
  ghost predicate ConsistentIds(a: Aggregate, es: seq<OrderEvent>) {
    && (forall d, e :: d in es && e in es && d.eventId == e.eventId ==> d == e)
    && (forall x, e :: x in a.applied && e in es && x.eventId == e.eventId ==> x.fingerprint == e)
  }

  /** The same delivery with only the first copy of each event. */
  function FirstCopies(es: seq<OrderEvent>): (firsts: seq<OrderEvent>)
    ensures forall e :: e in firsts <==> e in es
  {
    if es == [] then []
    else
      var init := es[..|es| - 1];
      assert forall e :: e in es <==> e in init || e == es[|es| - 1];
      if es[|es| - 1] in init then FirstCopies(init) else FirstCopies(init) + [es[|es| - 1]]
  }

  /** At-least-once delivery is exactly-once delivery, whatever is repeated and
      wherever the copies arrive. */
  lemma {:induction false} AtLeastOnceIsExactlyOnce(a: Aggregate, es: seq<OrderEvent>)
    requires ConsistentIds(a, es)
    ensures Run(a, es) == Run(a, FirstCopies(es))
  {
    if es != [] {
      hide Apply;
      var init, last := es[..|es| - 1], es[|es| - 1];
      AtLeastOnceIsExactlyOnce(a, init);
      var firsts := FirstCopies(init);
      assert (firsts + [last])[..|firsts|] == firsts;
      var before := Run(a, init);
      if before.Ok? && last in init {
        DeliveredIsAbsorbed(a, init, last);
        AbsorbedIsNoOp(before.value, last);
      }
    }
  }

  lemma {:induction false} DeliveredIsAbsorbed(a: Aggregate, es: seq<OrderEvent>, e: OrderEvent)
    requires ConsistentIds(a, es) && e in es && Run(a, es).Ok?
    ensures Absorbed(Run(a, es).value, e)
  {
    hide Apply, Absorbed;
    var init, last := es[..|es| - 1], es[|es| - 1];
    var before := Run(a, init).value;
    if e == last {
      AcceptedIsAbsorbed(before, e);
    } else {
      assert e in init;
      DeliveredIsAbsorbed(a, init, e);
      AbsorptionLasts(before, e, last);
    }
  }

  /** Copies inserted into an accepted delivery change nothing. */
  lemma RedeliveryIsInvisible(
    a: Aggregate, first: seq<OrderEvent>, copies: seq<OrderEvent>, rest: seq<OrderEvent>
  )
    requires ConsistentIds(a, first + rest)
    requires forall e :: e in copies ==> e in first
    ensures Run(a, first + copies + rest) == Run(a, first + rest)
  {
    var longer, shorter := first + copies + rest, first + rest;
    assert forall e :: e in longer <==> e in shorter;
    AtLeastOnceIsExactlyOnce(a, longer);
    AtLeastOnceIsExactlyOnce(a, shorter);
    FirstCopiesIgnoreRepeats(first, copies, rest);
  }

  lemma {:induction false} FirstCopiesIgnoreRepeats(
    first: seq<OrderEvent>, copies: seq<OrderEvent>, rest: seq<OrderEvent>
  )
    requires forall e :: e in copies ==> e in first
    ensures FirstCopies(first + copies + rest) == FirstCopies(first + rest)
    decreases |rest|
  {
    hide FirstCopies;
    if rest == [] {
      FirstCopiesIgnoreCopies(first, copies);
      assert first + copies + rest == first + copies && first + rest == first;
    } else {
      var init, last := rest[..|rest| - 1], rest[|rest| - 1];
      FirstCopiesIgnoreRepeats(first, copies, init);
      FirstCopiesSnoc(first + copies + init, last);
      FirstCopiesSnoc(first + init, last);
      assert first + copies + rest == first + copies + init + [last];
      assert first + rest == first + init + [last];
      assert last in first + copies + init <==> last in first + init;
    }
  }

  lemma {:induction false} FirstCopiesIgnoreCopies(first: seq<OrderEvent>, copies: seq<OrderEvent>)
    requires forall e :: e in copies ==> e in first
    ensures FirstCopies(first + copies) == FirstCopies(first)
    decreases |copies|
  {
    hide FirstCopies;
    if copies == [] {
      assert first + copies == first;
    } else {
      var init, last := copies[..|copies| - 1], copies[|copies| - 1];
      FirstCopiesIgnoreCopies(first, init);
      FirstCopiesSnoc(first + init, last);
      assert first + copies == first + init + [last];
    }
  }

  lemma FirstCopiesSnoc(es: seq<OrderEvent>, e: OrderEvent)
    ensures FirstCopies(es + [e])
         == if e in es then FirstCopies(es) else FirstCopies(es) + [e]
  {
    assert (es + [e])[..|es|] == es;
  }

  /** The same fill under an id the log has not seen is a no-op, and leaves no trace. */
  lemma RepeatedFillIsInvisible(a: Aggregate, fill: AppliedFill, eventId: Id)
    requires Inv(a) && fill in a.fills && FindEvent(a.applied, eventId).None?
    ensures Apply(a, OrderEvent(eventId, FillReported(fill))) == Ok(a)
  {
    FindRetained(a.fills, fill);
  }

  lemma {:induction false} FindRetained(fills: seq<AppliedFill>, fill: AppliedFill)
    requires DistinctFillIds(fills) && fill in fills
    ensures FindFill(fills, fill.fillId) == Some(fill)
  {
    var init, last := fills[..|fills| - 1], fills[|fills| - 1];
    assert fills == init + [last];
    FindFillSnoc(init, last, fill.fillId);
    if fill in init {
      FindRetained(init, fill);
    }
  }
}
