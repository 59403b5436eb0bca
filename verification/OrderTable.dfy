/** A reference answer sheet for the order aggregate, event by event, and the proof
    that the branches of the code and the transition table together amount to it. */
module OrderTable {
  import opened Wrappers
  import opened Ids
  import opened Orders
  import opened OrderHistory
  import opened OrderInvariant

  predicate AtBroker(s: OrderState) {
    s.Submitting? || s.Acknowledged? || s.PartiallyFilled? || s.CancelRequested? || s.Unknown?
  }

  /** The state an event of this kind leads to; None when the state refuses the kind. */
  function Lands(s: OrderState, body: EventBody, filled: nat, requested: nat): Option<OrderState> {
    match body
    case OrderValidated => if s.Planned? || s.Validated? then Some(Validated) else None
    case OrderArmed =>
      if s.Validated? || s.Armed? || s.Submitting? || s.Unknown? then Some(Armed) else None
    case SubmitStarted => if s.Armed? || s.Submitting? then Some(Submitting) else None
    case SubmitNotAccepted(_) => if s.Submitting? then Some(Armed) else None
    case SubmitOutcomeUnknown(_) =>
      if AtBroker(s) then Some(Unknown) else if Terminal(s) then Some(s) else None
    case UnknownResolvedNotAccepted(_) =>
      if s.Validated? || s.Armed? || s.Submitting? || s.Unknown? then Some(Armed) else None
    case BrokerAcknowledged(_) =>
      if s.Submitting? || s.Unknown? then Some(Acknowledged)
      else if AtBroker(s) || Terminal(s) then Some(s) else None
    case FillReported(fill) =>
      if filled + fill.shares > requested then None
      else if s.CancelRequested? then
        Some(if filled + fill.shares == requested then Filled else CancelRequested)
      else if AtBroker(s) then
        Some(if filled + fill.shares == requested then Filled else PartiallyFilled)
      else if Terminal(s) && !s.Filled? then Some(s) else None
    case CancelRequestedByUs =>
      if s.Acknowledged? || s.PartiallyFilled? || s.CancelRequested?
      then Some(CancelRequested) else None
    case CancelNotAccepted(_) =>
      if s.CancelRequested? then Some(if filled > 0 then PartiallyFilled else Acknowledged) else None
    case CancelOutcomeUnknown(_) =>
      if AtBroker(s) && !s.Submitting? then Some(Unknown) else None
    case CancelConfirmed(_) =>
      if AtBroker(s) then Some(Cancelled)
      else if s.Filled? || s.Cancelled? then Some(s) else None
    case BrokerRejected(_) =>
      if AtBroker(s) then Some(Rejected) else if Terminal(s) then Some(s) else None
    case OrderExpired(_) =>
      if s.Expired? then Some(s)
      else if Terminal(s) || s.Submitting? then None else Some(Expired)
  }

  /** The broker order id an event asserts. */
  function Names(a: Aggregate, body: EventBody): Option<Id> {
    match body
    case BrokerAcknowledged(orderId) => Some(orderId)
    case FillReported(fill) => Some(fill.orderId)
    case CancelConfirmed(orderId) => if orderId.Some? then orderId else a.brokerOrderId
    case _ => None
  }

  /** The contradiction an event leaves on record when it arrives after the end. */
  function Notes(s: OrderState, body: EventBody): Option<Anomaly> {
    match body
    case BrokerAcknowledged(_) => if s.Rejected? || s.Expired? then Some(AckAfter(s)) else None
    case FillReported(_) => if Terminal(s) then Some(LateFillAfter(s)) else None
    case CancelConfirmed(_) => if s.Filled? then Some(CancelAfterFilled) else None
    case BrokerRejected(_) => if Terminal(s) then Some(RejectAfter(s)) else None
    case _ => None
  }

  ghost predicate Accepts(a: Aggregate, e: OrderEvent) {
    && Lands(a.state, e.body, a.filled, a.intent.requested).Some?
    && (Names(a, e.body).Some? && a.brokerOrderId.Some? ==> Names(a, e.body) == a.brokerOrderId)
    && (e.body.CancelRequestedByUs? ==> a.brokerOrderId.Some?)
    && (e.body.CancelConfirmed? ==> Names(a, e.body).Some?)
  }

  /** The whole next aggregate after a new event. */
  ghost predicate Follows(a: Aggregate, e: OrderEvent, b: Aggregate) {
    var note := Notes(a.state, e.body);
    && Lands(a.state, e.body, a.filled, a.intent.requested) == Some(b.state)
    && b.brokerOrderId == (if Names(a, e.body).Some? then Names(a, e.body) else a.brokerOrderId)
    && b.anomalies == (if note.Some? && note.value !in a.anomalies then a.anomalies + [note.value] else a.anomalies)
    && b.lateFillFlag == (a.lateFillFlag || (note.Some? && note.value.LateFillAfter?))
    && b.fills == (if e.body.FillReported? then a.fills + [e.body.fill] else a.fills)
    && b.filled == (if e.body.FillReported? then a.filled + e.body.fill.shares else a.filled)
    && b.submitAttempts == a.submitAttempts + (if e.body.SubmitStarted? then 1 else 0)
    && b.cancelRequests == a.cancelRequests + (if e.body.CancelRequestedByUs? then 1 else 0)
    && b.applied == a.applied + [AppliedEvent(e.eventId, e)]
    && b.version == a.version + 1
    && b.intent == a.intent
  }

  ghost predicate NewMatchesSheet(a: Aggregate, e: OrderEvent, r: Outcome) {
    && (r.Ok? <==> Accepts(a, e))
    && (r.Ok? ==> Follows(a, e, r.value))
  }

  ghost predicate SeenEvent(a: Aggregate, eventId: Id) {
    exists x :: x in a.applied && x.eventId == eventId
  }

  ghost predicate SeenFill(a: Aggregate, fillId: Id) {
    exists f :: f in a.fills && f.fillId == fillId
  }

  ghost predicate MatchesSheet(a: Aggregate, e: OrderEvent, r: Outcome) {
    if SeenEvent(a, e.eventId) then
      r == if AppliedEvent(e.eventId, e) in a.applied then Ok(a) else Err(EventCollision)
    else if e.body.FillReported? && SeenFill(a, e.body.fill.fillId) then
      r == if e.body.fill in a.fills then Ok(a) else Err(FillCollision)
    else NewMatchesSheet(a, e, r)
  }

  lemma SeenEventMatches(a: Aggregate, e: OrderEvent)
    requires Inv(a) && SeenEvent(a, e.eventId)
    ensures Apply(a, e) == if AppliedEvent(e.eventId, e) in a.applied then Ok(a) else Err(EventCollision)
  {
    hide FindEvent, DistinctEventIds, ApplyNew;
    var seen :| seen in a.applied && seen.eventId == e.eventId;
    EventRetained(a.applied, seen);
    if AppliedEvent(e.eventId, e) in a.applied {
      EventRetained(a.applied, AppliedEvent(e.eventId, e));
    }
  }

  lemma {:induction false} EventRetained(applied: seq<AppliedEvent>, x: AppliedEvent)
    requires DistinctEventIds(applied) && x in applied
    ensures FindEvent(applied, x.eventId) == Some(x)
  {
    var init, last := applied[..|applied| - 1], applied[|applied| - 1];
    assert applied == init + [last];
    FindEventSnoc(init, last, x.eventId);
    if x in init {
      EventRetained(init, x);
    }
  }

  lemma SeenFillMatches(a: Aggregate, e: OrderEvent, fill: AppliedFill)
    requires Inv(a) && !SeenEvent(a, e.eventId) && e.body == FillReported(fill) && SeenFill(a, fill.fillId)
    ensures Apply(a, e) == if fill in a.fills then Ok(a) else Err(FillCollision)
  {
    hide FindEvent, FindFill, DistinctFillIds;
    var seen :| seen in a.fills && seen.fillId == fill.fillId;
    FindRetained(a.fills, seen);
    if fill in a.fills {
      FindRetained(a.fills, fill);
    }
  }

  lemma NewEventMatches(a: Aggregate, e: OrderEvent)
    requires Inv(a) && WellFormed(e) && FindEvent(a.applied, e.eventId).None?
    requires e.body.FillReported? ==> FindFill(a.fills, e.body.fill.fillId).None?
    ensures NewMatchesSheet(a, e, Apply(a, e))
  {
    ApplyKeepsInv(a, e);
    assert a.filled <= a.intent.requested && (a.state.Filled? ==> a.filled == a.intent.requested);
    hide FindEvent, FindFill, Inv, ApplyNew, NewMatchesSheet;
    if e.body.FillReported? {
      FillMatchesSheet(a, e, e.body.fill);
    } else if e.body.BrokerAcknowledged? {
      AckMatchesSheet(a, e, e.body.ackOrderId);
    } else if e.body.CancelConfirmed? {
      CancelMatchesSheet(a, e, e.body.confirmedOrderId);
    } else if e.body.BrokerRejected? || e.body.SubmitOutcomeUnknown? || e.body.CancelOutcomeUnknown? {
      EndMatchesSheet(a, e);
    } else {
      ProgressMatchesSheet(a, e);
    }
  }

  lemma FillMatchesSheet(a: Aggregate, e: OrderEvent, fill: AppliedFill)
    requires e.body == FillReported(fill) && FindFill(a.fills, fill.fillId).None? && fill.shares > 0
    requires a.filled <= a.intent.requested && (a.state.Filled? ==> a.filled == a.intent.requested)
    requires ApplyNew(a, e) != Err(ConstructorRejected)
    ensures NewMatchesSheet(a, e, ApplyNew(a, e))
  {
    hide ConstructorAccepts, FindFill;
  }

  lemma AckMatchesSheet(a: Aggregate, e: OrderEvent, orderId: Id)
    requires e.body == BrokerAcknowledged(orderId)
    requires ApplyNew(a, e) != Err(ConstructorRejected)
    ensures NewMatchesSheet(a, e, ApplyNew(a, e))
  {
    hide ConstructorAccepts;
  }

  lemma CancelMatchesSheet(a: Aggregate, e: OrderEvent, orderId: Option<Id>)
    requires e.body == CancelConfirmed(orderId)
    requires ApplyNew(a, e) != Err(ConstructorRejected)
    ensures NewMatchesSheet(a, e, ApplyNew(a, e))
  {
    hide ConstructorAccepts;
  }

  lemma EndMatchesSheet(a: Aggregate, e: OrderEvent)
    requires e.body.BrokerRejected? || e.body.SubmitOutcomeUnknown? || e.body.CancelOutcomeUnknown?
    requires ApplyNew(a, e) != Err(ConstructorRejected)
    ensures NewMatchesSheet(a, e, ApplyNew(a, e))
  {
    hide ConstructorAccepts, ApplyFill, ApplyAck, ApplyCancelled;
  }

  lemma ProgressMatchesSheet(a: Aggregate, e: OrderEvent)
    requires !e.body.FillReported? && !e.body.BrokerAcknowledged? && !e.body.CancelConfirmed?
    requires !e.body.BrokerRejected? && !e.body.SubmitOutcomeUnknown? && !e.body.CancelOutcomeUnknown?
    requires ApplyNew(a, e) != Err(ConstructorRejected)
    ensures NewMatchesSheet(a, e, ApplyNew(a, e))
  {
    hide ConstructorAccepts, ApplyFill, ApplyAck, ApplyCancelled, ApplyRejected, WithAnomaly;
  }

  /** Every event is answered by the sheet: an event or a fill on record changes nothing,
      its id with other contents is a collision, and anything new is accepted exactly when
      the sheet says so, with the sheet's next aggregate. */
  lemma ApplyMatchesSheet(a: Aggregate, e: OrderEvent)
    requires Inv(a) && WellFormed(e)
    ensures MatchesSheet(a, e, Apply(a, e))
  {
    hide FindEvent, FindFill, DistinctEventIds, DistinctFillIds, ApplyNew, NewMatchesSheet;
    if SeenEvent(a, e.eventId) {
      SeenEventMatches(a, e);
    } else if e.body.FillReported? && SeenFill(a, e.body.fill.fillId) {
      SeenFillMatches(a, e, e.body.fill);
    } else {
      NewEventMatches(a, e);
    }
  }
}
