/** The durable order aggregate: one execution intent driven by broker events.

    Event fingerprints are SHA-256 digests of the canonical event; a digest is
    modelled by the event it digests, so fingerprints are equal exactly when the
    events are. */
module Orders {
  import opened Wrappers
  import opened Ids

  /** Prices are counted in units of 0.00000001. */
  type Price = p: int | p > 0 witness 1

  datatype OrderState =
    | Planned | Validated | Armed | Submitting | Acknowledged | PartiallyFilled
    | Filled | CancelRequested | Cancelled | Rejected | Expired | Unknown

  predicate Terminal(s: OrderState) {
    s.Filled? || s.Cancelled? || s.Rejected? || s.Expired?
  }

  /** The published transition table. */
  predicate CanMove(s: OrderState, t: OrderState) {
    match s
    case Planned => t.Validated? || t.Expired?
    case Validated => t.Armed? || t.Expired?
    case Armed => t.Submitting? || t.Expired?
    case Submitting =>
      t.Armed? || t.Acknowledged? || t.PartiallyFilled? || t.Filled? || t.Cancelled? || t.Rejected?
      || t.Unknown?
    case Acknowledged =>
      t.PartiallyFilled? || t.Filled? || t.CancelRequested? || t.Cancelled? || t.Rejected?
      || t.Expired? || t.Unknown?
    case PartiallyFilled =>
      t.Filled? || t.CancelRequested? || t.Cancelled? || t.Rejected? || t.Expired? || t.Unknown?
    case CancelRequested =>
      t.Acknowledged? || t.PartiallyFilled? || t.Filled? || t.Cancelled? || t.Rejected?
      || t.Expired? || t.Unknown?
    case Unknown =>
      t.Armed? || t.Acknowledged? || t.PartiallyFilled? || t.Filled? || t.Cancelled? || t.Rejected?
      || t.Expired?
    case Filled => false
    case Cancelled => false
    case Rejected => false
    case Expired => false
  }

  datatype EventBody =
    | OrderValidated
    | OrderArmed
    | SubmitStarted
    | SubmitNotAccepted(evidence: string)
    | BrokerAcknowledged(ackOrderId: Id)
    | SubmitOutcomeUnknown(submitDiagnostic: string)
    | UnknownResolvedNotAccepted(resolution: string)
    | FillReported(fill: AppliedFill)
    | CancelRequestedByUs
    | CancelNotAccepted(cancelEvidence: string)
    | CancelOutcomeUnknown(cancelDiagnostic: string)
    | CancelConfirmed(confirmedOrderId: Option<Id>)
    | BrokerRejected(rejectReason: string)
    | OrderExpired(expiryReason: string)

  datatype OrderEvent = OrderEvent(eventId: Id, body: EventBody)

  datatype AppliedFill = AppliedFill(fillId: Id, orderId: Id, shares: nat, price: Price)

  /** What the event constructors check: a reported fill has positive shares. */
  predicate WellFormed(e: OrderEvent) {
    e.body.FillReported? ==> e.body.fill.shares > 0
  }

  datatype AppliedEvent = AppliedEvent(eventId: Id, fingerprint: OrderEvent)

  datatype Anomaly =
    | LateFillAfter(state: OrderState)
    | AckAfter(state: OrderState)
    | RejectAfter(state: OrderState)
    | CancelAfterFilled

  datatype Intent = Intent(executionId: Id, requested: nat)

  datatype Aggregate = Aggregate(
    intent: Intent,
    state: OrderState,
    brokerOrderId: Option<Id>,
    filled: nat,
    fills: seq<AppliedFill>,
    applied: seq<AppliedEvent>,
    submitAttempts: nat,
    cancelRequests: nat,
    lateFillFlag: bool,
    anomalies: seq<Anomaly>,
    version: nat)

  /** Everything but ConstructorRejected is the source's transition error;
      ConstructorRejected is its validation error, raised by the dataclass itself. */
  datatype OrderError =
    | IllegalTransition
    | EventCollision
    | FillCollision
    | BrokerOrderIdChanged
    | FillsExceedRequested
    | CancelLacksOrderId
    | ConstructorRejected

  type Outcome = Result<Aggregate, OrderError>

  function SumShares(fills: seq<AppliedFill>): nat {
    if fills == [] then 0 else SumShares(fills[..|fills| - 1]) + fills[|fills| - 1].shares
  }

  predicate DistinctFillIds(fills: seq<AppliedFill>) {
    fills == [] ||
    (DistinctFillIds(fills[..|fills| - 1])
     && FindFill(fills[..|fills| - 1], fills[|fills| - 1].fillId).None?)
  }

  predicate DistinctEventIds(events: seq<AppliedEvent>) {
    events == [] ||
    (DistinctEventIds(events[..|events| - 1])
     && FindEvent(events[..|events| - 1], events[|events| - 1].eventId).None?)
  }

  predicate DistinctAnomalies(anomalies: seq<Anomaly>) {
    anomalies == [] ||
    (DistinctAnomalies(anomalies[..|anomalies| - 1])
     && anomalies[|anomalies| - 1] !in anomalies[..|anomalies| - 1])
  }

  /** The checks the aggregate's constructor makes on every copy. */
  predicate ConstructorAccepts(a: Aggregate) {
    && SumShares(a.fills) == a.filled
    && DistinctFillIds(a.fills)
    && DistinctEventIds(a.applied)
    && DistinctAnomalies(a.anomalies)
    && a.filled <= a.intent.requested
    && (a.state == Filled ==> a.filled == a.intent.requested)
    && (a.state == PartiallyFilled ==> 0 < a.filled < a.intent.requested)
  }

  function FromIntent(intent: Intent): Aggregate {
    Aggregate(intent, Planned, None, 0, [], [], 0, 0, false, [], 0)
  }

  /** The first recorded event with this id, if any. */
  function FindEvent(applied: seq<AppliedEvent>, eventId: Id): (found: Option<AppliedEvent>)
    ensures found.Some? ==> found.value in applied && found.value.eventId == eventId
    ensures found.None? ==> forall x :: x in applied ==> x.eventId != eventId
  {
    if applied == [] then None
    else if applied[0].eventId == eventId then Some(applied[0])
    else FindEvent(applied[1..], eventId)
  }

  function FindFill(fills: seq<AppliedFill>, fillId: Id): (found: Option<AppliedFill>)
    ensures found.Some? ==> found.value in fills && found.value.fillId == fillId
    ensures found.None? ==> forall x :: x in fills ==> x.fillId != fillId
  {
    if fills == [] then None
    else if fills[0].fillId == fillId then Some(fills[0])
    else FindFill(fills[1..], fillId)
  }

  function WithAnomaly(a: Aggregate, anomaly: Anomaly): seq<Anomaly> {
    if anomaly in a.anomalies then a.anomalies else a.anomalies + [anomaly]
  }

  /** Every accepted change goes through here: the table, the broker identity,
      the event log and the version. `draft` carries the other changed fields. */
  function Updated(
    a: Aggregate, e: OrderEvent, target: OrderState, brokerOrderId: Option<Id>, draft: Aggregate
  ): Outcome {
    if target != a.state && !CanMove(a.state, target) then Err(IllegalTransition)
    else if brokerOrderId.Some? && a.brokerOrderId.Some? && a.brokerOrderId != brokerOrderId then
      Err(BrokerOrderIdChanged)
    else
      var next := draft.(
        state := target,
        brokerOrderId := if brokerOrderId.Some? then brokerOrderId else a.brokerOrderId,
        applied := a.applied + [AppliedEvent(e.eventId, e)],
        version := a.version + 1);
      if ConstructorAccepts(next) then Ok(next) else Err(ConstructorRejected)
  }

  function ApplyFill(a: Aggregate, e: OrderEvent, fill: AppliedFill): Outcome {
    var existing := FindFill(a.fills, fill.fillId);
    if existing.Some? then
      if existing.value == fill then Ok(a) else Err(FillCollision)
    else if a.state.Planned? || a.state.Validated? || a.state.Armed? then Err(IllegalTransition)
    else
      var cumulative := a.filled + fill.shares;
      if cumulative > a.intent.requested then Err(FillsExceedRequested)
      else
        var draft := a.(filled := cumulative, fills := a.fills + [fill]);
        if a.state.Cancelled? || a.state.Rejected? || a.state.Expired? then
          Updated(a, e, a.state, Some(fill.orderId),
            draft.(lateFillFlag := true, anomalies := WithAnomaly(a, LateFillAfter(a.state))))
        else
          var target := if cumulative == a.intent.requested then Filled else PartiallyFilled;
          var kept := if a.state.CancelRequested? && target.PartiallyFilled?
                      then CancelRequested else target;
          Updated(a, e, kept, Some(fill.orderId), draft)
  }

  function ApplyAck(a: Aggregate, e: OrderEvent, orderId: Id): Outcome {
    match a.state
    case Submitting => Updated(a, e, Acknowledged, Some(orderId), a)
    case Unknown => Updated(a, e, Acknowledged, Some(orderId), a)
    case Acknowledged => Updated(a, e, a.state, Some(orderId), a)
    case PartiallyFilled => Updated(a, e, a.state, Some(orderId), a)
    case Filled => Updated(a, e, a.state, Some(orderId), a)
    case CancelRequested => Updated(a, e, a.state, Some(orderId), a)
    case Cancelled => Updated(a, e, a.state, Some(orderId), a)
    case Rejected =>
      Updated(a, e, a.state, Some(orderId), a.(anomalies := WithAnomaly(a, AckAfter(a.state))))
    case Expired =>
      Updated(a, e, a.state, Some(orderId), a.(anomalies := WithAnomaly(a, AckAfter(a.state))))
    case _ => Updated(a, e, Acknowledged, None, a)
  }

  function ApplySubmitUnknown(a: Aggregate, e: OrderEvent): Outcome {
    if a.state.Unknown? || Terminal(a.state) then Updated(a, e, a.state, None, a)
    else Updated(a, e, Unknown, None, a)
  }

  function ApplyCancelUnknown(a: Aggregate, e: OrderEvent): Outcome {
    if a.state.CancelRequested? || a.state.Acknowledged? || a.state.PartiallyFilled? then
      Updated(a, e, Unknown, None, a)
    else if a.state.Unknown? then Updated(a, e, a.state, None, a)
    else Err(IllegalTransition)
  }

  function ApplyCancelled(a: Aggregate, e: OrderEvent, orderId: Option<Id>): Outcome {
    var confirmed := if orderId.Some? then orderId else a.brokerOrderId;
    if confirmed.None? then Err(CancelLacksOrderId)
    else if a.state.Filled? then
      Updated(a, e, a.state, confirmed, a.(anomalies := WithAnomaly(a, CancelAfterFilled)))
    else if a.state.Cancelled? then Updated(a, e, a.state, confirmed, a)
    else Updated(a, e, Cancelled, confirmed, a)
  }

  function ApplyRejected(a: Aggregate, e: OrderEvent): Outcome {
    if Terminal(a.state) then
      Updated(a, e, a.state, None, a.(anomalies := WithAnomaly(a, RejectAfter(a.state))))
    else Updated(a, e, Rejected, None, a)
  }

  /** One event whose id has not been recorded yet. */
  function ApplyNew(a: Aggregate, e: OrderEvent): Outcome {
    match e.body
    case OrderValidated => Updated(a, e, Validated, None, a)
    case OrderArmed => Updated(a, e, Armed, None, a)
    case SubmitStarted =>
      Updated(a, e, Submitting, None, a.(submitAttempts := a.submitAttempts + 1))
    case SubmitNotAccepted(_) =>
      if !a.state.Submitting? then Err(IllegalTransition) else Updated(a, e, Armed, None, a)
    case SubmitOutcomeUnknown(_) => ApplySubmitUnknown(a, e)
    case UnknownResolvedNotAccepted(_) => Updated(a, e, Armed, None, a)
    case BrokerAcknowledged(orderId) => ApplyAck(a, e, orderId)
    case FillReported(fill) => ApplyFill(a, e, fill)
    case CancelRequestedByUs =>
      if a.brokerOrderId.None? then Err(CancelLacksOrderId)
      else Updated(a, e, CancelRequested, None, a.(cancelRequests := a.cancelRequests + 1))
    case CancelNotAccepted(_) =>
      if !a.state.CancelRequested? then Err(IllegalTransition)
      else Updated(a, e, if a.filled > 0 then PartiallyFilled else Acknowledged, None, a)
    case CancelOutcomeUnknown(_) => ApplyCancelUnknown(a, e)
    case CancelConfirmed(orderId) => ApplyCancelled(a, e, orderId)
    case BrokerRejected(_) => ApplyRejected(a, e)
    case OrderExpired(_) => Updated(a, e, Expired, None, a)
  }

  /** One at-least-once event. */
  function Apply(a: Aggregate, e: OrderEvent): Outcome {
    var seen := FindEvent(a.applied, e.eventId);
    if seen.Some? then
      if seen.value.fingerprint == e then Ok(a) else Err(EventCollision)
    else ApplyNew(a, e)
  }

  /** A delivery sequence, applied one event after the other until one is refused. */
  function Run(a: Aggregate, es: seq<OrderEvent>): Outcome {
    if es == [] then Ok(a)
    else
      var before := Run(a, es[..|es| - 1]);
      if before.Err? then before else Apply(before.value, es[|es| - 1])
  }
}
