/** What every aggregate reachable from an intent keeps, and why the constructor's
    own checks can then never fail. */
module OrderInvariant {
  import opened Wrappers
  import opened Ids
  import opened Orders

  function FillsOf(applied: seq<AppliedEvent>): seq<AppliedFill> {
    if applied == [] then []
    else
      var last := applied[|applied| - 1].fingerprint.body;
      FillsOf(applied[..|applied| - 1]) + (if last.FillReported? then [last.fill] else [])
  }

  function SubmitsOf(applied: seq<AppliedEvent>): nat {
    if applied == [] then 0
    else
      SubmitsOf(applied[..|applied| - 1])
      + (if applied[|applied| - 1].fingerprint.body.SubmitStarted? then 1 else 0)
  }

  function CancelsOf(applied: seq<AppliedEvent>): nat {
    if applied == [] then 0
    else
      CancelsOf(applied[..|applied| - 1])
      + (if applied[|applied| - 1].fingerprint.body.CancelRequestedByUs? then 1 else 0)
  }

  /** The state an anomaly was observed in. */
  function ObservedIn(anomaly: Anomaly): OrderState {
    match anomaly
    case LateFillAfter(s) => s
    case AckAfter(s) => s
    case RejectAfter(s) => s
    case CancelAfterFilled => Filled
  }

  /** The constructor's checks, strengthened until every event keeps them. */
  ghost predicate Inv(a: Aggregate) {
    && ConstructorAccepts(a)
    && a.intent.requested > 0
    && (!Terminal(a.state) ==> a.filled < a.intent.requested)
    && (forall f :: f in a.fills ==> Some(f.orderId) == a.brokerOrderId && f.shares > 0)
    && a.version == |a.applied|
    && (forall x :: x in a.applied ==> x.fingerprint.eventId == x.eventId && WellFormed(x.fingerprint))
    && a.fills == FillsOf(a.applied)
    && a.submitAttempts == SubmitsOf(a.applied)
    && a.cancelRequests == CancelsOf(a.applied)
    && (a.cancelRequests > 0 ==> a.brokerOrderId.Some?)
    && (a.submitAttempts == 0 ==> a.state in {Planned, Validated, Armed, Expired})
    && (a.submitAttempts == 0 && a.fills != [] ==> a.state == Expired && a.lateFillFlag)
    && (forall x :: x in a.anomalies ==> ObservedIn(x) == a.state && Terminal(a.state))
    && (a.lateFillFlag <==> LateFillAfter(a.state) in a.anomalies)
  }

  lemma InitialInv(intent: Intent)
    requires intent.requested > 0
    ensures Inv(FromIntent(intent))
  {
  }

  lemma AppliedSnoc(applied: seq<AppliedEvent>, x: AppliedEvent)
    ensures FillsOf(applied + [x])
         == FillsOf(applied) + (if x.fingerprint.body.FillReported? then [x.fingerprint.body.fill] else [])
    ensures SubmitsOf(applied + [x])
         == SubmitsOf(applied) + (if x.fingerprint.body.SubmitStarted? then 1 else 0)
    ensures CancelsOf(applied + [x])
         == CancelsOf(applied) + (if x.fingerprint.body.CancelRequestedByUs? then 1 else 0)
    ensures DistinctEventIds(applied) && FindEvent(applied, x.eventId).None?
        ==> DistinctEventIds(applied + [x])
  {
    assert (applied + [x])[..|applied|] == applied;
  }

  lemma FillsSnoc(fills: seq<AppliedFill>, f: AppliedFill)
    ensures SumShares(fills + [f]) == SumShares(fills) + f.shares
    ensures DistinctFillIds(fills) && FindFill(fills, f.fillId).None? ==> DistinctFillIds(fills + [f])
  {
    assert (fills + [f])[..|fills|] == fills;
  }

  ghost predicate AnomaliesFit(anomalies: seq<Anomaly>, flag: bool, target: OrderState) {
    && DistinctAnomalies(anomalies)
    && (forall x :: x in anomalies ==> ObservedIn(x) == target && Terminal(target))
    && (flag <==> LateFillAfter(target) in anomalies)
  }

  /** The part of the invariant that concerns the state, for the updated fields. */
  ghost predicate StateFits(a: Aggregate, submitAttempts: nat, target: OrderState) {
    && (target == Filled ==> a.filled == a.intent.requested)
    && (target == PartiallyFilled ==> 0 < a.filled)
    && (!Terminal(target) ==> a.filled < a.intent.requested)
    && (submitAttempts == 0 ==> target in {Planned, Validated, Armed, Expired})
  }

  lemma UpdatedKeepsInv(
    a: Aggregate, e: OrderEvent, target: OrderState, orderId: Option<Id>, draft: Aggregate
  )
    requires Inv(a) && WellFormed(e) && FindEvent(a.applied, e.eventId).None?
    requires !e.body.FillReported?
    requires draft == a.(
      submitAttempts := a.submitAttempts + (if e.body.SubmitStarted? then 1 else 0),
      cancelRequests := a.cancelRequests + (if e.body.CancelRequestedByUs? then 1 else 0),
      anomalies := draft.anomalies)
    requires e.body.CancelRequestedByUs? ==> a.brokerOrderId.Some?
    requires target == a.state || CanMove(a.state, target) ==>
      StateFits(a, draft.submitAttempts, target) && AnomaliesFit(draft.anomalies, a.lateFillFlag, target)
    ensures var r := Updated(a, e, target, orderId, draft);
      r != Err(ConstructorRejected) && (r.Ok? ==> Inv(r.value))
  {
    AppliedSnoc(a.applied, AppliedEvent(e.eventId, e));
  }

  lemma IllegalMove(
    a: Aggregate, e: OrderEvent, target: OrderState, orderId: Option<Id>, draft: Aggregate
  )
    requires target != a.state && !CanMove(a.state, target)
    ensures Updated(a, e, target, orderId, draft) == Err(IllegalTransition)
  {
  }

  lemma AnomalyRecorded(a: Aggregate, anomaly: Anomaly)
    requires Inv(a) && Terminal(a.state) && ObservedIn(anomaly) == a.state
    ensures AnomaliesFit(WithAnomaly(a, anomaly), a.lateFillFlag || anomaly.LateFillAfter?, a.state)
  {
    hide SumShares, DistinctFillIds, DistinctEventIds, FindEvent, FindFill, FillsOf, SubmitsOf, CancelsOf;
    var anomalies := WithAnomaly(a, anomaly);
    assert anomalies == a.anomalies || anomalies[..|anomalies| - 1] == a.anomalies;
  }

  lemma FillUpdatedKeepsInv(
    a: Aggregate, e: OrderEvent, fill: AppliedFill, target: OrderState, draft: Aggregate
  )
    requires Inv(a) && WellFormed(e) && FindEvent(a.applied, e.eventId).None?
    requires e.body == FillReported(fill) && FindFill(a.fills, fill.fillId).None?
    requires draft == a.(
      filled := a.filled + fill.shares,
      fills := a.fills + [fill],
      lateFillFlag := draft.lateFillFlag,
      anomalies := draft.anomalies)
    requires draft.filled <= a.intent.requested
    requires a.submitAttempts == 0 ==> target == Expired && draft.lateFillFlag
    requires target == a.state || CanMove(a.state, target) ==>
      StateFits(draft, a.submitAttempts, target)
      && AnomaliesFit(draft.anomalies, draft.lateFillFlag, target)
    ensures var r := Updated(a, e, target, Some(fill.orderId), draft);
      r != Err(ConstructorRejected) && (r.Ok? ==> Inv(r.value))
  {
    hide SumShares, DistinctFillIds, DistinctEventIds, FindEvent, FindFill, FillsOf, SubmitsOf, CancelsOf;
    AppliedSnoc(a.applied, AppliedEvent(e.eventId, e));
    FillsSnoc(a.fills, fill);
  }

  lemma FillKeepsInv(a: Aggregate, e: OrderEvent, fill: AppliedFill)
    requires Inv(a) && WellFormed(e) && FindEvent(a.applied, e.eventId).None?
    requires e.body == FillReported(fill)
    ensures ApplyFill(a, e, fill) != Err(ConstructorRejected)
    ensures ApplyFill(a, e, fill).Ok? ==> Inv(ApplyFill(a, e, fill).value)
  {
    hide SumShares, DistinctFillIds, DistinctEventIds, FindEvent, FindFill, FillsOf, SubmitsOf, CancelsOf,
      Updated, WithAnomaly, DistinctAnomalies;
    var cumulative := a.filled + fill.shares;
    if FindFill(a.fills, fill.fillId).None? && cumulative <= a.intent.requested {
      var draft := a.(filled := cumulative, fills := a.fills + [fill]);
      if a.state.Cancelled? || a.state.Rejected? || a.state.Expired? {
        var late := LateFillAfter(a.state);
        AnomalyRecorded(a, late);
        FillUpdatedKeepsInv(a, e, fill, a.state,
          draft.(lateFillFlag := true, anomalies := WithAnomaly(a, late)));
      } else if !(a.state.Planned? || a.state.Validated? || a.state.Armed?) {
        var target := if cumulative == a.intent.requested then Filled
                      else if a.state.CancelRequested? then CancelRequested else PartiallyFilled;
        FillUpdatedKeepsInv(a, e, fill, target, draft);
      }
    }
  }

  /** One event, accepted or refused: a refusal is never the constructor's. */
  lemma ApplyKeepsInv(a: Aggregate, e: OrderEvent)
    requires Inv(a) && WellFormed(e)
    ensures Apply(a, e) != Err(ConstructorRejected)
    ensures Apply(a, e).Ok? ==> Inv(Apply(a, e).value)
  {
    if FindEvent(a.applied, e.eventId).None? {
      if e.body.FillReported? {
        FillKeepsInv(a, e, e.body.fill);
      } else {
        StepKeepsInv(a, e);
      }
    }
  }

  lemma StepKeepsInv(a: Aggregate, e: OrderEvent)
    requires Inv(a) && WellFormed(e) && FindEvent(a.applied, e.eventId).None?
    requires !e.body.FillReported?
    ensures ApplyNew(a, e) != Err(ConstructorRejected)
    ensures ApplyNew(a, e).Ok? ==> Inv(ApplyNew(a, e).value)
  {
    if e.body.BrokerAcknowledged? {
      AckKeepsInv(a, e);
    } else if e.body.CancelConfirmed? {
      CancelKeepsInv(a, e);
    } else if e.body.BrokerRejected? {
      RejectKeepsInv(a, e);
    } else {
      ProgressKeepsInv(a, e);
    }
  }

  lemma AckKeepsInv(a: Aggregate, e: OrderEvent)
    requires Inv(a) && FindEvent(a.applied, e.eventId).None?
    requires e.body.BrokerAcknowledged?
    ensures ApplyNew(a, e) != Err(ConstructorRejected)
    ensures ApplyNew(a, e).Ok? ==> Inv(ApplyNew(a, e).value)
  {
    hide SumShares, DistinctFillIds, DistinctEventIds, FindEvent, FindFill, FillsOf, SubmitsOf, CancelsOf,
      Updated, WithAnomaly, DistinctAnomalies;
    var orderId := e.body.ackOrderId;
    if a.state in {Submitting, Unknown} {
      UpdatedKeepsInv(a, e, Acknowledged, Some(orderId), a);
    } else if a.state in {Acknowledged, PartiallyFilled, Filled, CancelRequested, Cancelled} {
      UpdatedKeepsInv(a, e, a.state, Some(orderId), a);
    } else if a.state in {Rejected, Expired} {
      AnomalyRecorded(a, AckAfter(a.state));
      UpdatedKeepsInv(a, e, a.state, Some(orderId), a.(anomalies := WithAnomaly(a, AckAfter(a.state))));
    } else {
      IllegalMove(a, e, Acknowledged, None, a);
    }
  }

  lemma CancelKeepsInv(a: Aggregate, e: OrderEvent)
    requires Inv(a) && FindEvent(a.applied, e.eventId).None?
    requires e.body.CancelConfirmed?
    ensures ApplyNew(a, e) != Err(ConstructorRejected)
    ensures ApplyNew(a, e).Ok? ==> Inv(ApplyNew(a, e).value)
  {
    hide SumShares, DistinctFillIds, DistinctEventIds, FindEvent, FindFill, FillsOf, SubmitsOf, CancelsOf,
      Updated, WithAnomaly, DistinctAnomalies;
    var orderId := e.body.confirmedOrderId;
    var confirmed := if orderId.Some? then orderId else a.brokerOrderId;
    if a.state == Filled {
      AnomalyRecorded(a, CancelAfterFilled);
      UpdatedKeepsInv(a, e, a.state, confirmed, a.(anomalies := WithAnomaly(a, CancelAfterFilled)));
    } else {
      UpdatedKeepsInv(a, e, Cancelled, confirmed, a);
    }
  }

  lemma RejectKeepsInv(a: Aggregate, e: OrderEvent)
    requires Inv(a) && FindEvent(a.applied, e.eventId).None?
    requires e.body.BrokerRejected?
    ensures ApplyNew(a, e) != Err(ConstructorRejected)
    ensures ApplyNew(a, e).Ok? ==> Inv(ApplyNew(a, e).value)
  {
    hide SumShares, DistinctFillIds, DistinctEventIds, FindEvent, FindFill, FillsOf, SubmitsOf, CancelsOf,
      Updated, WithAnomaly, DistinctAnomalies;
    if Terminal(a.state) {
      AnomalyRecorded(a, RejectAfter(a.state));
      UpdatedKeepsInv(a, e, a.state, None, a.(anomalies := WithAnomaly(a, RejectAfter(a.state))));
    } else {
      UpdatedKeepsInv(a, e, Rejected, None, a);
    }
  }

  lemma ProgressKeepsInv(a: Aggregate, e: OrderEvent)
    requires Inv(a) && FindEvent(a.applied, e.eventId).None?
    requires !e.body.FillReported? && !e.body.BrokerAcknowledged?
    requires !e.body.CancelConfirmed? && !e.body.BrokerRejected?
    ensures ApplyNew(a, e) != Err(ConstructorRejected)
    ensures ApplyNew(a, e).Ok? ==> Inv(ApplyNew(a, e).value)
  {
    hide SumShares, DistinctFillIds, DistinctEventIds, FindEvent, FindFill, FillsOf, SubmitsOf, CancelsOf,
      Updated, WithAnomaly, DistinctAnomalies;
    match e.body
    case OrderValidated => UpdatedKeepsInv(a, e, Validated, None, a);
    case OrderArmed => UpdatedKeepsInv(a, e, Armed, None, a);
    case SubmitStarted =>
      UpdatedKeepsInv(a, e, Submitting, None, a.(submitAttempts := a.submitAttempts + 1));
    case SubmitNotAccepted(_) => UpdatedKeepsInv(a, e, Armed, None, a);
    case SubmitOutcomeUnknown(_) =>
      UpdatedKeepsInv(a, e, if Terminal(a.state) then a.state else Unknown, None, a);
    case UnknownResolvedNotAccepted(_) => UpdatedKeepsInv(a, e, Armed, None, a);
    case CancelRequestedByUs =>
      if a.brokerOrderId.Some? {
        UpdatedKeepsInv(a, e, CancelRequested, None, a.(cancelRequests := a.cancelRequests + 1));
      }
    case CancelNotAccepted(_) =>
      if a.state == CancelRequested {
        UpdatedKeepsInv(a, e, if a.filled > 0 then PartiallyFilled else Acknowledged, None, a);
      }
    case CancelOutcomeUnknown(_) =>
      if !Terminal(a.state) {
        UpdatedKeepsInv(a, e, Unknown, None, a);
      }
    case OrderExpired(_) => UpdatedKeepsInv(a, e, Expired, None, a);
  }
}
