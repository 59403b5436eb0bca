/** The paper broker's state and what each operation makes of it.

    The callback sink is foreign code: whether it accepts an event is an input. The
    state carries its own history: the books it started from, every settled fill, and
    every event handed to the outbox and to the sink. */
module PaperDesk {
  import opened Wrappers
  import opened Ids
  import opened PaperFacts
  import opened PaperBooks
  import opened PaperRules

  type VolumeKey = (Session, Symbol)

  datatype Blotter = Blotter(
    orders: map<Id, OrderFact>,
    reasons: map<Id, Reason>,
    matchCounts: map<Id, nat>,
    idempotency: map<string, Id>)

  /** `ledger` is history: the settled fills with the prices they were valued at. */
  datatype Tape = Tape(fills: seq<Fill>, consumed: map<VolumeKey, nat>, ledger: seq<Entry>)

  /** `emitted` and `delivered` are history: what was handed over, and what the sink took. */
  datatype Outbox = Outbox(
    attached: bool, failed: bool, pending: seq<Event>, emitted: seq<Event>, delivered: seq<Event>)

  datatype Desk = Desk(
    start: Books,
    books: Books,
    market: Market,
    policy: Policy,
    blotter: Blotter,
    tape: Tape,
    outbox: Outbox,
    sequence: nat,
    connected: bool)

  datatype BrokerError =
    | Disconnected
    | DeliveryDegraded
    | DeliveryFailed
    | OrderUnavailable
    | QuoteForOtherSymbol
    | InstrumentUnavailable
    | SessionsDiffer
    | SequenceRegressed
    | SequenceCollision
    | MarketFactMissing
    | KeyCollision
    | SessionUnavailable
    | PriceNotPositive
    | EconomicsRefused(reason: SettleError)
    | EconomicsBroken

  datatype MatchResult = MatchResult(order: OrderFact, fill: Option<Fill>, reason: Reason)

  /** Which events of one operation the sink accepts. */
  datatype Sink = Sink(first: bool, fill: bool, order: bool)

  function Ready(connected: bool, failed: bool): Option<BrokerError> {
    if !connected then Some(Disconnected)
    else if failed then Some(DeliveryDegraded)
    else None
  }

  function Emit(o: Outbox, e: Event, accepts: bool): Outbox {
    var heard := o.attached && accepts;
    Outbox(o.attached,
           o.failed || (o.attached && !accepts),
           if heard then o.pending else o.pending + [e],
           o.emitted + [e],
           if heard then o.delivered + [e] else o.delivered)
  }

  function Recorded(b: Blotter, fact: OrderFact, reason: Reason): Blotter {
    b.(orders := b.orders[fact.orderId := fact], reasons := b.reasons[fact.orderId := reason])
  }

  /** One more fact about an order: it becomes the order, and is told. */
  ghost function Noted(s: Desk, fact: OrderFact, reason: Reason, accepts: bool): Desk {
    s.(blotter := Recorded(s.blotter, fact, reason),
       outbox := Emit(s.outbox, OrderEvent(fact), accepts),
       sequence := s.sequence + 1)
  }

  function WithQuote(m: Market, symbol: Symbol, q: Quote): Result<Market, BrokerError> {
    var quoted := m.(quotes := m.quotes[symbol := q]);
    if symbol !in m.instruments then Err(InstrumentUnavailable)
    else if q.session != m.instruments[symbol].session then Err(SessionsDiffer)
    else if symbol in m.quotes && q.session == m.quotes[symbol].session then
      var previous := m.quotes[symbol];
      if q.sequence < previous.sequence then Err(SequenceRegressed)
      else if q.sequence == previous.sequence && q != previous then Err(SequenceCollision)
      else Ok(quoted)
    else Ok(quoted)
  }

  function Valuation(q: Quote): Option<Price> {
    if q.last.Some? then q.last else q.previousClose
  }

  function ConsumedOf(consumed: map<VolumeKey, nat>, key: VolumeKey): nat {
    if key in consumed then consumed[key] else 0
  }

  ghost predicate SameKeys(b: Blotter) {
    && (forall id :: id in b.orders <==> id in b.reasons)
    && (forall id :: id in b.orders <==> id in b.matchCounts)
  }

  ghost predicate OrdersKeyed(orders: map<Id, OrderFact>, idempotency: map<string, Id>) {
    && (forall id :: id in orders ==>
          && orders[id].orderId == id
          && id.PaperOrderId? && orders[id].command.key == id.idempotencyKey)
    && (forall k :: k in idempotency <==> PaperOrderId(k) in orders)
    && (forall k :: k in idempotency ==> idempotency[k] == PaperOrderId(k))
  }

  /** Every order has its reason and its match count, and is known by the idempotency
      key it was submitted under. */
  ghost predicate Registry(b: Blotter) {
    SameKeys(b) && OrdersKeyed(b.orders, b.idempotency)
  }

  ghost predicate ValidMarket(m: Market) {
    forall sym :: sym in m.instruments ==> ValidInstrument(m.instruments[sym])
  }

  ghost predicate Keyed(s: Desk) {
    Registry(s.blotter) && ValidMarket(s.market)
  }

  function TradedFill(
    order: OrderFact, policy: Policy, count: nat, shares: nat, price: Price,
    session: Session, sequence: nat
  ): Fill {
    var c := order.command;
    Fill(PaperFillId(order.orderId, count, shares, price), order.orderId, c.symbol, c.side, shares,
         price, policy.fees(c.side, price, shares), session, sequence)
  }

  function OrderAfter(order: OrderFact, shares: nat, session: Session, sequence: nat): OrderFact {
    var total := order.filled + shares;
    order.(filled := total,
           status := if total == order.command.requested then Filled else PartiallyFilled,
           session := session, sequence := sequence)
  }

  ghost function TapeAfter(t: Tape, fill: Fill, valuation: Option<Price>): Tape {
    var key := (fill.session, fill.symbol);
    Tape(t.fills + [fill],
         t.consumed[key := ConsumedOf(t.consumed, key) + fill.shares],
         t.ledger + [Entry(fill, valuation)])
  }

  /** A settled fill is kept and told, then the order. */
  ghost function AfterTrade(
    s: Desk, order: OrderFact, fill: Fill, valuation: Option<Price>, books: Books, sink: Sink
  ): Desk
    requires fill.fillId.PaperFillId?
  {
    var after := OrderAfter(order, fill.shares, fill.session, s.sequence + 2);
    var told := Emit(s.outbox, FillEvent(fill), sink.fill);
    s.(books := books,
       blotter := Recorded(
         s.blotter.(matchCounts := s.blotter.matchCounts[order.orderId := fill.fillId.matchCount]),
         after, if after.status.Filled? then FilledReason else PartialFillReason),
       tape := TapeAfter(s.tape, fill, valuation),
       outbox := Emit(told, OrderEvent(after), sink.order),
       sequence := s.sequence + 2)
  }

  /** A match that raised in settlement has used up a match count and a sequence number. */
  ghost function AfterRefusal(s: Desk, id: Id, books: Books): Desk
    requires id in s.blotter.matchCounts
  {
    s.(books := books,
       blotter := s.blotter.(matchCounts := s.blotter.matchCounts[id := s.blotter.matchCounts[id] + 1]),
       sequence := s.sequence + 1)
  }

  /** `shares` change hands at `price`. */
  ghost function Trade(
    s: Desk, id: Id, shares: nat, price: Price, sink: Sink
  ): (r: (Desk, Result<MatchResult, BrokerError>))
    requires Keyed(s) && id in s.blotter.orders && shares > 0
    requires s.blotter.orders[id].command.symbol in s.market.quotes
  {
    var order := s.blotter.orders[id];
    var q := s.market.quotes[order.command.symbol];
    var count := s.blotter.matchCounts[id] + 1;
    var fill := TradedFill(order, s.policy, count, shares, price, q.session, s.sequence + 1);
    match Settle(s.books, fill, Valuation(q))
    case Refused(reason) => (AfterRefusal(s, id, s.books), Err(EconomicsRefused(reason)))
    case HalfSettled(broken) => (AfterRefusal(s, id, broken), Err(EconomicsBroken))
    case Settled(books) =>
      var done := AfterTrade(s, order, fill, Valuation(q), books, sink);
      if done.outbox.failed then (done, Err(DeliveryFailed))
      else
        (done, Ok(MatchResult(done.blotter.orders[id], Some(fill), done.blotter.reasons[id])))
  }

  ghost function NoTrade(s: Desk, id: Id, reason: Reason): (Desk, Result<MatchResult, BrokerError>)
    requires id in s.blotter.orders
  {
    (s.(blotter := s.blotter.(reasons := s.blotter.reasons[id := reason])),
     Ok(MatchResult(s.blotter.orders[id], None, reason)))
  }

  /** The shares and price of the next fill of an open order, or why there is none. */
  datatype Plan = Wait(reason: Reason) | Take(shares: nat, price: Price) | BadPrice

  ghost function PlanOf(
    m: Market, policy: Policy, b: Books, consumed: map<VolumeKey, nat>, c: Command, filled: nat
  ): (plan: Plan)
    requires ValidMarket(m)
    ensures plan.Take? ==> plan.shares > 0 && c.symbol in m.quotes
  {
    var refusal := SubmissionReason(m, policy, b.positions, c);
    if refusal.Some? then Wait(refusal.value)
    else
      var i, q := m.instruments[c.symbol], m.quotes[c.symbol];
      match FillPrice(policy, i, q, c)
      case NotAPrice => BadPrice
      case Blocked(reason) => Wait(reason)
      case Priced(price) =>
        var taken := ConsumedOf(consumed, (q.session, c.symbol));
        var remaining := if filled <= c.requested then c.requested - filled else 0;
        var shares := FillQuantity(policy, b.positions, b.cash, c, i.tradingUnit, q.volume, taken,
                                   remaining, price);
        if shares > 0 then Take(shares, price)
        else if c.side.Buy? && Candidate(b.positions, c, Capacity(policy, q.volume, taken), remaining) > 0
        then Wait(CashInsufficient)
        else Wait(VolumeCapacityExhausted)
  }

  ghost function MatchQuoted(
    s: Desk, id: Id, sink: Sink
  ): (r: (Desk, Result<MatchResult, BrokerError>))
    requires Keyed(s) && id in s.blotter.orders
  {
    var order := s.blotter.orders[id];
    var symbol := order.command.symbol;
    if symbol !in s.market.quotes || symbol !in s.market.instruments then
      (s, Err(MarketFactMissing))
    else if IsClosed(order.status) then (s, Ok(MatchResult(order, None, s.blotter.reasons[id])))
    else
      match PlanOf(s.market, s.policy, s.books, s.tape.consumed, order.command, order.filled)
      case Wait(reason) => NoTrade(s, id, reason)
      case BadPrice => (s, Err(PriceNotPositive))
      case Take(shares, price) => Trade(s, id, shares, price, sink)
  }

  ghost function Match(
    s: Desk, id: Id, quote: Option<(Symbol, Quote)>, sink: Sink
  ): (r: (Desk, Result<MatchResult, BrokerError>))
    requires Keyed(s)
  {
    var unready := Ready(s.connected, s.outbox.failed);
    if unready.Some? then (s, Err(unready.value))
    else if id !in s.blotter.orders then (s, Err(OrderUnavailable))
    else if quote.None? then MatchQuoted(s, id, sink)
    else if quote.value.0 != s.blotter.orders[id].command.symbol then (s, Err(QuoteForOtherSymbol))
    else
      var quoted := WithQuote(s.market, quote.value.0, quote.value.1);
      if quoted.Err? then (s, Err(quoted.error))
      else MatchQuoted(s.(market := quoted.value), id, sink)
  }

  /** The source compares a digest of the canonical command, which does not see how
      many decimal places the limit was written with. */
  predicate SameTerms(c: Command, d: Command) {
    c.(limitPlaces := 0) == d.(limitPlaces := 0)
  }

  function OrderSession(m: Market, symbol: Symbol): Option<Session> {
    if symbol in m.quotes then Some(m.quotes[symbol].session)
    else if symbol in m.instruments then Some(m.instruments[symbol].session)
    else None
  }

  /** A new order's first record: acknowledged, or rejected for good. */
  ghost function Admit(s: Desk, c: Command, session: Session, accepts: bool): Desk
    requires ValidMarket(s.market)
  {
    var id := PaperOrderId(c.key);
    var refusal := SubmissionReason(s.market, s.policy, s.books.positions, c);
    var fact := OrderFact(id, c, if refusal.Some? then Rejected else Acknowledged, 0, session,
                          s.sequence + 1);
    var b := s.blotter;
    Noted(
      s.(blotter := Blotter(b.orders, b.reasons, b.matchCounts[id := 0], b.idempotency[c.key := id])),
      fact, if refusal.Some? then refusal.value else AcknowledgedReason, accepts)
  }

  lemma AdmitKeyed(s: Desk, c: Command, session: Session, accepts: bool)
    requires Keyed(s) && c.key !in s.blotter.idempotency
    ensures Keyed(Admit(s, c, session, accepts))
    ensures PaperOrderId(c.key) !in s.blotter.orders
    ensures PaperOrderId(c.key) in Admit(s, c, session, accepts).blotter.orders
  {
    hide SubmissionReason, ValidMarket, Emit;
  }

  ghost function Submit(
    s: Desk, c: Command, sink: Sink
  ): (r: (Desk, Result<OrderFact, BrokerError>))
    requires Keyed(s)
  {
    var unready := Ready(s.connected, s.outbox.failed);
    if unready.Some? then (s, Err(unready.value))
    else if c.key in s.blotter.idempotency then
      var existing := s.blotter.orders[s.blotter.idempotency[c.key]];
      (s, if SameTerms(existing.command, c) then Ok(existing) else Err(KeyCollision))
    else if OrderSession(s.market, c.symbol).None? then (s, Err(SessionUnavailable))
    else
      AdmitKeyed(s, c, OrderSession(s.market, c.symbol).value, sink.first);
      var admitted := Admit(s, c, OrderSession(s.market, c.symbol).value, sink.first);
      var order := admitted.blotter.orders[PaperOrderId(c.key)];
      if order.status.Rejected? then
        (admitted, if admitted.outbox.failed then Err(DeliveryFailed) else Ok(order))
      else
        var (after, r) := Match(admitted, PaperOrderId(c.key), None, sink);
        (after, if r.Ok? then Ok(r.value.order) else Err(r.error))
  }

  ghost function AfterCancel(s: Desk, order: OrderFact, session: Session, accepts: bool): Desk {
    var after := order.(status := Cancelled, session := session, sequence := s.sequence + 1);
    Noted(s, after, CancelledBySystem, accepts)
  }

  ghost function Cancel(
    s: Desk, id: Id, accepts: bool
  ): (r: (Desk, Result<OrderFact, BrokerError>))
    requires Keyed(s)
  {
    var unready := Ready(s.connected, s.outbox.failed);
    if unready.Some? then (s, Err(unready.value))
    else if id !in s.blotter.orders then (s, Err(OrderUnavailable))
    else
      var order := s.blotter.orders[id];
      var session := OrderSession(s.market, order.command.symbol);
      if IsClosed(order.status) then (s, Ok(order))
      else if session.None? then (s, Err(SessionUnavailable))
      else
        var done := AfterCancel(s, order, session.value, accepts);
        (done, if done.outbox.failed then Err(DeliveryFailed) else Ok(done.blotter.orders[id]))
  }

  /** A new sink is offered everything pending, and raises at the event `stopAt`, if any. */
  function Redeliver(o: Outbox, stopAt: Option<nat>): Outbox {
    if stopAt.Some? && stopAt.value < |o.pending| then
      o.(delivered := o.delivered + o.pending[..stopAt.value], failed := true)
    else
      Outbox(true, false, [], o.emitted, o.delivered + o.pending)
  }
}
