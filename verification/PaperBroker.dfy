/** The paper broker as the source has it: one object, updated in place. */
module PaperBroker {
  import opened Wrappers
  import opened Ids
  import opened Rounding
  import opened PaperFacts
  import opened PaperBooks
  import opened PaperRules
  import PaperDesk
  import opened PaperInvariant
  import opened PaperRuns

  type BrokerError = PaperDesk.BrokerError
  type Sink = PaperDesk.Sink
  type MatchResult = PaperDesk.MatchResult

  lemma {:induction false} AnyOrderOfSummation(positions: map<Symbol, Position>, s: Symbol)
    requires s in positions
    ensures MarketValue(positions) == positions[s].marketValue + MarketValue(positions - {s})
    decreases |positions|
  {
    var first :| first in positions
      && MarketValue(positions) == positions[first].marketValue + MarketValue(positions - {first});
    if first != s {
      AnyOrderOfSummation(positions - {first}, s);
      AnyOrderOfSummation(positions - {s}, first);
      assert positions - {first} - {s} == positions - {s} - {first};
    }
  }

  /** The total of the stored market values. */
  method SumMarketValues(positions: map<Symbol, Position>) returns (total: nat)
    ensures total == MarketValue(positions)
  {
    total := 0;
    var rest := positions;
    while rest != map[]
      invariant total + MarketValue(rest) == MarketValue(positions)
      decreases |rest|
    {
      var s :| s in rest;
      AnyOrderOfSummation(rest, s);
      total := total + rest[s].marketValue;
      rest := rest - {s};
    }
  }

  /** The books after a settlement, and the exception it raises. */
  ghost function Outcome(b: Books, fill: Fill, valuation: Option<Price>): (Books, Option<BrokerError>)
    requires fill.shares > 0
  {
    match Settle(b, fill, valuation)
    case Settled(books) => (books, None)
    case Refused(reason) => (b, Some(PaperDesk.EconomicsRefused(reason)))
    case HalfSettled(broken) => (broken, Some(PaperDesk.EconomicsBroken))
  }

  class PaperBroker {
    var cash: nat
    var assets: nat
    var positions: map<Symbol, Position>
    const instruments: map<Symbol, Instrument>
    var quotes: map<Symbol, Quote>
    var marketStatus: MarketStatus
    const policy: Policy
    var orders: map<Id, OrderFact>
    var reasons: map<Id, Reason>
    var matchCounts: map<Id, nat>
    var idempotencyOrders: map<string, Id>
    var fills: seq<Fill>
    var consumedVolume: map<PaperDesk.VolumeKey, nat>
    var eventSequence: nat
    var connected: bool
    var sinkAttached: bool
    var deliveryFailed: bool
    var pendingCallbacks: seq<Event>

    // History: the books at the start, settled fills, and what was told and heard.
    ghost const start: Books
    ghost var ledger: seq<Entry>
    ghost var emitted: seq<Event>
    ghost var delivered: seq<Event>

    ghost function Outbox(): PaperDesk.Outbox
      reads `sinkAttached, `deliveryFailed, `pendingCallbacks, `emitted, `delivered
    {
      PaperDesk.Outbox(sinkAttached, deliveryFailed, pendingCallbacks, emitted, delivered)
    }

    ghost function Blotter(): PaperDesk.Blotter
      reads `orders, `reasons, `matchCounts, `idempotencyOrders
    {
      PaperDesk.Blotter(orders, reasons, matchCounts, idempotencyOrders)
    }

    ghost function Tape(): PaperDesk.Tape
      reads `fills, `consumedVolume, `ledger
    {
      PaperDesk.Tape(fills, consumedVolume, ledger)
    }

    ghost function Holdings(): Books
      reads `cash, `assets, `positions
    {
      Books(cash, assets, positions)
    }

    ghost function Facts(): Market
      reads `quotes, `marketStatus
    {
      Market(instruments, quotes, marketStatus)
    }

    ghost function Desk(): PaperDesk.Desk
      reads this
    {
      PaperDesk.Desk(
        start, Holdings(), Facts(), policy, Blotter(), Tape(), Outbox(),
        eventSequence, connected)
    }

    constructor (
      books: Books, instruments: map<Symbol, Instrument>, quotes: map<Symbol, Quote>,
      status: MarketStatus, policy: Policy, sequence: nat
    )
      requires ValidBooks(books)
      requires PaperDesk.ValidMarket(Market(instruments, quotes, status))
      ensures Sound(Desk()) && Balanced(Desk())
      ensures Desk() == PaperDesk.Desk(
        books, books, Market(instruments, quotes, status), policy,
        PaperDesk.Blotter(map[], map[], map[], map[]), PaperDesk.Tape([], map[], []),
        PaperDesk.Outbox(false, false, [], [], []), sequence, false)
    {
      cash, assets, positions := books.cash, books.assets, books.positions;
      this.instruments, this.quotes, marketStatus := instruments, quotes, status;
      this.policy := policy;
      orders, reasons, matchCounts, idempotencyOrders := map[], map[], map[], map[];
      fills, consumedVolume, eventSequence := [], map[], sequence;
      connected, sinkAttached, deliveryFailed, pendingCallbacks := false, false, false, [];
      start, ledger, emitted, delivered := books, [], [], [];
    }

    /** Hands one event to the sink, or keeps it pending. */
    method Emit(e: Event, accepts: bool)
      modifies `deliveryFailed, `pendingCallbacks, `emitted, `delivered
      ensures Outbox() == PaperDesk.Emit(old(Outbox()), e, accepts)
    {
      emitted := emitted + [e];
      if !sinkAttached {
        pendingCallbacks := pendingCallbacks + [e];
      } else if accepts {
        delivered := delivered + [e];
      } else {
        pendingCallbacks := pendingCallbacks + [e];
        deliveryFailed := true;
      }
    }

    method RecordOrder(
      orderId: Id, c: Command, status: OrderStatus, filled: nat, session: Session, reason: Reason,
      accepts: bool
    ) returns (fact: OrderFact)
      modifies `orders, `reasons, `eventSequence, `deliveryFailed, `pendingCallbacks, `emitted, `delivered
      ensures eventSequence == old(eventSequence) + 1
      ensures fact == OrderFact(orderId, c, status, filled, session, eventSequence)
      ensures Desk() == PaperDesk.Noted(old(Desk()), fact, reason, accepts)
    {
      hide PaperDesk.Emit, Holdings, Facts, Tape;
      eventSequence := eventSequence + 1;
      fact := OrderFact(orderId, c, status, filled, session, eventSequence);
      orders := orders[orderId := fact];
      reasons := reasons[orderId := reason];
      Emit(OrderEvent(fact), accepts);
    }

    /** Moves the shares of one fill and tells the cash it leaves, in price units. */
    method MovePosition(fill: Fill) returns (error: Option<SettleError>, newCash: int)
      requires fill.shares > 0 && fill.symbol in quotes
      modifies `positions
      ensures match PositionsAfter(Books(cash, assets, old(positions)), fill,
                                   PaperDesk.Valuation(quotes[fill.symbol]))
              case Ok(moved) =>
                error == None && positions == moved && newCash == QUANTUM * cash + CashFlow(fill)
              case Err(reason) => error == Some(reason) && positions == old(positions)
    {
      hide ToMoney, HalfUp;
      var gross := fill.price * fill.shares;
      var valuation := PaperDesk.Valuation(quotes[fill.symbol]);
      newCash := 0;
      if fill.side.Buy? {
        newCash := QUANTUM * cash - gross - QUANTUM * fill.fees;
        if newCash < 0 {
          return Some(NegativeCash), newCash;
        }
        var oldShares, oldCost, sellable := 0, 0, 0;
        if fill.symbol in positions {
          var p := positions[fill.symbol];
          if p.averageCost.None? {
            return Some(UnknownCost), newCash;
          }
          oldShares := p.total;
          oldCost := p.averageCost.value * oldShares;
          sellable := p.sellable;
        }
        var total := oldShares + fill.shares;
        BlendIsPositive(Held(positions, fill.symbol), fill);
        var average := HalfUp(oldCost + gross + QUANTUM * fill.fees, total);
        if valuation.None? {
          return Some(NoValuation), newCash;
        }
        positions := positions[fill.symbol := Position(
          total, sellable, Some(average), ToMoney(valuation.value * total))];
      } else {
        if fill.symbol !in positions {
          return Some(PositionDisappeared), newCash;
        }
        var p := positions[fill.symbol];
        if fill.shares > p.total || fill.shares > p.sellable {
          return Some(ExceedsPosition), newCash;
        }
        newCash := QUANTUM * cash + gross - QUANTUM * fill.fees;
        var remaining := p.total - fill.shares;
        if remaining == 0 {
          positions := positions - {fill.symbol};
        } else {
          if valuation.None? {
            return Some(NoValuation), newCash;
          }
          positions := positions[fill.symbol := p.(
            total := remaining, sellable := p.sellable - fill.shares,
            marketValue := ToMoney(valuation.value * remaining))];
        }
      }
      return None, newCash;
    }

    /** Moves cash and shares for one fill. */
    method ApplyEconomics(fill: Fill) returns (error: Option<BrokerError>)
      requires fill.shares > 0 && fill.symbol in quotes
      modifies `cash, `assets, `positions
      ensures (Books(cash, assets, positions), error)
           == Outcome(old(Books(cash, assets, positions)), fill,
                      PaperDesk.Valuation(quotes[fill.symbol]))
    {
      hide MarketValue, ToMoney, PositionsAfter, CashFlow;
      var refusal, newCash := MovePosition(fill);
      if refusal.Some? {
        return Some(PaperDesk.EconomicsRefused(refusal.value));
      }
      var available := ToMoney(newCash);
      if available < 0 {
        return Some(PaperDesk.EconomicsBroken);
      }
      var held := SumMarketValues(positions);
      cash, assets := available, available + held;
      return None;
    }

    /** What the next fill of an open order would be, without taking it. */
    method PlanFill(c: Command, filled: nat) returns (plan: PaperDesk.Plan)
      requires PaperDesk.ValidMarket(Market(instruments, quotes, marketStatus))
      requires filled <= c.requested
      ensures plan == PaperDesk.PlanOf(
        Market(instruments, quotes, marketStatus), policy, Books(cash, assets, positions),
        consumedVolume, c, filled)
    {
      hide MostAffordable, FillPrice;
      var refusal := SubmissionReason(Market(instruments, quotes, marketStatus), policy, positions, c);
      if refusal.Some? {
        return PaperDesk.Wait(refusal.value);
      }
      var instrument, quote := instruments[c.symbol], quotes[c.symbol];
      var pricing := FillPrice(policy, instrument, quote, c);
      if pricing.NotAPrice? {
        return PaperDesk.BadPrice;
      }
      if pricing.Blocked? {
        return PaperDesk.Wait(pricing.reason);
      }
      var remaining := c.requested - filled;
      var consumed := PaperDesk.ConsumedOf(consumedVolume, (quote.session, c.symbol));
      var candidate := Candidate(positions, c, Capacity(policy, quote.volume, consumed), remaining);
      var quantity := RoundFillQuantity(positions, c, instrument.tradingUnit, candidate);
      if c.side.Buy? {
        quantity := AffordableBuyShares(policy, cash, pricing.price, quantity, instrument.tradingUnit);
      }
      if quantity == 0 {
        return PaperDesk.Wait(
          if c.side.Buy? && candidate > 0 then CashInsufficient else VolumeCapacityExhausted);
      }
      return PaperDesk.Take(quantity, pricing.price);
    }

    /** Keeps a settled fill and counts it against the session's volume. */
    method KeepFill(fill: Fill, ghost valuation: Option<Price>)
      modifies `fills, `ledger, `consumedVolume
      ensures Tape() == PaperDesk.TapeAfter(old(Tape()), fill, valuation)
    {
      fills := fills + [fill];
      ledger := ledger + [Entry(fill, valuation)];
      var key := (fill.session, fill.symbol);
      consumedVolume := consumedVolume[key := PaperDesk.ConsumedOf(consumedVolume, key) + fill.shares];
    }

    /** Tells the sink of a fill, then of the order it leaves behind. */
    method TellFill(order: OrderFact, fill: Fill, sink: Sink) returns (updated: OrderFact)
      modifies `orders, `reasons, `eventSequence, `deliveryFailed, `pendingCallbacks, `emitted, `delivered
      ensures eventSequence == old(eventSequence) + 1
      ensures updated == PaperDesk.OrderAfter(order, fill.shares, fill.session, eventSequence)
      ensures orders == old(orders)[order.orderId := updated]
      ensures reasons == old(reasons)[order.orderId :=
                           if updated.status.Filled? then FilledReason else PartialFillReason]
      ensures Outbox() == PaperDesk.Emit(
        PaperDesk.Emit(old(Outbox()), FillEvent(fill), sink.fill), OrderEvent(updated), sink.order)
    {
      hide PaperDesk.Emit;
      Emit(FillEvent(fill), sink.fill);
      var total := order.filled + fill.shares;
      var complete := total == order.command.requested;
      updated := RecordOrder(order.orderId, order.command, if complete then Filled else PartiallyFilled,
                             total, fill.session, if complete then FilledReason else PartialFillReason,
                             sink.order);
    }

    /** Counts the match, numbers the fill and settles it. */
    method StrikeFill(orderId: Id, shares: nat, price: Price)
      returns (fill: Fill, error: Option<BrokerError>)
      requires orderId in orders && orderId in matchCounts && shares > 0
      requires orders[orderId].command.symbol in quotes
      modifies `matchCounts, `eventSequence, `cash, `assets, `positions
      ensures fill == StruckFill(old(Desk()), orderId, shares, price)
      ensures (Desk(), error) == Struck(old(Desk()), orderId, fill)
    {
      hide Outcome, Tape, Outbox;
      var order := orders[orderId];
      var count := matchCounts[orderId] + 1;
      matchCounts := matchCounts[orderId := count];
      eventSequence := eventSequence + 1;
      fill := PaperDesk.TradedFill(
        order, policy, count, shares, price, quotes[order.command.symbol].session, eventSequence);
      error := ApplyEconomics(fill);
    }

    /** The part of a fill that comes after its settlement. */
    method FinishFill(order: OrderFact, fill: Fill, sink: Sink)
      returns (r: Result<MatchResult, BrokerError>)
      requires fill.symbol in quotes
      modifies `fills, `ledger, `consumedVolume, `orders, `reasons, `eventSequence,
               `deliveryFailed, `pendingCallbacks, `emitted, `delivered
      ensures (Desk(), r) == Finished(old(Desk()), order, fill, sink)
    {
      hide PaperDesk.Emit, PaperDesk.TapeAfter, PaperDesk.OrderAfter, Holdings;
      KeepFill(fill, PaperDesk.Valuation(quotes[fill.symbol]));
      var updated := TellFill(order, fill, sink);
      r := if deliveryFailed then Err(PaperDesk.DeliveryFailed)
           else Ok(PaperDesk.MatchResult(updated, Some(fill), reasons[order.orderId]));
    }

    /** One fill of `shares` at `price` against an open order. */
    method Fill(orderId: Id, shares: nat, price: Price, sink: Sink)
      returns (r: Result<MatchResult, BrokerError>)
      requires PaperDesk.Keyed(Desk()) && orderId in orders && shares > 0
      requires orders[orderId].command.symbol in quotes
      modifies this
      ensures (Desk(), r) == PaperDesk.Trade(old(Desk()), orderId, shares, price, sink)
    {
      hide Struck, Finished, PaperDesk.Trade, PaperDesk.Keyed;
      TradeIs(Desk(), orderId, shares, price, sink);
      var order := orders[orderId];
      var fill, error := StrikeFill(orderId, shares, price);
      if error.Some? {
        return Err(error.value);
      }
      r := FinishFill(order, fill, sink);
    }

    method MatchCurrent(orderId: Id, sink: Sink) returns (r: Result<MatchResult, BrokerError>)
      requires Sound(Desk()) && orderId in orders
      modifies this
      ensures (Desk(), r) == PaperDesk.MatchQuoted(old(Desk()), orderId, sink)
    {
      hide PaperDesk.PlanOf, PaperDesk.Trade, StoriesOk, TapeOk, Ascending, OutboxOk, ValidBooks,
        PaperDesk.Registry, PaperDesk.ValidMarket;
      OpenTells(Desk(), orderId);
      var order := orders[orderId];
      var symbol := order.command.symbol;
      if symbol !in quotes || symbol !in instruments {
        return Err(PaperDesk.MarketFactMissing);
      }
      if IsClosed(order.status) {
        return Ok(PaperDesk.MatchResult(order, None, reasons[orderId]));
      }
      var plan := PlanFill(order.command, order.filled);
      match plan
      case Wait(reason) =>
        reasons := reasons[orderId := reason];
        return Ok(PaperDesk.MatchResult(order, None, reason));
      case BadPrice => return Err(PaperDesk.PriceNotPositive);
      case Take(shares, price) => r := Fill(orderId, shares, price, sink);
    }

    method SetQuote(symbol: Symbol, quote: Quote) returns (error: Option<BrokerError>)
      modifies `quotes
      ensures match PaperDesk.WithQuote(old(Market(instruments, quotes, marketStatus)), symbol, quote)
              case Ok(market) => error == None && Market(instruments, quotes, marketStatus) == market
              case Err(e) => error == Some(e) && unchanged(`quotes)
    {
      if symbol !in instruments {
        return Some(PaperDesk.InstrumentUnavailable);
      }
      if quote.session != instruments[symbol].session {
        return Some(PaperDesk.SessionsDiffer);
      }
      if symbol in quotes {
        var previous := quotes[symbol];
        if quote.session == previous.session {
          if quote.sequence < previous.sequence {
            return Some(PaperDesk.SequenceRegressed);
          }
          if quote.sequence == previous.sequence && quote != previous {
            return Some(PaperDesk.SequenceCollision);
          }
        }
      }
      quotes := quotes[symbol := quote];
      return None;
    }

    /** Tries to fill an order, at the current quote or a new one. */
    method Match(orderId: Id, quote: Option<(Symbol, Quote)>, sink: Sink)
      returns (r: Result<MatchResult, BrokerError>)
      requires Sound(Desk())
      modifies this
      ensures (Desk(), r) == PaperDesk.Match(old(Desk()), orderId, quote, sink)
      ensures Sound(Desk())
      ensures old(Balanced(Desk())) && r != Err(PaperDesk.EconomicsBroken) ==> Balanced(Desk())
    {
      hide PaperDesk.MatchQuoted, PaperDesk.WithQuote, StoriesOk, TapeOk, Ascending, OutboxOk,
        ValidBooks, PaperDesk.Registry, PaperDesk.ValidMarket, SettleAll;
      MatchKeeps(Desk(), orderId, quote, sink);
      var unready := PaperDesk.Ready(connected, deliveryFailed);
      if unready.Some? {
        return Err(unready.value);
      }
      if orderId !in orders {
        return Err(PaperDesk.OrderUnavailable);
      }
      if quote.Some? {
        if quote.value.0 != orders[orderId].command.symbol {
          return Err(PaperDesk.QuoteForOtherSymbol);
        }
        if PaperDesk.WithQuote(Market(instruments, quotes, marketStatus), quote.value.0, quote.value.1).Ok? {
          QuoteKeeps(Desk(), quote.value.0, quote.value.1);
        }
        var error := SetQuote(quote.value.0, quote.value.1);
        if error.Some? {
          return Err(error.value);
        }
      }
      r := MatchCurrent(orderId, sink);
    }

    method CancelOrder(orderId: Id, accepts: bool) returns (r: Result<OrderFact, BrokerError>)
      requires Sound(Desk())
      modifies this
      ensures (Desk(), r) == PaperDesk.Cancel(old(Desk()), orderId, accepts)
      ensures Sound(Desk())
      ensures old(Balanced(Desk())) ==> Balanced(Desk())
    {
      hide StoriesOk, TapeOk, Ascending, OutboxOk, ValidBooks, PaperDesk.Registry,
        PaperDesk.ValidMarket, SettleAll, PaperDesk.Emit;
      CancelStepKeeps(Desk(), orderId, accepts);
      var unready := PaperDesk.Ready(connected, deliveryFailed);
      if unready.Some? {
        return Err(unready.value);
      }
      if orderId !in orders {
        return Err(PaperDesk.OrderUnavailable);
      }
      OpenTells(Desk(), orderId);
      var current := orders[orderId];
      if IsClosed(current.status) {
        return Ok(current);
      }
      var session := PaperDesk.OrderSession(Market(instruments, quotes, marketStatus), current.command.symbol);
      if session.None? {
        return Err(PaperDesk.SessionUnavailable);
      }
      var cancelled := RecordOrder(orderId, current.command, Cancelled, current.filled, session.value,
                                   CancelledBySystem, accepts);
      r := if deliveryFailed then Err(PaperDesk.DeliveryFailed) else Ok(cancelled);
    }

    /** Registers a new command and records it as acknowledged or rejected. */
    method Admit(c: Command, session: Session, accepts: bool) returns (order: OrderFact)
      requires PaperDesk.ValidMarket(Market(instruments, quotes, marketStatus))
      modifies `orders, `reasons, `matchCounts, `idempotencyOrders, `eventSequence,
               `deliveryFailed, `pendingCallbacks, `emitted, `delivered
      ensures Desk() == PaperDesk.Admit(old(Desk()), c, session, accepts)
      ensures PaperOrderId(c.key) in orders && order == orders[PaperOrderId(c.key)]
    {
      hide SubmissionReason, PaperDesk.Emit;
      var orderId := PaperOrderId(c.key);
      idempotencyOrders := idempotencyOrders[c.key := orderId];
      matchCounts := matchCounts[orderId := 0];
      var rejection := SubmissionReason(Market(instruments, quotes, marketStatus), policy, positions, c);
      order := RecordOrder(orderId, c, if rejection.Some? then Rejected else Acknowledged, 0, session,
                           if rejection.Some? then rejection.value else AcknowledgedReason, accepts);
    }

    /** Idempotent on the command's key; a new command is admitted and matched at once. */
    method SubmitOrder(c: Command, sink: Sink) returns (r: Result<OrderFact, BrokerError>)
      requires Sound(Desk()) && c.requested > 0
      modifies this
      ensures (Desk(), r) == PaperDesk.Submit(old(Desk()), c, sink)
      ensures Sound(Desk())
      ensures old(Balanced(Desk())) && r != Err(PaperDesk.EconomicsBroken) ==> Balanced(Desk())
    {
      hide StoriesOk, TapeOk, Ascending, OutboxOk, ValidBooks, PaperDesk.ValidMarket, SettleAll,
        PaperDesk.Match, PaperDesk.Admit;
      SubmitKeeps(Desk(), c, sink);
      var unready := PaperDesk.Ready(connected, deliveryFailed);
      if unready.Some? {
        return Err(unready.value);
      }
      if c.key in idempotencyOrders {
        var existing := orders[idempotencyOrders[c.key]];
        return if PaperDesk.SameTerms(existing.command, c) then Ok(existing)
               else Err(PaperDesk.KeyCollision);
      }
      var session := PaperDesk.OrderSession(Market(instruments, quotes, marketStatus), c.symbol);
      if session.None? {
        return Err(PaperDesk.SessionUnavailable);
      }
      AdmitKeeps(Desk(), c, session.value, sink.first);
      var order := Admit(c, session.value, sink.first);
      if order.status.Rejected? {
        return if deliveryFailed then Err(PaperDesk.DeliveryFailed) else Ok(order);
      }
      var matched := Match(PaperOrderId(c.key), None, sink);
      r := if matched.Ok? then Ok(matched.value.order) else Err(matched.error);
    }

    method SetMarketStatus(status: MarketStatus)
      requires Sound(Desk())
      modifies `marketStatus
      ensures marketStatus == status && Sound(Desk())
      ensures old(Balanced(Desk())) ==> Balanced(Desk())
    {
      hide StoriesOk, TapeOk, Ascending, OutboxOk, ValidBooks, PaperDesk.Registry;
      marketStatus := status;
    }

    method Connect()
      requires Sound(Desk())
      modifies `connected
      ensures connected && Sound(Desk())
    {
      hide StoriesOk, TapeOk, Ascending, OutboxOk, ValidBooks, PaperDesk.Registry;
      connected := true;
    }

    method Disconnect()
      requires Sound(Desk())
      modifies `connected
      ensures !connected && Sound(Desk())
    {
      hide StoriesOk, TapeOk, Ascending, OutboxOk, ValidBooks, PaperDesk.Registry;
      connected := false;
    }

    /** Offers everything pending, in order; false if the sink raised at `stopAt`. */
    method Offer(stopAt: Option<nat>) returns (ok: bool)
      modifies `deliveryFailed, `delivered
      ensures ok <==> !(stopAt.Some? && stopAt.value < |pendingCallbacks|)
      ensures deliveryFailed == (old(deliveryFailed) || !ok)
      ensures delivered
           == old(delivered) + (if ok then pendingCallbacks else pendingCallbacks[..stopAt.value])
    {
      var heard := 0;
      while heard < |pendingCallbacks|
        invariant 0 <= heard <= |pendingCallbacks|
        invariant stopAt.Some? ==> heard <= stopAt.value || |pendingCallbacks| <= stopAt.value
        invariant delivered == old(delivered) + pendingCallbacks[..heard]
        invariant deliveryFailed == old(deliveryFailed)
      {
        if stopAt == Some(heard) {
          deliveryFailed := true;
          return false;
        }
        delivered := delivered + [pendingCallbacks[heard]];
        heard := heard + 1;
      }
      return true;
    }

    /** Attaches a sink after offering it everything pending. When it raises it is not
        attached, everything stays pending, and delivery counts as failed. */
    method Subscribe(stopAt: Option<nat>) returns (error: Option<BrokerError>)
      requires Sound(Desk())
      modifies `sinkAttached, `deliveryFailed, `pendingCallbacks, `delivered
      ensures !connected ==> error == Some(PaperDesk.Disconnected) && Outbox() == old(Outbox())
      ensures connected ==>
        && Outbox() == PaperDesk.Redeliver(old(Outbox()), stopAt)
        && error == if deliveryFailed then Some(PaperDesk.DeliveryFailed) else None
      ensures Sound(Desk())
      ensures connected && error == None ==> forall e :: e in emitted ==> e in delivered
    {
      hide StoriesOk, TapeOk, Ascending, OutboxOk, ValidBooks, PaperDesk.Registry,
        PaperDesk.ValidMarket, SettleAll, Holdings, Facts, Blotter, Tape;
      if !connected {
        return Some(PaperDesk.Disconnected);
      }
      OutboxRedelivers(Outbox(), stopAt);
      var ok := Offer(stopAt);
      if !ok {
        return Some(PaperDesk.DeliveryFailed);
      }
      pendingCallbacks, sinkAttached, deliveryFailed := [], true, false;
      return None;
    }
  }

  ghost function StruckFill(s: PaperDesk.Desk, id: Id, shares: nat, price: Price): (fill: Fill)
    requires id in s.blotter.orders && id in s.blotter.matchCounts
    requires s.blotter.orders[id].command.symbol in s.market.quotes
  {
    var order := s.blotter.orders[id];
    PaperDesk.TradedFill(order, s.policy, s.blotter.matchCounts[id] + 1, shares, price,
                         s.market.quotes[order.command.symbol].session, s.sequence + 1)
  }

  ghost function Struck(s: PaperDesk.Desk, id: Id, fill: Fill): (PaperDesk.Desk, Option<BrokerError>)
    requires id in s.blotter.matchCounts && fill.shares > 0 && fill.symbol in s.market.quotes
  {
    var (books, error) := Outcome(s.books, fill, PaperDesk.Valuation(s.market.quotes[fill.symbol]));
    (s.(books := books,
        blotter := s.blotter.(matchCounts := s.blotter.matchCounts[id := s.blotter.matchCounts[id] + 1]),
        sequence := s.sequence + 1),
     error)
  }

  ghost function Finished(s: PaperDesk.Desk, order: OrderFact, fill: Fill, sink: Sink)
    : (PaperDesk.Desk, Result<MatchResult, BrokerError>)
    requires fill.symbol in s.market.quotes
  {
    var updated := PaperDesk.OrderAfter(order, fill.shares, fill.session, s.sequence + 1);
    var reason := if updated.status.Filled? then FilledReason else PartialFillReason;
    var outbox := PaperDesk.Emit(
      PaperDesk.Emit(s.outbox, FillEvent(fill), sink.fill), OrderEvent(updated), sink.order);
    (s.(blotter := s.blotter.(orders := s.blotter.orders[order.orderId := updated],
                              reasons := s.blotter.reasons[order.orderId := reason]),
        tape := PaperDesk.TapeAfter(s.tape, fill, PaperDesk.Valuation(s.market.quotes[fill.symbol])),
        outbox := outbox,
        sequence := s.sequence + 1),
     if outbox.failed then Err(PaperDesk.DeliveryFailed)
     else Ok(PaperDesk.MatchResult(updated, Some(fill), reason)))
  }

  /** A trade is its settlement followed, when that succeeds, by its telling. */
  lemma TradeIs(s: PaperDesk.Desk, id: Id, shares: nat, price: Price, sink: Sink)
    requires PaperDesk.Keyed(s) && id in s.blotter.orders && shares > 0
    requires s.blotter.orders[id].command.symbol in s.market.quotes
    ensures id in s.blotter.matchCounts
    ensures var fill := StruckFill(s, id, shares, price);
      && fill.shares == shares && fill.symbol == s.blotter.orders[id].command.symbol
      && Struck(s, id, fill).0.market == s.market
      && var (t, error) := Struck(s, id, fill);
      PaperDesk.Trade(s, id, shares, price, sink)
      == if error.Some? then (t, Err(error.value)) else Finished(t, s.blotter.orders[id], fill, sink)
  {
    hide Settle, PaperDesk.Emit, PaperDesk.TapeAfter;
  }
}
