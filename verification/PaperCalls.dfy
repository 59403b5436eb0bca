/** What the other calls of the paper broker come to: a cancellation ends its order for
    good, a quote only moves on, a degraded broker stands still, and what is pending is
    delivered in the order it was told. */
module PaperCalls {
  import opened Wrappers
  import opened Ids
  import opened PaperFacts
  import opened PaperBooks
  import opened PaperRules
  import opened PaperDesk
  import opened PaperInvariant
  import opened PaperRuns
  import opened PaperTheorems
  import opened PaperTrades

  // --------------------------------------------------------------------- cancellation

  /** A cancellation of an open order records it cancelled, with what it was filled so far,
      tells just that, and touches nothing else. */
  lemma CancelExactly(s: Desk, id: Id, accepts: bool)
    requires Sound(s) && s.connected && !s.outbox.failed
    requires id in s.blotter.orders && !IsClosed(s.blotter.orders[id].status)
    requires var symbol := s.blotter.orders[id].command.symbol;
      symbol in s.market.quotes || symbol in s.market.instruments
    ensures var (after, r) := Cancel(s, id, accepts);
      var order := s.blotter.orders[id];
      && id in after.blotter.orders
      && var now := after.blotter.orders[id];
      && now.status == OrderStatus.Cancelled && now.filled == order.filled
      && now.command == order.command && now.orderId == order.orderId
      && RecordedUnder(s.market, order.command.symbol, now.session) && now.sequence == s.sequence + 1
      && after.blotter.orders == s.blotter.orders[id := now]
      && after.blotter.reasons == s.blotter.reasons[id := CancelledBySystem]
      && after.outbox.emitted == s.outbox.emitted + [OrderEvent(now)]
      && after.books == s.books && after.tape == s.tape && after.market == s.market
      && after.blotter.idempotency == s.blotter.idempotency
      && r == (if s.outbox.attached && !accepts then Err(DeliveryFailed) else Ok(now))
  {
    hide StoriesOk, TapeOk, OutboxOk, Ascending, ValidBooks, ValidMarket;
    OpenTells(s, id);
  }

  /** A closed order is handed back as it is. */
  lemma CancelOfClosed(s: Desk, id: Id, accepts: bool)
    requires Sound(s) && s.connected && !s.outbox.failed
    requires id in s.blotter.orders && IsClosed(s.blotter.orders[id].status)
    ensures Cancel(s, id, accepts) == (s, Ok(s.blotter.orders[id]))
  {
    hide StoriesOk, TapeOk, OutboxOk, Ascending, ValidBooks, ValidMarket;
  }

  lemma {:induction false} ClosedForGood(s: Desk, ops: seq<Op>, id: Id)
    requires Sound(s) && id in s.blotter.orders && IsClosed(s.blotter.orders[id].status)
    ensures var after := Play(s, ops).0;
      && id in after.blotter.orders && after.blotter.orders[id] == s.blotter.orders[id]
      && FillsFor(after.tape.fills, id) == FillsFor(s.tape.fills, id)
  {
    hide Sound, Step, Play, FillsFor;
    if ops == [] {
      PlayNothing(s);
    } else {
      var init := ops[..|ops| - 1];
      ClosedForGood(s, init, id);
      PlayLast(s, ops);
      ClosedStays(Play(s, init).0, ops[|ops| - 1], id);
      ClosedIsNotFilled(Play(s, init).0, ops[|ops| - 1], id);
    }
  }

  lemma ClosedIsNotFilled(s: Desk, op: Op, id: Id)
    requires Sound(s) && id in s.blotter.orders && IsClosed(s.blotter.orders[id].status)
    ensures FillsFor(Step(s, op).0.tape.fills, id) == FillsFor(s.tape.fills, id)
  {
    hide Sound, Step, FillsFor, SharesOf, WasDue, For;
    var after := Step(s, op).0;
    StepKeeps(s, op);
    StepTrades(s, op);
    ClosedStays(s, op, id);
    FilledIsSumOfFills(s, id);
    FilledIsSumOfFills(after, id);
    if after.tape.fills != s.tape.fills {
      var f := after.tape.fills[|s.tape.fills|];
      assert after.tape.fills == s.tape.fills + [f];
      FillsForSnoc(s.tape.fills, f, id);
      MoreShares(FillsFor(s.tape.fills, id), f);
      StoriedFill(after, f);
    }
  }

  lemma MoreShares(fills: seq<Fill>, f: Fill)
    ensures SharesOf(fills + [f]) == SharesOf(fills) + f.shares
  {
    assert (fills + [f])[..|fills|] == fills;
  }

  lemma CancelIsSound(s: Desk, id: Id, accepts: bool)
    requires Sound(s)
    ensures Keyed(s) && Sound(Cancel(s, id, accepts).0)
  {
    hide StoriesOk, TapeOk, OutboxOk, Ascending, ValidBooks, Keyed, Cancel, SettleAll;
    CancelStepKeeps(s, id, accepts);
  }

  /** After a cancellation no run fills the order again, or changes it in any way. */
  lemma CancelledForGood(s: Desk, id: Id, accepts: bool, ops: seq<Op>)
    requires Sound(s) && s.connected && !s.outbox.failed
    requires id in s.blotter.orders && !IsClosed(s.blotter.orders[id].status)
    requires var symbol := s.blotter.orders[id].command.symbol;
      symbol in s.market.quotes || symbol in s.market.instruments
    ensures Sound(Cancel(s, id, accepts).0)
    ensures var after := Play(Cancel(s, id, accepts).0, ops).0;
      && id in after.blotter.orders
      && after.blotter.orders[id].status == OrderStatus.Cancelled
      && after.blotter.orders[id].filled == s.blotter.orders[id].filled
      && FillsFor(after.tape.fills, id) == FillsFor(s.tape.fills, id)
  {
    hide Sound, Cancel, Play, FillsFor, Keyed;
    CancelIsSound(s, id, accepts);
    CancelExactly(s, id, accepts);
    ClosedForGood(Cancel(s, id, accepts).0, ops, id);
  }

  // ------------------------------------------------------------- disconnected or degraded

  predicate Serves(op: Op) { op.DoSubmit? || op.DoMatch? || op.DoCancel? }

  /** Without a connection, or once a delivery has failed, no call trades, admits, cancels
      or tells anything; it raises. */
  lemma UnreadyStandsStill(s: Desk, op: Op)
    requires Sound(s) && Serves(op) && (!s.connected || s.outbox.failed)
    ensures Step(s, op) == (s, false)
    ensures var error := if !s.connected then Disconnected else DeliveryDegraded;
      match op
      case DoSubmit(c, sink) => Submit(s, c, sink).1 == Err(error)
      case DoMatch(id, quote, sink) => Match(s, id, quote, sink).1 == Err(error)
      case DoCancel(id, accepts) => Cancel(s, id, accepts).1 == Err(error)
      case _ => true
  {
    hide StoriesOk, TapeOk, OutboxOk, Ascending, ValidBooks, ValidMarket;
  }

  /** A failed delivery latches: until a sink is subscribed again nothing but the market and
      the connection changes. */
  lemma {:induction false} DegradedIsStill(s: Desk, ops: seq<Op>)
    requires Sound(s) && s.outbox.failed && forall i :: 0 <= i < |ops| ==> !ops[i].DoSubscribe?
    ensures var after := Play(s, ops).0;
      after == s.(market := after.market, connected := after.connected)
  {
    hide Sound, Play;
    if ops == [] {
      PlayNothing(s);
    } else {
      var init, last := ops[..|ops| - 1], ops[|ops| - 1];
      DegradedIsStill(s, init);
      PlayLast(s, ops);
      if Serves(last) {
        UnreadyStandsStill(Play(s, init).0, last);
      }
    }
  }

  // ---------------------------------------------------------------------------- quotes

  /** A quote of a known instrument and its session that does not go back: a later one of
      the session, or the standing one again. */
  predicate Follows(m: Market, symbol: Symbol, q: Quote) {
    && symbol in m.instruments && q.session == m.instruments[symbol].session
    && (symbol in m.quotes && m.quotes[symbol].session == q.session ==>
          m.quotes[symbol].sequence < q.sequence || m.quotes[symbol] == q)
  }

  lemma QuoteExactly(m: Market, symbol: Symbol, q: Quote)
    ensures WithQuote(m, symbol, q).Ok? <==> Follows(m, symbol, q)
    ensures WithQuote(m, symbol, q).Ok? ==>
      var after := WithQuote(m, symbol, q).value;
      after.quotes == m.quotes[symbol := q] && after.instruments == m.instruments && after.status == m.status
  {
  }

  /** A symbol's quote, once of its instrument's session, has only moved on. */
  predicate MovedOn(m: Market, after: Market, symbol: Symbol) {
    && after.instruments == m.instruments
    && (symbol in m.instruments && symbol in m.quotes && m.quotes[symbol].session == m.instruments[symbol].session
        ==> symbol in after.quotes && after.quotes[symbol].session == m.quotes[symbol].session
            && (m.quotes[symbol].sequence < after.quotes[symbol].sequence || after.quotes[symbol] == m.quotes[symbol]))
  }

  lemma MatchKeepsMarket(s: Desk, id: Id, sink: Sink)
    requires Keyed(s) && id in s.blotter.orders
    ensures MatchQuoted(s, id, sink).0.market == s.market
  {
    hide ValidMarket, Settle, PlanOf, Emit, TapeAfter;
  }

  lemma QuoteMovesOn(m: Market, symbol: Symbol, q: Quote, other: Symbol)
    requires WithQuote(m, symbol, q).Ok?
    ensures MovedOn(m, WithQuote(m, symbol, q).value, other)
  {
    QuoteExactly(m, symbol, q);
  }

  lemma StepMovesOn(s: Desk, op: Op, symbol: Symbol)
    requires Sound(s)
    ensures MovedOn(s.market, Step(s, op).0.market, symbol)
  {
    hide StoriesOk, TapeOk, OutboxOk, Ascending, ValidBooks, ValidMarket, MatchQuoted, WithQuote, Admit, MovedOn,
      Emit, Redeliver;
    StaysPut(s.market, symbol);
    match op
    case DoQuote(name, q) =>
      if WithQuote(s.market, name, q).Ok? {
        QuoteMovesOn(s.market, name, q, symbol);
      }
    case DoMatch(id, quote, sink) =>
      if id in s.blotter.orders && quote.None? {
        MatchKeepsMarket(s, id, sink);
      } else if id in s.blotter.orders && WithQuote(s.market, quote.value.0, quote.value.1).Ok? {
        QuoteKeeps(s, quote.value.0, quote.value.1);
        QuoteMovesOn(s.market, quote.value.0, quote.value.1, symbol);
        MatchKeepsMarket(s.(market := WithQuote(s.market, quote.value.0, quote.value.1).value), id, sink);
      }
    case DoSubmit(c, sink) =>
      if c.key !in s.blotter.idempotency && OrderSession(s.market, c.symbol).Some? {
        var session := OrderSession(s.market, c.symbol).value;
        AdmitKeeps(s, c, session, sink.first);
        AdmitTradesNothing(s, c, session, sink.first);
        AdmitKeyed(s, c, session, sink.first);
        MatchKeepsMarket(Admit(s, c, session, sink.first), PaperOrderId(c.key), sink);
      }
    case _ =>
  }

  lemma StaysPut(m: Market, symbol: Symbol)
    ensures forall status :: MovedOn(m, m.(status := status), symbol)
    ensures MovedOn(m, m, symbol)
  {
  }

  lemma MovesOnChain(a: Market, b: Market, c: Market, symbol: Symbol)
    requires MovedOn(a, b, symbol) && MovedOn(b, c, symbol)
    ensures MovedOn(a, c, symbol)
  {
  }

  /** Quotes never go back in any run, however they arrive. */
  lemma {:induction false} QuotesMoveOn(s: Desk, ops: seq<Op>, symbol: Symbol)
    requires Sound(s)
    ensures MovedOn(s.market, Play(s, ops).0.market, symbol)
  {
    hide Sound, Step, Play, MovedOn;
    if ops == [] {
      PlayNothing(s);
      StaysPut(s.market, symbol);
    } else {
      var init := ops[..|ops| - 1];
      QuotesMoveOn(s, init, symbol);
      PlayLast(s, ops);
      StepMovesOn(Play(s, init).0, ops[|ops| - 1], symbol);
      MovesOnChain(s.market, Play(s, init).0.market, Play(s, ops).0.market, symbol);
    }
  }

  // -------------------------------------------------------------------------- recovery

  /** What is pending is in the order it was told. */
  ghost predicate Queued(s: Desk) { Ascending(s.outbox.pending, s.sequence) }

  lemma EmitQueues(o: Outbox, e: Event, accepts: bool, sequence: nat)
    requires Ascending(o.pending, sequence) && SequenceOf(e) == sequence + 1
    ensures Ascending(Emit(o, e, accepts).pending, sequence + 1)
  {
    AscendingSnoc(o.pending, sequence, e);
    AscendingWeaken(o.pending, sequence, sequence + 1);
  }

  lemma TradeQueues(s: Desk, id: Id, shares: nat, price: Price, sink: Sink)
    requires Keyed(s) && Queued(s) && id in s.blotter.orders && id in s.blotter.matchCounts && shares > 0
    requires s.blotter.orders[id].command.symbol in s.market.quotes
    ensures Queued(Trade(s, id, shares, price, sink).0)
  {
    hide Registry, ValidMarket, Settle, TapeAfter, Emit, Ascending, Recorded;
    var order := s.blotter.orders[id];
    var q := s.market.quotes[order.command.symbol];
    var fill := TradedFill(order, s.policy, s.blotter.matchCounts[id] + 1, shares, price, q.session, s.sequence + 1);
    var fact := OrderAfter(order, shares, q.session, s.sequence + 2);
    EmitQueues(s.outbox, FillEvent(fill), sink.fill, s.sequence);
    EmitQueues(Emit(s.outbox, FillEvent(fill), sink.fill), OrderEvent(fact), sink.order, s.sequence + 1);
    AscendingWeaken(s.outbox.pending, s.sequence, s.sequence + 1);
  }

  lemma MatchQueues(s: Desk, id: Id, sink: Sink)
    requires Sound(s) && Queued(s) && id in s.blotter.orders
    ensures Queued(MatchQuoted(s, id, sink).0)
  {
    hide StoriesOk, TapeOk, OutboxOk, Ascending, Registry, ValidMarket, ValidBooks, Trade, PlanOf;
    OpenTells(s, id);
    var order := s.blotter.orders[id];
    if order.command.symbol in s.market.quotes {
      var plan := PlanOf(s.market, s.policy, s.books, s.tape.consumed, order.command, order.filled);
      if plan.Take? {
        TradeQueues(s, id, plan.shares, plan.price, sink);
      }
    }
  }

  lemma AdmitQueues(s: Desk, c: Command, session: Session, accepts: bool)
    requires ValidMarket(s.market) && Queued(s)
    ensures Queued(Admit(s, c, session, accepts))
  {
    hide ValidMarket, Emit, SubmissionReason, Ascending;
    var fact := Admit(s, c, session, accepts).blotter.orders[PaperOrderId(c.key)];
    EmitQueues(s.outbox, OrderEvent(fact), accepts, s.sequence);
  }

  lemma CancelQueues(s: Desk, id: Id, accepts: bool)
    requires Sound(s) && Queued(s)
    ensures Queued(Cancel(s, id, accepts).0)
  {
    hide StoriesOk, TapeOk, OutboxOk, ValidBooks, ValidMarket, Ascending, Emit;
    if id in s.blotter.orders && OrderSession(s.market, s.blotter.orders[id].command.symbol).Some? {
      OpenTells(s, id);
      var session := OrderSession(s.market, s.blotter.orders[id].command.symbol).value;
      var fact := AfterCancel(s, s.blotter.orders[id], session, accepts).blotter.orders[id];
      EmitQueues(s.outbox, OrderEvent(fact), accepts, s.sequence);
    }
  }

  lemma StepQueues(s: Desk, op: Op)
    requires Sound(s) && Queued(s)
    ensures Queued(Step(s, op).0)
  {
    hide StoriesOk, TapeOk, OutboxOk, Ascending, ValidBooks, ValidMarket, Registry, MatchQuoted, WithQuote, Admit,
      Cancel;
    match op
    case DoMatch(id, quote, sink) =>
      if id in s.blotter.orders && quote.None? {
        MatchQueues(s, id, sink);
      } else if id in s.blotter.orders && WithQuote(s.market, quote.value.0, quote.value.1).Ok? {
        QuoteKeeps(s, quote.value.0, quote.value.1);
        MatchQueues(s.(market := WithQuote(s.market, quote.value.0, quote.value.1).value), id, sink);
      }
    case DoSubmit(c, sink) =>
      if c.key !in s.blotter.idempotency && OrderSession(s.market, c.symbol).Some? {
        var session := OrderSession(s.market, c.symbol).value;
        AdmitKeeps(s, c, session, sink.first);
        AdmitKeyed(s, c, session, sink.first);
        AdmitQueues(s, c, session, sink.first);
        MatchQueues(Admit(s, c, session, sink.first), PaperOrderId(c.key), sink);
      }
    case DoCancel(id, accepts) => CancelQueues(s, id, accepts);
    case DoSubscribe(stopAt) => NothingIsQueued(s.sequence);
    case _ =>
  }

  lemma NothingIsQueued(sequence: nat)
    ensures Ascending([], sequence)
  {
  }

  /** In every run what is pending stays in the order it was told. */
  lemma {:induction false} PendingInOrder(s: Desk, ops: seq<Op>)
    requires Sound(s) && Queued(s)
    ensures Queued(Play(s, ops).0)
  {
    hide Sound, Step, Play, Queued;
    if ops == [] {
      PlayNothing(s);
    } else {
      PendingInOrder(s, ops[..|ops| - 1]);
      PlayLast(s, ops);
      StepQueues(Play(s, ops[..|ops| - 1]).0, ops[|ops| - 1]);
    }
  }

  /** A sink that subscribes is handed what is pending from the first event on; if it takes
      all of it the broker is well again and nothing is pending, and if it raises the broker
      is degraded and all of it stays pending. */
  lemma RecoveryExactly(s: Desk, stopAt: Option<nat>)
    requires Sound(s) && s.connected
    ensures var after := Step(s, DoSubscribe(stopAt)).0;
      var pending := s.outbox.pending;
      && after == s.(outbox := after.outbox)
      && after.outbox.emitted == s.outbox.emitted
      && (if stopAt.None? || |pending| <= stopAt.value then
            && after.outbox.attached && !after.outbox.failed && after.outbox.pending == []
            && after.outbox.delivered == s.outbox.delivered + pending
            && forall e :: e in s.outbox.emitted ==> e in after.outbox.delivered
          else
            && after.outbox.attached == s.outbox.attached && after.outbox.failed
            && after.outbox.pending == pending
            && after.outbox.delivered == s.outbox.delivered + pending[..stopAt.value])
  {
    hide Keyed, StoriesOk, TapeOk, Ascending, ValidBooks;
  }
}
