/** Every operation of the paper broker keeps the invariant; what that says about whole
    runs: share accounting, the volume budget, cash safety and the outbox. */
module PaperRuns {
  import opened Wrappers
  import opened Ids
  import opened Rounding
  import opened PaperFacts
  import opened PaperBooks
  import opened PaperRules
  import opened PaperDesk
  import opened PaperInvariant

  /** A planned fill fits the order, the volume budget, the position and the cash, at a fair
      price. */
  lemma PlanFits(
    m: Market, policy: Policy, b: Books, consumed: map<VolumeKey, nat>, c: Command, filled: nat
  )
    requires ValidMarket(m) && ValidBooks(b) && filled <= c.requested
    requires PlanOf(m, policy, b, consumed, c, filled).Take?
    ensures var plan := PlanOf(m, policy, b, consumed, c, filled);
      && c.symbol in m.quotes && c.symbol in m.instruments
      && Fits(policy, b.positions, b.cash, c, m.instruments[c.symbol].tradingUnit,
              m.quotes[c.symbol].volume,
              ConsumedOf(consumed, (m.quotes[c.symbol].session, c.symbol)),
              c.requested - filled, plan.price, plan.shares)
      && Fair(policy, m.instruments[c.symbol], m.quotes[c.symbol], c, plan.price)
  {
    hide FillQuantity, Fits, FillPrice, Fair;
    var plan := PlanOf(m, policy, b, consumed, c, filled);
    var i, q := m.instruments[c.symbol], m.quotes[c.symbol];
    FillQuantityIsLargest(policy, b.positions, b.cash, c, i.tradingUnit, q.volume,
      ConsumedOf(consumed, (q.session, c.symbol)), c.requested - filled, plan.price);
    FillPriceIsFair(policy, i, q, c);
  }

  /** A fill that fits never trips the negative-cash, missing-position or oversell guards;
      a purchase never breaks the books. */
  lemma FittingFillSettles(
    policy: Policy, b: Books, c: Command, unit: nat, volume: nat, taken: nat, remaining: nat,
    fill: Fill, valuation: Option<Price>
  )
    requires unit > 0 && fill.shares > 0 && ValidBooks(b)
    requires fill.symbol == c.symbol && fill.side == c.side
    requires fill.fees == policy.fees(c.side, fill.price, fill.shares)
    requires Fits(policy, b.positions, b.cash, c, unit, volume, taken, remaining, fill.price, fill.shares)
    ensures var r := Settle(b, fill, valuation);
      && r != Refused(NegativeCash) && r != Refused(PositionDisappeared)
      && r != Refused(ExceedsPosition)
      && (r.HalfSettled? ==> c.side.Sell?)
  {
    if c.symbol in b.positions {
      assert ValidPosition(b.positions[c.symbol]);
    }
    hide BlendedCost, MarketValue, ValidBooks;
  }

  // ------------------------------------------------------------ operations keep it

  ghost predicate Kept(s: Desk, after: Desk, broke: bool) {
    && Sound(after)
    && after.start == s.start && after.policy == s.policy
    && (Balanced(s) && !broke ==> Balanced(after))
    && s.tape.ledger <= after.tape.ledger
  }

  lemma AdmitKeeps(s: Desk, c: Command, session: Session, accepts: bool)
    requires Sound(s) && c.key !in s.blotter.idempotency
    ensures Kept(s, Admit(s, c, session, accepts), false)
  {
    hide StoriesOk, TapeOk, OutboxOk, Ascending, Registry, ValidMarket, ValidBooks, SettleAll,
      SubmissionReason, Emit;
    var after := Admit(s, c, session, accepts);
    var fact := after.blotter.orders[PaperOrderId(c.key)];
    AdmitKeyed(s, c, session, accepts);
    OutboxEmits(s.outbox, OrderEvent(fact), accepts);
    TapeListens(s.tape, s.outbox.emitted, fact);
    AscendingSnoc(s.outbox.emitted, s.sequence, OrderEvent(fact));
    StoriesAdmit(s.blotter, s.outbox.emitted, fact, after.blotter);
  }

  lemma RegistryReplaces(b: Blotter, c: Blotter, fact: OrderFact)
    requires Registry(b) && fact.orderId in b.orders
    requires fact.command == b.orders[fact.orderId].command
    requires c.orders == b.orders[fact.orderId := fact] && c.idempotency == b.idempotency
    requires forall id :: id in c.reasons <==> id in b.reasons
    requires forall id :: id in c.matchCounts <==> id in b.matchCounts
    ensures Registry(c)
  {
    hide OrdersKeyed;
    OrdersReplaced(b.orders, b.idempotency, fact);
  }

  lemma OrdersReplaced(orders: map<Id, OrderFact>, idempotency: map<string, Id>, fact: OrderFact)
    requires OrdersKeyed(orders, idempotency) && fact.orderId in orders
    requires fact.command == orders[fact.orderId].command
    ensures OrdersKeyed(orders[fact.orderId := fact], idempotency)
  {
    var after := orders[fact.orderId := fact];
    assert forall id :: id in after <==> id in orders;
  }

  lemma OpenTells(s: Desk, id: Id)
    requires Sound(s) && id in s.blotter.orders
    ensures var order := s.blotter.orders[id];
      && order.orderId == id && id in s.blotter.matchCounts && id in s.blotter.reasons
      && Tells(Story(s.outbox.emitted, id), order)
      && order.filled <= order.command.requested
      && order.sequence <= s.sequence
  {
    hide TapeOk, OutboxOk, ValidBooks, ValidMarket;
    var story := Story(s.outbox.emitted, id);
    assert StoryFits(story, OrderOf(s.blotter, id), CountOf(s.blotter, id));
    StoryMembers(s.outbox.emitted, id, OrderEvent(s.blotter.orders[id]));
    AscendingBound(s.outbox.emitted, s.sequence, OrderEvent(s.blotter.orders[id]));
  }

  lemma {:induction false} StoryMembers(emitted: seq<Event>, id: Id, e: Event)
    ensures e in Story(emitted, id) <==> e in emitted && About(e) == id
  {
    if emitted != [] {
      StoryMembers(emitted[..|emitted| - 1], id, e);
    }
  }

  lemma {:induction false} AscendingBound(emitted: seq<Event>, bound: int, e: Event)
    requires Ascending(emitted, bound) && e in emitted
    ensures SequenceOf(e) <= bound
  {
    if e != emitted[|emitted| - 1] {
      AscendingBound(emitted[..|emitted| - 1], SequenceOf(emitted[|emitted| - 1]) - 1, e);
    }
  }

  lemma CancelKeeps(s: Desk, id: Id, session: Session, accepts: bool)
    requires Sound(s) && id in s.blotter.orders && !IsClosed(s.blotter.orders[id].status)
    ensures Kept(s, AfterCancel(s, s.blotter.orders[id], session, accepts), false)
  {
    hide StoriesOk, TapeOk, OutboxOk, Ascending, Registry, ValidMarket, ValidBooks, SettleAll, Tells,
      Story, Emit;
    OpenTells(s, id);
    var order := s.blotter.orders[id];
    var after := AfterCancel(s, order, session, accepts);
    var fact := after.blotter.orders[id];
    RegistryReplaces(s.blotter, after.blotter, fact);
    OutboxEmits(s.outbox, OrderEvent(fact), accepts);
    TapeListens(s.tape, s.outbox.emitted, fact);
    AscendingSnoc(s.outbox.emitted, s.sequence, OrderEvent(fact));
    StoriesCancel(s.blotter, s.outbox.emitted, fact, after.blotter);
  }

  lemma SettleAllSnoc(start: Books, ledger: seq<Entry>, books: Books, entry: Entry)
    requires SettleAll(start, ledger) == Some(books) && entry.fill.shares > 0
    requires Settle(books, entry.fill, entry.valuation).Settled?
    ensures SettleAll(start, ledger + [entry])
         == Some(Settle(books, entry.fill, entry.valuation).books)
  {
    hide Settle;
    assert (ledger + [entry])[..|ledger|] == ledger;
  }

  lemma TradeKeepsBooks(s: Desk, fill: Fill, valuation: Option<Price>, books: Books)
    requires ValidBooks(s.books) && fill.shares > 0
    requires Settle(s.books, fill, valuation) == Settled(books)
    ensures ValidBooks(books)
    ensures Balanced(s)
      ==> SettleAll(s.start, s.tape.ledger + [Entry(fill, valuation)]) == Some(books)
  {
    SettleKeepsValid(s.books, fill, valuation);
    hide Settle;
    if Balanced(s) {
      SettleAllSnoc(s.start, s.tape.ledger, s.books, Entry(fill, valuation));
    }
  }

  lemma TradeKeepsTelling(
    o: Outbox, t: Tape, sequence: nat, fill: Fill, valuation: Option<Price>, fact: OrderFact, sink: Sink
  )
    requires OutboxOk(o) && TapeOk(t, o.emitted) && Ascending(o.emitted, sequence)
    requires fill.sequence == sequence + 1 && fact.sequence == sequence + 2
    ensures var p := Emit(Emit(o, FillEvent(fill), sink.fill), OrderEvent(fact), sink.order);
      && p.emitted == o.emitted + [FillEvent(fill)] + [OrderEvent(fact)]
      && OutboxOk(p) && TapeOk(TapeAfter(t, fill, valuation), p.emitted)
      && Ascending(p.emitted, sequence + 2)
  {
    OutboxEmits(o, FillEvent(fill), sink.fill);
    OutboxEmits(Emit(o, FillEvent(fill), sink.fill), OrderEvent(fact), sink.order);
    TapeTrades(t, o.emitted, fill, valuation);
    hide TapeAfter, OutboxOk, TapeOk, Ascending;
    TapeListens(TapeAfter(t, fill, valuation), o.emitted + [FillEvent(fill)], fact);
    AscendingSnoc(o.emitted, sequence, FillEvent(fill));
    AscendingSnoc(o.emitted + [FillEvent(fill)], sequence + 1, OrderEvent(fact));
  }

  lemma TradeKeepsBlotter(b: Blotter, emitted: seq<Event>, c: Blotter, fill: Fill, fact: OrderFact)
    requires Registry(b) && StoriesOk(b, emitted) && fact.orderId in b.orders
    requires var order := b.orders[fact.orderId];
      && !IsClosed(order.status) && 0 < fill.shares <= order.command.requested - order.filled
      && order.sequence < fill.sequence < fact.sequence
      && fact == OrderAfter(order, fill.shares, fact.session, fact.sequence)
      && fill.orderId == fact.orderId
      && fill.symbol == order.command.symbol && fill.side == order.command.side
    requires fill.fillId
          == PaperFillId(fact.orderId, b.matchCounts[fact.orderId] + 1, fill.shares, fill.price)
    requires c.orders == b.orders[fact.orderId := fact] && c.idempotency == b.idempotency
    requires forall id :: id in c.reasons <==> id in b.reasons
    requires c.matchCounts == b.matchCounts[fact.orderId := fill.fillId.matchCount]
    ensures Registry(c) && StoriesOk(c, emitted + [FillEvent(fill)] + [OrderEvent(fact)])
  {
    assert b.orders[fact.orderId].orderId == fact.orderId;
    assert fact.orderId in b.matchCounts;
    hide StoriesOk, Registry;
    RegistryReplaces(b, c, fact);
    StoriesTrade(b, emitted, fill, fact, c);
  }

  lemma TradeKeepsRest(
    s: Desk, order: OrderFact, fill: Fill, valuation: Option<Price>, books: Books, sink: Sink
  )
    requires Sound(s) && order.orderId in s.blotter.orders && order == s.blotter.orders[order.orderId]
    requires !IsClosed(order.status) && 0 < fill.shares <= order.command.requested - order.filled
    requires fill == TradedFill(order, s.policy, s.blotter.matchCounts[order.orderId] + 1, fill.shares,
                                fill.price, fill.session, s.sequence + 1)
    ensures ValidBooks(books) ==> Sound(AfterTrade(s, order, fill, valuation, books, sink))
  {
    hide StoriesOk, TapeOk, OutboxOk, Ascending, Registry, ValidMarket, ValidBooks, Tells, Story, Emit,
      TapeAfter;
    OpenTells(s, order.orderId);
    var fact := OrderAfter(order, fill.shares, fill.session, s.sequence + 2);
    TradeKeepsTelling(s.outbox, s.tape, s.sequence, fill, valuation, fact, sink);
    TradeKeepsBlotter(s.blotter, s.outbox.emitted,
      AfterTrade(s, order, fill, valuation, books, sink).blotter, fill, fact);
  }

  lemma RefusalKeeps(s: Desk, id: Id, books: Books)
    requires Sound(s) && id in s.blotter.orders && ValidBooks(books)
    ensures Kept(s, AfterRefusal(s, id, books), books != s.books)
  {
    hide StoriesOk, TapeOk, OutboxOk, Ascending, Registry, ValidMarket, ValidBooks, SettleAll;
    OpenTells(s, id);
    var after := AfterRefusal(s, id, books);
    AscendingWeaken(s.outbox.emitted, s.sequence, s.sequence + 1);
    RegistryReplaces(s.blotter, after.blotter, s.blotter.orders[id]);
    assert forall other :: CountOf(after.blotter, other) >= CountOf(s.blotter, other);
    StoriesSkip(s.blotter, s.outbox.emitted, after.blotter);
  }

  lemma TradeKeeps(s: Desk, id: Id, shares: nat, price: Price, sink: Sink)
    requires Sound(s) && id in s.blotter.orders && !IsClosed(s.blotter.orders[id].status)
    requires s.blotter.orders[id].command.symbol in s.market.quotes
    requires 0 < shares <= s.blotter.orders[id].command.requested - s.blotter.orders[id].filled
    ensures var (after, r) := Trade(s, id, shares, price, sink);
      Kept(s, after, r == Err(EconomicsBroken))
  {
    hide Settle, SettleAll, Tells, Story, StoriesOk, TapeOk, OutboxOk, Ascending, Registry, ValidMarket,
      ValidBooks, AfterRefusal, Emit, Recorded, OrderAfter;
    var order := s.blotter.orders[id];
    OpenTells(s, id);
    var q := s.market.quotes[order.command.symbol];
    var fill := TradedFill(order, s.policy, s.blotter.matchCounts[id] + 1, shares, price, q.session,
                           s.sequence + 1);
    SettleKeepsValid(s.books, fill, Valuation(q));
    match Settle(s.books, fill, Valuation(q))
    case Refused(_) => RefusalKeeps(s, id, s.books);
    case HalfSettled(broken) => RefusalKeeps(s, id, broken);
    case Settled(books) =>
      TradeKeepsBooks(s, fill, Valuation(q), books);
      TradeKeepsRest(s, order, fill, Valuation(q), books, sink);
  }

  lemma MatchQuotedKeeps(s: Desk, id: Id, sink: Sink)
    requires Sound(s) && id in s.blotter.orders
    ensures var (after, r) := MatchQuoted(s, id, sink);
      Kept(s, after, r == Err(EconomicsBroken))
  {
    hide StoriesOk, TapeOk, OutboxOk, Ascending, Registry, ValidMarket, ValidBooks, SettleAll, Trade,
      Fits, PlanOf;
    OpenTells(s, id);
    var order := s.blotter.orders[id];
    var symbol := order.command.symbol;
    if symbol in s.market.quotes && symbol in s.market.instruments && !IsClosed(order.status) {
      var plan := PlanOf(s.market, s.policy, s.books, s.tape.consumed, order.command, order.filled);
      match plan
      case Take(shares, price) =>
        PlanFits(s.market, s.policy, s.books, s.tape.consumed, order.command, order.filled);
        FitsWithinOrder(s, order);
        TradeKeeps(s, id, shares, price, sink);
      case Wait(reason) => NoTradeKeeps(s, id, reason);
      case BadPrice =>
    }
  }

  lemma FitsWithinOrder(s: Desk, order: OrderFact)
    requires ValidMarket(s.market) && ValidBooks(s.books) && order.filled <= order.command.requested
    requires var plan := PlanOf(s.market, s.policy, s.books, s.tape.consumed, order.command, order.filled);
      plan.Take?
    ensures PlanOf(s.market, s.policy, s.books, s.tape.consumed, order.command, order.filled).shares
         <= order.command.requested - order.filled
  {
    hide PlanOf, ValidMarket, ValidBooks, Affords;
    PlanFits(s.market, s.policy, s.books, s.tape.consumed, order.command, order.filled);
  }

  lemma NoTradeKeeps(s: Desk, id: Id, reason: Reason)
    requires Sound(s) && id in s.blotter.orders
    ensures Kept(s, NoTrade(s, id, reason).0, false)
  {
    hide StoriesOk, TapeOk, OutboxOk, Ascending, Registry, ValidMarket, ValidBooks, SettleAll;
    OpenTells(s, id);
    var after := NoTrade(s, id, reason).0;
    RegistryReplaces(s.blotter, after.blotter, s.blotter.orders[id]);
    assert forall other :: CountOf(after.blotter, other) >= CountOf(s.blotter, other);
    StoriesSkip(s.blotter, s.outbox.emitted, after.blotter);
  }

  lemma QuoteKeeps(s: Desk, symbol: Symbol, q: Quote)
    requires Sound(s) && WithQuote(s.market, symbol, q).Ok?
    ensures Kept(s, s.(market := WithQuote(s.market, symbol, q).value), false)
  {
    hide StoriesOk, TapeOk, OutboxOk, Ascending, Registry, ValidBooks, SettleAll;
  }

  lemma MatchKeeps(s: Desk, id: Id, quote: Option<(Symbol, Quote)>, sink: Sink)
    requires Sound(s)
    ensures var (after, r) := Match(s, id, quote, sink);
      Kept(s, after, r == Err(EconomicsBroken))
  {
    hide Keyed, StoriesOk, TapeOk, OutboxOk, Ascending, ValidBooks, SettleAll, MatchQuoted, WithQuote;
    if id in s.blotter.orders {
      if quote.None? {
        MatchQuotedKeeps(s, id, sink);
      } else if WithQuote(s.market, quote.value.0, quote.value.1).Ok? {
        QuoteKeeps(s, quote.value.0, quote.value.1);
        MatchQuotedKeeps(s.(market := WithQuote(s.market, quote.value.0, quote.value.1).value), id, sink);
      }
    }
  }

  lemma SubmitKeeps(s: Desk, c: Command, sink: Sink)
    requires Sound(s)
    ensures var (after, r) := Submit(s, c, sink);
      Kept(s, after, r == Err(EconomicsBroken))
  {
    hide Registry, ValidMarket, StoriesOk, TapeOk, OutboxOk, Ascending, ValidBooks, SettleAll, Match, Admit;
    if c.key !in s.blotter.idempotency && OrderSession(s.market, c.symbol).Some? {
      var session := OrderSession(s.market, c.symbol).value;
      AdmitKeeps(s, c, session, sink.first);
      MatchKeeps(Admit(s, c, session, sink.first), PaperOrderId(c.key), None, sink);
    }
  }

  lemma CancelStepKeeps(s: Desk, id: Id, accepts: bool)
    requires Sound(s)
    ensures Kept(s, Cancel(s, id, accepts).0, false)
  {
    hide Keyed, StoriesOk, TapeOk, OutboxOk, Ascending, ValidBooks, SettleAll, AfterCancel;
    if id in s.blotter.orders && !IsClosed(s.blotter.orders[id].status)
      && OrderSession(s.market, s.blotter.orders[id].command.symbol).Some?
    {
      CancelKeeps(s, id, OrderSession(s.market, s.blotter.orders[id].command.symbol).value, accepts);
    }
  }

  lemma RedeliverKeeps(s: Desk, stopAt: Option<nat>)
    requires Sound(s)
    ensures Kept(s, s.(outbox := Redeliver(s.outbox, stopAt)), false)
  {
    hide Registry, ValidMarket, StoriesOk, TapeOk, OutboxOk, Ascending, ValidBooks, SettleAll;
    OutboxRedelivers(s.outbox, stopAt);
  }
}
