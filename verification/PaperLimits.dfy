/** Where the paper broker stops short: sales that are never completed, and runs into a
    half-done settlement and past the volume limit. */
module PaperLimits {
  import opened Wrappers
  import opened Ids
  import opened Rounding
  import opened PaperFacts
  import opened PaperBooks
  import opened PaperRules
  import opened PaperDesk
  import opened PaperInvariant
  import opened PaperRuns
  import opened PaperTheorems

  // ------------------------------------------------------------------ sales for ever open

  /** A sale of more than may be sold today. */
  ghost predicate Oversized(s: Desk, id: Id) {
    && id in s.blotter.orders
    && var c := s.blotter.orders[id].command;
    && c.side.Sell?
    && c.requested > Held(s.books.positions, c.symbol).sellable
  }

  lemma SettlementSellsOnly(b: Books, f: Fill, valuation: Option<Price>, symbol: Symbol)
    requires f.shares > 0
    ensures var before := Held(b.positions, symbol).sellable;
      match Settle(b, f, valuation)
      case Settled(books) => Held(books.positions, symbol).sellable <= before
      case HalfSettled(broken) => Held(broken.positions, symbol).sellable <= before
      case Refused(_) => true
  {
    hide MarketValue, ToMoney, BlendedCost, CashFlow;
  }

  lemma OrderHasCount(s: Desk, id: Id)
    requires Keyed(s) && id in s.blotter.orders
    ensures id in s.blotter.matchCounts
  {
  }

  lemma TradeSellsOnly(s: Desk, id: Id, shares: nat, price: Price, sink: Sink, symbol: Symbol)
    requires Keyed(s) && id in s.blotter.orders && shares > 0
    requires s.blotter.orders[id].command.symbol in s.market.quotes
    ensures Held(Trade(s, id, shares, price, sink).0.books.positions, symbol).sellable
         <= Held(s.books.positions, symbol).sellable
  {
    hide Settle, Held, Emit, Recorded, TapeAfter, OrderAfter;
    OrderHasCount(s, id);
    hide Keyed;
    var order := s.blotter.orders[id];
    var q := s.market.quotes[order.command.symbol];
    var fill := TradedFill(order, s.policy, s.blotter.matchCounts[id] + 1, shares, price, q.session, s.sequence + 1);
    SettlementSellsOnly(s.books, fill, Valuation(q), symbol);
  }

  lemma MatchSellsOnly(s: Desk, id: Id, sink: Sink, symbol: Symbol)
    requires Sound(s) && id in s.blotter.orders
    ensures Held(MatchQuoted(s, id, sink).0.books.positions, symbol).sellable
         <= Held(s.books.positions, symbol).sellable
  {
    hide StoriesOk, TapeOk, OutboxOk, Ascending, ValidBooks, Registry, ValidMarket, PlanOf, Trade, Held;
    OpenTells(s, id);
    var order := s.blotter.orders[id];
    var c := order.command;
    if c.symbol in s.market.quotes && c.symbol in s.market.instruments && !IsClosed(order.status) {
      var plan := PlanOf(s.market, s.policy, s.books, s.tape.consumed, c, order.filled);
      if plan.Take? {
        TradeSellsOnly(s, id, plan.shares, plan.price, sink, symbol);
      }
    }
  }

  lemma OversizedWaits(s: Desk, id: Id, sink: Sink)
    requires Sound(s) && Oversized(s, id)
    ensures MatchQuoted(s, id, sink).0.blotter.orders == s.blotter.orders
  {
    hide StoriesOk, TapeOk, OutboxOk, Ascending, Registry, ValidMarket, Trade, FillPrice, FillQuantity;
    OpenTells(s, id);
    var c := s.blotter.orders[id].command;
    if c.symbol in s.market.instruments && c.symbol in s.market.quotes {
      UnitIsPositive(s.market, c.symbol);
      assert QuantityReason(s.market.instruments[c.symbol].tradingUnit, s.books.positions, c).Some?;
      hide QuantityReason;
    }
  }

  lemma MatchLeavesOversized(s: Desk, other: Id, quote: Option<(Symbol, Quote)>, sink: Sink, id: Id)
    requires Sound(s) && Oversized(s, id)
    ensures var after := Match(s, other, quote, sink).0;
      Oversized(after, id) && after.blotter.orders[id] == s.blotter.orders[id]
  {
    hide Keyed, StoriesOk, TapeOk, OutboxOk, Ascending, ValidBooks, MatchQuoted, WithQuote, Held;
    var symbol := s.blotter.orders[id].command.symbol;
    MatchRemembers(s, other, quote, sink, id);
    if other in s.blotter.orders {
      if quote.None? {
        MatchSellsOnly(s, other, sink, symbol);
        OversizedAt(s, other, sink, id);
      } else if WithQuote(s.market, quote.value.0, quote.value.1).Ok? {
        var quoted := s.(market := WithQuote(s.market, quote.value.0, quote.value.1).value);
        QuoteKeeps(s, quote.value.0, quote.value.1);
        MatchSellsOnly(quoted, other, sink, symbol);
        OversizedAt(quoted, other, sink, id);
      }
    }
  }

  lemma OversizedAt(s: Desk, other: Id, sink: Sink, id: Id)
    requires Sound(s) && Oversized(s, id) && other in s.blotter.orders
    ensures other == id ==> MatchQuoted(s, id, sink).0.blotter.orders == s.blotter.orders
  {
    hide Sound, Oversized, MatchQuoted;
    if other == id {
      OversizedWaits(s, id, sink);
    }
  }

  lemma StepLeavesOversized(s: Desk, op: Op, id: Id)
    requires Sound(s) && Oversized(s, id)
    ensures var after := Step(s, op).0;
      && Oversized(after, id)
      && after.blotter.orders[id].filled == s.blotter.orders[id].filled
  {
    hide StoriesOk, TapeOk, OutboxOk, Ascending, ValidBooks, ValidMarket, Match, Admit, WithQuote,
      Emit, Redeliver, Held;
    match op
    case DoMatch(other, quote, sink) => MatchLeavesOversized(s, other, quote, sink, id);
    case DoSubmit(c, sink) =>
      if c.key !in s.blotter.idempotency && OrderSession(s.market, c.symbol).Some? {
        var session := OrderSession(s.market, c.symbol).value;
        AdmitKeeps(s, c, session, sink.first);
        AdmitRemembers(s, c, session, sink.first, id);
        AdmitKeepsBooks(s, c, session, sink.first);
        MatchLeavesOversized(Admit(s, c, session, sink.first), PaperOrderId(c.key), None, sink, id);
      }
    case DoCancel(other, _) =>
    case _ =>
  }

  lemma AdmitKeepsBooks(s: Desk, c: Command, session: Session, accepts: bool)
    requires ValidMarket(s.market)
    ensures Admit(s, c, session, accepts).books == s.books
  {
    hide ValidMarket, Emit, SubmissionReason;
  }

  /** A sale of more than is sellable is never filled again, whatever is called after it:
      what may be sold never grows within a run. A partly filled sale is such a sale unless
      the position could sell the request on top of what was sold. */
  lemma {:induction false} OversizedSaleIsStuck(s: Desk, ops: seq<Op>, id: Id)
    requires Sound(s) && Oversized(s, id)
    ensures var after := Play(s, ops).0;
      && Oversized(after, id)
      && after.blotter.orders[id].filled == s.blotter.orders[id].filled
  {
    hide Sound, Oversized, Step;
    if ops != [] {
      OversizedSaleIsStuck(s, ops[..|ops| - 1], id);
      StepLeavesOversized(Play(s, ops[..|ops| - 1]).0, ops[|ops| - 1], id);
    }
  }

  // ------------------------------------------------------------------------ concrete runs

  const ONE: Price := 100_000_000
  const HALF := 50_000_000
  const TICK: Price := 1_000_000

  /** One share class at 1.00 in lots of 100, 200 shares traded so far. */
  function Listed(): Instrument {
    Instrument(Equity, Trading, 100, TICK, 2, Some(HALF), Some(2 * ONE), 1)
  }

  function Quoted(volume: nat, sequence: nat): Quote {
    Quote(Some(ONE), Some(ONE), Some(ONE), Some(ONE), volume, Some(HALF), Some(2 * ONE), Open, sequence, 1)
  }

  function TheMarket(): Market { Market(map["S" := Listed()], map["S" := Quoted(200, 1)], Open) }

  /** Up to half the volume, no slippage, and one fee whatever is traded. */
  function Charging(fee: nat): Policy { Policy(HALF, 0, false, (side, price, shares) => fee) }

  function TwoHundred(): Books {
    Books(0, 2_000_000, map["S" := Position(200, 200, Some(ONE), 2_000_000)])
  }

  function SellAll(): Command { Command("k", "e", "c", "S", Sell, 200, ONE, 2, 1) }

  const QUIET := Sink(true, true, true)

  const SALE: seq<Op> := [DoConnect(true), DoSubmit(SellAll(), QUIET)]

  function Fresh(fee: nat): Desk { Opened(TwoHundred(), TheMarket(), Charging(fee), 1) }

  lemma FreshIsSound(fee: nat)
    ensures Sound(Fresh(fee)) && forall sym :: WithinBudget(Fresh(fee), sym)
  {
    hide Sound, WithinBudget;
    FactsAreValid();
    OpenedIsSound(TwoHundred(), TheMarket(), Charging(fee), 1);
  }

  lemma FactsAreValid()
    ensures ValidBooks(TwoHundred()) && ValidMarket(TheMarket())
  {
  }

  lemma SaleIsPriced(fee: nat)
    ensures FillPrice(Charging(fee), Listed(), Quoted(200, 1), SellAll()) == Priced(ONE)
  {
    assert HalfUp(ONE * UNITY, UNITY * TICK) == 100;
  }

  /** Half of the volume is 100 shares. */
  lemma SaleIsPlanned(fee: nat)
    ensures ValidMarket(TheMarket())
    ensures SubmissionReason(TheMarket(), Charging(fee), TwoHundred().positions, SellAll()) == None
    ensures PlanOf(TheMarket(), Charging(fee), TwoHundred(), map[], SellAll(), 0) == Take(100, ONE)
  {
    FactsAreValid();
    hide ValidMarket, FillPrice;
    SaleIsPriced(fee);
    assert Capacity(Charging(fee), 200, 0) == 100;
  }

  /** One hundred shares for 100.00 less the fee. */
  lemma SaleSettles(fee: nat, fill: Fill)
    requires fill.symbol == "S" && fill.side.Sell? && fill.shares == 100 && fill.price == ONE && fill.fees == fee
    ensures var r := Settle(TwoHundred(), fill, Some(ONE));
      && (fee == 0 ==> r.Settled? && Held(r.books.positions, "S").sellable == 100)
      && (fee == 2_000_000 ==> r.HalfSettled?)
  {
    hide MarketValue;
    assert CashFlow(fill) == 10_000_000_000 - QUANTUM * fee;
  }

  ghost function Admitted(fee: nat): Desk
  {
    FactsAreValid();
    Admit(Fresh(fee).(connected := true), SellAll(), 1, true)
  }

  lemma SaleIsAdmitted(fee: nat)
    ensures Keyed(Fresh(fee).(connected := true)) && Keyed(Admitted(fee))
    ensures Submit(Fresh(fee).(connected := true), SellAll(), QUIET).0
         == MatchQuoted(Admitted(fee), PaperOrderId("k"), QUIET).0
    ensures Submit(Fresh(fee).(connected := true), SellAll(), QUIET).1 == Err(EconomicsBroken)
        <==> MatchQuoted(Admitted(fee), PaperOrderId("k"), QUIET).1 == Err(EconomicsBroken)
    ensures var a := Admitted(fee);
      && a.market == TheMarket() && a.policy == Charging(fee) && a.books == TwoHundred()
      && a.tape == Tape([], map[], []) && !a.outbox.failed && PaperOrderId("k") in a.blotter.orders
      && a.blotter.orders[PaperOrderId("k")] == OrderFact(PaperOrderId("k"), SellAll(), Acknowledged, 0, 1, 2)
  {
    FactsAreValid();
    SaleIsPlanned(fee);
    hide ValidMarket, SubmissionReason, MatchQuoted;
    AdmitKeyed(Fresh(fee).(connected := true), SellAll(), 1, true);
  }

  lemma SaleTrades(fee: nat)
    requires fee == 0 || fee == 2_000_000
    ensures Keyed(Admitted(fee)) && PaperOrderId("k") in Admitted(fee).blotter.orders
    ensures var (after, r) := MatchQuoted(Admitted(fee), PaperOrderId("k"), QUIET);
      && (fee == 2_000_000 ==> r == Err(EconomicsBroken))
      && (fee == 0 ==>
            && r != Err(EconomicsBroken) && PaperOrderId("k") in after.blotter.orders
            && after.blotter.orders[PaperOrderId("k")].command == SellAll()
            && after.blotter.orders[PaperOrderId("k")].filled == 100
            && after.blotter.orders[PaperOrderId("k")].status.PartiallyFilled?
            && Held(after.books.positions, "S").sellable == 100
            && after.market == TheMarket() && after.policy == Charging(0)
            && ConsumedOf(after.tape.consumed, (1, "S")) == 100)
  {
    SaleIsAdmitted(fee);
    SaleIsPlanned(fee);
    var a := Admitted(fee);
    var id := PaperOrderId("k");
    OrderHasCount(a, id);
    hide Keyed, Admitted, PlanOf, Settle, Submit, Emit, Held, SubmissionReason, ValidMarket;
    var fill := TradedFill(a.blotter.orders[id], a.policy, a.blotter.matchCounts[id] + 1, 100, ONE, 1, a.sequence + 1);
    SaleSettles(fee, fill);
  }

  lemma PlaySale(fee: nat)
    ensures Sound(Fresh(fee)) && Keyed(Fresh(fee).(connected := true))
    ensures var r := Submit(Fresh(fee).(connected := true), SellAll(), QUIET);
      Play(Fresh(fee), SALE) == (r.0, r.1 == Err(EconomicsBroken))
  {
    hide Sound, Keyed, Submit, Fresh, Play;
    FreshIsSound(fee);
    SaleIsAdmitted(fee);
    PlayNothing(Fresh(fee));
    PlaySnoc(Fresh(fee), [], DoConnect(true));
    PlaySnoc(Fresh(fee), [] + [DoConnect(true)], DoSubmit(SellAll(), QUIET));
    assert SALE == [] + [DoConnect(true)] + [DoSubmit(SellAll(), QUIET)];
  }

  /** From a fresh desk into a sale whose fee exceeds what it brings in: it raises after the
      position has gone, and before the cash and the fill are recorded. */
  lemma SettlementBreaks()
    ensures Sound(Fresh(2_000_000)) && Play(Fresh(2_000_000), SALE).1
  {
    hide Sound, Submit, Keyed, Fresh;
    PlaySale(2_000_000);
    SaleIsAdmitted(2_000_000);
    SaleTrades(2_000_000);
  }

  /** From a fresh desk into a sale that is filled in part and, whatever is called later,
      never again. */
  lemma PartialSaleIsStuck(ops: seq<Op>)
    ensures Sound(Fresh(0))
    ensures var (s, id) := (Play(Fresh(0), SALE).0, PaperOrderId("k"));
      && id in s.blotter.orders && s.blotter.orders[id].status.PartiallyFilled?
      && s.blotter.orders[id].filled == 100
      && var after := Play(s, ops).0;
      id in after.blotter.orders && after.blotter.orders[id].filled == 100
  {
    hide Sound, Submit, Keyed, Fresh;
    PlaySale(0);
    SaleIsAdmitted(0);
    SaleTrades(0);
    OversizedSaleIsStuck(Play(Fresh(0), SALE).0, ops, PaperOrderId("k"));
  }

  /** From a fresh desk past the participation limit: a later quote of the same session
      that reports less volume is accepted. */
  lemma QuoteBreaksBudget()
    ensures Sound(Fresh(0)) && forall sym :: WithinBudget(Fresh(0), sym)
    ensures !WithinBudget(Play(Fresh(0), SALE + [DoQuote("S", Quoted(100, 2))]).0, "S")
  {
    hide Sound, Submit, Keyed, Fresh, Play, WithinBudget, Step;
    FreshIsSound(0);
    PlaySale(0);
    SaleIsAdmitted(0);
    SaleTrades(0);
    PlaySnoc(Fresh(0), SALE, DoQuote("S", Quoted(100, 2)));
    LessVolume(Play(Fresh(0), SALE).0);
  }

  lemma LessVolume(s: Desk)
    requires Sound(s) && s.market == TheMarket() && s.policy == Charging(0)
    requires ConsumedOf(s.tape.consumed, (1, "S")) == 100
    ensures !WithinBudget(Step(s, DoQuote("S", Quoted(100, 2))).0, "S")
  {
    hide Sound;
  }
}
