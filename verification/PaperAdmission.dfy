/** What the paper exchange admits and what it trades, said without its refusal rules:
    an order's terms against the facts, and the one fill a match then makes. */
module PaperAdmission {
  import opened Wrappers
  import opened Ids
  import opened Rounding
  import opened PaperFacts
  import opened PaperBooks
  import opened PaperRules
  import opened PaperDesk
  import opened PaperInvariant
  import opened PaperRuns
  import opened PaperTheorems

  // ------------------------------------------------------------------------ admission

  /** The exchange trades, by its own status and by the quote's, which say the same. */
  predicate InSession(policy: Policy, status: MarketStatus, q: Quote) {
    && status == q.status
    && (q.status == MarketStatus.Open || (policy.allowAuction && q.status == MarketStatus.Auction))
  }

  /** Both facts give the same daily band, for the same session. */
  predicate BandAgreed(i: Instrument, q: Quote) {
    && i.lower.Some? && i.upper.Some? && q.lower == i.lower && q.upper == i.upper
    && q.session == i.session
  }

  predicate LimitAllowed(i: Instrument, c: Command) {
    && i.lower.Some? && i.upper.Some?
    && i.lower.value <= c.limit && c.limit <= i.upper.value
    && c.limitPlaces <= i.pricePrecision
    && c.limit % i.priceTick == 0
  }

  /** Whole lots, or a sale of everything held; and sales only of what may be sold. */
  predicate SizeAllowed(i: Instrument, positions: map<Symbol, Position>, c: Command) {
    match c.side
    case Buy => i.tradingUnit > 0 && c.requested % i.tradingUnit == 0
    case Sell =>
      && c.symbol in positions
      && var p := positions[c.symbol];
      && i.tradingUnit > 0 && (c.requested % i.tradingUnit == 0 || c.requested == p.total)
      && c.requested <= p.total && c.requested <= p.sellable
  }

  predicate Tradable(m: Market, policy: Policy, positions: map<Symbol, Position>, c: Command) {
    && c.symbol in m.instruments && c.symbol in m.quotes
    && var i := m.instruments[c.symbol];
    && var q := m.quotes[c.symbol];
    && InSession(policy, m.status, q)
    && i.securityType == SecurityType.Equity && i.status == SecurityStatus.Trading
    && BandAgreed(i, q) && LimitAllowed(i, c) && SizeAllowed(i, positions, c)
  }

  lemma RefusedExactly(m: Market, policy: Policy, positions: map<Symbol, Position>, c: Command)
    requires ValidMarket(m)
    ensures SubmissionReason(m, policy, positions, c).None? <==> Tradable(m, policy, positions, c)
  {
  }

  predicate OffBand(i: Instrument, limit: Price) {
    i.lower.Some? && i.upper.Some? && (limit < i.lower.value || i.upper.value < limit)
  }

  /** What a refusal for this reason says of the facts. */
  predicate SaysOfFacts(
    reason: Reason, i: Instrument, q: Quote, status: MarketStatus, policy: Policy,
    positions: map<Symbol, Position>, c: Command
  ) {
    match reason
    case MarketNotOpen => !InSession(policy, status, q.(status := status)) || !InSession(policy, q.status, q)
    case MarketStatusMismatch => status != q.status
    case SecurityTypeNotEquity => i.securityType != SecurityType.Equity
    case InstrumentNotTrading => i.status != SecurityStatus.Trading
    case PriceLimitFactMissing => None in [i.lower, i.upper, q.lower, q.upper]
    case PriceLimitFactMismatch => i.lower != q.lower || i.upper != q.upper
    case MarketFactSessionMismatch => i.session != q.session
    case LimitPriceOutOfBounds => OffBand(i, c.limit)
    case LimitPricePrecisionInvalid => i.pricePrecision < c.limitPlaces
    case LimitPriceTickInvalid => c.limit % i.priceTick != 0
    case TradingUnitInvalid =>
      i.tradingUnit > 0 && c.requested % i.tradingUnit != 0
      && !(c.side == Sell && c.symbol in positions && c.requested == positions[c.symbol].total)
    case PositionInsufficient =>
      c.side == Sell && (c.symbol !in positions || positions[c.symbol].total < c.requested)
    case SellableExceeded =>
      c.side == Sell && c.symbol in positions && positions[c.symbol].sellable < c.requested
    case _ => false
  }

  predicate Says(reason: Reason, m: Market, policy: Policy, positions: map<Symbol, Position>, c: Command) {
    if reason.InstrumentFactMissing? then c.symbol !in m.instruments
    else if reason.QuoteFactMissing? then c.symbol !in m.quotes
    else
      c.symbol in m.instruments && c.symbol in m.quotes
      && SaysOfFacts(reason, m.instruments[c.symbol], m.quotes[c.symbol], m.status, policy, positions, c)
  }

  /** A refusal gives a reason that is true. */
  lemma RefusalIsTrue(m: Market, policy: Policy, positions: map<Symbol, Position>, c: Command)
    requires ValidMarket(m) && SubmissionReason(m, policy, positions, c).Some?
    ensures Says(SubmissionReason(m, policy, positions, c).value, m, policy, positions, c)
  {
  }

  // ------------------------------------------------------------------------- one match

  /** The other side of the book is there, at the limit or better, and the price is not
      locked at the end of the band the order would push it to. */
  predicate Crosses(q: Quote, c: Command) {
    match c.side
    case Buy =>
      && q.ask.Some? && q.ask.value <= c.limit
      && !(q.upper.Some? && (q.last == q.upper || q.ask == q.upper))
    case Sell =>
      && q.bid.Some? && c.limit <= q.bid.value
      && !(q.lower.Some? && (q.last == q.lower || q.bid == q.lower))
  }

  lemma Multiple(tick: Price, p: int)
    requires p % tick == 0
    ensures p == tick * (p / tick)
  {
  }

  lemma NearestIsZero(tick: int, a: int, b: int)
    requires 0 < tick && -tick < tick * a - tick * b < tick
    ensures a == b
  {
    AtLeastOnce(tick, a - b);
    assert tick * (a - b) == tick * a - tick * b;
  }

  lemma BothNear(tick: int, aim: int, p: int, r: int)
    requires -(UNITY * tick) < 2 * (UNITY * p - aim) <= UNITY * tick
    requires -(UNITY * tick) < 2 * (UNITY * r - aim) <= UNITY * tick
    ensures -tick < p - r < tick
  {
  }

  lemma OnlyOneTick(tick: Price, aim: int, p: int, r: int)
    requires p % tick == 0 && r % tick == 0
    requires -(UNITY * tick) < 2 * (UNITY * p - aim) <= UNITY * tick
    requires -(UNITY * tick) < 2 * (UNITY * r - aim) <= UNITY * tick
    ensures p == r
  {
    BothNear(tick, aim, p, r);
    Multiple(tick, p);
    Multiple(tick, r);
    NearestIsZero(tick, p / tick, r / tick);
  }

  /** The price a match would fill at is the only fair one, where the order crosses. */
  lemma PricedExactly(policy: Policy, i: Instrument, q: Quote, c: Command, price: Price)
    ensures FillPrice(policy, i, q, c) == Priced(price) <==> Crosses(q, c) && Fair(policy, i, q, c, price)
  {
    if FillPrice(policy, i, q, c).Priced? {
      FillPriceIsFair(policy, i, q, c);
      if Fair(policy, i, q, c, price) {
        hide FillPrice;
        OnlyOneTick(i.priceTick, Aim(policy, q, c).value, price, FillPrice(policy, i, q, c).price);
      }
    } else if Crosses(q, c) && Fair(policy, i, q, c, price) {
      AimIsPositive(policy, i, q, c, price);
      var raw: nat := Aim(policy, q, c).value;
      NearestTick(raw, i.priceTick);
      OnlyOneTick(i.priceTick, raw, price, HalfUp(raw, UNITY * i.priceTick) * i.priceTick);
    }
  }

  lemma AimIsPositive(policy: Policy, i: Instrument, q: Quote, c: Command, price: Price)
    requires Fair(policy, i, q, c, price)
    ensures Aim(policy, q, c).value > 0
  {
    var lots := price / i.priceTick;
    assert price == i.priceTick * lots;
    AtLeastOnce(i.priceTick, lots);
    hide Aim;
    assert price >= i.priceTick;
  }

  ghost predicate NothingLarger(
    policy: Policy, positions: map<Symbol, Position>, cash: nat, c: Command, unit: nat,
    volume: nat, consumed: nat, remaining: nat, price: Price, shares: nat
  )
    requires unit > 0
  {
    forall n :: n > shares ==> !Fits(policy, positions, cash, c, unit, volume, consumed, remaining, price, n)
  }

  /** The fill due: the order is tradable and crosses, at the fair price, for the largest
      number of shares that fits. */
  ghost predicate Due(
    m: Market, policy: Policy, b: Books, consumed: map<VolumeKey, nat>, c: Command, filled: nat,
    shares: nat, price: Price
  ) {
    && filled <= c.requested && Tradable(m, policy, b.positions, c)
    && var i := m.instruments[c.symbol];
    && var q := m.quotes[c.symbol];
    && i.tradingUnit > 0
    && Crosses(q, c) && Fair(policy, i, q, c, price)
    && shares > 0
    && var taken := ConsumedOf(consumed, (q.session, c.symbol));
    && Fits(policy, b.positions, b.cash, c, i.tradingUnit, q.volume, taken, c.requested - filled, price, shares)
    && NothingLarger(policy, b.positions, b.cash, c, i.tradingUnit, q.volume, taken, c.requested - filled, price,
                     shares)
  }

  lemma PlannedExactly(
    m: Market, policy: Policy, b: Books, consumed: map<VolumeKey, nat>, c: Command, filled: nat,
    shares: nat, price: Price
  )
    requires ValidMarket(m) && ValidBooks(b) && filled <= c.requested
    ensures PlanOf(m, policy, b, consumed, c, filled) == Take(shares, price)
       <==> Due(m, policy, b, consumed, c, filled, shares, price)
  {
    hide FillQuantity, Fits, FillPrice, Fair, SubmissionReason, Tradable, Crosses;
    RefusedExactly(m, policy, b.positions, c);
    if SubmissionReason(m, policy, b.positions, c).None? {
      TradableFacts(m, policy, b.positions, c);
      var i, q := m.instruments[c.symbol], m.quotes[c.symbol];
      PricedExactly(policy, i, q, c, price);
      var taken := ConsumedOf(consumed, (q.session, c.symbol));
      FillQuantityIsLargest(policy, b.positions, b.cash, c, i.tradingUnit, q.volume, taken,
        c.requested - filled, price);
      var best := FillQuantity(policy, b.positions, b.cash, c, i.tradingUnit, q.volume, taken,
        c.requested - filled, price);
      assert shares > 0 && best > 0 && shares != best ==> shares < best || best < shares;
    }
  }

  lemma TradableFacts(m: Market, policy: Policy, positions: map<Symbol, Position>, c: Command)
    requires ValidMarket(m) && Tradable(m, policy, positions, c)
    ensures c.symbol in m.instruments && c.symbol in m.quotes && m.instruments[c.symbol].tradingUnit > 0
  {
  }

  // ------------------------------------------------------------------ why nothing is due

  /** So many shares are left of the order and of the session's volume. */
  predicate WithinVolume(policy: Policy, volume: nat, taken: nat, remaining: nat, shares: nat) {
    shares <= remaining && UNITY * (taken + shares) <= volume * policy.participation
  }

  /** What this reason says of an order that is tradable and not filled now. */
  ghost predicate SaysOfWaiting(
    reason: Reason, policy: Policy, i: Instrument, q: Quote, c: Command, taken: nat, remaining: nat
  ) {
    match reason
    case UpperLimitBuyBlocked => c.side == Buy && q.upper.Some? && q.upper in [q.last, q.ask]
    case LowerLimitSellBlocked => c.side == Sell && q.lower.Some? && q.lower in [q.last, q.bid]
    case AskLiquidityMissing => c.side == Buy && q.ask == None
    case BidLiquidityMissing => c.side == Sell && q.bid == None
    case OrderNotMarketable =>
      if c.side == Buy then q.ask.Some? && c.limit < q.ask.value else q.bid.Some? && q.bid.value < c.limit
    case SlippageExceedsLimit => Crosses(q, c) && forall p: Price :: !Fair(policy, i, q, c, p)
    case FillPriceOutOfBounds => Crosses(q, c) && forall p: Price :: !Fair(policy, i, q, c, p)
    case CashInsufficient => c.side == Buy && WithinVolume(policy, q.volume, taken, remaining, 1)
    case VolumeCapacityExhausted => c.side == Buy ==> !WithinVolume(policy, q.volume, taken, remaining, 1)
    case _ => false
  }

  /** The reason a match gives for not filling a tradable order is true, but for what it calls
      insufficient cash: that is said of every purchase the volume leaves a share for. */
  lemma WaitingIsTrue(
    m: Market, policy: Policy, b: Books, consumed: map<VolumeKey, nat>, c: Command, filled: nat
  )
    requires ValidMarket(m) && filled <= c.requested && Tradable(m, policy, b.positions, c)
    requires PlanOf(m, policy, b, consumed, c, filled).Wait?
    ensures c.symbol in m.instruments && c.symbol in m.quotes
    ensures var q := m.quotes[c.symbol];
      SaysOfWaiting(PlanOf(m, policy, b, consumed, c, filled).reason, policy, m.instruments[c.symbol], q, c,
                    ConsumedOf(consumed, (q.session, c.symbol)), c.requested - filled)
  {
    hide SubmissionReason, Tradable, FillQuantity, Fair;
    RefusedExactly(m, policy, b.positions, c);
    TradableFacts(m, policy, b.positions, c);
    var i, q := m.instruments[c.symbol], m.quotes[c.symbol];
    var taken := ConsumedOf(consumed, (q.session, c.symbol));
    CapacityIs(policy, q.volume, taken, 1);
    forall p: Price ensures FillPrice(policy, i, q, c) == Priced(p) <==> Crosses(q, c) && Fair(policy, i, q, c, p) {
      PricedExactly(policy, i, q, c, p);
    }
    hide Slipped, Capacity;
  }

  /** A purchase that cash could pay for many times over, told that cash is insufficient:
      the volume leaves less than a lot. */
  lemma CashIsBlamedForVolume(fees: (Side, Price, nat) -> nat)
    ensures var i := Instrument(Equity, Trading, 100, 1_000_000, 2, Some(90_000_000), Some(110_000_000), 1);
      var q := Quote(Some(100_000_000), Some(100_000_000), Some(100_000_000), Some(100_000_000), 50,
                     Some(90_000_000), Some(110_000_000), MarketStatus.Open, 1, 1);
      var c := Command("k", "e", "o", "S", Buy, 100, 100_000_000, 0, 1);
      var market := Market(map["S" := i], map["S" := q], MarketStatus.Open);
      && ValidMarket(market)
      && PlanOf(market, Policy(UNITY, 0, false, fees), Books(1_000_000_000, 1_000_000_000, map[]), map[], c, 0)
         == Wait(CashInsufficient)
      && forall n: nat :: n > 0 && n % 100 == 0 ==> !WithinVolume(Policy(UNITY, 0, false, fees), 50, 0, 100, n)
  {
  }
}
