/** What the paper exchange admits, at what price it fills, and how many shares. */
module PaperRules {
  import opened Wrappers
  import opened Rounding
  import opened PaperFacts

  datatype Reason =
    | InstrumentFactMissing | QuoteFactMissing | MarketNotOpen | MarketStatusMismatch
    | SecurityTypeNotEquity | InstrumentNotTrading | PriceLimitFactMissing
    | PriceLimitFactMismatch | MarketFactSessionMismatch | LimitPriceOutOfBounds
    | LimitPricePrecisionInvalid | LimitPriceTickInvalid | TradingUnitInvalid
    | PositionInsufficient | SellableExceeded
    | UpperLimitBuyBlocked | LowerLimitSellBlocked | AskLiquidityMissing | BidLiquidityMissing
    | OrderNotMarketable | SlippageExceedsLimit | FillPriceOutOfBounds
    | CashInsufficient | VolumeCapacityExhausted
    | AcknowledgedReason | FilledReason | PartialFillReason | CancelledBySystem

  datatype Market = Market(
    instruments: map<Symbol, Instrument>, quotes: map<Symbol, Quote>, status: MarketStatus)

  predicate Allowed(policy: Policy, s: MarketStatus) {
    s.Open? || (s.Auction? && policy.allowAuction)
  }

  predicate FullOddLot(positions: map<Symbol, Position>, c: Command) {
    c.side.Sell? && c.symbol in positions && c.requested == positions[c.symbol].total
  }

  /** Why the market would refuse the command right now, if it would. */
  function SubmissionReason(
    m: Market, policy: Policy, positions: map<Symbol, Position>, c: Command
  ): Option<Reason>
    requires c.symbol in m.instruments ==> ValidInstrument(m.instruments[c.symbol])
  {
    if c.symbol !in m.instruments then Some(InstrumentFactMissing)
    else if c.symbol !in m.quotes then Some(QuoteFactMissing)
    else MarketReason(m.instruments[c.symbol], m.quotes[c.symbol], m.status, policy, positions, c)
  }

  function MarketReason(
    i: Instrument, q: Quote, status: MarketStatus, policy: Policy,
    positions: map<Symbol, Position>, c: Command
  ): Option<Reason>
    requires ValidInstrument(i)
  {
    if !Allowed(policy, status) || !Allowed(policy, q.status) then Some(MarketNotOpen)
    else if status != q.status then Some(MarketStatusMismatch)
    else if !i.securityType.Equity? then Some(SecurityTypeNotEquity)
    else if !i.status.Trading? then Some(InstrumentNotTrading)
    else if i.lower.None? || i.upper.None? || q.lower.None? || q.upper.None? then
      Some(PriceLimitFactMissing)
    else if i.lower != q.lower || i.upper != q.upper then Some(PriceLimitFactMismatch)
    else if i.session != q.session then Some(MarketFactSessionMismatch)
    else if !(i.lower.value <= c.limit <= i.upper.value) then Some(LimitPriceOutOfBounds)
    else if c.limitPlaces > i.pricePrecision then Some(LimitPricePrecisionInvalid)
    else if c.limit % i.priceTick != 0 then Some(LimitPriceTickInvalid)
    else QuantityReason(i.tradingUnit, positions, c)
  }

  function QuantityReason(unit: nat, positions: map<Symbol, Position>, c: Command): Option<Reason>
    requires unit > 0
  {
    if c.requested % unit != 0 && !FullOddLot(positions, c) then Some(TradingUnitInvalid)
    else if c.side.Buy? then None
    else if c.symbol !in positions || c.requested > positions[c.symbol].total then
      Some(PositionInsufficient)
    else if c.requested > positions[c.symbol].sellable then Some(SellableExceeded)
    else None
  }

  /** A match checks the whole request again, not what is left of it: after a part of a
      sale was filled its quantity is admitted again exactly when the position could sell
      the request on top of what was already sold. */
  lemma PartialSaleResumes(unit: nat, positions: map<Symbol, Position>, c: Command, sold: nat)
    requires unit > 0 && c.side.Sell? && QuantityReason(unit, positions, c).None?
    requires 0 < sold < c.requested && ValidPosition(positions[c.symbol])
    ensures var p := positions[c.symbol];
      var after := positions[c.symbol := p.(total := p.total - sold, sellable := p.sellable - sold)];
      QuantityReason(unit, after, c).None? <==> c.requested + sold <= p.sellable
  {
    var p := positions[c.symbol];
    assert c.requested <= p.sellable <= p.total;
  }

  // ----------------------------------------------------------------------- price

  datatype Pricing = Priced(price: Price) | Blocked(reason: Reason) | NotAPrice

  /** The price of a marketable order: the touch, moved by the slippage, to the nearest
      tick; never worse than the limit and never outside the daily band. */
  function FillPrice(policy: Policy, i: Instrument, q: Quote, c: Command): Pricing {
    if c.side.Buy? then
      if q.upper.Some? && (q.last == q.upper || q.ask == q.upper) then Blocked(UpperLimitBuyBlocked)
      else if q.ask.None? then Blocked(AskLiquidityMissing)
      else if c.limit < q.ask.value then Blocked(OrderNotMarketable)
      else Slipped(i, c, q.ask.value * (UNITY + policy.slippage))
    else
      if q.lower.Some? && (q.last == q.lower || q.bid == q.lower) then Blocked(LowerLimitSellBlocked)
      else if q.bid.None? then Blocked(BidLiquidityMissing)
      else if c.limit > q.bid.value then Blocked(OrderNotMarketable)
      else Slipped(i, c, q.bid.value * (UNITY - policy.slippage))
  }

  /** `raw` is a price in units of 0.00000001 of a price unit. */
  function Slipped(i: Instrument, c: Command, raw: int): Pricing {
    if raw <= 0 then NotAPrice
    else
      var price := HalfUp(raw, UNITY * i.priceTick) * i.priceTick;
      if price <= 0 then NotAPrice
      else if c.side.Buy? && price > c.limit then Blocked(SlippageExceedsLimit)
      else if c.side.Sell? && price < c.limit then Blocked(SlippageExceedsLimit)
      else if i.lower.None? || i.upper.None? || !(i.lower.value <= price <= i.upper.value) then
        Blocked(FillPriceOutOfBounds)
      else Priced(price)
  }

  /** The exact price a fill aims at, before it is rounded to a tick. */
  function Aim(policy: Policy, q: Quote, c: Command): Option<int> {
    if c.side.Buy? then (if q.ask.Some? then Some(q.ask.value * (UNITY + policy.slippage)) else None)
    else (if q.bid.Some? then Some(q.bid.value * (UNITY - policy.slippage)) else None)
  }

  /** On a tick, inside the daily band, no worse than the limit, and within half a tick of
      the slipped touch. */
  predicate Fair(policy: Policy, i: Instrument, q: Quote, c: Command, price: Price) {
    && price % i.priceTick == 0
    && i.lower.Some? && i.upper.Some? && i.lower.value <= price <= i.upper.value
    && (if c.side.Buy? then price <= c.limit else price >= c.limit)
    && Aim(policy, q, c).Some?
    && -(UNITY * i.priceTick) < 2 * (UNITY * price - Aim(policy, q, c).value) <= UNITY * i.priceTick
  }

  lemma FillPriceIsFair(policy: Policy, i: Instrument, q: Quote, c: Command)
    requires FillPrice(policy, i, q, c).Priced?
    ensures Fair(policy, i, q, c, FillPrice(policy, i, q, c).price)
  {
    hide HalfUp;
    NearestTick(Aim(policy, q, c).value, i.priceTick);
  }

  lemma NearestTick(raw: nat, tick: Price)
    ensures var price := HalfUp(raw, UNITY * tick) * tick;
      && price % tick == 0
      && -(UNITY * tick) < 2 * (UNITY * price - raw) <= UNITY * tick
  {
    var ticks := HalfUp(raw, UNITY * tick);
    OnTick(ticks, tick);
    assert UNITY * tick * ticks == UNITY * (ticks * tick);
  }

  lemma OnTick(ticks: nat, tick: Price)
    ensures (ticks * tick) % tick == 0
  {
    DivModUnique(ticks * tick, tick, ticks, 0);
  }

  // -------------------------------------------------------------------- quantity

  predicate Affords(policy: Policy, cash: nat, price: Price, shares: nat) {
    price * shares + QUANTUM * policy.fees(Buy, price, shares) <= QUANTUM * cash
  }

  /** The largest affordable whole number of lots up to `limit`; fees may be any
      function of the shares, and need not grow with them. */
  function MostAffordable(policy: Policy, cash: nat, price: Price, unit: nat, limit: nat): (r: nat)
    requires unit > 0
    ensures r <= limit && r % unit == 0
    ensures r > 0 ==> Affords(policy, cash, price, r)
    ensures forall n :: r < n <= limit && n % unit == 0 ==> !Affords(policy, cash, price, n)
  {
    if limit == 0 then 0
    else if limit % unit == 0 && Affords(policy, cash, price, limit) then limit
    else MostAffordable(policy, cash, price, unit, limit - 1)
  }

  /** Between one whole number of lots and the next there is no other. */
  lemma WholeLots(n: nat, unit: nat)
    requires unit > 0
    ensures (n - n % unit) % unit == 0
    ensures forall k :: n - n % unit < k <= n ==> k % unit != 0
  {
    var lots := n - n % unit;
    assert n == unit * (n / unit) + n % unit;
    DivModUnique(lots, unit, n / unit, 0);
    forall k | lots < k <= n ensures k % unit != 0 {
      DivModUnique(k, unit, n / unit, k - lots);
    }
  }

  lemma CashBound(policy: Policy, cash: nat, price: Price, n: nat)
    requires n > QUANTUM * cash / price
    ensures !Affords(policy, cash, price, n)
  {
    var most := QUANTUM * cash / price;
    assert QUANTUM * cash < price * (most + 1);
    assert price * n >= price * (most + 1);
  }

  lemma NextLot(n: nat, unit: nat)
    requires 0 < unit && 0 < n && n % unit == 0
    ensures n >= unit && (n - unit) % unit == 0
    ensures forall k :: n - unit < k < n ==> k % unit != 0
  {
    var q := n / unit;
    assert n == unit * q;
    AtLeastOnce(unit, q);
    assert n - unit == unit * (q - 1);
    DivModUnique(n - unit, unit, q - 1, 0);
    DivModUnique(n - 1, unit, q - 1, unit - 1);
    WholeLots(n - 1, unit);
  }

  predicate NoneAffordable(policy: Policy, cash: nat, price: Price, unit: nat, above: nat, limit: nat)
    requires unit > 0
  {
    forall n :: above < n <= limit && n % unit == 0 ==> !Affords(policy, cash, price, n)
  }

  lemma MostAffordableIs(policy: Policy, cash: nat, price: Price, unit: nat, r: nat, limit: nat)
    requires unit > 0 && r <= limit && r % unit == 0
    requires r == 0 || Affords(policy, cash, price, r)
    requires NoneAffordable(policy, cash, price, unit, r, limit)
    ensures MostAffordable(policy, cash, price, unit, limit) == r
  {
    var most := MostAffordable(policy, cash, price, unit, limit);
    hide Affords;
  }

  /** Where the search starts: the whole lots that cash would buy without fees. */
  function WithoutFees(cash: nat, price: Price, unit: nat, candidate: nat): nat
    requires unit > 0
  {
    var most := QUANTUM * cash / price;
    var maximum := if candidate <= most then candidate else most;
    maximum - maximum % unit
  }

  lemma CashBoundsAll(policy: Policy, cash: nat, price: Price, unit: nat, candidate: nat)
    requires unit > 0
    ensures var maximum := WithoutFees(cash, price, unit, candidate);
      && maximum <= candidate && maximum % unit == 0
      && NoneAffordable(policy, cash, price, unit, maximum, candidate)
  {
    hide Affords;
    var most := QUANTUM * cash / price;
    var maximum := if candidate <= most then candidate else most;
    WholeLots(maximum, unit);
    forall n: nat | n > most ensures !Affords(policy, cash, price, n) {
      CashBound(policy, cash, price, n);
    }
  }

  /** The source's loop: down from what cash alone would buy, one lot at a time. */
  method AffordableBuyShares(
    policy: Policy, cash: nat, price: Price, candidate: nat, unit: nat
  ) returns (shares: nat)
    requires unit > 0
    ensures shares == MostAffordable(policy, cash, price, unit, candidate)
  {
    hide MostAffordable, NoneAffordable, WithoutFees, Affords;
    var maximum: nat := WithoutFees(cash, price, unit, candidate);
    CashBoundsAll(policy, cash, price, unit, candidate);
    while maximum > 0
      invariant maximum <= candidate && maximum % unit == 0
      invariant NoneAffordable(policy, cash, price, unit, maximum, candidate)
    {
      if Affords(policy, cash, price, maximum) {
        MostAffordableIs(policy, cash, price, unit, maximum, candidate);
        return maximum;
      }
      OneLotLess(policy, cash, price, unit, maximum, candidate);
      maximum := maximum - unit;
    }
    ZeroLots(unit);
    MostAffordableIs(policy, cash, price, unit, 0, candidate);
    return 0;
  }

  lemma ZeroLots(unit: nat)
    requires unit > 0
    ensures 0 % unit == 0
  {
  }

  lemma OneLotLess(policy: Policy, cash: nat, price: Price, unit: nat, n: nat, limit: nat)
    requires 0 < unit && 0 < n <= limit && n % unit == 0
    requires NoneAffordable(policy, cash, price, unit, n, limit) && !Affords(policy, cash, price, n)
    ensures n >= unit && (n - unit) % unit == 0
    ensures NoneAffordable(policy, cash, price, unit, n - unit, limit)
  {
    hide Affords;
    NextLot(n, unit);
  }

  // ------------------------------------------------------------- size of one fill

  /** Shares of the session's volume the account may still take. */
  function Capacity(policy: Policy, volume: nat, consumed: nat): nat {
    var maximum := volume * policy.participation / UNITY;
    if maximum > consumed then maximum - consumed else 0
  }

  function Candidate(
    positions: map<Symbol, Position>, c: Command, capacity: nat, remaining: nat
  ): nat {
    var candidate := if remaining <= capacity then remaining else capacity;
    if c.side.Buy? then candidate
    else
      var sellable := if c.symbol in positions then positions[c.symbol].sellable else 0;
      if candidate <= sellable then candidate else sellable
  }

  function RoundFillQuantity(
    positions: map<Symbol, Position>, c: Command, unit: nat, candidate: nat
  ): nat
    requires unit > 0
  {
    if candidate == 0 then 0
    else if FullOddLot(positions, c) && candidate >= positions[c.symbol].total then
      positions[c.symbol].total
    else candidate - candidate % unit
  }

  /** The shares of the next fill; zero when there is none. */
  function FillQuantity(
    policy: Policy, positions: map<Symbol, Position>, cash: nat, c: Command, unit: nat,
    volume: nat, consumed: nat, remaining: nat, price: Price
  ): nat
    requires unit > 0
  {
    var candidate := Candidate(positions, c, Capacity(policy, volume, consumed), remaining);
    var quantity := RoundFillQuantity(positions, c, unit, candidate);
    if c.side.Buy? then MostAffordable(policy, cash, price, unit, quantity) else quantity
  }

  /** Everything a fill of `shares` must respect at once. */
  predicate Fits(
    policy: Policy, positions: map<Symbol, Position>, cash: nat, c: Command, unit: nat,
    volume: nat, consumed: nat, remaining: nat, price: Price, shares: nat
  )
    requires unit > 0
  {
    && shares <= remaining
    && UNITY * (consumed + shares) <= volume * policy.participation
    && (shares % unit == 0 || (FullOddLot(positions, c) && shares == c.requested))
    && (c.side.Sell? ==> c.symbol in positions && shares <= positions[c.symbol].sellable)
    && (c.side.Buy? ==> Affords(policy, cash, price, shares))
  }

  lemma CapacityIs(policy: Policy, volume: nat, consumed: nat, shares: nat)
    ensures shares > 0 ==>
      (shares <= Capacity(policy, volume, consumed)
       <==> UNITY * (consumed + shares) <= volume * policy.participation)
  {
  }

  /** The fill is the largest that fits: within the order, the volume budget, T+1, whole
      lots and, for any fee function, the cash. */
  lemma FillQuantityIsLargest(
    policy: Policy, positions: map<Symbol, Position>, cash: nat, c: Command, unit: nat,
    volume: nat, consumed: nat, remaining: nat, price: Price
  )
    requires unit > 0
    requires c.symbol in positions ==> ValidPosition(positions[c.symbol])
    ensures var q := FillQuantity(policy, positions, cash, c, unit, volume, consumed, remaining, price);
      && (q > 0 ==> Fits(policy, positions, cash, c, unit, volume, consumed, remaining, price, q))
      && forall n :: n > q ==>
           !Fits(policy, positions, cash, c, unit, volume, consumed, remaining, price, n)
  {
    var q := FillQuantity(policy, positions, cash, c, unit, volume, consumed, remaining, price);
    var capacity := Capacity(policy, volume, consumed);
    var candidate := Candidate(positions, c, capacity, remaining);
    WholeLots(candidate, unit);
    CapacityIs(policy, volume, consumed, q);
    forall n: nat | n > q
      ensures !Fits(policy, positions, cash, c, unit, volume, consumed, remaining, price, n)
    {
      CapacityIs(policy, volume, consumed, n);
      hide Capacity, Affords;
      if n <= candidate && n % unit == 0 && c.side.Buy? {
        assert n <= candidate - candidate % unit;
      }
    }
  }
}
