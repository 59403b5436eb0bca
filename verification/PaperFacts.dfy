/** Market, order and fill facts of the paper exchange.

    Prices are counted in units of 0.00000001 and money in units of 0.0001, the finest
    grains the source's Price and Money accept. Slippage and participation are counted
    in units of 0.00000001. */
module PaperFacts {
  import opened Wrappers
  import opened Ids
  import Orders

  type Price = Orders.Price
  type Symbol = string
  type Session = int

  const UNITY := 100_000_000

  datatype Side = Buy | Sell

  datatype MarketStatus = Open | Auction | Break | Closed | Halted | UnknownStatus

  datatype SecurityType = Equity | Fund | Index | UnknownType

  datatype SecurityStatus = Trading | Suspended | RiskWarning | Delisting | UnknownSecurity

  datatype Instrument = Instrument(
    securityType: SecurityType,
    status: SecurityStatus,
    tradingUnit: nat,
    priceTick: Price,
    pricePrecision: nat,
    lower: Option<Price>,
    upper: Option<Price>,
    session: Session)

  datatype Quote = Quote(
    last: Option<Price>,
    previousClose: Option<Price>,
    bid: Option<Price>,
    ask: Option<Price>,
    volume: nat,
    lower: Option<Price>,
    upper: Option<Price>,
    status: MarketStatus,
    sequence: nat,
    session: Session)

  datatype Position = Position(
    total: nat, sellable: nat, averageCost: Option<Price>, marketValue: nat)

  /** `limitPlaces` is the number of decimal places the limit price was written with. */
  datatype Command = Command(
    key: string,
    executionId: string,
    clientOrderId: string,
    symbol: Symbol,
    side: Side,
    requested: nat,
    limit: Price,
    limitPlaces: nat,
    strategySession: Session)

  datatype OrderStatus =
    | PendingNew | Acknowledged | PartiallyFilled | Filled | PendingCancel
    | Cancelled | Rejected | Expired | UnknownOrder

  predicate IsClosed(s: OrderStatus) {
    s.Filled? || s.Cancelled? || s.Rejected? || s.Expired?
  }

  datatype OrderFact = OrderFact(
    orderId: Id,
    command: Command,
    status: OrderStatus,
    filled: nat,
    session: Session,
    sequence: nat)

  datatype Fill = Fill(
    fillId: Id,
    orderId: Id,
    symbol: Symbol,
    side: Side,
    shares: nat,
    price: Price,
    fees: nat,
    session: Session,
    sequence: nat)

  /** What the broker tells its callback sink. */
  datatype Event = OrderEvent(order: OrderFact) | FillEvent(fill: Fill)

  predicate ValidInstrument(i: Instrument) {
    && i.tradingUnit > 0
    && i.pricePrecision <= 8
    && (i.lower.Some? && i.upper.Some? ==> i.lower.value < i.upper.value)
  }

  predicate ValidPosition(p: Position) {
    p.sellable <= p.total && (p.total > 0 ==> p.averageCost.Some?)
  }

  /** Fee totals are amounts of money, for any schedule. */
  datatype Policy = Policy(
    participation: nat,
    slippage: nat,
    allowAuction: bool,
    fees: (Side, Price, nat) -> nat)
}
