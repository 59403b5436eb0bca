/** Per-session execution observations and what their constructors check. */
module EvidenceFacts {
  import opened Wrappers
  import opened DecimalText

  datatype Stage = Shadow | Canary

  datatype Side = Buy | Sell

  datatype BlockerCode =
    | TargetAlreadySatisfied | NonTradable | PriceLimit | VolumeLimit | StaleQuote
    | InsufficientCash | IncompleteSell | UnknownBlocker | ExternalActivityBlocker

  datatype Identity = Identity(
    stage: Stage, session: int, firmquantCommit: string, uquantCommit: string, config: string,
    account: string, data: string, calendar: string)

  datatype PlanningBlocker = PlanningBlocker(orderId: string, symbol: string, reason: string)

  datatype Order = Order(
    executionId: string, orderId: string, symbol: string, side: Side, planned: nat, filled: nat,
    reference: Decimal, blocker: Option<BlockerCode>)

  datatype Target = Target(symbol: string, shares: nat, weight: Decimal, reference: Decimal)

  datatype Fill = Fill(
    fillId: Option<string>, executionId: string, symbol: string, side: Side, shares: nat,
    price: Decimal, commission: Decimal, stampDuty: Decimal, transferFee: Decimal, slippage: Decimal)

  datatype Position = Position(symbol: string, shares: nat)

  datatype Counts = Counts(
    submits: nat, cancels: nat, rejections: nat, unknowns: nat, external: nat,
    duplicateOrders: nat, duplicateFills: nat, dataFailures: nat)

  datatype Observation = Observation(
    identity: Identity, decisionId: string, planId: string, equity: Decimal,
    orders: seq<Order>, blockers: seq<PlanningBlocker>, targets: seq<Target>, fills: seq<Fill>,
    actual: seq<Position>, hypothetical: seq<Position>, counts: Counts, created: string)

  predicate Blank(c: char) { c == ' ' || '\t' <= c <= '\r' }

  /** Not empty, and nothing to strip. */
  predicate Trimmed(s: string) { s != "" && !Blank(s[0]) && !Blank(s[|s| - 1]) }

  predicate Printable(s: string) {
    forall i :: 0 <= i < |s| ==> 32 <= s[i] as int != 127
  }

  predicate CanonicalText(s: string) { Trimmed(s) && Printable(s) }

  predicate Hex(s: string, n: nat) {
    |s| == n && forall i :: 0 <= i < |s| ==> '0' <= s[i] <= '9' || 'a' <= s[i] <= 'f'
  }

  predicate ValidIdentity(i: Identity) {
    && Hex(i.firmquantCommit, 40) && Hex(i.uquantCommit, 40)
    && Hex(i.config, 64) && Hex(i.account, 64) && Hex(i.data, 64) && Hex(i.calendar, 64)
  }

  predicate ValidBlocker(b: PlanningBlocker) {
    CanonicalText(b.orderId) && CanonicalText(b.symbol) && CanonicalText(b.reason)
  }

  predicate ValidOrder(o: Order) {
    && CanonicalText(o.executionId) && CanonicalText(o.orderId) && CanonicalText(o.symbol)
    && 0 < o.planned && o.filled <= o.planned
    && Value(o.reference) > 0.0
  }

  predicate ValidTarget(t: Target) {
    && CanonicalText(t.symbol)
    && 0.0 <= Value(t.weight) <= 1.0
    && Value(t.reference) > 0.0
  }

  predicate ValidFill(f: Fill) {
    && (f.fillId.Some? ==> CanonicalText(f.fillId.value))
    && CanonicalText(f.executionId) && CanonicalText(f.symbol)
    && f.shares > 0 && Value(f.price) > 0.0
    && Value(f.commission) >= 0.0 && Value(f.stampDuty) >= 0.0
    && Value(f.transferFee) >= 0.0 && Value(f.slippage) >= 0.0
  }

  predicate ValidPosition(p: Position) { CanonicalText(p.symbol) }

  predicate Distinct(ss: seq<string>) { forall i, j :: 0 <= i < j < |ss| ==> ss[i] != ss[j] }

  function TargetSymbols(ts: seq<Target>): (ss: seq<string>)
    ensures |ss| == |ts| && forall i :: 0 <= i < |ts| ==> ss[i] == ts[i].symbol
  {
    seq(|ts|, i requires 0 <= i < |ts| => ts[i].symbol)
  }

  function PositionSymbols(ps: seq<Position>): (ss: seq<string>)
    ensures |ss| == |ps| && forall i :: 0 <= i < |ps| ==> ss[i] == ps[i].symbol
  {
    seq(|ps|, i requires 0 <= i < |ps| => ps[i].symbol)
  }

  function ExecutionIds(os: seq<Order>): (ss: seq<string>)
    ensures |ss| == |os| && forall i :: 0 <= i < |os| ==> ss[i] == os[i].executionId
  {
    seq(|os|, i requires 0 <= i < |os| => os[i].executionId)
  }

  predicate DistinctFillIds(fs: seq<Fill>) {
    forall i, j :: 0 <= i < j < |fs| && fs[i].fillId.Some? ==> fs[i].fillId != fs[j].fillId
  }

  /** The positions the stage is measured by. */
  function Ending(o: Observation): seq<Position> {
    if o.identity.stage.Shadow? then o.hypothetical else o.actual
  }

  predicate StageConsistent(o: Observation) {
    if o.identity.stage.Shadow? then
      && o.counts.submits == 0 && o.counts.cancels == 0
      && forall i :: 0 <= i < |o.fills| ==> o.fills[i].fillId.None?
    else
      && (forall i :: 0 <= i < |o.fills| ==> o.fills[i].fillId.Some?)
      && (o.fills != [] ==> o.counts.submits > 0)
  }

  predicate Members(o: Observation) {
    && (forall i :: 0 <= i < |o.orders| ==> ValidOrder(o.orders[i]))
    && (forall i :: 0 <= i < |o.blockers| ==> ValidBlocker(o.blockers[i]))
    && (forall i :: 0 <= i < |o.targets| ==> ValidTarget(o.targets[i]))
    && (forall i :: 0 <= i < |o.fills| ==> ValidFill(o.fills[i]))
    && (forall i :: 0 <= i < |o.actual| ==> ValidPosition(o.actual[i]))
    && (forall i :: 0 <= i < |o.hypothetical| ==> ValidPosition(o.hypothetical[i]))
  }

  predicate Whole(o: Observation) {
    && Distinct(TargetSymbols(o.targets))
    && Distinct(PositionSymbols(o.actual)) && Distinct(PositionSymbols(o.hypothetical))
    && Distinct(ExecutionIds(o.orders)) && DistinctFillIds(o.fills)
    && (forall i :: 0 <= i < |Ending(o)| ==> Ending(o)[i].symbol in TargetSymbols(o.targets))
    && StageConsistent(o)
  }

  /** What the constructors accept. */
  predicate Valid(o: Observation) {
    && ValidIdentity(o.identity)
    && CanonicalText(o.decisionId) && CanonicalText(o.planId) && Trimmed(o.created)
    && Value(o.equity) > 0.0
    && Members(o)
    && Whole(o)
  }
}
