/** What the fields of an aggregate add up, over all orders, fills and targets of all
    sessions laid end to end. */
module EvidenceTotals {
  import opened Wrappers
  import opened DecimalText
  import opened EvidenceFacts
  import opened EvidenceTally
  import opened EvidenceAggregate
  import opened EvidenceTracking

  // ------------------------------------------------------------------------ sums

  ghost function Sum<T>(xs: seq<T>, f: T -> real): real {
    if xs == [] then 0.0 else Sum(xs[..|xs| - 1], f) + f(xs[|xs| - 1])
  }

  ghost function Count<T>(xs: seq<T>, f: T -> nat): nat {
    if xs == [] then 0 else Count(xs[..|xs| - 1], f) + f(xs[|xs| - 1])
  }

  ghost function Flat<S, T>(xs: seq<S>, f: S -> seq<T>): seq<T> {
    if xs == [] then [] else Flat(xs[..|xs| - 1], f) + f(xs[|xs| - 1])
  }

  lemma {:induction false} SumJoins<T>(xs: seq<T>, ys: seq<T>, f: T -> real)
    ensures Sum(xs + ys, f) == Sum(xs, f) + Sum(ys, f)
  {
    if ys == [] {
      assert xs + ys == xs;
    } else {
      SumJoins(xs, ys[..|ys| - 1], f);
      assert (xs + ys)[..|xs + ys| - 1] == xs + ys[..|ys| - 1];
    }
  }

  lemma {:induction false} CountJoins<T>(xs: seq<T>, ys: seq<T>, f: T -> nat)
    ensures Count(xs + ys, f) == Count(xs, f) + Count(ys, f)
  {
    if ys == [] {
      assert xs + ys == xs;
    } else {
      CountJoins(xs, ys[..|ys| - 1], f);
      assert (xs + ys)[..|xs + ys| - 1] == xs + ys[..|ys| - 1];
    }
  }

  // ------------------------------------------------------------------------ fills

  function Commission(f: Fill): real { Value(f.commission) }
  function StampDuty(f: Fill): real { Value(f.stampDuty) }
  function TransferFee(f: Fill): real { Value(f.transferFee) }
  function Slippage(f: Fill): real { Value(f.slippage) }

  ghost predicate CostsOf(c: Costs, fs: seq<Fill>) {
    && c.fills == |fs|
    && c.commissions == Sum(fs, Commission) && c.stampDuty == Sum(fs, StampDuty)
    && c.transferFees == Sum(fs, TransferFee) && c.slippage == Sum(fs, Slippage)
  }

  lemma {:induction false} FillsAddUp(fs: seq<Fill>)
    ensures CostsOf(OfFills(fs), fs)
  {
    hide Value;
    if fs != [] {
      FillsAddUp(fs[..|fs| - 1]);
    }
  }

  lemma CostsJoin(a: Costs, xs: seq<Fill>, b: Costs, ys: seq<Fill>)
    requires CostsOf(a, xs) && CostsOf(b, ys)
    ensures CostsOf(AddCosts(a, b), xs + ys)
  {
    hide Sum;
    SumJoins(xs, ys, Commission);
    SumJoins(xs, ys, StampDuty);
    SumJoins(xs, ys, TransferFee);
    SumJoins(xs, ys, Slippage);
  }

  // ------------------------------------------------------------------------ orders

  /** The value of the shares planned and not filled. */
  function Missing(o: Order): real { (o.planned - o.filled) as real * Value(o.reference) }

  function Partly(o: Order): nat { if o.filled > 0 && o.filled < o.planned then 1 else 0 }

  function BlockedBy(code: BlockerCode): (f: Order -> nat)
    ensures forall o :: f(o) == if o.blocker == Some(code) then 1 else 0
  {
    (o: Order) => if o.blocker == Some(code) then 1 else 0
  }

  ghost predicate ShortfallOf(s: Shortfall, os: seq<Order>) {
    && s.orders == |os|
    && s.unfilled == Sum(os, Missing) && s.partials == Count(os, Partly)
    && forall code :: s.blockers[code] == Count(os, BlockedBy(code))
  }

  lemma {:induction false} OrdersAddUp(os: seq<Order>)
    ensures ShortfallOf(OfOrders(os), os)
  {
    hide Value, BlockedBy;
    if os != [] {
      var init, last := os[..|os| - 1], os[|os| - 1];
      OrdersAddUp(init);
      forall code ensures OfOrders(os).blockers[code] == Count(os, BlockedBy(code)) {
        assert BlockedBy(code)(last) == if last.blocker == Some(code) then 1 else 0;
        assert OfOrders(init).blockers[code] == Count(init, BlockedBy(code));
      }
    }
  }

  lemma ShortfallsJoin(a: Shortfall, xs: seq<Order>, b: Shortfall, ys: seq<Order>)
    requires ShortfallOf(a, xs) && ShortfallOf(b, ys)
    ensures ShortfallOf(AddShortfall(a, b), xs + ys)
  {
    hide Sum, Count, BlockedBy;
    SumJoins(xs, ys, Missing);
    CountJoins(xs, ys, Partly);
    forall code ensures (a.blockers + b.blockers)[code] == Count(xs + ys, BlockedBy(code)) {
      CountJoins(xs, ys, BlockedBy(code));
    }
  }

  // ------------------------------------------------------------------------ targets

  /** A target with the observation that set it. */
  type Aimed = (Observation, Target)

  /** The shares the observation holds of a symbol. */
  ghost function HeldOf(o: Observation, symbol: string): nat {
    if exists n: nat :: Holds(MeasuredBy(o), symbol, n) then
      var n: nat :| Holds(MeasuredBy(o), symbol, n); n
    else 0
  }

  ghost function HeldMoney(p: Aimed): real { HeldOf(p.0, p.1.symbol) as real * Value(p.1.reference) }

  /** The part of the equity by which what is held misses what was aimed at. */
  ghost function Miss(p: Aimed): real {
    if Value(p.0.equity) > 0.0 then Gap(p.0, p.1, HeldOf(p.0, p.1.symbol)) / Value(p.0.equity) else 0.0
  }

  /** The larger of the money aimed at in shares and the money held. */
  ghost function Weight(p: Aimed): real {
    var aimed := p.1.shares as real * Value(p.1.reference);
    if aimed < HeldMoney(p) then HeldMoney(p) else aimed
  }

  ghost function WeightedMiss(p: Aimed): real { Miss(p) * Weight(p) }

  ghost predicate ErrorsOf(e: Errors, ps: seq<Aimed>) {
    && e.count == |ps|
    && e.sum == Sum(ps, Miss) && e.weighted == Sum(ps, WeightedMiss) && e.notional == Sum(ps, Weight)
    && e.max >= 0.0
    && (forall i :: 0 <= i < |ps| ==> Miss(ps[i]) <= e.max)
    && (e.max == 0.0 || exists i :: 0 <= i < |ps| && Miss(ps[i]) == e.max)
  }

  lemma HeldIsHeld(o: Observation, symbol: string)
    requires Valid(o)
    ensures HeldOf(o, symbol) == SharesOf(Ending(o), symbol)
  {
    hide Valid, Holds;
    HoldsExactly(o, symbol, SharesOf(Ending(o), symbol));
    HoldsExactly(o, symbol, HeldOf(o, symbol));
  }

  lemma TargetAddsUp(o: Observation, t: Target)
    requires Valid(o) && Value(o.equity) > 0.0
    ensures var e := OfTarget(o, t);
      && e.count == 1 && e.sum == e.max == Miss((o, t)) && e.max >= 0.0
      && e.weighted == WeightedMiss((o, t)) && e.notional == Weight((o, t))
  {
    hide Valid, Value, Holds, HeldOf, TrackingError, Gap;
    HeldIsHeld(o, t.symbol);
    var held := HeldOf(o, t.symbol);
    HoldsExactly(o, t.symbol, held);
    ErrorIsGap(o, t, held);
    Divides(TrackingError(o, t), Value(o.equity), Gap(o, t, held));
    ErrorNonNegative(o, t);
    assert HeldMoney((o, t)) == ActualNotional(o, t);
    assert Miss((o, t)) == TrackingError(o, t);
    assert Weight((o, t)) == SymbolNotional(o, t);
  }

  lemma ErrorNonNegative(o: Observation, t: Target)
    requires Value(o.equity) > 0.0
    ensures TrackingError(o, t) >= 0.0
  {
    hide Value;
  }

  lemma Divides(a: real, e: real, g: real)
    requires e > 0.0 && a * e == g
    ensures g / e == a
  {
  }

  function AimsOf(o: Observation, ts: seq<Target>): (ps: seq<Aimed>)
    ensures |ps| == |ts| && forall i :: 0 <= i < |ts| ==> ps[i] == (o, ts[i])
  {
    seq(|ts|, i requires 0 <= i < |ts| => (o, ts[i]))
  }

  lemma ErrorsJoin(a: Errors, xs: seq<Aimed>, b: Errors, ys: seq<Aimed>)
    requires ErrorsOf(a, xs) && ErrorsOf(b, ys)
    ensures ErrorsOf(AddErrors(a, b), xs + ys)
  {
    hide Sum, Miss, Weight, WeightedMiss;
    SumJoins(xs, ys, Miss);
    SumJoins(xs, ys, WeightedMiss);
    SumJoins(xs, ys, Weight);
    var all, m := xs + ys, Max(a.max, b.max);
    if m != 0.0 && m == a.max {
      var i :| 0 <= i < |xs| && Miss(xs[i]) == a.max;
      assert Miss(all[i]) == m;
    } else if m != 0.0 {
      var i :| 0 <= i < |ys| && Miss(ys[i]) == b.max;
      assert Miss(all[|xs| + i]) == m;
    }
  }

  lemma OneAim(p: Aimed, e: Errors)
    requires e.count == 1 && e.sum == e.max == Miss(p) && e.max >= 0.0
    requires e.weighted == WeightedMiss(p) && e.notional == Weight(p)
    ensures ErrorsOf(e, [p])
  {
    hide Miss, Weight, WeightedMiss;
    assert [p][..0] == [] && [p][0] == p;
    assert Sum([p], Miss) == Sum([], Miss) + Miss(p);
    assert Sum([p], WeightedMiss) == Sum([], WeightedMiss) + WeightedMiss(p);
    assert Sum([p], Weight) == Sum([], Weight) + Weight(p);
  }

  lemma {:induction false} TargetsAddUp(o: Observation, ts: seq<Target>)
    requires Valid(o) && Value(o.equity) > 0.0
    ensures ErrorsOf(OfTargets(o, ts), AimsOf(o, ts))
  {
    hide Valid, Value, OfTarget, ErrorsOf, AddErrors, Miss, Weight, WeightedMiss;
    if ts == [] {
      NoAims();
      assert AimsOf(o, ts) == [];
    } else {
      var init, last := ts[..|ts| - 1], ts[|ts| - 1];
      TargetsAddUp(o, init);
      TargetAddsUp(o, last);
      OneAim((o, last), OfTarget(o, last));
      ErrorsJoin(OfTargets(o, init), AimsOf(o, init), OfTarget(o, last), [(o, last)]);
      assert AimsOf(o, ts) == AimsOf(o, init) + [(o, last)];
    }
  }

  lemma NoAims()
    ensures ErrorsOf(NO_ERRORS, [])
  {
  }

  // --------------------------------------------------------------------- all sessions

  function OrdersOf(o: Observation): seq<Order> { o.orders }
  function FillsOf(o: Observation): seq<Fill> { o.fills }
  function TargetsOf(o: Observation): seq<Aimed> { AimsOf(o, o.targets) }

  function Submits(o: Observation): nat { o.counts.submits }
  function Cancels(o: Observation): nat { o.counts.cancels }
  function Rejections(o: Observation): nat { o.counts.rejections }
  function Unknowns(o: Observation): nat { o.counts.unknowns }
  function External(o: Observation): nat { o.counts.external }
  function DuplicateOrders(o: Observation): nat { o.counts.duplicateOrders }
  function DuplicateFills(o: Observation): nat { o.counts.duplicateFills }
  function DataFailures(o: Observation): nat { o.counts.dataFailures }

  ghost predicate CountsOf(c: Counts, os: seq<Observation>) {
    && c.submits == Count(os, Submits) && c.cancels == Count(os, Cancels)
    && c.rejections == Count(os, Rejections) && c.unknowns == Count(os, Unknowns)
    && c.external == Count(os, External) && c.duplicateOrders == Count(os, DuplicateOrders)
    && c.duplicateFills == Count(os, DuplicateFills) && c.dataFailures == Count(os, DataFailures)
  }

  ghost predicate TallyOf(t: Tally, os: seq<Observation>) {
    && t.sessions == |os| && CountsOf(t.counts, os)
    && ErrorsOf(t.errors, Flat(os, TargetsOf))
    && ShortfallOf(t.shortfall, Flat(os, OrdersOf))
    && CostsOf(t.costs, Flat(os, FillsOf))
  }

  lemma {:induction false} TotalsAddUp(os: seq<Observation>)
    requires AllValid(os) && AllTallied(os)
    ensures TallyOf(Total(os), os)
  {
    hide Valid, Tallied, ErrorsOf, ShortfallOf, CostsOf, OfTargets, OfOrders, OfFills, AddErrors,
      AddShortfall, AddCosts;
    if os == [] {
      NothingAddsUp();
    } else {
      var init, last := os[..|os| - 1], os[|os| - 1];
      TotalsAddUp(init);
      assert Valid(last) && Tallied(last);
      EquityIsPositive(last);
      TargetsAddUp(last, last.targets);
      OrdersAddUp(last.orders);
      FillsAddUp(last.fills);
      var t := Total(init);
      ErrorsJoin(t.errors, Flat(init, TargetsOf), OfTargets(last, last.targets), TargetsOf(last));
      ShortfallsJoin(t.shortfall, Flat(init, OrdersOf), OfOrders(last.orders), OrdersOf(last));
      CostsJoin(t.costs, Flat(init, FillsOf), OfFills(last.fills), FillsOf(last));
    }
  }

  lemma EquityIsPositive(o: Observation)
    requires Tallied(o)
    ensures Value(o.equity) > 0.0
  {
    hide Value;
  }

  lemma NothingAddsUp()
    ensures TallyOf(NOTHING, [])
  {
  }

  /** The sums over all fills and orders. */
  ghost predicate MoneyIn(a: Aggregate, orders: seq<Order>, fills: seq<Fill>) {
    && a.orders == |orders| && a.fills == |fills|
    && a.commissions == Sum(fills, Commission) && a.stampDuty == Sum(fills, StampDuty)
    && a.transferFees == Sum(fills, TransferFee) && a.slippage == Sum(fills, Slippage)
    && a.unfilled == Sum(orders, Missing) && a.partials == Count(orders, Partly)
    && forall code :: a.blockers[code] == Count(orders, BlockedBy(code))
  }

  /** The averages of all misses, plain and weighed, and the largest. */
  ghost predicate MissesIn(a: Aggregate, aims: seq<Aimed>) {
    && a.mean == (if aims == [] then 0.0 else Sum(aims, Miss) / |aims| as real)
    && a.weighted == (if Sum(aims, Weight) == 0.0 then 0.0 else Sum(aims, WeightedMiss) / Sum(aims, Weight))
    && a.maximum >= 0.0
    && (forall i :: 0 <= i < |aims| ==> Miss(aims[i]) <= a.maximum)
    && (a.maximum == 0.0 || exists i :: 0 <= i < |aims| && Miss(aims[i]) == a.maximum)
  }

  /** The stage of all sessions, and the data of the latest. */
  ghost predicate LatestIn(a: Aggregate, os: seq<Observation>) {
    exists o :: o in os && (forall p :: p in os ==> p.identity.session <= o.identity.session)
      && a.latestSession == o.identity.session && a.latestData == o.identity.data
      && a.latestCalendar == o.identity.calendar && a.stage == o.identity.stage
  }

  lemma ReportAddsUp(t: Tally, stage: Stage, latest: Observation, os: seq<Observation>)
    requires TallyOf(t, os)
    ensures var a := Report(t, stage, latest);
      && a.sessions == |os| && CountsOf(a.counts, os)
      && MoneyIn(a, Flat(os, OrdersOf), Flat(os, FillsOf)) && MissesIn(a, Flat(os, TargetsOf))
  {
    hide Sum, Count, Flat, BlockedBy, Miss, Weight, WeightedMiss, CountsOf;
  }

  /** Every field of the aggregate: the sums and counts over all sessions' targets, orders and
      fills, the averages of the misses, the largest miss, and the data of the latest session. */
  lemma AggregateAddsUp(os: seq<Observation>)
    requires AllValid(os) && AllTallied(os) && Aggregated(os).Ok?
    ensures var a := Aggregated(os).value;
      && a.sessions == |os| && CountsOf(a.counts, os)
      && MoneyIn(a, Flat(os, OrdersOf), Flat(os, FillsOf)) && MissesIn(a, Flat(os, TargetsOf))
      && LatestIn(a, os)
  {
    hide Total, Flat, Latest, AllValid, AllTallied, Fits, TallyOf, CountsOf, MoneyIn, MissesIn, FirstMisfit,
      DistinctSessions, SessionsApart;
    TotalsAddUp(os);
    ReportAddsUp(Total(os), os[0].identity.stage, Latest(os), os);
    AggregatesExactly(os);
    LatestIsLatest(os);
    assert Fits(os[0], Latest(os));
    FitsMeansStage(os[0], Latest(os));
  }
}
