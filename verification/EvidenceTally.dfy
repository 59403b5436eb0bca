/** What observations add up to. Decimal arithmetic is taken as exact. */
module EvidenceTally {
  import opened Wrappers
  import opened DecimalText
  import opened EvidenceFacts

  /** Tracking errors; `max` is zero where there are none. */
  datatype Errors = Errors(count: nat, sum: real, max: real, weighted: real, notional: real)

  datatype Shortfall = Shortfall(
    orders: nat, unfilled: real, partials: nat, blockers: multiset<BlockerCode>)

  datatype Costs = Costs(
    fills: nat, commissions: real, stampDuty: real, transferFees: real, slippage: real)

  /** A sum over observations that does not know their order. */
  datatype Tally = Tally(
    sessions: nat, counts: Counts, errors: Errors, shortfall: Shortfall, costs: Costs)

  const NO_COUNTS := Counts(0, 0, 0, 0, 0, 0, 0, 0)

  const NO_ERRORS := Errors(0, 0.0, 0.0, 0.0, 0.0)

  const NO_SHORTFALL := Shortfall(0, 0.0, 0, multiset{})

  const NO_COSTS := Costs(0, 0.0, 0.0, 0.0, 0.0)

  const NOTHING := Tally(0, NO_COUNTS, NO_ERRORS, NO_SHORTFALL, NO_COSTS)

  function Max(a: real, b: real): real { if a >= b then a else b }

  function Abs(a: real): real { if a >= 0.0 then a else -a }

  function AddCounts(a: Counts, b: Counts): Counts {
    Counts(a.submits + b.submits, a.cancels + b.cancels, a.rejections + b.rejections,
           a.unknowns + b.unknowns, a.external + b.external,
           a.duplicateOrders + b.duplicateOrders, a.duplicateFills + b.duplicateFills,
           a.dataFailures + b.dataFailures)
  }

  function AddErrors(a: Errors, b: Errors): Errors {
    Errors(a.count + b.count, a.sum + b.sum, Max(a.max, b.max),
           a.weighted + b.weighted, a.notional + b.notional)
  }

  function AddShortfall(a: Shortfall, b: Shortfall): Shortfall {
    Shortfall(a.orders + b.orders, a.unfilled + b.unfilled, a.partials + b.partials,
              a.blockers + b.blockers)
  }

  function AddCosts(a: Costs, b: Costs): Costs {
    Costs(a.fills + b.fills, a.commissions + b.commissions, a.stampDuty + b.stampDuty,
          a.transferFees + b.transferFees, a.slippage + b.slippage)
  }

  function Plus(a: Tally, b: Tally): Tally {
    Tally(a.sessions + b.sessions, AddCounts(a.counts, b.counts), AddErrors(a.errors, b.errors),
          AddShortfall(a.shortfall, b.shortfall), AddCosts(a.costs, b.costs))
  }

  // ------------------------------------------------------------- one observation

  /** The shares held of a symbol at the end; the last entry counts. */
  function SharesOf(positions: seq<Position>, symbol: string): nat {
    if positions == [] then 0
    else
      var last := positions[|positions| - 1];
      if last.symbol == symbol then last.shares else SharesOf(positions[..|positions| - 1], symbol)
  }

  function Notional(shares: int, price: real): real { shares as real * price }

  function ActualNotional(o: Observation, t: Target): real {
    Notional(SharesOf(Ending(o), t.symbol), Value(t.reference))
  }

  function Deviation(weight: real, notional: real, equity: real): real
    requires equity > 0.0
  {
    Abs(weight - notional / equity)
  }

  /** How far the weight held is from the weight aimed at. */
  function TrackingError(o: Observation, t: Target): real
    requires Value(o.equity) > 0.0
  {
    Deviation(Value(t.weight), ActualNotional(o, t), Value(o.equity))
  }

  function SymbolNotional(o: Observation, t: Target): real {
    Max(Notional(t.shares, Value(t.reference)), ActualNotional(o, t))
  }

  function WeightedError(o: Observation, t: Target): real
    requires Value(o.equity) > 0.0
  {
    TrackingError(o, t) * SymbolNotional(o, t)
  }

  function OfTarget(o: Observation, t: Target): Errors
    requires Value(o.equity) > 0.0
  {
    Errors(1, TrackingError(o, t), TrackingError(o, t), WeightedError(o, t), SymbolNotional(o, t))
  }

  function OfTargets(o: Observation, ts: seq<Target>): Errors
    requires Value(o.equity) > 0.0
  {
    if ts == [] then NO_ERRORS
    else AddErrors(OfTargets(o, ts[..|ts| - 1]), OfTarget(o, ts[|ts| - 1]))
  }

  function UnfilledNotional(o: Order): real { Notional(o.planned - o.filled, Value(o.reference)) }

  function OfOrder(o: Order): Shortfall {
    Shortfall(1, UnfilledNotional(o),
              if 0 < o.filled < o.planned then 1 else 0,
              if o.blocker.Some? then multiset{o.blocker.value} else multiset{})
  }

  function OfOrders(os: seq<Order>): (s: Shortfall)
    ensures s.orders == |os|
  {
    if os == [] then NO_SHORTFALL else AddShortfall(OfOrders(os[..|os| - 1]), OfOrder(os[|os| - 1]))
  }

  function OfFill(f: Fill): Costs {
    Costs(1, Value(f.commission), Value(f.stampDuty), Value(f.transferFee), Value(f.slippage))
  }

  function OfFills(fs: seq<Fill>): (c: Costs)
    ensures c.fills == |fs|
  {
    if fs == [] then NO_COSTS else AddCosts(OfFills(fs[..|fs| - 1]), OfFill(fs[|fs| - 1]))
  }

  predicate Tallied(o: Observation) { Value(o.equity) > 0.0 }

  function OfObservation(o: Observation): Tally
    requires Tallied(o)
  {
    Tally(1, o.counts, OfTargets(o, o.targets), OfOrders(o.orders), OfFills(o.fills))
  }

  predicate AllTallied(os: seq<Observation>) { forall i :: 0 <= i < |os| ==> Tallied(os[i]) }

  function Total(os: seq<Observation>): Tally
    requires AllTallied(os)
  {
    if os == [] then NOTHING else Plus(Total(os[..|os| - 1]), OfObservation(os[|os| - 1]))
  }

  // ------------------------------------------------------------------- algebra

  lemma PlusLaws(a: Tally, b: Tally, c: Tally)
    ensures Plus(a, b) == Plus(b, a)
    ensures Plus(Plus(a, b), c) == Plus(a, Plus(b, c))
    ensures a.errors.max >= 0.0 ==> Plus(a, NOTHING) == a
  {
  }

  lemma TotalSnoc(os: seq<Observation>, o: Observation)
    requires AllTallied(os) && Tallied(o)
    ensures AllTallied(os + [o]) && Total(os + [o]) == Plus(Total(os), OfObservation(o))
  {
    hide Plus, OfObservation;
    assert (os + [o])[..|os|] == os;
  }

  lemma TalliedParts(xs: seq<Observation>, ys: seq<Observation>)
    ensures AllTallied(xs + ys) <==> AllTallied(xs) && AllTallied(ys)
  {
    hide Tallied;
    if AllTallied(xs + ys) {
      forall i | 0 <= i < |xs| ensures Tallied(xs[i]) {
        assert (xs + ys)[i] == xs[i];
      }
      forall i | 0 <= i < |ys| ensures Tallied(ys[i]) {
        assert (xs + ys)[|xs| + i] == ys[i];
      }
    }
  }

  /** Disjoint sets of observations add up, field by field. */
  lemma {:induction false} TotalOfJoined(xs: seq<Observation>, ys: seq<Observation>)
    requires AllTallied(xs) && AllTallied(ys)
    ensures AllTallied(xs + ys) && Total(xs + ys) == Plus(Total(xs), Total(ys))
  {
    TalliedParts(xs, ys);
    if ys == [] {
      assert xs + ys == xs;
      TotalNonNegative(xs);
      PlusLaws(Total(xs), NOTHING, NOTHING);
    } else {
      hide Plus, OfObservation, Total, AllTallied, Tallied;
      var init, last := ys[..|ys| - 1], ys[|ys| - 1];
      assert ys == init + [last];
      TalliedParts(init, [last]);
      OneTallied(last);
      TotalOfJoined(xs, init);
      assert xs + ys == xs + init + [last];
      TotalSnoc(xs + init, last);
      TotalSnoc(init, last);
      PlusLaws(Total(xs), Total(init), OfObservation(last));
    }
  }

  lemma OneTallied(o: Observation)
    ensures AllTallied([o]) <==> Tallied(o)
  {
    hide Tallied;
    assert [o][0] == o;
  }

  lemma {:induction false} TargetsNonNegative(o: Observation, ts: seq<Target>)
    requires Value(o.equity) > 0.0
    ensures OfTargets(o, ts).max >= 0.0
  {
    if ts != [] {
      TargetsNonNegative(o, ts[..|ts| - 1]);
    }
  }

  lemma {:induction false} TotalNonNegative(os: seq<Observation>)
    requires AllTallied(os)
    ensures Total(os).errors.max >= 0.0
  {
    if os != [] {
      var init := os[..|os| - 1];
      TotalNonNegative(init);
      assert Total(os) == Plus(Total(init), OfObservation(os[|os| - 1]));
    }
  }

  lemma TotalMoves(front: seq<Observation>, o: Observation, back: seq<Observation>)
    requires AllTallied(front + back) && Tallied(o)
    ensures AllTallied(front + [o] + back)
    ensures Total(front + [o] + back) == Plus(Total(front + back), OfObservation(o))
  {
    hide Plus, OfObservation, Total, AllTallied, Tallied;
    TalliedParts(front, back);
    TotalSnoc(front, o);
    TotalOfJoined(front + [o], back);
    TotalOfJoined(front, back);
    PlusLaws(Total(front), OfObservation(o), Total(back));
    PlusLaws(OfObservation(o), Total(back), NOTHING);
    PlusLaws(Total(front), Total(back), OfObservation(o));
  }

  lemma TakeOut<T>(xs: seq<T>, x: T, ys: seq<T>) returns (front: seq<T>, back: seq<T>)
    requires multiset(xs + [x]) == multiset(ys)
    ensures ys == front + [x] + back && multiset(xs) == multiset(front + back)
  {
    assert x in multiset(xs + [x]);
    var k :| 0 <= k < |ys| && ys[k] == x;
    front, back := ys[..k], ys[k + 1..];
    assert ys == front + [x] + back;
    WithoutOne(xs, [], x);
    WithoutOne(front, back, x);
    assert xs + [x] + [] == xs + [x] && xs + [] == xs;
  }

  lemma WithoutOne<T>(front: seq<T>, back: seq<T>, x: T)
    ensures multiset(front + back) == multiset(front + [x] + back) - multiset{x}
  {
  }

  /** The order of observations does not matter. */
  lemma {:induction false} TotalPermutes(xs: seq<Observation>, ys: seq<Observation>)
    requires multiset(xs) == multiset(ys) && AllTallied(xs)
    ensures AllTallied(ys) && Total(xs) == Total(ys)
  {
    PermutedMembers(xs, ys);
    if xs == [] {
      assert |ys| == |multiset(ys)| == 0;
    } else {
      hide Plus, OfObservation, AllTallied, Tallied, Total;
      var init, last := xs[..|xs| - 1], xs[|xs| - 1];
      assert xs == init + [last];
      TalliedParts(init, [last]);
      OneTallied(last);
      var front, back := TakeOut(init, last, ys);
      TotalPermutes(init, front + back);
      TotalSnoc(init, last);
      TotalMoves(front, last, back);
    }
  }

  lemma PermutedMembers(xs: seq<Observation>, ys: seq<Observation>)
    requires multiset(xs) == multiset(ys)
    ensures forall o :: o in xs <==> o in ys
    ensures AllTallied(xs) ==> AllTallied(ys)
  {
    forall o ensures o in xs <==> o in ys {
      assert o in multiset(xs) <==> o in multiset(ys);
    }
    forall i | 0 <= i < |ys| && AllTallied(xs) ensures Tallied(ys[i]) {
      assert ys[i] in ys;
    }
  }
}
