/** The loops that aggregate observations, against what the aggregate stands for. */
module EvidenceAggregator {
  import opened Wrappers
  import opened DecimalText
  import opened EvidenceFacts
  import opened EvidenceTally
  import opened EvidenceAggregate

  // -------------------------------------------------------------------- lists of errors

  function SumOf(xs: seq<real>): real {
    if xs == [] then 0.0 else SumOf(xs[..|xs| - 1]) + xs[|xs| - 1]
  }

  function MaxOf(xs: seq<real>): real {
    if xs == [] then 0.0 else Max(MaxOf(xs[..|xs| - 1]), xs[|xs| - 1])
  }

  lemma {:induction false} ErrorsJoin(xs: seq<real>, ys: seq<real>)
    ensures SumOf(xs + ys) == SumOf(xs) + SumOf(ys)
    ensures MaxOf(ys) >= 0.0 && MaxOf(xs + ys) == Max(MaxOf(xs), MaxOf(ys))
  {
    if ys == [] {
      assert xs + ys == xs;
      MaxIsNonNegative(xs);
    } else {
      var init := ys[..|ys| - 1];
      ErrorsJoin(xs, init);
      assert (xs + ys)[..|xs + ys| - 1] == xs + init;
    }
  }

  lemma {:induction false} MaxIsNonNegative(xs: seq<real>)
    ensures MaxOf(xs) >= 0.0
  {
    if xs != [] {
      MaxIsNonNegative(xs[..|xs| - 1]);
    }
  }

  predicate Lists(errors: seq<real>, o: Observation, ts: seq<Target>)
    requires Value(o.equity) > 0.0
  {
    |errors| == |ts| && forall i :: 0 <= i < |ts| ==> errors[i] == TrackingError(o, ts[i])
  }

  predicate Summarised(errors: seq<real>, e: Errors) {
    |errors| == e.count && SumOf(errors) == e.sum && MaxOf(errors) == e.max
  }

  lemma {:induction false} ListedErrors(errors: seq<real>, o: Observation, ts: seq<Target>)
    requires Value(o.equity) > 0.0 && Lists(errors, o, ts)
    ensures Summarised(errors, OfTargets(o, ts))
  {
    hide Value, TrackingError, SymbolNotional, WeightedError;
    if ts != [] {
      ListedErrors(errors[..|ts| - 1], o, ts[..|ts| - 1]);
    }
  }

  /** The list of every session's errors, and the ending shares, by loops. */
  method TrackingErrors(o: Observation) returns (errors: seq<real>, weighted: real, notional: real)
    requires Valid(o)
    ensures Lists(errors, o, o.targets)
    ensures weighted == OfTargets(o, o.targets).weighted
    ensures notional == OfTargets(o, o.targets).notional
  {
    hide Value, Members, Whole, ValidIdentity, CanonicalText, OfTargets, SharesOf, Lists, Notional,
      Deviation;
    var ending := EndingShares(Ending(o));
    errors, weighted, notional := [], 0.0, 0.0;
    NoTargets(o);
    for i := 0 to |o.targets|
      invariant Lists(errors, o, o.targets[..i])
      invariant weighted == OfTargets(o, o.targets[..i]).weighted
      invariant notional == OfTargets(o, o.targets[..i]).notional
    {
      var target := o.targets[i];
      var shares := if target.symbol in ending then ending[target.symbol] else 0;
      var actual := Notional(shares, Value(target.reference));
      var error := Deviation(Value(target.weight), actual, Value(o.equity));
      var symbolNotional := Max(Notional(target.shares, Value(target.reference)), actual);
      assert error == TrackingError(o, target) && symbolNotional == SymbolNotional(o, target);
      TargetsSnoc(o, o.targets, i, errors);
      assert error * symbolNotional == WeightedError(o, target);
      errors := errors + [error];
      weighted := weighted + error * symbolNotional;
      notional := notional + symbolNotional;
    }
    assert o.targets[..|o.targets|] == o.targets;
  }

  lemma NoTargets(o: Observation)
    requires Value(o.equity) > 0.0
    ensures o.targets[..0] == [] && OfTargets(o, []) == NO_ERRORS && Lists([], o, [])
  {
    hide Value;
  }

  lemma TargetsSnoc(o: Observation, ts: seq<Target>, i: nat, errors: seq<real>)
    requires Value(o.equity) > 0.0 && i < |ts| && Lists(errors, o, ts[..i])
    ensures var (before, after) := (OfTargets(o, ts[..i]), OfTargets(o, ts[..i + 1]));
      && after.weighted == before.weighted + WeightedError(o, ts[i])
      && after.notional == before.notional + SymbolNotional(o, ts[i])
    ensures Lists(errors + [TrackingError(o, ts[i])], o, ts[..i + 1])
  {
    hide TrackingError, SymbolNotional, WeightedError, Value;
    assert ts[..i + 1][..i] == ts[..i];
  }

  method EndingShares(positions: seq<Position>) returns (ending: map<string, nat>)
    ensures forall s :: (if s in ending then ending[s] else 0) == SharesOf(positions, s)
  {
    ending := map[];
    for i := 0 to |positions|
      invariant forall s :: (if s in ending then ending[s] else 0) == SharesOf(positions[..i], s)
    {
      assert positions[..i + 1][..i] == positions[..i];
      ending := ending[positions[i].symbol := positions[i].shares];
    }
    assert positions[..|positions|] == positions;
  }

  method TallyOrders(orders: seq<Order>) returns (unfilled: real, partials: nat, blockers: multiset<BlockerCode>)
    ensures var t := OfOrders(orders);
      unfilled == t.unfilled && partials == t.partials && blockers == t.blockers
  {
    hide UnfilledNotional;
    unfilled, partials, blockers := 0.0, 0, multiset{};
    for i := 0 to |orders|
      invariant var t := OfOrders(orders[..i]);
        unfilled == t.unfilled && partials == t.partials && blockers == t.blockers
    {
      var order := orders[i];
      assert orders[..i + 1][..i] == orders[..i];
      unfilled := unfilled + UnfilledNotional(order);
      if 0 < order.filled < order.planned {
        partials := partials + 1;
      }
      if order.blocker.Some? {
        blockers := blockers + multiset{order.blocker.value};
      }
    }
    assert orders[..|orders|] == orders;
  }

  method TallyFills(fills: seq<Fill>) returns (commissions: real, stampDuty: real, transferFees: real, slippage: real)
    ensures var t := OfFills(fills);
      commissions == t.commissions && stampDuty == t.stampDuty
      && transferFees == t.transferFees && slippage == t.slippage
  {
    hide Value;
    commissions, stampDuty, transferFees, slippage := 0.0, 0.0, 0.0, 0.0;
    for i := 0 to |fills|
      invariant var t := OfFills(fills[..i]);
        commissions == t.commissions && stampDuty == t.stampDuty
        && transferFees == t.transferFees && slippage == t.slippage
    {
      var fill := fills[i];
      assert fills[..i + 1][..i] == fills[..i];
      commissions := commissions + Value(fill.commission);
      stampDuty := stampDuty + Value(fill.stampDuty);
      transferFees := transferFees + Value(fill.transferFee);
      slippage := slippage + Value(fill.slippage);
    }
    assert fills[..|fills|] == fills;
  }

  // --------------------------------------------------------------------- by session

  predicate BySession(os: seq<Observation>) {
    forall i, j :: 0 <= i < j < |os| ==> os[i].identity.session <= os[j].identity.session
  }

  function InsertBySession(os: seq<Observation>, o: Observation): seq<Observation> {
    if os == [] || os[|os| - 1].identity.session <= o.identity.session then os + [o]
    else InsertBySession(os[..|os| - 1], o) + [os[|os| - 1]]
  }

  function SortedBySession(os: seq<Observation>): seq<Observation> {
    if os == [] then [] else InsertBySession(SortedBySession(os[..|os| - 1]), os[|os| - 1])
  }

  lemma {:induction false} InsertKeepsAll(os: seq<Observation>, o: Observation)
    ensures multiset(InsertBySession(os, o)) == multiset(os) + multiset{o}
  {
    if os != [] && os[|os| - 1].identity.session > o.identity.session {
      InsertKeepsAll(os[..|os| - 1], o);
      assert os == os[..|os| - 1] + [os[|os| - 1]];
    }
  }

  lemma {:induction false} InsertSorts(os: seq<Observation>, o: Observation)
    requires BySession(os)
    ensures BySession(InsertBySession(os, o))
  {
    if os == [] || os[|os| - 1].identity.session <= o.identity.session {
      LaterLast(os, o);
    } else {
      hide BySession;
      var init, last := os[..|os| - 1], os[|os| - 1];
      BeforeLast(os);
      InsertSorts(init, o);
      InsertKeepsAll(init, o);
      forall p | p in InsertBySession(init, o) ensures p.identity.session <= last.identity.session {
        assert p in multiset(InsertBySession(init, o));
        assert p in init || p == o;
      }
      LaterLast(InsertBySession(init, o), last);
    }
  }

  lemma BeforeLast(os: seq<Observation>)
    requires os != [] && BySession(os)
    ensures var init := os[..|os| - 1];
      BySession(init) && forall p :: p in init ==> p.identity.session <= os[|os| - 1].identity.session
  {
  }

  lemma LaterLast(os: seq<Observation>, last: Observation)
    requires BySession(os)
    requires os == [] || (forall p :: p in os ==> p.identity.session <= last.identity.session)
             || os[|os| - 1].identity.session <= last.identity.session
    ensures BySession(os + [last])
  {
  }

  lemma {:induction false} SortSorts(os: seq<Observation>)
    ensures BySession(SortedBySession(os)) && multiset(SortedBySession(os)) == multiset(os)
  {
    hide BySession, InsertBySession;
    if os == [] {
      assert BySession([]) by { NoneBySession(); }
    } else {
      var init, last := os[..|os| - 1], os[|os| - 1];
      SortSorts(init);
      InsertSorts(SortedBySession(init), last);
      InsertKeepsAll(SortedBySession(init), last);
      assert os == init + [last];
    }
  }

  lemma NoneBySession()
    ensures BySession([])
  {
  }

  // ---------------------------------------------------------------------- aggregation

  /** The first two checks, observation by observation. */
  method CheckDeployment(os: seq<Observation>) returns (misfit: Option<AggregateError>)
    requires os != []
    ensures misfit == FirstMisfit(os)
  {
    hide SameIdentity;
    var first := os[0].identity;
    misfit := None;
    for i := 1 to |os|
      invariant FirstMisfit(os[..i]).None?
    {
      assert os[..i + 1][..i] == os[..i];
      if os[i].identity.stage != first.stage {
        MisfitStands(os, i);
        return Some(MixedStages);
      }
      if !SameIdentity(os[i].identity, first) {
        MisfitStands(os, i);
        return Some(MixedIdentity);
      }
    }
    assert os[..|os|] == os;
  }

  lemma {:induction false} MisfitStands(os: seq<Observation>, i: nat)
    requires i < |os| && FirstMisfit(os[..i + 1]).Some?
    ensures FirstMisfit(os) == FirstMisfit(os[..i + 1])
    decreases |os|
  {
    if i + 1 == |os| {
      assert os[..i + 1] == os;
    } else {
      var init := os[..|os| - 1];
      assert init[..i + 1] == os[..i + 1];
      MisfitStands(init, i);
    }
  }

  /** Everything summed, session by session. */
  method Accumulate(ordered: seq<Observation>) returns (errors: seq<real>, t: Tally)
    requires AllValid(ordered) && AllTallied(ordered)
    ensures t == Total(ordered) && Summarised(errors, t.errors)
  {
    hide Valid, Tallied, Plus, OfObservation, Summarised;
    errors, t := [], NOTHING;
    assert ordered[..0] == [];
    NothingSummarised();
    for i := 0 to |ordered|
      invariant AllTallied(ordered[..i]) && t == Total(ordered[..i]) && Summarised(errors, t.errors)
    {
      var o := ordered[i];
      assert Valid(o) && Tallied(o);
      assert ordered[..i + 1] == ordered[..i] + [o];
      TotalSnoc(ordered[..i], o);
      errors, t := AddObservation(errors, t, o);
    }
    assert ordered[..|ordered|] == ordered;
  }

  lemma NothingSummarised()
    ensures Summarised([], NOTHING.errors)
  {
  }

  method AddObservation(errors: seq<real>, t: Tally, o: Observation) returns (all: seq<real>, sum: Tally)
    requires Valid(o) && Tallied(o) && Summarised(errors, t.errors)
    ensures sum == Plus(t, OfObservation(o)) && Summarised(all, sum.errors)
  {
    hide Valid, Value, OfTargets, OfOrders, OfFills, SumOf, MaxOf;
    var session, weighted, notional := TrackingErrors(o);
    var unfilled, partials, blockers := TallyOrders(o.orders);
    var commissions, stampDuty, transferFees, slippage := TallyFills(o.fills);
    all := errors + session;
    sum := Tally(
      t.sessions + 1, AddCounts(t.counts, o.counts),
      Errors(|all|, SumOf(all), MaxOf(all), t.errors.weighted + weighted, t.errors.notional + notional),
      Shortfall(t.shortfall.orders + |o.orders|, t.shortfall.unfilled + unfilled,
                t.shortfall.partials + partials, t.shortfall.blockers + blockers),
      Costs(t.costs.fills + |o.fills|, t.costs.commissions + commissions, t.costs.stampDuty + stampDuty,
            t.costs.transferFees + transferFees, t.costs.slippage + slippage));
    ListedErrors(session, o, o.targets);
    ErrorsJoin(errors, session);
  }

  method AggregateObservations(os: seq<Observation>) returns (r: Result<Aggregate, AggregateError>)
    requires AllValid(os)
    ensures AllTallied(os) && r == Aggregated(os)
  {
    hide Valid, Tallied, Total, FirstMisfit, AllTallied, AllValid, SumOf, MaxOf, Latest;
    ValidIsTallied(os);
    if os == [] {
      return Err(NoObservations);
    }
    var misfit := CheckDeployment(os);
    if misfit.Some? {
      return Err(misfit.value);
    }
    if |set o | o in os :: o.identity.session| != |os| {
      return Err(DuplicateSessions);
    }
    var ordered := SortedBySession(os);
    SortIsHarmless(os);
    var errors, t := Accumulate(ordered);
    var latest := ordered[|ordered| - 1];
    r := Ok(Aggregate(
      os[0].identity.stage, t.sessions, t.shortfall.orders, t.costs.fills, t.counts,
      MaxOf(errors), if errors == [] then 0.0 else SumOf(errors) / |errors| as real,
      if t.errors.notional == 0.0 then 0.0 else t.errors.weighted / t.errors.notional,
      t.shortfall.unfilled, t.costs.commissions, t.costs.stampDuty, t.costs.transferFees,
      t.costs.slippage, t.shortfall.partials, t.shortfall.blockers,
      latest.identity.session, latest.identity.data, latest.identity.calendar));
  }

  lemma SortIsHarmless(os: seq<Observation>)
    requires os != [] && AllValid(os) && AllTallied(os) && DistinctSessions(os)
    ensures var ordered := SortedBySession(os);
      && ordered != [] && AllValid(ordered) && AllTallied(ordered)
      && Total(ordered) == Total(os) && ordered[|ordered| - 1] == Latest(os)
  {
    hide Valid, Tallied, Total, Latest, SortedBySession;
    var ordered := SortedBySession(os);
    SortSorts(os);
    assert |ordered| == |multiset(ordered)| == |os|;
    TotalPermutes(os, ordered);
    PermutedMembers(os, ordered);
    forall i | 0 <= i < |ordered| ensures Valid(ordered[i]) {
      assert ordered[i] in os;
    }
    DistinctExactly(os);
    LatestIsUnique(os, ordered[|ordered| - 1]);
  }
}
