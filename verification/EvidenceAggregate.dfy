/** Aggregating the observations of one deployment. */
module EvidenceAggregate {
  import opened Wrappers
  import opened DecimalText
  import opened EvidenceFacts
  import opened EvidenceTally

  datatype AggregateError = NoObservations | MixedStages | MixedIdentity | DuplicateSessions

  datatype Aggregate = Aggregate(
    stage: Stage, sessions: nat, orders: nat, fills: nat, counts: Counts,
    maximum: real, mean: real, weighted: real,
    unfilled: real, commissions: real, stampDuty: real, transferFees: real, slippage: real,
    partials: nat, blockers: multiset<BlockerCode>,
    latestSession: int, latestData: string, latestCalendar: string)

  // ------------------------------------------------------------------ who may join

  predicate SameIdentity(a: Identity, b: Identity) {
    a.firmquantCommit == b.firmquantCommit && a.uquantCommit == b.uquantCommit
    && a.config == b.config && a.account == b.account
  }

  function Misfit(first: Identity, i: Identity): Option<AggregateError> {
    if i.stage != first.stage then Some(MixedStages)
    else if !SameIdentity(i, first) then Some(MixedIdentity)
    else None
  }

  /** The complaint about the earliest observation that does not fit the first one. */
  function FirstMisfit(os: seq<Observation>): Option<AggregateError>
    requires os != []
  {
    if |os| == 1 then None
    else
      var earlier := FirstMisfit(os[..|os| - 1]);
      if earlier.Some? then earlier else Misfit(os[0].identity, os[|os| - 1].identity)
  }

  predicate Fits(a: Observation, b: Observation) { Misfit(a.identity, b.identity).None? }

  predicate OneDeployment(os: seq<Observation>) {
    forall a, b :: a in os && b in os ==> Fits(a, b)
  }

  function SessionsOf(os: seq<Observation>): set<int> {
    set o | o in os :: o.identity.session
  }

  predicate DistinctSessions(os: seq<Observation>) { |SessionsOf(os)| == |os| }

  /** No two places hold one session. */
  predicate SessionsApart(os: seq<Observation>) {
    forall i, j :: 0 <= i < j < |os| ==> os[i].identity.session != os[j].identity.session
  }

  function Latest(os: seq<Observation>): Observation
    requires os != []
  {
    if |os| == 1 then os[0]
    else
      var m := Latest(os[..|os| - 1]);
      if os[|os| - 1].identity.session > m.identity.session then os[|os| - 1] else m
  }

  predicate AllValid(os: seq<Observation>) { forall i :: 0 <= i < |os| ==> Valid(os[i]) }

  lemma ValidIsTallied(os: seq<Observation>)
    requires AllValid(os)
    ensures AllTallied(os)
  {
    forall i | 0 <= i < |os| ensures Tallied(os[i]) {
      assert Valid(os[i]);
    }
  }

  function Ratio(a: real, b: real): real { if b == 0.0 then 0.0 else a / b }

  function Report(t: Tally, stage: Stage, latest: Observation): Aggregate {
    Aggregate(stage, t.sessions, t.shortfall.orders, t.costs.fills, t.counts,
              t.errors.max, Ratio(t.errors.sum, t.errors.count as real),
              Ratio(t.errors.weighted, t.errors.notional),
              t.shortfall.unfilled, t.costs.commissions, t.costs.stampDuty, t.costs.transferFees,
              t.costs.slippage, t.shortfall.partials, t.shortfall.blockers,
              latest.identity.session, latest.identity.data, latest.identity.calendar)
  }

  /** What aggregation is to return; nothing in it sorts. */
  function Aggregated(os: seq<Observation>): Result<Aggregate, AggregateError>
    requires AllTallied(os)
  {
    if os == [] then Err(NoObservations)
    else if FirstMisfit(os).Some? then Err(FirstMisfit(os).value)
    else if !DistinctSessions(os) then Err(DuplicateSessions)
    else Ok(Report(Total(os), os[0].identity.stage, Latest(os)))
  }

  // -------------------------------------------------------------- when it succeeds

  lemma {:induction false} FirstMisfitIsNone(os: seq<Observation>)
    requires os != []
    ensures FirstMisfit(os).None? <==> forall i :: 0 <= i < |os| ==> Fits(os[0], os[i])
  {
    hide Misfit;
    var last := os[|os| - 1];
    if |os| == 1 {
      assert Fits(os[0], os[0]) by { FitsLaws(os[0], os[0], os[0]); }
    } else {
      var init := os[..|os| - 1];
      FirstMisfitIsNone(init);
      assert forall i :: 0 <= i < |init| ==> init[i] == os[i];
      assert Fits(os[0], last) <==> Misfit(os[0].identity, last.identity).None?;
    }
  }

  lemma FitsLaws(a: Observation, b: Observation, c: Observation)
    ensures Fits(a, a)
    ensures Fits(a, b) ==> Fits(b, a)
    ensures Fits(a, b) && Fits(b, c) ==> Fits(a, c)
  {
  }

  lemma FirstMisfitExactly(os: seq<Observation>)
    requires os != []
    ensures FirstMisfit(os).None? <==> OneDeployment(os)
  {
    hide Fits, FirstMisfit;
    FirstMisfitIsNone(os);
    if FirstMisfit(os).None? {
      forall a, b | a in os && b in os ensures Fits(a, b) {
        var i :| 0 <= i < |os| && os[i] == a;
        var j :| 0 <= j < |os| && os[j] == b;
        assert Fits(os[0], os[i]) && Fits(os[0], os[j]);
        FitsLaws(os[0], a, b);
        FitsLaws(a, os[0], b);
      }
    }
  }

  lemma SessionsSnoc(os: seq<Observation>, o: Observation)
    ensures SessionsOf(os + [o]) == SessionsOf(os) + {o.identity.session}
  {
    var all := os + [o];
    assert forall x :: x in all <==> x in os || x == o;
    forall n ensures n in SessionsOf(all) <==> n in SessionsOf(os) + {o.identity.session} {
      if n == o.identity.session {
        assert o in all;
      }
    }
  }

  lemma ApartSnoc(os: seq<Observation>, o: Observation)
    ensures SessionsApart(os + [o]) <==> SessionsApart(os) && o.identity.session !in SessionsOf(os)
  {
    var all := os + [o];
    assert all[|os|] == o && forall i :: 0 <= i < |os| ==> all[i] == os[i];
    if o.identity.session in SessionsOf(os) {
      var p :| p in os && p.identity.session == o.identity.session;
      var k :| 0 <= k < |os| && os[k] == p;
      assert all[k].identity.session == all[|os|].identity.session;
    } else {
      forall i | 0 <= i < |os| ensures all[i].identity.session != o.identity.session {
        assert os[i] in os;
      }
      assert SessionsApart(all) ==>
        forall i, j :: 0 <= i < j < |os| ==> all[i].identity.session != all[j].identity.session;
    }
  }

  lemma {:induction false} DistinctExactly(os: seq<Observation>)
    ensures |SessionsOf(os)| <= |os|
    ensures DistinctSessions(os) <==> SessionsApart(os)
  {
    hide SessionsOf, SessionsApart;
    if os == [] {
      assert SessionsOf(os) == {} by { NoSessions(); }
      assert SessionsApart(os) by { NoSessions(); }
    } else {
      var init, last := os[..|os| - 1], os[|os| - 1];
      assert os == init + [last];
      DistinctExactly(init);
      SessionsSnoc(init, last);
      ApartSnoc(init, last);
      var n := last.identity.session;
      if n in SessionsOf(init) {
        assert SessionsOf(init) + {n} == SessionsOf(init);
      }
    }
  }

  lemma NoSessions()
    ensures SessionsOf([]) == {} && SessionsApart([])
  {
  }

  lemma {:induction false} LatestIsLatest(os: seq<Observation>)
    requires os != []
    ensures Latest(os) in os
    ensures forall o :: o in os ==> o.identity.session <= Latest(os).identity.session
  {
    if |os| > 1 {
      var init := os[..|os| - 1];
      LatestIsLatest(init);
      assert os == init + [os[|os| - 1]];
    }
  }

  lemma LatestIsUnique(os: seq<Observation>, o: Observation)
    requires os != [] && SessionsApart(os)
    requires o in os && forall p :: p in os ==> p.identity.session <= o.identity.session
    ensures o == Latest(os)
  {
    hide Latest;
    LatestIsLatest(os);
    var i :| 0 <= i < |os| && os[i] == o;
    var j :| 0 <= j < |os| && os[j] == Latest(os);
    assert o.identity.session == Latest(os).identity.session;
  }

  /** Aggregation succeeds exactly on one deployment's observations of distinct sessions. */
  lemma AggregatesExactly(os: seq<Observation>)
    requires AllTallied(os)
    ensures Aggregated(os).Ok? <==> os != [] && OneDeployment(os) && SessionsApart(os)
    ensures Aggregated(os) == Err(DuplicateSessions) <==>
            os != [] && OneDeployment(os) && !SessionsApart(os)
  {
    hide Total, Report, Latest;
    if os != [] {
      FirstMisfitExactly(os);
      DistinctExactly(os);
      MisfitIsMixed(os);
    }
  }

  lemma {:induction false} MisfitIsMixed(os: seq<Observation>)
    requires os != []
    ensures FirstMisfit(os) in [None, Some(MixedStages), Some(MixedIdentity)]
  {
    if |os| > 1 {
      MisfitIsMixed(os[..|os| - 1]);
    }
  }

  /** The order in which observations arrive matters to no value of the aggregate. */
  lemma AggregatePermutes(xs: seq<Observation>, ys: seq<Observation>)
    requires multiset(xs) == multiset(ys) && AllTallied(xs)
    ensures AllTallied(ys)
    ensures Aggregated(xs).Ok? <==> Aggregated(ys).Ok?
    ensures Aggregated(xs).Ok? ==> Aggregated(ys) == Aggregated(xs)
    ensures Aggregated(xs) == Err(DuplicateSessions) <==> Aggregated(ys) == Err(DuplicateSessions)
  {
    hide Total, Report, Latest, FirstMisfit, Fits, AllTallied;
    PermutedMembers(xs, ys);
    TotalPermutes(xs, ys);
    AggregatesExactly(xs);
    AggregatesExactly(ys);
    SessionsPermute(xs, ys);
    assert |xs| == |multiset(xs)| == |ys|;
    if Aggregated(xs).Ok? {
      LatestIsLatest(ys);
      LatestIsUnique(xs, Latest(ys));
      assert Fits(xs[0], ys[0]);
      FitsMeansStage(xs[0], ys[0]);
      assert Aggregated(ys).Ok?;
    }
  }

  lemma FitsMeansStage(a: Observation, b: Observation)
    requires Fits(a, b)
    ensures a.identity.stage == b.identity.stage
  {
  }

  lemma SessionsPermute(xs: seq<Observation>, ys: seq<Observation>)
    requires multiset(xs) == multiset(ys)
    ensures SessionsApart(xs) <==> SessionsApart(ys)
  {
    PermutedMembers(xs, ys);
    DistinctExactly(xs);
    DistinctExactly(ys);
    assert SessionsOf(xs) == SessionsOf(ys);
    assert |xs| == |multiset(xs)| == |ys|;
  }

  // ---------------------------------------------------------------- bounds and meaning

  /** Errors are weighed non-negatively and none exceeds the largest. */
  predicate Bounded(e: Errors) {
    && 0.0 <= e.max
    && 0.0 <= e.sum <= e.count as real * e.max
    && 0.0 <= e.notional
    && 0.0 <= e.weighted <= e.notional * e.max
  }

  lemma Scaled(x: real, a: real, b: real)
    requires 0.0 <= x && a <= b
    ensures x * a <= x * b
  {
  }

  lemma SumWithin(x: real, a: real, s: real, y: real, b: real, t: real, m: real)
    requires 0.0 <= x && 0.0 <= s <= x * a && a <= m
    requires 0.0 <= y && 0.0 <= t <= y * b && b <= m
    ensures 0.0 <= s + t <= (x + y) * m
  {
    Scaled(x, a, m);
    Scaled(y, b, m);
    Distribute(x, y, m);
    assert s <= x * m && t <= y * m;
  }

  lemma Distribute(x: real, y: real, m: real)
    ensures (x + y) * m == x * m + y * m
  {
  }

  lemma AddBounded(a: Errors, b: Errors)
    requires Bounded(a) && Bounded(b)
    ensures Bounded(AddErrors(a, b))
  {
    var m := Max(a.max, b.max);
    SumWithin(a.count as real, a.max, a.sum, b.count as real, b.max, b.sum, m);
    SumWithin(a.notional, a.max, a.weighted, b.notional, b.max, b.weighted, m);
  }

  lemma TargetBounded(o: Observation, t: Target)
    requires Value(o.equity) > 0.0 && ValidTarget(t)
    ensures Bounded(OfTarget(o, t))
  {
    hide Value, CanonicalText, SharesOf;
    var e, n := TrackingError(o, t), SymbolNotional(o, t);
    Scaled(t.shares as real, 0.0, Value(t.reference));
    Scaled(e, 0.0, n);
  }

  lemma {:induction false} TargetsBounded(o: Observation, ts: seq<Target>)
    requires Value(o.equity) > 0.0 && forall i :: 0 <= i < |ts| ==> ValidTarget(ts[i])
    ensures Bounded(OfTargets(o, ts))
  {
    hide Value, ValidTarget, AddErrors, OfTarget;
    if ts != [] {
      hide Bounded;
      var init, last := ts[..|ts| - 1], ts[|ts| - 1];
      TargetsBounded(o, init);
      TargetBounded(o, last);
      AddBounded(OfTargets(o, init), OfTarget(o, last));
    }
  }

  lemma {:induction false} TotalBounded(os: seq<Observation>)
    requires AllValid(os) && AllTallied(os)
    ensures Bounded(Total(os).errors)
  {
    hide Valid, Tallied, OfTargets, AddErrors;
    if os != [] {
      hide Bounded;
      var init, last := os[..|os| - 1], os[|os| - 1];
      assert Valid(last) && Tallied(last);
      TotalBounded(init);
      ValidTargets(last);
      TargetsBounded(last, last.targets);
      AddBounded(Total(init).errors, OfTargets(last, last.targets));
    }
  }

  lemma ValidTargets(o: Observation)
    requires Valid(o)
    ensures Value(o.equity) > 0.0 && forall i :: 0 <= i < |o.targets| ==> ValidTarget(o.targets[i])
  {
    hide ValidTarget, Value;
  }

  lemma RatioBounded(a: real, b: real, m: real)
    requires 0.0 <= a <= b * m && 0.0 <= b && 0.0 <= m
    ensures 0.0 <= Ratio(a, b) <= m
  {
    if b != 0.0 {
      var q := a / b;
      assert q * b == a;
      if q > m {
        Scaled(b, m, q);
        assert b * m == a && b * q == a;
        assert b * (q - m) == 0.0;
      }
    }
  }

  /** Both averages lie between zero and the largest error. */
  lemma MeansWithinMaximum(os: seq<Observation>)
    requires AllValid(os) && AllTallied(os) && Aggregated(os).Ok?
    ensures var a := Aggregated(os).value;
      0.0 <= a.mean <= a.maximum && 0.0 <= a.weighted <= a.maximum
  {
    hide Total, Latest, FirstMisfit, Valid, Tallied, AllValid, AllTallied;
    TotalBounded(os);
    var e := Total(os).errors;
    RatioBounded(e.sum, e.count as real, e.max);
    RatioBounded(e.weighted, e.notional, e.max);
  }

  /** What joins adds up, and the parts of an acceptable whole are acceptable. */
  lemma AggregateAdds(xs: seq<Observation>, ys: seq<Observation>)
    requires AllTallied(xs) && AllTallied(ys) && AllTallied(xs + ys)
    requires xs != [] && ys != [] && Aggregated(xs + ys).Ok?
    ensures Aggregated(xs).Ok? && Aggregated(ys).Ok?
    ensures var (a, b, c) := (Aggregated(xs).value, Aggregated(ys).value, Aggregated(xs + ys).value);
      && c.sessions == a.sessions + b.sessions && c.orders == a.orders + b.orders
      && c.fills == a.fills + b.fills && c.counts == AddCounts(a.counts, b.counts)
      && c.partials == a.partials + b.partials && c.blockers == a.blockers + b.blockers
      && c.unfilled == a.unfilled + b.unfilled && c.commissions == a.commissions + b.commissions
      && c.stampDuty == a.stampDuty + b.stampDuty
      && c.transferFees == a.transferFees + b.transferFees && c.slippage == a.slippage + b.slippage
      && c.maximum == Max(a.maximum, b.maximum)
      && c.stage == a.stage == b.stage
      && c.latestSession == if a.latestSession > b.latestSession then a.latestSession else b.latestSession
  {
    hide Total, Latest, FirstMisfit, Fits, AllTallied;
    var all := xs + ys;
    AggregatesExactly(all);
    AggregatesExactly(xs);
    AggregatesExactly(ys);
    ApartParts(xs, ys);
    assert forall o :: o in xs || o in ys ==> o in all;
    assert xs[0] in all && ys[0] in all && all[0] == xs[0];
    assert OneDeployment(xs) && OneDeployment(ys);
    assert Fits(xs[0], ys[0]);
    FitsMeansStage(xs[0], ys[0]);
    TotalOfJoined(xs, ys);
    LatestIsLatest(xs);
    LatestIsLatest(ys);
    LatestIsLatest(all);
  }

  lemma ApartParts(xs: seq<Observation>, ys: seq<Observation>)
    requires SessionsApart(xs + ys)
    ensures SessionsApart(xs) && SessionsApart(ys)
  {
    var all := xs + ys;
    assert forall i :: 0 <= i < |xs| ==> all[i] == xs[i];
    forall i, j | 0 <= i < j < |ys| ensures ys[i].identity.session != ys[j].identity.session {
      assert all[|xs| + i] == ys[i] && all[|xs| + j] == ys[j];
    }
  }

  // ----------------------------------------------------------- what the sums stand for

  predicate ErrorsWithin(o: Observation, limit: real)
    requires Value(o.equity) > 0.0
  {
    forall i :: 0 <= i < |o.targets| ==> TrackingError(o, o.targets[i]) <= limit
  }

  lemma {:induction false} TargetsMaximum(o: Observation, ts: seq<Target>, limit: real)
    requires Value(o.equity) > 0.0 && 0.0 <= limit
    ensures OfTargets(o, ts).max <= limit <==>
            forall i :: 0 <= i < |ts| ==> TrackingError(o, ts[i]) <= limit
  {
    hide Value, TrackingError;
    if ts != [] {
      var init := ts[..|ts| - 1];
      TargetsMaximum(o, init, limit);
      assert forall i :: 0 <= i < |init| ==> init[i] == ts[i];
    }
  }

  lemma ObservationMaximum(o: Observation, limit: real)
    requires Tallied(o) && 0.0 <= limit
    ensures OfObservation(o).errors.max <= limit <==> ErrorsWithin(o, limit)
  {
    hide TrackingError, Value;
    TargetsMaximum(o, o.targets, limit);
  }

  /** The largest error is within a limit exactly when every target's error is. */
  lemma {:induction false} MaximumExactly(os: seq<Observation>, limit: real)
    requires AllTallied(os) && 0.0 <= limit
    ensures Total(os).errors.max <= limit <==> forall i :: 0 <= i < |os| ==> ErrorsWithin(os[i], limit)
  {
    hide ErrorsWithin, Tallied, OfObservation;
    if os != [] {
      var init, last := os[..|os| - 1], os[|os| - 1];
      assert forall i :: 0 <= i < |init| ==> init[i] == os[i];
      MaximumExactly(init, limit);
      assert Tallied(last);
      ObservationMaximum(last, limit);
    }
  }

  predicate CleanCounts(c: Counts) {
    c.unknowns == 0 && c.external == 0 && c.duplicateOrders == 0 && c.duplicateFills == 0 && c.dataFailures == 0
  }

  predicate QualifiedCleanliness(a: Aggregate) { CleanCounts(a.counts) }

  /** The evidence is clean exactly when every session's is, and unrejected likewise. */
  lemma {:induction false} CleanExactly(os: seq<Observation>)
    requires AllTallied(os)
    ensures Total(os).sessions == |os|
    ensures CleanCounts(Total(os).counts) <==> forall i :: 0 <= i < |os| ==> CleanCounts(os[i].counts)
    ensures Total(os).counts.rejections == 0 <==>
            forall i :: 0 <= i < |os| ==> os[i].counts.rejections == 0
  {
    hide Tallied, OfTargets, OfOrders, OfFills;
    if os != [] {
      var init, last := os[..|os| - 1], os[|os| - 1];
      assert forall i :: 0 <= i < |init| ==> init[i] == os[i];
      CleanExactly(init);
      assert Tallied(last) && OfObservation(last).counts == last.counts;
    }
  }
}
