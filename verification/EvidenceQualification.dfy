/** What holds of every store written only by appending. */
module EvidenceQualification {
  import opened Wrappers
  import opened DecimalText
  import opened EvidenceFacts
  import opened EvidenceCodec
  import opened EvidenceRoundTrip
  import opened EvidenceTally
  import opened EvidenceAggregate
  import opened EvidenceStore

  predicate Written(row: Row) {
    var o := DecodeObservation(row.payload);
    o.Some? && row.payload == Payload(o.value) && row.key == KeyOf(o.value.identity)
  }

  predicate KeysApart(rows: seq<Row>) {
    forall i, j :: 0 <= i < j < |rows| ==> rows[i].key != rows[j].key
  }

  predicate WellStored(rows: seq<Row>) {
    KeysApart(rows) && forall i :: 0 <= i < |rows| ==> Written(rows[i])
  }

  // ------------------------------------------------------------------------- appending

  lemma PayloadIsWritten(o: Observation)
    requires Valid(o)
    ensures Written(Row(KeyOf(o.identity), Payload(o)))
    ensures DecodeObservation(Payload(o)) == Some(FixedObservation(o))
  {
    hide DecodeObservation, Payload, Valid;
    ObservationRoundTrip(o);
  }

  lemma AppendKeeps(rows: seq<Row>, o: Observation)
    requires WellStored(rows) && Valid(o)
    ensures WellStored(Appended(rows, o).0)
  {
    hide Written, Payload, SameContent, Valid, KeyOf;
    PayloadIsWritten(o);
    hide WellStored;
    if Find(rows, KeyOf(o.identity)).None? {
      WellStoredSnoc(rows, Row(KeyOf(o.identity), Payload(o)));
    }
  }

  lemma WellStoredSnoc(rows: seq<Row>, row: Row)
    requires WellStored(rows) && Written(row)
    requires forall i :: 0 <= i < |rows| ==> rows[i].key != row.key
    ensures WellStored(rows + [row])
  {
    hide Written;
  }

  lemma {:induction false} AppendAllKeeps(rows: seq<Row>, os: seq<Observation>)
    requires WellStored(rows) && AllValid(os)
    ensures WellStored(AppendAll(rows, os))
  {
    hide Appended, WellStored, Valid;
    if os != [] {
      AppendAllKeeps(rows, os[..|os| - 1]);
      assert Valid(os[|os| - 1]);
      AppendKeeps(AppendAll(rows, os[..|os| - 1]), os[|os| - 1]);
    }
  }

  lemma DigestOfPayload(p: Observation, o: Observation)
    ensures SameContent(Payload(p), o) <==> ContentFields(p) == ContentFields(o)
  {
    hide ContentFields;
  }

  /** Equal contents are one observation, but for when it was made and how its decimals
      are written. */
  lemma ContentIsFaithful(o: Observation, p: Observation)
    requires Valid(o) && Valid(p)
    ensures ContentFields(p) == ContentFields(o) <==>
            FixedObservation(p.(created := o.created)) == FixedObservation(o)
  {
    hide DecodeObservation, ContentFields, Members, Whole;
    var q := p.(created := o.created);
    SameButCreated(p, o.created);
    ObservationRoundTrip(o);
    ObservationRoundTrip(q);
    FixedContent(o);
    FixedContent(q);
  }

  lemma SameButCreated(p: Observation, created: string)
    requires Valid(p) && Trimmed(created)
    ensures Valid(p.(created := created)) && ContentFields(p.(created := created)) == ContentFields(p)
  {
    hide Members, Whole, ContentFields, Value, CanonicalText;
    SameParts(p, created);
  }

  lemma SameParts(p: Observation, created: string)
    requires Members(p) && Whole(p)
    ensures var q := p.(created := created);
      Members(q) && Whole(q) && ContentFields(q) == ContentFields(p)
  {
    hide ValidOrder, ValidBlocker, ValidTarget, ValidFill, ValidPosition, Distinct, TargetSymbols,
      PositionSymbols, ExecutionIds, DistinctFillIds, StageConsistent, IdentityPayload, Map, Ending;
    SameStage(p, created);
  }

  lemma SameStage(p: Observation, created: string)
    ensures StageConsistent(p.(created := created)) == StageConsistent(p)
    ensures Ending(p.(created := created)) == Ending(p)
  {
  }

  /** An append adds exactly what is new under its key, and is refused exactly where the
      key holds another content. */
  lemma AppendExactly(rows: seq<Row>, o: Observation)
    requires WellStored(rows) && Valid(o)
    ensures var (after, r) := Appended(rows, o);
      && (r == Ok(true) <==> forall i :: 0 <= i < |rows| ==> rows[i].key != KeyOf(o.identity))
      && (r == Ok(true) ==> after == rows + [Row(KeyOf(o.identity), Payload(o))])
      && (r != Ok(true) ==> after == rows)
      && (r == Err(Conflict) <==>
            exists i :: 0 <= i < |rows| && rows[i].key == KeyOf(o.identity)
              && ContentFields(DecodeObservation(rows[i].payload).value) != ContentFields(o))
      && (r.Ok? ==> Appended(after, o) == (after, Ok(false)))
  {
    hide DecodeObservation, Payload, ContentFields, Valid, SameContent;
    var key, found := KeyOf(o.identity), Find(rows, KeyOf(o.identity));
    DigestOfPayload(o, o);
    if found.Some? {
      var k :| 0 <= k < |rows| && rows[k] == Row(key, found.value);
      var p := DecodeObservation(rows[k].payload).value;
      assert Written(rows[k]);
      DigestOfPayload(p, o);
      forall i | 0 <= i < |rows| && i != k ensures rows[i].key != key {
        assert if i < k then rows[i].key != rows[k].key else rows[k].key != rows[i].key;
      }
    } else {
      var after := rows + [Row(key, Payload(o))];
      assert Find(after, key) == Some(Payload(o));
    }
  }

  // ------------------------------------------------------------------------ selecting

  predicate OfDeployment(os: seq<Observation>, d: Deployment) {
    forall o :: o in os ==> Concerns(d, o.identity)
  }

  predicate Kept(rows: seq<Row>, o: Observation) {
    exists i :: 0 <= i < |rows| && rows[i].key == KeyOf(o.identity)
  }

  lemma KeptInLonger(init: seq<Row>, row: Row, os: seq<Observation>)
    requires forall o :: o in os ==> Kept(init, o)
    ensures forall o :: o in os ==> Kept(init + [row], o)
  {
    forall o | o in os ensures Kept(init + [row], o) {
      assert Kept(init, o);
      var i :| 0 <= i < |init| && init[i].key == KeyOf(o.identity);
      assert (init + [row])[i].key == KeyOf(o.identity);
    }
  }

  lemma KeyTellsSession(rows: seq<Row>, d: Deployment, os: seq<Observation>, last: Observation)
    requires rows != [] && KeysApart(rows) && rows[|rows| - 1].key == KeyOf(last.identity)
    requires OfDeployment(os, d) && Concerns(d, last.identity)
    requires forall o :: o in os ==> Kept(rows[..|rows| - 1], o)
    ensures last.identity.session !in SessionsOf(os)
  {
    forall o | o in os ensures o.identity.session != last.identity.session {
      assert Kept(rows[..|rows| - 1], o) && Concerns(d, o.identity);
      var i :| 0 <= i < |rows| - 1 && rows[..|rows| - 1][i].key == KeyOf(o.identity);
      assert rows[i].key != rows[|rows| - 1].key;
    }
  }

  /** A store written by appending is read without failure, and what it yields for a
      deployment is of one identity and of distinct sessions. */
  lemma {:induction false} SelectsExactly(rows: seq<Row>, d: Deployment)
    requires WellStored(rows)
    ensures Selected(rows, d).Ok?
    ensures var os := Selected(rows, d).value;
      OfDeployment(os, d) && SessionsApart(os) && forall o :: o in os ==> Kept(rows, o)
  {
    hide DecodeObservation, Payload, KeyOf, Concerns, SessionsApart, Kept;
    if rows == [] {
      NoSessions();
    } else {
      var init, row := rows[..|rows| - 1], rows[|rows| - 1];
      assert rows == init + [row];
      assert forall i :: 0 <= i < |init| ==> init[i] == rows[i];
      SelectsExactly(init, d);
      assert Written(row);
      var earlier, last := Selected(init, d).value, DecodeObservation(row.payload).value;
      KeptInLonger(init, row, earlier);
      if Concerns(d, last.identity) {
        KeyTellsSession(rows, d, earlier, last);
        ApartSnoc(earlier, last);
        LastIsKept(rows, last);
      }
    }
  }

  lemma LastIsKept(rows: seq<Row>, o: Observation)
    requires rows != [] && rows[|rows| - 1].key == KeyOf(o.identity)
    ensures Kept(rows, o)
  {
  }

  lemma DeploymentIsOne(os: seq<Observation>, d: Deployment)
    requires OfDeployment(os, d)
    ensures OneDeployment(os)
  {
    forall a, b | a in os && b in os ensures Fits(a, b) {
      assert Concerns(d, a.identity) && Concerns(d, b.identity);
    }
  }

  /** Over a store written by appending, aggregation never fails: it is empty exactly
      where the deployment has no observation. */
  lemma StoredAggregates(rows: seq<Row>, d: Deployment)
    requires WellStored(rows)
    ensures AggregateOf(rows, d).Ok?
    ensures AggregateOf(rows, d).value.None? <==> Selected(rows, d) == Ok([])
    ensures AllValid(Selected(rows, d).value) && AllTallied(Selected(rows, d).value)
  {
    hide Selected, WellStored, SessionsApart, Fits, AllValid, AllTallied;
    SelectsExactly(rows, d);
    SelectedIsValid(rows, d);
    var os := Selected(rows, d).value;
    DeploymentIsOne(os, d);
    AggregatesExactly(os);
  }

  /** Whatever is appended to an empty store, in any order, with repeats and conflicts. */
  lemma AppendedStoreAggregates(os: seq<Observation>, d: Deployment)
    requires AllValid(os)
    ensures AggregateOf(AppendAll([], os), d).Ok?
  {
    hide AggregateOf, AllValid;
    AppendAllKeeps([], os);
    StoredAggregates(AppendAll([], os), d);
  }

  // ------------------------------------------------------------------- qualification

  /** One session that does not stand in the way. */
  predicate Passes(o: Observation, d: Deployment, limit: real)
    requires Tallied(o)
  {
    && CleanCounts(o.counts)
    && (d.stage.Canary? ==> o.counts.rejections == 0)
    && ErrorsWithin(o, limit)
  }

  predicate AllPass(os: seq<Observation>, d: Deployment, limit: real)
    requires AllTallied(os)
  {
    forall i :: 0 <= i < |os| ==> Passes(os[i], d, limit)
  }

  /** What disqualifies whatever else is seen. */
  predicate Disqualifies(a: Aggregate, d: Deployment, limit: real) {
    !QualifiedCleanliness(a) || a.maximum > limit || (d.stage.Canary? && a.counts.rejections != 0)
  }

  function OrdersIn(os: seq<Observation>): nat {
    if os == [] then 0 else OrdersIn(os[..|os| - 1]) + |os[|os| - 1].orders|
  }

  function FillsIn(os: seq<Observation>): nat {
    if os == [] then 0 else FillsIn(os[..|os| - 1]) + |os[|os| - 1].fills|
  }

  lemma {:induction false} CountsExactly(os: seq<Observation>)
    requires AllTallied(os)
    ensures Total(os).shortfall.orders == OrdersIn(os) && Total(os).costs.fills == FillsIn(os)
  {
    hide Tallied, OfTargets;
    if os != [] {
      assert Tallied(os[|os| - 1]);
      CountsExactly(os[..|os| - 1]);
    }
  }

  lemma PassesExactly(os: seq<Observation>, d: Deployment, limit: real)
    requires AllValid(os) && AllTallied(os) && Aggregated(os).Ok?
    ensures !Disqualifies(Aggregated(os).value, d, limit) <==> 0.0 <= limit && AllPass(os, d, limit)
  {
    hide Total, ErrorsWithin, AllValid, FirstMisfit, Latest;
    TotalBounded(os);
    CleanExactly(os);
    if 0.0 <= limit {
      MaximumExactly(os, limit);
    }
  }

  /** A deployment qualifies exactly when enough was seen of it and every session it was
      seen in passes. */
  lemma QualifiesExactly(rows: seq<Row>, d: Deployment, bar: Bar)
    requires WellStored(rows)
    ensures Selected(rows, d).Ok? && AllTallied(Selected(rows, d).value)
    ensures var os := Selected(rows, d).value;
      Qualified(rows, d, bar) == Ok(
        && os != [] && |os| >= bar.sessions && OrdersIn(os) >= bar.orders && FillsIn(os) >= bar.fills
        && 0.0 <= bar.error && AllPass(os, d, bar.error))
  {
    hide Selected, WellStored, AllPass, Total, AllValid, AllTallied, Latest, FirstMisfit;
    SelectsExactly(rows, d);
    StoredAggregates(rows, d);
    var os := Selected(rows, d).value;
    if os != [] {
      CountsExactly(os);
      CleanExactly(os);
      PassesExactly(os, d, bar.error);
    }
  }

  lemma SelectedGrows(rows: seq<Row>, o: Observation, d: Deployment)
    requires WellStored(rows) && Valid(o)
    ensures Selected(rows, d).Ok? && Selected(Appended(rows, o).0, d).Ok?
    ensures var (before, after) := (Selected(rows, d).value, Selected(Appended(rows, o).0, d).value);
      after == before ||
      (after == before + [FixedObservation(o)] && Concerns(d, FixedObservation(o).identity))
  {
    hide WellStored, DecodeObservation, Payload, SameContent, Find, Valid, KeyOf;
    SelectsExactly(rows, d);
    PayloadIsWritten(o);
    var more := rows + [Row(KeyOf(o.identity), Payload(o))];
    assert more[..|rows|] == rows;
  }

  lemma {:induction false} SelectedOnlyGrows(rows: seq<Row>, os: seq<Observation>, d: Deployment)
    requires WellStored(rows) && AllValid(os)
    ensures Selected(rows, d).Ok? && Selected(AppendAll(rows, os), d).Ok?
    ensures Selected(rows, d).value <= Selected(AppendAll(rows, os), d).value
  {
    hide WellStored, Valid, Selected, Appended;
    SelectsExactly(rows, d);
    if os != [] {
      var init, last := os[..|os| - 1], os[|os| - 1];
      assert Valid(last);
      SelectedOnlyGrows(rows, init, d);
      AppendAllKeeps(rows, init);
      SelectedGrows(AppendAll(rows, init), last, d);
    }
  }

  /** Disqualification is permanent: no later sessions, of any deployment, undo it. */
  lemma DisqualifiedForGood(rows: seq<Row>, os: seq<Observation>, d: Deployment, bar: Bar)
    requires WellStored(rows) && AllValid(os)
    requires AggregateOf(rows, d).Ok? && AggregateOf(rows, d).value.Some?
    requires Disqualifies(AggregateOf(rows, d).value.value, d, bar.error)
    ensures Qualified(AppendAll(rows, os), d, bar) == Ok(false)
  {
    hide WellStored, Selected, AppendAll, Disqualifies, Passes, AllValid, AllTallied, Qualified;
    StoredAggregates(rows, d);
    AppendAllKeeps(rows, os);
    SelectedOnlyGrows(rows, os, d);
    var before, after := Selected(rows, d).value, Selected(AppendAll(rows, os), d).value;
    PassesExactly(before, d, bar.error);
    QualifiesExactly(AppendAll(rows, os), d, bar);
    PassPrefix(before, after, d, bar.error);
  }

  lemma PassPrefix(before: seq<Observation>, after: seq<Observation>, d: Deployment, limit: real)
    requires before <= after && AllTallied(before) && AllTallied(after)
    ensures AllPass(after, d, limit) ==> AllPass(before, d, limit)
  {
    hide Passes, Tallied;
    forall i | 0 <= i < |before| && AllPass(after, d, limit) ensures Passes(before[i], d, limit) {
      assert before[i] == after[i];
    }
  }

  // ------------------------------------------------ what is stored means what was given

  lemma SameValue(d: Decimal)
    ensures Value(Fixed(d)) == Value(d)
  {
    hide Value, Fixed, DecimalJson, AsDecimal;
    DecimalRoundTrip(d);
  }

  lemma SameNotional(o: Observation, t: Target)
    ensures ActualNotional(FixedObservation(o), FixedTarget(t)) == ActualNotional(o, t)
    ensures SymbolNotional(FixedObservation(o), FixedTarget(t)) == SymbolNotional(o, t)
  {
    hide Value, Fixed, SharesOf, Max, Notional;
    SameValue(t.reference);
    assert Ending(FixedObservation(o)) == Ending(o);
  }

  lemma SameTarget(o: Observation, t: Target)
    requires Value(o.equity) > 0.0
    ensures Value(FixedObservation(o).equity) > 0.0
    ensures OfTarget(FixedObservation(o), FixedTarget(t)) == OfTarget(o, t)
  {
    hide Value, Fixed, ActualNotional, SymbolNotional, Deviation, Map;
    SameValue(o.equity);
    SameValue(t.weight);
    SameNotional(o, t);
    assert TrackingError(FixedObservation(o), FixedTarget(t)) == TrackingError(o, t);
    hide TrackingError;
  }

  lemma {:induction false} SameTargets(o: Observation, ts: seq<Target>)
    requires Value(o.equity) > 0.0
    ensures Value(FixedObservation(o).equity) > 0.0
    ensures OfTargets(FixedObservation(o), Map(ts, FixedTarget)) == OfTargets(o, ts)
  {
    hide Value, OfTarget, AddErrors, FixedTarget, FixedObservation;
    if ts == [] {
      SameEquity(o);
    } else {
      var init, last := ts[..|ts| - 1], ts[|ts| - 1];
      SameTargets(o, init);
      SameTarget(o, last);
      assert Map(ts, FixedTarget)[..|init|] == Map(init, FixedTarget);
    }
  }

  lemma SameEquity(o: Observation)
    ensures Value(FixedObservation(o).equity) == Value(o.equity)
  {
    hide Value, Fixed;
    SameValue(o.equity);
  }

  lemma SameOrder(o: Order)
    ensures OfOrder(FixedOrder(o)) == OfOrder(o)
  {
    hide Value, Fixed, Notional;
    SameValue(o.reference);
  }

  lemma {:induction false} SameOrders(os: seq<Order>)
    ensures OfOrders(Map(os, FixedOrder)) == OfOrders(os)
  {
    hide OfOrder, FixedOrder, AddShortfall;
    if os != [] {
      var init, last := os[..|os| - 1], os[|os| - 1];
      SameOrders(init);
      SameOrder(last);
      assert Map(os, FixedOrder)[..|init|] == Map(init, FixedOrder);
    }
  }

  lemma {:induction false} SameFills(fs: seq<Fill>)
    ensures OfFills(Map(fs, FixedFill)) == OfFills(fs)
  {
    hide Value, Fixed;
    if fs != [] {
      var init, last := fs[..|fs| - 1], fs[|fs| - 1];
      SameFills(init);
      SameValue(last.commission);
      SameValue(last.stampDuty);
      SameValue(last.transferFee);
      SameValue(last.slippage);
      assert Map(fs, FixedFill)[..|init|] == Map(init, FixedFill);
      assert OfFill(FixedFill(last)) == OfFill(last);
    }
  }

  /** Nothing that is summed depends on how a decimal was written. */
  lemma SameTally(o: Observation)
    requires Tallied(o)
    ensures Tallied(FixedObservation(o)) && OfObservation(FixedObservation(o)) == OfObservation(o)
  {
    hide Value, OfTargets, OfOrders, OfFills, Map;
    SameTargets(o, o.targets);
    SameOrders(o.orders);
    SameFills(o.fills);
  }

  lemma SamePasses(o: Observation, d: Deployment, limit: real)
    requires Tallied(o) && Tallied(FixedObservation(o)) && 0.0 <= limit
    ensures Passes(FixedObservation(o), d, limit) <==> Passes(o, d, limit)
  {
    hide Tallied, OfObservation, ErrorsWithin;
    SameTally(o);
    ObservationMaximum(o, limit);
    ObservationMaximum(FixedObservation(o), limit);
  }

  /** Only a session that does not pass can cost a deployment its qualification. */
  lemma {:induction false} QualifiedUntilAFailure(rows: seq<Row>, os: seq<Observation>, d: Deployment, bar: Bar)
    requires WellStored(rows) && AllValid(os) && AllTallied(os)
    requires Qualified(rows, d, bar) == Ok(true)
    requires forall o :: o in os && Concerns(d, o.identity) ==> Passes(o, d, bar.error)
    ensures Qualified(AppendAll(rows, os), d, bar) == Ok(true)
  {
    hide WellStored, Valid, Tallied, Selected, Appended, Passes, Qualified, FixedObservation;
    if os != [] {
      var init, last := os[..|os| - 1], os[|os| - 1];
      assert Valid(last) && Tallied(last) && last in os;
      assert forall i :: 0 <= i < |init| ==> init[i] == os[i];
      QualifiedUntilAFailure(rows, init, d, bar);
      AppendAllKeeps(rows, init);
      QualifiedPastOne(AppendAll(rows, init), last, d, bar);
    }
  }

  lemma QualifiedPastOne(rows: seq<Row>, o: Observation, d: Deployment, bar: Bar)
    requires WellStored(rows) && Valid(o) && Tallied(o) && Qualified(rows, d, bar) == Ok(true)
    requires Concerns(d, o.identity) ==> Passes(o, d, bar.error)
    ensures Qualified(Appended(rows, o).0, d, bar) == Ok(true)
  {
    hide WellStored, Valid, Tallied, Selected, Appended, Passes, Qualified, AllPass;
    AppendKeeps(rows, o);
    QualifiesExactly(rows, d, bar);
    QualifiesExactly(Appended(rows, o).0, d, bar);
    SelectedGrows(rows, o, d);
    var before, after := Selected(rows, d).value, Selected(Appended(rows, o).0, d).value;
    if after != before {
      assert Concerns(d, o.identity) by { SameIdentityKept(o); }
      SameTally(o);
      SamePasses(o, d, bar.error);
      PassSnoc(before, FixedObservation(o), d, bar.error);
      CountsSnoc(before, FixedObservation(o));
    }
  }

  lemma SameIdentityKept(o: Observation)
    ensures FixedObservation(o).identity == o.identity
  {
  }

  lemma PassSnoc(os: seq<Observation>, o: Observation, d: Deployment, limit: real)
    requires AllTallied(os) && Tallied(o) && AllPass(os, d, limit) && Passes(o, d, limit)
    ensures AllTallied(os + [o]) && AllPass(os + [o], d, limit)
  {
    hide Tallied, Passes;
    assert forall i :: 0 <= i < |os| ==> (os + [o])[i] == os[i];
  }

  lemma CountsSnoc(os: seq<Observation>, o: Observation)
    ensures OrdersIn(os + [o]) >= OrdersIn(os) && FillsIn(os + [o]) >= FillsIn(os)
  {
    assert (os + [o])[..|os|] == os;
  }

  // ------------------------------------------------------------------- order of arrival

  /** What a store fed these observations, all under different keys, yields. */
  function Picked(os: seq<Observation>, d: Deployment): seq<Observation> {
    if os == [] then []
    else
      var earlier, last := Picked(os[..|os| - 1], d), os[|os| - 1];
      if Concerns(d, last.identity) then earlier + [FixedObservation(last)] else earlier
  }

  function KeysOf(os: seq<Observation>): set<StableKey> {
    set o | o in os :: KeyOf(o.identity)
  }

  /** No two of them are under one key. */
  predicate KeysDiffer(os: seq<Observation>) { |KeysOf(os)| == |os| }

  lemma KeysSnoc(os: seq<Observation>, o: Observation)
    ensures KeysOf(os + [o]) == KeysOf(os) + {KeyOf(o.identity)}
  {
    hide KeyOf;
    var all := os + [o];
    assert forall x :: x in all <==> x in os || x == o;
    forall k ensures k in KeysOf(all) <==> k in KeysOf(os) + {KeyOf(o.identity)} {
      if k == KeyOf(o.identity) {
        assert o in all;
      }
    }
  }

  lemma {:induction false} KeysAreFew(os: seq<Observation>)
    ensures |KeysOf(os)| <= |os|
  {
    if os == [] {
      assert KeysOf(os) == {};
    } else {
      hide KeysOf;
      KeysAreFew(os[..|os| - 1]);
      KeysSnoc(os[..|os| - 1], os[|os| - 1]);
      assert os == os[..|os| - 1] + [os[|os| - 1]];
    }
  }

  predicate Holds(rows: seq<Row>, os: seq<Observation>) {
    |rows| == |os| && forall i :: 0 <= i < |os| ==> rows[i] == Row(KeyOf(os[i].identity), Payload(os[i]))
  }

  lemma {:induction false} AllAreStored(os: seq<Observation>)
    requires KeysDiffer(os)
    ensures Holds(AppendAll([], os), os)
  {
    hide Payload, KeyOf, SameContent, KeysOf;
    if os != [] {
      var init, last := os[..|os| - 1], os[|os| - 1];
      assert os == init + [last];
      KeysSnoc(init, last);
      KeysAreFew(init);
      assert KeyOf(last.identity) in KeysOf(init) ==> KeysOf(os) == KeysOf(init);
      AllAreStored(init);
      NewKey(AppendAll([], init), init, last);
    }
  }

  lemma NewKey(rows: seq<Row>, os: seq<Observation>, o: Observation)
    requires Holds(rows, os) && KeyOf(o.identity) !in KeysOf(os)
    ensures Find(rows, KeyOf(o.identity)).None?
  {
    hide Payload, KeyOf;
    forall i | 0 <= i < |rows| ensures rows[i].key != KeyOf(o.identity) {
      assert os[i] in os && KeyOf(os[i].identity) in KeysOf(os);
    }
  }

  lemma {:induction false} StoredIsPicked(rows: seq<Row>, os: seq<Observation>, d: Deployment)
    requires Holds(rows, os) && AllValid(os)
    ensures Selected(rows, d) == Ok(Picked(os, d))
  {
    hide Payload, KeyOf, DecodeObservation, Valid, FixedObservation;
    if os != [] {
      var init, last := os[..|os| - 1], os[|os| - 1];
      StoredIsPicked(rows[..|os| - 1], init, d);
      assert Valid(last) && rows[|os| - 1] == Row(KeyOf(last.identity), Payload(last));
      PayloadIsWritten(last);
      SameIdentityKept(last);
    }
  }

  lemma {:induction false} PickedJoins(front: seq<Observation>, back: seq<Observation>, d: Deployment)
    ensures Picked(front + back, d) == Picked(front, d) + Picked(back, d)
  {
    hide Concerns, FixedObservation;
    if back == [] {
      assert front + back == front;
    } else {
      PickedJoins(front, back[..|back| - 1], d);
      assert (front + back)[..|front + back| - 1] == front + back[..|back| - 1];
    }
  }

  lemma {:induction false} PickedPermutes(xs: seq<Observation>, ys: seq<Observation>, d: Deployment)
    requires multiset(xs) == multiset(ys)
    ensures multiset(Picked(xs, d)) == multiset(Picked(ys, d))
  {
    hide Concerns, FixedObservation, Picked;
    if xs == [] {
      assert |ys| == |multiset(ys)| == 0;
    } else {
      var init, last := xs[..|xs| - 1], xs[|xs| - 1];
      assert xs == init + [last];
      var front, back := TakeOut(init, last, ys);
      PickedPermutes(init, front + back, d);
      PickedJoins(init, [last], d);
      PickedJoins(front + [last], back, d);
      PickedJoins(front, [last], d);
      PickedJoins(front, back, d);
    }
  }

  /** Sessions stored under different keys may arrive in any order. */
  lemma ArrivalOrderIsForgotten(xs: seq<Observation>, ys: seq<Observation>, d: Deployment, bar: Bar)
    requires multiset(xs) == multiset(ys) && KeysDiffer(xs) && AllValid(xs)
    ensures AggregateOf(AppendAll([], ys), d) == AggregateOf(AppendAll([], xs), d)
    ensures Qualified(AppendAll([], ys), d, bar) == Qualified(AppendAll([], xs), d, bar)
  {
    hide Holds, AppendAll, Selected, Picked, AllTallied, Aggregated, AllValid, KeysDiffer;
    PermutedStores(xs, ys);
    AllAreStored(xs);
    AllAreStored(ys);
    StoredIsPicked(AppendAll([], xs), xs, d);
    StoredIsPicked(AppendAll([], ys), ys, d);
    PickedPermutes(xs, ys, d);
    AppendedStoreAggregates(xs, d);
    var a, b := Picked(xs, d), Picked(ys, d);
    SelectedIsValid(AppendAll([], xs), d);
    SelectedIsValid(AppendAll([], ys), d);
    assert |a| == |multiset(a)| == |b|;
    AggregatePermutes(a, b);
  }

  lemma PermutedStores(xs: seq<Observation>, ys: seq<Observation>)
    requires multiset(xs) == multiset(ys) && KeysDiffer(xs) && AllValid(xs)
    ensures KeysDiffer(ys) && AllValid(ys)
  {
    hide Valid, KeyOf;
    PermutedMembers(xs, ys);
    forall i | 0 <= i < |ys| ensures Valid(ys[i]) {
      assert ys[i] in xs;
    }
    assert KeysOf(xs) == KeysOf(ys);
    assert |xs| == |multiset(xs)| == |ys|;
  }
}
