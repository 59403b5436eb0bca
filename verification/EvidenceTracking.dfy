/** What a tracking error measures, said over an observation's own fields, and what that
    means for qualification. */
module EvidenceTracking {
  import opened Wrappers
  import opened DecimalText
  import opened EvidenceFacts
  import opened EvidenceCodec
  import opened EvidenceRoundTrip
  import opened EvidenceTally
  import opened EvidenceAggregate
  import opened EvidenceStore
  import opened EvidenceQualification

  // ------------------------------------------------------------------------ holdings

  /** The positions an observation is measured by: what would be held in SHADOW, what is
      held in CANARY. */
  function MeasuredBy(o: Observation): seq<Position> {
    match o.identity.stage
    case Shadow => o.hypothetical
    case Canary => o.actual
  }

  /** So many shares of a symbol are held: those of its entry, none without an entry. */
  predicate Holds(positions: seq<Position>, symbol: string, shares: nat) {
    || (exists i :: 0 <= i < |positions| && positions[i] == Position(symbol, shares))
    || (shares == 0 && forall i :: 0 <= i < |positions| ==> positions[i].symbol != symbol)
  }

  lemma {:induction false} SharesAreHeld(positions: seq<Position>, symbol: string)
    ensures Holds(positions, symbol, SharesOf(positions, symbol))
  {
    if positions != [] {
      var n := |positions| - 1;
      SharesAreHeld(positions[..n], symbol);
      assert forall i :: 0 <= i < n ==> positions[..n][i] == positions[i];
      if positions[n].symbol == symbol {
        assert positions[n] == Position(symbol, positions[n].shares);
      } else if exists i :: 0 <= i < n && positions[..n][i] == Position(symbol, SharesOf(positions, symbol)) {
        var i :| 0 <= i < n && positions[..n][i] == Position(symbol, SharesOf(positions, symbol));
        assert positions[i] == Position(symbol, SharesOf(positions, symbol));
      }
    }
  }

  lemma HeldOnce(positions: seq<Position>, symbol: string, a: nat, b: nat)
    requires Distinct(PositionSymbols(positions))
    requires Holds(positions, symbol, a) && Holds(positions, symbol, b)
    ensures a == b
  {
    forall i, j | 0 <= i < |positions| && 0 <= j < |positions|
      ensures positions[i].symbol == symbol && positions[j].symbol == symbol ==> i == j
    {
      assert PositionSymbols(positions)[i] == positions[i].symbol;
      assert PositionSymbols(positions)[j] == positions[j].symbol;
    }
  }

  /** An observation holds what its tally takes it to hold, and nothing else. */
  lemma HoldsExactly(o: Observation, symbol: string, shares: nat)
    requires Valid(o)
    ensures Holds(MeasuredBy(o), symbol, shares) <==> shares == SharesOf(Ending(o), symbol)
  {
    hide Members, ValidIdentity, CanonicalText, Trimmed, Value, Distinct, Holds, PositionSymbols;
    assert MeasuredBy(o) == Ending(o);
    SharesAreHeld(Ending(o), symbol);
    if Holds(Ending(o), symbol, shares) {
      HeldOnce(Ending(o), symbol, shares, SharesOf(Ending(o), symbol));
    }
  }

  // --------------------------------------------------------------------------- errors

  function Distance(a: real, b: real): real { if a < b then b - a else a - b }

  /** How far what is held of a target is, in money, from what was aimed at. */
  function Gap(o: Observation, t: Target, held: nat): real {
    Distance(Value(t.weight) * Value(o.equity), held as real * Value(t.reference))
  }

  lemma Scales(error: real, w: real, n: real, e: real, aim: real)
    requires e > 0.0 && error == Deviation(w, n, e) && aim == w * e
    ensures error * e == Distance(aim, n) && (error == 0.0 <==> aim == n)
  {
    var r := n / e;
    assert r * e == n;
    assert (w - r) * e == w * e - n;
    assert (r - w) * e == n - w * e;
    if w < r {
      Positive(r - w, e);
    } else {
      Positive(w - r, e);
    }
  }

  lemma Positive(a: real, e: real)
    requires a >= 0.0 && e > 0.0
    ensures a * e >= 0.0 && (a > 0.0 ==> a * e > 0.0)
  {
  }

  lemma Cancels(a: real, b: real, e: real)
    requires e > 0.0
    ensures a <= b <==> a * e <= b * e
  {
    if a <= b {
      Positive(b - a, e);
    } else {
      Positive(a - b, e);
    }
    assert (b - a) * e == b * e - a * e && (a - b) * e == a * e - b * e;
  }

  /** A target's error, times the equity, is the gap between the money aimed at and the money
      held of it by the stage's own positions; it is zero exactly when they agree. */
  lemma ErrorIsGap(o: Observation, t: Target, held: nat)
    requires Valid(o) && Holds(MeasuredBy(o), t.symbol, held)
    ensures Value(o.equity) > 0.0
    ensures TrackingError(o, t) * Value(o.equity) == Gap(o, t, held)
    ensures TrackingError(o, t) == 0.0 <==> Value(t.weight) * Value(o.equity) == held as real * Value(t.reference)
  {
    hide Value, Members, Whole, Holds, Deviation, CanonicalText, ValidIdentity;
    HoldsExactly(o, t.symbol, held);
    var e := Value(o.equity);
    var aim, n := Value(t.weight) * e, held as real * Value(t.reference);
    assert ActualNotional(o, t) == n;
    assert TrackingError(o, t) == Deviation(Value(t.weight), n, e);
    Scales(TrackingError(o, t), Value(t.weight), n, e, aim);
    assert Gap(o, t, held) == Distance(aim, n);
  }

  lemma ErrorWithin(o: Observation, t: Target, held: nat, limit: real)
    requires Valid(o) && Value(o.equity) > 0.0 && Holds(MeasuredBy(o), t.symbol, held)
    ensures TrackingError(o, t) <= limit <==> Gap(o, t, held) <= limit * Value(o.equity)
  {
    hide Value, Valid, TrackingError, Holds, Gap;
    ErrorIsGap(o, t, held);
    Cancels(TrackingError(o, t), limit, Value(o.equity));
  }

  // --------------------------------------------------------------------- qualification

  /** Every target is held to within this part of the equity. */
  ghost predicate HeldWithin(o: Observation, limit: real) {
    forall i, held: nat :: 0 <= i < |o.targets| && Holds(MeasuredBy(o), o.targets[i].symbol, held) ==>
      Gap(o, o.targets[i], held) <= limit * Value(o.equity)
  }

  /** A session that may stand among the evidence of a deployment of this stage. */
  ghost predicate Acceptable(o: Observation, stage: Stage, limit: real) {
    && o.counts.unknowns == 0 && o.counts.external == 0
    && o.counts.duplicateOrders == 0 && o.counts.duplicateFills == 0 && o.counts.dataFailures == 0
    && (stage == Canary ==> o.counts.rejections == 0)
    && HeldWithin(o, limit)
  }

  lemma PassesIsAcceptable(o: Observation, d: Deployment, limit: real)
    requires Valid(o) && Tallied(o)
    ensures Passes(o, d, limit) <==> Acceptable(o, d.stage, limit)
  {
    hide Valid, Value, TrackingError, Holds, Gap;
    forall i, held: nat | 0 <= i < |o.targets| && Holds(MeasuredBy(o), o.targets[i].symbol, held)
      ensures TrackingError(o, o.targets[i]) <= limit <==> Gap(o, o.targets[i], held) <= limit * Value(o.equity)
    {
      ErrorWithin(o, o.targets[i], held, limit);
    }
    forall i | 0 <= i < |o.targets|
      ensures Holds(MeasuredBy(o), o.targets[i].symbol, SharesOf(Ending(o), o.targets[i].symbol))
    {
      HoldsExactly(o, o.targets[i].symbol, SharesOf(Ending(o), o.targets[i].symbol));
    }
  }

  /** A deployment qualifies exactly when there are enough sessions, orders and fills of it
      and every one of its sessions is acceptable by its own counts and holdings. */
  lemma QualifiesByHoldings(rows: seq<Row>, d: Deployment, bar: Bar)
    requires WellStored(rows)
    ensures Selected(rows, d).Ok?
    ensures var os := Selected(rows, d).value;
      Qualified(rows, d, bar) == Ok(
        && os != [] && |os| >= bar.sessions && OrdersIn(os) >= bar.orders && FillsIn(os) >= bar.fills
        && 0.0 <= bar.error && forall i :: 0 <= i < |os| ==> Acceptable(os[i], d.stage, bar.error))
  {
    hide Selected, WellStored, Passes, Qualified, Acceptable, Valid, Tallied;
    QualifiesExactly(rows, d, bar);
    SelectedIsValid(rows, d);
    var os := Selected(rows, d).value;
    forall i | 0 <= i < |os| ensures Passes(os[i], d, bar.error) <==> Acceptable(os[i], d.stage, bar.error) {
      assert Valid(os[i]) && Tallied(os[i]);
      PassesIsAcceptable(os[i], d, bar.error);
    }
  }

  /** Nothing is held of a target that was to be more than this part of the equity. */
  predicate Neglects(o: Observation, limit: real) {
    exists i :: 0 <= i < |o.targets| && Value(o.targets[i].weight) > limit
      && Holds(MeasuredBy(o), o.targets[i].symbol, 0)
  }

  lemma NeglectIsUnacceptable(o: Observation, stage: Stage, limit: real)
    requires Valid(o) && Neglects(o, limit)
    ensures !Acceptable(o, stage, limit)
  {
    hide Value, Members, Whole, Holds, CanonicalText, ValidIdentity;
    var i :| 0 <= i < |o.targets| && Value(o.targets[i].weight) > limit
      && Holds(MeasuredBy(o), o.targets[i].symbol, 0);
    WeightNonNegative(o, i);
    WholeGap(Value(o.targets[i].weight), Value(o.equity), limit, Value(o.targets[i].reference));
    hide Distance;
    assert Gap(o, o.targets[i], 0) > limit * Value(o.equity);
  }

  lemma WeightNonNegative(o: Observation, i: nat)
    requires Valid(o) && i < |o.targets|
    ensures Value(o.targets[i].weight) >= 0.0 && Value(o.equity) > 0.0
  {
    hide Value, Whole, CanonicalText, ValidIdentity;
    assert ValidTarget(o.targets[i]);
  }

  lemma WholeGap(weight: real, equity: real, limit: real, reference: real)
    requires weight >= 0.0 && weight > limit && equity > 0.0
    ensures Distance(weight * equity, 0 as real * reference) > limit * equity
  {
    Cancels(weight, limit, equity);
    Positive(weight, equity);
  }

  lemma FixedNeglects(o: Observation, limit: real)
    requires Neglects(o, limit)
    ensures Neglects(FixedObservation(o), limit)
  {
    hide Value, Fixed, Holds;
    var i :| 0 <= i < |o.targets| && Value(o.targets[i].weight) > limit
      && Holds(MeasuredBy(o), o.targets[i].symbol, 0);
    SameValue(o.targets[i].weight);
    var p := FixedObservation(o);
    assert |p.targets| == |o.targets| && p.targets[i].symbol == o.targets[i].symbol;
    assert MeasuredBy(p) == MeasuredBy(o);
  }

  /** A deployment with a session that holds nothing of a target weighing more than the limit
      never qualifies, whatever else is stored before or after. */
  lemma NeglectedNeverQualifies(rows: seq<Row>, o: Observation, later: seq<Observation>, d: Deployment, bar: Bar)
    requires WellStored(rows) && Valid(o) && AllValid(later) && Concerns(d, o.identity)
    requires Appended(rows, o).1 == Ok(true) && Neglects(o, bar.error)
    ensures Qualified(AppendAll(Appended(rows, o).0, later), d, bar) == Ok(false)
  {
    hide WellStored, Valid, Selected, AppendAll, Acceptable, Qualified, Neglects, FixedObservation, AllValid;
    AppendKeeps(rows, o);
    var stored := Appended(rows, o).0;
    AppendAllKeeps(stored, later);
    SelectedGrows(rows, o, d);
    AppendedIsSelected(rows, o, d);
    SelectedOnlyGrows(stored, later, d);
    var os := Selected(AppendAll(stored, later), d).value;
    var k := |Selected(rows, d).value|;
    assert os[k] == FixedObservation(o);
    QualifiesByHoldings(AppendAll(stored, later), d, bar);
    SelectedAreValid(AppendAll(stored, later), d, k);
    FixedNeglects(o, bar.error);
    NeglectIsUnacceptable(os[k], d.stage, bar.error);
  }

  lemma SelectedAreValid(rows: seq<Row>, d: Deployment, k: nat)
    requires Selected(rows, d).Ok? && k < |Selected(rows, d).value|
    ensures Valid(Selected(rows, d).value[k])
  {
    hide Valid, Selected;
    SelectedIsValid(rows, d);
  }

  lemma AppendedIsSelected(rows: seq<Row>, o: Observation, d: Deployment)
    requires WellStored(rows) && Valid(o) && Appended(rows, o).1 == Ok(true) && Concerns(d, o.identity)
    ensures Selected(rows, d).Ok? && Selected(Appended(rows, o).0, d)
         == Ok(Selected(rows, d).value + [FixedObservation(o)])
  {
    hide WellStored, DecodeObservation, Payload, SameContent, Find, Valid, KeyOf, FixedObservation;
    SelectsExactly(rows, d);
    PayloadIsWritten(o);
    SameIdentityKept(o);
    var more := rows + [Row(KeyOf(o.identity), Payload(o))];
    assert more[..|rows|] == rows;
  }
}
