/** Decoding the payload of a valid observation gives the observation back. */
module EvidenceRoundTrip {
  import opened Wrappers
  import opened DecimalText
  import opened EvidenceFacts
  import opened EvidenceCodec

  function FixedOrder(o: Order): Order { o.(reference := Fixed(o.reference)) }

  function FixedTarget(t: Target): Target {
    t.(weight := Fixed(t.weight), reference := Fixed(t.reference))
  }

  function FixedFill(f: Fill): Fill {
    f.(price := Fixed(f.price), commission := Fixed(f.commission), stampDuty := Fixed(f.stampDuty),
       transferFee := Fixed(f.transferFee), slippage := Fixed(f.slippage))
  }

  /** The same observation with every positive decimal exponent written out. */
  function FixedObservation(o: Observation): Observation {
    o.(equity := Fixed(o.equity), orders := Map(o.orders, FixedOrder),
       targets := Map(o.targets, FixedTarget), fills := Map(o.fills, FixedFill))
  }

  /** No decimal has a positive exponent, as none has that was built from plain text. */
  predicate Plain(o: Observation) {
    && o.equity.exponent <= 0
    && (forall i :: 0 <= i < |o.orders| ==> o.orders[i].reference.exponent <= 0)
    && (forall i :: 0 <= i < |o.targets| ==>
          o.targets[i].weight.exponent <= 0 && o.targets[i].reference.exponent <= 0)
    && (forall i :: 0 <= i < |o.fills| ==> PlainFill(o.fills[i]))
  }

  predicate PlainFill(f: Fill) {
    && f.price.exponent <= 0 && f.commission.exponent <= 0 && f.stampDuty.exponent <= 0
    && f.transferFee.exponent <= 0 && f.slippage.exponent <= 0
  }

  lemma DecimalRoundTrip(d: Decimal)
    ensures AsDecimal(DecimalJson(d)) == Some(Fixed(d)) && DecimalJson(Fixed(d)) == DecimalJson(d)
    ensures Value(Fixed(d)) == Value(d)
    ensures Fixed(d) == d <==> d.exponent <= 0
  {
    hide Print, Parse, Fixed, Value;
    PrintReadsBack(d);
    FixedIsSame(d);
  }

  lemma HexIsTrimmed(s: string, n: nat)
    requires Hex(s, n) && n > 0
    ensures Trimmed(s)
  {
  }

  lemma IdentityRoundTrip(i: Identity)
    requires ValidIdentity(i)
    ensures DecodeIdentity(IdentityPayload(i)) == Some(i)
  {
    HexIsTrimmed(i.firmquantCommit, 40);
    HexIsTrimmed(i.uquantCommit, 40);
    HexIsTrimmed(i.config, 64);
    HexIsTrimmed(i.account, 64);
    HexIsTrimmed(i.data, 64);
    HexIsTrimmed(i.calendar, 64);
    hide Hex, Trimmed;
  }

  lemma OrderRoundTrip(o: Order)
    requires ValidOrder(o)
    ensures DecodeOrder(OrderPayload(o)) == Some(FixedOrder(o))
    ensures OrderPayload(FixedOrder(o)) == OrderPayload(o) && ValidOrder(FixedOrder(o))
    ensures FixedOrder(o) == o <==> o.reference.exponent <= 0
  {
    DecimalRoundTrip(o.reference);
    hide Fixed, DecimalJson, AsDecimal, Value, Trimmed, Printable;
  }

  lemma BlockerRoundTrip(b: PlanningBlocker)
    requires ValidBlocker(b)
    ensures DecodeBlocker(BlockerPayload(b)) == Some(b)
  {
    hide Trimmed, Printable;
  }

  lemma TargetRoundTrip(t: Target)
    requires ValidTarget(t)
    ensures DecodeTarget(TargetPayload(t)) == Some(FixedTarget(t))
    ensures TargetPayload(FixedTarget(t)) == TargetPayload(t) && ValidTarget(FixedTarget(t))
    ensures FixedTarget(t) == t <==> t.weight.exponent <= 0 && t.reference.exponent <= 0
  {
    DecimalRoundTrip(t.weight);
    DecimalRoundTrip(t.reference);
    hide Fixed, DecimalJson, AsDecimal, Value, Trimmed, Printable;
  }

  lemma FillRoundTrip(f: Fill)
    requires ValidFill(f)
    ensures DecodeFill(FillPayload(f)) == Some(FixedFill(f))
    ensures FillPayload(FixedFill(f)) == FillPayload(f) && ValidFill(FixedFill(f))
    ensures FixedFill(f) == f <==> PlainFill(f)
  {
    DecimalRoundTrip(f.price);
    DecimalRoundTrip(f.commission);
    DecimalRoundTrip(f.stampDuty);
    DecimalRoundTrip(f.transferFee);
    DecimalRoundTrip(f.slippage);
    hide Fixed, DecimalJson, AsDecimal, Value, Trimmed, Printable;
  }

  lemma PositionRoundTrip(p: Position)
    requires ValidPosition(p)
    ensures DecodePosition(PositionPayload(p)) == Some(p)
  {
    hide Trimmed, Printable;
  }

  lemma CountsRoundTrip(o: Observation)
    ensures DecodeCounts(ContentFields(o)[CreatedAt := Text(o.created)][ContentDigest := ContentDigestOf(o)])
         == Some(o.counts)
  {
    hide IdentityPayload, OrderPayload, BlockerPayload, TargetPayload, FillPayload, PositionPayload,
      DecimalJson, Map;
  }

  lemma {:induction false} AllRoundTrip<T>(
    xs: seq<T>, encode: T -> Json, decode: Json -> Option<T>, fixed: T -> T
  )
    requires forall i :: 0 <= i < |xs| ==> decode(encode(xs[i])) == Some(fixed(xs[i]))
    ensures All(Map(xs, encode), decode) == Some(Map(xs, fixed))
  {
    if xs != [] {
      var init, last := xs[..|xs| - 1], xs[|xs| - 1];
      AllRoundTrip(init, encode, decode, fixed);
      assert Map(xs, encode)[..|xs| - 1] == Map(init, encode);
      assert Map(xs, fixed) == Map(init, fixed) + [fixed(last)];
    }
  }

  lemma MapSame<T>(xs: seq<T>, encode: T -> Json, fixed: T -> T)
    requires forall i :: 0 <= i < |xs| ==> encode(fixed(xs[i])) == encode(xs[i])
    ensures Map(Map(xs, fixed), encode) == Map(xs, encode)
  {
  }

  function Same<T>(x: T): T { x }

  lemma MapNothing<T>(xs: seq<T>)
    ensures Map(xs, Same) == xs
  {
  }

  lemma ListsRoundTrip(o: Observation)
    requires Members(o)
    ensures AsArray(Arr(Map(o.orders, OrderPayload)), DecodeOrder) == Some(FixedObservation(o).orders)
    ensures AsArray(Arr(Map(o.blockers, BlockerPayload)), DecodeBlocker) == Some(o.blockers)
    ensures AsArray(Arr(Map(o.targets, TargetPayload)), DecodeTarget) == Some(FixedObservation(o).targets)
    ensures AsArray(Arr(Map(o.fills, FillPayload)), DecodeFill) == Some(FixedObservation(o).fills)
    ensures AsArray(Arr(Map(o.actual, PositionPayload)), DecodePosition) == Some(o.actual)
    ensures AsArray(Arr(Map(o.hypothetical, PositionPayload)), DecodePosition) == Some(o.hypothetical)
  {
    hide DecodeOrder, DecodeBlocker, DecodeTarget, DecodeFill, DecodePosition, OrderPayload,
      BlockerPayload, TargetPayload, FillPayload, PositionPayload, FixedOrder, FixedTarget, FixedFill,
      ValidOrder, ValidBlocker, ValidTarget, ValidFill, ValidPosition, All, Map;
    forall i | 0 <= i < |o.orders| ensures DecodeOrder(OrderPayload(o.orders[i])) == Some(FixedOrder(o.orders[i])) {
      OrderRoundTrip(o.orders[i]);
    }
    AllRoundTrip(o.orders, OrderPayload, DecodeOrder, FixedOrder);
    forall i | 0 <= i < |o.targets|
      ensures DecodeTarget(TargetPayload(o.targets[i])) == Some(FixedTarget(o.targets[i]))
    {
      TargetRoundTrip(o.targets[i]);
    }
    AllRoundTrip(o.targets, TargetPayload, DecodeTarget, FixedTarget);
    forall i | 0 <= i < |o.fills| ensures DecodeFill(FillPayload(o.fills[i])) == Some(FixedFill(o.fills[i])) {
      FillRoundTrip(o.fills[i]);
    }
    AllRoundTrip(o.fills, FillPayload, DecodeFill, FixedFill);
    PlainListsRoundTrip(o);
  }

  lemma PlainListsRoundTrip(o: Observation)
    requires Members(o)
    ensures AsArray(Arr(Map(o.blockers, BlockerPayload)), DecodeBlocker) == Some(o.blockers)
    ensures AsArray(Arr(Map(o.actual, PositionPayload)), DecodePosition) == Some(o.actual)
    ensures AsArray(Arr(Map(o.hypothetical, PositionPayload)), DecodePosition) == Some(o.hypothetical)
  {
    hide DecodeBlocker, DecodePosition, BlockerPayload, PositionPayload, ValidOrder, ValidBlocker,
      ValidTarget, ValidFill, ValidPosition, All, Map;
    forall i | 0 <= i < |o.blockers| ensures DecodeBlocker(BlockerPayload(o.blockers[i])) == Some(o.blockers[i]) {
      BlockerRoundTrip(o.blockers[i]);
    }
    AllRoundTrip(o.blockers, BlockerPayload, DecodeBlocker, Same);
    MapNothing(o.blockers);
    forall i | 0 <= i < |o.actual| ensures DecodePosition(PositionPayload(o.actual[i])) == Some(o.actual[i]) {
      PositionRoundTrip(o.actual[i]);
    }
    AllRoundTrip(o.actual, PositionPayload, DecodePosition, Same);
    MapNothing(o.actual);
    forall i | 0 <= i < |o.hypothetical|
      ensures DecodePosition(PositionPayload(o.hypothetical[i])) == Some(o.hypothetical[i])
    {
      PositionRoundTrip(o.hypothetical[i]);
    }
    AllRoundTrip(o.hypothetical, PositionPayload, DecodePosition, Same);
    MapNothing(o.hypothetical);
  }

  lemma FixedMembers(o: Observation)
    requires Members(o)
    ensures Members(FixedObservation(o)) && Value(FixedObservation(o).equity) == Value(o.equity)
  {
    hide ValidOrder, ValidTarget, ValidFill, ValidBlocker, ValidPosition, FixedOrder, FixedTarget,
      FixedFill, Fixed, Value;
    DecimalRoundTrip(o.equity);
    forall i | 0 <= i < |o.orders| ensures ValidOrder(FixedOrder(o.orders[i])) {
      OrderRoundTrip(o.orders[i]);
    }
    forall i | 0 <= i < |o.targets| ensures ValidTarget(FixedTarget(o.targets[i])) {
      TargetRoundTrip(o.targets[i]);
    }
    forall i | 0 <= i < |o.fills| ensures ValidFill(FixedFill(o.fills[i])) {
      FillRoundTrip(o.fills[i]);
    }
  }

  lemma FixedWhole(o: Observation)
    requires Whole(o)
    ensures Whole(FixedObservation(o))
  {
    hide Fixed;
    var p := FixedObservation(o);
    assert TargetSymbols(p.targets) == TargetSymbols(o.targets);
    assert ExecutionIds(p.orders) == ExecutionIds(o.orders);
    assert Ending(p) == Ending(o);
    FixedFillIds(o.fills);
    hide Map, DistinctFillIds, Distinct, FixedFill, FixedOrder, FixedTarget;
  }

  lemma FixedFillIds(fills: seq<Fill>)
    ensures var fixed := Map(fills, FixedFill);
      && |fixed| == |fills|
      && (forall i :: 0 <= i < |fills| ==> fixed[i].fillId == fills[i].fillId)
      && (DistinctFillIds(fills) ==> DistinctFillIds(fixed))
  {
    hide Fixed;
  }

  lemma FixedContent(o: Observation)
    requires Members(o)
    ensures ContentFields(FixedObservation(o)) == ContentFields(o)
  {
    hide OrderPayload, TargetPayload, FillPayload, FixedOrder, FixedTarget, FixedFill, ValidOrder,
      ValidTarget, ValidFill, ValidBlocker, ValidPosition, DecimalJson, Map;
    DecimalRoundTrip(o.equity);
    forall i | 0 <= i < |o.orders| ensures OrderPayload(FixedOrder(o.orders[i])) == OrderPayload(o.orders[i]) {
      OrderRoundTrip(o.orders[i]);
    }
    MapSame(o.orders, OrderPayload, FixedOrder);
    forall i | 0 <= i < |o.targets|
      ensures TargetPayload(FixedTarget(o.targets[i])) == TargetPayload(o.targets[i])
    {
      TargetRoundTrip(o.targets[i]);
    }
    MapSame(o.targets, TargetPayload, FixedTarget);
    forall i | 0 <= i < |o.fills| ensures FillPayload(FixedFill(o.fills[i])) == FillPayload(o.fills[i]) {
      FillRoundTrip(o.fills[i]);
    }
    MapSame(o.fills, FillPayload, FixedFill);
  }

  lemma FixedEqual(o: Observation)
    requires Members(o)
    ensures FixedObservation(o) == o <==> Plain(o)
  {
    DecimalRoundTrip(o.equity);
    forall i | 0 <= i < |o.orders|
      ensures FixedOrder(o.orders[i]) == o.orders[i] <==> o.orders[i].reference.exponent <= 0
    {
      OrderRoundTrip(o.orders[i]);
    }
    forall i | 0 <= i < |o.targets|
      ensures FixedTarget(o.targets[i]) == o.targets[i]
        <==> o.targets[i].weight.exponent <= 0 && o.targets[i].reference.exponent <= 0
    {
      TargetRoundTrip(o.targets[i]);
    }
    forall i | 0 <= i < |o.fills| ensures FixedFill(o.fills[i]) == o.fills[i] <==> PlainFill(o.fills[i]) {
      FillRoundTrip(o.fills[i]);
    }
    hide FixedOrder, FixedTarget, FixedFill, Fixed, PlainFill, Members;
    MapEqual(o.orders, FixedOrder);
    MapEqual(o.targets, FixedTarget);
    MapEqual(o.fills, FixedFill);
    hide Map;
  }

  lemma MapEqual<T>(xs: seq<T>, f: T -> T)
    ensures Map(xs, f) == xs <==> forall i :: 0 <= i < |xs| ==> f(xs[i]) == xs[i]
  {
    if Map(xs, f) == xs {
      forall i | 0 <= i < |xs| ensures f(xs[i]) == xs[i] {
        assert Map(xs, f)[i] == f(xs[i]);
      }
    }
  }

  /** Decoding what was encoded succeeds, with every field equal in value; encoding that
      again gives the same payload, and the same digested content. The observation comes
      back identical exactly when no decimal in it has a positive exponent. */
  lemma ObservationRoundTrip(o: Observation)
    requires Valid(o)
    ensures DecodeObservation(Payload(o)) == Some(FixedObservation(o))
    ensures Payload(FixedObservation(o)) == Payload(o)
    ensures ContentDigestOf(FixedObservation(o)) == ContentDigestOf(o)
    ensures DecodeObservation(Payload(o)) == Some(o) <==> Plain(o)
  {
    hide Members, Whole, Fixed, FixedOrder, FixedTarget, FixedFill, Map, Plain, Hex, Printable, Value;
    var p := FixedObservation(o);
    FixedMembers(o);
    FixedWhole(o);
    FixedContent(o);
    FixedEqual(o);
    DecodesTo(o, p);
  }

  function PayloadFields(o: Observation): map<Key, Json> {
    ContentFields(o)[CreatedAt := Text(o.created)][ContentDigest := ContentDigestOf(o)]
  }

  lemma PayloadHas(o: Observation)
    ensures var m := PayloadFields(o);
      && Get(m, Schema) == Named(ObservationSchema) && Get(m, IdentityKey) == IdentityPayload(o.identity)
      && Get(m, DecisionId) == Text(o.decisionId) && Get(m, PlanId) == Text(o.planId)
      && Get(m, PortfolioEquity) == DecimalJson(o.equity)
  {
    hide IdentityPayload, OrderPayload, BlockerPayload, TargetPayload, FillPayload, PositionPayload,
      DecimalJson, Map, ContentDigestOf;
  }

  lemma PayloadEnds(o: Observation)
    ensures var m := PayloadFields(o);
      Get(m, CreatedAt) == Text(o.created) && Get(m, ContentDigest) == ContentDigestOf(o)
  {
    hide ContentFields, ContentDigestOf;
  }

  lemma PayloadLists(o: Observation)
    ensures var m := PayloadFields(o);
      && Get(m, PlannedOrders) == Arr(Map(o.orders, OrderPayload))
      && Get(m, PlanningBlockers) == Arr(Map(o.blockers, BlockerPayload))
      && Get(m, Targets) == Arr(Map(o.targets, TargetPayload))
      && Get(m, Fills) == Arr(Map(o.fills, FillPayload))
      && Get(m, ActualPositions) == Arr(Map(o.actual, PositionPayload))
      && Get(m, HypotheticalPositions) == Arr(Map(o.hypothetical, PositionPayload))
  {
    hide IdentityPayload, OrderPayload, BlockerPayload, TargetPayload, FillPayload, PositionPayload,
      DecimalJson, Map, ContentDigestOf;
  }

  lemma DecodesTo(o: Observation, p: Observation)
    requires Valid(o) && Valid(p) && p == FixedObservation(o) && ContentFields(p) == ContentFields(o)
    ensures DecodeObservation(Payload(o)) == Some(p)
  {
    hide Members, Whole, Fixed, FixedOrder, FixedTarget, FixedFill, Map, All, Hex, Printable, Value,
      IdentityPayload, OrderPayload, BlockerPayload, TargetPayload, FillPayload, PositionPayload,
      DecodeIdentity, DecodeCounts, DecodeOrder, DecodeBlocker, DecodeTarget, DecodeFill, DecodePosition,
      AsArray, DecimalJson, AsDecimal, Trimmed, PayloadFields, ContentFields, Get;
    DecimalRoundTrip(o.equity);
    IdentityRoundTrip(o.identity);
    PayloadIs(o);
    PayloadHas(o);
    PayloadEnds(o);
    PayloadLists(o);
    ListsRoundTrip(o);
  }

  lemma PayloadIs(o: Observation)
    ensures Payload(o) == Obj(PayloadFields(o))
    ensures DecodeCounts(PayloadFields(o)) == Some(o.counts)
  {
    hide ContentFields, DecodeCounts;
    CountsRoundTrip(o);
  }
}
