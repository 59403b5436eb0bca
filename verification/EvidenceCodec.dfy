/** Encoding an observation as JSON, and decoding it again.

    Objects are keyed by their field names, one constructor each; a date is kept as the
    number of its day, and a digest of JSON is modelled by the JSON. */
module EvidenceCodec {
  import opened Wrappers
  import opened DecimalText
  import opened EvidenceFacts

  datatype Key =
    | Schema | StageKey | SessionKey | FirmquantCommit | UquantCommit | PromotionConfig | Account
    | DataKey | CalendarKey
    | ExecutionId | UquantOrderId | SymbolKey | SideKey | PlannedShares | FilledShares | UnfilledShares
    | ReferencePrice | BlockerKey | ReasonCode | TargetShares | TargetWeight
    | FillId | SharesKey | PriceKey | Commission | StampDuty | TransferFee | Slippage
    | IdentityKey | DecisionId | PlanId | PortfolioEquity | PlannedOrders | PlanningBlockers | Targets
    | Fills | ActualPositions | HypotheticalPositions
    | SubmitCount | CancelCount | RejectionCount | UnknownCount | ExternalActivity
    | DuplicateOrders | DuplicateFills | DataFailures | CreatedAt | ContentDigest

  datatype SchemaName = ObservationSchema | IdentitySchema

  datatype Json =
    | Null
    | Num(n: int)
    | Text(text: string)
    | Named(schema: SchemaName)
    | Date(day: int)
    | StageName(stage: Stage)
    | SideName(side: Side)
    | Code(code: BlockerCode)
    | Arr(items: seq<Json>)
    | Obj(fields: map<Key, Json>)
    | Digest(of: Json)

  function DecimalJson(d: Decimal): Json { Text(Print(d)) }

  function OptionalText(s: Option<string>): Json {
    if s.Some? then Text(s.value) else Null
  }

  function Map<T, U>(xs: seq<T>, f: T -> U): (ys: seq<U>)
    ensures |ys| == |xs| && forall i :: 0 <= i < |xs| ==> ys[i] == f(xs[i])
  {
    seq(|xs|, i requires 0 <= i < |xs| => f(xs[i]))
  }

  // --------------------------------------------------------------------- encoding

  function IdentityPayload(i: Identity): Json {
    Obj(map[Schema := Named(IdentitySchema), StageKey := StageName(i.stage), SessionKey := Date(i.session),
            FirmquantCommit := Text(i.firmquantCommit), UquantCommit := Text(i.uquantCommit),
            PromotionConfig := Text(i.config), Account := Text(i.account),
            DataKey := Text(i.data), CalendarKey := Text(i.calendar)])
  }

  function OrderPayload(o: Order): Json {
    Obj(map[ExecutionId := Text(o.executionId), UquantOrderId := Text(o.orderId),
            SymbolKey := Text(o.symbol), SideKey := SideName(o.side),
            PlannedShares := Num(o.planned), FilledShares := Num(o.filled),
            UnfilledShares := Num(o.planned - o.filled),
            ReferencePrice := DecimalJson(o.reference),
            BlockerKey := if o.blocker.Some? then Code(o.blocker.value) else Null])
  }

  function BlockerPayload(b: PlanningBlocker): Json {
    Obj(map[UquantOrderId := Text(b.orderId), SymbolKey := Text(b.symbol), ReasonCode := Text(b.reason)])
  }

  function TargetPayload(t: Target): Json {
    Obj(map[SymbolKey := Text(t.symbol), TargetShares := Num(t.shares),
            TargetWeight := DecimalJson(t.weight), ReferencePrice := DecimalJson(t.reference)])
  }

  function FillPayload(f: Fill): Json {
    Obj(map[FillId := OptionalText(f.fillId), ExecutionId := Text(f.executionId),
            SymbolKey := Text(f.symbol), SideKey := SideName(f.side), SharesKey := Num(f.shares),
            PriceKey := DecimalJson(f.price), Commission := DecimalJson(f.commission),
            StampDuty := DecimalJson(f.stampDuty), TransferFee := DecimalJson(f.transferFee),
            Slippage := DecimalJson(f.slippage)])
  }

  function PositionPayload(p: Position): Json {
    Obj(map[SymbolKey := Text(p.symbol), SharesKey := Num(p.shares)])
  }

  function ContentFields(o: Observation): map<Key, Json> {
    map[Schema := Named(ObservationSchema), IdentityKey := IdentityPayload(o.identity),
        DecisionId := Text(o.decisionId), PlanId := Text(o.planId),
        PortfolioEquity := DecimalJson(o.equity),
        PlannedOrders := Arr(Map(o.orders, OrderPayload)),
        PlanningBlockers := Arr(Map(o.blockers, BlockerPayload)),
        Targets := Arr(Map(o.targets, TargetPayload)),
        Fills := Arr(Map(o.fills, FillPayload)),
        ActualPositions := Arr(Map(o.actual, PositionPayload)),
        HypotheticalPositions := Arr(Map(o.hypothetical, PositionPayload)),
        SubmitCount := Num(o.counts.submits), CancelCount := Num(o.counts.cancels),
        RejectionCount := Num(o.counts.rejections), UnknownCount := Num(o.counts.unknowns),
        ExternalActivity := Num(o.counts.external),
        DuplicateOrders := Num(o.counts.duplicateOrders),
        DuplicateFills := Num(o.counts.duplicateFills),
        DataFailures := Num(o.counts.dataFailures)]
  }

  function ContentDigestOf(o: Observation): Json { Digest(Obj(ContentFields(o))) }

  function Payload(o: Observation): Json {
    Obj(ContentFields(o)[CreatedAt := Text(o.created)][ContentDigest := ContentDigestOf(o)])
  }

  // --------------------------------------------------------------------- decoding

  function Get(fields: map<Key, Json>, k: Key): Json {
    if k in fields then fields[k] else Null
  }

  function AsText(j: Json): Option<string> {
    if j.Text? && Trimmed(j.text) then Some(j.text) else None
  }

  /** None where decoding raises; Some(None) for an absent optional text. */
  function AsOptionalText(j: Json): Option<Option<string>> {
    if j.Null? then Some(None)
    else if AsText(j).Some? then Some(AsText(j)) else None
  }

  function AsCount(j: Json): Option<nat> {
    if j.Num? && j.n >= 0 then Some(j.n) else None
  }

  function AsDecimal(j: Json): Option<Decimal> {
    if j.Text? then Parse(j.text) else None
  }

  function AsBlocker(j: Json): Option<Option<BlockerCode>> {
    if j.Null? then Some(None) else if j.Code? then Some(Some(j.code)) else None
  }

  function All<T>(items: seq<Json>, decode: Json -> Option<T>): Option<seq<T>> {
    if items == [] then Some([])
    else
      var init, last := All(items[..|items| - 1], decode), decode(items[|items| - 1]);
      if init.Some? && last.Some? then Some(init.value + [last.value]) else None
  }

  function AsArray<T>(j: Json, decode: Json -> Option<T>): Option<seq<T>> {
    if j.Arr? then All(j.items, decode) else None
  }

  function DecodeIdentity(j: Json): Option<Identity> {
    if !j.Obj? then None
    else
      var m := j.fields;
      var stage, session := Get(m, StageKey), Get(m, SessionKey);
      var firmquant, uquant := AsText(Get(m, FirmquantCommit)), AsText(Get(m, UquantCommit));
      var config, account := AsText(Get(m, PromotionConfig)), AsText(Get(m, Account));
      var data, calendar := AsText(Get(m, DataKey)), AsText(Get(m, CalendarKey));
      if Get(m, Schema) == Named(IdentitySchema) && stage.StageName? && session.Date?
         && firmquant.Some? && uquant.Some? && config.Some? && account.Some? && data.Some? && calendar.Some?
      then
        var i := Identity(stage.stage, session.day, firmquant.value, uquant.value, config.value,
                          account.value, data.value, calendar.value);
        if ValidIdentity(i) then Some(i) else None
      else None
  }

  function DecodeOrder(j: Json): Option<Order> {
    if !j.Obj? then None
    else
      var m := j.fields;
      var executionId, orderId := AsText(Get(m, ExecutionId)), AsText(Get(m, UquantOrderId));
      var symbol, side := AsText(Get(m, SymbolKey)), Get(m, SideKey);
      var planned, filled := AsCount(Get(m, PlannedShares)), AsCount(Get(m, FilledShares));
      var reference, blocker := AsDecimal(Get(m, ReferencePrice)), AsBlocker(Get(m, BlockerKey));
      if executionId.Some? && orderId.Some? && symbol.Some? && side.SideName? && planned.Some?
         && filled.Some? && reference.Some? && blocker.Some?
      then
        var o := Order(executionId.value, orderId.value, symbol.value, side.side, planned.value,
                       filled.value, reference.value, blocker.value);
        if ValidOrder(o) then Some(o) else None
      else None
  }

  function DecodeBlocker(j: Json): Option<PlanningBlocker> {
    if !j.Obj? then None
    else
      var m := j.fields;
      var orderId, symbol := AsText(Get(m, UquantOrderId)), AsText(Get(m, SymbolKey));
      var reason := AsText(Get(m, ReasonCode));
      if orderId.Some? && symbol.Some? && reason.Some? then
        var b := PlanningBlocker(orderId.value, symbol.value, reason.value);
        if ValidBlocker(b) then Some(b) else None
      else None
  }

  function DecodeTarget(j: Json): Option<Target> {
    if !j.Obj? then None
    else
      var m := j.fields;
      var symbol, shares := AsText(Get(m, SymbolKey)), AsCount(Get(m, TargetShares));
      var weight, reference := AsDecimal(Get(m, TargetWeight)), AsDecimal(Get(m, ReferencePrice));
      if symbol.Some? && shares.Some? && weight.Some? && reference.Some? then
        var t := Target(symbol.value, shares.value, weight.value, reference.value);
        if ValidTarget(t) then Some(t) else None
      else None
  }

  function DecodeFill(j: Json): Option<Fill> {
    if !j.Obj? then None
    else
      var m := j.fields;
      var fillId, executionId := AsOptionalText(Get(m, FillId)), AsText(Get(m, ExecutionId));
      var symbol, side := AsText(Get(m, SymbolKey)), Get(m, SideKey);
      var shares, price := AsCount(Get(m, SharesKey)), AsDecimal(Get(m, PriceKey));
      var commission, stampDuty := AsDecimal(Get(m, Commission)), AsDecimal(Get(m, StampDuty));
      var transferFee, slippage := AsDecimal(Get(m, TransferFee)), AsDecimal(Get(m, Slippage));
      if fillId.Some? && executionId.Some? && symbol.Some? && side.SideName? && shares.Some?
         && price.Some? && commission.Some? && stampDuty.Some? && transferFee.Some? && slippage.Some?
      then
        var f := Fill(fillId.value, executionId.value, symbol.value, side.side, shares.value,
                      price.value, commission.value, stampDuty.value, transferFee.value, slippage.value);
        if ValidFill(f) then Some(f) else None
      else None
  }

  function DecodePosition(j: Json): Option<Position> {
    if !j.Obj? then None
    else
      var symbol, shares := AsText(Get(j.fields, SymbolKey)), AsCount(Get(j.fields, SharesKey));
      if symbol.Some? && shares.Some? && ValidPosition(Position(symbol.value, shares.value))
      then Some(Position(symbol.value, shares.value)) else None
  }

  function DecodeCounts(m: map<Key, Json>): Option<Counts> {
    var submits, cancels := AsCount(Get(m, SubmitCount)), AsCount(Get(m, CancelCount));
    var rejections, unknowns := AsCount(Get(m, RejectionCount)), AsCount(Get(m, UnknownCount));
    var external, orders := AsCount(Get(m, ExternalActivity)), AsCount(Get(m, DuplicateOrders));
    var fills, failures := AsCount(Get(m, DuplicateFills)), AsCount(Get(m, DataFailures));
    if submits.Some? && cancels.Some? && rejections.Some? && unknowns.Some? && external.Some?
       && orders.Some? && fills.Some? && failures.Some?
    then Some(Counts(submits.value, cancels.value, rejections.value, unknowns.value, external.value,
                     orders.value, fills.value, failures.value))
    else None
  }

  function DecodeObservation(j: Json): Option<Observation> {
    if !j.Obj? then None
    else
      var m := j.fields;
      var identity, counts := DecodeIdentity(Get(m, IdentityKey)), DecodeCounts(m);
      var decisionId, planId := AsText(Get(m, DecisionId)), AsText(Get(m, PlanId));
      var equity, created := AsDecimal(Get(m, PortfolioEquity)), AsText(Get(m, CreatedAt));
      var orders := AsArray(Get(m, PlannedOrders), DecodeOrder);
      var blockers := AsArray(Get(m, PlanningBlockers), DecodeBlocker);
      var targets := AsArray(Get(m, Targets), DecodeTarget);
      var fills := AsArray(Get(m, Fills), DecodeFill);
      var actual := AsArray(Get(m, ActualPositions), DecodePosition);
      var hypothetical := AsArray(Get(m, HypotheticalPositions), DecodePosition);
      if Get(m, Schema) == Named(ObservationSchema) && identity.Some? && counts.Some?
         && decisionId.Some? && planId.Some? && equity.Some? && created.Some?
         && orders.Some? && blockers.Some? && targets.Some? && fills.Some?
         && actual.Some? && hypothetical.Some?
      then
        var o := Observation(identity.value, decisionId.value, planId.value, equity.value, orders.value,
                             blockers.value, targets.value, fills.value, actual.value,
                             hypothetical.value, counts.value, created.value);
        if Valid(o) && Get(m, ContentDigest) == ContentDigestOf(o) then Some(o) else None
      else None
  }
}
