/** Theorems about whole runs of the paper broker. */
module PaperTheorems {
  import opened Wrappers
  import opened Ids
  import opened Rounding
  import opened PaperFacts
  import opened PaperBooks
  import opened PaperRules
  import opened PaperDesk
  import opened PaperInvariant
  import opened PaperRuns

  datatype Op =
    | DoSubmit(command: Command, sink: Sink)
    | DoMatch(orderId: Id, quote: Option<(Symbol, Quote)>, sink: Sink)
    | DoCancel(orderId: Id, accepts: bool)
    | DoQuote(symbol: Symbol, update: Quote)
    | DoStatus(status: MarketStatus)
    | DoConnect(connected: bool)
    | DoSubscribe(stopAt: Option<nat>)

  /** One call, whatever it returns; and whether it raised inside a half-done settlement. */
  ghost function Step(s: Desk, op: Op): (Desk, bool)
    requires Sound(s)
  {
    match op
    case DoSubmit(c, sink) =>
      var (after, r) := Submit(s, c, sink);
      (after, r == Err(EconomicsBroken))
    case DoMatch(id, quote, sink) =>
      var (after, r) := Match(s, id, quote, sink);
      (after, r == Err(EconomicsBroken))
    case DoCancel(id, accepts) => (Cancel(s, id, accepts).0, false)
    case DoQuote(symbol, q) =>
      var quoted := WithQuote(s.market, symbol, q);
      (if quoted.Ok? then s.(market := quoted.value) else s, false)
    case DoStatus(status) => (s.(market := s.market.(status := status)), false)
    case DoConnect(connected) => (s.(connected := connected), false)
    case DoSubscribe(stopAt) =>
      (if s.connected then s.(outbox := Redeliver(s.outbox, stopAt)) else s, false)
  }

  lemma StepKeeps(s: Desk, op: Op)
    requires Sound(s)
    ensures Kept(s, Step(s, op).0, Step(s, op).1)
  {
    hide Registry, StoriesOk, TapeOk, OutboxOk, Ascending, ValidBooks, SettleAll, Submit, Match, Cancel,
      WithQuote, Redeliver;
    match op
    case DoSubmit(c, sink) => SubmitKeeps(s, c, sink);
    case DoMatch(id, quote, sink) => MatchKeeps(s, id, quote, sink);
    case DoCancel(id, accepts) => CancelStepKeeps(s, id, accepts);
    case DoQuote(symbol, q) =>
      if WithQuote(s.market, symbol, q).Ok? {
        QuoteKeeps(s, symbol, q);
      }
    case DoStatus(_) =>
    case DoConnect(_) =>
    case DoSubscribe(stopAt) => RedeliverKeeps(s, stopAt);
  }

  /** Any sequence of calls; the flag tells whether one of them left a settlement half done. */
  ghost function Play(s: Desk, ops: seq<Op>): (r: (Desk, bool))
    requires Sound(s)
    ensures Kept(s, r.0, r.1)
  {
    if ops == [] then (s, false)
    else
      var (before, broke) := Play(s, ops[..|ops| - 1]);
      StepKeeps(before, ops[|ops| - 1]);
      var (after, breaks) := Step(before, ops[|ops| - 1]);
      (after, broke || breaks)
  }

  lemma PlaySnoc(s: Desk, ops: seq<Op>, op: Op)
    requires Sound(s)
    ensures Play(s, ops + [op]).0 == Step(Play(s, ops).0, op).0
    ensures Play(s, ops + [op]).1 == (Play(s, ops).1 || Step(Play(s, ops).0, op).1)
  {
    hide Sound, Step;
    assert (ops + [op])[..|ops|] == ops;
  }

  lemma PlayNothing(s: Desk)
    requires Sound(s)
    ensures Play(s, []) == (s, false)
  {
  }

  // ------------------------------------------------------------- joint accounting

  function FillsFor(fills: seq<Fill>, id: Id): seq<Fill> {
    if fills == [] then []
    else
      var last := fills[|fills| - 1];
      var init := FillsFor(fills[..|fills| - 1], id);
      if last.orderId == id then init + [last] else init
  }

  lemma FillsForSnoc(fills: seq<Fill>, f: Fill, id: Id)
    ensures FillsFor(fills + [f], id)
         == if f.orderId == id then FillsFor(fills, id) + [f] else FillsFor(fills, id)
  {
    assert (fills + [f])[..|fills|] == fills;
  }

  lemma {:induction false} StoryFills(emitted: seq<Event>, id: Id)
    ensures FillsTold(Story(emitted, id)) == FillsFor(FillsTold(emitted), id)
  {
    if emitted != [] {
      var init, last := emitted[..|emitted| - 1], emitted[|emitted| - 1];
      StoryFills(init, id);
      hide FillsTold, FillsFor, Story;
      assert emitted == init + [last];
      StorySnoc(init, last, id);
      if About(last) == id {
        StorySnoc(Story(init, id), last, id);
      }
      if last.FillEvent? {
        FillsForSnoc(FillsTold(init), last.fill, id);
      }
    }
  }

  /** An order's story accounts for every share it was filled with, each fill once. */
  lemma {:induction false} TellsAccounts(story: seq<Event>, order: OrderFact)
    requires Tells(story, order)
    ensures SharesOf(FillsTold(story)) == order.filled
    ensures CountsAscend(FillsTold(story))
    decreases |story|
  {
    var n := |story|;
    if order.status.Acknowledged? || order.status.Rejected? {
      assert story == [] + [OrderEvent(order)];
      StorySnoc([], OrderEvent(order), order.orderId);
    } else if order.status.Cancelled? {
      var init := story[..n - 1];
      TellsAccounts(init, story[n - 2].order);
      hide Tells, CountsAscend, SharesOf;
      assert story == init + [OrderEvent(order)];
      StorySnoc(init, OrderEvent(order), order.orderId);
    } else {
      FillTellsOn(story, order);
      var init, fill := story[..n - 2], story[n - 2].fill;
      hide Tells, CountsAscend, SharesOf, FillsTold;
      TellsAccounts(init, story[n - 3].order);
      NextCount(FillsTold(init), fill);
    }
  }

  lemma FillTellsOn(story: seq<Event>, order: OrderFact)
    requires Tells(story, order) && (order.status.PartiallyFilled? || order.status.Filled?)
    ensures var n := |story|;
      && n >= 3 && story[n - 2].FillEvent? && story[n - 3].OrderEvent?
      && Tells(story[..n - 2], story[n - 3].order)
      && IsNextFill(story[n - 2].fill, story[n - 3].order, order, FillsTold(story[..n - 2]))
      && FillsTold(story) == FillsTold(story[..n - 2]) + [story[n - 2].fill]
  {
    var n := |story|;
    var init, fill := story[..n - 2], story[n - 2].fill;
    hide FillsTold;
    assert story == init + [FillEvent(fill)] + [OrderEvent(order)];
    StorySnoc(init, FillEvent(fill), order.orderId);
    StorySnoc(init + [FillEvent(fill)], OrderEvent(order), order.orderId);
  }

  /** Fills of one order carry increasing match counts. */
  predicate CountsAscend(fills: seq<Fill>) {
    fills == []
    || (var last := fills[|fills| - 1];
        last.fillId.PaperFillId?
        && CountsWithin(fills[..|fills| - 1], last.fillId.matchCount - 1)
        && CountsAscend(fills[..|fills| - 1]))
  }

  lemma NextCount(fills: seq<Fill>, fill: Fill)
    requires CountsAscend(fills) && fill.fillId.PaperFillId?
    requires CountsWithin(fills, fill.fillId.matchCount - 1)
    ensures CountsAscend(fills + [fill]) && SharesOf(fills + [fill]) == SharesOf(fills) + fill.shares
  {
    assert (fills + [fill])[..|fills|] == fills;
  }

  predicate DistinctIds(fills: seq<Fill>) {
    fills == []
    || (DistinctIds(fills[..|fills| - 1])
        && forall f :: f in fills[..|fills| - 1] ==> f.fillId != fills[|fills| - 1].fillId)
  }

  lemma {:induction false} FillsForMembers(fills: seq<Fill>, id: Id, f: Fill)
    ensures f in FillsFor(fills, id) <==> f in fills && f.orderId == id
  {
    if fills != [] {
      FillsForMembers(fills[..|fills| - 1], id, f);
    }
  }

  lemma {:induction false} AscendingIdsDiffer(fills: seq<Fill>)
    requires forall id :: CountsAscend(FillsFor(fills, id))
    requires forall f :: f in fills ==> f.fillId.PaperFillId? && f.fillId.orderId == f.orderId
    ensures DistinctIds(fills)
  {
    if fills != [] {
      var init, last := fills[..|fills| - 1], fills[|fills| - 1];
      assert fills == init + [last];
      forall id ensures CountsAscend(FillsFor(init, id)) {
        PrefixAscends(init, last, id);
      }
      AscendingIdsDiffer(init);
      FillsForSnoc(init, last, last.orderId);
      NewCount(FillsFor(init, last.orderId), last);
      forall f | f in init ensures f.fillId != last.fillId {
        FillsForMembers(init, last.orderId, f);
      }
    }
  }

  lemma PrefixAscends(fills: seq<Fill>, f: Fill, id: Id)
    requires CountsAscend(FillsFor(fills + [f], id))
    ensures CountsAscend(FillsFor(fills, id))
  {
    hide FillsFor;
    FillsForSnoc(fills, f, id);
    var own := FillsFor(fills, id);
    assert (own + [f])[..|own|] == own;
  }

  lemma NewCount(fills: seq<Fill>, f: Fill)
    requires CountsAscend(fills + [f])
    ensures forall g :: g in fills ==> g.fillId != f.fillId
  {
    assert (fills + [f])[..|fills|] == fills;
  }

  lemma FilledIsSumOfFills(s: Desk, id: Id)
    requires Sound(s) && id in s.blotter.orders
    ensures s.blotter.orders[id].filled == SharesOf(FillsFor(s.tape.fills, id))
    ensures CountsAscend(FillsFor(s.tape.fills, id))
    ensures s.blotter.orders[id].filled <= s.blotter.orders[id].command.requested
  {
    hide StoriesOk, Ascending, OutboxOk, Registry, ValidMarket, ValidBooks, Tells, FillsTold, SharesOf,
      FillsFor, CountsAscend, Story;
    OpenTells(s, id);
    TellsAccounts(Story(s.outbox.emitted, id), s.blotter.orders[id]);
    StoryFills(s.outbox.emitted, id);
  }

  lemma StoriedFill(s: Desk, f: Fill)
    requires Sound(s) && f in s.tape.fills
    ensures f.fillId.PaperFillId? && f.fillId.orderId == f.orderId && f.orderId in s.blotter.orders
    ensures 0 < f.shares
  {
    hide Ascending, OutboxOk, Registry, ValidMarket, ValidBooks, Tells, FillsTold, Story;
    FillsToldMembers(s.outbox.emitted, f);
    StoryMembers(s.outbox.emitted, f.orderId, FillEvent(f));
    var story := Story(s.outbox.emitted, f.orderId);
    assert StoryFits(story, OrderOf(s.blotter, f.orderId), CountOf(s.blotter, f.orderId));
    TellsFillIds(story, s.blotter.orders[f.orderId], f);
  }

  lemma {:induction false} FillsToldMembers(events: seq<Event>, f: Fill)
    ensures f in FillsTold(events) <==> FillEvent(f) in events
  {
    if events != [] {
      FillsToldMembers(events[..|events| - 1], f);
    }
  }

  lemma {:induction false} TellsFillIds(story: seq<Event>, order: OrderFact, f: Fill)
    requires Tells(story, order) && FillEvent(f) in story
    ensures f.fillId.PaperFillId? && f.fillId.orderId == f.orderId && 0 < f.shares
    decreases |story|
  {
    var n := |story|;
    if order.status.Cancelled? {
      assert FillEvent(f) in story[..n - 1];
      TellsFillIds(story[..n - 1], story[n - 2].order, f);
    } else if order.status.PartiallyFilled? || order.status.Filled? {
      assert story == story[..n - 2] + [story[n - 2], story[n - 1]];
      if story[n - 2] != FillEvent(f) {
        TellsFillIds(story[..n - 2], story[n - 3].order, f);
      }
    }
  }

  /** Joint share accounting, in every state the broker can be in: an order's filled
      shares are the sum of its fills and fit the request; a session's consumed volume is
      the sum over all orders; no fill is ever told under an id already used. */
  lemma JointAccounting(s: Desk)
    requires Sound(s)
    ensures forall id :: id in s.blotter.orders ==>
      s.blotter.orders[id].filled == SharesOf(FillsFor(s.tape.fills, id))
      && s.blotter.orders[id].filled <= s.blotter.orders[id].command.requested
    ensures forall key :: ConsumedOf(s.tape.consumed, key) == VolumeOf(s.tape.fills, key)
    ensures DistinctIds(s.tape.fills)
  {
    hide StoriesOk, Ascending, OutboxOk, Registry, ValidMarket, ValidBooks, FillsFor, SharesOf,
      CountsAscend, VolumeOf, FillsTold;
    forall id | id in s.blotter.orders
      ensures s.blotter.orders[id].filled == SharesOf(FillsFor(s.tape.fills, id))
      ensures s.blotter.orders[id].filled <= s.blotter.orders[id].command.requested
    {
      FilledIsSumOfFills(s, id);
    }
    forall id ensures CountsAscend(FillsFor(s.tape.fills, id)) {
      if id in s.blotter.orders {
        FilledIsSumOfFills(s, id);
      } else {
        NoFillsElsewhere(s, id);
      }
    }
    forall f | f in s.tape.fills ensures f.fillId.PaperFillId? && f.fillId.orderId == f.orderId {
      StoriedFill(s, f);
    }
    AscendingIdsDiffer(s.tape.fills);
  }

  lemma NoFillsElsewhere(s: Desk, id: Id)
    requires Sound(s) && id !in s.blotter.orders
    ensures CountsAscend(FillsFor(s.tape.fills, id))
  {
    hide Ascending, OutboxOk, Registry, ValidMarket, ValidBooks, FillsFor, Story;
    StoryFills(s.outbox.emitted, id);
    assert StoryFits(Story(s.outbox.emitted, id), OrderOf(s.blotter, id), CountOf(s.blotter, id));
  }

  // ------------------------------------------------------------------ volume budget

  ghost predicate WithinBudget(s: Desk, symbol: Symbol) {
    symbol in s.market.quotes ==>
      var q := s.market.quotes[symbol];
      UNITY * ConsumedOf(s.tape.consumed, (q.session, symbol)) <= q.volume * s.policy.participation
  }

  /** Whenever a match fills, the account's volume in that session and symbol, over all
      its orders, is within the participation limit of the current quote. */
  lemma FillStaysWithinVolume(s: Desk, id: Id, sink: Sink)
    requires Sound(s) && id in s.blotter.orders
    ensures var (after, r) := MatchQuoted(s, id, sink);
      after.tape.fills != s.tape.fills ==> WithinBudget(after, s.blotter.orders[id].command.symbol)
  {
    hide StoriesOk, TapeOk, OutboxOk, Ascending, Registry, ValidMarket, ValidBooks, SettleAll, PlanOf,
      Settle, Recorded, Emit, Affords;
    OpenTells(s, id);
    var order := s.blotter.orders[id];
    var symbol := order.command.symbol;
    if symbol in s.market.quotes && symbol in s.market.instruments && !IsClosed(order.status)
      && PlanOf(s.market, s.policy, s.books, s.tape.consumed, order.command, order.filled).Take?
    {
      PlanFits(s.market, s.policy, s.books, s.tape.consumed, order.command, order.filled);
    }
  }

  lemma MatchQuotedVolume(s: Desk, id: Id, sink: Sink)
    requires Sound(s) && id in s.blotter.orders
    ensures var (after, r) := MatchQuoted(s, id, sink);
      var symbol := s.blotter.orders[id].command.symbol;
      && after.market == s.market && after.policy == s.policy
      && (after.tape.fills == s.tape.fills ==> after.tape == s.tape)
      && (after.tape.fills != s.tape.fills ==> symbol in s.market.quotes)
      && forall key :: ConsumedOf(after.tape.consumed, key) != ConsumedOf(s.tape.consumed, key)
           ==> symbol in s.market.quotes && key == (s.market.quotes[symbol].session, symbol)
  {
    hide StoriesOk, TapeOk, OutboxOk, Ascending, Registry, ValidMarket, ValidBooks, SettleAll, PlanOf,
      Settle, Recorded, Emit, Affords, Fits;
    OpenTells(s, id);
  }

  lemma MatchStaysWithinBudget(s: Desk, id: Id, sink: Sink)
    requires Sound(s) && id in s.blotter.orders && forall sym :: WithinBudget(s, sym)
    ensures forall sym :: WithinBudget(MatchQuoted(s, id, sink).0, sym)
  {
    hide StoriesOk, TapeOk, OutboxOk, Ascending, Registry, ValidMarket, ValidBooks, MatchQuoted;
    var after := MatchQuoted(s, id, sink).0;
    MatchQuotedVolume(s, id, sink);
    FillStaysWithinVolume(s, id, sink);
    forall sym ensures WithinBudget(after, sym) {
      assert WithinBudget(s, sym);
    }
  }

  /** The volume reported for a session does not fall, and a new session starts with
      nothing consumed. */
  ghost predicate Rises(s: Desk, symbol: Symbol, q: Quote) {
    if symbol in s.market.quotes && s.market.quotes[symbol].session == q.session then
      q.volume >= s.market.quotes[symbol].volume
    else ConsumedOf(s.tape.consumed, (q.session, symbol)) == 0
  }

  ghost predicate Calm(s: Desk, op: Op) {
    match op
    case DoQuote(symbol, q) => Rises(s, symbol, q)
    case DoMatch(_, quote, _) => quote.Some? ==> Rises(s, quote.value.0, quote.value.1)
    case _ => true
  }

  lemma QuoteStaysWithinBudget(s: Desk, symbol: Symbol, q: Quote)
    requires WithQuote(s.market, symbol, q).Ok? && Rises(s, symbol, q)
    requires forall sym :: WithinBudget(s, sym)
    ensures forall sym :: WithinBudget(s.(market := WithQuote(s.market, symbol, q).value), sym)
  {
    assert WithinBudget(s, symbol);
    var after := s.(market := WithQuote(s.market, symbol, q).value);
    forall sym ensures WithinBudget(after, sym) {
      assert WithinBudget(s, sym);
      if sym == symbol && Rises(s, symbol, q) && symbol in s.market.quotes {
        MoreVolume(s.policy.participation, s.market.quotes[symbol].volume, q.volume);
      }
    }
  }

  lemma MoreVolume(participation: nat, less: nat, more: nat)
    ensures less <= more ==> less * participation <= more * participation
  {
    assert less <= more ==> (more - less) * participation >= 0;
  }

  /** While volumes do not fall, the participation limit is a standing invariant. */
  lemma BudgetStands(s: Desk, op: Op)
    requires Sound(s) && Calm(s, op) && forall sym :: WithinBudget(s, sym)
    ensures forall sym :: WithinBudget(Step(s, op).0, sym)
  {
    hide StoriesOk, TapeOk, OutboxOk, Ascending, ValidBooks, SettleAll, MatchQuoted, WithQuote,
      WithinBudget, SubmissionReason, Admit, Rises;
    match op
    case DoMatch(id, quote, sink) => MatchBudget(s, id, quote, sink);
    case DoSubmit(c, sink) => SubmitBudget(s, c, sink);
    case DoQuote(symbol, q) =>
      if WithQuote(s.market, symbol, q).Ok? {
        QuoteStaysWithinBudget(s, symbol, q);
      }
    case _ => OtherBudget(s, op);
  }

  /** Every quote along the run reports volumes that do not fall. */
  ghost predicate CalmRun(s: Desk, ops: seq<Op>)
    requires Sound(s)
  {
    ops == [] || (CalmRun(s, ops[..|ops| - 1]) && Calm(Play(s, ops[..|ops| - 1]).0, ops[|ops| - 1]))
  }

  /** Along every such run the account's volume in each session and symbol stays within the
      participation limit of the quote that stands. */
  lemma {:induction false} BudgetHolds(s: Desk, ops: seq<Op>)
    requires Sound(s) && CalmRun(s, ops) && forall sym :: WithinBudget(s, sym)
    ensures forall sym :: WithinBudget(Play(s, ops).0, sym)
  {
    hide Sound, WithinBudget, Step, Calm;
    if ops != [] {
      BudgetHolds(s, ops[..|ops| - 1]);
      BudgetStands(Play(s, ops[..|ops| - 1]).0, ops[|ops| - 1]);
    }
  }

  lemma OtherBudget(s: Desk, op: Op)
    requires Sound(s) && !op.DoMatch? && !op.DoSubmit? && !op.DoQuote?
    requires forall sym :: WithinBudget(s, sym)
    ensures forall sym :: WithinBudget(Step(s, op).0, sym)
  {
    hide StoriesOk, TapeOk, OutboxOk, Ascending, ValidBooks, Registry, ValidMarket, Emit, Recorded;
    forall sym ensures WithinBudget(Step(s, op).0, sym) {
      assert WithinBudget(s, sym);
    }
  }

  lemma MatchBudget(s: Desk, id: Id, quote: Option<(Symbol, Quote)>, sink: Sink)
    requires Sound(s) && forall sym :: WithinBudget(s, sym)
    requires quote.Some? ==> Rises(s, quote.value.0, quote.value.1)
    ensures forall sym :: WithinBudget(Match(s, id, quote, sink).0, sym)
  {
    hide Keyed, StoriesOk, TapeOk, OutboxOk, Ascending, ValidBooks, MatchQuoted, WithQuote,
      WithinBudget, Rises;
    if id in s.blotter.orders {
      if quote.None? {
        MatchStaysWithinBudget(s, id, sink);
      } else if WithQuote(s.market, quote.value.0, quote.value.1).Ok? {
        QuoteKeeps(s, quote.value.0, quote.value.1);
        QuoteStaysWithinBudget(s, quote.value.0, quote.value.1);
        MatchStaysWithinBudget(s.(market := WithQuote(s.market, quote.value.0, quote.value.1).value), id, sink);
      }
    }
  }

  lemma SubmitBudget(s: Desk, c: Command, sink: Sink)
    requires Sound(s) && forall sym :: WithinBudget(s, sym)
    ensures forall sym :: WithinBudget(Submit(s, c, sink).0, sym)
  {
    hide Registry, ValidMarket, StoriesOk, TapeOk, OutboxOk, Ascending, ValidBooks, Match, Admit,
      WithinBudget;
    if c.key !in s.blotter.idempotency && OrderSession(s.market, c.symbol).Some? {
      var session := OrderSession(s.market, c.symbol).value;
      AdmitKeeps(s, c, session, sink.first);
      var admitted := Admit(s, c, session, sink.first);
      forall sym ensures WithinBudget(admitted, sym) {
        AdmitBudget(s, c, session, sink.first, sym);
      }
      MatchBudget(admitted, PaperOrderId(c.key), None, sink);
    }
  }

  lemma AdmitBudget(s: Desk, c: Command, session: Session, accepts: bool, sym: Symbol)
    requires ValidMarket(s.market) && WithinBudget(s, sym)
    ensures WithinBudget(Admit(s, c, session, accepts), sym)
  {
    hide ValidMarket, Emit, SubmissionReason;
  }

  /** Exactly how much volume an accepted quote must report for the limit to hold on: a
      quote below that is accepted all the same, and the limit is then exceeded. */
  lemma QuoteBudgetExactly(s: Desk, symbol: Symbol, q: Quote)
    requires WithQuote(s.market, symbol, q).Ok? && s.policy.participation > 0
    ensures WithinBudget(s.(market := WithQuote(s.market, symbol, q).value), symbol) <==>
      q.volume >= (UNITY * ConsumedOf(s.tape.consumed, (q.session, symbol))
                   + s.policy.participation - 1) / s.policy.participation
  {
    CeilingDivision(UNITY * ConsumedOf(s.tape.consumed, (q.session, symbol)), s.policy.participation,
                    q.volume);
  }

  lemma CeilingDivision(n: nat, d: nat, v: nat)
    requires d > 0
    ensures v >= (n + d - 1) / d <==> n <= v * d
  {
    var c := (n + d - 1) / d;
    assert n + d - 1 == d * c + (n + d - 1) % d;
    AtLeastOnce(d, v - c);
    assert d * (v - c) == v * d - d * c;
    AtLeastOnce(d, c - 1 - v);
  }

  // ---------------------------------------------------------------- cash and shares

  /** Settlement guards a match can never trip, whatever the fee schedule. */
  predicate NeverFromMatch(error: BrokerError) {
    || error == EconomicsRefused(NegativeCash)
    || error == EconomicsRefused(PositionDisappeared)
    || error == EconomicsRefused(ExceedsPosition)
  }

  /** The fee schedule never takes more than a sale brings in. */
  ghost predicate SaleFeesCovered(policy: Policy) {
    forall price: Price, shares: nat :: QUANTUM * policy.fees(Sell, price, shares) <= price * shares
  }

  /** The negative-cash guard is unreachable from a match, as are the missing-position
      and oversell guards; and the half-done settlement is one only of sales whose fees
      exceed their proceeds. */
  lemma GuardsUnreachable(s: Desk, id: Id, sink: Sink)
    requires Sound(s) && id in s.blotter.orders
    ensures var r := MatchQuoted(s, id, sink).1;
      && (r.Err? ==> !NeverFromMatch(r.error))
      && (r == Err(EconomicsBroken) ==>
            s.blotter.orders[id].command.side.Sell? && !SaleFeesCovered(s.policy))
  {
    hide StoriesOk, TapeOk, OutboxOk, Ascending, Registry, ValidMarket, ValidBooks, SettleAll, PlanOf,
      Settle, Fits, AfterTrade, AfterRefusal;
    OpenTells(s, id);
    var order := s.blotter.orders[id];
    var c := order.command;
    if c.symbol in s.market.quotes && c.symbol in s.market.instruments && !IsClosed(order.status) {
      var plan := PlanOf(s.market, s.policy, s.books, s.tape.consumed, c, order.filled);
      if plan.Take? {
        var q := s.market.quotes[c.symbol];
        var fill := TradedFill(order, s.policy, s.blotter.matchCounts[id] + 1, plan.shares, plan.price,
                               q.session, s.sequence + 1);
        PlanFits(s.market, s.policy, s.books, s.tape.consumed, c, order.filled);
        UnitIsPositive(s.market, c.symbol);
        FittingFillSettles(s.policy, s.books, c, s.market.instruments[c.symbol].tradingUnit, q.volume,
          ConsumedOf(s.tape.consumed, (q.session, c.symbol)), c.requested - order.filled, fill, Valuation(q));
        CoveredSaleSettles(s.policy, s.books, fill, Valuation(q));
      }
    }
  }

  lemma UnitIsPositive(m: Market, symbol: Symbol)
    requires ValidMarket(m) && symbol in m.instruments
    ensures m.instruments[symbol].tradingUnit > 0
  {
    assert ValidInstrument(m.instruments[symbol]);
  }

  lemma CoveredSaleSettles(policy: Policy, b: Books, fill: Fill, valuation: Option<Price>)
    requires ValidBooks(b) && fill.shares > 0
    requires fill.fees == policy.fees(fill.side, fill.price, fill.shares)
    ensures Settle(b, fill, valuation).HalfSettled? && fill.side.Sell? ==> !SaleFeesCovered(policy)
  {
    hide Settle;
    HalfSettledExactly(b, fill, valuation);
    if fill.side.Sell? && SaleFeesCovered(policy) {
      assert QUANTUM * policy.fees(Sell, fill.price, fill.shares) <= fill.price * fill.shares;
    }
  }

  lemma CoveredStepNeverBreaks(s: Desk, op: Op)
    requires Sound(s) && SaleFeesCovered(s.policy)
    ensures !Step(s, op).1
  {
    hide Registry, ValidMarket, StoriesOk, TapeOk, OutboxOk, Ascending, ValidBooks, MatchQuoted, Admit,
      WithQuote, SaleFeesCovered;
    match op
    case DoMatch(id, quote, sink) => CoveredMatchNeverBreaks(s, id, quote, sink);
    case DoSubmit(c, sink) =>
      hide Match;
      if c.key !in s.blotter.idempotency && OrderSession(s.market, c.symbol).Some? {
        var session := OrderSession(s.market, c.symbol).value;
        AdmitKeeps(s, c, session, sink.first);
        CoveredMatchNeverBreaks(Admit(s, c, session, sink.first), PaperOrderId(c.key), None, sink);
      }
    case _ =>
  }

  lemma CoveredMatchNeverBreaks(s: Desk, id: Id, quote: Option<(Symbol, Quote)>, sink: Sink)
    requires Sound(s) && SaleFeesCovered(s.policy)
    ensures Match(s, id, quote, sink).1 != Err(EconomicsBroken)
  {
    hide Keyed, StoriesOk, TapeOk, OutboxOk, Ascending, ValidBooks, MatchQuoted, SaleFeesCovered;
    if id in s.blotter.orders {
      if quote.None? {
        GuardsUnreachable(s, id, sink);
      } else if WithQuote(s.market, quote.value.0, quote.value.1).Ok? {
        QuoteKeeps(s, quote.value.0, quote.value.1);
        GuardsUnreachable(s.(market := WithQuote(s.market, quote.value.0, quote.value.1).value), id, sink);
      }
    }
  }

  /** If fees never exceed a sale's proceeds, no run ever leaves a settlement half done. */
  lemma {:induction false} CoveredRunNeverBreaks(s: Desk, ops: seq<Op>)
    requires Sound(s) && SaleFeesCovered(s.policy)
    ensures !Play(s, ops).1
  {
    if ops != [] {
      hide Sound, SaleFeesCovered, Step;
      CoveredRunNeverBreaks(s, ops[..|ops| - 1]);
      CoveredStepNeverBreaks(Play(s, ops[..|ops| - 1]).0, ops[|ops| - 1]);
    }
  }

  /** A fresh desk: nothing submitted, nothing told, nobody listening. */
  function Opened(start: Books, market: Market, policy: Policy, sequence: nat): Desk {
    Desk(start, start, market, policy, Blotter(map[], map[], map[], map[]), Tape([], map[], []),
         Outbox(false, false, [], [], []), sequence, false)
  }

  lemma OpenedIsSound(start: Books, market: Market, policy: Policy, sequence: nat)
    requires ValidBooks(start) && ValidMarket(market)
    ensures Sound(Opened(start, market, policy, sequence))
    ensures Balanced(Opened(start, market, policy, sequence))
    ensures forall sym :: WithinBudget(Opened(start, market, policy, sequence), sym)
  {
    hide ValidBooks, ValidMarket;
  }

  /** Whole runs, whatever is submitted, matched, cancelled, quoted or lost on the way to
      the sink, unless a sale's fees ate more than it brought in and all the cash: cash is
      the starting cash plus what was paid and received, up to half a money unit in ten
      thousand per fill; shares held are those at the start, plus bought, less sold; and
      only shares sellable at the start are ever sold. */
  lemma RunConserves(
    start: Books, market: Market, policy: Policy, sequence: nat, ops: seq<Op>, symbol: Symbol
  )
    requires ValidBooks(start) && ValidMarket(market)
    ensures Sound(Opened(start, market, policy, sequence))
    ensures var (s, broke) := Play(Opened(start, market, policy, sequence), ops);
      var n := |s.tape.ledger|;
      !broke ==>
        && s.tape.fills == LedgerFills(s.tape.ledger)
        && -QUANTUM * n
           <= 2 * (QUANTUM * s.books.cash - (QUANTUM * start.cash + NetFlow(s.tape.ledger)))
           <= QUANTUM * n
        && (n > 0 ==> s.books.assets == s.books.cash + MarketValue(s.books.positions))
        && Held(s.books.positions, symbol).total
           == Held(start.positions, symbol).total
              + Traded(s.tape.ledger, symbol, Buy) - Traded(s.tape.ledger, symbol, Sell)
        && Held(s.books.positions, symbol).sellable
           == Held(start.positions, symbol).sellable - Traded(s.tape.ledger, symbol, Sell)
  {
    var desk := Opened(start, market, policy, sequence);
    OpenedIsSound(start, market, policy, sequence);
    hide ValidBooks, ValidMarket, Registry, StoriesOk, OutboxOk, Ascending, SettleAll,
      NetFlow, Traded, Held, MarketValue;
    var (s, broke) := Play(desk, ops);
    if !broke {
      CashDrift(start, s.tape.ledger);
      SellableNeverGrows(start, s.tape.ledger, symbol);
      if s.tape.ledger != [] {
        AssetsAreCashPlusPositions(start, s.tape.ledger);
      }
    }
  }

  // --------------------------------------------------------------- idempotent calls

  /** The same order for the same execution, however its limit price was written. */
  predicate AgreeOnTerms(c: Command, d: Command) {
    && c.key == d.key && c.executionId == d.executionId && c.clientOrderId == d.clientOrderId
    && c.symbol == d.symbol && c.side == d.side && c.requested == d.requested && c.limit == d.limit
    && c.strategySession == d.strategySession
  }

  /** Submitting a known key again changes nothing: the same terms get the order as it now
      stands, other terms a collision. */
  lemma ResubmissionIsNoOp(s: Desk, c: Command, sink: Sink)
    requires Sound(s) && PaperOrderId(c.key) in s.blotter.orders
    requires s.connected && !s.outbox.failed
    ensures Submit(s, c, sink).0 == s
    ensures var known := s.blotter.orders[PaperOrderId(c.key)];
      Submit(s, c, sink).1 == if AgreeOnTerms(known.command, c) then Ok(known) else Err(KeyCollision)
  {
    hide StoriesOk, TapeOk, OutboxOk, Ascending, ValidBooks, ValidMarket, Match, Admit;
  }

  /** A first submission leaves the order on the books whatever else happens, except when
      it is refused before it is known. */
  lemma SubmissionIsKnown(s: Desk, c: Command, sink: Sink)
    requires Sound(s) && s.connected && !s.outbox.failed
    ensures PaperOrderId(c.key) in Submit(s, c, sink).0.blotter.orders
      <==> PaperOrderId(c.key) in s.blotter.orders || OrderSession(s.market, c.symbol).Some?
  {
    hide StoriesOk, TapeOk, OutboxOk, Ascending, ValidBooks, ValidMarket, Match, Admit;
    if c.key !in s.blotter.idempotency && OrderSession(s.market, c.symbol).Some? {
      var session := OrderSession(s.market, c.symbol).value;
      AdmitKeeps(s, c, session, sink.first);
      AdmitKeyed(s, c, session, sink.first);
      MatchRemembers(Admit(s, c, session, sink.first), PaperOrderId(c.key), None, sink, PaperOrderId(c.key));
    }
  }

  /** No match loses an order, and none touches a closed one. */
  lemma MatchRemembers(s: Desk, id: Id, quote: Option<(Symbol, Quote)>, sink: Sink, other: Id)
    requires Sound(s) && other in s.blotter.orders
    ensures var after := Match(s, id, quote, sink).0;
      && other in after.blotter.orders
      && (IsClosed(s.blotter.orders[other].status) || other != id ==>
            after.blotter.orders[other] == s.blotter.orders[other])
  {
    hide Keyed, StoriesOk, TapeOk, OutboxOk, Ascending, ValidBooks, SettleAll, MatchQuoted, WithQuote;
    if id in s.blotter.orders {
      if quote.None? {
        MatchQuotedRemembers(s, id, sink, other);
      } else if WithQuote(s.market, quote.value.0, quote.value.1).Ok? {
        QuoteKeeps(s, quote.value.0, quote.value.1);
        MatchQuotedRemembers(
          s.(market := WithQuote(s.market, quote.value.0, quote.value.1).value), id, sink, other);
      }
    }
  }

  lemma MatchQuotedRemembers(s: Desk, id: Id, sink: Sink, other: Id)
    requires Sound(s) && id in s.blotter.orders && other in s.blotter.orders
    ensures var after := MatchQuoted(s, id, sink).0;
      && other in after.blotter.orders
      && (IsClosed(s.blotter.orders[other].status) || other != id ==>
            after.blotter.orders[other] == s.blotter.orders[other])
  {
    hide StoriesOk, TapeOk, OutboxOk, Ascending, ValidBooks, ValidMarket, SettleAll, PlanOf,
      Settle, Emit, TapeAfter;
  }

  /** A closed order stays as it is through every later call. */
  lemma ClosedStays(s: Desk, op: Op, id: Id)
    requires Sound(s) && id in s.blotter.orders && IsClosed(s.blotter.orders[id].status)
    ensures var after := Step(s, op).0;
      id in after.blotter.orders && after.blotter.orders[id] == s.blotter.orders[id]
  {
    hide StoriesOk, TapeOk, OutboxOk, Ascending, ValidBooks, ValidMarket, Match, Admit, WithQuote,
      Emit, Redeliver;
    match op
    case DoMatch(other, quote, sink) => MatchRemembers(s, other, quote, sink, id);
    case DoSubmit(c, sink) =>
      if c.key !in s.blotter.idempotency && OrderSession(s.market, c.symbol).Some? {
        var session := OrderSession(s.market, c.symbol).value;
        AdmitKeeps(s, c, session, sink.first);
        AdmitRemembers(s, c, session, sink.first, id);
        MatchRemembers(Admit(s, c, session, sink.first), PaperOrderId(c.key), None, sink, id);
      }
    case DoCancel(other, _) =>
    case _ =>
  }

  lemma AdmitRemembers(s: Desk, c: Command, session: Session, accepts: bool, id: Id)
    requires Keyed(s) && c.key !in s.blotter.idempotency && id in s.blotter.orders
    ensures var after := Admit(s, c, session, accepts);
      id in after.blotter.orders && after.blotter.orders[id] == s.blotter.orders[id]
  {
    hide ValidMarket, Emit, SubmissionReason;
  }
}
