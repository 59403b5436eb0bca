/** When the paper broker trades: exactly which fill a match makes, what a first submission
    comes to, and that over whole runs nothing trades but what is due. */
module PaperTrades {
  import opened Wrappers
  import opened Ids
  import opened PaperFacts
  import opened PaperBooks
  import opened PaperRules
  import opened PaperDesk
  import opened PaperInvariant
  import opened PaperRuns
  import opened PaperTheorems
  import opened PaperAdmission

  // ------------------------------------------------------------------------ one match

  /** A fill is due to the order with these terms, filled so far with so many shares. */
  ghost predicate DueNow(s: Desk, order: OrderFact, shares: nat, price: Price) {
    Due(s.market, s.policy, s.books, s.tape.consumed, order.command, order.filled, shares, price)
  }

  /** The fill an order gets for these shares at this price. */
  function FillOf(s: Desk, order: OrderFact, count: nat, shares: nat, price: Price): Fill
    requires order.command.symbol in s.market.quotes
  {
    var c := order.command;
    Fill(PaperFillId(order.orderId, count, shares, price), order.orderId, c.symbol, c.side, shares, price,
         s.policy.fees(c.side, price, shares), s.market.quotes[c.symbol].session, s.sequence + 1)
  }

  /** An order after its next fill. */
  predicate FilledFurther(before: OrderFact, f: Fill, after: OrderFact) {
    && after.orderId == before.orderId && after.command == before.command
    && after.filled == before.filled + f.shares
    && after.status == (if after.filled < before.command.requested then PartiallyFilled else Filled)
    && after.session == f.session
  }

  /** The price a position is worth by: the last one, or the previous close. */
  function WorthBy(q: Quote): Option<Price> {
    match q.last
    case Some(price) => Some(price)
    case None => q.previousClose
  }

  /** A match of an open order fills it with exactly what is due, at the price and for the
      shares no other fill could replace, and settles it. */
  lemma DueIsFilled(s: Desk, id: Id, sink: Sink, shares: nat, price: Price)
    requires Sound(s) && id in s.blotter.orders && !IsClosed(s.blotter.orders[id].status)
    requires DueNow(s, s.blotter.orders[id], shares, price)
    ensures id in s.blotter.matchCounts && s.blotter.orders[id].command.symbol in s.market.quotes && shares > 0
    ensures var (after, r) := MatchQuoted(s, id, sink);
      var order := s.blotter.orders[id];
      var f := FillOf(s, order, s.blotter.matchCounts[id] + 1, shares, price);
      match Settle(s.books, f, Valuation(s.market.quotes[order.command.symbol]))
      case Settled(books) =>
        && after.tape.fills == s.tape.fills + [f] && after.books == books
        && after.tape.ledger == s.tape.ledger + [Entry(f, WorthBy(s.market.quotes[order.command.symbol]))]
        && id in after.blotter.orders && FilledFurther(order, f, after.blotter.orders[id])
        && after.outbox.emitted == s.outbox.emitted + [FillEvent(f)] + [OrderEvent(after.blotter.orders[id])]
        && (r.Err? ==> r.error == DeliveryFailed)
        && (r.Ok? ==> r.value.order == after.blotter.orders[id] && r.value.fill == Some(f))
      case Refused(why) =>
        after.tape == s.tape && after.books == s.books && after.blotter.orders == s.blotter.orders
        && r == Err(EconomicsRefused(why))
      case HalfSettled(broken) =>
        after.tape == s.tape && after.books == broken && after.blotter.orders == s.blotter.orders
        && r == Err(EconomicsBroken)
  {
    hide StoriesOk, TapeOk, OutboxOk, Ascending, Registry, ValidMarket, ValidBooks, PlanOf, Settle, Due;
    OpenTells(s, id);
    var order := s.blotter.orders[id];
    PlannedExactly(s.market, s.policy, s.books, s.tape.consumed, order.command, order.filled, shares, price);
    DueFacts(s, order, shares, price);
  }

  lemma DueFacts(s: Desk, order: OrderFact, shares: nat, price: Price)
    requires DueNow(s, order, shares, price)
    ensures order.command.symbol in s.market.quotes && order.command.symbol in s.market.instruments
    ensures shares > 0 && order.filled + shares <= order.command.requested
  {
    hide Fair, Affords, NothingLarger;
  }

  /** Where nothing is due, and for closed orders, a match changes nothing but the reason. */
  lemma NothingDue(s: Desk, id: Id, sink: Sink)
    requires Sound(s) && id in s.blotter.orders
    requires IsClosed(s.blotter.orders[id].status)
      || forall shares: nat, price: Price :: !DueNow(s, s.blotter.orders[id], shares, price)
    ensures var (after, r) := MatchQuoted(s, id, sink);
      && after == s.(blotter := s.blotter.(reasons := after.blotter.reasons))
      && (r.Ok? ==> r.value.order == s.blotter.orders[id] && r.value.fill.None?)
  {
    hide StoriesOk, TapeOk, OutboxOk, Ascending, Registry, ValidMarket, ValidBooks, PlanOf, Due;
    OpenTells(s, id);
    var order := s.blotter.orders[id];
    forall shares: nat, price: Price
      ensures PlanOf(s.market, s.policy, s.books, s.tape.consumed, order.command, order.filled) == Take(shares, price)
         <==> DueNow(s, order, shares, price)
    {
      PlannedExactly(s.market, s.policy, s.books, s.tape.consumed, order.command, order.filled, shares, price);
    }
  }

  // ------------------------------------------------------------------- one call, any run

  /** A fill that was due to its order when the call traded: by the facts the call left
      standing, and by the books, volumes and shares it found. */
  ghost predicate WasDue(s: Desk, after: Desk, f: Fill) {
    && f.orderId in after.blotter.orders
    && var order := after.blotter.orders[f.orderId];
    && var c := order.command;
    && f.shares <= order.filled
    && Due(after.market, s.policy, s.books, s.tape.consumed, c, order.filled - f.shares, f.shares, f.price)
    && f.symbol == c.symbol && f.side == c.side && f.fees == s.policy.fees(c.side, f.price, f.shares)
    && c.symbol in after.market.quotes && f.session == after.market.quotes[c.symbol].session
  }

  /** The calls that may trade an order. */
  predicate For(op: Op, id: Id) {
    (op.DoMatch? && op.orderId == id) || (op.DoSubmit? && id == PaperOrderId(op.command.key))
  }

  /** One more fill, and it was due. */
  ghost predicate Traded(s: Desk, after: Desk, id: Id) {
    && |after.tape.fills| == |s.tape.fills| + 1
    && after.tape.fills[..|s.tape.fills|] == s.tape.fills
    && var f := after.tape.fills[|s.tape.fills|];
    && f.orderId == id && WasDue(s, after, f)
    && after.tape.ledger == s.tape.ledger + [Entry(f, WorthBy(after.market.quotes[f.symbol]))]
  }

  lemma MatchTrades(s: Desk, id: Id, sink: Sink)
    requires Sound(s) && id in s.blotter.orders
    ensures var after := MatchQuoted(s, id, sink).0;
      after.tape.fills == s.tape.fills || Traded(s, after, id)
  {
    hide StoriesOk, TapeOk, OutboxOk, Ascending, Registry, ValidMarket, ValidBooks, Settle, Due, MatchQuoted;
    OpenTells(s, id);
    var order := s.blotter.orders[id];
    MatchQuotedVolume(s, id, sink);
    if !IsClosed(order.status) && exists shares: nat, price: Price :: DueNow(s, order, shares, price) {
      var shares: nat, price: Price :| DueNow(s, order, shares, price);
      DueFacts(s, order, shares, price);
      DueIsFilled(s, id, sink, shares, price);
    } else {
      NothingDue(s, id, sink);
    }
  }

  lemma StepTrades(s: Desk, op: Op)
    requires Sound(s)
    ensures var after := Step(s, op).0;
      after.tape.fills == s.tape.fills
      || (s.connected && !s.outbox.failed && exists id :: For(op, id) && Traded(s, after, id))
  {
    hide Registry, ValidMarket, StoriesOk, TapeOk, OutboxOk, Ascending, ValidBooks, MatchQuoted, Admit,
      WithQuote, WasDue, Emit, Redeliver, Recorded;
    match op
    case DoMatch(id, quote, sink) =>
      if id in s.blotter.orders {
        assert For(op, id);
        if quote.None? {
          MatchTrades(s, id, sink);
        } else if WithQuote(s.market, quote.value.0, quote.value.1).Ok? {
          QuoteKeeps(s, quote.value.0, quote.value.1);
          var quoted := s.(market := WithQuote(s.market, quote.value.0, quote.value.1).value);
          MatchTrades(quoted, id, sink);
          FoundTheSame(s, quoted, MatchQuoted(quoted, id, sink).0, id);
        }
      }
    case DoSubmit(c, sink) =>
      if c.key !in s.blotter.idempotency && OrderSession(s.market, c.symbol).Some? {
        var session := OrderSession(s.market, c.symbol).value;
        AdmitKeeps(s, c, session, sink.first);
        AdmitKeyed(s, c, session, sink.first);
        AdmitTradesNothing(s, c, session, sink.first);
        var admitted := Admit(s, c, session, sink.first);
        MatchTrades(admitted, PaperOrderId(c.key), sink);
        FoundTheSame(s, admitted, MatchQuoted(admitted, PaperOrderId(c.key), sink).0, PaperOrderId(c.key));
        assert For(op, PaperOrderId(c.key));
      }
    case _ =>
  }

  lemma FoundTheSame(s: Desk, t: Desk, after: Desk, id: Id)
    requires s.policy == t.policy && s.books == t.books && s.tape == t.tape
    ensures Traded(t, after, id) ==> Traded(s, after, id)
  {
    hide Due;
  }

  lemma AdmitTradesNothing(s: Desk, c: Command, session: Session, accepts: bool)
    requires ValidMarket(s.market)
    ensures var admitted := Admit(s, c, session, accepts);
      && admitted.tape == s.tape && admitted.books == s.books && admitted.policy == s.policy
      && admitted.market == s.market && admitted.connected == s.connected
  {
    hide ValidMarket, Emit, SubmissionReason;
  }

  /** The call at this place of a run made the fill at that place of the tape. */
  ghost predicate MadeBy(s: Desk, ops: seq<Op>, i: nat, k: nat)
    requires Sound(s) && i < |ops|
  {
    var before, after := Play(s, ops[..i]).0, Play(s, ops[..i + 1]).0;
    && |before.tape.fills| == k
    && before.connected && !before.outbox.failed
    && exists id :: For(ops[i], id) && Traded(before, after, id)
  }

  ghost predicate Made(s: Desk, ops: seq<Op>, k: nat)
    requires Sound(s)
  {
    exists i: nat :: i < |ops| && MadeBy(s, ops, i, k)
  }

  lemma PlayLast(s: Desk, ops: seq<Op>)
    requires Sound(s) && ops != []
    ensures var before := Play(s, ops[..|ops| - 1]).0;
      Sound(before) && Play(s, ops).0 == Step(before, ops[|ops| - 1]).0
  {
    hide Sound, Step, Play;
    PlaySnoc(s, ops[..|ops| - 1], ops[|ops| - 1]);
    assert ops == ops[..|ops| - 1] + [ops[|ops| - 1]];
  }

  lemma MadeEarlier(s: Desk, ops: seq<Op>, n: nat, k: nat)
    requires Sound(s) && n <= |ops| && Made(s, ops[..n], k)
    ensures Made(s, ops, k)
  {
    hide Sound, Play, For, Traded;
    var i: nat :| i < n && MadeBy(s, ops[..n], i, k);
    assert ops[..n][..i] == ops[..i] && ops[..n][..i + 1] == ops[..i + 1];
    assert MadeBy(s, ops, i, k);
  }

  lemma LastCallTrades(s: Desk, ops: seq<Op>)
    requires Sound(s) && ops != []
    ensures var before, after := Play(s, ops[..|ops| - 1]).0, Play(s, ops).0;
      || after.tape.fills == before.tape.fills
      || (&& before.tape.fills <= after.tape.fills && |after.tape.fills| == |before.tape.fills| + 1
          && Made(s, ops, |before.tape.fills|))
  {
    hide Sound, Play, Step, WasDue, For;
    var n := |ops| - 1;
    PlayLast(s, ops);
    var before, after := Play(s, ops[..n]).0, Play(s, ops).0;
    StepTrades(before, ops[n]);
    assert ops[..n + 1] == ops;
    if after.tape.fills != before.tape.fills {
      assert MadeBy(s, ops, n, |before.tape.fills|);
    }
  }

  /** Over every run: whatever is on the tape stays there, and every fill that is added was
      made by one call of the run, to a connected and undegraded broker, for its order, while
      the order was tradable and the fill was due. */
  lemma {:induction false} OnlyDueTrades(s: Desk, ops: seq<Op>)
    requires Sound(s)
    ensures s.tape.fills <= Play(s, ops).0.tape.fills
    ensures forall k: nat :: |s.tape.fills| <= k < |Play(s, ops).0.tape.fills| ==> Made(s, ops, k)
  {
    hide Sound, Made, Play, SettleAll;
    if ops == [] {
      PlayNothing(s);
    } else {
      var n := |ops| - 1;
      OnlyDueTrades(s, ops[..n]);
      LastCallTrades(s, ops);
      forall k: nat | |s.tape.fills| <= k < |Play(s, ops).0.tape.fills| ensures Made(s, ops, k) {
        if k < |Play(s, ops[..n]).0.tape.fills| {
          MadeEarlier(s, ops, n, k);
        }
      }
    }
  }

  // -------------------------------------------------------------------- first submission

  /** The session an order is recorded under: the quote's, or the instrument's without one. */
  ghost predicate RecordedUnder(m: Market, symbol: Symbol, session: Session) {
    if symbol in m.quotes then session == m.quotes[symbol].session
    else symbol in m.instruments && session == m.instruments[symbol].session
  }

  /** The first record of an order: acknowledged if it can be traded as things stand,
      rejected if not. */
  ghost predicate FirstRecord(s: Desk, c: Command, fact: OrderFact) {
    && fact.orderId == PaperOrderId(c.key) && fact.command == c && fact.filled == 0
    && fact.status == (if Tradable(s.market, s.policy, s.books.positions, c) then Acknowledged else Rejected)
    && RecordedUnder(s.market, c.symbol, fact.session) && fact.sequence == s.sequence + 1
  }

  lemma AdmitRecords(s: Desk, c: Command, session: Session, accepts: bool)
    requires Sound(s) && c.key !in s.blotter.idempotency && OrderSession(s.market, c.symbol) == Some(session)
    ensures var admitted, id := Admit(s, c, session, accepts), PaperOrderId(c.key);
      && id in admitted.blotter.orders && id in admitted.blotter.reasons
      && FirstRecord(s, c, admitted.blotter.orders[id])
      && admitted.blotter.orders == s.blotter.orders[id := admitted.blotter.orders[id]]
      && admitted.outbox.emitted == s.outbox.emitted + [OrderEvent(admitted.blotter.orders[id])]
      && (admitted.outbox.failed <==> s.outbox.failed || (s.outbox.attached && !accepts))
      && (admitted.blotter.orders[id].status.Rejected? ==>
            Says(admitted.blotter.reasons[id], s.market, s.policy, s.books.positions, c))
      && admitted.sequence == s.sequence + 1
      && id in admitted.blotter.matchCounts && admitted.blotter.matchCounts[id] == 0
  {
    hide StoriesOk, TapeOk, OutboxOk, Ascending, ValidBooks, Registry, SubmissionReason, Tradable, Says;
    RefusedExactly(s.market, s.policy, s.books.positions, c);
    if SubmissionReason(s.market, s.policy, s.books.positions, c).Some? {
      RefusalIsTrue(s.market, s.policy, s.books.positions, c);
    }
  }

  /** A first submission leaves its order rejected, with a true reason, exactly when it
      could not be traded as things stood; otherwise acknowledged or filled further. */
  lemma SubmissionRecords(s: Desk, c: Command, sink: Sink)
    requires Sound(s) && s.connected && !s.outbox.failed && c.key !in s.blotter.idempotency
    requires c.symbol in s.market.quotes || c.symbol in s.market.instruments
    ensures var (after, r) := Submit(s, c, sink);
      var id := PaperOrderId(c.key);
      var tradable := Tradable(s.market, s.policy, s.books.positions, c);
      && id in after.blotter.orders && after.blotter.orders[id].command == c
      && (after.blotter.orders[id].status.Rejected? <==> !tradable)
      && |s.outbox.emitted| < |after.outbox.emitted| && s.outbox.emitted <= after.outbox.emitted
      && after.outbox.emitted[|s.outbox.emitted|].OrderEvent?
      && FirstRecord(s, c, after.outbox.emitted[|s.outbox.emitted|].order)
      && (!tradable ==>
            && after.tape == s.tape && after.books == s.books
            && FirstRecord(s, c, after.blotter.orders[id]) && id in after.blotter.reasons
            && Says(after.blotter.reasons[id], s.market, s.policy, s.books.positions, c)
            && r == (if s.outbox.attached && !sink.first then Err(DeliveryFailed)
                     else Ok(after.blotter.orders[id])))
  {
    hide StoriesOk, TapeOk, OutboxOk, Ascending, ValidBooks, ValidMarket, Registry, Admit, MatchQuoted, Tradable, Says,
      OrdersKeyed;
    var session := OrderSession(s.market, c.symbol).value;
    AdmitKeeps(s, c, session, sink.first);
    AdmitKeyed(s, c, session, sink.first);
    AdmitRecords(s, c, session, sink.first);
    AdmitTradesNothing(s, c, session, sink.first);
    var admitted, id := Admit(s, c, session, sink.first), PaperOrderId(c.key);
    if !admitted.outbox.failed && !admitted.blotter.orders[id].status.Rejected? {
      MatchTellsOn(admitted, id, sink);
    }
  }

  lemma TradeTellsOn(s: Desk, id: Id, shares: nat, price: Price, sink: Sink)
    requires Keyed(s) && id in s.blotter.orders && id in s.blotter.matchCounts && shares > 0
    requires s.blotter.orders[id].command.symbol in s.market.quotes && s.blotter.orders[id].orderId == id
    ensures var after := Trade(s, id, shares, price, sink).0;
      && s.outbox.emitted <= after.outbox.emitted
      && id in after.blotter.orders && after.blotter.orders[id].command == s.blotter.orders[id].command
      && (after.blotter.orders[id].status.Rejected? ==> s.blotter.orders[id].status.Rejected?)
  {
    hide Registry, ValidMarket, Settle, TapeAfter;
  }

  /** A match only adds to what was told, and leaves an order the order it was. */
  lemma MatchTellsOn(s: Desk, id: Id, sink: Sink)
    requires Sound(s) && id in s.blotter.orders
    ensures var after := MatchQuoted(s, id, sink).0;
      && s.outbox.emitted <= after.outbox.emitted
      && id in after.blotter.orders && after.blotter.orders[id].command == s.blotter.orders[id].command
      && (after.blotter.orders[id].status.Rejected? ==> s.blotter.orders[id].status.Rejected?)
  {
    hide StoriesOk, TapeOk, OutboxOk, Ascending, Registry, ValidMarket, ValidBooks, Trade, PlanOf;
    OpenTells(s, id);
    var order := s.blotter.orders[id];
    if order.command.symbol in s.market.quotes {
      var plan := PlanOf(s.market, s.policy, s.books, s.tape.consumed, order.command, order.filled);
      if plan.Take? {
        TradeTellsOn(s, id, plan.shares, plan.price, sink);
      }
    }
  }

  /** What is due to a first submission is filled by the same call, once its acknowledgement
      has been taken. */
  lemma SubmissionTrades(s: Desk, c: Command, sink: Sink, shares: nat, price: Price)
    requires Sound(s) && s.connected && !s.outbox.failed && c.key !in s.blotter.idempotency
    requires Due(s.market, s.policy, s.books, s.tape.consumed, c, 0, shares, price)
    requires s.outbox.attached ==> sink.first
    ensures c.symbol in s.market.quotes && shares > 0
    ensures var (after, r) := Submit(s, c, sink);
      var q := s.market.quotes[c.symbol];
      var f := Fill(PaperFillId(PaperOrderId(c.key), 1, shares, price), PaperOrderId(c.key), c.symbol, c.side, shares,
                    price, s.policy.fees(c.side, price, shares), q.session, s.sequence + 2);
      match Settle(s.books, f, Valuation(q))
      case Settled(books) => after.tape.fills == s.tape.fills + [f] && after.books == books
      case Refused(_) => after.tape == s.tape && after.books == s.books
      case HalfSettled(broken) => after.tape == s.tape && after.books == broken
  {
    hide StoriesOk, TapeOk, OutboxOk, Ascending, ValidBooks, ValidMarket, Registry, Admit, MatchQuoted, Due, Settle,
      Tradable;
    DueIsTradable(s, c, shares, price);
    var session := OrderSession(s.market, c.symbol).value;
    AdmitKeeps(s, c, session, sink.first);
    AdmitKeyed(s, c, session, sink.first);
    AdmitRecords(s, c, session, sink.first);
    AdmitTradesNothing(s, c, session, sink.first);
    var admitted, id := Admit(s, c, session, sink.first), PaperOrderId(c.key);
    assert DueNow(admitted, admitted.blotter.orders[id], shares, price);
    DueIsFilled(admitted, id, sink, shares, price);
  }

  lemma DueIsTradable(s: Desk, c: Command, shares: nat, price: Price)
    requires Due(s.market, s.policy, s.books, s.tape.consumed, c, 0, shares, price)
    ensures Tradable(s.market, s.policy, s.books.positions, c) && c.symbol in s.market.quotes && shares > 0
  {
    hide Fair, Fits, NothingLarger, InSession, BandAgreed, LimitAllowed, SizeAllowed;
  }
}
