/** The order aggregate refines the paper broker's order: fed with what the broker tells
    about an order, it never refuses, and it ends where the broker's order is.

    The broker facts are turned into aggregate events as the persistence layer does. */
module PaperRefinement {
  import opened Wrappers
  import opened Ids
  import opened PaperFacts
  import opened PaperInvariant
  import O = Orders
  import OrderCancellation
  import OrderDelivery
  import OrderInvariant
  import OrderHistory
  import PaperBooks
  import PaperDesk
  import PaperRuns
  import PaperTheorems

  function AppliedOf(f: Fill): O.AppliedFill {
    O.AppliedFill(f.fillId, f.orderId, f.shares, f.price)
  }

  function Translate(e: Event): O.OrderEvent {
    match e
    case FillEvent(f) => O.OrderEvent(FillEventId(f.fillId), O.FillReported(AppliedOf(f)))
    case OrderEvent(fact) =>
      if fact.status.Rejected? then
        O.OrderEvent(RejectEventId(fact.orderId, fact.sequence), O.BrokerRejected("BROKER_REJECTED"))
      else if fact.status.Cancelled? then
        O.OrderEvent(CancelEventId(fact.orderId, fact.sequence), O.CancelConfirmed(Some(fact.orderId)))
      else
        O.OrderEvent(AckEventId(fact.orderId, fact.sequence), O.BrokerAcknowledged(fact.orderId))
  }

  function Feed(story: seq<Event>): seq<O.OrderEvent> {
    if story == [] then []
    else Feed(story[..|story| - 1]) + [Translate(story[|story| - 1])]
  }

  function AppliedAll(fills: seq<Fill>): seq<O.AppliedFill> {
    if fills == [] then []
    else AppliedAll(fills[..|fills| - 1]) + [AppliedOf(fills[|fills| - 1])]
  }

  /** Where the aggregate stands when the broker's order has this status. */
  predicate Mirrors(state: O.OrderState, status: OrderStatus) {
    match status
    case Acknowledged => state.Acknowledged?
    case PartiallyFilled => state.PartiallyFilled?
    case Filled => state.Filled?
    case Cancelled => state.Cancelled?
    case Rejected => state.Rejected?
    case _ => false
  }

  /** An order just submitted: nothing has come back from the broker yet. */
  ghost predicate Awaiting(a: O.Aggregate, requested: nat) {
    && OrderInvariant.Inv(a)
    && a.state.Submitting? && a.brokerOrderId.None? && a.fills == [] && a.filled == 0
    && a.intent.requested == requested
    && forall x :: x in a.applied ==>
         !x.eventId.AckEventId? && !x.eventId.FillEventId?
         && !x.eventId.CancelEventId? && !x.eventId.RejectEventId?
  }

  /** `b` is what `a` has become after the story. */
  ghost predicate Reflects(a: O.Aggregate, story: seq<Event>, fact: OrderFact, b: O.Aggregate) {
    && OrderInvariant.Inv(b)
    && b.intent == a.intent
    && b.filled == fact.filled
    && Mirrors(b.state, fact.status)
    && b.brokerOrderId == (if fact.status.Rejected? then None else Some(fact.orderId))
    && b.fills == AppliedAll(FillsTold(story))
    && LogTells(a.applied, story, b.applied)
  }

  ghost predicate LogTells(before: seq<O.AppliedEvent>, story: seq<Event>, after: seq<O.AppliedEvent>) {
    forall x :: x in after ==> x in before || exists e :: e in story && x.eventId == Translate(e).eventId
  }

  // ---------------------------------------------------------------- ids are fresh

  predicate KnownFill(e: Event) {
    e.FillEvent? ==>
      e.fill.fillId.PaperFillId?
      && e.fill.fillId
         == PaperFillId(e.fill.orderId, e.fill.fillId.matchCount, e.fill.shares, e.fill.price)
  }

  lemma {:induction false} StoryIds(story: seq<Event>, fact: OrderFact, e: Event)
    requires Tells(story, fact) && e in story
    ensures About(e) == fact.orderId && SequenceOf(e) <= fact.sequence && KnownFill(e)
    decreases |story|
  {
    var n := |story|;
    if story[n - 1] != e {
      if fact.status.Cancelled? {
        assert e in story[..n - 1];
        hide Tells;
        CancelledStory(story, fact);
        StoryIds(story[..n - 1], story[n - 2].order, e);
      } else {
        hide Tells;
        FilledStory(story, fact);
        if story[n - 2] != e {
          assert story == story[..n - 2] + [story[n - 2], story[n - 1]];
          StoryIds(story[..n - 2], story[n - 3].order, e);
        }
      }
    }
  }

  lemma CancelledStory(story: seq<Event>, fact: OrderFact)
    requires Tells(story, fact) && fact.status.Cancelled?
    ensures var n := |story|;
      && n >= 2 && story[n - 2].OrderEvent? && Tells(story[..n - 1], story[n - 2].order)
      && Succeeds(story[n - 2].order, fact) && fact.filled == story[n - 2].order.filled
      && story[n - 1] == OrderEvent(fact)
  {
  }

  lemma FilledStory(story: seq<Event>, fact: OrderFact)
    requires Tells(story, fact) && |story| > 1 && !fact.status.Cancelled?
    ensures TellsFill(story, fact) && story[|story| - 1] == OrderEvent(fact)
    ensures fact.filled <= fact.command.requested
    ensures fact.status.PartiallyFilled? || fact.status.Filled?
    ensures fact.status.Filled? <==> fact.filled == fact.command.requested
  {
  }

  lemma {:induction false} FillToldIn(story: seq<Event>, e: Event)
    ensures e in story && e.FillEvent? ==> e.fill in FillsTold(story)
  {
    if story != [] {
      FillToldIn(story[..|story| - 1], e);
    }
  }

  /** A later event about the order has an id its story has not used. */
  lemma FreshId(a: O.Aggregate, story: seq<Event>, fact: OrderFact, b: O.Aggregate, e: Event)
    requires Tells(story, fact) && Awaiting(a, a.intent.requested) && LogTells(a.applied, story, b.applied)
    requires e.OrderEvent? ==> fact.sequence < e.order.sequence
    requires e.FillEvent? ==>
      e.fill.fillId.PaperFillId? && CountsWithin(FillsTold(story), e.fill.fillId.matchCount - 1)
    ensures O.FindEvent(b.applied, Translate(e).eventId).None?
  {
    hide Tells, FillsTold, OrderInvariant.Inv, O.FindEvent;
    var found := O.FindEvent(b.applied, Translate(e).eventId);
    if found.Some? && found.value !in a.applied {
      var d :| d in story && found.value.eventId == Translate(d).eventId;
      StoryIds(story, fact, d);
      FillToldIn(story, d);
    }
  }

  // ----------------------------------------------------------------- event by event

  lemma CancelAccepted(b: O.Aggregate, e: O.OrderEvent, orderId: Id)
    requires OrderInvariant.Inv(b) && (b.state.Acknowledged? || b.state.PartiallyFilled?)
    requires e.body == O.CancelConfirmed(Some(orderId)) && b.brokerOrderId == Some(orderId)
    requires O.FindEvent(b.applied, e.eventId).None?
    ensures O.Apply(b, e) == O.Outcome.Ok(b.(
      state := O.Cancelled,
      applied := b.applied + [O.AppliedEvent(e.eventId, e)],
      version := b.version + 1))
  {
    OrderInvariant.ApplyKeepsInv(b, e);
    hide O.FindEvent, O.FindFill, OrderInvariant.Inv, O.ConstructorAccepts;
  }

  lemma RejectAccepted(b: O.Aggregate, e: O.OrderEvent)
    requires OrderInvariant.Inv(b) && b.state.Submitting? && e.body.BrokerRejected?
    requires O.FindEvent(b.applied, e.eventId).None?
    ensures O.Apply(b, e) == O.Outcome.Ok(b.(
      state := O.Rejected,
      applied := b.applied + [O.AppliedEvent(e.eventId, e)],
      version := b.version + 1))
  {
    OrderInvariant.ApplyKeepsInv(b, e);
    hide O.FindEvent, O.FindFill, OrderInvariant.Inv, O.ConstructorAccepts;
  }

  lemma RunSnoc(a: O.Aggregate, es: seq<O.OrderEvent>, e: O.OrderEvent)
    requires O.Run(a, es).Ok?
    ensures O.Run(a, es + [e]) == O.Apply(O.Run(a, es).value, e)
  {
    assert (es + [e])[..|es|] == es;
  }

  lemma FeedSnoc(story: seq<Event>, e: Event)
    ensures Feed(story + [e]) == Feed(story) + [Translate(e)]
  {
    assert (story + [e])[..|story|] == story;
  }

  lemma LogGrows(
    before: seq<O.AppliedEvent>, story: seq<Event>, log: seq<O.AppliedEvent>, e: Event, x: O.AppliedEvent
  )
    requires LogTells(before, story, log) && x.eventId == Translate(e).eventId
    ensures LogTells(before, story + [e], log + [x])
  {
    hide Translate;
    forall y | y in log + [x]
      ensures y in before || exists d :: d in story + [e] && y.eventId == Translate(d).eventId
    {
      if y in log {
        if y !in before {
          var d :| d in story && y.eventId == Translate(d).eventId;
          assert d in story + [e];
        }
      } else {
        assert e in story + [e];
      }
    }
  }

  lemma AwaitingIsFresh(a: O.Aggregate, e: Event)
    requires Awaiting(a, a.intent.requested)
    ensures O.FindEvent(a.applied, Translate(e).eventId).None?
    ensures LogTells(a.applied, [], a.applied)
  {
    hide OrderInvariant.Inv, O.FindEvent;
  }

  /** The aggregate takes the whole story and ends as the order stands. */
  ghost predicate Follows(a: O.Aggregate, story: seq<Event>, fact: OrderFact) {
    var r := O.Run(a, Feed(story));
    r.Ok? && Reflects(a, story, fact, r.value)
  }

  lemma FirstReflects(a: O.Aggregate, fact: OrderFact)
    requires Awaiting(a, fact.command.requested) && fact.filled == 0
    requires fact.status.Acknowledged? || fact.status.Rejected?
    ensures Follows(a, [OrderEvent(fact)], fact)
  {
    hide OrderInvariant.Inv, O.Apply, O.FindEvent, LogTells;
    var e := Translate(OrderEvent(fact));
    AwaitingIsFresh(a, OrderEvent(fact));
    FeedSnoc([], OrderEvent(fact));
    assert [] + [OrderEvent(fact)] == [OrderEvent(fact)];
    RunSnoc(a, [], e);
    if fact.status.Acknowledged? {
      OrderDelivery.AckAccepted(a, e, fact.orderId);
    } else {
      RejectAccepted(a, e);
    }
    OrderInvariant.ApplyKeepsInv(a, e);
    LogGrows(a.applied, [], a.applied, OrderEvent(fact), O.AppliedEvent(e.eventId, e));
    StorySnoc([], OrderEvent(fact), fact.orderId);
  }

  lemma CancelReflects(a: O.Aggregate, story: seq<Event>, before: OrderFact, fact: OrderFact)
    requires Tells(story, before) && Succeeds(before, fact) && Awaiting(a, a.intent.requested)
    requires fact.status.Cancelled? && fact.filled == before.filled
    requires Follows(a, story, before)
    ensures Follows(a, story + [OrderEvent(fact)], fact)
  {
    hide OrderInvariant.Inv, O.Apply, O.FindEvent, LogTells, Tells, Feed, FillsTold, O.Run;
    var b := O.Run(a, Feed(story)).value;
    var e := Translate(OrderEvent(fact));
    FreshId(a, story, before, b, OrderEvent(fact));
    FeedSnoc(story, OrderEvent(fact));
    RunSnoc(a, Feed(story), e);
    CancelAccepted(b, e, fact.orderId);
    OrderInvariant.ApplyKeepsInv(b, e);
    LogGrows(a.applied, story, b.applied, OrderEvent(fact), O.AppliedEvent(e.eventId, e));
    StorySnoc(story, OrderEvent(fact), fact.orderId);
  }

  lemma {:induction false} FreshFill(fills: seq<Fill>, f: Fill, x: O.AppliedFill)
    requires f.fillId.PaperFillId? && CountsWithin(fills, f.fillId.matchCount - 1)
    requires x in AppliedAll(fills)
    ensures x.fillId != f.fillId
  {
    if x != AppliedOf(fills[|fills| - 1]) {
      FreshFill(fills[..|fills| - 1], f, x);
    }
  }

  lemma FillReflects(
    a: O.Aggregate, story: seq<Event>, before: OrderFact, fill: Fill, fact: OrderFact
  )
    requires Tells(story, before) && Succeeds(before, fact) && Awaiting(a, fact.command.requested)
    requires IsNextFill(fill, before, fact, FillsTold(story)) && fact.filled <= fact.command.requested
    requires fact.status.Filled? || fact.status.PartiallyFilled?
    requires fact.status.Filled? <==> fact.filled == fact.command.requested
    requires Follows(a, story, before)
    ensures Follows(a, story + [FillEvent(fill)] + [OrderEvent(fact)], fact)
  {
    hide OrderInvariant.Inv, O.Apply, O.FindEvent, O.FindFill, LogTells, Tells, Feed, FillsTold, O.Run,
      AppliedAll, CountsWithin, Awaiting;
    var b := O.Run(a, Feed(story)).value;
    var d, e := Translate(FillEvent(fill)), Translate(OrderEvent(fact));
    assert a.intent.requested == fact.command.requested by { AwaitingRequested(a, fact.command.requested); }
    FreshId(a, story, before, b, FillEvent(fill));
    FreshId(a, story, before, b, OrderEvent(fact));
    FreshFills(FillsTold(story), fill);
    OrderDelivery.FillAccepted(b, d, AppliedOf(fill));
    OrderInvariant.ApplyKeepsInv(b, d);
    var c := O.Apply(b, d).value;
    OrderHistory.FindEventSnoc(b.applied, O.AppliedEvent(d.eventId, d), e.eventId);
    OrderDelivery.AckAccepted(c, e, fact.orderId);
    OrderInvariant.ApplyKeepsInv(c, e);
    FeedSnoc(story, FillEvent(fill));
    FeedSnoc(story + [FillEvent(fill)], OrderEvent(fact));
    RunSnoc(a, Feed(story), d);
    RunSnoc(a, Feed(story + [FillEvent(fill)]), e);
    LogGrows(a.applied, story, b.applied, FillEvent(fill), O.AppliedEvent(d.eventId, d));
    LogGrows(a.applied, story + [FillEvent(fill)], c.applied, OrderEvent(fact), O.AppliedEvent(e.eventId, e));
    StorySnoc(story, FillEvent(fill), fact.orderId);
    StorySnoc(story + [FillEvent(fill)], OrderEvent(fact), fact.orderId);
    AppliedSnoc(FillsTold(story), fill);
  }

  lemma AwaitingRequested(a: O.Aggregate, requested: nat)
    requires Awaiting(a, requested)
    ensures a.intent.requested == requested
  {
  }

  lemma FreshFills(fills: seq<Fill>, f: Fill)
    requires f.fillId.PaperFillId? && CountsWithin(fills, f.fillId.matchCount - 1)
    ensures O.FindFill(AppliedAll(fills), f.fillId).None?
  {
    hide O.FindFill, AppliedAll;
    var found := O.FindFill(AppliedAll(fills), f.fillId);
    if found.Some? {
      FreshFill(fills, f, found.value);
    }
  }

  lemma AppliedSnoc(fills: seq<Fill>, f: Fill)
    ensures AppliedAll(fills + [f]) == AppliedAll(fills) + [AppliedOf(f)]
  {
    assert (fills + [f])[..|fills|] == fills;
  }

  // ------------------------------------------------------------------- the theorem

  lemma {:induction false} StoryFollowed(a: O.Aggregate, story: seq<Event>, fact: OrderFact)
    requires Tells(story, fact) && Awaiting(a, fact.command.requested)
    ensures Follows(a, story, fact)
    decreases |story|
  {
    hide Tells, Follows, OrderInvariant.Inv, FillsTold, Awaiting;
    var n := |story|;
    AwaitingRequested(a, fact.command.requested);
    if n <= 1 {
      FirstStory(story, fact);
      FirstReflects(a, fact);
    } else if fact.status.Cancelled? {
      CancelledStory(story, fact);
      StoryFollowed(a, story[..n - 1], story[n - 2].order);
      CancelReflects(a, story[..n - 1], story[n - 2].order, fact);
      assert story == story[..n - 1] + [OrderEvent(fact)];
    } else {
      FilledStory(story, fact);
      StoryFollowed(a, story[..n - 2], story[n - 3].order);
      FillReflects(a, story[..n - 2], story[n - 3].order, story[n - 2].fill, fact);
      assert story == story[..n - 2] + [FillEvent(story[n - 2].fill)] + [OrderEvent(fact)];
    }
  }

  lemma FirstStory(story: seq<Event>, fact: OrderFact)
    requires Tells(story, fact) && |story| <= 1
    ensures story == [OrderEvent(fact)] && fact.filled == 0
    ensures fact.status.Acknowledged? || fact.status.Rejected?
  {
  }

  lemma {:induction false} FeedMembers(story: seq<Event>, x: O.OrderEvent)
    requires x in Feed(story)
    ensures exists e :: e in story && x == Translate(e)
  {
    var init, last := story[..|story| - 1], story[|story| - 1];
    if x == Translate(last) {
      assert last in story;
    } else {
      FeedMembers(init, x);
      var e :| e in init && x == Translate(e);
      assert e in story;
    }
  }

  /** What a story feeds to the aggregate carries one content per event id. */
  lemma FeedIdsDiffer(story: seq<Event>, fact: OrderFact, x: O.OrderEvent, y: O.OrderEvent)
    requires Tells(story, fact) && x in Feed(story) && y in Feed(story) && x.eventId == y.eventId
    ensures x == y
  {
    hide Tells;
    FeedMembers(story, x);
    FeedMembers(story, y);
    var d :| d in story && x == Translate(d);
    var e :| e in story && y == Translate(e);
    StoryIds(story, fact, d);
    StoryIds(story, fact, e);
  }

  lemma FeedIsConsistent(a: O.Aggregate, story: seq<Event>, fact: OrderFact, es: seq<O.OrderEvent>)
    requires Tells(story, fact) && Awaiting(a, fact.command.requested)
    requires forall x :: x in es ==> x in Feed(story)
    ensures OrderHistory.ConsistentIds(a, es)
  {
    hide Tells, Feed, OrderInvariant.Inv;
    forall d, e | d in es && e in es && d.eventId == e.eventId ensures d == e {
      FeedIdsDiffer(story, fact, d, e);
    }
    forall x, e | x in a.applied && e in es ensures x.eventId != e.eventId {
      FeedMembers(story, e);
    }
  }

  /** Refinement: whatever submits, matches and cancels make of a paper order, an aggregate
      awaiting the same shares, told of it in the order of emission with any events
      repeated at any later point, refuses nothing and ends with the same filled shares,
      in the state of the broker's order. */
  lemma BrokerOrderIsMirrored(s: PaperDesk.Desk, id: Id, a: O.Aggregate, delivery: seq<O.OrderEvent>)
    requires Sound(s) && id in s.blotter.orders
    requires Awaiting(a, s.blotter.orders[id].command.requested)
    requires OrderHistory.FirstCopies(delivery) == Feed(Story(s.outbox.emitted, id))
    ensures var order, r := s.blotter.orders[id], O.Run(a, delivery);
      && r.Ok?
      && r.value.filled == order.filled
      && Mirrors(r.value.state, order.status)
      && r.value.brokerOrderId == (if order.status.Rejected? then None else Some(id))
  {
    hide Tells, Feed, OrderInvariant.Inv, Story, StoriesOk, TapeOk, Ascending, OutboxOk, PaperDesk.Registry,
      PaperDesk.ValidMarket, PaperBooks.ValidBooks, Awaiting, O.Run;
    var order, story := s.blotter.orders[id], Story(s.outbox.emitted, id);
    PaperRuns.OpenTells(s, id);
    StoryFollowed(a, story, order);
    assert forall x :: x in delivery ==> x in OrderHistory.FirstCopies(delivery);
    FeedIsConsistent(a, story, order, delivery);
    OrderHistory.AtLeastOnceIsExactlyOnce(a, delivery);
  }

  // ------------------------------------------------------------- any delivery order

  predicate Distinct(es: seq<O.OrderEvent>) {
    forall x :: x in es ==> multiset(es)[x] == 1
  }

  lemma DistinctSnoc(es: seq<O.OrderEvent>, e: O.OrderEvent)
    requires Distinct(es) && e !in es
    ensures Distinct(es + [e])
  {
    forall x | x in es + [e] ensures multiset(es + [e])[x] == 1 {
      assert multiset(es + [e])[x] == multiset(es)[x] + multiset([e])[x];
      assert x in es <==> multiset(es)[x] > 0;
    }
  }

  lemma FreshInFeed(story: seq<Event>, fact: OrderFact, e: Event)
    requires Tells(story, fact)
    requires e.OrderEvent? ==> fact.sequence < e.order.sequence
    requires e.FillEvent? ==>
      e.fill.fillId.PaperFillId? && CountsWithin(FillsTold(story), e.fill.fillId.matchCount - 1)
    ensures Translate(e) !in Feed(story)
  {
    hide Tells, FillsTold, Feed;
    if Translate(e) in Feed(story) {
      FeedMembers(story, Translate(e));
      var d :| d in story && Translate(e) == Translate(d);
      StoryIds(story, fact, d);
      FillToldIn(story, d);
    }
  }

  lemma {:induction false} FeedIsDistinct(story: seq<Event>, fact: OrderFact)
    requires Tells(story, fact)
    ensures Distinct(Feed(story))
    decreases |story|
  {
    hide Tells, FillsTold, Distinct, Feed;
    var n := |story|;
    if n <= 1 {
      FirstStory(story, fact);
      FeedSnoc([], OrderEvent(fact));
      assert story == [] + [OrderEvent(fact)];
      NothingFed();
      DistinctSnoc(Feed([]), Translate(OrderEvent(fact)));
    } else if fact.status.Cancelled? {
      CancelledStory(story, fact);
      var init := story[..n - 1];
      FeedIsDistinct(init, story[n - 2].order);
      FreshInFeed(init, story[n - 2].order, OrderEvent(fact));
      assert story == init + [OrderEvent(fact)];
      FeedSnoc(init, OrderEvent(fact));
      DistinctSnoc(Feed(init), Translate(OrderEvent(fact)));
    } else {
      FilledStory(story, fact);
      var init, fill := story[..n - 2], story[n - 2].fill;
      FeedIsDistinct(init, story[n - 3].order);
      FillFeedsDistinct(init, story[n - 3].order, fill, fact);
      assert story == init + [FillEvent(fill)] + [OrderEvent(fact)];
    }
  }

  lemma NothingFed()
    ensures Feed([]) == [] && Distinct(Feed([]))
  {
  }

  lemma FillFeedsDistinct(story: seq<Event>, before: OrderFact, fill: Fill, fact: OrderFact)
    requires Tells(story, before) && Distinct(Feed(story)) && Succeeds(before, fact)
    requires IsNextFill(fill, before, fact, FillsTold(story)) && !fact.status.Cancelled?
    ensures Distinct(Feed(story + [FillEvent(fill)] + [OrderEvent(fact)]))
  {
    hide Tells, FillsTold, Distinct, Feed;
    FreshInFeed(story, before, FillEvent(fill));
    FreshInFeed(story, before, OrderEvent(fact));
    FeedSnoc(story, FillEvent(fill));
    FeedSnoc(story + [FillEvent(fill)], OrderEvent(fact));
    DistinctSnoc(Feed(story), Translate(FillEvent(fill)));
    DistinctSnoc(Feed(story + [FillEvent(fill)]), Translate(OrderEvent(fact)));
  }

  lemma {:induction false} FeedTotals(story: seq<Event>)
    ensures OrderDelivery.TotalShares(Feed(story)) == SharesOf(FillsTold(story))
  {
    if story != [] {
      var init, last := story[..|story| - 1], story[|story| - 1];
      FeedTotals(init);
      if last.FillEvent? {
        var fills := FillsTold(init);
        assert (fills + [last.fill])[..|fills|] == fills;
      }
      var es := Feed(init);
      assert (es + [Translate(last)])[..|es|] == es;
    }
  }

  /** While the order is open or filled, its story holds nothing but acknowledgements and
      fills. */
  lemma {:induction false} AnswersOnly(story: seq<Event>, fact: OrderFact, e: Event)
    requires Tells(story, fact) && e in story && !fact.status.Rejected? && !fact.status.Cancelled?
    ensures OrderDelivery.IsAnswer(Translate(e), fact.orderId)
    decreases |story|
  {
    hide Tells;
    var n := |story|;
    if n <= 1 {
      FirstStory(story, fact);
    } else {
      FilledStory(story, fact);
      assert story == story[..n - 2] + [story[n - 2], story[n - 1]];
      if e in story[..n - 2] {
        AnswersOnly(story[..n - 2], story[n - 3].order, e);
      }
    }
  }

  lemma FeedIsBurst(a: O.Aggregate, story: seq<Event>, fact: OrderFact)
    requires Tells(story, fact) && Awaiting(a, fact.command.requested)
    requires !fact.status.Rejected? && !fact.status.Cancelled?
    ensures OrderDelivery.Burst(a, Feed(story), fact.orderId)
  {
    hide Tells, Feed, OrderInvariant.Inv, FillsTold, SharesOf;
    var es := Feed(story);
    TellsWithin(story, fact);
    FeedTotals(story);
    FeedIsDistinct(story, fact);
    PaperTheorems.TellsAccounts(story, fact);
    forall e | e in es ensures OrderDelivery.IsAnswer(e, fact.orderId) {
      FeedMembers(story, e);
      var d :| d in story && e == Translate(d);
      AnswersOnly(story, fact, d);
    }
    forall d, e | d in es && e in es && d.eventId == e.eventId ensures d == e {
      FeedIdsDiffer(story, fact, d, e);
    }
    forall e | e in es
      ensures e.body.FillReported? ==> e.eventId == FillEventId(e.body.fill.fillId)
      ensures forall x :: x in a.applied ==> x.eventId != e.eventId
    {
      FeedMembers(story, e);
    }
  }

  lemma TellsWithin(story: seq<Event>, fact: OrderFact)
    requires Tells(story, fact)
    ensures fact.filled <= fact.command.requested
  {
  }

  /** Some fill comes after a cancellation. */
  predicate FillAfterCancel(es: seq<O.OrderEvent>) {
    exists i, j :: 0 <= i < j < |es| && es[i].body.CancelConfirmed? && es[j].body.FillReported?
  }

  /** `b` has taken the whole delivery and mirrors the order. */
  ghost predicate EndsAs(b: O.Outcome, fact: OrderFact, delivery: seq<O.OrderEvent>) {
    && b.Ok?
    && b.value.filled == fact.filled
    && Mirrors(b.value.state, fact.status)
    && b.value.brokerOrderId == (if fact.status.Rejected? then None else Some(fact.orderId))
    && (b.value.lateFillFlag <==> FillAfterCancel(delivery))
  }

  lemma OpenInAnyOrder(a: O.Aggregate, story: seq<Event>, fact: OrderFact, es: seq<O.OrderEvent>)
    requires Tells(story, fact) && Awaiting(a, fact.command.requested)
    requires !fact.status.Rejected? && !fact.status.Cancelled?
    requires multiset(es) == multiset(Feed(story))
    ensures EndsAs(O.Run(a, es), fact, es)
  {
    hide Tells, Feed, OrderInvariant.Inv, O.Run, OrderDelivery.NewAnswers, OrderDelivery.Settled,
      OrderDelivery.TotalShares, OrderDelivery.FillsIn;
    StoryFollowed(a, story, fact);
    FeedIsBurst(a, story, fact);
    OrderDelivery.AnswersCommute(a, Feed(story), es, fact.orderId);
    OrderDelivery.PermutedBurst(a, Feed(story), es, fact.orderId);
    OrderDelivery.BurstAccepted(a, es, fact.orderId);
    OrderCancellation.NotFlagged(a);
    OnlyAnswers(a, es, fact.orderId);
  }

  lemma OnlyAnswers(a: O.Aggregate, es: seq<O.OrderEvent>, orderId: Id)
    requires OrderDelivery.NewAnswers(a, es, orderId)
    ensures !FillAfterCancel(es)
  {
    hide OrderDelivery.TotalShares;
    forall i | 0 <= i < |es| ensures !es[i].body.CancelConfirmed? {
      assert es[i] in es;
    }
  }

  lemma RejectedStory(story: seq<Event>, fact: OrderFact)
    requires Tells(story, fact) && fact.status.Rejected?
    ensures story == [] + [OrderEvent(fact)] && fact.filled == 0
    ensures Translate(OrderEvent(fact)).body.BrokerRejected?
  {
  }

  lemma OneEvent(es: seq<O.OrderEvent>, e: O.OrderEvent)
    requires multiset(es) == multiset([] + [e])
    ensures es == [] + [e] && !FillAfterCancel(es)
  {
    assert |es| == |multiset(es)| == 1 && es[0] in multiset(es);
  }

  lemma RejectedInAnyOrder(a: O.Aggregate, story: seq<Event>, fact: OrderFact, es: seq<O.OrderEvent>)
    requires Tells(story, fact) && Awaiting(a, fact.command.requested) && fact.status.Rejected?
    requires multiset(es) == multiset(Feed(story))
    ensures EndsAs(O.Run(a, es), fact, es)
  {
    hide OrderInvariant.Inv, O.Apply, O.FindEvent, LogTells, Tells, Translate, FillAfterCancel;
    var e := Translate(OrderEvent(fact));
    RejectedStory(story, fact);
    FeedSnoc([], OrderEvent(fact));
    OneEvent(es, e);
    AwaitingIsFresh(a, OrderEvent(fact));
    RunSnoc(a, [], e);
    RejectAccepted(a, e);
    OrderCancellation.NotFlagged(a);
  }

  /** The cancellation is an event of its own, and what it cancels was not filled. */
  lemma CancelledFeed(a: O.Aggregate, story: seq<Event>, fact: OrderFact)
    requires Tells(story, fact) && Awaiting(a, fact.command.requested) && fact.status.Cancelled?
    ensures var n := |story|;
      && n >= 2 && story[n - 2].OrderEvent? && Tells(story[..n - 1], story[n - 2].order)
      && Feed(story) == Feed(story[..n - 1]) + [Translate(OrderEvent(fact))]
      && !story[n - 2].order.status.Rejected? && !story[n - 2].order.status.Cancelled?
      && story[n - 2].order.orderId == fact.orderId && story[n - 2].order.filled == fact.filled
      && story[n - 2].order.command.requested == fact.command.requested
      && fact.filled < fact.command.requested
      && forall x :: x in Feed(story[..n - 1]) ==> x.eventId != Translate(OrderEvent(fact)).eventId
  {
    hide Feed, OrderInvariant.Inv;
    var n := |story|;
    CancelledStory(story, fact);
    var init, before := story[..n - 1], story[n - 2].order;
    assert story == init + [OrderEvent(fact)];
    FeedSnoc(init, OrderEvent(fact));
    CancelledWasOpen(init, before, fact);
    RequestedIsPositive(a, fact.command.requested);
    forall x | x in Feed(init) ensures x.eventId != Translate(OrderEvent(fact)).eventId {
      FeedMembers(init, x);
      var d :| d in init && x == Translate(d);
      StoryIds(init, before, d);
    }
  }

  lemma CancelledWasOpen(story: seq<Event>, before: OrderFact, fact: OrderFact)
    requires Tells(story, before) && Succeeds(before, fact) && fact.status.Cancelled?
    ensures before.status.Acknowledged? || before.status.PartiallyFilled?
    ensures before.filled < before.command.requested || before.filled == 0
  {
  }

  lemma RequestedIsPositive(a: O.Aggregate, requested: nat)
    requires Awaiting(a, requested)
    ensures requested > 0
  {
    hide O.ConstructorAccepts;
  }

  lemma TakeOut(feed: seq<O.OrderEvent>, c: O.OrderEvent, es: seq<O.OrderEvent>)
    returns (front: seq<O.OrderEvent>, back: seq<O.OrderEvent>)
    requires multiset(es) == multiset(feed + [c])
    ensures es == front + [c] + back && multiset(feed) == multiset(front + back)
  {
    assert c in multiset(feed + [c]);
    var k :| 0 <= k < |es| && es[k] == c;
    front, back := es[..k], es[k + 1..];
    assert es == front + [c] + back;
    OrderDelivery.SameWithout(feed, c, front, back);
  }

  /** The story up to the cancellation, split in two at wherever the cancellation arrives. */
  lemma CancelInterrupts(
    a: O.Aggregate, story: seq<Event>, before: OrderFact, c: O.OrderEvent,
    front: seq<O.OrderEvent>, back: seq<O.OrderEvent>
  )
    requires Tells(story, before) && Awaiting(a, before.command.requested)
    requires !before.status.Rejected? && !before.status.Cancelled? && before.filled < before.command.requested
    requires multiset(Feed(story)) == multiset(front + back)
    requires c.body == O.CancelConfirmed(Some(before.orderId)) && O.FindEvent(a.applied, c.eventId).None?
    requires forall x :: x in Feed(story) ==> x.eventId != c.eventId
    ensures OrderCancellation.Interrupted(a, front, c, back, before.orderId)
    ensures OrderDelivery.TotalShares(front + back) == before.filled && a.filled == 0
  {
    hide Tells, Feed, OrderInvariant.Inv, O.FindEvent, OrderDelivery.NewAnswers, OrderDelivery.TotalShares,
      OrderDelivery.FillsIn, SharesOf, FillsTold;
    FeedIsBurst(a, story, before);
    OrderDelivery.PermutedBurst(a, Feed(story), front + back, before.orderId);
    OrderDelivery.PermutedTotals(Feed(story), front + back);
    OrderDelivery.PermutedMembers(Feed(story), front + back);
    OrderCancellation.TotalsJoin(front, back);
    FeedTotals(story);
    PaperTheorems.TellsAccounts(story, before);
  }

  lemma CancelledInAnyOrder(a: O.Aggregate, story: seq<Event>, fact: OrderFact, es: seq<O.OrderEvent>)
    requires Tells(story, fact) && Awaiting(a, fact.command.requested) && fact.status.Cancelled?
    requires multiset(es) == multiset(Feed(story))
    ensures EndsAs(O.Run(a, es), fact, es)
  {
    hide Tells, Feed, Awaiting, O.Run, OrderCancellation.Interrupted, OrderDelivery.TotalShares,
      OrderDelivery.FillsIn, OrderDelivery.AnyFill, FillAfterCancel, OrderInvariant.Inv, O.FindEvent;
    CancelledFeed(a, story, fact);
    var init, c, before := story[..|story| - 1], Translate(OrderEvent(fact)), story[|story| - 2].order;
    var front, back := TakeOut(Feed(init), c, es);
    AwaitingInv(a, fact.command.requested);
    AwaitingRequested(a, fact.command.requested);
    AwaitingIsFresh(a, OrderEvent(fact));
    CancelInterrupts(a, init, before, c, front, back);
    OrderCancellation.InterruptedAccepted(a, front, c, back, fact.orderId);
    InterruptedByOne(a, front, c, back, fact.orderId);
    FlagInOrder(front, c, back);
  }

  lemma AwaitingInv(a: O.Aggregate, requested: nat)
    requires Awaiting(a, requested)
    ensures OrderInvariant.Inv(a)
  {
  }

  lemma InterruptedByOne(
    a: O.Aggregate, front: seq<O.OrderEvent>, c: O.OrderEvent, back: seq<O.OrderEvent>, orderId: Id
  )
    requires OrderCancellation.Interrupted(a, front, c, back, orderId)
    ensures c.body.CancelConfirmed?
    ensures forall e :: e in front + back ==> !e.body.CancelConfirmed?
  {
    hide OrderDelivery.TotalShares, O.FindEvent;
  }

  lemma FlagInOrder(front: seq<O.OrderEvent>, c: O.OrderEvent, back: seq<O.OrderEvent>)
    requires c.body.CancelConfirmed? && forall e :: e in front + back ==> !e.body.CancelConfirmed?
    ensures FillAfterCancel(front + [c] + back) <==> OrderDelivery.AnyFill(back)
  {
    var es, k := front + [c] + back, |front|;
    assert es[k] == c;
    if OrderDelivery.AnyFill(back) {
      var e :| e in back && e.body.FillReported?;
      var j :| 0 <= j < |back| && back[j] == e;
      assert es[k + 1 + j] == e;
    }
    forall i | 0 <= i < k ensures !es[i].body.CancelConfirmed? {
      assert es[i] == front[i] && front[i] in front + back;
    }
    if FillAfterCancel(es) {
      var i, j :| 0 <= i < j < |es| && es[i].body.CancelConfirmed? && es[j].body.FillReported?;
      assert es[j] == back[j - k - 1] && es[j] in back;
    }
  }

  /** Redelivery after a lost callback can overtake: whatever became of the order, its
      events may arrive in any order at all, with any repeats, and the outcome is the same.
      What the order of arrival decides is only whether a fill is flagged as late. */
  lemma BrokerOrderIsMirroredInAnyOrder(
    s: PaperDesk.Desk, id: Id, a: O.Aggregate, delivery: seq<O.OrderEvent>
  )
    requires Sound(s) && id in s.blotter.orders
    requires Awaiting(a, s.blotter.orders[id].command.requested)
    requires multiset(OrderHistory.FirstCopies(delivery)) == multiset(Feed(Story(s.outbox.emitted, id)))
    ensures var order, r := s.blotter.orders[id], O.Run(a, delivery);
      && r.Ok?
      && r.value.filled == order.filled
      && Mirrors(r.value.state, order.status)
      && r.value.brokerOrderId == (if order.status.Rejected? then None else Some(id))
      && (r.value.lateFillFlag <==> FillAfterCancel(OrderHistory.FirstCopies(delivery)))
  {
    hide Tells, Feed, OrderInvariant.Inv, Story, StoriesOk, TapeOk, Ascending, OutboxOk, PaperDesk.Registry,
      PaperDesk.ValidMarket, PaperBooks.ValidBooks, O.Run, Awaiting, FillAfterCancel;
    var order, story := s.blotter.orders[id], Story(s.outbox.emitted, id);
    var firsts := OrderHistory.FirstCopies(delivery);
    PaperRuns.OpenTells(s, id);
    forall x | x in delivery ensures x in Feed(story) {
      assert x in firsts && x in multiset(firsts);
    }
    FeedIsConsistent(a, story, order, delivery);
    OrderHistory.AtLeastOnceIsExactlyOnce(a, delivery);
    if order.status.Rejected? {
      RejectedInAnyOrder(a, story, order, firsts);
    } else if order.status.Cancelled? {
      CancelledInAnyOrder(a, story, order, firsts);
    } else {
      OpenInAnyOrder(a, story, order, firsts);
    }
  }
}
