/** What every run of the paper broker keeps. */
module PaperInvariant {
  import opened Wrappers
  import opened Ids
  import opened PaperFacts
  import opened PaperBooks
  import opened PaperRules
  import opened PaperDesk

  function About(e: Event): Id {
    match e
    case OrderEvent(order) => order.orderId
    case FillEvent(fill) => fill.orderId
  }

  function SequenceOf(e: Event): nat {
    match e
    case OrderEvent(order) => order.sequence
    case FillEvent(fill) => fill.sequence
  }

  /** The events about one order, in the order they were emitted. */
  function Story(emitted: seq<Event>, id: Id): seq<Event> {
    if emitted == [] then []
    else
      var last := emitted[|emitted| - 1];
      var init := Story(emitted[..|emitted| - 1], id);
      if About(last) == id then init + [last] else init
  }

  function FillsTold(events: seq<Event>): seq<Fill> {
    if events == [] then []
    else
      var last := events[|events| - 1];
      var init := FillsTold(events[..|events| - 1]);
      if last.FillEvent? then init + [last.fill] else init
  }

  function SharesOf(fills: seq<Fill>): nat {
    if fills == [] then 0 else SharesOf(fills[..|fills| - 1]) + fills[|fills| - 1].shares
  }

  /** The shares traded in one session and symbol, over all orders. */
  function VolumeOf(fills: seq<Fill>, key: VolumeKey): nat {
    if fills == [] then 0
    else
      var last := fills[|fills| - 1];
      VolumeOf(fills[..|fills| - 1], key)
      + (if (last.session, last.symbol) == key then last.shares else 0)
  }

  function LedgerFills(ledger: seq<Entry>): seq<Fill> {
    if ledger == [] then []
    else LedgerFills(ledger[..|ledger| - 1]) + [ledger[|ledger| - 1].fill]
  }

  predicate CountsWithin(fills: seq<Fill>, bound: int) {
    forall f :: f in fills ==> f.fillId.PaperFillId? && f.fillId.matchCount <= bound
  }

  predicate Succeeds(before: OrderFact, after: OrderFact) {
    && after.orderId == before.orderId
    && after.command == before.command
    && !IsClosed(before.status)
    && before.sequence < after.sequence
  }

  predicate IsNextFill(fill: Fill, before: OrderFact, after: OrderFact, told: seq<Fill>) {
    && fill.orderId == before.orderId
    && fill.symbol == before.command.symbol && fill.side == before.command.side
    && 0 < fill.shares && after.filled == before.filled + fill.shares
    && before.sequence < fill.sequence < after.sequence
    && fill.fillId.PaperFillId?
    && fill.fillId == PaperFillId(fill.orderId, fill.fillId.matchCount, fill.shares, fill.price)
    && CountsWithin(told, fill.fillId.matchCount - 1)
  }

  /** The events about an order tell how it came to be what it is. */
  predicate Tells(story: seq<Event>, order: OrderFact)
    decreases |story|, 1
  {
    var n := |story|;
    && n > 0 && story[n - 1] == OrderEvent(order)
    && order.filled <= order.command.requested
    && (match order.status
        case Acknowledged => n == 1 && order.filled == 0
        case Rejected => n == 1 && order.filled == 0
        case Cancelled =>
          && n >= 2 && story[n - 2].OrderEvent?
          && Tells(story[..n - 1], story[n - 2].order)
          && Succeeds(story[n - 2].order, order)
          && order.filled == story[n - 2].order.filled
        case PartiallyFilled => order.filled < order.command.requested && TellsFill(story, order)
        case Filled => order.filled == order.command.requested && TellsFill(story, order)
        case _ => false)
  }

  predicate TellsFill(story: seq<Event>, order: OrderFact)
    decreases |story|, 0
  {
    var n := |story|;
    && n >= 3 && story[n - 2].FillEvent? && story[n - 3].OrderEvent?
    && Tells(story[..n - 2], story[n - 3].order)
    && Succeeds(story[n - 3].order, order)
    && IsNextFill(story[n - 2].fill, story[n - 3].order, order, FillsTold(story[..n - 2]))
  }

  predicate StoryFits(story: seq<Event>, order: Option<OrderFact>, count: nat) {
    if order.None? then story == []
    else Tells(story, order.value) && CountsWithin(FillsTold(story), count)
  }

  function OrderOf(b: Blotter, id: Id): Option<OrderFact> {
    if id in b.orders then Some(b.orders[id]) else None
  }

  function CountOf(b: Blotter, id: Id): nat {
    if id in b.matchCounts then b.matchCounts[id] else 0
  }

  ghost predicate StoriesOk(b: Blotter, emitted: seq<Event>) {
    forall id :: StoryFits(Story(emitted, id), OrderOf(b, id), CountOf(b, id))
  }

  ghost predicate TapeOk(t: Tape, emitted: seq<Event>) {
    && t.fills == FillsTold(emitted) == LedgerFills(t.ledger)
    && forall key :: ConsumedOf(t.consumed, key) == VolumeOf(t.fills, key)
  }

  predicate Ascending(emitted: seq<Event>, bound: int) {
    emitted == []
    || (var last := SequenceOf(emitted[|emitted| - 1]);
        last <= bound && Ascending(emitted[..|emitted| - 1], last - 1))
  }

  /** Nothing that was told is lost: the sink has it or it is pending. */
  ghost predicate OutboxOk(o: Outbox) {
    && (forall e :: e in o.emitted <==> e in o.delivered || e in o.pending)
    && (o.attached && !o.failed ==> o.pending == [])
  }

  ghost predicate Sound(s: Desk) {
    && Keyed(s)
    && StoriesOk(s.blotter, s.outbox.emitted)
    && TapeOk(s.tape, s.outbox.emitted)
    && Ascending(s.outbox.emitted, s.sequence)
    && OutboxOk(s.outbox)
    && ValidBooks(s.start) && ValidBooks(s.books)
  }

  /** The books are what the fills make of the books at the start. */
  ghost predicate Balanced(s: Desk) {
    SettleAll(s.start, s.tape.ledger) == Some(s.books)
  }

  // ---------------------------------------------------------------- one event more

  lemma StorySnoc(emitted: seq<Event>, e: Event, id: Id)
    ensures Story(emitted + [e], id)
         == if About(e) == id then Story(emitted, id) + [e] else Story(emitted, id)
    ensures FillsTold(emitted + [e])
         == if e.FillEvent? then FillsTold(emitted) + [e.fill] else FillsTold(emitted)
  {
    assert (emitted + [e])[..|emitted|] == emitted;
  }

  lemma AscendingSnoc(emitted: seq<Event>, bound: nat, e: Event)
    requires Ascending(emitted, bound) && SequenceOf(e) == bound + 1
    ensures Ascending(emitted + [e], bound + 1)
  {
    assert (emitted + [e])[..|emitted|] == emitted;
  }

  lemma {:induction false} AscendingWeaken(emitted: seq<Event>, bound: int, larger: int)
    requires Ascending(emitted, bound) && bound <= larger
    ensures Ascending(emitted, larger)
  {
  }

  lemma OutboxEmits(o: Outbox, e: Event, accepts: bool)
    requires OutboxOk(o)
    ensures OutboxOk(Emit(o, e, accepts)) && Emit(o, e, accepts).emitted == o.emitted + [e]
  {
  }

  lemma OutboxRedelivers(o: Outbox, stopAt: Option<nat>)
    requires OutboxOk(o)
    ensures OutboxOk(Redeliver(o, stopAt))
    ensures !Redeliver(o, stopAt).failed ==>
      forall e :: e in o.emitted ==> e in Redeliver(o, stopAt).delivered
  {
  }

  // ------------------------------------------------------------- stories move along

  lemma FirstTells(fact: OrderFact)
    requires fact.filled == 0 && (fact.status.Acknowledged? || fact.status.Rejected?)
    ensures StoryFits([] + [OrderEvent(fact)], Some(fact), 0)
  {
    StorySnoc([], OrderEvent(fact), fact.orderId);
  }

  lemma CancelTells(story: seq<Event>, before: OrderFact, after: OrderFact, count: nat)
    requires StoryFits(story, Some(before), count) && Succeeds(before, after)
    requires after.status.Cancelled? && after.filled == before.filled
    ensures StoryFits(story + [OrderEvent(after)], Some(after), count)
  {
    StorySnoc(story, OrderEvent(after), after.orderId);
    assert (story + [OrderEvent(after)])[..|story|] == story;
  }

  lemma FillTells(
    story: seq<Event>, before: OrderFact, fill: Fill, after: OrderFact, count: nat, next: nat
  )
    requires StoryFits(story, Some(before), count) && Succeeds(before, after) && count < next
    requires IsNextFill(fill, before, after, []) && fill.fillId.matchCount == next
    requires after.filled <= after.command.requested
    requires after.status
          == if after.filled == after.command.requested then Filled else PartiallyFilled
    ensures StoryFits(story + [FillEvent(fill)] + [OrderEvent(after)], Some(after), next)
  {
    var told := story + [FillEvent(fill)];
    var longer := told + [OrderEvent(after)];
    StorySnoc(story, FillEvent(fill), fill.orderId);
    StorySnoc(told, OrderEvent(after), fill.orderId);
    hide FillsTold;
    var n := |longer|;
    assert longer[..n - 2] == story;
    assert longer[n - 3] == OrderEvent(before) && longer[n - 2] == FillEvent(fill);
    assert CountsWithin(FillsTold(story), next - 1);
    assert TellsFill(longer, after);
    assert CountsWithin(FillsTold(longer), next);
  }

  /** The order of one id is replaced and its story grows; the others stay. */
  lemma StoriesGrow(b: Blotter, emitted: seq<Event>, c: Blotter, e: Event, id: Id)
    requires StoriesOk(b, emitted) && About(e) == id
    requires forall other :: other != id ==>
      OrderOf(c, other) == OrderOf(b, other) && CountOf(c, other) == CountOf(b, other)
    requires StoryFits(Story(emitted, id) + [e], OrderOf(c, id), CountOf(c, id))
    ensures StoriesOk(c, emitted + [e])
  {
    hide StoryFits, OrderOf, CountOf;
    forall other ensures StoryFits(Story(emitted + [e], other), OrderOf(c, other), CountOf(c, other)) {
      StorySnoc(emitted, e, other);
      assert StoryFits(Story(emitted, other), OrderOf(b, other), CountOf(b, other));
    }
  }

  lemma StoriesAdmit(b: Blotter, emitted: seq<Event>, fact: OrderFact, c: Blotter)
    requires StoriesOk(b, emitted) && fact.orderId !in b.orders
    requires fact.filled == 0 && (fact.status.Acknowledged? || fact.status.Rejected?)
    requires c.orders == b.orders[fact.orderId := fact]
    requires c.matchCounts == b.matchCounts[fact.orderId := 0]
    ensures StoriesOk(c, emitted + [OrderEvent(fact)])
  {
    hide Story;
    FirstTells(fact);
    assert Story(emitted, fact.orderId) == [] by {
      assert StoryFits(Story(emitted, fact.orderId), OrderOf(b, fact.orderId), CountOf(b, fact.orderId));
    }
    hide StoryFits, StoriesOk;
    StoriesGrow(b, emitted, c, OrderEvent(fact), fact.orderId);
  }

  lemma StoriesCancel(b: Blotter, emitted: seq<Event>, after: OrderFact, c: Blotter)
    requires StoriesOk(b, emitted) && after.orderId in b.orders
    requires Succeeds(b.orders[after.orderId], after)
    requires after.status.Cancelled? && after.filled == b.orders[after.orderId].filled
    requires c.orders == b.orders[after.orderId := after] && c.matchCounts == b.matchCounts
    ensures StoriesOk(c, emitted + [OrderEvent(after)])
  {
    var id := after.orderId;
    assert StoryFits(Story(emitted, id), OrderOf(b, id), CountOf(b, id));
    hide StoryFits, StoriesOk, Story;
    CancelTells(Story(emitted, id), b.orders[id], after, CountOf(b, id));
    StoriesGrow(b, emitted, c, OrderEvent(after), id);
  }

  /** As StoriesGrow, with two events. */
  lemma StoriesGrowTwice(b: Blotter, emitted: seq<Event>, c: Blotter, d: Event, e: Event, id: Id)
    requires StoriesOk(b, emitted) && About(d) == About(e) == id
    requires forall other :: other != id ==>
      OrderOf(c, other) == OrderOf(b, other) && CountOf(c, other) == CountOf(b, other)
    requires StoryFits(Story(emitted, id) + [d] + [e], OrderOf(c, id), CountOf(c, id))
    ensures StoriesOk(c, emitted + [d] + [e])
  {
    hide StoryFits, OrderOf, CountOf;
    var longer := emitted + [d] + [e];
    forall other ensures StoryFits(Story(longer, other), OrderOf(c, other), CountOf(c, other)) {
      StorySnoc(emitted, d, other);
      StorySnoc(emitted + [d], e, other);
      assert StoryFits(Story(emitted, other), OrderOf(b, other), CountOf(b, other));
    }
  }

  lemma StoriesTrade(b: Blotter, emitted: seq<Event>, fill: Fill, after: OrderFact, c: Blotter)
    requires StoriesOk(b, emitted) && after.orderId in b.orders && after.orderId in b.matchCounts
    requires Succeeds(b.orders[after.orderId], after)
    requires IsNextFill(fill, b.orders[after.orderId], after, [])
    requires fill.fillId.matchCount == b.matchCounts[after.orderId] + 1
    requires b.orders[after.orderId].orderId == after.orderId
    requires after.filled <= after.command.requested
    requires after.status
          == if after.filled == after.command.requested then Filled else PartiallyFilled
    requires c.orders == b.orders[after.orderId := after]
    requires c.matchCounts == b.matchCounts[after.orderId := fill.fillId.matchCount]
    ensures StoriesOk(c, emitted + [FillEvent(fill)] + [OrderEvent(after)])
  {
    var id := after.orderId;
    assert StoryFits(Story(emitted, id), OrderOf(b, id), CountOf(b, id));
    FillTells(Story(emitted, id), b.orders[id], fill, after, CountOf(b, id), CountOf(c, id));
    hide StoryFits, StoriesOk, Story, IsNextFill;
    StoriesGrowTwice(b, emitted, c, FillEvent(fill), OrderEvent(after), id);
  }

  /** A match that raised has only used up a match count. */
  lemma StoriesSkip(b: Blotter, emitted: seq<Event>, c: Blotter)
    requires StoriesOk(b, emitted) && c.orders == b.orders
    requires forall id :: CountOf(c, id) >= CountOf(b, id)
    ensures StoriesOk(c, emitted)
  {
    hide Tells, Story, FillsTold, CountOf;
    forall id ensures StoryFits(Story(emitted, id), OrderOf(c, id), CountOf(c, id)) {
      assert StoryFits(Story(emitted, id), OrderOf(b, id), CountOf(b, id));
    }
  }

  // -------------------------------------------------------------------- tape moves

  lemma TapeTrades(t: Tape, emitted: seq<Event>, fill: Fill, valuation: Option<Price>)
    requires TapeOk(t, emitted)
    ensures TapeOk(TapeAfter(t, fill, valuation), emitted + [FillEvent(fill)])
  {
    var after := TapeAfter(t, fill, valuation);
    StorySnoc(emitted, FillEvent(fill), fill.orderId);
    assert after.fills[..|t.fills|] == t.fills;
    assert after.ledger[..|t.ledger|] == t.ledger;
  }

  lemma TapeListens(t: Tape, emitted: seq<Event>, order: OrderFact)
    requires TapeOk(t, emitted)
    ensures TapeOk(t, emitted + [OrderEvent(order)])
  {
    StorySnoc(emitted, OrderEvent(order), order.orderId);
  }
}
