/** Cash and positions under a sequence of settled fills. */
module PaperBooks {
  import opened Wrappers
  import opened Ids
  import opened Rounding
  import opened PaperFacts

  datatype Books = Books(cash: nat, assets: nat, positions: map<Symbol, Position>)

  datatype SettleError =
    | NegativeCash
    | UnknownCost
    | NoValuation
    | PositionDisappeared
    | ExceedsPosition

  /** A refused fill leaves the books alone; a half-settled one has already changed the
      position when the new cash turns out not to be an amount of money. */
  datatype Settlement =
    | Settled(books: Books)
    | Refused(error: SettleError)
    | HalfSettled(broken: Books)

  ghost function MarketValue(positions: map<Symbol, Position>): nat {
    if positions == map[] then 0
    else
      var s :| s in positions;
      positions[s].marketValue + MarketValue(positions - {s})
  }

  function Gross(f: Fill): int { f.price * f.shares }

  /** The signed amount a fill moves, in price units, before rounding. */
  function CashFlow(f: Fill): int {
    if f.side.Buy? then -Gross(f) - QUANTUM * f.fees else Gross(f) - QUANTUM * f.fees
  }

  function Held(positions: map<Symbol, Position>, s: Symbol): Position {
    if s in positions then positions[s] else Position(0, 0, None, 0)
  }

  function CostOf(p: Position): int {
    if p.averageCost.Some? then p.averageCost.value * p.total else 0
  }

  /** The average cost after buying, to the nearest price unit. */
  function BlendedCost(p: Position, f: Fill): (cost: Price)
    requires f.side.Buy? && f.shares > 0 && (p.total > 0 ==> p.averageCost.Some?)
  {
    var total := p.total + f.shares;
    var spent := CostOf(p) + Gross(f) + QUANTUM * f.fees;
    BlendIsPositive(p, f);
    HalfUp(spent, total)
  }

  lemma UnitCovers(each: int, n: nat)
    requires each >= 1
    ensures each * n >= n
  {
    assert (each - 1) * n >= 0;
  }

  lemma BlendIsPositive(p: Position, f: Fill)
    requires f.side.Buy? && f.shares > 0 && (p.total > 0 ==> p.averageCost.Some?)
    ensures var total := p.total + f.shares;
      CostOf(p) + Gross(f) + QUANTUM * f.fees >= total > 0
    ensures HalfUp(CostOf(p) + Gross(f) + QUANTUM * f.fees, p.total + f.shares) > 0
  {
    hide HalfUp;
    if p.averageCost.Some? {
      UnitCovers(p.averageCost.value, p.total);
    }
    UnitCovers(f.price, f.shares);
    RoundsUpToOne(CostOf(p) + Gross(f) + QUANTUM * f.fees, p.total + f.shares);
  }

  lemma RoundsUpToOne(n: nat, d: nat)
    requires n >= d > 0
    ensures HalfUp(n, d) > 0
  {
    hide HalfUp;
    var r := HalfUp(n, d);
    assert d * r == 0 || r != 0;
  }

  ghost function WithCash(b: Books, positions: map<Symbol, Position>, cash: int): Settlement {
    var rounded := ToMoney(cash);
    if rounded < 0 then HalfSettled(b.(positions := positions))
    else Settled(Books(rounded, rounded + MarketValue(positions), positions))
  }

  /** What a fill makes of the positions; `valuation` is the quote's last price or
      previous close. */
  function PositionsAfter(b: Books, f: Fill, valuation: Option<Price>)
    : Result<map<Symbol, Position>, SettleError>
    requires f.shares > 0
  {
    var p := Held(b.positions, f.symbol);
    if f.side.Buy? then
      if QUANTUM * b.cash + CashFlow(f) < 0 then Err(NegativeCash)
      else if f.symbol in b.positions && p.averageCost.None? then Err(UnknownCost)
      else if valuation.None? then Err(NoValuation)
      else
        var total := p.total + f.shares;
        Ok(b.positions[f.symbol := Position(total, p.sellable, Some(BlendedCost(p, f)),
                                            ToMoney(valuation.value * total))])
    else if f.symbol !in b.positions then Err(PositionDisappeared)
    else if f.shares > p.total || f.shares > p.sellable then Err(ExceedsPosition)
    else if f.shares == p.total then Ok(b.positions - {f.symbol})
    else if valuation.None? then Err(NoValuation)
    else
      var total := p.total - f.shares;
      Ok(b.positions[f.symbol := p.(total := total, sellable := p.sellable - f.shares,
                                    marketValue := ToMoney(valuation.value * total))])
  }

  /** The economics of one fill: the position moves first, then the cash. */
  ghost function Settle(b: Books, f: Fill, valuation: Option<Price>): Settlement
    requires f.shares > 0
  {
    var moved := PositionsAfter(b, f, valuation);
    if moved.Err? then Refused(moved.error)
    else WithCash(b, moved.value, QUANTUM * b.cash + CashFlow(f))
  }

  datatype Entry = Entry(fill: Fill, valuation: Option<Price>)

  /** The books after a run of fills, each of which settled. */
  ghost function SettleAll(b: Books, entries: seq<Entry>): Option<Books> {
    if entries == [] then Some(b)
    else
      var before := SettleAll(b, entries[..|entries| - 1]);
      var last := entries[|entries| - 1];
      if before.None? || last.fill.shares == 0 then None
      else
        var after := Settle(before.value, last.fill, last.valuation);
        if after.Settled? then Some(after.books) else None
  }

  ghost predicate ValidBooks(b: Books) {
    forall s :: s in b.positions ==> ValidPosition(b.positions[s])
  }

  lemma SettleKeepsValid(b: Books, f: Fill, valuation: Option<Price>)
    requires ValidBooks(b) && f.shares > 0
    ensures var r := Settle(b, f, valuation);
      && (r.Settled? ==> ValidBooks(r.books) && r.books.cash <= r.books.assets)
      && (r.HalfSettled? ==> ValidBooks(r.broken))
  {
  }

  lemma {:induction false} RunKeepsValid(b: Books, entries: seq<Entry>)
    requires ValidBooks(b) && SettleAll(b, entries).Some?
    ensures ValidBooks(SettleAll(b, entries).value)
  {
    if entries != [] {
      var last := entries[|entries| - 1];
      RunKeepsValid(b, entries[..|entries| - 1]);
      SettleKeepsValid(SettleAll(b, entries[..|entries| - 1]).value, last.fill, last.valuation);
    }
  }

  // ------------------------------------------------------------------- whole runs

  function NetFlow(entries: seq<Entry>): int {
    if entries == [] then 0
    else NetFlow(entries[..|entries| - 1]) + CashFlow(entries[|entries| - 1].fill)
  }

  function Traded(entries: seq<Entry>, s: Symbol, side: Side): nat {
    if entries == [] then 0
    else
      var f := entries[|entries| - 1].fill;
      Traded(entries[..|entries| - 1], s, side)
      + (if f.symbol == s && f.side == side then f.shares else 0)
  }

  /** Cash conservation: after n fills the books are within n half-quanta of the exact
      sum of what was paid and received. */
  lemma {:induction false} CashDrift(b: Books, entries: seq<Entry>)
    requires SettleAll(b, entries).Some?
    ensures var exact := QUANTUM * b.cash + NetFlow(entries);
      -QUANTUM * |entries| <= 2 * (QUANTUM * SettleAll(b, entries).value.cash - exact)
        <= QUANTUM * |entries|
  {
    if entries != [] {
      CashDrift(b, entries[..|entries| - 1]);
    }
  }

  lemma SettledCash(b: Books, f: Fill, valuation: Option<Price>)
    requires f.shares > 0 && Settle(b, f, valuation).Settled?
    ensures Settle(b, f, valuation).books.cash == ToMoney(QUANTUM * b.cash + CashFlow(f))
  {
    hide MarketValue, BlendedCost;
  }

  lemma FlowOnQuantum(f: Fill)
    requires f.price % QUANTUM == 0
    ensures CashFlow(f) == QUANTUM * (CashFlow(f) / QUANTUM)
  {
    var ticks := f.price / QUANTUM;
    var lots := ticks * f.shares;
    assert f.price * f.shares == QUANTUM * lots by {
      assert f.price == QUANTUM * ticks;
    }
  }

  lemma WholeMoney(cash: int, amount: int)
    ensures ToMoney(QUANTUM * cash + QUANTUM * amount) == cash + amount
  {
    assert (QUANTUM * cash + QUANTUM * amount) % QUANTUM == 0 by {
      assert QUANTUM * cash + QUANTUM * amount == QUANTUM * (cash + amount);
    }
  }

  lemma SettledExactly(b: Books, f: Fill, valuation: Option<Price>)
    requires f.shares > 0 && f.price % QUANTUM == 0 && Settle(b, f, valuation).Settled?
    ensures QUANTUM * Settle(b, f, valuation).books.cash == QUANTUM * b.cash + CashFlow(f)
  {
    hide Settle, CashFlow, ToMoney;
    FlowOnQuantum(f);
    SettledCash(b, f, valuation);
    WholeMoney(b.cash, CashFlow(f) / QUANTUM);
  }

  /** With every price on the money quantum nothing is lost at all. */
  lemma {:induction false} CashExact(b: Books, entries: seq<Entry>)
    requires SettleAll(b, entries).Some?
    requires forall e :: e in entries ==> e.fill.price % QUANTUM == 0
    ensures QUANTUM * SettleAll(b, entries).value.cash == QUANTUM * b.cash + NetFlow(entries)
  {
    if entries != [] {
      hide Settle, CashFlow;
      var init, last := entries[..|entries| - 1], entries[|entries| - 1];
      CashExact(b, init);
      assert last in entries;
      SettledExactly(SettleAll(b, init).value, last.fill, last.valuation);
    }
  }

  /** After the first fill, total assets are cash plus the stored market values. */
  lemma AssetsAreCashPlusPositions(b: Books, entries: seq<Entry>)
    requires entries != [] && SettleAll(b, entries).Some?
    ensures var c := SettleAll(b, entries).value;
      c.assets == c.cash + MarketValue(c.positions)
  {
  }

  /** T+1: what may be sold is what could be sold at the start, less what was sold; and
      holdings are what was held, plus what was bought, less what was sold. Positions
      that disappear and come back are no exception. */
  lemma {:induction false} SellableNeverGrows(b: Books, entries: seq<Entry>, s: Symbol)
    requires ValidBooks(b) && SettleAll(b, entries).Some?
    ensures var start, now := Held(b.positions, s), Held(SettleAll(b, entries).value.positions, s);
      && now.sellable == start.sellable - Traded(entries, s, Sell)
      && now.total == start.total + Traded(entries, s, Buy) - Traded(entries, s, Sell)
  {
    if entries != [] {
      hide Settle, Held;
      var init, last := entries[..|entries| - 1], entries[|entries| - 1];
      SellableNeverGrows(b, init, s);
      RunKeepsValid(b, init);
      SettledShares(SettleAll(b, init).value, last.fill, last.valuation, s);
    }
  }

  lemma SettledShares(b: Books, f: Fill, valuation: Option<Price>, s: Symbol)
    requires ValidBooks(b) && f.shares > 0 && Settle(b, f, valuation).Settled?
    ensures var before, after := Held(b.positions, s), Held(Settle(b, f, valuation).books.positions, s);
      if f.symbol != s then after == before
      else if f.side.Buy? then
        after.total == before.total + f.shares && after.sellable == before.sellable
      else after.total == before.total - f.shares && after.sellable == before.sellable - f.shares
  {
    hide MarketValue, ToMoney, BlendedCost, CashFlow;
    if s in b.positions {
      assert ValidPosition(b.positions[s]);
    }
  }

  /** Shares bought during the run are never sold during the run. */
  lemma SoldWithinInitialSellable(b: Books, entries: seq<Entry>, s: Symbol)
    requires ValidBooks(b) && SettleAll(b, entries).Some?
    ensures Traded(entries, s, Sell) <= Held(b.positions, s).sellable
    ensures Held(SettleAll(b, entries).value.positions, s).total >= Traded(entries, s, Buy)
  {
    SellableNeverGrows(b, entries, s);
    if s in b.positions {
      assert ValidPosition(b.positions[s]);
    }
  }

  /** Buying moves the cost basis by what was spent, up to half a price unit per share. */
  lemma CostBasisConserved(b: Books, f: Fill, valuation: Option<Price>)
    requires ValidBooks(b) && f.shares > 0 && f.side.Buy?
    requires Settle(b, f, valuation).Settled?
    ensures var p := Held(b.positions, f.symbol);
      var q := Held(Settle(b, f, valuation).books.positions, f.symbol);
      && q.averageCost.Some?
      && -(q.total as int) <= 2 * (CostOf(q) - (CostOf(p) - CashFlow(f))) <= q.total
  {
    var p := Held(b.positions, f.symbol);
    assert ValidPosition(p);
    var total := p.total + f.shares;
    BlendIsPositive(p, f);
    var cost := HalfUp(CostOf(p) + Gross(f) + QUANTUM * f.fees, total);
    assert cost * total == total * cost;
  }

  /** A fill that raises leaves the books untouched, except a sale whose fees exceed cash
      plus proceeds by half a quantum or more: there the position has already gone. */
  lemma HalfSettledExactly(b: Books, f: Fill, valuation: Option<Price>)
    requires ValidBooks(b) && f.shares > 0
    ensures Settle(b, f, valuation).HalfSettled? <==>
      && f.side.Sell?
      && f.shares <= Held(b.positions, f.symbol).sellable
      && (valuation.Some? || f.shares == Held(b.positions, f.symbol).total)
      && 2 * (QUANTUM * f.fees - Gross(f) - QUANTUM * b.cash) >= QUANTUM
  {
    if f.symbol in b.positions {
      assert ValidPosition(b.positions[f.symbol]);
    }
  }

  /** A fill settles exactly when the cash and the position carry it and the position left
      can be valued. */
  lemma SettlesExactly(b: Books, f: Fill, valuation: Option<Price>)
    requires ValidBooks(b) && f.shares > 0
    ensures var p := Held(b.positions, f.symbol);
      var spare := QUANTUM * b.cash + (if f.side.Buy? then -Gross(f) else Gross(f)) - QUANTUM * f.fees;
      Settle(b, f, valuation).Settled? <==>
        match f.side
        case Buy => spare >= 0 && valuation.Some? && (f.symbol in b.positions ==> p.averageCost.Some?)
        case Sell => f.shares <= p.sellable && (valuation.Some? || f.shares == p.total) && 2 * spare > -QUANTUM
  {
    if f.symbol in b.positions {
      assert ValidPosition(b.positions[f.symbol]);
    }
  }

  /** The position at the nearest amount of money to its shares at this price. */
  predicate ValuedAt(p: Position, price: Price) {
    -QUANTUM <= 2 * (QUANTUM * p.marketValue - price * p.total) <= QUANTUM
  }

  /** What a settled fill leaves of the positions: its own valued at the quote, a sale at
      the same average cost, none of no shares; all others as they were. */
  lemma SettledPosition(b: Books, f: Fill, valuation: Option<Price>)
    requires ValidBooks(b) && f.shares > 0 && Settle(b, f, valuation).Settled?
    ensures var after := Settle(b, f, valuation).books.positions;
      && after - {f.symbol} == b.positions - {f.symbol}
      && (f.symbol in after ==>
            && after[f.symbol].total > 0
            && valuation.Some? && ValuedAt(after[f.symbol], valuation.value)
            && (f.side.Sell? ==> after[f.symbol].averageCost == Held(b.positions, f.symbol).averageCost))
      && (f.symbol !in after <==> f.side.Sell? && f.shares == Held(b.positions, f.symbol).total)
  {
    hide MarketValue, BlendedCost, CashFlow;
    if f.symbol in b.positions {
      assert ValidPosition(b.positions[f.symbol]);
    }
  }

  /** The last price that valued a fill in this symbol, if there was one. */
  function LastValuation(entries: seq<Entry>, s: Symbol): Option<Price> {
    if entries == [] then None
    else if entries[|entries| - 1].fill.symbol == s then entries[|entries| - 1].valuation
    else LastValuation(entries[..|entries| - 1], s)
  }

  predicate Touched(entries: seq<Entry>, s: Symbol) {
    exists e :: e in entries && e.fill.symbol == s
  }

  /** After any run of fills every position that was traded is worth its shares at the price
      that valued its last fill, and every other position is as it was. */
  lemma {:induction false} ValuedByLastFill(b: Books, entries: seq<Entry>, s: Symbol)
    requires ValidBooks(b) && SettleAll(b, entries).Some?
    ensures var after := SettleAll(b, entries).value.positions;
      if Touched(entries, s) then
        s in after ==> LastValuation(entries, s).Some? && ValuedAt(after[s], LastValuation(entries, s).value)
      else (s in after <==> s in b.positions) && (s in after ==> after[s] == b.positions[s])
  {
    hide Settle, ValuedAt;
    if entries != [] {
      var init, last := entries[..|entries| - 1], entries[|entries| - 1];
      assert entries == init + [last];
      ValuedByLastFill(b, init, s);
      RunKeepsValid(b, init);
      var before, after := SettleAll(b, init).value, SettleAll(b, entries).value;
      SettledPosition(before, last.fill, last.valuation);
      assert last in entries;
      if last.fill.symbol != s {
        assert (s in after.positions - {last.fill.symbol}) == (s in before.positions - {last.fill.symbol});
        assert s in after.positions ==>
          (after.positions - {last.fill.symbol})[s] == (before.positions - {last.fill.symbol})[s];
        assert Touched(entries, s) ==> Touched(init, s);
      }
    }
  }
}
