/** Average-cost profit and loss (src/mm/accounting/pnl.py). */
module Pnl {
  import opened Dicts
  import opened Types
  import opened OmsRuns

  datatype PnlState = PnlState(position: real, avgCost: real, realized: real, fees: real)

  const FLAT := PnlState(0.0, 0.0, 0.0, 0.0)

  /** The average cost of a position of `position` at `cost` after buying `size` at `price`. */
  function CostAfter(cost: real, position: real, price: real, size: real): real
    requires position + size != 0.0
  {
    (Notional(cost, position) + Notional(price, size)) / (position + size)
  }

  function AfterBuy(p: PnlState, price: real, size: real): PnlState {
    if size <= 0.0 then p
    else if p.position + size <= 0.0 then p.(position := p.position + size)
    else p.(avgCost := CostAfter(p.avgCost, p.position, price, size), position := p.position + size)
  }

  function AfterSell(p: PnlState, price: real, size: real): PnlState {
    if size <= 0.0 then p
    else
      var close := Min(size, p.position);
      var sold := p.(realized := p.realized + Notional(price - p.avgCost, close), position := p.position - close);
      if sold.position <= 0.0 then sold.(position := 0.0, avgCost := 0.0) else sold
  }

  /** `SymbolPnl.apply_fill` */
  function FilledPnl(p: PnlState, fill: FillEvent): PnlState {
    var traded := if fill.side == Buy then AfterBuy(p, fill.price, fill.size) else AfterSell(p, fill.price, fill.size);
    traded.(fees := traded.fees + fill.fee)
  }

  function Unrealized(p: PnlState, mark: real): real {
    Notional(mark - p.avgCost, p.position)
  }

  function Total(p: PnlState, mark: real): real {
    p.realized + Unrealized(p, mark) - p.fees
  }

  class SymbolPnl {
    const symbol: string
    var position: real
    var avgCost: real
    var realizedPnl: real
    var fees: real

    constructor (symbol: string)
      ensures this.symbol == symbol && State() == FLAT
    {
      this.symbol := symbol;
      position, avgCost, realizedPnl, fees := 0.0, 0.0, 0.0, 0.0;
    }

    function State(): PnlState
      reads this
    {
      PnlState(position, avgCost, realizedPnl, fees)
    }

    method ApplyFill(fill: FillEvent)
      modifies this
      ensures State() == FilledPnl(old(State()), fill)
    {
      if fill.side == Buy {
        ApplyBuy(fill.price, fill.size);
      } else {
        ApplySell(fill.price, fill.size);
      }
      fees := fees + fill.fee;
    }

    method ApplyBuy(price: real, size: real)
      modifies this
      ensures State() == AfterBuy(old(State()), price, size)
    {
      if size <= 0.0 {
        return;
      }
      var newPosition := position + size;
      if newPosition <= 0.0 {
        position := newPosition;
        return;
      }
      avgCost := (Notional(avgCost, position) + Notional(price, size)) / newPosition;
      position := newPosition;
    }

    method ApplySell(price: real, size: real)
      modifies this
      ensures State() == AfterSell(old(State()), price, size)
    {
      if size <= 0.0 {
        return;
      }
      var closeSize := Min(size, position);
      realizedPnl := realizedPnl + Notional(price - avgCost, closeSize);
      position := position - closeSize;
      if position <= 0.0 {
        position := 0.0;
        avgCost := 0.0;
      }
    }
  }

  // ------------------------------------------------------------------------------- what the fills were worth

  function RunPnl(fills: seq<FillEvent>): PnlState {
    if fills == [] then FLAT else FilledPnl(RunPnl(fills[..|fills| - 1]), fills[|fills| - 1])
  }

  /** The position after the fills: buys add, sells take away what is held. */
  function Held(fills: seq<FillEvent>): (r: real)
    ensures r >= 0.0
  {
    if fills == [] then 0.0
    else
      var before, fill := Held(fills[..|fills| - 1]), fills[|fills| - 1];
      if fill.size <= 0.0 then before
      else if fill.side == Buy then before + fill.size
      else Max(before - fill.size, 0.0)
  }

  function Bought(fills: seq<FillEvent>): real {
    if fills == [] then 0.0
    else
      var before, fill := Bought(fills[..|fills| - 1]), fills[|fills| - 1];
      if fill.side == Buy && fill.size > 0.0 then before + Notional(fill.price, fill.size) else before
  }

  /** The notional of the sells, each matched up to the position held when it came. */
  function Matched(fills: seq<FillEvent>): real {
    if fills == [] then 0.0
    else
      var init, fill := fills[..|fills| - 1], fills[|fills| - 1];
      if fill.side == Sell && fill.size > 0.0 then Matched(init) + Notional(fill.price, Min(fill.size, Held(init)))
      else Matched(init)
  }

  function Charged(fills: seq<FillEvent>): real {
    if fills == [] then 0.0 else Charged(fills[..|fills| - 1]) + fills[|fills| - 1].fee
  }

  /** The prices paid since the position was last flat. */
  function PaidSinceFlat(fills: seq<FillEvent>): seq<real> {
    if fills == [] then []
    else
      var init, fill := fills[..|fills| - 1], fills[|fills| - 1];
      if fill.size <= 0.0 then PaidSinceFlat(init)
      else if fill.side == Buy then (if Held(init) == 0.0 then [] else PaidSinceFlat(init)) + [fill.price]
      else if Held(fills) == 0.0 then []
      else PaidSinceFlat(init)
  }

  /** The value the fills have earned at a mark price. */
  function Worth(fills: seq<FillEvent>, mark: real): real {
    Notional(mark, Held(fills)) + Matched(fills) - Bought(fills) - Charged(fills)
  }

  /** The books balance: what was realized is what was matched, less the cost of what is not held any more. */
  ghost predicate Balanced(p: PnlState, fills: seq<FillEvent>) {
    && p.position == Held(fills) && p.fees == Charged(fills)
    && p.realized == Matched(fills) - Bought(fills) + Notional(p.avgCost, p.position)
  }

  lemma BuyBalanced(p: PnlState, init: seq<FillEvent>, fill: FillEvent)
    requires Balanced(p, init) && fill.side == Buy
    ensures Balanced(FilledPnl(p, fill), init + [fill])
  {
    assert (init + [fill])[..|init|] == init;
    if fill.size > 0.0 {
      var cost := CostAfter(p.avgCost, p.position, fill.price, fill.size);
      assert Notional(cost, p.position + fill.size)
          == Notional(p.avgCost, p.position) + Notional(fill.price, fill.size);
      hide Notional, CostAfter;
    }
  }

  lemma SellBalanced(p: PnlState, init: seq<FillEvent>, fill: FillEvent)
    requires Balanced(p, init) && fill.side == Sell
    ensures Balanced(FilledPnl(p, fill), init + [fill])
  {
    hide Notional;
    assert (init + [fill])[..|init|] == init;
    if fill.size > 0.0 {
      var close := Min(fill.size, p.position);
      NotionalMinus(fill.price, p.avgCost, close);
      NotionalLess(p.avgCost, p.position, close);
    }
  }

  lemma NotionalMinus(a: real, b: real, size: real)
    ensures Notional(a - b, size) == Notional(a, size) - Notional(b, size)
  {
  }

  lemma NotionalLess(a: real, size: real, less: real)
    ensures Notional(a, size - less) == Notional(a, size) - Notional(a, less)
    ensures Notional(0.0, 0.0) == Notional(a, 0.0) == 0.0
  {
  }

  lemma {:induction false} RunBalanced(fills: seq<FillEvent>)
    ensures Balanced(RunPnl(fills), fills)
  {
    if fills == [] {
      NotionalLess(0.0, 0.0, 0.0);
    } else {
      var n := |fills| - 1;
      RunBalanced(fills[..n]);
      assert fills == fills[..n] + [fills[n]];
      hide FilledPnl, Balanced;
      if fills[n].side == Buy {
        BuyBalanced(RunPnl(fills[..n]), fills[..n], fills[n]);
      } else {
        SellBalanced(RunPnl(fills[..n]), fills[..n], fills[n]);
      }
    }
  }

  /** From flat, after any fills at all, the position is not negative, and the total is the mark value of the position,
      plus matched sells, less buys and fees. */
  lemma PnlIdentity(fills: seq<FillEvent>, mark: real)
    ensures RunPnl(fills).position == Held(fills) >= 0.0
    ensures Total(RunPnl(fills), mark) == Worth(fills, mark)
  {
    hide Notional, RunPnl, Held, Matched, Bought, Charged;
    RunBalanced(fills);
    NotionalMinus(mark, RunPnl(fills).avgCost, RunPnl(fills).position);
  }

  // ------------------------------------------------------------------------------- average cost

  /** Every price is at least `lo` and at most `hi`, and both are among them. */
  ghost predicate Spans(prices: seq<real>, lo: real, hi: real) {
    lo in prices && hi in prices && forall p | p in prices :: lo <= p <= hi
  }

  ghost predicate CostWithin(p: PnlState, fills: seq<FillEvent>) {
    p.position > 0.0 ==> exists lo, hi :: Spans(PaidSinceFlat(fills), lo, hi) && lo <= p.avgCost <= hi
  }

  lemma SpansMore(prices: seq<real>, lo: real, hi: real, price: real)
    requires Spans(prices, lo, hi)
    ensures Spans(prices + [price], Min(lo, price), Max(hi, price))
  {
  }

  lemma BlendWithin(cost: real, position: real, price: real, size: real, lo: real, hi: real)
    requires position > 0.0 && size > 0.0 && lo <= cost <= hi
    ensures Min(lo, price) <= CostAfter(cost, position, price, size) <= Max(hi, price)
  {
    hide CostAfter;
    var blend := CostAfter(cost, position, price, size);
    Blended(cost, position, price, size);
    Between(Min(lo, price), cost, position, price, size, blend);
    Between(Max(hi, price), cost, position, price, size, blend);
  }

  lemma Blended(cost: real, position: real, price: real, size: real)
    requires position + size != 0.0
    ensures CostAfter(cost, position, price, size) * (position + size) == cost * position + price * size
  {
  }

  lemma FirstCost(cost: real, price: real, size: real)
    requires size > 0.0
    ensures CostAfter(cost, 0.0, price, size) == price
  {
  }

  lemma BuyWithin(p: PnlState, init: seq<FillEvent>, fill: FillEvent)
    requires p.position == Held(init) && CostWithin(p, init) && fill.side == Buy && fill.size > 0.0
    ensures CostWithin(FilledPnl(p, fill), init + [fill])
  {
    var all := init + [fill];
    assert all[..|init|] == init;
    assert PaidSinceFlat(all) == (if Held(init) == 0.0 then [] else PaidSinceFlat(init)) + [fill.price];
    assert FilledPnl(p, fill).avgCost == CostAfter(p.avgCost, p.position, fill.price, fill.size);
    hide CostAfter, Held, FilledPnl, PaidSinceFlat;
    if p.position == 0.0 {
      FirstCost(p.avgCost, fill.price, fill.size);
      assert [] + [fill.price] == [fill.price];
      assert Spans(PaidSinceFlat(all), fill.price, fill.price);
    } else {
      var lo, hi :| Spans(PaidSinceFlat(init), lo, hi) && lo <= p.avgCost <= hi;
      SpansMore(PaidSinceFlat(init), lo, hi, fill.price);
      BlendWithin(p.avgCost, p.position, fill.price, fill.size, lo, hi);
    }
  }

  /** While a position is long, its average cost lies between the least and the greatest price paid since it was
      flat. */
  lemma {:induction false} AverageCostIsBetween(fills: seq<FillEvent>)
    ensures CostWithin(RunPnl(fills), fills)
  {
    if fills != [] {
      var n := |fills| - 1;
      AverageCostIsBetween(fills[..n]);
      RunBalanced(fills[..n]);
      RunBalanced(fills);
      assert fills == fills[..n] + [fills[n]];
      var p := RunPnl(fills[..n]);
      if fills[n].side == Buy && fills[n].size > 0.0 {
        BuyWithin(p, fills[..n], fills[n]);
      } else if RunPnl(fills).position > 0.0 {
        assert PaidSinceFlat(fills) == PaidSinceFlat(fills[..n]);
        assert RunPnl(fills).avgCost == p.avgCost && p.position > 0.0;
      }
    }
  }

  /** A flat position has no average cost. */
  lemma {:induction false} FlatCostsNothing(fills: seq<FillEvent>)
    ensures RunPnl(fills).position == 0.0 ==> RunPnl(fills).avgCost == 0.0
  {
    hide CostAfter, Notional;
    if fills != [] {
      var n := |fills| - 1;
      FlatCostsNothing(fills[..n]);
      RunBalanced(fills[..n]);
    }
  }

  // ------------------------------------------------------------------------------- all symbols

  function SymbolFills(fills: seq<FillEvent>, symbol: string): seq<FillEvent> {
    if fills == [] then []
    else
      var rest := SymbolFills(fills[..|fills| - 1], symbol);
      if fills[|fills| - 1].symbol == symbol then rest + [fills[|fills| - 1]] else rest
  }

  function StateFor(symbols: map<string, PnlState>, symbol: string): PnlState {
    if symbol in symbols then symbols[symbol] else FLAT
  }

  function AfterTrackerFill(symbols: Dict<string, PnlState>, fill: FillEvent): Dict<string, PnlState> {
    Put(symbols, fill.symbol, FilledPnl(StateFor(symbols.at, fill.symbol), fill))
  }

  function RunTracker(fills: seq<FillEvent>): Dict<string, PnlState> {
    if fills == [] then Empty() else AfterTrackerFill(RunTracker(fills[..|fills| - 1]), fills[|fills| - 1])
  }

  /** What `total_pnl` adds for one symbol. */
  function SymbolTotal(p: PnlState, symbol: string, markets: map<string, MarketSnapshot>): real {
    if symbol in markets then Total(p, markets[symbol].Mid()) else p.realized - p.fees
  }

  function TotalOver(keys: seq<string>, at: map<string, PnlState>, markets: map<string, MarketSnapshot>): real {
    if keys == [] then 0.0
    else
      var n := |keys| - 1;
      TotalOver(keys[..n], at, markets) + if keys[n] in at then SymbolTotal(at[keys[n]], keys[n], markets) else 0.0
  }

  class PnlTracker {
    var symbols: Dict<string, SymbolPnl>

    ghost function Objects(): set<SymbolPnl>
      reads this
    {
      set k | k in symbols.at :: symbols.at[k]
    }

    ghost predicate Valid()
      reads this
    {
      && symbols.Valid()
      && forall a, b | a in symbols.at && b in symbols.at && symbols.at[a] == symbols.at[b] :: a == b
    }

    ghost function State(): Dict<string, PnlState>
      reads this, Objects()
    {
      Dict(symbols.keys, map k | k in symbols.at :: symbols.at[k].State())
    }

    constructor ()
      ensures Valid() && State() == Empty()
    {
      symbols := Empty();
    }

    method ForSymbol(symbol: string) returns (state: SymbolPnl)
      requires Valid()
      modifies this
      ensures Valid() && symbol in symbols.at && symbols.at[symbol] == state
      ensures fresh(Objects() - old(Objects()))
      ensures State() == if symbol in old(symbols.at) then old(State()) else Put(old(State()), symbol, FLAT)
    {
      if symbol !in symbols.at {
        state := new SymbolPnl(symbol);
        PutValid(symbols, symbol, state);
        symbols := Put(symbols, symbol, state);
      }
      state := symbols.at[symbol];
    }

    method ApplyFill(fill: FillEvent)
      requires Valid()
      modifies this, Objects()
      ensures Valid() && fresh(Objects() - old(Objects()))
      ensures State() == AfterTrackerFill(old(State()), fill)
    {
      hide FilledPnl, Dict.Valid;
      var state := ForSymbol(fill.symbol);
      ghost var before := State();
      state.ApplyFill(fill);
      assert forall k | k in symbols.at && k != fill.symbol :: symbols.at[k].State() == before.at[k];
      assert State().at == before.at[fill.symbol := AfterPnl(before.at, fill)];
    }

    method TotalPnl(markets: map<string, MarketSnapshot>) returns (total: real)
      requires Valid()
      ensures total == TotalOver(State().keys, State().at, markets)
    {
      total := 0.0;
      ValidKeys(symbols);
      var keys := symbols.keys;
      for i := 0 to |keys|
        invariant total == TotalOver(keys[..i], State().at, markets)
      {
        Prefixes(keys, i);
        var state := symbols.at[keys[i]];
        if keys[i] in markets {
          total := total + Total(state.State(), markets[keys[i]].Mid());
        } else {
          total := total + (state.realizedPnl - state.fees);
        }
      }
      assert keys[..|keys|] == keys;
    }
  }

  ghost function AfterPnl(at: map<string, PnlState>, fill: FillEvent): PnlState {
    FilledPnl(StateFor(at, fill.symbol), fill)
  }

  /** A symbol's state depends on its own fills only. */
  lemma {:induction false} TrackerProjects(fills: seq<FillEvent>, symbol: string)
    ensures var t := RunTracker(fills);
      && StateFor(t.at, symbol) == RunPnl(SymbolFills(fills, symbol))
      && (symbol in t.at <==> SymbolFills(fills, symbol) != [])
  {
    if fills != [] {
      var n := |fills| - 1;
      TrackerProjects(fills[..n], symbol);
      if fills[n].symbol == symbol {
        var of := SymbolFills(fills, symbol);
        assert of[..|of| - 1] == SymbolFills(fills[..n], symbol);
      }
    }
  }

  /** The mark of a symbol: its mid price, or its average cost when it has no market. */
  function MarkOf(fills: seq<FillEvent>, symbol: string, markets: map<string, MarketSnapshot>): real {
    if symbol in markets then (markets[symbol].bid + markets[symbol].ask) / 2.0
    else RunPnl(SymbolFills(fills, symbol)).avgCost
  }

  function WorthOver(keys: seq<string>, fills: seq<FillEvent>, markets: map<string, MarketSnapshot>): real {
    if keys == [] then 0.0
    else
      var n := |keys| - 1;
      WorthOver(keys[..n], fills, markets) + Worth(SymbolFills(fills, keys[n]), MarkOf(fills, keys[n], markets))
  }

  lemma SymbolTotalIsWorth(fills: seq<FillEvent>, symbol: string, markets: map<string, MarketSnapshot>)
    ensures SymbolTotal(RunPnl(SymbolFills(fills, symbol)), symbol, markets)
         == Worth(SymbolFills(fills, symbol), MarkOf(fills, symbol, markets))
  {
    hide Worth, RunPnl, SymbolFills;
    var p := RunPnl(SymbolFills(fills, symbol));
    PnlIdentity(SymbolFills(fills, symbol), MarkOf(fills, symbol, markets));
    assert p.avgCost - p.avgCost == 0.0;
  }

  lemma {:induction false} TotalOverIsWorth(keys: seq<string>, fills: seq<FillEvent>,
      markets: map<string, MarketSnapshot>)
    requires forall k | k in keys :: k in RunTracker(fills).at
    ensures TotalOver(keys, RunTracker(fills).at, markets) == WorthOver(keys, fills, markets)
  {
    hide RunTracker, SymbolTotal, Worth, MarkOf, SymbolFills;
    if keys != [] {
      var n := |keys| - 1;
      TotalOverIsWorth(keys[..n], fills, markets);
      assert keys[n] in keys;
      TrackerProjects(fills, keys[n]);
      SymbolTotalIsWorth(fills, keys[n], markets);
    }
  }

  lemma {:induction false} TrackerValid(fills: seq<FillEvent>)
    ensures RunTracker(fills).Valid()
  {
    if fills != [] {
      var n := |fills| - 1;
      TrackerValid(fills[..n]);
      var before := RunTracker(fills[..n]);
      PutValid(before, fills[n].symbol, AfterPnl(before.at, fills[n]));
    }
  }

  /** The tracker's total is what the fills of each symbol are worth at that symbol's mark. */
  lemma TotalIsWorth(fills: seq<FillEvent>, markets: map<string, MarketSnapshot>)
    ensures var t := RunTracker(fills); TotalOver(t.keys, t.at, markets) == WorthOver(t.keys, fills, markets)
  {
    TrackerValid(fills);
    ValidKeys(RunTracker(fills));
    TotalOverIsWorth(RunTracker(fills).keys, fills, markets);
  }
}
