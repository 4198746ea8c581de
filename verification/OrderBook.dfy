/** The versioned order book (src/mm/market_data/orderbook.py). */
module OrderBook {
  import opened Dicts
  import opened Types

  type Levels = seq<(real, real)>

  datatype DepthUpdate = DepthUpdate(
    symbol: string, isSnapshot: bool, version: int, asks: Levels, bids: Levels, timestampMs: int)

  datatype BookState = BookState(asks: map<real, real>, bids: map<real, real>, version: Option<int>, lastUpdateMs: int)

  /** `_levels_to_dict`: of the positive sizes given for a price, the last; the others are skipped. */
  function LevelMap(levels: Levels): map<real, real> {
    if levels == [] then map[]
    else
      var rest, (price, size) := LevelMap(levels[..|levels| - 1]), levels[|levels| - 1];
      if size > 0.0 then rest[price := size] else rest
  }

  /** `_apply_levels`: a size that is not positive removes its price. */
  function Overlay(side: map<real, real>, levels: Levels): map<real, real> {
    if levels == [] then side
    else
      var rest, (price, size) := Overlay(side, levels[..|levels| - 1]), levels[|levels| - 1];
      if size <= 0.0 then rest - {price} else rest[price := size]
  }

  datatype BookStep = BookStep(state: BookState, outcome: Outcome)

  /** `apply`, for the book of `symbol` */
  function ApplyDepth(symbol: string, b: BookState, u: DepthUpdate): BookStep {
    if u.symbol != symbol then BookStep(b, Raised(ValueError))
    else if u.isSnapshot then
      BookStep(BookState(LevelMap(u.asks), LevelMap(u.bids), Some(u.version), u.timestampMs), Ok)
    else if b.version.None? then BookStep(b, Raised(OrderBookGap))
    else if u.version <= b.version.value then BookStep(b, Ok)
    else if u.version > b.version.value + 1 then BookStep(b, Raised(OrderBookGap))
    else BookStep(BookState(Overlay(b.asks, u.asks), Overlay(b.bids, u.bids), Some(u.version), u.timestampMs), Ok)
  }

  // ------------------------------------------------------------------------------- sorted prices

  lemma {:induction false} LeastBelow(keys: set<real>, k: real) returns (m: real)
    requires k in keys
    ensures m in keys && forall j | j in keys :: m <= j
    decreases |keys|
  {
    m := k;
    if j :| j in keys && j < k {
      m := LeastBelow(keys - {k}, j);
      forall x | x in keys
        ensures m <= x
      {
        assert x == k || x in keys - {k};
      }
    }
  }

  lemma LeastExists(keys: set<real>)
    requires keys != {}
    ensures exists m :: m in keys && forall j | j in keys :: m <= j
  {
    assert (forall k: real :: k !in keys) ==> keys == {};
    var k: real :| k in keys;
    var m := LeastBelow(keys, k);
  }

  function Least(keys: set<real>): (m: real)
    requires keys != {}
    ensures m in keys && forall k | k in keys :: m <= k
  {
    LeastExists(keys);
    var m :| m in keys && forall k | k in keys :: m <= k;
    m
  }

  /** `sorted(keys)` */
  function Ascending(keys: set<real>): (r: seq<real>)
    ensures |r| == |keys|
    decreases |keys|
  {
    if keys == {} then []
    else
      var m := Least(keys);
      [m] + Ascending(keys - {m})
  }

  lemma {:induction false} AscendingIsSorted(keys: set<real>)
    ensures forall k | k in keys :: k in Ascending(keys)
    ensures forall k | k in Ascending(keys) :: k in keys
    ensures forall i, j | 0 <= i < j < |keys| :: Ascending(keys)[i] < Ascending(keys)[j]
    decreases |keys|
  {
    if keys != {} {
      var m := Least(keys);
      var rest := keys - {m};
      AscendingIsSorted(rest);
      var r := Ascending(rest);
      assert Ascending(keys) == [m] + r;
      forall i | 0 <= i < |r|
        ensures m < r[i]
      {
        assert r[i] in r;
      }
    }
  }

  function Reversed(xs: seq<real>): (r: seq<real>)
    ensures |r| == |xs| && forall i | 0 <= i < |xs| :: r[i] == xs[|xs| - 1 - i]
  {
    seq(|xs|, i requires 0 <= i < |xs| => xs[|xs| - 1 - i])
  }

  function SizeAt(side: map<real, real>, price: real): real {
    if price in side then side[price] else 0.0
  }

  /** The first `levels` prices, with their sizes. */
  function Take(prices: seq<real>, side: map<real, real>, levels: int): Levels {
    var n := if levels <= 0 then 0 else if levels < |prices| then levels else |prices|;
    seq(n, i requires 0 <= i < n => (prices[i], SizeAt(side, prices[i])))
  }

  function TopAsksOf(side: map<real, real>, levels: int): Levels {
    Take(Ascending(side.Keys), side, levels)
  }

  function TopBidsOf(side: map<real, real>, levels: int): Levels {
    var prices := Reversed(Ascending(side.Keys));
    Take(prices, side, levels)
  }

  function Greatest(keys: set<real>): real
    requires keys != {}
  {
    var prices := Ascending(keys);
    prices[|prices| - 1]
  }

  /** `snapshot` */
  function SnapshotOf(symbol: string, b: BookState, depthLevels: int, nowMs: int): MarketSnapshot {
    var bid := if b.bids == map[] then 0.0 else Greatest(b.bids.Keys);
    var ask := if b.asks == map[] then 0.0 else Least(b.asks.Keys);
    MarketSnapshot(symbol, bid, SizeAt(b.bids, bid), ask, SizeAt(b.asks, ask), nowMs,
                   TopBidsOf(b.bids, depthLevels), TopAsksOf(b.asks, depthLevels))
  }

  class OrderBook {
    const symbol: string
    var asks: map<real, real>
    var bids: map<real, real>
    var version: Option<int>
    var lastUpdateMs: int

    constructor (symbol: string)
      ensures this.symbol == symbol && State() == BookState(map[], map[], None, 0)
    {
      this.symbol := symbol;
      asks, bids, version, lastUpdateMs := map[], map[], None, 0;
    }

    function State(): BookState
      reads this
    {
      BookState(asks, bids, version, lastUpdateMs)
    }

    method Apply(update: DepthUpdate) returns (outcome: Outcome)
      modifies this
      ensures BookStep(State(), outcome) == ApplyDepth(symbol, old(State()), update)
    {
      outcome := Ok;
      if update.symbol != symbol {
        return Raised(ValueError);
      }
      if update.isSnapshot {
        var newAsks := LevelsToDict(update.asks);
        var newBids := LevelsToDict(update.bids);
        asks, bids := newAsks, newBids;
        version := Some(update.version);
        lastUpdateMs := update.timestampMs;
        return;
      }
      if version.None? {
        return Raised(OrderBookGap);
      }
      if update.version <= version.value {
        return;
      }
      if update.version > version.value + 1 {
        return Raised(OrderBookGap);
      }
      var newAsks := ApplyLevels(asks, update.asks);
      var newBids := ApplyLevels(bids, update.bids);
      asks, bids := newAsks, newBids;
      version := Some(update.version);
      lastUpdateMs := update.timestampMs;
    }

    static method LevelsToDict(levels: Levels) returns (side: map<real, real>)
      ensures side == LevelMap(levels)
    {
      side := map[];
      for i := 0 to |levels|
        invariant side == LevelMap(levels[..i])
      {
        Prefixes(levels, i);
        var (price, size) := levels[i];
        if size > 0.0 {
          side := side[price := size];
        }
      }
      assert levels[..|levels|] == levels;
    }

    static method ApplyLevels(bookSide: map<real, real>, levels: Levels) returns (side: map<real, real>)
      ensures side == Overlay(bookSide, levels)
    {
      side := bookSide;
      for i := 0 to |levels|
        invariant side == Overlay(bookSide, levels[..i])
      {
        Prefixes(levels, i);
        var (price, size) := levels[i];
        if size <= 0.0 {
          side := side - {price};
        } else {
          side := side[price := size];
        }
      }
      assert levels[..|levels|] == levels;
    }

    function TopBids(levels: int): (top: Levels)
      reads this
      ensures IsTop(top, bids, levels, false)
    {
      TopsAreSorted(State(), levels);
      TopBidsOf(bids, levels)
    }

    function TopAsks(levels: int): (top: Levels)
      reads this
      ensures IsTop(top, asks, levels, true)
    {
      TopsAreSorted(State(), levels);
      TopAsksOf(asks, levels)
    }

    function Snapshot(depthLevels: int, nowMs: int): (s: MarketSnapshot)
      reads this
      ensures s.symbol == symbol && s.receiveTimeMs == nowMs
      ensures IsTop(s.bids, bids, depthLevels, false) && IsTop(s.asks, asks, depthLevels, true)
      ensures IsBest(s.bid, s.bidSize, bids, false) && IsBest(s.ask, s.askSize, asks, true)
    {
      TopsAreSorted(State(), depthLevels);
      SnapshotIsBest(symbol, State(), depthLevels, nowMs);
      SnapshotOf(symbol, State(), depthLevels, nowMs)
    }
  }

  // ------------------------------------------------------------------------------- last write wins

  /** The last size a list of levels gives for a price. */
  function LastSize(levels: Levels, price: real): Option<real> {
    if levels == [] then None
    else
      var n := |levels| - 1;
      if levels[n].0 == price then Some(levels[n].1) else LastSize(levels[..n], price)
  }

  /** The last positive size. */
  function LastPositive(levels: Levels, price: real): Option<real> {
    if levels == [] then None
    else
      var n := |levels| - 1;
      if levels[n].0 == price && levels[n].1 > 0.0 then Some(levels[n].1) else LastPositive(levels[..n], price)
  }

  function Lookup(side: map<real, real>, price: real): Option<real> {
    if price in side then Some(side[price]) else None
  }

  lemma {:induction false} LevelMapAt(levels: Levels, price: real)
    ensures Lookup(LevelMap(levels), price) == LastPositive(levels, price)
  {
    if levels != [] {
      LevelMapAt(levels[..|levels| - 1], price);
    }
  }

  /** The size a side shows for a price once levels are written over it. */
  function Written(before: Option<real>, levels: Levels, price: real): Option<real> {
    match LastSize(levels, price)
    case None => before
    case Some(size) => if size > 0.0 then Some(size) else None
  }

  lemma {:induction false} OverlayAt(side: map<real, real>, levels: Levels, price: real)
    ensures Lookup(Overlay(side, levels), price) == Written(Lookup(side, price), levels, price)
  {
    if levels != [] {
      OverlayAt(side, levels[..|levels| - 1], price);
    }
  }

  /** A list in which some price has a positive size, but not as its last. */
  ghost predicate EndsAtZero(levels: Levels) {
    exists p :: LastPositive(levels, p).Some? && !(LastSize(levels, p).Some? && LastSize(levels, p).value > 0.0)
  }

  lemma SameLookups(a: map<real, real>, b: map<real, real>)
    requires forall p :: Lookup(a, p) == Lookup(b, p)
    ensures a == b
  {
    forall p
      ensures p in a <==> p in b
      ensures p in a ==> a[p] == b[p]
    {
      assert Lookup(a, p) == Lookup(b, p);
    }
  }

  /** A list of levels reads the same as a snapshot and as an update of an empty side exactly when no price with a
      positive size ends at zero. */
  lemma SameReadingExactly(levels: Levels)
    ensures LevelMap(levels) == Overlay(map[], levels) <==> !EndsAtZero(levels)
  {
    hide LevelMap, Overlay;
    var none: map<real, real> := map[];
    var a, b := LevelMap(levels), Overlay(none, levels);
    forall p
      ensures Lookup(a, p) == LastPositive(levels, p) && Lookup(b, p) == Written(None, levels, p)
    {
      LevelMapAt(levels, p);
      OverlayAt(none, levels, p);
    }
    if EndsAtZero(levels) {
      var p :| LastPositive(levels, p).Some? && !(LastSize(levels, p).Some? && LastSize(levels, p).value > 0.0);
      assert Lookup(a, p) != Lookup(b, p);
    } else {
      forall p
        ensures Lookup(a, p) == Lookup(b, p)
      {
        PositiveIsLast(levels, p);
      }
      SameLookups(a, b);
    }
  }

  lemma {:induction false} PositiveIsLast(levels: Levels, price: real)
    ensures LastSize(levels, price).Some? && LastSize(levels, price).value > 0.0
      ==> LastPositive(levels, price) == LastSize(levels, price)
    ensures LastSize(levels, price).None? ==> LastPositive(levels, price).None?
  {
    if levels != [] {
      PositiveIsLast(levels[..|levels| - 1], price);
    }
  }

  /** Five at price 1, then zero at price 1: a snapshot keeps the five, an update removes the price. */
  lemma RepeatedPriceExample()
    ensures EndsAtZero([(1.0, 5.0), (1.0, 0.0)])
    ensures LevelMap([(1.0, 5.0), (1.0, 0.0)]) == map[1.0 := 5.0]
    ensures Overlay(map[], [(1.0, 5.0), (1.0, 0.0)]) == map[]
  {
    var first := [(1.0, 5.0)];
    var levels := [(1.0, 5.0), (1.0, 0.0)];
    assert first[..0] == [] && levels[..1] == first;
    assert LastPositive(levels, 1.0) == Some(5.0) && LastSize(levels, 1.0) == Some(0.0);
    assert LevelMap(first) == map[1.0 := 5.0] && Overlay(map[], first) == map[1.0 := 5.0];
  }

  lemma {:induction false} OverlayThen(side: map<real, real>, a: Levels, b: Levels)
    ensures Overlay(side, a + b) == Overlay(Overlay(side, a), b)
  {
    if b == [] {
      assert a + b == a;
    } else {
      var n := |b| - 1;
      assert (a + b)[..|a + b| - 1] == a + b[..n];
      OverlayThen(side, a, b[..n]);
    }
  }

  // ------------------------------------------------------------------------------- the log

  /** Deliveries one after the other, also after one that raised. */
  function RunBook(symbol: string, b: BookState, log: seq<DepthUpdate>): BookState {
    if log == [] then b
    else ApplyDepth(symbol, RunBook(symbol, b, log[..|log| - 1]), log[|log| - 1]).state
  }

  /** The deliveries that extend a book of version `v`: the first one of version v + 1, the first later one of version
      v + 2, and so on. */
  function Chain(symbol: string, v: int, log: seq<DepthUpdate>): seq<nat> {
    if log == [] then []
    else
      var n := |log| - 1;
      Chained(symbol, v, Chain(symbol, v, log[..n]), n, log[n])
  }

  /** The chain after delivery `n`: longer by it, if it is of the next version. */
  function Chained(symbol: string, v: int, chain: seq<nat>, n: nat, u: DepthUpdate): seq<nat> {
    if Extends(symbol, u, v + 1 + |chain|) then chain + [n] else chain
  }

  predicate Extends(symbol: string, u: DepthUpdate, version: int) {
    u.symbol == symbol && u.version == version
  }

  /** No delivery from `lo` up to `hi` is of `version`. */
  ghost predicate NoneIn(symbol: string, log: seq<DepthUpdate>, lo: int, hi: int, version: int) {
    forall i | 0 <= i < |log| && lo <= i < hi :: !Extends(symbol, log[i], version)
  }

  /** The first index that may extend a chain. */
  function After(chain: seq<nat>): nat {
    if chain == [] then 0 else chain[|chain| - 1] + 1
  }

  /** `chain` picks the first delivery of each version in turn, each after the one before. */
  ghost predicate PicksFirst(symbol: string, v: int, log: seq<DepthUpdate>, chain: seq<nat>) {
    chain == []
    || (var n := |chain| - 1;
        && PicksFirst(symbol, v, log, chain[..n])
        && After(chain[..n]) <= chain[n] < |log| && Extends(symbol, log[chain[n]], v + 1 + n)
        && NoneIn(symbol, log, After(chain[..n]), chain[n], v + 1 + n))
  }

  /** And it misses none. */
  ghost predicate FirstDelivered(symbol: string, v: int, log: seq<DepthUpdate>, chain: seq<nat>) {
    && PicksFirst(symbol, v, log, chain)
    && After(chain) <= |log| && NoneIn(symbol, log, After(chain), |log|, v + 1 + |chain|)
  }

  lemma NoneInMore(symbol: string, log: seq<DepthUpdate>, u: DepthUpdate, lo: int, hi: int, version: int)
    requires NoneIn(symbol, log, lo, hi, version) && (hi <= |log| || !Extends(symbol, u, version))
    ensures NoneIn(symbol, log + [u], lo, hi, version)
    ensures !Extends(symbol, u, version) && hi == |log| ==> NoneIn(symbol, log + [u], lo, |log| + 1, version)
  {
  }

  lemma {:induction false} PicksFirstMore(symbol: string, v: int, log: seq<DepthUpdate>, u: DepthUpdate,
      chain: seq<nat>)
    requires PicksFirst(symbol, v, log, chain)
    ensures PicksFirst(symbol, v, log + [u], chain)
  {
    hide Extends;
    if chain != [] {
      var n := |chain| - 1;
      PicksFirstMore(symbol, v, log, u, chain[..n]);
      NoneInMore(symbol, log, u, After(chain[..n]), chain[n], v + 1 + n);
    }
  }

  lemma StepFirstDelivered(symbol: string, v: int, log: seq<DepthUpdate>, u: DepthUpdate, rest: seq<nat>)
    requires FirstDelivered(symbol, v, log, rest)
    ensures FirstDelivered(symbol, v, log + [u], if Extends(symbol, u, v + 1 + |rest|) then rest + [|log|] else rest)
  {
    PicksFirstMore(symbol, v, log, u, rest);
    NoneInMore(symbol, log, u, After(rest), |log|, v + 1 + |rest|);
    if Extends(symbol, u, v + 1 + |rest|) {
      var chain := rest + [|log|];
      assert chain[..|rest|] == rest;
      NoneInMore(symbol, log, u, After(rest), |log|, v + 1 + |rest|);
    }
  }

  lemma {:induction false} ChainIsFirstDelivered(symbol: string, v: int, log: seq<DepthUpdate>)
    ensures FirstDelivered(symbol, v, log, Chain(symbol, v, log))
  {
    if log != [] {
      var n := |log| - 1;
      ChainIsFirstDelivered(symbol, v, log[..n]);
      StepFirstDelivered(symbol, v, log[..n], log[n], Chain(symbol, v, log[..n]));
      assert log == log[..n] + [log[n]];
      hide FirstDelivered;
    }
  }

  /** The ask levels (or bid levels) of the chosen deliveries, in order. */
  function ChainLevels(log: seq<DepthUpdate>, chain: seq<nat>, asks: bool): Levels {
    if chain == [] then []
    else
      var n := |chain| - 1;
      ChainLevels(log, chain[..n], asks)
      + if chain[n] >= |log| then [] else if asks then log[chain[n]].asks else log[chain[n]].bids
  }

  lemma {:induction false} ChainLevelsPrefix(log: seq<DepthUpdate>, u: DepthUpdate, chain: seq<nat>, asks: bool)
    requires forall j | 0 <= j < |chain| :: chain[j] < |log|
    ensures ChainLevels(log + [u], chain, asks) == ChainLevels(log, chain, asks)
  {
    if chain != [] {
      ChainLevelsPrefix(log, u, chain[..|chain| - 1], asks);
    }
  }

  lemma {:induction false} ChainInRange(symbol: string, v: int, log: seq<DepthUpdate>)
    ensures forall j | 0 <= j < |Chain(symbol, v, log)| :: Chain(symbol, v, log)[j] < |log|
  {
    if log != [] {
      ChainInRange(symbol, v, log[..|log| - 1]);
    }
  }

  predicate NoSnapshots(symbol: string, log: seq<DepthUpdate>) {
    forall i | 0 <= i < |log| :: log[i].symbol == symbol ==> !log[i].isSnapshot
  }

  lemma ChainAppend(symbol: string, v: int, log: seq<DepthUpdate>, u: DepthUpdate)
    ensures Chain(symbol, v, log + [u]) == Chained(symbol, v, Chain(symbol, v, log), |log|, u)
  {
    hide Chained;
    assert (log + [u])[..|log|] == log;
  }

  function LevelsOf(u: DepthUpdate, asks: bool): Levels {
    if asks then u.asks else u.bids
  }

  lemma ChainLevelsAppend(symbol: string, v: int, log: seq<DepthUpdate>, u: DepthUpdate, asks: bool)
    ensures var rest := Chain(symbol, v, log);
      && ChainLevels(log + [u], rest, asks) == ChainLevels(log, rest, asks)
      && ChainLevels(log + [u], rest + [|log|], asks) == ChainLevels(log, rest, asks) + LevelsOf(u, asks)
  {
    hide Chain;
    var rest := Chain(symbol, v, log);
    ChainInRange(symbol, v, log);
    ChainLevelsPrefix(log, u, rest, asks);
    assert (rest + [|log|])[..|rest|] == rest;
  }

  lemma RunBookAppend(symbol: string, b: BookState, log: seq<DepthUpdate>, u: DepthUpdate)
    ensures RunBook(symbol, b, log + [u]) == ApplyDepth(symbol, RunBook(symbol, b, log), u).state
  {
    hide ApplyDepth;
    assert (log + [u])[..|log|] == log;
  }

  /** When the last delivery of the chain was sent. */
  function LastTime(log: seq<DepthUpdate>, chain: seq<nat>, start: int): int {
    if chain == [] || chain[|chain| - 1] >= |log| then start else log[chain[|chain| - 1]].timestampMs
  }

  /** The book after a log, read off its chain. */
  ghost predicate BookIs(symbol: string, b: BookState, log: seq<DepthUpdate>, chain: seq<nat>)
    requires b.version.Some?
  {
    var end := RunBook(symbol, b, log);
    && end.version == Some(b.version.value + |chain|)
    && end.lastUpdateMs == LastTime(log, chain, b.lastUpdateMs)
    && end.asks == Overlay(b.asks, ChainLevels(log, chain, true))
    && end.bids == Overlay(b.bids, ChainLevels(log, chain, false))
  }

  lemma StepBookIs(symbol: string, b: BookState, log: seq<DepthUpdate>, u: DepthUpdate)
    requires b.version.Some? && (u.symbol == symbol ==> !u.isSnapshot)
    requires BookIs(symbol, b, log, Chain(symbol, b.version.value, log))
    ensures BookIs(symbol, b, log + [u], Chain(symbol, b.version.value, log + [u]))
  {
    hide Chain, ChainLevels, Overlay, RunBook, LevelMap;
    var v := b.version.value;
    var rest := Chain(symbol, v, log);
    ChainInRange(symbol, v, log);
    ChainAppend(symbol, v, log, u);
    ChainLevelsAppend(symbol, v, log, u, true);
    ChainLevelsAppend(symbol, v, log, u, false);
    RunBookAppend(symbol, b, log, u);
    OverlayThen(b.asks, ChainLevels(log, rest, true), u.asks);
    OverlayThen(b.bids, ChainLevels(log, rest, false), u.bids);
  }

  /** Whatever is delivered after a snapshot, stale, duplicated, ahead of its turn or for another symbol, the book is
      the snapshot with the chain's levels written over it, and its version counts the chain. */
  lemma {:induction false} BookIsItsLog(symbol: string, b: BookState, log: seq<DepthUpdate>)
    requires b.version.Some? && NoSnapshots(symbol, log)
    ensures BookIs(symbol, b, log, Chain(symbol, b.version.value, log))
  {
    if log != [] {
      var n := |log| - 1;
      assert log == log[..n] + [log[n]];
      BookIsItsLog(symbol, b, log[..n]);
      StepBookIs(symbol, b, log[..n], log[n]);
      hide BookIs;
    }
  }

  /** After any log, a further delivery raises a gap exactly when its version is beyond the next one the chain awaits; a
      delivery that raises changes nothing. */
  lemma GapExactly(symbol: string, b: BookState, log: seq<DepthUpdate>, u: DepthUpdate)
    requires b.version.Some? && NoSnapshots(symbol, log)
    ensures var end := RunBook(symbol, b, log); var step := ApplyDepth(symbol, end, u);
      && (step.outcome == Raised(OrderBookGap) <==>
            && u.symbol == symbol && !u.isSnapshot
            && u.version > b.version.value + |Chain(symbol, b.version.value, log)| + 1)
      && (step.outcome == Raised(ValueError) <==> u.symbol != symbol)
      && (step.outcome.Raised? ==> step.state == end)
  {
    hide RunBook, Chain;
    BookIsItsLog(symbol, b, log);
  }

  /** Before the first snapshot every update of the book's own symbol raises a gap. */
  lemma GapBeforeSnapshot(symbol: string, b: BookState, u: DepthUpdate)
    requires b.version == None && !u.isSnapshot
    ensures ApplyDepth(symbol, b, u) == BookStep(b, Raised(if u.symbol == symbol then OrderBookGap else ValueError))
  {
  }

  /** What a book shows at a price: the last size the chain wrote there, or else the last positive size of the snapshot,
      whatever it showed before. */
  lemma LastWriteWins(symbol: string, b: BookState, snap: DepthUpdate, log: seq<DepthUpdate>, price: real)
    requires snap.symbol == symbol && snap.isSnapshot && NoSnapshots(symbol, log)
    ensures var chain := Chain(symbol, snap.version, log);
      var end := RunBook(symbol, ApplyDepth(symbol, b, snap).state, log);
        && Lookup(end.asks, price) == Written(LastPositive(snap.asks, price), ChainLevels(log, chain, true), price)
        && Lookup(end.bids, price) == Written(LastPositive(snap.bids, price), ChainLevels(log, chain, false), price)
  {
    var start := BookState(LevelMap(snap.asks), LevelMap(snap.bids), Some(snap.version), snap.timestampMs);
    var chain := Chain(symbol, snap.version, log);
    BookIsItsLog(symbol, start, log);
    LevelMapAt(snap.asks, price);
    LevelMapAt(snap.bids, price);
    OverlayAt(start.asks, ChainLevels(log, chain, true), price);
    OverlayAt(start.bids, ChainLevels(log, chain, false), price);
  }

  // ------------------------------------------------------------------------------- consistent redelivery

  /** Every delivery of a version carries the same levels. */
  predicate Consistent(symbol: string, log: seq<DepthUpdate>, update: int -> DepthUpdate) {
    forall i | 0 <= i < |log| && log[i].symbol == symbol ::
      log[i].asks == update(log[i].version).asks && log[i].bids == update(log[i].version).bids
  }

  /** The levels of versions v + 1 to v + n, in order. */
  function VersionLevels(update: int -> DepthUpdate, v: int, n: nat, asks: bool): Levels {
    if n == 0 then []
    else VersionLevels(update, v, n - 1, asks) + if asks then update(v + n).asks else update(v + n).bids
  }

  lemma {:induction false} ChainIsVersions(symbol: string, v: int, log: seq<DepthUpdate>, update: int -> DepthUpdate,
      asks: bool)
    requires Consistent(symbol, log, update)
    ensures var chain := Chain(symbol, v, log); ChainLevels(log, chain, asks) == VersionLevels(update, v, |chain|, asks)
  {
    hide Chain, ChainLevels;
    if log == [] {
      NothingChained(symbol, v, asks);
    } else {
      var n := |log| - 1;
      var init, u := log[..n], log[n];
      assert log == init + [u];
      ChainIsVersions(symbol, v, init, update, asks);
      ChainAppend(symbol, v, init, u);
      ChainLevelsAppend(symbol, v, init, u, asks);
    }
  }

  lemma NothingChained(symbol: string, v: int, asks: bool)
    ensures Chain(symbol, v, []) == [] && ChainLevels([], [], asks) == []
  {
  }

  /** With consistent redelivery the book depends on the snapshot and its own version only: each version since the
      snapshot is written once, in order, however often and in whatever order the updates arrived. */
  lemma BookIsItsVersions(symbol: string, b: BookState, log: seq<DepthUpdate>, update: int -> DepthUpdate)
    requires b.version.Some? && NoSnapshots(symbol, log) && Consistent(symbol, log, update)
    ensures var end := RunBook(symbol, b, log);
      && end.version.Some? && end.version.value >= b.version.value
      && var n := end.version.value - b.version.value;
      && end.asks == Overlay(b.asks, VersionLevels(update, b.version.value, n, true))
      && end.bids == Overlay(b.bids, VersionLevels(update, b.version.value, n, false))
  {
    BookIsItsLog(symbol, b, log);
    ChainIsVersions(symbol, b.version.value, log, update, true);
    ChainIsVersions(symbol, b.version.value, log, update, false);
  }

  // ------------------------------------------------------------------------------- sizes and tops

  ghost predicate Positive(side: map<real, real>) {
    forall p | p in side :: side[p] > 0.0
  }

  lemma {:induction false} LevelMapPositive(levels: Levels)
    ensures Positive(LevelMap(levels))
  {
    if levels != [] {
      LevelMapPositive(levels[..|levels| - 1]);
    }
  }

  lemma {:induction false} OverlayPositive(side: map<real, real>, levels: Levels)
    requires Positive(side)
    ensures Positive(Overlay(side, levels))
  {
    if levels != [] {
      OverlayPositive(side, levels[..|levels| - 1]);
    }
  }

  /** No book ever shows a size that is not positive, whatever is delivered, snapshots included. */
  lemma {:induction false} SizesArePositive(symbol: string, log: seq<DepthUpdate>)
    ensures var end := RunBook(symbol, BookState(map[], map[], None, 0), log); Positive(end.asks) && Positive(end.bids)
  {
    if log != [] {
      var n := |log| - 1;
      SizesArePositive(symbol, log[..n]);
      var before := RunBook(symbol, BookState(map[], map[], None, 0), log[..n]);
      LevelMapPositive(log[n].asks);
      LevelMapPositive(log[n].bids);
      OverlayPositive(before.asks, log[n].asks);
      OverlayPositive(before.bids, log[n].bids);
    }
  }

  /** `top` is the head of a sorted side, cut at `levels`: strictly sorted, with the side's own sizes, and better than
      every price left out. */
  ghost predicate IsTop(top: Levels, side: map<real, real>, levels: int, ascending: bool) {
    && |top| == (if levels <= 0 then 0 else if levels < |side| then levels else |side|)
    && (forall i | 0 <= i < |top| :: top[i].0 in side && top[i].1 == side[top[i].0])
    && (forall i, j | 0 <= i < j < |top| :: if ascending then top[i].0 < top[j].0 else top[i].0 > top[j].0)
    && (forall p, i | p in side && 0 <= i < |top| ::
          (exists j :: 0 <= j < |top| && top[j].0 == p) || (if ascending then top[i].0 < p else top[i].0 > p))
  }

  lemma TakeIsTop(prices: seq<real>, side: map<real, real>, levels: int, ascending: bool)
    requires |prices| == |side| && (forall p | p in prices :: p in side) && (forall p | p in side :: p in prices)
    requires forall i, j | 0 <= i < j < |prices| :: if ascending then prices[i] < prices[j] else prices[i] > prices[j]
    ensures IsTop(Take(prices, side, levels), side, levels, ascending)
  {
    var top := Take(prices, side, levels);
    forall p, i | p in side && 0 <= i < |top|
      ensures (exists j :: 0 <= j < |top| && top[j].0 == p) || (if ascending then top[i].0 < p else top[i].0 > p)
    {
      var j :| 0 <= j < |prices| && prices[j] == p;
      if j < |top| {
        assert top[j].0 == p;
      }
    }
  }

  /** `top_asks` and `top_bids` are strictly sorted prefixes of their sides. */
  lemma TopsAreSorted(b: BookState, levels: int)
    ensures IsTop(TopAsksOf(b.asks, levels), b.asks, levels, true)
    ensures IsTop(TopBidsOf(b.bids, levels), b.bids, levels, false)
  {
    hide Take, IsTop, Ascending;
    AscendingIsSorted(b.asks.Keys);
    AscendingIsSorted(b.bids.Keys);
    TakeIsTop(Ascending(b.asks.Keys), b.asks, levels, true);
    var up := Ascending(b.bids.Keys);
    var prices := Reversed(up);
    forall p | p in b.bids
      ensures p in prices
    {
      var i :| 0 <= i < |up| && up[i] == p;
      assert prices[|up| - 1 - i] == p;
    }
    TakeIsTop(prices, b.bids, levels, false);
  }

  /** The best price of a side and its size, both zero when the side is empty. */
  ghost predicate IsBest(price: real, size: real, side: map<real, real>, ascending: bool) {
    if side == map[] then price == 0.0 && size == 0.0
    else
      && price in side && size == side[price]
      && forall p | p in side :: if ascending then price <= p else p <= price
  }

  lemma SnapshotIsBest(symbol: string, b: BookState, levels: int, nowMs: int)
    ensures var s := SnapshotOf(symbol, b, levels, nowMs);
      IsBest(s.bid, s.bidSize, b.bids, false) && IsBest(s.ask, s.askSize, b.asks, true)
  {
    hide TopAsksOf, TopBidsOf, Least, Greatest;
    if b.asks != map[] {
      BestAsk(b.asks, 1);
    }
    if b.bids != map[] {
      BestBid(b.bids, 1);
    }
  }

  lemma BestAsk(side: map<real, real>, levels: int)
    requires levels > 0 && side != map[]
    ensures side.Keys != {} && var best := Least(side.Keys);
      best in side && TopAsksOf(side, levels) != [] && TopAsksOf(side, levels)[0] == (best, SizeAt(side, best))
      && forall p | p in side :: best <= p
  {
    assert side.Keys != {};
  }

  lemma BestBid(side: map<real, real>, levels: int)
    requires levels > 0 && side != map[]
    ensures side.Keys != {} && var best := Greatest(side.Keys);
      best in side && TopBidsOf(side, levels) != [] && TopBidsOf(side, levels)[0] == (best, SizeAt(side, best))
      && forall p | p in side :: p <= best
  {
    assert side.Keys != {};
    AscendingIsSorted(side.Keys);
    var prices := Ascending(side.Keys);
    forall p | p in side
      ensures p <= prices[|prices| - 1]
    {
      var i :| 0 <= i < |prices| && prices[i] == p;
    }
  }

  /** The tops are headed by the snapshot's best prices and their sizes. */
  lemma TopsAreHeadedByBest(symbol: string, b: BookState, levels: int, nowMs: int)
    requires levels > 0
    ensures var s := SnapshotOf(symbol, b, levels, nowMs);
      && s.asks == TopAsksOf(b.asks, levels) && s.bids == TopBidsOf(b.bids, levels)
      && (if b.asks == map[] then s.asks == [] && s.ask == 0.0 else s.asks != [] && s.asks[0] == (s.ask, s.askSize))
      && (if b.bids == map[] then s.bids == [] && s.bid == 0.0 else s.bids != [] && s.bids[0] == (s.bid, s.bidSize))
      && (forall p | p in b.asks :: s.ask <= p)
      && (forall p | p in b.bids :: p <= s.bid)
  {
    hide TopAsksOf, TopBidsOf, Least, Greatest, SizeAt;
    NoTops(levels);
    if b.asks != map[] {
      BestAsk(b.asks, levels);
    }
    if b.bids != map[] {
      BestBid(b.bids, levels);
    }
  }

  lemma NoTops(levels: int)
    ensures TopAsksOf(map[], levels) == [] && TopBidsOf(map[], levels) == []
  {
    var none: map<real, real> := map[];
    assert none.Keys == {};
  }
}
