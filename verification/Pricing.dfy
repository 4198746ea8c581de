/** Rounding to increments (src/mm/common/decimal.py, MarketRule in src/mm/common/types.py) and the post-only price of
    the quote engine. */
module Pricing {
  import opened Types
  import opened Reals

  /** `k` increments */
  function Steps(k: int, increment: real): real {
    k as real * increment
  }

  function FloorTo(value: real, increment: real): real
    requires increment > 0.0
  {
    Steps((value / increment).Floor, increment)
  }

  function Ceiling(x: real): int {
    if x.Floor as real == x then x.Floor else x.Floor + 1
  }

  function CeilTo(value: real, increment: real): real
    requires increment > 0.0
  {
    Steps(Ceiling(value / increment), increment)
  }

  ghost predicate IsMultiple(value: real, increment: real) {
    exists k: int :: value == Steps(k, increment)
  }

  lemma Quotient(value: real, increment: real)
    requires increment > 0.0
    ensures value / increment * increment == value
  {
  }

  /** Comparing a value with a number of increments is comparing the quotient with that number. */
  lemma CompareSteps(value: real, increment: real, k: int)
    requires increment > 0.0
    ensures k as real <= value / increment ==> Steps(k, increment) <= value
    ensures value / increment <= k as real ==> value <= Steps(k, increment)
    ensures value / increment < k as real ==> value < Steps(k, increment)
    ensures k as real < value / increment ==> Steps(k, increment) < value
  {
    var q := value / increment;
    Quotient(value, increment);
    if k as real <= q {
      MulLe(k as real, q, increment);
    }
    if q <= k as real {
      MulLe(q, k as real, increment);
    }
    if q < k as real {
      MulLess(q, k as real, increment);
    }
    if k as real < q {
      MulLess(k as real, q, increment);
    }
  }

  lemma NextStep(k: int, increment: real)
    ensures Steps(k + 1, increment) == Steps(k, increment) + increment
  {
    assert (k + 1) as real == k as real + 1.0;
  }

  lemma FloorToBounds(value: real, increment: real)
    requires increment > 0.0
    ensures FloorTo(value, increment) <= value < FloorTo(value, increment) + increment
    ensures IsMultiple(FloorTo(value, increment), increment)
  {
    hide Steps;
    var k := (value / increment).Floor;
    CompareSteps(value, increment, k);
    CompareSteps(value, increment, k + 1);
    NextStep(k, increment);
  }

  lemma CeilToBounds(value: real, increment: real)
    requires increment > 0.0
    ensures CeilTo(value, increment) - increment < value <= CeilTo(value, increment)
    ensures IsMultiple(CeilTo(value, increment), increment)
  {
    hide Steps;
    var k := Ceiling(value / increment);
    CompareSteps(value, increment, k);
    CompareSteps(value, increment, k - 1);
    NextStep(k - 1, increment);
  }

  function AlignPrice(rule: MarketRule, side: Side, price: real): real
    requires rule.priceIncrement > 0.0
  {
    if side == Buy then FloorTo(price, rule.priceIncrement) else CeilTo(price, rule.priceIncrement)
  }

  function AlignSize(rule: MarketRule, size: real): real
    requires rule.sizeIncrement > 0.0
  {
    FloorTo(size, rule.sizeIncrement)
  }

  /** `_post_only_price`: the desired price, aligned away from the market, and pushed back if it would cross. */
  function PostOnlyPrice(rule: MarketRule, market: MarketSnapshot, side: Side, desired: real): real
    requires rule.priceIncrement > 0.0
  {
    var price := AlignPrice(rule, side, desired);
    if side == Buy && price >= market.ask then AlignPrice(rule, side, market.ask - rule.priceIncrement)
    else if side == Sell && price <= market.bid then AlignPrice(rule, side, market.bid + rule.priceIncrement)
    else price
  }

  /** A post-only price is a multiple of the tick and never crosses the market. It is no better than desired, and less
      than two ticks away from the better of the desired price and the opposite quote. */
  lemma PostOnlyPriceIsPassive(rule: MarketRule, market: MarketSnapshot, side: Side, desired: real)
    requires rule.priceIncrement > 0.0
    ensures var p, tick := PostOnlyPrice(rule, market, side, desired), rule.priceIncrement;
      && IsMultiple(p, tick)
      && (side == Buy ==> p <= desired && p < market.ask && p > Min(desired, market.ask) - 2.0 * tick)
      && (side == Sell ==> p >= desired && p > market.bid && p < Max(desired, market.bid) + 2.0 * tick)
  {
    hide FloorTo, CeilTo, IsMultiple;
    var tick := rule.priceIncrement;
    if side == Buy {
      FloorToBounds(desired, tick);
      FloorToBounds(market.ask - tick, tick);
    } else {
      CeilToBounds(desired, tick);
      CeilToBounds(market.bid + tick, tick);
    }
  }

  /** The post-only price, exactly: the greatest multiple of the tick not above a desired bid if it is below the ask,
      and otherwise the multiple that is more than one tick above ask - 2 ticks; for asks the mirror image. */
  ghost predicate PostOnlyAt(p: real, side: Side, desired: real, market: MarketSnapshot, tick: real) {
    IsMultiple(p, tick)
    && if side == Buy then
         exists m :: IsMultiple(m, tick) && m <= desired < m + tick
           && (if m < market.ask then p == m else market.ask - 2.0 * tick < p <= market.ask - tick)
       else
         exists m :: IsMultiple(m, tick) && m - tick < desired <= m
           && (if market.bid < m then p == m else market.bid + tick <= p < market.bid + 2.0 * tick)
  }

  lemma PostOnlyPriceExactly(rule: MarketRule, market: MarketSnapshot, side: Side, desired: real)
    requires rule.priceIncrement > 0.0
    ensures PostOnlyAt(PostOnlyPrice(rule, market, side, desired), side, desired, market, rule.priceIncrement)
  {
    hide FloorTo, CeilTo, IsMultiple;
    var tick := rule.priceIncrement;
    if side == Buy {
      FloorToBounds(desired, tick);
      FloorToBounds(market.ask - tick, tick);
    } else {
      CeilToBounds(desired, tick);
      CeilToBounds(market.bid + tick, tick);
    }
  }

  /** Two multiples less than one increment apart are the same. */
  lemma SameMultiple(a: real, b: real, increment: real)
    requires IsMultiple(a, increment) && IsMultiple(b, increment) && -increment < a - b < increment
    ensures a == b
  {
    var k: int :| a == Steps(k, increment);
    var j: int :| b == Steps(j, increment);
    if k < j {
      MulLe((k + 1) as real, j as real, increment);
      NextStep(k, increment);
    } else if j < k {
      MulLe((j + 1) as real, k as real, increment);
      NextStep(j, increment);
    }
  }

  /** There is only one such price, and only one aligned size. */
  lemma PostOnlyIsOne(p: real, other: real, side: Side, desired: real, market: MarketSnapshot, tick: real)
    requires tick > 0.0 && PostOnlyAt(p, side, desired, market, tick) && PostOnlyAt(other, side, desired, market, tick)
    ensures p == other
  {
    hide IsMultiple;
    if side == Buy {
      var m :| IsMultiple(m, tick) && m <= desired < m + tick
        && (if m < market.ask then p == m else market.ask - 2.0 * tick < p <= market.ask - tick);
      var n :| IsMultiple(n, tick) && n <= desired < n + tick
        && (if n < market.ask then other == n else market.ask - 2.0 * tick < other <= market.ask - tick);
      SameMultiple(m, n, tick);
    } else {
      var m :| IsMultiple(m, tick) && m - tick < desired <= m
        && (if market.bid < m then p == m else market.bid + tick <= p < market.bid + 2.0 * tick);
      var n :| IsMultiple(n, tick) && n - tick < desired <= n
        && (if market.bid < n then other == n else market.bid + tick <= other < market.bid + 2.0 * tick);
      SameMultiple(m, n, tick);
    }
    if p != other {
      SameMultiple(p, other, tick);
    }
  }

  /** The aligned size, exactly: the greatest multiple of the step that is not above the desired size. */
  ghost predicate AlignedAt(z: real, size: real, step: real) {
    IsMultiple(z, step) && z <= size < z + step
  }

  lemma AlignedIsOne(rule: MarketRule, z: real, size: real)
    requires rule.sizeIncrement > 0.0
    ensures AlignedAt(z, size, rule.sizeIncrement) <==> z == AlignSize(rule, size)
  {
    hide FloorTo, IsMultiple;
    FloorToBounds(size, rule.sizeIncrement);
    if AlignedAt(z, size, rule.sizeIncrement) {
      SameMultiple(z, AlignSize(rule, size), rule.sizeIncrement);
    }
  }
}
