/**
 * The order book (kalshi/models/orderbook.py): price levels on each side,
 * the best quotes and the spread derived from them, depth and its
 * imbalance, the average price of walking one side for a given size, and
 * the construction from the exchange's cent-denominated levels.
 */
module OrderBook {
  import opened Common
  import opened Sorting

  datatype Level = Level(price: real, quantity: int)

  datatype Book = Book(ticker: string, timestamp: int, bids: seq<Level>, asks: seq<Level>)

  /** `notional`: the value of a level; never negative for a non-negative price and quantity, 0 for an empty level. */
  function Notional(l: Level): (r: real)
    ensures l.price >= 0.0 && l.quantity >= 0 ==> r >= 0.0
    ensures l.quantity == 0 ==> r == 0.0
  {
    MulBounds(l.price, l.quantity as real);
    Mul(l.price, l.quantity as real)
  }

  /** `best_bid`: the first bid level's price, if any. */
  function BestBid(b: Book): (r: Option<real>)
    ensures r.Some? <==> b.bids != []
    ensures r.Some? ==> r.value == b.bids[0].price
  {
    if b.bids != [] then Some(b.bids[0].price) else None
  }

  /** `best_ask`: the first ask level's price, if any. */
  function BestAsk(b: Book): (r: Option<real>)
    ensures r.Some? <==> b.asks != []
    ensures r.Some? ==> r.value == b.asks[0].price
  {
    if b.asks != [] then Some(b.asks[0].price) else None
  }

  /** `mid_price`: halfway between the best quotes, when both sides are quoted. */
  function MidPrice(b: Book): (r: Option<real>)
    ensures r.Some? <==> b.bids != [] && b.asks != []
    ensures r.Some? ==> Min(b.bids[0].price, b.asks[0].price) <= r.value <= Max(b.bids[0].price, b.asks[0].price)
  {
    if BestBid(b).Some? && BestAsk(b).Some? then Some((BestBid(b).value + BestAsk(b).value) / 2.0) else None
  }

  /** `spread`: best ask minus best bid, when both sides are quoted. */
  function Spread(b: Book): (r: Option<real>)
    ensures r.Some? <==> b.bids != [] && b.asks != []
    ensures r.Some? ==> r.value + b.bids[0].price == b.asks[0].price
  {
    if BestBid(b).Some? && BestAsk(b).Some? then Some(BestAsk(b).value - BestBid(b).value) else None
  }

  /** `spread_bps`: the spread in basis points of a positive mid price. */
  function SpreadBps(b: Book): (r: Option<real>)
    ensures r.Some? <==> Spread(b).Some? && MidPrice(b).value > 0.0
    ensures r.Some? ==> Mul(r.value, MidPrice(b).value) == Spread(b).value * 10000.0
  {
    var spread := Spread(b);
    var mid := MidPrice(b);
    if spread.Some? && mid.Some? && mid.value != 0.0 && mid.value > 0.0 then
      QuotientTimesDivisor(spread.value, mid.value);
      assert Mul(spread.value / mid.value * 10000.0, mid.value) == Mul(spread.value / mid.value, mid.value) * 10000.0;
      Some(spread.value / mid.value * 10000.0)
    else None
  }

  predicate NonNegQuantities(levels: seq<Level>)
  {
    forall i :: 0 <= i < |levels| ==> levels[i].quantity >= 0
  }

  /**
   * The number of contracts over the levels: `total_bid_depth`,
   * `total_ask_depth`. Without negative quantities it is non-negative and
   * at least the quantity of every level.
   */
  function Depth(levels: seq<Level>): (r: int)
    ensures levels == [] ==> r == 0
    ensures NonNegQuantities(levels) ==> r >= 0 && forall i :: 0 <= i < |levels| ==> levels[i].quantity <= r
  {
    if levels == [] then 0
    else
      var init := levels[..|levels| - 1];
      assert forall i :: 0 <= i < |init| ==> init[i] == levels[i];
      Depth(init) + levels[|levels| - 1].quantity
  }

  /**
   * The value over the levels: `total_bid_notional`, `total_ask_notional`;
   * never negative when no price or quantity is.
   */
  function TotalNotional(levels: seq<Level>): (r: real)
    ensures levels == [] ==> r == 0.0
    ensures NonNegQuantities(levels) && (forall i :: 0 <= i < |levels| ==> levels[i].price >= 0.0) ==> r >= 0.0
  {
    if levels == [] then 0.0
    else
      var init := levels[..|levels| - 1];
      assert forall i :: 0 <= i < |init| ==> init[i] == levels[i];
      TotalNotional(init) + Notional(levels[|levels| - 1])
  }

  /** Depth and notional of a side split into two runs of levels add up. */
  lemma {:induction false} SidesAdd(a: seq<Level>, b: seq<Level>)
    ensures Depth(a + b) == Depth(a) + Depth(b)
    ensures TotalNotional(a + b) == TotalNotional(a) + TotalNotional(b)
  {
    if b == [] {
      assert a + b == a;
    } else {
      var init := b[..|b| - 1];
      assert (a + b)[..|a + b| - 1] == a + init;
      SidesAdd(a, init);
    }
  }

  /**
   * `depth_imbalance`: (bid depth − ask depth) / total depth, 0 when the
   * book is empty; in [-1, 1] when no level has a negative quantity.
   */
  function DepthImbalance(b: Book): (r: real)
    ensures Depth(b.bids) + Depth(b.asks) == 0 ==> r == 0.0
    ensures NonNegQuantities(b.bids) && NonNegQuantities(b.asks) ==>
              -1.0 <= r <= 1.0 && (r > 0.0 <==> Depth(b.bids) > Depth(b.asks))
  {
    var totalBid := Depth(b.bids);
    var totalAsk := Depth(b.asks);
    var total := totalBid + totalAsk;
    if NonNegQuantities(b.bids) && NonNegQuantities(b.asks) then
      if total == 0 then 0.0
      else
        var x := (totalBid - totalAsk) as real;
        DivSignedUnit(x, total as real);
        DivSign(x, total as real);
        x / total as real
    else if total == 0 then 0.0
    else (totalBid - totalAsk) as real / total as real
  }

  // ----- price_impact -----

  /** What `price_impact` yields: None, the error of dividing by a zero size, or the average price. */
  datatype Impact = Unavailable | DivisionByZero | AvgPrice(price: real)

  /** The walk's variables after some levels: contracts still to fill, cost so far, and whether it has stopped. */
  datatype Walk = Walk(remaining: int, cost: real, stopped: bool)

  /**
   * The walk over `levels` for `size` contracts: each level fills what it
   * can of the remainder, and the walk stops once nothing remains.
   */
  function WalkLevels(size: int, levels: seq<Level>): Walk
  {
    if levels == [] then Walk(size, 0.0, false)
    else
      var w := WalkLevels(size, levels[..|levels| - 1]);
      if w.stopped then w
      else WalkStep(w, levels[|levels| - 1])
  }

  function WalkStep(w: Walk, l: Level): Walk
  {
    var fill := MinInt(w.remaining, l.quantity);
    Walk(w.remaining - fill, w.cost + Mul(fill as real, l.price), w.remaining - fill <= 0)
  }

  /** `price_impact` as a function of the side's levels. */
  function ImpactOf(levels: seq<Level>, size: int): Impact
  {
    if levels == [] then Unavailable
    else
      var w := WalkLevels(size, levels);
      if w.remaining > 0 then Unavailable
      else if size == 0 then DivisionByZero
      else AvgPrice(w.cost / size as real)
  }

  /** Once stopped, later levels change nothing. */
  lemma {:induction false} WalkStaysStopped(size: int, levels: seq<Level>, i: nat)
    requires i <= |levels| && WalkLevels(size, levels[..i]).stopped
    ensures WalkLevels(size, levels) == WalkLevels(size, levels[..i])
  {
    if i < |levels| {
      assert levels[..|levels| - 1][..i] == levels[..i];
      WalkStaysStopped(size, levels[..|levels| - 1], i);
    } else {
      assert levels[..i] == levels;
    }
  }

  /**
   * `price_impact`: walks the asks for a buy and the bids otherwise, taking
   * from each level at most what remains, until the size is filled.
   */
  method PriceImpact(b: Book, size: int, side: string) returns (r: Impact)
    ensures r == ImpactOf(if side == "buy" then b.asks else b.bids, size)
  {
    var levels := if side == "buy" then b.asks else b.bids;
    if levels == [] {
      return Unavailable;
    }
    var remaining := size;
    var totalCost := 0.0;
    var i := 0;
    while i < |levels|
      invariant 0 <= i <= |levels|
      invariant WalkLevels(size, levels[..i]) == Walk(remaining, totalCost, false)
    {
      assert levels[..i + 1][..i] == levels[..i];
      var fill := MinInt(remaining, levels[i].quantity);
      totalCost := totalCost + Mul(fill as real, levels[i].price);
      remaining := remaining - fill;
      i := i + 1;
      if remaining <= 0 {
        WalkStaysStopped(size, levels, i);
        break;
      }
    }
    if i == |levels| {
      assert levels[..i] == levels;
    }
    if remaining > 0 {
      return Unavailable;
    }
    if size == 0 {
      return DivisionByZero;
    }
    r := AvgPrice(totalCost / size as real);
  }

  /**
   * For a positive size over levels without negative quantities, the walk
   * leaves exactly the part of the size that the levels' depth cannot
   * cover, and it stops exactly when nothing remains.
   */
  lemma {:induction false} WalkRemainder(size: int, levels: seq<Level>)
    requires size > 0 && NonNegQuantities(levels)
    ensures WalkLevels(size, levels).remaining == MaxInt(0, size - Depth(levels))
    ensures WalkLevels(size, levels).stopped <==> WalkLevels(size, levels).remaining == 0
  {
    if levels != [] {
      var init := levels[..|levels| - 1];
      assert NonNegQuantities(init) by {
        forall i | 0 <= i < |init| ensures init[i].quantity >= 0 {
          assert init[i] == levels[i];
        }
      }
      WalkRemainder(size, init);
      assert levels[|levels| - 1].quantity >= 0;
    }
  }

  /** For a positive size, no average price exists exactly when the side is empty or shallower than the size. */
  lemma ImpactUnavailable(levels: seq<Level>, size: int)
    requires size > 0 && NonNegQuantities(levels)
    ensures ImpactOf(levels, size).Unavailable? <==> levels == [] || Depth(levels) < size
    ensures ImpactOf(levels, size).AvgPrice? <==> levels != [] && Depth(levels) >= size
  {
    WalkRemainder(size, levels);
  }

  /** One level's fill keeps the cost between the lowest and highest price times the contracts filled. */
  lemma StepCostBounds(w: Walk, l: Level, size: int, lo: real, hi: real)
    requires w.remaining > 0 && l.quantity >= 0 && lo <= l.price <= hi
    requires Mul(lo, (size - w.remaining) as real) <= w.cost <= Mul(hi, (size - w.remaining) as real)
    ensures var v := WalkStep(w, l);
            Mul(lo, (size - v.remaining) as real) <= v.cost <= Mul(hi, (size - v.remaining) as real)
  {
    var fill := MinInt(w.remaining, l.quantity);
    var f := fill as real;
    var before := (size - w.remaining) as real;
    MulCommutes(f, l.price);
    ScaleLe(lo, l.price, f);
    ScaleLe(l.price, hi, f);
    MulCommutes(lo, f);
    MulCommutes(hi, f);
    MulDistributes(lo, before, f);
    MulDistributes(hi, before, f);
    assert (size - (w.remaining - fill)) as real == before + f;
  }

  /**
   * The cost so far lies between the lowest and the highest level price
   * times the number of contracts filled so far.
   */
  lemma {:induction false} WalkCostBounds(size: int, levels: seq<Level>, lo: real, hi: real)
    requires size > 0 && NonNegQuantities(levels)
    requires forall i :: 0 <= i < |levels| ==> lo <= levels[i].price <= hi
    ensures var w := WalkLevels(size, levels);
            Mul(lo, (size - w.remaining) as real) <= w.cost <= Mul(hi, (size - w.remaining) as real)
  {
    if levels == [] {
      assert Mul(lo, 0.0) == 0.0 && Mul(hi, 0.0) == 0.0;
    } else {
      var init := levels[..|levels| - 1];
      var l := levels[|levels| - 1];
      assert NonNegQuantities(init) by {
        forall i | 0 <= i < |init| ensures init[i].quantity >= 0 {
          assert init[i] == levels[i];
        }
      }
      forall i | 0 <= i < |init| ensures lo <= init[i].price <= hi {
        assert init[i] == levels[i];
      }
      WalkCostBounds(size, init, lo, hi);
      WalkRemainder(size, init);
      var w := WalkLevels(size, init);
      if !w.stopped {
        StepCostBounds(w, l, size, lo, hi);
      }
    }
  }

  /**
   * The average price of a walk is a weighted average of the walked
   * prices: it lies between the lowest and the highest level price.
   */
  lemma ImpactIsWeightedAverage(levels: seq<Level>, size: int, lo: real, hi: real)
    requires size > 0 && NonNegQuantities(levels)
    requires forall i :: 0 <= i < |levels| ==> lo <= levels[i].price <= hi
    requires ImpactOf(levels, size).AvgPrice?
    ensures lo <= ImpactOf(levels, size).price <= hi
  {
    var w := WalkLevels(size, levels);
    WalkRemainder(size, levels);
    WalkCostBounds(size, levels, lo, hi);
    var n := size as real;
    assert w.remaining == 0;
    assert Mul(lo, n) <= w.cost <= Mul(hi, n);
    DivLe(Mul(lo, n), w.cost, n);
    DivLe(w.cost, Mul(hi, n), n);
    MulDivCancel(lo, n);
    MulDivCancel(hi, n);
  }

  // ----- from_api_response -----

  function LevelPrice(l: Level): real { l.price }
  function NegLevelPrice(l: Level): real { -l.price }

  /** An exchange level `[cents, quantity]` as a price level in dollars. */
  function ToLevel(raw: (real, int)): Level
  {
    Level(raw.0 / 100.0, raw.1)
  }

  /**
   * `from_api_response`: the "yes" side's bid and ask levels, each absent
   * list meaning no levels, converted to dollars; bids highest first and
   * asks lowest first. The books' sides are exactly the converted levels.
   */
  function FromApiResponse(ticker: string, now: int, bids: Option<seq<(real, int)>>, asks: Option<seq<(real, int)>>): (b: Book)
    ensures b.ticker == ticker && b.timestamp == now
    ensures SortedDesc(b.bids, LevelPrice) && SortedDesc(b.asks, NegLevelPrice)
    ensures multiset(b.bids) == multiset(MapSeq(ToLevel, bids.GetOr([])))
    ensures multiset(b.asks) == multiset(MapSeq(ToLevel, asks.GetOr([])))
  {
    var bidLevels := MapSeq(ToLevel, bids.GetOr([]));
    var askLevels := MapSeq(ToLevel, asks.GetOr([]));
    SortDescSorted(bidLevels, LevelPrice);
    SortDescSorted(askLevels, NegLevelPrice);
    SortDescPermutation(bidLevels, LevelPrice);
    SortDescPermutation(askLevels, NegLevelPrice);
    Book(ticker, now, SortDesc(bidLevels, LevelPrice), SortDesc(askLevels, NegLevelPrice))
  }

  /** In a book built from the exchange, the best bid is the highest bid and the best ask the lowest ask. */
  lemma BestQuotesAreExtreme(ticker: string, now: int, bids: Option<seq<(real, int)>>, asks: Option<seq<(real, int)>>)
    ensures var b := FromApiResponse(ticker, now, bids, asks);
            (forall i :: 0 <= i < |b.bids| ==> b.bids[i].price <= BestBid(b).value) &&
            (forall i :: 0 <= i < |b.asks| ==> BestAsk(b).value <= b.asks[i].price)
  {
    var b := FromApiResponse(ticker, now, bids, asks);
    forall i | 0 <= i < |b.bids| ensures b.bids[i].price <= BestBid(b).value {
      if i > 0 {
        assert LevelPrice(b.bids[0]) >= LevelPrice(b.bids[i]);
      }
    }
    forall i | 0 <= i < |b.asks| ensures BestAsk(b).value <= b.asks[i].price {
      if i > 0 {
        assert NegLevelPrice(b.asks[0]) >= NegLevelPrice(b.asks[i]);
      }
    }
  }

  /**
   * Buying from a book built from the exchange never averages below the
   * best ask or above the highest ask walked.
   */
  lemma BuyImpactAtLeastBestAsk(b: Book, size: int)
    requires SortedDesc(b.asks, NegLevelPrice) && NonNegQuantities(b.asks) && size > 0
    requires ImpactOf(b.asks, size).AvgPrice?
    ensures BestAsk(b).value <= ImpactOf(b.asks, size).price <= b.asks[|b.asks| - 1].price
  {
    var asks := b.asks;
    forall i | 0 <= i < |asks| ensures asks[0].price <= asks[i].price <= asks[|asks| - 1].price {
      if i > 0 {
        assert NegLevelPrice(asks[0]) >= NegLevelPrice(asks[i]);
      }
      if i < |asks| - 1 {
        assert NegLevelPrice(asks[i]) >= NegLevelPrice(asks[|asks| - 1]);
      }
    }
    ImpactIsWeightedAverage(asks, size, asks[0].price, asks[|asks| - 1].price);
  }
}
