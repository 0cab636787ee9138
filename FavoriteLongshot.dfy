/**
 * Favorite-longshot bias features (features/behavioral/favorite_longshot.py):
 * the bias of a contract's price against a reference or against the
 * empirical curve, the edge in cents after the exchange's vig, the scan
 * of several markets for mispricings, and the public's volume bias.
 */
module FavoriteLongshot {
  import opened Common
  import opened Sorting
  import Signals

  /**
   * `compute_favorite_longshot_bias`: price minus the fair probability, or
   * minus the sportsbook probability, or else the empirical curve that
   * rises to 3 points below 0.20 and falls to −3 points above 0.80.
   */
  function Bias(price: real, fairProb: Option<real>, sportsbook: Option<real>): (r: real)
    ensures fairProb.Some? ==> r == price - fairProb.value
    ensures fairProb.None? && sportsbook.Some? ==> r == price - sportsbook.value
    ensures fairProb.None? && sportsbook.None? ==>
              (0.2 <= price <= 0.8 ==> r == 0.0) &&
              (price < 0.2 ==> 0.0 < r && (0.0 <= price ==> r <= 0.03)) &&
              (price > 0.8 ==> r < 0.0 && (price <= 1.0 ==> -0.03 <= r))
  {
    if fairProb.Some? then price - fairProb.value
    else if sportsbook.Some? then price - sportsbook.value
    else if price < 0.2 then 0.03 * (0.2 - price) / 0.2
    else if price > 0.8 then -0.03 * (price - 0.8) / 0.2
    else 0.0
  }

  /** The empirical curve is antisymmetric: a longshot at p is biased as much as the favorite at 1 − p, in the other direction. */
  lemma CurveIsAntisymmetric(price: real)
    ensures Bias(1.0 - price, None, None) == -Bias(price, None, None)
  {
  }

  /** The vig, in probability points, that an edge must overcome. */
  const Vig: real := 0.02

  /**
   * `compute_implied_edge` as written: the bias moved by the vig toward
   * zero on the positive side and away from it otherwise, in cents. A zero
   * bias becomes an edge of +2 cents, and a bias inside the vig band comes
   * out with the opposite sign.
   */
  function ImpliedEdgeAsWritten(price: real, external: Option<real>): (r: real)
    ensures Abs(r - Bias(price, external, None) * 100.0) == Vig * 100.0
    ensures Bias(price, external, None) > 0.0 ==> r < Bias(price, external, None) * 100.0
    ensures Bias(price, external, None) <= 0.0 ==> r > Bias(price, external, None) * 100.0
  {
    var bias := Bias(price, external, None);
    (if bias > 0.0 then bias - Vig else bias + Vig) * 100.0
  }

  /** A mid-range price with no reference has no bias, yet the edge as written is +2 cents toward YES. */
  lemma ImpliedEdgeAsWrittenInventsEdge()
    ensures Bias(0.5, None, None) == 0.0
    ensures ImpliedEdgeAsWritten(0.5, None) == 2.0
  {
  }

  /** A price one point above its reference gives an edge as written of −1 cent, the opposite sign of the bias. */
  lemma ImpliedEdgeAsWrittenFlipsSign()
    ensures Bias(0.51, Some(0.5), None) > 0.0
    ensures ImpliedEdgeAsWritten(0.51, Some(0.5)) == -1.0
  {
  }

  /**
   * The implied edge in cents: the bias shrunk toward zero by the vig, and
   * zero when the bias does not exceed the vig. It never exceeds the bias,
   * never has the opposite sign, and agrees with the formula as written
   * whenever the bias is beyond the vig.
   */
  function ImpliedEdge(price: real, external: Option<real>): (r: real)
    ensures Abs(r) <= Abs(Bias(price, external, None)) * 100.0
    ensures r > 0.0 ==> Bias(price, external, None) > 0.0
    ensures r < 0.0 ==> Bias(price, external, None) < 0.0
    ensures Abs(Bias(price, external, None)) <= Vig ==> r == 0.0
    ensures Abs(Bias(price, external, None)) > Vig ==> r == ImpliedEdgeAsWritten(price, external)
  {
    var bias := Bias(price, external, None);
    if bias > Vig then (bias - Vig) * 100.0
    else if bias < -Vig then (bias + Vig) * 100.0
    else 0.0
  }

  /** A price on the empirical curve carries at most one cent of edge. */
  lemma CurveEdgeAtMostOneCent(price: real)
    requires 0.0 <= price <= 1.0
    ensures Abs(ImpliedEdge(price, None)) <= 1.0
  {
  }

  /** One entry of the `identify_mispricing` result. */
  datatype Opportunity = Opportunity(marketId: string, price: real, edge: real, direction: Signals.Direction, confidence: real)

  /** The entry for one market: the edge as written, its direction, and a confidence reaching 1 at 10 cents. */
  function MakeOpportunity(marketId: string, price: real): (o: Opportunity)
    ensures o.marketId == marketId && o.price == price && o.edge == ImpliedEdgeAsWritten(price, None)
    ensures o.direction == Signals.Yes <==> o.edge > 0.0
    ensures 0.0 <= o.confidence <= 1.0 && (Abs(o.edge) <= 10.0 ==> o.confidence == Abs(o.edge) / 10.0)
  {
    var edge := ImpliedEdgeAsWritten(price, None);
    Opportunity(marketId, price, edge, if edge > 0.0 then Signals.Yes else Signals.No, Min(1.0, Abs(edge) / 10.0))
  }

  function AbsEdge(o: Opportunity): real { Abs(o.edge) }

  /**
   * The opportunities among `(market, price)` pairs, in their order: those
   * whose edge as written exceeds the threshold (a probability) in cents,
   * each facing the edge's direction with confidence min(1, |edge| / 10).
   */
  function Opportunities(prices: seq<(string, real)>, threshold: real): (r: seq<Opportunity>)
    ensures forall o :: o in r ==>
              (o.marketId, o.price) in prices && o == MakeOpportunity(o.marketId, o.price) &&
              Abs(o.edge) > threshold * 100.0 &&
              (o.direction == Signals.Yes <==> o.edge > 0.0) &&
              0.0 <= o.confidence <= 1.0
    ensures forall p :: p in prices && Abs(ImpliedEdgeAsWritten(p.1, None)) > threshold * 100.0 ==> MakeOpportunity(p.0, p.1) in r
  {
    if prices == [] then []
    else
      var init := prices[..|prices| - 1];
      var last := prices[|prices| - 1];
      var rest := Opportunities(init, threshold);
      assert forall p :: p in prices ==> p in init || p == last;
      assert forall p :: p in init ==> p in prices;
      if Abs(ImpliedEdgeAsWritten(last.1, None)) > threshold * 100.0 then rest + [MakeOpportunity(last.0, last.1)]
      else rest
  }

  /**
   * `identify_mispricing`: scans the markets in order, collecting each
   * opportunity on the edge as written, then returns them sorted by |edge|
   * descending.
   */
  method IdentifyMispricing(prices: seq<(string, real)>, threshold: real) returns (r: seq<Opportunity>)
    ensures r == SortDesc(Opportunities(prices, threshold), AbsEdge)
    ensures SortedDesc(r, AbsEdge)
    ensures multiset(r) == multiset(Opportunities(prices, threshold))
  {
    var opportunities := [];
    var i := 0;
    while i < |prices|
      invariant 0 <= i <= |prices|
      invariant opportunities == Opportunities(prices[..i], threshold)
    {
      assert prices[..i + 1][..i] == prices[..i];
      var (marketId, price) := prices[i];
      var edge := ImpliedEdgeAsWritten(price, None);
      if Abs(edge) > threshold * 100.0 {
        opportunities := opportunities + [MakeOpportunity(marketId, price)];
      }
      i := i + 1;
    }
    assert prices[..i] == prices;
    r := SortDesc(opportunities, AbsEdge);
    SortDescSorted(opportunities, AbsEdge);
    SortDescPermutation(opportunities, AbsEdge);
  }

  /** A mid-range price with no bias is flagged at a 1-point threshold, with the invented 2-cent edge toward YES. */
  lemma MidPriceFlaggedAsWritten()
    ensures Opportunities([("m", 0.5)], 0.01) == [Opportunity("m", 0.5, 2.0, Signals.Yes, 0.2)]
  {
    ImpliedEdgeAsWrittenInventsEdge();
    assert [("m", 0.5)][..0] == [];
  }

  /** A price on the empirical curve carries at most two cents of edge as written. */
  lemma CurveEdgeAsWrittenAtMostTwoCents(price: real)
    requires 0.0 <= price <= 1.0
    ensures Abs(ImpliedEdgeAsWritten(price, None)) <= 2.0
  {
  }

  /** With the default 3-point threshold, no market priced within [0, 1] is ever flagged. */
  lemma {:induction false} DefaultThresholdFlagsNothing(prices: seq<(string, real)>)
    requires forall i :: 0 <= i < |prices| ==> 0.0 <= prices[i].1 <= 1.0
    ensures Opportunities(prices, 0.03) == []
  {
    if prices != [] {
      DefaultThresholdFlagsNothing(prices[..|prices| - 1]);
      CurveEdgeAsWrittenAtMostTwoCents(prices[|prices| - 1].1);
    }
  }

  /**
   * `compute_public_bias`: the YES share of volume minus the YES price, 0
   * without volume. For non-negative volumes it lies in [−price, 1 − price].
   */
  function PublicBias(yesVolume: int, noVolume: int, yesPrice: real): (r: real)
    ensures yesVolume + noVolume == 0 ==> r == 0.0
    ensures yesVolume + noVolume != 0 ==> Mul(r + yesPrice, (yesVolume + noVolume) as real) == yesVolume as real
    ensures yesVolume >= 0 && noVolume >= 0 ==> -yesPrice <= r <= 1.0 - yesPrice || yesVolume + noVolume == 0
  {
    var total := yesVolume + noVolume;
    if total == 0 then 0.0
    else
      var share := yesVolume as real / total as real;
      QuotientTimesDivisor(yesVolume as real, total as real);
      if yesVolume >= 0 && noVolume >= 0 then
        DivUnit(yesVolume as real, total as real);
        share - yesPrice
      else share - yesPrice
  }
}
