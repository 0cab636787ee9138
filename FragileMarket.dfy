/**
 * The fragile-market generator (signals/fragile_market.py): in a thin,
 * high-impact market close to resolution, act on a pricing edge of at
 * least the minimum size.
 */
module FragileMarket {
  import opened Common
  import opened Signals
  import Snapshot
  import FavoriteLongshot

  datatype Params = Params(maxDepth: int, minImpact: real, maxTimeToResolution: int, minEdge: real)

  const DefaultParams := Params(200, 0.03, 7200, 0.02)

  const Name := "fragile_market"

  const FeaturesUsed := ["price_impact_100", "implied_edge", "favorite_longshot_bias"]

  const RiskFlags := ["illiquid", "hard_to_exit"]

  /**
   * `generate`. It fires exactly when resolution is known and at most the
   * maximum seconds away, the book's total depth is at most the maximum,
   * the price impact (0 when absent) reaches the minimum, and the implied
   * edge (0 when absent) is at least the minimum edge in cents either way;
   * a None feature that is used raises, and so does a zero maximum depth.
   * The signal follows the edge, with confidence min(1, |edge| / 10),
   * strength the mean of the depth score max(0, 1 - depth / max depth) and
   * the impact score min(1, impact / 0.10), the risk flags "illiquid" and
   * "hard_to_exit", and the depth and the hours to resolution as metadata.
   */
  function Generate(p: Params, snapshot: Snapshot.MarketSnapshot, features: Features): (r: Generated)
    ensures snapshot.timeToResolutionSeconds.None? ==> r == Skip
    ensures snapshot.timeToResolutionSeconds.Some? ==>
              var t := snapshot.timeToResolutionSeconds.value;
              var depth := snapshot.totalBidDepth + snapshot.totalAskDepth;
              var impact := FeatureOr(features, "price_impact_100", 0.0);
              var edge := FeatureOr(features, "implied_edge", 0.0);
              (t > p.maxTimeToResolution || depth > p.maxDepth ==> r == Skip) &&
              (r.Fire? <==>
                 t <= p.maxTimeToResolution && depth <= p.maxDepth &&
                 impact.Some? && impact.value >= p.minImpact &&
                 edge.Some? && Abs(edge.value) >= p.minEdge * 100.0 && p.maxDepth != 0) &&
              (r.Fire? ==>
                 (r.signal.direction == Yes <==> edge.value > 0.0) && r.signal.direction != Neutral &&
                 r.signal.confidence == Min(1.0, Abs(edge.value) / 10.0) &&
                 r.signal.strength == Clamp((Max(0.0, 1.0 - depth as real / p.maxDepth as real)
                                             + Min(1.0, impact.value / 0.10)) / 2.0, 0.0, 1.0) &&
                 r.signal.metadata.Keys == {"total_depth", "hours_to_resolution"} &&
                 r.signal.metadata["total_depth"] == depth as real &&
                 r.signal.metadata["hours_to_resolution"] * 3600.0 == t as real)
    ensures r.Fire? ==> r.signal.name == Name && Clamped(r.signal) && r.signal.featuresUsed == FeaturesUsed &&
                        r.signal.riskFlags == Some(RiskFlags) &&
                        r.signal.marketId == Some(snapshot.marketId) && r.signal.timestamp == Some(snapshot.snapshotTime)
  {
    match snapshot.timeToResolutionSeconds
    case None => Skip
    case Some(t) =>
      if t > p.maxTimeToResolution then Skip
      else
        var depth := snapshot.totalBidDepth + snapshot.totalAskDepth;
        var impact := FeatureOr(features, "price_impact_100", 0.0);
        if depth > p.maxDepth then Skip
        else if impact.None? then Error
        else if impact.value < p.minImpact then Skip
        else
          var edge := FeatureOr(features, "implied_edge", 0.0);
          if edge.None? then Error
          else if Abs(edge.value) < p.minEdge * 100.0 then Skip
          else
            var direction := if edge.value > 0.0 then Yes else No;
            if p.maxDepth == 0 then Error
            else
              var depthScore := Max(0.0, 1.0 - depth as real / p.maxDepth as real);
              var impactScore := Min(1.0, impact.value / 0.10);
              var strength := (depthScore + impactScore) / 2.0;
              var confidence := Min(1.0, Abs(edge.value) / 10.0);
              var hoursLeft := t as real / 3600.0;
              var signal := CreateSignal(Name, direction, strength, confidence, snapshot, FeaturesUsed);
              Fire(signal.(riskFlags := Some(RiskFlags),
                           metadata := signal.metadata["total_depth" := depth as real]["hours_to_resolution" := hoursLeft]))
  }

  /**
   * A market with no favorite-longshot bias (price 0.5, no reference)
   * that is otherwise fragile fires a YES signal on the implied edge as
   * written, which invents 2 cents, and stays silent on the corrected edge.
   */
  lemma InventedEdgeFiresSignal(snapshot: Snapshot.MarketSnapshot)
    requires snapshot.timeToResolutionSeconds == Some(3600)
    requires snapshot.totalBidDepth + snapshot.totalAskDepth == 100
    ensures var asWritten := map["price_impact_100" := Some(0.05), "implied_edge" := Some(FavoriteLongshot.ImpliedEdgeAsWritten(0.5, None))];
            var r := Generate(DefaultParams, snapshot, asWritten);
            r.Fire? && r.signal.direction == Yes
    ensures var corrected := map["price_impact_100" := Some(0.05), "implied_edge" := Some(FavoriteLongshot.ImpliedEdge(0.5, None))];
            Generate(DefaultParams, snapshot, corrected) == Skip
  {
    FavoriteLongshot.ImpliedEdgeAsWrittenInventsEdge();
  }
}
