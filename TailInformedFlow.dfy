/**
 * The tail-informed-flow generator (signals/tail_informed_flow.py): follow
 * a clustered, one-sided flow of trades in a tight, low-impact market.
 */
module TailInformedFlow {
  import opened Common
  import opened Signals
  import Snapshot

  datatype Params = Params(clusteringThreshold: real, notionalThreshold: real, impactThreshold: real, spreadThreshold: real)

  const DefaultParams := Params(0.6, 500.0, 0.02, 0.05)

  const Name := "tail_informed_flow"

  /** The features that must be present and not None. */
  const Required := ["trade_clustering", "spread", "trade_flow_imbalance"]

  /** The flow must be at least this one-sided to give a direction. */
  const MinFlow: real := 0.2

  /**
   * `generate`. It fires exactly when the required features are present,
   * clustering reaches its threshold, the spread and the price impact (0.1
   * when absent) do not exceed theirs, and the flow imbalance is at least
   * 0.2 either way; the signal follows the flow with the flow's magnitude
   * as confidence, and its strength is the mean of the clustering score
   * min(1, clustering / 0.8), the spread score and the impact score, each
   * max(0, 1 - value / threshold). A price impact present as None, or a zero spread or
   * impact threshold, raises.
   */
  function Generate(p: Params, snapshot: Snapshot.MarketSnapshot, features: Features): (r: Generated)
    ensures !ValidateInputs(features, Required) ==> r == Skip
    ensures ValidateInputs(features, Required) ==>
              var clustering := features["trade_clustering"].value;
              var spread := features["spread"].value;
              var flow := features["trade_flow_imbalance"].value;
              var impact := FeatureOr(features, "price_impact_100", 0.1);
              (r.Fire? <==>
                 clustering >= p.clusteringThreshold && spread <= p.spreadThreshold &&
                 impact.Some? && impact.value <= p.impactThreshold && Abs(flow) >= MinFlow &&
                 p.spreadThreshold != 0.0 && p.impactThreshold != 0.0) &&
              (r.Error? <==>
                 clustering >= p.clusteringThreshold && spread <= p.spreadThreshold &&
                 (impact.None? ||
                  (impact.value <= p.impactThreshold && Abs(flow) >= MinFlow &&
                   (p.spreadThreshold == 0.0 || p.impactThreshold == 0.0)))) &&
              (r.Fire? ==>
                 (r.signal.direction == Yes <==> flow > 0.0) && r.signal.direction != Neutral &&
                 r.signal.confidence == Min(1.0, Abs(flow)) &&
                 r.signal.strength == Clamp((Min(1.0, clustering / 0.8) + Max(0.0, 1.0 - spread / p.spreadThreshold)
                                             + Max(0.0, 1.0 - impact.value / p.impactThreshold)) / 3.0, 0.0, 1.0) &&
                 (p.clusteringThreshold >= 0.0 ==> r.signal.strength >= Min(1.0, p.clusteringThreshold / 0.8) / 3.0))
    ensures r.Fire? ==> r.signal.name == Name && r.signal.featuresUsed == Required && Clamped(r.signal) &&
                        r.signal.marketId == Some(snapshot.marketId) && r.signal.timestamp == Some(snapshot.snapshotTime)
  {
    if !ValidateInputs(features, Required) then Skip
    else
      var clustering := features["trade_clustering"].value;
      var spread := features["spread"].value;
      var flow := features["trade_flow_imbalance"].value;
      var impact := FeatureOr(features, "price_impact_100", 0.1);
      if clustering < p.clusteringThreshold then Skip
      else if spread > p.spreadThreshold then Skip
      else if impact.None? then Error
      else if impact.value > p.impactThreshold then Skip
      else if Abs(flow) < MinFlow then Skip
      else if p.spreadThreshold == 0.0 || p.impactThreshold == 0.0 then Error
      else
        var direction := if flow > 0.0 then Yes else No;
        var clusteringScore := Min(1.0, clustering / 0.8);
        var spreadScore := Max(0.0, 1.0 - spread / p.spreadThreshold);
        var impactScore := Max(0.0, 1.0 - impact.value / p.impactThreshold);
        var strength := (clusteringScore + spreadScore + impactScore) / 3.0;
        Fire(CreateSignal(Name, direction, strength, Abs(flow), snapshot, Required))
  }

  /** With the default thresholds a fired signal has strength at least 0.25, and only a None price impact raises. */
  lemma DefaultSignalStrength(snapshot: Snapshot.MarketSnapshot, features: Features)
    ensures var r := Generate(DefaultParams, snapshot, features);
            (r.Fire? ==> r.signal.strength >= 0.25) &&
            (r.Error? ==> "price_impact_100" in features && features["price_impact_100"].None?)
  {
  }
}
