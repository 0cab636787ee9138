/**
 * The late-kickoff-volatility generator (signals/late_kickoff_vol.py):
 * in the last minutes before kickoff, follow a clear depth imbalance while
 * volatility spikes.
 */
module LateKickoffVol {
  import opened Common
  import opened Signals
  import Snapshot

  datatype Params = Params(volatilityRatioThreshold: real, maxTimeToKickoff: int, minImbalance: real, liquidityWarning: real)

  const DefaultParams := Params(1.5, 600, 0.3, 0.3)

  const Name := "late_kickoff_vol"

  const FeaturesUsed := ["volatility_ratio", "depth_imbalance", "liquidity_score"]

  /**
   * `generate`. It fires exactly when kickoff is between 0 and the maximum
   * number of seconds away, the volatility ratio (1 when absent) reaches
   * its threshold, the depth imbalance (0 when absent) is at least the
   * minimum either way, and the liquidity score (0.5 when absent) is not
   * None; a None feature that is compared raises. The signal follows the
   * imbalance with its magnitude as confidence, cut to 70% and flagged
   * "low_liquidity" when liquidity is under the warning level, and records
   * the minutes to kickoff.
   */
  function Generate(p: Params, snapshot: Snapshot.MarketSnapshot, features: Features): (r: Generated)
    ensures snapshot.timeToKickoffSeconds.None? ==> r == Skip
    ensures snapshot.timeToKickoffSeconds.Some? ==>
              var t := snapshot.timeToKickoffSeconds.value;
              var volatility := FeatureOr(features, "volatility_ratio", 1.0);
              var imbalance := FeatureOr(features, "depth_imbalance", 0.0);
              var liquidity := FeatureOr(features, "liquidity_score", 0.5);
              (t > p.maxTimeToKickoff || t < 0 ==> r == Skip) &&
              (r.Fire? <==>
                 0 <= t <= p.maxTimeToKickoff &&
                 volatility.Some? && volatility.value >= p.volatilityRatioThreshold &&
                 imbalance.Some? && Abs(imbalance.value) >= p.minImbalance && liquidity.Some?) &&
              (r.Fire? ==>
                 (r.signal.direction == Yes <==> imbalance.value > 0.0) && r.signal.direction != Neutral &&
                 (volatility.value >= 1.0 ==> r.signal.strength == Min(1.0, (volatility.value - 1.0) / 2.0)) &&
                 (liquidity.value < p.liquidityWarning ==>
                    r.signal.riskFlags == Some(["low_liquidity"]) && r.signal.confidence == Min(1.0, Abs(imbalance.value) * 0.7)) &&
                 (liquidity.value >= p.liquidityWarning ==>
                    r.signal.riskFlags == Some([]) && r.signal.confidence == Min(1.0, Abs(imbalance.value))) &&
                 r.signal.metadata.Keys == {"minutes_to_kickoff"} &&
                 r.signal.metadata["minutes_to_kickoff"] * 60.0 == t as real)
    ensures r.Fire? ==> r.signal.name == Name && Clamped(r.signal) && r.signal.featuresUsed == FeaturesUsed &&
                        r.signal.marketId == Some(snapshot.marketId) && r.signal.timestamp == Some(snapshot.snapshotTime)
  {
    match snapshot.timeToKickoffSeconds
    case None => Skip
    case Some(t) =>
      if t > p.maxTimeToKickoff then Skip
      else if t < 0 then Skip
      else
        var volatility := FeatureOr(features, "volatility_ratio", 1.0);
        var imbalance := FeatureOr(features, "depth_imbalance", 0.0);
        var liquidity := FeatureOr(features, "liquidity_score", 0.5);
        if volatility.None? then Error
        else if volatility.value < p.volatilityRatioThreshold then Skip
        else if imbalance.None? then Error
        else if Abs(imbalance.value) < p.minImbalance then Skip
        else
          var direction := if imbalance.value > 0.0 then Yes else No;
          var strength := Min(1.0, (volatility.value - 1.0) / 2.0);
          var confidence := Abs(imbalance.value);
          if liquidity.None? then Error
          else
            var low := liquidity.value < p.liquidityWarning;
            var riskFlags := if low then ["low_liquidity"] else [];
            var minutes := t as real / 60.0;
            var signal := CreateSignal(Name, direction, strength, if low then confidence * 0.7 else confidence, snapshot, FeaturesUsed);
            Fire(signal.(riskFlags := Some(riskFlags), metadata := signal.metadata["minutes_to_kickoff" := minutes]))
  }

  /** With the default thresholds a fired signal has strength at least 0.25 and confidence at least 0.21. */
  lemma DefaultSignalFloor(snapshot: Snapshot.MarketSnapshot, features: Features)
    ensures var r := Generate(DefaultParams, snapshot, features);
            r.Fire? ==> r.signal.strength >= 0.25 && r.signal.confidence >= 0.21
  {
  }
}
