/**
 * The fade-overreaction generator (signals/fade_overreaction.py): bet
 * against a fast, overreacting price move while there is time before
 * kickoff for it to revert.
 */
module FadeOverreaction {
  import opened Common
  import opened Signals
  import Snapshot

  datatype Params = Params(velocityThreshold: real, volumeRatioMax: real, overreactionThreshold: real, minTimeToKickoff: int)

  const DefaultParams := Params(0.5, 1.5, 0.5, 1800)

  const Name := "fade_overreaction"

  /** The features that must be present and not None. */
  const Required := ["price_velocity", "overreaction_score"]

  /** Whether a non-zero mean-reversion reading points the same way as the fade. */
  predicate Agrees(meanReversion: real, direction: Direction)
  {
    (meanReversion > 0.0 && direction == Yes) || (meanReversion < 0.0 && direction == No)
  }

  /**
   * `generate`. It fires exactly when the required features are present,
   * the kickoff (when known) is at least the minimum time away, the move's
   * speed and the overreaction score reach their thresholds, and the
   * optional mean-reversion and liquidity features are not None (comparing
   * or scaling by None raises). What it fires is described by `FadesTheMove`.
   */
  function Generate(p: Params, snapshot: Snapshot.MarketSnapshot, features: Features): (r: Generated)
    ensures !ValidateInputs(features, Required) ==> r == Skip
    ensures ValidateInputs(features, Required) ==>
              var velocity := features["price_velocity"].value;
              var overreaction := features["overreaction_score"].value;
              var meanReversion := FeatureOr(features, "mean_reversion_signal", 0.0);
              var liquidity := FeatureOr(features, "liquidity_score", 0.5);
              var timely := snapshot.timeToKickoffSeconds.None? || snapshot.timeToKickoffSeconds.value >= p.minTimeToKickoff;
              (r.Fire? <==>
                 timely && Abs(velocity) >= p.velocityThreshold && overreaction >= p.overreactionThreshold &&
                 meanReversion.Some? && liquidity.Some?) &&
              (r.Error? <==>
                 timely && Abs(velocity) >= p.velocityThreshold && overreaction >= p.overreactionThreshold &&
                 (meanReversion.None? || liquidity.None?))
    ensures r.Fire? ==> r.signal.name == Name && Clamped(r.signal) &&
                        r.signal.featuresUsed == Required + ["mean_reversion_signal", "liquidity_score"] &&
                        r.signal.marketId == Some(snapshot.marketId) && r.signal.timestamp == Some(snapshot.snapshotTime)
  {
    if !ValidateInputs(features, Required) then Skip
    else
      var velocity := features["price_velocity"].value;
      var overreaction := features["overreaction_score"].value;
      var meanReversion := FeatureOr(features, "mean_reversion_signal", 0.0);
      if snapshot.timeToKickoffSeconds.Some? && snapshot.timeToKickoffSeconds.value < p.minTimeToKickoff then Skip
      else if Abs(velocity) < p.velocityThreshold then Skip
      else if overreaction < p.overreactionThreshold then Skip
      else
        var direction := if velocity > 0.0 then No else Yes;
        var strength := Min(1.0, overreaction);
        if meanReversion.None? then Error
        else
          var base := if meanReversion.value != 0.0 then (if Agrees(meanReversion.value, direction) then 0.7 else 0.4) else 0.5;
          var liquidity := FeatureOr(features, "liquidity_score", 0.5);
          if liquidity.None? then Error
          else
            Fire(CreateSignal(Name, direction, strength, base * liquidity.value, snapshot,
                              Required + ["mean_reversion_signal", "liquidity_score"]))
  }

  /**
   * A fired signal fades the move: NO after a rise, YES otherwise, with the
   * overreaction score as strength. Its confidence is 0.7 when mean
   * reversion agrees, 0.4 when it disagrees and 0.5 when it is 0, times the
   * liquidity score (0.5 when absent).
   */
  lemma FadesTheMove(p: Params, snapshot: Snapshot.MarketSnapshot, features: Features)
    ensures var r := Generate(p, snapshot, features);
            r.Fire? ==>
              var velocity := features["price_velocity"].value;
              var overreaction := features["overreaction_score"].value;
              var meanReversion := FeatureOr(features, "mean_reversion_signal", 0.0).value;
              var liquidity := FeatureOr(features, "liquidity_score", 0.5).value;
              (r.signal.direction == No <==> velocity > 0.0) && r.signal.direction != Neutral &&
              (overreaction >= 0.0 ==> r.signal.strength == Min(1.0, overreaction)) &&
              (0.0 <= liquidity <= 1.0 ==>
                 (meanReversion == 0.0 ==> r.signal.confidence == 0.5 * liquidity) &&
                 (Agrees(meanReversion, r.signal.direction) ==> r.signal.confidence == 0.7 * liquidity) &&
                 (meanReversion != 0.0 && !Agrees(meanReversion, r.signal.direction) ==>
                    r.signal.confidence == 0.4 * liquidity))
  {
  }

  /** A fired signal is never more confident than 0.7 when liquidity is a score in [0, 1]. */
  lemma ConfidenceAtMostSevenTenths(p: Params, snapshot: Snapshot.MarketSnapshot, features: Features)
    requires "liquidity_score" in features ==> features["liquidity_score"].Some? && 0.0 <= features["liquidity_score"].value <= 1.0
    ensures var r := Generate(p, snapshot, features);
            r.Fire? ==> r.signal.confidence <= 0.7
  {
  }
}
