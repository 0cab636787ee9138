/**
 * Liquidity features of a market snapshot
 * (features/microstructure/liquidity.py): spread, spread relative to the
 * mid price, depth imbalance, and a composite liquidity score in [0, 1].
 */
module Liquidity {
  import opened Common
  import Snapshot

  /** `compute_spread`: ask minus bid when both quotes exist; it is the snapshot's own spread. */
  function ComputeSpread(s: Snapshot.MarketSnapshot): (r: Option<real>)
    ensures r.Some? <==> s.bestBid.Some? && s.bestAsk.Some?
    ensures r.Some? ==> s.bestBid.value + r.value == s.bestAsk.value
    ensures r == Snapshot.Spread(s)
  {
    if s.bestBid.None? || s.bestAsk.None? then None
    else Some(s.bestAsk.value - s.bestBid.value)
  }

  /**
   * `compute_spread_pct`: the spread over the mid price, None when the
   * spread or the mid is missing or the mid is zero. Unlike the snapshot's
   * own `spread_pct`, a negative mid price is divided by.
   */
  function ComputeSpreadPct(s: Snapshot.MarketSnapshot): (r: Option<real>)
    ensures r.None? <==> ComputeSpread(s).None? || s.midPrice.None? || s.midPrice.value == 0.0
    ensures r.Some? ==> Mul(r.value, s.midPrice.value) == ComputeSpread(s).value
  {
    var spread := ComputeSpread(s);
    if spread.None? || s.midPrice.None? || s.midPrice.value == 0.0 then None
    else
      QuotientTimesDivisor(spread.value, s.midPrice.value);
      Some(spread.value / s.midPrice.value)
  }

  /**
   * The two spread-percentage definitions agree for a positive mid price,
   * and differ for a negative one, where only this feature yields a value.
   */
  lemma SpreadPctVersusSnapshot(s: Snapshot.MarketSnapshot)
    ensures s.midPrice.Some? && s.midPrice.value > 0.0 ==> ComputeSpreadPct(s) == Snapshot.SpreadPct(s)
    ensures s.midPrice.Some? && s.midPrice.value < 0.0 && ComputeSpread(s).Some? ==>
              ComputeSpreadPct(s).Some? && Snapshot.SpreadPct(s).None?
  {
  }

  /**
   * `compute_depth_imbalance`: (bid depth − ask depth) / total depth, 0 at
   * zero depth, in [-1, 1] for non-negative depths; it equals the
   * snapshot's own imbalance.
   */
  function ComputeDepthImbalance(s: Snapshot.MarketSnapshot): (r: real)
    ensures s.totalBidDepth + s.totalAskDepth == 0 ==> r == 0.0
    ensures s.totalBidDepth >= 0 && s.totalAskDepth >= 0 ==> -1.0 <= r <= 1.0
    ensures r == Snapshot.DepthImbalance(s)
  {
    var total := s.totalBidDepth + s.totalAskDepth;
    var r := if total == 0 then 0.0 else (s.totalBidDepth - s.totalAskDepth) as real / total as real;
    assert r == Snapshot.DepthImbalance(s);
    r
  }

  /** The score and the weight accumulated by the liquidity score's components. */
  datatype Tally = Tally(score: real, weights: real)

  function SpreadComponent(t: Tally, spread: Option<real>): Tally
  {
    if spread.Some? then Tally(t.score + Max(0.0, 1.0 - spread.value * 10.0) * 0.4, t.weights + 0.4) else t
  }

  function DepthComponent(t: Tally, depth: int): Tally
  {
    if depth > 0 then Tally(t.score + Min(1.0, depth as real / 1000.0) * 0.3, t.weights + 0.3) else t
  }

  function VolumeComponent(t: Tally, volume: int): Tally
  {
    if volume > 0 then Tally(t.score + Min(1.0, volume as real / 500.0) * 0.3, t.weights + 0.3) else t
  }

  /**
   * `compute_liquidity_score`: the weighted mean of a spread component
   * (weight 0.4), a depth component (0.3, when there is depth) and an
   * hourly-volume component (0.3, when there is volume), over the weights
   * that applied. It is 0 when none applies and lies in [0, 1] unless the
   * spread is negative.
   */
  function ComputeLiquidityScore(s: Snapshot.MarketSnapshot): (r: real)
    ensures ComputeSpread(s).None? && s.totalBidDepth + s.totalAskDepth <= 0 && s.volume1h <= 0 ==> r == 0.0
    ensures ComputeSpread(s).None? || ComputeSpread(s).value >= 0.0 ==> 0.0 <= r <= 1.0
  {
    var spread := ComputeSpread(s);
    var t := VolumeComponent(DepthComponent(SpreadComponent(Tally(0.0, 0.0), spread), s.totalBidDepth + s.totalAskDepth), s.volume1h);
    if t.weights == 0.0 then 0.0
    else
      if spread.None? || spread.value >= 0.0 then
        DivUnit(t.score, t.weights);
        t.score / t.weights
      else t.score / t.weights
  }

  /**
   * A snapshot with a zero spread, at least 1000 contracts of depth and at
   * least 500 contracts of hourly volume scores a perfect 1.
   */
  lemma PerfectLiquidity(s: Snapshot.MarketSnapshot)
    requires ComputeSpread(s) == Some(0.0)
    requires s.totalBidDepth + s.totalAskDepth >= 1000 && s.volume1h >= 500
    ensures ComputeLiquidityScore(s) == 1.0
  {
  }

  /** Widening the spread, all else fixed, never raises the score. */
  lemma {:induction false} WiderSpreadNeverHelps(s: Snapshot.MarketSnapshot, wider: Snapshot.MarketSnapshot)
    requires ComputeSpread(s).Some? && ComputeSpread(wider).Some?
    requires 0.0 <= ComputeSpread(s).value <= ComputeSpread(wider).value
    requires wider.totalBidDepth + wider.totalAskDepth == s.totalBidDepth + s.totalAskDepth
    requires wider.volume1h == s.volume1h
    ensures ComputeLiquidityScore(wider) <= ComputeLiquidityScore(s)
  {
    var t := SpreadComponent(Tally(0.0, 0.0), ComputeSpread(s));
    var u := SpreadComponent(Tally(0.0, 0.0), ComputeSpread(wider));
    var depth := s.totalBidDepth + s.totalAskDepth;
    var t' := VolumeComponent(DepthComponent(t, depth), s.volume1h);
    var u' := VolumeComponent(DepthComponent(u, depth), s.volume1h);
    assert u'.weights == t'.weights && u'.score <= t'.score;
    DivLe(u'.score, t'.score, t'.weights);
  }
}
