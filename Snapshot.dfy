/**
 * The point-in-time market snapshot (kalshi/models/snapshot.py) that the
 * feature and signal layers read, with its derived spread, depth
 * imbalance and kickoff regime.
 */
module Snapshot {
  import opened Common
  import Schedule

  datatype MarketSnapshot = MarketSnapshot(
    marketId: string,
    eventId: string,
    snapshotTime: int,
    league: string,
    teamHome: Option<string>,
    teamAway: Option<string>,
    marketType: string,
    contractSide: string,
    bestBid: Option<real>,
    bestAsk: Option<real>,
    midPrice: Option<real>,
    lastTradePrice: Option<real>,
    lastTradeSize: Option<int>,
    volume1m: int,
    volume5m: int,
    volume1h: int,
    volumeTotal: int,
    totalBidDepth: int,
    totalAskDepth: int,
    bidDepthNotional: real,
    askDepthNotional: real,
    timeToKickoffSeconds: Option<int>,
    timeToResolutionSeconds: Option<int>)

  /** `spread`: ask minus bid, known only when both quotes are. */
  function Spread(s: MarketSnapshot): (r: Option<real>)
    ensures r.Some? <==> s.bestBid.Some? && s.bestAsk.Some?
    ensures r.Some? ==> r.value + s.bestBid.value == s.bestAsk.value
  {
    if s.bestBid.Some? && s.bestAsk.Some? then Some(s.bestAsk.value - s.bestBid.value) else None
  }

  /** `spread_pct`: the spread as a fraction of a known, positive mid price. */
  function SpreadPct(s: MarketSnapshot): (r: Option<real>)
    ensures r.None? <==> Spread(s).None? || s.midPrice.None? || s.midPrice.value <= 0.0
    ensures r.Some? ==> Mul(r.value, s.midPrice.value) == Spread(s).value
  {
    var spread := Spread(s);
    if spread.Some? && s.midPrice.Some? && s.midPrice.value != 0.0 && s.midPrice.value > 0.0 then
      QuotientTimesDivisor(spread.value, s.midPrice.value);
      Some(spread.value / s.midPrice.value)
    else None
  }

  /**
   * `depth_imbalance`: (bid depth − ask depth) / total depth, 0 when there
   * is no depth. With non-negative depths it lies in [-1, 1] and its sign
   * says which side is deeper.
   */
  function DepthImbalance(s: MarketSnapshot): (r: real)
    ensures s.totalBidDepth + s.totalAskDepth == 0 ==> r == 0.0
    ensures s.totalBidDepth >= 0 && s.totalAskDepth >= 0 ==>
              -1.0 <= r <= 1.0 && (r > 0.0 <==> s.totalBidDepth > s.totalAskDepth)
              && (r < 0.0 <==> s.totalBidDepth < s.totalAskDepth)
  {
    var total := s.totalBidDepth + s.totalAskDepth;
    if total == 0 then 0.0
    else
      var x := (s.totalBidDepth - s.totalAskDepth) as real;
      if s.totalBidDepth >= 0 && s.totalAskDepth >= 0 then
        DivSignedUnit(x, total as real);
        DivSign(x, total as real);
        x / total as real
      else x / total as real
  }

  /**
   * `kickoff_window`: unknown (None) without a time to kickoff, otherwise
   * the same regime as the schedule's classification of those seconds.
   */
  function KickoffWindow(s: MarketSnapshot): (r: Option<Schedule.KickoffWindow>)
    ensures r.None? <==> s.timeToKickoffSeconds.None?
    ensures r.Some? ==> r.value == Schedule.WindowForSeconds(s.timeToKickoffSeconds.value)
  {
    match s.timeToKickoffSeconds
    case None => None
    case Some(seconds) =>
      if seconds < 0 then Some(Schedule.Live)
      else if seconds <= 600 then Some(Schedule.Imminent)
      else if seconds <= 7200 then Some(Schedule.Approaching)
      else Some(Schedule.Far)
  }
}
