/**
 * Turning aggregated signals into ranked recommendations
 * (strategy/ranker.py): expected value from a signal-derived edge and a
 * half-spread cost, a weighted rank score, a position-size cap, risk
 * flags, and the split into recommendations and a watchlist.
 *
 * The per-market data dictionary is a record of optional fields: an
 * absent key is `None`, and each use applies the default the source
 * gives to `market.get`.
 */
module Ranker {
  import opened Common
  import opened Sorting
  import opened Signals
  import opened Aggregator

  datatype MarketData = MarketData(
    yesAsk: Option<real>,
    noAsk: Option<real>,
    spread: Option<real>,
    liquidityScore: Option<real>,
    timeToKickoff: Option<real>,
    availableDepth: Option<real>,
    timeToResolution: Option<real>,
    eventId: Option<string>,
    league: Option<string>)

  /** The `{}` used for a market missing from the market-data dictionary. */
  const NoMarketData := MarketData(None, None, None, None, None, None, None, None, None)

  datatype RankerConfig = RankerConfig(
    minEv: real,
    minConfidence: real,
    maxRecommendations: int,
    evWeight: real,
    confidenceWeight: real,
    liquidityWeight: real,
    timingWeight: real)

  const DefaultRankerConfig := RankerConfig(0.02, 0.3, 10, 0.4, 0.3, 0.2, 0.1)

  /** The exposure caps of the portfolio manager. */
  datatype Limit = TotalLimit | MarketLimit | EventLimit | LeagueLimit

  /**
   * Risk flags. The ranker raises the first five; the portfolio manager
   * appends the correlation flags and one flag per exceeded cap, holding
   * the exposure that would result and the cap (the source formats these
   * as text).
   */
  datatype RiskFlag =
    | LowLiquidity | WideSpread | SingleSignal | SignalDisagreement | NearResolution
    | CorrelatedPosition | OppositePositionExists
    | LimitViolation(limit: Limit, exposure: real, cap: real)

  datatype Recommendation = Recommendation(
    marketId: Option<string>,
    eventId: string,
    league: string,
    contract: Direction,
    entryPrice: real,
    maxSize: int,
    expectedValue: real,
    timeToResolution: Option<real>,
    contributingSignals: seq<string>,
    riskFlags: seq<RiskFlag>,
    rankScore: real,
    confidence: real)

  /** Why a candidate was kept off the recommendation list (the source formats these as text). */
  datatype Rejection =
    | EvBelowThreshold(ev: real, minEv: real)
    | ConfidenceBelowThreshold(confidence: real, minConfidence: real)

  /** A watchlist entry (`CandidateOpportunity`). */
  datatype Candidate = Candidate(
    marketId: Option<string>,
    eventId: string,
    direction: Direction,
    entryPrice: real,
    expectedValue: real,
    confidence: real,
    signals: seq<string>,
    rejectionReasons: seq<Rejection>,
    rankScore: real,
    evThreshold: real,
    confidenceThreshold: real)

  predicate IsRecommended(c: Candidate)
  {
    c.rejectionReasons == []
  }

  /** `market_data.get(agg.market_id, {})`. */
  function MarketFor(marketData: map<string, MarketData>, id: Option<string>): (m: MarketData)
    ensures id.Some? && id.value in marketData ==> m == marketData[id.value]
    ensures !(id.Some? && id.value in marketData) ==> m == NoMarketData
  {
    if id.Some? && id.value in marketData then marketData[id.value] else NoMarketData
  }

  /** The ask on the side the signal points to, 0.5 when unknown. */
  function EntryPrice(agg: AggregatedSignal, market: MarketData): (p: real)
    ensures agg.direction == Yes ==> p == market.yesAsk.GetOr(0.5)
    ensures agg.direction != Yes ==> p == market.noAsk.GetOr(0.5)
  {
    if agg.direction == Yes then market.yesAsk.GetOr(0.5) else market.noAsk.GetOr(0.5)
  }

  /**
   * The edge claimed over the market: at most 10% of the aggregate score,
   * scaled by 0.5 + 0.5 × agreement, so between half and all of that.
   */
  function EstimatedEdge(agg: AggregatedSignal): (e: real)
    ensures 0.0 <= agg.aggregateScore ==> 0.0 <= e <= agg.aggregateScore * 0.10
  {
    var maxEdge := agg.aggregateScore * 0.10;
    MulBounds(maxEdge, 0.5 + 0.5 * AgreementRatio(agg));
    Mul(maxEdge, 0.5 + 0.5 * AgreementRatio(agg))
  }

  /** Market-implied probability plus the edge, capped at 0.95 (there is no lower cap). */
  function EstimatedWinProb(agg: AggregatedSignal, entryPrice: real): (p: real)
    ensures p <= 0.95
    ensures p <= entryPrice + EstimatedEdge(agg)
    ensures p == 0.95 || p == entryPrice + EstimatedEdge(agg)
  {
    Min(0.95, entryPrice + EstimatedEdge(agg))
  }

  /** Gross EV of a binary contract bought at `e` and won with probability `w`: `w(1 − e) − (1 − w)e = w − e`. */
  lemma GrossEvIsEdge(w: real, e: real)
    ensures Mul(w, 1.0 - e) - Mul(1.0 - w, e) == w - e
  {
    assert w * (1.0 - e) == w - w * e;
    assert (1.0 - w) * e == e - w * e;
  }

  /** `_calculate_expected_value`: gross EV minus half the spread (0.02 when unknown). */
  function ExpectedValue(agg: AggregatedSignal, entryPrice: real, market: MarketData): (ev: real)
    ensures ev == EstimatedWinProb(agg, entryPrice) - entryPrice - market.spread.GetOr(0.02) / 2.0
  {
    var spread := market.spread.GetOr(0.02);
    var vig := spread / 2.0;
    var win := EstimatedWinProb(agg, entryPrice);
    GrossEvIsEdge(win, entryPrice);
    var grossEv := Mul(win, 1.0 - entryPrice) - Mul(1.0 - win, entryPrice);
    grossEv - vig
  }

  /** With everything else fixed, a wider spread gives a strictly smaller EV. */
  lemma ExpectedValueDecreasesWithSpread(agg: AggregatedSignal, entryPrice: real, market: MarketData, s1: real, s2: real)
    requires s1 < s2
    ensures ExpectedValue(agg, entryPrice, market.(spread := Some(s1)))
          > ExpectedValue(agg, entryPrice, market.(spread := Some(s2)))
  {
  }

  /** A signal with no edge (score 0) never has positive EV: it pays at least half the spread. */
  lemma NoEdgeNoValue(agg: AggregatedSignal, entryPrice: real, market: MarketData)
    requires agg.aggregateScore == 0.0
    ensures ExpectedValue(agg, entryPrice, market) <= -market.spread.GetOr(0.02) / 2.0
  {
  }

  function TimingScore(market: MarketData): (t: real)
    ensures t <= 1.0 || market.timeToKickoff.GetOr(86400.0) < 0.0
    ensures 0.0 <= t
    ensures market.timeToKickoff.GetOr(86400.0) >= 7200.0 ==> t == 0.0
  {
    Max(0.0, 1.0 - market.timeToKickoff.GetOr(86400.0) / 7200.0)
  }

  predicate NonNegativeWeights(cfg: RankerConfig)
  {
    cfg.evWeight >= 0.0 && cfg.confidenceWeight >= 0.0 && cfg.liquidityWeight >= 0.0 && cfg.timingWeight >= 0.0
  }

  /** `_calculate_rank_score`: weighted EV (normalised by 10%), confidence, liquidity and timing. */
  function RankScore(rec: Recommendation, market: MarketData, cfg: RankerConfig): (r: real)
    ensures NonNegativeWeights(cfg) && rec.expectedValue >= 0.0 && 0.0 <= rec.confidence <= 1.0
            && 0.0 <= market.liquidityScore.GetOr(0.5) <= 1.0 && market.timeToKickoff.GetOr(86400.0) >= 0.0
            ==> 0.0 <= r <= cfg.evWeight + cfg.confidenceWeight + cfg.liquidityWeight + cfg.timingWeight
  {
    var evScore := Min(1.0, rec.expectedValue / 0.10);
    var liquidity := market.liquidityScore.GetOr(0.5);
    var timing := TimingScore(market);
    MulBounds(cfg.evWeight, evScore);
    MulBounds(cfg.confidenceWeight, rec.confidence);
    MulBounds(cfg.liquidityWeight, liquidity);
    MulBounds(cfg.timingWeight, timing);
    Mul(cfg.evWeight, evScore) + Mul(cfg.confidenceWeight, rec.confidence)
      + Mul(cfg.liquidityWeight, liquidity) + Mul(cfg.timingWeight, timing)
  }

  /** A higher EV never lowers the rank score when the EV weight is non-negative. */
  lemma RankScoreMonotoneInEv(rec: Recommendation, market: MarketData, cfg: RankerConfig, ev: real)
    requires cfg.evWeight >= 0.0 && rec.expectedValue <= ev
    ensures RankScore(rec, market, cfg) <= RankScore(rec.(expectedValue := ev), market, cfg)
  {
    MulMonotone(cfg.evWeight, Min(1.0, rec.expectedValue / 0.10), Min(1.0, ev / 0.10));
  }

  /** `_calculate_max_size`: confidence-scaled size, cut by liquidity and 10% of depth, never below 10. */
  function MaxSize(agg: AggregatedSignal, market: MarketData): (n: int)
    ensures n >= 10
    ensures n == 10 || n <= Trunc(market.availableDepth.GetOr(1000.0) * 0.1)
    ensures 0.0 <= agg.confidence <= 1.0 && 0.0 <= market.liquidityScore.GetOr(0.5) <= 1.0 ==> n <= 100
  {
    var baseSize := Trunc(100.0 * agg.confidence);
    var liquidity := market.liquidityScore.GetOr(0.5);
    MulBounds(baseSize as real, liquidity);
    var size := Trunc(Mul(baseSize as real, liquidity));
    var capped := MinInt(size, Trunc(market.availableDepth.GetOr(1000.0) * 0.1));
    MaxInt(10, capped)
  }

  /** `[flag]` when `raised`, else nothing. */
  function FlagIf(raised: bool, flag: RiskFlag): (flags: seq<RiskFlag>)
    ensures |flags| <= 1 && (flag in flags <==> raised)
    ensures forall f | f in flags :: f == flag
  {
    if raised then [flag] else []
  }

  /** `_identify_risks`: each flag is raised exactly when its threshold is crossed. */
  function IdentifyRisks(agg: AggregatedSignal, market: MarketData): (flags: seq<RiskFlag>)
    ensures LowLiquidity in flags <==> market.liquidityScore.GetOr(1.0) < 0.3
    ensures WideSpread in flags <==> market.spread.GetOr(0.0) > 0.05
    ensures SingleSignal in flags <==> SignalCount(agg) == 1
    ensures SignalDisagreement in flags <==> AgreementRatio(agg) < 0.7
    ensures NearResolution in flags <==> market.timeToResolution.GetOr(86400.0) < 1800.0
    ensures |flags| <= 5
  {
    FlagIf(market.liquidityScore.GetOr(1.0) < 0.3, LowLiquidity)
    + FlagIf(market.spread.GetOr(0.0) > 0.05, WideSpread)
    + FlagIf(SignalCount(agg) == 1, SingleSignal)
    + FlagIf(AgreementRatio(agg) < 0.7, SignalDisagreement)
    + FlagIf(market.timeToResolution.GetOr(86400.0) < 1800.0, NearResolution)
  }

  /** `[s.name for s in signals]`. */
  function Names(signals: seq<Signal>): (names: seq<string>)
    ensures |names| == |signals| && forall i | 0 <= i < |signals| :: names[i] == signals[i].name
  {
    if signals == [] then [] else [signals[0].name] + Names(signals[1..])
  }

  /** The recommendation built for `agg`, with its rank score filled in. */
  function BuildRecommendation(agg: AggregatedSignal, market: MarketData, cfg: RankerConfig): (rec: Recommendation)
    ensures rec.entryPrice == EntryPrice(agg, market)
    ensures rec.expectedValue == ExpectedValue(agg, rec.entryPrice, market)
    ensures rec.rankScore == RankScore(rec, market, cfg)
    ensures rec.maxSize >= 10 && rec.confidence == agg.confidence && rec.contract == agg.direction
    ensures rec.marketId == agg.marketId && rec.contributingSignals == Names(agg.contributing)
  {
    var entry := EntryPrice(agg, market);
    var temp := Recommendation(agg.marketId, market.eventId.GetOr(""), market.league.GetOr(""), agg.direction, entry,
                               MaxSize(agg, market), ExpectedValue(agg, entry, market),
                               market.timeToResolution, Names(agg.contributing),
                               IdentifyRisks(agg, market), 0.0, agg.confidence);
    temp.(rankScore := RankScore(temp, market, cfg))
  }

  /** The reasons, EV first, for which a candidate is rejected. */
  function Rejections(ev: real, confidence: real, cfg: RankerConfig): (rs: seq<Rejection>)
    ensures rs == [] <==> ev >= cfg.minEv && confidence >= cfg.minConfidence
    ensures EvBelowThreshold(ev, cfg.minEv) in rs <==> ev < cfg.minEv
    ensures ConfidenceBelowThreshold(confidence, cfg.minConfidence) in rs <==> confidence < cfg.minConfidence
  {
    (if ev < cfg.minEv then [EvBelowThreshold(ev, cfg.minEv)] else [])
    + (if confidence < cfg.minConfidence then [ConfidenceBelowThreshold(confidence, cfg.minConfidence)] else [])
  }

  /** One iteration of the `rank_all` loop: a recommendation, or a watchlist candidate with its reasons. */
  datatype Evaluation = Recommended(rec: Recommendation) | Watched(candidate: Candidate)

  function Evaluate(agg: AggregatedSignal, marketData: map<string, MarketData>, cfg: RankerConfig): (e: Evaluation)
    ensures var rec := BuildRecommendation(agg, MarketFor(marketData, agg.marketId), cfg);
      && (e.Recommended? <==> rec.expectedValue >= cfg.minEv && agg.confidence >= cfg.minConfidence)
      && (e.Recommended? ==> e.rec == rec)
      && (e.Watched? ==> !IsRecommended(e.candidate) && e.candidate.rankScore == rec.rankScore
                         && e.candidate.rejectionReasons == Rejections(rec.expectedValue, agg.confidence, cfg))
  {
    var market := MarketFor(marketData, agg.marketId);
    var rec := BuildRecommendation(agg, market, cfg);
    var reasons := Rejections(rec.expectedValue, agg.confidence, cfg);
    if reasons == [] then Recommended(rec)
    else Watched(Candidate(agg.marketId, market.eventId.GetOr(""), agg.direction, rec.entryPrice,
                           rec.expectedValue, agg.confidence, Names(agg.contributing), reasons,
                           rec.rankScore, cfg.minEv, cfg.minConfidence))
  }

  /** The evaluation of each input, in input order. */
  function Evaluations(aggs: seq<AggregatedSignal>, marketData: map<string, MarketData>, cfg: RankerConfig)
    : (es: seq<Evaluation>)
    ensures |es| == |aggs|
  {
    if aggs == [] then []
    else [Evaluate(aggs[0], marketData, cfg)] + Evaluations(aggs[1..], marketData, cfg)
  }

  lemma {:induction false} EvaluationsAt(aggs: seq<AggregatedSignal>, marketData: map<string, MarketData>, cfg: RankerConfig)
    ensures forall i | 0 <= i < |aggs| :: Evaluations(aggs, marketData, cfg)[i] == Evaluate(aggs[i], marketData, cfg)
  {
    if aggs != [] {
      EvaluationsAt(aggs[1..], marketData, cfg);
    }
  }

  /** The recommendations among the evaluations, in order. */
  function RecommendedIn(es: seq<Evaluation>): seq<Recommendation>
  {
    if es == [] then []
    else RecommendedIn(es[..|es| - 1]) + (if es[|es| - 1].Recommended? then [es[|es| - 1].rec] else [])
  }

  /** The watchlist candidates among the evaluations, in order. */
  function WatchedIn(es: seq<Evaluation>): seq<Candidate>
  {
    if es == [] then []
    else WatchedIn(es[..|es| - 1]) + (if es[|es| - 1].Watched? then [es[|es| - 1].candidate] else [])
  }

  /** The recommendations of the loop, in input order, before sorting. */
  function RecommendedOf(aggs: seq<AggregatedSignal>, marketData: map<string, MarketData>, cfg: RankerConfig)
    : seq<Recommendation>
  {
    RecommendedIn(Evaluations(aggs, marketData, cfg))
  }

  /** The watchlist candidates of the loop, in input order, before sorting. */
  function WatchedOf(aggs: seq<AggregatedSignal>, marketData: map<string, MarketData>, cfg: RankerConfig)
    : seq<Candidate>
  {
    WatchedIn(Evaluations(aggs, marketData, cfg))
  }

  function RecScore(r: Recommendation): real
  {
    r.rankScore
  }

  function CandidateScore(c: Candidate): real
  {
    c.rankScore
  }

  /**
   * `rank`: the passing recommendations, best rank score first, at most
   * `max_recommendations`. Each input's evaluation is computed first; an
   * input whose EV or confidence is below its threshold is skipped, and
   * its watchlist entry, which `rank` never builds, is discarded.
   */
  method Rank(aggs: seq<AggregatedSignal>, marketData: map<string, MarketData>, cfg: RankerConfig)
    returns (r: seq<Recommendation>)
    ensures r == Take(SortDesc(RecommendedOf(aggs, marketData, cfg), RecScore), cfg.maxRecommendations)
  {
    var es := Evaluations(aggs, marketData, cfg);
    var recommendations: seq<Recommendation> := [];
    for i := 0 to |es|
      invariant recommendations == RecommendedIn(es[..i])
    {
      assert es[..i + 1][..i] == es[..i];
      if es[i].Recommended? {
        recommendations := recommendations + [es[i].rec];
      }
    }
    assert es[..|es|] == es;
    r := Take(SortDesc(recommendations, RecScore), cfg.maxRecommendations);
  }

  /** `rank_all`: recommendations as in `rank`, and every other candidate on the sorted, untruncated watchlist. */
  method RankAll(aggs: seq<AggregatedSignal>, marketData: map<string, MarketData>, cfg: RankerConfig)
    returns (recs: seq<Recommendation>, watchlist: seq<Candidate>)
    ensures recs == Take(SortDesc(RecommendedOf(aggs, marketData, cfg), RecScore), cfg.maxRecommendations)
    ensures watchlist == SortDesc(WatchedOf(aggs, marketData, cfg), CandidateScore)
  {
    var es := Evaluations(aggs, marketData, cfg);
    var recommendations: seq<Recommendation> := [];
    var watched: seq<Candidate> := [];
    for i := 0 to |es|
      invariant recommendations == RecommendedIn(es[..i])
      invariant watched == WatchedIn(es[..i])
    {
      assert es[..i + 1][..i] == es[..i];
      if es[i].Recommended? {
        recommendations := recommendations + [es[i].rec];
      } else {
        watched := watched + [es[i].candidate];
      }
    }
    assert es[..|es|] == es;
    recs := Take(SortDesc(recommendations, RecScore), cfg.maxRecommendations);
    watchlist := SortDesc(watched, CandidateScore);
  }

  lemma {:induction false} PartitionIn(es: seq<Evaluation>)
    ensures |RecommendedIn(es)| + |WatchedIn(es)| == |es|
    ensures forall i | 0 <= i < |es| && es[i].Recommended? :: es[i].rec in RecommendedIn(es)
    ensures forall i | 0 <= i < |es| && es[i].Watched? :: es[i].candidate in WatchedIn(es)
    ensures forall rec | rec in RecommendedIn(es) :: Recommended(rec) in es
    ensures forall c | c in WatchedIn(es) :: Watched(c) in es
  {
    if es != [] {
      var init := es[..|es| - 1];
      PartitionIn(init);
      assert es == init + [es[|es| - 1]];
      forall i | 0 <= i < |es| - 1
        ensures es[i] == init[i]
      {
      }
    }
  }

  /**
   * Every input lands in exactly one of the two lists, in the one its
   * evaluation names, and nothing else does.
   */
  lemma RankAllPartition(aggs: seq<AggregatedSignal>, marketData: map<string, MarketData>, cfg: RankerConfig)
    ensures |RecommendedOf(aggs, marketData, cfg)| + |WatchedOf(aggs, marketData, cfg)| == |aggs|
    ensures forall i | 0 <= i < |aggs| && Evaluate(aggs[i], marketData, cfg).Recommended? ::
      Evaluate(aggs[i], marketData, cfg).rec in RecommendedOf(aggs, marketData, cfg)
    ensures forall i | 0 <= i < |aggs| && Evaluate(aggs[i], marketData, cfg).Watched? ::
      Evaluate(aggs[i], marketData, cfg).candidate in WatchedOf(aggs, marketData, cfg)
  {
    PartitionIn(Evaluations(aggs, marketData, cfg));
    EvaluationsAt(aggs, marketData, cfg);
  }

  /** What the loop relies on about one evaluation. */
  predicate WellEvaluated(e: Evaluation, cfg: RankerConfig)
  {
    match e
    case Recommended(rec) => rec.expectedValue >= cfg.minEv && rec.confidence >= cfg.minConfidence && rec.maxSize >= 10
    case Watched(c) => c.rejectionReasons == Rejections(c.expectedValue, c.confidence, cfg) && !IsRecommended(c)
  }

  lemma {:induction false} EvaluationsWell(aggs: seq<AggregatedSignal>, marketData: map<string, MarketData>, cfg: RankerConfig)
    ensures forall e | e in Evaluations(aggs, marketData, cfg) :: WellEvaluated(e, cfg)
  {
    if aggs != [] {
      EvaluationsWell(aggs[1..], marketData, cfg);
      var e := Evaluate(aggs[0], marketData, cfg);
      assert WellEvaluated(e, cfg);
    }
  }

  /** Every recommendation clears both thresholds; every watchlist entry fails at least one and says which. */
  lemma RankAllThresholds(aggs: seq<AggregatedSignal>, marketData: map<string, MarketData>, cfg: RankerConfig)
    ensures forall rec | rec in RecommendedOf(aggs, marketData, cfg) ::
      rec.expectedValue >= cfg.minEv && rec.confidence >= cfg.minConfidence && rec.maxSize >= 10
    ensures forall c | c in WatchedOf(aggs, marketData, cfg) ::
      c.rejectionReasons == Rejections(c.expectedValue, c.confidence, cfg) && !IsRecommended(c)
  {
    var es := Evaluations(aggs, marketData, cfg);
    PartitionIn(es);
    EvaluationsWell(aggs, marketData, cfg);
    forall rec | rec in RecommendedIn(es)
      ensures rec.expectedValue >= cfg.minEv && rec.confidence >= cfg.minConfidence && rec.maxSize >= 10
    {
      assert WellEvaluated(Recommended(rec), cfg);
    }
    forall c | c in WatchedIn(es)
      ensures c.rejectionReasons == Rejections(c.expectedValue, c.confidence, cfg) && !IsRecommended(c)
    {
      assert WellEvaluated(Watched(c), cfg);
    }
  }

  lemma TakeSorted<T>(s: seq<T>, n: int, key: T -> real)
    requires SortedDesc(s, key)
    ensures SortedDesc(Take(s, n), key)
  {
  }

  /**
   * The outputs of `rank` / `rank_all`: both sorted by rank score
   * (descending), recommendations at most `max_recommendations` long and
   * drawn from the passing candidates, the watchlist a rearrangement of
   * all the others.
   */
  lemma RankAllOutputs(aggs: seq<AggregatedSignal>, marketData: map<string, MarketData>, cfg: RankerConfig)
    ensures var recs := Take(SortDesc(RecommendedOf(aggs, marketData, cfg), RecScore), cfg.maxRecommendations);
      && SortedDesc(recs, RecScore)
      && (cfg.maxRecommendations >= 0 ==> |recs| <= cfg.maxRecommendations)
      && forall rec | rec in recs :: rec in RecommendedOf(aggs, marketData, cfg)
    ensures var watch := SortDesc(WatchedOf(aggs, marketData, cfg), CandidateScore);
      && SortedDesc(watch, CandidateScore)
      && multiset(watch) == multiset(WatchedOf(aggs, marketData, cfg))
  {
    var sorted := SortDesc(RecommendedOf(aggs, marketData, cfg), RecScore);
    SortDescSorted(RecommendedOf(aggs, marketData, cfg), RecScore);
    TakeSorted(sorted, cfg.maxRecommendations, RecScore);
    forall rec | rec in Take(sorted, cfg.maxRecommendations)
      ensures rec in RecommendedOf(aggs, marketData, cfg)
    {
      SortDescMembers(RecommendedOf(aggs, marketData, cfg), RecScore, rec);
    }
    SortDescSorted(WatchedOf(aggs, marketData, cfg), CandidateScore);
    SortDescPermutation(WatchedOf(aggs, marketData, cfg), CandidateScore);
  }
}
