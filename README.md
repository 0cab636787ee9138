# kalshi-sports-alpha in Dafny

kalshi-sports-alpha trades sports prediction markets on Kalshi. It reads
market snapshots, order books and trade histories, and turns them into
features. Four rule-based signal generators act on those features. The
signals of each market are aggregated into one directional view. The
views are ranked by expected value into recommendations and a watch list,
sized with fractional Kelly, and capped by portfolio exposure limits. On
the execution side, a risk manager checks orders, an order manager tracks
their lifecycle and kill switches, and a reconciler compares local
positions with the exchange. A backtest simulator replays historical
snapshots through the generators and a fill model, and computes drawdown
and trade statistics.

This project models that decision layer and bookkeeping, one Dafny
module per source file, and proves what the code promises about it:
bounds, None conditions, partitions, sort order, conservation of
positions and capital, and the state each mutating method leaves behind.

How the Python is represented:

- Python floats are exact `real`s; Python's `int()` truncation is
  `Common.Trunc`.
- Datetimes are whole seconds. The current time, order ids and the fill
  model's random draws are parameters.
- `None` is `Option`. A code path that raises is a result constructor of
  its own, such as `Raised`, `Error` or `DivisionByZero`.
- Objects whose fields the source mutates are classes:
  - `Portfolio.PortfolioManager`
  - `Simulator.BacktestSimulator` with its `BacktestState`
  - `TradeHistory.TradeHistoryStore`
  - `Risk.RiskManager`
  - `OrderManager.OrderManager`
  - `Reconciliation.Reconciler`
  - `PipelineStats.PipelineStatsCollector`
- Each class's loops are methods proved against specification functions.
- The simulator reads only `direction` and `max_size` from whatever its
  signal generator returns (backtest/simulator.py:158-165); `Simulator.TradeSignal`
  carries just those two fields.
- The pure rules are functions and lemmas.
- A dictionary whose iteration order matters is a `map` together with the
  sequence of its keys in insertion order.

The modules and the source files they model:

- Common, Sorting: shared helpers: Option, min/max/clamp/int(), list comprehensions, slices, and `sorted(..., reverse=True)`
- Signals: signals/signal_base.py
- TailInformedFlow, FadeOverreaction, LateKickoffVol, FragileMarket: signals/tail_informed_flow.py, fade_overreaction.py, late_kickoff_vol.py, fragile_market.py
- Liquidity, FavoriteLongshot: features/microstructure/liquidity.py, features/behavioral/favorite_longshot.py
- Snapshot, OrderBook: kalshi/models/snapshot.py, kalshi/models/orderbook.py
- Leagues, Schedule: kalshi/sports/leagues.py, kalshi/sports/schedule.py
- Aggregator, Ranker, Sizing, Portfolio: strategy/aggregator.py, ranker.py, sizing.py, portfolio.py
- Fills, Simulator, Metrics: backtest/fills.py, simulator.py, metrics.py
- TradeHistory: ingestion/trade_history.py
- Risk, OrderManager, Reconciliation: execution/risk.py, order_manager.py, reconciliation.py
- PipelineStats: reporting/pipeline_stats.py

## Model

| member | source | states |
|---|---|---|
| Snapshot.Spread | kalshi-sports-alpha/kalshi/models/snapshot.py:53-58 | known exactly when both best bid and best ask are known, and then bid plus spread is the ask |
| Snapshot.SpreadPct | kalshi-sports-alpha/kalshi/models/snapshot.py:60-65 | None exactly when the spread or the mid price is missing or the mid is not positive; otherwise the spread divided by the mid |
| Snapshot.DepthImbalance | kalshi-sports-alpha/kalshi/models/snapshot.py:67-73 | 0 at zero total depth; for non-negative depths it lies in [-1, 1] and is positive (negative) exactly when bids (asks) are deeper |
| Snapshot.KickoffWindow | kalshi-sports-alpha/kalshi/models/snapshot.py:75-95 | unknown exactly when the time to kickoff is unknown, otherwise the same window as the schedule's classification of those seconds |
| OrderBook.BestBid | kalshi-sports-alpha/kalshi/models/orderbook.py:30-33 | the first bid level's price, None exactly when there are no bids |
| OrderBook.BestAsk | kalshi-sports-alpha/kalshi/models/orderbook.py:35-38 | the first ask level's price, None exactly when there are no asks |
| OrderBook.MidPrice | kalshi-sports-alpha/kalshi/models/orderbook.py:40-45 | known exactly when both sides are quoted, and then between the two best prices |
| OrderBook.Spread | kalshi-sports-alpha/kalshi/models/orderbook.py:47-52 | known exactly when both sides are quoted, and then best bid plus spread is the best ask |
| OrderBook.SpreadBps | kalshi-sports-alpha/kalshi/models/orderbook.py:54-59 | known exactly when the spread is known and the mid is positive; then it times the mid is 10000 times the spread |
| OrderBook.Notional | kalshi-sports-alpha/kalshi/models/orderbook.py:15-18 | a level's value is non-negative for a non-negative price and quantity, and 0 for an empty level |
| OrderBook.Depth | kalshi-sports-alpha/kalshi/models/orderbook.py:61-69 | 0 for no levels; without negative quantities, non-negative and at least every level's quantity |
| OrderBook.TotalNotional | kalshi-sports-alpha/kalshi/models/orderbook.py:71-79 | 0 for no levels; non-negative when no price or quantity is negative |
| OrderBook.SidesAdd | kalshi-sports-alpha/kalshi/models/orderbook.py:61-79 | depth and notional of a side split into two runs of levels add up |
| OrderBook.DepthImbalance | kalshi-sports-alpha/kalshi/models/orderbook.py:81-93 | 0 for an empty book; in [-1, 1] and positive exactly when bids are deeper, for levels without negative quantities |
| OrderBook.PriceImpact | kalshi-sports-alpha/kalshi/models/orderbook.py:95-124 | the loop computes the walk over the asks for "buy" and the bids otherwise, as the walk function defines it |
| OrderBook.WalkStaysStopped | kalshi-sports-alpha/kalshi/models/orderbook.py:113-118 | once the remaining size reaches 0 the walk breaks: later levels change nothing |
| OrderBook.WalkRemainder | kalshi-sports-alpha/kalshi/models/orderbook.py:110-118 | the walk leaves exactly the part of the size the side's depth cannot cover, and stops exactly when nothing remains |
| OrderBook.ImpactUnavailable | kalshi-sports-alpha/kalshi/models/orderbook.py:106-122 | for a positive size there is no average price exactly when the side is empty or shallower than the size |
| OrderBook.StepCostBounds | kalshi-sports-alpha/kalshi/models/orderbook.py:113-116 | one level's fill keeps the cost between the lowest and highest price times the contracts filled |
| OrderBook.WalkCostBounds | kalshi-sports-alpha/kalshi/models/orderbook.py:110-118 | the accumulated cost lies between the lowest and highest walked price times the contracts filled |
| OrderBook.ImpactIsWeightedAverage | kalshi-sports-alpha/kalshi/models/orderbook.py:110-124 | the returned total cost / size lies between the lowest and highest level price |
| OrderBook.FromApiResponse | kalshi-sports-alpha/kalshi/models/orderbook.py:126-143 | bids sorted highest first and asks lowest first, each a permutation of the "yes" levels with prices divided by 100; absent lists give no levels |
| OrderBook.BestQuotesAreExtreme | kalshi-sports-alpha/kalshi/models/orderbook.py:138-143 | in a book built from the exchange the best bid is the highest bid and the best ask the lowest ask |
| OrderBook.BuyImpactAtLeastBestAsk | kalshi-sports-alpha/kalshi/models/orderbook.py:106-124 | on asks sorted lowest first, a buy never averages below the best ask or above the last ask |
| Signals.NewSignal | kalshi-sports-alpha/signals/signal_base.py:39-42 | strength and confidence clamped into [0, 1]: unchanged inside, 1 above, 0 below; other fields as given |
| Signals.CompositeScore | kalshi-sports-alpha/signals/signal_base.py:44-47 | strength x confidence; for a clamped signal non-negative and at most each of strength and confidence |
| Signals.IsActionable | kalshi-sports-alpha/signals/signal_base.py:49-55 | only YES or NO signals; a clamped actionable signal has strength and confidence of at least 0.3 each; at full strength, actionable exactly when confidence reaches 0.3 |
| Signals.CreateSignal | kalshi-sports-alpha/signals/signal_base.py:109-128 | the clamped signal for the snapshot's market, stamped with the snapshot's time |
| Signals.ValidateInputs | kalshi-sports-alpha/signals/signal_base.py:97-107 | true exactly when every required feature is present and not None |
| Signals.FeatureOr | kalshi-sports-alpha/signals/tail_informed_flow.py:50-52 | `features.get(key, default)`: the default when absent, the stored (possibly None) value when present |
| Signals.FiredExactly | kalshi-sports-alpha/signals/signal_base.py:146-151 | the kept signals are exactly the fired ones, and no more than the generators |
| Signals.CompositeGenerate | kalshi-sports-alpha/signals/signal_base.py:139-151 | an error from any sub-generator propagates; otherwise exactly the non-None signals in generator order |
| Leagues.ParseCode | kalshi-sports-alpha/kalshi/sports/leagues.py:8-17 | the code whose value is the string, if any, and it is the only one |
| Leagues.IsAmerican | kalshi-sports-alpha/kalshi/sports/leagues.py:35-46 | true for every league code except the EPL |
| Leagues.Upper | kalshi-sports-alpha/kalshi/sports/leagues.py:117 | upper-cases exactly the ASCII lower-case letters, length kept |
| Leagues.Supported | kalshi-sports-alpha/kalshi/sports/leagues.py:49-111 | configured exactly for the six codes other than MLS and EPL, each with both season months |
| Leagues.GetLeague | kalshi-sports-alpha/kalshi/sports/leagues.py:114-120 | None exactly for an unknown code or MLS/EPL; otherwise the configuration whose code is the upper-cased argument |
| Leagues.GetLeagueIgnoresCase | kalshi-sports-alpha/kalshi/sports/leagues.py:117 | "nfl" and "NFL" give the same league |
| Leagues.IsLeagueInSeason | kalshi-sports-alpha/kalshi/sports/leagues.py:123-135 | always with a missing bound; between the bounds for start <= end; from start or up to end for a season across the new year |
| Leagues.FootballSeasonWraps | kalshi-sports-alpha/kalshi/sports/leagues.py:51-60 | the NFL is in season in January and September, not in June |
| Leagues.WrappingSeasonIsComplement | kalshi-sports-alpha/kalshi/sports/leagues.py:133-135 | a wrapping season is out of season exactly strictly between end and start |
| Schedule.WindowForSeconds | kalshi-sports-alpha/kalshi/sports/schedule.py:98-107 | LIVE exactly below 0, IMMINENT exactly in [0, 600], APPROACHING exactly in (600, 7200], FAR exactly above 7200 |
| Schedule.WindowMonotone | kalshi-sports-alpha/kalshi/sports/schedule.py:98-107 | more seconds to kickoff never give a window closer to kickoff |
| Schedule.KickoffTime | kalshi-sports-alpha/kalshi/sports/schedule.py:33-36 | the actual start when set, otherwise the scheduled start |
| Schedule.SecondsToKickoff | kalshi-sports-alpha/kalshi/sports/schedule.py:38-45 | kickoff time minus now, negative exactly after kickoff |
| Schedule.GetKickoffWindow | kalshi-sports-alpha/kalshi/sports/schedule.py:47-58 | agrees with the classification of the seconds to kickoff at every instant |
| Schedule.KickoffWindowAdvances | kalshi-sports-alpha/kalshi/sports/schedule.py:47-58 | as time passes a game's window only moves closer to kickoff |
| TailInformedFlow.Generate | kalshi-sports-alpha/signals/tail_informed_flow.py:38-92 | skips without the three required features; fires exactly when clustering, spread, impact and the flow threshold of 0.2 pass, raises on a None impact or a zero threshold; direction follows the flow, confidence is its magnitude, strength is the clamped mean of the clustering, spread and impact scores, features_used is the required list |
| TailInformedFlow.DefaultSignalStrength | kalshi-sports-alpha/signals/tail_informed_flow.py:70-75 | with the default thresholds a fired signal has strength at least 0.25, and only a None price impact raises |
| FadeOverreaction.Generate | kalshi-sports-alpha/signals/fade_overreaction.py:38-98 | skips without velocity and overreaction or when kickoff is known and too near; fires exactly when both thresholds pass and the optional features are not None |
| FadeOverreaction.FadesTheMove | kalshi-sports-alpha/signals/fade_overreaction.py:65-82 | a fired signal is NO exactly after a rise, with the overreaction as strength and confidence 0.7, 0.4 or 0.5 (agreeing, disagreeing or zero mean reversion) times liquidity |
| FadeOverreaction.ConfidenceAtMostSevenTenths | kalshi-sports-alpha/signals/fade_overreaction.py:72-82 | with a liquidity score in [0, 1] a fired signal's confidence is at most 0.7 |
| LateKickoffVol.Generate | kalshi-sports-alpha/signals/late_kickoff_vol.py:37-102 | skips without a kickoff time or outside [0, 600] s; fires exactly when volatility and imbalance pass and liquidity is not None; direction follows the imbalance; low liquidity cuts confidence to 70% and adds "low_liquidity"; records minutes to kickoff |
| LateKickoffVol.DefaultSignalFloor | kalshi-sports-alpha/signals/late_kickoff_vol.py:70-80 | with the default thresholds a fired signal has strength at least 0.25 and confidence at least 0.21 |
| FragileMarket.Generate | kalshi-sports-alpha/signals/fragile_market.py:37-103 | skips without a resolution time, beyond 7200 s or above the depth cap; fires exactly when impact and the edge in cents pass; direction follows the edge, confidence min(1, abs(edge)/10), strength the clamped mean of the depth and impact scores, flags "illiquid" and "hard_to_exit", depth and hours as metadata |
| FragileMarket.InventedEdgeFiresSignal | kalshi-sports-alpha/features/behavioral/favorite_longshot.py:77-80 | a fragile market with no bias fires YES on the implied edge as written and stays silent on the corrected edge |
| Liquidity.ComputeSpread | kalshi-sports-alpha/features/microstructure/liquidity.py:13-22 | known exactly when both quotes are, bid plus spread is the ask, and it equals the snapshot's own spread |
| Liquidity.ComputeSpreadPct | kalshi-sports-alpha/features/microstructure/liquidity.py:30-40 | None exactly when the spread or the mid is missing or the mid is zero; otherwise spread divided by mid |
| Liquidity.SpreadPctVersusSnapshot | kalshi-sports-alpha/features/microstructure/liquidity.py:37-40 | agrees with the snapshot's spread_pct for a positive mid; for a negative mid only this feature yields a value |
| Liquidity.ComputeDepthImbalance | kalshi-sports-alpha/features/microstructure/liquidity.py:48-65 | 0 at zero depth, in [-1, 1] for non-negative depths, and equal to the snapshot's own imbalance |
| Liquidity.ComputeLiquidityScore | kalshi-sports-alpha/features/microstructure/liquidity.py:73-112 | 0 when no component applies; in [0, 1] whenever the spread is missing or non-negative |
| Liquidity.PerfectLiquidity | kalshi-sports-alpha/features/microstructure/liquidity.py:83-112 | zero spread, depth of at least 1000 and hourly volume of at least 500 score exactly 1 |
| Liquidity.WiderSpreadNeverHelps | kalshi-sports-alpha/features/microstructure/liquidity.py:86-92 | widening a non-negative spread, all else fixed, never raises the score |
| FavoriteLongshot.Bias | kalshi-sports-alpha/features/behavioral/favorite_longshot.py:13-51 | price minus fair probability, else minus the sportsbook probability, else 0 on [0.2, 0.8], positive (at most 0.03) below and negative (at least -0.03) above |
| FavoriteLongshot.CurveIsAntisymmetric | kalshi-sports-alpha/features/behavioral/favorite_longshot.py:42-49 | the empirical curve at 1 - p is the negation of the curve at p |
| FavoriteLongshot.ImpliedEdgeAsWritten | kalshi-sports-alpha/features/behavioral/favorite_longshot.py:59-80 | as written: always exactly 2 cents from the bias in cents, below it for a positive bias and above it otherwise |
| FavoriteLongshot.ImpliedEdgeAsWrittenInventsEdge | kalshi-sports-alpha/features/behavioral/favorite_longshot.py:77-80 | price 0.5 with no reference has zero bias but an edge as written of +2 cents |
| FavoriteLongshot.ImpliedEdgeAsWrittenFlipsSign | kalshi-sports-alpha/features/behavioral/favorite_longshot.py:77-80 | a bias of +1 point gives an edge as written of -1 cent, the opposite sign |
| FavoriteLongshot.ImpliedEdge | kalshi-sports-alpha/features/behavioral/favorite_longshot.py:59-80 | corrected: never larger than the bias in cents, never of the opposite sign, 0 within the 2-point vig, and equal to the formula as written beyond it |
| FavoriteLongshot.CurveEdgeAtMostOneCent | kalshi-sports-alpha/features/behavioral/favorite_longshot.py:42-51 | corrected: on the empirical curve, a price in [0, 1] carries at most one cent of edge |
| FavoriteLongshot.MakeOpportunity | kalshi-sports-alpha/features/behavioral/favorite_longshot.py:103-109 | the market, its price and its edge as written, YES exactly for a positive edge, confidence |edge| / 10 up to 10 cents and capped at 1 |
| FavoriteLongshot.Opportunities | kalshi-sports-alpha/features/behavioral/favorite_longshot.py:97-109 | exactly the markets whose edge as written exceeds threshold times 100 cents, facing the edge's direction with confidence in [0, 1] |
| FavoriteLongshot.MidPriceFlaggedAsWritten | kalshi-sports-alpha/features/behavioral/favorite_longshot.py:97-109 | a market at 0.5 is flagged at threshold 0.01 with edge 2 cents toward YES and confidence 0.2 |
| FavoriteLongshot.IdentifyMispricing | kalshi-sports-alpha/features/behavioral/favorite_longshot.py:83-111 | the opportunities on the edge as written, sorted by absolute edge descending, a permutation of them |
| FavoriteLongshot.CurveEdgeAsWrittenAtMostTwoCents | kalshi-sports-alpha/features/behavioral/favorite_longshot.py:42-80 | on the empirical curve, a price in [0, 1] carries at most two cents of edge as written |
| FavoriteLongshot.DefaultThresholdFlagsNothing | kalshi-sports-alpha/features/behavioral/favorite_longshot.py:85-102 | with the default threshold of 0.03 no price in [0, 1] is flagged |
| FavoriteLongshot.PublicBias | kalshi-sports-alpha/features/behavioral/favorite_longshot.py:114-139 | 0 without volume; otherwise the YES share minus the price, and in [-price, 1 - price] for non-negative volumes |
| Aggregator.SignalCount | kalshi-sports-alpha/strategy/aggregator.py:20-23 | the number of contributing signals |
| Aggregator.AgreementRatio | kalshi-sports-alpha/strategy/aggregator.py:25-35 | in [0, 1]; 0 for no contributing signals; 1 when all of them share the aggregate direction |
| Aggregator.DirectionalExactly | kalshi-sports-alpha/strategy/aggregator.py:81 | the directional list holds exactly the non-neutral inputs, as many as the inputs minus the neutral ones |
| Aggregator.WeightOf | kalshi-sports-alpha/strategy/aggregator.py:65-95 | the configured weight of a name, 1.0 when it has none |
| Aggregator.WeightsUsedExactly | kalshi-sports-alpha/strategy/aggregator.py:94-97 | weights_used has exactly the names of the directional signals, each with its weight |
| Aggregator.AggregateOf | kalshi-sports-alpha/strategy/aggregator.py:67-131 | None below min_signals, when every signal is neutral, and on a tie; otherwise YES exactly when the weighted YES score is strictly greater, the contributors are the non-neutral inputs, and confidence is agreement times mean confidence |
| Aggregator.AccumulateScores | kalshi-sports-alpha/strategy/aggregator.py:88-104 | the loop yields the weighted YES and NO scores, the YES and NO weights and weights_used of the directional signals |
| Aggregator.Aggregate | kalshi-sports-alpha/strategy/aggregator.py:67-131 | the method returns exactly the aggregate that AggregateOf specifies |
| Aggregator.AggregateContributors | kalshi-sports-alpha/strategy/aggregator.py:81-129 | every contributor is a non-neutral input, and signal_count is the number of non-neutral inputs |
| Aggregator.AggregateWeightsUsed | kalshi-sports-alpha/strategy/aggregator.py:92-130 | the aggregate's weights_used maps exactly the contributors' names to their weights |
| Aggregator.ScoreForBounds | kalshi-sports-alpha/strategy/aggregator.py:94-104 | for clamped inputs and non-negative weights a side's score lies between 0 and its total weight |
| Aggregator.AggregateConfidenceBounds | kalshi-sports-alpha/strategy/aggregator.py:116-122 | for clamped inputs the aggregate confidence lies in [0, 1] |
| Aggregator.AggregateScoreBounds | kalshi-sports-alpha/strategy/aggregator.py:106-112 | for clamped inputs and non-negative weights the aggregate score lies in [0, 1] |
| Aggregator.AggregateBatch | kalshi-sports-alpha/strategy/aggregator.py:133-143 | at most one result per market, and exactly the non-None aggregates of the entries |
| Sizing.KellyFraction | kalshi-sports-alpha/strategy/sizing.py:132-139 | equals (p - entry) / (1 - entry), positive exactly when p exceeds the entry price |
| Sizing.KellyClosedForm | kalshi-sports-alpha/strategy/sizing.py:134-139 | the source's (b p - q) / b with b = (1 - entry) / entry is the closed form above |
| Sizing.KellySize | kalshi-sports-alpha/strategy/sizing.py:98-151 | never negative; 0 when either probability is outside (0, 1) or win_prob <= entry; otherwise bankroll (default base_size x 10) x Kelly fraction x kelly_fraction |
| Sizing.KellyPositiveWithEdge | kalshi-sports-alpha/strategy/sizing.py:141-151 | with an edge, a positive bankroll and a positive fraction the Kelly size is positive |
| Sizing.KellyLinearInFraction | kalshi-sports-alpha/strategy/sizing.py:146-149 | scaling kelly_fraction by a non-negative c scales the size by c |
| Sizing.TimeAdjustment | kalshi-sports-alpha/strategy/sizing.py:153-169 | 0.5 exactly under 30 minutes, 0.7 exactly under an hour, 0.85 exactly under two hours, 1.0 exactly from two hours on |
| Sizing.TimeAdjustmentMonotone | kalshi-sports-alpha/strategy/sizing.py:160-169 | less time never gives a larger factor, and the factor is in [0.5, 1] |
| Sizing.WinProbability | kalshi-sports-alpha/strategy/sizing.py:65-67 | the estimated win probability is price + confidence x 0.10 when that lies in [0.05, 0.95], and is always kept within that range |
| Sizing.BaseSize | kalshi-sports-alpha/strategy/sizing.py:69-78 | the Kelly size when it is positive, otherwise min_size x confidence |
| Sizing.UnboundedSize | kalshi-sports-alpha/strategy/sizing.py:69-91 | the base size times liquidity, times the time factor when a time is given, and capped at 10% of a known depth |
| Sizing.Calculate | kalshi-sports-alpha/strategy/sizing.py:37-96 | the truncation of the unadjusted size when it lies within [min_size, max_size], of min_size below it or when the bounds cross, of max_size above it; hence at least an integral min_size, at most an integral max_size, and within 10% of depth when that is at least min_size |
| Sizing.CalculateIsKellyInside | kalshi-sports-alpha/strategy/sizing.py:69-96 | with liquidity 1, no time or depth limit and a positive Kelly size inside the bounds, the result is the Kelly size truncated |
| Sizing.SizeForTargetRisk | kalshi-sports-alpha/strategy/sizing.py:171-196 | 0 when the stop (default 0) is not below entry; otherwise the largest count whose loss to the stop stays within the target |
| Sizing.OptimalBetFraction | kalshi-sports-alpha/strategy/sizing.py:199-225 | 0 for a probability outside (0, 1); a division by zero exactly on a zero loss or payout; otherwise never negative |
| Sizing.OptimalBetFractionExample | kalshi-sports-alpha/strategy/sizing.py:199-225 | an even-money bet (payout 2, loss 1) won 55% of the time stakes 0.325 |
| Sizing.KellyAgreesWithOptimalBetFraction | kalshi-sports-alpha/strategy/sizing.py:132-151 | the sizer's Kelly fraction is optimal_bet_fraction for a payout of 1 - entry and a loss of entry |
| Ranker.MarketFor | kalshi-sports-alpha/strategy/ranker.py:205 | the market's data when the id is known, else the empty record |
| Ranker.EntryPrice | kalshi-sports-alpha/strategy/ranker.py:208-211 | the YES ask for a YES aggregate and the NO ask otherwise, 0.5 when unknown |
| Ranker.EstimatedEdge | kalshi-sports-alpha/strategy/ranker.py:163-169 | for a non-negative score, between 0 and 10% of the aggregate score |
| Ranker.EstimatedWinProb | kalshi-sports-alpha/strategy/ranker.py:172-173 | entry price plus the edge, capped at 0.95, with no lower cap |
| Ranker.GrossEvIsEdge | kalshi-sports-alpha/strategy/ranker.py:177-180 | the gross EV w(1 - e) - (1 - w)e equals w - e |
| Ranker.ExpectedValue | kalshi-sports-alpha/strategy/ranker.py:132-185 | the estimated win probability minus the entry price minus half the spread (0.02 when unknown) |
| Ranker.ExpectedValueDecreasesWithSpread | kalshi-sports-alpha/strategy/ranker.py:157-183 | a strictly wider spread gives a strictly smaller EV |
| Ranker.NoEdgeNoValue | kalshi-sports-alpha/strategy/ranker.py:163-183 | with aggregate score 0 the EV is at most minus half the spread |
| Ranker.TimingScore | kalshi-sports-alpha/strategy/ranker.py:358-359 | never negative, at most 1 unless kickoff has passed, and 0 from two hours out |
| Ranker.RankScore | kalshi-sports-alpha/strategy/ranker.py:342-366 | for non-negative weights and EV and scores in [0, 1], between 0 and the sum of the weights |
| Ranker.RankScoreMonotoneInEv | kalshi-sports-alpha/strategy/ranker.py:349-366 | a higher EV never lowers the rank score when the EV weight is non-negative |
| Ranker.MaxSize | kalshi-sports-alpha/strategy/ranker.py:368-385 | at least 10; either 10 or within 10% of depth (1000 when unknown); at most 100 for scores in [0, 1] |
| Ranker.IdentifyRisks | kalshi-sports-alpha/strategy/ranker.py:387-416 | each flag present exactly at its threshold: liquidity < 0.3, spread > 0.05, one signal, agreement < 0.7, under 1800 s to resolution |
| Ranker.BuildRecommendation | kalshi-sports-alpha/strategy/ranker.py:223-240 | entry price, EV, confidence, contract, contributing names, max size of at least 10 and its rank score |
| Ranker.Rejections | kalshi-sports-alpha/strategy/ranker.py:281-287 | empty exactly when EV and confidence both reach their thresholds; holds each reason exactly when that threshold fails |
| Ranker.Evaluate | kalshi-sports-alpha/strategy/ranker.py:268-329 | recommended exactly when EV >= min_ev and confidence >= min_confidence; otherwise a candidate with the rank score and the rejection reasons |
| Ranker.EvaluationsAt | kalshi-sports-alpha/strategy/ranker.py:268 | the i-th evaluation is the evaluation of the i-th input |
| Ranker.Rank | kalshi-sports-alpha/strategy/ranker.py:187-246 | the passing recommendations sorted by rank score descending, then truncated to max_recommendations |
| Ranker.RankAll | kalshi-sports-alpha/strategy/ranker.py:248-340 | the recommendations as in rank, and the sorted, untruncated watchlist of all the others |
| Ranker.PartitionIn | kalshi-sports-alpha/strategy/ranker.py:307-329 | the two lists together are as long as the evaluations, and hold exactly what each evaluation names |
| Ranker.RankAllPartition | kalshi-sports-alpha/strategy/ranker.py:307-329 | every input goes to exactly one list, the one its evaluation names |
| Ranker.EvaluationsWell | kalshi-sports-alpha/strategy/ranker.py:281-329 | every evaluation is consistent with the thresholds |
| Ranker.RankAllThresholds | kalshi-sports-alpha/strategy/ranker.py:281-329 | each recommendation clears both thresholds with max size >= 10; each watchlist entry fails one and lists its reasons |
| Ranker.RankAllOutputs | kalshi-sports-alpha/strategy/ranker.py:332-340 | both lists sorted by rank score descending; recommendations at most max_recommendations long and drawn from the passing ones; the watchlist a permutation of the others |
| Portfolio.Pnl | kalshi-sports-alpha/strategy/portfolio.py:21-26 | unknown exactly without a current price; for a long position, positive exactly when the price rose above entry |
| Portfolio.ScopedExposureEmpty | kalshi-sports-alpha/strategy/portfolio.py:104-120 | positions outside a scope contribute nothing to its exposure |
| Portfolio.ScopedExposureAppend | kalshi-sports-alpha/strategy/portfolio.py:28-68 | appending a position adds its exposure (size x entry price) to each scope it belongs to |
| Portfolio.ScopedWithinTotal | kalshi-sports-alpha/strategy/portfolio.py:65-82 | with long positions at non-negative prices, each market, event or league exposure is between 0 and total_exposure |
| Portfolio.Violation | kalshi-sports-alpha/strategy/portfolio.py:97-122 | one limit's violation entry is present exactly when current plus proposed exposure exceeds the cap |
| Portfolio.CheckLimits | kalshi-sports-alpha/strategy/portfolio.py:84-124 | one violation per cap exceeded (total, market, event, league); allowed exactly when there is none |
| Portfolio.ViolationsFlag | kalshi-sports-alpha/strategy/portfolio.py:94-124 | the concatenated violations name a limit exactly when that limit is exceeded |
| Portfolio.AvailableAsWritten | kalshi-sports-alpha/strategy/portfolio.py:176-189 | the smallest of the total, event and league headroom and the per-market cap itself: at most each, and equal to one of them |
| Portfolio.SizeToFitAsWritten | kalshi-sports-alpha/strategy/portfolio.py:174-194 | the maximum size that fits: a positive size costs at most AvailableAsWritten, one contract more would cost more; so it fits the total, event and league headroom and the bare market cap, ignoring held market exposure; never negative |
| Portfolio.SizeToFitAsWrittenGrowsPastMarketCap | kalshi-sports-alpha/strategy/portfolio.py:174-194 | with the market cap already filled, resizing a 100-contract recommendation returns 1000 contracts, still over the cap |
| Portfolio.Available | kalshi-sports-alpha/strategy/portfolio.py:176-189 | corrected: the smallest headroom over every limit, market included: at most each, and equal to one of them |
| Portfolio.SizeToFit | kalshi-sports-alpha/strategy/portfolio.py:174-194 | corrected: the maximum size that fits: never negative, a positive size fits within the headroom of every limit, market included, and one contract more would exceed Available |
| Portfolio.SizeToFitFits | kalshi-sports-alpha/strategy/portfolio.py:163-167 | a recommendation resized to a positive size then passes check_limits |
| Portfolio.SizeToFitShrinks | kalshi-sports-alpha/strategy/portfolio.py:163-167 | a recommendation that breaks a limit is never enlarged by the resize |
| Portfolio.Correlate | kalshi-sports-alpha/strategy/portfolio.py:143-160 | unchanged without an event position; same direction halves max_size and adds "correlated_position"; opposite direction only adds "opposite_position_exists" |
| Portfolio.Adjust | kalshi-sports-alpha/strategy/portfolio.py:143-167 | one recommendation through the pass as written: only size and flags change, and a non-negative size stays non-negative |
| Portfolio.AdjustEffect | kalshi-sports-alpha/strategy/portfolio.py:143-167 | the flags gain the correlation flag and then the violations; the size is refitted by _size_to_fit as written exactly when a limit is broken |
| Portfolio.AdjustFitsAllButMarket | kalshi-sports-alpha/strategy/portfolio.py:162-194 | as written, a recommendation kept with a positive size fits the total, event and league limits, and fits the market limit or at least its own exposure is within max_per_market |
| Portfolio.AdjustAsWrittenGrows | kalshi-sports-alpha/strategy/portfolio.py:143-194 | as written, a 100-contract recommendation in a market whose cap is already filled comes out at 1000 contracts, still over the market cap |
| Portfolio.AdjustCorrected | kalshi-sports-alpha/strategy/portfolio.py:143-167 | corrected design (refit by SizeToFit): only size and flags change, and the flags are those of the pass as written |
| Portfolio.AdjustCorrectedFitsLimits | kalshi-sports-alpha/strategy/portfolio.py:162-167 | corrected design: a recommendation kept with a positive size fits every limit |
| Portfolio.AdjustCorrectedNeverGrows | kalshi-sports-alpha/strategy/portfolio.py:143-167 | corrected design: the adjustment never enlarges a size and never makes it negative |
| Portfolio.Kept | kalshi-sports-alpha/strategy/portfolio.py:169-170 | exactly the recommendations of at least 10 contracts |
| Portfolio.AdjustAll | kalshi-sports-alpha/strategy/portfolio.py:143-167 | one recommendation per input, each the pass as written applied to the input in the same position |
| Portfolio.AdjustForCorrelationBounds | kalshi-sports-alpha/strategy/portfolio.py:126-172 | as written, everything returned has at least 10 contracts, fits the total, event and league limits, and fits the market limit or at least its own exposure is within max_per_market |
| Portfolio.AdjustForCorrelationCorrectedSafe | kalshi-sports-alpha/strategy/portfolio.py:126-172 | corrected design: everything returned has at least 10 contracts and passes check_limits |
| Portfolio.PortfolioManager.constructor | kalshi-sports-alpha/strategy/portfolio.py:53-55 | the given limits or the defaults, and no positions |
| Portfolio.PortfolioManager.AddPosition | kalshi-sports-alpha/strategy/portfolio.py:57-59 | appends the position and adds its exposure to the total; limits unchanged |
| Portfolio.PortfolioManager.Clear | kalshi-sports-alpha/strategy/portfolio.py:61-63 | no positions remain and the total exposure is 0 |
| Portfolio.PortfolioManager.TotalExposure | kalshi-sports-alpha/strategy/portfolio.py:65-68 | the sum of the exposures, 0 for no positions |
| Portfolio.PortfolioManager.ExposureBy | kalshi-sports-alpha/strategy/portfolio.py:70-82 | one entry per league (or event) held, each the exposure of its positions |
| Portfolio.PortfolioManager.AdjustForCorrelation | kalshi-sports-alpha/strategy/portfolio.py:126-172 | adjusts every recommendation in place by the pass as written and returns those of at least 10 contracts in order; positions unchanged |
| Portfolio.StoreAndKeep | kalshi-sports-alpha/strategy/portfolio.py:141-172 | every slot holds its adjusted recommendation, and the result is exactly those of at least 10 contracts, in order |
| Portfolio.GroupExposureGrouped | kalshi-sports-alpha/strategy/portfolio.py:70-82 | the grouped map has exactly the keys held, each with its scope's exposure |
| Portfolio.GroupedStep | kalshi-sports-alpha/strategy/portfolio.py:73-81 | one loop step keeps the map grouped for the longer list |
| Fills.FillRate | kalshi-sports-alpha/backtest/fills.py:17-22 | 0 for an empty request, otherwise filled / requested, in [0, 1] when the fill is within the request |
| Fills.EstimateSlippage | kalshi-sports-alpha/backtest/fills.py:33-66 | the larger of half the spread and the base-plus-size-impact slippage scaled by volatility: at least each, and equal to one of them |
| Fills.SlippageMonotoneInSize | kalshi-sports-alpha/backtest/fills.py:53-61 | for a fixed positive depth and non-negative factors a larger order never slips less |
| Fills.FilledSize | kalshi-sports-alpha/backtest/fills.py:116-125 | all of the depth when the order exceeds it; int(size x fill_pct) when the draw is below the partial-fill probability; otherwise the whole order; never more than the order, never negative for a non-negative order |
| Fills.SimulateFill | kalshi-sports-alpha/backtest/fills.py:90-154 | None for an empty order or no depth, and exactly when the fill rounds to nothing; otherwise the filled size is FilledSize's (all the depth, the int() partial fill or the whole order), at most min(size, depth), the slippage is EstimateSlippage's, and the price is moved up for YES and down for NO by the slippage and clamped into [0.01, 0.99] |
| Metrics.Drawdown | kalshi-sports-alpha/backtest/metrics.py:183-208 | (0, 0) for no equities |
| Metrics.CalculateDrawdown | kalshi-sports-alpha/backtest/metrics.py:183-208 | the loop computes exactly the drawdown fold |
| Metrics.DrawdownFoldStaysNone | kalshi-sports-alpha/backtest/metrics.py:198-206 | once the loop divides by a zero peak it does not resume |
| Metrics.DrawdownFoldNonNegative | kalshi-sports-alpha/backtest/metrics.py:198-206 | the loop keeps the drawdown and both durations non-negative |
| Metrics.DrawdownNonNegative | kalshi-sports-alpha/backtest/metrics.py:183-208 | the max drawdown and its duration are never negative |
| Metrics.DrawdownFoldPositive | kalshi-sports-alpha/backtest/metrics.py:198-206 | with positive equities the peak stays positive and every drawdown is at most 1 |
| Metrics.DrawdownBounded | kalshi-sports-alpha/backtest/metrics.py:183-208 | for positive equities the drawdown is defined and lies in [0, 1] |
| Metrics.DrawdownFoldRising | kalshi-sports-alpha/backtest/metrics.py:198-206 | along a non-decreasing run the peak is the latest value and no drawdown accrues |
| Metrics.DrawdownOfRisingCurve | kalshi-sports-alpha/tests/test_backtest.py:317-323 | an equity curve that never falls has drawdown 0 |
| Metrics.DrawdownExample | kalshi-sports-alpha/tests/test_backtest.py:308-315 | [100, 110, 105, 120, 90, 100, 115] has max drawdown 0.25 over 3 periods |
| Metrics.Wins | kalshi-sports-alpha/backtest/metrics.py:140 | exactly the positive P&Ls |
| Metrics.Losses | kalshi-sports-alpha/backtest/metrics.py:141 | exactly the negative P&Ls |
| Metrics.WinsAndLossesCount | kalshi-sports-alpha/backtest/metrics.py:138-144 | winning plus losing trades never exceed the total |
| Metrics.SumSigns | kalshi-sports-alpha/backtest/metrics.py:152-154 | gross profit is positive with a win and gross loss negative with a loss |
| Metrics.PnlValues | kalshi-sports-alpha/backtest/metrics.py:139 | one value per position, its P&L or 0 when unknown |
| Metrics.TradeStatsOf | kalshi-sports-alpha/backtest/metrics.py:138-154 | total is the position count; winning and losing counts are the numbers of positive and negative P&Ls; hit rate wins/total in [0, 1], 0 without trades; average win times wins is gross profit, average loss times losses is the gross loss magnitude, average trade times total is the P&L sum, each 0 without trades to average; profit factor times gross loss is gross profit, infinite exactly without losses |
| Metrics.TradeStatsExample | kalshi-sports-alpha/backtest/metrics.py:138-154 | P&Ls 60, -50 and 55 give 3 trades, 2 wins, 1 loss and hit rate 2/3 |
| Metrics.Returns | kalshi-sports-alpha/backtest/metrics.py:101-105 | at most one return per equity |
| Metrics.ReturnsOfPositive | kalshi-sports-alpha/backtest/metrics.py:101-105 | with positive equities every consecutive pair yields a return |
| Metrics.MetricsOf | kalshi-sports-alpha/backtest/metrics.py:72-180 | the all-zero metrics for an empty curve or no returns; a division by zero for zero initial capital or exactly when the drawdown divides by zero; otherwise total_return = (final - initial) / initial, annualized return times the number of returns is 252 times their sum, the drawdown figures are calculate_drawdown's, the trade fields are those of the trade statistics, and the exposure placeholders are 0.3 and 0.5 of the capital with time in market 0.5 |
| Metrics.CalculateMetrics | kalshi-sports-alpha/backtest/metrics.py:72-180 | the method computes exactly MetricsOf |
| Simulator.PnlAsWritten | kalshi-sports-alpha/backtest/simulator.py:44-51 | as written: None exactly while open; YES (exit - entry) x size, NO (entry - exit) x size |
| Simulator.Pnl | kalshi-sports-alpha/backtest/simulator.py:44-51 | corrected: None exactly while open; otherwise exit value less cost for either side (see SettledPnl) |
| Simulator.Execution | kalshi-sports-alpha/backtest/simulator.py:154-182 | nothing when min(signal size, capital x max_position_pct) < 10 or no fill; otherwise an open position of the filled size at the fill price in [0.01, 0.99], within the capped size, the depth and the capital share |
| Simulator.Settle | kalshi-sports-alpha/backtest/simulator.py:201-207 | the position closed at the snapshot's time, exit 1.0 exactly when its side is the result and 0.0 exactly otherwise; nothing else changes |
| Simulator.Payout | kalshi-sports-alpha/backtest/simulator.py:201-204 | the size when the side won, 0 otherwise |
| Simulator.RemainingMembers | kalshi-sports-alpha/backtest/simulator.py:196-210 | the positions kept are exactly those whose market has not settled |
| Simulator.SettledOutClosed | kalshi-sports-alpha/backtest/simulator.py:206-211 | every position moved to closed_positions is closed |
| Simulator.SettlementConservesPositions | kalshi-sports-alpha/backtest/simulator.py:196-211 | settlement neither loses nor adds a position: kept plus closed equals the open count |
| Simulator.SettledPnl | kalshi-sports-alpha/backtest/simulator.py:200-209 | a settled position's corrected P&L is its payout less its cost |
| Simulator.SettlementAccounts | kalshi-sports-alpha/backtest/simulator.py:196-211 | payouts and the closed positions' P&L account exactly for the cost leaving the open book |
| Simulator.SettlementKeepsBalance | kalshi-sports-alpha/backtest/simulator.py:196-211 | settlement keeps capital + open cost + fees - realised P&L unchanged |
| Simulator.ExecutionKeepsBalance | kalshi-sports-alpha/backtest/simulator.py:184-190 | opening a position keeps that balance: capital drops by filled x price plus the fee |
| Simulator.PnlAsWrittenInvertsNoSide | kalshi-sports-alpha/backtest/simulator.py:49-51 | a winning NO position bought at 0.40 reports -60 on 100 contracts as written, +60 corrected, matching the capital gained |
| Simulator.RealisedPnl | kalshi-sports-alpha/backtest/simulator.py:201-211 | the ledger's realised P&L (corrected pnl, exit value less cost), 0 when every position is open; the balance invariant uses it |
| Simulator.ReportedPnl | kalshi-sports-alpha/backtest/simulator.py:70-73 | total_pnl as written: the sum of pnl as written, 0 when every position is open |
| Simulator.ReportedPnlOnYes | kalshi-sports-alpha/backtest/simulator.py:44-73 | with only YES positions, total_pnl as written equals the realised P&L |
| Simulator.ReportedPnlInvertsNo | kalshi-sports-alpha/backtest/simulator.py:44-73 | a closed NO position is reported with the sign of its realised P&L reversed |
| Simulator.Horizon | kalshi-sports-alpha/backtest/simulator.py:114-121 | the replay looks at snapshots up to, not including, the first that is past the end date |
| Simulator.BeforeHorizon | kalshi-sports-alpha/backtest/simulator.py:120-121 | a snapshot that does not stop the replay lies before the horizon |
| Simulator.AtHorizon | kalshi-sports-alpha/backtest/simulator.py:120-121 | the first snapshot after the end date is at the horizon |
| Simulator.FromStart | kalshi-sports-alpha/backtest/simulator.py:118-119 | never more snapshots than given |
| Simulator.Processed | kalshi-sports-alpha/backtest/simulator.py:114-121 | every processed snapshot lies within [start_date, end_date] |
| Simulator.FromStartMembers | kalshi-sports-alpha/backtest/simulator.py:118-119 | exactly the snapshots from the start date on are kept |
| Simulator.FromStartStep | kalshi-sports-alpha/backtest/simulator.py:114-119 | one snapshot more is replayed exactly when it is not before the start date |
| Simulator.Emitted | kalshi-sports-alpha/backtest/simulator.py:142-152 | exactly the generated signals; failures and silence are skipped |
| Simulator.Equities | kalshi-sports-alpha/backtest/metrics.py:94 | the equity of each curve point, in order |
| Simulator.ClosedPnls | kalshi-sports-alpha/backtest/metrics.py:139 | the pnl as written of each closed position, in order, as calculate_metrics reads them |
| Simulator.SettlementKeepsConsistent | kalshi-sports-alpha/backtest/simulator.py:196-211 | settling keeps the balance, the one-fill-per-position count and open/closed status |
| Simulator.ExecutionKeepsConsistent | kalshi-sports-alpha/backtest/simulator.py:154-190 | executing a signal keeps the same invariant |
| Simulator.SettlementStep | kalshi-sports-alpha/backtest/simulator.py:196-211 | one loop iteration extends the kept list, the closed list and the payout total by the position at hand |
| Simulator.RemovalStep | kalshi-sports-alpha/backtest/simulator.py:196-210 | removing (or keeping) the position at hand turns the open list into the next iteration's |
| Simulator.SettleAt | kalshi-sports-alpha/backtest/simulator.py:197-211 | one iteration advances positions, closed positions and capital from the first i positions to the first i + 1 |
| Simulator.SettleOpenPositions | kalshi-sports-alpha/backtest/simulator.py:196-211 | open positions become the unsettled ones; the settled ones, closed, are appended; capital grows by their payouts |
| Simulator.BacktestState.constructor | kalshi-sports-alpha/backtest/simulator.py:54-61 | the given capital and empty lists |
| Simulator.BacktestState.TotalPnl | kalshi-sports-alpha/backtest/simulator.py:70-73 | the sum of the as-written pnl over the closed positions: 0 with none closed, and the realised P&L when every closed position is YES |
| Simulator.BacktestSimulator.constructor | kalshi-sports-alpha/backtest/simulator.py:83-90 | the config, the given fill model or the default, a fresh state at the initial capital; the invariant holds |
| Simulator.BacktestSimulator.ExecuteSignal | kalshi-sports-alpha/backtest/simulator.py:154-190 | nothing changes without an execution; otherwise capital drops by the cost (and fee), and exactly one position and one fill are appended |
| Simulator.BacktestSimulator.CheckSettlements | kalshi-sports-alpha/backtest/simulator.py:192-211 | positions become the unsettled ones, settled ones are appended closed, capital grows by the payouts, fills unchanged |
| Simulator.BacktestSimulator.GenerateSignals | kalshi-sports-alpha/backtest/simulator.py:142-152 | exactly the emitted signals, in generator order |
| Simulator.BacktestSimulator.ProcessSnapshot | kalshi-sports-alpha/backtest/simulator.py:123-131 | settling and executing keep the books balanced: capital plus the cost of open positions plus fees, less realised P&L, stays the initial capital; one fill per position; open and closed positions kept apart |
| Simulator.BacktestSimulator.ProcessAndRecord | kalshi-sports-alpha/backtest/simulator.py:123-137 | one curve point is appended with the snapshot's time and equity = capital |
| Simulator.BacktestSimulator.Replay | kalshi-sports-alpha/backtest/simulator.py:112-137 | one curve point per processed snapshot (start date on, up to the first after the end date), the last with the final capital |
| Simulator.BacktestSimulator.Run | kalshi-sports-alpha/backtest/simulator.py:92-140 | the replay's curve as above, and the metrics of that curve and the closed positions' pnl as written |
| Simulator.BacktestSimulator.EquityAccounts | kalshi-sports-alpha/backtest/simulator.py:63-68 | the reported equity (the capital) is the initial capital less the open positions' cost and the fees, plus the realised P&L |
| TradeHistory.MakeTrade | kalshi-sports-alpha/kalshi/models/trade.py:15-32 | a trade with the given id, ticker, time, price, count and side; a missing notional becomes price x count, a given one is kept |
| TradeHistory.VolumeSplitsBySide | kalshi-sports-alpha/ingestion/trade_history.py:248-250 | the total volume is buyer- plus seller-initiated volume |
| TradeHistory.Volume | kalshi-sports-alpha/ingestion/trade_history.py:39-42 | no volume when no trade matches; a non-negative volume when no count is negative |
| TradeHistory.VolumeBounded | kalshi-sports-alpha/ingestion/trade_history.py:39-42 | with no negative counts the volume of any subset lies between 0 and the total |
| TradeHistory.TotalNotional | kalshi-sports-alpha/ingestion/trade_history.py:44-47 | with non-negative notionals the total is non-negative and at least each single notional |
| TradeHistory.TradesSince | kalshi-sports-alpha/ingestion/trade_history.py:49-51 | exactly the trades at or after since, in stored order |
| TradeHistory.TradesInWindow | kalshi-sports-alpha/ingestion/trade_history.py:53-57 | exactly the trades from start to end, both ends included |
| TradeHistory.RecentTrades | kalshi-sports-alpha/ingestion/trade_history.py:59-62 | newest first, drawn from the trades, min(count, n) of them, and no trade left out is newer than one kept |
| TradeHistory.PrefixOfSorted | kalshi-sports-alpha/ingestion/trade_history.py:92-94 | a prefix of the newest-first order is sorted and drawn from it |
| TradeHistory.PrefixKeepsNewest | kalshi-sports-alpha/ingestion/trade_history.py:92-94 | trimming to the first n newest keeps trades no older than any dropped one |
| TradeHistory.NewTrades | kalshi-sports-alpha/ingestion/trade_history.py:84-85 | exactly the batch trades whose id is not stored, none when every id is stored |
| TradeHistory.Appended | kalshi-sports-alpha/ingestion/trade_history.py:84-87 | the stored trades unchanged, followed by exactly the batch trades with new ids |
| TradeHistory.Merge | kalshi-sports-alpha/ingestion/trade_history.py:81-94 | update time set; within the limit; nothing dropped below the limit; above it exactly the limit kept, newest first, and no dropped trade newer than a kept one |
| TradeHistory.MergeAddsOnlyNewIds | kalshi-sports-alpha/ingestion/trade_history.py:84-87 | every trade after add_trades was stored before or has an id not stored before |
| TradeHistory.MergeOfKnownIdsChangesNothing | kalshi-sports-alpha/ingestion/trade_history.py:84-94 | a batch of known ids leaves a market within the limit unchanged |
| TradeHistory.Since | kalshi-sports-alpha/ingestion/trade_history.py:113-115 | exactly the stored trades at or after since when it is given, otherwise all |
| TradeHistory.SelectTrades | kalshi-sports-alpha/ingestion/trade_history.py:113-123 | newest first, only trades at or after since; a positive limit keeps min(limit, matching) trades, none dropped newer than one kept; a negative limit drops that many from the end; no limit or 0 keeps every matching trade |
| TradeHistory.ZeroLimitMeansNoLimit | kalshi-sports-alpha/ingestion/trade_history.py:120-121 | a limit of 0 returns the same trades as no limit |
| TradeHistory.Earliest | kalshi-sports-alpha/ingestion/trade_history.py:258-259 | a trade with the smallest timestamp |
| TradeHistory.Latest | kalshi-sports-alpha/ingestion/trade_history.py:258-260 | a trade with the largest timestamp |
| TradeHistory.PriceVelocity | kalshi-sports-alpha/ingestion/trade_history.py:257-266 | 0 for fewer than two trades; otherwise the velocity times max(1, span in minutes) is the price change in cents, positive (negative) exactly when the latest price is above (below) the earliest |
| TradeHistory.FlowImbalance | kalshi-sports-alpha/ingestion/trade_history.py:248-251 | 0 without volume; otherwise times the volume it gives buy minus sell volume; within [-1, 1] when no count is negative |
| TradeHistory.LargeTradeRatio | kalshi-sports-alpha/ingestion/trade_history.py:274-276 | 0 without volume; otherwise times the volume it gives the volume of trades over 50 contracts; within [0, 1] when no count is negative |
| TradeHistory.MetricsOfTrades | kalshi-sports-alpha/ingestion/trade_history.py:237-285 | all zero without trades; a division by zero exactly for trades over a zero window; otherwise the flow imbalance, large ratio and price velocity above, volume rate times the window gives the trade count and average size times the count gives the volume |
| TradeHistory.FlowBounded | kalshi-sports-alpha/ingestion/trade_history.py:248-276 | with some volume the flow imbalance lies in [-1, 1] and the large-trade ratio in [0, 1] |
| TradeHistory.FlowImbalanceExample | kalshi-sports-alpha/ingestion/trade_history.py:248-251 | 300 contracts bought and 100 sold give flow imbalance 0.5 |
| TradeHistory.LargeTradeRatioExample | kalshi-sports-alpha/ingestion/trade_history.py:275-276 | 100 of 150 contracts in trades over 50 give ratio 2/3 |
| TradeHistory.RemoveKey | kalshi-sports-alpha/ingestion/trade_history.py:131-132 | the other keys, in order, without duplicates |
| TradeHistory.TradeHistoryStore.constructor | kalshi-sports-alpha/ingestion/trade_history.py:72-74 | the given config or the default, and no markets |
| TradeHistory.TradeHistoryStore.AddTrades | kalshi-sports-alpha/ingestion/trade_history.py:76-96 | creates the market on first use and merges the batch into it; other markets unchanged |
| TradeHistory.TradeHistoryStore.GetHistory | kalshi-sports-alpha/ingestion/trade_history.py:98-100 | the market's history exactly when it is stored |
| TradeHistory.TradeHistoryStore.GetTrades | kalshi-sports-alpha/ingestion/trade_history.py:102-123 | [] for an unknown market, otherwise the stored trades selected by since and limit, newest first |
| TradeHistory.TradeHistoryStore.GetAllTickers | kalshi-sports-alpha/ingestion/trade_history.py:125-127 | every stored market exactly once |
| TradeHistory.TradeHistoryStore.Clear | kalshi-sports-alpha/ingestion/trade_history.py:129-134 | a non-empty ticker removes only that market; no ticker or "" removes all |
| TradeHistory.TradeHistoryStore.ComputeTradeMetrics | kalshi-sports-alpha/ingestion/trade_history.py:211-285 | all zero for an unknown market; otherwise the metrics of the trades since now minus the window |
| Risk.Flag | kalshi-sports-alpha/execution/risk.py:83-116 | one check appends its violation exactly when the order breaks that limit, and nothing otherwise |
| Risk.FlagsOf | kalshi-sports-alpha/execution/risk.py:80-116 | a run of checks yields exactly the violations among them that the order breaks |
| Risk.Violations | kalshi-sports-alpha/execution/risk.py:80-118 | the violation list holds every check the order fails and no other |
| Risk.AllowedIffWithinLimits | kalshi-sports-alpha/execution/risk.py:80-118 | an order is allowed (no violations) if and only if it keeps every size, exposure, loss and halt limit |
| Risk.HaltAndSizeAlwaysReported | kalshi-sports-alpha/execution/risk.py:83-90 | halted trading always reports "trading_halted", and a size above the maximum or below the minimum always reports its size violation |
| Risk.CheckOrderAsWritten | kalshi-sports-alpha/execution/risk.py:80-118 | the violations are exactly the checks the order fails with the market cap read from the event dictionary under the market id; allowed if and only if there are none, that is, if and only if every limit holds as read |
| Risk.CheckOrderAsWrittenReadsEventsAsMarkets | kalshi-sports-alpha/execution/risk.py:93-97 | the check as written is the per-market check run with the event dictionary in place of a market dictionary |
| Risk.UpdateExposureAsWritten | kalshi-sports-alpha/execution/risk.py:120-133 | the event, the league and the total grow by delta; every other event and league, the P&L and the drawdown are unchanged |
| Risk.AllowedFillAsWrittenKeepsEventCaps | kalshi-sports-alpha/execution/risk.py:97-133 | as written, an allowed order once filled keeps every event, league and the total within their caps, starting within them |
| Risk.Filled | kalshi-sports-alpha/execution/risk.py:120-133 | corrected design (not in the program): a fill of delta adds delta to its market as well as its event, league and the total, and leaves every other key unchanged |
| Risk.AllowedFillKeepsCaps | kalshi-sports-alpha/execution/risk.py:93-133 | corrected design (not in the program): with per-market tracking, an allowed order once filled keeps every market, event, league and the total within their caps |
| Risk.MarketCapAsWrittenIgnoresHoldings | kalshi-sports-alpha/execution/risk.py:93-95 | as written, when the market id is not also an event key, the market cap fires exactly when the single order exceeds it, whatever the market already holds |
| Risk.MarketCapAsWrittenLetsMarketOverflow | kalshi-sports-alpha/execution/risk.py:93-133 | as written, three 200-contract orders at 0.99 in one market all pass, leaving 594 dollars against a 500-dollar market cap |
| Risk.MarketCapCountsHoldings | kalshi-sports-alpha/execution/risk.py:93-95 | corrected: the market cap fires exactly when the market's held exposure plus the order exceeds it |
| Risk.MarketCapCorrectedRefusesOverflow | kalshi-sports-alpha/execution/risk.py:93-95 | corrected: after two 198-dollar fills in a market, the third order is refused for the market cap |
| Risk.RiskManager.constructor | kalshi-sports-alpha/execution/risk.py:54-57 | the given limits or the defaults, an empty RiskState (no exposure, zero P&L and drawdown), not halted |
| Risk.RiskManager.CheckOrder | kalshi-sports-alpha/execution/risk.py:59-118 | returns check_order as written on the current state; allowed if and only if there are no violations; halted trading and out-of-range sizes are never allowed; the market cap fires exactly when the event dictionary's entry under the market id plus the order exceeds it |
| Risk.RiskManager.UpdateExposure | kalshi-sports-alpha/execution/risk.py:120-133 | the state becomes update_exposure as written (event, league and total grow by delta); the halt flag is unchanged |
| Risk.RiskManager.UpdatePnl | kalshi-sports-alpha/execution/risk.py:135-142 | both P&L counters move by pnl; halted afterwards if and only if it was halted before or the day's loss now exceeds its limit |
| Risk.RiskManager.HaltTrading | kalshi-sports-alpha/execution/risk.py:144-147 | trading is halted; nothing else changes |
| Risk.RiskManager.ResumeTrading | kalshi-sports-alpha/execution/risk.py:149-152 | trading is not halted; nothing else changes |
| Risk.RiskManager.ResetDaily | kalshi-sports-alpha/execution/risk.py:154-158 | daily P&L is zero, and a halt survives only when the daily loss limit is negative |
| Risk.RiskManager.ResetWeekly | kalshi-sports-alpha/execution/risk.py:160-162 | weekly P&L is zero; nothing else changes |
| OrderManager.NewOrder | kalshi-sports-alpha/execution/order_manager.py:99-108 | a new order carries the given fields, is pending, has nothing filled and no update time |
| OrderManager.CancelledAt | kalshi-sports-alpha/execution/order_manager.py:151-156 | a cancelled order is no longer open or cancellable, is stamped with now, and keeps every other field |
| OrderManager.KillSwitched | kalshi-sports-alpha/execution/order_manager.py:166-168 | the kill switch changes an order if and only if it is a pending order of the market, and leaves no pending order in that market |
| OrderManager.KillSwitchStep | kalshi-sports-alpha/execution/order_manager.py:166-168 | one more iteration of the kill-switch loop extends the switched prefix by one order and leaves the rest untouched |
| OrderManager.OpenAmong | kalshi-sports-alpha/execution/order_manager.py:176-181 | exactly the open orders stored under the given keys |
| OrderManager.OrderManager.constructor | kalshi-sports-alpha/execution/order_manager.py:59-70 | no orders and no kill switches |
| OrderManager.OrderManager.CreateOrder | kalshi-sports-alpha/execution/order_manager.py:72-111 | refused with no change while the market's kill switch is on; otherwise the new pending order is stored under its id, a reused id overwriting the old order |
| OrderManager.OrderManager.SubmitOrder | kalshi-sports-alpha/execution/order_manager.py:113-143 | an unknown id raises; without auto-execution nothing changes; otherwise the order is marked submitted and the call raises not-implemented |
| OrderManager.OrderManager.CancelOrder | kalshi-sports-alpha/execution/order_manager.py:145-159 | true if and only if the order exists and is neither filled nor cancelled, in which case it becomes cancelled; otherwise nothing changes |
| OrderManager.OrderManager.CancelIfPending | kalshi-sports-alpha/execution/order_manager.py:166-168 | the one order is replaced by its kill-switched form |
| OrderManager.OrderManager.ActivateKillSwitch | kalshi-sports-alpha/execution/order_manager.py:161-169 | the market's switch is on, every pending order of the market is cancelled, and every other order is unchanged |
| OrderManager.OrderManager.DeactivateKillSwitch | kalshi-sports-alpha/execution/order_manager.py:171-174 | the market's switch is off; the orders are unchanged |
| OrderManager.OrderManager.GetOpenOrders | kalshi-sports-alpha/execution/order_manager.py:176-181 | exactly the stored orders that are pending, submitted or partly filled |
| Reconciliation.Reweighted | kalshi-sports-alpha/execution/reconciliation.py:73-79 | the size grows by the delta; while it stays positive the new average price preserves the total cost, otherwise the old average is kept; nothing else changes |
| Reconciliation.AverageBetween | kalshi-sports-alpha/execution/reconciliation.py:76-79 | adding contracts to a long position puts the new average between the old average and the trade price |
| Reconciliation.SamePriceKeepsAverage | kalshi-sports-alpha/execution/reconciliation.py:76-79 | trading at the current average price leaves the average unchanged |
| Reconciliation.ExchangeByMarket | kalshi-sports-alpha/execution/reconciliation.py:116 | every reported ticker is a key, each key maps to a reported position with that ticker, and the last position listed wins |
| Reconciliation.Tickers | kalshi-sports-alpha/execution/reconciliation.py:116-132 | the dictionary's keys, each exactly once |
| Reconciliation.LocalCheck | kalshi-sports-alpha/execution/reconciliation.py:119-129 | no discrepancy if and only if the exchange confirms the record's size; "not found on exchange" for a missing ticker, a size mismatch otherwise |
| Reconciliation.LocalChecks | kalshi-sports-alpha/execution/reconciliation.py:118-129 | the local pass reports nothing if and only if every local record is confirmed |
| Reconciliation.ExchangeChecks | kalshi-sports-alpha/execution/reconciliation.py:132-137 | the exchange pass reports nothing if and only if every ticker is held locally under its side ("YES" by default), and reports only not-found-locally tickers |
| Reconciliation.Values | kalshi-sports-alpha/execution/reconciliation.py:108-142 | the stored records in dictionary order |
| Reconciliation.ReconcileResult | kalshi-sports-alpha/execution/reconciliation.py:101-147 | a failed fetch gives an unmatched result with the single fetch discrepancy; otherwise the result is matched if and only if there is no discrepancy |
| Reconciliation.MatchedIffBooksAgree | kalshi-sports-alpha/execution/reconciliation.py:113-147 | after a fetch the books match if and only if every local record is confirmed and every exchange position is known locally |
| Reconciliation.RemoteAgrees | kalshi-sports-alpha/execution/reconciliation.py:131-137 | no exchange-side discrepancy if and only if every reported ticker is known locally |
| Reconciliation.UnrealizedPnl | kalshi-sports-alpha/execution/reconciliation.py:161-164 | a long YES position gains exactly when the price is above the average; a long NO position exactly when it is below |
| Reconciliation.OppositeSidesOppositePnl | kalshi-sports-alpha/execution/reconciliation.py:161-164 | the same record held on YES and on NO has opposite unrealised P&L |
| Reconciliation.Priced | kalshi-sports-alpha/execution/reconciliation.py:160-164 | a priced record gets its unrealised P&L; an unpriced one is unchanged |
| Reconciliation.Unrealized | kalshi-sports-alpha/execution/reconciliation.py:157-165 | with no priced record the unrealised total is 0 |
| Reconciliation.CheckLocal | kalshi-sports-alpha/execution/reconciliation.py:118-129 | the loop's discrepancies are exactly those of the local pass |
| Reconciliation.CheckExchange | kalshi-sports-alpha/execution/reconciliation.py:132-137 | the loop's discrepancies are exactly those of the exchange pass |
| Reconciliation.PriceAll | kalshi-sports-alpha/execution/reconciliation.py:159-165 | every record is replaced by its priced form, no key added or lost, and the sum is the unrealised total |
| Reconciliation.Reconciler.constructor | kalshi-sports-alpha/execution/reconciliation.py:44-53 | no records and no reconciliation yet |
| Reconciliation.Reconciler.UpdateLocalPosition | kalshi-sports-alpha/execution/reconciliation.py:55-86 | the first trade of a market and side opens a record at its price; later ones reweight the existing record; no other record changes |
| Reconciliation.Reconciler.Reconcile | kalshi-sports-alpha/execution/reconciliation.py:94-152 | returns the specified result; the records are unchanged; the result is remembered only when the fetch succeeded |
| Reconciliation.Reconciler.GetPnlSummary | kalshi-sports-alpha/execution/reconciliation.py:154-172 | every record is priced in place; realised P&L is 0, total equals realised plus unrealised, and positions counts the records |
| PipelineStats.Empty | kalshi-sports-alpha/reporting/pipeline_stats.py:12-45 | fresh statistics: every count zero, every collection empty, stamped with the given time |
| PipelineStats.Rate | kalshi-sports-alpha/reporting/pipeline_stats.py:62-81 | 0 for a zero whole; otherwise the rate times the whole is a hundred times the part; a part between 0 and the whole gives a percentage in [0, 100] |
| PipelineStats.ConversionRate | kalshi-sports-alpha/reporting/pipeline_stats.py:62-67 | 0 with no market polled; otherwise the rate times the markets polled is 100 x the recommendations; within [0, 100] when recommendations do not exceed markets |
| PipelineStats.SignalRate | kalshi-sports-alpha/reporting/pipeline_stats.py:69-74 | 0 with no market polled; otherwise the rate times the markets polled is 100 x the markets with signals; within [0, 100] when those do not exceed the markets |
| PipelineStats.AggregationPassRate | kalshi-sports-alpha/reporting/pipeline_stats.py:76-81 | 0 with no market carrying signals; otherwise the rate times those markets is 100 x the markets aggregated; within [0, 100] when those do not exceed them |
| PipelineStats.TotalVolume | kalshi-sports-alpha/reporting/pipeline_stats.py:83-86 | 0 for no snapshots; without negative volumes, non-negative and at least each market's volume |
| PipelineStats.TotalDepth | kalshi-sports-alpha/reporting/pipeline_stats.py:96-99 | 0 for no snapshots; without negative depths, non-negative and at least each market's bid plus ask depth |
| PipelineStats.NatDecimal | kalshi-sports-alpha/reporting/pipeline_stats.py:47-60 | a non-empty string of decimal digits |
| PipelineStats.NatDecimalRoundTrip | kalshi-sports-alpha/reporting/pipeline_stats.py:47-60 | reading back the decimal numeral of a natural number gives the number |
| PipelineStats.DecimalRoundTrip | kalshi-sports-alpha/reporting/pipeline_stats.py:47-60 | reading back the numeral of any count, negative ones included, gives the count, so distinct counts print differently |
| PipelineStats.Funnel | kalshi-sports-alpha/reporting/pipeline_stats.py:47-60 | the five stages in pipeline order with their names and counts, each description opening with its count in decimal |
| PipelineStats.TotalsAdd | kalshi-sports-alpha/reporting/pipeline_stats.py:83-99 | total volume and total depth add over concatenated batches of snapshots |
| PipelineStats.Spreads | kalshi-sports-alpha/reporting/pipeline_stats.py:90 | no spread is kept if and only if no snapshot has one, and every kept spread is some snapshot's spread |
| PipelineStats.AvgSpread | kalshi-sports-alpha/reporting/pipeline_stats.py:88-94 | None if and only if no snapshot has a spread |
| PipelineStats.SumRealsBounds | kalshi-sports-alpha/reporting/pipeline_stats.py:94 | n values in [lo, hi] sum to between n lo and n hi |
| PipelineStats.AvgSpreadWithin | kalshi-sports-alpha/reporting/pipeline_stats.py:88-94 | when every known spread lies in [lo, hi], so does the average |
| PipelineStats.Distinct | kalshi-sports-alpha/reporting/pipeline_stats.py:157-160 | the tallied keys, each once, exactly the values that occur |
| PipelineStats.TallyCounts | kalshi-sports-alpha/reporting/pipeline_stats.py:157-178 | a tally's keys are exactly the values tallied, each counted as often as it occurs |
| PipelineStats.SumOverAgrees | kalshi-sports-alpha/reporting/pipeline_stats.py:157-160 | the sum of counts over some keys depends only on those keys' counts |
| PipelineStats.SumOverBump | kalshi-sports-alpha/reporting/pipeline_stats.py:159-176 | one more count for a listed key adds one to the sum |
| PipelineStats.TallySum | kalshi-sports-alpha/reporting/pipeline_stats.py:157-178 | a tally's counts add up to the number of values tallied |
| PipelineStats.LeagueOf | kalshi-sports-alpha/reporting/pipeline_stats.py:158 | a league name is never empty: an empty one becomes "Unknown" |
| PipelineStats.FlattenKeepsSignals | kalshi-sports-alpha/reporting/pipeline_stats.py:172-178 | the flattened list is as long as all the markets' lists together and holds each of their signals |
| PipelineStats.LeagueCountsSumToPolled | kalshi-sports-alpha/reporting/pipeline_stats.py:150-160 | the league counts add up to the number of markets polled, each league counted once per market in it |
| PipelineStats.SignalCountsSumToGenerated | kalshi-sports-alpha/reporting/pipeline_stats.py:162-178 | the signals generated equal the markets' signals together, and the per-type counts add up to them |
| PipelineStats.AddSignals | kalshi-sports-alpha/reporting/pipeline_stats.py:175-177 | the inner loop appends one market's signals in order and keeps the name tally of everything appended |
| PipelineStats.CountSignals | kalshi-sports-alpha/reporting/pipeline_stats.py:172-177 | the loops flatten the markets' signals in order and tally them by name |
| PipelineStats.PipelineStatsCollector.constructor | kalshi-sports-alpha/reporting/pipeline_stats.py:147-148 | default statistics stamped with the construction time |
| PipelineStats.PipelineStatsCollector.RecordSnapshots | kalshi-sports-alpha/reporting/pipeline_stats.py:150-160 | stores the snapshots, their number and their league tally; nothing else changes |
| PipelineStats.PipelineStatsCollector.RecordSignals | kalshi-sports-alpha/reporting/pipeline_stats.py:162-178 | stores the per-market signals, the number of markets, the flattened signals, their number and their name tally; nothing else changes |
| PipelineStats.PipelineStatsCollector.RecordAggregation | kalshi-sports-alpha/reporting/pipeline_stats.py:180-183 | stores the passed and dropped counts; nothing else changes |
| PipelineStats.PipelineStatsCollector.RecordFiltering | kalshi-sports-alpha/reporting/pipeline_stats.py:185-197 | stores the four ranking counts, and the candidates evaluated are recommendations plus watch list; nothing else changes |
| PipelineStats.PipelineStatsCollector.Finalize | kalshi-sports-alpha/reporting/pipeline_stats.py:199-202 | stamps the statistics with the time and returns them; nothing else changes |
| Sorting.InsertDescSorted | kalshi-sports-alpha/strategy/ranker.py:332-335 | inserting into a list sorted by descending key keeps it sorted |
| Sorting.SortDescSorted | kalshi-sports-alpha/strategy/ranker.py:332-335 | sorting by descending key yields a list in which every key is at least every later one |
| Sorting.SortDescPermutation | kalshi-sports-alpha/features/behavioral/favorite_longshot.py:111 | sorting yields a rearrangement of its input, with the same elements as often |
| Sorting.SortDescMembers | kalshi-sports-alpha/ingestion/trade_history.py:61 | the sorted list holds exactly the input's elements |
| Common.Clamp | kalshi-sports-alpha/signals/signal_base.py:41-42 | the value clamped into [lo, hi], unchanged when already inside |
| Common.Trunc | kalshi-sports-alpha/strategy/sizing.py:96 | Python's int() on a float: the whole number next to it toward zero |
| Common.TruncQuotientBounds | kalshi-sports-alpha/strategy/portfolio.py:194 | int(t / d) times d does not exceed t, and one more d would |
| Common.Take | kalshi-sports-alpha/strategy/ranker.py:246 | a slice [:n] is a prefix of length n when 0 <= n <= length, the whole list when n is larger, and drops -n elements from the end when n is negative |

## Left out

- I/O and the clock. The current time, order ids (derived from the clock in execution/order_manager.py:97) and the fill model's random draws are parameters. The exchange position fetch of execution/reconciliation.py:88-92 is a parameter (`None` when it raises). TradeHistoryPipeline's fetch, update and singleton helpers (ingestion/trade_history.py:137-209, 326-337) call the network and are not part of this model.
- Square roots and logarithms: Sharpe, Sortino and volatility (backtest/metrics.py:110-132) and the clustering coefficient of variation (ingestion/trade_history.py:287-323) are not part of this model. The clustering score is not part of the metrics record: `TradeHistory.TradeMetrics` has no clustering field, so `compute_trade_metrics`' `trade_clustering` entry is not modelled.
- Datetime parsing and time zones: `normalize_game_time` and `is_primetime_slot` (kalshi/sports/schedule.py:61-133) are not part of this model.
- Helpers that nothing in the modelled core calls: `compute_effective_spread` (features/microstructure/liquidity.py:115-117) and `estimate_market_impact` (backtest/fills.py:157-161).
- Display and serialisation are not modelled, since they only format values the model already has:
  - every `to_dict`, `from_dict` and `summary`;
  - `get_filtering_breakdown`;
  - the free-text rationale strings;
  - log messages.
- Floating-point rounding: floats are exact reals, so rounding differences between the Python arithmetic and the model are not captured.
- A dictionary entry that is present with the value `None` is modelled for feature dictionaries only. For the ranker's market-data dictionary and an exchange position's "side" key, a present `None` is treated as absent.
- Aliasing: objects shared between lists are not modelled, except for the recommendation objects that `adjust_for_correlation` mutates. Those are an array updated in place.
- Portfolio.PortfolioManager.AdjustForCorrelation: treats each array slot as its own recommendation, so a recommendation object listed twice would be adjusted twice in the source but once per slot here.
- Simulator.BacktestSimulator.ProcessSnapshot: states that the books stay balanced, not the full new state. The full effect of its two steps is stated by `SettleOpenPositions` and `ExecuteSignal`.
- Simulator.BacktestSimulator.Replay: states the equity curve's times and last value, and that the books stay balanced, not the individual positions afterwards.
- Simulator.BacktestSimulator.Run: the equity curve is a ghost out-parameter, since the source keeps it only inside the metrics.
- Ranker.Rank: evaluates every candidate before filtering. The source evaluates them in one loop, which gives the same result because the evaluation has no side effects.
- Leagues.Upper: maps only the ASCII letters a-z to upper case. Python's `str.upper` is Unicode-aware and can change the length, for example U+FB02 (the "fl" ligature) becomes "FL".
- Leagues.GetLeague: inherits Upper's ASCII-only case mapping, so "n" followed by U+FB02 gives the NFL league in the source and None here.
- FavoriteLongshot.IdentifyMispricing: states that the result is sorted by descending absolute edge and holds exactly the flagged markets. The order among opportunities with equal absolute edge is not stated.
- Risk.Filled: describes the intended per-market tracking, not `update_exposure` (execution/risk.py:120-133), which keeps no per-market exposure. RiskManager itself follows the code through UpdateExposureAsWritten.
- Risk.AllowedFillKeepsCaps: holds only for the intended per-market tracking. For the code, AllowedFillAsWrittenKeepsEventCaps states what does hold (event, league and total caps), and MarketCapAsWrittenLetsMarketOverflow shows that the market cap is not kept.
- Portfolio.AdjustCorrected, Portfolio.AdjustCorrectedFitsLimits, Portfolio.AdjustCorrectedNeverGrows and Portfolio.AdjustForCorrelationCorrectedSafe describe the resize with the intended market headroom. The code's pass, Portfolio.Adjust, fits every limit except the per-market one (AdjustFitsAllButMarket) and can enlarge an order (AdjustAsWrittenGrows).

Behaviours the model keeps exactly as the code has them (they are not findings, but a reader may not expect them):

- `get_trades` with limit 0 returns every trade, and `clear("")` clears every market (ingestion/trade_history.py:120,131).
- `compute_spread_pct` refuses only a zero mid price, so a negative mid gives a negative percentage (features/microstructure/liquidity.py:37-40).
- `cancel_order` also cancels a REJECTED order (execution/order_manager.py:151).
- `reconcile` does not record the result when the fetch fails (execution/reconciliation.py:101-111).
- The record key `f"{market_id}_{side}"` can collide for different pairs (execution/reconciliation.py:71).
- `price_impact` with size 0 on a side with depth divides by zero (kalshi/models/orderbook.py:124).
- The fragile-market generator reads the favorite-longshot bias feature but never uses it (signals/fragile_market.py).
- `create_order` with an id already in use overwrites that order.
- The drawdown duration counts the first point as one period (backtest/metrics.py:193-208).

Where the code and its own documentation or tests disagree, the model follows the code:

- The aggregator has no feature-overlap or agreement-ratio gate.
- The win-probability estimate is capped at 0.95 with no floor.
- The simulator has no look-ahead or point-in-time check.

## Findings

| source | as written | input that shows it | evidently intended | confidence | as-written member | corrected member |
|---|---|---|---|---|---|---|
| kalshi-sports-alpha/strategy/portfolio.py:174-194 | `_size_to_fit` takes the per-market cap itself as the market headroom, ignoring what the market already holds | a position of 1000 contracts at 0.50 in market M (500 held, cap 500) and a 100-contract recommendation in M: the resize returns 1000 contracts, still over the cap | the market headroom is the cap less the market's held exposure, as `check_limits` computes it | high (not executed) | Portfolio.SizeToFitAsWrittenGrowsPastMarketCap | Portfolio.SizeToFitFits |
| kalshi-sports-alpha/backtest/simulator.py:44-51 | `Position.pnl` of a NO position is (entry - exit) x size, yet settlement (line 206) records the exit price of the contract held, 1.0 when NO wins | 100 NO contracts bought at 0.40 that settle NO: capital grows by 60 over the cost, `pnl` reports -60 | (exit - entry) x size for either side, matching the payout | high (not executed) | Simulator.PnlAsWrittenInvertsNoSide | Simulator.SettlementKeepsBalance |
| kalshi-sports-alpha/execution/risk.py:93-95 | the per-market check reads `exposure_by_event.get(market_id, 0)`, and no per-market exposure is ever stored | three orders of 200 contracts at 0.99 in market M1 of event E1: each passes, leaving 594 dollars in M1 against a 500 cap | the market's own held exposure is checked, and fills update it | high (not executed) | Risk.MarketCapAsWrittenLetsMarketOverflow | Risk.MarketCapCorrectedRefusesOverflow |
| kalshi-sports-alpha/features/behavioral/favorite_longshot.py:77-80 | the vig adjustment adds 0.02 whenever the bias is not positive, and subtracts it across zero when the bias is smaller than the vig | price 0.5 with no reference has bias 0 and an edge of +2 cents; price 0.51 against a reference of 0.50 has bias +0.01 and an edge of -1 cent | the edge is the bias shrunk toward zero by the vig, and 0 when the vig eats it | medium (not executed) | FavoriteLongshot.ImpliedEdgeAsWrittenInventsEdge | FavoriteLongshot.ImpliedEdge |
