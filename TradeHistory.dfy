/**
 * The in-memory trade-history store (ingestion/trade_history.py): per
 * market, the list of executed trades with its volume and time-window
 * queries; the store that merges batches without repeating a trade id and
 * trims each market to its most recent trades; and the flow and size
 * metrics computed over a recent window.
 *
 * Timestamps are whole seconds; the current time is a parameter.
 */
module TradeHistory {
  import opened Common
  import opened Sorting

  datatype TakerSide = Buy | Sell

  /** An executed trade; `notional` is already resolved (see `MakeTrade`). */
  datatype Trade = Trade(
    tradeId: string,
    ticker: string,
    timestamp: int,
    price: real,
    count: int,
    takerSide: TakerSide,
    notional: real)

  /** The trade record's constructor: the fields as given, a missing notional becoming price × count. */
  function MakeTrade(tradeId: string, ticker: string, timestamp: int, price: real, count: int,
                     takerSide: TakerSide, notional: Option<real>): (t: Trade)
    ensures t.tradeId == tradeId && t.ticker == ticker && t.timestamp == timestamp
    ensures t.price == price && t.count == count && t.takerSide == takerSide
    ensures notional.Some? ==> t.notional == notional.value
    ensures notional.None? ==> t.notional == Mul(price, count as real)
  {
    Trade(tradeId, ticker, timestamp, price, count, takerSide, notional.GetOr(Mul(price, count as real)))
  }

  datatype TradeHistoryConfig = TradeHistoryConfig(lookbackHours: int, maxTradesPerMarket: int)

  const DefaultTradeHistoryConfig := TradeHistoryConfig(24, 5000)

  datatype MarketTradeHistory = MarketTradeHistory(ticker: string, trades: seq<Trade>, lastUpdated: Option<int>)

  /** The sort key of `sorted(..., key=lambda t: t.timestamp, reverse=True)`. */
  function TimeKey(t: Trade): real
  {
    t.timestamp as real
  }

  // ----- Queries on one market's trades -----

  /**
   * The number of contracts over the trades that satisfy `f`: 0 when none
   * does, and never negative when no count is.
   */
  function Volume(trades: seq<Trade>, f: Trade -> bool): (r: int)
    ensures (forall i :: 0 <= i < |trades| ==> !f(trades[i])) ==> r == 0
    ensures (forall i :: 0 <= i < |trades| ==> trades[i].count >= 0) ==> r >= 0
  {
    if trades == [] then 0
    else
      var init := trades[..|trades| - 1];
      assert forall i :: 0 <= i < |init| ==> init[i] == trades[i];
      Volume(init, f) + (if f(trades[|trades| - 1]) then trades[|trades| - 1].count else 0)
  }

  function Everything(t: Trade): bool { true }
  function BuyerInitiated(t: Trade): bool { t.takerSide == Buy }
  function SellerInitiated(t: Trade): bool { t.takerSide == Sell }
  /** A trade of more than 50 contracts. */
  function IsLarge(t: Trade): bool { t.count > 50 }

  predicate NonNegCounts(trades: seq<Trade>)
  {
    forall i :: 0 <= i < |trades| ==> trades[i].count >= 0
  }

  /** `total_volume`: every contract is bought or sold by the taker, so the total is the two sides together. */
  lemma {:induction false} VolumeSplitsBySide(trades: seq<Trade>)
    ensures Volume(trades, Everything) == Volume(trades, BuyerInitiated) + Volume(trades, SellerInitiated)
  {
    if trades != [] {
      VolumeSplitsBySide(trades[..|trades| - 1]);
    }
  }

  /** With no negative counts, the volume of any subset lies between 0 and the total volume. */
  lemma {:induction false} VolumeBounded(trades: seq<Trade>, f: Trade -> bool)
    requires NonNegCounts(trades)
    ensures 0 <= Volume(trades, f) <= Volume(trades, Everything)
  {
    if trades != [] {
      var init := trades[..|trades| - 1];
      assert NonNegCounts(init) by {
        forall i | 0 <= i < |init| ensures init[i].count >= 0 {
          assert init[i] == trades[i];
        }
      }
      VolumeBounded(init, f);
      assert trades[|trades| - 1].count >= 0;
    }
  }

  /**
   * `total_notional`: the sum of the trades' notional values; never
   * negative when no notional is, and at least any one trade's notional then.
   */
  function TotalNotional(trades: seq<Trade>): (r: real)
    ensures (forall i :: 0 <= i < |trades| ==> trades[i].notional >= 0.0) ==>
              r >= 0.0 && forall i :: 0 <= i < |trades| ==> trades[i].notional <= r
  {
    if trades == [] then 0.0
    else
      var init := trades[..|trades| - 1];
      assert forall i :: 0 <= i < |init| ==> init[i] == trades[i];
      TotalNotional(init) + trades[|trades| - 1].notional
  }

  /** `get_trades_since`: the trades at or after `since`, in stored order. */
  function TradesSince(trades: seq<Trade>, since: int): (r: seq<Trade>)
    ensures |r| <= |trades|
    ensures forall t :: t in r <==> t in trades && t.timestamp >= since
  {
    Filter((t: Trade) => t.timestamp >= since, trades)
  }

  /** `get_trades_in_window`: the trades from `start` to `end`, both ends included. */
  function TradesInWindow(trades: seq<Trade>, start: int, end: int): (r: seq<Trade>)
    ensures |r| <= |trades|
    ensures forall t :: t in r <==> t in trades && start <= t.timestamp <= end
  {
    Filter((t: Trade) => start <= t.timestamp <= end, trades)
  }

  /**
   * `get_recent_trades`: the first `count` trades once sorted newest first.
   * The result is ordered newest first, is drawn from the trades, has
   * `count` of them when there are that many, and no trade left out is
   * newer than one kept.
   */
  function RecentTrades(trades: seq<Trade>, count: int): (r: seq<Trade>)
    ensures SortedDesc(r, TimeKey)
    ensures multiset(r) <= multiset(trades)
    ensures 0 <= count ==> |r| == MinInt(count, |trades|)
    ensures forall t, k :: t in trades && t !in r && k in r ==> k.timestamp >= t.timestamp
  {
    var sorted := SortDesc(trades, TimeKey);
    var r := Take(sorted, count);
    SortDescSorted(trades, TimeKey);
    SortDescPermutation(trades, TimeKey);
    PrefixOfSorted(sorted, |r|);
    PrefixKeepsNewest(trades, |r|);
    r
  }

  /** A prefix of a sorted sequence is sorted and a sub-multiset of it. */
  lemma PrefixOfSorted(s: seq<Trade>, n: nat)
    requires n <= |s| && SortedDesc(s, TimeKey)
    ensures SortedDesc(s[..n], TimeKey)
    ensures multiset(s[..n]) <= multiset(s)
  {
    assert s == s[..n] + s[n..];
    calc {
      multiset(s);
      multiset(s[..n] + s[n..]);
      multiset(s[..n]) + multiset(s[n..]);
    }
  }

  /** Every trade outside the first `n` of the newest-first order is no newer than each of those `n`. */
  lemma PrefixKeepsNewest(trades: seq<Trade>, n: nat)
    requires n <= |trades|
    ensures var kept := SortDesc(trades, TimeKey)[..n];
            forall t, k :: t in trades && t !in kept && k in kept ==> k.timestamp >= t.timestamp
  {
    var sorted := SortDesc(trades, TimeKey);
    var kept := sorted[..n];
    SortDescSorted(trades, TimeKey);
    forall t, k | t in trades && t !in kept && k in kept
      ensures k.timestamp >= t.timestamp
    {
      SortDescMembers(trades, TimeKey, t);
      var j :| 0 <= j < |sorted| && sorted[j] == t;
      var i :| 0 <= i < n && kept[i] == k;
      assert sorted[i] == k;
      assert TimeKey(sorted[i]) >= TimeKey(sorted[j]);
    }
  }

  /** The ids already stored for a market. */
  function StoredIds(trades: seq<Trade>): set<string>
  {
    set t | t in trades :: t.tradeId
  }

  /** The batch's trades whose id is not among `existing`, in batch order. */
  function NewTrades(batch: seq<Trade>, existing: set<string>): (r: seq<Trade>)
    ensures |r| <= |batch|
    ensures forall t :: t in r <==> t in batch && t.tradeId !in existing
    ensures (forall t :: t in batch ==> t.tradeId in existing) ==> r == []
  {
    if batch == [] then []
    else
      var last := batch[|batch| - 1];
      NewTrades(batch[..|batch| - 1], existing) + (if last.tradeId !in existing then [last] else [])
  }

  /**
   * The market's trades followed by the batch's trades whose id is not
   * already stored (a batch that repeats an id within itself keeps both
   * copies).
   */
  function Appended(stored: seq<Trade>, batch: seq<Trade>): (r: seq<Trade>)
    ensures |stored| <= |r| <= |stored| + |batch| && r[..|stored|] == stored
    ensures forall t :: t in r[|stored|..] <==> t in batch && t.tradeId !in StoredIds(stored)
  {
    var newTrades := NewTrades(batch, StoredIds(stored));
    assert (stored + newTrades)[|stored|..] == newTrades;
    stored + newTrades
  }

  /**
   * `add_trades` on one market: the new trades are appended, the update
   * time is set, and a market over the limit keeps only its `maxTrades`
   * newest trades. With a non-negative limit the market ends within it;
   * below the limit nothing is dropped; above it no dropped trade is newer
   * than a kept one.
   */
  function Merge(h: MarketTradeHistory, batch: seq<Trade>, now: int, maxTrades: int): (r: MarketTradeHistory)
    ensures r.ticker == h.ticker && r.lastUpdated == Some(now)
    ensures 0 <= maxTrades ==> |r.trades| <= maxTrades
    ensures |Appended(h.trades, batch)| <= maxTrades ==> r.trades == Appended(h.trades, batch)
    ensures 0 <= maxTrades < |Appended(h.trades, batch)| ==> |r.trades| == maxTrades && SortedDesc(r.trades, TimeKey)
    ensures multiset(r.trades) <= multiset(Appended(h.trades, batch))
    ensures forall t, k :: t in Appended(h.trades, batch) && t !in r.trades && k in r.trades ==>
              k.timestamp >= t.timestamp
  {
    var all := Appended(h.trades, batch);
    var kept := if |all| > maxTrades then RecentTrades(all, maxTrades) else all;
    MarketTradeHistory(h.ticker, kept, Some(now))
  }

  /** No trade is added whose id was already stored: every trade after a merge was stored before or is a batch trade with a new id. */
  lemma MergeAddsOnlyNewIds(h: MarketTradeHistory, batch: seq<Trade>, now: int, maxTrades: int)
    ensures forall t :: t in Merge(h, batch, now, maxTrades).trades ==>
              t in h.trades || (t in batch && forall u :: u in h.trades ==> u.tradeId != t.tradeId)
  {
    var all := Appended(h.trades, batch);
    var r := Merge(h, batch, now, maxTrades).trades;
    forall t | t in r
      ensures t in h.trades || (t in batch && forall u :: u in h.trades ==> u.tradeId != t.tradeId)
    {
      assert t in multiset(r);
      assert t in multiset(all);
      var i :| 0 <= i < |all| && all[i] == t;
      if i < |h.trades| {
        assert all[..|h.trades|][i] == t;
      } else {
        assert all[|h.trades|..][i - |h.trades|] == t;
        assert t.tradeId !in StoredIds(h.trades);
      }
    }
  }

  /** A batch whose ids are all stored already leaves a market within the limit unchanged, apart from its update time. */
  lemma MergeOfKnownIdsChangesNothing(h: MarketTradeHistory, batch: seq<Trade>, now: int, maxTrades: int)
    requires |h.trades| <= maxTrades
    requires forall t :: t in batch ==> exists u :: u in h.trades && u.tradeId == t.tradeId
    ensures Merge(h, batch, now, maxTrades).trades == h.trades
  {
    assert forall t :: t in batch ==> t.tradeId in StoredIds(h.trades);
    assert NewTrades(batch, StoredIds(h.trades)) == [];
    assert Appended(h.trades, batch) == h.trades;
  }

  // ----- get_trades -----

  /**
   * `get_trades` on a known market: the trades at or after `since` (when
   * given), newest first, cut to `limit` when it is given and non-zero (a
   * limit of 0 is falsy in Python and so means no limit).
   */
  function SelectTrades(trades: seq<Trade>, since: Option<int>, limit: Option<int>): (r: seq<Trade>)
    ensures SortedDesc(r, TimeKey)
    ensures forall t :: t in r ==> t in trades && (since.Some? ==> t.timestamp >= since.value)
    ensures limit.Some? && limit.value > 0 ==>
              |r| == MinInt(limit.value, |Since(trades, since)|) &&
              forall t, k :: t in Since(trades, since) && t !in r && k in r ==> k.timestamp >= t.timestamp
    ensures limit.Some? && limit.value < 0 ==> |r| == MaxInt(0, |Since(trades, since)| + limit.value)
    ensures limit.None? || limit.value == 0 ==>
              multiset(r) == multiset(Since(trades, since)) &&
              forall t :: t in trades && (since.Some? ==> t.timestamp >= since.value) ==> t in r
  {
    var filtered := Since(trades, since);
    var sorted := SortDesc(filtered, TimeKey);
    SortDescSorted(filtered, TimeKey);
    SortDescPermutation(filtered, TimeKey);
    if limit.Some? && limit.value != 0 then
      var r := Take(sorted, limit.value);
      PrefixOfSorted(sorted, |r|);
      assert forall t :: t in r ==> t in multiset(filtered);
      if limit.value > 0 then
        PrefixKeepsNewest(filtered, |r|);
        r
      else r
    else
      assert forall t :: t in filtered ==> t in multiset(sorted);
      assert forall t :: t in sorted ==> t in multiset(filtered);
      sorted
  }

  /** The trades `get_trades` considers: those at or after `since` when it is given, otherwise all. */
  function Since(trades: seq<Trade>, since: Option<int>): (r: seq<Trade>)
    ensures forall t :: t in r <==> t in trades && (since.Some? ==> t.timestamp >= since.value)
  {
    if since.Some? then TradesSince(trades, since.value) else trades
  }

  /** A limit of 0 returns the same trades as no limit at all. */
  lemma ZeroLimitMeansNoLimit(trades: seq<Trade>, since: Option<int>)
    ensures SelectTrades(trades, since, Some(0)) == SelectTrades(trades, since, None)
  {
  }

  // ----- compute_trade_metrics -----

  /** The metrics of `compute_trade_metrics`, without the clustering score. */
  datatype TradeMetrics = TradeMetrics(
    flowImbalance: real,
    priceVelocity: real,
    volumeRate: real,
    avgTradeSize: real,
    largeTradeRatio: real)

  const ZeroMetrics := TradeMetrics(0.0, 0.0, 0.0, 0.0, 0.0)

  /** `sorted(trades, key=timestamp)[0]`: the first of the trades with the smallest timestamp. */
  function Earliest(trades: seq<Trade>): (e: Trade)
    requires trades != []
    ensures e in trades
    ensures forall t :: t in trades ==> e.timestamp <= t.timestamp
  {
    if |trades| == 1 then trades[0]
    else
      var rest := Earliest(trades[1..]);
      assert forall t :: t in trades ==> t == trades[0] || t in trades[1..];
      if trades[0].timestamp <= rest.timestamp then trades[0] else rest
  }

  /** `sorted(trades, key=timestamp)[-1]`: the last of the trades with the largest timestamp. */
  function Latest(trades: seq<Trade>): (l: Trade)
    requires trades != []
    ensures l in trades
    ensures forall t :: t in trades ==> t.timestamp <= l.timestamp
  {
    if |trades| == 1 then trades[0]
    else
      var rest := Latest(trades[1..]);
      assert forall t :: t in trades ==> t == trades[0] || t in trades[1..];
      if trades[0].timestamp > rest.timestamp then trades[0] else rest
  }

  /** The price change in cents per minute between the earliest and the latest trade, over at least one minute. */
  function PriceVelocity(trades: seq<Trade>): (v: real)
    ensures |trades| < 2 ==> v == 0.0
    ensures |trades| >= 2 ==> (v > 0.0 <==> Latest(trades).price > Earliest(trades).price)
    ensures |trades| >= 2 ==> (v < 0.0 <==> Latest(trades).price < Earliest(trades).price)
    ensures |trades| >= 2 ==>
              Mul(v, Max(1.0, (Latest(trades).timestamp - Earliest(trades).timestamp) as real / 60.0))
              == (Latest(trades).price - Earliest(trades).price) * 100.0
  {
    if |trades| >= 2 then
      var first := Earliest(trades);
      var last := Latest(trades);
      var spanMinutes := (last.timestamp - first.timestamp) as real / 60.0;
      var span := Max(1.0, spanMinutes);
      DivSign((last.price - first.price) * 100.0, span);
      QuotientTimesDivisor((last.price - first.price) * 100.0, span);
      (last.price - first.price) * 100.0 / span
    else 0.0
  }

  /**
   * The flow imbalance: contracts bought by takers less those sold, as a
   * share of the volume; 0 without volume, and within [-1, 1] when no
   * count is negative.
   */
  function FlowImbalance(trades: seq<Trade>): (q: real)
    ensures Volume(trades, Everything) == 0 ==> q == 0.0
    ensures Volume(trades, Everything) > 0 ==>
              Mul(q, Volume(trades, Everything) as real)
                == (Volume(trades, BuyerInitiated) - Volume(trades, SellerInitiated)) as real
    ensures NonNegCounts(trades) ==> -1.0 <= q <= 1.0
  {
    var buy := Volume(trades, BuyerInitiated);
    var sell := Volume(trades, SellerInitiated);
    var total := buy + sell;
    VolumeSplitsBySide(trades);
    FlowBounded(trades);
    if total > 0 then
      var q := (buy - sell) as real / total as real;
      QuotientTimesDivisor((buy - sell) as real, total as real);
      q
    else 0.0
  }

  /**
   * The large-trade ratio: the share of the volume traded in trades of
   * more than 50 contracts; 0 without volume, and within [0, 1] when no
   * count is negative.
   */
  function LargeTradeRatio(trades: seq<Trade>): (q: real)
    ensures Volume(trades, Everything) == 0 ==> q == 0.0
    ensures Volume(trades, Everything) > 0 ==>
              Mul(q, Volume(trades, Everything) as real) == Volume(trades, IsLarge) as real
    ensures NonNegCounts(trades) ==> 0.0 <= q <= 1.0
  {
    var total := Volume(trades, BuyerInitiated) + Volume(trades, SellerInitiated);
    var large := Volume(trades, IsLarge);
    VolumeSplitsBySide(trades);
    FlowBounded(trades);
    if total > 0 then
      var q := large as real / total as real;
      QuotientTimesDivisor(large as real, total as real);
      q
    else 0.0
  }

  /**
   * The metrics over the trades of a window of `windowMinutes` minutes;
   * None where Python divides by a zero window.
   */
  function MetricsOfTrades(trades: seq<Trade>, windowMinutes: int): (r: Option<TradeMetrics>)
    ensures trades == [] ==> r == Some(ZeroMetrics)
    ensures r.None? <==> trades != [] && windowMinutes == 0
    ensures r.Some? && trades != [] ==>
              r.value.flowImbalance == FlowImbalance(trades) && r.value.largeTradeRatio == LargeTradeRatio(trades)
              && r.value.priceVelocity == PriceVelocity(trades)
    ensures r.Some? && trades != [] ==> Mul(r.value.volumeRate, windowMinutes as real) == |trades| as real
    ensures r.Some? && trades != [] ==> Mul(r.value.avgTradeSize, |trades| as real) == Volume(trades, Everything) as real
  {
    if trades == [] then Some(ZeroMetrics)
    else if windowMinutes == 0 then None
    else
      var total := Volume(trades, BuyerInitiated) + Volume(trades, SellerInitiated);
      VolumeSplitsBySide(trades);
      QuotientTimesDivisor(|trades| as real, windowMinutes as real);
      QuotientTimesDivisor(total as real, |trades| as real);
      Some(TradeMetrics(FlowImbalance(trades), PriceVelocity(trades), |trades| as real / windowMinutes as real,
                        total as real / |trades| as real, LargeTradeRatio(trades)))
  }

  /** With no negative counts and some volume, the flow imbalance lies in [-1, 1] and the large-trade ratio in [0, 1]. */
  lemma FlowBounded(trades: seq<Trade>)
    ensures var buy := Volume(trades, BuyerInitiated);
            var sell := Volume(trades, SellerInitiated);
            var total := buy + sell;
            NonNegCounts(trades) && total > 0 ==>
              -1.0 <= (buy - sell) as real / total as real <= 1.0 &&
              0.0 <= Volume(trades, IsLarge) as real / total as real <= 1.0
  {
    var buy := Volume(trades, BuyerInitiated);
    var sell := Volume(trades, SellerInitiated);
    var total := buy + sell;
    if NonNegCounts(trades) && total > 0 {
      VolumeBounded(trades, BuyerInitiated);
      VolumeBounded(trades, SellerInitiated);
      VolumeBounded(trades, IsLarge);
      VolumeSplitsBySide(trades);
      DivSignedUnit((buy - sell) as real, total as real);
      DivUnit(Volume(trades, IsLarge) as real, total as real);
    }
  }

  /** 300 contracts bought and 100 sold give a flow imbalance of 0.5. */
  lemma FlowImbalanceExample()
    ensures var ts := [Trade("t1", "TEST", 0, 0.5, 200, Buy, 100.0), Trade("t2", "TEST", 0, 0.5, 100, Buy, 50.0),
                       Trade("t3", "TEST", 0, 0.5, 100, Sell, 50.0)];
            MetricsOfTrades(ts, 60).Some? && MetricsOfTrades(ts, 60).value.flowImbalance == 0.5
  {
    var ts := [Trade("t1", "TEST", 0, 0.5, 200, Buy, 100.0), Trade("t2", "TEST", 0, 0.5, 100, Buy, 50.0),
               Trade("t3", "TEST", 0, 0.5, 100, Sell, 50.0)];
    VolumeExample(ts, BuyerInitiated);
    VolumeExample(ts, SellerInitiated);
    VolumeSplitsBySide(ts);
    assert Volume(ts, Everything) == 400;
    var q := FlowImbalance(ts);
    assert Mul(q, 400.0) == 200.0;
  }

  /** 100 of 150 contracts in trades of more than 50 give a large-trade ratio of 2/3. */
  lemma LargeTradeRatioExample()
    ensures var ts := [Trade("t1", "TEST", 0, 0.5, 100, Buy, 50.0), Trade("t2", "TEST", 0, 0.5, 20, Buy, 10.0),
                       Trade("t3", "TEST", 0, 0.5, 30, Buy, 15.0)];
            MetricsOfTrades(ts, 60).Some? && MetricsOfTrades(ts, 60).value.largeTradeRatio == 100.0 / 150.0
  {
    var ts := [Trade("t1", "TEST", 0, 0.5, 100, Buy, 50.0), Trade("t2", "TEST", 0, 0.5, 20, Buy, 10.0),
               Trade("t3", "TEST", 0, 0.5, 30, Buy, 15.0)];
    VolumeExample(ts, BuyerInitiated);
    VolumeExample(ts, SellerInitiated);
    VolumeExample(ts, IsLarge);
    VolumeSplitsBySide(ts);
    assert Volume(ts, Everything) == 150 && Volume(ts, IsLarge) == 100;
    var q := LargeTradeRatio(ts);
    assert Mul(q, 150.0) == 100.0;
  }

  /** The volume of three trades, one term per trade. */
  lemma VolumeExample(ts: seq<Trade>, f: Trade -> bool)
    requires |ts| == 3
    ensures Volume(ts, f) == (if f(ts[0]) then ts[0].count else 0) + (if f(ts[1]) then ts[1].count else 0)
                             + (if f(ts[2]) then ts[2].count else 0)
  {
    assert ts[..2][..1] == [ts[0]];
    assert [ts[0]][..0] == [];
    assert Volume([ts[0]], f) == (if f(ts[0]) then ts[0].count else 0);
    assert Volume(ts[..2], f) == Volume([ts[0]], f) + (if f(ts[1]) then ts[1].count else 0);
  }

  // ----- The store -----

  /** The key sequence after `dict.pop(key)`: the others in their order. */
  function RemoveKey(keys: seq<string>, key: string): (r: seq<string>)
    ensures forall k :: k in r <==> k in keys && k != key
    ensures NoDuplicates(keys) ==> NoDuplicates(r)
  {
    if keys == [] then []
    else
      var rest := RemoveKey(keys[1..], key);
      if keys[0] == key then rest
      else
        assert NoDuplicates(keys) ==> keys[0] !in keys[1..];
        [keys[0]] + rest
  }

  /**
   * `TradeHistoryStore`: a map from ticker to its market history; `tickers`
   * is the map's insertion order, which `get_all_tickers` returns.
   */
  class TradeHistoryStore {
    const config: TradeHistoryConfig
    var history: map<string, MarketTradeHistory>
    var tickers: seq<string>

    ghost predicate Valid()
      reads this
    {
      NoDuplicates(tickers) && (forall k :: k in history <==> k in tickers)
    }

    /** A missing configuration means the default one. */
    constructor(config: Option<TradeHistoryConfig>)
      ensures Valid()
      ensures this.config == config.GetOr(DefaultTradeHistoryConfig)
      ensures history == map[] && tickers == []
    {
      this.config := config.GetOr(DefaultTradeHistoryConfig);
      history := map[];
      tickers := [];
    }

    /** `add_trades`: creates the market on first use, then merges the batch into it. */
    method AddTrades(ticker: string, trades: seq<Trade>, now: int)
      requires Valid()
      modifies this
      ensures Valid()
      ensures var h := if ticker in old(history) then old(history)[ticker] else MarketTradeHistory(ticker, [], None);
              history == old(history)[ticker := Merge(h, trades, now, config.maxTradesPerMarket)]
      ensures tickers == old(tickers) + (if ticker in old(history) then [] else [ticker])
    {
      var h := MarketTradeHistory(ticker, [], None);
      if ticker in history {
        h := history[ticker];
      } else {
        tickers := tickers + [ticker];
      }
      history := history[ticker := Merge(h, trades, now, config.maxTradesPerMarket)];
    }

    /** `get_history`. */
    function GetHistory(ticker: string): (r: Option<MarketTradeHistory>)
      reads this
      ensures r.Some? <==> ticker in history
      ensures r.Some? ==> r.value == history[ticker]
    {
      if ticker in history then Some(history[ticker]) else None
    }

    /** `get_trades`: an unknown market yields no trades. */
    function GetTrades(ticker: string, since: Option<int>, limit: Option<int>): (r: seq<Trade>)
      reads this
      ensures ticker !in history ==> r == []
      ensures ticker in history ==> r == SelectTrades(history[ticker].trades, since, limit)
    {
      if ticker in history then SelectTrades(history[ticker].trades, since, limit) else []
    }

    /** `get_all_tickers`: every stored market once, in insertion order. */
    function GetAllTickers(): (r: seq<string>)
      reads this
      requires Valid()
      ensures NoDuplicates(r) && forall k :: k in r <==> k in history
    {
      tickers
    }

    /**
     * `clear`: a non-empty ticker removes just that market; no ticker, or
     * the empty string (which Python treats as false), removes them all.
     */
    method Clear(ticker: Option<string>)
      requires Valid()
      modifies this
      ensures Valid()
      ensures ticker.Some? && ticker.value != "" ==>
                history == old(history) - {ticker.value} && tickers == RemoveKey(old(tickers), ticker.value)
      ensures ticker.None? || ticker.value == "" ==> history == map[] && tickers == []
    {
      if ticker.Some? && ticker.value != "" {
        history := history - {ticker.value};
        tickers := RemoveKey(tickers, ticker.value);
      } else {
        history := map[];
        tickers := [];
      }
    }

    /**
     * `compute_trade_metrics` over the trades of the last `windowMinutes`
     * minutes before `now`.
     */
    function ComputeTradeMetrics(ticker: string, windowMinutes: int, now: int): (r: Option<TradeMetrics>)
      reads this
      ensures ticker !in history ==> r == Some(ZeroMetrics)
      ensures r == MetricsOfTrades(GetTrades(ticker, Some(now - windowMinutes * 60), None), windowMinutes)
    {
      MetricsOfTrades(GetTrades(ticker, Some(now - windowMinutes * 60), None), windowMinutes)
    }
  }

}
