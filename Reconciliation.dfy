/**
 * Position and P&L reconciliation (execution/reconciliation.py): local
 * position records keyed by market and side, their comparison with the
 * exchange's positions, and the P&L summary.
 */
module Reconciliation {
  import opened Common

  datatype PositionRecord = PositionRecord(
    marketId: string,
    side: string,
    size: int,
    avgPrice: real,
    currentPrice: Option<real>,
    unrealizedPnl: Option<real>)

  /** A position as the exchange reports it; `position` and `side` are None when the key is missing. */
  datatype ExchangePosition = ExchangePosition(ticker: string, position: Option<int>, side: Option<string>)

  /** A reason the books do not match. */
  datatype Discrepancy =
    | FetchNotImplemented
    | NotOnExchange(marketId: string)
    | SizeMismatch(marketId: string, local: int, exchange: Option<int>)
    | NotLocal(ticker: string)

  datatype ReconciliationResult = ReconciliationResult(
    timestamp: int,
    isMatched: bool,
    localPositions: seq<PositionRecord>,
    exchangePositions: seq<ExchangePosition>,
    discrepancies: seq<Discrepancy>)

  datatype PnlSummary = PnlSummary(realizedPnl: real, unrealizedPnl: real, totalPnl: real, positions: int)

  /** The dictionary key of a market and side, `f"{market_id}_{side}"`. */
  function PositionKey(marketId: string, side: string): string
  {
    marketId + "_" + side
  }

  // ----- update_local_position -----

  /**
   * A record after `delta` more contracts at `price`: the size grows by
   * `delta`; while it stays positive the average price is the one that
   * keeps the total cost, and otherwise the old average stays.
   */
  function Reweighted(p: PositionRecord, delta: int, price: real): (r: PositionRecord)
    ensures r.size == p.size + delta
    ensures r.(size := p.size, avgPrice := p.avgPrice) == p
    ensures r.size <= 0 ==> r.avgPrice == p.avgPrice
    ensures r.size > 0 ==> Mul(r.avgPrice, r.size as real) == Mul(p.avgPrice, p.size as real) + Mul(price, delta as real)
  {
    var totalCost := Mul(p.avgPrice, p.size as real) + Mul(price, delta as real);
    var size := p.size + delta;
    if size > 0 then
      QuotientTimesDivisor(totalCost, size as real);
      p.(size := size, avgPrice := totalCost / size as real)
    else
      p.(size := size)
  }

  /** Adding to a long position lands the average between the old average and the new price. */
  lemma AverageBetween(p: PositionRecord, delta: int, price: real)
    requires p.size > 0 && delta > 0
    ensures var r := Reweighted(p, delta, price);
            Min(p.avgPrice, price) <= r.avgPrice <= Max(p.avgPrice, price)
  {
    var r := Reweighted(p, delta, price);
    var s := p.size as real;
    var d := delta as real;
    var lo := Min(p.avgPrice, price);
    var hi := Max(p.avgPrice, price);
    ScaleLe(lo, p.avgPrice, s);
    ScaleLe(lo, price, d);
    ScaleLe(p.avgPrice, hi, s);
    ScaleLe(price, hi, d);
    MulCommutes(lo, s);
    MulCommutes(lo, d);
    MulDistributes(lo, s, d);
    MulCommutes(hi, s);
    MulCommutes(hi, d);
    MulDistributes(hi, s, d);
    MulCommutes(lo, s + d);
    MulCommutes(hi, s + d);
    MulCommutes(r.avgPrice, s + d);
    // lo * (s + d) <= avg * (s + d) <= hi * (s + d), and s + d > 0
    if r.avgPrice < lo {
      ScaleLt(r.avgPrice, lo, s + d);
    }
    if r.avgPrice > hi {
      ScaleLt(hi, r.avgPrice, s + d);
    }
  }

  /** More contracts at the average price leave the average unchanged. */
  lemma SamePriceKeepsAverage(p: PositionRecord, delta: int)
    requires p.size + delta > 0
    ensures Reweighted(p, delta, p.avgPrice).avgPrice == p.avgPrice
  {
    var r := Reweighted(p, delta, p.avgPrice);
    var n := (p.size + delta) as real;
    MulDistributes(p.avgPrice, p.size as real, delta as real);
    MulDivCancel(r.avgPrice, n);
    MulDivCancel(p.avgPrice, n);
  }

  // ----- reconcile -----

  /** `exchange_by_market`: each ticker's position, the last one listed winning. */
  function ExchangeByMarket(ps: seq<ExchangePosition>): (m: map<string, ExchangePosition>)
    ensures forall p :: p in ps ==> p.ticker in m
    ensures forall t :: t in m ==> m[t] in ps && m[t].ticker == t
    ensures ps != [] ==> m[ps[|ps| - 1].ticker] == ps[|ps| - 1]
  {
    if ps == [] then map[]
    else
      var last := ps[|ps| - 1];
      var m := ExchangeByMarket(ps[..|ps| - 1]);
      assert forall p :: p in ps[..|ps| - 1] ==> p in ps;
      assert forall p :: p in ps ==> p in ps[..|ps| - 1] || p == last;
      m[last.ticker := last]
  }

  /** The keys of `exchange_by_market` in dictionary order: each ticker once, where it first appears. */
  function Tickers(ps: seq<ExchangePosition>): (r: seq<string>)
    ensures NoDuplicates(r)
    ensures forall t :: t in r <==> t in ExchangeByMarket(ps)
  {
    if ps == [] then []
    else
      var last := ps[|ps| - 1];
      var r := Tickers(ps[..|ps| - 1]);
      assert forall p :: p in ps[..|ps| - 1] ==> p in ps;
      assert forall p :: p in ps ==> p in ps[..|ps| - 1] || p == last;
      if last.ticker in r then r else r + [last.ticker]
  }

  /** A local record the exchange confirms: its market is there with the same size. */
  predicate Confirmed(p: PositionRecord, exchange: map<string, ExchangePosition>)
  {
    p.marketId in exchange && exchange[p.marketId].position == Some(p.size)
  }

  /** The discrepancy one local record raises, if any. */
  function LocalCheck(p: PositionRecord, exchange: map<string, ExchangePosition>): (r: seq<Discrepancy>)
    ensures r == [] <==> Confirmed(p, exchange)
    ensures p.marketId !in exchange ==> r == [NotOnExchange(p.marketId)]
    ensures p.marketId in exchange && !Confirmed(p, exchange) ==>
              r == [SizeMismatch(p.marketId, p.size, exchange[p.marketId].position)]
  {
    if p.marketId !in exchange then [NotOnExchange(p.marketId)]
    else if exchange[p.marketId].position != Some(p.size) then
      [SizeMismatch(p.marketId, p.size, exchange[p.marketId].position)]
    else []
  }

  /** The first pass of `reconcile`: the local records under `keys`, in order. */
  function LocalChecks(records: map<string, PositionRecord>, keys: seq<string>,
                       exchange: map<string, ExchangePosition>): (r: seq<Discrepancy>)
    requires forall k :: k in keys ==> k in records
    ensures |r| <= |keys|
    ensures r == [] <==> forall k :: k in keys ==> Confirmed(records[k], exchange)
  {
    if keys == [] then []
    else
      var init := keys[..|keys| - 1];
      assert forall k :: k in init ==> k in keys;
      assert forall k :: k in keys ==> k in init || k == keys[|keys| - 1];
      LocalChecks(records, init, exchange) + LocalCheck(records[keys[|keys| - 1]], exchange)
  }

  /** An exchange position with a local record under its ticker and side, YES when no side is given. */
  predicate KnownLocally(ticker: string, p: ExchangePosition, records: map<string, PositionRecord>)
  {
    PositionKey(ticker, p.side.GetOr("YES")) in records
  }

  /** The second pass of `reconcile`: the exchange's tickers in `tickers`, in order. */
  function ExchangeChecks(tickers: seq<string>, exchange: map<string, ExchangePosition>,
                          records: map<string, PositionRecord>): (r: seq<Discrepancy>)
    requires forall t :: t in tickers ==> t in exchange
    ensures |r| <= |tickers|
    ensures r == [] <==> forall t :: t in tickers ==> KnownLocally(t, exchange[t], records)
    ensures forall d :: d in r ==> d.NotLocal? && d.ticker in tickers
  {
    if tickers == [] then []
    else
      var init := tickers[..|tickers| - 1];
      var last := tickers[|tickers| - 1];
      assert forall t :: t in init ==> t in tickers;
      assert forall t :: t in tickers ==> t in init || t == last;
      ExchangeChecks(init, exchange, records) +
      (if KnownLocally(last, exchange[last], records) then [] else [NotLocal(last)])
  }

  /** `list(local_positions.values())`: the records in key order. */
  function Values(records: map<string, PositionRecord>, keys: seq<string>): (r: seq<PositionRecord>)
    requires forall k :: k in keys ==> k in records
    ensures |r| == |keys| && forall i :: 0 <= i < |keys| ==> r[i] == records[keys[i]]
  {
    if keys == [] then []
    else
      assert forall k :: k in keys[..|keys| - 1] ==> k in keys;
      Values(records, keys[..|keys| - 1]) + [records[keys[|keys| - 1]]]
  }

  /**
   * What `reconcile` returns, given what fetching the exchange's positions
   * gave (None: the fetch is not implemented and raised). Without a fetch
   * the books never match; with one, they match exactly when there is no
   * discrepancy.
   */
  function ReconcileResult(records: map<string, PositionRecord>, keys: seq<string>,
                           fetched: Option<seq<ExchangePosition>>, now: int): (r: ReconciliationResult)
    requires forall k :: k in keys ==> k in records
    ensures r.timestamp == now && r.localPositions == Values(records, keys)
    ensures fetched.None? ==> !r.isMatched && r.exchangePositions == [] && r.discrepancies == [FetchNotImplemented]
    ensures fetched.Some? ==> r.exchangePositions == fetched.value && (r.isMatched <==> r.discrepancies == [])
  {
    match fetched
    case None => ReconciliationResult(now, false, Values(records, keys), [], [FetchNotImplemented])
    case Some(ps) =>
      var exchange := ExchangeByMarket(ps);
      var discrepancies := LocalChecks(records, keys, exchange) + ExchangeChecks(Tickers(ps), exchange, records);
      ReconciliationResult(now, discrepancies == [], Values(records, keys), ps, discrepancies)
  }

  /**
   * With the exchange's positions fetched, the books match exactly when
   * every local record is confirmed and every exchange position is known
   * locally.
   */
  lemma MatchedIffBooksAgree(records: map<string, PositionRecord>, keys: seq<string>,
                             ps: seq<ExchangePosition>, now: int)
    requires forall k :: k in keys ==> k in records
    ensures var exchange := ExchangeByMarket(ps);
            ReconcileResult(records, keys, Some(ps), now).isMatched <==>
              (forall k :: k in keys ==> Confirmed(records[k], exchange)) &&
              (forall t :: t in exchange ==> KnownLocally(t, exchange[t], records))
  {
    var exchange := ExchangeByMarket(ps);
    var local := LocalChecks(records, keys, exchange);
    var remote := ExchangeChecks(Tickers(ps), exchange, records);
    RemoteAgrees(ps, records);
    assert |local + remote| == |local| + |remote|;
  }

  /** No exchange discrepancy exactly when every ticker the exchange reports is known locally. */
  lemma RemoteAgrees(ps: seq<ExchangePosition>, records: map<string, PositionRecord>)
    ensures var exchange := ExchangeByMarket(ps);
            ExchangeChecks(Tickers(ps), exchange, records) == [] <==>
              forall t :: t in exchange ==> KnownLocally(t, exchange[t], records)
  {
  }

  // ----- get_pnl_summary -----

  /** The unrealised P&L of a priced record: a YES position gains as the price rises, a NO position as it falls. */
  function UnrealizedPnl(p: PositionRecord): (r: real)
    requires p.currentPrice.Some?
    ensures p.size > 0 && p.side == "YES" ==> (r > 0.0 <==> p.currentPrice.value > p.avgPrice)
    ensures p.size > 0 && p.side != "YES" ==> (r > 0.0 <==> p.currentPrice.value < p.avgPrice)
  {
    var gain := if p.side == "YES" then p.currentPrice.value - p.avgPrice else p.avgPrice - p.currentPrice.value;
    PnlSign(gain, p.size as real);
    Mul(gain, p.size as real)
  }

  /** The same position held on the other side has the opposite P&L. */
  lemma OppositeSidesOppositePnl(p: PositionRecord)
    requires p.currentPrice.Some?
    ensures UnrealizedPnl(p.(side := "YES")) == -UnrealizedPnl(p.(side := "NO"))
  {
    PnlSign(p.currentPrice.value - p.avgPrice, p.size as real);
  }

  lemma PnlSign(gain: real, size: real)
    ensures size > 0.0 ==> (Mul(gain, size) > 0.0 <==> gain > 0.0)
    ensures Mul(-gain, size) == -Mul(gain, size)
  {
    if size > 0.0 && gain > 0.0 {
      PosProduct(gain, size);
    } else if size > 0.0 {
      NonNegProduct(-gain, size);
    }
  }

  /** A record after the P&L pass: a priced record gets its unrealised P&L, an unpriced one is untouched. */
  function Priced(p: PositionRecord): (r: PositionRecord)
    ensures p.currentPrice.None? ==> r == p
    ensures p.currentPrice.Some? ==> r == p.(unrealizedPnl := Some(UnrealizedPnl(p)))
  {
    if p.currentPrice.None? then p else p.(unrealizedPnl := Some(UnrealizedPnl(p)))
  }

  /** The total unrealised P&L of the priced records under `keys`. */
  function Unrealized(records: map<string, PositionRecord>, keys: seq<string>): (r: real)
    requires forall k :: k in keys ==> k in records
    ensures (forall k :: k in keys ==> records[k].currentPrice.None?) ==> r == 0.0
  {
    if keys == [] then 0.0
    else
      var init := keys[..|keys| - 1];
      var p := records[keys[|keys| - 1]];
      assert forall k :: k in init ==> k in keys;
      Unrealized(records, init) + (if p.currentPrice.Some? then UnrealizedPnl(p) else 0.0)
  }

  // ----- the reconciler -----

  /** The first loop of `reconcile`: each local record, in key order, checked against the exchange. */
  method CheckLocal(records: map<string, PositionRecord>, keys: seq<string>, exchange: map<string, ExchangePosition>)
    returns (discrepancies: seq<Discrepancy>)
    requires forall k :: k in keys ==> k in records
    ensures discrepancies == LocalChecks(records, keys, exchange)
  {
    discrepancies := [];
    for i := 0 to |keys|
      invariant discrepancies == LocalChecks(records, keys[..i], exchange)
    {
      assert keys[..i + 1][..i] == keys[..i];
      discrepancies := discrepancies + LocalCheck(records[keys[i]], exchange);
    }
    assert keys[..|keys|] == keys;
  }

  /** The second loop of `reconcile`: each exchange ticker without a local record under its side is reported. */
  method CheckExchange(tickers: seq<string>, exchange: map<string, ExchangePosition>, records: map<string, PositionRecord>)
    returns (discrepancies: seq<Discrepancy>)
    requires forall t :: t in tickers ==> t in exchange
    ensures discrepancies == ExchangeChecks(tickers, exchange, records)
  {
    discrepancies := [];
    for j := 0 to |tickers|
      invariant discrepancies == ExchangeChecks(tickers[..j], exchange, records)
    {
      var ticker := tickers[j];
      assert tickers[..j + 1][..j] == tickers[..j];
      if PositionKey(ticker, exchange[ticker].side.GetOr("YES")) !in records {
        discrepancies := discrepancies + [NotLocal(ticker)];
      }
    }
    assert tickers[..|tickers|] == tickers;
  }

  /**
   * The loop of `get_pnl_summary`: every priced record under `keys` gets
   * its unrealised P&L, and the P&L values are summed.
   */
  method PriceAll(records: map<string, PositionRecord>, keys: seq<string>)
    returns (priced: map<string, PositionRecord>, unrealized: real)
    requires NoDuplicates(keys) && forall k :: k in records <==> k in keys
    ensures priced.Keys == records.Keys
    ensures forall k :: k in priced ==> priced[k] == Priced(records[k])
    ensures unrealized == Unrealized(records, keys)
  {
    priced := records;
    unrealized := 0.0;
    for i := 0 to |keys|
      invariant priced.Keys == records.Keys
      invariant unrealized == Unrealized(records, keys[..i])
      invariant forall j :: 0 <= j < |keys| ==>
                  priced[keys[j]] == if j < i then Priced(records[keys[j]]) else records[keys[j]]
    {
      assert keys[..i + 1][..i] == keys[..i];
      assert forall j :: 0 <= j < |keys| && j != i ==> keys[j] != keys[i];
      var key := keys[i];
      var pos := priced[key];
      if pos.currentPrice.Some? {
        var pnl := UnrealizedPnl(pos);
        priced := priced[key := pos.(unrealizedPnl := Some(pnl))];
        unrealized := unrealized + pnl;
      }
    }
    assert keys[..|keys|] == keys;
    forall k | k in priced
      ensures priced[k] == Priced(records[k])
    {
      var j :| 0 <= j < |keys| && keys[j] == k;
    }
  }

  /**
   * `Reconciliation`: the local records by key (`keys` is the dictionary's
   * insertion order) and the last successful reconciliation. The API
   * client is not part of this model.
   */
  class Reconciler {
    var records: map<string, PositionRecord>
    var keys: seq<string>
    var lastReconciliation: Option<ReconciliationResult>

    ghost predicate Valid()
      reads this
    {
      NoDuplicates(keys) && forall k :: k in records <==> k in keys
    }

    /** `__init__`: no records and no reconciliation yet. */
    constructor()
      ensures Valid()
      ensures records == map[] && keys == [] && lastReconciliation.None?
    {
      records := map[];
      keys := [];
      lastReconciliation := None;
    }

    /**
     * `update_local_position`: the first trade of a market and side opens
     * a record at its price; later trades reweight it.
     */
    method UpdateLocalPosition(marketId: string, side: string, sizeDelta: int, price: real)
      requires Valid()
      modifies this
      ensures Valid() && lastReconciliation == old(lastReconciliation)
      ensures var key := PositionKey(marketId, side);
              if key in old(records) then
                records == old(records)[key := Reweighted(old(records)[key], sizeDelta, price)] && keys == old(keys)
              else
                records == old(records)[key := PositionRecord(marketId, side, sizeDelta, price, None, None)] &&
                keys == old(keys) + [key]
    {
      var key := PositionKey(marketId, side);
      if key in records {
        var pos := records[key];
        var totalCost := Mul(pos.avgPrice, pos.size as real) + Mul(price, sizeDelta as real);
        pos := pos.(size := pos.size + sizeDelta);
        if pos.size > 0 {
          pos := pos.(avgPrice := totalCost / pos.size as real);
        }
        records := records[key := pos];
      } else {
        records := records[key := PositionRecord(marketId, side, sizeDelta, price, None, None)];
        keys := keys + [key];
      }
    }

    /**
     * `reconcile`, given what fetching the exchange's positions gave. A
     * failed fetch returns an unmatched result and does not record it.
     */
    method Reconcile(fetched: Option<seq<ExchangePosition>>, now: int) returns (result: ReconciliationResult)
      requires Valid()
      modifies this
      ensures Valid() && records == old(records) && keys == old(keys)
      ensures result == ReconcileResult(records, keys, fetched, now)
      ensures lastReconciliation == if fetched.None? then old(lastReconciliation) else Some(result)
    {
      if fetched.None? {
        return ReconciliationResult(now, false, Values(records, keys), [], [FetchNotImplemented]);
      }
      var ps := fetched.value;
      var exchange := ExchangeByMarket(ps);
      var local := CheckLocal(records, keys, exchange);
      var remote := CheckExchange(Tickers(ps), exchange, records);
      var discrepancies := local + remote;
      result := ReconciliationResult(now, |discrepancies| == 0, Values(records, keys), ps, discrepancies);
      lastReconciliation := Some(result);
    }

    /**
     * `get_pnl_summary`: stores each priced record's unrealised P&L and
     * sums it; realised P&L is always 0, and `positions` counts the records.
     */
    method GetPnlSummary() returns (s: PnlSummary)
      requires Valid()
      modifies this
      ensures Valid() && keys == old(keys) && lastReconciliation == old(lastReconciliation)
      ensures records.Keys == old(records).Keys
      ensures forall k :: k in records ==> records[k] == Priced(old(records)[k])
      ensures s.realizedPnl == 0.0 && s.unrealizedPnl == Unrealized(old(records), keys)
      ensures s.totalPnl == s.realizedPnl + s.unrealizedPnl && s.positions == |records|
    {
      var unrealized;
      records, unrealized := PriceAll(records, keys);
      MapSizeOfKeys(records, keys);
      s := PnlSummary(0.0, unrealized, 0.0 + unrealized, |keys|);
    }
  }
}
