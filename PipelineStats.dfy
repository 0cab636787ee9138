/**
 * Pipeline statistics (reporting/pipeline_stats.py): the counts each stage
 * of one pipeline run leaves behind (markets polled, signals generated,
 * markets aggregated, recommendations and watch-list entries), the rates
 * and the funnel derived from them, and the collector that records them
 * stage by stage.
 */
module PipelineStats {
  import opened Common
  import Snapshot
  import opened Signals

  /** The `signals_by_market` dictionary as its entries in insertion order: market id and that market's signals. */
  type SignalsByMarket = seq<(string, seq<Signal>)>

  /** `PipelineStats`; `timestamp` is the clock reading, in seconds, passed in by the caller. */
  datatype Stats = Stats(
    marketsPolled: int,
    marketsByLeague: map<string, int>,
    snapshots: seq<Snapshot.MarketSnapshot>,
    signalsGenerated: int,
    signalsByType: map<string, int>,
    signalsByMarket: SignalsByMarket,
    allSignals: seq<Signal>,
    marketsWithSignals: int,
    marketsAggregated: int,
    aggregationDropoff: int,
    candidatesEvaluated: int,
    filteredByEv: int,
    filteredByConfidence: int,
    recommendationsCount: int,
    watchlistCount: int,
    timestamp: int)

  /** The dataclass defaults: every count zero and every collection empty. */
  function Empty(now: int): (s: Stats)
    ensures s.marketsPolled == 0 && s.signalsGenerated == 0 && s.marketsWithSignals == 0
    ensures s.marketsAggregated == 0 && s.aggregationDropoff == 0 && s.candidatesEvaluated == 0
    ensures s.filteredByEv == 0 && s.filteredByConfidence == 0 && s.recommendationsCount == 0 && s.watchlistCount == 0
    ensures s.marketsByLeague == map[] && s.signalsByType == map[] && s.snapshots == [] && s.signalsByMarket == []
    ensures s.allSignals == [] && s.timestamp == now
  {
    Stats(0, map[], [], 0, map[], [], [], 0, 0, 0, 0, 0, 0, 0, 0, now)
  }

  // ----- rates -----

  /**
   * A percentage `part / whole * 100`, and 0 when the whole is 0. The rate
   * times the whole gives back a hundred times the part, and a part between
   * 0 and a positive whole gives a rate between 0 and 100.
   */
  function Rate(part: int, whole: int): (r: real)
    ensures whole == 0 ==> r == 0.0
    ensures whole != 0 ==> Mul(r, whole as real) == part as real * 100.0
    ensures 0 <= part <= whole ==> 0.0 <= r <= 100.0
  {
    if whole == 0 then 0.0
    else
      PartOfWhole(part as real, whole as real);
      (part as real / whole as real) * 100.0
  }

  lemma PartOfWhole(part: real, whole: real)
    requires whole != 0.0
    ensures Mul(part / whole, whole) == part
    ensures 0.0 <= part <= whole ==> 0.0 <= part / whole <= 1.0
  {
    QuotientTimesDivisor(part, whole);
    if 0.0 <= part <= whole {
      DivUnit(part, whole);
    }
  }

  /** `conversion_rate`: the share of polled markets that became recommendations. */
  function ConversionRate(s: Stats): (r: real)
    ensures s.marketsPolled == 0 ==> r == 0.0
    ensures s.marketsPolled != 0 ==> Mul(r, s.marketsPolled as real) == s.recommendationsCount as real * 100.0
    ensures 0 <= s.recommendationsCount <= s.marketsPolled ==> 0.0 <= r <= 100.0
  {
    Rate(s.recommendationsCount, s.marketsPolled)
  }

  /** `signal_rate`: the share of polled markets with at least one signal. */
  function SignalRate(s: Stats): (r: real)
    ensures s.marketsPolled == 0 ==> r == 0.0
    ensures s.marketsPolled != 0 ==> Mul(r, s.marketsPolled as real) == s.marketsWithSignals as real * 100.0
    ensures 0 <= s.marketsWithSignals <= s.marketsPolled ==> 0.0 <= r <= 100.0
  {
    Rate(s.marketsWithSignals, s.marketsPolled)
  }

  /** `aggregation_pass_rate`: the share of markets with signals that passed aggregation. */
  function AggregationPassRate(s: Stats): (r: real)
    ensures s.marketsWithSignals == 0 ==> r == 0.0
    ensures s.marketsWithSignals != 0 ==> Mul(r, s.marketsWithSignals as real) == s.marketsAggregated as real * 100.0
    ensures 0 <= s.marketsAggregated <= s.marketsWithSignals ==> 0.0 <= r <= 100.0
  {
    Rate(s.marketsAggregated, s.marketsWithSignals)
  }

  // ----- the funnel -----

  /** The decimal digit for 0..9. */
  function Digit(d: int): char
    requires 0 <= d < 10
  {
    "0123456789"[d]
  }

  /** The value of a decimal digit character, and 0 for any other character. */
  function DigitValue(c: char): int
  {
    if '0' <= c <= '9' then (c - '0') as int else 0
  }

  /** The decimal numeral of a natural number, without leading zeros. */
  function NatDecimal(n: nat): (r: string)
    ensures r != [] && forall c :: c in r ==> '0' <= c <= '9'
  {
    if n < 10 then [Digit(n)] else NatDecimal(n / 10) + [Digit(n % 10)]
  }

  /** `f"{n}"`: the decimal numeral of an integer, with a minus sign when negative. */
  function Decimal(n: int): string
  {
    if n < 0 then "-" + NatDecimal(-n) else NatDecimal(n)
  }

  /** The number a string of decimal digits denotes. */
  function ParseNat(s: string): nat
  {
    if s == [] then 0 else ParseNat(s[..|s| - 1]) * 10 + DigitValue(s[|s| - 1])
  }

  /** Reading a numeral back, with its optional minus sign. */
  function ParseDecimal(s: string): int
  {
    if s != [] && s[0] == '-' then -(ParseNat(s[1..]) as int) else ParseNat(s)
  }

  lemma {:induction false} NatDecimalRoundTrip(n: nat)
    ensures ParseNat(NatDecimal(n)) == n
  {
    if n >= 10 {
      var r := NatDecimal(n);
      assert r[..|r| - 1] == NatDecimal(n / 10);
      NatDecimalRoundTrip(n / 10);
    }
  }

  /** Every count in the funnel reads back as itself: distinct counts give distinct numerals. */
  lemma DecimalRoundTrip(n: int)
    ensures ParseDecimal(Decimal(n)) == n
  {
    if n < 0 {
      var d := NatDecimal(-n);
      var s := "-" + d;
      assert s[0] == '-' && s[1..] == d;
      NatDecimalRoundTrip(-n);
    } else {
      var d := NatDecimal(n);
      assert d[0] in d;
      assert d[0] != '-';
      NatDecimalRoundTrip(n);
    }
  }

  /**
   * `funnel`: the five stages in pipeline order, each with its count and a
   * description that opens with the count written in decimal.
   */
  function Funnel(s: Stats): (r: seq<(string, int, string)>)
    ensures |r| == 5
    ensures r[0].0 == "Markets Polled" && r[1].0 == "Signals Generated" && r[2].0 == "Aggregated"
    ensures r[3].0 == "Recommendations" && r[4].0 == "Watchlist"
    ensures r[0].1 == s.marketsPolled && r[1].1 == s.signalsGenerated && r[2].1 == s.marketsAggregated
    ensures r[3].1 == s.recommendationsCount && r[4].1 == s.watchlistCount
    ensures forall i :: 0 <= i < 5 ==>
              var d := Decimal(r[i].1);
              |d| <= |r[i].2| && r[i].2[..|d|] == d
  {
    var polled := Decimal(s.marketsPolled);
    var generated := Decimal(s.signalsGenerated);
    var aggregated := Decimal(s.marketsAggregated);
    var recommended := Decimal(s.recommendationsCount);
    var watched := Decimal(s.watchlistCount);
    var r := [
      ("Markets Polled", s.marketsPolled, polled + " sports markets"),
      ("Signals Generated", s.signalsGenerated,
       generated + " signals from " + Decimal(s.marketsWithSignals) + " markets"),
      ("Aggregated", s.marketsAggregated, aggregated + " markets passed aggregation"),
      ("Recommendations", s.recommendationsCount, recommended + " actionable bets"),
      ("Watchlist", s.watchlistCount, watched + " near-miss opportunities")];
    assert r[0].2[..|polled|] == polled;
    assert r[1].2[..|generated|] == generated;
    assert r[2].2[..|aggregated|] == aggregated;
    assert r[3].2[..|recommended|] == recommended;
    assert r[4].2[..|watched|] == watched;
    r
  }

  // ----- market totals -----

  /**
   * `total_volume`: the traded volume summed over the polled markets; when
   * no volume is negative, it is non-negative and at least each market's.
   */
  function TotalVolume(snapshots: seq<Snapshot.MarketSnapshot>): (r: int)
    ensures snapshots == [] ==> r == 0
    ensures (forall i :: 0 <= i < |snapshots| ==> snapshots[i].volumeTotal >= 0) ==>
              r >= 0 && forall i :: 0 <= i < |snapshots| ==> snapshots[i].volumeTotal <= r
  {
    if snapshots == [] then 0
    else
      var init := snapshots[..|snapshots| - 1];
      assert forall i :: 0 <= i < |init| ==> init[i] == snapshots[i];
      TotalVolume(init) + snapshots[|snapshots| - 1].volumeTotal
  }

  /**
   * `total_depth`: bid plus ask depth summed over the polled markets; when
   * no depth is negative, it is non-negative and at least each market's.
   */
  function TotalDepth(snapshots: seq<Snapshot.MarketSnapshot>): (r: int)
    ensures snapshots == [] ==> r == 0
    ensures (forall i :: 0 <= i < |snapshots| ==> snapshots[i].totalBidDepth >= 0 && snapshots[i].totalAskDepth >= 0) ==>
              r >= 0 && forall i :: 0 <= i < |snapshots| ==> snapshots[i].totalBidDepth + snapshots[i].totalAskDepth <= r
  {
    if snapshots == [] then 0
    else
      var init := snapshots[..|snapshots| - 1];
      assert forall i :: 0 <= i < |init| ==> init[i] == snapshots[i];
      var last := snapshots[|snapshots| - 1];
      TotalDepth(init) + last.totalBidDepth + last.totalAskDepth
  }

  /** Polling two batches of markets adds their volumes and their depths. */
  lemma {:induction false} TotalsAdd(a: seq<Snapshot.MarketSnapshot>, b: seq<Snapshot.MarketSnapshot>)
    ensures TotalVolume(a + b) == TotalVolume(a) + TotalVolume(b)
    ensures TotalDepth(a + b) == TotalDepth(a) + TotalDepth(b)
  {
    if b == [] {
      assert a + b == a;
    } else {
      var init := b[..|b| - 1];
      assert (a + b)[..|a + b| - 1] == a + init;
      TotalsAdd(a, init);
    }
  }

  /** The known spreads of the polled markets, in polling order. */
  function Spreads(snapshots: seq<Snapshot.MarketSnapshot>): (r: seq<real>)
    ensures r == [] <==> forall s :: s in snapshots ==> Snapshot.Spread(s).None?
    ensures forall x :: x in r ==> exists s :: s in snapshots && Snapshot.Spread(s) == Some(x)
  {
    if snapshots == [] then []
    else
      var init := snapshots[..|snapshots| - 1];
      var last := snapshots[|snapshots| - 1];
      assert forall s :: s in init ==> s in snapshots;
      assert forall s :: s in snapshots ==> s in init || s == last;
      var spread := Snapshot.Spread(last);
      Spreads(init) + (if spread.Some? then [spread.value] else [])
  }

  function SumReals(xs: seq<real>): real
  {
    if xs == [] then 0.0 else SumReals(xs[..|xs| - 1]) + xs[|xs| - 1]
  }

  /** `avg_spread`: the mean of the known spreads, and None when no spread is known. */
  function AvgSpread(snapshots: seq<Snapshot.MarketSnapshot>): (r: Option<real>)
    ensures r.None? <==> forall s :: s in snapshots ==> Snapshot.Spread(s).None?
  {
    var spreads := Spreads(snapshots);
    if spreads == [] then None else Some(SumReals(spreads) / |spreads| as real)
  }

  /** A sum of `n` values between `lo` and `hi` lies between `n * lo` and `n * hi`. */
  lemma {:induction false} SumRealsBounds(xs: seq<real>, lo: real, hi: real)
    requires forall x :: x in xs ==> lo <= x <= hi
    ensures Mul(lo, |xs| as real) <= SumReals(xs) <= Mul(hi, |xs| as real)
  {
    if xs != [] {
      var init := xs[..|xs| - 1];
      assert forall x :: x in init ==> x in xs;
      assert xs[|xs| - 1] in xs;
      SumRealsBounds(init, lo, hi);
      MulDistributes(lo, |init| as real, 1.0);
      MulDistributes(hi, |init| as real, 1.0);
    }
  }

  /** When every known spread lies in [lo, hi], so does their mean. */
  lemma AvgSpreadWithin(snapshots: seq<Snapshot.MarketSnapshot>, lo: real, hi: real)
    requires forall s :: s in snapshots && Snapshot.Spread(s).Some? ==> lo <= Snapshot.Spread(s).value <= hi
    ensures AvgSpread(snapshots).Some? ==> lo <= AvgSpread(snapshots).value <= hi
  {
    var spreads := Spreads(snapshots);
    if spreads != [] {
      var n := |spreads| as real;
      SumRealsBounds(spreads, lo, hi);
      DivLe(Mul(lo, n), SumReals(spreads), n);
      DivLe(SumReals(spreads), Mul(hi, n), n);
      MulDivCancel(lo, n);
      MulDivCancel(hi, n);
    }
  }

  // ----- tallies -----

  /** A `defaultdict(int)` lookup: the count under `k`, 0 when absent. */
  function Count(m: map<string, int>, k: string): int
  {
    if k in m then m[k] else 0
  }

  /** The counting loop `counts[x] += 1` over `xs`, starting from an empty `defaultdict(int)`. */
  function Tally(xs: seq<string>): map<string, int>
  {
    if xs == [] then map[]
    else
      var m := Tally(xs[..|xs| - 1]);
      var x := xs[|xs| - 1];
      m[x := Count(m, x) + 1]
  }

  /** The keys of a tally in the order the dictionary holds them: each value where it first occurs. */
  function Distinct(xs: seq<string>): (r: seq<string>)
    ensures NoDuplicates(r)
    ensures forall x :: x in r <==> x in xs
  {
    if xs == [] then []
    else
      var init := xs[..|xs| - 1];
      var x := xs[|xs| - 1];
      assert forall y :: y in init ==> y in xs;
      assert forall y :: y in xs ==> y in init || y == x;
      var d := Distinct(init);
      if x in d then d else d + [x]
  }

  /** `sum(d.values())` over the keys `keys`. */
  function SumOver(keys: seq<string>, m: map<string, int>): int
  {
    if keys == [] then 0 else SumOver(keys[..|keys| - 1], m) + Count(m, keys[|keys| - 1])
  }

  /** A tally has exactly the tallied values as keys, each counted as often as it occurs. */
  lemma {:induction false} TallyCounts(xs: seq<string>)
    ensures forall k :: k in Tally(xs) <==> k in xs
    ensures forall k :: Count(Tally(xs), k) == multiset(xs)[k]
  {
    if xs != [] {
      var init := xs[..|xs| - 1];
      assert xs == init + [xs[|xs| - 1]];
      TallyCounts(init);
    }
  }

  /** Changing entries off the keys leaves the sum over them alone. */
  lemma {:induction false} SumOverAgrees(keys: seq<string>, m: map<string, int>, m': map<string, int>)
    requires forall k :: k in keys ==> Count(m, k) == Count(m', k)
    ensures SumOver(keys, m) == SumOver(keys, m')
  {
    if keys != [] {
      var init := keys[..|keys| - 1];
      assert forall k :: k in init ==> k in keys;
      assert keys[|keys| - 1] in keys;
      SumOverAgrees(init, m, m');
    }
  }

  /** Adding one to the count of a key listed once adds one to the sum. */
  lemma {:induction false} SumOverBump(keys: seq<string>, m: map<string, int>, x: string)
    requires NoDuplicates(keys) && x in keys
    ensures SumOver(keys, m[x := Count(m, x) + 1]) == SumOver(keys, m) + 1
  {
    var init := keys[..|keys| - 1];
    var last := keys[|keys| - 1];
    if last == x {
      assert x !in init;
      SumOverAgrees(init, m, m[x := Count(m, x) + 1]);
    } else {
      assert x in init by {
        var j :| 0 <= j < |keys| && keys[j] == x;
        assert j < |keys| - 1;
        assert init[j] == x;
      }
      SumOverBump(init, m, x);
    }
  }

  /** The counts of a tally, summed over its keys, add up to the number of values tallied. */
  lemma {:induction false} TallySum(xs: seq<string>)
    ensures SumOver(Distinct(xs), Tally(xs)) == |xs|
  {
    if xs != [] {
      var init := xs[..|xs| - 1];
      var x := xs[|xs| - 1];
      var d := Distinct(init);
      var m := Tally(init);
      TallySum(init);
      TallyCounts(init);
      if x in d {
        SumOverBump(d, m, x);
      } else {
        SumOverAgrees(d, m, m[x := Count(m, x) + 1]);
        assert (d + [x])[..|d|] == d;
      }
    }
  }

  // ----- the collector -----

  /** `snapshot.league or "Unknown"`: an empty league name is tallied as "Unknown". */
  function LeagueOf(s: Snapshot.MarketSnapshot): (r: string)
    ensures r != []
  {
    if s.league == "" then "Unknown" else s.league
  }

  function LeagueNames(snapshots: seq<Snapshot.MarketSnapshot>): (r: seq<string>)
    ensures |r| == |snapshots|
  {
    if snapshots == [] then [] else LeagueNames(snapshots[..|snapshots| - 1]) + [LeagueOf(snapshots[|snapshots| - 1])]
  }

  /** The signal names of `signals`, in order. */
  function Names(signals: seq<Signal>): (r: seq<string>)
    ensures |r| == |signals|
  {
    if signals == [] then [] else Names(signals[..|signals| - 1]) + [signals[|signals| - 1].name]
  }

  /** The signals of every market, market after market. */
  function Flatten(entries: SignalsByMarket): seq<Signal>
  {
    if entries == [] then [] else Flatten(entries[..|entries| - 1]) + entries[|entries| - 1].1
  }

  /** The number of signals summed over the markets' lists. */
  function TotalLength(entries: SignalsByMarket): int
  {
    if entries == [] then 0 else TotalLength(entries[..|entries| - 1]) + |entries[|entries| - 1].1|
  }

  /** The flattened list holds as many signals as the markets' lists together, and each of their signals. */
  lemma {:induction false} FlattenKeepsSignals(entries: SignalsByMarket)
    ensures |Flatten(entries)| == TotalLength(entries)
    ensures forall i, sig :: 0 <= i < |entries| && sig in entries[i].1 ==> sig in Flatten(entries)
  {
    if entries != [] {
      var init := entries[..|entries| - 1];
      FlattenKeepsSignals(init);
      forall i, sig | 0 <= i < |entries| && sig in entries[i].1
        ensures sig in Flatten(entries)
      {
        if i < |init| {
          assert entries[i] == init[i];
        }
      }
    }
  }

  /**
   * After `record_snapshots`, the league counts add up to the number of
   * markets polled, and each league is counted once per market in it.
   */
  lemma LeagueCountsSumToPolled(snapshots: seq<Snapshot.MarketSnapshot>)
    ensures var names := LeagueNames(snapshots);
            SumOver(Distinct(names), Tally(names)) == |snapshots| &&
            forall league :: Count(Tally(names), league) == multiset(names)[league]
  {
    TallySum(LeagueNames(snapshots));
    TallyCounts(LeagueNames(snapshots));
  }

  /**
   * After `record_signals`, the number of signals generated is the sum of
   * the markets' list lengths, and the per-type counts add up to it.
   */
  lemma SignalCountsSumToGenerated(entries: SignalsByMarket)
    ensures |Flatten(entries)| == TotalLength(entries)
    ensures var names := Names(Flatten(entries));
            SumOver(Distinct(names), Tally(names)) == TotalLength(entries)
  {
    FlattenKeepsSignals(entries);
    TallySum(Names(Flatten(entries)));
  }

  /** Tallying one more value adds one to its count. */
  lemma TallyOneMore(xs: seq<string>, x: string)
    ensures Tally(xs + [x]) == Tally(xs)[x := Count(Tally(xs), x) + 1]
  {
    assert (xs + [x])[..|xs|] == xs;
  }

  /** Appending one signal appends its name. */
  lemma NamesOneMore(signals: seq<Signal>, signal: Signal)
    ensures Names(signals + [signal]) == Names(signals) + [signal.name]
  {
    assert (signals + [signal])[..|signals|] == signals;
  }

  /** Extending a slice by one element appends that element. */
  lemma AppendNext(prefix: seq<Signal>, s: seq<Signal>, j: int)
    requires 0 <= j < |s|
    ensures prefix + s[..j + 1] == prefix + s[..j] + [s[j]]
  {
    assert s[..j + 1] == s[..j] + [s[j]];
  }

  /** Taking one more market appends its signals. */
  lemma FlattenNext(entries: SignalsByMarket, i: int)
    requires 0 <= i < |entries|
    ensures Flatten(entries[..i + 1]) == Flatten(entries[..i]) + entries[i].1
  {
    assert entries[..i + 1][..i] == entries[..i];
  }

  /** The inner loop of `record_signals`: one market's signals appended in order and tallied by name. */
  method AddSignals(allSignals: seq<Signal>, counts: map<string, int>, signals: seq<Signal>)
    returns (allSignals': seq<Signal>, counts': map<string, int>)
    requires counts == Tally(Names(allSignals))
    ensures allSignals' == allSignals + signals
    ensures counts' == Tally(Names(allSignals'))
  {
    allSignals' := allSignals;
    counts' := counts;
    for j := 0 to |signals|
      invariant allSignals' == allSignals + signals[..j]
      invariant counts' == Tally(Names(allSignals'))
    {
      var signal := signals[j];
      TallyOneMore(Names(allSignals'), signal.name);
      NamesOneMore(allSignals', signal);
      AppendNext(allSignals, signals, j);
      allSignals' := allSignals' + [signal];
      counts' := counts'[signal.name := Count(counts', signal.name) + 1];
    }
    assert signals[..|signals|] == signals;
  }

  /** The outer loop of `record_signals`: the markets' signals flattened in order and tallied by name. */
  method CountSignals(signalsByMarket: SignalsByMarket) returns (allSignals: seq<Signal>, counts: map<string, int>)
    ensures allSignals == Flatten(signalsByMarket)
    ensures counts == Tally(Names(allSignals))
  {
    allSignals := [];
    counts := map[];
    for i := 0 to |signalsByMarket|
      invariant allSignals == Flatten(signalsByMarket[..i])
      invariant counts == Tally(Names(allSignals))
    {
      FlattenNext(signalsByMarket, i);
      allSignals, counts := AddSignals(allSignals, counts, signalsByMarket[i].1);
    }
    assert signalsByMarket[..|signalsByMarket|] == signalsByMarket;
  }

  /** `PipelineStatsCollector`: the statistics of one run, filled in stage by stage. */
  class PipelineStatsCollector {
    var stats: Stats

    /** `__init__`: default statistics stamped with the construction time. */
    constructor(now: int)
      ensures stats == Empty(now)
    {
      stats := Empty(now);
    }

    /** `record_snapshots`: keeps the snapshots, counts them, and tallies them by league. */
    method RecordSnapshots(snapshots: seq<Snapshot.MarketSnapshot>)
      modifies this
      ensures stats == old(stats).(snapshots := snapshots, marketsPolled := |snapshots|,
                                   marketsByLeague := Tally(LeagueNames(snapshots)))
    {
      stats := stats.(snapshots := snapshots, marketsPolled := |snapshots|);
      var counts := map[];
      for i := 0 to |snapshots|
        invariant counts == Tally(LeagueNames(snapshots[..i]))
      {
        assert snapshots[..i + 1][..i] == snapshots[..i];
        var league := LeagueOf(snapshots[i]);
        counts := counts[league := Count(counts, league) + 1];
      }
      assert snapshots[..|snapshots|] == snapshots;
      stats := stats.(marketsByLeague := counts);
    }

    /**
     * `record_signals`: keeps the markets' signals, counts the markets,
     * flattens their signals in order and tallies them by name.
     */
    method RecordSignals(signalsByMarket: SignalsByMarket)
      modifies this
      ensures stats == old(stats).(signalsByMarket := signalsByMarket, marketsWithSignals := |signalsByMarket|,
                                   allSignals := Flatten(signalsByMarket),
                                   signalsGenerated := |Flatten(signalsByMarket)|,
                                   signalsByType := Tally(Names(Flatten(signalsByMarket))))
    {
      stats := stats.(signalsByMarket := signalsByMarket, marketsWithSignals := |signalsByMarket|);
      var allSignals, counts := CountSignals(signalsByMarket);
      stats := stats.(allSignals := allSignals, signalsGenerated := |allSignals|, signalsByType := counts);
    }

    /** `record_aggregation`: the numbers of markets that passed and that were dropped. */
    method RecordAggregation(aggregatedCount: int, droppedCount: int)
      modifies this
      ensures stats == old(stats).(marketsAggregated := aggregatedCount, aggregationDropoff := droppedCount)
    {
      stats := stats.(marketsAggregated := aggregatedCount, aggregationDropoff := droppedCount);
    }

    /**
     * `record_filtering`: the ranking outcome; every candidate evaluated
     * ended up a recommendation or on the watch list.
     */
    method RecordFiltering(recommendationsCount: int, watchlistCount: int, filteredByEv: int, filteredByConfidence: int)
      modifies this
      ensures stats == old(stats).(recommendationsCount := recommendationsCount, watchlistCount := watchlistCount,
                                   filteredByEv := filteredByEv, filteredByConfidence := filteredByConfidence,
                                   candidatesEvaluated := recommendationsCount + watchlistCount)
    {
      stats := stats.(recommendationsCount := recommendationsCount, watchlistCount := watchlistCount,
                      filteredByEv := filteredByEv, filteredByConfidence := filteredByConfidence,
                      candidatesEvaluated := recommendationsCount + watchlistCount);
    }

    /** `finalize`: stamps the statistics with the current time and returns them. */
    method Finalize(now: int) returns (result: Stats)
      modifies this
      ensures stats == old(stats).(timestamp := now) && result == stats
    {
      stats := stats.(timestamp := now);
      result := stats;
    }
  }
}
