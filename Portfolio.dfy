/**
 * Portfolio exposure control (strategy/portfolio.py): the open positions,
 * their dollar exposure overall and per market, event and league, the
 * limit check for a proposed recommendation, and the correlation pass
 * that halves, flags, resizes or drops recommendations.
 */
module Portfolio {
  import opened Common
  import opened Signals
  import opened Ranker

  datatype PortfolioPosition = PortfolioPosition(
    marketId: string,
    eventId: string,
    league: string,
    direction: Direction,
    size: int,
    entryPrice: real,
    currentPrice: Option<real>)

  /** `exposure`: contracts times the price paid. */
  function Exposure(p: PortfolioPosition): real
  {
    Mul(p.size as real, p.entryPrice)
  }

  /** `pnl`: the unrealised profit at the current price, unknown without one. */
  function Pnl(p: PortfolioPosition): (r: Option<real>)
    ensures r.None? <==> p.currentPrice.None?
    ensures r.Some? && p.size > 0 ==> (r.value > 0.0 <==> p.currentPrice.value > p.entryPrice)
  {
    if p.currentPrice.None? then None
    else
      var gain := p.currentPrice.value - p.entryPrice;
      if p.size > 0 && gain > 0.0 then
        PosProduct(gain, p.size as real);
        Some(Mul(gain, p.size as real))
      else if p.size > 0 then
        NonNegProduct(-gain, p.size as real);
        assert (-gain) * (p.size as real) == -(gain * p.size as real);
        Some(Mul(gain, p.size as real))
      else Some(Mul(gain, p.size as real))
  }

  datatype PortfolioLimits = PortfolioLimits(
    maxTotalExposure: real,
    maxPerMarket: real,
    maxPerEvent: real,
    maxPerLeague: real,
    maxCorrelated: real)

  const DefaultPortfolioLimits := PortfolioLimits(5000.0, 500.0, 1000.0, 2000.0, 1500.0)

  /** Which positions an exposure sum ranges over. */
  datatype Scope = All | Market(marketId: Option<string>) | Event(eventId: string) | League(league: string)

  predicate InScope(p: PortfolioPosition, scope: Scope)
  {
    match scope
    case All => true
    case Market(m) => m == Some(p.marketId)
    case Event(e) => p.eventId == e
    case League(l) => p.league == l
  }

  /** `sum(p.exposure for p in positions if ...)`. */
  function ScopedExposure(ps: seq<PortfolioPosition>, scope: Scope): real
  {
    if ps == [] then 0.0
    else ScopedExposure(ps[..|ps| - 1], scope) + (if InScope(ps[|ps| - 1], scope) then Exposure(ps[|ps| - 1]) else 0.0)
  }

  /** Positions outside the scope contribute nothing. */
  lemma {:induction false} ScopedExposureEmpty(ps: seq<PortfolioPosition>, scope: Scope)
    requires forall i :: 0 <= i < |ps| ==> !InScope(ps[i], scope)
    ensures ScopedExposure(ps, scope) == 0.0
  {
    if ps != [] {
      ScopedExposureEmpty(ps[..|ps| - 1], scope);
    }
  }

  /** Adding one position adds its exposure to every scope it belongs to. */
  lemma ScopedExposureAppend(ps: seq<PortfolioPosition>, p: PortfolioPosition, scope: Scope)
    ensures ScopedExposure(ps + [p], scope) == ScopedExposure(ps, scope) + (if InScope(p, scope) then Exposure(p) else 0.0)
  {
    assert (ps + [p])[..|ps|] == ps;
  }

  /** With long positions at non-negative prices, each scope's exposure is part of the total. */
  lemma {:induction false} ScopedWithinTotal(ps: seq<PortfolioPosition>, scope: Scope)
    requires forall i :: 0 <= i < |ps| ==> ps[i].size >= 0 && ps[i].entryPrice >= 0.0
    ensures 0.0 <= ScopedExposure(ps, scope) <= ScopedExposure(ps, All)
  {
    if ps != [] {
      var last := ps[|ps| - 1];
      ScopedWithinTotal(ps[..|ps| - 1], scope);
      ScopedWithinTotal(ps[..|ps| - 1], All);
      MulBounds(last.size as real, last.entryPrice);
    }
  }

  /** The cap a recommendation is measured against, for each limit. */
  function Cap(limits: PortfolioLimits, l: Limit): real
  {
    match l
    case TotalLimit => limits.maxTotalExposure
    case MarketLimit => limits.maxPerMarket
    case EventLimit => limits.maxPerEvent
    case LeagueLimit => limits.maxPerLeague
  }

  /** The positions a limit sums over for a given recommendation. */
  function ScopeOf(rec: Recommendation, l: Limit): Scope
  {
    match l
    case TotalLimit => All
    case MarketLimit => Market(rec.marketId)
    case EventLimit => Event(rec.eventId)
    case LeagueLimit => League(rec.league)
  }

  /** `rec.entry_price * rec.max_size`. */
  function Proposed(rec: Recommendation): real
  {
    Mul(rec.entryPrice, rec.maxSize as real)
  }

  /** The exposure a limit still allows. */
  function Headroom(limits: PortfolioLimits, ps: seq<PortfolioPosition>, rec: Recommendation, l: Limit): real
  {
    Cap(limits, l) - ScopedExposure(ps, ScopeOf(rec, l))
  }

  predicate Exceeds(limits: PortfolioLimits, ps: seq<PortfolioPosition>, rec: Recommendation, l: Limit)
  {
    ScopedExposure(ps, ScopeOf(rec, l)) + Proposed(rec) > Cap(limits, l)
  }

  /** Whether a flag list reports a violation of limit `l`. */
  predicate Flags(flags: seq<RiskFlag>, l: Limit)
  {
    exists f :: f in flags && f.LimitViolation? && f.limit == l
  }

  /** The violation entry for one limit: present exactly when the limit is exceeded. */
  function Violation(limits: PortfolioLimits, ps: seq<PortfolioPosition>, rec: Recommendation, l: Limit): (flags: seq<RiskFlag>)
    ensures |flags| <= 1 && (flags != [] <==> Exceeds(limits, ps, rec, l))
    ensures forall f :: f in flags ==> f.LimitViolation? && f.limit == l && f.exposure > f.cap
  {
    var exposure := ScopedExposure(ps, ScopeOf(rec, l)) + Proposed(rec);
    if Exceeds(limits, ps, rec, l) then [LimitViolation(l, exposure, Cap(limits, l))] else []
  }

  /**
   * `check_limits`: one violation per limit (total, market, event,
   * league) that the proposed exposure would push past its cap; allowed
   * exactly when there is none.
   */
  function CheckLimits(limits: PortfolioLimits, ps: seq<PortfolioPosition>, rec: Recommendation): (r: (bool, seq<RiskFlag>))
    ensures r.0 <==> r.1 == []
    ensures r.0 <==> forall l: Limit :: !Exceeds(limits, ps, rec, l)
    ensures forall l: Limit :: Flags(r.1, l) <==> Exceeds(limits, ps, rec, l)
    ensures forall f :: f in r.1 ==> f.LimitViolation? && f.exposure > f.cap
    ensures |r.1| <= 4
  {
    var total := Violation(limits, ps, rec, TotalLimit);
    var market := Violation(limits, ps, rec, MarketLimit);
    var event := Violation(limits, ps, rec, EventLimit);
    var league := Violation(limits, ps, rec, LeagueLimit);
    var violations := total + market + event + league;
    ViolationsFlag(total, market, event, league, limits, ps, rec);
    (violations == [], violations)
  }

  lemma ViolationsFlag(total: seq<RiskFlag>, market: seq<RiskFlag>, event: seq<RiskFlag>, league: seq<RiskFlag>,
                       limits: PortfolioLimits, ps: seq<PortfolioPosition>, rec: Recommendation)
    requires total == Violation(limits, ps, rec, TotalLimit) && market == Violation(limits, ps, rec, MarketLimit)
    requires event == Violation(limits, ps, rec, EventLimit) && league == Violation(limits, ps, rec, LeagueLimit)
    ensures forall l: Limit :: Flags(total + market + event + league, l) <==> Exceeds(limits, ps, rec, l)
  {
    var all := total + market + event + league;
    forall l: Limit ensures Flags(all, l) <==> Exceeds(limits, ps, rec, l) {
      var part := match l
        case TotalLimit => total
        case MarketLimit => market
        case EventLimit => event
        case LeagueLimit => league;
      if Exceeds(limits, ps, rec, l) {
        assert part[0] in all;
      }
    }
  }

  /**
   * The money `_size_to_fit` as written has room for: the smallest of the
   * total, event and league headroom and the per-market cap itself.
   */
  function AvailableAsWritten(limits: PortfolioLimits, ps: seq<PortfolioPosition>, rec: Recommendation): (r: real)
    ensures r <= Headroom(limits, ps, rec, TotalLimit) && r <= Headroom(limits, ps, rec, EventLimit)
    ensures r <= Headroom(limits, ps, rec, LeagueLimit) && r <= limits.maxPerMarket
    ensures r == Headroom(limits, ps, rec, TotalLimit) || r == Headroom(limits, ps, rec, EventLimit)
            || r == Headroom(limits, ps, rec, LeagueLimit) || r == limits.maxPerMarket
  {
    Min(Min(Min(Headroom(limits, ps, rec, TotalLimit), Headroom(limits, ps, rec, EventLimit)),
            Headroom(limits, ps, rec, LeagueLimit)), limits.maxPerMarket)
  }

  /**
   * `_size_to_fit` as written: the most whole contracts whose cost fits
   * within AvailableAsWritten, so the market exposure already held is not
   * subtracted; 0 when nothing fits or the price is not positive.
   */
  function SizeToFitAsWritten(limits: PortfolioLimits, ps: seq<PortfolioPosition>, rec: Recommendation): (n: int)
    ensures n >= 0
    ensures n > 0 ==> rec.entryPrice > 0.0 && Mul(n as real, rec.entryPrice) <= AvailableAsWritten(limits, ps, rec)
    ensures rec.entryPrice > 0.0 ==> Mul((n + 1) as real, rec.entryPrice) > AvailableAsWritten(limits, ps, rec)
    ensures n > 0 ==> Mul(n as real, rec.entryPrice) <= limits.maxPerMarket
    ensures n > 0 ==> forall l: Limit :: l != MarketLimit ==> Mul(n as real, rec.entryPrice) <= Headroom(limits, ps, rec, l)
  {
    var available := AvailableAsWritten(limits, ps, rec);
    if available <= 0.0 || rec.entryPrice <= 0.0 then 0
    else
      TruncQuotientBounds(available, rec.entryPrice);
      Trunc(available / rec.entryPrice)
  }

  /**
   * A position of 1000 contracts at 0.50 already fills the 500 market cap.
   * A 100-contract recommendation in the same market and event is over the
   * market cap, and the resize meant to make it fit returns 1000
   * contracts, ten times the original, still over the market cap.
   */
  lemma SizeToFitAsWrittenGrowsPastMarketCap()
    ensures var ps := [PortfolioPosition("M", "E", "L", Yes, 1000, 0.5, None)];
            var rec := Recommendation(Some("M"), "E", "L", Yes, 0.5, 100, 0.05, None, [], [], 0.5, 0.5);
            var resized := SizeToFitAsWritten(DefaultPortfolioLimits, ps, rec);
            !CheckLimits(DefaultPortfolioLimits, ps, rec).0
            && resized == 1000 && resized > rec.maxSize
            && Exceeds(DefaultPortfolioLimits, ps, rec.(maxSize := resized), MarketLimit)
  {
    var ps := [PortfolioPosition("M", "E", "L", Yes, 1000, 0.5, None)];
    var rec := Recommendation(Some("M"), "E", "L", Yes, 0.5, 100, 0.05, None, [], [], 0.5, 0.5);
    assert ps[..0] == [];
    assert Exposure(ps[0]) == 500.0;
    assert ScopedExposure(ps, Market(Some("M"))) == 500.0;
    assert Exceeds(DefaultPortfolioLimits, ps, rec, MarketLimit);
    assert Trunc(500.0 / 0.5) == 1000;
  }

  /** The money the intended resize has room for: the smallest headroom over every limit, the market one included. */
  function Available(limits: PortfolioLimits, ps: seq<PortfolioPosition>, rec: Recommendation): (r: real)
    ensures forall l: Limit :: r <= Headroom(limits, ps, rec, l)
    ensures exists l: Limit :: r == Headroom(limits, ps, rec, l)
  {
    var r := Min(Min(Min(Headroom(limits, ps, rec, TotalLimit), Headroom(limits, ps, rec, EventLimit)),
                     Headroom(limits, ps, rec, LeagueLimit)), Headroom(limits, ps, rec, MarketLimit));
    r
  }

  /**
   * `_size_to_fit` as intended: the most whole contracts that fit within
   * the headroom of every limit, the market one included.
   */
  function SizeToFit(limits: PortfolioLimits, ps: seq<PortfolioPosition>, rec: Recommendation): (n: int)
    ensures n >= 0
    ensures n > 0 ==> rec.entryPrice > 0.0 &&
                      forall l: Limit :: Mul(n as real, rec.entryPrice) <= Headroom(limits, ps, rec, l)
    ensures rec.entryPrice > 0.0 ==> Mul((n + 1) as real, rec.entryPrice) > Available(limits, ps, rec)
  {
    var available := Available(limits, ps, rec);
    if available <= 0.0 || rec.entryPrice <= 0.0 then 0
    else
      TruncQuotientBounds(available, rec.entryPrice);
      Trunc(available / rec.entryPrice)
  }

  /** A recommendation resized by `SizeToFit` to a positive size passes `check_limits`. */
  lemma SizeToFitFits(limits: PortfolioLimits, ps: seq<PortfolioPosition>, rec: Recommendation)
    requires SizeToFit(limits, ps, rec) > 0
    ensures CheckLimits(limits, ps, rec.(maxSize := SizeToFit(limits, ps, rec))).0
  {
    var n := SizeToFit(limits, ps, rec);
    var resized := rec.(maxSize := n);
    MulCommutes(rec.entryPrice, n as real);
    forall l: Limit ensures !Exceeds(limits, ps, resized, l) {
      assert Headroom(limits, ps, resized, l) == Headroom(limits, ps, rec, l);
    }
  }

  /** A recommendation that breaks some limit is not enlarged by `SizeToFit`. */
  lemma SizeToFitShrinks(limits: PortfolioLimits, ps: seq<PortfolioPosition>, rec: Recommendation)
    requires !CheckLimits(limits, ps, rec).0
    ensures SizeToFit(limits, ps, rec) <= rec.maxSize || rec.maxSize < 0
  {
    var n := SizeToFit(limits, ps, rec);
    if n > rec.maxSize && rec.maxSize >= 0 {
      var l :| Exceeds(limits, ps, rec, l);
      ScaleLe(rec.maxSize as real, n as real, rec.entryPrice);
      MulCommutes(rec.entryPrice, rec.maxSize as real);
      assert false;
    }
  }

  /** Some position in the recommendation's event. */
  predicate HasEventPosition(ps: seq<PortfolioPosition>, rec: Recommendation)
  {
    exists i :: 0 <= i < |ps| && ps[i].eventId == rec.eventId
  }

  /** Some position in the recommendation's event on the same side. */
  predicate HasSameDirection(ps: seq<PortfolioPosition>, rec: Recommendation)
  {
    exists i :: 0 <= i < |ps| && ps[i].eventId == rec.eventId && ps[i].direction == rec.contract
  }

  /** The correlation step: halve and flag for the same side of a held event, flag the opposite side. */
  function Correlate(ps: seq<PortfolioPosition>, rec: Recommendation): (r: Recommendation)
    ensures r == rec.(maxSize := r.maxSize, riskFlags := r.riskFlags)
    ensures !HasEventPosition(ps, rec) ==> r == rec
    ensures HasSameDirection(ps, rec) ==>
              r.riskFlags == rec.riskFlags + [CorrelatedPosition] && r.maxSize == Trunc(rec.maxSize as real * 0.5)
    ensures HasEventPosition(ps, rec) && !HasSameDirection(ps, rec) ==>
              r.riskFlags == rec.riskFlags + [OppositePositionExists] && r.maxSize == rec.maxSize
  {
    if !HasEventPosition(ps, rec) then rec
    else if HasSameDirection(ps, rec) then
      rec.(maxSize := Trunc(rec.maxSize as real * 0.5), riskFlags := rec.riskFlags + [CorrelatedPosition])
    else rec.(riskFlags := rec.riskFlags + [OppositePositionExists])
  }

  /**
   * One recommendation through `adjust_for_correlation`: the correlation
   * step, then, when limits are broken, the violations appended to the
   * flags and the size refitted by `_size_to_fit` as written. Only the
   * size and the flags change, and a size is never made negative.
   */
  function Adjust(limits: PortfolioLimits, ps: seq<PortfolioPosition>, rec: Recommendation): (r: Recommendation)
    ensures r == rec.(maxSize := r.maxSize, riskFlags := r.riskFlags)
    ensures rec.maxSize >= 0 ==> r.maxSize >= 0
  {
    var c := Correlate(ps, rec);
    var check := CheckLimits(limits, ps, c);
    if check.0 then c
    else c.(riskFlags := c.riskFlags + check.1, maxSize := SizeToFitAsWritten(limits, ps, c))
  }

  /**
   * The flags gain the correlation flag, if any, and then the limit
   * violations; the size is refitted exactly when some limit is broken.
   */
  lemma AdjustEffect(limits: PortfolioLimits, ps: seq<PortfolioPosition>, rec: Recommendation)
    ensures var r := Adjust(limits, ps, rec);
            var c := Correlate(ps, rec);
            var check := CheckLimits(limits, ps, c);
            r.riskFlags == c.riskFlags + check.1
            && (check.0 <==> r.riskFlags == c.riskFlags)
            && r.maxSize == (if check.0 then c.maxSize else SizeToFitAsWritten(limits, ps, c))
  {
  }

  /**
   * What the pass as written does guarantee: a recommendation it keeps
   * with a positive size fits the total, event and league limits, and it
   * either fits the market limit or its own exposure alone is within the
   * market cap.
   */
  lemma AdjustFitsAllButMarket(limits: PortfolioLimits, ps: seq<PortfolioPosition>, rec: Recommendation)
    requires Adjust(limits, ps, rec).maxSize > 0
    ensures forall l: Limit :: l != MarketLimit ==> !Exceeds(limits, ps, Adjust(limits, ps, rec), l)
    ensures !Exceeds(limits, ps, Adjust(limits, ps, rec), MarketLimit) ||
            Proposed(Adjust(limits, ps, rec)) <= limits.maxPerMarket
  {
    var c := Correlate(ps, rec);
    var r := Adjust(limits, ps, rec);
    if !CheckLimits(limits, ps, c).0 {
      var n := SizeToFitAsWritten(limits, ps, c);
      MulCommutes(c.entryPrice, n as real);
      forall l: Limit | l != MarketLimit ensures !Exceeds(limits, ps, r, l) {
        assert Headroom(limits, ps, r, l) == Headroom(limits, ps, c, l);
      }
    }
  }

  /**
   * As written the pass can enlarge a recommendation past the market cap:
   * the held position of `SizeToFitAsWrittenGrowsPastMarketCap` halves a
   * 100-contract recommendation to 50, which is still over the market cap
   * and is then refitted to 1000 contracts.
   */
  lemma AdjustAsWrittenGrows()
    ensures var ps := [PortfolioPosition("M", "E", "L", Yes, 1000, 0.5, None)];
            var rec := Recommendation(Some("M"), "E", "L", Yes, 0.5, 100, 0.05, None, [], [], 0.5, 0.5);
            var r := Adjust(DefaultPortfolioLimits, ps, rec);
            r.maxSize == 1000 && Exceeds(DefaultPortfolioLimits, ps, r, MarketLimit)
  {
    var ps := [PortfolioPosition("M", "E", "L", Yes, 1000, 0.5, None)];
    var rec := Recommendation(Some("M"), "E", "L", Yes, 0.5, 100, 0.05, None, [], [], 0.5, 0.5);
    assert ps[..0] == [];
    assert Exposure(ps[0]) == 500.0;
    assert ScopedExposure(ps, Market(Some("M"))) == 500.0;
    assert HasSameDirection(ps, rec) by { assert ps[0].eventId == rec.eventId && ps[0].direction == rec.contract; }
    var c := Correlate(ps, rec);
    assert c.maxSize == 50;
    assert Exceeds(DefaultPortfolioLimits, ps, c, MarketLimit);
    assert Trunc(500.0 / 0.5) == 1000;
  }

  /** The recommendations the pass returns: the adjusted ones of at least 10 contracts, in order. */
  function Kept(recs: seq<Recommendation>): (r: seq<Recommendation>)
    ensures forall x :: x in r <==> x in recs && x.maxSize >= 10
  {
    if recs == [] then []
    else Kept(recs[..|recs| - 1]) + (if recs[|recs| - 1].maxSize >= 10 then [recs[|recs| - 1]] else [])
  }

  lemma KeptSnoc(recs: seq<Recommendation>, x: Recommendation)
    ensures Kept(recs + [x]) == Kept(recs) + (if x.maxSize >= 10 then [x] else [])
  {
    assert (recs + [x])[..|recs|] == recs;
  }

  /** The correlation-adjusted list of a sequence of recommendations, one for one. */
  function AdjustAll(limits: PortfolioLimits, ps: seq<PortfolioPosition>, recs: seq<Recommendation>): (r: seq<Recommendation>)
    ensures |r| == |recs|
    ensures forall i :: 0 <= i < |recs| ==> r[i] == Adjust(limits, ps, recs[i])
  {
    var r := MapSeq(rec => Adjust(limits, ps, rec), recs);
    forall i | 0 <= i < |recs| ensures r[i] == Adjust(limits, ps, recs[i]) {
      MapSeqAt(rec => Adjust(limits, ps, rec), recs, i);
    }
    r
  }

  /**
   * Everything `adjust_for_correlation` returns is at least 10 contracts,
   * within the total, event and league limits, and within the market
   * limit unless its own exposure alone fits the market cap.
   */
  lemma AdjustForCorrelationBounds(limits: PortfolioLimits, ps: seq<PortfolioPosition>, recs: seq<Recommendation>)
    ensures forall r :: r in Kept(AdjustAll(limits, ps, recs)) ==>
              r.maxSize >= 10 && (forall l: Limit :: l != MarketLimit ==> !Exceeds(limits, ps, r, l)) &&
              (!Exceeds(limits, ps, r, MarketLimit) || Proposed(r) <= limits.maxPerMarket)
  {
    var adjusted := AdjustAll(limits, ps, recs);
    forall r | r in Kept(adjusted)
      ensures r.maxSize >= 10 && (forall l: Limit :: l != MarketLimit ==> !Exceeds(limits, ps, r, l)) &&
              (!Exceeds(limits, ps, r, MarketLimit) || Proposed(r) <= limits.maxPerMarket)
    {
      var i :| 0 <= i < |adjusted| && adjusted[i] == r;
      AdjustFitsAllButMarket(limits, ps, recs[i]);
    }
  }

  // ----- the pass with the corrected refit -----

  /** `adjust_for_correlation` with the corrected `SizeToFit`. */
  function AdjustCorrected(limits: PortfolioLimits, ps: seq<PortfolioPosition>, rec: Recommendation): (r: Recommendation)
    ensures r == rec.(maxSize := r.maxSize, riskFlags := r.riskFlags)
    ensures r.riskFlags == Adjust(limits, ps, rec).riskFlags
  {
    var c := Correlate(ps, rec);
    var check := CheckLimits(limits, ps, c);
    if check.0 then c
    else c.(riskFlags := c.riskFlags + check.1, maxSize := SizeToFit(limits, ps, c))
  }

  /** Corrected: every recommendation kept with a positive size fits every limit. */
  lemma AdjustCorrectedFitsLimits(limits: PortfolioLimits, ps: seq<PortfolioPosition>, rec: Recommendation)
    requires AdjustCorrected(limits, ps, rec).maxSize > 0
    ensures CheckLimits(limits, ps, AdjustCorrected(limits, ps, rec)).0
  {
    var c := Correlate(ps, rec);
    if !CheckLimits(limits, ps, c).0 {
      SizeToFitFits(limits, ps, c);
      assert AdjustCorrected(limits, ps, rec).(riskFlags := c.riskFlags) == c.(maxSize := SizeToFit(limits, ps, c));
      forall l: Limit ensures !Exceeds(limits, ps, AdjustCorrected(limits, ps, rec), l) {
        assert !Exceeds(limits, ps, c.(maxSize := SizeToFit(limits, ps, c)), l);
      }
    }
  }

  /** Corrected: the pass never enlarges a recommendation and never makes a size negative. */
  lemma AdjustCorrectedNeverGrows(limits: PortfolioLimits, ps: seq<PortfolioPosition>, rec: Recommendation)
    requires rec.maxSize >= 0
    ensures 0 <= AdjustCorrected(limits, ps, rec).maxSize <= rec.maxSize
  {
    var c := Correlate(ps, rec);
    if !CheckLimits(limits, ps, c).0 {
      SizeToFitShrinks(limits, ps, c);
    }
  }

  /** Corrected: everything the pass returns is at least 10 contracts and within every limit. */
  lemma AdjustForCorrelationCorrectedSafe(limits: PortfolioLimits, ps: seq<PortfolioPosition>, recs: seq<Recommendation>)
    ensures forall r :: r in Kept(MapSeq(rec => AdjustCorrected(limits, ps, rec), recs)) ==>
              r.maxSize >= 10 && CheckLimits(limits, ps, r).0
  {
    var adjusted := MapSeq(rec => AdjustCorrected(limits, ps, rec), recs);
    forall r | r in Kept(adjusted) ensures r.maxSize >= 10 && CheckLimits(limits, ps, r).0 {
      var i :| 0 <= i < |adjusted| && adjusted[i] == r;
      MapSeqAt(rec => AdjustCorrected(limits, ps, rec), recs, i);
      AdjustCorrectedFitsLimits(limits, ps, recs[i]);
    }
  }

  /** `PortfolioManager`: the limits and the open positions, which callers add and clear. */
  class PortfolioManager {
    var limits: PortfolioLimits
    var positions: seq<PortfolioPosition>

    constructor(limits: Option<PortfolioLimits>)
      ensures this.limits == limits.GetOr(DefaultPortfolioLimits) && positions == []
    {
      this.limits := limits.GetOr(DefaultPortfolioLimits);
      positions := [];
    }

    method AddPosition(p: PortfolioPosition)
      modifies this
      ensures positions == old(positions) + [p] && limits == old(limits)
      ensures TotalExposure() == old(TotalExposure()) + Exposure(p)
    {
      ScopedExposureAppend(positions, p, All);
      positions := positions + [p];
    }

    method Clear()
      modifies this
      ensures positions == [] && limits == old(limits)
      ensures TotalExposure() == 0.0
    {
      positions := [];
    }

    /** `total_exposure`: the exposure of all positions (see `ScopedWithinTotal`). */
    function TotalExposure(): (r: real)
      reads this
      ensures positions == [] ==> r == 0.0
    {
      ScopedExposure(positions, All)
    }

    /**
     * `exposure_by_league` (by = League) and `exposure_by_event`
     * (by = Event): one entry per key held, the exposure of its positions.
     */
    method ExposureBy(byLeague: bool) returns (m: map<string, real>)
      ensures m == GroupExposure(positions, byLeague)
      ensures Grouped(positions, m, byLeague)
    {
      m := map[];
      for i := 0 to |positions|
        invariant m == GroupExposure(positions[..i], byLeague)
      {
        assert positions[..i + 1][..i] == positions[..i];
        m := AddExposure(m, positions[i], byLeague);
      }
      assert positions[..|positions|] == positions;
      GroupExposureGrouped(positions, byLeague);
    }

    /**
     * `adjust_for_correlation`: every recommendation is adjusted in place
     * (as the source mutates the objects it is given), and those of at
     * least 10 contracts are returned in their original order.
     */
    method AdjustForCorrelation(recs: array<Recommendation>) returns (adjusted: seq<Recommendation>)
      modifies recs
      ensures recs[..] == AdjustAll(limits, positions, old(recs[..]))
      ensures adjusted == Kept(recs[..])
    {
      var updated := AdjustAll(limits, positions, recs[..]);
      adjusted := StoreAndKeep(recs, updated);
    }
  }

  /** Writes each adjusted recommendation back into its slot and collects those of at least 10 contracts. */
  method StoreAndKeep(recs: array<Recommendation>, updated: seq<Recommendation>) returns (adjusted: seq<Recommendation>)
    requires |updated| == recs.Length
    modifies recs
    ensures recs[..] == updated
    ensures adjusted == Kept(updated)
  {
    adjusted := [];
    for i := 0 to recs.Length
      invariant recs[..i] == updated[..i]
      invariant adjusted == Kept(updated[..i])
    {
      recs[i] := updated[i];
      KeptSnoc(updated[..i], updated[i]);
      assert updated[..i + 1] == updated[..i] + [updated[i]];
      if updated[i].maxSize >= 10 {
        adjusted := adjusted + [updated[i]];
      }
    }
    assert recs[..] == recs[..recs.Length];
    assert updated == updated[..recs.Length];
  }

  /** `by_key[key] = by_key.get(key, 0) + p.exposure`. */
  function AddExposure(m: map<string, real>, p: PortfolioPosition, byLeague: bool): map<string, real>
  {
    var k := Key(p, byLeague);
    m[k := (if k in m then m[k] else 0.0) + Exposure(p)]
  }

  /** The dictionary the grouping loop builds. */
  function GroupExposure(ps: seq<PortfolioPosition>, byLeague: bool): map<string, real>
  {
    if ps == [] then map[] else AddExposure(GroupExposure(ps[..|ps| - 1], byLeague), ps[|ps| - 1], byLeague)
  }

  lemma {:induction false} GroupExposureGrouped(ps: seq<PortfolioPosition>, byLeague: bool)
    ensures Grouped(ps, GroupExposure(ps, byLeague), byLeague)
  {
    if ps != [] {
      var init := ps[..|ps| - 1];
      GroupExposureGrouped(init, byLeague);
      GroupedStep(init, ps[|ps| - 1], GroupExposure(init, byLeague), byLeague);
      assert init + [ps[|ps| - 1]] == ps;
    }
  }

  /** `m` holds one entry per key among `ps`, with that key's exposure. */
  ghost predicate Grouped(ps: seq<PortfolioPosition>, m: map<string, real>, byLeague: bool)
  {
    (forall k :: k in m <==> exists j :: 0 <= j < |ps| && Key(ps[j], byLeague) == k)
    && (forall k :: k in m ==> m[k] == ScopedExposure(ps, KeyScope(k, byLeague)))
  }

  lemma GroupedStep(ps: seq<PortfolioPosition>, p: PortfolioPosition, m: map<string, real>, byLeague: bool)
    requires Grouped(ps, m, byLeague)
    ensures Grouped(ps + [p], AddExposure(m, p, byLeague), byLeague)
  {
    var k := Key(p, byLeague);
    var ps' := ps + [p];
    var m' := AddExposure(m, p, byLeague);
    if k !in m {
      forall j | 0 <= j < |ps| ensures !InScope(ps[j], KeyScope(k, byLeague)) {
        assert Key(ps[j], byLeague) != k;
      }
      ScopedExposureEmpty(ps, KeyScope(k, byLeague));
    }
    forall k' | k' in m' ensures m'[k'] == ScopedExposure(ps', KeyScope(k', byLeague)) {
      ScopedExposureAppend(ps, p, KeyScope(k', byLeague));
    }
    forall k' ensures k' in m' <==> exists j :: 0 <= j < |ps'| && Key(ps'[j], byLeague) == k' {
      if k' in m' && k' != k {
        var j :| 0 <= j < |ps| && Key(ps[j], byLeague) == k';
        assert ps'[j] == ps[j];
      }
      if k' == k {
        assert ps'[|ps|] == p;
      }
    }
  }

  /** The grouping key: the league, or the event. */
  function Key(p: PortfolioPosition, byLeague: bool): string
  {
    if byLeague then p.league else p.eventId
  }

  function KeyScope(k: string, byLeague: bool): (s: Scope)
    ensures forall p :: InScope(p, s) <==> Key(p, byLeague) == k
  {
    if byLeague then League(k) else Event(k)
  }
}
