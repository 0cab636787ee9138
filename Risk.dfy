/**
 * The pre-trade risk manager (execution/risk.py): limits on order size, on
 * exposure per market, event and league and in total, and on losses; the
 * running exposure and P&L state; and the trading halt.
 */
module Risk {
  import opened Common

  datatype RiskLimits = RiskLimits(
    maxPositionPerMarket: real,
    maxPositionPerEvent: real,
    maxPositionPerLeague: real,
    maxTotalExposure: real,
    maxDailyLoss: real,
    maxWeeklyLoss: real,
    maxDrawdown: real,
    maxOrderSize: int,
    minOrderSize: int,
    minTimeToKickoff: int,
    minTimeToResolution: int)

  const DefaultLimits := RiskLimits(500.0, 1000.0, 2000.0, 5000.0, 500.0, 1000.0, 0.10, 200, 10, 300, 600)

  /** A reason an order is refused, in the order they are checked. */
  datatype Violation =
    | TradingHalted
    | OrderSizeAbove(size: int, max: int)
    | OrderSizeBelow(size: int, min: int)
    | MarketCapExceeded
    | EventCapExceeded
    | LeagueCapExceeded
    | TotalExposureExceeded
    | DailyLossBreached
    | WeeklyLossBreached
    | DrawdownBreached

  /** A dictionary lookup with 0 for a missing key, `d.get(k, 0)`. */
  function Get(m: map<string, real>, k: string): real
  {
    if k in m then m[k] else 0.0
  }

  /**
   * What `check_order` reads: the halt flag, the P&L and drawdown, the
   * exposure already held in the order's market, event and league and in
   * total, and the order's size and dollar exposure.
   */
  datatype OrderCheck = OrderCheck(halted: bool, dailyPnl: real, weeklyPnl: real, drawdown: real,
                                   inMarket: real, inEvent: real, inLeague: real, total: real,
                                   size: int, exposure: real)

  /** The limit each violation stands for, and whether the order breaks it. */
  predicate Breaks(limits: RiskLimits, c: OrderCheck, v: Violation)
  {
    match v
    case TradingHalted => c.halted
    case OrderSizeAbove(_, _) => c.size > limits.maxOrderSize
    case OrderSizeBelow(_, _) => c.size < limits.minOrderSize
    case MarketCapExceeded => c.inMarket + c.exposure > limits.maxPositionPerMarket
    case EventCapExceeded => c.inEvent + c.exposure > limits.maxPositionPerEvent
    case LeagueCapExceeded => c.inLeague + c.exposure > limits.maxPositionPerLeague
    case TotalExposureExceeded => c.total + c.exposure > limits.maxTotalExposure
    case DailyLossBreached => c.dailyPnl < -limits.maxDailyLoss
    case WeeklyLossBreached => c.weeklyPnl < -limits.maxWeeklyLoss
    case DrawdownBreached => c.drawdown > limits.maxDrawdown
  }

  /** Every check, in the order `check_order` runs them. */
  function Checks(limits: RiskLimits, size: int): seq<Violation>
  {
    [TradingHalted, OrderSizeAbove(size, limits.maxOrderSize), OrderSizeBelow(size, limits.minOrderSize),
     MarketCapExceeded, EventCapExceeded, LeagueCapExceeded, TotalExposureExceeded,
     DailyLossBreached, WeeklyLossBreached, DrawdownBreached]
  }

  /** What one check appends: the violation when the order breaks it, nothing otherwise. */
  function Flag(limits: RiskLimits, c: OrderCheck, v: Violation): (r: seq<Violation>)
    ensures forall w :: w in r <==> w == v && Breaks(limits, c, v)
  {
    if Breaks(limits, c, v) then [v] else []
  }

  /** The flags of the checks `vs`, appended one check at a time. */
  function FlagsOf(limits: RiskLimits, c: OrderCheck, vs: seq<Violation>): (r: seq<Violation>)
    ensures forall v :: v in r <==> v in vs && Breaks(limits, c, v)
  {
    if vs == [] then []
    else
      var init := vs[..|vs| - 1];
      assert forall v :: v in vs <==> v in init || v == vs[|vs| - 1];
      FlagsOf(limits, c, init) + Flag(limits, c, vs[|vs| - 1])
  }

  /**
   * `check_order`'s violations, appended one check at a time in the order
   * the checks run: every check the order fails, and no other.
   */
  function Violations(limits: RiskLimits, c: OrderCheck): (r: seq<Violation>)
    ensures forall v :: v in r <==> v in Checks(limits, c.size) && Breaks(limits, c, v)
  {
    FlagsOf(limits, c, Checks(limits, c.size))
  }

  /** Whether the order keeps every limit `check_order` checks. */
  predicate WithinLimits(limits: RiskLimits, c: OrderCheck)
  {
    !c.halted && limits.minOrderSize <= c.size <= limits.maxOrderSize &&
    c.inMarket + c.exposure <= limits.maxPositionPerMarket &&
    c.inEvent + c.exposure <= limits.maxPositionPerEvent &&
    c.inLeague + c.exposure <= limits.maxPositionPerLeague &&
    c.total + c.exposure <= limits.maxTotalExposure &&
    c.dailyPnl >= -limits.maxDailyLoss && c.weeklyPnl >= -limits.maxWeeklyLoss &&
    c.drawdown <= limits.maxDrawdown
  }

  /** An order has no violation exactly when it keeps every limit. */
  lemma AllowedIffWithinLimits(limits: RiskLimits, c: OrderCheck)
    ensures Violations(limits, c) == [] <==> WithinLimits(limits, c)
  {
    var checks := Checks(limits, c.size);
    if Violations(limits, c) == [] {
      assert checks[0] in checks && checks[1] in checks && checks[2] in checks && checks[3] in checks;
      assert checks[4] in checks && checks[5] in checks && checks[6] in checks;
      assert checks[7] in checks && checks[8] in checks && checks[9] in checks;
    } else {
      var r := Violations(limits, c);
      assert r[0] in r;
    }
  }

  /** Halted trading always produces the "trading_halted" violation, and an order size outside the bounds its size violation. */
  lemma HaltAndSizeAlwaysReported(limits: RiskLimits, c: OrderCheck)
    ensures c.halted ==> TradingHalted in Violations(limits, c)
    ensures c.size > limits.maxOrderSize ==> OrderSizeAbove(c.size, limits.maxOrderSize) in Violations(limits, c)
    ensures c.size < limits.minOrderSize ==> OrderSizeBelow(c.size, limits.minOrderSize) in Violations(limits, c)
  {
    var checks := Checks(limits, c.size);
    assert checks[0] in checks && checks[1] in checks && checks[2] in checks;
  }

  // ----- the intended per-market tracking (the corrected design) -----

  /**
   * The exposure a manager would track to enforce the per-market cap: the
   * `RiskState` dictionaries plus one keyed by market.
   */
  datatype Exposure = Exposure(byMarket: map<string, real>, byEvent: map<string, real>, byLeague: map<string, real>, total: real)

  /** Every tracked exposure is within its cap. */
  predicate WithinCaps(limits: RiskLimits, e: Exposure)
  {
    (forall m :: m in e.byMarket ==> e.byMarket[m] <= limits.maxPositionPerMarket) &&
    (forall ev :: ev in e.byEvent ==> e.byEvent[ev] <= limits.maxPositionPerEvent) &&
    (forall l :: l in e.byLeague ==> e.byLeague[l] <= limits.maxPositionPerLeague) &&
    e.total <= limits.maxTotalExposure
  }

  /** The exposure after a fill of `delta` dollars in a market of an event of a league, tracked per market too. */
  function Filled(e: Exposure, marketId: string, eventId: string, league: string, delta: real): (r: Exposure)
    ensures Get(r.byMarket, marketId) == Get(e.byMarket, marketId) + delta
    ensures Get(r.byEvent, eventId) == Get(e.byEvent, eventId) + delta
    ensures Get(r.byLeague, league) == Get(e.byLeague, league) + delta
    ensures r.total == e.total + delta
    ensures forall m :: m != marketId ==> Get(r.byMarket, m) == Get(e.byMarket, m)
    ensures forall ev :: ev != eventId ==> Get(r.byEvent, ev) == Get(e.byEvent, ev)
    ensures forall l :: l != league ==> Get(r.byLeague, l) == Get(e.byLeague, l)
  {
    Exposure(e.byMarket[marketId := Get(e.byMarket, marketId) + delta],
             e.byEvent[eventId := Get(e.byEvent, eventId) + delta],
             e.byLeague[league := Get(e.byLeague, league) + delta],
             e.total + delta)
  }

  /** The violations of an order against tracked exposure, each cap reading its own dictionary. */
  function OrderViolations(limits: RiskLimits, halted: bool, dailyPnl: real, weeklyPnl: real, drawdown: real,
                           e: Exposure, marketId: string, eventId: string, league: string,
                           size: int, price: real): seq<Violation>
  {
    Violations(limits, OrderCheck(halted, dailyPnl, weeklyPnl, drawdown,
                                  Get(e.byMarket, marketId), Get(e.byEvent, eventId), Get(e.byLeague, league), e.total,
                                  size, Mul(size as real, price)))
  }

  /**
   * An order that passes every check, once filled, leaves every market,
   * event and league and the total within their caps.
   */
  lemma AllowedFillKeepsCaps(limits: RiskLimits, halted: bool, dailyPnl: real, weeklyPnl: real, drawdown: real,
                             e: Exposure, marketId: string, eventId: string, league: string, size: int, price: real)
    requires WithinCaps(limits, e)
    requires OrderViolations(limits, halted, dailyPnl, weeklyPnl, drawdown, e, marketId, eventId, league, size, price) == []
    ensures WithinCaps(limits, Filled(e, marketId, eventId, league, Mul(size as real, price)))
  {
    var delta := Mul(size as real, price);
    var r := Filled(e, marketId, eventId, league, delta);
    var vs := OrderViolations(limits, halted, dailyPnl, weeklyPnl, drawdown, e, marketId, eventId, league, size, price);
    assert MarketCapExceeded !in vs && EventCapExceeded !in vs && LeagueCapExceeded !in vs && TotalExposureExceeded !in vs;
    forall m | m in r.byMarket ensures r.byMarket[m] <= limits.maxPositionPerMarket {
      assert r.byMarket[m] == Get(r.byMarket, m);
      if m != marketId {
        assert m in e.byMarket;
      }
    }
    forall ev | ev in r.byEvent ensures r.byEvent[ev] <= limits.maxPositionPerEvent {
      assert r.byEvent[ev] == Get(r.byEvent, ev);
      if ev != eventId {
        assert ev in e.byEvent;
      }
    }
    forall l | l in r.byLeague ensures r.byLeague[l] <= limits.maxPositionPerLeague {
      assert r.byLeague[l] == Get(r.byLeague, l);
      if l != league {
        assert l in e.byLeague;
      }
    }
  }

  // ----- check_order and update_exposure as written -----

  /** `RiskState` as written: exposure by event and by league and in total, with no per-market record. */
  datatype RiskState = RiskState(dailyPnl: real, weeklyPnl: real, totalExposure: real,
                                 exposureByLeague: map<string, real>, exposureByEvent: map<string, real>,
                                 currentDrawdown: real)

  const EmptyState := RiskState(0.0, 0.0, 0.0, map[], map[], 0.0)

  /** What `check_order` as written reads: the event dictionary stands in for the market's own exposure. */
  function AsWrittenCheck(halted: bool, s: RiskState, marketId: string, eventId: string, league: string,
                          size: int, price: real): OrderCheck
  {
    OrderCheck(halted, s.dailyPnl, s.weeklyPnl, s.currentDrawdown,
               Get(s.exposureByEvent, marketId), Get(s.exposureByEvent, eventId),
               Get(s.exposureByLeague, league), s.totalExposure,
               size, Mul(size as real, price))
  }

  /**
   * `check_order` as written: the same checks in the same order, except
   * that the market cap reads the event dictionary under the market's id.
   * The order is allowed exactly when no check fails, that is, when it
   * keeps every limit as read.
   */
  function CheckOrderAsWritten(limits: RiskLimits, halted: bool, s: RiskState,
                               marketId: string, eventId: string, league: string, size: int, price: real)
    : (r: (bool, seq<Violation>))
    ensures forall v :: v in r.1 <==> v in Checks(limits, size) &&
                                      Breaks(limits, AsWrittenCheck(halted, s, marketId, eventId, league, size, price), v)
    ensures r.0 <==> r.1 == []
    ensures r.0 <==> WithinLimits(limits, AsWrittenCheck(halted, s, marketId, eventId, league, size, price))
    ensures MarketCapExceeded in r.1 <==> Get(s.exposureByEvent, marketId) + Mul(size as real, price) > limits.maxPositionPerMarket
  {
    var c := AsWrittenCheck(halted, s, marketId, eventId, league, size, price);
    var vs := Violations(limits, c);
    AllowedIffWithinLimits(limits, c);
    var checks := Checks(limits, size);
    assert checks[3] in checks;
    (vs == [], vs)
  }

  /**
   * The check as written is the per-market check run on an exposure whose
   * per-market dictionary is the event dictionary.
   */
  lemma CheckOrderAsWrittenReadsEventsAsMarkets(limits: RiskLimits, halted: bool, s: RiskState,
                                                marketId: string, eventId: string, league: string, size: int, price: real)
    ensures CheckOrderAsWritten(limits, halted, s, marketId, eventId, league, size, price).1 ==
            OrderViolations(limits, halted, s.dailyPnl, s.weeklyPnl, s.currentDrawdown,
                            Exposure(s.exposureByEvent, s.exposureByEvent, s.exposureByLeague, s.totalExposure),
                            marketId, eventId, league, size, price)
  {
  }

  /** `update_exposure` as written: the event, the league and the total grow by `delta`, and nothing else changes. */
  function UpdateExposureAsWritten(s: RiskState, eventId: string, league: string, delta: real): (r: RiskState)
    ensures Get(r.exposureByEvent, eventId) == Get(s.exposureByEvent, eventId) + delta
    ensures Get(r.exposureByLeague, league) == Get(s.exposureByLeague, league) + delta
    ensures r.totalExposure == s.totalExposure + delta
    ensures forall ev :: ev != eventId ==> Get(r.exposureByEvent, ev) == Get(s.exposureByEvent, ev)
    ensures forall l :: l != league ==> Get(r.exposureByLeague, l) == Get(s.exposureByLeague, l)
    ensures r.dailyPnl == s.dailyPnl && r.weeklyPnl == s.weeklyPnl && r.currentDrawdown == s.currentDrawdown
  {
    s.(exposureByEvent := s.exposureByEvent[eventId := Get(s.exposureByEvent, eventId) + delta],
       exposureByLeague := s.exposureByLeague[league := Get(s.exposureByLeague, league) + delta],
       totalExposure := s.totalExposure + delta)
  }

  /** The event, league and total caps the program as written does keep. */
  predicate WithinCapsAsWritten(limits: RiskLimits, s: RiskState)
  {
    (forall ev :: ev in s.exposureByEvent ==> s.exposureByEvent[ev] <= limits.maxPositionPerEvent) &&
    (forall l :: l in s.exposureByLeague ==> s.exposureByLeague[l] <= limits.maxPositionPerLeague) &&
    s.totalExposure <= limits.maxTotalExposure
  }

  /**
   * As written, an allowed order, once filled, still leaves every event and
   * league and the total within their caps; only the per-market cap is
   * lost (MarketCapAsWrittenLetsMarketOverflow).
   */
  lemma AllowedFillAsWrittenKeepsEventCaps(limits: RiskLimits, halted: bool, s: RiskState,
                                           marketId: string, eventId: string, league: string, size: int, price: real)
    requires WithinCapsAsWritten(limits, s)
    requires CheckOrderAsWritten(limits, halted, s, marketId, eventId, league, size, price).0
    ensures WithinCapsAsWritten(limits, UpdateExposureAsWritten(s, eventId, league, Mul(size as real, price)))
  {
    var r := UpdateExposureAsWritten(s, eventId, league, Mul(size as real, price));
    forall ev | ev in r.exposureByEvent ensures r.exposureByEvent[ev] <= limits.maxPositionPerEvent {
      assert r.exposureByEvent[ev] == Get(r.exposureByEvent, ev);
      if ev != eventId {
        assert ev in s.exposureByEvent;
      }
    }
    forall l | l in r.exposureByLeague ensures r.exposureByLeague[l] <= limits.maxPositionPerLeague {
      assert r.exposureByLeague[l] == Get(r.exposureByLeague, l);
      if l != league {
        assert l in s.exposureByLeague;
      }
    }
  }

  /**
   * As written, a market id that is not also an event id has no held
   * exposure in the market check, so the per-market cap only limits each
   * order on its own.
   */
  lemma MarketCapAsWrittenIgnoresHoldings(limits: RiskLimits, halted: bool, s: RiskState,
                                          marketId: string, eventId: string, league: string, size: int, price: real)
    requires marketId !in s.exposureByEvent
    ensures MarketCapExceeded in CheckOrderAsWritten(limits, halted, s, marketId, eventId, league, size, price).1
            <==> Mul(size as real, price) > limits.maxPositionPerMarket
  {
  }

  /**
   * Three orders of 200 contracts at 0.99 in market "M1" of event "E1"
   * each pass the checks as written, leaving 594 dollars in one market,
   * above its 500-dollar cap.
   */
  lemma MarketCapAsWrittenLetsMarketOverflow()
    ensures var s1 := UpdateExposureAsWritten(EmptyState, "E1", "NFL", 198.0);
            var s2 := UpdateExposureAsWritten(s1, "E1", "NFL", 198.0);
            CheckOrderAsWritten(DefaultLimits, false, EmptyState, "M1", "E1", "NFL", 200, 0.99).0 &&
            CheckOrderAsWritten(DefaultLimits, false, s1, "M1", "E1", "NFL", 200, 0.99).0 &&
            CheckOrderAsWritten(DefaultLimits, false, s2, "M1", "E1", "NFL", 200, 0.99).0 &&
            3.0 * Mul(200.0, 0.99) > DefaultLimits.maxPositionPerMarket
  {
    var s1 := UpdateExposureAsWritten(EmptyState, "E1", "NFL", 198.0);
    var s2 := UpdateExposureAsWritten(s1, "E1", "NFL", 198.0);
    assert Mul(200.0, 0.99) == 198.0;
    AllowedIffWithinLimits(DefaultLimits, OrderCheck(false, 0.0, 0.0, 0.0, 0.0, 0.0, 0.0, 0.0, 200, 198.0));
    assert "M1" !in s1.exposureByEvent && Get(s1.exposureByEvent, "E1") == 198.0 && Get(s1.exposureByLeague, "NFL") == 198.0;
    AllowedIffWithinLimits(DefaultLimits, OrderCheck(false, 0.0, 0.0, 0.0, 0.0, 198.0, 198.0, 198.0, 200, 198.0));
    assert "M1" !in s2.exposureByEvent && Get(s2.exposureByEvent, "E1") == 396.0 && Get(s2.exposureByLeague, "NFL") == 396.0;
    AllowedIffWithinLimits(DefaultLimits, OrderCheck(false, 0.0, 0.0, 0.0, 0.0, 396.0, 396.0, 396.0, 200, 198.0));
  }

  /** With the market's own exposure tracked, the market cap counts what the market already holds. */
  lemma MarketCapCountsHoldings(limits: RiskLimits, halted: bool, dailyPnl: real, weeklyPnl: real, drawdown: real,
                                e: Exposure, marketId: string, eventId: string, league: string, size: int, price: real)
    ensures MarketCapExceeded in OrderViolations(limits, halted, dailyPnl, weeklyPnl, drawdown, e, marketId, eventId, league, size, price)
            <==> Get(e.byMarket, marketId) + Mul(size as real, price) > limits.maxPositionPerMarket
  {
    var checks := Checks(limits, size);
    assert checks[3] in checks;
  }

  /**
   * The same third order is refused once the market's own exposure is
   * checked: starting from nothing held in "M1", two fills of 198 dollars
   * there leave no room for a third.
   */
  lemma MarketCapCorrectedRefusesOverflow(e0: Exposure)
    requires Get(e0.byMarket, "M1") == 0.0
    ensures var e2 := Filled(Filled(e0, "M1", "E1", "NFL", 198.0), "M1", "E1", "NFL", 198.0);
            MarketCapExceeded in OrderViolations(DefaultLimits, false, 0.0, 0.0, 0.0, e2, "M1", "E1", "NFL", 200, 0.99)
  {
    var e2 := Filled(Filled(e0, "M1", "E1", "NFL", 198.0), "M1", "E1", "NFL", 198.0);
    assert Mul(200.0, 0.99) == 198.0;
    MarketCapCountsHoldings(DefaultLimits, false, 0.0, 0.0, 0.0, e2, "M1", "E1", "NFL", 200, 0.99);
  }

  // ----- the manager -----

  class RiskManager {
    const limits: RiskLimits
    var state: RiskState
    var halted: bool

    /** `__init__`: the given limits or the defaults, an empty `RiskState`, not halted. */
    constructor(limits: Option<RiskLimits>)
      ensures this.limits == limits.GetOr(DefaultLimits)
      ensures state == EmptyState && !halted
    {
      this.limits := limits.GetOr(DefaultLimits);
      state := EmptyState;
      halted := false;
    }

    /**
     * `check_order`: collects the violations in order; the order is allowed
     * exactly when there are none. Halted trading is always a violation, and
     * the market cap counts what the event dictionary holds under the
     * market's id.
     */
    method CheckOrder(marketId: string, eventId: string, league: string, size: int, price: real)
      returns (allowed: bool, violations: seq<Violation>)
      ensures (allowed, violations) == CheckOrderAsWritten(limits, halted, state, marketId, eventId, league, size, price)
      ensures allowed <==> violations == []
      ensures halted ==> !allowed && TradingHalted in violations
      ensures size > limits.maxOrderSize || size < limits.minOrderSize ==> !allowed
      ensures MarketCapExceeded in violations <==>
                Get(state.exposureByEvent, marketId) + Mul(size as real, price) > limits.maxPositionPerMarket
    {
      var c := AsWrittenCheck(halted, state, marketId, eventId, league, size, price);
      violations := Violations(limits, c);
      HaltAndSizeAlwaysReported(limits, c);
      allowed := |violations| == 0;
      ghost var r := CheckOrderAsWritten(limits, halted, state, marketId, eventId, league, size, price);
      assert r.1 == violations;
    }

    /** `update_exposure` after a fill: the event, the league and the total grow by `delta`. */
    method UpdateExposure(eventId: string, league: string, delta: real)
      modifies this
      ensures state == UpdateExposureAsWritten(old(state), eventId, league, delta)
      ensures halted == old(halted)
    {
      state := state.(exposureByEvent := state.exposureByEvent[eventId := Get(state.exposureByEvent, eventId) + delta],
                      exposureByLeague := state.exposureByLeague[league := Get(state.exposureByLeague, league) + delta],
                      totalExposure := state.totalExposure + delta);
    }

    /** `update_pnl`: both P&L counters move by `pnl`, and trading halts once the day's loss passes its limit. */
    method UpdatePnl(pnl: real)
      modifies this
      ensures state == old(state).(dailyPnl := old(state.dailyPnl) + pnl, weeklyPnl := old(state.weeklyPnl) + pnl)
      ensures halted <==> old(halted) || state.dailyPnl < -limits.maxDailyLoss
    {
      state := state.(dailyPnl := state.dailyPnl + pnl, weeklyPnl := state.weeklyPnl + pnl);
      if state.dailyPnl < -limits.maxDailyLoss {
        HaltTrading();
      }
    }

    /** `halt_trading`; the reason is only logged. */
    method HaltTrading()
      modifies this
      ensures halted
      ensures state == old(state)
    {
      halted := true;
    }

    /** `resume_trading`. */
    method ResumeTrading()
      modifies this
      ensures !halted
      ensures state == old(state)
    {
      halted := false;
    }

    /** `reset_daily`: the day's P&L restarts at 0, which lifts a halt unless the daily loss limit is negative. */
    method ResetDaily()
      modifies this
      ensures state == old(state).(dailyPnl := 0.0)
      ensures halted <==> old(halted) && limits.maxDailyLoss < 0.0
    {
      state := state.(dailyPnl := 0.0);
      if halted && state.dailyPnl >= -limits.maxDailyLoss {
        halted := false;
      }
    }

    /** `reset_weekly`: the week's P&L restarts at 0. */
    method ResetWeekly()
      modifies this
      ensures state == old(state).(weeklyPnl := 0.0)
      ensures halted == old(halted)
    {
      state := state.(weeklyPnl := 0.0);
    }
  }
}
