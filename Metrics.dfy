/**
 * Backtest metrics (backtest/metrics.py): the maximum drawdown and its
 * duration, the total and annualised return, and the trade statistics
 * over the closed positions' P&L. The square-root based volatility,
 * Sharpe and Sortino ratios are not part of this model.
 */
module Metrics {
  import opened Common

  /** `BacktestMetrics` without volatility, Sharpe and Sortino; `profitFactor` is None for infinity. */
  datatype BacktestMetrics = BacktestMetrics(
    totalReturn: real,
    annualizedReturn: real,
    maxDrawdown: real,
    maxDrawdownDuration: int,
    totalTrades: int,
    winningTrades: int,
    losingTrades: int,
    hitRate: real,
    avgWin: real,
    avgLoss: real,
    profitFactor: Option<real>,
    avgTrade: real,
    avgExposure: real,
    maxExposure: real,
    timeInMarket: real)

  /** `_empty_metrics`: every figure 0. */
  const EmptyMetrics := BacktestMetrics(0.0, 0.0, 0.0, 0, 0, 0, 0, 0.0, 0.0, 0.0, Some(0.0), 0.0, 0.0, 0.0, 0.0)

  // ---------------------------------------------------------------- drawdown

  /** The variables of the drawdown loop. */
  datatype DrawdownState = DrawdownState(peak: real, maxDrawdown: real, maxDuration: int, currentDuration: int)

  /**
   * One iteration: a new high resets the running duration; otherwise the
   * drawdown from the peak is taken into the maximum and the duration
   * grows. None where the source divides by a zero peak.
   */
  function DrawdownStep(st: DrawdownState, equity: real): Option<DrawdownState>
  {
    if equity > st.peak then Some(st.(peak := equity, currentDuration := 0))
    else if st.peak == 0.0 then None
    else
      var current := st.currentDuration + 1;
      Some(DrawdownState(st.peak, Max(st.maxDrawdown, (st.peak - equity) / st.peak),
                         MaxInt(st.maxDuration, current), current))
  }

  /** The loop run over `es` from state `st`. */
  function DrawdownFold(st: DrawdownState, es: seq<real>): Option<DrawdownState>
  {
    if es == [] then Some(st)
    else
      var prior := DrawdownFold(st, es[..|es| - 1]);
      if prior.None? then None else DrawdownStep(prior.value, es[|es| - 1])
  }

  function StartState(equities: seq<real>): DrawdownState
    requires equities != []
  {
    DrawdownState(equities[0], 0.0, 0, 0)
  }

  /** `calculate_drawdown`: (max drawdown, its duration in periods); None on a zero peak. */
  function Drawdown(equities: seq<real>): (r: Option<(real, int)>)
    ensures equities == [] ==> r == Some((0.0, 0))
  {
    if equities == [] then Some((0.0, 0))
    else
      var last := DrawdownFold(StartState(equities), equities);
      if last.None? then None else Some((last.value.maxDrawdown, last.value.maxDuration))
  }

  method CalculateDrawdown(equities: seq<real>) returns (r: Option<(real, int)>)
    ensures r == Drawdown(equities)
  {
    if equities == [] {
      return Some((0.0, 0));
    }
    var peak := equities[0];
    var maxDd := 0.0;
    var maxDuration := 0;
    var currentDuration := 0;
    for i := 0 to |equities|
      invariant DrawdownFold(StartState(equities), equities[..i]) == Some(DrawdownState(peak, maxDd, maxDuration, currentDuration))
    {
      var equity := equities[i];
      assert equities[..i + 1][..i] == equities[..i];
      if equity > peak {
        peak := equity;
        currentDuration := 0;
      } else {
        if peak == 0.0 {
          DrawdownFoldStaysNone(StartState(equities), equities, i + 1);
          return None;
        }
        var dd := (peak - equity) / peak;
        maxDd := Max(maxDd, dd);
        currentDuration := currentDuration + 1;
        maxDuration := MaxInt(maxDuration, currentDuration);
      }
    }
    assert equities[..|equities|] == equities;
    r := Some((maxDd, maxDuration));
  }

  /** Once a division by zero has occurred the loop does not resume. */
  lemma {:induction false} DrawdownFoldStaysNone(st: DrawdownState, es: seq<real>, k: nat)
    requires k <= |es| && DrawdownFold(st, es[..k]) == None
    ensures DrawdownFold(st, es) == None
  {
    if k < |es| {
      assert es[..|es| - 1][..k] == es[..k];
      DrawdownFoldStaysNone(st, es[..|es| - 1], k);
    } else {
      assert es[..k] == es;
    }
  }

  /** The drawdown and both durations are never negative. */
  lemma {:induction false} DrawdownFoldNonNegative(st: DrawdownState, es: seq<real>)
    requires st.maxDrawdown >= 0.0 && st.maxDuration >= 0 && st.currentDuration >= 0
    ensures var r := DrawdownFold(st, es);
            r.Some? ==> r.value.maxDrawdown >= 0.0 && r.value.maxDuration >= 0 && r.value.currentDuration >= 0
  {
    if es != [] {
      DrawdownFoldNonNegative(st, es[..|es| - 1]);
    }
  }

  lemma DrawdownNonNegative(equities: seq<real>)
    ensures var r := Drawdown(equities); r.Some? ==> r.value.0 >= 0.0 && r.value.1 >= 0
  {
    if equities != [] {
      DrawdownFoldNonNegative(StartState(equities), equities);
    }
  }

  /** With positive equities the peak stays positive and every drawdown is at most 1. */
  lemma {:induction false} DrawdownFoldPositive(st: DrawdownState, es: seq<real>)
    requires st.peak > 0.0 && 0.0 <= st.maxDrawdown <= 1.0
    requires forall i :: 0 <= i < |es| ==> es[i] > 0.0
    ensures var r := DrawdownFold(st, es);
            r.Some? && r.value.peak > 0.0 && 0.0 <= r.value.maxDrawdown <= 1.0
  {
    if es != [] {
      DrawdownFoldPositive(st, es[..|es| - 1]);
      var prior := DrawdownFold(st, es[..|es| - 1]).value;
      var e := es[|es| - 1];
      if e <= prior.peak {
        DivUnit(prior.peak - e, prior.peak);
      }
    }
  }

  /** For positive equities the drawdown is defined and lies in [0, 1]. */
  lemma DrawdownBounded(equities: seq<real>)
    requires forall i :: 0 <= i < |equities| ==> equities[i] > 0.0
    ensures var r := Drawdown(equities); r.Some? && 0.0 <= r.value.0 <= 1.0
  {
    if equities != [] {
      DrawdownFoldPositive(StartState(equities), equities);
    }
  }

  /** Along a non-decreasing run the peak is the latest value and no drawdown accrues. */
  lemma {:induction false} DrawdownFoldRising(st: DrawdownState, es: seq<real>)
    requires st.peak > 0.0 && st.maxDrawdown == 0.0
    requires forall i :: 0 <= i < |es| ==> es[i] >= st.peak
    requires forall i, j :: 0 <= i < j < |es| ==> es[i] <= es[j]
    ensures var r := DrawdownFold(st, es);
            r.Some? && r.value.maxDrawdown == 0.0 && r.value.peak == (if es == [] then st.peak else es[|es| - 1])
  {
    if es != [] {
      DrawdownFoldRising(st, es[..|es| - 1]);
    }
  }

  /** An equity curve that never falls has no drawdown. */
  lemma DrawdownOfRisingCurve(equities: seq<real>)
    requires equities != [] && equities[0] > 0.0
    requires forall i, j :: 0 <= i < j < |equities| ==> equities[i] <= equities[j]
    ensures Drawdown(equities).Some? && Drawdown(equities).value.0 == 0.0
  {
    DrawdownFoldRising(StartState(equities), equities);
  }

  /** From 120 down to 90 is a 25% drawdown; three periods pass without a new high. */
  lemma DrawdownExample()
    ensures Drawdown([100.0, 110.0, 105.0, 120.0, 90.0, 100.0, 115.0]) == Some((0.25, 3))
  {
    var es := [100.0, 110.0, 105.0, 120.0, 90.0, 100.0, 115.0];
    var s0 := StartState(es);
    assert DrawdownFold(s0, es[..1]) == Some(DrawdownState(100.0, 0.0, 1, 1)) by {
      assert es[..1][..0] == [];
    }
    assert DrawdownFold(s0, es[..2]) == Some(DrawdownState(110.0, 0.0, 1, 0)) by {
      assert es[..2][..1] == es[..1];
    }
    assert DrawdownFold(s0, es[..3]) == Some(DrawdownState(110.0, 5.0 / 110.0, 1, 1)) by {
      assert es[..3][..2] == es[..2];
    }
    assert DrawdownFold(s0, es[..4]) == Some(DrawdownState(120.0, 5.0 / 110.0, 1, 0)) by {
      assert es[..4][..3] == es[..3];
    }
    assert DrawdownFold(s0, es[..5]) == Some(DrawdownState(120.0, 0.25, 1, 1)) by {
      assert es[..5][..4] == es[..4];
    }
    assert DrawdownFold(s0, es[..6]) == Some(DrawdownState(120.0, 0.25, 2, 2)) by {
      assert es[..6][..5] == es[..5];
    }
    assert DrawdownFold(s0, es) == Some(DrawdownState(120.0, 0.25, 3, 3)) by {
      assert es[..6] == es[..|es| - 1];
    }
  }

  // ------------------------------------------------------------ trade stats

  function Sum(xs: seq<real>): real
  {
    if xs == [] then 0.0 else Sum(xs[..|xs| - 1]) + xs[|xs| - 1]
  }

  /** `[p for p in pnls if p > 0]`. */
  function Wins(xs: seq<real>): (r: seq<real>)
    ensures forall x :: x in r <==> x in xs && x > 0.0
  {
    if xs == [] then [] else Wins(xs[..|xs| - 1]) + (if xs[|xs| - 1] > 0.0 then [xs[|xs| - 1]] else [])
  }

  /** `[p for p in pnls if p < 0]`. */
  function Losses(xs: seq<real>): (r: seq<real>)
    ensures forall x :: x in r <==> x in xs && x < 0.0
  {
    if xs == [] then [] else Losses(xs[..|xs| - 1]) + (if xs[|xs| - 1] < 0.0 then [xs[|xs| - 1]] else [])
  }

  /** A trade is a win, a loss, or neither, so there are no more wins and losses than trades. */
  lemma {:induction false} WinsAndLossesCount(xs: seq<real>)
    ensures |Wins(xs)| + |Losses(xs)| <= |xs|
  {
    if xs != [] {
      WinsAndLossesCount(xs[..|xs| - 1]);
    }
  }

  /** Gross profit is positive when there is a win, gross loss negative when there is a loss. */
  lemma {:induction false} SumSigns(xs: seq<real>)
    ensures Sum(Wins(xs)) >= 0.0 && (Wins(xs) != [] ==> Sum(Wins(xs)) > 0.0)
    ensures Sum(Losses(xs)) <= 0.0 && (Losses(xs) != [] ==> Sum(Losses(xs)) < 0.0)
  {
    if xs != [] {
      var init := xs[..|xs| - 1];
      SumSigns(init);
      var w := if xs[|xs| - 1] > 0.0 then [xs[|xs| - 1]] else [];
      var l := if xs[|xs| - 1] < 0.0 then [xs[|xs| - 1]] else [];
      SumAppend(Wins(init), w);
      SumAppend(Losses(init), l);
    }
  }

  lemma {:induction false} SumAppend(xs: seq<real>, ys: seq<real>)
    ensures Sum(xs + ys) == Sum(xs) + Sum(ys)
  {
    if ys == [] {
      assert xs + ys == xs;
    } else {
      SumAppend(xs, ys[..|ys| - 1]);
      assert (xs + ys)[..|xs + ys| - 1] == xs + ys[..|ys| - 1];
    }
  }

  /** The statistics over the closed trades' P&L. */
  datatype TradeStats = TradeStats(
    totalTrades: int,
    winningTrades: int,
    losingTrades: int,
    hitRate: real,
    avgWin: real,
    avgLoss: real,
    profitFactor: Option<real>,
    avgTrade: real)

  /** `[p.pnl or 0 for p in positions]`: an unknown P&L counts 0. */
  function PnlValues(pnls: seq<Option<real>>): (xs: seq<real>)
    ensures |xs| == |pnls| && forall i :: 0 <= i < |pnls| ==> xs[i] == pnls[i].GetOr(0.0)
  {
    if pnls == [] then [] else PnlValues(pnls[..|pnls| - 1]) + [pnls[|pnls| - 1].GetOr(0.0)]
  }

  /**
   * The trading statistics of `calculate_metrics`, over `p.pnl or 0` for
   * each position: the counts of wins and losses, the hit rate, the average
   * win, the average loss as a magnitude, the profit factor (gross profit
   * over gross loss, None for infinity when nothing was lost) and the
   * average trade; each average is 0 when there is nothing to average.
   */
  function TradeStatsOf(pnls: seq<Option<real>>): (t: TradeStats)
    ensures t.totalTrades == |pnls|
    ensures t.winningTrades == |Wins(PnlValues(pnls))| && t.losingTrades == |Losses(PnlValues(pnls))|
    ensures t.winningTrades + t.losingTrades <= t.totalTrades
    ensures 0.0 <= t.hitRate <= 1.0
    ensures t.totalTrades > 0 ==> Mul(t.hitRate, t.totalTrades as real) == t.winningTrades as real
    ensures t.totalTrades == 0 ==> t.hitRate == 0.0
    ensures t.avgWin >= 0.0 && (t.winningTrades > 0 <==> t.avgWin > 0.0)
    ensures t.winningTrades > 0 ==> Mul(t.avgWin, t.winningTrades as real) == Sum(Wins(PnlValues(pnls)))
    ensures t.avgLoss >= 0.0 && (t.losingTrades > 0 <==> t.avgLoss > 0.0)
    ensures t.losingTrades > 0 ==> Mul(t.avgLoss, t.losingTrades as real) == -Sum(Losses(PnlValues(pnls)))
    ensures t.profitFactor.None? <==> t.losingTrades == 0
    ensures t.profitFactor.Some? ==>
              t.profitFactor.value >= 0.0 &&
              Mul(t.profitFactor.value, -Sum(Losses(PnlValues(pnls)))) == Sum(Wins(PnlValues(pnls)))
    ensures t.totalTrades > 0 ==> Mul(t.avgTrade, t.totalTrades as real) == Sum(PnlValues(pnls))
    ensures t.totalTrades == 0 ==> t.avgTrade == 0.0
  {
    var xs := PnlValues(pnls);
    var wins := Wins(xs);
    var losses := Losses(xs);
    WinsAndLossesCount(xs);
    SumSigns(xs);
    var total := |pnls|;
    var hitRate := if total > 0 then (DivUnit(|wins| as real, total as real); QuotientTimesDivisor(|wins| as real, total as real);
                                      |wins| as real / total as real) else 0.0;
    var avgWin := if wins != [] then (DivSign(Sum(wins), |wins| as real); QuotientTimesDivisor(Sum(wins), |wins| as real);
                                      Sum(wins) / |wins| as real) else 0.0;
    var avgLoss := if losses != [] then (DivSign(Sum(losses), |losses| as real); AbsQuotient(Sum(losses), |losses| as real);
                                         Abs(Sum(losses) / |losses| as real)) else 0.0;
    var avgTrade := if xs != [] then (QuotientTimesDivisor(Sum(xs), |xs| as real); Sum(xs) / |xs| as real) else 0.0;
    var grossLoss := Abs(Sum(losses));
    var profitFactor := if grossLoss > 0.0 then (DivSign(Sum(wins), grossLoss); QuotientTimesDivisor(Sum(wins), grossLoss);
                                                 Some(Sum(wins) / grossLoss)) else None;
    TradeStats(total, |wins|, |losses|, hitRate, avgWin, avgLoss, profitFactor, avgTrade)
  }

  /** The magnitude of a negative quotient by a positive count, times the count, is the negated dividend. */
  lemma AbsQuotient(x: real, n: real)
    requires x < 0.0 && n > 0.0
    ensures Mul(Abs(x / n), n) == -x
  {
    DivSign(x, n);
    QuotientTimesDivisor(x, n);
  }

  /** Three closed YES trades bought at 0.40, 0.50 and 0.45, settling 1, 0, 1: two wins, one loss. */
  lemma TradeStatsExample()
    ensures var t := TradeStatsOf([Some(60.0), Some(-50.0), Some(55.0)]);
            t.totalTrades == 3 && t.winningTrades == 2 && t.losingTrades == 1 && t.hitRate == 2.0 / 3.0
  {
    var pnls := [Some(60.0), Some(-50.0), Some(55.0)];
    var xs := PnlValues(pnls);
    assert xs == [60.0, -50.0, 55.0];
    assert xs[..2] == [60.0, -50.0] && xs[..2][..1] == [60.0] && xs[..2][..1][..0] == [];
    assert Wins([60.0]) == [60.0];
    assert Wins([60.0, -50.0]) == [60.0];
    assert Wins(xs) == [60.0, 55.0];
    assert Losses([60.0]) == [];
    assert Losses([60.0, -50.0]) == [-50.0];
    assert Losses(xs) == [-50.0];
  }

  // ----------------------------------------------------------------- returns

  /** The period periodReturns: one per consecutive pair whose earlier equity is positive. */
  function Returns(equities: seq<real>): (r: seq<real>)
    ensures |r| <= |equities|
  {
    if |equities| < 2 then []
    else
      var prev := equities[|equities| - 2];
      Returns(equities[..|equities| - 1]) + (if prev > 0.0 then [(equities[|equities| - 1] - prev) / prev] else [])
  }

  /** With positive equities every consecutive pair yields a return. */
  lemma {:induction false} ReturnsOfPositive(equities: seq<real>)
    requires forall i :: 0 <= i < |equities| ==> equities[i] > 0.0
    ensures |Returns(equities)| == if equities == [] then 0 else |equities| - 1
  {
    if |equities| >= 2 {
      ReturnsOfPositive(equities[..|equities| - 1]);
    }
  }

  /** The mean of `n` returns summing to `sum`, annualised over 252 days, times `n`. */
  lemma Annualized(sum: real, n: real)
    requires n > 0.0
    ensures Mul(sum / n * 252.0, n) == 252.0 * sum
  {
    QuotientTimesDivisor(sum, n);
    assert sum / n * 252.0 * n == 252.0 * (sum / n * n);
  }

  /** The trade-statistic fields of the metrics are those of `t`. */
  predicate CarriesTradeStats(m: BacktestMetrics, t: TradeStats)
  {
    m.totalTrades == t.totalTrades && m.winningTrades == t.winningTrades && m.losingTrades == t.losingTrades
    && m.hitRate == t.hitRate && m.avgWin == t.avgWin && m.avgLoss == t.avgLoss
    && m.profitFactor == t.profitFactor && m.avgTrade == t.avgTrade
  }

  /**
   * `calculate_metrics` without the volatility-based figures: None where
   * the source divides by a zero initial capital or a zero peak.
   */
  function MetricsOf(equities: seq<real>, pnls: seq<Option<real>>, initialCapital: real): (r: Option<BacktestMetrics>)
    ensures equities == [] ==> r == Some(EmptyMetrics)
    ensures equities != [] && initialCapital == 0.0 ==> r == None
    ensures equities != [] && initialCapital != 0.0 && Returns(equities) == [] ==> r == Some(EmptyMetrics)
    ensures r.Some? && r != Some(EmptyMetrics) ==>
              Mul(r.value.totalReturn, initialCapital) == equities[|equities| - 1] - initialCapital
              && r.value.totalTrades == |pnls|
              && r.value.winningTrades + r.value.losingTrades <= r.value.totalTrades
              && 0.0 <= r.value.hitRate <= 1.0
              && r.value.maxDrawdown >= 0.0
    ensures equities != [] && initialCapital != 0.0 && Returns(equities) != [] ==>
              (r.None? <==> Drawdown(equities).None?) &&
              (r.Some? ==>
                 Drawdown(equities) == Some((r.value.maxDrawdown, r.value.maxDrawdownDuration))
                 && Mul(r.value.annualizedReturn, |Returns(equities)| as real) == 252.0 * Sum(Returns(equities))
                 && CarriesTradeStats(r.value, TradeStatsOf(pnls))
                 && r.value.avgExposure == initialCapital * 0.3 && r.value.maxExposure == initialCapital * 0.5
                 && r.value.timeInMarket == 0.5)
  {
    if equities == [] then Some(EmptyMetrics)
    else if initialCapital == 0.0 then None
    else
      var periodReturns := Returns(equities);
      if periodReturns == [] then Some(EmptyMetrics)
      else
        var dd := Drawdown(equities);
        DrawdownNonNegative(equities);
        if dd.None? then None
        else
          var totalReturn := (equities[|equities| - 1] - initialCapital) / initialCapital;
          QuotientTimesDivisor(equities[|equities| - 1] - initialCapital, initialCapital);
          var mean := Sum(periodReturns) / |periodReturns| as real;
          Annualized(Sum(periodReturns), |periodReturns| as real);
          var t := TradeStatsOf(pnls);
          var m := BacktestMetrics(totalReturn, mean * 252.0, dd.value.0, dd.value.1,
                                   t.totalTrades, t.winningTrades, t.losingTrades, t.hitRate,
                                   t.avgWin, t.avgLoss, t.profitFactor, t.avgTrade,
                                   initialCapital * 0.3, initialCapital * 0.5, 0.5);
          Some(m)
  }

  /** `calculate_metrics`: the period returns are collected by a loop, the drawdown by `CalculateDrawdown`. */
  method CalculateMetrics(equities: seq<real>, pnls: seq<Option<real>>, initialCapital: real) returns (r: Option<BacktestMetrics>)
    ensures r == MetricsOf(equities, pnls, initialCapital)
  {
    if equities == [] {
      return Some(EmptyMetrics);
    }
    if initialCapital == 0.0 {
      return None;
    }
    var totalReturn := (equities[|equities| - 1] - initialCapital) / initialCapital;
    var periodReturns: seq<real> := [];
    for i := 1 to |equities|
      invariant periodReturns == Returns(equities[..i])
    {
      assert equities[..i + 1][..i] == equities[..i];
      if equities[i - 1] > 0.0 {
        periodReturns := periodReturns + [(equities[i] - equities[i - 1]) / equities[i - 1]];
      }
    }
    assert equities[..|equities|] == equities;
    if periodReturns == [] {
      return Some(EmptyMetrics);
    }
    var dd := CalculateDrawdown(equities);
    if dd.None? {
      return None;
    }
    var mean := Sum(periodReturns) / |periodReturns| as real;
    var t := TradeStatsOf(pnls);
    r := Some(BacktestMetrics(totalReturn, mean * 252.0, dd.value.0, dd.value.1,
                              t.totalTrades, t.winningTrades, t.losingTrades, t.hitRate,
                              t.avgWin, t.avgLoss, t.profitFactor, t.avgTrade,
                              initialCapital * 0.3, initialCapital * 0.5, 0.5));
  }
}
