/**
 * Position sizing (strategy/sizing.py): fractional Kelly sizing for a
 * binary contract bought at a price in (0, 1), scaled by confidence,
 * liquidity and time to resolution and bounded by depth and by the
 * configured minimum and maximum; plus sizing for a target risk and the
 * stand-alone Kelly bet fraction.
 */
module Sizing {
  import opened Common

  datatype SizingParams = SizingParams(
    baseSize: real,
    maxSize: real,
    minSize: real,
    kellyFraction: real,
    confidenceScale: real)

  const DefaultSizingParams := SizingParams(100.0, 500.0, 10.0, 0.25, 1.0)

  /** A value with no fractional part, such as the default minimum and maximum sizes. */
  predicate Integral(x: real)
  {
    x == x.Floor as real
  }

  /**
   * The Kelly fraction `(b p - q) / b` for a contract bought at `entry`,
   * with odds `b = (1 - entry) / entry`. It equals the edge of `p` over
   * the price, relative to the price's complement.
   */
  function KellyFraction(p: real, entry: real): (k: real)
    requires 0.0 < entry < 1.0
    ensures k == (p - entry) / (1.0 - entry)
    ensures k > 0.0 <==> p > entry
  {
    KellyClosedForm(p, entry);
    DivSign(p - entry, 1.0 - entry);
    var b := (1.0 - entry) / entry;
    (Mul(b, p) - (1.0 - p)) / b
  }

  lemma KellyClosedForm(p: real, entry: real)
    requires 0.0 < entry < 1.0
    ensures (1.0 - entry) / entry > 0.0
    ensures (Mul((1.0 - entry) / entry, p) - (1.0 - p)) / ((1.0 - entry) / entry) == (p - entry) / (1.0 - entry)
  {
    var b := (1.0 - entry) / entry;
    DivSign(1.0 - entry, entry);
    assert b * entry == 1.0 - entry;
    var k := (b * p - (1.0 - p)) / b;
    assert k * b == b * p - (1.0 - p);
    assert k * (1.0 - entry) == k * b * entry;
    assert (b * p - (1.0 - p)) * entry == b * entry * p - (1.0 - p) * entry;
    assert k * (1.0 - entry) == p - entry;
  }

  /**
   * `_kelly_size`: the dollar size bankroll × Kelly fraction × the
   * configured fraction of Kelly, or 0 when either probability is outside
   * (0, 1) or there is no edge. The bankroll defaults to ten base sizes.
   */
  function KellySize(params: SizingParams, winProb: real, entryPrice: real, bankroll: Option<real>): (r: real)
    ensures r >= 0.0
    ensures winProb <= 0.0 || winProb >= 1.0 || entryPrice <= 0.0 || entryPrice >= 1.0 ==> r == 0.0
    ensures winProb <= entryPrice ==> r == 0.0
    ensures 0.0 < entryPrice < winProb < 1.0 ==>
              r == Max(0.0, Mul(bankroll.GetOr(params.baseSize * 10.0),
                                Mul((winProb - entryPrice) / (1.0 - entryPrice), params.kellyFraction)))
  {
    var funds := bankroll.GetOr(params.baseSize * 10.0);
    if winProb <= 0.0 || winProb >= 1.0 then 0.0
    else if entryPrice <= 0.0 || entryPrice >= 1.0 then 0.0
    else
      var kelly := KellyFraction(winProb, entryPrice);
      if kelly <= 0.0 then 0.0
      else Max(0.0, Mul(funds, Mul(kelly, params.kellyFraction)))
  }

  /** With an edge, a positive bankroll and a positive fraction of Kelly, the Kelly size is positive. */
  lemma KellyPositiveWithEdge(params: SizingParams, winProb: real, entryPrice: real, bankroll: Option<real>)
    requires 0.0 < entryPrice < winProb < 1.0
    requires bankroll.GetOr(params.baseSize * 10.0) > 0.0 && params.kellyFraction > 0.0
    ensures KellySize(params, winProb, entryPrice, bankroll) > 0.0
  {
    var kelly := KellyFraction(winProb, entryPrice);
    PosProduct(kelly, params.kellyFraction);
    PosProduct(bankroll.GetOr(params.baseSize * 10.0), Mul(kelly, params.kellyFraction));
  }

  /** The Kelly size scales linearly with the configured fraction of Kelly. */
  lemma KellyLinearInFraction(params: SizingParams, winProb: real, entryPrice: real, bankroll: Option<real>, c: real)
    requires 0.0 <= c
    ensures KellySize(params.(kellyFraction := c * params.kellyFraction), winProb, entryPrice, bankroll)
            == c * KellySize(params, winProb, entryPrice, bankroll)
  {
    if 0.0 < winProb < 1.0 && 0.0 < entryPrice < 1.0 {
      var kelly := KellyFraction(winProb, entryPrice);
      if kelly > 0.0 {
        var funds := bankroll.GetOr(params.baseSize * 10.0);
        var x := Mul(funds, Mul(kelly, params.kellyFraction));
        assert Mul(funds, Mul(kelly, c * params.kellyFraction)) == Mul(c, x) by {
          assert funds * (kelly * (c * params.kellyFraction)) == c * (funds * (kelly * params.kellyFraction));
        }
        ScaleMax(c, x);
      }
    }
  }

  /** `_time_adjustment`: the size factor for the time left before resolution. */
  function TimeAdjustment(seconds: int): (f: real)
    ensures seconds < 1800 <==> f == 0.5
    ensures 1800 <= seconds < 3600 <==> f == 0.7
    ensures 3600 <= seconds < 7200 <==> f == 0.85
    ensures seconds >= 7200 <==> f == 1.0
  {
    var hours := seconds as real / 3600.0;
    if hours < 0.5 then 0.5
    else if hours < 1.0 then 0.7
    else if hours < 2.0 then 0.85
    else 1.0
  }

  /** Less time to resolution never allows a larger factor. */
  lemma TimeAdjustmentMonotone(s1: int, s2: int)
    requires s1 <= s2
    ensures 0.5 <= TimeAdjustment(s1) <= TimeAdjustment(s2) <= 1.0
  {
  }

  /** The estimated win probability: the price plus a tenth of the confidence, kept within [0.05, 0.95]. */
  function WinProbability(confidence: real, entryPrice: real): (p: real)
    ensures 0.05 <= p <= 0.95
    ensures 0.05 <= entryPrice + confidence * 0.10 <= 0.95 ==> p == entryPrice + confidence * 0.10
  {
    Min(0.95, Max(0.05, entryPrice + confidence * 0.10))
  }

  /** The size before any adjustment: the Kelly size when it is positive, otherwise `min_size` scaled by confidence. */
  function BaseSize(params: SizingParams, confidence: real, entryPrice: real, bankroll: Option<real>): (b: real)
    ensures KellySize(params, WinProbability(confidence, entryPrice), entryPrice, bankroll) > 0.0 ==>
              b == KellySize(params, WinProbability(confidence, entryPrice), entryPrice, bankroll)
    ensures KellySize(params, WinProbability(confidence, entryPrice), entryPrice, bankroll) == 0.0 ==>
              b == Mul(params.minSize, confidence)
  {
    var kelly := KellySize(params, WinProbability(confidence, entryPrice), entryPrice, bankroll);
    if kelly <= 0.0 then Mul(params.minSize, confidence) else kelly
  }

  /** The size before `int()`: the base size scaled by liquidity and by the time factor, then capped at 10% of depth. */
  function UnboundedSize(params: SizingParams, confidence: real, entryPrice: real, liquidity: real,
                         timeToResolution: Option<int>, depth: Option<int>, bankroll: Option<real>): (size: real)
    ensures depth.Some? ==> size <= depth.value as real * 0.1
    ensures timeToResolution.None? && depth.None? ==>
              size == Mul(BaseSize(params, confidence, entryPrice, bankroll), liquidity)
    ensures timeToResolution.Some? && depth.None? ==>
              size == Mul(Mul(BaseSize(params, confidence, entryPrice, bankroll), liquidity),
                          TimeAdjustment(timeToResolution.value))
    ensures depth.Some? ==>
              size == Min(UnboundedSize(params, confidence, entryPrice, liquidity, timeToResolution, None, bankroll),
                          depth.value as real * 0.1)
    decreases depth.Some?
  {
    var liquid := Mul(BaseSize(params, confidence, entryPrice, bankroll), liquidity);
    var timed := if timeToResolution.Some? then Mul(liquid, TimeAdjustment(timeToResolution.value)) else liquid;
    if depth.Some? then Min(timed, depth.value as real * 0.1) else timed
  }

  /**
   * `calculate`: the size before `int()` clamped into [min_size, max_size]
   * (min_size winning when the two cross), then truncated. With integral
   * bounds it lies between them, and it respects the depth limit whenever
   * that limit is at least the minimum size.
   */
  function Calculate(params: SizingParams, confidence: real, entryPrice: real, liquidity: real,
                     timeToResolution: Option<int>, depth: Option<int>, bankroll: Option<real>): (r: int)
    ensures var size := UnboundedSize(params, confidence, entryPrice, liquidity, timeToResolution, depth, bankroll);
            (params.minSize <= size <= params.maxSize ==> r == Trunc(size)) &&
            (size < params.minSize || params.maxSize < params.minSize ==> r == Trunc(params.minSize)) &&
            (params.minSize <= params.maxSize < size ==> r == Trunc(params.maxSize))
    ensures Integral(params.minSize) ==> params.minSize <= r as real
    ensures Integral(params.maxSize) && params.minSize <= params.maxSize ==> r as real <= params.maxSize
    ensures depth.Some? && 0.0 <= params.minSize <= depth.value as real * 0.1 ==> r as real <= depth.value as real * 0.1
  {
    var size := UnboundedSize(params, confidence, entryPrice, liquidity, timeToResolution, depth, bankroll);
    var bounded := Max(params.minSize, Min(params.maxSize, size));
    TruncAtLeast(bounded, params.minSize);
    TruncAtMost(bounded, params.maxSize);
    if depth.Some? then TruncAtMost(bounded, depth.value as real * 0.1); Trunc(bounded)
    else Trunc(bounded)
  }

  /**
   * With full liquidity, no time or depth limit and a positive Kelly size
   * inside the bounds, `calculate` returns the Kelly size truncated.
   */
  lemma CalculateIsKellyInside(params: SizingParams, confidence: real, entryPrice: real, bankroll: Option<real>)
    requires KellySize(params, WinProbability(confidence, entryPrice), entryPrice, bankroll) > 0.0
    requires params.minSize <= KellySize(params, WinProbability(confidence, entryPrice), entryPrice, bankroll) <= params.maxSize
    ensures Calculate(params, confidence, entryPrice, 1.0, None, None, bankroll)
            == Trunc(KellySize(params, WinProbability(confidence, entryPrice), entryPrice, bankroll))
  {
  }

  /** `int()` does not go below an integral lower bound of its argument. */
  lemma TruncAtLeast(x: real, lo: real)
    ensures Integral(lo) && lo <= x ==> lo <= Trunc(x) as real
  {
  }

  /** `int()` does not go above an upper bound of its argument that is integral or non-negative. */
  lemma TruncAtMost(x: real, hi: real)
    ensures (Integral(hi) || 0.0 <= x) && x <= hi ==> Trunc(x) as real <= hi
  {
    if x < 0.0 && Integral(hi) && x <= hi {
      var r := Trunc(x);
      assert (r as real) - 1.0 < hi;
      assert r - 1 < hi.Floor;
    }
  }

  /**
   * `size_for_target_risk`: the number of contracts whose loss down to the
   * stop (0 by default) stays within the target; 0 when the stop is not
   * below the entry.
   */
  function SizeForTargetRisk(targetRisk: real, entryPrice: real, stopPrice: Option<real>): (n: int)
    ensures entryPrice - stopPrice.GetOr(0.0) <= 0.0 ==> n == 0
    ensures entryPrice - stopPrice.GetOr(0.0) > 0.0 && targetRisk >= 0.0 ==>
              0 <= n && Mul(n as real, entryPrice - stopPrice.GetOr(0.0)) <= targetRisk
              < Mul(n as real + 1.0, entryPrice - stopPrice.GetOr(0.0))
  {
    var risk := entryPrice - stopPrice.GetOr(0.0);
    if risk <= 0.0 then 0
    else
      TruncQuotientBounds(targetRisk, risk);
      Trunc(targetRisk / risk)
  }

  /**
   * `optimal_bet_fraction`: the Kelly fraction for odds `payout / loss`,
   * floored at 0; None where the source divides by zero (a zero loss
   * amount, or a zero payout).
   */
  function OptimalBetFraction(winProbability: real, winPayout: real, lossAmount: real): (r: Option<real>)
    ensures winProbability <= 0.0 || winProbability >= 1.0 ==> r == Some(0.0)
    ensures 0.0 < winProbability < 1.0 ==> (r.None? <==> lossAmount == 0.0 || winPayout == 0.0)
    ensures r.Some? ==> r.value >= 0.0
  {
    if winProbability <= 0.0 || winProbability >= 1.0 then Some(0.0)
    else if lossAmount == 0.0 then None
    else
      var b := winPayout / lossAmount;
      if b == 0.0 then
        DivZero(winPayout, lossAmount);
        None
      else
        DivZero(winPayout, lossAmount);
        Some(Max(0.0, (Mul(b, winProbability) - (1.0 - winProbability)) / b))
  }

  lemma DivZero(x: real, y: real)
    requires y != 0.0
    ensures x / y == 0.0 <==> x == 0.0
  {
    var q := x / y;
    assert q * y == x;
  }

  /** An even-money bet (payout 2, loss 1) won 55% of the time stakes 32.5% of the bankroll. */
  lemma OptimalBetFractionExample()
    ensures OptimalBetFraction(0.55, 2.0, 1.0) == Some(0.325)
  {
    assert Mul(2.0, 0.55) == 1.1;
  }

  /**
   * The sizer's Kelly fraction is the stand-alone one for a contract that
   * pays `1 - entry` and loses `entry`.
   */
  lemma KellyAgreesWithOptimalBetFraction(p: real, entry: real)
    requires 0.0 < p < 1.0 && 0.0 < entry < 1.0
    ensures OptimalBetFraction(p, 1.0 - entry, entry) == Some(Max(0.0, KellyFraction(p, entry)))
  {
    KellyClosedForm(p, entry);
  }
}
