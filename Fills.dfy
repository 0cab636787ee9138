/**
 * Fill simulation for backtests (backtest/fills.py): slippage that grows
 * with the share of depth taken and with volatility and is never below
 * half the spread, and fills that are capped by depth, occasionally
 * partial, and priced at the slipped price clamped into [0.01, 0.99].
 * The two random draws of the source are parameters.
 */
module Fills {
  import opened Common

  /**
   * A fill. Sizes are reals: the simulator requests `min(max_size,
   * capital * pct)`, which may be fractional, and a whole fill keeps it.
   */
  datatype Fill = Fill(requestedSize: real, filledSize: real, avgPrice: real, slippage: real)

  /** `fill_rate`: the filled share of the request, 0 for an empty request. */
  function FillRate(f: Fill): (r: real)
    ensures f.requestedSize == 0.0 ==> r == 0.0
    ensures f.requestedSize != 0.0 ==> Mul(r, f.requestedSize) == f.filledSize
    ensures 0.0 <= f.filledSize <= f.requestedSize ==> 0.0 <= r <= 1.0
  {
    if f.requestedSize == 0.0 then 0.0
    else
      QuotientTimesDivisor(f.filledSize, f.requestedSize);
      if 0.0 <= f.filledSize <= f.requestedSize then
        DivUnit(f.filledSize, f.requestedSize);
        f.filledSize / f.requestedSize
      else f.filledSize / f.requestedSize
  }

  datatype SlippageModel = SlippageModel(baseSlippageBps: real, sizeImpactFactor: real, volatilityFactor: real)

  const DefaultSlippageModel := SlippageModel(10.0, 0.1, 1.0)

  /** The slippage before the half-spread floor: base, plus the size impact, scaled up by volatility. */
  function RawSlippage(m: SlippageModel, size: real, depth: int, volatility: real): real
  {
    var base := m.baseSlippageBps / 10000.0;
    var sized := if depth > 0 then base + Mul(m.sizeImpactFactor, size / depth as real) else base;
    Mul(sized, 1.0 + Mul(volatility, m.volatilityFactor))
  }

  /** `estimate_slippage`: never less than half the spread. */
  function EstimateSlippage(m: SlippageModel, size: real, depth: int, volatility: real, spread: real): (s: real)
    ensures s >= spread / 2.0 && s >= RawSlippage(m, size, depth, volatility)
    ensures s == spread / 2.0 || s == RawSlippage(m, size, depth, volatility)
  {
    Max(RawSlippage(m, size, depth, volatility), spread / 2.0)
  }

  /** For a fixed positive depth and non-negative factors, a larger order never slips less. */
  lemma SlippageMonotoneInSize(m: SlippageModel, s1: real, s2: real, depth: int, volatility: real, spread: real)
    requires s1 <= s2 && depth > 0
    requires m.sizeImpactFactor >= 0.0 && volatility >= 0.0 && m.volatilityFactor >= 0.0
    ensures EstimateSlippage(m, s1, depth, volatility, spread) <= EstimateSlippage(m, s2, depth, volatility, spread)
  {
    var base := m.baseSlippageBps / 10000.0;
    DivLe(s1, s2, depth as real);
    MulMonotone(m.sizeImpactFactor, s1 / depth as real, s2 / depth as real);
    MulBounds(volatility, m.volatilityFactor);
    ScaleLe(base + Mul(m.sizeImpactFactor, s1 / depth as real),
            base + Mul(m.sizeImpactFactor, s2 / depth as real),
            1.0 + Mul(volatility, m.volatilityFactor));
  }

  datatype FillModel = FillModel(slippage: SlippageModel, partialFillProb: real, minFillPct: real)

  const DefaultFillModel := FillModel(DefaultSlippageModel, 0.1, 0.5)

  /**
   * The contracts filled before the zero check: all the depth when the
   * order exceeds it, else a partial `int(size * fillPct)` when the draw
   * falls below the partial-fill probability, else the whole order.
   * `draw` is `random.random()` and `fillPct` is `random.uniform(min_fill_pct, 1.0)`.
   */
  function FilledSize(fm: FillModel, size: real, depth: int, draw: real, fillPct: real): (n: real)
    ensures size > depth as real ==> n == depth as real
    ensures size <= depth as real && draw >= fm.partialFillProb ==> n == size
    ensures size <= depth as real && draw < fm.partialFillProb ==> n == Trunc(Mul(size, fillPct)) as real
    ensures size >= 0.0 && fillPct >= 0.0 && depth >= 0 ==> n >= 0.0
    ensures size > 0.0 && fillPct <= 1.0 ==> n <= size
  {
    if size > depth as real then depth as real
    else if draw < fm.partialFillProb then
      MulBounds(size, fillPct);
      Trunc(Mul(size, fillPct)) as real
    else size
  }

  /** `simulate_fill`: None for an empty order, no depth, or a fill that rounds to nothing. */
  function SimulateFill(fm: FillModel, side: string, size: real, price: real, depth: int,
                        volatility: real, spread: real, draw: real, fillPct: real): (r: Option<Fill>)
    ensures size <= 0.0 || depth <= 0 ==> r == None
    ensures size > 0.0 && depth > 0 ==> (r.None? <==> FilledSize(fm, size, depth, draw, fillPct) <= 0.0)
    ensures size > depth as real && depth > 0 ==> r.Some? && r.value.filledSize == depth as real
    ensures r.Some? ==> r.value.requestedSize == size && 0.0 < r.value.filledSize
    ensures r.Some? ==> r.value.filledSize == FilledSize(fm, size, depth, draw, fillPct)
    ensures r.Some? && fillPct <= 1.0 ==> r.value.filledSize <= size && r.value.filledSize <= depth as real
    ensures r.Some? ==> 0.01 <= r.value.avgPrice <= 0.99
    ensures r.Some? ==> r.value.slippage >= spread / 2.0
    ensures r.Some? ==> r.value.slippage == EstimateSlippage(fm.slippage, r.value.filledSize, depth, volatility, spread)
    ensures r.Some? && side == "YES" ==> r.value.avgPrice == Clamp(price + r.value.slippage, 0.01, 0.99)
    ensures r.Some? && side != "YES" ==> r.value.avgPrice == Clamp(price - r.value.slippage, 0.01, 0.99)
  {
    if size <= 0.0 || depth <= 0 then None
    else
      var filled := FilledSize(fm, size, depth, draw, fillPct);
      if filled <= 0.0 then None
      else
        var slippage := EstimateSlippage(fm.slippage, filled, depth, volatility, spread);
        var moved := if side == "YES" then price + slippage else price - slippage;
        Some(Fill(size, filled, Max(0.01, Min(0.99, moved)), slippage))
  }
}
