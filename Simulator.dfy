/**
 * The backtest replay engine (backtest/simulator.py). Historical
 * snapshots are replayed in order: positions in markets that have settled
 * are closed and paid out, the signal generators are consulted, each
 * signal is sized against the capital and filled through the fill model,
 * and the equity is recorded. The metrics are computed at the end.
 *
 * The generators are code outside this model: each snapshot carries what
 * every generator produced for it (a signal, nothing, or an exception),
 * together with the fill model's random draws for that signal.
 */
module Simulator {
  import opened Common
  import opened Fills
  import opened Metrics

  /** `BacktestConfig`; dates are seconds since the epoch. */
  datatype BacktestConfig = BacktestConfig(
    startDate: int,
    endDate: int,
    initialCapital: real,
    maxPositionPct: real,
    includeFees: bool,
    feePerContract: real)

  function DefaultConfig(startDate: int, endDate: int): BacktestConfig
  {
    BacktestConfig(startDate, endDate, 10000.0, 0.05, true, 0.01)
  }

  /** `Position`: a contract holding; `direction` is the side's name, "YES" or "NO". */
  datatype Position = Position(
    marketId: string,
    direction: string,
    size: real,
    entryPrice: real,
    entryTime: int,
    exitPrice: Option<real>,
    exitTime: Option<int>)
  {
    predicate IsClosed()
    {
      exitPrice.Some?
    }
  }

  /**
   * `Position.pnl` as the source writes it: a NO position gains when the
   * exit price falls below the entry. Settlement, however, records the
   * price of the contract held, so a NO position that wins exits at 1.0.
   */
  function PnlAsWritten(p: Position): (r: Option<real>)
    ensures r.None? <==> !p.IsClosed()
    ensures r.Some? && p.direction == "YES" ==> r.value == Mul(p.exitPrice.value - p.entryPrice, p.size)
    ensures r.Some? && p.direction != "YES" ==> r.value == Mul(p.entryPrice - p.exitPrice.value, p.size)
  {
    if p.exitPrice.None? then None
    else if p.direction == "YES" then Some(Mul(p.exitPrice.value - p.entryPrice, p.size))
    else Some(Mul(p.entryPrice - p.exitPrice.value, p.size))
  }

  /**
   * The realised P&L of a position: what its contracts fetched at exit less
   * what they cost, for either side. None while it is open.
   */
  function Pnl(p: Position): (r: Option<real>)
    ensures r.None? <==> !p.IsClosed()
  {
    if p.exitPrice.None? then None else Some(Mul(p.exitPrice.value - p.entryPrice, p.size))
  }

  /** What a signal generator yields for one snapshot: what `Signal` offers the simulator is its side and size. */
  datatype TradeSignal = TradeSignal(direction: string, maxSize: real)

  /**
   * One generator's outcome on a snapshot: nothing, an exception, or a
   * signal together with the fill model's two random draws for it.
   */
  datatype Emission = Quiet | Failed | Emit(signal: TradeSignal, draw: real, fillPct: real)

  /**
   * A historical snapshot: its time, the optional price, depth and market
   * id, the settlement results keyed by market id, and what each generator
   * produced for it.
   */
  datatype Snapshot = Snapshot(
    timestamp: int,
    price: Option<real>,
    depth: Option<int>,
    marketId: Option<string>,
    settledMarkets: map<string, string>,
    generated: seq<Emission>)

  datatype EquityPoint = EquityPoint(timestamp: int, equity: real)

  // ------------------------------------------------------------ execution

  /** The fee charged on a fill of `filled` contracts. */
  function FeeCharge(config: BacktestConfig, filled: real): real
  {
    if config.includeFees then Mul(filled, config.feePerContract) else 0.0
  }

  /** What opening the position costs: contracts at the average price, plus fees. */
  function Cost(config: BacktestConfig, fill: Fill): real
  {
    Mul(fill.filledSize, fill.avgPrice) + FeeCharge(config, fill.filledSize)
  }

  /**
   * `_execute_signal` on values: the position and fill that a signal
   * produces, or None when the capped size is under 10 contracts or the
   * fill model fills nothing. The request is the smaller of the signal's
   * size and the configured share of capital.
   */
  function Execution(config: BacktestConfig, fm: FillModel, capital: real, signal: TradeSignal,
                     snap: Snapshot, draw: real, fillPct: real): (r: Option<(Position, Fill)>)
    ensures Min(signal.maxSize, Mul(capital, config.maxPositionPct)) < 10.0 ==> r.None?
    ensures r.Some? ==>
              var (pos, fill) := r.value;
              pos.size == fill.filledSize && pos.size > 0.0
              && pos.entryPrice == fill.avgPrice && 0.01 <= pos.entryPrice <= 0.99
              && !pos.IsClosed() && pos.exitTime.None?
              && pos.marketId == snap.marketId.GetOr("") && pos.direction == signal.direction
              && pos.entryTime == snap.timestamp
    ensures r.Some? && fillPct <= 1.0 ==>
              var pos := r.value.0;
              pos.size <= Min(signal.maxSize, Mul(capital, config.maxPositionPct))
              && pos.size <= snap.depth.GetOr(1000) as real
              && Mul(pos.size, pos.entryPrice) < Mul(capital, config.maxPositionPct)
  {
    var size := Min(signal.maxSize, Mul(capital, config.maxPositionPct));
    if size < 10.0 then None
    else
      var fill := SimulateFill(fm, signal.direction, size, snap.price.GetOr(0.5), snap.depth.GetOr(1000),
                               0.01, 0.02, draw, fillPct);
      if fill.None? then None
      else
        var f := fill.value;
        MulBounds(f.filledSize, f.avgPrice);
        ScaleLe(f.avgPrice, 0.99, f.filledSize);
        MulCommutes(f.filledSize, f.avgPrice);
        Some((Position(snap.marketId.GetOr(""), signal.direction, f.filledSize, f.avgPrice, snap.timestamp, None, None), f))
  }

  // ----------------------------------------------------------- settlement

  /** The position closed at settlement: exit 1.0 when its side is the result, 0.0 otherwise. */
  function Settle(p: Position, settled: map<string, string>, t: int): (q: Position)
    requires p.marketId in settled
    ensures q.IsClosed() && q.exitTime == Some(t)
    ensures q == p.(exitPrice := q.exitPrice, exitTime := q.exitTime)
    ensures q.exitPrice == Some(1.0) <==> p.direction == settled[p.marketId]
    ensures q.exitPrice == Some(0.0) <==> p.direction != settled[p.marketId]
  {
    p.(exitPrice := Some(if p.direction == settled[p.marketId] then 1.0 else 0.0), exitTime := Some(t))
  }

  /** The settlement payout: one per contract when the position's side won, nothing otherwise. */
  function Payout(p: Position, settled: map<string, string>): (r: real)
    requires p.marketId in settled
    ensures p.direction == settled[p.marketId] ==> r == p.size
    ensures p.direction != settled[p.marketId] ==> r == 0.0
  {
    if p.direction == settled[p.marketId] then p.size * 1.0 else 0.0
  }

  /** The positions whose market has not settled, in order. */
  function Remaining(ps: seq<Position>, settled: map<string, string>): seq<Position>
  {
    if ps == [] then []
    else
      var p := ps[|ps| - 1];
      Remaining(ps[..|ps| - 1], settled) + (if p.marketId in settled then [] else [p])
  }

  /** The positions whose market has settled, closed, in order. */
  function SettledOut(ps: seq<Position>, settled: map<string, string>, t: int): seq<Position>
  {
    if ps == [] then []
    else
      var p := ps[|ps| - 1];
      SettledOut(ps[..|ps| - 1], settled, t) + (if p.marketId in settled then [Settle(p, settled, t)] else [])
  }

  /** The total paid out on the settled positions. */
  function PayoutTotal(ps: seq<Position>, settled: map<string, string>): real
  {
    if ps == [] then 0.0
    else
      var p := ps[|ps| - 1];
      PayoutTotal(ps[..|ps| - 1], settled) + (if p.marketId in settled then Payout(p, settled) else 0.0)
  }

  /** The positions kept are exactly those whose market has not settled. */
  lemma {:induction false} RemainingMembers(ps: seq<Position>, settled: map<string, string>)
    ensures forall p :: p in Remaining(ps, settled) <==> p in ps && p.marketId !in settled
  {
    if ps != [] {
      RemainingMembers(ps[..|ps| - 1], settled);
      assert ps == ps[..|ps| - 1] + [ps[|ps| - 1]];
    }
  }

  /** Every position taken out is closed. */
  lemma {:induction false} SettledOutClosed(ps: seq<Position>, settled: map<string, string>, t: int)
    ensures forall q :: q in SettledOut(ps, settled, t) ==> q.IsClosed()
  {
    if ps != [] {
      SettledOutClosed(ps[..|ps| - 1], settled, t);
    }
  }

  /** Settlement moves positions between the lists and neither loses nor adds one. */
  lemma {:induction false} SettlementConservesPositions(ps: seq<Position>, settled: map<string, string>, t: int)
    ensures |Remaining(ps, settled)| + |SettledOut(ps, settled, t)| == |ps|
  {
    if ps != [] {
      SettlementConservesPositions(ps[..|ps| - 1], settled, t);
    }
  }

  // --------------------------------------------------------------- ledger

  /** What the open positions cost to enter. */
  function OpenCost(ps: seq<Position>): real
  {
    if ps == [] then 0.0 else OpenCost(ps[..|ps| - 1]) + Mul(ps[|ps| - 1].size, ps[|ps| - 1].entryPrice)
  }

  /**
   * The ledger's realised P&L: for each closed position what its contracts
   * fetched at exit less what they cost, an open one counting 0. This is
   * what the capital really gained, so the balance below uses it.
   */
  function RealisedPnl(ps: seq<Position>): (r: real)
    ensures AllOpen(ps) ==> r == 0.0
  {
    if ps == [] then 0.0
    else
      assert forall p :: p in ps[..|ps| - 1] ==> p in ps;
      RealisedPnl(ps[..|ps| - 1]) + Pnl(ps[|ps| - 1]).GetOr(0.0)
  }

  /** `total_pnl` as written: the sum of `pnl` as written over the positions, an open one counting 0. */
  function ReportedPnl(ps: seq<Position>): (r: real)
    ensures AllOpen(ps) ==> r == 0.0
  {
    if ps == [] then 0.0
    else
      assert forall p :: p in ps[..|ps| - 1] ==> p in ps;
      ReportedPnl(ps[..|ps| - 1]) + PnlAsWritten(ps[|ps| - 1]).GetOr(0.0)
  }

  /** Where every position is on the YES side, `total_pnl` as written is the realised P&L. */
  lemma {:induction false} ReportedPnlOnYes(ps: seq<Position>)
    requires forall p :: p in ps ==> p.direction == "YES"
    ensures ReportedPnl(ps) == RealisedPnl(ps)
  {
    if ps != [] {
      assert ps[|ps| - 1] in ps;
      assert forall p :: p in ps[..|ps| - 1] ==> p in ps;
      ReportedPnlOnYes(ps[..|ps| - 1]);
    }
  }

  /** A closed NO position is reported by `total_pnl` with the sign of its realised P&L reversed. */
  lemma ReportedPnlInvertsNo(p: Position)
    requires p.IsClosed() && p.direction != "YES"
    ensures ReportedPnl([p]) == -RealisedPnl([p])
  {
    assert [p][..0] == [];
  }

  /** The fees charged on the fills. */
  function FeesPaid(config: BacktestConfig, fills: seq<Fill>): real
  {
    if fills == [] then 0.0 else FeesPaid(config, fills[..|fills| - 1]) + FeeCharge(config, fills[|fills| - 1].filledSize)
  }

  /**
   * Capital plus what the open positions cost plus the fees paid, less the
   * realised P&L: the capital the backtest started with, as long as every
   * change of capital is accounted for.
   */
  function Balance(config: BacktestConfig, capital: real, positions: seq<Position>,
                   closed: seq<Position>, fills: seq<Fill>): real
  {
    capital + OpenCost(positions) + FeesPaid(config, fills) - RealisedPnl(closed)
  }

  lemma {:induction false} OpenCostAppend(xs: seq<Position>, ys: seq<Position>)
    ensures OpenCost(xs + ys) == OpenCost(xs) + OpenCost(ys)
  {
    if ys == [] {
      assert xs + ys == xs;
    } else {
      assert (xs + ys)[..|xs + ys| - 1] == xs + ys[..|ys| - 1];
      OpenCostAppend(xs, ys[..|ys| - 1]);
    }
  }

  lemma {:induction false} RealisedPnlAppend(xs: seq<Position>, ys: seq<Position>)
    ensures RealisedPnl(xs + ys) == RealisedPnl(xs) + RealisedPnl(ys)
  {
    if ys == [] {
      assert xs + ys == xs;
    } else {
      assert (xs + ys)[..|xs + ys| - 1] == xs + ys[..|ys| - 1];
      RealisedPnlAppend(xs, ys[..|ys| - 1]);
    }
  }

  /** A settled position's P&L is its payout less what it cost. */
  lemma SettledPnl(p: Position, settled: map<string, string>, t: int)
    requires p.marketId in settled
    ensures Pnl(Settle(p, settled, t)) == Some(Payout(p, settled) - Mul(p.size, p.entryPrice))
  {
    var q := Settle(p, settled, t);
    var exit := if p.direction == settled[p.marketId] then 1.0 else 0.0;
    assert q.exitPrice == Some(exit) && q.size == p.size && q.entryPrice == p.entryPrice;
    assert Payout(p, settled) == exit * p.size;
    assert Mul(exit - p.entryPrice, p.size) == exit * p.size - Mul(p.size, p.entryPrice) by {
      assert (exit - p.entryPrice) * p.size == exit * p.size - p.size * p.entryPrice;
    }
  }

  /** Over a settlement, payouts and the P&L of the closed positions account for the cost that leaves the open book. */
  lemma {:induction false} SettlementAccounts(ps: seq<Position>, settled: map<string, string>, t: int)
    ensures PayoutTotal(ps, settled) + OpenCost(Remaining(ps, settled)) - RealisedPnl(SettledOut(ps, settled, t))
            == OpenCost(ps)
  {
    if ps != [] {
      var init := ps[..|ps| - 1];
      var p := ps[|ps| - 1];
      SettlementAccounts(init, settled, t);
      var cost := Mul(p.size, p.entryPrice);
      assert OpenCost(ps) == OpenCost(init) + cost;
      if p.marketId in settled {
        SettledPnl(p, settled, t);
        assert Remaining(ps, settled) == Remaining(init, settled);
        assert PayoutTotal(ps, settled) == PayoutTotal(init, settled) + Payout(p, settled);
        RealisedPnlSnoc(SettledOut(init, settled, t), Settle(p, settled, t));
      } else {
        assert SettledOut(ps, settled, t) == SettledOut(init, settled, t);
        assert PayoutTotal(ps, settled) == PayoutTotal(init, settled);
        OpenCostSnoc(Remaining(init, settled), p);
      }
    }
  }

  lemma OpenCostSnoc(xs: seq<Position>, p: Position)
    ensures OpenCost(xs + [p]) == OpenCost(xs) + Mul(p.size, p.entryPrice)
  {
    assert (xs + [p])[..|xs|] == xs;
  }

  lemma RealisedPnlSnoc(xs: seq<Position>, p: Position)
    ensures RealisedPnl(xs + [p]) == RealisedPnl(xs) + Pnl(p).GetOr(0.0)
  {
    assert (xs + [p])[..|xs|] == xs;
  }

  /** Settlement keeps the balance. */
  lemma SettlementKeepsBalance(config: BacktestConfig, capital: real, positions: seq<Position>,
                               closed: seq<Position>, fills: seq<Fill>, settled: map<string, string>, t: int)
    ensures Balance(config, capital + PayoutTotal(positions, settled), Remaining(positions, settled),
                    closed + SettledOut(positions, settled, t), fills)
            == Balance(config, capital, positions, closed, fills)
  {
    SettlementAccounts(positions, settled, t);
    RealisedPnlAppend(closed, SettledOut(positions, settled, t));
  }

  /** Opening a position keeps the balance: the capital spent is the position's cost plus its fee. */
  lemma ExecutionKeepsBalance(config: BacktestConfig, capital: real, positions: seq<Position>,
                              closed: seq<Position>, fills: seq<Fill>, pos: Position, fill: Fill)
    requires pos.size == fill.filledSize && pos.entryPrice == fill.avgPrice
    ensures Balance(config, capital - Cost(config, fill), positions + [pos], closed, fills + [fill])
            == Balance(config, capital, positions, closed, fills)
  {
    OpenCostSnoc(positions, pos);
    assert (fills + [fill])[..|fills|] == fills;
  }

  /**
   * With the P&L as written, a NO position that wins (bought at 0.40,
   * paid 1 per contract) reports a loss of 60 on 100 contracts, although
   * the capital grew by 60 over its cost; the corrected P&L reports 60.
   */
  lemma PnlAsWrittenInvertsNoSide()
    ensures var p := Position("M", "NO", 100.0, 0.4, 0, None, None);
            var settled := map["M" := "NO"];
            var q := Settle(p, settled, 1);
            Payout(p, settled) - Mul(p.size, p.entryPrice) == 60.0
            && PnlAsWritten(q) == Some(-60.0)
            && Pnl(q) == Some(60.0)
  {
    var p := Position("M", "NO", 100.0, 0.4, 0, None, None);
    var settled := map["M" := "NO"];
    SettledPnl(p, settled, 1);
    assert Mul(0.4 - 1.0, 100.0) == -60.0;
  }

  // --------------------------------------------------------------- replay

  /** A snapshot that ends the replay: not before the start date, and after the end date. */
  predicate Stops(s: Snapshot, startDate: int, endDate: int)
  {
    s.timestamp >= startDate && s.timestamp > endDate
  }

  /** The number of snapshots looked at: up to the first that stops the replay. */
  function Horizon(snaps: seq<Snapshot>, startDate: int, endDate: int): (k: nat)
    ensures k <= |snaps|
    ensures forall j :: 0 <= j < k ==> !Stops(snaps[j], startDate, endDate)
    ensures k < |snaps| ==> Stops(snaps[k], startDate, endDate)
  {
    if snaps == [] then 0
    else if Stops(snaps[0], startDate, endDate) then 0
    else 1 + Horizon(snaps[1..], startDate, endDate)
  }

  /** A snapshot that does not stop the replay lies before the horizon. */
  lemma BeforeHorizon(snaps: seq<Snapshot>, i: nat, startDate: int, endDate: int)
    requires i < |snaps| && i <= Horizon(snaps, startDate, endDate) && !Stops(snaps[i], startDate, endDate)
    ensures i < Horizon(snaps, startDate, endDate)
  {
  }

  /** The first snapshot that stops the replay is at the horizon. */
  lemma AtHorizon(snaps: seq<Snapshot>, i: nat, startDate: int, endDate: int)
    requires i < |snaps| && i <= Horizon(snaps, startDate, endDate) && Stops(snaps[i], startDate, endDate)
    ensures i == Horizon(snaps, startDate, endDate)
  {
  }

  /** The snapshots from the start date on, among those given. */
  function FromStart(snaps: seq<Snapshot>, startDate: int): (r: seq<Snapshot>)
    ensures |r| <= |snaps|
  {
    if snaps == [] then []
    else
      var s := snaps[|snaps| - 1];
      FromStart(snaps[..|snaps| - 1], startDate) + (if s.timestamp >= startDate then [s] else [])
  }

  /** The snapshots `run` processes: those looked at, from the start date on. */
  function Processed(snaps: seq<Snapshot>, startDate: int, endDate: int): (r: seq<Snapshot>)
    ensures forall s :: s in r ==> startDate <= s.timestamp <= endDate
  {
    var looked := snaps[..Horizon(snaps, startDate, endDate)];
    assert forall s :: s in looked ==> !Stops(s, startDate, endDate);
    FromStartMembers(looked, startDate);
    FromStart(looked, startDate)
  }

  lemma {:induction false} FromStartMembers(snaps: seq<Snapshot>, startDate: int)
    ensures forall s :: s in FromStart(snaps, startDate) <==> s in snaps && s.timestamp >= startDate
  {
    if snaps != [] {
      FromStartMembers(snaps[..|snaps| - 1], startDate);
      assert snaps == snaps[..|snaps| - 1] + [snaps[|snaps| - 1]];
    }
  }

  /** One snapshot more: it is replayed when it is not before the start date. */
  lemma FromStartStep(snaps: seq<Snapshot>, i: nat, startDate: int)
    requires i < |snaps|
    ensures FromStart(snaps[..i + 1], startDate)
            == FromStart(snaps[..i], startDate) + (if snaps[i].timestamp >= startDate then [snaps[i]] else [])
  {
    assert snaps[..i + 1][..i] == snaps[..i];
  }

  function SnapshotTimes(snaps: seq<Snapshot>): (r: seq<int>)
    ensures |r| == |snaps|
  {
    if snaps == [] then [] else SnapshotTimes(snaps[..|snaps| - 1]) + [snaps[|snaps| - 1].timestamp]
  }

  function CurveTimes(curve: seq<EquityPoint>): (r: seq<int>)
    ensures |r| == |curve|
  {
    if curve == [] then [] else CurveTimes(curve[..|curve| - 1]) + [curve[|curve| - 1].timestamp]
  }

  lemma SnapshotTimesSnoc(snaps: seq<Snapshot>, s: Snapshot)
    ensures SnapshotTimes(snaps + [s]) == SnapshotTimes(snaps) + [s.timestamp]
  {
    assert (snaps + [s])[..|snaps|] == snaps;
  }

  lemma CurveTimesSnoc(curve: seq<EquityPoint>, p: EquityPoint)
    ensures CurveTimes(curve + [p]) == CurveTimes(curve) + [p.timestamp]
  {
    assert (curve + [p])[..|curve|] == curve;
  }

  /** `_generate_signals` on values: the signals produced, in generator order; failures and silence are skipped. */
  function Emitted(generated: seq<Emission>): (r: seq<Emission>)
    ensures forall e :: e in r <==> e in generated && e.Emit?
  {
    if generated == [] then []
    else
      var e := generated[|generated| - 1];
      Emitted(generated[..|generated| - 1]) + (if e.Emit? then [e] else [])
  }

  function Equities(curve: seq<EquityPoint>): (r: seq<real>)
    ensures |r| == |curve| && forall i :: 0 <= i < |curve| ==> r[i] == curve[i].equity
  {
    if curve == [] then [] else Equities(curve[..|curve| - 1]) + [curve[|curve| - 1].equity]
  }

  /** The `pnl` of each closed position as written, in order, as `calculate_metrics` reads them. */
  function ClosedPnls(closed: seq<Position>): (r: seq<Option<real>>)
    ensures |r| == |closed| && forall i :: 0 <= i < |closed| ==> r[i] == PnlAsWritten(closed[i])
  {
    if closed == [] then [] else ClosedPnls(closed[..|closed| - 1]) + [PnlAsWritten(closed[|closed| - 1])]
  }

  /**
   * The backtest state's invariant, on values: the balance equals the
   * initial capital, every fill opened one position, open positions are
   * open and closed ones closed.
   */
  predicate Consistent(config: BacktestConfig, capital: real, positions: seq<Position>,
                       closed: seq<Position>, fills: seq<Fill>)
  {
    Balance(config, capital, positions, closed, fills) == config.initialCapital
    && |positions| + |closed| == |fills|
    && AllOpen(positions) && AllClosed(closed)
  }

  predicate AllOpen(ps: seq<Position>)
  {
    forall p :: p in ps ==> !p.IsClosed()
  }

  predicate AllClosed(ps: seq<Position>)
  {
    forall p :: p in ps ==> p.IsClosed()
  }

  /** Settling keeps the state consistent. */
  lemma SettlementKeepsConsistent(config: BacktestConfig, capital: real, positions: seq<Position>,
                                  closed: seq<Position>, fills: seq<Fill>, settled: map<string, string>, t: int,
                                  capital': real, positions': seq<Position>, closed': seq<Position>)
    requires Consistent(config, capital, positions, closed, fills)
    requires capital' == capital + PayoutTotal(positions, settled)
    requires positions' == Remaining(positions, settled)
    requires closed' == closed + SettledOut(positions, settled, t)
    ensures Consistent(config, capital', positions', closed', fills)
  {
    SettlementKeepsBalance(config, capital, positions, closed, fills, settled, t);
    SettlementConservesPositions(positions, settled, t);
    RemainingMembers(positions, settled);
    SettledOutClosed(positions, settled, t);
  }

  /** Executing a signal keeps the state consistent. */
  lemma ExecutionKeepsConsistent(config: BacktestConfig, fm: FillModel, capital: real, positions: seq<Position>,
                                 closed: seq<Position>, fills: seq<Fill>, signal: TradeSignal, snap: Snapshot,
                                 draw: real, fillPct: real)
    requires Consistent(config, capital, positions, closed, fills)
    ensures var e := Execution(config, fm, capital, signal, snap, draw, fillPct);
            e.Some? ==> Consistent(config, capital - Cost(config, e.value.1), positions + [e.value.0], closed, fills + [e.value.1])
  {
    var e := Execution(config, fm, capital, signal, snap, draw, fillPct);
    if e.Some? {
      ExecutionKeepsBalance(config, capital, positions, closed, fills, e.value.0, e.value.1);
    }
  }

  /** One iteration of the settlement loop extends each of its results by the position at hand. */
  lemma SettlementStep(open: seq<Position>, i: nat, settled: map<string, string>, t: int)
    requires i < |open|
    ensures var p := open[i];
            Remaining(open[..i + 1], settled) == Remaining(open[..i], settled) + (if p.marketId in settled then [] else [p])
            && SettledOut(open[..i + 1], settled, t)
               == SettledOut(open[..i], settled, t) + (if p.marketId in settled then [Settle(p, settled, t)] else [])
            && PayoutTotal(open[..i + 1], settled)
               == PayoutTotal(open[..i], settled) + (if p.marketId in settled then Payout(p, settled) else 0.0)
  {
    assert open[..i + 1][..i] == open[..i];
  }

  /**
   * The open list during the settlement loop: the positions kept so far
   * followed by those not yet looked at. Removing the one at hand, or
   * keeping it, gives the list for the next iteration.
   */
  lemma RemovalStep(open: seq<Position>, i: nat, settled: map<string, string>)
    requires i < |open|
    ensures var kept := Remaining(open[..i], settled);
            var current := kept + open[i..];
            |kept| < |current| && current[|kept|] == open[i]
            && (open[i].marketId in settled ==>
                  current[..|kept|] + current[|kept| + 1..] == Remaining(open[..i + 1], settled) + open[i + 1..])
            && (open[i].marketId !in settled ==> current == Remaining(open[..i + 1], settled) + open[i + 1..])
  {
    var kept := Remaining(open[..i], settled);
    assert open[..i + 1][..i] == open[..i];
    assert open[i..] == [open[i]] + open[i + 1..];
    assert kept + open[i..] == kept + [open[i]] + open[i + 1..];
    DropAt(kept, open[i], open[i + 1..]);
  }

  /** Removing the element after a prefix leaves the prefix and the rest. */
  lemma DropAt<T>(prefix: seq<T>, x: T, rest: seq<T>)
    ensures var s := prefix + [x] + rest; s[..|prefix|] + s[|prefix| + 1..] == prefix + rest
  {
    var s := prefix + [x] + rest;
    assert s[..|prefix|] == prefix;
    assert s[|prefix| + 1..] == rest;
  }

  /** One pass of the settlement loop: the position at index `i` of the copy. */
  method SettleAt(open: seq<Position>, i: nat, closedBefore: seq<Position>, capitalBefore: real,
                  settled: map<string, string>, t: int,
                  positions: seq<Position>, closedPositions: seq<Position>, capital: real)
    returns (positions': seq<Position>, closedPositions': seq<Position>, capital': real)
    requires i < |open|
    requires positions == Remaining(open[..i], settled) + open[i..]
    requires closedPositions == closedBefore + SettledOut(open[..i], settled, t)
    requires capital == capitalBefore + PayoutTotal(open[..i], settled)
    ensures positions' == Remaining(open[..i + 1], settled) + open[i + 1..]
    ensures closedPositions' == closedBefore + SettledOut(open[..i + 1], settled, t)
    ensures capital' == capitalBefore + PayoutTotal(open[..i + 1], settled)
  {
    var position := open[i];
    SettlementStep(open, i, settled, t);
    RemovalStep(open, i, settled);
    positions', closedPositions', capital' := positions, closedPositions, capital;
    if position.marketId in settled {
      var result := settled[position.marketId];
      var payout := if position.direction == result then position.size * 1.0 else 0.0;
      var closed := position.(exitPrice := Some(if position.direction == result then 1.0 else 0.0),
                              exitTime := Some(t));
      assert closed == Settle(position, settled, t) && payout == Payout(position, settled);
      capital' := capital + payout;
      var k := |Remaining(open[..i], settled)|;
      positions' := positions[..k] + positions[k + 1..];
      closedPositions' := closedPositions + [closed];
    }
  }

  /**
   * The loop of `_check_settlements`, over a copy of the open positions:
   * a position whose market has a result is removed from the open list,
   * closed, appended to the closed list, and its payout added to the
   * capital.
   */
  method SettleOpenPositions(open: seq<Position>, closedBefore: seq<Position>, capitalBefore: real,
                             settled: map<string, string>, t: int)
    returns (positions: seq<Position>, closedPositions: seq<Position>, capital: real)
    ensures positions == Remaining(open, settled)
    ensures closedPositions == closedBefore + SettledOut(open, settled, t)
    ensures capital == capitalBefore + PayoutTotal(open, settled)
  {
    positions, closedPositions, capital := open, closedBefore, capitalBefore;
    for i := 0 to |open|
      invariant positions == Remaining(open[..i], settled) + open[i..]
      invariant closedPositions == closedBefore + SettledOut(open[..i], settled, t)
      invariant capital == capitalBefore + PayoutTotal(open[..i], settled)
    {
      positions, closedPositions, capital :=
        SettleAt(open, i, closedBefore, capitalBefore, settled, t, positions, closedPositions, capital);
    }
    assert open[..|open|] == open;
  }

  /** `BacktestState`: the capital and the open and closed positions and fills. */
  class BacktestState {
    var capital: real
    var positions: seq<Position>
    var closedPositions: seq<Position>
    var fills: seq<Fill>

    constructor(capital: real)
      ensures this.capital == capital && positions == [] && closedPositions == [] && fills == []
    {
      this.capital := capital;
      positions := [];
      closedPositions := [];
      fills := [];
    }

    /** `equity`: the capital; open positions are not marked to market. */
    function Equity(): real
      reads this
    {
      capital
    }

    /**
     * `total_pnl`, with `pnl` as written: 0 while no position is closed,
     * and the realised P&L when every closed position is on the YES side.
     */
    function TotalPnl(): (r: real)
      reads this
      ensures closedPositions == [] ==> r == 0.0
      ensures (forall p :: p in closedPositions ==> p.direction == "YES") ==> r == RealisedPnl(closedPositions)
    {
      if forall p :: p in closedPositions ==> p.direction == "YES" then
        ReportedPnlOnYes(closedPositions);
        ReportedPnl(closedPositions)
      else ReportedPnl(closedPositions)
    }
  }

  class BacktestSimulator {
    const config: BacktestConfig
    const fillModel: FillModel
    const state: BacktestState

    /**
     * The state's invariant: the balance equals the initial capital, every
     * fill opened one position, open positions are open and closed ones closed.
     */
    predicate Valid()
      reads this, state
    {
      Consistent(config, state.capital, state.positions, state.closedPositions, state.fills)
    }

    /**
     * The equity the simulator reports is what it started with, less what
     * the open positions cost and the fees paid, plus the realised P&L.
     */
    lemma EquityAccounts()
      requires Valid()
      ensures state.Equity() == config.initialCapital - OpenCost(state.positions) - FeesPaid(config, state.fills)
                                + RealisedPnl(state.closedPositions)
    {
    }

    constructor(config: BacktestConfig, fillModel: Option<FillModel>)
      ensures this.config == config && this.fillModel == fillModel.GetOr(DefaultFillModel)
      ensures fresh(state) && state.capital == config.initialCapital
      ensures state.positions == [] && state.closedPositions == [] && state.fills == []
      ensures Valid()
    {
      this.config := config;
      this.fillModel := fillModel.GetOr(DefaultFillModel);
      state := new BacktestState(config.initialCapital);
    }

    /** `_execute_signal`: open the position, pay its cost and fee, and record the fill. */
    method ExecuteSignal(signal: TradeSignal, draw: real, fillPct: real, snap: Snapshot)
      requires Valid()
      modifies state
      ensures Valid()
      ensures var e := Execution(config, fillModel, old(state.capital), signal, snap, draw, fillPct);
              if e.None? then
                state.capital == old(state.capital) && state.positions == old(state.positions)
                && state.closedPositions == old(state.closedPositions) && state.fills == old(state.fills)
              else
                state.capital == old(state.capital) - Cost(config, e.value.1)
                && state.positions == old(state.positions) + [e.value.0]
                && state.closedPositions == old(state.closedPositions)
                && state.fills == old(state.fills) + [e.value.1]
    {
      var size := Min(signal.maxSize, Mul(state.capital, config.maxPositionPct));
      if size < 10.0 {
        return;
      }
      var fill := SimulateFill(fillModel, signal.direction, size, snap.price.GetOr(0.5), snap.depth.GetOr(1000),
                               0.01, 0.02, draw, fillPct);
      if fill.None? {
        return;
      }
      var f := fill.value;
      var position := Position(snap.marketId.GetOr(""), signal.direction, f.filledSize, f.avgPrice, snap.timestamp, None, None);
      var cost := Mul(f.filledSize, f.avgPrice);
      if config.includeFees {
        cost := cost + Mul(f.filledSize, config.feePerContract);
      }
      ExecutionKeepsConsistent(config, fillModel, state.capital, state.positions, state.closedPositions, state.fills,
                               signal, snap, draw, fillPct);
      state.capital := state.capital - cost;
      state.positions := state.positions + [position];
      state.fills := state.fills + [f];
    }

    /**
     * `_check_settlements`: each position whose market has a result is
     * closed at 1.0 or 0.0, paid out, and moved to the closed positions.
     */
    method CheckSettlements(snap: Snapshot)
      requires Valid()
      modifies state
      ensures Valid()
      ensures state.positions == Remaining(old(state.positions), snap.settledMarkets)
      ensures state.closedPositions == old(state.closedPositions) + SettledOut(old(state.positions), snap.settledMarkets, snap.timestamp)
      ensures state.capital == old(state.capital) + PayoutTotal(old(state.positions), snap.settledMarkets)
      ensures state.fills == old(state.fills)
    {
      var positions, closedPositions, capital :=
        SettleOpenPositions(state.positions, state.closedPositions, state.capital, snap.settledMarkets, snap.timestamp);
      state.capital, state.positions, state.closedPositions := capital, positions, closedPositions;
      SettlementKeepsConsistent(config, old(state.capital), old(state.positions), old(state.closedPositions), state.fills,
                                snap.settledMarkets, snap.timestamp, state.capital, state.positions, state.closedPositions);
    }

    /** `_generate_signals`: the signals of the generators that produced one. */
    method GenerateSignals(generated: seq<Emission>) returns (signals: seq<Emission>)
      ensures signals == Emitted(generated)
    {
      signals := [];
      for i := 0 to |generated|
        invariant signals == Emitted(generated[..i])
      {
        assert generated[..i + 1][..i] == generated[..i];
        if generated[i].Emit? {
          signals := signals + [generated[i]];
        }
      }
      assert generated[..|generated|] == generated;
    }

    /** The body of the replay loop: settle, generate the signals, and execute each of them. */
    method ProcessSnapshot(snapshot: Snapshot)
      requires Valid()
      modifies state
      ensures Valid()
    {
      CheckSettlements(snapshot);
      var signals := GenerateSignals(snapshot.generated);
      for k := 0 to |signals|
        invariant Valid()
      {
        var e := signals[k];
        assert e in Emitted(snapshot.generated);
        ExecuteSignal(e.signal, e.draw, e.fillPct, snapshot);
      }
    }

    /** One replayed snapshot: processed, then its time and the equity after it appended to the curve. */
    method ProcessAndRecord(snapshot: Snapshot, equityCurve: seq<EquityPoint>) returns (curve: seq<EquityPoint>)
      requires Valid()
      modifies state
      ensures Valid()
      ensures CurveTimes(curve) == CurveTimes(equityCurve) + [snapshot.timestamp]
      ensures curve != [] && curve[|curve| - 1].equity == state.capital
    {
      ProcessSnapshot(snapshot);
      var point := EquityPoint(snapshot.timestamp, state.Equity());
      CurveTimesSnoc(equityCurve, point);
      curve := equityCurve + [point];
    }

    /**
     * The replay loop of `run`: the snapshots before the start date are
     * skipped, the replay stops at the first after the end date, and every
     * snapshot processed adds a point to the equity curve.
     */
    method Replay(snapshots: seq<Snapshot>) returns (equityCurve: seq<EquityPoint>)
      requires Valid()
      modifies state
      ensures Valid()
      ensures CurveTimes(equityCurve) == SnapshotTimes(Processed(snapshots, config.startDate, config.endDate))
      ensures equityCurve != [] ==> equityCurve[|equityCurve| - 1].equity == state.capital
    {
      equityCurve := [];
      ghost var horizon := Horizon(snapshots, config.startDate, config.endDate);
      var i := 0;
      while i < |snapshots|
        invariant 0 <= i <= horizon
        invariant Valid()
        invariant CurveTimes(equityCurve) == SnapshotTimes(FromStart(snapshots[..i], config.startDate))
        invariant equityCurve != [] ==> equityCurve[|equityCurve| - 1].equity == state.capital
      {
        var snapshot := snapshots[i];
        var timestamp := snapshot.timestamp;
        FromStartStep(snapshots, i, config.startDate);
        if timestamp < config.startDate {
          BeforeHorizon(snapshots, i, config.startDate, config.endDate);
          assert FromStart(snapshots[..i + 1], config.startDate) == FromStart(snapshots[..i], config.startDate);
          i := i + 1;
          continue;
        }
        if timestamp > config.endDate {
          AtHorizon(snapshots, i, config.startDate, config.endDate);
          break;
        }
        BeforeHorizon(snapshots, i, config.startDate, config.endDate);
        equityCurve := ProcessAndRecord(snapshot, equityCurve);
        SnapshotTimesSnoc(FromStart(snapshots[..i], config.startDate), snapshot);
        assert FromStart(snapshots[..i + 1], config.startDate) == FromStart(snapshots[..i], config.startDate) + [snapshot];
        assert CurveTimes(equityCurve) == SnapshotTimes(FromStart(snapshots[..i + 1], config.startDate));
        i := i + 1;
      }
      assert snapshots[..horizon] == snapshots[..i];
    }

    /**
     * `run`: replay the snapshots, then the metrics of the equity curve and
     * the closed positions. The curve is returned as a ghost result so that
     * it can be described.
     */
    method Run(snapshots: seq<Snapshot>) returns (metrics: Option<BacktestMetrics>, ghost curve: seq<EquityPoint>)
      requires Valid()
      modifies state
      ensures Valid()
      ensures CurveTimes(curve) == SnapshotTimes(Processed(snapshots, config.startDate, config.endDate))
      ensures curve != [] ==> curve[|curve| - 1].equity == state.capital
      ensures metrics == MetricsOf(Equities(curve), ClosedPnls(state.closedPositions), config.initialCapital)
    {
      var equityCurve := Replay(snapshots);
      curve := equityCurve;
      metrics := CalculateMetrics(Equities(equityCurve), ClosedPnls(state.closedPositions), config.initialCapital);
    }
  }
}
