/**
 * Combining the signals of one market into a single directional view
 * (strategy/aggregator.py): neutral signals are dropped, YES and NO
 * signals are scored with per-name weights, the heavier side wins, and
 * the confidence is the agreement ratio times the mean confidence.
 */
module Aggregator {
  import opened Common
  import opened Signals

  datatype AggregatedSignal = AggregatedSignal(
    marketId: Option<string>,
    direction: Direction,
    aggregateScore: real,
    confidence: real,
    contributing: seq<Signal>,
    weightsUsed: map<string, real>)

  /** Number of signals in `s` that point in direction `d`. */
  function CountDirection(s: seq<Signal>, d: Direction): (n: nat)
    ensures n <= |s|
  {
    if s == [] then 0
    else CountDirection(s[..|s| - 1], d) + (if s[|s| - 1].direction == d then 1 else 0)
  }

  lemma {:induction false} CountDirectionAll(s: seq<Signal>, d: Direction)
    requires forall x | x in s :: x.direction == d
    ensures CountDirection(s, d) == |s|
  {
    if s != [] {
      assert forall x | x in s[..|s| - 1] :: x in s;
      CountDirectionAll(s[..|s| - 1], d);
    }
  }

  /** `signal_count`: the number of contributing signals. */
  function SignalCount(a: AggregatedSignal): (n: nat)
    ensures n == |a.contributing|
  {
    |a.contributing|
  }

  /** `agreement_ratio`: the share of contributing signals that agree with the aggregate direction. */
  function AgreementRatio(a: AggregatedSignal): (r: real)
    ensures 0.0 <= r <= 1.0
    ensures a.contributing == [] ==> r == 0.0
    ensures a.contributing != [] && (forall x | x in a.contributing :: x.direction == a.direction) ==> r == 1.0
  {
    if a.contributing == [] then 0.0
    else
      var n := CountDirection(a.contributing, a.direction);
      DivUnit(n as real, |a.contributing| as real);
      if forall x | x in a.contributing :: x.direction == a.direction then
        CountDirectionAll(a.contributing, a.direction);
        n as real / |a.contributing| as real
      else
        n as real / |a.contributing| as real
  }

  /** The non-neutral signals, in input order. */
  function Directional(s: seq<Signal>): (r: seq<Signal>)
    ensures |r| <= |s|
  {
    if s == [] then []
    else Directional(s[..|s| - 1]) + (if s[|s| - 1].direction != Neutral then [s[|s| - 1]] else [])
  }

  lemma {:induction false} DirectionalExactly(s: seq<Signal>)
    ensures forall x :: x in Directional(s) <==> x in s && x.direction != Neutral
    ensures |Directional(s)| == |s| - CountDirection(s, Neutral)
  {
    if s != [] {
      DirectionalExactly(s[..|s| - 1]);
      assert s == s[..|s| - 1] + [s[|s| - 1]];
    }
  }

  /** `weights.get(name, default_weight)` with the default weight 1.0. */
  function WeightOf(weights: map<string, real>, name: string): (w: real)
    ensures name in weights ==> w == weights[name]
    ensures name !in weights ==> w == 1.0
  {
    if name in weights then weights[name] else 1.0
  }

  /** The weighted score accumulated for direction `d`. */
  function ScoreFor(ds: seq<Signal>, weights: map<string, real>, d: Direction): real
  {
    if ds == [] then 0.0
    else
      var s := ds[|ds| - 1];
      ScoreFor(ds[..|ds| - 1], weights, d)
        + (if s.direction == d then Mul(CompositeScore(s), WeightOf(weights, s.name)) else 0.0)
  }

  /** The total weight accumulated for direction `d`. */
  function WeightFor(ds: seq<Signal>, weights: map<string, real>, d: Direction): real
  {
    if ds == [] then 0.0
    else
      var s := ds[|ds| - 1];
      WeightFor(ds[..|ds| - 1], weights, d) + (if s.direction == d then WeightOf(weights, s.name) else 0.0)
  }

  function SumConfidence(ds: seq<Signal>): real
  {
    if ds == [] then 0.0 else SumConfidence(ds[..|ds| - 1]) + ds[|ds| - 1].confidence
  }

  /** The `weights_used` dictionary: each contributing name mapped to the weight it was given. */
  function WeightsUsed(ds: seq<Signal>, weights: map<string, real>): map<string, real>
  {
    if ds == [] then map[]
    else WeightsUsed(ds[..|ds| - 1], weights)[ds[|ds| - 1].name := WeightOf(weights, ds[|ds| - 1].name)]
  }

  lemma {:induction false} WeightsUsedExactly(ds: seq<Signal>, weights: map<string, real>)
    ensures forall n :: n in WeightsUsed(ds, weights) <==> exists x :: x in ds && x.name == n
    ensures forall n | n in WeightsUsed(ds, weights) :: WeightsUsed(ds, weights)[n] == WeightOf(weights, n)
  {
    if ds != [] {
      var init := ds[..|ds| - 1];
      WeightsUsedExactly(init, weights);
      assert ds == init + [ds[|ds| - 1]];
      forall n | exists x :: x in ds && x.name == n
        ensures n in WeightsUsed(ds, weights)
      {
        var x :| x in ds && x.name == n;
        if x != ds[|ds| - 1] {
          assert x in init;
        }
      }
    }
  }

  /** What `SignalAggregator.aggregate` returns for `signals`. */
  function AggregateOf(signals: seq<Signal>, weights: map<string, real>, minSignals: int): (r: Option<AggregatedSignal>)
    ensures |signals| < minSignals ==> r == None
    ensures Directional(signals) == [] ==> r == None
    ensures ScoreFor(Directional(signals), weights, Yes) == ScoreFor(Directional(signals), weights, No) ==> r == None
    ensures r.Some? ==> r.value.contributing == Directional(signals) && r.value.contributing != []
    ensures r.Some? ==> r.value.direction != Neutral
    ensures r.Some? ==> (r.value.direction == Yes <==>
      ScoreFor(Directional(signals), weights, Yes) > ScoreFor(Directional(signals), weights, No))
    ensures r.Some? ==>
      r.value.confidence == Mul(AgreementRatio(r.value), SumConfidence(r.value.contributing) / |r.value.contributing| as real)
    ensures r.None? <==> (|signals| < minSignals || Directional(signals) == [] ||
                          ScoreFor(Directional(signals), weights, Yes) == ScoreFor(Directional(signals), weights, No))
    ensures r.Some? ==> r.value.marketId == Directional(signals)[0].marketId
    ensures r.Some? ==>
      var ds, d := Directional(signals), r.value.direction;
      r.value.aggregateScore ==
        if WeightFor(ds, weights, d) > 0.0 then ScoreFor(ds, weights, d) / WeightFor(ds, weights, d) else 0.0
  {
    if |signals| < minSignals then None
    else
      var ds := Directional(signals);
      if ds == [] then None
      else
        var yes := ScoreFor(ds, weights, Yes);
        var no := ScoreFor(ds, weights, No);
        if yes == no then None
        else
          var d := if yes > no then Yes else No;
          var total := WeightFor(ds, weights, d);
          var score := if d == Yes then yes else no;
          var aggregateScore := if total > 0.0 then score / total else 0.0;
          var agreement := CountDirection(ds, d) as real / |ds| as real;
          var avgConfidence := SumConfidence(ds) / |ds| as real;
          Some(AggregatedSignal(ds[0].marketId, d, aggregateScore, Mul(agreement, avgConfidence), ds,
                                WeightsUsed(ds, weights)))
  }

  /** The loop of `aggregate`: one pass over the directional signals accumulates the four sums. */
  method AccumulateScores(directional: seq<Signal>, weights: map<string, real>)
    returns (yesScore: real, noScore: real, yesWeight: real, noWeight: real, weightsUsed: map<string, real>)
    requires forall x | x in directional :: x.direction != Neutral
    ensures yesScore == ScoreFor(directional, weights, Yes) && noScore == ScoreFor(directional, weights, No)
    ensures yesWeight == WeightFor(directional, weights, Yes) && noWeight == WeightFor(directional, weights, No)
    ensures weightsUsed == WeightsUsed(directional, weights)
  {
    yesScore, noScore, yesWeight, noWeight := 0.0, 0.0, 0.0, 0.0;
    weightsUsed := map[];
    var i := 0;
    while i < |directional|
      invariant 0 <= i <= |directional|
      invariant yesScore == ScoreFor(directional[..i], weights, Yes)
      invariant noScore == ScoreFor(directional[..i], weights, No)
      invariant yesWeight == WeightFor(directional[..i], weights, Yes)
      invariant noWeight == WeightFor(directional[..i], weights, No)
      invariant weightsUsed == WeightsUsed(directional[..i], weights)
    {
      var signal := directional[i];
      assert signal in directional;
      var weight := WeightOf(weights, signal.name);
      var weightedScore := Mul(CompositeScore(signal), weight);
      weightsUsed := weightsUsed[signal.name := weight];
      if signal.direction == Yes {
        yesScore := yesScore + weightedScore;
        yesWeight := yesWeight + weight;
      } else {
        noScore := noScore + weightedScore;
        noWeight := noWeight + weight;
      }
      assert directional[..i + 1][..i] == directional[..i];
      i := i + 1;
    }
    assert directional[..i] == directional;
  }

  /** `SignalAggregator.aggregate`. */
  method Aggregate(signals: seq<Signal>, weights: map<string, real>, minSignals: int)
    returns (r: Option<AggregatedSignal>)
    ensures r == AggregateOf(signals, weights, minSignals)
  {
    if |signals| < minSignals {
      return None;
    }
    var directional := Directional(signals);
    if directional == [] {
      return None;
    }
    DirectionalExactly(signals);
    var yesScore, noScore, yesWeight, noWeight, weightsUsed := AccumulateScores(directional, weights);
    var direction: Direction;
    var aggregateScore: real;
    if yesScore > noScore {
      direction := Yes;
      aggregateScore := if yesWeight > 0.0 then yesScore / yesWeight else 0.0;
    } else if noScore > yesScore {
      direction := No;
      aggregateScore := if noWeight > 0.0 then noScore / noWeight else 0.0;
    } else {
      return None;
    }
    var agreement := CountDirection(directional, direction) as real / |directional| as real;
    var avgConfidence := SumConfidence(directional) / |directional| as real;
    r := Some(AggregatedSignal(directional[0].marketId, direction, aggregateScore,
                               Mul(agreement, avgConfidence), directional, weightsUsed));
  }

  /** Every contributing signal is one of the inputs and is not neutral; their number is the non-neutral count. */
  lemma AggregateContributors(signals: seq<Signal>, weights: map<string, real>, minSignals: int)
    requires AggregateOf(signals, weights, minSignals).Some?
    ensures forall x | x in AggregateOf(signals, weights, minSignals).value.contributing ::
      x in signals && x.direction != Neutral
    ensures SignalCount(AggregateOf(signals, weights, minSignals).value)
      == |signals| - CountDirection(signals, Neutral)
  {
    DirectionalExactly(signals);
  }

  /** Every weight in `weights_used` is the weight of a contributing signal's name. */
  lemma AggregateWeightsUsed(signals: seq<Signal>, weights: map<string, real>, minSignals: int)
    requires AggregateOf(signals, weights, minSignals).Some?
    ensures var a := AggregateOf(signals, weights, minSignals).value;
      forall n :: n in a.weightsUsed <==> exists x :: x in a.contributing && x.name == n
    ensures var a := AggregateOf(signals, weights, minSignals).value;
      forall n | n in a.weightsUsed :: a.weightsUsed[n] == WeightOf(weights, n)
  {
    WeightsUsedExactly(Directional(signals), weights);
  }

  lemma {:induction false} SumConfidenceBounds(ds: seq<Signal>)
    requires forall x | x in ds :: Clamped(x)
    ensures 0.0 <= SumConfidence(ds) <= |ds| as real
  {
    if ds != [] {
      assert forall x | x in ds[..|ds| - 1] :: x in ds;
      SumConfidenceBounds(ds[..|ds| - 1]);
      assert ds[|ds| - 1] in ds;
    }
  }

  /** For clamped inputs and non-negative weights, a side's score is between 0 and its total weight. */
  lemma {:induction false} ScoreForBounds(ds: seq<Signal>, weights: map<string, real>, d: Direction)
    requires forall x | x in ds :: Clamped(x)
    requires forall n | n in weights :: weights[n] >= 0.0
    ensures 0.0 <= ScoreFor(ds, weights, d) <= WeightFor(ds, weights, d)
  {
    if ds != [] {
      var s := ds[|ds| - 1];
      assert forall x | x in ds[..|ds| - 1] :: x in ds;
      ScoreForBounds(ds[..|ds| - 1], weights, d);
      assert s in ds;
      MulBounds(CompositeScore(s), WeightOf(weights, s.name));
    }
  }

  /** The aggregate confidence lies in [0, 1] when every input signal is clamped. */
  lemma AggregateConfidenceBounds(signals: seq<Signal>, weights: map<string, real>, minSignals: int)
    requires forall x | x in signals :: Clamped(x)
    requires AggregateOf(signals, weights, minSignals).Some?
    ensures 0.0 <= AggregateOf(signals, weights, minSignals).value.confidence <= 1.0
  {
    var a := AggregateOf(signals, weights, minSignals).value;
    DirectionalExactly(signals);
    SumConfidenceBounds(a.contributing);
    var n := |a.contributing| as real;
    DivUnit(SumConfidence(a.contributing), n);
    MulBounds(AgreementRatio(a), SumConfidence(a.contributing) / n);
  }

  /**
   * For clamped inputs and non-negative weights, the aggregate score is a
   * weighted mean of composite scores and so lies in [0, 1].
   */
  lemma AggregateScoreBounds(signals: seq<Signal>, weights: map<string, real>, minSignals: int)
    requires forall x | x in signals :: Clamped(x)
    requires forall n | n in weights :: weights[n] >= 0.0
    requires AggregateOf(signals, weights, minSignals).Some?
    ensures 0.0 <= AggregateOf(signals, weights, minSignals).value.aggregateScore <= 1.0
  {
    var ds := Directional(signals);
    DirectionalExactly(signals);
    var d := AggregateOf(signals, weights, minSignals).value.direction;
    ScoreForBounds(ds, weights, d);
    if WeightFor(ds, weights, d) > 0.0 {
      DivUnit(ScoreFor(ds, weights, d), WeightFor(ds, weights, d));
    }
  }

  /**
   * `aggregate_batch` over a dictionary given as its (market, signals)
   * entries in iteration order: the non-None aggregates, in that order.
   */
  function AggregateBatch(entries: seq<(string, seq<Signal>)>, weights: map<string, real>, minSignals: int)
    : (r: seq<AggregatedSignal>)
    ensures |r| <= |entries|
    ensures forall a :: a in r <==>
      exists i :: 0 <= i < |entries| && AggregateOf(entries[i].1, weights, minSignals) == Some(a)
  {
    if entries == [] then []
    else
      var init := entries[..|entries| - 1];
      var last := AggregateOf(entries[|entries| - 1].1, weights, minSignals);
      var rest := AggregateBatch(init, weights, minSignals);
      assert forall i | 0 <= i < |init| :: init[i] == entries[i];
      rest + (if last.Some? then [last.value] else [])
  }
}
