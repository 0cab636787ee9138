/**
 * The signal data contract (signals/signal_base.py): a directional, scored
 * insight about one market, the feature-presence check every generator
 * runs first, and the composite generator that collects the outputs of
 * several generators.
 */
module Signals {
  import opened Common
  import Snapshot

  datatype Direction = Yes | No | Neutral

  /** A feature dictionary. A key may be absent, or present with the value None. */
  type Features = map<string, Option<real>>

  /**
   * A signal as stored after construction. `riskFlags` is the optional
   * "risk_flags" metadata entry and `metadata` its numeric entries; the
   * free-text rationale is not modelled.
   */
  datatype Signal = Signal(
    name: string,
    direction: Direction,
    strength: real,
    confidence: real,
    marketId: Option<string>,
    timestamp: Option<int>,
    featuresUsed: seq<string>,
    riskFlags: Option<seq<string>>,
    metadata: map<string, real>)

  /** The invariant that construction establishes. */
  predicate Clamped(s: Signal)
  {
    0.0 <= s.strength <= 1.0 && 0.0 <= s.confidence <= 1.0
  }

  /** The constructor with its `__post_init__`: strength and confidence are clamped into [0, 1]. */
  function NewSignal(name: string, direction: Direction, strength: real, confidence: real,
                     marketId: Option<string>, timestamp: Option<int>, featuresUsed: seq<string>): (s: Signal)
    ensures Clamped(s)
    ensures s.name == name && s.direction == direction && s.marketId == marketId
    ensures s.timestamp == timestamp && s.featuresUsed == featuresUsed
    ensures s.riskFlags == None && s.metadata == map[]
    ensures 0.0 <= strength <= 1.0 ==> s.strength == strength
    ensures strength > 1.0 ==> s.strength == 1.0
    ensures strength < 0.0 ==> s.strength == 0.0
    ensures 0.0 <= confidence <= 1.0 ==> s.confidence == confidence
    ensures confidence > 1.0 ==> s.confidence == 1.0
    ensures confidence < 0.0 ==> s.confidence == 0.0
  {
    Signal(name, direction, Clamp(strength, 0.0, 1.0), Clamp(confidence, 0.0, 1.0),
           marketId, timestamp, featuresUsed, None, map[])
  }

  /** strength × confidence; never above either factor for a clamped signal. */
  function CompositeScore(s: Signal): (r: real)
    ensures r == s.strength * s.confidence
    ensures Clamped(s) ==> 0.0 <= r && r <= s.strength && r <= s.confidence
  {
    MulBounds(s.strength, s.confidence);
    Mul(s.strength, s.confidence)
  }

  /**
   * `is_actionable`: a YES or NO signal whose composite score reaches 0.3.
   * A clamped actionable signal has strength and confidence of at least
   * 0.3 each, and a clamped signal of full strength is actionable exactly
   * when its confidence reaches 0.3.
   */
  function IsActionable(s: Signal): (r: bool)
    ensures r ==> s.direction in {Yes, No}
    ensures Clamped(s) && r ==> s.strength >= 0.3 && s.confidence >= 0.3
    ensures Clamped(s) && s.direction != Neutral && s.strength == 1.0 ==> (r <==> s.confidence >= 0.3)
  {
    s.direction != Neutral && CompositeScore(s) >= 0.3
  }

  /**
   * `create_signal`: a new signal for the snapshot's market, stamped with
   * the snapshot's time.
   */
  function CreateSignal(name: string, direction: Direction, strength: real, confidence: real,
                        snapshot: Snapshot.MarketSnapshot, featuresUsed: seq<string>): (s: Signal)
    ensures Clamped(s)
    ensures s.name == name && s.direction == direction && s.featuresUsed == featuresUsed
    ensures s.marketId == Some(snapshot.marketId) && s.timestamp == Some(snapshot.snapshotTime)
    ensures s.strength == Clamp(strength, 0.0, 1.0) && s.confidence == Clamp(confidence, 0.0, 1.0)
    ensures s.riskFlags == None && s.metadata == map[]
  {
    NewSignal(name, direction, strength, confidence, Some(snapshot.marketId), Some(snapshot.snapshotTime), featuresUsed)
  }

  /** `validate_inputs`: every required feature is present and not None. */
  function ValidateInputs(features: Features, required: seq<string>): (ok: bool)
    ensures ok <==> forall k :: k in required ==> k in features && features[k].Some?
  {
    if required == [] then true
    else if required[0] !in features || features[required[0]].None? then false
    else ValidateInputs(features, required[1..])
  }

  /**
   * `features.get(key, default)`: the default when the key is absent, the
   * value when it is present; None when it is present with the value None
   * (using that value in a comparison raises TypeError in the source).
   */
  function FeatureOr(features: Features, key: string, default: real): (r: Option<real>)
    ensures key !in features ==> r == Some(default)
    ensures key in features ==> r == features[key]
  {
    if key in features then features[key] else Some(default)
  }

  /**
   * What one call of a generator's `generate` does: return None, return a
   * signal, or raise (a None feature compared or a zero threshold divided by).
   */
  datatype Generated = Skip | Fire(signal: Signal) | Error

  /** What `CompositeSignalGenerator.generate` yields: the list, or the error a sub-generator raised. */
  datatype Collected = Collected(signals: seq<Signal>) | Raised

  /** The signals among generator outputs, in generator order. */
  function Fired(outs: seq<Generated>): seq<Signal>
  {
    if outs == [] then []
    else Fired(outs[..|outs| - 1]) + (if outs[|outs| - 1].Fire? then [outs[|outs| - 1].signal] else [])
  }

  /** Keeps exactly the fired signals, in generator order. */
  lemma {:induction false} FiredExactly(outs: seq<Generated>)
    ensures |Fired(outs)| <= |outs|
    ensures forall s :: s in Fired(outs) <==> Fire(s) in outs
  {
    if outs != [] {
      var init := outs[..|outs| - 1];
      FiredExactly(init);
      assert outs == init + [outs[|outs| - 1]];
    }
  }

  /**
   * `CompositeSignalGenerator.generate`, given the outcome of each
   * sub-generator in order: the non-None signals, or the first error.
   */
  method CompositeGenerate(outs: seq<Generated>) returns (r: Collected)
    ensures r.Raised? <==> Error in outs
    ensures r.Collected? ==> r.signals == Fired(outs)
  {
    var signals: seq<Signal> := [];
    var i := 0;
    while i < |outs|
      invariant 0 <= i <= |outs|
      invariant Error !in outs[..i]
      invariant signals == Fired(outs[..i])
    {
      if outs[i].Error? {
        return Raised;
      } else if outs[i].Fire? {
        signals := signals + [outs[i].signal];
      }
      assert outs[..i + 1][..i] == outs[..i];
      i := i + 1;
    }
    assert outs[..i] == outs;
    r := Collected(signals);
  }
}
