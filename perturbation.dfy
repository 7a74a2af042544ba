/**
 * Value-level specification of the actuator-force perturbation callback:
 * the three perturbation laws, the half-open time window, the clamp of
 * negative forces, and the effect of one computeActuation and one
 * applyActuation call on the state the callback writes.
 */
module Perturbation {

  /** Perturbation types. A closed set: no value falls outside the three laws. */
  datatype PertType = SCALE | DELTA | CONSTANT

  datatype Option<T> = None | Some(value: T)

  /** One row of the force log: recorded time, nominal force, perturbed force. */
  datatype Row = Row(time: real, nominal: real, perturbed: real)

  /** Column labels of the force log, in order. */
  const ColumnLabels: seq<string> := ["time", "nominal", "perturbed"]

  /**
   * Everything the callbacks read but never write: whether a model is
   * attached and its time normalisation constant, the base-class on flag and
   * time window, and the callback's own settings.
   */
  datatype Config = Config(
    hasModel: bool,
    timeNorm: real,
    on: bool,
    startTime: real,
    endTime: real,
    allowNegForce: bool,
    kind: PertType,
    perturbation: real)

  /**
   * Everything the callbacks write: the force of the bound actuator (None when
   * no actuator is bound), the saved nominal force and the force log.
   */
  datatype Snapshot = Snapshot(actuatorForce: Option<real>, force: real, log: seq<Row>)

  /** The perturbation law applied to nominal force f with perturbation p. */
  function Law(kind: PertType, p: real, f: real): (r: real)
    ensures kind == SCALE ==> r == f * (1.0 + p)
    ensures kind == DELTA ==> r - f == p
    ensures kind == CONSTANT ==> r == p
    ensures p == 0.0 && kind != CONSTANT ==> r == f
  {
    match kind
    case SCALE => f + p * f
    case DELTA => f + p
    case CONSTANT => p
  }

  /** The half-open window [startTime, endTime) in which the law applies. */
  predicate InWindow(c: Config, t: real)
  {
    c.startTime <= t < c.endTime
  }

  /** The time recorded in the log: evaluation time times the model's normalisation constant. */
  function RecordedTime(t: real, timeNorm: real): real
  {
    t * timeNorm
  }

  /** Both callbacks do anything only with a model attached and the callback on. */
  predicate Active(c: Config)
  {
    c.hasModel && c.on
  }

  /** With negative forces disallowed, a negative force becomes zero. */
  function Clamp(allowNegForce: bool, f: real): (r: real)
    ensures allowNegForce ==> r == f
    ensures !allowNegForce ==> r >= 0.0
    ensures !allowNegForce && f >= 0.0 ==> r == f
    ensures !allowNegForce && f < 0.0 ==> r == 0.0
  {
    if !allowNegForce && f < 0.0 then 0.0 else f
  }

  /**
   * The force computeActuation records and applies for nominal force f at
   * time t: the law inside the window, the nominal force outside it, and in
   * both cases the clamp afterwards.
   */
  function PerturbedForce(c: Config, t: real, f: real): (r: real)
    ensures InWindow(c, t) ==> r == Clamp(c.allowNegForce, Law(c.kind, c.perturbation, f))
    ensures !InWindow(c, t) ==> r == Clamp(c.allowNegForce, f)
    ensures c.allowNegForce && !InWindow(c, t) ==> r == f
    ensures c.allowNegForce && InWindow(c, t) ==> r == Law(c.kind, c.perturbation, f)
    ensures !c.allowNegForce ==> r >= 0.0
  {
    var raw := if InWindow(c, t) then Law(c.kind, c.perturbation, f) else f;
    Clamp(c.allowNegForce, raw)
  }

  /**
   * One computeActuation call at time t. When active it saves the actuator's
   * force as nominal, appends exactly one row to the log and gives the
   * actuator the perturbed force; otherwise it changes nothing. The actuator
   * must be bound when the call is active (the source dereferences it).
   */
  function Compute(c: Config, s: Snapshot, t: real): (s': Snapshot)
    requires Active(c) ==> s.actuatorForce.Some?
    ensures !Active(c) ==> s' == s
    ensures Active(c) ==> s'.force == s.actuatorForce.value
    ensures Active(c) ==> |s'.log| == |s.log| + 1 && s'.log[..|s.log|] == s.log
    ensures Active(c) ==>
      s'.log[|s.log|] == Row(RecordedTime(t, c.timeNorm), s'.force, PerturbedForce(c, t, s'.force))
    ensures Active(c) ==> s'.actuatorForce == Some(s'.log[|s.log|].perturbed)
    ensures Active(c) && !c.allowNegForce ==> s'.actuatorForce.value >= 0.0
  {
    if !Active(c) then s
    else
      var nominal := s.actuatorForce.value;
      var perturbed := PerturbedForce(c, t, nominal);
      Snapshot(Some(perturbed), nominal, s.log + [Row(RecordedTime(t, c.timeNorm), nominal, perturbed)])
  }

  /**
   * One applyActuation call: when active it writes the saved nominal force
   * back to the actuator; the log and the saved force never change.
   */
  function Apply(c: Config, s: Snapshot): (s': Snapshot)
    requires Active(c) ==> s.actuatorForce.Some?
    ensures s'.log == s.log && s'.force == s.force
    ensures Active(c) ==> s'.actuatorForce == Some(s.force)
    ensures !Active(c) ==> s' == s
  {
    if Active(c) then s.(actuatorForce := Some(s.force)) else s
  }

  /** A compute/apply pair leaves the actuator's force as it found it. */
  lemma PairRestores(c: Config, s: Snapshot, t: real)
    requires Active(c) ==> s.actuatorForce.Some?
    ensures Apply(c, Compute(c, s, t)).actuatorForce == s.actuatorForce
  {
  }

  /** Strictly alternating compute/apply pairs at the evaluation times ts. */
  function RunPairs(c: Config, s: Snapshot, ts: seq<real>): Snapshot
    requires Active(c) ==> s.actuatorForce.Some?
    decreases |ts|
  {
    if ts == [] then s
    else RunPairs(c, Apply(c, Compute(c, s, ts[0])), ts[1..])
  }

  /**
   * After any number of alternating pairs the actuator holds the force it
   * held before the first one; when active, the log has gained exactly one row
   * per pair, each carrying that same nominal force and its perturbed value;
   * when inactive, nothing has changed.
   */
  lemma {:induction false} RunPairsRestores(c: Config, s: Snapshot, ts: seq<real>)
    requires Active(c) ==> s.actuatorForce.Some?
    ensures RunPairs(c, s, ts).actuatorForce == s.actuatorForce
    ensures !Active(c) ==> RunPairs(c, s, ts) == s
    ensures Active(c) ==>
      var r := RunPairs(c, s, ts);
      |r.log| == |s.log| + |ts| && r.log[..|s.log|] == s.log
    ensures Active(c) ==>
      var r := RunPairs(c, s, ts);
      var f := s.actuatorForce.value;
      forall i :: 0 <= i < |ts| ==>
        |s.log| + i < |r.log| &&
        r.log[|s.log| + i] == Row(RecordedTime(ts[i], c.timeNorm), f, PerturbedForce(c, ts[i], f))
    decreases |ts|
  {
    if ts != [] {
      var s1 := Apply(c, Compute(c, s, ts[0]));
      RunPairsRestores(c, s1, ts[1..]);
      if Active(c) {
        var r := RunPairs(c, s, ts);
        var f := s.actuatorForce.value;
        assert r == RunPairs(c, s1, ts[1..]);
        assert |s1.log| == |s.log| + 1;
        assert r.log[..|s1.log|] == s1.log;
        forall i | 0 <= i < |ts|
          ensures |s.log| + i < |r.log|
          ensures r.log[|s.log| + i] == Row(RecordedTime(ts[i], c.timeNorm), f, PerturbedForce(c, ts[i], f))
        {
          if i == 0 {
            assert r.log[|s.log|] == r.log[..|s1.log|][|s.log|];
          } else {
            assert ts[1..][i - 1] == ts[i];
            assert |s.log| + i == |s1.log| + (i - 1);
          }
        }
        assert r.log[..|s.log|] == r.log[..|s1.log|][..|s.log|];
      }
    }
  }

  /**
   * Two computeActuation calls without applyActuation between them: the
   * second reads the already perturbed force as nominal, and the apply that
   * follows restores that perturbed force, not the original one.
   */
  lemma ComputeTwiceLosesNominal(c: Config, s: Snapshot, t1: real, t2: real)
    requires Active(c) && s.actuatorForce.Some?
    ensures var p1 := PerturbedForce(c, t1, s.actuatorForce.value);
      var s2 := Compute(c, Compute(c, s, t1), t2);
      && s2.force == p1
      && s2.log[|s.log| + 1].nominal == p1
      && Apply(c, s2).actuatorForce == Some(p1)
      && (p1 != s.actuatorForce.value ==> Apply(c, s2).actuatorForce != s.actuatorForce)
  {
  }
}
