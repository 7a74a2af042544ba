/**
 * The ActuatorPerturbation derivative callback: it perturbs the force of one
 * actuator during a derivative evaluation (computeActuation), logs the
 * nominal and perturbed forces, and restores the nominal force afterwards
 * (applyActuation). Each state-changing method is specified by the step
 * functions of module Perturbation, whose properties are proved there.
 */
module Analyses {
  import opened Perturbation
  import opened Simulation

  class ActuatorPerturbation {
    // State of the derivative-callback base class, read by both callbacks.
    var model: Model?
    var on: bool
    var startTime: real
    var endTime: real

    /** Which actuator; not owned, and null until one is set. */
    var actuator: Actuator?
    /** Whether a perturbation may produce a negative force. */
    var allowNegForce: bool
    /** Size of the force perturbation. */
    var perturbation: real
    /** Type of the force perturbation. */
    var perturbationType: PertType
    /** Nominal actuator force, saved by computeActuation for applyActuation. */
    var force: real
    /** Rows of the owned force storage. */
    var forceStore: seq<Row>
    /** Name and column labels of the owned force storage. */
    const forceStoreName: string
    const forceStoreLabels: seq<string>

    /** The configuration the callbacks read, as a value. */
    ghost function Cfg(): Config
      reads this, model
    {
      Config(model != null, if model != null then model.timeNormConstant else 0.0,
             on, startTime, endTime, allowNegForce, perturbationType, perturbation)
    }

    /** The state the callbacks write, as a value. */
    ghost function Snap(): Snapshot
      reads this, actuator
    {
      Snapshot(if actuator == null then None else Some(actuator.force), force, forceStore)
    }

    /** Construction: every member set to its null value, with an empty labelled log. */
    constructor (aModel: Model?)
      ensures model == aModel
      ensures actuator == null && allowNegForce
      ensures perturbation == 0.0 && perturbationType == SCALE && force == 0.0
      ensures forceStore == [] && forceStoreName == "forceStore"
      ensures forceStoreLabels == ColumnLabels
    {
      model := aModel;
      actuator := null;
      allowNegForce := true;
      perturbation := 0.0;
      perturbationType := SCALE;
      force := 0.0;
      forceStore := [];
      forceStoreName := "forceStore";
      forceStoreLabels := ColumnLabels;
    }

    function GetActuator(): Actuator?
      reads this
    {
      actuator
    }

    function GetAllowNegForce(): bool
      reads this
    {
      allowNegForce
    }

    function GetPerturbation(): real
      reads this
    {
      perturbation
    }

    function GetPerturbationType(): PertType
      reads this
    {
      perturbationType
    }

    function GetForceStorage(): seq<Row>
      reads this
    {
      forceStore
    }

    method SetActuator(aActuator: Actuator?)
      modifies this`actuator
      ensures GetActuator() == aActuator
    {
      actuator := aActuator;
    }

    method SetAllowNegForce(aTrueFalse: bool)
      modifies this`allowNegForce
      ensures GetAllowNegForce() == aTrueFalse
    {
      allowNegForce := aTrueFalse;
    }

    /** Type and size are replaced together; nothing else changes. */
    method SetPerturbation(aPerturbationType: PertType, aPerturbation: real)
      modifies this`perturbationType, this`perturbation
      ensures GetPerturbationType() == aPerturbationType
      ensures GetPerturbation() == aPerturbation
    {
      perturbationType := aPerturbationType;
      perturbation := aPerturbation;
    }

    /** Empties the force log; its name and labels stay. */
    method Reset()
      modifies this`forceStore
      ensures GetForceStorage() == []
    {
      forceStore := [];
    }

    /**
     * Callback right after the model has computed actuation: saves the
     * nominal force, logs it with the perturbed force and applies the latter.
     * The source does not check the actuator pointer, hence the requires.
     */
    method ComputeActuation(aT: real)
      requires model != null && on ==> actuator != null
      modifies this`force, this`forceStore, actuator
      ensures Snap() == Compute(old(Cfg()), old(Snap()), aT)
      ensures Cfg() == old(Cfg()) && actuator == old(actuator)
    {
      if model == null {
        return;
      }
      if !on {
        return;
      }

      // record nominal force
      force := actuator.force;

      // compute perturbed force
      var perturbed := force;
      if aT >= startTime && aT < endTime {
        match perturbationType
        case SCALE =>
          perturbed := force + perturbation * force;
        case DELTA =>
          perturbed := force + perturbation;
        case CONSTANT =>
          perturbed := perturbation;
      }

      // correction for a negative force when negative forces are not allowed
      if !allowNegForce && perturbed < 0.0 {
        perturbed := 0.0;
      }

      forceStore := forceStore + [Row(RecordedTime(aT, model.timeNormConstant), force, perturbed)];

      // set perturbed force
      actuator.force := perturbed;
      assert perturbed == PerturbedForce(old(Cfg()), aT, force);
    }

    /** Callback right after actuation has been applied: restores the nominal force. */
    method ApplyActuation(aT: real)
      requires model != null && on ==> actuator != null
      modifies actuator
      ensures Snap() == Apply(old(Cfg()), old(Snap()))
      ensures Cfg() == old(Cfg())
    {
      if model == null {
        return;
      }
      if !on {
        return;
      }
      actuator.force := force;
    }
  }
}
