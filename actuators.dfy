/**
 * The JointMoment actuator: a generalized force whose strength depends on
 * the sign of its activation, with a separate optimal force for negative
 * activation that is always kept non-negative.
 */
module Actuators {
  import opened Simulation

  /** Default of the optimal_negative_force property. */
  const DefaultOptimalNegativeForce: real := 1.0

  /** Absolute value of a double (fabs). */
  function Abs(x: real): (r: real)
    ensures r >= 0.0
    ensures r == x || r == -x
    ensures x >= 0.0 ==> r == x
  {
    if x < 0.0 then -x else x
  }

  /** Normalising an already normalised value changes nothing. */
  lemma AbsIdempotent(x: real)
    ensures Abs(Abs(x)) == Abs(x)
  {
  }

  /**
   * The force for activation a: scaled by the optimal negative force when a
   * is negative and by the optimal force otherwise.
   */
  function JointForce(a: real, optimalForce: real, optimalNegForce: real): (r: real)
    ensures a < 0.0 ==> r == a * optimalNegForce
    ensures a >= 0.0 ==> r == a * optimalForce
  {
    if a < 0.0 then a * optimalNegForce else a * optimalForce
  }

  /**
   * With a non-negative optimal negative force, a negative activation never
   * produces a positive force; with non-negative optimal forces, the force
   * has the sign of the activation.
   */
  lemma JointForceSign(a: real, optimalForce: real, optimalNegForce: real)
    requires optimalNegForce >= 0.0
    ensures a < 0.0 ==> JointForce(a, optimalForce, optimalNegForce) <= 0.0
    ensures a >= 0.0 && optimalForce >= 0.0 ==> JointForce(a, optimalForce, optimalNegForce) >= 0.0
  {
  }

  class JointMoment {
    /** The model this actuator belongs to; null when none. */
    var model: Model?
    // Members of the generalized-force base class that computeActuation uses.
    var optimalForce: real
    var activation: real
    var force: real
    /** Optimal force used when the activation is negative. */
    var optimalNegForce: real

    /** The optimal negative force is never negative once set through the setter. */
    ghost predicate Valid()
      reads this
    {
      optimalNegForce >= 0.0
    }

    /** Default construction: the optimal negative force property defaults to 1.0. */
    constructor (aModel: Model?)
      ensures model == aModel
      ensures GetOptimalNegativeForce() == DefaultOptimalNegativeForce && Valid()
    {
      model := aModel;
      optimalNegForce := DefaultOptimalNegativeForce;
    }

    /**
     * Copy construction: the base-class copy is not modelled; the optimal
     * negative force is copied through the setter.
     */
    constructor Copy(aActuator: JointMoment)
      ensures GetOptimalNegativeForce() == Abs(aActuator.GetOptimalNegativeForce()) && Valid()
      ensures aActuator.Valid() ==> GetOptimalNegativeForce() == aActuator.GetOptimalNegativeForce()
    {
      optimalNegForce := DefaultOptimalNegativeForce;
      new;
      CopyData(aActuator);
    }

    function GetOptimalNegativeForce(): real
      reads this
    {
      optimalNegForce
    }

    /** Stores the absolute value of the argument. */
    method SetOptimalNegativeForce(aOptimalNegForce: real)
      modifies this`optimalNegForce
      ensures GetOptimalNegativeForce() == Abs(aOptimalNegForce)
      ensures Valid() && GetOptimalNegativeForce() >= 0.0
    {
      optimalNegForce := Abs(aOptimalNegForce);
    }

    /** Copies the optimal negative force of another actuator (possibly this one). */
    method CopyData(aActuator: JointMoment)
      modifies this`optimalNegForce
      ensures GetOptimalNegativeForce() == Abs(old(aActuator.GetOptimalNegativeForce())) && Valid()
      ensures old(aActuator.Valid()) ==> GetOptimalNegativeForce() == old(aActuator.GetOptimalNegativeForce())
    {
      SetOptimalNegativeForce(aActuator.GetOptimalNegativeForce());
    }

    /** Assignment: the base-class part is not modelled, then the data are copied. */
    method Assign(aActuator: JointMoment)
      modifies this`optimalNegForce
      ensures GetOptimalNegativeForce() == Abs(old(aActuator.GetOptimalNegativeForce())) && Valid()
      ensures old(aActuator.Valid()) ==> GetOptimalNegativeForce() == old(aActuator.GetOptimalNegativeForce())
    {
      CopyData(aActuator);
    }

    /**
     * Sets the force from the activation; without a model it returns at
     * once and leaves the force as it was.
     */
    method ComputeActuation()
      modifies this`force
      ensures model == null ==> force == old(force)
      ensures model != null ==> force == JointForce(activation, optimalForce, optimalNegForce)
      ensures model != null && Valid() && activation < 0.0 ==> force <= 0.0
    {
      if model == null {
        return;
      }
      var f: real;
      if activation < 0.0 {
        f := activation * optimalNegForce;
      } else {
        f := activation * optimalForce;
      }
      force := f;
      if optimalNegForce >= 0.0 {
        JointForceSign(activation, optimalForce, optimalNegForce);
      }
    }

    /**
     * After the properties are read back from XML, the optimal negative force
     * is normalised to its absolute value; doing so twice is the same as once.
     */
    method UpdateFromXMLNode()
      modifies this`optimalNegForce
      ensures GetOptimalNegativeForce() == Abs(old(GetOptimalNegativeForce())) && Valid()
      ensures old(Valid()) ==> GetOptimalNegativeForce() == old(GetOptimalNegativeForce())
    {
      SetOptimalNegativeForce(optimalNegForce);
    }
  }
}
