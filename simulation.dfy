/**
 * The two collaborators of the perturbation callback, reduced to what the
 * callback touches: the dynamics model (only its time normalisation constant)
 * and an actuator (only its force cell, read by getForce and written by
 * setForce). Both are owned by the simulation, not by the callback.
 */
module Simulation {

  /** The dynamics model, as far as the callbacks read it. */
  class Model {
    var timeNormConstant: real

    constructor (aTimeNormConstant: real)
      ensures timeNormConstant == aTimeNormConstant
    {
      timeNormConstant := aTimeNormConstant;
    }
  }

  /** An actuator, seen as one mutable scalar force. */
  class Actuator {
    var force: real

    constructor (aForce: real)
      ensures force == aForce
    {
      force := aForce;
    }
  }
}
