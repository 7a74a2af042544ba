# Actuator-force perturbation callback (OpenSim) in Dafny

This project models the OpenSim `ActuatorPerturbation` derivative callback and the
`JointMoment` actuator.

`ActuatorPerturbation` overrides the force of one actuator during a derivative
evaluation. In `computeActuation` it saves the actuator's nominal force. Inside the
half-open window `[startTime, endTime)` it applies one of three laws:

- SCALE: `f + p*f`
- DELTA: `f + p`
- CONSTANT: `p`

It then clamps a negative result to zero when negative forces are not allowed, and
this clamp applies inside or outside the window. It appends one row
`(t * timeNormConstant, nominal, perturbed)` to its owned force log and writes the
perturbed force into the actuator. `applyActuation` writes the saved nominal force
back. Both callbacks do nothing when no model is attached or the callback is off.

`JointMoment` picks its force by the sign of its activation. A negative activation
is scaled by the optimal negative force, which the setter always stores as an
absolute value. Any other activation is scaled by the optimal force.

Files:

- `simulation.dfy` (module `Simulation`): the collaborators. `Model` is reduced to
  its time normalisation constant. `Actuator` is reduced to its force cell.
- `perturbation.dfy` (module `Perturbation`): the value-level specification. It
  holds the perturbation law, the window, the clamp, and the step functions
  `Compute` and `Apply` on a `Snapshot` of the written state. It also has
  `RunPairs`, which runs alternating compute/apply pairs, and the lemmas about
  them.
- `analyses.dfy` (module `Analyses`): class `ActuatorPerturbation`. Its fields
  follow the C++ members. Its callbacks are proved equal to `Compute` and `Apply`.
- `actuators.dfy` (module `Actuators`): class `JointMoment` with the pure force
  rule `JointForce` and `Abs` (`fabs`).

Doubles are modelled as `real`. Every operation is `+`, `*`, a comparison or
`fabs`, so the model states exact real arithmetic.

## Model

| member | source | states |
|---|---|---|
| `Perturbation.Law` | OpenSim/Analyses/ActuatorPerturbation.cpp:303-314 | SCALE gives `f*(1+p)`, DELTA adds `p`, CONSTANT gives `p`; a zero perturbation leaves the force unchanged under SCALE and DELTA |
| `Perturbation.Clamp` | OpenSim/Analyses/ActuatorPerturbation.cpp:326-328 | with negatives disallowed the result is never negative: a negative value becomes 0 and a non-negative one is kept; with negatives allowed the value passes through |
| `Perturbation.PerturbedForce` | OpenSim/Analyses/ActuatorPerturbation.cpp:296-328 | inside `[start, end)` the clamped law, outside it the clamped nominal force; with negatives allowed, outside the window the result is exactly the nominal force; with negatives disallowed it is never negative, in or out of the window |
| `Perturbation.Compute` | OpenSim/Analyses/ActuatorPerturbation.cpp:281-339 | without a model or with the callback off, nothing changes; otherwise the saved force becomes the actuator's force, exactly one row `(t*timeNorm, nominal, perturbed)` is appended after the old log, and the actuator now holds the perturbed force (never negative when negatives are disallowed) |
| `Perturbation.Apply` | OpenSim/Analyses/ActuatorPerturbation.cpp:346-357 | the log and the saved force never change; when active the actuator gets the saved nominal force back, otherwise nothing changes |
| `Perturbation.PairRestores` | OpenSim/Analyses/ActuatorPerturbation.cpp:340-357 | a compute followed by an apply leaves the actuator's force as it was before the compute, whatever the window or law |
| `Perturbation.RunPairsRestores` | OpenSim/Analyses/ActuatorPerturbation.cpp:281-357 | after any sequence of alternating pairs the actuator holds its original force; when active, the log keeps its old rows and gains exactly one row per pair, each with the original nominal force and its perturbed value at that time; when inactive nothing changes |
| `Perturbation.ComputeTwiceLosesNominal` | OpenSim/Analyses/ActuatorPerturbation.cpp:290-291 | two computes without an apply between them: the second logs the perturbed force as nominal, and the apply then restores the perturbed force, which differs from the original whenever the first perturbation changed it |
| `Analyses.ActuatorPerturbation.constructor` | OpenSim/Analyses/ActuatorPerturbation.cpp:92-107 | no actuator, negative forces allowed, perturbation 0.0 of type SCALE, saved force 0.0, an empty log named `forceStore` with labels `time, nominal, perturbed` |
| `Analyses.ActuatorPerturbation.SetActuator` | OpenSim/Analyses/ActuatorPerturbation.h:94-95 | the single non-owning actuator reference is replaced and the getter returns it; nothing else changes |
| `Analyses.ActuatorPerturbation.SetAllowNegForce` | OpenSim/Analyses/ActuatorPerturbation.cpp:147-163 | the flag is set and the getter returns it; nothing else changes |
| `Analyses.ActuatorPerturbation.SetPerturbation` | OpenSim/Analyses/ActuatorPerturbation.cpp:196-225 | type and size are replaced together and the getters return exactly them; nothing else changes |
| `Analyses.ActuatorPerturbation.Reset` | OpenSim/Analyses/ActuatorPerturbation.cpp:260-264 | the force log is emptied; its name, its labels and every other member are unchanged |
| `Analyses.ActuatorPerturbation.ComputeActuation` | OpenSim/Analyses/ActuatorPerturbation.cpp:281-339 | the written state afterwards is `Compute` of the state before; the configuration and the actuator reference are unchanged; an attached model with the callback on requires a bound actuator |
| `Analyses.ActuatorPerturbation.ApplyActuation` | OpenSim/Analyses/ActuatorPerturbation.cpp:346-357 | the written state afterwards is `Apply` of the state before; the configuration is unchanged |
| `Actuators.Abs` | OpenSim/Actuators/JointMoment.cpp:196 | the result is non-negative, is `x` or `-x`, and is `x` when `x` is non-negative |
| `Actuators.AbsIdempotent` | OpenSim/Actuators/JointMoment.cpp:263-268 | normalising twice gives the same value as normalising once |
| `Actuators.JointForce` | OpenSim/Actuators/JointMoment.cpp:237-243 | a negative activation is scaled by the optimal negative force, any other by the optimal force |
| `Actuators.JointForceSign` | OpenSim/Actuators/JointMoment.cpp:187-196 | with a non-negative optimal negative force, a negative activation gives a force `<= 0`; with a non-negative optimal force, a non-negative activation gives a force `>= 0` |
| `Actuators.JointMoment.constructor` | OpenSim/Actuators/JointMoment.cpp:131-137 | the optimal negative force starts at its default 1.0 |
| `Actuators.JointMoment.Copy` | OpenSim/Actuators/JointMoment.cpp:83-90 | the copy's optimal negative force is the absolute value of the source's, so it equals the source's when that is already normalised |
| `Actuators.JointMoment.SetOptimalNegativeForce` | OpenSim/Actuators/JointMoment.cpp:193-213 | the getter returns the absolute value of the argument, which is never negative |
| `Actuators.JointMoment.CopyData` | OpenSim/Actuators/JointMoment.cpp:143-147 | the optimal negative force becomes the normalised value of the source's, also when the source is the object itself |
| `Actuators.JointMoment.Assign` | OpenSim/Actuators/JointMoment.cpp:162-172 | assignment copies the optimal negative force as `CopyData` does |
| `Actuators.JointMoment.ComputeActuation` | OpenSim/Actuators/JointMoment.cpp:224-246 | without a model the force is unchanged; otherwise it is `JointForce` of the activation, and it is `<= 0` for a negative activation while the invariant holds |
| `Actuators.JointMoment.UpdateFromXMLNode` | OpenSim/Actuators/JointMoment.cpp:263-268 | the stored optimal negative force becomes its absolute value; an already normalised value is kept, so applying it twice equals applying it once |

## Left out

- Console warnings (no model; unrecognized perturbation type) are I/O and are not modelled. The unrecognized-type branch cannot arise because `PertType` is a closed datatype.
- Derivative-callback base class: the model pointer, the on flag, the start and end times, and the model's time normalisation constant are plain fields. The base class is not part of this model, so the constructor promises nothing about the on flag or the window.
- Storage internals: the force log is a sequence of rows with a fixed name and fixed column labels. The row index returned by `Storage::append` is not modelled. `getForceStorage` returns the rows.
- Perturbation.RunPairsRestores: covers a fixed configuration and no writes to the actuator by the host between pairs. Calls that do not strictly alternate are covered only by `ComputeTwiceLosesNominal`.
- Controls and states passed to both callbacks are never read by the source, so they are not parameters.
- JointMoment: the speed lookup in the dynamics engine, control and state binding, `copy()`, `setType`, property and XML serialisation are not modelled. The base-class parts of the copy constructor and of assignment are also left out. The coordinate-name constructor argument is replaced by the model reference.
- Floating point: doubles are `real`, so rounding and bit-exact results are not modelled.
- `SdfastFunctionPointerHelper.h`, `SpringGeneralizedForce.h` and `rdCMC_Point.h` hold declarations only, or foreign engine bindings, and are not part of this model.
