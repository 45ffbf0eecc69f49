# MPC: the problem set-up and read-back of a model-predictive controller

`src/MPC.cpp` drives a simulated car with model-predictive control. Each
actuation cycle `MPC::Solve` sets up a nonlinear program over a horizon of N
steps and hands it to an optimiser (Ipopt through CppAD). The program has:

- one flattened decision vector holding six state trajectories (x, y, psi, v,
  cte, epsi) of length N and two actuator trajectories (steering delta,
  acceleration a) of length N - 1;
- bounds on every variable;
- an evaluator, `FG_eval`, that writes the objective into `fg[0]` and one
  constraint per state entry into `fg[1 ..]`.

Constraint bounds pin the first state to the car's current state and every
later kinematic residual to zero. From the optimiser's solution, `Solve`
returns the first steering angle and acceleration followed by the predicted
(x, y) path.

This project models that bookkeeping in Dafny and proves what it promises.
Doubles are modelled as reals and N as a parameter of at least 2 (the source
fixes it at 10). The optimiser and the trigonometric functions are parameters.

- `layout.dfy` (module `Layout`): the offset table, the number of variables
  and constraints, and the proof that the eight segments tile
  `[0, 8N - 2)` without overlap.
- `dynamics.dfy` (module `Dynamics`): the kinematic bicycle model `Predict`.
  It has the cubic reference path and the atan of its slope. `Residual` is the
  six values the step loop writes for step t.
- `cost.dfy` (module `Cost`): the objective as specification functions, one
  sum per cost loop. Lemmas prove it is non-negative, zero exactly at the
  reference, strictly larger after any single departure from it, and blind to
  the x, y and psi segments.
- `constraints.dfy` (module `Constraints`): the constraint vector and the
  bounds that pin it. The main lemma: a decision vector meets the pinned
  bounds exactly when its trajectory is the model's rollout from the initial
  state. Hence the actuators determine everything else.
- `fgeval.dfy` (module `Evaluation`): `FG_eval` as a datatype holding the
  coefficients. Its `Evaluate` method fills the `fg` array in place with the
  three cost loops and the constraint loops. It is proved to leave the
  objective in `fg[0]` and constraint i in `fg[1 + i]`. The step loop writes,
  for each state component, its value at step t minus `Predict`'s value for
  it. `Predict` is the component-wise formula of lines 146-151, with `f0` and
  `psides0` of lines 131 and 133.
- `solve.dfy` (module `Mpc`): `MPC::Solve`. It builds:
  - the zero initial guess;
  - the variable bounds (float range for the states, plus or minus 25 degrees
    in radians for the steering, plus or minus 1 for the acceleration);
  - the pinned constraint bounds.

  Each is built with index loops over arrays. `Solve` then calls the
  optimiser and extracts the result with push-back steps. Lemmas connect a
  feasible solution to the model's rollout and to the extracted path.

## Model

| member | source | states |
|---|---|---|
| `Layout.XStart` | src/MPC.cpp:34 | the x segment starts the vector, at 0 |
| `Layout.YStart` | src/MPC.cpp:35 | y segment starts at N |
| `Layout.PsiStart` | src/MPC.cpp:36 | psi segment starts at 2N |
| `Layout.VStart` | src/MPC.cpp:37 | v segment starts at 3N |
| `Layout.CteStart` | src/MPC.cpp:38 | cte segment starts at 4N |
| `Layout.EpsiStart` | src/MPC.cpp:39 | epsi segment starts at 5N |
| `Layout.DeltaStart` | src/MPC.cpp:40 | delta segment starts at 6N |
| `Layout.AStart` | src/MPC.cpp:41 | a segment starts at 7N - 1 and ends exactly at n_vars |
| `Layout.NVars` | src/MPC.cpp:178 | n_vars is 8N - 2, the constraints plus two actuator trajectories of N - 1 |
| `Layout.NConstraints` | src/MPC.cpp:181 | n_constraints is 6N, which is where the actuator segments begin |
| `Layout.SegmentsContiguous` | src/MPC.cpp:34-41 | each segment starts where the previous one ends; the last ends at n_vars; the state segments end at n_constraints |
| `Layout.SegmentsOrdered` | src/MPC.cpp:34-41 | a segment of lower rank ends before one of higher rank starts, so no two overlap |
| `Layout.SegmentOf` | src/MPC.cpp:34-41 | every index below n_vars lies in a segment, a state segment exactly when it is below n_constraints |
| `Layout.SegmentOfIndex` | src/MPC.cpp:34-41 | each index of a segment belongs to that segment and no other (the segments partition the vector) |
| `Layout.SourceLayout` | src/MPC.cpp:16 | with N = 10: 78 variables, 60 constraints, delta at 60, a at 69 |
| `Dynamics.Path` | src/MPC.cpp:131 | f0, the cubic reference path at x; at the car's own position x = 0 it is coeffs[0] |
| `Dynamics.PathSlope` | src/MPC.cpp:133 | the argument of atan for psides0, the path's slope at x; at x = 0 it is coeffs[1] |
| `Dynamics.Predict` | src/MPC.cpp:146-151 | the state one step on, component by component as the six residuals subtract it; its properties are `PredictDirections`, `TrigFreeResiduals` and `ResidualZeroIffPredicted` |
| `Dynamics.Residual` | src/MPC.cpp:146-151 | the six values the step loop writes for step t: the state at t minus `Predict` of step t - 1; zero exactly when the step follows the model (`ResidualZeroIffPredicted`) |
| `Dynamics.PredictDirections` | src/MPC.cpp:146-151 | a car at rest keeps its pose; zero steering keeps the heading; positive steering at positive speed lowers the heading and negative steering raises it; speed grows iff acceleration is positive |
| `Dynamics.ResidualZeroIffPredicted` | src/MPC.cpp:146-151 | the six residuals of step t are all zero iff the state at t is the model's prediction from step t - 1 |
| `Dynamics.TrigFreeResiduals` | src/MPC.cpp:148-149 | the v residual is exactly v1 - (v0 + a0 dt); the v and psi residuals do not depend on sin, cos or atan |
| `Cost.TrackingCost` | src/MPC.cpp:70-75 | the reference-state penalties of the first n steps are non-negative |
| `Cost.ActuatorCost` | src/MPC.cpp:80-83 | the actuator penalties of the first n actuation steps are non-negative |
| `Cost.SmoothnessCost` | src/MPC.cpp:88-91 | the actuator-change penalties of the first n pairs are non-negative |
| `Cost.Objective` | src/MPC.cpp:58-91 | fg[0] is non-negative: positive weights times squares |
| `Cost.TrackingTermZero` | src/MPC.cpp:70-75 | one step's tracking penalty is non-negative and zero iff cte = 0, epsi = 0 and v = 130 |
| `Cost.TrackingCostZero` | src/MPC.cpp:70-75 | the tracking penalties are zero iff every step is at the reference |
| `Cost.ActuatorTermZero` | src/MPC.cpp:80-83 | one step's actuator penalty is non-negative and zero iff delta = 0 and a = 0 |
| `Cost.ActuatorCostZero` | src/MPC.cpp:80-83 | the actuator penalties are zero iff no actuation step steers or accelerates |
| `Cost.SmoothnessCostZeroAtRest` | src/MPC.cpp:88-91 | actuators at rest incur no change penalty |
| `Cost.ObjectiveZeroIffAtReference` | src/MPC.cpp:30-32 | the objective is zero iff all steps are at the reference and all actuators at rest; otherwise it is positive |
| `Cost.TrackingCostFrame` | src/MPC.cpp:70-75 | vectors that agree on the v, cte and epsi segments have the same tracking penalties: that loop reads no other segment |
| `Cost.ActuatorCostFrame` | src/MPC.cpp:80-83 | vectors that agree on the delta and a segments have the same actuator penalties: that loop reads no state segment |
| `Cost.SmoothnessCostFrame` | src/MPC.cpp:88-91 | vectors that agree on the delta and a segments have the same change penalties: that loop reads no state segment |
| `Cost.ObjectiveFrame` | src/MPC.cpp:58-91 | vectors that agree from v_start onwards have the same objective |
| `Cost.PoseChangeKeepsObjective` | src/MPC.cpp:58-91 | changing any x, y or psi entry leaves the objective unchanged |
| `Cost.SingleDepartureIncreasesObjective` | src/MPC.cpp:30-32 | from the reference, moving any single v, cte, epsi, delta or a entry off its target strictly increases the objective |
| `Constraints.ConstraintAt` | src/MPC.cpp:100-151 | constraint i as FG_eval leaves it in fg[1 + i]: the state entry itself at step 0, the residual of its component at later steps; `Evaluate` is proved to produce it |
| `Constraints.Pinned` | src/MPC.cpp:228-246 | the value both bounds of constraint i are set to: the current state's component at step 0, zero at later steps; `ConstraintBounds` is proved to produce it |
| `Constraints.StepOf` | src/MPC.cpp:100-151 | each constraint index belongs to a state segment and to a step below N |
| `Constraints.StateAtField` | src/MPC.cpp:112-125 | component s of the state at step t is the entry at s's offset plus t |
| `Constraints.ConstraintIndex` | src/MPC.cpp:100-151 | constraint index Start(s) + t belongs to segment s and step t |
| `Constraints.InitialConstraints` | src/MPC.cpp:100-105 | the first slot of each state segment holds the step-0 state |
| `Constraints.PinnedIffRollout` | src/MPC.cpp:228-246 | the constraints meet their pinned bounds iff the trajectory starts at the current state and follows the model |
| `Constraints.PinnedStartsAtInit` | src/MPC.cpp:234-246 | the pinned step-0 constraints fix the initial state |
| `Constraints.PinnedFollowsModel` | src/MPC.cpp:228-231 | zero-pinned residuals force every later step to be the model's prediction |
| `Constraints.PinnedResidualZero` | src/MPC.cpp:228-231 | zero-pinned constraints make all six residuals of a step zero |
| `Constraints.RolloutMeetsPinned` | src/MPC.cpp:228-246 | a model rollout from the current state meets every pinned bound |
| `Constraints.RolloutDetermined` | src/MPC.cpp:108-152 | two trajectories with the same start and actuators that follow the model agree at every step |
| `Constraints.PinnedDeterminedByActuators` | src/MPC.cpp:228-246 | given the current state and the actuators, at most one decision vector meets the pinned bounds |
| `Evaluation.FgEval.Evaluate` | src/MPC.cpp:50-153 | fg[0] ends as the objective and fg[1 + i] as constraint i, for every i below 6N |
| `Evaluation.FgEval.AccumulateCost` | src/MPC.cpp:58-91 | resetting fg[0] and running the three cost loops leaves the objective in fg[0] and every constraint slot unchanged |
| `Evaluation.FgEval.AddTrackingCost` | src/MPC.cpp:70-75 | the reference-state loop adds the tracking penalties of all N steps to fg[0] and leaves every other slot unchanged |
| `Evaluation.FgEval.AddActuatorCost` | src/MPC.cpp:80-83 | the actuator loop adds the penalties of all N - 1 actuation steps to fg[0] and leaves every other slot unchanged |
| `Evaluation.FgEval.AddSmoothnessCost` | src/MPC.cpp:88-91 | the change loop adds the penalties of all N - 2 consecutive pairs to fg[0] and leaves every other slot unchanged |
| `Evaluation.FgEval.FillConstraints` | src/MPC.cpp:100-152 | every constraint slot ends holding its constraint; fg[0] is untouched |
| `Evaluation.FgEval.WriteInitial` | src/MPC.cpp:100-105 | the six identity copies of the step-0 state; every other slot, fg[0] included, keeps its value |
| `Evaluation.FgEval.WriteStep` | src/MPC.cpp:146-151 | the six residual slots of step t are written and nothing else changes |
| `Evaluation.FgEval.InitialSlotsWritten` | src/MPC.cpp:100-105 | after the identity copies, every step-0 constraint is in place |
| `Evaluation.FgEval.StepSlotsWritten` | src/MPC.cpp:108-152 | after step t's writes, the constraints of steps up to t are in place and earlier ones are kept |
| `Mpc.VarLower` | src/MPC.cpp:199-222 | the lower bound the three loops give variable i: -FLT_MAX for states, -25 degrees in radians for steering, -1 for acceleration; see `VariableBounds` and `VariableBoundsOrdered` |
| `Mpc.VarUpper` | src/MPC.cpp:199-222 | the matching upper bound, the negation of `VarLower` (`VariableBoundsOrdered`) |
| `Mpc.Problem` | src/MPC.cpp:185-250 | the program handed to the optimiser: zero guess, `VarLower`/`VarUpper`, both constraint bounds `Pinned`, and the evaluator for the path; `Solve` is proved to build exactly this |
| `Mpc.Rollout` | src/MPC.cpp:146-151 | the trajectory the model predicts from an initial state under the solution's actuators; feasible solutions follow it (`FeasibleIffRollout`) |
| `Mpc.ExtractResult` | src/MPC.cpp:294-304 | the push-back steps produce exactly `Actuation` of the solution: delta[0], a[0], then the (x, y) of steps 1 .. N - 1 |
| `Mpc.InitialState` | src/MPC.cpp:171-176 | component s of the current state is state[rank of s] |
| `Mpc.PathPoints` | src/MPC.cpp:299-302 | the loop's pushes give, at 2i and 2i + 1, the x and y of step i + 1 |
| `Mpc.Actuation` | src/MPC.cpp:294-304 | the result has length 2N: delta[0], a[0], then the interleaved (x, y) of steps 1 .. N - 1 |
| `Mpc.Solve` | src/MPC.cpp:162-305 | the result is the extraction from the optimiser's answer to exactly the program built for this state and path, whatever status it reports |
| `Mpc.InitialGuess` | src/MPC.cpp:185-188 | the initial guess has n_vars entries, all zero |
| `Mpc.VariableBounds` | src/MPC.cpp:199-222 | states get plus or minus FLT_MAX, steering plus or minus 25 degrees in radians, acceleration plus or minus 1 |
| `Mpc.ConstraintBounds` | src/MPC.cpp:225-246 | both bound arrays have n_constraints entries equal to the pinned values |
| `Mpc.PinInitialState` | src/MPC.cpp:234-246 | on a zeroed bound array, the six assignments give every slot its pinned value |
| `Mpc.ProblemBuilt` | src/MPC.cpp:185-250 | arrays that agree entry by entry with the specification make up exactly the specified program |
| `Mpc.MaxRadiansValue` | src/MPC.cpp:208-209 | the steering limit is between 0.4363 and 0.4364 radians |
| `Mpc.VariableBoundsOrdered` | src/MPC.cpp:185-222 | every variable's bounds are symmetric, and the zero guess lies strictly inside them |
| `Mpc.ConstraintBoundsPinned` | src/MPC.cpp:228-246 | lower equals upper at every constraint: state[0..5] at the six segment starts, 0 at every later step |
| `Mpc.FollowsModelIsRollout` | src/MPC.cpp:108-152 | a trajectory that starts at init and follows the model is the rollout of its actuators |
| `Mpc.FeasibleIffRollout` | src/MPC.cpp:199-246 | a solution meets every bound iff its variables are in range and its trajectory is the model's rollout from the current state |
| `Mpc.FeasibleResult` | src/MPC.cpp:294-304 | for a feasible solution, the returned actuations are within their limits and the returned points are the rollout's (x, y) |

## Left out

- The optimiser call (src/MPC.cpp:276-281) and CppAD's automatic
  differentiation are foreign library code. The optimiser is the parameter
  `solver`, assumed only to return a point with one entry per variable.
- The Ipopt options string (src/MPC.cpp:256-268) is solver configuration.
  Printing the cost (src/MPC.cpp:287-288) is output. The cost value is
  never used otherwise.
- `ok` (src/MPC.cpp:163, 284) is computed but never read. `Solve` returns the
  extraction whatever status the optimiser reports.
- Floating point: doubles are reals, so no rounding is modelled. sin, cos and
  atan are arbitrary functions supplied in a `Trig` value, and nothing
  depends on their values. FLT_MAX is its exact value and M_PI its
  20-digit decimal.
- The horizon is a global `size_t` set to 10. It is a parameter of at least 2
  here: for N below 2 the source's `N - 1` and `N - 2` wrap around, and that
  is not modelled.
- The model requires at least six state entries and four polynomial
  coefficients. The source reads those entries without checking, and Eigen's
  vector types are sequences here.
- The constructor and destructor of MPC (src/MPC.cpp:159-160) do nothing.
  FG_eval's constructor (src/MPC.cpp:47) is the datatype constructor.
- The model comments at src/MPC.cpp:141 and 144 show `+ v / Lf * delta * dt`.
  The code at lines 148 and 151 subtracts, and the model follows the code.
- The comment at src/MPC.cpp:184 says the initial guess should be zero apart
  from the initial state. The code zeroes every entry, and the model follows
  the code.
- Evaluation.FgEval.FillConstraints: states the final value of every slot,
  not that each slot is written exactly once.
