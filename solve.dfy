/** MPC::Solve: builds the nonlinear program handed to the optimiser (initial
    guess, variable bounds, constraint bounds and the FG_eval callback), calls
    the optimiser and reads the actuation and the predicted path back out of
    its solution. The optimiser itself is a parameter of the model. */
module Mpc {
  import opened Layout
  import opened Dynamics
  import opened Constraints
  import opened Evaluation

  /** The largest finite single-precision float, used as "unbounded". */
  const FltMax: real := 340282346638528859811704183484516925440.0

  /** The steering limit in degrees. */
  const MaxDegrees: real := 25.0

  /** The value of the M_PI macro, read as an exact decimal. */
  const Pi: real := 3.14159265358979323846

  /** The steering limit in radians. */
  const MaxRadians: real := MaxDegrees * Pi / 180.0

  /** Everything the optimiser is given: the starting point, the bounds on
      every variable and on every constraint, and the evaluator of the
      objective and the constraints. */
  datatype Nlp = Nlp(guess: seq<real>,
                     varLower: seq<real>, varUpper: seq<real>,
                     conLower: seq<real>, conUpper: seq<real>,
                     fgEval: FgEval)

  /** What the optimiser returns: whether it reports success, the point it
      ends at and the objective there. */
  datatype SolveResult = SolveResult(success: bool, x: seq<real>, objValue: real)

  /** The vehicle state read from the first six entries of `state`. */
  function InitialState(state: seq<real>): (s: State)
    requires |state| >= 6
    ensures forall seg: Segment :: seg.IsState() ==> s.Field(seg) == state[seg.Rank()]
  {
    State(state[0], state[1], state[2], state[3], state[4], state[5])
  }

  /** Lower bound of variable i. */
  function VarLower(N: Horizon, i: nat): real
    requires i < NVars(N)
  {
    if i < DeltaStart(N) then -FltMax
    else if i < AStart(N) then -MaxRadians
    else -1.0
  }

  /** Upper bound of variable i. */
  function VarUpper(N: Horizon, i: nat): real
    requires i < NVars(N)
  {
    if i < DeltaStart(N) then FltMax
    else if i < AStart(N) then MaxRadians
    else 1.0
  }

  /** The program MPC::Solve hands to the optimiser for the current state and
      the fitted path: a zero guess, the bounds by segment, and every
      constraint pinned to the value Pinned gives it. */
  function Problem(N: Horizon, state: seq<real>, coeffs: seq<real>): Nlp
    requires |state| >= 6
  {
    var init := InitialState(state);
    Nlp(seq(NVars(N), i => 0.0),
        seq(NVars(N), i requires 0 <= i < NVars(N) => VarLower(N, i)),
        seq(NVars(N), i requires 0 <= i < NVars(N) => VarUpper(N, i)),
        seq(NConstraints(N), i requires 0 <= i < NConstraints(N) => Pinned(N, init, i)),
        seq(NConstraints(N), i requires 0 <= i < NConstraints(N) => Pinned(N, init, i)),
        FgEval(coeffs))
  }

  /** The predicted path points of steps 1 .. n, as (x, y) pairs. */
  function PathPoints(N: Horizon, x: seq<real>, n: nat): (r: seq<real>)
    requires |x| == NVars(N) && n <= N - 1
    ensures |r| == 2 * n
    ensures forall i :: 0 <= i < n ==> r[2 * i] == x[XStart(N) + i + 1] && r[2 * i + 1] == x[YStart(N) + i + 1]
  {
    if n == 0 then [] else PathPoints(N, x, n - 1) + [x[XStart(N) + n], x[YStart(N) + n]]
  }

  /** The vector Solve returns for solution x: the first steering angle, the
      first acceleration, then the predicted (x, y) of steps 1 .. N - 1. */
  function Actuation(N: Horizon, x: seq<real>): (r: seq<real>)
    requires |x| == NVars(N)
    ensures |r| == 2 * N
    ensures r[0] == x[DeltaStart(N)] && r[1] == x[AStart(N)]
    ensures forall i :: 0 <= i < N - 1 ==> r[2 + 2 * i] == x[XStart(N) + i + 1] && r[3 + 2 * i] == x[YStart(N) + i + 1]
  {
    [x[DeltaStart(N)], x[AStart(N)]] + PathPoints(N, x, N - 1)
  }

  /** Builds the program with index loops over fresh arrays, as the source
      does, calls the optimiser on it and extracts the result. The status the
      optimiser reports is not consulted: the result is the same whether or
      not it reports success. */
  method Solve(N: Horizon, state: seq<real>, coeffs: seq<real>, solver: Nlp -> SolveResult)
    returns (result: seq<real>)
    requires |state| >= 6
    requires forall p: Nlp :: |solver(p).x| == |p.guess|
    ensures result == Actuation(N, solver(Problem(N, state, coeffs)).x)
  {
    var guess := InitialGuess(N);
    var varsLower, varsUpper := VariableBounds(N);
    var conLower, conUpper := ConstraintBounds(N, state);
    var problem := Nlp(guess, varsLower, varsUpper, conLower, conUpper, FgEval(coeffs));
    ProblemBuilt(N, state, coeffs, problem);
    var solution := solver(problem);
    result := ExtractResult(N, solution.x);
  }

  /** The starting point: every variable zero, the initial state included. */
  method InitialGuess(N: Horizon) returns (guess: seq<real>)
    ensures |guess| == NVars(N)
    ensures forall k :: 0 <= k < NVars(N) ==> guess[k] == 0.0
  {
    var vars := new real[NVars(N)];
    for i := 0 to NVars(N)
      invariant forall k :: 0 <= k < i ==> vars[k] == 0.0
    {
      vars[i] := 0.0;
    }
    guess := vars[..];
  }

  /** The variable bounds, segment by segment: the states are bounded only by
      the float range, the steering angle by 25 degrees either way and the
      acceleration by 1 either way. */
  method VariableBounds(N: Horizon) returns (lower: seq<real>, upper: seq<real>)
    ensures |lower| == |upper| == NVars(N)
    ensures forall k :: 0 <= k < NVars(N) ==> lower[k] == VarLower(N, k) && upper[k] == VarUpper(N, k)
  {
    var varsLower := new real[NVars(N)];
    var varsUpper := new real[NVars(N)];
    for i := 0 to DeltaStart(N)
      invariant forall k :: 0 <= k < i ==> varsLower[k] == VarLower(N, k) && varsUpper[k] == VarUpper(N, k)
    {
      varsLower[i] := -FltMax;
      varsUpper[i] := FltMax;
    }

    var maxDegrees := 25.0;
    var maxRadians := maxDegrees * Pi / 180.0;
    for i := DeltaStart(N) to AStart(N)
      invariant forall k :: 0 <= k < i ==> varsLower[k] == VarLower(N, k) && varsUpper[k] == VarUpper(N, k)
    {
      varsLower[i] := -maxRadians;
      varsUpper[i] := maxRadians;
    }

    for i := AStart(N) to NVars(N)
      invariant forall k :: 0 <= k < i ==> varsLower[k] == VarLower(N, k) && varsUpper[k] == VarUpper(N, k)
    {
      varsLower[i] := -1.0;
      varsUpper[i] := 1.0;
    }
    lower, upper := varsLower[..], varsUpper[..];
  }

  /** The constraint bounds: both zero everywhere, except that both bounds of
      the first slot of every state segment are the current state. */
  method ConstraintBounds(N: Horizon, state: seq<real>) returns (lower: seq<real>, upper: seq<real>)
    requires |state| >= 6
    ensures |lower| == |upper| == NConstraints(N)
    ensures forall k :: 0 <= k < NConstraints(N) ==>
              lower[k] == Pinned(N, InitialState(state), k) && upper[k] == Pinned(N, InitialState(state), k)
  {
    var x, y, psi, v, cte, epsi := state[0], state[1], state[2], state[3], state[4], state[5];
    var conLower := new real[NConstraints(N)];
    var conUpper := new real[NConstraints(N)];
    for i := 0 to NConstraints(N)
      invariant forall k :: 0 <= k < i ==> conLower[k] == 0.0 && conUpper[k] == 0.0
    {
      conLower[i] := 0.0;
      conUpper[i] := 0.0;
    }
    PinInitialState(N, conLower, x, y, psi, v, cte, epsi);
    PinInitialState(N, conUpper, x, y, psi, v, cte, epsi);
    lower, upper := conLower[..], conUpper[..];
  }

  /** Reads the result out of solution x with push_back steps: the first
      actuations, then the predicted (x, y) pairs. */
  method ExtractResult(N: Horizon, x: seq<real>) returns (result: seq<real>)
    requires |x| == NVars(N)
    ensures result == Actuation(N, x)
  {
    result := [];
    result := result + [x[DeltaStart(N)]];
    result := result + [x[AStart(N)]];
    for i := 0 to N - 1
      invariant result == [x[DeltaStart(N)], x[AStart(N)]] + PathPoints(N, x, i)
    {
      result := result + [x[XStart(N) + i + 1]];
      result := result + [x[YStart(N) + i + 1]];
    }
  }

  /** The six assignments that pin the first slot of every state segment of
      a zeroed bound array to the current state. */
  method PinInitialState(N: Horizon, bound: array<real>, x: real, y: real, psi: real, v: real, cte: real, epsi: real)
    requires bound.Length == NConstraints(N)
    requires forall k :: 0 <= k < bound.Length ==> bound[k] == 0.0
    modifies bound
    ensures forall k :: 0 <= k < bound.Length ==> bound[k] == Pinned(N, State(x, y, psi, v, cte, epsi), k)
  {
    bound[XStart(N)] := x;
    bound[YStart(N)] := y;
    bound[PsiStart(N)] := psi;
    bound[VStart(N)] := v;
    bound[CteStart(N)] := cte;
    bound[EpsiStart(N)] := epsi;
    forall k | 0 <= k < bound.Length
      ensures bound[k] == Pinned(N, State(x, y, psi, v, cte, epsi), k)
    {
      var s := SegmentOf(k, N);
      if StepOf(N, k) == 0 {
        match s {
          case X =>
          case Y =>
          case Psi =>
          case V =>
          case Cte =>
          case Epsi =>
        }
      }
    }
  }

  /** A program whose parts agree entry by entry with Problem is Problem. */
  lemma ProblemBuilt(N: Horizon, state: seq<real>, coeffs: seq<real>, p: Nlp)
    requires |state| >= 6
    requires |p.guess| == |p.varLower| == |p.varUpper| == NVars(N)
    requires |p.conLower| == |p.conUpper| == NConstraints(N)
    requires forall k :: 0 <= k < NVars(N) ==> p.guess[k] == 0.0
    requires forall k :: 0 <= k < NVars(N) ==> p.varLower[k] == VarLower(N, k) && p.varUpper[k] == VarUpper(N, k)
    requires forall k :: 0 <= k < NConstraints(N) ==>
               p.conLower[k] == Pinned(N, InitialState(state), k) && p.conUpper[k] == Pinned(N, InitialState(state), k)
    requires p.fgEval == FgEval(coeffs)
    ensures p == Problem(N, state, coeffs)
  {
    var q := Problem(N, state, coeffs);
    assert p.guess == q.guess;
    assert p.varLower == q.varLower;
    assert p.varUpper == q.varUpper;
    assert p.conLower == q.conLower;
    assert p.conUpper == q.conUpper;
  }

  /** The steering limit is 25 degrees in radians, about 0.4363. */
  lemma MaxRadiansValue()
    ensures 0.4363 < MaxRadians < 0.4364
  {
  }

  /** Every variable bound is symmetric about zero with the lower bound below
      the upper one, and the zero initial guess lies within the bounds. */
  lemma VariableBoundsOrdered(N: Horizon, state: seq<real>, coeffs: seq<real>, i: nat)
    requires |state| >= 6 && i < NVars(N)
    ensures var p := Problem(N, state, coeffs);
      && p.varLower[i] == -p.varUpper[i]
      && p.varLower[i] < p.guess[i] < p.varUpper[i]
  {
    MaxRadiansValue();
  }

  /** Both bounds of every constraint are the same value: the current state
      in the first slot of each state segment, zero everywhere else. */
  lemma ConstraintBoundsPinned(N: Horizon, state: seq<real>, coeffs: seq<real>)
    requires |state| >= 6
    ensures var p := Problem(N, state, coeffs);
      && p.conLower == p.conUpper
      && (forall s: Segment :: s.IsState() ==> p.conLower[Start(s, N)] == state[s.Rank()])
      && (forall i :: 0 <= i < NConstraints(N) && StepOf(N, i) != 0 ==> p.conLower[i] == 0.0)
  {
    var p := Problem(N, state, coeffs);
    forall s: Segment | s.IsState()
      ensures p.conLower[Start(s, N)] == state[s.Rank()]
    {
      ConstraintIndex(N, s, 0);
    }
  }

  /** Solution x satisfies every bound of the program: each variable lies
      within its bounds, and each constraint, as FG_eval evaluates it at x,
      within the bounds of that constraint. */
  predicate Feasible(N: Horizon, state: seq<real>, coeffs: seq<real>, trig: Trig, x: seq<real>)
    requires |state| >= 6 && |coeffs| >= 4 && |x| == NVars(N)
  {
    var p := Problem(N, state, coeffs);
    && (forall i :: 0 <= i < NVars(N) ==> p.varLower[i] <= x[i] <= p.varUpper[i])
    && (forall i :: 0 <= i < NConstraints(N) ==> p.conLower[i] <= ConstraintAt(N, coeffs, trig, x, i) <= p.conUpper[i])
  }

  /** The states the kinematic model predicts from `init` under the
      actuators of x, step by step. */
  function Rollout(N: Horizon, coeffs: seq<real>, trig: Trig, init: State, x: seq<real>, t: nat): State
    requires |coeffs| >= 4 && |x| == NVars(N) && t < N
  {
    if t == 0 then init
    else Predict(coeffs, trig, Rollout(N, coeffs, trig, init, x, t - 1), x[DeltaStart(N) + t - 1], x[AStart(N) + t - 1])
  }

  /** A trajectory that starts at `init` and follows the model is the
      rollout of its actuators. */
  lemma {:induction false} FollowsModelIsRollout(N: Horizon, coeffs: seq<real>, trig: Trig, init: State, x: seq<real>, t: nat)
    requires |coeffs| >= 4 && |x| == NVars(N) && t < N
    requires StateAt(N, x, 0) == init && FollowsModel(N, coeffs, trig, x)
    ensures StateAt(N, x, t) == Rollout(N, coeffs, trig, init, x, t)
  {
    if t > 0 {
      FollowsModelIsRollout(N, coeffs, trig, init, x, t - 1);
    }
  }

  /** A solution is feasible exactly when its actuators stay within their
      limits, its states within the float range, and its trajectory starts
      at the current state and follows the kinematic model. */
  lemma FeasibleIffRollout(N: Horizon, state: seq<real>, coeffs: seq<real>, trig: Trig, x: seq<real>)
    requires |state| >= 6 && |coeffs| >= 4 && |x| == NVars(N)
    ensures Feasible(N, state, coeffs, trig, x)
        <==> (forall i :: 0 <= i < NVars(N) ==> VarLower(N, i) <= x[i] <= VarUpper(N, i))
             && StateAt(N, x, 0) == InitialState(state) && FollowsModel(N, coeffs, trig, x)
  {
    var init := InitialState(state);
    PinnedIffRollout(N, coeffs, trig, x, init);
    var p := Problem(N, state, coeffs);
    if Feasible(N, state, coeffs, trig, x) {
      forall i | 0 <= i < NConstraints(N)
        ensures ConstraintAt(N, coeffs, trig, x, i) == Pinned(N, init, i)
      {
        assert p.conLower[i] <= ConstraintAt(N, coeffs, trig, x, i) <= p.conUpper[i];
      }
    }
  }

  /** For a feasible solution, the result Solve extracts holds actuations
      within their limits and the (x, y) points of the model's rollout from
      the current state. */
  lemma FeasibleResult(N: Horizon, state: seq<real>, coeffs: seq<real>, trig: Trig, x: seq<real>)
    requires |state| >= 6 && |coeffs| >= 4 && |x| == NVars(N)
    requires Feasible(N, state, coeffs, trig, x)
    ensures var r := Actuation(N, x);
      && -MaxRadians <= r[0] <= MaxRadians
      && -1.0 <= r[1] <= 1.0
      && forall i :: 0 <= i < N - 1 ==>
           r[2 + 2 * i] == Rollout(N, coeffs, trig, InitialState(state), x, i + 1).x
           && r[3 + 2 * i] == Rollout(N, coeffs, trig, InitialState(state), x, i + 1).y
  {
    FeasibleIffRollout(N, state, coeffs, trig, x);
    var p := Problem(N, state, coeffs);
    assert p.varLower[DeltaStart(N)] <= x[DeltaStart(N)] <= p.varUpper[DeltaStart(N)];
    assert p.varLower[AStart(N)] <= x[AStart(N)] <= p.varUpper[AStart(N)];
    forall t | 1 <= t < N
      ensures StateAt(N, x, t) == Rollout(N, coeffs, trig, InitialState(state), x, t)
    {
      FollowsModelIsRollout(N, coeffs, trig, InitialState(state), x, t);
    }
  }
}
