/** The kinematic bicycle model the optimiser's trajectory must obey, with the
    reference-path error terms, as the constraint loop of FG_eval evaluates it.
    Doubles are modelled as reals; the trigonometric functions are whatever
    functions the caller supplies in a `Trig` value. */
module Dynamics {
  import opened Layout

  /** Time between actuations, in seconds. */
  const Dt: real := 0.1

  /** Distance from the front axle to the centre of gravity. */
  const Lf: real := 2.67

  /** The trigonometric functions the model uses, left uninterpreted. */
  datatype Trig = Trig(sin: real -> real, cos: real -> real, atan: real -> real)

  /** The vehicle state at one step of the horizon. */
  datatype State = State(x: real, y: real, psi: real, v: real, cte: real, epsi: real)
  {
    /** The component of the state stored in state segment `s`. */
    function Field(s: Segment): real
      requires s.IsState()
    {
      match s
      case X => x
      case Y => y
      case Psi => psi
      case V => v
      case Cte => cte
      case Epsi => epsi
    }
  }

  /** Height of the cubic reference path at `x`; at the vehicle's own
      position, x = 0, it is the constant coefficient. */
  function Path(coeffs: seq<real>, x: real): (r: real)
    requires |coeffs| >= 4
    ensures x == 0.0 ==> r == coeffs[0]
  {
    coeffs[0] + coeffs[1] * x + coeffs[2] * x * x + coeffs[3] * x * x * x
  }

  /** Slope of the cubic reference path at `x`; at x = 0 it is the linear
      coefficient. */
  function PathSlope(coeffs: seq<real>, x: real): (r: real)
    requires |coeffs| >= 4
    ensures x == 0.0 ==> r == coeffs[1]
  {
    coeffs[1] + 2.0 * coeffs[2] * x + 3.0 * coeffs[3] * x * x
  }

  /** The state one step after `s` under steering `delta` and acceleration `a`. */
  function Predict(coeffs: seq<real>, trig: Trig, s: State, delta: real, a: real): State
    requires |coeffs| >= 4
  {
    var f0 := Path(coeffs, s.x);
    var psides0 := trig.atan(PathSlope(coeffs, s.x));
    State(s.x + s.v * trig.cos(s.psi) * Dt,
          s.y + s.v * trig.sin(s.psi) * Dt,
          s.psi - s.v * delta / Lf * Dt,
          s.v + a * Dt,
          (f0 - s.y) + s.v * trig.sin(s.epsi) * Dt,
          (s.psi - psides0) - s.v * delta / Lf * Dt)
  }

  /** Positive steering turns right: the heading decreases, as in the code (its
      comments show the opposite sign). A vehicle at rest keeps its pose, and
      without steering it keeps its heading, whatever the trigonometry; the
      speed grows exactly when the acceleration is positive. */
  lemma PredictDirections(coeffs: seq<real>, trig: Trig, s: State, delta: real, a: real)
    requires |coeffs| >= 4
    ensures var r := Predict(coeffs, trig, s, delta, a);
      && (s.v == 0.0 ==> r.x == s.x && r.y == s.y && r.psi == s.psi)
      && (delta == 0.0 ==> r.psi == s.psi)
      && (s.v > 0.0 && delta > 0.0 ==> r.psi < s.psi)
      && (s.v > 0.0 && delta < 0.0 ==> r.psi > s.psi)
      && (a > 0.0 <==> r.v > s.v)
  {
    assert s.v > 0.0 && delta > 0.0 ==> s.v * delta > 0.0;
    assert s.v > 0.0 && delta < 0.0 ==> s.v * delta < 0.0;
  }

  /** The state at step t of the horizon, read from the decision vector. */
  function StateAt(N: Horizon, vars: seq<real>, t: nat): State
    requires |vars| == NVars(N) && t < N
  {
    State(vars[XStart(N) + t], vars[YStart(N) + t], vars[PsiStart(N) + t],
          vars[VStart(N) + t], vars[CteStart(N) + t], vars[EpsiStart(N) + t])
  }

  /** The six dynamics residuals of step t: the state the decision vector holds
      at t minus the state the model predicts from step t - 1 and the actuators
      of step t - 1. */
  function Residual(N: Horizon, coeffs: seq<real>, trig: Trig, vars: seq<real>, t: nat): State
    requires |vars| == NVars(N) && |coeffs| >= 4 && 1 <= t < N
  {
    var s1 := StateAt(N, vars, t);
    var p := Predict(coeffs, trig, StateAt(N, vars, t - 1),
                     vars[DeltaStart(N) + t - 1], vars[AStart(N) + t - 1]);
    State(s1.x - p.x, s1.y - p.y, s1.psi - p.psi, s1.v - p.v, s1.cte - p.cte, s1.epsi - p.epsi)
  }

  /** The residuals of step t all vanish exactly when the decision vector's
      state at t is the model's prediction from step t - 1. */
  lemma ResidualZeroIffPredicted(N: Horizon, coeffs: seq<real>, trig: Trig, vars: seq<real>, t: nat)
    requires |vars| == NVars(N) && |coeffs| >= 4 && 1 <= t < N
    ensures Residual(N, coeffs, trig, vars, t) == State(0.0, 0.0, 0.0, 0.0, 0.0, 0.0)
        <==> StateAt(N, vars, t) == Predict(coeffs, trig, StateAt(N, vars, t - 1),
                                            vars[DeltaStart(N) + t - 1], vars[AStart(N) + t - 1])
  {
  }

  /** The velocity and heading residuals do not depend on the trigonometric
      functions: the velocity residual is v[t] - (v[t-1] + a[t-1] * dt). */
  lemma TrigFreeResiduals(N: Horizon, coeffs: seq<real>, trig1: Trig, trig2: Trig, vars: seq<real>, t: nat)
    requires |vars| == NVars(N) && |coeffs| >= 4 && 1 <= t < N
    ensures Residual(N, coeffs, trig1, vars, t).v
         == vars[VStart(N) + t] - (vars[VStart(N) + t - 1] + vars[AStart(N) + t - 1] * Dt)
    ensures Residual(N, coeffs, trig1, vars, t).v == Residual(N, coeffs, trig2, vars, t).v
    ensures Residual(N, coeffs, trig1, vars, t).psi == Residual(N, coeffs, trig2, vars, t).psi
  {
    var s0 := StateAt(N, vars, t - 1);
    var delta, a := vars[DeltaStart(N) + t - 1], vars[AStart(N) + t - 1];
    var p1, p2 := Predict(coeffs, trig1, s0, delta, a), Predict(coeffs, trig2, s0, delta, a);
    assert p1.v == p2.v == s0.v + a * Dt;
    assert p1.psi == p2.psi;
  }
}
