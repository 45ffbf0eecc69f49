/** FG_eval: the callback the optimiser calls to evaluate the objective and
    the constraints at a candidate decision vector. It holds the fitted
    polynomial and writes its results into the optimiser's vector `fg` in
    place: the objective into fg[0], constraint i into fg[1 + i]. */
module Evaluation {
  import opened Layout
  import opened Dynamics
  import opened Cost
  import opened Constraints

  /** The evaluator with the coefficients of the fitted reference cubic. */
  datatype FgEval = FgEval(coeffs: seq<real>)
  {
    /** Fills `fg` for decision vector `vars`, in the order of the source:
        the tracking, actuator and smoothness loops accumulate the
        objective, then the initial-state constraints are copied and the
        step loop writes the six model residuals of every later step. */
    method Evaluate(N: Horizon, trig: Trig, fg: array<real>, vars: seq<real>)
      requires |coeffs| >= 4 && |vars| == NVars(N) && fg.Length == 1 + NConstraints(N)
      modifies fg
      ensures fg[0] == Objective(N, vars)
      ensures forall i :: 0 <= i < NConstraints(N) ==> fg[1 + i] == ConstraintAt(N, coeffs, trig, vars, i)
    {
      AccumulateCost(N, fg, vars);
      FillConstraints(N, trig, fg, vars);
    }

    /** The first half of Evaluate: fg[0] is reset and the three cost loops
        add their terms to it; the constraint slots are left as they were. */
    method AccumulateCost(N: Horizon, fg: array<real>, vars: seq<real>)
      requires |vars| == NVars(N) && fg.Length == 1 + NConstraints(N)
      modifies fg
      ensures fg[0] == Objective(N, vars)
      ensures forall j :: 1 <= j < fg.Length ==> fg[j] == old(fg[j])
    {
      fg[0] := 0.0;
      AddTrackingCost(N, fg, vars);
      AddActuatorCost(N, fg, vars);
      AddSmoothnessCost(N, fg, vars);
    }

    /** The reference-state loop: adds the weighted tracking errors of every step. */
    method AddTrackingCost(N: Horizon, fg: array<real>, vars: seq<real>)
      requires |vars| == NVars(N) && fg.Length == 1 + NConstraints(N)
      modifies fg
      ensures fg[0] == old(fg[0]) + TrackingCost(N, vars, N)
      ensures forall j :: 1 <= j < fg.Length ==> fg[j] == old(fg[j])
    {
      for t := 0 to N
        invariant fg[0] == old(fg[0]) + TrackingCost(N, vars, t)
        invariant forall j :: 1 <= j < fg.Length ==> fg[j] == old(fg[j])
      {
        fg[0] := fg[0] + CteW * Sq(vars[CteStart(N) + t] - RefCte);
        fg[0] := fg[0] + EpsiW * Sq(vars[EpsiStart(N) + t] - RefEpsi);
        fg[0] := fg[0] + VW * Sq(vars[VStart(N) + t] - RefV);
      }
    }

    /** The actuator loop: adds the weighted actuator values of every actuation step. */
    method AddActuatorCost(N: Horizon, fg: array<real>, vars: seq<real>)
      requires |vars| == NVars(N) && fg.Length == 1 + NConstraints(N)
      modifies fg
      ensures fg[0] == old(fg[0]) + ActuatorCost(N, vars, N - 1)
      ensures forall j :: 1 <= j < fg.Length ==> fg[j] == old(fg[j])
    {
      for t := 0 to N - 1
        invariant fg[0] == old(fg[0]) + ActuatorCost(N, vars, t)
        invariant forall j :: 1 <= j < fg.Length ==> fg[j] == old(fg[j])
      {
        fg[0] := fg[0] + ActuatorW * Sq(vars[DeltaStart(N) + t]);
        fg[0] := fg[0] + ActuatorW * Sq(vars[AStart(N) + t]);
      }
    }

    /** The smoothness loop: adds the weighted actuator changes of every pair
        of consecutive actuation steps. */
    method AddSmoothnessCost(N: Horizon, fg: array<real>, vars: seq<real>)
      requires |vars| == NVars(N) && fg.Length == 1 + NConstraints(N)
      modifies fg
      ensures fg[0] == old(fg[0]) + SmoothnessCost(N, vars, N - 2)
      ensures forall j :: 1 <= j < fg.Length ==> fg[j] == old(fg[j])
    {
      for t := 0 to N - 2
        invariant fg[0] == old(fg[0]) + SmoothnessCost(N, vars, t)
        invariant forall j :: 1 <= j < fg.Length ==> fg[j] == old(fg[j])
      {
        fg[0] := fg[0] + ChangeSteerW * Sq(vars[DeltaStart(N) + t + 1] - vars[DeltaStart(N) + t]);
        fg[0] := fg[0] + ChangeAccelW * Sq(vars[AStart(N) + t + 1] - vars[AStart(N) + t]);
      }
    }

    /** The second half of Evaluate: the initial-state constraints are
        copied, then the step loop writes the six model residuals of every
        later step; the objective in fg[0] is left as it was. */
    method FillConstraints(N: Horizon, trig: Trig, fg: array<real>, vars: seq<real>)
      requires |coeffs| >= 4 && |vars| == NVars(N) && fg.Length == 1 + NConstraints(N)
      modifies fg
      ensures fg[0] == old(fg[0])
      ensures forall i :: 0 <= i < NConstraints(N) ==> fg[1 + i] == ConstraintAt(N, coeffs, trig, vars, i)
    {
      WriteInitial(N, fg, vars);
      InitialSlotsWritten(N, trig, fg, vars);

      for t := 1 to N
        invariant fg[0] == old(fg[0])
        invariant forall i :: 0 <= i < NConstraints(N) && StepOf(N, i) < t ==>
                    fg[1 + i] == ConstraintAt(N, coeffs, trig, vars, i)
      {
        var prev := StateAt(N, vars, t - 1);
        var next := StateAt(N, vars, t);
        var predicted := Predict(coeffs, trig, prev, vars[DeltaStart(N) + t - 1], vars[AStart(N) + t - 1]);
        ghost var before := fg[..];
        WriteStep(N, fg, t, next, predicted);
        StepSlotsWritten(N, trig, before, fg[..], vars, t, next, predicted);
      }
    }

    /** The six initial-state writes: the first entry of every state segment
        is copied into its slot, and every other slot keeps its value. */
    static method WriteInitial(N: Horizon, fg: array<real>, vars: seq<real>)
      requires |vars| == NVars(N) && fg.Length == 1 + NConstraints(N)
      modifies fg
      ensures fg[1 + XStart(N)] == vars[XStart(N)] && fg[1 + YStart(N)] == vars[YStart(N)]
      ensures fg[1 + PsiStart(N)] == vars[PsiStart(N)] && fg[1 + VStart(N)] == vars[VStart(N)]
      ensures fg[1 + CteStart(N)] == vars[CteStart(N)] && fg[1 + EpsiStart(N)] == vars[EpsiStart(N)]
      ensures fg[0] == old(fg[0])
      ensures forall j :: 0 <= j < fg.Length && !IsStepSlot(N, j, 0) ==> fg[j] == old(fg[j])
    {
      fg[1 + XStart(N)] := vars[XStart(N)];
      fg[1 + YStart(N)] := vars[YStart(N)];
      fg[1 + PsiStart(N)] := vars[PsiStart(N)];
      fg[1 + VStart(N)] := vars[VStart(N)];
      fg[1 + CteStart(N)] := vars[CteStart(N)];
      fg[1 + EpsiStart(N)] := vars[EpsiStart(N)];
    }

    /** The six writes of one pass of the step loop: each state component of
        step t minus its predicted value goes into its slot, and nothing else
        changes. */
    static method WriteStep(N: Horizon, fg: array<real>, t: nat, next: State, predicted: State)
      requires fg.Length == 1 + NConstraints(N) && 1 <= t < N
      modifies fg
      ensures fg[1 + XStart(N) + t] == next.x - predicted.x
      ensures fg[1 + YStart(N) + t] == next.y - predicted.y
      ensures fg[1 + PsiStart(N) + t] == next.psi - predicted.psi
      ensures fg[1 + VStart(N) + t] == next.v - predicted.v
      ensures fg[1 + CteStart(N) + t] == next.cte - predicted.cte
      ensures fg[1 + EpsiStart(N) + t] == next.epsi - predicted.epsi
      ensures forall j :: 0 <= j < fg.Length && !IsStepSlot(N, j, t) ==> fg[j] == old(fg[j])
    {
      fg[1 + XStart(N) + t] := next.x - predicted.x;
      fg[1 + YStart(N) + t] := next.y - predicted.y;
      fg[1 + PsiStart(N) + t] := next.psi - predicted.psi;
      fg[1 + VStart(N) + t] := next.v - predicted.v;
      fg[1 + CteStart(N) + t] := next.cte - predicted.cte;
      fg[1 + EpsiStart(N) + t] := next.epsi - predicted.epsi;
    }

    /** Whether fg index j is one of the six slots of step t: at step 0 the
        initial-state copies, at a later step its residuals. */
    static predicate IsStepSlot(N: Horizon, j: nat, t: nat)
    {
      j == 1 + XStart(N) + t || j == 1 + YStart(N) + t || j == 1 + PsiStart(N) + t
      || j == 1 + VStart(N) + t || j == 1 + CteStart(N) + t || j == 1 + EpsiStart(N) + t
    }

    /** After the six initial-state writes, every step-0 constraint is in place. */
    lemma InitialSlotsWritten(N: Horizon, trig: Trig, fg: array<real>, vars: seq<real>)
      requires |coeffs| >= 4 && |vars| == NVars(N) && fg.Length == 1 + NConstraints(N)
      requires fg[1 + XStart(N)] == vars[XStart(N)] && fg[1 + YStart(N)] == vars[YStart(N)]
      requires fg[1 + PsiStart(N)] == vars[PsiStart(N)] && fg[1 + VStart(N)] == vars[VStart(N)]
      requires fg[1 + CteStart(N)] == vars[CteStart(N)] && fg[1 + EpsiStart(N)] == vars[EpsiStart(N)]
      ensures forall i :: 0 <= i < NConstraints(N) && StepOf(N, i) < 1 ==>
                fg[1 + i] == ConstraintAt(N, coeffs, trig, vars, i)
    {
    }

    /** The six writes of step t put the residuals of step t in place and
        leave the constraints of earlier steps as they were. */
    lemma StepSlotsWritten(N: Horizon, trig: Trig, before: seq<real>, after: seq<real>, vars: seq<real>, t: nat,
                           next: State, predicted: State)
      requires |coeffs| >= 4 && |vars| == NVars(N) && 1 <= t < N
      requires next == StateAt(N, vars, t)
      requires predicted == Predict(coeffs, trig, StateAt(N, vars, t - 1),
                                    vars[DeltaStart(N) + t - 1], vars[AStart(N) + t - 1])
      requires |before| == |after| == 1 + NConstraints(N)
      requires forall i :: 0 <= i < NConstraints(N) && StepOf(N, i) < t ==>
                 before[1 + i] == ConstraintAt(N, coeffs, trig, vars, i)
      requires forall j :: 0 <= j < |after| && !IsStepSlot(N, j, t) ==> after[j] == before[j]
      requires after[1 + XStart(N) + t] == next.x - predicted.x
      requires after[1 + YStart(N) + t] == next.y - predicted.y
      requires after[1 + PsiStart(N) + t] == next.psi - predicted.psi
      requires after[1 + VStart(N) + t] == next.v - predicted.v
      requires after[1 + CteStart(N) + t] == next.cte - predicted.cte
      requires after[1 + EpsiStart(N) + t] == next.epsi - predicted.epsi
      ensures forall i :: 0 <= i < NConstraints(N) && StepOf(N, i) < t + 1 ==>
                after[1 + i] == ConstraintAt(N, coeffs, trig, vars, i)
    {
      assert Residual(N, coeffs, trig, vars, t)
          == State(next.x - predicted.x, next.y - predicted.y, next.psi - predicted.psi,
                   next.v - predicted.v, next.cte - predicted.cte, next.epsi - predicted.epsi);
      forall i | 0 <= i < NConstraints(N) && StepOf(N, i) < t + 1
        ensures after[1 + i] == ConstraintAt(N, coeffs, trig, vars, i)
      {
        var s := SegmentOf(i, N);
        if StepOf(N, i) == t {
          match s {
            case X =>
            case Y =>
            case Psi =>
            case V =>
            case Cte =>
            case Epsi =>
          }
        }
      }
    }
  }
}
