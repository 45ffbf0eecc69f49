/** The objective `fg[0]` that FG_eval accumulates: weighted squares of the
    tracking errors over the N steps, of the actuator values over the N - 1
    actuation steps and of the actuator changes over the N - 2 consecutive
    pairs. Each sum below adds its terms in the order of the source's loop. */
module Cost {
  import opened Layout

  /** Target values of the tracked states. */
  const RefCte: real := 0.0
  const RefEpsi: real := 0.0
  const RefV: real := 130.0

  /** Weights of the cost terms. */
  const CteW: real := 1500.0
  const EpsiW: real := 2000.0
  const VW: real := 1.0
  const ActuatorW: real := 10.0
  const ChangeSteerW: real := 1000.0
  const ChangeAccelW: real := 10.0

  /** The square the objective applies to every penalised quantity. */
  function Sq(x: real): real { x * x }

  /** The product of two positive numbers is positive. */
  lemma ProductOfPositives(a: real, b: real, p: real)
    requires p == a * b && a > 0.0 && b > 0.0
    ensures p > 0.0
  {
  }

  /** The product of two negative numbers is positive. */
  lemma ProductOfNegatives(a: real, b: real, p: real)
    requires p == a * b && a < 0.0 && b < 0.0
    ensures p > 0.0
  {
  }

  /** The sign of a square, by the sign of its root. */
  lemma SquareSign(x: real, y: real)
    requires y == x * x
    ensures y >= 0.0
    ensures x != 0.0 ==> y > 0.0
    ensures x == 0.0 ==> y == 0.0
  {
    if x > 0.0 {
      ProductOfPositives(x, x, y);
    } else if x < 0.0 {
      ProductOfNegatives(x, x, y);
    }
  }

  /** A square is never negative, and zero only at zero. */
  lemma SqFacts(x: real)
    ensures Sq(x) >= 0.0
    ensures Sq(x) == 0.0 <==> x == 0.0
  {
    assert Sq(x) == x * x;
    SquareSign(x, Sq(x));
  }

  /** Tracking penalty of step t. */
  function TrackingTerm(N: Horizon, vars: seq<real>, t: nat): real
    requires |vars| == NVars(N) && t < N
  {
    CteW * Sq(vars[CteStart(N) + t] - RefCte)
    + EpsiW * Sq(vars[EpsiStart(N) + t] - RefEpsi)
    + VW * Sq(vars[VStart(N) + t] - RefV)
  }

  /** Actuator-magnitude penalty of actuation step t. */
  function ActuatorTerm(N: Horizon, vars: seq<real>, t: nat): real
    requires |vars| == NVars(N) && t < N - 1
  {
    ActuatorW * Sq(vars[DeltaStart(N) + t]) + ActuatorW * Sq(vars[AStart(N) + t])
  }

  /** Actuator-change penalty between actuation steps t and t + 1. */
  function SmoothnessTerm(N: Horizon, vars: seq<real>, t: nat): real
    requires |vars| == NVars(N) && t < N - 2
  {
    ChangeSteerW * Sq(vars[DeltaStart(N) + t + 1] - vars[DeltaStart(N) + t])
    + ChangeAccelW * Sq(vars[AStart(N) + t + 1] - vars[AStart(N) + t])
  }

  /** Tracking penalties of the first n steps; never negative. */
  function TrackingCost(N: Horizon, vars: seq<real>, n: nat): (r: real)
    requires |vars| == NVars(N) && n <= N
    ensures r >= 0.0
  {
    if n == 0 then 0.0
    else
      var term := TrackingTerm(N, vars, n - 1);
      SqFacts(vars[CteStart(N) + n - 1] - RefCte);
      SqFacts(vars[EpsiStart(N) + n - 1] - RefEpsi);
      SqFacts(vars[VStart(N) + n - 1] - RefV);
      TrackingCost(N, vars, n - 1) + term
  }

  /** Actuator-magnitude penalties of the first n actuation steps; never negative. */
  function ActuatorCost(N: Horizon, vars: seq<real>, n: nat): (r: real)
    requires |vars| == NVars(N) && n <= N - 1
    ensures r >= 0.0
  {
    if n == 0 then 0.0
    else
      var term := ActuatorTerm(N, vars, n - 1);
      SqFacts(vars[DeltaStart(N) + n - 1]);
      SqFacts(vars[AStart(N) + n - 1]);
      ActuatorCost(N, vars, n - 1) + term
  }

  /** Actuator-change penalties of the first n pairs; never negative. */
  function SmoothnessCost(N: Horizon, vars: seq<real>, n: nat): (r: real)
    requires |vars| == NVars(N) && n <= N - 2
    ensures r >= 0.0
  {
    if n == 0 then 0.0
    else
      var term := SmoothnessTerm(N, vars, n - 1);
      SqFacts(vars[DeltaStart(N) + n] - vars[DeltaStart(N) + n - 1]);
      SqFacts(vars[AStart(N) + n] - vars[AStart(N) + n - 1]);
      SmoothnessCost(N, vars, n - 1) + term
  }

  /** The whole objective. All weights are positive and every term is a
      square, so it is never negative. */
  function Objective(N: Horizon, vars: seq<real>): (r: real)
    requires |vars| == NVars(N)
    ensures r >= 0.0
  {
    TrackingCost(N, vars, N) + ActuatorCost(N, vars, N - 1) + SmoothnessCost(N, vars, N - 2)
  }

  /** Step t has no cross-track error, no heading error and the reference speed. */
  predicate TrackedAtReference(N: Horizon, vars: seq<real>, t: nat)
    requires |vars| == NVars(N) && t < N
  {
    vars[CteStart(N) + t] == RefCte && vars[EpsiStart(N) + t] == RefEpsi && vars[VStart(N) + t] == RefV
  }

  /** Actuation step t neither steers nor accelerates. */
  predicate ActuatorsAtRest(N: Horizon, vars: seq<real>, t: nat)
    requires |vars| == NVars(N) && t < N - 1
  {
    vars[DeltaStart(N) + t] == 0.0 && vars[AStart(N) + t] == 0.0
  }

  /** The whole horizon sits at the reference: every step is on target and no
      actuation step steers or accelerates. */
  predicate AtReference(N: Horizon, vars: seq<real>)
    requires |vars| == NVars(N)
  {
    (forall t :: 0 <= t < N ==> TrackedAtReference(N, vars, t))
    && (forall t :: 0 <= t < N - 1 ==> ActuatorsAtRest(N, vars, t))
  }

  /** The target of decision-vector index i, for the indices the cost reads. */
  function Target(N: Horizon, i: nat): real
    requires VStart(N) <= i < NVars(N)
  {
    match SegmentOf(i, N)
    case V => RefV
    case Cte => RefCte
    case Epsi => RefEpsi
    case _ => 0.0
  }

  /** The tracking penalty of step t vanishes exactly when step t is on target. */
  lemma TrackingTermZero(N: Horizon, vars: seq<real>, t: nat)
    requires |vars| == NVars(N) && t < N
    ensures TrackingTerm(N, vars, t) >= 0.0
    ensures TrackingTerm(N, vars, t) == 0.0 <==> TrackedAtReference(N, vars, t)
  {
    SqFacts(vars[CteStart(N) + t] - RefCte);
    SqFacts(vars[EpsiStart(N) + t] - RefEpsi);
    SqFacts(vars[VStart(N) + t] - RefV);
  }

  /** The tracking penalties of the first n steps vanish exactly when those
      steps are on target. */
  lemma {:induction false} TrackingCostZero(N: Horizon, vars: seq<real>, n: nat)
    requires |vars| == NVars(N) && n <= N
    ensures TrackingCost(N, vars, n) == 0.0 <==> forall t :: 0 <= t < n ==> TrackedAtReference(N, vars, t)
  {
    if n > 0 {
      TrackingCostZero(N, vars, n - 1);
      TrackingTermZero(N, vars, n - 1);
      assert TrackingCost(N, vars, n) == TrackingCost(N, vars, n - 1) + TrackingTerm(N, vars, n - 1);
      assert (forall t :: 0 <= t < n ==> TrackedAtReference(N, vars, t))
         <==> (forall t :: 0 <= t < n - 1 ==> TrackedAtReference(N, vars, t)) && TrackedAtReference(N, vars, n - 1);
    }
  }

  /** The actuator penalty of step t vanishes exactly when step t neither
      steers nor accelerates. */
  lemma ActuatorTermZero(N: Horizon, vars: seq<real>, t: nat)
    requires |vars| == NVars(N) && t < N - 1
    ensures ActuatorTerm(N, vars, t) >= 0.0
    ensures ActuatorTerm(N, vars, t) == 0.0 <==> ActuatorsAtRest(N, vars, t)
  {
    SqFacts(vars[DeltaStart(N) + t]);
    SqFacts(vars[AStart(N) + t]);
  }

  /** The actuator-magnitude penalties of the first n actuation steps vanish
      exactly when those steps neither steer nor accelerate. */
  lemma {:induction false} ActuatorCostZero(N: Horizon, vars: seq<real>, n: nat)
    requires |vars| == NVars(N) && n <= N - 1
    ensures ActuatorCost(N, vars, n) == 0.0 <==> forall t :: 0 <= t < n ==> ActuatorsAtRest(N, vars, t)
  {
    if n > 0 {
      ActuatorCostZero(N, vars, n - 1);
      ActuatorTermZero(N, vars, n - 1);
      assert ActuatorCost(N, vars, n) == ActuatorCost(N, vars, n - 1) + ActuatorTerm(N, vars, n - 1);
      assert (forall t :: 0 <= t < n ==> ActuatorsAtRest(N, vars, t))
         <==> (forall t :: 0 <= t < n - 1 ==> ActuatorsAtRest(N, vars, t)) && ActuatorsAtRest(N, vars, n - 1);
    }
  }

  /** Actuators that never change incur no change penalty. */
  lemma {:induction false} SmoothnessCostZeroAtRest(N: Horizon, vars: seq<real>, n: nat)
    requires |vars| == NVars(N) && n <= N - 2
    requires forall t :: 0 <= t < N - 1 ==> ActuatorsAtRest(N, vars, t)
    ensures SmoothnessCost(N, vars, n) == 0.0
  {
    if n > 0 {
      SmoothnessCostZeroAtRest(N, vars, n - 1);
      assert ActuatorsAtRest(N, vars, n - 1) && ActuatorsAtRest(N, vars, n);
    }
  }

  /** The objective is zero exactly at the reference, and positive anywhere else. */
  lemma ObjectiveZeroIffAtReference(N: Horizon, vars: seq<real>)
    requires |vars| == NVars(N)
    ensures Objective(N, vars) == 0.0 <==> AtReference(N, vars)
    ensures !AtReference(N, vars) ==> Objective(N, vars) > 0.0
  {
    TrackingCostZero(N, vars, N);
    ActuatorCostZero(N, vars, N - 1);
    if AtReference(N, vars) {
      SmoothnessCostZeroAtRest(N, vars, N - 2);
    }
  }

  /** Decision vectors that agree on the v, cte and epsi segments have the
      same tracking penalties: no other segment is read by that loop. */
  lemma {:induction false} TrackingCostFrame(N: Horizon, vars1: seq<real>, vars2: seq<real>, n: nat)
    requires |vars1| == |vars2| == NVars(N) && n <= N
    requires forall i :: VStart(N) <= i < DeltaStart(N) ==> vars1[i] == vars2[i]
    ensures TrackingCost(N, vars1, n) == TrackingCost(N, vars2, n)
  {
    if n > 0 {
      TrackingCostFrame(N, vars1, vars2, n - 1);
    }
  }

  /** Decision vectors that agree on the delta and a segments have the same
      actuator penalties: no state segment is read by that loop. */
  lemma {:induction false} ActuatorCostFrame(N: Horizon, vars1: seq<real>, vars2: seq<real>, n: nat)
    requires |vars1| == |vars2| == NVars(N) && n <= N - 1
    requires forall i :: DeltaStart(N) <= i < NVars(N) ==> vars1[i] == vars2[i]
    ensures ActuatorCost(N, vars1, n) == ActuatorCost(N, vars2, n)
  {
    if n > 0 {
      ActuatorCostFrame(N, vars1, vars2, n - 1);
    }
  }

  /** Decision vectors that agree on the delta and a segments have the same
      change penalties: no state segment is read by that loop. */
  lemma {:induction false} SmoothnessCostFrame(N: Horizon, vars1: seq<real>, vars2: seq<real>, n: nat)
    requires |vars1| == |vars2| == NVars(N) && n <= N - 2
    requires forall i :: DeltaStart(N) <= i < NVars(N) ==> vars1[i] == vars2[i]
    ensures SmoothnessCost(N, vars1, n) == SmoothnessCost(N, vars2, n)
  {
    if n > 0 {
      SmoothnessCostFrame(N, vars1, vars2, n - 1);
    }
  }

  /** The objective reads only the v, cte, epsi, delta and a segments: vectors
      that agree there have the same objective. */
  lemma ObjectiveFrame(N: Horizon, vars1: seq<real>, vars2: seq<real>)
    requires |vars1| == |vars2| == NVars(N)
    requires forall i :: VStart(N) <= i < NVars(N) ==> vars1[i] == vars2[i]
    ensures Objective(N, vars1) == Objective(N, vars2)
  {
    TrackingCostFrame(N, vars1, vars2, N);
    ActuatorCostFrame(N, vars1, vars2, N - 1);
    SmoothnessCostFrame(N, vars1, vars2, N - 2);
  }

  /** Changing a single x, y or psi entry leaves the objective unchanged. */
  lemma PoseChangeKeepsObjective(N: Horizon, vars: seq<real>, i: nat, value: real)
    requires |vars| == NVars(N) && i < VStart(N)
    ensures Objective(N, vars[i := value]) == Objective(N, vars)
  {
    ObjectiveFrame(N, vars[i := value], vars);
  }

  /** From the reference, moving any single v, cte, epsi, delta or a entry away
      from its target strictly increases the objective. */
  lemma SingleDepartureIncreasesObjective(N: Horizon, vars: seq<real>, i: nat, value: real)
    requires |vars| == NVars(N) && AtReference(N, vars)
    requires VStart(N) <= i < NVars(N) && value != Target(N, i)
    ensures Objective(N, vars[i := value]) > Objective(N, vars)
  {
    var moved := vars[i := value];
    var s := SegmentOf(i, N);
    var t := i - Start(s, N);
    match s {
      case V => assert !TrackedAtReference(N, moved, t);
      case Cte => assert !TrackedAtReference(N, moved, t);
      case Epsi => assert !TrackedAtReference(N, moved, t);
      case Delta => assert !ActuatorsAtRest(N, moved, t);
      case A => assert !ActuatorsAtRest(N, moved, t);
    }
    ObjectiveZeroIffAtReference(N, vars);
    ObjectiveZeroIffAtReference(N, moved);
  }
}
