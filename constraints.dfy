/** The constraint vector FG_eval stores after the cost, `fg[1 ..]`, and the
    bounds MPC::Solve pins it to. Constraint i sits in fg[1 + i] and belongs
    to decision-vector index i: the first slot of each state segment holds the
    state variable at step 0, every later slot the dynamics residual of its
    step. */
module Constraints {
  import opened Layout
  import opened Dynamics

  /** The step a constraint index belongs to: its offset inside its state
      segment. */
  function StepOf(N: Horizon, i: nat): (t: nat)
    requires i < NConstraints(N)
    ensures t < N
    ensures SegmentOf(i, N).IsState() && i == Start(SegmentOf(i, N), N) + t
  {
    i - Start(SegmentOf(i, N), N)
  }

  /** Constraint i: the state variable itself at step 0, the residual of the
      kinematic model at every later step. */
  function ConstraintAt(N: Horizon, coeffs: seq<real>, trig: Trig, vars: seq<real>, i: nat): real
    requires |vars| == NVars(N) && |coeffs| >= 4 && i < NConstraints(N)
  {
    var t := StepOf(N, i);
    if t == 0 then vars[i] else Residual(N, coeffs, trig, vars, t).Field(SegmentOf(i, N))
  }

  /** The value both bounds of constraint i are set to: the component of the
      initial state in the first slot of each state segment, zero elsewhere. */
  function Pinned(N: Horizon, init: State, i: nat): real
    requires i < NConstraints(N)
  {
    if StepOf(N, i) == 0 then init.Field(SegmentOf(i, N)) else 0.0
  }

  /** Every step of the decision vector's trajectory is the model's
      prediction from the step before it and the actuators chosen there. */
  predicate FollowsModel(N: Horizon, coeffs: seq<real>, trig: Trig, vars: seq<real>)
    requires |vars| == NVars(N) && |coeffs| >= 4
  {
    forall t :: 1 <= t < N ==>
      StateAt(N, vars, t) == Predict(coeffs, trig, StateAt(N, vars, t - 1),
                                     vars[DeltaStart(N) + t - 1], vars[AStart(N) + t - 1])
  }

  /** Every constraint equals the value its bounds pin it to. */
  predicate MeetsPinned(N: Horizon, coeffs: seq<real>, trig: Trig, vars: seq<real>, init: State)
    requires |vars| == NVars(N) && |coeffs| >= 4
  {
    forall i :: 0 <= i < NConstraints(N) ==> ConstraintAt(N, coeffs, trig, vars, i) == Pinned(N, init, i)
  }

  /** The entry of the decision vector that holds component s of the state at
      step t. */
  lemma StateAtField(N: Horizon, vars: seq<real>, s: Segment, t: nat)
    requires |vars| == NVars(N) && s.IsState() && t < N
    ensures Start(s, N) + t < NConstraints(N)
    ensures StateAt(N, vars, t).Field(s) == vars[Start(s, N) + t]
  {
  }

  /** Constraint index Start(s) + t belongs to segment s and step t. */
  lemma ConstraintIndex(N: Horizon, s: Segment, t: nat)
    requires s.IsState() && t < N
    ensures Start(s, N) + t < NConstraints(N)
    ensures SegmentOf(Start(s, N) + t, N) == s && StepOf(N, Start(s, N) + t) == t
  {
    SegmentOfIndex(s, t, N);
  }

  /** The six initial-state constraints read the state at step 0. */
  lemma InitialConstraints(N: Horizon, coeffs: seq<real>, trig: Trig, vars: seq<real>, s: Segment)
    requires |vars| == NVars(N) && |coeffs| >= 4 && s.IsState()
    ensures Start(s, N) < NConstraints(N)
    ensures ConstraintAt(N, coeffs, trig, vars, Start(s, N)) == StateAt(N, vars, 0).Field(s)
  {
    ConstraintIndex(N, s, 0);
    StateAtField(N, vars, s, 0);
  }

  /** The constraints meet their pinned bounds exactly when the trajectory in
      the decision vector starts at the initial state and follows the model:
      the equality constraints encode the rollout of the kinematic model. */
  lemma PinnedIffRollout(N: Horizon, coeffs: seq<real>, trig: Trig, vars: seq<real>, init: State)
    requires |vars| == NVars(N) && |coeffs| >= 4
    ensures MeetsPinned(N, coeffs, trig, vars, init)
        <==> StateAt(N, vars, 0) == init && FollowsModel(N, coeffs, trig, vars)
  {
    if MeetsPinned(N, coeffs, trig, vars, init) {
      PinnedStartsAtInit(N, coeffs, trig, vars, init);
      PinnedFollowsModel(N, coeffs, trig, vars, init);
    }
    if StateAt(N, vars, 0) == init && FollowsModel(N, coeffs, trig, vars) {
      RolloutMeetsPinned(N, coeffs, trig, vars, init);
    }
  }

  /** The six step-0 constraints pin the initial state. */
  lemma PinnedStartsAtInit(N: Horizon, coeffs: seq<real>, trig: Trig, vars: seq<real>, init: State)
    requires |vars| == NVars(N) && |coeffs| >= 4
    requires MeetsPinned(N, coeffs, trig, vars, init)
    ensures StateAt(N, vars, 0) == init
  {
    forall s: Segment | s.IsState()
      ensures StateAt(N, vars, 0).Field(s) == init.Field(s)
    {
      ConstraintIndex(N, s, 0);
      InitialConstraints(N, coeffs, trig, vars, s);
    }
    assert StateAt(N, vars, 0).Field(X) == init.Field(X);
    assert StateAt(N, vars, 0).Field(Y) == init.Field(Y);
    assert StateAt(N, vars, 0).Field(Psi) == init.Field(Psi);
    assert StateAt(N, vars, 0).Field(V) == init.Field(V);
    assert StateAt(N, vars, 0).Field(Cte) == init.Field(Cte);
    assert StateAt(N, vars, 0).Field(Epsi) == init.Field(Epsi);
  }

  /** The constraints of every later step force the model's prediction. */
  lemma PinnedFollowsModel(N: Horizon, coeffs: seq<real>, trig: Trig, vars: seq<real>, init: State)
    requires |vars| == NVars(N) && |coeffs| >= 4
    requires MeetsPinned(N, coeffs, trig, vars, init)
    ensures FollowsModel(N, coeffs, trig, vars)
  {
    forall t | 1 <= t < N
      ensures StateAt(N, vars, t) == Predict(coeffs, trig, StateAt(N, vars, t - 1),
                                             vars[DeltaStart(N) + t - 1], vars[AStart(N) + t - 1])
    {
      PinnedResidualZero(N, coeffs, trig, vars, init, t);
      ResidualZeroIffPredicted(N, coeffs, trig, vars, t);
    }
  }

  /** Pinned to zero, the six residuals of a later step all vanish. */
  lemma PinnedResidualZero(N: Horizon, coeffs: seq<real>, trig: Trig, vars: seq<real>, init: State, t: nat)
    requires |vars| == NVars(N) && |coeffs| >= 4 && 1 <= t < N
    requires MeetsPinned(N, coeffs, trig, vars, init)
    ensures Residual(N, coeffs, trig, vars, t) == State(0.0, 0.0, 0.0, 0.0, 0.0, 0.0)
  {
    forall s: Segment | s.IsState()
      ensures Residual(N, coeffs, trig, vars, t).Field(s) == 0.0
    {
      ConstraintIndex(N, s, t);
      var i := Start(s, N) + t;
      assert ConstraintAt(N, coeffs, trig, vars, i) == Pinned(N, init, i);
    }
    var r := Residual(N, coeffs, trig, vars, t);
    assert r.Field(X) == 0.0 && r.Field(Y) == 0.0 && r.Field(Psi) == 0.0;
    assert r.Field(V) == 0.0 && r.Field(Cte) == 0.0 && r.Field(Epsi) == 0.0;
  }

  /** A rollout from the initial state meets every pinned bound. */
  lemma RolloutMeetsPinned(N: Horizon, coeffs: seq<real>, trig: Trig, vars: seq<real>, init: State)
    requires |vars| == NVars(N) && |coeffs| >= 4
    requires StateAt(N, vars, 0) == init && FollowsModel(N, coeffs, trig, vars)
    ensures MeetsPinned(N, coeffs, trig, vars, init)
  {
    forall i | 0 <= i < NConstraints(N)
      ensures ConstraintAt(N, coeffs, trig, vars, i) == Pinned(N, init, i)
    {
      var s := SegmentOf(i, N);
      var t := StepOf(N, i);
      if t == 0 {
        StateAtField(N, vars, s, 0);
      } else {
        ResidualZeroIffPredicted(N, coeffs, trig, vars, t);
        assert Residual(N, coeffs, trig, vars, t) == State(0.0, 0.0, 0.0, 0.0, 0.0, 0.0);
      }
    }
  }

  /** Two decision vectors that start at the same state, follow the model and
      choose the same actuators hold the same trajectory, step by step. */
  lemma {:induction false} RolloutDetermined(N: Horizon, coeffs: seq<real>, trig: Trig,
                                             vars1: seq<real>, vars2: seq<real>, t: nat)
    requires |vars1| == |vars2| == NVars(N) && |coeffs| >= 4 && t < N
    requires StateAt(N, vars1, 0) == StateAt(N, vars2, 0)
    requires FollowsModel(N, coeffs, trig, vars1) && FollowsModel(N, coeffs, trig, vars2)
    requires forall i :: DeltaStart(N) <= i < NVars(N) ==> vars1[i] == vars2[i]
    ensures StateAt(N, vars1, t) == StateAt(N, vars2, t)
  {
    if t > 0 {
      RolloutDetermined(N, coeffs, trig, vars1, vars2, t - 1);
      assert vars1[DeltaStart(N) + t - 1] == vars2[DeltaStart(N) + t - 1];
      assert vars1[AStart(N) + t - 1] == vars2[AStart(N) + t - 1];
    }
  }

  /** Once the initial state and the actuators are fixed, at most one decision
      vector meets every pinned constraint: the states are not free variables
      but the rollout of the actuators. */
  lemma PinnedDeterminedByActuators(N: Horizon, coeffs: seq<real>, trig: Trig,
                                    vars1: seq<real>, vars2: seq<real>, init: State)
    requires |vars1| == |vars2| == NVars(N) && |coeffs| >= 4
    requires MeetsPinned(N, coeffs, trig, vars1, init) && MeetsPinned(N, coeffs, trig, vars2, init)
    requires forall i :: DeltaStart(N) <= i < NVars(N) ==> vars1[i] == vars2[i]
    ensures vars1 == vars2
  {
    PinnedIffRollout(N, coeffs, trig, vars1, init);
    PinnedIffRollout(N, coeffs, trig, vars2, init);
    forall i | 0 <= i < NVars(N)
      ensures vars1[i] == vars2[i]
    {
      if i < NConstraints(N) {
        var s := SegmentOf(i, N);
        var t := StepOf(N, i);
        RolloutDetermined(N, coeffs, trig, vars1, vars2, t);
        StateAtField(N, vars1, s, t);
        StateAtField(N, vars2, s, t);
      }
    }
  }
}
