/** Layout of the flattened decision vector handed to the optimiser.

    For a horizon of N steps the vector holds six state segments of length N
    (x, y, psi, v, cte, epsi) followed by two actuator segments of length N - 1
    (delta, a). Every offset is the running sum of the lengths before it, as in
    the global offset table of MPC.cpp. The constraint vector has one slot per
    state entry, so constraint index i pairs with decision-vector index i. */
module Layout {

  /** The source's horizon is an unsigned `size_t`; its loops up to `N - 1`
      and `N - 2` wrap around below 2, so the model only admits N >= 2. */
  type Horizon = n: nat | 2 <= n witness 2

  /** The horizon the source fixes. */
  const SourceHorizon: Horizon := 10

  /** The eight segments, in the order they are laid out. */
  datatype Segment = X | Y | Psi | V | Cte | Epsi | Delta | A {

    predicate IsState() { !Delta? && !A? }

    /** Position of the segment in the layout order. */
    function Rank(): (r: nat)
      ensures r < 8
      ensures IsState() <==> r < 6
    {
      match this
      case X => 0
      case Y => 1
      case Psi => 2
      case V => 3
      case Cte => 4
      case Epsi => 5
      case Delta => 6
      case A => 7
    }
  }

  function XStart(N: Horizon): (r: nat)
    ensures r == 0
  {
    0
  }

  function YStart(N: Horizon): (r: nat)
    ensures r == N
  {
    XStart(N) + N
  }

  function PsiStart(N: Horizon): (r: nat)
    ensures r == 2 * N
  {
    YStart(N) + N
  }

  function VStart(N: Horizon): (r: nat)
    ensures r == 3 * N
  {
    PsiStart(N) + N
  }

  function CteStart(N: Horizon): (r: nat)
    ensures r == 4 * N
  {
    VStart(N) + N
  }

  function EpsiStart(N: Horizon): (r: nat)
    ensures r == 5 * N
  {
    CteStart(N) + N
  }

  function DeltaStart(N: Horizon): (r: nat)
    ensures r == 6 * N
  {
    EpsiStart(N) + N
  }

  function AStart(N: Horizon): (r: nat)
    ensures r == 7 * N - 1
    ensures r + (N - 1) == NVars(N)
  {
    DeltaStart(N) + N - 1
  }

  /** Number of optimisation variables: six states over N steps and two
      actuators over N - 1 steps. */
  function NVars(N: Horizon): (r: nat)
    ensures r == 8 * N - 2
    ensures r == NConstraints(N) + 2 * (N - 1)
  {
    N * 6 + (N - 1) * 2
  }

  /** Number of constraints: one per state entry. */
  function NConstraints(N: Horizon): (r: nat)
    ensures r == DeltaStart(N)
  {
    N * 6
  }

  /** Offset of a segment, read from the offset table. */
  function Start(s: Segment, N: Horizon): nat
  {
    match s
    case X => XStart(N)
    case Y => YStart(N)
    case Psi => PsiStart(N)
    case V => VStart(N)
    case Cte => CteStart(N)
    case Epsi => EpsiStart(N)
    case Delta => DeltaStart(N)
    case A => AStart(N)
  }

  /** Length of a segment: N for a state, N - 1 for an actuator. */
  function Length(s: Segment, N: Horizon): nat
  {
    if s.IsState() then N else N - 1
  }

  /** The segments are laid out back to back in rank order, from index 0 to
      NVars(N), and each state segment of the decision vector lies inside the
      constraint range. */
  lemma SegmentsContiguous(N: Horizon)
    ensures Start(X, N) == 0
    ensures Start(Y, N) == Start(X, N) + Length(X, N)
    ensures Start(Psi, N) == Start(Y, N) + Length(Y, N)
    ensures Start(V, N) == Start(Psi, N) + Length(Psi, N)
    ensures Start(Cte, N) == Start(V, N) + Length(V, N)
    ensures Start(Epsi, N) == Start(Cte, N) + Length(Cte, N)
    ensures Start(Delta, N) == Start(Epsi, N) + Length(Epsi, N)
    ensures Start(A, N) == Start(Delta, N) + Length(Delta, N)
    ensures Start(A, N) + Length(A, N) == NVars(N)
    ensures Start(Delta, N) == NConstraints(N)
  {
  }

  /** Segments of lower rank end before segments of higher rank start, so no
      two segments overlap. */
  lemma {:induction false} SegmentsOrdered(s1: Segment, s2: Segment, N: Horizon)
    requires s1.Rank() < s2.Rank()
    ensures Start(s1, N) + Length(s1, N) <= Start(s2, N)
  {
    match s1
    case X =>
    case Y =>
    case Psi =>
    case V =>
    case Cte =>
    case Epsi =>
    case Delta =>
  }

  /** The segment that holds decision-vector index i. */
  function SegmentOf(i: nat, N: Horizon): (s: Segment)
    requires i < NVars(N)
    ensures Start(s, N) <= i < Start(s, N) + Length(s, N)
    ensures s.IsState() <==> i < NConstraints(N)
  {
    if i < YStart(N) then X
    else if i < PsiStart(N) then Y
    else if i < VStart(N) then Psi
    else if i < CteStart(N) then V
    else if i < EpsiStart(N) then Cte
    else if i < DeltaStart(N) then Epsi
    else if i < AStart(N) then Delta
    else A
  }

  /** Every index of a segment is attributed to that segment and to no other:
      the segments partition [0, NVars(N)). */
  lemma {:induction false} SegmentOfIndex(s: Segment, t: nat, N: Horizon)
    requires t < Length(s, N)
    ensures Start(s, N) + t < NVars(N)
    ensures SegmentOf(Start(s, N) + t, N) == s
  {
    var i := Start(s, N) + t;
    var s' := SegmentOf(i, N);
    if s'.Rank() < s.Rank() {
      SegmentsOrdered(s', s, N);
    } else if s.Rank() < s'.Rank() {
      SegmentsOrdered(s, s', N);
    } else {
      match s
      case X =>
      case Y =>
      case Psi =>
      case V =>
      case Cte =>
      case Epsi =>
      case Delta =>
      case A =>
    }
  }

  /** With the source's horizon of 10 the problem has 78 variables and 60
      constraints, and the acceleration segment starts at 69. */
  lemma SourceLayout()
    ensures NVars(SourceHorizon) == 78
    ensures NConstraints(SourceHorizon) == 60
    ensures DeltaStart(SourceHorizon) == 60 && AStart(SourceHorizon) == 69
  {
  }
}
