/**
 * Flow split across parallel branches (`calcular_perdas_paralelo`): the
 * flows of all branches but the last are the unknowns of a root-finding
 * problem whose residuals are the branches' loss differences to the last
 * branch; the last branch takes whatever flow remains. The solver sees
 * each branch only through its loss at a given flow, so that loss is a
 * parameter here; the calculator's own is `BranchLosses`.
 */
module Parallel {
  import opened Network
  import opened Fluids
  import opened Friction
  import opened Series

  /** What `scipy.optimize.root` reports: whether it converged, and its last iterate. */
  datatype RootResult = RootResult(success: bool, x: seq<real>)

  /** A residual function, defined on vectors of one length. */
  type ResidualFn = seq<real> --> seq<real>

  /**
   * The root finder (`root(..., method='hybr')`), given the residual function
   * and the initial guess. Nothing is known of it except that its iterate has
   * the shape of the initial guess.
   */
  type RootFinder = f: (ResidualFn, seq<real>) -> RootResult | forall g, x0 :: |f(g, x0).x| == |x0|
    witness (g: ResidualFn, x0: seq<real>) => RootResult(false, x0)

  /** The head loss of a branch's segments at a flow in m^3/h. */
  type BranchLossFn = (seq<Segment>, real) -> real

  /** `calcular_perda_serie` at the chosen fluid. */
  function BranchLosses(fluid: Fluid, law: TurbulentLaw): BranchLossFn {
    (path, q) => SeriesLoss(path, q, fluid, law)
  }

  /** One entry of the flow distribution: branch name to flow in m^3/h. */
  datatype Share = Share(name: string, flow: real)

  /** The pair the source returns: the parallel loss and the distribution dict. */
  datatype ParallelResult = ParallelResult(loss: real, distribution: seq<Share>)

  /** The loss reported when the root finder does not converge. */
  const Failed: real := -1.0

  /** Python's `sum`, from left to right. */
  function Sum(xs: seq<real>): (r: real)
    ensures (forall i :: 0 <= i < |xs| ==> xs[i] >= 0.0) ==> r >= 0.0
    decreases |xs|
  {
    if xs == [] then 0.0 else Sum(xs[..|xs| - 1]) + xs[|xs| - 1]
  }

  function Flows(d: seq<Share>): seq<real> {
    seq(|d|, i requires 0 <= i < |d| => d[i].flow)
  }

  function Zeros(n: nat): seq<real> {
    seq(n, _ => 0.0)
  }

  /** The flow left for the last branch once the others have theirs. */
  function LastFlow(total: real, x: seq<real>): real {
    total - Sum(x)
  }

  /** `equacoes_perda`: the residual vector at the trial flows `x` of the first N - 1 branches. */
  function Residual(branches: BranchTable, total: real, loss: BranchLossFn, x: seq<real>): (r: seq<real>)
    requires |branches| >= 2 && |x| == |branches| - 1
    ensures |r| == |branches| - 1
    ensures LastFlow(total, x) < 0.0 ==> forall i :: 0 <= i < |r| ==> r[i] == Penalty
  {
    var n := |branches|;
    var last := LastFlow(total, x);
    if last < 0.0 then seq(n - 1, _ => Penalty)
    else
      var flows := x + [last];
      var losses := seq(n, i requires 0 <= i < n => loss(branches[i].path, flows[i]));
      seq(n - 1, i requires 0 <= i < n - 1 => losses[i] - losses[n - 1])
  }

  /** The residual as the function handed to the root finder. */
  function ResidualOf(branches: BranchTable, total: real, loss: BranchLossFn): ResidualFn
    requires |branches| >= 2
  {
    (x: seq<real>) requires |x| == |branches| - 1 => Residual(branches, total, loss, x)
  }

  /** `np.full(n - 1, total / n)`: the initial guess, one n-th of the total for each of the first n - 1 branches. */
  function EqualSplit(total: real, n: nat): (x: seq<real>)
    requires n >= 2
    ensures |x| == n - 1
    ensures forall i :: 0 <= i < |x| ==> x[i] * n as real == total
  {
    seq(n - 1, _ => total / n as real)
  }

  /** The root finder's run on this network; its iterate holds one flow for each branch but the last. */
  function Solve(branches: BranchTable, total: real, loss: BranchLossFn, root: RootFinder): (s: RootResult)
    requires |branches| >= 2
    ensures |s.x| == |branches| - 1
  {
    root(ResidualOf(branches, total, loss), EqualSplit(total, |branches|))
  }

  /**
   * `calcular_perdas_paralelo`: no parallel group below two branches, an
   * explicit failure without distribution when the root finder does not
   * converge, and otherwise one share per branch in branch order, flows that
   * add up to the total, and branch 1's loss as the group's loss.
   */
  function ParallelLosses(branches: BranchTable, total: real, loss: BranchLossFn, root: RootFinder): (r: ParallelResult)
    ensures |branches| < 2 ==> r == ParallelResult(0.0, [])
    ensures |branches| >= 2 && !Solve(branches, total, loss, root).success ==> r == ParallelResult(Failed, [])
    ensures |branches| >= 2 && Solve(branches, total, loss, root).success ==>
      && |r.distribution| == |branches|
      && (forall i :: 0 <= i < |branches| ==> r.distribution[i].name == branches[i].name)
      && (forall i :: 0 <= i < |branches| - 1 ==> r.distribution[i].flow == Solve(branches, total, loss, root).x[i])
      && Sum(Flows(r.distribution)) == total
      && r.loss == loss(branches[0].path, r.distribution[0].flow)
  {
    if |branches| < 2 then ParallelResult(0.0, [])
    else
      var solution := Solve(branches, total, loss, root);
      if !solution.success then ParallelResult(Failed, [])
      else
        var flows := solution.x + [LastFlow(total, solution.x)];
        var distribution := seq(|branches|, i requires 0 <= i < |branches| => Share(branches[i].name, flows[i]));
        assert Flows(distribution) == flows;
        assert flows[..|flows| - 1] == solution.x;
        ParallelResult(loss(branches[0].path, flows[0]), distribution)
  }

  /**
   * The residual vanishes exactly at an equal-loss split: the last branch's
   * flow is not negative and every other branch loses what the last one does.
   */
  lemma ResidualVanishesIffEqualLosses(branches: BranchTable, total: real, loss: BranchLossFn, x: seq<real>)
    requires |branches| >= 2 && |x| == |branches| - 1
    ensures var n := |branches|;
      Residual(branches, total, loss, x) == Zeros(n - 1)
      <==>
      (&& LastFlow(total, x) >= 0.0
       && forall i :: 0 <= i < n - 1 ==>
            loss(branches[i].path, x[i]) == loss(branches[n - 1].path, LastFlow(total, x)))
  {
    var n := |branches|;
    var r := Residual(branches, total, loss, x);
    if LastFlow(total, x) < 0.0 {
      assert r[0] != Zeros(n - 1)[0];
    } else {
      var flows := x + [LastFlow(total, x)];
      assert forall i :: 0 <= i < n - 1 ==> flows[i] == x[i];
      if r == Zeros(n - 1) {
        forall i | 0 <= i < n - 1
          ensures loss(branches[i].path, x[i]) == loss(branches[n - 1].path, LastFlow(total, x))
        {
          assert r[i] == 0.0;
        }
      }
    }
  }

  /**
   * A last branch with exactly no flow passes the guard and, losing nothing,
   * leaves each other branch's own loss as its residual.
   */
  lemma ZeroLastFlowIsFeasible(branches: BranchTable, total: real, fluid: Fluid, law: TurbulentLaw, x: seq<real>)
    requires |branches| >= 2 && |x| == |branches| - 1 && LastFlow(total, x) == 0.0
    ensures forall i :: 0 <= i < |x| ==>
      Residual(branches, total, BranchLosses(fluid, law), x)[i] == SeriesLoss(branches[i].path, x[i], fluid, law)
  {
    SeriesLossWithoutFlow(branches[|branches| - 1].path, 0.0, fluid, law);
    ResidualAgainstIdleBranch(branches, total, BranchLosses(fluid, law), x);
  }

  lemma ResidualAgainstIdleBranch(branches: BranchTable, total: real, loss: BranchLossFn, x: seq<real>)
    requires |branches| >= 2 && |x| == |branches| - 1 && LastFlow(total, x) == 0.0
    requires loss(branches[|branches| - 1].path, 0.0) == 0.0
    ensures forall i :: 0 <= i < |x| ==> Residual(branches, total, loss, x)[i] == loss(branches[i].path, x[i])
  {
    assert forall i :: 0 <= i < |x| ==> (x + [LastFlow(total, x)])[i] == x[i];
  }

  lemma {:induction false} SumOfConstant(k: nat, c: real)
    ensures Sum(seq(k, _ => c)) == k as real * c
  {
    if k > 0 {
      var s := seq(k, _ => c);
      assert s[..k - 1] == seq(k - 1, _ => c);
      SumOfConstant(k - 1, c);
    }
  }

  /** The initial guess leaves the last branch the same share as the others, so it passes the guard when the total is not negative. */
  lemma EqualSplitLeavesEqualShare(total: real, n: nat)
    requires n >= 2
    ensures |EqualSplit(total, n)| == n - 1
    ensures LastFlow(total, EqualSplit(total, n)) == total / n as real
  {
    var q := total / n as real;
    SumOfConstant(n - 1, q);
    assert q * n as real == total;
    calc {
      LastFlow(total, EqualSplit(total, n));
      total - (n - 1) as real * q;
      total - (n as real * q - q);
      q;
    }
  }

  /**
   * Branches with the same segments: the equal split the root finder starts
   * from already zeroes the residual, for a total flow that is not negative.
   */
  lemma IdenticalBranchesStartAtRoot(branches: BranchTable, total: real, loss: BranchLossFn)
    requires |branches| >= 2 && total >= 0.0
    requires forall i :: 0 <= i < |branches| ==> branches[i].path == branches[0].path
    ensures Residual(branches, total, loss, EqualSplit(total, |branches|)) == Zeros(|branches| - 1)
  {
    var n := |branches|;
    var x := EqualSplit(total, n);
    EqualSplitLeavesEqualShare(total, n);
    assert LastFlow(total, x) >= 0.0 by {
      assert total / n as real >= 0.0;
    }
    var r := Residual(branches, total, loss, x);
    forall i | 0 <= i < n - 1
      ensures r[i] == 0.0
    {
      assert (x + [LastFlow(total, x)])[i] == total / n as real;
    }
  }

  /**
   * At a converged split whose residual is zero, every branch loses exactly
   * the reported parallel loss and the last branch's flow is not negative.
   */
  lemma ConvergedSplitHasEqualLosses(branches: BranchTable, total: real, loss: BranchLossFn, root: RootFinder)
    requires |branches| >= 2
    requires Solve(branches, total, loss, root).success
    requires Residual(branches, total, loss, Solve(branches, total, loss, root).x) == Zeros(|branches| - 1)
    ensures var r := ParallelLosses(branches, total, loss, root);
      && r.distribution[|branches| - 1].flow >= 0.0
      && forall i :: 0 <= i < |branches| ==> loss(branches[i].path, r.distribution[i].flow) == r.loss
  {
    var n := |branches|;
    var x := Solve(branches, total, loss, root).x;
    var r := ParallelLosses(branches, total, loss, root);
    ResidualVanishesIffEqualLosses(branches, total, loss, x);
    var flows := x + [LastFlow(total, x)];
    assert forall i :: 0 <= i < n ==> r.distribution[i].flow == flows[i];
    assert r.loss == loss(branches[n - 1].path, LastFlow(total, x));
  }

  lemma {:induction false} SumNonPositive(xs: seq<real>)
    requires forall i :: 0 <= i < |xs| ==> xs[i] <= 0.0
    ensures Sum(xs) <= 0.0
    decreases |xs|
  {
    if xs != [] {
      SumNonPositive(xs[..|xs| - 1]);
    }
  }

  /**
   * On real pipe (every branch a non-empty run of positive lengths), a
   * viscous fluid, a positive turbulent law and a positive total flow, a
   * zero residual sends no negative flow through any branch: the one-sided
   * guard is then enough.
   */
  lemma ZeroResidualOnRealPipeHasNoNegativeFlow(branches: BranchTable, total: real, fluid: Fluid, law: TurbulentLaw, x: seq<real>)
    requires |branches| >= 2 && |x| == |branches| - 1
    requires forall i :: 0 <= i < |branches| ==> RealRun(branches[i].path)
    requires fluid.nu > 0.0 && PositiveLaw(law) && total > 0.0
    requires Residual(branches, total, BranchLosses(fluid, law), x) == Zeros(|branches| - 1)
    ensures forall i :: 0 <= i < |x| ==> x[i] >= 0.0
  {
    var n, loss := |branches|, BranchLosses(fluid, law);
    var last := LastFlow(total, x);
    ResidualVanishesIffEqualLosses(branches, total, loss, x);
    if k :| 0 <= k < |x| && x[k] < 0.0 {
      SeriesLossWithoutFlow(branches[k].path, x[k], fluid, law);
      assert loss(branches[n - 1].path, last) == 0.0;
      SeriesLossPositive(branches[n - 1].path, last, fluid, law);
      forall j | 0 <= j < |x|
        ensures x[j] <= 0.0
      {
        assert loss(branches[j].path, x[j]) == 0.0;
        SeriesLossPositive(branches[j].path, x[j], fluid, law);
      }
      SumNonPositive(x);
      assert false;
    }
  }

  /**
   * The feasibility guard checks only the last branch's flow: the residual
   * also vanishes at a split that sends a negative flow through branch 1
   * (here branch 2 has a segment of zero length and so never loses anything).
   */
  lemma NegativeFlowPassesGuard(fluid: Fluid, law: TurbulentLaw)
    ensures var branches := [Branch("Ramal 1", [Segment(0.0, 10.0, 100.0, 0.15, [])]),
                             Branch("Ramal 2", [Segment(1.0, 0.0, 100.0, 0.15, [])])];
      && LastFlow(10.0, [-1.0]) >= 0.0
      && Residual(branches, 10.0, BranchLosses(fluid, law), [-1.0]) == Zeros(1)
  {
    var branches := [Branch("Ramal 1", [Segment(0.0, 10.0, 100.0, 0.15, [])]),
                     Branch("Ramal 2", [Segment(1.0, 0.0, 100.0, 0.15, [])])];
    assert [-1.0][..0] == [];
    assert LastFlow(10.0, [-1.0]) == 11.0;
    SeriesLossWithoutFlow(branches[0].path, -1.0, fluid, law);
    ZeroLengthLosesNothing(branches[1].path[0], 11.0, fluid, law);
    var loss := BranchLosses(fluid, law);
    assert loss(branches[0].path, -1.0) == 0.0;
    assert loss(branches[1].path, 11.0) == 0.0;
  }

  /**
   * When branch 1 has no segment of negative length, the parallel loss is
   * the failure value -1 exactly when there is a parallel group and the root
   * finder did not converge.
   */
  lemma ParallelFailureIsUnambiguous(branches: BranchTable, total: real, fluid: Fluid, law: TurbulentLaw, root: RootFinder)
    requires |branches| > 0 ==> forall k :: 0 <= k < |branches[0].path| ==> branches[0].path[k].length >= 0.0
    ensures ParallelLosses(branches, total, BranchLosses(fluid, law), root).loss == Failed
      <==> |branches| >= 2 && !Solve(branches, total, BranchLosses(fluid, law), root).success
  {
    if |branches| >= 2 && Solve(branches, total, BranchLosses(fluid, law), root).success {
      var r := ParallelLosses(branches, total, BranchLosses(fluid, law), root);
      SeriesLossNonNegative(branches[0].path, r.distribution[0].flow, fluid, law);
    }
  }
}
