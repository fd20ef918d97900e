/**
 * The calculation run on every page refresh: losses before, across and after
 * the parallel group, the total manometric head, and the energy analysis at
 * that head. A failed parallel solve stops the run.
 */
module Analysis {
  import opened Network
  import opened Fluids
  import opened Friction
  import opened Series
  import opened Parallel
  import opened Energy

  datatype Outcome =
    | ParallelSolveFailed
    | Computed(totalLoss: real, head: real, energy: EnergyResult, distribution: seq<Share>)

  /**
   * Lines 213-219 of the run, given the three losses: a failed parallel
   * solve stops it; otherwise the losses add up to the total, the pump head
   * is the geometric head plus that total, and the energy analysis is made
   * at that head with the efficiencies converted from percent.
   */
  function Compose(lossBefore: real, par: ParallelResult, lossAfter: real,
                   flowM3h: real, geometricHead: real, pumpPct: int, motorPct: int,
                   hoursPerDay: real, tariff: real, fluid: Fluid): (o: Outcome)
    ensures o.ParallelSolveFailed? <==> par.loss == Failed
    ensures o.Computed? ==>
      && o.totalLoss == lossBefore + par.loss + lossAfter
      && o.head - geometricHead == o.totalLoss
      && o.distribution == par.distribution
      && o.energy == EnergyAnalysis(flowM3h, o.head, pumpPct as real / 100.0, motorPct as real / 100.0, hoursPerDay, tariff, fluid)
  {
    if par.loss == Failed then ParallelSolveFailed
    else
      var total := lossBefore + par.loss + lossAfter;
      var head := geometricHead + total;
      Computed(total, head,
               EnergyAnalysis(flowM3h, head, pumpPct as real / 100.0, motorPct as real / 100.0, hoursPerDay, tariff, fluid),
               par.distribution)
  }

  /**
   * What a run yields, as a function of the network and the operating inputs:
   * it stops exactly when the parallel group reports failure, and otherwise
   * the pump head exceeds the geometric head by the losses of the run before,
   * the group and the run after, and the energy analysis is made at that head.
   */
  function Evaluate(before: seq<Segment>, branches: BranchTable, after: seq<Segment>,
                    flowM3h: real, geometricHead: real, pumpPct: int, motorPct: int,
                    hoursPerDay: real, tariff: real, fluid: Fluid,
                    law: TurbulentLaw, root: RootFinder): (o: Outcome)
    ensures var par := ParallelLosses(branches, flowM3h, BranchLosses(fluid, law), root);
      && (o.ParallelSolveFailed? <==> par.loss == Failed)
      && (o.Computed? ==>
            && o.head == geometricHead + SeriesLoss(before, flowM3h, fluid, law) + par.loss + SeriesLoss(after, flowM3h, fluid, law)
            && o.distribution == par.distribution
            && o.energy == EnergyAnalysis(flowM3h, o.head, pumpPct as real / 100.0, motorPct as real / 100.0, hoursPerDay, tariff, fluid))
  {
    Compose(SeriesLoss(before, flowM3h, fluid, law), ParallelLosses(branches, flowM3h, BranchLosses(fluid, law), root),
            SeriesLoss(after, flowM3h, fluid, law), flowM3h, geometricHead, pumpPct, motorPct, hoursPerDay, tariff, fluid)
  }

  /** The run itself, with the fluid chosen by name; efficiencies are entered as percentages. */
  method Analyse(before: seq<Segment>, branches: BranchTable, after: seq<Segment>,
                 flowM3h: real, geometricHead: real, pumpPct: int, motorPct: int,
                 hoursPerDay: real, tariff: real, fluidName: string,
                 law: TurbulentLaw, root: RootFinder) returns (outcome: Outcome)
    requires fluidName in FluidTable
    ensures outcome == Evaluate(before, branches, after, flowM3h, geometricHead, pumpPct, motorPct,
                                hoursPerDay, tariff, FluidTable[fluidName], law, root)
  {
    var fluid := FluidTable[fluidName];
    var lossBefore := ComputeSeriesLoss(before, flowM3h, fluid, law);
    var par := ParallelLosses(branches, flowM3h, BranchLosses(fluid, law), root);
    var lossAfter := ComputeSeriesLoss(after, flowM3h, fluid, law);
    outcome := Compose(lossBefore, par, lossAfter, flowM3h, geometricHead, pumpPct, motorPct, hoursPerDay, tariff, fluid);
  }

  /** Every segment of the series runs and of branch 1 has a non-negative length. */
  predicate LengthsNonNegative(before: seq<Segment>, branches: BranchTable, after: seq<Segment>) {
    && (forall k :: 0 <= k < |before| ==> before[k].length >= 0.0)
    && (forall k :: 0 <= k < |after| ==> after[k].length >= 0.0)
    && (|branches| > 0 ==> forall k :: 0 <= k < |branches[0].path| ==> branches[0].path[k].length >= 0.0)
  }

  /**
   * Without a parallel group (fewer than two branches) the run never fails,
   * and the head is the geometric head plus the loss of the series segments
   * before and after, taken as one run of pipe.
   */
  lemma NoParallelGroupIsOneSeriesRun(before: seq<Segment>, branches: BranchTable, after: seq<Segment>,
                                     flowM3h: real, geometricHead: real, pumpPct: int, motorPct: int,
                                     hoursPerDay: real, tariff: real, fluid: Fluid,
                                     law: TurbulentLaw, root: RootFinder)
    requires |branches| < 2
    ensures var o := Evaluate(before, branches, after, flowM3h, geometricHead, pumpPct, motorPct, hoursPerDay, tariff, fluid, law, root);
      && o.Computed?
      && o.head == geometricHead + SeriesLoss(before + after, flowM3h, fluid, law)
      && o.distribution == []
  {
    AccumulatedAppend(before, after, LossAt(flowM3h, fluid, law));
  }

  /**
   * On pipe of non-negative length the run stops exactly when the root finder
   * fails on a parallel group, and otherwise the pump has to supply at least
   * the geometric head.
   */
  lemma RunFailsOnlyOnSolverFailure(before: seq<Segment>, branches: BranchTable, after: seq<Segment>,
                                    flowM3h: real, geometricHead: real, pumpPct: int, motorPct: int,
                                    hoursPerDay: real, tariff: real, fluid: Fluid,
                                    law: TurbulentLaw, root: RootFinder)
    requires LengthsNonNegative(before, branches, after)
    ensures var o := Evaluate(before, branches, after, flowM3h, geometricHead, pumpPct, motorPct, hoursPerDay, tariff, fluid, law, root);
      && (o.ParallelSolveFailed? <==> |branches| >= 2 && !Solve(branches, flowM3h, BranchLosses(fluid, law), root).success)
      && (o.Computed? ==> o.totalLoss >= 0.0 && o.head >= geometricHead)
  {
    ParallelFailureIsUnambiguous(branches, flowM3h, fluid, law, root);
    SeriesLossNonNegative(before, flowM3h, fluid, law);
    SeriesLossNonNegative(after, flowM3h, fluid, law);
    var par := ParallelLosses(branches, flowM3h, BranchLosses(fluid, law), root);
    if par.loss != Failed && |branches| >= 2 {
      SeriesLossNonNegative(branches[0].path, par.distribution[0].flow, fluid, law);
    }
  }

  /**
   * Composing a run whose head is not negative, at an operating point the
   * form admits (flow, hours and tariff not negative), reports neither
   * negative power nor negative cost.
   */
  lemma ComposedCostIsNonNegative(lossBefore: real, par: ParallelResult, lossAfter: real,
                                  flowM3h: real, geometricHead: real, pumpPct: int, motorPct: int,
                                  hoursPerDay: real, tariff: real, fluid: Fluid)
    requires flowM3h >= 0.0 && fluid.rho >= 0.0 && hoursPerDay >= 0.0 && tariff >= 0.0
    requires par.loss != Failed ==> geometricHead + (lossBefore + par.loss + lossAfter) >= 0.0
    ensures var o := Compose(lossBefore, par, lossAfter, flowM3h, geometricHead, pumpPct, motorPct, hoursPerDay, tariff, fluid);
      o.Computed? ==> o.energy.powerKW >= 0.0 && o.energy.annualCost >= 0.0
  {
    var o := Compose(lossBefore, par, lossAfter, flowM3h, geometricHead, pumpPct, motorPct, hoursPerDay, tariff, fluid);
    if o.Computed? {
      EnergyNonNegative(flowM3h, o.head, pumpPct as real / 100.0, motorPct as real / 100.0, hoursPerDay, tariff, fluid);
    }
  }

  /**
   * At an operating point the form admits (flow, geometric head, hours and
   * tariff not negative) on pipe of non-negative length, a completed run
   * reports neither negative power nor negative cost.
   */
  lemma RunCostIsNonNegative(before: seq<Segment>, branches: BranchTable, after: seq<Segment>,
                             flowM3h: real, geometricHead: real, pumpPct: int, motorPct: int,
                             hoursPerDay: real, tariff: real, fluid: Fluid,
                             law: TurbulentLaw, root: RootFinder)
    requires LengthsNonNegative(before, branches, after)
    requires flowM3h >= 0.0 && geometricHead >= 0.0 && fluid.rho >= 0.0 && hoursPerDay >= 0.0 && tariff >= 0.0
    ensures var o := Evaluate(before, branches, after, flowM3h, geometricHead, pumpPct, motorPct, hoursPerDay, tariff, fluid, law, root);
      o.Computed? ==> o.energy.powerKW >= 0.0 && o.energy.annualCost >= 0.0
  {
    var lossBefore := SeriesLoss(before, flowM3h, fluid, law);
    var par := ParallelLosses(branches, flowM3h, BranchLosses(fluid, law), root);
    var lossAfter := SeriesLoss(after, flowM3h, fluid, law);
    assert par.loss != Failed ==> geometricHead + (lossBefore + par.loss + lossAfter) >= 0.0 by {
      RunFailsOnlyOnSolverFailure(before, branches, after, flowM3h, geometricHead, pumpPct, motorPct, hoursPerDay, tariff, fluid, law, root);
    }
    ComposedCostIsNonNegative(lossBefore, par, lossAfter, flowM3h, geometricHead, pumpPct, motorPct, hoursPerDay, tariff, fluid);
  }
}
