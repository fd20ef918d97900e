/**
 * Head loss of segments in series (`calcular_perda_serie`): the same flow
 * passes every segment and the losses add up. The accumulation is stated
 * for any per-segment evaluation and then applied to the segment loss of
 * the friction module at the run's flow and fluid.
 */
module Series {
  import opened Wrappers
  import opened Network
  import opened Fluids
  import opened Friction

  /** A per-segment loss evaluation, at one flow and one fluid. */
  type SegmentLossFn = Segment -> SegmentResult

  /** What one segment adds to the total: `principal + get("localizada", 0)`. */
  function Contribution(r: SegmentResult): real {
    r.principal + r.localized.GetOr(0.0)
  }

  /** `calcular_perdas_trecho` with the flow and the fluid fixed, as the loop applies it. */
  function LossAt(flowM3h: real, fluid: Fluid, law: TurbulentLaw): SegmentLossFn {
    seg => SegmentLoss(seg, flowM3h, fluid, law)
  }

  /**
   * The value of the accumulator after the segments `segs`, first to last:
   * 0 for no segments, one segment's contribution for a single one.
   */
  function Accumulated(segs: seq<Segment>, loss: SegmentLossFn): (r: real)
    ensures segs == [] ==> r == 0.0
    ensures |segs| == 1 ==> r == Contribution(loss(segs[0]))
    decreases |segs|
  {
    if segs == [] then 0.0
    else Accumulated(segs[..|segs| - 1], loss) + Contribution(loss(segs[|segs| - 1]))
  }

  /**
   * The series loss of `segs` at `flowM3h` m^3/h. A run of one flowing
   * segment of positive diameter loses that segment's friction loss
   * (`SeriesLossOfOneSegment` drops the two conditions).
   */
  function SeriesLoss(segs: seq<Segment>, flowM3h: real, fluid: Fluid, law: TurbulentLaw): (h: real)
    ensures segs == [] ==> h == 0.0
    ensures |segs| == 1 && flowM3h > 0.0 && segs[0].diameter > 0.0 ==> h == SegmentLoss(segs[0], flowM3h, fluid, law).principal
  {
    Accumulated(segs, LossAt(flowM3h, fluid, law))
  }

  /** A run of a single segment loses exactly that segment's friction loss, at any flow and diameter. */
  lemma SeriesLossOfOneSegment(seg: Segment, flowM3h: real, fluid: Fluid, law: TurbulentLaw)
    ensures SeriesLoss([seg], flowM3h, fluid, law) == SegmentLoss(seg, flowM3h, fluid, law).principal
  {
  }

  /** The accumulator loop of the source. */
  method ComputeSeriesLoss(segs: seq<Segment>, flowM3h: real, fluid: Fluid, law: TurbulentLaw)
    returns (total: real)
    ensures total == SeriesLoss(segs, flowM3h, fluid, law)
    ensures segs == [] ==> total == 0.0
  {
    total := 0.0;
    for i := 0 to |segs|
      invariant total == Accumulated(segs[..i], LossAt(flowM3h, fluid, law))
    {
      var losses := LossAt(flowM3h, fluid, law)(segs[i]);
      total := total + Contribution(losses);
      assert segs[..i + 1][..i] == segs[..i];
    }
    assert segs[..|segs|] == segs;
  }

  /** The losses of consecutive runs of pipe add up. */
  lemma {:induction false} AccumulatedAppend(a: seq<Segment>, b: seq<Segment>, loss: SegmentLossFn)
    ensures Accumulated(a + b, loss) == Accumulated(a, loss) + Accumulated(b, loss)
    decreases |b|
  {
    if b == [] {
      assert a + b == a;
    } else {
      var b' := b[..|b| - 1];
      assert (a + b)[..|a + b| - 1] == a + b';
      assert (a + b)[|a + b| - 1] == b[|b| - 1];
      AccumulatedAppend(a, b', loss);
    }
  }

  /** Friction losses only, summed from the front: an independent statement of the series loss. */
  function FrictionSum(segs: seq<Segment>, loss: SegmentLossFn): real
    decreases |segs|
  {
    if segs == [] then 0.0 else loss(segs[0]).principal + FrictionSum(segs[1..], loss)
  }

  /** When no segment reports a fitting loss, the accumulated total is the sum of the friction losses. */
  lemma {:induction false} AccumulatedIsFrictionSum(segs: seq<Segment>, loss: SegmentLossFn)
    requires forall seg :: loss(seg).localized.GetOr(0.0) == 0.0
    ensures Accumulated(segs, loss) == FrictionSum(segs, loss)
    decreases |segs|
  {
    if segs != [] {
      var first, rest := segs[0], segs[1..];
      assert [first] + rest == segs;
      assert [first][..0] == [];
      AccumulatedAppend([first], rest, loss);
      AccumulatedIsFrictionSum(rest, loss);
    }
  }

  /**
   * The fitting term is always 0 (the normal path of the segment loss has no
   * "localizada" entry), so the series loss is the plain sum of friction losses.
   */
  lemma SeriesLossIsFrictionSum(segs: seq<Segment>, flowM3h: real, fluid: Fluid, law: TurbulentLaw)
    ensures SeriesLoss(segs, flowM3h, fluid, law) == FrictionSum(segs, LossAt(flowM3h, fluid, law))
  {
    AccumulatedIsFrictionSum(segs, LossAt(flowM3h, fluid, law));
  }

  lemma {:induction false} AccumulatedNonNegative(segs: seq<Segment>, loss: SegmentLossFn)
    requires forall k :: 0 <= k < |segs| ==> Contribution(loss(segs[k])) >= 0.0
    ensures Accumulated(segs, loss) >= 0.0
    decreases |segs|
  {
    if segs != [] {
      AccumulatedNonNegative(segs[..|segs| - 1], loss);
    }
  }

  lemma {:induction false} AccumulatedOfNothing(segs: seq<Segment>, loss: SegmentLossFn)
    requires forall k :: 0 <= k < |segs| ==> Contribution(loss(segs[k])) == 0.0
    ensures Accumulated(segs, loss) == 0.0
    decreases |segs|
  {
    if segs != [] {
      AccumulatedOfNothing(segs[..|segs| - 1], loss);
    }
  }

  /** With no flow, a series run loses nothing, whatever its geometry. */
  lemma SeriesLossWithoutFlow(segs: seq<Segment>, flowM3h: real, fluid: Fluid, law: TurbulentLaw)
    requires flowM3h <= 0.0
    ensures SeriesLoss(segs, flowM3h, fluid, law) == 0.0
  {
    AccumulatedOfNothing(segs, LossAt(flowM3h, fluid, law));
  }

  /** On segments of non-negative length the series loss is never negative. */
  lemma SeriesLossNonNegative(segs: seq<Segment>, flowM3h: real, fluid: Fluid, law: TurbulentLaw)
    requires forall k :: 0 <= k < |segs| ==> segs[k].length >= 0.0
    ensures SeriesLoss(segs, flowM3h, fluid, law) >= 0.0
  {
    forall k | 0 <= k < |segs|
      ensures Contribution(LossAt(flowM3h, fluid, law)(segs[k])) >= 0.0
    {
      SegmentLossNonNegative(segs[k], flowM3h, fluid, law);
    }
    AccumulatedNonNegative(segs, LossAt(flowM3h, fluid, law));
  }

  /**
   * A flowing run with a segment of non-positive diameter reports at least
   * the penalty loss: the anomaly shows up instead of an error.
   */
  lemma DegenerateSegmentDominates(segs: seq<Segment>, k: int, flowM3h: real, fluid: Fluid, law: TurbulentLaw)
    requires 0 <= k < |segs| && segs[k].diameter <= 0.0 && flowM3h > 0.0
    requires forall j :: 0 <= j < |segs| ==> segs[j].length >= 0.0
    ensures SeriesLoss(segs, flowM3h, fluid, law) >= Penalty
  {
    var loss := LossAt(flowM3h, fluid, law);
    var before, rest := segs[..k], segs[k + 1..];
    assert segs == before + [segs[k]] + rest;
    assert [segs[k]][..0] == [];
    AccumulatedAppend(before + [segs[k]], rest, loss);
    AccumulatedAppend(before, [segs[k]], loss);
    SeriesLossNonNegative(before, flowM3h, fluid, law);
    SeriesLossNonNegative(rest, flowM3h, fluid, law);
  }

  /** A run of real pipe: at least one segment, every segment of positive length. */
  predicate RealRun(segs: seq<Segment>) {
    && segs != []
    && forall k :: 0 <= k < |segs| ==> segs[k].length > 0.0
  }

  /**
   * A positive flow of a viscous fluid through a run of real pipe always
   * loses head, under a positive turbulent law.
   */
  lemma SeriesLossPositive(segs: seq<Segment>, flowM3h: real, fluid: Fluid, law: TurbulentLaw)
    requires RealRun(segs) && fluid.nu > 0.0 && PositiveLaw(law)
    ensures flowM3h > 0.0 ==> SeriesLoss(segs, flowM3h, fluid, law) > 0.0
  {
    if flowM3h > 0.0 {
      var loss := LossAt(flowM3h, fluid, law);
      var init := segs[..|segs| - 1];
      forall k | 0 <= k < |segs|
        ensures Contribution(loss(segs[k])) > 0.0
      {
        SegmentLossPositive(segs[k], flowM3h, fluid, law);
      }
      AccumulatedNonNegative(init, loss);
    }
  }
}
