/**
 * Electric power and yearly cost of running the pump
 * (`calcular_analise_energetica`).
 */
module Energy {
  import opened Fluids
  import opened Friction

  /** Days of operation in a year: 30 days a month, 12 months. */
  const DaysPerYear: real := 360.0

  /** Electric power in kW and annual cost in currency units. */
  datatype EnergyResult = EnergyResult(powerKW: real, annualCost: real)

  /**
   * Hydraulic power in W delivered to `flowM3h` m^3/h of `fluid` lifted `head` m:
   * none without head, and never negative at a real operating point.
   */
  function HydraulicPower(flowM3h: real, head: real, fluid: Fluid): (w: real)
    ensures head == 0.0 ==> w == 0.0
    ensures flowM3h >= 0.0 && fluid.rho >= 0.0 && head >= 0.0 ==> w >= 0.0
  {
    var w := flowM3h / 3600.0 * fluid.rho * G * head;
    assert flowM3h >= 0.0 && fluid.rho >= 0.0 && head >= 0.0 ==> w >= 0.0 by {
      if flowM3h >= 0.0 && fluid.rho >= 0.0 && head >= 0.0 {
        ProductNonNegative(flowM3h / 3600.0, fluid.rho);
        ProductNonNegative(Product(flowM3h / 3600.0, fluid.rho) * G, head);
      }
    }
    w
  }

  /**
   * Electric power draw and yearly cost. When the two efficiencies multiply
   * to a non-positive number the power is 0 instead of a division error.
   * Otherwise the electric power, times the overall efficiency, is the
   * hydraulic power; the cost is the energy of a 360-day year at the tariff.
   */
  function EnergyAnalysis(flowM3h: real, head: real, pumpEff: real, motorEff: real,
                          hoursPerDay: real, tariff: real, fluid: Fluid): (e: EnergyResult)
    ensures Product(pumpEff, motorEff) <= 0.0 ==> e.powerKW == 0.0
    ensures Product(pumpEff, motorEff) > 0.0 ==>
      e.powerKW * Product(pumpEff, motorEff) * 1000.0 == HydraulicPower(flowM3h, head, fluid)
    ensures e.annualCost == e.powerKW * (hoursPerDay * DaysPerYear) * tariff
  {
    var efficiency := Product(pumpEff, motorEff);
    var power := if efficiency > 0.0 then HydraulicPower(flowM3h, head, fluid) / efficiency / 1000.0 else 0.0;
    EnergyResult(power, power * hoursPerDay * 30.0 * 12.0 * tariff)
  }

  /** Without head to overcome, the pump draws no power and costs nothing. */
  lemma ZeroHeadCostsNothing(flowM3h: real, pumpEff: real, motorEff: real, hoursPerDay: real, tariff: real, fluid: Fluid)
    ensures EnergyAnalysis(flowM3h, 0.0, pumpEff, motorEff, hoursPerDay, tariff, fluid) == EnergyResult(0.0, 0.0)
  {
    var e := EnergyAnalysis(flowM3h, 0.0, pumpEff, motorEff, hoursPerDay, tariff, fluid);
    if Product(pumpEff, motorEff) > 0.0 {
      assert e.powerKW * (Product(pumpEff, motorEff) * 1000.0) == 0.0;
    }
  }

  /**
   * For a real operating point (flow, head, density, hours and tariff not
   * negative) power and cost are never negative.
   */
  lemma EnergyNonNegative(flowM3h: real, head: real, pumpEff: real, motorEff: real, hoursPerDay: real, tariff: real, fluid: Fluid)
    requires flowM3h >= 0.0 && head >= 0.0 && fluid.rho >= 0.0 && hoursPerDay >= 0.0 && tariff >= 0.0
    ensures EnergyAnalysis(flowM3h, head, pumpEff, motorEff, hoursPerDay, tariff, fluid).powerKW >= 0.0
    ensures EnergyAnalysis(flowM3h, head, pumpEff, motorEff, hoursPerDay, tariff, fluid).annualCost >= 0.0
  {
    var e := EnergyAnalysis(flowM3h, head, pumpEff, motorEff, hoursPerDay, tariff, fluid);
    var w := HydraulicPower(flowM3h, head, fluid);
    if Product(pumpEff, motorEff) > 0.0 {
      var p := Product(pumpEff, motorEff) * 1000.0;
      assert e.powerKW * p == w;
      assert e.powerKW >= 0.0;
    }
    ProductNonNegative(hoursPerDay, DaysPerYear);
    ProductNonNegative(e.powerKW, hoursPerDay * DaysPerYear);
    ProductNonNegative(Product(e.powerKW, hoursPerDay * DaysPerYear), tariff);
  }

  /** More head never needs less power. */
  lemma PowerMonotoneInHead(flowM3h: real, h1: real, h2: real, pumpEff: real, motorEff: real, hoursPerDay: real, tariff: real, fluid: Fluid)
    requires flowM3h >= 0.0 && fluid.rho >= 0.0 && h1 <= h2
    ensures EnergyAnalysis(flowM3h, h1, pumpEff, motorEff, hoursPerDay, tariff, fluid).powerKW
         <= EnergyAnalysis(flowM3h, h2, pumpEff, motorEff, hoursPerDay, tariff, fluid).powerKW
  {
    var e1 := EnergyAnalysis(flowM3h, h1, pumpEff, motorEff, hoursPerDay, tariff, fluid);
    var e2 := EnergyAnalysis(flowM3h, h2, pumpEff, motorEff, hoursPerDay, tariff, fluid);
    var k := Product(flowM3h / 3600.0, fluid.rho) * G;
    ProductNonNegative(flowM3h / 3600.0, fluid.rho);
    ProductNonNegative(k, h2 - h1);
    assert HydraulicPower(flowM3h, h1, fluid) <= HydraulicPower(flowM3h, h2, fluid);
    if Product(pumpEff, motorEff) > 0.0 {
      var p := Product(pumpEff, motorEff) * 1000.0;
      ProductPositive(Product(pumpEff, motorEff), 1000.0);
      if e1.powerKW > e2.powerKW {
        ProductPositive(e1.powerKW - e2.powerKW, p);
        assert false;
      }
    }
  }
}
