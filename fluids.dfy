/** The fixed table of fluids the calculator offers (`FLUIDOS`). */
module Fluids {
  /** Density in kg/m^3 and kinematic viscosity in m^2/s. */
  datatype Fluid = Fluid(rho: real, nu: real)

  const Water: Fluid := Fluid(998.2, 0.000001004)
  const Ethanol: Fluid := Fluid(789.0, 0.00000151)

  const FluidTable: map<string, Fluid> := map["Água a 20°C" := Water, "Etanol a 20°C" := Ethanol]

  /** Every fluid of the table is a physical one: positive density and viscosity. */
  lemma TableFluidsArePhysical(name: string)
    requires name in FluidTable
    ensures FluidTable[name].rho > 0.0 && FluidTable[name].nu > 0.0
  {
    assert name == "Água a 20°C" || name == "Etanol a 20°C";
  }
}
