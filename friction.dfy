/**
 * Friction head loss of one pipe segment (`calcular_perdas_trecho`):
 * Darcy–Weisbach with 64/Re up to Re = 4000 and the Swamee–Jain
 * correlation above it.
 */
module Friction {
  import opened Wrappers
  import opened Network
  import opened Fluids

  /** Gravitational acceleration in m/s^2. */
  const G: real := 9.81
  /** `math.pi`, as its shortest decimal representation. */
  const Pi: real := 3.141592653589793
  /** Loss reported for a segment whose diameter is not positive. */
  const Penalty: real := 1000000000000.0
  /** Reynolds numbers above this use the turbulent correlation. */
  const TurbulentFrom: real := 4000.0

  /**
   * The turbulent friction factor as a function of roughness (m), diameter (m)
   * and Reynolds number: `0.25 / log10(e / (3.7 d) + 5.74 / Re^0.9)^2`. Its
   * logarithm and power are not expressible over the reals here, so the model
   * takes it as a parameter, knowing only that it is never negative.
   */
  type TurbulentLaw = f: (real, real, real) -> real | forall e, d, re :: f(e, d, re) >= 0.0
    witness (e: real, d: real, re: real) => 0.0

  /** The dict the Python code returns: "principal", the optional "localizada", "velocidade". */
  datatype SegmentResult = SegmentResult(principal: real, localized: Option<real>, velocity: real)

  /** `a * b`; squares are written `Product(x, x)` so that the sign lemmas below apply to them. */
  function Product(a: real, b: real): real {
    a * b
  }

  lemma ProductPositive(a: real, b: real)
    requires a > 0.0 && b > 0.0
    ensures Product(a, b) > 0.0
  {
  }

  lemma ProductNonNegative(a: real, b: real)
    requires (a >= 0.0 && b >= 0.0) || (a <= 0.0 && b <= 0.0)
    ensures Product(a, b) >= 0.0
  {
  }

  /** `x ** 2`. */
  function Square(x: real): real {
    Product(x, x)
  }

  /** Cross-section in m^2 of a pipe of diameter `d` m; positive for a real pipe. */
  function Area(d: real): (a: real)
    ensures d > 0.0 ==> a > 0.0
  {
    var a := (Pi * Square(d)) / 4.0;
    assert d > 0.0 ==> a > 0.0 by {
      if d > 0.0 {
        ProductPositive(d, d);
        ProductPositive(Pi, Square(d));
      }
    }
    a
  }

  /** Mean velocity in m/s of `flowM3h` m^3/h through diameter `d` m. */
  function Velocity(flowM3h: real, d: real): (v: real)
    requires d > 0.0
    ensures v * Area(d) == flowM3h / 3600.0
    ensures flowM3h > 0.0 ==> v > 0.0
  {
    (flowM3h / 3600.0) / Area(d)
  }

  /** Reynolds number; 0 for a fluid without positive viscosity. */
  function Reynolds(v: real, d: real, nu: real): (re: real)
    ensures nu <= 0.0 ==> re == 0.0
    ensures nu > 0.0 ==> re * nu == Product(v, d)
    ensures nu > 0.0 && v > 0.0 && d > 0.0 ==> re > 0.0
  {
    if nu > 0.0 then
      assert v > 0.0 && d > 0.0 ==> Product(v, d) > 0.0 by {
        if v > 0.0 && d > 0.0 {
          ProductPositive(v, d);
        }
      }
      Product(v, d) / nu
    else 0.0
  }

  /** The friction factor of each regime. */
  function FrictionFactor(roughM: real, d: real, re: real, law: TurbulentLaw): (f: real)
    ensures f >= 0.0
    ensures re <= 0.0 ==> f == 0.0
    ensures 0.0 < re <= TurbulentFrom ==> f * re == 64.0
    ensures re > TurbulentFrom ==> f == law(roughM, d, re)
  {
    if re > TurbulentFrom then law(roughM, d, re)
    else if re > 0.0 then 64.0 / re
    else 0.0
  }

  /** Darcy–Weisbach head loss in m; a non-negative factor on a non-negative length loses no negative head. */
  function DarcyWeisbach(f: real, length: real, d: real, v: real): (h: real)
    requires d > 0.0
    ensures f >= 0.0 && length >= 0.0 ==> h >= 0.0
  {
    var h := f * (length / d) * (Square(v) / (2.0 * G));
    assert f >= 0.0 && length >= 0.0 ==> h >= 0.0 by {
      if f >= 0.0 && length >= 0.0 {
        ProductNonNegative(v, v);
        ProductNonNegative(f, length / d);
        ProductNonNegative(Product(f, length / d), Square(v) / (2.0 * G));
      }
    }
    h
  }

  /**
   * The loss and velocity of one segment at `flowM3h` m^3/h. The early exits
   * come in the source's order: no flow first, then a non-positive diameter.
   */
  function SegmentLoss(seg: Segment, flowM3h: real, fluid: Fluid, law: TurbulentLaw): (r: SegmentResult)
    ensures flowM3h <= 0.0 ==> r == SegmentResult(0.0, Some(0.0), 0.0)
    ensures flowM3h > 0.0 && seg.diameter <= 0.0 ==> r == SegmentResult(Penalty, Some(0.0), 0.0)
    ensures flowM3h > 0.0 && seg.diameter > 0.0 ==> r.localized == None && r.velocity > 0.0
  {
    if flowM3h <= 0.0 then SegmentResult(0.0, Some(0.0), 0.0)
    else
      var d := seg.diameter / 1000.0;
      if d <= 0.0 then SegmentResult(Penalty, Some(0.0), 0.0)
      else
        var v := Velocity(flowM3h, d);
        var re := Reynolds(v, d, fluid.nu);
        var f := FrictionFactor(seg.roughness / 1000.0, d, re, law);
        SegmentResult(DarcyWeisbach(f, seg.length, d, v), None, v)
  }

  /** The friction loss is never negative on a segment of non-negative length. */
  lemma SegmentLossNonNegative(seg: Segment, flowM3h: real, fluid: Fluid, law: TurbulentLaw)
    requires seg.length >= 0.0
    ensures SegmentLoss(seg, flowM3h, fluid, law).principal >= 0.0
  {
  }

  /** The turbulent law of a real pipe: `0.25 / log10(...)^2` is positive wherever it is defined. */
  ghost predicate PositiveLaw(law: TurbulentLaw) {
    forall e, d, re :: law(e, d, re) > 0.0
  }

  /**
   * A flowing fluid of positive viscosity loses head in every segment of
   * positive length: 1e12 for a degenerate diameter, and otherwise a
   * positive friction factor in both regimes.
   */
  lemma SegmentLossPositive(seg: Segment, flowM3h: real, fluid: Fluid, law: TurbulentLaw)
    requires seg.length > 0.0 && fluid.nu > 0.0 && PositiveLaw(law)
    ensures flowM3h > 0.0 ==> SegmentLoss(seg, flowM3h, fluid, law).principal > 0.0
  {
    if flowM3h > 0.0 && seg.diameter > 0.0 {
      var d := seg.diameter / 1000.0;
      var v := Velocity(flowM3h, d);
      var re := Reynolds(v, d, fluid.nu);
      var f := FrictionFactor(seg.roughness / 1000.0, d, re, law);
      assert f > 0.0 by {
        if re <= TurbulentFrom && f <= 0.0 {
          ProductNonNegative(-f, re);
          assert false;
        }
      }
      ProductPositive(v, v);
      ProductPositive(f, seg.length / d);
      ProductPositive(Product(f, seg.length / d), Square(v) / (2.0 * G));
    }
  }

  /** A segment of zero length loses nothing, whatever the flow and the regime. */
  lemma ZeroLengthLosesNothing(seg: Segment, flowM3h: real, fluid: Fluid, law: TurbulentLaw)
    requires seg.length == 0.0 && seg.diameter > 0.0
    ensures SegmentLoss(seg, flowM3h, fluid, law).principal == 0.0
  {
  }

  /** A fluid without positive viscosity has Reynolds number 0, hence no loss even when flowing. */
  lemma InviscidFluidLosesNothing(seg: Segment, flowM3h: real, fluid: Fluid, law: TurbulentLaw)
    requires fluid.nu <= 0.0 && seg.diameter > 0.0
    ensures SegmentLoss(seg, flowM3h, fluid, law).principal == 0.0
  {
  }

  /**
   * Up to Re = 4000 the loss is the Hagen–Poiseuille head loss
   * 32 nu L v / (g d^2), linear in the velocity.
   */
  lemma LaminarIsHagenPoiseuille(seg: Segment, flowM3h: real, fluid: Fluid, law: TurbulentLaw)
    requires flowM3h > 0.0 && seg.diameter > 0.0 && fluid.nu > 0.0
    requires Reynolds(Velocity(flowM3h, seg.diameter / 1000.0), seg.diameter / 1000.0, fluid.nu) <= TurbulentFrom
    ensures var r := SegmentLoss(seg, flowM3h, fluid, law);
      r.principal * (G * Square(seg.diameter / 1000.0)) == 32.0 * fluid.nu * seg.length * r.velocity
  {
    var d := seg.diameter / 1000.0;
    var v := Velocity(flowM3h, d);
    var nu := fluid.nu;
    var re := Reynolds(v, d, nu);
    var f := FrictionFactor(seg.roughness / 1000.0, d, re, law);
    PoiseuilleAlgebra(f, re, nu, v, d, seg.length);
  }

  lemma PoiseuilleAlgebra(f: real, re: real, nu: real, v: real, d: real, len: real)
    requires d > 0.0 && nu > 0.0 && re == (v * d) / nu && f * re == 64.0
    ensures DarcyWeisbach(f, len, d, v) * (G * Square(d)) == 32.0 * nu * len * v
  {
    var fv := f * (v * d);
    assert fv == 64.0 * nu by {
      assert re * nu == v * d;
      assert fv == (f * re) * nu;
    }
    calc {
      DarcyWeisbach(f, len, d, v) * (G * Square(d));
      (f * (len / d) * ((v * v) / (2.0 * G))) * (G * (d * d));
      (f * (v * d)) * (len * v) / 2.0;
      (64.0 * nu) * (len * v) / 2.0;
      32.0 * nu * len * v;
    }
  }
}
