/** Static stability of a block foundation: self-weight, sliding, overturning and
    eccentricity-reduced bearing pressure, each against a fixed code threshold.

    The analysis object of the engine writes its fields once, when it is created,
    and never changes them; it is modelled as an immutable record and the checks
    as functions of that record. */
module Statics {
  import opened Numeric

  /** Unit weight of reinforced concrete, kN/m3. */
  const ConcreteDensity: real := 25.0
  /** Unit weight of backfill soil, kN/m3. */
  const SoilDensity: real := 18.0
  /** The horizontal design load is this share of the static load. */
  const HorizontalLoadShare: real := 0.1
  /** Code minimum of the sliding safety factor. */
  const RequiredSlidingFactor: real := 1.3
  /** Code minimum of the overturning safety factor. */
  const RequiredOverturningFactor: real := 1.5

  /** The inputs of one static analysis (lengths in m, strengths in MPa,
      bearing capacity in kPa, load in kN, eccentricity pair (ex, ey) in m). */
  datatype StaticAnalysis = StaticAnalysis(
    length: real,
    width: real,
    height: real,
    buriedDepth: real,
    concreteStrength: real,
    elasticModulus: real,
    soilBearingCapacity: real,
    staticLoad: real,
    loadEccentricity: (real, real),
    frictionCoefficient: real)

  /** A stability check: its safety factor and whether it passes. */
  datatype Stability = Stability(safetyFactor: Ratio, isSafe: bool)

  /** The bearing check: actual pressure, allowable pressure, and whether it passes. */
  datatype Bearing = Bearing(actualPressure: Ratio, allowablePressure: real, isSafe: bool)

  /** A stability check as reported, with the threshold it was held to. */
  datatype StabilityReport = StabilityReport(safetyFactor: Ratio, isSafe: bool, requiredFactor: real)

  /** The report of a complete static analysis. */
  datatype StaticResult = StaticResult(
    selfWeight: real,
    totalWeight: real,
    sliding: StabilityReport,
    overturning: StabilityReport,
    bearing: Bearing,
    overallSafety: bool)

  /** Weight of the foundation block plus, when the foundation is buried deeper
      than it is high, the backfill soil above it (kN). */
  function SelfWeight(s: StaticAnalysis): (w: real)
    ensures s.buriedDepth <= s.height ==>
      w == s.length * s.width * s.height * 25.0
    ensures s.height < s.buriedDepth ==>
      w == s.length * s.width * s.height * 25.0
         + s.length * s.width * (s.buriedDepth - s.height) * 18.0
  {
    var foundationWeight := s.length * s.width * s.height * ConcreteDensity;
    var soilWeight :=
      if s.buriedDepth > s.height
      then s.length * s.width * (s.buriedDepth - s.height) * SoilDensity
      else 0.0;
    foundationWeight + soilWeight
  }

  /** Burying the foundation deeper never makes it lighter, and the soil term
      never takes the weight below that of the concrete block alone. */
  lemma SelfWeightMonotoneInDepth(s: StaticAnalysis, depth: real)
    requires 0.0 <= s.length && 0.0 <= s.width
    requires s.buriedDepth <= depth
    ensures s.length * s.width * s.height * ConcreteDensity <= SelfWeight(s)
    ensures SelfWeight(s) <= SelfWeight(s.(buriedDepth := depth))
  {
    var a := s.length * s.width;
    assert 0.0 <= a;
    var extra := if s.buriedDepth > s.height then s.buriedDepth - s.height else 0.0;
    var extra' := if depth > s.height then depth - s.height else 0.0;
    assert 0.0 <= extra <= extra';
    assert SelfWeight(s) == a * s.height * ConcreteDensity + a * extra * SoilDensity;
    assert SelfWeight(s.(buriedDepth := depth)) == a * s.height * ConcreteDensity + a * extra' * SoilDensity;
    assert a * extra <= a * extra';
  }

  /** Sliding: friction of the total vertical load against a horizontal load of
      10% of the static load; no horizontal load means an infinite factor. */
  function SlidingStability(s: StaticAnalysis): (res: Stability)
    ensures var horizontal := s.staticLoad * 0.1;
      && (res.safetyFactor.Infinite? <==> horizontal <= 0.0)
      && (res.safetyFactor.Finite? ==>
            res.safetyFactor.value * horizontal
            == (SelfWeight(s) + s.staticLoad) * s.frictionCoefficient)
    ensures res.isSafe <==> res.safetyFactor.AtLeast(1.3)
  {
    var horizontalLoad := s.staticLoad * HorizontalLoadShare;
    var antiSlidingForce := (SelfWeight(s) + s.staticLoad) * s.frictionCoefficient;
    var safetyFactor :=
      if horizontalLoad > 0.0 then Finite(antiSlidingForce / horizontalLoad) else Infinite;
    Stability(safetyFactor, safetyFactor.AtLeast(RequiredSlidingFactor))
  }

  /** With a positive horizontal load and a non-negative vertical load, a larger
      friction coefficient never lowers the sliding factor, nor fails a check
      that passed. */
  lemma SlidingMonotoneInFriction(s: StaticAnalysis, mu: real)
    requires 0.0 < s.staticLoad
    requires 0.0 <= SelfWeight(s)
    requires s.frictionCoefficient <= mu
    ensures var before := SlidingStability(s);
      var after := SlidingStability(s.(frictionCoefficient := mu));
      && before.safetyFactor.Finite? && after.safetyFactor.Finite?
      && before.safetyFactor.value <= after.safetyFactor.value
      && (before.isSafe ==> after.isSafe)
  {
    var s' := s.(frictionCoefficient := mu);
    assert SelfWeight(s') == SelfWeight(s);
    var vertical := SelfWeight(s) + s.staticLoad;
    var h := s.staticLoad * HorizontalLoadShare;
    assert 0.0 < h && 0.0 <= vertical;
    var force, force' := vertical * s.frictionCoefficient, vertical * mu;
    assert force <= force' by { assert 0.0 <= vertical * (mu - s.frictionCoefficient); }
    DivisionMonotone(force, force', h);
    assert SlidingStability(s).safetyFactor == Finite(force / h);
    assert SlidingStability(s').safetyFactor == Finite(force' / h);
  }

  lemma DivisionMonotone(a: real, b: real, c: real)
    requires a <= b && 0.0 < c
    ensures a / c <= b / c
  {
    assert (b - a) / c == b / c - a / c;
  }

  /** Overturning moment of the horizontal load about the base. The lever arm
      `height + buriedDepth - height` is kept as the engine writes it. */
  function OverturningMoment(s: StaticAnalysis): (m: real)
    ensures m == 0.1 * s.staticLoad * s.buriedDepth
  {
    var horizontalLoad := s.staticLoad * HorizontalLoadShare;
    horizontalLoad * (s.height + s.buriedDepth - s.height)
  }

  /** Stabilising moment: self-weight about the edge, plus the static load's
      arm only when its eccentricity lies inside the half-length. */
  function StabilizingMoment(s: StaticAnalysis): (m: real)
    ensures var ex := s.loadEccentricity.0;
      && (Abs(ex) < s.length / 2.0 ==>
            m == SelfWeight(s) * (s.length / 2.0) + s.staticLoad * (s.length / 2.0 - Abs(ex)))
      && (s.length / 2.0 <= Abs(ex) ==> m == SelfWeight(s) * (s.length / 2.0))
  {
    var ex := s.loadEccentricity.0;
    var selfMoment := SelfWeight(s) * (s.length / 2.0);
    if Abs(ex) < s.length / 2.0
    then selfMoment + s.staticLoad * (s.length / 2.0 - Abs(ex))
    else selfMoment
  }

  /** With a non-negative static load the eccentric term only ever adds to the
      self-weight moment: an eccentricity outside the half-length drops the term
      rather than subtracting from it. */
  lemma StabilizingMomentAtLeastSelfWeight(s: StaticAnalysis)
    requires 0.0 <= s.staticLoad
    ensures SelfWeight(s) * (s.length / 2.0) <= StabilizingMoment(s)
  {
    var ex := s.loadEccentricity.0;
    if Abs(ex) < s.length / 2.0 {
      assert 0.0 <= s.staticLoad * (s.length / 2.0 - Abs(ex));
    }
  }

  /** Overturning: stabilising over overturning moment; a non-positive
      overturning moment means an infinite factor. */
  function OverturningStability(s: StaticAnalysis): (res: Stability)
    ensures res.safetyFactor.Infinite? <==> OverturningMoment(s) <= 0.0
    ensures res.safetyFactor.Finite? ==>
      res.safetyFactor.value * OverturningMoment(s) == StabilizingMoment(s)
    ensures res.isSafe <==> res.safetyFactor.AtLeast(1.5)
  {
    var overturning := OverturningMoment(s);
    var stabilizing := StabilizingMoment(s);
    var safetyFactor :=
      if overturning > 0.0 then Finite(stabilizing / overturning) else Infinite;
    Stability(safetyFactor, safetyFactor.AtLeast(RequiredOverturningFactor))
  }

  /** A foundation that is not buried, or carries no static load, can never
      overturn: its factor is the infinite sentinel and the check passes. */
  lemma OverturningWithoutArmIsSafe(s: StaticAnalysis)
    requires s.buriedDepth == 0.0 || s.staticLoad == 0.0
    ensures OverturningStability(s) == Stability(Infinite, true)
  {
  }

  /** Base area reduced by twice each eccentricity. */
  function EffectiveArea(s: StaticAnalysis): real
  {
    var (ex, ey) := s.loadEccentricity;
    var effectiveLength := s.length - 2.0 * Abs(ex);
    var effectiveWidth := s.width - 2.0 * Abs(ey);
    effectiveLength * effectiveWidth
  }

  /** Bearing: total load over the effective area against the soil's capacity;
      a non-positive effective area means infinite pressure, which always fails. */
  function BearingCapacity(s: StaticAnalysis): (res: Bearing)
    ensures res.allowablePressure == s.soilBearingCapacity
    ensures res.actualPressure.Infinite? <==> EffectiveArea(s) <= 0.0
    ensures res.actualPressure.Finite? ==>
      res.actualPressure.value * EffectiveArea(s) == SelfWeight(s) + s.staticLoad
    ensures res.isSafe <==> res.actualPressure.AtMost(s.soilBearingCapacity)
    ensures EffectiveArea(s) <= 0.0 ==> !res.isSafe
  {
    var totalLoad := SelfWeight(s) + s.staticLoad;
    var area := EffectiveArea(s);
    var actualPressure := if area > 0.0 then Finite(totalLoad / area) else Infinite;
    Bearing(actualPressure, s.soilBearingCapacity, actualPressure.AtMost(s.soilBearingCapacity))
  }

  /** Only the product of the two reduced sides is tested: when both are
      negative the area is positive and the pressure finite. */
  lemma BearingWithBothSidesNegative(s: StaticAnalysis)
    requires s.length - 2.0 * Abs(s.loadEccentricity.0) < 0.0
    requires s.width - 2.0 * Abs(s.loadEccentricity.1) < 0.0
    ensures 0.0 < EffectiveArea(s)
    ensures BearingCapacity(s).actualPressure.Finite?
  {
    var l := s.length - 2.0 * Abs(s.loadEccentricity.0);
    var w := s.width - 2.0 * Abs(s.loadEccentricity.1);
    assert EffectiveArea(s) == l * w;
    assert 0.0 < (-l) * (-w);
  }

  /** The complete static analysis. */
  function RunAnalysis(s: StaticAnalysis): (res: StaticResult)
    ensures res.selfWeight == SelfWeight(s)
    ensures res.totalWeight == res.selfWeight + s.staticLoad
    ensures res.sliding.requiredFactor == 1.3 && res.overturning.requiredFactor == 1.5
    ensures res.bearing.allowablePressure == s.soilBearingCapacity
    ensures res.sliding.isSafe <==> res.sliding.safetyFactor.AtLeast(res.sliding.requiredFactor)
    ensures res.overturning.isSafe <==> res.overturning.safetyFactor.AtLeast(res.overturning.requiredFactor)
    ensures res.overallSafety <==> res.sliding.isSafe && res.overturning.isSafe && res.bearing.isSafe
    ensures res.sliding ==
      StabilityReport(SlidingStability(s).safetyFactor, SlidingStability(s).isSafe, 1.3)
    ensures res.overturning ==
      StabilityReport(OverturningStability(s).safetyFactor, OverturningStability(s).isSafe, 1.5)
    ensures res.bearing == BearingCapacity(s)
  {
    var sliding := SlidingStability(s);
    var overturning := OverturningStability(s);
    var bearing := BearingCapacity(s);
    StaticResult(
      SelfWeight(s),
      SelfWeight(s) + s.staticLoad,
      StabilityReport(sliding.safetyFactor, sliding.isSafe, RequiredSlidingFactor),
      StabilityReport(overturning.safetyFactor, overturning.isSafe, RequiredOverturningFactor),
      bearing,
      sliding.isSafe && overturning.isSafe && bearing.isSafe)
  }

  lemma SlidingIgnoresEccentricity(s: StaticAnalysis, e: (real, real))
    ensures SelfWeight(s.(loadEccentricity := e)) == SelfWeight(s)
    ensures SlidingStability(s.(loadEccentricity := e)) == SlidingStability(s)
  {
    var s' := s.(loadEccentricity := e);
    assert SelfWeight(s') == SelfWeight(s);
  }

  lemma OverturningMagnitudeOnly(s: StaticAnalysis, e: (real, real))
    requires Abs(e.0) == Abs(s.loadEccentricity.0)
    ensures OverturningStability(s.(loadEccentricity := e)) == OverturningStability(s)
  {
    var s' := s.(loadEccentricity := e);
    SlidingIgnoresEccentricity(s, e);
    assert OverturningMoment(s') == OverturningMoment(s);
    assert StabilizingMoment(s') == StabilizingMoment(s);
  }

  lemma BearingMagnitudeOnly(s: StaticAnalysis, e: (real, real))
    requires Abs(e.0) == Abs(s.loadEccentricity.0) && Abs(e.1) == Abs(s.loadEccentricity.1)
    ensures BearingCapacity(s.(loadEccentricity := e)) == BearingCapacity(s)
  {
    var s' := s.(loadEccentricity := e);
    SlidingIgnoresEccentricity(s, e);
    assert EffectiveArea(s') == EffectiveArea(s);
  }

  /** The eccentricities enter the analysis only through their magnitudes:
      flipping the sign of either changes no part of the result. */
  lemma EccentricitySignIrrelevant(s: StaticAnalysis, ex: real, ey: real)
    requires Abs(ex) == Abs(s.loadEccentricity.0) && Abs(ey) == Abs(s.loadEccentricity.1)
    ensures RunAnalysis(s.(loadEccentricity := (ex, ey))) == RunAnalysis(s)
  {
    SlidingIgnoresEccentricity(s, (ex, ey));
    OverturningMagnitudeOnly(s, (ex, ey));
    BearingMagnitudeOnly(s, (ex, ey));
  }

  /** The reference case: a 3 m x 2 m x 1 m block buried 0.5 m under a 500 kN
      load with friction 0.45 weighs 150 kN (no soil term) and passes every check. */
  lemma ReferenceCase()
    ensures var s := StaticAnalysis(3.0, 2.0, 1.0, 0.5, 30.0, 30000.0, 200.0, 500.0, (0.0, 0.0), 0.45);
      var res := RunAnalysis(s);
      && res.selfWeight == 150.0
      && res.totalWeight == 650.0
      && res.sliding.safetyFactor == Finite(5.85) && res.sliding.isSafe
      && res.overturning.safetyFactor == Finite(39.0) && res.overturning.isSafe
      && res.bearing.actualPressure == Finite(650.0 / 6.0) && res.bearing.isSafe
      && res.overallSafety
  {
    var s := StaticAnalysis(3.0, 2.0, 1.0, 0.5, 30.0, 30000.0, 200.0, 500.0, (0.0, 0.0), 0.45);
    assert SelfWeight(s) == 150.0;
    assert OverturningMoment(s) == 25.0;
    assert StabilizingMoment(s) == 975.0;
    assert EffectiveArea(s) == 6.0;
  }
}
