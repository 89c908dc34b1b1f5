/** How the calculation window joins the two analyses: the vibrating mass handed
    to the dynamic analysis is the concrete block's mass plus the equipment's. The
    block's weight in kN is turned into kilograms with the gravity constant 9.81. */
module Coupling {
  import Statics

  /** Metres per second squared, as the window writes it. */
  const Gravity: real := 9.81

  /** The mass in kg of the concrete block of the given dimensions: its weight in
      kN, times 1000, over gravity. Stated without division. */
  function FoundationMass(length: real, width: real, height: real): (m: real)
    ensures m * Gravity == 1000.0 * Statics.ConcreteDensity * (length * width * height)
    ensures 0.0 < length && 0.0 < width && 0.0 < height ==> 0.0 < m
  {
    var foundationWeight := length * width * height * Statics.ConcreteDensity;
    foundationWeight * 1000.0 / Gravity
  }

  /** The vibrating mass in kg: block plus equipment. It is positive for a real
      block and a non-negative equipment mass, which is what the dynamic analysis
      demands of it. */
  function TotalMass(length: real, width: real, height: real, equipmentMass: real): (m: real)
    ensures m - equipmentMass == FoundationMass(length, width, height)
    ensures 0.0 < length && 0.0 < width && 0.0 < height && 0.0 <= equipmentMass ==> 0.0 < m
  {
    FoundationMass(length, width, height) + equipmentMass
  }

  /** With no backfill over the block (buried depth at most the height), the
      static self weight in kN and the block mass in kg describe the same
      concrete: mass times gravity is a thousand times the weight. Deeper burial
      adds soil to the weight but not to the mass. */
  lemma FoundationMassMatchesSelfWeight(s: Statics.StaticAnalysis)
    ensures s.buriedDepth <= s.height ==>
      FoundationMass(s.length, s.width, s.height) * Gravity == 1000.0 * Statics.SelfWeight(s)
    ensures s.height < s.buriedDepth && 0.0 < s.length && 0.0 < s.width ==>
      FoundationMass(s.length, s.width, s.height) * Gravity < 1000.0 * Statics.SelfWeight(s)
  {
    var m := FoundationMass(s.length, s.width, s.height);
    var block := s.length * s.width * s.height * Statics.ConcreteDensity;
    assert m * Gravity == 1000.0 * block;
    if s.height < s.buriedDepth && 0.0 < s.length && 0.0 < s.width {
      var soil := s.length * s.width * (s.buriedDepth - s.height) * Statics.SoilDensity;
      assert 0.0 < s.length * s.width;
      assert 0.0 < soil;
      assert Statics.SelfWeight(s) == block + soil;
    }
  }
}
