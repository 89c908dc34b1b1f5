/** Unit conversion of the parameter helpers: lengths, forces and pressures,
    each table keyed by unit name and giving the unit's size in the table's
    base unit (m, kN, kPa). */
module Units {

  const LengthUnits: map<string, real> := map["m" := 1.0, "cm" := 0.01, "mm" := 0.001]
  const ForceUnits: map<string, real> := map["kN" := 1.0, "N" := 0.001, "tf" := 9.8, "kgf" := 0.00981]
  const PressureUnits: map<string, real> :=
    map["kPa" := 1.0, "MPa" := 1000.0, "Pa" := 0.001, "kgf/cm²" := 98.0665]

  datatype Conversion = Converted(value: real) | Unsupported(fromUnit: string, toUnit: string)

  /** Both units are listed in one and the same table. */
  predicate SameTable(a: string, b: string)
  {
    || (a in LengthUnits && b in LengthUnits)
    || (a in ForceUnits && b in ForceUnits)
    || (a in PressureUnits && b in PressureUnits)
  }

  predicate Known(u: string)
  {
    u in LengthUnits || u in ForceUnits || u in PressureUnits
  }

  /** No unit name is listed in two tables. */
  lemma TablesDisjoint(u: string)
    ensures !(u in LengthUnits && u in ForceUnits)
    ensures !(u in LengthUnits && u in PressureUnits)
    ensures !(u in ForceUnits && u in PressureUnits)
  {
    assert LengthUnits.Keys == {"m", "cm", "mm"};
    assert ForceUnits.Keys == {"kN", "N", "tf", "kgf"};
    assert PressureUnits.Keys == {"kPa", "MPa", "Pa", "kgf/cm²"};
  }

  /** How many base units (m, kN or kPa) one `u` is. */
  function Factor(u: string): (f: real)
    requires Known(u)
    ensures 0.0 < f
    ensures u in LengthUnits ==> f == LengthUnits[u]
    ensures u in ForceUnits ==> f == ForceUnits[u]
    ensures u in PressureUnits ==> f == PressureUnits[u]
  {
    TablesDisjoint(u);
    if u in LengthUnits then LengthUnits[u]
    else if u in ForceUnits then ForceUnits[u]
    else PressureUnits[u]
  }

  /** `value * from / to`: a quantity of `value` units of size `from`, counted in
      units of size `to`. */
  function Rescale(value: real, from: real, to: real): (r: real)
    requires 0.0 < to
    ensures r * to == value * from
  {
    value * from / to
  }

  /** Converts within one table by way of its base unit; any other pair is
      refused, never returned unconverted. Stated without division: the converted
      value times the target's factor is the input times the source's factor. */
  function ConvertUnits(value: real, fromUnit: string, toUnit: string): (c: Conversion)
    ensures c.Unsupported? <==> !SameTable(fromUnit, toUnit)
    ensures c.Unsupported? ==> c == Unsupported(fromUnit, toUnit)
    ensures c.Converted? ==> c.value * Factor(toUnit) == value * Factor(fromUnit)
  {
    if fromUnit in LengthUnits && toUnit in LengthUnits then
      Converted(Rescale(value, Factor(fromUnit), Factor(toUnit)))
    else if fromUnit in ForceUnits && toUnit in ForceUnits then
      Converted(Rescale(value, Factor(fromUnit), Factor(toUnit)))
    else if fromUnit in PressureUnits && toUnit in PressureUnits then
      Converted(Rescale(value, Factor(fromUnit), Factor(toUnit)))
    else
      Unsupported(fromUnit, toUnit)
  }

  lemma CancelPositive(x: real, y: real, f: real)
    requires 0.0 < f && x * f == y * f
    ensures x == y
  {
    assert (x - y) * f == 0.0;
  }

  /** A supported conversion is a rescaling by the two units' factors. */
  lemma ConvertIsRescale(value: real, a: string, b: string)
    requires SameTable(a, b)
    ensures ConvertUnits(value, a, b) == Converted(Rescale(value, Factor(a), Factor(b)))
  {
  }

  lemma RescaleIdentity(value: real, f: real)
    requires 0.0 < f
    ensures Rescale(value, f, f) == value
  {
    CancelPositive(Rescale(value, f, f), value, f);
  }

  lemma RescaleComposes(value: real, fa: real, fb: real, fc: real)
    requires 0.0 < fb && 0.0 < fc
    ensures Rescale(Rescale(value, fa, fb), fb, fc) == Rescale(value, fa, fc)
  {
    var ab := Rescale(value, fa, fb);
    CancelPositive(Rescale(ab, fb, fc), Rescale(value, fa, fc), fc);
  }

  /** Converting a listed unit to itself changes nothing. */
  lemma ConvertToSameUnit(value: real, u: string)
    requires Known(u)
    ensures ConvertUnits(value, u, u) == Converted(value)
  {
    ConvertIsRescale(value, u, u);
    RescaleIdentity(value, Factor(u));
  }

  /** Two units that share a table with a third share a table with each other,
      since no unit is listed in two tables. */
  lemma SameTableTransitive(a: string, b: string, c: string)
    requires SameTable(a, b) && SameTable(b, c)
    ensures SameTable(a, c)
  {
    TablesDisjoint(b);
  }

  /** Converting in two steps within a table is converting in one. */
  lemma ConvertComposes(value: real, a: string, b: string, c: string)
    requires SameTable(a, b) && SameTable(b, c)
    ensures SameTable(a, c)
    ensures ConvertUnits(ConvertUnits(value, a, b).value, b, c) == ConvertUnits(value, a, c)
  {
    SameTableTransitive(a, b, c);
    ConvertIsRescale(value, a, b);
    ConvertIsRescale(Rescale(value, Factor(a), Factor(b)), b, c);
    ConvertIsRescale(value, a, c);
    RescaleComposes(value, Factor(a), Factor(b), Factor(c));
  }

  /** Converting there and back again returns the original value. */
  lemma ConvertRoundTrip(value: real, a: string, b: string)
    requires SameTable(a, b)
    ensures ConvertUnits(value, a, b).Converted?
    ensures ConvertUnits(ConvertUnits(value, a, b).value, b, a) == Converted(value)
  {
    assert SameTable(b, a);
    ConvertComposes(value, a, b, a);
    ConvertToSameUnit(value, a);
  }

  /** One megapascal is a thousand kilopascals; a length cannot become a force. */
  lemma ConversionExamples()
    ensures ConvertUnits(1.0, "MPa", "kPa") == Converted(1000.0)
    ensures ConvertUnits(250.0, "cm", "m") == Converted(2.5)
    ensures ConvertUnits(1.0, "m", "kN") == Unsupported("m", "kN")
    ensures ConvertUnits(1.0, "psi", "kPa") == Unsupported("psi", "kPa")
  {
  }
}
