/** Dynamic response of a block foundation modelled as a single-degree-of-freedom
    damped oscillator: spring constant, natural frequency, frequency ratio,
    transmissibility, amplitude, resonance screening and a frequency sweep.

    The quantities are functions of a `DynamicState`, the record of every field of
    the analysis object. The object itself is the class `DynamicAnalysis`: its one
    operation that changes a field is the sweep, which overwrites the excitation
    frequency sample by sample and restores it at the end. */
module Dynamics {
  import opened Numeric

  /** Allowable vibration amplitude, mm. */
  const AllowableAmplitude: real := 0.15
  /** Inclusive frequency-ratio band screened as a resonance risk. */
  const ResonanceLow: real := 0.8
  const ResonanceHigh: real := 1.2
  /** First frequency of the default sweep, Hz. */
  const SweepStart: real := 0.1
  /** Span of the default sweep when three times the natural frequency does not
      exceed its start, Hz. */
  const SweepFallbackSpan: real := 50.0
  /** Number of samples of a sweep. */
  const SweepPoints: nat := 1000

  /** The fields of an analysis object: geometry (m), material data (MPa, and the
      elastic modulus already in kPa), soil coefficient (kN/m3), load amplitude (kN),
      excitation frequency (Hz), total mass (kg), damping ratio, and the derived
      spring constant (kN/m) and natural frequency (Hz). */
  datatype DynamicState = DynamicState(
    length: real,
    width: real,
    height: real,
    buriedDepth: real,
    concreteStrength: real,
    elasticModulus: real,
    soilCoefficient: real,
    dynamicLoad: real,
    frequency: real,
    totalMass: real,
    dampingRatio: real,
    springConstant: real,
    naturalFrequency: real)

  /** The report of a complete dynamic analysis. */
  datatype DynamicResult = DynamicResult(
    naturalFrequency: real,
    frequencyRatio: Ratio,
    transmissibility: real,
    amplitude: real,
    allowableAmplitude: real,
    isSafe: bool,
    resonanceRisk: bool)

  /** Subgrade coefficient times base area; for a real base it is positive
      exactly when the coefficient is. */
  function SpringConstant(soilCoefficient: real, length: real, width: real): (k: real)
    ensures 0.0 < length && 0.0 < width ==> (0.0 < k <==> 0.0 < soilCoefficient)
  {
    var baseArea := length * width;
    assert 0.0 < length && 0.0 < width ==> 0.0 < baseArea;
    soilCoefficient * baseArea
  }

  /** f_n = sqrt(k / m) / (2 pi): the non-negative frequency whose circular
      frequency squared is k / m. */
  function NaturalFrequency(num: Numerics, springConstant: real, totalMass: real): (fn: real)
    requires num.Valid()
    requires 0.0 < totalMass && 0.0 <= springConstant
    ensures 0.0 <= fn
    ensures (2.0 * num.pi * fn) * (2.0 * num.pi * fn) == springConstant / totalMass
    ensures 0.0 < springConstant ==> 0.0 < fn
  {
    var omegaSquared := springConstant / totalMass;
    var omega := num.sqrt(omegaSquared);
    assert 0.0 < springConstant ==> 0.0 < omega by {
      if 0.0 < springConstant { SqrtPositive(num, omegaSquared); }
    }
    assert 2.0 * num.pi * (omega / (2.0 * num.pi)) == omega;
    omega / (2.0 * num.pi)
  }

  /** The situations in which the engine's response formulas are finite: a valid
      square root, a positive spring constant and natural frequency, and damping. */
  ghost predicate Admissible(num: Numerics, d: DynamicState)
  {
    num.Valid() && 0.0 < d.springConstant && 0.0 < d.naturalFrequency && 0.0 < d.dampingRatio
  }

  /** Excitation over natural frequency; the infinite sentinel when the natural
      frequency is not positive. */
  function FrequencyRatio(d: DynamicState): (r: Ratio)
    ensures r.Infinite? <==> d.naturalFrequency <= 0.0
    ensures r.Finite? ==> r.value * d.naturalFrequency == d.frequency
  {
    if d.naturalFrequency > 0.0 then Finite(d.frequency / d.naturalFrequency) else Infinite
  }

  /** (1 - r^2)^2 + (2 zeta r)^2, the squared modulus of the response denominator. */
  function ResponseDenominator(r: real, zeta: real): (q: real)
    ensures 0.0 <= q
    ensures r != 0.0 && zeta != 0.0 ==> 0.0 < q
  {
    var a := 1.0 - r * r;
    var b := 2.0 * zeta * r;
    assert 0.0 <= a * a && 0.0 <= b * b;
    assert r != 0.0 && zeta != 0.0 ==> b != 0.0 && 0.0 < b * b;
    a * a + b * b
  }

  /** Transmissibility sqrt(1 + (2 zeta r)^2) / sqrt(denominator), exactly 1 at
      r = 0; stated without roots: T > 0 and T^2 * denominator = 1 + (2 zeta r)^2. */
  function Transmissibility(num: Numerics, d: DynamicState): (t: real)
    requires Admissible(num, d)
    ensures var r := FrequencyRatio(d).value;
      && 0.0 < t
      && (r == 0.0 ==> t == 1.0)
      && t * t * ResponseDenominator(r, d.dampingRatio)
         == 1.0 + (2.0 * d.dampingRatio * r) * (2.0 * d.dampingRatio * r)
  {
    var r := FrequencyRatio(d).value;
    var zeta := d.dampingRatio;
    if r == 0.0 then
      1.0
    else
      var n := 1.0 + (2.0 * zeta * r) * (2.0 * zeta * r);
      var q := ResponseDenominator(r, zeta);
      var numerator := num.sqrt(n);
      var denominator := num.sqrt(q);
      SqrtPositive(num, n);
      SqrtPositive(num, q);
      QuotientOfRoots(numerator, denominator, n, q);
      numerator / denominator
  }

  /** Vibration amplitude in mm: the static deflection F0 / k (m) times the
      dynamic magnification 1 / sqrt(denominator), times 1000. At r = 0 it is the
      static deflection exactly; in general A^2 * denominator = (1000 F0 / k)^2,
      and A has the sign of the load. */
  function Amplitude(num: Numerics, d: DynamicState): (a: real)
    requires Admissible(num, d)
    ensures var r := FrequencyRatio(d).value;
      var staticMm := d.dynamicLoad / d.springConstant * 1000.0;
      && (r == 0.0 ==> a == staticMm)
      && a * a * ResponseDenominator(r, d.dampingRatio) == staticMm * staticMm
      && (0.0 <= a <==> 0.0 <= d.dynamicLoad)
  {
    var r := FrequencyRatio(d).value;
    var zeta := d.dampingRatio;
    var forceTf :=
      if r == 0.0 then 1.0
      else (
        var q := ResponseDenominator(r, zeta);
        SqrtPositive(num, q);
        QuotientOfRoots(1.0, num.sqrt(q), 1.0, q);
        1.0 / num.sqrt(q));
    var staticDeflection := d.dynamicLoad / d.springConstant;
    var amplitude := staticDeflection * forceTf;
    AmplitudeFacts(staticDeflection, forceTf, ResponseDenominator(r, zeta), d.dynamicLoad, d.springConstant);
    amplitude * 1000.0
  }

  lemma AmplitudeFacts(delta: real, tf: real, q: real, load: real, k: real)
    requires 0.0 < k && delta == load / k
    requires 0.0 < tf && tf * tf * q == 1.0
    ensures (delta * tf * 1000.0) * (delta * tf * 1000.0) * q == (delta * 1000.0) * (delta * 1000.0)
    ensures 0.0 <= delta * tf * 1000.0 <==> 0.0 <= load
  {
    var s := delta * 1000.0;
    calc {
      (delta * tf * 1000.0) * (delta * tf * 1000.0) * q;
      s * s * (tf * tf * q);
      s * s;
    }
    assert delta * k == load;
    if 0.0 <= load {
      assert 0.0 <= delta;
    } else {
      assert delta < 0.0;
      assert delta * tf < 0.0;
    }
  }

  /** Resonance screening: at risk exactly when 0.8 <= r <= 1.2, both bounds
      inclusive; the ratio is returned with the verdict. */
  function ResonanceRisk(d: DynamicState): (res: (bool, Ratio))
    ensures res.1 == FrequencyRatio(d)
    ensures res.0 <==> res.1.Finite? && 0.8 <= res.1.value <= 1.2
  {
    var r := FrequencyRatio(d);
    (r.Within(ResonanceLow, ResonanceHigh), r)
  }

  /** The screening does not look at the damping ratio. */
  lemma ResonanceIgnoresDamping(d: DynamicState, zeta: real)
    ensures ResonanceRisk(d.(dampingRatio := zeta)) == ResonanceRisk(d)
  {
  }

  /** The complete dynamic analysis: the checks above, the fixed allowable
      amplitude, and safety exactly when the amplitude does not exceed it. */
  function RunAnalysis(num: Numerics, d: DynamicState): (res: DynamicResult)
    requires Admissible(num, d)
    ensures res.naturalFrequency == d.naturalFrequency
    ensures res.frequencyRatio == FrequencyRatio(d) && res.frequencyRatio.Finite?
    ensures res.transmissibility == Transmissibility(num, d)
    ensures res.amplitude == Amplitude(num, d)
    ensures res.allowableAmplitude == 0.15
    ensures res.isSafe <==> res.amplitude <= 0.15
    ensures res.resonanceRisk <==> 0.8 <= res.frequencyRatio.value <= 1.2
  {
    var freqRatio := FrequencyRatio(d);
    var transmissibility := Transmissibility(num, d);
    var amplitude := Amplitude(num, d);
    var (resonanceRisk, _) := ResonanceRisk(d);
    DynamicResult(
      d.naturalFrequency,
      freqRatio,
      transmissibility,
      amplitude,
      AllowableAmplitude,
      amplitude <= AllowableAmplitude,
      resonanceRisk)
  }

  /** The frequency domain of a sweep: the given range, or by default from
      0.1 Hz to three times the natural frequency, widened to 0.1..50.1 Hz when
      that end would not lie above the start. The default is strictly ascending. */
  function ResponseDomain(naturalFrequency: real, freqRange: Option<(real, real)>): (dom: (real, real))
    ensures freqRange.Some? ==> dom == freqRange.value
    ensures freqRange.None? ==>
      && dom.0 == 0.1
      && dom.0 < dom.1
      && (0.1 < 3.0 * naturalFrequency ==> dom.1 == 3.0 * naturalFrequency)
      && (3.0 * naturalFrequency <= 0.1 ==> dom.1 == 50.1)
  {
    match freqRange
    case Some(range) => range
    case None =>
      var endFreq := naturalFrequency * 3.0;
      if endFreq <= SweepStart then (SweepStart, SweepStart + SweepFallbackSpan)
      else (SweepStart, endFreq)
  }

  /** `n` evenly spaced samples from `start` to `stop`, both included. */
  function Linspace(start: real, stop: real, n: nat): (xs: seq<real>)
    requires 2 <= n
    ensures |xs| == n && xs[0] == start && xs[n - 1] == stop
    ensures forall i :: 0 <= i < n - 1 ==> xs[i + 1] - xs[i] == (stop - start) / (n - 1) as real
  {
    var step := (stop - start) / (n - 1) as real;
    var xs := seq(n, i requires 0 <= i < n => start + i as real * step);
    assert xs[n - 1] == start + (n - 1) as real * step;
    assert (n - 1) as real * step == stop - start;
    xs
  }

  /** Samples of an ascending range ascend strictly. */
  lemma {:induction false} LinspaceAscending(start: real, stop: real, n: nat, i: nat, j: nat)
    requires 2 <= n && start < stop
    requires i < j < n
    ensures Linspace(start, stop, n)[i] < Linspace(start, stop, n)[j]
    decreases j - i
  {
    var xs := Linspace(start, stop, n);
    var step := (stop - start) / (n - 1) as real;
    assert 0.0 < step;
    assert xs[j - 1] < xs[j] by { assert xs[j] - xs[j - 1] == step; }
    if i < j - 1 {
      LinspaceAscending(start, stop, n, i, j - 1);
    }
  }

  /** The sweep as a pure function of the analysis state: the sampled frequencies
      and, for each, the amplitude with that frequency substituted for the
      configured one and every other field held fixed. */
  function ResponseCurve(num: Numerics, d: DynamicState, freqRange: Option<(real, real)>): (curve: (seq<real>, seq<real>))
    requires Admissible(num, d)
    ensures |curve.0| == SweepPoints && |curve.1| == SweepPoints
    ensures curve.0[0] == ResponseDomain(d.naturalFrequency, freqRange).0
    ensures curve.0[SweepPoints - 1] == ResponseDomain(d.naturalFrequency, freqRange).1
    ensures curve.0 == Linspace(ResponseDomain(d.naturalFrequency, freqRange).0,
                                ResponseDomain(d.naturalFrequency, freqRange).1, SweepPoints)
  {
    var (start, stop) := ResponseDomain(d.naturalFrequency, freqRange);
    var frequencies := Linspace(start, stop, SweepPoints);
    var amplitudes := seq(SweepPoints, i requires 0 <= i < SweepPoints =>
      assert Admissible(num, d.(frequency := frequencies[i]));
      Amplitude(num, d.(frequency := frequencies[i])));
    (frequencies, amplitudes)
  }

  /** What a sweep promises: the default sweep ascends strictly, every amplitude is
      the one the analysis reports at that sample frequency, and the result does not
      depend on the configured excitation frequency at all. */
  lemma ResponseCurveFacts(num: Numerics, d: DynamicState, freqRange: Option<(real, real)>, f: real)
    requires Admissible(num, d)
    ensures var (frequencies, amplitudes) := ResponseCurve(num, d, freqRange);
      && (freqRange.None? ==>
            forall i, j :: 0 <= i < j < SweepPoints ==> frequencies[i] < frequencies[j])
      && (forall i :: 0 <= i < SweepPoints ==>
            amplitudes[i] == RunAnalysis(num, d.(frequency := frequencies[i])).amplitude)
      && ResponseCurve(num, d.(frequency := f), freqRange) == (frequencies, amplitudes)
  {
    var (frequencies, amplitudes) := ResponseCurve(num, d, freqRange);
    var (start, stop) := ResponseDomain(d.naturalFrequency, freqRange);
    assert frequencies == Linspace(start, stop, SweepPoints);
    if freqRange.None? {
      forall i, j | 0 <= i < j < SweepPoints
        ensures frequencies[i] < frequencies[j]
      {
        LinspaceAscending(start, stop, SweepPoints, i, j);
      }
    }
    var d' := d.(frequency := f);
    var (frequencies', amplitudes') := ResponseCurve(num, d', freqRange);
    assert frequencies' == frequencies;
    forall i | 0 <= i < SweepPoints
      ensures amplitudes'[i] == amplitudes[i]
    {
      assert d'.(frequency := frequencies[i]) == d.(frequency := frequencies[i]);
    }
    assert amplitudes' == amplitudes;
  }

  /** The reference oscillator: a 3 m x 2 m base on 80000 kN/m3 soil has a spring
      constant of 480000 kN/m; with 40000 kg it has a natural frequency of about
      0.5513 Hz, because (2 pi f_n)^2 = 12. */
  lemma ReferenceOscillator(num: Numerics)
    requires num.Valid()
    ensures SpringConstant(80000.0, 3.0, 2.0) == 480000.0
    ensures var fn := NaturalFrequency(num, 480000.0, 40000.0);
      && (2.0 * num.pi * fn) * (2.0 * num.pi * fn) == 12.0
      && 0.5513 < fn < 0.5514
  {
    var fn := NaturalFrequency(num, 480000.0, 40000.0);
    var omega := num.sqrt(12.0);
    assert fn == omega / (2.0 * num.pi);
    assert omega * omega == 12.0 && 0.0 <= omega;
    SquareBelow(3.4641, omega);
    SquareBelow(omega, 3.4642);
    var twoPi := 2.0 * num.pi;
    assert 6.28318 < twoPi < 6.2832;
    assert (fn - 0.5513) * twoPi == omega - 0.5513 * twoPi;
    assert (0.5514 - fn) * twoPi == 0.5514 * twoPi - omega;
  }

  /** The analysis object. Only the sweep writes a field after construction. */
  class DynamicAnalysis {
    const num: Numerics
    var length: real
    var width: real
    var height: real
    var buriedDepth: real
    var concreteStrength: real
    var elasticModulus: real
    var soilCoefficient: real
    var dynamicLoad: real
    var frequency: real
    var totalMass: real
    var dampingRatio: real
    var springConstant: real
    var naturalFrequency: real

    /** The object's fields as a value. */
    function State(): DynamicState
      reads this
    {
      DynamicState(length, width, height, buriedDepth, concreteStrength, elasticModulus,
        soilCoefficient, dynamicLoad, frequency, totalMass, dampingRatio,
        springConstant, naturalFrequency)
    }

    /** The derived fields agree with the inputs they were computed from. */
    ghost predicate Valid()
      reads this
    {
      && num.Valid()
      && 0.0 < totalMass && 0.0 <= springConstant
      && springConstant == SpringConstant(soilCoefficient, length, width)
      && naturalFrequency == NaturalFrequency(num, springConstant, totalMass)
    }

    /** Stores the inputs (the elastic modulus converted from MPa to kPa) and
        derives the spring constant and the natural frequency. */
    constructor (num: Numerics, length: real, width: real, height: real, buriedDepth: real,
                 concreteStrength: real, elasticModulus: real, soilCoefficient: real,
                 dynamicLoad: real, frequency: real, totalMass: real, dampingRatio: real)
      requires num.Valid()
      requires 0.0 < totalMass && 0.0 <= SpringConstant(soilCoefficient, length, width)
      ensures Valid()
      ensures this.num == num
      ensures this.length == length && this.width == width && this.height == height
      ensures this.buriedDepth == buriedDepth && this.concreteStrength == concreteStrength
      ensures this.elasticModulus == elasticModulus * 1000.0
      ensures this.soilCoefficient == soilCoefficient && this.dynamicLoad == dynamicLoad
      ensures this.frequency == frequency && this.totalMass == totalMass
      ensures this.dampingRatio == dampingRatio
      ensures this.springConstant == soilCoefficient * length * width
      ensures 0.0 <= this.naturalFrequency
      ensures (2.0 * num.pi * this.naturalFrequency) * (2.0 * num.pi * this.naturalFrequency)
              == this.springConstant / totalMass
    {
      this.num := num;
      this.length := length;
      this.width := width;
      this.height := height;
      this.buriedDepth := buriedDepth;
      this.concreteStrength := concreteStrength;
      this.elasticModulus := elasticModulus * 1000.0;
      this.soilCoefficient := soilCoefficient;
      this.dynamicLoad := dynamicLoad;
      this.frequency := frequency;
      this.totalMass := totalMass;
      this.dampingRatio := dampingRatio;
      var k := SpringConstant(soilCoefficient, length, width);
      this.springConstant := k;
      this.naturalFrequency := NaturalFrequency(num, k, totalMass);
    }

    /** The frequency sweep. Each sample overwrites the configured frequency before
        the amplitude is evaluated; the original frequency is put back at the end,
        so no field differs afterwards, and the samples are those of the pure
        `ResponseCurve`. */
    method CalculateResponseCurve(freqRange: Option<(real, real)>)
      returns (frequencies: seq<real>, amplitudes: seq<real>)
      requires Valid() && Admissible(num, State())
      modifies this
      ensures Valid()
      ensures State() == old(State())
      ensures frequencies == Linspace(ResponseDomain(naturalFrequency, freqRange).0,
                                      ResponseDomain(naturalFrequency, freqRange).1, SweepPoints)
      ensures |amplitudes| == |frequencies|
      ensures forall i :: 0 <= i < |amplitudes| ==>
        amplitudes[i] == Amplitude(num, old(State()).(frequency := frequencies[i]))
      ensures (frequencies, amplitudes) == ResponseCurve(num, old(State()), freqRange)
    {
      var startFreq, endFreq;
      if freqRange.None? {
        startFreq := SweepStart;
        endFreq := naturalFrequency * 3.0;
        if endFreq <= startFreq {
          endFreq := startFreq + SweepFallbackSpan;
        }
      } else {
        startFreq, endFreq := freqRange.value.0, freqRange.value.1;
      }
      assert (startFreq, endFreq) == ResponseDomain(naturalFrequency, freqRange);
      frequencies := Linspace(startFreq, endFreq, SweepPoints);
      amplitudes := [];
      ghost var initial := State();
      ghost var curve := ResponseCurve(num, initial, freqRange);
      assert frequencies == curve.0;
      var originalFreq := frequency;
      for i := 0 to |frequencies|
        invariant State() == initial.(frequency := frequency)
        invariant |amplitudes| == i
        invariant forall j :: 0 <= j < i ==>
          amplitudes[j] == Amplitude(num, initial.(frequency := frequencies[j]))
      {
        frequency := frequencies[i];
        amplitudes := amplitudes + [Amplitude(num, State())];
      }
      frequency := originalFreq;
      assert forall i :: 0 <= i < SweepPoints ==> amplitudes[i] == curve.1[i];
      assert amplitudes == curve.1;
    }
  }
}
