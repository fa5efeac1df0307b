/** CalculatorService: the geometry of an inverted-V dipole hung from one mast.
    Each leg is the hypotenuse of a right triangle whose angle at the mast top is
    half the 120° apex angle; the mast foot may be raised by an elevation, which
    stretches the ground span by the ratio of the raised to the unraised height. */
module Calculator {
  import opened Outcomes

  const MinFrequencyAllowed: real := 0.1   // MHz
  const MaxFrequencyAllowed: real := 30.0  // MHz
  const MinElevationAllowed: real := 0.0   // metres
  /** Total wire length in metres times the frequency in MHz. */
  const X: real := 142.0
  /** cos and sin of half the 120° apex angle, i.e. of 60°. The cosine is exactly
      1/2; the sine, which is irrational, is the value the platform's
      double-precision sine yields. */
  const CosHalfAngle: real := 0.5
  const SinHalfAngle: real := 0.8660254037844386

  /** The three private fields of a CalculatorService. */
  datatype Service = Service(frequency: real, elevation: real, ratio: real)

  predicate FrequencyAllowed(f: real) {
    MinFrequencyAllowed <= f <= MaxFrequencyAllowed
  }

  /** The states the two constructors can produce: the frequency-only one leaves the
      elevation and the ratio at 0; the other stores height(elevation) / height(0). */
  predicate Constructed(s: Service) {
    && FrequencyAllowed(s.frequency)
    && s.elevation >= MinElevationAllowed
    && ((s.elevation == 0.0 && s.ratio == 0.0)
        || s.ratio == AntennaHeight(s, s.elevation) / AntennaHeight(s, 0.0))
  }

  /** CalculatorService(frequency). */
  function FromFrequency(frequency: real): (r: Result<Service>)
    ensures r.Ok? <==> 0.1 <= frequency <= 30.0
    ensures r.Err? ==> r.error == OutOfRange(Frequency)
    ensures r.Ok? ==> Constructed(r.value) && r.value == Service(frequency, 0.0, 0.0)
  {
    if frequency < MinFrequencyAllowed || frequency > MaxFrequencyAllowed then
      Err(OutOfRange(Frequency))
    else
      Ok(Service(frequency, 0.0, 0.0))
  }

  /** CalculatorService(frequency, elevation): the frequency is checked first. */
  function FromFrequencyAndElevation(frequency: real, elevation: real): (r: Result<Service>)
    ensures r.Ok? <==> 0.1 <= frequency <= 30.0 && elevation >= 0.0
    ensures !(0.1 <= frequency <= 30.0) ==> r == Err(OutOfRange(Frequency))
    ensures 0.1 <= frequency <= 30.0 && elevation < 0.0 ==> r == Err(OutOfRange(Elevation))
    ensures r.Ok? ==> Constructed(r.value)
    ensures r.Ok? ==> r.value.frequency == frequency && r.value.elevation == elevation
    ensures r.Ok? ==> r.value.ratio * 35.5 == 35.5 + elevation * frequency
    ensures r.Ok? ==> r.value.ratio >= 1.0 && (r.value.ratio == 1.0 <==> elevation == 0.0)
  {
    var s :- FromFrequency(frequency);
    if elevation < MinElevationAllowed then
      Err(OutOfRange(Elevation))
    else
      var raised := s.(elevation := elevation);
      var h0 := AntennaHeight(raised, 0.0);
      var he := AntennaHeight(raised, elevation);
      RatioClosedForm(frequency, elevation, h0, he);
      Ok(raised.(ratio := he / h0))
  }

  /** GetTotalLength: X / frequency. */
  function TotalLength(s: Service): (r: real)
    requires s.frequency > 0.0
    ensures r * s.frequency == 142.0
    ensures r > 0.0
  {
    X / s.frequency
  }

  /** GetOnePoleLength: one leg is half the wire. */
  function OnePoleLength(s: Service): (r: real)
    requires s.frequency > 0.0
    ensures r * s.frequency == 71.0
    ensures r > 0.0
  {
    TotalLength(s) / 2.0
  }

  /** GetAntennaHeight: height of the mast top above the anchor points when the
      mast foot is raised by `elevation`. */
  function AntennaHeight(s: Service, elevation: real): (r: real)
    requires s.frequency > 0.0
    ensures (r - elevation) * s.frequency == 35.5
    ensures r > elevation
  {
    CosHalfAngle * OnePoleLength(s) + elevation
  }

  /** GetHeight. */
  function Height(s: Service): (r: real)
    requires Constructed(s)
    ensures (r - s.elevation) * s.frequency == 35.5
    ensures r > s.elevation
  {
    AntennaHeight(s, s.elevation)
  }

  /** GetGroundLength: twice the horizontal projection of a leg, stretched by the
      ratio only when the ratio is positive. For either constructor this is
      2·sin 60°·(71/f + 2·elevation). */
  function GroundLength(s: Service): (r: real)
    requires Constructed(s)
    ensures r * s.frequency == 2.0 * SinHalfAngle * (71.0 + 2.0 * s.elevation * s.frequency)
    ensures r > 0.0
  {
    var length := OnePoleLength(s);
    var groundLength := SinHalfAngle * length * 2.0;
    GroundClosedForm(s, length, groundLength);
    if s.ratio > 0.0 then groundLength * s.ratio else groundLength
  }

  /** GetRopeLengthToAdd: ratio·leg − leg. */
  function RopeLengthToAdd(s: Service): (r: real)
    requires Constructed(s)
    ensures s.ratio == 0.0 ==> r * s.frequency == -71.0
    ensures s.ratio != 0.0 ==> r == 2.0 * s.elevation
  {
    var length := OnePoleLength(s);
    RopeClosedForm(s, length);
    s.ratio * length - length
  }

  // ---------------------------------------------------------------------------
  // Arithmetic steps behind the closed forms above.

  lemma RatioClosedForm(f: real, e: real, h0: real, he: real)
    requires f > 0.0 && e >= 0.0
    requires h0 * f == 35.5 && (he - e) * f == 35.5
    ensures (he / h0) * 35.5 == 35.5 + e * f
    ensures he / h0 >= 1.0 && (he / h0 == 1.0 <==> e == 0.0)
  {
    assert he * f == 35.5 + e * f;
    assert h0 > 0.0;
    assert (he / h0) * h0 == he;
    calc {
      (he / h0) * 35.5;
      (he / h0) * (h0 * f);
      he * f;
    }
  }

  lemma GroundClosedForm(s: Service, length: real, base: real)
    requires Constructed(s)
    requires length * s.frequency == 71.0 && base == SinHalfAngle * length * 2.0
    ensures var g := if s.ratio > 0.0 then base * s.ratio else base;
      g * s.frequency == 2.0 * SinHalfAngle * (71.0 + 2.0 * s.elevation * s.frequency)
  {
    var f, e := s.frequency, s.elevation;
    assert base * f == 2.0 * SinHalfAngle * 71.0;
    if s.ratio > 0.0 {
      var h0 := AntennaHeight(s, 0.0);
      var he := AntennaHeight(s, e);
      RatioClosedForm(f, e, h0, he);
      assert s.ratio * 35.5 == 35.5 + e * f;
      calc {
        base * s.ratio * f;
        (base * f) * s.ratio;
        2.0 * SinHalfAngle * 71.0 * s.ratio;
        2.0 * SinHalfAngle * 2.0 * (s.ratio * 35.5);
        2.0 * SinHalfAngle * 2.0 * (35.5 + e * f);
      }
    }
  }

  lemma RopeClosedForm(s: Service, length: real)
    requires Constructed(s)
    requires length * s.frequency == 71.0
    ensures s.ratio == 0.0 ==> (s.ratio * length - length) * s.frequency == -71.0
    ensures s.ratio != 0.0 ==> s.ratio * length - length == 2.0 * s.elevation
  {
    var f, e := s.frequency, s.elevation;
    if s.ratio != 0.0 {
      var h0 := AntennaHeight(s, 0.0);
      var he := AntennaHeight(s, e);
      RatioClosedForm(f, e, h0, he);
      assert (s.ratio * length - length) * f == 2.0 * e * f by {
        calc {
          (s.ratio * length - length) * f;
          s.ratio * (length * f) - length * f;
          s.ratio * 71.0 - 71.0;
          2.0 * (s.ratio * 35.5) - 71.0;
        }
      }
    }
  }
}
