/** AntennaBuilder: which bands fit on a given length of ground, and the lowest
    frequency whose antenna still fits. Elevations are counted in quarter-metre
    rungs (rung q is q·0.25 m) and sweep frequencies in 0.01 MHz steps below the
    starting frequency, so both searches run over integers. */
module Builder {
  import opened Outcomes
  import opened Bands
  import Calculator

  const MinGroundLengthAllowed: int := 1  // metres
  const MinElevationAllowed: int := 0     // metres
  const FrequencyStep: real := 0.01       // MHz
  const ElevationStep: real := 0.25       // metres
  /** Rungs per metre of elevation (1 / ElevationStep). */
  const RungsPerMetre: int := 4

  /** The two private fields of an AntennaBuilder. */
  datatype AntennaBuilder = AntennaBuilder(maxGroundLength: int, maxElevation: int)

  /** One workable band. `totalLength` is the ground span, as in the source. */
  datatype AntennaModel = AntennaModel(
    band: int,
    centerFrequency: real,
    minFrequency: real,
    height: real,
    maxElevation: real,
    totalLength: real)

  /** The longest antenna found by the frequency sweep. */
  datatype AntennaMaxModel = AntennaMaxModel(
    minFrequency: real,
    antennaLength: real,
    groundLength: real,
    height: real)

  const NoAntenna := AntennaMaxModel(0.0, 0.0, 0.0, 0.0)

  /** The states the two constructors can produce. */
  predicate Valid(b: AntennaBuilder) {
    b.maxGroundLength >= MinGroundLengthAllowed && b.maxElevation >= MinElevationAllowed
  }

  /** AntennaBuilder(maxGroundLength). */
  function FromGroundLength(maxGroundLength: int): (r: Result<AntennaBuilder>)
    ensures r.Ok? <==> maxGroundLength >= 1
    ensures r.Err? ==> r.error == OutOfRange(MaxGroundLength)
    ensures r.Ok? ==> Valid(r.value) && r.value == AntennaBuilder(maxGroundLength, 0)
  {
    if maxGroundLength < MinGroundLengthAllowed then Err(OutOfRange(MaxGroundLength))
    else Ok(AntennaBuilder(maxGroundLength, 0))
  }

  /** AntennaBuilder(maxGroundLength, maxElevation): the ground length is checked first. */
  function FromGroundLengthAndElevation(maxGroundLength: int, maxElevation: int): (r: Result<AntennaBuilder>)
    ensures r.Ok? <==> maxGroundLength >= 1 && maxElevation >= 0
    ensures maxGroundLength < 1 ==> r == Err(OutOfRange(MaxGroundLength))
    ensures maxGroundLength >= 1 && maxElevation < 0 ==> r == Err(OutOfRange(MaxElevation))
    ensures r.Ok? ==> Valid(r.value) && r.value == AntennaBuilder(maxGroundLength, maxElevation)
  {
    var b :- FromGroundLength(maxGroundLength);
    if maxElevation < MinElevationAllowed then Err(OutOfRange(MaxElevation))
    else Ok(b.(maxElevation := maxElevation))
  }

  // ---------------------------------------------------------------------------
  // The elevation ladder of one band.

  function ElevationOf(q: int): real {
    q as real * ElevationStep
  }

  /** The calculator the search builds for frequency `f` at rung `q`. */
  function ServiceAt(f: real, q: nat): (s: Calculator.Service)
    requires Calculator.FrequencyAllowed(f)
    ensures Calculator.Constructed(s)
    ensures s.frequency == f && s.elevation == ElevationOf(q)
  {
    Calculator.FromFrequencyAndElevation(f, ElevationOf(q)).value
  }

  /** The antenna for `f` at rung `q` spans no more than `g` metres of ground. */
  predicate Fits(g: int, f: real, q: nat)
    requires Calculator.FrequencyAllowed(f)
  {
    Calculator.GroundLength(ServiceAt(f, q)) <= g as real
  }

  /** The rungs tried when the search starts at rung `top`: every rung from `top`
      down to 1, or rung 0 alone when `top` is 0. */
  predicate OnLadder(top: nat, q: int) {
    if top == 0 then q == 0 else 1 <= q <= top
  }

  /** The last rung tried from `top`. */
  function LowestRung(top: nat): (q: nat)
    ensures OnLadder(top, q)
    ensures forall p :: OnLadder(top, p) ==> q <= p
  {
    if top == 0 then 0 else 1
  }

  /** The do/while loop of GetWorkableBands for one band: try rung q, step down one
      rung, and go on while the rung is still above 0 and nothing fitted. */
  function FirstFit(g: int, f: real, q: nat): (r: Option<nat>)
    requires Calculator.FrequencyAllowed(f)
    ensures r.Some? ==> OnLadder(q, r.value) && Fits(g, f, r.value)
    ensures r.Some? ==> forall p :: r.value < p <= q ==> !Fits(g, f, p)
    ensures r.None? ==> forall p :: OnLadder(q, p) ==> !Fits(g, f, p)
    decreases q
  {
    if Fits(g, f, q) then Some(q)
    else if q - 1 > 0 then FirstFit(g, f, q - 1)
    else None
  }

  /** The rung an entry was recorded at. */
  function RungOf(m: AntennaModel): int {
    (m.maxElevation * RungsPerMetre as real).Floor
  }

  /** The entry GetWorkableBands records for `band`, if any rung fits. */
  function Describe(g: int, top: nat, band: BandModel): (r: Option<AntennaModel>)
    requires Calculator.FrequencyAllowed(CenterFrequency(band))
    ensures r.None? <==> forall p :: OnLadder(top, p) ==> !Fits(g, CenterFrequency(band), p)
    ensures r.Some? ==> var m := r.value; var c := CenterFrequency(band);
      && m.band == band.band
      && m.centerFrequency == c
      && m.minFrequency == band.minFrequency
      && 0 <= RungOf(m) && m.maxElevation == ElevationOf(RungOf(m))
      && OnLadder(top, RungOf(m))
      && Fits(g, c, RungOf(m))
      && (forall p :: RungOf(m) < p <= top ==> !Fits(g, c, p))
      && m.totalLength == Calculator.GroundLength(ServiceAt(c, RungOf(m)))
      && m.totalLength <= g as real
      && m.height == Calculator.Height(ServiceAt(c, RungOf(m)))
  {
    var c := CenterFrequency(band);
    match FirstFit(g, c, top)
    case None => None
    case Some(q) =>
      var s := ServiceAt(c, q);
      assert (ElevationOf(q) * RungsPerMetre as real).Floor == q;
      Some(AntennaModel(band.band, c, band.minFrequency, Calculator.Height(s), ElevationOf(q),
                        Calculator.GroundLength(s)))
  }

  /** The outcome of the do/while loop for each band, in the order of `bands`. */
  function BandOutcomes(g: int, top: nat, bands: seq<BandModel>): (r: seq<Option<AntennaModel>>)
    requires CentresAllowed(bands)
    ensures |r| == |bands|
    ensures forall j :: 0 <= j < |bands| ==> r[j] == Describe(g, top, bands[j])
    ensures forall j :: 0 <= j < |bands| && r[j].Some? ==> r[j].value.band == bands[j].band
    ensures StrictlyDescending(bands) ==> DescendingOutcomes(r)
  {
    seq(|bands|, j requires 0 <= j < |bands| => Describe(g, top, bands[j]))
  }

  /** The foreach loop of GetWorkableBands: the recorded entries, in order. */
  function Recorded(outcomes: seq<Option<AntennaModel>>): (r: seq<AntennaModel>)
    ensures |r| <= |outcomes|
    ensures forall m :: m in r <==> Some(m) in outcomes
    ensures |r| == 0 <==> forall j :: 0 <= j < |outcomes| ==> outcomes[j].None?
    decreases |outcomes|
  {
    if |outcomes| == 0 then []
    else
      var rest := Recorded(outcomes[1..]);
      assert outcomes == [outcomes[0]] + outcomes[1..];
      match outcomes[0]
      case None => rest
      case Some(m) => [m] + rest
  }

  /** Entries keep the relative order of the outcomes they come from. */
  predicate DescendingOutcomes(outcomes: seq<Option<AntennaModel>>) {
    forall i, k :: 0 <= i < k < |outcomes| && outcomes[i].Some? && outcomes[k].Some? ==>
      outcomes[i].value.band > outcomes[k].value.band
  }

  predicate DescendingEntries(list: seq<AntennaModel>) {
    forall i, k :: 0 <= i < k < |list| ==> list[i].band > list[k].band
  }

  lemma {:induction false} RecordedKeepsOrder(outcomes: seq<Option<AntennaModel>>)
    requires DescendingOutcomes(outcomes)
    ensures DescendingEntries(Recorded(outcomes))
    decreases |outcomes|
  {
    if |outcomes| > 0 {
      var tail := outcomes[1..];
      assert DescendingOutcomes(tail) by {
        forall i, k | 0 <= i < k < |tail| && tail[i].Some? && tail[k].Some?
          ensures tail[i].value.band > tail[k].value.band
        {
          assert tail[i] == outcomes[i + 1] && tail[k] == outcomes[k + 1];
        }
      }
      RecordedKeepsOrder(tail);
      if outcomes[0].Some? {
        var r := Recorded(outcomes);
        var rest := Recorded(tail);
        assert r == [outcomes[0].value] + rest;
        forall k | 0 <= k < |rest|
          ensures outcomes[0].value.band > rest[k].band
        {
          assert Some(rest[k]) in tail;
          var j :| 0 <= j < |tail| && tail[j] == Some(rest[k]);
          assert outcomes[j + 1] == tail[j];
        }
      }
    }
  }

  /** The body of GetWorkableBands for any table of bands. */
  function WorkableBandsIn(b: AntennaBuilder, table: seq<BandModel>): (r: Result<seq<AntennaModel>>)
    requires Valid(b) && CentresAllowed(table) && StrictlyDescending(table)
    ensures r.Err? <==> forall j :: 0 <= j < |table| ==>
      Describe(b.maxGroundLength, RungsPerMetre * b.maxElevation, table[j]).None?
    ensures r.Err? ==> r.error == NotEnoughSpace(b.maxGroundLength)
    ensures r.Ok? ==> 0 < |r.value| <= |table|
    ensures r.Ok? ==> DescendingEntries(r.value)
    ensures r.Ok? ==> forall m :: m in r.value <==>
      Some(m) in BandOutcomes(b.maxGroundLength, RungsPerMetre * b.maxElevation, table)
  {
    var bands := OrderByBandDescending(table);
    OrderedInputUnchanged(table);
    var outcomes := BandOutcomes(b.maxGroundLength, RungsPerMetre * b.maxElevation, bands);
    var list := Recorded(outcomes);
    RecordedKeepsOrder(outcomes);
    if |list| == 0 then Err(NotEnoughSpace(b.maxGroundLength)) else Ok(list)
  }

  /** GetWorkableBands. */
  function WorkableBands(b: AntennaBuilder): (r: Result<seq<AntennaModel>>)
    requires Valid(b)
    ensures CentresAllowed(HamRadioBands()) && StrictlyDescending(HamRadioBands())
    ensures r == WorkableBandsIn(b, HamRadioBands())
  {
    TableOrder();
    TableCentresAllowed();
    WorkableBandsIn(b, HamRadioBands())
  }

  // ---------------------------------------------------------------------------
  // The frequency sweep of GetMaxAntennaLength.

  /** The frequency tested at step k of a sweep starting at `start`. */
  function StepFrequency(start: real, k: int): real {
    start - k as real * FrequencyStep
  }

  /** The ground span of the frequency-only calculator at `f`. */
  function FlatGround(f: real): (r: real)
    requires Calculator.FrequencyAllowed(f)
    ensures r * f == 2.0 * Calculator.SinHalfAngle * 71.0
  {
    Calculator.GroundLength(Calculator.FromFrequency(f).value)
  }

  /** A sweep frequency the loop accepts and records. */
  predicate FitsFlat(g: int, f: real) {
    f > 0.0 && Calculator.FrequencyAllowed(f) && FlatGround(f) <= g as real
  }

  /** A sweep frequency at which the loop ends without recording anything. */
  predicate StopsAt(g: int, f: real) {
    f <= 0.0 || (Calculator.FrequencyAllowed(f) && FlatGround(f) > g as real)
  }

  /** The for loop of GetMaxAntennaLength from step k: the index of the last step
      that fits before the first one that does not (k - 1 when step k itself
      does not fit). A step whose frequency is positive but outside the range the
      calculator accepts makes the calculator throw. */
  function LastFit(g: int, start: real, k: nat): (r: Result<int>)
    ensures r.Ok? ==> k - 1 <= r.value
    ensures r.Ok? ==> forall i :: k <= i <= r.value ==> FitsFlat(g, StepFrequency(start, i))
    ensures r.Ok? ==> StopsAt(g, StepFrequency(start, r.value + 1))
    ensures StopsAt(g, StepFrequency(start, k)) ==> r == Ok(k - 1)
    ensures r.Err? ==> r.error == OutOfRange(Frequency)
    ensures r.Err? ==> LeavesRange(g, start, k)
    decreases (start * 100.0).Floor - k
  {
    var f := StepFrequency(start, k);
    if f <= 0.0 then Ok(k - 1)
    else
      var s :- Calculator.FromFrequency(f);
      if Calculator.GroundLength(s) <= g as real then LastFit(g, start, k + 1)
      else Ok(k - 1)
  }

  /** Some step from k on is a positive frequency the calculator rejects, and every
      step before it fits, so the loop reaches it. */
  ghost predicate LeavesRange(g: int, start: real, k: int) {
    exists i :: k <= i
      && (forall j :: k <= j < i ==> FitsFlat(g, StepFrequency(start, j)))
      && StepFrequency(start, i) > 0.0
      && !Calculator.FrequencyAllowed(StepFrequency(start, i))
  }

  /** The record the loop keeps for the frequency-only calculator at `f`. */
  function Record(f: real): (r: AntennaMaxModel)
    requires Calculator.FrequencyAllowed(f)
    ensures r.minFrequency == f && r != NoAntenna
    ensures r.groundLength == FlatGround(f)
    ensures r.antennaLength * f == 142.0
    ensures r.height * f == 35.5
  {
    var s := Calculator.FromFrequency(f).value;
    AntennaMaxModel(f, Calculator.TotalLength(s), Calculator.GroundLength(s), Calculator.Height(s))
  }

  /** `m` records a frequency at or below `start` that fits, with its wire length,
      ground span and height, and the next step down does not fit. */
  predicate LastFitting(g: int, start: real, m: AntennaMaxModel) {
    var f := m.minFrequency;
    && FitsFlat(g, f)
    && ((start - f) * 100.0).Floor as real == (start - f) * 100.0
    && StopsAt(g, f - FrequencyStep)
    && f <= start
    && m.groundLength == FlatGround(f) <= g as real
    && m.antennaLength * f == 142.0
    && m.height * f == 35.5
  }

  /** The sweep of GetMaxAntennaLength from `start`, at ground level: the record
      of the last frequency that fits before the first one that does not, or all
      zeros when `start` itself does not fit. */
  function Sweep(g: int, start: real): (r: Result<AntennaMaxModel>)
    ensures r.Err? ==> r.error == OutOfRange(Frequency)
    ensures r.Err? ==> LeavesRange(g, start, 0)
    ensures StopsAt(g, start) ==> r == Ok(NoAntenna)
    ensures r.Ok? ==> (r.value == NoAntenna <==> StopsAt(g, start))
    ensures r.Ok? && r.value != NoAntenna ==> LastFitting(g, start, r.value)
  {
    var last :- LastFit(g, start, 0);
    SweepSteps(g, start, last);
    if last < 0 then Ok(NoAntenna)
    else
      Ok(Record(StepFrequency(start, last)))
  }

  /** GetMaxAntennaLength for any table of bands: the sweep starts at the minimum
      frequency of the first (highest-designator) workable band. */
  function MaxAntennaLengthIn(b: AntennaBuilder, table: seq<BandModel>): (r: Result<AntennaMaxModel>)
    requires Valid(b) && CentresAllowed(table) && StrictlyDescending(table)
    ensures WorkableBandsIn(b, table).Err? ==> r == Err(WorkableBandsIn(b, table).error)
    ensures r.Err? ==> r.error == NotEnoughSpace(b.maxGroundLength) || r.error == OutOfRange(Frequency)
    ensures WorkableBandsIn(b, table).Ok? ==>
      r == Sweep(b.maxGroundLength, WorkableBandsIn(b, table).value[0].minFrequency)
  {
    var bands :- WorkableBandsIn(b, table);
    Sweep(b.maxGroundLength, bands[0].minFrequency)
  }

  /** GetMaxAntennaLength. */
  function MaxAntennaLength(b: AntennaBuilder): (r: Result<AntennaMaxModel>)
    requires Valid(b)
    ensures CentresAllowed(HamRadioBands()) && StrictlyDescending(HamRadioBands())
    ensures r == MaxAntennaLengthIn(b, HamRadioBands())
  {
    TableOrder();
    TableCentresAllowed();
    MaxAntennaLengthIn(b, HamRadioBands())
  }

  /** What a completed sweep from `start` says about its first and last steps. */
  lemma SweepSteps(g: int, start: real, last: int)
    requires -1 <= last
    requires forall i :: 0 <= i <= last ==> FitsFlat(g, StepFrequency(start, i))
    requires StopsAt(g, StepFrequency(start, last + 1))
    ensures StepFrequency(start, 0) == start
    ensures last < 0 <==> StopsAt(g, start)
    ensures last >= 0 ==> FitsFlat(g, StepFrequency(start, last))
    ensures last >= 0 ==> LastFitting(g, start, Record(StepFrequency(start, last)))
  {
    if last >= 0 {
      assert FitsFlat(g, StepFrequency(start, 0));
      LastStepFitting(g, start, last);
    }
  }

  /** The record of the last step that fits, followed by one that does not. */
  lemma LastStepFitting(g: int, start: real, last: nat)
    requires FitsFlat(g, StepFrequency(start, last))
    requires StopsAt(g, StepFrequency(start, last + 1))
    ensures LastFitting(g, start, Record(StepFrequency(start, last)))
  {
    var f := StepFrequency(start, last);
    var m := Record(f);
    assert m.minFrequency == f && f <= start;
    assert (start - f) * 100.0 == last as real;
    assert ((start - f) * 100.0).Floor == last;
    assert StepFrequency(start, last + 1) == f - FrequencyStep;
  }
}
