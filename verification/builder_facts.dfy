/** Properties of the band search and the frequency sweep: monotonicity of the
    fit test, when a band is left out, when the search fails, and the documented
    example scenarios. */
module BuilderFacts {
  import opened Outcomes
  import opened Bands
  import opened Builder
  import Calculator
  import CalculatorFacts

  /** The ground span of the antenna for `f` at rung `q`. */
  lemma SpanAtRung(f: real, q: nat)
    requires Calculator.FrequencyAllowed(f)
    ensures Calculator.GroundLength(ServiceAt(f, q)) * f
            == 2.0 * Calculator.SinHalfAngle * (71.0 + 0.5 * q as real * f)
  {
  }

  /** A band that fits at some rung fits at every lower rung. */
  lemma FitsBelow(g: int, f: real, p: nat, q: nat)
    requires Calculator.FrequencyAllowed(f) && p <= q
    requires Fits(g, f, q)
    ensures Fits(g, f, p)
  {
    if p < q {
      CalculatorFacts.ElevationWidensSpan(ServiceAt(f, p), ServiceAt(f, q));
    }
  }

  /** At one rung, a band that fits keeps fitting at every higher frequency. */
  lemma FitsAbove(g: int, f1: real, f2: real, q: nat)
    requires Calculator.FrequencyAllowed(f1) && Calculator.FrequencyAllowed(f2) && f1 <= f2
    requires Fits(g, f1, q)
    ensures Fits(g, f2, q)
  {
    if f1 < f2 {
      CalculatorFacts.FrequencyNarrowsSpan(ServiceAt(f1, q), ServiceAt(f2, q));
    }
  }

  /** A band is left out exactly when it does not fit even at the last rung tried:
      rung 0 when the maximum elevation is 0, and rung 1 (0.25 m) otherwise. */
  lemma OmittedIffLowestRungTooWide(g: int, f: real, top: nat)
    requires Calculator.FrequencyAllowed(f)
    ensures FirstFit(g, f, top).None? <==> !Fits(g, f, LowestRung(top))
  {
    var r := FirstFit(g, f, top);
    if r.Some? {
      FitsBelow(g, f, LowestRung(top), r.value);
    }
  }

  /** The frequency-sweep fit test, restated for the calculator's ground span. */
  lemma FlatFitsAbove(g: int, f1: real, f2: real)
    requires Calculator.FrequencyAllowed(f1) && Calculator.FrequencyAllowed(f2) && f1 <= f2
    requires FitsFlat(g, f1)
    ensures FitsFlat(g, f2)
  {
    if f1 < f2 {
      var a, b := Calculator.FromFrequency(f1).value, Calculator.FromFrequency(f2).value;
      CalculatorFacts.FrequencyNarrowsSpan(a, b);
    }
  }

  /** A band is left out of the list exactly when it does not fit at the last
      rung tried. */
  lemma BandOmittedIff(g: int, top: nat, band: BandModel)
    requires Calculator.FrequencyAllowed(CenterFrequency(band))
    ensures Describe(g, top, band).None? <==> !Fits(g, CenterFrequency(band), LowestRung(top))
  {
    OmittedIffLowestRungTooWide(g, CenterFrequency(band), top);
  }

  /** The rung a band is recorded at is the highest rung that fits: if rung q is
      tried and fits, and the rung above it is not tried or does not fit, the
      entry is recorded at rung q. */
  lemma RecordedAtRung(g: int, top: nat, band: BandModel, q: nat)
    requires Calculator.FrequencyAllowed(CenterFrequency(band))
    requires OnLadder(top, q) && Fits(g, CenterFrequency(band), q)
    requires q < top ==> !Fits(g, CenterFrequency(band), q + 1)
    ensures Describe(g, top, band).Some?
    ensures RungOf(Describe(g, top, band).value) == q
  {
    var c := CenterFrequency(band);
    var r := RungOf(Describe(g, top, band).value);
    if r > q {
      FitsBelow(g, c, q + 1, r);
    }
  }

  /** For any table, the search fails exactly when the band with the highest
      centre frequency, whose antenna is the shortest, does not fit at the last
      rung tried. */
  lemma NotEnoughSpaceIffHighestBandTooWide(b: AntennaBuilder, table: seq<BandModel>, top: nat)
    requires Valid(b) && CentresAllowed(table) && StrictlyDescending(table)
    requires 0 <= top < |table|
    requires forall j :: 0 <= j < |table| ==> CenterFrequency(table[j]) <= CenterFrequency(table[top])
    ensures WorkableBandsIn(b, table).Err? <==>
      !Fits(b.maxGroundLength, CenterFrequency(table[top]), LowestRung(RungsPerMetre * b.maxElevation))
  {
    var g, rungs := b.maxGroundLength, RungsPerMetre * b.maxElevation;
    var low := LowestRung(rungs);
    var hi := CenterFrequency(table[top]);
    if Fits(g, hi, low) {
      assert Describe(g, rungs, table[top]).Some?;
    } else {
      forall j | 0 <= j < |table|
        ensures Describe(g, rungs, table[j]).None?
      {
        var c := CenterFrequency(table[j]);
        if Fits(g, c, low) {
          FitsAbove(g, c, hi, low);
        }
        forall p | OnLadder(rungs, p)
          ensures !Fits(g, c, p)
        {
          if Fits(g, c, p) {
            FitsBelow(g, c, low, p);
          }
        }
      }
    }
  }

  /** GetWorkableBands throws NotEnoughSpace exactly when the 10 m band (centre
      28.85 MHz) does not fit at the last rung tried. */
  lemma NotEnoughSpaceIffTenMetreBandTooWide(b: AntennaBuilder)
    requires Valid(b)
    ensures WorkableBands(b).Err? <==>
      !Fits(b.maxGroundLength, 28.85, LowestRung(RungsPerMetre * b.maxElevation))
  {
    TableOrder();
    TableCentresAllowed();
    TenMetreCentreHighest();
    NotEnoughSpaceIffHighestBandTooWide(b, HamRadioBands(), 11);
  }

  /** With at most 1000 m of ground, a sweep that starts inside the calculator's range never
      steps below 0.1 MHz, because an antenna that fits there is above 0.12 MHz. */
  lemma {:induction false} SweepStaysInRange(g: int, start: real, k: nat)
    requires g <= 1000
    requires Calculator.FrequencyAllowed(StepFrequency(start, k))
    ensures LastFit(g, start, k).Ok?
    decreases (start * 100.0).Floor - k
  {
    var f := StepFrequency(start, k);
    var s := Calculator.FromFrequency(f).value;
    if Calculator.GroundLength(s) <= g as real {
      assert f > 0.12 by {
        var gl := Calculator.GroundLength(s);
        assert gl * f == 2.0 * Calculator.SinHalfAngle * 71.0;
        assert gl * f <= 1000.0 * f;
      }
      assert StepFrequency(start, k + 1) == f - 0.01;
      SweepStaysInRange(g, start, k + 1);
    }
  }

  /** The fit test of the band search as a comparison of products: the ground
      span at rung q is 2·sin 60°·(71 + 0.5·q·f) / f. */
  lemma FitsIff(g: int, f: real, q: nat)
    requires Calculator.FrequencyAllowed(f)
    ensures Fits(g, f, q) <==>
      2.0 * Calculator.SinHalfAngle * (71.0 + 0.5 * q as real * f) <= g as real * f
  {
    SpanAtRung(f, q);
    var gl := Calculator.GroundLength(ServiceAt(f, q));
    if gl <= g as real {
      assert gl * f <= g as real * f;
    } else {
      assert gl * f > g as real * f;
    }
  }

  /** The fit test of the frequency sweep as a comparison of products. */
  lemma FitsFlatIff(g: int, f: real)
    requires Calculator.FrequencyAllowed(f)
    ensures FitsFlat(g, f) <==> 2.0 * Calculator.SinHalfAngle * 71.0 <= g as real * f
    ensures StopsAt(g, f) <==> !FitsFlat(g, f)
  {
    var gl := FlatGround(f);
    if gl <= g as real {
      assert gl * f <= g as real * f;
    } else {
      assert gl * f > g as real * f;
    }
  }

  /** Leading bands that are left out contribute nothing to the list. */
  lemma {:induction false} RecordedAfterNones(outcomes: seq<Option<AntennaModel>>, k: nat)
    requires k <= |outcomes|
    requires forall j :: 0 <= j < k ==> outcomes[j].None?
    ensures Recorded(outcomes) == Recorded(outcomes[k..])
    decreases k
  {
    if k > 0 {
      var tail := outcomes[1..];
      assert tail[k - 1..] == outcomes[k..];
      assert forall j :: 0 <= j < k - 1 ==> tail[j] == outcomes[j + 1];
      RecordedAfterNones(tail, k - 1);
    }
  }

  /** When every band fits, the list holds one entry per band, in order. */
  lemma {:induction false} RecordedAllSome(outcomes: seq<Option<AntennaModel>>)
    requires forall j :: 0 <= j < |outcomes| ==> outcomes[j].Some?
    ensures |Recorded(outcomes)| == |outcomes|
    ensures forall j :: 0 <= j < |outcomes| ==> Recorded(outcomes)[j] == outcomes[j].value
    decreases |outcomes|
  {
    if |outcomes| > 0 {
      var tail := outcomes[1..];
      assert forall j :: 0 <= j < |tail| ==> tail[j] == outcomes[j + 1];
      RecordedAllSome(tail);
    }
  }

  /** The first entry of the list comes from the first band, in table order, that
      fits at some rung. */
  lemma FirstWorkableBand(b: AntennaBuilder, table: seq<BandModel>, k: nat)
    requires Valid(b) && CentresAllowed(table) && StrictlyDescending(table)
    requires k < |table|
    requires forall j :: 0 <= j < k ==>
      Describe(b.maxGroundLength, RungsPerMetre * b.maxElevation, table[j]).None?
    requires Describe(b.maxGroundLength, RungsPerMetre * b.maxElevation, table[k]).Some?
    ensures WorkableBandsIn(b, table).Ok?
    ensures WorkableBandsIn(b, table).value[0]
            == Describe(b.maxGroundLength, RungsPerMetre * b.maxElevation, table[k]).value
  {
    var outcomes := BandOutcomes(b.maxGroundLength, RungsPerMetre * b.maxElevation, table);
    ListIsRecorded(b, table);
    RecordedFirst(outcomes, k);
  }

  /** After k empty outcomes, the first recorded entry is that of outcome k. */
  lemma RecordedFirst(outcomes: seq<Option<AntennaModel>>, k: nat)
    requires k < |outcomes|
    requires forall j :: 0 <= j < k ==> outcomes[j].None?
    requires outcomes[k].Some?
    ensures |Recorded(outcomes)| > 0 && Recorded(outcomes)[0] == outcomes[k].value
  {
    RecordedAfterNones(outcomes, k);
    var rest := outcomes[k..];
    assert rest[0] == outcomes[k];
    assert Recorded(rest) == [rest[0].value] + Recorded(rest[1..]);
  }

  /** When exactly the first k bands of a table are left out, the list holds one
      entry for each of the remaining bands, in table order. */
  lemma ListAfterOmissions(b: AntennaBuilder, table: seq<BandModel>, k: nat)
    requires Valid(b) && CentresAllowed(table) && StrictlyDescending(table)
    requires k < |table|
    requires forall j :: 0 <= j < |table| ==>
      (Describe(b.maxGroundLength, RungsPerMetre * b.maxElevation, table[j]).None? <==> j < k)
    ensures WorkableBandsIn(b, table).Ok?
    ensures |WorkableBandsIn(b, table).value| == |table| - k
    ensures forall i :: 0 <= i < |table| - k ==>
      (WorkableBandsIn(b, table).value[i]
       == Describe(b.maxGroundLength, RungsPerMetre * b.maxElevation, table[k + i]).value)
  {
    var outcomes := BandOutcomes(b.maxGroundLength, RungsPerMetre * b.maxElevation, table);
    ListIsRecorded(b, table);
    RecordedSuffix(outcomes, k);
  }

  /** Outcomes whose first k entries are empty and the rest filled record the
      filled ones, in order. */
  lemma RecordedSuffix(outcomes: seq<Option<AntennaModel>>, k: nat)
    requires k < |outcomes|
    requires forall j :: 0 <= j < |outcomes| ==> (outcomes[j].None? <==> j < k)
    ensures |Recorded(outcomes)| == |outcomes| - k
    ensures forall i :: 0 <= i < |outcomes| - k ==> Recorded(outcomes)[i] == outcomes[k + i].value
  {
    RecordedAfterNones(outcomes, k);
    var rest := outcomes[k..];
    assert forall j :: 0 <= j < |rest| ==> rest[j] == outcomes[k + j];
    RecordedAllSome(rest);
  }

  /** The list holds the recorded outcomes of the bands in table order, since a
      table in descending designator order is not reordered. */
  lemma ListIsRecorded(b: AntennaBuilder, table: seq<BandModel>)
    requires Valid(b) && CentresAllowed(table) && StrictlyDescending(table)
    ensures var outcomes := BandOutcomes(b.maxGroundLength, RungsPerMetre * b.maxElevation, table);
      WorkableBandsIn(b, table)
      == if |Recorded(outcomes)| == 0 then Err(NotEnoughSpace(b.maxGroundLength))
         else Ok(Recorded(outcomes))
  {
    OrderedInputUnchanged(table);
  }

  /** The fields of the entries in the list of ListAfterOmissions: each carries
      its band's designator, centre and lower edge, and an elevation on the
      ladder of rungs tried. */
  lemma ListAfterOmissionsFields(b: AntennaBuilder, table: seq<BandModel>, k: nat)
    requires Valid(b) && CentresAllowed(table) && StrictlyDescending(table)
    requires k < |table|
    requires forall j :: 0 <= j < |table| ==>
      (Describe(b.maxGroundLength, RungsPerMetre * b.maxElevation, table[j]).None? <==> j < k)
    ensures WorkableBandsIn(b, table).Ok?
    ensures |WorkableBandsIn(b, table).value| == |table| - k
    ensures forall i :: 0 <= i < |table| - k ==>
      var m := WorkableBandsIn(b, table).value[i];
      && m.band == table[k + i].band
      && m.centerFrequency == CenterFrequency(table[k + i])
      && m.minFrequency == table[k + i].minFrequency
      && OnLadder(RungsPerMetre * b.maxElevation, RungOf(m))
      && m.maxElevation == ElevationOf(RungOf(m))
  {
    ListAfterOmissions(b, table, k);
  }

  /** The sweep result is determined by where the fitting steps end: if steps k
      to m all fit and step m + 1 stops the loop, the sweep from k reports m. */
  lemma {:induction false} LastFitIs(g: int, start: real, k: nat, m: int)
    requires k - 1 <= m
    requires forall i :: k <= i <= m ==> FitsFlat(g, StepFrequency(start, i))
    requires StopsAt(g, StepFrequency(start, m + 1))
    ensures LastFit(g, start, k) == Ok(m)
    decreases m - k
  {
    if k <= m {
      assert FitsFlat(g, StepFrequency(start, k));
      LastFitIs(g, start, k + 1, m);
    }
  }

  /** If steps k to m all fit and step m + 1 is a positive frequency below the
      calculator's range, the sweep fails with an out-of-range frequency. */
  lemma {:induction false} LastFitLeavesRange(g: int, start: real, k: nat, m: int)
    requires k - 1 <= m
    requires forall i :: k <= i <= m ==> FitsFlat(g, StepFrequency(start, i))
    requires 0.0 < StepFrequency(start, m + 1) < Calculator.MinFrequencyAllowed
    ensures LastFit(g, start, k) == Err(OutOfRange(Frequency))
    decreases m - k
  {
    if k <= m {
      assert FitsFlat(g, StepFrequency(start, k));
      LastFitLeavesRange(g, start, k + 1, m);
    }
  }

  /** For any table whose lower band edges the calculator accepts, and at most
      1000 m of ground, the sweep never leaves the calculator's range, so the
      search fails only with NotEnoughSpace. */
  lemma MaxAntennaLengthInFailsOnlyForSpace(b: AntennaBuilder, table: seq<BandModel>)
    requires Valid(b) && CentresAllowed(table) && StrictlyDescending(table)
    requires forall j :: 0 <= j < |table| ==> Calculator.FrequencyAllowed(table[j].minFrequency)
    requires b.maxGroundLength <= 1000
    ensures MaxAntennaLengthIn(b, table).Err? ==>
      MaxAntennaLengthIn(b, table).error == NotEnoughSpace(b.maxGroundLength)
  {
    var w := WorkableBandsIn(b, table);
    if w.Ok? {
      FirstEntryEdge(b, table);
      SweepStaysInRange(b.maxGroundLength, w.value[0].minFrequency, 0);
    }
  }

  /** The sweep starts at the lower edge of a band of the table. */
  lemma FirstEntryEdge(b: AntennaBuilder, table: seq<BandModel>)
    requires Valid(b) && CentresAllowed(table) && StrictlyDescending(table)
    requires WorkableBandsIn(b, table).Ok?
    ensures exists j :: 0 <= j < |table| && WorkableBandsIn(b, table).value[0].minFrequency == table[j].minFrequency
  {
    var outcomes := BandOutcomes(b.maxGroundLength, RungsPerMetre * b.maxElevation, table);
    var first := WorkableBandsIn(b, table).value[0];
    assert Some(first) in outcomes;
    var j :| 0 <= j < |outcomes| && outcomes[j] == Some(first);
    assert first.minFrequency == table[j].minFrequency;
  }

  /** With at most 1000 m of ground, GetMaxAntennaLength fails only with
      NotEnoughSpace. */
  lemma MaxAntennaLengthFailsOnlyForSpace(b: AntennaBuilder)
    requires Valid(b) && b.maxGroundLength <= 1000
    ensures MaxAntennaLength(b).Err? ==> MaxAntennaLength(b).error == NotEnoughSpace(b.maxGroundLength)
  {
    TableOrder();
    TableCentresAllowed();
    TableEdges();
    MaxAntennaLengthInFailsOnlyForSpace(b, HamRadioBands());
  }
}
