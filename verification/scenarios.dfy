/** The behaviour the library's own test suite describes, worked out from the
    formulas for particular ground lengths and elevations. */
module Scenarios {
  import opened Outcomes
  import opened Rounding
  import opened Bands
  import opened Builder
  import Calculator
  import BuilderFacts

  /** On 26 m of ground at ground level the four longest bands do not fit: the
      antenna for a centre f spans 2·sin 60°·71 / f metres, more than 26 m below
      about 4.73 MHz. */
  lemma LongBandsOmittedAtTwentySixMetres()
    ensures |HamRadioBands()| == 12
    ensures CentresAllowed(HamRadioBands())
    ensures forall j :: 0 <= j < 4 ==> Describe(26, 0, HamRadioBands()[j]).None?
  {
    TableCentresAllowed();
    TableCentresAre();
    var t := HamRadioBands();
    forall j | 0 <= j < 4
      ensures Describe(26, 0, t[j]).None?
    {
      BuilderFacts.BandOmittedIff(26, 0, t[j]);
      BuilderFacts.FitsIff(26, CenterFrequency(t[j]), 0);
    }
  }

  /** On 26 m of ground at ground level the bands from 60 m up fit. */
  lemma ShortBandsKeptAtTwentySixMetres()
    ensures |HamRadioBands()| == 12
    ensures CentresAllowed(HamRadioBands())
    ensures forall j :: 4 <= j < 12 ==> Describe(26, 0, HamRadioBands()[j]).Some?
  {
    TableCentresAllowed();
    TableCentresAre();
    var t := HamRadioBands();
    forall j | 4 <= j < 12
      ensures Describe(26, 0, t[j]).Some?
    {
      BuilderFacts.BandOmittedIff(26, 0, t[j]);
      BuilderFacts.FitsIff(26, CenterFrequency(t[j]), 0);
    }
  }

  /** Which bands are left out on 26 m of ground at ground level. */
  lemma OmittedAtTwentySixMetres()
    ensures |HamRadioBands()| == 12
    ensures CentresAllowed(HamRadioBands())
    ensures forall j :: 0 <= j < 12 ==> (Describe(26, 0, HamRadioBands()[j]).None? <==> j < 4)
  {
    LongBandsOmittedAtTwentySixMetres();
    ShortBandsKeptAtTwentySixMetres();
  }

  /** On 26 m of ground at ground level the eight bands from 60 m to 10 m
      (designators 60, 40, 30, 20, 17, 15, 12, 10) are listed, each at elevation
      0, and the longer four are not. */
  lemma TwentySixMetresAtGroundLevel(b: AntennaBuilder)
    requires b == AntennaBuilder(26, 0)
    ensures WorkableBands(b).Ok?
    ensures |WorkableBands(b).value| == 8
    ensures forall i :: 0 <= i < 8 ==>
      && WorkableBands(b).value[i].band == TableDesignators[i + 4]
      && WorkableBands(b).value[i].centerFrequency == TableCentres[i + 4]
      && WorkableBands(b).value[i].maxElevation == 0.0
    ensures WorkableBands(b).value[0].minFrequency == 5.3515
  {
    TableOrder();
    TableCentresAre();
    OmittedAtTwentySixMetres();
    assert HamRadioBands()[4].minFrequency == 5.3515;
    BuilderFacts.ListAfterOmissionsFields(b, HamRadioBands(), 4);
  }

  /** On 3 m of ground even the 10 m antenna, which spans about 4.26 m, does not
      fit, so both searches fail with NotEnoughSpace. */
  lemma ThreeMetresIsNotEnough(b: AntennaBuilder)
    requires b == AntennaBuilder(3, 0)
    ensures WorkableBands(b) == Err(NotEnoughSpace(3))
    ensures MaxAntennaLength(b) == Err(NotEnoughSpace(3))
  {
    BuilderFacts.NotEnoughSpaceIffTenMetreBandTooWide(b);
    BuilderFacts.FitsIff(3, 28.85, 0);
  }

  /** Allowing the antenna to be raised can lose bands: on 5 m of ground the 10 m
      antenna fits at ground level, but with a maximum elevation of 1 m the
      search stops at 0.25 m, where it spans about 5.13 m, and never tries
      ground level. */
  lemma ElevationAllowanceLosesTenMetreBand(low: AntennaBuilder, raised: AntennaBuilder)
    requires low == AntennaBuilder(5, 0) && raised == AntennaBuilder(5, 1)
    ensures WorkableBands(low).Ok?
    ensures WorkableBands(raised) == Err(NotEnoughSpace(5))
  {
    BuilderFacts.NotEnoughSpaceIffTenMetreBandTooWide(low);
    BuilderFacts.NotEnoughSpaceIffTenMetreBandTooWide(raised);
    BuilderFacts.FitsIff(5, 28.85, 0);
    BuilderFacts.FitsIff(5, 28.85, 1);
  }

  /** From the lower edge of the 60 m band, 5.3515 MHz, the sweep on 26 m of
      ground fits 63 steps and stops at 4.7215 MHz. */
  lemma SweepFromSixtyMetres()
    ensures Sweep(26, 5.3515) == Ok(Record(4.7315))
  {
    forall i | 0 <= i <= 62
      ensures FitsFlat(26, StepFrequency(5.3515, i))
    {
      BuilderFacts.FitsFlatIff(26, StepFrequency(5.3515, i));
    }
    BuilderFacts.FitsFlatIff(26, StepFrequency(5.3515, 63));
    BuilderFacts.LastFitIs(26, 5.3515, 0, 62);
    assert StepFrequency(5.3515, 62) == 4.7315;
  }

  /** The longest antenna on 26 m of ground: 4.7315 MHz, a 30.01 m wire spanning
      25.99 m of ground, with the apex 7.50 m up (all rounded to hundredths). */
  lemma TwentySixMetreSweep(b: AntennaBuilder)
    requires b == AntennaBuilder(26, 0)
    ensures MaxAntennaLength(b).Ok?
    ensures MaxAntennaLength(b).value.minFrequency == 4.7315
    ensures Round2(MaxAntennaLength(b).value.height) == 7.5
    ensures Round2(MaxAntennaLength(b).value.antennaLength) == 30.01
    ensures Round2(MaxAntennaLength(b).value.groundLength) == 25.99
  {
    TwentySixMetresAtGroundLevel(b);
    SweepFromSixtyMetres();
    var m := Record(4.7315);
    Round2Near(m.height, 750);
    Round2Near(m.antennaLength, 3001);
    Round2Near(m.groundLength, 2599);
  }

  /** On 34 m of ground the longest three bands do not fit at their centres and
      the 80 m band does: its centre, 3.65 MHz, spans about 33.69 m, while the
      160 m centre spans about 67.2 m. */
  lemma OmittedAtThirtyFourMetres()
    ensures |HamRadioBands()| == 12
    ensures CentresAllowed(HamRadioBands())
    ensures forall j :: 0 <= j < 4 ==> (Describe(34, 0, HamRadioBands()[j]).None? <==> j < 3)
  {
    TableCentresAllowed();
    TableCentresAre();
    var t := HamRadioBands();
    forall j | 0 <= j < 4
      ensures Describe(34, 0, t[j]).None? <==> j < 3
    {
      BuilderFacts.BandOmittedIff(34, 0, t[j]);
      BuilderFacts.FitsIff(34, CenterFrequency(t[j]), 0);
    }
  }

  /** On 34 m of ground the list starts with the 80 m band. */
  lemma FirstBandAtThirtyFourMetres(b: AntennaBuilder)
    requires b == AntennaBuilder(34, 0)
    ensures WorkableBands(b).Ok?
    ensures WorkableBands(b).value[0].band == 80
    ensures WorkableBands(b).value[0].minFrequency == 3.5
  {
    TableOrder();
    OmittedAtThirtyFourMetres();
    BuilderFacts.FirstWorkableBand(b, HamRadioBands(), 3);
    assert HamRadioBands()[3].minFrequency == 3.5;
  }

  /** The antenna for 3.5 MHz spans about 35.14 m, so a sweep from there on 34 m of
      ground records nothing. */
  lemma SweepFromEightyMetres()
    ensures Sweep(34, 3.5) == Ok(NoAntenna)
  {
    BuilderFacts.FitsFlatIff(34, 3.5);
    BuilderFacts.LastFitIs(34, 3.5, 0, -1);
  }

  /** On 34 m of ground the 80 m band fits at its centre, but the sweep starts at
      its lower edge, which does not fit: nothing is recorded and the result is
      all zeros. */
  lemma ThirtyFourMetresRecordsNothing(b: AntennaBuilder)
    requires b == AntennaBuilder(34, 0)
    ensures WorkableBands(b).Ok? && WorkableBands(b).value[0].band == 80
    ensures MaxAntennaLength(b) == Ok(NoAntenna)
  {
    FirstBandAtThirtyFourMetres(b);
    SweepFromEightyMetres();
  }

  /** On 2000 m of ground the 2200 m band, the first in the table, fits. */
  lemma FirstBandAtTwoKilometres(b: AntennaBuilder)
    requires b == AntennaBuilder(2000, 0)
    ensures WorkableBands(b).Ok?
    ensures WorkableBands(b).value[0].band == 2200
    ensures WorkableBands(b).value[0].minFrequency == 0.1357
  {
    TableOrder();
    TableCentresAllowed();
    TableCentresAre();
    var t := HamRadioBands();
    BuilderFacts.FitsIff(2000, 0.14, 0);
    BuilderFacts.BandOmittedIff(2000, 0, t[0]);
    BuilderFacts.FirstWorkableBand(b, t, 0);
    assert t[0].minFrequency == 0.1357;
  }

  /** A sweep from 0.1357 MHz on 2000 m of ground fits four steps; the fifth,
      0.0957 MHz, is below the calculator's range, which rejects it. */
  lemma SweepFromTwoKilometreBand()
    ensures Sweep(2000, 0.1357) == Err(OutOfRange(Frequency))
  {
    forall i | 0 <= i <= 3
      ensures FitsFlat(2000, StepFrequency(0.1357, i))
    {
      BuilderFacts.FitsFlatIff(2000, StepFrequency(0.1357, i));
    }
    BuilderFacts.LastFitLeavesRange(2000, 0.1357, 0, 3);
  }

  /** On 2000 m of ground every band fits, and the sweep from the lower edge of the
      2200 m band leaves the calculator's range before it finds a frequency that
      does not fit. */
  lemma TwoKilometresLeavesRange(b: AntennaBuilder)
    requires b == AntennaBuilder(2000, 0)
    ensures WorkableBands(b).Ok? && WorkableBands(b).value[0].band == 2200
    ensures MaxAntennaLength(b) == Err(OutOfRange(Frequency))
  {
    FirstBandAtTwoKilometres(b);
    SweepFromTwoKilometreBand();
  }

  /** With 26 m of ground and up to 5 m of elevation (rung 20) the longest four
      bands do not fit even at 0.25 m. */
  lemma LongBandsOmittedWhenRaised()
    ensures |HamRadioBands()| == 12
    ensures CentresAllowed(HamRadioBands())
    ensures forall j :: 0 <= j < 4 ==> Describe(26, 20, HamRadioBands()[j]).None?
  {
    TableCentresAllowed();
    TableCentresAre();
    var t := HamRadioBands();
    forall j | 0 <= j < 4
      ensures Describe(26, 20, t[j]).None?
    {
      BuilderFacts.BandOmittedIff(26, 20, t[j]);
      BuilderFacts.FitsIff(26, CenterFrequency(t[j]), 1);
    }
  }

  /** The 60 m band on 26 m of ground fits up to rung 3 (0.75 m). */
  lemma SixtyMetresRaised()
    ensures |HamRadioBands()| == 12
    ensures CentresAllowed(HamRadioBands())
    ensures Describe(26, 20, HamRadioBands()[4]).Some?
    ensures Describe(26, 20, HamRadioBands()[4]).value.maxElevation == 0.75
  {
    TableCentresAllowed();
    TableCentresAre();
    var t := HamRadioBands();
    BuilderFacts.FitsIff(26, 5.36, 3);
    BuilderFacts.FitsIff(26, 5.36, 4);
    BuilderFacts.RecordedAtRung(26, 20, t[4], 3);
  }

  /** The 40 m band on 26 m of ground fits up to rung 10 (2.5 m). */
  lemma FortyMetresRaised()
    ensures |HamRadioBands()| == 12
    ensures CentresAllowed(HamRadioBands())
    ensures Describe(26, 20, HamRadioBands()[5]).Some?
    ensures Describe(26, 20, HamRadioBands()[5]).value.maxElevation == 2.5
  {
    TableCentresAllowed();
    TableCentresAre();
    var t := HamRadioBands();
    BuilderFacts.FitsIff(26, 7.1, 10);
    BuilderFacts.FitsIff(26, 7.1, 11);
    BuilderFacts.RecordedAtRung(26, 20, t[5], 10);
  }

  /** The 30 m band on 26 m of ground fits up to rung 15 (3.75 m). */
  lemma ThirtyMetresRaised()
    ensures |HamRadioBands()| == 12
    ensures CentresAllowed(HamRadioBands())
    ensures Describe(26, 20, HamRadioBands()[6]).Some?
    ensures Describe(26, 20, HamRadioBands()[6]).value.maxElevation == 3.75
  {
    TableCentresAllowed();
    TableCentresAre();
    var t := HamRadioBands();
    BuilderFacts.FitsIff(26, 10.12, 15);
    BuilderFacts.FitsIff(26, 10.12, 16);
    BuilderFacts.RecordedAtRung(26, 20, t[6], 15);
  }

  /** The bands from 20 m to 10 m on 26 m of ground fit at the top rung, 5 m. */
  lemma ShortBandsRaised()
    ensures |HamRadioBands()| == 12
    ensures CentresAllowed(HamRadioBands())
    ensures forall j :: 7 <= j < 12 ==> Describe(26, 20, HamRadioBands()[j]).Some?
    ensures forall j :: 7 <= j < 12 ==> Describe(26, 20, HamRadioBands()[j]).value.maxElevation == 5.0
  {
    TableCentresAllowed();
    TableCentresAre();
    var t := HamRadioBands();
    forall j | 7 <= j < 12
      ensures Describe(26, 20, t[j]).Some?
      ensures Describe(26, 20, t[j]).value.maxElevation == 5.0
    {
      BuilderFacts.FitsIff(26, CenterFrequency(t[j]), 20);
      BuilderFacts.RecordedAtRung(26, 20, t[j], 20);
    }
  }

  /** On 26 m of ground with up to 5 m of elevation the search succeeds. */
  lemma TwentySixMetresRaised(b: AntennaBuilder)
    requires b == AntennaBuilder(26, 5)
    ensures WorkableBands(b).Ok?
  {
    TableOrder();
    SixtyMetresRaised();
  }
}
