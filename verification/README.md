# Inverted-V antenna calculator in Dafny

A model of the InvertedVeeAntennaCalculator library in Dafny, with proofs about it.
The library has two layers.

- **CalculatorService** computes the geometry of an inverted-V dipole hung from one mast. The
  inputs are a frequency and, optionally, an elevation of the mast foot. It gives:
  - the total wire length (142 / f);
  - the height of the apex;
  - the ground span between the two anchor points;
  - the rope to add per leg.

  Construction rejects frequencies outside [0.1, 30] MHz and negative elevations.
- **AntennaBuilder** takes an available ground length and, optionally, a maximum elevation, and
  does two searches:
  - For each band of a fixed 12-row table of amateur bands, highest designator first,
    `GetWorkableBands` searches a descending ladder of elevations in 0.25 m steps. It records the
    first elevation whose ground span fits, at the band's centre frequency. When no band fits, it
    fails with `NotEnoughSpace`.
  - `GetMaxAntennaLength` starts at the lower edge of the first workable band and sweeps the
    frequency down in 0.01 MHz steps at ground level. It keeps the last frequency that fits
    before the first one that does not.

The model is functional:
- Exceptions become an `Outcomes.Result` whose `Error` is `OutOfRange(param)` or
  `NotEnoughSpace(length)`.
- The calculator's private fields become the `Calculator.Service` datatype.
- Elevations are counted in quarter-metre rungs (rung q is q·0.25 m).
- Sweep frequencies are `start − k·0.01` for a step count k.

Both loops are therefore recursions over integers. The geometry is exact real arithmetic:
- cos 60° is 1/2.
- sin 60° is the constant 0.8660254037844386, the platform's double-precision value.
- `Math.Round(x, 2)` is rounding to the nearest hundredth, with ties going to the even
  neighbour.

Behaviour of the code as written, which the model keeps and the lemmas spell out:
- The band table has 12 rows, from 2200 m down to 10 m.
- The frequency-only constructor leaves the ratio at 0. Its ground span is therefore unscaled,
  and its rope to add is minus one leg.
- The two-argument constructor with elevation 0 gives ratio 1 and no rope.
- The ratio is applied whenever it is positive, not only when the elevation is positive. The
  resulting span is the same either way.
- Once the maximum elevation is above 0, the elevation ladder stops at 0.25 m and never tries
  ground level. A band that would fit flat can therefore be lost
  (`Scenarios.ElevationAllowanceLosesTenMetreBand`).
- The sweep returns all zeros when its first step does not fit
  (`Scenarios.ThirtyFourMetresRecordsNothing`).
- With very long ground the sweep steps below 0.1 MHz, and the calculator throws
  (`Scenarios.TwoKilometresLeavesRange`). With at most 1000 m it cannot
  (`BuilderFacts.MaxAntennaLengthFailsOnlyForSpace`).

Files:
- `outcomes.dfy`: result and option types.
- `rounding.dfy`: `Math.Round(x, 2)`.
- `calculator.dfy`, `calculator_facts.dfy`: CalculatorService.
- `bands.dfy`: the band table, centre frequency and descending order.
- `builder.dfy`, `builder_facts.dfy`: AntennaBuilder.
- `scenarios.dfy`: the library's example configurations, worked out from the formulas.

## Model

| member | source | states |
|---|---|---|
| Calculator.FromFrequency | InvertedVeeAntennaCalculator/InvertedVeeAntennaCalculator/CalculatorService.cs:25-31 | Succeeds exactly when 0.1 ≤ f ≤ 30 (both bounds accepted). Otherwise it fails with an out-of-range frequency. A constructed service has elevation 0 and ratio 0. |
| Calculator.FromFrequencyAndElevation | InvertedVeeAntennaCalculator/InvertedVeeAntennaCalculator/CalculatorService.cs:38-46 | Succeeds exactly when the frequency is in range and the elevation is ≥ 0. The frequency is checked first. The ratio height(e)/height(0) satisfies ratio·35.5 = 35.5 + e·f, is ≥ 1, and equals 1 exactly when e = 0. |
| Calculator.TotalLength | InvertedVeeAntennaCalculator/InvertedVeeAntennaCalculator/CalculatorService.cs:52-53 | The wire length times the frequency is 142, and the length is positive. |
| Calculator.OnePoleLength | InvertedVeeAntennaCalculator/InvertedVeeAntennaCalculator/CalculatorService.cs:88-89 | One leg times the frequency is 71. |
| Calculator.AntennaHeight | InvertedVeeAntennaCalculator/InvertedVeeAntennaCalculator/CalculatorService.cs:94-100 | The apex is 35.5/f above the raised mast foot: (h − e)·f = 35.5, so h > e. |
| Calculator.Height | InvertedVeeAntennaCalculator/InvertedVeeAntennaCalculator/CalculatorService.cs:59-60 | For either constructor, the height is 35.5/f plus the stored elevation. |
| Calculator.GroundLength | InvertedVeeAntennaCalculator/InvertedVeeAntennaCalculator/CalculatorService.cs:66-78 | For either constructor, span·f = 2·sin 60°·(71 + 2·e·f), i.e. the span is 2·sin 60°·(71/f + 2e). The scaling by the ratio adds exactly 4·sin 60°·e. |
| Calculator.RopeLengthToAdd | InvertedVeeAntennaCalculator/InvertedVeeAntennaCalculator/CalculatorService.cs:85-86 | With ratio 0 (the frequency-only constructor) the rope is minus one leg (rope·f = −71). Otherwise it is exactly twice the elevation. |
| CalculatorFacts.ElevationWidensSpan | InvertedVeeAntennaCalculator/InvertedVeeAntennaCalculator/CalculatorService.cs:59-78 | At a fixed frequency, a higher elevation gives a strictly greater height and ground span and the same wire length. |
| CalculatorFacts.FrequencyNarrowsSpan | InvertedVeeAntennaCalculator/InvertedVeeAntennaCalculator/CalculatorService.cs:52-78 | At a fixed elevation, a higher frequency gives a strictly shorter wire, a lower apex and a narrower span. |
| CalculatorFacts.ConstructorsAtGroundLevel | InvertedVeeAntennaCalculator/InvertedVeeAntennaCalculator/CalculatorService.cs:25-46 | At elevation 0 the two constructors agree on length, height and span. They differ on the rope: minus one leg for the frequency-only one, 0 for the other. |
| CalculatorFacts.FortyMetreExample | InvertedVeeAntennaCalculator/InvertedVeeAntennaCalculator.Tests/CalculatorServiceTests.cs:14-56 | At 7.1 MHz, rounded to hundredths: wire 20.00, height 5.00, span 17.32. |
| CalculatorFacts.RaisedFortyMetreExample | InvertedVeeAntennaCalculator/InvertedVeeAntennaCalculator.Tests/CalculatorServiceTests.cs:36-78 | At 7.1 MHz with 2 m of elevation, rounded: height 7.00, span 24.25, rope 4.00. |
| Rounding.NearestEven | InvertedVeeAntennaCalculator/InvertedVeeAntennaCalculator/AntennaBuilder.cs:163 | The chosen integer is within 1/2 of the input. On an exact tie it is the even one. |
| Rounding.Round2 | InvertedVeeAntennaCalculator/InvertedVeeAntennaCalculator/AntennaBuilder.cs:163 | The result is a whole number of hundredths within 0.005 of the input. |
| Rounding.Round2IsNearest | InvertedVeeAntennaCalculator/InvertedVeeAntennaCalculator/AntennaBuilder.cs:163 | No whole number of hundredths is strictly closer to the input than the rounded value. |
| Rounding.Round2OfHundredths | InvertedVeeAntennaCalculator/InvertedVeeAntennaCalculator/AntennaBuilder.cs:163 | Rounding leaves a whole number of hundredths unchanged (idempotence). |
| Rounding.Round2Near | InvertedVeeAntennaCalculator/InvertedVeeAntennaCalculator/AntennaBuilder.cs:163 | A value strictly within half a hundredth of n/100 rounds to n/100. |
| Bands.CenterFrequency | InvertedVeeAntennaCalculator/InvertedVeeAntennaCalculator/AntennaBuilder.cs:159-163 | The centre is a whole number of hundredths within 0.005 of the midpoint of the band edges. |
| Bands.TableOrder | InvertedVeeAntennaCalculator/InvertedVeeAntennaCalculator/AntennaBuilder.cs:133-150 | The table has 12 rows with designators 2200, 630, 160, 80, 60, 40, 30, 20, 17, 15, 12, 10, strictly descending and hence distinct. |
| Bands.TableEdges | InvertedVeeAntennaCalculator/InvertedVeeAntennaCalculator/AntennaBuilder.cs:137-148 | Every band's lower edge is below its upper edge and inside the calculator's frequency range. |
| Bands.TableCentresAre | InvertedVeeAntennaCalculator/InvertedVeeAntennaCalculator/AntennaBuilder.cs:137-163 | The rounded centres are 0.14, 0.48, 1.83, 3.65, 5.36, 7.1, 10.12, 14.18, 18.12, 21.22, 24.94 and 28.85 MHz. The ties 10.125 and 21.225 go to the even neighbour. |
| Bands.TableCentresAllowed | InvertedVeeAntennaCalculator/InvertedVeeAntennaCalculator/AntennaBuilder.cs:58-64 | Every centre is a frequency the calculator accepts, so the search never throws while building a calculator. |
| Bands.TenMetreCentreHighest | InvertedVeeAntennaCalculator/InvertedVeeAntennaCalculator/AntennaBuilder.cs:137-163 | The 10 m centre, 28.85 MHz, is the highest in the table. |
| Bands.Insert | InvertedVeeAntennaCalculator/InvertedVeeAntennaCalculator/AntennaBuilder.cs:53 | Inserting into a list ordered by descending designator keeps it ordered and adds exactly the new band (multiset). |
| Bands.OrderByBandDescending | InvertedVeeAntennaCalculator/InvertedVeeAntennaCalculator/AntennaBuilder.cs:53 | The result is ordered by descending designator and is a permutation of the input. |
| Bands.OrderedInputUnchanged | InvertedVeeAntennaCalculator/InvertedVeeAntennaCalculator/AntennaBuilder.cs:53 | Ordering a list that is already in descending designator order returns it unchanged. |
| Bands.OrderedTableIsTable | InvertedVeeAntennaCalculator/InvertedVeeAntennaCalculator/AntennaBuilder.cs:53 | Ordering the band table returns the table itself, so the search visits the rows in written order. |
| Builder.FromGroundLength | InvertedVeeAntennaCalculator/InvertedVeeAntennaCalculator/AntennaBuilder.cs:23-29 | Succeeds exactly when the ground length is ≥ 1, otherwise it is out of range. The maximum elevation is left at 0. |
| Builder.FromGroundLengthAndElevation | InvertedVeeAntennaCalculator/InvertedVeeAntennaCalculator/AntennaBuilder.cs:36-43 | Succeeds exactly when the ground length is ≥ 1 and the maximum elevation is ≥ 0. The ground length is checked first. |
| Builder.LowestRung | InvertedVeeAntennaCalculator/InvertedVeeAntennaCalculator/AntennaBuilder.cs:59-85 | The last elevation tried is the lowest on the ladder: 0 when the maximum elevation is 0, and 0.25 m otherwise. |
| Builder.FirstFit | InvertedVeeAntennaCalculator/InvertedVeeAntennaCalculator/AntennaBuilder.cs:62-85 | A found rung is on the ladder and fits, and no higher rung tried fits. When nothing is found, no rung on the ladder fits. |
| Builder.Describe | InvertedVeeAntennaCalculator/InvertedVeeAntennaCalculator/AntennaBuilder.cs:58-85 | A band has no entry exactly when no rung on its ladder fits at its centre. Otherwise the entry carries the band's designator, centre and lower edge. Its elevation is the highest fitting rung. Its span is the calculator's ground length there, at most the available length, and its height is the calculator's height. |
| Builder.BandOutcomes | InvertedVeeAntennaCalculator/InvertedVeeAntennaCalculator/AntennaBuilder.cs:56-86 | One outcome per band, in band order. Strictly descending bands give outcomes whose entries are strictly descending. |
| Builder.Recorded | InvertedVeeAntennaCalculator/InvertedVeeAntennaCalculator/AntennaBuilder.cs:56-86 | The list holds exactly the entries of the bands that fit. It is empty exactly when no band fits. |
| Builder.RecordedKeepsOrder | InvertedVeeAntennaCalculator/InvertedVeeAntennaCalculator/AntennaBuilder.cs:53-86 | The list keeps the relative order of the outcomes, so it is strictly descending by designator. |
| Builder.WorkableBandsIn | InvertedVeeAntennaCalculator/InvertedVeeAntennaCalculator/AntennaBuilder.cs:50-92 | Fails with NotEnoughSpace(length) exactly when no band fits at any rung tried. Otherwise it returns a non-empty list, strictly descending by designator, whose members are exactly the fitting bands' entries. |
| Builder.WorkableBands | InvertedVeeAntennaCalculator/InvertedVeeAntennaCalculator/AntennaBuilder.cs:50-92 | The search over the 12-row table, which is strictly descending with allowed centres. |
| Builder.FlatGround | InvertedVeeAntennaCalculator/InvertedVeeAntennaCalculator/AntennaBuilder.cs:111-112 | The sweep's span at f, at ground level with ratio 0, is 2·sin 60°·71/f. |
| Builder.LastFit | InvertedVeeAntennaCalculator/InvertedVeeAntennaCalculator/AntennaBuilder.cs:109-122 | Every step from k up to the returned index fits, and the next step stops the loop. When step k itself stops the loop, the result is k − 1. A failure is always an out-of-range frequency, and only happens when the loop reaches a positive step the calculator rejects, after fitting steps only. |
| Builder.Record | InvertedVeeAntennaCalculator/InvertedVeeAntennaCalculator/AntennaBuilder.cs:111-119 | The record of a step holds its frequency, its wire length (·f = 142), its ground span and its height (·f = 35.5). It is never all zeros. |
| Builder.Sweep | InvertedVeeAntennaCalculator/InvertedVeeAntennaCalculator/AntennaBuilder.cs:103-130 | When the first step already fails, the result is all zeros (not an error). A success is all zeros exactly then. A failure is an out-of-range frequency, and only happens when the sweep reaches a positive frequency the calculator rejects. Otherwise the result is the record of a frequency at or below the start, a whole number of steps down, that fits while the next step does not. All four fields come from that frequency. |
| Builder.MaxAntennaLengthIn | InvertedVeeAntennaCalculator/InvertedVeeAntennaCalculator/AntennaBuilder.cs:98-131 | Passes on a NotEnoughSpace failure of the band search. Otherwise it sweeps from the lower edge of the first listed band. The only other failure is an out-of-range frequency. |
| Builder.MaxAntennaLength | InvertedVeeAntennaCalculator/InvertedVeeAntennaCalculator/AntennaBuilder.cs:98-131 | GetMaxAntennaLength over the 12-row table. |
| Builder.SweepSteps | InvertedVeeAntennaCalculator/InvertedVeeAntennaCalculator/AntennaBuilder.cs:109-122 | When the loop stops after its last fitting step, it records nothing exactly when the start fails. Otherwise the record satisfies the sweep's postcondition. |
| Builder.LastStepFitting | InvertedVeeAntennaCalculator/InvertedVeeAntennaCalculator/AntennaBuilder.cs:109-122 | The record of a fitting step followed by a stopping step meets the sweep's postcondition. |
| BuilderFacts.SpanAtRung | InvertedVeeAntennaCalculator/InvertedVeeAntennaCalculator/AntennaBuilder.cs:64-65 | The span at frequency f and rung q satisfies span·f = 2·sin 60°·(71 + q·f/2). |
| BuilderFacts.FitsBelow | InvertedVeeAntennaCalculator/InvertedVeeAntennaCalculator/AntennaBuilder.cs:62-85 | A band that fits at a rung fits at every lower rung. |
| BuilderFacts.FitsAbove | InvertedVeeAntennaCalculator/InvertedVeeAntennaCalculator/AntennaBuilder.cs:58-67 | At one rung, whatever fits at a frequency fits at every higher one. |
| BuilderFacts.OmittedIffLowestRungTooWide | InvertedVeeAntennaCalculator/InvertedVeeAntennaCalculator/AntennaBuilder.cs:62-85 | The ladder finds nothing exactly when the last rung tried does not fit. |
| BuilderFacts.FlatFitsAbove | InvertedVeeAntennaCalculator/InvertedVeeAntennaCalculator/AntennaBuilder.cs:109-122 | A sweep frequency that fits implies every higher frequency in range fits, which justifies stopping at the first failure. |
| BuilderFacts.BandOmittedIff | InvertedVeeAntennaCalculator/InvertedVeeAntennaCalculator/AntennaBuilder.cs:56-86 | A band is silently left out exactly when it does not fit at the last rung tried. |
| BuilderFacts.RecordedAtRung | InvertedVeeAntennaCalculator/InvertedVeeAntennaCalculator/AntennaBuilder.cs:62-85 | If rung q is tried and fits, and the rung above is not tried or does not fit, the band is recorded at rung q. |
| BuilderFacts.NotEnoughSpaceIffHighestBandTooWide | InvertedVeeAntennaCalculator/InvertedVeeAntennaCalculator/AntennaBuilder.cs:88-89 | For any table, the search fails exactly when the band with the highest centre does not fit at the last rung tried. |
| BuilderFacts.NotEnoughSpaceIffTenMetreBandTooWide | InvertedVeeAntennaCalculator/InvertedVeeAntennaCalculator/AntennaBuilder.cs:88-89 | GetWorkableBands throws exactly when the 10 m band (28.85 MHz) does not fit at the last rung tried. |
| BuilderFacts.SweepStaysInRange | InvertedVeeAntennaCalculator/InvertedVeeAntennaCalculator/AntennaBuilder.cs:109-111 | With at most 1000 m of ground, a sweep from an allowed frequency never reaches a frequency the calculator rejects. |
| BuilderFacts.FitsIff | InvertedVeeAntennaCalculator/InvertedVeeAntennaCalculator/AntennaBuilder.cs:64-67 | A band fits at rung q exactly when 2·sin 60°·(71 + q·f/2) ≤ length·f. |
| BuilderFacts.FitsFlatIff | InvertedVeeAntennaCalculator/InvertedVeeAntennaCalculator/AntennaBuilder.cs:111-121 | A sweep step fits exactly when 2·sin 60°·71 ≤ length·f, and the loop stops there exactly when it does not fit. |
| BuilderFacts.RecordedAfterNones | InvertedVeeAntennaCalculator/InvertedVeeAntennaCalculator/AntennaBuilder.cs:56-86 | Leading bands that are left out add nothing to the list. |
| BuilderFacts.RecordedAllSome | InvertedVeeAntennaCalculator/InvertedVeeAntennaCalculator/AntennaBuilder.cs:56-86 | When every band fits, the list has one entry per band, in order. |
| BuilderFacts.RecordedFirst | InvertedVeeAntennaCalculator/InvertedVeeAntennaCalculator/AntennaBuilder.cs:56-86 | After k bands left out, the first entry is that of band k. |
| BuilderFacts.RecordedSuffix | InvertedVeeAntennaCalculator/InvertedVeeAntennaCalculator/AntennaBuilder.cs:56-86 | When exactly the first k bands are left out, the list holds entries k onward, in order. |
| BuilderFacts.ListIsRecorded | InvertedVeeAntennaCalculator/InvertedVeeAntennaCalculator/AntennaBuilder.cs:53-91 | For a table already in descending order, the result is NotEnoughSpace when nothing is recorded, and the recorded list otherwise. |
| BuilderFacts.FirstWorkableBand | InvertedVeeAntennaCalculator/InvertedVeeAntennaCalculator/AntennaBuilder.cs:100-101 | The first entry of the list, where the sweep starts, is that of the first band in table order that fits. |
| BuilderFacts.ListAfterOmissions | InvertedVeeAntennaCalculator/InvertedVeeAntennaCalculator/AntennaBuilder.cs:56-91 | When exactly the first k bands are left out, the list is the entries of the remaining bands in table order. |
| BuilderFacts.ListAfterOmissionsFields | InvertedVeeAntennaCalculator/InvertedVeeAntennaCalculator/AntennaBuilder.cs:69-77 | Each listed entry carries its table row's designator, centre and lower edge, and an elevation on the ladder. |
| BuilderFacts.LastFitIs | InvertedVeeAntennaCalculator/InvertedVeeAntennaCalculator/AntennaBuilder.cs:109-122 | If steps k to m fit and step m + 1 stops the loop, the last fitting step is m. |
| BuilderFacts.LastFitLeavesRange | InvertedVeeAntennaCalculator/InvertedVeeAntennaCalculator/AntennaBuilder.cs:109-111 | If steps k to m fit and step m + 1 is positive but below 0.1 MHz, the sweep fails with an out-of-range frequency. |
| BuilderFacts.FirstEntryEdge | InvertedVeeAntennaCalculator/InvertedVeeAntennaCalculator/AntennaBuilder.cs:101 | The sweep's starting frequency is the lower edge of some row of the table. |
| BuilderFacts.MaxAntennaLengthInFailsOnlyForSpace | InvertedVeeAntennaCalculator/InvertedVeeAntennaCalculator/AntennaBuilder.cs:98-122 | For a table with allowed lower edges and at most 1000 m of ground, the only failure is NotEnoughSpace. |
| BuilderFacts.MaxAntennaLengthFailsOnlyForSpace | InvertedVeeAntennaCalculator/InvertedVeeAntennaCalculator/AntennaBuilder.cs:98-122 | With at most 1000 m of ground, GetMaxAntennaLength fails only with NotEnoughSpace. |
| Scenarios.LongBandsOmittedAtTwentySixMetres | InvertedVeeAntennaCalculator/InvertedVeeAntennaCalculator.Tests/AntennaBuilderTests.cs:14-20 | On 26 m at ground level, the 2200, 630, 160 and 80 m bands are left out. |
| Scenarios.ShortBandsKeptAtTwentySixMetres | InvertedVeeAntennaCalculator/InvertedVeeAntennaCalculator.Tests/AntennaBuilderTests.cs:14-20 | On 26 m at ground level, every band from 60 m to 10 m fits. |
| Scenarios.OmittedAtTwentySixMetres | InvertedVeeAntennaCalculator/InvertedVeeAntennaCalculator.Tests/AntennaBuilderTests.cs:14-20 | On 26 m at ground level, a row is left out exactly when it is one of the first four. |
| Scenarios.TwentySixMetresAtGroundLevel | InvertedVeeAntennaCalculator/InvertedVeeAntennaCalculator.Tests/AntennaBuilderTests.cs:14-20 | On 26 m the designators are exactly 60, 40, 30, 20, 17, 15, 12, 10, in that order, each at its table centre and at elevation 0. The first lower edge is 5.3515 MHz. |
| Scenarios.ThreeMetresIsNotEnough | InvertedVeeAntennaCalculator/InvertedVeeAntennaCalculator.Tests/AntennaBuilderTests.cs:43-52 | On 3 m both GetWorkableBands and GetMaxAntennaLength fail with NotEnoughSpace(3). |
| Scenarios.ElevationAllowanceLosesTenMetreBand | InvertedVeeAntennaCalculator/InvertedVeeAntennaCalculator/AntennaBuilder.cs:59-85 | On 5 m the 10 m band fits at ground level. With a 1 m maximum elevation the search never tries ground level and throws NotEnoughSpace(5). |
| Scenarios.SweepFromSixtyMetres | InvertedVeeAntennaCalculator/InvertedVeeAntennaCalculator/AntennaBuilder.cs:109-122 | On 26 m the sweep from 5.3515 MHz fits 63 steps and records 4.7315 MHz. |
| Scenarios.TwentySixMetreSweep | InvertedVeeAntennaCalculator/InvertedVeeAntennaCalculator.Tests/AntennaBuilderTests.cs:54-64 | On 26 m, GetMaxAntennaLength gives 4.7315 MHz, height 7.50, wire 30.01 and span 25.99 (rounded). The test shares the height and expects other values for the rest; see Left out. |
| Scenarios.OmittedAtThirtyFourMetres | InvertedVeeAntennaCalculator/InvertedVeeAntennaCalculator/AntennaBuilder.cs:56-86 | On 34 m the first three rows are left out and the 80 m band fits. |
| Scenarios.FirstBandAtThirtyFourMetres | InvertedVeeAntennaCalculator/InvertedVeeAntennaCalculator/AntennaBuilder.cs:100-101 | On 34 m the list starts with the 80 m band, whose lower edge is 3.5 MHz. |
| Scenarios.SweepFromEightyMetres | InvertedVeeAntennaCalculator/InvertedVeeAntennaCalculator/AntennaBuilder.cs:103-130 | On 34 m a sweep from 3.5 MHz fails at its first step and returns all zeros. |
| Scenarios.ThirtyFourMetresRecordsNothing | InvertedVeeAntennaCalculator/InvertedVeeAntennaCalculator/AntennaBuilder.cs:98-131 | On 34 m the 80 m band is listed, yet GetMaxAntennaLength returns all zeros. |
| Scenarios.FirstBandAtTwoKilometres | InvertedVeeAntennaCalculator/InvertedVeeAntennaCalculator/AntennaBuilder.cs:100-101 | On 2000 m the list starts with the 2200 m band, whose lower edge is 0.1357 MHz. |
| Scenarios.SweepFromTwoKilometreBand | InvertedVeeAntennaCalculator/InvertedVeeAntennaCalculator/AntennaBuilder.cs:109-111 | On 2000 m a sweep from 0.1357 MHz fits four steps, then reaches 0.0957 MHz, which the calculator rejects. |
| Scenarios.TwoKilometresLeavesRange | InvertedVeeAntennaCalculator/InvertedVeeAntennaCalculator/CalculatorService.cs:27-28 | On 2000 m, GetMaxAntennaLength fails with an out-of-range frequency. |
| Scenarios.LongBandsOmittedWhenRaised | InvertedVeeAntennaCalculator/InvertedVeeAntennaCalculator.Tests/AntennaBuilderTests.cs:22-41 | On 26 m with up to 5 m of elevation, the first four rows do not fit even at 0.25 m. |
| Scenarios.SixtyMetresRaised | InvertedVeeAntennaCalculator/InvertedVeeAntennaCalculator.Tests/AntennaBuilderTests.cs:30-32 | On 26 m with up to 5 m, the 60 m band is recorded at 0.75 m. |
| Scenarios.FortyMetresRaised | InvertedVeeAntennaCalculator/InvertedVeeAntennaCalculator/AntennaBuilder.cs:62-85 | On 26 m with up to 5 m, the 40 m band is recorded at 2.5 m. The test at AntennaBuilderTests.cs:34-36 expects 2.25. |
| Scenarios.ThirtyMetresRaised | InvertedVeeAntennaCalculator/InvertedVeeAntennaCalculator.Tests/AntennaBuilderTests.cs:38-40 | On 26 m with up to 5 m, the 30 m band is recorded at 3.75 m. |
| Scenarios.ShortBandsRaised | InvertedVeeAntennaCalculator/InvertedVeeAntennaCalculator/AntennaBuilder.cs:62-85 | On 26 m with up to 5 m, the 20, 17, 15, 12 and 10 m bands are recorded at the full 5 m. The test at AntennaBuilderTests.cs:28 lists only 17, 15, 12 and 10 there. |
| Scenarios.TwentySixMetresRaised | InvertedVeeAntennaCalculator/InvertedVeeAntennaCalculator.Tests/AntennaBuilderTests.cs:22-26 | On 26 m with up to 5 m, GetWorkableBands succeeds. |

## Left out

- IEEE-754 double effects are not modelled. Arithmetic is exact over the reals.
  - cos 60° is taken as exactly 1/2; the platform returns 0.5000000000000001.
  - The repeated `frequency -= 0.01` of the sweep is modelled as exact steps `start − k·0.01`,
    without accumulated error.
  - `Math.Round` is applied to the exact midpoint rather than its double approximation. For
    each of the 12 table rows, the centre given by `Bands.TableCentresAre` is the one the
    double computation rounds to.
- `GetRadian` and `Math.PI`, `Math.Sin`, `Math.Cos` are not computed. The half-angle's cosine
  and sine enter as the constants `Calculator.CosHalfAngle` and `Calculator.SinHalfAngle`.
- NaN and infinite inputs cannot occur, since inputs are reals.
- Exception messages and the exception class hierarchy are left out. Only the failing
  parameter, or the ground length carried by NotEnoughSpace, is kept.
- LINQ and `IEnumerable` laziness are left out. `OrderByDescending` is modelled as an
  insertion sort.
- The plain record classes AntennaModel and AntennaMaxModel appear only as the datatypes
  `Builder.AntennaModel` and `Builder.AntennaMaxModel`.
- The quarter-metre rung count (four times the maximum elevation) is a device of the model
  only. The code converts the maximum elevation to a double and steps it down by 0.25, which is
  exact for whole metres, so no integer arithmetic is left out.
- Bands.OrderByBandDescending: states order and permutation but not stability.
  `OrderByDescending` is stable, but the band table's designators are distinct, so stability
  has no effect on the search.
- BuilderFacts.MaxAntennaLengthFailsOnlyForSpace: proved only for at most 1000 m of ground.
  `Scenarios.TwoKilometresLeavesRange` shows that longer ground can fail otherwise.
- Some expectations in AntennaBuilderTests.cs do not follow from the formulas, so the model
  states what the formulas give instead:
  - 40 m at 26 m with 5 m elevation (lines 34-36): the model gives 2.5 m, where the test
    expects 2.25 m.
  - The set of bands recorded at 5 m (line 28): the model also includes 20 m.
  - The sweep on 26 m (lines 60-63): the model gives 4.7315 MHz, a 30.01 m wire and a 25.99 m
    span, where the test expects 4.75 MHz, 29.99 m and 25.97 m.
