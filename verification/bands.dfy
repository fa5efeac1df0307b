/** The fixed table of amateur-radio bands, each with its centre frequency, and
    the descending-designator ordering the band search iterates in. */
module Bands {
  import opened Rounding
  import Calculator

  /** A band designator (its conventional wavelength label) and its edges in MHz. */
  datatype BandModel = BandModel(band: int, minFrequency: real, maxFrequency: real)

  function BandWidth(b: BandModel): real {
    b.maxFrequency - b.minFrequency
  }

  /** CenterFrequency: the middle of the band, rounded to two decimals. */
  function CenterFrequency(b: BandModel): (r: real)
    ensures -0.005 <= r - (b.minFrequency + b.maxFrequency) / 2.0 <= 0.005
    ensures IsHundredths(r)
  {
    Round2(b.minFrequency + BandWidth(b) / 2.0)
  }

  /** GetHamRadioBands. */
  function HamRadioBands(): seq<BandModel> {
    seq(12, Row)
  }

  /** Row i of the band table. */
  function Row(i: int): BandModel {
    if i == 0 then BandModel(2200, 0.1357, 0.1378)
    else if i == 1 then BandModel(630, 0.472, 0.479)
    else if i == 2 then BandModel(160, 1.810, 1.850)
    else if i == 3 then BandModel(80, 3.500, 3.800)
    else if i == 4 then BandModel(60, 5.3515, 5.3665)
    else if i == 5 then BandModel(40, 7.000, 7.200)
    else if i == 6 then BandModel(30, 10.100, 10.150)
    else if i == 7 then BandModel(20, 14.000, 14.350)
    else if i == 8 then BandModel(17, 18.068, 18.168)
    else if i == 9 then BandModel(15, 21.000, 21.450)
    else if i == 10 then BandModel(12, 24.890, 24.990)
    else BandModel(10, 28.000, 29.700)
  }

  /** The centre frequencies of the table, row by row. */
  const TableCentres: seq<real> :=
    [0.14, 0.48, 1.83, 3.65, 5.36, 7.1, 10.12, 14.18, 18.12, 21.22, 24.94, 28.85]

  /** The designators of the table, row by row. */
  const TableDesignators: seq<int> := [2200, 630, 160, 80, 60, 40, 30, 20, 17, 15, 12, 10]

  predicate NonIncreasing(s: seq<BandModel>) {
    forall i, j :: 0 <= i < j < |s| ==> s[i].band >= s[j].band
  }

  predicate StrictlyDescending(s: seq<BandModel>) {
    forall i, j :: 0 <= i < j < |s| ==> s[i].band > s[j].band
  }

  /** Twelve rows with distinct designators, listed from the highest designator
      (lowest frequency) down. */
  lemma TableOrder()
    ensures |HamRadioBands()| == 12
    ensures forall i :: 0 <= i < |HamRadioBands()| ==> HamRadioBands()[i].band == TableDesignators[i]
    ensures StrictlyDescending(HamRadioBands())
  {
  }

  /** Every band is non-empty and its lower edge is a frequency the calculator
      accepts. */
  lemma TableEdges()
    ensures forall i :: 0 <= i < |HamRadioBands()| ==>
      HamRadioBands()[i].minFrequency < HamRadioBands()[i].maxFrequency
    ensures forall i :: 0 <= i < |HamRadioBands()| ==>
      Calculator.FrequencyAllowed(HamRadioBands()[i].minFrequency)
  {
  }

  /** The rounded centre of every row, each a frequency the calculator accepts.
      Two midpoints sit exactly between two hundredths (10.125 and 21.225) and
      round to the even neighbour; 14.175 rounds up to the even 14.18. */
  lemma TableCentresAre()
    ensures |HamRadioBands()| == 12
    ensures forall i :: 0 <= i < |HamRadioBands()| ==>
      CenterFrequency(HamRadioBands()[i]) == TableCentres[i]
  {
    var t := HamRadioBands();
    CentreIs(t[0], 14, 1367.5);
    CentreIs(t[1], 48, 4755.0);
    CentreIs(t[2], 183, 18300.0);
    CentreIs(t[3], 365, 36500.0);
    CentreIs(t[4], 536, 53590.0);
    CentreIs(t[5], 710, 71000.0);
    CentreTieIs(t[6], 1012);
    CentreTieIs(t[7], 1418);
    CentreIs(t[8], 1812, 181180.0);
    CentreTieIs(t[9], 2122);
    CentreIs(t[10], 2494, 249400.0);
    CentreIs(t[11], 2885, 288500.0);
  }

  /** Every centre is a frequency the calculator accepts. */
  predicate CentresAllowed(bands: seq<BandModel>) {
    forall i :: 0 <= i < |bands| ==> Calculator.FrequencyAllowed(CenterFrequency(bands[i]))
  }

  lemma TableCentresAllowed()
    ensures CentresAllowed(HamRadioBands())
  {
    TableCentresAre();
  }

  /** The 10 m band, the last row, has the highest centre: 28.85 MHz. */
  lemma TenMetreCentreHighest()
    ensures |HamRadioBands()| == 12
    ensures CenterFrequency(HamRadioBands()[11]) == 28.85
    ensures forall j :: 0 <= j < |HamRadioBands()| ==>
      CenterFrequency(HamRadioBands()[j]) <= CenterFrequency(HamRadioBands()[11])
  {
    TableCentresAre();
  }

  /** A band whose midpoint, in ten-thousandths, is `mid` lies within half a
      hundredth of n/100. */
  lemma CentreIs(b: BandModel, n: int, mid: real)
    requires (b.minFrequency + BandWidth(b) / 2.0) * 10000.0 == mid
    requires (n as real - 0.5) * 100.0 < mid < (n as real + 0.5) * 100.0
    ensures CenterFrequency(b) == n as real / 100.0
  {
    Round2Near(b.minFrequency + BandWidth(b) / 2.0, n);
  }

  /** A midpoint exactly halfway between two hundredths rounds to the even one, n. */
  lemma CentreTieIs(b: BandModel, n: int)
    requires n % 2 == 0
    requires (b.minFrequency + BandWidth(b) / 2.0) * 100.0 == n as real + 0.5
             || (b.minFrequency + BandWidth(b) / 2.0) * 100.0 == n as real - 0.5
    ensures CenterFrequency(b) == n as real / 100.0
  {
    var y := (b.minFrequency + BandWidth(b) / 2.0) * 100.0;
    var m := NearestEven(y);
    assert m == n by {
      assert -0.5 <= m as real - y <= 0.5;
      assert m == n || m == n + 1 || m == n - 1;
    }
  }

  // ---------------------------------------------------------------------------
  // OrderByDescending(x => x.Band): a stable sort, modelled as insertion sort.

  /** Inserts `b` in front of the first element whose designator is not above its own. */
  function Insert(b: BandModel, s: seq<BandModel>): (r: seq<BandModel>)
    requires NonIncreasing(s)
    ensures NonIncreasing(r)
    ensures multiset(r) == multiset(s) + multiset{b}
  {
    if |s| == 0 || s[0].band <= b.band then
      [b] + s
    else
      assert s == [s[0]] + s[1..];
      var rest := Insert(b, s[1..]);
      HeadDominates(s[0], b, s[1..], rest);
      [s[0]] + rest
  }

  /** A head whose designator is above that of `b` and of every element of `tail`
      is above every element of a permutation of `tail` plus `b`. */
  lemma HeadDominates(h: BandModel, b: BandModel, tail: seq<BandModel>, rest: seq<BandModel>)
    requires h.band > b.band
    requires forall i :: 0 <= i < |tail| ==> h.band >= tail[i].band
    requires multiset(rest) == multiset(tail) + multiset{b}
    ensures forall i :: 0 <= i < |rest| ==> h.band >= rest[i].band
  {
    forall i | 0 <= i < |rest|
      ensures h.band >= rest[i].band
    {
      assert rest[i] in multiset(rest);
      if rest[i] != b {
        assert rest[i] in multiset(tail);
      }
    }
  }

  /** Orders bands by designator, highest first, keeping rows with equal
      designators in their original order. */
  function OrderByBandDescending(s: seq<BandModel>): (r: seq<BandModel>)
    ensures NonIncreasing(r)
    ensures multiset(r) == multiset(s)
  {
    if |s| == 0 then []
    else
      assert s == [s[0]] + s[1..];
      Insert(s[0], OrderByBandDescending(s[1..]))
  }

  /** A list already ordered by descending designator is returned unchanged. */
  lemma {:induction false} OrderedInputUnchanged(s: seq<BandModel>)
    requires NonIncreasing(s)
    ensures OrderByBandDescending(s) == s
  {
    if |s| > 0 {
      OrderedInputUnchanged(s[1..]);
      assert s == [s[0]] + s[1..];
    }
  }

  /** The band search walks the table in its written order. */
  lemma OrderedTableIsTable()
    ensures OrderByBandDescending(HamRadioBands()) == HamRadioBands()
  {
    TableOrder();
    OrderedInputUnchanged(HamRadioBands());
  }
}
