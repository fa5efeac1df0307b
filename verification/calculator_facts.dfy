/** Properties of the calculator that relate several services or pin the
    documented example values. */
module CalculatorFacts {
  import opened Calculator
  import opened Rounding

  /** Raising the mast foot raises the apex and widens the ground span strictly;
      the wire length does not change. */
  lemma ElevationWidensSpan(s1: Service, s2: Service)
    requires Constructed(s1) && Constructed(s2)
    requires s1.frequency == s2.frequency && s1.elevation < s2.elevation
    ensures Height(s1) < Height(s2)
    ensures GroundLength(s1) < GroundLength(s2)
    ensures TotalLength(s1) == TotalLength(s2)
  {
    var f := s1.frequency;
    var g1, g2 := GroundLength(s1), GroundLength(s2);
    assert g1 * f < g2 * f by {
      assert 2.0 * s1.elevation * f < 2.0 * s2.elevation * f;
    }
  }

  /** At a fixed elevation, a higher frequency gives a shorter wire, a lower apex
      and a narrower ground span. */
  lemma FrequencyNarrowsSpan(s1: Service, s2: Service)
    requires Constructed(s1) && Constructed(s2)
    requires s1.elevation == s2.elevation && s1.frequency < s2.frequency
    ensures TotalLength(s1) > TotalLength(s2)
    ensures Height(s1) > Height(s2)
    ensures GroundLength(s1) > GroundLength(s2)
  {
    var f1, f2, e := s1.frequency, s2.frequency, s1.elevation;
    var g1, g2 := GroundLength(s1), GroundLength(s2);
    var p1, p2 := OnePoleLength(s1), OnePoleLength(s2);
    InverseDecreases(p1, p2, f1, f2, 71.0);
    assert g1 == 2.0 * SinHalfAngle * (p1 + 2.0 * e) by {
      assert g1 * f1 == 2.0 * SinHalfAngle * (p1 + 2.0 * e) * f1;
    }
    assert g2 == 2.0 * SinHalfAngle * (p2 + 2.0 * e) by {
      assert g2 * f2 == 2.0 * SinHalfAngle * (p2 + 2.0 * e) * f2;
    }
    assert TotalLength(s1) == 2.0 * p1;
    assert TotalLength(s2) == 2.0 * p2;
    assert Height(s1) == 0.5 * p1 + e by {
      assert (Height(s1) - e) * f1 == (0.5 * p1) * f1;
    }
    assert Height(s2) == 0.5 * p2 + e by {
      assert (Height(s2) - e) * f2 == (0.5 * p2) * f2;
    }
  }

  /** The two constructors agree at ground level on every dimension except the
      rope: the frequency-only one leaves the ratio at 0, so its rope to add is
      minus one leg, whereas an explicit elevation of 0 gives ratio 1 and no rope. */
  lemma ConstructorsAtGroundLevel(f: real)
    requires 0.1 <= f <= 30.0
    ensures FromFrequency(f).Ok? && FromFrequencyAndElevation(f, 0.0).Ok?
    ensures var a, b := FromFrequency(f).value, FromFrequencyAndElevation(f, 0.0).value;
      && TotalLength(a) == TotalLength(b)
      && Height(a) == Height(b)
      && GroundLength(a) == GroundLength(b)
      && RopeLengthToAdd(a) == -OnePoleLength(a)
      && RopeLengthToAdd(b) == 0.0
  {
    var a, b := FromFrequency(f).value, FromFrequencyAndElevation(f, 0.0).value;
    assert a.frequency == b.frequency && a.elevation == b.elevation;
    var ga, gb := GroundLength(a), GroundLength(b);
    assert ga * f == gb * f;
    var ha, hb := Height(a), Height(b);
    assert ha * f == hb * f;
    var ra := RopeLengthToAdd(a);
    assert ra * f == -OnePoleLength(a) * f;
  }

  /** 7.1 MHz at ground level: 20.00 m of wire, a 5.00 m mast, 17.32 m of ground. */
  lemma FortyMetreExample()
    ensures FromFrequency(7.1).Ok?
    ensures var s := FromFrequency(7.1).value;
      && Round2(TotalLength(s)) == 20.0
      && Round2(Height(s)) == 5.0
      && Round2(GroundLength(s)) == 17.32
  {
    var s := FromFrequency(7.1).value;
    var t, h, g := TotalLength(s), Height(s), GroundLength(s);
    assert t == 20.0 by { assert t * 7.1 == 20.0 * 7.1; }
    assert h == 5.0 by { assert h * 7.1 == 5.0 * 7.1; }
    assert g == 20.0 * SinHalfAngle by { assert g * 7.1 == 20.0 * SinHalfAngle * 7.1; }
    Round2Near(t, 2000);
    Round2Near(h, 500);
    Round2Near(g, 1732);
  }

  /** 7.1 MHz with the mast foot 2 m up: a 7.00 m mast, 24.25 m of ground and
      4.00 m of rope to add. */
  lemma RaisedFortyMetreExample()
    ensures FromFrequencyAndElevation(7.1, 2.0).Ok?
    ensures var s := FromFrequencyAndElevation(7.1, 2.0).value;
      && Round2(Height(s)) == 7.0
      && Round2(GroundLength(s)) == 24.25
      && Round2(RopeLengthToAdd(s)) == 4.0
  {
    var s := FromFrequencyAndElevation(7.1, 2.0).value;
    var h, g, rope := Height(s), GroundLength(s), RopeLengthToAdd(s);
    assert h == 7.0 by { assert (h - 2.0) * 7.1 == 5.0 * 7.1; }
    assert g == 28.0 * SinHalfAngle by { assert g * 7.1 == 28.0 * SinHalfAngle * 7.1; }
    Round2Near(h, 700);
    Round2Near(g, 2425);
    Round2Near(rope, 400);
  }

  /** x·a == c == y·b with 0 < a < b and c > 0 forces x > y. */
  lemma InverseDecreases(x: real, y: real, a: real, b: real, c: real)
    requires x * a == c && y * b == c && c > 0.0 && 0.0 < a < b
    ensures x > y
  {
    assert y > 0.0;
    assert y * a < y * b;
  }
}
