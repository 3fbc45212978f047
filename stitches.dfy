/** The density tier and the stitch estimate. */
module Stitches {
  import opened Rounding

  /** Stitches per square inch at full coverage, by coverage tier; each tier
      starts at its lower bound (0.2 and 0.6 fall into the higher tier). */
  function Multiplier(coverage: real): (m: nat)
    ensures m == 1500 || m == 2000 || m == 2500
    ensures m == 1500 <==> coverage < 0.2
    ensures m == 2000 <==> 0.2 <= coverage < 0.6
    ensures m == 2500 <==> coverage >= 0.6
  {
    if coverage < 0.2 then 1500
    else if coverage < 0.6 then 2000
    else 2500
  }

  /** The tier seen from the counts: 5 * dark against total and 3 * total. */
  function TierOfCounts(darkPixels: nat, totalPixels: nat): nat
  {
    if 5 * darkPixels < totalPixels then 1500
    else if 5 * darkPixels < 3 * totalPixels then 2000
    else 2500
  }

  /** For a coverage dark / total the real thresholds agree with integer ones. */
  lemma MultiplierOfCounts(darkPixels: nat, totalPixels: nat)
    requires totalPixels > 0
    ensures Multiplier(darkPixels as real / totalPixels as real) == TierOfCounts(darkPixels, totalPixels)
  {
    var d, t := darkPixels as real, totalPixels as real;
    var c := d / t;
    FractionBelow(d, t, 0.2);
    FractionBelow(d, t, 0.6);
    assert c < 0.2 <==> 5 * darkPixels < totalPixels;
    assert c < 0.6 <==> 5 * darkPixels < 3 * totalPixels;
  }

  lemma FractionBelow(d: real, t: real, k: real)
    requires t > 0.0
    ensures d / t < k <==> d < k * t
  {
    assert (d / t) * t == d;
    if d / t < k {
      assert (d / t) * t < k * t;
    } else {
      assert (d / t) * t >= k * t;
    }
  }

  /** The multiplier never decreases as coverage grows. */
  lemma MultiplierMonotone(c1: real, c2: real)
    requires c1 <= c2
    ensures Multiplier(c1) <= Multiplier(c2)
  {
  }

  /** The boundary cases of the tier table. */
  lemma MultiplierExamples()
    ensures Multiplier(0.19999) == 1500
    ensures Multiplier(0.2) == 2000
    ensures Multiplier(0.59999) == 2000
    ensures Multiplier(0.6) == 2500
    ensures Multiplier(0.99) == 2500
  {
  }

  /** area_in2 * coverage * multiplier, before rounding. */
  function ExactStitches(areaIn2: real, coverage: real): (e: real)
    ensures areaIn2 >= 0.0 && coverage >= 0.0 ==> e >= 0.0
  {
    var m := Multiplier(coverage) as real;
    assert areaIn2 >= 0.0 && coverage >= 0.0 ==> areaIn2 * coverage * m >= 0.0 by {
      if areaIn2 >= 0.0 && coverage >= 0.0 {
        ScaleMonotone(0.0, areaIn2, coverage);
        ScaleMonotone(0.0, areaIn2 * coverage, m);
      }
    }
    areaIn2 * coverage * m
  }

  /** round(area_in2 * coverage * multiplier): the nearest whole stitch count. */
  function StitchEstimate(areaIn2: real, coverage: real): (s: int)
    ensures ExactStitches(areaIn2, coverage) - 0.5 <= s as real <= ExactStitches(areaIn2, coverage) + 0.5
    ensures areaIn2 >= 0.0 && coverage >= 0.0 ==> s >= 0
  {
    Round(ExactStitches(areaIn2, coverage))
  }

  lemma ScaleMonotone(a1: real, a2: real, k: real)
    requires a1 <= a2 && k >= 0.0
    ensures a1 * k <= a2 * k
  {
  }

  lemma ProductMonotone(a1: real, a2: real, b1: real, b2: real)
    requires 0.0 <= a1 <= a2 && 0.0 <= b1 <= b2
    ensures a1 * b1 <= a2 * b2
  {
    ScaleMonotone(a1, a2, b1);
    assert a2 * b1 <= a2 * b2;
  }

  /** No coverage, no stitches. */
  lemma StitchesOfBlank(areaIn2: real)
    ensures StitchEstimate(areaIn2, 0.0) == 0
  {
    assert ExactStitches(areaIn2, 0.0) == 0.0;
    RoundInteger(0);
  }

  /** More area never means fewer stitches. */
  lemma StitchesMonotoneInArea(a1: real, a2: real, coverage: real)
    requires a1 <= a2 && coverage >= 0.0
    ensures StitchEstimate(a1, coverage) <= StitchEstimate(a2, coverage)
  {
    var m := Multiplier(coverage) as real;
    ScaleMonotone(a1, a2, coverage);
    ScaleMonotone(a1 * coverage, a2 * coverage, m);
    RoundMonotone(ExactStitches(a1, coverage), ExactStitches(a2, coverage));
  }

  lemma MulNonNegative(a: real, b: real)
    requires a >= 0.0 && b >= 0.0
    ensures a * b >= 0.0
  {
  }

  lemma MulLeftMonotone(k: real, x1: real, x2: real)
    requires k >= 0.0 && x1 <= x2
    ensures k * x1 <= k * x2
  {
  }

  /** The unrounded estimate never falls as coverage grows. */
  lemma ExactStitchesMonotoneInCoverage(areaIn2: real, c1: real, c2: real)
    requires areaIn2 >= 0.0 && 0.0 <= c1 <= c2
    ensures ExactStitches(areaIn2, c1) <= ExactStitches(areaIn2, c2)
  {
    MultiplierMonotone(c1, c2);
    var m1, m2 := Multiplier(c1) as real, Multiplier(c2) as real;
    TripleProductMonotone(areaIn2, c1, c2, m1, m2);
    assert ExactStitches(areaIn2, c1) == areaIn2 * c1 * m1;
    assert ExactStitches(areaIn2, c2) == areaIn2 * c2 * m2;
  }

  lemma TripleProductMonotone(a: real, c1: real, c2: real, m1: real, m2: real)
    requires a >= 0.0 && 0.0 <= c1 <= c2 && 0.0 <= m1 <= m2
    ensures a * c1 * m1 <= a * c2 * m2
  {
    MulNonNegative(a, c1);
    MulLeftMonotone(a, c1, c2);
    ProductMonotone(a * c1, a * c2, m1, m2);
  }

  /** More coverage never means fewer stitches, within a tier and also across
      tiers, because the multiplier itself never decreases. */
  lemma StitchesMonotoneInCoverage(areaIn2: real, c1: real, c2: real)
    requires areaIn2 >= 0.0 && 0.0 <= c1 <= c2
    ensures StitchEstimate(areaIn2, c1) <= StitchEstimate(areaIn2, c2)
  {
    ExactStitchesMonotoneInCoverage(areaIn2, c1, c2);
    RoundMonotone(ExactStitches(areaIn2, c1), ExactStitches(areaIn2, c2));
  }

  /** A full 100 in² design at full coverage: 250000 stitches. */
  lemma StitchesFullCoverage()
    ensures StitchEstimate(100.0, 1.0) == 250000
  {
    RoundInteger(250000);
  }
}
