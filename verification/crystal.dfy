/**
 * The angle / walk-off calculator for Ti:Sapphire harmonic generation.
 *
 * Two fixed calibration tables, 31 points each from 700 nm to 1000 nm: LBO
 * for the second harmonic and BBO for the third. Given a wavelength and a
 * harmonic, the calculator picks the table and interpolates the
 * phase-matching angle (degrees) and the walk-off (mrad) linearly between
 * the calibration points; outside them the interpolation library's default
 * linear extrapolation is assumed. `f32` values
 * are exact reals here.
 */
module Crystal {
  import opened Interpolation

  /** The harmonic-generation order the user selects. */
  datatype Harmonic = Second | Third

  /** One calibration table: knots and the two series sampled at them. */
  datatype CrystalData = CrystalData(wavelengths: seq<real>, angles: seq<real>, walkoffs: seq<real>)
  {
    /** Both series can be built into curves over the wavelength knots. */
    predicate WellFormed() {
      ValidCurve(wavelengths, angles) && ValidCurve(wavelengths, walkoffs)
    }
  }

  /** The range the calibration covers, and the only one the wavelength slider offers. */
  const MinWavelength: real := 700.0
  const MaxWavelength: real := 1000.0

  /** LBO calibration used for second-harmonic generation. */
  const SecondHarmonicLbo: CrystalData := CrystalData(
    [700.0, 710.0, 720.0, 730.0, 740.0, 750.0, 760.0, 770.0, 780.0, 790.0, 800.0, 810.0, 820.0, 830.0, 840.0, 850.0,
     860.0, 870.0, 880.0, 890.0, 900.0, 910.0, 920.0, 930.0, 940.0, 950.0, 960.0, 970.0, 980.0, 990.0, 1000.0],
    [43.4, 42.0, 40.7, 39.4, 38.2, 37.0, 35.9, 34.7, 33.7, 32.6, 31.6, 30.7, 29.7, 28.8, 27.9, 27.0,
     26.1, 25.3, 24.4, 23.6, 22.8, 22.0, 21.3, 20.5, 19.8, 19.0, 18.3, 17.6, 16.9, 16.2, 15.6],
    [18.83, 18.71, 18.55, 18.36, 18.15, 17.91, 17.66, 17.38, 17.1, 16.79, 16.48, 16.16, 15.83, 15.49, 15.15, 14.8,
     14.44, 14.08, 13.72, 13.36, 12.99, 12.62, 12.25, 11.88, 11.51, 11.14, 10.77, 10.39, 10.02, 9.65, 9.27])

  /** BBO calibration used for third-harmonic generation. */
  const ThirdHarmonicBbo: CrystalData := CrystalData(
    [700.0, 710.0, 720.0, 730.0, 740.0, 750.0, 760.0, 770.0, 780.0, 790.0, 800.0, 810.0, 820.0, 830.0, 840.0, 850.0,
     860.0, 870.0, 880.0, 890.0, 900.0, 910.0, 920.0, 930.0, 940.0, 950.0, 960.0, 970.0, 980.0, 990.0, 1000.0],
    [53.3, 53.0, 51.8, 50.7, 49.6, 48.6, 47.7, 46.8, 45.9, 45.1, 44.3, 43.5, 42.8, 42.1, 41.5, 40.8,
     40.2, 39.6, 39.1, 38.5, 38.0, 37.5, 37.0, 36.5, 36.0, 35.6, 35.2, 34.7, 34.3, 33.9, 33.5],
    [85.81, 86.52, 87.01, 87.32, 87.48, 87.52, 87.45, 87.3, 87.06, 86.77, 86.42, 86.03, 85.6, 85.14, 84.66, 84.15,
     83.62, 83.09, 82.54, 81.98, 81.41, 80.84, 80.27, 79.7, 79.12, 78.55, 77.98, 77.41, 76.85, 76.29, 75.73])

  /** `wavelength` lies in the calibrated range. */
  predicate InCalibratedRange(wavelength: real) {
    MinWavelength <= wavelength <= MaxWavelength
  }

  /**
   * The calibration table the harmonic selects: LBO for Second, BBO for
   * Third. Either one can be built into curves over 700 to 1000 nm.
   */
  function SelectTable(harmonic: Harmonic): (d: CrystalData)
    ensures d.WellFormed() && |d.wavelengths| == 31
    ensures d.wavelengths[0] == MinWavelength && d.wavelengths[30] == MaxWavelength
    ensures d == SecondHarmonicLbo <==> harmonic == Second
    ensures d == ThirdHarmonicBbo <==> harmonic == Third
  {
    TablesWellFormed();
    match harmonic
    case Second => SecondHarmonicLbo
    case Third => ThirdHarmonicBbo
  }

  /**
   * Samples one table at `wavelength`: the angle from its angle series and
   * the walk-off from its walk-off series, each through a one-point query
   * on the same knots, returned as (angle, walk-off).
   */
  function AngleWalkoffFrom(d: CrystalData, wavelength: real): (r: (real, real))
    requires d.WellFormed()
    ensures r.0 == LinearAt(d.wavelengths, d.angles, wavelength)
    ensures r.1 == LinearAt(d.wavelengths, d.walkoffs, wavelength)
  {
    var angle := Interpolate(d.wavelengths, d.angles, [wavelength])[0];
    var walkoff := Interpolate(d.wavelengths, d.walkoffs, [wavelength])[0];
    (angle, walkoff)
  }

  /**
   * The (angle, walk-off) pair for a wavelength and harmonic: the selected
   * table's two curves evaluated at the wavelength. Any wavelength is
   * accepted; outside 700 to 1000 nm the edge segments are extended, as the
   * interpolation library is assumed to do.
   */
  function CalculateAngleWalkoff(wavelength: real, harmonic: Harmonic): (r: (real, real))
    ensures var d := SelectTable(harmonic);
            r.0 == LinearAt(d.wavelengths, d.angles, wavelength) &&
            r.1 == LinearAt(d.wavelengths, d.walkoffs, wavelength)
  {
    AngleWalkoffFrom(SelectTable(harmonic), wavelength)
  }

  // ---------------------------------------------------------------------
  // One table sampled

  /** At a knot the sample is exactly that row of the table. */
  lemma SampleAtKnot(d: CrystalData, i: nat)
    requires d.WellFormed() && i < |d.wavelengths|
    ensures InRange(d.wavelengths, d.wavelengths[i])
    ensures AngleWalkoffFrom(d, d.wavelengths[i]) == (d.angles[i], d.walkoffs[i])
  {
    LinearAtKnot(d.wavelengths, d.angles, i);
    LinearAtKnot(d.wavelengths, d.walkoffs, i);
  }

  /** Between two neighbouring knots each output is on the line joining the two rows. */
  lemma SampleBetweenKnots(d: CrystalData, i: nat, wavelength: real)
    requires d.WellFormed() && i < |d.wavelengths| - 1
    requires d.wavelengths[i] <= wavelength <= d.wavelengths[i + 1]
    ensures InRange(d.wavelengths, wavelength)
    ensures var r := AngleWalkoffFrom(d, wavelength);
            r.0 == Lerp(d.wavelengths[i], d.wavelengths[i + 1], d.angles[i], d.angles[i + 1], wavelength) &&
            r.1 == Lerp(d.wavelengths[i], d.wavelengths[i + 1], d.walkoffs[i], d.walkoffs[i + 1], wavelength) &&
            Min(d.angles[i], d.angles[i + 1]) <= r.0 <= Max(d.angles[i], d.angles[i + 1]) &&
            Min(d.walkoffs[i], d.walkoffs[i + 1]) <= r.1 <= Max(d.walkoffs[i], d.walkoffs[i + 1])
  {
    LinearAtOnSegment(d.wavelengths, d.angles, i, wavelength);
    LinearAtOnSegment(d.wavelengths, d.walkoffs, i, wavelength);
    LinearAtBracketed(d.wavelengths, d.angles, i, wavelength);
    LinearAtBracketed(d.wavelengths, d.walkoffs, i, wavelength);
  }

  // ---------------------------------------------------------------------
  // The calibration data

  /**
   * Every series of both tables has 31 entries and the knots increase
   * strictly, so the curve builder never sees a length mismatch or an
   * unsorted knot.
   */
  lemma TablesWellFormed()
    ensures SecondHarmonicLbo.WellFormed() && ThirdHarmonicBbo.WellFormed()
    ensures |SecondHarmonicLbo.wavelengths| == |SecondHarmonicLbo.angles| == |SecondHarmonicLbo.walkoffs| == 31
    ensures |ThirdHarmonicBbo.wavelengths| == |ThirdHarmonicBbo.angles| == |ThirdHarmonicBbo.walkoffs| == 31
  {
  }

  /** The knots of both tables are 700, 710, ..., 1000 nm. */
  lemma KnotsEvenlySpaced()
    ensures |SecondHarmonicLbo.wavelengths| == |ThirdHarmonicBbo.wavelengths| == 31
    ensures forall i :: 0 <= i < 31 ==> SecondHarmonicLbo.wavelengths[i] == MinWavelength + 10.0 * i as real
    ensures forall i :: 0 <= i < 31 ==> ThirdHarmonicBbo.wavelengths[i] == MinWavelength + 10.0 * i as real
  {
  }

  /** The LBO angles fall strictly from one knot to the next. */
  lemma LboAnglesFall()
    ensures StrictlyDecreasing(SecondHarmonicLbo.angles)
  {
  }

  /** The LBO walk-offs fall strictly from one knot to the next. */
  lemma LboWalkoffsFall()
    ensures StrictlyDecreasing(SecondHarmonicLbo.walkoffs)
  {
  }

  /** The BBO angles fall strictly from one knot to the next. */
  lemma BboAnglesFall()
    ensures StrictlyDecreasing(ThirdHarmonicBbo.angles)
  {
  }

  /** The BBO walk-offs rise strictly up to 750 nm and fall strictly after it. */
  lemma BboWalkoffsRiseThenFall()
    ensures |ThirdHarmonicBbo.walkoffs| == 31
    ensures ThirdHarmonicBbo.wavelengths[5] == 750.0 && ThirdHarmonicBbo.walkoffs[5] == 87.52
    ensures forall i :: 0 <= i < 5 ==> ThirdHarmonicBbo.walkoffs[i] < ThirdHarmonicBbo.walkoffs[i + 1]
    ensures forall i :: 5 <= i < 30 ==> ThirdHarmonicBbo.walkoffs[i] > ThirdHarmonicBbo.walkoffs[i + 1]
  {
  }

  /** Every BBO walk-off lies between 75.73 (at 1000 nm) and 87.52 (at 750 nm). */
  lemma BboWalkoffsRange()
    ensures forall i :: 0 <= i < |ThirdHarmonicBbo.walkoffs| ==> 75.73 <= ThirdHarmonicBbo.walkoffs[i] <= 87.52
  {
  }

  // ---------------------------------------------------------------------
  // What the calculator returns

  /** At a calibration wavelength the result is exactly that row of the selected table. */
  lemma CalculateAtKnot(harmonic: Harmonic, i: nat)
    requires i < 31
    ensures var d := SelectTable(harmonic);
            InCalibratedRange(d.wavelengths[i]) &&
            CalculateAngleWalkoff(d.wavelengths[i], harmonic) == (d.angles[i], d.walkoffs[i])
  {
    var d := SelectTable(harmonic);
    SampleAtKnot(d, i);
  }

  /**
   * Between neighbouring calibration wavelengths each output is the straight
   * line between the two rows, so it lies between their values.
   */
  lemma CalculateBetweenKnots(harmonic: Harmonic, i: nat, wavelength: real)
    requires i < 30
    requires SelectTable(harmonic).wavelengths[i] <= wavelength <= SelectTable(harmonic).wavelengths[i + 1]
    ensures InCalibratedRange(wavelength)
    ensures var d := SelectTable(harmonic);
            var r := CalculateAngleWalkoff(wavelength, harmonic);
            r.0 == Lerp(d.wavelengths[i], d.wavelengths[i + 1], d.angles[i], d.angles[i + 1], wavelength) &&
            r.1 == Lerp(d.wavelengths[i], d.wavelengths[i + 1], d.walkoffs[i], d.walkoffs[i + 1], wavelength) &&
            Min(d.angles[i], d.angles[i + 1]) <= r.0 <= Max(d.angles[i], d.angles[i + 1]) &&
            Min(d.walkoffs[i], d.walkoffs[i + 1]) <= r.1 <= Max(d.walkoffs[i], d.walkoffs[i + 1])
  {
    SampleBetweenKnots(SelectTable(harmonic), i, wavelength);
  }

  /** 800 nm is a calibration point of the LBO table. */
  lemma ExampleSecondAt800()
    ensures CalculateAngleWalkoff(800.0, Second) == (31.6, 16.48)
  {
    var d := SelectTable(Second);
    assert d.wavelengths[10] == 800.0 && d.angles[10] == 31.6 && d.walkoffs[10] == 16.48;
    SampleAtKnot(d, 10);
  }

  /** 805 nm is halfway between the LBO rows for 800 nm and 810 nm. */
  lemma ExampleSecondAt805()
    ensures CalculateAngleWalkoff(805.0, Second) == ((31.6 + 30.7) / 2.0, (16.48 + 16.16) / 2.0)
    ensures CalculateAngleWalkoff(805.0, Second) == (31.15, 16.32)
  {
    var d := SelectTable(Second);
    assert d.wavelengths[10] == 800.0 && d.angles[10] == 31.6 && d.walkoffs[10] == 16.48;
    assert d.wavelengths[11] == 810.0 && d.angles[11] == 30.7 && d.walkoffs[11] == 16.16;
    LinearAtMidpoint(d.wavelengths, d.angles, 10);
    LinearAtMidpoint(d.wavelengths, d.walkoffs, 10);
  }

  /** 750 nm is a calibration point of the BBO table, where its walk-off peaks. */
  lemma ExampleThirdAt750()
    ensures CalculateAngleWalkoff(750.0, Third) == (48.6, 87.52)
  {
    var d := SelectTable(Third);
    assert d.wavelengths[5] == 750.0 && d.angles[5] == 48.6 && d.walkoffs[5] == 87.52;
    SampleAtKnot(d, 5);
  }

  /** At 1000 nm the two harmonics give different angles: the tables are told apart. */
  lemma ExampleBothAt1000()
    ensures CalculateAngleWalkoff(1000.0, Second) == (15.6, 9.27)
    ensures CalculateAngleWalkoff(1000.0, Third) == (33.5, 75.73)
  {
    var lbo := SelectTable(Second);
    assert lbo.angles[30] == 15.6 && lbo.walkoffs[30] == 9.27;
    SampleAtKnot(lbo, 30);
    var bbo := SelectTable(Third);
    assert bbo.angles[30] == 33.5 && bbo.walkoffs[30] == 75.73;
    SampleAtKnot(bbo, 30);
  }

  /**
   * Below 700 nm the result continues the line through the 700 nm and 710 nm
   * rows, and above 1000 nm the line through the 990 nm and 1000 nm rows.
   */
  lemma CalculateOutsideRange(harmonic: Harmonic, wavelength: real)
    ensures var d := SelectTable(harmonic);
            var r := CalculateAngleWalkoff(wavelength, harmonic);
            (wavelength < MinWavelength ==>
              r.0 == Lerp(d.wavelengths[0], d.wavelengths[1], d.angles[0], d.angles[1], wavelength) &&
              r.1 == Lerp(d.wavelengths[0], d.wavelengths[1], d.walkoffs[0], d.walkoffs[1], wavelength)) &&
            (wavelength > MaxWavelength ==>
              r.0 == Lerp(d.wavelengths[29], d.wavelengths[30], d.angles[29], d.angles[30], wavelength) &&
              r.1 == Lerp(d.wavelengths[29], d.wavelengths[30], d.walkoffs[29], d.walkoffs[30], wavelength))
  {
    var d := SelectTable(harmonic);
    if wavelength < MinWavelength {
      IncreasingPairwise(d.wavelengths, 0, 1);
      LinearAtFirstLine(d.wavelengths, d.angles, wavelength);
      LinearAtFirstLine(d.wavelengths, d.walkoffs, wavelength);
    } else if wavelength > MaxWavelength {
      IncreasingPairwise(d.wavelengths, 29, 30);
      LinearAtLastLine(d.wavelengths, d.angles, wavelength);
      LinearAtLastLine(d.wavelengths, d.walkoffs, wavelength);
    }
  }

  /** 690 nm lies one step below the LBO table: both outputs continue its first slope. */
  lemma ExampleSecondAt690()
    ensures CalculateAngleWalkoff(690.0, Second) == (44.8, 18.95)
  {
    var d := SelectTable(Second);
    assert d.wavelengths[0] == 700.0 && d.angles[0] == 43.4 && d.walkoffs[0] == 18.83;
    assert d.wavelengths[1] == 710.0 && d.angles[1] == 42.0 && d.walkoffs[1] == 18.71;
    CalculateOutsideRange(Second, 690.0);
  }

  /** For either harmonic a longer wavelength never gives a larger angle. */
  lemma AngleNonIncreasing(harmonic: Harmonic, a: real, b: real)
    requires InCalibratedRange(a) && InCalibratedRange(b) && a <= b
    ensures CalculateAngleWalkoff(a, harmonic).0 >= CalculateAngleWalkoff(b, harmonic).0
  {
    LboAnglesFall();
    BboAnglesFall();
    var d := SelectTable(harmonic);
    LinearAtMonotone(d.wavelengths, d.angles, a, b);
  }

  /** For the second harmonic a longer wavelength never gives a larger walk-off. */
  lemma LboWalkoffNonIncreasing(a: real, b: real)
    requires InCalibratedRange(a) && InCalibratedRange(b) && a <= b
    ensures CalculateAngleWalkoff(a, Second).1 >= CalculateAngleWalkoff(b, Second).1
  {
    TablesWellFormed();
    LboWalkoffsFall();
    LinearAtMonotone(SecondHarmonicLbo.wavelengths, SecondHarmonicLbo.walkoffs, a, b);
  }

  /**
   * The third-harmonic walk-off stays between 75.73 and 87.52 anywhere in the
   * calibrated range, and reaches 87.52 at 750 nm.
   */
  lemma BboWalkoffPeak(wavelength: real)
    requires InCalibratedRange(wavelength)
    ensures 75.73 <= CalculateAngleWalkoff(wavelength, Third).1 <= 87.52
    ensures CalculateAngleWalkoff(750.0, Third).1 == 87.52
  {
    var d := SelectTable(Third);
    BboWalkoffsRange();
    ExampleThirdAt750();
    LinearAtBounded(d.wavelengths, d.walkoffs, wavelength, 75.73, 87.52);
  }

  /**
   * The third-harmonic walk-off is not monotone: its value at 750 nm is
   * above both its value at 700 nm and its value at 1000 nm.
   */
  lemma BboWalkoffNotMonotone()
    ensures CalculateAngleWalkoff(700.0, Third).1 < CalculateAngleWalkoff(750.0, Third).1
    ensures CalculateAngleWalkoff(750.0, Third).1 > CalculateAngleWalkoff(1000.0, Third).1
  {
    var d := SelectTable(Third);
    assert d.walkoffs[0] == 85.81;
    SampleAtKnot(d, 0);
    ExampleThirdAt750();
    ExampleBothAt1000();
  }
}
