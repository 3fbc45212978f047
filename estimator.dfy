/** The estimate chain of EmbroideryEstimator::estimate(): resolve the DPI,
    convert the trimmed size, count dark pixels of the analysis grid, pick
    the density tier, and derive stitches, minutes, thread and price. The
    image library (decode, trim, scale, preview encoding) is outside the
    model: the trimmed dimensions and the analysis grid are inputs. */
module Estimator {
  import opened Outcomes
  import opened Pixels
  import opened Coverage
  import opened Dimensions
  import opened Rounding
  import opened Decimals
  import opened Stitches
  import opened Production

  /** The numeric fields of the result array, rounded as the source rounds them. */
  datatype EstimationResult = EstimationResult(
    widthCm: real,            // round(width_cm, TwoDecimals)
    heightCm: real,           // round(height_cm, TwoDecimals)
    areaCm2: real,            // round(area_cm2, TwoDecimals)
    coveragePercent: real,    // round(coverage * 100, OneDecimal)
    estimatedStitches: int,   // round(area_in2 * coverage * multiplier)
    productionMinutes: real,  // round(stitches / machineSpeed, OneDecimal)
    threadMeters: real,       // round(stitches / 1000 * 6, OneDecimal)
    price: real)              // number_format(price, TwoDecimals), as a number

  /** Everything after the pixel loop, given its count. Each division by zero
      of the source becomes the matching error, checked in source order. */
  function EstimateFromCounts(resolution: Option<Resolution>, trimmedWidth: nat, trimmedHeight: nat,
                              analysisWidth: nat, analysisHeight: nat, darkPixels: nat,
                              cfg: Config): (r: Result<EstimationResult>)
    ensures r == Err(ZeroResolution) <==> ResolveDpi(resolution) == 0.0
    ensures r == Err(EmptyAnalysisImage) <==>
      ResolveDpi(resolution) != 0.0 && analysisWidth * analysisHeight == 0
    ensures r == Err(ZeroMachineSpeed) <==>
      ResolveDpi(resolution) != 0.0 && analysisWidth * analysisHeight != 0 && cfg.machineSpeed == 0.0
  {
    var dpi := ResolveDpi(resolution);
    if dpi == 0.0 then Err(ZeroResolution)
    else
      var size := ToPhysical(trimmedWidth, trimmedHeight, dpi);
      var coverage := CoverageFraction(darkPixels, analysisWidth * analysisHeight);
      if coverage.Err? then Err(coverage.error)
      else if cfg.machineSpeed == 0.0 then Err(ZeroMachineSpeed)
      else
        var stitches := StitchEstimate(size.areaIn2, coverage.value);
        Ok(EstimationResult(
          RoundDecimals(size.widthCm, TwoDecimals),
          RoundDecimals(size.heightCm, TwoDecimals),
          RoundDecimals(size.areaCm2, TwoDecimals),
          RoundDecimals(coverage.value * 100.0, OneDecimal),
          stitches,
          RoundDecimals(Minutes(stitches, cfg.machineSpeed), OneDecimal),
          RoundDecimals(ThreadMeters(stitches), OneDecimal),
          RoundDecimals(Price(stitches, cfg), TwoDecimals)))
  }

  /** The whole estimate: the pixel loop, then the formula chain. */
  method Estimate(resolution: Option<Resolution>, trimmedWidth: nat, trimmedHeight: nat,
                  analysis: array2<Rgb>, cfg: Config) returns (r: Result<EstimationResult>)
    ensures r == EstimateFromCounts(resolution, trimmedWidth, trimmedHeight,
                                    analysis.Length0, analysis.Length1, DarkCount(analysis), cfg)
  {
    var darkPixels := CountDarkPixels(analysis);
    r := EstimateFromCounts(resolution, trimmedWidth, trimmedHeight,
                            analysis.Length0, analysis.Length1, darkPixels, cfg);
  }

  /** A value of at most 100 stays at most 100 when rounded to one decimal. */
  lemma RoundOneDecimalAtMost100(v: real)
    requires v <= 100.0
    ensures RoundDecimals(v, OneDecimal) <= 100.0
  {
    RoundDecimalsMonotone(v, 100.0, OneDecimal);
    RoundDecimalsOnGrid(1000, OneDecimal);
  }

  /** With non-negative metadata and rates, a positive machine speed and a
      count that fits the grid, the estimate succeeds and every field lies in
      its range: sizes, stitches, time and thread non-negative, coverage
      within 0 .. 100 percent, price at least the base fee rounded to cents. */
  lemma EstimateInRange(resolution: Option<Resolution>, trimmedWidth: nat, trimmedHeight: nat,
                        analysisWidth: nat, analysisHeight: nat, darkPixels: nat, cfg: Config)
    requires resolution.Some? ==> resolution.value.x >= 0.0 && resolution.value.y >= 0.0
    requires analysisWidth * analysisHeight > 0 && darkPixels <= analysisWidth * analysisHeight
    requires cfg.machineSpeed > 0.0 && cfg.pricePerThousand >= 0.0 && cfg.baseFee >= 0.0
    ensures var r := EstimateFromCounts(resolution, trimmedWidth, trimmedHeight,
                                        analysisWidth, analysisHeight, darkPixels, cfg);
      && r.Ok?
      && r.value.widthCm >= 0.0 && r.value.heightCm >= 0.0 && r.value.areaCm2 >= 0.0
      && 0.0 <= r.value.coveragePercent <= 100.0
      && r.value.estimatedStitches >= 0
      && r.value.productionMinutes >= 0.0 && r.value.threadMeters >= 0.0
      && r.value.price >= RoundDecimals(cfg.baseFee, TwoDecimals) && r.value.price >= 0.0
  {
    ResolveDpiPositive(resolution);
    var dpi := ResolveDpi(resolution);
    ToPhysicalNonNegative(trimmedWidth, trimmedHeight, dpi);
    var total := analysisWidth * analysisHeight;
    var c := CoverageFraction(darkPixels, total).value;
    assert 0.0 <= c <= 1.0;
    assert c * 100.0 <= 100.0;
    RoundOneDecimalAtMost100(c * 100.0);
    var size := ToPhysical(trimmedWidth, trimmedHeight, dpi);
    var stitches := StitchEstimate(size.areaIn2, c);
    PriceMonotone(stitches, stitches, cfg);
    RoundDecimalsMonotone(cfg.baseFee, Price(stitches, cfg), TwoDecimals);
  }

  /** More dark pixels in the same grid never lower the stitch estimate. */
  lemma EstimateMonotoneInDarkPixels(resolution: Option<Resolution>, trimmedWidth: nat, trimmedHeight: nat,
                                     analysisWidth: nat, analysisHeight: nat, d1: nat, d2: nat, cfg: Config)
    requires resolution.Some? ==> resolution.value.x >= 0.0 && resolution.value.y >= 0.0
    requires analysisWidth * analysisHeight > 0 && cfg.machineSpeed != 0.0
    requires d1 <= d2
    ensures var r1 := EstimateFromCounts(resolution, trimmedWidth, trimmedHeight, analysisWidth, analysisHeight, d1, cfg);
      var r2 := EstimateFromCounts(resolution, trimmedWidth, trimmedHeight, analysisWidth, analysisHeight, d2, cfg);
      r1.Ok? && r2.Ok? && r1.value.estimatedStitches <= r2.value.estimatedStitches
  {
    ResolveDpiPositive(resolution);
    var dpi := ResolveDpi(resolution);
    ToPhysicalNonNegative(trimmedWidth, trimmedHeight, dpi);
    var t := (analysisWidth * analysisHeight) as real;
    var c1, c2 := d1 as real / t, d2 as real / t;
    DivideBounds(d1 as real, d1 as real, d2 as real, t);
    StitchesMonotoneInCoverage(ToPhysical(trimmedWidth, trimmedHeight, dpi).areaIn2, c1, c2);
  }

  /** A 720 x 720 design at 72 DPI whose analysis grid is entirely dark:
      25.4 cm square, 645.16 cm², 100 % coverage, 250000 stitches,
      312.5 minutes, 1500 m of thread and a price of 380. */
  lemma FullyDarkTenInchDesign(analysis: array2<Rgb>)
    requires analysis.Length0 > 0 && analysis.Length1 > 0
    requires forall x, y :: 0 <= x < analysis.Length0 && 0 <= y < analysis.Length1 ==> IsDark(analysis[x, y])
    ensures EstimateFromCounts(Some(Resolution(72.0, 72.0)), 720, 720, analysis.Length0, analysis.Length1,
                               DarkCount(analysis), DefaultConfig)
         == Ok(EstimationResult(25.4, 25.4, 645.16, 100.0, 250000, 312.5, 1500.0, 380.0))
  {
    DarkCountBounds(analysis);
    var total := analysis.Length0 * analysis.Length1;
    assert DarkCount(analysis) == total;
    FractionExtremes(total, total);
    assert CoverageFraction(DarkCount(analysis), total) == Ok(1.0);
    ToPhysicalTenInches();
    StitchesFullCoverage();
    DefaultRatesExample();
    RoundInteger(2540);
    RoundInteger(64516);
    RoundInteger(1000);
    RoundInteger(3125);
    RoundInteger(15000);
    RoundInteger(38000);
  }

  /** A 300 x 300 design at the default 72 DPI with 15 % coverage
      (6000 dark pixels of its 200 x 200 analysis grid) falls into the light tier. */
  lemma LightTierDesign()
    ensures EstimateFromCounts(None, 300, 300, 200, 200, 6000, DefaultConfig)
         == Ok(EstimationResult(10.58, 10.58, 112.01, 15.0, 3906, 4.9, 23.4, 10.86))
  {
    assert ToPhysical(300, 300, 72.0) == PhysicalSize(63.5 / 6.0, 63.5 / 6.0, 4032.25 / 36.0, 625.0 / 36.0);
    assert CoverageFraction(6000, 200 * 200) == Ok(0.15);
    assert Multiplier(0.15) == 1500;
    RoundUnique(3906.25, 3906);
    assert StitchEstimate(625.0 / 36.0, 0.15) == 3906;
    RoundUnique(6350.0 / 6.0, 1058);
    RoundUnique(403225.0 / 36.0, 11201);
    RoundInteger(150);
    RoundUnique(48.825, 49);
    RoundUnique(234.36, 234);
    RoundUnique(1085.9, 1086);
  }

  /** A grid with no dark pixel is not an error: it yields zero coverage,
      zero stitches, no time, no thread and the base fee as the price. */
  lemma BlankDesign(resolution: Option<Resolution>, trimmedWidth: nat, trimmedHeight: nat,
                    analysis: array2<Rgb>, cfg: Config)
    requires ResolveDpi(resolution) != 0.0 && cfg.machineSpeed != 0.0
    requires analysis.Length0 > 0 && analysis.Length1 > 0
    requires forall x, y :: 0 <= x < analysis.Length0 && 0 <= y < analysis.Length1 ==> !IsDark(analysis[x, y])
    ensures var r := EstimateFromCounts(resolution, trimmedWidth, trimmedHeight,
                                        analysis.Length0, analysis.Length1, DarkCount(analysis), cfg);
      && r.Ok?
      && r.value.coveragePercent == 0.0
      && r.value.estimatedStitches == 0
      && r.value.productionMinutes == 0.0
      && r.value.threadMeters == 0.0
      && r.value.price == RoundDecimals(cfg.baseFee, TwoDecimals)
  {
    DarkCountBounds(analysis);
    var total := analysis.Length0 * analysis.Length1;
    assert CoverageFraction(DarkCount(analysis), total) == Ok(0.0);
    var dpi := ResolveDpi(resolution);
    var area := ToPhysical(trimmedWidth, trimmedHeight, dpi).areaIn2;
    StitchesOfBlank(area);
    RoundInteger(0);
    assert RoundDecimals(0.0, OneDecimal) == 0.0;
    assert Minutes(0, cfg.machineSpeed) == 0.0;
    assert ThreadMeters(0) == 0.0;
    assert Price(0, cfg) == cfg.baseFee;
  }
}
