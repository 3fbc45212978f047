# Embroidery stitch estimator — Dafny model

This project models the estimation chain of the Livewire component
`EmbroideryEstimator::estimate()`. The component reads an uploaded design image,
resolves its DPI and converts the trimmed pixel size to centimetres and square
inches. It counts the "dark" pixels of a 200-pixel-wide analysis copy to get a
coverage fraction. It picks a stitch-density tier from the coverage and derives
the number of stitches, the machine minutes, the thread metres and the price.

The image library cannot be seen from the model, so its results are inputs:
- the resolution metadata (`Option<Resolution>`);
- the width and height of the trimmed image;
- the analysis grid, as an `array2<Rgb>` addressed `[x, y]` the way `pickColor(x, y)` is;
- the rates (`Config`; `DefaultConfig` holds the component's defaults 800, 1.5 and 5).

Arithmetic is over exact reals. PHP's `round` is modelled as round-half-away-from-zero.

Modules, in pipeline order:
- `Outcomes`: `Option` and `Result`, plus one `Error` per unguarded division of the source.
- `Pixels`: channels, pixels and the dark test.
- `Coverage`: the nested counting loop and the coverage fraction.
- `Dimensions`: the DPI rule and the pixel-to-physical conversion.
- `Rounding`: `round($v)` to a whole number.
- `Decimals`: `round($v, 1)`, `round($v, 2)` and `number_format($v, 2)`.
- `Stitches`: the density tier and the stitch estimate.
- `Production`: minutes, thread and price.
- `Estimator`: the assembled estimate and worked examples.

Behaviour of the code that a reader might not expect, modelled as written:
- DPI test: the code tests the resolution components for being non-zero (PHP truthiness), not positive. So components of opposite sign can give DPI 0 (`ResolveDpiCanBeZero`). The division at lines 53-54 then fails, which the model reports as `ZeroResolution`.
- Blank designs: the code has no "empty design" error. A grid with no dark pixel gives coverage 0, zero stitches and the base fee as price (`BlankDesign`). Only an analysis grid with no pixels at all is an error (`EmptyAnalysisImage`), because the division at line 75 is unguarded.
- Configuration: the code does not validate the rates. Only a machine speed of exactly 0 fails (line 89, `ZeroMachineSpeed`). Negative rates compute values.

## Model

| member | source | states |
|---|---|---|
| Pixels.IsDark | app/Livewire/EmbroideryEstimator.php:70 | a pixel is dark exactly when r + g + b < 750, which is the mean-below-250 test |
| Pixels.GreyIsDark | app/Livewire/EmbroideryEstimator.php:70 | a grey pixel is dark exactly when its level is below 250 |
| Pixels.WhiteAndBlack | app/Livewire/EmbroideryEstimator.php:70 | white is background and black is dark |
| Pixels.ThresholdIsStrict | app/Livewire/EmbroideryEstimator.php:70 | grey 249 is dark and grey 250 is not |
| Coverage.CountDarkPixels | app/Livewire/EmbroideryEstimator.php:64-74 | the x-outer, y-inner loop returns the number of dark pixels of the grid |
| Coverage.DarkCountIsCellCount | app/Livewire/EmbroideryEstimator.php:67-74 | that count equals the size of the set of dark coordinates, so each cell is counted once and the visiting order does not matter |
| Coverage.DarkCountBounds | app/Livewire/EmbroideryEstimator.php:64-74 | the count is at most width * height; it is 0 iff no pixel is dark and width * height iff every pixel is dark |
| Coverage.CoverageFraction | app/Livewire/EmbroideryEstimator.php:65-75 | an empty grid is an error; otherwise coverage * total equals the dark count and lies in [0, 1] |
| Coverage.CoverageOfGrid | app/Livewire/EmbroideryEstimator.php:64-75 | on a non-empty grid coverage is in [0, 1], 0 iff no pixel is dark, 1 iff all are |
| Dimensions.HasResolution | app/Livewire/EmbroideryEstimator.php:45 | the metadata is usable exactly when it is present and neither component is zero |
| Dimensions.ResolveDpi | app/Livewire/EmbroideryEstimator.php:43-47 | mean of both components when both are present and non-zero, otherwise 72 |
| Dimensions.ResolveDpiPositive | app/Livewire/EmbroideryEstimator.php:43-54 | with non-negative metadata the DPI is positive, so the divisions at lines 53-54 are defined, and it lies between the two components |
| Dimensions.ResolveDpiCanBeZero | app/Livewire/EmbroideryEstimator.php:45-46 | the non-zero guard admits components summing to zero, giving DPI 0 |
| Dimensions.ToPhysical | app/Livewire/EmbroideryEstimator.php:53-57 | cm = 2.54 * inches per side; square inches equal the product of the inch sides; cm² = 6.4516 * in² |
| Dimensions.ToPhysicalNonNegative | app/Livewire/EmbroideryEstimator.php:53-57 | at positive DPI all measures are non-negative and the area is 0 iff a side has no pixels |
| Dimensions.ToPhysicalScalesWithWidth | app/Livewire/EmbroideryEstimator.php:53-57 | k times the pixel width gives k times the width and areas, same height |
| Dimensions.ToPhysicalTenInches | app/Livewire/EmbroideryEstimator.php:53-57 | 720 x 720 px at 72 DPI is 25.4 cm, 645.16 cm² and exactly 100 in² |
| Dimensions.ToPhysicalSinglePixel | app/Livewire/EmbroideryEstimator.php:53-57 | a 1 x 1 design has defined positive area 1 / dpi² in² |
| Rounding.Round | app/Livewire/EmbroideryEstimator.php:86 | result within 1/2 of the value, ties away from zero |
| Rounding.RoundUnique | app/Livewire/EmbroideryEstimator.php:86 | those conditions determine the rounded integer uniquely |
| Rounding.RoundMonotone | app/Livewire/EmbroideryEstimator.php:86 | rounding is non-decreasing |
| Rounding.RoundOdd | app/Livewire/EmbroideryEstimator.php:86 | round(-v) = -round(v) |
| Rounding.RoundInteger | app/Livewire/EmbroideryEstimator.php:86 | integers round to themselves |
| Decimals.RoundDecimals | app/Livewire/EmbroideryEstimator.php:89-105 | round(v, 1) and round(v, 2), used for minutes, thread, the displayed sizes and coverage, and the two decimals of number_format: the result is on the grid of the kept decimal, at the grid point that round() picks for v, so within half a unit and with ties away from zero; non-negative values stay non-negative |
| Decimals.RoundDecimalsMonotone | app/Livewire/EmbroideryEstimator.php:89-105 | rounding to n decimals is non-decreasing |
| Decimals.RoundDecimalsOnGrid | app/Livewire/EmbroideryEstimator.php:89-105 | a value that already has at most n decimals is unchanged |
| Stitches.Multiplier | app/Livewire/EmbroideryEstimator.php:78-84 | the multiplier is 1500, 2000 or 2500: 1500 iff coverage < 0.2, 2000 iff 0.2 <= coverage < 0.6, 2500 iff coverage >= 0.6 |
| Stitches.MultiplierOfCounts | app/Livewire/EmbroideryEstimator.php:75-84 | for coverage dark/total the tier is decided by 5*dark < total and 5*dark < 3*total |
| Stitches.MultiplierMonotone | app/Livewire/EmbroideryEstimator.php:78-84 | the multiplier is non-decreasing in coverage |
| Stitches.MultiplierExamples | app/Livewire/EmbroideryEstimator.php:78-84 | 0.19999 gives 1500, 0.2 and 0.59999 give 2000, 0.6 and 0.99 give 2500 |
| Stitches.ExactStitches | app/Livewire/EmbroideryEstimator.php:86 | the unrounded estimate is non-negative for non-negative area and coverage |
| Stitches.StitchEstimate | app/Livewire/EmbroideryEstimator.php:86 | the stitch count is within 1/2 of area * coverage * multiplier and non-negative for non-negative inputs |
| Stitches.StitchesOfBlank | app/Livewire/EmbroideryEstimator.php:86 | zero coverage gives zero stitches |
| Stitches.StitchesMonotoneInArea | app/Livewire/EmbroideryEstimator.php:86 | stitches are non-decreasing in area |
| Stitches.ExactStitchesMonotoneInCoverage | app/Livewire/EmbroideryEstimator.php:78-86 | the unrounded estimate is non-decreasing in coverage, across tier boundaries too |
| Stitches.StitchesMonotoneInCoverage | app/Livewire/EmbroideryEstimator.php:78-86 | stitches are non-decreasing in coverage, across tier boundaries too |
| Stitches.StitchesFullCoverage | app/Livewire/EmbroideryEstimator.php:86 | 100 in² at full coverage gives 250000 stitches |
| Production.Minutes | app/Livewire/EmbroideryEstimator.php:89 | minutes times machine speed equals the stitch count; non-negative for a positive speed |
| Production.ThreadMeters | app/Livewire/EmbroideryEstimator.php:92 | 1000 * metres = 6 * stitches; non-negative for non-negative stitches |
| Production.Price | app/Livewire/EmbroideryEstimator.php:95 | 1000 * (price - base fee) = stitches * price per thousand |
| Production.MinutesMonotone | app/Livewire/EmbroideryEstimator.php:89 | minutes are non-decreasing in stitches at positive speed |
| Production.ThreadAdditive | app/Livewire/EmbroideryEstimator.php:92 | thread is additive in stitches, hence non-decreasing |
| Production.PriceMonotone | app/Livewire/EmbroideryEstimator.php:95 | price is non-decreasing in stitches, strictly when the rate is positive, and at least the base fee |
| Production.DefaultRatesExample | app/Livewire/EmbroideryEstimator.php:19-21 | with rates 800, 1.5 and 5, 250000 stitches give 312.5 min, 1500 m and 380 |
| Estimator.EstimateFromCounts | app/Livewire/EmbroideryEstimator.php:43-106 | fails with ZeroResolution, EmptyAnalysisImage or ZeroMachineSpeed exactly at the source's three unguarded divisions, in source order |
| Estimator.Estimate | app/Livewire/EmbroideryEstimator.php:43-106 | the estimate is the formula chain applied to the loop's dark count |
| Estimator.RoundOneDecimalAtMost100 | app/Livewire/EmbroideryEstimator.php:101 | rounding a percentage to one decimal keeps it at most 100 |
| Estimator.EstimateInRange | app/Livewire/EmbroideryEstimator.php:43-106 | with non-negative inputs and a positive speed the estimate succeeds: sizes, stitches, minutes, thread and price non-negative, coverage in 0..100 %, price at least the base fee rounded to cents |
| Estimator.EstimateMonotoneInDarkPixels | app/Livewire/EmbroideryEstimator.php:64-86 | more dark pixels in the same grid never lower the stitch count |
| Estimator.FullyDarkTenInchDesign | app/Livewire/EmbroideryEstimator.php:43-106 | 720 x 720 at 72 DPI, all dark: 25.4 cm, 645.16 cm², 100 %, 250000 stitches, 312.5 min, 1500 m, 380 |
| Estimator.LightTierDesign | app/Livewire/EmbroideryEstimator.php:43-106 | 300 x 300 at default DPI, 6000 dark pixels of a 200 x 200 grid (15 % coverage): 10.58 cm, 112.01 cm², 3906 stitches, 4.9 min, 23.4 m, 10.86 |
| Estimator.BlankDesign | app/Livewire/EmbroideryEstimator.php:64-106 | a grid without dark pixels is not an error: 0 % coverage, 0 stitches, 0 min, 0 m, price = base fee |

## Left out

- Upload validation (lines 26-28), S3 storage and temporary-file cleanup (lines 32-36, 110-113, 124-130): I/O against external services.
- The component lifecycle: `updatedDesign`, `mount`, `__destruct` and `render` (lines 116-146), and the Blade view. These are framework and UI state.
- Decoding, `trim()`, `scale(width: 200)` and `pickColor` of the image library (lines 39-43, 49, 60, 69): foreign code whose heuristics are not visible. The trimmed dimensions and the analysis grid are therefore inputs, and nothing ties the grid to the trimmed size.
- The preview image `toWebp()->toDataUri()` (line 61): opaque encoding by the library.
- The `catch`/`finally` flow (lines 108-113). The three `Error` values stand for the uncaught failure of PHP 8 at a division by zero. That failure is a `DivisionByZeroError`, which is an `\Error` and not an `\Exception`, so the `catch` at line 108 lets it through: no form message is set, and only the `finally` cleanup runs before it propagates. The form error message of line 109 is set only for exceptions thrown by the image library and the storage calls, which are not part of this model.
- Decimals.RoundDecimals: only one and two decimals are modelled, the two precisions the estimate uses.
- IEEE double behaviour: all arithmetic is exact; PHP's `round` pre-rounding of binary floats is not modelled.
- The string form of the result (the `%`, ` min`, ` m` and `$` affixes, the thousands separator of `number_format`, lines 101-105). Their numbers are modelled, rounded as the source rounds them.
- Idempotence of the whole estimate is not stated as a lemma: every member is a function of its inputs, so it holds by construction.
