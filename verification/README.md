# crystal_angle: the Ti:Sapphire harmonic-generation crystal calculator

crystal_angle is a small desktop application. For a Ti:Sapphire laser wavelength
and a harmonic order it shows which nonlinear crystal to use, the
phase-matching angle in degrees and the walk-off in mrad. Second-harmonic
generation uses LBO. Third-harmonic generation uses BBO.

The model has three modules:

- `Interpolation` (interpolation.dfy) is the piecewise-linear curve the
  calculator builds from a knot vector and a data vector, then samples.
  - Between neighbouring knots the value lies on the straight line through the two data points.
  - Below the first knot or above the last, the model extends the edge segment's line. This is assumed to be the interpolation library's default extrapolation (see "Left out").
  - `Interpolate` samples the curve at a list of query points, giving one output per query.
- `Crystal` (crystal.dfy) holds the `Harmonic` choice, the `CrystalData` table and
  the two fixed 31-row calibration tables (700, 710, …, 1000 nm).
  - `SelectTable` picks the table for a harmonic.
  - `CalculateAngleWalkoff` returns the (angle, walk-off) pair.
  - The lemmas prove what the tables and the calculator promise: well-formed
    tables, exact values at calibration points, linear values and bounds between
    them, extrapolation, monotone angles, and the non-monotone BBO walk-off
    with its 750 nm peak.
- `App` (app.dfy) is the application's state without its user interface.
  - The class `XtalCalculatorApp` has the fields `wavelength`, `harmonic`, `crystal`, `angle` and `walkoff`.
  - It has the default state and the per-frame refresh that overwrites `angle` and `walkoff` from the calculator.
  - `WhichCrystal` gives the crystal label.

`f32` numbers are modelled as exact `real`s.

## Model

| member | source | states |
|---|---|---|
| Interpolation.Interpolate | src/lib.rs:61-64 | one output per query point, in order, each the curve's value at that query |
| Interpolation.LinearAtKnot | src/lib.rs:61-63 | at every knot the curve takes exactly that knot's data value |
| Interpolation.LinearAtOnSegment | src/lib.rs:61-63 | for any segment holding x, the curve at x is the line through that segment's two points; at a shared knot both neighbouring lines agree |
| Interpolation.LinearAtBracketed | src/lib.rs:61-63 | between two neighbouring knots the curve stays between their two data values |
| Interpolation.LinearAtMidpoint | src/lib.rs:61-63 | halfway between two neighbouring knots the curve is the mean of their data values |
| Interpolation.LinearAtBounded | src/lib.rs:61-63 | inside the knot range, data bounded by [lo, hi] give curve values bounded by [lo, hi] |
| Interpolation.LinearAtMonotone | src/lib.rs:61-63 | inside the knot range, non-increasing data give a non-increasing curve |
| Interpolation.LinearAtFirstLine | src/lib.rs:61-63 | up to the second knot, including all queries below the range, the curve is the line through the first two points |
| Interpolation.LinearAtLastLine | src/lib.rs:61-63 | from the second-last knot on, including all queries above the range, the curve is the line through the last two points |
| Crystal.TablesWellFormed | src/lib.rs:25-47 | every series of both tables has 31 entries and the knots strictly increase, so building the curve cannot fail |
| Crystal.KnotsEvenlySpaced | src/lib.rs:26-40 | the knots of both tables are 700 + 10·i nm for i = 0..30 |
| Crystal.LboAnglesFall | src/lib.rs:29-31 | the LBO angles strictly decrease |
| Crystal.LboWalkoffsFall | src/lib.rs:32-34 | the LBO walk-offs strictly decrease |
| Crystal.BboAnglesFall | src/lib.rs:41-43 | the BBO angles strictly decrease |
| Crystal.BboWalkoffsRiseThenFall | src/lib.rs:38-46 | the BBO walk-offs strictly rise up to 87.52 at 750 nm, then strictly fall |
| Crystal.BboWalkoffsRange | src/lib.rs:44-46 | every BBO walk-off lies in [75.73, 87.52] |
| Crystal.SelectTable | src/lib.rs:49-52 | Second selects the LBO table and Third the BBO table (both directions); the selected table is well formed and spans 700 to 1000 nm |
| Crystal.AngleWalkoffFrom | src/lib.rs:55-58 | the first component is the angle curve and the second the walk-off curve, both sampled at the wavelength |
| Crystal.CalculateAngleWalkoff | src/lib.rs:23-59 | for any wavelength, the result is (angle curve, walk-off curve) of the table selected for the harmonic |
| Crystal.SampleAtKnot | src/lib.rs:55-58 | sampling a well-formed table at a knot returns that row's (angle, walk-off) |
| Crystal.SampleBetweenKnots | src/lib.rs:55-58 | between two rows of a well-formed table both outputs lie on the line between the rows and between the rows' values |
| Crystal.CalculateAtKnot | src/lib.rs:23-59 | at each calibration wavelength the result is exactly that row of the selected table |
| Crystal.CalculateBetweenKnots | src/lib.rs:23-59 | between neighbouring calibration wavelengths both outputs are the linear formula over the bracketing rows and lie between their values |
| Crystal.CalculateOutsideRange | src/lib.rs:55-63 | below 700 nm the result continues the 700–710 nm line, above 1000 nm the 990–1000 nm line |
| Crystal.ExampleSecondAt800 | src/lib.rs:25-34 | 800 nm, second harmonic gives (31.6, 16.48) |
| Crystal.ExampleSecondAt805 | src/lib.rs:25-34 | 805 nm, second harmonic gives the means of the 800 and 810 nm rows, (31.15, 16.32) |
| Crystal.ExampleThirdAt750 | src/lib.rs:37-46 | 750 nm, third harmonic gives (48.6, 87.52) |
| Crystal.ExampleBothAt1000 | src/lib.rs:25-46 | at 1000 nm the two harmonics give (15.6, 9.27) and (33.5, 75.73) |
| Crystal.ExampleSecondAt690 | src/lib.rs:25-34 | 690 nm, below the table, second harmonic extrapolates to (44.8, 18.95) |
| Crystal.AngleNonIncreasing | src/lib.rs:23-59 | for either harmonic, within 700–1000 nm a longer wavelength never gives a larger angle |
| Crystal.LboWalkoffNonIncreasing | src/lib.rs:23-59 | for the second harmonic, within 700–1000 nm a longer wavelength never gives a larger walk-off |
| Crystal.BboWalkoffPeak | src/lib.rs:37-59 | the third-harmonic walk-off stays in [75.73, 87.52] over 700–1000 nm and equals 87.52 at 750 nm |
| Crystal.BboWalkoffNotMonotone | src/lib.rs:37-59 | the third-harmonic walk-off at 750 nm exceeds both its value at 700 nm and its value at 1000 nm, so it is not monotone |
| App.WhichCrystal | src/app.rs:165-170 | the label is "LBO" exactly when the calculator uses the LBO table, and "BBO" exactly when it uses the BBO table |
| App.XtalCalculatorApp.constructor | src/app.rs:22-31 | default state: 800 nm, second harmonic, empty crystal name, angle and walk-off 0 |
| App.XtalCalculatorApp.Refresh | src/app.rs:100 | angle and walk-off become the calculator's result for the stored inputs; wavelength, harmonic and crystal are unchanged, so the slider-range invariant `Valid` is kept; refreshing current results changes nothing |
| App.XtalCalculatorApp.Update | src/app.rs:81-100 | the slider value and selected harmonic are stored, stay in the slider's range, and the results match them |
| App.RepaintTwice | src/app.rs:52-100 | two repaints with the same inputs give the same results, namely the calculator's; afterwards the app holds the given wavelength and harmonic, its old crystal name, and that result as its angle and walk-off; only those four fields may change |

## Left out

- The egui user interface (src/app.rs:52-127, 136-160). This covers panels, headings, labels, number formatting to two decimals, the dark/light buttons and the hyperlinks. It is display only.
- Persistence of the application state (src/app.rs:36-47, 129-132). It is I/O through eframe storage. A restored state is modelled only as any state the class can hold.
- `f32` rounding. All arithmetic is exact over reals, so the literals 31.6 etc. are the exact decimals, and results can differ from `f32` results in the last bits.
- CalculateOutsideRange, ExampleSecondAt690, LinearAtFirstLine, LinearAtLastLine: these rest on the out-of-range branches of `LinearAt`, which assume the interpolation library's default linear extrapolation. The source only calls `enterpolation::linear::Linear` (src/lib.rs:61-63), so this behaviour is not visible in the repository. The enterpolation library is not part of this model. The same holds for which inputs its builder rejects: `ValidCurve` states the conditions the model needs, not the library's own checks.
- The curve builder's failure path (`unwrap` at src/lib.rs:62). It is modelled as the precondition `ValidCurve`. `TablesWellFormed` proves that both fixed tables meet it, so the panic cannot happen.
- The `crystal` field is never written by the source after the default state. The label is computed from the harmonic on each frame (src/app.rs:107). The model keeps the field unchanged and provides `WhichCrystal`.
- XtalCalculatorApp.Update: requires a wavelength within 700–1000 nm. This is the range the slider at src/app.rs:81 offers. Refresh and the calculator accept any wavelength.
- AngleNonIncreasing, LboWalkoffNonIncreasing, BboWalkoffPeak: these are stated over the calibrated range 700–1000 nm only, not over the extrapolated parts.
