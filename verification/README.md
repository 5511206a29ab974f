# Flood-risk rules, verified

A Dafny model of the per-cell logic of a set of Python flood-risk scripts.
The scripts read rasters (DEM, rainfall, proximity to water, land use).
They turn each factor into a risk code: 1 Low, 2 Moderate, 3 High, 4 No Data, and 0 "No Risk" in some variants.
They then combine the factor maps, by a rounded weighted sum or an element-wise maximum.
The weights come from the Analytic Hierarchy Process (AHP).

The model covers:

- **the factor classifiers**: slope, rainfall, elevation, proximity, the elevation zones and the land-use table.
  Each is written as numpy's masked assignments applied in source order, where a later write wins (`Masks.Overwrite`).
  Cells are `Num(real) | NaN`, and every comparison with NaN is false (`Cells`).
- **proximity normalisation**: min–max rescaling when the data leaves `[0, 1]`, and blanking of a uniform grid.
- **the aggregators**: the weighted sum with its `np.isclose` weight check and half-to-even rounding, and the two-factor maximum.
- **the joint elevation × rainfall risk table**.
- **AHP**: the column-normalisation approximation with its consistency ratio and the score of the GIS predictor, with numpy's broadcasting of each factor column onto the regions and the DEM column it is given.
  Also the eigenvector variant of the two AHP dialogs, with the eigen-solver as an input.
- **the positional command line** between the dialogs and the four-factor analysis script.
- **the grid utilities**: DEM-masked clipping with the plotting extent, the inundation mask and the raster anomaly report.
- **the colour encoders**: first-occurrence colour ids, the integer image, the palette (PCT) image, the sorted census with counts, the first-occurrence integer table and the colour finder.

Modules:

- `Wrappers`, `Cells`, `Masks`, `Grids`, `Sums` and `Rounding` are shared foundations.
- `Slope`, `Rainfall`, `Elevation`, `Proximity`, `Lookup` and `Aggregate` are the rules of the analysis scripts.
- `Ahp`, `Friz` and `Cli` are the weights and the protocol.
- `Clipping`, `Inundation` and `Anomalies` are the grid utilities.
- `Bands`, `Palette` and `Census` are the colour scripts.

## Model

| member | source | states |
|---|---|---|
| Cells.ClampNegative | Features/slopeelerainprox.py:78 | negative rainfall becomes 0; NaN stays NaN; a non-negative value is unchanged; the result is never negative |
| Masks.LastFiringWriteWins | Features/slopeelerainprox.py:64-68 | after a list of masked writes, a cell holds the value of the last write whose mask fired |
| Masks.SilentKeepsFill | Features/slopeelerainprox.py:64-68 | a cell no mask selects keeps the initial fill (`zeros_like`, `full_like(nan)`) |
| Masks.OverwriteAppend | Features/slopeelerainprox.py:64-68 | running two statement blocks in sequence is running the second on the result of the first |
| Grids.FlattenIndex | color_counter.py:30 | `reshape(-1)` has rows·cols entries, and entry `i*cols+j` is cell `(i, j)` |
| Slope.Classify | Features/slopeelerainprox.py:63-69 | NaN → 4; for any thresholds a value above `high` → 1 (the last band write wins); for `low <= high` every number gets exactly one of 3 (`< low`), 2 (closed `[low, high]`), 1 (`> high`) |
| Slope.ClassifyNonIncreasing | Features/slopeelerainprox.py:65-67 | a steeper slope never gets a higher risk code |
| Slope.ClassifyTwentyForty | Testing/slopeelerainprox.py:25-31 | `< 20` → 3, closed `[20, 40]` → 2, `> 40` → 1, NaN → 4, exactly one each |
| Slope.ClassifyThirtyFifty | slopeelerain.py:25-31 | `< 30` → 3, closed `[30, 50]` → 2, `> 50` → 1, NaN → 4; the identical rule of sloperain.py:25-31 |
| Slope.ClassifyFiveFifteen | slope.py:30-39 | `< 5` → 3, closed `[5, 15]` → 2, `> 15` → 1; with no NaN statement a NaN slope keeps the 0 fill |
| Slope.FiveFifteenNonIncreasing | slope.py:35-37 | the 5/15 code is non-increasing in slope |
| Slope.ClassifyKeepNaN | Features/slope.py:30-39 | output is NaN exactly for NaN input; numbers get 3/2/1 at 30 and 50 (closed middle band) |
| Slope.KeepNaNNonIncreasing | Features/slope.py:35-37 | the NaN-preserving code is non-increasing in slope |
| Rainfall.ClassifyThreeBand | Features/slopeelerainprox.py:80-86 | NaN → 4; for `low <= high` exactly one of 3 (`>= high`), 2 (`[low, high)`), 1 (`< low`); for crossed thresholds `< low` → 1 because it is written last |
| Rainfall.ClassifyClamped | Features/slopeelerainprox.py:78-88 | the script's rainfall step: a negative value is classified like 0, NaN → 4, other values by the three bands |
| Rainfall.ClampedNonDecreasing | Features/slopeelerainprox.py:78-86 | more rain never lowers the code, negative values included |
| Rainfall.ClassifyTwentyForty | Testing/slopeelerainprox.py:41-50 | after clamping: `>= 40` → 3, `[20, 40)` → 2, `< 20` → 1, NaN → 4 |
| Rainfall.ClassifyTwentyTwoTwentySix | slopeelerain.py:41-48 | after clamping: `>= 26` → 3, `[22, 26)` → 2, `< 22` → 1, NaN → 4 |
| Rainfall.ClassifyFourBand | rainpre.py:20-24 | codes in 0..4, 4 exactly for NaN; for ordered thresholds each number gets one of 3, 2, 1, or 0 below `low` |
| Rainfall.PredictWithNaN | rainpre.py:14-24 | negatives clamped first, then the four bands; 4 exactly for NaN, one code per value |
| Rainfall.PredictNonDecreasing | rainpre.py:21-24 | for `low <= medium <= high` the code is non-decreasing in rainfall |
| Rainfall.ClassifyTenTwentyFour | sloperain.py:41-48 | after clamping: `>= 24` → 3, `[20, 24)` → 2, `[10, 20)` → 1, below 10 → 0, NaN → 4; codes in {0..4}; the thresholds of rainpre.py:43 |
| Elevation.ClassifyFrom | Features/slopeelerainprox.py:91-97 | NaN → 4, `>= high` → 1, half-open `[low, high)` → 2, `0 <= v < low` → 3, a negative value below `low` → 0 |
| Elevation.ClassifyPositive | Testing/slopeelerainprox.py:55-61 | 4 exactly for NaN; `0 < v < 570` → 3, `[570, 700)` → 2, `>= 700` → 1, zero or negative → 0; the same rule as slopeelerain.py:51-57 |
| Elevation.ZeroElevationSplitsVariants | Testing/slopeelerainprox.py:55-61 | sea level is High (3) under the user-threshold rule of Features/slopeelerainprox.py:93 and 0 under the fixed rule |
| Elevation.MaskNegative | tifpredict.py:11-14 | the masked DEM is NaN exactly where the DEM was NaN or negative, otherwise unchanged |
| Elevation.Zone | flood_risk_analysis.py:20-39 | NaN exactly where the DEM was negative; `0 < v < 570` → 3, `[570, 700)` → 2, `>= 700` → 1; zero or missing elevation keeps 0; the same zones as tifpredict.py:20-28 |
| Elevation.ZoneNonIncreasing | tifpredict.py:23-25 | over positive elevations higher ground never gets a higher zone |
| Proximity.NanMax | Features/slopeelerainprox.py:106 | NaN exactly when every cell is NaN; otherwise a cell of the grid that no number exceeds |
| Proximity.NanMin | Features/slopeelerainprox.py:106 | NaN exactly when every cell is NaN; otherwise a cell of the grid below no number |
| Proximity.Normalise | Features/slopeelerainprox.py:106-111 | fails exactly on an empty grid (numpy raises on an empty reduction); otherwise keeps the shape |
| Proximity.OutOfUnitIff | Features/slopeelerainprox.py:106 | the `nanmax > 1 or nanmin < 0` test holds exactly when some cell lies outside `[0, 1]` |
| Proximity.UniformIff | Features/slopeelerainprox.py:110 | `nanmax == nanmin` holds exactly when all numbers are equal and there is at least one |
| Proximity.NormalisedInUnitRange | Features/slopeelerainprox.py:106-111 | after normalisation every cell is NaN or in `[0, 1]` |
| Proximity.UniformBecomesNaN | Features/slopeelerainprox.py:110-111 | a uniform grid becomes all NaN |
| Proximity.OutOfUnitIsRescaled | Features/slopeelerainprox.py:106-108 | a non-uniform grid outside `[0, 1]` is rescaled cell by cell, its minimum to 0 and its maximum to 1 |
| Proximity.NormalisedHitsZeroAndOne | Features/slopeelerainprox.py:106-108 | such a rescaled grid contains both 0 and 1 |
| Proximity.InUnitUnchanged | Features/slopeelerainprox.py:106-111 | a non-uniform grid already inside `[0, 1]` passes through unchanged |
| Proximity.Classify | Features/slopeelerainprox.py:113-119 | 4 exactly for NaN; for `low <= high` exactly one of 3 (`< low`), 2 (`[low, high)`), 1 (`>= high`) |
| Proximity.ClassifyNonIncreasing | Features/slopeelerainprox.py:115-117 | further from water never means a higher code |
| Proximity.ClassifyThirtySeventy | Testing/slopeelerainprox.py:80-84 | `< 0.3` → 3, `[0.3, 0.7)` → 2, `>= 0.7` → 1, 4 exactly for NaN |
| Proximity.ClassifyGrid | Features/slopeelerainprox.py:113-121 | the risk map has the input's shape and classifies each cell on its own |
| Proximity.UniformGridAllNoData | Features/slopeelerainprox.py:110-119 | a uniform proximity grid ends as 4 everywhere, whatever the thresholds |
| Proximity.NormalisedSpansBands | Features/slopeelerainprox.py:106-119 | a rescaled grid classified with thresholds in `(0, 1]` holds both a 3 and a 1 |
| Rounding.RoundHalfEven | Features/slopeelerainprox.py:135 | the result is within one half of `x`, and an exact tie goes to the even neighbour |
| Rounding.RoundUnique | Features/slopeelerainprox.py:135 | an integer strictly closer than one half to `x` is its rounding |
| Rounding.RoundMonotone | Features/slopeelerainprox.py:135 | rounding preserves order |
| Rounding.RoundWithin | Features/slopeelerainprox.py:135 | a value within a quarter of `[lo, hi]` rounds into `[lo, hi]` |
| Rounding.IsCloseToOne | Features/slopeelerainprox.py:127 | `np.isclose(total, 1)` accepts exactly the totals within 1.001e-5 of 1 |
| Aggregate.WeightedSumBounds | Features/slopeelerainprox.py:131-134 | with non-negative weights, codes in `[lo, hi]` give a sum between `lo` and `hi` times the weight total |
| Aggregate.CombineCell | Features/slopeelerainprox.py:131-135 | every cell is a number: the half-to-even rounding of the weighted sum |
| Aggregate.CombineCellInRange | Features/slopeelerainprox.py:126-135 | with accepted weights, codes in `[lo, hi]` combine to a value in `[lo, hi]` |
| Aggregate.AgreeingCodesKeepLevel | Features/slopeelerainprox.py:128-136 | if all factors agree on code `c`, the combined cell is `c`, including `c = 4` |
| Aggregate.NoDataAveragedIn | Features/slopeelerainprox.py:128-136 | as written, No Data slope with Low elsewhere and the default weights yields Moderate (2), not a missing cell |
| Aggregate.CombineCellAbsorbing | Features/slopeelerainprox.py:128-136 | intended rule: NaN exactly when some factor is No Data, otherwise the rounded weighted sum |
| Aggregate.AbsorbingCombineRange | Features/slopeelerainprox.py:128-136 | under the intended rule, a defined cell lies in `[0, 3]` |
| Aggregate.AbsorbingKeepsNoDataMissing | Features/slopeelerainprox.py:128-136 | the intended rule leaves the No Data example of `NoDataAveragedIn` missing |
| Aggregate.CombineWeighted | Features/slopeelerainprox.py:124-137 | the weight check fails before any cell is touched; failure exactly on rejected weights or mismatched shapes; otherwise each cell is combined from its own stack of codes |
| Aggregate.CombineWeighted4 | Features/slopeelerainprox.py:124-137 | the four-factor variant fails exactly when the four weights are not close to 1 or the shapes differ |
| Aggregate.CombineWeighted3 | slopeelerain.py:62-85 | the three-factor variant never checks the weights and fails only on mismatched shapes; otherwise each cell is the weighted sum of its slope, rainfall and elevation codes, rounded half to even |
| Aggregate.AgreeingThreeKeepLevel | slopeelerain.py:73-80 | with weights summing to 1, where slope, rainfall and elevation all hold code `c` (0 to 4), the three-factor map holds `c` |
| Aggregate.CombinedNeverMissing | Testing/slopeelerainprox.py:95-114 | as written, no combined cell is ever NaN, because the validity mask over integer maps is all true |
| Aggregate.AgreeingMapsKeepLevel | Features/slopeelerainprox.py:124-137 | in the combination with checked weights, where all maps hold a risk level `c` (0 to 3), the combined map holds `c`, as written or with No Data absorbing |
| Aggregate.CombineMax | sloperain.py:51-55 | fails exactly on mismatched shapes; each cell is at least each input and equals one of them |
| Aggregate.CombineMaxCommutes | sloperain.py:51-55 | argument order does not matter |
| Aggregate.CombineMaxIdempotent | sloperain.py:51-55 | combining a map with itself returns it |
| Aggregate.CombineMaxNoDataDominates | sloperain.py:51-55 | with codes at most 4, a 4 in either input gives 4 |
| Lookup.RiskTableInRange | rainele.py:33-48 | every table entry is a level 0 to 3 |
| Lookup.Row | rainele.py:33-48 | one elevation row's four writes set the table code of the rainfall band when the row's mask holds, and leave the cell alone otherwise |
| Lookup.JointRisk | rainele.py:26-51 | NaN exactly when elevation or rainfall is NaN; otherwise the table entry of the elevation band and the clamped-rainfall band |
| Lookup.JointRiskIsSourceOrder | rainele.py:29-51 | the table equals the thirteen masked writes on a NaN fill, in source order, with the `rainfall < 0` disjunct that cannot fire after clamping |
| Lookup.JointRiskMonotoneInRain | rainele.py:33-48 | for fixed elevation, more rain never lowers the risk |
| Lookup.JointRiskAntitoneInElevation | rainele.py:33-48 | for fixed rainfall, higher ground never raises the risk |
| Lookup.JointRiskInRange | rainele.py:33-48 | every defined joint risk is 0 to 3 |
| Lookup.NegativeRainIsDry | rainele.py:26 | negative rainfall rates as zero rainfall |
| Lookup.NegativeDemIsNoData | rainele.py:13-14 | a negative DEM cell, masked to NaN, rates as missing |
| Lookup.LulcRisk | lulcpredict.py:15-32 | table categories get their level, −1 gets 4 (applied after the table), any other category 0 |
| Lookup.LulcRiskRange | lulcpredict.py:24-32 | every code is 0 to 4, and 0 exactly for unknown categories |
| Lookup.LulcHighRiskIsUrban | lulcpredict.py:15-21 | High (3) exactly for urban land (2) |
| Ahp.PositiveHasPositiveColumns | GIS.py:83 | positive judgements give positive column sums, so the division is defined |
| Ahp.NormaliseColumns | GIS.py:83 | entry `(i, j)` is divided by the sum of column `j` |
| Ahp.NormalisedColumnsSumToOne | GIS.py:83 | each normalised column sums to 1 |
| Ahp.PriorityWeights | GIS.py:85 | weight `i` is the mean of normalised row `i` |
| Ahp.WeightsSumToOne | GIS.py:83-85 | the priority weights sum to 1 |
| Ahp.WeightsInUnit | GIS.py:83-85 | for a positive matrix of at least two criteria each weight lies strictly between 0 and 1 |
| Ahp.MatVec | GIS.py:87 | entry `i` of `A·w` is row `i` dotted with `w` |
| Ahp.LambdaMaxIsTotal | GIS.py:87-89 | with weights summing to 1, `mean(A·w)/mean(w)` is the total of `A·w` |
| Ahp.RandomIndex | GIS.py:94-95 | 0 for one or two criteria, positive otherwise, 1.49 for unlisted sizes |
| Ahp.RandomIndexMonotone | GIS.py:94-95 | the random index never decreases with the number of criteria |
| Ahp.ConsistencyRatio | GIS.py:91-97 | undefined exactly for `n <= 2`; otherwise `CR · RI = CI` with `CI = (λ − n)/(n − 1)` |
| Ahp.ConsistentRatioIsZero | GIS.py:92-97 | `λ = n` gives `CR = 0` |
| Ahp.CalculateWeights | GIS.py:80-98 | the weights are the priority weights and sum to 1; CR is undefined exactly for `n <= 2` |
| Ahp.OnesEqualWeights | GIS.py:83-85 | equal judgements give every criterion weight `1/n` |
| Ahp.OnesConsistent | GIS.py:87-92 | equal judgements have `λ = n` and `CI = 0` |
| Ahp.GisMatrixReciprocal | GIS.py:133-140 | the hard-coded 6×6 matrix is positive, has unit diagonal and is reciprocal |
| Ahp.GisWeightValues | GIS.py:133-143 | the exact priority weights of the hard-coded matrix |
| Ahp.GisWeights | GIS.py:143 | six weights in `(0, 1)` summing to 1, with a defined CR |
| Ahp.GisMatrixConsistent | GIS.py:143-151 | the hard-coded matrix passes the `CR <= 0.1` gate |
| Ahp.Scores | GIS.py:154-158 | fails exactly when some factor can be broadcast onto the regions neither as one value per region nor as a single value, naming the first such factor; otherwise region `r` scores the weighted sum of its factor values, factors in order |
| Ahp.UniformRegionScore | GIS.py:157-158 | a region scoring `v` on every factor scores `v` times the weight total |
| Ahp.PredictFloodRisk | GIS.py:148-158 | rejected when `CR > 0.1`, before any scoring; otherwise fails exactly on the first factor numpy cannot broadcast, the exception the handler at line 186 reports; otherwise one weighted score per region |
| Ahp.ElevationColumn | GIS.py:112-117 | the flattened DEM cells come first, followed by zeros up to one value per region when the DEM has fewer cells; a larger DEM is kept whole |
| Ahp.PredictFromDem | GIS.py:112-158 | with a DEM and five drawn factors of one value per region, the prediction fails exactly when the DEM has more than one cell and more cells than regions, and then on the elevation factor |
| Ahp.PredictFromZones | GIS.py:112-158 | with one elevation per region, the prediction always succeeds with one weighted score per region |
| Friz.CellValue | Testing/FRIZ.py:60-67 | a missing, empty or unparsable cell reads 1.0; anything else reads its parsed value |
| Friz.ReadMatrix | Testing/FRIZ.py:56-67 | an `n × n` matrix whose every entry is read by the cell rule |
| Friz.EmptyTableIsOnes | GUI/FRIZ.py:48-59 | an empty table reads as the all-ones matrix |
| Friz.ArgMax | Testing/FRIZ.py:70 | the first index of the largest value |
| Friz.NormaliseBySum | Testing/FRIZ.py:71-72 | undefined exactly for a zero-sum vector; otherwise each entry divided by the sum |
| Friz.NormalisedSumsToOne | GUI/FRIZ.py:65 | the normalised eigenvector sums to 1 |
| Friz.NormaliseScaleInvariant | Testing/FRIZ.py:71-72 | any nonzero multiple of the eigenvector, sign included, gives the same weights |
| Friz.ConsistencyIndex | Testing/FRIZ.py:76 | 0 for `n <= 1`; otherwise `CI · (n − 1) = λ − n` |
| Friz.ConsistencyRatio | Testing/FRIZ.py:77-80 | 0 when the random index is 0; otherwise `CR · RI = CI` |
| Friz.RatioAgreesWithPredictor | GUI/FRIZ.py:68-73 | from three criteria on, the dialog's CR equals the predictor's for the same λ |
| Friz.RatioZeroIffConsistent | Testing/FRIZ.py:75-80 | from three criteria on, `CR = 0` exactly when `λ = n` |
| Friz.CollectAhpValues | Testing/FRIZ.py:56-82 | fails exactly on an empty table; otherwise rates the eigenpair with the largest eigenvalue, and the weights sum to 1 when defined |
| Friz.CalculateAhp | Testing/FRIZ.py:84-90 | fails with fewer than four weights; otherwise the boxes get elevation, slope, proximity, rainfall in order |
| Friz.FourSpinBoxesSumToOne | GUI/FRIZ.py:79-84 | with exactly four criteria the four boxes sum to 1 |
| Cli.FirstUnparsable | Features/slopeelerainprox.py:23-36 | the first entry of the numeric block that does not parse, every earlier one parsing, or none exactly when all parse |
| Cli.ParseArgs | Features/slopeelerainprox.py:9-44 | usage exit exactly below 20 entries; otherwise the first unparsable number raises; on success paths, colours and save path come from positions 1–3 and 16–19, and the 12 numbers from positions 4–15 in wire order |
| Cli.FourFactorDialogArgs | Testing/FRIZ.py:140-149 | the four-factor dialog sends 19 entries, every field in the slot the script reads it from, and no save path |
| Cli.WeightsDialogArgs | GUI/FRIZ.py:114-117 | the weights dialog sends 8 entries |
| Cli.FourFactorDialogRejected | Testing/FRIZ.py:140-149 | the script answers the four-factor dialog's list with the usage exit, whatever it carries |
| Cli.WeightsDialogRejected | GUI/FRIZ.py:114-117 | the same for the weights dialog's list |
| Cli.CompleteDialogArgs | Testing/FRIZ.py:140-149 | the four-factor list with the save path appended: 20 entries |
| Cli.CompleteDialogRoundTrip | Features/slopeelerainprox.py:17-44 | if `str` then `float` gives back each number, parsing the completed list returns exactly the settings the dialog sent |
| Cli.DemPath | flood_risk_analysis.py:9 | `argv[1]` when present, else the default DEM path |
| Clipping.ClipCell | Features/clipping.py:22-38 | NaN where the DEM is NaN or negative; the rainfall value where the DEM is non-negative |
| Clipping.ClipRainfallToDem | Features/clipping.py:21-48 | fails exactly on mismatched shapes, before clipping; NaN exactly where the DEM is NaN or negative or the rain is NaN; rainfall kept elsewhere; DEM shape, geotransform and projection passed through |
| Clipping.ClipIdempotent | Features/clipping.py:38 | clipping again with the same DEM changes nothing |
| Clipping.ExtentOf | Features/clipping.py:58-65 | `xmin`/`ymax` are the origin, and the width and height of the box are the shape times the pixel size |
| Clipping.NorthUpExtentOrdered | Features/clipping.py:58-65 | for a north-up transform `xmin <= xmax` and `ymin <= ymax` |
| Clipping.ClippedExtentIsDemExtent | Features/clipping.py:41-42 | the clipped raster has the DEM's extent |
| Inundation.Flooded | Features/inundation.py:21 | 1 exactly when elevation `<=` water level (inclusive), else 0; NaN is never flooded |
| Inundation.InundationMap | Features/inundation.py:16-21 | the mask has the DEM's shape and is decided cell by cell |
| Inundation.InundationMonotone | Features/inundation.py:21 | raising the water level never dries a flooded cell |
| Anomalies.AnyIn | testTiff.py:23-28 | `.any()` holds exactly when some cell satisfies the predicate |
| Anomalies.EdgesDifferIn | testTiff.py:31-33 | `not np.all(left == right)` holds exactly when some row's edge cells differ under float `==` |
| Anomalies.CheckAnomalies | testTiff.py:16-36 | an array without columns raises; otherwise messages appear in check order, and each appears exactly when its condition holds |
| Anomalies.NoAnomaliesIff | testTiff.py:17-36 | the report is empty exactly when the shape matches, no cell is NaN, negative or above 1e6, and the edges agree |
| Anomalies.NaNOnEdgeFlagged | testTiff.py:31-34 | a NaN on the first or last column always draws the edge message |
| Bands.ZeroNoData | color_counter.py:21-23 | a band's nodata value becomes 0; all else is unchanged |
| Bands.Stack | color_counter.py:17-27 | pixel `(i, j)` holds the three bands' values at `(i, j)`, nodata zeroed |
| Bands.ReadRgb | color_counter.py:12-27 | fewer than three bands raises; otherwise bands 1–3 are stacked and later bands are ignored |
| Bands.PixelsRowMajor | color_counter.py:30 | there are rows·cols pixels, and pixel `i*cols+j` is cell `(i, j)` (the `total_pixels` of color_counter.py:80) |
| Bands.ClipByte | lulcMB.py:30 | `np.clip(v, 0, 255)`: in range, the identity on bytes, 0 below and 255 above |
| Bands.ClipRgb | colorFind.py:23 | a clipped colour is a byte colour, and byte colours are unchanged |
| Palette.Dedup | color_counter.py:33-41 | the dictionary's key order has no repeats, holds exactly the image's colours and starts with the first pixel's colour |
| Palette.DedupPrefix | color_counter.py:37-41 | the keys seen after a prefix of the pixels are a prefix of the final key order |
| Palette.Id | color_counter.py:33-41 | a colour's id is its position in the key order |
| Palette.AssignIds | color_counter.py:33-41 | the loop's dictionary holds exactly the image's colours, each with its first-occurrence id, and the counter ends at the number of colours |
| Palette.IdsDenseAndInjective | color_counter.py:37-41 | ids are exactly `0..k−1`, the first pixel gets 0, and distinct colours get distinct ids |
| Palette.IntegerImage | color_counter.py:60-65 | integer-image cell `i` is the id of pixel `i` |
| Palette.IntegerImageRoundTrip | color_counter.py:60-65 | looking each id up in the key order gives back the pixel's colour |
| Palette.PctImage | RGB_to_PCT.py:28-35 | as written, the byte band stores each pixel's id modulo 256 |
| Palette.ColourTable | RGB_to_PCT.py:54-56 | the colour table lists each image colour once, in insertion order |
| Palette.PctRoundTrip | RGB_to_PCT.py:35-56 | with at most 256 colours, `table[pct[i]]` is pixel `i`'s colour |
| Palette.PctWrapsBeyond256 | RGB_to_PCT.py:28-35 | with more than 256 colours some pixel is stored as 0 while table entry 0 is a different colour |
| Palette.RgbToPct | RGB_to_PCT.py:21-56 | intended converter: refuses more than 256 colours; otherwise every pixel round-trips through the table |
| Census.Insert | lulcMB.py:40 | inserting into a strictly sorted list keeps it strictly sorted and adds exactly one colour |
| Census.SortedUnique | lulcMB.py:40 | `np.unique(axis=0)` is strictly sorted in lexicographic order and holds exactly the image's colours |
| Census.Counts | lulcMB.py:40 | count `k` is the number of pixels of unique colour `k` |
| Census.CountsCover | lulcMB.py:40-49 | counting over a repeat-free list covering all pixels accounts for each pixel once |
| Census.CountsSumToTotal | lulcMB.py:46-49 | the unique-colour counts add up to the number of pixels (the first assertion) |
| Census.IndexMap | lulcMB.py:43 | the index map holds exactly the listed colours, each with its position |
| Census.IndexIsRank | lulcMB.py:40-50 | one entry per unique colour (the second assertion), and a colour's index is its lexicographic rank |
| Census.ClippedPixels | lulcMB.py:25-37 | each pixel has each channel clipped to the byte range |
| Census.Lookup | lulcMB.py:63-67 | the prompt finds a stored colour's value and reports any other colour as not found; the same lookup as lulc_integer_check.py:47-51 |
| Census.LookupFindsRank | lulcMB.py:63-67 | a colour of the image is found at its index; any other colour is not found |
| Census.IntegerTable | lulc_integer_check.py:11-38 | fails exactly when the file has fewer than four bands: with fewer than three before any read, with exactly three on reading band 4; otherwise the table holds exactly the image's colours, each with band 4's raw value at its first row-major pixel |
| Census.FirstValues | lulc_integer_check.py:33-38 | each colour maps to the integer band's value at its first row-major occurrence |
| Census.LaterOccurrenceIgnored | lulc_integer_check.py:36-38 | a later pixel of an already seen colour never changes the table |
| Census.ColourFind | colorFind.py:23-29 | as written, one entry per distinct clipped colour, counted over the unique rows |
| Census.ColourFindCountsAreOne | colorFind.py:26-33 | every count the colour finder reports is 1, whatever the image |
| Census.ColourFrequencies | colorFind.py:23-29 | intended count: how many clipped pixels have each colour, always at least 1 |
| Census.FrequenciesCoverImage | colorFind.py:26-33 | the intended counts, in the finder's sorted order, add up to the number of pixels |

## Left out

- Raster and vector I/O is not modelled: rasterio, GDAL, tifffile and geopandas reads and writes, profiles, and the GTiff driver. Grids are in-memory inputs, and geo-referencing is six opaque numbers and a projection string.
- Gaussian smoothing, `np.gradient`/`arctan` slope derivation and resampling are floating-point library numerics and are not modelled. Slope values are inputs. Where a classifier reads the smoothed DEM, the model reads the masked DEM directly.
- Elevation.Zone: the smoothing before the zones is treated as the identity (see above), and so is the display-only smoothing of the zone map.
- `np.linalg.eig` is an input function (`eig`) returning real parts of eigenvalues and eigenvector columns. `float()` is an input `parse: string -> Option<real>`, and the dialogs' `str()` is an input `show`.
- IEEE-754 rounding, infinities and overflow are not modelled: numbers are mathematical reals, and NaN is an explicit constructor that fails every comparison.
- Ahp.ConsistencyRatio: for one or two criteria the source divides by zero and gets inf or NaN. The model returns "undefined" (`None`) instead.
- Friz.NormaliseBySum: a zero-sum eigenvector gives inf/NaN weights in the source. The model returns `None`.
- Friz.CalculateAhp: the spin boxes' own rounding and range clamping (Qt) are not modelled; the boxes hold the weights exactly.
- Interpolation and the proximity distance transforms (`griddata`, `distance_transform_edt`, `gdal.ComputeProximity`) are library calls and are not modelled.
- The GUIs, dialogs, colour pickers, QProcess launching, OSM/Flask servers and threading are not modelled. Only the argument lists the dialogs build are kept.
- Plotting and colormap construction are display only and are not modelled.
- GIS.py's random factor data (lines 118-130) is not modelled: the drawn columns are inputs, each with one value per region as `np.random.randint(..., len(gdf))` gives. Reading the DEM file and the shapefile is I/O: the DEM arrives as its flattened cells and the shapefile as its number of regions.
- Palette.PctImage: stores `id % 256`, the silent wrap of numpy before 2.0. numpy 2 raises `OverflowError` instead. Both stay correct up to 256 colours.
- Palette.IntegerImage: the `uint32` limit of the integer band is not modelled. It is reached only with more than 4 294 967 295 colours.
- Census.Lookup: the interactive `input()` loops and the parsing of "R,G,B" text are not modelled. Only the dictionary lookup they perform is kept.
- Census.ColourFind: the four-band read is not modelled. The finder takes the pixels of the first three bands, so a file with fewer than four bands, which would raise there, is not represented.
- Bands.ReadRgb: band values are integers. lulcMB.py's `astype(np.uint8)` after clipping is then the identity; float bands are not modelled.

## Findings

| source | as written | input that shows it | evidently intended | confidence | as-written member | corrected member |
|---|---|---|---|---|---|---|
| Features/slopeelerainprox.py:128-136 | the validity mask calls `isnan` on integer category maps, so it is always true and No Data (4) is averaged in as a number | default weights 0.2/0.35/0.2/0.25, slope 4 and the other factors 1: the cell becomes 2 | a cell where any factor is No Data stays NaN, as the "NaN propagation" step says | not executed | Aggregate.NoDataAveragedIn | Aggregate.CombineCellAbsorbing |
| Testing/FRIZ.py:140-149 | the four-factor dialog passes 19 entries (no save path), and Features/slopeelerainprox.py:9 needs 20, so the script always takes the usage exit | any settings at all | the argument list ends with the save path the script reads at position 19 | not executed | Cli.FourFactorDialogRejected | Cli.CompleteDialogRoundTrip |
| GUI/FRIZ.py:114-117 | the weights dialog passes only 8 entries to the same script, which needs 20 | any settings at all | the full 20-entry list | not executed | Cli.WeightsDialogRejected | Cli.CompleteDialogArgs |
| RGB_to_PCT.py:28-35 | ids are stored into a `uint8` array, so id 256 and beyond wrap and point to the wrong table entry | an image with 257 distinct colours: the 257th colour is stored as 0, which the table maps to the first colour | refuse, or use a wider band, when there are more than 256 colours | not executed | Palette.PctWrapsBeyond256 | Palette.RgbToPct |
| colorFind.py:26-33 | `Counter` runs over the rows of `np.unique(...)`, so every reported count is 1 | two pixels of the same colour: reported count 1 | the number of pixels of each colour | not executed | Census.ColourFindCountsAreOne | Census.ColourFrequencies |
| GIS.py:112-117, 157-158 | the flattened DEM becomes the elevation column as it is, padded only when it has fewer cells than there are regions | a 2 x 2 DEM and three sub-districts: the elevation column has 4 values, `+=` onto 3 scores raises, and the handler reports an error instead of a map | one elevation per sub-district, the DEM summarised over each region | not executed | Ahp.PredictFromDem | Ahp.PredictFromZones |
