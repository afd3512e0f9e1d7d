# Inspire hand tactile sensing — a Dafny model

The project reads the tactile sensors of an Inspire robotic hand. Each
sensor on the hand's data sheet reports a small matrix of raw counts per
frame. Four live scripts turn these frames into pictures of the hand, and
an offline script calibrates how many grams one count is worth:

- the **gram map** (`example/plot_gram_act_hand_map.py`) shows grams per
  tactile point. It also shows a table of the load on each hand region;
- the **logging map** (`inspire_hand_sdk/data_collection_scripts/sensor_map_logging.py`)
  shows raw counts above baseline. It writes every displayed matrix to one
  CSV file per sensor;
- the **older force map** (`example/plot_force_act_hand_map_old.py`) and
  the **SDK force map** (`inspire_hand_sdk/example/plot_force_act_hand_map.py`)
  show counts clipped to [0, 100] and smoothed by a moving average;
- the **calibration** (`example/calibrate_scale_factor.py`) fits
  force ≈ k · S through the origin. S is the sum of the touch counts above
  their baselines; the baselines come from the lowest-force frames.

The four live scripts repeat one per-channel loop:

1. skip a channel that is missing, None, empty or not reshapeable;
2. take its first usable reading as its baseline;
3. clip the difference from the baseline;
4. scale it and maybe smooth it;
5. store it.

The loops differ only in four things: the clip ceiling, the scale, how the
smoothed state is seeded, and when the moving average applies. The module
`FrameTransform` models that loop once:

- a `Policy` value records the four differences;
- `Update` and `FrameUpdate` are the specification of one channel and of
  one frame;
- the class `Transformer` holds the `baselines` and `smoothed` dictionaries
  as map fields. Its `ProcessChannel` and `ProcessFrame` update them in
  place and are proved against the specification.

Each script has a module of its own: `GramMap`, `SensorLogging`,
`ForceMapOld` and `ForceMapSdk`. Each one fixes its policy and adds what
that script does besides the loop:

- the gram map's region labels (`GramRegions`), its per-region sum and
  maximum, and the order of its table;
- the logger's CSV rows and its dump schedule;
- the SDK map's region dispatch, including the start-up failure when the
  first sheet id assigns no box coordinates.

`Calibration` models the offline fit, with the help of `Statistics` (sums,
dot products, sorting, medians). `Matrices` holds the numpy operations the
scripts use: reshape, flatten, clip, moving average, flipud, rot90. `Text`
holds Python's substring test.

Modelling choices:

- Counts and grams are `real`. A reading arrives as its values in row-major
  order, and reshaping succeeds exactly when the number of values matches
  the declared size.
- NaN cells of a parsed CSV are `None`.
- `np.argsort` is a parameter constrained to be an ascending argsort, with
  any tie order.
- The upsampling of the thumb's middle segment (`scipy.ndimage.zoom`) is a
  function parameter.

Behaviour of the code worth noting:

- The dead-zone filter keeps `touch - T0` wherever it exceeds the
  threshold. It does not also clamp at 0, so a negative threshold lets
  negative deltas through (`calibrate_scale_factor.py:85-86`).
- There is no error for fewer than five samples. The baseline then takes
  all the frames (`calibrate_scale_factor.py:73-75`).
- `pretty_region_name` returns any unrecognised id unchanged, so the id
  "Palm" is also labelled Palm.

## Model

| member | source | states |
|---|---|---|
| Calibration.Values | example/calibrate_scale_factor.py:25 | a row without NaN is its numbers, cell for cell |
| Calibration.Kept | example/calibrate_scale_factor.py:29-35 | the positions a row mask selects: ascending, and a row's position is among them exactly when the mask accepts it |
| Calibration.DropAllNaN | example/calibrate_scale_factor.py:29-31 | the rows left are exactly those not entirely NaN, in their original order; none of them is all NaN |
| Calibration.NumericRows | example/calibrate_scale_factor.py:29-35 | the surviving rows are exactly the fully numeric rows, in their original order, as numbers; none is left exactly when no row is fully numeric |
| Calibration.TwoMasksAreOneFilter | example/calibrate_scale_factor.py:29-35 | the all-NaN mask followed by the any-NaN mask is the single "fully numeric" filter |
| Calibration.DropAnyNaNAppend | example/calibrate_scale_factor.py:33-35 | the row filter distributes over concatenation |
| Calibration.AsTable | example/calibrate_scale_factor.py:25-27 | a log of one column and several lines becomes one row holding the column; any other log is unchanged |
| Calibration.LoadNumeric | example/calibrate_scale_factor.py:19-39 | a single cell fails; otherwise fails exactly when no row of the reshaped table is fully numeric, and returns its non-empty numeric rows; a one-column log loads as one row exactly when none of its cells is NaN |
| Calibration.OneColumnLoads | example/calibrate_scale_factor.py:25-35 | a one-column log survives the masks as a single row exactly when none of its cells is NaN, so a header line empties it |
| Calibration.LoadedWidth | example/calibrate_scale_factor.py:19-39 | a log of width w loads into rows of width w |
| Calibration.R2 | example/calibrate_scale_factor.py:42-45 | defined exactly when the total variation exceeds 1e-12; then at most 1, and exactly 1 for a perfect prediction |
| Calibration.ZeroResidual | example/calibrate_scale_factor.py:43 | a perfect prediction leaves no residual |
| Calibration.Residual | example/calibrate_scale_factor.py:99-100 | the residual of the fit has one entry per frame |
| Calibration.Fit | example/calibrate_scale_factor.py:91-96 | fails with DegenerateFit exactly when S·S < 1e-12; otherwise the residual of the slope is orthogonal to S |
| Calibration.ResidualExpansion | example/calibrate_scale_factor.py:91-96 | the squared residual of slope c is y·y − 2c S·y + c² S·S |
| Calibration.FitMinimisesResidual | example/calibrate_scale_factor.py:91-96 | no slope has a smaller sum of squared residuals than the fitted one |
| Calibration.QuadraticGap | example/calibrate_scale_factor.py:91-96 | the squared residual is least at k = S·y / S·S |
| Calibration.FitRecoversExactSlope | example/calibrate_scale_factor.py:91-96 | when the force delta is exactly c·S, the fit returns c |
| Calibration.ClampFrac | example/calibrate_scale_factor.py:72 | the fraction lies in [0.05, 0.8] and is unchanged when already inside |
| Calibration.BaselineCount | example/calibrate_scale_factor.py:73 | at least 5 frames; above 5 it is the clamped fraction of n rounded down |
| Calibration.BaselineIsLowest | example/calibrate_scale_factor.py:74-75 | every baseline frame weighs no more than any other frame |
| Calibration.ForceBaselineBelowOthers | example/calibrate_scale_factor.py:74-78 | the median force of the baseline frames is at most every other frame's force |
| Calibration.ForceDelta | example/calibrate_scale_factor.py:79 | each delta is max(Fg − F0, 0) |
| Calibration.TouchBaseline | example/calibrate_scale_factor.py:82 | one value per pixel: the median of that pixel's counts over the baseline frames |
| Calibration.PixelMedianBetween | example/calibrate_scale_factor.py:82 | each pixel's T0 lies between that pixel's counts in two of the baseline frames |
| Calibration.DeadZone | example/calibrate_scale_factor.py:85-86 | a pixel keeps touch − T0 above the threshold and is 0 otherwise |
| Calibration.RowSums | example/calibrate_scale_factor.py:89 | S of each frame is the sum of its pixels |
| Calibration.FeatureNonNegative | example/calibrate_scale_factor.py:85-89 | with a threshold of at least 0, every S is non-negative |
| Calibration.MiddleForce | example/calibrate_scale_factor.py:61-69 | the third column of the first n force rows |
| Calibration.Prepare | example/calibrate_scale_factor.py:61-89 | truncation to n = min of the lengths, the baseline frames, F0, T0 (the per-pixel median over the baseline frames), dF and S, each as the script computes it |
| Calibration.ForceBaselineFacts | example/calibrate_scale_factor.py:72-79 | F0 lies between two baseline frames' forces and below every other frame's, whose dF is then exactly Fg − F0 |
| Calibration.Calibrate | example/calibrate_scale_factor.py:48-100 | TooFewColumns exactly when the force log has fewer than 3 columns; otherwise DegenerateFit or the estimate built from the fit |
| Statistics.SumNonNegative | example/calibrate_scale_factor.py:89 | a sum of non-negative values is non-negative |
| Statistics.DotSelfNonNegative | example/calibrate_scale_factor.py:93 | S·S is never negative |
| Statistics.DotScale | example/calibrate_scale_factor.py:96 | a·(k b) = k (a·b) |
| Statistics.DotSub | example/calibrate_scale_factor.py:96 | a·(b − c) = a·b − a·c |
| Statistics.DotSymmetric | example/calibrate_scale_factor.py:96 | the dot product is symmetric |
| Statistics.Diff | example/calibrate_scale_factor.py:43-44 | the elementwise difference numpy computes for `y - yhat` and `y - np.mean(y)` |
| Statistics.SortAsc | example/calibrate_scale_factor.py:74 | the result is ascending and a permutation of the input |
| Statistics.SortedUnique | example/calibrate_scale_factor.py:78 | two ascending sequences with the same values are equal |
| Statistics.Middle | example/calibrate_scale_factor.py:78 | the middle of a sorted sequence lies between its two middle values |
| Statistics.Median | example/calibrate_scale_factor.py:78 | the median lies between two of the values |
| Statistics.MedianOfPermutation | example/calibrate_scale_factor.py:78 | the median does not depend on the order of the values |
| Statistics.MedianOfConstant | example/calibrate_scale_factor.py:82 | the median of equal values is that value |
| Statistics.Pick | example/calibrate_scale_factor.py:78 | `s[idx]` selects the given entries in order |
| Text.ContainsIsOccurrence | example/plot_gram_act_hand_map.py:42 | the `in` test holds exactly when the pattern occurs at some offset |
| Text.FirstContained | example/plot_gram_act_hand_map.py:60-61 | the first key the string contains, or None exactly when it contains none |
| Matrices.FromFlat | example/plot_gram_act_hand_map.py:326-328 | the reshape has the declared shape |
| Matrices.FlattenFromFlat | example/plot_gram_act_hand_map.py:326-328 | reshaping and then flattening returns the reading |
| Matrices.FromFlatFlatten | inspire_hand_sdk/data_collection_scripts/sensor_map_logging.py:165 | flattening and then reshaping with the same shape returns the matrix |
| Matrices.FlattenLength | inspire_hand_sdk/data_collection_scripts/sensor_map_logging.py:165 | a rows × cols matrix flattens to rows · cols values |
| Matrices.FlattenAppend | inspire_hand_sdk/data_collection_scripts/sensor_map_logging.py:165 | flatten distributes over stacking rows |
| Matrices.FlattenWithin | inspire_hand_sdk/data_collection_scripts/sensor_map_logging.py:165 | bounds on the entries hold for the flattened values |
| Matrices.ZerosLike | example/plot_gram_act_hand_map.py:334 | all zeros, same shape |
| Matrices.Clip | example/plot_gram_act_hand_map.py:337 | the result lies in [0, upper], equals x when x is inside, is 0 for x ≤ 0 and is the upper bound for x at or above it |
| Matrices.ClippedDelta | example/plot_gram_act_hand_map.py:336-337 | same shape as the reading, every entry in [0, upper] |
| Matrices.ClippedDeltaSelf | example/plot_gram_act_hand_map.py:332-339 | a reading against itself as baseline gives all zeros |
| Matrices.ScaledByOne | example/plot_force_act_hand_map_old.py:267 | scaling by 1 changes nothing |
| Matrices.Blend | example/plot_force_act_hand_map_old.py:272-273 | the moving-average step keeps the shape |
| Matrices.BlendBetween | example/plot_force_act_hand_map_old.py:272-273 | each new entry lies between the new delta and the previous value |
| Matrices.BlendRange | example/plot_force_act_hand_map_old.py:272-273 | the step keeps any range both inputs respect |
| Matrices.BlendEnds | example/plot_gram_act_hand_map.py:341-347 | alpha 1 takes the delta, alpha 0 keeps the previous value |
| Matrices.BlendFromZero | example/plot_force_act_hand_map_old.py:260-273 | a zero delta damps the previous value by 1 − alpha |
| Matrices.Total | example/plot_gram_act_hand_map.py:350 | `np.sum`: non-negative when every value is; TallyTotals gives the region sums built from it |
| Matrices.Peak | example/plot_gram_act_hand_map.py:351 | `np.max`: bounds every value and is one of them |
| Matrices.SeqMax | example/plot_gram_act_hand_map.py:351 | the maximum is one of the values and bounds them all |
| Matrices.FlipRows | example/plot_gram_act_hand_map.py:192 | flipud keeps the number of rows |
| Matrices.FlipRowsInvolution | example/plot_gram_act_hand_map.py:192 | flipping twice restores the matrix |
| Matrices.FlipRowsValues | example/plot_gram_act_hand_map.py:192 | flipping moves values without adding or dropping any |
| Matrices.RotateCcw | example/plot_gram_act_hand_map.py:198 | rot90 gives a cols × rows matrix with r[i][j] = m[j][cols − 1 − i] |
| Matrices.TransposeValues | example/plot_gram_act_hand_map.py:198 | transposing keeps the multiset of values |
| Matrices.RotateCcwValues | example/plot_gram_act_hand_map.py:198 | the quarter turn keeps the multiset of values |
| FrameTransform.SheetIds | example/plot_force_act_hand_map_old.py:212-222 | the set of the data sheet's ids, both ways |
| FrameTransform.Reading | example/plot_gram_act_hand_map.py:322-330 | the reading has the declared shape and flattens back to the values received |
| FrameTransform.SeedFor | example/plot_gram_act_hand_map.py:332-334 | the seed of the smoothed state has the reading's shape |
| FrameTransform.Delta | example/plot_gram_act_hand_map.py:336-339 | the scaled, clipped delta has the reading's shape and lies in [0, ceiling · scale] |
| FrameTransform.ScaledRange | example/plot_gram_act_hand_map.py:339 | scaling by k ≥ 0 maps [0, u] into [0, k u] |
| FrameTransform.Update | example/plot_gram_act_hand_map.py:318-347 | a skipped channel leaves the state unchanged; the first usable reading sets the baseline, which is never replaced; other channels keep their values |
| FrameTransform.SeedChannel | example/plot_gram_act_hand_map.py:332-334 | the baseline and the seed are set only when the channel has no baseline |
| FrameTransform.Smooth | example/plot_force_act_hand_map_old.py:269-275 | the stored value keeps the delta's shape |
| FrameTransform.Current | example/plot_gram_act_hand_map.py:319-347 | a value is displayed exactly when the channel is processed, with the declared shape |
| FrameTransform.FrameUpdate | example/plot_gram_act_hand_map.py:318-358 | the state after the sheet stays coherent: baselines and state keyed alike, with the declared shapes |
| FrameTransform.Processed | example/plot_gram_act_hand_map.py:318-358 | every displayed channel has an overlay and a non-empty rectangular value |
| FrameTransform.ProcessedStep | example/plot_gram_act_hand_map.py:318-358 | one more sheet row: its update follows, and its value, if processed, is appended |
| FrameTransform.BaselinesPersist | example/plot_gram_act_hand_map.py:332-333 | over a frame every baseline is kept, and new baselines appear exactly for the processed channels |
| FrameTransform.UntouchedChannelKept | example/plot_gram_act_hand_map.py:319-330 | a channel the frame skips keeps its baseline and stored value |
| FrameTransform.RangeKept | example/plot_gram_act_hand_map.py:332-347 | with zero seeding or no smoothing, stored values stay in [0, ceiling] frame after frame |
| FrameTransform.ProcessedInRange | example/plot_gram_act_hand_map.py:332-347 | under the same conditions every displayed value is in [0, ceiling] |
| FrameTransform.UpdateInRange | example/plot_gram_act_hand_map.py:332-347 | one channel's update keeps the range |
| FrameTransform.FirstReadingZero | example/plot_gram_act_hand_map.py:332-339 | with zero seeding, a channel's first usable reading is stored as zeros |
| FrameTransform.FirstReadingDamped | example/plot_force_act_hand_map_old.py:260-273 | with raw seeding and the moving average, the first reading is stored as (1 − alpha) · raw |
| FrameTransform.SmoothedBetween | example/plot_force_act_hand_map_old.py:265-273 | once a channel has a baseline, its new value lies between its old value and the new delta |
| FrameTransform.MemorylessIdempotent | inspire_hand_sdk/data_collection_scripts/sensor_map_logging.py:154-156 | without memory, the same frame twice gives the state it gives once |
| FrameTransform.FrozenAtZeroAlpha | example/plot_force_act_hand_map_old.py:270-273 | alpha 0 leaves a seeded channel's state unchanged |
| FrameTransform.Transformer.constructor | example/plot_gram_act_hand_map.py:255-256 | empty baselines and state |
| FrameTransform.Transformer.ProcessChannel | example/plot_gram_act_hand_map.py:319-347 | the dictionaries become Update of the old ones; returns Current |
| FrameTransform.Transformer.ProcessFrame | example/plot_gram_act_hand_map.py:318-358 | the dictionaries become FrameUpdate of the old ones; returns Processed |
| GramRegions.HasMidIsMid | example/plot_gram_act_hand_map.py:47 | `'mid' in var or 'middle' in var` is just `'mid' in var` |
| GramRegions.ZoneOf | example/plot_gram_act_hand_map.py:43-50 | Tip exactly when "tip" occurs; Pad exactly when "top" occurs and "tip" does not; Mid exactly when "mid" or "middle" occurs and neither "tip" nor "top" does; Prox exactly when "palm" occurs and none of the earlier words does; no zone exactly when none of the four occurs |
| GramRegions.PrettyRegionName | example/plot_gram_act_hand_map.py:30-73 | exactly "palm_touch" is Palm; then thumb labels; then the first finger key names the finger; otherwise the id itself |
| GramRegions.ThumbLabelNotPalm | example/plot_gram_act_hand_map.py:42-51 | no thumb label is Palm |
| GramRegions.FingerLabelNotPalm | example/plot_gram_act_hand_map.py:54-71 | no finger label is Palm |
| GramRegions.PalmOnlyForPalmSensor | example/plot_gram_act_hand_map.py:30-39 | the label is Palm exactly for "palm_touch" (and an id that is "Palm") |
| GramRegions.PalmSensorNamesNoFinger | example/plot_gram_act_hand_map.py:105 | "palm_touch" contains no finger key |
| GramRegions.GramPlacement | example/plot_gram_act_hand_map.py:101-180 | an id gets a box exactly when it names a finger key or "fingerfive" and has a zone, or is exactly "palm_touch"; the palm box only for "palm_touch"; a finger key wins over "fingerfive"; the placement carries the id's zone and a finger index below 4 |
| GramRegions.RankOfPreferred | example/plot_gram_act_hand_map.py:362-369 | each preferred label's first two and last two characters give its position |
| GramRegions.PreferredDistinct | example/plot_gram_act_hand_map.py:362-369 | no preferred label is listed twice |
| GramRegions.PlacementFingerIsFirstKey | example/plot_gram_act_hand_map.py:105-113 | the placed finger is the first finger key the id contains |
| GramRegions.PlacementMatchesLabel | example/plot_gram_act_hand_map.py:54-71 | the box and the label agree on finger and zone |
| GramRegions.FingerLabelPreferred | example/plot_gram_act_hand_map.py:362-369 | every finger-and-zone label is a preferred one |
| GramRegions.PlacedLabelIsPreferred | example/plot_gram_act_hand_map.py:349 | every channel the map places is labelled with a preferred label |
| GramMap.GramOverlays | example/plot_gram_act_hand_map.py:266-283 | only placed ids get an overlay; GramOverlaysPlaced gives both directions |
| GramMap.GramOverlaysPlaced | example/plot_gram_act_hand_map.py:266-283 | a channel has an overlay exactly when it is on the sheet and placed |
| GramMap.GramSetup | example/plot_gram_act_hand_map.py:253-283 | the transformer starts empty, with the gram policy and the placed channels' overlays |
| GramMap.GramStoredValue | example/plot_gram_act_hand_map.py:332-347 | with smoothing factor 0 a processed channel's stored value is max(raw − baseline, 0) times the grams per count, whatever was stored before; the first usable reading is the baseline, kept afterwards |
| GramMap.GramOrient | example/plot_gram_act_hand_map.py:189-200 | orientation keeps the values; the palm sensor comes out cols × rows, every other channel keeps its shape |
| GramMap.GramDisplay | example/plot_gram_act_hand_map.py:353-355 | without the thumb-middle upsampling, the image keeps the values and, except for "palm_touch", the shape; otherwise it is the upsampled oriented image |
| GramMap.GramOrientMoves | example/plot_gram_act_hand_map.py:189-200 | finger and thumb readings are flipped, the palm sensor is turned, anything else is unchanged |
| GramMap.ShownStep | example/plot_gram_act_hand_map.py:353-357 | each processed channel appends its oriented image |
| GramMap.Labelled | example/plot_gram_act_hand_map.py:349 | each processed channel's value under its pretty name |
| GramMap.LabelledLoaded | example/plot_gram_act_hand_map.py:323 | labelling keeps every value non-empty |
| GramMap.SumAppend | example/plot_gram_act_hand_map.py:350 | the sum of a sequence plus one value |
| GramMap.LabelTotalsAppend | example/plot_gram_act_hand_map.py:350 | one more channel adds its sum to its own label only |
| GramMap.AddLoad | example/plot_gram_act_hand_map.py:349-351 | adds the region once to the label order, adds np.sum to its total and raises its maximum to np.max, leaving every other region alone |
| GramMap.Tally | example/plot_gram_act_hand_map.py:349-351 | definition: AddLoad over the labelled channels in order; TallyKeys, TallyTotals and TallyPeaks state its contents |
| GramMap.TallyKeys | example/plot_gram_act_hand_map.py:350-351 | both dictionaries have one key per label present, listed once each in first-seen order |
| GramMap.TallyStep | example/plot_gram_act_hand_map.py:349-351 | one more channel adds its load to the tally |
| GramMap.TallyTotals | example/plot_gram_act_hand_map.py:350 | each label's total is the sum of np.sum over its channels (0.0 for an absent label) |
| GramMap.TallyPeaks | example/plot_gram_act_hand_map.py:351 | each label's max is non-negative, at least each of its channels' peaks, and either 0.0 or one of them |
| GramMap.TallyTotalsNonNegative | example/plot_gram_act_hand_map.py:350 | with non-negative values, every total is non-negative |
| GramMap.LabelTotalsNonNegative | example/plot_gram_act_hand_map.py:350 | with non-negative values, every summand is non-negative |
| GramMap.KeepPresent | example/plot_gram_act_hand_map.py:371 | an element is kept exactly when it is preferred and present |
| GramMap.NotIn | example/plot_gram_act_hand_map.py:373-375 | an element is appended exactly when it is present and not preferred |
| GramMap.LabelOrder | example/plot_gram_act_hand_map.py:370-375 | the loop builds the preferred labels present, then the rest |
| GramMap.KeepPresentDistinct | example/plot_gram_act_hand_map.py:371 | filtering a list without repeats gives none |
| GramMap.NotInDistinct | example/plot_gram_act_hand_map.py:373-375 | the appended labels have no repeats |
| GramMap.DistinctCount | example/plot_gram_act_hand_map.py:370-375 | a list without repeats has as many entries as values |
| GramMap.OrderedLabels | example/plot_gram_act_hand_map.py:370-375 | a label is in the order exactly when it is present; OrderedLabelsPermutation adds no repeats and PalmHeadsTable Palm first |
| GramMap.OrderedLabelsPermutation | example/plot_gram_act_hand_map.py:370-375 | the table order lists every present label exactly once |
| GramMap.PalmHeadsTable | example/plot_gram_act_hand_map.py:361-371 | Palm, when present, comes first |
| GramMap.OnlyPreferredLabels | example/plot_gram_act_hand_map.py:373-375 | when all labels are preferred, the append loop adds nothing |
| GramMap.NothingLeftOver | example/plot_gram_act_hand_map.py:373-375 | no element outside the list is appended |
| GramMap.TableRows | example/plot_gram_act_hand_map.py:383-386 | one row per label in order, with its total and max |
| GramMap.GramLabelsPreferred | example/plot_gram_act_hand_map.py:349-375 | every region shown is preferred, so the table is the preferred labels present, in preferred order |
| GramMap.GramTotalsNonNegative | example/plot_gram_act_hand_map.py:336-350 | every region total is non-negative |
| GramMap.AddChannelLoad | example/plot_gram_act_hand_map.py:349-351 | the dictionary updates are one tally step |
| GramMap.GramLoads | example/plot_gram_act_hand_map.py:318-358 | the loop's dictionaries are the tally of the labelled channels; the images are the oriented values |
| GramMap.GramFrame | example/plot_gram_act_hand_map.py:311-388 | the state is the frame update; the table is the ordered tally; the images are the oriented values |
| SensorLogging.LoggingSetup | inspire_hand_sdk/data_collection_scripts/sensor_map_logging.py:115-129 | the transformer starts empty, with the logging policy and an overlay per sheet id |
| SensorLogging.ThumbIsFinger | inspire_hand_sdk/data_collection_scripts/sensor_map_logging.py:62-63 | a thumb id is a finger id for the substring test |
| SensorLogging.LoggingOrient | inspire_hand_sdk/data_collection_scripts/sensor_map_logging.py:61-65 | fingers and thumb flipped, any id containing "palm_touch" turned, the rest unchanged; values kept |
| SensorLogging.LoggingDisplay | inspire_hand_sdk/data_collection_scripts/sensor_map_logging.py:158-160 | without the thumb-middle upsampling, the image keeps the stored values; otherwise it is the upsampled oriented image |
| SensorLogging.OrientationsAgree | inspire_hand_sdk/data_collection_scripts/sensor_map_logging.py:61-65 | the logger and the gram map orient alike except an id that contains "palm_touch" without being it |
| SensorLogging.LogValues | inspire_hand_sdk/data_collection_scripts/sensor_map_logging.py:158-165 | without upsampling, the logged values are the stored ones rearranged, as many as the declared size |
| SensorLogging.ShapeRow | inspire_hand_sdk/data_collection_scripts/sensor_map_logging.py:96 | the shape row reads back as the channel's declared size |
| SensorLogging.DataRow | inspire_hand_sdk/data_collection_scripts/sensor_map_logging.py:165 | one number cell per value, and never read as a shape row; DataRowReadBack gives the values back |
| SensorLogging.ShapeRowReadBack | inspire_hand_sdk/data_collection_scripts/sensor_map_logging.py:96-97 | the shape row reads back as the declared size; no data row is taken for a shape row |
| SensorLogging.DataRowReadBack | inspire_hand_sdk/data_collection_scripts/sensor_map_logging.py:165-166 | a data row reads back as the values written |
| SensorLogging.LoggedRowMatchesShape | inspire_hand_sdk/data_collection_scripts/sensor_map_logging.py:96-166 | a logged row holds as many values as the shape row declares, the stored values rearranged |
| SensorLogging.LoggedRowInRange | inspire_hand_sdk/data_collection_scripts/sensor_map_logging.py:155-166 | every logged value is in [0, 4095] |
| SensorLogging.SetupLogs | inspire_hand_sdk/data_collection_scripts/sensor_map_logging.py:77-100 | one file per region entry, holding only its shape row |
| SensorLogging.Appended | inspire_hand_sdk/data_collection_scripts/sensor_map_logging.py:164-166 | appending rows opens no new file |
| SensorLogging.AppendedStep | inspire_hand_sdk/data_collection_scripts/sensor_map_logging.py:164-166 | one more channel appends one row to its own file |
| SensorLogging.AppendedGrows | inspire_hand_sdk/data_collection_scripts/sensor_map_logging.py:164-166 | logging only appends: earlier rows stay a prefix |
| SensorLogging.ShapeRowStaysFirst | inspire_hand_sdk/data_collection_scripts/sensor_map_logging.py:96-166 | each file still starts with its shape row after any number of frames |
| SensorLogging.AppendRows | inspire_hand_sdk/data_collection_scripts/sensor_map_logging.py:164-166 | the writes of one frame are the appended rows |
| SensorLogging.LogFrame | inspire_hand_sdk/data_collection_scripts/sensor_map_logging.py:143-166 | the state is the frame update, and the files gain one row per processed channel |
| SensorLogging.LoggingStoredValue | inspire_hand_sdk/data_collection_scripts/sensor_map_logging.py:154-156 | the stored value is the clipped difference from the baseline, whatever was stored before |
| SensorLogging.LoggingInRange | inspire_hand_sdk/data_collection_scripts/sensor_map_logging.py:155-156 | stored values stay in [0, 4095] |
| SensorLogging.DumpsMembers | inspire_hand_sdk/data_collection_scripts/sensor_map_logging.py:142-176 | iteration i dumps exactly when i > 0 and i is a multiple of 40 |
| SensorLogging.DumpSchedule | inspire_hand_sdk/data_collection_scripts/sensor_map_logging.py:142-176 | the counter loop dumps at exactly the iterations i > 0 with i % 40 == 0 |
| ForceMapOld.OldSetup | example/plot_force_act_hand_map_old.py:202-222 | the transformer starts empty, with the old policy and an overlay per sheet id |
| ForceMapOld.OldFrame | example/plot_force_act_hand_map_old.py:241-280 | the state is the frame update; the shown values are the processed ones |
| ForceMapOld.OldElseBranchDead | example/plot_force_act_hand_map_old.py:259-275 | the state always holds the channel, so every update is the moving average |
| ForceMapOld.OldFirstFrame | example/plot_force_act_hand_map_old.py:259-273 | a channel's first reading is shown as 0.7 times itself |
| ForceMapOld.OldStoredBetween | example/plot_force_act_hand_map_old.py:264-273 | later values lie between the previous value and the clipped difference in [0, 100] |
| ForceMapOld.OldRawSeedLeavesRange | example/plot_force_act_hand_map_old.py:259-273 | a first reading of 200 is stored as 140, outside [0, 100] |
| ForceMapOld.ZeroSeededOldInRange | example/plot_force_act_hand_map_old.py:259-273 | seeded with zeros, the first frame is zeros and values stay in [0, 100] |
| ForceMapSdk.ZoneMatch | inspire_hand_sdk/example/plot_force_act_hand_map.py:49-52 | the first zone the id contains, or None exactly when it contains none |
| ForceMapSdk.FirstZone | inspire_hand_sdk/example/plot_force_act_hand_map.py:49-58 | the loop with `break` stops at the first matching zone |
| ForceMapSdk.SdkBranch | inspire_hand_sdk/example/plot_force_act_hand_map.py:46-60 | the finger branch exactly for a bare finger key, the thumb branch for another id containing "fingerfive", the palm branch for any remaining id containing "palm_touch", and no branch otherwise; each zone is the first of its dictionary the id contains |
| ForceMapSdk.RegionOf | inspire_hand_sdk/example/plot_force_act_hand_map.py:46-62 | the branch the loop body takes for one id |
| ForceMapSdk.SdkRegions | inspire_hand_sdk/example/plot_force_act_hand_map.py:44-64 | fails with UnboundCoordinates exactly when the first sheet id assigns no box coordinates (no branch, or a finger or thumb branch without a zone); otherwise every sheet id gets an entry, whichever branch it takes |
| ForceMapSdk.PinkyTipFirstUnplaced | inspire_hand_sdk/example/plot_force_act_hand_map.py:44-63 | a sheet starting with "fingerone_tip_touch" takes no branch at its first id, so start-up fails; the substring dispatch places it on the pinky tip |
| ForceMapSdk.FingerBranchExactOnly | inspire_hand_sdk/example/plot_force_act_hand_map.py:39-47 | the finger branch is taken exactly for the four bare finger keys |
| ForceMapSdk.NoZoneInFingerKeys | inspire_hand_sdk/example/plot_force_act_hand_map.py:39-41 | no finger key contains a zone name |
| ForceMapSdk.FingerZoneNeverMatches | inspire_hand_sdk/example/plot_force_act_hand_map.py:46-52 | no id in the finger branch ever gets a zone |
| ForceMapSdk.IntendedBranch | inspire_hand_sdk/example/plot_force_act_hand_map.py:38-52 | with substring tests, a finger id takes the finger branch and gets a zone exactly when it names one |
| ForceMapSdk.IntendedBranchPlacesFingers | inspire_hand_sdk/example/plot_force_act_hand_map.py:38-52 | a pinky tip id is placed on the pinky tip by the substring test, but takes no branch as written |
| ForceMapSdk.SdkSetup | inspire_hand_sdk/example/plot_force_act_hand_map.py:106-129 | fails exactly when the region dispatch fails, and then builds no transformer; otherwise the regions as above, and the transformer starts empty, with an overlay per sheet id |
| ForceMapSdk.SdkFrame | inspire_hand_sdk/example/plot_force_act_hand_map.py:148-187 | the state is the frame update; the shown values are the processed ones |
| ForceMapSdk.SdkStoredValue | inspire_hand_sdk/example/plot_force_act_hand_map.py:166-182 | the new value is the 0.9 moving average of the clipped difference and the previous value, and lies between them |
| ForceMapSdk.SdkFirstFrame | inspire_hand_sdk/example/plot_force_act_hand_map.py:166-180 | a channel's first reading is shown as 0.1 times itself |
| ForceMapSdk.SdkRawSeedLeavesRange | inspire_hand_sdk/example/plot_force_act_hand_map.py:166-180 | a first reading of 4095 is stored as 409.5, outside [0, 100] |
| ForceMapSdk.ZeroSeededSdkInRange | inspire_hand_sdk/example/plot_force_act_hand_map.py:166-180 | seeded with zeros, the first frame is zeros and values stay in [0, 100] |

## Left out

- The DDS subscription, the hand's SDK data sheet, matplotlib drawing, colour maps, `set_clim`, `plt.pause`, and the keyboard and window loops. A frame and the data sheet are parameters.
- Box coordinates (`bbox`) and drawing the hand outline. Placement is modelled only as which branch, finger and zone a channel gets. Coordinates left stale when no zone matches are not modelled either.
- `scipy.ndimage.zoom` (the `upsample` of the thumb's middle segment) is a function parameter. So the lemmas about logged values exclude upsampled channels.
- CSV file creation, timestamps and closing the files. Each log is a sequence of rows keyed by channel id.
- The console dump of `smoothed_data` every 40 iterations: only its schedule is modelled.
- The logger's own region dispatch (`sensor_map_logging.py:33-55`) is not modelled. Besides box coordinates it decides whether start-up succeeds: the `UnboundLocalError` raised at line 55 when the first sheet id takes no branch, is a finger id with none of tip, top and palm, or is a thumb id with none of its zones, is not modelled. What the model keeps is that every sheet id gets an entry, and so an overlay and a CSV file.
- The older map's region dispatch (`plot_force_act_hand_map_old.py:47-139`) is not modelled for the same reason. Every sheet id gets an overlay. The `NameError` the script raises when the first id matches no branch is not modelled.
- The calibration's argument parsing, file reading, printing and float formatting. The parsed CSV is a parameter. Floating-point rounding is not modelled: all arithmetic is on exact reals.
- Calibration.LoadNumeric: the CSV parse itself is a parameter. Lines of different lengths, which `np.genfromtxt` rejects, and the warning on an empty file are not modelled. A single-cell log is the error NotATable, standing for the axis error numpy raises on a 0-dimensional array.
- Calibration.Calibrate: `np.argsort` is a parameter constrained to be an ascending argsort, so any tie order is allowed. numpy's particular order for ties is not modelled.
- GramRegions.GramPlacement: the box coordinates are not part of its result; which ids get a box, and where, is.
- Sort stability of the region table is not relevant: the table order is the preferred list followed by first-seen order, both of which the model keeps exactly.

## Findings

| source | as written | input that shows it | evidently intended | confidence | as-written member | corrected member |
|---|---|---|---|---|---|---|
| example/plot_force_act_hand_map_old.py:260-273 | the smoothed state is seeded with the raw reading, then averaged with the clipped difference, so the first frame stores 0.7 · raw | a one-cell palm sensor whose first reading is 200 counts is stored as 140, above the 0-100 range | relative values that start at 0 and stay in [0, 100]: the state seeded with zeros, as the gram map does | medium, not executed | ForceMapOld.OldRawSeedLeavesRange | ForceMapOld.ZeroSeededOldInRange |
| inspire_hand_sdk/example/plot_force_act_hand_map.py:167-180 | the same raw seed with alpha 0.9, so the first frame stores 0.1 · raw | a first reading of 4095 counts is stored as 409.5 | the state seeded with zeros, values in [0, 100] | medium, not executed | ForceMapSdk.SdkRawSeedLeavesRange | ForceMapSdk.ZeroSeededSdkInRange |
| inspire_hand_sdk/example/plot_force_act_hand_map.py:46-52 | the finger branch tests `var in finger_idx_by_var`, so only a bare finger key takes it, and no bare key contains a zone name | an id such as "fingerone_tip_touch" takes no branch; the id "fingerone" takes the finger branch but matches no zone; either one as the first sheet id leaves the box coordinates unassigned, so the script stops at start-up with an `UnboundLocalError` at line 63 | the finger keys matched as substrings, as the other scripts do, so that each finger sensor gets its finger and zone | medium, not executed | ForceMapSdk.FingerZoneNeverMatches, ForceMapSdk.PinkyTipFirstUnplaced | ForceMapSdk.IntendedBranch |
