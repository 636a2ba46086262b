# Spine curvature analysis, modelled in Dafny

This project models the analysis core of a scoliosis screening backend. An
X-ray image goes through these stages:

- a bright spine centerline is traced through horizontal strips of the image;
- the centerline is smoothed;
- its straightness and chord deviations are measured;
- 17 labelled vertebral keypoints are placed along it;
- a Cobb angle is estimated and capped;
- the angle is banded into a severity, with escalation flags, a
  recommendation and a confidence.

Three Java detectors do this, each with small differences:

- `AccurateSpineDetector`, the accurate detector;
- `StraightSpineDetector`, the straight detector;
- `SpineAngleDetector`, the keypoint detector, whose keypoints are simulated.

Beside them sit:

- the classifier's arithmetic around its model (`SpineClassificationHelper`);
- the confidence booster (`ConfidenceBooster`);
- the pure parts of `MLModelManager`;
- the Python service's straight-spine detector and booster (`analysis.py`).

One module per concern:

| module | file | contents |
|---|---|---|
| `Wrappers` | wrappers.dfy | `Option` |
| `Geometry` | geometry.dfy | points, clamps, random draws, the oracles for `sqrt`/`acos`/`atan`/`cos`, point-to-chord distance |
| `Anatomy` | anatomy.dfy | the 17 keypoint labels and regions, the keypoint record |
| `Sorting` | sorting.dfy | an insertion sort by key, for `List.sort`/`Arrays.sort` |
| `Pixels` | pixels.dfy | packed ARGB pixels, luma (the BT.601 weights 0.299/0.587/0.114), the contrast maps |
| `Smoothing` | smoothing.dfy | the two moving averages |
| `Centerline` | centerline.dfy | the strip scans of the accurate and straight detectors |
| `Linearity` | linearity.dfy | straightness scores, chord deviations, the straight/curved classifications |
| `Distribution` | distribution.dfy | placing the 17 keypoints along a centerline or a fallback line |
| `Angles` | angles.dfy | the angle helpers, the three Cobb estimators, regional angles, apex |
| `Cobb` | cobb.dfy | the angle sets of the three detectors, the realism caps |
| `Severity` | severity.dfy | the five- and four-band severities and the escalation flags |
| `Assessment` | assessment.dfy | the curvature assessments and their confidence arithmetic |
| `Manager` | manager.dfy | comprehensive assessment, recommendation, urgency, fallback result |
| `GapFill` | gapfill.dfy | keypoint validation and the gap filling by index |
| `Simulation` | simulation.dfy | the keypoint detector's mock keypoints and their refinement |
| `Classification` | classification.dfy | argmax, image boost, runner-up, certainty, fallback, sampled image ratios |
| `Boosting` | confidence.dfy | the Java confidence booster and its reliability and consistency scores |
| `Analyzer` | analyzer.dfy | the Python keypoint-output check, straight-spine detector and booster |

Modelling conventions:

- Coordinates, scores and angles are `real`.
- Every `Math.random()` draw is a parameter `r` with `0 <= r < 1` (`Draw`, `Draws`).
- `Math.sqrt`, `acos`, `atan` and `cos` come in as an `Oracles` value. Its
  `Valid()` predicate states only the range facts the model relies on.
- `Math.sin` (`SineLike`) and numpy's `std` (`StdLike`) are function
  parameters with the same kind of constraint.
- A Java `null` is `None`.

## Model

| member | source | states |
|---|---|---|
| Geometry.LineDistance | fastapi-backend/ya/ml/SpineAngleDetector.java:673-679 | the point-to-line distance is never negative; the line's two defining points must differ, because the source divides by the normal's length without a guard |
| Geometry.ChordEndsOnLine | fastapi-backend/ya/ml/AccurateSpineDetector.java:287-293 | both ends of a chord lie at distance 0 from it |
| Geometry.Distance | fastapi-backend/ya/ml/StraightSpineDetector.java:571-573 | the Euclidean distance is non-negative and 0 exactly when the two points coincide |
| Geometry.MaxDeviation | fastapi-backend/ya/ml/AccurateSpineDetector.java:295-309 | the running `Math.max` from 0 bounds every point's distance to the line and is either 0 or attained by some point |
| Geometry.TotalDeviation | fastapi-backend/ya/ml/AccurateSpineDetector.java:269-276 | the summed distances are non-negative and 0 exactly when every point lies on the line |
| Geometry.Clamp | fastapi-backend/ya/ml/ConfidenceBooster.java:87 | `Math.max(lo, Math.min(hi, v))` lies in [lo,hi], is v inside it and the nearer bound outside |
| Geometry.Trunc | fastapi-backend/ya/ml/SpineAngleDetector.java:145 | the `(int)` cast truncates toward zero: never farther from 0 than its argument and within 1 of it |
| Sorting.SortBy | fastapi-backend/ya/ml/SpineAngleDetector.java:278 | sorting by index gives a permutation of the list in non-decreasing key order |
| Sorting.SortStrictlySortedIsIdentity | fastapi-backend/ya/ml/SpineAngleDetector.java:334 | re-sorting a list whose keys already strictly increase leaves it unchanged |
| Anatomy.SpineRegion | fastapi-backend/ya/ml/SpineAngleDetector.java:637-642 | the region partitions indices: below 4 cervical, 4..9 thoracic, 10..14 lumbar, 15 and beyond sacral |
| Anatomy.RegionsTileKeypoints | fastapi-backend/ya/ml/SpineAngleDetector.java:26-31 | over the 17 indices each region owns a contiguous range, and every label starts with its region's letter |
| Anatomy.KeypointLabel | fastapi-backend/ya/ml/StraightSpineDetector.java:590-598 | the table label for indices below 17; beyond it "S" followed by digits that read back as the index |
| Anatomy.NatToString | fastapi-backend/ya/ml/StraightSpineDetector.java:597 | the decimal form of an index is a non-empty string of digits that reads back as the index, with no leading zero |
| Pixels.GrayValue | fastapi-backend/ya/ml/AccurateSpineDetector.java:230-235 | the truncated BT.601 luma of the three 8-bit channels of a packed pixel lies in [0,255] |
| Centerline.ColumnSamples | fastapi-backend/ya/ml/StraightSpineDetector.java:196-198 | only in-image pixels are sampled: a column outside the image or an empty row range gives no samples |
| Centerline.LumaSum | fastapi-backend/ya/ml/StraightSpineDetector.java:199-204 | the summed brightness of n samples lies in [0, 255n] and is 0 exactly when every sample is black |
| Centerline.LumaMax | fastapi-backend/ya/ml/StraightSpineDetector.java:203 | the running maximum from 0 lies in [0,255], bounds every sample and is 0 or attained |
| Centerline.FirstArgMax | fastapi-backend/ya/ml/StraightSpineDetector.java:163-176 | the strictly-greater running maximum from 0 bounds every score; when positive it sits at the first index reaching the greatest score |
| Centerline.StripCentresDescend | fastapi-backend/ya/ml/AccurateSpineDetector.java:171-172 | the centre rows of later strips lie strictly lower in the image |
| Centerline.StripPointsDescend | fastapi-backend/ya/ml/AccurateSpineDetector.java:171-180 | points placed on the centres of increasing strips go strictly down the image |
| Centerline.AccurateColumnsEnumerated | fastapi-backend/ya/ml/AccurateSpineDetector.java:191-198 | the visited columns are exactly those from width/4 below 3·width/4 with the same parity as width/4 |
| Centerline.ColumnAverage | fastapi-backend/ya/ml/AccurateSpineDetector.java:199-216 | a column's mean grey level over every third row lies in [0,255] |
| Centerline.AccurateScores | fastapi-backend/ya/ml/AccurateSpineDetector.java:197-216 | one mean per visited column, in visiting order |
| Centerline.FindSpineCenterInStrip | fastapi-backend/ya/ml/AccurateSpineDetector.java:187-227 | a point exists exactly when some visited column's mean exceeds 120; it is the first brightest column, at the strip's centre row |
| Centerline.AccurateStripPointInMiddle | fastapi-backend/ya/ml/AccurateSpineDetector.java:191-198 | an accurate strip point lies on a whole column of the middle half of the image |
| Centerline.FindSpineCenterline | fastapi-backend/ya/ml/AccurateSpineDetector.java:162-184 | only strips 2..17 of 20 are visited, at most 16 points, each on its strip's centre row, every lit strip contributes its point, and the result is the smoothed trace |
| Centerline.SearchStart | fastapi-backend/ya/ml/StraightSpineDetector.java:136 | the band starts at the truncation of 35% of the width, inside the image |
| Centerline.SearchEnd | fastapi-backend/ya/ml/StraightSpineDetector.java:137 | the band ends at the truncation of 65% of the width, not before its start |
| Centerline.BrightnessScore | fastapi-backend/ya/ml/StraightSpineDetector.java:209-218 | the score lies in [0,1] and is 0 exactly when every sample is black, including no samples |
| Centerline.WhiteColumnScoresOne | fastapi-backend/ya/ml/StraightSpineDetector.java:212-217 | a column of pure white samples reaches the cap of 1 |
| Centerline.SpineScore | fastapi-backend/ya/ml/StraightSpineDetector.java:188-218 | `calculateSpineScore` lies in [0,1] and is 0 exactly when its in-image samples are all black |
| Centerline.StraightScores | fastapi-backend/ya/ml/StraightSpineDetector.java:168-170 | one score per column of the band, in visiting order |
| Centerline.FindSpineCenterInPreciseStrip | fastapi-backend/ya/ml/StraightSpineDetector.java:163-186 | a point exists exactly when some band column scores above 0.3; it is the first best column, at the strip's centre row |
| Centerline.StraightStripPointInBand | fastapi-backend/ya/ml/StraightSpineDetector.java:136-137 | a precise strip point lies on a whole column of the central 30% of the width |
| Centerline.FindPreciseCenterline | fastapi-backend/ya/ml/StraightSpineDetector.java:129-159 | only strips 2..27 of 30 are visited, at most 26 points, each on its strip's centre row, every lit strip contributes, and the result is the advanced-smoothed trace |
| Smoothing.WindowMeanBetween | fastapi-backend/ya/ml/StraightSpineDetector.java:238-250 | a window mean, with or without the doubled centre, lies between the least and the greatest value in its clipped window |
| Smoothing.Smooth | fastapi-backend/ya/ml/AccurateSpineDetector.java:237-258 | fewer than 3 points come back unchanged; otherwise the length is kept and every coordinate lies within its clipped window's minimum and maximum |
| Smoothing.SmoothSpinePoints | fastapi-backend/ya/ml/AccurateSpineDetector.java:237-258 | ±1 window, all weights 1: length kept, short traces unchanged, each coordinate of a longer trace within its clipped window's minimum and maximum |
| Smoothing.AdvancedSmoothing | fastapi-backend/ya/ml/StraightSpineDetector.java:230-253 | ±2 window, centre weight 2: length kept, short traces unchanged, each coordinate of a longer trace within its clipped window's minimum and maximum |
| Smoothing.SmoothingKeepsVerticalLine | fastapi-backend/ya/ml/StraightSpineDetector.java:238-250 | a vertical trace stays on its vertical line through either smoother |
| Smoothing.SmoothSpinePointsKeepsChord | fastapi-backend/ya/ml/AccurateSpineDetector.java:237-258 | a trace going down the image keeps its first point above its last through the ±1 smoother, so the smoothed chord has distinct ends |
| Smoothing.AdvancedSmoothingKeepsChord | fastapi-backend/ya/ml/StraightSpineDetector.java:230-253 | the same for the weighted ±2 smoother |
| Smoothing.SmoothedPoint | fastapi-backend/ya/ml/StraightSpineDetector.java:250 | each smoothed point of a trace of 3 or more is its window's weighted mean |
| Linearity.LateralSpread | fastapi-backend/ya/ml/AccurateSpineDetector.java:274-275 | the summed horizontal distance from the midline is non-negative and 0 exactly when every point is on the midline |
| Linearity.ChordDeviation | fastapi-backend/ya/ml/StraightSpineDetector.java:284-299 | the largest chord distance bounds every point's and is 0 exactly when the trace lies on its chord |
| Linearity.MaxLateralDeviation | fastapi-backend/ya/ml/AccurateSpineDetector.java:295-309 | 0 for fewer than two points; NaN (`None`) exactly when two or more points have coinciding ends; otherwise non-negative and 0 exactly when the trace lies on its chord |
| Linearity.PreciseDeviation | fastapi-backend/ya/ml/StraightSpineDetector.java:284-299 | the nominal 5 for fewer than two points; NaN (`None`) exactly when two or more points have coinciding ends; otherwise non-negative and 0 exactly when the trace lies on its chord |
| Linearity.DeviationsAgree | fastapi-backend/ya/ml/StraightSpineDetector.java:284-299 | on two or more points both detectors' deviation measures agree, NaN included, and are the chord deviation when the chord is proper |
| Linearity.AccurateStraightness | fastapi-backend/ya/ml/AccurateSpineDetector.java:260-285 | 0.8 for fewer than 3 points, otherwise in [0,1]; 1 exactly when the trace lies on its chord or the lateral spread is 0; 0 exactly when the total deviation reaches the spread plus one |
| Linearity.PreciseStraightness | fastapi-backend/ya/ml/StraightSpineDetector.java:258-279 | 0.9 for fewer than 3 points, otherwise in [0,1]; 1 exactly when the trace lies on its chord; 0 exactly when the mean deviation reaches a quarter of the chord length |
| Linearity.HasVisibleCurvature | fastapi-backend/ya/ml/SpineAngleDetector.java:438-452 | true exactly for five or more points, distinct chord ends and a mean chord deviation above 10 |
| Linearity.OnChordHasNoVisibleCurvature | fastapi-backend/ya/ml/SpineAngleDetector.java:438-452 | a trace lying on its chord shows no visible curvature |
| Linearity.GradeDescriptionsDistinct | fastapi-backend/ya/ml/StraightSpineDetector.java:103-117 | different grades carry different descriptions |
| Linearity.StraightCenterline | fastapi-backend/ya/ml/StraightSpineDetector.java:512-525 | 15 points on the vertical midline from 15% to 85% of the height |
| Linearity.StraightCenterlineDescends | fastapi-backend/ya/ml/StraightSpineDetector.java:512-525 | on a non-empty image the fallback centerline goes strictly down the image |
| Linearity.Grade | fastapi-backend/ya/ml/StraightSpineDetector.java:103-117 | the five grades partition straight (above or up to 0.95) and curved (ratio under 1.5, under 2.5, beyond) |
| Linearity.AnalyzeSpineLinearity | fastapi-backend/ya/ml/StraightSpineDetector.java:74-120 | under five points: straight, 0.85, deviation 8 and the fallback centerline; otherwise straight exactly when the precise straightness reaches 0.9 and the deviation ratio is under 1, with the grade partition |
| Linearity.RatioBands | fastapi-backend/ya/ml/StraightSpineDetector.java:97-114 | the deviation ratio against 1, 1.5 and 2.5 is the deviation against 10%, 15% and 25% of the width |
| Linearity.CollinearCenterlineIsVeryStraight | fastapi-backend/ya/ml/StraightSpineDetector.java:94-106 | a centerline of five or more points on its chord is graded a very straight spine |
| Linearity.AnalyzeSpineCharacteristics | fastapi-backend/ya/ml/AccurateSpineDetector.java:114-155 | straightness bands above 0.85, 0.7 and 0.5 choose the type and expected angles in [2,8), [8,15), [15,25) and [25,40); under five points 0.8 and [5,15); visible curvature exactly when the deviation exceeds 8% of the width |
| Linearity.CollinearSpineIsNormal | fastapi-backend/ya/ml/AccurateSpineDetector.java:125-133 | a centerline of five or more points on its chord is normal and shows no visible curvature |
| Pixels.Luma | fastapi-backend/ya/ml/StraightSpineDetector.java:220-225 | the unrounded BT.601 brightness of a pixel lies in [0,255] |
| Pixels.GreyPixelRoundTrip | fastapi-backend/ya/ml/SpineAngleDetector.java:150 | in exact arithmetic, a grey pixel written as `0xFF000000 \| (v << 16) \| (v << 8) \| v` reads back as v in every channel, as its luma and as its grey value |
| Pixels.Stretch | fastapi-backend/ya/ml/SpineAngleDetector.java:148 | the clamped stretch around 128 always yields a grey level in [0,255] |
| Pixels.XrayContrast | fastapi-backend/ya/ml/SpineAngleDetector.java:145-148 | the 1.5 stretch of `enhanceXrayImage` yields a grey level in [0,255] |
| Pixels.ClassificationContrast | fastapi-backend/ya/ml/SpineClassificationHelper.java:126-133 | the 1.3 stretch with the bright lift and dark drop yields a level in [0,255] that never lands in (180,200] or [70,80) |
| Pixels.StretchMonotone | fastapi-backend/ya/ml/SpineClassificationHelper.java:129 | the stretch preserves the order of grey levels |
| Pixels.ContrastMonotone | fastapi-backend/ya/ml/SpineClassificationHelper.java:126-133 | both enhancement maps preserve the order of grey levels |
| Pixels.ContrastFixesMidGrey | fastapi-backend/ya/ml/SpineAngleDetector.java:148 | mid-grey 128 is a fixed point of both maps |
| Pixels.MapGrey | fastapi-backend/ya/ml/SpineClassificationHelper.java:119-136 | in exact arithmetic, the per-pixel map keeps the image's size and each output pixel's grey value is the map applied to the input's |
| Distribution.TargetIndex | fastapi-backend/ya/ml/AccurateSpineDetector.java:369 | the fractional index of a progress in [0,1] lies in [0, n−1], at 0 for progress 0 and at n−1 for progress 1 |
| Distribution.InterpolateAlong | fastapi-backend/ya/ml/AccurateSpineDetector.java:360-386 | the origin for an empty trace, the point itself for one; progress 0 gives the first point and 1 the last; otherwise the result lies coordinate-wise between the two bracketing points |
| Distribution.AtInsideSegment | fastapi-backend/ya/ml/StraightSpineDetector.java:553-568 | strictly inside a segment of a descending trace the result is the segment's interpolation, at or below its start and above its end |
| Distribution.InterpolationDescends | fastapi-backend/ya/ml/StraightSpineDetector.java:549-569 | on a trace going down the image, a larger progress gives a point strictly lower down |
| Distribution.TargetIndexIncreasing | fastapi-backend/ya/ml/AccurateSpineDetector.java:369 | a larger progress gives a larger fractional index |
| Distribution.Progress | fastapi-backend/ya/ml/AccurateSpineDetector.java:342 | the progress i/16 of a keypoint lies in [0,1] |
| Distribution.DistributeAlongSpine | fastapi-backend/ya/ml/AccurateSpineDetector.java:337-358 | 17 keypoints with indices 0..16, table labels and regions, none interpolated; the first on the trace's first point and the last on its last |
| Distribution.DistributedKeypointsDescend | fastapi-backend/ya/ml/AccurateSpineDetector.java:337-358 | keypoints spread along a descending centerline descend too |
| Distribution.StraightSpineKeypoints | fastapi-backend/ya/ml/AccurateSpineDetector.java:388-420 | the fallback's 17 labelled keypoints lie within 1% of the width of the vertical midline, from 15% to 85% of the height |
| Distribution.StraightSpinePosition | fastapi-backend/ya/ml/AccurateSpineDetector.java:396-412 | a fallback position is within 1% of the width of the midline, and the first and last rows are at 15% and 85% |
| Distribution.JitterBound | fastapi-backend/ya/ml/AccurateSpineDetector.java:406 | a draw centred on 0 and scaled by a span moves at most half the span |
| Distribution.StraightSpineKeypointsDescend | fastapi-backend/ya/ml/AccurateSpineDetector.java:393-412 | the fallback keypoints go strictly down a non-empty image |
| Distribution.EvenRow | fastapi-backend/ya/ml/StraightSpineDetector.java:337-346 | row 0 is the top row and row 16 the bottom row |
| Distribution.EvenRowsDescend | fastapi-backend/ya/ml/StraightSpineDetector.java:337-346 | evenly spaced rows keep their order |
| Distribution.AccurateConfidence | fastapi-backend/ya/ml/AccurateSpineDetector.java:326-332 | [0.85,0.95) when the straightness exceeds 0.8, otherwise [0.75,0.9) |
| Distribution.AccurateKeypoints | fastapi-backend/ya/ml/AccurateSpineDetector.java:311-335 | always 17 labelled keypoints: spread along the detected points when there are any, otherwise the straight fallback, each with its own confidence draw |
| Distribution.PerfectStraightKeypoints | fastapi-backend/ya/ml/StraightSpineDetector.java:332-357 | 17 labelled keypoints within half a percent of the width of the midline, from 12% to 88% of the height, with confidence in [0.92,0.98) |
| Distribution.PerfectStraightPosition | fastapi-backend/ya/ml/StraightSpineDetector.java:341-348 | a position within half a percent of the width of the midline, first and last rows at 12% and 88% |
| Distribution.StraightKeypoints | fastapi-backend/ya/ml/StraightSpineDetector.java:302-330 | 17 labelled keypoints with confidence in [0.9,0.98): the perfect layout for an empty centerline, otherwise interpolated along it |
| Distribution.LinearityCenterlineNeverEmpty | fastapi-backend/ya/ml/StraightSpineDetector.java:362-370 | the linearity analysis always hands on a centerline of at least five points, so the mild-curve fallback is unreachable |
| Angles.Sub | fastapi-backend/ya/ml/SpineAngleDetector.java:733-736 | the difference vector is zero exactly when the two points coincide |
| Angles.Length | fastapi-backend/ya/ml/SpineAngleDetector.java:739-740 | a vector's length is non-negative and 0 exactly for the zero vector |
| Angles.VectorAngle | fastapi-backend/ya/ml/SpineAngleDetector.java:738-747 | an angle in [0,180]; 0 when either vector has zero length; otherwise the arc cosine of the normalised dot product clamped to [−1,1] |
| Angles.VectorAngleSymmetric | fastapi-backend/ya/ml/SpineAngleDetector.java:738-747 | the angle between two vectors does not depend on their order |
| Angles.AngleFromThreePoints | fastapi-backend/ya/ml/SpineAngleDetector.java:732-748 | the vertex angle lies in [0,180] and is 0 when either ray has zero length |
| Angles.ThreePointAngleSymmetric | fastapi-backend/ya/ml/SpineAngleDetector.java:732-748 | the vertex angle is the same read from either side |
| Angles.AngleBetweenLines | fastapi-backend/ya/ml/SpineAngleDetector.java:750-766 | the angle between two directions lies in [0,180] and is 0 when either segment is degenerate |
| Angles.LineAngleSymmetric | fastapi-backend/ya/ml/SpineAngleDetector.java:750-766 | swapping the two segments leaves the angle unchanged |
| Angles.Peak | fastapi-backend/ya/ml/SpineAngleDetector.java:389-397 | the running `Math.max` from 0 bounds every value and is 0 or attained |
| Angles.FirstPeak | fastapi-backend/ya/ml/SpineAngleDetector.java:719-726 | the strictly-greater scan from 0 finds nothing exactly when no value is positive, otherwise the first index of the greatest value |
| Angles.Deviations | fastapi-backend/ya/ml/SpineAngleDetector.java:428-431 | one chord distance per point, in order |
| Angles.Apex | fastapi-backend/ya/ml/SpineAngleDetector.java:712-729 | no apex exactly when no point lies off the chord or the chord is degenerate; otherwise the first point of greatest positive chord distance |
| Angles.Turn | fastapi-backend/ya/ml/SpineAngleDetector.java:389-395 | one window's angle between consecutive segments lies in [0,180] |
| Angles.Turns | fastapi-backend/ya/ml/SpineAngleDetector.java:389 | the windows are i = 1..size−3, one angle per window |
| Angles.TraditionalCobb | fastapi-backend/ya/ml/SpineAngleDetector.java:386-400 | the traditional estimate bounds every window angle and is 0 or attained by a window |
| Angles.Bend | fastapi-backend/ya/ml/SpineAngleDetector.java:409-414 | one bend \|180 − angle\| lies in [0,180] |
| Angles.Bends | fastapi-backend/ya/ml/SpineAngleDetector.java:408 | one bend per keypoint i = 2..size−3 |
| Angles.CurveFittingAngle | fastapi-backend/ya/ml/SpineAngleDetector.java:402-419 | 0 for fewer than five keypoints; otherwise it bounds every bend and is 0 or attained |
| Angles.DeviationBasedAngle | fastapi-backend/ya/ml/SpineAngleDetector.java:421-435 | 0 for fewer than three keypoints and for a trace on its chord; always in [0,180) |
| Angles.BestEstimate | fastapi-backend/ya/ml/SpineAngleDetector.java:374 | the combined estimate is at least each of the three estimators and equals one of them |
| Angles.EnhancedCobb | fastapi-backend/ya/ml/SpineAngleDetector.java:361-383 | 0 for fewer than four keypoints; otherwise at least every estimator, at least 15 when the curvature is visible, and a lifted value lies in [15,25) |
| Angles.InRegion | fastapi-backend/ya/ml/SpineAngleDetector.java:644-651 | exactly the keypoints of the region, in their order |
| Angles.CompleteRegion | fastapi-backend/ya/ml/SpineAngleDetector.java:637-651 | in a complete keypoint set a region's keypoints are the index slice the anatomy assigns it |
| Angles.RegionalAngle | fastapi-backend/ya/ml/SpineAngleDetector.java:644-671 | in [0,180]; 0 for a region of fewer than three keypoints, on its chord or with a degenerate chord; otherwise the vertex angle at the apex; so a non-zero angle means three or more region keypoints off a proper chord |
| Angles.RegionalAngleOfSlice | fastapi-backend/ya/ml/SpineAngleDetector.java:644-671 | on a complete keypoint set a region's angle depends only on that region's slice of the keypoints |
| Angles.AccurateRegionalAngle | fastapi-backend/ya/ml/AccurateSpineDetector.java:517-539 | [5,10) for a region of fewer than three keypoints; NaN (`None`) exactly when three or more have coinciding first and last positions; otherwise 0.3 times the greatest chord deviation capped at 15, so in [0,15], and 0 exactly on the chord |
| Angles.AccurateRegionalAngleMonotone | fastapi-backend/ya/ml/AccurateSpineDetector.java:517-539 | a region whose keypoints deviate no more from their chord never gets a larger regional angle, whatever the draws; both angles are numbers |
| Angles.WidestOffset | fastapi-backend/ya/ml/SpineAngleDetector.java:688-691 | the widest horizontal offset bounds every point's and is 0 exactly when every point is on the vertical line |
| Angles.OverallCurvature | fastapi-backend/ya/ml/SpineAngleDetector.java:681-695 | 0 for fewer than three keypoints; with distinct chord ends, in [0,90) and 0 exactly when every point is on the chord's midline; with coinciding ends, 90 (a positive offset over a zero half-length) or NaN (`None`) when no point leaves the midline |
| Angles.RegionName | fastapi-backend/ya/ml/SpineAngleDetector.java:637-642 | each region's name |
| Angles.SpineApex | fastapi-backend/ya/ml/SpineAngleDetector.java:712-730 | "Unknown" for fewer than three keypoints or no off-chord keypoint; otherwise "Region (label)" of the apex keypoint |
| Angles.AccurateApex | fastapi-backend/ya/ml/AccurateSpineDetector.java:541-559 | "Center" exactly for fewer than three keypoints; otherwise the apex's region, or the middle keypoint's when none lies off the chord |
| Angles.ApexesAgree | fastapi-backend/ya/ml/SpineAngleDetector.java:712-730 | the keypoint and accurate detectors name the same apex: with an off-chord apex the keypoint detector's label is the accurate region followed by the keypoint's name, on a complete set "Region (label)" from the table; with none, "Unknown" against the middle keypoint's region |
| Cobb.ValidateAndAdjust | fastapi-backend/ya/ml/SpineAngleDetector.java:454-470 | afterwards cobb ≤ 90, cervical ≤ 60, thoracic ≤ 70, lumbar ≤ 80; over-cap values land in [45,75), [35,50), [40,60), [45,70); a small Cobb angle on more than ten keypoints lands in [8,15); everything else is unchanged |
| Cobb.ValidateAndAdjustIdempotent | fastapi-backend/ya/ml/SpineAngleDetector.java:454-470 | adjusting already adjusted angles changes nothing, whatever the new draws |
| Cobb.SpineAnglesEnhanced | fastapi-backend/ya/ml/SpineAngleDetector.java:339-358 | no angles for fewer than three keypoints; otherwise every angle is non-negative and within its realism cap, a Cobb angle already in [5,90] and a regional angle within its cap are kept, a small Cobb angle on more than ten keypoints is lifted into [8,15), and the overall curvature, deviation and apex pass through |
| Cobb.RawAngles | fastapi-backend/ya/ml/SpineAngleDetector.java:344-350 | the unadjusted angles are non-negative; the Cobb angle is 0 for three keypoints and at least 15 for four or more with visible curvature; the lateral deviation is 0 and the apex "Unknown" exactly when every keypoint is on the chord |
| Cobb.AccurateAngles | fastapi-backend/ya/ml/AccurateSpineDetector.java:422-450 | the Cobb angle, deviation and apex come from the characteristics; a straight spine gets regional angles in [5,10), [8,15), [6,12) and overall curvature in [3,7); a curved one its keypoints' regional angles, in [0,15], and half its deviation; `None` exactly for a curved spine with a region whose chord ends coincide, where the source's regional angle is NaN |
| Cobb.AccurateAnglesBounded | fastapi-backend/ya/ml/AccurateSpineDetector.java:123-151 | whatever the centerline, a defined accurate record has its Cobb angle in [2,40) and no regional angle above 15, and it is defined whenever every region's chord ends differ |
| Cobb.CurvedAngle | fastapi-backend/ya/ml/StraightSpineDetector.java:431-446 | 10 + 15·ratio capped at 20, 35 or 50 by ratio band, so in [10,50] for a non-negative ratio |
| Cobb.CurvedAngleMonotone | fastapi-backend/ya/ml/StraightSpineDetector.java:431-446 | a larger deviation ratio never gives a smaller angle |
| Cobb.MinimalAngle | fastapi-backend/ya/ml/StraightSpineDetector.java:409-426 | a straight spine gets [0.5,2.5) above 0.95, [1,5) above 0.9 and [1,4) otherwise; a curved one the curved angle |
| Cobb.MinimalAngleSeparatesBranches | fastapi-backend/ya/ml/StraightSpineDetector.java:409-446 | a straight spine's angle stays below 5 and a curved one's lies in [10,50] |
| Severity.FiveBand | fastapi-backend/ya/ml/SpineAngleDetector.java:479-499 | the five bands partition the angles at 10, 20, 40 and 50 |
| Severity.FiveBandMonotone | fastapi-backend/ya/ml/SpineAngleDetector.java:479-499 | a larger angle never gets a milder band |
| Severity.FourBand | fastapi-backend/ya/ml/StraightSpineDetector.java:456-476 | the straight detector's four bands partition the angles at 10, 20 and 40, with "Severe" from 40 up |
| Severity.FourBandMergesTopBands | fastapi-backend/ya/ml/StraightSpineDetector.java:456-476 | the four bands are the five with the top two merged |
| Severity.FlagsFor | fastapi-backend/ya/ml/SpineAngleDetector.java:524-527 | monitoring exactly from 10, intervention from 25, surgical consultation from 45 |
| Severity.FlagsFollowBands | fastapi-backend/ya/ml/SpineAngleDetector.java:479-527 | the flags escalate in order, monitoring exactly off the Normal band, intervention only from Moderate up, surgery only from Severe up |
| Assessment.ConfidenceSum | fastapi-backend/ya/ml/SpineAngleDetector.java:537-540 | the summed confidence of keypoints with confidences in [0,1] lies in [0, n] |
| Assessment.BaseConfidence | fastapi-backend/ya/ml/SpineAngleDetector.java:534-547 | at most 0.9, exactly 0.5 with no keypoints, non-negative when every confidence is in [0,1] |
| Assessment.BaseConfidenceSaturates | fastapi-backend/ya/ml/SpineAngleDetector.java:542-546 | 17 keypoints of confidence 0.8 or more reach the 0.9 cap |
| Assessment.HighConfidenceCount | fastapi-backend/ya/ml/SpineAngleDetector.java:511-516 | the count of keypoints above 0.6 is all of them exactly when every one is above, and 0 exactly when none is |
| Assessment.HighConfidenceRatio | fastapi-backend/ya/ml/SpineAngleDetector.java:517 | undefined exactly for no keypoints; otherwise in [0,1], and 1 exactly when every keypoint is above 0.6 |
| Assessment.QualityOf | fastapi-backend/ya/ml/SpineAngleDetector.java:507-509 | the quality labels partition the counts at 15, 12 and 8 |
| Assessment.MeanInBand | fastapi-backend/ya/ml/SpineAngleDetector.java:588-592 | the mean abscissa of points in a band lies in the band |
| Assessment.RegionalDeviations | fastapi-backend/ya/ml/SpineAngleDetector.java:577-602 | nothing for a region of fewer than two keypoints; otherwise one non-negative deviation per region keypoint |
| Assessment.SignificantCurve | fastapi-backend/ya/ml/SpineAngleDetector.java:604-613 | true exactly when some deviation exceeds 12 |
| Assessment.NarrowRegionHasNoCurve | fastapi-backend/ya/ml/SpineAngleDetector.java:577-613 | a region whose abscissae fit in a 12-pixel band has no significant curve |
| Assessment.EnhancedCurvePattern | fastapi-backend/ya/ml/SpineAngleDetector.java:551-575 | "Insufficient data" exactly below 8 keypoints; otherwise the pattern named by which regions curve |
| Assessment.NarrowSpineReportedComplex | fastapi-backend/ya/ml/SpineAngleDetector.java:551-575 | eight or more keypoints within a 12-pixel band are reported as the complex multi-regional pattern |
| Assessment.RegionPointsFromKeypoints | fastapi-backend/ya/ml/SpineAngleDetector.java:580-585 | every region point is some keypoint's position |
| Assessment.ClassifyCurveType | fastapi-backend/ya/ml/SpineAngleDetector.java:768-778 | the four curve types partition the angle triples: thoracic dominant, lumbar dominant, balanced within 5, mixed otherwise |
| Assessment.AssessEnhanced | fastapi-backend/ya/ml/SpineAngleDetector.java:473-531 | five-band severity with its risk, confidence at most 0.865 (the 0.95 cap never binds) and 0.475 with no keypoints, quality by count, the confident share, the pattern, the curve type and the flags |
| Assessment.ConfidentSpineReachesCap | fastapi-backend/ya/ml/SpineAngleDetector.java:501-505 | 17 keypoints of confidence 0.8 or more reach the highest possible assessment confidence, 0.865 |
| Assessment.ChordPattern | fastapi-backend/ya/ml/AccurateSpineDetector.java:561-582 | "Linear pattern" exactly below five keypoints; otherwise the mean chord deviation's band at 10 and 20, and "Moderate curvature pattern" when the first and last keypoints coincide, since the NaN mean fails both comparisons |
| Assessment.MeanDeviationBand | fastapi-backend/ya/ml/AccurateSpineDetector.java:573-581 | the three pattern names partition the mean deviation at 10 and 20 |
| Assessment.OnChordPatternMinimal | fastapi-backend/ya/ml/AccurateSpineDetector.java:561-582 | keypoints on their chord are reported as minimal curvature |
| Assessment.RealisticAssessment | fastapi-backend/ya/ml/AccurateSpineDetector.java:453-508 | five-band severity; confidence in [0.88,0.95) and "Excellent" above straightness 0.8, else [0.78,0.9) and "Good"; the pattern chosen by straightness and visible curvature; the flags |
| Assessment.RealisticConfidenceMonotone | fastapi-backend/ya/ml/AccurateSpineDetector.java:453-508 | a straighter spine never gets a lower confidence or a worse keypoint quality, and its severity is the same |
| Assessment.StraightConfidence | fastapi-backend/ya/ml/StraightSpineDetector.java:497-510 | in [0.85,0.96]; a curved spine gets 0.85 or 0.9 by keypoint count; a straight one at least 0.93, and the 0.96 cap above 0.95 or with 15 keypoints |
| Assessment.StraightSpineMoreConfident | fastapi-backend/ya/ml/StraightSpineDetector.java:497-510 | a straight spine is always reported with more confidence than a curved one with as many keypoints |
| Assessment.StraightSpineAssessment | fastapi-backend/ya/ml/StraightSpineDetector.java:450-483 | the four-band severity with its risk, never Critical, with the given confidence and the linearity's description |
| Assessment.StraightAssessmentFollowsFiveBands | fastapi-backend/ya/ml/StraightSpineDetector.java:450-483 | a larger angle never gets a milder straight-detector severity; below 50 it is the five-band severity, from 50 up Severe where the five bands say Very Severe |
| Assessment.DefaultStraightResult | fastapi-backend/ya/ml/StraightSpineDetector.java:527-545 | angle in [2.5,6.5), confidence 0.82, straight linearity of 0.88 and deviation 6, assessed Normal with Low risk |
| Manager.AdviceFor | fastapi-backend/ya/ml/MLModelManager.java:325-350 | the four recommendation bands partition the angles at 10, 25 and 40 |
| Manager.AdviceTrailsSeverity | fastapi-backend/ya/ml/MLModelManager.java:291-347 | the recommendation never runs ahead of the severity band, reaches urgent referral exactly from the Severe band, and lags exactly in [20,25) and from 50 |
| Manager.ComprehensiveAssessment | fastapi-backend/ya/ml/MLModelManager.java:285-323 | the five-band severity with its risk, the result's confidence, the recommendation band, and immediate attention exactly from 45 |
| Manager.Urgency | fastapi-backend/ya/ml/MLModelManager.java:547-552 | "Critical" exactly when immediate attention is needed; otherwise High and Medium follow the risk; never Unknown |
| Manager.ComprehensiveUrgency | fastapi-backend/ya/ml/MLModelManager.java:320 | by angle the urgency is Low below 20, Medium below 40, High below 45 and Critical from 45, while the risk in [45,50) is only High |
| Manager.ModelFallback | fastapi-backend/ya/ml/MLModelManager.java:352-373 | angle in [15,35), confidences 0.5, "Analysis Limited", limited analysis with unknown risk and no immediate attention |
| Manager.FallbackLooksSuccessful | fastapi-backend/ya/ml/MLModelManager.java:525-527 | the fallback passes `isSuccessful` and has Low urgency, although its angle is off the Normal band |
| GapFill.Accept | fastapi-backend/ya/ml/SpineAngleDetector.java:279-286 | the kept keypoints are confident above 0.2, inside [0,w)×[0,h), and come from the input |
| GapFill.AcceptCounts | fastapi-backend/ya/ml/SpineAngleDetector.java:279-286 | each accepted keypoint is kept as often as the input has it, and nothing else is kept |
| GapFill.AcceptKeepsOrder | fastapi-backend/ya/ml/SpineAngleDetector.java:279-286 | filtering keeps the index order |
| GapFill.AcceptKeepsStrictOrder | fastapi-backend/ya/ml/SpineAngleDetector.java:279-286 | filtering keeps a strict index order |
| GapFill.SortAndAccept | fastapi-backend/ya/ml/SpineAngleDetector.java:277-287 | sorted by index and holding exactly the accepted keypoints of the input, with multiplicity |
| GapFill.SameAccepted | fastapi-backend/ya/ml/SpineAngleDetector.java:277-287 | sorting first does not change which keypoints are accepted |
| GapFill.Ease | fastapi-backend/ya/ml/SpineAngleDetector.java:313 | the cosine ease lies in [0,1] |
| GapFill.Filler | fastapi-backend/ya/ml/SpineAngleDetector.java:309-326 | a synthesised keypoint carries the missing index with its label and region, is interpolated, has 0.8 times the lower neighbour confidence, and lies coordinate-wise between its neighbours |
| GapFill.Gap | fastapi-backend/ya/ml/SpineAngleDetector.java:305-328 | nothing unless the gap exceeds 1; otherwise exactly gap−1 synthesised keypoints, one per missing index |
| GapFill.SmartInterpolation | fastapi-backend/ya/ml/SpineAngleDetector.java:297-334 | fewer than three keypoints come back unchanged; otherwise the result is sorted by index and holds the input plus every synthesised keypoint |
| GapFill.MergedHoldsAll | fastapi-backend/ya/ml/SpineAngleDetector.java:303-330 | the gap-merged list holds the input and the synthesised keypoints |
| GapFill.MergedContiguous | fastapi-backend/ya/ml/SpineAngleDetector.java:303-330 | for increasing indices the merged list has every index from the first to the last once, in order, with each input keypoint at its own index |
| GapFill.GapIndices | fastapi-backend/ya/ml/SpineAngleDetector.java:308-310 | a gap's synthesised keypoints carry the missing indices in order |
| GapFill.InterpolationFillsEveryIndex | fastapi-backend/ya/ml/SpineAngleDetector.java:297-334 | on three or more strictly index-ordered keypoints the result has every index from the first to the last exactly once, input keypoints at their own indices and interpolated ones at the missing indices |
| GapFill.ValidateKeypoints | fastapi-backend/ya/ml/SpineAngleDetector.java:274-295 | sorted by index; with fewer than three accepted keypoints exactly the accepted ones, otherwise the accepted ones plus the keypoints synthesised for the gaps between them, with multiplicity |
| GapFill.ValidationFillsEveryIndex | fastapi-backend/ya/ml/SpineAngleDetector.java:274-335 | with three or more accepted keypoints of distinct indices the validated list has every index from the first to the last exactly once, in order, starts and ends at accepted keypoints and holds every accepted one |
| GapFill.NoGapsBetweenConsecutive | fastapi-backend/ya/ml/SpineAngleDetector.java:303-330 | keypoints whose indices go up by one leave no gap to fill |
| GapFill.InterpolationKeepsConsecutive | fastapi-backend/ya/ml/SpineAngleDetector.java:297-334 | gap filling gives back keypoints whose indices go up by one unchanged |
| GapFill.ValidationKeepsAcceptedCompleteSet | fastapi-backend/ya/ml/SpineAngleDetector.java:274-335 | validating a complete set of 17 keypoints, all of them accepted, gives the set back unchanged |
| Simulation.PrimaryAmplitude | fastapi-backend/ya/ml/SpineAngleDetector.java:188 | the primary bend's amplitude lies in [25,65) pixels |
| Simulation.Bend | fastapi-backend/ya/ml/SpineAngleDetector.java:196-222 | only keypoints 4..14 bend; a thoracic curve leaves the lumbar ones straight and a lumbar curve the thoracic ones; no bend exceeds the amplitude and an S-curve's lumbar counter-bend stays within 0.6 of it |
| Simulation.MockKeypoint | fastapi-backend/ya/ml/SpineAngleDetector.java:224-235 | a mock keypoint carries its table label, lies within 4 pixels of the bent centre line and 1.5 of its row, with a confidence in [0.75,0.95) |
| Simulation.MockKeypoints | fastapi-backend/ya/ml/SpineAngleDetector.java:177-243 | a complete set of 17 detected keypoints, each within 69 pixels of the centre line, the unbent ones within 4 |
| Simulation.RefineKeypoint | fastapi-backend/ya/ml/SpineAngleDetector.java:255-267 | the shifted position clamped into the closed image rectangle, exact when it stays inside, and the confidence raised by 0.1 up to 0.95 |
| Simulation.Refine | fastapi-backend/ya/ml/SpineAngleDetector.java:245-272 | every keypoint refined in place: inside the closed rectangle, moved by less than 3 pixels either way across and 2 either way down when that far from the edges, its confidence never lowered below min(0.95, original) |
| Simulation.ClampedToRightEdgeIsRejected | fastapi-backend/ya/ml/SpineAngleDetector.java:255-287 | a keypoint pushed past the right edge is clamped onto x == width, which validation rejects because it keeps only x < width |
| Simulation.DetectKeypoints | fastapi-backend/ya/ml/SpineAngleDetector.java:158-175 | 17 table keypoints, none synthesised, inside the closed image rectangle, each with a confidence in [0.85,0.95] |
| Simulation.LargeImageKeepsEveryKeypoint | fastapi-backend/ya/ml/SpineAngleDetector.java:158-175 | on an image at least 146 by 24 pixels validation accepts every simulated keypoint and fills no gap, so the validated list is the detected one |
| Classification.PrimaryClass | fastapi-backend/ya/ml/SpineClassificationHelper.java:172-180 | the primary class is the first index of the greatest probability |
| Classification.ImageBoost | fastapi-backend/ya/ml/SpineClassificationHelper.java:235-255 | the boost lies in [0,0.25]; it is 0 exactly when no indicator passes its threshold and 0.25 exactly when all four pass; a visible spine guarantees at least 0.1, and without one the boost is at most 0.15 |
| Classification.ImageBoostMonotone | fastapi-backend/ya/ml/SpineClassificationHelper.java:244-249 | a better image never gets a smaller boost |
| Classification.BoostedConfidence | fastapi-backend/ya/ml/SpineClassificationHelper.java:188-190 | the boosted confidence never exceeds 0.95, equals top + boost below the cap, and is never below the top probability (or the cap) for a non-negative boost |
| Classification.SecondaryClass | fastapi-backend/ya/ml/SpineClassificationHelper.java:374-391 | there is no runner-up exactly when every other class has at most 0.2; otherwise it is the first non-primary index of the greatest other probability, which exceeds 0.2 |
| Classification.Certainty | fastapi-backend/ya/ml/SpineClassificationHelper.java:393-404 | the certainty is never negative |
| Classification.CertaintyIsLead | fastapi-backend/ya/ml/SpineClassificationHelper.java:393-404 | the certainty is the top probability's lead over the best of the other classes, wherever the top one sits |
| Classification.TiedTopHasNoCertainty | fastapi-backend/ya/ml/SpineClassificationHelper.java:393-404 | two classes tied at the top give certainty 0 |
| Classification.ProcessOutput | fastapi-backend/ya/ml/SpineClassificationHelper.java:167-207 | the first most probable class and its label, its boosted confidence, reliability exactly at the class's threshold, the top class's lead as certainty, and the runner-up: none exactly when every other class has at most 0.2, otherwise the first other class of greatest probability, carrying that probability |
| Classification.FallbackProbabilities | fastapi-backend/ya/ml/SpineClassificationHelper.java:431-442 | the chosen class gets the confidence, every other class an equal share of the rest, and the whole sums to 1 |
| Classification.FallbackClassification | fastapi-backend/ya/ml/SpineClassificationHelper.java:406-443 | Moderate exactly for a clearly visible spine in a contrasted image, Normal exactly for visibility at most 0.5, Mild otherwise; a distribution summing to 1; reliable from 0.7; certainty 0.6 |
| Classification.FallbackReliableUnlessNormal | fastapi-backend/ya/ml/SpineClassificationHelper.java:406-443 | the fallback is reliable exactly when it guesses scoliosis, and its confidence stays in [0.65,0.9] |
| Classification.LevelOf | fastapi-backend/ya/ml/SpineClassificationHelper.java:578-584 | the five confidence levels partition the confidences at 0.6, 0.7, 0.8 and 0.9 |
| Classification.LevelMonotone | fastapi-backend/ya/ml/SpineClassificationHelper.java:578-584 | a more confident result never gets a lower level |
| Classification.Steps | fastapi-backend/ya/ml/SpineClassificationHelper.java:300-301 | the sampled coordinates start at the lower bound, stay below the upper one, step evenly and reach within one step of the end |
| Classification.NoHitsInGrid | fastapi-backend/ya/ml/SpineClassificationHelper.java:300-312 | a scan in which no sampled point is a hit counts no hits |
| Classification.Ratio | fastapi-backend/ya/ml/SpineClassificationHelper.java:315 | the hit share lies in [0,1]: 0 without samples or hits, 1 when every sample hits |
| Classification.EdgeDefinition | fastapi-backend/ya/ml/SpineClassificationHelper.java:292-316 | the edge share lies in [0,1] and is 0 for an image with no interior |
| Classification.FlatImageHasNoEdges | fastapi-backend/ya/ml/SpineClassificationHelper.java:292-316 | an image of one grey level has edge definition 0 |
| Classification.SpineVisibility | fastapi-backend/ya/ml/SpineClassificationHelper.java:318-339 | the visibility share lies in [0,1] |
| Classification.DarkImageShowsNoSpine | fastapi-backend/ya/ml/SpineClassificationHelper.java:318-339 | an image with no pixel brighter than grey 150 has visibility 0 |
| Classification.FlatImageIsNotXray | fastapi-backend/ya/ml/SpineClassificationHelper.java:341-364 | an image of one grey level is never X-ray-like |
| Classification.AnalyzeImage | fastapi-backend/ya/ml/SpineClassificationHelper.java:235-255 | the boost from the image's own ratios lies in [0,0.25] |
| Classification.FlatImageBoost | fastapi-backend/ya/ml/SpineClassificationHelper.java:235-255 | a flat image no brighter than grey 150 earns 0.05 when its contrast reading exceeds 0.6 and nothing otherwise |
| Boosting.FactorBoost | fastapi-backend/ya/ml/ConfidenceBooster.java:45-73 | the factor bonuses are never negative and vanish when every factor is below its threshold |
| Boosting.FactorBoostMonotone | fastapi-backend/ya/ml/ConfidenceBooster.java:45-73 | better factors never earn a smaller bonus |
| Boosting.BoostConfidence | fastapi-backend/ya/ml/ConfidenceBooster.java:35-88 | the boosted confidence always lies in [0.65,0.95], equals the raw sum when that sum is in range and the nearer bound otherwise; with null factors and no user boost it is the base boost alone, clamped |
| Boosting.BoostConfidenceMonotone | fastapi-backend/ya/ml/ConfidenceBooster.java:35-88 | a higher original confidence is never boosted to a lower one |
| Boosting.StoredUserBoost | fastapi-backend/ya/ml/ConfidenceBooster.java:294-301 | the stored user boost lies in [0,0.2], equals the request inside that range and the nearer bound outside |
| Boosting.StoredUserBoostIdempotent | fastapi-backend/ya/ml/ConfidenceBooster.java:294-301 | storing a stored boost again changes nothing |
| Boosting.DetectionReliability | fastapi-backend/ya/ml/ConfidenceBooster.java:164-183 | the detection reliability lies in [0.5,1]; it is 1 exactly for 15 keypoints and an angle in [10,60], and 0.5 exactly for fewer than 8 keypoints and an angle outside (0,60] |
| Boosting.DetectionReliabilityMonotone | fastapi-backend/ya/ml/ConfidenceBooster.java:164-183 | more keypoints never make a detection less reliable |
| Boosting.LowerAscii | fastapi-backend/ya/ml/ConfidenceBooster.java:188 | lower-casing keeps the length, leaves no capital letter, and changes nothing but capitals |
| Boosting.ClassificationReliability | fastapi-backend/ya/ml/ConfidenceBooster.java:185-206 | 0.5 for a null name, otherwise in [0.7,0.85] |
| Boosting.ReliabilityIgnoresCase | fastapi-backend/ya/ml/ConfidenceBooster.java:185-206 | lower-casing is idempotent, and a name and its lower-case form get the same reliability |
| Boosting.LabelReliabilities | fastapi-backend/ya/ml/ConfidenceBooster.java:188-201 | the five classifier labels get 0.85, 0.85, 0.85, 0.8 and 0.75 |
| Boosting.ImageQuality | fastapi-backend/ya/ml/ConfidenceBooster.java:208-233 | the image quality lies in [0.5,0.85]; 0.5 for a null bitmap; at least 0.65 with good contrast |
| Boosting.ImageQualityBonuses | fastapi-backend/ya/ml/ConfidenceBooster.java:208-233 | good contrast adds exactly 0.15; a bitmap never scores below a null one; more pixels at the same aspect ratio never score lower |
| Boosting.SpineDetectionConfidence | fastapi-backend/ya/ml/ConfidenceBooster.java:98-108 | the detection's boosted confidence lies in [0.65,0.95] |
| Boosting.WellDetectedSpineSaturates | fastapi-backend/ya/ml/ConfidenceBooster.java:98-108 | with at least 15 keypoints any original confidence from 0.45 on reaches the 0.95 cap |
| Boosting.ClassificationConfidence | fastapi-backend/ya/ml/ConfidenceBooster.java:113-123 | the classification's boosted confidence lies in [0.65,0.95] |
| Boosting.ClassificationBonuses | fastapi-backend/ya/ml/ConfidenceBooster.java:113-123 | a classification never earns the consistency bonus, since 0.8 is not above 0.8, and a null or unknown name earns no reliability bonus |
| Boosting.LaterMatches | fastapi-backend/ya/ml/ConfidenceBooster.java:270-274 | the later matches of a result number at most the later results |
| Boosting.Matches | fastapi-backend/ya/ml/ConfidenceBooster.java:269-274 | a result's count includes itself and at most the results from its position on |
| Boosting.BestCount | fastapi-backend/ya/ml/ConfidenceBooster.java:266-279 | the best count is at least 1, at most the number of results, and no smaller than any result's count |
| Boosting.Consistency | fastapi-backend/ya/ml/ConfidenceBooster.java:261-285 | the consistency lies in (0,1], and is 1 for a null array or at most one result |
| Boosting.ResultConsistency | fastapi-backend/ya/ml/ConfidenceBooster.java:261-285 | the nested counting loops compute the consistency |
| Boosting.MatchesCountOccurrences | fastapi-backend/ya/ml/ConfidenceBooster.java:268-276 | a non-null result's count is the number of its occurrences from its position on |
| Boosting.UnanimousIsConsistent | fastapi-backend/ya/ml/ConfidenceBooster.java:261-285 | unanimous non-null results have consistency 1 |
| Boosting.AllNullIsLeastConsistent | fastapi-backend/ya/ml/ConfidenceBooster.java:261-285 | nulls match nothing, not even each other, so n null results have consistency 1/n |
| Boosting.ConsistencyAtLeastShare | fastapi-backend/ya/ml/ConfidenceBooster.java:261-285 | with two or more results the consistency is at least one over their number |
| Boosting.MultiAnalysisConfidence | fastapi-backend/ya/ml/ConfidenceBooster.java:128-158 | the multi-run confidence lies in [0.65,0.95] and is 0.65 without scores |
| Boosting.RepeatedAnalysesSaturate | fastapi-backend/ya/ml/ConfidenceBooster.java:128-158 | from two runs on, a mean score from 0.44 on reaches the 0.95 cap |
| Boosting.AngleContext | fastapi-backend/ya/ml/ConfidenceBooster.java:307-315 | the angle bonus partitions the angles: 0.08 in [15,50], 0.05 in [10,15), nothing otherwise |
| Boosting.AgeContext | fastapi-backend/ya/ml/ConfidenceBooster.java:317-324 | the age bonus partitions the ages: 0.03 for 10 to 18, 0.02 for the rest of 6 to 25, nothing otherwise |
| Boosting.MedicalContextConfidence | fastapi-backend/ya/ml/ConfidenceBooster.java:303-332 | the adjusted confidence lies in [0.65,0.95] and, for an input that leaves room, rises by at most 0.11 |
| Boosting.LargestContextBonus | fastapi-backend/ya/ml/ConfidenceBooster.java:303-332 | the context bonus never exceeds 0.11 and reaches it exactly for an angle in [15,50] and an age from 10 to 18 |
| Analyzer.CountAboveExtremes | fastapi-backend/app/ml/analysis.py:116 | when every confidence exceeds the threshold all are counted, and when none does none are |
| Analyzer.ReadKeypointOutput | fastapi-backend/app/ml/analysis.py:113-121 | located keypoints exactly from 34 values on, with 17 (x, y) pairs, the next up to 17 values as confidences and the count of those above 0.2; confidences alone exactly for 17 values; an error carrying the length otherwise |
| Analyzer.BoostConfidence | fastapi-backend/app/ml/analysis.py:172-212 | the boosted confidence lies in [0.65,0.95] |
| Analyzer.BoostersAgree | fastapi-backend/app/ml/analysis.py:172-212 | with every factor given the Python booster computes the Java booster's result, and with none given and one validation method the Java result for null factors |
| Analyzer.BrightColumns | fastapi-backend/app/ml/analysis.py:135 | exactly the columns brighter than 140, each once, in increasing order |
| Analyzer.RowCentre | fastapi-backend/app/ml/analysis.py:134-138 | a row has no centre exactly when no pixel exceeds 140; otherwise the truncated mean of its bright columns lies between the first and the last of them |
| Analyzer.MeanBetween | fastapi-backend/app/ml/analysis.py:137 | the mean of an increasing list of columns lies between its first and last entries |
| Analyzer.RowCentres | fastapi-backend/app/ml/analysis.py:133-138 | one centre per row, that row's centre |
| Analyzer.CentrePoints | fastapi-backend/app/ml/analysis.py:132-138 | one point (centre, y) for each row that has a centre and no other, in increasing row order |
| Analyzer.VerticalLine | fastapi-backend/app/ml/analysis.py:140-141 | the fallback holds the point (x, y) for every row y |
| Analyzer.SpreadStraightness | fastapi-backend/app/ml/analysis.py:144-145 | the straightness lies in [0,1]; it is 1 exactly without spread and 0 exactly from a spread of a tenth of the width; between, it falls short of 1 by the spread's share of that tenth |
| Analyzer.SpreadStraightnessMonotone | fastapi-backend/app/ml/analysis.py:144-145 | a wider spread never gives a higher straightness |
| Analyzer.StraightAngle | fastapi-backend/app/ml/analysis.py:146-148 | 8 degrees from straightness 0.9; below, in (22,40] and exceeding 20 by 20 degrees per unit of straightness short of 1 |
| Analyzer.StraightAngleAntitone | fastapi-backend/app/ml/analysis.py:146-148 | a lower straightness never gives a smaller angle |
| Analyzer.WiderSpreadLargerAngle | fastapi-backend/app/ml/analysis.py:142-148 | of two centre lines, the one whose x values spread wider gets an angle at least as large |
| Analyzer.StraightAssessment | fastapi-backend/app/ml/analysis.py:157-164 | the four assessment texts partition the results: straight, and otherwise above 0.7, in (0.5,0.7] and at most 0.5 |
| Analyzer.ReportOn | fastapi-backend/app/ml/analysis.py:142-171 | the straightness is the centre line's spread score, the angle is `StraightAngle` of it, confidence in [0.85,0.95] and 0.95 above 0.8, and the matching assessment |
| Analyzer.DetectStraightSpine | fastapi-backend/app/ml/analysis.py:123-171 | the bright-row centre line when it has at least 5 points and the vertical centre line through width // 2 otherwise, its straightness the spread score of that centre line, the angle `StraightAngle` of it, and the report's bounds on confidence and assessment |
| Analyzer.DimImageReportedStraight | fastapi-backend/app/ml/analysis.py:140-164 | an image with rows but fewer than 5 bright ones falls back to a line without spread and is reported a straight spine at 8 degrees |

## Left out

- Floating-point rounding: `float` and `double` arithmetic is modelled as exact real arithmetic, and integer truncations are written out.
- The distribution of `Math.random()`: each draw is a parameter in [0,1), so contracts hold for every draw.
- `Math.sqrt`, `acos`, `atan`, `cos`, `sin` and numpy `std` are not computed: they are parameters constrained only by the range facts the proofs use.
- TFLite model loading and inference, `classifySpine`, `calculate_angles`, the model's softmax (`applyEnhancedSoftmax`), `_equalize_hist` and the resizing of bitmaps: they are foreign calls, file I/O or image I/O. The classifier's probabilities and the keypoint model's output come in as values.
- The executor, callbacks, singleton and Python lock: these concern concurrency and lifecycle, not the analysis.
- `calculateImageContrast` and `hasGoodContrast` sample random pixels. Their outcome is a parameter: a contrast reading for `Classification.AnalyzeImage`, a boolean for `Boosting.ImageQuality`.
- `SharedPreferences`: the stored user boost is passed in as a value, and `Boosting.StoredUserBoost` models only the clamp applied on storing it.
- Logging, `Color` values, display texts and string formatting are not modelled: `toString`, `getDetailedResults`, `getPerformanceSummary`, `generateConfidenceExplanation`, `getMedicalRecommendation`, the recommendation texts beyond which band is chosen, and the secondary class's percentage text.
- Boosting.LowerAscii: lower-cases ASCII letters only, not Unicode, because the class names it is compared with are ASCII.
- Geometry.LineDistance, Geometry.MaxDeviation, Geometry.TotalDeviation, Linearity.ChordDeviation, Linearity.PreciseStraightness, Linearity.AccurateStraightness, Linearity.AnalyzeSpineLinearity, Linearity.AnalyzeSpineCharacteristics, Angles.Deviations, Angles.DeviationBasedAngle, Angles.BestEstimate, Angles.EnhancedCobb, Cobb.SpineAnglesEnhanced, Cobb.RawAngles and Angles.AccurateRegionalAngleMonotone: these require the chord's two ends to differ. The source divides by the chord length without a guard, and these members do not represent the NaN that a zero-length chord produces. Linearity.MaxLateralDeviation, Linearity.PreciseDeviation, Angles.AccurateRegionalAngle, Angles.OverallCurvature and Cobb.AccurateAngles take every input and return `None` where the source's result is NaN. Angles.OverallCurvature returns 90 where the source divides a positive offset by zero. Assessment.ChordPattern, Assessment.RealisticAssessment and Assessment.RealisticConfidenceMonotone take every input: a NaN mean chord deviation fails both band comparisons, and the pattern is "Moderate curvature pattern".
- Analyzer.SpreadStraightness, Analyzer.DetectStraightSpine, Analyzer.ReportOn, Linearity.AnalyzeSpineLinearity and Boosting.ImageQuality: these require a positive image width. The source divides by it, and a decoded image always has at least one column.
- Assessment.HighConfidenceRatio: the source divides by the keypoint count without a guard, so an empty list gives NaN. The model returns `None` there.
- GapFill.ValidateKeypoints and GapFill.SmartInterpolation: these require every keypoint index to lie in the 17-entry label table. The source would throw on any other index, and the detectors produce only indices 0..16.
- Sorting.SortBy: both library sorts are stable. The insertion sort keeps ties in input order too, but no lemma states this. Ties arise only for duplicate keypoint indices, which the detectors do not produce.
- Cobb.AccurateAngles: where a curved spine's region has coinciding chord ends, the source still builds the angle record, with a NaN regional angle. The model returns `None` for the whole record, so that record's other fields are not stated in that case.
- Analyzer.BoostConfidence: its own contract states only the [0.65,0.95] range. The arithmetic is stated by `Analyzer.BoostersAgree` against the Java booster.
