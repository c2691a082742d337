# Fake-image scorer and crash detector, modelled in Dafny

This project models the two decision components of a pair of browser demos.

**The image-authenticity scorer** (`src/pages/FakeImageDetector.tsx`).
- It starts with the upload check: a file must be an image of at most 5 MiB.
- The metadata analyzer runs three tests: compression per megapixel, a list of typical generator dimensions (±5 inclusive), and a list of typical aspect ratios (strictly within 0.02).
- The pattern analyzer runs four pixel analyzers on an RGBA buffer, each side capped at 400 pixels:
  - colour variance;
  - Sobel-like edge strengths on the red bytes;
  - left-right brightness symmetry;
  - 16×16 block repetition.
- Every test that fires adds a fixed weight to its analysis' score and one clue to its list.
- Fusion mixes the two scores (0.4 and 0.6), clamps the result to [0.1, 0.95], picks a label and a fake flag, and keeps the first three clues. The result is shown in a colour.

**The crash detector** (`src/pages/CrashDetection.tsx`).
- A five-level sensitivity table.
- Three crash rules: impact, per-axis jerk and sudden stop.
- A prioritised crash-type classifier.
- The page's monitoring state machine: the motion handler, start and stop, and an event log of at most 15 events, newest first, with load, log and clear.

How the model is built:
- Pure code is written as functions. This covers the tests, the fusion, the upload check, the colour, the crash rules and the classifier.
- Each pixel analyzer's nested loops are methods with `while` loops. Each is proved equal to a recursive specification function, and the meaning of that function is proved as lemmas.
- The crash page's state is a class, `CrashMonitor.Monitor`. Its methods state the whole new state.
- Every square-root comparison is made on squares (`sqrt(s) > b` ⇔ `s > b²` for `b ≥ 0`).
- Brightness is kept as three times `(r + g + b) / 3`, so that the symmetry and block comparisons are made on integers.
- JavaScript's NaN is modelled explicitly where it changes a decision:
  - the edge kernel reads past the buffer on its last row: its gradient is an `Option`, None for NaN;
  - the symmetry score divides 0 by 0 when the width is below 2 or the height is 0: the score is an `Option`, None for NaN;
  - the colour check on an empty buffer also divides 0 by 0: the verdict is false there, since `NaN < 500` and `NaN > 3000` are both false.
- An image with a zero side makes the canvas read throw; the pattern analysis and the whole analysis then return None, and no result is shown.
- Source quirks are reproduced, not fixed:
  - the edge kernel is centred one row low and never counts its last row (`EdgeConsistency.LastRowNaN`);
  - block pairs are only compared down and to the right;
  - the detector's sudden-stop rule (previous magnitude > 5) and the classifier's (> 6) disagree (`CrashRules.ShallowStopTypedImpact`).

## Model

| member | source | states |
|---|---|---|
| Upload.CheckUpload | src/pages/FakeImageDetector.tsx:21-33 | accepted iff a file is given, its MIME type starts with "image/" and its size is ≤ 5 MiB; no file, not-an-image (checked first) and too-large are each characterised exactly |
| Upload.StartsWith | src/pages/FakeImageDetector.tsx:25 | `startsWith` holds iff the prefix is a sequence prefix of the type |
| Upload.SizeLimitInclusive | src/pages/FakeImageDetector.tsx:30-33 | a file of exactly 5 MiB is accepted and one byte more is too large |
| Upload.TypeCheckedFirst | src/pages/FakeImageDetector.tsx:25-33 | a non-image over the size limit is rejected as not an image; "image" without the slash is not an image |
| Metadata.AnalyzeMetadata | src/pages/FakeImageDetector.tsx:52-94 | score is the weight of the clues, lies in [0, 0.9] (so the cap at 1 never bites), clues in emission order, and a clue is present iff its test fires |
| Metadata.LowCompressionExact | src/pages/FakeImageDetector.tsx:57-60 | the compression test holds iff 10·size < w·h and w·h > 10⁶ |
| Metadata.SomeDimension | src/pages/FakeImageDetector.tsx:72-74 | true iff some listed pair is within 5 of both sides |
| Metadata.DimensionMatches | src/pages/FakeImageDetector.tsx:66-74 | 512×512 and 517×507 match (tolerance inclusive) |
| Metadata.DimensionMisses | src/pages/FakeImageDetector.tsx:66-74 | 518×512 and 600×600 match no listed pair |
| Metadata.AspectRatio | src/pages/FakeImageDetector.tsx:82 | defined iff the height is positive, and then ratio·height = width |
| Metadata.SomeRatio | src/pages/FakeImageDetector.tsx:84-86 | true iff some listed ratio is strictly within 0.02 |
| Metadata.AspectExamples | src/pages/FakeImageDetector.tsx:83-86 | 101:100 is a common ratio and 102:100 is not (the tolerance is strict) |
| Metadata.DivLess | src/pages/FakeImageDetector.tsx:58-60 | a / m < b iff a < b·m for positive m |
| Clues.StepBuilt | src/pages/FakeImageDetector.tsx:60-63 | one `score +=`/`clues.push` step keeps score = weight of the clues and the clues in order, adding the weight only when the test fires |
| Clues.PushWeight | src/pages/FakeImageDetector.tsx:61-62 | pushing a clue adds exactly its weight to the list's weight |
| Clues.AppendInOrder | src/pages/FakeImageDetector.tsx:62 | a clue ranked after every clue of an ordered list keeps it ordered |
| Clues.StepMembers | src/pages/FakeImageDetector.tsx:60-63 | a step adds its clue, and only its clue, when it fires |
| Clues.ThreeTestsBuilt | src/pages/FakeImageDetector.tsx:60-91 | three ordered tests give ordered clues and the score of the tests that fired |
| Clues.ThreeTestsMembers | src/pages/FakeImageDetector.tsx:60-91 | the clues of three tests are exactly those of the tests that fired |
| Clues.FourTestsBuilt | src/pages/FakeImageDetector.tsx:111-135 | the same for four tests |
| Clues.FourTestsMembers | src/pages/FakeImageDetector.tsx:111-135 | the same for four tests |
| PatternAnalysis.CanvasSide | src/pages/FakeImageDetector.tsx:100-101 | each canvas side is min(side, 400), per axis: the side itself or 400, at most both, and the side iff it is ≤ 400 |
| PatternAnalysis.CombineVerdicts | src/pages/FakeImageDetector.tsx:106-137 | score is the weight of the clues and lies in [0, 1]; clues in the order colour, edge, symmetry, repetition; a clue present iff its analyzer fires (symmetry > 0.85, NaN never; repetition > 0.6) |
| PatternAnalysis.AnalyzeImagePatterns | src/pages/FakeImageDetector.tsx:97-138 | fails (None) iff the image has a zero side, where `getImageData` throws; otherwise the result is the four analyzers' verdicts on the capped canvas, combined |
| PatternAnalysis.SolidCanvas | src/pages/FakeImageDetector.tsx:97-138 | a single-colour canvas of width ≥ 2 and positive height scores 0.7 with colour, symmetry and repetition clues when both sides exceed 32, else 0.45 without repetition |
| PatternAnalysis.SolidVerdicts | src/pages/FakeImageDetector.tsx:106-137 | the combined analysis of a single-colour canvas's verdicts |
| ColorDistribution.AnalyzeColorDistribution | src/pages/FakeImageDetector.tsx:141-162 | unusual iff the buffer has pixels and the mean of the three channel population variances is < 500 or > 3000 |
| ColorDistribution.SumChannels | src/pages/FakeImageDetector.tsx:142-152 | the outer loop leaves each channel's sum and sum of squares over all pixels in the two arrays |
| ColorDistribution.AddPixel | src/pages/FakeImageDetector.tsx:147-151 | the inner loop adds pixel p's red, green and blue bytes and their squares |
| ColorDistribution.ChannelTotalsAreSums | src/pages/FakeImageDetector.tsx:146-152 | the accumulated totals are the sum and sum of squares of the channel's bytes |
| ColorDistribution.VerdictOfTotals | src/pages/FakeImageDetector.tsx:154-161 | the shortcut formula on true totals gives the variance band verdict |
| ColorDistribution.TotalsVerdict | src/pages/FakeImageDetector.tsx:154-161 | totals over every pixel give the verdict on the image |
| ColorDistribution.SolidIsUnusual | src/pages/FakeImageDetector.tsx:141-161 | a non-empty single-colour image has variance 0 and is unusual |
| Stats.PopVariance | src/pages/FakeImageDetector.tsx:155-157 | a population variance is never negative |
| Stats.SumSqDevNonNegative | src/pages/FakeImageDetector.tsx:155-157 | a sum of squared deviations is never negative |
| Stats.SumExtend | src/pages/FakeImageDetector.tsx:149-150 | extending a prefix by one byte adds it to the sum and its square to the sum of squares |
| Stats.SumSqDevExpand | src/pages/FakeImageDetector.tsx:155-157 | Σ(x − m)² = Σx² − 2m·Σx + n·m² |
| Stats.VarianceShortcut | src/pages/FakeImageDetector.tsx:155-157 | `sumSq/n − (sum/n)²` equals the population variance (mean squared deviation) |
| Stats.DeviationAtMean | src/pages/FakeImageDetector.tsx:155-157 | at the mean, the mean squared deviation equals the shortcut |
| Stats.ShortcutAlgebra | src/pages/FakeImageDetector.tsx:155-157 | the expanded deviation divided by n is q/n − m² when n·m = a |
| Stats.ConstantSums | src/pages/FakeImageDetector.tsx:146-152 | a constant channel sums to n·v and has no deviation from v |
| Stats.ConstantVariance | src/pages/FakeImageDetector.tsx:155-157 | a constant channel has variance 0 |
| EdgeConsistency.Kernel | src/pages/FakeImageDetector.tsx:172-184 | the gradient is NaN exactly when the furthest read, index + 4 + 8·width, is past the buffer |
| EdgeConsistency.AnalyzeEdgeConsistency | src/pages/FakeImageDetector.tsx:165-202 | unnatural iff at least one strength was collected and the dispersion rule holds of them |
| EdgeConsistency.CollectEdges | src/pages/FakeImageDetector.tsx:168-191 | the nested loops collect the squared strengths of the specification, in scan order |
| EdgeConsistency.ScanRow | src/pages/FakeImageDetector.tsx:171-190 | the inner loop appends row y's strong strengths for x in 1..width−2 |
| EdgeConsistency.ScanStep | src/pages/FakeImageDetector.tsx:186-189 | one position appends its strength iff it is strong |
| EdgeConsistency.RowEdgesStrong | src/pages/FakeImageDetector.tsx:187-188 | every strength collected from a row exceeds 2500 (strength > 50) |
| EdgeConsistency.EdgesBelowStrong | src/pages/FakeImageDetector.tsx:187-188 | every strength collected from the rows exceeds 2500 |
| EdgeConsistency.RowMembership | src/pages/FakeImageDetector.tsx:171-190 | g is collected from a row iff some interior x of the row has strong strength g |
| EdgeConsistency.RowsMembership | src/pages/FakeImageDetector.tsx:170-191 | g is collected iff some interior row has an edge of strength g |
| EdgeConsistency.CollectedIffEdge | src/pages/FakeImageDetector.tsx:170-191 | g is collected from the image iff some row 1..height−2 has an edge of strength g |
| EdgeConsistency.CollectedStrong | src/pages/FakeImageDetector.tsx:187-188 | everything collected from an image exceeds 2500 |
| EdgeConsistency.LastRowNaN | src/pages/FakeImageDetector.tsx:170-183 | on row height−2 the kernel always reads past the buffer, so that row never contributes |
| EdgeConsistency.SolidKernel | src/pages/FakeImageDetector.tsx:175-184 | on a single-colour image both gradients are 0 (or NaN) |
| EdgeConsistency.NoStrongRow | src/pages/FakeImageDetector.tsx:171-190 | a row with no strong position contributes nothing |
| EdgeConsistency.NoStrongNoEdges | src/pages/FakeImageDetector.tsx:170-191 | no strong position anywhere leaves the collection empty |
| EdgeConsistency.SolidNotUnnatural | src/pages/FakeImageDetector.tsx:194 | a single-colour image collects nothing and is therefore not unnatural, whatever the dispersion rule |
| EdgeConsistency.SameStrengthRow | src/pages/FakeImageDetector.tsx:171-190 | equal strengths along a row collect the same list |
| EdgeConsistency.SameStrengthSameEdges | src/pages/FakeImageDetector.tsx:170-191 | equal strengths everywhere collect the same list |
| EdgeConsistency.KernelOnRed | src/pages/FakeImageDetector.tsx:175-184 | the kernel reads only bytes at positions divisible by 4 (red) |
| EdgeConsistency.RedKernel | src/pages/FakeImageDetector.tsx:175-184 | two images with the same red bytes get the same gradients |
| EdgeConsistency.RedStrength | src/pages/FakeImageDetector.tsx:186 | two images with the same red bytes have the same strengths |
| EdgeConsistency.RedOnly | src/pages/FakeImageDetector.tsx:165-191 | two images with the same red bytes collect the same strengths: green, blue and alpha are ignored |
| Symmetry.AnalyzeSymmetry | src/pages/FakeImageDetector.tsx:205-227 | the nested loops compute `1 − totalDifference/maxPossibleDifference` of the specification (NaN when nothing is compared) |
| Symmetry.ScanRow | src/pages/FakeImageDetector.tsx:214-223 | the inner loop adds row y's mirrored differences and 255 per pair |
| Symmetry.ScoreNaN | src/pages/FakeImageDetector.tsx:226 | the score is NaN iff width < 2 or height = 0 |
| Symmetry.RowDiffBound | src/pages/FakeImageDetector.tsx:218-221 | a row's differences are at most 255 per pair (×3) |
| Symmetry.MirrorDiffBound | src/pages/FakeImageDetector.tsx:213-224 | the total difference is at most the maximum possible (×3) |
| Symmetry.ScoreOfBounds | src/pages/FakeImageDetector.tsx:226 | a total within the maximum gives a score in [0, 1] |
| Symmetry.ScoreOfPerfect | src/pages/FakeImageDetector.tsx:226 | the score is 1 iff the total difference is 0 |
| Symmetry.ScoreBounds | src/pages/FakeImageDetector.tsx:205-227 | a defined score lies in [0, 1] |
| Symmetry.RowDiffZero | src/pages/FakeImageDetector.tsx:214-223 | a row's differences are 0 iff each of its first ⌊width/2⌋ pairs matches |
| Symmetry.MirrorDiffZero | src/pages/FakeImageDetector.tsx:213-224 | the total difference is 0 iff every row's pairs match |
| Symmetry.PerfectIffMirrored | src/pages/FakeImageDetector.tsx:205-227 | a defined score is exactly 1 iff the image's brightness is mirrored left-right |
| Symmetry.MirroredMap | src/pages/FakeImageDetector.tsx:215-219 | mirrored brightness is zero difference on every compared pair |
| Symmetry.SolidIsSymmetric | src/pages/FakeImageDetector.tsx:205-227 | a single-colour image of width ≥ 2 scores 1 |
| TextureRepetition.CompareBlocks | src/pages/FakeImageDetector.tsx:253-267 | the loops compute `1 − difference/(size²·255)` over the two blocks' brightness differences |
| TextureRepetition.CompareRow | src/pages/FakeImageDetector.tsx:256-264 | the inner loop adds one block row's differences |
| TextureRepetition.RowDiffZero | src/pages/FakeImageDetector.tsx:256-264 | a block row's difference is 0 iff the two rows match |
| TextureRepetition.BlockDiffZero | src/pages/FakeImageDetector.tsx:255-265 | a block difference is 0 iff every pixel matches |
| TextureRepetition.IdenticalIffPerfect | src/pages/FakeImageDetector.tsx:253-267 | similarity is 1 iff the two blocks are identical |
| TextureRepetition.SimilarityOne | src/pages/FakeImageDetector.tsx:266 | similarity is 1 iff the difference is 0 |
| TextureRepetition.RowDiffSymmetric | src/pages/FakeImageDetector.tsx:256-264 | a block row's difference does not depend on which block is first |
| TextureRepetition.BlockDiffSymmetric | src/pages/FakeImageDetector.tsx:255-265 | the block difference does not depend on which block is first |
| TextureRepetition.SimilaritySymmetric | src/pages/FakeImageDetector.tsx:253-267 | compareBlocks is symmetric in its two blocks |
| TextureRepetition.RowDiffBound | src/pages/FakeImageDetector.tsx:260-263 | a block row differs by at most 255 per pixel (×3) |
| TextureRepetition.BlockDiffBound | src/pages/FakeImageDetector.tsx:255-265 | a block differs by at most 255 per pixel (×3) |
| TextureRepetition.SimilarityBounds | src/pages/FakeImageDetector.tsx:253-267 | on byte brightness, compareBlocks returns a value in [0, 1] |
| TextureRepetition.BrightnessInRange | src/pages/FakeImageDetector.tsx:260-261 | an image's brightness values (×3) lie in 0..765 |
| TextureRepetition.ImageSimilarityBounds | src/pages/FakeImageDetector.tsx:253-267 | on any image, compareBlocks of two 16×16 blocks returns a value in [0, 1] |
| TextureRepetition.SimilarityRange | src/pages/FakeImageDetector.tsx:266 | a difference within the maximum gives a similarity in [0, 1] |
| TextureRepetition.AlikeIff | src/pages/FakeImageDetector.tsx:243 | similarity > 0.8 iff three times the difference is below 39168 |
| TextureRepetition.AnalyzeTextureRepetition | src/pages/FakeImageDetector.tsx:230-251 | the four loops compute the share of alike pairs of the specification, 0 when nothing is compared |
| TextureRepetition.LoopY1 | src/pages/FakeImageDetector.tsx:238-248 | the outer loop's counters equal the tally over all grid rows |
| TextureRepetition.LoopX1 | src/pages/FakeImageDetector.tsx:239-247 | the second loop adds one grid row's tally |
| TextureRepetition.LoopY2 | src/pages/FakeImageDetector.tsx:240-246 | the third loop adds one block's tally against every lower row |
| TextureRepetition.LoopX2 | src/pages/FakeImageDetector.tsx:241-245 | the innermost loop adds one block's tally against one lower row, starting right of it |
| TextureRepetition.ScanX2Bounded | src/pages/FakeImageDetector.tsx:241-245 | alike ≤ compared, and something is compared iff x2 + 16 < width |
| TextureRepetition.ScanY2Bounded | src/pages/FakeImageDetector.tsx:240-246 | alike ≤ compared, and something is compared iff a lower row and a right column exist |
| TextureRepetition.ScanX1Bounded | src/pages/FakeImageDetector.tsx:239-247 | alike ≤ compared, and something is compared iff a grid row has a block with one below-right of it |
| TextureRepetition.ScanY1Bounded | src/pages/FakeImageDetector.tsx:238-248 | alike ≤ compared, and something is compared iff two grid rows and two grid columns fit |
| TextureRepetition.RowDiffInside | src/pages/FakeImageDetector.tsx:256-264 | a block row's difference depends only on pixels inside the image when both rows lie inside it |
| TextureRepetition.BlockDiffInside | src/pages/FakeImageDetector.tsx:255-265 | a block difference depends only on pixels inside the image when both blocks lie inside it |
| TextureRepetition.AlikeInside | src/pages/FakeImageDetector.tsx:242-243 | two blocks inside the image are alike under one brightness map iff under any map agreeing with it on the image |
| TextureRepetition.ScanX2Inside | src/pages/FakeImageDetector.tsx:241-245 | the innermost loop's bound x2 < width − 16 keeps every block it compares inside the image |
| TextureRepetition.ScanY2Inside | src/pages/FakeImageDetector.tsx:240-246 | the bound y2 < height − 16 keeps every lower block inside the image |
| TextureRepetition.ScanX1Inside | src/pages/FakeImageDetector.tsx:239-247 | the bound x1 < width − 16 keeps every block of a grid row inside the image |
| TextureRepetition.ScanY1Inside | src/pages/FakeImageDetector.tsx:238-248 | the tally over all grid rows reads no pixel outside width × height |
| TextureRepetition.TallyReadsOnlyImage | src/pages/FakeImageDetector.tsx:238-267 | any brightness map agreeing with the image's on its pixels, such as the flat buffer's row-major reads, gives the image's tally: the 0 the model puts outside the image is never compared |
| TextureRepetition.TallyFacts | src/pages/FakeImageDetector.tsx:238-250 | alike ≤ compared, and some pair is compared iff width > 32 and height > 32 |
| TextureRepetition.NoPairsNoRepetition | src/pages/FakeImageDetector.tsx:250 | with width ≤ 32 or height ≤ 32 the score is 0 |
| TextureRepetition.ScoreBounds | src/pages/FakeImageDetector.tsx:250 | the score lies in [0, 1] |
| TextureRepetition.ShareBounds | src/pages/FakeImageDetector.tsx:250 | a share s/c with s ≤ c lies in [0, 1] |
| TextureRepetition.UniformAlike | src/pages/FakeImageDetector.tsx:242-243 | two blocks of uniform brightness are alike |
| TextureRepetition.UniformScanX2 | src/pages/FakeImageDetector.tsx:241-245 | on uniform brightness every comparison is alike |
| TextureRepetition.UniformScanY2 | src/pages/FakeImageDetector.tsx:240-246 | on uniform brightness every comparison is alike |
| TextureRepetition.UniformScanX1 | src/pages/FakeImageDetector.tsx:239-247 | on uniform brightness every comparison is alike |
| TextureRepetition.UniformScanY1 | src/pages/FakeImageDetector.tsx:238-248 | on uniform brightness every comparison is alike |
| TextureRepetition.SolidAllAlike | src/pages/FakeImageDetector.tsx:238-248 | on a single-colour image every comparison is alike |
| TextureRepetition.SolidUniform | src/pages/FakeImageDetector.tsx:260-261 | a single-colour image has uniform brightness |
| TextureRepetition.SolidRepeats | src/pages/FakeImageDetector.tsx:230-251 | a single-colour image with both sides > 32 scores 1 |
| TextureRepetition.ShareOne | src/pages/FakeImageDetector.tsx:250 | n/n is 1 |
| Image.OffsetInRange | src/pages/FakeImageDetector.tsx:215-216 | every pixel's channel offset lies in the buffer |
| Image.Byte | src/pages/FakeImageDetector.tsx:218 | a buffer byte lies in 0..255 |
| Image.Brightness3 | src/pages/FakeImageDetector.tsx:218-219 | three times a pixel's brightness lies in 0..765 |
| Image.SolidByte | src/pages/FakeImageDetector.tsx:218 | in a single-colour image every pixel's colour bytes are the first pixel's |
| Image.SolidBrightness | src/pages/FakeImageDetector.tsx:218-219 | in a single-colour image every pixel has the first pixel's brightness |
| Image.RedIndex | src/pages/FakeImageDetector.tsx:172-178 | a byte position divisible by 4 is some pixel's red byte |
| Image.SolidRed | src/pages/FakeImageDetector.tsx:172-178 | in a single-colour image every red byte is the first one |
| Image.SolidBrightnessMap | src/pages/FakeImageDetector.tsx:260-261 | in a single-colour image the brightness map is constant |
| Sequences.Take | src/pages/FakeImageDetector.tsx:301 | `slice(0, n)` is a prefix of length min(n, length) |
| Fusion.Fuse | src/pages/FakeImageDetector.tsx:274-301 | confidence is the weighted total clamped to [0.1, 0.95]; AI-generated iff > 0.7, Real iff < 0.3; fake iff > 0.5; clues are the first ≤ 3 of metadata then pattern clues |
| Fusion.AnalyzeImageCharacteristics | src/pages/FakeImageDetector.tsx:270-302 | fails (None) iff the image has a zero side, the error the caller at lines 334-336 catches; otherwise the result is the fusion of the metadata analysis and the pattern analysis of the capped canvas |
| Fusion.ResultColor | src/pages/FakeImageDetector.tsx:343-346 | gray iff there is no result; red iff it is fake; yellow iff it is not fake and uncertain; green iff it is neither fake nor uncertain |
| Fusion.ColorOfConfidence | src/pages/FakeImageDetector.tsx:343-346 | a result is red iff confidence > 0.5, yellow iff in [0.3, 0.5], green iff < 0.3, and never gray |
| Fusion.NothingFires | src/pages/FakeImageDetector.tsx:278-301 | with no clues the result is Real with confidence 0.1 |
| Fusion.EverythingFires | src/pages/FakeImageDetector.tsx:278-301 | with every test firing the confidence is 0.95 and only the three metadata clues are shown |
| Fusion.AIGeneratedNeedsBoth | src/pages/FakeImageDetector.tsx:278-292 | an AI-generated verdict needs metadata > 0.25 and patterns > 0.5 |
| Fusion.MetadataAloneNotFake | src/pages/FakeImageDetector.tsx:278-299 | metadata alone never makes an image fake |
| Fusion.PatternsAloneUncertainFake | src/pages/FakeImageDetector.tsx:278-299 | every pattern test firing alone gives Uncertain and fake |
| Fusion.MetadataCluesFirst | src/pages/FakeImageDetector.tsx:285-301 | with three metadata clues, no pattern clue is shown |
| CrashRules.SensitivityThresholds | src/pages/CrashDetection.tsx:26-32 | the impact threshold lies in 5..20; jerk is 10·(level + 1) and duration 50·(level + 1) |
| CrashRules.ThresholdsIncrease | src/pages/CrashDetection.tsx:26-32 | impact, jerk and duration each increase strictly from level 1 to 5 |
| CrashRules.DetectCrash | src/pages/CrashDetection.tsx:58-97 | a crash iff the impact, jerk or sudden-stop rule holds |
| CrashRules.ImpactAlwaysDetected | src/pages/CrashDetection.tsx:59-68 | magnitude above the impact threshold is a crash whatever the previous sample |
| CrashRules.AfterReset | src/pages/CrashDetection.tsx:70-96 | from the reset sample, a crash iff the impact rule holds |
| CrashRules.JerkRuleExact | src/pages/CrashDetection.tsx:70-83 | the jerk rule iff the previous stamp is positive, time has passed, and some axis changed by more than jerk·Δt/1000 |
| CrashRules.JerkExact | src/pages/CrashDetection.tsx:74-76 | one axis' jerk exceeds a bound iff its change exceeds bound·Δt/1000 |
| CrashRules.LowerLevelCatchesImpactAndJerk | src/pages/CrashDetection.tsx:26-83 | an impact or jerk crash at a level is one at every lower level |
| CrashRules.SuddenStopWindowWidens | src/pages/CrashDetection.tsx:26-32 | the sudden-stop window runs the other way: a stop is a crash at level 5 and not at level 1 |
| CrashRules.DetermineCrashType | src/pages/CrashDetection.tsx:99-129 | impact 0.8 iff magnitude > 12; else rollover 0.7 iff lateral > 8 and \|z\| < 5; else sudden stop 0.6 iff previous > 6 and current < 3; else impact 0.5 |
| CrashRules.ConfidenceNamesType | src/pages/CrashDetection.tsx:99-129 | the confidence names the type: 0.7 rollover, 0.6 sudden stop, 0.8 or 0.5 impact |
| CrashRules.ImpactRuleTypedImpact | src/pages/CrashDetection.tsx:26-32 | from level 3 up, an impact-rule crash is typed impact 0.8 |
| CrashRules.DeepStopTypedSuddenStop | src/pages/CrashDetection.tsx:92 | a sudden stop from a previous magnitude above 6 is typed sudden stop 0.6 |
| CrashRules.ShallowStopTypedImpact | src/pages/CrashDetection.tsx:92 | a sudden stop from a previous magnitude in (5, 6] is a crash typed impact 0.5 |
| CrashRules.ShallowStopExample | src/pages/CrashDetection.tsx:92 | a stop from 5.5 to 0 within 50 ms at level 2 is such a crash |
| CrashMonitor.Logged | src/pages/CrashDetection.tsx:154 | the new event heads the log, the rest is a prefix of the old log, and the length is min(old + 1, 15) |
| CrashMonitor.Loaded | src/pages/CrashDetection.tsx:51 | a loaded log is the prefix of the saved one of length min(15, saved length): all of it when it has at most 15 |
| CrashMonitor.Reversed | src/pages/CrashDetection.tsx:154 | reversing keeps the length |
| CrashMonitor.LogAllKeepsNewest | src/pages/CrashDetection.tsx:154 | after any number of events the log is the 15 most recent, newest first |
| CrashMonitor.LoggedKeepsNewest | src/pages/CrashDetection.tsx:154 | logging one event to the newest 15 of a history keeps the newest 15 of the history with the event in front |
| CrashMonitor.ReversedSnoc | src/pages/CrashDetection.tsx:154 | the last event logged comes first in the reversed history |
| Sequences.TakeTake | src/pages/CrashDetection.tsx:154 | taking n of the first m is taking n |
| Sequences.TakeCons | src/pages/CrashDetection.tsx:154 | taking n + 1 of x followed by s is x followed by n of s |
| CrashMonitor.MissingAxesAtRest | src/pages/CrashDetection.tsx:211-213 | a reading with every axis missing (`value \|\| 0` on each) is the rest vector: it never trips the impact rule, stops suddenly exactly when the last magnitude exceeded 5 within the window, and is never a crash straight after a reset |
| CrashMonitor.RestNoImpact | src/pages/CrashDetection.tsx:59-68 | the rest vector exceeds no impact threshold |
| CrashMonitor.Monitor.constructor | src/pages/CrashDetection.tsx:17-22 | idle, no alert, empty log, level 2, last sample at rest |
| CrashMonitor.Monitor.LoadEvents | src/pages/CrashDetection.tsx:46-56 | a saved log replaces the log, cut to 15; with none the state is unchanged |
| CrashMonitor.Monitor.LogCrashEvent | src/pages/CrashDetection.tsx:131-158 | the classified event is logged at the head and nothing else changes |
| CrashMonitor.Monitor.ClearEvents | src/pages/CrashDetection.tsx:194-197 | the log is empty and nothing else changes |
| CrashMonitor.Monitor.SetSensitivity | src/pages/CrashDetection.tsx:280-283 | the level becomes the one pressed and nothing else changes |
| CrashMonitor.Monitor.StartMonitoring | src/pages/CrashDetection.tsx:173-183 | with permission: monitoring, alert cleared, last sample reset; without it nothing changes |
| CrashMonitor.Monitor.StopMonitoring | src/pages/CrashDetection.tsx:185-192 | not monitoring and alert cleared; log and last sample kept |
| CrashMonitor.Monitor.CrashAlertExpired | src/pages/CrashDetection.tsx:226 | the alert is cleared and nothing else changes |
| CrashMonitor.Monitor.HandleMotion | src/pages/CrashDetection.tsx:206-235 | while monitoring, a reading is shown, becomes the last sample stamped now, raises the alert on a crash, and is logged only when the detector fires and no alert is up; otherwise nothing changes; each missing or NaN axis reads as 0 (`OrZero`) |

## Left out

- Canvas `drawImage` resampling and `getImageData`: the downscaled RGBA buffer is an input whose sides are the capped ones. Their failure on an image with a zero side is modelled as a None result; other browser failures (a broken image, a lost context) are not.
- Asynchronous image decoding and `URL.createObjectURL`: the file size and the decoded width and height are inputs.
- EdgeConsistency.AnalyzeEdgeConsistency: the coefficient-of-variation step (mean of square roots, `cv > 1.2 \|\| cv < 0.3`) is a parameter `cvRule` over the collected squared strengths. Only the collection and the empty-list rule are proved.
- IEEE-754 rounding: arithmetic is exact over `int` and `real`. Square roots are replaced by comparisons of squares, which are exact in real arithmetic.
- NaN outside the analyzers: the model keeps only the NaN cases that change a decision (the edge kernel, symmetry, the empty colour buffer, a zero-height aspect ratio).
- Clue and toast texts, `toFixed`, icons and the `getResultIcon` emoji: clues are an enumeration that carries the data its message prints.
- Crash-event ids, ISO timestamps, the `magnitude` field and the rounding to two decimals: an event keeps the reading, its type and its confidence.
- `localStorage` and JSON: a saved log is an `Option` input to `LoadEvents`, None standing for no log or one that does not parse. Saving is not modelled.
- The permission request: its answer is the `permitted` input of `StartMonitoring`.
- Event-listener wiring, the unused 100 ms interval and the 3000 ms timer: the timer's expiry is the `CrashAlertExpired` method, and the clock is the `now` input of `HandleMotion`.
- CrashMonitor.Monitor.HandleMotion: the displayed reading is not rounded to two decimals. React's stale closures are not modelled: the handler sees the state's current values.
- CrashMonitor.Monitor.SetSensitivity: the level is required to be 1..5, which are the only buttons the page offers.
- CrashMonitor.Monitor.StartMonitoring: the property that the first reading after a start is a crash only by the impact rule is stated for the detector as `CrashRules.AfterReset`, not as an ensures of the handler.
- Fusion.AnalyzeImageCharacteristics: both analyses are run before their scores are mixed. They share no state, so the order does not matter.
- Page layout, toasts and the crash-type colours and icons are not part of this model.
