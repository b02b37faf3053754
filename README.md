# Skin-lesion diagnosis: case fusion, image quality gate and early stopping

This project models, in Dafny, the decision logic of a skin-lesion diagnosis
application and proves properties of it.

- **Case fusion panel.** It filters a case's images down to those that have a
  prediction and passed quality control. It scores each image's quality
  (`getQualityScore`). It fuses the per-image class predictions into one
  ranked top-5 list under one of four rules: average, QC-weighted, majority
  vote and maximum confidence (`fusePredictions`).
- **Frontend utilities.** These are the upload checks, the class-info lookup,
  the confidence colour and label, the image-quality gate
  (`evaluateImageQuality`), the QC status colour and label, and the bucket
  choice of `formatRelativeTime`.
- **Constants.** These are the lesion class registry, the QC thresholds, the
  upload configuration, the parameterised API endpoint builders and the
  React-Query keys.
- **QC indicator.** It computes the status icon and label, the metric colours
  (both the shared helper and the copies written inline), and the three bar
  widths.
- **Training early stopping.** The `EarlyStopping` class tracks the best
  validation loss, counts calls without improvement, raises the stop flag
  once patience runs out, and saves a checkpoint on every improvement.

Modules, one per file:

- `Types` (`types.dfy`) holds the shared records: lesion classes, class
  predictions, predictions, QC results and case images.
- `Constants` (`constants.dfy`) holds `constants/index.ts`.
- `Utils` (`utils.dfy`) holds `utils/index.ts`.
- `QCIndicator` (`qc_indicator.dfy`) holds the QC indicator component.
- `RealSeq` (`real_seq.dfy`) holds sums, weighted sums, maxima and minima over
  `seq<real>`, with their bounds.
- `CaseFusion` (`case_fusion.dfy`) holds the fusion panel.
- `EarlyStop` (`early_stop.dfy`) holds the early-stopping class.

Modelling choices:

- **Numbers.**
  - JavaScript and Python floating-point numbers are modelled as exact
    `real`.
  - Timestamps are modelled as `int` milliseconds.
  - `Math.floor` of a non-negative and of a negative difference is modelled by
    Dafny's Euclidean division, which floors for a positive divisor.
- **The quality score is pure.** `getQualityScore` is a function
  (`QualityScore`).
- **The gate is imperative.** `evaluateImageQuality` pushes onto a list and
  updates a flag step by step, so it is the method `EvaluateImageQuality`.
  It is proved equal to the pure specification `QualityGate`, and the lemmas
  are stated about that specification.
- **`fusePredictions` is split in two.**
  - The collection loop, which fills the `classScores` and `classWeights`
    dictionaries, is the method `CollectScores`. It has nested `while` loops
    and `map` variables.
  - The whole operation is the method `FusePredictions`. It is proved equal to
    the functional specification `FusedPredictions`, and the properties of
    the output are lemmas about that function.
- **Key order.** `Object.keys` on string keys returns them in insertion
  order. This is modelled by `DiscoveryOrder`: the order in which class names
  are first seen.
- **Sorting.** `Array.prototype.sort` is stable. This is modelled by a stable
  insertion sort in descending order of confidence.
- **`EarlyStopping` is a class.**
  - Its fields `bestLoss`, `counter` and `earlyStop` are updated in place by
    `Call`.
  - `inf`, the starting best loss, is the `Infinity` case of a `Loss`
    datatype.
  - `torch.save(ckpt, path)` appends a `SaveEvent(path, checkpoint)` to the
    field `saved`.
  - The model's `state_dict()` is a value parameter of the generic type `V`.
  - A ghost field `history` records every loss passed in.
  - `Valid()` ties the fields to the pure fold `Run(history)`. The
    properties across calls are lemmas about `Run`.

Behaviour that is easy to misread:

- **Brightness sub-score.** It is floored at 0 (`Math.max(0, …)`). The contrast
  and sharpness sub-scores are only capped at 1 and are not floored.
- **A class missing from some images.** Absent entries are not counted as
  zeros. A class is fused only over the images that list it. With two images, A
  listing MEL 0.9 at quality 1.0 and B listing MEL 0.5 and NV 0.3 at quality
  0.5, NV fuses to 0.3 under the weighted rule (`WeightedExample`).
- **Blur direction.** The gate rejects a blur value above 100 as "too blurry",
  but the score rewards a high blur value as sharp. So no record the gate
  produces scores above 0.85 (`GateScoresAtMost`). The gate also advises on
  every blur value it accepts (`GateAlwaysWarns`), and the blur colour is
  never green (`BlurNeverGreen`).

## Model

| member | source | states |
|---|---|---|
| Constants.Code | frontend/src/constants/index.ts:1-65 | the registry key of a class; no contract of its own, characterised by `Constants.CodeRoundTrip` and `Constants.RegistryCoversEveryClass` |
| Constants.ParseCode | frontend/src/constants/index.ts:1-65 | the class a registry key names, if any; no contract of its own, characterised by `Constants.CodeRoundTrip` and `Constants.RegistryKeysAreExactlyTheCodes` |
| Constants.RegistryCoversEveryClass | frontend/src/constants/index.ts:1-65 | every lesion class has a registry entry, keyed by its code, whose `code` field is that key |
| Constants.RegistryKeysAreExactlyTheCodes | frontend/src/constants/index.ts:1-65 | a string is a registry key exactly when it parses as a class code, and each entry's code is its key |
| Constants.CodeRoundTrip | frontend/src/constants/index.ts:1-65 | parsing a class's code gives back the class, and the only string that parses to a class is its code |
| Constants.BrightnessThresholdsOrdered | frontend/src/constants/index.ts:67-72 | brightness limits are 10 and 245, with the optimal band [50, 200] strictly inside them |
| Constants.ContrastThresholdsOrdered | frontend/src/constants/index.ts:73-76 | minimum contrast 0.1 lies below the optimal band, whose minimum does not exceed its maximum |
| Constants.BlurRangesDisjoint | frontend/src/constants/index.ts:77-80 | blur maximum 100 is below the optimal minimum 200, so no blur value is both acceptable and optimal |
| Constants.UploadConfigValues | frontend/src/constants/index.ts:83-88 | the maximum upload is 10 MiB, up to 10 files, and three distinct accepted MIME types |
| Constants.PrefixCancels | frontend/src/constants/index.ts:100-125 | two paths built with the same prefix are equal only when their parameters are equal |
| Constants.InfixCancels | frontend/src/constants/index.ts:107 | the same for a prefix and a suffix around the parameter |
| Constants.CaseDetail | frontend/src/constants/index.ts:100 | the case detail path; no contract of its own, characterised by `Constants.CasePathsDetermineId` |
| Constants.CaseUpdate | frontend/src/constants/index.ts:101 | the case update path; no contract of its own, characterised by `Constants.CasePathsDetermineId` |
| Constants.CaseDelete | frontend/src/constants/index.ts:102 | the case delete path; no contract of its own, characterised by `Constants.CasePathsDetermineId` |
| Constants.CasePathsDetermineId | frontend/src/constants/index.ts:100-102 | the case detail path is `/api/v1/cases/` then the id; update and delete use the same path; the path determines the id |
| Constants.ImageDetail | frontend/src/constants/index.ts:106 | the image detail path; no contract of its own, characterised by `Constants.ImagePathsDetermineId` |
| Constants.ImageQc | frontend/src/constants/index.ts:107 | the image QC path; no contract of its own, characterised by `Constants.ImagePathsDetermineId` |
| Constants.ImageDelete | frontend/src/constants/index.ts:108 | the image delete path; no contract of its own, characterised by `Constants.ImagePathsDetermineId` |
| Constants.ImagePathsDetermineId | frontend/src/constants/index.ts:106-108 | the image detail and delete paths coincide and end in the id; the QC path is the detail path plus `/qc`; each path determines the id |
| Constants.PredictionJob | frontend/src/constants/index.ts:112 | the prediction job path; no contract of its own, characterised by `Constants.PredictionPathsDetermineId` |
| Constants.PredictionResult | frontend/src/constants/index.ts:113 | the prediction result path; no contract of its own, characterised by `Constants.PredictionPathsDetermineId` |
| Constants.PredictionHeatmap | frontend/src/constants/index.ts:114 | the prediction heatmap path; no contract of its own, characterised by `Constants.PredictionPathsDetermineId` |
| Constants.PredictionPathsDetermineId | frontend/src/constants/index.ts:112-114 | the job, result and heatmap paths end in the id (the heatmap path adds `/heatmap` to the result path) and each determines the id |
| Constants.MlPredictFromUpload | frontend/src/constants/index.ts:119 | the predict-from-upload path; no contract of its own, characterised by `Constants.ModelAndMlPathsDetermineId` |
| Constants.ModelInfo | frontend/src/constants/index.ts:125 | the model-info path; no contract of its own, characterised by `Constants.ModelAndMlPathsDetermineId` |
| Constants.ModelAndMlPathsDetermineId | frontend/src/constants/index.ts:119-125 | the model-info and predict-from-upload paths end in their parameter and determine it |
| Constants.CaseKey | frontend/src/constants/index.ts:136 | the query key of one case; no contract of its own, characterised by `Constants.QueryKeysExtendCollectionKeys` |
| Constants.ImageKey | frontend/src/constants/index.ts:138 | the query key of one image; no contract of its own, characterised by `Constants.QueryKeysExtendCollectionKeys` |
| Constants.PredictionKey | frontend/src/constants/index.ts:140 | the query key of one prediction; no contract of its own, characterised by `Constants.QueryKeysExtendCollectionKeys` |
| Constants.PredictionJobKey | frontend/src/constants/index.ts:141 | the query key of one prediction job; no contract of its own, characterised by `Constants.QueryKeysExtendCollectionKeys` |
| Constants.QueryKeysExtendCollectionKeys | frontend/src/constants/index.ts:133-144 | each per-item query key is its collection key followed by the id; the job key starts with the predictions key and ends with the id |
| Utils.ValidateFileType | frontend/src/utils/index.ts:20-22 | `UPLOAD_CONFIG.acceptedTypes.includes(file.type)`; no contract of its own, characterised by `Utils.UploadValidationAccepts` |
| Utils.ValidateFileSize | frontend/src/utils/index.ts:24-26 | `file.size <= UPLOAD_CONFIG.maxFileSize`; no contract of its own, characterised by `Utils.UploadValidationAccepts` |
| Utils.UploadValidationAccepts | frontend/src/utils/index.ts:20-26 | a file's type is accepted exactly for jpeg, png and webp, and its size exactly when at most 10485760 bytes |
| Utils.GetClassInfo | frontend/src/utils/index.ts:43-45 | the looked-up entry carries the requested class's code |
| Utils.GetConfidenceColor | frontend/src/utils/index.ts:47-51 | the colour for a confidence; no contract of its own, characterised by `Utils.ConfidenceBands` |
| Utils.GetConfidenceLabel | frontend/src/utils/index.ts:53-57 | the label for a confidence; no contract of its own, characterised by `Utils.ConfidenceBands` and `Utils.ConfidenceLabelMonotone` |
| Utils.ConfidenceBands | frontend/src/utils/index.ts:47-57 | High iff ≥ 0.8, Medium iff in [0.6, 0.8), Low iff < 0.6; each colour goes with exactly its label |
| Utils.ConfidenceLabelMonotone | frontend/src/utils/index.ts:53-57 | a higher confidence never gets a lower label |
| Utils.QualityGate | frontend/src/utils/index.ts:63-108 | the record `evaluateImageQuality` returns, as a value; no contract of its own, characterised by `Utils.EvaluateImageQuality`, `Utils.GateWarningsShape`, `Utils.GateAlwaysWarns` and `Utils.GateNeverGood` |
| Utils.EvaluateImageQuality | frontend/src/utils/index.ts:63-108 | the result equals the gate specification, keeps the three inputs, is unacceptable exactly when brightness < 10, brightness > 245, contrast < 0.1 or blur > 100, holds at most three warnings, and holds only advisory warnings when acceptable |
| Utils.GateWarningsShape | frontend/src/utils/index.ts:71-99 | each metric contributes at most one warning, and the record is acceptable iff every warning is advisory |
| Utils.GateAlwaysWarns | frontend/src/utils/index.ts:93-99 | the gate always gives at least one warning; an acceptable record always has the sharpness advisory |
| Utils.GetQCStatusColor | frontend/src/utils/index.ts:110-114 | the QC status colour; no contract of its own, characterised by `Utils.QCStatusPartition` |
| Utils.GetQCStatusLabel | frontend/src/utils/index.ts:116-120 | the QC status label; no contract of its own, characterised by `Utils.QCStatusPartition` |
| Utils.QCStatusPartition | frontend/src/utils/index.ts:110-120 | Poor iff not acceptable, Fair iff acceptable with warnings, Good iff acceptable without; each colour goes with exactly its label |
| Utils.GateNeverGood | frontend/src/utils/index.ts:63-120 | no record produced by the gate has status Good or the green colour |
| Utils.ElapsedSeconds | frontend/src/utils/index.ts:136 | the result is the floor of the millisecond difference divided by 1000 |
| Utils.RelativeBucket | frontend/src/utils/index.ts:138-143 | the bucket and count for a number of seconds; no contract of its own, characterised by `Utils.RelativeBuckets` |
| Utils.FormatRelativeTime | frontend/src/utils/index.ts:133-143 | the bucket for a past time against the current time; no contract of its own, characterised by `Utils.FutureIsJustNow` and, through `Utils.ElapsedSeconds`, by `Utils.RelativeBuckets` |
| Utils.RelativeBuckets | frontend/src/utils/index.ts:138-143 | each bucket holds exactly for its range of seconds, and the minutes, hours and days shown are the floored quotients, within 1..59, 1..23 and 1..29 |
| Utils.FutureIsJustNow | frontend/src/utils/index.ts:133-138 | any time less than a minute ago, including a future time, shows as "Just now" |
| QCIndicator.GetStatusIcon | frontend/src/components/QCIndicator.tsx:16-24 | the status icon and its class; no contract of its own, characterised by `QCIndicator.StatusAgreesWithQCStatus` |
| QCIndicator.GetMetricColor | frontend/src/components/QCIndicator.tsx:26-43 | the metric colour; no contract of its own, characterised by `QCIndicator.MetricColorBands`, `QCIndicator.BlurNeverGreen` and `QCIndicator.MetricColorsAgreeWithGate` |
| QCIndicator.GetStatusLabel | frontend/src/components/QCIndicator.tsx:45-53 | the status label; no contract of its own, characterised by `QCIndicator.StatusAgreesWithQCStatus` |
| QCIndicator.StatusAgreesWithQCStatus | frontend/src/components/QCIndicator.tsx:16-53 | the indicator's label and icon follow the same three-way Poor/Fair/Good partition as the status helper, each case as an iff |
| QCIndicator.BrightnessBarColor | frontend/src/components/QCIndicator.tsx:92-98 | the brightness bar class; no contract of its own, characterised by `QCIndicator.InlineColorsAgree` |
| QCIndicator.ContrastTextColor | frontend/src/components/QCIndicator.tsx:105-111 | the contrast text class; no contract of its own, characterised by `QCIndicator.InlineColorsAgree` |
| QCIndicator.ContrastBarColor | frontend/src/components/QCIndicator.tsx:117-123 | the contrast bar class; no contract of its own, characterised by `QCIndicator.InlineColorsAgree` |
| QCIndicator.SharpnessTextColor | frontend/src/components/QCIndicator.tsx:130-136 | the sharpness text class; no contract of its own, characterised by `QCIndicator.InlineColorsAgree` and `QCIndicator.BlurNeverGreen` |
| QCIndicator.SharpnessBarColor | frontend/src/components/QCIndicator.tsx:142-148 | the sharpness bar class; no contract of its own, characterised by `QCIndicator.InlineColorsAgree` and `QCIndicator.BlurNeverGreen` |
| QCIndicator.InlineColorsAgree | frontend/src/components/QCIndicator.tsx:92-148 | the inline text and bar colours of the detailed view equal the metric-colour helper's result (with `text` replaced by `bg` for bars) |
| QCIndicator.MetricColorBands | frontend/src/components/QCIndicator.tsx:26-43 | the red, yellow and green bands of brightness and contrast, and the red and yellow bands of blur, each as an iff |
| QCIndicator.BlurNeverGreen | frontend/src/components/QCIndicator.tsx:36-39 | the blur colour, text and bar alike, is never green |
| QCIndicator.MetricColorsAgreeWithGate | frontend/src/components/QCIndicator.tsx:26-43 | a metric is red exactly when the gate rejects it and yellow exactly when the gate gives its advisory |
| QCIndicator.BrightnessRedIffGateRejects | frontend/src/components/QCIndicator.tsx:29 | brightness is red exactly when it is outside the gate's acceptable range |
| QCIndicator.BrightnessBarWidth | frontend/src/components/QCIndicator.tsx:99 | the brightness bar width in percent; no contract of its own, characterised by `QCIndicator.BarWidthBounds` and `QCIndicator.NegativeWidths` |
| QCIndicator.ContrastBarWidth | frontend/src/components/QCIndicator.tsx:124 | the contrast bar width in percent; no contract of its own, characterised by `QCIndicator.BarWidthBounds` and `QCIndicator.NegativeWidths` |
| QCIndicator.SharpnessBarWidth | frontend/src/components/QCIndicator.tsx:149 | the sharpness bar width in percent; no contract of its own, characterised by `QCIndicator.BarWidthBounds` |
| QCIndicator.BarWidthBounds | frontend/src/components/QCIndicator.tsx:99-149 | the sharpness bar lies in [0, 100] and is blur/5 on [0, 500]; brightness and contrast bars are capped at 100 and proportional in range |
| QCIndicator.NegativeWidths | frontend/src/components/QCIndicator.tsx:99-124 | brightness and contrast bars have no lower clamp: negative inputs give negative widths |
| RealSeq.Sum | frontend/src/features/cases/CaseFusionPanel.tsx:80 | `reduce((sum, x) => sum + x, 0)`; no contract of its own, characterised by `RealSeq.MeanWithinRange` |
| RealSeq.WeightedSum | frontend/src/features/cases/CaseFusionPanel.tsx:84 | `reduce((sum, score, i) => sum + score * weights[i], 0)`; no contract of its own, characterised by `RealSeq.WeightedMeanWithinRange` |
| RealSeq.Max | frontend/src/features/cases/CaseFusionPanel.tsx:98 | `Math.max(...scores)` of a non-empty list; no contract of its own, characterised by `RealSeq.MaxIsLargestElement` |
| RealSeq.MaxIsLargestElement | frontend/src/features/cases/CaseFusionPanel.tsx:98 | `Math.max(...scores)` is an element of the scores and at least every element |
| RealSeq.MeanWithinRange | frontend/src/features/cases/CaseFusionPanel.tsx:80 | the mean of a non-empty list lies between its minimum and maximum |
| RealSeq.WeightedMeanWithinRange | frontend/src/features/cases/CaseFusionPanel.tsx:84-86 | with non-negative weights of positive total, the weighted mean lies between the minimum and maximum |
| CaseFusion.BrightnessScore | frontend/src/features/cases/CaseFusionPanel.tsx:43 | the brightness sub-score lies in [0, 1] and is 1 exactly at 127.5 |
| CaseFusion.ContrastScore | frontend/src/features/cases/CaseFusionPanel.tsx:44 | the contrast sub-score is at most 1, is 1 exactly from 0.5 up, and is non-negative for non-negative contrast |
| CaseFusion.SharpnessScore | frontend/src/features/cases/CaseFusionPanel.tsx:45 | the sharpness sub-score is at most 1, is 1 exactly from 200 up, and is non-negative for non-negative blur |
| CaseFusion.PreClampScore | frontend/src/features/cases/CaseFusionPanel.tsx:37-47 | the score before the final clamp; no contract of its own, characterised by `CaseFusion.WarningPenalty` and `CaseFusion.QualityScore` |
| CaseFusion.QualityScore | frontend/src/features/cases/CaseFusionPanel.tsx:34-50 | the quality score lies in [0, 1], is 0 for an unacceptable record, and is the unclamped average when that is already in range |
| CaseFusion.IdealQualityScore | frontend/src/features/cases/CaseFusionPanel.tsx:34-50 | an acceptable record with no warnings, brightness 127.5, contrast ≥ 0.5 and blur ≥ 200 scores exactly 1 |
| CaseFusion.WarningPenalty | frontend/src/features/cases/CaseFusionPanel.tsx:40-47 | each extra warning lowers the unclamped score by exactly 0.025 |
| CaseFusion.GateScoresAtMost | frontend/src/features/cases/CaseFusionPanel.tsx:34-50 | no record produced by the gate scores above 0.85 |
| CaseFusion.ImagePredictions | frontend/src/features/cases/CaseFusionPanel.tsx:26-31 | the filtered and mapped images; no contract of its own, characterised by `CaseFusion.ImagePredictionsFromEligible`, `CaseFusion.ImagePredictionsComplete` and `CaseFusion.ImagePredictionsEmpty` |
| CaseFusion.ImagePredictionsFromEligible | frontend/src/features/cases/CaseFusionPanel.tsx:26-31 | every filtered entry comes from an image with a prediction that passed QC, carrying its quality score, which lies in [0, 1] |
| CaseFusion.CountEligible | frontend/src/features/cases/CaseFusionPanel.tsx:27 | the number of images with a prediction that passed QC; no contract of its own, characterised by `CaseFusion.ImagePredictionsComplete` |
| CaseFusion.ImagePredictionsComplete | frontend/src/features/cases/CaseFusionPanel.tsx:26-31 | every image with a prediction that passed QC is kept, and the filter has exactly one entry per such image |
| CaseFusion.ImagePredictionsEmpty | frontend/src/features/cases/CaseFusionPanel.tsx:26-31 | the filter is empty exactly when no image has both a prediction and an acceptable QC result |
| CaseFusion.ScoresAligned | frontend/src/features/cases/CaseFusionPanel.tsx:60-69 | the k-th collected score and the k-th collected weight of a class come from the same class prediction |
| CaseFusion.ScoresCountOccurrences | frontend/src/features/cases/CaseFusionPanel.tsx:60-69 | a class collects one score and one weight per time it is listed across the images |
| CaseFusion.ScoresIffObserved | frontend/src/features/cases/CaseFusionPanel.tsx:60-69 | a class has collected scores exactly when some image lists it |
| CaseFusion.DiscoveredIffObserved | frontend/src/features/cases/CaseFusionPanel.tsx:62-65 | the key order lists each class once, and lists exactly the classes some image lists |
| CaseFusion.WeightsInRange | frontend/src/features/cases/CaseFusionPanel.tsx:67 | every weight collected for a class lies within the bounds of the images' quality scores |
| CaseFusion.CollectScores | frontend/src/features/cases/CaseFusionPanel.tsx:56-69 | the collection loop's dictionaries hold exactly the observed classes, each mapped to its scores and weights in order, with keys in first-seen order |
| CaseFusion.Push | frontend/src/features/cases/CaseFusionPanel.tsx:62-67 | one class prediction creates its empty lists if the class is new, then appends its confidence and the image's quality score, keeping the dictionaries in agreement with the observed samples |
| CaseFusion.CollectImage | frontend/src/features/cases/CaseFusionPanel.tsx:61-68 | one image's predictions are appended to the dictionaries in order, each with the image's quality score as its weight, keeping them in agreement with the observed samples |
| CaseFusion.FuseScores | frontend/src/features/cases/CaseFusionPanel.tsx:71-100 | every collected class gets exactly one fused score, computed by the chosen rule over its scores and weights, and no other class gets one |
| CaseFusion.Combine | frontend/src/features/cases/CaseFusionPanel.tsx:78-100 | the `switch (fusionMethod)` for one class; no contract of its own, characterised through `CaseFusion.FusedScore` |
| CaseFusion.FusedScore | frontend/src/features/cases/CaseFusionPanel.tsx:74-100 | the fused score of one class; no contract of its own, characterised by `CaseFusion.AverageWithinRange`, `CaseFusion.WeightedWithinRange`, `CaseFusion.MajorityIsVoteShare`, `CaseFusion.MaxConfidenceIsLargest` and `CaseFusion.SingleImageWeightedIsAverage` |
| CaseFusion.Votes | frontend/src/features/cases/CaseFusionPanel.tsx:91-93 | the number of images whose first prediction is the class; no contract of its own, characterised by `CaseFusion.VotesAtMostImages` and `CaseFusion.MajorityIsVoteShare` |
| CaseFusion.AverageWithinRange | frontend/src/features/cases/CaseFusionPanel.tsx:79-81 | the average of an observed class lies between its smallest and largest score |
| CaseFusion.WeightedWithinRange | frontend/src/features/cases/CaseFusionPanel.tsx:83-87 | the weighted score of an observed class is 0 when all its weights are 0, and otherwise lies between its smallest and largest score |
| CaseFusion.MajorityIsVoteShare | frontend/src/features/cases/CaseFusionPanel.tsx:89-95 | the majority score is the share of images whose first prediction is the class, in [0, 1] |
| CaseFusion.CaseMajorityShare | frontend/src/features/cases/CaseFusionPanel.tsx:26-31 | on a case with an eligible image, the majority denominator is the number of images with a prediction that passed QC |
| CaseFusion.VotesAtMostImages | frontend/src/features/cases/CaseFusionPanel.tsx:91-93 | a class gets at most one vote per image |
| CaseFusion.MaxConfidenceIsLargest | frontend/src/features/cases/CaseFusionPanel.tsx:97-99 | the max-confidence score is one of the class's scores and at least every one of them |
| CaseFusion.SingleImageWeightedIsAverage | frontend/src/features/cases/CaseFusionPanel.tsx:79-87 | with one image of positive quality, the weighted and average rules agree |
| CaseFusion.SortByConfidence | frontend/src/features/cases/CaseFusionPanel.tsx:110 | the stable descending sort; no contract of its own, characterised by `CaseFusion.SortIsOrderedPermutation` and `CaseFusion.SortKeepsDistinct` |
| CaseFusion.Take | frontend/src/features/cases/CaseFusionPanel.tsx:111 | `.slice(0, n)`; no contract of its own, characterised by `CaseFusion.FusedPredictionsShape` and `CaseFusion.FusedPredictionsAreTop` |
| CaseFusion.SortIsOrderedPermutation | frontend/src/features/cases/CaseFusionPanel.tsx:110 | the sort yields a permutation of its input in non-increasing confidence |
| CaseFusion.SortKeepsDistinct | frontend/src/features/cases/CaseFusionPanel.tsx:110 | sorting keeps class names pairwise distinct |
| CaseFusion.FusedEntries | frontend/src/features/cases/CaseFusionPanel.tsx:104-109 | one entry per collected class; no contract of its own, characterised by `CaseFusion.FusedEntriesFacts` |
| CaseFusion.FusedPredictions | frontend/src/features/cases/CaseFusionPanel.tsx:53-112 | what `fusePredictions` returns, as a value; no contract of its own, characterised by `CaseFusion.FusePredictions`, `CaseFusion.FusedPredictionsShape`, `CaseFusion.FusedPredictionsEntries` and `CaseFusion.FusedPredictionsAreTop` |
| CaseFusion.FusePredictions | frontend/src/features/cases/CaseFusionPanel.tsx:53-112 | the method's result equals the fusion specification |
| CaseFusion.FusedEntriesFacts | frontend/src/features/cases/CaseFusionPanel.tsx:104-109 | one entry per observed class, with distinct classes, each observed, holding its fused score and the registry description |
| CaseFusion.FusedPredictionsShape | frontend/src/features/cases/CaseFusionPanel.tsx:104-111 | at most five entries, sorted by confidence, with distinct classes, and exactly min(5, number of classes) of them when there are images |
| CaseFusion.FusedPredictionsEntries | frontend/src/features/cases/CaseFusionPanel.tsx:104-111 | every returned entry is an observed class with its fused score and the registry description |
| CaseFusion.FusedPredictionsAreTop | frontend/src/features/cases/CaseFusionPanel.tsx:110-111 | an observed class left out of the top five scores no higher than any class kept |
| CaseFusion.NoEligibleImagesFuseToNothing | frontend/src/features/cases/CaseFusionPanel.tsx:26-54 | a case with no eligible image fuses to the empty list |
| CaseFusion.WeightedExample | frontend/src/features/cases/CaseFusionPanel.tsx:84-86 | two images (MEL 0.9 at quality 1; MEL 0.5 and NV 0.3 at quality 0.5) fuse to MEL 1.15/1.5 and NV 0.3 |
| EarlyStop.Step | training/early_stop.py:16-41 | one call's update of best, counter and flag; no contract of its own, characterised by `EarlyStop.StepLowersBest`, `EarlyStop.EarlyStopSticky` and `EarlyStop.EarlyStopping.Call` |
| EarlyStop.Run | training/early_stop.py:12-41 | the fields after a sequence of calls; no contract of its own, characterised by `EarlyStop.CounterCountsMisses`, `EarlyStop.BestIsLastImprovement` and `EarlyStop.EarlyStopIffPatienceExhausted` |
| EarlyStop.ImprovingCalls | training/early_stop.py:17-28 | the indices of the calls that save a checkpoint; no contract of its own, characterised by `EarlyStop.ImprovingCallsAreImprovements`, `EarlyStop.ImprovingCallsComplete` and `EarlyStop.CheckpointedLossesDecrease` |
| EarlyStop.FirstCallImproves | training/early_stop.py:12-19 | the first call always improves on the starting infinite best and leaves best = that loss, counter 0, no stop |
| EarlyStop.CounterCountsMisses | training/early_stop.py:17-36 | the counter is the number of calls since the last improvement: those calls did not improve, and the call before them did |
| EarlyStop.BestIsLastImprovement | training/early_stop.py:12-19 | the best loss is infinite exactly before the first call, and afterwards is the loss of the last improving call |
| EarlyStop.StepLowersBest | training/early_stop.py:17-18 | with a non-negative margin one call never raises the best loss |
| EarlyStop.BestNeverIncreases | training/early_stop.py:17-18 | with a non-negative margin the best loss never rises over any stretch of calls |
| EarlyStop.NegativeMarginRaisesBest | training/early_stop.py:17-18 | with a negative margin a worse loss can become the best |
| EarlyStop.EarlyStopSticky | training/early_stop.py:40-41 | once raised, the stop flag stays raised |
| EarlyStop.EarlyStopIffPatienceExhausted | training/early_stop.py:35-41 | the flag is raised exactly when some call left the counter at or above patience |
| EarlyStop.ImprovingCallsAreImprovements | training/early_stop.py:17-28 | the checkpointed calls are improving calls, in strictly increasing order |
| EarlyStop.ImprovingCallsComplete | training/early_stop.py:17-28 | every improving call is checkpointed |
| EarlyStop.LastCheckpointHoldsBest | training/early_stop.py:18-28 | some checkpoint exists exactly when a call was made, and the last one holds the best loss |
| EarlyStop.CheckpointedLossesDecrease | training/early_stop.py:17-28 | each checkpointed loss is more than the margin below the previous one |
| EarlyStop.BestWithinMarginOfEveryLoss | training/early_stop.py:17-18 | with a non-negative margin, the best loss is at most every seen loss plus the margin |
| EarlyStop.BestIsMinimumWithoutMargin | training/early_stop.py:17-18 | with margin 0 the best loss is the minimum of the seen losses |
| EarlyStop.EarlyStopping.constructor | training/early_stop.py:6-14 | keeps the parameters, starts with infinite best, counter 0, no stop and nothing saved |
| EarlyStop.EarlyStopping.WithDefaults | training/early_stop.py:6 | the defaults are patience 5, margin 0.0001 and verbose on |
| EarlyStop.EarlyStopping.Call | training/early_stop.py:16-43 | on improvement: new best, counter reset, and one checkpoint `{"model_state": state} ∪ extra` saved to the path; otherwise: best kept, counter up by one, flag raised once the counter reaches patience, nothing saved; the fields always equal the fold over all losses seen |

## Left out

- Rendering: JSX, the settings panel, the charts and the icons themselves are
  not modelled. The icon is a tag plus its CSS class.
- The quality-threshold slider of the fusion panel: it is state that no
  modelled computation reads.
- The default branch of `getMetricColor`: the metric type is a closed
  datatype, so that branch cannot be reached.
- The empty-list cases of the fusion rules: `Combine` is total for any input.
  The average and max-confidence rules receive an empty list only for a class
  that is never collected, which cannot happen.
- `formatDate`, and the text rendering of the relative-time buckets:
  `FormatRelativeTime` returns the bucket and its count, not the localised
  string. The current time is a parameter.
- `formatFileSize`, `formatConfidence`, `createImagePreview`, `generateId`
  and `debounce`: formatting, file I/O, randomness and timers.
- The optimal contrast maximum (1.0), the accepted file extensions, the
  static endpoint strings, the `ROUTES` and `STORAGE_KEYS` tables: the
  registry and thresholds record these values, but no modelled computation
  reads them.
- Verbose printing in `EarlyStopping.__call__`: the printed messages, and the
  `training_phase` lookup used only for them.
- `torch.save` and `state_dict()`: the file write is a `SaveEvent` appended to
  `saved`, and the model's state is an opaque value parameter.
- `extra=None`: modelled as the empty map, since `if extra:` treats `None`
  and `{}` alike.
- IEEE-754 arithmetic: all numbers are exact reals. NaN and infinite
  validation losses cannot be passed. Rounding in the weighted sums and in
  `1e-4` is not captured.
- EarlyStop.BestNeverIncreases: needs a non-negative margin, because with a
  negative `min_delta` the best loss can rise (`NegativeMarginRaisesBest`).
- EarlyStop.EarlyStopping.Call: promises `AtMost(bestLoss, old(bestLoss))`
  only for a non-negative margin, for the same reason.
