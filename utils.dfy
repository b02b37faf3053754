/** The front end's helper functions: upload validation, confidence and QC
    status classifiers, the image quality gate and relative-time bucketing. */
module Utils {
  import opened Types
  import opened Constants

  // ---------------------------------------------------------------------------
  // Upload validation
  // ---------------------------------------------------------------------------

  /** `validateFileType`: the MIME type is one of the accepted types. */
  function ValidateFileType(file: UploadFile): bool {
    file.mimeType in UPLOAD_CONFIG.acceptedTypes
  }

  /** `validateFileSize`: the size does not exceed the configured maximum. */
  function ValidateFileSize(file: UploadFile): bool {
    file.size <= UPLOAD_CONFIG.maxFileSize
  }

  /** Exactly JPEG, PNG and WebP files pass the type check, and exactly
      files of at most 10 MiB pass the size check (the limit itself included). */
  lemma UploadValidationAccepts(file: UploadFile)
    ensures ValidateFileType(file) <==>
      file.mimeType == "image/jpeg" || file.mimeType == "image/png" || file.mimeType == "image/webp"
    ensures ValidateFileSize(file) <==> file.size <= 10485760
  {
  }

  // ---------------------------------------------------------------------------
  // Class lookup and confidence classifiers
  // ---------------------------------------------------------------------------

  /** `getClassInfo`: the registry entry keyed by the class's code, defined
      for every class of the enumeration. */
  function GetClassInfo(c: LesionClass): (info: ClassInfo)
    ensures info.code == Code(c)
  {
    RegistryCoversEveryClass(c);
    SKIN_LESION_CLASSES[Code(c)]
  }

  const CONFIDENCE_HIGH_COLOR := "text-green-600 dark:text-green-400"
  const CONFIDENCE_MEDIUM_COLOR := "text-yellow-600 dark:text-yellow-400"
  const CONFIDENCE_LOW_COLOR := "text-red-600 dark:text-red-400"

  function GetConfidenceColor(confidence: real): string {
    if confidence >= 0.8 then CONFIDENCE_HIGH_COLOR
    else if confidence >= 0.6 then CONFIDENCE_MEDIUM_COLOR
    else CONFIDENCE_LOW_COLOR
  }

  function GetConfidenceLabel(confidence: real): string {
    if confidence >= 0.8 then "High"
    else if confidence >= 0.6 then "Medium"
    else "Low"
  }

  /** The rank of a confidence label, Low < Medium < High. */
  function LabelRank(text: string): nat {
    if text == "High" then 2 else if text == "Medium" then 1 else 0
  }

  /** The three bands, each as an if-and-only-if, and the colour that goes
      with each band. */
  lemma ConfidenceBands(confidence: real)
    ensures GetConfidenceLabel(confidence) == "High" <==> confidence >= 0.8
    ensures GetConfidenceLabel(confidence) == "Medium" <==> 0.6 <= confidence < 0.8
    ensures GetConfidenceLabel(confidence) == "Low" <==> confidence < 0.6
    ensures GetConfidenceColor(confidence) == CONFIDENCE_HIGH_COLOR <==> GetConfidenceLabel(confidence) == "High"
    ensures GetConfidenceColor(confidence) == CONFIDENCE_MEDIUM_COLOR <==> GetConfidenceLabel(confidence) == "Medium"
    ensures GetConfidenceColor(confidence) == CONFIDENCE_LOW_COLOR <==> GetConfidenceLabel(confidence) == "Low"
  {
  }

  /** A higher confidence never gets a lower label. */
  lemma ConfidenceLabelMonotone(a: real, b: real)
    requires a <= b
    ensures LabelRank(GetConfidenceLabel(a)) <= LabelRank(GetConfidenceLabel(b))
  {
  }

  // ---------------------------------------------------------------------------
  // Image quality gate
  // ---------------------------------------------------------------------------

  const TOO_DARK := "Image is too dark"
  const TOO_BRIGHT := "Image is too bright"
  const BRIGHTNESS_ADVISORY := "Brightness could be improved"
  const LOW_CONTRAST := "Image has low contrast"
  const CONTRAST_ADVISORY := "Contrast could be improved"
  const TOO_BLURRY := "Image is too blurry"
  const SHARPNESS_ADVISORY := "Image could be sharper"

  /** The non-fatal warnings: an acceptable image only ever carries these. */
  predicate IsAdvisory(w: string) {
    w == BRIGHTNESS_ADVISORY || w == CONTRAST_ADVISORY || w == SHARPNESS_ADVISORY
  }

  predicate BrightnessAcceptable(b: real) {
    QC_THRESHOLDS.brightness.min <= b <= QC_THRESHOLDS.brightness.max
  }

  predicate ContrastAcceptable(c: real) {
    QC_THRESHOLDS.contrast.min <= c
  }

  predicate BlurAcceptable(blur: real) {
    blur <= QC_THRESHOLDS.blur.max
  }

  /** The warning (at most one) that the brightness check contributes. */
  function BrightnessWarnings(b: real): seq<string> {
    if b < QC_THRESHOLDS.brightness.min then [TOO_DARK]
    else if b > QC_THRESHOLDS.brightness.max then [TOO_BRIGHT]
    else if b < QC_THRESHOLDS.brightness.optimal.min || b > QC_THRESHOLDS.brightness.optimal.max
    then [BRIGHTNESS_ADVISORY]
    else []
  }

  /** The warning (at most one) that the contrast check contributes. */
  function ContrastWarnings(c: real): seq<string> {
    if c < QC_THRESHOLDS.contrast.min then [LOW_CONTRAST]
    else if c < QC_THRESHOLDS.contrast.optimal.min then [CONTRAST_ADVISORY]
    else []
  }

  /** The warning (at most one) that the blur check contributes. */
  function BlurWarnings(blur: real): seq<string> {
    if blur > QC_THRESHOLDS.blur.max then [TOO_BLURRY]
    else if blur < QC_THRESHOLDS.blur.optimal.min then [SHARPNESS_ADVISORY]
    else []
  }

  /** The gate's verdict as a value: acceptable when every metric lies in its
      absolute range, warnings from the three checks in check order. */
  function QualityGate(brightness: real, contrast: real, blur: real): (qc: QualityControlResults) {
    QualityControlResults(
      brightness, contrast, blur,
      BrightnessAcceptable(brightness) && ContrastAcceptable(contrast) && BlurAcceptable(blur),
      BrightnessWarnings(brightness) + ContrastWarnings(contrast) + BlurWarnings(blur))
  }

  /** `evaluateImageQuality`: pushes warnings and lowers the flag check by check. */
  method EvaluateImageQuality(brightness: real, contrast: real, blur: real)
    returns (qc: QualityControlResults)
    ensures qc == QualityGate(brightness, contrast, blur)
    ensures qc.brightness == brightness && qc.contrast == contrast && qc.blur == blur
    ensures !qc.isAcceptable <==> brightness < 10.0 || brightness > 245.0 || contrast < 0.1 || blur > 100.0
    ensures |qc.warnings| <= 3
    ensures qc.isAcceptable ==> forall k :: 0 <= k < |qc.warnings| ==> IsAdvisory(qc.warnings[k])
  {
    var warnings: seq<string> := [];
    var isAcceptable := true;

    if brightness < QC_THRESHOLDS.brightness.min {
      warnings := warnings + [TOO_DARK];
      isAcceptable := false;
    } else if brightness > QC_THRESHOLDS.brightness.max {
      warnings := warnings + [TOO_BRIGHT];
      isAcceptable := false;
    } else if brightness < QC_THRESHOLDS.brightness.optimal.min
           || brightness > QC_THRESHOLDS.brightness.optimal.max {
      warnings := warnings + [BRIGHTNESS_ADVISORY];
    }
    assert warnings == BrightnessWarnings(brightness);

    if contrast < QC_THRESHOLDS.contrast.min {
      warnings := warnings + [LOW_CONTRAST];
      isAcceptable := false;
    } else if contrast < QC_THRESHOLDS.contrast.optimal.min {
      warnings := warnings + [CONTRAST_ADVISORY];
    }
    assert warnings == BrightnessWarnings(brightness) + ContrastWarnings(contrast);

    if blur > QC_THRESHOLDS.blur.max {
      warnings := warnings + [TOO_BLURRY];
      isAcceptable := false;
    } else if blur < QC_THRESHOLDS.blur.optimal.min {
      warnings := warnings + [SHARPNESS_ADVISORY];
    }

    qc := QualityControlResults(brightness, contrast, blur, isAcceptable, warnings);
  }

  /** A gate result is acceptable exactly when all its warnings are advisory,
      and the warnings come one per metric at most, in
      brightness, contrast, blur order. */
  lemma GateWarningsShape(brightness: real, contrast: real, blur: real)
    ensures var qc := QualityGate(brightness, contrast, blur);
      && |BrightnessWarnings(brightness)| <= 1
      && |ContrastWarnings(contrast)| <= 1
      && |BlurWarnings(blur)| <= 1
      && (qc.isAcceptable <==> forall k :: 0 <= k < |qc.warnings| ==> IsAdvisory(qc.warnings[k]))
  {
    var qc := QualityGate(brightness, contrast, blur);
    if !qc.isAcceptable {
      var bw, cw := BrightnessWarnings(brightness), ContrastWarnings(contrast);
      if !BrightnessAcceptable(brightness) {
        assert !IsAdvisory(qc.warnings[0]);
      } else if !ContrastAcceptable(contrast) {
        assert !IsAdvisory(qc.warnings[|bw|]);
      } else {
        assert !IsAdvisory(qc.warnings[|bw| + |cw|]);
      }
    }
  }

  /** With the shipped thresholds every blur value draws a warning: above 100
      it is too blurry, at or below 100 it is below the optimal 200. So every
      gate result has at least one warning. */
  lemma GateAlwaysWarns(brightness: real, contrast: real, blur: real)
    ensures |QualityGate(brightness, contrast, blur).warnings| >= 1
    ensures QualityGate(brightness, contrast, blur).isAcceptable ==>
      SHARPNESS_ADVISORY in QualityGate(brightness, contrast, blur).warnings
  {
    var qc := QualityGate(brightness, contrast, blur);
    var prefix := BrightnessWarnings(brightness) + ContrastWarnings(contrast);
    assert qc.warnings == prefix + BlurWarnings(blur);
    assert qc.warnings[|prefix|] == BlurWarnings(blur)[0];
  }

  // ---------------------------------------------------------------------------
  // QC status
  // ---------------------------------------------------------------------------

  const STATUS_RED := "text-red-600 dark:text-red-400"
  const STATUS_YELLOW := "text-yellow-600 dark:text-yellow-400"
  const STATUS_GREEN := "text-green-600 dark:text-green-400"

  function GetQCStatusColor(qc: QualityControlResults): string {
    if !qc.isAcceptable then STATUS_RED
    else if |qc.warnings| > 0 then STATUS_YELLOW
    else STATUS_GREEN
  }

  function GetQCStatusLabel(qc: QualityControlResults): string {
    if !qc.isAcceptable then "Poor"
    else if |qc.warnings| > 0 then "Fair"
    else "Good"
  }

  /** Poor iff not acceptable, Fair iff acceptable with warnings, Good iff
      acceptable without; the colour follows the same partition. */
  lemma QCStatusPartition(qc: QualityControlResults)
    ensures GetQCStatusLabel(qc) == "Poor" <==> !qc.isAcceptable
    ensures GetQCStatusLabel(qc) == "Fair" <==> qc.isAcceptable && |qc.warnings| > 0
    ensures GetQCStatusLabel(qc) == "Good" <==> qc.isAcceptable && |qc.warnings| == 0
    ensures GetQCStatusColor(qc) == STATUS_RED <==> GetQCStatusLabel(qc) == "Poor"
    ensures GetQCStatusColor(qc) == STATUS_YELLOW <==> GetQCStatusLabel(qc) == "Fair"
    ensures GetQCStatusColor(qc) == STATUS_GREEN <==> GetQCStatusLabel(qc) == "Good"
  {
  }

  /** No record the gate produces is ever labelled Good. */
  lemma GateNeverGood(brightness: real, contrast: real, blur: real)
    ensures GetQCStatusLabel(QualityGate(brightness, contrast, blur)) != "Good"
    ensures GetQCStatusColor(QualityGate(brightness, contrast, blur)) != STATUS_GREEN
  {
    GateAlwaysWarns(brightness, contrast, blur);
  }

  // ---------------------------------------------------------------------------
  // Relative time
  // ---------------------------------------------------------------------------

  /** The bucket `formatRelativeTime` reports; the counts are rendered as
      `<n>m ago`, `<n>h ago`, `<n>d ago`, and `AbsoluteDate` defers to
      `formatDate`. */
  datatype RelativeTime =
    | JustNow
    | MinutesAgo(minutes: int)
    | HoursAgo(hours: int)
    | DaysAgo(days: int)
    | AbsoluteDate

  /** `Math.floor((now - then) / 1000)` on millisecond timestamps. */
  function ElapsedSeconds(nowMs: int, thenMs: int): (s: int)
    ensures s * 1000 <= nowMs - thenMs < s * 1000 + 1000
  {
    (nowMs - thenMs) / 1000
  }

  function RelativeBucket(diffInSeconds: int): RelativeTime {
    if diffInSeconds < 60 then JustNow
    else if diffInSeconds < 3600 then MinutesAgo(diffInSeconds / 60)
    else if diffInSeconds < 86400 then HoursAgo(diffInSeconds / 3600)
    else if diffInSeconds < 2592000 then DaysAgo(diffInSeconds / 86400)
    else AbsoluteDate
  }

  /** `formatRelativeTime`, with the clock reading passed in. */
  function FormatRelativeTime(nowMs: int, thenMs: int): RelativeTime {
    RelativeBucket(ElapsedSeconds(nowMs, thenMs))
  }

  /** Each bucket as an if-and-only-if on the elapsed seconds, every count the
      floor of the elapsed time in its unit, and every count at least 1 and below
      the next unit. */
  lemma RelativeBuckets(d: int)
    ensures RelativeBucket(d) == JustNow <==> d < 60
    ensures RelativeBucket(d).MinutesAgo? <==> 60 <= d < 3600
    ensures RelativeBucket(d).HoursAgo? <==> 3600 <= d < 86400
    ensures RelativeBucket(d).DaysAgo? <==> 86400 <= d < 2592000
    ensures RelativeBucket(d) == AbsoluteDate <==> d >= 2592000
    ensures RelativeBucket(d).MinutesAgo? ==> var m := RelativeBucket(d).minutes;
      1 <= m <= 59 && m * 60 <= d < m * 60 + 60
    ensures RelativeBucket(d).HoursAgo? ==> var h := RelativeBucket(d).hours;
      1 <= h <= 23 && h * 3600 <= d < h * 3600 + 3600
    ensures RelativeBucket(d).DaysAgo? ==> var n := RelativeBucket(d).days;
      1 <= n <= 29 && n * 86400 <= d < n * 86400 + 86400
  {
  }

  /** A timestamp in the future, or less than a minute old, reads "Just now". */
  lemma FutureIsJustNow(nowMs: int, thenMs: int)
    requires nowMs - thenMs < 60000
    ensures FormatRelativeTime(nowMs, thenMs) == JustNow
  {
  }
}
