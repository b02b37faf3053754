/** The constant tables of the front end: the lesion-class registry, the QC
    thresholds, the upload limits and the id-based URL and query-key builders. */
module Constants {
  import opened Types

  // ---------------------------------------------------------------------------
  // Lesion-class registry
  // ---------------------------------------------------------------------------

  datatype ClassInfo = ClassInfo(
    code: string,
    name: string,
    description: string,
    color: string,
    severity: string)

  /** The string code under which a class is keyed in the registry. */
  function Code(c: LesionClass): string {
    match c
    case MEL => "MEL"
    case NV => "NV"
    case BCC => "BCC"
    case AK => "AK"
    case BKL => "BKL"
    case DF => "DF"
    case VASC => "VASC"
    case SCC => "SCC"
    case UNK => "UNK"
  }

  /** Reads a class code back; `None` for any string outside the enumeration. */
  function ParseCode(s: string): Option<LesionClass> {
    if s == "MEL" then Some(MEL)
    else if s == "NV" then Some(NV)
    else if s == "BCC" then Some(BCC)
    else if s == "AK" then Some(AK)
    else if s == "BKL" then Some(BKL)
    else if s == "DF" then Some(DF)
    else if s == "VASC" then Some(VASC)
    else if s == "SCC" then Some(SCC)
    else if s == "UNK" then Some(UNK)
    else None
  }

  const SKIN_LESION_CLASSES: map<string, ClassInfo> := map[
    "MEL" := ClassInfo("MEL", "Melanoma",
      "A type of skin cancer that develops from melanocytes", "#ef4444", "high"),
    "NV" := ClassInfo("NV", "Nevus",
      "A benign mole or birthmark", "#10b981", "low"),
    "BCC" := ClassInfo("BCC", "Basal Cell Carcinoma",
      "The most common type of skin cancer", "#f59e0b", "medium"),
    "AK" := ClassInfo("AK", "Actinic Keratosis",
      "A rough, scaly patch on sun-exposed skin", "#f97316", "medium"),
    "BKL" := ClassInfo("BKL", "Benign Keratosis",
      "A non-cancerous skin growth", "#84cc16", "low"),
    "DF" := ClassInfo("DF", "Dermatofibroma",
      "A benign fibrous nodule", "#06b6d4", "low"),
    "VASC" := ClassInfo("VASC", "Vascular Lesion",
      "A lesion involving blood vessels", "#8b5cf6", "low"),
    "SCC" := ClassInfo("SCC", "Squamous Cell Carcinoma",
      "A type of skin cancer from squamous cells", "#dc2626", "high"),
    "UNK" := ClassInfo("UNK", "Unknown",
      "Classification uncertain", "#6b7280", "unknown")
  ]

  /** Every class code is a key of the registry, and the entry under it
      carries that same code. */
  lemma RegistryCoversEveryClass(c: LesionClass)
    ensures Code(c) in SKIN_LESION_CLASSES
    ensures SKIN_LESION_CLASSES[Code(c)].code == Code(c)
  {
    match c
    case MEL =>
    case NV =>
    case BCC =>
    case AK =>
    case BKL =>
    case DF =>
    case VASC =>
    case SCC =>
    case UNK =>
  }

  /** The registry holds exactly the nine codes of the enumeration, each
      entry's code equals its key, and no other key. */
  lemma RegistryKeysAreExactlyTheCodes(k: string)
    ensures k in SKIN_LESION_CLASSES <==> ParseCode(k).Some?
    ensures k in SKIN_LESION_CLASSES ==> SKIN_LESION_CLASSES[k].code == k
  {
  }

  /** `Code` and `ParseCode` are inverse to each other, in both directions. */
  lemma CodeRoundTrip(c: LesionClass, s: string)
    ensures ParseCode(Code(c)) == Some(c)
    ensures ParseCode(s) == Some(c) ==> Code(c) == s
  {
  }

  // ---------------------------------------------------------------------------
  // QC thresholds
  // ---------------------------------------------------------------------------

  datatype OptimalRange = OptimalRange(min: real, max: real)
  datatype BrightnessThresholds = BrightnessThresholds(min: real, max: real, optimal: OptimalRange)
  datatype ContrastThresholds = ContrastThresholds(min: real, optimal: OptimalRange)
  datatype BlurOptimal = BlurOptimal(min: real)
  datatype BlurThresholds = BlurThresholds(max: real, optimal: BlurOptimal)
  datatype QcThresholds = QcThresholds(
    brightness: BrightnessThresholds,
    contrast: ContrastThresholds,
    blur: BlurThresholds)

  const QC_THRESHOLDS := QcThresholds(
    BrightnessThresholds(10.0, 245.0, OptimalRange(50.0, 200.0)),
    ContrastThresholds(0.1, OptimalRange(0.3, 1.0)),
    BlurThresholds(100.0, BlurOptimal(200.0)))

  /** Brightness: absolute minimum < optimal minimum <= optimal maximum < absolute maximum. */
  lemma BrightnessThresholdsOrdered()
    ensures QC_THRESHOLDS.brightness.min == 10.0 && QC_THRESHOLDS.brightness.max == 245.0
    ensures QC_THRESHOLDS.brightness.min < QC_THRESHOLDS.brightness.optimal.min
    ensures QC_THRESHOLDS.brightness.optimal.min <= QC_THRESHOLDS.brightness.optimal.max
    ensures QC_THRESHOLDS.brightness.optimal.max < QC_THRESHOLDS.brightness.max
  {
  }

  /** Contrast: absolute minimum < optimal minimum <= optimal maximum. */
  lemma ContrastThresholdsOrdered()
    ensures QC_THRESHOLDS.contrast.min == 0.1
    ensures QC_THRESHOLDS.contrast.min < QC_THRESHOLDS.contrast.optimal.min
    ensures QC_THRESHOLDS.contrast.optimal.min <= QC_THRESHOLDS.contrast.optimal.max
  {
  }

  /** Blur: the acceptable range (at most `max`) and the optimal range (at
      least `optimal.min`) do not overlap. */
  lemma BlurRangesDisjoint(v: real)
    ensures QC_THRESHOLDS.blur.max < QC_THRESHOLDS.blur.optimal.min
    ensures !(v <= QC_THRESHOLDS.blur.max && v >= QC_THRESHOLDS.blur.optimal.min)
  {
  }

  // ---------------------------------------------------------------------------
  // Upload limits
  // ---------------------------------------------------------------------------

  datatype UploadConfig = UploadConfig(
    maxFileSize: nat,
    maxFiles: nat,
    acceptedTypes: seq<string>,
    acceptedExtensions: seq<string>)

  const UPLOAD_CONFIG := UploadConfig(
    10 * 1024 * 1024,
    10,
    ["image/jpeg", "image/png", "image/webp"],
    [".jpg", ".jpeg", ".png", ".webp"])

  /** Ten megabytes, ten files, three distinct MIME types. */
  lemma UploadConfigValues()
    ensures UPLOAD_CONFIG.maxFileSize == 10485760
    ensures UPLOAD_CONFIG.maxFiles == 10
    ensures |UPLOAD_CONFIG.acceptedTypes| == 3
    ensures forall i, j :: 0 <= i < j < |UPLOAD_CONFIG.acceptedTypes| ==>
      UPLOAD_CONFIG.acceptedTypes[i] != UPLOAD_CONFIG.acceptedTypes[j]
  {
  }

  // ---------------------------------------------------------------------------
  // Id-based endpoint and query-key builders
  // ---------------------------------------------------------------------------

  function CaseDetail(id: string): string { "/api/v1/cases/" + id }
  function CaseUpdate(id: string): string { "/api/v1/cases/" + id }
  function CaseDelete(id: string): string { "/api/v1/cases/" + id }
  function ImageDetail(id: string): string { "/api/v1/images/" + id }
  function ImageQc(id: string): string { "/api/v1/images/" + id + "/qc" }
  function ImageDelete(id: string): string { "/api/v1/images/" + id }
  function PredictionJob(id: string): string { "/api/v1/predictions/jobs/" + id }
  function PredictionResult(id: string): string { "/api/v1/predictions/" + id }
  function PredictionHeatmap(id: string): string { "/api/v1/predictions/" + id + "/heatmap" }
  function MlPredictFromUpload(filename: string): string { "/api/v1/ml/predict-from-upload/" + filename }
  function ModelInfo(id: string): string { "/api/v1/models/" + id }

  const CASES_KEY: seq<string> := ["cases"]
  const IMAGES_KEY: seq<string> := ["images"]
  const PREDICTIONS_KEY: seq<string> := ["predictions"]

  function CaseKey(id: string): seq<string> { ["cases", id] }
  function ImageKey(id: string): seq<string> { ["images", id] }
  function PredictionKey(id: string): seq<string> { ["predictions", id] }
  function PredictionJobKey(id: string): seq<string> { ["predictions", "jobs", id] }

  /** If `prefix + a == prefix + b` then `a == b`. */
  lemma PrefixCancels(prefix: string, a: string, b: string)
    requires prefix + a == prefix + b
    ensures a == b
  {
    assert a == (prefix + a)[|prefix|..];
    assert b == (prefix + b)[|prefix|..];
  }

  /** If `prefix + a + suffix == prefix + b + suffix` then `a == b`. */
  lemma InfixCancels(prefix: string, a: string, b: string, suffix: string)
    requires prefix + a + suffix == prefix + b + suffix
    ensures a == b
  {
    assert |a| == |b|;
    assert a == (prefix + a + suffix)[|prefix|..|prefix| + |a|];
    assert b == (prefix + b + suffix)[|prefix|..|prefix| + |b|];
  }

  /** Each path builder is its fixed prefix followed by the id, the id can be
      read back from the path, and distinct ids give distinct paths. */
  lemma CasePathsDetermineId(id: string, other: string)
    ensures CaseDetail(id)[..14] == "/api/v1/cases/" && CaseDetail(id)[14..] == id
    ensures CaseUpdate(id) == CaseDetail(id) && CaseDelete(id) == CaseDetail(id)
    ensures CaseDetail(id) == CaseDetail(other) ==> id == other
  {
    if CaseDetail(id) == CaseDetail(other) {
      PrefixCancels("/api/v1/cases/", id, other);
    }
  }

  lemma ImagePathsDetermineId(id: string, other: string)
    ensures ImageDetail(id)[15..] == id && ImageDelete(id) == ImageDetail(id)
    ensures ImageQc(id) == ImageDetail(id) + "/qc"
    ensures ImageDetail(id) == ImageDetail(other) ==> id == other
    ensures ImageQc(id) == ImageQc(other) ==> id == other
  {
    if ImageDetail(id) == ImageDetail(other) {
      PrefixCancels("/api/v1/images/", id, other);
    }
    if ImageQc(id) == ImageQc(other) {
      InfixCancels("/api/v1/images/", id, other, "/qc");
    }
  }

  lemma PredictionPathsDetermineId(id: string, other: string)
    ensures PredictionResult(id)[20..] == id
    ensures PredictionJob(id)[25..] == id
    ensures PredictionHeatmap(id) == PredictionResult(id) + "/heatmap"
    ensures PredictionResult(id) == PredictionResult(other) ==> id == other
    ensures PredictionJob(id) == PredictionJob(other) ==> id == other
    ensures PredictionHeatmap(id) == PredictionHeatmap(other) ==> id == other
  {
    if PredictionResult(id) == PredictionResult(other) {
      PrefixCancels("/api/v1/predictions/", id, other);
    }
    if PredictionJob(id) == PredictionJob(other) {
      PrefixCancels("/api/v1/predictions/jobs/", id, other);
    }
    if PredictionHeatmap(id) == PredictionHeatmap(other) {
      InfixCancels("/api/v1/predictions/", id, other, "/heatmap");
    }
  }

  lemma ModelAndMlPathsDetermineId(id: string, other: string)
    ensures ModelInfo(id)[15..] == id
    ensures MlPredictFromUpload(id)[31..] == id
    ensures ModelInfo(id) == ModelInfo(other) ==> id == other
    ensures MlPredictFromUpload(id) == MlPredictFromUpload(other) ==> id == other
  {
    if ModelInfo(id) == ModelInfo(other) {
      PrefixCancels("/api/v1/models/", id, other);
    }
    if MlPredictFromUpload(id) == MlPredictFromUpload(other) {
      PrefixCancels("/api/v1/ml/predict-from-upload/", id, other);
    }
  }

  /** A per-id query key extends the collection key by the id, so
      invalidating the collection key covers every per-id key. */
  lemma QueryKeysExtendCollectionKeys(id: string)
    ensures CaseKey(id) == CASES_KEY + [id]
    ensures ImageKey(id) == IMAGES_KEY + [id]
    ensures PredictionKey(id) == PREDICTIONS_KEY + [id]
    ensures PredictionJobKey(id)[..1] == PREDICTIONS_KEY && PredictionJobKey(id)[|PredictionJobKey(id)| - 1] == id
  {
  }
}
