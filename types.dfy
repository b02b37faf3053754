/** Record shapes of the front end: quality-control results, per-class
    predictions, predictions and case images. */
module Types {

  datatype Option<+T> = None | Some(value: T)

  /** The closed set of lesion class codes. */
  datatype LesionClass = MEL | NV | BCC | AK | BKL | DF | VASC | SCC | UNK

  /** QC metrics of one image together with the gate's verdict. */
  datatype QualityControlResults = QualityControlResults(
    brightness: real,
    contrast: real,
    blur: real,
    isAcceptable: bool,
    warnings: seq<string>)

  datatype ClassPrediction = ClassPrediction(
    className: LesionClass,
    confidence: real,
    description: string)

  datatype Prediction = Prediction(
    id: string,
    imageId: string,
    predictions: seq<ClassPrediction>,
    confidence: real,
    heatmapUrl: Option<string>,
    createdAt: string)

  datatype CaseImage = CaseImage(
    id: string,
    caseId: string,
    imageUrl: string,
    thumbnailUrl: string,
    filename: string,
    qcResults: QualityControlResults,
    prediction: Option<Prediction>,
    uploadedAt: string)

  /** The few properties of a browser `File` that the upload helpers read. */
  datatype UploadFile = UploadFile(name: string, size: nat, mimeType: string)
}
