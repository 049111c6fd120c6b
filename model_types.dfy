/** The values the inference-result converters read and produce. Labels, label
    lists, shapes, annotations, domains and the ModelAPI result records are
    defined outside the converter file (geti_sdk.data_models and model_api are
    not part of this model); only the fields the converters use are kept. */
module ModelTypes {
  import opened Wrappers

  /** A label of the project's label schema. `id` is `str(label.id)`. */
  datatype Label = Label(id: string, name: string, isEmpty: bool, isAnomalous: bool)

  /** `ScoredLabel.from_label(label, probability)` */
  datatype ScoredLabel = ScoredLabel(lbl: Label, probability: real)

  datatype Point = Point(x: real, y: real)

  datatype Shape =
    | Rectangle(x: real, y: real, width: real, height: real)
    | Ellipse(x: real, y: real, width: real, height: real)
    | FullBox(imageWidth: int, imageHeight: int)   // Rectangle.generate_full_box(width, height)
    | Polygon(points: seq<Point>)
    | RotatedRectangle(corners: seq<Point>)        // RotatedRectangle.from_polygon(Polygon(corners))

  datatype Annotation = Annotation(shape: Shape, labels: seq<ScoredLabel>)

  /** `Prediction(annotations)` */
  type Prediction = seq<Annotation>

  /** `image_shape`: (height, width, channels) */
  datatype ImageShape = ImageShape(height: int, width: int, channels: int)

  /** The task domains the factory tells apart; every other member of the
      `Domain` enumeration is `OtherDomain`. */
  datatype Domain =
    | Classification
    | Detection
    | Segmentation
    | RotatedDetection
    | InstanceSegmentation
    | AnomalyClassification
    | AnomalySegmentation
    | AnomalyDetection
    | Anomaly
    | OtherDomain(name: string)

  predicate IsAnomalyDomain(d: Domain) {
    d.AnomalyClassification? || d.AnomalySegmentation? || d.AnomalyDetection? || d.Anomaly?
  }

  /** `configuration["labels"]`: one name, or a list whose items are rendered with `str`. */
  datatype ConfigLabels = SingleName(name: string) | NameList(names: seq<string>)

  /** The configuration keys the converters read; `None` is a missing key. */
  datatype Configuration = Configuration(
    labels: Option<ConfigLabels>,
    useEllipseShapes: Option<bool>,
    confidenceThreshold: Option<real>,
    domain: Option<Domain>)

  // ModelAPI result records, with the cv2 geometry they feed already computed.

  /** `ClassificationResult.top_labels` entry: (label_index, label_name, confidence). */
  datatype TopLabel = TopLabel(index: int, name: string, probability: real)

  /** `Detection`: score, id and the corners of the box. */
  datatype DetectedBox = DetectedBox(score: real, id: int, xmin: real, ymin: real, xmax: real, ymax: real)

  /** One contour `cv2.findContours` reports for a mask: the parent index from its
      hierarchy row (-1 for an outer contour), its points, `cv2.contourArea` of it,
      and the corners `cv2.boxPoints(cv2.minAreaRect(contour))` gives. */
  datatype Contour = Contour(parent: int, points: seq<Point>, area: real, minAreaCorners: seq<Point>)

  /** `SegmentedObject`: a box with a score and label id, and the contours of its
      mask (none when `cv2.findContours` returns no hierarchy). */
  datatype SegmentedObject = SegmentedObject(
    id: int, score: real, xmin: real, ymin: real, xmax: real, ymax: real, contours: seq<Contour>)

  /** A contour `model.get_contours` reports for a segmentation result: its label
      text, its points, its probability and the number of points
      `cv2.approxPolyDP(shape, 1.0, True)` keeps. */
  datatype SegmentationContour = SegmentationContour(
    labelText: string, points: seq<Point>, probability: real, approxCurveLength: nat)

  datatype Box = Box(x1: real, y1: real, x2: real, y2: real)

  /** `AnomalyResult`: the predicted label text, the score, the boxes, and what
      `create_annotation_from_segmentation_map` makes of the masks. */
  datatype AnomalyResult = AnomalyResult(
    predLabel: string, predScore: real, predBoxes: seq<Box>, segmentationAnnotations: seq<Annotation>)

  // The LabelList methods the converters call, as they are taken here.

  /** `labels.get_non_empty_labels()` */
  function NonEmptyLabels(labels: seq<Label>): (r: seq<Label>)
    ensures forall l :: l in r <==> l in labels && !l.isEmpty
  {
    if labels == [] then []
    else (if labels[0].isEmpty then [] else [labels[0]]) + NonEmptyLabels(labels[1..])
  }

  /** `labels.get_empty_label()`: the first empty label, if there is one. */
  function EmptyLabel(labels: seq<Label>): (r: Option<Label>)
    ensures r.Some? ==> r.value in labels && r.value.isEmpty
    ensures r.Some? ==> exists i :: 0 <= i < |labels| && labels[i] == r.value &&
                                    forall j :: 0 <= j < i ==> !labels[j].isEmpty
    ensures r.None? ==> forall l :: l in labels ==> !l.isEmpty
  {
    if labels == [] then None
    else if labels[0].isEmpty then Some(labels[0])
    else EmptyLabel(labels[1..])
  }

  /** `labels.get_by_name(name)`: the first label with that name, or `KeyError`. */
  function GetByName(labels: seq<Label>, name: string): (r: Result<Label>)
    ensures r.Ok? ==> r.value in labels && r.value.name == name
    ensures r.Ok? ==> exists i :: 0 <= i < |labels| && labels[i] == r.value &&
                                  forall j :: 0 <= j < i ==> labels[j].name != name
    ensures r.Err? ==> r.error == KeyError && forall l :: l in labels ==> l.name != name
  {
    if labels == [] then Err(KeyError)
    else if labels[0].name == name then Ok(labels[0])
    else GetByName(labels[1..], name)
  }
}
