/** What each `convert_to_prediction` of results_to_prediction_converter.py
    produces, as functions of the converter's tables and settings and of the
    ModelAPI result. The loops over results are defined from the back, as the
    loops append; the converter classes prove their methods equal to these. */
module ConverterSpecs {
  import opened Wrappers
  import opened Text
  import opened ModelTypes
  import opened LabelTables

  /** `get_label_by_idx` on a table: `KeyError` for an unknown index. */
  function Lookup<K>(m: map<K, Label>, k: K): (r: Result<Label>)
    ensures r.Ok? <==> k in m
    ensures r.Ok? ==> r.value == m[k]
    ensures r.Err? ==> r.error == KeyError
  {
    if k in m then Ok(m[k]) else Err(KeyError)
  }

  // ---------------------------------------------------------------------------
  // Classification (lines 171-186, 216-235)
  // ---------------------------------------------------------------------------

  /** One scored label per top label, looked up by its index. */
  function TopScoredLabels(idx: map<int, Label>, top: seq<TopLabel>): (r: Result<seq<ScoredLabel>>)
    ensures r.Ok? <==> forall i :: 0 <= i < |top| ==> top[i].index in idx
    ensures r.Err? ==> r.error == KeyError
    ensures r.Ok? ==> (|r.value| == |top| &&
                       forall i :: 0 <= i < |top| ==>
                         r.value[i] == ScoredLabel(idx[top[i].index], top[i].probability))
  {
    if top == [] then Ok([])
    else
      var n := |top| - 1;
      match TopScoredLabels(idx, top[..n])
      case Err(e) => Err(e)
      case Ok(prev) =>
        if top[n].index in idx then Ok(prev + [ScoredLabel(idx[top[n].index], top[n].probability)])
        else Err(KeyError)
  }

  /** `Rectangle.generate_full_box(width, height)` for an image shape (height, width, channels). */
  function FullImageBox(imageShape: ImageShape): Shape {
    FullBox(imageShape.width, imageShape.height)
  }

  /** The labels of the single classification annotation: the scored top labels,
      or the empty label with probability 0 when there are none. */
  function ClassificationLabels(scored: seq<ScoredLabel>, emptyLabel: Option<Label>): seq<ScoredLabel> {
    if scored == [] && emptyLabel.Some? then [ScoredLabel(emptyLabel.value, 0.0)] else scored
  }

  /** A classification result is always one full-image annotation; with top labels
      it carries one scored label per top label, in order, and without them only
      the empty label at probability 0 (nothing when there is no empty label). */
  function ClassificationPrediction(idx: map<int, Label>, top: seq<TopLabel>,
                                    emptyLabel: Option<Label>, imageShape: ImageShape): (r: Result<Prediction>)
    ensures r.Ok? <==> forall i :: 0 <= i < |top| ==> top[i].index in idx
    ensures r.Err? ==> r.error == KeyError
    ensures r.Ok? ==> |r.value| == 1 && r.value[0].shape == FullBox(imageShape.width, imageShape.height)
    ensures r.Ok? && |top| > 0 ==>
              |r.value[0].labels| == |top| &&
              forall i :: 0 <= i < |top| ==>
                r.value[0].labels[i].lbl == idx[top[i].index] &&
                r.value[0].labels[i].probability == top[i].probability
    ensures r.Ok? && |top| == 0 && emptyLabel.Some? ==> r.value[0].labels == [ScoredLabel(emptyLabel.value, 0.0)]
    ensures r.Ok? && |top| == 0 && emptyLabel.None? ==> r.value[0].labels == []
  {
    match TopScoredLabels(idx, top)
    case Err(e) => Err(e)
    case Ok(scored) => Ok([Annotation(FullImageBox(imageShape), ClassificationLabels(scored, emptyLabel))])
  }

  /** The first label whose name with spaces replaced by '_' equals `name`. */
  function FirstWithLegacyName(ls: seq<Label>, name: string): (r: Result<Label>)
    ensures r.Ok? ==> r.value in ls && Underscored(r.value.name) == name
    ensures r.Ok? ==> exists i :: 0 <= i < |ls| && ls[i] == r.value &&
                                  forall j :: 0 <= j < i ==> Underscored(ls[j].name) != name
    ensures r.Err? <==> forall l :: l in ls ==> Underscored(l.name) != name
    ensures r.Err? ==> r.error == KeyError
  {
    if ls == [] then Err(KeyError)
    else if Underscored(ls[0].name) == name then Ok(ls[0])
    else FirstWithLegacyName(ls[1..], name)
  }

  /** `_get_label_by_prediction_name`: the label with that name, else the first
      label whose legacy name it is, else `KeyError`. */
  function LabelByPredictionName(ls: seq<Label>, name: string): (r: Result<Label>)
    ensures r.Ok? ==> r.value in ls && (r.value.name == name || Underscored(r.value.name) == name)
    ensures (exists l :: l in ls && l.name == name) ==> r.Ok? && r.value.name == name
    ensures r.Err? <==> forall l :: l in ls ==> l.name != name && Underscored(l.name) != name
    ensures r.Err? ==> r.error == KeyError
  {
    match GetByName(ls, name)
    case Ok(l) => Ok(l)
    case Err(_) => FirstWithLegacyName(ls, name)
  }

  // ---------------------------------------------------------------------------
  // Detection (lines 255-328)
  // ---------------------------------------------------------------------------

  function Area(d: DetectedBox): real {
    (d.xmax - d.xmin) * (d.ymax - d.ymin)
  }

  /** A row of the array `_detection2array` returns: label, confidence, x1, y1, x2, y2. */
  datatype DetectionRow = DetectionRow(labelIndex: int, confidence: real, x1: real, y1: real, x2: real, y2: real)

  function RowOf(d: DetectedBox): DetectionRow {
    DetectionRow(d.id, d.score, d.xmin, d.ymin, d.xmax, d.ymax)
  }

  /** The detections `_detection2array` keeps, in order: those of area at least 1. */
  function KeptDetections(dets: seq<DetectedBox>): (rows: seq<DetectionRow>)
    ensures |rows| <= |dets|
    ensures forall r :: r in rows ==> exists d :: d in dets && Area(d) >= 1.0 && r == RowOf(d)
    ensures forall d :: d in dets && Area(d) >= 1.0 ==> RowOf(d) in rows
  {
    if dets == [] then []
    else
      var n := |dets| - 1;
      var prev := KeptDetections(dets[..n]);
      assert forall d :: d in dets[..n] ==> d in dets;
      assert forall d :: d in dets ==> d in dets[..n] || d == dets[n];
      prev + (if Area(dets[n]) >= 1.0 then [RowOf(dets[n])] else [])
  }

  lemma KeptDetectionsStep(dets: seq<DetectedBox>, i: nat)
    requires i < |dets|
    ensures KeptDetections(dets[..i + 1])
         == KeptDetections(dets[..i]) + (if Area(dets[i]) >= 1.0 then [RowOf(dets[i])] else [])
  {
    assert dets[..i + 1][..i] == dets[..i];
  }

  /** The rows at or above the confidence threshold, in order. */
  function Confident(rows: seq<DetectionRow>, threshold: real): (r: seq<DetectionRow>)
    ensures forall x :: x in r <==> x in rows && x.confidence >= threshold
  {
    if rows == [] then []
    else
      var n := |rows| - 1;
      assert forall x :: x in rows <==> x in rows[..n] || x == rows[n];
      Confident(rows[..n], threshold) + (if rows[n].confidence >= threshold then [rows[n]] else [])
  }

  /** The box of a row: corner (x1, y1), width x2-x1, height y2-y1. */
  function RowShape(row: DetectionRow, ellipse: bool): Shape {
    if ellipse then Ellipse(row.x1, row.y1, row.x2 - row.x1, row.y2 - row.y1)
    else Rectangle(row.x1, row.y1, row.x2 - row.x1, row.y2 - row.y1)
  }

  /** What `convert_to_prediction` makes of the rows: every label is looked up
      first (an unknown index fails even for a row the threshold then skips);
      rows below the threshold are skipped. */
  function DetectionAnnotations(idx: map<int, Label>, rows: seq<DetectionRow>,
                                threshold: real, ellipse: bool): (r: Result<Prediction>)
    ensures r.Ok? <==> forall i :: 0 <= i < |rows| ==> rows[i].labelIndex in idx
    ensures r.Err? ==> r.error == KeyError
  {
    if rows == [] then Ok([])
    else
      var n := |rows| - 1;
      match DetectionAnnotations(idx, rows[..n], threshold, ellipse)
      case Err(e) => Err(e)
      case Ok(prev) =>
        if rows[n].labelIndex !in idx then Err(KeyError)
        else if rows[n].confidence < threshold then Ok(prev)
        else Ok(prev + [Annotation(RowShape(rows[n], ellipse),
                                   [ScoredLabel(idx[rows[n].labelIndex], rows[n].confidence)])])
  }

  /** The annotation made of a kept row: a rectangle (or an ellipse) with corner
      (x1, y1), width x2-x1 and height y2-y1, labelled with the row's label at
      the row's confidence. */
  predicate AnnotatesRow(a: Annotation, row: DetectionRow, idx: map<int, Label>, ellipse: bool)
    requires row.labelIndex in idx
  {
    && a.labels == [ScoredLabel(idx[row.labelIndex], row.confidence)]
    && (a.shape.Ellipse? <==> ellipse)
    && (a.shape.Ellipse? || a.shape.Rectangle?)
    && a.shape.x == row.x1 && a.shape.y == row.y1
    && a.shape.width == row.x2 - row.x1
    && a.shape.height == row.y2 - row.y1
  }

  /** One annotation per confident row, in order. */
  lemma {:induction false} DetectionAnnotationsSpec(idx: map<int, Label>, rows: seq<DetectionRow>,
                                                    threshold: real, ellipse: bool)
    requires DetectionAnnotations(idx, rows, threshold, ellipse).Ok?
    ensures var p := DetectionAnnotations(idx, rows, threshold, ellipse).value;
            var kept := Confident(rows, threshold);
            && |p| == |kept|
            && forall i :: 0 <= i < |p| ==> kept[i].labelIndex in idx && AnnotatesRow(p[i], kept[i], idx, ellipse)
  {
    if rows != [] {
      var n := |rows| - 1;
      var front := rows[..n];
      assert forall i :: 0 <= i < n ==> front[i] == rows[i];
      DetectionAnnotationsSpec(idx, front, threshold, ellipse);
      var prev := DetectionAnnotations(idx, front, threshold, ellipse).value;
      var keptPrev := Confident(front, threshold);
      var p := DetectionAnnotations(idx, rows, threshold, ellipse).value;
      var kept := Confident(rows, threshold);
      if rows[n].confidence >= threshold {
        var a := Annotation(RowShape(rows[n], ellipse), [ScoredLabel(idx[rows[n].labelIndex], rows[n].confidence)]);
        assert p == prev + [a];
        assert kept == keptPrev + [rows[n]];
        assert AnnotatesRow(a, rows[n], idx, ellipse);
        forall i | 0 <= i < |p|
          ensures kept[i].labelIndex in idx && AnnotatesRow(p[i], kept[i], idx, ellipse)
        {
          if i < |prev| {
            assert p[i] == prev[i] && kept[i] == keptPrev[i];
          }
        }
      } else {
        assert p == prev;
        assert kept == keptPrev;
      }
    }
  }

  // ---------------------------------------------------------------------------
  // Rotated detection and instance segmentation (lines 384-493)
  // ---------------------------------------------------------------------------

  /** A contour the loops keep: an outer contour (no parent in the hierarchy)
      with more than two points and an area of at least 1. */
  predicate IsOuterContour(c: Contour) {
    c.parent == -1 && |c.points| > 2 && c.area >= 1.0
  }

  predicate HasOuterContour(cs: seq<Contour>) {
    exists c :: c in cs && IsOuterContour(c)
  }

  /** The box of a segmented object, as an ellipse. */
  function ObjectEllipse(o: SegmentedObject): Shape {
    Ellipse(o.xmin, o.ymin, o.xmax - o.xmin, o.ymax - o.ymin)
  }

  /** One rotated rectangle per kept contour: the corners of its minimum-area rectangle. */
  function RotatedBoxes(cs: seq<Contour>, lbl: Label, score: real): (r: seq<Annotation>)
    ensures |r| <= |cs|
    ensures forall a :: a in r ==>
              (a.labels == [ScoredLabel(lbl, score)] &&
               exists c :: c in cs && IsOuterContour(c) && a.shape == RotatedRectangle(c.minAreaCorners))
    ensures forall c :: c in cs && IsOuterContour(c) ==>
              Annotation(RotatedRectangle(c.minAreaCorners), [ScoredLabel(lbl, score)]) in r
  {
    if cs == [] then []
    else
      var n := |cs| - 1;
      assert forall c :: c in cs <==> c in cs[..n] || c == cs[n];
      RotatedBoxes(cs[..n], lbl, score)
        + (if IsOuterContour(cs[n]) then [Annotation(RotatedRectangle(cs[n].minAreaCorners), [ScoredLabel(lbl, score)])]
           else [])
  }

  /** One polygon per kept contour, with the contour's own points. */
  function ContourPolygons(cs: seq<Contour>, lbl: Label, score: real): (r: seq<Annotation>)
    ensures |r| <= |cs|
    ensures r == [] <==> !HasOuterContour(cs)
    ensures forall a :: a in r ==>
              (a.labels == [ScoredLabel(lbl, score)] &&
               exists c :: c in cs && IsOuterContour(c) && a.shape == Polygon(c.points))
    ensures forall c :: c in cs && IsOuterContour(c) ==>
              Annotation(Polygon(c.points), [ScoredLabel(lbl, score)]) in r
  {
    if cs == [] then []
    else
      var n := |cs| - 1;
      assert forall c :: c in cs <==> c in cs[..n] || c == cs[n];
      ContourPolygons(cs[..n], lbl, score)
        + (if IsOuterContour(cs[n]) then [Annotation(Polygon(cs[n].points), [ScoredLabel(lbl, score)])] else [])
  }

  /** The annotations of one object the rotated converter keeps. */
  function RotatedObjectAnnotations(o: SegmentedObject, lbl: Label, ellipse: bool): seq<Annotation> {
    if ellipse then [Annotation(ObjectEllipse(o), [ScoredLabel(lbl, o.score)])]
    else RotatedBoxes(o.contours, lbl, o.score)
  }

  /** Rotated detection: every object's label is looked up first; objects below
      the threshold or with the empty label are skipped. */
  function RotatedAnnotations(idx: map<int, Label>, objs: seq<SegmentedObject>,
                              threshold: real, ellipse: bool): (r: Result<Prediction>)
    ensures r.Ok? <==> forall i :: 0 <= i < |objs| ==> objs[i].id in idx
    ensures r.Err? ==> r.error == KeyError
    ensures r.Ok? ==> forall a :: a in r.value ==>
              |a.labels| == 1 && a.labels[0].probability >= threshold && !a.labels[0].lbl.isEmpty &&
              (ellipse ==> a.shape.Ellipse?) && (!ellipse ==> a.shape.RotatedRectangle?)
  {
    if objs == [] then Ok([])
    else
      var n := |objs| - 1;
      var o := objs[n];
      match RotatedAnnotations(idx, objs[..n], threshold, ellipse)
      case Err(e) => Err(e)
      case Ok(prev) =>
        if o.id !in idx then Err(KeyError)
        else if o.score < threshold || idx[o.id].isEmpty then Ok(prev)
        else Ok(prev + RotatedObjectAnnotations(o, idx[o.id], ellipse))
  }

  /** Every object at or above the threshold whose label is not empty contributes
      its ellipse, or a rotated rectangle per kept contour. */
  lemma {:induction false} RotatedAnnotationsComplete(idx: map<int, Label>, objs: seq<SegmentedObject>,
                                                      threshold: real, ellipse: bool, j: int)
    requires RotatedAnnotations(idx, objs, threshold, ellipse).Ok?
    requires 0 <= j < |objs| && objs[j].score >= threshold && !idx[objs[j].id].isEmpty
    ensures forall a :: a in RotatedObjectAnnotations(objs[j], idx[objs[j].id], ellipse) ==>
              a in RotatedAnnotations(idx, objs, threshold, ellipse).value
  {
    var n := |objs| - 1;
    if j < n {
      assert objs[..n][j] == objs[j];
      RotatedAnnotationsComplete(idx, objs[..n], threshold, ellipse, j);
    }
  }

  /** The annotations of one object the mask converter keeps; the label is
      looked up only when an annotation is made. */
  function MaskObjectAnnotations(idx: map<int, Label>, o: SegmentedObject, ellipse: bool): (r: Result<seq<Annotation>>)
    ensures r.Err? <==> o.id !in idx && (ellipse || HasOuterContour(o.contours))
    ensures r.Err? ==> r.error == KeyError
    ensures r.Ok? ==> forall a :: a in r.value ==> o.id in idx && a.labels == [ScoredLabel(idx[o.id], o.score)]
  {
    if ellipse then
      if o.id in idx then Ok([Annotation(ObjectEllipse(o), [ScoredLabel(idx[o.id], o.score)])]) else Err(KeyError)
    else if !HasOuterContour(o.contours) then Ok([])
    else if o.id in idx then Ok(ContourPolygons(o.contours, idx[o.id], o.score))
    else Err(KeyError)
  }

  /** Instance segmentation: objects below the threshold are skipped before any
      lookup; unlike rotated detection, the empty label is not filtered out. */
  function MaskAnnotations(idx: map<int, Label>, objs: seq<SegmentedObject>,
                           threshold: real, ellipse: bool): (r: Result<Prediction>)
    ensures r.Ok? <==> forall i :: (0 <= i < |objs| && objs[i].score >= threshold &&
                                  (ellipse || HasOuterContour(objs[i].contours))) ==> objs[i].id in idx
    ensures r.Err? ==> r.error == KeyError
    ensures r.Ok? ==> forall a :: a in r.value ==>
              |a.labels| == 1 && a.labels[0].probability >= threshold && a.labels[0].lbl in idx.Values &&
              (ellipse ==> a.shape.Ellipse?) && (!ellipse ==> a.shape.Polygon?)
  {
    if objs == [] then Ok([])
    else
      var n := |objs| - 1;
      var o := objs[n];
      match MaskAnnotations(idx, objs[..n], threshold, ellipse)
      case Err(e) => Err(e)
      case Ok(prev) =>
        if o.score < threshold then Ok(prev)
        else
          match MaskObjectAnnotations(idx, o, ellipse)
          case Err(e) => Err(e)
          case Ok(anns) => Ok(prev + anns)
  }

  /** Every object at or above the threshold contributes all of its annotations:
      its ellipse, or a polygon per kept contour. */
  lemma {:induction false} MaskAnnotationsComplete(idx: map<int, Label>, objs: seq<SegmentedObject>,
                                                   threshold: real, ellipse: bool, j: int)
    requires MaskAnnotations(idx, objs, threshold, ellipse).Ok?
    requires 0 <= j < |objs| && objs[j].score >= threshold
    ensures MaskObjectAnnotations(idx, objs[j], ellipse).Ok?
    ensures forall a :: a in MaskObjectAnnotations(idx, objs[j], ellipse).value ==>
              a in MaskAnnotations(idx, objs, threshold, ellipse).value
  {
    var n := |objs| - 1;
    if j < n {
      assert objs[..n][j] == objs[j];
      MaskAnnotationsComplete(idx, objs[..n], threshold, ellipse, j);
    }
  }

  // ---------------------------------------------------------------------------
  // Semantic segmentation (lines 544-575)
  // ---------------------------------------------------------------------------

  /** Segmentation indices are shifted by one: index 0 is the background, which
      reads entry -1, where the empty label is stored. */
  function ShiftedIndexTable(idx: map<int, Label>, emptyLabel: Option<Label>): map<int, Label> {
    if emptyLabel.Some? then idx[-1 := emptyLabel.value] else idx
  }

  /** Whether or not -1 already held the empty label, writing it there again
      gives the same table. */
  lemma ShiftedIndexTableForm(rs: seq<Label>, emptyLabel: Option<Label>, idx: map<int, Label>)
    requires idx == IndexMap(rs) || (emptyLabel.Some? && idx == IndexMap(rs)[-1 := emptyLabel.value])
    ensures emptyLabel.Some? ==> ShiftedIndexTable(idx, emptyLabel) == IndexMap(rs)[-1 := emptyLabel.value]
    ensures emptyLabel.None? ==> ShiftedIndexTable(idx, emptyLabel) == IndexMap(rs)
  {
    if emptyLabel.Some? && idx != IndexMap(rs) {
      var m := IndexMap(rs)[-1 := emptyLabel.value];
      assert idx == m;
      assert m[-1 := emptyLabel.value] == m;
    }
  }

  /** The shifted table reads index 0 as the empty label (a `KeyError` when
      there is none), index i in 1..n as the (i-1)-th resolved label, and
      fails everywhere else. */
  lemma ShiftedLookup(rs: seq<Label>, emptyLabel: Option<Label>, t: map<int, Label>, i: int)
    requires emptyLabel.Some? ==> t == IndexMap(rs)[-1 := emptyLabel.value]
    requires emptyLabel.None? ==> t == IndexMap(rs)
    ensures i == 0 ==> (Lookup(t, i - 1).Ok? <==> emptyLabel.Some?)
    ensures i == 0 && emptyLabel.Some? ==> Lookup(t, i - 1) == Ok(emptyLabel.value)
    ensures 1 <= i <= |rs| ==> Lookup(t, i - 1) == Ok(rs[i - 1])
    ensures i < 0 || i > |rs| ==> Lookup(t, i - 1) == Err(KeyError)
  {
    var m := IndexMap(rs);
    if emptyLabel.Some? && 1 <= i <= |rs| {
      assert i - 1 in m && t[i - 1] == m[i - 1];
    }
  }

  /** Writing the empty label at -1 (again) and looking up index i at i-1. */
  lemma ShiftedIndexTableLookup(rs: seq<Label>, emptyLabel: Option<Label>, idx: map<int, Label>, i: int)
    requires idx == IndexMap(rs) || (emptyLabel.Some? && idx == IndexMap(rs)[-1 := emptyLabel.value])
    ensures var t := ShiftedIndexTable(idx, emptyLabel);
            && (t == IndexMap(rs) || (emptyLabel.Some? && t == IndexMap(rs)[-1 := emptyLabel.value]))
            && (i == 0 ==> (Lookup(t, i - 1).Ok? <==> emptyLabel.Some?))
            && (i == 0 && emptyLabel.Some? ==> Lookup(t, i - 1) == Ok(emptyLabel.value))
            && (1 <= i <= |rs| ==> Lookup(t, i - 1) == Ok(rs[i - 1]))
            && (i < 0 || i > |rs| ==> Lookup(t, i - 1) == Err(KeyError))
  {
    ShiftedIndexTableForm(rs, emptyLabel, idx);
    ShiftedLookup(rs, emptyLabel, ShiftedIndexTable(idx, emptyLabel), i);
  }

  /** A contour the segmentation converter keeps: it has points, its label is not
      the empty label, and the approximated curve has more than two points. */
  predicate IsKeptSegment(c: SegmentationContour, lbl: Label) {
    |c.points| > 0 && !lbl.isEmpty && c.approxCurveLength > 2
  }

  function SegmentationAnnotations(strToLabel: map<string, Label>, cs: seq<SegmentationContour>): (r: Result<Prediction>)
    ensures r.Ok? <==> forall i :: 0 <= i < |cs| ==> cs[i].labelText in strToLabel
    ensures r.Err? ==> r.error == KeyError
    ensures r.Ok? ==> |r.value| <= |cs| && forall a :: a in r.value ==>
              a.shape.Polygon? && |a.shape.points| > 0 && |a.labels| == 1 && !a.labels[0].lbl.isEmpty
  {
    if cs == [] then Ok([])
    else
      var n := |cs| - 1;
      var c := cs[n];
      match SegmentationAnnotations(strToLabel, cs[..n])
      case Err(e) => Err(e)
      case Ok(prev) =>
        if c.labelText !in strToLabel then Err(KeyError)
        else if IsKeptSegment(c, strToLabel[c.labelText]) then
          Ok(prev + [Annotation(Polygon(c.points), [ScoredLabel(strToLabel[c.labelText], c.probability)])])
        else Ok(prev)
  }

  /** The contours the segmentation converter keeps, in their order: a filter. */
  function KeptSegments(strToLabel: map<string, Label>, cs: seq<SegmentationContour>): (ks: seq<SegmentationContour>)
    requires forall i :: 0 <= i < |cs| ==> cs[i].labelText in strToLabel
    ensures |ks| <= |cs|
    ensures forall c :: c in ks <==> c in cs && IsKeptSegment(c, strToLabel[c.labelText])
  {
    if cs == [] then []
    else
      var n := |cs| - 1;
      assert forall c :: c in cs <==> c in cs[..n] || c == cs[n];
      KeptSegments(strToLabel, cs[..n]) + (if IsKeptSegment(cs[n], strToLabel[cs[n].labelText]) then [cs[n]] else [])
  }

  /** The polygon annotation made from one kept contour. */
  function SegmentPolygon(strToLabel: map<string, Label>, c: SegmentationContour): Annotation
    requires c.labelText in strToLabel
  {
    Annotation(Polygon(c.points), [ScoredLabel(strToLabel[c.labelText], c.probability)])
  }

  /** Semantic segmentation is a filter followed by a map: the result is exactly
      one polygon per kept contour, in the contours' order. */
  lemma {:induction false} SegmentationAnnotationsSpec(strToLabel: map<string, Label>, cs: seq<SegmentationContour>)
    requires forall i :: 0 <= i < |cs| ==> cs[i].labelText in strToLabel
    ensures SegmentationAnnotations(strToLabel, cs).Ok?
    ensures var r := SegmentationAnnotations(strToLabel, cs).value;
            var ks := KeptSegments(strToLabel, cs);
            |r| == |ks| && forall i :: 0 <= i < |ks| ==> r[i] == SegmentPolygon(strToLabel, ks[i])
  {
    if cs != [] {
      var n := |cs| - 1;
      var c := cs[n];
      SegmentationAnnotationsSpec(strToLabel, cs[..n]);
      var prev := SegmentationAnnotations(strToLabel, cs[..n]).value;
      var kprev := KeptSegments(strToLabel, cs[..n]);
      if IsKeptSegment(c, strToLabel[c.labelText]) {
        assert SegmentationAnnotations(strToLabel, cs).value == prev + [SegmentPolygon(strToLabel, c)];
        assert KeptSegments(strToLabel, cs) == kprev + [c];
      } else {
        assert SegmentationAnnotations(strToLabel, cs).value == prev;
        assert KeptSegments(strToLabel, cs) == kprev;
      }
    }
  }

  // ---------------------------------------------------------------------------
  // Anomaly (lines 609-681)
  // ---------------------------------------------------------------------------

  /** `next(label for label in labels if ...)`: the first label meeting `anomalous`, or `StopIteration`. */
  function FirstWithAnomalous(ls: seq<Label>, anomalous: bool): (r: Result<Label>)
    ensures r.Ok? ==> r.value in ls && r.value.isAnomalous == anomalous
    ensures r.Ok? ==> exists i :: 0 <= i < |ls| && ls[i] == r.value &&
                                  forall j :: 0 <= j < i ==> ls[j].isAnomalous != anomalous
    ensures r.Err? <==> forall l :: l in ls ==> l.isAnomalous != anomalous
    ensures r.Err? ==> r.error == StopIteration
  {
    if ls == [] then Err(StopIteration)
    else if ls[0].isAnomalous == anomalous then Ok(ls[0])
    else FirstWithAnomalous(ls[1..], anomalous)
  }

  /** The predicted label text names an anomaly, ignoring case. */
  predicate IsAnomalousText(predLabel: string) {
    var t := Lower(predLabel);
    t == "anomaly" || t == "anomalous"
  }

  function ChosenLabel(normal: Label, anomalous: Label, predLabel: string): Label {
    if IsAnomalousText(predLabel) then anomalous else normal
  }

  /** One rectangle per predicted box, each labelled anomalous at the prediction's score. */
  function AnomalyBoxes(boxes: seq<Box>, anomalous: Label, score: real): (r: seq<Annotation>)
    ensures |r| == |boxes|
    ensures forall i :: 0 <= i < |boxes| ==>
              r[i].labels == [ScoredLabel(anomalous, score)] &&
              r[i].shape == Rectangle(boxes[i].x1, boxes[i].y1, boxes[i].x2 - boxes[i].x1, boxes[i].y2 - boxes[i].y1)
  {
    if boxes == [] then []
    else
      var n := |boxes| - 1;
      var b := boxes[n];
      AnomalyBoxes(boxes[..n], anomalous, score)
        + [Annotation(Rectangle(b.x1, b.y1, b.x2 - b.x1, b.y2 - b.y1), [ScoredLabel(anomalous, score)])]
  }

  /** The annotations of the domain's branch, before the fallback; a converter
      built without a domain fails with `AttributeError`. */
  function DomainAnnotations(domain: Option<Domain>, normal: Label, anomalous: Label,
                             result: AnomalyResult, imageShape: ImageShape): (r: Result<Prediction>)
    ensures r.Err? <==> domain.None? || !IsAnomalyDomain(domain.value)
    ensures r.Err? ==> r.error == (if domain.None? then AttributeError else ValueError)
  {
    if domain.None? then Err(AttributeError)
    else
      match domain.value
      case AnomalyClassification | Anomaly =>
        Ok([Annotation(FullImageBox(imageShape), [ScoredLabel(ChosenLabel(normal, anomalous, result.predLabel), result.predScore)])])
      case AnomalySegmentation => Ok(result.segmentationAnnotations)
      case AnomalyDetection => Ok(AnomalyBoxes(result.predBoxes, anomalous, result.predScore))
      case _ => Err(ValueError)
  }

  /** The full-image normal annotation at probability 0 that replaces an empty result. */
  function NormalFallback(normal: Label, imageShape: ImageShape): Annotation {
    Annotation(FullImageBox(imageShape), [ScoredLabel(normal, 0.0)])
  }

  function AnomalyPrediction(domain: Option<Domain>, normal: Label, anomalous: Label,
                             result: AnomalyResult, imageShape: ImageShape): (r: Result<Prediction>)
    ensures r.Err? <==> domain.None? || !IsAnomalyDomain(domain.value)
    ensures r.Err? ==> r.error == (if domain.None? then AttributeError else ValueError)
    ensures r.Ok? ==> |r.value| >= 1
  {
    match DomainAnnotations(domain, normal, anomalous, result, imageShape)
    case Err(e) => Err(e)
    case Ok(anns) => Ok(if anns == [] then [NormalFallback(normal, imageShape)] else anns)
  }

  /** Lowering twice is lowering once. */
  lemma LowerIdempotent(s: string)
    ensures Lower(Lower(s)) == Lower(s)
  {
    assert forall i :: 0 <= i < |s| ==> Lower(Lower(s))[i] == Lower(s)[i];
  }

  /** The anomalous label is chosen whatever the case of the predicted text. */
  lemma AnomalousTextIgnoresCase(s: string)
    ensures IsAnomalousText(Lower(s)) <==> IsAnomalousText(s)
  {
    LowerIdempotent(s);
  }

  lemma AnomalousTextExamples()
    ensures IsAnomalousText("Anomalous") && IsAnomalousText("ANOMALY") && IsAnomalousText("anomaly")
    ensures !IsAnomalousText("Normal") && !IsAnomalousText("anomalies")
  {
    assert Lower("Anomalous") == "anomalous";
    assert Lower("ANOMALY") == "anomaly";
    assert Lower("anomaly") == "anomaly";
    assert |Lower("Normal")| == 6;
    assert Lower("anomalies")[7] == 'e';
  }

  /** Anomaly classification: one full-image annotation with the chosen label at
      the predicted score; the label is anomalous exactly for "anomaly" or
      "anomalous" in any case, normal otherwise. */
  lemma AnomalyClassificationLabel(domain: Domain, normal: Label, anomalous: Label,
                                   result: AnomalyResult, imageShape: ImageShape)
    requires domain.AnomalyClassification? || domain.Anomaly?
    ensures var r := AnomalyPrediction(Some(domain), normal, anomalous, result, imageShape);
            && r.Ok? && |r.value| == 1
            && r.value[0].shape == FullBox(imageShape.width, imageShape.height)
            && |r.value[0].labels| == 1
            && r.value[0].labels[0].probability == result.predScore
            && (IsAnomalousText(result.predLabel) ==> r.value[0].labels[0].lbl == anomalous)
            && (!IsAnomalousText(result.predLabel) ==> r.value[0].labels[0].lbl == normal)
  {
  }

  /** An empty branch result is replaced by the normal label at probability 0 over
      the whole image; any other result is returned unchanged. */
  lemma AnomalyFallback(domain: Option<Domain>, normal: Label, anomalous: Label,
                        result: AnomalyResult, imageShape: ImageShape)
    requires DomainAnnotations(domain, normal, anomalous, result, imageShape).Ok?
    ensures var anns := DomainAnnotations(domain, normal, anomalous, result, imageShape).value;
            var r := AnomalyPrediction(domain, normal, anomalous, result, imageShape);
            && (anns == [] ==> r == Ok([Annotation(FullBox(imageShape.width, imageShape.height),
                                                   [ScoredLabel(normal, 0.0)])]))
            && (anns != [] ==> r == Ok(anns))
  {
  }

  /** Anomaly detection labels every box anomalous, whatever the predicted label
      text says; without boxes the result is the normal fallback. */
  lemma AnomalyDetectionLabels(normal: Label, anomalous: Label, result: AnomalyResult, imageShape: ImageShape)
    ensures var r := AnomalyPrediction(Some(AnomalyDetection), normal, anomalous, result, imageShape);
            && r.Ok?
            && (|result.predBoxes| > 0 ==>
                  |r.value| == |result.predBoxes| &&
                  forall a :: a in r.value ==> a.labels == [ScoredLabel(anomalous, result.predScore)])
            && (|result.predBoxes| == 0 ==> r.value == [NormalFallback(normal, imageShape)])
  {
    var anns := AnomalyBoxes(result.predBoxes, anomalous, result.predScore);
    assert |result.predBoxes| > 0 ==> anns != [];
  }
}
