/** The converter classes of results_to_prediction_converter.py. Subclasses hold
    the converter they extend (`base`, or `detector` for the two converters that
    extend the detection converter); a constructor that can raise becomes a
    static `Create` returning a `Result`. */
module ResultsConverter {
  import opened Wrappers
  import opened ModelTypes
  import opened LabelTables
  import opened ConverterSpecs

  /** The base constructor completes: the configuration has labels and every
      ModelAPI label string resolves. */
  ghost predicate TablesBuild(labelList: seq<Label>, configuration: Configuration) {
    configuration.labels.Some? &&
    ResolveModelLabels(IdMap(labelList), LegacyLabelMap(labelList, EmptyLabel(labelList)),
                       ModelApiLabels(configuration.labels.value)).Ok?
  }

  /** The loop of `__init__` over the ModelAPI label strings (lines 79-88): each
      string is resolved with the number of its earlier occurrences as
      `pos_idx`, then entered at its index, under its text, and counted. */
  method LoadTables(ids: map<string, Label>, legacy: map<string, seq<Label>>, names: seq<string>)
    returns (r: Result<(map<int, Label>, map<string, Label>, map<string, nat>)>)
    ensures r.Ok? <==> ResolveModelLabels(ids, legacy, names).Ok?
    ensures r.Err? ==> r.error == ValueError
    ensures r.Ok? ==> var rs := ResolveModelLabels(ids, legacy, names).value;
                      && |rs| == |names|
                      && r.value.0 == IndexMap(rs)
                      && r.value.1 == LastWins(names, rs)
                      && r.value.2 == CountMap(names)
  {
    var idx: map<int, Label> := map[];
    var strs: map<string, Label> := map[];
    var counts: map<string, nat> := map[];
    var rs: seq<Label> := [];
    LoadStart(ids, legacy, names);
    for j := 0 to |names|
      invariant ResolveModelLabels(ids, legacy, names[..j]) == Ok(rs)
      invariant idx == IndexMap(rs)
      invariant strs == LastWins(names[..j], rs)
      invariant counts == CountMap(names[..j])
    {
      var s := names[j];
      var pos := if s in counts then counts[s] else 0;
      LoadLookup(ids, legacy, names, j, counts);
      var found := ResolveLabel(ids, legacy, s, pos);
      if found.Err? {
        ResolveModelLabelsFails(ids, legacy, names, j);
        return Err(found.error);
      }
      LoadStep(ids, legacy, names, j, rs, idx, strs, counts, pos, found.value);
      idx := idx[j := found.value];
      strs := strs[s := found.value];
      counts := counts[s := pos + 1];
      rs := rs + [found.value];
    }
    assert names[..|names|] == names;
    return Ok((idx, strs, counts));
  }

  class InferenceResultsToPredictionConverter {
    /** The label list the converter was built from, and the ModelAPI label
        strings with the labels they resolved to. */
    ghost const labelList: seq<Label>
    ghost var modelLabels: seq<string>
    ghost var resolved: seq<Label>

    var labels: seq<Label>
    var emptyLabel: Option<Label>
    var labelMapIds: map<string, Label>
    var legacyLabelMapNames: map<string, seq<Label>>
    var idxToLabel: map<int, Label>
    var strToLabel: map<string, Label>
    var modelApiLabelMapCounts: map<string, nat>

    /** The tables built from the label list. */
    ghost predicate LabelTablesBuilt()
      reads this`labels, this`emptyLabel, this`labelMapIds, this`legacyLabelMapNames
    {
      && labels == NonEmptyLabels(labelList)
      && emptyLabel == EmptyLabel(labelList)
      && labelMapIds == IdMap(labelList)
      && legacyLabelMapNames == LegacyLabelMap(labelList, emptyLabel)
    }

    /** All tables agree with the label list and the ModelAPI labels; the index
        table may also hold the empty label at -1, written by the segmentation
        converter. */
    ghost predicate Valid()
      reads this
    {
      NameTablesValid() && IndexTableValid()
    }

    /** Every table but the index table agrees with the label list and the
        ModelAPI labels. */
    ghost predicate NameTablesValid()
      reads this`labels, this`emptyLabel, this`labelMapIds, this`legacyLabelMapNames
      reads this`modelLabels, this`resolved, this`strToLabel, this`modelApiLabelMapCounts
    {
      && LabelTablesBuilt()
      && |resolved| == |modelLabels|
      && ResolveModelLabels(labelMapIds, legacyLabelMapNames, modelLabels) == Ok(resolved)
      && strToLabel == LastWins(modelLabels, resolved)
      && modelApiLabelMapCounts == CountMap(modelLabels)
    }

    /** The index table maps i to the i-th resolved label, and possibly -1 to
        the empty label. */
    ghost predicate IndexTableValid()
      reads this`idxToLabel, this`resolved, this`emptyLabel
    {
      || idxToLabel == IndexMap(resolved)
      || (emptyLabel.Some? && idxToLabel == IndexMap(resolved)[-1 := emptyLabel.value])
    }

    /** The label-list half of `__init__`: the id map and the legacy name map. */
    constructor (labelList: seq<Label>)
      ensures this.labelList == labelList && LabelTablesBuilt()
      ensures modelLabels == [] && resolved == []
      ensures idxToLabel == map[] && strToLabel == map[] && modelApiLabelMapCounts == map[]
    {
      this.labelList := labelList;
      labels := NonEmptyLabels(labelList);
      var empty := EmptyLabel(labelList);
      emptyLabel := empty;
      var ids: map<string, Label> := map[];
      var legacy: map<string, seq<Label>> := map[];
      for i := 0 to |labelList|
        invariant ids == IdMap(labelList[..i])
        invariant legacy == LegacyNames(labelList[..i])
      {
        var l := labelList[i];
        ids := ids[l.id := l];
        legacy := Register(legacy, Underscored(l.name), l);
        legacy := Register(legacy, l.name, l);
        IdMapPrefixStep(labelList, i);
        LegacyNamesPrefixStep(labelList, i);
      }
      assert labelList[..|labelList|] == labelList;
      labelMapIds := ids;
      legacyLabelMapNames := legacy[OtxEmptyLabelName := if empty.Some? then [empty.value] else []];
      modelLabels := [];
      resolved := [];
      idxToLabel := map[];
      strToLabel := map[];
      modelApiLabelMapCounts := map[];
    }

    /** The ModelAPI half of `__init__`: the index table, the string table and
        the counter; `ValueError` when a string does not resolve. */
    method LoadModelLabels(names: seq<string>) returns (r: Result<()>)
      modifies this
      ensures labels == old(labels) && emptyLabel == old(emptyLabel)
      ensures labelMapIds == old(labelMapIds) && legacyLabelMapNames == old(legacyLabelMapNames)
      ensures r.Ok? <==> ResolveModelLabels(labelMapIds, legacyLabelMapNames, names).Ok?
      ensures r.Err? ==> r.error == ValueError
      ensures r.Ok? ==> && modelLabels == names && |resolved| == |names|
                        && ResolveModelLabels(labelMapIds, legacyLabelMapNames, names) == Ok(resolved)
                        && idxToLabel == IndexMap(resolved)
                        && strToLabel == LastWins(names, resolved)
                        && modelApiLabelMapCounts == CountMap(names)
    {
      var tables := LoadTables(labelMapIds, legacyLabelMapNames, names);
      if tables.Err? {
        return Err(tables.error);
      }
      var (idx, strs, counts) := (tables.value.0, tables.value.1, tables.value.2);
      idxToLabel, strToLabel, modelApiLabelMapCounts := idx, strs, counts;
      modelLabels := names;
      resolved := ResolveModelLabels(labelMapIds, legacyLabelMapNames, names).value;
      return Ok(());
    }

    /** `__init__`: `KeyError` without `labels` in the configuration, `ValueError`
        when a ModelAPI label string does not resolve; otherwise the index table
        has one entry per ModelAPI label, at keys 0..n-1. */
    static method Create(labelList: seq<Label>, configuration: Configuration)
      returns (r: Result<InferenceResultsToPredictionConverter>)
      ensures configuration.labels.None? ==> r == Err(KeyError)
      ensures configuration.labels.Some? && r.Err? ==> r == Err(ValueError)
      ensures r.Ok? <==> TablesBuild(labelList, configuration)
      ensures r.Ok? ==> fresh(r.value) && r.value.Valid() && r.value.labelList == labelList
      ensures r.Ok? ==> r.value.modelLabels == ModelApiLabels(configuration.labels.value)
      ensures r.Ok? ==> r.value.idxToLabel == IndexMap(r.value.resolved)
    {
      if configuration.labels.None? {
        return Err(KeyError);
      }
      var c := new InferenceResultsToPredictionConverter(labelList);
      var loaded := c.LoadModelLabels(ModelApiLabels(configuration.labels.value));
      if loaded.Err? {
        return Err(loaded.error);
      }
      return Ok(c);
    }

    /** `get_label_by_idx`: the label the index-th ModelAPI label resolved to;
        `KeyError` outside 0..n-1 (and at -1 unless the empty label was stored there). */
    function GetLabelByIdx(i: int): (r: Result<Label>)
      reads this
      ensures r.Err? ==> r.error == KeyError
      ensures Valid() && i >= 0 ==> (r.Ok? <==> i < |resolved|)
      ensures Valid() && 0 <= i < |resolved| ==> r == Ok(resolved[i])
      ensures Valid() && i == -1 && r.Ok? ==> emptyLabel == Some(r.value)
      ensures Valid() && i < -1 ==> r.Err?
    {
      Lookup(idxToLabel, i)
    }

    /** `get_label_by_str`: `KeyError` for a string that is not a ModelAPI label. */
    function GetLabelByStr(s: string): (r: Result<Label>)
      reads this
      ensures r.Err? ==> r.error == KeyError
      ensures Valid() ==> (r.Ok? <==> s in modelLabels)
    {
      Lookup(strToLabel, s)
    }

    /** A repeated ModelAPI label string maps to the label of its last occurrence. */
    lemma GetLabelByStrIsLastOccurrence(s: string)
      requires Valid() && s in modelLabels
      ensures GetLabelByStr(s) == Ok(resolved[LastIndex(modelLabels, s)])
    {
      LastWinsLast(modelLabels, resolved, s);
    }
  }

  class ClassificationToPredictionConverter {
    const base: InferenceResultsToPredictionConverter

    constructor (base: InferenceResultsToPredictionConverter)
      ensures this.base == base
    {
      this.base := base;
    }

    static method Create(labelList: seq<Label>, configuration: Configuration)
      returns (r: Result<ClassificationToPredictionConverter>)
      ensures r.Ok? <==> TablesBuild(labelList, configuration)
      ensures r.Err? ==> r.error == (if configuration.labels.None? then KeyError else ValueError)
      ensures r.Ok? ==> fresh(r.value) && fresh(r.value.base) && r.value.base.Valid()
    {
      var b := InferenceResultsToPredictionConverter.Create(labelList, configuration);
      if b.Err? {
        return Err(b.error);
      }
      var c := new ClassificationToPredictionConverter(b.value);
      return Ok(c);
    }

    /** `convert_to_prediction`: one full-image annotation carrying a scored label
        per top label, or the empty label at probability 0 when there are none. */
    method ConvertToPrediction(topLabels: seq<TopLabel>, imageShape: ImageShape) returns (r: Result<Prediction>)
      ensures r == ClassificationPrediction(base.idxToLabel, topLabels, base.emptyLabel, imageShape)
    {
      var scored: seq<ScoredLabel> := [];
      for i := 0 to |topLabels|
        invariant TopScoredLabels(base.idxToLabel, topLabels[..i]) == Ok(scored)
      {
        var t := topLabels[i];
        var l := base.GetLabelByIdx(t.index);
        assert topLabels[..i + 1][..i] == topLabels[..i];
        if l.Err? {
          return Err(l.error);
        }
        scored := scored + [ScoredLabel(l.value, t.probability)];
      }
      assert topLabels[..|topLabels|] == topLabels;
      if scored == [] && base.emptyLabel.Some? {
        scored := [ScoredLabel(base.emptyLabel.value, 0.0)];
      }
      return Ok([Annotation(FullBox(imageShape.width, imageShape.height), scored)]);
    }

    /** `_get_label_by_prediction_name`, over the non-empty labels. */
    function GetLabelByPredictionName(name: string): (r: Result<Label>)
      reads this, base
      ensures base.Valid() && r.Ok? ==> r.value in base.labelList && !r.value.isEmpty
      ensures r.Ok? ==> r.value.name == name || Underscored(r.value.name) == name
      ensures r.Err? ==> r.error == KeyError
    {
      LabelByPredictionName(base.labels, name)
    }
  }

  class DetectionToPredictionConverter {
    const base: InferenceResultsToPredictionConverter
    var useEllipseShapes: bool
    var confidenceThreshold: real

    /** The settings of `__init__`: no ellipses and a threshold of 0 unless the
        configuration says otherwise. */
    constructor (base: InferenceResultsToPredictionConverter, configuration: Configuration)
      ensures this.base == base
      ensures useEllipseShapes == (configuration.useEllipseShapes.Some? && configuration.useEllipseShapes.value)
      ensures confidenceThreshold
           == (if configuration.confidenceThreshold.Some? then configuration.confidenceThreshold.value else 0.0)
    {
      this.base := base;
      useEllipseShapes := false;
      confidenceThreshold := 0.0;
      new;
      if configuration.useEllipseShapes.Some? {
        useEllipseShapes := configuration.useEllipseShapes.value;
      }
      if configuration.confidenceThreshold.Some? {
        confidenceThreshold := configuration.confidenceThreshold.value;
      }
    }

    static method Create(labelList: seq<Label>, configuration: Configuration)
      returns (r: Result<DetectionToPredictionConverter>)
      ensures r.Ok? <==> TablesBuild(labelList, configuration)
      ensures r.Err? ==> r.error == (if configuration.labels.None? then KeyError else ValueError)
      ensures r.Ok? ==> fresh(r.value) && fresh(r.value.base) && r.value.base.Valid()
      ensures r.Ok? ==> r.value.useEllipseShapes == (configuration.useEllipseShapes == Some(true))
      ensures r.Ok? ==> (r.value.confidenceThreshold
                         == if configuration.confidenceThreshold.Some? then configuration.confidenceThreshold.value else 0.0)
    {
      var b := InferenceResultsToPredictionConverter.Create(labelList, configuration);
      if b.Err? {
        return Err(b.error);
      }
      var c := new DetectionToPredictionConverter(b.value, configuration);
      return Ok(c);
    }

    /** `_detection2array`: the detections of area at least 1, as rows, in order. */
    static method Detection2Array(detections: seq<DetectedBox>) returns (rows: seq<DetectionRow>)
      ensures rows == KeptDetections(detections)
    {
      rows := [];
      for i := 0 to |detections|
        invariant rows == KeptDetections(detections[..i])
      {
        var det := detections[i];
        KeptDetectionsStep(detections, i);
        if Area(det) < 1.0 {
          continue;
        }
        rows := rows + [RowOf(det)];
      }
      assert detections[..|detections|] == detections;
    }

    /** `convert_to_prediction`: the kept rows, looked up and then filtered by
        confidence, as rectangles or ellipses. */
    method ConvertToPrediction(detections: seq<DetectedBox>) returns (r: Result<Prediction>)
      ensures r == DetectionAnnotations(base.idxToLabel, KeptDetections(detections),
                                        confidenceThreshold, useEllipseShapes)
    {
      var rows := Detection2Array(detections);
      var annotations: seq<Annotation> := [];
      for i := 0 to |rows|
        invariant DetectionAnnotations(base.idxToLabel, rows[..i], confidenceThreshold, useEllipseShapes)
               == Ok(annotations)
      {
        var row := rows[i];
        assert rows[..i + 1][..i] == rows[..i];
        var l := base.GetLabelByIdx(row.labelIndex);
        if l.Err? {
          return Err(l.error);
        }
        if row.confidence < confidenceThreshold {
          continue;
        }
        var width := row.x2 - row.x1;
        var height := row.y2 - row.y1;
        var shape := if useEllipseShapes then Ellipse(row.x1, row.y1, width, height)
                     else Rectangle(row.x1, row.y1, width, height);
        annotations := annotations + [Annotation(shape, [ScoredLabel(l.value, row.confidence)])];
      }
      assert rows[..|rows|] == rows;
      return Ok(annotations);
    }
  }

  /** The loop over one object's contours in rotated detection: a rotated
      rectangle per outer contour. */
  method RotatedBoxesOf(cs: seq<Contour>, lbl: Label, score: real) returns (boxes: seq<Annotation>)
    ensures boxes == RotatedBoxes(cs, lbl, score)
  {
    boxes := [];
    for k := 0 to |cs|
      invariant boxes == RotatedBoxes(cs[..k], lbl, score)
    {
      var contour := cs[k];
      assert cs[..k + 1][..k] == cs[..k];
      if contour.parent != -1 {
        continue;
      }
      if |contour.points| <= 2 || contour.area < 1.0 {
        continue;
      }
      boxes := boxes + [Annotation(RotatedRectangle(contour.minAreaCorners), [ScoredLabel(lbl, score)])];
    }
    assert cs[..|cs|] == cs;
  }

  /** The loop of rotated detection over the model's objects, given the
      converter's index table, threshold and shape choice. */
  method ConvertRotatedObjects(idx: map<int, Label>, objects: seq<SegmentedObject>, threshold: real, ellipse: bool)
    returns (r: Result<Prediction>)
    ensures r == RotatedAnnotations(idx, objects, threshold, ellipse)
  {
    var annotations: seq<Annotation> := [];
    for i := 0 to |objects|
      invariant RotatedAnnotations(idx, objects[..i], threshold, ellipse) == Ok(annotations)
    {
      var obj := objects[i];
      assert objects[..i + 1][..i] == objects[..i];
      var l := Lookup(idx, obj.id);
      if l.Err? {
        return Err(l.error);
      }
      var lbl := l.value;
      if obj.score < threshold || lbl.isEmpty {
        continue;
      }
      if ellipse {
        var shape := Ellipse(obj.xmin, obj.ymin, obj.xmax - obj.xmin, obj.ymax - obj.ymin);
        annotations := annotations + [Annotation(shape, [ScoredLabel(lbl, obj.score)])];
      } else {
        var boxes := RotatedBoxesOf(obj.contours, lbl, obj.score);
        annotations := annotations + boxes;
      }
    }
    assert objects[..|objects|] == objects;
    return Ok(annotations);
  }

  /** The work of instance segmentation on one object that passed the
      threshold: an ellipse, or a polygon per outer contour, the label being
      looked up for each annotation made. */
  method MaskObjectOf(idx: map<int, Label>, obj: SegmentedObject, ellipse: bool) returns (r: Result<seq<Annotation>>)
    ensures r == MaskObjectAnnotations(idx, obj, ellipse)
  {
    if ellipse {
      var shape := Ellipse(obj.xmin, obj.ymin, obj.xmax - obj.xmin, obj.ymax - obj.ymin);
      var l := Lookup(idx, obj.id);
      if l.Err? {
        return Err(l.error);
      }
      return Ok([Annotation(shape, [ScoredLabel(l.value, obj.score)])]);
    }
    r := ContourPolygonsOf(idx, obj);
  }

  /** The contour loop of one object: contours with a parent, too few points or
      too small an area are skipped, and the label is looked up at the first kept one. */
  method ContourPolygonsOf(idx: map<int, Label>, obj: SegmentedObject) returns (r: Result<seq<Annotation>>)
    ensures r == MaskObjectAnnotations(idx, obj, false)
  {
    var cs := obj.contours;
    var polygons: seq<Annotation> := [];
    for k := 0 to |cs|
      invariant HasOuterContour(cs[..k]) ==> obj.id in idx
      invariant polygons == if obj.id in idx then ContourPolygons(cs[..k], idx[obj.id], obj.score) else []
    {
      var contour := cs[k];
      OuterContourStep(cs, k);
      if obj.id in idx {
        ContourPolygonsStep(cs, k, idx[obj.id], obj.score);
      }
      if contour.parent != -1 {
        continue;
      }
      if |contour.points| <= 2 || contour.area < 1.0 {
        continue;
      }
      var l := Lookup(idx, obj.id);
      if l.Err? {
        return Err(l.error);
      }
      polygons := polygons + [Annotation(Polygon(contour.points), [ScoredLabel(l.value, obj.score)])];
    }
    assert cs[..|cs|] == cs;
    return Ok(polygons);
  }

  lemma OuterContourStep(cs: seq<Contour>, k: nat)
    requires k < |cs|
    ensures HasOuterContour(cs[..k + 1]) <==> HasOuterContour(cs[..k]) || IsOuterContour(cs[k])
  {
    assert cs[..k + 1] == cs[..k] + [cs[k]];
    if IsOuterContour(cs[k]) {
      assert cs[k] in cs[..k + 1];
    }
    if HasOuterContour(cs[..k]) {
      var c :| c in cs[..k] && IsOuterContour(c);
      assert c in cs[..k + 1];
    }
  }

  lemma ContourPolygonsStep(cs: seq<Contour>, k: nat, lbl: Label, score: real)
    requires k < |cs|
    ensures ContourPolygons(cs[..k + 1], lbl, score)
         == ContourPolygons(cs[..k], lbl, score)
            + (if IsOuterContour(cs[k]) then [Annotation(Polygon(cs[k].points), [ScoredLabel(lbl, score)])] else [])
  {
    assert cs[..k + 1][..k] == cs[..k];
  }

  /** The loop of instance segmentation over the model's objects. */
  method ConvertMaskObjects(idx: map<int, Label>, objects: seq<SegmentedObject>, threshold: real, ellipse: bool)
    returns (r: Result<Prediction>)
    ensures r == MaskAnnotations(idx, objects, threshold, ellipse)
  {
    var annotations: seq<Annotation> := [];
    for i := 0 to |objects|
      invariant MaskAnnotations(idx, objects[..i], threshold, ellipse) == Ok(annotations)
    {
      var obj := objects[i];
      assert objects[..i + 1][..i] == objects[..i];
      if obj.score < threshold {
        continue;
      }
      var more := MaskObjectOf(idx, obj, ellipse);
      if more.Err? {
        return Err(more.error);
      }
      annotations := annotations + more.value;
    }
    assert objects[..|objects|] == objects;
    return Ok(annotations);
  }

  class RotatedRectToPredictionConverter {
    const detector: DetectionToPredictionConverter

    constructor (detector: DetectionToPredictionConverter)
      ensures this.detector == detector
    {
      this.detector := detector;
    }

    static method Create(labelList: seq<Label>, configuration: Configuration)
      returns (r: Result<RotatedRectToPredictionConverter>)
      ensures r.Ok? <==> TablesBuild(labelList, configuration)
      ensures r.Err? ==> r.error == (if configuration.labels.None? then KeyError else ValueError)
      ensures r.Ok? ==> fresh(r.value) && fresh(r.value.detector) && fresh(r.value.detector.base)
      ensures r.Ok? ==> r.value.detector.base.Valid()
    {
      var d := DetectionToPredictionConverter.Create(labelList, configuration);
      if d.Err? {
        return Err(d.error);
      }
      var c := new RotatedRectToPredictionConverter(d.value);
      return Ok(c);
    }

    /** `convert_to_prediction`: objects below the threshold or with the empty
        label are skipped; the others give their box as an ellipse, or a rotated
        rectangle per outer contour of their mask. */
    method ConvertToPrediction(objects: seq<SegmentedObject>) returns (r: Result<Prediction>)
      ensures r == RotatedAnnotations(detector.base.idxToLabel, objects,
                                      detector.confidenceThreshold, detector.useEllipseShapes)
    {
      r := ConvertRotatedObjects(detector.base.idxToLabel, objects,
                                 detector.confidenceThreshold, detector.useEllipseShapes);
    }
  }

  class MaskToAnnotationConverter {
    const detector: DetectionToPredictionConverter

    constructor (detector: DetectionToPredictionConverter)
      ensures this.detector == detector
    {
      this.detector := detector;
    }

    static method Create(labelList: seq<Label>, configuration: Configuration)
      returns (r: Result<MaskToAnnotationConverter>)
      ensures r.Ok? <==> TablesBuild(labelList, configuration)
      ensures r.Err? ==> r.error == (if configuration.labels.None? then KeyError else ValueError)
      ensures r.Ok? ==> fresh(r.value) && fresh(r.value.detector) && fresh(r.value.detector.base)
      ensures r.Ok? ==> r.value.detector.base.Valid()
    {
      var d := DetectionToPredictionConverter.Create(labelList, configuration);
      if d.Err? {
        return Err(d.error);
      }
      var c := new MaskToAnnotationConverter(d.value);
      return Ok(c);
    }

    /** `convert_to_prediction`: objects below the threshold are skipped; the
        others give their box as an ellipse, or a polygon per outer contour of
        their mask. */
    method ConvertToPrediction(objects: seq<SegmentedObject>) returns (r: Result<Prediction>)
      ensures r == MaskAnnotations(detector.base.idxToLabel, objects,
                                   detector.confidenceThreshold, detector.useEllipseShapes)
    {
      r := ConvertMaskObjects(detector.base.idxToLabel, objects,
                              detector.confidenceThreshold, detector.useEllipseShapes);
    }
  }

  class SegmentationToPredictionConverter {
    const base: InferenceResultsToPredictionConverter

    constructor (base: InferenceResultsToPredictionConverter)
      ensures this.base == base
    {
      this.base := base;
    }

    static method Create(labelList: seq<Label>, configuration: Configuration)
      returns (r: Result<SegmentationToPredictionConverter>)
      ensures r.Ok? <==> TablesBuild(labelList, configuration)
      ensures r.Err? ==> r.error == (if configuration.labels.None? then KeyError else ValueError)
      ensures r.Ok? ==> fresh(r.value) && fresh(r.value.base) && r.value.base.Valid()
    {
      var b := InferenceResultsToPredictionConverter.Create(labelList, configuration);
      if b.Err? {
        return Err(b.error);
      }
      var c := new SegmentationToPredictionConverter(b.value);
      return Ok(c);
    }

    /** `get_label_by_idx`: index 0 is the background, which maps to the empty
        label stored under -1; index i > 0 is the (i-1)-th ModelAPI label. */
    method GetLabelByIdx(labelIdx: int) returns (r: Result<Label>)
      modifies base`idxToLabel
      ensures base.idxToLabel == ShiftedIndexTable(old(base.idxToLabel), base.emptyLabel)
      ensures r == Lookup(base.idxToLabel, labelIdx - 1)
      ensures old(base.Valid()) ==> base.Valid()
      ensures old(base.Valid()) && labelIdx == 0 ==>
                (r.Ok? <==> base.emptyLabel.Some?) && (r.Ok? ==> r.value == base.emptyLabel.value)
      ensures old(base.Valid()) && 1 <= labelIdx <= |base.resolved| ==> r == Ok(base.resolved[labelIdx - 1])
      ensures old(base.Valid()) && (labelIdx < 0 || labelIdx > |base.resolved|) ==> r == Err(KeyError)
    {
      if base.emptyLabel.Some? {
        base.idxToLabel := base.idxToLabel[-1 := base.emptyLabel.value];
      }
      r := base.GetLabelByIdx(labelIdx - 1);
      if old(base.Valid()) {
        ShiftedIndexTableLookup(base.resolved, base.emptyLabel, old(base.idxToLabel), labelIdx);
      }
    }

    /** `convert_to_prediction` over the contours the model extracted: every
        contour's label text is looked up; a contour with points, a non-empty
        label and an approximated curve of more than two points becomes a polygon. */
    method ConvertToPrediction(contours: seq<SegmentationContour>) returns (r: Result<Prediction>)
      ensures r == SegmentationAnnotations(base.strToLabel, contours)
    {
      var annotations: seq<Annotation> := [];
      for i := 0 to |contours|
        invariant SegmentationAnnotations(base.strToLabel, contours[..i]) == Ok(annotations)
      {
        var contour := contours[i];
        assert contours[..i + 1][..i] == contours[..i];
        var l := base.GetLabelByStr(contour.labelText);
        if l.Err? {
          return Err(l.error);
        }
        if |contour.points| > 0 && !l.value.isEmpty {
          if contour.approxCurveLength > 2 {
            annotations := annotations + [Annotation(Polygon(contour.points), [ScoredLabel(l.value, contour.probability)])];
          }
        }
      }
      assert contours[..|contours|] == contours;
      return Ok(annotations);
    }
  }

  class AnomalyToPredictionConverter {
    const normalLabel: Label
    const anomalousLabel: Label
    /** `None` when the configuration had no `domain` key: the attribute is never set. */
    const domain: Option<Domain>

    constructor (normalLabel: Label, anomalousLabel: Label, domain: Option<Domain>)
      ensures this.normalLabel == normalLabel && this.anomalousLabel == anomalousLabel && this.domain == domain
    {
      this.normalLabel := normalLabel;
      this.anomalousLabel := anomalousLabel;
      this.domain := domain;
    }

    /** `__init__`: the first normal and the first anomalous label of the list,
        `StopIteration` when either kind is missing. */
    static method Create(labelList: seq<Label>, configuration: Configuration)
      returns (r: Result<AnomalyToPredictionConverter>)
      ensures r.Ok? <==> (exists l :: l in labelList && !l.isAnomalous) && (exists l :: l in labelList && l.isAnomalous)
      ensures r.Err? ==> r.error == StopIteration
      ensures r.Ok? ==> fresh(r.value) && r.value.domain == configuration.domain
      ensures r.Ok? ==> r.value.normalLabel in labelList && !r.value.normalLabel.isAnomalous
      ensures r.Ok? ==> r.value.anomalousLabel in labelList && r.value.anomalousLabel.isAnomalous
      ensures r.Ok? ==> r.value.normalLabel == FirstWithAnomalous(labelList, false).value
      ensures r.Ok? ==> r.value.anomalousLabel == FirstWithAnomalous(labelList, true).value
    {
      var normal := FirstWithAnomalous(labelList, false);
      if normal.Err? {
        return Err(normal.error);
      }
      var anomalous := FirstWithAnomalous(labelList, true);
      if anomalous.Err? {
        return Err(anomalous.error);
      }
      var c := new AnomalyToPredictionConverter(normal.value, anomalous.value, configuration.domain);
      return Ok(c);
    }

    /** `convert_to_prediction`: the annotations the domain calls for, or one
        full-image box with the normal label at probability 0 when there are none. */
    method ConvertToPrediction(result: AnomalyResult, imageShape: ImageShape) returns (r: Result<Prediction>)
      ensures r == AnomalyPrediction(domain, normalLabel, anomalousLabel, result, imageShape)
    {
      var lbl := if IsAnomalousText(result.predLabel) then anomalousLabel else normalLabel;
      var annotations: seq<Annotation> := [];
      if domain.None? {
        return Err(AttributeError);
      }
      var d := domain.value;
      if d.AnomalyClassification? || d.Anomaly? {
        annotations := [Annotation(FullImageBox(imageShape), [ScoredLabel(lbl, result.predScore)])];
      } else if d.AnomalySegmentation? {
        annotations := result.segmentationAnnotations;
      } else if d.AnomalyDetection? {
        annotations := AnomalyBoxesOf(result.predBoxes, anomalousLabel, result.predScore);
      } else {
        return Err(ValueError);
      }
      if annotations == [] {
        annotations := [Annotation(FullImageBox(imageShape), [ScoredLabel(normalLabel, 0.0)])];
      }
      return Ok(annotations);
    }
  }

  /** The box loop of anomaly detection: every predicted box becomes a rectangle
      with the anomalous label at the image's score. */
  method AnomalyBoxesOf(boxes: seq<Box>, anomalous: Label, score: real) returns (annotations: seq<Annotation>)
    ensures annotations == AnomalyBoxes(boxes, anomalous, score)
  {
    annotations := [];
    for i := 0 to |boxes|
      invariant annotations == AnomalyBoxes(boxes[..i], anomalous, score)
    {
      var b := boxes[i];
      assert boxes[..i + 1][..i] == boxes[..i];
      annotations := annotations + [Annotation(Rectangle(b.x1, b.y1, b.x2 - b.x1, b.y2 - b.y1),
                                               [ScoredLabel(anomalous, score)])];
    }
    assert boxes[..|boxes|] == boxes;
  }

  // ---------------------------------------------------------------------------
  // ConverterFactory
  // ---------------------------------------------------------------------------

  datatype ConverterClass =
    | ClassificationClass
    | DetectionClass
    | SegmentationClass
    | RotatedRectClass
    | MaskClass
    | AnomalyClass

  /** The converter class `create_converter` picks for a domain; `ValueError`
      for a domain no converter handles. */
  function ConverterClassFor(domain: Domain): (r: Result<ConverterClass>)
    ensures r.Err? <==> domain.OtherDomain?
    ensures r.Err? ==> r.error == ValueError
    ensures r == Ok(AnomalyClass) <==> IsAnomalyDomain(domain)
  {
    match domain
    case Classification => Ok(ClassificationClass)
    case Detection => Ok(DetectionClass)
    case Segmentation => Ok(SegmentationClass)
    case RotatedDetection => Ok(RotatedRectClass)
    case InstanceSegmentation => Ok(MaskClass)
    case AnomalyClassification | AnomalySegmentation | AnomalyDetection | Anomaly => Ok(AnomalyClass)
    case OtherDomain(_) => Err(ValueError)
  }

  /** Only the anomaly domains share a converter class. */
  lemma OnlyAnomalyDomainsShareAClass(d1: Domain, d2: Domain)
    requires d1 != d2 && ConverterClassFor(d1).Ok? && ConverterClassFor(d1) == ConverterClassFor(d2)
    ensures IsAnomalyDomain(d1) && IsAnomalyDomain(d2)
  {
  }

  /** The configuration after `create_converter`: the anomaly domains write the
      domain into it, the others leave it as it was. */
  function FactoryConfiguration(domain: Domain, configuration: Configuration): Configuration {
    if IsAnomalyDomain(domain) then configuration.(domain := Some(domain)) else configuration
  }

  datatype Converter =
    | ClassificationConverter(classification: ClassificationToPredictionConverter)
    | DetectionConverter(detection: DetectionToPredictionConverter)
    | SegmentationConverter(segmentation: SegmentationToPredictionConverter)
    | RotatedRectConverter(rotated: RotatedRectToPredictionConverter)
    | MaskConverter(mask: MaskToAnnotationConverter)
    | AnomalyConverter(anomaly: AnomalyToPredictionConverter)
  {
    function Class(): ConverterClass {
      if ClassificationConverter? then ClassificationClass
      else if DetectionConverter? then DetectionClass
      else if SegmentationConverter? then SegmentationClass
      else if RotatedRectConverter? then RotatedRectClass
      else if MaskConverter? then MaskClass
      else AnomalyClass
    }
  }

  // The branches of `create_converter` whose converter extends the base
  // converter: each is built from the labels and the unchanged configuration.

  method CreateClassificationConverter(labelList: seq<Label>, configuration: Configuration) returns (r: Result<Converter>)
    ensures r.Ok? <==> TablesBuild(labelList, configuration)
    ensures r.Err? ==> r.error == (if configuration.labels.None? then KeyError else ValueError)
    ensures r.Ok? ==> r.value.ClassificationConverter? && r.value.Class() == ClassificationClass
  {
    var c := ClassificationToPredictionConverter.Create(labelList, configuration);
    r := if c.Ok? then Ok(ClassificationConverter(c.value)) else Err(c.error);
  }

  method CreateDetectionConverter(labelList: seq<Label>, configuration: Configuration) returns (r: Result<Converter>)
    ensures r.Ok? <==> TablesBuild(labelList, configuration)
    ensures r.Err? ==> r.error == (if configuration.labels.None? then KeyError else ValueError)
    ensures r.Ok? ==> r.value.DetectionConverter? && r.value.Class() == DetectionClass
  {
    var c := DetectionToPredictionConverter.Create(labelList, configuration);
    r := if c.Ok? then Ok(DetectionConverter(c.value)) else Err(c.error);
  }

  method CreateSegmentationConverter(labelList: seq<Label>, configuration: Configuration) returns (r: Result<Converter>)
    ensures r.Ok? <==> TablesBuild(labelList, configuration)
    ensures r.Err? ==> r.error == (if configuration.labels.None? then KeyError else ValueError)
    ensures r.Ok? ==> r.value.SegmentationConverter? && r.value.Class() == SegmentationClass
  {
    var c := SegmentationToPredictionConverter.Create(labelList, configuration);
    r := if c.Ok? then Ok(SegmentationConverter(c.value)) else Err(c.error);
  }

  method CreateRotatedRectConverter(labelList: seq<Label>, configuration: Configuration) returns (r: Result<Converter>)
    ensures r.Ok? <==> TablesBuild(labelList, configuration)
    ensures r.Err? ==> r.error == (if configuration.labels.None? then KeyError else ValueError)
    ensures r.Ok? ==> r.value.RotatedRectConverter? && r.value.Class() == RotatedRectClass
  {
    var c := RotatedRectToPredictionConverter.Create(labelList, configuration);
    r := if c.Ok? then Ok(RotatedRectConverter(c.value)) else Err(c.error);
  }

  method CreateMaskConverter(labelList: seq<Label>, configuration: Configuration) returns (r: Result<Converter>)
    ensures r.Ok? <==> TablesBuild(labelList, configuration)
    ensures r.Err? ==> r.error == (if configuration.labels.None? then KeyError else ValueError)
    ensures r.Ok? ==> r.value.MaskConverter? && r.value.Class() == MaskClass
  {
    var c := MaskToAnnotationConverter.Create(labelList, configuration);
    r := if c.Ok? then Ok(MaskConverter(c.value)) else Err(c.error);
  }

  /** The anomaly branch: the domain is written into the configuration first. */
  method CreateAnomalyConverter(labelList: seq<Label>, domain: Domain, configuration: Configuration)
    returns (r: Result<Converter>)
    requires IsAnomalyDomain(domain)
    ensures r.Ok? <==> (exists l :: l in labelList && !l.isAnomalous) && (exists l :: l in labelList && l.isAnomalous)
    ensures r.Err? ==> r.error == StopIteration
    ensures r.Ok? ==> r.value.AnomalyConverter? && r.value.anomaly.domain == Some(domain)
    ensures r.Ok? ==> r.value.Class() == AnomalyClass
  {
    var c := AnomalyToPredictionConverter.Create(labelList, configuration.(domain := Some(domain)));
    r := if c.Ok? then Ok(AnomalyConverter(c.value)) else Err(c.error);
  }

  /** `ConverterFactory.create_converter`: the converter for the domain, built
      from the labels and the configuration (with the domain written into it for
      the anomaly domains, which is returned as `updated`). An anomaly converter
      made here always has a domain it can convert for. */
  method CreateConverter(labelList: seq<Label>, domain: Domain, configuration: Configuration)
    returns (r: Result<Converter>, updated: Configuration)
    ensures updated == FactoryConfiguration(domain, configuration)
    ensures domain.OtherDomain? ==> r == Err(ValueError)
    ensures r.Ok? ==> ConverterClassFor(domain) == Ok(r.value.Class())
    ensures !domain.OtherDomain? && !IsAnomalyDomain(domain) ==> (r.Ok? <==> TablesBuild(labelList, configuration))
    ensures IsAnomalyDomain(domain) ==>
              (r.Ok? <==> (exists l :: l in labelList && !l.isAnomalous) && (exists l :: l in labelList && l.isAnomalous))
    ensures r.Err? && !domain.OtherDomain? && !IsAnomalyDomain(domain) ==>
              r.error == (if configuration.labels.None? then KeyError else ValueError)
    ensures r.Err? && IsAnomalyDomain(domain) ==> r.error == StopIteration
    ensures r.Ok? && r.value.AnomalyConverter? ==> r.value.anomaly.domain == Some(domain)
    ensures r.Ok? && r.value.AnomalyConverter? ==>
              forall result: AnomalyResult, imageShape: ImageShape ::
                AnomalyPrediction(r.value.anomaly.domain, r.value.anomaly.normalLabel, r.value.anomaly.anomalousLabel,
                                  result, imageShape).Ok?
  {
    updated := FactoryConfiguration(domain, configuration);
    var cls := ConverterClassFor(domain);
    if cls.Err? {
      return Err(cls.error), updated;
    }
    if cls.value == AnomalyClass {
      r := CreateAnomalyConverter(labelList, domain, configuration);
      return;
    }
    match cls.value
    case ClassificationClass => r := CreateClassificationConverter(labelList, configuration);
    case DetectionClass => r := CreateDetectionConverter(labelList, configuration);
    case SegmentationClass => r := CreateSegmentationConverter(labelList, configuration);
    case RotatedRectClass => r := CreateRotatedRectConverter(labelList, configuration);
    case MaskClass => r := CreateMaskConverter(labelList, configuration);
  }
}
