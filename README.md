# Geti SDK deployment core, modelled in Dafny

This project models three parts of the Geti SDK deployment code and proves
what they promise.

- **OpenVINO Model Server naming** (`geti_sdk/deployment/utils.py`), module `OvmsUtils`.
  - The model name built from a project and a model: sanitised, spaces and hyphens
    replaced by `_`, lower-cased, and with an optional `:<version>` suffix.
  - The model address: `<address>/models/<name>` with a leading `https://`, then a
    leading `http://`, removed.
  - The server-address test `target_device_is_ovms`. Its anchored regular expression
    is written as a recogniser (`ParseServerAddress`) over a grammar of scheme,
    host and port (`ServerAddress`, `Render`). The proofs show that the recogniser
    accepts exactly the rendered valid addresses.
- **The inference-result converters** (`results_to_prediction_converter.py`).
  - Module `LabelTables` describes the tables the base converter builds: the id map,
    the legacy name map, the index, string and counter tables, and label resolution
    (`__get_label`).
  - Module `ConverterSpecs` describes what each converter returns.
  - Module `ResultsConverter` holds the converters as classes. Their fields are the
    source's attributes and their methods run the source's loops. Each method is
    proved equal to the matching specification function.
  - A subclass holds the converter it extends: `base`, or `detector` for the
    rotated-rectangle and mask converters.
  - An `__init__` that can raise becomes a static `Create` returning a `Result`.
  - Python exceptions are the `PyError` values `ValueError`, `KeyError`,
    `StopIteration` and `AttributeError`.
- **`ShapeType`** (`sc_api_tools/data_models/enums/shape_type.py`), module `ShapeTypes`:
  the three members, their string form, and parsing back.

Shared modules: `Wrappers` (Option, Result, PyError), `Text` (ASCII lower-casing,
single-character replace, prefix and suffix tests) and `ModelTypes` (labels,
shapes, annotations, domains, configuration keys, the ModelAPI result records).

Where the documented behaviour and the code disagree, the model follows the code:
- `generate_ovms_model_address` can remove both prefixes: `https://http://h` becomes
  `h/...` (`AddressStripsBothSchemes`).
- A scheme can survive address generation: `https://https://h` keeps its second
  `https://` (`AddressKeepsSecondHttps`).
- A label name without spaces is entered twice under the same legacy key, because
  its raw name and its underscored name are equal. So `legacy_label_map_names[name]`
  lists that label twice, and a later label whose underscored name collides is only
  reached at `pos_idx` 2 (`SpaceFreeNameListedTwice`,
  `LegacyDuplicateListsFirstLabelTwice`).

## Model

| member | source | states |
|---|---|---|
| OvmsUtils.NormalizeModelName | geti_sdk/deployment/utils.py:45-47 | same length as its input; no space, no `-` and no upper-case letter is left |
| OvmsUtils.GenerateOvmsModelName | geti_sdk/deployment/utils.py:31-50 | the first part is the sanitised `<project>_<model>`, normalised character by character; that part is free of spaces, hyphens and upper case, whatever the sanitiser returned; `:<version>` follows exactly when a version exists and `omit_version` is false |
| OvmsUtils.NormalizeModelNamePointwise | geti_sdk/deployment/utils.py:45-47 | each character is mapped on its own: space and `-` become `_`, upper case becomes lower case |
| OvmsUtils.NormalizeModelNameIdempotent | geti_sdk/deployment/utils.py:45-47 | normalising a normalised name changes nothing |
| OvmsUtils.DefaultOmitsVersion | geti_sdk/deployment/utils.py:32-49 | with the default `omit_version` the name is the normalised sanitised text, with no version suffix |
| OvmsUtils.StripScheme | geti_sdk/deployment/utils.py:70-73 | the result is a suffix of the input |
| OvmsUtils.GenerateOvmsModelAddress | geti_sdk/deployment/utils.py:53-74 | the result is a suffix of `<address>/models/<name>`, at most 15 characters shorter, and always ends with `models/<name>` |
| OvmsUtils.StripFromAddressKeepsPath | geti_sdk/deployment/utils.py:69-73 | stripping a scheme never cuts into `models/<name>` |
| OvmsUtils.NoHttpPrefix | geti_sdk/deployment/utils.py:72 | an address not starting with `http:/` gives a joined text without an `http://` prefix |
| OvmsUtils.NoHttpsPrefix | geti_sdk/deployment/utils.py:70 | the same for `https://` |
| OvmsUtils.AddressWithoutScheme | geti_sdk/deployment/utils.py:69-74 | an address without a scheme is returned as exactly `address + "/models/" + name` |
| OvmsUtils.AddressWithHttp | geti_sdk/deployment/utils.py:72-73 | `http://host` gives `host/models/<name>` |
| OvmsUtils.AddressWithHttps | geti_sdk/deployment/utils.py:70-71 | `https://host` gives `host/models/<name>` when the host does not itself start with `http:/` |
| OvmsUtils.AddressStripsBothSchemes | geti_sdk/deployment/utils.py:70-73 | `https://http://host` loses both prefixes |
| OvmsUtils.AddressKeepsSecondHttps | geti_sdk/deployment/utils.py:70-73 | `https://https://host` keeps its second `https://` |
| OvmsUtils.AddressExample | geti_sdk/deployment/utils.py:69-74 | `https://1.2.3.4:5000` with `foo` gives `1.2.3.4:5000/models/foo` |
| OvmsUtils.SplitDots | geti_sdk/deployment/utils.py:86 | splitting at dots yields at least one part |
| OvmsUtils.ParseSchemeSound | geti_sdk/deployment/utils.py:86 | a recognised scheme is a prefix of the input, and the rest follows it |
| OvmsUtils.ParseSchemeComplete | geti_sdk/deployment/utils.py:86 | every `http://`, `https://` or `www` plus one non-newline character is recognised |
| OvmsUtils.SplitPortSound | geti_sdk/deployment/utils.py:86 | the port and the optional final newline put back together give the text |
| OvmsUtils.SplitPortComplete | geti_sdk/deployment/utils.py:86 | a digit run with or without a final newline splits back into itself |
| OvmsUtils.ParseHostAndPortSound | geti_sdk/deployment/utils.py:86 | a recognised host and port render back to the text they came from |
| OvmsUtils.ParseServerAddressSound | geti_sdk/deployment/utils.py:85-88 | an accepted string is a valid address (a letters-only or dotted-quad host, a port of 1 to 5 digits) that renders back to that string |
| OvmsUtils.ParseHostAndPortComplete | geti_sdk/deployment/utils.py:86 | after the scheme, a valid host, `:` and port are accepted and split back into those parts |
| OvmsUtils.ParseServerAddressComplete | geti_sdk/deployment/utils.py:85-88 | every valid address, rendered, is accepted and parsed back to itself |
| OvmsUtils.TargetDeviceIsOvmsCharacterised | geti_sdk/deployment/utils.py:77-88 | a device string is an OVMS address exactly when it is the rendering of a valid address |
| OvmsUtils.HostHasNoColon | geti_sdk/deployment/utils.py:86 | a valid host contains no `:` |
| OvmsUtils.SplitDotsNoColon | geti_sdk/deployment/utils.py:86 | text whose dot-separated parts are all digit runs contains no `:` |
| OvmsUtils.NoSchemeIsNotOvms | geti_sdk/deployment/utils.py:86 | a string not starting with `http://`, `https://` or `www` is rejected |
| OvmsUtils.FirstCharRulesOutScheme | geti_sdk/deployment/utils.py:86 | a string whose first character is neither `h` nor `w` is rejected |
| OvmsUtils.PortHasOneToFiveDigits | geti_sdk/deployment/utils.py:86 | an accepted address has a port of 1 to 5 digits |
| OvmsUtils.DottedQuadOf | geti_sdk/deployment/utils.py:86 | four digit runs joined by dots form a dotted-quad host |
| OvmsUtils.NamedHttpServerIsOvms | geti_sdk/deployment/utils.py:85-88 | `http://<letters>:<port>` is accepted for any letters-only host and a port of 1 to 5 digits |
| OvmsUtils.DottedQuadServerIsOvms | geti_sdk/deployment/utils.py:85-88 | `https://a.b.c.d:port` is accepted for any digit runs and a port of 1 to 5 digits |
| OvmsUtils.DeviceNamesAreNotOvms | geti_sdk/deployment/utils.py:85-88 | `CPU`, `GPU` and `192.168.1.1:9000` are rejected |
| OvmsUtils.EmptyPortIsNotOvms | geti_sdk/deployment/utils.py:86 | a `:` with no port after it is rejected |
| OvmsUtils.SixDigitPortIsNotOvms | geti_sdk/deployment/utils.py:86 | a 6-digit port is rejected |
| OvmsUtils.BadPortIsNotOvms | geti_sdk/deployment/utils.py:86 | a named server whose port is not 1 to 5 digits is rejected |
| ShapeTypes.ToString | sc_api_tools/data_models/enums/shape_type.py:8-17 | each member's string is exactly its literal value |
| ShapeTypes.Parse | sc_api_tools/data_models/enums/shape_type.py:4-10 | looking up a value fails with `ValueError` |
| ShapeTypes.AllShapeTypes | sc_api_tools/data_models/enums/shape_type.py:8-10 | the set of members |
| ShapeTypes.ExactlyThreeShapeTypes | sc_api_tools/data_models/enums/shape_type.py:8-10 | every shape type is one of exactly three |
| ShapeTypes.ParseToString | sc_api_tools/data_models/enums/shape_type.py:8-17 | parsing a member's string gives back the member |
| ShapeTypes.ToStringParse | sc_api_tools/data_models/enums/shape_type.py:8-17 | a string that parses is the string of the member it gives |
| ShapeTypes.ToStringInjective | sc_api_tools/data_models/enums/shape_type.py:8-10 | distinct members have distinct strings |
| ShapeTypes.ParseRejectsOtherText | sc_api_tools/data_models/enums/shape_type.py:4-10 | any other text, such as `CIRCLE`, fails with `ValueError` |
| ShapeTypes.ParseExamples | sc_api_tools/data_models/enums/shape_type.py:8-17 | `RECTANGLE` parses, `POLYGON` prints as `"POLYGON"`, and `CIRCLE` fails |
| ModelTypes.NonEmptyLabels | geti_sdk/deployment/predictions_postprocessing/results_converter/results_to_prediction_converter.py:55 | `self.labels` holds exactly the labels of the list that are not empty |
| ModelTypes.EmptyLabel | geti_sdk/deployment/predictions_postprocessing/results_converter/results_to_prediction_converter.py:69 | the empty label is the first empty label of the list (no earlier label is empty), or absent when the list has none |
| ModelTypes.GetByName | geti_sdk/deployment/predictions_postprocessing/results_converter/results_to_prediction_converter.py:225 | the result is the first label of the list with that name (no earlier label has it); `KeyError` exactly when no label has it |
| LabelTables.ModelApiLabels | geti_sdk/deployment/predictions_postprocessing/results_converter/results_to_prediction_converter.py:56-62 | a single string in `labels` is a one-element list; a list is taken as it is |
| LabelTables.LastWins | geti_sdk/deployment/predictions_postprocessing/results_converter/results_to_prediction_converter.py:84 | a dictionary filled key by key has exactly the keys written |
| LabelTables.LastWinsAt | geti_sdk/deployment/predictions_postprocessing/results_converter/results_to_prediction_converter.py:84 | a key holds the value of a write that no later write to it follows |
| LabelTables.LastIndex | geti_sdk/deployment/predictions_postprocessing/results_converter/results_to_prediction_converter.py:84 | the last position holding a key |
| LabelTables.LastWinsLast | geti_sdk/deployment/predictions_postprocessing/results_converter/results_to_prediction_converter.py:84 | every written key holds the value of its last write |
| LabelTables.Ids | geti_sdk/deployment/predictions_postprocessing/results_converter/results_to_prediction_converter.py:71-72 | one id per label |
| LabelTables.IdMapEntries | geti_sdk/deployment/predictions_postprocessing/results_converter/results_to_prediction_converter.py:71-72 | `label_map_ids` has an entry exactly for the ids of the list; each maps to the last label with that id |
| LabelTables.LegacyMatches | geti_sdk/deployment/predictions_postprocessing/results_converter/results_to_prediction_converter.py:71-75 | the labels listed under a legacy key are labels of the list whose raw or underscored name is the key |
| LabelTables.LegacyNamesMatches | geti_sdk/deployment/predictions_postprocessing/results_converter/results_to_prediction_converter.py:71-75 | the list the loop builds under each key is exactly those matches, in list order |
| LabelTables.LegacyMatchesComplete | geti_sdk/deployment/predictions_postprocessing/results_converter/results_to_prediction_converter.py:73-75 | every label is listed under its raw name and under its name with `_` for spaces |
| LabelTables.UnderscoredWithoutSpace | geti_sdk/deployment/predictions_postprocessing/results_converter/results_to_prediction_converter.py:74 | a name without spaces is its own legacy name |
| LabelTables.SpaceFreeNameListedTwice | geti_sdk/deployment/predictions_postprocessing/results_converter/results_to_prediction_converter.py:74-75 | a label with a space-free name is listed twice under that name |
| LabelTables.LegacyDuplicateListsFirstLabelTwice | geti_sdk/deployment/predictions_postprocessing/results_converter/results_to_prediction_converter.py:73-75 | `foo_bar` followed by `foo bar` gives `[foo_bar, foo_bar, foo bar]` under `foo_bar` |
| LabelTables.LegacyLabelMapEntries | geti_sdk/deployment/predictions_postprocessing/results_converter/results_to_prediction_converter.py:64-76 | `otx_empty_lbl` lists exactly the empty label; every other key lists its legacy matches |
| LabelTables.ResolveLabel | geti_sdk/deployment/predictions_postprocessing/results_converter/results_to_prediction_converter.py:93-101 | an id match wins; otherwise the `pos_idx`-th legacy match; `ValueError` exactly when neither exists |
| LabelTables.ResolveAgainstLabelList | geti_sdk/deployment/predictions_postprocessing/results_converter/results_to_prediction_converter.py:64-101 | against the tables of a label list: an id of the list resolves to a label with that id, `otx_empty_lbl` to the empty label at position 0, and any other string to its `pos_idx`-th legacy match or `ValueError` |
| LabelTables.ResolvedLabelOrigin | geti_sdk/deployment/predictions_postprocessing/results_converter/results_to_prediction_converter.py:64-101 | a resolved label is in the list and has the string as its id, name or underscored name, or is the empty label for `otx_empty_lbl` |
| LabelTables.Count | geti_sdk/deployment/predictions_postprocessing/results_converter/results_to_prediction_converter.py:81-88 | the counter value of a string is positive exactly when the string was seen |
| LabelTables.ResolveModelLabels | geti_sdk/deployment/predictions_postprocessing/results_converter/results_to_prediction_converter.py:82-101 | a failed load always fails with `ValueError`, and a successful one gives exactly one label per ModelAPI string |
| LabelTables.ResolveModelLabelsSpec | geti_sdk/deployment/predictions_postprocessing/results_converter/results_to_prediction_converter.py:79-88 | loading succeeds exactly when every ModelAPI string resolves with its number of earlier occurrences as `pos_idx`; then the i-th result is that resolution; otherwise `ValueError` |
| LabelTables.ResolveModelLabelsStep | geti_sdk/deployment/predictions_postprocessing/results_converter/results_to_prediction_converter.py:79-88 | one more resolved string extends the resolved list by its label |
| LabelTables.ResolveModelLabelsFails | geti_sdk/deployment/predictions_postprocessing/results_converter/results_to_prediction_converter.py:82-101 | one string that fails to resolve makes loading fail |
| LabelTables.IndexMap | geti_sdk/deployment/predictions_postprocessing/results_converter/results_to_prediction_converter.py:83 | `idx_to_label` has exactly the keys 0..n-1, and key i holds the i-th resolved label |
| LabelTables.CountMap | geti_sdk/deployment/predictions_postprocessing/results_converter/results_to_prediction_converter.py:78-86 | the counter has exactly the strings seen, each with its number of occurrences |
| LabelTables.LoadLookup | geti_sdk/deployment/predictions_postprocessing/results_converter/results_to_prediction_converter.py:80-82 | reading the counter gives the number of earlier occurrences, and resolving with it is the specified resolution |
| LabelTables.LoadStep | geti_sdk/deployment/predictions_postprocessing/results_converter/results_to_prediction_converter.py:80-86 | one loop step extends the resolved list, the index table, the string table and the counter as specified |
| LabelTables.DuplicateNamesResolveInTurn | geti_sdk/deployment/predictions_postprocessing/results_converter/results_to_prediction_converter.py:81-97 | the k-th occurrence of a repeated legacy name resolves to its k-th legacy match |
| ConverterSpecs.Lookup | geti_sdk/deployment/predictions_postprocessing/results_converter/results_to_prediction_converter.py:103-119 | a dictionary read: the stored value, or `KeyError` exactly for a missing key |
| ConverterSpecs.TopScoredLabels | geti_sdk/deployment/predictions_postprocessing/results_converter/results_to_prediction_converter.py:171-177 | one scored label per top label, in order; `KeyError` exactly when an index is unknown |
| ConverterSpecs.ClassificationPrediction | geti_sdk/deployment/predictions_postprocessing/results_converter/results_to_prediction_converter.py:158-186 | exactly one full-image annotation, carrying the top labels in order; with no top labels, the empty label at probability 0 (or no label without an empty label); `KeyError` exactly for an unknown index |
| ConverterSpecs.FirstWithLegacyName | geti_sdk/deployment/predictions_postprocessing/results_converter/results_to_prediction_converter.py:228-234 | the first label whose underscored name matches: it sits at a position before which no label's underscored name matches; `KeyError` exactly when none does |
| ConverterSpecs.LabelByPredictionName | geti_sdk/deployment/predictions_postprocessing/results_converter/results_to_prediction_converter.py:216-235 | a label with that exact name if one exists, else one whose underscored name matches; `KeyError` exactly when neither exists |
| ConverterSpecs.KeptDetections | geti_sdk/deployment/predictions_postprocessing/results_converter/results_to_prediction_converter.py:255-275 | the rows are exactly the detections with box area at least 1, as `[label, confidence, x1, y1, x2, y2]` |
| ConverterSpecs.Confident | geti_sdk/deployment/predictions_postprocessing/results_converter/results_to_prediction_converter.py:316-317 | exactly the rows whose confidence reaches the threshold |
| ConverterSpecs.DetectionAnnotations | geti_sdk/deployment/predictions_postprocessing/results_converter/results_to_prediction_converter.py:303-317 | every row's label is looked up before the threshold test; `KeyError` exactly when an index is unknown |
| ConverterSpecs.DetectionAnnotationsSpec | geti_sdk/deployment/predictions_postprocessing/results_converter/results_to_prediction_converter.py:303-327 | one annotation per confident row, in order, with the row's label and confidence; an ellipse exactly when ellipses are configured, else a rectangle; at `(x1, y1)` with width `x2-x1` and height `y2-y1` |
| ConverterSpecs.RotatedBoxes | geti_sdk/deployment/predictions_postprocessing/results_converter/results_to_prediction_converter.py:407-425 | a rotated rectangle for each outer contour (no parent, more than 2 points, area at least 1) and for nothing else |
| ConverterSpecs.ContourPolygons | geti_sdk/deployment/predictions_postprocessing/results_converter/results_to_prediction_converter.py:469-492 | a polygon for each outer contour and for nothing else; empty exactly when there is no outer contour |
| ConverterSpecs.RotatedAnnotations | geti_sdk/deployment/predictions_postprocessing/results_converter/results_to_prediction_converter.py:385-426 | every object's label is looked up (`KeyError` exactly for an unknown id); every annotation has one non-empty label at or above the threshold, and is an ellipse or a rotated rectangle as configured |
| ConverterSpecs.RotatedAnnotationsComplete | geti_sdk/deployment/predictions_postprocessing/results_converter/results_to_prediction_converter.py:385-426 | every object at or above the threshold with a non-empty label contributes all its annotations |
| ConverterSpecs.MaskObjectAnnotations | geti_sdk/deployment/predictions_postprocessing/results_converter/results_to_prediction_converter.py:449-492 | the label is looked up only when an annotation is made, so `KeyError` exactly for an unknown id with an ellipse or an outer contour; every annotation carries the object's label and score |
| ConverterSpecs.MaskAnnotations | geti_sdk/deployment/predictions_postprocessing/results_converter/results_to_prediction_converter.py:443-493 | objects below the threshold are skipped before any lookup; `KeyError` exactly when an object that makes an annotation has an unknown id; every annotation has one label, taken from the index table, with a score at or above the threshold, and is an ellipse or a polygon as configured |
| ConverterSpecs.MaskAnnotationsComplete | geti_sdk/deployment/predictions_postprocessing/results_converter/results_to_prediction_converter.py:443-493 | every object at or above the threshold contributes all of its annotations (its ellipse, or a polygon per outer contour) to the prediction |
| ConverterSpecs.ShiftedIndexTableForm | geti_sdk/deployment/predictions_postprocessing/results_converter/results_to_prediction_converter.py:544 | writing the empty label at -1 gives the same table whether or not it was already written |
| ConverterSpecs.ShiftedLookup | geti_sdk/deployment/predictions_postprocessing/results_converter/results_to_prediction_converter.py:545 | the shifted table reads index 0 as the empty label (`KeyError` without one), index i in 1..n as the (i-1)-th resolved label, and fails elsewhere |
| ConverterSpecs.ShiftedIndexTableLookup | geti_sdk/deployment/predictions_postprocessing/results_converter/results_to_prediction_converter.py:535-545 | after the write to -1, index 0 gives the empty label, index i in 1..n the (i-1)-th resolved label, and any other index `KeyError`; the table stays well-formed |
| ConverterSpecs.SegmentationAnnotations | geti_sdk/deployment/predictions_postprocessing/results_converter/results_to_prediction_converter.py:558-575 | every contour's label text is looked up (`KeyError` exactly for an unknown one); every annotation is a non-empty polygon with one non-empty label |
| ConverterSpecs.KeptSegments | geti_sdk/deployment/predictions_postprocessing/results_converter/results_to_prediction_converter.py:562-565 | a contour is kept exactly when it has points, its label is not empty and its approximated curve has more than two points |
| ConverterSpecs.SegmentationAnnotationsSpec | geti_sdk/deployment/predictions_postprocessing/results_converter/results_to_prediction_converter.py:558-575 | when every label text is known, the prediction is exactly one polygon per kept contour, in order, with the contour's points, label and probability |
| ConverterSpecs.FirstWithAnomalous | geti_sdk/deployment/predictions_postprocessing/results_converter/results_to_prediction_converter.py:609-610 | the first normal (or anomalous) label of the list: no earlier label is of that kind; `StopIteration` exactly when there is none |
| ConverterSpecs.AnomalyBoxes | geti_sdk/deployment/predictions_postprocessing/results_converter/results_to_prediction_converter.py:652-666 | one rectangle per predicted box, in order, each labelled anomalous at the predicted score |
| ConverterSpecs.DomainAnnotations | geti_sdk/deployment/predictions_postprocessing/results_converter/results_to_prediction_converter.py:633-670 | fails exactly for a missing domain (`AttributeError`) or a non-anomaly domain (`ValueError`) |
| ConverterSpecs.AnomalyPrediction | geti_sdk/deployment/predictions_postprocessing/results_converter/results_to_prediction_converter.py:614-681 | the same failures; a successful result always holds at least one annotation |
| ConverterSpecs.LowerIdempotent | geti_sdk/deployment/predictions_postprocessing/results_converter/results_to_prediction_converter.py:628 | lower-casing twice is lower-casing once |
| ConverterSpecs.AnomalousTextIgnoresCase | geti_sdk/deployment/predictions_postprocessing/results_converter/results_to_prediction_converter.py:626-630 | the label choice does not depend on the case of the predicted text |
| ConverterSpecs.AnomalousTextExamples | geti_sdk/deployment/predictions_postprocessing/results_converter/results_to_prediction_converter.py:626-630 | `Anomalous`, `ANOMALY` and `anomaly` choose the anomalous label; `Normal` and `anomalies` do not |
| ConverterSpecs.AnomalyClassificationLabel | geti_sdk/deployment/predictions_postprocessing/results_converter/results_to_prediction_converter.py:626-645 | classification gives one full-image annotation at the predicted score, anomalous exactly for the anomalous texts |
| ConverterSpecs.AnomalyFallback | geti_sdk/deployment/predictions_postprocessing/results_converter/results_to_prediction_converter.py:671-681 | an empty result becomes one full-image normal annotation at probability 0; any other result is kept |
| ConverterSpecs.AnomalyDetectionLabels | geti_sdk/deployment/predictions_postprocessing/results_converter/results_to_prediction_converter.py:652-680 | detection labels every box anomalous, whatever the predicted text; without boxes it gives the normal fallback |
| ResultsConverter.LoadTables | geti_sdk/deployment/predictions_postprocessing/results_converter/results_to_prediction_converter.py:77-88 | the loop succeeds exactly when every ModelAPI string resolves, otherwise `ValueError`; the index, string and counter tables it fills are the specified ones |
| ResultsConverter.InferenceResultsToPredictionConverter.constructor | geti_sdk/deployment/predictions_postprocessing/results_converter/results_to_prediction_converter.py:54-76 | the non-empty labels, the empty label, the id map and the legacy map are built from the label list |
| ResultsConverter.InferenceResultsToPredictionConverter.LoadModelLabels | geti_sdk/deployment/predictions_postprocessing/results_converter/results_to_prediction_converter.py:77-88 | the label-list tables are unchanged; the model tables are the specified ones, or `ValueError` |
| ResultsConverter.InferenceResultsToPredictionConverter.Create | geti_sdk/deployment/predictions_postprocessing/results_converter/results_to_prediction_converter.py:54-88 | `KeyError` without `labels`, `ValueError` for an unresolvable string; otherwise a valid converter whose index table has keys 0..n-1 |
| ResultsConverter.InferenceResultsToPredictionConverter.GetLabelByIdx | geti_sdk/deployment/predictions_postprocessing/results_converter/results_to_prediction_converter.py:103-110 | for a valid converter, index i in 0..n-1 gives the i-th resolved label, other non-negative indices `KeyError`, and -1 only ever the empty label |
| ResultsConverter.InferenceResultsToPredictionConverter.GetLabelByStr | geti_sdk/deployment/predictions_postprocessing/results_converter/results_to_prediction_converter.py:112-119 | succeeds exactly for the ModelAPI label strings, `KeyError` otherwise |
| ResultsConverter.InferenceResultsToPredictionConverter.GetLabelByStrIsLastOccurrence | geti_sdk/deployment/predictions_postprocessing/results_converter/results_to_prediction_converter.py:84-119 | a repeated string gives the label of its last occurrence |
| ResultsConverter.ClassificationToPredictionConverter.Create | geti_sdk/deployment/predictions_postprocessing/results_converter/results_to_prediction_converter.py:155-156 | succeeds exactly when the base tables build |
| ResultsConverter.ClassificationToPredictionConverter.ConvertToPrediction | geti_sdk/deployment/predictions_postprocessing/results_converter/results_to_prediction_converter.py:158-186 | the loop's result is the specified classification prediction |
| ResultsConverter.ClassificationToPredictionConverter.GetLabelByPredictionName | geti_sdk/deployment/predictions_postprocessing/results_converter/results_to_prediction_converter.py:216-235 | a non-empty label of the list, named or legacy-named `name`; otherwise `KeyError` |
| ResultsConverter.DetectionToPredictionConverter.constructor | geti_sdk/deployment/predictions_postprocessing/results_converter/results_to_prediction_converter.py:246-253 | no ellipses and threshold 0.0 unless the configuration sets them |
| ResultsConverter.DetectionToPredictionConverter.Create | geti_sdk/deployment/predictions_postprocessing/results_converter/results_to_prediction_converter.py:246-253 | succeeds exactly when the base tables build; the settings default as above |
| ResultsConverter.DetectionToPredictionConverter.Detection2Array | geti_sdk/deployment/predictions_postprocessing/results_converter/results_to_prediction_converter.py:255-275 | the loop keeps exactly the specified rows |
| ResultsConverter.DetectionToPredictionConverter.ConvertToPrediction | geti_sdk/deployment/predictions_postprocessing/results_converter/results_to_prediction_converter.py:277-328 | the loop's result is the specified detection prediction of the kept rows |
| ResultsConverter.RotatedBoxesOf | geti_sdk/deployment/predictions_postprocessing/results_converter/results_to_prediction_converter.py:407-425 | the contour loop gives exactly the specified rotated rectangles |
| ResultsConverter.ConvertRotatedObjects | geti_sdk/deployment/predictions_postprocessing/results_converter/results_to_prediction_converter.py:384-426 | the object loop gives the specified rotated-detection prediction |
| ResultsConverter.MaskObjectOf | geti_sdk/deployment/predictions_postprocessing/results_converter/results_to_prediction_converter.py:449-492 | one object's ellipse or contour loop gives the specified annotations or `KeyError` |
| ResultsConverter.ContourPolygonsOf | geti_sdk/deployment/predictions_postprocessing/results_converter/results_to_prediction_converter.py:463-491 | the contour loop of one object skips contours with a parent, at most two points or an area below 1, and gives exactly the specified polygons, or `KeyError` at the first kept contour when the object's label index is unknown |
| ResultsConverter.ConvertMaskObjects | geti_sdk/deployment/predictions_postprocessing/results_converter/results_to_prediction_converter.py:443-493 | the object loop gives the specified instance-segmentation prediction |
| ResultsConverter.RotatedRectToPredictionConverter.Create | geti_sdk/deployment/predictions_postprocessing/results_converter/results_to_prediction_converter.py:246-253 | built as a detection converter |
| ResultsConverter.RotatedRectToPredictionConverter.ConvertToPrediction | geti_sdk/deployment/predictions_postprocessing/results_converter/results_to_prediction_converter.py:374-426 | the specified rotated-detection prediction, with the converter's settings |
| ResultsConverter.MaskToAnnotationConverter.Create | geti_sdk/deployment/predictions_postprocessing/results_converter/results_to_prediction_converter.py:246-253 | built as a detection converter |
| ResultsConverter.MaskToAnnotationConverter.ConvertToPrediction | geti_sdk/deployment/predictions_postprocessing/results_converter/results_to_prediction_converter.py:434-493 | the specified instance-segmentation prediction, with the converter's settings |
| ResultsConverter.SegmentationToPredictionConverter.Create | geti_sdk/deployment/predictions_postprocessing/results_converter/results_to_prediction_converter.py:529-533 | succeeds exactly when the base tables build |
| ResultsConverter.SegmentationToPredictionConverter.GetLabelByIdx | geti_sdk/deployment/predictions_postprocessing/results_converter/results_to_prediction_converter.py:535-545 | writes the empty label at -1 and reads index i-1; the converter stays valid; 0 gives the empty label, 1..n the resolved labels, anything else `KeyError` |
| ResultsConverter.SegmentationToPredictionConverter.ConvertToPrediction | geti_sdk/deployment/predictions_postprocessing/results_converter/results_to_prediction_converter.py:547-575 | the loop's result is the specified segmentation prediction |
| ResultsConverter.AnomalyToPredictionConverter.constructor | geti_sdk/deployment/predictions_postprocessing/results_converter/results_to_prediction_converter.py:608-612 | the normal label, the anomalous label and the domain are stored |
| ResultsConverter.AnomalyToPredictionConverter.Create | geti_sdk/deployment/predictions_postprocessing/results_converter/results_to_prediction_converter.py:608-612 | succeeds exactly when the list has a normal and an anomalous label (the first of each); otherwise `StopIteration` |
| ResultsConverter.AnomalyBoxesOf | geti_sdk/deployment/predictions_postprocessing/results_converter/results_to_prediction_converter.py:652-666 | every predicted box becomes a rectangle `(x1, y1, x2-x1, y2-y1)` with the anomalous label at the image score, in order |
| ResultsConverter.AnomalyToPredictionConverter.ConvertToPrediction | geti_sdk/deployment/predictions_postprocessing/results_converter/results_to_prediction_converter.py:614-681 | the result is the specified anomaly prediction |
| ResultsConverter.ConverterClassFor | geti_sdk/deployment/predictions_postprocessing/results_converter/results_to_prediction_converter.py:725-743 | `ValueError` exactly for a domain without a converter; the anomaly converter exactly for the four anomaly domains |
| ResultsConverter.OnlyAnomalyDomainsShareAClass | geti_sdk/deployment/predictions_postprocessing/results_converter/results_to_prediction_converter.py:725-741 | two distinct domains get the same converter class only when both are anomaly domains |
| ResultsConverter.CreateClassificationConverter | geti_sdk/deployment/predictions_postprocessing/results_converter/results_to_prediction_converter.py:725-726 | a classification converter, or the base constructor's error |
| ResultsConverter.CreateDetectionConverter | geti_sdk/deployment/predictions_postprocessing/results_converter/results_to_prediction_converter.py:727-728 | a detection converter, or the base constructor's error |
| ResultsConverter.CreateSegmentationConverter | geti_sdk/deployment/predictions_postprocessing/results_converter/results_to_prediction_converter.py:729-730 | a segmentation converter, or the base constructor's error |
| ResultsConverter.CreateRotatedRectConverter | geti_sdk/deployment/predictions_postprocessing/results_converter/results_to_prediction_converter.py:731-732 | a rotated-rectangle converter, or the base constructor's error |
| ResultsConverter.CreateMaskConverter | geti_sdk/deployment/predictions_postprocessing/results_converter/results_to_prediction_converter.py:733-734 | a mask converter, or the base constructor's error |
| ResultsConverter.CreateAnomalyConverter | geti_sdk/deployment/predictions_postprocessing/results_converter/results_to_prediction_converter.py:736-742 | with the domain written into the configuration, an anomaly converter for that domain, or `StopIteration` when a label kind is missing |
| ResultsConverter.CreateConverter | geti_sdk/deployment/predictions_postprocessing/results_converter/results_to_prediction_converter.py:708-743 | the converter of the domain's class; `ValueError` for an unsupported domain; a failed build raises `KeyError` without `labels` and `ValueError` otherwise, and an anomaly build raises `StopIteration`; the domain is written into the configuration only for anomaly domains; an anomaly converter from the factory never fails in conversion |

## Left out

- `sanitize_filepath` (pathvalidate) is a parameter of `GenerateOvmsModelName`, taken as an arbitrary function.
- The `OVMS_README_PATH` lookup (`utils.py` lines 22-28) is package-resource plumbing and is left out.
- `str.lower` is modelled on ASCII letters only. Python also lower-cases non-ASCII letters; this affects the model name and the anomaly label text.
- The regular expression's `\d` is modelled as ASCII digits only. Python also accepts other Unicode decimal digits.
- The regular expression's `.` after `www` excludes a newline, and `$` may match before one final newline. Both are modelled.
- LegacyLabelMapEntries: without an empty label the source stores `[None]` under `otx_empty_lbl`; the model stores an empty list. So resolving `otx_empty_lbl` fails with `ValueError` where the source would return `None`.
- ResultsConverter.SegmentationToPredictionConverter.GetLabelByIdx: without an empty label the source stores `None` at -1 and returns it for index 0; the model writes nothing and gives `KeyError`.
- `defaultdict` inserts a missing key when it is read. The model does not add these keys; a later lookup gives the same result either way.
- ResultsConverter.InferenceResultsToPredictionConverter.LoadModelLabels: the loop (`LoadTables`) fills local tables and then assigns them to the fields. The source updates the fields inside the loop. After a `ValueError` the model therefore leaves the tables empty, where the source leaves them partly filled.
- ResultsConverter.LoadTables: list items of `labels` that are not strings, which the source converts with `str()`, are not modelled; the items are strings.
- `LabelList`, `Label`, `ScoredLabel` and the shape classes are external classes. They are modelled as plain records, and `LabelList.get_by_name` as `GetByName`, the first label with that name.
- All cv2 and numpy work is left out: `findContours`, `contourArea`, `minAreaRect`, `boxPoints`, `approxPolyDP`, the mask conversion and the array reshaping. The model takes their results as inputs: a contour's parent, points, area and corners, and the approximated curve's length.
- `model.get_contours` (segmentation) and `create_annotation_from_segmentation_map` (anomaly segmentation) are inputs for the same reason. The segmentation `model` parameter is not modelled.
- `convert_saliency_map` in every converter is numeric array work and is left out.
- Confidences and coordinates are `real`, not floating point. They are compared and subtracted, and the detection filter (line 266) multiplies two coordinate differences, which `ConverterSpecs.Area` computes exactly.
- ConverterSpecs.KeptDetections: rounding of the differences and of the area product is not captured, so at the `< 1.0` boundary the model can drop a box the source keeps. With xmin = ymin = 0, xmax = 3.0 and ymax the double nearest 1/3, the floating-point product rounds to 1.0 and the box is kept; the exact product is below 1.
- The detection converter's array shape check (lines 294-301) and its 7-column branch cannot happen, because `_detection2array` always makes 6 columns. Both are left out.
- The factory's `configuration.update` mutates the caller's dictionary. The model returns the updated configuration instead.
- A configuration of `None` is not modelled. Through the factory and in every non-anomaly constructor it raises: a `TypeError` at `configuration["labels"]` (line 56) and an `AttributeError` at `configuration.update` (line 741). Only a direct `AnomalyToPredictionConverter(labels, None)` succeeds, and leaves `domain` unset; a configuration without `domain` models that one case.
- Logging calls are left out.
- tests/fixtures/data.py, tests/pre-merge/integration/test_geti.py and examples/create_demo_projects.py are test and I/O plumbing around external services, and are not part of this model.
