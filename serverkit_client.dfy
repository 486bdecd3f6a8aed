/** The serverkit client's `run`: one POST carrying the parameters and the
    image, then one pass over the returned records. Each record is read by
    its `type` tag into detections placed in the viewed region, an
    "unsupported" message, or a notification; the `features` member of
    its `data_params` then attaches classes and measurements to the
    detections by position; and the detections are displayed. */
module ServerkitClient {
  import opened Wrappers
  import opened Json
  import opened Geometry
  import opened PathObjectUtils
  import opened Parameters
  import opened Streams
  import opened Transport
  import opened Host

  /** decodeBase64TiffArray: base64 text to the pixel values of a
      one-row TIFF image. ImageIO is host code, so it is a parameter; any
      exception it raises is an Err. */
  type TiffDecoder = string -> Result<seq<real>>

  /** The three kinds of notification Dialogs can show. */
  datatype Severity = InfoLevel | WarningLevel | ErrorLevel

  /** A notification's level: "error" and "warning" are recognised, any
      other text is information. */
  function SeverityOf(level: string): (s: Severity)
    ensures s == ErrorLevel <==> level == "error"
    ensures s == WarningLevel <==> level == "warning"
    ensures s == InfoLevel <==> level != "error" && level != "warning"
  {
    if level == "error" then ErrorLevel
    else if level == "warning" then WarningLevel
    else InfoLevel
  }

  /** The level of a notification record: its "level" data parameter, or
      "info" when there is none. */
  function NotificationLevel(dataParams: Members): (r: Result<string>)
    ensures !Has(dataParams, "level") ==> r == Ok("info")
    ensures Has(dataParams, "level") ==> r == AsString(Get(dataParams, "level").value)
  {
    match Get(dataParams, "level")
    case None => Ok("info")
    case Some(level) => AsString(level)
  }

  /** What a record shows besides its detections. */
  datatype Shown =
    | NoMessage
    | Unsupported(kind: string)
    | Notified(severity: Severity, text: string)

  /** A decoded record: its message and its detections. */
  datatype Outcome = Outcome(shown: Shown, detections: seq<PathObject>)

  /** The tags whose records carry detections. */
  const DetectionKinds: set<string> := {"mask", "instance_mask", "points", "boxes", "vectors"}

  /** The record's "data" array (`get("data").getAsJsonArray()`). */
  function DataArray(obj: Members): (r: Result<seq<Json>>)
    ensures !Has(obj, "data") ==> r == Err(NullPointer)
    ensures Has(obj, "data") ==> r == AsArray(Get(obj, "data").value)
  {
    var data :- Require(obj, "data");
    AsArray(data)
  }

  /** JsonObject.getAsJsonObject(name) with its result dereferenced: a
      missing member is null (a NullPointerException at the next use),
      a member of another shape a ClassCastException. */
  function MemberObject(m: Members, key: string): (r: Result<Members>)
    ensures !Has(m, key) ==> r == Err(NullPointer)
    ensures r.Ok? <==> Has(m, key) && Get(m, key).value.JObj?
    ensures r.Ok? ==> r.value == Get(m, key).value.members
    ensures Has(m, key) && !Get(m, key).value.JObj? ==> r == Err(ClassCast)
  {
    match Get(m, key)
    case None => Err(NullPointer)
    case Some(j) => if j.JObj? then Ok(j.members) else Err(ClassCast)
  }

  /** JsonObject.getAsJsonArray(name) with its result dereferenced. */
  function MemberArray(m: Members, key: string): (r: Result<seq<Json>>)
    ensures !Has(m, key) ==> r == Err(NullPointer)
    ensures r.Ok? <==> Has(m, key) && Get(m, key).value.JArr?
    ensures r.Ok? ==> r.value == Get(m, key).value.items
    ensures Has(m, key) && !Get(m, key).value.JArr? ==> r == Err(ClassCast)
  {
    match Get(m, key)
    case None => Err(NullPointer)
    case Some(j) => if j.JArr? then Ok(j.items) else Err(ClassCast)
  }

  /** The first position of a GeoJSON MultiPoint feature (section 3.1.3 of
      RFC 7946): `geometry.coordinates[0][0]` and `[0][1]`, read as
      doubles; a missing position or coordinate is an
      IndexOutOfBoundsException. */
  function FirstPosition(item: Json): (r: Result<Point>)
  {
    var m :- AsObject(item);
    var geometry :- MemberObject(m, "geometry");
    var coordinates :- MemberArray(geometry, "coordinates");
    if |coordinates| == 0 then Err(IndexOutOfBounds)
    else
      var first :- AsArray(coordinates[0]);
      if |first| == 0 then Err(IndexOutOfBounds)
      else
        var x :- AsDouble(first[0]);
        if |first| < 2 then Err(IndexOutOfBounds)
        else
          var y :- AsDouble(first[1]);
          Ok(Point(x, y))
  }

  /** A GeoJSON position. The coordinates' literal text is left empty:
      positions are only read back through getAsDouble (AsDouble in
      FirstPosition), which reads a number's value and never its text. */
  function Position(p: Point): Json {
    JArr([JNum("", p.x), JNum("", p.y)])
  }

  /** The geometry of a MultiPoint feature. */
  function MultiPoint(ps: seq<Point>): Members {
    [("type", JStr("MultiPoint")), ("coordinates", JArr(seq(|ps|, i requires 0 <= i < |ps| => Position(ps[i]))))]
  }

  /** A MultiPoint feature as a server writes it. */
  function MultiPointFeature(ps: seq<Point>): Json {
    JObj([("type", JStr("Feature")), ("geometry", JObj(MultiPoint(ps)))])
  }

  /** A points record reads the first position of a feature and nothing
      after it. */
  lemma FirstPositionOfFeature(ps: seq<Point>)
    requires |ps| > 0
    ensures FirstPosition(MultiPointFeature(ps)) == Ok(ps[0])
  {
    var coords := JArr(seq(|ps|, i requires 0 <= i < |ps| => Position(ps[i])));
    var geometry := MultiPoint(ps);
    var feature := [("type", JStr("Feature")), ("geometry", JObj(geometry))];
    GetCons(("type", JStr("Feature")), [("geometry", JObj(geometry))], "geometry");
    GetCons(("geometry", JObj(geometry)), [], "geometry");
    assert [("geometry", JObj(geometry))] == [("geometry", JObj(geometry))] + [];
    assert MemberObject(feature, "geometry") == Ok(geometry);
    GetCons(("type", JStr("MultiPoint")), [("coordinates", coords)], "coordinates");
    GetCons(("coordinates", coords), [], "coordinates");
    assert [("coordinates", coords)] == [("coordinates", coords)] + [];
    assert MemberArray(geometry, "coordinates") == Ok(coords.items);
    assert coords.items[0] == Position(ps[0]);
  }

  /** PathObjects.createDetectionObject(ROIs.createPointsROI([p], plane));
      a null plane is the default plane. */
  function NewPointDetection(p: Point, plane: Option<Plane>): PathObject {
    PathObject(true, Roi(PointsRoi, [p], plane.GetOr(DefaultPlane)), None, map[])
  }

  /** One element of a points record: a one-point detection at the placed
      first position, on the region's plane. */
  function PointDetection(item: Json, r: Region): (res: Result<PathObject>)
    ensures res.Ok? <==> FirstPosition(item).Ok?
    ensures res.Ok? ==>
      && res.value.detection && res.value.roi.kind == PointsRoi
      && res.value.roi.vertices == [Place(r, FirstPosition(item).value)]
      && res.value.roi.plane == r.plane.GetOr(DefaultPlane)
      && res.value.pathClass == None && res.value.measurements == map[]
  {
    var p :- FirstPosition(item);
    Ok(PlaceObject(NewPointDetection(p, r.plane), r))
  }

  /** A points record's detections: one per element, in element order. */
  function PointDetections(items: seq<Json>, r: Region): (res: Result<seq<PathObject>>)
    ensures res.Ok? <==> forall i :: 0 <= i < |items| ==> FirstPosition(items[i]).Ok?
    ensures res.Ok? ==> |res.value| == |items|
    ensures res.Ok? ==> forall i :: 0 <= i < |items| ==> res.value[i] == PointDetection(items[i], r).value
  {
    MapAll(PointReader(r), items)
  }

  function PointReader(r: Region): Json -> Result<PathObject> {
    item => PointDetection(item, r)
  }

  /** The loop of a points record. */
  method ReadPoints(items: seq<Json>, r: Region) returns (res: Result<seq<PathObject>>)
    ensures res == PointDetections(items, r)
  {
    var dets: seq<PathObject> := [];
    for i := 0 to |items|
      invariant MapAll(PointReader(r), items[..i]) == Ok(dets)
    {
      MapAllStep(PointReader(r), items, i);
      var d := PointDetection(items[i], r);
      assert PointReader(r)(items[i]) == d;
      if d.Err? {
        assert forall k :: 0 <= k < i ==> items[..i][k] == items[k];
        MapAllFirstError(PointReader(r), items, i);
        return Err(d.error);
      }
      dets := dets + [d.value];
    }
    assert items[..|items|] == items;
    res := Ok(dets);
    assert res == MapAll(PointReader(r), items);
  }

  /** A measurement column: the member's text, decoded. Any exception on
      the way is wrapped in a RuntimeException. */
  function Column(v: Json, tiff: TiffDecoder): (r: Result<seq<real>>)
    ensures r.Err? ==> r.error.Runtime?
  {
    match AsString(v)
    case Err(e) => Err(Runtime(e))
    case Ok(text) =>
      match tiff(text)
      case Err(e) => Err(Runtime(e))
      case Ok(values) => Ok(values)
  }

  /** An object's measurement under a name, if it has one. */
  function Measurement(o: PathObject, name: string): Option<real> {
    if name in o.measurements then Some(o.measurements[name]) else None
  }

  /** One feature applied to detection `idx`: "class" sets the class to
      the idx-th label (an index past the end throws); any other feature
      sets the measurement of its name to the idx-th decoded value, when
      there is one. */
  function AttachEntry(entry: (string, Json), idx: nat, o: PathObject, tiff: TiffDecoder): (r: Result<PathObject>)
    ensures entry.0 != "class" && r.Err? ==> r.error.Runtime?
    ensures r.Ok? ==> r.value.detection == o.detection && r.value.roi == o.roi
  {
    if entry.0 == "class" then
      var labels :- AsArray(entry.1);
      if idx >= |labels| then Err(IndexOutOfBounds)
      else
        var name :- AsString(labels[idx]);
        Ok(o.(pathClass := Some(ClassFromName(name))))
    else
      var column :- Column(entry.1, tiff);
      if idx < |column| then Ok(o.(measurements := o.measurements[entry.0 := column[idx]]))
      else Ok(o)
  }

  /** The inner loop: every feature, in key order, applied to detection
      `idx`. */
  function AttachKeys(features: Members, idx: nat, o: PathObject, tiff: TiffDecoder): (r: Result<PathObject>)
    ensures "class" !in Keys(features) && r.Err? ==> r.error.Runtime?
    decreases |features|
  {
    if features == [] then Ok(o)
    else
      var init := features[..|features| - 1];
      assert Keys(init) == Keys(features)[..|init|];
      var prev :- AttachKeys(init, idx, o, tiff);
      AttachEntry(features[|features| - 1], idx, prev, tiff)
  }

  /** The outer loop: detection idx gets the idx-th entry of every
      feature. */
  function AttachAll(features: Members, dets: seq<PathObject>, tiff: TiffDecoder): (r: Result<seq<PathObject>>)
    ensures r.Ok? <==> forall i :: 0 <= i < |dets| ==> AttachKeys(features, i, dets[i], tiff).Ok?
    ensures r.Ok? ==> |r.value| == |dets|
    ensures r.Ok? ==> forall i :: 0 <= i < |dets| ==> r.value[i] == AttachKeys(features, i, dets[i], tiff).value
    ensures "class" !in Keys(features) && r.Err? ==> r.error.Runtime?
    decreases |dets|
  {
    if dets == [] then Ok([])
    else
      var n := |dets| - 1;
      var init := dets[..n];
      assert forall i :: 0 <= i < n ==> init[i] == dets[i];
      var prev :- AttachAll(features, init, tiff);
      var x :- AttachKeys(features, n, dets[n], tiff);
      Ok(prev + [x])
  }

  /** The keys of a list are the keys before its last entry, and that
      entry's key. */
  lemma KeysSnoc(features: Members)
    requires features != []
    ensures var n := |features| - 1;
      forall k :: k in Keys(features) <==> k in Keys(features[..n]) || k == features[n].0
  {
    var n := |features| - 1;
    assert Keys(features) == Keys(features[..n]) + [features[n].0];
  }

  /** The last feature of a list is not among the keys before it. */
  lemma LastKeyFresh(features: Members)
    requires DistinctKeys(features) && features != []
    ensures var n := |features| - 1;
      && DistinctKeys(features[..n])
      && features[n].0 !in Keys(features[..n])
  {
    var n := |features| - 1;
    assert forall j :: 0 <= j < n ==> features[..n][j] == features[j];
  }

  /** Attaching features never moves a detection or changes its kind. */
  lemma {:induction false} AttachKeysKeepsRoi(features: Members, idx: nat, o: PathObject, tiff: TiffDecoder)
    requires AttachKeys(features, idx, o, tiff).Ok?
    ensures AttachKeys(features, idx, o, tiff).value.roi == o.roi
    ensures AttachKeys(features, idx, o, tiff).value.detection == o.detection
    decreases |features|
  {
    if features != [] {
      AttachKeysKeepsRoi(features[..|features| - 1], idx, o, tiff);
    }
  }

  /** One feature other than "class" leaves the class alone; "class"
      sets it from the idx-th label. */
  lemma AttachEntryClass(e: (string, Json), idx: nat, o: PathObject, tiff: TiffDecoder)
    requires AttachEntry(e, idx, o, tiff).Ok?
    ensures e.0 != "class" ==> AttachEntry(e, idx, o, tiff).value.pathClass == o.pathClass
    ensures e.0 == "class" ==>
      && e.1.JArr? && idx < |e.1.items| && AsString(e.1.items[idx]).Ok?
      && AttachEntry(e, idx, o, tiff).value.pathClass == Some(ClassFromName(AsString(e.1.items[idx]).value))
  {
  }

  /** Without a "class" feature the class is kept. */
  lemma {:induction false} AttachKeysKeepsClass(features: Members, idx: nat, o: PathObject, tiff: TiffDecoder)
    requires AttachKeys(features, idx, o, tiff).Ok?
    requires "class" !in Keys(features)
    ensures AttachKeys(features, idx, o, tiff).value.pathClass == o.pathClass
    decreases |features|
  {
    if features != [] {
      var n := |features| - 1;
      KeysSnoc(features);
      AttachKeysKeepsClass(features[..n], idx, o, tiff);
      AttachEntryClass(features[n], idx, AttachKeys(features[..n], idx, o, tiff).value, tiff);
    }
  }

  /** A "class" feature holds a label at idx, and that label becomes the
      class. */
  lemma {:induction false} AttachKeysClass(features: Members, idx: nat, o: PathObject, tiff: TiffDecoder, j: nat)
    requires DistinctKeys(features)
    requires AttachKeys(features, idx, o, tiff).Ok?
    requires j < |features| && features[j].0 == "class"
    ensures features[j].1.JArr? && idx < |features[j].1.items|
    ensures AsString(features[j].1.items[idx]).Ok?
    ensures AttachKeys(features, idx, o, tiff).value.pathClass ==
      Some(ClassFromName(AsString(features[j].1.items[idx]).value))
    decreases |features|
  {
    var n := |features| - 1;
    var init := features[..n];
    LastKeyFresh(features);
    var prev := AttachKeys(init, idx, o, tiff).value;
    AttachEntryClass(features[n], idx, prev, tiff);
    if j < n {
      assert init[j] == features[j];
      assert features[j].0 != features[n].0;
      AttachKeysClass(init, idx, o, tiff, j);
    }
  }

  /** One feature touches at most the measurement of its own name. */
  lemma AttachEntryMeasurement(e: (string, Json), idx: nat, o: PathObject, tiff: TiffDecoder)
    requires AttachEntry(e, idx, o, tiff).Ok?
    ensures forall name :: name != e.0 ==>
      Measurement(AttachEntry(e, idx, o, tiff).value, name) == Measurement(o, name)
    ensures e.0 != "class" ==>
      && Column(e.1, tiff).Ok?
      && Measurement(AttachEntry(e, idx, o, tiff).value, e.0) ==
           if idx < |Column(e.1, tiff).value| then Some(Column(e.1, tiff).value[idx]) else Measurement(o, e.0)
  {
  }

  /** Names that are not features keep their measurements. */
  lemma {:induction false} AttachKeysKeepsOthers(features: Members, idx: nat, o: PathObject, tiff: TiffDecoder, name: string)
    requires AttachKeys(features, idx, o, tiff).Ok?
    requires name !in Keys(features)
    ensures Measurement(AttachKeys(features, idx, o, tiff).value, name) == Measurement(o, name)
    decreases |features|
  {
    if features != [] {
      var n := |features| - 1;
      KeysSnoc(features);
      AttachKeysKeepsOthers(features[..n], idx, o, tiff, name);
      AttachEntryMeasurement(features[n], idx, AttachKeys(features[..n], idx, o, tiff).value, tiff);
    }
  }

  /** Every other feature decodes, and its idx-th value, when there is
      one, becomes the measurement of its name. */
  lemma {:induction false} AttachKeysMeasurement(features: Members, idx: nat, o: PathObject, tiff: TiffDecoder, j: nat)
    requires DistinctKeys(features)
    requires AttachKeys(features, idx, o, tiff).Ok?
    requires j < |features| && features[j].0 != "class"
    ensures Column(features[j].1, tiff).Ok?
    ensures Measurement(AttachKeys(features, idx, o, tiff).value, features[j].0) ==
      if idx < |Column(features[j].1, tiff).value| then Some(Column(features[j].1, tiff).value[idx])
      else Measurement(o, features[j].0)
    decreases |features|
  {
    var n := |features| - 1;
    var init := features[..n];
    LastKeyFresh(features);
    var prev := AttachKeys(init, idx, o, tiff).value;
    AttachEntryMeasurement(features[n], idx, prev, tiff);
    if j < n {
      assert init[j] == features[j];
      assert features[j].0 != features[n].0;
      AttachKeysMeasurement(init, idx, o, tiff, j);
    } else {
      AttachKeysKeepsOthers(init, idx, o, tiff, features[n].0);
    }
  }

  /** A "class" feature with fewer labels than there are detections
      makes the whole attachment fail: nothing is left unclassified. */
  lemma ShortLabelsFail(features: Members, dets: seq<PathObject>, tiff: TiffDecoder, j: nat)
    requires DistinctKeys(features)
    requires j < |features| && features[j].0 == "class"
    requires features[j].1.JArr? && |features[j].1.items| < |dets|
    ensures AttachAll(features, dets, tiff).Err?
  {
    var k := |features[j].1.items|;
    if AttachKeys(features, k, dets[k], tiff).Ok? {
      AttachKeysClass(features, k, dets[k], tiff, j);
    }
  }

  /** Once a feature fails, the inner loop has stopped. */
  lemma {:induction false} AttachKeysStops(features: Members, idx: nat, o: PathObject, tiff: TiffDecoder, k: nat)
    requires k <= |features|
    requires AttachKeys(features[..k], idx, o, tiff).Err?
    ensures AttachKeys(features, idx, o, tiff) == AttachKeys(features[..k], idx, o, tiff)
    decreases |features| - k
  {
    if k < |features| {
      assert features[..k + 1][..k] == features[..k];
      AttachKeysStops(features, idx, o, tiff, k + 1);
    } else {
      assert features[..k] == features;
    }
  }

  /** Once a detection fails, the outer loop has stopped. */
  lemma {:induction false} AttachAllStops(features: Members, dets: seq<PathObject>, tiff: TiffDecoder, m: nat)
    requires m <= |dets|
    requires AttachAll(features, dets[..m], tiff).Err?
    ensures AttachAll(features, dets, tiff) == AttachAll(features, dets[..m], tiff)
    decreases |dets| - m
  {
    if m < |dets| {
      assert dets[..m + 1][..m] == dets[..m];
      AttachAllStops(features, dets, tiff, m + 1);
    } else {
      assert dets[..m] == dets;
    }
  }

  /** The inner loop: every feature's idx-th entry, in key order, on one
      detection. */
  method AttachOne(features: Members, idx: nat, o0: PathObject, tiff: TiffDecoder) returns (r: Result<PathObject>)
    ensures r == AttachKeys(features, idx, o0, tiff)
  {
    var o := o0;
    for k := 0 to |features|
      invariant AttachKeys(features[..k], idx, o0, tiff) == Ok(o)
    {
      assert features[..k + 1][..k] == features[..k];
      var e := AttachEntry(features[k], idx, o, tiff);
      if e.Err? {
        AttachKeysStops(features, idx, o0, tiff, k + 1);
        return Err(e.error);
      }
      o := e.value;
    }
    assert features[..|features|] == features;
    return Ok(o);
  }

  /** The step the outer loop takes at detection idx. */
  lemma AttachAllStep(features: Members, dets: seq<PathObject>, tiff: TiffDecoder, idx: nat)
    requires idx < |dets|
    ensures AttachAll(features, dets[..idx + 1], tiff) ==
      match AttachAll(features, dets[..idx], tiff)
      case Err(e) => Err(e)
      case Ok(prev) =>
        match AttachKeys(features, idx, dets[idx], tiff)
        case Err(e) => Err(e)
        case Ok(x) => Ok(prev + [x])
  {
    assert dets[..idx + 1][..idx] == dets[..idx];
  }

  /** The nested loops of the attachment, updating each detection in
      place. */
  method AttachFeatures(features: Members, dets: seq<PathObject>, tiff: TiffDecoder) returns (r: Result<seq<PathObject>>)
    ensures r == AttachAll(features, dets, tiff)
  {
    var detections := dets;
    for idx := 0 to |dets|
      invariant |detections| == |dets|
      invariant forall i :: idx <= i < |dets| ==> detections[i] == dets[i]
      invariant AttachAll(features, dets[..idx], tiff) == Ok(detections[..idx])
    {
      var o := AttachOne(features, idx, detections[idx], tiff);
      AttachAllStep(features, dets, tiff, idx);
      if o.Err? {
        AttachAllStops(features, dets, tiff, idx + 1);
        return Err(o.error);
      }
      ghost var before := detections[..idx];
      detections := detections[idx := o.value];
      assert detections[..idx + 1] == before + [o.value];
    }
    assert dets[..|dets|] == dets;
    assert detections[..|dets|] == detections;
    return Ok(detections);
  }

  /** The `switch` on a record's type. "image" and "tracks" only show a
      message; "mask" reads its data leniently (non-objects are dropped),
      "instance_mask", "boxes" and "vectors" strictly (a non-object
      throws); "points" builds one detection per element; "notification"
      shows its text at its level; any other tag does nothing. */
  function Dispatch(decode: ObjectDecoder, r: Region, obj: Members, dataParams: Members, kind: string): Result<Outcome> {
    if kind == "image" || kind == "tracks" then
      Ok(Outcome(Unsupported(kind), []))
    else if kind == "mask" || kind == "instance_mask" || kind == "boxes" || kind == "vectors" then
      var items :- DataArray(obj);
      var objs :- ParseElements(decode, items, kind != "mask");
      Ok(Outcome(NoMessage, PlaceAll(objs, r)))
    else if kind == "points" then
      var items :- DataArray(obj);
      var dets :- PointDetections(items, r);
      Ok(Outcome(NoMessage, dets))
    else if kind == "notification" then
      var text :- RequiredString(obj, "data");
      var level :- NotificationLevel(dataParams);
      Ok(Outcome(Notified(SeverityOf(level), text), []))
    else
      Ok(Outcome(NoMessage, []))
  }

  /** A record read up to the end of its `switch`: its data parameters
      and what the switch produced. The switch shows its message as its
      last step, so a record that gets this far has shown it. */
  function Switched(decode: ObjectDecoder, r: Region, element: Json): Result<(Members, Outcome)> {
    var obj :- AsObject(element);
    var dp :- Require(obj, "data_params");
    var dataParams :- AsObject(dp);
    var kind :- RequiredString(obj, "type");
    var out :- Dispatch(decode, r, obj, dataParams, kind);
    Ok((dataParams, out))
  }

  /** One record of the reply: its data parameters and type are read, it
      is dispatched, and the features in its data parameters are
      attached to its detections. */
  function DecodeRecord(decode: ObjectDecoder, tiff: TiffDecoder, r: Region, element: Json): Result<Outcome> {
    var sw :- Switched(decode, r, element);
    var dataParams, out := sw.0, sw.1;
    if Has(dataParams, "features") then
      var features :- AsObject(Get(dataParams, "features").value);
      var dets :- AttachAll(features, out.detections, tiff);
      Ok(out.(detections := dets))
    else
      Ok(out)
  }

  /** The message a record shows, whether or not its reading then
      throws: its switch's message once the switch has finished, and
      nothing when the reading throws before that. */
  function RecordMessage(decode: ObjectDecoder, r: Region, element: Json): (s: Shown)
    ensures Switched(decode, r, element).Err? ==> s == NoMessage
    ensures forall tiff: TiffDecoder :: DecodeRecord(decode, tiff, r, element).Ok? ==>
              s == DecodeRecord(decode, tiff, r, element).value.shown
  {
    match Switched(decode, r, element)
    case Err(_) => NoMessage
    case Ok(sw) => sw.1.shown
  }

  /** A features step that throws comes after the switch: the record
      fails with IllegalStateException, but the message its switch
      showed stays shown. */
  lemma FeaturesFailureAfterMessage(decode: ObjectDecoder, tiff: TiffDecoder, r: Region, element: Json)
    requires Switched(decode, r, element).Ok?
    requires var dataParams := Switched(decode, r, element).value.0;
      Has(dataParams, "features") && !Get(dataParams, "features").value.JObj?
    ensures DecodeRecord(decode, tiff, r, element) == Err(IllegalState)
    ensures RecordMessage(decode, r, element) == Switched(decode, r, element).value.1.shown
  {
  }

  /** A record as a server writes it. */
  function Record(kind: string, dataParams: Members, data: Json): Json {
    JObj([("type", JStr(kind)), ("data_params", JObj(dataParams)), ("data", data)])
  }

  /** The members of a written record are found where they were put. */
  lemma RecordMembers(kind: string, dataParams: Members, data: Json)
    ensures var m := Record(kind, dataParams, data).members;
      && Get(m, "type") == Some(JStr(kind))
      && Get(m, "data_params") == Some(JObj(dataParams))
      && Get(m, "data") == Some(data)
  {
    var e0 := ("type", JStr(kind));
    var e1 := ("data_params", JObj(dataParams));
    var e2 := ("data", data);
    assert [e0, e1, e2] == [e0] + ([e1] + ([e2] + []));
    GetCons(e2, [], "type");
    GetCons(e2, [], "data_params");
    GetCons(e2, [], "data");
    GetCons(e1, [e2], "type");
    GetCons(e1, [e2], "data_params");
    GetCons(e1, [e2], "data");
    GetCons(e0, [e1, e2], "type");
    GetCons(e0, [e1, e2], "data_params");
    GetCons(e0, [e1, e2], "data");
  }

  /** A written record decodes to its dispatch when it carries no
      features, or when the dispatch throws. */
  lemma RecordIsDispatched(decode: ObjectDecoder, tiff: TiffDecoder, r: Region, kind: string, dataParams: Members, data: Json)
    requires !Has(dataParams, "features") || Dispatch(decode, r, Record(kind, dataParams, data).members, dataParams, kind).Err?
    ensures DecodeRecord(decode, tiff, r, Record(kind, dataParams, data)) ==
            Dispatch(decode, r, Record(kind, dataParams, data).members, dataParams, kind)
  {
    RecordMembers(kind, dataParams, data);
  }

  /** Only the five detection tags yield detections; "image" and "tracks"
      only say they are unsupported, and a detection tag shows no
      message. */
  lemma DispatchKinds(decode: ObjectDecoder, r: Region, obj: Members, dataParams: Members, kind: string)
    requires Dispatch(decode, r, obj, dataParams, kind).Ok?
    ensures var out := Dispatch(decode, r, obj, dataParams, kind).value;
      && (kind !in DetectionKinds ==> out.detections == [])
      && (kind == "image" || kind == "tracks" ==> out.shown == Unsupported(kind))
      && (kind in DetectionKinds ==> out.shown == NoMessage)
  {
  }

  /** A decoded record shows what its dispatch shows, and has as many
      detections as its dispatch produced. */
  lemma RecordFollowsDispatch(decode: ObjectDecoder, tiff: TiffDecoder, r: Region, element: Json)
    requires DecodeRecord(decode, tiff, r, element).Ok?
    ensures element.JObj? && Get(element.members, "data_params").Some?
    ensures Get(element.members, "data_params").value.JObj?
    ensures RequiredString(element.members, "type").Ok?
    ensures var obj := element.members;
      var dataParams := Get(obj, "data_params").value.members;
      var d := Dispatch(decode, r, obj, dataParams, RequiredString(obj, "type").value);
      var out := DecodeRecord(decode, tiff, r, element).value;
      && d.Ok? && out.shown == d.value.shown
      && |out.detections| == |d.value.detections|
  {
  }

  /** The same for a whole record: only the detection tags yield
      detections, whatever features the record carries. */
  lemma DetectionsOnlyFromDetectionKinds(decode: ObjectDecoder, tiff: TiffDecoder, r: Region, element: Json)
    requires DecodeRecord(decode, tiff, r, element).Ok?
    ensures element.JObj? && RequiredString(element.members, "type").Ok?
    ensures var kind := RequiredString(element.members, "type").value;
      var out := DecodeRecord(decode, tiff, r, element).value;
      && (kind !in DetectionKinds ==> out.detections == [])
      && (kind == "image" || kind == "tracks" ==> out.shown == Unsupported(kind))
      && (kind in DetectionKinds ==> out.shown == NoMessage)
  {
    RecordFollowsDispatch(decode, tiff, r, element);
    var obj := element.members;
    DispatchKinds(decode, r, obj, Get(obj, "data_params").value.members, RequiredString(obj, "type").value);
  }

  /** A notification record shows its text at the severity its level
      names, and yields no detection. */
  lemma NotificationRecord(decode: ObjectDecoder, tiff: TiffDecoder, r: Region, dataParams: Members, text: string)
    requires !Has(dataParams, "features")
    requires NotificationLevel(dataParams).Ok?
    ensures DecodeRecord(decode, tiff, r, Record("notification", dataParams, JStr(text))) ==
      Ok(Outcome(Notified(SeverityOf(NotificationLevel(dataParams).value), text), []))
  {
    var m := Record("notification", dataParams, JStr(text)).members;
    assert RequiredString(m, "data") == Ok(text) by {
      RecordMembers("notification", dataParams, JStr(text));
    }
    NotificationDispatch(decode, r, m, dataParams, text);
    RecordIsDispatched(decode, tiff, r, "notification", dataParams, JStr(text));
  }

  /** A notification whose "features" is not an object: its text is shown
      at its level, and then the record throws IllegalStateException. */
  lemma NotificationThenFeaturesFailure(decode: ObjectDecoder, tiff: TiffDecoder, r: Region, dataParams: Members,
                                        text: string, features: Json)
    requires Get(dataParams, "features") == Some(features) && !features.JObj?
    requires NotificationLevel(dataParams).Ok?
    ensures var rec := Record("notification", dataParams, JStr(text));
      && DecodeRecord(decode, tiff, r, rec) == Err(IllegalState)
      && RecordMessage(decode, r, rec) == Notified(SeverityOf(NotificationLevel(dataParams).value), text)
  {
    NotificationSwitched(decode, r, dataParams, text);
    FeaturesFailureAfterMessage(decode, tiff, r, Record("notification", dataParams, JStr(text)));
  }

  /** A notification record gets through its switch with its message. */
  lemma NotificationSwitched(decode: ObjectDecoder, r: Region, dataParams: Members, text: string)
    requires NotificationLevel(dataParams).Ok?
    ensures Switched(decode, r, Record("notification", dataParams, JStr(text))) ==
      Ok((dataParams, Outcome(Notified(SeverityOf(NotificationLevel(dataParams).value), text), [])))
  {
    var m := Record("notification", dataParams, JStr(text)).members;
    assert RequiredString(m, "type") == Ok("notification") && RequiredString(m, "data") == Ok(text)
        && Get(m, "data_params") == Some(JObj(dataParams)) by {
      RecordMembers("notification", dataParams, JStr(text));
    }
    NotificationDispatch(decode, r, m, dataParams, text);
    assert Require(m, "data_params") == Ok(JObj(dataParams));
  }

  /** The switch's notification case: the record's text at the severity
      its level names. */
  lemma NotificationDispatch(decode: ObjectDecoder, r: Region, obj: Members, dataParams: Members, text: string)
    requires RequiredString(obj, "data") == Ok(text)
    requires NotificationLevel(dataParams).Ok?
    ensures Dispatch(decode, r, obj, dataParams, "notification") ==
      Ok(Outcome(Notified(SeverityOf(NotificationLevel(dataParams).value), text), []))
  {
  }

  /** Data made only of non-objects is an empty result in a "mask"
      record: parsePathObject drops each element. */
  lemma MaskSkipsNonObjects(decode: ObjectDecoder, tiff: TiffDecoder, r: Region, dataParams: Members, items: seq<Json>)
    requires !Has(dataParams, "features")
    requires forall i :: 0 <= i < |items| ==> !items[i].JObj?
    ensures DecodeRecord(decode, tiff, r, Record("mask", dataParams, JArr(items))) == Ok(Outcome(NoMessage, []))
  {
    LenientSkipsNonObjects(decode, items);
    var m := Record("mask", dataParams, JArr(items)).members;
    assert DataArray(m) == Ok(items) by {
      RecordMembers("mask", dataParams, JArr(items));
    }
    assert PlaceAll([], r) == [];
    assert Dispatch(decode, r, m, dataParams, "mask") == Ok(Outcome(NoMessage, []));
    RecordIsDispatched(decode, tiff, r, "mask", dataParams, JArr(items));
  }

  /** In "instance_mask", "boxes" and "vectors" records, a non-object
      element (after elements that decode) is an
      IllegalStateException. */
  lemma StrictKindsRejectNonObjects(decode: ObjectDecoder, tiff: TiffDecoder, r: Region, dataParams: Members,
                                    items: seq<Json>, kind: string, k: nat)
    requires kind == "instance_mask" || kind == "boxes" || kind == "vectors"
    requires k < |items| && !items[k].JObj?
    requires forall i :: 0 <= i < k ==> ParseElement(decode, items[i], true).Ok?
    ensures DecodeRecord(decode, tiff, r, Record(kind, dataParams, JArr(items))) == Err(IllegalState)
  {
    StrictRejectsNonObject(decode, items, k);
    var m := Record(kind, dataParams, JArr(items)).members;
    assert DataArray(m) == Ok(items) by {
      RecordMembers(kind, dataParams, JArr(items));
    }
    assert Dispatch(decode, r, m, dataParams, kind) == Err(IllegalState);
    RecordIsDispatched(decode, tiff, r, kind, dataParams, JArr(items));
  }

  /** The data of a points record: one MultiPoint feature per point
      list. */
  function MultiPointFeatures(pss: seq<seq<Point>>): (items: seq<Json>)
    ensures |items| == |pss|
    ensures forall i :: 0 <= i < |pss| ==> items[i] == MultiPointFeature(pss[i])
  {
    seq(|pss|, i requires 0 <= i < |pss| => MultiPointFeature(pss[i]))
  }

  /** A points record of readable elements decodes to their point
      detections and shows no message. */
  lemma PointsRecordDecodes(decode: ObjectDecoder, tiff: TiffDecoder, r: Region, dataParams: Members, items: seq<Json>)
    requires !Has(dataParams, "features")
    requires PointDetections(items, r).Ok?
    ensures DecodeRecord(decode, tiff, r, Record("points", dataParams, JArr(items))) ==
      Ok(Outcome(NoMessage, PointDetections(items, r).value))
  {
    var m := Record("points", dataParams, JArr(items)).members;
    assert DataArray(m) == Ok(items) by {
      RecordMembers("points", dataParams, JArr(items));
    }
    assert Dispatch(decode, r, m, dataParams, "points") == Ok(Outcome(NoMessage, PointDetections(items, r).value));
    RecordIsDispatched(decode, tiff, r, "points", dataParams, JArr(items));
  }

  /** A points record of MultiPoint features yields one point detection
      per feature, in order, at the placed first position of each. */
  lemma PointsRecord(decode: ObjectDecoder, tiff: TiffDecoder, r: Region, dataParams: Members, pss: seq<seq<Point>>)
    requires !Has(dataParams, "features")
    requires forall i :: 0 <= i < |pss| ==> |pss[i]| > 0
    ensures var res := DecodeRecord(decode, tiff, r, Record("points", dataParams, JArr(MultiPointFeatures(pss))));
      && res.Ok? && res.value.shown == NoMessage
      && |res.value.detections| == |pss|
      && forall i :: 0 <= i < |pss| ==>
           && res.value.detections[i].detection
           && res.value.detections[i].roi.vertices == [Place(r, pss[i][0])]
  {
    var items := MultiPointFeatures(pss);
    forall i | 0 <= i < |pss|
      ensures FirstPosition(items[i]) == Ok(pss[i][0])
    {
      FirstPositionOfFeature(pss[i]);
    }
    PointsRecordDecodes(decode, tiff, r, dataParams, items);
  }

  /** One record, as the loop body of `run` reads it. */
  method ReadRecord(decode: ObjectDecoder, tiff: TiffDecoder, r: Region, element: Json)
    returns (res: Result<Outcome>, message: Shown)
    ensures res == DecodeRecord(decode, tiff, r, element)
    ensures message == RecordMessage(decode, r, element)
  {
    message := NoMessage;
    var obj := AsObject(element);
    if obj.Err? {
      res := Err(obj.error);
      return;
    }
    var dp := Require(obj.value, "data_params");
    if dp.Err? {
      res := Err(dp.error);
      return;
    }
    var dataParams := AsObject(dp.value);
    if dataParams.Err? {
      res := Err(dataParams.error);
      return;
    }
    var kind := RequiredString(obj.value, "type");
    if kind.Err? {
      res := Err(kind.error);
      return;
    }
    var shown := NoMessage;
    var detections: seq<PathObject> := [];
    var t := kind.value;
    if t == "image" || t == "tracks" {
      shown := Unsupported(t);
    } else if t == "mask" || t == "instance_mask" || t == "boxes" || t == "vectors" {
      var items := DataArray(obj.value);
      if items.Err? {
        res := Err(items.error);
        return;
      }
      var objs := ParseElements(decode, items.value, t != "mask");
      if objs.Err? {
        res := Err(objs.error);
        return;
      }
      detections := PlaceEach(objs.value, r);
    } else if t == "points" {
      var items := DataArray(obj.value);
      if items.Err? {
        res := Err(items.error);
        return;
      }
      var dets := ReadPoints(items.value, r);
      if dets.Err? {
        res := Err(dets.error);
        return;
      }
      detections := dets.value;
    } else if t == "notification" {
      var text := RequiredString(obj.value, "data");
      if text.Err? {
        res := Err(text.error);
        return;
      }
      var level := NotificationLevel(dataParams.value);
      if level.Err? {
        res := Err(level.error);
        return;
      }
      shown := Notified(SeverityOf(level.value), text.value);
    }
    assert Dispatch(decode, r, obj.value, dataParams.value, t) == Ok(Outcome(shown, detections));
    assert Switched(decode, r, element) == Ok((dataParams.value, Outcome(shown, detections)));
    message := shown;
    if Has(dataParams.value, "features") {
      var features := AsObject(Get(dataParams.value, "features").value);
      if features.Err? {
        res := Err(features.error);
        return;
      }
      var dets := AttachFeatures(features.value, detections, tiff);
      if dets.Err? {
        res := Err(dets.error);
        return;
      }
      detections := dets.value;
    }
    res := Ok(Outcome(shown, detections));
  }

  /** The request of a run: the parameters and the image, POSTed to the
      algorithm's "process" route. */
  function ProcessRequest(algo: string, params: Option<Members>, image: string): (req: Request)
    ensures req.verb == POST && req.path == "/" + algo + "/process"
    ensures req.body.JsonBody? && req.body.json.JObj?
    ensures Get(req.body.json.members, "image") == Some(JStr(image))
  {
    Request(POST, "/" + algo + "/process", JsonBody(JObj(Payload(params, image))))
  }

  /** The reading of one record, as a function value. */
  function Decoder(decode: ObjectDecoder, tiff: TiffDecoder, r: Region): Json -> Result<Outcome> {
    e => DecodeRecord(decode, tiff, r, e)
  }

  /** Every decoded record is displayed, even one without detections. */
  function Batches(done: seq<Outcome>): (bs: seq<Option<seq<PathObject>>>)
    ensures |bs| == |done|
    ensures forall i :: 0 <= i < |done| ==> bs[i] == Some(done[i].detections)
  {
    seq(|done|, i requires 0 <= i < |done| => Some(done[i].detections))
  }

  /** One more decoded record is one more display. */
  lemma BatchesAppend(done: seq<Outcome>, x: Outcome)
    ensures Batches(done + [x]) == Batches(done) + [Some(x.detections)]
  {
  }

  /** `run`: with a selection, one POST; a status other than Created is
      logged and ends the run; otherwise the body is an array of records,
      handled in order until one throws. */
  function RunSpec(decode: ObjectDecoder, tiff: TiffDecoder, algo: string, params: Option<Members>,
                   selection: Option<Selection>, replies: seq<Reply>): RunResult<Outcome>
  {
    if selection.None? then RunResult(NoSelection, [])
    else
      match ReplyAt(replies, 0)
      case Err(e) => RunResult(Failed(e), [])
      case Ok(reply) =>
        if reply.status != Created then RunResult(Refusal(reply), [])
        else
          match BodyArray(reply.body)
          case Err(e) => RunResult(Failed(e), [])
          case Ok(recs) =>
            var p := Steps(Decoder(decode, tiff, selection.value.region), recs);
            RunResult(if p.failure.Some? then Failed(p.failure.value) else Finished, p.done)
  }

  /** The records a run reads: the array of a Created reply, when it
      has a selection and the reply's body is an array. */
  function ReceivedRecords(selection: Option<Selection>, replies: seq<Reply>): Option<seq<Json>> {
    if selection.Some? && |replies| > 0 && replies[0].status == Created && BodyArray(replies[0].body).Ok?
    then Some(BodyArray(replies[0].body).value)
    else None
  }

  /** The message shown by the record whose exception ended a run:
      nothing when the run ended otherwise. */
  function RunMessage(decode: ObjectDecoder, tiff: TiffDecoder, selection: Option<Selection>, replies: seq<Reply>): Shown {
    match ReceivedRecords(selection, replies)
    case None => NoMessage
    case Some(recs) =>
      var r := selection.value.region;
      FailureMessage(decode, r, recs, Steps(Decoder(decode, tiff, r), recs))
  }

  /** A run reports a failing record's message only when that record's
      exception ended the run, after the records before it; the message
      is the one the failing record's switch showed. */
  lemma RunMessageOnlyOnFailure(decode: ObjectDecoder, tiff: TiffDecoder, algo: string, params: Option<Members>,
                                selection: Option<Selection>, replies: seq<Reply>)
    requires RunMessage(decode, tiff, selection, replies) != NoMessage
    ensures ReceivedRecords(selection, replies).Some?
    ensures var recs := ReceivedRecords(selection, replies).value;
      var res := RunSpec(decode, tiff, algo, params, selection, replies);
      && res.outcome.Failed?
      && |res.records| < |recs|
      && DecodeRecord(decode, tiff, selection.value.region, recs[|res.records|]) == Err(res.outcome.error)
      && RunMessage(decode, tiff, selection, replies) == RecordMessage(decode, selection.value.region, recs[|res.records|])
  {
    var recs := ReceivedRecords(selection, replies).value;
    var r := selection.value.region;
    var p := Steps(Decoder(decode, tiff, r), recs);
    assert p.failure.Some?;
    assert Decoder(decode, tiff, r)(recs[|p.done|]) == Err(p.failure.value);
  }

  /** A run finishes exactly when the server answers Created with an array
      of records that all decode; it then has handled every record, in
      order. */
  lemma RunFinishes(decode: ObjectDecoder, tiff: TiffDecoder, algo: string, params: Option<Members>,
                    selection: Option<Selection>, replies: seq<Reply>)
    ensures var res := RunSpec(decode, tiff, algo, params, selection, replies);
      res.outcome.Finished? <==>
        && selection.Some? && |replies| > 0 && replies[0].status == Created
        && BodyArray(replies[0].body).Ok?
        && forall i :: 0 <= i < |BodyArray(replies[0].body).value| ==>
             DecodeRecord(decode, tiff, selection.value.region, BodyArray(replies[0].body).value[i]).Ok?
    ensures var res := RunSpec(decode, tiff, algo, params, selection, replies);
      res.outcome.Finished? ==>
        var recs := BodyArray(replies[0].body).value;
        && |res.records| == |recs|
        && forall i :: 0 <= i < |recs| ==>
             DecodeRecord(decode, tiff, selection.value.region, recs[i]) == Ok(res.records[i])
  {
    if selection.Some? && |replies| > 0 && replies[0].status == Created && BodyArray(replies[0].body).Ok? {
      var recs := BodyArray(replies[0].body).value;
      var f := Decoder(decode, tiff, selection.value.region);
      var p := Steps(f, recs);
      if p.failure.Some? {
        assert DecodeRecord(decode, tiff, selection.value.region, recs[|p.done|]).Err?;
      } else {
        forall i | 0 <= i < |recs|
          ensures DecodeRecord(decode, tiff, selection.value.region, recs[i]) == Ok(p.done[i])
        {
          assert f(recs[i]) == Ok(p.done[i]);
        }
      }
    }
  }

  /** A run whose request is refused, or that fails before its records,
      handles no record. */
  lemma NothingBeforeRecords(decode: ObjectDecoder, tiff: TiffDecoder, algo: string, params: Option<Members>,
                             selection: Option<Selection>, replies: seq<Reply>)
    requires selection.None? || |replies| == 0 || replies[0].status != Created
    ensures RunSpec(decode, tiff, algo, params, selection, replies).records == []
    ensures selection.Some? && |replies| > 0 ==>
      RunSpec(decode, tiff, algo, params, selection, replies).outcome == Refusal(replies[0])
  {
  }

  /** The message shown by the record whose exception ended the loop, if
      one did. */
  function FailureMessage(decode: ObjectDecoder, r: Region, recs: seq<Json>, p: Partial<Outcome>): Shown {
    if p.failure.Some? && |p.done| < |recs| then RecordMessage(decode, r, recs[|p.done|]) else NoMessage
  }

  /** The record loop of the run: each record is read, and its result shown,
      before the next is looked at; the first exception ends the loop. */
  method ShowRecords(viewer: Viewer, decode: ObjectDecoder, tiff: TiffDecoder, r: Region, recs: seq<Json>)
    returns (p: Partial<Outcome>, message: Shown)
    modifies viewer, viewer.available
    ensures p == Steps(Decoder(decode, tiff, r), recs)
    ensures message == FailureMessage(decode, r, recs, p)
    ensures viewer.State() == AfterDisplays(old(viewer.State()), Batches(p.done))
  {
    ghost var s0 := viewer.State();
    ghost var f := Decoder(decode, tiff, r);
    var done: seq<Outcome> := [];
    var i := 0;
    while i < |recs|
      invariant 0 <= i <= |recs|
      invariant Steps(f, recs[..i]) == Partial(done, None)
      invariant viewer.State() == AfterDisplays(s0, Batches(done))
    {
      var out, shown := ReadRecord(decode, tiff, r, recs[i]);
      assert f(recs[i]) == out;
      if out.Err? {
        StepsFailsAt(f, recs, i, done);
        return Partial(done, Some(out.error)), shown;
      }
      StepsExtends(f, recs, i, done);
      viewer.DisplayResult(out.value.detections);
      AfterDisplaysAppend(s0, Batches(done), Some(out.value.detections));
      BatchesAppend(done, out.value);
      done := done + [out.value];
      i := i + 1;
    }
    assert recs[..i] == recs;
    return Partial(done, None), NoMessage;
  }

  /** `run` against a server and a viewer: the request it sends, how it
      ends, and what it displays (each finished record, in order). */
  method Run(server: ScriptedServer, viewer: Viewer, decode: ObjectDecoder, tiff: TiffDecoder,
             algo: string, params: Option<Members>, selection: Option<Selection>)
    returns (res: RunResult<Outcome>, message: Shown)
    modifies server, viewer, viewer.available
    ensures res == RunSpec(decode, tiff, algo, params, selection, old(server.pending))
    ensures message == RunMessage(decode, tiff, selection, old(server.pending))
    ensures selection.None? ==> server.sent == old(server.sent)
    ensures selection.Some? ==> server.sent == old(server.sent) + [ProcessRequest(algo, params, selection.value.image)]
    ensures viewer.State() == AfterDisplays(old(viewer.State()), Batches(res.records))
  {
    if selection.None? {
      return RunResult(NoSelection, []), NoMessage;
    }
    var reply := server.Exchange(ProcessRequest(algo, params, selection.value.image));
    if reply.Err? {
      return RunResult(Failed(reply.error), []), NoMessage;
    }
    if reply.value.status != Created {
      return RunResult(Refusal(reply.value), []), NoMessage;
    }
    var body := BodyArray(reply.value.body);
    if body.Err? {
      return RunResult(Failed(body.error), []), NoMessage;
    }
    var p, shown := ShowRecords(viewer, decode, tiff, selection.value.region, body.value);
    return RunResult(if p.failure.Some? then Failed(p.failure.value) else Finished, p.done), shown;
  }
}
