/** The run of the two pyalgos clients that send one request: the
    parameters and the image go out in one POST, and the reply is an
    array of records of which only "features" records are shown. The
    older client reads a features record strictly (`e.getAsJsonObject()`
    on each element); the one-shot run of PyAlgosClient reads it leniently
    (parsePathObject). */
module FeaturesRecords {
  import opened Wrappers
  import opened Json
  import opened Geometry
  import opened PathObjectUtils
  import opened Parameters
  import opened Streams
  import opened Transport
  import opened Host

  /** One record: its "type" is read; a "features" record's "data" array
      is decoded and each object placed in the selected region; any other
      tag shows nothing (None). */
  function FeaturesRecord(decode: ObjectDecoder, r: Region, element: Json, strict: bool): Result<Option<seq<PathObject>>> {
    var obj :- AsObject(element);
    var kind :- RequiredString(obj, "type");
    if kind == "features" then
      var objs :- FeaturesData(decode, r, obj, strict);
      Ok(Some(objs))
    else
      Ok(None)
  }

  /** The objects of a features record: its "data" array decoded, each
      object placed in the selected region. */
  function FeaturesData(decode: ObjectDecoder, r: Region, obj: Members, strict: bool): Result<seq<PathObject>> {
    var data :- Require(obj, "data");
    var items :- AsArray(data);
    var objs :- ParseElements(decode, items, strict);
    Ok(PlaceAll(objs, r))
  }

  /** Only an object with a string "type" is read without an exception;
      it shows objects exactly when that type is "features", and every
      other type shows nothing. */
  lemma FeaturesRecordTag(decode: ObjectDecoder, r: Region, element: Json, strict: bool)
    ensures var res := FeaturesRecord(decode, r, element, strict);
      && (res.Ok? ==> element.JObj? && RequiredString(element.members, "type").Ok?)
      && (res.Ok? ==> (res.value.Some? <==> RequiredString(element.members, "type") == Ok("features")))
      && (element.JObj? && RequiredString(element.members, "type").Ok? ==>
            (RequiredString(element.members, "type").value != "features" ==> res == Ok(None)))
      && (!element.JObj? ==> res.Err?)
  {
  }

  /** A record as a server writes it. */
  function Record(kind: string, data: Json): Json {
    JObj([("type", JStr(kind)), ("data", data)])
  }

  lemma RecordMembers(kind: string, data: Json)
    ensures Get(Record(kind, data).members, "type") == Some(JStr(kind))
    ensures Get(Record(kind, data).members, "data") == Some(data)
  {
    var e0 := ("type", JStr(kind));
    var e1 := ("data", data);
    assert [e0, e1] == [e0] + ([e1] + []);
    GetCons(e1, [], "type");
    GetCons(e1, [], "data");
    GetCons(e0, [e1], "type");
    GetCons(e0, [e1], "data");
  }

  /** A features record of objects that the host decodes shows one placed
      object per element, in element order, in both readings. */
  lemma FeaturesInOrder(decode: ObjectDecoder, r: Region, items: seq<Json>, strict: bool)
    requires forall i :: 0 <= i < |items| ==> items[i].JObj? && decode(items[i]).Ok? && decode(items[i]).value.Some?
    ensures var res := FeaturesRecord(decode, r, Record("features", JArr(items)), strict);
      && res.Ok? && res.value.Some?
      && |res.value.value| == |items|
      && forall i :: 0 <= i < |items| ==> res.value.value[i] == PlaceObject(decode(items[i]).value.value, r)
  {
    RecordMembers("features", JArr(items));
    ParseElementsAllObjects(decode, items, strict);
  }

  /** The strict reading fails on the first element that is not an
      object; the lenient one drops it. */
  lemma StrictAndLenientFeatures(decode: ObjectDecoder, r: Region, items: seq<Json>, k: nat)
    requires k < |items| && !items[k].JObj?
    requires forall i :: 0 <= i < k ==> ParseElement(decode, items[i], true).Ok?
    ensures FeaturesRecord(decode, r, Record("features", JArr(items)), true) == Err(IllegalState)
    ensures FeaturesRecord(decode, r, Record("features", JArr(items)), false) ==
            FeaturesRecord(decode, r, Record("features", JArr(items[..k] + items[k + 1..])), false)
  {
    RecordMembers("features", JArr(items));
    RecordMembers("features", JArr(items[..k] + items[k + 1..]));
    StrictRejectsNonObject(decode, items, k);
    LenientDropsNonObject(decode, items, k);
  }

  /** Every tag other than "features" is a no-op, whatever its data. */
  lemma OtherTagsShowNothing(decode: ObjectDecoder, r: Region, kind: string, data: Json, strict: bool)
    requires kind != "features"
    ensures FeaturesRecord(decode, r, Record(kind, data), strict) == Ok(None)
  {
    RecordMembers(kind, data);
  }

  /** One record, as the loop body of the run reads it. */
  method ReadFeaturesRecord(decode: ObjectDecoder, r: Region, element: Json, strict: bool) returns (res: Result<Option<seq<PathObject>>>)
    ensures res == FeaturesRecord(decode, r, element, strict)
  {
    var obj := AsObject(element);
    if obj.Err? {
      return Err(obj.error);
    }
    var kind := RequiredString(obj.value, "type");
    if kind.Err? {
      return Err(kind.error);
    }
    if kind.value != "features" {
      return Ok(None);
    }
    var data := Require(obj.value, "data");
    if data.Err? {
      return Err(data.error);
    }
    var items := AsArray(data.value);
    if items.Err? {
      return Err(items.error);
    }
    var objs := ParseElements(decode, items.value, strict);
    if objs.Err? {
      return Err(objs.error);
    }
    var placed := PlaceEach(objs.value, r);
    return Ok(Some(placed));
  }

  /** The one request: the parameters with the image's base64 text under
      "image", POSTed to the given route. */
  function RecordsRequest(path: string, params: Option<Members>, image: string): (req: Request)
    ensures req.verb == POST && req.path == path
    ensures req.body.JsonBody? && req.body.json.JObj?
    ensures Get(req.body.json.members, "image") == Some(JStr(image))
    ensures forall k :: k != "image" ==> Get(req.body.json.members, k) == Get(params.GetOr([]), k)
  {
    Request(POST, path, JsonBody(JObj(Payload(params, image))))
  }

  /** The reading of one record, as a function value. */
  function Reader(decode: ObjectDecoder, r: Region, strict: bool): Json -> Result<Option<seq<PathObject>>> {
    e => FeaturesRecord(decode, r, e, strict)
  }

  /** The run: with a selection, one POST; a status other than Created is
      logged and ends the run; otherwise the body is an array of records
      handled in order until one throws. */
  function RunSpec(decode: ObjectDecoder, strict: bool, path: string, params: Option<Members>,
                   selection: Option<Selection>, replies: seq<Reply>): RunResult<Option<seq<PathObject>>>
  {
    if selection.None? then RunResult(NoSelection, [])
    else
      match ReplyAt(replies, 0)
      case Err(e) => RunResult(Failed(e), [])
      case Ok(reply) =>
        if reply.status != Created then RunResult(Refusal(reply), [])
        else
          match BodyArray(reply.body)
          case Err(e) => RunResult(Failed(e), [])
          case Ok(recs) =>
            var p := Steps(Reader(decode, selection.value.region, strict), recs);
            RunResult(if p.failure.Some? then Failed(p.failure.value) else Finished, p.done)
  }

  /** A refused or failed request displays nothing; the records that are
      displayed are exactly the "features" records among those handled,
      each showing the objects of its own data. */
  lemma OnlyFeaturesDisplayed(decode: ObjectDecoder, strict: bool, path: string, params: Option<Members>,
                              selection: Option<Selection>, replies: seq<Reply>)
    ensures var res := RunSpec(decode, strict, path, params, selection, replies);
      (selection.None? || |replies| == 0 || replies[0].status != Created) ==> res.records == []
    ensures var res := RunSpec(decode, strict, path, params, selection, replies);
      res.records != [] ==>
        && selection.Some? && |replies| > 0 && BodyArray(replies[0].body).Ok?
        && var recs := BodyArray(replies[0].body).value;
        && |res.records| <= |recs|
        && forall i :: 0 <= i < |res.records| ==>
             && FeaturesRecord(decode, selection.value.region, recs[i], strict) == Ok(res.records[i])
             && (res.records[i].Some? <==> RequiredString(recs[i].members, "type") == Ok("features"))
  {
    var res := RunSpec(decode, strict, path, params, selection, replies);
    if res.records != [] {
      var recs := BodyArray(replies[0].body).value;
      var f := Reader(decode, selection.value.region, strict);
      assert res.records == Steps(f, recs).done;
      forall i | 0 <= i < |res.records|
        ensures FeaturesRecord(decode, selection.value.region, recs[i], strict) == Ok(res.records[i])
      {
        assert f(recs[i]) == Ok(res.records[i]);
        FeaturesRecordTag(decode, selection.value.region, recs[i], strict);
      }
    }
  }

  /** The first record that throws ends the run with its exception;
      exactly the records before it were handled. */
  lemma RunStopsAtFailingRecord(decode: ObjectDecoder, strict: bool, path: string, params: Option<Members>,
                                sel: Selection, replies: seq<Reply>, k: nat)
    requires |replies| > 0 && replies[0].status == Created && BodyArray(replies[0].body).Ok?
    requires k < |BodyArray(replies[0].body).value|
    requires forall i :: 0 <= i < k ==> FeaturesRecord(decode, sel.region, BodyArray(replies[0].body).value[i], strict).Ok?
    requires FeaturesRecord(decode, sel.region, BodyArray(replies[0].body).value[k], strict).Err?
    ensures var res := RunSpec(decode, strict, path, params, Some(sel), replies);
      && res.outcome == Failed(FeaturesRecord(decode, sel.region, BodyArray(replies[0].body).value[k], strict).error)
      && |res.records| == k
  {
    var recs := BodyArray(replies[0].body).value;
    var f := Reader(decode, sel.region, strict);
    var p := Steps(f, recs[..k]);
    assert forall i :: 0 <= i < k ==> recs[..k][i] == recs[i];
    assert f(recs[k]).Err?;
    StepsStep(f, recs, k);
    StepsStops(f, recs, k + 1);
  }

  /** The record loop of the run: each record is read, and its result shown,
      before the next is looked at; the first exception ends the loop. */
  method ShowRecords(viewer: Viewer, decode: ObjectDecoder, r: Region, strict: bool, recs: seq<Json>) returns (p: Partial<Option<seq<PathObject>>>)
    modifies viewer, viewer.available
    ensures p == Steps(Reader(decode, r, strict), recs)
    ensures viewer.State() == AfterDisplays(old(viewer.State()), p.done)
  {
    ghost var s0 := viewer.State();
    ghost var f := Reader(decode, r, strict);
    var done: seq<Option<seq<PathObject>>> := [];
    var i := 0;
    while i < |recs|
      invariant 0 <= i <= |recs|
      invariant Steps(f, recs[..i]) == Partial(done, None)
      invariant viewer.State() == AfterDisplays(s0, done)
    {
      var out := ReadFeaturesRecord(decode, r, recs[i], strict);
      assert f(recs[i]) == out;
      if out.Err? {
        StepsFailsAt(f, recs, i, done);
        return Partial(done, Some(out.error));
      }
      StepsExtends(f, recs, i, done);
      if out.value.Some? {
        viewer.DisplayResult(out.value.value);
        AfterDisplaysAppend(s0, done, out.value);
      } else {
        AfterDisplaysAppend(s0, done, None);
      }
      done := done + [out.value];
      i := i + 1;
    }
    assert recs[..i] == recs;
    return Partial(done, None);
  }

  /** The run against a server and a viewer: the request it sends, how it
      ends, and what it displays (each finished record, in order). */
  method Run(server: ScriptedServer, viewer: Viewer, decode: ObjectDecoder, strict: bool,
             path: string, params: Option<Members>, selection: Option<Selection>)
    returns (res: RunResult<Option<seq<PathObject>>>)
    modifies server, viewer, viewer.available
    ensures res == RunSpec(decode, strict, path, params, selection, old(server.pending))
    ensures selection.None? ==> server.sent == old(server.sent)
    ensures selection.Some? ==> server.sent == old(server.sent) + [RecordsRequest(path, params, selection.value.image)]
    ensures viewer.State() == AfterDisplays(old(viewer.State()), res.records)
  {
    if selection.None? {
      return RunResult(NoSelection, []);
    }
    var reply := server.Exchange(RecordsRequest(path, params, selection.value.image));
    if reply.Err? {
      return RunResult(Failed(reply.error), []);
    }
    if reply.value.status != Created {
      return RunResult(Refusal(reply.value), []);
    }
    var body := BodyArray(reply.value.body);
    if body.Err? {
      return RunResult(Failed(body.error), []);
    }
    var p := ShowRecords(viewer, decode, selection.value.region, strict, body.value);
    return RunResult(if p.failure.Some? then Failed(p.failure.value) else Finished, p.done);
  }
}
