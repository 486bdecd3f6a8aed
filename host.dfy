/** What the three clients share around a run: the part of the host's
    state that showing results changes (`displayResult`), the request
    payload, the reading of error details when a request is refused, and
    `getAlgos`. */
module Host {
  import opened Wrappers
  import opened Json
  import opened Geometry
  import opened Classifications
  import opened Transport
  import opened Parameters

  /** PathObjects.createDetectionObject(roi, class, measurements): a new
      detection with the same region, class and measurements. */
  function AsDetection(o: PathObject): PathObject {
    o.(detection := true)
  }

  function AsDetections(objs: seq<PathObject>): (ds: seq<PathObject>)
    ensures |ds| == |objs|
    ensures forall i :: 0 <= i < |objs| ==> ds[i] == AsDetection(objs[i])
  {
    seq(|objs|, i requires 0 <= i < |objs| => AsDetection(objs[i]))
  }

  /** The objects added below the selected annotation, and the list of
      available classes. */
  datatype HostState = HostState(children: seq<PathObject>, classes: seq<Option<PathClass>>)

  /** displayResult: a detection copy of each result goes below the
      selection, in order, and the classes of the results are merged into
      the available classes. */
  function Displayed(s: HostState, objs: seq<PathObject>): HostState {
    HostState(s.children + AsDetections(objs), Updated(s.classes, objs))
  }

  /** The host after a run's displays, in order; None is a record that
      displays nothing. */
  function AfterDisplays(s: HostState, batches: seq<Option<seq<PathObject>>>): (t: HostState)
    decreases |batches|
  {
    if batches == [] then s
    else
      var prev := AfterDisplays(s, batches[..|batches| - 1]);
      match batches[|batches| - 1]
      case None => prev
      case Some(objs) => Displayed(prev, objs)
  }

  /** One more record's display. */
  lemma AfterDisplaysAppend(s: HostState, batches: seq<Option<seq<PathObject>>>, b: Option<seq<PathObject>>)
    ensures AfterDisplays(s, batches + [b]) ==
      match b
      case None => AfterDisplays(s, batches)
      case Some(objs) => Displayed(AfterDisplays(s, batches), objs)
  {
    assert (batches + [b])[..|batches|] == batches;
  }

  /** Showing results never removes or reorders anything: the old objects
      and the old classes are prefixes of the new ones. */
  lemma {:induction false} DisplaysOnlyAppend(s: HostState, batches: seq<Option<seq<PathObject>>>)
    ensures var t := AfterDisplays(s, batches);
      && |s.children| <= |t.children| && t.children[..|s.children|] == s.children
      && |s.classes| <= |t.classes| && t.classes[..|s.classes|] == s.classes
    decreases |batches|
  {
    if batches != [] {
      var init := batches[..|batches| - 1];
      DisplaysOnlyAppend(s, init);
      var prev := AfterDisplays(s, init);
      match batches[|batches| - 1]
      case None =>
      case Some(objs) =>
        UpdatePreservesPrefix(prev.classes, objs);
        var t := Displayed(prev, objs);
        assert t.children[..|prev.children|] == prev.children;
        assert t.children[..|s.children|] == prev.children[..|s.children|];
        assert t.classes[..|s.classes|] == t.classes[..|prev.classes|][..|s.classes|];
    }
  }

  /** The host side of a viewer: the children of the selected annotation
      and the list of available classes. */
  class Viewer {
    var children: seq<PathObject>
    const available: AvailableClasses

    constructor (children0: seq<PathObject>, available0: AvailableClasses)
      ensures children == children0 && available == available0
    {
      children := children0;
      available := available0;
    }

    function State(): HostState
      reads this, available
    {
      HostState(children, available.classes)
    }

    /** displayResult; the class merge it schedules with
        Platform.runLater is applied in call order. */
    method DisplayResult(objs: seq<PathObject>)
      modifies this, available
      ensures State() == Displayed(old(State()), objs)
    {
      children := children + AsDetections(objs);
      available.UpdateClassifications(objs);
    }
  }

  /** The request payload of a one-request run: the user's parameters (if
      any) with the base64 text of the image under "image". */
  function Payload(params: Option<Members>, image: string): (p: Members)
    ensures Get(p, "image") == Some(JStr(image))
    ensures forall k :: k != "image" ==> Get(p, k) == Get(params.GetOr([]), k)
  {
    Put(params.GetOr([]), "image", JStr(image))
  }

  /** JsonParser.parseString(body).getAsJsonObject(); a body that is not
      JSON text is a JsonSyntaxException. */
  function BodyObject(body: Option<Json>): (r: Result<Members>)
    ensures body.None? ==> r == Err(JsonSyntax)
    ensures body.Some? ==> r == AsObject(body.value)
  {
    match body
    case None => Err(JsonSyntax)
    case Some(j) => AsObject(j)
  }

  /** JsonParser.parseString(body).getAsJsonArray(). */
  function BodyArray(body: Option<Json>): (r: Result<seq<Json>>)
    ensures body.None? ==> r == Err(JsonSyntax)
    ensures body.Some? ==> r == AsArray(body.value)
  {
    match body
    case None => Err(JsonSyntax)
    case Some(j) => AsArray(j)
  }

  /** logHttpError's reading of the "detail" member: only an IOException
      is caught, so a body that is not a JSON object, or a detail that is
      not a string, makes the logging itself throw. */
  function ErrorDetail(body: Option<Json>): (r: Result<Option<string>>)
    ensures body.None? ==> r == Err(JsonSyntax)
    ensures r.Ok? ==> body.Some? && body.value.JObj?
    ensures body.Some? && body.value.JObj? && !Has(body.value.members, "detail") ==> r == Ok(None)
    ensures r.Ok? && r.value.Some? ==> AsString(Get(body.value.members, "detail").value) == Ok(r.value.value)
  {
    var m :- BodyObject(body);
    match Get(m, "detail")
    case None => Ok(None)
    case Some(d) =>
      var s :- AsString(d);
      Ok(Some(s))
  }

  /** logHttpWarning's reading: the detail is required, so a missing one
      is a NullPointerException that escapes. */
  function WarningDetail(body: Option<Json>): (r: Result<string>)
    ensures r.Ok? ==> body.Some? && body.value.JObj? && Has(body.value.members, "detail")
    ensures body.Some? && body.value.JObj? && !Has(body.value.members, "detail") ==> r == Err(NullPointer)
  {
    var m :- BodyObject(body);
    var d :- Require(m, "detail");
    AsString(d)
  }

  /** getAlgos' reading of a reply: the "services" array of the body's
      object, element by element. */
  function AlgoNames(reply: Reply): (r: Result<seq<string>>)
    ensures r.Ok? ==>
      && reply.body.Some? && reply.body.value.JObj?
      && Get(reply.body.value.members, "services").Some?
      && Get(reply.body.value.members, "services").value.JArr?
      && var items := Get(reply.body.value.members, "services").value.items;
      && |r.value| == |items|
      && forall i :: 0 <= i < |items| ==> AsString(items[i]) == Ok(r.value[i])
    ensures reply.body.Some? && reply.body.value.JObj? && !Has(reply.body.value.members, "services") ==> r == Err(NullPointer)
  {
    var m :- BodyObject(reply.body);
    var services :- Require(m, "services");
    var items :- AsArray(services);
    AsStrings(items)
  }

  /** A server that lists its services gets the same names back, in the
      same order, whatever the status. */
  lemma AlgoNamesRoundTrip(names: seq<string>, status: int)
    ensures AlgoNames(Reply(status, Some(JObj([("services", JArr(Strings(names)))])))) == Ok(names)
  {
    StringsRoundTrip(names);
    GetCons(("services", JArr(Strings(names))), [], "services");
    assert [("services", JArr(Strings(names)))] == [("services", JArr(Strings(names)))] + [];
  }

  /** getAlgos: one GET whose status is not looked at; the names are
      copied into an array one by one. */
  method GetAlgos(server: ScriptedServer, path: string) returns (r: Result<seq<string>>)
    modifies server
    ensures server.sent == old(server.sent) + [Request(GET, path, NoBody)]
    ensures r == match ReplyAt(old(server.pending), 0)
      case Err(e) => Err(e)
      case Ok(reply) => AlgoNames(reply)
  {
    var reply := server.Exchange(Request(GET, path, NoBody));
    if reply.Err? {
      return Err(reply.error);
    }
    var m := BodyObject(reply.value.body);
    if m.Err? {
      return Err(m.error);
    }
    var services := Require(m.value, "services");
    if services.Err? {
      return Err(services.error);
    }
    var items := AsArray(services.value);
    if items.Err? {
      return Err(items.error);
    }
    r := FillStrings(items.value);
  }

  /** How a run ended: no annotation was selected, the server refused a
      request (with the detail it gave), an exception escaped, the output
      endpoints of a computation could not be read, the last request was
      refused with a warning, or every step was taken. */
  datatype RunOutcome =
    | NoSelection
    | Refused(status: int, detail: Option<string>)
    | Failed(error: Exception)
    | NoEndpoints
    | Warned(status: int, warning: string)
    | Finished

  /** What a run takes from the viewer: the region of the selected
      annotation, the serialised image inside it, and that image's base64
      text. */
  datatype Selection = Selection(region: Region, bytes: seq<bv8>, image: string)

  /** How a run ended, and the records it finished (each shown and
      displayed) before it ended. */
  datatype RunResult<U> = RunResult(outcome: RunOutcome, records: seq<U>)

  /** A refused request is logged with logHttpError; when reading its
      detail throws, the run ends with that exception instead. */
  function Refusal(reply: Reply): (o: RunOutcome)
    ensures o.Refused? <==> ErrorDetail(reply.body).Ok?
    ensures o.Refused? ==> o.status == reply.status && o.detail == ErrorDetail(reply.body).value
    ensures o.Failed? <==> ErrorDetail(reply.body).Err?
    ensures o.Failed? ==> o.error == ErrorDetail(reply.body).error
  {
    match ErrorDetail(reply.body)
    case Err(e) => Failed(e)
    case Ok(d) => Refused(reply.status, d)
  }
}
