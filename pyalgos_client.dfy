/** PyAlgosClient: the client that talks to a server keeping the image and
    the parameters between requests. Its `run` is a fixed sequence of
    requests, each guarded by the status of the previous reply:
    parameters (if any), image upload, computation, the features (if the
    computation lists them), and the deletion of the image data. */
module PyAlgosClient {
  import opened Wrappers
  import opened Json
  import opened Geometry
  import opened PathObjectUtils
  import opened Transport
  import opened Host
  import FeaturesRecords

  /** setParameters: `{"parameters": <the parameter map>}`. */
  function ParametersRequest(algo: string, params: Members): (req: Request)
    ensures req.verb == POST && req.path == "/image/" + algo + "/parameters"
    ensures req.body == JsonBody(JObj([("parameters", JObj(params))]))
  {
    Request(POST, "/image/" + algo + "/parameters", JsonBody(JObj([("parameters", JObj(params))])))
  }

  /** sendImage: the serialised image as raw bytes. */
  function ImageRequest(bytes: seq<bv8>): (req: Request)
    ensures req.verb == POST && req.path == "/image_bytes" && req.body == ImageBytes(bytes)
  {
    Request(POST, "/image_bytes", ImageBytes(bytes))
  }

  /** computeResult: the text "result" POSTed to the algorithm's result
      route. */
  function ComputeRequest(algo: string): (req: Request)
    ensures req.verb == POST && req.path == "/image/" + algo + "/result" && req.body == TextBody("result")
  {
    Request(POST, "/image/" + algo + "/result", TextBody("result"))
  }

  /** getComputedResultFeature. */
  function FeaturesRequest(algo: string): (req: Request)
    ensures req.verb == GET && req.path == "/image/" + algo + "/result/features"
  {
    Request(GET, "/image/" + algo + "/result/features", NoBody)
  }

  /** deleteImageData. */
  const DeleteRequest: Request := Request(DELETE, "/image", NoBody)

  /** The requests sent before the image: the parameters, when there are
      any. */
  function Submitted(algo: string, params: Option<Members>): (pre: seq<Request>)
    ensures |pre| <= 1 && (params.Some? <==> |pre| == 1)
    ensures params.Some? ==> pre == [ParametersRequest(algo, params.value)]
  {
    if params.Some? then [ParametersRequest(algo, params.value)] else []
  }

  /** The "output_endpoints" the computation's reply lists, one string
      each. */
  function Endpoints(body: Option<Json>): (r: Result<seq<string>>)
    ensures r.Ok? ==> body.Some? && body.value.JObj? && Has(body.value.members, "output_endpoints")
    ensures r.Ok? ==> var items := Get(body.value.members, "output_endpoints").value;
      && items.JArr? && |r.value| == |items.items|
      && forall i :: 0 <= i < |items.items| ==> AsString(items.items[i]) == Ok(r.value[i])
  {
    var m :- BodyObject(body);
    var e :- Require(m, "output_endpoints");
    var items :- AsArray(e);
    AsStrings(items)
  }

  /** parseResponseToPathObjectList: parsePathObjects over the reply's
      body, each object placed in the selected region. */
  function FeatureObjects(decode: ObjectDecoder, reply: Reply, r: Region): (res: Result<seq<PathObject>>)
    ensures reply.body.None? ==> res == Err(JsonSyntax)
    ensures reply.body.Some? ==> (res.Ok? <==> ParsePathObjects(decode, reply.body.value).Ok?)
    ensures res.Ok? ==> var parsed := ParsePathObjects(decode, reply.body.value).value;
      && |res.value| == |parsed|
      && forall i :: 0 <= i < |parsed| ==> res.value[i] == PlaceObject(parsed[i], r)
  {
    match reply.body
    case None => Err(JsonSyntax)
    case Some(j) =>
      var objs :- ParsePathObjects(decode, j);
      Ok(PlaceAll(objs, r))
  }

  /** The loop of parseResponseToPathObjectList. */
  method ParseResponseToPathObjectList(decode: ObjectDecoder, reply: Reply, r: Region) returns (res: Result<seq<PathObject>>)
    ensures res == FeatureObjects(decode, reply, r)
  {
    if reply.body.None? {
      return Err(JsonSyntax);
    }
    var objs := ParsePathObjects(decode, reply.body.value);
    if objs.Err? {
      return Err(objs.error);
    }
    var placed := PlaceEach(objs.value, r);
    return Ok(placed);
  }

  /** What one run did: how it ended, the requests it sent, and the
      objects it displayed, if it got that far. */
  datatype Session = Session(outcome: RunOutcome, sent: seq<Request>, shown: Option<seq<PathObject>>)

  /** The last step: DELETE "/image"; a status other than No Content is
      logged as a warning, and reading its detail may itself throw. */
  function Delete(replies: seq<Reply>, k: nat, sent: seq<Request>, shown: Option<seq<PathObject>>): (s: Session)
    ensures s.sent == sent + [DeleteRequest] && s.shown == shown
  {
    match ReplyAt(replies, k)
    case Err(e) => Session(Failed(e), sent + [DeleteRequest], shown)
    case Ok(reply) =>
      if reply.status == NoContent then Session(Finished, sent + [DeleteRequest], shown)
      else
        match WarningDetail(reply.body)
        case Err(e) => Session(Failed(e), sent + [DeleteRequest], shown)
        case Ok(w) => Session(Warned(reply.status, w), sent + [DeleteRequest], shown)
  }

  /** The features step: the GET's status is not looked at; an exception
      in reading its body escapes before the deletion. */
  function Fetch(decode: ObjectDecoder, algo: string, r: Region, replies: seq<Reply>, k: nat, sent: seq<Request>): Session {
    match ReplyAt(replies, k)
    case Err(e) => Session(Failed(e), sent + [FeaturesRequest(algo)], None)
    case Ok(reply) =>
      match FeatureObjects(decode, reply, r)
      case Err(e) => Session(Failed(e), sent + [FeaturesRequest(algo)], None)
      case Ok(dets) => Delete(replies, k + 1, sent + [FeaturesRequest(algo)], Some(dets))
  }

  /** The computation: a refusal ends the run; endpoints that cannot be
      read end it too, without the deletion. */
  function Compute(decode: ObjectDecoder, algo: string, r: Region, replies: seq<Reply>, k: nat, sent: seq<Request>): Session {
    match ReplyAt(replies, k)
    case Err(e) => Session(Failed(e), sent + [ComputeRequest(algo)], None)
    case Ok(reply) =>
      if reply.status != Created then Session(Refusal(reply), sent + [ComputeRequest(algo)], None)
      else
        match Endpoints(reply.body)
        case Err(_) => Session(NoEndpoints, sent + [ComputeRequest(algo)], None)
        case Ok(endpoints) =>
          if "features" in endpoints then Fetch(decode, algo, r, replies, k + 1, sent + [ComputeRequest(algo)])
          else Delete(replies, k + 1, sent + [ComputeRequest(algo)], None)
  }

  /** The image upload: a refusal ends the run before the computation. */
  function Upload(decode: ObjectDecoder, algo: string, sel: Selection, replies: seq<Reply>, k: nat, sent: seq<Request>): Session {
    match ReplyAt(replies, k)
    case Err(e) => Session(Failed(e), sent + [ImageRequest(sel.bytes)], None)
    case Ok(reply) =>
      if reply.status != Created then Session(Refusal(reply), sent + [ImageRequest(sel.bytes)], None)
      else Compute(decode, algo, sel.region, replies, k + 1, sent + [ImageRequest(sel.bytes)])
  }

  /** `run`: the parameters first (a refusal ends the run), then the
      selection check, then the upload. */
  function RunSpec(decode: ObjectDecoder, algo: string, params: Option<Members>, selection: Option<Selection>,
                   replies: seq<Reply>): Session
  {
    var pre := Submitted(algo, params);
    if params.Some? && ReplyAt(replies, 0).Err? then Session(Failed(TransportFailure), pre, None)
    else if params.Some? && replies[0].status != Created then Session(Refusal(replies[0]), pre, None)
    else if selection.None? then Session(NoSelection, pre, None)
    else Upload(decode, algo, selection.value, replies, |pre|, pre)
  }

  /** Whether the computation's reply (the reply at index k) lists the
      "features" endpoint. */
  predicate ListsFeatures(replies: seq<Reply>, k: nat) {
    k < |replies| && Endpoints(replies[k].body).Ok? && "features" in Endpoints(replies[k].body).value
  }

  /** Whether the reply at index k exists and is Created. */
  predicate Accepted(replies: seq<Reply>, k: nat) {
    k < |replies| && replies[k].status == Created
  }

  /** Whether the reply at index k exists and lists readable endpoints. */
  predicate ReadsEndpoints(replies: seq<Reply>, k: nat) {
    k < |replies| && Endpoints(replies[k].body).Ok?
  }

  /** The requests from the computation on: the features GET only when
      the computation lists them, and the deletion last. */
  function Tail(algo: string, fetch: bool): (tail: seq<Request>)
    ensures |tail| >= 2 && tail[0] == ComputeRequest(algo) && tail[|tail| - 1] == DeleteRequest
    ensures forall i :: 0 <= i < |tail| - 1 ==> tail[i].verb != DELETE
  {
    [ComputeRequest(algo)] + (if fetch then [FeaturesRequest(algo)] else []) + [DeleteRequest]
  }

  /** The whole sequence a run can send, in order. */
  function Plan(algo: string, params: Option<Members>, sel: Selection, fetch: bool): (plan: seq<Request>)
    ensures |plan| >= 3 && plan[|plan| - 1] == DeleteRequest
    ensures forall i :: 0 <= i < |plan| - 1 ==> plan[i].verb != DELETE
  {
    Submitted(algo, params) + [ImageRequest(sel.bytes)] + Tail(algo, fetch)
  }

  /** From the computation on, the run sends a non-empty prefix of the
      tail; it shows features only after the computation listed them, and
      then it also sends the deletion. Unreadable endpoints stop it right
      after the computation. */
  lemma ComputeSent(decode: ObjectDecoder, algo: string, r: Region, replies: seq<Reply>, k: nat, sent: seq<Request>)
    ensures var s := Compute(decode, algo, r, replies, k, sent);
      var t := sent + Tail(algo, ListsFeatures(replies, k));
      && |sent| < |s.sent| && s.sent <= t
      && (|s.sent| > |sent| + 1 ==> Accepted(replies, k) && ReadsEndpoints(replies, k))
      && (s.shown.Some? ==> ListsFeatures(replies, k) && |s.sent| == |t|)
      && (s.outcome.NoEndpoints? ==> s.sent == sent + [ComputeRequest(algo)] && s.shown.None?)
  {
    var fetch := ListsFeatures(replies, k);
    var t := sent + Tail(algo, fetch);
    var c := sent + [ComputeRequest(algo)];
    assert t[..|sent| + 1] == c;
    if fetch {
      assert t == c + [FeaturesRequest(algo)] + [DeleteRequest];
      assert t[..|sent| + 2] == c + [FeaturesRequest(algo)];
    } else {
      assert t == c + [DeleteRequest];
    }
  }

  /** From the upload on, the run sends a non-empty prefix of the upload
      followed by the tail, and it computes only after an accepted
      upload. */
  lemma UploadSent(decode: ObjectDecoder, algo: string, sel: Selection, replies: seq<Reply>, k: nat, sent: seq<Request>)
    ensures var s := Upload(decode, algo, sel, replies, k, sent);
      var t := sent + [ImageRequest(sel.bytes)] + Tail(algo, ListsFeatures(replies, k + 1));
      && |sent| < |s.sent| && s.sent <= t
      && (|s.sent| > |sent| + 1 ==> Accepted(replies, k))
      && (|s.sent| > |sent| + 2 ==> Accepted(replies, k + 1) && ReadsEndpoints(replies, k + 1))
      && (s.shown.Some? ==> ListsFeatures(replies, k + 1) && |s.sent| == |t|)
      && (s.outcome.NoEndpoints? ==> s.sent == sent + [ImageRequest(sel.bytes), ComputeRequest(algo)] && s.shown.None?)
  {
    var u := sent + [ImageRequest(sel.bytes)];
    var t := u + Tail(algo, ListsFeatures(replies, k + 1));
    ComputeSent(decode, algo, sel.region, replies, k + 1, u);
    assert t[..|u|] == u;
    assert u + [ComputeRequest(algo)] == sent + [ImageRequest(sel.bytes), ComputeRequest(algo)];
  }

  /** Refused or failed parameters end the run with nothing but the
      parameters sent. */
  lemma ParametersStop(decode: ObjectDecoder, algo: string, params: Option<Members>, selection: Option<Selection>, replies: seq<Reply>)
    requires params.Some? && !Accepted(replies, 0)
    ensures var s := RunSpec(decode, algo, params, selection, replies);
      && s.sent == Submitted(algo, params) && s.shown.None?
      && (s.outcome.Refused? || s.outcome.Failed?)
  {
  }

  /** Accepted parameters (or none) and a selection lead to the upload. */
  lemma ParametersPass(decode: ObjectDecoder, algo: string, params: Option<Members>, sel: Selection, replies: seq<Reply>)
    requires !(params.Some? && !Accepted(replies, 0))
    ensures RunSpec(decode, algo, params, Some(sel), replies) ==
      Upload(decode, algo, sel, replies, |Submitted(algo, params)|, Submitted(algo, params))
  {
  }

  /** Whatever the replies, a run with a selection sends a prefix of its
      plan, in the plan's order; each request after the first is sent
      only when the replies before it were accepted, and features are
      shown only when the computation listed them. */
  lemma SentFollowsPlan(decode: ObjectDecoder, algo: string, params: Option<Members>, sel: Selection, replies: seq<Reply>)
    ensures var s := RunSpec(decode, algo, params, Some(sel), replies);
      var k := |Submitted(algo, params)|;
      var plan := Plan(algo, params, sel, ListsFeatures(replies, k + 1));
      && s.sent <= plan
      && (params.Some? && |s.sent| > 1 ==> Accepted(replies, 0))
      && (|s.sent| > k + 1 ==> Accepted(replies, k))
      && (|s.sent| > k + 2 ==> Accepted(replies, k + 1) && ReadsEndpoints(replies, k + 1))
      && (s.shown.Some? ==> ListsFeatures(replies, k + 1) && |s.sent| == |plan|)
      && (s.outcome.NoEndpoints? ==> |s.sent| == k + 2 && s.shown.None?)
  {
    var pre := Submitted(algo, params);
    var plan := Plan(algo, params, sel, ListsFeatures(replies, |pre| + 1));
    assert plan[..|pre|] == pre;
    if params.Some? && !Accepted(replies, 0) {
      ParametersStop(decode, algo, params, Some(sel), replies);
    } else {
      ParametersPass(decode, algo, params, sel, replies);
      UploadSent(decode, algo, sel, replies, |pre|, pre);
    }
  }

  /** With no selection, nothing but the parameters is sent and nothing is
      shown. */
  lemma NoSelectionSendsNoImage(decode: ObjectDecoder, algo: string, params: Option<Members>, replies: seq<Reply>)
    ensures var s := RunSpec(decode, algo, params, None, replies);
      && s.sent == Submitted(algo, params) && s.shown.None?
      && (s.outcome.NoSelection? || s.outcome.Refused? || s.outcome.Failed?)
  {
  }

  /** Refused parameters end the run before the image is sent. */
  lemma ParametersRefusedStops(decode: ObjectDecoder, algo: string, params: Members, selection: Option<Selection>, replies: seq<Reply>)
    requires |replies| > 0 && replies[0].status != Created
    ensures var s := RunSpec(decode, algo, Some(params), selection, replies);
      && s.sent == [ParametersRequest(algo, params)] && s.shown.None?
      && s.outcome == Refusal(replies[0])
  {
  }

  /** The deletion is sent at most once and only as the last request. It
      is sent whenever features were shown, and whenever the endpoints
      were read and do not list features. Endpoints that cannot be read
      end the run without the deletion and without display. */
  lemma DeleteOnceAndLast(decode: ObjectDecoder, algo: string, params: Option<Members>, sel: Selection, replies: seq<Reply>)
    ensures var s := RunSpec(decode, algo, params, Some(sel), replies);
      && (forall i :: 0 <= i < |s.sent| - 1 ==> s.sent[i].verb != DELETE)
      && (s.shown.Some? ==> s.sent[|s.sent| - 1] == DeleteRequest)
      && (|s.sent| > |Submitted(algo, params)| + 2 && !ListsFeatures(replies, |Submitted(algo, params)| + 1) ==>
            s.sent[|s.sent| - 1] == DeleteRequest)
      && (s.outcome.NoEndpoints? ==> s.shown.None? && forall i :: 0 <= i < |s.sent| ==> s.sent[i].verb != DELETE)
  {
    SentFollowsPlan(decode, algo, params, sel, replies);
    var s := RunSpec(decode, algo, params, Some(sel), replies);
    var plan := Plan(algo, params, sel, ListsFeatures(replies, |Submitted(algo, params)| + 1));
    assert forall i :: 0 <= i < |s.sent| ==> s.sent[i] == plan[i];
  }

  /** A refused deletion only logs a warning: what was shown stays shown,
      as with an accepted one. */
  lemma DeleteWarningOnlyLogs(replies: seq<Reply>, k: nat, sent: seq<Request>, shown: Option<seq<PathObject>>)
    requires k < |replies| && replies[k].status != NoContent
    requires WarningDetail(replies[k].body).Ok?
    ensures Delete(replies, k, sent, shown) ==
      Session(Warned(replies[k].status, WarningDetail(replies[k].body).value), sent + [DeleteRequest], shown)
  {
  }

  /** The deletion step against the server; `base` is what was sent
      before the run, `sent` what the run has sent so far. */
  method DeleteStage(server: ScriptedServer, ghost P: seq<Reply>, ghost k: nat, ghost base: seq<Request>,
                     ghost sent: seq<Request>, shown: Option<seq<PathObject>>) returns (outcome: RunOutcome)
    requires k <= |P| && server.pending == P[k..] && server.sent == base + sent
    modifies server
    ensures var s := Delete(P, k, sent, shown);
      outcome == s.outcome && server.sent == base + s.sent
  {
    var deleted := server.Exchange(DeleteRequest);
    if deleted.Err? {
      return Failed(deleted.error);
    }
    if deleted.value.status != NoContent {
      var w := WarningDetail(deleted.value.body);
      if w.Err? {
        return Failed(w.error);
      }
      return Warned(deleted.value.status, w.value);
    }
    return Finished;
  }

  /** The features step: fetch, place, display, then delete. */
  method FetchStage(server: ScriptedServer, viewer: Viewer, decode: ObjectDecoder, algo: string, r: Region,
                    ghost P: seq<Reply>, ghost k: nat, ghost base: seq<Request>, ghost sent: seq<Request>)
    returns (outcome: RunOutcome)
    requires k <= |P| && server.pending == P[k..] && server.sent == base + sent
    modifies server, viewer, viewer.available
    ensures var s := Fetch(decode, algo, r, P, k, sent);
      && outcome == s.outcome && server.sent == base + s.sent
      && viewer.State() == AfterDisplays(old(viewer.State()), [s.shown])
  {
    ghost var s0 := viewer.State();
    AfterDisplaysAppend(s0, [], None);
    var fetched := server.Exchange(FeaturesRequest(algo));
    if fetched.Err? {
      return Failed(fetched.error);
    }
    var dets := ParseResponseToPathObjectList(decode, fetched.value, r);
    if dets.Err? {
      return Failed(dets.error);
    }
    viewer.DisplayResult(dets.value);
    AfterDisplaysAppend(s0, [], Some(dets.value));
    assert server.pending == P[k + 1..];
    outcome := DeleteStage(server, P, k + 1, base, sent + [FeaturesRequest(algo)], Some(dets.value));
  }

  /** The computation step: the endpoints decide between the features
      step and the deletion. */
  method ComputeStage(server: ScriptedServer, viewer: Viewer, decode: ObjectDecoder, algo: string, r: Region,
                      ghost P: seq<Reply>, ghost k: nat, ghost base: seq<Request>, ghost sent: seq<Request>)
    returns (outcome: RunOutcome)
    requires k <= |P| && server.pending == P[k..] && server.sent == base + sent
    modifies server, viewer, viewer.available
    ensures var s := Compute(decode, algo, r, P, k, sent);
      && outcome == s.outcome && server.sent == base + s.sent
      && viewer.State() == AfterDisplays(old(viewer.State()), [s.shown])
  {
    AfterDisplaysAppend(viewer.State(), [], None);
    var computed := server.Exchange(ComputeRequest(algo));
    if computed.Err? {
      return Failed(computed.error);
    }
    if computed.value.status != Created {
      return Refusal(computed.value);
    }
    var endpoints := Endpoints(computed.value.body);
    if endpoints.Err? {
      return NoEndpoints;
    }
    assert server.pending == P[k + 1..];
    if "features" in endpoints.value {
      outcome := FetchStage(server, viewer, decode, algo, r, P, k + 1, base, sent + [ComputeRequest(algo)]);
    } else {
      outcome := DeleteStage(server, P, k + 1, base, sent + [ComputeRequest(algo)], None);
    }
  }

  /** The upload step. */
  method UploadStage(server: ScriptedServer, viewer: Viewer, decode: ObjectDecoder, algo: string, sel: Selection,
                     ghost P: seq<Reply>, ghost k: nat, ghost base: seq<Request>, ghost sent: seq<Request>)
    returns (outcome: RunOutcome)
    requires k <= |P| && server.pending == P[k..] && server.sent == base + sent
    modifies server, viewer, viewer.available
    ensures var s := Upload(decode, algo, sel, P, k, sent);
      && outcome == s.outcome && server.sent == base + s.sent
      && viewer.State() == AfterDisplays(old(viewer.State()), [s.shown])
  {
    AfterDisplaysAppend(viewer.State(), [], None);
    var uploaded := server.Exchange(ImageRequest(sel.bytes));
    if uploaded.Err? {
      return Failed(uploaded.error);
    }
    if uploaded.value.status != Created {
      return Refusal(uploaded.value);
    }
    assert server.pending == P[k + 1..];
    outcome := ComputeStage(server, viewer, decode, algo, sel.region, P, k + 1, base, sent + [ImageRequest(sel.bytes)]);
  }

  /** `run` against a server and a viewer: the requests it sends, how it
      ends, and what it displays. */
  method Run(server: ScriptedServer, viewer: Viewer, decode: ObjectDecoder, algo: string,
             params: Option<Members>, selection: Option<Selection>) returns (outcome: RunOutcome)
    modifies server, viewer, viewer.available
    ensures var s := RunSpec(decode, algo, params, selection, old(server.pending));
      && outcome == s.outcome
      && server.sent == old(server.sent) + s.sent
      && viewer.State() == AfterDisplays(old(viewer.State()), [s.shown])
  {
    ghost var P := server.pending;
    ghost var base := server.sent;
    AfterDisplaysAppend(viewer.State(), [], None);
    if params.Some? {
      var reply := server.Exchange(ParametersRequest(algo, params.value));
      if reply.Err? {
        return Failed(reply.error);
      }
      if reply.value.status != Created {
        return Refusal(reply.value);
      }
    }
    if selection.None? {
      return NoSelection;
    }
    ghost var pre := Submitted(algo, params);
    assert server.pending == P[|pre|..] && server.sent == base + pre;
    outcome := UploadStage(server, viewer, decode, algo, selection.value, P, |pre|, base, pre);
  }

  /** runOneShot: the records run with a lenient features reader. Its
      request route is a parameter, since the HTTP client it calls does
      not define one. */
  method RunOneShot(server: ScriptedServer, viewer: Viewer, decode: ObjectDecoder, path: string,
                    params: Option<Members>, selection: Option<Selection>)
    returns (res: RunResult<Option<seq<PathObject>>>)
    modifies server, viewer, viewer.available
    ensures res == FeaturesRecords.RunSpec(decode, false, path, params, selection, old(server.pending))
    ensures selection.None? ==> server.sent == old(server.sent)
    ensures selection.Some? ==> server.sent == old(server.sent) + [FeaturesRecords.RecordsRequest(path, params, selection.value.image)]
    ensures viewer.State() == AfterDisplays(old(viewer.State()), res.records)
  {
    res := FeaturesRecords.Run(server, viewer, decode, false, path, params, selection);
  }

  /** getAlgos: the names listed under "services" of GET "/algos_names/". */
  method GetAlgos(server: ScriptedServer) returns (r: Result<seq<string>>)
    modifies server
    ensures server.sent == old(server.sent) + [Request(GET, "/algos_names/", NoBody)]
    ensures r == match ReplyAt(old(server.pending), 0)
      case Err(e) => Err(e)
      case Ok(reply) => AlgoNames(reply)
  {
    r := Host.GetAlgos(server, "/algos_names/");
  }
}
