/** The older pyalgos Client: one POST to the algorithm's own route, and
    only "features" records, read strictly, are shown. */
module PyAlgosLegacyClient {
  import opened Wrappers
  import opened Json
  import opened Geometry
  import opened PathObjectUtils
  import opened Transport
  import opened Host
  import FeaturesRecords

  /** The route of a run. */
  function ProcessPath(algo: string): (path: string)
    ensures |path| == |algo| + 1 && path[0] == '/' && path[1..] == algo
  {
    "/" + algo
  }

  /** `run`: the records run, POSTed to "/" + algo, with each features
      record's elements read by `e.getAsJsonObject()`. */
  method Run(server: ScriptedServer, viewer: Viewer, decode: ObjectDecoder, algo: string,
             params: Option<Members>, selection: Option<Selection>)
    returns (res: RunResult<Option<seq<PathObject>>>)
    modifies server, viewer, viewer.available
    ensures res == FeaturesRecords.RunSpec(decode, true, ProcessPath(algo), params, selection, old(server.pending))
    ensures selection.None? ==> server.sent == old(server.sent)
    ensures selection.Some? ==>
      server.sent == old(server.sent) + [FeaturesRecords.RecordsRequest(ProcessPath(algo), params, selection.value.image)]
    ensures viewer.State() == AfterDisplays(old(viewer.State()), res.records)
  {
    res := FeaturesRecords.Run(server, viewer, decode, true, ProcessPath(algo), params, selection);
  }

  /** getAlgos: the names listed under "services" of GET "/services". */
  method GetAlgos(server: ScriptedServer) returns (r: Result<seq<string>>)
    modifies server
    ensures server.sent == old(server.sent) + [Request(GET, "/services", NoBody)]
    ensures r == match ReplyAt(old(server.pending), 0)
      case Err(e) => Err(e)
      case Ok(reply) => AlgoNames(reply)
  {
    r := Host.GetAlgos(server, "/services");
  }
}
