/** The HTTP exchanges a run makes, reduced to what the run logic looks at:
    each request is recorded in order, and each reply is taken in order
    from a scripted list of (status, body) replies. A request with no reply
    left stands for a transport exception. */
module Transport {
  import opened Wrappers
  import opened Json

  datatype Verb = GET | POST | DELETE

  datatype Body =
    | NoBody
    | JsonBody(json: Json)
    | TextBody(text: string)
    | ImageBytes(bytes: seq<bv8>)

  datatype Request = Request(verb: Verb, path: string, body: Body)

  /** A reply: its status code and its body as JSON (None when the body is
      not JSON text). */
  datatype Reply = Reply(status: int, body: Option<Json>)

  /** Created (section 15.3.2 of RFC 9110) for a successful submission. */
  const Created: int := 201

  /** No Content (section 15.3.5 of RFC 9110) for a successful deletion. */
  const NoContent: int := 204

  /** The i-th scripted reply, or the transport exception when the script
      has run out. */
  function ReplyAt(replies: seq<Reply>, i: nat): (r: Result<Reply>)
    ensures i < |replies| <==> r.Ok?
    ensures r.Ok? ==> r.value == replies[i]
    ensures r.Err? ==> r.error == TransportFailure
  {
    if i < |replies| then Ok(replies[i]) else Err(TransportFailure)
  }

  /** The server as one run sees it: the requests sent so far and the
      replies still to come. */
  class ScriptedServer {
    var sent: seq<Request>
    var pending: seq<Reply>

    constructor (replies: seq<Reply>)
      ensures sent == [] && pending == replies
    {
      sent := [];
      pending := replies;
    }

    /** Send one request and take the next reply. */
    method Exchange(req: Request) returns (r: Result<Reply>)
      modifies this
      ensures sent == old(sent) + [req]
      ensures r == ReplyAt(old(pending), 0)
      ensures pending == if old(pending) == [] then [] else old(pending)[1..]
    {
      sent := sent + [req];
      if pending == [] {
        r := Err(TransportFailure);
      } else {
        r := Ok(pending[0]);
        pending := pending[1..];
      }
    }
  }
}
