/** The HTTP layer, reduced to what the coordinator relies on: a POST carries a
    URL, headers and a JSON body, and yields either a decoded JSON document or an
    exception. Sessions, encodings and the timeout are not modelled. */
module Http {
  import opened Python

  datatype Request = Request(url: string, headers: map<string, Json>, body: Json)

  /** What `await response.json()` produced: the decoded body (whatever the
      status code), or failure of the exchange. */
  datatype Reply = Body(data: Json) | Failed

  /** The world outside the coordinator: the vendor service, answering each
      request, and the `uuid4()` supply, giving the n-th fresh request id. */
  datatype Env = Env(respond: Request -> Reply, uuids: nat -> string)

  /** `await response.json()`: the decoded document, or the exception. */
  function Decoded(reply: Reply): (r: Result<Json>)
    ensures r.Ok? <==> reply.Body?
    ensures r.Ok? ==> r.value == reply.data
    ensures r.Err? ==> r.error == NetworkError
  {
    match reply
    case Body(data) => Ok(data)
    case Failed => Err(NetworkError)
  }

  /** An abstract transport. It records every request sent in a ghost log and
      counts the request ids it has handed out. */
  class Transport {
    const env: Env
    var drawn: nat
    ghost var log: seq<Request>

    constructor (env: Env)
      ensures this.env == env && drawn == 0 && log == []
    {
      this.env := env;
      drawn := 0;
      log := [];
    }

    /** `str(uuid.uuid4())`. */
    method NewRequestId() returns (id: string)
      modifies this
      ensures id == env.uuids(old(drawn))
      ensures drawn == old(drawn) + 1 && log == old(log)
    {
      id := env.uuids(drawn);
      drawn := drawn + 1;
    }

    /** `session.post(...)` followed by `response.json()`. */
    method Post(req: Request) returns (reply: Reply)
      modifies this
      ensures reply == env.respond(req)
      ensures log == old(log) + [req] && drawn == old(drawn)
    {
      reply := env.respond(req);
      log := log + [req];
    }
  }
}
