/**
 * The transport side of the client: `APIConnection` with its TTL setting and
 * its `get`, which fails on any status other than 200.
 */
module Transport {
  import opened Wrappers
  import opened Json

  /** The errors the core can raise. */
  datatype Error =
    | UnexpectedStatus(code: int)  // APIException from a non-200 response
    | MissingKey(name: string)     // KeyError from a field lookup
    | NotAnObject                  // a fetched document that is not a JSON object cannot be wrapped
    | InvalidUrl                   // an `href` that is not a URL string cannot be requested
    | NoRedirectUri                // no redirect URI configured when building the authorization URI
    | NotNavigable                 // a path step that does not apply to the value it is taken on

  /** An HTTP response: its status code and its already-parsed body. */
  datatype Response = Response(status: int, body: Json)

  /** The default time to live of cached invocation results, in seconds. */
  const DefaultCacheTime: int := 600

  /** The status check of `get`: only a 200 response yields its body. */
  function StatusCheck(res: Response): (r: Result<Json, Error>)
    ensures r.Success? <==> res.status == 200
    ensures r.Success? ==> r.value == res.body
    ensures r.Failure? ==> r.error == UnexpectedStatus(res.status)
  {
    if res.status != 200 then Failure(UnexpectedStatus(res.status)) else Success(res.body)
  }

  /**
   * A connection to the API. The remote side is a parameter of `Get`
   * (`server` maps a URL to the response it gives at the time of the call);
   * `requested` records every URL that was requested, in order.
   */
  class APIConnection {
    const cacheTime: int
    ghost var requested: seq<string>

    constructor (cacheTime: int)
      ensures this.cacheTime == cacheTime && requested == []
    {
      this.cacheTime := cacheTime;
      requested := [];
    }

    /** Requests `resource` and returns its body, or fails on a non-200 status. */
    method Get(resource: string, server: string -> Response) returns (r: Result<Json, Error>)
      modifies this`requested
      ensures requested == old(requested) + [resource]
      ensures r == StatusCheck(server(resource))
    {
      requested := requested + [resource];
      r := StatusCheck(server(resource));
    }
  }
}
