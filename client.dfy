/**
 * The client entry points: `EVE`, which fetches and memoises the API root
 * and builds the authorization URI, and `AuthedConnection`, which memoises
 * the identity of the authenticated character. The connection part
 * (transport and TTL) is held by composition.
 */
module Client {
  import opened Wrappers
  import opened Json
  import opened Transport
  import opened Resource
  import opened AuthUri

  /** Where `whoami` asks for the identity behind the token (the same on every server). */
  const VerifyUrl: string := "https://login.eveonline.com/oauth/verify"

  /** Python's `"%s"` rendering of an optional string. */
  function Show(s: Option<string>): string
  {
    if s.None? then "None" else s.value
  }

  class EVE {
    const conn: APIConnection
    const clientId: Option<string>
    const redirectUri: Option<string>
    const authedEndpoint: string
    const imageServer: string
    var endpoint: string
    var oauthEndpoint: string
    var cache: map<string, Json>
    var data: Option<APIObject>

    /** A client for the test server when `testing` holds, for the live server otherwise. */
    constructor (clientId: Option<string>, redirectUri: Option<string>, testing: bool, cacheTime: int)
      ensures fresh(conn) && conn.cacheTime == cacheTime && conn.requested == []
      ensures this.clientId == clientId && this.redirectUri == redirectUri
      ensures testing ==>
        && endpoint == "http://public-crest-sisi.testeveonline.com/"
        && authedEndpoint == "https://api-sisi.testeveonline.com/"
        && imageServer == "https://image.testeveonline.com/"
        && oauthEndpoint == "https://sisilogin.testeveonline.com/oauth"
      ensures !testing ==>
        && endpoint == "https://public-crest.eveonline.com/"
        && authedEndpoint == "https://crest-tq.eveonline.com/"
        && imageServer == "https://image.eveonline.com/"
        && oauthEndpoint == "https://login.eveonline.com/oauth"
      ensures cache == map[] && data == None
    {
      this.clientId := clientId;
      this.redirectUri := redirectUri;
      if testing {
        endpoint := "http://public-crest-sisi.testeveonline.com/";
        authedEndpoint := "https://api-sisi.testeveonline.com/";
        imageServer := "https://image.testeveonline.com/";
        oauthEndpoint := "https://sisilogin.testeveonline.com/oauth";
      } else {
        endpoint := "https://public-crest.eveonline.com/";
        authedEndpoint := "https://crest-tq.eveonline.com/";
        imageServer := "https://image.eveonline.com/";
        oauthEndpoint := "https://login.eveonline.com/oauth";
      }
      cache := map[];
      data := None;
      conn := new APIConnection(cacheTime);
    }

    /**
     * The API root: fetched and wrapped on the first successful call, the
     * same node on every later one, with no request.
     */
    method Call(server: string -> Response) returns (r: Result<APIObject, Error>)
      modifies this`data, conn`requested
      ensures old(data).Some? ==>
        r == Success(old(data).value) && data == old(data) && conn.requested == old(conn.requested)
      ensures old(data).None? ==>
        var got := StatusCheck(server(endpoint));
        && conn.requested == old(conn.requested) + [endpoint]
        && (got.Failure? ==> r == Failure(got.error) && data == None)
        && (got.Success? && !got.value.Obj? ==> r == Failure(NotAnObject) && data == None)
        && (got.Success? && got.value.Obj? ==>
              && r.Success? && data == Some(r.value)
              && Wrapping(Node(r.value), got.value, conn)
              && forall o :: o in NodesOf(Node(r.value), got.value) ==> fresh(o) && o.cache == None)
    {
      if data.None? {
        var got := conn.Get(endpoint, server);
        if got.Failure? {
          return Failure(got.error);
        }
        if !got.value.Obj? {
          return Failure(NotAnObject);
        }
        var root := new APIObject(got.value.members, conn);
        data := Some(root);
      }
      r := Success(data.value);
    }

    /** The authorization URI; building it fails when no redirect URI is configured. */
    function AuthUri(scopes: seq<string>, state: Option<string>, quote: string -> string): (r: Result<string, Error>)
      reads this
      ensures r.Success? <==> redirectUri.Some?
      ensures r.Failure? ==> r.error == NoRedirectUri
      ensures r.Success? ==>
        r.value == AuthorizeUrl(oauthEndpoint, redirectUri.value, Show(clientId), scopes, state, quote)
    {
      if redirectUri.None? then Failure(NoRedirectUri)
      else Success(AuthorizeUrl(oauthEndpoint, redirectUri.value, Show(clientId), scopes, state, quote))
    }
  }

  /** A client holding an access token; its `EVE` part talks to the authenticated endpoint. */
  class AuthedConnection {
    const base: EVE
    const token: string
    const refreshToken: string
    const expires: int

    /** `now` is the clock reading at creation; the token expires `expiresIn` seconds later. */
    constructor (endpoint: string, oauthEndpoint: string, clientId: Option<string>, cacheTime: int,
                 token: string, refreshToken: string, expiresIn: int, now: int)
      ensures fresh(base) && fresh(base.conn) && base.conn.cacheTime == cacheTime && base.conn.requested == []
      ensures base.endpoint == endpoint && base.oauthEndpoint == oauthEndpoint && base.clientId == clientId
      ensures base.cache == map[] && base.data == None
      ensures this.token == token && this.refreshToken == refreshToken && expires == now + expiresIn
    {
      var eve := new EVE(clientId, None, false, cacheTime);
      eve.endpoint := endpoint;
      eve.oauthEndpoint := oauthEndpoint;
      base := eve;
      this.token := token;
      this.refreshToken := refreshToken;
      expires := now + expiresIn;
    }

    /**
     * The identity behind the token: requested on first use and memoised
     * under "whoami"; a failed request memoises nothing.
     */
    method Whoami(server: string -> Response) returns (r: Result<Json, Error>)
      modifies base`cache, base.conn`requested
      ensures "whoami" in old(base.cache) ==>
        && r == Success(old(base.cache)["whoami"])
        && base.cache == old(base.cache)
        && base.conn.requested == old(base.conn.requested)
      ensures "whoami" !in old(base.cache) ==>
        && r == StatusCheck(server(VerifyUrl))
        && base.conn.requested == old(base.conn.requested) + [VerifyUrl]
        && base.cache == if r.Success? then old(base.cache)["whoami" := r.value] else old(base.cache)
    {
      if "whoami" !in base.cache {
        var got := base.conn.Get(VerifyUrl, server);
        if got.Failure? {
          return got;
        }
        base.cache := base.cache["whoami" := got.value];
      }
      r := Success(base.cache["whoami"]);
    }
  }
}
