# PyCrest resource graph, modelled in Dafny

This project models the core of PyCrest (`pycrest/eve.py`), a client for the
CREST game-data API. The centre is `APIObject`, a node of a lazy hypermedia
graph. Other pieces are modelled with it:

- **Wrapping.** The `APIObject` constructor turns a parsed JSON object into a
  node. Object members become nested nodes. Array members become lists whose
  elements are wrapped by the same rule (`_wrap_list`). Scalars stay as they are.
- **Field lookup.** `__getattr__` returns the stored value and fails with a
  missing-key error on an unknown name.
- **Invocation.** `__call__` follows the node's `href` through a one-slot cache
  with a time to live (`cache_time`). A node without `href` returns itself. An
  empty or expired slot causes a fetch. A fresh slot is reused.
- **The rest of the client.** This covers the status check of
  `APIConnection.get`, the memoised API root of `EVE.__call__`, the memoised
  identity of `AuthedConnection.whoami`, and the authorization URI of
  `EVE.auth_uri`.

Files and modules:

- `wrappers.dfy` (`Wrappers`): `Option` and `Result`.
- `json.dfy` (`Json`): the parsed documents.
- `transport.dfy` (`Transport`): the error kinds, `StatusCheck` and the
  `APIConnection` class. The connection holds `cacheTime` and a ghost log of
  every requested URL.
- `resource.dfy` (`Resource`): the `APIObject` class and its specification.
  - `Mirrors` says that a wrapped value is the wrapping of a document.
  - `NodesOf` collects the nodes of a wrapping, and `Unshared` says that no
    node occurs twice in it.
  - `Decide` is the cache-or-fetch rule.
  - `FetchTimes` traces a run of invocations.
  - `Navigate` follows a path of field names and list indices.
- `auth_uri.dfy` (`AuthUri`): the authorization URI and a parser that reads
  its optional segments back.
- `client.dfy` (`Client`): the `EVE` and `AuthedConnection` classes.
- `scenarios.dfy` (`Scenarios`): concrete uses of the client. They show the sample wrapping,
  the expiry boundary, a retry after a failure, the fetch of a nested link, the
  identity invocation and the memoised root.

Time and the network are parameters:

- Every invocation takes one clock reading `now` (whole seconds).
- Every fetch takes a `server: string -> Response`. It gives the response for
  each URL at the moment of the call.
- `quote(..., safe='')` is a parameter `quote: string -> string` of the
  authorization URI.

The model matches the code except where the notes below or "## Left out" say
otherwise. The notes:

- The code tests "empty or expired slot, and `href` present" first. Only then
  does it test "slot filled". So a node without `href` that had a filled slot
  would return the cached node. `Decide` keeps this order. The invariant
  `APIObject.Valid` says that such a slot never arises, and
  `APIObject.HrefLessIsIdentity` shows that the order then makes no difference.
- The code reads the clock twice in one invocation. The model reads it once.
  The stored timestamp is the same reading that decided the fetch.
- An unknown field raises `KeyError`. In the model this is `MissingKey(name)`.
- A fetched body that is not a JSON object makes the constructor fail, because
  `.items()` is missing. This is `NotAnObject`. The cache slot and the memoised
  root are left as they were.
- `whoami` always asks the live login server (`VerifyUrl`), even for a client
  built for the test server.

## Model

| member | source | states |
|---|---|---|
| `Transport.StatusCheck` | pycrest/eve.py:40-43 | A response yields its body exactly when its status is 200. Any other status fails with that status code. |
| `Transport.APIConnection.constructor` | pycrest/eve.py:19-20 | The connection keeps the given time to live. Nothing has been requested yet. |
| `Transport.APIConnection.Get` | pycrest/eve.py:36-43 | Exactly one request is made, for the given URL. The result is the status-checked response for that URL. |
| `Resource.Mirrors` | pycrest/eve.py:129-146 | The wrapping relation: an object becomes a node over the connection with the object's member names, an array a list of the same length wrapped element by element, a scalar itself. |
| `Resource.NodesOf` | pycrest/eve.py:129-146 | The nodes of a wrapping: one for each object of the document, at any depth. |
| `Resource.Unshared` | pycrest/eve.py:129-146 | A wrapping shares no node: the nodes under distinct fields or distinct list elements are disjoint, and no node is among its own descendants. |
| `Resource.Wrapping` | pycrest/eve.py:129-146 | A value both mirrors the document and shares no node. |
| `Resource.ListWrapped` | pycrest/eve.py:137-146 | Elements that are unshared wrappings with pairwise disjoint nodes make an unshared wrapping of the whole list. Its nodes are the elements' nodes. |
| `Resource.ObjectWrapped` | pycrest/eve.py:125-135 | Fields that are unshared wrappings with pairwise disjoint nodes, none of them the node itself, make an unshared wrapping of the whole object. Its nodes are the node and the fields' nodes. |
| `Resource.MirrorsDetermined` | pycrest/eve.py:125-146 | A wrapped graph determines the document it wraps. Two documents with the same wrapping are equal. |
| `Resource.Navigate` | pycrest/eve.py:137-149 | A path through the wrapped graph: a name is looked up with `Attr` on a node, an index selects a list element with Python's indexing rule, and anything else fails as not navigable. |
| `Resource.JsonAt` | pycrest/eve.py:129-146 | The same path through the parsed document. A name missing from an object fails with a missing-key error. |
| `Resource.NavigateMirrors` | pycrest/eve.py:129-149 | Wrapping applies at every depth. A path of field names and list indices fails in the graph exactly when it fails in the document, with the same error. Otherwise it reaches the wrapping of what it reaches in the document. List indices follow Python's rule through the helper `PyIndex`: valid in `[-len, len)`, negative ones counting from the end. |
| `Resource.Decide` | pycrest/eve.py:152-159 | A node without `href` never fetches. With an empty slot, it fetches exactly when it has `href`, and is the identity otherwise. With a filled slot, it is reused exactly when there is no `href` or `now - ts <= cache_time`, and is fetched otherwise. Callers pass the slot's timestamp through the helper `Stamp` (`None` for an empty slot). |
| `Resource.ExpiryBoundary` | pycrest/eve.py:152-157 | At exactly `cache_time` seconds the slot is reused. One second later it is refetched. |
| `Resource.FetchPersists` | pycrest/eve.py:152-154 | If a fetch was due and failed, the slot is unchanged, so a fetch is still due at every later time. |
| `Resource.FetchTimes` | pycrest/eve.py:152-157 | Over a run of successful invocations, a node without `href` never fetches. Every fetch happens at one of the invocation times. A node with `href` and an empty slot fetches on its first invocation. |
| `Resource.FetchesSpaced` | pycrest/eve.py:152-157 | Consecutive fetches are more than `cache_time` seconds apart. The first fetch is more than `cache_time` seconds after the slot's timestamp. |
| `Resource.FetchCountBound` | pycrest/eve.py:152-157 | Over invocations within `[lo, hi]`, there is at most one fetch per `cache_time + 1` seconds. |
| `Resource.APIObject.Valid` | pycrest/eve.py:151-159 | The invariant that a node without `href` has an empty slot. The constructor establishes it and `Invoke` preserves it. |
| `Resource.APIObject.HrefLessIsIdentity` | pycrest/eve.py:152-159 | Under that invariant, a node without `href` is the identity at every clock reading. So testing "slot filled" after "fetch due" never returns a cached node for such a node. |
| `Resource.APIObject.constructor` | pycrest/eve.py:125-135 | The new node has exactly the input mapping's keys. Object members become nodes over the same connection. Array members become lists of the same length and order, wrapped recursively. Scalars are unchanged. Every node of the result, at any depth, is newly allocated and has an empty cache slot. No node occurs twice: distinct fields and distinct list elements hold distinct nodes, and no node is inside itself. |
| `Resource.APIObject.WrapList` | pycrest/eve.py:137-146 | The result has the list's length and order. Each element is wrapped by the same rule, recursing into nested lists. Every node in the result is newly allocated, has an empty cache slot, and occurs once. |
| `Resource.APIObject.WrapItem` | pycrest/eve.py:130-135 | The rule both loops apply to one value. The result wraps the value, shares no node, and all its nodes are newly allocated with empty slots. |
| `Resource.APIObject.Attr` | pycrest/eve.py:148-149 | Lookup succeeds exactly when the name is a field, and returns the value stored under it. Otherwise it fails with a missing-key error for that name. |
| `Resource.APIObject.Invoke` | pycrest/eve.py:151-159 | Without a fetch, the node itself (no `href`, empty slot) or the cached node is returned. Nothing is requested and the slot is unchanged. With a fetch, exactly one request is made for the URL the helper `Href` reads from the `href` field. On success the whole slot becomes `(now, new node)`, the new node wraps the body, every node of that wrapping is newly allocated with an empty slot and occurs once, and the new node is returned. On a non-200 status or a non-object body, the error is returned and the slot is unchanged. A node without `href` never fills its slot. |
| `AuthUri.Join` | pycrest/eve.py:82 | `','.join`: the parts with a comma between each two. |
| `AuthUri.Truthy` | pycrest/eve.py:83 | Python truthiness of the state: present and non-empty. |
| `AuthUri.ScopeSegment` | pycrest/eve.py:82 | `&scope=` and the joined scopes when there are scopes, and nothing otherwise. |
| `AuthUri.StateSegment` | pycrest/eve.py:83 | `&state=` and the state when it is truthy, and nothing otherwise. |
| `AuthUri.AuthorizeBase` | pycrest/eve.py:78-81 | The fixed part: the OAuth endpoint, `/authorize?response_type=code`, the quoted redirect URI and the client id. |
| `AuthUri.IndexOf` | pycrest/eve.py:82 | The result is the first position of the character, or the length when the character does not occur. |
| `AuthUri.Split` | pycrest/eve.py:82 | Splitting at commas yields at least one part. |
| `AuthUri.SplitJoin` | pycrest/eve.py:82 | Splitting the comma-joined scopes at commas gives back the scopes, when no scope contains a comma. |
| `AuthUri.JoinAvoids` | pycrest/eve.py:82 | A character other than the comma that is in no scope is not in the joined scopes. |
| `AuthUri.IndexOfConcat` | pycrest/eve.py:82-83 | The first `&` after the joined scopes is where the state segment begins. |
| `AuthUri.AuthorizeUrl` | pycrest/eve.py:76-84 | The URI starts with the authorize endpoint, `response_type=code`, the quoted redirect URI and the client id. It is exactly that prefix when there are no scopes and the state is not truthy. |
| `AuthUri.StateSegmentBack` | pycrest/eve.py:83 | The `&state=` segment is present exactly when the state is truthy, and it reads back as that state. |
| `AuthUri.ScopeSegmentBack` | pycrest/eve.py:77-82 | The `&scope=` segment reads back as the scopes. The text after it is left for the state. |
| `AuthUri.AuthorizeUrlTail` | pycrest/eve.py:77-84 | After the fixed prefix, the URI is the scope segment followed by the state segment, in that order. |
| `AuthUri.NoScopeBack` | pycrest/eve.py:82-83 | Without scopes, the optional segments read back as no scopes and the truthy state. |
| `AuthUri.AuthorizeUrlRoundTrip` | pycrest/eve.py:76-84 | After the fixed prefix, the URI reads back as the scopes and the truthy state. So `&scope=` is present exactly when there are scopes, and `&state=` exactly when the state is truthy. |
| `Client.EVE.constructor` | pycrest/eve.py:47-63 | The endpoints are those of the test server when `testing` holds, and those of the live server otherwise. The memo dictionary is empty and there is no root yet. |
| `Client.EVE.Call` | pycrest/eve.py:68-71 | Once a root is memoised, it is returned and nothing is requested. Otherwise the endpoint is requested exactly once. On success the wrapped root is memoised and returned, and every node of it is newly allocated with an empty slot and occurs once. On failure nothing is memoised. |
| `Client.EVE.AuthUri` | pycrest/eve.py:76-84 | Building the URI fails exactly when no redirect URI is configured. Otherwise it is the authorization URI over the client's OAuth endpoint and client id. A missing client id is rendered as `None` by the helper `Show`, as `%s` renders it. |
| `Client.AuthedConnection.constructor` | pycrest/eve.py:97-105 | The client keeps the token and the refresh token. It uses the given API and OAuth endpoints, and expires `expires_in` seconds after `now`. |
| `Client.AuthedConnection.Whoami` | pycrest/eve.py:109-112 | The memoised identity is returned with no request when present. Otherwise the verify URL is requested once, and the result is memoised only on success. |
| `Scenarios.WrapSample` | pycrest/eve.py:125-149 | For `{"a": {"b": 1}, "c": [{"d": 2}, 3]}`: `a.b` is 1, `c[0].d` is 2, `c[1]` and `c[-1]` are 3, and `a` is a node. Unknown names fail at the top and nested levels. |
| `Scenarios.ExpiryBoundaryRun` | pycrest/eve.py:152-157 | With `cache_time` 600, a node fetched at 0 returns the same node at 600 and a new node at 601. |
| `Scenarios.RetryAfterFailure` | pycrest/eve.py:152-155 | A fetch that fails with status 503 leaves the slot empty. So the next invocation, at the same time, requests the URL a second time, succeeds with a new node and fills the slot with it. |
| `Scenarios.SiblingsDistinct` | pycrest/eve.py:129-131 | In any unshared wrapping, two members that are both objects are two distinct nodes. |
| `Scenarios.NestedFetch` | pycrest/eve.py:125-159 | A root wrapping two links yields the nested node `regions`. Invoking it requests its `href` once and fills only its own slot. Its sibling `motd` is a distinct node whose slot stays empty, and so does the root's. |
| `Scenarios.IdentityRun` | pycrest/eve.py:158-159 | A node without `href` returns itself when invoked, at the first call and at any later time, and its slot stays empty. |
| `Scenarios.RootMemoised` | pycrest/eve.py:68-71 | A second call of the root returns the first root, even when the server would now fail. |

## Left out

- HTTP transport is not modelled: the requests session, its headers, the TLS
  adapter and the query parameters of `get`. A fetch is the `server` parameter,
  followed by the status check.
- Parsing of response bodies (`res.json()`) is not modelled. Documents arrive
  already parsed, and JSON numbers are whole numbers (no floating point).
- The clock (`round(time.time())`) is not modelled: it is the parameter `now`.
- `authorize`, `refresh` and token exchange are not modelled. They are base64
  and HTTP POST glue over library calls. `AuthedConnection` is built from the
  token fields directly, and the API key is not kept.
- Percent-encoding (`urllib.quote`) is not re-implemented. It is the `quote`
  parameter.
- `EVE.__getattr__` forwarding to the root is not modelled. It is plain
  delegation to `Resource.APIObject.Attr`.
- Logging, `__str__` and `__repr__` are not modelled.
- Inheritance is replaced by composition. `EVE` holds its `APIConnection`
  (`conn`) and `AuthedConnection` holds its `EVE` (`base`). The
  `_endpoint`/`_oauth_endpoint` overrides become assignments to those fields.
- Resource.APIObject.Invoke: an `href` that is not a string fails with
  `InvalidUrl` and is not logged as a request. In the source, it is passed to
  the HTTP library, which raises on it.
- Resource.APIObject.WrapList: it is a static method taking the connection.
  The source uses an instance method that reads only `self.connection`.
- Resource.FetchTimes: the trace takes every fetch to succeed. Failed fetches
  are covered by `Resource.APIObject.Invoke` and `Resource.FetchPersists`.
- AuthUri.AuthorizeUrlRoundTrip: it applies only to scopes without `,` or `&`.
  Other scopes cannot be read back from the URI at all.
- Client.EVE.AuthUri: `scopes=None` is the empty sequence. `state` is an
  optional string; the source formats any object with `%s`.
- Resource.Navigate: a name is always looked up as a field, as a direct call
  of `__getattr__` does. With Python's attribute syntax, ordinary lookup comes
  first: the instance attributes `_dict`, `connection` and `_cache` and the
  class attributes (`_wrap_list`, `__init__`, `__call__`, `__getattr__`,
  `__str__`, `__repr__`, `__class__`, `__dict__` and the other members
  inherited from `object`) shadow a field of the same name. Such a field is
  reachable only through `__getattr__`, and the model does not capture the
  shadowing.
- Wrapped lists are immutable sequences and `fields` is a constant map. In the
  source, reading a list field returns the same mutable Python list each time,
  and `_dict` could be changed through it. The core never changes either after
  construction, so the model has no such updates.
- Concurrency is not modelled: the source is single-threaded.
