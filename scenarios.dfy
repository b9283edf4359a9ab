/**
 * Concrete uses of the client that exhibit its behaviour: the
 * wrapped shape of a sample document, the strict expiry boundary of the
 * invocation cache, a failed fetch that is retried, the fetch of a nested
 * link, the identity invocation, and the memoised root.
 */
module Scenarios {
  import opened Wrappers
  import opened Json
  import opened Transport
  import opened Resource
  import opened Client

  /** The sample document `{"a": {"b": 1}, "c": [{"d": 2}, 3]}`. */
  function SampleDocument(): map<string, Json> {
    map["a" := Obj(map["b" := Leaf(Number(1))]),
        "c" := Arr([Obj(map["d" := Leaf(Number(2))]), Leaf(Number(3))])]
  }

  /** A server that answers every URL with 200 and a small object. */
  function Healthy(u: string): Response {
    Response(200, Obj(map["name" := Leaf(Str(u))]))
  }

  /** A server that answers every URL with 503. */
  function Unavailable(u: string): Response {
    Response(503, Leaf(Null))
  }

  /** Paths through the member `a` of any wrapping of the sample document, and a missing name. */
  lemma SampleObjectPaths(v: Value, conn: APIConnection)
    requires Mirrors(v, Obj(SampleDocument()), conn)
    ensures Navigate(v, [Attr("a"), Attr("b")]) == Success(Prim(Number(1)))
    ensures Navigate(v, [Attr("a")]).Success? && Navigate(v, [Attr("a")]).value.Node?
    ensures Navigate(v, [Attr("x")]) == Failure(MissingKey("x"))
    ensures Navigate(v, [Attr("a"), Attr("x")]) == Failure(MissingKey("x"))
  {
    var doc := Obj(SampleDocument());
    NavigateMirrors(v, doc, conn, [Attr("a"), Attr("b")]);
    NavigateMirrors(v, doc, conn, [Attr("a")]);
    NavigateMirrors(v, doc, conn, [Attr("x")]);
    NavigateMirrors(v, doc, conn, [Attr("a"), Attr("x")]);
  }

  /** Paths through the list member `c` of any wrapping of the sample document. */
  lemma SampleListPaths(v: Value, conn: APIConnection)
    requires Mirrors(v, Obj(SampleDocument()), conn)
    ensures Navigate(v, [Attr("c"), At(0), Attr("d")]) == Success(Prim(Number(2)))
    ensures Navigate(v, [Attr("c"), At(1)]) == Success(Prim(Number(3)))
    ensures Navigate(v, [Attr("c"), At(-1)]) == Success(Prim(Number(3)))
  {
    var doc := Obj(SampleDocument());
    NavigateMirrors(v, doc, conn, [Attr("c"), At(0), Attr("d")]);
    NavigateMirrors(v, doc, conn, [Attr("c"), At(1)]);
    NavigateMirrors(v, doc, conn, [Attr("c"), At(-1)]);
  }

  /** Wrapping the sample document: nested objects are reached by name, list elements by index. */
  method WrapSample() returns (root: APIObject)
    ensures Navigate(Node(root), [Attr("a"), Attr("b")]) == Success(Prim(Number(1)))
    ensures Navigate(Node(root), [Attr("c"), At(0), Attr("d")]) == Success(Prim(Number(2)))
    ensures Navigate(Node(root), [Attr("c"), At(1)]) == Success(Prim(Number(3)))
    ensures Navigate(Node(root), [Attr("c"), At(-1)]) == Success(Prim(Number(3)))
    ensures Navigate(Node(root), [Attr("a")]).Success? && Navigate(Node(root), [Attr("a")]).value.Node?
    ensures Navigate(Node(root), [Attr("x")]) == Failure(MissingKey("x"))
    ensures Navigate(Node(root), [Attr("a"), Attr("x")]) == Failure(MissingKey("x"))
  {
    var conn := new APIConnection(DefaultCacheTime);
    root := new APIObject(SampleDocument(), conn);
    SampleObjectPaths(Node(root), conn);
    SampleListPaths(Node(root), conn);
  }

  /**
   * With a time to live of 600 seconds, a node fetched at time 0 is reused
   * at time 600 and fetched anew at time 601.
   */
  method ExpiryBoundaryRun() returns (first: Result<APIObject, Error>, atTtl: Result<APIObject, Error>,
                                      afterTtl: Result<APIObject, Error>)
    ensures first.Success? && atTtl == first
    ensures afterTtl.Success? && afterTtl != first
  {
    var conn := new APIConnection(600);
    var node := new APIObject(map["href" := Leaf(Str("https://public-crest.eveonline.com/regions/"))], conn);
    assert node.Href().Some?;
    first := node.Invoke(0, Healthy);
    atTtl := node.Invoke(600, Healthy);
    afterTtl := node.Invoke(601, Healthy);
  }

  /** The URL of the API root on the live server. */
  const RootUrl: string := "https://public-crest.eveonline.com/"

  /** A fetch that fails leaves the slot empty, so the next invocation fetches and succeeds. */
  method RetryAfterFailure() returns (node: APIObject, failed: Result<APIObject, Error>,
                                      retried: Result<APIObject, Error>)
    ensures failed == Failure(UnexpectedStatus(503))
    ensures retried.Success? && retried.value != node
    ensures node.cache == Some((0, retried.value))
    ensures node.connection.requested == [RootUrl, RootUrl]
  {
    var conn := new APIConnection(600);
    node := new APIObject(map["href" := Leaf(Str(RootUrl))], conn);
    assert node.Href().Some?;
    failed := node.Invoke(0, Unavailable);
    assert node.cache == None;
    retried := node.Invoke(0, Healthy);
  }

  /** Two members of an unshared wrapping that are both objects are distinct nodes. */
  lemma SiblingsDistinct(v: Value, m: map<string, Json>, conn: APIConnection, k: string, k': string)
    requires Wrapping(v, Obj(m), conn)
    requires k in m && k' in m && k != k' && m[k].Obj? && m[k'].Obj?
    ensures v.obj.fields[k].Node? && v.obj.fields[k'].Node?
    ensures v.obj.fields[k].obj != v.obj.fields[k'].obj
  {
    assert Mirrors(v.obj.fields[k], m[k], conn) && Mirrors(v.obj.fields[k'], m[k'], conn);
    assert v.obj.fields[k].obj in NodesOf(v.obj.fields[k], m[k]);
    assert v.obj.fields[k'].obj in NodesOf(v.obj.fields[k'], m[k']);
  }

  /** The URL of the `regions` link of the sample root. */
  const RegionsUrl: string := "https://public-crest.eveonline.com/regions/"

  /** A new root wrapping two links, `regions` and `motd`, as distinct nodes with empty slots. */
  method LinkedRoot() returns (root: APIObject, regions: APIObject, motd: APIObject)
    ensures root.Attr("regions") == Success(Node(regions)) && root.Attr("motd") == Success(Node(motd))
    ensures regions != motd && regions != root && motd != root
    ensures regions.Href() == Some(RegionsUrl) && regions.connection == root.connection
    ensures root.cache == None && regions.cache == None && motd.cache == None
    ensures root.connection.requested == [] && root.connection.cacheTime == DefaultCacheTime
    ensures fresh(root) && fresh(regions) && fresh(motd) && fresh(root.connection)
  {
    var conn := new APIConnection(DefaultCacheTime);
    var doc := map["regions" := Obj(map["href" := Leaf(Str(RegionsUrl))]),
                   "motd" := Obj(map["href" := Leaf(Str("https://public-crest.eveonline.com/motd/"))])];
    root := new APIObject(doc, conn);
    SiblingsDistinct(Node(root), doc, conn, "regions", "motd");
    regions := root.fields["regions"].obj;
    motd := root.fields["motd"].obj;
    assert Mirrors(Node(regions), doc["regions"], conn);
  }

  /**
   * The usual flow: the root wraps two links, the field `regions` yields a
   * nested node, and invoking that node fetches its `href` and fills only
   * its own slot. Its sibling `motd` is a distinct node whose slot stays
   * empty, and the root's slot stays empty too.
   */
  method NestedFetch() returns (root: APIObject, fetched: Result<APIObject, Error>)
    ensures root.Attr("regions").Success? && root.Attr("regions").value.Node?
    ensures root.Attr("motd").Success? && root.Attr("motd").value.Node?
    ensures fetched.Success? && fetched.value != root.Attr("regions").value.obj
    ensures root.Attr("regions").value.obj.cache == Some((0, fetched.value))
    ensures root.Attr("motd").value.obj.cache == None && root.cache == None
    ensures root.connection.requested == [RegionsUrl]
  {
    var regions, motd;
    root, regions, motd := LinkedRoot();
    fetched := regions.Invoke(0, Healthy);
  }

  /**
   * Invoking a node without `href` returns the node itself, now and at any
   * later time, and its slot stays empty.
   */
  method IdentityRun(later: int) returns (node: APIObject, r: Result<APIObject, Error>, s: Result<APIObject, Error>)
    ensures r == Success(node) && s == Success(node)
    ensures node.Valid() && node.cache == None
  {
    var conn := new APIConnection(600);
    node := new APIObject(map["name" := Leaf(Str("Jita"))], conn);
    r := node.Invoke(0, Healthy);
    node.HrefLessIsIdentity(later);
    s := node.Invoke(later, Healthy);
  }

  /** The root is fetched once; a second call returns the same node. */
  method RootMemoised() returns (first: Result<APIObject, Error>, second: Result<APIObject, Error>)
    ensures first.Success? && second == first
  {
    var eve := new EVE(None, None, false, DefaultCacheTime);
    first := eve.Call(Healthy);
    second := eve.Call(Unavailable);
  }
}
