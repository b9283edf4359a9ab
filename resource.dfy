/**
 * The lazy hypermedia node, `APIObject`: a JSON object wrapped into a node
 * whose object-valued fields are nodes in turn, whose field lookup fails on
 * unknown names, and whose invocation follows its `href` through a
 * single-slot cache with a time to live.
 */
module Resource {
  import opened Wrappers
  import opened Json
  import opened Transport

  /** A field value after wrapping: a scalar, a nested node, or a list of wrapped values. */
  datatype Value = Prim(scalar: Scalar) | Node(obj: APIObject) | List(items: seq<Value>)

  /**
   * `v` is the wrapping of `j` over connection `conn`: an object became a
   * node with exactly the object's member names, whose fields wrap the
   * members; an array became a list of the same length whose elements wrap
   * the array's elements in order; a scalar is unchanged. Only the immutable
   * part of the nodes is inspected, so the relation survives any later
   * change to their caches.
   */
  ghost predicate Mirrors(v: Value, j: Json, conn: APIConnection)
    decreases j
  {
    match j
    case Leaf(s) => v == Prim(s)
    case Arr(js) =>
      && v.List?
      && |v.items| == |js|
      && forall i :: 0 <= i < |js| ==> Mirrors(v.items[i], js[i], conn)
    case Obj(m) =>
      && v.Node?
      && v.obj.connection == conn
      && v.obj.fields.Keys == m.Keys
      && forall k :: k in m ==> Mirrors(v.obj.fields[k], m[k], conn)
  }

  /** The nodes of the wrapping `v` of document `j`: one per object in `j`, at any depth. */
  ghost function NodesOf(v: Value, j: Json): set<APIObject>
    decreases j
  {
    match j
    case Leaf(_) => {}
    case Arr(js) =>
      if v.List? && |v.items| == |js| then
        set i, o | 0 <= i < |js| && o in NodesOf(v.items[i], js[i]) :: o
      else {}
    case Obj(m) =>
      if v.Node? then
        {v.obj} + set k, o | k in m && k in v.obj.fields && o in NodesOf(v.obj.fields[k], m[k]) :: o
      else {}
  }

  /**
   * No node of the wrapping `v` of `j` is shared: a node is not one of its
   * own descendants, and the nodes under distinct fields or distinct list
   * elements are distinct objects.
   */
  ghost predicate Unshared(v: Value, j: Json)
    decreases j
  {
    match j
    case Leaf(_) => true
    case Arr(js) =>
      && v.List?
      && |v.items| == |js|
      && (forall i :: 0 <= i < |js| ==> Unshared(v.items[i], js[i]))
      && (forall i, n :: 0 <= i < n < |js| ==> NodesOf(v.items[i], js[i]) !! NodesOf(v.items[n], js[n]))
    case Obj(m) =>
      && v.Node?
      && v.obj.fields.Keys == m.Keys
      && (forall k :: k in m ==> Unshared(v.obj.fields[k], m[k]) && v.obj !in NodesOf(v.obj.fields[k], m[k]))
      && (forall k, k' :: k in m && k' in m && k != k' ==>
            NodesOf(v.obj.fields[k], m[k]) !! NodesOf(v.obj.fields[k'], m[k']))
  }

  /** `v` is the wrapping of `j` over `conn`, and none of its nodes is shared. */
  ghost predicate Wrapping(v: Value, j: Json, conn: APIConnection) {
    Mirrors(v, j, conn) && Unshared(v, j)
  }

  /** Elements that are unshared wrappings with disjoint nodes inside `made` make such a list. */
  lemma ListWrapped(r: seq<Value>, list: seq<Json>, conn: APIConnection, made: set<APIObject>)
    requires |r| == |list|
    requires forall n :: 0 <= n < |r| ==> Wrapping(r[n], list[n], conn)
    requires forall n, n' :: 0 <= n < n' < |r| ==> NodesOf(r[n], list[n]) !! NodesOf(r[n'], list[n'])
    requires forall n :: 0 <= n < |r| ==> NodesOf(r[n], list[n]) <= made
    ensures Wrapping(List(r), Arr(list), conn)
    ensures NodesOf(List(r), Arr(list)) <= made
  {
  }

  /**
   * Appending an element whose nodes avoid `made` to a list whose elements
   * have pairwise disjoint nodes inside `made` keeps them pairwise disjoint,
   * inside `made` and the new nodes.
   */
  lemma ExtendDisjoint(r: seq<Value>, list: seq<Json>, w: Value, made: set<APIObject>)
    requires |r| < |list|
    requires forall n, n' :: 0 <= n < n' < |r| ==> NodesOf(r[n], list[n]) !! NodesOf(r[n'], list[n'])
    requires forall n :: 0 <= n < |r| ==> NodesOf(r[n], list[n]) <= made
    requires made !! NodesOf(w, list[|r|])
    ensures forall n, n' :: 0 <= n < n' < |r| + 1 ==> NodesOf((r + [w])[n], list[n]) !! NodesOf((r + [w])[n'], list[n'])
    ensures forall n :: 0 <= n < |r| + 1 ==> NodesOf((r + [w])[n], list[n]) <= made + NodesOf(w, list[|r|])
  {
  }

  /** Fields that are unshared wrappings with disjoint nodes inside `made` make such a node, when the node is not in `made`. */
  lemma ObjectWrapped(node: APIObject, m: map<string, Json>, conn: APIConnection, made: set<APIObject>)
    requires node.connection == conn && node.fields.Keys == m.Keys
    requires forall k :: k in m ==> Wrapping(node.fields[k], m[k], conn)
    requires forall k, k' :: k in m && k' in m && k != k' ==>
      NodesOf(node.fields[k], m[k]) !! NodesOf(node.fields[k'], m[k'])
    requires forall k :: k in m ==> NodesOf(node.fields[k], m[k]) <= made
    requires node !in made
    ensures Wrapping(Node(node), Obj(m), conn)
    ensures NodesOf(Node(node), Obj(m)) <= made + {node}
  {
  }

  /** A wrapped graph determines the document it wraps: wrapping loses nothing. */
  lemma {:induction false} MirrorsDetermined(v: Value, j1: Json, j2: Json, conn: APIConnection)
    requires Mirrors(v, j1, conn) && Mirrors(v, j2, conn)
    ensures j1 == j2
    decreases j1
  {
    match j1
    case Leaf(_) =>
    case Arr(js1) =>
      var js2 := j2.elems;
      forall i | 0 <= i < |js1|
        ensures js1[i] == js2[i]
      {
        MirrorsDetermined(v.items[i], js1[i], js2[i], conn);
      }
    case Obj(m1) =>
      var m2 := j2.members;
      forall k | k in m1
        ensures m1[k] == m2[k]
      {
        MirrorsDetermined(v.obj.fields[k], m1[k], m2[k], conn);
      }
  }

  /** One step of navigation: a field by name, or a list element by (Python) index. */
  datatype Selector = Attr(name: string) | At(index: int)

  /** Python list indexing: a negative index counts from the end. */
  function PyIndex(len: nat, i: int): Option<nat>
  {
    if 0 <= i < len then Some(i) else if -(len as int) <= i < 0 then Some(len + i) else None
  }

  /** Following a path of selectors through the wrapped graph. */
  function Navigate(v: Value, path: seq<Selector>): Result<Value, Error>
    decreases |path|
  {
    if path == [] then Success(v)
    else
      match path[0]
      case Attr(name) =>
        if !v.Node? then Failure(NotNavigable)
        else
          (match v.obj.Attr(name)
           case Success(w) => Navigate(w, path[1..])
           case Failure(e) => Failure(e))
      case At(i) =>
        if !v.List? then Failure(NotNavigable)
        else
          match PyIndex(|v.items|, i)
          case Some(n) => Navigate(v.items[n], path[1..])
          case None => Failure(NotNavigable)
  }

  /** Following the same path through the parsed document itself. */
  function JsonAt(j: Json, path: seq<Selector>): Result<Json, Error>
    decreases |path|
  {
    if path == [] then Success(j)
    else
      match path[0]
      case Attr(name) =>
        if !j.Obj? then Failure(NotNavigable)
        else if name !in j.members then Failure(MissingKey(name))
        else JsonAt(j.members[name], path[1..])
      case At(i) =>
        if !j.Arr? then Failure(NotNavigable)
        else
          match PyIndex(|j.elems|, i)
          case Some(n) => JsonAt(j.elems[n], path[1..])
          case None => Failure(NotNavigable)
  }

  /**
   * Wrapping applies uniformly at every depth: a path through the wrapped
   * graph fails exactly when it fails through the document, with the same
   * error, and otherwise reaches the wrapping of what it reaches there.
   */
  lemma {:induction false} NavigateMirrors(v: Value, j: Json, conn: APIConnection, path: seq<Selector>)
    requires Mirrors(v, j, conn)
    ensures Navigate(v, path).Failure? <==> JsonAt(j, path).Failure?
    ensures Navigate(v, path).Failure? ==> Navigate(v, path).error == JsonAt(j, path).error
    ensures Navigate(v, path).Success? ==> Mirrors(Navigate(v, path).value, JsonAt(j, path).value, conn)
    decreases |path|
  {
    if path != [] {
      match path[0]
      case Attr(name) =>
        if j.Obj? && name in j.members {
          NavigateMirrors(v.obj.fields[name], j.members[name], conn, path[1..]);
        }
      case At(i) =>
        if j.Arr? && PyIndex(|j.elems|, i).Some? {
          var n := PyIndex(|j.elems|, i).value;
          NavigateMirrors(v.items[n], j.elems[n], conn, path[1..]);
        }
    }
  }

  /** What an invocation does, as decided from the cache slot, `href` and the clock. */
  datatype Action = Identity | Reuse | Fetch

  /**
   * The cache-or-fetch rule of an invocation. `stamp` is the timestamp of
   * the cache slot (`None` when the slot is empty). A node fetches when it
   * has an `href` and its slot is empty or strictly older than `cacheTime`;
   * otherwise a filled slot is reused and an empty one makes the
   * invocation the identity.
   */
  function Decide(stamp: Option<int>, hasHref: bool, now: int, cacheTime: int): (a: Action)
    ensures !hasHref ==> a != Fetch
    ensures stamp.None? ==> (a == Fetch <==> hasHref) && (a == Identity <==> !hasHref)
    ensures stamp.Some? ==> a != Identity
    ensures stamp.Some? ==> (a == Reuse <==> !hasHref || now - stamp.value <= cacheTime)
  {
    if (stamp.None? || now - stamp.value > cacheTime) && hasHref then Fetch
    else if stamp.Some? then Reuse
    else Identity
  }

  /** The expiry boundary is strict: at exactly `cacheTime` seconds the slot is still reused. */
  lemma ExpiryBoundary(ts: int, cacheTime: int)
    ensures Decide(Some(ts), true, ts + cacheTime, cacheTime) == Reuse
    ensures Decide(Some(ts), true, ts + cacheTime + 1, cacheTime) == Fetch
  {
  }

  /** A fetch that failed left the slot as it was, so any later invocation fetches again. */
  lemma FetchPersists(stamp: Option<int>, hasHref: bool, now: int, later: int, cacheTime: int)
    requires Decide(stamp, hasHref, now, cacheTime) == Fetch
    requires now <= later
    ensures Decide(stamp, hasHref, later, cacheTime) == Fetch
  {
  }

  /**
   * The times at which a node fetches when it is invoked at the clock
   * readings `nows` in turn, starting from a slot stamped `stamp`, and every
   * fetch succeeds.
   */
  function FetchTimes(stamp: Option<int>, hasHref: bool, nows: seq<int>, cacheTime: int): (f: seq<int>)
    ensures !hasHref ==> f == []
    ensures forall t :: t in f ==> t in nows
    ensures hasHref && stamp.None? && nows != [] ==> f != [] && f[0] == nows[0]
    decreases |nows|
  {
    if nows == [] then []
    else if Decide(stamp, hasHref, nows[0], cacheTime) == Fetch then
      [nows[0]] + FetchTimes(Some(nows[0]), hasHref, nows[1..], cacheTime)
    else
      FetchTimes(stamp, hasHref, nows[1..], cacheTime)
  }

  /**
   * Within one time to live no second fetch happens: consecutive fetches
   * are more than `cacheTime` seconds apart, and the first one is more than
   * `cacheTime` seconds after the slot's stamp.
   */
  lemma {:induction false} FetchesSpaced(stamp: Option<int>, hasHref: bool, nows: seq<int>, cacheTime: int)
    ensures var f := FetchTimes(stamp, hasHref, nows, cacheTime);
      && (stamp.Some? && f != [] ==> f[0] - stamp.value > cacheTime)
      && forall i :: 0 <= i < |f| - 1 ==> f[i + 1] - f[i] > cacheTime
    decreases |nows|
  {
    if nows != [] {
      var f := FetchTimes(stamp, hasHref, nows, cacheTime);
      if Decide(stamp, hasHref, nows[0], cacheTime) == Fetch {
        FetchesSpaced(Some(nows[0]), hasHref, nows[1..], cacheTime);
        var rest := FetchTimes(Some(nows[0]), hasHref, nows[1..], cacheTime);
        assert f == [nows[0]] + rest;
        assert forall i :: 1 <= i < |f| ==> f[i] == rest[i - 1];
      } else {
        FetchesSpaced(stamp, hasHref, nows[1..], cacheTime);
      }
    }
  }

  /**
   * Over invocations whose clock readings all lie in `[lo, hi]`, a node
   * fetches at most once per `cacheTime + 1` seconds.
   */
  lemma FetchCountBound(stamp: Option<int>, hasHref: bool, nows: seq<int>, cacheTime: nat, lo: int, hi: int)
    requires forall i :: 0 <= i < |nows| ==> lo <= nows[i] <= hi
    ensures var f := FetchTimes(stamp, hasHref, nows, cacheTime);
      f == [] || (|f| - 1) * (cacheTime + 1) <= hi - lo
  {
    var f := FetchTimes(stamp, hasHref, nows, cacheTime);
    if f != [] {
      FetchesSpaced(stamp, hasHref, nows, cacheTime);
      SpacedSpan(f, cacheTime + 1);
      assert f[0] in nows && f[|f| - 1] in nows;
    }
  }

  /** A sequence whose consecutive elements are at least `gap` apart spans `(|s| - 1) * gap`. */
  lemma {:induction false} SpacedSpan(s: seq<int>, gap: int)
    requires s != []
    requires forall i :: 0 <= i < |s| - 1 ==> s[i + 1] - s[i] >= gap
    ensures s[|s| - 1] - s[0] >= (|s| - 1) * gap
  {
    if |s| > 1 {
      SpacedSpan(s[..|s| - 1], gap);
      assert s[|s| - 1] - s[|s| - 2] >= gap;
    }
  }

  /** The timestamp of a cache slot. */
  function Stamp(slot: Option<(int, APIObject)>): Option<int>
  {
    if slot.None? then None else Some(slot.value.0)
  }

  /**
   * A node of the hypermedia graph. Its field mapping is fixed at
   * construction; its one mutable part is the cache slot, empty or holding
   * the time and the node of the last fetch of its `href`.
   */
  class APIObject {
    const fields: map<string, Value>
    const connection: APIConnection
    var cache: Option<(int, APIObject)>

    /**
     * The invariant that a node without `href` never fills its cache slot.
     * The constructor establishes it and `Invoke` preserves it; under it the
     * order of the tests in `Decide` makes no difference (`HrefLessIsIdentity`).
     */
    ghost predicate Valid()
      reads this
    {
      cache.Some? ==> "href" in fields
    }

    /** A valid node without `href` is the identity at every clock reading. */
    lemma HrefLessIsIdentity(now: int)
      requires Valid() && "href" !in fields
      ensures Decide(Stamp(cache), "href" in fields, now, connection.cacheTime) == Identity
    {
    }

    /** Wraps every member of `parent` into a field of the new node. */
    constructor (parent: map<string, Json>, connection: APIConnection)
      ensures this.connection == connection && cache == None
      ensures Mirrors(Node(this), Obj(parent), connection)
      ensures Unshared(Node(this), Obj(parent))
      ensures forall o :: o in NodesOf(Node(this), Obj(parent)) && o != this ==> fresh(o) && o.cache == None
      ensures Valid()
      decreases Obj(parent), 1
    {
      var wrapped: map<string, Value> := map[];
      ghost var made: set<APIObject> := {};
      var todo := parent.Keys;
      while todo != {}
        invariant todo <= parent.Keys
        invariant wrapped.Keys == parent.Keys - todo
        invariant forall k :: k in wrapped ==> Wrapping(wrapped[k], parent[k], connection)
        invariant forall k, k' :: k in wrapped && k' in wrapped && k != k' ==>
          NodesOf(wrapped[k], parent[k]) !! NodesOf(wrapped[k'], parent[k'])
        invariant forall k :: k in wrapped ==> NodesOf(wrapped[k], parent[k]) <= made
        invariant forall o :: o in made ==> fresh(o) && o.cache == None
        decreases todo
      {
        var k :| k in todo;
        var w := WrapItem(parent[k], connection);
        assert forall o :: o in made ==> o !in NodesOf(w, parent[k]);
        wrapped := wrapped[k := w];
        made := made + NodesOf(w, parent[k]);
        todo := todo - {k};
      }
      fields := wrapped;
      this.connection := connection;
      cache := None;
      new;
      assert this !in made;
      ObjectWrapped(this, parent, connection, made);
    }

    /** Wraps every element of `list` by the same rule, recursing into nested lists. */
    static method WrapList(list: seq<Json>, connection: APIConnection) returns (r: seq<Value>)
      ensures Mirrors(List(r), Arr(list), connection)
      ensures Unshared(List(r), Arr(list))
      ensures forall o :: o in NodesOf(List(r), Arr(list)) ==> fresh(o) && o.cache == None
      decreases Arr(list), 1
    {
      r := [];
      ghost var made: set<APIObject> := {};
      for i := 0 to |list|
        invariant |r| == i
        invariant forall n :: 0 <= n < i ==> Wrapping(r[n], list[n], connection)
        invariant forall n, n' :: 0 <= n < n' < i ==> NodesOf(r[n], list[n]) !! NodesOf(r[n'], list[n'])
        invariant forall n :: 0 <= n < i ==> NodesOf(r[n], list[n]) <= made
        invariant forall o :: o in made ==> fresh(o) && o.cache == None
      {
        var item := list[i];
        var w := WrapItem(item, connection);
        assert made !! NodesOf(w, item);
        ExtendDisjoint(r, list, w, made);
        r := r + [w];
        made := made + NodesOf(w, item);
      }
      ListWrapped(r, list, connection, made);
    }

    /**
     * The rule that both loops of the wrapping apply to one value: an object
     * becomes a new node, an array a wrapped list, a scalar stays as it is.
     */
    static method WrapItem(item: Json, connection: APIConnection) returns (w: Value)
      ensures Wrapping(w, item, connection)
      ensures forall o :: o in NodesOf(w, item) ==> fresh(o) && o.cache == None
      decreases item, 2
    {
      if item.Obj? {
        var child := new APIObject(item.members, connection);
        w := Node(child);
      } else if item.Arr? {
        var items := WrapList(item.elems, connection);
        w := List(items);
      } else {
        w := Prim(item.scalar);
      }
    }

    /** Field lookup: the value stored under `name`, or a missing-key error. */
    function Attr(name: string): (r: Result<Value, Error>)
      ensures r.Success? <==> name in fields
      ensures r.Success? ==> r.value == fields[name]
      ensures r.Failure? ==> r.error == MissingKey(name)
    {
      if name in fields then Success(fields[name]) else Failure(MissingKey(name))
    }

    /** The URL under `href`, when there is one and it is a string. */
    function Href(): Option<string>
    {
      if "href" in fields && fields["href"].Prim? && fields["href"].scalar.Str? then
        Some(fields["href"].scalar.s)
      else
        None
    }

    /**
     * Invocation at clock reading `now`: the node itself when it cannot be
     * fetched, the cached node while it is fresh, and otherwise the wrapping
     * of a new fetch of `href`, which then replaces the whole cache slot. A
     * failed fetch leaves the slot as it was.
     */
    method Invoke(now: int, server: string -> Response) returns (r: Result<APIObject, Error>)
      modifies this`cache, connection`requested
      ensures var a := Decide(Stamp(old(cache)), "href" in fields, now, connection.cacheTime);
        a != Fetch ==> connection.requested == old(connection.requested) && cache == old(cache)
      ensures var a := Decide(Stamp(old(cache)), "href" in fields, now, connection.cacheTime);
        && (a == Identity ==> r == Success(this))
        && (a == Reuse ==> r == Success(old(cache).value.1))
      ensures Decide(Stamp(old(cache)), "href" in fields, now, connection.cacheTime) == Fetch && Href().None? ==>
        r == Failure(InvalidUrl) && cache == old(cache) && connection.requested == old(connection.requested)
      ensures Decide(Stamp(old(cache)), "href" in fields, now, connection.cacheTime) == Fetch && Href().Some? ==>
        var got := StatusCheck(server(Href().value));
        && connection.requested == old(connection.requested) + [Href().value]
        && (got.Failure? ==> r == Failure(got.error) && cache == old(cache))
        && (got.Success? && !got.value.Obj? ==> r == Failure(NotAnObject) && cache == old(cache))
        && (got.Success? && got.value.Obj? ==>
              && r.Success? && cache == Some((now, r.value))
              && Wrapping(Node(r.value), got.value, connection)
              && forall o :: o in NodesOf(Node(r.value), got.value) ==> fresh(o) && o.cache == None)
      ensures old(Valid()) ==> Valid()
    {
      var action := Decide(Stamp(cache), "href" in fields, now, connection.cacheTime);
      if action == Fetch {
        var url := Href();
        if url.None? {
          r := Failure(InvalidUrl);
        } else {
          var got := connection.Get(url.value, server);
          if got.Failure? {
            r := Failure(got.error);
          } else if !got.value.Obj? {
            r := Failure(NotAnObject);
          } else {
            var node := new APIObject(got.value.members, connection);
            cache := Some((now, node));
            r := Success(node);
          }
        }
      } else if action == Reuse {
        r := Success(cache.value.1);
      } else {
        r := Success(this);
      }
    }
  }
}
