/**
 * The OAuth2 authorization URI of `EVE.auth_uri`: the authorize endpoint,
 * the quoted redirect URI and the client id, then an optional `scope`
 * segment (the comma-joined scopes) and an optional `state` segment.
 */
module AuthUri {
  import opened Wrappers

  predicate HasPrefix(s: string, p: string) {
    |p| <= |s| && s[..|p|] == p
  }

  /** `','.join(parts)`. */
  function Join(parts: seq<string>): string {
    if parts == [] then ""
    else if |parts| == 1 then parts[0]
    else parts[0] + "," + Join(parts[1..])
  }

  /** The first position of `c` in `s`, or `|s|` when `c` does not occur. */
  function IndexOf(s: string, c: char): (i: nat)
    ensures i <= |s|
    ensures i < |s| ==> s[i] == c
    ensures forall k :: 0 <= k < i ==> s[k] != c
  {
    if s == [] then 0
    else if s[0] == c then 0
    else 1 + IndexOf(s[1..], c)
  }

  /** `s.split(',')`. */
  function Split(s: string): (parts: seq<string>)
    ensures parts != []
    decreases |s|
  {
    var i := IndexOf(s, ',');
    if i == |s| then [s] else [s[..i]] + Split(s[i + 1..])
  }

  /** A character that occurs in no part, and is not the separator, does not occur in the join. */
  lemma {:induction false} JoinAvoids(parts: seq<string>, c: char)
    requires c != ','
    requires forall n :: 0 <= n < |parts| ==> c !in parts[n]
    ensures c !in Join(parts)
  {
    if |parts| > 1 {
      JoinAvoids(parts[1..], c);
    }
  }

  /** In `a + b`, where `c` is absent from `a` and `b` is empty or starts with `c`, `c` is first found at `|a|`. */
  lemma IndexOfConcat(a: string, b: string, c: char)
    requires c !in a
    requires b == [] || b[0] == c
    ensures IndexOf(a + b, c) == |a|
  {
    var s := a + b;
    assert forall k :: 0 <= k < |a| ==> s[k] == a[k];
    assert b != [] ==> s[|a|] == c;
  }

  /** Splitting at commas undoes joining with commas when no part contains a comma. */
  lemma {:induction false} SplitJoin(parts: seq<string>)
    requires parts != []
    requires forall n :: 0 <= n < |parts| ==> ',' !in parts[n]
    ensures Split(Join(parts)) == parts
  {
    var s := Join(parts);
    if |parts| == 1 {
      assert IndexOf(s, ',') == |s|;
    } else {
      var head, rest := parts[0], Join(parts[1..]);
      assert s == head + "," + rest;
      assert s[|head|] == ',';
      assert IndexOf(s, ',') == |head|;
      assert s[..|head|] == head;
      assert s[|head| + 1..] == rest;
      SplitJoin(parts[1..]);
    }
  }

  /** Python truthiness of the optional `state`: present and non-empty. */
  predicate Truthy(state: Option<string>) {
    state.Some? && state.value != ""
  }

  function ScopeSegment(scopes: seq<string>): string {
    if scopes == [] then "" else "&scope=" + Join(scopes)
  }

  function StateSegment(state: Option<string>): string {
    if Truthy(state) then "&state=" + state.value else ""
  }

  /** The part of the URI that is always there. */
  function AuthorizeBase(oauthEndpoint: string, quotedRedirect: string, clientId: string): string {
    oauthEndpoint + "/authorize?response_type=code&redirect_uri=" + quotedRedirect + "&client_id=" + clientId
  }

  /**
   * The authorization URI. `quote` stands for URL quoting with no safe
   * characters, applied to the redirect URI only.
   */
  function AuthorizeUrl(oauthEndpoint: string, redirectUri: string, clientId: string,
                        scopes: seq<string>, state: Option<string>, quote: string -> string): (r: string)
    ensures HasPrefix(r, AuthorizeBase(oauthEndpoint, quote(redirectUri), clientId))
    ensures r == AuthorizeBase(oauthEndpoint, quote(redirectUri), clientId) <==> scopes == [] && !Truthy(state)
  {
    var base := AuthorizeBase(oauthEndpoint, quote(redirectUri), clientId);
    var r := base + ScopeSegment(scopes) + StateSegment(state);
    assert r[..|base|] == base;
    r
  }

  /** Reads the state back from what follows the scope segment. */
  function ParseState(rest: string): Option<string> {
    if HasPrefix(rest, "&state=") && |rest| > 7 then Some(rest[7..]) else None
  }

  /** Reads the scopes and the state back from the optional segments of an authorization URI. */
  function ParseQuery(t: string): (seq<string>, Option<string>) {
    if HasPrefix(t, "&scope=") then
      var v := t[7..];
      var i := IndexOf(v, '&');
      (Split(v[..i]), ParseState(v[i..]))
    else
      ([], ParseState(t))
  }

  /** The state segment reads back as the state when it is truthy, and as `None` otherwise. */
  lemma StateSegmentBack(state: Option<string>)
    ensures ParseState(StateSegment(state)) == if Truthy(state) then state else None
    ensures StateSegment(state) == [] || StateSegment(state)[..7] == "&state="
  {
  }

  /** A scope segment reads back as its scopes, and what follows it is left for the state. */
  lemma {:induction false} ScopeSegmentBack(scopes: seq<string>, seg: string)
    requires scopes != []
    requires forall n :: 0 <= n < |scopes| ==> ',' !in scopes[n] && '&' !in scopes[n]
    requires seg == [] || seg[0] == '&'
    ensures ParseQuery(ScopeSegment(scopes) + seg) == (scopes, ParseState(seg))
  {
    var joined := Join(scopes);
    var t := ScopeSegment(scopes) + seg;
    var v := joined + seg;
    assert t == "&scope=" + v;
    assert t[..7] == "&scope=" && t[7..] == v;
    JoinAvoids(scopes, '&');
    IndexOfConcat(joined, seg, '&');
    assert v[..|joined|] == joined && v[|joined|..] == seg;
    SplitJoin(scopes);
  }

  /** What follows the fixed part of the URI is the scope segment and then the state segment. */
  lemma AuthorizeUrlTail(oauthEndpoint: string, redirectUri: string, clientId: string,
                         scopes: seq<string>, state: Option<string>, quote: string -> string)
    ensures var base := AuthorizeBase(oauthEndpoint, quote(redirectUri), clientId);
      var r := AuthorizeUrl(oauthEndpoint, redirectUri, clientId, scopes, state, quote);
      |base| <= |r| && r[|base|..] == ScopeSegment(scopes) + StateSegment(state)
  {
    var base := AuthorizeBase(oauthEndpoint, quote(redirectUri), clientId);
    DropPrefix(base, ScopeSegment(scopes) + StateSegment(state));
  }

  /** Dropping the first part of a concatenation leaves the second. */
  lemma DropPrefix(a: string, b: string)
    ensures (a + b)[|a|..] == b
  {
  }

  /** Without scopes, the segments read back as no scopes and the truthy state. */
  lemma NoScopeBack(state: Option<string>)
    ensures ParseQuery(ScopeSegment([]) + StateSegment(state)) == ([], if Truthy(state) then state else None)
  {
    var seg := StateSegment(state);
    StateSegmentBack(state);
    assert seg != [] ==> seg[2] == 't';
    assert !HasPrefix(seg, "&scope=");
    assert ScopeSegment([]) + seg == seg;
  }

  /**
   * The scope segment is there exactly when there are scopes and the state
   * segment exactly when the state is truthy; both can be read back
   * unchanged, as long as no scope contains a comma or an ampersand.
   */
  lemma {:induction false} AuthorizeUrlRoundTrip(oauthEndpoint: string, redirectUri: string, clientId: string,
                                                 scopes: seq<string>, state: Option<string>, quote: string -> string)
    requires forall n :: 0 <= n < |scopes| ==> ',' !in scopes[n] && '&' !in scopes[n]
    ensures var base := AuthorizeBase(oauthEndpoint, quote(redirectUri), clientId);
      var r := AuthorizeUrl(oauthEndpoint, redirectUri, clientId, scopes, state, quote);
      ParseQuery(r[|base|..]) == (scopes, if Truthy(state) then state else None)
  {
    AuthorizeUrlTail(oauthEndpoint, redirectUri, clientId, scopes, state, quote);
    if scopes == [] {
      NoScopeBack(state);
    } else {
      StateSegmentBack(state);
      ScopeSegmentBack(scopes, StateSegment(state));
    }
  }
}
