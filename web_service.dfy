/**
 * The request routing of the container's web service: the handler that every HTTP
 * request passes through first, the two realm path patterns it matches against, and
 * the choice of the host name the container advertises.
 *
 * The routing decision is a pure function of the request path and the configured
 * routes (`Route`); the handler itself (`WebService.HandleRequest`) walks the prefix
 * routes with a loop and updates the exchange, and is proved to decide as `Route` does.
 */
module WebService {
  import opened Wrappers

  /** Path prefix of the JavaScript API. */
  const JsApiPath: string := "/jsapi"
  /** Header that carries the realm taken from the first path segment. */
  const RequestHeaderRealm: string := "Auth-Realm"
  /** Relative path that the realm index handler is given. */
  const RealmIndexPath: string := "/index.html"
  /** HTTP status set on a request no route accepts. */
  const NotFoundStatus: int := 404
  /** Listen host used when none is configured. */
  const ListenHostDefault: string := "127.0.0.1"

  /** Java's String.startsWith. */
  predicate StartsWith(s: string, prefix: string) {
    |prefix| <= |s| && s[..|prefix|] == prefix
  }

  // ---------------------------------------------------------------------------
  // The realm patterns
  // ---------------------------------------------------------------------------

  /** The character class `[a-zA-Z0-9\-_]` of a realm path segment. */
  predicate IsRealmChar(c: char) {
    ('a' <= c <= 'z') || ('A' <= c <= 'Z') || ('0' <= c <= '9') || c == '-' || c == '_'
  }

  /** A realm segment: one or more characters of the realm class. */
  predicate IsRealmName(s: string) {
    |s| > 0 && forall i :: 0 <= i < |s| ==> IsRealmChar(s[i])
  }

  /** The characters that `.` does not match in a Java pattern compiled without flags. */
  predicate IsLineTerminator(c: char) {
    c == '\n' || c == '\r' || c == '\U{0085}' || c == '\U{2028}' || c == '\U{2029}'
  }

  /** What `(.*)` matches in full. */
  predicate NoLineTerminator(s: string) {
    forall i :: 0 <= i < |s| ==> !IsLineTerminator(s[i])
  }

  /** The number of leading realm-class characters: what a greedy `[...]+` consumes. */
  function RealmSpan(s: string): (n: nat)
    ensures n <= |s|
    ensures forall i :: 0 <= i < n ==> IsRealmChar(s[i])
    ensures n < |s| ==> !IsRealmChar(s[n])
  {
    if s == [] || !IsRealmChar(s[0]) then 0 else 1 + RealmSpan(s[1..])
  }

  /** Any length whose prefix is in the class and that stops at a non-class character is the span. */
  lemma SpanIsUnique(s: string, m: nat)
    requires m <= |s|
    requires forall i :: 0 <= i < m ==> IsRealmChar(s[i])
    requires m < |s| ==> !IsRealmChar(s[m])
    ensures RealmSpan(s) == m
  {
  }

  /** A realm followed by a character outside the class spans exactly the realm. */
  lemma SpanOfRealm(realm: string, tail: string)
    requires IsRealmName(realm)
    requires tail == [] || !IsRealmChar(tail[0])
    ensures RealmSpan(realm + tail) == |realm|
  {
    var s := realm + tail;
    forall i | 0 <= i < |realm|
      ensures IsRealmChar(s[i])
    {
      assert s[i] == realm[i];
    }
    if tail != [] {
      assert s[|realm|] == tail[0];
    }
    SpanIsUnique(s, |realm|);
  }

  /** `/<realm>` or `/<realm>/`: the full-match language of PATTERN_REALM_ROOT. */
  ghost predicate RootForm(path: string) {
    exists realm :: IsRealmName(realm) && (path == "/" + realm || path == "/" + realm + "/")
  }

  /** `/<realm>/<rest>`: the language of PATTERN_REALM_SUB, with its two groups. */
  ghost predicate SubForm(path: string, realm: string, rest: string) {
    IsRealmName(realm) && NoLineTerminator(rest) && path == "/" + realm + "/" + rest
  }

  /** Whether the whole path is a slash, a non-empty realm name and at most one more slash. */
  function MatchesRealmRoot(path: string): bool {
    |path| > 0 && path[0] == '/' &&
    var n := RealmSpan(path[1..]);
    n > 0 && (1 + n == |path| || (2 + n == |path| && path[1 + n] == '/'))
  }

  /** The root matcher accepts exactly the paths `/<realm>` and `/<realm>/`. */
  lemma MatchesRealmRootIff(path: string)
    ensures MatchesRealmRoot(path) <==> RootForm(path)
  {
    if MatchesRealmRoot(path) {
      var n := RealmSpan(path[1..]);
      var realm := path[1..1 + n];
      assert IsRealmName(realm) by {
        forall i | 0 <= i < |realm|
          ensures IsRealmChar(realm[i])
        {
          assert realm[i] == path[1..][i];
        }
      }
      if 1 + n == |path| {
        assert path == "/" + realm;
      } else {
        assert path == "/" + realm + "/";
      }
    }
    if RootForm(path) {
      var realm :| IsRealmName(realm) && (path == "/" + realm || path == "/" + realm + "/");
      if path == "/" + realm {
        assert path[1..] == realm + [];
        SpanOfRealm(realm, []);
      } else {
        assert path[1..] == realm + "/";
        SpanOfRealm(realm, "/");
      }
    }
  }

  /** The realm and the rest when the whole path is a slash, a realm name, a slash and a rest without line terminators. */
  function MatchRealmSub(path: string): Option<(string, string)> {
    if |path| == 0 || path[0] != '/' then None
    else
      var n := RealmSpan(path[1..]);
      if n > 0 && 1 + n < |path| && path[1 + n] == '/' && NoLineTerminator(path[2 + n..])
      then Some((path[1..1 + n], path[2 + n..]))
      else None
  }

  /**
   * The sub matcher yields (realm, rest) exactly when the path is `/<realm>/<rest>`;
   * since `/` is outside the realm class, no path splits in two ways.
   */
  lemma MatchRealmSubIff(path: string, realm: string, rest: string)
    ensures MatchRealmSub(path) == Some((realm, rest)) <==> SubForm(path, realm, rest)
  {
    if MatchRealmSub(path) == Some((realm, rest)) {
      var n := RealmSpan(path[1..]);
      assert realm == path[1..1 + n];
      forall i | 0 <= i < |realm|
        ensures IsRealmChar(realm[i])
      {
        assert realm[i] == path[1..][i];
      }
      assert path == "/" + realm + "/" + rest;
    }
    if SubForm(path, realm, rest) {
      assert path[1..] == realm + ("/" + rest);
      SpanOfRealm(realm, "/" + rest);
      assert path[1..1 + |realm|] == realm;
      assert path[2 + |realm|..] == rest;
    }
  }

  /** A path the sub pattern does not match has no `/<realm>/<rest>` reading at all. */
  lemma NoSubMatch(path: string)
    requires MatchRealmSub(path).None?
    ensures forall realm, rest :: !SubForm(path, realm, rest)
  {
    forall realm, rest
      ensures !SubForm(path, realm, rest)
    {
      MatchRealmSubIff(path, realm, rest);
    }
  }

  // ---------------------------------------------------------------------------
  // The routing decision
  // ---------------------------------------------------------------------------

  /** Where the handler sends a request. */
  datatype Decision =
    | PrefixRoute(key: string)                   // the handler registered under this prefix
    | RedirectToRealm(realm: string)             // redirect to the default realm
    | JsApi                                      // the JavaScript API handler
    | RealmIndex                                 // the realm index handler, with relative path /index.html
    | NotFound                                   // status 404 and a NOT_FOUND exception
    | RealmSub(realm: string, path: string)      // realm moved to the header, path rewritten

  /** The first prefix route, in insertion order, that the path starts with. */
  function FirstPrefix(prefixes: seq<string>, path: string): (r: Option<nat>)
    ensures r.Some? ==>
              && r.value < |prefixes| && StartsWith(path, prefixes[r.value])
              && forall j :: 0 <= j < r.value ==> !StartsWith(path, prefixes[j])
    ensures r.None? ==> forall j :: 0 <= j < |prefixes| ==> !StartsWith(path, prefixes[j])
    decreases |prefixes|
  {
    if prefixes == [] then None
    else if StartsWith(path, prefixes[0]) then Some(0)
    else match FirstPrefix(prefixes[1..], path)
      case None => None
      case Some(k) => Some(k + 1)
  }

  /**
   * The decision of the request handler for a request path, given the prefix route keys
   * in insertion order, whether a JS API handler and a realm index handler exist, and
   * the default realm.
   */
  function Route(path: string, prefixes: seq<string>, hasJsApi: bool, hasRealmIndex: bool, defaultRealm: string): Decision {
    match FirstPrefix(prefixes, path)
    case Some(i) => PrefixRoute(prefixes[i])
    case None =>
      if path == "/" then RedirectToRealm(defaultRealm)
      else if hasJsApi && StartsWith(path, JsApiPath) then JsApi
      else if hasRealmIndex && MatchesRealmRoot(path) then RealmIndex
      else match MatchRealmSub(path)
        case None => NotFound
        case Some((realm, rest)) => RealmSub(realm, "/" + rest)
  }

  /** No prefix route accepts the path. */
  ghost predicate NoPrefix(prefixes: seq<string>, path: string) {
    forall j :: 0 <= j < |prefixes| ==> !StartsWith(path, prefixes[j])
  }

  /** The first prefix route the path starts with handles it, whatever else would match. */
  lemma RouteFirstPrefixWins(path: string, prefixes: seq<string>, hasJsApi: bool, hasRealmIndex: bool, defaultRealm: string, i: nat)
    requires i < |prefixes| && StartsWith(path, prefixes[i])
    requires forall j :: 0 <= j < i ==> !StartsWith(path, prefixes[j])
    ensures Route(path, prefixes, hasJsApi, hasRealmIndex, defaultRealm) == PrefixRoute(prefixes[i])
  {
    var r := FirstPrefix(prefixes, path);
    assert r.Some?;
    if r.value < i {
    } else if i < r.value {
    }
  }

  /** Without a matching prefix the handler never picks a prefix route. */
  lemma RouteNoPrefix(path: string, prefixes: seq<string>, hasJsApi: bool, hasRealmIndex: bool, defaultRealm: string)
    ensures Route(path, prefixes, hasJsApi, hasRealmIndex, defaultRealm).PrefixRoute? <==> !NoPrefix(prefixes, path)
  {
  }

  /** Once no prefix matches, exactly `/` is redirected to the default realm. */
  lemma RouteRedirect(path: string, prefixes: seq<string>, hasJsApi: bool, hasRealmIndex: bool, defaultRealm: string)
    requires NoPrefix(prefixes, path)
    ensures Route(path, prefixes, hasJsApi, hasRealmIndex, defaultRealm).RedirectToRealm? <==> path == "/"
    ensures path == "/" ==> Route(path, prefixes, hasJsApi, hasRealmIndex, defaultRealm) == RedirectToRealm(defaultRealm)
  {
  }

  /** The JS API takes every other `/jsapi...` path when it exists, before any realm matching. */
  lemma RouteJsApi(path: string, prefixes: seq<string>, hasJsApi: bool, hasRealmIndex: bool, defaultRealm: string)
    requires NoPrefix(prefixes, path) && path != "/"
    ensures Route(path, prefixes, hasJsApi, hasRealmIndex, defaultRealm) == JsApi <==> hasJsApi && StartsWith(path, JsApiPath)
  {
  }

  /** `/<realm>` and `/<realm>/` go to the realm index handler when it exists. */
  lemma RouteRealmIndex(path: string, prefixes: seq<string>, hasJsApi: bool, hasRealmIndex: bool, defaultRealm: string)
    requires NoPrefix(prefixes, path) && path != "/" && !(hasJsApi && StartsWith(path, JsApiPath))
    ensures Route(path, prefixes, hasJsApi, hasRealmIndex, defaultRealm) == RealmIndex <==> hasRealmIndex && RootForm(path)
  {
    MatchesRealmRootIff(path);
  }

  /**
   * What is left is served under its realm when it reads `/<realm>/<rest>`: the realm
   * goes to the header and the path becomes `/<rest>`; anything else is not found.
   */
  lemma RouteRealmSub(path: string, prefixes: seq<string>, hasJsApi: bool, hasRealmIndex: bool, defaultRealm: string,
                      realm: string, rest: string)
    requires NoPrefix(prefixes, path) && path != "/" && !(hasJsApi && StartsWith(path, JsApiPath))
    requires !(hasRealmIndex && RootForm(path))
    ensures Route(path, prefixes, hasJsApi, hasRealmIndex, defaultRealm) == RealmSub(realm, "/" + rest)
            <==> SubForm(path, realm, rest)
  {
    MatchesRealmRootIff(path);
    MatchRealmSubIff(path, realm, rest);
    var d := Route(path, prefixes, hasJsApi, hasRealmIndex, defaultRealm);
    if d == RealmSub(realm, "/" + rest) {
      var m := MatchRealmSub(path);
      assert m.Some?;
      assert m.value.0 == realm;
      assert "/" + m.value.1 == "/" + rest;
      assert m.value.1 == ("/" + m.value.1)[1..];
    }
  }

  /** The request is not found exactly when nothing before accepts it and it has no realm reading. */
  lemma RouteNotFound(path: string, prefixes: seq<string>, hasJsApi: bool, hasRealmIndex: bool, defaultRealm: string)
    requires NoPrefix(prefixes, path) && path != "/" && !(hasJsApi && StartsWith(path, JsApiPath))
    requires !(hasRealmIndex && RootForm(path))
    ensures Route(path, prefixes, hasJsApi, hasRealmIndex, defaultRealm) == NotFound
            <==> forall realm, rest :: !SubForm(path, realm, rest)
  {
    MatchesRealmRootIff(path);
    var m := MatchRealmSub(path);
    if m.None? {
      NoSubMatch(path);
    } else {
      MatchRealmSubIff(path, m.value.0, m.value.1);
    }
  }

  /** The root is redirected to the default realm. */
  lemma RouteRootExample()
    ensures Route("/", [], true, true, "master") == RedirectToRealm("master")
  {
  }

  /** A realm root goes to the index handler, and is not found without one. */
  lemma RouteRealmRootExample()
    ensures Route("/master", [], true, true, "master") == RealmIndex
    ensures Route("/master", [], true, false, "master") == NotFound
  {
    assert "/master"[1..] == "master";
    SpanOfRealm("master", []);
    assert "master" + [] == "master";
  }

  /** A path under a realm is served with the realm segment removed. */
  lemma RouteRealmSubExample()
    ensures Route("/r1/x", [], true, true, "master") == RealmSub("r1", "/x")
  {
    var path := "/r1/x";
    assert path[1..] == "r1" + "/x";
    SpanOfRealm("r1", "/x");
    assert path[1..3] == "r1" && path[4..] == "x";
    assert !StartsWith(path, JsApiPath);
  }

  /** `/jsapi` paths go to the JS API when it exists. */
  lemma RouteJsApiExample()
    ensures Route("/jsapi/x", [], true, true, "master") == JsApi
  {
    assert StartsWith("/jsapi/x", JsApiPath);
  }

  /** The earlier of two matching prefix routes wins. */
  lemma RoutePrefixExample()
    ensures Route("/static/app.js", ["/st", "/static"], true, true, "master") == PrefixRoute("/st")
  {
    assert StartsWith("/static/app.js", "/st");
  }

  /** A first segment outside the realm class is not found. */
  lemma RouteNotFoundExample()
    ensures Route("/a b/x", [], true, true, "master") == NotFound
  {
    assert "/a b/x"[1..] == "a" + " b/x";
    SpanOfRealm("a", " b/x");
    assert !StartsWith("/a b/x", JsApiPath) by {
      assert "/a b/x"[1] != JsApiPath[1];
    }
  }

  // ---------------------------------------------------------------------------
  // The container host
  // ---------------------------------------------------------------------------

  /** ASCII lower-casing of one character. */
  function LowerAscii(c: char): char {
    if 'A' <= c <= 'Z' then (c as int + 32) as char else c
  }

  /** String.equalsIgnoreCase, with case folded on ASCII letters. */
  predicate EqualsIgnoreCase(a: string, b: string) {
    |a| == |b| && forall i :: 0 <= i < |a| ==> LowerAscii(a[i]) == LowerAscii(b[i])
  }

  /** p occurs in h at index j. */
  predicate OccursAt(h: string, p: string, j: int) {
    0 <= j && j + |p| <= |h| && h[j..j + |p|] == p
  }

  /** Java's String.indexOf(p, from): the first occurrence of p at or after from, or -1. */
  function IndexFrom(h: string, p: string, from: nat): (r: int)
    requires from <= |h|
    ensures r == -1 || (from <= r && OccursAt(h, p, r))
    ensures r == -1 ==> forall j :: from <= j ==> !OccursAt(h, p, j)
    ensures r != -1 ==> forall j :: from <= j < r ==> !OccursAt(h, p, j)
    decreases |h| - from
  {
    if from + |p| > |h| then -1
    else if h[from..from + |p|] == p then from
    else IndexFrom(h, p, from + 1)
  }

  /** Java's String.indexOf(p). */
  function IndexOf(h: string, p: string): int {
    IndexFrom(h, p, 0)
  }

  /** An occurrence at index 0 is exactly a prefix: the first occurrence is then at 0. */
  lemma IndexOfZeroIff(h: string, p: string)
    ensures IndexOf(h, p) == 0 <==> StartsWith(h, p)
  {
    if StartsWith(h, p) {
      assert OccursAt(h, p, 0);
    }
  }

  /** The listen hosts for which the container advertises its local address instead, tested as in init. */
  predicate IsLocalListenHost(host: string) {
    EqualsIgnoreCase(host, "localhost") || IndexOf(host, "127") == 0 || IndexOf(host, "0.0.0.0") == 0
  }

  /**
   * The host named in the container's URI: the local IPv4 address (a parameter, since
   * looking it up is I/O) for a localhost, loopback or wildcard listen host, else the listen host.
   */
  function ContainerHost(host: string, localIp: string): (r: string)
    ensures EqualsIgnoreCase(host, "localhost") || StartsWith(host, "127") || StartsWith(host, "0.0.0.0") ==> r == localIp
    ensures !(EqualsIgnoreCase(host, "localhost") || StartsWith(host, "127") || StartsWith(host, "0.0.0.0")) ==> r == host
  {
    IndexOfZeroIff(host, "127");
    IndexOfZeroIff(host, "0.0.0.0");
    if IsLocalListenHost(host) then localIp else host
  }

  /** Concrete hosts: the default, spellings of localhost, the wildcard and a LAN address. */
  lemma ContainerHostExamples(localIp: string)
    ensures ContainerHost(ListenHostDefault, localIp) == localIp
    ensures ContainerHost("LocalHost", localIp) == localIp
    ensures ContainerHost("0.0.0.0", localIp) == localIp
    ensures ContainerHost("192.168.1.5", "10.0.0.2") == "192.168.1.5"
    ensures ContainerHost("localhost.example", "10.0.0.2") == "localhost.example"
  {
    assert StartsWith(ListenHostDefault, "127");
    assert EqualsIgnoreCase("LocalHost", "localhost");
    assert StartsWith("0.0.0.0", "0.0.0.0");
    assert "192.168.1.5"[1] != "127"[1] && "192.168.1.5"[0] != "0.0.0.0"[0];
    assert "localhost.example"[0] != "127"[0] && "localhost.example"[0] != "0.0.0.0"[0];
  }

  // ---------------------------------------------------------------------------
  // The exchange and the handler
  // ---------------------------------------------------------------------------

  /**
   * HeaderMap.put: header names compare ignoring case, so every header whose name folds to
   * the given one is replaced by the single new value under that name.
   */
  function PutHeader(headers: map<string, string>, name: string, value: string): (r: map<string, string>)
    ensures name in r && r[name] == value
    ensures forall k :: k in r && EqualsIgnoreCase(k, name) ==> k == name
    ensures forall k :: k in headers && !EqualsIgnoreCase(k, name) ==> k in r && r[k] == headers[k]
    ensures forall k :: k in r && k != name ==> k in headers && !EqualsIgnoreCase(k, name)
  {
    (map k | k in headers && !EqualsIgnoreCase(k, name) :: headers[k])[name := value]
  }

  /** A client-supplied realm header in another letter case does not survive the put. */
  lemma PutHeaderReplacesOtherCase()
    ensures PutHeader(map["auth-realm" := "other", "Accept" := "*"], RequestHeaderRealm, "r1")
         == map["Auth-Realm" := "r1", "Accept" := "*"]
  {
    var before := map["auth-realm" := "other", "Accept" := "*"];
    var r := PutHeader(before, RequestHeaderRealm, "r1");
    assert EqualsIgnoreCase("auth-realm", RequestHeaderRealm);
    assert !EqualsIgnoreCase("Accept", RequestHeaderRealm);
    assert r.Keys == {"Auth-Realm", "Accept"};
  }

  /** The parts of an HTTP exchange the handler reads and changes. */
  class HttpServerExchange {
    var requestPath: string
    var relativePath: string
    var headers: map<string, string>
    var statusCode: int

    constructor (path: string, requestHeaders: map<string, string>)
      ensures requestPath == path && relativePath == path
      ensures headers == requestHeaders && statusCode == 200
    {
      requestPath := path;
      relativePath := path;
      headers := requestHeaders;
      statusCode := 200;
    }
  }

  /** The web service's routing configuration and its request handler. */
  class WebService {
    /** The prefix route keys, in the insertion order of the linked hash map. */
    var prefixRoutes: seq<string>
    var hasJsApiHandler: bool
    var hasRealmIndexHandler: bool
    var defaultRealm: string

    /** A linked hash map holds each key once. */
    ghost predicate Valid()
      reads this
    {
      forall i, j :: 0 <= i < j < |prefixRoutes| ==> prefixRoutes[i] != prefixRoutes[j]
    }

    constructor (jsApi: bool, realmIndex: bool, realm: string)
      ensures prefixRoutes == [] && hasJsApiHandler == jsApi
      ensures hasRealmIndexHandler == realmIndex && defaultRealm == realm
      ensures Valid()
    {
      prefixRoutes := [];
      hasJsApiHandler := jsApi;
      hasRealmIndexHandler := realmIndex;
      defaultRealm := realm;
    }

    /**
     * Registering a handler under a prefix (a put on the linked hash map): a new key goes
     * last; an existing key keeps its place, only its handler is replaced.
     */
    method AddPrefixRoute(key: string)
      requires Valid()
      modifies this`prefixRoutes
      ensures prefixRoutes == if key in old(prefixRoutes) then old(prefixRoutes) else old(prefixRoutes) + [key]
      ensures Valid()
    {
      if key !in prefixRoutes {
        prefixRoutes := prefixRoutes + [key];
      }
    }

    /**
     * The request handler: tries the prefix routes in order and stops at the first whose
     * key the path starts with; otherwise redirects `/`, passes `/jsapi...` to the JS API,
     * serves a realm root as `/index.html`, marks a path without realm segment 404, or
     * moves the realm segment into the Auth-Realm header and rewrites the path.
     */
    method HandleRequest(exchange: HttpServerExchange) returns (d: Decision)
      modifies exchange
      ensures d == Route(old(exchange.requestPath), prefixRoutes, hasJsApiHandler, hasRealmIndexHandler, defaultRealm)
      ensures d.RealmIndex? ==>
                && exchange.relativePath == RealmIndexPath
                && exchange.requestPath == old(exchange.requestPath)
                && exchange.headers == old(exchange.headers) && exchange.statusCode == old(exchange.statusCode)
      ensures d.NotFound? ==>
                && exchange.statusCode == NotFoundStatus
                && exchange.requestPath == old(exchange.requestPath) && exchange.relativePath == old(exchange.relativePath)
                && exchange.headers == old(exchange.headers)
      ensures d.RealmSub? ==>
                && exchange.headers == PutHeader(old(exchange.headers), RequestHeaderRealm, d.realm)
                && exchange.requestPath == d.path && exchange.relativePath == d.path
                && exchange.statusCode == old(exchange.statusCode)
      ensures d.PrefixRoute? || d.RedirectToRealm? || d.JsApi? ==>
                && exchange.requestPath == old(exchange.requestPath) && exchange.relativePath == old(exchange.relativePath)
                && exchange.headers == old(exchange.headers) && exchange.statusCode == old(exchange.statusCode)
    {
      var requestPath := exchange.requestPath;
      var handled := false;
      var matched := 0;
      for i := 0 to |prefixRoutes|
        invariant FirstPrefix(prefixRoutes, requestPath).None? || FirstPrefix(prefixRoutes, requestPath).value >= i
      {
        if StartsWith(requestPath, prefixRoutes[i]) {
          matched := i;
          handled := true;
          break;
        }
      }
      if handled {
        return PrefixRoute(prefixRoutes[matched]);
      }
      if requestPath == "/" {
        return RedirectToRealm(defaultRealm);
      }
      if hasJsApiHandler && StartsWith(requestPath, JsApiPath) {
        return JsApi;
      }
      if hasRealmIndexHandler && MatchesRealmRoot(requestPath) {
        exchange.relativePath := RealmIndexPath;
        return RealmIndex;
      }
      var sub := MatchRealmSub(requestPath);
      if sub.None? {
        exchange.statusCode := NotFoundStatus;
        return NotFound;
      }
      var realm := sub.value.0;
      exchange.headers := PutHeader(exchange.headers, RequestHeaderRealm, realm);
      var path := "/" + sub.value.1;
      exchange.requestPath := path;
      exchange.relativePath := path;
      d := RealmSub(realm, path);
    }
  }
}
