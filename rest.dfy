/**
 * The REST layer's URI dispatcher (`rest/URIDispatcher.php`).
 *
 * Routes are kept in registration order. A request is matched against each
 * route's method and `/`-separated pattern, where a pattern segment holding
 * `$<digit>` captures the request's segment at that position. Outside a CORS
 * preflight the first matching route is invoked with the captured segments
 * in ascending parameter order, optionally followed by the decoded JSON
 * body. A CORS preflight (CORS enabled, method OPTIONS) invokes nothing and
 * instead lists the methods of every route whose path matches.
 *
 * The pure functions below (`Match`, `Dispatch`) state what the source
 * computes; the class `URIDispatcher` holds the mutable route table and CORS
 * settings and its methods are proved against those functions.
 */
module Rest {
  import opened Wrappers
  import opened PhpString
  import opened PhpArray

  /** The callable a route names, such as `array($postRest, "readPost")`; only passed along. */
  datatype Callback = Callback(receiver: string, methodName: string)

  /** One record of the route table. */
  datatype Mapping = Mapping(httpMethod: string, urlPattern: string, callback: Callback, parseJsonInput: bool)

  /**
   * What dispatching reads of the current request: the request method, the
   * request path (already stripped of the script directory and query string),
   * the Content-Type header when one was sent, and the raw request body.
   */
  datatype Request = Request(requestMethod: string, path: string, contentType: Option<string>, body: string)

  /** An argument handed to a callback: a captured path segment, or `json_decode` of the body. */
  datatype Arg = PathParam(segment: string) | JsonBody(raw: string)

  /** The CORS settings: whether CORS is on, the allowed origin and the allowed request headers. */
  datatype CorsConfig = CorsConfig(enabled: bool, allowedOrigin: string, allowedRequestHeaders: string)

  /**
   * The effect of one dispatch: nothing matched; or route `route` was invoked
   * with `args` after sending `headers`; or a preflight was answered with `headers`.
   */
  datatype Outcome =
    | NotDispatched
    | Invoked(route: nat, callback: Callback, args: seq<Arg>, headers: seq<string>)
    | Preflight(headers: seq<string>)
  {
    /** The boolean the dispatcher returns. */
    predicate Dispatched() {
      !NotDispatched?
    }
  }

  const PreflightMethod := "OPTIONS"
  const JsonContentType := "application/json"

  // ----------------------------------------------------------------------
  // The parameter token: the regular expression /\$([0-9]+?)/

  predicate IsDigit(c: char) {
    '0' <= c <= '9'
  }

  /** The regular expression matches at position `i`: a `$` followed by a digit. */
  predicate TokenAt(seg: string, i: int) {
    0 <= i < |seg| - 1 && seg[i] == '$' && IsDigit(seg[i + 1])
  }

  /** The leftmost match position at or after `from`, as the unanchored search finds it. */
  function FirstToken(seg: string, from: nat): (r: Option<nat>)
    ensures r.Some? ==> from <= r.value && TokenAt(seg, r.value)
    ensures r.Some? ==> forall j :: from <= j < r.value ==> !TokenAt(seg, j)
    ensures r.None? ==> forall j :: from <= j ==> !TokenAt(seg, j)
    decreases |seg| - from
  {
    if from + 1 >= |seg| then None
    else if TokenAt(seg, from) then Some(from)
    else FirstToken(seg, from + 1)
  }

  /**
   * The parameter index a pattern segment names: the single digit after the
   * first `$` that is followed by a digit (the lazy `+?` stops after one digit).
   */
  function ParamIndex(seg: string): (r: Option<int>)
    ensures r.Some? ==> 0 <= r.value <= 9
  {
    match FirstToken(seg, 0)
    case None => None
    case Some(i) => Some(seg[i + 1] as int - '0' as int)
  }

  /**
   * A segment names a parameter exactly when a `$` followed by a digit occurs
   * anywhere in it, and the index is the digit of the leftmost such occurrence.
   */
  lemma ParamIndexSpec(seg: string)
    ensures ParamIndex(seg).Some? <==> exists i :: TokenAt(seg, i)
    ensures ParamIndex(seg).Some? ==>
      exists i :: TokenAt(seg, i) && ParamIndex(seg).value == seg[i + 1] as int - '0' as int &&
                  forall j :: 0 <= j < i ==> !TokenAt(seg, j)
  {
  }

  // ----------------------------------------------------------------------
  // The matcher

  /** The request method passes the method check for a route. */
  predicate MethodAccepted(cors: bool, requestMethod: string, routeMethod: string) {
    requestMethod == ToUpper(routeMethod) || (cors && requestMethod == PreflightMethod)
  }

  /** A request segment is accepted by a pattern segment: equal, or the pattern names a parameter. */
  predicate SegmentMatches(pathSeg: string, patternSeg: string) {
    pathSeg == patternSeg || ParamIndex(patternSeg).Some?
  }

  /** The segment pair at `i` stores the request segment under parameter `d`. */
  predicate Captures(pathTokens: seq<string>, patternTokens: seq<string>, i: int, d: int)
    requires 0 <= i < |pathTokens| == |patternTokens|
  {
    pathTokens[i] != patternTokens[i] && ParamIndex(patternTokens[i]) == Some(d)
  }

  /** The segment loop over the first `n` segment pairs: the parameters so far, or `None` once a pair fails. */
  function Capture(pathTokens: seq<string>, patternTokens: seq<string>, n: nat): (r: Option<Entries<int, string>>)
    requires n <= |pathTokens| == |patternTokens|
    ensures r.Some? ==> DistinctKeys(r.value)
    ensures r.Some? ==> forall d :: Get(r.value, d).Some? ==> 0 <= d <= 9
  {
    if n == 0 then Some([])
    else
      match Capture(pathTokens, patternTokens, n - 1)
      case None => None
      case Some(params) =>
        if pathTokens[n - 1] == patternTokens[n - 1] then Some(params)
        else
          match ParamIndex(patternTokens[n - 1])
          case None => None
          case Some(d) =>
            PutDistinct(params, d, pathTokens[n - 1]);
            Some(Put(params, d, pathTokens[n - 1]))
  }

  /**
   * Matching one route: the method check, then equal segment counts after
   * splitting on `/`, then the segment loop, then sorting by parameter index.
   */
  function Match(cors: bool, requestMethod: string, path: string, routeMethod: string, pattern: string): (r: Option<Entries<int, string>>)
    ensures r.Some? ==> MethodAccepted(cors, requestMethod, routeMethod)
    ensures r.Some? ==> |Explode('/', path)| == |Explode('/', pattern)|
    ensures r.Some? ==> StrictlyAscending(r.value)
    ensures r.Some? ==> forall d :: Get(r.value, d).Some? ==> 0 <= d <= 9
  {
    if !MethodAccepted(cors, requestMethod, routeMethod) then None
    else
      var pathTokens := Explode('/', path);
      var patternTokens := Explode('/', pattern);
      if |pathTokens| != |patternTokens| then None
      else
        match Capture(pathTokens, patternTokens, |pathTokens|)
        case None => None
        case Some(params) => Some(KSort(params))
  }

  /** Matching, one step at a time: the method check, the two splits, the segment loop. */
  lemma MatchBySteps(cors: bool, requestMethod: string, path: string, routeMethod: string, pattern: string,
                     pathTokens: seq<string>, patternTokens: seq<string>, captured: Entries<int, string>)
    requires MethodAccepted(cors, requestMethod, routeMethod)
    requires Explode('/', path) == pathTokens && Explode('/', pattern) == patternTokens
    requires |pathTokens| == |patternTokens|
    requires Capture(pathTokens, patternTokens, |pathTokens|) == Some(captured)
    ensures Match(cors, requestMethod, path, routeMethod, pattern) == Some(KSort(captured))
  {
  }

  /** Once a segment pair fails, the segment loop fails for every longer prefix. */
  lemma {:induction false} CaptureFailureStays(pathTokens: seq<string>, patternTokens: seq<string>, i: nat, n: nat)
    requires i <= n <= |pathTokens| == |patternTokens|
    requires Capture(pathTokens, patternTokens, i).None?
    ensures Capture(pathTokens, patternTokens, n).None?
    decreases n - i
  {
    if i < n {
      CaptureFailureStays(pathTokens, patternTokens, i + 1, n);
    }
  }

  /** One more segment pair: the loop goes on exactly when it had not failed and the pair is accepted. */
  lemma CaptureStep(pathTokens: seq<string>, patternTokens: seq<string>, n: nat)
    requires 0 < n <= |pathTokens| == |patternTokens|
    ensures Capture(pathTokens, patternTokens, n).Some? <==>
            Capture(pathTokens, patternTokens, n - 1).Some? && SegmentMatches(pathTokens[n - 1], patternTokens[n - 1])
  {
  }

  /** The segment loop succeeds exactly when every segment pair is accepted. */
  lemma {:induction false} CaptureSucceeds(pathTokens: seq<string>, patternTokens: seq<string>, n: nat)
    requires n <= |pathTokens| == |patternTokens|
    ensures Capture(pathTokens, patternTokens, n).Some? <==>
            forall i :: 0 <= i < n ==> SegmentMatches(pathTokens[i], patternTokens[i])
  {
    if n > 0 {
      CaptureSucceeds(pathTokens, patternTokens, n - 1);
      CaptureStep(pathTokens, patternTokens, n);
    }
  }

  /** Pair `i` is the last of the first `n` segment pairs that captures parameter `d`. */
  predicate IsLastCapture(pathTokens: seq<string>, patternTokens: seq<string>, n: nat, d: int, i: int)
    requires n <= |pathTokens| == |patternTokens|
  {
    && 0 <= i < n
    && Captures(pathTokens, patternTokens, i, d)
    && forall j :: i < j < n ==> !Captures(pathTokens, patternTokens, j, d)
  }

  /** One more segment pair changes the value under `d` only when that pair captures `d`. */
  lemma CaptureGetStep(pathTokens: seq<string>, patternTokens: seq<string>, n: nat, d: int)
    requires 0 < n <= |pathTokens| == |patternTokens|
    requires Capture(pathTokens, patternTokens, n).Some?
    ensures Capture(pathTokens, patternTokens, n - 1).Some?
    ensures Get(Capture(pathTokens, patternTokens, n).value, d) ==
      if Captures(pathTokens, patternTokens, n - 1, d) then Some(pathTokens[n - 1])
      else Get(Capture(pathTokens, patternTokens, n - 1).value, d)
  {
    var prev := Capture(pathTokens, patternTokens, n - 1).value;
    if pathTokens[n - 1] != patternTokens[n - 1] {
      var d' := ParamIndex(patternTokens[n - 1]).value;
      assert Capture(pathTokens, patternTokens, n).value == Put(prev, d', pathTokens[n - 1]);
    }
  }

  /**
   * What the segment loop stores under parameter `d`: present exactly when some
   * pair captures `d`, and then the request segment of the LAST such pair
   * (a later duplicate index overwrites an earlier one).
   */
  lemma {:induction false} CaptureValue(pathTokens: seq<string>, patternTokens: seq<string>, n: nat, d: int)
    requires n <= |pathTokens| == |patternTokens|
    requires Capture(pathTokens, patternTokens, n).Some?
    ensures var params := Capture(pathTokens, patternTokens, n).value;
      && (Get(params, d).Some? <==> exists i :: 0 <= i < n && Captures(pathTokens, patternTokens, i, d))
      && (Get(params, d).Some? ==>
            exists i :: IsLastCapture(pathTokens, patternTokens, n, d, i) && Get(params, d).value == pathTokens[i])
  {
    if n > 0 {
      CaptureValue(pathTokens, patternTokens, n - 1, d);
      CaptureGetStep(pathTokens, patternTokens, n, d);
      var prev := Capture(pathTokens, patternTokens, n - 1).value;
      if Captures(pathTokens, patternTokens, n - 1, d) {
        assert IsLastCapture(pathTokens, patternTokens, n, d, n - 1);
      } else {
        if Get(prev, d).Some? {
          var i :| IsLastCapture(pathTokens, patternTokens, n - 1, d, i) && Get(prev, d).value == pathTokens[i];
          assert IsLastCapture(pathTokens, patternTokens, n, d, i);
        }
        if exists i :: 0 <= i < n && Captures(pathTokens, patternTokens, i, d) {
          var i :| 0 <= i < n && Captures(pathTokens, patternTokens, i, d);
          assert i < n - 1;
        }
      }
    }
  }

  /**
   * A route matches exactly when the method check passes, the request path
   * and the pattern have the same number of segments, and every segment pair
   * is equal or names a parameter.
   */
  lemma {:induction false} MatchSucceeds(cors: bool, requestMethod: string, path: string, routeMethod: string, pattern: string)
    ensures var pathTokens, patternTokens := Explode('/', path), Explode('/', pattern);
      Match(cors, requestMethod, path, routeMethod, pattern).Some? <==>
        && MethodAccepted(cors, requestMethod, routeMethod)
        && |pathTokens| == |patternTokens|
        && forall i :: 0 <= i < |pathTokens| ==> SegmentMatches(pathTokens[i], patternTokens[i])
  {
    var pathTokens, patternTokens := Explode('/', path), Explode('/', pattern);
    if |pathTokens| == |patternTokens| {
      CaptureSucceeds(pathTokens, patternTokens, |pathTokens|);
    }
  }

  /**
   * The parameters of a match, in ascending index order: under index `d`
   * stands the request segment of the last segment pair that captures `d`,
   * and no other index is present.
   */
  lemma {:induction false} MatchParameters(cors: bool, requestMethod: string, path: string, routeMethod: string, pattern: string,
                                           pathTokens: seq<string>, patternTokens: seq<string>, d: int)
    requires pathTokens == Explode('/', path) && patternTokens == Explode('/', pattern)
    requires Match(cors, requestMethod, path, routeMethod, pattern).Some?
    ensures |pathTokens| == |patternTokens|
    ensures StrictlyAscending(Match(cors, requestMethod, path, routeMethod, pattern).value)
    ensures Get(Match(cors, requestMethod, path, routeMethod, pattern).value, d).Some? <==>
            exists i :: 0 <= i < |pathTokens| && Captures(pathTokens, patternTokens, i, d)
    ensures Get(Match(cors, requestMethod, path, routeMethod, pattern).value, d).Some? ==>
            exists i :: IsLastCapture(pathTokens, patternTokens, |pathTokens|, d, i) &&
                        Get(Match(cors, requestMethod, path, routeMethod, pattern).value, d).value == pathTokens[i]
  {
    var captured := Capture(pathTokens, patternTokens, |pathTokens|).value;
    CaptureValue(pathTokens, patternTokens, |pathTokens|, d);
    assert Match(cors, requestMethod, path, routeMethod, pattern).value == KSort(captured);
    assert Get(KSort(captured), d) == Get(captured, d);
  }

  // ----------------------------------------------------------------------
  // The dispatcher

  /** Route `m` matches the request. */
  predicate Matches(cors: bool, req: Request, m: Mapping) {
    Match(cors, req.requestMethod, req.path, m.httpMethod, m.urlPattern).Some?
  }

  /** The request is a CORS preflight: CORS is on and the method is OPTIONS. */
  predicate IsPreflight(cfg: CorsConfig, req: Request) {
    cfg.enabled && req.requestMethod == PreflightMethod
  }

  /** The request announces a JSON body: a Content-Type was sent and contains `application/json`. */
  predicate HasJsonBody(req: Request) {
    req.contentType.Some? && Contains(req.contentType.value, JsonContentType)
  }

  /** The captured segments as callback arguments, in array order. */
  function PathArgs(params: Entries<int, string>): (args: seq<Arg>)
    ensures |args| == |params|
    ensures forall i :: 0 <= i < |params| ==> args[i] == PathParam(params[i].1)
  {
    var vs := Values(params);
    seq(|vs|, i requires 0 <= i < |vs| => PathParam(vs[i]))
  }

  function OriginHeader(cfg: CorsConfig): string {
    "Access-Control-Allow-Origin: " + cfg.allowedOrigin
  }

  /** The three headers of a preflight answer; note the source writes no space after `Allow-Headers:`. */
  function PreflightHeaders(cfg: CorsConfig, methods: seq<string>): seq<string> {
    [ OriginHeader(cfg),
      "Access-Control-Allow-Headers:" + cfg.allowedRequestHeaders,
      "Access-Control-Allow-Methods: " + Implode(",", methods) + ",OPTIONS" ]
  }

  /** The preflight list: the upper-cased method of every matching route, in table order, duplicates kept. */
  function AllowedMethods(routes: seq<Mapping>, cors: bool, req: Request): (ms: seq<string>)
    ensures |ms| <= |routes|
  {
    if routes == [] then []
    else
      var init, last := routes[..|routes| - 1], routes[|routes| - 1];
      AllowedMethods(init, cors, req) + (if Matches(cors, req, last) then [ToUpper(last.httpMethod)] else [])
  }

  /** The preflight list is empty exactly when no route matches. */
  lemma {:induction false} AllowedMethodsEmpty(routes: seq<Mapping>, cors: bool, req: Request)
    ensures AllowedMethods(routes, cors, req) == [] <==> forall j :: 0 <= j < |routes| ==> !Matches(cors, req, routes[j])
  {
    if routes != [] {
      var init := routes[..|routes| - 1];
      AllowedMethodsEmpty(init, cors, req);
      assert forall j :: 0 <= j < |init| ==> init[j] == routes[j];
    }
  }

  /** The first route at or after `from` that `hit` accepts, as the dispatch loop scans the table. */
  function FirstHit(routes: seq<Mapping>, hit: Mapping -> bool, from: nat): (r: Option<nat>)
    ensures r.Some? ==> from <= r.value < |routes| && hit(routes[r.value])
    ensures r.Some? ==> forall j :: from <= j < r.value ==> !hit(routes[j])
    ensures r.None? ==> forall j :: from <= j < |routes| ==> !hit(routes[j])
    decreases |routes| - from
  {
    if from >= |routes| then None
    else if hit(routes[from]) then Some(from)
    else FirstHit(routes, hit, from + 1)
  }

  /** The first route at or after `from` that matches. */
  function FirstMatch(routes: seq<Mapping>, cors: bool, req: Request, from: nat): (r: Option<nat>)
    ensures r.Some? ==> from <= r.value < |routes| && Matches(cors, req, routes[r.value])
    ensures r.Some? ==> forall j :: from <= j < r.value ==> !Matches(cors, req, routes[j])
    ensures r.None? ==> forall j :: from <= j < |routes| ==> !Matches(cors, req, routes[j])
  {
    FirstHit(routes, m => Matches(cors, req, m), from)
  }

  /** The arguments of an invoked route: its captured segments, then the JSON body if parsed. */
  function CallArgs(m: Mapping, req: Request, params: Entries<int, string>): seq<Arg> {
    PathArgs(params) + (if m.parseJsonInput && HasJsonBody(req) then [JsonBody(req.body)] else [])
  }

  /** What one dispatch does with a route table, the CORS settings and a request. */
  function Dispatch(routes: seq<Mapping>, cfg: CorsConfig, req: Request): (r: Outcome)
    ensures r.Dispatched() <==> exists j :: 0 <= j < |routes| && Matches(cfg.enabled, req, routes[j])
    ensures r.Preflight? <==> IsPreflight(cfg, req) && r.Dispatched()
    ensures r.Invoked? ==> r.route < |routes| && Matches(cfg.enabled, req, routes[r.route])
    ensures r.Invoked? ==> forall j :: 0 <= j < r.route ==> !Matches(cfg.enabled, req, routes[j])
    ensures r.Invoked? ==> r.callback == routes[r.route].callback
  {
    if IsPreflight(cfg, req) then
      var methods := AllowedMethods(routes, cfg.enabled, req);
      AllowedMethodsEmpty(routes, cfg.enabled, req);
      if methods != [] then Preflight(PreflightHeaders(cfg, methods)) else NotDispatched
    else
      match FirstMatch(routes, cfg.enabled, req, 0)
      case None => NotDispatched
      case Some(k) =>
        var m := routes[k];
        Invoked(k, m.callback,
                CallArgs(m, req, Match(cfg.enabled, req.requestMethod, req.path, m.httpMethod, m.urlPattern).value),
                if cfg.enabled then [OriginHeader(cfg)] else [])
  }

  /** The preflight list of a longer table is the lists of its two parts, one after the other. */
  lemma {:induction false} AllowedMethodsAppend(a: seq<Mapping>, b: seq<Mapping>, cors: bool, req: Request)
    ensures AllowedMethods(a + b, cors, req) == AllowedMethods(a, cors, req) + AllowedMethods(b, cors, req)
    decreases |b|
  {
    if b == [] {
      assert a + b == a;
    } else {
      var b', x := b[..|b| - 1], b[|b| - 1];
      assert (a + b)[..|a + b| - 1] == a + b';
      assert b[..|b| - 1] == b';
      AllowedMethodsAppend(a, b', cors, req);
    }
  }

  /** A single route contributes its upper-cased method exactly when it matches. */
  lemma AllowedMethodsSingle(m: Mapping, cors: bool, req: Request)
    ensures AllowedMethods([m], cors, req) == if Matches(cors, req, m) then [ToUpper(m.httpMethod)] else []
  {
    assert [m][..0] == [];
  }

  /**
   * In a preflight the route's own method is never compared: a route matches
   * whatever method it was registered with, OPTIONS or not.
   */
  lemma PreflightIgnoresRouteMethod(cfg: CorsConfig, req: Request, m: Mapping, otherMethod: string)
    requires IsPreflight(cfg, req)
    ensures Matches(cfg.enabled, req, m) == Matches(cfg.enabled, req, m.(httpMethod := otherMethod))
  {
  }

  /**
   * The method check is case-sensitive on the request side: `strtoupper` never
   * yields a lower-case letter, so a request method with one matches no route.
   */
  lemma LowerCaseRequestMethodRejected(cors: bool, requestMethod: string, path: string, routeMethod: string, pattern: string)
    requires exists i :: 0 <= i < |requestMethod| && 'a' <= requestMethod[i] <= 'z'
    ensures Match(cors, requestMethod, path, routeMethod, pattern).None?
  {
    var i :| 0 <= i < |requestMethod| && 'a' <= requestMethod[i] <= 'z';
    assert requestMethod != ToUpper(routeMethod) by {
      if |requestMethod| == |routeMethod| {
        assert ToUpper(routeMethod)[i] != requestMethod[i];
      }
    }
    assert requestMethod != PreflightMethod by {
      if |requestMethod| == |PreflightMethod| {
        assert PreflightMethod[i] in "OPTINS";
      }
    }
    assert !MethodAccepted(cors, requestMethod, routeMethod);
  }

  /**
   * A preflight invokes nothing: its answer allows the methods of all matching
   * routes, comma-joined, followed by `,OPTIONS`.
   */
  lemma PreflightAnswer(routes: seq<Mapping>, cfg: CorsConfig, req: Request)
    requires IsPreflight(cfg, req)
    requires exists j :: 0 <= j < |routes| && Matches(cfg.enabled, req, routes[j])
    ensures var r := Dispatch(routes, cfg, req);
      && r.Preflight?
      && |r.headers| == 3
      && r.headers[0] == "Access-Control-Allow-Origin: " + cfg.allowedOrigin
      && r.headers[1] == "Access-Control-Allow-Headers:" + cfg.allowedRequestHeaders
      && r.headers[2] == "Access-Control-Allow-Methods: " + Implode(",", AllowedMethods(routes, true, req)) + ",OPTIONS"
  {
  }

  /** Two matching routes with the same method both appear in the preflight list: nothing is de-duplicated. */
  lemma PreflightKeepsDuplicates(cfg: CorsConfig, req: Request, a: Mapping, b: Mapping)
    requires IsPreflight(cfg, req) && Matches(cfg.enabled, req, a) && Matches(cfg.enabled, req, b)
    ensures Dispatch([a, b], cfg, req) == Preflight(PreflightHeaders(cfg, [ToUpper(a.httpMethod), ToUpper(b.httpMethod)]))
  {
    AllowedMethodsAppend([a], [b], cfg.enabled, req);
    AllowedMethodsSingle(a, cfg.enabled, req);
    AllowedMethodsSingle(b, cfg.enabled, req);
    assert [a] + [b] == [a, b];
  }

  /**
   * Outside a preflight the invoked route receives the captured segments in
   * ascending index order, then the JSON body exactly when the route parses
   * JSON and the request announces it; the origin header is sent exactly when
   * CORS is on.
   */
  lemma InvokedArguments(routes: seq<Mapping>, cfg: CorsConfig, req: Request)
    requires Dispatch(routes, cfg, req).Invoked?
    ensures var r := Dispatch(routes, cfg, req);
      var m := routes[r.route];
      var params := Match(cfg.enabled, req.requestMethod, req.path, m.httpMethod, m.urlPattern);
      && params.Some? && StrictlyAscending(params.value)
      && r.args[..|params.value|] == PathArgs(params.value)
      && (|r.args| == |params.value| + 1 <==> m.parseJsonInput && HasJsonBody(req))
      && |r.args| <= |params.value| + 1
      && (|r.args| == |params.value| + 1 ==> r.args[|params.value|] == JsonBody(req.body))
      && r.headers == (if cfg.enabled then ["Access-Control-Allow-Origin: " + cfg.allowedOrigin] else [])
  {
  }

  /** A preflight with a non-empty list of allowed methods answers with that list. */
  lemma DispatchPreflight(routes: seq<Mapping>, cfg: CorsConfig, req: Request, ms: seq<string>)
    requires IsPreflight(cfg, req) && AllowedMethods(routes, cfg.enabled, req) == ms && ms != []
    ensures Dispatch(routes, cfg, req) == Preflight(PreflightHeaders(cfg, ms))
  {
  }

  /** Outside a preflight, the first matching route is invoked with its captured segments. */
  lemma DispatchInvokes(routes: seq<Mapping>, cfg: CorsConfig, req: Request, k: nat, params: Entries<int, string>)
    requires !IsPreflight(cfg, req) && k < |routes|
    requires forall j :: 0 <= j < k ==> !Matches(cfg.enabled, req, routes[j])
    requires Match(cfg.enabled, req.requestMethod, req.path, routes[k].httpMethod, routes[k].urlPattern) == Some(params)
    ensures Dispatch(routes, cfg, req) ==
      Invoked(k, routes[k].callback, CallArgs(routes[k], req, params), if cfg.enabled then [OriginHeader(cfg)] else [])
  {
    assert Matches(cfg.enabled, req, routes[k]);
    FirstMatchAt(routes, cfg.enabled, req, k);
  }

  /** The scan stops at `k` when route `k` matches and no earlier one does. */
  lemma FirstMatchAt(routes: seq<Mapping>, cors: bool, req: Request, k: nat)
    requires k < |routes| && Matches(cors, req, routes[k])
    requires forall j :: 0 <= j < k ==> !Matches(cors, req, routes[j])
    ensures FirstMatch(routes, cors, req, 0) == Some(k)
  {
  }

  // ----------------------------------------------------------------------
  // The dispatcher object

  /** The route table and CORS settings, and the operations on them. */
  class URIDispatcher {
    var mappings: seq<Mapping>
    var cors: bool
    var allowedOrigin: string
    var allowedRequestHeaders: string

    /** A fresh dispatcher: empty table, CORS off. */
    constructor ()
      ensures mappings == [] && !cors
    {
      mappings := [];
      cors := false;
      allowedOrigin := "";
      allowedRequestHeaders := "";
    }

    function Config(): CorsConfig
      reads this
    {
      CorsConfig(cors, allowedOrigin, allowedRequestHeaders)
    }

    /** Appends one route (JSON parsing on unless switched off) and returns the dispatcher for chaining. */
    method Map(httpMethod: string, urlPattern: string, callback: Callback, parseJsonInput: bool := true)
      returns (self: URIDispatcher)
      modifies this`mappings
      ensures mappings == old(mappings) + [Mapping(httpMethod, urlPattern, callback, parseJsonInput)]
      ensures self == this
    {
      mappings := mappings + [Mapping(httpMethod, urlPattern, callback, parseJsonInput)];
      self := this;
    }

    /** Turns CORS on with the given allowed origin and allowed request headers; the table is untouched. */
    method EnableCORS(origin: string, requestHeaders: string)
      modifies this`cors, this`allowedOrigin, this`allowedRequestHeaders
      ensures Config() == CorsConfig(true, origin, requestHeaders)
    {
      cors := true;
      allowedOrigin := origin;
      allowedRequestHeaders := requestHeaders;
    }

    /** Matches the request against one route, filling the parameters segment by segment. */
    method MatchRequest(requestMethod: string, path: string, httpMethod: string, urlPattern: string)
      returns (matched: bool, parameters: Entries<int, string>)
      ensures matched <==> Match(cors, requestMethod, path, httpMethod, urlPattern).Some?
      ensures matched ==> parameters == Match(cors, requestMethod, path, httpMethod, urlPattern).value
    {
      parameters := [];
      if requestMethod != ToUpper(httpMethod) && (!cors || requestMethod != PreflightMethod) {
        return false, parameters;
      }
      var pathTokens := Explode('/', path);
      var patternTokens := Explode('/', urlPattern);
      if |pathTokens| != |patternTokens| {
        return false, parameters;
      }
      for i := 0 to |pathTokens|
        invariant Capture(pathTokens, patternTokens, i) == Some(parameters)
      {
        if pathTokens[i] != patternTokens[i] {
          var index := ParamIndex(patternTokens[i]);
          if index.Some? {
            parameters := Put(parameters, index.value, pathTokens[i]);
          } else {
            CaptureFailureStays(pathTokens, patternTokens, i + 1, |pathTokens|);
            return false, parameters;
          }
        }
      }
      if |parameters| > 0 {
        parameters := KSort(parameters);
      }
      matched := true;
    }

    /** Dispatches the request over the table in registration order. */
    method DispatchRequest(req: Request) returns (outcome: Outcome)
      ensures outcome == Dispatch(mappings, Config(), req)
    {
      var dispatchAsCORS := false;
      var allowedMethods: seq<string> := [];
      for i := 0 to |mappings|
        invariant IsPreflight(Config(), req) ==>
          allowedMethods == AllowedMethods(mappings[..i], cors, req) && dispatchAsCORS == (allowedMethods != [])
        invariant !IsPreflight(Config(), req) ==>
          allowedMethods == [] && !dispatchAsCORS && forall j :: 0 <= j < i ==> !Matches(cors, req, mappings[j])
      {
        var mapping := mappings[i];
        var matched, parameters := MatchRequest(req.requestMethod, req.path, mapping.httpMethod, mapping.urlPattern);
        assert mappings[..i + 1] == mappings[..i] + [mapping];
        if matched {
          if cors && req.requestMethod == PreflightMethod {
            dispatchAsCORS := true;
            allowedMethods := allowedMethods + [ToUpper(mapping.httpMethod)];
          } else {
            var args := PathArgs(parameters);
            if mapping.parseJsonInput && req.contentType.Some? && Contains(req.contentType.value, JsonContentType) {
              args := args + [JsonBody(req.body)];
            }
            var headers: seq<string> := [];
            if cors {
              headers := [OriginHeader(Config())];
            }
            assert args == CallArgs(mapping, req, parameters);
            DispatchInvokes(mappings, Config(), req, i, parameters);
            return Invoked(i, mapping.callback, args, headers);
          }
        }
      }
      assert mappings[..|mappings|] == mappings;
      if dispatchAsCORS {
        DispatchPreflight(mappings, Config(), req, allowedMethods);
        return Preflight(PreflightHeaders(Config(), allowedMethods));
      }
      return NotDispatched;
    }
  }
}
