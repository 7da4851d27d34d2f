/**
 * The route tables the REST endpoints register (`rest/PostRest.php`,
 * `rest/UserRest.php`) and what the dispatcher does with concrete requests
 * against them.
 */
module RestRoutes {
  import opened Wrappers
  import opened PhpString
  import opened PhpArray
  import opened Rest

  /** The post endpoint's table, in registration order. */
  function PostRoutes(): seq<Mapping> {
    [ Mapping("GET", "/post", Callback("PostRest", "getPosts"), true),
      Mapping("GET", "/post/$1", Callback("PostRest", "readPost"), true),
      Mapping("POST", "/post", Callback("PostRest", "createPost"), true),
      Mapping("POST", "/post/$1/comment", Callback("PostRest", "createComment"), true),
      Mapping("PUT", "/post/$1", Callback("PostRest", "updatePost"), true),
      Mapping("DELETE", "/post/$1", Callback("PostRest", "deletePost"), true) ]
  }

  /** The user endpoint's table, in registration order. */
  function UserRoutes(): seq<Mapping> {
    [ Mapping("GET", "/user/$1", Callback("UserRest", "login"), true),
      Mapping("POST", "/user", Callback("UserRest", "postUser"), true) ]
  }

  /** Registers the post endpoint's routes by chained `map` calls, as the endpoint file does. */
  method RegisterPostRoutes(d: URIDispatcher)
    modifies d`mappings
    ensures d.mappings == old(d.mappings) + PostRoutes()
  {
    var c := d.Map("GET", "/post", Callback("PostRest", "getPosts"));
    c := c.Map("GET", "/post/$1", Callback("PostRest", "readPost"));
    c := c.Map("POST", "/post", Callback("PostRest", "createPost"));
    c := c.Map("POST", "/post/$1/comment", Callback("PostRest", "createComment"));
    c := c.Map("PUT", "/post/$1", Callback("PostRest", "updatePost"));
    c := c.Map("DELETE", "/post/$1", Callback("PostRest", "deletePost"));
  }

  /** Registers the user endpoint's routes by chained `map` calls. */
  method RegisterUserRoutes(d: URIDispatcher)
    modifies d`mappings
    ensures d.mappings == old(d.mappings) + UserRoutes()
  {
    var c := d.Map("GET", "/user/$1", Callback("UserRest", "login"));
    c := c.Map("POST", "/user", Callback("UserRest", "postUser"));
  }

  /** A request with no body, as a client sends for reads and preflights. */
  function BodilessRequest(requestMethod: string, path: string): Request {
    Request(requestMethod, path, None, "")
  }

  /** One step of `implode` on two or more parts. */
  lemma ImplodeStep(parts: seq<string>)
    requires |parts| >= 2
    ensures Implode("/", parts) == parts[0] + "/" + Implode("/", parts[1..])
  {
  }

  /** `implode` of a single part is that part. */
  lemma ImplodeOne(parts: seq<string>)
    requires |parts| == 1
    ensures Implode("/", parts) == parts[0]
  {
  }

  /** Splitting a concrete path: `explode` undoes `implode` on separator-free pieces. */
  lemma Split(s: string, parts: seq<string>)
    requires |parts| >= 1 && forall i :: 0 <= i < |parts| ==> '/' !in parts[i]
    requires Implode("/", parts) == s
    ensures Explode('/', s) == parts
  {
    ExplodeImplode('/', parts);
  }

  /** `explode('/', ...)` of a three-segment path `/a/b`. */
  lemma SplitThree(s: string, parts: seq<string>)
    requires |parts| == 3 && parts[0] == "" && '/' !in parts[1] && '/' !in parts[2]
    requires s == "/" + parts[1] + "/" + parts[2]
    ensures Explode('/', s) == parts
  {
    var tail := parts[1..];
    ImplodeOne(tail[1..]);
    ImplodeStep(tail);
    assert Implode("/", tail) == parts[1] + "/" + parts[2];
    ImplodeStep(parts);
    assert Implode("/", parts) == "" + "/" + (parts[1] + "/" + parts[2]);
    Split(s, parts);
  }

  /** `explode('/', ...)` of a five-segment path `/a/b/c/d`. */
  lemma SplitFive(s: string, parts: seq<string>)
    requires |parts| == 5 && parts[0] == "" && forall i :: 1 <= i < 5 ==> '/' !in parts[i]
    requires s == "/" + parts[1] + "/" + parts[2] + "/" + parts[3] + "/" + parts[4]
    ensures Explode('/', s) == parts
  {
    ImplodeOne(parts[4..]);
    ImplodeStep(parts[3..]);
    assert Implode("/", parts[3..]) == parts[3] + "/" + parts[4];
    ImplodeStep(parts[2..]);
    assert Implode("/", parts[2..]) == parts[2] + "/" + (parts[3] + "/" + parts[4]);
    ImplodeStep(parts[1..]);
    assert Implode("/", parts[1..]) == parts[1] + "/" + (parts[2] + "/" + parts[3] + "/" + parts[4]);
    ImplodeStep(parts);
    assert Implode("/", parts) == "" + "/" + (parts[1] + "/" + parts[2] + "/" + parts[3] + "/" + parts[4]);
    Split(s, parts);
  }

  /** The tokens of a pattern segment `$<d>`: the one-digit parameter `d`. */
  lemma DollarDigit(seg: string, d: int)
    requires |seg| == 2 && seg[0] == '$' && 0 <= d <= 9 && seg[1] == ('0' as int + d) as char
    ensures ParamIndex(seg) == Some(d)
  {
    assert TokenAt(seg, 0);
  }

  /** The segments of the request path `/user/alice/posts/1`. */
  lemma UserPostsPath(path: string)
    requires path == "/user/alice/posts/1"
    ensures Explode('/', path) == ["", "user", "alice", "posts", "1"]
  {
    SplitFive(path, ["", "user", "alice", "posts", "1"]);
  }

  /** The segments of the pattern `/user/$2/posts/$1`. */
  lemma UserPostsPattern(pattern: string)
    requires pattern == "/user/$2/posts/$1"
    ensures Explode('/', pattern) == ["", "user", "$2", "posts", "$1"]
  {
    SplitFive(pattern, ["", "user", "$2", "posts", "$1"]);
  }

  /** The segments of the request path `/post/42`. */
  lemma PostIdPath(path: string)
    requires path == "/post/42"
    ensures Explode('/', path) == ["", "post", "42"]
  {
    SplitThree(path, ["", "post", "42"]);
  }

  /** The segments of the pattern `/post/$1`. */
  lemma PostIdPattern(pattern: string)
    requires pattern == "/post/$1"
    ensures Explode('/', pattern) == ["", "post", "$1"]
  {
    SplitThree(pattern, ["", "post", "$1"]);
  }

  /** The segments of the pattern `/post/$1/comment`. */
  lemma CommentPattern(pattern: string)
    requires pattern == "/post/$1/comment"
    ensures Explode('/', pattern) == ["", "post", "$1", "comment"]
  {
    var qt := ["", "post", "$1", "comment"];
    ImplodeStep(qt);
    ImplodeStep(qt[1..]);
    ImplodeStep(qt[2..]);
    assert qt[3..] == ["comment"];
    Split(pattern, qt);
  }

  /** The segment loop over `/user/alice/posts/1` and `/user/$2/posts/$1` fills index 2, then index 1. */
  lemma UserPostsCapture(pt: seq<string>, qt: seq<string>)
    requires pt == ["", "user", "alice", "posts", "1"] && qt == ["", "user", "$2", "posts", "$1"]
    ensures Capture(pt, qt, 5) == Some([(2, "alice"), (1, "1")])
  {
    DollarDigit("$2", 2);
    DollarDigit("$1", 1);
    assert Capture(pt, qt, 0) == Some([]);
    assert pt[0] == qt[0] && pt[1] == qt[1] && pt[3] == qt[3];
    assert pt[2] != qt[2] && pt[4] != qt[4];
    assert Capture(pt, qt, 1) == Some([]);
    assert Capture(pt, qt, 2) == Some([]);
    assert Put([], 2, "alice") == [(2, "alice")];
    assert Capture(pt, qt, 3) == Some([(2, "alice")]);
    assert Capture(pt, qt, 4) == Some([(2, "alice")]);
    assert Put([(2, "alice")], 1, "1") == [(2, "alice"), (1, "1")];
  }

  /** Sorting the two captured parameters of the example below. */
  lemma KSortTwo()
    ensures KSort([(2, "alice"), (1, "1")]) == [(1, "1"), (2, "alice")]
  {
    assert KSort([(1, "1")]) == [(1, "1")];
  }

  /**
   * `/user/alice/posts/1` against `/user/$2/posts/$1` yields ("1", "alice"):
   * the parameters reach the callback by ascending index, not by position in the path.
   */
  lemma ParametersInIndexOrder(path: string, pattern: string)
    requires path == "/user/alice/posts/1" && pattern == "/user/$2/posts/$1"
    ensures Match(false, "GET", path, "GET", pattern) == Some([(1, "1"), (2, "alice")])
  {
    var pt := ["", "user", "alice", "posts", "1"];
    var qt := ["", "user", "$2", "posts", "$1"];
    UserPostsPath(path);
    UserPostsPattern(pattern);
    ParametersInIndexOrderBySteps(path, pattern, pt, qt);
  }

  lemma ParametersInIndexOrderBySteps(path: string, pattern: string, pt: seq<string>, qt: seq<string>)
    requires Explode('/', path) == pt && Explode('/', pattern) == qt
    requires pt == ["", "user", "alice", "posts", "1"] && qt == ["", "user", "$2", "posts", "$1"]
    ensures Match(false, "GET", path, "GET", pattern) == Some([(1, "1"), (2, "alice")])
  {
    UserPostsCapture(pt, qt);
    KSortTwo();
    assert ToUpper("GET") == "GET";
    MatchBySteps(false, "GET", path, "GET", pattern, pt, qt, [(2, "alice"), (1, "1")]);
  }

  /** A trailing slash adds an empty segment, so `/post/` does not match `/post`. */
  lemma TrailingSlashDoesNotMatch(path: string, pattern: string)
    requires path == "/post/" && pattern == "/post"
    ensures Match(false, "GET", path, "GET", pattern).None?
  {
    Split(path, ["", "post", ""]);
    Split(pattern, ["", "post"]);
  }

  /** `/post/42` matches `/post/$1` whenever the method check passes, capturing "42" under index 1. */
  lemma PostIdMatchesId(cors: bool, requestMethod: string, path: string, routeMethod: string, pattern: string)
    requires MethodAccepted(cors, requestMethod, routeMethod)
    requires path == "/post/42" && pattern == "/post/$1"
    ensures Match(cors, requestMethod, path, routeMethod, pattern) == Some([(1, "42")])
  {
    var pt, qt := ["", "post", "42"], ["", "post", "$1"];
    PostIdPath(path);
    PostIdPattern(pattern);
    DollarDigit("$1", 1);
    assert Capture(pt, qt, 2) == Some([]);
    assert Capture(pt, qt, 3) == Some([(1, "42")]);
    MatchBySteps(cors, requestMethod, path, routeMethod, pattern, pt, qt, [(1, "42")]);
  }

  /** `/post/42` matches neither `/post` nor `/post/$1/comment`: the segment counts differ. */
  lemma PostIdMissesOthers(cors: bool, requestMethod: string, path: string, routeMethod: string, pattern: string)
    requires path == "/post/42" && (pattern == "/post" || pattern == "/post/$1/comment")
    ensures Match(cors, requestMethod, path, routeMethod, pattern).None?
  {
    PostIdPath(path);
    if pattern == "/post" {
      Split(pattern, ["", "post"]);
    } else {
      CommentPattern(pattern);
    }
  }

  /** In a preflight on `/post/42`, exactly the GET, PUT and DELETE routes on `/post/$1` match. */
  lemma PostIdMatchesOnly(req: Request, rs: seq<Mapping>)
    requires req == BodilessRequest("OPTIONS", "/post/42") && rs == PostRoutes()
    ensures forall i :: 0 <= i < |rs| ==> (Matches(true, req, rs[i]) <==> i == 1 || i == 4 || i == 5)
  {
    forall i | 0 <= i < |rs| ensures Matches(true, req, rs[i]) <==> i == 1 || i == 4 || i == 5 {
      if i == 1 || i == 4 || i == 5 {
        PostIdMatchesId(true, req.requestMethod, req.path, rs[i].httpMethod, rs[i].urlPattern);
      } else {
        PostIdMissesOthers(true, req.requestMethod, req.path, rs[i].httpMethod, rs[i].urlPattern);
      }
    }
  }

  /** The preflight list of the first `n` routes: that of the first `n - 1`, then route `n - 1`'s method if it matches. */
  lemma AllowedStep(rs: seq<Mapping>, n: nat, cors: bool, req: Request)
    requires 0 < n <= |rs|
    ensures AllowedMethods(rs[..n], cors, req) ==
      AllowedMethods(rs[..n - 1], cors, req) + (if Matches(cors, req, rs[n - 1]) then [ToUpper(rs[n - 1].httpMethod)] else [])
  {
    assert rs[..n][..n - 1] == rs[..n - 1];
  }

  /** The preflight list of a six-route table in which routes 1, 4 and 5 match. */
  lemma AllowedOfSix(rs: seq<Mapping>, cors: bool, req: Request)
    requires |rs| == 6
    requires forall i :: 0 <= i < |rs| ==> (Matches(cors, req, rs[i]) <==> i == 1 || i == 4 || i == 5)
    ensures AllowedMethods(rs, cors, req) == [ToUpper(rs[1].httpMethod), ToUpper(rs[4].httpMethod), ToUpper(rs[5].httpMethod)]
  {
    var m1, m4, m5 := ToUpper(rs[1].httpMethod), ToUpper(rs[4].httpMethod), ToUpper(rs[5].httpMethod);
    assert !Matches(cors, req, rs[0]) && !Matches(cors, req, rs[2]) && !Matches(cors, req, rs[3]);
    assert Matches(cors, req, rs[1]) && Matches(cors, req, rs[4]) && Matches(cors, req, rs[5]);
    assert rs[..0] == [];
    AllowedStep(rs, 1, cors, req);
    assert AllowedMethods(rs[..1], cors, req) == [];
    AllowedStep(rs, 2, cors, req);
    assert AllowedMethods(rs[..2], cors, req) == [m1];
    AllowedStep(rs, 3, cors, req);
    AllowedStep(rs, 4, cors, req);
    assert AllowedMethods(rs[..4], cors, req) == [m1];
    AllowedStep(rs, 5, cors, req);
    assert AllowedMethods(rs[..5], cors, req) == [m1, m4];
    AllowedStep(rs, 6, cors, req);
    assert rs[..6] == rs;
  }

  /** `strtoupper` leaves the upper-case method names as they are. */
  lemma UpperMethods()
    ensures ToUpper("GET") == "GET" && ToUpper("PUT") == "PUT" && ToUpper("DELETE") == "DELETE"
    ensures ToUpper("POST") == "POST"
  {
    assert ToUpper("POST") == "POST";
    assert ToUpper("GET") == "GET";
    assert ToUpper("PUT") == "PUT";
    assert ToUpper("DELETE") == "DELETE";
  }

  /**
   * A CORS preflight on `/post/42` against the post table allows GET, PUT and
   * DELETE (the routes on `/post/$1`) and invokes nothing.
   */
  lemma PreflightOnPostId(cfg: CorsConfig, req: Request)
    requires cfg.enabled && req == BodilessRequest("OPTIONS", "/post/42")
    ensures Dispatch(PostRoutes(), cfg, req) == Preflight(PreflightHeaders(cfg, ["GET", "PUT", "DELETE"]))
  {
    var rs := PostRoutes();
    PostIdMatchesOnly(req, rs);
    AllowedOfSix(rs, true, req);
    UpperMethods();
    DispatchPreflight(rs, cfg, req, ["GET", "PUT", "DELETE"]);
  }

  /** Without a Content-Type no JSON body is appended: the arguments are the captured segment alone. */
  lemma BodilessArgs(m: Mapping, req: Request, segment: string)
    requires req.contentType.None?
    ensures CallArgs(m, req, [(1, segment)]) == [PathParam(segment)]
  {
    assert PathArgs([(1, segment)]) == [PathParam(segment)];
  }

  /** A GET on `/post/42` matches only the `readPost` route of the post table. */
  lemma PostIdMatchesGet(req: Request, rs: seq<Mapping>)
    requires req == BodilessRequest("GET", "/post/42") && rs == PostRoutes()
    ensures forall i :: 0 <= i < |rs| ==> (Matches(false, req, rs[i]) <==> i == 1)
    ensures Match(false, req.requestMethod, req.path, rs[1].httpMethod, rs[1].urlPattern) == Some([(1, "42")])
  {
    UpperMethods();
    forall i | 0 <= i < |rs| ensures Matches(false, req, rs[i]) <==> i == 1 {
      if i == 0 || i == 3 {
        PostIdMissesOthers(false, req.requestMethod, req.path, rs[i].httpMethod, rs[i].urlPattern);
      } else if i == 1 {
        PostIdMatchesId(false, req.requestMethod, req.path, rs[i].httpMethod, rs[i].urlPattern);
      } else {
        assert !MethodAccepted(false, req.requestMethod, rs[i].httpMethod);
      }
    }
    PostIdMatchesId(false, req.requestMethod, req.path, rs[1].httpMethod, rs[1].urlPattern);
  }

  /** A GET on `/post/42` invokes `readPost` with the single argument "42", and sends no CORS header. */
  lemma ReadPost(cfg: CorsConfig, req: Request, rs: seq<Mapping>)
    requires !cfg.enabled && req == BodilessRequest("GET", "/post/42") && rs == PostRoutes()
    ensures Dispatch(rs, cfg, req) == Invoked(1, Callback("PostRest", "readPost"), [PathParam("42")], [])
  {
    PostIdMatchesGet(req, rs);
    BodilessArgs(rs[1], req, "42");
    DispatchInvokes(rs, cfg, req, 1, [(1, "42")]);
  }
}
