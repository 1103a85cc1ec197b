/** The Express application of index.js: the middleware stack it registers, in
    order, and the reply the stack gives to a request that reaches it.

    Express runs the layers of an app top-down; each layer either answers the
    request or passes it on (`next()`). The stack is held by the class `App`, whose
    methods append layers as `app.use` and `app.get` do; `Build` registers the
    layers of index.js in the order the file does. `Respond` is Express's walk of
    the stack, and `Expected` is the same application written as one decision
    table; `ChainMatchesExpected` proves the two agree. */
module Site {
  import opened Text

  datatype Option<T> = None | Some(value: T)

  /** The part of Node's `IncomingMessage` routing looks at. */
  datatype Request = Request(verb: string, url: string)

  /** The three directories served by `express.static`. */
  datatype Dir = StaticDir | LibcurlDir | BaremuxDir

  /** What `request(url, callback)` handed to its callback: an error (and no
      response), or a response with its status code and body. */
  datatype Fetch = Failed | Fetched(statusCode: int, body: string)

  /** Everything outside the process the app's reply depends on: the paths each
      static directory can answer (as seen from inside its mount), and the
      outcome of fetching the worker script upstream. */
  datatype Env = Env(
    staticFiles: set<string>,
    libcurlFiles: set<string>,
    baremuxFiles: set<string>,
    upstream: Fetch)

  /** A route handler's action on `res`. */
  datatype Handler =
    | SendFileOf(status: int, file: string)   // res.status(status).sendFile(file)
    | RedirectTo(location: string)            // res.redirect(location)
    | FetchWorker(url: string)                // request(url, ...) and map its outcome

  /** One layer of the Express stack. */
  datatype Layer =
    | ServeStatic(mount: string, dir: Dir)    // app.use(mount, express.static(dir))
    | GetRoute(path: string, handler: Handler) // app.get(path, handler)
    | UseHandler(handler: Handler)            // app.use(handler): every request

  /** What the client receives from the app. `Unhandled` is Express's own final
      handler, reached only when every layer passed the request on. */
  datatype Reply =
    | StaticFile(dir: Dir, path: string)
    | File(status: int, file: string)
    | Redirect(status: int, location: string)
    | Sent(status: int, contentType: Option<string>, body: string)
    | Unhandled

  datatype RouteEntry = RouteEntry(route: string, file: string)

  const Routes: seq<RouteEntry> := [
    RouteEntry("/app", "./static/index.html"),
    RouteEntry("/portal", "./static/loader.html"),
    RouteEntry("/apps", "./static/apps.html"),
    RouteEntry("/gms", "./static/gms.html"),
    RouteEntry("/lessons", "./static/agloader.html"),
    RouteEntry("/info", "./static/info.html"),
    RouteEntry("/edu", "./static/loading.html")
  ]

  const WorkerUrl := "https://cdn.surfdoge.pro/worker.js"
  const WorkerContentType := "text/javascript"
  const WorkerErrorMessage := "Error fetching worker script"
  const NotFoundFile := "./static/404.html"

  /** `app.get` routes answer GET, and HEAD through the same handler;
      `express.static` serves only these two methods and passes the rest on. */
  predicate Retrieves(verb: string) {
    verb == "GET" || verb == "HEAD"
  }

  function Files(env: Env, dir: Dir): set<string> {
    match dir
    case StaticDir => env.staticFiles
    case LibcurlDir => env.libcurlFiles
    case BaremuxDir => env.baremuxFiles
  }

  /** A mount path without its trailing '/'. */
  function MountPrefix(mount: string): string {
    if EndsWith(mount, "/") then mount[..|mount| - 1] else mount
  }

  /** The path `express.static` mounted at `mount` looks up, or None when the
      mount does not cover `path`. Express drops one trailing '/' of the mount,
      matches the mount itself or anything below it, and strips it from the path;
      "/" mounts cover every path. For the mount itself, written without its
      trailing '/', serve-static looks up the empty path, which makes it redirect
      to the mount with the slash. */
  function MountedPath(mount: string, path: string): (rel: Option<string>)
    ensures rel.Some? ==> path == MountPrefix(mount) + rel.value
    ensures rel.Some? && MountPrefix(mount) != "" ==> rel.value == "" || StartsWith(rel.value, "/")
    ensures MountPrefix(mount) == "" ==> rel == Some(path)
    ensures MountPrefix(mount) != "" ==>
      (rel.Some? <==> path == MountPrefix(mount) || StartsWith(path, MountPrefix(mount) + "/"))
    ensures MountPrefix(mount) != "" && path == MountPrefix(mount) ==> rel == Some("")
    ensures MountPrefix(mount) != "" && StartsWith(path, MountPrefix(mount) + "/") ==>
      rel == Some(path[|MountPrefix(mount)|..])
  {
    var m := MountPrefix(mount);
    if m == "" then Some(path)
    else if path == m then Some("")
    else if StartsWith(path, m + "/") then Some(path[|m|..])
    else None
  }

  /** The `/worker.js` callback: the upstream body, verbatim and as JavaScript, when
      the fetch succeeded with status 200; the fixed 500 reply otherwise. */
  function WorkerReply(fetch: Fetch): (r: Reply)
    ensures r.Sent?
    ensures r.status == 200 <==> fetch.Fetched? && fetch.statusCode == 200
    ensures r.status == 200 ==> r.contentType == Some(WorkerContentType) && r.body == fetch.body
    ensures r.status != 200 ==> r == Sent(500, None, WorkerErrorMessage)
  {
    if fetch.Fetched? && fetch.statusCode == 200 then Sent(200, Some(WorkerContentType), fetch.body)
    else Sent(500, None, WorkerErrorMessage)
  }

  /** What a handler sends; `res.redirect` uses status 302. */
  function Run(handler: Handler, env: Env): (r: Reply)
    ensures r != Unhandled
  {
    match handler
    case SendFileOf(status, file) => File(status, file)
    case RedirectTo(location) => Redirect(302, location)
    case FetchWorker(_) => WorkerReply(env.upstream)
  }

  /** The mount prefixes of the three static layers. */
  lemma MountPrefixes()
    ensures MountPrefix("/") == ""
    ensures MountPrefix("/libcurl/") == "/libcurl"
    ensures MountPrefix("/baremux/") == "/baremux"
  {
    assert EndsWith("/", "/");
    assert EndsWith("/libcurl/", "/");
    assert EndsWith("/baremux/", "/");
  }

  /** A mount covers its own prefix followed by the empty path or by a path
      starting with '/', and looks that path up. */
  lemma MountedBelow(mount: string, rel: string)
    requires MountPrefix(mount) != ""
    requires rel == "" || StartsWith(rel, "/")
    ensures MountedPath(mount, MountPrefix(mount) + rel) == Some(rel)
  {
    var m := MountPrefix(mount);
    if rel != "" {
      assert (m + rel)[..|m + "/"|] == m + "/";
      assert (m + rel)[|m|..] == rel;
    }
  }

  /** A mount never covers a path that differs from its prefix at some position
      inside the prefix. */
  lemma NotMounted(mount: string, path: string, k: nat)
    requires k < |MountPrefix(mount)| && k < |path| && path[k] != MountPrefix(mount)[k]
    ensures MountedPath(mount, path) == None
  {
    var m := MountPrefix(mount);
    assert |path| < |m + "/"| || path[..|m + "/"|][k] != (m + "/")[k];
  }

  /** The request URL with a '/' added after its pathname; the query is kept. */
  function SlashedUrl(url: string): string {
    PathOf(url) + "/" + url[|PathOf(url)|..]
  }

  /** What `express.static(dir)` mounted at `mount` makes of a request: a GET or
      HEAD for the mount itself, written without its trailing '/', is redirected
      (301) to the URL with the slash; one for a file of the directory is served
      with the mount stripped; everything else is passed on. */
  function StaticServe(mount: string, dir: Dir, env: Env, req: Request): (r: Option<Reply>)
    ensures r.Some? ==> Retrieves(req.verb)
    ensures r.Some? && r.value.StaticFile? ==> r.value.dir == dir && r.value.path in Files(env, dir)
    ensures r.Some? && r.value.StaticFile? ==>
      MountedPath(mount, PathOf(req.url)) == Some(r.value.path)
      && PathOf(req.url) == MountPrefix(mount) + r.value.path
    ensures r.Some? && !r.value.StaticFile? ==>
      r.value == Redirect(301, SlashedUrl(req.url)) && PathOf(req.url) == MountPrefix(mount) != ""
  {
    var rel := MountedPath(mount, PathOf(req.url));
    if Retrieves(req.verb) && rel == Some("") && MountPrefix(mount) != ""
    then Some(Redirect(301, SlashedUrl(req.url)))
    else if Retrieves(req.verb) && rel.Some? && rel.value in Files(env, dir)
    then Some(StaticFile(dir, rel.value))
    else None
  }

  /** A mount other than "/" answers for its own prefix followed by nothing or
      by a '/'-path: the redirect for nothing, the file when its directory holds
      it, and otherwise it passes the request on. */
  lemma ServeBelow(mount: string, dir: Dir, env: Env, req: Request, rel: string)
    requires MountPrefix(mount) != "" && PathOf(req.url) == MountPrefix(mount) + rel
    requires rel == "" || StartsWith(rel, "/")
    ensures StaticServe(mount, dir, env, req)
         == if !Retrieves(req.verb) then None
            else if rel == "" then Some(Redirect(301, SlashedUrl(req.url)))
            else if rel in Files(env, dir) then Some(StaticFile(dir, rel))
            else None
  {
    MountedBelow(mount, rel);
  }

  /** A layer passes on every path that differs from its mount prefix inside it. */
  lemma ServeElsewhere(mount: string, dir: Dir, env: Env, req: Request, k: nat)
    requires k < |MountPrefix(mount)| && k < |PathOf(req.url)|
    requires PathOf(req.url)[k] != MountPrefix(mount)[k]
    ensures StaticServe(mount, dir, env, req) == None
  {
    NotMounted(mount, PathOf(req.url), k);
  }

  /** The prefixes of the two vendor mounts. */
  lemma VendorPrefixes()
    ensures MountPrefix("/libcurl/") == "/libcurl"
    ensures MountPrefix("/baremux/") == "/baremux"
  {
    MountPrefixes();
  }

  /** Mounted at "/", `express.static` serves its directory's files under their
      own paths and redirects nothing. */
  lemma StaticServeRoot(env: Env, req: Request)
    ensures StaticServe("/", StaticDir, env, req)
         == if Retrieves(req.verb) && PathOf(req.url) in env.staticFiles
            then Some(StaticFile(StaticDir, PathOf(req.url))) else None
  {
    MountPrefixes();
  }

  /** The reply of one layer, or None when it calls `next()`. */
  function Answer(layer: Layer, env: Env, req: Request): (r: Option<Reply>)
    ensures r.Some? ==> r.value != Unhandled
    ensures layer.UseHandler? ==> r.Some?
    ensures !layer.UseHandler? && !Retrieves(req.verb) ==> r == None
  {
    var path := PathOf(req.url);
    match layer
    case ServeStatic(mount, dir) => StaticServe(mount, dir, env, req)
    case GetRoute(route, handler) =>
      if Retrieves(req.verb) && path == route then Some(Run(handler, env)) else None
    case UseHandler(handler) => Some(Run(handler, env))
  }

  /** Express's walk of the stack: the first layer that answers. It falls
      through to the final handler only when every layer passes. */
  function Respond(stack: seq<Layer>, env: Env, req: Request): (r: Reply)
    ensures r == Unhandled ==> forall i :: 0 <= i < |stack| ==> Answer(stack[i], env, req).None?
  {
    if stack == [] then Unhandled
    else match Answer(stack[0], env, req)
      case Some(reply) => reply
      case None => Respond(stack[1..], env, req)
  }

  /** The reply is the answer of the first layer that gives one, and
      `Unhandled` exactly when no layer does. */
  lemma {:induction false} RespondFirstMatch(stack: seq<Layer>, env: Env, req: Request, i: nat)
    requires i < |stack|
    requires forall j :: 0 <= j < i ==> Answer(stack[j], env, req).None?
    requires Answer(stack[i], env, req).Some?
    ensures Respond(stack, env, req) == Answer(stack[i], env, req).value
  {
    if i > 0 {
      RespondFirstMatch(stack[1..], env, req, i - 1);
    }
  }

  lemma {:induction false} RespondNoMatch(stack: seq<Layer>, env: Env, req: Request)
    ensures Respond(stack, env, req) == Unhandled
        <==> forall j :: 0 <= j < |stack| ==> Answer(stack[j], env, req).None?
  {
    if stack != [] {
      RespondNoMatch(stack[1..], env, req);
      if Answer(stack[0], env, req).None? {
        assert forall j :: 1 <= j < |stack| ==> stack[j] == stack[1..][j - 1];
      }
    }
  }

  /** Layers registered later are consulted only when the earlier ones all pass. */
  lemma {:induction false} RespondAppend(front: seq<Layer>, back: seq<Layer>, env: Env, req: Request)
    ensures Respond(front + back, env, req)
         == if Respond(front, env, req) == Unhandled then Respond(back, env, req)
            else Respond(front, env, req)
  {
    if front == [] {
      assert front + back == back;
    } else {
      assert (front + back)[1..] == front[1..] + back;
      RespondAppend(front[1..], back, env, req);
    }
  }

  /** The file the route table lists for `path`, if any. */
  function Lookup(routes: seq<RouteEntry>, path: string): (file: Option<string>)
    ensures file.None? <==> forall i :: 0 <= i < |routes| ==> routes[i].route != path
  {
    if routes == [] then None
    else if routes[0].route == path then Some(routes[0].file)
    else Lookup(routes[1..], path)
  }

  predicate DistinctRoutes(routes: seq<RouteEntry>) {
    forall i, j :: 0 <= i < j < |routes| ==> routes[i].route != routes[j].route
  }

  /** In a table without repeated paths, each path finds exactly its own file. */
  lemma {:induction false} LookupFindsEntry(routes: seq<RouteEntry>, i: nat)
    requires DistinctRoutes(routes)
    requires i < |routes|
    ensures Lookup(routes, routes[i].route) == Some(routes[i].file)
  {
    if i > 0 {
      assert routes[0].route != routes[i].route;
      assert DistinctRoutes(routes[1..]) by {
        forall a, b | 0 <= a < b < |routes| - 1
          ensures routes[1..][a].route != routes[1..][b].route
        {
          assert routes[1..][a] == routes[a + 1] && routes[1..][b] == routes[b + 1];
        }
      }
      LookupFindsEntry(routes[1..], i - 1);
    }
  }

  /** `routes.forEach(({route, file}) => app.get(route, ... sendFile(file)))`. */
  function RouteLayers(routes: seq<RouteEntry>): (layers: seq<Layer>)
    ensures |layers| == |routes|
    ensures forall i :: 0 <= i < |routes| ==>
      layers[i] == GetRoute(routes[i].route, SendFileOf(200, routes[i].file))
  {
    seq(|routes|, i requires 0 <= i < |routes| => GetRoute(routes[i].route, SendFileOf(200, routes[i].file)))
  }

  /** The route layers answer with the table's file when the table lists the path. */
  lemma {:induction false} RouteLayersRespond(routes: seq<RouteEntry>, env: Env, req: Request)
    ensures Respond(RouteLayers(routes), env, req)
         == if Retrieves(req.verb) && Lookup(routes, PathOf(req.url)).Some?
            then File(200, Lookup(routes, PathOf(req.url)).value)
            else Unhandled
  {
    if routes != [] {
      assert RouteLayers(routes)[1..] == RouteLayers(routes[1..]);
      RouteLayersRespond(routes[1..], env, req);
    }
  }

  /** No path appears twice in the table. */
  lemma RoutesDistinct()
    ensures DistinctRoutes(Routes)
  {
    forall i, j | 0 <= i < j < |Routes| ensures Routes[i].route != Routes[j].route {
      assert Routes[i].route[1] != Routes[j].route[1] || |Routes[i].route| != |Routes[j].route|
          || Routes[i].route[2] != Routes[j].route[2];
    }
  }

  /** The seven paths are distinct, each finds its own file, and neither the
      redirect path nor the worker path is among them. */
  lemma RouteTable()
    ensures DistinctRoutes(Routes)
    ensures Lookup(Routes, "/app") == Some("./static/index.html")
    ensures Lookup(Routes, "/portal") == Some("./static/loader.html")
    ensures Lookup(Routes, "/apps") == Some("./static/apps.html")
    ensures Lookup(Routes, "/gms") == Some("./static/gms.html")
    ensures Lookup(Routes, "/lessons") == Some("./static/agloader.html")
    ensures Lookup(Routes, "/info") == Some("./static/info.html")
    ensures Lookup(Routes, "/edu") == Some("./static/loading.html")
    ensures Lookup(Routes, "/student") == None
    ensures Lookup(Routes, "/worker.js") == None
  {
    RoutesDistinct();
    LookupFindsEntry(Routes, 0);
    LookupFindsEntry(Routes, 1);
    LookupFindsEntry(Routes, 2);
    LookupFindsEntry(Routes, 3);
    LookupFindsEntry(Routes, 4);
    LookupFindsEntry(Routes, 5);
    LookupFindsEntry(Routes, 6);
  }

  /** `app.use(express.static(...))` and the two vendor mounts (index.js order). */
  function StaticLayers(): (layers: seq<Layer>)
    ensures |layers| == 3
    ensures forall i :: 0 <= i < |layers| ==> layers[i].ServeStatic?
  {
    [ServeStatic("/", StaticDir), ServeStatic("/libcurl/", LibcurlDir), ServeStatic("/baremux/", BaremuxDir)]
  }

  /** The redirect, the worker proxy and the 404 fallback, registered last. */
  function TailLayers(): (layers: seq<Layer>)
    ensures |layers| == 3
    ensures |layers| > 0 && layers[|layers| - 1] == UseHandler(SendFileOf(404, NotFoundFile))
    ensures forall i :: 0 <= i < |layers| - 1 ==> layers[i].GetRoute?
  {
    [GetRoute("/student", RedirectTo("/portal")),
     GetRoute("/worker.js", FetchWorker(WorkerUrl)),
     UseHandler(SendFileOf(404, NotFoundFile))]
  }

  /** The stack index.js builds, layer by layer. The 404 handler is its only
      catch-all, and it comes last. */
  function Chain(): (c: seq<Layer>)
    ensures |c| > 0 && c[|c| - 1] == UseHandler(SendFileOf(404, NotFoundFile))
    ensures forall i :: 0 <= i < |c| - 1 ==> !c[i].UseHandler?
  {
    StaticLayers() + RouteLayers(Routes) + TailLayers()
  }

  /** A static hit in one of the three directories, first one wins. */
  function StaticHit(env: Env, req: Request): (hit: Option<Reply>)
    ensures hit.Some? ==> Retrieves(req.verb)
    ensures hit.Some? && hit.value.StaticFile? ==> hit.value.path in Files(env, hit.value.dir)
    ensures hit.Some? && hit.value.StaticFile? ==>
      match hit.value.dir
      case StaticDir => hit.value.path == PathOf(req.url)
      case LibcurlDir => PathOf(req.url) == "/libcurl" + hit.value.path
      case BaremuxDir => PathOf(req.url) == "/baremux" + hit.value.path
    ensures hit.Some? ==> hit.value.StaticFile? || hit.value == Redirect(301, SlashedUrl(req.url))
    ensures hit.Some? && !hit.value.StaticFile? ==>
      PathOf(req.url) == "/libcurl" || PathOf(req.url) == "/baremux"
    ensures Retrieves(req.verb) && PathOf(req.url) in env.staticFiles
            ==> hit == Some(StaticFile(StaticDir, PathOf(req.url)))
  {
    StaticServeRoot(env, req);
    VendorPrefixes();
    var top := StaticServe("/", StaticDir, env, req);
    var libcurl := StaticServe("/libcurl/", LibcurlDir, env, req);
    if top.Some? then top
    else if libcurl.Some? then libcurl
    else StaticServe("/baremux/", BaremuxDir, env, req)
  }

  /** The application as one decision table, in the precedence index.js gives it:
      static files, the two vendor mounts, the route table, the redirect, the
      worker proxy, and 404 for everything else. */
  function Expected(env: Env, req: Request): (r: Reply)
    ensures r != Unhandled
    ensures !Retrieves(req.verb) ==> r == File(404, NotFoundFile)
  {
    var path := PathOf(req.url);
    if !Retrieves(req.verb) then File(404, NotFoundFile)
    else if StaticHit(env, req).Some? then StaticHit(env, req).value
    else if Lookup(Routes, path).Some? then File(200, Lookup(Routes, path).value)
    else if path == "/student" then Redirect(302, "/portal")
    else if path == "/worker.js" then WorkerReply(env.upstream)
    else File(404, NotFoundFile)
  }

  /** One step of the walk: the head layer answers, or the rest of the stack does. */
  lemma RespondStep(stack: seq<Layer>, env: Env, req: Request)
    requires stack != []
    ensures Respond(stack, env, req)
         == if Answer(stack[0], env, req).Some? then Answer(stack[0], env, req).value
            else Respond(stack[1..], env, req)
  {
  }

  /** Three steps of the walk: the first of three layers that answers. */
  lemma RespondThree(a: Layer, b: Layer, c: Layer, env: Env, req: Request)
    ensures Respond([a, b, c], env, req)
         == if Answer(a, env, req).Some? then Answer(a, env, req).value
            else if Answer(b, env, req).Some? then Answer(b, env, req).value
            else if Answer(c, env, req).Some? then Answer(c, env, req).value
            else Unhandled
  {
    RespondStep([a, b, c], env, req);
    assert [a, b, c][1..] == [b, c];
    RespondStep([b, c], env, req);
    assert [b, c][1..] == [c];
    RespondStep([c], env, req);
    assert [c][1..] == [];
  }

  lemma StaticLayersRespond(env: Env, req: Request)
    ensures Respond(StaticLayers(), env, req)
         == if StaticHit(env, req).Some? then StaticHit(env, req).value else Unhandled
  {
    RespondThree(ServeStatic("/", StaticDir), ServeStatic("/libcurl/", LibcurlDir), ServeStatic("/baremux/", BaremuxDir), env, req);
  }

  lemma TailLayersRespond(env: Env, req: Request)
    ensures Respond(TailLayers(), env, req)
         == if Retrieves(req.verb) && PathOf(req.url) == "/student" then Redirect(302, "/portal")
            else if Retrieves(req.verb) && PathOf(req.url) == "/worker.js" then WorkerReply(env.upstream)
            else File(404, NotFoundFile)
  {
    RespondThree(GetRoute("/student", RedirectTo("/portal")), GetRoute("/worker.js", FetchWorker(WorkerUrl)),
                 UseHandler(SendFileOf(404, NotFoundFile)), env, req);
  }

  /** Express's walk of the registered stack gives the decision table's reply. */
  lemma ChainMatchesExpected(env: Env, req: Request)
    ensures Respond(Chain(), env, req) == Expected(env, req)
  {
    StaticLayersRespond(env, req);
    TailLayersRespond(env, req);
    StackMatchesTable(Routes, env, req);
  }

  lemma StackMatchesTable(routes: seq<RouteEntry>, env: Env, req: Request)
    ensures Respond(StaticLayers() + RouteLayers(routes) + TailLayers(), env, req)
         == if StaticHit(env, req).Some? then StaticHit(env, req).value
            else if Retrieves(req.verb) && Lookup(routes, PathOf(req.url)).Some? then File(200, Lookup(routes, PathOf(req.url)).value)
            else Respond(TailLayers(), env, req)
  {
    var front := StaticLayers() + RouteLayers(routes);
    RespondAppend(front, TailLayers(), env, req);
    RespondAppend(StaticLayers(), RouteLayers(routes), env, req);
    StaticLayersRespond(env, req);
    RouteLayersRespond(routes, env, req);
  }

  /** A path outside both vendor mounts can only be a hit in the static directory. */
  lemma VendorMountsMiss(env: Env, req: Request)
    requires !StartsWith(PathOf(req.url), "/libcurl") && !StartsWith(PathOf(req.url), "/baremux")
    requires PathOf(req.url) !in env.staticFiles
    ensures StaticHit(env, req).None?
  {
    MountPrefixes();
    var path := PathOf(req.url);
    assert MountedPath("/libcurl/", path).Some? ==> StartsWith(path, "/libcurl");
    assert MountedPath("/baremux/", path).Some? ==> StartsWith(path, "/baremux");
  }

  /** A string that differs from `prefix` at a position inside both does not
      start with `prefix`. */
  lemma DiffersFrom(s: string, prefix: string, k: nat)
    requires k < |prefix| && k < |s| && s[k] != prefix[k]
    ensures !StartsWith(s, prefix)
  {
    assert |s| < |prefix| || s[..|prefix|][k] != prefix[k];
  }

  /** Neither "/li" nor "/ba" begins `p`: the test the fixed paths pass. */
  predicate AvoidsVendorPrefixes(p: string) {
    |p| >= 3 && !(p[1] == 'l' && p[2] == 'i') && !(p[1] == 'b' && p[2] == 'a')
  }

  lemma RoutesAvoidVendorPrefixes()
    ensures forall i :: 0 <= i < |Routes| ==> AvoidsVendorPrefixes(Routes[i].route)
  {
    assert AvoidsVendorPrefixes(Routes[0].route) && AvoidsVendorPrefixes(Routes[1].route);
    assert AvoidsVendorPrefixes(Routes[2].route) && AvoidsVendorPrefixes(Routes[3].route);
    assert AvoidsVendorPrefixes(Routes[4].route) && AvoidsVendorPrefixes(Routes[5].route);
    assert AvoidsVendorPrefixes(Routes[6].route);
  }

  /** A path that passes the test lies outside both vendor mounts. */
  lemma OutsideVendorMounts(p: string)
    requires AvoidsVendorPrefixes(p)
    ensures !StartsWith(p, "/libcurl") && !StartsWith(p, "/baremux")
  {
    DiffersFrom(p, "/libcurl", if p[1] != 'l' then 1 else 2);
    DiffersFrom(p, "/baremux", if p[1] != 'b' then 1 else 2);
  }

  /** Every path the route table finds passes the test. */
  lemma TablePathAvoidsVendorPrefixes(path: string)
    requires Lookup(Routes, path).Some?
    ensures AvoidsVendorPrefixes(path)
  {
    var i :| 0 <= i < |Routes| && Routes[i].route == path;
    RoutesAvoidVendorPrefixes();
  }

  /** The fixed paths of index.js lie outside the vendor mounts. */
  lemma FixedPathsOutsideMounts(path: string)
    requires Lookup(Routes, path).Some? || path == "/student" || path == "/worker.js"
    ensures !StartsWith(path, "/libcurl") && !StartsWith(path, "/baremux")
  {
    if Lookup(Routes, path).Some? {
      TablePathAvoidsVendorPrefixes(path);
    } else {
      assert AvoidsVendorPrefixes("/student") && AvoidsVendorPrefixes("/worker.js");
    }
    OutsideVendorMounts(path);
  }


  /** A static hit answers for the whole stack: the route table and the tail
      layers are never consulted. */
  lemma StaticHitServes(env: Env, req: Request)
    requires StaticHit(env, req).Some?
    ensures Respond(Chain(), env, req) == StaticHit(env, req).value
  {
    ChainMatchesExpected(env, req);
  }

  /** What the static layers make of a path at or below `/libcurl`: the mount
      itself is redirected (301) to the URL with the slash, and a file below it
      is served from the libcurl directory with the mount stripped. */
  lemma LibcurlHit(env: Env, req: Request, rel: string)
    requires Retrieves(req.verb) && PathOf(req.url) == "/libcurl" + rel
    requires rel == "" || StartsWith(rel, "/")
    requires PathOf(req.url) !in env.staticFiles
    ensures rel == "" ==> StaticHit(env, req) == Some(Redirect(301, SlashedUrl(req.url)))
    ensures rel != "" && rel in env.libcurlFiles ==> StaticHit(env, req) == Some(StaticFile(LibcurlDir, rel))
  {
    VendorPrefixes();
    StaticServeRoot(env, req);
    ServeBelow("/libcurl/", LibcurlDir, env, req, rel);
  }

  /** A path below `/libcurl/` that the libcurl directory does not hold, with no
      static file of that path, gets no static answer: it goes on to the route
      table and the later layers. */
  lemma LibcurlMiss(env: Env, req: Request, rel: string)
    requires PathOf(req.url) == "/libcurl" + rel
    requires StartsWith(rel, "/") && rel !in env.libcurlFiles
    requires PathOf(req.url) !in env.staticFiles
    ensures StaticHit(env, req).None?
  {
    VendorPrefixes();
    StaticServeRoot(env, req);
    ServeBelow("/libcurl/", LibcurlDir, env, req, rel);
    ServeElsewhere("/baremux/", BaremuxDir, env, req, 1);
  }

  /** The same for `/baremux`; the libcurl mount cannot take these paths. */
  lemma BaremuxHit(env: Env, req: Request, rel: string)
    requires Retrieves(req.verb) && PathOf(req.url) == "/baremux" + rel
    requires rel == "" || StartsWith(rel, "/")
    requires PathOf(req.url) !in env.staticFiles
    ensures rel == "" ==> StaticHit(env, req) == Some(Redirect(301, SlashedUrl(req.url)))
    ensures rel != "" && rel in env.baremuxFiles ==> StaticHit(env, req) == Some(StaticFile(BaremuxDir, rel))
  {
    VendorPrefixes();
    StaticServeRoot(env, req);
    ServeElsewhere("/libcurl/", LibcurlDir, env, req, 1);
    ServeBelow("/baremux/", BaremuxDir, env, req, rel);
  }

  /** A path below `/baremux/` that the bare-mux directory does not hold, with no
      static file of that path, gets no static answer. */
  lemma BaremuxMiss(env: Env, req: Request, rel: string)
    requires PathOf(req.url) == "/baremux" + rel
    requires StartsWith(rel, "/") && rel !in env.baremuxFiles
    requires PathOf(req.url) !in env.staticFiles
    ensures StaticHit(env, req).None?
  {
    VendorPrefixes();
    StaticServeRoot(env, req);
    ServeElsewhere("/libcurl/", LibcurlDir, env, req, 1);
    ServeBelow("/baremux/", BaremuxDir, env, req, rel);
  }

  /** Following the 301 at `/libcurl`: the redirect target's pathname is
      `/libcurl/`, which the libcurl directory answers as its "/". */
  lemma LibcurlRedirectFollowed(env: Env, req: Request)
    requires Retrieves(req.verb) && PathOf(req.url) == "/libcurl"
    ensures PathOf(SlashedUrl(req.url)) == "/libcurl/"
    ensures "/libcurl/" !in env.staticFiles && "/" in env.libcurlFiles ==>
      Respond(Chain(), env, Request(req.verb, SlashedUrl(req.url))) == StaticFile(LibcurlDir, "/")
  {
    SlashedPath(req.url);
    if "/libcurl/" !in env.staticFiles && "/" in env.libcurlFiles {
      assert "/libcurl" + "/" == "/libcurl/";
      LibcurlMountServes(env, Request(req.verb, SlashedUrl(req.url)), "/");
    }
  }

  /** `/libcurl` without its trailing slash is always redirected (301),
      whatever the libcurl directory holds, to the same URL with '/' after its
      pathname; following that redirect reaches the libcurl directory's "/". */
  lemma LibcurlMountRootRedirects(env: Env, req: Request)
    requires Retrieves(req.verb) && PathOf(req.url) == "/libcurl"
    requires "/libcurl" !in env.staticFiles
    ensures Respond(Chain(), env, req) == Redirect(301, SlashedUrl(req.url))
    ensures PathOf(SlashedUrl(req.url)) == "/libcurl/"
    ensures "/libcurl/" !in env.staticFiles && "/" in env.libcurlFiles ==>
      Respond(Chain(), env, Request(req.verb, SlashedUrl(req.url))) == StaticFile(LibcurlDir, "/")
  {
    assert PathOf(req.url) == "/libcurl" + "";
    LibcurlHit(env, req, "");
    StaticHitServes(env, req);
    LibcurlRedirectFollowed(env, req);
  }

  /** Following the 301 at `/baremux` reaches the bare-mux directory's "/". */
  lemma BaremuxRedirectFollowed(env: Env, req: Request)
    requires Retrieves(req.verb) && PathOf(req.url) == "/baremux"
    ensures PathOf(SlashedUrl(req.url)) == "/baremux/"
    ensures "/baremux/" !in env.staticFiles && "/" in env.baremuxFiles ==>
      Respond(Chain(), env, Request(req.verb, SlashedUrl(req.url))) == StaticFile(BaremuxDir, "/")
  {
    SlashedPath(req.url);
    if "/baremux/" !in env.staticFiles && "/" in env.baremuxFiles {
      assert "/baremux" + "/" == "/baremux/";
      BaremuxMountServes(env, Request(req.verb, SlashedUrl(req.url)), "/");
    }
  }

  /** The same redirect for `/baremux`. */
  lemma BaremuxMountRootRedirects(env: Env, req: Request)
    requires Retrieves(req.verb) && PathOf(req.url) == "/baremux"
    requires "/baremux" !in env.staticFiles
    ensures Respond(Chain(), env, req) == Redirect(301, SlashedUrl(req.url))
    ensures PathOf(SlashedUrl(req.url)) == "/baremux/"
    ensures "/baremux/" !in env.staticFiles && "/" in env.baremuxFiles ==>
      Respond(Chain(), env, Request(req.verb, SlashedUrl(req.url))) == StaticFile(BaremuxDir, "/")
  {
    assert PathOf(req.url) == "/baremux" + "";
    BaremuxHit(env, req, "");
    StaticHitServes(env, req);
    BaremuxRedirectFollowed(env, req);
  }

  /** A GET below `/libcurl/` for a file of the libcurl transport, with no file of
      that path in the static directory, is served from the libcurl directory with
      the mount stripped. */
  lemma LibcurlMountServes(env: Env, req: Request, rel: string)
    requires Retrieves(req.verb) && PathOf(req.url) == "/libcurl" + rel
    requires StartsWith(rel, "/") && rel in env.libcurlFiles
    requires PathOf(req.url) !in env.staticFiles
    ensures Respond(Chain(), env, req) == StaticFile(LibcurlDir, rel)
  {
    LibcurlHit(env, req, rel);
    StaticHitServes(env, req);
  }

  /** The same for the bare-mux directory below `/baremux/`. */
  lemma BaremuxMountServes(env: Env, req: Request, rel: string)
    requires Retrieves(req.verb) && PathOf(req.url) == "/baremux" + rel
    requires StartsWith(rel, "/") && rel in env.baremuxFiles
    requires PathOf(req.url) !in env.staticFiles
    ensures Respond(Chain(), env, req) == StaticFile(BaremuxDir, rel)
  {
    BaremuxHit(env, req, rel);
    StaticHitServes(env, req);
  }

  /** A file in the static directory wins over every later layer, the route
      table included. */
  lemma StaticHitWins(env: Env, req: Request)
    requires Retrieves(req.verb) && PathOf(req.url) in env.staticFiles
    ensures Respond(Chain(), env, req) == StaticFile(StaticDir, PathOf(req.url))
  {
    ChainMatchesExpected(env, req);
  }

  /** A GET for a table path, with no static file of that name, sends exactly the
      file the table lists for it. */
  lemma RouteServesFile(env: Env, req: Request, i: nat)
    requires i < |Routes|
    requires Retrieves(req.verb) && PathOf(req.url) == Routes[i].route
    requires Routes[i].route !in env.staticFiles
    ensures Respond(Chain(), env, req) == File(200, Routes[i].file)
  {
    ChainMatchesExpected(env, req);
    RouteTable();
    LookupFindsEntry(Routes, i);
    FixedPathsOutsideMounts(PathOf(req.url));
    VendorMountsMiss(env, req);
  }

  /** `/student` is answered by a 302 to `/portal`, never by the portal page. */
  lemma StudentRedirects(env: Env, req: Request)
    requires Retrieves(req.verb) && PathOf(req.url) == "/student"
    requires "/student" !in env.staticFiles
    ensures Respond(Chain(), env, req) == Redirect(302, "/portal")
    ensures !Respond(Chain(), env, req).File?
  {
    ChainMatchesExpected(env, req);
    RouteTable();
    FixedPathsOutsideMounts(PathOf(req.url));
    VendorMountsMiss(env, req);
  }

  /** `/worker.js` relays the upstream body as JavaScript exactly when the fetch
      had no error and status 200; otherwise the client gets the fixed 500. */
  lemma WorkerRelays(env: Env, req: Request)
    requires Retrieves(req.verb) && PathOf(req.url) == "/worker.js"
    requires "/worker.js" !in env.staticFiles
    ensures var r := Respond(Chain(), env, req);
      if env.upstream.Fetched? && env.upstream.statusCode == 200
      then r == Sent(200, Some("text/javascript"), env.upstream.body)
      else r == Sent(500, None, "Error fetching worker script")
  {
    ChainMatchesExpected(env, req);
    RouteTable();
    FixedPathsOutsideMounts(PathOf(req.url));
    VendorMountsMiss(env, req);
  }

  /** A request no earlier layer takes gets 404 and the not-found page; this
      covers every method other than GET and HEAD. */
  lemma NotFoundFallback(env: Env, req: Request)
    requires !Retrieves(req.verb)
          || (StaticHit(env, req).None? && Lookup(Routes, PathOf(req.url)).None?
              && PathOf(req.url) != "/student" && PathOf(req.url) != "/worker.js")
    ensures Respond(Chain(), env, req) == File(404, "./static/404.html")
  {
    ChainMatchesExpected(env, req);
  }

  /** The 404 layer is a catch-all: Express's own final handler is never reached. */
  lemma ChainAlwaysAnswers(env: Env, req: Request)
    ensures Respond(Chain(), env, req) != Unhandled
  {
    ChainMatchesExpected(env, req);
  }

  /** The Express app object: its layer stack grows as index.js registers
      middleware and routes. */
  class App {
    var stack: seq<Layer>

    constructor ()
      ensures stack == []
    {
      stack := [];
    }

    /** `app.use(mount, express.static(dir))` */
    method UseStatic(mount: string, dir: Dir)
      modifies this
      ensures stack == old(stack) + [ServeStatic(mount, dir)]
    {
      stack := stack + [ServeStatic(mount, dir)];
    }

    /** `app.use(handler)` */
    method Use(handler: Handler)
      modifies this
      ensures stack == old(stack) + [UseHandler(handler)]
    {
      stack := stack + [UseHandler(handler)];
    }

    /** `app.get(path, handler)` */
    method Get(path: string, handler: Handler)
      modifies this
      ensures stack == old(stack) + [GetRoute(path, handler)]
    {
      stack := stack + [GetRoute(path, handler)];
    }

    /** `app(req, res)`: the reply of the stack as registered so far. Once the
        stack is the one index.js registers, that is the decision table's reply,
        which is never Express's own final handler. */
    function Handle(env: Env, req: Request): (r: Reply)
      reads this
      ensures stack == Chain() ==> r == Expected(env, req) && r != Unhandled
    {
      ChainMatchesExpected(env, req);
      Respond(stack, env, req)
    }
  }

  /** `routes.forEach(({route, file}) => app.get(route, ...))`: one GET route
      per table entry, appended in table order. */
  method RegisterRoutes(app: App, routes: seq<RouteEntry>)
    modifies app
    ensures app.stack == old(app.stack) + RouteLayers(routes)
  {
    for k := 0 to |routes|
      invariant app.stack == old(app.stack) + RouteLayers(routes[..k])
    {
      assert RouteLayers(routes[..k + 1]) == RouteLayers(routes[..k]) + [GetRoute(routes[k].route, SendFileOf(200, routes[k].file))];
      app.Get(routes[k].route, SendFileOf(200, routes[k].file));
    }
    assert routes[..|routes|] == routes;
  }

  /** Registration in index.js order: static middleware and the two vendor
      mounts, the route table, the redirect, the worker proxy, the 404 fallback. */
  method Build() returns (app: App)
    ensures fresh(app)
    ensures app.stack == Chain()
  {
    app := new App();
    app.UseStatic("/", StaticDir);
    app.UseStatic("/libcurl/", LibcurlDir);
    app.UseStatic("/baremux/", BaremuxDir);
    RegisterRoutes(app, Routes);
    app.Get("/student", RedirectTo("/portal"));
    app.Get("/worker.js", FetchWorker(WorkerUrl));
    app.Use(SendFileOf(404, NotFoundFile));
  }
}
