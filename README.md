# DogeV4 connection dispatch, modelled in Dafny

DogeV4's `index.js` runs one Node HTTP server that carries three things on one port.
The first is a bare tunnel proxy (`@tomphttp/bare-server-node`, mounted at `/bear/`).
The second is a wisp WebSocket tunnel (`wisp-server-node`). The third is an Express
application that serves static pages.

This project models how that file decides who handles each connection event:

- `Dispatch.OnRequest` is the server's `"request"` handler. The bare server takes the
  request when its `shouldRoute` holds. Otherwise the Express app takes it.
- `Dispatch.OnUpgrade` is the server's `"upgrade"` handler. The bare server's claim
  comes first. Next, a URL ending in `"/wisp/"` goes to wisp. Anything else gets
  `socket.end()`.
- `Site` models the Express app. The class `Site.App` holds the middleware stack.
  Its methods append layers the way `app.use` and `app.get` do, and `Site.Build`
  registers the stack in `index.js` order:
  1. the static directory;
  2. the `/libcurl/` and `/baremux/` mounts;
  3. the seven-entry route table, added by a loop (`routes.forEach`);
  4. the `/student` redirect;
  5. the `/worker.js` proxy;
  6. the 404 fallback.
- `Site.Respond` is Express's top-down walk of that stack. `Site.Expected` writes the
  same app as one flat decision table. `Site.ChainMatchesExpected` proves that the two
  agree for every environment and request.
- `Text` holds the two string tests. One is JavaScript's `endsWith`, applied to the
  whole URL. The other is the pathname Express routes on: the URL before its first `?` or `#`.

Opaque collaborators appear as inputs:

- `bareServer.shouldRoute` is the function parameter `shouldRoute: Request -> bool`.
- What `express.static` can serve is given in `Env`, as one set of paths per directory.
- The result of the upstream fetch of the worker script is `Env.upstream`. It is either
  `Failed` (the callback's `error` was set) or `Fetched(statusCode, body)`.

Express behaviour that the replies depend on is modelled explicitly:

- `app.get` routes answer GET and HEAD. `express.static` serves only those two methods
  and passes everything else on, so a POST to `/portal` gets the 404 page.
- A mount such as `"/libcurl/"` loses its trailing slash. It covers `/libcurl` and
  everything below `/libcurl/`, and it strips that prefix before the file lookup.
  For `/libcurl` itself, without the slash, `express.static` looks up the empty path
  and answers with a 301 redirect to `/libcurl/` (the query kept); `/libcurl/` is
  looked up as `/` in the directory.
- `res.redirect` replies with status 302.
- Express's own final handler is `Reply.Unhandled`. It is proved unreachable, because
  the 404 layer catches everything.

`index.js` registers `express.static` (lines 34-36) before the route table (lines
39-43), so a static file wins over a route-table entry for the same path.

## Model

| member | source | states |
|---|---|---|
| Dispatch.OnRequest | index.js:68-74 | the bare server handles the request exactly when `shouldRoute` holds; otherwise the Express app handles it and gives its stack's reply; never both, never neither |
| Dispatch.OnRequestIsPrecedence | index.js:68-74 | the request handler equals the ordered claim list [bare server] evaluated top-down, with the app as the default |
| Dispatch.UnclaimedRequestAnswered | index.js:68-74 | once the stack is the one index.js registers, an unclaimed request gets the decision-table reply, which is never Express's own final handler |
| Dispatch.BareClaimBeatsRoutes | index.js:68-74 | a bare-server claim takes even a GET for a route-table path that the app would answer with that route's file |
| Dispatch.OnUpgrade | index.js:77-85 | the bare server takes the upgrade iff `shouldRoute`; wisp takes it iff not claimed and the URL ends with "/wisp/"; the socket is ended iff neither holds |
| Dispatch.FirstClaim | index.js:77-85 | an ordered list of claims evaluated top-down yields the default when no claim holds |
| Dispatch.FirstClaimPicksFirst | index.js:77-85 | when claim i holds and no earlier claim does, the list yields claim i's outcome: the first claim that holds decides |
| Dispatch.OnUpgradeIsPrecedence | index.js:77-85 | the upgrade handler equals the ordered claim list [bare server, wisp suffix] evaluated top-down, with "end the socket" as the default |
| Dispatch.BareClaimBeatsWisp | index.js:78-81 | a URL ending in "/wisp/" still goes to the bare server when the bare server claims it |
| Dispatch.WispTakesSuffix | index.js:80-81 | any URL of the form prefix + "/wisp/" goes to wisp when the bare server does not claim it |
| Dispatch.WispSuffixExamples | index.js:80-81 | "/x/wisp/" goes to wisp; "/wisp/?a=1" ends the socket, even though its pathname is "/wisp/" |
| Dispatch.UnclaimedUpgradeEnds | index.js:82-84 | an upgrade claimed by neither the bare server nor the suffix ends the socket, and no delegate gets it |
| Text.EndsWithIffSplit | index.js:80 | the suffix test holds exactly when the URL is some string followed by the suffix |
| Text.EndsWith | index.js:80 | when the test holds, the URL is its own front part followed by the suffix (the converse is `Text.EndsWithIffSplit`) |
| Text.PathOf | index.js:39-43 | the pathname that routes match is the longest prefix of the URL holding neither '?' nor '#': everything before the first of them |
| Text.PathOfDropsQuery | index.js:39-43 | a query string never changes the pathname a route is matched on |
| Text.PathOfPrefix | index.js:39-43 | a front part of the URL free of '?' and '#' is kept whole in the pathname, whatever follows it |
| Text.SlashedPath | index.js:35-36 | the URL with '/' inserted after its pathname has exactly that pathname plus '/' |
| Site.MountedPath | index.js:35-36 | a mount other than the root covers a path exactly when the path is the mount itself (looked up as the empty path) or lies below it (looked up with the mount stripped); the mount plus the looked-up path rebuild the path; the root mount covers every path unchanged |
| Site.MountedBelow | index.js:35-36 | a mount covers its prefix followed by nothing or by a path starting with '/', and looks up exactly that remainder |
| Site.NotMounted | index.js:35-36 | a path that differs from the mount prefix inside it is not covered |
| Site.StaticServe | index.js:34-36 | one `express.static` layer answers only GET or HEAD; a file it serves lies in its own directory and is exactly the requested pathname with the mount stripped (the mount prefix plus the file rebuilds the pathname); its only other answer is the 301 to the URL with '/' added, for the pathname equal to a non-root mount |
| Site.ServeBelow | index.js:35-36 | for its prefix followed by nothing or a '/'-path, a vendor mount redirects the bare prefix, serves the remainder when its directory holds it, and otherwise passes the request on |
| Site.ServeElsewhere | index.js:35-36 | a layer passes on every path that differs from its mount prefix inside it |
| Site.StaticServeRoot | index.js:34 | mounted at "/", the static directory serves exactly its own paths, unchanged, and redirects nothing |
| Site.LibcurlHit | index.js:35 | for `/libcurl` + p with no static file of that path, the static layers redirect when p is empty and serve p from the libcurl directory when it holds p |
| Site.LibcurlMiss | index.js:35 | a path below `/libcurl/` that the libcurl directory does not hold, with no static file of that path, gets no static answer, so it goes on to the later layers |
| Site.BaremuxMiss | index.js:36 | the same for a path below `/baremux/` that the bare-mux directory does not hold |
| Site.BaremuxHit | index.js:36 | the same for `/baremux` + p and the bare-mux directory; the libcurl mount never takes these paths |
| Site.StaticHitServes | index.js:34-43 | when a static layer answers, that is the whole stack's reply |
| Site.LibcurlMountRootRedirects | index.js:35 | a GET for `/libcurl` without the slash is answered with a 301 to the URL with '/' after its pathname, whatever the directory holds; the target's pathname is `/libcurl/`, which is served as the directory's "/" when present |
| Site.LibcurlRedirectFollowed | index.js:35 | following that redirect reaches `/libcurl/`, served as the libcurl directory's "/" |
| Site.BaremuxMountRootRedirects | index.js:36 | the same 301 for `/baremux`; following it reaches the bare-mux directory's "/" |
| Site.BaremuxRedirectFollowed | index.js:36 | following the `/baremux` redirect reaches `/baremux/`, served as the bare-mux directory's "/" |
| Site.LibcurlMountServes | index.js:35 | a GET for "/libcurl" + p, with p a file of the libcurl directory and no static file of that path, is served from the libcurl directory as p |
| Site.BaremuxMountServes | index.js:36 | a GET for "/baremux" + p, with p a file of the bare-mux directory and no static file of that path, is served from the bare-mux directory as p |
| Site.StaticHit | index.js:34-36 | the first answer of the static directory, the libcurl mount and the bare-mux mount; a hit is only for GET or HEAD; a served file is present in its directory and is the requested pathname itself (static directory) or the pathname after `/libcurl` or `/baremux`; the only other hit is the 301 to the URL with '/' added, and only for the pathnames `/libcurl` and `/baremux`; a path present in the static directory is always its hit |
| Site.VendorMountsMiss | index.js:35-36 | a path outside both vendor prefixes that is absent from the static directory is not served by any static layer |
| Site.StaticLayersRespond | index.js:34-36 | the three static layers reply with the first directory that holds the path, checked in registration order |
| Site.StaticHitWins | index.js:34-43 | a GET for a file in the static directory is served from there, before the route table or any later handler |
| Site.Lookup | index.js:19-27 | the table lookup finds nothing exactly when no entry has that path |
| Site.LookupFindsEntry | index.js:19-27 | in a table without repeated paths, each entry's path finds exactly that entry's file |
| Site.RoutesDistinct | index.js:19-27 | no path appears twice in the route table |
| Site.RoutesAvoidVendorPrefixes | index.js:19-27 | every route-table path begins with neither "/li" nor "/ba" |
| Site.RouteTable | index.js:19-27 | the seven paths are pairwise distinct, each maps to its listed file (for example /portal to ./static/loader.html and /lessons to ./static/agloader.html), and neither /student nor /worker.js is in the table |
| Site.TablePathAvoidsVendorPrefixes | index.js:19-27 | every path the route table finds begins with neither "/li" nor "/ba" |
| Site.OutsideVendorMounts | index.js:35-36 | a path that begins with neither "/li" nor "/ba" lies under neither vendor mount |
| Site.FixedPathsOutsideMounts | index.js:19-27 | no route-table path, and neither /student nor /worker.js, lies under /libcurl or /baremux |
| Site.RouteLayers | index.js:39-43 | registration makes one GET layer per table entry, in table order, each sending that entry's file with status 200 |
| Site.RegisterRoutes | index.js:39-43 | the `forEach` loop appends exactly those route layers to the app's stack and changes nothing before them |
| Site.RouteLayersRespond | index.js:39-43 | the route layers answer a GET or HEAD with File(200, f) when the table maps the pathname to f, and pass every other request on |
| Site.RouteServesFile | index.js:39-43 | a GET for the i-th table path, with no static file of that name, is answered with exactly the i-th file and status 200 |
| Site.StudentRedirects | index.js:46-48 | GET /student answers with a 302 redirect to /portal, never with a file |
| Site.WorkerReply | index.js:51-59 | the reply is 200 iff the fetch had no error and upstream status 200; then it is text/javascript with the upstream body unchanged; otherwise it is 500 with "Error fetching worker script" |
| Site.WorkerRelays | index.js:51-59 | GET /worker.js through the whole stack yields the 200 relay or the fixed 500, split on the fetch outcome |
| Site.Run | index.js:40-64 | a handler always sends a reply and never hands over to Express's final handler |
| Site.TailLayersRespond | index.js:46-65 | the last three layers send the /student redirect, the worker reply, or else the 404 page |
| Site.NotFoundFallback | index.js:63-65 | a request that no earlier layer takes, including every method other than GET and HEAD, gets status 404 with ./static/404.html |
| Site.ChainAlwaysAnswers | index.js:63-65 | the registered stack always answers, so Express's own final handler is never reached |
| Site.Answer | index.js:34-65 | a layer never answers with the final handler; app.use handlers answer every request; static and GET layers pass on every method other than GET and HEAD |
| Site.Respond | index.js:34-65 | the walk of the stack falls through to Express's final handler only when every layer passes the request on |
| Site.RespondFirstMatch | index.js:34-65 | the stack's reply is the reply of the first layer that answers |
| Site.RespondNoMatch | index.js:34-65 | the stack falls through to the final handler exactly when no layer answers |
| Site.RespondThree | index.js:34-65 | a stack of three layers answers with the first of them that answers |
| Site.RespondAppend | index.js:34-65 | layers registered later are consulted only when every earlier layer passes the request on |
| Site.StackMatchesTable | index.js:34-43 | for any route table, the stack of static layers, route layers and tail layers answers as the static hit, then the table entry, then the tail layers |
| Site.StaticLayers | index.js:34-36 | there are exactly three of them, all static-file layers |
| Site.TailLayers | index.js:46-65 | the last three layers are two GET routes followed by the 404 catch-all |
| Site.Chain | index.js:34-65 | the registered stack ends with the 404 handler, and no earlier layer is a catch-all |
| Site.Expected | index.js:34-65 | the decision table always gives a reply of the app's own, and every method other than GET and HEAD gets the 404 page |
| Site.ChainMatchesExpected | index.js:34-65 | walking the registered stack gives the flat decision table's reply for every environment and request |
| Site.App.Handle | index.js:72 | `app(req, res)` with the stack index.js registers gives the decision table's reply, never Express's final handler |
| Site.App.constructor | index.js:16 | a new app has an empty stack |
| Site.App.UseStatic | index.js:34-36 | `app.use(mount, express.static(dir))` appends one static layer and changes nothing else |
| Site.App.Get | index.js:46-51 | `app.get(path, handler)` appends one GET route layer and changes nothing else |
| Site.App.Use | index.js:63-65 | `app.use(handler)` appends one catch-all layer and changes nothing else |
| Site.Build | index.js:34-65 | registering in index.js order yields exactly the stack `Chain()` that the lemmas above are about |

## Left out

- The body-parsing middleware (index.js:30-31) is not modelled. A request with a malformed JSON or URL-encoded body can fail in these parsers before it reaches any layer that is modelled here.
- Express path matching is modelled as exact equality on the pathname. Express also matches case-insensitively and tolerates a trailing slash (`/portal/`); neither is modelled. Route patterns match the raw pathname; only `express.static` decodes percent-escapes, and that is folded into the sets in `Env`.
- Text.PathOf covers request targets in origin form (starting with `/`). A target in absolute form (`GET http://host/portal`) is routed by Express on its pathname `/portal`; the model keeps the whole string and so answers such a target with the 404 page.
- Conditional, range and HEAD replies are not modelled. Express answers 304 without a body when `If-None-Match` matches the ETag that `res.send`, `res.sendFile` and `express.static` set, answers a `Range` request with 206, and sends no body for HEAD. `Site.WorkerRelays`, `Site.RouteServesFile`, `Site.StaticHitWins` and the other reply lemmas state the full 200 reply for every GET and HEAD; request headers are not part of `Request`.
- `express.static`'s own lookup inside a directory is folded into the sets in `Env`. This covers directory index files, redirects for subdirectories named without their trailing slash, dotfile rules and path normalisation. The redirect at the two vendor mount roots is modelled, not folded.
- `res.sendFile` and `express.static` are modelled as replies naming a file. Streaming the file, and the error reply when that file is missing on disk, are not modelled.
- Headers are not modelled beyond the worker's Content-Type. For example, the charset that Express appends and the default type of the 500 body are left out.
- The bare server and wisp are opaque. `shouldRoute` is a parameter, and `routeRequest`/`routeUpgrade` are outcome tags. What they do with the request and socket is not modelled, and neither is the `/bear/` prefix test inside `shouldRoute`.
- The HTTP fetch of https://cdn.surfdoge.pro/worker.js is network I/O. Its result is an input (`Env.upstream`), and the fetch's URL is recorded in the layer but not interpreted.
- The startup banner and console logging (index.js:87-100, 104-109, 111, 122) are output side effects only.
- Signal handling, `server.close`, `process.exit` (index.js:102-118) and `server.listen(8000)` (index.js:121) are process lifecycle and OS interaction.
- Concurrency between connections is not modelled. Each event is classified by a pure function, so no event can affect another.
- The server's own registration of its two handlers (`server.on`) is modelled as the two functions, not as mutable state.
