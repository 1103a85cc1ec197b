/** The two connection handlers index.js attaches to its single HTTP server: the
    "request" handler for plain requests and the "upgrade" handler for protocol
    upgrades. Both consult the bare server first; its `shouldRoute` is an opaque
    library predicate and appears here as the parameter `shouldRoute`. */
module Dispatch {
  import opened Text
  import opened Site

  /** Who handles a plain request: `bareServer.routeRequest`, or the Express app
      with the reply it gives. */
  datatype RequestOutcome = BareRequest | AppRequest(reply: Reply)

  /** Who takes an upgrade's socket: `bareServer.routeUpgrade`,
      `wisp.routeRequest`, or nobody, and the socket is ended. */
  datatype UpgradeOutcome = BareUpgrade | WispUpgrade | SocketEnded

  const WispSuffix := "/wisp/"

  /** `server.on("request", ...)` */
  function OnRequest(shouldRoute: Request -> bool, app: App, env: Env, req: Request): (o: RequestOutcome)
    reads app
    ensures o == BareRequest <==> shouldRoute(req)
    ensures o != BareRequest ==> o == AppRequest(app.Handle(env, req))
  {
    if shouldRoute(req) then BareRequest else AppRequest(app.Handle(env, req))
  }

  /** `server.on("upgrade", ...)`: the bare server first, then wisp for a URL
      ending in "/wisp/", and otherwise `socket.end()`. */
  function OnUpgrade(shouldRoute: Request -> bool, req: Request): (o: UpgradeOutcome)
    ensures o == BareUpgrade <==> shouldRoute(req)
    ensures o == WispUpgrade <==> !shouldRoute(req) && EndsWith(req.url, WispSuffix)
    ensures o == SocketEnded <==> !shouldRoute(req) && !EndsWith(req.url, WispSuffix)
  {
    if shouldRoute(req) then BareUpgrade
    else if EndsWith(req.url, WispSuffix) then WispUpgrade
    else SocketEnded
  }

  /** A classification step: a test and the outcome it selects. */
  datatype Claim<T> = Claim(holds: bool, outcome: T)

  /** Precedence as data: the first claim that holds decides, `otherwise` when none does. */
  function FirstClaim<T>(claims: seq<Claim<T>>, otherwise: T): (o: T)
    ensures (forall i :: 0 <= i < |claims| ==> !claims[i].holds) ==> o == otherwise
  {
    if claims == [] then otherwise
    else if claims[0].holds then claims[0].outcome
    else FirstClaim(claims[1..], otherwise)
  }

  lemma {:induction false} FirstClaimPicksFirst<T>(claims: seq<Claim<T>>, otherwise: T, i: nat)
    requires i < |claims| && claims[i].holds
    requires forall j :: 0 <= j < i ==> !claims[j].holds
    ensures FirstClaim(claims, otherwise) == claims[i].outcome
  {
    if i > 0 {
      FirstClaimPicksFirst(claims[1..], otherwise, i - 1);
    }
  }

  /** The upgrade handler is the precedence list (bare server, wisp suffix)
      with "end the socket" as the default. */
  lemma OnUpgradeIsPrecedence(shouldRoute: Request -> bool, req: Request)
    ensures OnUpgrade(shouldRoute, req)
         == FirstClaim([Claim(shouldRoute(req), BareUpgrade),
                        Claim(EndsWith(req.url, WispSuffix), WispUpgrade)], SocketEnded)
  {
  }

  /** The request handler is the precedence list (bare server) with the app as
      the default. */
  lemma OnRequestIsPrecedence(shouldRoute: Request -> bool, app: App, env: Env, req: Request)
    ensures OnRequest(shouldRoute, app, env, req)
         == FirstClaim([Claim(shouldRoute(req), BareRequest)], AppRequest(app.Handle(env, req)))
  {
  }

  /** The bare server's claim wins over the wisp suffix. */
  lemma BareClaimBeatsWisp(shouldRoute: Request -> bool, prefix: string, verb: string)
    requires shouldRoute(Request(verb, prefix + WispSuffix))
    ensures OnUpgrade(shouldRoute, Request(verb, prefix + WispSuffix)) == BareUpgrade
  {
  }

  /** Any URL whose last six characters are "/wisp/" goes to wisp when the bare
      server passes, whatever precedes them. */
  lemma WispTakesSuffix(shouldRoute: Request -> bool, prefix: string, verb: string)
    requires !shouldRoute(Request(verb, prefix + WispSuffix))
    ensures OnUpgrade(shouldRoute, Request(verb, prefix + WispSuffix)) == WispUpgrade
  {
  }

  /** The suffix test reads the whole URL: "/x/wisp/" matches, while
      "/wisp/?a=1", whose pathname is "/wisp/", does not. */
  lemma WispSuffixExamples(shouldRoute: Request -> bool)
    requires !shouldRoute(Request("GET", "/x/wisp/"))
    requires !shouldRoute(Request("GET", "/wisp/?a=1"))
    ensures OnUpgrade(shouldRoute, Request("GET", "/x/wisp/")) == WispUpgrade
    ensures OnUpgrade(shouldRoute, Request("GET", "/wisp/?a=1")) == SocketEnded
    ensures PathOf("/wisp/?a=1") == "/wisp/"
  {
    assert "/x" + WispSuffix == "/x/wisp/";
    WispTakesSuffix(shouldRoute, "/x", "GET");
    var query := "/wisp/?a=1";
    assert query[|query| - |WispSuffix|..][0] != WispSuffix[0];
    assert "/wisp/" + "?" + "a=1" == query;
    PathOfDropsQuery("/wisp/", "a=1");
  }

  /** An upgrade claimed by neither ends the socket, whatever the app would
      have answered for the same path. */
  lemma UnclaimedUpgradeEnds(shouldRoute: Request -> bool, req: Request)
    requires !shouldRoute(req) && !EndsWith(req.url, WispSuffix)
    ensures OnUpgrade(shouldRoute, req) == SocketEnded
  {
  }

  /** Once index.js has registered its stack, a request the bare server passes
      on gets the decision table's reply, and that reply is never Express's own
      final handler: every plain request is answered by exactly one of the two. */
  lemma UnclaimedRequestAnswered(shouldRoute: Request -> bool, app: App, env: Env, req: Request)
    requires app.stack == Chain()
    requires !shouldRoute(req)
    ensures OnRequest(shouldRoute, app, env, req) == AppRequest(Expected(env, req))
    ensures OnRequest(shouldRoute, app, env, req).reply != Unhandled
  {
    ChainMatchesExpected(env, req);
  }

  /** The bare server's claim is absolute: it takes even a GET for a route-table
      path the app would serve. */
  lemma BareClaimBeatsRoutes(shouldRoute: Request -> bool, app: App, env: Env, req: Request, i: nat)
    requires app.stack == Chain()
    requires i < |Routes| && req.verb == "GET" && PathOf(req.url) == Routes[i].route
    requires Routes[i].route !in env.staticFiles
    requires shouldRoute(req)
    ensures app.Handle(env, req) == File(200, Routes[i].file)
    ensures OnRequest(shouldRoute, app, env, req) == BareRequest
  {
    RouteServesFile(env, req, i);
  }
}
