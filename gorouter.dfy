/**
 * What the two gorouter routers (nethttp.go, fasthttp.go) share: HTTP method
 * names, endpoints, the registration log that stands for the routing tree,
 * the tree queries the routers make, requests and responses, the priority
 * numbering that USE maintains, and the route-matching half of serveHTTP.
 */
module Gorouter {
  import opened Wrappers
  import opened Middleware

  const MethodGet := "GET"
  const MethodHead := "HEAD"
  const MethodPost := "POST"
  const MethodPut := "PUT"
  const MethodPatch := "PATCH"
  const MethodDelete := "DELETE"
  const MethodConnect := "CONNECT"
  const MethodOptions := "OPTIONS"
  const MethodTrace := "TRACE"

  /** The methods Mount registers a subrouter under, in the order it registers them. */
  const MountMethods: seq<string> :=
    [MethodGet, MethodHead, MethodPost, MethodPut, MethodPatch, MethodDelete, MethodConnect, MethodOptions, MethodTrace]

  const StatusNotFound: nat := 404
  const StatusMethodNotAllowed: nat := 405
  /** The status text of 405, which both routers write as the default body. */
  const NotAllowedMessage := "Method Not Allowed"

  /** What a handler ultimately is, once its middleware layers are peeled off. */
  datatype Endpoint =
    | Base(id: nat)                                   // a handler supplied by the caller
    | Dispatcher                                      // the router's own serveHTTP
    | Mounted(stripSlashes: nat, target: Option<Endpoint>) // Mount: strip path segments, then call target (maybe nil)
    | FileServer(fs: nat, strippedPrefix: Option<string>) // net/http FileServer, maybe inside StripPrefix
    | FSHandler(root: string, strip: int)             // fasthttp FSHandler

  /** A route; its handler may be nil. */
  datatype Route = Route(handler: Option<Endpoint>)

  /** One update of the routing tree; the tree itself is the log of these updates. */
  datatype Registration =
    | WithMiddleware(path: string, batch: Collection)
    | WithRoute(path: string, route: Route)
    | WithSubrouter(path: string, route: Route)

  type Tree = seq<Registration>

  datatype Param = Param(key: string, value: string)
  type Params = seq<Param>

  /** The node `tree.Find(method)` returns: its own route and middleware. */
  datatype MethodRoot = MethodRoot(route: Option<Route>, middleware: Collection)

  /** A result of `MatchRoute`: the route and the path parameters it bound. */
  datatype Match = Match(route: Route, params: Params)

  /**
   * The tree queries and path helpers serveHTTP relies on: `tree.Find`,
   * `root.Tree().MatchRoute`, `root.Tree().MatchMiddleware`, `allowed` and
   * `pathutils.TrimSlash`.
   */
  datatype Lookup = Lookup(
    find: (Tree, string) -> Option<MethodRoot>,
    matchRoute: (Tree, string, string) -> Option<Match>,
    matchMiddleware: (Tree, string, string) -> Collection,
    allowed: (Tree, string, string) -> string,
    trimSlash: string -> string)

  /** A request: method, URL path and the route parameters attached to it, if any. */
  datatype Request = Request(verb: string, path: string, params: Option<Params>)

  /** What serving a request does after any header is set. */
  datatype Action =
    | Run(handler: Handler<Endpoint>, req: Request)   // call this handler with this request
    | Error(status: nat, message: string)             // write an error response
    | Done                                            // return without writing anything
    | Panic                                           // a type assertion on a nil handler panics

  /** The value of the `Allow` header set, and the action taken. */
  datatype Response = Response(allow: Option<string>, action: Action)

  /** The router fields serveHTTP reads. */
  datatype RouterState = RouterState(
    tree: Tree,
    fileServer: Option<Endpoint>,
    notFound: Option<Endpoint>,
    notAllowed: Option<Endpoint>,
    middlewareCounter: nat)

  // ---------------------------------------------------------------------
  // Priority numbering kept by USE

  /** The middleware of one USE call, every one given priority p. */
  function Batch(fs: seq<WrapperId>, p: nat): (b: Collection)
    ensures |b| == |fs|
    ensures forall i :: 0 <= i < |fs| ==> b[i].wrapper == fs[i] && b[i].priority == p
  {
    seq(|fs|, i requires 0 <= i < |fs| => Middleware(fs[i], p))
  }

  /** The middleware batches of a tree, in registration order. */
  function Batches(t: Tree): seq<Collection>
  {
    if t == [] then []
    else Batches(t[..|t| - 1]) + (if t[|t| - 1].WithMiddleware? then [t[|t| - 1].batch] else [])
  }

  /**
   * Each batch's middleware share one priority: the counter's value before the
   * batch, counting from start; the counter ends as start plus all batch sizes.
   */
  ghost predicate WellNumbered(b: seq<Collection>, start: nat, counter: nat)
    decreases |b|
  {
    if b == [] then counter == start
    else
      var last := b[|b| - 1];
      |last| <= counter &&
      (forall x :: 0 <= x < |last| ==> last[x].priority == counter - |last|) &&
      WellNumbered(b[..|b| - 1], start, counter - |last|)
  }

  lemma AppendRoute(t: Tree, r: Registration)
    requires !r.WithMiddleware?
    ensures Batches(t + [r]) == Batches(t)
  {
    assert (t + [r])[..|t|] == t;
  }

  lemma AppendBatch(t: Tree, path: string, b: Collection, start: nat, counter: nat)
    requires WellNumbered(Batches(t), start, counter)
    requires forall x :: 0 <= x < |b| ==> b[x].priority == counter
    ensures WellNumbered(Batches(t + [WithMiddleware(path, b)]), start, counter + |b|)
  {
    assert (t + [WithMiddleware(path, b)])[..|t|] == t;
    var bs := Batches(t) + [b];
    assert bs[..|bs| - 1] == Batches(t);
  }

  /** Every priority lies in [start, counter), leaving room for the rest of its batch. */
  lemma {:induction false} NumberedBounds(b: seq<Collection>, start: nat, counter: nat, k: nat, x: nat)
    requires WellNumbered(b, start, counter)
    requires k < |b| && x < |b[k]|
    ensures start <= b[k][x].priority && b[k][x].priority + |b[k]| <= counter
    decreases |b|
  {
    var n := |b|;
    var prefix := b[..n - 1];
    NumberedStart(prefix, start, counter - |b[n - 1]|);
    if k < n - 1 {
      assert prefix[k] == b[k];
      NumberedBounds(prefix, start, counter - |b[n - 1]|, k, x);
    }
  }

  lemma {:induction false} NumberedStart(b: seq<Collection>, start: nat, counter: nat)
    requires WellNumbered(b, start, counter)
    ensures start <= counter
    decreases |b|
  {
    if b != [] {
      NumberedStart(b[..|b| - 1], start, counter - |b[|b| - 1]|);
    }
  }

  /** Middleware of a later USE call always has a strictly higher priority than that of an earlier call. */
  lemma {:induction false} LaterBatchesRankHigher(b: seq<Collection>, start: nat, counter: nat, j: nat, k: nat, x: nat, y: nat)
    requires WellNumbered(b, start, counter)
    requires j < k < |b| && x < |b[j]| && y < |b[k]|
    ensures b[j][x].priority < b[k][y].priority
    decreases |b|
  {
    var n := |b|;
    var prefix := b[..n - 1];
    var rest := counter - |b[n - 1]|;
    assert prefix[j] == b[j];
    if k == n - 1 {
      NumberedBounds(prefix, start, rest, j, x);
    } else {
      assert prefix[k] == b[k];
      LaterBatchesRankHigher(prefix, start, rest, j, k, x, y);
    }
  }

  // ---------------------------------------------------------------------
  // Mount helpers

  /** `strings.Count(path, "/")`. */
  function CountSlashes(s: string): (n: nat)
    ensures n <= |s|
    ensures n == 0 <==> '/' !in s
  {
    if s == [] then 0 else (if s[0] == '/' then 1 else 0) + CountSlashes(s[1..])
  }

  /** The registrations Mount makes: the route under path for every method of MountMethods, in order. */
  function Subrouters(path: string, route: Route): (rs: seq<Registration>)
    ensures |rs| == |MountMethods| == 9
    ensures forall i :: 0 <= i < 9 ==> rs[i] == WithSubrouter(MountMethods[i] + path, route)
  {
    seq(|MountMethods|, i requires 0 <= i < |MountMethods| => WithSubrouter(MountMethods[i] + path, route))
  }

  /** The one route Mount registers: it strips as many segments as the mount path has slashes, then calls h. */
  function MountRoute(path: string, h: Option<Endpoint>): Route
  {
    Route(Some(Mounted(CountSlashes(path), h)))
  }

  /** One step of Mount's loop: the next registration extends the prefix and adds no middleware batch. */
  lemma MountStep(t0: Tree, t: Tree, path: string, route: Route, i: nat)
    requires i < |MountMethods| && t == t0 + Subrouters(path, route)[..i]
    ensures t + [WithSubrouter(MountMethods[i] + path, route)] == t0 + Subrouters(path, route)[..i + 1]
    ensures Batches(t + [WithSubrouter(MountMethods[i] + path, route)]) == Batches(t)
  {
    var regs := Subrouters(path, route);
    assert regs[..i + 1] == regs[..i] + [regs[i]];
    AppendRoute(t, WithSubrouter(MountMethods[i] + path, route));
  }

  // ---------------------------------------------------------------------
  // The 405 answer, written alike by both routers

  /** `serveNotAllowed`: the custom handler if one is set, otherwise a 405 with its status text. */
  function ServeNotAllowed(notAllowed: Option<Endpoint>, req: Request): (a: Action)
    ensures notAllowed.None? ==> a == Error(StatusMethodNotAllowed, NotAllowedMessage)
    ensures notAllowed.Some? ==> a == Run(Leaf(notAllowed.value), req)
  {
    match notAllowed
    case Some(h) => Run(Leaf(h), req)
    case None => Error(StatusMethodNotAllowed, NotAllowedMessage)
  }

  // ---------------------------------------------------------------------
  // Route matching (the first half of serveHTTP)

  /** The request a matched route sees: route parameters are attached only when there are some. */
  function WithParams(req: Request, params: Params): (r: Request)
    ensures r.verb == req.verb && r.path == req.path
    ensures |params| == 0 ==> r == req
    ensures |params| > 0 ==> r.params == Some(params)
  {
    if |params| > 0 then req.(params := Some(params)) else req
  }

  /** The handler run for the method root's own route (request path "/"). */
  function RootChain(counter: nat, mw: Collection, h: Endpoint): Handler<Endpoint>
  {
    if counter > 0 then Composition(StableSort(mw), Leaf(h)) else Leaf(h)
  }

  /** The handler run for a matched route. */
  function RouteChain(counter: nat, rootMw: Collection, treeMw: Collection, h: Endpoint): Handler<Endpoint>
  {
    if counter > 0 then
      Composition(if |treeMw| > 0 then StableSort(Merge(rootMw, treeMw)) else StableSort(rootMw), Leaf(h))
    else Leaf(h)
  }

  /**
   * Without any USE call the bare route handler runs. Otherwise its wrappers,
   * outermost first, are the root's then the matched middleware after a stable
   * sort by priority, whether or not any middleware matched the path.
   */
  lemma RouteChainShape(counter: nat, rootMw: Collection, treeMw: Collection, h: Endpoint)
    ensures counter == 0 ==> RouteChain(counter, rootMw, treeMw, h) == Leaf(h)
    ensures counter > 0 ==>
      RouteChain(counter, rootMw, treeMw, h) == Composition(StableSort(Merge(rootMw, treeMw)), Leaf(h))
    ensures counter > 0 ==>
      Layers(RouteChain(counter, rootMw, treeMw, h)) == WrapperIds(StableSort(Merge(rootMw, treeMw)))
    ensures Core(RouteChain(counter, rootMw, treeMw, h)) == h
  {
    assert Merge(rootMw, []) == rootMw;
    CompositionLayers(StableSort(Merge(rootMw, treeMw)), Leaf(h));
    assert WrapperIds(StableSort(Merge(rootMw, treeMw))) + [] == WrapperIds(StableSort(Merge(rootMw, treeMw)));
  }

  /** The root route's handler: wrapped by the root middleware in priority order when any USE happened. */
  lemma RootChainShape(counter: nat, mw: Collection, h: Endpoint)
    ensures counter == 0 ==> RootChain(counter, mw, h) == Leaf(h)
    ensures counter > 0 ==> Layers(RootChain(counter, mw, h)) == WrapperIds(StableSort(mw))
    ensures Core(RootChain(counter, mw, h)) == h
  {
    CompositionLayers(StableSort(mw), Leaf(h));
    assert WrapperIds(StableSort(mw)) + [] == WrapperIds(StableSort(mw));
  }

  /** The response a route gives the request, or None when dispatch falls through to the fallback chain. */
  function RouteResponse(st: RouterState, lk: Lookup, req: Request): Option<Response>
  {
    match lk.find(st.tree, req.verb)
    case None => None
    case Some(root) =>
      if req.path == "/" then
        if root.route.Some? && root.route.value.handler.Some? then
          Some(Response(None, Run(RootChain(st.middlewareCounter, root.middleware, root.route.value.handler.value), req)))
        else None
      else
        var path := lk.trimSlash(req.path);
        match lk.matchRoute(st.tree, req.verb, path)
        case None => None
        case Some(m) =>
          match m.route.handler
          case None => Some(Response(None, Panic))
          case Some(h) =>
            var mw := lk.matchMiddleware(st.tree, req.verb, path);
            Some(Response(None, Run(RouteChain(st.middlewareCounter, root.middleware, mw, h), WithParams(req, m.params))))
  }

  /** At "/" the root route answers exactly when the method root has a non-nil route handler. */
  lemma RootRouteNeedsHandler(st: RouterState, lk: Lookup, req: Request)
    requires lk.find(st.tree, req.verb).Some? && req.path == "/"
    ensures var root := lk.find(st.tree, req.verb).value;
      RouteResponse(st, lk, req).Some? <==> root.route.Some? && root.route.value.handler.Some?
  {
  }

  /**
   * A route answers with no Allow header and either runs a handler whose core is
   * the route's handler or panics on a nil one.
   */
  lemma RouteAnswers(st: RouterState, lk: Lookup, req: Request)
    requires RouteResponse(st, lk, req).Some?
    ensures var r := RouteResponse(st, lk, req).value;
      r.allow.None? && (r.action.Run? || r.action.Panic?)
    ensures var r := RouteResponse(st, lk, req).value;
      r.action.Run? ==> r.action.req.verb == req.verb && r.action.req.path == req.path
  {
  }

  /** A matched route's request carries the route parameters exactly when the match bound any. */
  lemma MatchedRouteParams(st: RouterState, lk: Lookup, req: Request)
    requires lk.find(st.tree, req.verb).Some? && req.path != "/"
    requires lk.matchRoute(st.tree, req.verb, lk.trimSlash(req.path)).Some?
    ensures var m := lk.matchRoute(st.tree, req.verb, lk.trimSlash(req.path)).value;
      var r := RouteResponse(st, lk, req);
      r.Some? && (m.route.handler.None? <==> r.value.action.Panic?) &&
      (r.value.action.Run? ==> r.value.action.req == (if |m.params| > 0 then req.(params := Some(m.params)) else req))
  {
  }

  /** Sorting a copy of a collection: what `c.Sort()` returns. */
  method SortedCopy(c: Collection) returns (r: Collection)
    ensures r == StableSort(c)
  {
    var a := new Middleware[|c|](i requires 0 <= i < |c| => c[i]);
    assert a[..] == c;
    Sort(a);
    r := a[..];
  }

  /** The route-matching half of serveHTTP, as the routers run it. */
  method RouteRequest(st: RouterState, lk: Lookup, req: Request) returns (r: Option<Response>)
    ensures r == RouteResponse(st, lk, req)
  {
    var root := lk.find(st.tree, req.verb);
    if root.None? {
      return None;
    }
    var node := root.value;
    if req.path == "/" {
      if node.route.Some? && node.route.value.handler.Some? {
        var h: Handler<Endpoint>;
        if st.middlewareCounter > 0 {
          var sorted := SortedCopy(node.middleware);
          var computed := Compose(sorted, Some(Leaf(node.route.value.handler.value)));
          h := computed.value;
        } else {
          h := Leaf(node.route.value.handler.value);
        }
        return Some(Response(None, Run(h, req)));
      }
      return None;
    }
    var path := lk.trimSlash(req.path);
    var matched := lk.matchRoute(st.tree, req.verb, path);
    if matched.None? {
      return None;
    }
    var route := matched.value.route;
    var params := matched.value.params;
    var h: Option<Handler<Endpoint>>;
    var bare := if route.handler.Some? then Some(Leaf(route.handler.value)) else None;
    if st.middlewareCounter > 0 {
      var all: Collection;
      var treeMiddleware := lk.matchMiddleware(st.tree, req.verb, path);
      if |treeMiddleware| > 0 {
        all := SortedCopy(Merge(node.middleware, treeMiddleware));
      } else {
        all := SortedCopy(node.middleware);
      }
      h := Compose(all, bare);
    } else {
      h := bare;
    }
    if h.None? {
      return Some(Response(None, Panic));
    }
    var routed := req;
    if |params| > 0 {
      routed := WithParams(req, params);
    }
    return Some(Response(None, Run(h.value, routed)));
  }
}
