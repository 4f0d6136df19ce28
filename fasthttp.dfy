/**
 * The fasthttp router of gorouter (fasthttp.go): the same design as the
 * net/http router, with the counter starting after the global middleware, a
 * path that may be trimmed twice before the allowed-methods query, and
 * fasthttp's own file handler and error texts.
 */
module FastHttp {
  import opened Wrappers
  import opened Middleware
  import opened Gorouter

  /** `fasthttp.StatusMessage(fasthttp.StatusNotFound)`. */
  const NotFoundMessage := "Not Found"

  /** `transformFastHTTPMiddlewareFunc`: one wrapper per fasthttp middleware function, in order. */
  method TransformFastHTTPMiddlewareFunc(fs: seq<WrapperId>) returns (m: Collection)
    ensures |m| == |fs| && WrapperIds(m) == fs
    ensures forall i :: 0 <= i < |fs| ==> m[i].wrapper == fs[i] && m[i].priority == DefaultPriority
  {
    var a := new Middleware[|fs|];
    var i := 0;
    while i < |fs|
      invariant 0 <= i <= |fs|
      invariant forall k :: 0 <= k < i ==> a[k] == Middleware(fs[k], DefaultPriority)
    {
      a[i] := Middleware(fs[i], DefaultPriority);
      i := i + 1;
    }
    m := a[..];
  }

  /**
   * What a route's endpoint does when it runs, for the endpoint Mount
   * installs: its closure sets the request path to what
   * `fasthttp.NewPathSlashesStripper(n)` returns (given here as stripPath) and
   * then calls the mounted handler; calling a nil handler panics. Other
   * endpoints are the caller's or the library's and are not described (None).
   */
  function RunMounted(stripPath: (string, nat) -> string, e: Endpoint, req: Request): Option<Action>
  {
    match e
    case Mounted(n, target) =>
      Some(if target.Some? then Run(Leaf(target.value), req.(path := stripPath(req.path, n))) else Panic)
    case _ => None
  }

  /**
   * Each of the routes Mount registers, when run, calls h (or panics when h is
   * nil) on the request with only its path rewritten, by the stripper for as
   * many segments as the mount path has slashes.
   */
  lemma MountedRouteStrips(stripPath: (string, nat) -> string, path: string, h: Option<Endpoint>, req: Request, i: nat)
    requires i < |MountMethods|
    ensures var reg := Subrouters(path, MountRoute(path, h))[i];
      reg.path == MountMethods[i] + path && reg.route.handler.Some? &&
      var a := RunMounted(stripPath, reg.route.handler.value, req);
      a.Some? && (h.None? <==> a.value == Panic) &&
      (h.Some? ==>
        a.value == Run(Leaf(h.value), a.value.req) &&
        a.value.req.verb == req.verb && a.value.req.params == req.params &&
        a.value.req.path == stripPath(req.path, CountSlashes(path)))
  {
  }

  /** `serveNotFound`: the custom handler if one is set, otherwise a 404. */
  function ServeNotFound(notFound: Option<Endpoint>, req: Request): (a: Action)
    ensures notFound.None? ==> a == Error(StatusNotFound, NotFoundMessage)
    ensures notFound.Some? ==> a == Run(Leaf(notFound.value), req)
  {
    match notFound
    case Some(h) => Run(Leaf(h), req)
    case None => Error(StatusNotFound, NotFoundMessage)
  }

  /**
   * The response once `Allow` is set and serveNotAllowed runs. A custom
   * handler gets the response with the header already set; the default
   * `ctx.Error` resets the whole response first, so that 405 goes out
   * without the header.
   */
  function NotAllowedResponse(allow: string, notAllowed: Option<Endpoint>, req: Request): (r: Response)
    ensures r.action == ServeNotAllowed(notAllowed, req)
    ensures r.allow.Some? <==> notAllowed.Some?
    ensures r.allow.Some? ==> r.allow.value == allow
  {
    if notAllowed.Some? then Response(Some(allow), ServeNotAllowed(notAllowed, req))
    else Response(None, ServeNotAllowed(notAllowed, req))
  }

  /**
   * The path the fallback chain asks `allowed` about: serveHTTP trims the path
   * once inside the route-matching branch, and trims the result again after it.
   */
  function FallbackPath(st: RouterState, lk: Lookup, req: Request): string
  {
    if lk.find(st.tree, req.verb).Some? && req.path != "/" then lk.trimSlash(lk.trimSlash(req.path))
    else lk.trimSlash(req.path)
  }

  /** The fallback chain once no route took the request: file server, Allow / 405, 404. */
  function Fallback(st: RouterState, lk: Lookup, req: Request): Response
  {
    var path := FallbackPath(st, lk, req);
    if req.verb == MethodGet && st.fileServer.Some? then
      Response(None, Run(Leaf(st.fileServer.value), req))
    else
      var allow := lk.allowed(st.tree, req.verb, path);
      if |allow| > 0 then
        if req.verb == MethodOptions then Response(Some(allow), Done)
        else NotAllowedResponse(allow, st.notAllowed, req)
      else Response(None, ServeNotFound(st.notFound, req))
  }

  /** What serveHTTP does with a request context. */
  function Serve(st: RouterState, lk: Lookup, req: Request): Response
  {
    match RouteResponse(st, lk, req)
    case Some(r) => r
    case None => Fallback(st, lk, req)
  }

  /** No route took the request and it is not a GET the file server answers. */
  predicate PastFileServer(st: RouterState, lk: Lookup, req: Request)
  {
    RouteResponse(st, lk, req).None? && !(req.verb == MethodGet && st.fileServer.Some?)
  }

  /** A GET with a file server set is answered by a route or by the file server, never by 405 or 404. */
  lemma FileServerPrecedence(st: RouterState, lk: Lookup, req: Request)
    requires req.verb == MethodGet && st.fileServer.Some?
    ensures Serve(st, lk, req) ==
      if RouteResponse(st, lk, req).Some? then RouteResponse(st, lk, req).value
      else Response(None, Run(Leaf(st.fileServer.value), req))
  {
  }

  /**
   * An OPTIONS request that reaches a non-empty allowed list gets the Allow
   * header and nothing written; any other method there gets the 405 handler,
   * with the header only when a custom one is set; with nothing allowed, the
   * 404 handler and no header.
   */
  lemma AllowedThenNotFound(st: RouterState, lk: Lookup, req: Request)
    requires PastFileServer(st, lk, req)
    ensures var allow := lk.allowed(st.tree, req.verb, FallbackPath(st, lk, req));
      Serve(st, lk, req) ==
        if |allow| == 0 then Response(None, ServeNotFound(st.notFound, req))
        else if req.verb == MethodOptions then Response(Some(allow), Done)
        else NotAllowedResponse(allow, st.notAllowed, req)
  {
  }

  /**
   * The Allow header reaches the client exactly when no route and no file
   * server took the request, some method is allowed, and the request is
   * OPTIONS or a custom 405 handler is set; it holds the allowed list.
   */
  lemma AllowHeaderSent(st: RouterState, lk: Lookup, req: Request)
    ensures var allow := lk.allowed(st.tree, req.verb, FallbackPath(st, lk, req));
      Serve(st, lk, req).allow.Some? <==>
      PastFileServer(st, lk, req) && |allow| > 0 && (req.verb == MethodOptions || st.notAllowed.Some?)
    ensures Serve(st, lk, req).allow.Some? ==>
      Serve(st, lk, req).allow.value == lk.allowed(st.tree, req.verb, FallbackPath(st, lk, req))
  {
    if RouteResponse(st, lk, req).Some? {
      RouteAnswers(st, lk, req);
    }
  }

  /** The request ends with nothing written exactly when it is an OPTIONS request some method is allowed for. */
  lemma OptionsAnsweredByAllow(st: RouterState, lk: Lookup, req: Request)
    ensures Serve(st, lk, req).action == Done <==>
      PastFileServer(st, lk, req) && req.verb == MethodOptions &&
      |lk.allowed(st.tree, req.verb, FallbackPath(st, lk, req))| > 0
  {
    if RouteResponse(st, lk, req).Some? {
      RouteAnswers(st, lk, req);
    }
  }

  /**
   * The default 405 is written exactly when another method is allowed, the
   * request is not OPTIONS and no custom handler is set; the default 404
   * exactly when nothing is allowed and no custom handler is set.
   */
  lemma DefaultErrors(st: RouterState, lk: Lookup, req: Request)
    ensures var allow := lk.allowed(st.tree, req.verb, FallbackPath(st, lk, req));
      Serve(st, lk, req).action == Error(StatusMethodNotAllowed, NotAllowedMessage) <==>
      PastFileServer(st, lk, req) && |allow| > 0 && req.verb != MethodOptions && st.notAllowed.None?
    ensures var allow := lk.allowed(st.tree, req.verb, FallbackPath(st, lk, req));
      Serve(st, lk, req).action == Error(StatusNotFound, NotFoundMessage) <==>
      PastFileServer(st, lk, req) && |allow| == 0 && st.notFound.None?
  {
    if RouteResponse(st, lk, req).Some? {
      RouteAnswers(st, lk, req);
    }
  }

  /** The fasthttp router: the fields of Go's `fastHTTPRouter`. */
  class Router {
    var tree: Tree
    var globalMiddleware: Collection
    var fileServer: Option<Endpoint>
    var notFound: Option<Endpoint>
    var notAllowed: Option<Endpoint>
    var handler: Handler<Endpoint>
    var middlewareCounter: nat

    /** Each USE batch carries the counter value before it, counting from the number of global middleware. */
    ghost predicate Valid()
      reads this`tree, this`globalMiddleware, this`middlewareCounter
    {
      WellNumbered(Batches(tree), |globalMiddleware|, middlewareCounter)
    }

    function State(): RouterState
      reads this`tree, this`fileServer, this`notFound, this`notAllowed, this`middlewareCounter
    {
      RouterState(tree, fileServer, notFound, notAllowed, middlewareCounter)
    }

    /** `NewFastHTTPRouter(fs...)`: an empty tree, the counter at the number of global middleware. */
    constructor NewFastHTTPRouter(fs: seq<WrapperId>)
      ensures Valid()
      ensures tree == [] && middlewareCounter == |fs|
      ensures fileServer.None? && notFound.None? && notAllowed.None?
      ensures |globalMiddleware| == |fs| && WrapperIds(globalMiddleware) == fs
      ensures handler == Composition(globalMiddleware, Leaf(Dispatcher))
      ensures Layers(handler) == fs && Core(handler) == Dispatcher
    {
      var global := TransformFastHTTPMiddlewareFunc(fs);
      var h := Compose(global, Some(Leaf(Dispatcher)));
      CompositionLayers(global, Leaf(Dispatcher));
      tree := [];
      globalMiddleware := global;
      fileServer, notFound, notAllowed := None, None, None;
      handler := h.value;
      middlewareCounter := |global|;
    }

    /** `USE`: every middleware of the call gets the counter's value as priority; the counter grows by the batch size. */
    method Use(verb: string, path: string, fs: seq<WrapperId>)
      requires Valid()
      modifies this`tree, this`middlewareCounter
      ensures Valid()
      ensures tree == old(tree) + [WithMiddleware(verb + path, Batch(fs, old(middlewareCounter)))]
      ensures middlewareCounter == old(middlewareCounter) + |fs|
    {
      var c := TransformFastHTTPMiddlewareFunc(fs);
      var m := new Middleware[|c|](i requires 0 <= i < |c| => c[i]);
      for i := 0 to m.Length
        modifies m
        invariant forall k :: 0 <= k < i ==> m[k] == WithPriority(c[k], middlewareCounter)
        invariant forall k :: i <= k < m.Length ==> m[k] == c[k]
      {
        m[i] := WithPriority(m[i], middlewareCounter);
      }
      assert m[..] == Batch(fs, middlewareCounter);
      AppendBatch(tree, verb + path, m[..], |globalMiddleware|, middlewareCounter);
      tree := tree + [WithMiddleware(verb + path, m[..])];
      middlewareCounter := middlewareCounter + m.Length;
    }

    /** `Handle`: registers a route for method and path. */
    method Handle(verb: string, path: string, h: Option<Endpoint>)
      requires Valid()
      modifies this`tree
      ensures Valid()
      ensures tree == old(tree) + [WithRoute(verb + path, Route(h))]
    {
      AppendRoute(tree, WithRoute(verb + path, Route(h)));
      tree := tree + [WithRoute(verb + path, Route(h))];
    }

    /** `Mount`: one route that strips the path's segments and calls h, under each of the nine methods. */
    method Mount(path: string, h: Option<Endpoint>)
      requires Valid()
      modifies this`tree
      ensures Valid()
      ensures tree == old(tree) + Subrouters(path, MountRoute(path, h))
    {
      var route := MountRoute(path, h);
      for i := 0 to |MountMethods|
        invariant tree == old(tree) + Subrouters(path, route)[..i]
        invariant Batches(tree) == Batches(old(tree))
      {
        MountStep(old(tree), tree, path, route, i);
        tree := tree + [WithSubrouter(MountMethods[i] + path, route)];
      }
      assert Subrouters(path, route)[..|MountMethods|] == Subrouters(path, route);
    }

    /** `NotFound`: sets the custom 404 handler. */
    method NotFound(h: Option<Endpoint>)
      modifies this`notFound
      ensures notFound == h
    {
      notFound := h;
    }

    /** `NotAllowed`: sets the custom 405 handler. */
    method NotAllowed(h: Option<Endpoint>)
      modifies this`notAllowed
      ensures notAllowed == h
    {
      notAllowed := h;
    }

    /** `ServeFiles`: panics on an empty root; otherwise installs `fasthttp.FSHandler(root, stripSlashes)`. */
    method ServeFiles(root: string, stripSlashes: int) returns (panicked: bool)
      modifies this`fileServer
      ensures panicked <==> root == ""
      ensures panicked ==> fileServer == old(fileServer)
      ensures !panicked ==> fileServer == Some(FSHandler(root, stripSlashes))
    {
      if root == "" {
        return true;
      }
      fileServer := Some(FSHandler(root, stripSlashes));
      return false;
    }

    /** serveHTTP: a matched route, else the file server for GET, else Allow and OPTIONS or 405, else 404. */
    method Dispatch(lk: Lookup, req: Request) returns (resp: Response)
      ensures resp == Serve(State(), lk, req)
    {
      var path := req.path;
      var routed := RouteRequest(State(), lk, req);
      if routed.Some? {
        return routed.value;
      }
      if lk.find(tree, req.verb).Some? && path != "/" {
        path := lk.trimSlash(path);
      }
      path := lk.trimSlash(path);
      if req.verb == MethodGet && fileServer.Some? {
        return Response(None, Run(Leaf(fileServer.value), req));
      }
      var allow := lk.allowed(tree, req.verb, path);
      if |allow| > 0 {
        if req.verb == MethodOptions {
          return Response(Some(allow), Done);
        }
        return NotAllowedResponse(allow, notAllowed, req);
      }
      return Response(None, ServeNotFound(notFound, req));
    }
  }
}
