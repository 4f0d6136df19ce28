/**
 * The net/http router of gorouter (nethttp.go): construction, middleware and
 * route registration, mounting, the file server, and request dispatch.
 */
module NetHttp {
  import opened Wrappers
  import opened Middleware
  import opened Gorouter

  /** The message `http.NotFound` passes to `http.Error` (which adds a newline to the body). */
  const NotFoundMessage := "404 page not found"

  /** `transformMiddlewareFunc`: one wrapper per net/http middleware function, in order. */
  method TransformMiddlewareFunc(fs: seq<WrapperId>) returns (m: Collection)
    ensures |m| == |fs| && WrapperIds(m) == fs
    ensures forall i :: 0 <= i < |fs| ==> m[i] == Middleware(fs[i], DefaultPriority)
  {
    var a := new Middleware[|fs|];
    for i := 0 to |fs|
      invariant forall k :: 0 <= k < i ==> a[k] == Middleware(fs[k], DefaultPriority)
    {
      a[i] := Middleware(fs[i], DefaultPriority);
    }
    m := a[..];
  }

  /**
   * `newPathSlashesStripper(n)` applied to a request: a copy whose path drops
   * n leading segments (by `pathutils.StripLeadingSlashes`, given here as
   * stripLeading), or "/" when nothing is left; the original is not touched.
   */
  function PathSlashesStripper(stripLeading: (string, nat) -> string, n: nat, req: Request): (r: Request)
    ensures r.verb == req.verb && r.params == req.params
    ensures r.path != ""
    ensures stripLeading(req.path, n) != "" ==> r.path == stripLeading(req.path, n)
    ensures stripLeading(req.path, n) == "" ==> r.path == "/"
  {
    var p := stripLeading(req.path, n);
    req.(path := if p != "" then p else "/")
  }

  /**
   * What a route's endpoint does when it runs, for the endpoint Mount
   * installs: its closure calls the mounted handler on the request rewritten
   * by `newPathSlashesStripper`, and calling a nil handler panics. Other
   * endpoints are the caller's or the library's and are not described (None).
   */
  function RunMounted(stripLeading: (string, nat) -> string, e: Endpoint, req: Request): Option<Action>
  {
    match e
    case Mounted(n, target) =>
      Some(if target.Some? then Run(Leaf(target.value), PathSlashesStripper(stripLeading, n, req)) else Panic)
    case _ => None
  }

  /**
   * Each of the routes Mount registers, when run, calls h (or panics when h is
   * nil) on a copy of the request that keeps its method and parameters and
   * whose path drops as many leading segments as the mount path has slashes,
   * or is "/" when nothing is left.
   */
  lemma MountedRouteStrips(stripLeading: (string, nat) -> string, path: string, h: Option<Endpoint>, req: Request, i: nat)
    requires i < |MountMethods|
    ensures var reg := Subrouters(path, MountRoute(path, h))[i];
      reg.path == MountMethods[i] + path && reg.route.handler.Some? &&
      var a := RunMounted(stripLeading, reg.route.handler.value, req);
      var p := stripLeading(req.path, CountSlashes(path));
      a.Some? && (h.None? <==> a.value == Panic) &&
      (h.Some? ==>
        a.value == Run(Leaf(h.value), a.value.req) &&
        a.value.req.verb == req.verb && a.value.req.params == req.params &&
        a.value.req.path == (if p != "" then p else "/"))
  {
  }

  /** `serveNotFound`: the custom handler if one is set, otherwise a 404. */
  function ServeNotFound(notFound: Option<Endpoint>, req: Request): (a: Action)
    ensures notFound.None? ==> a == Error(StatusNotFound, NotFoundMessage)
    ensures notFound.Some? ==> a == Run(Leaf(notFound.value), req)
  {
    match notFound
    case Some(h) => Run(Leaf(h), req)
    case None => Error(StatusNotFound, NotFoundMessage)
  }

  /** The fallback chain once no route took the request: file server, Allow / 405, 404. */
  function Fallback(st: RouterState, lk: Lookup, req: Request): Response
  {
    var path := lk.trimSlash(req.path);
    if req.verb == MethodGet && st.fileServer.Some? then
      Response(None, Run(Leaf(st.fileServer.value), req))
    else
      var allow := lk.allowed(st.tree, req.verb, path);
      if |allow| > 0 then
        if req.verb == MethodOptions then Response(Some(allow), Done)
        else Response(Some(allow), ServeNotAllowed(st.notAllowed, req))
      else Response(None, ServeNotFound(st.notFound, req))
  }

  /** What serveHTTP does with a request. */
  function Serve(st: RouterState, lk: Lookup, req: Request): Response
  {
    match RouteResponse(st, lk, req)
    case Some(r) => r
    case None => Fallback(st, lk, req)
  }

  /** No route took the request and it is not a GET the file server answers. */
  predicate PastFileServer(st: RouterState, lk: Lookup, req: Request)
  {
    RouteResponse(st, lk, req).None? && !(req.verb == MethodGet && st.fileServer.Some?)
  }

  /** A GET with a file server set is answered by a route or by the file server, never by 405 or 404. */
  lemma FileServerPrecedence(st: RouterState, lk: Lookup, req: Request)
    requires req.verb == MethodGet && st.fileServer.Some?
    ensures Serve(st, lk, req) ==
      if RouteResponse(st, lk, req).Some? then RouteResponse(st, lk, req).value
      else Response(None, Run(Leaf(st.fileServer.value), req))
  {
  }

  /** The Allow header is set exactly when the fallback reaches a non-empty allowed list, and holds that list. */
  lemma AllowHeaderSet(st: RouterState, lk: Lookup, req: Request)
    ensures var allow := lk.allowed(st.tree, req.verb, lk.trimSlash(req.path));
      Serve(st, lk, req).allow.Some? <==> PastFileServer(st, lk, req) && |allow| > 0
    ensures Serve(st, lk, req).allow.Some? ==>
      Serve(st, lk, req).allow.value == lk.allowed(st.tree, req.verb, lk.trimSlash(req.path))
  {
    if RouteResponse(st, lk, req).Some? {
      RouteAnswers(st, lk, req);
    }
  }

  /** The request ends with nothing written exactly when it is an OPTIONS request some method is allowed for. */
  lemma OptionsAnsweredByAllow(st: RouterState, lk: Lookup, req: Request)
    ensures Serve(st, lk, req).action == Done <==>
      PastFileServer(st, lk, req) && req.verb == MethodOptions &&
      |lk.allowed(st.tree, req.verb, lk.trimSlash(req.path))| > 0
  {
    if RouteResponse(st, lk, req).Some? {
      RouteAnswers(st, lk, req);
    }
  }

  /**
   * The default 405 is written exactly when another method is allowed, the
   * request is not OPTIONS and no custom handler is set; the default 404
   * exactly when nothing is allowed and no custom handler is set.
   */
  lemma DefaultErrors(st: RouterState, lk: Lookup, req: Request)
    ensures var allow := lk.allowed(st.tree, req.verb, lk.trimSlash(req.path));
      Serve(st, lk, req).action == Error(StatusMethodNotAllowed, NotAllowedMessage) <==>
      PastFileServer(st, lk, req) && |allow| > 0 && req.verb != MethodOptions && st.notAllowed.None?
    ensures var allow := lk.allowed(st.tree, req.verb, lk.trimSlash(req.path));
      Serve(st, lk, req).action == Error(StatusNotFound, NotFoundMessage) <==>
      PastFileServer(st, lk, req) && |allow| == 0 && st.notFound.None?
  {
    if RouteResponse(st, lk, req).Some? {
      RouteAnswers(st, lk, req);
    }
  }

  /** The net/http router: the fields of Go's `router`. */
  class Router {
    var tree: Tree
    var globalMiddleware: Collection
    var fileServer: Option<Endpoint>
    var notFound: Option<Endpoint>
    var notAllowed: Option<Endpoint>
    var handler: Handler<Endpoint>
    var middlewareCounter: nat

    /** Each USE batch carries the counter value before it, counting from 0. */
    ghost predicate Valid()
      reads this`tree, this`middlewareCounter
    {
      WellNumbered(Batches(tree), 0, middlewareCounter)
    }

    function State(): RouterState
      reads this`tree, this`fileServer, this`notFound, this`notAllowed, this`middlewareCounter
    {
      RouterState(tree, fileServer, notFound, notAllowed, middlewareCounter)
    }

    /** `New(fs...)`: an empty tree, the counter at 0, the global middleware around the dispatcher. */
    constructor New(fs: seq<WrapperId>)
      ensures Valid()
      ensures tree == [] && middlewareCounter == 0
      ensures fileServer.None? && notFound.None? && notAllowed.None?
      ensures |globalMiddleware| == |fs| && WrapperIds(globalMiddleware) == fs
      ensures handler == Composition(globalMiddleware, Leaf(Dispatcher))
      ensures Layers(handler) == fs && Core(handler) == Dispatcher
    {
      var global := TransformMiddlewareFunc(fs);
      var h := Compose(global, Some(Leaf(Dispatcher)));
      CompositionLayers(global, Leaf(Dispatcher));
      tree := [];
      globalMiddleware := global;
      fileServer, notFound, notAllowed := None, None, None;
      handler := h.value;
      middlewareCounter := 0;
    }

    /** `USE`: every middleware of the call gets the counter's value as priority; the counter grows by the batch size. */
    method Use(verb: string, path: string, fs: seq<WrapperId>)
      requires Valid()
      modifies this`tree, this`middlewareCounter
      ensures Valid()
      ensures tree == old(tree) + [WithMiddleware(verb + path, Batch(fs, old(middlewareCounter)))]
      ensures middlewareCounter == old(middlewareCounter) + |fs|
    {
      var c := TransformMiddlewareFunc(fs);
      var m := new Middleware[|c|](i requires 0 <= i < |c| => c[i]);
      for i := 0 to m.Length
        modifies m
        invariant forall k :: 0 <= k < i ==> m[k] == WithPriority(c[k], middlewareCounter)
        invariant forall k :: i <= k < m.Length ==> m[k] == c[k]
      {
        m[i] := WithPriority(m[i], middlewareCounter);
      }
      assert m[..] == Batch(fs, middlewareCounter);
      AppendBatch(tree, verb + path, m[..], 0, middlewareCounter);
      tree := tree + [WithMiddleware(verb + path, m[..])];
      middlewareCounter := middlewareCounter + m.Length;
    }

    /** `Handle`: registers a route for method and path. */
    method Handle(verb: string, path: string, h: Option<Endpoint>)
      requires Valid()
      modifies this`tree
      ensures Valid()
      ensures tree == old(tree) + [WithRoute(verb + path, Route(h))]
    {
      AppendRoute(tree, WithRoute(verb + path, Route(h)));
      tree := tree + [WithRoute(verb + path, Route(h))];
    }

    /** `Mount`: one route that strips the path's segments and calls h, under each of the nine methods. */
    method Mount(path: string, h: Option<Endpoint>)
      requires Valid()
      modifies this`tree
      ensures Valid()
      ensures tree == old(tree) + Subrouters(path, MountRoute(path, h))
    {
      var route := MountRoute(path, h);
      for i := 0 to |MountMethods|
        invariant tree == old(tree) + Subrouters(path, route)[..i]
        invariant Batches(tree) == Batches(old(tree))
      {
        MountStep(old(tree), tree, path, route, i);
        tree := tree + [WithSubrouter(MountMethods[i] + path, route)];
      }
      assert Subrouters(path, route)[..|MountMethods|] == Subrouters(path, route);
    }

    /** `NotFound`: sets the custom 404 handler. */
    method NotFound(h: Option<Endpoint>)
      modifies this`notFound
      ensures notFound == h
    {
      notFound := h;
    }

    /** `NotAllowed`: sets the custom 405 handler. */
    method NotAllowed(h: Option<Endpoint>)
      modifies this`notAllowed
      ensures notAllowed == h
    {
      notAllowed := h;
    }

    /** `ServeFiles`: panics on an empty root; otherwise installs a file server, under StripPrefix when asked. */
    method ServeFiles(fs: nat, root: string, strip: bool) returns (panicked: bool)
      modifies this`fileServer
      ensures panicked <==> root == ""
      ensures panicked ==> fileServer == old(fileServer)
      ensures !panicked ==> fileServer == Some(FileServer(fs, if strip then Some("/" + root + "/") else None))
    {
      if root == "" {
        return true;
      }
      var prefix: Option<string> := None;
      if strip {
        prefix := Some("/" + root + "/");
      }
      fileServer := Some(FileServer(fs, prefix));
      return false;
    }

    /** serveHTTP: a matched route, else the file server for GET, else Allow and OPTIONS or 405, else 404. */
    method Dispatch(lk: Lookup, req: Request) returns (resp: Response)
      ensures resp == Serve(State(), lk, req)
    {
      var routed := RouteRequest(State(), lk, req);
      if routed.Some? {
        return routed.value;
      }
      var path := lk.trimSlash(req.path);
      if req.verb == MethodGet && fileServer.Some? {
        return Response(None, Run(Leaf(fileServer.value), req));
      }
      var allow := lk.allowed(tree, req.verb, path);
      if |allow| > 0 {
        if req.verb == MethodOptions {
          return Response(Some(allow), Done);
        }
        return Response(Some(allow), ServeNotAllowed(notAllowed, req));
      }
      return Response(None, ServeNotFound(notFound, req));
    }
  }
}
