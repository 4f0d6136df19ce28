/**
 * How the two routers' dispatch compare. They share the route-matching code
 * and differ only in the default 404 text and in how often the fallback path
 * passes through TrimSlash.
 */
module Agreement {
  import opened Wrappers
  import opened Gorouter
  import NetHttp
  import FastHttp

  /**
   * A response with the body and headers of any default error dropped,
   * keeping its status. Any other response is kept whole.
   */
  function StatusView(r: Response): (v: Response)
    ensures r.action.Error? ==> v == Response(None, Error(r.action.status, ""))
    ensures !r.action.Error? ==> v == r
  {
    match r.action
    case Error(status, _) => Response(None, Error(status, ""))
    case _ => r
  }

  /**
   * When TrimSlash is idempotent on the request's path, both routers answer
   * it the same way for the same state and tree, up to the text and headers
   * of a default error.
   */
  lemma RoutersAgree(st: RouterState, lk: Lookup, req: Request)
    requires lk.trimSlash(lk.trimSlash(req.path)) == lk.trimSlash(req.path)
    ensures StatusView(NetHttp.Serve(st, lk, req)) == StatusView(FastHttp.Serve(st, lk, req))
  {
    assert FastHttp.FallbackPath(st, lk, req) == lk.trimSlash(req.path);
  }

  /**
   * What StatusView hides: on the default 405 net/http sends the Allow header
   * it set, and fasthttp's `ctx.Error` has cleared it.
   */
  lemma DefaultNotAllowedHeaders(st: RouterState, lk: Lookup, req: Request)
    requires lk.trimSlash(lk.trimSlash(req.path)) == lk.trimSlash(req.path)
    requires NetHttp.Serve(st, lk, req).action == Error(StatusMethodNotAllowed, NotAllowedMessage)
    ensures NetHttp.Serve(st, lk, req).allow == Some(lk.allowed(st.tree, req.verb, lk.trimSlash(req.path)))
    ensures FastHttp.Serve(st, lk, req).action == Error(StatusMethodNotAllowed, NotAllowedMessage)
    ensures FastHttp.Serve(st, lk, req).allow == None
  {
    NetHttp.DefaultErrors(st, lk, req);
    NetHttp.AllowHeaderSet(st, lk, req);
    assert FastHttp.FallbackPath(st, lk, req) == lk.trimSlash(req.path);
  }

  /**
   * Without idempotence the second trim can change the answer: with a
   * TrimSlash that drops at most one leading and one trailing slash, a POST
   * to "//b" makes net/http ask `allowed` about "/b" (nothing: 404) and
   * fasthttp about "b" (GET: 405). fasthttp's default path normalisation
   * collapses repeated slashes, so its router sees "//b" only when that
   * normalisation is turned off.
   */
  lemma DoubleTrimMatters()
    ensures exists st: RouterState, lk: Lookup, req: Request ::
      StatusView(NetHttp.Serve(st, lk, req)) != StatusView(FastHttp.Serve(st, lk, req))
  {
    var st := RouterState([], None, None, None, 0);
    var trimOnce := (s: string) =>
      var a := if |s| > 0 && s[0] == '/' then s[1..] else s;
      if |a| > 0 && a[|a| - 1] == '/' then a[..|a| - 1] else a;
    var lk := Lookup(
      (t: Tree, m: string) => Some(MethodRoot(None, [])),
      (t: Tree, m: string, p: string) => None,
      (t: Tree, m: string, p: string) => [],
      (t: Tree, m: string, p: string) => if p == "b" then MethodGet else "",
      trimOnce);
    var req := Request(MethodPost, "//b", None);
    assert lk.trimSlash(req.path) == "/b";
    assert lk.trimSlash("/b") == "b";
    assert NetHttp.Serve(st, lk, req).action == Error(StatusNotFound, NetHttp.NotFoundMessage);
    assert FastHttp.FallbackPath(st, lk, req) == "b";
    assert FastHttp.Serve(st, lk, req).action == Error(StatusMethodNotAllowed, NotAllowedMessage);
  }
}
