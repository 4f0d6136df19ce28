# gorouter request routing core, in Dafny

This repository is a leader-election sidecar. Its own Go code does not decide anything itself.
It configures client-go's leader elector and serves the current leader's name over HTTP through
the vendored `github.com/vardius/gorouter/v4` router. The acquire, renew and release state machine
lives in `k8s.io/client-go/tools/leaderelection`, which is not part of this model. This project models the logic that the repository does ship: gorouter's
middleware algebra, the two routers, and their request dispatch.

- `wrappers.dfy` (`Wrappers`): `Option`, standing for Go's nil.
- `middleware.dfy` (`Middleware`): a middleware is a wrapper function plus a priority.
  A collection is a sequence of them. `NewCollection` and `Merge` are functions. `Compose` is a
  loop proved against `Composition`, where element 0 is the outermost wrapper.
  `Sort` is an in-place stable insertion sort on an array. It is proved equal to the functional
  `StableSort`, whose results are sorted, a permutation, stable and idempotent.
- `gorouter.dfy` (`Gorouter`): what both routers share. This covers HTTP method names,
  endpoints, requests and responses (`Response` = the `Allow` header set + the action taken).
  The routing tree is the log of `WithMiddleware` / `WithRoute` / `WithSubrouter` updates the
  routers make. The tree queries serveHTTP makes (`Find`, `MatchRoute`, `MatchMiddleware`,
  `allowed`, `TrimSlash`) are a `Lookup` record of functions passed in as a parameter. The module
  also holds the priority numbering USE maintains (`WellNumbered`) and the route-matching half of
  serveHTTP (`RouteResponse`, implemented by the method `RouteRequest`).
- `nethttp.dfy` (`NetHttp`) and `fasthttp.dfy` (`FastHttp`): each router is a `Router` class
  with the Go struct's fields. Its methods change them (`Use`, `Handle`, `Mount`, `NotFound`,
  `NotAllowed`, `ServeFiles`) under the invariant `Valid()`: every USE batch carries the counter
  value before it, counting from 0 for net/http and from the number of global middleware for
  fasthttp. `Dispatch` is serveHTTP, proved against the spec function `Serve`.
- `agreement.dfy` (`Agreement`): the two routers answer a request alike, up to the text and
  headers of a default error, whenever `TrimSlash` is idempotent on its path. On the default 405
  only net/http keeps the Allow header, since fasthttp's `ctx.Error` resets the response. A
  concrete `Lookup` shows that the idempotence requirement is needed.
  fasthttp's serveHTTP trims the path a second time before asking `allowed`; net/http does not.
- `aliasing.dfy` (`Aliasing`): the Go slice sharing behind `root.Middleware().Merge(m).Sort()`,
  as written and as evidently intended (see Findings).

## Model

| member | source | states |
|---|---|---|
| `Middleware.NewCollection` | vendor/github.com/vardius/gorouter/v4/middleware/collection.go:11-13 | the collection holds exactly the given middleware, position by position |
| `Middleware.Merge` | vendor/github.com/vardius/gorouter/v4/middleware/collection.go:16-18 | the length is the sum; the first part is `c` and the rest is `m`, each in its own order |
| `Middleware.Compose` | vendor/github.com/vardius/gorouter/v4/middleware/collection.go:21-31 | a nil handler gives nil whatever the collection; otherwise the result is `Composition(c, h)`, i.e. `c[0].Wrap(c[1].Wrap(... c[n-1].Wrap(h)))`, and `h` itself for an empty collection |
| `Middleware.CompositionLayers` | vendor/github.com/vardius/gorouter/v4/middleware/collection.go:26-28 | the composed handler's wrappers, outermost first, are the collection's wrappers in collection order, followed by the handler's own; its core endpoint is unchanged |
| `Middleware.ComposeMerge` | vendor/github.com/vardius/gorouter/v4/middleware/collection.go:26-28 | composing `Merge(a, b)` around `h` equals composing `a` around the composition of `b` around `h` |
| `Middleware.WithPriority` | vendor/github.com/vardius/gorouter/v4/nethttp.go:81 | the re-prioritised middleware keeps its wrapper and reports the given priority |
| `Middleware.Sort` | vendor/github.com/vardius/gorouter/v4/middleware/collection.go:34-40 | the array afterwards holds `StableSort` of its old contents (in place) |
| `Middleware.StableSortSorted` | vendor/github.com/vardius/gorouter/v4/middleware/collection.go:35-37 | the sort's result is non-decreasing in priority |
| `Middleware.StableSortPermutes` | vendor/github.com/vardius/gorouter/v4/middleware/collection.go:35-37 | the sort's result has the same multiset of middleware as its input |
| `Middleware.StableSortStable` | vendor/github.com/vardius/gorouter/v4/middleware/collection.go:35-37 | for every priority, the elements of that priority appear in the same relative order before and after sorting |
| `Middleware.SortedUnique` | vendor/github.com/vardius/gorouter/v4/middleware/collection.go:35-37 | two priority-sorted collections with the same per-priority orders are equal, so a stable sort's result is unique |
| `Middleware.SortedIsFixpoint` | vendor/github.com/vardius/gorouter/v4/middleware/collection.go:35-39 | sorting a collection already ordered by priority returns it unchanged |
| `Middleware.StableSortIdempotent` | vendor/github.com/vardius/gorouter/v4/middleware/collection.go:35-39 | sorting twice gives the same result as sorting once |
| `Gorouter.Batch` | vendor/github.com/vardius/gorouter/v4/nethttp.go:80-82 | the batch of one USE call keeps the functions' order, and every element has the same given priority |
| `Gorouter.NumberedBounds` | vendor/github.com/vardius/gorouter/v4/nethttp.go:78-86 | under the USE numbering every priority is at least the start value, and the priority plus its batch's size is at most the counter |
| `Gorouter.LaterBatchesRankHigher` | vendor/github.com/vardius/gorouter/v4/nethttp.go:78-86 | every middleware of a later USE call has a strictly higher priority than every middleware of an earlier one |
| `Gorouter.CountSlashes` | vendor/github.com/vardius/gorouter/v4/nethttp.go:95 | the slash count is at most the path length, and is zero exactly when the path has no slash |
| `Gorouter.Subrouters` | vendor/github.com/vardius/gorouter/v4/nethttp.go:100-112 | Mount's registrations are exactly nine, one per method GET, HEAD, POST, PUT, PATCH, DELETE, CONNECT, OPTIONS, TRACE in that order, all carrying the same route |
| `Gorouter.ServeNotAllowed` | vendor/github.com/vardius/gorouter/v4/nethttp.go:225-234 | runs the custom 405 handler on the request when one is set, otherwise an error with status 405 and the text "Method Not Allowed"; both routers call it this way (fasthttp.go:226-232), and what that does to the Allow header differs per router (`FastHttp.NotAllowedResponse`) |
| `Gorouter.WithParams` | vendor/github.com/vardius/gorouter/v4/nethttp.go:182-184 | the request keeps its method and path; it is unchanged when there are no route parameters and carries them otherwise |
| `Gorouter.RootChainShape` | vendor/github.com/vardius/gorouter/v4/nethttp.go:150-158 | with the counter at 0 the bare root handler runs; otherwise its wrappers are the root middleware's in stable priority order; the core is the route handler |
| `Gorouter.RouteChainShape` | vendor/github.com/vardius/gorouter/v4/nethttp.go:166-180 | with the counter at 0 the bare route handler runs; otherwise the handler is the stable priority sort of the root middleware followed by the matched middleware, composed around the route handler, whether or not any middleware matched |
| `Gorouter.RootRouteNeedsHandler` | vendor/github.com/vardius/gorouter/v4/fasthttp.go:151-163 | at `/`, a route answers exactly when the method root has a route with a non-nil handler; otherwise dispatch falls through to the fallback chain |
| `Gorouter.RouteAnswers` | vendor/github.com/vardius/gorouter/v4/nethttp.go:147-190 | a route's answer sets no Allow header and either runs a handler on a request with the same method and path, or panics |
| `Gorouter.MatchedRouteParams` | vendor/github.com/vardius/gorouter/v4/nethttp.go:166-188 | a matched route always answers; it panics exactly when its handler is nil; it runs with the route parameters attached only when the match bound some |
| `Gorouter.RouteRequest` | vendor/github.com/vardius/gorouter/v4/nethttp.go:147-190 | the imperative route matching (in-place sort and loop compose) gives exactly `RouteResponse` |
| `NetHttp.TransformMiddlewareFunc` | vendor/github.com/vardius/gorouter/v4/nethttp.go:236-248 | one middleware per function, same length and same order, each wrapping with its own function |
| `NetHttp.PathSlashesStripper` | vendor/github.com/vardius/gorouter/v4/nethttp.go:250-265 | the copy keeps method and parameters; its path is the stripped path, or `/` when that is empty, so it is never empty |
| `NetHttp.MountedRouteStrips` | vendor/github.com/vardius/gorouter/v4/nethttp.go:94-98 | every route Mount registers, when run, calls `h` (or panics when `h` is nil) on a copy of the request with method and parameters kept and a path that drops as many leading segments as the mount path has slashes, or is `/` when nothing is left |
| `NetHttp.ServeNotFound` | vendor/github.com/vardius/gorouter/v4/nethttp.go:217-223 | runs the custom handler when set, otherwise status 404 with the message `http.NotFound` passes to `http.Error`, "404 page not found" |
| `NetHttp.FileServerPrecedence` | vendor/github.com/vardius/gorouter/v4/nethttp.go:194-198 | a GET with a file server set is answered by its route or by the file server, never by the 405 or 404 branches |
| `NetHttp.AllowHeaderSet` | vendor/github.com/vardius/gorouter/v4/nethttp.go:200-211 | the Allow header is set exactly when no route and no file server took the request and the allowed list is non-empty, and it holds that list |
| `NetHttp.OptionsAnsweredByAllow` | vendor/github.com/vardius/gorouter/v4/nethttp.go:200-206 | the request returns with nothing written exactly when it is an OPTIONS request that reaches a non-empty allowed list |
| `NetHttp.DefaultErrors` | vendor/github.com/vardius/gorouter/v4/nethttp.go:200-223 | the default 405 goes out exactly when methods are allowed, the request is not OPTIONS and no custom handler is set; the default 404 exactly when nothing is allowed and no custom handler is set |
| `NetHttp.Router.New` | vendor/github.com/vardius/gorouter/v4/nethttp.go:15-26 | empty tree, `middlewareCounter` at 0, no file server or custom handlers; the handler is the global middleware, in order, around the router's own dispatch |
| `NetHttp.Router.Use` | vendor/github.com/vardius/gorouter/v4/nethttp.go:78-86 | appends one batch whose middleware all carry the old counter as priority; the counter grows by the batch size; the numbering invariant is kept |
| `NetHttp.Router.Handle` | vendor/github.com/vardius/gorouter/v4/nethttp.go:88-92 | appends one route registration for method + path; nothing else changes |
| `NetHttp.Router.Mount` | vendor/github.com/vardius/gorouter/v4/nethttp.go:94-113 | appends exactly the nine subrouter registrations of one mounted route, which records the mount path's slash count and `h` (possibly nil), and adds no middleware; what that route does when run is `NetHttp.MountedRouteStrips` |
| `NetHttp.Router.NotFound` | vendor/github.com/vardius/gorouter/v4/nethttp.go:121-123 | sets the custom 404 handler and nothing else |
| `NetHttp.Router.NotAllowed` | vendor/github.com/vardius/gorouter/v4/nethttp.go:125-127 | sets the custom 405 handler and nothing else |
| `NetHttp.Router.ServeFiles` | vendor/github.com/vardius/gorouter/v4/nethttp.go:129-138 | panics, changing nothing, exactly when the root is empty; otherwise installs a file server, inside `StripPrefix("/"+root+"/")` when asked |
| `NetHttp.Router.Dispatch` | vendor/github.com/vardius/gorouter/v4/nethttp.go:144-215 | serveHTTP's response equals `Serve`: route, else file server for GET, else Allow with OPTIONS silent or 405, else 404 |
| `FastHttp.TransformFastHTTPMiddlewareFunc` | vendor/github.com/vardius/gorouter/v4/fasthttp.go:234-246 | one middleware per function, same length and same order, each wrapping with its own function |
| `FastHttp.MountedRouteStrips` | vendor/github.com/vardius/gorouter/v4/fasthttp.go:95-101 | every route Mount registers, when run, sets the request path to what the path stripper returns for as many segments as the mount path has slashes, then calls `h` (or panics when `h` is nil); method and parameters are kept |
| `FastHttp.ServeNotFound` | vendor/github.com/vardius/gorouter/v4/fasthttp.go:218-224 | runs the custom handler when set, otherwise writes status 404 "Not Found" |
| `FastHttp.FileServerPrecedence` | vendor/github.com/vardius/gorouter/v4/fasthttp.go:196-199 | a GET with a file server set is answered by its route or by the file server, never by the 405 or 404 branches |
| `FastHttp.AllowedThenNotFound` | vendor/github.com/vardius/gorouter/v4/fasthttp.go:165-215 | past the file server, with `allowed` asked about the path trimmed twice when a method root exists and the path is not `/` (once otherwise), a non-empty allowed list gives OPTIONS the Allow header and nothing further, and other methods the 405 handler, with the header only when a custom handler is set; an empty list gets the 404 handler and no header |
| `FastHttp.OptionsAnsweredByAllow` | vendor/github.com/vardius/gorouter/v4/fasthttp.go:202-207 | the request returns with nothing written exactly when it is an OPTIONS request that reaches a non-empty allowed list |
| `FastHttp.NotAllowedResponse` | vendor/github.com/vardius/gorouter/v4/fasthttp.go:203-210 | after `Allow` is set, serveNotAllowed's action runs; the header survives exactly when a custom handler is set, because the default `ctx.Error` (fasthttp.go:230) resets the response, and then it holds the allowed list |
| `FastHttp.AllowHeaderSent` | vendor/github.com/vardius/gorouter/v4/fasthttp.go:202-212 | the Allow header reaches the client exactly when no route and no file server took the request, the allowed list is non-empty, and the request is OPTIONS or a custom 405 handler is set; it holds that list |
| `FastHttp.DefaultErrors` | vendor/github.com/vardius/gorouter/v4/fasthttp.go:202-232 | the default 405 goes out exactly when methods are allowed, the request is not OPTIONS and no custom handler is set; the default 404 exactly when nothing is allowed and no custom handler is set |
| `FastHttp.Router.NewFastHTTPRouter` | vendor/github.com/vardius/gorouter/v4/fasthttp.go:15-27 | empty tree, `middlewareCounter` at the number of global middleware; the handler is the global middleware, in order, around the router's own dispatch |
| `FastHttp.Router.Use` | vendor/github.com/vardius/gorouter/v4/fasthttp.go:79-87 | appends one batch whose middleware all carry the old counter as priority; the counter grows by the batch size; the numbering from the global count is kept |
| `FastHttp.Router.Handle` | vendor/github.com/vardius/gorouter/v4/fasthttp.go:89-93 | appends one route registration for method + path; nothing else changes |
| `FastHttp.Router.Mount` | vendor/github.com/vardius/gorouter/v4/fasthttp.go:95-116 | appends exactly the nine subrouter registrations of one mounted route, which records the mount path's slash count and `h` (possibly nil), and adds no middleware; what that route does when run is `FastHttp.MountedRouteStrips` |
| `FastHttp.Router.NotFound` | vendor/github.com/vardius/gorouter/v4/fasthttp.go:124-126 | sets the custom 404 handler and nothing else |
| `FastHttp.Router.NotAllowed` | vendor/github.com/vardius/gorouter/v4/fasthttp.go:128-130 | sets the custom 405 handler and nothing else |
| `FastHttp.Router.ServeFiles` | vendor/github.com/vardius/gorouter/v4/fasthttp.go:132-138 | panics, changing nothing, exactly when the root is empty; otherwise installs `FSHandler(root, stripSlashes)` |
| `FastHttp.Router.Dispatch` | vendor/github.com/vardius/gorouter/v4/fasthttp.go:144-216 | serveHTTP's response equals `Serve`: route, else file server for GET, else Allow with OPTIONS silent or 405, else 404 |
| `Agreement.RoutersAgree` | vendor/github.com/vardius/gorouter/v4/fasthttp.go:144-216 | when TrimSlash is idempotent on the request's path, both routers give the same response for the same state and request, except for the text and headers of a default error |
| `Agreement.DefaultNotAllowedHeaders` | vendor/github.com/vardius/gorouter/v4/nethttp.go:201-211 | at a path where TrimSlash is idempotent, when net/http sends its default 405, it carries the Allow list, and fasthttp sends the same 405 without the header |
| `Agreement.DoubleTrimMatters` | vendor/github.com/vardius/gorouter/v4/fasthttp.go:165-193 | with a TrimSlash that drops one leading and one trailing slash, a POST to `//b` gets a 404 from net/http (it asks `allowed` about `/b`) but a 405 from fasthttp (it asks about `b`), so the idempotence requirement is needed |
| `Aliasing.MergeSortAsWritten` | vendor/github.com/vardius/gorouter/v4/nethttp.go:170 | the handler gets `StableSort(Merge(root, m))`; when the root's array has room for `m`, the root's visible cells afterwards are the first cells of that sorted result, otherwise the root's memory is unchanged |
| `Aliasing.MergeSortRewritesRoot` | vendor/github.com/vardius/gorouter/v4/nethttp.go:170 | a root holding A (priority 1) with one spare cell, on a path matching B (priority 0), afterwards shows B instead of A |
| `Aliasing.MergeSortCopying` | vendor/github.com/vardius/gorouter/v4/nethttp.go:170 | merging into a fresh collection leaves the root's memory and view unchanged and gives the handler the same sorted chain |
| `Aliasing.CopyingMatchesRouteChain` | vendor/github.com/vardius/gorouter/v4/nethttp.go:166-177 | the chain the route-matching model runs for a matched route with tree middleware is the copying merge's result around the route handler, the same chain the as-written code gives the current request |

## Left out

- election.go, main.go, types.go, doc.go: configuration handed to client-go's elector, flag
  parsing, signal handling, goroutines, the HTTP listener, a constant and a one-field JSON
  record. The election logic behind them is in client-go, which is not part of this model.
- The unsynchronised write of the leader name from the election callback, racing with HTTP
  readers: concurrency is not modelled.
- Concurrent requests: net/http serves each request on its own goroutine, and serveHTTP sorts the
  method root's stored middleware slice in place (nethttp.go:153,170,172; fasthttp.go:154,171,173).
  Requests therefore race on that slice. The model serves one request at a time.
- The internals of `mux.Tree` (`Find`, `MatchRoute`, `MatchMiddleware`, `WithMiddleware`, `WithRoute`,
  `WithSubrouter`, `Compile`, `PrettyPrint`), `allowed`, `pathutils.TrimSlash` and
  `pathutils.StripLeadingSlashes`. Their code is not part of this model. The tree is a log of
  updates, and the queries are the `Lookup` parameter and the `stripLeading` parameter.
- `Compile` and `PrettyPrint` of both routers: they only reach into the tree's internals.
- The GET, POST, PUT, DELETE, PATCH, OPTIONS, HEAD, CONNECT and TRACE shorthands: each one is
  `Handle` with a fixed method name.
- `ServeHTTP` (net/http) and `HandleFastHTTP` (fasthttp) only call the composed `handler`. The model
  states what that handler is (the constructors' contracts). It does not run handler chains.
- What middleware functions, file servers, `StripPrefix`, `FSHandler` and a mounted subrouter do
  when called: requests and responses are values. The model records which handler runs on which
  request; it does not record what that handler writes.
- The type assertion `h.(http.Handler)` inside transformed wrappers: every handler in the model is
  of the router's own kind.
- fasthttp's `NewPathSlashesStripper` is library code and is the `stripPath` parameter. The
  mounted closure rewrites the context's URI in place and then calls `h`; the model gives `h` a
  rewritten request value instead, so it does not capture that the caller's context is changed.
- The `Priority()` of a plain wrapper function is defined in middleware code that is not part of
  this model. It is taken as `DefaultPriority` (0). No contract depends on it, because USE
  overwrites it and the global middleware is never sorted.
- `middleware.WithPriority` is not part of this model either. It is taken to keep the wrapper
  and replace the priority.
- Route handlers may be nil in the model, because route.go (`newRoute`) is not part of it.
  A matched nil handler makes the type assertion panic, and that outcome is modelled as `Panic`.
- Aliasing of slices in the router models. serveHTTP sorts the method root's stored middleware
  slice in place, and `Merge` uses `append`, which may share that slice's backing array. The
  router models sort a copy. `StableSortIdempotent` shows that re-sorting an already sorted stored
  slice changes nothing. The as-written sharing is shown separately in `Aliasing` (see Findings);
  the routers' `RouterState` does not carry the backing array, so that rewrite does not flow into
  later requests in `Serve`.
- fasthttp's `RequestCtx.Error` is library code; it resets the whole response before writing the
  error. The model keeps only the Allow header, so it records that header being dropped on the
  default 405 and 404. It does not record other headers that a middleware set before the error.
- fasthttp's normalisation of `ctx.Path()` (collapsing repeated slashes) is library behaviour. The
  request path is taken as the router receives it.
- Panics are an outcome (`ServeFiles` returns `panicked`, dispatch yields `Panic`). Recovery is not modelled.
- NetHttp.Router.Use: `middlewareCounter` is a Go `uint` and is modelled as an unbounded `nat`;
  wrap-around would need 2^64 registered middleware.
- FastHttp.Router.Use: same as above, the counter does not wrap at 2^64.

## Findings

| source | as written | input that shows it | evidently intended | confidence | as-written member | corrected member |
|---|---|---|---|---|---|---|
| vendor/github.com/vardius/gorouter/v4/nethttp.go:170 (also fasthttp.go:171) | `root.Middleware().Merge(treeMiddleware).Sort()` appends to the root's stored slice and sorts the result in place; with spare capacity this happens in the root's own array | root middleware A at priority 1 in a slice with room for one more; a request whose path matches tree middleware B at priority 0 (an earlier USE); afterwards the root's slice shows B instead of A | merge into a fresh collection, leaving the root's middleware as registered | not executed; needs the stored slice to have spare capacity, which the tree code (not part of this model) decides | `Aliasing.MergeSortRewritesRoot` | `Aliasing.MergeSortCopying` |
