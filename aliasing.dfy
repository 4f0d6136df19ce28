/**
 * Slice sharing in serveHTTP's `root.Middleware().Merge(treeMiddleware).Sort()`
 * (nethttp.go:170, fasthttp.go:171). A Go slice is a window on an array:
 * `append` writes into the array's spare cells when there is room and copies
 * to a fresh array otherwise, and `Sort` permutes the cells it sees in place.
 * When the root's stored slice has spare capacity, the merged slice shares its
 * array, and sorting it rewrites the root's own cells.
 */
module Aliasing {
  import opened Middleware
  import opened Gorouter

  /** The root's stored middleware: the whole backing array, and how many leading cells the slice shows. */
  datatype Stored = Stored(backing: seq<Middleware>, len: nat)

  predicate WellFormed(s: Stored)
  {
    s.len <= |s.backing|
  }

  /** The middleware the root's slice shows. */
  function View(s: Stored): Collection
    requires WellFormed(s)
  {
    s.backing[..s.len]
  }

  /**
   * `root.Middleware().Merge(m).Sort()` as the code is written: the root's
   * memory afterwards, and the collection the handler is composed from.
   */
  function MergeSortAsWritten(s: Stored, m: Collection): (r: (Stored, Collection))
    requires WellFormed(s)
    ensures WellFormed(r.0) && r.0.len == s.len && |r.0.backing| == |s.backing|
    ensures r.1 == StableSort(Merge(View(s), m)) && |r.1| == s.len + |m|
    ensures s.len + |m| > |s.backing| ==> r.0 == s
    ensures s.len + |m| <= |s.backing| ==>
      View(r.0) == r.1[..s.len] && r.0.backing[s.len + |m|..] == s.backing[s.len + |m|..]
  {
    var merged := Merge(View(s), m);
    var sorted := StableSort(merged);
    StableSortPermutes(merged);
    assert |sorted| == |multiset(sorted)| == |multiset(merged)| == |merged|;
    if s.len + |m| <= |s.backing| then
      // append fills the spare cells, and Sort permutes the shared cells in place
      (Stored(sorted + s.backing[s.len + |m|..], s.len), sorted)
    else
      // append copies to a fresh array; the root's memory is not touched
      (s, sorted)
  }

  /**
   * One matched request rewrites the root's middleware: the root holds A at
   * priority 1 with room for one more cell, and the path matches B at
   * priority 0 (registered by an earlier USE). Sorting the shared cells moves
   * B into the root's only visible cell.
   */
  lemma MergeSortRewritesRoot()
    ensures var s := Stored([Middleware(1, 1), Middleware(1, 1)], 1);
      var r := MergeSortAsWritten(s, [Middleware(2, 0)]);
      View(s) == [Middleware(1, 1)] && View(r.0) == [Middleware(2, 0)]
  {
    var s := Stored([Middleware(1, 1), Middleware(1, 1)], 1);
    var merged := Merge(View(s), [Middleware(2, 0)]);
    assert merged == [Middleware(1, 1), Middleware(2, 0)];
    assert merged[1..] == [Middleware(2, 0)];
    assert StableSort([Middleware(2, 0)]) == [Middleware(2, 0)] by {
      assert [Middleware(2, 0)][1..] == [];
    }
    assert Insert(Middleware(1, 1), []) == [Middleware(1, 1)];
    assert StableSort(merged) == [Middleware(2, 0), Middleware(1, 1)];
  }

  /**
   * The evidently intended behaviour: merge into a fresh collection. The
   * handler gets the same sorted chain, and the root's memory is unchanged.
   */
  function MergeSortCopying(s: Stored, m: Collection): (r: (Stored, Collection))
    requires WellFormed(s)
    ensures r.0 == s && View(r.0) == View(s)
    ensures r.1 == StableSort(Merge(View(s), m))
  {
    (s, StableSort(Merge(View(s), m)))
  }

  /**
   * The copying merge is what the route-matching model composes: the handler
   * run for a matched route with tree middleware is the copying merge's
   * collection around the route handler, and both versions hand the current
   * request the same chain.
   */
  lemma CopyingMatchesRouteChain(s: Stored, m: Collection, counter: nat, h: Endpoint)
    requires WellFormed(s) && counter > 0 && |m| > 0
    ensures RouteChain(counter, View(s), m, h) == Composition(MergeSortCopying(s, m).1, Leaf(h))
    ensures MergeSortCopying(s, m).1 == MergeSortAsWritten(s, m).1
  {
  }
}
