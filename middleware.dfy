/**
 * The middleware package of gorouter (middleware/collection.go): a collection
 * of handler wrappers, how two collections merge, how a collection composes
 * around a handler, and how it is sorted by priority.
 */
module Middleware {
  import opened Wrappers

  /** Identifies the wrapping function of a middleware (a Go `func(Handler) Handler`). */
  type WrapperId = nat

  /** A middleware: the function it wraps handlers with, and its priority (a Go `uint`). */
  datatype Middleware = Middleware(wrapper: WrapperId, priority: nat)

  /** A handler: an endpoint of type E, possibly inside layers of middleware, outermost first. */
  datatype Handler<E> = Leaf(endpoint: E) | Wrapped(wrapper: WrapperId, inner: Handler<E>)

  type Collection = seq<Middleware>

  /** The priority a plain wrapper function reports before WithPriority replaces it. */
  const DefaultPriority: nat := 0

  /** `m.Wrap(h)`: the middleware's function applied to a handler. */
  function Wrap<E>(m: Middleware, h: Handler<E>): Handler<E>
  {
    Wrapped(m.wrapper, h)
  }

  /** `WithPriority(m, p)`: the same wrapper, reporting priority p. */
  function WithPriority(m: Middleware, p: nat): (r: Middleware)
    ensures r.wrapper == m.wrapper && r.priority == p
  {
    m.(priority := p)
  }

  /** The wrappers of a handler, outermost first. */
  function Layers<E>(h: Handler<E>): seq<WrapperId>
  {
    match h
    case Leaf(_) => []
    case Wrapped(w, inner) => [w] + Layers(inner)
  }

  /** The endpoint at the centre of a handler. */
  function Core<E>(h: Handler<E>): E
  {
    match h
    case Leaf(e) => e
    case Wrapped(_, inner) => Core(inner)
  }

  /** The wrapping functions of a collection, in collection order. */
  function WrapperIds(c: Collection): (ws: seq<WrapperId>)
    ensures |ws| == |c|
    ensures forall i :: 0 <= i < |c| ==> ws[i] == c[i].wrapper
  {
    seq(|c|, i requires 0 <= i < |c| => c[i].wrapper)
  }

  // ---------------------------------------------------------------------
  // NewCollection and Merge

  /** `NewCollection(ms...)`: the collection holding exactly the given middleware. */
  function NewCollection(ms: seq<Middleware>): (c: Collection)
    ensures |c| == |ms|
    ensures forall i :: 0 <= i < |ms| ==> c[i] == ms[i]
  {
    ms
  }

  /** `c.Merge(m)`: c followed by m, each in its own order. */
  function Merge(c: Collection, m: Collection): (r: Collection)
    ensures |r| == |c| + |m|
    ensures r[..|c|] == c && r[|c|..] == m
  {
    c + m
  }

  // ---------------------------------------------------------------------
  // Compose

  /** The meaning of `c.Compose(h)` for a non-nil h: `c[0].Wrap(c[1].Wrap(... c[n-1].Wrap(h)))`. */
  function Composition<E>(c: Collection, h: Handler<E>): Handler<E>
    decreases |c|
  {
    if c == [] then h else Wrap(c[0], Composition(c[1..], h))
  }

  /** Composing puts the collection's wrappers, in collection order, outside the handler's own. */
  lemma {:induction false} CompositionLayers<E>(c: Collection, h: Handler<E>)
    ensures Layers(Composition(c, h)) == WrapperIds(c) + Layers(h)
    ensures Core(Composition(c, h)) == Core(h)
  {
    if c != [] {
      CompositionLayers(c[1..], h);
      assert WrapperIds(c) == [c[0].wrapper] + WrapperIds(c[1..]);
    }
  }

  /** Composing a merged collection is composing the first around the composition of the second. */
  lemma {:induction false} ComposeMerge<E>(a: Collection, b: Collection, h: Handler<E>)
    ensures Composition(Merge(a, b), h) == Composition(a, Composition(b, h))
  {
    if a == [] {
      assert Merge(a, b) == b;
    } else {
      assert Merge(a, b)[1..] == Merge(a[1..], b);
      ComposeMerge(a[1..], b, h);
    }
  }

  /** `c.Compose(h)`: nil stays nil; otherwise wraps from the last element inwards to the first outermost. */
  method Compose<E>(c: Collection, h: Option<Handler<E>>) returns (r: Option<Handler<E>>)
    ensures h.None? ==> r.None?
    ensures h.Some? ==> r == Some(Composition(c, h.value))
  {
    if h.None? {
      return None;
    }
    var cur := h.value;
    for i := 0 to |c|
      invariant cur == Composition(c[|c| - i..], h.value)
    {
      assert c[|c| - 1 - i..][1..] == c[|c| - i..];
      cur := Wrap(c[|c| - 1 - i], cur);
    }
    assert c[0..] == c;
    return Some(cur);
  }

  // ---------------------------------------------------------------------
  // Sort

  predicate SortedByPriority(c: Collection)
  {
    forall i, j :: 0 <= i < j < |c| ==> c[i].priority <= c[j].priority
  }

  /** The elements of c whose priority is p, in the order c has them. */
  function OfPriority(c: Collection, p: nat): Collection
  {
    if c == [] then [] else (if c[0].priority == p then [c[0]] else []) + OfPriority(c[1..], p)
  }

  /** s and t hold, for every priority, the same elements in the same order. */
  ghost predicate SamePriorityOrder(s: Collection, t: Collection)
  {
    forall p :: OfPriority(s, p) == OfPriority(t, p)
  }

  /** Inserts m before the first element of s whose priority is not lower. */
  function Insert(m: Middleware, s: Collection): Collection
  {
    if s == [] || m.priority <= s[0].priority then [m] + s else [s[0]] + Insert(m, s[1..])
  }

  /** The stable sort by ascending priority that `sort.SliceStable` computes. */
  function StableSort(c: Collection): Collection
  {
    if c == [] then [] else Insert(c[0], StableSort(c[1..]))
  }

  lemma {:induction false} OfPriorityAppend(a: Collection, b: Collection, p: nat)
    ensures OfPriority(a + b, p) == OfPriority(a, p) + OfPriority(b, p)
  {
    if a == [] {
      assert a + b == b;
    } else {
      var head := if a[0].priority == p then [a[0]] else [];
      var ab := a + b;
      assert ab[0] == a[0] && ab[1..] == a[1..] + b;
      assert OfPriority(ab, p) == head + OfPriority(a[1..] + b, p);
      assert OfPriority(a, p) == head + OfPriority(a[1..], p);
      OfPriorityAppend(a[1..], b, p);
    }
  }

  lemma {:induction false} OfPriorityEmpty(c: Collection, p: nat)
    ensures OfPriority(c, p) == [] <==> forall i :: 0 <= i < |c| ==> c[i].priority != p
  {
    if c != [] {
      OfPriorityEmpty(c[1..], p);
      if OfPriority(c, p) == [] {
        forall i | 0 <= i < |c| ensures c[i].priority != p {
          if i > 0 { assert c[1..][i - 1] == c[i]; }
        }
      }
    }
  }

  lemma {:induction false} InsertPermutes(m: Middleware, s: Collection)
    ensures multiset(Insert(m, s)) == multiset(s) + multiset{m}
  {
    if s != [] && m.priority > s[0].priority {
      InsertPermutes(m, s[1..]);
      assert s == [s[0]] + s[1..];
    }
  }

  lemma {:induction false} InsertSorted(m: Middleware, s: Collection)
    requires SortedByPriority(s)
    ensures SortedByPriority(Insert(m, s))
  {
    if s != [] && m.priority > s[0].priority {
      var rest := Insert(m, s[1..]);
      InsertSorted(m, s[1..]);
      InsertPermutes(m, s[1..]);
      forall k | 0 <= k < |rest| ensures s[0].priority <= rest[k].priority {
        assert rest[k] in multiset(rest);
        if rest[k] != m {
          assert rest[k] in multiset(s[1..]);
          var idx :| 0 <= idx < |s[1..]| && s[1..][idx] == rest[k];
          assert s[idx + 1] == rest[k];
        }
      }
    }
  }

  lemma {:induction false} InsertKeepsTies(m: Middleware, s: Collection, p: nat)
    ensures OfPriority(Insert(m, s), p) == OfPriority([m] + s, p)
  {
    if s == [] || m.priority <= s[0].priority {
    } else {
      InsertKeepsTies(m, s[1..], p);
      assert ([s[0]] + Insert(m, s[1..]))[1..] == Insert(m, s[1..]);
      assert ([m] + s[1..])[1..] == s[1..];
      assert ([m] + s)[1..] == s;
    }
  }

  /** The result of the sort is ordered by priority. */
  lemma {:induction false} StableSortSorted(c: Collection)
    ensures SortedByPriority(StableSort(c))
  {
    if c != [] {
      StableSortSorted(c[1..]);
      InsertSorted(c[0], StableSort(c[1..]));
    }
  }

  /** The result of the sort is a permutation of its input. */
  lemma {:induction false} StableSortPermutes(c: Collection)
    ensures multiset(StableSort(c)) == multiset(c)
  {
    if c != [] {
      StableSortPermutes(c[1..]);
      InsertPermutes(c[0], StableSort(c[1..]));
      assert c == [c[0]] + c[1..];
    }
  }

  /** The sort is stable: elements of equal priority keep their relative order. */
  lemma {:induction false} StableSortStable(c: Collection)
    ensures SamePriorityOrder(StableSort(c), c)
  {
    if c != [] {
      StableSortStable(c[1..]);
      forall p ensures OfPriority(StableSort(c), p) == OfPriority(c, p) {
        InsertKeepsTies(c[0], StableSort(c[1..]), p);
        assert ([c[0]] + StableSort(c[1..]))[1..] == StableSort(c[1..]);
      }
    }
  }

  lemma NothingMatchesEmpty(u: Collection)
    requires SamePriorityOrder([], u)
    ensures u == []
  {
    if u != [] {
      OfPriorityEmpty(u, u[0].priority);
      assert OfPriority([], u[0].priority) == [];
      assert false;
    }
  }

  /** Two sorted collections with the same per-priority orders start with the same priority. */
  lemma SameLeastPriority(t: Collection, u: Collection)
    requires SortedByPriority(t) && SortedByPriority(u) && t != []
    requires SamePriorityOrder(t, u)
    ensures u != [] && u[0].priority == t[0].priority
  {
    var p := t[0].priority;
    OfPriorityEmpty(t, p);
    OfPriorityEmpty(u, p);
    var q := u[0].priority;
    if q < p {
      OfPriorityEmpty(t, q);
      OfPriorityEmpty(u, q);
      assert false;
    } else if q > p {
      assert false;
    }
  }

  /** Equal first priorities and equal per-priority orders give equal heads and equal orders of the tails. */
  lemma SameHeads(t: Collection, u: Collection)
    requires t != [] && u != [] && t[0].priority == u[0].priority
    requires SamePriorityOrder(t, u)
    ensures t[0] == u[0] && SamePriorityOrder(t[1..], u[1..])
  {
    var p := t[0].priority;
    assert OfPriority(t, p) == [t[0]] + OfPriority(t[1..], p);
    assert OfPriority(u, p) == [u[0]] + OfPriority(u[1..], p);
    assert t[0] == OfPriority(t, p)[0] == OfPriority(u, p)[0] == u[0];
    forall p' ensures OfPriority(t[1..], p') == OfPriority(u[1..], p') {
      assert OfPriority(t, p') == OfPriority(u, p');
      if p' == p {
        assert OfPriority(t[1..], p) == OfPriority(t, p)[1..];
        assert OfPriority(u[1..], p) == OfPriority(u, p)[1..];
      } else {
        assert OfPriority(t, p') == OfPriority(t[1..], p');
        assert OfPriority(u, p') == OfPriority(u[1..], p');
      }
    }
  }

  /** A sorted order is determined by its per-priority subsequences. */
  lemma {:induction false} SortedUnique(t: Collection, u: Collection)
    requires SortedByPriority(t) && SortedByPriority(u)
    requires SamePriorityOrder(t, u)
    ensures t == u
    decreases |t|
  {
    if t == [] {
      NothingMatchesEmpty(u);
    } else {
      SameLeastPriority(t, u);
      SameHeads(t, u);
      SortedUnique(t[1..], u[1..]);
      assert t == [t[0]] + t[1..] && u == [u[0]] + u[1..];
    }
  }

  /** Sorting a collection already ordered by priority leaves it as it is. */
  lemma SortedIsFixpoint(c: Collection)
    requires SortedByPriority(c)
    ensures StableSort(c) == c
  {
    StableSortSorted(c);
    StableSortStable(c);
    SortedUnique(StableSort(c), c);
  }

  /** Sorting twice gives the same result as sorting once. */
  lemma StableSortIdempotent(c: Collection)
    ensures StableSort(StableSort(c)) == StableSort(c)
  {
    StableSortSorted(c);
    SortedIsFixpoint(StableSort(c));
  }

  /** Exchanging two neighbours of different priority keeps every per-priority order. */
  lemma SwapNeighbours(s: Collection, j: int)
    requires 0 < j < |s| && s[j - 1].priority != s[j].priority
    ensures SamePriorityOrder(s[j - 1 := s[j]][j := s[j - 1]], s)
  {
    var t := s[j - 1 := s[j]][j := s[j - 1]];
    var pre, post := s[..j - 1], s[j + 1..];
    assert s == pre + [s[j - 1], s[j]] + post;
    assert t == pre + [s[j], s[j - 1]] + post;
    forall p ensures OfPriority(t, p) == OfPriority(s, p) {
      OfPriorityAppend(pre + [s[j - 1], s[j]], post, p);
      OfPriorityAppend(pre, [s[j - 1], s[j]], p);
      OfPriorityAppend(pre + [s[j], s[j - 1]], post, p);
      OfPriorityAppend(pre, [s[j], s[j - 1]], p);
      assert [s[j - 1], s[j]][1..] == [s[j]];
      assert [s[j], s[j - 1]][1..] == [s[j - 1]];
    }
  }

  /** One pass of the insertion sort: moves a[i] left past every element of higher priority. */
  method InsertAt(a: array<Middleware>, i: int)
    requires 0 <= i < a.Length
    requires forall k, l :: 0 <= k < l < i ==> a[k].priority <= a[l].priority
    modifies a
    ensures forall k, l :: 0 <= k < l <= i ==> a[k].priority <= a[l].priority
    ensures SamePriorityOrder(a[..], old(a[..]))
  {
    var j := i;
    while j > 0 && a[j - 1].priority > a[j].priority
      invariant 0 <= j <= i
      invariant forall k, l :: 0 <= k < l <= i && k != j && l != j ==> a[k].priority <= a[l].priority
      invariant forall l :: j < l <= i ==> a[j].priority < a[l].priority
      invariant SamePriorityOrder(a[..], old(a[..]))
    {
      SwapNeighbours(a[..], j);
      a[j - 1], a[j] := a[j], a[j - 1];
      j := j - 1;
    }
  }

  /** `c.Sort()`: sorts the slice in place, stably, by ascending priority. */
  method Sort(a: array<Middleware>)
    modifies a
    ensures a[..] == StableSort(old(a[..]))
  {
    var i := 0;
    while i < a.Length
      invariant 0 <= i <= a.Length
      invariant forall k, l :: 0 <= k < l < i ==> a[k].priority <= a[l].priority
      invariant SamePriorityOrder(a[..], old(a[..]))
    {
      InsertAt(a, i);
      i := i + 1;
    }
    StableSortSorted(old(a[..]));
    StableSortStable(old(a[..]));
    SortedUnique(a[..], StableSort(old(a[..])));
  }
}
