/** Object graphs: what can be reached from a root. */
module Graphs {
  type Oid = nat

  /** A kernel object: its own data and the objects it refers to. */
  datatype Node = Node(payload: int, kids: seq<Oid>)

  type Heap = map<Oid, Node>

  /** A path from r whose steps follow references. */
  ghost predicate Path(h: Heap, r: Oid, p: seq<Oid>) {
    && p != [] && p[0] == r
    && (forall i :: 0 <= i < |p| ==> p[i] in h)
    && (forall i :: 0 <= i < |p| - 1 ==> p[i + 1] in h[p[i]].kids)
  }

  ghost predicate Reaches(h: Heap, r: Oid, o: Oid) {
    exists p :: Path(h, r, p) && p[|p| - 1] == o
  }

  /** The objects reachable from r. */
  ghost function Reach(h: Heap, r: Oid): set<Oid> {
    set o | o in h && Reaches(h, r, o)
  }

  /** The graph reachable from r: payloads and references, so also sharing and cycles. */
  ghost function Graph(h: Heap, r: Oid): Heap {
    map o | o in Reach(h, r) :: h[o]
  }

  /** Nothing reachable from r dangles. */
  ghost predicate Sound(h: Heap, r: Oid) {
    r in h && forall o, k :: o in Reach(h, r) && k in h[o].kids ==> k in h
  }

  /** A set that holds r and follows every reference. */
  ghost predicate Closed(h: Heap, r: Oid, s: set<Oid>) {
    r in s && (forall o :: o in s ==> o in h) && (forall o, k :: o in s && k in h[o].kids ==> k in s)
  }

  lemma RootReached(h: Heap, r: Oid)
    requires r in h
    ensures r in Reach(h, r)
  {
    assert Path(h, r, [r]) && [r][|[r]| - 1] == r;
  }

  lemma KidReached(h: Heap, r: Oid, o: Oid, k: Oid)
    requires o in Reach(h, r) && k in h[o].kids && k in h
    ensures k in Reach(h, r)
  {
    var p :| Path(h, r, p) && p[|p| - 1] == o;
    var q := p + [k];
    forall i | 0 <= i < |q| - 1 ensures q[i + 1] in h[q[i]].kids { assert i < |p| - 1 ==> q[i] == p[i] && q[i + 1] == p[i + 1]; }
    assert Path(h, r, q) && q[|q| - 1] == k;
  }

  /** A sound heap's reachable set is closed. */
  lemma ReachClosed(h: Heap, r: Oid)
    requires Sound(h, r)
    ensures Closed(h, r, Reach(h, r))
  {
    RootReached(h, r);
    forall o, k | o in Reach(h, r) && k in h[o].kids ensures k in Reach(h, r) { KidReached(h, r, o, k); }
  }

  /** The same for references that dangle: only those inside the heap are followed. */
  ghost predicate ClosedWithin(h: Heap, r: Oid, s: set<Oid>) {
    (r in h ==> r in s) && (forall o, k :: o in s && o in h && k in h[o].kids && k in h ==> k in s)
  }

  lemma {:induction false} PathStays(h: Heap, r: Oid, s: set<Oid>, p: seq<Oid>, i: nat)
    requires ClosedWithin(h, r, s) && Path(h, r, p) && i < |p|
    ensures p[i] in s
  {
    if i > 0 {
      PathStays(h, r, s, p, i - 1);
      assert p[i - 1 + 1] in h[p[i - 1]].kids;
    }
  }

  /** The reachable set is the least closed one. */
  lemma ReachLeast(h: Heap, r: Oid, s: set<Oid>)
    requires ClosedWithin(h, r, s)
    ensures Reach(h, r) <= s
  {
    forall o | o in Reach(h, r) ensures o in s {
      var p :| Path(h, r, p) && p[|p| - 1] == o;
      PathStays(h, r, s, p, |p| - 1);
    }
  }

  /** Heaps that agree on a closed set have the same paths. */
  lemma PathCarries(h: Heap, g: Heap, r: Oid, s: set<Oid>, p: seq<Oid>)
    requires Closed(h, r, s) && (forall o :: o in s ==> o in g && g[o] == h[o]) && Path(h, r, p)
    ensures Path(g, r, p)
  {
    forall i | 0 <= i < |p| ensures p[i] in s { PathStays(h, r, s, p, i); }
  }

  /** Agreeing on a set closed in one heap, two heaps have the same graph. */
  lemma SameGraph(h: Heap, g: Heap, r: Oid, s: set<Oid>)
    requires Closed(h, r, s) && forall o :: o in s ==> o in g && g[o] == h[o]
    ensures Graph(h, r) == Graph(g, r) && Reach(h, r) == Reach(g, r)
  {
    assert Closed(g, r, s);
    forall o ensures o in Reach(h, r) <==> o in Reach(g, r) {
      if o in Reach(h, r) {
        var p :| Path(h, r, p) && p[|p| - 1] == o;
        PathCarries(h, g, r, s, p);
      }
      if o in Reach(g, r) {
        var p :| Path(g, r, p) && p[|p| - 1] == o;
        PathCarries(g, h, r, s, p);
      }
    }
    ReachLeast(h, r, s);
  }

  /** The graph of a sound heap is a heap of its own with the same graph. */
  lemma GraphIsSound(h: Heap, r: Oid)
    requires Sound(h, r)
    ensures var g := Graph(h, r); Closed(g, r, g.Keys) && Graph(g, r) == g && Reach(g, r) == g.Keys == Reach(h, r)
  {
    var g := Graph(h, r);
    ReachClosed(h, r);
    SameGraph(h, g, r, Reach(h, r));
    assert Graph(g, r) == g;
  }
}
