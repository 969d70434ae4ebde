/**
  The recursive traversals themselves: ckpt_obj_get walks the live objects depth first and fills the slots
  of one version; restore_obj_get_by_cap_group walks the slots and rebuilds the live objects in place.
 */
module CheckpointPool {
  import opened Graphs
  import opened Options
  import opened Checkpoint

  type Roots = map<Oid, Root>

  /** get_latest_ckpt_obj: the slot that version v does not write. */
  function Latest(r: Root, v: nat): Option<Node> {
    if v % 2 == 1 then r.one else r.zero
  }

  /** Every reference from r stays in r. */
  ghost predicate Follows(h: Heap, r: set<Oid>) {
    (forall o :: o in r ==> o in h) && (forall o, k :: o in r && k in h[o].kids ==> k in r)
  }

  /** Objects that carry the current flag. */
  ghost function Marks(roots: Roots, flip: bool): set<Oid> {
    set o | o in roots && roots[o].flip == flip
  }

  /** The object's slot holds its live contents, and all it refers to is marked. */
  ghost predicate Filled(h: Heap, roots: Roots, flip: bool, v: nat, o: Oid) {
    o in h && o in roots && Slot(roots[o], v) == Some(h[o]) && KidSet(h[o]) <= Marks(roots, flip)
  }

  /**
    A traversal inside r has gone from one set of roots to another: marked objects are untouched, newly
    marked ones are filled except those still open, and nothing else has changed.
   */
  ghost predicate Grown(h: Heap, a: Roots, b: Roots, flip: bool, v: nat, r: set<Oid>, open: set<Oid>) {
    && Marks(a, flip) <= Marks(b, flip) && Marks(b, flip) - Marks(a, flip) <= r
    && (forall x :: x in Marks(b, flip) - Marks(a, flip) - open ==> Filled(h, b, flip, v, x))
    && (forall x :: x in Marks(a, flip) ==> b[x] == a[x])
    && (forall x :: x in b && x !in Marks(b, flip) ==> x in a && b[x] == a[x])
    && (forall x :: x in a ==> x in b && Latest(b[x], v) == Latest(a[x], v))
  }

  lemma GrownThen(h: Heap, a: Roots, b: Roots, c: Roots, flip: bool, v: nat, r: set<Oid>, open: set<Oid>)
    requires Grown(h, a, b, flip, v, r, open) && Grown(h, b, c, flip, v, r, {})
    ensures Grown(h, a, c, flip, v, r, open)
  {
    forall x | x in Marks(c, flip) - Marks(a, flip) - open ensures Filled(h, c, flip, v, x) {
      if x in Marks(b, flip) { assert Filled(h, b, flip, v, x); }
    }
  }

  /** Marking a new object leaves it open. */
  lemma GrownOpen(h: Heap, a: Roots, o: Oid, root: Root, flip: bool, v: nat, r: set<Oid>)
    requires o !in Marks(a, flip) && root.flip == flip && o in r && (o in a ==> Latest(root, v) == Latest(a[o], v))
    ensures Grown(h, a, a[o := root], flip, v, r, {o})
    ensures Marks(a[o := root], flip) == Marks(a, flip) + {o}
  {
    assert Marks(a[o := root], flip) == Marks(a, flip) + {o};
  }

  /** An open object's slot may change. */
  lemma GrownEdit(h: Heap, a: Roots, b: Roots, o: Oid, root: Root, flip: bool, v: nat, r: set<Oid>)
    requires Grown(h, a, b, flip, v, r, {o}) && o in Marks(b, flip) && o !in Marks(a, flip) && root.flip == flip
    requires Latest(root, v) == Latest(b[o], v)
    ensures Grown(h, a, b[o := root], flip, v, r, {o}) && Marks(b[o := root], flip) == Marks(b, flip)
  {
    var c := b[o := root];
    assert Marks(c, flip) == Marks(b, flip);
    forall x | x in Marks(c, flip) - Marks(a, flip) - {o} ensures Filled(h, c, flip, v, x) { assert Filled(h, b, flip, v, x); }
  }

  lemma GrownClose(h: Heap, a: Roots, b: Roots, o: Oid, flip: bool, v: nat, r: set<Oid>)
    requires Grown(h, a, b, flip, v, r, {o}) && Filled(h, b, flip, v, o)
    ensures Grown(h, a, b, flip, v, r, {})
  {
    forall x | x in Marks(b, flip) - Marks(a, flip) ensures Filled(h, b, flip, v, x) { }
  }

  /** An object whose snapshot has come to hold all its references is filled. */
  lemma AllKidsMarked(h: Heap, roots: Roots, flip: bool, v: nat, o: Oid, kids: seq<Oid>, i: nat)
    requires o in h && o in roots && kids == h[o].kids && i == |kids|
    requires Slot(roots[o], v) == Some(Node(h[o].payload, kids[..i])) && forall k :: 0 <= k < i ==> kids[k] in Marks(roots, flip)
    ensures Filled(h, roots, flip, v, o)
  {
    assert kids[..i] == kids;
  }

  lemma Fewer(r: set<Oid>, a: set<Oid>, b: set<Oid>, o: Oid)
    requires a + {o} <= b && o in r && o !in a
    ensures |r - b| < |r - a|
  {
    var x, y := r - b, r - a;
    assert x < y;
    assert y == x + (y - x) && o in y - x;
  }

  class Pool {
    var live: Heap
    var roots: Roots
    var flip: bool
    var version: nat
    var latest: Option<nat>        // version of latest_ws_data
    var second: Option<nat>        // version of second_latest_ws_data
    ghost var debt: int            // failed checkpoints since both records exist, negated at each commit

    /** ckpt_obj_get: mark the object, then capture it reference by reference, visiting each on the way. */
    method CkptObj(o: Oid, ghost r: set<Oid>)
      requires o in r && Follows(live, r)
      modifies this`roots
      ensures o in Marks(roots, flip) && Grown(live, old(roots), roots, flip, version, r, {})
      decreases |r - Marks(roots, flip)|
    {
      if o in roots && roots[o].flip == flip {
        return;
      }
      var kids := live[o].kids;
      var root := (if o in roots then roots[o] else Root(None, None, !flip)).(flip := flip);
      GrownOpen(live, roots, o, SetSlot(root, version, Node(live[o].payload, [])), flip, version, r);
      roots := roots[o := SetSlot(root, version, Node(live[o].payload, []))];
      var i := 0;
      while i < |kids|
        invariant 0 <= i <= |kids| && Grown(live, old(roots), roots, flip, version, r, {o})
        invariant o in Marks(roots, flip) && Slot(roots[o], version) == Some(Node(live[o].payload, kids[..i]))
        invariant forall k :: 0 <= k < i ==> kids[k] in Marks(roots, flip)
      {
        CkptKid(o, kids, i, r, old(roots));
        i := i + 1;
      }
      AllKidsMarked(live, roots, flip, version, o, kids, i);
      GrownClose(live, old(roots), roots, o, flip, version, r);
    }

    /** One turn of the loop in cap_group_copy_ckpt: visit a reference, then store it. */
    method CkptKid(o: Oid, kids: seq<Oid>, i: nat, ghost r: set<Oid>, ghost before: Roots)
      requires Follows(live, r) && o in r && o in live && kids == live[o].kids && i < |kids|
      requires Grown(live, before, roots, flip, version, r, {o})
      requires o in Marks(roots, flip) && o !in Marks(before, flip)
      requires Slot(roots[o], version) == Some(Node(live[o].payload, kids[..i]))
      requires forall k :: 0 <= k < i ==> kids[k] in Marks(roots, flip)
      modifies this`roots
      ensures Grown(live, before, roots, flip, version, r, {o}) && o in Marks(roots, flip)
      ensures Slot(roots[o], version) == Some(Node(live[o].payload, kids[..i + 1]))
      ensures forall k :: 0 <= k <= i ==> kids[k] in Marks(roots, flip)
      decreases |r - Marks(before, flip)|, 0
    {
      Fewer(r, Marks(before, flip), Marks(roots, flip), o);
      ghost var mid := roots;
      CkptObj(kids[i], r);
      GrownThen(live, before, mid, roots, flip, version, r, {o});
      StoreKid(o, kids, i, r, before);
    }

    method StoreKid(o: Oid, kids: seq<Oid>, i: nat, ghost r: set<Oid>, ghost before: Roots)
      requires o in live && i < |kids| && Grown(live, before, roots, flip, version, r, {o})
      requires o in Marks(roots, flip) && o !in Marks(before, flip)
      modifies this`roots
      ensures Grown(live, before, roots, flip, version, r, {o}) && Marks(roots, flip) == old(Marks(roots, flip))
      ensures o in roots && Slot(roots[o], version) == Some(Node(live[o].payload, kids[..i + 1]))
    {
      assert kids[..i] + [kids[i]] == kids[..i + 1];
      var root := SetSlot(roots[o], version, Node(live[o].payload, kids[..i] + [kids[i]]));
      GrownEdit(live, before, roots, o, root, flip, version, r);
      roots := roots[o := root];
    }

    /** sys_whole_ckpt: capture everything reachable in the slots of the next version, then commit or not. */
    method WholeCkpt(root: Oid, ok: bool)
      requires Sound(live, root) && Consistent()
      requires forall o :: o in Reach(live, root) && o in roots ==> roots[o].flip == flip
      modifies this`roots, this`flip, this`version, this`latest, this`second, this`debt
      ensures Consistent() && flip == !old(flip)
      ensures version == if old(latest).Some? then old(latest).value + 1 + 2 * old(debt) else 1
      ensures debt == if ok then -old(debt) else if old(second).Some? then old(debt) + 1 else 0
      ensures forall o :: o in Reach(live, root) ==> o in roots && roots[o].flip == flip && Slot(roots[o], version) == Some(live[o])
      ensures old(latest).Some? ==> forall o :: o in old(roots) ==> o in roots && Slot(roots[o], old(latest).value) == Slot(old(roots)[o], old(latest).value)
      ensures forall o :: o in roots && o !in Reach(live, root) ==> o in old(roots) && roots[o] == old(roots)[o]
      ensures latest == if ok then Some(version) else old(latest)
      ensures second == if ok then old(latest) else if old(second).Some? then Some(version) else None
    {
      ghost var reach, a := Reach(live, root), roots;
      ReachClosed(live, root);
      version := VersionAfter(second, latest);
      if second.Some? {
        second := Some(version);
      }
      flip := !flip;
      OtherParity(old(latest), old(debt), version);
      CkptObj(root, reach);
      WalkedAll(live, root, a, roots, flip, version, reach);
      if old(latest).Some? {
        forall o | o in a ensures o in roots && Slot(roots[o], old(latest).value) == Slot(a[o], old(latest).value) {
          assert Latest(roots[o], version) == Latest(a[o], version);
        }
      }
      if ok {
        second, latest, debt := latest, Some(version), -debt;
      } else if second.Some? {
        debt := debt + 1;
      }
    }

    /** How far apart the versions of the two records are; so they have different parity. */
    ghost predicate Consistent()
      reads this
    {
      if second.Some? then latest.Some? && second.value == latest.value - 1 + 2 * debt else debt == 0
    }
  }

  lemma OtherParity(latest: Option<nat>, debt: int, v: nat)
    requires latest.Some? ==> v == latest.value + 1 + 2 * debt
    ensures latest.Some? ==> v % 2 != latest.value % 2
  {
  }

  /** From unmarked objects only, the traversal fills the slots of the whole reachable graph. */
  lemma WalkedAll(h: Heap, root: Oid, a: Roots, b: Roots, flip: bool, v: nat, reach: set<Oid>)
    requires Sound(h, root) && reach == Reach(h, root) && Grown(h, a, b, flip, v, reach, {}) && root in Marks(b, flip)
    requires forall o :: o in reach && o in a ==> a[o].flip != flip
    ensures forall o :: o in reach ==> o in b && b[o].flip == flip && Slot(b[o], v) == Some(h[o])
  {
    var visited := Marks(b, flip) - Marks(a, flip);
    RootReached(h, root);
    ReachClosed(h, root);
    forall o, k | o in visited && k in h[o].kids ensures k in visited { assert Filled(h, b, flip, v, o) && k in KidSet(h[o]); }
    assert Closed(h, root, visited);
    ReachLeast(h, root, visited);
    forall o | o in reach ensures o in b && b[o].flip == flip && Slot(b[o], v) == Some(h[o]) { assert Filled(h, b, flip, v, o); }
  }
}
