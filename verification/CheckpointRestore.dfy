/** restore_obj_get_by_cap_group and sys_whole_restore: rebuilding the live objects from one version's slots. */
module CheckpointRestore {
  import opened Graphs
  import opened Options
  import opened Checkpoint
  import opened CheckpointPool

  /** The snapshots of one version as an object graph. */
  ghost function Snapshots(roots: Roots, v: nat): Heap {
    map o | o in roots && Slot(roots[o], v).Some? :: Slot(roots[o], v).value
  }

  lemma FlagLeavesSnapshots(roots: Roots, v: nat, o: Oid, flip: bool)
    requires o in roots
    ensures Snapshots(roots[o := roots[o].(flip := flip)], v) == Snapshots(roots, v)
  {
  }

  /** The object is rebuilt from its snapshot, and so is everything it refers to. */
  ghost predicate Rebuilt(snap: Heap, h: Heap, done: set<Oid>, o: Oid) {
    o in snap && o in h && h[o] == snap[o] && KidSet(snap[o]) <= done
  }

  /** Restoring inside r has gone from (a, m) to (b, n): objects in the map are untouched, new ones rebuilt except the open ones. */
  ghost predicate Restored(snap: Heap, a: Heap, m: set<Oid>, b: Heap, n: set<Oid>, r: set<Oid>, open: set<Oid>) {
    && m <= n && n - m <= r
    && (forall x :: x in n - m - open ==> Rebuilt(snap, b, n, x))
    && (forall x :: x in m && x in a ==> x in b && b[x] == a[x])
  }

  lemma RestoredThen(snap: Heap, a: Heap, m: set<Oid>, b: Heap, n: set<Oid>, c: Heap, p: set<Oid>, r: set<Oid>, open: set<Oid>)
    requires Restored(snap, a, m, b, n, r, open) && Restored(snap, b, n, c, p, r, {})
    ensures Restored(snap, a, m, c, p, r, open)
  {
    forall x | x in p - m - open ensures Rebuilt(snap, c, p, x) {
      if x in n { assert Rebuilt(snap, b, n, x); }
    }
  }

  lemma RestoredEdit(snap: Heap, a: Heap, m: set<Oid>, b: Heap, n: set<Oid>, r: set<Oid>, o: Oid, node: Node)
    requires Restored(snap, a, m, b, n, r, {o}) && o !in m
    ensures Restored(snap, a, m, b[o := node], n, r, {o})
  {
    forall x | x in n - m - {o} ensures Rebuilt(snap, b[o := node], n, x) { assert Rebuilt(snap, b, n, x); }
  }

  lemma RestoredClose(snap: Heap, a: Heap, m: set<Oid>, b: Heap, n: set<Oid>, r: set<Oid>, o: Oid)
    requires Restored(snap, a, m, b, n, r, {o}) && Rebuilt(snap, b, n, o)
    ensures Restored(snap, a, m, b, n, r, {})
  {
    forall x | x in n - m ensures Rebuilt(snap, b, n, x) { }
  }

  class Restorer {
    var live: Heap
    var roots: Roots
    var flip: bool
    var version: nat
    var objMap: set<Oid>           // objects already taken up by this restore

    /** restore_obj_get_by_cap_group: put the object in the map, then rebuild it reference by reference. */
    method RestoreObj(o: Oid, ghost snap: Heap, ghost r: set<Oid>)
      requires Snapshots(roots, version) == snap && o in r && Follows(snap, r)
      modifies this`live, this`roots, this`objMap
      ensures Snapshots(roots, version) == snap && o in objMap
      ensures Restored(snap, old(live), old(objMap), live, objMap, r, {})
      ensures forall x :: x in objMap && x !in old(objMap) ==> x in roots && roots[x].flip == flip
      ensures forall x :: x in old(roots) ==> x in roots && (roots[x] == old(roots)[x] || roots[x].flip == flip)
      decreases |r - objMap|
    {
      if o in objMap {
        return;
      }
      assert o in snap;
      FlagLeavesSnapshots(roots, version, o, flip);
      roots := roots[o := roots[o].(flip := flip)];
      var node := Slot(roots[o], version).value;
      objMap := objMap + {o};
      live := live[o := Node(node.payload, [])];
      var i := 0;
      while i < |node.kids|
        invariant 0 <= i <= |node.kids| && Restored(snap, old(live), old(objMap), live, objMap, r, {o})
        invariant Snapshots(roots, version) == snap && o in objMap && o in live && live[o] == Node(node.payload, node.kids[..i])
        invariant forall k :: 0 <= k < i ==> node.kids[k] in objMap
        invariant forall x :: x in objMap && x !in old(objMap) ==> x in roots && roots[x].flip == flip
        invariant forall x :: x in old(roots) ==> x in roots && (roots[x] == old(roots)[x] || roots[x].flip == flip)
      {
        RestoreKid(o, node, i, snap, r, old(live), old(objMap));
        i := i + 1;
      }
      assert node.kids[..i] == node.kids;
      forall k | k in KidSet(node) ensures k in objMap { var j :| 0 <= j < |node.kids| && node.kids[j] == k; }
      RestoredClose(snap, old(live), old(objMap), live, objMap, r, o);
    }

    method RestoreKid(o: Oid, node: Node, i: nat, ghost snap: Heap, ghost r: set<Oid>, ghost a: Heap, ghost m: set<Oid>)
      requires Snapshots(roots, version) == snap && Follows(snap, r) && o in r && snap[o] == node && i < |node.kids|
      requires Restored(snap, a, m, live, objMap, r, {o}) && o in objMap && o !in m && o in live
      requires live[o] == Node(node.payload, node.kids[..i])
      requires forall k :: 0 <= k < i ==> node.kids[k] in objMap
      modifies this`live, this`roots, this`objMap
      ensures Snapshots(roots, version) == snap && Restored(snap, a, m, live, objMap, r, {o}) && o in objMap
      ensures o in live && live[o] == Node(node.payload, node.kids[..i + 1])
      ensures forall k :: 0 <= k <= i ==> node.kids[k] in objMap
      ensures forall x :: x in objMap && x !in old(objMap) ==> x in roots && roots[x].flip == flip
      ensures forall x :: x in old(roots) ==> x in roots && (roots[x] == old(roots)[x] || roots[x].flip == flip)
      decreases |r - m|, 0
    {
      Fewer(r, m, objMap, o);
      ghost var b, n := live, objMap;
      RestoreObj(node.kids[i], snap, r);
      RestoredThen(snap, a, m, b, n, live, objMap, r, {o});
      assert node.kids[..i] + [node.kids[i]] == node.kids[..i + 1];
      RestoredEdit(snap, a, m, live, objMap, r, o, Node(node.payload, node.kids[..i + 1]));
      live := live[o := Node(node.payload, live[o].kids + [node.kids[i]])];
    }

    /** sys_whole_restore: the live graph becomes the graph in the slots of version v. */
    method WholeRestore(root: Oid, v: nat)
      requires root in Snapshots(roots, v) && Sound(Snapshots(roots, v), root)
      modifies this
      ensures Graph(live, root) == Graph(Snapshots(old(roots), v), root)
      ensures forall o :: o in Reach(live, root) ==> o in roots && roots[o].flip == flip
      ensures version == v && !flip && Snapshots(roots, v) == Snapshots(old(roots), v)
    {
      flip, version, objMap := false, v, {};
      ghost var snap := Snapshots(roots, v);
      ghost var reach := Reach(snap, root);
      ReachClosed(snap, root);
      RestoreObj(root, snap, reach);
      RebuiltAll(snap, root, old(live), live, objMap, reach);
    }
  }

  lemma RebuiltAll(snap: Heap, root: Oid, a: Heap, b: Heap, n: set<Oid>, reach: set<Oid>)
    requires Sound(snap, root) && reach == Reach(snap, root) && root in n && Restored(snap, a, {}, b, n, reach, {})
    ensures n == reach && Graph(b, root) == Graph(snap, root) && Reach(b, root) == reach
  {
    forall o | o in n ensures o in snap && o in b && b[o] == snap[o] { assert Rebuilt(snap, b, n, o); }
    forall o, k | o in n && k in snap[o].kids ensures k in n { assert Rebuilt(snap, b, n, o) && k in KidSet(snap[o]); }
    assert Closed(snap, root, n);
    ReachLeast(snap, root, n);
    SameGraph(snap, b, root, n);
  }

  /** Every reachable object's slot of version v holds its contents in h. */
  ghost predicate Holds(h: Heap, root: Oid, roots: Roots, v: nat) {
    forall o :: o in Reach(h, root) ==> o in roots && Slot(roots[o], v) == Some(h[o])
  }

  /** The round trip: slots filled by a checkpoint of h are restored to the graph of h. */
  lemma SlotsHoldGraph(h: Heap, roots: Roots, v: nat, root: Oid)
    requires Sound(h, root) && Holds(h, root, roots, v)
    ensures Sound(Snapshots(roots, v), root) && Graph(Snapshots(roots, v), root) == Graph(h, root)
  {
    var snap := Snapshots(roots, v);
    ReachClosed(h, root);
    SameGraph(h, snap, root, Reach(h, root));
  }

  /** A restore of version v gives the graph of h exactly when every reachable object's slot holds its contents. */
  lemma RestoresGraphIff(h: Heap, roots: Roots, v: nat, root: Oid)
    requires Sound(h, root)
    ensures Graph(Snapshots(roots, v), root) == Graph(h, root) <==> Holds(h, root, roots, v)
  {
    var snap := Snapshots(roots, v);
    if Graph(snap, root) == Graph(h, root) {
      forall o | o in Reach(h, root) ensures o in roots && Slot(roots[o], v) == Some(h[o]) {
        assert o in Graph(h, root) && o in Graph(snap, root);
        assert Graph(snap, root)[o] == snap[o];
      }
    }
    if Holds(h, root, roots, v) {
      SlotsHoldGraph(h, roots, v, root);
    }
  }
}
