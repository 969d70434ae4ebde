/**
  What the one-bit visited flag can and cannot tell.  A program that keeps an unreachable object and links
  it again after a checkpoint has passed without it brings back an object that still carries the flag of
  two checkpoints ago; these lemmas say exactly what a checkpoint then does, for any heap and any flags.
 */
module CheckpointFlags {
  import opened Graphs
  import opened Options
  import opened Checkpoint
  import opened CheckpointRestore

  /** A checkpoint has just begun. */
  ghost predicate Starting(s: State) {
    s.mode.Saving? && s.mode.work == {s.root} && s.mode.seen == {} && Sound(s.live, s.root)
  }

  /** The objects that carry the flag of the checkpoint in progress. */
  ghost function Marked(s: State): set<Oid> {
    set o | o in s.roots && s.roots[o].flip == s.flip
  }

  ghost predicate AllVisits(acts: seq<Action>) { forall i :: 0 <= i < |acts| ==> acts[i].Visit? }

  /** The objects that do not carry the flag when the checkpoint begins. */
  ghost function Unmarked(s: State): Heap {
    map o | o in s.live && o !in Marked(s) :: s.live[o]
  }

  /** What holds while a checkpoint that began in s works its way to t: it walks through unmarked objects only. */
  ghost predicate Walk(s: State, t: State) {
    && s.mode.Saving? && t.mode.Saving? && t.mode.version == s.mode.version
    && t.live == s.live && t.root == s.root && t.flip == s.flip
    && t.mode.seen + t.mode.work <= Reach(s.live, s.root)
    && t.mode.seen !! Marked(s) && Marked(t) == Marked(s) + t.mode.seen
    && s.root in Marked(t) + t.mode.work
    && (forall o :: o in t.mode.seen ==> o in s.live && KidSet(s.live[o]) <= Marked(t) + t.mode.work)
  }

  /** What it has visited it came to through unmarked objects, and captured; all other roots are as they were. */
  ghost predicate Traced(s: State, t: State)
    requires s.mode.Saving? && t.mode.Saving?
  {
    && t.mode.seen <= Reach(Unmarked(s), s.root)
    && (forall o :: o in t.mode.work && o !in Marked(s) ==> o in Reach(Unmarked(s), s.root))
    && (forall o :: o in t.mode.seen ==> o in s.live && o in t.roots && Slot(t.roots[o], s.mode.version) == Some(s.live[o]))
    && (forall o :: o !in t.mode.seen ==> SameRoot(s, t, o))
  }

  ghost predicate SameRoot(s: State, t: State, o: Oid) {
    if o in s.roots then o in t.roots && t.roots[o] == s.roots[o] else o !in t.roots
  }

  lemma WalkStarts(s: State)
    requires Starting(s)
    ensures Walk(s, s) && Traced(s, s)
  {
    RootReached(s.live, s.root);
    if s.root !in Marked(s) { RootReached(Unmarked(s), s.root); }
  }

  lemma WalkSkip(s: State, t: State, o: Oid)
    requires Sound(s.live, s.root) && Walk(s, t) && Enabled(t, Visit(o)) && RootOf(t, o).flip == t.flip
    ensures Walk(s, Do(t, Visit(o)))
  {
    var u := Do(t, Visit(o));
    assert o in Marked(t) && Marked(u) == Marked(t);
    assert Marked(u) + u.mode.work == Marked(t) + t.mode.work;
  }

  lemma WalkNew(s: State, t: State, o: Oid)
    requires Sound(s.live, s.root) && Walk(s, t) && Enabled(t, Visit(o)) && RootOf(t, o).flip != t.flip
    ensures Walk(s, Do(t, Visit(o)))
  {
    ReachClosed(s.live, s.root);
    var u := Do(t, Visit(o));
    assert o !in Marked(t);
    assert Marked(u) == Marked(t) + {o};
    assert Marked(u) + u.mode.work == Marked(t) + t.mode.work + KidSet(t.live[o]);
  }

  lemma TraceNew(s: State, t: State, o: Oid)
    requires Sound(s.live, s.root) && Walk(s, t) && Traced(s, t) && Enabled(t, Visit(o)) && RootOf(t, o).flip != t.flip
    ensures Traced(s, Do(t, Visit(o)))
  {
    var u, g := Do(t, Visit(o)), Unmarked(s);
    assert o !in Marked(s) by { assert o !in Marked(t); }
    forall k | k in KidSet(s.live[o]) && k !in Marked(s) ensures k in Reach(g, s.root) {
      assert k in s.live;
      KidReached(g, s.root, o, k);
    }
    forall x | x !in u.mode.seen ensures SameRoot(s, u, x) { assert SameRoot(s, t, x); }
  }

  lemma WalkStep(s: State, t: State, o: Oid)
    requires Sound(s.live, s.root) && Walk(s, t) && Traced(s, t) && Enabled(t, Visit(o))
    ensures Walk(s, Do(t, Visit(o))) && Traced(s, Do(t, Visit(o)))
  {
    if RootOf(t, o).flip == t.flip {
      WalkSkip(s, t, o);
      forall x | x !in t.mode.seen ensures SameRoot(s, Do(t, Visit(o)), x) { assert SameRoot(s, t, x); }
    } else {
      WalkNew(s, t, o);
      TraceNew(s, t, o);
    }
  }

  lemma {:induction false} WalkRun(s: State, t: State, acts: seq<Action>, u: State)
    requires Sound(s.live, s.root) && Walk(s, t) && Traced(s, t) && AllVisits(acts) && Run(t, acts, u)
    ensures Walk(s, u) && Traced(s, u)
    decreases |acts|
  {
    if acts != [] {
      assert acts[0].Visit?;
      WalkStep(s, t, acts[0].o);
      assert AllVisits(acts[1..]) by { forall i | 0 <= i < |acts[1..]| ensures acts[1..][i].Visit? { assert acts[1..][i] == acts[i + 1]; } }
      WalkRun(s, Do(t, acts[0]), acts[1..], u);
    }
  }

  /** A finished checkpoint has visited exactly what can be reached through unmarked objects. */
  lemma {:induction false} VisitsThroughUnmarked(s: State, acts: seq<Action>, t: State)
    requires Starting(s) && AllVisits(acts) && Run(s, acts, t) && t.mode.Saving? && t.mode.work == {}
    ensures t.mode.seen == Reach(Unmarked(s), s.root) && Walk(s, t) && Traced(s, t)
  {
    WalkStarts(s);
    WalkRun(s, s, acts, t);
    var g := Unmarked(s);
    forall o, k | o in t.mode.seen && o in g && k in g[o].kids && k in g ensures k in t.mode.seen { assert k in KidSet(s.live[o]); }
    assert ClosedWithin(g, s.root, t.mode.seen);
    ReachLeast(g, s.root, t.mode.seen);
  }

  /** When the checkpoint begins, the object can be reached through objects without the flag, or its slot happens to
      hold its contents already. */
  ghost predicate WillBeRight(s: State, o: Oid)
    requires s.mode.Saving?
  {
    || o in Reach(Unmarked(s), s.root)
    || (o in s.live && o in s.roots && Slot(s.roots[o], s.mode.version) == Some(s.live[o]))
  }

  lemma RightAt(s: State, t: State, o: Oid)
    requires s.mode.Saving? && t.mode.Saving? && Traced(s, t) && t.mode.seen == Reach(Unmarked(s), s.root) && o in s.live
    ensures WillBeRight(s, o) <==> o in t.roots && Slot(t.roots[o], s.mode.version) == Some(s.live[o])
  {
    if o !in t.mode.seen { assert SameRoot(s, t, o); }
  }

  lemma RightIff(s: State, t: State)
    requires s.mode.Saving? && t.mode.Saving? && Traced(s, t) && t.mode.seen == Reach(Unmarked(s), s.root) && Sound(s.live, s.root)
    ensures Graph(Snapshots(t.roots, s.mode.version), s.root) == Graph(s.live, s.root)
            <==> forall o :: o in Reach(s.live, s.root) ==> WillBeRight(s, o)
  {
    RestoresGraphIff(s.live, t.roots, s.mode.version, s.root);
    forall o | o in Reach(s.live, s.root)
      ensures WillBeRight(s, o) <==> o in t.roots && Slot(t.roots[o], s.mode.version) == Some(s.live[o])
    {
      RightAt(s, t, o);
    }
  }

  /** A checkpoint is right -- a restore of it gives the live graph -- if and only if every reachable object could be
      reached through objects without the flag when it began, or had its contents in the slot already. */
  lemma {:induction false} CheckpointRightIff(s: State, acts: seq<Action>, t: State)
    requires Starting(s) && AllVisits(acts) && Run(s, acts, t) && t.mode.Saving? && t.mode.work == {}
    ensures Graph(Snapshots(t.roots, s.mode.version), s.root) == Graph(s.live, s.root)
            <==> forall o :: o in Reach(s.live, s.root) ==> WillBeRight(s, o)
  {
    VisitsThroughUnmarked(s, acts, t);
    RightIff(s, t);
  }

  /** No reachable object carries the flag: then all are visited, and the checkpoint is right. */
  lemma {:induction false} VisitsAllIffUnmarked(s: State, acts: seq<Action>, t: State)
    requires Starting(s) && AllVisits(acts) && Run(s, acts, t) && t.mode.Saving? && t.mode.work == {}
    ensures t.mode.seen == Reach(s.live, s.root) <==> Marked(s) !! Reach(s.live, s.root)
    ensures Marked(s) !! Reach(s.live, s.root) ==> Graph(Snapshots(t.roots, s.mode.version), s.root) == Graph(s.live, s.root)
  {
    VisitsThroughUnmarked(s, acts, t);
    RootReached(s.live, s.root);
    if Marked(s) !! Reach(s.live, s.root) {
      WalkCoversAll(s, t);
      CheckpointRightIff(s, acts, t);
    }
  }

  lemma WalkCoversAll(s: State, t: State)
    requires Sound(s.live, s.root) && Walk(s, t) && t.mode.work == {} && Marked(s) !! Reach(s.live, s.root)
    ensures t.mode.seen == Reach(s.live, s.root)
  {
    RootReached(s.live, s.root);
    ReachClosed(s.live, s.root);
    forall o, k | o in t.mode.seen && k in s.live[o].kids ensures k in t.mode.seen {
      assert k in KidSet(s.live[o]) && k in Reach(s.live, s.root);
    }
    ReachLeast(s.live, s.root, t.mode.seen);
  }

  /** An object that carried the flag keeps the snapshots it had, whatever its contents are now. */
  lemma {:induction false} MarkedKeepsOldSnapshot(s: State, acts: seq<Action>, t: State, o: Oid)
    requires Starting(s) && AllVisits(acts) && Run(s, acts, t) && o in Marked(s)
    ensures o in t.roots && Slot(t.roots[o], s.mode.version) == Slot(s.roots[o], s.mode.version)
  {
    WalkStarts(s);
    WalkRun(s, s, acts, t);
    assert SameRoot(s, t, o);
  }

  // ------------------------------------------------------------------ a run that links an old object again

  /** Like a step of the system, except that a program may link any object again that it still knows. */
  ghost predicate MayDo(s: State, a: Action) {
    if a.Mutate? then s.mode.Running? && Sound(a.heap, s.root) else Enabled(s, a)
  }

  ghost function Next(s: State, a: Action): State
    requires MayDo(s, a)
  {
    if a.Mutate? then s.(live := a.heap, used := s.used + a.heap.Keys) else Do(s, a)
  }

  ghost predicate LooseRun(s: State, acts: seq<Action>, t: State)
    decreases |acts|
  {
    if acts == [] then s == t else MayDo(s, acts[0]) && LooseRun(Next(s, acts[0]), acts[1..], t)
  }

  ghost predicate Reachable(s: State, t: State) { exists acts :: LooseRun(s, acts, t) }

  lemma {:induction false} Extend(s: State, acts: seq<Action>, t: State, a: Action)
    requires LooseRun(s, acts, t) && MayDo(t, a)
    ensures LooseRun(s, acts + [a], Next(t, a))
    decreases |acts|
  {
    if acts == [] {
      assert [a][1..] == [] && [] + [a] == [a];
      assert LooseRun(Next(t, a), [], Next(t, a));
    } else {
      Extend(Next(s, acts[0]), acts[1..], t, a);
      assert (acts + [a])[0] == acts[0] && (acts + [a])[1..] == acts[1..] + [a];
    }
  }

  lemma Then(s: State, t: State, a: Action)
    requires Reachable(s, t) && MayDo(t, a)
    ensures Reachable(s, Next(t, a))
  {
    var acts :| LooseRun(s, acts, t);
    Extend(s, acts, t, a);
  }

  /** Object 1, with a payload, linked from the root object 0; or the root alone with object 1 set aside. */
  function Linked(payload: int): Heap { map[0 := Node(0, [1]), 1 := Node(payload, [])] }
  function Aside(): Heap { map[0 := Node(0, []), 1 := Node(5, [])] }

  lemma HeapFacts(p: int)
    ensures Sound(Linked(p), 0) && Graph(Linked(p), 0) == Linked(p)
    ensures Sound(Aside(), 0) && Graph(Aside(), 0) == map[0 := Node(0, [])]
  {
    var h, g := Linked(p), Aside();
    RootReached(h, 0);
    KidReached(h, 0, 0, 1);
    assert Reach(h, 0) == {0, 1};
    RootReached(g, 0);
    assert Closed(g, 0, {0});
    ReachLeast(g, 0, {0});
    assert Reach(g, 0) == {0};
  }

  function Start(): State {
    State(0, Linked(5), map[], false, None, None, None, {0, 1}, map[], Running)
  }

  /** After checkpoint 1 of both objects. */
  function First(): State {
    State(0, Linked(5), map[0 := Root(Some(Node(0, [1])), None, true), 1 := Root(Some(Node(5, [])), None, true)], true,
          Some(1), None, Some(1), {0, 1}, Linked(5), Running)
  }

  /** Checkpoint 1 with both objects visited. */
  function FirstVisited(): State {
    First().(latest := None, head := None, saved := map[], mode := Saving(1, {}, {0, 1}))
  }

  function FirstBegun(): State { Start().(flip := true, mode := Saving(1, {0}, {})) }

  function FirstHalf(): State {
    FirstBegun().(roots := map[0 := Root(Some(Node(0, [1])), None, true)], mode := Saving(1, {1}, {0}))
  }

  lemma VisitsRoot()
    ensures MayDo(FirstBegun(), Visit(0)) && Next(FirstBegun(), Visit(0)) == FirstHalf()
  {
    var s := FirstBegun();
    var t := Next(s, Visit(0));
    assert KidSet(s.live[0]) == {1};
    assert t.mode.work == {1} && t.mode.seen == {0};
    assert t.roots == FirstHalf().roots;
  }

  lemma VisitsOther()
    ensures MayDo(FirstHalf(), Visit(1)) && Next(FirstHalf(), Visit(1)) == FirstVisited()
  {
    var s := FirstHalf();
    var t := Next(s, Visit(1));
    assert KidSet(s.live[1]) == {};
    assert t.mode.work == {} && t.mode.seen == {0, 1};
    assert t.roots == FirstVisited().roots;
  }

  lemma StartVisits()
    ensures Init(Start()) && Reachable(Start(), FirstVisited())
  {
    HeapFacts(5);
    assert LooseRun(Start(), [], Start());
    Then(Start(), Start(), Begin);
    VisitsRoot();
    Then(Start(), FirstBegun(), Visit(0));
    VisitsOther();
    Then(Start(), FirstHalf(), Visit(1));
  }

  lemma FirstCheckpoint()
    ensures Init(Start()) && Reachable(Start(), First())
  {
    HeapFacts(5);
    StartVisits();
    Then(Start(), FirstVisited(), Commit(true));
    assert Next(FirstVisited(), Commit(true)) == First();
  }

  /** After checkpoint 2 without object 1. */
  function Second(): State {
    First().(live := Aside(), roots := First().roots[0 := Root(Some(Node(0, [1])), Some(Node(0, [])), false)], flip := false,
             latest := Some(2), second := Some(1), head := Some(2), saved := map[0 := Node(0, [])])
  }

  lemma SecondCheckpoint()
    ensures Reachable(Start(), Second())
  {
    HeapFacts(5);
    FirstCheckpoint();
    var s := Start();
    Then(s, First(), Mutate(Aside()));
    var a := Next(First(), Mutate(Aside()));
    assert {0, 1} + Aside().Keys == {0, 1};
    Then(s, a, Begin);
    var b := Next(a, Begin);
    Then(s, b, Visit(0));
    var c := Next(b, Visit(0));
    assert KidSet(b.live[0]) == {} && c.mode.work == {};
    Then(s, c, Commit(true));
    assert Next(c, Commit(true)) == Second();
  }

  /** Object 1 is linked again with payload 7, and checkpoint 3 begins. */
  lemma ThirdBegins() returns (s: State)
    ensures Reachable(Start(), s) && Starting(s)
    ensures s == Second().(live := Linked(7), second := Some(3), flip := true, mode := Saving(3, {0}, {}))
  {
    HeapFacts(7);
    SecondCheckpoint();
    Then(Start(), Second(), Mutate(Linked(7)));
    var a := Next(Second(), Mutate(Linked(7)));
    assert {0, 1} + Linked(7).Keys == {0, 1};
    Then(Start(), a, Begin);
    s := Next(a, Begin);
  }

  /** From a fresh system: checkpoint, unlink, checkpoint, link again with new contents, checkpoint.  The last one is
      committed, and a restore of it would give the old contents. */
  lemma RevivedObjectIsStale()
    ensures Init(Start())
    ensures exists s :: Reachable(Start(), s) && s.mode.Running? && s.head == Some(3) && s.saved == Graph(s.live, s.root)
                        && Graph(Snapshots(s.roots, 3), s.root) != s.saved
  {
    FirstCheckpoint();
    HeapFacts(7);
    var s := ThirdBegins();
    Then(Start(), s, Visit(0));
    var a := Next(s, Visit(0));
    assert KidSet(s.live[0]) == {1} && a.mode.work == {1};
    Then(Start(), a, Visit(1));
    var b := Next(a, Visit(1));
    assert b.mode.work == {};
    Then(Start(), b, Commit(true));
    var t := Next(b, Commit(true));
    assert 1 in Graph(t.live, 0) && Slot(t.roots[1], 3) == Some(Node(5, []));
    RestoresGraphIff(t.live, t.roots, 3, 0);
  }
}
