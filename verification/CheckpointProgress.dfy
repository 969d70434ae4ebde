/**
  Checkpoints and restores come to their end: from any point there is always an object to take next, and only
  finitely many are left.
 */
module CheckpointProgress {
  import opened Graphs
  import opened Options
  import opened Checkpoint

  ghost predicate Visits(s: State, acts: seq<Action>, t: State) {
    Run(s, acts, t) && forall i :: 0 <= i < |acts| ==> acts[i].Visit?
  }

  ghost predicate Rebuilds(s: State, acts: seq<Action>, t: State) {
    Run(s, acts, t) && forall i :: 0 <= i < |acts| ==> acts[i].Rebuild?
  }

  lemma Prepend(s: State, a: Action, s': State, acts: seq<Action>, t: State)
    requires Enabled(s, a) && s' == Do(s, a)
    ensures a.Visit? && Visits(s', acts, t) ==> Visits(s, [a] + acts, t)
    ensures a.Rebuild? && Rebuilds(s', acts, t) ==> Rebuilds(s, [a] + acts, t)
  {
    assert ([a] + acts)[0] == a && ([a] + acts)[1..] == acts;
  }

  lemma FewerLeft(all: set<Oid>, some: set<Oid>, o: Oid)
    requires o in all && o !in some
    ensures |all - (some + {o})| < |all - some|
  {
    assert all - some == (all - (some + {o})) + {o};
  }

  /** One visit finds a new object or takes one off the list. */
  lemma VisitAdvances(s: State, o: Oid)
    requires Inv(s) && s.mode.Saving? && o in s.mode.work
    ensures Enabled(s, Visit(o))
    ensures
      var t := Do(s, Visit(o));
      && t.mode.Saving? && t.mode.version == s.mode.version && t.live == s.live && t.root == s.root && t.head == s.head
      && var all := Reach(s.live, s.root);
      (|all - t.mode.seen| < |all - s.mode.seen| || (t.mode.seen == s.mode.seen && |t.mode.work| < |s.mode.work|))
  {
    ReachClosed(s.live, s.root);
    if RootOf(s, o).flip == s.flip {
      assert s.mode.work == (s.mode.work - {o}) + {o};
    } else {
      FewerLeft(Reach(s.live, s.root), s.mode.seen, o);
    }
  }

  ghost predicate SameCheckpoint(s: State, t: State) {
    && s.mode.Saving? && t.mode.Saving? && t.mode.version == s.mode.version
    && t.live == s.live && t.root == s.root && t.head == s.head
  }

  lemma VisitStep(s: State) returns (o: Oid, t: State)
    requires Inv(s) && s.mode.Saving? && s.mode.work != {}
    ensures Enabled(s, Visit(o)) && t == Do(s, Visit(o)) && Inv(t) && SameCheckpoint(s, t)
    ensures
      var all := Reach(s.live, s.root);
      |all - t.mode.seen| < |all - s.mode.seen| || (t.mode.seen == s.mode.seen && |t.mode.work| < |s.mode.work|)
  {
    o :| o in s.mode.work;
    VisitAdvances(s, o);
    StepInv(s, Visit(o));
    t := Do(s, Visit(o));
  }

  /** From any point of a checkpoint, visits alone bring it to where it can commit, with the whole graph captured. */
  lemma {:induction false} CheckpointFinishes(s: State) returns (acts: seq<Action>, t: State)
    requires Inv(s) && s.mode.Saving?
    ensures Visits(s, acts, t) && SameCheckpoint(s, t)
    ensures Enabled(t, Commit(true)) && t.mode.seen == Reach(s.live, s.root)
    decreases |Reach(s.live, s.root) - s.mode.seen|, |s.mode.work|
  {
    if s.mode.work == {} {
      acts, t := [], s;
      TraversalComplete(s);
    } else {
      var o, s' := VisitStep(s);
      var rest;
      rest, t := CheckpointFinishes(s');
      Prepend(s, Visit(o), s', rest, t);
      acts := [Visit(o)] + rest;
    }
  }

  lemma RebuildAdvances(s: State, o: Oid)
    requires Inv(s) && s.mode.Restoring? && o in s.mode.todo
    ensures Enabled(s, Rebuild(o))
    ensures
      var t := Do(s, Rebuild(o));
      && t.mode.Restoring? && t.saved == s.saved && t.root == s.root && t.head == s.head
      && (|s.saved.Keys - t.mode.done| < |s.saved.Keys - s.mode.done| || (t.mode.done == s.mode.done && |t.mode.todo| < |s.mode.todo|))
  {
    if o in s.mode.done {
      assert s.mode.todo == (s.mode.todo - {o}) + {o};
    } else {
      FewerLeft(s.saved.Keys, s.mode.done, o);
    }
  }

  lemma RebuildStep(s: State) returns (o: Oid, t: State)
    requires Inv(s) && s.mode.Restoring? && s.mode.todo != {}
    ensures Enabled(s, Rebuild(o)) && t == Do(s, Rebuild(o)) && Inv(t) && t.mode.Restoring? && t.saved == s.saved && t.root == s.root
    ensures |s.saved.Keys - t.mode.done| < |s.saved.Keys - s.mode.done| || (t.mode.done == s.mode.done && |t.mode.todo| < |s.mode.todo|)
  {
    o :| o in s.mode.todo;
    RebuildAdvances(s, o);
    StepInv(s, Rebuild(o));
    t := Do(s, Rebuild(o));
  }

  lemma RestoreEnds(s: State)
    requires Inv(s) && s.mode.Restoring? && s.mode.todo == {}
    ensures Enabled(s, Ready) && Graph(s.live, s.root) == s.saved && Rebuilds(s, [], s)
  {
    RestoreComplete(s);
  }

  /** From any point of a restore, rebuilding alone brings it to its end, and the live graph is the committed one. */
  lemma {:induction false} RestoreFinishes(s: State) returns (acts: seq<Action>, t: State)
    requires Inv(s) && s.mode.Restoring?
    ensures Rebuilds(s, acts, t) && Enabled(t, Ready) && Graph(t.live, s.root) == s.saved
    decreases |s.saved.Keys - s.mode.done|, |s.mode.todo|
  {
    if s.mode.todo == {} {
      acts, t := [], s;
      RestoreEnds(s);
    } else {
      var o, s' := RebuildStep(s);
      var rest;
      rest, t := RestoreFinishes(s');
      Prepend(s, Rebuild(o), s', rest, t);
      acts := [Rebuild(o)] + rest;
    }
  }

  // ------------------------------------------------------------------ whole checkpoints and restores

  /** Whatever the programs have made of the heap, a whole checkpoint of it can be taken, and holds exactly that graph. */
  lemma CheckpointCaptures(s: State, h: Heap) returns (acts: seq<Action>, t: State)
    requires Inv(s) && Enabled(s, Mutate(h))
    ensures Run(s, acts, t) && t.mode.Running? && t.head == Some(NextVersion(s)) && t.saved == Graph(h, s.root)
    ensures Inv(t)
  {
    var s1 := Do(s, Mutate(h));
    StepInv(s, Mutate(h));
    var s2 := Do(s1, Begin);
    StepInv(s1, Begin);
    var visits, s3 := CheckpointFinishes(s2);
    RunInv(s2, visits, s3);
    t := Do(s3, Commit(true));
    StepInv(s3, Commit(true));
    var a := [Mutate(h), Begin];
    assert a[1..] == [Begin] && a[1..][1..] == [];
    assert Run(s2, [], s2);
    assert Run(s1, a[1..], s2);
    Append(s, a, s2, visits, s3);
    assert [Commit(true)][1..] == [] && Run(t, [], t);
    Append(s, a + visits, s3, [Commit(true)], t);
    acts := a + visits + [Commit(true)];
  }

  lemma {:induction false} Append(s: State, a: seq<Action>, t: State, b: seq<Action>, u: State)
    requires Run(s, a, t) && Run(t, b, u)
    ensures Run(s, a + b, u)
    decreases |a|
  {
    if a == [] {
      assert a + b == b;
    } else {
      Append(Do(s, a[0]), a[1..], t, b, u);
      assert (a + b)[0] == a[0] && (a + b)[1..] == a[1..] + b;
    }
  }

  lemma {:induction false} FlipStays(s: State, acts: seq<Action>, t: State)
    requires Rebuilds(s, acts, t)
    ensures t.flip == s.flip && t.head == s.head
    decreases |acts|
  {
    if acts != [] {
      forall i | 0 <= i < |acts[1..]| ensures acts[1..][i].Rebuild? { assert acts[1..][i] == acts[i + 1]; }
      FlipStays(Do(s, acts[0]), acts[1..], t);
    }
  }

  /** After a crash with a checkpoint on the list, a whole restore can be made: the system runs again with the committed
      graph, the flag reset, and one checkpoint record. */
  lemma RestoreRevives(s: State) returns (acts: seq<Action>, t: State)
    requires Inv(s) && Enabled(s, Boot)
    ensures Run(s, acts, t) && t.mode.Running? && Graph(t.live, s.root) == s.saved
    ensures !t.flip && t.head == s.head && t.latest == s.head && t.second.None?
  {
    var s1 := Do(s, Boot);
    StepInv(s, Boot);
    var rebuilds, s2 := RestoreFinishes(s1);
    FlipStays(s1, rebuilds, s2);
    t := Do(s2, Ready);
    assert [Boot][1..] == [] && Run(s1, [], s1);
    Append(s, [Boot], s1, rebuilds, s2);
    assert [Ready][1..] == [] && Run(t, [], t);
    Append(s, [Boot] + rebuilds, s2, [Ready], t);
    acts := [Boot] + rebuilds + [Ready];
  }

}
