/**
  Whole-system checkpoint and restore.  Every object has a checkpoint root with two snapshot slots and a
  one-bit flag; a checkpoint of version v writes slot 1 - v % 2 and becomes current when its record is put
  at the head of the checkpoint list.  A crash may come at any point and may tear everything except the
  slots of the current checkpoint.
 */
module Checkpoint {
  import opened Graphs
  import opened Options

  /** struct ckpt_obj_root: ckpt_objs[0], ckpt_objs[1] and flip_flag. */
  datatype Root = Root(zero: Option<Node>, one: Option<Node>, flip: bool)

  /** get_second_latest_ckpt_obj: the slot that version v uses. */
  function Slot(r: Root, v: nat): Option<Node> {
    if v % 2 == 1 then r.zero else r.one
  }

  function SetSlot(r: Root, v: nat, n: Node): Root {
    if v % 2 == 1 then r.(zero := Some(n)) else r.(one := Some(n))
  }

  datatype Mode =
    | Running
    | Saving(version: nat, work: set<Oid>, seen: set<Oid>)
    | Down
    | Restoring(todo: set<Oid>, done: set<Oid>)

  /**
    `latest` and `second` are the versions of the two checkpoint records, `head` the version at the head
    of the checkpoint list.  `used` are the object identities ever used, `saved` is the object graph at
    the last commit; both are history.
   */
  datatype State = State(root: Oid, live: Heap, roots: map<Oid, Root>, flip: bool,
                         latest: Option<nat>, second: Option<nat>, head: Option<nat>,
                         used: set<Oid>, saved: Heap, mode: Mode)

  datatype Action =
    | Mutate(heap: Heap)
    | Begin
    | Visit(o: Oid)
    | Commit(ok: bool)
    | Crash(heap: Heap, rs: map<Oid, Root>, f: bool, l: Option<nat>, sec: Option<nat>)
    | Boot
    | Rebuild(o: Oid)
    | Ready

  /** get_ckpt_ws_data: the version of the next checkpoint, from the two records. */
  function VersionAfter(second: Option<nat>, latest: Option<nat>): nat {
    if second.Some? then second.value + 2
    else if latest.Some? then latest.value + 1
    else 1
  }

  function NextVersion(s: State): nat { VersionAfter(s.second, s.latest) }

  /** ckpt_obj_root_get: a missing root is created as not yet visited. */
  function RootOf(s: State, o: Oid): Root {
    if o in s.roots then s.roots[o] else Root(None, None, !s.flip)
  }

  ghost predicate Torn(s: State, rs: map<Oid, Root>) {
    && rs.Keys == s.roots.Keys
    && (s.head.Some? ==> forall o :: o in rs ==> Slot(rs[o], s.head.value) == Slot(s.roots[o], s.head.value))
  }

  ghost predicate Enabled(s: State, a: Action) {
    match a
    case Mutate(h) =>
      // programs reach objects they could reach before, and new ones
      s.mode.Running? && Sound(h, s.root) && forall o :: o in Reach(h, s.root) ==> o in Reach(s.live, s.root) || o !in s.used
    case Begin => s.mode.Running?
    case Visit(o) => s.mode.Saving? && o in s.mode.work && o in s.live
    case Commit(_) => s.mode.Saving? && s.mode.work == {}
    case Crash(_, rs, _, _, _) => !s.mode.Down? && Torn(s, rs)
    case Boot => s.mode.Down? && s.head.Some?
    case Rebuild(o) =>
      && s.mode.Restoring? && o in s.mode.todo && s.head.Some?
      && (o in s.mode.done || (o in s.roots && Slot(s.roots[o], s.head.value).Some?))
    case Ready => s.mode.Restoring? && s.mode.todo == {}
  }

  ghost function Do(s: State, a: Action): State
    requires Enabled(s, a)
  {
    match a
    case Mutate(h) => s.(live := h, used := s.used + h.Keys)
    case Begin =>
      var v := NextVersion(s);
      s.(second := if s.second.Some? then Some(v) else None, flip := !s.flip, mode := Saving(v, {s.root}, {}))
    case Visit(o) =>
      var r := RootOf(s, o);
      if r.flip == s.flip then
        s.(mode := s.mode.(work := s.mode.work - {o}))
      else
        s.(roots := s.roots[o := SetSlot(r.(flip := s.flip), s.mode.version, s.live[o])],
           mode := s.mode.(work := s.mode.work - {o} + KidSet(s.live[o]), seen := s.mode.seen + {o}))
    case Commit(ok) =>
      if ok then
        s.(head := Some(s.mode.version), second := s.latest, latest := Some(s.mode.version),
           saved := Graph(s.live, s.root), mode := Running)
      else
        s.(mode := Running)
    case Crash(h, rs, f, l, sec) => s.(live := h, roots := rs, flip := f, latest := l, second := sec, mode := Down)
    case Boot => s.(flip := false, mode := Restoring({s.root}, {}))
    case Rebuild(o) =>
      if o in s.mode.done then
        s.(mode := s.mode.(todo := s.mode.todo - {o}))
      else
        var n := Slot(s.roots[o], s.head.value).value;
        s.(live := s.live[o := n], roots := s.roots[o := s.roots[o].(flip := s.flip)],
           mode := Restoring(s.mode.todo - {o} + KidSet(n), s.mode.done + {o}))
    case Ready => s.(latest := s.head, second := None, mode := Running)
  }

  ghost function KidSet(n: Node): set<Oid> { set k | k in n.kids }

  // ------------------------------------------------------------------ invariant

  /** The current checkpoint is whole: its slots hold the graph of the last commit. */
  ghost predicate Whole(s: State) {
    s.head.Some? ==>
      && Closed(s.saved, s.root, s.saved.Keys) && Reach(s.saved, s.root) == s.saved.Keys
      && (forall o :: o in s.saved ==> o in s.roots && Slot(s.roots[o], s.head.value) == Some(s.saved[o]))
  }

  /** The records alternate between even and odd versions. */
  ghost predicate Alternates(s: State) {
    && s.latest == s.head
    && (s.second.Some? ==> s.head.Some? && s.second.value % 2 != s.head.value % 2)
  }

  ghost predicate Known(s: State) {
    s.roots.Keys <= s.used && Reach(s.live, s.root) <= s.used
  }

  /** Between checkpoints every reachable object is either marked as visited or has no root yet. */
  ghost predicate RunningOk(s: State) {
    && Sound(s.live, s.root) && Alternates(s) && Known(s)
    && (forall o :: o in Reach(s.live, s.root) && o in s.roots ==> s.roots[o].flip == s.flip)
  }

  /** During a checkpoint the visited objects are those marked; they are in their slots, and nothing is overlooked. */
  ghost predicate SavingOk(s: State) {
    s.mode.Saving? &&
    var m := s.mode;
    && Sound(s.live, s.root) && Alternates(s) && Known(s)
    && (s.head.Some? ==> m.version % 2 != s.head.value % 2)
    && (s.second.Some? ==> s.second == Some(m.version))
    && m.seen + m.work <= Reach(s.live, s.root) && s.root in m.seen + m.work
    && (forall o :: o in Reach(s.live, s.root) ==> (o in m.seen <==> o in s.roots && s.roots[o].flip == s.flip))
    && (forall o :: o in m.seen ==> Captured(s, o))
  }

  ghost predicate Captured(s: State, o: Oid)
    requires s.mode.Saving?
  {
    && o in s.live && o in s.roots && Slot(s.roots[o], s.mode.version) == Some(s.live[o])
    && KidSet(s.live[o]) <= s.mode.seen + s.mode.work
  }

  ghost predicate RestoringOk(s: State) {
    s.mode.Restoring? &&
    var m := s.mode;
    && s.head.Some? && s.roots.Keys <= s.used
    && m.done + m.todo <= s.saved.Keys && s.root in m.done + m.todo
    && (forall o :: o in m.done ==> Rebuilt(s, o))
  }

  ghost predicate Rebuilt(s: State, o: Oid)
    requires s.mode.Restoring?
  {
    && o in s.saved && o in s.live && s.live[o] == s.saved[o] && o in s.roots && s.roots[o].flip == s.flip
    && KidSet(s.saved[o]) <= s.mode.done + s.mode.todo
  }

  ghost predicate Inv(s: State) {
    && Whole(s) && s.roots.Keys <= s.used
    && (match s.mode
        case Running => RunningOk(s)
        case Saving(_, _, _) => SavingOk(s)
        case Down => true
        case Restoring(_, _) => RestoringOk(s))
  }

  ghost predicate Init(s: State) {
    && s.mode.Running? && s.roots == map[] && s.latest.None? && s.second.None? && s.head.None?
    && Sound(s.live, s.root) && s.live.Keys <= s.used
  }

  // ------------------------------------------------------------------ steps

  lemma MutateInv(s: State, h: Heap)
    requires Inv(s) && Enabled(s, Mutate(h))
    ensures Inv(Do(s, Mutate(h)))
  {
  }

  /** The next version has the other parity than the current one. */
  lemma NextParity(s: State)
    requires Alternates(s) && s.head.Some?
    ensures NextVersion(s) % 2 != s.head.value % 2
  {
    TwoMore(s.second);
  }

  lemma TwoMore(v: Option<nat>)
    ensures v.Some? ==> (v.value + 2) % 2 == v.value % 2
  {
  }

  lemma BeginInv(s: State)
    requires Inv(s) && Enabled(s, Begin)
    ensures Inv(Do(s, Begin))
  {
    if s.head.Some? {
      NextParity(s);
    }
    RootReached(s.live, s.root);
  }

  /** The slot of one parity is not touched by the other. */
  lemma OtherSlot(r: Root, v: nat, w: nat, n: Node, f: bool)
    requires v % 2 != w % 2
    ensures Slot(SetSlot(r.(flip := f), v, n), w) == Slot(r, w) && Slot(SetSlot(r.(flip := f), v, n), v) == Some(n)
  {
  }

  /** Visiting writes only the slot of the version in progress, so the current checkpoint stays whole. */
  lemma VisitWhole(s: State, o: Oid)
    requires Inv(s) && Enabled(s, Visit(o))
    ensures Whole(Do(s, Visit(o)))
  {
    if s.head.Some? {
      OtherSlot(RootOf(s, o), s.mode.version, s.head.value, s.live[o], s.flip);
    }
  }

  /** An object seen before is only taken off the list. */
  lemma VisitAgainInv(s: State, o: Oid)
    requires Inv(s) && Enabled(s, Visit(o)) && RootOf(s, o).flip == s.flip
    ensures SavingOk(Do(s, Visit(o)))
  {
    var t := Do(s, Visit(o));
    assert o in s.mode.seen;
    forall x | x in t.mode.seen ensures Captured(t, x) { assert Captured(s, x); }
  }

  /** A new object is captured, and its references are put on the list. */
  lemma VisitNewInv(s: State, o: Oid)
    requires Inv(s) && Enabled(s, Visit(o)) && RootOf(s, o).flip != s.flip
    ensures SavingOk(Do(s, Visit(o)))
  {
    var t := Do(s, Visit(o));
    ReachClosed(s.live, s.root);
    assert o !in s.mode.seen;
    forall x | x in t.mode.seen ensures Captured(t, x) {
      assert x in s.mode.seen ==> Captured(s, x);
    }
  }

  lemma VisitInv(s: State, o: Oid)
    requires Inv(s) && Enabled(s, Visit(o))
    ensures Inv(Do(s, Visit(o)))
  {
    VisitWhole(s, o);
    if RootOf(s, o).flip == s.flip { VisitAgainInv(s, o); } else { VisitNewInv(s, o); }
  }

  /** With nothing left to visit, exactly the reachable objects have been visited. */
  lemma TraversalComplete(s: State)
    requires SavingOk(s) && s.mode.work == {}
    ensures s.mode.seen == Reach(s.live, s.root)
  {
    forall o, k | o in s.mode.seen && k in s.live[o].kids ensures k in s.mode.seen {
      assert Captured(s, o) && k in KidSet(s.live[o]);
    }
    forall o | o in s.mode.seen ensures o in s.live { assert Captured(s, o); }
    assert Closed(s.live, s.root, s.mode.seen);
    ReachLeast(s.live, s.root, s.mode.seen);
  }

  lemma CommitInv(s: State, ok: bool)
    requires Inv(s) && Enabled(s, Commit(ok))
    ensures Inv(Do(s, Commit(ok)))
  {
    TraversalComplete(s);
    if ok {
      var t := Do(s, Commit(true));
      GraphIsSound(s.live, s.root);
      forall o | o in t.saved ensures o in t.roots && Slot(t.roots[o], t.head.value) == Some(t.saved[o]) {
        assert Captured(s, o);
      }
    }
  }

  lemma CrashInv(s: State, a: Action)
    requires Inv(s) && Enabled(s, a) && a.Crash?
    ensures Inv(Do(s, a))
  {
  }

  lemma BootInv(s: State)
    requires Inv(s) && Enabled(s, Boot)
    ensures Inv(Do(s, Boot))
  {
  }

  lemma RebuildInv(s: State, o: Oid)
    requires Inv(s) && Enabled(s, Rebuild(o))
    ensures Inv(Do(s, Rebuild(o)))
  {
    var t := Do(s, Rebuild(o));
    assert o in s.saved;
    forall x | x in t.mode.done ensures Rebuilt(t, x) {
      assert x in s.mode.done ==> Rebuilt(s, x);
      assert o !in s.mode.done ==> Slot(s.roots[o], s.head.value) == Some(s.saved[o]);
    }
    forall x | x in t.mode.todo ensures x in t.saved {
      if x !in s.mode.todo { assert x in s.saved[o].kids; }
    }
    assert Whole(t);
  }

  /** With nothing left to rebuild, the live graph is the graph of the last commit. */
  lemma RestoreComplete(s: State)
    requires Inv(s) && s.mode.Restoring? && s.mode.todo == {}
    ensures Graph(s.live, s.root) == s.saved && Reach(s.live, s.root) == s.saved.Keys == s.mode.done
  {
    var m := s.mode;
    forall o, k | o in m.done && k in s.saved[o].kids ensures k in m.done { assert Rebuilt(s, o) && k in KidSet(s.saved[o]); }
    assert Closed(s.saved, s.root, m.done);
    ReachLeast(s.saved, s.root, m.done);
    forall o | o in s.saved ensures o in s.live && s.live[o] == s.saved[o] { assert Rebuilt(s, o); }
    SameGraph(s.saved, s.live, s.root, s.saved.Keys);
    assert Graph(s.saved, s.root) == s.saved;
  }

  lemma ReadyInv(s: State)
    requires Inv(s) && Enabled(s, Ready)
    ensures Inv(Do(s, Ready))
  {
    RestoreComplete(s);
    forall o, k | o in Reach(s.live, s.root) && k in s.live[o].kids ensures k in s.live {
      assert Rebuilt(s, o) && k in s.saved[o].kids && Rebuilt(s, k);
    }
    forall o | o in Reach(s.live, s.root) ensures o in s.roots && s.roots[o].flip == s.flip { assert Rebuilt(s, o); }
  }

  lemma StepInv(s: State, a: Action)
    requires Inv(s) && Enabled(s, a)
    ensures Inv(Do(s, a))
  {
    match a
    case Mutate(h) => MutateInv(s, h);
    case Begin => BeginInv(s);
    case Visit(o) => VisitInv(s, o);
    case Commit(ok) => CommitInv(s, ok);
    case Crash(_, _, _, _, _) => CrashInv(s, a);
    case Boot => BootInv(s);
    case Rebuild(o) => RebuildInv(s, o);
    case Ready => ReadyInv(s);
  }

  // ------------------------------------------------------------------ runs

  ghost predicate Run(s: State, acts: seq<Action>, t: State)
    decreases |acts|
  {
    if acts == [] then s == t
    else Enabled(s, acts[0]) && Run(Do(s, acts[0]), acts[1..], t)
  }

  lemma {:induction false} RunInv(s: State, acts: seq<Action>, t: State)
    requires Inv(s) && Run(s, acts, t)
    ensures Inv(t)
    decreases |acts|
  {
    if acts != [] {
      StepInv(s, acts[0]);
      RunInv(Do(s, acts[0]), acts[1..], t);
    }
  }

  /** Only a successful commit changes what counts as the last committed graph. */
  lemma {:induction false} SavedStays(s: State, acts: seq<Action>, t: State)
    requires Run(s, acts, t) && Commit(true) !in acts
    ensures t.saved == s.saved && t.root == s.root
    decreases |acts|
  {
    if acts != [] {
      assert acts[0] != Commit(true);
      SavedStays(Do(s, acts[0]), acts[1..], t);
    }
  }

  lemma InitInv(s: State)
    requires Init(s)
    ensures Inv(s)
  {
  }

  /**
    Crash consistency: whatever happens after a commit -- mutations, failed and torn checkpoints, crashes
    and restores, in any order -- a completed restore gives exactly the object graph of that commit.
   */
  lemma {:induction false} RestoreYieldsLastCommit(s0: State, before: seq<Action>, c: State, after: seq<Action>, s: State)
    requires Init(s0) && Run(s0, before, c) && Enabled(c, Commit(true))
    requires Run(Do(c, Commit(true)), after, s) && Commit(true) !in after && Enabled(s, Ready)
    ensures Graph(Do(s, Ready).live, c.root) == Graph(c.live, c.root)
  {
    InitInv(s0);
    RunInv(s0, before, c);
    StepInv(c, Commit(true));
    RunInv(Do(c, Commit(true)), after, s);
    SavedStays(Do(c, Commit(true)), after, s);
    RestoreComplete(s);
  }

  /** No restore gets stuck: every object it still has to rebuild has its snapshot. */
  lemma {:induction false} RestoreNeverStuck(s0: State, acts: seq<Action>, s: State, o: Oid)
    requires Init(s0) && Run(s0, acts, s) && s.mode.Restoring? && o in s.mode.todo
    ensures Enabled(s, Rebuild(o))
  {
    InitInv(s0);
    RunInv(s0, acts, s);
    assert o in s.saved;
  }

  /** The assertion of ckpt_obj_get: an object found marked as visited has its snapshot of this version. */
  lemma {:induction false} VisitedHasSnapshot(s0: State, acts: seq<Action>, s: State, o: Oid)
    requires Init(s0) && Run(s0, acts, s) && Enabled(s, Visit(o)) && RootOf(s, o).flip == s.flip
    ensures o in s.roots && Slot(s.roots[o], s.mode.version) == Some(s.live[o])
  {
    InitInv(s0);
    RunInv(s0, acts, s);
    assert o in s.mode.seen && Captured(s, o);
  }

  /** A checkpoint in progress, or one that failed, never uses the slot parity of the current one. */
  lemma {:induction false} VersionsAlternate(s0: State, acts: seq<Action>, s: State)
    requires Init(s0) && Run(s0, acts, s) && s.head.Some?
    ensures s.mode.Saving? ==> s.mode.version % 2 != s.head.value % 2
    ensures s.mode.Running? ==> NextVersion(s) % 2 != s.head.value % 2
  {
    InitInv(s0);
    RunInv(s0, acts, s);
    if s.mode.Running? {
      NextParity(s);
    }
  }
}
