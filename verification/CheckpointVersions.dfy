/**
  Which version a checkpoint gets.  The record of the second latest checkpoint is reused with its version plus
  two, also by a checkpoint that then fails, so failed checkpoints push the two records apart.
 */
module CheckpointVersions {
  import opened Graphs
  import opened Options
  import opened Checkpoint

  /** History since the records were last set up: the debt of failed checkpoints, which every commit negates, the
      versions begun, and how many failed since the last commit. */
  datatype Hist = Hist(debt: int, tried: set<nat>, failed: nat)

  ghost function After(s: State, h: Hist, a: Action): Hist
    requires Enabled(s, a)
  {
    match a
    case Begin => h.(tried := h.tried + {NextVersion(s)})
    case Commit(ok) =>
      if ok then h.(debt := -h.debt, failed := 0)
      else h.(debt := if s.second.Some? then h.debt + 1 else 0, failed := h.failed + 1)
    case Ready => Hist(0, {}, 0)
    case _ => h
  }

  ghost function HistOf(s: State, acts: seq<Action>, t: State, h: Hist): Hist
    requires Run(s, acts, t)
    decreases |acts|
  {
    if acts == [] then h else HistOf(Do(s, acts[0]), acts[1..], t, After(s, h, acts[0]))
  }

  ghost predicate Below(tried: set<nat>, v: nat) { forall x :: x in tried ==> x < v }

  /** Both records exist: their distance, and that no version begun is above both. */
  ghost predicate Apart(latest: nat, second: nat, h: Hist) {
    && second == latest - 1 + 2 * h.debt && latest in h.tried
    && forall x :: x in h.tried ==> x <= latest || x <= second
  }

  /** At most one record exists: a failed checkpoint leaves no trace, and its version is used again. */
  ghost predicate Single(next: nat, h: Hist) {
    && h.debt == 0 && (forall x :: x in h.tried ==> x <= next)
    && (next in h.tried <==> h.failed > 0)
  }

  ghost predicate HistOk(s: State, h: Hist) {
    match s.mode
    case Running =>
      if s.second.Some? then s.latest.Some? && Apart(s.latest.value, s.second.value, h) else Single(NextVersion(s), h)
    case Saving(v, _, _) =>
      && v in h.tried
      && (if s.second.Some? then
            && s.latest.Some? && s.second.value == v == s.latest.value + 1 + 2 * h.debt && s.latest.value in h.tried
            && (forall x :: x in h.tried ==> x <= s.latest.value || x <= v)
          else v == NextVersion(s) && h.debt == 0 && forall x :: x in h.tried ==> x <= v)
    case _ => true
  }

  lemma StepHist(s: State, h: Hist, a: Action)
    requires HistOk(s, h) && Enabled(s, a)
    ensures HistOk(Do(s, a), After(s, h, a))
  {
  }

  lemma {:induction false} RunHist(s: State, acts: seq<Action>, t: State, h: Hist)
    requires HistOk(s, h) && Run(s, acts, t)
    ensures HistOk(t, HistOf(s, acts, t, h))
    decreases |acts|
  {
    if acts != [] {
      StepHist(s, h, acts[0]);
      RunHist(Do(s, acts[0]), acts[1..], t, After(s, h, acts[0]));
    }
  }

  const FRESH := Hist(0, {}, 0)

  /** The version of the next checkpoint is one more than the last committed one, plus twice the debt. */
  lemma {:induction false} VersionExact(s0: State, acts: seq<Action>, s: State)
    requires Init(s0) && Run(s0, acts, s) && (s.mode.Running? || s.mode.Saving?)
    ensures
      var h := HistOf(s0, acts, s, FRESH);
      var v := if s.mode.Saving? then s.mode.version else NextVersion(s);
      && s.latest == s.head
      && v == (if s.head.Some? then s.head.value + 1 + 2 * h.debt else 1)
      && (s.second.None? ==> h.debt == 0)
  {
    InitInv(s0);
    RunInv(s0, acts, s);
    RunHist(s0, acts, s, FRESH);
  }

  /**
    The next version is above the last committed one if and only if the debt is not negative.  It is above every
    version begun since the records were set up if and only if, in addition, there are two records or no checkpoint
    has failed since the last commit.
   */
  lemma {:induction false} VersionRisesIff(s0: State, acts: seq<Action>, s: State)
    requires Init(s0) && Run(s0, acts, s) && s.mode.Running?
    ensures
      var h := HistOf(s0, acts, s, FRESH);
      && (s.head.Some? ==> (NextVersion(s) > s.head.value <==> h.debt >= 0))
      && (Below(h.tried, NextVersion(s)) <==> h.debt >= 0 && (s.second.Some? || h.failed == 0))
  {
    VersionExact(s0, acts, s);
    RunHist(s0, acts, s, FRESH);
  }

  ghost predicate NeverFails(acts: seq<Action>) { Commit(false) !in acts }

  lemma {:induction false} NoDebt(s: State, acts: seq<Action>, t: State, h: Hist)
    requires Run(s, acts, t) && NeverFails(acts) && h.debt == 0 && h.failed == 0
    ensures HistOf(s, acts, t, h).debt == 0 && HistOf(s, acts, t, h).failed == 0
    decreases |acts|
  {
    if acts != [] {
      assert acts[0] in acts && acts[0] != Commit(false);
      assert NeverFails(acts[1..]) by { assert forall a :: a in acts[1..] ==> a in acts; }
      NoDebt(Do(s, acts[0]), acts[1..], t, After(s, h, acts[0]));
    }
  }

  /** While no checkpoint fails, whatever crashes and restores there are, versions follow each other one by one. */
  lemma {:induction false} VersionsFollow(s0: State, acts: seq<Action>, s: State)
    requires Init(s0) && Run(s0, acts, s) && s.mode.Saving? && NeverFails(acts)
    ensures s.mode.version == if s.head.Some? then s.head.value + 1 else 1
  {
    VersionExact(s0, acts, s);
    NoDebt(s0, acts, s, FRESH);
  }

  // ------------------------------------------------------------------ a version that falls back

  ghost predicate Reachable(s: State, t: State) { exists acts :: Run(s, acts, t) }

  lemma {:induction false} Extend(s: State, acts: seq<Action>, t: State, a: Action)
    requires Run(s, acts, t) && Enabled(t, a)
    ensures Run(s, acts + [a], Do(t, a))
    decreases |acts|
  {
    if acts == [] {
      assert [] + [a] == [a] && [a][1..] == [];
      assert Run(Do(t, a), [], Do(t, a));
    } else {
      Extend(Do(s, acts[0]), acts[1..], t, a);
      assert (acts + [a])[0] == acts[0] && (acts + [a])[1..] == acts[1..] + [a];
    }
  }

  lemma Then(s: State, t: State, a: Action)
    requires Reachable(s, t) && Enabled(t, a)
    ensures Reachable(s, Do(t, a))
  {
    var acts :| Run(s, acts, t);
    Extend(s, acts, t, a);
  }

  /** A system of one object, between checkpoints. */
  ghost predicate Lone(s: State) {
    s.mode.Running? && s.root == 0 && s.live == map[0 := Node(0, [])] && (0 in s.roots ==> s.roots[0].flip == s.flip)
  }

  /** One whole checkpoint of it. */
  lemma OneCheckpoint(s0: State, s: State, ok: bool) returns (t: State)
    requires Reachable(s0, s) && Lone(s)
    ensures Reachable(s0, t) && Lone(t)
    ensures t.latest == if ok then Some(NextVersion(s)) else s.latest
    ensures t.second == if ok then s.latest else if s.second.Some? then Some(NextVersion(s)) else None
    ensures t.head == if ok then Some(NextVersion(s)) else s.head
  {
    var s1 := Do(s, Begin);
    Then(s0, s, Begin);
    var s2 := Do(s1, Visit(0));
    Then(s0, s1, Visit(0));
    assert KidSet(s1.live[0]) == {};
    t := Do(s2, Commit(ok));
    Then(s0, s2, Commit(ok));
  }

  function Start(): State { State(0, map[0 := Node(0, [])], map[], false, None, None, None, {0}, map[], Running) }

  /** Checkpoints 1 and 2 are committed, 3 fails, 5 is committed; the next one is 4. */
  lemma VersionFallsBack()
    ensures Init(Start())
    ensures exists s :: Reachable(Start(), s) && s.mode.Running? && s.head == Some(5) && NextVersion(s) == 4
  {
    var s := Start();
    assert Run(s, [], s);
    s := OneCheckpoint(Start(), s, true);
    s := OneCheckpoint(Start(), s, true);
    s := OneCheckpoint(Start(), s, false);
    s := OneCheckpoint(Start(), s, true);
  }
}
