/**
  Joining resets a machine's own era to 1 but leaves the eras that others recorded for it
  and the stamps it left on objects.  Commit detection survives a join exactly when none of
  those is left over from an earlier life.
 */
module RefRejoin {
  import opened RefProtocol
  import opened RefInvariant
  import opened RefTheorems

  // ---------------------------------------------------------------- reachability

  ghost predicate Reachable(s: State, t: State)
    requires Shape(s)
    ensures Reachable(s, t) ==> Shape(t)
  {
    exists acts :: Reaches(s, acts, t)
  }

  lemma Cons(s: State, a: Action, acts: seq<Action>, t: State)
    requires Shape(s) && Enabled(s, a) && Clean(s, a) && Shape(Do(s, a)) && Reaches(Do(s, a), acts, t)
    ensures Reaches(s, [a] + acts, t)
  {
    assert ([a] + acts)[0] == a && ([a] + acts)[1..] == acts;
  }

  lemma {:induction false} Append(s: State, a: seq<Action>, t: State, b: seq<Action>, u: State)
    requires Shape(s) && Reaches(s, a, t) && Reaches(t, b, u)
    ensures Reaches(s, a + b, u)
    decreases |a|
  {
    if a == [] {
      assert a + b == b;
    } else {
      var s' := Do(s, a[0]);
      assert Reaches(s', a[1..] + b, u) by { Append(s', a[1..], t, b, u); }
      assert (a + b)[0] == a[0] && (a + b)[1..] == a[1..] + b;
    }
  }

  lemma Chain(s: State, t: State, u: State)
    requires Shape(s) && Reachable(s, t) && Reachable(t, u)
    ensures Reachable(s, u)
  {
    var a :| Reaches(s, a, t);
    var b :| Reaches(t, b, u);
    Append(s, a, t, b, u);
  }

  lemma Here(s: State)
    requires Shape(s)
    ensures Reachable(s, s)
  {
    assert Reaches(s, [], s);
  }

  /** One more clean step. */
  lemma Then(s: State, t: State, a: Action)
    requires Shape(s) && Reachable(s, t) && Enabled(t, a) && Clean(t, a) && Shape(Do(t, a))
    ensures Reachable(s, Do(t, a))
  {
    Here(Do(t, a));
    assert Reachable(t, Do(t, a)) by { Cons(t, a, [], Do(t, a)); }
    Chain(s, t, Do(t, a));
  }

  // ---------------------------------------------------------------- one operation, undisturbed

  /** After start, load and record of one operation of machine m. */
  ghost function RecordedState(s: State, m: nat, op: Op, loc: Loc, obj: Obj): (t: State)
    requires Shape(s) && Enabled(s, Start(m, op, loc, obj))
    ensures Shape(t) && |t.machines| == |s.machines| && t.ri == s.ri && t.cells == s.cells && t.owner == s.owner
    ensures forall k :: 0 <= k < |s.machines| && k != m ==> t.machines[k] == s.machines[k]
    ensures t.machines[m].pc == Recorded(Txn(op, loc, obj, s.ri[obj], s.machines[m].row[m]))
    ensures t.machines[m] == s.machines[m].(pc := t.machines[m].pc, row := t.machines[m].row)
    ensures
      var row, seen := s.machines[m].row, s.ri[obj];
      t.machines[m].row == if seen.era > row[seen.lcid] then row[seen.lcid := seen.era] else row
  {
    Do(Do(Do(s, Start(m, op, loc, obj)), Load(m)), Record(m))
  }

  lemma RunToRecorded(s: State, m: nat, op: Op, loc: Loc, obj: Obj)
    requires Shape(s) && Enabled(s, Start(m, op, loc, obj))
    ensures Reachable(s, RecordedState(s, m, op, loc, obj))
  {
    var s1 := Do(s, Start(m, op, loc, obj));
    Here(s);
    Then(s, s, Start(m, op, loc, obj));
    Then(s, s1, Load(m));
    Then(s, Do(s1, Load(m)), Record(m));
  }

  ghost predicate CanLand(s: State, m: nat) {
    && Shape(s) && Running(s, m) && s.machines[m].pc.Recorded?
    && s.machines[m].pc.t.obj in s.ri && s.ri[s.machines[m].pc.t.obj] == s.machines[m].pc.t.seen
  }

  /** After the redo entry and a CAS that lands. */
  ghost function LandedState(s: State, m: nat): (u: State)
    requires CanLand(s, m)
    ensures Shape(u) && |u.machines| == |s.machines| && u.cells == s.cells && u.owner == s.owner
    ensures forall k :: 0 <= k < |s.machines| && k != m ==> u.machines[k] == s.machines[k]
    ensures
      var M, t := s.machines[m], s.machines[m].pc.t;
      && u.machines[m] == M.(pc := Committed(t), redo := M.redo[t.era % REDO_CNT := EntryOf(t)], landed := true)
      && u.ri == s.ri[t.obj := RefInfo(m, NewCount(t.op, t.seen.cnt), t.era)]
  {
    Do(Do(s, Log(m)), Cas(m))
  }

  lemma RunToLanded(s: State, m: nat)
    requires CanLand(s, m)
    ensures Reachable(s, LandedState(s, m))
  {
    Here(s);
    Then(s, s, Log(m));
    Then(s, Do(s, Log(m)), Cas(m));
  }

  ghost predicate CanFinish(s: State, m: nat) {
    && Shape(s) && Running(s, m) && s.machines[m].pc.Committed?
    && s.machines[m].pc.t.loc in s.owner && s.owner[s.machines[m].pc.t.loc] < |s.machines|
  }

  /** After the cell write and the era bump. */
  ghost function DoneState(s: State, m: nat): (u: State)
    requires CanFinish(s, m)
    ensures Shape(u) && |u.machines| == |s.machines| && u.ri == s.ri && u.owner == s.owner
    ensures forall k :: 0 <= k < |s.machines| && k != m ==> u.machines[k] == s.machines[k]
    ensures
      var M, t := s.machines[m], s.machines[m].pc.t;
      && u.machines[m] == M.(pc := Idle, row := M.row[m := M.row[m] + 1])
      && u.cells == s.cells[t.loc := CellValue(t.op, t.obj)]
  {
    Do(Do(s, WriteCell(m)), BumpEra(m))
  }

  lemma RunToDone(s: State, m: nat)
    requires CanFinish(s, m)
    ensures Reachable(s, DoneState(s, m))
  {
    Here(s);
    Then(s, s, WriteCell(m));
    Then(s, Do(s, WriteCell(m)), BumpEra(m));
  }

  /** Every entry of m's ring is older than m's present era. */
  ghost predicate RingBehind(s: State, m: nat)
    requires Shape(s) && m < |s.machines|
  {
    var M := s.machines[m];
    RingOk(M.redo) && forall k :: 0 <= k < |M.redo| && M.redo[k].Entry? ==> M.redo[k].era < M.row[m]
  }

  /** One operation of m from start to end, on an object whose stamp is not ahead of m. */
  lemma OpAlone(s: State, m: nat, op: Op, loc: Loc, obj: Obj) returns (u: State)
    requires Shape(s) && Enabled(s, Start(m, op, loc, obj)) && RingBehind(s, m)
    requires s.ri[obj].lcid == m ==> s.ri[obj].era <= s.machines[m].row[m]
    ensures Reachable(s, u)
    ensures |u.machines| == |s.machines| && Running(u, m) && u.machines[m].pc.Idle? && u.owner == s.owner
    ensures u.machines[m].row[m] == s.machines[m].row[m] + 1 && RingBehind(u, m)
    ensures forall k :: 0 <= k < |s.machines| && k != m ==> u.machines[k] == s.machines[k]
    ensures u.ri == s.ri[obj := RefInfo(m, NewCount(op, s.ri[obj].cnt), s.machines[m].row[m])]
    ensures u.cells == s.cells[loc := CellValue(op, obj)]
  {
    var r := RecordedState(s, m, op, loc, obj);
    var t := LandedState(r, m);
    u := DoneState(t, m);
    assert Reachable(s, u) by {
      RunToRecorded(s, m, op, loc, obj);
      RunToLanded(r, m);
      RunToDone(t, m);
      Chain(s, r, t);
      Chain(s, t, u);
    }
  }

  /** m works n times on one cell and object, linking and unlinking in turn. */
  lemma {:induction false} Spin(s: State, m: nat, op: Op, loc: Loc, p: Obj, n: nat) returns (u: State)
    requires Shape(s) && Enabled(s, Start(m, op, loc, p)) && RingBehind(s, m)
    requires s.ri[p].lcid == m ==> s.ri[p].era <= s.machines[m].row[m]
    ensures Reachable(s, u) && |u.machines| == |s.machines| && Running(u, m) && u.machines[m].pc.Idle? && RingBehind(u, m)
    ensures u.machines[m].row[m] == s.machines[m].row[m] + n && u.owner == s.owner
    ensures u.ri.Keys == s.ri.Keys && (forall o :: o in s.ri && o != p ==> u.ri[o] == s.ri[o])
    ensures u.cells.Keys == s.cells.Keys && (forall l :: l in s.cells && l != loc ==> u.cells[l] == s.cells[l])
    decreases n
  {
    if n == 0 {
      u := s;
      Here(s);
    } else {
      var t := OpAlone(s, m, op, loc, p);
      u := Spin(t, m, if op.Link? then Unlink else Link, loc, p, n - 1);
      Chain(s, t, u);
    }
  }

  // ---------------------------------------------------------------- leftovers that mislead recovery

  /** No continuation of s makes recovery misjudge machine m. */
  ghost predicate ExactForever(s: State, m: nat)
    requires Shape(s)
  {
    forall t :: Reachable(s, t) && m < |t.machines| ==> Exact(t, m)
  }

  lemma LaterBreaks(s: State, t: State, m: nat)
    requires Shape(s) && Reachable(s, t) && !ExactForever(t, m)
    ensures !ExactForever(s, m)
  {
    var u :| Reachable(t, u) && m < |u.machines| && !Exact(u, m);
    Chain(s, t, u);
  }

  /** m logs an operation in the present era; recovery takes it for committed if it finds evidence. */
  lemma LogBreaks(s: State, m: nat, op: Op, loc: Loc, obj: Obj)
    requires Shape(s) && Enabled(s, Start(m, op, loc, obj)) && RingBehind(s, m)
    requires
      || (exists j :: 0 <= j < |s.machines| && j != m && s.machines[j].row[m] >= s.machines[m].row[m])
      || (s.ri[obj].lcid == m && s.ri[obj].era == s.machines[m].row[m])
    ensures !ExactForever(s, m)
  {
    var r := RecordedState(s, m, op, loc, obj);
    RunToRecorded(s, m, op, loc, obj);
    Then(s, r, Log(m));
    var t := Do(r, Log(m));
    var era, redo, e := s.machines[m].row[m], t.machines[m].redo, EntryOf(r.machines[m].pc.t);
    LatestIsSlot(redo, era);
    if j :| 0 <= j < |s.machines| && j != m && s.machines[j].row[m] >= era {
      assert RowShows(t, j, m, e);
    } else {
      assert CaseA(t, m, e);
    }
    assert !Exact(t, m);
  }

  /** m has just joined and can start an operation. */
  ghost predicate Joined(s: State, m: nat) {
    && Shape(s) && m < |s.machines| && s.machines[m].row[m] == 1 && s.machines[m].redo == EmptyRing()
    && exists op, loc, obj :: Enabled(s, Start(m, op, loc, obj))
  }

  /** A leftover era of m in another row makes m's first logged operation look committed. */
  lemma StaleRowBreaks(s: State, m: nat, j: nat)
    requires Joined(s, m) && j < |s.machines| && j != m && s.machines[j].row[m] >= 1
    ensures !ExactForever(s, m)
  {
    var op, loc, obj :| Enabled(s, Start(m, op, loc, obj));
    assert RingBehind(s, m);
    LogBreaks(s, m, op, loc, obj);
  }

  /** A leftover stamp of m on an object reaches another row as soon as anyone else works on that object. */
  lemma StaleStampBreaks(s: State, m: nat, k: nat, op: Op, loc: Loc, o: Obj)
    requires Joined(s, m) && k != m && Enabled(s, Start(k, op, loc, o)) && s.ri[o].lcid == m && s.ri[o].era >= 1
    ensures !ExactForever(s, m)
  {
    var r := RecordedState(s, k, op, loc, o);
    RunToRecorded(s, k, op, loc, o);
    var op', loc', obj :| Enabled(s, Start(m, op', loc', obj));
    assert Enabled(r, Start(m, op', loc', obj));
    StaleRowBreaks(r, m, k);
    LaterBreaks(s, r, m);
  }

  /** A live machine that has loaded a leftover stamp of m records it one step later. */
  lemma StaleReaderBreaks(s: State, m: nat, k: nat)
    requires Joined(s, m) && k < |s.machines| && k != m && Reading(s.machines[k])
    requires s.machines[k].pc.t.seen.lcid == m && s.machines[k].pc.t.seen.era >= 1
    ensures !ExactForever(s, m)
  {
    var r := Do(s, Record(k));
    Here(s);
    Then(s, s, Record(k));
    var op, loc, obj :| Enabled(s, Start(m, op, loc, obj));
    assert Enabled(r, Start(m, op, loc, obj));
    StaleRowBreaks(r, m, k);
    LaterBreaks(s, r, m);
  }

  /** m reaches the era of its leftover stamp by working elsewhere, and then comes back to the stamped object. */
  lemma OwnStampBreaks(s: State, m: nat, op: Op, loc: Loc, o: Obj, op': Op, loc': Loc, p: Obj)
    requires Joined(s, m) && Enabled(s, Start(m, op, loc, o)) && Enabled(s, Start(m, op', loc', p))
    requires loc' != loc && p != o && (s.ri[p].lcid == m ==> s.ri[p].era <= 1)
    requires s.ri[o].lcid == m && s.ri[o].era >= 1
    ensures !ExactForever(s, m)
  {
    assert RingBehind(s, m);
    var u := Spin(s, m, op', loc', p, s.ri[o].era - 1);
    LogBreaks(u, m, op, loc, o);
    LaterBreaks(s, u, m);
  }

  /** Another machine can work on the object. */
  ghost predicate UsedByOther(s: State, m: nat, o: Obj)
    requires Shape(s)
  {
    exists k, op, loc :: k != m && Enabled(s, Start(k, op, loc, o))
  }

  /** m itself can work on the object, at once in the era of its stamp, or also on another object from another cell. */
  ghost predicate UsedByOwner(s: State, m: nat, o: Obj)
    requires Shape(s) && o in s.ri
  {
    exists op, loc :: Enabled(s, Start(m, op, loc, o)) && (s.ri[o].era == 1 || Elsewhere(s, m, loc, o))
  }

  ghost predicate Elsewhere(s: State, m: nat, loc: Loc, o: Obj)
    requires Shape(s)
  {
    exists op, loc', p :: loc' != loc && p != o && Enabled(s, Start(m, op, loc', p)) && (s.ri[p].lcid == m ==> s.ri[p].era <= 1)
  }

  /** m can start some operation, and every object m once stamped can still be worked on. */
  ghost predicate InUse(s: State, m: nat)
    requires Shape(s)
  {
    && (exists op, loc, obj :: Enabled(s, Start(m, op, loc, obj)))
    && (forall o :: o in s.ri && s.ri[o].lcid == m && s.ri[o].era >= 1 ==> UsedByOther(s, m, o) || UsedByOwner(s, m, o))
  }

  lemma UsedStampBreaks(s: State, m: nat, o: Obj)
    requires Joined(s, m) && InUse(s, m) && o in s.ri && s.ri[o].lcid == m && s.ri[o].era >= 1
    ensures !ExactForever(s, m)
  {
    assert RingBehind(s, m);
    if UsedByOther(s, m, o) {
      var k, op, loc :| k != m && Enabled(s, Start(k, op, loc, o));
      StaleStampBreaks(s, m, k, op, loc, o);
    } else {
      var op, loc :| Enabled(s, Start(m, op, loc, o)) && (s.ri[o].era == 1 || Elsewhere(s, m, loc, o));
      if s.ri[o].era == 1 {
        LogBreaks(s, m, op, loc, o);
      } else {
        var op', loc', p :| loc' != loc && p != o && Enabled(s, Start(m, op', loc', p)) && (s.ri[p].lcid == m ==> s.ri[p].era <= 1);
        OwnStampBreaks(s, m, op, loc, o, op', loc', p);
      }
    }
  }

  lemma FreshJoinStaysExact(s: State, m: nat)
    requires Inv(s) && Enabled(s, Join(m)) && Fresh(s, m)
    ensures ExactForever(Do(s, Join(m)), m)
  {
    var s' := Do(s, Join(m));
    JoinInv(s, m);
    forall t | Reachable(s', t) && m < |t.machines| ensures Exact(t, m) {
      var acts :| Reaches(s', acts, t);
      RunInv(s', acts, t);
      InvExact(t, m);
    }
  }

  lemma StaleJoinBreaks(s: State, m: nat)
    requires Shape(s) && Enabled(s, Join(m)) && InUse(Do(s, Join(m)), m) && !Fresh(s, m)
    ensures !ExactForever(Do(s, Join(m)), m)
  {
    var s' := Do(s, Join(m));
    if j :| 0 <= j < |s.machines| && j != m && s.machines[j].row[m] != 0 {
      StaleRowBreaks(s', m, j);
    } else if o :| o in s.ri && s.ri[o].lcid == m && s.ri[o].era != 0 {
      UsedStampBreaks(s', m, o);
    } else {
      var k :| 0 <= k < |s.machines| && Reading(s.machines[k]) && s.machines[k].pc.t.seen.lcid == m && s.machines[k].pc.t.seen.era != 0;
      StaleReaderBreaks(s', m, k);
    }
  }

  /** Commit detection stays exact after a join if and only if the join is fresh. */
  lemma JoinExactIffFresh(s: State, m: nat)
    requires Inv(s) && Enabled(s, Join(m)) && InUse(Do(s, Join(m)), m)
    ensures Fresh(s, m) <==> ExactForever(Do(s, Join(m)), m)
  {
    if Fresh(s, m) { FreshJoinStaysExact(s, m); } else { StaleJoinBreaks(s, m); }
  }

  // ---------------------------------------------------------------- a concrete second join

  /** Two machines that have not linked anything yet, and one object. */
  function Two(pc0: Pc, row0: seq<nat>, pc1: Pc, row1: seq<nat>): State {
    State([Machine(pc0, true, row0, EmptyRing(), false, NotRecovered), Machine(pc1, true, row1, EmptyRing(), false, NotRecovered)],
          map[1 := RefInfo(0, 0, 0)], map[8 := 0, 9 := 0, 10 := 0], map[8 := 0, 9 := 1, 10 := 0])
  }

  function Boot(): State { Two(Offline, [0, 0], Offline, [0, 0]) }

  lemma FirstJoin()
    ensures Shape(Boot()) && Enabled(Boot(), Join(0)) && Fresh(Boot(), 0)
    ensures Do(Boot(), Join(0)) == Two(Idle, [1, 0], Offline, [0, 0])
  {
    var s, n := Boot(), Two(Idle, [1, 0], Offline, [0, 0]);
    assert s.machines[0].row[0 := 1] == [1, 0];
    assert Do(s, Join(0)).machines == n.machines;
  }

  lemma SecondJoin()
    ensures var s := Two(Idle, [1, 0], Offline, [0, 0]); Shape(s) && Enabled(s, Join(1)) && Fresh(s, 1)
    ensures Do(Two(Idle, [1, 0], Offline, [0, 0]), Join(1)) == Two(Idle, [1, 0], Idle, [0, 1])
  {
    var s := Two(Idle, [1, 0], Offline, [0, 0]);
    assert s.machines[1].row[1 := 1] == [0, 1];
    assert Do(s, Join(1)).machines == Two(Idle, [1, 0], Idle, [0, 1]).machines;
  }

  lemma BothJoin()
    ensures Shape(Boot()) && Reachable(Boot(), Two(Idle, [1, 0], Idle, [0, 1]))
  {
    var one := Two(Idle, [1, 0], Offline, [0, 0]);
    FirstJoin();
    assert Reachable(Boot(), one) by {
      Here(Boot());
      Then(Boot(), Boot(), Join(0));
    }
    SecondJoin();
    Then(Boot(), one, Join(1));
  }

  /** Both have joined; machine 0 can link cell 8. */
  function Ready(): State { Two(Idle, [1, 0], Idle, [0, 1]) }

  lemma ReadyToLink()
    ensures Shape(Ready()) && Enabled(Ready(), Start(0, Link, 8, 1)) && RingBehind(Ready(), 0)
  {
  }

  /** Machine 0 links cell 8 to object 1 with its era 1. */
  lemma FirstLife() returns (s: State)
    ensures Shape(Boot()) && Reachable(Boot(), s)
    ensures |s.machines| == 2 && Running(s, 0) && s.machines[0].pc.Idle?
    ensures Running(s, 1) && s.machines[1].pc.Idle? && s.machines[1].row == [0, 1]
    ensures s.cells == Boot().cells[8 := 1] && s.owner == Boot().owner && s.ri == map[1 := RefInfo(0, 1, 1)]
  {
    ReadyToLink();
    s := OpAlone(Ready(), 0, Link, 8, 1);
    assert Reachable(Boot(), s) by {
      BothJoin();
      Chain(Boot(), Ready(), s);
    }
  }

  /** Machine 1 records era 1 of machine 0 while linking cell 9; then machine 0 leaves. */
  lemma SeenThenLeave() returns (s: State)
    ensures Shape(Boot()) && Reachable(Boot(), s) && Enabled(s, Join(0))
    ensures |s.machines| == 2 && s.machines[1].row[0] >= 1
    ensures s.cells == Boot().cells[8 := 1] && s.owner == Boot().owner && s.ri.Keys == {1}
  {
    var s1 := FirstLife();
    var s2 := RecordedState(s1, 1, Link, 9, 1);
    assert Reachable(Boot(), s2) by {
      RunToRecorded(s1, 1, Link, 9, 1);
      Chain(Boot(), s1, s2);
    }
    Then(Boot(), s2, Leave(0));
    s := Do(s2, Leave(0));
  }

  lemma BootIsInit()
    ensures Init(Boot())
  {
    assert Refs(Boot(), 1) == {};
  }

  /** From boot: machine 0 links once, machine 1 sees the stamp, machine 0 leaves and joins again.
      From there some run makes recovery apply an operation whose CAS never landed. */
  lemma RejoinMisjudges()
    ensures Init(Boot())
    ensures exists s :: Reachable(Boot(), s) && Enabled(s, Join(0)) && !ExactForever(Do(s, Join(0)), 0)
  {
    BootIsInit();
    var s := SeenThenLeave();
    assert Enabled(Do(s, Join(0)), Start(0, Link, 10, 1));
    StaleRowBreaks(Do(s, Join(0)), 0, 1);
  }
}
