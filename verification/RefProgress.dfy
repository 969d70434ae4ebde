/**
  The CAS loop of link and unlink: an operation left alone comes to its end from any point, and
  a CAS fails exactly when another one landed on the object since it was loaded.
 */
module RefProgress {
  import opened RefProtocol
  import opened RefInvariant
  import opened RefSharedSteps
  import opened RefTheorems

  // ---------------------------------------------------------------- an operation left alone

  /** Steps of m's operation in flight. */
  predicate Own(a: Action, m: nat) {
    a == Load(m) || a == Record(m) || a == Log(m) || a == Cas(m) || a == WriteCell(m) || a == BumpEra(m)
  }

  ghost predicate AllOwn(acts: seq<Action>, m: nat) { forall i :: 0 <= i < |acts| ==> Own(acts[i], m) }

  function Next(pc: Pc, m: nat): Action
    requires InFlight(pc)
  {
    match pc
    case Begun(_, _, _) => Load(m)
    case Loaded(_) => Record(m)
    case Recorded(_) => Log(m)
    case Logged(_) => Cas(m)
    case Committed(_) => WriteCell(m)
    case Written(_) => BumpEra(m)
  }

  /** t is s with m's operation done: cell and era, and the count unless the CAS had landed already. */
  ghost predicate Finished(s: State, m: nat, t: State)
    requires m < |s.machines| && m < |s.machines[m].row| && InFlight(s.machines[m].pc) && ObjOf(s.machines[m].pc) in s.ri
  {
    var pc, era := s.machines[m].pc, s.machines[m].row[m];
    var o := ObjOf(pc);
    && |t.machines| == |s.machines| && t.owner == s.owner
    && t.machines[m].pc.Idle? && t.machines[m].alive
    && m < |t.machines[m].row| && t.machines[m].row[m] == era + 1
    && (forall k :: 0 <= k < |s.machines| && k != m ==> t.machines[k] == s.machines[k])
    && t.cells == s.cells[LocOf(pc) := CellValue(OpOf(pc), o)]
    && t.ri == if LandedPc(pc) then s.ri else s.ri[o := RefInfo(m, NewCount(OpOf(pc), s.ri[o].cnt), era)]
  }

  ghost predicate Stale(s: State, pc: Pc)
    requires InFlight(pc)
  {
    HasTxn(pc) && !LandedPc(pc) && ObjOf(pc) in s.ri && s.ri[ObjOf(pc)] != pc.t.seen
  }

  /** Steps still to be taken; an attempt that loaded an old word has to be made again. */
  ghost function ToGo(s: State, m: nat): nat
    requires m < |s.machines| && InFlight(s.machines[m].pc)
  {
    var pc := s.machines[m].pc;
    match pc
    case Written(_) => 1
    case Committed(_) => 2
    case Logged(_) => if Stale(s, pc) then 7 else 3
    case Recorded(_) => if Stale(s, pc) then 8 else 4
    case Loaded(_) => if Stale(s, pc) then 9 else 5
    case Begun(_, _, _) => 6
  }

  /** What one own step of m from s does to memory, to m's era and to where m stands. */
  ghost predicate Advanced(s: State, m: nat, s': State)
    requires Shape(s) && m < |s.machines| && InFlight(s.machines[m].pc)
  {
    var pc, era := s.machines[m].pc, s.machines[m].row[m];
    var op, loc, o := OpOf(pc), LocOf(pc), ObjOf(pc);
    && Shape(s') && |s'.machines| == |s.machines| && s'.owner == s.owner && Running(s', m)
    && (forall k :: 0 <= k < |s.machines| && k != m ==> s'.machines[k] == s.machines[k])
    && o in s.ri && loc in s.cells
    && var pc', era' := s'.machines[m].pc, s'.machines[m].row[m];
    if pc.Written? then
      pc'.Idle? && era' == era + 1 && s'.ri == s.ri && s'.cells == s.cells && s.cells[loc] == CellValue(op, o)
    else
      && InFlight(pc') && OpOf(pc') == op && LocOf(pc') == loc && ObjOf(pc') == o && era' == era
      && ToGo(s', m) == ToGo(s, m) - 1
      && s'.cells == (if pc.Committed? then s.cells[loc := CellValue(op, o)] else s.cells)
      && (if pc.Logged? && !Stale(s, pc) then
            s'.ri == s.ri[o := RefInfo(m, NewCount(op, s.ri[o].cnt), era)] && LandedPc(pc')
          else s'.ri == s.ri && (LandedPc(pc') <==> LandedPc(pc)))
  }

  lemma AdvanceTry(s: State, m: nat)
    requires Shape(s) && Running(s, m) && OpOk(s, m)
    requires s.machines[m].pc.Begun? || s.machines[m].pc.Recorded?
    ensures Enabled(s, Next(s.machines[m].pc, m)) && Advanced(s, m, Do(s, Next(s.machines[m].pc, m)))
  {
  }

  /** Recording what was loaded never moves the own era: a stamp of m is not ahead of m. */
  lemma AdvanceRecord(s: State, m: nat)
    requires Shape(s) && Running(s, m) && OpOk(s, m) && s.machines[m].pc.Loaded? && s.machines[m].pc.t.seen.lcid < |s.machines|
    requires s.machines[m].pc.t.seen.lcid == m ==> s.machines[m].pc.t.seen.era <= s.machines[m].row[m]
    ensures Enabled(s, Record(m)) && Advanced(s, m, Do(s, Record(m)))
  {
  }

  lemma AdvanceCas(s: State, m: nat)
    requires Shape(s) && Running(s, m) && OpOk(s, m) && s.machines[m].pc.Logged?
    ensures Enabled(s, Cas(m)) && Advanced(s, m, Do(s, Cas(m)))
  {
  }

  lemma AdvanceEnd(s: State, m: nat)
    requires Shape(s) && Running(s, m) && OpOk(s, m) && LandedPc(s.machines[m].pc)
    ensures Enabled(s, Next(s.machines[m].pc, m)) && Advanced(s, m, Do(s, Next(s.machines[m].pc, m)))
  {
  }

  lemma Advance(s: State, m: nat)
    requires Inv(s) && Running(s, m) && InFlight(s.machines[m].pc)
    ensures Enabled(s, Next(s.machines[m].pc, m)) && Advanced(s, m, Do(s, Next(s.machines[m].pc, m)))
  {
    assert MachineOk(s, m);
    match s.machines[m].pc
    case Begun(_, _, _) => AdvanceTry(s, m);
    case Loaded(_) => AdvanceRecord(s, m);
    case Recorded(_) => AdvanceTry(s, m);
    case Logged(_) => AdvanceCas(s, m);
    case Committed(_) => AdvanceEnd(s, m);
    case Written(_) => AdvanceEnd(s, m);
  }

  lemma FinishedLater(s: State, m: nat, s': State, t: State)
    requires Shape(s) && m < |s.machines| && InFlight(s.machines[m].pc) && !s.machines[m].pc.Written? && Advanced(s, m, s')
    requires ObjOf(s'.machines[m].pc) in s'.ri && Finished(s', m, t)
    ensures Finished(s, m, t)
  {
    var pc := s.machines[m].pc;
    assert s.cells[LocOf(pc) := CellValue(OpOf(pc), ObjOf(pc))] == s'.cells[LocOf(pc) := CellValue(OpOf(pc), ObjOf(pc))];
  }

  lemma LastStep(s: State, m: nat, t: State)
    requires Shape(s) && m < |s.machines| && s.machines[m].pc.Written? && Advanced(s, m, t)
    ensures Finished(s, m, t)
  {
    var pc := s.machines[m].pc;
    assert s.cells == s.cells[LocOf(pc) := CellValue(OpOf(pc), ObjOf(pc))];
  }

  lemma OwnCons(s: State, a: Action, s': State, m: nat, acts: seq<Action>, t: State)
    requires Shape(s) && Enabled(s, a) && Own(a, m) && s' == Do(s, a) && Shape(s') && Reaches(s', acts, t) && AllOwn(acts, m)
    ensures Reaches(s, [a] + acts, t) && AllOwn([a] + acts, m)
  {
    assert ([a] + acts)[0] == a && ([a] + acts)[1..] == acts;
  }

  lemma OwnStep(s: State, m: nat) returns (a: Action, s': State)
    requires Inv(s) && Running(s, m) && InFlight(s.machines[m].pc)
    ensures Own(a, m) && Enabled(s, a) && s' == Do(s, a) && Inv(s') && Advanced(s, m, s')
  {
    a := Next(s.machines[m].pc, m);
    Advance(s, m);
    StepInv(s, a);
    s' := Do(s, a);
  }

  /** From any point of a link or unlink, m's own steps alone bring it to its end. */
  lemma {:induction false} FinishesAlone(s: State, m: nat) returns (acts: seq<Action>, t: State)
    requires Inv(s) && Running(s, m) && InFlight(s.machines[m].pc)
    ensures ObjOf(s.machines[m].pc) in s.ri && Finished(s, m, t)
    ensures Reaches(s, acts, t) && AllOwn(acts, m) && |acts| == ToGo(s, m) <= 9
    decreases ToGo(s, m)
  {
    var a, s' := OwnStep(s, m);
    if s.machines[m].pc.Written? {
      t := s';
      LastStep(s, m, t);
      OwnCons(s, a, s', m, [], t);
      acts := [a] + [];
    } else {
      var rest;
      rest, t := FinishesAlone(s', m);
      FinishedLater(s, m, s', t);
      OwnCons(s, a, s', m, rest, t);
      acts := [a] + rest;
    }
  }

  // ---------------------------------------------------------------- when a CAS fails

  /** The step is a CAS that lands on o. */
  ghost predicate LandsOn(s: State, a: Action, o: Obj)
    requires Shape(s) && Enabled(s, a)
  {
    a.Cas? && s.machines[a.m].pc.t.obj == o && s.ri[o] == s.machines[a.m].pc.t.seen
  }

  ghost function Landings(s: State, acts: seq<Action>, t: State, o: Obj): nat
    requires Shape(s) && Reaches(s, acts, t)
    decreases |acts|
  {
    if acts == [] then 0
    else (if LandsOn(s, acts[0], o) then 1 else 0) + Landings(Do(s, acts[0]), acts[1..], t, o)
  }

  /** m is in one attempt, between its load and its CAS. */
  ghost predicate Trying(s: State, m: nat, x: Txn) {
    && Running(s, m) && x.obj in s.ri
    && (s.machines[m].pc == Loaded(x) || s.machines[m].pc == Recorded(x) || s.machines[m].pc == Logged(x))
  }

  ghost predicate NotDecided(acts: seq<Action>, m: nat) {
    forall i :: 0 <= i < |acts| ==> acts[i] != Cas(m) && acts[i] != Crash(m)
  }

  /** The stamp of another machine's landing CAS is not one that m has loaded: no word ever comes back. */
  lemma NewStampIsUnseen(s: State, m: nat, x: Txn, k: nat)
    requires Inv(s) && Trying(s, m, x) && k != m && Running(s, k) && s.machines[k].pc.Logged?
    ensures x.seen.lcid == k ==> x.seen.era != s.machines[k].pc.t.era
  {
    assert MachineOk(s, k) && MachineOk(s, m);
    if x.seen.lcid == k {
      if s.machines[m].pc.Loaded? {
        assert Reading(s.machines[m]) && StampOk(s, k, x.seen.era);
      } else {
        assert StampOk(s, k, s.machines[m].row[k]);
      }
    }
  }

  lemma OtherKeepsTrying(s: State, a: Action, m: nat, x: Txn)
    requires Shape(s) && Enabled(s, a) && Trying(s, m, x) && a != Cas(m) && a != Crash(m)
    ensures Trying(Do(s, a), m, x)
  {
  }

  lemma OtherKeepsWord(s: State, a: Action, o: Obj)
    requires Shape(s) && Enabled(s, a) && o in s.ri && !LandsOn(s, a, o)
    ensures o in Do(s, a).ri && Do(s, a).ri[o] == s.ri[o]
  {
  }

  lemma OtherStep(s: State, a: Action, m: nat, x: Txn)
    requires Inv(s) && Enabled(s, a) && Trying(s, m, x) && a != Cas(m) && a != Crash(m)
    ensures Trying(Do(s, a), m, x)
    ensures if LandsOn(s, a, x.obj) then Do(s, a).ri[x.obj] != x.seen else Do(s, a).ri[x.obj] == s.ri[x.obj]
  {
    OtherKeepsTrying(s, a, m, x);
    if LandsOn(s, a, x.obj) {
      assert MachineOk(s, a.m);
      NewStampIsUnseen(s, m, x, a.m);
    } else {
      OtherKeepsWord(s, a, x.obj);
    }
  }

  lemma {:induction false} SeenWhileUndisturbed(s: State, acts: seq<Action>, t: State, m: nat, x: Txn)
    requires Inv(s) && Reaches(s, acts, t) && Trying(s, m, x) && NotDecided(acts, m)
    ensures Trying(t, m, x)
    ensures t.ri[x.obj] == x.seen <==> s.ri[x.obj] == x.seen && Landings(s, acts, t, x.obj) == 0
    decreases |acts|
  {
    if acts != [] {
      OtherStep(s, acts[0], m, x);
      assert Inv(Do(s, acts[0])) by { StepInv(s, acts[0]); }
      assert NotDecided(acts[1..], m) by {
        forall i | 0 <= i < |acts[1..]| ensures acts[1..][i] != Cas(m) && acts[1..][i] != Crash(m) { assert acts[1..][i] == acts[i + 1]; }
      }
      SeenWhileUndisturbed(Do(s, acts[0]), acts[1..], t, m, x);
    }
  }

  /** A CAS lands if and only if no other CAS landed on the object since this attempt loaded it; so of machines that
      contend for an object one always gets through, and the one that fails starts over with the new word. */
  lemma {:induction false} CasLandsIffUndisturbed(s0: State, before: seq<Action>, s: State, acts: seq<Action>, t: State, m: nat)
    requires Init(s0) && Reaches(s0, before, s) && Enabled(s, Load(m))
    requires Shape(Do(s, Load(m))) && Reaches(Do(s, Load(m)), acts, t) && NotDecided(acts, m) && Enabled(t, Cas(m))
    ensures s.machines[m].pc.obj == t.machines[m].pc.t.obj
    ensures LandsOn(t, Cas(m), t.machines[m].pc.t.obj) <==> Landings(Do(s, Load(m)), acts, t, t.machines[m].pc.t.obj) == 0
    ensures !LandsOn(t, Cas(m), t.machines[m].pc.t.obj) ==> Enabled(Do(t, Cas(m)), Load(m))
  {
    InitInv(s0);
    RunInv(s0, before, s);
    StepInv(s, Load(m));
    var s' := Do(s, Load(m));
    SeenWhileUndisturbed(s', acts, t, m, s'.machines[m].pc.t);
  }

  // ---------------------------------------------------------------- the saved count

  lemma LastReference(cnt: nat)
    requires 1 <= cnt < COUNT_MOD
    ensures NewCount(Unlink, cnt) == 0 <==> cnt == 1
  {
  }

  lemma EntryHoldsCount(s: State, m: nat)
    requires Inv(s) && Enabled(s, Cas(m)) && LandsOn(s, Cas(m), s.machines[m].pc.t.obj)
    ensures
      var t, s' := s.machines[m].pc.t, Do(s, Cas(m));
      && Latest(s'.machines[m].redo) == Entry(t.op, s.ri[t.obj].cnt, t.era, t.loc, t.obj)
      && s'.ri[t.obj].cnt == NewCount(t.op, s.ri[t.obj].cnt)
  {
    assert MachineOk(s, m);
    PresentEntryIsLatest(s, m);
  }

  lemma CountFits(s: State, o: Obj)
    requires Inv(s) && o in s.ri
    ensures s.ri[o].cnt < COUNT_MOD
  {
  }

  /** When a CAS lands, the newest redo entry holds the count it replaced; so the entry of an unlink says 1
      exactly when that unlink took the last reference, which is what recovery asks it for. */
  lemma {:induction false} SavedCountIsReplaced(s0: State, acts: seq<Action>, s: State, m: nat)
    requires Init(s0) && Reaches(s0, acts, s) && Enabled(s, Cas(m)) && LandsOn(s, Cas(m), s.machines[m].pc.t.obj)
    requires |s.cells| < COUNT_MOD
    ensures
      var t, s' := s.machines[m].pc.t, Do(s, Cas(m));
      var e := Latest(s'.machines[m].redo);
      && e == Entry(t.op, s.ri[t.obj].cnt, t.era, t.loc, t.obj)
      && (t.op.Unlink? ==> (e.savedCnt == 1 <==> s'.ri[t.obj].cnt == 0))
  {
    assert Inv(s) by {
      InitInv(s0);
      RunInv(s0, acts, s);
    }
    EntryHoldsCount(s, m);
    var t := s.machines[m].pc.t;
    if t.op.Unlink? {
      PositiveCount(s, m);
      CountFits(s, t.obj);
      LastReference(s.ri[t.obj].cnt);
    }
  }

  // ---------------------------------------------------------------- recovery left alone

  predicate Recovering(a: Action, m: nat) { a == RecoverBegin(m) || a == RecoverScan(m) || a == RecoverApply(m) }

  ghost predicate AllRecovering(acts: seq<Action>, m: nat) { forall i :: 0 <= i < |acts| ==> Recovering(acts[i], m) }

  ghost predicate Unrecovered(s: State, m: nat) { Dead(s, m) && !s.machines[m].rec.Recovered? }

  function NextRecovery(s: State, m: nat): Action
    requires m < |s.machines|
  {
    var rec := s.machines[m].rec;
    if rec.NotRecovered? then RecoverBegin(m)
    else if rec.Scanning? && !rec.found && rec.next < |s.machines| then RecoverScan(m)
    else RecoverApply(m)
  }

  ghost function ScanLeft(s: State, m: nat): nat
    requires m < |s.machines|
  {
    var rec := s.machines[m].rec;
    match rec
    case NotRecovered => |s.machines| + 2
    case Scanning(found, next) => if found || next >= |s.machines| then 1 else |s.machines| - next + 1
    case Recovered => 0
  }

  /** Everything but m's recovery state and the cells is as it was. */
  ghost predicate OnlyRecovery(s: State, m: nat, t: State)
    requires m < |s.machines|
  {
    t == s.(machines := t.machines, cells := t.cells) && |t.machines| == |s.machines|
    && t.machines == s.machines[m := s.machines[m].(rec := t.machines[m].rec)]
  }

  lemma ScanStep(s: State, m: nat)
    requires Inv(s) && Unrecovered(s, m) && !NextRecovery(s, m).RecoverApply?
    ensures
      var s' := Do(s, NextRecovery(s, m));
      && OnlyRecovery(s, m, s') && s'.cells == s.cells && ScanLeft(s', m) < ScanLeft(s, m) && !s'.machines[m].rec.NotRecovered?
      && (s'.machines[m].rec.Recovered? ==> RecoverNow(s, m) == s.cells)
  {
    assert MachineOk(s, m);
  }

  lemma ApplyStep(s: State, m: nat)
    requires Inv(s) && Enabled(s, RecoverApply(m))
    ensures
      var s' := Do(s, RecoverApply(m));
      OnlyRecovery(s, m, s') && s'.cells == RecoverNow(s, m) && s'.machines[m].rec.Recovered?
  {
    ApplyEffect(s, m);
  }

  lemma RecoveryStep(s: State, m: nat) returns (a: Action, s': State)
    requires Inv(s) && Unrecovered(s, m)
    ensures Recovering(a, m) && Enabled(s, a) && s' == Do(s, a) && Inv(s') && OnlyRecovery(s, m, s')
    ensures ScanLeft(s', m) < ScanLeft(s, m) && !s'.machines[m].rec.NotRecovered?
    ensures s'.machines[m].rec.Recovered? ==> s'.cells == RecoverNow(s, m)
    ensures !s'.machines[m].rec.Recovered? ==> s'.cells == s.cells
  {
    a := NextRecovery(s, m);
    s' := Do(s, a);
    assert Inv(s') by { StepInv(s, a); }
    if a.RecoverApply? { ApplyStep(s, m); } else { ScanStep(s, m); }
  }

  lemma SameVerdict(s: State, m: nat, t: State)
    requires m < |s.machines| && OnlyRecovery(s, m, t) && t.cells == s.cells
    ensures RecoverNow(t, m) == RecoverNow(s, m)
  {
    var e := Latest(s.machines[m].redo);
    assert forall j :: RowShows(t, j, m, e) <==> RowShows(s, j, m, e);
  }

  /** From any point, the recovery of a dead machine ends, having done what an uninterrupted one does. */
  lemma {:induction false} RecoversAlone(s: State, m: nat) returns (acts: seq<Action>, t: State)
    requires Inv(s) && Unrecovered(s, m)
    ensures Reaches(s, acts, t) && AllRecovering(acts, m) && |acts| <= ScanLeft(s, m) <= |s.machines| + 2
    ensures OnlyRecovery(s, m, t) && t.machines[m].rec.Recovered? && t.cells == RecoverNow(s, m)
    decreases ScanLeft(s, m)
  {
    var a, s' := RecoveryStep(s, m);
    var rest: seq<Action>;
    if s'.machines[m].rec.Recovered? {
      rest, t := [], s';
    } else {
      rest, t := RecoversAlone(s', m);
      SameVerdict(s, m, s');
    }
    acts := [a] + rest;
    assert acts[0] == a && acts[1..] == rest;
  }

  // ---------------------------------------------------------------- new objects, new boots

  /** A new object can be linked at once, and then has one reference. */
  lemma NewObjectLinks(s: State, o: Obj, m: nat, loc: Loc) returns (acts: seq<Action>, t: State)
    requires Inv(s) && Enabled(s, Alloc(o)) && Running(s, m) && s.machines[m].pc.Idle?
    requires loc in s.cells && s.owner[loc] == m && s.cells[loc] == 0
    ensures Reaches(s, acts, t) && o in t.ri && t.ri[o].cnt == 1 && t.cells == s.cells[loc := o]
  {
    var s1 := Do(s, Alloc(o));
    StepInv(s, Alloc(o));
    var s2 := Do(s1, Start(m, Link, loc, o));
    StepInv(s1, Start(m, Link, loc, o));
    var rest;
    rest, t := FinishesAlone(s2, m);
    var more := [Start(m, Link, loc, o)] + rest;
    acts := [Alloc(o)] + more;
    assert more[0] == Start(m, Link, loc, o) && more[1..] == rest && Reaches(s1, more, t);
    assert acts[0] == Alloc(o) && acts[1..] == more;
  }

  /** A crashed machine that has been recovered can boot and join again. */
  lemma RecoveredCanJoin(s: State, m: nat)
    requires Inv(s) && Dead(s, m) && s.machines[m].rec.Recovered?
    ensures Enabled(s, Reboot(m)) && NothingOutstanding(s, m) && Enabled(Do(s, Reboot(m)), Join(m))
  {
  }

}
