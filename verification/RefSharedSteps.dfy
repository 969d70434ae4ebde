/**
  Preservation of the reference-count invariant by the steps that write shared memory:
  a CAS that lands, the cell write, allocation, and the three steps of recovery.
 */
module RefSharedSteps {
  import opened RefProtocol
  import opened RefInvariant

  // ---------------------------------------------------------------- a CAS that lands

  /** Whoever overwrites a landed stamp recorded it first, so the stamp stays detectable. */
  lemma OverwriteLeavesTrace(s: State, s': State, m: nat, k: nat)
    requires Inv(s) && Enabled(s, Cas(m)) && s.ri[s.machines[m].pc.t.obj] == s.machines[m].pc.t.seen
    requires s' == Do(s, Cas(m)) && k < |s.machines| && k != m
    requires CaseA(s, k, Latest(s.machines[k].redo))
    ensures Detected(s', k)
  {
    var e := Latest(s.machines[k].redo);
    var t := s.machines[m].pc.t;
    assert MachineOk(s, m);
    if e.obj == t.obj {
      assert RowShows(s', m, k, e);
    } else {
      assert CaseA(s', k, e);
    }
  }

  /** If only one cell settles differently, only the objects it named or names gain or lose it. */
  lemma RefsMove(s: State, s': State, loc: Loc, o: Obj)
    requires Shape(s) && Shape(s') && s'.cells.Keys == s.cells.Keys && loc in s.cells
    requires forall l :: l in s.cells && l != loc ==> Settled(s', l) == Settled(s, l)
    ensures Refs(s', o) == (Refs(s, o) - {loc}) + (if Settled(s', loc) == o then {loc} else {})
    ensures loc in Refs(s, o) <==> Settled(s, loc) == o
  {
  }

  lemma CasSettled(s: State, s': State, m: nat)
    requires Shape(s) && m < |s.machines| && OpOk(s, m) && RecoveryOk(s, m)
    requires Enabled(s, Cas(m)) && s.ri[s.machines[m].pc.t.obj] == s.machines[m].pc.t.seen
    requires s' == Do(s, Cas(m)) && Shape(s')
    ensures
      var t := s.machines[m].pc.t;
      && t.loc in s.cells && Settled(s', t.loc) == CellValue(t.op, t.obj)
      && Settled(s, t.loc) == (if t.op.Link? then 0 else t.obj)
      && (forall l :: l in s.cells && l != t.loc ==> Settled(s', l) == Settled(s, l))
  {
  }

  /** Adding or removing one cell changes the number of references by exactly one. */
  lemma CountMoves(s: State, s': State, t: Txn, o: Obj)
    requires Shape(s) && Shape(s') && s'.cells.Keys == s.cells.Keys && t.loc in s.cells
    requires forall l :: l in s.cells && l != t.loc ==> Settled(s', l) == Settled(s, l)
    requires Settled(s', t.loc) == CellValue(t.op, t.obj) && Settled(s, t.loc) == (if t.op.Link? then 0 else t.obj)
    requires o != 0 && t.obj != 0
    ensures |Refs(s', o)| == if o != t.obj then |Refs(s, o)| else if t.op.Link? then |Refs(s, o)| + 1 else |Refs(s, o)| - 1
  {
    RefsMove(s, s', t.loc, o);
    MovedSize(Refs(s, o), Refs(s', o), t.loc, Settled(s', t.loc) == o);
  }

  lemma MovedSize(before: set<Loc>, after: set<Loc>, loc: Loc, added: bool)
    requires after == (before - {loc}) + (if added then {loc} else {})
    ensures |after| == |before| - (if loc in before then 1 else 0) + (if added then 1 else 0)
  {
    if loc in before {
      assert |before - {loc}| == |before| - 1;
    } else {
      assert before - {loc} == before;
    }
  }

  lemma CasCounts(s: State, s': State, m: nat)
    requires Shape(s) && CountsOk(s) && m < |s.machines| && OpOk(s, m) && RecoveryOk(s, m)
    requires Enabled(s, Cas(m)) && s.ri[s.machines[m].pc.t.obj] == s.machines[m].pc.t.seen
    requires s' == Do(s, Cas(m)) && Shape(s')
    ensures CountsOk(s')
  {
    var t := s.machines[m].pc.t;
    CasSettled(s, s', m);
    forall o | o in s'.ri ensures s'.ri[o].cnt == |Refs(s', o)| % COUNT_MOD {
      CountMoves(s, s', t, o);
      OneStepCount(t.op, |Refs(s, o)|, s.ri[o].cnt);
    }
  }

  /** 16-bit increment and decrement agree with counting modulo 2^16. */
  lemma OneStepCount(op: Op, n: nat, cnt: nat)
    requires cnt == n % COUNT_MOD
    ensures op.Link? ==> NewCount(op, cnt) == (n + 1) % COUNT_MOD
    ensures op.Unlink? && n > 0 ==> NewCount(op, cnt) == (n - 1) % COUNT_MOD
  {
  }

  lemma CasStamps(s: State, s': State, m: nat)
    requires Shape(s) && StampsOk(s) && m < |s.machines| && OpOk(s, m)
    requires Enabled(s, Cas(m)) && s.ri[s.machines[m].pc.t.obj] == s.machines[m].pc.t.seen
    requires s' == Do(s, Cas(m)) && Shape(s')
    ensures StampsOk(s')
  {
    StampsFrame(s, s');
  }

  /** The entry of the present era is the newest one. */
  lemma PresentEntryIsLatest(s: State, m: nat)
    requires Shape(s) && m < |s.machines| && LogOk(s, m) && (s.machines[m].pc.Logged? || LandedPc(s.machines[m].pc))
    requires s.machines[m].pc.t.era == s.machines[m].row[m]
    ensures Latest(s.machines[m].redo) == EntryOf(s.machines[m].pc.t)
  {
    var M := s.machines[m];
    forall i | 0 <= i < |M.redo| && M.redo[i].Entry? ensures M.redo[i].era <= M.row[m] { assert EntryOk(s, m, M.redo[i]); }
    LatestIsSlot(M.redo, M.row[m]);
  }

  lemma CasOther(s: State, s': State, m: nat, k: nat)
    requires Inv(s) && Enabled(s, Cas(m)) && s.ri[s.machines[m].pc.t.obj] == s.machines[m].pc.t.seen
    requires s' == Do(s, Cas(m)) && Shape(s') && k < |s.machines| && k != m
    ensures MachineOk(s', k)
  {
    assert MachineOk(s, m) && MachineOk(s, k);
    if CaseA(s, k, Latest(s.machines[k].redo)) { OverwriteLeavesTrace(s, s', m, k); }
    MachineFrame(s, s', k);
  }

  lemma CasSelf(s: State, s': State, m: nat)
    requires Shape(s) && m < |s.machines| && MachineOk(s, m)
    requires Enabled(s, Cas(m)) && s.ri[s.machines[m].pc.t.obj] == s.machines[m].pc.t.seen
    requires s' == Do(s, Cas(m)) && Shape(s')
    ensures MachineOk(s', m)
  {
    LogKeeps(s, s', m);
    PresentEntryIsLatest(s, m);
    assert CaseA(s', m, Latest(s.machines[m].redo));
  }

  lemma CasLandsInv(s: State, m: nat)
    requires Inv(s) && Enabled(s, Cas(m)) && s.ri[s.machines[m].pc.t.obj] == s.machines[m].pc.t.seen
    ensures Inv(Do(s, Cas(m)))
  {
    var s' := Do(s, Cas(m));
    assert MachineOk(s, m);
    CasCounts(s, s', m);
    CasStamps(s, s', m);
    CasSelf(s, s', m);
    forall k | 0 <= k < |s.machines| && k != m ensures MachineOk(s', k) { CasOther(s, s', m, k); }
  }

  // ---------------------------------------------------------------- writes to cells

  /** A step that writes at most the cell of machine m and leaves every other record alone. */
  ghost predicate CellStep(s: State, s': State, m: nat)
    requires Shape(s) && m < |s.machines|
  {
    && Shape(s') && |s'.machines| == |s.machines|
    && s'.ri == s.ri && s'.owner == s.owner && s'.cells.Keys == s.cells.Keys
    && (forall k :: 0 <= k < |s.machines| && k != m ==> s'.machines[k] == s.machines[k])
    && s'.machines[m].row == s.machines[m].row
    && (Spent(s.machines[m].pc) ==> Spent(s'.machines[m].pc))
    && (Reading(s'.machines[m]) ==> Reading(s.machines[m]) && s'.machines[m].pc == s.machines[m].pc)
    && (forall l :: l in s.cells && s.owner[l] != m ==> s'.cells[l] == s.cells[l])
  }

  lemma CellStepStamps(s: State, s': State, m: nat)
    requires Shape(s) && m < |s.machines| && CellStep(s, s', m) && StampsOk(s)
    ensures StampsOk(s')
  {
    StampsFrame(s, s');
  }

  lemma CellStepOthers(s: State, s': State, m: nat, k: nat)
    requires Shape(s) && m < |s.machines| && CellStep(s, s', m) && k < |s.machines| && k != m && MachineOk(s, k)
    ensures MachineOk(s', k)
  {
    var e := Latest(s.machines[k].redo);
    assert CaseA(s, k, e) ==> CaseA(s', k, e);
    MachineFrame(s, s', k);
  }

  lemma CellWriteFrame(s: State, s': State, m: nat)
    requires Inv(s) && m < |s.machines| && CellStep(s, s', m)
    requires forall l :: l in s.cells ==> Settled(s', l) == Settled(s, l) && (s'.cells[l] == 0 || s'.cells[l] in s.ri)
    requires MachineOk(s', m)
    ensures Inv(s')
  {
    CellStepStamps(s, s', m);
    CountsFrame(s, s');
    forall k | 0 <= k < |s.machines| ensures MachineOk(s', k) {
      if k != m { CellStepOthers(s, s', m, k); }
    }
  }

  lemma WriteCellMachine(s: State, m: nat)
    requires Shape(s) && m < |s.machines| && MachineOk(s, m) && Enabled(s, WriteCell(m))
    ensures Shape(Do(s, WriteCell(m))) && MachineOk(Do(s, WriteCell(m)), m)
  {
    var s' := Do(s, WriteCell(m));
    LogKeeps(s, s', m);
    PresentEntryIsLatest(s, m);
    DetectedKeeps(s, s', m);
  }

  lemma WriteCellInv(s: State, m: nat)
    requires Inv(s) && Enabled(s, WriteCell(m))
    ensures Inv(Do(s, WriteCell(m)))
  {
    assert MachineOk(s, m);
    WriteCellMachine(s, m);
    CellWriteFrame(s, Do(s, WriteCell(m)), m);
  }

  // ---------------------------------------------------------------- recovery

  /** A step that only moves the recovery of m along. */
  lemma RecoveryMachine(s: State, s': State, m: nat)
    requires Shape(s) && m < |s.machines| && MachineOk(s, m) && Dead(s, m) && !s.machines[m].rec.Recovered?
    requires m < |s'.machines| && s' == SetMachine(s, m, s.machines[m].(rec := s'.machines[m].rec)) && RecoveryOk(s', m)
    requires s'.machines[m].rec.Recovered? ==> Latest(s.machines[m].redo).Empty?
    ensures MachineOk(s', m) && SamePending(s.machines[m], s'.machines[m])
  {
    LatestInRing(s.machines[m].redo);
    RecoveredLogKeeps(s, s', m);
    if s.machines[m].pc.Committed? { PresentEntryIsLatest(s, m); }
    if Detected(s, m) { DetectedKeeps(s, s', m); }
  }

  lemma RecoverBeginInv(s: State, m: nat)
    requires Inv(s) && Enabled(s, RecoverBegin(m))
    ensures Inv(Do(s, RecoverBegin(m)))
  {
    var s' := Do(s, RecoverBegin(m));
    assert MachineOk(s, m);
    var e := Latest(s.machines[m].redo);
    if e.Entry? {
      RecoveryStarts(s, m);
      assert forall j :: RowShows(s, j, m, e) ==> RowShows(s', j, m, e);
    }
    RecoveryMachine(s, s', m);
    LocalStamps(s, s', m);
    AssembleLocal(s, s', m);
  }

  /** Case A proves the CAS landed; without Case A a landed CAS shows in some row. */
  lemma RecoveryStarts(s: State, m: nat)
    requires Inv(s) && m < |s.machines| && Latest(s.machines[m].redo).Entry?
    ensures CaseA(s, m, Latest(s.machines[m].redo)) ==> s.machines[m].landed
    ensures !CaseA(s, m, Latest(s.machines[m].redo)) && s.machines[m].landed ==>
              exists j :: j >= 0 && RowShows(s, j, m, Latest(s.machines[m].redo))
  {
    var M := s.machines[m];
    var e := Latest(M.redo);
    assert MachineOk(s, m);
    LatestInRing(M.redo);
    assert EntryOk(s, m, e);
    if CaseA(s, m, e) {
      assert StampOk(s, s.ri[e.obj].lcid, s.ri[e.obj].era);
    } else if M.landed {
      assert Detected(s, m);
      var j :| RowShows(s, j, m, e);
      assert j >= 0;
    }
  }

  /** A row that shows the entry's era proves the CAS landed. */
  lemma RowProvesLanded(s: State, m: nat, j: nat)
    requires Inv(s) && m < |s.machines| && RowShows(s, j, m, Latest(s.machines[m].redo))
    ensures s.machines[m].landed
  {
    var M := s.machines[m];
    var e := Latest(M.redo);
    assert MachineOk(s, m);
    LatestInRing(M.redo);
    assert EntryOk(s, m, e);
    assert StampOk(s, m, s.machines[j].row[m]);
  }

  lemma RecoverScanInv(s: State, m: nat)
    requires Inv(s) && Enabled(s, RecoverScan(m))
    ensures Inv(Do(s, RecoverScan(m)))
  {
    var s' := Do(s, RecoverScan(m));
    assert MachineOk(s, m);
    var M := s.machines[m];
    var e := Latest(M.redo);
    if RowShows(s, M.rec.next, m, e) { RowProvesLanded(s, m, M.rec.next); }
    assert forall j :: RowShows(s, j, m, e) ==> RowShows(s', j, m, e);
    RecoveryMachine(s, s', m);
    LocalStamps(s, s', m);
    AssembleLocal(s, s', m);
  }

  /** When the scan is over, its verdict is whether the CAS landed. */
  lemma VerdictIsExact(s: State, m: nat)
    requires Inv(s) && Enabled(s, RecoverApply(m))
    ensures s.machines[m].rec.found <==> s.machines[m].landed
  {
    assert MachineOk(s, m);
  }

  /** Re-applying the newest landed entry writes what the cell settles to anyway. */
  lemma ApplySettles(s: State, m: nat)
    requires Inv(s) && m < |s.machines| && s.machines[m].landed && Latest(s.machines[m].redo).Entry?
    requires !s.machines[m].rec.Recovered?
    ensures
      var e := Latest(s.machines[m].redo);
      e.loc in s.cells && s.owner[e.loc] == m && e.obj in s.ri && Settled(s, e.loc) == CellValue(e.op, e.obj)
    ensures s.machines[m].pc.Committed? ==> Latest(s.machines[m].redo) == EntryOf(s.machines[m].pc.t)
  {
    var M := s.machines[m];
    var e := Latest(M.redo);
    assert MachineOk(s, m);
    LatestInRing(M.redo);
    assert EntryOk(s, m, e);
    if LandedPc(M.pc) {
      PresentEntryIsLatest(s, m);
    }
  }

  /** Recovery finishes the operation without changing what any cell settles to. */
  lemma ApplyKeepsSettled(s: State, m: nat)
    requires Inv(s) && Enabled(s, RecoverApply(m))
    ensures
      var s' := Do(s, RecoverApply(m));
      && Shape(s') && s'.cells.Keys == s.cells.Keys
      && (forall l :: l in s.cells ==> Settled(s', l) == Settled(s, l) && (s'.cells[l] == 0 || s'.cells[l] in s.ri))
      && (forall l :: l in s.cells && s.owner[l] == m ==> s'.cells[l] == Settled(s, l))
  {
    assert MachineOk(s, m);
    VerdictIsExact(s, m);
    if s.machines[m].landed { ApplySettles(s, m); }
  }

  lemma ApplyOp(s: State, m: nat)
    requires Shape(s) && m < |s.machines| && MachineOk(s, m) && Enabled(s, RecoverApply(m)) && Shape(Do(s, RecoverApply(m)))
    requires s.machines[m].rec.found <==> s.machines[m].landed
    ensures OpOk(Do(s, RecoverApply(m)), m)
  {
    LatestInRing(s.machines[m].redo);
    if LandedPc(s.machines[m].pc) { PresentEntryIsLatest(s, m); }
    var e := Latest(s.machines[m].redo);
    assert EntryOk(s, m, e);
  }

  lemma ApplyMachine(s: State, m: nat)
    requires Shape(s) && m < |s.machines| && MachineOk(s, m) && Enabled(s, RecoverApply(m)) && Shape(Do(s, RecoverApply(m)))
    requires s.machines[m].rec.found <==> s.machines[m].landed
    requires Do(s, RecoverApply(m)).cells.Keys == s.cells.Keys
    ensures MachineOk(Do(s, RecoverApply(m)), m)
  {
    var s' := Do(s, RecoverApply(m));
    LatestInRing(s.machines[m].redo);
    RecoveredLogKeeps(s, s', m);
    if Detected(s, m) { DetectedKeeps(s, s', m); }
    ApplyOp(s, m);
  }

  lemma RecoveredLogKeeps(s: State, s': State, m: nat)
    requires Shape(s) && Shape(s') && m < |s.machines| && |s'.machines| == |s.machines| && LogOk(s, m)
    requires s'.cells.Keys == s.cells.Keys && s'.owner == s.owner && s.ri.Keys <= s'.ri.Keys
    requires s'.machines[m] == s.machines[m].(rec := s'.machines[m].rec)
    ensures LogOk(s', m)
  {
    var M := s.machines[m];
    forall k | 0 <= k < |M.redo| && M.redo[k].Entry? ensures EntryOk(s', m, M.redo[k]) {
      assert EntryOk(s, m, M.redo[k]);
    }
  }

  lemma RecoverApplyInv(s: State, m: nat)
    requires Inv(s) && Enabled(s, RecoverApply(m))
    ensures Inv(Do(s, RecoverApply(m)))
  {
    assert MachineOk(s, m);
    VerdictIsExact(s, m);
    ApplyKeepsSettled(s, m);
    ApplyMachine(s, m);
    if s.machines[m].landed { ApplySettles(s, m); }
    CellWriteFrame(s, Do(s, RecoverApply(m)), m);
  }

  // ---------------------------------------------------------------- allocation

  /** A fresh object has no references: every cell settles to null or to an existing object. */
  lemma AllocCounts(s: State, obj: Obj)
    requires Inv(s) && Enabled(s, Alloc(obj))
    ensures CountsOk(Do(s, Alloc(obj)))
  {
    var s' := Do(s, Alloc(obj));
    forall l | l in s.cells ensures Settled(s', l) == Settled(s, l) && Settled(s', l) != obj {
      assert MachineOk(s, s.owner[l]);
    }
    forall o | o in s'.ri ensures s'.ri[o].cnt == |Refs(s', o)| % COUNT_MOD {
      assert Refs(s', o) == if o == obj then {} else Refs(s, o);
    }
  }

  lemma AllocMachine(s: State, obj: Obj, k: nat)
    requires Inv(s) && Enabled(s, Alloc(obj)) && k < |s.machines|
    ensures MachineOk(Do(s, Alloc(obj)), k)
  {
    var s' := Do(s, Alloc(obj));
    var e := Latest(s.machines[k].redo);
    assert MachineOk(s, k);
    assert CaseA(s, k, e) ==> CaseA(s', k, e);
    MachineFrame(s, s', k);
  }

  lemma AllocInv(s: State, obj: Obj)
    requires Inv(s) && Enabled(s, Alloc(obj))
    ensures Inv(Do(s, Alloc(obj)))
  {
    AllocCounts(s, obj);
    StampsFrame(s, Do(s, Alloc(obj)));
    forall k | 0 <= k < |s.machines| ensures MachineOk(Do(s, Alloc(obj)), k) {
      AllocMachine(s, obj, k);
    }
  }
}
