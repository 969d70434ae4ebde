/**
  What crash recovery of reference counts guarantees in every run.
 */
module RefTheorems {
  import opened RefProtocol
  import opened RefInvariant
  import opened RefSharedSteps

  /** A machine only joins when nothing remembers an earlier life of it, and only boots again
      when nothing it committed is outstanding. */
  ghost predicate Clean(s: State, a: Action)
    requires Shape(s) && Enabled(s, a)
  {
    (a.Join? ==> Fresh(s, a.m)) && (a.Reboot? ==> NothingOutstanding(s, a.m))
  }

  /** A run of clean steps. */
  ghost predicate Reaches(s: State, acts: seq<Action>, t: State)
    requires Shape(s)
    ensures Reaches(s, acts, t) ==> Shape(t)
    decreases |acts|
  {
    if acts == [] then s == t
    else
      && Enabled(s, acts[0])
      && Clean(s, acts[0])
      && Shape(Do(s, acts[0]))
      && Reaches(Do(s, acts[0]), acts[1..], t)
  }

  lemma StepInv(s: State, a: Action)
    requires Inv(s) && Enabled(s, a) && Clean(s, a)
    ensures Inv(Do(s, a))
  {
    match a
    case Join(m) => JoinInv(s, m);
    case Leave(m) => LeaveInv(s, m);
    case Start(m, op, loc, obj) => StartInv(s, m, op, loc, obj);
    case Load(m) => LoadInv(s, m);
    case Record(m) => RecordInv(s, m);
    case Log(m) => LogInv(s, m);
    case Cas(m) =>
      if s.ri[s.machines[m].pc.t.obj] == s.machines[m].pc.t.seen { CasLandsInv(s, m); } else { CasFailInv(s, m); }
    case WriteCell(m) => WriteCellInv(s, m);
    case BumpEra(m) => BumpInv(s, m);
    case Crash(m) => CrashInv(s, m);
    case Reboot(m) => RebootInv(s, m);
    case RecoverBegin(m) => RecoverBeginInv(s, m);
    case RecoverScan(m) => RecoverScanInv(s, m);
    case RecoverApply(m) => RecoverApplyInv(s, m);
    case Alloc(obj) => AllocInv(s, obj);
  }

  lemma {:induction false} RunInv(s: State, acts: seq<Action>, t: State)
    requires Inv(s) && Reaches(s, acts, t)
    ensures Inv(t)
    decreases |acts|
  {
    if acts != [] {
      StepInv(s, acts[0]);
      RunInv(Do(s, acts[0]), acts[1..], t);
    }
  }

  // ---------------------------------------------------------------- commit detection

  /** Case A or Case B holds for the newest redo entry exactly when its CAS landed. */
  ghost predicate Exact(s: State, m: nat)
    requires m < |s.machines|
  {
    Latest(s.machines[m].redo).Entry? ==> (Detected(s, m) <==> s.machines[m].landed)
  }

  lemma InvExact(s: State, m: nat)
    requires Inv(s) && m < |s.machines|
    ensures Exact(s, m)
  {
    assert MachineOk(s, m);
    var e := Latest(s.machines[m].redo);
    if e.Entry? && Detected(s, m) {
      if CaseA(s, m, e) {
        RecoveryStarts(s, m);
      } else {
        var j :| RowShows(s, j, m, e);
        RowProvesLanded(s, m, j);
      }
    }
  }

  lemma {:induction false} CommitDetectionExact(s0: State, acts: seq<Action>, s: State, m: nat)
    requires Init(s0) && Reaches(s0, acts, s) && m < |s.machines|
    ensures Exact(s, m)
  {
    InitInv(s0);
    RunInv(s0, acts, s);
    InvExact(s, m);
  }

  /** The scan reads ref_info and the rows at different moments, with other machines running
      in between; its verdict is still whether the CAS landed. */
  lemma {:induction false} InterleavedVerdictExact(s0: State, acts: seq<Action>, s: State, m: nat)
    requires Init(s0) && Reaches(s0, acts, s) && Enabled(s, RecoverApply(m))
    ensures s.machines[m].rec.found <==> s.machines[m].landed
    ensures s.machines[m].rec.found <==> Detected(s, m)
  {
    InitInv(s0);
    RunInv(s0, acts, s);
    VerdictIsExact(s, m);
    InvExact(s, m);
    assert MachineOk(s, m);
  }

  // ---------------------------------------------------------------- conservation of counts

  predicate Pending(s: State, loc: Loc)
    requires Shape(s) && loc in s.cells
  {
    var M := s.machines[s.owner[loc]];
    M.pc.Committed? && M.pc.t.loc == loc && !M.rec.Recovered?
  }

  /** Cells that name o now. */
  function CellsOf(s: State, o: Obj): set<Loc> {
    set l | l in s.cells && s.cells[l] == o
  }

  /** Cells of committed links (or unlinks) of o whose cell write is still outstanding. */
  function PendingCells(s: State, op: Op, o: Obj): set<Loc>
    requires Shape(s)
  {
    set l | l in s.cells && Pending(s, l) && s.machines[s.owner[l]].pc.t.op == op && s.machines[s.owner[l]].pc.t.obj == o
  }

  lemma RefsSplit(s: State, o: Obj)
    requires Inv(s) && o in s.ri
    ensures Refs(s, o) == (CellsOf(s, o) - PendingCells(s, Unlink, o)) + PendingCells(s, Link, o)
    ensures PendingCells(s, Unlink, o) <= CellsOf(s, o) && CellsOf(s, o) !! PendingCells(s, Link, o)
  {
    forall l | l in s.cells && Pending(s, l)
      ensures s.cells[l] == (if s.machines[s.owner[l]].pc.t.op.Link? then 0 else s.machines[s.owner[l]].pc.t.obj)
    {
      assert MachineOk(s, s.owner[l]);
    }
  }

  lemma SplitSize(all: set<Loc>, cells: set<Loc>, links: set<Loc>, unlinks: set<Loc>)
    requires all == (cells - unlinks) + links && unlinks <= cells && cells !! links
    ensures |all| == |cells| + |links| - |unlinks|
  {
    assert |cells - unlinks| == |cells| - |unlinks| by { assert cells == (cells - unlinks) + unlinks; }
  }

  /** Counts as a sum of three sizes, exact when no 16-bit word can wrap. */
  ghost predicate Balanced(cnt: nat, cells: nat, links: nat, unlinks: nat, room: nat) {
    && cells + links >= unlinks
    && cnt == (cells + links - unlinks) % COUNT_MOD
    && (room < COUNT_MOD ==> cnt == cells + links - unlinks)
  }

  lemma BalanceFrom(cnt: nat, refs: nat, cells: nat, links: nat, unlinks: nat, room: nat)
    requires cnt == refs % COUNT_MOD && refs == cells + links - unlinks && refs <= room
    ensures Balanced(cnt, cells, links, unlinks, room)
  {
  }

  lemma InvCount(s: State, o: Obj)
    requires Inv(s) && o in s.ri
    ensures Balanced(s.ri[o].cnt, |CellsOf(s, o)|, |PendingCells(s, Link, o)|, |PendingCells(s, Unlink, o)|, |s.cells|)
  {
    RefsSplit(s, o);
    SplitSize(Refs(s, o), CellsOf(s, o), PendingCells(s, Link, o), PendingCells(s, Unlink, o));
    RefsBounded(s, o);
    BalanceFrom(s.ri[o].cnt, |Refs(s, o)|, |CellsOf(s, o)|, |PendingCells(s, Link, o)|, |PendingCells(s, Unlink, o)|, |s.cells|);
  }

  /** count = cells naming the object + committed links not yet written - committed unlinks not yet zeroed,
      modulo 2^16, and exactly when there are fewer than 2^16 cells. */
  lemma {:induction false} CountConserved(s0: State, acts: seq<Action>, s: State, o: Obj)
    requires Init(s0) && Reaches(s0, acts, s) && o in s.ri
    ensures Balanced(s.ri[o].cnt, |CellsOf(s, o)|, |PendingCells(s, Link, o)|, |PendingCells(s, Unlink, o)|, |s.cells|)
  {
    InitInv(s0);
    RunInv(s0, acts, s);
    InvCount(s, o);
  }

  lemma RefsBounded(s: State, o: Obj)
    requires Shape(s)
    ensures |Refs(s, o)| <= |s.cells|
  {
    assert Refs(s, o) <= s.cells.Keys;
    SubsetSize(Refs(s, o), s.cells.Keys);
    assert |s.cells.Keys| == |s.cells|;
  }

  lemma SubsetSize(a: set<Loc>, b: set<Loc>)
    requires a <= b
    ensures |a| <= |b|
  {
    assert b == a + (b - a);
  }

  lemma PositiveCount(s: State, m: nat)
    requires Inv(s) && |s.cells| < COUNT_MOD
    requires Enabled(s, Cas(m)) && s.ri[s.machines[m].pc.t.obj] == s.machines[m].pc.t.seen && s.machines[m].pc.t.op.Unlink?
    ensures s.machines[m].pc.t.seen.cnt >= 1
  {
    assert MachineOk(s, m);
    var t := s.machines[m].pc.t;
    RefsBounded(s, t.obj);
    assert t.loc in Refs(s, t.obj);
  }

  /** An unlink whose CAS is about to land finds a positive count: the 16-bit word never underflows. */
  lemma {:induction false} UnlinkNeverUnderflows(s0: State, acts: seq<Action>, s: State, m: nat)
    requires Init(s0) && Reaches(s0, acts, s) && |s.cells| < COUNT_MOD
    requires Enabled(s, Cas(m)) && s.ri[s.machines[m].pc.t.obj] == s.machines[m].pc.t.seen
    requires s.machines[m].pc.t.op.Unlink?
    ensures s.machines[m].pc.t.seen.cnt >= 1
  {
    InitInv(s0);
    RunInv(s0, acts, s);
    PositiveCount(s, m);
  }

  // ---------------------------------------------------------------- effect of recovery

  /** The cells after an uninterrupted run of recovery for machine m. */
  ghost function RecoverNow(s: State, m: nat): map<Loc, Obj>
    requires m < |s.machines|
  {
    var e := Latest(s.machines[m].redo);
    if e.Entry? && Detected(s, m) then s.cells[e.loc := CellValue(e.op, e.obj)] else s.cells
  }

  lemma ApplyEffect(s: State, m: nat)
    requires Inv(s) && Enabled(s, RecoverApply(m))
    ensures
      var s' := Do(s, RecoverApply(m));
      && Shape(s') && s'.ri == s.ri && s'.cells == RecoverNow(s, m)
      && (forall l :: l in s.cells && s.owner[l] == m ==> !Pending(s', l) && s'.cells[l] == Settled(s, l))
      && (forall l :: l in s.cells && s.owner[l] != m ==> s'.cells[l] == s.cells[l] && (Pending(s', l) <==> Pending(s, l)))
  {
    VerdictIsExact(s, m);
    InvExact(s, m);
    ApplyKeepsSettled(s, m);
    assert MachineOk(s, m);
    if s.machines[m].landed { ApplySettles(s, m); }
  }

  /** Finishing a recovery, however interleaved, has the effect of an uninterrupted one, takes
      the dead machine's correction out of every count, and moves no other cell. */
  lemma {:induction false} RecoveryRemovesCorrection(s0: State, acts: seq<Action>, s: State, m: nat)
    requires Init(s0) && Reaches(s0, acts, s) && Enabled(s, RecoverApply(m))
    ensures
      var s' := Do(s, RecoverApply(m));
      && Shape(s') && s'.ri == s.ri && s'.cells == RecoverNow(s, m)
      && (forall l :: l in s.cells && s.owner[l] == m ==> !Pending(s', l) && s'.cells[l] == Settled(s, l))
      && (forall l :: l in s.cells && s.owner[l] != m ==> s'.cells[l] == s.cells[l] && (Pending(s', l) <==> Pending(s, l)))
  {
    InitInv(s0);
    RunInv(s0, acts, s);
    ApplyEffect(s, m);
  }

  /** Recovering a recovered machine again, immediately or any number of steps later, changes nothing. */
  lemma {:induction false} SecondRecoveryIsNoop(s0: State, acts: seq<Action>, s: State, m: nat)
    requires Init(s0) && Reaches(s0, acts, s) && m < |s.machines| && s.machines[m].rec.Recovered?
    ensures RecoverNow(s, m) == s.cells
  {
    InitInv(s0);
    RunInv(s0, acts, s);
    InvExact(s, m);
    var M := s.machines[m];
    var e := Latest(M.redo);
    assert MachineOk(s, m);
    LatestInRing(M.redo);
    if e.Entry? && M.landed {
      assert EntryOk(s, m, e);
      assert s.cells[e.loc] == CellValue(e.op, e.obj);
    }
  }
}
