/**
  The invariant behind crash recovery of reference counts, and its preservation by every
  step of every run in which a machine joins at most once.
 */
module RefInvariant {
  import opened RefProtocol

  // ---------------------------------------------------------------- the redo ring

  /** The newest entry is a member of the ring and no entry has a higher era. */
  lemma {:induction false} LatestIsMaximal(redo: seq<Redo>, n: nat)
    requires n <= |redo|
    ensures LatestOf(redo, n).Empty? <==> (forall k :: 0 <= k < n ==> redo[k].Empty?)
    ensures LatestOf(redo, n).Entry? ==> LatestOf(redo, n) in redo[..n]
    ensures LatestOf(redo, n).Entry? ==>
              forall k :: 0 <= k < n && redo[k].Entry? ==> redo[k].era <= LatestOf(redo, n).era
  {
    if n > 0 {
      LatestIsMaximal(redo, n - 1);
      assert redo[..n] == redo[..n - 1] + [redo[n - 1]];
    }
  }

  ghost predicate RingOk(redo: seq<Redo>) {
    |redo| == REDO_CNT && forall k :: 0 <= k < |redo| && redo[k].Entry? ==> redo[k].era % REDO_CNT == k
  }

  /** An entry with the highest era of the ring is what the scan returns. */
  lemma LatestIsSlot(redo: seq<Redo>, era: nat)
    requires RingOk(redo)
    requires redo[era % REDO_CNT].Entry? && redo[era % REDO_CNT].era == era
    requires forall k :: 0 <= k < |redo| && redo[k].Entry? ==> redo[k].era <= era
    ensures Latest(redo) == redo[era % REDO_CNT]
  {
    LatestIsMaximal(redo, |redo|);
    var e := Latest(redo);
    assert redo[..|redo|] == redo;
    var k :| 0 <= k < |redo| && redo[k] == e;
    assert e.era == era;
  }

  /** Latest(redo) is Empty or one of the ring's entries with the highest era. */
  lemma LatestInRing(redo: seq<Redo>)
    ensures Latest(redo).Empty? <==> (forall k :: 0 <= k < |redo| ==> redo[k].Empty?)
    ensures Latest(redo).Entry? ==> exists k :: 0 <= k < |redo| && redo[k] == Latest(redo)
    ensures Latest(redo).Entry? ==> forall k :: 0 <= k < |redo| && redo[k].Entry? ==> redo[k].era <= Latest(redo).era
  {
    LatestIsMaximal(redo, |redo|);
    assert redo[..|redo|] == redo;
  }

  // ---------------------------------------------------------------- the invariant

  predicate LandedPc(pc: Pc) { pc.Committed? || pc.Written? }

  predicate HasTxn(pc: Pc) { pc.Loaded? || pc.Recorded? || pc.Logged? || LandedPc(pc) }

  predicate InFlight(pc: Pc) { pc.Begun? || HasTxn(pc) }

  function OpOf(pc: Pc): Op requires InFlight(pc) { if pc.Begun? then pc.op else pc.t.op }
  function LocOf(pc: Pc): Loc requires InFlight(pc) { if pc.Begun? then pc.loc else pc.t.loc }
  function ObjOf(pc: Pc): Obj requires InFlight(pc) { if pc.Begun? then pc.obj else pc.t.obj }

  /** The present era of the machine may be on objects: its CAS has landed, or it is between two lives. */
  predicate Spent(pc: Pc) { LandedPc(pc) || pc.Offline? }

  /** A live machine that holds a loaded stamp it has not recorded yet. */
  predicate Reading(M: Machine) { M.alive && M.pc.Loaded? }

  /** An era attributed to machine m anywhere in shared memory is one that m has used,
      and is m's present era only once m's present CAS has landed. */
  ghost predicate StampOk(s: State, m: nat, era: nat)
    requires Shape(s)
  {
    era == 0 ||
    (m < |s.machines| && era <= s.machines[m].row[m] && (era == s.machines[m].row[m] ==> Spent(s.machines[m].pc)))
  }

  ghost predicate StampsOk(s: State)
    requires Shape(s)
  {
    && (forall o :: o in s.ri ==> StampOk(s, s.ri[o].lcid, s.ri[o].era))
    && (forall j, m :: 0 <= j < |s.machines| && 0 <= m < |s.machines| && j != m ==> StampOk(s, m, s.machines[j].row[m]))
    && (forall k :: 0 <= k < |s.machines| && Reading(s.machines[k]) ==>
          s.machines[k].pc.t.seen.lcid < |s.machines| && StampOk(s, s.machines[k].pc.t.seen.lcid, s.machines[k].pc.t.seen.era))
  }

  /** The redo entries of machine m, relative to its present era and operation. */
  ghost predicate LogOk(s: State, m: nat)
    requires Shape(s) && m < |s.machines|
  {
    var M := s.machines[m];
    var era := M.row[m];
    && RingOk(M.redo)
    && (M.pc.Offline? ==> forall k :: 0 <= k < |M.redo| ==> M.redo[k].Empty?)
    && (!M.pc.Offline? ==> era >= 1)
    && (forall k :: 0 <= k < |M.redo| && M.redo[k].Entry? ==> EntryOk(s, m, M.redo[k]))
    && (M.pc.Logged? || LandedPc(M.pc) ==> M.redo[era % REDO_CNT] == EntryOf(M.pc.t))
  }

  ghost predicate EntryOk(s: State, m: nat, e: Redo)
    requires Shape(s) && m < |s.machines| && e.Entry?
  {
    var M := s.machines[m];
    && 1 <= e.era <= M.row[m]
    && e.loc in s.cells && s.owner[e.loc] == m && e.obj in s.ri
    && (e.era == M.row[m] ==>
          InFlight(M.pc) && e.op == OpOf(M.pc) && e.loc == LocOf(M.pc) && e.obj == ObjOf(M.pc))
  }

  /** The operation in flight on machine m. */
  ghost predicate OpOk(s: State, m: nat)
    requires Shape(s) && m < |s.machines|
  {
    var M := s.machines[m];
    && (InFlight(M.pc) ==> LocOf(M.pc) in s.cells && s.owner[LocOf(M.pc)] == m && ObjOf(M.pc) in s.ri)
    && (InFlight(M.pc) && !LandedPc(M.pc) ==> s.cells[LocOf(M.pc)] == (if OpOf(M.pc).Link? then 0 else ObjOf(M.pc)))
    && (M.pc.Committed? && !M.rec.Recovered? ==> s.cells[LocOf(M.pc)] == (if OpOf(M.pc).Link? then 0 else ObjOf(M.pc)))
    && (M.pc.Written? || (M.pc.Committed? && M.rec.Recovered?) ==>
          s.cells[LocOf(M.pc)] == CellValue(OpOf(M.pc), ObjOf(M.pc)))
    && (HasTxn(M.pc) ==> M.pc.t.era == M.row[m])
    && (M.pc.Recorded? || M.pc.Logged? ==>
          M.pc.t.seen.lcid < |s.machines| && M.row[M.pc.t.seen.lcid] >= M.pc.t.seen.era)
  }

  /** Whether the newest entry landed, where its cell stands, and that landing leaves a trace. */
  ghost predicate LandedOk(s: State, m: nat)
    requires Shape(s) && m < |s.machines|
  {
    var M := s.machines[m];
    var e := Latest(M.redo);
    && (LandedPc(M.pc) ==> M.landed)
    && (e.Entry? && e.era == M.row[m] ==> (M.landed <==> LandedPc(M.pc)))
    && (e.Entry? && e.era < M.row[m] ==>
          M.landed && e.loc in s.cells && s.cells[e.loc] == CellValue(e.op, e.obj))
    && (e.Entry? && M.landed ==> Detected(s, m))
  }

  /** A recovery in progress has the right answer, or a row still to be read will give it. */
  ghost predicate RecoveryOk(s: State, m: nat)
    requires Shape(s) && m < |s.machines|
  {
    var M := s.machines[m];
    var e := Latest(M.redo);
    && (M.alive ==> M.rec.NotRecovered?)
    && (M.rec.Scanning? ==>
          && e.Entry?
          && (M.rec.found ==> M.landed)
          && (!M.rec.found && M.landed ==> exists j :: j >= M.rec.next && RowShows(s, j, m, e)))
  }

  ghost predicate MachineOk(s: State, m: nat)
    requires Shape(s) && m < |s.machines|
  {
    LogOk(s, m) && OpOk(s, m) && LandedOk(s, m) && RecoveryOk(s, m)
  }

  /** What a cell will hold once every committed but unwritten operation has been finished. */
  function Settled(s: State, loc: Loc): Obj
    requires Shape(s) && loc in s.cells
  {
    var M := s.machines[s.owner[loc]];
    if M.pc.Committed? && M.pc.t.loc == loc && !M.rec.Recovered? then CellValue(M.pc.t.op, M.pc.t.obj)
    else s.cells[loc]
  }

  function Refs(s: State, o: Obj): set<Loc>
    requires Shape(s)
  {
    set loc | loc in s.cells && Settled(s, loc) == o
  }

  ghost predicate CountsOk(s: State)
    requires Shape(s)
  {
    && (forall l :: l in s.cells ==> s.cells[l] == 0 || s.cells[l] in s.ri)
    && (forall o :: o in s.ri ==> s.ri[o].cnt == |Refs(s, o)| % COUNT_MOD)
  }

  ghost predicate Inv(s: State) {
    && Shape(s)
    && StampsOk(s)
    && (forall m :: 0 <= m < |s.machines| ==> MachineOk(s, m))
    && CountsOk(s)
  }

  /** Before anyone joined: zeroed metadata, era-0 objects, counts equal to the cells. */
  ghost predicate Init(s: State) {
    && Shape(s)
    && (forall m :: 0 <= m < |s.machines| ==>
          var M := s.machines[m];
          && M.pc.Offline? && M.alive && M.rec.NotRecovered?
          && M.redo == EmptyRing()
          && (forall j :: 0 <= j < |M.row| ==> M.row[j] == 0))
    && (forall o :: o in s.ri ==> s.ri[o].era == 0)
    && CountsOk(s)
  }

  lemma InitInv(s: State)
    requires Init(s)
    ensures Inv(s)
  {
    forall m | 0 <= m < |s.machines| ensures MachineOk(s, m) {
      LatestInRing(s.machines[m].redo);
    }
  }

  // ---------------------------------------------------------------- framing

  ghost predicate RowsGrow(s: State, s': State)
    requires Shape(s) && Shape(s')
  {
    && |s'.machines| == |s.machines|
    && forall i, j :: 0 <= i < |s.machines| && 0 <= j < |s.machines| && i != j ==>
         s'.machines[i].row[j] >= s.machines[i].row[j]
  }

  /** A machine that did not move keeps its part of the invariant. */
  lemma MachineFrame(s: State, s': State, k: nat)
    requires Shape(s) && Shape(s') && k < |s.machines| && MachineOk(s, k)
    requires RowsGrow(s, s') && s'.machines[k] == s.machines[k]
    requires s'.owner == s.owner && s'.cells.Keys == s.cells.Keys
    requires forall o :: o in s.ri ==> o in s'.ri
    requires forall l :: l in s.cells && s.owner[l] == k ==> s'.cells[l] == s.cells[l]
    requires Latest(s.machines[k].redo).Entry? && s.machines[k].landed && CaseA(s, k, Latest(s.machines[k].redo)) ==> Detected(s', k)
    ensures MachineOk(s', k)
  {
    var M := s.machines[k];
    var e := Latest(M.redo);
    LatestInRing(M.redo);
    forall i | 0 <= i < |M.redo| && M.redo[i].Entry? ensures EntryOk(s', k, M.redo[i]) {
      assert EntryOk(s, k, M.redo[i]);
    }
    assert forall j :: RowShows(s, j, k, e) ==> RowShows(s', j, k, e);
  }

  lemma StampsFrame(s: State, s': State)
    requires Shape(s) && Shape(s') && |s'.machines| == |s.machines|
    requires forall m :: 0 <= m < |s.machines| ==>
               || (s'.machines[m].row[m] > s.machines[m].row[m])
               || (s'.machines[m].row[m] == s.machines[m].row[m] && (Spent(s.machines[m].pc) ==> Spent(s'.machines[m].pc)))
    ensures forall m, era :: StampOk(s, m, era) ==> StampOk(s', m, era)
  {
  }

  /** Counts are unaffected when neither the counts nor the settled cells change. */
  lemma CountsFrame(s: State, s': State)
    requires Shape(s) && Shape(s') && CountsOk(s)
    requires s'.ri.Keys == s.ri.Keys && s'.cells.Keys == s.cells.Keys
    requires forall o :: o in s.ri ==> s'.ri[o].cnt == s.ri[o].cnt
    requires forall l :: l in s.cells ==> Settled(s', l) == Settled(s, l)
    requires forall l :: l in s.cells ==> s'.cells[l] == 0 || s'.cells[l] in s.ri
    ensures CountsOk(s')
  {
    forall o | o in s'.ri ensures s'.ri[o].cnt == |Refs(s', o)| % COUNT_MOD {
      assert Refs(s', o) == Refs(s, o);
    }
  }

  // ---------------------------------------------------------------- preservation, step by step

  /** Steps of machine m that only touch its own record, leaving cells and ref_info alone. */
  ghost predicate LocalStep(s: State, s': State, m: nat)
    requires Shape(s) && m < |s.machines|
  {
    && |s'.machines| == |s.machines| && s'.ri == s.ri && s'.cells == s.cells && s'.owner == s.owner
    && s'.machines == s.machines[m := s'.machines[m]]
    && |s'.machines[m].row| == |s.machines| && |s'.machines[m].redo| == REDO_CNT
    && (forall j :: 0 <= j < |s.machines| && j != m ==> s'.machines[m].row[j] >= s.machines[m].row[j])
  }

  /** The other machines, and the trace left by m's newest entry, survive a local step of m. */
  lemma LocalFrame(s: State, s': State, m: nat)
    requires Shape(s) && m < |s.machines| && LocalStep(s, s', m)
    requires forall k :: 0 <= k < |s.machines| ==> MachineOk(s, k)
    ensures Shape(s')
    ensures forall k :: 0 <= k < |s.machines| && k != m ==> MachineOk(s', k)
  {
    forall k | 0 <= k < |s.machines| && k != m ensures MachineOk(s', k) {
      var e := Latest(s.machines[k].redo);
      assert CaseA(s, k, e) ==> CaseA(s', k, e);
      MachineFrame(s, s', k);
    }
  }

  lemma LocalCounts(s: State, s': State, m: nat)
    requires Shape(s) && Shape(s') && m < |s.machines| && LocalStep(s, s', m) && CountsOk(s)
    requires SamePending(s.machines[m], s'.machines[m])
    ensures CountsOk(s')
  {
    CountsFrame(s, s');
  }

  predicate SamePending(M: Machine, M': Machine) {
    && (M.pc.Committed? && !M.rec.Recovered? <==> M'.pc.Committed? && !M'.rec.Recovered?)
    && (M.pc.Committed? && M'.pc.Committed? ==> M.pc.t == M'.pc.t)
  }

  /** Era bookkeeping survives when m's own era moves only forward and what m newly knows is sound. */
  lemma LocalStamps(s: State, s': State, m: nat)
    requires Shape(s) && Shape(s') && m < |s.machines| && LocalStep(s, s', m) && StampsOk(s)
    requires
      || s'.machines[m].row[m] > s.machines[m].row[m]
      || (s'.machines[m].row[m] == s.machines[m].row[m] && (Spent(s.machines[m].pc) ==> Spent(s'.machines[m].pc)))
    requires forall j :: 0 <= j < |s.machines| && j != m && s'.machines[m].row[j] != s.machines[m].row[j] ==>
               StampOk(s, j, s'.machines[m].row[j])
    requires Reading(s'.machines[m]) ==>
               s'.machines[m].pc.t.seen.lcid < |s.machines| && StampOk(s, s'.machines[m].pc.t.seen.lcid, s'.machines[m].pc.t.seen.era)
    ensures StampsOk(s')
  {
    StampsFrame(s, s');
  }

  /** The log part of the invariant when the ring itself is untouched. */
  lemma LogKeeps(s: State, s': State, m: nat)
    requires Shape(s) && Shape(s') && m < |s.machines| && |s'.machines| == |s.machines| && LogOk(s, m)
    requires s'.cells.Keys == s.cells.Keys && s'.owner == s.owner && s.ri.Keys <= s'.ri.Keys
    requires
      var M, M' := s.machines[m], s'.machines[m];
      && M'.redo == M.redo && !M.pc.Offline? && !M'.pc.Offline?
      && M'.row[m] >= M.row[m]
      && (M'.row[m] == M.row[m] && InFlight(M.pc) ==>
            InFlight(M'.pc) && OpOf(M'.pc) == OpOf(M.pc) && LocOf(M'.pc) == LocOf(M.pc) && ObjOf(M'.pc) == ObjOf(M.pc))
      && (M'.pc.Logged? || LandedPc(M'.pc) ==>
            M'.row[m] == M.row[m] && (M.pc.Logged? || LandedPc(M.pc)) && M'.pc.t == M.pc.t)
    ensures LogOk(s', m)
  {
    var M := s.machines[m];
    forall k | 0 <= k < |M.redo| && M.redo[k].Entry? ensures EntryOk(s', m, M.redo[k]) {
      assert EntryOk(s, m, M.redo[k]);
    }
  }

  /** The trace of a landed CAS is still there when ref_info and the other rows did not shrink. */
  lemma DetectedKeeps(s: State, s': State, m: nat)
    requires Shape(s) && Shape(s') && m < |s.machines| && RowsGrow(s, s')
    requires Detected(s, m) && Latest(s'.machines[m].redo) == Latest(s.machines[m].redo)
    requires CaseA(s, m, Latest(s.machines[m].redo)) ==> CaseA(s', m, Latest(s.machines[m].redo))
    ensures Detected(s', m)
  {
    var e := Latest(s.machines[m].redo);
    if !CaseA(s, m, e) {
      var j :| RowShows(s, j, m, e);
      assert RowShows(s', j, m, e);
    }
  }

  lemma AssembleLocal(s: State, s': State, m: nat)
    requires Inv(s) && m < |s.machines| && LocalStep(s, s', m)
    requires Shape(s') && StampsOk(s') && MachineOk(s', m)
    requires SamePending(s.machines[m], s'.machines[m])
    ensures Inv(s')
  {
    LocalFrame(s, s', m);
    LocalCounts(s, s', m);
  }

  /** No trace of an earlier life of machine m: no row, no object and no live reader knows an era of m. */
  ghost predicate Fresh(s: State, m: nat)
    requires Shape(s)
  {
    && (forall j :: 0 <= j < |s.machines| && j != m && m < |s.machines| ==> s.machines[j].row[m] == 0)
    && (forall o :: o in s.ri && s.ri[o].lcid == m ==> s.ri[o].era == 0)
    && (forall k :: 0 <= k < |s.machines| && Reading(s.machines[k]) && s.machines[k].pc.t.seen.lcid == m ==>
          s.machines[k].pc.t.seen.era == 0)
  }

  /** Nothing that machine m has committed still waits for its cell write. */
  predicate NothingOutstanding(s: State, m: nat)
    requires m < |s.machines|
  {
    s.machines[m].rec.Recovered? || !s.machines[m].pc.Committed?
  }

  lemma RebootInv(s: State, m: nat)
    requires Inv(s) && Enabled(s, Reboot(m)) && NothingOutstanding(s, m)
    ensures Inv(Do(s, Reboot(m)))
  {
    var s' := Do(s, Reboot(m));
    LatestInRing(s'.machines[m].redo);
    LocalStamps(s, s', m);
    AssembleLocal(s, s', m);
  }

  lemma FirstJoinIsFresh(s: State, m: nat)
    requires Inv(s) && m < |s.machines| && s.machines[m].row[m] == 0 && s.machines[m].pc.Offline?
    ensures Fresh(s, m)
  {
    forall j | 0 <= j < |s.machines| && j != m ensures s.machines[j].row[m] == 0 {
      assert StampOk(s, m, s.machines[j].row[m]);
    }
  }

  lemma JoinStamps(s: State, m: nat)
    requires Inv(s) && Enabled(s, Join(m)) && Fresh(s, m)
    ensures StampsOk(Do(s, Join(m)))
  {
    var s' := Do(s, Join(m));
    forall k, era | k != m && StampOk(s, k, era) ensures StampOk(s', k, era) { }
    forall j, k | 0 <= j < |s.machines| && 0 <= k < |s.machines| && j != k
      ensures StampOk(s', k, s'.machines[j].row[k])
    {
      assert StampOk(s, k, s.machines[j].row[k]);
    }
  }

  lemma JoinInv(s: State, m: nat)
    requires Inv(s) && Enabled(s, Join(m)) && Fresh(s, m)
    ensures Inv(Do(s, Join(m)))
  {
    var s' := Do(s, Join(m));
    assert MachineOk(s, m);
    LatestInRing(s'.machines[m].redo);
    JoinStamps(s, m);
    AssembleLocal(s, s', m);
  }

  lemma LeaveInv(s: State, m: nat)
    requires Inv(s) && Enabled(s, Leave(m))
    ensures Inv(Do(s, Leave(m)))
  {
    var s' := Do(s, Leave(m));
    assert MachineOk(s, m);
    LatestInRing(s'.machines[m].redo);
    LocalStamps(s, s', m);
    AssembleLocal(s, s', m);
  }

  /** Start, Load, Record, a failed CAS and a crash leave era, ring and landed flag as they were. */
  lemma QuietStep(s: State, s': State, m: nat)
    requires Inv(s) && m < |s.machines| && LocalStep(s, s', m) && Shape(s')
    requires
      var M, M' := s.machines[m], s'.machines[m];
      && !M.pc.Offline? && !M'.pc.Offline?
      && M'.redo == M.redo && M'.landed == M.landed && M'.row[m] == M.row[m] && M'.rec == M.rec
      && (M'.alive ==> M.alive)
      && (LandedPc(M.pc) <==> LandedPc(M'.pc)) && (LandedPc(M.pc) ==> M'.pc == M.pc)
      && (InFlight(M.pc) ==>
            InFlight(M'.pc) && OpOf(M'.pc) == OpOf(M.pc) && LocOf(M'.pc) == LocOf(M.pc) && ObjOf(M'.pc) == ObjOf(M.pc))
      && (M'.pc.Logged? ==> M.pc.Logged? && M'.pc.t == M.pc.t)
    requires OpOk(s', m) && StampsOk(s')
    ensures Inv(s')
  {
    assert MachineOk(s, m);
    LogKeeps(s, s', m);
    LatestInRing(s.machines[m].redo);
    if Detected(s, m) { DetectedKeeps(s, s', m); }
    var e := Latest(s.machines[m].redo);
    assert forall j :: RowShows(s, j, m, e) ==> RowShows(s', j, m, e);
    AssembleLocal(s, s', m);
  }

  lemma StartInv(s: State, m: nat, op: Op, loc: Loc, obj: Obj)
    requires Inv(s) && Enabled(s, Start(m, op, loc, obj))
    ensures Inv(Do(s, Start(m, op, loc, obj)))
  {
    var s' := Do(s, Start(m, op, loc, obj));
    assert MachineOk(s, m);
    LocalStamps(s, s', m);
    QuietStep(s, s', m);
  }

  lemma LoadInv(s: State, m: nat)
    requires Inv(s) && Enabled(s, Load(m))
    ensures Inv(Do(s, Load(m)))
  {
    var s' := Do(s, Load(m));
    assert MachineOk(s, m);
    LocalStamps(s, s', m);
    QuietStep(s, s', m);
  }

  lemma RecordInv(s: State, m: nat)
    requires Inv(s) && Enabled(s, Record(m))
    ensures Inv(Do(s, Record(m)))
  {
    var s' := Do(s, Record(m));
    var seen := s.machines[m].pc.t.seen;
    assert MachineOk(s, m);
    // A stamp of m itself is older than m's present era, so m's own era does not move.
    assert StampOk(s, seen.lcid, seen.era);
    LocalStamps(s, s', m);
    QuietStep(s, s', m);
  }

  lemma CasFailInv(s: State, m: nat)
    requires Inv(s) && Enabled(s, Cas(m)) && s.ri[s.machines[m].pc.t.obj] != s.machines[m].pc.t.seen
    ensures Inv(Do(s, Cas(m)))
  {
    var s' := Do(s, Cas(m));
    assert MachineOk(s, m);
    LocalStamps(s, s', m);
    QuietStep(s, s', m);
  }

  lemma CrashInv(s: State, m: nat)
    requires Inv(s) && Enabled(s, Crash(m))
    ensures Inv(Do(s, Crash(m)))
  {
    var s' := Do(s, Crash(m));
    assert MachineOk(s, m);
    LocalStamps(s, s', m);
    if s.machines[m].pc.Offline? {
      LatestInRing(s.machines[m].redo);
      AssembleLocal(s, s', m);
    } else {
      QuietStep(s, s', m);
    }
  }

  lemma LogInv(s: State, m: nat)
    requires Inv(s) && Enabled(s, Log(m))
    ensures Inv(Do(s, Log(m)))
  {
    var s' := Do(s, Log(m));
    assert MachineOk(s, m);
    LocalStamps(s, s', m);
    var redo := s'.machines[m].redo;
    forall k | 0 <= k < |redo| && redo[k].Entry? ensures EntryOk(s', m, redo[k]) {
      if k != s.machines[m].row[m] % REDO_CNT {
        assert EntryOk(s, m, s.machines[m].redo[k]);
      }
    }
    assert LogOk(s', m);
    LatestIsSlot(redo, s.machines[m].row[m]);
    AssembleLocal(s, s', m);
  }

  lemma BumpInv(s: State, m: nat)
    requires Inv(s) && Enabled(s, BumpEra(m))
    ensures Inv(Do(s, BumpEra(m)))
  {
    var s' := Do(s, BumpEra(m));
    assert MachineOk(s, m);
    LocalStamps(s, s', m);
    LogKeeps(s, s', m);
    LatestIsSlot(s.machines[m].redo, s.machines[m].row[m]);
    DetectedKeeps(s, s', m);
    AssembleLocal(s, s', m);
  }
}
