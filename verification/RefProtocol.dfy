/**
  Crash-resilient reference counting in shared memory, as a transition system.

  Every machine runs link and unlink as the sequence
    load ref_info; record the seen era; write the redo entry; CAS; write the cell; bump own era
  and may die between any two of those steps.  A survivor then scans the dead machine's
  redo ring, the object's ref_info and the era matrix, one read at a time, while the
  other machines keep running.
 */
module RefProtocol {
  const REDO_CNT: nat := 8
  const COUNT_MOD: nat := 0x1_0000

  type Loc = nat
  type Obj = nat      // shared-memory offset; 0 is the null pointer

  datatype Op = Link | Unlink

  /** The three fields packed in an object's ref_info word. */
  datatype RefInfo = RefInfo(lcid: nat, cnt: nat, era: nat)

  datatype Redo = Empty | Entry(op: Op, savedCnt: nat, era: nat, loc: Loc, obj: Obj)

  /** One attempt of a link or unlink: the operation, the ref_info it loaded and its own era. */
  datatype Txn = Txn(op: Op, loc: Loc, obj: Obj, seen: RefInfo, era: nat)

  datatype Pc =
    | Offline
    | Idle
    | Begun(op: Op, loc: Loc, obj: Obj)
    | Loaded(t: Txn)
    | Recorded(t: Txn)
    | Logged(t: Txn)
    | Committed(t: Txn)
    | Written(t: Txn)

  datatype Recovery = NotRecovered | Scanning(found: bool, next: nat) | Recovered

  /** `landed` is a history variable: did the CAS of the newest redo entry succeed? */
  datatype Machine = Machine(pc: Pc, alive: bool, row: seq<nat>, redo: seq<Redo>, landed: bool, rec: Recovery)

  /** `machines[i].row[j]` is era[i][j]; `owner` says which machine writes a reference cell. */
  datatype State = State(machines: seq<Machine>, ri: map<Obj, RefInfo>, cells: map<Loc, Obj>, owner: map<Loc, nat>)

  datatype Action =
    | Join(m: nat)
    | Leave(m: nat)
    | Start(m: nat, op: Op, loc: Loc, obj: Obj)
    | Load(m: nat)
    | Record(m: nat)
    | Log(m: nat)
    | Cas(m: nat)
    | WriteCell(m: nat)
    | BumpEra(m: nat)
    | Crash(m: nat)
    | Reboot(m: nat)
    | RecoverBegin(m: nat)
    | RecoverScan(m: nat)
    | RecoverApply(m: nat)
    | Alloc(obj: Obj)

  // ---------------------------------------------------------------- pieces of a step

  /** What the cell holds once the operation has been applied to it. */
  function CellValue(op: Op, obj: Obj): Obj {
    if op.Link? then obj else 0
  }

  /** Old count plus or minus one, as a 16-bit word. */
  function NewCount(op: Op, cnt: nat): nat {
    if op.Link? then (cnt + 1) % COUNT_MOD else (cnt + COUNT_MOD - 1) % COUNT_MOD
  }

  /** The entry a scan of the first `n` slots settles on: the first one with the highest era. */
  function LatestOf(redo: seq<Redo>, n: nat): Redo
    requires n <= |redo|
  {
    if n == 0 then Empty
    else
      var best := LatestOf(redo, n - 1);
      if redo[n - 1].Empty? then best
      else if best.Empty? || redo[n - 1].era > best.era then redo[n - 1]
      else best
  }

  function Latest(redo: seq<Redo>): Redo {
    LatestOf(redo, |redo|)
  }

  function EmptyRing(): seq<Redo> {
    seq(REDO_CNT, _ => Empty)
  }

  function EntryOf(t: Txn): Redo {
    Entry(t.op, t.seen.cnt, t.era, t.loc, t.obj)
  }

  /** Case A: the object still carries the dead machine's stamp for this entry. */
  predicate CaseA(s: State, m: nat, e: Redo) {
    e.Entry? && e.obj in s.ri && s.ri[e.obj].lcid == m && s.ri[e.obj].era == e.era
  }

  /** Case B for one row: machine j has seen an era of m at least as new as the entry. */
  predicate RowShows(s: State, j: nat, m: nat, e: Redo) {
    j < |s.machines| && j != m && e.Entry? && m < |s.machines[j].row| && s.machines[j].row[m] >= e.era
  }

  /** Case A or Case B for the newest redo entry of machine m. */
  ghost predicate Detected(s: State, m: nat)
    requires m < |s.machines|
  {
    var e := Latest(s.machines[m].redo);
    CaseA(s, m, e) || exists j :: RowShows(s, j, m, e)
  }

  // ---------------------------------------------------------------- the transition system

  predicate Shape(s: State) {
    && (forall m :: 0 <= m < |s.machines| ==>
          |s.machines[m].row| == |s.machines| && |s.machines[m].redo| == REDO_CNT)
    && 0 !in s.ri
    && (forall o :: o in s.ri ==> s.ri[o].lcid < |s.machines|)
    && (forall l :: l in s.cells ==> l in s.owner && s.owner[l] < |s.machines|)
  }

  function SetMachine(s: State, m: nat, v: Machine): State
    requires m < |s.machines|
  {
    s.(machines := s.machines[m := v])
  }

  predicate Running(s: State, m: nat) {
    m < |s.machines| && s.machines[m].alive
  }

  predicate Dead(s: State, m: nat) {
    m < |s.machines| && !s.machines[m].alive
  }

  predicate Enabled(s: State, a: Action)
    requires Shape(s)
  {
    match a
    case Join(m) => Running(s, m) && s.machines[m].pc.Offline?
    case Leave(m) => Running(s, m) && s.machines[m].pc.Idle?
    case Start(m, op, loc, obj) =>
      && Running(s, m) && s.machines[m].pc.Idle?
      && loc in s.cells && s.owner[loc] == m && obj in s.ri
      && s.cells[loc] == (if op.Link? then 0 else obj)
    case Load(m) => Running(s, m) && s.machines[m].pc.Begun? && s.machines[m].pc.obj in s.ri
    case Record(m) => Running(s, m) && s.machines[m].pc.Loaded? && s.machines[m].pc.t.seen.lcid < |s.machines|
    case Log(m) => Running(s, m) && s.machines[m].pc.Recorded?
    case Cas(m) => Running(s, m) && s.machines[m].pc.Logged? && s.machines[m].pc.t.obj in s.ri
    case WriteCell(m) => Running(s, m) && s.machines[m].pc.Committed?
    case BumpEra(m) => Running(s, m) && s.machines[m].pc.Written?
    case Crash(m) => Running(s, m)
    case Reboot(m) => Dead(s, m) && !s.machines[m].rec.Scanning?
    case RecoverBegin(m) => Dead(s, m) && s.machines[m].rec.NotRecovered?
    case RecoverScan(m) =>
      Dead(s, m) && s.machines[m].rec.Scanning? && !s.machines[m].rec.found && s.machines[m].rec.next < |s.machines|
    case RecoverApply(m) =>
      Dead(s, m) && s.machines[m].rec.Scanning? && (s.machines[m].rec.found || s.machines[m].rec.next >= |s.machines|)
    case Alloc(obj) => obj != 0 && obj !in s.ri && |s.machines| > 0
  }

  function DoCas(s: State, m: nat): State
    requires Shape(s) && Enabled(s, Cas(m))
  {
    var M := s.machines[m];
    var t := M.pc.t;
    if s.ri[t.obj] == t.seen then
      SetMachine(s, m, M.(pc := Committed(t), landed := true))
        .(ri := s.ri[t.obj := RefInfo(m, NewCount(t.op, t.seen.cnt), t.era)])
    else
      SetMachine(s, m, M.(pc := Begun(t.op, t.loc, t.obj)))
  }

  function DoRecord(s: State, m: nat): State
    requires Shape(s) && Enabled(s, Record(m))
  {
    var M := s.machines[m];
    var seen := M.pc.t.seen;
    var row := if seen.era > M.row[seen.lcid] then M.row[seen.lcid := seen.era] else M.row;
    SetMachine(s, m, M.(pc := Recorded(M.pc.t), row := row))
  }

  function DoRecoverApply(s: State, m: nat): State
    requires Shape(s) && Enabled(s, RecoverApply(m))
  {
    var M := s.machines[m];
    var e := Latest(M.redo);
    var s' := SetMachine(s, m, M.(rec := Recovered));
    if M.rec.found && e.Entry? then s'.(cells := s.cells[e.loc := CellValue(e.op, e.obj)]) else s'
  }

  function Do(s: State, a: Action): State
    requires Shape(s) && Enabled(s, a)
  {
    match a
    case Join(m) =>
      var M := s.machines[m];
      SetMachine(s, m, M.(pc := Idle, redo := EmptyRing(), row := M.row[m := 1], landed := false))
    case Leave(m) =>
      SetMachine(s, m, s.machines[m].(pc := Offline, redo := EmptyRing(), landed := false))
    case Start(m, op, loc, obj) =>
      SetMachine(s, m, s.machines[m].(pc := Begun(op, loc, obj)))
    case Load(m) =>
      var M := s.machines[m];
      SetMachine(s, m, M.(pc := Loaded(Txn(M.pc.op, M.pc.loc, M.pc.obj, s.ri[M.pc.obj], M.row[m]))))
    case Record(m) => DoRecord(s, m)
    case Log(m) =>
      var M := s.machines[m];
      SetMachine(s, m, M.(pc := Logged(M.pc.t), redo := M.redo[M.pc.t.era % REDO_CNT := EntryOf(M.pc.t)], landed := false))
    case Cas(m) => DoCas(s, m)
    case WriteCell(m) =>
      var M := s.machines[m];
      SetMachine(s, m, M.(pc := Written(M.pc.t))).(cells := s.cells[M.pc.t.loc := CellValue(M.pc.t.op, M.pc.t.obj)])
    case BumpEra(m) =>
      var M := s.machines[m];
      SetMachine(s, m, M.(pc := Idle, row := M.row[m := M.row[m] + 1]))
    case Crash(m) => SetMachine(s, m, s.machines[m].(alive := false))
    case Reboot(m) =>
      // a later boot of the machine: its join first clears the ring that the crash left
      SetMachine(s, m, s.machines[m].(pc := Offline, alive := true, redo := EmptyRing(), landed := false, rec := NotRecovered))
    case RecoverBegin(m) =>
      var M := s.machines[m];
      var e := Latest(M.redo);
      SetMachine(s, m, M.(rec := if e.Empty? then Recovered else Scanning(CaseA(s, m, e), 0)))
    case RecoverScan(m) =>
      var M := s.machines[m];
      SetMachine(s, m, M.(rec := Scanning(RowShows(s, M.rec.next, m, Latest(M.redo)), M.rec.next + 1)))
    case RecoverApply(m) => DoRecoverApply(s, m)
    case Alloc(obj) => s.(ri := s.ri[obj := RefInfo(0, 0, 0)])
  }
}
