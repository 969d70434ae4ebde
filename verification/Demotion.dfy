/**
  Demotion of one tracked CXL page back to its owner's DRAM, as a transition system over
  critical sections, with page tables and TLBs of every machine, concurrent page faults and
  program writes through cached translations.

  A page fault is three steps, as in the fault handler: read the PMO entry; then, holding the
  page-table lock, test dsm_cxl_mapping_in_transition; then install the PTE and unlock.
  A page that is being freed is no longer faulted on.
 */
module Demotion {
  import opened Lifecycle

  datatype Frame = Cxl | Dram

  /** `bits` stands for the permission and status bits of a PTE. */
  datatype Pte = Absent | Present(frame: Frame, bits: nat) | Migration

  /** One page-table position: a mapping of the page (alias) on one machine. */
  datatype Slot = Slot(alias: nat, mid: nat)

  datatype Phase = Idle | Selected | Prepared | Flushed

  /** The PMO's radix entry for the page. */
  datatype Pmo = Names(frame: Frame) | Removed

  /** What the allocator did with the CXL frame. */
  datatype Use = Owned | Returned | Reused

  datatype Fault = NoFault | Read(frame: Frame) | Checked(frame: Frame)

  datatype Worker =
    | Resting
    | Claimed
    | Preparing(snap: set<nat>, done: set<nat>)
    | Flushing(flushed: set<nat>)
    | Copying
    | Copied
    | Finishing(free: bool, left: set<Slot>)
    | Restoring
    | ToFree
    | Done

  /** `saved` is candidate->mappings; `touched` (history) is every PTE changed by the present attempt,
      with its old value; `refaulted` (history) is where a fault has installed a PTE since the page was committed
      to DRAM; `last` (history) is the last value a program wrote to the page. */
  datatype State = State(
    owner: nat, linked: set<nat>,
    pmo: Pmo, page: PageState, phase: Phase, freeReq: bool, use: Use,
    ptes: map<Slot, Pte>, tlb: set<(Slot, Frame)>, faults: map<Slot, Fault>,
    worker: Worker, saved: map<Slot, Pte>, touched: map<Slot, Pte>,
    mem: map<Frame, int>, last: int, refaulted: set<Slot>)

  datatype Action =
    | TlbFill(sl: Slot)
    | TlbEvict(sl: Slot, f: Frame)
    | Write(sl: Slot, f: Frame, v: int)
    | LinkAlias(alias: nat)
    | Unmap(sl: Slot)
    | FaultRead(sl: Slot)
    | FaultCheck(sl: Slot)
    | FaultInstall(sl: Slot, bits: nat)
    | FaultRetry(sl: Slot)
    | Claim
    | Snapshot
    | PrepareAlias(alias: nat)
    | PrepareFail(alias: nat, some: set<Slot>)
    | PrepareDone
    | FlushMachine(mid: nat)
    | Fail
    | MarkFlushed
    | Copy
    | FinishCommit
    | FinishPte(sl: Slot)
    | FinishState
    | BuddyFree
    | RestorePte(sl: Slot)
    | Release
    | FreeRequest
    | Reuse(v: int)

  function PteAt(ptes: map<Slot, Pte>, sl: Slot): Pte { if sl in ptes then ptes[sl] else Absent }

  function FaultAt(faults: map<Slot, Fault>, sl: Slot): Fault { if sl in faults then faults[sl] else NoFault }

  /** dsm_cxl_mapping_in_transition for the frame a fault is about to install. */
  predicate InTransition(s: State, f: Frame) {
    if f.Dram? then false
    else if s.use.Returned? then s.pmo != Names(f)      // no longer an allocated CXL page
    else if s.page.None? then false
    else if !s.page.Resident? then true
    else s.pmo != Names(f)
  }

  /** The frame under test: a PTE that is already present overrides the frame read from the PMO. */
  function FaultFrame(s: State, sl: Slot): Frame
    requires FaultAt(s.faults, sl).Read?
  {
    if PteAt(s.ptes, sl).Present? then PteAt(s.ptes, sl).frame else FaultAt(s.faults, sl).frame
  }

  /** Some fault holds the page-table lock of the alias. */
  ghost predicate Locked(s: State, alias: nat) {
    exists sl :: sl in s.faults && sl.alias == alias && s.faults[sl].Checked?
  }

  /** Slots of the alias that map the CXL page. */
  function Mapped(s: State, alias: nat): set<Slot> {
    set sl | sl in s.ptes && sl.alias == alias && s.ptes[sl].Present?
  }

  /** The demoter holds the vmspace locks of its aliases. */
  predicate Busy(w: Worker) {
    !w.Resting? && !w.Claimed? && !w.ToFree? && !w.Done?
  }

  ghost predicate Enabled(s: State, a: Action) {
    match a
    case TlbFill(sl) => PteAt(s.ptes, sl).Present?
    case TlbEvict(sl, f) => (sl, f) in s.tlb
    case Write(sl, f, v) => (sl, f) in s.tlb
    case LinkAlias(alias) => alias !in s.linked
    case Unmap(sl) => PteAt(s.ptes, sl).Present? && !Busy(s.worker) && (forall x :: x in s.faults && x.alias == sl.alias ==> s.faults[x].NoFault?)
    case FaultRead(sl) => sl.alias in s.linked && FaultAt(s.faults, sl).NoFault? && s.pmo.Names? && !s.freeReq
    case FaultCheck(sl) =>
      && FaultAt(s.faults, sl).Read? && !Locked(s, sl.alias) && !PteAt(s.ptes, sl).Migration?
      && !InTransition(s, FaultFrame(s, sl))
      && (FaultFrame(s, sl).Cxl? || sl.mid == s.owner)
    case FaultInstall(sl, bits) => FaultAt(s.faults, sl).Checked?
    case FaultRetry(sl) => FaultAt(s.faults, sl).Read?
    case Claim => s.worker.Resting? && s.page.Resident? && s.pmo == Names(Cxl)
    case Snapshot => s.worker.Claimed?
    case PrepareAlias(alias) =>
      && s.worker.Preparing? && alias in s.worker.snap && alias !in s.worker.done && !Locked(s, alias)
      && s.pmo == Names(Cxl) && (forall sl :: sl in Mapped(s, alias) ==> s.ptes[sl].frame.Cxl?)
    case PrepareFail(alias, some) =>
      s.worker.Preparing? && alias in s.worker.snap && alias !in s.worker.done && !Locked(s, alias) && some <= Mapped(s, alias)
    case PrepareDone => s.worker.Preparing? && s.worker.done == s.worker.snap
    case FlushMachine(mid) => s.worker.Flushing?
    case Fail => s.worker.Claimed? || s.worker.Flushing? || s.worker.Copying?
    case MarkFlushed => s.worker.Flushing? && (forall sl :: sl in s.saved ==> sl.mid in s.worker.flushed)
    case Copy => s.worker.Copying?
    case FinishCommit => s.worker.Copied?
    case FinishPte(sl) => s.worker.Finishing? && sl in s.worker.left
    case FinishState => s.worker.Finishing? && s.worker.left == {}
    case BuddyFree => s.worker.ToFree?
    case RestorePte(sl) => s.worker.Restoring? && sl in s.saved
    case Release => s.worker.Restoring? && s.saved == map[]
    case FreeRequest => s.page.Demoting? && (forall x :: x in s.faults ==> s.faults[x].NoFault?)
    case Reuse(v) => !s.use.Owned?
  }

  /** Turn the given present PTEs into migration entries and remember their old values. */
  function Converted(s: State, some: set<Slot>, w: Worker): State
    requires forall sl :: sl in some ==> sl in s.ptes
  {
    var olds := map sl | sl in some :: s.ptes[sl];
    s.(ptes := s.ptes + (map sl | sl in some :: Migration), saved := s.saved + olds, touched := s.touched + olds, worker := w)
  }

  function Do(s: State, a: Action): State
    requires Enabled(s, a)
  {
    match a
    case TlbFill(sl) => s.(tlb := s.tlb + {(sl, PteAt(s.ptes, sl).frame)})
    case TlbEvict(sl, f) => s.(tlb := s.tlb - {(sl, f)})
    case Write(sl, f, v) => s.(mem := s.mem[f := v], last := v)
    case LinkAlias(alias) => s.(linked := s.linked + {alias})
    case Unmap(sl) => s.(ptes := s.ptes[sl := Absent], tlb := s.tlb - {(sl, Cxl), (sl, Dram)})
    case FaultRead(sl) => s.(faults := s.faults[sl := Read(s.pmo.frame)])
    case FaultCheck(sl) => s.(faults := s.faults[sl := Checked(FaultFrame(s, sl))])
    case FaultInstall(sl, bits) =>
      s.(ptes := s.ptes[sl := Present(FaultAt(s.faults, sl).frame, bits)], faults := s.faults[sl := NoFault],
         refaulted := s.refaulted + {sl})
    case FaultRetry(sl) => s.(faults := s.faults[sl := NoFault])
    case Claim => s.(page := Demoting, phase := Selected, worker := Claimed, touched := map[])
    case Snapshot => s.(worker := Preparing(s.linked, {}))
    case PrepareAlias(alias) =>
      Converted(s, Mapped(s, alias), Preparing(s.worker.snap, s.worker.done + {alias}))
    case PrepareFail(alias, some) => Converted(s, some, Restoring)
    case PrepareDone => s.(phase := Prepared, worker := Flushing({}))
    case FlushMachine(mid) =>
      s.(tlb := (set e | e in s.tlb && !(e.0.mid == mid && e.0 in s.saved)), worker := Flushing(s.worker.flushed + {mid}))
    case Fail => s.(worker := Restoring)
    case MarkFlushed => s.(phase := Flushed, worker := Copying)
    case Copy => s.(mem := s.mem[Dram := if Cxl in s.mem then s.mem[Cxl] else 0], worker := Copied)
    case FinishCommit => s.(pmo := Names(Dram), worker := Finishing(s.freeReq, s.saved.Keys), refaulted := {})
    case FinishPte(sl) =>
      var pte := if !s.worker.free && sl.mid == s.owner && sl in s.saved && s.saved[sl].Present?
                 then Present(Dram, s.saved[sl].bits) else Absent;
      s.(ptes := s.ptes[sl := pte], worker := Finishing(s.worker.free, s.worker.left - {sl}))
    case FinishState =>
      if s.worker.free then
        s.(pmo := Removed, page := Freeing, phase := Idle, worker := Done, saved := map[])
      else
        s.(page := None, phase := Idle, freeReq := false, worker := ToFree, saved := map[])
    case BuddyFree => s.(use := Returned, worker := Done)
    case RestorePte(sl) => s.(ptes := s.ptes[sl := s.saved[sl]], saved := s.saved - {sl})
    case Release =>
      if s.freeReq then s.(page := FreePending, phase := Idle, worker := Done)
      else s.(page := Resident, phase := Idle, worker := Resting)
    case FreeRequest => s.(freeReq := true)
    case Reuse(v) => s.(use := Reused, mem := s.mem[Cxl := v])
  }
}
