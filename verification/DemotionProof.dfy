/**
  Demotion keeps every program access on the one live copy of the page.
 */
module DemotionProof {
  import opened Demotion

  /** Every translation names the frame the PMO names, that frame holds the last value written,
      and a frame given back to the allocator is not the one the PMO names. */
  ghost predicate Safe(s: State) {
    && (forall e :: e in s.tlb ==> s.pmo == Names(e.1))
    && (forall sl :: PteAt(s.ptes, sl).Present? ==> s.pmo == Names(PteAt(s.ptes, sl).frame))
    && (s.pmo.Names? ==> s.pmo.frame in s.mem && s.mem[s.pmo.frame] == s.last)
    && (!s.use.Owned? ==> s.pmo != Names(Cxl))
  }

  /** Where the page stands while the demoter is at a given point. */
  ghost predicate Stage(s: State) {
    match s.worker
    case Resting => s.page.Resident? && s.phase.Idle? && s.pmo == Names(Cxl) && s.use.Owned? && !s.freeReq
    case Claimed => s.page.Demoting? && s.phase.Selected? && s.pmo == Names(Cxl) && s.use.Owned?
    case Preparing(_, _) => s.page.Demoting? && s.phase.Selected? && s.pmo == Names(Cxl) && s.use.Owned?
    case Flushing(_) => s.page.Demoting? && s.phase.Prepared? && s.pmo == Names(Cxl) && s.use.Owned?
    case Copying => s.page.Demoting? && s.phase.Flushed? && s.pmo == Names(Cxl) && s.use.Owned?
    case Copied => s.page.Demoting? && s.phase.Flushed? && s.pmo == Names(Cxl) && s.use.Owned?
    case Restoring => s.page.Demoting? && s.pmo == Names(Cxl) && s.use.Owned?
    case Finishing(free, _) => s.page.Demoting? && s.pmo == Names(Dram) && s.use.Owned? && (free ==> s.freeReq)
    case ToFree => s.page.None? && s.pmo == Names(Dram) && s.use.Owned?
    case Done =>
      || (s.page.None? && s.pmo == Names(Dram))
      || (s.page.Freeing? && s.pmo.Removed? && s.use.Owned?)
      || (s.page.FreePending? && s.pmo == Names(Cxl) && s.use.Owned?)
  }

  /** Migration entries are exactly the saved mappings (while finishing: the ones left to do). */
  ghost predicate EntriesSaved(s: State) {
    && (forall sl :: sl in s.saved ==> s.saved[sl].Present? && s.saved[sl].frame.Cxl?)
    && (!s.worker.Finishing? ==> forall sl :: PteAt(s.ptes, sl).Migration? <==> sl in s.saved)
    && (s.worker.Finishing? ==> s.worker.left <= s.saved.Keys && forall sl :: PteAt(s.ptes, sl).Migration? <==> sl in s.worker.left)
    && (!Busy(s.worker) ==> s.saved == map[])
  }

  /** No present PTE and no fault about to install one has escaped the preparation. */
  ghost predicate Captured(s: State) {
    && (s.worker.Preparing? ==>
          && s.worker.done <= s.worker.snap
          && (forall sl :: PteAt(s.ptes, sl).Present? || FaultAt(s.faults, sl).Checked? ==>
                sl.alias in s.worker.snap && sl.alias !in s.worker.done))
    && (s.worker.Flushing? || s.worker.Copying? || s.worker.Copied? ==>
          forall sl :: !PteAt(s.ptes, sl).Present? && !FaultAt(s.faults, sl).Checked?)
  }

  /** A cached translation sits under a present PTE or under a saved entry not yet flushed. */
  ghost predicate TlbBacked(s: State) {
    && (forall e :: e in s.tlb ==> PteAt(s.ptes, e.0).Present? || PteAt(s.ptes, e.0).Migration?)
    && (s.worker.Flushing? ==> forall e :: e in s.tlb ==> e.0.mid !in s.worker.flushed)
    && (s.worker.Copying? || s.worker.Copied? ==> s.tlb == {})
    && (s.worker.Finishing? ==> forall e :: e in s.tlb ==> PteAt(s.ptes, e.0).Present?)
  }

  ghost predicate FaultsOk(s: State) {
    && (forall sl :: FaultAt(s.faults, sl).Checked? ==>
          s.pmo == Names(FaultAt(s.faults, sl).frame) && !PteAt(s.ptes, sl).Migration? && (Busy(s.worker) && !s.worker.Finishing? ==> sl !in s.touched))
    && (forall sl :: !FaultAt(s.faults, sl).NoFault? || !PteAt(s.ptes, sl).Absent? ==> sl.alias in s.linked)
    && (forall sl :: FaultAt(s.faults, sl) == Read(Dram) ==> s.pmo == Names(Dram))
    && (s.freeReq && s.page.Demoting? ==> forall sl :: FaultAt(s.faults, sl).NoFault?)
    && (s.worker.Finishing? && s.worker.free ==> forall sl :: !PteAt(s.ptes, sl).Present?)
  }

  /** Every PTE touched by the attempt is either still saved or back at its old value. */
  ghost predicate TouchedOk(s: State) {
    && (Busy(s.worker) && !s.worker.Finishing? ==>
          forall sl :: sl in s.touched ==>
            s.touched[sl].Present? && if sl in s.saved then s.saved[sl] == s.touched[sl] else PteAt(s.ptes, sl) == s.touched[sl])
    && (Busy(s.worker) && !s.worker.Finishing? ==> s.saved.Keys <= s.touched.Keys)
    && (s.worker.Claimed? ==> s.touched == map[])
    && (s.worker.Copied? ==> Cxl in s.mem && Dram in s.mem && s.mem[Dram] == s.mem[Cxl])
    && (s.worker.Finishing? ==> Dram in s.mem && s.mem[Dram] == s.last)
  }

  ghost predicate Inv(s: State) {
    Safe(s) && Stage(s) && EntriesSaved(s) && Captured(s) && TlbBacked(s) && FaultsOk(s) && TouchedOk(s)
  }

  /** A tracked resident page: mapped anywhere or nowhere, nothing in flight. */
  ghost predicate Init(s: State) {
    && Safe(s) && s.worker.Resting? && s.page.Resident? && s.phase.Idle? && s.pmo == Names(Cxl) && s.use.Owned?
    && s.saved == map[] && s.faults == map[] && !s.freeReq
    && (forall sl :: sl in s.ptes ==> !s.ptes[sl].Migration? && (s.ptes[sl].Present? ==> sl.alias in s.linked))
    && (forall e :: e in s.tlb ==> PteAt(s.ptes, e.0).Present?)
  }

  /** The fault does not test a frame that stopped being tracked. */
  ghost predicate Guarded(s: State, a: Action) {
    a.FaultCheck? && FaultAt(s.faults, a.sl).Read? && FaultFrame(s, a.sl).Cxl? ==> !s.page.None?
  }

  lemma InitInv(s: State)
    requires Init(s)
    ensures Inv(s)
  {
  }

  lemma TlbFillInv(s: State, sl: Slot)
    requires Inv(s) && Enabled(s, TlbFill(sl))
    ensures Inv(Do(s, TlbFill(sl)))
  {
  }

  lemma TlbEvictInv(s: State, sl: Slot, f: Frame)
    requires Inv(s) && Enabled(s, TlbEvict(sl, f))
    ensures Inv(Do(s, TlbEvict(sl, f)))
  {
  }

  lemma WriteInv(s: State, sl: Slot, f: Frame, v: int)
    requires Inv(s) && Enabled(s, Write(sl, f, v))
    ensures Inv(Do(s, Write(sl, f, v)))
  {
  }

  lemma LinkAliasInv(s: State, alias: nat)
    requires Inv(s) && Enabled(s, LinkAlias(alias))
    ensures Inv(Do(s, LinkAlias(alias)))
  {
  }

  lemma UnmapInv(s: State, sl: Slot)
    requires Inv(s) && Enabled(s, Unmap(sl))
    ensures Inv(Do(s, Unmap(sl)))
  {
    var s' := Do(s, Unmap(sl));
    assert forall x :: PteAt(s'.ptes, x) == if x == sl then PteAt(s'.ptes, sl) else PteAt(s.ptes, x);
  }

  lemma FaultReadInv(s: State, sl: Slot)
    requires Inv(s) && Enabled(s, FaultRead(sl))
    ensures Inv(Do(s, FaultRead(sl)))
  {
    var s' := Do(s, FaultRead(sl));
    assert forall x :: FaultAt(s'.faults, x) == if x == sl then FaultAt(s'.faults, sl) else FaultAt(s.faults, x);
  }

  lemma FaultCheckInv(s: State, sl: Slot)
    requires Inv(s) && Enabled(s, FaultCheck(sl)) && Guarded(s, FaultCheck(sl))
    ensures Inv(Do(s, FaultCheck(sl)))
  {
    var s' := Do(s, FaultCheck(sl));
    assert forall x :: FaultAt(s'.faults, x) == if x == sl then FaultAt(s'.faults, sl) else FaultAt(s.faults, x);
  }

  lemma FaultInstallInv(s: State, sl: Slot, bits: nat)
    requires Inv(s) && Enabled(s, FaultInstall(sl, bits))
    ensures Inv(Do(s, FaultInstall(sl, bits)))
  {
    var s' := Do(s, FaultInstall(sl, bits));
    assert forall x :: FaultAt(s'.faults, x) == if x == sl then FaultAt(s'.faults, sl) else FaultAt(s.faults, x);
    assert forall x :: PteAt(s'.ptes, x) == if x == sl then PteAt(s'.ptes, sl) else PteAt(s.ptes, x);
  }

  lemma FaultRetryInv(s: State, sl: Slot)
    requires Inv(s) && Enabled(s, FaultRetry(sl))
    ensures Inv(Do(s, FaultRetry(sl)))
  {
    var s' := Do(s, FaultRetry(sl));
    assert forall x :: FaultAt(s'.faults, x) == if x == sl then FaultAt(s'.faults, sl) else FaultAt(s.faults, x);
  }

  lemma ClaimInv(s: State)
    requires Inv(s) && Enabled(s, Claim)
    ensures Inv(Do(s, Claim))
  {
  }

  lemma SnapshotInv(s: State)
    requires Inv(s) && Enabled(s, Snapshot)
    ensures Inv(Do(s, Snapshot))
  {
  }

  /** Present mappings of one unlocked alias become migration entries. */
  ghost predicate Converts(s: State, some: set<Slot>, alias: nat, s': State)
    requires forall sl :: sl in some ==> sl in s.ptes
  {
    && s.worker.Preparing? && (s'.worker.Preparing? || s'.worker.Restoring?)
    && s' == Converted(s, some, s'.worker)
    && !Locked(s, alias)
    && (forall sl :: sl in some ==> sl.alias == alias && s.ptes[sl].Present?)
  }

  lemma ConvertedPtes(s: State, some: set<Slot>, alias: nat, s': State)
    requires (forall sl :: sl in some ==> sl in s.ptes) && Converts(s, some, alias, s')
    ensures forall x :: PteAt(s'.ptes, x) == if x in some then Migration else PteAt(s.ptes, x)
    ensures s'.saved.Keys == s.saved.Keys + some && s'.touched.Keys == s.touched.Keys + some
    ensures forall x :: x in some ==> s'.saved[x] == s.ptes[x] && s'.touched[x] == s.ptes[x]
    ensures forall x :: x in s.saved && x !in some ==> s'.saved[x] == s.saved[x]
    ensures forall x :: x in s.touched && x !in some ==> s'.touched[x] == s.touched[x]
    ensures s'.faults == s.faults && s'.tlb == s.tlb && s'.pmo == s.pmo && s'.mem == s.mem && s'.last == s.last
    ensures s'.page == s.page && s'.phase == s.phase && s'.use == s.use && s'.freeReq == s.freeReq && s'.linked == s.linked
  {
  }

  lemma ConvertFaults(s: State, some: set<Slot>, alias: nat, s': State)
    requires (forall sl :: sl in some ==> sl in s.ptes) && Converts(s, some, alias, s') && FaultsOk(s)
    ensures FaultsOk(s')
  {
    ConvertedPtes(s, some, alias, s');
    forall sl | FaultAt(s.faults, sl).Checked? ensures sl !in some { }
  }

  lemma ConvertEntries(s: State, some: set<Slot>, alias: nat, s': State)
    requires (forall sl :: sl in some ==> sl in s.ptes) && Converts(s, some, alias, s')
    requires EntriesSaved(s) && Safe(s) && Stage(s)
    ensures EntriesSaved(s') && Stage(s')
  {
    ConvertedPtes(s, some, alias, s');
    forall x | x in some ensures s.ptes[x].frame.Cxl? { assert PteAt(s.ptes, x).Present?; }
  }

  lemma ConvertTlb(s: State, some: set<Slot>, alias: nat, s': State)
    requires (forall sl :: sl in some ==> sl in s.ptes) && Converts(s, some, alias, s') && Safe(s) && TlbBacked(s)
    ensures Safe(s') && TlbBacked(s')
  {
    ConvertedPtes(s, some, alias, s');
  }

  lemma ConvertTouched(s: State, some: set<Slot>, alias: nat, s': State)
    requires (forall sl :: sl in some ==> sl in s.ptes) && Converts(s, some, alias, s') && TouchedOk(s)
    ensures TouchedOk(s')
  {
    ConvertedPtes(s, some, alias, s');
  }

  lemma ConvertInv(s: State, some: set<Slot>, alias: nat, s': State)
    requires Inv(s) && (forall sl :: sl in some ==> sl in s.ptes) && Converts(s, some, alias, s') && Captured(s')
    ensures Inv(s')
  {
    ConvertFaults(s, some, alias, s');
    ConvertEntries(s, some, alias, s');
    ConvertTlb(s, some, alias, s');
    ConvertTouched(s, some, alias, s');
  }

  lemma PrepareAliasInv(s: State, alias: nat)
    requires Inv(s) && Enabled(s, PrepareAlias(alias))
    ensures Inv(Do(s, PrepareAlias(alias)))
  {
    var s' := Do(s, PrepareAlias(alias));
    ConvertedPtes(s, Mapped(s, alias), alias, s');
    forall sl | PteAt(s'.ptes, sl).Present? || FaultAt(s'.faults, sl).Checked?
      ensures sl.alias in s'.worker.snap && sl.alias !in s'.worker.done
    {
      assert sl.alias == alias && PteAt(s.ptes, sl).Present? ==> sl in Mapped(s, alias);
    }
    ConvertInv(s, Mapped(s, alias), alias, s');
  }

  lemma PrepareFailInv(s: State, alias: nat, some: set<Slot>)
    requires Inv(s) && Enabled(s, PrepareFail(alias, some))
    ensures Inv(Do(s, PrepareFail(alias, some)))
  {
    ConvertInv(s, some, alias, Do(s, PrepareFail(alias, some)));
  }

  lemma PrepareDoneInv(s: State)
    requires Inv(s) && Enabled(s, PrepareDone)
    ensures Inv(Do(s, PrepareDone))
  {
  }

  lemma FlushInv(s: State, mid: nat)
    requires Inv(s) && Enabled(s, FlushMachine(mid))
    ensures Inv(Do(s, FlushMachine(mid)))
  {
  }

  lemma FailInv(s: State)
    requires Inv(s) && Enabled(s, Fail)
    ensures Inv(Do(s, Fail))
  {
  }

  lemma MarkFlushedInv(s: State)
    requires Inv(s) && Enabled(s, MarkFlushed)
    ensures Inv(Do(s, MarkFlushed))
  {
  }

  lemma CopyInv(s: State)
    requires Inv(s) && Enabled(s, Copy)
    ensures Inv(Do(s, Copy))
  {
  }

  lemma FinishCommitInv(s: State)
    requires Inv(s) && Enabled(s, FinishCommit)
    ensures Inv(Do(s, FinishCommit))
  {
  }

  lemma FinishPteInv(s: State, sl: Slot)
    requires Inv(s) && Enabled(s, FinishPte(sl))
    ensures Inv(Do(s, FinishPte(sl)))
  {
    var s' := Do(s, FinishPte(sl));
    assert forall x :: PteAt(s'.ptes, x) == if x == sl then PteAt(s'.ptes, sl) else PteAt(s.ptes, x);
  }

  lemma FinishFreedInv(s: State)
    requires Inv(s) && Enabled(s, FinishState) && s.worker.free
    ensures Inv(Do(s, FinishState))
  {
    assert s.tlb == {};
  }

  lemma FinishKeptInv(s: State)
    requires Inv(s) && Enabled(s, FinishState) && !s.worker.free
    ensures Inv(Do(s, FinishState))
  {
  }

  lemma FinishStateInv(s: State)
    requires Inv(s) && Enabled(s, FinishState)
    ensures Inv(Do(s, FinishState))
  {
    if s.worker.free { FinishFreedInv(s); } else { FinishKeptInv(s); }
  }

  lemma BuddyFreeInv(s: State)
    requires Inv(s) && Enabled(s, BuddyFree)
    ensures Inv(Do(s, BuddyFree))
  {
  }

  lemma RestorePteInv(s: State, sl: Slot)
    requires Inv(s) && Enabled(s, RestorePte(sl))
    ensures Inv(Do(s, RestorePte(sl)))
  {
    var s' := Do(s, RestorePte(sl));
    assert forall x :: PteAt(s'.ptes, x) == if x == sl then PteAt(s'.ptes, sl) else PteAt(s.ptes, x);
  }

  lemma ReleaseInv(s: State)
    requires Inv(s) && Enabled(s, Release)
    ensures Inv(Do(s, Release))
  {
  }

  lemma FreeRequestInv(s: State)
    requires Inv(s) && Enabled(s, FreeRequest)
    ensures Inv(Do(s, FreeRequest))
  {
  }

  lemma ReuseInv(s: State, v: int)
    requires Inv(s) && Enabled(s, Reuse(v))
    ensures Inv(Do(s, Reuse(v)))
  {
  }

}
