/**
  What demotion guarantees in every run, and the one fault interleaving it does not survive.
 */
module DemotionTheorems {
  import opened Demotion
  import opened DemotionProof
  import opened Lifecycle

  ghost predicate Reaches(s: State, acts: seq<Action>, t: State)
    decreases |acts|
  {
    if acts == [] then s == t
    else Enabled(s, acts[0]) && Reaches(Do(s, acts[0]), acts[1..], t)
  }

  /** A run in which no fault tests a frame that stopped being tracked after the fault read it. */
  ghost predicate GuardedRun(s: State, acts: seq<Action>, t: State)
    decreases |acts|
  {
    if acts == [] then s == t
    else Enabled(s, acts[0]) && Guarded(s, acts[0]) && GuardedRun(Do(s, acts[0]), acts[1..], t)
  }

  /** Steps of programs, faults and other threads. */
  ghost predicate Outside(a: Action) {
    || a.TlbFill? || a.TlbEvict? || a.Write? || a.LinkAlias? || a.Unmap? || a.FreeRequest? || a.Reuse?
    || a.FaultRead? || a.FaultCheck? || a.FaultInstall? || a.FaultRetry?
  }

  lemma OutsideInv(s: State, a: Action)
    requires Inv(s) && Enabled(s, a) && Guarded(s, a) && Outside(a)
    ensures Inv(Do(s, a))
  {
    match a
    case TlbFill(sl) => TlbFillInv(s, sl);
    case TlbEvict(sl, f) => TlbEvictInv(s, sl, f);
    case Write(sl, f, v) => WriteInv(s, sl, f, v);
    case LinkAlias(alias) => LinkAliasInv(s, alias);
    case Unmap(sl) => UnmapInv(s, sl);
    case FaultRead(sl) => FaultReadInv(s, sl);
    case FaultCheck(sl) => FaultCheckInv(s, sl);
    case FaultInstall(sl, bits) => FaultInstallInv(s, sl, bits);
    case FaultRetry(sl) => FaultRetryInv(s, sl);
    case FreeRequest => FreeRequestInv(s);
    case Reuse(v) => ReuseInv(s, v);
  }

  /** Steps of the demoter up to the copy. */
  ghost predicate Early(a: Action) {
    || a.Claim? || a.Snapshot? || a.PrepareAlias? || a.PrepareFail? || a.PrepareDone? || a.FlushMachine? || a.MarkFlushed? || a.Copy?
  }

  lemma EarlyInv(s: State, a: Action)
    requires Inv(s) && Enabled(s, a) && Early(a)
    ensures Inv(Do(s, a))
  {
    match a
    case Claim => ClaimInv(s);
    case Snapshot => SnapshotInv(s);
    case PrepareAlias(alias) => PrepareAliasInv(s, alias);
    case PrepareFail(alias, some) => PrepareFailInv(s, alias, some);
    case PrepareDone => PrepareDoneInv(s);
    case FlushMachine(mid) => FlushInv(s, mid);
    case MarkFlushed => MarkFlushedInv(s);
    case Copy => CopyInv(s);
  }

  /** Steps that finish or restore. */
  lemma LateInv(s: State, a: Action)
    requires Inv(s) && Enabled(s, a) && !Outside(a) && !Early(a)
    ensures Inv(Do(s, a))
  {
    match a
    case Fail => FailInv(s);
    case FinishCommit => FinishCommitInv(s);
    case FinishPte(sl) => FinishPteInv(s, sl);
    case FinishState => FinishStateInv(s);
    case BuddyFree => BuddyFreeInv(s);
    case RestorePte(sl) => RestorePteInv(s, sl);
    case Release => ReleaseInv(s);
  }

  lemma StepInv(s: State, a: Action)
    requires Inv(s) && Enabled(s, a) && Guarded(s, a)
    ensures Inv(Do(s, a))
  {
    if Outside(a) { OutsideInv(s, a); } else if Early(a) { EarlyInv(s, a); } else { LateInv(s, a); }
  }

  lemma {:induction false} RunInv(s: State, acts: seq<Action>, t: State)
    requires Inv(s) && GuardedRun(s, acts, t)
    ensures Inv(t)
    decreases |acts|
  {
    if acts != [] {
      StepInv(s, acts[0]);
      RunInv(Do(s, acts[0]), acts[1..], t);
    }
  }

  /** The frame is named by a page table, a TLB or the PMO of some machine. */
  ghost predicate Named(s: State, f: Frame) {
    || s.pmo == Names(f)
    || (exists sl :: PteAt(s.ptes, sl).Present? && PteAt(s.ptes, sl).frame == f)
    || (exists sl :: (sl, f) in s.tlb)
  }

  /** Reads through any cached translation return the last write, whatever the interleaving;
      a completed demotion leaves the PMO naming a DRAM frame with that value. */
  lemma {:induction false} DemotionLosesNoWrite(s0: State, acts: seq<Action>, s: State)
    requires Init(s0) && GuardedRun(s0, acts, s)
    ensures forall e :: e in s.tlb ==> e.1 in s.mem && s.mem[e.1] == s.last
    ensures s.page.None? ==> s.pmo == Names(Dram) && Dram in s.mem && s.mem[Dram] == s.last
    ensures s.page.Resident? || s.page.Demoting? ==> s.pmo.Names? && s.pmo.frame in s.mem && s.mem[s.pmo.frame] == s.last
  {
    InitInv(s0);
    RunInv(s0, acts, s);
  }

  /** A frame handed back by a demotion is named by nobody, and no fault is about to install it. */
  lemma {:induction false} ReturnedFrameIsUnnamed(s0: State, acts: seq<Action>, s: State)
    requires Init(s0) && GuardedRun(s0, acts, s) && !s.use.Owned?
    ensures !Named(s, Cxl)
    ensures forall sl :: FaultAt(s.faults, sl) != Checked(Cxl)
  {
    InitInv(s0);
    RunInv(s0, acts, s);
  }

  /** From PREPARED until finish or restore begins, every mapping is a saved migration entry. */
  lemma {:induction false} PreparedMeansUnmapped(s0: State, acts: seq<Action>, s: State)
    requires Init(s0) && GuardedRun(s0, acts, s) && (s.worker.Flushing? || s.worker.Copying? || s.worker.Copied?)
    ensures s.page.Demoting? && (s.phase.Prepared? || s.phase.Flushed?)
    ensures forall sl :: PteAt(s.ptes, sl).Absent? || (PteAt(s.ptes, sl).Migration? && sl in s.saved && s.saved[sl].Present? && s.saved[sl].frame.Cxl?)
    ensures forall e :: e in s.tlb ==> e.0 in s.saved && s.worker.Flushing? && e.0.mid !in s.worker.flushed
  {
    InitInv(s0);
    RunInv(s0, acts, s);
    assert forall e :: e in s.tlb ==> PteAt(s.ptes, e.0).Migration?;
  }

  /** A failed attempt ends with every PTE it touched at its old value, the PMO entry as it was, and
      the page resident and idle again, or pending free if a free arrived meanwhile. */
  lemma {:induction false} FailedDemotionChangesNothing(s0: State, acts: seq<Action>, s: State)
    requires Init(s0) && GuardedRun(s0, acts, s) && Enabled(s, Release)
    ensures
      var s' := Do(s, Release);
      && (forall sl :: sl in s.touched ==> PteAt(s'.ptes, sl) == s.touched[sl] && s.touched[sl].Present?)
      && (forall sl :: !PteAt(s'.ptes, sl).Migration?)
      && s'.pmo == Names(Cxl) && s'.phase.Idle? && s'.mem == s.mem
      && s'.page == (if s.freeReq then FreePending else Resident)
  {
    InitInv(s0);
    RunInv(s0, acts, s);
  }

  // ---------------------------------------------------------------- the stale fault

  /** The test lets a frame through that the PMO no longer names exactly when that frame is the CXL
      frame, still allocated, and already untracked. */
  lemma TestPassesStaleIff(s: State, sl: Slot)
    requires Inv(s) && FaultAt(s.faults, sl).Read?
    ensures
      !InTransition(s, FaultFrame(s, sl)) && s.pmo != Names(FaultFrame(s, sl))
      <==> FaultFrame(s, sl).Cxl? && s.page.None? && !s.use.Returned?
  {
  }

  /** Letting the fault go on ends safely if and only if the frame it tests is not the CXL frame of a
      page whose tracking has ended. */
  lemma FaultSafeIffGuarded(s: State, sl: Slot, bits: nat)
    requires Inv(s) && Enabled(s, FaultCheck(sl))
    ensures Enabled(Do(s, FaultCheck(sl)), FaultInstall(sl, bits))
    ensures Safe(Do(Do(s, FaultCheck(sl)), FaultInstall(sl, bits))) <==> Guarded(s, FaultCheck(sl))
  {
    var s1 := Do(s, FaultCheck(sl));
    var s2 := Do(s1, FaultInstall(sl, bits));
    if Guarded(s, FaultCheck(sl)) {
      FaultCheckInv(s, sl);
      FaultInstallInv(s1, sl, bits);
    } else {
      assert PteAt(s2.ptes, sl) == Present(Cxl, bits);
    }
  }

  /** Re-reading the PMO under the page-table lock closes the window. */
  lemma ReadUnderLockIsGuarded(s: State, sl: Slot)
    requires Inv(s) && Enabled(s, FaultRead(sl))
    ensures Guarded(Do(s, FaultRead(sl)), FaultCheck(sl))
  {
    var s1 := Do(s, FaultRead(sl));
    assert PteAt(s1.ptes, sl).Present? ==> s.pmo == Names(PteAt(s.ptes, sl).frame);
  }

  lemma {:induction false} Extend(s0: State, acts: seq<Action>, s: State, a: Action)
    requires Reaches(s0, acts, s) && Enabled(s, a)
    ensures Reaches(s0, acts + [a], Do(s, a))
    decreases |acts|
  {
    if acts == [] {
      assert [a][1..] == [];
      assert Reaches(Do(s, a), [], Do(s, a));
      assert [] + [a] == [a];
    } else {
      Extend(Do(s0, acts[0]), acts[1..], s, a);
      assert (acts + [a])[0] == acts[0] && (acts + [a])[1..] == acts[1..] + [a];
    }
  }

  ghost predicate Reachable(s0: State, s: State) {
    exists acts :: Reaches(s0, acts, s)
  }

  lemma Then(s0: State, s: State, a: Action)
    requires Reachable(s0, s) && Enabled(s, a)
    ensures Reachable(s0, Do(s, a))
  {
    var acts :| Reaches(s0, acts, s);
    Extend(s0, acts, s, a);
  }

  function Fresh(): State {
    State(0, {0}, Names(Cxl), Resident, Idle, false, Owned, map[], {}, map[], Resting, map[], map[], map[Cxl := 7], 7, {})
  }

  /** Machine 1 reads the PMO; then the demoter claims the page and snapshots its aliases. */
  lemma ClaimedUnderFault() returns (s: State)
    ensures Reachable(Fresh(), s)
    ensures s == Fresh().(page := Demoting, phase := Selected, worker := Preparing({0}, {}), faults := map[Slot(0, 1) := Read(Cxl)])
  {
    s := Fresh();
    assert Reaches(s, [], s);
    Then(Fresh(), s, FaultRead(Slot(0, 1)));
    s := Do(s, FaultRead(Slot(0, 1)));
    Then(Fresh(), s, Claim);
    s := Do(s, Claim);
    Then(Fresh(), s, Snapshot);
    s := Do(s, Snapshot);
  }

  /** The page is mapped nowhere, so there is nothing to save. */
  lemma PreparedUnderFault() returns (s: State)
    ensures Reachable(Fresh(), s)
    ensures s == Fresh().(page := Demoting, phase := Selected, worker := Preparing({0}, {0}), faults := map[Slot(0, 1) := Read(Cxl)])
  {
    var r := ClaimedUnderFault();
    assert Mapped(r, 0) == {};
    assert !Locked(r, 0);
    Then(Fresh(), r, PrepareAlias(0));
    s := Do(r, PrepareAlias(0));
    assert s.ptes == map[] && s.saved == map[] && s.touched == map[];
    assert s.worker.done == {0};
  }

  /** With nothing saved, the demotion runs from the preparation to the copy. */
  lemma RunToCopied(r: State) returns (s: State)
    requires Reachable(Fresh(), r) && r.worker == Preparing({0}, {0}) && r.saved == map[]
    ensures Reachable(Fresh(), s) && s == r.(phase := Flushed, worker := Copied, mem := s.mem)
  {
    s := r;
    Then(Fresh(), s, PrepareDone);
    s := Do(s, PrepareDone);
    Then(Fresh(), s, MarkFlushed);
    s := Do(s, MarkFlushed);
    Then(Fresh(), s, Copy);
    s := Do(s, Copy);
  }

  /** Only the frame is left to give back. */
  lemma DemotedUnderFault() returns (s: State)
    ensures Reachable(Fresh(), s)
    ensures s.page.None? && s.use.Owned? && s.worker.ToFree? && s.ptes == map[] && s.faults == map[Slot(0, 1) := Read(Cxl)]
  {
    s := PreparedUnderFault();
    s := RunToCopied(s);
    Then(Fresh(), s, FinishCommit);
    s := Do(s, FinishCommit);
    Then(Fresh(), s, FinishState);
    s := Do(s, FinishState);
  }

  /** The fault now passes the test. */
  lemma CheckedUnderFault() returns (s: State)
    ensures Reachable(Fresh(), s)
    ensures s.use.Owned? && s.worker.ToFree? && FaultAt(s.faults, Slot(0, 1)) == Checked(Cxl)
  {
    var r := DemotedUnderFault();
    Then(Fresh(), r, FaultCheck(Slot(0, 1)));
    s := Do(r, FaultCheck(Slot(0, 1)));
  }

  /** The window is reachable: a page table ends up naming a frame the allocator has taken back. */
  lemma StaleFaultMapsReturnedFrame()
    ensures Init(Fresh())
    ensures exists s :: Reachable(Fresh(), s) && s.use.Returned? && Named(s, Cxl)
  {
    var s := CheckedUnderFault();
    var sl := Slot(0, 1);
    Then(Fresh(), s, BuddyFree);
    s := Do(s, BuddyFree);
    Then(Fresh(), s, FaultInstall(sl, 0));
    s := Do(s, FaultInstall(sl, 0));
    assert PteAt(s.ptes, sl) == Present(Cxl, 0);
  }
}
