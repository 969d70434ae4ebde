/**
  What a finished demotion leaves in the page tables, and that ordinary faults go through.
 */
module DemotionFinish {
  import opened Demotion
  import opened DemotionProof
  import opened DemotionTheorems
  import opened Lifecycle

  /** The owner's private frame is mapped, cached and about to be installed on the owner only. */
  ghost predicate OnOwner(s: State) {
    && (forall sl :: PteAt(s.ptes, sl).Present? && PteAt(s.ptes, sl).frame.Dram? ==> sl.mid == s.owner)
    && (forall e :: e in s.tlb && e.1.Dram? ==> e.0.mid == s.owner)
    && (forall sl :: FaultAt(s.faults, sl) == Checked(Dram) ==> sl.mid == s.owner)
  }

  /** The old mapping sl after the demotion: moved to DRAM with its old bits on the owner, gone everywhere else. */
  ghost predicate Moved(s: State, free: bool, sl: Slot, old_: Pte)
    requires old_.Present?
  {
    if free || sl.mid != s.owner then PteAt(s.ptes, sl).Absent?
    else if sl in s.refaulted then PteAt(s.ptes, sl).Present? && PteAt(s.ptes, sl).frame.Dram?
    else PteAt(s.ptes, sl) == Present(Dram, old_.bits)
  }

  ghost predicate MovedSoFar(s: State) {
    s.worker.Finishing? ==>
      && s.saved == s.touched && s.refaulted !! s.worker.left
      && forall sl :: sl in s.saved && sl !in s.worker.left ==> s.saved[sl].Present? && Moved(s, s.worker.free, sl, s.saved[sl])
  }

  lemma OutsideOnOwner(s: State, a: Action)
    requires OnOwner(s) && Enabled(s, a) && Outside(a)
    ensures OnOwner(Do(s, a))
  {
  }

  lemma PteOnOwner(s: State, sl: Slot)
    requires OnOwner(s) && EntriesSaved(s)
    ensures Enabled(s, FinishPte(sl)) ==> OnOwner(Do(s, FinishPte(sl)))
    ensures Enabled(s, RestorePte(sl)) ==> OnOwner(Do(s, RestorePte(sl)))
  {
  }

  lemma ConvertOnOwner(s: State, some: set<Slot>, w: Worker)
    requires OnOwner(s) && forall sl :: sl in some ==> sl in s.ptes
    ensures OnOwner(Converted(s, some, w))
  {
  }

  /** The other steps of the demoter add no translation. */
  lemma WorkerFrame(s: State, a: Action)
    requires Enabled(s, a) && !Outside(a) && !a.FinishPte? && !a.RestorePte? && !a.PrepareAlias? && !a.PrepareFail?
    ensures Do(s, a).ptes == s.ptes && Do(s, a).tlb <= s.tlb && Do(s, a).faults == s.faults && Do(s, a).owner == s.owner
  {
  }

  lemma WorkerOnOwner(s: State, a: Action)
    requires OnOwner(s) && Enabled(s, a) && !Outside(a) && !a.FinishPte? && !a.RestorePte?
    ensures OnOwner(Do(s, a))
  {
    match a
    case PrepareAlias(alias) => ConvertOnOwner(s, Mapped(s, alias), Do(s, a).worker);
    case PrepareFail(alias, some) => ConvertOnOwner(s, some, Do(s, a).worker);
    case _ => WorkerFrame(s, a);
  }

  lemma StepOnOwner(s: State, a: Action)
    requires Inv(s) && OnOwner(s) && Enabled(s, a)
    ensures OnOwner(Do(s, a))
  {
    if Outside(a) {
      OutsideOnOwner(s, a);
    } else if a.FinishPte? || a.RestorePte? {
      PteOnOwner(s, a.sl);
    } else {
      WorkerOnOwner(s, a);
    }
  }

  lemma CommitMoved(s: State)
    requires Captured(s) && TouchedOk(s) && Enabled(s, FinishCommit)
    ensures MovedSoFar(Do(s, FinishCommit))
  {
    assert s.saved.Keys == s.touched.Keys;
  }

  lemma PteMoved(s: State, sl: Slot)
    requires EntriesSaved(s) && MovedSoFar(s) && Enabled(s, FinishPte(sl))
    ensures MovedSoFar(Do(s, FinishPte(sl)))
  {
  }

  /** Faults that install meanwhile are on the owner, and not on a mapping still to be rewritten. */
  lemma InstallMoved(s: State, sl: Slot, bits: nat)
    requires Stage(s) && EntriesSaved(s) && FaultsOk(s) && OnOwner(s) && MovedSoFar(s) && Enabled(s, FaultInstall(sl, bits))
    ensures MovedSoFar(Do(s, FaultInstall(sl, bits)))
  {
  }

  lemma OtherFrame(s: State, a: Action)
    requires Enabled(s, a) && !a.FinishCommit? && !a.FinishPte? && !a.FaultInstall?
    ensures Do(s, a).worker.Finishing? ==>
              && s.worker == Do(s, a).worker && s.ptes == Do(s, a).ptes && s.owner == Do(s, a).owner
              && s.saved == Do(s, a).saved && s.touched == Do(s, a).touched && s.refaulted == Do(s, a).refaulted
  {
  }

  lemma OtherMoved(s: State, a: Action)
    requires MovedSoFar(s) && Enabled(s, a) && !a.FinishCommit? && !a.FinishPte? && !a.FaultInstall?
    ensures MovedSoFar(Do(s, a))
  {
    OtherFrame(s, a);
  }

  lemma StepMoved(s: State, a: Action)
    requires Inv(s) && OnOwner(s) && MovedSoFar(s) && Enabled(s, a)
    ensures MovedSoFar(Do(s, a))
  {
    match a
    case FinishCommit => CommitMoved(s);
    case FinishPte(sl) => PteMoved(s, sl);
    case FaultInstall(sl, bits) => InstallMoved(s, sl, bits);
    case _ => OtherMoved(s, a);
  }

  lemma {:induction false} RunMoved(s: State, acts: seq<Action>, t: State)
    requires Inv(s) && OnOwner(s) && MovedSoFar(s) && GuardedRun(s, acts, t)
    ensures Inv(t) && OnOwner(t) && MovedSoFar(t)
    decreases |acts|
  {
    if acts != [] {
      StepInv(s, acts[0]);
      StepOnOwner(s, acts[0]);
      StepMoved(s, acts[0]);
      RunMoved(Do(s, acts[0]), acts[1..], t);
    }
  }

  /** In every guarded run only the owner's page tables and TLBs ever name the DRAM frame. */
  lemma {:induction false} DramOnOwnerOnly(s0: State, acts: seq<Action>, s: State)
    requires Init(s0) && GuardedRun(s0, acts, s)
    ensures forall sl :: PteAt(s.ptes, sl).Present? && PteAt(s.ptes, sl).frame.Dram? ==> sl.mid == s.owner
    ensures forall e :: e in s.tlb && e.1.Dram? ==> e.0.mid == s.owner
  {
    InitInv(s0);
    RunMoved(s0, acts, s);
  }

  /** When a demotion is done with the page tables: with no free request every mapping of the owner names DRAM with the
      bits it had, save where a fault has set new ones since, and every other mapping is gone; with one, all are gone. */
  lemma {:induction false} FinishedMappings(s0: State, acts: seq<Action>, s: State)
    requires Init(s0) && GuardedRun(s0, acts, s) && Enabled(s, FinishState)
    ensures forall sl :: sl in s.touched ==> s.touched[sl].Present? && Moved(Do(s, FinishState), s.worker.free, sl, s.touched[sl])
    ensures forall sl :: PteAt(s.ptes, sl).Present? ==> sl.mid == s.owner && PteAt(s.ptes, sl).frame.Dram?
  {
    InitInv(s0);
    RunMoved(s0, acts, s);
  }

  // ---------------------------------------------------------------- faults that go through

  /** The test holds back a frame that the PMO names exactly when it is the CXL frame of a page on its way out. */
  lemma TestBlocksNamedIff(s: State, f: Frame)
    requires Inv(s) && s.pmo == Names(f)
    ensures InTransition(s, f) <==> f.Cxl? && !s.page.Resident?
  {
  }

  /** While nothing is on its way out, a fault that finds the lock free installs the frame the PMO names. */
  lemma OrdinaryFault(s: State, sl: Slot, bits: nat)
    requires Inv(s) && Enabled(s, FaultRead(sl)) && !Locked(s, sl.alias)
    requires s.page.Resident? || (s.page.None? && sl.mid == s.owner)
    ensures
      var s1 := Do(s, FaultRead(sl));
      && Enabled(s1, FaultCheck(sl)) && Guarded(s1, FaultCheck(sl))
      && var s2 := Do(s1, FaultCheck(sl));
      && Enabled(s2, FaultInstall(sl, bits))
      && Do(s2, FaultInstall(sl, bits)).ptes == s.ptes[sl := Present(s.pmo.frame, bits)]
  {
    var s1 := Do(s, FaultRead(sl));
    assert PteAt(s1.ptes, sl).Present? ==> s.pmo == Names(PteAt(s.ptes, sl).frame);
    forall x | x in s1.faults && x.alias == sl.alias ensures !s1.faults[x].Checked? { }
    TestBlocksNamedIff(s, s.pmo.frame);
  }

  // ---------------------------------------------------------------- a demotion left alone

  ghost predicate Alone(s: State, t: State) {
    exists acts: seq<Action> :: GuardedRun(s, acts, t) && Quiet(acts)
  }

  ghost predicate Quiet(acts: seq<Action>) { forall i :: 0 <= i < |acts| ==> !Outside(acts[i]) }

  lemma AloneHere(s: State)
    ensures Alone(s, s)
  {
    assert GuardedRun(s, [], s) && Quiet([]);
  }

  /** One step of the demoter first. */
  lemma AloneFirst(s: State, a: Action, t: State)
    requires Enabled(s, a) && !Outside(a) && Alone(Do(s, a), t)
    ensures Alone(s, t)
  {
    var acts :| GuardedRun(Do(s, a), acts, t) && Quiet(acts);
    var more := [a] + acts;
    assert more[0] == a && more[1..] == acts;
    assert GuardedRun(s, more, t) && Quiet(more);
  }

  /** Nobody faults on the page and nobody wants it freed. */
  ghost predicate Undisturbed(s: State) {
    Inv(s) && OnOwner(s) && MovedSoFar(s) && !s.freeReq && forall x :: x in s.faults ==> s.faults[x].NoFault?
  }

  lemma StaysUndisturbed(s: State, a: Action)
    requires Undisturbed(s) && Enabled(s, a) && !Outside(a)
    ensures Undisturbed(Do(s, a)) && Do(s, a).owner == s.owner && Do(s, a).last == s.last
  {
    StepInv(s, a);
    StepOnOwner(s, a);
    StepMoved(s, a);
  }

  /** Every PTE is Absent, or converted by the present attempt. */
  ghost predicate AllTouched(s: State) {
    forall sl :: sl !in s.touched ==> PteAt(s.ptes, sl).Absent?
  }

  /** The page is in DRAM, its CXL frame returned; old mappings of the owner are kept, all others gone. */
  ghost predicate Demoted(t: State, owner: nat, last: int, olds: map<Slot, Pte>) {
    && t.worker.Done? && t.page.None? && t.use.Returned? && t.pmo == Names(Dram) && Dram in t.mem && t.mem[Dram] == last
    && forall sl :: PteAt(t.ptes, sl) ==
                    if sl in olds && olds[sl].Present? && sl.mid == owner then Present(Dram, olds[sl].bits) else Absent
  }

  lemma EndAlone(s: State) returns (t: State)
    requires Undisturbed(s) && AllTouched(s) && s.worker == Finishing(false, {}) && s.refaulted == {}
    ensures Alone(s, t) && Demoted(t, s.owner, s.last, s.touched)
  {
    var s1 := Do(s, FinishState);
    t := Do(s1, BuddyFree);
    AloneHere(t);
    AloneFirst(s1, BuddyFree, t);
    AloneFirst(s, FinishState, t);
  }

  lemma {:induction false} FinishPtesAlone(s: State) returns (t: State)
    requires Undisturbed(s) && AllTouched(s) && s.worker.Finishing? && !s.worker.free && s.refaulted == {}
    ensures Alone(s, t) && Demoted(t, s.owner, s.last, s.touched)
    decreases s.worker.left
  {
    if s.worker.left == {} {
      t := EndAlone(s);
    } else {
      var sl :| sl in s.worker.left;
      var s' := Do(s, FinishPte(sl));
      StaysUndisturbed(s, FinishPte(sl));
      t := FinishPtesAlone(s');
      AloneFirst(s, FinishPte(sl), t);
    }
  }

  lemma CopyAlone(s: State) returns (t: State)
    requires Undisturbed(s) && AllTouched(s) && s.worker.Copying?
    ensures Alone(s, t) && Demoted(t, s.owner, s.last, s.touched)
  {
    var s1 := Do(s, Copy);
    StaysUndisturbed(s, Copy);
    var s2 := Do(s1, FinishCommit);
    StaysUndisturbed(s1, FinishCommit);
    t := FinishPtesAlone(s2);
    AloneFirst(s1, FinishCommit, t);
    AloneFirst(s, Copy, t);
  }

  ghost function Unflushed(s: State): set<nat>
    requires s.worker.Flushing?
  {
    (set sl | sl in s.saved :: sl.mid) - s.worker.flushed
  }

  lemma FlushedAlone(s: State) returns (t: State)
    requires Undisturbed(s) && AllTouched(s) && s.worker.Flushing? && Unflushed(s) == {}
    ensures Alone(s, t) && Demoted(t, s.owner, s.last, s.touched)
  {
    forall sl | sl in s.saved ensures sl.mid in s.worker.flushed { assert sl.mid !in Unflushed(s); }
    StaysUndisturbed(s, MarkFlushed);
    t := CopyAlone(Do(s, MarkFlushed));
    AloneFirst(s, MarkFlushed, t);
  }

  lemma {:induction false} FlushAlone(s: State) returns (t: State)
    requires Undisturbed(s) && AllTouched(s) && s.worker.Flushing?
    ensures Alone(s, t) && Demoted(t, s.owner, s.last, s.touched)
    decreases Unflushed(s)
  {
    if Unflushed(s) == {} {
      t := FlushedAlone(s);
    } else {
      var mid :| mid in Unflushed(s);
      var s' := Do(s, FlushMachine(mid));
      StaysUndisturbed(s, FlushMachine(mid));
      assert Unflushed(s') == Unflushed(s) - {mid};
      t := FlushAlone(s');
      AloneFirst(s, FlushMachine(mid), t);
    }
  }

  /** Since s0 each PTE is as it was, or was converted and is remembered. */
  ghost predicate Since(s0: State, s: State) {
    && s.owner == s0.owner && s.last == s0.last
    && (forall sl :: sl in s.touched ==> PteAt(s0.ptes, sl) == s.touched[sl])
    && (forall sl :: sl !in s.touched ==> PteAt(s.ptes, sl) == PteAt(s0.ptes, sl))
    && (forall sl :: sl in s.touched ==> PteAt(s.ptes, sl).Migration?)
    && (forall sl :: !PteAt(s0.ptes, sl).Migration?)
  }

  lemma PreparedAlone(s0: State, s: State) returns (t: State)
    requires Undisturbed(s) && Since(s0, s) && s.worker.Preparing? && s.worker.done == s.worker.snap
    ensures Alone(s, t) && Demoted(t, s0.owner, s0.last, s0.ptes)
  {
    var s' := Do(s, PrepareDone);
    StaysUndisturbed(s, PrepareDone);
    t := FlushAlone(s');
    AloneFirst(s, PrepareDone, t);
  }

  lemma PrepareSince(s0: State, s: State, alias: nat)
    requires Inv(s) && Since(s0, s) && Enabled(s, PrepareAlias(alias))
    ensures Since(s0, Do(s, PrepareAlias(alias)))
  {
    ConvertedPtes(s, Mapped(s, alias), alias, Do(s, PrepareAlias(alias)));
  }

  lemma {:induction false} PrepareAlone(s0: State, s: State) returns (t: State)
    requires Undisturbed(s) && Since(s0, s) && s.worker.Preparing?
    ensures Alone(s, t) && Demoted(t, s0.owner, s0.last, s0.ptes)
    decreases s.worker.snap - s.worker.done
  {
    if s.worker.snap - s.worker.done == {} {
      forall x | x in s.worker.snap ensures x in s.worker.done { assert x !in s.worker.snap - s.worker.done; }
      t := PreparedAlone(s0, s);
    } else {
      var alias :| alias in s.worker.snap - s.worker.done;
      assert !Locked(s, alias);
      forall sl | sl in Mapped(s, alias) ensures s.ptes[sl].frame.Cxl? { assert PteAt(s.ptes, sl).Present?; }
      PrepareSince(s0, s, alias);
      StaysUndisturbed(s, PrepareAlias(alias));
      t := PrepareAlone(s0, Do(s, PrepareAlias(alias)));
      AloneFirst(s, PrepareAlias(alias), t);
    }
  }

  /** Left alone, a demotion succeeds: the page moves to DRAM with its last value, the owner's mappings follow with
      their bits, all others go, and the CXL frame returns to the allocator. */
  lemma DemotesAlone(s: State) returns (t: State)
    requires Undisturbed(s) && Enabled(s, Claim)
    ensures Alone(s, t) && Demoted(t, s.owner, s.last, s.ptes)
  {
    var s1 := Do(s, Claim);
    StaysUndisturbed(s, Claim);
    var s2 := Do(s1, Snapshot);
    StaysUndisturbed(s1, Snapshot);
    t := PrepareAlone(s, s2);
    AloneFirst(s1, Snapshot, t);
    AloneFirst(s, Claim, t);
  }

  // ---------------------------------------------------------------- writes and reads

  lemma {:induction false} LastStays(s: State, acts: seq<Action>, t: State)
    requires GuardedRun(s, acts, t) && forall i :: 0 <= i < |acts| ==> !acts[i].Write?
    ensures t.last == s.last
    decreases |acts|
  {
    if acts != [] {
      forall i | 0 <= i < |acts[1..]| ensures !acts[1..][i].Write? { assert acts[1..][i] == acts[i + 1]; }
      LastStays(Do(s, acts[0]), acts[1..], t);
    }
  }

  /** What a program writes through a cached translation is what every translation on every machine leads to until the
      next write, whatever demotions, failures and faults come in between. */
  lemma {:induction false} WriteIsSeen(s0: State, before: seq<Action>, s: State, sl: Slot, f: Frame, v: int, acts: seq<Action>, t: State)
    requires Init(s0) && GuardedRun(s0, before, s) && Enabled(s, Write(sl, f, v))
    requires GuardedRun(Do(s, Write(sl, f, v)), acts, t) && forall i :: 0 <= i < |acts| ==> !acts[i].Write?
    ensures forall e :: e in t.tlb ==> e.1 in t.mem && t.mem[e.1] == v
    ensures t.pmo.Names? ==> t.pmo.frame in t.mem && t.mem[t.pmo.frame] == v
  {
    InitInv(s0);
    RunInv(s0, before, s);
    StepInv(s, Write(sl, f, v));
    RunInv(Do(s, Write(sl, f, v)), acts, t);
    LastStays(Do(s, Write(sl, f, v)), acts, t);
  }

  /** A fault that went through lets its program read the last value. */
  lemma FaultThenRead(s: State, sl: Slot, bits: nat) returns (t: State)
    requires Inv(s) && Enabled(s, FaultRead(sl)) && !Locked(s, sl.alias)
    requires s.page.Resident? || (s.page.None? && sl.mid == s.owner)
    ensures GuardedRun(s, [FaultRead(sl), FaultCheck(sl), FaultInstall(sl, bits), TlbFill(sl)], t)
    ensures (sl, s.pmo.frame) in t.tlb && s.pmo.frame in t.mem && t.mem[s.pmo.frame] == s.last
  {
    OrdinaryFault(s, sl, bits);
    var s1 := Do(s, FaultRead(sl));
    var s2 := Do(s1, FaultCheck(sl));
    var s3 := Do(s2, FaultInstall(sl, bits));
    t := Do(s3, TlbFill(sl));
    var acts := [FaultRead(sl), FaultCheck(sl), FaultInstall(sl, bits), TlbFill(sl)];
    assert acts[1..][1..][1..][1..] == [];
    assert GuardedRun(t, [], t);
    assert acts[1..][1..][1..] == [TlbFill(sl)] && GuardedRun(s3, acts[1..][1..][1..], t);
    assert acts[1..][1..] == [FaultInstall(sl, bits), TlbFill(sl)] && GuardedRun(s2, acts[1..][1..], t);
    assert acts[1..] == [FaultCheck(sl), FaultInstall(sl, bits), TlbFill(sl)] && GuardedRun(s1, acts[1..], t);
  }

  /** A fault that was held back can be taken again, and a mapping made meanwhile can fault too. */
  lemma FaultAgain(s: State, sl: Slot, alias: nat, mid: nat)
    requires Inv(s) && s.pmo.Names? && !s.freeReq
    ensures Enabled(s, FaultRetry(sl)) ==> Enabled(Do(s, FaultRetry(sl)), FaultRead(sl))
    ensures Enabled(s, LinkAlias(alias)) ==> Enabled(Do(s, LinkAlias(alias)), FaultRead(Slot(alias, mid)))
  {
  }

}
