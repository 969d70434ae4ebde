/**
  A free that arrives while the page is being demoted is left to the demoter as a request.  The demoter reads
  the request once, when it commits the page to DRAM; these lemmas say which requests are honoured.
 */
module DemotionFree {
  import opened Demotion
  import opened DemotionProof
  import opened DemotionTheorems
  import opened Lifecycle

  /** The demoter has read that nobody wants the page freed, and is installing the DRAM frame. */
  predicate PastTheRead(w: Worker) { w.Finishing? && !w.free }

  /** The request is still to be seen, or the page is on the free path. */
  ghost predicate Kept(s: State) {
    || (s.freeReq && s.page.Demoting? && !PastTheRead(s.worker))
    || s.page.FreePending? || s.page.Freeing?
  }

  lemma StepKeeps(s: State, a: Action)
    requires Inv(s) && Kept(s) && Enabled(s, a)
    ensures Kept(Do(s, a))
  {
  }

  lemma {:induction false} RunKeeps(s: State, acts: seq<Action>, t: State)
    requires Inv(s) && Kept(s) && GuardedRun(s, acts, t)
    ensures Kept(t)
    decreases |acts|
  {
    if acts != [] {
      StepInv(s, acts[0]);
      StepKeeps(s, acts[0]);
      RunKeeps(Do(s, acts[0]), acts[1..], t);
    }
  }

  /** The demoter finishes by itself, whatever is left to do. */
  lemma {:induction false} FinishAlone(s: State) returns (acts: seq<Action>, t: State)
    requires PastTheRead(s.worker)
    ensures GuardedRun(s, acts, t) && t.page.None? && !t.freeReq && t.pmo == s.pmo
    decreases s.worker.left
  {
    if s.worker.left == {} {
      t := Do(s, FinishState);
      acts := [FinishState];
      assert acts[1..] == [];
      assert GuardedRun(t, [], t);
    } else {
      var sl :| sl in s.worker.left;
      var rest;
      rest, t := FinishAlone(Do(s, FinishPte(sl)));
      acts := [FinishPte(sl)] + rest;
      assert acts[1..] == rest;
    }
  }

  /** No continuation of s forgets the request, that is, ends with the page untracked. */
  ghost predicate NeverForgotten(s: State) {
    forall acts, t :: GuardedRun(s, acts, t) ==> !t.page.None?
  }

  /** A free request is honoured in every continuation if and only if it arrives before the demoter's read. */
  lemma RequestHonouredIff(s: State)
    requires Inv(s) && Enabled(s, FreeRequest)
    ensures NeverForgotten(Do(s, FreeRequest)) <==> !PastTheRead(s.worker)
  {
    var s' := Do(s, FreeRequest);
    FreeRequestInv(s);
    if PastTheRead(s.worker) {
      var acts, t := FinishAlone(s');
      assert GuardedRun(s', acts, t);
    } else {
      forall acts, t | GuardedRun(s', acts, t) ensures !t.page.None? { RunKeeps(s', acts, t); }
    }
  }

  /** What becomes of a request at the end: the page goes to the free path and out of the PMO, or stays named by it. */
  lemma RequestAtTheEnd(s: State)
    requires Inv(s) && Enabled(s, FinishState) && s.freeReq
    ensures
      var t := Do(s, FinishState);
      if PastTheRead(s.worker) then t.page.None? && !t.freeReq && t.pmo == Names(Dram)
      else t.page.Freeing? && t.pmo.Removed?
  {
  }

  /** A run in which a late request is forgotten: the page stays in DRAM, named by the PMO, and nobody remembers the free. */
  lemma LateRequestIsForgotten()
    ensures Init(Fresh())
    ensures exists s :: Reachable(Fresh(), s) && Enabled(s, FreeRequest) && !NeverForgotten(Do(s, FreeRequest))
  {
    var s := PreparedQuietly();
    s := RunToCopied(s);
    Then(Fresh(), s, FinishCommit);
    s := Do(s, FinishCommit);
    var acts, t := FinishAlone(Do(s, FreeRequest));
  }

  /** The page is mapped nowhere and nobody faults on it. */
  lemma PreparedQuietly() returns (s: State)
    ensures Reachable(Fresh(), s)
    ensures s == Fresh().(page := Demoting, phase := Selected, worker := Preparing({0}, {0}))
  {
    s := Fresh();
    assert Reaches(s, [], s);
    Then(Fresh(), s, Claim);
    s := Do(s, Claim);
    Then(Fresh(), s, Snapshot);
    s := Do(s, Snapshot);
    assert Mapped(s, 0) == {} && !Locked(s, 0);
    Then(Fresh(), s, PrepareAlias(0));
    s := Do(s, PrepareAlias(0));
    assert s.ptes == map[] && s.saved == map[] && s.touched == map[];
    assert s.worker.done == {0};
  }
}
