/**
  A machine that boots again after a crash clears the ring its crash left, and with it what recovery
  would need to finish its last operation.
 */
module RefReboot {
  import opened RefProtocol
  import opened RefInvariant
  import opened RefSharedSteps
  import opened RefTheorems
  import opened RefRejoin

  ghost predicate OffByOne(a: nat, b: nat) { a == b + 1 || b == a + 1 }

  /** A cell write that is forgotten changes how many cells are counted for its object. */
  lemma ForgottenWrite(s: State, m: nat)
    requires Shape(s) && Enabled(s, Reboot(m)) && MachineOk(s, m) && !NothingOutstanding(s, m)
    ensures OffByOne(|Refs(s, s.machines[m].pc.t.obj)|, |Refs(Do(s, Reboot(m)), s.machines[m].pc.t.obj)|)
  {
    var s', t := Do(s, Reboot(m)), s.machines[m].pc.t;
    forall l | l in s.cells && l != t.loc ensures Settled(s', l) == Settled(s, l) { }
    RefsMove(s, s', t.loc, t.obj);
    MovedSize(Refs(s, t.obj), Refs(s', t.obj), t.loc, Settled(s', t.loc) == t.obj);
  }

  /** So it leaves the count off by one. */
  lemma ForgottenWriteUnbalances(s: State, m: nat)
    requires Inv(s) && Enabled(s, Reboot(m)) && !NothingOutstanding(s, m)
    ensures !CountsOk(Do(s, Reboot(m)))
  {
    var o := s.machines[m].pc.t.obj;
    assert MachineOk(s, m);
    ForgottenWrite(s, m);
    OffByOneDiffers(|Refs(s, o)|, |Refs(Do(s, Reboot(m)), o)|);
  }

  lemma OffByOneDiffers(a: nat, b: nat)
    requires OffByOne(a, b)
    ensures a % COUNT_MOD != b % COUNT_MOD
  {
  }

  /** The counts survive a new boot of a crashed machine if and only if it had been recovered before, or no
      operation it committed was still without its cell write. */
  lemma RebootKeepsCountsIff(s: State, m: nat)
    requires Inv(s) && Enabled(s, Reboot(m))
    ensures CountsOk(Do(s, Reboot(m))) <==> NothingOutstanding(s, m)
  {
    if NothingOutstanding(s, m) { RebootInv(s, m); } else { ForgottenWriteUnbalances(s, m); }
  }

  /** From boot: machine 0 lands a link of cell 8 to object 1. */
  lemma LandedFromBoot() returns (s: State)
    ensures Shape(Boot()) && Reachable(Boot(), s) && Running(s, 0)
    ensures s.machines[0].pc.Committed? && s.machines[0].rec.NotRecovered?
    ensures s.cells == Boot().cells && s.ri == map[1 := RefInfo(0, 1, 1)]
  {
    ReadyToLink();
    var r := RecordedState(Ready(), 0, Link, 8, 1);
    s := LandedState(r, 0);
    assert Reachable(Boot(), s) by {
      RunToRecorded(Ready(), 0, Link, 8, 1);
      RunToLanded(r, 0);
      BothJoin();
      Chain(Boot(), Ready(), r);
      Chain(Boot(), r, s);
    }
  }

  /** It dies before the cell write. */
  lemma LandedThenDead() returns (s: State)
    ensures Shape(Boot()) && Reachable(Boot(), s) && Enabled(s, Reboot(0)) && !NothingOutstanding(s, 0)
    ensures s.cells == Boot().cells && s.ri == map[1 := RefInfo(0, 1, 1)]
  {
    var t := LandedFromBoot();
    Then(Boot(), t, Crash(0));
    s := Do(t, Crash(0));
  }

  /** If it then boots again without recovery, the object has a count of one and no cell that names it. */
  lemma RebootLosesReference()
    ensures Init(Boot())
    ensures exists s ::
              && Reachable(Boot(), s) && Enabled(s, Reboot(0)) && !CountsOk(Do(s, Reboot(0)))
              && 1 in s.ri && s.ri[1].cnt == 1 && CellsOf(Do(s, Reboot(0)), 1) == {}
  {
    BootIsInit();
    InitInv(Boot());
    var s := LandedThenDead();
    var acts :| Reaches(Boot(), acts, s);
    RunInv(Boot(), acts, s);
    ForgottenWriteUnbalances(s, 0);
    assert CellsOf(Do(s, Reboot(0)), 1) == {};
  }
}
