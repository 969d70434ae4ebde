/**
  IPI transactions.  Each CPU has one mailbox with a lock and a finish flag.  A sender locks the mailboxes
  of its targets in ascending order, fills and starts each, and then waits for all of them; whoever spins
  for a lock or for an answer handles its own pending IPI meanwhile.  send_ipi is the case of one target.
 */
module Ipi {
  import opened Options

  type Id = nat

  /** Where a CPU is: the targets still to do, the first of them locked in Locked, filled in Filled. */
  datatype Pc = Idle | Acquire(todo: seq<Id>) | Locked(rest: seq<Id>) | Filled(left: seq<Id>)

  datatype Cpu = Cpu(pc: Pc, held: set<Id>, msg: int)

  /** ipi_data of one CPU; `tx` is the transaction in the box. */
  datatype Box = Box(owner: Option<Id>, finish: bool, msg: int, tx: nat)

  /** History of one transaction: what was sent to whom, and what its target handled, in order. */
  datatype Tx = Tx(sender: Id, target: Id, msg: int, handled: seq<int>)

  datatype State = State(cpus: seq<Cpu>, boxes: seq<Box>, txs: seq<Tx>)

  datatype Action =
    | Send(c: Id, targets: seq<Id>, m: int)
    | Lock(c: Id)
    | Fill(c: Id)
    | Start(c: Id)
    | Handle(t: Id)
    | Release(c: Id, t: Id)
    | Done(c: Id)

  ghost predicate Ascending(s: seq<Id>) { forall i, j :: 0 <= i < j < |s| ==> s[i] < s[j] }

  ghost predicate Shape(s: State) { |s.cpus| == |s.boxes| }

  /** Spinning in prepare_ipi_tx or in a wait, or interruptible. */
  ghost predicate Polls(p: Pc) { p.Idle? || p.Acquire? }

  ghost predicate Enabled(s: State, a: Action) {
    Shape(s) && match a
    case Send(c, targets, _) =>
      c < |s.cpus| && s.cpus[c].pc.Idle? && targets != [] && Ascending(targets) && forall i :: 0 <= i < |targets| ==> targets[i] < |s.boxes|
    case Lock(c) =>
      c < |s.cpus| && s.cpus[c].pc.Acquire? && s.cpus[c].pc.todo != [] && s.cpus[c].pc.todo[0] < |s.boxes|
      && s.boxes[s.cpus[c].pc.todo[0]].owner.None?
    case Fill(c) => c < |s.cpus| && s.cpus[c].pc.Locked? && s.cpus[c].pc.rest != [] && s.cpus[c].pc.rest[0] < |s.boxes|
    case Start(c) => c < |s.cpus| && s.cpus[c].pc.Filled? && s.cpus[c].pc.left != [] && s.cpus[c].pc.left[0] < |s.boxes|
    case Handle(t) => t < |s.boxes| && !s.boxes[t].finish && Polls(s.cpus[t].pc) && s.boxes[t].tx < |s.txs|
    case Release(c, t) => c < |s.cpus| && s.cpus[c].pc == Acquire([]) && t in s.cpus[c].held && t < |s.boxes| && s.boxes[t].finish
    case Done(c) => c < |s.cpus| && s.cpus[c].pc == Acquire([]) && s.cpus[c].held == {}
  }

  ghost function Put(s: State, c: Id, cpu: Cpu): State
    requires c < |s.cpus|
  {
    s.(cpus := s.cpus[c := cpu])
  }

  ghost function Do(s: State, a: Action): (t: State)
    requires Enabled(s, a)
    ensures Shape(t)
  {
    match a
    case Send(c, targets, m) => Put(s, c, Cpu(Acquire(targets), {}, m))
    case Lock(c) =>
      var t := s.cpus[c].pc.todo[0];
      Put(s.(boxes := s.boxes[t := s.boxes[t].(owner := Some(c))]), c, s.cpus[c].(pc := Locked(s.cpus[c].pc.todo)))
    case Fill(c) =>
      var t := s.cpus[c].pc.rest[0];
      Put(s.(boxes := s.boxes[t := s.boxes[t].(msg := s.cpus[c].msg)]), c, s.cpus[c].(pc := Filled(s.cpus[c].pc.rest)))
    case Start(c) =>
      var t := s.cpus[c].pc.left[0];
      Put(s.(boxes := s.boxes[t := s.boxes[t].(finish := false, tx := |s.txs|)], txs := s.txs + [Tx(c, t, s.cpus[c].msg, [])]),
          c, s.cpus[c].(pc := Acquire(s.cpus[c].pc.left[1..]), held := s.cpus[c].held + {t}))
    case Handle(t) =>
      var b := s.boxes[t];
      s.(boxes := s.boxes[t := b.(finish := true)], txs := s.txs[b.tx := s.txs[b.tx].(handled := s.txs[b.tx].handled + [b.msg])])
    case Release(c, t) =>
      Put(s.(boxes := s.boxes[t := s.boxes[t].(owner := None)]), c, s.cpus[c].(held := s.cpus[c].held - {t}))
    case Done(c) => Put(s, c, s.cpus[c].(pc := Idle))
  }

  // ------------------------------------------------------------------ invariant

  /** The targets still ahead of a CPU. */
  ghost function Ahead(p: Pc): seq<Id> {
    match p case Idle => [] case Acquire(ts) => ts case Locked(ts) => ts case Filled(ts) => ts
  }

  /** The mailbox the CPU has locked but not started. */
  ghost predicate Filling(p: Pc, t: Id) {
    (p.Locked? && p.rest != [] && p.rest[0] == t) || (p.Filled? && p.left != [] && p.left[0] == t)
  }

  ghost predicate CpuOk(s: State, c: Id)
    requires Shape(s)
  {
    c < |s.cpus| ==>
      var cpu := s.cpus[c];
      var ts := Ahead(cpu.pc);
      && Ascending(ts) && (forall i :: 0 <= i < |ts| ==> ts[i] < |s.boxes|)
      && (!Polls(cpu.pc) ==> ts != [])
      && (cpu.pc.Idle? ==> cpu.held == {})
      && (forall t, i :: t in cpu.held && 0 <= i < |ts| ==> t < ts[i])
      && (forall t :: t in cpu.held ==> t < |s.boxes| && s.boxes[t].owner == Some(c))
      && (forall t: Id :: Filling(cpu.pc, t) ==> t < |s.boxes| && s.boxes[t].owner == Some(c))
  }

  ghost predicate BoxOk(s: State, t: Id)
    requires Shape(s)
  {
    t < |s.boxes| ==>
      var b := s.boxes[t];
      && (b.owner.None? ==> b.finish)
      && (b.owner.Some? ==>
            && b.owner.value < |s.cpus|
            && var cpu := s.cpus[b.owner.value];
            && (t in cpu.held || Filling(cpu.pc, t))
            && (t !in cpu.held ==> b.finish)
            && (cpu.pc.Filled? && Filling(cpu.pc, t) ==> b.msg == cpu.msg)
            && (t in cpu.held ==>
                  && b.tx < |s.txs| && s.txs[b.tx].sender == b.owner.value && s.txs[b.tx].target == t
                  && s.txs[b.tx].msg == cpu.msg == b.msg
                  && s.txs[b.tx].handled == (if b.finish then [b.msg] else [])))
  }

  /** A transaction has been handled exactly once, with what was sent, or is still in its target's mailbox. */
  ghost predicate TxOk(s: State, x: nat)
    requires Shape(s)
  {
    x < |s.txs| ==>
      var tx := s.txs[x];
      tx.handled == [tx.msg] || (tx.handled == [] && tx.target < |s.boxes| && s.boxes[tx.target].tx == x && !s.boxes[tx.target].finish)
  }

  ghost predicate Inv(s: State) {
    Shape(s) && (forall c :: CpuOk(s, c)) && (forall t :: BoxOk(s, t)) && (forall x :: TxOk(s, x))
  }

  ghost predicate Init(s: State) {
    && Shape(s) && s.txs == []
    && (forall c :: 0 <= c < |s.cpus| ==> s.cpus[c].pc.Idle? && s.cpus[c].held == {})
    && (forall t :: 0 <= t < |s.boxes| ==> s.boxes[t].owner.None? && s.boxes[t].finish)
  }

  lemma StepInv(s: State, a: Action)
    requires Inv(s) && Enabled(s, a)
    ensures Inv(Do(s, a))
  {
    match a
    case Send(c, _, _) => CpuStepInv(s, a, c);
    case Lock(c) => LockInv(s, c);
    case Fill(c) => FillInv(s, c);
    case Start(c) => StartInv(s, c);
    case Handle(t) => HandleInv(s, t);
    case Release(c, t) => ReleaseInv(s, c, t);
    case Done(c) => CpuStepInv(s, a, c);
  }

  lemma CpuStepBoxes(s: State, a: Action, c: Id)
    requires Inv(s) && Enabled(s, a) && ((a.Send? && a.c == c) || a == Done(c))
    ensures forall t :: BoxOk(Do(s, a), t)
  {
    assert CpuOk(s, c);
    forall t ensures BoxOk(Do(s, a), t) { assert BoxOk(s, t); }
  }

  /** Steps that touch only one CPU. */
  lemma CpuStepInv(s: State, a: Action, c: Id)
    requires Inv(s) && Enabled(s, a) && ((a.Send? && a.c == c) || a == Done(c))
    ensures Inv(Do(s, a))
  {
    var n := Do(s, a);
    CpuStepBoxes(s, a, c);
    assert CpuOk(s, c);
    forall d ensures CpuOk(n, d) { assert CpuOk(s, d); }
    forall x ensures TxOk(n, x) { assert TxOk(s, x); }
  }

  lemma LockBoxes(s: State, c: Id)
    requires Inv(s) && Enabled(s, Lock(c))
    ensures forall u :: BoxOk(Do(s, Lock(c)), u)
  {
    assert CpuOk(s, c) && BoxOk(s, s.cpus[c].pc.todo[0]);
    forall u ensures BoxOk(Do(s, Lock(c)), u) { assert BoxOk(s, u); }
  }

  lemma LockCpus(s: State, c: Id)
    requires Inv(s) && Enabled(s, Lock(c))
    ensures forall d :: CpuOk(Do(s, Lock(c)), d)
  {
    assert CpuOk(s, c) && BoxOk(s, s.cpus[c].pc.todo[0]);
    forall d ensures CpuOk(Do(s, Lock(c)), d) { assert CpuOk(s, d); }
  }

  lemma LockInv(s: State, c: Id)
    requires Inv(s) && Enabled(s, Lock(c))
    ensures Inv(Do(s, Lock(c)))
  {
    var n, t := Do(s, Lock(c)), s.cpus[c].pc.todo[0];
    LockBoxes(s, c);
    LockCpus(s, c);
    forall x ensures TxOk(n, x) { assert TxOk(s, x); }
  }

  lemma FillBoxes(s: State, c: Id)
    requires Inv(s) && Enabled(s, Fill(c))
    ensures forall t :: BoxOk(Do(s, Fill(c)), t)
  {
    var n, t := Do(s, Fill(c)), s.cpus[c].pc.rest[0];
    assert CpuOk(s, c) && BoxOk(s, t) && Filling(s.cpus[c].pc, t);
    forall u ensures BoxOk(n, u) { assert BoxOk(s, u); }
  }

  lemma FillCpus(s: State, c: Id)
    requires Inv(s) && Enabled(s, Fill(c))
    ensures forall d :: CpuOk(Do(s, Fill(c)), d)
  {
    var n, t := Do(s, Fill(c)), s.cpus[c].pc.rest[0];
    assert CpuOk(s, c) && Filling(s.cpus[c].pc, t);
    forall d ensures CpuOk(n, d) { assert CpuOk(s, d); }
  }

  lemma FillInv(s: State, c: Id)
    requires Inv(s) && Enabled(s, Fill(c))
    ensures Inv(Do(s, Fill(c)))
  {
    var n, t := Do(s, Fill(c)), s.cpus[c].pc.rest[0];
    FillCpus(s, c);
    FillBoxes(s, c);
    assert CpuOk(s, c) && BoxOk(s, t) && Filling(s.cpus[c].pc, t);
    forall x ensures TxOk(n, x) { assert TxOk(s, x); }
  }

  lemma StartCpus(s: State, c: Id)
    requires Inv(s) && Enabled(s, Start(c))
    ensures forall d :: CpuOk(Do(s, Start(c)), d)
  {
    var n, t := Do(s, Start(c)), s.cpus[c].pc.left[0];
    assert CpuOk(s, c) && Filling(s.cpus[c].pc, t);
    forall d ensures CpuOk(n, d) {
      assert CpuOk(s, d);
      if d == c {
        var ts, us := s.cpus[c].pc.left, n.cpus[c].pc.todo;
        assert forall i :: 0 <= i < |us| ==> us[i] == ts[i + 1];
      }
    }
  }

  lemma StartBoxes(s: State, c: Id)
    requires Inv(s) && Enabled(s, Start(c))
    ensures forall t :: BoxOk(Do(s, Start(c)), t)
  {
    var n, t := Do(s, Start(c)), s.cpus[c].pc.left[0];
    assert CpuOk(s, c) && BoxOk(s, t) && Filling(s.cpus[c].pc, t);
    forall u ensures BoxOk(n, u) {
      assert BoxOk(s, u);
    }
  }

  lemma StartInv(s: State, c: Id)
    requires Inv(s) && Enabled(s, Start(c))
    ensures Inv(Do(s, Start(c)))
  {
    var n, t := Do(s, Start(c)), s.cpus[c].pc.left[0];
    StartCpus(s, c);
    StartBoxes(s, c);
    assert CpuOk(s, c) && BoxOk(s, t) && Filling(s.cpus[c].pc, t);
    forall x ensures TxOk(n, x) { assert TxOk(s, x); }
  }

  lemma HandleInv(s: State, t: Id)
    requires Inv(s) && Enabled(s, Handle(t))
    ensures Inv(Do(s, Handle(t)))
  {
    var n := Do(s, Handle(t));
    assert BoxOk(s, t);
    forall d ensures CpuOk(n, d) { assert CpuOk(s, d); }
    forall u ensures BoxOk(n, u) { assert BoxOk(s, u); }
    forall x ensures TxOk(n, x) { assert TxOk(s, x); }
  }

  lemma ReleaseInv(s: State, c: Id, t: Id)
    requires Inv(s) && Enabled(s, Release(c, t))
    ensures Inv(Do(s, Release(c, t)))
  {
    var n := Do(s, Release(c, t));
    assert CpuOk(s, c) && BoxOk(s, t);
    forall d ensures CpuOk(n, d) { assert CpuOk(s, d); }
    forall u ensures BoxOk(n, u) { assert BoxOk(s, u); }
    forall x ensures TxOk(n, x) { assert TxOk(s, x); }
  }

  // ------------------------------------------------------------------ runs

  ghost predicate Reaches(s: State, acts: seq<Action>, t: State)
    decreases |acts|
  {
    if acts == [] then s == t
    else Enabled(s, acts[0]) && Reaches(Do(s, acts[0]), acts[1..], t)
  }

  lemma {:induction false} RunInv(s: State, acts: seq<Action>, t: State)
    requires Inv(s) && Reaches(s, acts, t)
    ensures Inv(t)
    decreases |acts|
  {
    if acts != [] {
      StepInv(s, acts[0]);
      RunInv(Do(s, acts[0]), acts[1..], t);
    }
  }

  lemma InitInv(s: State)
    requires Init(s)
    ensures Inv(s)
  {
  }

  /** When a sender unlocks a mailbox, its transaction there has been handled exactly once, with its own message. */
  lemma {:induction false} HandledOnceBeforeUnlock(s0: State, acts: seq<Action>, s: State, c: Id, t: Id)
    requires Init(s0) && Reaches(s0, acts, s) && Enabled(s, Release(c, t))
    ensures s.boxes[t].tx < |s.txs| && s.txs[s.boxes[t].tx] == Tx(c, t, s.cpus[c].msg, [s.cpus[c].msg])
  {
    InitInv(s0);
    RunInv(s0, acts, s);
    assert CpuOk(s, c) && BoxOk(s, t);
  }

  /** No transaction is ever handled twice or with a message that was not sent; a pending one is still in the mailbox unchanged. */
  lemma {:induction false} NeverHandledTwice(s0: State, acts: seq<Action>, s: State, x: nat)
    requires Init(s0) && Reaches(s0, acts, s) && x < |s.txs|
    ensures s.txs[x].handled == [s.txs[x].msg] || s.txs[x].handled == []
    ensures s.txs[x].handled == [] ==>
              var t := s.txs[x].target;
              t < |s.boxes| && s.boxes[t].tx == x && !s.boxes[t].finish && s.boxes[t].msg == s.txs[x].msg && s.boxes[t].owner == Some(s.txs[x].sender)
  {
    InitInv(s0);
    RunInv(s0, acts, s);
    assert TxOk(s, x);
    assert s.txs[x].target < |s.boxes| ==> BoxOk(s, s.txs[x].target);
  }

  // ------------------------------------------------------------------ what a send reaches

  /** Targets of the transactions that c has started since there were n, in order. */
  ghost function StartedBy(c: Id, txs: seq<Tx>, n: nat): seq<Id>
    requires n <= |txs|
    decreases |txs|
  {
    if |txs| == n then []
    else
      var last := txs[|txs| - 1];
      StartedBy(c, txs[..|txs| - 1], n) + (if last.sender == c then [last.target] else [])
  }

  lemma {:induction false} StartedSame(c: Id, a: seq<Tx>, b: seq<Tx>, n: nat)
    requires n <= |a| == |b| && forall x :: 0 <= x < |a| ==> a[x].sender == b[x].sender && a[x].target == b[x].target
    ensures StartedBy(c, a, n) == StartedBy(c, b, n)
    decreases |a|
  {
    if |a| > n {
      StartedSame(c, a[..|a| - 1], b[..|b| - 1], n);
    }
  }

  lemma StartedMore(c: Id, txs: seq<Tx>, x: Tx, n: nat)
    requires n <= |txs|
    ensures StartedBy(c, txs + [x], n) == StartedBy(c, txs, n) + (if x.sender == c then [x.target] else [])
  {
    assert (txs + [x])[..|txs|] == txs;
  }

  /** c is at work on a send of m to the targets that began with n transactions: it has started some of them, in
      order, and the others are ahead of it; or it is done with it. */
  ghost predicate Sending(s: State, c: Id, targets: seq<Id>, m: int, n: nat) {
    && Shape(s) && c < |s.cpus| && n <= |s.txs|
    && (s.cpus[c].pc.Idle? ||
        (s.cpus[c].msg == m && StartedBy(c, s.txs, n) + Ahead(s.cpus[c].pc) == targets))
    && (forall x :: n <= x < |s.txs| && s.txs[x].sender == c ==> s.txs[x].msg == m)
  }

  lemma SendBegins(s: State, c: Id, targets: seq<Id>, m: int)
    requires Enabled(s, Send(c, targets, m))
    ensures Sending(Do(s, Send(c, targets, m)), c, targets, m, |s.txs|)
  {
  }

  lemma StartSends(s: State, d: Id, c: Id, targets: seq<Id>, m: int, n: nat)
    requires Sending(s, c, targets, m, n) && Enabled(s, Start(d))
    ensures Sending(Do(s, Start(d)), c, targets, m, n)
  {
    var t := s.cpus[d].pc.left[0];
    StartedMore(c, s.txs, Tx(d, t, s.cpus[d].msg, []), n);
    if d == c {
      assert s.cpus[c].pc.left == [t] + s.cpus[c].pc.left[1..];
    }
  }

  lemma HandleSends(s: State, t: Id, c: Id, targets: seq<Id>, m: int, n: nat)
    requires Sending(s, c, targets, m, n) && Enabled(s, Handle(t))
    ensures Sending(Do(s, Handle(t)), c, targets, m, n)
  {
    StartedSame(c, s.txs, Do(s, Handle(t)).txs, n);
  }

  lemma StepSends(s: State, a: Action, c: Id, targets: seq<Id>, m: int, n: nat)
    requires Sending(s, c, targets, m, n) && Enabled(s, a) && !(a.Send? && a.c == c)
    ensures Sending(Do(s, a), c, targets, m, n)
  {
    match a
    case Start(d) => StartSends(s, d, c, targets, m, n);
    case Handle(t) => HandleSends(s, t, c, targets, m, n);
    case _ =>
  }

  lemma {:induction false} RunSends(s: State, acts: seq<Action>, t: State, c: Id, targets: seq<Id>, m: int, n: nat)
    requires Sending(s, c, targets, m, n) && Reaches(s, acts, t)
    requires forall i :: 0 <= i < |acts| ==> !(acts[i].Send? && acts[i].c == c)
    ensures Sending(t, c, targets, m, n)
    decreases |acts|
  {
    if acts != [] {
      StepSends(s, acts[0], c, targets, m, n);
      forall i | 0 <= i < |acts[1..]| ensures !(acts[1..][i].Send? && acts[1..][i].c == c) { assert acts[1..][i] == acts[i + 1]; }
      RunSends(Do(s, acts[0]), acts[1..], t, c, targets, m, n);
    }
  }

  /** When c is about to return from a send, none of its transactions is pending. */
  lemma NothingPending(s: State, c: Id, x: nat)
    requires Inv(s) && Enabled(s, Done(c)) && x < |s.txs| && s.txs[x].sender == c
    ensures s.txs[x].handled == [s.txs[x].msg]
  {
    assert TxOk(s, x);
    if s.txs[x].handled == [] {
      assert BoxOk(s, s.txs[x].target);
    }
  }

  /** When a send to the targets returns, exactly they have each got one transaction of it, in order, and each has
      handled the message that was sent, once. */
  lemma {:induction false} SendReachesTargets(s0: State, before: seq<Action>, s: State, c: Id, targets: seq<Id>, m: int,
                                              acts: seq<Action>, t: State)
    requires Init(s0) && Reaches(s0, before, s) && Enabled(s, Send(c, targets, m))
    requires Reaches(Do(s, Send(c, targets, m)), acts, t) && Enabled(t, Done(c))
    requires forall i :: 0 <= i < |acts| ==> !(acts[i].Send? && acts[i].c == c)
    ensures |s.txs| <= |t.txs| && StartedBy(c, t.txs, |s.txs|) == targets
    ensures forall x :: |s.txs| <= x < |t.txs| && t.txs[x].sender == c ==> t.txs[x].handled == [m]
  {
    InitInv(s0);
    RunInv(s0, before, s);
    StepInv(s, Send(c, targets, m));
    RunInv(Do(s, Send(c, targets, m)), acts, t);
    SendBegins(s, c, targets, m);
    RunSends(Do(s, Send(c, targets, m)), acts, t, c, targets, m, |s.txs|);
    forall x | |s.txs| <= x < |t.txs| && t.txs[x].sender == c ensures t.txs[x].handled == [m] { NothingPending(t, c, x); }
  }

  // ------------------------------------------------------------------ progress

  /** A CPU's box, or the CPU itself, has a step to take. */
  lemma AnswerStep(s: State, d: Id, t: Id) returns (a: Action)
    requires Inv(s) && d < |s.cpus| && s.cpus[d].pc == Acquire([]) && t in s.cpus[d].held
    ensures Enabled(s, a) && !a.Send?
  {
    assert CpuOk(s, d) && BoxOk(s, t) && CpuOk(s, t);
    if s.boxes[t].finish {
      a := Release(d, t);
    } else if Polls(s.cpus[t].pc) {
      a := Handle(t);
    } else {
      a := BusyStep(s, t);
    }
  }

  /** A CPU that is filling a mailbox goes on by itself. */
  lemma BusyStep(s: State, c: Id) returns (a: Action)
    requires Inv(s) && c < |s.cpus| && !Polls(s.cpus[c].pc)
    ensures Enabled(s, a) && !a.Send?
  {
    assert CpuOk(s, c);
    a := if s.cpus[c].pc.Locked? then Fill(c) else Start(c);
  }

  /** Whoever is not idle leads to a step that can be taken; a chain of waiting senders climbs and so ends. */
  lemma {:induction false} NextStep(s: State, c: Id) returns (a: Action)
    requires Inv(s) && c < |s.cpus| && !s.cpus[c].pc.Idle?
    ensures Enabled(s, a) && !a.Send?
    decreases if s.cpus[c].pc.Acquire? && s.cpus[c].pc.todo != [] then |s.boxes| - s.cpus[c].pc.todo[0] else 0
  {
    assert CpuOk(s, c);
    var pc := s.cpus[c].pc;
    if !Polls(pc) {
      a := BusyStep(s, c);
    } else if pc.todo == [] {
      if s.cpus[c].held == {} {
        a := Done(c);
      } else {
        var t :| t in s.cpus[c].held;
        a := AnswerStep(s, c, t);
      }
    } else if s.boxes[pc.todo[0]].owner.None? {
      a := Lock(c);
    } else {
      var t, d := pc.todo[0], s.boxes[pc.todo[0]].owner.value;
      assert BoxOk(s, t) && CpuOk(s, d);
      if !Polls(s.cpus[d].pc) {
        a := BusyStep(s, d);
      } else if s.cpus[d].pc.todo == [] {
        a := AnswerStep(s, d, t);
      } else {
        a := NextStep(s, d);
      }
    }
  }

  /** No deadlock: in every reachable state with a CPU inside prepare or wait, some step other than a new send can be taken. */
  lemma {:induction false} NoDeadlock(s0: State, acts: seq<Action>, s: State, c: Id)
    requires Init(s0) && Reaches(s0, acts, s) && c < |s.cpus| && !s.cpus[c].pc.Idle?
    ensures exists a: Action :: Enabled(s, a) && !a.Send?
  {
    InitInv(s0);
    RunInv(s0, acts, s);
    var a := NextStep(s, c);
  }

  // ------------------------------------------------------------------ termination

  /** Steps a CPU still has to take before it is idle. */
  ghost function Steps(p: Cpu): nat {
    match p.pc
    case Idle => 0
    case Acquire(ts) => 5 * |ts| + |p.held| + 1
    case Locked(ts) => 5 * |ts| + |p.held|
    case Filled(ts) => if ts == [] then 0 else 5 * |ts| + |p.held| - 1
  }

  ghost function CpuSteps(cs: seq<Cpu>): nat {
    if cs == [] then 0 else Steps(cs[0]) + CpuSteps(cs[1..])
  }

  ghost function PendingBoxes(bs: seq<Box>): nat {
    if bs == [] then 0 else (if bs[0].finish then 0 else 1) + PendingBoxes(bs[1..])
  }

  lemma {:induction false} CpuStepsSet(cs: seq<Cpu>, c: nat, p: Cpu)
    requires c < |cs|
    ensures CpuSteps(cs[c := p]) == CpuSteps(cs) - Steps(cs[c]) + Steps(p)
  {
    if c > 0 {
      CpuStepsSet(cs[1..], c - 1, p);
      assert cs[c := p][1..] == cs[1..][c - 1 := p];
    } else {
      assert cs[0 := p][1..] == cs[1..];
    }
  }

  lemma {:induction false} PendingSet(bs: seq<Box>, t: nat, b: Box)
    requires t < |bs|
    ensures PendingBoxes(bs[t := b]) == PendingBoxes(bs) - (if bs[t].finish then 0 else 1) + (if b.finish then 0 else 1)
  {
    if t > 0 {
      PendingSet(bs[1..], t - 1, b);
      assert bs[t := b][1..] == bs[1..][t - 1 := b];
    } else {
      assert bs[0 := b][1..] == bs[1..];
    }
  }

  /** Everything still to be done by the transactions under way. */
  ghost function Measure(s: State): nat { CpuSteps(s.cpus) + PendingBoxes(s.boxes) }

  /** Every step other than a new send brings the end nearer. */
  lemma Nearer(s: State, a: Action)
    requires Inv(s) && Enabled(s, a) && !a.Send?
    ensures Measure(Do(s, a)) < Measure(s)
  {
    var n := Do(s, a);
    match a
    case Lock(c) =>
      var t := s.cpus[c].pc.todo[0];
      CpuStepsSet(s.cpus, c, n.cpus[c]);
      PendingSet(s.boxes, t, n.boxes[t]);
    case Fill(c) =>
      var t := s.cpus[c].pc.rest[0];
      CpuStepsSet(s.cpus, c, n.cpus[c]);
      PendingSet(s.boxes, t, n.boxes[t]);
    case Start(c) =>
      var t := s.cpus[c].pc.left[0];
      CpuStepsSet(s.cpus, c, n.cpus[c]);
      PendingSet(s.boxes, t, n.boxes[t]);
    case Handle(t) => PendingSet(s.boxes, t, n.boxes[t]);
    case Release(c, t) =>
      CpuStepsSet(s.cpus, c, n.cpus[c]);
      PendingSet(s.boxes, t, n.boxes[t]);
    case Done(c) => CpuStepsSet(s.cpus, c, n.cpus[c]);
  }

  ghost predicate NoSend(acts: seq<Action>) { forall i :: 0 <= i < |acts| ==> !acts[i].Send? }

  lemma {:induction false} RunIsShort(s: State, acts: seq<Action>, t: State)
    requires Inv(s) && Reaches(s, acts, t) && NoSend(acts)
    ensures |acts| + Measure(t) <= Measure(s)
    decreases |acts|
  {
    if acts != [] {
      Nearer(s, acts[0]);
      StepInv(s, acts[0]);
      assert NoSend(acts[1..]) by { forall i | 0 <= i < |acts[1..]| ensures !acts[1..][i].Send? { assert acts[1..][i] == acts[i + 1]; } }
      RunIsShort(Do(s, acts[0]), acts[1..], t);
    }
  }

  /**
    All sends complete: from any reachable state a run without new sends has at most Measure(s) steps,
    however it is scheduled, and one that cannot be continued has every CPU idle.
   */
  lemma {:induction false} AllSendsComplete(s0: State, before: seq<Action>, s: State, acts: seq<Action>, t: State)
    requires Init(s0) && Reaches(s0, before, s) && Reaches(s, acts, t) && NoSend(acts)
    ensures |acts| <= Measure(s)
    ensures (forall a: Action :: !a.Send? ==> !Enabled(t, a)) ==> forall c :: 0 <= c < |t.cpus| ==> t.cpus[c].pc.Idle?
  {
    InitInv(s0);
    RunInv(s0, before, s);
    RunIsShort(s, acts, t);
    RunInv(s, acts, t);
    if forall a: Action :: !a.Send? ==> !Enabled(t, a) {
      forall c | 0 <= c < |t.cpus| ensures t.cpus[c].pc.Idle? {
        if !t.cpus[c].pc.Idle? {
          var a := NextStep(t, c);
          assert false;
        }
      }
    }
  }

  // ------------------------------------------------------------------ the waiting loop

  ghost function Ones(mask: seq<bool>): nat {
    if mask == [] then 0 else (if mask[0] then 1 else 0) + Ones(mask[1..])
  }

  lemma {:induction false} OnesClear(mask: seq<bool>, i: nat)
    requires i < |mask| && mask[i]
    ensures Ones(mask[i := false]) == Ones(mask) - 1
  {
    if i > 0 {
      OnesClear(mask[1..], i - 1);
      assert mask[i := false][1..] == mask[1..][i - 1 := false];
    } else {
      assert mask[0 := false][1..] == mask[1..];
    }
  }

  class Mailboxes {
    var finish: seq<bool>
    var locked: seq<bool>

    /** One sweep of wait_ipi_finish_mask: unlock and strike out every CPU of the mask that has finished, and no other. */
    method Sweep(mask: array<bool>, cnt: nat) returns (left: nat)
      requires mask.Length == |finish| == |locked| && cnt == Ones(mask[..])
      requires forall i :: 0 <= i < mask.Length && mask[i] ==> locked[i]
      modifies mask, this`locked
      ensures left == Ones(mask[..]) && |locked| == |old(locked)|
      ensures forall i :: 0 <= i < mask.Length ==> mask[i] == (old(mask[i]) && !finish[i])
      ensures forall i :: 0 <= i < mask.Length ==> locked[i] == (old(locked)[i] && !(old(mask[i]) && finish[i]))
    {
      left := cnt;
      var i := 0;
      while i < mask.Length
        invariant 0 <= i <= mask.Length == |locked| && left == Ones(mask[..])
        invariant forall k :: 0 <= k < i ==> mask[k] == (old(mask[k]) && !finish[k])
        invariant forall k :: i <= k < mask.Length ==> mask[k] == old(mask[k])
        invariant forall k :: 0 <= k < mask.Length ==> locked[k] == (old(locked)[k] && !(k < i && old(mask[k]) && finish[k]))
      {
        if mask[i] && finish[i] {
          OnesClear(mask[..], i);
          ghost var before := mask[..];
          mask[i] := false;
          assert mask[..] == before[i := false];
          left := left - 1;
          locked := locked[i := false];
        }
        i := i + 1;
      }
    }
  }
}
