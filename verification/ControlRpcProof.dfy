/** At-most-once execution of control requests, whatever the interleaving of senders and workers. */
module ControlRpcProof {
  import opened ControlRpc

  lemma BeginInv(s: State, t: nat, target: nat, req: int)
    requires Inv(s) && Enabled(s, Begin(t, target, req))
    ensures Inv(Do(s, Begin(t, target, req)))
  {
    var n := Do(s, Begin(t, target, req));
    assert 0 <= s.rpcLock < |s.threads| ==> ThreadOk(s, s.rpcLock);
    assert ThreadOk(s, t);
    assert IdOk(s, s.nextId + 1);
    assert AllPolling(n) == AllPolling(s) by { forall w ensures Busy(n, w) == Busy(s, w) { } }
    forall id ensures IdOk(n, id) { assert IdOk(s, id); }
    forall x ensures MailOk(n, x) { assert MailOk(s, x); }
    forall w' ensures WorkerOk(n, w') { assert WorkerOk(s, w'); }
    forall t' ensures ThreadOk(n, t') { assert ThreadOk(s, t'); }
    forall u, v ensures Alone(n, u, v) { assert Alone(s, u, v); }
  }

  lemma GiveUpInv(s: State, t: nat)
    requires Inv(s) && Enabled(s, GiveUp(t))
    ensures Inv(Do(s, GiveUp(t)))
  {
    var n := Do(s, GiveUp(t));
    assert 0 <= s.rpcLock < |s.threads| ==> ThreadOk(s, s.rpcLock);
    assert ThreadOk(s, t);
    assert AllPolling(n) == AllPolling(s) by { forall w ensures Busy(n, w) == Busy(s, w) { } }
    forall id ensures IdOk(n, id) { assert IdOk(s, id); }
    forall x ensures MailOk(n, x) { assert MailOk(s, x); }
    forall w' ensures WorkerOk(n, w') { assert WorkerOk(s, w'); }
    forall t' ensures ThreadOk(n, t') { assert ThreadOk(s, t'); }
    forall u, v ensures Alone(n, u, v) { assert Alone(s, u, v); }
  }

  lemma LockInv(s: State, t: nat)
    requires Inv(s) && Enabled(s, Lock(t))
    ensures Inv(Do(s, Lock(t)))
  {
    var n := Do(s, Lock(t));
    assert AllPolling(s) by { forall w ensures !Busy(s, w) { assert WorkerOk(s, w); } }
    assert ThreadOk(s, t);
    assert AllPolling(n) == AllPolling(s) by { forall w ensures Busy(n, w) == Busy(s, w) { } }
    forall id ensures IdOk(n, id) { assert IdOk(s, id); }
    forall x ensures MailOk(n, x) { assert MailOk(s, x); }
    forall w' ensures WorkerOk(n, w') { assert WorkerOk(s, w'); }
    forall t' ensures ThreadOk(n, t') { assert ThreadOk(s, t'); }
    forall u, v ensures Alone(n, u, v) { assert Alone(s, u, v); }
  }

  lemma PostInv(s: State, t: nat)
    requires Inv(s) && Enabled(s, Post(t))
    ensures Inv(Do(s, Post(t)))
  {
    var n := Do(s, Post(t));
    assert 0 <= s.rpcLock < |s.threads| ==> ThreadOk(s, s.rpcLock);
    assert ThreadOk(s, t);
    assert AllPolling(n) == AllPolling(s) by { forall w ensures Busy(n, w) == Busy(s, w) { } }
    forall id ensures IdOk(n, id) { assert IdOk(s, id); }
    forall x ensures MailOk(n, x) { assert MailOk(s, x); }
    forall w' ensures WorkerOk(n, w') { assert WorkerOk(s, w'); }
    forall t' ensures ThreadOk(n, t') { assert ThreadOk(s, t'); }
    forall u, v ensures Alone(n, u, v) { assert Alone(s, u, v); }
  }

  lemma SeeReplyInv(s: State, t: nat)
    requires Inv(s) && Enabled(s, SeeReply(t))
    ensures Inv(Do(s, SeeReply(t)))
  {
    var n := Do(s, SeeReply(t));
    assert 0 <= s.rpcLock < |s.threads| ==> ThreadOk(s, s.rpcLock);
    assert ThreadOk(s, t);
    assert AllPolling(n) == AllPolling(s) by { forall w ensures Busy(n, w) == Busy(s, w) { } }
    forall id ensures IdOk(n, id) { assert IdOk(s, id); }
    forall x ensures MailOk(n, x) { assert MailOk(s, x); }
    forall w' ensures WorkerOk(n, w') { assert WorkerOk(s, w'); }
    forall t' ensures ThreadOk(n, t') { assert ThreadOk(s, t'); }
    forall u, v ensures Alone(n, u, v) { assert Alone(s, u, v); }
  }

  lemma TakeResultInv(s: State, t: nat)
    requires Inv(s) && Enabled(s, TakeResult(t))
    ensures Inv(Do(s, TakeResult(t)))
  {
    var n := Do(s, TakeResult(t));
    assert 0 <= s.rpcLock < |s.threads| ==> ThreadOk(s, s.rpcLock);
    assert ThreadOk(s, t);
    assert AllPolling(n) == AllPolling(s) by { forall w ensures Busy(n, w) == Busy(s, w) { } }
    forall id ensures IdOk(n, id) { assert IdOk(s, id); }
    forall x ensures MailOk(n, x) { assert MailOk(s, x); }
    forall w' ensures WorkerOk(n, w') { assert WorkerOk(s, w'); }
    forall t' ensures ThreadOk(n, t') { assert ThreadOk(s, t'); }
    forall u, v ensures Alone(n, u, v) { assert Alone(s, u, v); }
  }

  lemma TimeoutInv(s: State, t: nat)
    requires Inv(s) && Enabled(s, Timeout(t))
    ensures Inv(Do(s, Timeout(t)))
  {
    var n := Do(s, Timeout(t));
    assert 0 <= s.rpcLock < |s.threads| ==> ThreadOk(s, s.rpcLock);
    assert ThreadOk(s, t) && MailOk(s, s.threads[t].pc.c.target);
    assert AllPolling(n) == AllPolling(s) by { forall w ensures Busy(n, w) == Busy(s, w) { } }
    forall id ensures IdOk(n, id) { assert IdOk(s, id); }
    forall x ensures MailOk(n, x) { assert MailOk(s, x); }
    forall w' ensures WorkerOk(n, w') { assert WorkerOk(s, w'); }
    forall t' ensures ThreadOk(n, t') { assert ThreadOk(s, t'); }
    forall u, v ensures Alone(n, u, v) { assert Alone(s, u, v); }
  }

  lemma ClaimInv(s: State, w: nat)
    requires Inv(s) && Enabled(s, Claim(w))
    ensures Inv(Do(s, Claim(w)))
  {
    var n := Do(s, Claim(w));
    assert AllPolling(s) by { assert MailOk(s, s.workers[w].home); assert ThreadOk(s, s.rpcLock); }
    assert 0 <= s.rpcLock < |s.threads| ==> ThreadOk(s, s.rpcLock);
    assert MailOk(s, s.workers[w].home) && WorkerOk(s, w);
    assert Busy(n, w);
    forall id ensures IdOk(n, id) { assert IdOk(s, id); }
    forall x ensures MailOk(n, x) { assert MailOk(s, x); }
    forall w' ensures WorkerOk(n, w') { assert WorkerOk(s, w'); assert !Busy(s, w'); }
    forall t' ensures ThreadOk(n, t') { assert ThreadOk(s, t'); }
    forall u, v ensures Alone(n, u, v) { assert !Busy(s, u) && !Busy(s, v); }
  }

  lemma FetchInv(s: State, w: nat)
    requires Inv(s) && Enabled(s, Fetch(w))
    ensures Inv(Do(s, Fetch(w)))
  {
    var n := Do(s, Fetch(w));
    assert MailOk(s, s.workers[w].home);
    assert 0 <= s.rpcLock < |s.threads| ==> ThreadOk(s, s.rpcLock);
    assert WorkerOk(s, w) && Busy(s, w) && Busy(n, w);
    forall id ensures IdOk(n, id) { assert IdOk(s, id); }
    forall x ensures MailOk(n, x) { assert MailOk(s, x); }
    forall w' ensures WorkerOk(n, w') { assert WorkerOk(s, w'); assert Alone(s, w, w'); }
    forall t' ensures ThreadOk(n, t') { assert ThreadOk(s, t'); }
    forall u, v ensures Alone(n, u, v) { assert Alone(s, u, v); }
  }

  /** Executing an unlogged call makes it run once and leaves the record of every other call alone. */
  lemma LogGrows(log: seq<Event>, e: Event)
    requires !Logged(log, e.id)
    ensures forall id :: Logged(log + [e], id) <==> Logged(log, id) || id == e.id
    ensures forall c, res :: RanOnce(log, c, res) ==> RanOnce(log + [e], c, res)
    ensures RanOnce(log + [e], Call(e.id, e.machine, e.req), e.res)
  {
    forall id | Logged(log, id) ensures Logged(log + [e], id) {
      var i :| 0 <= i < |log| && log[i].id == id;
      assert (log + [e])[i].id == id;
    }
    assert (log + [e])[|log|] == e;
    forall c, res | RanOnce(log, c, res) ensures RanOnce(log + [e], c, res) {
      var i :| 0 <= i < |log| && log[i] == Event(c.id, c.target, c.req, res);
      assert (log + [e])[i] == log[i];
      assert c.id != e.id;
    }
  }

  lemma ExecuteInv(s: State, w: nat, res: int)
    requires Inv(s) && Enabled(s, Execute(w, res))
    ensures Inv(Do(s, Execute(w, res)))
  {
    var n := Do(s, Execute(w, res));
    var pc := s.workers[w].pc;
    assert WorkerOk(s, w) && Busy(s, w) && Busy(n, w);
    assert ThreadOk(s, s.rpcLock);
    LogGrows(s.log, Event(pc.id, s.workers[w].home, pc.req, res));
    forall id ensures IdOk(n, id) { assert IdOk(s, id); }
    forall x ensures MailOk(n, x) { assert MailOk(s, x); }
    forall w' ensures WorkerOk(n, w') { assert WorkerOk(s, w'); assert Alone(s, w, w'); }
    forall t' ensures ThreadOk(n, t') { assert ThreadOk(s, t'); }
    forall u, v ensures Alone(n, u, v) { assert Alone(s, u, v); }
  }

  lemma ReplyInv(s: State, w: nat)
    requires Inv(s) && Enabled(s, Reply(w))
    ensures Inv(Do(s, Reply(w)))
  {
    var n := Do(s, Reply(w));
    assert WorkerOk(s, w) && Busy(s, w) && Busy(n, w) && ThreadOk(s, s.rpcLock);
    forall id ensures IdOk(n, id) { assert IdOk(s, id); }
    forall x ensures MailOk(n, x) { assert MailOk(s, x); }
    forall w' ensures WorkerOk(n, w') { assert WorkerOk(s, w'); assert Alone(s, w, w'); }
    forall t' ensures ThreadOk(n, t') { assert ThreadOk(s, t'); }
    forall u, v ensures Alone(n, u, v) { assert Alone(s, u, v); }
  }

  lemma PublishInv(s: State, w: nat)
    requires Inv(s) && Enabled(s, Publish(w))
    ensures Inv(Do(s, Publish(w)))
  {
    var n := Do(s, Publish(w));
    assert WorkerOk(s, w) && Busy(s, w) && ThreadOk(s, s.rpcLock);
    assert AllPolling(n) by { forall v ensures !Busy(n, v) { assert Alone(s, v, w); } }
    forall id ensures IdOk(n, id) { assert IdOk(s, id); }
    forall x ensures MailOk(n, x) { assert MailOk(s, x); }
    forall w' ensures WorkerOk(n, w') { assert WorkerOk(s, w'); assert Alone(s, w, w'); }
    forall t' ensures ThreadOk(n, t') { assert ThreadOk(s, t'); }
    forall u, v ensures Alone(n, u, v) { assert Alone(s, u, v); }
  }

  // ---------------------------------------------------------------- every run

  ghost predicate Reaches(s: State, acts: seq<Action>, t: State)
    requires Shape(s)
    ensures Reaches(s, acts, t) ==> Shape(t)
    decreases |acts|
  {
    if acts == [] then s == t
    else Enabled(s, acts[0]) && Shape(Do(s, acts[0])) && Reaches(Do(s, acts[0]), acts[1..], t)
  }

  lemma StepInv(s: State, a: Action)
    requires Inv(s) && Enabled(s, a)
    ensures Inv(Do(s, a))
  {
    match a
    case Begin(t, target, req) => BeginInv(s, t, target, req);
    case GiveUp(t) => GiveUpInv(s, t);
    case Lock(t) => LockInv(s, t);
    case Post(t) => PostInv(s, t);
    case SeeReply(t) => SeeReplyInv(s, t);
    case TakeResult(t) => TakeResultInv(s, t);
    case Timeout(t) => TimeoutInv(s, t);
    case Claim(w) => ClaimInv(s, w);
    case Fetch(w) => FetchInv(s, w);
    case Execute(w, res) => ExecuteInv(s, w, res);
    case Reply(w) => ReplyInv(s, w);
    case Publish(w) => PublishInv(s, w);
  }

  lemma {:induction false} RunInv(s: State, acts: seq<Action>, t: State)
    requires Inv(s) && Reaches(s, acts, t)
    ensures Inv(t)
    decreases |acts|
  {
    if acts != [] {
      StepInv(s, acts[0]);
      RunInv(Do(s, acts[0]), acts[1..], t);
    }
  }

  /** A call reported -ETIMEDOUT or -EAGAIN is never executed, neither before nor after the report. */
  lemma {:induction false} FailedCallNeverRuns(s0: State, acts: seq<Action>, s: State, id: nat)
    requires Init(s0) && Reaches(s0, acts, s) && id in s.outcome && !s.outcome[id].Returned?
    ensures forall i :: 0 <= i < |s.log| ==> s.log[i].id != id
  {
    InitInv(s0);
    RunInv(s0, acts, s);
    assert IdOk(s, id);
    forall i | 0 <= i < |s.log| ensures s.log[i].id != id {
      if s.log[i].id == id { assert Logged(s.log, id); }
    }
  }

  /** A call that returned a result was executed exactly once, by its own target on its own arguments,
      and the result its sender got is the one that execution produced. */
  lemma {:induction false} ReturnedResultIsOwn(s0: State, acts: seq<Action>, s: State, id: nat)
    requires Init(s0) && Reaches(s0, acts, s) && id in s.outcome && s.outcome[id].Returned?
    ensures id in s.issued && RanOnce(s.log, s.issued[id].1, s.outcome[id].res) && s.issued[id].1.id == id
  {
    InitInv(s0);
    RunInv(s0, acts, s);
    assert IdOk(s, id);
  }

  /** Nothing is executed twice, finished or not. */
  lemma {:induction false} AtMostOnce(s0: State, acts: seq<Action>, s: State, i: nat, j: nat)
    requires Init(s0) && Reaches(s0, acts, s) && i < |s.log| && j < |s.log| && s.log[i].id == s.log[j].id
    ensures i == j
  {
    InitInv(s0);
    NoRepeats(s0, acts, s);
  }

  ghost predicate Distinct(log: seq<Event>) {
    forall i, j :: 0 <= i < |log| && 0 <= j < |log| && log[i].id == log[j].id ==> i == j
  }

  lemma StepDistinct(s: State, a: Action)
    requires Inv(s) && Enabled(s, a) && Distinct(s.log)
    ensures Distinct(Do(s, a).log)
  {
    if a.Execute? {
      assert WorkerOk(s, a.w);
      LogGrows(s.log, Event(s.workers[a.w].pc.id, s.workers[a.w].home, s.workers[a.w].pc.req, a.res));
    }
  }

  lemma {:induction false} NoRepeats(s: State, acts: seq<Action>, t: State)
    requires Inv(s) && Reaches(s, acts, t) && Distinct(s.log)
    ensures Distinct(t.log)
    decreases |acts|
  {
    if acts != [] {
      StepInv(s, acts[0]);
      StepDistinct(s, acts[0]);
      NoRepeats(Do(s, acts[0]), acts[1..], t);
    }
  }

  /** After a timeout that could not cancel, the reply is on its way: the request is claimed or answered. */
  lemma {:induction false} DrainingCallIsClaimed(s0: State, acts: seq<Action>, s: State, t: nat)
    requires Init(s0) && Reaches(s0, acts, s) && t < |s.threads| && s.threads[t].pc.Draining?
    ensures
      var c := s.threads[t].pc.c;
      || s.mail[s.threads[t].home].replyId == c.id
      || exists w :: 0 <= w < |s.workers| && !s.workers[w].pc.Polling? && s.workers[w].pc.id == c.id && s.workers[w].home == c.target
  {
    InitInv(s0);
    RunInv(s0, acts, s);
    assert ThreadOk(s, t) && MailOk(s, s.threads[t].pc.c.target);
    if !AllPolling(s) {
      var w: nat :| Busy(s, w);
      assert WorkerOk(s, w);
      assert s.workers[w].pc.id == s.threads[t].pc.c.id && s.workers[w].home == s.threads[t].pc.c.target;
    }
  }

  // ---------------------------------------------------------------- a call and its answer

  lemma {:induction false} IssuedStays(s: State, acts: seq<Action>, t: State, id: nat)
    requires Inv(s) && Reaches(s, acts, t) && id in s.issued
    ensures id in t.issued && t.issued[id] == s.issued[id]
    decreases |acts|
  {
    if acts != [] {
      assert IdOk(s, id);
      StepInv(s, acts[0]);
      IssuedStays(Do(s, acts[0]), acts[1..], t, id);
    }
  }

  lemma BegunIsIssued(s: State, t: nat, target: nat, req: int, acts: seq<Action>, u: State)
    requires Inv(s) && Enabled(s, Begin(t, target, req))
    requires Shape(Do(s, Begin(t, target, req))) && Reaches(Do(s, Begin(t, target, req)), acts, u)
    ensures Inv(u) && s.nextId + 1 in u.issued && u.issued[s.nextId + 1].1 == Call(s.nextId + 1, target, req)
  {
    var s' := Do(s, Begin(t, target, req));
    assert Inv(s') by { StepInv(s, Begin(t, target, req)); }
    IssuedStays(s', acts, u, s.nextId + 1);
    RunInv(s', acts, u);
  }

  /** What the record of a call says of its outcome. */
  ghost predicate Settled(u: State, c: Call) {
    c.id in u.outcome ==>
      if u.outcome[c.id].Returned? then RanOnce(u.log, c, u.outcome[c.id].res) else !Logged(u.log, c.id)
  }

  lemma IssuedIsSettled(u: State, c: Call)
    requires Inv(u) && c.id in u.issued && u.issued[c.id].1 == c
    ensures Settled(u, c)
  {
    assert IdOk(u, c.id);
  }

  /** What a call that was begun with these arguments returns is the result of the one execution of these arguments
      by that target; a call that is reported as failed has not been executed. */
  lemma {:induction false} AnswerIsToTheQuestion(s0: State, before: seq<Action>, s: State, t: nat, target: nat, req: int,
                                                 acts: seq<Action>, u: State)
    requires Init(s0) && Reaches(s0, before, s) && Enabled(s, Begin(t, target, req))
    requires Shape(Do(s, Begin(t, target, req))) && Reaches(Do(s, Begin(t, target, req)), acts, u)
    ensures Settled(u, Call(s.nextId + 1, target, req))
  {
    assert Inv(s) by {
      InitInv(s0);
      RunInv(s0, before, s);
    }
    BegunIsIssued(s, t, target, req, acts, u);
    IssuedIsSettled(u, Call(s.nextId + 1, target, req));
  }

  /** While nobody holds the RPC lock, every request slot is free. */
  lemma FreeSlots(s: State, x: nat)
    requires Inv(s) && s.rpcLock == NOBODY && x < |s.mail|
    ensures s.mail[x].pending == 0
  {
    assert MailOk(s, x);
  }

  ghost predicate Leads(s: State, u: State)
    requires Shape(s)
  {
    exists acts :: Reaches(s, acts, u)
  }

  lemma Stays(s: State)
    requires Shape(s)
    ensures Leads(s, s)
  {
    assert Reaches(s, [], s);
  }

  lemma First(s: State, a: Action, u: State)
    requires Shape(s) && Enabled(s, a) && Shape(Do(s, a)) && Leads(Do(s, a), u)
    ensures Leads(s, u)
  {
    var acts :| Reaches(Do(s, a), acts, u);
    assert ([a] + acts)[0] == a && ([a] + acts)[1..] == acts;
    assert Reaches(s, [a] + acts, u);
  }

  /** The caller numbers its call, takes the lock and posts. */
  ghost function PostedState(s: State, t: nat, target: nat, req: int): (u: State)
    requires Shape(s) && Enabled(s, Begin(t, target, req)) && s.rpcLock == NOBODY && s.mail[target].pending == 0
    ensures Shape(u) && |u.mail| == |s.mail| && u.log == s.log && u.workers == s.workers && u.rpcLock == t
    ensures u.threads == s.threads[t := Thread(s.threads[t].home, Posted(Call(s.nextId + 1, target, req)))]
    ensures
      var m := u.mail[target];
      m.pending == 1 && m.sender == s.threads[t].home && m.rpcId == s.nextId + 1 && m.req == req
  {
    Do(Do(Do(s, Begin(t, target, req)), Lock(t)), Post(t))
  }

  lemma CallIsPosted(s: State, t: nat, target: nat, req: int, u: State)
    requires Shape(s) && Enabled(s, Begin(t, target, req)) && s.rpcLock == NOBODY && s.mail[target].pending == 0
    requires Leads(PostedState(s, t, target, req), u)
    ensures Leads(s, u)
  {
    var s1 := Do(s, Begin(t, target, req));
    First(Do(s1, Lock(t)), Post(t), u);
    First(s1, Lock(t), u);
    First(s, Begin(t, target, req), u);
  }

  /** Call c of the thread waits, posted, in the slot of worker w's machine. */
  ghost predicate Waits(s: State, t: nat, w: nat, c: Call) {
    && Shape(s) && t < |s.threads| && w < |s.workers| && s.threads[t].pc == Posted(c)
    && s.workers[w].home == c.target && c.target != s.threads[t].home
    && var m := s.mail[c.target]; m.sender == s.threads[t].home && m.rpcId == c.id && m.req == c.req
  }

  /** A polling worker of the target claims and executes it. */
  ghost function ExecutedState(s: State, t: nat, w: nat, c: Call, res: int): (u: State)
    requires Waits(s, t, w, c) && s.workers[w].pc.Polling? && s.mail[c.target].pending == 1
    ensures Waits(u, t, w, c) && u.mail[c.target].pending == 2 && |u.mail| == |s.mail|
    ensures u.workers[w].pc == Executed(s.threads[t].home, c.id, res)
    ensures u.threads == s.threads && u.rpcLock == s.rpcLock && u.log == s.log + [Event(c.id, c.target, c.req, res)]
  {
    Do(Do(Do(s, Claim(w)), Fetch(w)), Execute(w, res))
  }

  lemma CallIsExecuted(s: State, t: nat, w: nat, c: Call, res: int, u: State)
    requires Waits(s, t, w, c) && s.workers[w].pc.Polling? && s.mail[c.target].pending == 1
    requires Leads(ExecutedState(s, t, w, c, res), u)
    ensures Leads(s, u)
  {
    var s1 := Do(s, Claim(w));
    First(Do(s1, Fetch(w)), Execute(w, res), u);
    First(s1, Fetch(w), u);
    First(s, Claim(w), u);
  }

  /** It answers, and the caller takes the result. */
  ghost function ReturnedState(s: State, t: nat, w: nat, c: Call, res: int): (u: State)
    requires Waits(s, t, w, c) && s.workers[w].pc == Executed(s.threads[t].home, c.id, res) && s.mail[c.target].pending == 2
    ensures |u.threads| == |s.threads| && u.threads[t].pc.Ready? && u.rpcLock == NOBODY && u.log == s.log
    ensures c.id in u.outcome && u.outcome[c.id] == Returned(res)
  {
    Do(Do(Do(Do(s, Reply(w)), Publish(w)), SeeReply(t)), TakeResult(t))
  }

  lemma CallReturns(s: State, t: nat, w: nat, c: Call, res: int)
    requires Waits(s, t, w, c) && s.workers[w].pc == Executed(s.threads[t].home, c.id, res) && s.mail[c.target].pending == 2
    ensures Leads(s, ReturnedState(s, t, w, c, res))
  {
    var u := ReturnedState(s, t, w, c, res);
    var s1 := Do(s, Reply(w));
    var s2 := Do(s1, Publish(w));
    Stays(u);
    First(Do(s2, SeeReply(t)), TakeResult(t), u);
    First(s2, SeeReply(t), u);
    First(s1, Publish(w), u);
    First(s, Reply(w), u);
  }

  /** With the lock free and a worker of the target polling, a call goes through: it is executed with its arguments and
      returns that result, and the lock is free again. */
  lemma CallGoesThrough(s: State, t: nat, target: nat, req: int, w: nat, res: int) returns (u: State)
    requires Inv(s) && Enabled(s, Begin(t, target, req)) && s.rpcLock == NOBODY
    requires w < |s.workers| && s.workers[w].pc.Polling? && s.workers[w].home == target
    ensures Leads(s, u) && u.rpcLock == NOBODY && t < |u.threads| && u.threads[t].pc.Ready?
    ensures s.nextId + 1 in u.outcome && u.outcome[s.nextId + 1] == Returned(res)
    ensures u.log == s.log + [Event(s.nextId + 1, target, req, res)]
  {
    var c := Call(s.nextId + 1, target, req);
    FreeSlots(s, target);
    var s1 := PostedState(s, t, target, req);
    var s2 := ExecutedState(s1, t, w, c, res);
    u := ReturnedState(s2, t, w, c, res);
    CallReturns(s2, t, w, c, res);
    CallIsExecuted(s1, t, w, c, res, u);
    CallIsPosted(s, t, target, req, u);
  }

  /** A timeout takes back a request that no worker has claimed, and the call has failed; otherwise the caller drains. */
  lemma TimeoutCancelsIffUnclaimed(s: State, t: nat)
    requires Inv(s) && Enabled(s, Timeout(t))
    ensures
      var c, u := s.threads[t].pc.c, Do(s, Timeout(t));
      if s.mail[c.target].pending == 1
      then u.threads[t].pc.Ready? && u.rpcLock == NOBODY && u.mail[c.target].pending == 0 && c.id in u.outcome && u.outcome[c.id].TimedOut?
      else u.threads[t].pc == Draining(c) && u.mail == s.mail && u.outcome == s.outcome
  {
    assert ThreadOk(s, t) && MailOk(s, s.threads[t].pc.c.target);
  }

  ghost function Stage(pc: WorkerPc): nat {
    match pc case Polling => 0 case Claimed(_, _) => 4 case Running(_, _, _) => 3 case Executed(_, _, _) => 2 case Replying(_, _) => 1
  }

  function NextOf(pc: WorkerPc, w: nat, res: int): Action
    requires !pc.Polling?
  {
    match pc
    case Claimed(_, _) => Fetch(w)
    case Running(_, _, _) => Execute(w, res)
    case Executed(_, _, _) => Reply(w)
    case Replying(_, _) => Publish(w)
  }

  /** A worker that serves the drained call goes on by itself. */
  lemma ServesOn(s: State, t: nat, w: nat, res: int)
    requires Inv(s) && t < |s.threads| && s.threads[t].pc.Draining? && Busy(s, w)
    ensures
      var a := NextOf(s.workers[w].pc, w, res);
      && Enabled(s, a) && Do(s, a).threads == s.threads && Stage(Do(s, a).workers[w].pc) < Stage(s.workers[w].pc)
      && (forall v :: v != w ==> !Busy(Do(s, a), v))
  {
    assert WorkerOk(s, w) && ThreadOk(s, t);
    forall v | v != w ensures !Busy(Do(s, NextOf(s.workers[w].pc, w, res)), v) { assert Alone(s, v, w); }
  }

  /** The end of a drained call: its sender takes the reply. */
  lemma TakesReply(s: State, t: nat) returns (u: State)
    requires Inv(s) && t < |s.threads| && s.threads[t].pc.Draining? && s.mail[s.threads[t].home].replyId == s.threads[t].pc.c.id
    ensures Leads(s, u) && s.threads[t].pc.c.id in u.outcome && u.outcome[s.threads[t].pc.c.id].Returned?
    ensures t < |u.threads| && u.threads[t].pc.Ready? && u.rpcLock == NOBODY
  {
    var s1 := Do(s, SeeReply(t));
    u := Do(s1, TakeResult(t));
    Stays(u);
    First(s1, TakeResult(t), u);
    First(s, SeeReply(t), u);
  }

  /** Draining ends: the worker that claimed the call and the sender bring it to its return by themselves. */
  lemma {:induction false} DrainEnds(s: State, t: nat, w: nat, res: int) returns (u: State)
    requires Inv(s) && t < |s.threads| && s.threads[t].pc.Draining? && (Busy(s, w) || AllPolling(s))
    ensures Leads(s, u) && s.threads[t].pc.c.id in u.outcome && u.outcome[s.threads[t].pc.c.id].Returned?
    ensures t < |u.threads| && u.threads[t].pc.Ready? && u.rpcLock == NOBODY
    decreases if Busy(s, w) then Stage(s.workers[w].pc) else 0
  {
    if Busy(s, w) {
      var a := NextOf(s.workers[w].pc, w, res);
      ServesOn(s, t, w, res);
      assert Inv(Do(s, a)) by { StepInv(s, a); }
      u := DrainEnds(Do(s, a), t, w, res);
      First(s, a, u);
    } else {
      assert ThreadOk(s, t) && MailOk(s, s.threads[t].pc.c.target);
      u := TakesReply(s, t);
    }
  }

  /** A caller that cannot get the lock gives up: its call has failed and it may call again. */
  lemma GiveUpRefuses(s: State, t: nat)
    requires Inv(s) && Enabled(s, GiveUp(t))
    ensures
      var c, u := s.threads[t].pc.c, Do(s, GiveUp(t));
      && c.id in u.outcome && u.outcome[c.id].Refused? && !Logged(u.log, c.id) && u.mail == s.mail
      && Enabled(u, Begin(t, c.target, c.req))
  {
    assert ThreadOk(s, t);
  }

}
