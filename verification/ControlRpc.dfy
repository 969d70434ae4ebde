/**
  The reclaim control mailbox: a cluster-wide RPC lock, one request slot per target machine whose
  `pending` word goes 0 -> 1 (posted) -> 2 (claimed) -> 0, a reply slot per sending machine, and a
  sender that gives up by cancelling an unclaimed request or else drains a claimed one.
 */
module ControlRpc {
  /** cxl_control[i]: the request slot written by senders, and the reply slot read by machine i. */
  datatype Mail = Mail(pending: nat, sender: int, rpcId: nat, req: int, result: int, replyId: nat)

  const NOBODY := -1

  datatype Call = Call(id: nat, target: nat, req: int)

  datatype SenderPc =
    | Ready
    | Numbered(c: Call)
    | Holding(c: Call)
    | Posted(c: Call)
    | Draining(c: Call)
    | Answered(c: Call)

  datatype WorkerPc =
    | Polling
    | Claimed(sender: nat, id: nat)
    | Running(sender: nat, id: nat, req: int)
    | Executed(sender: nat, id: nat, res: int)
    | Replying(sender: nat, id: nat)

  datatype Thread = Thread(home: nat, pc: SenderPc)
  datatype Worker = Worker(home: nat, pc: WorkerPc)

  datatype Outcome = Refused | TimedOut | Returned(res: int)

  /** One execution of a request by a target machine. */
  datatype Event = Event(id: nat, machine: nat, req: int, res: int)

  /** `issued`, `outcome` and `log` are history: who asked for what, what each call returned to its
      caller, and every execution in order. */
  datatype State = State(
    mail: seq<Mail>, rpcLock: int, nextId: nat,
    threads: seq<Thread>, workers: seq<Worker>,
    issued: map<nat, (nat, Call)>, outcome: map<nat, Outcome>, log: seq<Event>)

  datatype Action =
    | Begin(t: nat, target: nat, req: int)
    | GiveUp(t: nat)
    | Lock(t: nat)
    | Post(t: nat)
    | SeeReply(t: nat)
    | TakeResult(t: nat)
    | Timeout(t: nat)
    | Claim(w: nat)
    | Fetch(w: nat)
    | Execute(w: nat, res: int)
    | Reply(w: nat)
    | Publish(w: nat)

  predicate Shape(s: State) {
    && (forall t :: 0 <= t < |s.threads| ==> s.threads[t].home < |s.mail|)
    && (forall w :: 0 <= w < |s.workers| ==> s.workers[w].home < |s.mail|)
  }

  function SetPc(s: State, t: nat, pc: SenderPc): State
    requires t < |s.threads|
  {
    s.(threads := s.threads[t := s.threads[t].(pc := pc)])
  }

  function SetWorker(s: State, w: nat, pc: WorkerPc): State
    requires w < |s.workers|
  {
    s.(workers := s.workers[w := s.workers[w].(pc := pc)])
  }

  function SetMail(s: State, i: nat, m: Mail): State
    requires i < |s.mail|
  {
    s.(mail := s.mail[i := m])
  }

  predicate InRange(s: State, c: Call) { c.target < |s.mail| }

  predicate Enabled(s: State, a: Action)
    requires Shape(s)
  {
    match a
    case Begin(t, target, req) => t < |s.threads| && s.threads[t].pc.Ready? && target < |s.mail| && target != s.threads[t].home
    case GiveUp(t) => t < |s.threads| && s.threads[t].pc.Numbered?
    case Lock(t) => t < |s.threads| && s.threads[t].pc.Numbered? && s.rpcLock == NOBODY
    case Post(t) => t < |s.threads| && s.threads[t].pc.Holding? && InRange(s, s.threads[t].pc.c)
    case SeeReply(t) =>
      t < |s.threads| && (s.threads[t].pc.Posted? || s.threads[t].pc.Draining?)
      && s.mail[s.threads[t].home].replyId == s.threads[t].pc.c.id
    case TakeResult(t) => t < |s.threads| && s.threads[t].pc.Answered?
    case Timeout(t) => t < |s.threads| && s.threads[t].pc.Posted? && InRange(s, s.threads[t].pc.c)
    case Claim(w) =>
      w < |s.workers| && s.workers[w].pc.Polling?
      && var m := s.mail[s.workers[w].home]; m.pending == 1 && 0 <= m.sender < |s.mail| && m.sender != s.workers[w].home
    case Fetch(w) => w < |s.workers| && s.workers[w].pc.Claimed?
    case Execute(w, res) => w < |s.workers| && s.workers[w].pc.Running?
    case Reply(w) => w < |s.workers| && s.workers[w].pc.Executed? && s.workers[w].pc.sender < |s.mail|
    case Publish(w) => w < |s.workers| && s.workers[w].pc.Replying? && s.workers[w].pc.sender < |s.mail|
  }

  function Do(s: State, a: Action): State
    requires Shape(s) && Enabled(s, a)
  {
    match a
    case Begin(t, target, req) =>
      var c := Call(s.nextId + 1, target, req);
      SetPc(s, t, Numbered(c)).(nextId := s.nextId + 1, issued := s.issued[c.id := (t, c)])
    case GiveUp(t) =>
      SetPc(s, t, Ready).(outcome := s.outcome[s.threads[t].pc.c.id := Refused])
    case Lock(t) =>
      var home := s.threads[t].home;
      SetMail(SetPc(s, t, Holding(s.threads[t].pc.c)), home, s.mail[home].(replyId := 0)).(rpcLock := t)
    case Post(t) =>
      var c := s.threads[t].pc.c;
      if s.mail[c.target].pending != 0 then
        SetPc(s, t, Ready).(rpcLock := NOBODY, outcome := s.outcome[c.id := Refused])
      else
        SetMail(SetPc(s, t, Posted(c)), c.target,
                s.mail[c.target].(pending := 1, sender := s.threads[t].home, rpcId := c.id, req := c.req))
    case SeeReply(t) => SetPc(s, t, Answered(s.threads[t].pc.c))
    case TakeResult(t) =>
      SetPc(s, t, Ready).(rpcLock := NOBODY,
                          outcome := s.outcome[s.threads[t].pc.c.id := Returned(s.mail[s.threads[t].home].result)])
    case Timeout(t) =>
      var c := s.threads[t].pc.c;
      var m := s.mail[c.target];
      if m.rpcId == c.id && m.sender == s.threads[t].home && m.pending == 1 then
        SetMail(SetPc(s, t, Ready), c.target, m.(pending := 0, sender := NOBODY))
          .(rpcLock := NOBODY, outcome := s.outcome[c.id := TimedOut])
      else
        SetPc(s, t, Draining(c))
    case Claim(w) =>
      var home := s.workers[w].home;
      var m := s.mail[home];
      SetMail(SetWorker(s, w, Claimed(m.sender, m.rpcId)), home, m.(pending := 2))
    case Fetch(w) =>
      var m := s.mail[s.workers[w].home];
      var pc := s.workers[w].pc;
      if m.pending == 2 && m.sender == pc.sender && m.rpcId == pc.id
      then SetWorker(s, w, Running(pc.sender, pc.id, m.req))
      else SetWorker(s, w, Polling)
    case Execute(w, res) =>
      var pc := s.workers[w].pc;
      SetWorker(s, w, Executed(pc.sender, pc.id, res)).(log := s.log + [Event(pc.id, s.workers[w].home, pc.req, res)])
    case Reply(w) =>
      var home := s.workers[w].home;
      var m := s.mail[home];
      var pc := s.workers[w].pc;
      if m.pending == 2 && m.rpcId == pc.id && m.sender == pc.sender then
        var s1 := SetMail(SetWorker(s, w, Replying(pc.sender, pc.id)), home, m.(pending := 0, sender := NOBODY));
        SetMail(s1, pc.sender, s1.mail[pc.sender].(result := pc.res))
      else SetWorker(s, w, Polling)
    case Publish(w) =>
      var pc := s.workers[w].pc;
      SetMail(SetWorker(s, w, Polling), pc.sender, s.mail[pc.sender].(replyId := pc.id))
  }

  // ---------------------------------------------------------------- the invariant

  predicate HasCall(pc: SenderPc) { !pc.Ready? }
  predicate Locked(pc: SenderPc) { pc.Holding? || pc.Posted? || pc.Draining? || pc.Answered? }
  predicate Waiting(pc: SenderPc) { pc.Posted? || pc.Draining? }

  ghost predicate Logged(log: seq<Event>, id: nat) {
    exists i :: 0 <= i < |log| && log[i].id == id
  }

  /** The log holds exactly one execution of the call: at its target, with its own arguments and this result. */
  ghost predicate RanOnce(log: seq<Event>, c: Call, res: int) {
    && (exists i :: 0 <= i < |log| && log[i] == Event(c.id, c.target, c.req, res))
    && (forall i, j :: 0 <= i < |log| && 0 <= j < |log| && log[i].id == c.id && log[j].id == c.id ==> i == j)
  }

  function CallOf(issued: map<nat, (nat, Call)>, id: nat): Call {
    if id in issued then issued[id].1 else Call(id, 0, 0)
  }

  /** Issued numbers are their calls' own; a refused or timed-out call was never executed, a returned result is the call's own. */
  ghost predicate IdOk(s: State, id: nat) {
    && (id in s.issued ==> 1 <= id <= s.nextId && s.issued[id].1.id == id)
    && (id in s.outcome ==> id in s.issued)
    && (Logged(s.log, id) ==> id in s.issued)
    && (id in s.outcome && !s.outcome[id].Returned? ==> !Logged(s.log, id))
    && (id in s.outcome && s.outcome[id].Returned? ==> RanOnce(s.log, CallOf(s.issued, id), s.outcome[id].res))
  }

  /** The holder of the RPC lock is waiting for call `id` that it, on `sender`, posted to machine x. */
  ghost predicate Serves(s: State, x: nat, sender: int, id: nat)
    requires Shape(s)
  {
    && 0 <= s.rpcLock < |s.threads|
    && var t := s.threads[s.rpcLock]; Waiting(t.pc) && t.home == sender && t.pc.c.id == id && t.pc.c.target == x
  }

  /** A busy slot belongs to the call that the lock holder is waiting for. */
  ghost predicate MailOk(s: State, x: nat)
    requires Shape(s)
  {
    x < |s.mail| ==>
      && s.mail[x].pending <= 2
      && (s.mail[x].pending != 0 ==>
            Serves(s, x, s.mail[x].sender, s.mail[x].rpcId) && s.mail[x].req == CallOf(s.issued, s.mail[x].rpcId).req)
  }

  ghost predicate Busy(s: State, w: nat) { w < |s.workers| && !s.workers[w].pc.Polling? }

  ghost predicate AllPolling(s: State) { forall w :: !Busy(s, w) }

  /** A busy worker serves that same call, and knows how far it has come. */
  ghost predicate WorkerOk(s: State, w: nat)
    requires Shape(s)
  {
    Busy(s, w) ==>
      var pc := s.workers[w].pc;
      var m := s.mail[s.workers[w].home];
      && Serves(s, s.workers[w].home, pc.sender, pc.id) && pc.sender < |s.mail|
      && (!pc.Replying? ==> m.pending == 2 && m.sender == pc.sender && m.rpcId == pc.id)
      && (pc.Claimed? || pc.Running? ==> !Logged(s.log, pc.id))
      && (pc.Running? ==> pc.req == CallOf(s.issued, pc.id).req)
      && (pc.Executed? ==> RanOnce(s.log, CallOf(s.issued, pc.id), pc.res))
      && (pc.Replying? ==> RanOnce(s.log, CallOf(s.issued, pc.id), s.mail[pc.sender].result) && m.pending == 0 && s.mail[pc.sender].replyId != pc.id)
  }

  ghost predicate Alone(s: State, v: nat, w: nat) { Busy(s, v) && Busy(s, w) ==> v == w }

  ghost predicate ThreadOk(s: State, t: nat)
    requires Shape(s)
  {
    t < |s.threads| ==>
      && (Locked(s.threads[t].pc) <==> s.rpcLock == t)
      && (HasCall(s.threads[t].pc) ==> CallerOk(s, t))
      && (s.threads[t].pc.Numbered? ==> !Logged(s.log, s.threads[t].pc.c.id))
      && (Locked(s.threads[t].pc) ==> HolderOk(s, t))
  }

  ghost predicate CallerOk(s: State, t: nat)
    requires Shape(s) && t < |s.threads| && HasCall(s.threads[t].pc)
  {
    var c := s.threads[t].pc.c;
    && 1 <= c.id <= s.nextId && c.target < |s.mail| && c.target != s.threads[t].home
    && c.id in s.issued && s.issued[c.id] == (t, c) && c.id !in s.outcome
  }

  /** Where the call of the lock holder stands: unposted, posted, claimed, replying, or answered. */
  ghost predicate HolderOk(s: State, t: nat)
    requires Shape(s) && t < |s.threads| && Locked(s.threads[t].pc)
  {
    var c := s.threads[t].pc.c;
    var home := s.threads[t].home;
    var pc := s.threads[t].pc;
    && c.target < |s.mail|
    && (pc.Holding? ==> !Logged(s.log, c.id) && s.mail[home].replyId == 0)
    && (Waiting(pc) && s.mail[c.target].pending == 1 ==> !Logged(s.log, c.id) && s.mail[home].replyId == 0 && AllPolling(s) && pc.Posted?)
    && (Waiting(pc) && s.mail[c.target].pending == 2 ==> s.mail[home].replyId == 0 && !AllPolling(s))
    && (Waiting(pc) && s.mail[c.target].pending == 0 && AllPolling(s) ==> s.mail[home].replyId == c.id)
    && (Waiting(pc) && s.mail[home].replyId != 0 ==> s.mail[home].replyId == c.id && s.mail[c.target].pending == 0 && AllPolling(s))
    && (s.mail[home].replyId == c.id || pc.Answered? ==> RanOnce(s.log, c, s.mail[home].result))
    && (pc.Answered? || pc.Holding? ==> AllPolling(s))
  }

  ghost predicate Inv(s: State) {
    && Shape(s)
    && (forall id :: IdOk(s, id))
    && (forall x :: MailOk(s, x))
    && (forall w :: WorkerOk(s, w))
    && (forall v, w :: Alone(s, v, w))
    && (forall t :: ThreadOk(s, t))
  }

  ghost predicate Init(s: State) {
    && Shape(s) && s.rpcLock == NOBODY && s.issued == map[] && s.outcome == map[] && s.log == []
    && (forall x :: 0 <= x < |s.mail| ==> s.mail[x].pending == 0)
    && (forall t :: 0 <= t < |s.threads| ==> s.threads[t].pc.Ready?)
    && (forall w :: 0 <= w < |s.workers| ==> s.workers[w].pc.Polling?)
  }

  lemma InitInv(s: State)
    requires Init(s)
    ensures Inv(s)
  {
  }
}
