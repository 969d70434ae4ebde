/**
  What happens to the DRAM frame a promoted page came from.  A page is tracked for one life (its
  cxl_sequence); at the end of the life the frame is either named by the PMO again or freed by its
  owner through a FREE_ORIGIN call.  Any number of pages, calls and reused frames are interleaved.
 */
module OriginRelease {
  import opened Lifecycle

  type Pid = nat
  type Fid = nat
  type Seq = nat
  type Jid = nat

  datatype Release = NotReleased | Releasing | Released

  /** Reclaim fields of a CXL page; `holder` names the call that holds a FREEING page. */
  datatype Rec = Rec(state: PageState, life: Seq, origin: Fid, rel: Release, freeReq: bool, holder: Jid)

  /** A DRAM frame: in ordinary use, kept as the origin of a life, or free. */
  datatype Frame = InUse | Held(life: Seq) | Free

  /** One page of a FREE_ORIGIN call: a snapshot of the page, and how far the handler has come. */
  datatype Job = Job(page: Pid, life: Seq, origin: Fid, stage: Stage)
  datatype Stage = Sent | Validated | Won | Freed | Done | Answered(ok: bool)

  /** History of one life: how often its frame was freed and handed back; over when the CXL frame is returned. */
  datatype Life = Life(page: Pid, origin: Fid, freed: nat, back: nat, over: bool)

  datatype State = State(pages: map<Pid, Rec>, frames: map<Fid, Frame>, jobs: map<Jid, Job>, lives: map<Seq, Life>)

  datatype Action =
    | Track(p: Pid, f: Fid, q: Seq)
    | FreePage(p: Pid)
    | Demote(p: Pid)
    | Restore(p: Pid)
    | Finish(p: Pid, j: Jid)
    | Claim(p: Pid, j: Jid)
    | Validate(j: Jid)
    | Refuse(j: Jid)
    | Cas(j: Jid)
    | Kfree(j: Jid)
    | Store(j: Jid)
    | Answer(j: Jid, good: bool)
    | Conclude(j: Jid)
    | AllocDram(f: Fid)
    | FreeDram(f: Fid)

  ghost predicate Enabled(s: State, a: Action) {
    match a
    case Track(p, f, q) => p in s.pages && s.pages[p].state.None? && f in s.frames && s.frames[f].InUse? && q !in s.lives
    case FreePage(p) => p in s.pages && !s.pages[p].state.None?
    case Demote(p) => p in s.pages && s.pages[p].state.Resident?
    case Restore(p) => p in s.pages && s.pages[p].state.Demoting?
    case Finish(p, j) => p in s.pages && s.pages[p].state.Demoting? && s.pages[p].origin in s.frames && s.pages[p].life in s.lives && j !in s.jobs
    case Claim(p, j) => p in s.pages && s.pages[p].state.FreePending? && j !in s.jobs
    case Validate(j) => AtStage(s, j, Sent)
    case Refuse(j) => AtStage(s, j, Sent) || AtStage(s, j, Validated)
    case Cas(j) => AtStage(s, j, Validated)
    case Kfree(j) => AtStage(s, j, Won) && s.jobs[j].origin in s.frames && s.jobs[j].life in s.lives
    case Store(j) => AtStage(s, j, Freed)
    case Answer(j, _) => AtStage(s, j, Done)
    case Conclude(j) => j in s.jobs && s.jobs[j].stage.Answered? && s.jobs[j].page in s.pages && s.pages[s.jobs[j].page].life in s.lives
    case AllocDram(f) => f in s.frames && s.frames[f].Free?
    case FreeDram(f) => f in s.frames && s.frames[f].InUse?
  }

  ghost predicate AtStage(s: State, j: Jid, stage: Stage) {
    j in s.jobs && s.jobs[j].stage == stage && s.jobs[j].page in s.pages
  }

  /** operation_matches_page for a FREE_ORIGIN call. */
  ghost predicate Matches(r: Rec, job: Job) {
    r.life == job.life && r.origin == job.origin && (r.state.FreePending? || r.state.Freeing?)
  }

  ghost function At(s: State, j: Jid, stage: Stage): State
    requires j in s.jobs
  {
    s.(jobs := s.jobs[j := s.jobs[j].(stage := stage)])
  }

  ghost function Put(s: State, p: Pid, r: Rec): State { s.(pages := s.pages[p := r]) }

  ghost function Do(s: State, a: Action): State
    requires Enabled(s, a)
  {
    match a
    case Track(p, f, q) =>
      s.(pages := s.pages[p := Rec(Resident, q, f, NotReleased, false, 0)],
         frames := s.frames[f := Held(q)], lives := s.lives[q := Life(p, f, 0, 0, false)])
    case FreePage(p) =>
      var r := s.pages[p];
      if r.state.Demoting? then Put(s, p, r.(freeReq := true))
      else if r.state.Resident? then Put(s, p, r.(state := FreePending))
      else s
    case Demote(p) => Put(s, p, s.pages[p].(state := Demoting))
    case Restore(p) => Put(s, p, s.pages[p].(state := Resident))
    case Finish(p, j) =>
      var r := s.pages[p];
      if r.freeReq then
        s.(pages := s.pages[p := r.(state := Freeing, holder := j)], jobs := s.jobs[j := Job(p, r.life, r.origin, Sent)])
      else
        var l := s.lives[r.life];
        s.(pages := s.pages[p := r.(state := None)], frames := s.frames[r.origin := InUse],
           lives := s.lives[r.life := l.(back := l.back + 1, over := true)])
    case Claim(p, j) =>
      var r := s.pages[p];
      s.(pages := s.pages[p := r.(state := Freeing, holder := j)], jobs := s.jobs[j := Job(p, r.life, r.origin, Sent)])
    case Validate(j) =>
      At(s, j, if Matches(s.pages[s.jobs[j].page], s.jobs[j]) then Validated else Answered(false))
    case Refuse(j) => At(s, j, Answered(false))
    case Cas(j) =>
      var r := s.pages[s.jobs[j].page];
      (match r.rel
       case NotReleased => At(Put(s, s.jobs[j].page, r.(rel := Releasing)), j, Won)
       case Releasing => At(s, j, Answered(false))
       case Released => At(s, j, Done))
    case Kfree(j) =>
      var job := s.jobs[j];
      var l := s.lives[job.life];
      At(s.(frames := s.frames[job.origin := Free], lives := s.lives[job.life := l.(freed := l.freed + 1)]), j, Freed)
    case Store(j) => At(Put(s, s.jobs[j].page, s.pages[s.jobs[j].page].(rel := Released)), j, Done)
    case Answer(j, good) => At(s, j, Answered(good))
    case Conclude(j) =>
      var p := s.jobs[j].page;
      var r := s.pages[p];
      var t := s.(jobs := s.jobs - {j});
      if r.rel.Released? || s.jobs[j].stage.ok then
        // finalize_cxl_page_free, which tests again
        if (r.state.FreePending? || r.state.Freeing?) && r.rel.Released? then
          t.(pages := s.pages[p := r.(state := None)], lives := s.lives[r.life := s.lives[r.life].(over := true)])
        else t
      else
        // defer_origin_release
        if r.state.Freeing? then Put(t, p, r.(state := FreePending)) else t
    case AllocDram(f) => s.(frames := s.frames[f := InUse])
    case FreeDram(f) => s.(frames := s.frames[f := Free])
  }

  // ------------------------------------------------------------------ invariant

  /** A tracked page belongs to a running life and, unless a call holds it, still owns its frame. */
  ghost predicate PageOk(s: State, p: Pid) {
    p in s.pages && !s.pages[p].state.None? ==>
      var r := s.pages[p];
      && r.life in s.lives && s.lives[r.life].page == p && s.lives[r.life].origin == r.origin && !s.lives[r.life].over
      && (!r.state.Freeing? ==> r.rel.NotReleased?)
      && (r.state.Freeing? ==> r.holder in s.jobs && s.jobs[r.holder].page == p)
  }

  /** A call works on a FREEING page that names it as its holder, and knows its release state. */
  ghost predicate JobOk(s: State, j: Jid) {
    j in s.jobs ==>
      var job := s.jobs[j];
      && job.page in s.pages
      && var r := s.pages[job.page];
      && r.state.Freeing? && r.holder == j && r.life == job.life && r.origin == job.origin
      && (match job.stage
          case Sent => r.rel.NotReleased?
          case Validated => r.rel.NotReleased?
          case Won => r.rel.Releasing?
          case Freed => r.rel.Releasing?
          case Done => r.rel.Released?
          case Answered(ok) => r.rel.Released? || (r.rel.NotReleased? && !ok))
  }

  /** Whether the frame of a running life has been freed, from its page's release state and holder. */
  ghost predicate Spent(s: State, r: Rec) {
    r.rel.Released? || (r.rel.Releasing? && r.holder in s.jobs && s.jobs[r.holder].stage.Freed?)
  }

  ghost predicate LifeOk(s: State, q: Seq) {
    q in s.lives ==>
      var l := s.lives[q];
      && (l.over ==> l.freed + l.back == 1)
      && (!l.over ==>
            && l.page in s.pages && !s.pages[l.page].state.None? && s.pages[l.page].life == q
            && l.back == 0 && l.freed == (if Spent(s, s.pages[l.page]) then 1 else 0)
            && l.origin in s.frames && (l.freed == 0 ==> s.frames[l.origin] == Held(q)))
  }

  /** A kept frame is the origin of a running life that has not spent it. */
  ghost predicate FrameOk(s: State, f: Fid) {
    f in s.frames && s.frames[f].Held? ==>
      var q := s.frames[f].life;
      q in s.lives && !s.lives[q].over && s.lives[q].origin == f && s.lives[q].freed == 0
  }

  ghost predicate Inv(s: State) {
    && (forall p :: PageOk(s, p))
    && (forall j :: JobOk(s, j))
    && (forall q :: LifeOk(s, q))
    && (forall f :: FrameOk(s, f))
  }

  ghost predicate Init(s: State) {
    && (forall p :: p in s.pages ==> s.pages[p].state.None?)
    && (forall f :: f in s.frames ==> !s.frames[f].Held?)
    && s.jobs == map[] && s.lives == map[]
  }

  /** Steps that only change one page's lifecycle state outside FREEING. */
  lemma PageStepInv(s: State, a: Action)
    requires Inv(s) && Enabled(s, a) && (a.FreePage? || a.Demote? || a.Restore?)
    ensures Inv(Do(s, a))
  {
    var t := Do(s, a);
    assert PageOk(s, a.p);
    forall p ensures PageOk(t, p) { assert PageOk(s, p); }
    forall j ensures JobOk(t, j) { assert JobOk(s, j); }
    forall q ensures LifeOk(t, q) { assert LifeOk(s, q); }
    forall f ensures FrameOk(t, f) { assert FrameOk(s, f); }
  }

  lemma TrackInv(s: State, p: Pid, f: Fid, q: Seq)
    requires Inv(s) && Enabled(s, Track(p, f, q))
    ensures Inv(Do(s, Track(p, f, q)))
  {
    var t := Do(s, Track(p, f, q));
    forall x ensures PageOk(t, x) { assert PageOk(s, x); }
    forall j ensures JobOk(t, j) { assert JobOk(s, j); }
    forall x ensures LifeOk(t, x) { assert LifeOk(s, x) && (x in s.lives ==> PageOk(s, s.lives[x].page)); }
    forall x ensures FrameOk(t, x) { assert FrameOk(s, x); }
  }

  /** A page goes to the free path with a new call holding it. */
  lemma HoldInv(s: State, a: Action)
    requires Inv(s) && Enabled(s, a) && (a.Claim? || (a.Finish? && s.pages[a.p].freeReq))
    ensures Inv(Do(s, a))
  {
    var t := Do(s, a);
    assert PageOk(s, a.p) && JobOk(t, a.j);
    forall x ensures PageOk(t, x) { assert PageOk(s, x); }
    forall x ensures JobOk(t, x) { assert JobOk(s, x); }
    forall x ensures LifeOk(t, x) { assert LifeOk(s, x) && (x in s.lives ==> PageOk(s, s.lives[x].page)); }
    forall x ensures FrameOk(t, x) { assert FrameOk(s, x); }
  }

  lemma HandBackInv(s: State, p: Pid, j: Jid)
    requires Inv(s) && Enabled(s, Finish(p, j)) && !s.pages[p].freeReq
    ensures Inv(Do(s, Finish(p, j)))
  {
    var t := Do(s, Finish(p, j));
    var r := s.pages[p];
    assert PageOk(s, p) && LifeOk(s, r.life) && !Spent(s, r);
    forall x ensures PageOk(t, x) { assert PageOk(s, x); }
    forall x ensures JobOk(t, x) { assert JobOk(s, x); }
    forall x ensures LifeOk(t, x) { assert LifeOk(s, x) && (x in s.lives ==> PageOk(s, s.lives[x].page)); }
    forall x ensures FrameOk(t, x) { assert FrameOk(s, x); }
  }

  /** Handler steps that move neither a frame nor a history. */
  lemma HandlerInv(s: State, a: Action)
    requires Inv(s) && Enabled(s, a) && (a.Validate? || a.Refuse? || a.Cas? || a.Store? || a.Answer?)
    ensures Inv(Do(s, a))
  {
    var t := Do(s, a);
    assert JobOk(s, a.j) && PageOk(s, s.jobs[a.j].page);
    forall x ensures PageOk(t, x) { assert PageOk(s, x); }
    forall x ensures JobOk(t, x) { assert JobOk(s, x); }
    forall x ensures LifeOk(t, x) { assert LifeOk(s, x) && (x in s.lives ==> PageOk(s, s.lives[x].page)); }
    forall x ensures FrameOk(t, x) { assert FrameOk(s, x); }
  }

  /** The frame about to be freed is still kept for exactly this life. */
  lemma FreesOwnFrame(s: State, j: Jid)
    requires Inv(s) && j in s.jobs && s.jobs[j].stage.Won?
    ensures s.jobs[j].origin in s.frames && s.frames[s.jobs[j].origin] == Held(s.jobs[j].life)
    ensures s.jobs[j].life in s.lives && s.lives[s.jobs[j].life].freed == 0
  {
    assert JobOk(s, j) && PageOk(s, s.jobs[j].page) && LifeOk(s, s.jobs[j].life);
  }

  lemma KfreeInv(s: State, j: Jid)
    requires Inv(s) && Enabled(s, Kfree(j))
    ensures Inv(Do(s, Kfree(j)))
  {
    var t := Do(s, Kfree(j));
    FreesOwnFrame(s, j);
    assert JobOk(s, j) && PageOk(s, s.jobs[j].page) && LifeOk(s, s.jobs[j].life);
    forall x ensures PageOk(t, x) { assert PageOk(s, x); }
    forall x ensures JobOk(t, x) { assert JobOk(s, x); }
    forall x ensures LifeOk(t, x) { assert LifeOk(s, x) && (x in s.lives ==> PageOk(s, s.lives[x].page)); }
    forall x ensures FrameOk(t, x) { assert FrameOk(s, x); }
  }

  lemma ConcludeInv(s: State, j: Jid)
    requires Inv(s) && Enabled(s, Conclude(j))
    ensures Inv(Do(s, Conclude(j)))
  {
    var t := Do(s, Conclude(j));
    assert JobOk(s, j) && PageOk(s, s.jobs[j].page) && LifeOk(s, s.jobs[j].life);
    forall x ensures PageOk(t, x) { assert PageOk(s, x); }
    forall x ensures JobOk(t, x) { assert JobOk(s, x); }
    forall x ensures LifeOk(t, x) { assert LifeOk(s, x) && (x in s.lives ==> PageOk(s, s.lives[x].page)); }
    forall x ensures FrameOk(t, x) { assert FrameOk(s, x); }
  }

  lemma DramInv(s: State, a: Action)
    requires Inv(s) && Enabled(s, a) && (a.AllocDram? || a.FreeDram?)
    ensures Inv(Do(s, a))
  {
    var t := Do(s, a);
    forall x ensures PageOk(t, x) { assert PageOk(s, x); }
    forall x ensures JobOk(t, x) { assert JobOk(s, x); }
    forall x ensures LifeOk(t, x) { assert LifeOk(s, x) && (x in s.lives ==> PageOk(s, s.lives[x].page)); }
    forall x ensures FrameOk(t, x) { assert FrameOk(s, x); }
  }

  lemma StepInv(s: State, a: Action)
    requires Inv(s) && Enabled(s, a)
    ensures Inv(Do(s, a))
  {
    match a
    case Track(p, f, q) => TrackInv(s, p, f, q);
    case FreePage(_) => PageStepInv(s, a);
    case Demote(_) => PageStepInv(s, a);
    case Restore(_) => PageStepInv(s, a);
    case Finish(p, j) => if s.pages[p].freeReq { HoldInv(s, a); } else { HandBackInv(s, p, j); }
    case Claim(_, _) => HoldInv(s, a);
    case Validate(_) => HandlerInv(s, a);
    case Refuse(_) => HandlerInv(s, a);
    case Cas(_) => HandlerInv(s, a);
    case Kfree(j) => KfreeInv(s, j);
    case Store(_) => HandlerInv(s, a);
    case Answer(_, _) => HandlerInv(s, a);
    case Conclude(j) => ConcludeInv(s, j);
    case AllocDram(_) => DramInv(s, a);
    case FreeDram(_) => DramInv(s, a);
  }

  ghost predicate Reaches(s: State, acts: seq<Action>, t: State)
    decreases |acts|
  {
    if acts == [] then s == t
    else Enabled(s, acts[0]) && Reaches(Do(s, acts[0]), acts[1..], t)
  }

  lemma {:induction false} RunInv(s: State, acts: seq<Action>, t: State)
    requires Inv(s) && Reaches(s, acts, t)
    ensures Inv(t)
    decreases |acts|
  {
    if acts != [] {
      StepInv(s, acts[0]);
      RunInv(Do(s, acts[0]), acts[1..], t);
    }
  }

  lemma InitInv(s: State)
    requires Init(s)
    ensures Inv(s)
  {
  }

  // ------------------------------------------------------------------ theorems

  /**
    In every run a life's frame is freed or handed back at most once in total, and exactly once by
    the time the CXL frame has gone back to its allocator.
   */
  lemma {:induction false} FrameEndsOnce(s0: State, acts: seq<Action>, s: State, q: Seq)
    requires Init(s0) && Reaches(s0, acts, s) && q in s.lives
    ensures s.lives[q].freed + s.lives[q].back <= 1
    ensures s.lives[q].over ==> s.lives[q].freed + s.lives[q].back == 1
  {
    InitInv(s0);
    RunInv(s0, acts, s);
    assert LifeOk(s, q);
  }

  /** No run frees a frame that was handed back, freed before, or is by now in somebody else's use. */
  lemma {:induction false} FreeIsOfKeptFrame(s0: State, acts: seq<Action>, s: State, j: Jid)
    requires Init(s0) && Reaches(s0, acts, s) && Enabled(s, Kfree(j))
    ensures s.frames[s.jobs[j].origin] == Held(s.jobs[j].life)
  {
    InitInv(s0);
    RunInv(s0, acts, s);
    FreesOwnFrame(s, j);
  }

  /** A frame handed back to the PMO is one that this life still keeps. */
  lemma {:induction false} HandBackIsOfKeptFrame(s0: State, acts: seq<Action>, s: State, p: Pid, j: Jid)
    requires Init(s0) && Reaches(s0, acts, s) && Enabled(s, Finish(p, j))
    ensures s.frames[s.pages[p].origin] == Held(s.pages[p].life)
  {
    InitInv(s0);
    RunInv(s0, acts, s);
    assert PageOk(s, p) && LifeOk(s, s.pages[p].life) && !Spent(s, s.pages[p]);
  }

  /** When a call ends a life, the origin was RELEASED and freed; when it does not, the page is parked again. */
  lemma {:induction false} ReturnedAfterRelease(s0: State, acts: seq<Action>, s: State, j: Jid)
    requires Init(s0) && Reaches(s0, acts, s) && Enabled(s, Conclude(j))
    ensures var p := s.jobs[j].page; var t := Do(s, Conclude(j));
            if s.pages[p].rel.Released? then t.pages[p].state.None? && t.lives[s.pages[p].life].over && t.lives[s.pages[p].life].freed == 1
            else t.pages[p].state.FreePending? && t.pages[p].rel.NotReleased? && !t.lives[s.pages[p].life].over
  {
    InitInv(s0);
    RunInv(s0, acts, s);
    assert JobOk(s, j) && PageOk(s, s.jobs[j].page) && LifeOk(s, s.jobs[j].life);
  }

  /** At most one call holds a page, so the handler never finds RELEASING and a page is never stuck in FREEING. */
  lemma {:induction false} OneCallPerPage(s0: State, acts: seq<Action>, s: State)
    requires Init(s0) && Reaches(s0, acts, s)
    ensures forall i, j :: i in s.jobs && j in s.jobs && s.jobs[i].page == s.jobs[j].page ==> i == j
    ensures forall j :: AtStage(s, j, Validated) ==> s.pages[s.jobs[j].page].rel.NotReleased?
    ensures forall p :: p in s.pages && s.pages[p].state.Freeing? ==> s.pages[p].holder in s.jobs && s.jobs[s.pages[p].holder].page == p
  {
    InitInv(s0);
    RunInv(s0, acts, s);
    forall i, j | i in s.jobs && j in s.jobs && s.jobs[i].page == s.jobs[j].page ensures i == j { assert JobOk(s, i) && JobOk(s, j); }
    forall j | AtStage(s, j, Validated) ensures s.pages[s.jobs[j].page].rel.NotReleased? { assert JobOk(s, j); }
    forall p | p in s.pages && s.pages[p].state.Freeing? ensures s.pages[p].holder in s.jobs && s.jobs[s.pages[p].holder].page == p { assert PageOk(s, p); }
  }

  /** No frame is lost: one that is kept belongs to a page that is still tracked for that life. */
  lemma {:induction false} KeptFrameIsTracked(s0: State, acts: seq<Action>, s: State, f: Fid)
    requires Init(s0) && Reaches(s0, acts, s) && f in s.frames && s.frames[f].Held?
    ensures s.frames[f].life in s.lives
    ensures var p := s.lives[s.frames[f].life].page;
            p in s.pages && !s.pages[p].state.None? && s.pages[p].life == s.frames[f].life && s.pages[p].origin == f
  {
    InitInv(s0);
    RunInv(s0, acts, s);
    assert FrameOk(s, f) && LifeOk(s, s.frames[f].life);
    assert PageOk(s, s.lives[s.frames[f].life].page);
  }

  // ------------------------------------------------------------------ a release and a hand-back go through

  ghost predicate Leads(s: State, t: State) { exists acts :: Reaches(s, acts, t) }

  lemma Stays(s: State)
    ensures Leads(s, s)
  {
    assert Reaches(s, [], s);
  }

  lemma First(s: State, a: Action, t: State)
    requires Enabled(s, a) && Leads(Do(s, a), t)
    ensures Leads(s, t)
  {
    var acts :| Reaches(Do(s, a), acts, t);
    assert ([a] + acts)[0] == a && ([a] + acts)[1..] == acts;
    assert Reaches(s, [a] + acts, t);
  }

  /** A pending page that still owns its frame. */
  ghost predicate Releasable(s: State, p: Pid, j: Jid) {
    && Enabled(s, Claim(p, j)) && s.pages[p].rel.NotReleased?
    && s.pages[p].origin in s.frames && s.pages[p].life in s.lives && s.lives[s.pages[p].life].freed == 0
  }

  /** The call is sent and its handler wins the page. */
  ghost function WonState(s: State, p: Pid, j: Jid): (t: State)
    requires Releasable(s, p, j)
    ensures t == s.(pages := s.pages[p := s.pages[p].(state := Freeing, holder := j, rel := Releasing)],
                    jobs := s.jobs[j := Job(p, s.pages[p].life, s.pages[p].origin, Won)])
  {
    Do(Do(Do(s, Claim(p, j)), Validate(j)), Cas(j))
  }

  lemma RunToWon(s: State, p: Pid, j: Jid, t: State)
    requires Releasable(s, p, j) && Leads(WonState(s, p, j), t)
    ensures Leads(s, t)
  {
    var s1 := Do(s, Claim(p, j));
    First(Do(s1, Validate(j)), Cas(j), t);
    First(s1, Validate(j), t);
    First(s, Claim(p, j), t);
  }

  /** It frees the frame and says so. */
  ghost function AnsweredState(s: State, p: Pid, j: Jid): (t: State)
    requires Releasable(s, p, j)
    ensures t == s.(pages := s.pages[p := s.pages[p].(state := Freeing, holder := j, rel := Released)],
                    jobs := s.jobs[j := Job(p, s.pages[p].life, s.pages[p].origin, Answered(true))],
                    frames := s.frames[s.pages[p].origin := Free],
                    lives := s.lives[s.pages[p].life := s.lives[s.pages[p].life].(freed := 1)])
  {
    Do(Do(Do(WonState(s, p, j), Kfree(j)), Store(j)), Answer(j, true))
  }

  /** The call ends the life. */
  ghost function OverState(s: State, p: Pid, j: Jid): (t: State)
    requires Releasable(s, p, j)
    ensures p in t.pages && t.pages[p].state.None? && t.jobs == s.jobs && t.frames == s.frames[s.pages[p].origin := Free]
    ensures t.lives == s.lives[s.pages[p].life := s.lives[s.pages[p].life].(freed := 1, over := true)]
  {
    var t := Do(AnsweredState(s, p, j), Conclude(j));
    assert t.jobs == s.jobs;
    t
  }

  lemma RunToOver(s: State, p: Pid, j: Jid)
    requires Releasable(s, p, j)
    ensures Leads(WonState(s, p, j), OverState(s, p, j))
  {
    var s1, t := WonState(s, p, j), OverState(s, p, j);
    var s2 := Do(s1, Kfree(j));
    var s3 := Do(s2, Store(j));
    Stays(t);
    First(AnsweredState(s, p, j), Conclude(j), t);
    First(s3, Answer(j, true), t);
    First(s2, Store(j), t);
    First(s1, Kfree(j), t);
  }

  /** A pending page whose owner answers: the origin is freed, once, and the life is over. */
  lemma ReleaseGoesThrough(s: State, p: Pid, j: Jid) returns (t: State)
    requires Inv(s) && Enabled(s, Claim(p, j))
    ensures Leads(s, t) && p in t.pages && t.pages[p].state.None? && t.jobs == s.jobs
    ensures t.frames == s.frames[s.pages[p].origin := Free]
    ensures s.pages[p].life in s.lives && t.lives == s.lives[s.pages[p].life := s.lives[s.pages[p].life].(freed := 1, over := true)]
  {
    assert PageOk(s, p) && LifeOk(s, s.pages[p].life) && !Spent(s, s.pages[p]);
    t := OverState(s, p, j);
    RunToOver(s, p, j);
    RunToWon(s, p, j, t);
  }

  /** A demotion that nobody interrupts hands the origin back, once, and the life is over. */
  lemma HandBackGoesThrough(s: State, p: Pid, j: Jid) returns (t: State)
    requires Inv(s) && Enabled(s, Demote(p)) && !s.pages[p].freeReq && j !in s.jobs
    ensures Leads(s, t) && p in t.pages && t.pages[p].state.None? && t.jobs == s.jobs
    ensures t.frames == s.frames[s.pages[p].origin := InUse]
    ensures s.pages[p].life in s.lives && t.lives == s.lives[s.pages[p].life := s.lives[s.pages[p].life].(back := 1, over := true)]
  {
    var r := s.pages[p];
    assert PageOk(s, p) && LifeOk(s, r.life) && !Spent(s, r);
    var s1 := Do(s, Demote(p));
    t := Do(s1, Finish(p, j));
    Stays(t);
    First(s1, Finish(p, j), t);
    First(s, Demote(p), t);
  }

  /** Freeing a tracked resident page ends with its origin freed. */
  lemma FreeGoesThrough(s: State, p: Pid, j: Jid) returns (t: State)
    requires Inv(s) && Enabled(s, FreePage(p)) && s.pages[p].state.Resident? && j !in s.jobs
    ensures Leads(s, t) && p in t.pages && t.pages[p].state.None? && t.frames == s.frames[s.pages[p].origin := Free]
  {
    StepInv(s, FreePage(p));
    t := ReleaseGoesThrough(Do(s, FreePage(p)), p, j);
    First(s, FreePage(p), t);
  }

  /** A demotion that is given up leaves everything as it was; a free that came meanwhile stays noted. */
  lemma RestoreUndoesDemote(s: State, p: Pid)
    requires Enabled(s, Demote(p))
    ensures var s1 := Do(s, Demote(p)); Enabled(s1, Restore(p)) && Do(s1, Restore(p)) == s
    ensures
      var s1 := Do(Do(s, Demote(p)), FreePage(p));
      Enabled(s1, Restore(p)) && Do(s1, Restore(p)) == s.(pages := s.pages[p := s.pages[p].(freeReq := true)])
  {
    assert s.pages == s.pages[p := s.pages[p]];
  }

}
