/**
  One round of the reclaim worker: select, age, claim, prepare, flush, copy and finish a batch of
  candidates held in one array that is compacted in place.  Every outcome the worker does not control
  is an input of the round, and frees by other threads arrive between critical sections.
 */
module ReclaimRound {
  import opened Lifecycle

  const MAX_BATCH: nat := 64
  const MAX_ALIASES: nat := 16
  const RATE_BATCH: nat := 4
  const SCAN_LIMIT: nat := 512
  const EAGAIN := -11

  type Pid = nat
  type Obj = nat

  datatype Meta = Meta(state: PageState, scanning: bool, freeReq: bool)

  datatype Alias = Alias(vm: Obj, locked: bool)
  datatype Cand = Cand(page: Pid, pmo: Obj, pinned: bool, aliases: seq<Alias>, prepared: bool)

  /** Something taken that must be given back: a PMO reference, a vmspace reference, a vmspace read lock. */
  datatype Token = PmoPin(o: Obj) | VmPin(o: Obj) | ReadLock(o: Obj)
  type Bag = multiset<Token>

  // ------------------------------------------------------------------ what the worker does not decide

  /** One preparation of a page: the vmspaces that map it, how many of them can be pinned, whether the policy allows
      it, how many pass the checks under their lock, and whether any mapping is left. */
  datatype Attempt = Attempt(vms: seq<Obj>, alive: nat, allowed: bool, checked: nat, present: bool)

  predicate Pins(a: Attempt) { |a.vms| <= MAX_ALIASES && |a.vms| <= a.alive }

  predicate Prepares(a: Attempt) { a.vms != [] && Pins(a) && a.allowed && |a.vms| <= a.checked }

  /** How a page fares: its PMO, whether it may be selected, is mature, can be aged, is found cold with the PMO still naming it,
      can be prepared for demotion, and whether the release of its origin succeeds at once. */
  datatype Fate = Fate(pmo: Obj, selectable: bool, mature: bool, aging: Attempt, cold: bool, demotion: Attempt, released: bool)

  type World = Pid -> Fate

  predicate Ages(f: Fate) { f.mature && Prepares(f.aging) && f.aging.present }

  predicate Choosable(pages: map<Pid, Meta>, p: Pid) { p in pages && pages[p].state.Resident? && !pages[p].scanning }

  /** The pages of a set that come through a test. */
  ghost function Passing(all: set<Pid>, w: World, test: Fate -> bool): set<Pid> { set p | p in all && test(w(p)) }

  ghost function Selectable(): Fate -> bool { (f: Fate) => f.selectable }
  ghost function Aging(): Fate -> bool { (f: Fate) => Ages(f) }
  ghost function Cold(): Fate -> bool { (f: Fate) => f.cold }
  ghost function Preparing(): Fate -> bool { (f: Fate) => Prepares(f.demotion) }

  ghost function Entries(pages: map<Pid, Meta>, hand: seq<Pid>): set<Pid> { set p | p in hand && Choosable(pages, p) }

  // ------------------------------------------------------------------ what a candidate holds

  ghost function LockOf(a: Alias): Bag { if a.locked then multiset{ReadLock(a.vm)} else multiset{} }

  ghost function OneBag(a: Alias): Bag { multiset{VmPin(a.vm)} + LockOf(a) }

  ghost function AliasBag(s: seq<Alias>): Bag {
    if s == [] then multiset{} else OneBag(s[0]) + AliasBag(s[1..])
  }

  ghost function PmoBag(c: Cand): Bag { if c.pinned then multiset{PmoPin(c.pmo)} else multiset{} }

  ghost function CandBag(c: Cand): Bag { PmoBag(c) + AliasBag(c.aliases) }

  lemma BareBag(c: Cand)
    requires c.aliases == []
    ensures CandBag(c) == PmoBag(c)
  {
  }

  lemma Swap(a: Bag, b: Bag, c: Bag)
    ensures a + (b + c) == b + (a + c)
  {
  }

  lemma Out(a: Bag, b: Bag, c: Bag)
    ensures a + (b + c) == (a + c) + b
  {
  }

  /** An alias whose lock is taken. */
  lemma {:induction false} AliasBagLock(s: seq<Alias>, i: nat)
    requires i < |s| && !s[i].locked
    ensures AliasBag(s[i := s[i].(locked := true)]) == multiset{ReadLock(s[i].vm)} + AliasBag(s)
  {
    var t, lock := s[i := s[i].(locked := true)], multiset{ReadLock(s[i].vm)};
    if i == 0 {
      assert t[1..] == s[1..];
      assert OneBag(t[0]) == lock + OneBag(s[0]);
    } else {
      calc {
        AliasBag(t);
        { assert t[0] == s[0] && t[1..] == s[1..][i - 1 := s[i].(locked := true)]; }
        OneBag(s[0]) + AliasBag(s[1..][i - 1 := s[1..][i - 1].(locked := true)]);
        { AliasBagLock(s[1..], i - 1); }
        OneBag(s[0]) + (lock + AliasBag(s[1..]));
        { Swap(OneBag(s[0]), lock, AliasBag(s[1..])); }
        lock + AliasBag(s);
      }
    }
  }

  lemma AliasBagUnlock(s: seq<Alias>, i: nat)
    requires i < |s| && s[i].locked
    ensures AliasBag(s) == multiset{ReadLock(s[i].vm)} + AliasBag(s[i := s[i].(locked := false)])
  {
    var t := s[i := s[i].(locked := false)];
    AliasBagLock(t, i);
    assert t[i := t[i].(locked := true)] == s;
  }

  lemma {:induction false} AliasBagAppend(s: seq<Alias>, vm: Obj)
    ensures AliasBag(s + [Alias(vm, false)]) == multiset{VmPin(vm)} + AliasBag(s)
  {
    var a := Alias(vm, false);
    if s == [] {
      assert s + [a] == [a] && [a][1..] == [];
      assert OneBag(a) == multiset{VmPin(vm)};
    } else {
      calc {
        AliasBag(s + [a]);
        { assert (s + [a])[0] == s[0] && (s + [a])[1..] == s[1..] + [a]; }
        OneBag(s[0]) + AliasBag(s[1..] + [a]);
        { AliasBagAppend(s[1..], vm); }
        OneBag(s[0]) + (multiset{VmPin(vm)} + AliasBag(s[1..]));
        { Swap(OneBag(s[0]), multiset{VmPin(vm)}, AliasBag(s[1..])); }
        multiset{VmPin(vm)} + AliasBag(s);
      }
    }
  }

  ghost predicate Unlocked(s: seq<Alias>, i: nat) {
    forall k :: i <= k < |s| ==> !s[k].locked
  }

  // ------------------------------------------------------------------ page marks

  /** Exactly the pages of s are being scanned, exactly those of d are DEMOTING, and none is FREEING. */
  ghost predicate Marks(pages: map<Pid, Meta>, s: set<Pid>, d: set<Pid>) {
    forall p :: PageMarks(pages, s, d, p)
  }

  ghost predicate PageMarks(pages: map<Pid, Meta>, s: set<Pid>, d: set<Pid>, p: Pid) {
    && (p in s <==> p in pages && pages[p].scanning)
    && (p in d <==> p in pages && pages[p].state.Demoting?)
    && (p in pages ==> !pages[p].state.Freeing? && (pages[p].scanning ==> pages[p].state.Resident?))
  }

  lemma MarksSet(pages: map<Pid, Meta>, s: set<Pid>, d: set<Pid>, p: Pid, m: Meta, s': set<Pid>, d': set<Pid>)
    requires Marks(pages, s, d) && p in pages && !m.state.Freeing? && (m.scanning ==> m.state.Resident?)
    requires s' == (if m.scanning then s + {p} else s - {p}) && d' == (if m.state.Demoting? then d + {p} else d - {p})
    ensures Marks(pages[p := m], s', d')
  {
    var now := pages[p := m];
    forall x ensures PageMarks(now, s', d', x) { assert PageMarks(pages, s, d, x); }
  }

  /** dsm_cxl_free_page on one page. */
  function Freed(m: Meta): Meta {
    if m.scanning || m.state.Demoting? then m.(freeReq := true)
    else if m.state.Resident? then m.(state := FreePending)
    else m
  }

  // ------------------------------------------------------------------ where pages go

  /**
    A page that was a when the round began is b now.  A finished one was resident and is untracked, or pending if a
    free was requested; any other is where it was, or being demoted, or pending because a free was requested.  A free
    is noted or has been acted on.
   */
  ghost predicate PageDrift(a: Meta, b: Meta, gone: bool, asked: bool) {
    && !a.state.Demoting?
    && (a.freeReq ==> b.freeReq) && (b.freeReq ==> asked || a.freeReq)
    && (asked && (b.state.Resident? || b.state.Demoting?) ==> b.freeReq && (b.scanning || b.state.Demoting?))
    && (if gone then a.state.Resident? && (b.state.None? || (b.freeReq && b.state.FreePending?))
        else b.state == a.state
             || (a.state.Resident? && (b.state.Demoting? || (b.state.FreePending? && (asked || a.freeReq)))))
  }

  ghost predicate Drift(start: map<Pid, Meta>, pages: map<Pid, Meta>, gone: set<Pid>, asked: set<Pid>) {
    && pages.Keys == start.Keys && gone <= pages.Keys
    && forall p :: p in pages ==> PageDrift(start[p], pages[p], p in gone, p in asked)
  }

  lemma DriftSet(start: map<Pid, Meta>, pages: map<Pid, Meta>, gone: set<Pid>, asked: set<Pid>, p: Pid, m: Meta)
    requires Drift(start, pages, gone, asked) && p in pages && PageDrift(start[p], m, p in gone, p in asked)
    ensures Drift(start, pages[p := m], gone, asked)
  {
  }

  /** A page under demotion was resident when the round began. */
  lemma DriftGone(start: map<Pid, Meta>, pages: map<Pid, Meta>, gone: set<Pid>, asked: set<Pid>, p: Pid, m: Meta)
    requires Drift(start, pages, gone, asked) && p in pages && pages[p].state.Demoting?
    requires m == pages[p].(state := m.state) && (m.state.None? || (m.freeReq && m.state.FreePending?))
    ensures p !in gone && Drift(start, pages[p := m], gone + {p}, asked)
  {
    assert PageDrift(start[p], pages[p], p in gone, p in asked);
  }

  /** The first i candidates are done with, and finished if the batch succeeded. */
  ghost predicate Ended(gone0: set<Pid>, all: set<Pid>, gone: set<Pid>, left: set<Pid>, success: bool, i: nat) {
    && left <= all
    && gone == (if success then gone0 + (all - left) else gone0)
    && |gone| == |gone0| + (if success then i else 0)
  }

  lemma EndedMore(gone0: set<Pid>, all: set<Pid>, gone: set<Pid>, left: set<Pid>, success: bool, i: nat, p: Pid)
    requires Ended(gone0, all, gone, left, success, i) && p in left && p !in gone
    ensures Ended(gone0, all, if success then gone + {p} else gone, left - {p}, success, i + 1)
  {
    assert success ==> gone + {p} == gone0 + (all - (left - {p}));
  }

  lemma EndedAll(gone0: set<Pid>, all: set<Pid>, gone: set<Pid>, success: bool, n: nat)
    requires Ended(gone0, all, gone, {}, success, n)
    ensures gone == (if success then gone0 + all else gone0) && |gone| == |gone0| + (if success then n else 0)
  {
    assert all - {} == all;
  }

  /** What the end of a round means for one page: a resident page that another thread freed meanwhile is untracked or
      pending; one that nobody freed is untracked exactly if the round finished it, and otherwise resident. */
  lemma NoFreeLost(start: map<Pid, Meta>, pages: map<Pid, Meta>, gone: set<Pid>, asked: set<Pid>, p: Pid)
    requires Drift(start, pages, gone, asked) && Marks(pages, {}, {}) && p in pages && start[p].state.Resident?
    ensures p in asked ==> pages[p].state.None? || pages[p].state.FreePending?
    ensures p !in asked && !start[p].freeReq ==> pages[p].state == if p in gone then None else Resident
  {
    assert PageMarks(pages, {}, {}, p);
  }

  // ------------------------------------------------------------------ the batch

  type Ledger = map<Pid, Bag>

  ghost predicate Slot(ledger: Ledger, c: Cand) { c.page in ledger && ledger[c.page] == CandBag(c) }

  /** Candidates 0..kept stay, kept..i are dead copies, i..count are still to come. */
  ghost predicate InPlay(j: nat, kept: nat, i: nat, count: nat) { j < kept || i <= j < count }

  /** The candidates in play are for different pages, hold exactly what the ledger says, and nobody else holds anything. */
  ghost predicate Batch(cs: seq<Cand>, kept: nat, i: nat, count: nat, ledger: Ledger) {
    && kept <= i <= count <= |cs|
    && |ledger| == kept + (count - i)
    && (forall j: nat :: InPlay(j, kept, i, count) ==> Slot(ledger, cs[j]))
    && (forall j: nat, l: nat :: InPlay(j, kept, i, count) && InPlay(l, kept, i, count) && j != l ==> cs[j].page != cs[l].page)
  }

  /** The kept candidates are DEMOTING, those to come are not. */
  ghost predicate Split(cs: seq<Cand>, kept: nat, i: nat, count: nat, d: set<Pid>, ledger: Ledger) {
    && kept <= i <= count <= |cs| && |d| == kept && d <= ledger.Keys
    && (forall j :: 0 <= j < kept ==> cs[j].page in d)
    && (forall j :: i <= j < count ==> cs[j].page !in d)
  }

  /** Candidates i.. hold no vmspace. */
  ghost predicate Bare(cs: seq<Cand>, i: nat, count: nat) {
    count <= |cs| && forall k :: i <= k < count ==> cs[k].aliases == []
  }

  lemma Shorter(l: Ledger, p: Pid)
    requires p in l
    ensures |l - {p}| == |l| - 1
  {
    assert (l - {p}).Keys == l.Keys - {p};
  }

  lemma Skipped(cs: seq<Cand>, kept: nat, i: nat, count: nat, ledger: Ledger)
    requires Batch(cs, kept, i, count, ledger) && i < count
    ensures cs[i].page in ledger && Batch(cs, kept, i + 1, count, ledger - {cs[i].page})
  {
    assert InPlay(i, kept, i, count) && Slot(ledger, cs[i]);
    Shorter(ledger, cs[i].page);
    forall j: nat | InPlay(j, kept, i + 1, count) ensures Slot(ledger - {cs[i].page}, cs[j]) {
      assert InPlay(j, kept, i, count) && Slot(ledger, cs[j]);
    }
  }

  lemma Kept(cs: seq<Cand>, kept: nat, i: nat, count: nat, ledger: Ledger, c: Cand)
    requires Batch(cs, kept, i, count, ledger) && i < count && c.page == cs[i].page
    ensures c.page in ledger && Batch(cs[kept := c], kept + 1, i + 1, count, ledger[c.page := CandBag(c)])
  {
    assert InPlay(i, kept, i, count) && Slot(ledger, cs[i]);
    var now, l := cs[kept := c], ledger[c.page := CandBag(c)];
    assert l.Keys == ledger.Keys;
    forall j: nat | InPlay(j, kept + 1, i + 1, count) ensures Slot(l, now[j]) {
      if j != kept {
        assert InPlay(j, kept, i, count) && Slot(ledger, cs[j]);
      }
    }
    forall j: nat, k: nat | InPlay(j, kept + 1, i + 1, count) && InPlay(k, kept + 1, i + 1, count) && j != k ensures now[j].page != now[k].page {
      assert (j != kept ==> InPlay(j, kept, i, count)) && (k != kept ==> InPlay(k, kept, i, count));
    }
  }

  class Worker {
    const cands: array<Cand>
    var pages: map<Pid, Meta>
    ghost var ledger: Ledger       // what each candidate in play has taken and not given back
    ghost var held: Bag            // the same for the candidate being worked on
    ghost var start: map<Pid, Meta>  // the pages when the round began
    ghost var asked: set<Pid>      // pages that other threads have freed since
    ghost var gone: set<Pid>       // pages whose demotion the round has finished

    constructor (pages: map<Pid, Meta>)
      ensures fresh(cands) && cands.Length == MAX_BATCH && this.pages == pages && ledger == map[] && held == multiset{}
    {
      cands := new Cand[MAX_BATCH](_ => Cand(0, 0, false, [], false));
      this.pages := pages;
      ledger, held := map[], multiset{};
      start, asked, gone := pages, {}, {};
    }

    /** The marks are as said, and every page has come here from where it was when the round began. */
    ghost predicate Keeps(s: set<Pid>, d: set<Pid>)
      reads this
    {
      Marks(pages, s, d) && Drift(start, pages, gone, asked)
    }

    /** Give one thing back: it must have been taken. */
    ghost method Drop(t: Token, rest: Bag)
      requires held == rest + multiset{t}
      modifies this`held
      ensures held == rest
    {
      held := held - multiset{t};
    }

    ghost method Take(t: Token)
      modifies this`held
      ensures held == old(held) + multiset{t}
    {
      held := held + multiset{t};
    }

    /** Other threads free pages in the meantime. */
    method Others(ghost s: set<Pid>, ghost d: set<Pid>)
      requires Keeps(s, d)
      modifies this`pages, this`asked
      ensures Keeps(s, d)
    {
      var freed: set<Pid> := *;
      ghost var before := pages;
      pages := map p | p in pages :: if p in freed then Freed(pages[p]) else pages[p];
      ghost var were := asked;
      asked := asked + freed;
      forall x ensures PageMarks(pages, s, d, x) { assert PageMarks(before, s, d, x); }
      forall x | x in pages ensures PageDrift(start[x], pages[x], x in gone, x in asked) {
        assert PageMarks(before, s, d, x) && PageDrift(start[x], before[x], x in gone, x in were);
      }
    }

    /** dsm_cxl_free_page by the worker itself. */
    method FreePage(p: Pid)
      requires p in pages
      modifies this`pages
      ensures pages == old(pages)[p := Freed(old(pages)[p])]
    {
      pages := pages[p := Freed(pages[p])];
    }

    // ---------------------------------------------------------------- vmspace references and locks

    method DropOne(a: Alias, ghost rest: Bag)
      requires held == rest + OneBag(a)
      modifies this`held
      ensures held == rest
    {
      if a.locked {
        Drop(ReadLock(a.vm), rest + multiset{VmPin(a.vm)});
      }
      Drop(VmPin(a.vm), rest);
    }

    /** release_candidate_aliases */
    method ReleaseAliases(s: seq<Alias>, ghost rest: Bag)
      requires held == rest + AliasBag(s)
      modifies this`held
      ensures held == rest
    {
      var i := 0;
      while i < |s|
        invariant 0 <= i <= |s| && held == rest + AliasBag(s[i..])
      {
        ghost var more := AliasBag(s[i + 1..]);
        assert s[i..][0] == s[i] && s[i..][1..] == s[i + 1..];
        Out(rest, OneBag(s[i]), more);
        DropOne(s[i], rest + more);
        i := i + 1;
      }
      assert s[i..] == [];
    }

    /** snapshot_candidate_aliases: all vmspaces of the page pinned, or none. */
    method Snapshot(a: Attempt, ghost rest: Bag) returns (ok: bool, s: seq<Alias>)
      requires held == rest
      modifies this`held
      ensures held == rest + AliasBag(s) && Unlocked(s, 0)
      ensures ok <==> Pins(a)
      ensures if ok then |s| == |a.vms| else s == []
    {
      s := [];
      var i := 0;
      while i < |a.vms|
        invariant 0 <= i == |s| <= |a.vms| && held == rest + AliasBag(s) && Unlocked(s, 0)
        invariant i <= MAX_ALIASES && i <= a.alive
      {
        if |s| == MAX_ALIASES || i == a.alive {
          ReleaseAliases(s, rest);
          return false, [];
        }
        s := PinOne(s, a.vms[i], rest);
        i := i + 1;
      }
      ok := true;
    }

    method PinOne(s: seq<Alias>, vm: Obj, ghost rest: Bag) returns (t: seq<Alias>)
      requires held == rest + AliasBag(s) && Unlocked(s, 0)
      modifies this`held
      ensures t == s + [Alias(vm, false)] && held == rest + AliasBag(t) && Unlocked(t, 0)
    {
      AliasBagAppend(s, vm);
      Out(rest, multiset{VmPin(vm)}, AliasBag(s));
      Take(VmPin(vm));
      t := s + [Alias(vm, false)];
    }

    /** The read-lock loop of both preparations; a check on the way may fail and release everything. */
    method LockAll(s: seq<Alias>, checked: nat, ghost rest: Bag) returns (ok: bool, t: seq<Alias>)
      requires held == rest + AliasBag(s) && Unlocked(s, 0)
      modifies this`held
      ensures held == rest + AliasBag(t) && (!ok ==> t == []) && (ok <==> |s| <= checked)
    {
      t := s;
      var i := 0;
      while i < |t|
        invariant 0 <= i <= |t| == |s| && held == rest + AliasBag(t) && Unlocked(t, i) && i <= checked
      {
        AliasBagLock(t, i);
        Out(rest, multiset{ReadLock(t[i].vm)}, AliasBag(t));
        Take(ReadLock(t[i].vm));
        t := t[i := t[i].(locked := true)];
        if i == checked {
          ReleaseAliases(t, rest);
          return false, [];
        }
        i := i + 1;
      }
      ok := true;
    }

    method UnlockOne(s: seq<Alias>, i: nat, ghost rest: Bag) returns (t: seq<Alias>)
      requires i < |s| && s[i].locked && held == rest + AliasBag(s)
      modifies this`held
      ensures t == s[i := s[i].(locked := false)] && held == rest + AliasBag(t)
    {
      t := s[i := s[i].(locked := false)];
      AliasBagUnlock(s, i);
      Out(rest, multiset{ReadLock(s[i].vm)}, AliasBag(t));
      Drop(ReadLock(s[i].vm), rest + AliasBag(t));
    }

    /** unlock_candidate_aliases */
    method UnlockAll(s: seq<Alias>, ghost rest: Bag) returns (t: seq<Alias>)
      requires held == rest + AliasBag(s)
      modifies this`held
      ensures held == rest + AliasBag(t) && Unlocked(t, 0)
    {
      t := s;
      var i := 0;
      while i < |t|
        invariant 0 <= i <= |t| && held == rest + AliasBag(t)
        invariant forall k :: 0 <= k < i ==> !t[k].locked
      {
        if t[i].locked {
          t := UnlockOne(t, i, rest);
        }
        i := i + 1;
      }
    }

    /** The common start of both preparations: vmspaces pinned and locked, or none. */
    method Prepare(a: Attempt, ghost rest: Bag) returns (ok: bool, s: seq<Alias>)
      requires held == rest
      modifies this`held
      ensures held == rest + AliasBag(s) && (!ok ==> s == []) && (ok <==> Prepares(a))
    {
      ok, s := Snapshot(a, rest);
      if !ok || s == [] {
        return false, [];
      }
      if !a.allowed {
        ReleaseAliases(s, rest);
        return false, [];
      }
      ok, s := LockAll(s, a.checked, rest);
    }

    /** prepare_candidate_aging: vmspaces pinned but not locked, or none. */
    method PrepareAging(a: Attempt, ghost rest: Bag) returns (ok: bool, s: seq<Alias>)
      requires held == rest
      modifies this`held
      ensures held == rest + AliasBag(s) && (!ok ==> s == []) && (ok <==> Prepares(a) && a.present)
    {
      ok, s := Prepare(a, rest);
      if !ok {
        return;
      }
      if !a.present {
        ReleaseAliases(s, rest);
        return false, [];
      }
      s := UnlockAll(s, rest);
    }

    // ---------------------------------------------------------------- one candidate

    /** release_candidate_aliases and release_candidate_pmo: nothing is held any more. */
    method ReleaseAll(c: Cand)
      requires held == CandBag(c)
      modifies this`held
      ensures held == multiset{}
    {
      ReleaseAliases(c.aliases, PmoBag(c));
      if c.pinned {
        Drop(PmoPin(c.pmo), multiset{});
      }
    }

    /** release_scanning_candidate */
    method ReleaseScanning(c: Cand, ghost s: set<Pid>, ghost d: set<Pid>)
      requires Keeps(s, d) && c.page in s && held == CandBag(c)
      modifies this`pages, this`held
      ensures Keeps(s - {c.page}, d) && held == multiset{}
    {
      Unscan(c.page, s, d);
      ReleaseAll(c);
    }

    /** The scanning mark goes, and a free that arrived meanwhile is acted on. */
    method Unscan(p: Pid, ghost s: set<Pid>, ghost d: set<Pid>)
      requires Keeps(s, d) && p in s
      modifies this`pages
      ensures Keeps(s - {p}, d)
    {
      assert PageMarks(pages, s, d, p);
      var m := pages[p];
      ghost var end := if m.freeReq then m.(scanning := false, state := FreePending) else m.(scanning := false);
      MarksSet(pages, s, d, p, end, s - {p}, d);
      DriftSet(start, pages, gone, asked, p, end);
      pages := pages[p := m.(scanning := false)];
      if m.scanning && m.freeReq {
        FreePage(p);
      }
      assert pages == old(pages)[p := end];
    }

    /** claim_scanning_candidate */
    method Claim(c: Cand, same: bool, ghost s: set<Pid>, ghost d: set<Pid>) returns (ok: bool)
      requires Keeps(s, d) && c.page in s
      modifies this`pages
      ensures (ok <==> same) && if ok then Keeps(s - {c.page}, d + {c.page}) else Keeps(s, d)
    {
      assert PageMarks(pages, s, d, c.page);
      ok := pages[c.page].scanning && pages[c.page].state.Resident? && same;
      if ok {
        MarksSet(pages, s, d, c.page, pages[c.page].(scanning := false, state := Demoting), s - {c.page}, d + {c.page});
        DriftSet(start, pages, gone, asked, c.page, pages[c.page].(scanning := false, state := Demoting));
        pages := pages[c.page := pages[c.page].(scanning := false, state := Demoting)];
      }
    }

    /** defer_candidate, and one turn of restore_candidates */
    method PutBack(c: Cand, ghost d: set<Pid>)
      requires Keeps({}, d) && c.page in d && held == CandBag(c)
      modifies this`pages, this`held
      ensures Keeps({}, d - {c.page}) && held == multiset{}
    {
      assert PageMarks(pages, {}, d, c.page);
      var m := pages[c.page];
      ghost var end := m.(state := if m.freeReq then FreePending else Resident);
      MarksSet(pages, {}, d, c.page, end, {}, d - {c.page});
      DriftSet(start, pages, gone, asked, c.page, end);
      pages := pages[c.page := m.(state := Resident)];
      if m.freeReq {
        FreePage(c.page);
      }
      assert pages == old(pages)[c.page := end];
      ReleaseAll(c);
    }

    /** finish_candidate; a page freed meanwhile is FREEING until its origin release succeeds or is deferred. */
    method Finish(c: Cand, released: bool, ghost d: set<Pid>)
      requires Keeps({}, d) && c.page in d && held == CandBag(c)
      modifies this`pages, this`held, this`gone
      ensures Keeps({}, d - {c.page}) && held == multiset{} && gone == old(gone) + {c.page} && c.page !in old(gone)
      ensures pages == old(pages)[c.page := old(pages)[c.page].(state := if old(pages)[c.page].freeReq && !released then FreePending else None)]
    {
      assert PageMarks(pages, {}, d, c.page);
      var m := pages[c.page];
      var end := if m.freeReq && !released then FreePending else None;
      MarksSet(pages, {}, d, c.page, m.(state := end), {}, d - {c.page});
      DriftGone(start, pages, gone, asked, c.page, m.(state := end));
      pages := pages[c.page := m.(state := if m.freeReq then Freeing else None)];
      ReleaseAll(c);
      if m.freeReq {
        pages := pages[c.page := m.(state := end)];
      }
      gone := gone + {c.page};
      assert pages == old(pages)[c.page := m.(state := end)];
    }

    // ---------------------------------------------------------------- one turn of each loop

    /** Selection: take the PMO and the scanning mark, or neither. */
    method Pick(p: Pid, pmo: Obj, selectable: bool) returns (ok: bool, c: Cand)
      requires Keeps(ledger.Keys, {}) && held == multiset{}
      modifies this`pages, this`ledger, this`held
      ensures Keeps(ledger.Keys, {}) && held == multiset{} && (ok <==> Choosable(old(pages), p) && selectable)
      ensures !ok ==> ledger == old(ledger) && pages == old(pages)
      ensures ok ==> c.page == p && p !in old(ledger) && c.aliases == [] && ledger == old(ledger)[p := CandBag(c)]
      ensures ok ==> pages == old(pages)[p := old(pages)[p].(scanning := true)]
    {
      ok, c := Choosable(pages, p), Cand(p, pmo, true, [], false);
      if !ok {
        return;
      }
      Take(PmoPin(pmo));
      if !selectable {
        Drop(PmoPin(pmo), multiset{});
        return false, c;
      }
      Enlist(c);
    }

    method Enlist(c: Cand)
      requires Keeps(ledger.Keys, {}) && Choosable(pages, c.page) && held == CandBag(c)
      modifies this`pages, this`ledger, this`held
      ensures Keeps(ledger.Keys, {}) && held == multiset{} && c.page !in old(ledger) && ledger == old(ledger)[c.page := CandBag(c)]
      ensures pages == old(pages)[c.page := old(pages)[c.page].(scanning := true)]
    {
      ghost var p, s := c.page, ledger.Keys;
      assert PageMarks(pages, s, {}, p) && PageDrift(start[p], pages[p], p in gone, p in asked);
      MarksSet(pages, s, {}, p, pages[p].(scanning := true), s + {p}, {});
      DriftSet(start, pages, gone, asked, p, pages[p].(scanning := true));
      pages := pages[c.page := pages[c.page].(scanning := true)];
      ledger, held := ledger[p := held], multiset{};
      assert ledger.Keys == s + {p};
    }

    /** Aging: the candidate's vmspaces are pinned, or the candidate is released. */
    method AgeOne(c: Cand, f: Fate) returns (ok: bool, e: Cand)
      requires Keeps(ledger.Keys, {}) && Slot(ledger, c) && c.aliases == [] && held == multiset{}
      modifies this`pages, this`asked, this`ledger, this`held
      ensures Keeps(ledger.Keys, {}) && e.page == c.page && held == multiset{}
      ensures ledger == if ok then old(ledger)[c.page := CandBag(e)] else old(ledger) - {c.page}
      ensures ok <==> Ages(f)
    {
      Others(ledger.Keys, {});
      held := ledger[c.page];
      BareBag(c);
      e, ok := c, false;
      if f.mature {
        ok, e := AgeBody(c, f.aging);
      }
      if ok {
        CheckIn(e);
      } else {
        ReleaseScanning(e, ledger.Keys, {});
        CheckOff(c);
      }
    }

    method AgeBody(c: Cand, a: Attempt) returns (ok: bool, e: Cand)
      requires held == PmoBag(c)
      modifies this`held
      ensures e == c.(aliases := e.aliases) && held == CandBag(e) && (ok <==> Prepares(a) && a.present)
    {
      var aliases;
      ok, aliases := PrepareAging(a, PmoBag(c));
      e := c.(aliases := aliases);
    }

    method PrepareBody(c: Cand, a: Attempt) returns (ok: bool, e: Cand)
      requires held == PmoBag(c)
      modifies this`held
      ensures e == c.(aliases := e.aliases, prepared := ok) && held == CandBag(e) && (ok <==> Prepares(a))
    {
      var aliases;
      ok, aliases := Prepare(a, PmoBag(c));
      e := c.(aliases := aliases, prepared := ok);
    }

    /** The candidate keeps what is held. */
    ghost method CheckIn(c: Cand)
      requires c.page in ledger && held == CandBag(c)
      modifies this`ledger, this`held
      ensures ledger == old(ledger)[c.page := CandBag(c)] && ledger.Keys == old(ledger.Keys) && held == multiset{}
    {
      ledger, held := ledger[c.page := held], multiset{};
    }

    /** Nothing is held for the candidate any more. */
    ghost method CheckOff(c: Cand)
      requires c.page in ledger && held == multiset{}
      modifies this`ledger
      ensures ledger == old(ledger) - {c.page} && ledger.Keys == old(ledger.Keys) - {c.page}
    {
      ledger := ledger - {c.page};
    }

    /** Observation: an aged candidate is claimed for demotion, or released. */
    method ObserveOne(c: Cand, claim: bool, ghost d: set<Pid>) returns (ok: bool, e: Cand)
      requires Keeps(ledger.Keys - d, d) && Slot(ledger, c) && c.page !in d && held == multiset{}
      modifies this`pages, this`asked, this`ledger, this`held
      ensures e.page == c.page && e.aliases == [] && held == multiset{} && (ok <==> claim)
      ensures Keeps(ledger.Keys - (d + {c.page}), if ok then d + {c.page} else d)
      ensures ledger == if ok then old(ledger)[c.page := CandBag(e)] else old(ledger) - {c.page}
    {
      Others(ledger.Keys - d, d);
      held := ledger[c.page];
      ReleaseAliases(c.aliases, PmoBag(c));
      e := c.(aliases := []);
      BareBag(e);
      ok := ClaimOrRelease(e, claim, d);
    }

    method ClaimOrRelease(c: Cand, claim: bool, ghost d: set<Pid>) returns (ok: bool)
      requires Keeps(ledger.Keys - d, d) && c.page in ledger && c.page !in d && held == CandBag(c)
      modifies this`pages, this`ledger, this`held
      ensures held == multiset{} && (ok <==> claim)
      ensures Keeps(ledger.Keys - (d + {c.page}), if ok then d + {c.page} else d)
      ensures ledger == if ok then old(ledger)[c.page := CandBag(c)] else old(ledger) - {c.page}
    {
      ghost var s := ledger.Keys - d;
      assert ledger.Keys - (d + {c.page}) == s - {c.page};
      ok := Claim(c, claim, s, d);
      if ok {
        CheckIn(c);
      } else {
        ReleaseScanning(c, s, d);
        CheckOff(c);
        assert ledger.Keys - (d + {c.page}) == s - {c.page};
      }
    }

    /** Preparation: PTEs replaced with every vmspace locked, or the candidate deferred. */
    method PrepareOne(c: Cand, a: Attempt) returns (ok: bool, e: Cand)
      requires Keeps({}, ledger.Keys) && Slot(ledger, c) && c.aliases == [] && held == multiset{}
      modifies this`pages, this`asked, this`ledger, this`held
      ensures Keeps({}, ledger.Keys) && e.page == c.page && held == multiset{}
      ensures ledger == if ok then old(ledger)[c.page := CandBag(e)] else old(ledger) - {c.page}
      ensures ok <==> Prepares(a)
    {
      Others({}, ledger.Keys);
      held := ledger[c.page];
      BareBag(c);
      ok, e := PrepareBody(c, a);
      if ok {
        CheckIn(e);
      } else {
        PutBack(e, ledger.Keys);
        CheckOff(c);
      }
    }

    /** The end of a candidate: finished, or everything restored. */
    method EndOne(c: Cand, success: bool, released: bool)
      requires Keeps({}, ledger.Keys) && Slot(ledger, c) && held == multiset{}
      modifies this`pages, this`asked, this`ledger, this`held, this`gone
      ensures Keeps({}, ledger.Keys) && held == multiset{} && ledger == old(ledger) - {c.page}
      ensures c.page !in old(gone) && gone == if success then old(gone) + {c.page} else old(gone)
    {
      Others({}, ledger.Keys);
      held := ledger[c.page];
      ghost var d := ledger.Keys;
      assert PageMarks(pages, {}, d, c.page) && PageDrift(start[c.page], pages[c.page], c.page in gone, c.page in asked);
      if success {
        Finish(c, released, d);
      } else {
        PutBack(c, d);
      }
      CheckOff(c);
    }

    // ---------------------------------------------------------------- the phases of a round

    /** select_candidates: of the entries under the hand, those that can be chosen are, each once, until there are
        enough. */
    method Select(limit: nat, hand: seq<Pid>, w: World) returns (count: nat)
      requires cands.Length == MAX_BATCH && limit <= MAX_BATCH && |hand| <= SCAN_LIMIT && Idle() && Keeps({}, {})
      modifies this`pages, this`ledger, this`held, cands
      ensures count <= limit && Batch(cands[..], count, count, count, ledger) && Keeps(ledger.Keys, {})
      ensures Bare(cands[..], 0, count) && held == multiset{}
      ensures Selected(ledger.Keys, Entries(old(pages), hand), w, limit)
    {
      count := 0;
      var i := 0;
      while count < limit && i < |hand|
        invariant i <= |hand| && count <= limit && Batch(cands[..], count, count, count, ledger) && Keeps(ledger.Keys, {})
        invariant Bare(cands[..], 0, count) && held == multiset{}
        invariant Chosen(old(pages), pages, ledger.Keys, hand[..i], w)
      {
        ghost var before, keys := pages, ledger.Keys;
        count := SelectTurn(count, hand[i], w(hand[i]));
        ChosenMore(old(pages), before, keys, hand, i, w);
        i := i + 1;
      }
      ChosenWithin(old(pages), hand, i, w);
      BatchSize(cands[..], count, ledger);
    }

    method SelectTurn(count: nat, p: Pid, f: Fate) returns (n: nat)
      requires Batch(cands[..], count, count, count, ledger) && count < cands.Length && Keeps(ledger.Keys, {})
      requires Bare(cands[..], 0, count) && held == multiset{}
      modifies this`pages, this`ledger, this`held, cands
      ensures Batch(cands[..], n, n, n, ledger) && Keeps(ledger.Keys, {}) && Bare(cands[..], 0, n) && held == multiset{}
      ensures if Choosable(old(pages), p) && f.selectable
              then n == count + 1 && pages == old(pages)[p := old(pages)[p].(scanning := true)] && ledger.Keys == old(ledger.Keys) + {p}
              else n == count && pages == old(pages) && ledger.Keys == old(ledger.Keys)
    {
      ghost var before := ledger;
      var ok, c := Pick(p, f.pmo, f.selectable);
      if !ok {
        return count;
      }
      Append(count, c, before);
      return count + 1;
    }

    method Append(count: nat, c: Cand, ghost before: Ledger)
      requires Batch(cands[..], count, count, count, before) && count < cands.Length && Bare(cands[..], 0, count)
      requires c.page !in before && c.aliases == [] && ledger == before[c.page := CandBag(c)]
      modifies cands
      ensures Batch(cands[..], count + 1, count + 1, count + 1, ledger) && Bare(cands[..], 0, count + 1)
    {
      ghost var cs := cands[..];
      Picked(cs, count, before, c);
      cands[count] := c;
      assert cands[..] == cs[count := c];
    }

    method AgeTurn(kept: nat, i: nat, count: nat, w: World) returns (ok: bool)
      requires Batch(cands[..], kept, i, count, ledger) && i < count && Keeps(ledger.Keys, {}) && Bare(cands[..], i, count) && held == multiset{}
      modifies this`pages, this`asked, this`ledger, this`held, cands
      ensures Batch(cands[..], if ok then kept + 1 else kept, i + 1, count, ledger) && Keeps(ledger.Keys, {})
      ensures Bare(cands[..], i + 1, count) && held == multiset{}
      ensures ok <==> Ages(w(old(cands[i]).page))
      ensures Turned(old(cands[..]), kept, i, old(ledger.Keys), cands[..], ledger.Keys, ok)
    {
      ghost var cs, before := cands[..], ledger;
      assert InPlay(i, kept, i, count) && Slot(ledger, cs[i]);
      var c;
      ok, c := AgeOne(cands[i], w(cands[i].page));
      if ok {
        Kept(cs, kept, i, count, before, c);
        cands[kept] := c;
        assert cands[..] == cs[kept := c];
      } else {
        Skipped(cs, kept, i, count, before);
      }
    }

    /** First loop of the CLOCK round: keep exactly the candidates that are mature and can be aged, in compacted form. */
    method Age(count: nat, w: World) returns (kept: nat)
      requires Batch(cands[..], count, count, count, ledger) && Keeps(ledger.Keys, {})
      requires Bare(cands[..], 0, count) && held == multiset{}
      modifies this`pages, this`asked, this`ledger, this`held, cands
      ensures kept <= count && Batch(cands[..], kept, kept, kept, ledger) && Keeps(ledger.Keys, {}) && held == multiset{}
      ensures ledger.Keys == Passing(old(ledger.Keys), w, Aging())
    {
      var i := 0;
      kept := 0;
      Restart(cands[..], 0, count, ledger);
      while i < count
        invariant kept <= i && Batch(cands[..], kept, i, count, ledger) && Keeps(ledger.Keys, {})
        invariant Bare(cands[..], i, count) && held == multiset{}
        invariant Sifted(cands[..], kept, old(ledger.Keys), ledger.Keys, w, Aging())
      {
        ghost var cs, keys := cands[..], ledger.Keys;
        var ok := AgeTurn(kept, i, count, w);
        SiftedMore(cs, kept, i, old(ledger.Keys), keys, cands[..], ledger.Keys, ok, w, Aging());
        kept := if ok then kept + 1 else kept;
        i := i + 1;
      }
      Settle(cands[..], kept, count, ledger);
      SiftedAll(cands[..], kept, old(ledger.Keys), ledger, w, Aging());
    }

    /** Claimed candidates come first, are DEMOTING and hold only their PMO; the others are still scanned. */
    ghost predicate Claiming(kept: nat, i: nat, count: nat, d: set<Pid>)
      reads this, cands
    {
      && Batch(cands[..], kept, i, count, ledger) && Keeps(ledger.Keys - d, d)
      && Split(cands[..], kept, i, count, d, ledger) && Bare(cands[..], 0, kept) && held == multiset{}
    }

    lemma ClaimingStart(count: nat)
      requires Batch(cands[..], count, count, count, ledger) && Keeps(ledger.Keys, {}) && held == multiset{}
      ensures Claiming(0, 0, count, {})
    {
      Restart(cands[..], 0, count, ledger);
      assert ledger.Keys - {} == ledger.Keys;
    }

    lemma ClaimingEnd(kept: nat, count: nat, d: set<Pid>)
      requires Claiming(kept, count, count, d)
      ensures d == ledger.Keys
      ensures Batch(cands[..], kept, kept, kept, ledger) && Keeps({}, ledger.Keys) && Bare(cands[..], 0, kept)
    {
      Settle(cands[..], kept, count, ledger);
      AllClaimed(cands[..], kept, count, d, ledger);
    }

    /** A candidate is claimed and kept. */
    method ClaimTurn(kept: nat, i: nat, count: nat, ghost d: set<Pid>)
      requires Claiming(kept, i, count, d) && i < count
      modifies this`pages, this`asked, this`ledger, this`held, cands
      ensures Claiming(kept + 1, i + 1, count, d + {old(cands[i]).page}) && ledger.Keys == old(ledger.Keys)
      ensures cands[..] == old(cands[..])[kept := cands[kept]]
    {
      ghost var before := ledger;
      assert InPlay(i, kept, i, count) && Slot(ledger, cands[..][i]);
      var ok, c := ObserveOne(cands[i], true, d);
      PlaceClaimed(kept, i, count, c, d, before);
    }

    /** A candidate is released. */
    method DropTurn(kept: nat, i: nat, count: nat, ghost d: set<Pid>)
      requires Claiming(kept, i, count, d) && i < count
      modifies this`pages, this`asked, this`ledger, this`held
      ensures Claiming(kept, i + 1, count, d) && ledger.Keys == old(ledger.Keys) - {cands[i].page}
    {
      ghost var before, p := ledger, cands[i].page;
      assert InPlay(i, kept, i, count) && Slot(ledger, cands[..][i]);
      var ok, c := ObserveOne(cands[i], false, d);
      Skipped(cands[..], kept, i, count, before);
      SplitSkipped(cands[..], kept, i, count, d, before);
      assert ledger.Keys - (d + {p}) == ledger.Keys - d;
    }

    method ObserveTurn(kept: nat, i: nat, count: nat, claim: bool, ghost d: set<Pid>) returns (ghost d': set<Pid>)
      requires Claiming(kept, i, count, d) && i < count
      modifies this`pages, this`asked, this`ledger, this`held, cands
      ensures Claiming(if claim then kept + 1 else kept, i + 1, count, d')
      ensures if claim then d' == d + {old(cands[i]).page} && ledger.Keys == old(ledger.Keys)
              else d' == d && ledger.Keys == old(ledger.Keys) - {old(cands[i]).page}
      ensures if claim then cands[..] == old(cands[..])[kept := cands[kept]] else cands[..] == old(cands[..])
    {
      if claim {
        d' := d + {cands[i].page};
        ClaimTurn(kept, i, count, d);
      } else {
        d' := d;
        DropTurn(kept, i, count, d);
      }
    }

    method PlaceClaimed(kept: nat, i: nat, count: nat, c: Cand, ghost d: set<Pid>, ghost before: Ledger)
      requires Batch(cands[..], kept, i, count, before) && Split(cands[..], kept, i, count, d, before) && i < count
      requires c.page == cands[i].page && ledger == before[c.page := CandBag(c)]
      requires c.aliases == [] && Bare(cands[..], 0, kept)
      modifies cands
      ensures Batch(cands[..], kept + 1, i + 1, count, ledger) && Split(cands[..], kept + 1, i + 1, count, d + {c.page}, ledger)
      ensures Bare(cands[..], 0, kept + 1) && cands[..] == old(cands[..])[kept := c]
    {
      ghost var cs := cands[..];
      Kept(cs, kept, i, count, before, c);
      SplitKept(cs, kept, i, count, d, before, c);
      cands[kept] := c;
      assert cands[..] == cs[kept := c];
    }

    method ObserveNext(kept: nat, i: nat, count: nat, allow: bool, w: World, ghost all: set<Pid>, ghost d: set<Pid>)
      returns (now: nat, ghost d': set<Pid>)
      requires Claiming(kept, i, count, d) && i < count && kept <= Quota(allow) && Claimed(all, ledger.Keys, d, w, kept < Quota(allow))
      modifies this`pages, this`asked, this`ledger, this`held, cands
      ensures Claiming(now, i + 1, count, d') && now <= i + 1 && now <= Quota(allow)
      ensures Claimed(all, ledger.Keys, d', w, now < Quota(allow))
    {
      ghost var keys, p := ledger.Keys, cands[i].page;
      var ok := w(cands[i].page).cold && allow && kept < RATE_BATCH;
      d' := ObserveTurn(kept, i, count, ok, d);
      ClaimedStep(all, keys, d, w, kept, Quota(allow), p, ok, ledger.Keys, d');
      now := if ok then kept + 1 else kept;
    }

    /** Second loop: the cold candidates are claimed, up to RATE_BATCH of them, and all others released. */
    method Observe(count: nat, allow: bool, w: World) returns (kept: nat)
      requires Batch(cands[..], count, count, count, ledger) && Keeps(ledger.Keys, {}) && held == multiset{}
      modifies this`pages, this`asked, this`ledger, this`held, cands
      ensures kept <= count && Batch(cands[..], kept, kept, kept, ledger) && Keeps({}, ledger.Keys)
      ensures Bare(cands[..], 0, kept) && held == multiset{} && kept <= Quota(allow)
      ensures ledger.Keys <= Passing(old(ledger.Keys), w, Cold())
      ensures kept < Quota(allow) ==> ledger.Keys == Passing(old(ledger.Keys), w, Cold())
    {
      var i := 0;
      kept := 0;
      ghost var d: set<Pid> := {};
      ClaimingStart(count);
      while i < count
        invariant kept <= i && Claiming(kept, i, count, d) && kept <= Quota(allow)
        invariant Claimed(old(ledger.Keys), ledger.Keys, d, w, kept < Quota(allow))
      {
        kept, d := ObserveNext(kept, i, count, allow, w, old(ledger.Keys), d);
        i := i + 1;
      }
      ClaimingEnd(kept, count, d);
      ClaimedAll(old(ledger.Keys), ledger.Keys, w, kept < Quota(allow));
    }

    /** The last candidate fills the hole left by candidate i. */
    method MoveLast(i: nat, n: nat, ghost d: set<Pid>)
      requires Claiming(i, i + 1, n, d) && Bare(cands[..], 0, n)
      modifies cands
      ensures Claiming(i, i, n - 1, d) && Bare(cands[..], 0, n - 1)
    {
      ghost var cs := cands[..];
      Replaced(cs, i, n, ledger);
      cands[i] := cands[n - 1];
      assert cands[..] == cs[i := cs[n - 1]];
    }

    /** One candidate is claimed, or released and replaced by the last one. */
    method FifoTurn(i: nat, n: nat, w: World, ghost d: set<Pid>) returns (ok: bool, ghost d': set<Pid>)
      requires Claiming(i, i, n, d) && i < n && Bare(cands[..], 0, n)
      modifies this`pages, this`asked, this`ledger, this`held, cands
      ensures if ok then Claiming(i + 1, i + 1, n, d') && Bare(cands[..], 0, n)
              else Claiming(i, i, n - 1, d') && Bare(cands[..], 0, n - 1)
      ensures old(cands[i]).page in old(ledger) && (ok <==> w(old(cands[i]).page).cold)
      ensures if ok then d' == d + {old(cands[i]).page} && ledger.Keys == old(ledger.Keys)
              else d' == d && ledger.Keys == old(ledger.Keys) - {old(cands[i]).page}
    {
      assert InPlay(i, i, i, n) && Slot(ledger, cands[..][i]);
      ok := w(cands[i].page).cold;
      d' := ObserveTurn(i, i, n, ok, d);
      if !ok {
        MoveLast(i, n, d');
      }
    }

    method FifoNext(i: nat, n: nat, w: World, ghost all: set<Pid>, ghost d: set<Pid>) returns (ok: bool, ghost d': set<Pid>)
      requires Claiming(i, i, n, d) && i < n && Bare(cands[..], 0, n) && Claimed(all, ledger.Keys, d, w, true)
      modifies this`pages, this`asked, this`ledger, this`held, cands
      ensures if ok then Claiming(i + 1, i + 1, n, d') && Bare(cands[..], 0, n)
              else Claiming(i, i, n - 1, d') && Bare(cands[..], 0, n - 1)
      ensures Claimed(all, ledger.Keys, d', w, true)
    {
      ghost var keys, p := ledger.Keys, cands[i].page;
      ok, d' := FifoTurn(i, n, w, d);
      ClaimedMore(all, keys, d, w, true, p, ok);
    }

    /** The FIFO build claims instead of aging, filling holes from the end of the array. */
    method ClaimFifo(count: nat, w: World) returns (n: nat)
      requires Batch(cands[..], count, count, count, ledger) && Keeps(ledger.Keys, {})
      requires Bare(cands[..], 0, count) && held == multiset{}
      modifies this`pages, this`asked, this`ledger, this`held, cands
      ensures n <= count && Batch(cands[..], n, n, n, ledger) && Keeps({}, ledger.Keys)
      ensures Bare(cands[..], 0, n) && held == multiset{}
      ensures ledger.Keys == Passing(old(ledger.Keys), w, Cold())
    {
      var i := 0;
      n := count;
      ghost var d: set<Pid> := {};
      ClaimingStart(count);
      while i < n
        invariant i <= n <= count && Claiming(i, i, n, d) && Bare(cands[..], 0, n)
        invariant Claimed(old(ledger.Keys), ledger.Keys, d, w, true)
      {
        var ok;
        ok, d := FifoNext(i, n, w, old(ledger.Keys), d);
        if ok {
          i := i + 1;
        } else {
          n := n - 1;
        }
      }
      ClaimingEnd(n, n, d);
      ClaimedAll(old(ledger.Keys), ledger.Keys, w, true);
    }

    method PrepareTurn(kept: nat, i: nat, count: nat, w: World) returns (ok: bool)
      requires Batch(cands[..], kept, i, count, ledger) && i < count && Keeps({}, ledger.Keys) && Bare(cands[..], i, count) && held == multiset{}
      modifies this`pages, this`asked, this`ledger, this`held, cands
      ensures Batch(cands[..], if ok then kept + 1 else kept, i + 1, count, ledger) && Keeps({}, ledger.Keys)
      ensures Bare(cands[..], i + 1, count) && held == multiset{}
      ensures ok <==> Prepares(w(old(cands[i]).page).demotion)
      ensures Turned(old(cands[..]), kept, i, old(ledger.Keys), cands[..], ledger.Keys, ok)
    {
      ghost var cs, before := cands[..], ledger;
      assert InPlay(i, kept, i, count) && Slot(ledger, cs[i]);
      var c;
      ok, c := PrepareOne(cands[i], w(cands[i].page).demotion);
      if ok {
        Kept(cs, kept, i, count, before, c);
        cands[kept] := c;
        assert cands[..] == cs[kept := c];
      } else {
        Skipped(cs, kept, i, count, before);
      }
    }

    /** Third loop: keep the claimed candidates that can be prepared, defer the others. */
    method PrepareAll(count: nat, w: World) returns (kept: nat)
      requires Batch(cands[..], count, count, count, ledger) && Keeps({}, ledger.Keys)
      requires Bare(cands[..], 0, count) && held == multiset{}
      modifies this`pages, this`asked, this`ledger, this`held, cands
      ensures kept <= count && Batch(cands[..], kept, kept, kept, ledger) && Keeps({}, ledger.Keys) && held == multiset{}
      ensures ledger.Keys == Passing(old(ledger.Keys), w, Preparing())
    {
      var i := 0;
      kept := 0;
      Restart(cands[..], 0, count, ledger);
      while i < count
        invariant kept <= i && Batch(cands[..], kept, i, count, ledger) && Keeps({}, ledger.Keys)
        invariant Bare(cands[..], i, count) && held == multiset{}
        invariant Sifted(cands[..], kept, old(ledger.Keys), ledger.Keys, w, Preparing())
      {
        ghost var cs, keys := cands[..], ledger.Keys;
        var ok := PrepareTurn(kept, i, count, w);
        SiftedMore(cs, kept, i, old(ledger.Keys), keys, cands[..], ledger.Keys, ok, w, Preparing());
        kept := if ok then kept + 1 else kept;
        i := i + 1;
      }
      Settle(cands[..], kept, count, ledger);
      SiftedAll(cands[..], kept, old(ledger.Keys), ledger, w, Preparing());
    }

    method EndTurn(i: nat, count: nat, success: bool, w: World)
      requires Batch(cands[..], 0, i, count, ledger) && i < count && Keeps({}, ledger.Keys) && held == multiset{}
      modifies this`pages, this`asked, this`ledger, this`held, this`gone
      ensures Batch(cands[..], 0, i + 1, count, ledger) && Keeps({}, ledger.Keys) && held == multiset{}
      ensures cands[i].page in old(ledger) && ledger.Keys == old(ledger.Keys) - {cands[i].page} && cands[i].page !in old(gone)
      ensures gone == if success then old(gone) + {cands[i].page} else old(gone)
    {
      ghost var before := ledger;
      assert InPlay(i, 0, i, count) && Slot(ledger, cands[i]);
      EndOne(cands[i], success, w(cands[i].page).released);
      Skipped(cands[..], 0, i, count, before);
    }

    method EndLoop(count: nat, success: bool, w: World)
      requires Batch(cands[..], 0, 0, count, ledger) && Keeps({}, ledger.Keys) && held == multiset{}
      modifies this`pages, this`asked, this`ledger, this`held, this`gone
      ensures Batch(cands[..], 0, count, count, ledger) && Keeps({}, ledger.Keys) && held == multiset{}
      ensures Ended(old(gone), old(ledger.Keys), gone, ledger.Keys, success, count)
    {
      var i := 0;
      while i < count
        invariant i <= count && Batch(cands[..], 0, i, count, ledger) && Keeps({}, ledger.Keys) && held == multiset{}
        invariant Ended(old(gone), old(ledger.Keys), gone, ledger.Keys, success, i)
      {
        ghost var g, k := gone, ledger.Keys;
        EndTurn(i, count, success, w);
        EndedMore(old(gone), old(ledger.Keys), g, k, success, i, cands[i].page);
        i := i + 1;
      }
    }

    /** restore_candidates, or finish_candidate for every candidate: all of them are finished, or none. */
    method EndAll(count: nat, success: bool, w: World)
      requires Batch(cands[..], count, count, count, ledger) && Keeps({}, ledger.Keys) && held == multiset{}
      modifies this`pages, this`asked, this`ledger, this`held, this`gone
      ensures Idle() && Keeps({}, {})
      ensures gone == (if success then old(gone) + old(ledger.Keys) else old(gone))
      ensures |gone| == |old(gone)| + (if success then count else 0)
    {
      Restart(cands[..], 0, count, ledger);
      EndLoop(count, success, w);
      assert ledger == map[] by { assert |ledger| == 0; }
      EndedAll(old(gone), old(ledger.Keys), gone, success, count);
    }

    method ReleaseTurn(m: nat, i: nat, count: nat)
      requires Batch(cands[..], m, i, count, ledger) && i < count && Keeps(ledger.Keys, {}) && held == multiset{}
      modifies this`pages, this`asked, this`ledger, this`held
      ensures Batch(cands[..], m, i + 1, count, ledger) && Keeps(ledger.Keys, {}) && held == multiset{}
      ensures ledger.Keys <= old(ledger.Keys)
    {
      ghost var before := ledger;
      assert InPlay(i, m, i, count) && Slot(ledger, cands[i]);
      Others(ledger.Keys, {});
      held := ledger[cands[i].page];
      ReleaseScanning(cands[i], ledger.Keys, {});
      CheckOff(cands[i]);
      Skipped(cands[..], m, i, count, before);
    }

    /** Candidates m and up are released: after a failed aging flush, or beyond the rate limit. */
    method ReleaseFrom(m: nat, count: nat)
      requires m <= count && Batch(cands[..], count, count, count, ledger) && Keeps(ledger.Keys, {}) && held == multiset{}
      modifies this`pages, this`asked, this`ledger, this`held
      ensures Batch(cands[..], m, m, m, ledger) && Keeps(ledger.Keys, {}) && held == multiset{}
      ensures ledger.Keys <= old(ledger.Keys) && (m == 0 ==> Idle() && Keeps({}, {}))
    {
      var i := m;
      Restart(cands[..], m, count, ledger);
      while i < count
        invariant Batch(cands[..], m, i, count, ledger) && Keeps(ledger.Keys, {}) && held == multiset{}
        invariant ledger.Keys <= old(ledger.Keys)
      {
        ReleaseTurn(m, i, count);
        i := i + 1;
      }
      Settle(cands[..], m, count, ledger);
      assert m == 0 ==> ledger.Keys == {};
    }

    /** Between rounds: no page is scanned, DEMOTING or FREEING, and the worker holds nothing. */
    ghost predicate Idle()
      reads this
    {
      Marks(pages, {}, {}) && ledger == map[] && held == multiset{}
    }

    /** How a round ends: idle, with as many pages demoted as it returns, every other page where it was unless
        freed, and every free acted on. */
    twostate predicate RoundDone(ret: int)
      reads this
    {
      && Idle() && Drift(old(pages), pages, gone, asked) && |gone| == if ret > 0 then ret else 0
    }

    ghost method Begin()
      requires Idle()
      modifies this`start, this`asked, this`gone
      ensures start == pages && gone == {} && asked == {} && Keeps({}, {})
    {
      start, asked, gone := pages, {}, {};
      forall p | p in pages ensures PageDrift(pages[p], pages[p], false, false) { assert PageMarks(pages, {}, {}, p); }
    }

    /** Select, age and claim, in the CLOCK build. */
    method Front(limit: nat, allow: bool, hand: seq<Pid>, w: World, aging: int) returns (go: bool, count: nat, ghost st: Stages)
      requires cands.Length == MAX_BATCH && limit <= MAX_BATCH && |hand| <= SCAN_LIMIT && Idle() && Keeps({}, {})
      modifies this`pages, this`asked, this`ledger, this`held, cands
      ensures if go then Ready(count) && st.claimed == ledger.Keys else Idle() && Keeps({}, {})
      ensures Selected(st.selected, Entries(old(pages), hand), w, limit) && st.aged == Passing(st.selected, w, Aging())
      ensures (go <==> st.aged != {} && aging == 0) && (!go ==> (count == 0 <==> st.aged == {}))
      ensures go ==> Within(st.claimed, Passing(st.aged, w, Cold()), Quota(allow))
    {
      count := Select(limit, hand, w);
      BatchSize(cands[..], count, ledger);
      st := Stages(ledger.Keys, {}, {}, {});
      count := Age(count, w);
      BatchSize(cands[..], count, ledger);
      st := st.(aged := ledger.Keys);
      go := count > 0 && aging == 0;
      if !go {
        ReleaseFrom(0, count);
        return;
      }
      count := Observe(count, allow, w);
      BatchSize(cands[..], count, ledger);
      st := st.(claimed := ledger.Keys);
    }

    /** demote_one_batch, given the entries under the hand, how each page fares, and how the aging flush, the flush and
        the copy come out (0 or an error): the round ends idle, with nothing demoted or all that could be prepared. */
    method Round(limit: nat, allow: bool, hand: seq<Pid>, w: World, aging: int, flush: int, copy: int)
      returns (ret: int, ghost st: Stages)
      requires cands.Length == MAX_BATCH && limit <= MAX_BATCH && |hand| <= SCAN_LIMIT && Idle()
      requires aging <= 0 && flush <= 0 && copy <= 0
      modifies this, cands
      ensures RoundDone(ret) && gone == if ret > 0 then st.prepared else {}
      ensures Selected(st.selected, Entries(old(pages), hand), w, limit) && st.aged == Passing(st.selected, w, Aging())
      ensures if st.aged == {} then ret == 0 else if aging != 0 then ret == aging
              else
                && Within(st.claimed, Passing(st.aged, w, Cold()), Quota(allow))
                && st.prepared == Passing(st.claimed, w, Preparing()) && ret == Outcome(|st.claimed|, |st.prepared|, flush, copy)
    {
      Begin();
      var go, count;
      go, count, st := Front(limit, allow, hand, w, aging);
      if !go {
        return if count == 0 then 0 else aging, st;
      }
      ghost var prepared;
      ret, prepared := Demote(count, w, flush, copy);
      st := st.(prepared := prepared);
    }

    /** Select, limit and claim, in the FIFO build. */
    method FrontFifo(limit: nat, hand: seq<Pid>, w: World) returns (count: nat, ghost st: Stages)
      requires cands.Length == MAX_BATCH && limit <= MAX_BATCH && |hand| <= SCAN_LIMIT && Idle() && Keeps({}, {})
      modifies this`pages, this`asked, this`ledger, this`held, cands
      ensures Ready(count) && st.claimed == ledger.Keys && Selected(st.selected, Entries(old(pages), hand), w, limit)
      ensures Within(st.aged, st.selected, RATE_BATCH) && st.claimed == Passing(st.aged, w, Cold())
    {
      count := Select(limit, hand, w);
      BatchSize(cands[..], count, ledger);
      st := Stages(ledger.Keys, {}, {}, {});
      if count > RATE_BATCH {
        ReleaseFrom(RATE_BATCH, count);
        count := RATE_BATCH;
        BatchSize(cands[..], count, ledger);
      }
      st := st.(aged := ledger.Keys);
      count := ClaimFifo(count, w);
      BatchSize(cands[..], count, ledger);
      st := st.(claimed := ledger.Keys);
    }

    /** The same round in the FIFO build, which does not age. */
    method RoundFifo(limit: nat, allow: bool, hand: seq<Pid>, w: World, flush: int, copy: int) returns (ret: int, ghost st: Stages)
      requires cands.Length == MAX_BATCH && limit <= MAX_BATCH && |hand| <= SCAN_LIMIT && Idle() && flush <= 0 && copy <= 0
      modifies this, cands
      ensures RoundDone(ret) && gone == if ret > 0 then st.prepared else {}
      ensures if !allow then ret == 0
              else
                && Selected(st.selected, Entries(old(pages), hand), w, limit) && Within(st.aged, st.selected, RATE_BATCH)
                && st.claimed == Passing(st.aged, w, Cold()) && st.prepared == Passing(st.claimed, w, Preparing())
                && ret == Outcome(|st.claimed|, |st.prepared|, flush, copy)
    {
      Begin();
      if !allow {
        var n := Select(limit, hand, w);
        ReleaseFrom(0, n);
        return 0, Stages({}, {}, {}, {});
      }
      var count;
      count, st := FrontFifo(limit, hand, w);
      ghost var prepared;
      ret, prepared := Demote(count, w, flush, copy);
      st := st.(prepared := prepared);
    }

    /** The candidates are exactly the DEMOTING pages, each holding only its PMO. */
    ghost predicate Ready(claimed: nat)
      reads this, cands
    {
      && Batch(cands[..], claimed, claimed, claimed, ledger) && Keeps({}, ledger.Keys) && Bare(cands[..], 0, claimed)
      && held == multiset{} && |ledger.Keys| == claimed
    }

    /** The distributed part: prepare, flush, copy, then finish, or restore when the flush or the copy fails. */
    method Demote(claimed: nat, w: World, flush: int, copy: int) returns (ret: int, ghost prepared: set<Pid>)
      requires Ready(claimed) && gone == {} && flush <= 0 && copy <= 0
      modifies this`pages, this`asked, this`ledger, this`held, this`gone, cands
      ensures Idle() && Keeps({}, {}) && gone == (if ret > 0 then prepared else {}) && |gone| == (if ret > 0 then ret else 0)
      ensures prepared == Passing(old(ledger.Keys), w, Preparing()) && ret == Outcome(claimed, |prepared|, flush, copy)
    {
      var count := PrepareAll(claimed, w);
      prepared := ledger.Keys;
      BatchSize(cands[..], count, ledger);
      if count == 0 {
        EndAll(0, false, w);
        return if claimed == 0 then 0 else EAGAIN, prepared;
      }
      if flush != 0 {
        EndAll(count, false, w);
        return flush, prepared;
      }
      if copy != 0 {
        EndAll(count, false, w);
        return copy, prepared;
      }
      EndAll(count, true, w);
      ret := count;
    }
  }

  /** The pages in play after the selection, the aging (in the FIFO build: the rate limit), the claim and the preparation. */
  datatype Stages = Stages(selected: set<Pid>, aged: set<Pid>, claimed: set<Pid>, prepared: set<Pid>)

  function Quota(allow: bool): nat { if allow then RATE_BATCH else 0 }

  /** All entries that may be selected, or some of them and then as many as wanted. */
  ghost predicate Selected(some: set<Pid>, all: set<Pid>, w: World, limit: nat) {
    Within(some, Passing(all, w, Selectable()), limit)
  }

  /** All of them, or as many as the quota lets through. */
  ghost predicate Within(some: set<Pid>, all: set<Pid>, quota: nat) {
    some <= all && |some| <= quota && (some == all || |some| == quota)
  }

  function Outcome(claimed: nat, prepared: nat, flush: int, copy: int): int {
    if claimed == 0 then 0
    else if prepared == 0 then EAGAIN
    else if flush != 0 then flush
    else if copy != 0 then copy
    else prepared
  }

  // ------------------------------------------------------------------ which candidates come through

  /** So far the hand has met these entries; the chosen ones are scanned, and nothing else has changed. */
  ghost predicate Chosen(before: map<Pid, Meta>, now: map<Pid, Meta>, keys: set<Pid>, met: seq<Pid>, w: World) {
    && now.Keys == before.Keys && keys == Passing(Entries(before, met), w, Selectable())
    && forall p :: p in before ==> now[p] == if p in keys then before[p].(scanning := true) else before[p]
  }

  lemma ChosenMore(before: map<Pid, Meta>, now: map<Pid, Meta>, keys: set<Pid>, hand: seq<Pid>, i: nat, w: World)
    requires i < |hand| && Chosen(before, now, keys, hand[..i], w)
    ensures
      var p := hand[i];
      if Choosable(now, p) && w(p).selectable then Chosen(before, now[p := now[p].(scanning := true)], keys + {p}, hand[..i + 1], w)
      else Chosen(before, now, keys, hand[..i + 1], w)
  {
    var p := hand[i];
    assert hand[..i + 1] == hand[..i] + [p];
  }

  lemma ChosenWithin(before: map<Pid, Meta>, hand: seq<Pid>, i: nat, w: World)
    requires i <= |hand|
    ensures Passing(Entries(before, hand[..i]), w, Selectable()) <= Passing(Entries(before, hand), w, Selectable())
    ensures i == |hand| ==> Entries(before, hand[..i]) == Entries(before, hand)
  {
  }

  /** One turn of a compacting loop: candidate i is moved down to `kept`, or dropped. */
  ghost predicate Turned(cs: seq<Cand>, kept: nat, i: nat, keys: set<Pid>, cs': seq<Cand>, keys': set<Pid>, ok: bool) {
    && kept <= i < |cs| == |cs'| && cs[i].page in keys
    && (if ok then cs' == cs[kept := cs'[kept]] && cs'[kept].page == cs[i].page && keys' == keys
        else cs' == cs && keys' == keys - {cs[i].page})
  }

  /** The kept candidates pass the test, and every page dropped so far does not. */
  ghost predicate Sifted(cs: seq<Cand>, kept: nat, all: set<Pid>, keys: set<Pid>, w: World, test: Fate -> bool) {
    && kept <= |cs| && keys <= all
    && (forall j :: 0 <= j < kept ==> test(w(cs[j].page)))
    && (forall p :: p in all && p !in keys ==> !test(w(p)))
  }

  lemma SiftedMore(cs: seq<Cand>, kept: nat, i: nat, all: set<Pid>, keys: set<Pid>, cs': seq<Cand>, keys': set<Pid>, ok: bool,
                   w: World, test: Fate -> bool)
    requires Sifted(cs, kept, all, keys, w, test) && Turned(cs, kept, i, keys, cs', keys', ok) && (ok <==> test(w(cs[i].page)))
    ensures Sifted(cs', if ok then kept + 1 else kept, all, keys', w, test)
  {
  }

  ghost function PagesOf(cs: seq<Cand>, n: nat): set<Pid>
    requires n <= |cs|
  {
    if n == 0 then {} else PagesOf(cs, n - 1) + {cs[n - 1].page}
  }

  lemma {:induction false} PageAt(cs: seq<Cand>, n: nat, p: Pid) returns (j: nat)
    requires n <= |cs| && p in PagesOf(cs, n)
    ensures j < n && cs[j].page == p
  {
    if cs[n - 1].page == p {
      j := n - 1;
    } else {
      j := PageAt(cs, n - 1, p);
    }
  }

  /** Candidates for different pages, all in the ledger. */
  lemma {:induction false} PagesSize(cs: seq<Cand>, n: nat, ledger: Ledger)
    requires n <= |cs| && (forall j, l :: 0 <= j < l < n ==> cs[j].page != cs[l].page) && forall j :: 0 <= j < n ==> cs[j].page in ledger
    ensures |PagesOf(cs, n)| == n && PagesOf(cs, n) <= ledger.Keys
  {
    if n > 0 {
      PagesSize(cs, n - 1, ledger);
      if cs[n - 1].page in PagesOf(cs, n - 1) {
        var j := PageAt(cs, n - 1, cs[n - 1].page);
        assert false;
      }
    }
  }

  /** Nobody but the candidates in play is in the ledger. */
  lemma LedgerIsBatch(cs: seq<Cand>, n: nat, ledger: Ledger)
    requires Batch(cs, n, n, n, ledger)
    ensures ledger.Keys == PagesOf(cs, n)
  {
    forall j, l | 0 <= j < l < n ensures cs[j].page != cs[l].page { assert InPlay(j, n, n, n) && InPlay(l, n, n, n); }
    forall j | 0 <= j < n ensures cs[j].page in ledger { assert InPlay(j, n, n, n) && Slot(ledger, cs[j]); }
    PagesSize(cs, n, ledger);
    SameSize(PagesOf(cs, n), ledger);
  }

  lemma SameSize(a: set<Pid>, ledger: Ledger)
    requires a <= ledger.Keys && |a| == |ledger|
    ensures a == ledger.Keys
  {
    assert |ledger.Keys| == |ledger|;
    assert ledger.Keys == a + (ledger.Keys - a);
  }

  lemma SiftedAll(cs: seq<Cand>, n: nat, all: set<Pid>, ledger: Ledger, w: World, test: Fate -> bool)
    requires Batch(cs, n, n, n, ledger) && Sifted(cs, n, all, ledger.Keys, w, test)
    ensures ledger.Keys == Passing(all, w, test)
  {
    LedgerIsBatch(cs, n, ledger);
    forall p | p in ledger.Keys ensures test(w(p)) { var j := PageAt(cs, n, p); }
  }

  /** Claimed pages are cold; while there is room, no cold page has been dropped. */
  ghost predicate Claimed(all: set<Pid>, keys: set<Pid>, d: set<Pid>, w: World, room: bool) {
    && keys <= all && (forall p :: p in d ==> w(p).cold)
    && (room ==> forall p :: p in all && p !in keys ==> !w(p).cold)
  }

  lemma ClaimedMore(all: set<Pid>, keys: set<Pid>, d: set<Pid>, w: World, room: bool, p: Pid, claim: bool)
    requires Claimed(all, keys, d, w, room) && (room ==> (claim <==> w(p).cold)) && (claim ==> w(p).cold)
    ensures if claim then Claimed(all, keys, d + {p}, w, room) else Claimed(all, keys - {p}, d, w, room)
  {
  }

  lemma ClaimedStep(all: set<Pid>, keys: set<Pid>, d: set<Pid>, w: World, kept: nat, quota: nat, p: Pid, ok: bool,
                    keys': set<Pid>, d': set<Pid>)
    requires Claimed(all, keys, d, w, kept < quota) && (ok <==> w(p).cold && kept < quota)
    requires if ok then d' == d + {p} && keys' == keys else d' == d && keys' == keys - {p}
    ensures Claimed(all, keys', d', w, (if ok then kept + 1 else kept) < quota)
  {
  }

  lemma ClaimedAll(all: set<Pid>, keys: set<Pid>, w: World, room: bool)
    requires Claimed(all, keys, keys, w, room)
    ensures keys <= Passing(all, w, Cold()) && (room ==> keys == Passing(all, w, Cold()))
  {
  }

  lemma BatchSize(cs: seq<Cand>, n: nat, ledger: Ledger)
    requires Batch(cs, n, n, n, ledger)
    ensures |ledger.Keys| == n
  {
    assert |ledger.Keys| == |ledger|;
  }

  lemma Picked(cs: seq<Cand>, n: nat, ledger: Ledger, c: Cand)
    requires Batch(cs, n, n, n, ledger) && n < |cs| && c.page !in ledger
    ensures Batch(cs[n := c], n + 1, n + 1, n + 1, ledger[c.page := CandBag(c)])
  {
    var now, l := cs[n := c], ledger[c.page := CandBag(c)];
    assert l.Keys == ledger.Keys + {c.page};
    forall j: nat | InPlay(j, n + 1, n + 1, n + 1) ensures Slot(l, now[j]) {
      if j != n {
        assert InPlay(j, n, n, n) && Slot(ledger, cs[j]);
      }
    }
    forall j: nat, k: nat | InPlay(j, n + 1, n + 1, n + 1) && InPlay(k, n + 1, n + 1, n + 1) && j != k ensures now[j].page != now[k].page {
      if j != n { assert InPlay(j, n, n, n) && Slot(ledger, cs[j]); }
      if k != n { assert InPlay(k, n, n, n) && Slot(ledger, cs[k]); }
    }
  }

  /** A new pass over the batch begins. */
  lemma Restart(cs: seq<Cand>, m: nat, n: nat, ledger: Ledger)
    requires Batch(cs, n, n, n, ledger) && m <= n
    ensures Batch(cs, m, m, n, ledger)
  {
    forall j: nat | InPlay(j, m, m, n) ensures InPlay(j, n, n, n) && Slot(ledger, cs[j]) { assert InPlay(j, n, n, n); }
  }

  /** A pass over the batch is over. */
  lemma Settle(cs: seq<Cand>, kept: nat, n: nat, ledger: Ledger)
    requires Batch(cs, kept, n, n, ledger)
    ensures Batch(cs, kept, kept, kept, ledger)
  {
    forall j: nat | InPlay(j, kept, kept, kept) ensures InPlay(j, kept, n, n) && Slot(ledger, cs[j]) { assert InPlay(j, kept, n, n); }
  }

  lemma SplitSkipped(cs: seq<Cand>, kept: nat, i: nat, count: nat, d: set<Pid>, ledger: Ledger)
    requires Split(cs, kept, i, count, d, ledger) && i < count
    ensures Split(cs, kept, i + 1, count, d, ledger - {cs[i].page})
  {
  }

  lemma SplitKept(cs: seq<Cand>, kept: nat, i: nat, count: nat, d: set<Pid>, ledger: Ledger, c: Cand)
    requires Split(cs, kept, i, count, d, ledger) && Batch(cs, kept, i, count, ledger) && i < count && c.page == cs[i].page
    ensures Split(cs[kept := c], kept + 1, i + 1, count, d + {c.page}, ledger[c.page := CandBag(c)])
  {
    var now := cs[kept := c];
    forall j | i + 1 <= j < count ensures now[j].page !in d + {c.page} {
      assert InPlay(i, kept, i, count) && InPlay(j, kept, i, count);
    }
  }

  /** The last candidate takes the place of candidate i, which is out of play. */
  lemma Replaced(cs: seq<Cand>, i: nat, n: nat, ledger: Ledger)
    requires Batch(cs, i, i + 1, n, ledger)
    ensures Batch(cs[i := cs[n - 1]], i, i, n - 1, ledger)
  {
    var now := cs[i := cs[n - 1]];
    forall j: nat | InPlay(j, i, i, n - 1) ensures Slot(ledger, now[j]) {
      assert InPlay(Source(i, n, j), i, i + 1, n);
    }
    forall j: nat, l: nat | InPlay(j, i, i, n - 1) && InPlay(l, i, i, n - 1) && j != l ensures now[j].page != now[l].page {
      assert InPlay(Source(i, n, j), i, i + 1, n) && InPlay(Source(i, n, l), i, i + 1, n);
    }
  }

  /** Where the candidate now at place j was. */
  ghost function Source(i: nat, n: nat, j: nat): nat
    requires n > 0
  {
    if j == i then n - 1 else j
  }

  /** When none is left to come, the claimed pages are all there are. */
  lemma AllClaimed(cs: seq<Cand>, kept: nat, count: nat, d: set<Pid>, ledger: Ledger)
    requires Batch(cs, kept, kept, kept, ledger) && Split(cs, kept, count, count, d, ledger)
    ensures d == ledger.Keys && ledger.Keys - d == {}
  {
    assert ledger.Keys == d + (ledger.Keys - d);
    assert |ledger.Keys - d| == 0;
  }
}
