/**
  The reclaim bookkeeping shared by all machines: page lifecycle states and the FIFO (fifo_guard),
  and the aggregate counters (account_guard).  Every method is one critical section, so any
  interleaving of machines is some sequence of these calls; every BUG_ON of the source is an
  assertion here.
 */
module Accounting {
  import opened Lifecycle
  import opened Lists
  import opened Tally

  const U64: nat := 0x1_0000_0000_0000_0000
  const PERMS: nat := 8
  const MAX_BATCH: nat := 64
  const ENOMEM := -12
  const EINVAL := -22
  const EEXIST := -17

  type Pid = nat

  /** One allocated block of CXL pages and its reclaim metadata; tracked blocks have size 1. */
  datatype Page = Page(size: nat, state: PageState, scanning: bool, freeReq: bool, eligible: bool, perm: nat, kind: nat)

  datatype TrackOp = TrackOp(page: Pid, valid: bool, eligible: bool, perm: nat, kind: nat)

  function Pending(): Page -> bool { (q: Page) => q.state.FreePending? }
  function EligiblePerm(k: nat): Page -> bool { (q: Page) => q.eligible && q.perm == k }
  function EligibleKind(k: nat): Page -> bool { (q: Page) => q.eligible && q.kind == k }
  function Untracked(): Page -> nat { (q: Page) => if q.state.None? then q.size else 0 }

  /** What dsm_cxl_reserve_pages decides with 64-bit arithmetic. */
  function Admits(inUse: nat, reserved: nat, total: nat, pages: nat): bool {
    var projected := (inUse + reserved + pages) % U64;
    projected >= inUse && projected <= total
  }

  /** The admission test is right exactly when reserved + pages does not wrap. */
  lemma AdmissionExactIff(inUse: nat, reserved: nat, total: nat, pages: nat)
    requires inUse + reserved <= total < U64 && pages < U64
    ensures (Admits(inUse, reserved, total, pages) <==> inUse + reserved + pages <= total) <==> reserved + pages < U64
  {
    var sum := inUse + reserved + pages;
    if sum >= U64 {
      assert sum % U64 == sum - U64;
    }
  }

  lemma AdmissionFits(inUse: nat, reserved: nat, total: nat, pages: nat)
    requires inUse + reserved <= total < U64 && pages < U64
    ensures reserved + pages < U64 ==>
              && (reserved + pages) % U64 == reserved + pages
              && (Admits(inUse, reserved, total, pages) <==> inUse + reserved + pages <= total)
  {
    AdmissionExactIff(inUse, reserved, total, pages);
  }

  lemma AdmissionCanOverflow()
    ensures Admits(10, 5, 100, U64 - 3) && 10 + 5 + (U64 - 3) > 100
  {
    assert (10 + 5 + (U64 - 3)) % U64 == 12;
  }

  /** The list without one of its entries. */
  function Without(s: seq<Pid>, p: Pid): seq<Pid> {
    if s == [] then [] else if s[0] == p then s[1..] else [s[0]] + Without(s[1..], p)
  }

  lemma {:induction false} WithoutEntry(s: seq<Pid>, p: Pid)
    requires NoRepeat(s) && p in s
    ensures |Without(s, p)| == |s| - 1 && NoRepeat(Without(s, p))
    ensures forall x :: x in Without(s, p) <==> x in s && x != p
  {
    assert s == [s[0]] + s[1..];
    if s[0] != p {
      WithoutEntry(s[1..], p);
      assert s[0] !in Without(s[1..], p);
    }
  }

  /** The others keep their order. */
  lemma {:induction false} WithoutAt(s: seq<Pid>, i: nat)
    requires NoRepeat(s) && i < |s|
    ensures Without(s, s[i]) == s[..i] + s[i + 1..]
  {
    if i > 0 {
      assert s[1..][i - 1] == s[i] && s[0] != s[i];
      WithoutAt(s[1..], i - 1);
      assert s[..i] == [s[0]] + s[1..][..i - 1] && s[1..][i..] == s[i + 1..];
    }
  }

  ghost predicate PageOk(q: Page, perms: nat, kinds: nat) {
    && q.size >= 1 && (!q.state.None? ==> q.size == 1)
    && q.perm < perms && q.kind < kinds
    && (q.eligible ==> q.state.Resident? || q.state.Demoting?)
    && (q.scanning ==> q.state.Resident?)
  }

  /** The lifecycle counter and both histograms count the pages they name. */
  ghost predicate TalliesAre(pages: map<Pid, Page>, freePending: nat, byPerm: seq<nat>, byKind: seq<nat>) {
    && |byPerm| == PERMS
    && freePending == Count(pages, Pending())
    && (forall k {:trigger EligiblePerm(k)} :: 0 <= k < |byPerm| ==> byPerm[k] == Count(pages, EligiblePerm(k)))
    && (forall k {:trigger EligibleKind(k)} :: 0 <= k < |byKind| ==> byKind[k] == Count(pages, EligibleKind(k)))
  }

  /** What the FIFO lock protects, with the pages it has let go whose frame is still marked allocated. */
  datatype Book = Book(pages: map<Pid, Page>, fifo: seq<Pid>, claimed: set<Pid>, freePending: nat,
                       byPerm: seq<nat>, byKind: seq<nat>, atDoor: set<Pid>)

  ghost predicate Ok(b: Book) {
    && NoRepeat(b.fifo) && (forall p :: PlaceOk(b, p))
    && TalliesAre(b.pages, b.freePending, b.byPerm, b.byKind)
  }

  /** The FIFO is exactly the tracked pages, and the claimed ones are exactly the DEMOTING ones. */
  ghost predicate PlaceOk(b: Book, p: Pid) {
    && (p in b.fifo <==> p in b.pages && !b.pages[p].state.None?)
    && (p in b.pages ==> PageOk(b.pages[p], |b.byPerm|, |b.byKind|))
    && (p in b.claimed <==> p in b.pages && b.pages[p].state.Demoting?)
    && (p in b.atDoor ==> p !in b.pages)
  }

  /** The same pages in the same places of the money: as many tracked, the same untracked weight. */
  ghost predicate SameMoney(a: Book, b: Book) {
    |a.fifo| == |b.fifo| && Weigh(a.pages, Untracked()) == Weigh(b.pages, Untracked())
  }

  // ------------------------------------------------------------------ tallies under one change

  /** Tallies when a page moves without entering or leaving the histograms. */
  lemma TallyQuiet(pages: map<Pid, Page>, freePending: nat, byPerm: seq<nat>, byKind: seq<nat>, p: Pid, q: Page)
    requires TalliesAre(pages, freePending, byPerm, byKind)
    requires (
      || (p in pages && q.eligible == pages[p].eligible && q.perm == pages[p].perm && q.kind == pages[p].kind)
      || (!q.eligible && (p in pages ==> !pages[p].eligible)))
    ensures Had(pages, p, Pending()) <= freePending
    ensures TalliesAre(pages[p := q], freePending - Had(pages, p, Pending()) + Ind(q.state.FreePending?), byPerm, byKind)
  {
    CountUpdate(pages, p, q, Pending());
    forall k ensures Count(pages[p := q], EligiblePerm(k)) == Count(pages, EligiblePerm(k)) { CountUpdate(pages, p, q, EligiblePerm(k)); }
    forall k ensures Count(pages[p := q], EligibleKind(k)) == Count(pages, EligibleKind(k)) { CountUpdate(pages, p, q, EligibleKind(k)); }
    assert p in pages && pages[p].state.FreePending? ==> p in Matching(pages, Pending());
  }

  /** An ineligible page becomes eligible. */
  lemma TallyAdd(pages: map<Pid, Page>, freePending: nat, byPerm: seq<nat>, byKind: seq<nat>, p: Pid, q: Page)
    requires TalliesAre(pages, freePending, byPerm, byKind) && q.eligible && q.perm < |byPerm| && q.kind < |byKind|
    requires !q.state.FreePending? && (p in pages ==> !pages[p].eligible && !pages[p].state.FreePending?)
    ensures TalliesAre(pages[p := q], freePending, byPerm[q.perm := byPerm[q.perm] + 1], byKind[q.kind := byKind[q.kind] + 1])
  {
    CountUpdate(pages, p, q, Pending());
    forall k ensures Count(pages[p := q], EligiblePerm(k)) == Count(pages, EligiblePerm(k)) + Ind(k == q.perm) { CountUpdate(pages, p, q, EligiblePerm(k)); }
    forall k ensures Count(pages[p := q], EligibleKind(k)) == Count(pages, EligibleKind(k)) + Ind(k == q.kind) { CountUpdate(pages, p, q, EligibleKind(k)); }
  }

  /** An eligible page becomes ineligible; neither histogram can be empty at its place. */
  lemma TallyDrop(pages: map<Pid, Page>, freePending: nat, byPerm: seq<nat>, byKind: seq<nat>, p: Pid)
    requires TalliesAre(pages, freePending, byPerm, byKind) && p in pages
    requires pages[p].eligible && pages[p].perm < |byPerm| && pages[p].kind < |byKind|
    ensures byPerm[pages[p].perm] > 0 && byKind[pages[p].kind] > 0
    ensures TalliesAre(pages[p := pages[p].(eligible := false)], freePending,
                       byPerm[pages[p].perm := byPerm[pages[p].perm] - 1], byKind[pages[p].kind := byKind[pages[p].kind] - 1])
  {
    var q := pages[p].(eligible := false);
    CountUpdate(pages, p, q, Pending());
    assert p in Matching(pages, EligiblePerm(q.perm)) && p in Matching(pages, EligibleKind(q.kind));
    forall k ensures Count(pages[p := q], EligiblePerm(k)) == Count(pages, EligiblePerm(k)) - Ind(k == q.perm) { CountUpdate(pages, p, q, EligiblePerm(k)); }
    forall k ensures Count(pages[p := q], EligibleKind(k)) == Count(pages, EligibleKind(k)) - Ind(k == q.kind) { CountUpdate(pages, p, q, EligibleKind(k)); }
  }

  /** An ineligible page goes away. */
  lemma TallyRemove(pages: map<Pid, Page>, freePending: nat, byPerm: seq<nat>, byKind: seq<nat>, p: Pid)
    requires TalliesAre(pages, freePending, byPerm, byKind) && p in pages && !pages[p].eligible
    ensures Had(pages, p, Pending()) <= freePending
    ensures TalliesAre(pages - {p}, freePending - Had(pages, p, Pending()), byPerm, byKind)
  {
    CountRemove(pages, p, Pending());
    forall k ensures Count(pages - {p}, EligiblePerm(k)) == Count(pages, EligiblePerm(k)) { CountRemove(pages, p, EligiblePerm(k)); }
    forall k ensures Count(pages - {p}, EligibleKind(k)) == Count(pages, EligibleKind(k)) { CountRemove(pages, p, EligibleKind(k)); }
    assert pages[p].state.FreePending? ==> p in Matching(pages, Pending());
  }

  // ------------------------------------------------------------------ the moves of the book

  /** A tracked page changes its state or marks. */
  function Moved(b: Book, p: Pid, q: Page): Book
    requires p in b.pages && Had(b.pages, p, Pending()) <= b.freePending
  {
    b.(pages := b.pages[p := q],
       claimed := if q.state.Demoting? then b.claimed + {p} else b.claimed - {p},
       freePending := b.freePending - Had(b.pages, p, Pending()) + Ind(q.state.FreePending?))
  }

  lemma MovedOk(b: Book, p: Pid, q: Page)
    requires Ok(b) && p in b.pages && PageOk(q, |b.byPerm|, |b.byKind|)
    requires !q.state.None? && !b.pages[p].state.None? && q.kind == b.pages[p].kind
    requires q.eligible == b.pages[p].eligible && (q.eligible ==> q.perm == b.pages[p].perm)
    ensures Had(b.pages, p, Pending()) <= b.freePending && Ok(Moved(b, p, q)) && SameMoney(b, Moved(b, p, q))
  {
    TallyQuiet(b.pages, b.freePending, b.byPerm, b.byKind, p, q);
    WeighUpdate(b.pages, p, q, Untracked());
    forall x ensures PlaceOk(Moved(b, p, q), x) { assert PlaceOk(b, x); }
  }

  /** Moving an entry to the head or to the tail of the FIFO. */
  lemma ShiftedOk(b: Book, p: Pid)
    requires Ok(b) && p in b.fifo
    ensures Ok(b.(fifo := [p] + Without(b.fifo, p))) && SameMoney(b, b.(fifo := [p] + Without(b.fifo, p)))
    ensures Ok(b.(fifo := Without(b.fifo, p) + [p])) && SameMoney(b, b.(fifo := Without(b.fifo, p) + [p]))
  {
    WithoutEntry(b.fifo, p);
    forall x ensures PlaceOk(b.(fifo := [p] + Without(b.fifo, p)), x) { assert PlaceOk(b, x); }
    forall x ensures PlaceOk(b.(fifo := Without(b.fifo, p) + [p]), x) { assert PlaceOk(b, x); }
  }

  /** A page that is in no histogram is removed. */
  function Removed(b: Book, p: Pid): Book
    requires p in b.pages && Had(b.pages, p, Pending()) <= b.freePending
  {
    b.(pages := b.pages - {p}, fifo := Without(b.fifo, p), claimed := b.claimed - {p},
       freePending := b.freePending - Had(b.pages, p, Pending()), atDoor := b.atDoor + {p})
  }

  lemma RemovedOk(b: Book, p: Pid)
    requires Ok(b) && p in b.pages && !b.pages[p].state.None? && !b.pages[p].eligible
    ensures Had(b.pages, p, Pending()) <= b.freePending && Ok(Removed(b, p))
    ensures |Removed(b, p).fifo| == |b.fifo| - 1 && Weigh(Removed(b, p).pages, Untracked()) == Weigh(b.pages, Untracked())
    ensures |Removed(b, p).atDoor| == |b.atDoor| + 1
  {
    assert PlaceOk(b, p);
    WithoutEntry(b.fifo, p);
    TallyRemove(b.pages, b.freePending, b.byPerm, b.byKind, p);
    WeighRemove(b.pages, p, Untracked());
    forall x ensures PlaceOk(Removed(b, p), x) { assert PlaceOk(b, x); }
  }

  ghost predicate Counted(b: Book, p: Pid) {
    && p in b.pages && b.pages[p].perm < |b.byPerm| && b.pages[p].kind < |b.byKind|
    && (b.pages[p].eligible ==> b.byPerm[b.pages[p].perm] > 0 && b.byKind[b.pages[p].kind] > 0)
  }

  /** The page leaves the histograms, if it was in them. */
  ghost function Uncounted(b: Book, p: Pid): Book
    requires Counted(b, p)
  {
    var q := b.pages[p];
    if !q.eligible then b
    else b.(pages := b.pages[p := q.(eligible := false)],
            byPerm := b.byPerm[q.perm := b.byPerm[q.perm] - 1], byKind := b.byKind[q.kind := b.byKind[q.kind] - 1])
  }

  lemma UncountedOk(b: Book, p: Pid)
    requires Ok(b) && p in b.pages
    ensures Counted(b, p) && Ok(Uncounted(b, p)) && SameMoney(b, Uncounted(b, p))
    ensures Uncounted(b, p).pages == b.pages[p := b.pages[p].(eligible := false)]
  {
    assert PlaceOk(b, p);
    var q := b.pages[p];
    if q.eligible {
      TallyDrop(b.pages, b.freePending, b.byPerm, b.byKind, p);
      WeighUpdate(b.pages, p, q.(eligible := false), Untracked());
      forall x ensures PlaceOk(Uncounted(b, p), x) { assert PlaceOk(b, x); }
    } else {
      assert b.pages == b.pages[p := q.(eligible := false)];
    }
  }

  /** The page enters the histograms. */
  function Recounted(b: Book, p: Pid, perm: nat): Book
    requires p in b.pages && perm < |b.byPerm| && b.pages[p].kind < |b.byKind|
  {
    var q := b.pages[p].(eligible := true, perm := perm);
    b.(pages := b.pages[p := q], byPerm := b.byPerm[perm := b.byPerm[perm] + 1], byKind := b.byKind[q.kind := b.byKind[q.kind] + 1])
  }

  lemma RecountedOk(b: Book, p: Pid, perm: nat)
    requires Ok(b) && p in b.pages && (b.pages[p].state.Resident? || b.pages[p].state.Demoting?)
    requires !b.pages[p].eligible && perm < |b.byPerm|
    ensures b.pages[p].kind < |b.byKind| && Ok(Recounted(b, p, perm)) && SameMoney(b, Recounted(b, p, perm))
  {
    assert PlaceOk(b, p);
    TallyAdd(b.pages, b.freePending, b.byPerm, b.byKind, p, b.pages[p].(eligible := true, perm := perm));
    WeighUpdate(b.pages, p, b.pages[p].(eligible := true, perm := perm), Untracked());
    forall x ensures PlaceOk(Recounted(b, p, perm), x) { assert PlaceOk(b, x); }
  }

  /** An allocated, untracked page of size 1 is published at the tail, in no histogram yet. */
  function Published(b: Book, op: TrackOp): Book {
    b.(pages := b.pages[op.page := Page(1, Resident, false, false, false, op.perm, op.kind)], fifo := b.fifo + [op.page])
  }

  lemma PublishedOk(b: Book, op: TrackOp)
    requires Ok(b) && Trackable(b.pages, op) && op.perm < |b.byPerm| && op.kind < |b.byKind|
    ensures Ok(Published(b, op)) && |Published(b, op).fifo| == |b.fifo| + 1
    ensures Weigh(Published(b, op).pages, Untracked()) == Weigh(b.pages, Untracked()) - 1
  {
    var q := Page(1, Resident, false, false, false, op.perm, op.kind);
    assert PlaceOk(b, op.page);
    TallyQuiet(b.pages, b.freePending, b.byPerm, b.byKind, op.page, q);
    WeighUpdate(b.pages, op.page, q, Untracked());
    forall x ensures PlaceOk(Published(b, op), x) { assert PlaceOk(b, x); }
  }

  /** It is also entered into the histograms if it is eligible. */
  function Booked(b: Book, op: TrackOp): Book
    requires op.perm < |b.byPerm| && op.kind < |b.byKind|
  {
    var q := Page(1, Resident, false, false, op.eligible, op.perm, op.kind);
    var n := b.(pages := b.pages[op.page := q], fifo := b.fifo + [op.page]);
    if !op.eligible then n
    else n.(byPerm := b.byPerm[op.perm := b.byPerm[op.perm] + 1], byKind := b.byKind[op.kind := b.byKind[op.kind] + 1])
  }

  lemma BookedOk(b: Book, op: TrackOp)
    requires Ok(b) && Trackable(b.pages, op) && op.perm < |b.byPerm| && op.kind < |b.byKind|
    ensures Ok(Booked(b, op)) && Weigh(Booked(b, op).pages, Untracked()) == Weigh(b.pages, Untracked()) - 1
  {
    PublishedOk(b, op);
    if op.eligible {
      RecountedOk(Published(b, op), op.page, op.perm);
      assert Booked(b, op).pages == Recounted(Published(b, op), op.page, op.perm).pages;
    }
  }

  class Reclaim {
    const total: nat
    const limit: nat
    var pages: map<Pid, Page>
    var fifo: seq<Pid>
    var claimed: set<Pid>          // the worker's candidates in state DEMOTING
    var freePending: nat
    var byKind: seq<nat>
    var byPerm: seq<nat>
    var inUse: nat
    var reserved: nat
    var resident: nat
    var resReserved: nat
    var pendingReclaim: nat
    var leaving: nat               // pages between the two critical sections of their removal
    var atDoor: set<Pid>           // those of them whose frame the allocator has not got back yet
    var heldPages: seq<nat>        // per thread: pages reserved and not yet committed or cancelled
    var heldResident: seq<nat>     // per thread: residency reserved and not yet used or cancelled

    function View(): Book
      reads this
    {
      Book(pages, fifo, claimed, freePending, byPerm, byKind, atDoor)
    }

    /** The counters, while k pages have joined the FIFO that are not yet accounted. */
    ghost predicate MoneyOk(k: nat)
      reads this
    {
      && total < U64
      && resident + k == |fifo| + leaving
      && inUse == |fifo| + Weigh(pages, Untracked()) + leaving
      && inUse + reserved <= total
      && reserved == Sum(heldPages) && resReserved == Sum(heldResident) && resReserved < U64
      && |heldPages| == |heldResident| && |atDoor| <= leaving
      && (resident + resReserved > limit ==> pendingReclaim != 0)
    }

    ghost predicate Valid()
      reads this
    {
      Ok(View()) && MoneyOk(0)
    }

    constructor (total: nat, limit: nat, kinds: nat, threads: nat)
      requires total < U64
      ensures Valid() && this.total == total && this.limit == limit && pages == map[] && fifo == [] && leaving == 0 && atDoor == {}
      ensures inUse == reserved == resident == resReserved == 0 && |byKind| == kinds && |heldPages| == threads
      ensures forall t :: 0 <= t < threads ==> heldPages[t] == heldResident[t] == 0
    {
      this.total, this.limit := total, limit;
      pages, fifo, claimed, atDoor := map[], [], {}, {};
      freePending, inUse, reserved, resident, resReserved, pendingReclaim, leaving := 0, 0, 0, 0, 0, 0, 0;
      byKind, byPerm := seq(kinds, _ => 0), seq(PERMS, _ => 0);
      heldPages, heldResident := seq(threads, _ => 0), seq(threads, _ => 0);
      new;
      ZeroSum(threads);
      assert forall f: Page -> bool :: Matching(pages, f) == {};
    }

    // ---------------------------------------------------------------- page capacity

    method ReservePages(t: nat, n: nat) returns (ret: int)
      requires Valid() && t < |heldPages| && n < U64
      modifies this`reserved, this`heldPages
      ensures ret == 0 <==> Admits(inUse, old(reserved), total, n)
      ensures ret == 0 ==> reserved == (old(reserved) + n) % U64 && heldPages == old(heldPages)[t := old(heldPages)[t] + n]
      ensures ret != 0 ==> ret == ENOMEM && reserved == old(reserved) && heldPages == old(heldPages)
      ensures old(reserved) + n < U64 ==> Valid() && (ret == 0 <==> inUse + old(reserved) + n <= total)
    {
      AdmissionFits(inUse, reserved, total, n);
      var projected := (inUse + reserved + n) % U64;
      if projected < inUse || projected > total {
        return ENOMEM;
      }
      SumUpdate(heldPages, t, heldPages[t] + n);
      reserved := (reserved + n) % U64;
      heldPages := heldPages[t := heldPages[t] + n];
      ret := 0;
    }

    /** The reserved pages become a fresh allocated block. */
    method CommitReserved(t: nat, n: nat, p: Pid)
      requires Valid() && t < |heldPages| && 1 <= n <= heldPages[t] && p !in pages && p !in atDoor && |byKind| > 0
      modifies this`reserved, this`heldPages, this`inUse, this`pages
      ensures Valid() && reserved == old(reserved) - n && inUse == old(inUse) + n
      ensures heldPages == old(heldPages)[t := old(heldPages)[t] - n]
      ensures pages == old(pages)[p := Page(n, None, false, false, false, 0, 0)]
    {
      SumUpdate(heldPages, t, heldPages[t] - n);
      assert !(reserved < n);                                            // BUG_ON
      reserved, inUse := reserved - n, inUse + n;
      heldPages := heldPages[t := heldPages[t] - n];
      TallyQuiet(pages, freePending, byPerm, byKind, p, Page(n, None, false, false, false, 0, 0));
      WeighUpdate(pages, p, Page(n, None, false, false, false, 0, 0), Untracked());
      ghost var b := View();
      pages := pages[p := Page(n, None, false, false, false, 0, 0)];
      forall x ensures PlaceOk(View(), x) { assert PlaceOk(b, x); }
    }

    method CancelReserved(t: nat, n: nat)
      requires Valid() && t < |heldPages| && n <= heldPages[t]
      modifies this`reserved, this`heldPages
      ensures Valid() && reserved == old(reserved) - n && heldPages == old(heldPages)[t := old(heldPages)[t] - n]
    {
      SumUpdate(heldPages, t, heldPages[t] - n);
      assert !(reserved < n);                                            // BUG_ON
      reserved := reserved - n;
      heldPages := heldPages[t := heldPages[t] - n];
    }

    // ---------------------------------------------------------------- residency and demand

    /** Never refuses for lack of room: going over the limit publishes reclaim demand instead. */
    method ReserveResident(t: nat, n: nat) returns (ret: int)
      requires Valid() && t < |heldResident| && n < U64
      modifies this`resReserved, this`heldResident, this`pendingReclaim
      ensures Valid()
      ensures ret == 0 || ret == EINVAL || ret == ENOMEM
      ensures ret == EINVAL <==> n == 0
      ensures ret == ENOMEM <==> n > 0 && old(resReserved) + n >= U64
      ensures ret == 0 ==> resReserved == old(resReserved) + n && heldResident == old(heldResident)[t := old(heldResident)[t] + n]
      ensures ret != 0 ==> resReserved == old(resReserved) && pendingReclaim == old(pendingReclaim)
      ensures ret == 0 ==> pendingReclaim == (if resident + resReserved > limit && old(pendingReclaim) < n then n else old(pendingReclaim))
    {
      if n == 0 {
        return EINVAL;
      }
      if (resReserved + n) % U64 < resReserved {
        return ENOMEM;
      }
      SumUpdate(heldResident, t, heldResident[t] + n);
      heldResident := heldResident[t := heldResident[t] + n];
      resReserved := resReserved + n;
      var over := resident > limit || resReserved > limit - (if resident < limit then resident else limit);
      if over {
        if pendingReclaim < n {
          pendingReclaim := n;
        }
      }
      ret := 0;
    }

    method CancelResident(t: nat, n: nat)
      requires Valid() && t < |heldResident| && n <= heldResident[t]
      modifies this`resReserved, this`heldResident
      ensures Valid() && resReserved == old(resReserved) - n && heldResident == old(heldResident)[t := old(heldResident)[t] - n]
    {
      SumUpdate(heldResident, t, heldResident[t] - n);
      assert !(resReserved < n);                                         // BUG_ON
      resReserved := resReserved - n;
      heldResident := heldResident[t := heldResident[t] - n];
    }

    /** The worker retires the demand hint only when usage is back within the limit. */
    method CheckDemand() returns (demand: bool)
      requires Valid()
      modifies this`pendingReclaim
      ensures Valid()
      ensures demand <==> resident + resReserved > limit
      ensures pendingReclaim == if demand then old(pendingReclaim) else 0
    {
      demand := pendingReclaim != 0;
      if demand {
        if resident > limit || resReserved > limit - resident {
          demand := true;
        } else {
          pendingReclaim := 0;
          demand := false;
        }
      }
    }

    // ---------------------------------------------------------------- policy histograms

    /** unaccount_page_policy_locked */
    method Unaccount(p: Pid)
      requires Valid() && p in pages
      modifies this`pages, this`byPerm, this`byKind
      ensures Valid() && pages == old(pages)[p := old(pages)[p].(eligible := false)]
    {
      ghost var b := View();
      UncountedOk(b, p);
      var q := pages[p];
      if q.eligible {
        assert !(byKind[q.kind] == 0) && !(byPerm[q.perm] == 0);         // BUG_ON
        byKind := byKind[q.kind := byKind[q.kind] - 1];
        byPerm := byPerm[q.perm := byPerm[q.perm] - 1];
        pages := pages[p := q.(eligible := false)];
      }
      assert View() == Uncounted(b, p);
    }

    method Account(p: Pid, perm: nat)
      requires Valid() && p in pages && (pages[p].state.Resident? || pages[p].state.Demoting?)
      requires !pages[p].eligible && perm < PERMS
      modifies this`pages, this`byPerm, this`byKind
      ensures Valid() && pages == old(pages)[p := old(pages)[p].(eligible := true, perm := perm)]
    {
      ghost var b := View();
      RecountedOk(b, p, perm);
      byKind := byKind[pages[p].kind := byKind[pages[p].kind] + 1];
      byPerm := byPerm[perm := byPerm[perm] + 1];
      pages := pages[p := pages[p].(eligible := true, perm := perm)];
      assert View() == Recounted(b, p, perm);
    }

    /** The cached permission of an ineligible page is in no histogram. */
    method Reperm(p: Pid, perm: nat)
      requires Valid() && p in pages && !pages[p].state.None? && !pages[p].eligible && perm < PERMS
      modifies this`pages
      ensures Valid() && pages == old(pages)[p := old(pages)[p].(perm := perm)]
    {
      ghost var b := View();
      assert PlaceOk(b, p);
      MovedOk(b, p, pages[p].(perm := perm));
      pages := pages[p := pages[p].(perm := perm)];
      assert View() == Moved(b, p, pages[p]);
    }

    /** account_page_policy_locked */
    method SetPolicy(p: Pid, eligible: bool, perm: nat)
      requires Valid() && p in pages && (pages[p].state.Resident? || pages[p].state.Demoting?) && perm < PERMS
      modifies this`pages, this`byPerm, this`byKind
      ensures Valid() && pages == old(pages)[p := old(pages)[p].(eligible := eligible, perm := perm)]
    {
      if pages[p].eligible && (!eligible || pages[p].perm != perm) {
        Unaccount(p);
        SetFresh(p, eligible, perm);
      } else {
        SetFresh(p, eligible, perm);
      }
    }

    /** The rest of it, for a page that is in no histogram or in the right ones already. */
    method SetFresh(p: Pid, eligible: bool, perm: nat)
      requires Valid() && p in pages && (pages[p].state.Resident? || pages[p].state.Demoting?) && perm < PERMS
      requires pages[p].eligible ==> eligible && pages[p].perm == perm
      modifies this`pages, this`byPerm, this`byKind
      ensures Valid() && pages == old(pages)[p := old(pages)[p].(eligible := eligible, perm := perm)]
    {
      if eligible && !pages[p].eligible {
        Account(p, perm);
      } else if !eligible {
        Reperm(p, perm);
      } else {
        assert pages == pages[p := pages[p].(eligible := eligible, perm := perm)];
      }
    }

    // ---------------------------------------------------------------- tracking

    /** Publish one promoted page at the tail of the FIFO, or say why not. */
    method TrackOne(op: TrackOp) returns (ret: int)
      requires Ok(View()) && op.perm < |byPerm| && op.kind < |byKind|
      modifies this`pages, this`fifo, this`byPerm, this`byKind
      ensures Ok(View()) && |byKind| == old(|byKind|)
      ensures ret == Verdict(old(pages), op)
      ensures ret == 0 ==>
                && pages == old(pages)[op.page := Page(1, Resident, false, false, op.eligible, op.perm, op.kind)]
                && fifo == old(fifo) + [op.page]
                && Weigh(pages, Untracked()) == old(Weigh(pages, Untracked())) - 1
      ensures ret != 0 ==> View() == old(View())
    {
      var p := op.page;
      if !op.valid || p !in pages || pages[p].size != 1 {
        return EINVAL;
      }
      if !pages[p].state.None? {
        return EEXIST;
      }
      Publish(op);
      ret := 0;
    }

    method Publish(op: TrackOp)
      requires Ok(View()) && Trackable(pages, op) && op.perm < |byPerm| && op.kind < |byKind|
      modifies this`pages, this`fifo, this`byPerm, this`byKind
      ensures Ok(View()) && |byKind| == old(|byKind|) && fifo == old(fifo) + [op.page]
      ensures pages == old(pages)[op.page := Page(1, Resident, false, false, op.eligible, op.perm, op.kind)]
      ensures Weigh(pages, Untracked()) == old(Weigh(pages, Untracked())) - 1
    {
      BookedOk(View(), op);
      if op.eligible {
        byKind := byKind[op.kind := byKind[op.kind] + 1];
        byPerm := byPerm[op.perm := byPerm[op.perm] + 1];
      }
      pages := pages[op.page := Page(1, Resident, false, false, op.eligible, op.perm, op.kind)];
      fifo := fifo + [op.page];
      assert View() == Booked(old(View()), op);
    }

    /** The loop of dsm_cxl_track_pages. */
    method TrackAll(ops: seq<TrackOp>) returns (tracked: nat, results: seq<int>)
      requires Ok(View()) && forall i :: 0 <= i < |ops| ==> ops[i].perm < |byPerm| && ops[i].kind < |byKind|
      modifies this`pages, this`fifo, this`byPerm, this`byKind
      ensures Ok(View()) && |results| == |ops| && Tracking(old(View()), View(), ops, results, tracked)
    {
      tracked, results := 0, [];
      var i := 0;
      assert fifo + [] == fifo;
      while i < |ops|
        invariant 0 <= i <= |ops| && |results| == i && |byKind| == old(|byKind|)
        invariant Ok(View()) && Tracking(old(View()), View(), ops, results, tracked)
      {
        ghost var b := View();
        var r := TrackOne(ops[i]);
        TrackingMore(old(View()), b, View(), ops, results, tracked, r);
        results := results + [r];
        if r == 0 {
          tracked := tracked + 1;
        }
        i := i + 1;
      }
    }

    /** The second half under both locks: reservations become resident pages. */
    method ChargeTracked(t: nat, tracked: nat)
      requires Ok(View()) && MoneyOk(tracked) && t < |heldResident| && tracked <= heldResident[t]
      modifies this`resReserved, this`heldResident, this`resident
      ensures Valid() && resident == old(resident) + tracked && resReserved == old(resReserved) - tracked
      ensures heldResident == old(heldResident)[t := old(heldResident)[t] - tracked]
    {
      SumUpdate(heldResident, t, heldResident[t] - tracked);
      assert !(resReserved < tracked) && !((resident + tracked) % U64 < resident);     // BUG_ON
      heldResident := heldResident[t := heldResident[t] - tracked];
      resReserved := resReserved - tracked;
      resident := resident + tracked;
    }

    /** One promotion batch under one FIFO/accounting lock pair. */
    method TrackPages(t: nat, ops: seq<TrackOp>) returns (ret: int, results: seq<int>)
      requires Valid() && t < |heldResident| && |ops| <= heldResident[t]
      requires forall i :: 0 <= i < |ops| ==> ops[i].perm < PERMS && ops[i].kind < |byKind|
      modifies this`pages, this`fifo, this`byPerm, this`byKind, this`resReserved, this`heldResident, this`resident
      ensures Valid()
      ensures ret == (if |ops| == 0 || |ops| > MAX_BATCH then EINVAL else 0)
      ensures ret == 0 ==> |results| == |ops| && Tracking(old(View()), View(), ops, results, |fifo| - |old(fifo)|)
      ensures ret != 0 ==> View() == old(View())
      ensures resident == old(resident) + (|fifo| - |old(fifo)|) && resReserved == old(resReserved) - (|fifo| - |old(fifo)|)
    {
      ret, results := 0, [];
      if |ops| == 0 || |ops| > MAX_BATCH {
        return EINVAL, [];
      }
      var tracked: nat;
      tracked, results := TrackAll(ops);
      ChargeTracked(t, tracked);
    }

    // ---------------------------------------------------------------- freeing

    /**
      dsm_cxl_free_page: free an untracked block, park a resident page, or leave word for the worker.  A page that has
      left the FIFO is still marked allocated until its frame is returned, and looks like an untracked block: freeing it
      then gives it back a second time.
     */
    method FreePage(p: Pid)
      requires Valid()
      modifies this`pages, this`fifo, this`freePending, this`byPerm, this`byKind, this`inUse
      ensures Valid() <==> p !in old(atDoor)
      ensures inUse == old(inUse) - (if p in old(atDoor) then 1
                                     else if p in old(pages) && old(pages)[p].state.None? then old(pages)[p].size else 0)
      ensures p !in old(pages) ==> View() == old(View())
      ensures p in old(pages) ==>
                var q := old(pages)[p];
                if q.scanning || q.state.Demoting? then pages == old(pages)[p := q.(freeReq := true)] && fifo == old(fifo)
                else if q.state.FreePending? || q.state.Freeing? then pages == old(pages) && fifo == old(fifo)
                else if q.state.Resident? then
                  pages == old(pages)[p := q.(state := FreePending, eligible := false)] && fifo == [p] + Without(old(fifo), p)
                else pages == old(pages) - {p} && fifo == old(fifo)
    {
      if p in atDoor {
        inUse := inUse - 1;
        return;
      }
      if p !in pages {
        return;
      }
      var q := pages[p];
      assert PlaceOk(View(), p);
      if q.scanning || q.state.Demoting? {
        Replace(p, q.(freeReq := true));
      } else if q.state.FreePending? || q.state.Freeing? {
        return;
      } else if q.state.Resident? {
        Park(p);
      } else {
        FreeBlock(p);
      }
    }

    /** A tracked page changes a mark or a state that no histogram shows. */
    method Replace(p: Pid, q: Page)
      requires Valid() && p in pages && PageOk(q, |byPerm|, |byKind|) && !q.state.None? && !pages[p].state.None?
      requires q.eligible == pages[p].eligible && q.perm == pages[p].perm && q.kind == pages[p].kind
      requires q.state.Demoting? <==> pages[p].state.Demoting?
      modifies this`pages, this`freePending
      ensures Valid() && pages == old(pages)[p := q]
      ensures freePending == old(freePending) - Had(old(pages), p, Pending()) + Ind(q.state.FreePending?)
    {
      ghost var b := View();
      assert PlaceOk(b, p);
      MovedOk(b, p, q);
      if pages[p].state.FreePending? {
        assert !(freePending == 0);                                      // BUG_ON
        freePending := freePending - 1;
      }
      if q.state.FreePending? {
        freePending := freePending + 1;
      }
      pages := pages[p := q];
      assert claimed == Moved(b, p, q).claimed;
      assert SameMoney(b, View());
    }

    /** An untracked block goes straight back to the allocator. */
    method FreeBlock(p: Pid)
      requires Valid() && p in pages && pages[p].state.None?
      modifies this`pages, this`inUse
      ensures Valid() && pages == old(pages) - {p} && inUse == old(inUse) - old(pages)[p].size
    {
      ghost var b := View();
      assert PlaceOk(b, p);
      WeighRemove(pages, p, Untracked());
      TallyRemove(pages, freePending, byPerm, byKind, p);
      assert !(inUse < pages[p].size);                                   // BUG_ON
      inUse := inUse - pages[p].size;
      pages := pages - {p};
      forall x ensures PlaceOk(View(), x) { assert PlaceOk(b, x); }
    }

    /** RESIDENT becomes FREE_PENDING at the head of the FIFO. */
    method Park(p: Pid)
      requires Valid() && p in pages && pages[p].state.Resident? && !pages[p].scanning
      modifies this`pages, this`fifo, this`freePending, this`byPerm, this`byKind
      ensures Valid() && fifo == [p] + Without(old(fifo), p)
      ensures pages == old(pages)[p := old(pages)[p].(state := FreePending, eligible := false)]
    {
      Unaccount(p);
      assert PlaceOk(View(), p);
      Replace(p, pages[p].(state := FreePending));
      assert PlaceOk(View(), p);
      ShiftedOk(View(), p);
      fifo := [p] + Without(fifo, p);
    }

    /** First section of the final free; nothing happens unless the origin frame has been released. */
    method FinalizeFirst(p: Pid, originReleased: bool) returns (going: bool)
      requires Valid()
      modifies this`pages, this`fifo, this`freePending, this`leaving, this`atDoor
      ensures Valid()
      ensures going <==> p in old(pages) && (old(pages)[p].state.FreePending? || old(pages)[p].state.Freeing?) && originReleased
      ensures going ==> pages == old(pages) - {p} && fifo == Without(old(fifo), p) && leaving == old(leaving) + 1 && atDoor == old(atDoor) + {p}
      ensures !going ==> pages == old(pages) && fifo == old(fifo) && leaving == old(leaving) && atDoor == old(atDoor)
    {
      if p !in pages || !(pages[p].state.FreePending? || pages[p].state.Freeing?) || !originReleased {
        return false;
      }
      Depart(p);
      going := true;
    }

    /** A page whose origin frame is released leaves the FIFO; its second section is still to come. */
    method Depart(p: Pid)
      requires Valid() && p in pages && (pages[p].state.FreePending? || pages[p].state.Freeing?)
      modifies this`pages, this`fifo, this`freePending, this`leaving, this`atDoor
      ensures Valid() && pages == old(pages) - {p} && fifo == Without(old(fifo), p)
      ensures leaving == old(leaving) + 1 && atDoor == old(atDoor) + {p}
    {
      assert PlaceOk(View(), p);
      RemovedOk(View(), p);
      assert claimed == claimed - {p};
      Drop(p);
    }

    /** The part both removals share. */
    method Drop(p: Pid)
      requires p in pages && Had(pages, p, Pending()) <= freePending
      modifies this`pages, this`fifo, this`freePending, this`leaving, this`atDoor
      ensures View() == Removed(old(View()), p).(claimed := claimed) && leaving == old(leaving) + 1
    {
      if pages[p].state.FreePending? {
        assert !(freePending == 0);                                      // BUG_ON
        freePending := freePending - 1;
      }
      fifo := Without(fifo, p);
      pages := pages - {p};
      leaving, atDoor := leaving + 1, atDoor + {p};
    }

    /** buddy_free_pages on a page that has left the FIFO. */
    method ReturnFrame(p: Pid)
      requires Valid() && p in atDoor
      modifies this`atDoor
      ensures Valid() && atDoor == old(atDoor) - {p}
    {
      ghost var b := View();
      atDoor := atDoor - {p};
      forall x ensures PlaceOk(View(), x) { assert PlaceOk(b, x); }
    }

    /** Second section, after the frame went back to the allocator. */
    method RemovalSecond()
      requires Valid() && leaving > |atDoor|
      modifies this`leaving, this`inUse, this`resident
      ensures Valid() && leaving == old(leaving) - 1 && inUse == old(inUse) - 1 && resident == old(resident) - 1
    {
      assert !(inUse == 0) && !(resident == 0);                          // BUG_ON
      leaving, inUse, resident := leaving - 1, inUse - 1, resident - 1;
    }

    /** Start an origin release: FREE_PENDING becomes FREEING. */
    method ReleaseStart(p: Pid) returns (ok: bool)
      requires Valid()
      modifies this`pages, this`freePending
      ensures Valid()
      ensures ok <==> p in old(pages) && (old(pages)[p].state.FreePending? || old(pages)[p].state.Freeing?)
      ensures pages == if ok then old(pages)[p := old(pages)[p].(state := Freeing)] else old(pages)
    {
      ok := p in pages && (pages[p].state.FreePending? || pages[p].state.Freeing?);
      if ok {
        assert PlaceOk(View(), p);
        Replace(p, pages[p].(state := Freeing));
      }
    }

    /** A release that did not go through: park the page at the head again. */
    method DeferRelease(p: Pid)
      requires Valid()
      modifies this`pages, this`fifo, this`freePending
      ensures Valid()
      ensures p in old(pages) && old(pages)[p].state.Freeing? ==>
                pages == old(pages)[p := old(pages)[p].(state := FreePending)] && fifo == [p] + Without(old(fifo), p)
      ensures !(p in old(pages) && old(pages)[p].state.Freeing?) ==> pages == old(pages) && fifo == old(fifo)
    {
      if p in pages && pages[p].state.Freeing? {
        assert PlaceOk(View(), p);
        Replace(p, pages[p].(state := FreePending));
        assert PlaceOk(View(), p);
        ShiftedOk(View(), p);
        fifo := [p] + Without(fifo, p);
      }
    }

    /** One turn of the scan. */
    method ClaimAt(i: nat, got: seq<Pid>, ghost before: map<Pid, Page>) returns (now: seq<Pid>)
      requires Valid() && i < |fifo| && Claims(before, pages, got) && NonePendingTo(pages, fifo, i)
      requires got == PendingIn(before, fifo[..i])
      modifies this`pages, this`freePending
      ensures Valid() && Claims(before, pages, now) && NonePendingTo(pages, fifo, i + 1)
      ensures now == PendingIn(before, fifo[..i + 1])
      ensures freePending == old(freePending) - (|now| - |got|) && |got| <= |now| <= |got| + 1
    {
      var p := fifo[i];
      now := got;
      assert PlaceOk(View(), p);
      PendingNext(before, pages, fifo, i, got);
      if pages[p].state.FreePending? {
        ClaimsMore(before, pages, got, p, fifo, i);
        Replace(p, pages[p].(state := Freeing));
        now := got + [p];
      }
    }

    /** Claim the first `limit` pending pages, or all of them, in the order of the FIFO. */
    method ClaimPending(limit: nat) returns (got: seq<Pid>)
      requires Valid() && limit > 0
      modifies this`pages, this`freePending
      ensures Valid() && |got| == (if old(freePending) < limit then old(freePending) else limit)
      ensures Claims(old(pages), pages, got) && freePending == old(freePending) - |got|
      ensures got <= PendingIn(old(pages), fifo)
    {
      got := [];
      if freePending == 0 {
        return;
      }
      var i, remaining := 0, freePending;
      while i < |fifo| && remaining > 0 && |got| < limit
        invariant 0 <= i <= |fifo| && Valid() && remaining == freePending && freePending == old(freePending) - |got|
        invariant |got| <= limit && Claims(old(pages), pages, got) && NonePendingTo(pages, fifo, i)
        invariant got == PendingIn(old(pages), fifo[..i])
      {
        var now := ClaimAt(i, got, old(pages));
        remaining := remaining - (|now| - |got|);
        got := now;
        i := i + 1;
      }
      PendingPrefix(old(pages), fifo, i);
      if i == |fifo| && remaining > 0 {
        NonePending();
      }
    }

    /** When no entry of the FIFO is pending, none is counted. */
    lemma NonePending()
      requires Valid() && NonePendingTo(pages, fifo, |fifo|)
      ensures freePending == 0
    {
      forall p | p in pages ensures !pages[p].state.FreePending? {
        assert PlaceOk(View(), p);
        if !pages[p].state.None? {
          var j :| 0 <= j < |fifo| && fifo[j] == p;
        }
      }
      assert Matching(pages, Pending()) == {};
    }

    // ---------------------------------------------------------------- demotion

    /** Pin a resident page for inspection, or skip it. */
    method StartScan(p: Pid) returns (ok: bool)
      requires Valid()
      modifies this`pages, this`freePending
      ensures Valid() && freePending == old(freePending)
      ensures ok <==> p in old(pages) && old(pages)[p].state.Resident? && !old(pages)[p].scanning
      ensures pages == if ok then old(pages)[p := old(pages)[p].(scanning := true)] else old(pages)
    {
      ok := p in pages && pages[p].state.Resident? && !pages[p].scanning;
      if ok {
        assert PlaceOk(View(), p);
        Replace(p, pages[p].(scanning := true));
      }
    }

    /** Unpin a scanned page; the answer says whether a free arrived meanwhile. */
    method EndScan(p: Pid) returns (freeRequested: bool)
      requires Valid()
      modifies this`pages, this`freePending
      ensures Valid() && freePending == old(freePending)
      ensures freeRequested <==> p in old(pages) && old(pages)[p].scanning && !old(pages)[p].state.None? && old(pages)[p].freeReq
      ensures pages == if p in old(pages) && !old(pages)[p].state.None? then old(pages)[p := old(pages)[p].(scanning := false)] else old(pages)
    {
      freeRequested := false;
      if p in pages && !pages[p].state.None? {
        freeRequested := pages[p].scanning && pages[p].freeReq;
        assert PlaceOk(View(), p);
        Replace(p, pages[p].(scanning := false));
      }
    }

    method ClaimScanned(p: Pid, pmoNames: bool) returns (ok: bool)
      requires Valid()
      modifies this`pages, this`claimed
      ensures Valid()
      ensures ok <==> p in old(pages) && old(pages)[p].scanning && old(pages)[p].state.Resident? && pmoNames
      ensures pages == if ok then old(pages)[p := old(pages)[p].(scanning := false, state := Demoting)] else old(pages)
      ensures claimed == if ok then old(claimed) + {p} else old(claimed)
    {
      ok := p in pages && pages[p].scanning && pages[p].state.Resident? && pmoNames;
      if ok {
        ghost var b := View();
        assert PlaceOk(b, p);
        MovedOk(b, p, pages[p].(scanning := false, state := Demoting));
        pages := pages[p := pages[p].(scanning := false, state := Demoting)];
        claimed := claimed + {p};
        assert SameMoney(b, View());
      }
    }

    /** Restore or defer: a claimed page is resident again; a deferred one goes to the tail. */
    method PutBack(p: Pid, toTail: bool) returns (freeRequested: bool)
      requires Valid() && p in claimed && p in pages
      modifies this`pages, this`claimed, this`fifo
      ensures Valid() && freeRequested == old(pages)[p].freeReq
      ensures pages == old(pages)[p := old(pages)[p].(state := Resident)] && claimed == old(claimed) - {p}
      ensures fifo == if toTail then Without(old(fifo), p) + [p] else old(fifo)
    {
      freeRequested := pages[p].freeReq;
      ghost var b := View();
      assert PlaceOk(b, p);
      MovedOk(b, p, pages[p].(state := Resident));
      pages := pages[p := pages[p].(state := Resident)];
      claimed := claimed - {p};
      assert SameMoney(b, View());
      if toTail {
        assert PlaceOk(View(), p);
        ShiftedOk(View(), p);
        fifo := Without(fifo, p) + [p];
      }
    }

    /** State change of finish_candidate: hand over to the free path, or leave the FIFO for good. */
    method Finish(p: Pid, freeRequested: bool)
      requires Valid() && p in claimed && p in pages
      modifies this`pages, this`claimed, this`fifo, this`freePending, this`byPerm, this`byKind, this`leaving, this`atDoor
      ensures Valid() && claimed == old(claimed) - {p} && freePending == old(freePending)
      ensures freeRequested ==>
                pages == old(pages)[p := old(pages)[p].(state := Freeing, eligible := false)] && fifo == old(fifo) && leaving == old(leaving) && atDoor == old(atDoor)
      ensures !freeRequested ==>
                pages == old(pages) - {p} && fifo == Without(old(fifo), p) && leaving == old(leaving) + 1 && atDoor == old(atDoor) + {p}
    {
      assert PlaceOk(View(), p);
      assert pages[p].state.Demoting?;                                   // BUG_ON
      if freeRequested {
        HandOver(p);
      } else {
        Leave(p);
      }
    }

    /** The free path takes the page over. */
    method HandOver(p: Pid)
      requires Valid() && p in pages && pages[p].state.Demoting?
      modifies this`pages, this`claimed, this`byPerm, this`byKind
      ensures Valid() && claimed == old(claimed) - {p}
      ensures pages == old(pages)[p := old(pages)[p].(state := Freeing, eligible := false)]
    {
      Unaccount(p);
      ghost var b := View();
      assert PlaceOk(b, p);
      MovedOk(b, p, b.pages[p].(state := Freeing));
      claimed := claimed - {p};
      pages := pages[p := pages[p].(state := Freeing)];
      assert View() == Moved(b, p, b.pages[p].(state := Freeing));
    }

    /** The page has left CXL; its second section is still to come. */
    method Leave(p: Pid)
      requires Valid() && p in pages && pages[p].state.Demoting?
      modifies this`pages, this`claimed, this`fifo, this`freePending, this`byPerm, this`byKind, this`leaving, this`atDoor
      ensures Valid() && claimed == old(claimed) - {p} && leaving == old(leaving) + 1 && atDoor == old(atDoor) + {p}
      ensures pages == old(pages) - {p} && fifo == Without(old(fifo), p) && freePending == old(freePending)
    {
      Unaccount(p);
      Unclaim(p);
      assert pages == old(pages) - {p};
    }

    method Unclaim(p: Pid)
      requires Valid() && p in pages && pages[p].state.Demoting? && !pages[p].eligible
      modifies this`pages, this`claimed, this`fifo, this`freePending, this`leaving, this`atDoor
      ensures Valid() && claimed == old(claimed) - {p} && leaving == old(leaving) + 1 && atDoor == old(atDoor) + {p}
      ensures pages == old(pages) - {p} && fifo == Without(old(fifo), p) && freePending == old(freePending)
    {
      RemovedOk(View(), p);
      assert Had(pages, p, Pending()) == 0;
      Drop(p);
      claimed := claimed - {p};
      assert View() == Removed(old(View()), p);
    }
  }

  /** One page has been allocated. */
  method OneBlock() returns (r: Reclaim)
    ensures fresh(r) && r.Valid() && r.pages == map[7 := Page(1, None, false, false, false, 0, 0)] && r.fifo == []
    ensures r.inUse == 1 && r.resident == r.resReserved == 0 && r.atDoor == {}
    ensures |r.byKind| == |r.heldResident| == 1 && r.heldResident[0] == 0
  {
    r := new Reclaim(4, 4, 1, 1);
    var ok := r.ReservePages(0, 1);
    r.CommitReserved(0, 1, 7);
  }

  /** One page has been promoted. */
  method OneResident() returns (r: Reclaim)
    ensures fresh(r) && r.Valid() && r.pages == map[7 := Page(1, Resident, false, false, false, 0, 0)]
    ensures r.inUse == r.resident == 1 && r.atDoor == {}
  {
    r := OneBlock();
    var ok := r.ReserveResident(0, 1);
    var ops := [TrackOp(7, true, false, 0, 0)];
    ghost var b := r.View();
    var results;
    ok, results := r.TrackPages(0, ops);
    OneTracked(b, r.View(), ops[0], results);
  }

  /** A batch of one page that can be tracked. */
  lemma OneTracked(a: Book, b: Book, op: TrackOp, results: seq<int>)
    requires |results| == 1 && Tracking(a, b, [op], results, |b.fifo| - |a.fifo|) && Verdict(a.pages, op) == 0
    ensures b.pages == a.pages[op.page := Page(1, Resident, false, false, op.eligible, op.perm, op.kind)]
    ensures |b.fifo| == |a.fifo| + 1
  {
    assert PagesAfter(a.pages, [op], 0) == a.pages && results[0] == 0;
    assert Successes([op], results) == Successes([op], results[..0]) + [op.page];
  }

  /** A promoted page is freed, leaves the FIFO, and is freed again before its frame is returned: the counters come out wrong. */
  method FreedTwice() returns (r: Reclaim)
    ensures fresh(r) && !r.Valid() && r.inUse == 0 && r.resident == 1
  {
    r := OneResident();
    r.FreePage(7);
    var going := r.FinalizeFirst(7, true);
    r.FreePage(7);
  }

  ghost predicate Trackable(pages: map<Pid, Page>, op: TrackOp) {
    op.valid && op.page in pages && pages[op.page].size == 1 && pages[op.page].state.None?
  }

  /** What the batch says of one operation: not a valid single CXL page, tracked already, or tracked now. */
  ghost function Verdict(pages: map<Pid, Page>, op: TrackOp): int {
    if !op.valid || op.page !in pages || pages[op.page].size != 1 then EINVAL
    else if !pages[op.page].state.None? then EEXIST
    else 0
  }

  /** The pages after the first n operations of a batch; each sees what the ones before it did. */
  ghost function PagesAfter(pages: map<Pid, Page>, ops: seq<TrackOp>, n: nat): map<Pid, Page>
    requires n <= |ops|
  {
    if n == 0 then pages
    else
      var before := PagesAfter(pages, ops, n - 1);
      var op := ops[n - 1];
      if Verdict(before, op) == 0 then before[op.page := Page(1, Resident, false, false, op.eligible, op.perm, op.kind)] else before
  }

  ghost predicate Verdicts(pages: map<Pid, Page>, ops: seq<TrackOp>, results: seq<int>) {
    |results| <= |ops| && forall i :: 0 <= i < |results| ==> results[i] == Verdict(PagesAfter(pages, ops, i), ops[i])
  }

  predicate IsPending(pages: map<Pid, Page>, p: Pid) {
    p in pages && pages[p].state.FreePending?
  }

  /** The FREE_PENDING pages of a list, in its order. */
  ghost function PendingIn(pages: map<Pid, Page>, s: seq<Pid>): seq<Pid> {
    if s == [] then []
    else
      var n := |s| - 1;
      PendingIn(pages, s[..n]) + (if IsPending(pages, s[n]) then [s[n]] else [])
  }

  lemma {:induction false} PendingWithin(pages: map<Pid, Page>, s: seq<Pid>, p: Pid)
    requires p in PendingIn(pages, s)
    ensures p in s
  {
    var n := |s| - 1;
    if p != s[n] { PendingWithin(pages, s[..n], p); }
  }

  lemma {:induction false} PendingPrefix(pages: map<Pid, Page>, s: seq<Pid>, i: nat)
    requires i <= |s|
    ensures PendingIn(pages, s[..i]) <= PendingIn(pages, s)
  {
    if i < |s| {
      var n := |s| - 1;
      PendingPrefix(pages, s[..n], i);
      assert s[..n][..i] == s[..i];
    } else {
      assert s[..i] == s;
    }
  }

  /** The page at place i has not been touched by the claims before it. */
  lemma PendingNext(before: map<Pid, Page>, now: map<Pid, Page>, fifo: seq<Pid>, i: nat, got: seq<Pid>)
    requires NoRepeat(fifo) && i < |fifo| && Claims(before, now, got) && got == PendingIn(before, fifo[..i])
    ensures PendingIn(before, fifo[..i + 1]) == got + (if IsPending(now, fifo[i]) then [fifo[i]] else [])
  {
    var p := fifo[i];
    assert fifo[..i + 1][..i] == fifo[..i];
    if p in got { PendingWithin(before, fifo[..i], p); }
  }

  /** No page among the first n entries is FREE_PENDING. */
  ghost predicate NonePendingTo(pages: map<Pid, Page>, fifo: seq<Pid>, n: nat) {
    n <= |fifo| && forall j :: 0 <= j < n ==> !IsPending(pages, fifo[j])
  }

  /** `now` is `before` with exactly the listed pages turned from FREE_PENDING to FREEING. */
  ghost predicate Claims(before: map<Pid, Page>, now: map<Pid, Page>, got: seq<Pid>) {
    && NoRepeat(got) && (forall p :: p in got ==> IsPending(before, p))
    && now.Keys == before.Keys
    && (forall p :: p in before ==> now[p] == if p in got then before[p].(state := Freeing) else before[p])
  }

  lemma ClaimsMore(before: map<Pid, Page>, now: map<Pid, Page>, got: seq<Pid>, p: Pid, fifo: seq<Pid>, n: nat)
    requires Claims(before, now, got) && IsPending(now, p) && NonePendingTo(now, fifo, n)
    ensures Claims(before, now[p := now[p].(state := Freeing)], got + [p])
    ensures NonePendingTo(now[p := now[p].(state := Freeing)], fifo, n)
  {
    assert p in before && now[p] == before[p];
  }

  /** The pages of the operations that succeeded, in order. */
  ghost function Successes(ops: seq<TrackOp>, results: seq<int>): seq<Pid>
    requires |results| <= |ops|
  {
    if results == [] then []
    else
      var n := |results| - 1;
      Successes(ops, results[..n]) + (if results[n] == 0 then [ops[n].page] else [])
  }

  /** From a to b the given results came out: each as its page then stood, the successes appended in order. */
  ghost predicate Tracking(a: Book, b: Book, ops: seq<TrackOp>, results: seq<int>, tracked: int) {
    && Verdicts(a.pages, ops, results) && b.pages == PagesAfter(a.pages, ops, |results|)
    && b.fifo == a.fifo + Successes(ops, results) && |b.fifo| == |a.fifo| + tracked && 0 <= tracked <= |results|
    && Weigh(b.pages, Untracked()) == Weigh(a.pages, Untracked()) - tracked
  }

  lemma VerdictsMore(pages: map<Pid, Page>, ops: seq<TrackOp>, results: seq<int>, r: int)
    requires Verdicts(pages, ops, results) && |results| < |ops| && r == Verdict(PagesAfter(pages, ops, |results|), ops[|results|])
    ensures Verdicts(pages, ops, results + [r])
  {
    var more := results + [r];
    forall i | 0 <= i < |more| ensures more[i] == Verdict(PagesAfter(pages, ops, i), ops[i]) {
      if i < |results| { assert more[i] == results[i]; }
    }
  }

  lemma TrackingMore(a: Book, b: Book, c: Book, ops: seq<TrackOp>, results: seq<int>, tracked: nat, r: int)
    requires Tracking(a, b, ops, results, tracked) && |results| < |ops| && r == Verdict(b.pages, ops[|results|])
    requires var op := ops[|results|];
             if r == 0 then
               && c.pages == b.pages[op.page := Page(1, Resident, false, false, op.eligible, op.perm, op.kind)]
               && c.fifo == b.fifo + [op.page] && Weigh(c.pages, Untracked()) == Weigh(b.pages, Untracked()) - 1
             else c == b
    ensures Tracking(a, c, ops, results + [r], if r == 0 then tracked + 1 else tracked)
  {
    var more := results + [r];
    assert more[..|results|] == results;
    assert Successes(ops, more) == Successes(ops, results) + (if r == 0 then [ops[|results|].page] else []);
    VerdictsMore(a.pages, ops, results, r);
  }

  lemma {:induction false} ZeroSum(n: nat)
    ensures Sum(seq(n, _ => 0)) == 0
  {
    if n > 0 {
      ZeroSum(n - 1);
      assert seq(n, _ => 0)[1..] == seq(n - 1, _ => 0);
    }
  }

  function Ind(b: bool): nat { if b then 1 else 0 }

  function Had(pages: map<Pid, Page>, p: Pid, f: Page -> bool): nat { Ind(p in pages && f(pages[p])) }

}
