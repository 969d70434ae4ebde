/**
  The CLOCK hand of page reclaim: a cursor over a window of CXL_SAMPLE_SET_PAGES FIFO entries that is
  walked CXL_SAMPLE_PASSES times before the window moves on.
 */
module Sampling {
  import opened Lists
  import opened Options

  const SET: nat := 128
  const PASSES: nat := 3
  const WINDOW: nat := 384        // steps between two rotations

  type Node = nat

  /** Position of an entry in the list. */
  function Find(s: seq<Node>, p: Node): (i: nat)
    requires p in s
    ensures i < |s| && s[i] == p
  {
    if s[0] == p then 0 else 1 + Find(s[1..], p)
  }

  /** Place of the entry after place i, past the list head. */
  function Next(n: nat, i: nat): (j: nat)
    requires i < n
    ensures j < n
  {
    if i + 1 == n then 0 else i + 1
  }

  // ------------------------------------------------------------------ the hand as positions

  datatype Hand = Hand(cursor: nat, start: nat, steps: nat, passes: nat, rotations: nat)

  ghost predicate On(n: nat, h: Hand) {
    h.cursor < n && h.start < n && h.steps < SET && h.passes < PASSES
  }

  /** Inspect the entry under the cursor: cxl_sample_step, then cxl_sample_note_step_locked. */
  function Tick(n: nat, h: Hand): Hand
    requires h.cursor < n
  {
    var next := Next(n, h.cursor);
    if h.steps + 1 < SET then h.(cursor := next, steps := h.steps + 1)
    else if h.passes + 1 < PASSES then h.(cursor := h.start, steps := 0, passes := h.passes + 1)
    else h.(cursor := next, start := next, steps := 0, passes := 0, rotations := h.rotations + 1)
  }

  /** The hand after k inspections. */
  ghost function After(n: nat, h: Hand, k: nat): (r: Hand)
    requires On(n, h)
    ensures On(n, r)
  {
    if k == 0 then h else Tick(n, After(n, h, k - 1))
  }

  /** How often place x is inspected in the first k steps. */
  ghost function Seen(n: nat, h: Hand, x: nat, k: nat): nat
    requires On(n, h)
  {
    if k == 0 then 0 else Seen(n, h, x, k - 1) + (if After(n, h, k - 1).cursor == x then 1 else 0)
  }

  /** The place i entries after w, around the list. */
  function Turn(n: nat, w: nat, i: nat): (t: nat)
    requires w < n
    ensures t < n
  {
    if i == 0 then w else Next(n, Turn(n, w, i - 1))
  }

  lemma {:induction false} TurnAdd(n: nat, w: nat, a: nat, b: nat)
    requires w < n
    ensures Turn(n, Turn(n, w, a), b) == Turn(n, w, a + b)
  {
    if b > 0 {
      TurnAdd(n, w, a, b - 1);
    }
  }

  /** Going round the list once meets every place. */
  lemma {:induction false} TurnMeets(n: nat, w: nat, x: nat)
    requires w < n && x < n
    ensures Turn(n, w, if x >= w then x - w else x + n - w) == x
    decreases if x >= w then x - w else x + n - w
  {
    if x > w {
      TurnMeets(n, w, x - 1);
    } else if x < w {
      if x == 0 {
        TurnMeets(n, w, n - 1);
      } else {
        TurnMeets(n, w, x - 1);
      }
    }
  }

  lemma {:induction false} AfterAdd(n: nat, h: Hand, j: nat, k: nat)
    requires On(n, h)
    ensures After(n, h, j + k) == After(n, After(n, h, j), k)
  {
    if k > 0 {
      AfterAdd(n, h, j, k - 1);
    }
  }

  /** Within a pass the hand walks the list from the window start. */
  lemma {:induction false} PassWalk(n: nat, h: Hand, i: nat)
    requires On(n, h) && h.cursor == h.start && h.steps == 0 && i < SET
    ensures After(n, h, i) == h.(cursor := Turn(n, h.start, i), steps := i)
  {
    if i > 0 {
      PassWalk(n, h, i - 1);
    }
  }

  /** A pass rewinds the hand; the last one adopts the following window. */
  lemma PassEnd(n: nat, h: Hand)
    requires On(n, h) && h.cursor == h.start && h.steps == 0
    ensures After(n, h, SET) ==
            (if h.passes + 1 < PASSES then h.(passes := h.passes + 1)
             else Hand(Turn(n, h.start, SET), Turn(n, h.start, SET), 0, 0, h.rotations + 1))
  {
    PassWalk(n, h, SET - 1);
    assert Turn(n, h.start, SET) == Next(n, Turn(n, h.start, SET - 1));
  }

  /** A window has just been adopted. */
  ghost predicate Fresh(n: nat, h: Hand) {
    On(n, h) && h.cursor == h.start && h.steps == 0 && h.passes == 0
  }

  /** After p passes of a fresh window. */
  lemma {:induction false} Pass(n: nat, h: Hand, p: nat)
    requires Fresh(n, h) && p < PASSES
    ensures After(n, h, p * SET) == h.(passes := p)
  {
    if p > 0 {
      Pass(n, h, p - 1);
      AfterAdd(n, h, (p - 1) * SET, SET);
      PassEnd(n, h.(passes := p - 1));
    }
  }

  /** After r windows: the start has moved on by r * SET entries, and there were r rotations. */
  lemma {:induction false} Windows(n: nat, h: Hand, r: nat)
    requires Fresh(n, h)
    ensures After(n, h, r * WINDOW) == Hand(Turn(n, h.start, r * SET), Turn(n, h.start, r * SET), 0, 0, h.rotations + r)
  {
    if r > 0 {
      Windows(n, h, r - 1);
      var g := After(n, h, (r - 1) * WINDOW);
      Pass(n, g, PASSES - 1);
      AfterAdd(n, g, (PASSES - 1) * SET, SET);
      PassEnd(n, g.(passes := PASSES - 1));
      AfterAdd(n, h, (r - 1) * WINDOW, WINDOW);
      TurnAdd(n, h.start, (r - 1) * SET, SET);
    }
  }

  /** Which place is under the hand at step i of pass p of window r. */
  lemma InspectedAt(n: nat, h: Hand, r: nat, p: nat, i: nat)
    requires Fresh(n, h) && p < PASSES && i < SET
    ensures After(n, h, r * WINDOW + p * SET + i).cursor == Turn(n, h.start, r * SET + i)
  {
    Windows(n, h, r);
    var g := After(n, h, r * WINDOW);
    Pass(n, g, p);
    PassWalk(n, g.(passes := p), i);
    AfterAdd(n, h, r * WINDOW, p * SET);
    AfterAdd(n, h, r * WINDOW + p * SET, i);
    TurnAdd(n, h.start, r * SET, i);
  }

  lemma {:induction false} SeenGrows(n: nat, h: Hand, x: nat, j: nat, k: nat)
    requires On(n, h) && j <= k
    ensures Seen(n, h, x, j) <= Seen(n, h, x, k)
    decreases k
  {
    if j < k {
      SeenGrows(n, h, x, j, k - 1);
    }
  }

  lemma {:induction false} SeenShift(n: nat, h: Hand, x: nat, j: nat, k: nat)
    requires On(n, h)
    ensures Seen(n, h, x, j + k) == Seen(n, h, x, j) + Seen(n, After(n, h, j), x, k)
  {
    if k > 0 {
      SeenShift(n, h, x, j, k - 1);
      AfterAdd(n, h, j, k - 1);
    }
  }

  /** By the end of pass p of its window, a place has been seen p + 1 times. */
  lemma {:induction false} SeenEachPass(n: nat, h: Hand, x: nat, r: nat, i: nat, p: nat)
    requires Fresh(n, h) && p < PASSES && i < SET && Turn(n, h.start, r * SET + i) == x
    ensures Seen(n, h, x, r * WINDOW + p * SET + i + 1) >= p + 1
  {
    var k := r * WINDOW + p * SET + i;
    InspectedAt(n, h, r, p, i);
    if p > 0 {
      SeenEachPass(n, h, x, r, i, p - 1);
      SeenGrows(n, h, x, r * WINDOW + (p - 1) * SET + i + 1, k);
    }
  }

  /** Windows needed to cover n entries. */
  function Rotations(n: nat): nat { (n + SET - 1) / SET }

  /** From a fresh window, every place is inspected at least PASSES times within ceil(n / SET) rotations. */
  lemma FairFromWindow(n: nat, h: Hand, x: nat)
    requires Fresh(n, h) && x < n
    ensures Seen(n, h, x, Rotations(n) * WINDOW) >= PASSES
    ensures After(n, h, Rotations(n) * WINDOW).rotations == h.rotations + Rotations(n)
  {
    var w := h.start;
    var d := if x >= w then x - w else x + n - w;
    TurnMeets(n, w, x);
    var r, i := d / SET, d % SET;
    assert d == r * SET + i && r + 1 <= Rotations(n);
    SeenEachPass(n, h, x, r, i, PASSES - 1);
    SeenGrows(n, h, x, r * WINDOW + (PASSES - 1) * SET + i + 1, Rotations(n) * WINDOW);
    Windows(n, h, Rotations(n));
  }

  /** Wherever the hand stands, the running window ends and a fresh one begins. */
  function Remaining(h: Hand): int { (PASSES - h.passes) * SET - h.steps }

  lemma {:induction false} ReachesWindow(n: nat, h: Hand)
    requires On(n, h)
    ensures 0 < Remaining(h) <= WINDOW
    ensures Fresh(n, After(n, h, Remaining(h))) && After(n, h, Remaining(h)).rotations == h.rotations + 1
    decreases Remaining(h)
  {
    var g := Tick(n, h);
    assert After(n, h, 0) == h && After(n, h, 1) == g;
    if Remaining(h) > 1 {
      assert Remaining(g) == Remaining(h) - 1;
      ReachesWindow(n, g);
      AfterAdd(n, h, 1, Remaining(g));
    }
  }

  /** From any state of the hand, one more rotation is enough. */
  lemma FairFromAnywhere(n: nat, h: Hand, x: nat)
    requires On(n, h) && x < n
    ensures Seen(n, h, x, Remaining(h) + Rotations(n) * WINDOW) >= PASSES
    ensures After(n, h, Remaining(h) + Rotations(n) * WINDOW).rotations == h.rotations + 1 + Rotations(n)
  {
    ReachesWindow(n, h);
    var k, m := Remaining(h), Rotations(n) * WINDOW;
    FairFromWindow(n, After(n, h, k), x);
    SeenShift(n, h, x, k, m);
    AfterAdd(n, h, k, m);
  }

  // ------------------------------------------------------------------ the hand as list pointers

  function Successor(s: seq<Node>, node: Node): Option<Node>
    requires node in s
  {
    var i := Find(s, node);
    if i + 1 == |s| then None else Some(s[i + 1])
  }

  /** The linked FIFO with the two pointers kept in shared metadata; a node is a list entry. */
  class Sampler {
    var fifo: seq<Node>
    var cursor: Option<Node>
    var start: Option<Node>
    var steps: nat
    var passes: nat
    var rotations: nat

    /** The cursor and the window start are null or live. */
    ghost predicate Valid()
      reads this
    {
      && NoRepeat(fifo)
      && (cursor.Some? ==> cursor.value in fifo) && (start.Some? ==> start.value in fifo)
      && steps < SET && passes < PASSES
    }

    ghost predicate Running()
      reads this
    {
      Valid() && cursor.Some? && start.Some?
    }

    /** The pointers as positions. */
    ghost function View(): (h: Hand)
      requires Running()
      reads this
      ensures On(|fifo|, h)
    {
      Hand(Find(fifo, cursor.value), Find(fifo, start.value), steps, passes, rotations)
    }

    /** cxl_sample_reset_window_locked */
    method ResetWindow()
      requires Valid()
      modifies this`cursor, this`start, this`steps, this`passes
      ensures Valid() && (fifo == [] ==> cursor.None? && start.None?)
      ensures fifo != [] ==> Running() && View() == Hand(0, 0, 0, 0, rotations)
    {
      start := if fifo == [] then None else Some(fifo[0]);
      cursor := start;
      steps, passes := 0, 0;
    }

    /** One inspection: step off the entry and note the step. */
    method Inspect() returns (node: Node)
      requires Running()
      modifies this`cursor, this`start, this`steps, this`passes, this`rotations
      ensures Running() && node == fifo[old(View()).cursor] && View() == Tick(|fifo|, old(View()))
    {
      node := cursor.value;
      ghost var h := View();
      var i := Find(fifo, node);
      var next := if i + 1 == |fifo| then fifo[0] else fifo[i + 1];
      FindPlace(fifo, Next(|fifo|, i));
      cursor := Some(next);
      steps := steps + 1;
      if steps < SET {
        return;
      }
      steps := 0;
      passes := passes + 1;
      if passes < PASSES {
        cursor := start;
        return;
      }
      passes := 0;
      start := cursor;
      rotations := rotations + 1;
    }

    /** Where the next selection begins: at the hand, or at the list head when a pointer is null. */
    ghost function Begin(): (h: Hand)
      requires Valid() && fifo != []
      reads this
      ensures On(|fifo|, h)
    {
      if Running() then View() else Hand(0, 0, 0, 0, rotations)
    }

    method Walk(scans: nat) returns (nodes: seq<Node>)
      requires Running()
      modifies this`cursor, this`start, this`steps, this`passes, this`rotations
      ensures Running() && View() == After(|fifo|, old(View()), scans)
      ensures |nodes| == scans && Walked(fifo, old(View()), nodes)
    {
      nodes := [];
      ghost var h := View();
      while |nodes| < scans
        invariant Running() && |nodes| <= scans
        invariant View() == After(|fifo|, h, |nodes|) && Walked(fifo, h, nodes)
      {
        var node := Inspect();
        WalkedMore(fifo, h, nodes);
        nodes := nodes + [node];
      }
    }

    /** The hand's part of select_candidates, for any number of inspections. */
    method Scan(scans: nat) returns (nodes: seq<Node>)
      requires Valid()
      modifies this`cursor, this`start, this`steps, this`passes, this`rotations
      ensures Valid() && (fifo == [] ==> nodes == [])
      ensures fifo != [] ==>
                && |nodes| == scans && Walked(fifo, old(Begin()), nodes)
                && Running() && View() == After(|fifo|, old(Begin()), scans)
    {
      if fifo == [] {
        return [];
      }
      if cursor.None? || start.None? {
        ResetWindow();
      }
      nodes := Walk(scans);
    }

    /** cxl_sample_forget_node followed by list_del: the pointers move off the entry first. */
    method Unlink(node: Node)
      requires Valid() && node in fifo
      modifies this`fifo, this`cursor, this`start, this`steps, this`passes
      ensures Valid() && fifo == old(fifo)[..Find(old(fifo), node)] + old(fifo)[Find(old(fifo), node) + 1..]
      ensures node !in fifo
      ensures cursor == if old(cursor) == Some(node) then Successor(old(fifo), node) else old(cursor)
      ensures if old(start) == Some(node) then start == Successor(old(fifo), node) && steps == passes == 0
              else start == old(start) && steps == old(steps) && passes == old(passes)
    {
      var i := Find(fifo, node);
      var next := if i + 1 == |fifo| then None else Some(fifo[i + 1]);
      if cursor == Some(node) {
        cursor := next;
      }
      if start == Some(node) {
        start := next;
        steps, passes := 0, 0;
      }
      UnlinkKeeps(fifo, i);
      fifo := fifo[..i] + fifo[i + 1..];
    }

    /** list_append and list_add */
    method Insert(node: Node, atHead: bool)
      requires Valid() && node !in fifo
      modifies this`fifo
      ensures Valid() && fifo == if atHead then [node] + old(fifo) else old(fifo) + [node]
    {
      fifo := if atHead then [node] + fifo else fifo + [node];
    }

    /** Parking at the head or deferring to the tail: unlink and insert again. */
    method Move(node: Node, toHead: bool)
      requires Valid() && node in fifo
      modifies this`fifo, this`cursor, this`start, this`steps, this`passes
      ensures Valid() && cursor != Some(node) && start != Some(node)
      ensures
        var i := Find(old(fifo), node);
        var rest := old(fifo)[..i] + old(fifo)[i + 1..];
        fifo == if toHead then [node] + rest else rest + [node]
    {
      Unlink(node);
      Insert(node, toHead);
    }
  }

  /** The nodes inspected from h on are the entries under the hand, in order. */
  ghost predicate Walked(fifo: seq<Node>, h: Hand, nodes: seq<Node>) {
    On(|fifo|, h) && forall k :: 0 <= k < |nodes| ==> nodes[k] == fifo[After(|fifo|, h, k).cursor]
  }

  lemma WalkedMore(fifo: seq<Node>, h: Hand, nodes: seq<Node>)
    requires Walked(fifo, h, nodes)
    ensures Walked(fifo, h, nodes + [fifo[After(|fifo|, h, |nodes|).cursor]])
  {
  }

  lemma FindPlace(s: seq<Node>, i: nat)
    requires NoRepeat(s) && i < |s|
    ensures Find(s, s[i]) == i
  {
  }

  lemma UnlinkKeeps(s: seq<Node>, i: nat)
    requires NoRepeat(s) && i < |s|
    ensures NoRepeat(s[..i] + s[i + 1..]) && s[i] !in s[..i] + s[i + 1..]
    ensures forall x :: x in s && x != s[i] ==> x in s[..i] + s[i + 1..]
  {
    var t := s[..i] + s[i + 1..];
    forall x | x in s && x != s[i] ensures x in t {
      var k :| 0 <= k < |s| && s[k] == x;
      assert k < i ==> t[k] == x;
      assert k > i ==> t[k - 1] == x;
    }
  }
}
