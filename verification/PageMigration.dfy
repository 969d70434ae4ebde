/**
  Moving a page cached in DRAM back to NVM.  The page has a pair of NVM frames: one holds the last
  checkpointed content, the other becomes the runtime page again.  A crash between any two stores must
  find the checkpointed content in the frame that the version numbers name as the latest.
 */
module PageMigration {
  type Va = nat
  type Content = seq<int>

  const WORDS: nat := 512

  datatype CkptPage = CkptPage(va: Va, version: nat)

  /** An entry of the reverse list: its region is gone, not mapped, or mapped to a frame. */
  datatype Mapping = Gone | Unmapped | Mapped(frame: Va, writable: bool)

  /** get_latest_ckpt_page: on a tie page 0 is the newer one. */
  function Latest(p: seq<CkptPage>): nat
    requires |p| == 2
  {
    if p[0].version >= p[1].version then 0 else 1
  }

  /** get_second_latest_ckpt_page */
  function Second(p: seq<CkptPage>): nat
    requires |p| == 2
  {
    if p[0].version >= p[1].version then 1 else 0
  }

  class CachedPage {
    var mem: map<Va, Content>
    var pair: seq<CkptPage>
    var radix: Va                     // frame the memory object names for this page
    var reverse: seq<Mapping>
    ghost var log: seq<Content>       // what a restore would find, after every store

    ghost predicate Valid()
      reads this
    {
      && |pair| == 2 && pair[0].va != pair[1].va
      && (forall v :: v in mem ==> |mem[v]| == WORDS)
      && pair[0].va in mem && pair[1].va in mem
    }

    /** The content a restore would take. */
    ghost function Saved(): Content
      requires Valid()
      reads this
    {
      mem[pair[Latest(pair)].va]
    }

    /** Every store so far left the checkpointed content in place. */
    ghost predicate Steady(saved: Content)
      reads this
    {
      Valid() && Saved() == saved && forall i :: 0 <= i < |log| ==> log[i] == saved
    }

    /** pagecpy: word by word into a frame that is not the latest one. */
    method CopyPage(dst: Va, src: Va, ghost saved: Content)
      requires Steady(saved) && dst in mem && src in mem && dst != src && dst != pair[Latest(pair)].va
      modifies this`mem, this`log
      ensures Steady(saved) && mem == old(mem)[dst := old(mem)[src]] && |log| == |old(log)| + WORDS
    {
      var k := 0;
      while k < WORDS
        invariant 0 <= k <= WORDS && Steady(saved) && dst in mem && |mem[dst]| == WORDS && |log| == |old(log)| + k
        invariant mem == old(mem)[dst := mem[dst]] && mem[dst][..k] == old(mem)[src][..k]
      {
        ghost var before := mem[dst];
        mem := mem[dst := mem[dst][k := mem[src][k]]];
        assert mem[dst][..k + 1] == before[..k] + [old(mem)[src][k]] == old(mem)[src][..k + 1];
        log := log + [Saved()];
        k := k + 1;
      }
      assert mem[dst] == mem[dst][..WORDS] == old(mem)[src][..WORDS] == old(mem)[src];
    }

    /** A store to a version number that does not change what the latest content is. */
    method SetVersion(i: nat, v: nat, ghost saved: Content)
      requires Steady(saved) && i < 2
      requires var p := pair[i := pair[i].(version := v)]; mem[p[Latest(p)].va] == saved
      modifies this`pair, this`log
      ensures Steady(saved) && pair == old(pair)[i := old(pair)[i].(version := v)] && |log| == |old(log)| + 1
    {
      pair := pair[i := pair[i].(version := v)];
      log := log + [Saved()];
    }

    /** move_runtime_nvm_page_from_backup: page 0 keeps the checkpoint, page 1 is free for runtime use. */
    method MoveFromBackup(current: nat, ghost saved: Content) returns (newVa: Va)
      requires Steady(saved) && pair[0].version != current && pair[1].version != current
      modifies this`mem, this`pair, this`log
      ensures Steady(saved) && newVa == pair[1].va && Latest(pair) == 0 && pair[1].version == 0 && |log| == |old(log)| + WORDS + 2
      ensures pair[0].va == old(pair)[0].va && pair[1].va == old(pair)[1].va && pair[0].version == old(pair)[Latest(old(pair))].version
      ensures mem.Keys == old(mem).Keys && forall v :: v in mem && v != pair[0].va && v != pair[1].va ==> mem[v] == old(mem)[v]
    {
      var latest, second := Latest(pair), Second(pair);
      CopyPage(pair[second].va, pair[latest].va, saved);
      SetVersion(second, pair[latest].version, saved);
      newVa := pair[1].va;
      SetVersion(1, 0, saved);
    }

    /**
      ckpt_dram_cached_page: copy the cached page into the older page of the pair, unless this checkpoint did so
      already.  A restore will find the new content if and only if this version is above the other page's.
     */
    method CaptureDram(kva: Va, current: nat, ghost saved: Content)
      requires Steady(saved) && kva in mem && kva != pair[0].va && kva != pair[1].va
      modifies this`mem, this`pair, this`log
      ensures Valid()
      ensures
        var l, s := Latest(old(pair)), Second(old(pair));
        if old(pair)[s].version == current then pair == old(pair) && mem == old(mem)
        else
          && mem == old(mem)[pair[s].va := old(mem)[kva]] && pair == old(pair)[s := old(pair)[s].(version := current)]
          && (Latest(pair) == s <==> current > pair[l].version || (current == pair[l].version && s == 0))
      ensures |log| >= |old(log)| && forall i :: 0 <= i < |log| ==> log[i] == saved
    {
      var s := Second(pair);
      if pair[s].version != current {
        CopyPage(pair[s].va, kva, saved);
        pair := pair[s := pair[s].(version := current)];
      }
    }

    /** The reverse-list loop of migrate_page: every mapping names the new frame, read-only. */
    method Remap(newVa: Va, ghost saved: Content)
      requires Steady(saved)
      modifies this`reverse, this`log
      ensures Steady(saved) && reverse == Remapped(old(reverse), newVa) && |log| == |old(log)| + Live(old(reverse), |old(reverse)|)
    {
      var i := 0;
      while i < |reverse|
        invariant 0 <= i <= |reverse| == |old(reverse)| && Steady(saved) && |log| == |old(log)| + Live(old(reverse), i)
        invariant forall k :: 0 <= k < i ==> reverse[k] == if old(reverse)[k].Gone? then Gone else Mapped(newVa, false)
        invariant forall k :: i <= k < |reverse| ==> reverse[k] == old(reverse)[k]
      {
        if !reverse[i].Gone? {
          reverse := reverse[i := Mapped(newVa, false)];
          log := log + [Saved()];
        }
        i := i + 1;
      }
      assert reverse == Remapped(old(reverse), newVa);
    }

    /**
      migrate_page to NVM.  After every single store the latest page of the pair holds the checkpointed
      content; in the end it is page 0, page 1 holds the runtime content, and every mapping names page 1.
     */
    method MigrateToNvm(oldVa: Va, current: nat)
      requires Valid() && log == [] && oldVa in mem && oldVa != pair[0].va && oldVa != pair[1].va
      requires pair[0].version != current && pair[1].version != current
      modifies this
      ensures Valid() && Latest(pair) == 0 && mem[pair[0].va] == old(Saved()) && mem[pair[1].va] == old(mem)[oldVa]
      ensures forall i :: 0 <= i < |log| ==> log[i] == old(Saved())
      ensures |log| == 2 * WORDS + 3 + Live(old(reverse), |old(reverse)|)
      ensures radix == pair[1].va && oldVa !in mem && reverse == Remapped(old(reverse), pair[1].va)
      ensures pair[0].va == old(pair)[0].va && pair[1].va == old(pair)[1].va
    {
      ghost var saved := Saved();
      var newVa := MoveFromBackup(current, saved);
      CopyPage(newVa, oldVa, saved);
      radix := newVa;
      mem := mem - {oldVa};
      log := log + [Saved()];
      Remap(newVa, saved);
    }
  }

  /** How many of the first n mappings have a region. */
  ghost function Live(s: seq<Mapping>, n: nat): nat
    requires n <= |s|
  {
    if n == 0 then 0 else Live(s, n - 1) + (if s[n - 1].Gone? then 0 else 1)
  }

  /** All live mappings read-only to one frame. */
  ghost function Remapped(s: seq<Mapping>, frame: Va): seq<Mapping> {
    seq(|s|, i requires 0 <= i < |s| => if s[i].Gone? then Gone else Mapped(frame, false))
  }
}
