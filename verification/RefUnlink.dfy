/**
  Recursive unlink on objects that embed references, with no crash and no concurrent machine:
  decrement the count, zero the cell, and when the count reached zero unlink every embedded
  reference of the object.
 */
module RefUnlink {
  type Loc = nat
  type Obj = nat      // 0 is the null pointer

  function Pointing(cells: map<Loc, Obj>, o: Obj): set<Loc> {
    set l | l in cells && cells[l] == o
  }

  function NonNull(cells: map<Loc, Obj>): set<Loc> {
    set l | l in cells && cells[l] != 0
  }

  /** l is one of the cells embedded in some object of the set. */
  ghost predicate In(embedded: map<Obj, seq<Loc>>, objs: set<Obj>, l: Loc) {
    exists o :: o in objs && o in embedded && l in embedded[o]
  }

  /** A set that contains every referenced object all of whose references come from `loc` or from the set. */
  ghost predicate Closed(embedded: map<Obj, seq<Loc>>, cells: map<Loc, Obj>, loc: Loc, objs: set<Obj>) {
    forall o :: o in embedded && Pointing(cells, o) != {}
                && (forall l :: l in cells && cells[l] == o ==> l == loc || In(embedded, objs, l))
                ==> o in objs
  }

  lemma ZeroCell(cells: map<Loc, Obj>, loc: Loc, o: Obj)
    requires loc in cells && cells[loc] != 0 && o != 0
    ensures Pointing(cells[loc := 0], o) == Pointing(cells, o) - {loc}
    ensures |Pointing(cells[loc := 0], o)| == |Pointing(cells, o)| - (if cells[loc] == o then 1 else 0)
  {
    assert Pointing(cells[loc := 0], o) == Pointing(cells, o) - {loc};
    if cells[loc] == o { assert loc in Pointing(cells, o); }
  }

  lemma NoneLeft(cells: map<Loc, Obj>, o: Obj, l: Loc)
    requires |Pointing(cells, o)| == 0 && l in cells
    ensures cells[l] != o
  {
    assert l !in Pointing(cells, o);
  }

  lemma InMono(embedded: map<Obj, seq<Loc>>, a: set<Obj>, b: set<Obj>, l: Loc)
    requires a <= b && In(embedded, a, l)
    ensures In(embedded, b, l)
  {
  }

  /** Clearing cells of dropped objects keeps a closed set closed for the next embedded cell. */
  lemma ClosedStep(embedded: map<Obj, seq<Loc>>, cells: map<Loc, Obj>, loc: Loc,
                   later: map<Loc, Obj>, next: Loc, dropped: set<Obj>, objs: set<Obj>)
    requires Closed(embedded, cells, loc, objs) && dropped <= objs && In(embedded, dropped, next)
    requires 0 !in embedded && later.Keys == cells.Keys
    requires forall l :: l in cells && later[l] != cells[l] ==> later[l] == 0 && (l == loc || In(embedded, dropped, l))
    ensures Closed(embedded, later, next, objs)
  {
    forall o | o in embedded && Pointing(later, o) != {}
               && (forall l :: l in later && later[l] == o ==> l == next || In(embedded, objs, l))
      ensures o in objs
    {
      var p :| p in Pointing(later, o);
      assert p in Pointing(cells, o);
      forall l | l in cells && cells[l] == o ensures l == loc || In(embedded, objs, l) {
        if later[l] == o {
          if l == next { InMono(embedded, dropped, objs, l); }
        } else if l != loc {
          InMono(embedded, dropped, objs, l);
        }
      }
    }
  }

  /** Objects whose count went from positive to zero. */
  function Dropped(before: map<Obj, nat>, after: map<Obj, nat>): set<Obj> {
    set o | o in before && o in after && before[o] > 0 && after[o] == 0
  }

  /** A cell is zeroed exactly when it is the given one or embedded in an object that dropped to zero;
      the objects that drop form the least set closed under "all its references are gone", so
      counts never grow and cycles stay. */
  ghost predicate Effect(embedded: map<Obj, seq<Loc>>, loc: Loc,
                         cells: map<Loc, Obj>, cnt: map<Obj, nat>, cells': map<Loc, Obj>, cnt': map<Obj, nat>)
  {
    && cells'.Keys == cells.Keys && cnt'.Keys == cnt.Keys
    && (forall o :: o in cnt ==> cnt'[o] <= cnt[o])
    && (forall l :: l in cells ==>
          cells'[l] == if l == loc || In(embedded, Dropped(cnt, cnt'), l) then 0 else cells[l])
    && (forall objs :: Closed(embedded, cells, loc, objs) ==> Dropped(cnt, cnt') <= objs)
  }

  /** The same while the first `done` embedded cells of `target` have been dealt with. */
  ghost predicate Partial(embedded: map<Obj, seq<Loc>>, loc: Loc, target: Obj, done: nat,
                          cells: map<Loc, Obj>, cnt: map<Obj, nat>, cells': map<Loc, Obj>, cnt': map<Obj, nat>)
    requires target in embedded && done <= |embedded[target]|
  {
    && cells'.Keys == cells.Keys && cnt'.Keys == cnt.Keys
    && (forall o :: o in cnt ==> cnt'[o] <= cnt[o])
    && target in Dropped(cnt, cnt') && loc in cells && cells'[loc] == 0
    && (forall l :: l in cells && cells'[l] != cells[l] ==>
          cells'[l] == 0 && (l == loc || In(embedded, Dropped(cnt, cnt'), l)))
    && (forall l :: l in cells && In(embedded, Dropped(cnt, cnt') - {target}, l) ==> cells'[l] == 0)
    && (forall l :: l in cells && l in embedded[target][..done] ==> cells'[l] == 0)
    && (forall objs :: Closed(embedded, cells, loc, objs) ==> Dropped(cnt, cnt') <= objs)
  }

  lemma FirstCut(embedded: map<Obj, seq<Loc>>, loc: Loc, target: Obj,
                 cells: map<Loc, Obj>, cnt: map<Obj, nat>, cells': map<Loc, Obj>, cnt': map<Obj, nat>)
    requires target in embedded && target in cnt && loc in cells && cells[loc] == target && cnt[target] > 0 && target != 0
    requires cells' == cells[loc := 0] && cnt' == cnt[target := cnt[target] - 1]
    requires cnt'[target] == |Pointing(cells', target)|
    ensures cnt'[target] == 0 ==> Partial(embedded, loc, target, 0, cells, cnt, cells', cnt')
    ensures cnt'[target] != 0 ==> Effect(embedded, loc, cells, cnt, cells', cnt')
  {
    if cnt'[target] == 0 {
      assert Dropped(cnt, cnt') == {target};
      forall objs | Closed(embedded, cells, loc, objs) ensures target in objs {
        // target was referenced from loc alone
        forall l | l in cells && l != loc ensures cells[l] != target { NoneLeft(cells', target, l); }
        assert loc in Pointing(cells, target);
      }
    } else {
      assert Dropped(cnt, cnt') == {};
    }
  }

  /** One embedded cell further, by a recursive call that had the specified effect. */
  lemma NextCut(embedded: map<Obj, seq<Loc>>, loc: Loc, target: Obj, done: nat, cells: map<Loc, Obj>, cnt: map<Obj, nat>,
                cells1: map<Loc, Obj>, cnt1: map<Obj, nat>, cells2: map<Loc, Obj>, cnt2: map<Obj, nat>)
    requires target in embedded && done < |embedded[target]| && 0 !in embedded
    requires Partial(embedded, loc, target, done, cells, cnt, cells1, cnt1)
    requires Effect(embedded, embedded[target][done], cells1, cnt1, cells2, cnt2)
    ensures Partial(embedded, loc, target, done + 1, cells, cnt, cells2, cnt2)
  {
    var next := embedded[target][done];
    var before, more, all := Dropped(cnt, cnt1), Dropped(cnt1, cnt2), Dropped(cnt, cnt2);
    assert all == before + more;
    assert In(embedded, before, next);
    forall objs | Closed(embedded, cells, loc, objs) ensures all <= objs {
      ClosedStep(embedded, cells, loc, cells1, next, before, objs);
    }
    assert embedded[target][..done + 1] == embedded[target][..done] + [next];
  }

  lemma Skip(embedded: map<Obj, seq<Loc>>, loc: Loc, target: Obj, done: nat, cells: map<Loc, Obj>, cnt: map<Obj, nat>,
             cells': map<Loc, Obj>, cnt': map<Obj, nat>)
    requires target in embedded && done < |embedded[target]|
    requires Partial(embedded, loc, target, done, cells, cnt, cells', cnt')
    requires embedded[target][done] in cells' && cells'[embedded[target][done]] == 0
    ensures Partial(embedded, loc, target, done + 1, cells, cnt, cells', cnt')
  {
    assert embedded[target][..done + 1] == embedded[target][..done] + [embedded[target][done]];
  }

  lemma LastCut(embedded: map<Obj, seq<Loc>>, loc: Loc, target: Obj, cells: map<Loc, Obj>, cnt: map<Obj, nat>,
                cells': map<Loc, Obj>, cnt': map<Obj, nat>)
    requires target in embedded && Partial(embedded, loc, target, |embedded[target]|, cells, cnt, cells', cnt')
    ensures Effect(embedded, loc, cells, cnt, cells', cnt')
  {
    assert embedded[target][..|embedded[target]|] == embedded[target];
    forall l | l in cells && In(embedded, Dropped(cnt, cnt'), l) ensures cells'[l] == 0 {
      if l !in embedded[target] { assert In(embedded, Dropped(cnt, cnt') - {target}, l); }
    }
  }

  class Graph {
    const embedded: map<Obj, seq<Loc>>
    var cnt: map<Obj, nat>
    var cells: map<Loc, Obj>

    /** Every count is the in-degree of its object. */
    ghost predicate Valid()
      reads this
    {
      && 0 !in cnt && cnt.Keys == embedded.Keys
      && (forall o, i :: o in embedded && 0 <= i < |embedded[o]| ==> embedded[o][i] in cells)
      && (forall l :: l in cells ==> cells[l] == 0 || cells[l] in cnt)
      && (forall o :: o in cnt ==> cnt[o] == |Pointing(cells, o)|)
    }

    constructor (embedded: map<Obj, seq<Loc>>, cnt: map<Obj, nat>, cells: map<Loc, Obj>)
      ensures this.embedded == embedded && this.cnt == cnt && this.cells == cells
    {
      this.embedded, this.cnt, this.cells := embedded, cnt, cells;
    }

    /** One turn of the loop over the embedded references of an object that dropped to zero. */
    method UnlinkEmbedded(loc: Loc, target: Obj, i: nat, ghost cells0: map<Loc, Obj>, ghost cnt0: map<Obj, nat>)
      requires Valid() && target in embedded && i < |embedded[target]|
      requires Partial(embedded, loc, target, i, cells0, cnt0, cells, cnt)
      modifies this`cnt, this`cells
      ensures Valid() && Partial(embedded, loc, target, i + 1, cells0, cnt0, cells, cnt)
      decreases NonNull(cells), 1
    {
      var next := embedded[target][i];
      if cells[next] != 0 {
        ghost var cells1, cnt1 := cells, cnt;
        var _ := Unlink(next, cells[next]);
        NextCut(embedded, loc, target, i, cells0, cnt0, cells1, cnt1, cells, cnt);
      } else {
        Skip(embedded, loc, target, i, cells0, cnt0, cells, cnt);
      }
    }

    /** Terminates on cyclic graphs too: every call zeroes a non-null cell. */
    method Unlink(loc: Loc, target: Obj) returns (zero: bool)
      requires Valid() && loc in cells && cells[loc] == target && target != 0
      modifies this`cnt, this`cells
      ensures Valid() && Effect(embedded, loc, old(cells), old(cnt), cells, cnt)
      ensures zero <==> cnt[target] == 0
      decreases NonNull(cells), 0
    {
      ghost var cells0, cnt0 := cells, cnt;
      ZeroCell(cells, loc, target);
      assert loc in Pointing(cells, target);
      cnt := cnt[target := cnt[target] - 1];
      cells := cells[loc := 0];
      forall o | o in cnt ensures cnt[o] == |Pointing(cells, o)| { ZeroCell(cells0, loc, o); }
      FirstCut(embedded, loc, target, cells0, cnt0, cells, cnt);
      zero := cnt[target] == 0;
      if zero {
        var i := 0;
        while i < |embedded[target]|
          invariant 0 <= i <= |embedded[target]| && Valid()
          invariant Partial(embedded, loc, target, i, cells0, cnt0, cells, cnt)
        {
          assert NonNull(cells) <= NonNull(cells0) - {loc};
          UnlinkEmbedded(loc, target, i, cells0, cnt0);
          i := i + 1;
        }
        LastCut(embedded, loc, target, cells0, cnt0, cells, cnt);
      }
    }
  }
}
