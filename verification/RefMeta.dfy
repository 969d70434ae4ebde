/**
  The in-place code of the redo ring and of recovery: fixed arrays for the ring and the era
  matrix, loops that scan them, and a cell written through a pointer.  Each method is tied to
  the functions on protocol states that the run theorems speak about.
 */
module RefMeta {
  import opened RefProtocol
  import opened RefInvariant
  import opened RefTheorems

  // ---------------------------------------------------------------- the packed word

  /** lcid:16 | cnt:16 | era:32 */
  function Pack(r: RefInfo): nat {
    r.lcid * 0x1_0000_0000_0000 + r.cnt * 0x1_0000_0000 + r.era
  }

  function Unpack(w: nat): RefInfo {
    RefInfo(w / 0x1_0000_0000_0000, w / 0x1_0000_0000 % 0x1_0000, w % 0x1_0000_0000)
  }

  predicate Fits(r: RefInfo) {
    r.lcid < 0x1_0000 && r.cnt < 0x1_0000 && r.era < 0x1_0000_0000
  }

  /** Comparing packed words, as the CAS does, compares all three fields. */
  lemma PackRoundTrip(r: RefInfo)
    requires Fits(r)
    ensures Unpack(Pack(r)) == r && Pack(r) < 0x1_0000_0000_0000_0000
    ensures Pack(r) / 0x1_0000_0000_0000 == r.lcid && Pack(r) / 0x1_0000_0000 % 0x1_0000 == r.cnt && Pack(r) % 0x1_0000_0000 == r.era
  {
    assert Pack(r) == (r.lcid * 0x1_0000 + r.cnt) * 0x1_0000_0000 + r.era;
    assert Pack(r) / 0x1_0000_0000 == r.lcid * 0x1_0000 + r.cnt;
  }

  class Metadata {
    const size: nat
    const era: array2<nat>
    const redo: array2<Redo>
    var ri: map<Obj, RefInfo>
    var cells: map<Loc, Obj>

    ghost predicate Valid()
      reads this
    {
      era.Length0 == size && era.Length1 == size && redo.Length0 == size && redo.Length1 == REDO_CNT
    }

    ghost function Ring(mid: nat): seq<Redo>
      requires Valid() && mid < size
      reads this, redo
    {
      seq(REDO_CNT, k requires 0 <= k < REDO_CNT reads this, redo => redo[mid, k])
    }

    ghost function Row(mid: nat): seq<nat>
      requires Valid() && mid < size
      reads this, era
    {
      seq(size, j requires 0 <= j < size reads this, era => era[mid, j])
    }

    /** The protocol state seen in the shared memory, with idle machines. */
    ghost function View(): State
      requires Valid()
      reads this, era, redo
    {
      State(seq(size, i requires 0 <= i < size reads this, era, redo =>
                  Machine(Idle, true, Row(i), Ring(i), false, NotRecovered)),
            ri, cells, map[])
    }

    constructor (n: nat)
      ensures Valid() && size == n && ri == map[] && cells == map[]
      ensures fresh(era) && fresh(redo)
      ensures forall m :: 0 <= m < n ==> Ring(m) == EmptyRing()
      ensures forall m, j :: 0 <= m < n && 0 <= j < n ==> era[m, j] == 0
    {
      size := n;
      era := new nat[n, n]((i, j) => 0);
      redo := new Redo[n, REDO_CNT]((i, j) => Empty);
      ri := map[];
      cells := map[];
    }

    /** The oldest slot of the ring is overwritten; every other slot of every machine stays. */
    method WriteRedo(mid: nat, e: Redo)
      requires Valid() && mid < size && e.Entry?
      modifies redo
      ensures Ring(mid) == old(Ring(mid))[e.era % REDO_CNT := e]
      ensures forall k :: 0 <= k < size && k != mid ==> Ring(k) == old(Ring(k))
    {
      redo[mid, e.era % REDO_CNT] := e;
      assert forall k :: 0 <= k < size && k != mid ==> Ring(k) == old(Ring(k));
    }

    method FindLatestRedo(mid: nat) returns (best: Redo)
      requires Valid() && mid < size
      ensures best == Latest(Ring(mid))
      ensures best.Empty? <==> (forall k :: 0 <= k < REDO_CNT ==> redo[mid, k].Empty?)
      ensures best.Entry? ==> forall k :: 0 <= k < REDO_CNT && redo[mid, k].Entry? ==> redo[mid, k].era <= best.era
    {
      best := Empty;
      for i := 0 to REDO_CNT
        invariant best == LatestOf(Ring(mid), i)
      {
        if !redo[mid, i].Empty? {
          if best.Empty? || redo[mid, i].era > best.era {
            best := redo[mid, i];
          }
        }
      }
      LatestInRing(Ring(mid));
      assert forall k :: 0 <= k < REDO_CNT ==> Ring(mid)[k] == redo[mid, k];
    }

    /** An uninterrupted recovery writes exactly what RecoverNow prescribes. */
    method RecoverMachine(dead: nat)
      requires Valid() && dead < size
      modifies this`cells
      ensures cells == RecoverNow(old(View()), dead)
    {
      var e := FindLatestRedo(dead);
      if e.Empty? {
        return;
      }
      var needRedo := e.obj in ri && ri[e.obj].lcid == dead && ri[e.obj].era == e.era;
      if !needRedo {
        var j := 0;
        while j < size
          invariant 0 <= j <= size && !needRedo
          invariant forall i :: 0 <= i < j ==> !RowShows(View(), i, dead, e)
        {
          if j != dead && era[j, dead] >= e.era {
            needRedo := true;
            assert RowShows(View(), j, dead, e);
            break;
          }
          j := j + 1;
        }
        assert needRedo <==> exists i :: RowShows(View(), i, dead, e);
      }
      if needRedo {
        cells := cells[e.loc := CellValue(e.op, e.obj)];
      }
    }
  }
}
