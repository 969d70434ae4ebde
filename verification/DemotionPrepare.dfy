/**
  The preparation loop of one candidate: walk every alias and every machine, turn each present
  PTE of the page into a migration entry, and undo everything at the first obstacle.
 */
module DemotionPrepare {
  import opened Demotion

  const MAX_MAPPINGS: nat := 128
  const EPERM := 1
  const ENOENT := 2
  const EAGAIN := 11

  datatype Saved = Saved(alias: nat, mid: nat, oldPte: Pte)

  /** The lowest bit of `bits` is PAGE_ACCESSED. */
  predicate Accessed(p: Pte) { p.Present? && p.bits % 2 == 1 }

  /** The demoter's view of one alias: policy allows it; its region still maps the page here;
      the PMO entry still names the candidate. */
  datatype Alias = Alias(allowed: bool, mapsHere: bool, pmoNames: bool)

  /** What stops the preparation; a migration entry is not present and is passed over like an absent one. */
  predicate Obstacle(p: Pte) {
    p.Present? && (!p.frame.Cxl? || Accessed(p))
  }

  /** Nothing stands in the way of the preparation. */
  ghost predicate Clear(aliases: seq<Alias>, before: seq<seq<Pte>>) {
    && (forall a :: 0 <= a < |aliases| ==> aliases[a].allowed && (aliases[a].mapsHere ==> aliases[a].pmoNames))
    && (forall a, m :: 0 <= a < |aliases| && a < |before| && 0 <= m < |before[a]| && aliases[a].mapsHere ==> !Obstacle(before[a][m]))
  }

  lemma RoomLeft(aliases: nat, machines: nat, a: nat, m: nat)
    requires aliases <= 16 && machines <= 8 && a < aliases && m < machines
    ensures a * machines + m < MAX_MAPPINGS
  {
    assert a * machines <= 15 * 8;
  }

  class Candidate {
    var mappings: seq<Saved>

    constructor ()
      ensures mappings == []
    {
      mappings := [];
    }

    /** `mappings` lists distinct positions of `before`, each now a migration entry; the rest is as before. */
    ghost predicate Holds(before: seq<seq<Pte>>, ptes: array2<Pte>)
      reads this, ptes
    {
      && |before| == ptes.Length0 && (forall a :: 0 <= a < |before| ==> |before[a]| == ptes.Length1)
      && (forall i :: 0 <= i < |mappings| ==>
            var e := mappings[i];
            e.alias < ptes.Length0 && e.mid < ptes.Length1 && ptes[e.alias, e.mid].Migration?
            && e.oldPte == before[e.alias][e.mid])
      && (forall a, m :: 0 <= a < ptes.Length0 && 0 <= m < ptes.Length1 && !Lists(a, m) ==> ptes[a, m] == before[a][m])
    }

    ghost predicate Lists(a: nat, m: nat)
      reads this
    {
      exists i :: 0 <= i < |mappings| && mappings[i].alias == a && mappings[i].mid == m
    }

    /** Writes every saved PTE back; afterwards the tables are as they were before the preparation. */
    method RestorePtes(ghost before: seq<seq<Pte>>, ptes: array2<Pte>)
      requires Holds(before, ptes)
      modifies this, ptes
      ensures mappings == []
      ensures forall a, m :: 0 <= a < ptes.Length0 && 0 <= m < ptes.Length1 ==> ptes[a, m] == before[a][m]
    {
      var i := 0;
      while i < |mappings|
        invariant 0 <= i <= |mappings| && mappings == old(mappings)
        invariant forall k :: 0 <= k < |mappings| ==>
                    mappings[k].alias < ptes.Length0 && mappings[k].mid < ptes.Length1
                    && mappings[k].oldPte == before[mappings[k].alias][mappings[k].mid]
        invariant forall k :: 0 <= k < i ==> ptes[mappings[k].alias, mappings[k].mid] == mappings[k].oldPte
        invariant forall a, m :: 0 <= a < ptes.Length0 && 0 <= m < ptes.Length1 && !Lists(a, m) ==> ptes[a, m] == before[a][m]
        modifies ptes
      {
        ptes[mappings[i].alias, mappings[i].mid] := mappings[i].oldPte;
        i := i + 1;
      }
      forall a, m | 0 <= a < ptes.Length0 && 0 <= m < ptes.Length1 ensures ptes[a, m] == before[a][m] {
        if Lists(a, m) {
          var k :| 0 <= k < |mappings| && mappings[k].alias == a && mappings[k].mid == m;
        }
      }
      mappings := [];
    }

    /** Either every present PTE of every mapped alias is a saved migration entry and nothing else moved,
        or the call failed and nothing moved at all. */
    method Prepare(aliases: seq<Alias>, ptes: array2<Pte>, ghost before: seq<seq<Pte>>) returns (ret: int)
      requires mappings == [] && |aliases| == ptes.Length0 && Holds(before, ptes)
      modifies this, ptes
      ensures ret != 0 ==>
                && mappings == []
                && (forall a, m :: 0 <= a < ptes.Length0 && 0 <= m < ptes.Length1 ==> ptes[a, m] == before[a][m])
      ensures ret == 0 ==>
                && Holds(before, ptes) && |aliases| > 0
                && (forall a :: 0 <= a < |aliases| ==> aliases[a].allowed && (aliases[a].mapsHere ==> aliases[a].pmoNames))
                && (forall a, m :: 0 <= a < ptes.Length0 && 0 <= m < ptes.Length1 && aliases[a].mapsHere ==> !Obstacle(before[a][m]))
                && (forall a, m :: 0 <= a < ptes.Length0 && 0 <= m < ptes.Length1 ==>
                      (Lists(a, m) <==> aliases[a].mapsHere && before[a][m].Present?))
      ensures ret == ENOENT <==> |aliases| == 0
      ensures 0 < |aliases| <= 16 && ptes.Length1 <= 8 && Clear(aliases, before) ==> ret == 0
      ensures ret == EPERM ==> exists a :: 0 <= a < |aliases| && !aliases[a].allowed
    {
      ret := 0;
      if |aliases| == 0 {
        return ENOENT;
      }
      var a := 0;
      while a < |aliases|
        invariant 0 <= a <= |aliases| && Holds(before, ptes)
        invariant Walked(aliases, before, ptes, a, 0)
        invariant |mappings| <= a * ptes.Length1
      {
        if !aliases[a].allowed {
          RestorePtes(before, ptes);
          return EPERM;
        }
        if aliases[a].mapsHere {
          var ok := PrepareAlias(aliases, a, ptes, before);
          if !ok {
            RestorePtes(before, ptes);
            return EAGAIN;
          }
        }
        a := a + 1;
      }
    }

    /** Exactly the present positions before (a, m) in walking order are listed, and none was an obstacle. */
    ghost predicate Walked(aliases: seq<Alias>, before: seq<seq<Pte>>, ptes: array2<Pte>, a: nat, m: nat)
      requires |aliases| == ptes.Length0 && Holds(before, ptes) && a <= |aliases| && m <= ptes.Length1
      requires a == |aliases| ==> m == 0
      reads this, ptes
    {
      && (forall b, n :: 0 <= b < ptes.Length0 && 0 <= n < ptes.Length1 ==>
            (Lists(b, n) <==> (b < a || (b == a && n < m)) && aliases[b].mapsHere && before[b][n].Present?))
      && (forall b :: 0 <= b < a ==> aliases[b].allowed && (aliases[b].mapsHere ==> aliases[b].pmoNames))
      && (forall b, n :: 0 <= b < ptes.Length0 && 0 <= n < ptes.Length1 && (b < a || (b == a && n < m)) && aliases[b].mapsHere ==>
            !Obstacle(before[b][n]))
    }

    /** All machines of one alias, in one page-table critical section. */
    method PrepareAlias(aliases: seq<Alias>, a: nat, ptes: array2<Pte>, ghost before: seq<seq<Pte>>) returns (ok: bool)
      requires |aliases| == ptes.Length0 && Holds(before, ptes) && a < |aliases| && aliases[a].mapsHere
      requires Walked(aliases, before, ptes, a, 0) && |mappings| <= a * ptes.Length1
      modifies this, ptes
      ensures Holds(before, ptes)
      ensures ok ==> aliases[a].pmoNames && Walked(aliases, before, ptes, a, ptes.Length1) && |mappings| <= a * ptes.Length1 + ptes.Length1
      ensures |aliases| <= 16 && ptes.Length1 <= 8 && Clear(aliases, before) ==> ok
    {
      if !aliases[a].pmoNames {
        return false;
      }
      var m := 0;
      while m < ptes.Length1
        invariant 0 <= m <= ptes.Length1 && Holds(before, ptes)
        invariant Walked(aliases, before, ptes, a, m)
        invariant |mappings| <= a * ptes.Length1 + m
      {
        if |aliases| <= 16 && ptes.Length1 <= 8 { RoomLeft(|aliases|, ptes.Length1, a, m); }
        ok := Visit(a, m, before, ptes);
        if !ok {
          return;
        }
        m := m + 1;
      }
      ok := true;
    }

    /** One machine of one alias: save and convert, skip, or report an obstacle leaving the tables alone. */
    method Visit(a: nat, m: nat, ghost before: seq<seq<Pte>>, ptes: array2<Pte>) returns (ok: bool)
      requires a < ptes.Length0 && m < ptes.Length1 && Holds(before, ptes) && !Lists(a, m)
      modifies this, ptes
      ensures Holds(before, ptes)
      ensures ok ==> !Obstacle(before[a][m])
      ensures ok ==> forall b, n :: Lists(b, n) <==> old(Lists(b, n)) || (b == a && n == m && before[a][m].Present?)
      ensures !ok ==> mappings == old(mappings) && (Obstacle(before[a][m]) || |mappings| == MAX_MAPPINGS)
      ensures |mappings| <= |old(mappings)| + 1
    {
      var pte := ptes[a, m];
      if !pte.Present? {
        return true;
      }
      if !pte.frame.Cxl? || |mappings| == MAX_MAPPINGS || Accessed(pte) {
        return false;
      }
      ghost var olds := mappings;
      mappings := mappings + [Saved(a, m, pte)];
      ptes[a, m] := Migration;
      assert forall i :: 0 <= i < |olds| ==> mappings[i] == olds[i];
      assert mappings[|olds|] == Saved(a, m, pte);
      ok := true;
    }
  }
}
