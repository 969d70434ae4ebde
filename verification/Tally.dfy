/** Counting the entries of a map and adding up their weights, under single updates. */
module Tally {
  ghost function Matching<K, V>(m: map<K, V>, f: V -> bool): set<K> {
    set k | k in m && f(m[k])
  }

  ghost function Count<K, V>(m: map<K, V>, f: V -> bool): nat {
    |Matching(m, f)|
  }

  lemma CountUpdate<K, V>(m: map<K, V>, k: K, v: V, f: V -> bool)
    ensures Count(m[k := v], f) == Count(m, f) - (if k in m && f(m[k]) then 1 else 0) + (if f(v) then 1 else 0)
  {
    var rest := Matching(m, f) - {k};
    assert Matching(m[k := v], f) == if f(v) then rest + {k} else rest;
    assert k in m && f(m[k]) ==> Matching(m, f) == rest + {k};
    assert !(k in m && f(m[k])) ==> Matching(m, f) == rest;
  }

  lemma CountRemove<K, V>(m: map<K, V>, k: K, f: V -> bool)
    ensures Count(m - {k}, f) == Count(m, f) - (if k in m && f(m[k]) then 1 else 0)
  {
    var rest := Matching(m, f) - {k};
    assert Matching(m - {k}, f) == rest;
    assert k in m && f(m[k]) ==> Matching(m, f) == rest + {k};
    assert !(k in m && f(m[k])) ==> Matching(m, f) == rest;
  }

  ghost function Weigh<K, V>(m: map<K, V>, w: V -> nat): nat
    decreases |m|
  {
    if m == map[] then 0
    else
      var k :| k in m;
      assert |m - {k}| < |m| by { assert (m - {k}).Keys == m.Keys - {k}; }
      w(m[k]) + Weigh(m - {k}, w)
  }

  /** The weight does not depend on the order of summation. */
  lemma {:induction false} WeighSplit<K, V>(m: map<K, V>, k: K, w: V -> nat)
    requires k in m
    ensures Weigh(m, w) == w(m[k]) + Weigh(m - {k}, w)
    decreases |m|
  {
    var p :| p in m && Weigh(m, w) == w(m[p]) + Weigh(m - {p}, w);
    if p != k {
      assert |m - {p}| < |m| && |m - {k}| < |m| by {
        assert (m - {p}).Keys == m.Keys - {p} && (m - {k}).Keys == m.Keys - {k};
      }
      WeighSplit(m - {p}, k, w);
      WeighSplit(m - {k}, p, w);
      assert m - {p} - {k} == m - {k} - {p};
    }
  }

  lemma WeighUpdate<K, V>(m: map<K, V>, k: K, v: V, w: V -> nat)
    ensures Weigh(m[k := v], w) == Weigh(m, w) - (if k in m then w(m[k]) else 0) + w(v)
  {
    WeighSplit(m[k := v], k, w);
    assert m[k := v] - {k} == m - {k};
    if k in m { WeighSplit(m, k, w); } else { assert m - {k} == m; }
  }

  lemma WeighRemove<K, V>(m: map<K, V>, k: K, w: V -> nat)
    ensures Weigh(m - {k}, w) == Weigh(m, w) - (if k in m then w(m[k]) else 0)
  {
    if k in m { WeighSplit(m, k, w); } else { assert m - {k} == m; }
  }

  function Sum(xs: seq<nat>): nat {
    if xs == [] then 0 else xs[0] + Sum(xs[1..])
  }

  lemma {:induction false} SumUpdate(xs: seq<nat>, i: nat, x: nat)
    requires i < |xs|
    ensures Sum(xs[i := x]) == Sum(xs) - xs[i] + x && xs[i] <= Sum(xs)
  {
    if i > 0 {
      SumUpdate(xs[1..], i - 1, x);
      assert xs[i := x][1..] == xs[1..][i - 1 := x];
    } else {
      assert xs[0 := x][1..] == xs[1..];
    }
  }
}
