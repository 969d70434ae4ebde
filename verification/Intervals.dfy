/** Half-open address ranges: merging and subtracting, as the growth analysis does it. */
module Intervals {
  datatype Range = Range(lo: int, hi: int)

  predicate In(r: Range, a: int) { r.lo <= a < r.hi }

  /** Some range of the list holds the address. */
  ghost predicate Covers(s: seq<Range>, a: int) {
    exists i :: 0 <= i < |s| && In(s[i], a)
  }

  /** Each range ends strictly before every later one begins. */
  ghost predicate Gapped(s: seq<Range>) {
    forall i, j :: 0 <= i < j < |s| ==> s[i].hi < s[j].lo
  }

  ghost predicate Proper(s: seq<Range>) { forall i :: 0 <= i < |s| ==> s[i].lo <= s[i].hi }

  lemma CoversSplit(s: seq<Range>, t: seq<Range>, a: int)
    ensures Covers(s + t, a) <==> Covers(s, a) || Covers(t, a)
  {
    var u := s + t;
    if Covers(s, a) {
      var i :| 0 <= i < |s| && In(s[i], a);
      assert u[i] == s[i];
    }
    if Covers(t, a) {
      var i :| 0 <= i < |t| && In(t[i], a);
      assert u[|s| + i] == t[i];
    }
  }

  lemma CoversOne(r: Range, a: int)
    ensures Covers([r], a) <==> In(r, a)
  {
    if In(r, a) { assert In([r][0], a); }
  }

  // ------------------------------------------------------------------ sorted(key=(start, end))

  predicate Before(a: Range, b: Range) { a.lo < b.lo || (a.lo == b.lo && a.hi <= b.hi) }

  function Insert(r: Range, s: seq<Range>): seq<Range> {
    if s == [] || Before(r, s[0]) then [r] + s else [s[0]] + Insert(r, s[1..])
  }

  function Sorted(s: seq<Range>): seq<Range> {
    if s == [] then [] else Insert(s[0], Sorted(s[1..]))
  }

  ghost predicate IsSorted(s: seq<Range>) { forall i, j :: 0 <= i < j < |s| ==> Before(s[i], s[j]) }

  lemma {:induction false} InsertKeeps(r: Range, s: seq<Range>)
    ensures multiset(Insert(r, s)) == multiset(s) + multiset{r}
  {
    if s != [] && !Before(r, s[0]) {
      InsertKeeps(r, s[1..]);
      assert s == [s[0]] + s[1..];
    }
  }

  lemma {:induction false} InsertSorts(r: Range, s: seq<Range>)
    requires IsSorted(s)
    ensures IsSorted(Insert(r, s)) && multiset(Insert(r, s)) == multiset(s) + multiset{r}
  {
    InsertKeeps(r, s);
    if s != [] && !Before(r, s[0]) {
      InsertSorts(r, s[1..]);
      var t := Insert(r, s[1..]);
      forall i | 0 <= i < |t| ensures Before(s[0], t[i]) {
        assert t[i] in multiset(t);
        assert t[i] == r || t[i] in s[1..];
      }
    }
  }

  /** The sort puts the list in order and only permutes it. */
  lemma {:induction false} SortSorts(s: seq<Range>)
    ensures IsSorted(Sorted(s)) && multiset(Sorted(s)) == multiset(s)
  {
    if s != [] {
      SortSorts(s[1..]);
      InsertSorts(s[0], Sorted(s[1..]));
      assert s == [s[0]] + s[1..];
    }
  }

  lemma SortCovers(s: seq<Range>, a: int)
    ensures Covers(Sorted(s), a) <==> Covers(s, a)
  {
    SortSorts(s);
    var t := Sorted(s);
    if Covers(s, a) {
      var i :| 0 <= i < |s| && In(s[i], a);
      assert s[i] in multiset(t);
      var j :| 0 <= j < |t| && t[j] == s[i];
    }
    if Covers(t, a) {
      var i :| 0 <= i < |t| && In(t[i], a);
      assert t[i] in multiset(s);
      var j :| 0 <= j < |s| && s[j] == t[i];
    }
  }

  lemma SortProper(s: seq<Range>)
    requires Proper(s)
    ensures Proper(Sorted(s))
  {
    SortSorts(s);
    forall i | 0 <= i < |Sorted(s)| ensures Sorted(s)[i].lo <= Sorted(s)[i].hi { assert Sorted(s)[i] in multiset(s); }
  }

  function Max(a: int, b: int): int { if a < b then b else a }
  function Min(a: int, b: int): int { if a < b then a else b }

  // ------------------------------------------------------------------ merge_intervals

  /** The ranges done so far start no later than r, and all but the last end before it starts. */
  ghost predicate Behind(out: seq<Range>, r: Range) {
    forall i :: 0 <= i < |out| ==> out[i].lo <= r.lo
  }

  /** Joining r to the last range, or appending it. */
  function Joined(out: seq<Range>, r: Range): seq<Range>
    requires out != []
  {
    var last := out[|out| - 1];
    if r.lo <= last.hi then out[..|out| - 1] + [Range(last.lo, Max(last.hi, r.hi))] else out + [r]
  }

  lemma JoinedCovers(out: seq<Range>, r: Range, a: int)
    requires out != [] && Behind(out, r)
    ensures Covers(Joined(out, r), a) <==> Covers(out, a) || In(r, a)
  {
    var n := |out| - 1;
    CoversSplit(out, [r], a);
    CoversOne(r, a);
    var wide := Range(out[n].lo, Max(out[n].hi, r.hi));
    CoversSplit(out[..n], [wide], a);
    CoversSplit(out[..n], [out[n]], a);
    CoversOne(wide, a);
    CoversOne(out[n], a);
    assert out == out[..n] + [out[n]];
  }

  lemma JoinedGapped(out: seq<Range>, r: Range)
    requires out != [] && Gapped(out) && Behind(out, r)
    ensures Gapped(Joined(out, r)) && (Proper(out) && r.lo <= r.hi ==> Proper(Joined(out, r)))
    ensures forall i :: 0 <= i < |Joined(out, r)| ==> Joined(out, r)[i].lo <= r.lo
  {
    var n, joined := |out| - 1, Joined(out, r);
    forall i, j | 0 <= i < j < |joined| ensures joined[i].hi < joined[j].lo {
      if j == n + 1 && i < n { assert out[i].hi < out[n].lo; }
    }
  }

  /** The merging loop, on a sorted list. */
  method MergeSorted(s: seq<Range>) returns (out: seq<Range>)
    requires s != [] && IsSorted(s)
    ensures forall a :: Covers(out, a) <==> Covers(s, a)
    ensures Gapped(out) && (Proper(s) ==> Proper(out))
  {
    out := [s[0]];
    assert s[..1] == [s[0]];
    var i := 1;
    while i < |s|
      invariant 1 <= i <= |s| && out != [] && Gapped(out) && (Proper(s) ==> Proper(out))
      invariant forall a :: Covers(out, a) <==> Covers(s[..i], a)
      invariant Behind(out, s[i - 1])
    {
      var r := s[i];
      assert Before(s[i - 1], r);
      forall a ensures Covers(Joined(out, r), a) <==> Covers(s[..i + 1], a) {
        JoinedCovers(out, r, a);
        CoversSplit(s[..i], [r], a);
        CoversOne(r, a);
        assert s[..i + 1] == s[..i] + [r];
      }
      JoinedGapped(out, r);
      var n := |out| - 1;
      if r.lo <= out[n].hi {
        out := out[..n] + [Range(out[n].lo, Max(out[n].hi, r.hi))];
      } else {
        out := out + [r];
      }
      i := i + 1;
    }
    assert s[..i] == s;
  }

  /** Same addresses, in strictly separated ranges -- for every list of ranges, empty or inverted ones included. */
  method MergeIntervals(intervals: seq<Range>) returns (out: seq<Range>)
    ensures forall a :: Covers(out, a) <==> Covers(intervals, a)
    ensures Gapped(out) && (Proper(intervals) ==> Proper(out))
  {
    if intervals == [] {
      return [];
    }
    var s := Sorted(intervals);
    SortSorts(intervals);
    assert |s| == |multiset(s)| == |intervals|;
    forall a ensures Covers(s, a) <==> Covers(intervals, a) { SortCovers(intervals, a); }
    if Proper(intervals) { SortProper(intervals); }
    out := MergeSorted(s);
  }

  // ------------------------------------------------------------------ subtract_intervals

  /** What is left of one range. */
  function Cut(r: Range, c: Range): seq<Range> {
    if r.hi <= c.lo || r.lo >= c.hi then [r]
    else (if r.lo < c.lo then [Range(r.lo, Min(r.hi, c.lo))] else [])
         + (if c.hi < r.hi then [Range(Max(r.lo, c.hi), r.hi)] else [])
  }

  lemma CutCovers(r: Range, c: Range, a: int)
    ensures Covers(Cut(r, c), a) <==> In(r, a) && !In(c, a)
  {
    var left, right := Range(r.lo, Min(r.hi, c.lo)), Range(Max(r.lo, c.hi), r.hi);
    CoversOne(r, a);
    CoversOne(left, a);
    CoversOne(right, a);
    CoversSplit(if r.lo < c.lo then [left] else [], if c.hi < r.hi then [right] else [], a);
  }

  lemma CutProper(r: Range, c: Range)
    requires r.lo <= r.hi
    ensures Proper(Cut(r, c))
  {
  }

  /** One round of the subtraction: every piece loses the addresses of c. */
  method CutAll(current: seq<Range>, c: Range) returns (next: seq<Range>)
    ensures forall a :: Covers(next, a) <==> Covers(current, a) && !In(c, a)
    ensures Proper(current) ==> Proper(next)
  {
    next := [];
    var i := 0;
    while i < |current|
      invariant 0 <= i <= |current| && (Proper(current) ==> Proper(next))
      invariant forall a :: Covers(next, a) <==> Covers(current[..i], a) && !In(c, a)
    {
      var r := current[i];
      ghost var before := next;
      if r.hi <= c.lo || r.lo >= c.hi {
        next := next + [r];
      } else {
        if r.lo < c.lo {
          next := next + [Range(r.lo, Min(r.hi, c.lo))];
        }
        if c.hi < r.hi {
          next := next + [Range(Max(r.lo, c.hi), r.hi)];
        }
      }
      assert next == before + Cut(r, c);
      if Proper(current) { CutProper(r, c); }
      forall a ensures Covers(next, a) <==> Covers(current[..i + 1], a) && !In(c, a) {
        CoversSplit(before, Cut(r, c), a);
        CutCovers(r, c, a);
        CoversSplit(current[..i], [r], a);
        CoversOne(r, a);
        assert current[..i + 1] == current[..i] + [r];
      }
      i := i + 1;
    }
    assert current[..i] == current;
  }

  /** The inner loops for one outer range. */
  method CutByAll(r: Range, cuts: seq<Range>) returns (current: seq<Range>)
    ensures forall a :: Covers(current, a) <==> In(r, a) && !Covers(cuts, a)
    ensures r.lo <= r.hi ==> Proper(current)
  {
    current := [r];
    forall a ensures Covers(current, a) <==> In(r, a) { CoversOne(r, a); }
    var j := 0;
    while j < |cuts|
      invariant 0 <= j <= |cuts| && (r.lo <= r.hi ==> Proper(current))
      invariant forall a :: Covers(current, a) <==> In(r, a) && !Covers(cuts[..j], a)
    {
      current := CutAll(current, cuts[j]);
      forall a ensures Covers(cuts[..j + 1], a) <==> Covers(cuts[..j], a) || In(cuts[j], a) {
        CoversSplit(cuts[..j], [cuts[j]], a);
        CoversOne(cuts[j], a);
        assert cuts[..j + 1] == cuts[..j] + [cuts[j]];
      }
      j := j + 1;
    }
    assert cuts[..j] == cuts;
  }

  /** Exactly the addresses of the first list that the second does not cover, in strictly separated ranges. */
  method SubtractIntervals(outer: seq<Range>, toSubtract: seq<Range>) returns (out: seq<Range>)
    ensures forall a :: Covers(out, a) <==> Covers(outer, a) && !Covers(toSubtract, a)
    ensures Gapped(out) && (Proper(outer) ==> Proper(out))
  {
    var result := [];
    var i := 0;
    while i < |outer|
      invariant 0 <= i <= |outer| && (Proper(outer) ==> Proper(result))
      invariant forall a :: Covers(result, a) <==> Covers(outer[..i], a) && !Covers(toSubtract, a)
    {
      var current := CutByAll(outer[i], toSubtract);
      forall a ensures Covers(result + current, a) <==> Covers(outer[..i + 1], a) && !Covers(toSubtract, a) {
        CoversSplit(result, current, a);
        CoversSplit(outer[..i], [outer[i]], a);
        CoversOne(outer[i], a);
        assert outer[..i + 1] == outer[..i] + [outer[i]];
      }
      result := result + current;
      i := i + 1;
    }
    assert outer[..i] == outer;
    out := MergeIntervals(result);
  }

  // ------------------------------------------------------------------ sizes

  ghost function Addresses(r: Range): set<int> { set a: int | r.lo <= a < r.hi && In(r, a) }

  lemma {:induction false} RangeSize(r: Range)
    requires r.lo <= r.hi
    ensures |Addresses(r)| == r.hi - r.lo
    decreases r.hi - r.lo
  {
    if r.lo == r.hi {
      assert Addresses(r) == {};
    } else {
      RangeSize(Range(r.lo + 1, r.hi));
      assert Addresses(r) == {r.lo} + Addresses(Range(r.lo + 1, r.hi));
    }
  }

  ghost function AllAddresses(s: seq<Range>): set<int> {
    if s == [] then {} else Addresses(s[0]) + AllAddresses(s[1..])
  }

  function TotalLength(s: seq<Range>): int {
    if s == [] then 0 else s[0].hi - s[0].lo + TotalLength(s[1..])
  }

  lemma {:induction false} AllAddressesCovers(s: seq<Range>, a: int)
    ensures a in AllAddresses(s) <==> Covers(s, a)
  {
    if s != [] {
      AllAddressesCovers(s[1..], a);
      CoversOne(s[0], a);
      CoversSplit([s[0]], s[1..], a);
      assert s == [s[0]] + s[1..];
    }
  }

  lemma Apart(s: seq<Range>, a: int)
    requires Gapped(s) && s != [] && In(s[0], a)
    ensures !Covers(s[1..], a)
  {
    forall i | 0 <= i < |s[1..]| ensures !In(s[1..][i], a) { assert s[0].hi < s[i + 1].lo; }
  }

  /** In strictly separated proper ranges the lengths add up to the number of addresses. */
  lemma {:induction false} LengthsCountAddresses(s: seq<Range>)
    requires Gapped(s) && Proper(s)
    ensures TotalLength(s) == |AllAddresses(s)|
  {
    if s != [] {
      LengthsCountAddresses(s[1..]);
      RangeSize(s[0]);
      forall a | a in Addresses(s[0]) ensures a !in AllAddresses(s[1..]) {
        AllAddressesCovers(s[1..], a);
        Apart(s, a);
      }
      assert Addresses(s[0]) !! AllAddresses(s[1..]);
    }
  }

  /** Two lists with the same coverage in separated proper form have the same total length. */
  lemma SameCoverageSameLength(s: seq<Range>, t: seq<Range>)
    requires Gapped(s) && Proper(s) && Gapped(t) && Proper(t) && forall a :: Covers(s, a) <==> Covers(t, a)
    ensures TotalLength(s) == TotalLength(t)
  {
    LengthsCountAddresses(s);
    LengthsCountAddresses(t);
    forall a ensures a in AllAddresses(s) <==> a in AllAddresses(t) { AllAddressesCovers(s, a); AllAddressesCovers(t, a); }
    assert AllAddresses(s) == AllAddresses(t);
  }
}
