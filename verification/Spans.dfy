/**
 * Half-open intervals of time and the sort-and-merge loop over them: the
 * merged list is the one canonical list with the same points.
 */
module Spans {
  import opened Basics

  /** The instants from lo up to but excluding hi. */
  datatype Span = Span(lo: int, hi: int)

  predicate Inside(s: Span, x: int) { s.lo <= x < s.hi }

  predicate Covers(ss: seq<Span>, x: int) { exists s :: s in ss && Inside(s, x) }

  ghost predicate SamePoints(a: seq<Span>, b: seq<Span>) { forall x :: Covers(a, x) <==> Covers(b, x) }

  predicate Proper(ss: seq<Span>) { forall i :: 0 <= i < |ss| ==> ss[i].lo < ss[i].hi }

  /** In order, none empty, and a gap between any two. */
  predicate Canonical(ss: seq<Span>) {
    Proper(ss) && forall i, j :: 0 <= i < j < |ss| ==> ss[i].hi < ss[j].lo
  }

  /** Spans that follow each other from lo to hi without gap or overlap. */
  predicate Tiles(ss: seq<Span>, lo: int, hi: int) {
    if ss == [] then lo >= hi
    else ss[0].lo == lo && lo < ss[0].hi <= hi && Tiles(ss[1..], ss[0].hi, hi)
  }

  lemma TilesFrom(s: Span, rest: seq<Span>, hi: int)
    requires s.lo < s.hi <= hi && Tiles(rest, s.hi, hi)
    ensures Tiles([s] + rest, s.lo, hi)
  {
    assert ([s] + rest)[1..] == rest;
  }

  predicate NoLonger(ss: seq<Span>, size: int) { forall s :: s in ss ==> s.hi <= s.lo + size }

  // ------------------------------------------------------------------- sorting

  predicate Sorted(ss: seq<Span>) { forall i, j :: 0 <= i < j < |ss| ==> ss[i].lo <= ss[j].lo }

  function Insert(s: Span, ss: seq<Span>): seq<Span> {
    if ss == [] || s.lo <= ss[0].lo then [s] + ss else [ss[0]] + Insert(s, ss[1..])
  }

  /** Stable sort by start. */
  function SortByStart(ss: seq<Span>): seq<Span> {
    if ss == [] then [] else Insert(ss[0], SortByStart(ss[1..]))
  }

  lemma {:induction false} InsertSorts(s: Span, ss: seq<Span>)
    requires Sorted(ss)
    ensures Sorted(Insert(s, ss))
    ensures forall t :: t in Insert(s, ss) <==> t == s || t in ss
  {
    if ss == [] || s.lo <= ss[0].lo {
    } else {
      var r := Insert(s, ss[1..]);
      InsertSorts(s, ss[1..]);
      assert forall t :: t in ss <==> t == ss[0] || t in ss[1..];
      forall k | 0 <= k < |r| ensures ss[0].lo <= r[k].lo {
        assert r[k] in r;
      }
    }
  }

  lemma {:induction false} SortSorts(ss: seq<Span>)
    ensures Sorted(SortByStart(ss))
    ensures forall t :: t in SortByStart(ss) <==> t in ss
  {
    if ss != [] {
      SortSorts(ss[1..]);
      InsertSorts(ss[0], SortByStart(ss[1..]));
      assert forall t :: t in ss <==> t == ss[0] || t in ss[1..];
    }
  }

  // ------------------------------------------------------------------- merging

  function Last(ss: seq<Span>): Span
    requires ss != []
  {
    ss[|ss| - 1]
  }

  /** One turn of the loop: extend the last merged span, or start a new one. */
  function Absorb(merged: seq<Span>, s: Span): seq<Span> {
    if merged != [] && s.lo <= Last(merged).hi
    then merged[..|merged| - 1] + [Span(Last(merged).lo, Max(Last(merged).hi, s.hi))]
    else merged + [s]
  }

  function Fold(merged: seq<Span>, rest: seq<Span>): seq<Span>
    decreases |rest|
  {
    if rest == [] then merged else Fold(Absorb(merged, rest[0]), rest[1..])
  }

  function Merged(ss: seq<Span>): seq<Span> { Fold([], SortByStart(ss)) }

  method MergeSpans(ranges: seq<Span>) returns (merged: seq<Span>)
    ensures merged == Merged(ranges)
    ensures SamePoints(merged, ranges)
    ensures Proper(ranges) ==> Canonical(merged)
  {
    MergedKeepsPoints(ranges);
    if Proper(ranges) {
      MergedIsCanonical(ranges);
    }
    if ranges == [] {
      return [];
    }
    var sorted := SortByStart(ranges);
    FoldStarts(ranges);
    hide *;
    merged := [sorted[0]];
    for i := 1 to |sorted|
      invariant merged != []
      invariant Fold(merged, sorted[i..]) == Merged(ranges)
    {
      var current, lastMerged := sorted[i], merged[|merged| - 1];
      FoldStep(merged, sorted, i);
      if current.lo <= lastMerged.hi {
        merged := merged[..|merged| - 1] + [Span(lastMerged.lo, Max(lastMerged.hi, current.hi))];
      } else {
        merged := merged + [current];
      }
    }
    assert sorted[|sorted|..] == [];
    FoldEnds(merged);
  }

  lemma FoldStarts(ss: seq<Span>)
    requires ss != []
    ensures var sorted := SortByStart(ss); sorted != [] && Merged(ss) == Fold([sorted[0]], sorted[1..])
  {
    SortSorts(ss);
    assert ss[0] in SortByStart(ss);
    assert Absorb([], SortByStart(ss)[0]) == [SortByStart(ss)[0]];
  }

  lemma FoldStep(merged: seq<Span>, ss: seq<Span>, i: nat)
    requires merged != [] && i < |ss|
    ensures Fold(merged, ss[i..]) ==
            Fold(if ss[i].lo <= merged[|merged| - 1].hi
                 then merged[..|merged| - 1] + [Span(merged[|merged| - 1].lo, Max(merged[|merged| - 1].hi, ss[i].hi))]
                 else merged + [ss[i]], ss[i + 1..])
  {
    assert ss[i..][1..] == ss[i + 1..];
  }

  lemma FoldEnds(merged: seq<Span>)
    ensures Fold(merged, []) == merged
  {
  }

  /** The loop reads its input in order of start, so the last merged span starts no later than the next. */
  predicate Ordered(merged: seq<Span>, rest: seq<Span>) {
    Sorted(rest) && (merged != [] && rest != [] ==> Last(merged).lo <= rest[0].lo)
  }

  lemma AbsorbKeepsOrder(merged: seq<Span>, rest: seq<Span>)
    requires rest != [] && Ordered(merged, rest)
    ensures Ordered(Absorb(merged, rest[0]), rest[1..])
  {
  }

  lemma AbsorbPoints(merged: seq<Span>, s: Span, x: int)
    requires merged != [] ==> Last(merged).lo <= s.lo
    ensures Covers(Absorb(merged, s), x) <==> Covers(merged, x) || Inside(s, x)
  {
    if merged != [] && s.lo <= Last(merged).hi {
      var front, l := merged[..|merged| - 1], Last(merged);
      var m := Span(l.lo, Max(l.hi, s.hi));
      assert merged == front + [l];
      assert forall t :: t in front + [l] <==> t in front || t == l;
      assert forall t :: t in front + [m] <==> t in front || t == m;
      assert Inside(m, x) <==> Inside(l, x) || Inside(s, x);
      if Covers(merged, x) {
        var t :| t in merged && Inside(t, x);
        assert t in front + [m] || Inside(m, x);
      }
      if Covers(front + [m], x) {
        var t :| t in front + [m] && Inside(t, x);
        assert t in merged || Inside(l, x) || Inside(s, x);
      }
    } else {
      assert forall t :: t in merged + [s] <==> t in merged || t == s;
    }
  }

  lemma {:induction false} FoldPoints(merged: seq<Span>, rest: seq<Span>, x: int)
    requires Ordered(merged, rest)
    ensures Covers(Fold(merged, rest), x) <==> Covers(merged, x) || Covers(rest, x)
    decreases |rest|
  {
    if rest != [] {
      AbsorbKeepsOrder(merged, rest);
      AbsorbPoints(merged, rest[0], x);
      FoldPoints(Absorb(merged, rest[0]), rest[1..], x);
      assert forall t :: t in rest <==> t == rest[0] || t in rest[1..];
    }
  }

  /** Merging neither adds nor loses an instant, whatever the spans. */
  lemma MergedKeepsPoints(ss: seq<Span>)
    ensures SamePoints(Merged(ss), ss)
  {
    SortSorts(ss);
    forall x ensures Covers(Merged(ss), x) <==> Covers(ss, x) {
      FoldPoints([], SortByStart(ss), x);
    }
  }

  lemma {:induction false} FoldCanonical(merged: seq<Span>, rest: seq<Span>)
    requires Canonical(merged) && Proper(rest) && Ordered(merged, rest)
    ensures Canonical(Fold(merged, rest))
    decreases |rest|
  {
    if rest != [] {
      AbsorbKeepsOrder(merged, rest);
      FoldCanonical(Absorb(merged, rest[0]), rest[1..]);
    }
  }

  lemma MergedIsCanonical(ss: seq<Span>)
    requires Proper(ss)
    ensures Canonical(Merged(ss))
  {
    SortSorts(ss);
    var sorted := SortByStart(ss);
    forall i | 0 <= i < |sorted| ensures sorted[i].lo < sorted[i].hi {
      assert sorted[i] in ss;
    }
    FoldCanonical([], sorted);
  }

  // ---------------------------------------------------------------- uniqueness

  lemma FirstPoint(a: seq<Span>, x: int)
    requires Canonical(a) && a != []
    ensures Covers(a, a[0].lo)
    ensures Covers(a, x) ==> a[0].lo <= x
    ensures a[0].lo <= x < a[0].hi ==> Covers(a, x)
    ensures !Covers(a, a[0].hi)
    ensures Covers(a[1..], x) <==> Covers(a, x) && a[0].hi <= x
  {
    assert a[0] in a && Inside(a[0], a[0].lo);
    assert Inside(a[0], x) ==> Covers(a, x);
    assert forall t :: t in a <==> t == a[0] || t in a[1..];
    forall t | t in a[1..] ensures a[0].hi < t.lo < t.hi {
      var k :| 0 <= k < |a[1..]| && a[1..][k] == t;
      assert a[k + 1] == t;
    }
  }

  /** A set of instants has one canonical list. */
  lemma {:induction false} CanonicalUnique(a: seq<Span>, b: seq<Span>)
    requires Canonical(a) && Canonical(b) && SamePoints(a, b)
    ensures a == b
    decreases |a|
  {
    if a == [] {
      if b != [] {
        FirstPoint(b, 0);
        assert false;
      }
    } else {
      FirstPoint(a, 0);
      assert Covers(b, a[0].lo);
      FirstPoint(b, a[0].lo);
      FirstPoint(a, b[0].lo);
      FirstPoint(a, b[0].hi);
      FirstPoint(b, a[0].hi);
      assert a[0] == b[0];
      forall x ensures Covers(a[1..], x) <==> Covers(b[1..], x) {
        FirstPoint(a, x);
        FirstPoint(b, x);
      }
      CanonicalUnique(a[1..], b[1..]);
    }
  }

  /** The merged list is the only canonical list with the points of the input. */
  lemma MergedIsTheCanonicalForm(ss: seq<Span>, c: seq<Span>)
    requires Proper(ss)
    ensures c == Merged(ss) <==> Canonical(c) && SamePoints(c, ss)
  {
    MergedIsCanonical(ss);
    MergedKeepsPoints(ss);
    if Canonical(c) && SamePoints(c, ss) {
      CanonicalUnique(c, Merged(ss));
    }
  }

  lemma MergedIdempotent(ss: seq<Span>)
    requires Proper(ss)
    ensures Merged(Merged(ss)) == Merged(ss)
  {
    MergedIsCanonical(ss);
    MergedIsTheCanonicalForm(Merged(ss), Merged(ss));
  }

  /** Order, repetition and the way the input is cut up do not matter. */
  lemma MergedDependsOnPoints(a: seq<Span>, b: seq<Span>)
    requires Proper(a) && Proper(b)
    ensures Merged(a) == Merged(b) <==> SamePoints(a, b)
  {
    MergedIsTheCanonicalForm(a, Merged(a));
    MergedIsTheCanonicalForm(b, Merged(b));
    if SamePoints(a, b) {
      MergedIsTheCanonicalForm(b, Merged(a));
    }
  }

  // --------------------------------------------------------------- empty spans

  predicate Touches(s: Span, x: int) { s.lo <= x <= s.hi }

  predicate NotInverted(ss: seq<Span>) { forall s :: s in ss ==> s.lo <= s.hi }

  /** Every span is inside one of the others, its end points included. */
  predicate Contained(s: Span, ss: seq<Span>) { exists t :: t in ss && t.lo <= s.lo && s.hi <= t.hi }

  /** Any two spans are apart, end points included, and start where an input span starts. */
  predicate Separated(ss: seq<Span>) { forall i, j :: 0 <= i < j < |ss| ==> ss[i].hi < ss[j].lo }

  lemma AbsorbContains(merged: seq<Span>, s: Span, t: Span)
    requires merged != [] ==> Last(merged).lo <= s.lo
    requires Contained(t, merged) || t == s
    ensures Contained(t, Absorb(merged, s))
  {
    var r := Absorb(merged, s);
    assert Last(r) in r;
    if t != s {
      var m :| m in merged && m.lo <= t.lo && t.hi <= m.hi;
      if m != Last(merged) {
        var k :| 0 <= k < |merged| && merged[k] == m;
        assert r[k] == m;
      } else if r != merged + [s] {
        assert Last(r).lo <= t.lo && t.hi <= Last(r).hi;
      } else {
        assert r[|merged| - 1] == m;
      }
    }
  }

  lemma {:induction false} FoldContains(merged: seq<Span>, rest: seq<Span>, t: Span)
    requires Ordered(merged, rest)
    requires Contained(t, merged) || t in rest
    ensures Contained(t, Fold(merged, rest))
    decreases |rest|
  {
    if rest != [] {
      AbsorbKeepsOrder(merged, rest);
      assert t in rest <==> t == rest[0] || t in rest[1..];
      if Contained(t, merged) || t == rest[0] {
        AbsorbContains(merged, rest[0], t);
      }
      FoldContains(Absorb(merged, rest[0]), rest[1..], t);
    }
  }

  predicate StartsIn(ss: seq<Span>, starts: set<int>) { forall s :: s in ss ==> s.lo in starts }

  lemma {:induction false} FoldSeparated(merged: seq<Span>, rest: seq<Span>, starts: set<int>)
    requires Separated(merged) && NotInverted(merged) && NotInverted(rest) && Ordered(merged, rest)
    requires StartsIn(merged, starts) && StartsIn(rest, starts)
    ensures Separated(Fold(merged, rest)) && NotInverted(Fold(merged, rest)) && StartsIn(Fold(merged, rest), starts)
    decreases |rest|
  {
    if rest != [] {
      AbsorbKeepsOrder(merged, rest);
      AbsorbSeparated(merged, rest[0], starts);
      FoldSeparated(Absorb(merged, rest[0]), rest[1..], starts);
    }
  }

  lemma AbsorbSeparated(merged: seq<Span>, s: Span, starts: set<int>)
    requires Separated(merged) && NotInverted(merged) && s.lo <= s.hi
    requires merged != [] ==> Last(merged).lo <= s.lo
    requires StartsIn(merged, starts) && s.lo in starts
    ensures Separated(Absorb(merged, s)) && NotInverted(Absorb(merged, s)) && StartsIn(Absorb(merged, s), starts)
  {
    forall k | 0 <= k < |merged| ensures merged[k].lo <= merged[k].hi {
      assert merged[k] in merged;
    }
  }

  predicate EmptiesTouch(ss: seq<Span>) {
    forall e :: e in ss && e.lo == e.hi ==> exists p :: p in ss && p.lo < p.hi && Touches(p, e.lo)
  }

  predicate AllContained(ss: seq<Span>, r: seq<Span>) { forall t :: t in ss ==> Contained(t, r) }

  lemma MergedShape(ss: seq<Span>)
    requires NotInverted(ss)
    ensures Separated(Merged(ss)) && NotInverted(Merged(ss)) && AllContained(ss, Merged(ss))
    ensures StartsIn(Merged(ss), set s | s in ss :: s.lo)
  {
    SortSorts(ss);
    FoldSeparated([], SortByStart(ss), set s | s in ss :: s.lo);
    forall t | t in ss ensures Contained(t, Merged(ss)) {
      FoldContains([], SortByStart(ss), t);
    }
  }

  lemma EmptyTouches(ss: seq<Span>, r: seq<Span>, e: Span)
    requires SamePoints(r, ss) && Canonical(r) && e in ss && e.lo == e.hi && Contained(e, r)
    ensures exists p :: p in ss && p.lo < p.hi && Touches(p, e.lo)
  {
    var m :| m in r && m.lo <= e.lo && e.hi <= m.hi;
    var x := if e.lo < m.hi then e.lo else m.hi - 1;
    assert Inside(m, x) && Covers(ss, x);
    var p :| p in ss && Inside(p, x);
    if x != e.lo {
      assert !Covers(r, m.hi) by {
        var k :| 0 <= k < |r| && r[k] == m;
        forall n | n in r ensures !Inside(n, m.hi) {
          var j :| 0 <= j < |r| && r[j] == n;
        }
      }
      assert !Inside(p, m.hi);
    }
    assert Touches(p, e.lo);
  }

  /** A result span that touches an instant of another one is that other one. */
  lemma SameResult(r: seq<Span>, k: nat, n: Span)
    requires k < |r| && Separated(r) && n in r && r[k].lo <= r[k].hi && n.lo <= r[k].lo <= n.hi
    ensures n == r[k]
  {
    var j :| 0 <= j < |r| && r[j] == n;
    assert !(j < k);
  }

  lemma ResultNotEmpty(ss: seq<Span>, r: seq<Span>, k: nat)
    requires k < |r| && Separated(r) && NotInverted(r)
    requires AllContained(ss, r) && StartsIn(r, set s | s in ss :: s.lo)
    requires NotInverted(ss) && EmptiesTouch(ss)
    ensures r[k].lo < r[k].hi
  {
    var p := Toucher(ss, r, k);
    assert Contained(p, r);
    hide AllContained, StartsIn, EmptiesTouch;
    var n :| n in r && n.lo <= p.lo && p.hi <= n.hi;
    assert r[k] in r;
    SameResult(r, k, n);
  }

  /** A span of the input that is not empty and touches the start of a result span. */
  lemma Toucher(ss: seq<Span>, r: seq<Span>, k: nat) returns (p: Span)
    requires k < |r| && StartsIn(r, set s | s in ss :: s.lo)
    requires NotInverted(ss) && EmptiesTouch(ss)
    ensures p in ss && p.lo < p.hi && Touches(p, r[k].lo)
  {
    var starts := set s | s in ss :: s.lo;
    assert r[k] in r && r[k].lo in starts;
    p :| p in ss && p.lo == r[k].lo;
    if p.lo == p.hi {
      p :| p in ss && p.lo < p.hi && Touches(p, r[k].lo);
    }
  }

  /**
   * Gap rows are not validated: among spans that may be empty, the merged
   * list is canonical exactly when every empty one touches one that is not.
   */
  lemma MergedCanonicalIff(ss: seq<Span>)
    requires NotInverted(ss)
    ensures Canonical(Merged(ss)) <==> EmptiesTouch(ss)
  {
    MergedShape(ss);
    MergedKeepsPoints(ss);
    hide Merged, Touches, NotInverted, SamePoints;
    var r := Merged(ss);
    if Canonical(r) {
      forall e | e in ss && e.lo == e.hi ensures exists p :: p in ss && p.lo < p.hi && Touches(p, e.lo) {
        EmptyTouches(ss, r, e);
      }
    }
    if EmptiesTouch(ss) {
      forall k | 0 <= k < |r| ensures r[k].lo < r[k].hi {
        ResultNotEmpty(ss, r, k);
      }
    }
  }
}
