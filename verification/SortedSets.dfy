/** Finite sets of instants in ascending order, and their newest members. */
module SortedSets {
  import opened Basics

  lemma Pick<T>(s: set<T>) returns (x: T)
    requires s != {}
    ensures x in s
  {
    x :| x in s;
  }

  predicate IsLeast(x: int, s: set<int>) { x in s && forall y :: y in s ==> x <= y }

  lemma {:induction false} MinExists(s: set<int>)
    requires s != {}
    ensures exists x :: IsLeast(x, s)
    decreases |s|
  {
    var x := Pick(s);
    var rest := s - {x};
    assert s == rest + {x};
    if rest == {} {
      assert IsLeast(x, s);
    } else {
      MinExists(rest);
      var m :| IsLeast(m, rest);
      assert IsLeast(if m < x then m else x, s);
    }
  }

  function SortedKeys(s: set<int>): seq<int> {
    if s == {} then []
    else
      MinExists(s);
      var x :| IsLeast(x, s);
      [x] + SortedKeys(s - {x})
  }

  lemma SplitLeast(s: set<int>) returns (x: int, rest: seq<int>)
    requires s != {}
    ensures IsLeast(x, s) && rest == SortedKeys(s - {x}) && SortedKeys(s) == [x] + rest
  {
    MinExists(s);
    x :| IsLeast(x, s);
    rest := SortedKeys(s - {x});
  }

  lemma {:induction false} SortedKeysAscend(s: set<int>)
    ensures forall k :: k in SortedKeys(s) <==> k in s
    ensures forall i, j :: 0 <= i < j < |SortedKeys(s)| ==> SortedKeys(s)[i] < SortedKeys(s)[j]
    decreases |s|
  {
    if s != {} {
      var x, rest := SplitLeast(s);
      hide SortedKeys;
      SortedKeysAscend(s - {x});
      forall j | 0 < j < |SortedKeys(s)| ensures x < SortedKeys(s)[j] {
        assert SortedKeys(s)[j] == rest[j - 1] && rest[j - 1] in rest;
      }
    }
  }

  predicate Increasing(s: seq<int>) { forall i, j :: 0 <= i < j < |s| ==> s[i] < s[j] }

  function Members(s: seq<int>): set<int> { set k | k in s }

  lemma {:induction false} DistinctSize(s: seq<int>)
    requires Increasing(s)
    ensures |Members(s)| == |s|
  {
    if s != [] {
      DistinctSize(s[1..]);
      assert Members(s) == Members(s[1..]) + {s[0]};
    }
  }

  // ------------------------------------------------------------- newest first

  /** The largest of some instants, as many as the limit allows. */
  predicate NewestKeys(keys: set<int>, all: set<int>, limit: int) {
    && keys <= all
    && |keys| == Min(limit, |all|)
    && forall j, k :: j in all && j !in keys && k in keys ==> j < k
  }

  /** When the limit covers every instant there could be, the newest are all. */
  lemma NewestAreAll(keys: set<int>, all: set<int>, limit: int, possible: set<int>)
    requires NewestKeys(keys, all, limit) && all <= possible && |possible| <= limit
    ensures keys == all
  {
    SubsetSize(all, possible);
    SubsetOfSameSize(keys, all);
  }

  lemma SubsetSize<T>(a: set<T>, b: set<T>)
    requires a <= b
    ensures |a| <= |b|
  {
    assert b == a + (b - a);
  }

  lemma SubsetOfSameSize<T>(a: set<T>, b: set<T>)
    requires a <= b && |a| == |b|
    ensures a == b
  {
    assert b == a + (b - a);
  }

  lemma SuffixIsNewest(sorted: seq<int>, all: set<int>, limit: nat)
    requires Increasing(sorted) && all == Members(sorted)
    ensures NewestKeys(Members(sorted[|sorted| - Min(limit, |sorted|)..]), all, limit)
  {
    var first := |sorted| - Min(limit, |sorted|);
    var last := sorted[first..];
    var keys := Members(last);
    DistinctSize(sorted);
    DistinctSize(last);
    forall j, k | j in all && j !in keys && k in keys ensures j < k {
      var a :| 0 <= a < |sorted| && sorted[a] == j;
      var b :| 0 <= b < |last| && last[b] == k;
      InSuffix(sorted, first, a);
    }
  }

  lemma InSuffix(s: seq<int>, first: int, a: int)
    ensures 0 <= first <= a < |s| ==> s[a] in s[first..]
  {
    if 0 <= first <= a < |s| {
      assert s[first..][a - first] == s[a];
    }
  }

  /** The last of the sorted keys. */
  function LastKeys(all: set<int>, limit: nat): (keys: seq<int>)
    ensures forall i :: 0 <= i < |keys| ==> keys[i] in all
  {
    SortedKeysAscend(all);
    var sorted := SortedKeys(all);
    sorted[|sorted| - Min(limit, |sorted|)..]
  }

  lemma LastKeysAreNewest(all: set<int>, limit: nat)
    ensures NewestKeys(Members(LastKeys(all, limit)), all, limit)
  {
    SortedKeysAscend(all);
    var sorted := SortedKeys(all);
    hide SortedKeys;
    assert forall k :: k in Members(sorted) <==> k in all;
    assert Members(sorted) <= all && all <= Members(sorted);
    SuffixIsNewest(sorted, all, limit);
  }
}
