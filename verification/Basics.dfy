/** Small vocabulary shared by the limiter modules. */
module Basics {

  datatype Option<+T> = None | Some(value: T)

  /** The four request classes, highest priority first. */
  datatype Prio = P0 | P1 | P2 | P3

  const PRIORITY_ORDER: seq<Prio> := [P0, P1, P2, P3]

  /** Position of a class in PRIORITY_ORDER. */
  function Rank(p: Prio): (k: nat)
    ensures k < 4 && PRIORITY_ORDER[k] == p
  {
    match p
    case P0 => 0
    case P1 => 1
    case P2 => 2
    case P3 => 3
  }

  /** One value per class: the dictionaries keyed by exactly the four classes. */
  datatype PerPrio<T> = PerPrio(p0: T, p1: T, p2: T, p3: T) {
    function At(p: Prio): T {
      match p
      case P0 => p0
      case P1 => p1
      case P2 => p2
      case P3 => p3
    }

    function Put(p: Prio, v: T): PerPrio<T> {
      match p
      case P0 => this.(p0 := v)
      case P1 => this.(p1 := v)
      case P2 => this.(p2 := v)
      case P3 => this.(p3 := v)
    }
  }

  function RMin(a: real, b: real): real { if a <= b then a else b }

  function RMax(a: real, b: real): real { if a <= b then b else a }

  function Min(a: int, b: int): int { if a <= b then a else b }

  function Max(a: int, b: int): int { if a <= b then b else a }

  /** The smallest integer that is not below r. */
  function Ceil(r: real): (n: int)
    ensures n as real - 1.0 < r <= n as real
  {
    -((-r).Floor)
  }

  /** A set of pairwise distinct integers between lo and hi has at most hi - lo + 1 elements. */
  lemma {:induction false} BoundedSetSize(s: set<int>, lo: int, hi: int)
    requires forall x :: x in s ==> lo <= x <= hi
    requires lo <= hi + 1
    ensures |s| <= hi - lo + 1
    decreases hi - lo + 1
  {
    if lo == hi + 1 {
      assert forall x :: x !in s;
      assert s == {};
    } else {
      BoundedSetSize(s - {hi}, lo, hi - 1);
      assert |s| <= |s - {hi}| + 1;
    }
  }

  /** An injective image of a finite set is as large as the set. */
  lemma {:induction false} InjectiveImageSize<X(!new), Y(!new)>(s: set<X>, f: X -> Y, t: set<Y>)
    requires forall x, y :: x in s && y in s && f(x) == f(y) ==> x == y
    requires forall x :: x in s ==> f(x) in t
    ensures |s| <= |t|
    decreases s
  {
    if s == {} {
    } else {
      var x :| x in s;
      InjectiveImageSize(s - {x}, f, t - {f(x)});
    }
  }
}
