/** Grid instants: the multiples of a step, and how many lie between two instants. */
module Grid {

  /** The instants of the grid from lo up to and including hi. */
  function Opens(lo: int, hi: int, step: nat): set<int>
    requires step > 0
  {
    set x | lo <= x <= hi && x % step == 0
  }

  lemma QuotientStep(x: int, step: nat)
    requires step > 0
    ensures x / step - (x - 1) / step == if x % step == 0 then 1 else 0
  {
    var q, r := x / step, x % step;
    assert x == q * step + r;
    if r == 0 {
      QuotientOf(x - 1, step, q - 1, step - 1);
    } else {
      QuotientOf(x - 1, step, q, r - 1);
    }
  }

  lemma QuotientOf(x: int, step: nat, q: int, r: int)
    requires 0 <= r < step && x == q * step + r
    ensures x / step == q && x % step == r
  {
    var d := x / step - q;
    assert x == (x / step) * step + x % step;
    assert d * step == r - x % step;
    SmallMultiple(d, step);
  }

  lemma SmallMultiple(d: int, step: nat)
    requires d * step < step && -(d * step) < step
    ensures d == 0
  {
    AtLeastOneStep(d, step);
  }

  lemma AtLeastOneStep(d: int, step: nat)
    ensures d > 0 ==> d * step >= step
    ensures d < 0 ==> -(d * step) >= step
  {
  }

  /** The number of grid instants of a range, by division. */
  lemma {:induction false} OpensCount(lo: int, hi: int, step: nat)
    requires step > 0 && lo <= hi + 1
    ensures |Opens(lo, hi, step)| == hi / step - (lo - 1) / step
    decreases hi - lo + 1
  {
    if lo == hi + 1 {
      assert Opens(lo, hi, step) == {};
    } else {
      OpensCount(lo, hi - 1, step);
      QuotientStep(hi, step);
      if hi % step == 0 {
        assert Opens(lo, hi, step) == Opens(lo, hi - 1, step) + {hi};
      } else {
        assert Opens(lo, hi, step) == Opens(lo, hi - 1, step);
      }
    }
  }

  lemma QuotientSum(a: int, b: int, step: nat)
    requires step > 0
    ensures a / step + b / step <= (a + b) / step <= a / step + b / step + 1
  {
    var r := a % step + b % step;
    assert a + b == (a / step + b / step) * step + r;
    if r < step {
      QuotientOf(a + b, step, a / step + b / step, r);
    } else {
      assert a + b == (a / step + b / step + 1) * step + (r - step);
      QuotientOf(a + b, step, a / step + b / step + 1, r - step);
    }
  }

  /** A range holds at most one grid instant more than the steps that fit into it, and exactly so when it starts on the grid. */
  lemma OpensBound(lo: int, hi: int, step: nat)
    requires step > 0 && lo <= hi
    ensures |Opens(lo, hi, step)| <= (hi - lo) / step + 1
    ensures lo % step == 0 ==> |Opens(lo, hi, step)| == (hi - lo) / step + 1
  {
    OpensCount(lo, hi, step);
    QuotientSum(hi - lo, lo, step);
    QuotientStep(lo, step);
    if lo % step == 0 {
      var q := (hi - lo) / step;
      assert lo == (lo / step) * step;
      assert hi == (q + lo / step) * step + (hi - lo) % step;
      QuotientOf(hi, step, q + lo / step, (hi - lo) % step);
    } else {
      QuotientStep(lo, step);
    }
  }

  /** Taking off the remainder gives the last grid instant that is not after t. */
  lemma RoundDown(t: int, x: int, step: nat)
    requires step > 0
    ensures var a := t - t % step;
            && a % step == 0
            && t - step < a <= t
            && (x % step == 0 && x <= t ==> x <= a)
  {
    var q := t / step;
    var a := t - t % step;
    assert a == q * step + 0;
    QuotientOf(a, step, q, 0);
    if x % step == 0 && x <= t {
      var p := x / step;
      assert x == p * step;
      Distribute(p, q, step);
      AtLeastOneStep(p - q, step);
    }
  }

  lemma Distribute(p: int, q: int, step: nat)
    ensures (p - q) * step == p * step - q * step
  {
  }
}
