/**
 * Planning of candle fetches: the gaps inside required ranges, and batches of
 * gaps for the exchange.
 */
module CandleRanges {
  import opened Basics
  import opened Grid
  import opened Spans

  // ---------------------------------------------------------------------- gaps

  /** A row of existing coverage; either end may be missing. */
  datatype Row = Row(gapStart: Option<int>, gapEnd: Option<int>)

  predicate Complete(row: Row) { row.gapStart.Some? && row.gapEnd.Some? }

  predicate RowsCover(rows: seq<Row>, x: int) {
    exists row :: row in rows && Complete(row) && row.gapStart.value <= x < row.gapEnd.value
  }

  /** What a row leaves of a range, if anything. */
  function Clip(r: Span, row: Row): seq<Span> {
    if !Complete(row) then []
    else
      var s := Span(Max(row.gapStart.value, r.lo), Min(row.gapEnd.value, r.hi));
      if s.lo < s.hi then [s] else []
  }

  function ClipAll(r: Span, rows: seq<Row>): seq<Span> {
    if rows == [] then [] else ClipAll(r, rows[..|rows| - 1]) + Clip(r, rows[|rows| - 1])
  }

  function Clipped(required: seq<Span>, rows: seq<Row>): seq<Span> {
    if required == [] then []
    else Clipped(required[..|required| - 1], rows) + ClipAll(required[|required| - 1], rows)
  }

  function Extracted(required: seq<Span>, rows: seq<Row>): seq<Span> { Merged(Clipped(required, rows)) }

  method ExtractGaps(required: seq<Span>, rows: seq<Row>) returns (gaps: seq<Span>)
    ensures gaps == Extracted(required, rows)
    ensures Canonical(gaps)
    ensures forall x :: Covers(gaps, x) <==> Covers(required, x) && RowsCover(rows, x)
  {
    ExtractedIsTheIntersection(required, rows);
    hide *;
    NothingClipped(rows);
    gaps := [];
    for i := 0 to |required|
      invariant gaps == Clipped(required[..i], rows)
    {
      var r := required[i];
      ClipAllStart(r);
      for j := 0 to |rows|
        invariant gaps == Clipped(required[..i], rows) + ClipAll(r, rows[..j])
      {
        var row := rows[j];
        ClipAllStep(r, rows, j);
        if row.gapStart == None || row.gapEnd == None {
          continue;
        }
        var effectiveStart := Max(row.gapStart.value, r.lo);
        var effectiveEnd := Min(row.gapEnd.value, r.hi);
        if effectiveStart < effectiveEnd {
          gaps := gaps + [Span(effectiveStart, effectiveEnd)];
        }
      }
      ClippedStep(required, rows, i);
    }
    assert required[..|required|] == required;
    ExtractedOf(required, rows);
    gaps := MergeSpans(gaps);
  }

  lemma NothingClipped(rows: seq<Row>)
    ensures Clipped([], rows) == []
  {
  }

  lemma ClipAllStart(r: Span)
    ensures ClipAll(r, []) == []
  {
  }

  lemma ClipAllStep(r: Span, rows: seq<Row>, j: nat)
    requires j < |rows|
    ensures ClipAll(r, rows[..j + 1]) == ClipAll(r, rows[..j]) +
            if rows[j].gapStart == None || rows[j].gapEnd == None then []
            else if Max(rows[j].gapStart.value, r.lo) < Min(rows[j].gapEnd.value, r.hi)
            then [Span(Max(rows[j].gapStart.value, r.lo), Min(rows[j].gapEnd.value, r.hi))]
            else []
  {
    assert rows[..j + 1][..j] == rows[..j];
  }

  lemma ClippedStep(required: seq<Span>, rows: seq<Row>, i: nat)
    requires i < |required|
    ensures Clipped(required[..i + 1], rows) == Clipped(required[..i], rows) + ClipAll(required[i], rows[..|rows|])
  {
    assert required[..i + 1][..i] == required[..i];
    assert rows[..|rows|] == rows;
  }

  lemma ExtractedOf(required: seq<Span>, rows: seq<Row>)
    ensures Extracted(required, rows) == Merged(Clipped(required, rows))
  {
  }

  lemma CoversJoin(a: seq<Span>, b: seq<Span>, x: int)
    ensures Covers(a + b, x) <==> Covers(a, x) || Covers(b, x)
  {
    assert forall s :: s in a + b <==> s in a || s in b;
  }

  lemma ClipPoints(r: Span, row: Row, x: int)
    ensures Proper(Clip(r, row))
    ensures Covers(Clip(r, row), x) <==> Inside(r, x) && RowsCover([row], x)
  {
    var c := Clip(r, row);
    assert RowsCover([row], x) <==> Complete(row) && row.gapStart.value <= x < row.gapEnd.value by {
      assert row in [row];
    }
    assert c != [] ==> c[0] in c;
  }

  lemma {:induction false} ClipAllPoints(r: Span, rows: seq<Row>, x: int)
    ensures Proper(ClipAll(r, rows))
    ensures Covers(ClipAll(r, rows), x) <==> Inside(r, x) && RowsCover(rows, x)
    decreases |rows|
  {
    if rows != [] {
      var front, last := rows[..|rows| - 1], rows[|rows| - 1];
      ClipAllPoints(r, front, x);
      ClipPoints(r, last, x);
      CoversJoin(ClipAll(r, front), Clip(r, last), x);
      assert rows == front + [last];
      RowsJoin(front, last, x);
    }
  }

  lemma RowsJoin(front: seq<Row>, last: Row, x: int)
    ensures RowsCover(front + [last], x) <==> RowsCover(front, x) || RowsCover([last], x)
  {
    assert forall row :: row in front + [last] <==> row in front || row in [last];
  }

  lemma {:induction false} ClippedPoints(required: seq<Span>, rows: seq<Row>, x: int)
    ensures Proper(Clipped(required, rows))
    ensures Covers(Clipped(required, rows), x) <==> Covers(required, x) && RowsCover(rows, x)
    decreases |required|
  {
    if required != [] {
      var front, last := required[..|required| - 1], required[|required| - 1];
      ClippedPoints(front, rows, x);
      ClipAllPoints(last, rows, x);
      CoversJoin(Clipped(front, rows), ClipAll(last, rows), x);
      assert required == front + [last];
      CoversJoin(front, [last], x);
      assert Covers([last], x) <==> Inside(last, x) by { assert last in [last]; }
    }
  }

  /** The extracted gaps are the canonical form of what is both required and missing. */
  lemma ExtractedIsTheIntersection(required: seq<Span>, rows: seq<Row>)
    ensures Canonical(Extracted(required, rows))
    ensures forall x :: Covers(Extracted(required, rows), x) <==> Covers(required, x) && RowsCover(rows, x)
  {
    var c := Clipped(required, rows);
    ClippedPoints(required, rows, 0);
    MergedIsCanonical(c);
    MergedKeepsPoints(c);
    forall x ensures Covers(Extracted(required, rows), x) <==> Covers(required, x) && RowsCover(rows, x) {
      ClippedPoints(required, rows, x);
    }
  }

  /** Merging the required ranges beforehand changes nothing. */
  lemma ExtractedOfMerged(required: seq<Span>, rows: seq<Row>)
    ensures Extracted(Merged(required), rows) == Extracted(required, rows)
  {
    ExtractedIsTheIntersection(required, rows);
    ExtractedIsTheIntersection(Merged(required), rows);
    MergedKeepsPoints(required);
    CanonicalUnique(Extracted(Merged(required), rows), Extracted(required, rows));
  }

  // ------------------------------------------------------------------- batches

  datatype Gap = Gap(timeframe: string, span: Span)

  const MINUTE := 60_000_000

  function TimeframeMinutes(timeframe: string): (m: nat)
    ensures m > 0
  {
    if timeframe == "1" then 1
    else if timeframe == "3" then 3
    else if timeframe == "5" then 5
    else if timeframe == "15" then 15
    else if timeframe == "30" then 30
    else if timeframe == "60" then 60
    else if timeframe == "120" then 120
    else if timeframe == "240" then 240
    else if timeframe == "360" then 360
    else if timeframe == "720" then 720
    else if timeframe == "D" then 1440
    else if timeframe == "W" then 10080
    else if timeframe == "M" then 43200
    else 5
  }

  /** Quotient rounded towards zero. */
  function Truncated(a: int, b: nat): int
    requires b > 0
  {
    if a >= 0 then a / b else -(-a / b)
  }

  function Estimate(gap: Gap): int {
    Truncated(gap.span.hi - gap.span.lo, TimeframeMinutes(gap.timeframe) * MINUTE) + 1
  }

  /**
   * The estimate of a gap is never less than its candles, both ends included,
   * and exact for a gap that starts on the grid; rounding is towards zero, so
   * an inverted gap is estimated as its mirror image with the sign turned.
   */
  lemma EstimateCoversTheGap(gap: Gap)
    ensures var step := TimeframeMinutes(gap.timeframe) * MINUTE;
            && (gap.span.lo <= gap.span.hi ==>
                  && |Opens(gap.span.lo, gap.span.hi, step)| <= Estimate(gap)
                  && (gap.span.lo % step == 0 ==> |Opens(gap.span.lo, gap.span.hi, step)| == Estimate(gap)))
            && Estimate(gap) - 1 == -(Estimate(gap.(span := Span(gap.span.hi, gap.span.lo))) - 1)
            && (gap.span.lo <= gap.span.hi ==> (Estimate(gap) - 1) * step <= gap.span.hi - gap.span.lo)
  {
    var step := TimeframeMinutes(gap.timeframe) * MINUTE;
    hide TimeframeMinutes, Opens;
    if gap.span.lo <= gap.span.hi {
      OpensBound(gap.span.lo, gap.span.hi, step);
      var d := gap.span.hi - gap.span.lo;
      assert d == (d / step) * step + d % step;
    }
  }

  function Total(batch: seq<Gap>): int {
    if batch == [] then 0 else Total(batch[..|batch| - 1]) + Estimate(batch[|batch| - 1])
  }

  function Concat(batches: seq<seq<Gap>>): seq<Gap> {
    if batches == [] then [] else Concat(batches[..|batches| - 1]) + batches[|batches| - 1]
  }

  /** Within the limit, or a single gap that cannot be split. */
  predicate Fits(batch: seq<Gap>, limit: int) { batch != [] && (Total(batch) <= limit || |batch| == 1) }

  predicate AllFit(batches: seq<seq<Gap>>, limit: int) {
    forall i :: 0 <= i < |batches| ==> Fits(batches[i], limit)
  }

  /** The first batch has no room for the gap that opens the next one. */
  predicate NoRoom(batch: seq<Gap>, next: seq<Gap>, limit: int) {
    batch != [] && next != [] && Total(batch) + Estimate(next[0]) > limit
  }

  /** A new batch is opened only when the one before has no room. */
  predicate Tight(batches: seq<seq<Gap>>, limit: int) {
    |batches| < 2 ||
    (Tight(batches[..|batches| - 1], limit) && NoRoom(batches[|batches| - 2], batches[|batches| - 1], limit))
  }

  method SplitGapsForApi(gaps: seq<Gap>, limit: int) returns (batches: seq<seq<Gap>>)
    ensures Concat(batches) == gaps
    ensures AllFit(batches, limit) && Tight(batches, limit)
  {
    hide Total, Estimate, Concat, Tight, NoRoom, Fits, AllFit;
    Nothing(limit);
    batches := [];
    var batch: seq<Gap>, candles := [], 0;
    for i := 0 to |gaps|
      invariant Concat(batches) + batch == gaps[..i]
      invariant candles == Total(batch)
      invariant AllFit(batches, limit) && (batch != [] ==> Fits(batch, limit))
      invariant Tight(batches, limit)
      invariant batches != [] ==> batch != [] && NoRoom(batches[|batches| - 1], batch, limit)
    {
      var gap := gaps[i];
      var gapCandles := Estimate(gap);
      AddGap(batch, gap, limit);
      NextGap(Concat(batches), batch, gaps, i);
      if candles + gapCandles > limit && batch != [] {
        CloseBatch(batches, batch, limit);
        OpenBatch(batch, gap, limit);
        batches := batches + [batch];
        batch, candles := [], 0;
      } else if batches != [] {
        KeepBatch(batches[|batches| - 1], batch, gap, limit);
      }
      batch := batch + [gap];
      candles := candles + gapCandles;
    }
    assert gaps[..|gaps|] == gaps;
    if batch != [] {
      CloseBatch(batches, batch, limit);
      batches := batches + [batch];
    }
  }

  lemma Nothing(limit: int)
    ensures Concat([]) == [] && Total([]) == 0 && Tight([], limit) && AllFit([], limit)
  {
  }

  lemma NextGap(before: seq<Gap>, batch: seq<Gap>, gaps: seq<Gap>, i: nat)
    requires i < |gaps| && before + batch == gaps[..i]
    ensures before + (batch + [gaps[i]]) == gaps[..i + 1]
    ensures before + batch + ([] + [gaps[i]]) == gaps[..i + 1]
  {
    assert gaps[..i + 1] == gaps[..i] + [gaps[i]];
  }

  lemma AddGap(batch: seq<Gap>, gap: Gap, limit: int)
    ensures Total(batch + [gap]) == Total(batch) + Estimate(gap)
    ensures batch == [] || Total(batch) + Estimate(gap) <= limit ==> Fits(batch + [gap], limit)
  {
    assert (batch + [gap])[..|batch|] == batch;
  }

  lemma OpenBatch(batch: seq<Gap>, gap: Gap, limit: int)
    requires batch != [] && Total(batch) + Estimate(gap) > limit
    ensures NoRoom(batch, [] + [gap], limit) && Fits([] + [gap], limit)
    ensures Total([] + [gap]) == Estimate(gap)
  {
    assert ([] + [gap])[..0] == [];
  }

  lemma KeepBatch(before: seq<Gap>, batch: seq<Gap>, gap: Gap, limit: int)
    requires NoRoom(before, batch, limit)
    ensures NoRoom(before, batch + [gap], limit)
  {
  }

  lemma CloseBatch(batches: seq<seq<Gap>>, batch: seq<Gap>, limit: int)
    requires Tight(batches, limit)
    requires batches != [] ==> NoRoom(batches[|batches| - 1], batch, limit)
    requires AllFit(batches, limit) && Fits(batch, limit)
    ensures Concat(batches + [batch]) == Concat(batches) + batch
    ensures Tight(batches + [batch], limit) && AllFit(batches + [batch], limit)
  {
    assert (batches + [batch])[..|batches|] == batches;
  }

  // ------------------------------------------------- no split has fewer batches

  /** Where the k-th batch begins in the list of gaps. */
  function Begin(batches: seq<seq<Gap>>, k: nat): nat
    requires k <= |batches|
  {
    |Concat(batches[..k])|
  }

  lemma {:induction false} TightAt(batches: seq<seq<Gap>>, k: nat, limit: int)
    requires Tight(batches, limit) && k + 1 < |batches|
    ensures NoRoom(batches[k], batches[k + 1], limit)
    decreases |batches|
  {
    if k + 2 < |batches| {
      TightAt(batches[..|batches| - 1], k, limit);
    }
  }

  /** A batch is the slice of the gaps between its beginning and the next one's. */
  lemma {:induction false} BatchIsSlice(batches: seq<seq<Gap>>, k: nat)
    requires k < |batches|
    ensures Begin(batches, k + 1) == Begin(batches, k) + |batches[k]| <= |Concat(batches)|
    ensures Concat(batches)[Begin(batches, k)..Begin(batches, k + 1)] == batches[k]
    decreases |batches|
  {
    var front, last := batches[..|batches| - 1], batches[|batches| - 1];
    assert batches[..k + 1][..k] == batches[..k];
    assert Concat(batches) == Concat(front) + last;
    if k + 1 < |batches| {
      BatchIsSlice(front, k);
      assert front[..k] == batches[..k] && front[..k + 1] == batches[..k + 1];
      var a, b := Begin(batches, k), Begin(batches, k + 1);
      assert Concat(batches)[a..b] == Concat(front)[a..b];
    } else {
      assert batches[..k] == front && batches[..k + 1] == batches;
      assert Concat(batches)[|Concat(front)|..] == last;
    }
  }

  predicate NoneInverted(gaps: seq<Gap>) { forall i :: 0 <= i < |gaps| ==> gaps[i].span.lo <= gaps[i].span.hi }

  lemma EstimatePositive(gap: Gap)
    requires gap.span.lo <= gap.span.hi
    ensures Estimate(gap) > 0
  {
  }

  lemma {:induction false} TotalSplit(a: seq<Gap>, b: seq<Gap>)
    ensures Total(a + b) == Total(a) + Total(b)
    decreases |b|
  {
    if b == [] {
      assert a + b == a;
    } else {
      TotalSplit(a, b[..|b| - 1]);
      assert (a + b)[..|a + b| - 1] == a + b[..|b| - 1];
    }
  }

  lemma {:induction false} TotalNonNegative(gaps: seq<Gap>)
    requires NoneInverted(gaps)
    ensures Total(gaps) >= 0
  {
    if gaps != [] {
      TotalNonNegative(gaps[..|gaps| - 1]);
      EstimatePositive(gaps[|gaps| - 1]);
    }
  }

  lemma TotalOfSlice(gaps: seq<Gap>, a: nat, b: nat, c: nat, d: nat)
    requires NoneInverted(gaps) && a <= b <= c <= d <= |gaps|
    ensures Total(gaps[b..c]) <= Total(gaps[a..d])
  {
    hide Total, Estimate;
    assert NoneInverted(gaps[a..b]) && NoneInverted(gaps[c..d]);
    hide NoneInverted;
    ThreeSlices(gaps, a, b, c, d);
    TotalSplit(gaps[a..b], gaps[b..c] + gaps[c..d]);
    TotalSplit(gaps[b..c], gaps[c..d]);
    TotalNonNegative(gaps[a..b]);
    TotalNonNegative(gaps[c..d]);
  }

  lemma ThreeSlices<T>(s: seq<T>, a: nat, b: nat, c: nat, d: nat)
    requires a <= b <= c <= d <= |s|
    ensures s[a..d] == s[a..b] + (s[b..c] + s[c..d])
  {
  }

  /** The tight split is ahead of any other split after every batch. */
  lemma {:induction false} StaysAhead(gaps: seq<Gap>, batches: seq<seq<Gap>>, other: seq<seq<Gap>>, limit: int, k: nat)
    requires NoneInverted(gaps) && Concat(batches) == gaps && Concat(other) == gaps
    requires AllFit(batches, limit) && Tight(batches, limit) && AllFit(other, limit)
    requires k < |batches| && k <= |other|
    ensures Begin(other, k) <= Begin(batches, k)
    decreases k
  {
    hide Concat, Tight, Total, Estimate, NoneInverted;
    if k == 0 {
      assert other[..0] == batches[..0];
    } else {
      hide Begin;
      StaysAhead(gaps, batches, other, limit, k - 1);
      BatchIsSlice(batches, k - 1);
      BatchIsSlice(batches, k);
      BatchIsSlice(other, k - 1);
      TightAt(batches, k - 1, limit);
      assert Fits(other[k - 1], limit);
      hide AllFit, Fits;
      assert gaps[Begin(batches, k)] == batches[k][0];
      Overtaken(gaps, Begin(other, k - 1), Begin(batches, k - 1), Begin(batches, k), Begin(other, k), limit);
    }
  }

  /** A batch that starts earlier and ends later than a tight one cannot fit. */
  lemma Overtaken(gaps: seq<Gap>, q: nat, p: nat, p': nat, q': nat, limit: int)
    requires NoneInverted(gaps) && q <= p < p' < |gaps| && q <= q' <= |gaps|
    requires Total(gaps[p..p']) + Estimate(gaps[p']) > limit
    requires Fits(gaps[q..q'], limit)
    ensures q' <= p'
  {
    hide NoneInverted, Total, Estimate;
    if q' > p' {
      assert gaps[p..p' + 1] == gaps[p..p'] + [gaps[p']];
      AddGap(gaps[p..p'], gaps[p'], limit);
      TotalOfSlice(gaps, q, p, p' + 1, q');
      assert false;
    }
  }

  /**
   * No way of cutting the list into batches that fit has fewer batches than
   * the split; the estimates of gaps that are not inverted are positive.
   */
  lemma SplitIsFewest(gaps: seq<Gap>, batches: seq<seq<Gap>>, other: seq<seq<Gap>>, limit: int)
    requires NoneInverted(gaps) && Concat(batches) == gaps && Concat(other) == gaps
    requires AllFit(batches, limit) && Tight(batches, limit) && AllFit(other, limit)
    ensures |batches| <= |other|
  {
    if |other| < |batches| {
      var k := |other|;
      assert Fits(batches[k], limit);
      assert other[..k] == other;
      BatchIsSlice(batches, k);
      StaysAhead(gaps, batches, other, limit, k);
      assert false;
    }
  }
}
