/**
 * What a reconciliation stores when the exchange answers each request with the
 * newest candles of its window: every valid candle of the gaps, and no other.
 */
module CandleHistory {
  import opened Basics
  import opened Grid
  import opened NewestRows
  import opened Spans
  import opened CandleRanges
  import opened CandleSync

  function OpenOf(c: Raw): Option<int> { Some(c.openTime) }

  predicate Holds(u: map<int, Raw>, c: Raw) { c.openTime in u && u[c.openTime] == c }

  /** The rows an exchange answers a window with, if it answers with rows. */
  function RowsOf(exchange: Exchange): Reader<Raw> {
    (lo: int, hi: int, limit: int) =>
      match exchange(Span(lo, hi), limit)
      case Rows(rows) => Some(rows)
      case Failure(_) => None
  }

  /** The timeframe is a number of at least three minutes that means itself. */
  predicate Plain(timeframe: string) {
    TimeframeNumber(timeframe) == Some(TimeframeMinutes(timeframe)) && TimeframeMinutes(timeframe) >= 3
  }

  predicate Batchlike(b: Span) { b.lo < b.hi <= b.lo + BATCH }

  lemma LimitCovers(b: Span, number: nat)
    requires number >= 3 && Batchlike(b)
    ensures |Opens(b.lo, b.hi, number * MINUTE)| <= RequestLimit(b, number) && RequestLimit(b, number) >= 0
  {
    var step := number * MINUTE;
    OpensBound(b.lo, b.hi, step);
    StepsOfBatch(number);
    var rest := BATCH - (b.hi - b.lo);
    QuotientSum(b.hi - b.lo, rest, step);
    hide Opens;
    QuotientNotNegative(b.hi - b.lo, step);
    QuotientNotNegative(rest, step);
  }

  lemma QuotientNotNegative(a: int, step: nat)
    requires a >= 0 && step > 0
    ensures a / step >= 0
  {
  }

  /** A batch is answered with all candles of its window. */
  lemma BatchIsComplete(b: Span, timeframe: string, exchange: Exchange, u: map<int, Raw>)
    requires Batchlike(b) && Plain(timeframe) && Honest(RowsOf(exchange), u)
    requires Universe(u, OpenOf, TimeframeMinutes(timeframe) * MINUTE)
    ensures FetchBatch(b, timeframe, exchange).Rows?
    ensures RowsAre(FetchBatch(b, timeframe, exchange).rows, u, KeysIn(u, b.lo, b.hi))
  {
    hide Opens, RequestLimit, TimeframeNumber, TimeframeMinutes, RowsAre, KeysIn;
    var number := TimeframeMinutes(timeframe);
    var limit := RequestLimit(b, number);
    LimitCovers(b, number);
    assert RowsOf(exchange)(b.lo, b.hi, limit).Some? && Span(b.lo, b.hi) == b;
    NewestIsAll(exchange(b, limit).rows, u, OpenOf, b.lo, b.hi, limit, number * MINUTE);
  }

  /** The rows of a window are the candles that open in it. */
  lemma RowsOfWindow(rows: seq<Raw>, u: map<int, Raw>, b: Span, step: nat, c: Raw)
    requires step > 0 && Universe(u, OpenOf, step) && RowsAre(rows, u, KeysIn(u, b.lo, b.hi))
    ensures c in rows <==> Holds(u, c) && Touches(b, c.openTime)
  {
    if Holds(u, c) && Touches(b, c.openTime) {
      assert c.openTime in KeysIn(u, b.lo, b.hi);
    }
  }

  // ------------------------------------------------------------------ one gap

  predicate AllBatchlike(bs: seq<Span>) { forall b :: b in bs ==> Batchlike(b) }

  /** An instant inside one of the spans, end points included. */
  predicate ClosedCovers(bs: seq<Span>, x: int) { exists b :: b in bs && Touches(b, x) }

  lemma {:induction false} TilesClosed(bs: seq<Span>, lo: int, hi: int, x: int)
    requires Tiles(bs, lo, hi) && NoLonger(bs, BATCH)
    ensures AllBatchlike(bs)
    ensures ClosedCovers(bs, x) <==> lo < hi && lo <= x <= hi
    decreases |bs|
  {
    if bs != [] {
      TilesClosed(bs[1..], bs[0].hi, hi, x);
      TileStart(bs[1..], bs[0].hi, hi);
      assert bs[0] in bs && forall b :: b in bs <==> b == bs[0] || b in bs[1..];
      assert ClosedCovers(bs, x) <==> Touches(bs[0], x) || ClosedCovers(bs[1..], x);
    }
  }

  /** The kept candles are those of the answered batches that pass. */
  lemma {:induction false} CandlesAre(bs: seq<Span>, timeframe: string, cutoff: Option<int>, exchange: Exchange, c: Raw)
    ensures c in CandlesOf(bs, timeframe, cutoff, exchange) <==>
            Keep(c, timeframe, cutoff) &&
            exists b :: b in bs && FetchBatch(b, timeframe, exchange).Rows? && c in FetchBatch(b, timeframe, exchange).rows
    decreases |bs|
  {
    hide Keep, FetchBatch;
    if bs != [] {
      CandlesAre(bs[1..], timeframe, cutoff, exchange, c);
      match FetchBatch(bs[0], timeframe, exchange) {
        case Rows(rows) => KeptRowsKept(rows, timeframe, cutoff);
        case Failure(_) =>
      }
      assert forall b :: b in bs <==> b == bs[0] || b in bs[1..];
    }
  }

  /** A gap before the cutoff, its end points included. */
  predicate InGap(gap: Span, cutoff: Option<int>, x: int) {
    gap.lo < ClampTo(gap.hi, cutoff) && gap.lo <= x <= ClampTo(gap.hi, cutoff)
  }

  lemma PassesByFields(gap: Span, timeframe: string, cutoff: Option<int>, c: Raw)
    requires Plain(timeframe)
    ensures InGap(gap, cutoff, c.openTime) && Keep(c, timeframe, cutoff) <==>
              && c.valid && gap.lo <= c.openTime <= gap.hi && gap.lo < gap.hi
              && (cutoff.Some? ==> gap.lo < cutoff.value && c.openTime + TimeframeNumber(timeframe).value * MINUTE <= cutoff.value)
  {
    hide TimeframeNumber, TimeframeMinutes;
  }

  /**
   * The candles stored for a gap are exactly the valid ones the exchange
   * holds that open in the gap, or at its end, and close by the cutoff.
   */
  lemma GapIsComplete(gap: Span, timeframe: string, cutoff: Option<int>, exchange: Exchange, u: map<int, Raw>, c: Raw)
    requires Plain(timeframe) && Honest(RowsOf(exchange), u) && Universe(u, OpenOf, TimeframeMinutes(timeframe) * MINUTE)
    ensures c in CandlesOf(GapBatches(gap, cutoff), timeframe, cutoff, exchange) <==>
            && Holds(u, c) && c.valid && gap.lo <= c.openTime <= gap.hi && gap.lo < gap.hi
            && (cutoff.Some? ==> gap.lo < cutoff.value && c.openTime + TimeframeNumber(timeframe).value * MINUTE <= cutoff.value)
  {
    PassesByFields(gap, timeframe, cutoff, c);
    hide Plain, Honest, Universe, Keep, FetchBatch, CandlesOf, Tiles;
    var bs := GapBatches(gap, cutoff);
    BatchesTile(gap.lo, ClampTo(gap.hi, cutoff));
    TilesClosed(bs, gap.lo, ClampTo(gap.hi, cutoff), c.openTime);
    CandlesAre(bs, timeframe, cutoff, exchange, c);
    forall b | b in bs
      ensures FetchBatch(b, timeframe, exchange).Rows?
      ensures c in FetchBatch(b, timeframe, exchange).rows <==> Holds(u, c) && Touches(b, c.openTime)
    {
      BatchIsComplete(b, timeframe, exchange, u);
      RowsOfWindow(FetchBatch(b, timeframe, exchange).rows, u, b, TimeframeMinutes(timeframe) * MINUTE, c);
    }
    hide GapBatches;
  }

  // ---------------------------------------------------------------- every gap

  lemma {:induction false} NoBatchFails(bs: seq<Span>, timeframe: string, exchange: Exchange, u: map<int, Raw>)
    requires Plain(timeframe) && Honest(RowsOf(exchange), u) && Universe(u, OpenOf, TimeframeMinutes(timeframe) * MINUTE)
    requires AllBatchlike(bs)
    ensures FailedOf(bs, timeframe, exchange) == []
    decreases |bs|
  {
    hide Plain, Honest, Universe, FetchBatch;
    if bs != [] {
      BatchIsComplete(bs[0], timeframe, exchange, u);
      NoBatchFails(bs[1..], timeframe, exchange, u);
    }
  }

  lemma {:induction false} AllAreBatchlike(gaps: seq<Span>, cutoff: Option<int>)
    ensures AllBatchlike(AllBatches(gaps, cutoff))
    decreases |gaps|
  {
    if gaps != [] {
      var gap := gaps[|gaps| - 1];
      AllAreBatchlike(gaps[..|gaps| - 1], cutoff);
      BatchesTile(gap.lo, ClampTo(gap.hi, cutoff));
      TilesClosed(GapBatches(gap, cutoff), gap.lo, ClampTo(gap.hi, cutoff), gap.lo);
    }
  }

  /**
   * A reconciliation is complete: over an exchange that answers with its
   * newest candles nothing fails, and every valid candle that opens at an
   * instant reported missing and closes by the cutoff is stored with one of
   * the gaps.
   */
  lemma ReconcileIsComplete(required: seq<Span>, timeframe: string, cutoff: Option<int>, coverage: Coverage,
                            exchange: Exchange, store: Store, raw: seq<Span>, u: map<int, Raw>, c: Raw)
    requires RawGaps(Merged(required), coverage) == Some(raw)
    requires Plain(timeframe) && Honest(RowsOf(exchange), u) && Universe(u, OpenOf, TimeframeMinutes(timeframe) * MINUTE)
    ensures var r := Reconciled(required, timeframe, cutoff, coverage, exchange, store);
            && r.Some? && r.value.failed == []
            && (Holds(u, c) && Covers(raw, c.openTime) && c.valid
                && (cutoff.Some? ==> c.openTime + TimeframeNumber(timeframe).value * MINUTE <= cutoff.value) ==>
                  exists gap :: gap in r.value.gaps && c in CandlesOf(GapBatches(gap, cutoff), timeframe, cutoff, exchange))
  {
    var gaps := Merged(raw);
    AllAreBatchlike(gaps, cutoff);
    NoBatchFails(AllBatches(gaps, cutoff), timeframe, exchange, u);
    MergedKeepsPoints(raw);
    if Holds(u, c) && Covers(raw, c.openTime) && c.valid
       && (cutoff.Some? ==> c.openTime + TimeframeNumber(timeframe).value * MINUTE <= cutoff.value) {
      assert Covers(gaps, c.openTime);
      var gap :| gap in gaps && Inside(gap, c.openTime);
      GapIsComplete(gap, timeframe, cutoff, exchange, u, c);
      ClosesInGap(gap, timeframe, cutoff, c);
    }
    hide Honest, Universe, Plain, CandlesOf, Merged, AllBatches, RawGaps, FailedOf;
  }

  lemma ClosesInGap(gap: Span, timeframe: string, cutoff: Option<int>, c: Raw)
    requires Inside(gap, c.openTime) && Keep(c, timeframe, cutoff)
    ensures InGap(gap, cutoff, c.openTime)
  {
  }
}
