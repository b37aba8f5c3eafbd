/**
 * Fetching of missing candles: batches that tile the wanted range, failures
 * that are listed, and the reconciliation that ties both to the gaps.
 */
module CandleSync {
  import opened Basics
  import opened Text
  import opened Grid
  import opened Spans
  import opened CandleRanges

  const BATCH := 480 * MINUTE

  /** A candle as the exchange sends it; valid when all its fields parse and pass validation. */
  datatype Raw = Raw(openTime: int, valid: bool)

  datatype Reply = Rows(rows: seq<Raw>) | Failure(error: string)

  /** One request to the exchange: the range and the number of candles asked for. */
  type Exchange = (Span, int) -> Reply

  // ---------------------------------------------------------------- one batch

  /** int(timeframe): the named timeframes D, W and M are not numbers, and zero cannot divide. */
  function TimeframeNumber(timeframe: string): Option<nat> {
    if timeframe != "" && AllDigits(timeframe) && DecimalValue(timeframe) > 0
    then Some(DecimalValue(timeframe))
    else None
  }

  function RequestLimit(batch: Span, number: nat): int
    requires number > 0
  {
    Min(200, Truncated(batch.hi - batch.lo, number * MINUTE) + 1)
  }

  function FetchBatch(batch: Span, timeframe: string, exchange: Exchange): Reply {
    match TimeframeNumber(timeframe)
    case None => Failure("timeframe")
    case Some(number) => exchange(batch, RequestLimit(batch, number))
  }

  /**
   * The number of candles asked for covers the grid of a batch exactly when
   * that grid has at most 200 instants; on the grid that is less than 200 steps.
   */
  lemma RequestLimitSuffices(batch: Span, number: nat)
    requires number > 0 && batch.lo <= batch.hi
    ensures var step := number * MINUTE;
            var opens := batch.hi / step - (batch.lo - 1) / step;
            && |Opens(batch.lo, batch.hi, step)| == opens
            && (opens <= RequestLimit(batch, number) <==> opens <= 200)
            && (batch.lo % step == 0 ==> opens == (batch.hi - batch.lo) / step + 1)
  {
    var step := number * MINUTE;
    OpensCount(batch.lo, batch.hi, step);
    OpensBound(batch.lo, batch.hi, step);
    hide Opens;
  }

  /** A full batch of eight hours is asked for completely exactly from three-minute candles on. */
  lemma FullBatchFits(lo: int, number: nat)
    requires number > 0
    ensures |Opens(lo, lo + BATCH, number * MINUTE)| <= RequestLimit(Span(lo, lo + BATCH), number) <==> number >= 3
  {
    hide Opens, RequestLimit;
    var step := number * MINUTE;
    var steps := BATCH / step;
    RequestLimitSuffices(Span(lo, lo + BATCH), number);
    QuotientSum(BATCH, lo, step);
    QuotientStep(lo, step);
    StepsOfBatch(number);
  }

  lemma StepsOfBatch(number: nat)
    requires number > 0
    ensures number >= 3 ==> BATCH / (number * MINUTE) < 200
    ensures number < 3 ==> BATCH / (number * MINUTE) >= 201
  {
    var step := number * MINUTE;
    assert BATCH == (BATCH / step) * step + BATCH % step;
    Steps(BATCH / step, number, BATCH % step);
  }

  lemma Steps(steps: int, number: nat, rest: int)
    requires number > 0 && 0 <= rest < number * MINUTE && BATCH == steps * (number * MINUTE) + rest
    ensures number >= 3 ==> steps < 200
    ensures number < 3 ==> steps >= 201
  {
    assert steps * (number * MINUTE) == (steps * number) * MINUTE;
    assert steps * number <= 480;
    assert (steps + 1) * number > 480 by {
      assert (steps + 1) * (number * MINUTE) == ((steps + 1) * number) * MINUTE;
    }
    AtLeast600(steps, number);
  }

  lemma AtLeast600(steps: int, number: nat)
    ensures steps >= 200 && number >= 3 ==> steps * number >= 600
  {
  }

  // --------------------------------------------------------------- one range

  /** Eight-hour batches from one instant up to another. */
  function Batches(lo: int, hi: int): seq<Span>
    decreases hi - lo
  {
    if lo >= hi then []
    else
      var end := Min(lo + BATCH, hi);
      [Span(lo, end)] + Batches(end, hi)
  }

  function ClampTo(hi: int, cutoff: Option<int>): int {
    match cutoff
    case Some(c) => Min(hi, c)
    case None => hi
  }

  /** A candle is kept when it is valid and closed by the cutoff. */
  predicate Keep(raw: Raw, timeframe: string, cutoff: Option<int>) {
    raw.valid && (cutoff.Some? ==> raw.openTime + TimeframeMinutes(timeframe) * MINUTE <= cutoff.value)
  }

  function KeptRows(rows: seq<Raw>, timeframe: string, cutoff: Option<int>): seq<Raw> {
    if rows == [] then []
    else
      KeptRows(rows[..|rows| - 1], timeframe, cutoff) +
      if Keep(rows[|rows| - 1], timeframe, cutoff) then [rows[|rows| - 1]] else []
  }

  function FailedOf(batches: seq<Span>, timeframe: string, exchange: Exchange): seq<Span> {
    if batches == [] then []
    else
      (if FetchBatch(batches[0], timeframe, exchange).Failure? then [batches[0]] else []) +
      FailedOf(batches[1..], timeframe, exchange)
  }

  function FetchedOf(batches: seq<Span>, timeframe: string, exchange: Exchange): seq<Span> {
    if batches == [] then []
    else
      (if FetchBatch(batches[0], timeframe, exchange).Rows? then [batches[0]] else []) +
      FetchedOf(batches[1..], timeframe, exchange)
  }

  function CandlesOf(batches: seq<Span>, timeframe: string, cutoff: Option<int>, exchange: Exchange): seq<Raw> {
    if batches == [] then []
    else
      (match FetchBatch(batches[0], timeframe, exchange)
       case Rows(rows) => KeptRows(rows, timeframe, cutoff)
       case Failure(_) => []) +
      CandlesOf(batches[1..], timeframe, cutoff, exchange)
  }

  /** The candles of one reply that pass, in the order of the reply. */
  method ParseRows(rows: seq<Raw>, timeframe: string, cutoff: Option<int>) returns (kept: seq<Raw>)
    ensures kept == KeptRows(rows, timeframe, cutoff)
  {
    kept := [];
    for i := 0 to |rows|
      invariant kept == KeptRows(rows[..i], timeframe, cutoff)
    {
      assert rows[..i + 1][..i] == rows[..i];
      if Keep(rows[i], timeframe, cutoff) {
        kept := kept + [rows[i]];
      }
    }
    assert rows[..|rows|] == rows;
  }

  method FetchCandles(lo: int, hi: int, timeframe: string, cutoff: Option<int>, exchange: Exchange)
    returns (candles: seq<Raw>, failed: seq<Span>)
    ensures failed == FailedOf(Batches(lo, ClampTo(hi, cutoff)), timeframe, exchange)
    ensures candles == CandlesOf(Batches(lo, ClampTo(hi, cutoff)), timeframe, cutoff, exchange)
  {
    var end := hi;
    if cutoff.Some? && hi > cutoff.value {
      end := cutoff.value;
    }
    hide FailedOf, CandlesOf, KeptRows, Batches, FetchBatch;
    candles, failed := [], [];
    var current := lo;
    while current < end
      invariant failed + FailedOf(Batches(current, end), timeframe, exchange)
             == FailedOf(Batches(lo, end), timeframe, exchange)
      invariant candles + CandlesOf(Batches(current, end), timeframe, cutoff, exchange)
             == CandlesOf(Batches(lo, end), timeframe, cutoff, exchange)
    {
      var batchEnd := Min(current + BATCH, end);
      BatchStep(current, end, timeframe, cutoff, exchange);
      ghost var c, f := CandlesOf(Batches(batchEnd, end), timeframe, cutoff, exchange),
                        FailedOf(Batches(batchEnd, end), timeframe, exchange);
      match FetchBatch(Span(current, batchEnd), timeframe, exchange) {
        case Rows(rows) =>
          var parsed := ParseRows(rows, timeframe, cutoff);
          Associate(candles, parsed, c);
          candles := candles + parsed;
        case Failure(_) =>
          Associate(failed, [Span(current, batchEnd)], f);
          failed := failed + [Span(current, batchEnd)];
      }
      current := batchEnd;
    }
    NoBatches(current, end, timeframe, cutoff, exchange);
  }

  lemma Associate<T>(a: seq<T>, b: seq<T>, c: seq<T>)
    ensures a + (b + c) == a + b + c
  {
  }

  lemma BatchStep(current: int, end: int, timeframe: string, cutoff: Option<int>, exchange: Exchange)
    requires current < end
    ensures var batch := Span(current, Min(current + BATCH, end));
            var rest := Batches(batch.hi, end);
            var all := Batches(current, end);
            match FetchBatch(batch, timeframe, exchange)
            case Rows(rows) =>
              && FailedOf(all, timeframe, exchange) == FailedOf(rest, timeframe, exchange)
              && CandlesOf(all, timeframe, cutoff, exchange)
              == KeptRows(rows, timeframe, cutoff) + CandlesOf(rest, timeframe, cutoff, exchange)
            case Failure(_) =>
              && FailedOf(all, timeframe, exchange) == [batch] + FailedOf(rest, timeframe, exchange)
              && CandlesOf(all, timeframe, cutoff, exchange) == CandlesOf(rest, timeframe, cutoff, exchange)
  {
    hide FetchBatch;
    assert Batches(current, end)[1..] == Batches(Min(current + BATCH, end), end);
  }

  lemma NoBatches(current: int, end: int, timeframe: string, cutoff: Option<int>, exchange: Exchange)
    requires current >= end
    ensures FailedOf(Batches(current, end), timeframe, exchange) == []
    ensures CandlesOf(Batches(current, end), timeframe, cutoff, exchange) == []
  {
  }

  /** The batches follow each other without gap or overlap from one end to the other. */
  lemma {:induction false} BatchesTile(lo: int, hi: int)
    ensures Tiles(Batches(lo, hi), lo, hi) && NoLonger(Batches(lo, hi), BATCH)
    decreases hi - lo
  {
    if lo < hi {
      var end := Min(lo + BATCH, hi);
      BatchesTile(end, hi);
      TilesFrom(Span(lo, end), Batches(end, hi), hi);
    }
  }

  /** Every instant of the range is in exactly one of the fetched and the failed batches. */
  lemma {:induction false} FetchedOrFailed(bs: seq<Span>, lo: int, hi: int, timeframe: string, exchange: Exchange, x: int)
    requires Tiles(bs, lo, hi)
    ensures Covers(FetchedOf(bs, timeframe, exchange), x) ==> !Covers(FailedOf(bs, timeframe, exchange), x)
    ensures Covers(FetchedOf(bs, timeframe, exchange), x) || Covers(FailedOf(bs, timeframe, exchange), x)
       <==> lo <= x < hi
    decreases |bs|
  {
    if bs != [] {
      FetchedOrFailed(bs[1..], bs[0].hi, hi, timeframe, exchange, x);
      var ok := FetchBatch(bs[0], timeframe, exchange).Rows?;
      CoversJoin(if ok then [bs[0]] else [], FetchedOf(bs[1..], timeframe, exchange), x);
      CoversJoin(if ok then [] else [bs[0]], FailedOf(bs[1..], timeframe, exchange), x);
      CoversOne(bs[0], x);
      TileStart(bs[1..], bs[0].hi, hi);
    }
  }

  lemma CoversOne(s: Span, x: int)
    ensures Covers([s], x) <==> Inside(s, x)
  {
    assert s in [s];
  }

  lemma TileStart(bs: seq<Span>, lo: int, hi: int)
    requires Tiles(bs, lo, hi)
    ensures bs != [] ==> lo < hi
  {
  }

  /** Nothing that closes after the cutoff is ever stored. */
  lemma {:induction false} NothingAfterCutoff(bs: seq<Span>, timeframe: string, cutoff: Option<int>, exchange: Exchange)
    ensures forall c :: c in CandlesOf(bs, timeframe, cutoff, exchange) ==>
              c.valid && (cutoff.Some? ==> c.openTime + TimeframeMinutes(timeframe) * MINUTE <= cutoff.value)
    decreases |bs|
  {
    if bs != [] {
      NothingAfterCutoff(bs[1..], timeframe, cutoff, exchange);
      match FetchBatch(bs[0], timeframe, exchange)
      case Rows(rows) => KeptRowsKept(rows, timeframe, cutoff);
      case Failure(_) =>
    }
  }

  /**
   * The length of a candle that is asked for by number is that number of
   * minutes exactly for the exchange's own intervals and for five: any other
   * number is taken for five minutes. The named ones are a day, a week and
   * thirty days.
   */
  lemma CandleLength(timeframe: string)
    ensures var n := TimeframeNumber(timeframe);
            n.Some? ==>
              (TimeframeMinutes(timeframe) == n.value <==>
                 timeframe in ["1", "3", "15", "30", "60", "120", "240", "360", "720"] || n.value == 5)
    ensures timeframe in ["1", "3", "5", "15", "30", "60", "120", "240", "360", "720"] ==> TimeframeNumber(timeframe).Some?
    ensures TimeframeMinutes("D") == 24 * 60 && TimeframeMinutes("W") == 7 * 24 * 60 && TimeframeMinutes("M") == 30 * 24 * 60
  {
    IntervalNumbers();
    assert !IsDigit("D"[0]) && !IsDigit("W"[0]) && !IsDigit("M"[0]);
    hide DecimalValue;
  }

  lemma IntervalNumbers()
    ensures TimeframeNumber("1") == Some(1) && TimeframeNumber("3") == Some(3) && TimeframeNumber("5") == Some(5)
    ensures TimeframeNumber("15") == Some(15) && TimeframeNumber("30") == Some(30) && TimeframeNumber("60") == Some(60)
    ensures TimeframeNumber("120") == Some(120) && TimeframeNumber("240") == Some(240)
    ensures TimeframeNumber("360") == Some(360) && TimeframeNumber("720") == Some(720)
  {
    hide TimeframeNumber;
    Minutes();
    HalfHours();
    Hours();
    HalfDays();
  }

  lemma Minutes()
    ensures TimeframeNumber("1") == Some(1)
    ensures TimeframeNumber("3") == Some(3)
    ensures TimeframeNumber("5") == Some(5)
    ensures TimeframeNumber("15") == Some(15)
  {
    NoDigits();
    LastDigit("1", "", '1');
    LastDigit("3", "", '3');
    LastDigit("5", "", '5');
    LastDigit("15", "1", '5');
    hide AllDigits, DecimalValue;
  }

  lemma HalfHours()
    ensures TimeframeNumber("30") == Some(30)
    ensures TimeframeNumber("60") == Some(60)
  {
    NoDigits();
    LastDigit("3", "", '3');
    LastDigit("30", "3", '0');
    LastDigit("6", "", '6');
    LastDigit("60", "6", '0');
    hide AllDigits, DecimalValue;
  }

  lemma Hours()
    ensures TimeframeNumber("120") == Some(120)
    ensures TimeframeNumber("240") == Some(240)
  {
    NoDigits();
    LastDigit("1", "", '1');
    LastDigit("12", "1", '2');
    LastDigit("120", "12", '0');
    LastDigit("2", "", '2');
    LastDigit("24", "2", '4');
    LastDigit("240", "24", '0');
    hide AllDigits, DecimalValue;
  }

  lemma HalfDays()
    ensures TimeframeNumber("360") == Some(360)
    ensures TimeframeNumber("720") == Some(720)
  {
    NoDigits();
    LastDigit("3", "", '3');
    LastDigit("36", "3", '6');
    LastDigit("360", "36", '0');
    LastDigit("7", "", '7');
    LastDigit("72", "7", '2');
    LastDigit("720", "72", '0');
    hide AllDigits, DecimalValue;
  }

  lemma NoDigits()
    ensures AllDigits("") && DecimalValue("") == 0
  {
  }

  lemma LastDigit(s: string, front: string, c: char)
    requires s == front + [c] && AllDigits(front) && IsDigit(c)
    ensures AllDigits(s) && DecimalValue(s) == DecimalValue(front) * 10 + DigitValue(c)
  {
    assert s[..|s| - 1] == front;
  }

  /** The kept rows are the rows that pass, in their order. */
  lemma {:induction false} KeptRowsKept(rows: seq<Raw>, timeframe: string, cutoff: Option<int>)
    ensures forall c :: c in KeptRows(rows, timeframe, cutoff) <==> c in rows && Keep(c, timeframe, cutoff)
  {
    if rows != [] {
      KeptRowsKept(rows[..|rows| - 1], timeframe, cutoff);
      assert rows == rows[..|rows| - 1] + [rows[|rows| - 1]];
    }
  }

  /** Daily, weekly and monthly candles are never fetched: every batch is a failed one. */
  lemma {:induction false} NamedTimeframesFail(bs: seq<Span>, timeframe: string, cutoff: Option<int>, exchange: Exchange)
    requires timeframe in ["D", "W", "M"]
    ensures FailedOf(bs, timeframe, exchange) == bs
    ensures CandlesOf(bs, timeframe, cutoff, exchange) == []
    decreases |bs|
  {
    assert !IsDigit(timeframe[0]);
    if bs != [] {
      NamedTimeframesFail(bs[1..], timeframe, cutoff, exchange);
      assert [bs[0]] + bs[1..] == bs;
    }
  }

  // -------------------------------------------------------------- reconciling

  datatype Counts = Counts(inserted: nat, updated: nat, rejected: nat)

  function Plus(a: Counts, b: Counts): Counts {
    Counts(a.inserted + b.inserted, a.updated + b.updated, a.rejected + b.rejected)
  }

  datatype Report = Report(gaps: seq<Span>, counts: Counts, failed: seq<Span>)

  /** The gaps the database knows in a range; None when the query raises. */
  type Coverage = Span -> Option<seq<Span>>

  /** What storing the candles of a gap did. */
  type Store = (Span, seq<Raw>) -> Counts

  function RawGaps(ranges: seq<Span>, coverage: Coverage): Option<seq<Span>> {
    if ranges == [] then Some([])
    else
      match (RawGaps(ranges[..|ranges| - 1], coverage), coverage(ranges[|ranges| - 1]))
      case (Some(before), Some(found)) => Some(before + found)
      case _ => None
  }

  function GapBatches(gap: Span, cutoff: Option<int>): seq<Span> { Batches(gap.lo, ClampTo(gap.hi, cutoff)) }

  function AllBatches(gaps: seq<Span>, cutoff: Option<int>): seq<Span> {
    if gaps == [] then [] else AllBatches(gaps[..|gaps| - 1], cutoff) + GapBatches(gaps[|gaps| - 1], cutoff)
  }

  /** Candles of one gap are stored in one go, and not at all when there are none. */
  function GapCounts(gap: Span, timeframe: string, cutoff: Option<int>, exchange: Exchange, store: Store): Counts {
    var candles := CandlesOf(GapBatches(gap, cutoff), timeframe, cutoff, exchange);
    if candles == [] then Counts(0, 0, 0) else store(gap, candles)
  }

  function AllCounts(gaps: seq<Span>, timeframe: string, cutoff: Option<int>, exchange: Exchange, store: Store): Counts {
    if gaps == [] then Counts(0, 0, 0)
    else Plus(AllCounts(gaps[..|gaps| - 1], timeframe, cutoff, exchange, store),
              GapCounts(gaps[|gaps| - 1], timeframe, cutoff, exchange, store))
  }

  function Reconciled(required: seq<Span>, timeframe: string, cutoff: Option<int>,
                      coverage: Coverage, exchange: Exchange, store: Store): Option<Report>
  {
    match RawGaps(Merged(required), coverage)
    case None => None
    case Some(raw) =>
      var gaps := Merged(raw);
      Some(Report(gaps, AllCounts(gaps, timeframe, cutoff, exchange, store),
                  FailedOf(AllBatches(gaps, cutoff), timeframe, exchange)))
  }

  method Reconcile(required: seq<Span>, timeframe: string, cutoff: Option<int>,
                   coverage: Coverage, exchange: Exchange, store: Store)
    returns (r: Option<Report>)
    ensures r == Reconciled(required, timeframe, cutoff, coverage, exchange, store)
  {
    hide FailedOf, CandlesOf, Merged, AllBatches, AllCounts, RawGaps, Batches;
    var ranges := MergeSpans(required);
    NoGaps(coverage, timeframe, cutoff, exchange, store);
    var raw: seq<Span> := [];
    for i := 0 to |ranges|
      invariant RawGaps(ranges[..i], coverage) == Some(raw)
    {
      RawGapsStep(ranges, i, coverage);
      match coverage(ranges[i]) {
        case None =>
          RawGapsFail(ranges, i + 1, coverage);
          return None;
        case Some(found) =>
          raw := raw + found;
      }
    }
    assert ranges[..|ranges|] == ranges;
    var gaps := MergeSpans(raw);
    var counts, failed := Counts(0, 0, 0), [];
    for i := 0 to |gaps|
      invariant counts == AllCounts(gaps[..i], timeframe, cutoff, exchange, store)
      invariant failed == FailedOf(AllBatches(gaps[..i], cutoff), timeframe, exchange)
    {
      var gap := gaps[i];
      var candles, lost := FetchCandles(gap.lo, gap.hi, timeframe, cutoff, exchange);
      var stored := Counts(0, 0, 0);
      if candles != [] {
        stored := store(gap, candles);
      }
      counts := Plus(counts, stored);
      failed := failed + lost;
      GapStep(gaps, i, timeframe, cutoff, exchange, store);
    }
    assert gaps[..|gaps|] == gaps;
    r := Some(Report(gaps, counts, failed));
  }

  lemma NoGaps(coverage: Coverage, timeframe: string, cutoff: Option<int>, exchange: Exchange, store: Store)
    ensures RawGaps([], coverage) == Some([])
    ensures AllCounts([], timeframe, cutoff, exchange, store) == Counts(0, 0, 0)
    ensures FailedOf(AllBatches([], cutoff), timeframe, exchange) == []
  {
  }

  lemma RawGapsStep(ranges: seq<Span>, i: nat, coverage: Coverage)
    requires i < |ranges|
    ensures RawGaps(ranges[..i + 1], coverage) ==
            match (RawGaps(ranges[..i], coverage), coverage(ranges[i]))
            case (Some(before), Some(found)) => Some(before + found)
            case _ => None
  {
    assert ranges[..i + 1][..i] == ranges[..i];
  }

  lemma {:induction false} RawGapsFail(ranges: seq<Span>, i: nat, coverage: Coverage)
    requires i <= |ranges| && RawGaps(ranges[..i], coverage) == None
    ensures RawGaps(ranges, coverage) == None
    decreases |ranges| - i
  {
    if i < |ranges| {
      RawGapsStep(ranges, i, coverage);
      RawGapsFail(ranges, i + 1, coverage);
    } else {
      assert ranges[..i] == ranges;
    }
  }

  lemma GapStep(gaps: seq<Span>, i: nat, timeframe: string, cutoff: Option<int>, exchange: Exchange, store: Store)
    requires i < |gaps|
    ensures AllCounts(gaps[..i + 1], timeframe, cutoff, exchange, store) ==
            Plus(AllCounts(gaps[..i], timeframe, cutoff, exchange, store),
                 GapCounts(gaps[i], timeframe, cutoff, exchange, store))
    ensures FailedOf(AllBatches(gaps[..i + 1], cutoff), timeframe, exchange) ==
            FailedOf(AllBatches(gaps[..i], cutoff), timeframe, exchange) +
            FailedOf(GapBatches(gaps[i], cutoff), timeframe, exchange)
  {
    hide FailedOf, GapCounts, GapBatches;
    assert gaps[..i + 1][..i] == gaps[..i];
    FailedJoin(AllBatches(gaps[..i], cutoff), GapBatches(gaps[i], cutoff), timeframe, exchange);
  }

  /** The report's totals add up what storing each gap's candles did, field by field, and nothing for a gap without any. */
  lemma TotalsAddUp(gaps: seq<Span>, gap: Span, timeframe: string, cutoff: Option<int>, exchange: Exchange, store: Store)
    ensures var before := AllCounts(gaps, timeframe, cutoff, exchange, store);
            var all := AllCounts(gaps + [gap], timeframe, cutoff, exchange, store);
            var candles := CandlesOf(GapBatches(gap, cutoff), timeframe, cutoff, exchange);
            if candles == [] then all == before
            else
              var stored := store(gap, candles);
              && all.inserted == before.inserted + stored.inserted && all.updated == before.updated + stored.updated
              && all.rejected == before.rejected + stored.rejected
    ensures AllCounts([], timeframe, cutoff, exchange, store) == Counts(0, 0, 0)
  {
    hide CandlesOf, GapBatches;
    assert (gaps + [gap])[..|gaps|] == gaps;
  }

  lemma {:induction false} FailedJoin(a: seq<Span>, b: seq<Span>, timeframe: string, exchange: Exchange)
    ensures FailedOf(a + b, timeframe, exchange) == FailedOf(a, timeframe, exchange) + FailedOf(b, timeframe, exchange)
    decreases |a|
  {
    if a == [] {
      assert a + b == b;
    } else {
      hide FailedOf;
      FailedJoin(a[1..], b, timeframe, exchange);
      FailedJoinFirst(a[0], a[1..], b, timeframe, exchange);
      assert [a[0]] + a[1..] == a;
    }
  }

  lemma FailedJoinFirst(s: Span, a: seq<Span>, b: seq<Span>, timeframe: string, exchange: Exchange)
    requires FailedOf(a + b, timeframe, exchange) == FailedOf(a, timeframe, exchange) + FailedOf(b, timeframe, exchange)
    ensures FailedOf([s] + a + b, timeframe, exchange) ==
            FailedOf([s] + a, timeframe, exchange) + FailedOf(b, timeframe, exchange)
  {
    hide FailedOf, FetchBatch;
    FailedFirst(s, a, timeframe, exchange);
    FailedFirst(s, a + b, timeframe, exchange);
    Associate([s], a, b);
    Associate([s], FailedOf(a, timeframe, exchange), FailedOf(b, timeframe, exchange));
  }

  lemma FailedFirst(s: Span, rest: seq<Span>, timeframe: string, exchange: Exchange)
    ensures FailedOf([s] + rest, timeframe, exchange) ==
            if FetchBatch(s, timeframe, exchange).Failure? then [s] + FailedOf(rest, timeframe, exchange)
            else FailedOf(rest, timeframe, exchange)
  {
    hide FetchBatch;
    assert ([s] + rest)[1..] == rest;
  }

  predicate BeforeCutoff(x: int, cutoff: Option<int>) { cutoff.Some? ==> x < cutoff.value }

  lemma {:induction false} TilesCover(bs: seq<Span>, lo: int, hi: int, x: int)
    requires Tiles(bs, lo, hi)
    ensures Covers(bs, x) <==> lo <= x < hi
    decreases |bs|
  {
    if bs != [] {
      TilesCover(bs[1..], bs[0].hi, hi, x);
      TileStart(bs[1..], bs[0].hi, hi);
      assert bs == [bs[0]] + bs[1..];
      CoversJoin([bs[0]], bs[1..], x);
      CoversOne(bs[0], x);
    }
  }

  /** The batches ask for exactly the missing instants before the cutoff. */
  lemma {:induction false} BatchesCoverGaps(gaps: seq<Span>, cutoff: Option<int>, x: int)
    ensures Covers(AllBatches(gaps, cutoff), x) <==> Covers(gaps, x) && BeforeCutoff(x, cutoff)
    decreases |gaps|
  {
    if gaps != [] {
      var front, gap := gaps[..|gaps| - 1], gaps[|gaps| - 1];
      BatchesCoverGaps(front, cutoff, x);
      BatchesTile(gap.lo, ClampTo(gap.hi, cutoff));
      TilesCover(GapBatches(gap, cutoff), gap.lo, ClampTo(gap.hi, cutoff), x);
      CoversJoin(AllBatches(front, cutoff), GapBatches(gap, cutoff), x);
      assert gaps == front + [gap];
      CoversJoin(front, [gap], x);
      CoversOne(gap, x);
    }
  }

  /** In order of time, without overlap. */
  predicate Ascending(bs: seq<Span>) { forall i, j :: 0 <= i < j < |bs| ==> bs[i].hi <= bs[j].lo }

  predicate Within(bs: seq<Span>, lo: int, hi: int) { forall b :: b in bs ==> lo <= b.lo < b.hi <= hi }

  lemma {:induction false} TilesAscend(bs: seq<Span>, lo: int, hi: int)
    requires Tiles(bs, lo, hi)
    ensures Ascending(bs) && Within(bs, lo, hi)
    decreases |bs|
  {
    if bs != [] {
      TilesAscend(bs[1..], bs[0].hi, hi);
      forall j | 0 < j < |bs| ensures bs[0].hi <= bs[j].lo {
        assert bs[j] == bs[1..][j - 1] && bs[j] in bs[1..];
      }
    }
  }

  lemma AscendJoin(a: seq<Span>, b: seq<Span>, lo: int, m: int, n: int, hi: int)
    requires Ascending(a) && Within(a, lo, m) && Ascending(b) && Within(b, n, hi)
    requires lo <= m <= n <= hi
    ensures Ascending(a + b) && Within(a + b, lo, hi)
  {
    forall i, j | 0 <= i < |a| && 0 <= j < |b| ensures a[i].hi <= b[j].lo {
      assert a[i] in a && b[j] in b;
    }
  }

  lemma {:induction false} BatchesAscend(gaps: seq<Span>, cutoff: Option<int>)
    requires Canonical(gaps)
    ensures Ascending(AllBatches(gaps, cutoff))
    ensures gaps != [] ==> Within(AllBatches(gaps, cutoff), gaps[0].lo, gaps[|gaps| - 1].hi)
    decreases |gaps|
  {
    if gaps != [] {
      var front, gap := gaps[..|gaps| - 1], gaps[|gaps| - 1];
      var a, b := AllBatches(front, cutoff), GapBatches(gap, cutoff);
      CanonicalFront(gaps);
      hide Ascending, Within, GapBatches, Canonical;
      BatchesAscend(front, cutoff);
      GapAscends(gap, cutoff);
      if front == [] {
        assert a + b == b;
      } else {
        AscendJoin(a, b, front[0].lo, front[|front| - 1].hi, gap.lo, gap.hi);
      }
    }
  }

  lemma CanonicalFront(gaps: seq<Span>)
    requires Canonical(gaps) && gaps != []
    ensures Canonical(gaps[..|gaps| - 1])
    ensures gaps[|gaps| - 1].lo < gaps[|gaps| - 1].hi
    ensures |gaps| > 1 ==> gaps[0].lo < gaps[|gaps| - 2].hi < gaps[|gaps| - 1].lo
  {
    assert |gaps| > 2 ==> gaps[0].hi < gaps[|gaps| - 2].lo;
  }

  lemma GapAscends(gap: Span, cutoff: Option<int>)
    ensures Ascending(GapBatches(gap, cutoff)) && Within(GapBatches(gap, cutoff), gap.lo, gap.hi)
  {
    BatchesTile(gap.lo, ClampTo(gap.hi, cutoff));
    TilesAscend(GapBatches(gap, cutoff), gap.lo, ClampTo(gap.hi, cutoff));
  }

  lemma {:induction false} SplitByOutcome(bs: seq<Span>, timeframe: string, exchange: Exchange, x: int)
    ensures Covers(FetchedOf(bs, timeframe, exchange), x) || Covers(FailedOf(bs, timeframe, exchange), x) <==> Covers(bs, x)
    decreases |bs|
  {
    if bs != [] {
      SplitByOutcome(bs[1..], timeframe, exchange, x);
      var ok := FetchBatch(bs[0], timeframe, exchange).Rows?;
      CoversJoin(if ok then [bs[0]] else [], FetchedOf(bs[1..], timeframe, exchange), x);
      CoversJoin(if ok then [] else [bs[0]], FailedOf(bs[1..], timeframe, exchange), x);
      assert bs == [bs[0]] + bs[1..];
      CoversJoin([bs[0]], bs[1..], x);
    }
  }

  /**
   * Nothing is lost in silence: an instant the database reports missing,
   * before the cutoff, is either in a batch that was fetched or in one that is
   * reported failed; and when no reported gap is empty, no instant is asked for twice.
   */
  lemma ReconcileAccounts(required: seq<Span>, timeframe: string, cutoff: Option<int>,
                          coverage: Coverage, exchange: Exchange, store: Store, raw: seq<Span>, x: int)
    requires RawGaps(Merged(required), coverage) == Some(raw)
    ensures var r := Reconciled(required, timeframe, cutoff, coverage, exchange, store);
            var bs := AllBatches(Merged(raw), cutoff);
            && r.Some?
            && (Covers(FetchedOf(bs, timeframe, exchange), x) || Covers(r.value.failed, x)
                <==> Covers(raw, x) && BeforeCutoff(x, cutoff))
            && (Proper(raw) ==> Ascending(bs))
  {
    MergedKeepsPoints(raw);
    BatchesCoverGaps(Merged(raw), cutoff, x);
    SplitByOutcome(AllBatches(Merged(raw), cutoff), timeframe, exchange, x);
    if Proper(raw) {
      MergedIsCanonical(raw);
      BatchesAscend(Merged(raw), cutoff);
    }
  }

  // ---------------------------------------------------------------- alignment

  const DAY := 1440 * MINUTE

  function StartOfDay(t: int): int { t - t % DAY }

  /** The instant rounded down to the boundary of its candle, by the clock of its day. */
  function AlignToGrid(t: int, timeframe: string): int {
    var minutes := TimeframeMinutes(timeframe);
    if minutes >= 1440 then StartOfDay(t)
    else
      var total := (t % DAY) / MINUTE;
      var aligned := (total / minutes) * minutes;
      StartOfDay(t) + (aligned / 60) * (60 * MINUTE) + (aligned % 60) * MINUTE
  }

  /** Candles longer than a day are aligned to midnight like daily ones. */
  function GridStep(timeframe: string): (step: nat)
    ensures step > 0
  {
    Min(TimeframeMinutes(timeframe), 1440) * MINUTE
  }

  lemma StepDividesDay(timeframe: string)
    ensures exists k :: k > 0 && DAY == k * GridStep(timeframe)
  {
    var minutes := Min(TimeframeMinutes(timeframe), 1440);
    var k := 1440 / minutes;
    assert 1440 == k * minutes;
    assert DAY == k * GridStep(timeframe);
  }

  /** Rounding to minutes and then to steps of minutes leaves less than a step. */
  lemma MinuteRemainder(u: int, minutes: nat)
    requires u >= 0 && minutes > 0
    ensures 0 <= u - (u / MINUTE / minutes) * minutes * MINUTE < minutes * MINUTE
  {
    var total := u / MINUTE;
    var q := total / minutes;
    assert u == total * MINUTE + u % MINUTE;
    assert total == q * minutes + total % minutes;
  }

  lemma Product(days: int, k: int, q: int, minutes: int)
    ensures days * (k * (minutes * MINUTE)) + q * minutes * MINUTE == (days * k + q) * (minutes * MINUTE)
  {
    assert days * (k * (minutes * MINUTE)) == (days * k) * (minutes * MINUTE);
  }

  lemma DayRemainder(t: int, minutes: nat, k: nat)
    requires minutes > 0 && k > 0 && DAY == k * (minutes * MINUTE)
    ensures StartOfDay(t) + ((t % DAY) / MINUTE / minutes) * minutes * MINUTE == t - t % (minutes * MINUTE)
  {
    var u, days := t % DAY, t / DAY;
    var q := u / MINUTE / minutes;
    MinuteRemainder(u, minutes);
    Product(days, k, q, minutes);
    assert t == days * DAY + u;
    QuotientOf(t, minutes * MINUTE, days * k + q, u - q * minutes * MINUTE);
  }

  /** Working by hours and minutes of the day gives the remainder of the whole time. */
  lemma AlignIsRemainder(t: int, timeframe: string)
    ensures AlignToGrid(t, timeframe) == t - t % GridStep(timeframe)
  {
    StepDividesDay(timeframe);
    var minutes := TimeframeMinutes(timeframe);
    hide TimeframeMinutes;
    if minutes < 1440 {
      var k :| k > 0 && DAY == k * GridStep(timeframe);
      DayRemainder(t, minutes, k);
    }
  }

  /** Aligning gives the last grid instant that is not after the time, so aligning again changes nothing. */
  lemma AlignIsGreatest(t: int, timeframe: string, x: int)
    ensures var a := AlignToGrid(t, timeframe);
            var step := GridStep(timeframe);
            && a % step == 0
            && t - step < a <= t
            && AlignToGrid(a, timeframe) == a
            && (x % step == 0 && x <= t ==> x <= a)
  {
    hide AlignToGrid, GridStep;
    AlignIsRemainder(t, timeframe);
    AlignIsRemainder(AlignToGrid(t, timeframe), timeframe);
    RoundDown(t, x, GridStep(timeframe));
  }
}
