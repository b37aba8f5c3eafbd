/**
 * Reading a range of candles page by page: over a source that answers each
 * window with its newest candles, the pages give what one read would give.
 */
module PagedRange {
  import opened Basics
  import opened Grid
  import opened NewestRows
  import opened SortedSets
  import opened Spans

  // ---------------------------------------------------------------------- rows

  datatype Cell = Finite(value: real) | NotFinite | NotANumber

  /** A raw row: the open time, when it is an integer, and the cells behind it. */
  datatype Row = Row(openTime: Option<int>, cells: seq<Cell>)

  datatype Candle = Candle(ts: int, values: seq<real>)

  /** A row is taken when it is on the grid and has five finite numbers; a bad row is rejected, never repaired. */
  function ParseRow(row: Row, step: nat): Option<Candle>
    requires step > 0
  {
    if |row.cells| < 5 then None
    else if row.openTime == None || exists i :: 0 <= i < 5 && row.cells[i] == NotANumber then None
    else if row.openTime.value < 0 || row.openTime.value % step != 0 then None
    else if exists i :: 0 <= i < 5 && row.cells[i] == NotFinite then None
    else
      assert forall i :: 0 <= i < 5 ==> row.cells[i].Finite?;
      Some(Candle(row.openTime.value, seq(5, i requires 0 <= i < 5 => row.cells[i].value)))
  }

  /**
   * A candle is taken from a row exactly when the row names its open time, an
   * instant of the grid that is not negative, and its first five cells are
   * the candle's values in their order, all finite; further cells are ignored.
   */
  lemma RowGivesCandle(row: Row, step: nat, c: Candle)
    requires step > 0
    ensures ParseRow(row, step) == Some(c) <==>
            && row.openTime == Some(c.ts) && c.ts >= 0 && c.ts % step == 0
            && |row.cells| >= 5 && |c.values| == 5
            && forall i :: 0 <= i < 5 ==> row.cells[i] == Finite(c.values[i])
  {
    if |row.cells| >= 5 && |c.values| == 5 && forall i :: 0 <= i < 5 ==> row.cells[i] == Finite(c.values[i]) {
      assert seq(5, i requires 0 <= i < 5 => row.cells[i].value) == c.values;
    }
  }

  /** The answer to one request. */
  datatype Payload = Rows(rows: seq<Row>) | Malformed | Raised(error: string)

  /** The source: window start, window end, row limit. */
  type Source = (int, int, int) -> Payload

  datatype Outcome<T> = Ok(value: T) | BadInterval | TooManyPages | MalformedPayload | Failed(error: string)

  // --------------------------------------------------------------------- pages

  function PageEnd(start: int, end: int, size: nat, step: nat): int {
    Min(end, start + size * step - 1)
  }

  function Limit(start: int, pageEnd: int, size: nat, step: nat): int
    requires step > 0
  {
    Min(size, (pageEnd - start) / step + 1)
  }

  function Ask(source: Source, start: int, end: int, size: nat, step: nat): Payload
    requires step > 0
  {
    var pageEnd := PageEnd(start, end, size, step);
    source(start, pageEnd, Limit(start, pageEnd, size, step))
  }

  /** The candles of one page: a later row replaces an earlier one of the same open time. */
  function PageCandles(rows: seq<Row>, lo: int, hi: int, step: nat): map<int, Candle>
    requires step > 0
  {
    if rows == [] then map[]
    else
      var before := PageCandles(rows[..|rows| - 1], lo, hi, step);
      match ParseRow(rows[|rows| - 1], step)
      case None => before
      case Some(c) => if lo <= c.ts <= hi then before[c.ts := c] else before
  }

  lemma PageAdvances(start: int, end: int, size: nat, step: nat)
    requires start <= end && size > 0 && step > 0
    ensures start <= PageEnd(start, end, size, step) <= end
  {
    assert size * step >= 1 by { AtLeastOneStep(size, step); }
  }

  /** What the pages from an instant on give, with a number of requests left. */
  function Gather(source: Source, start: int, end: int, size: nat, step: nat, left: int): Outcome<map<int, Candle>>
    requires size > 0 && step > 0
    decreases end - start + 1
  {
    if start > end then Ok(map[])
    else if left <= 0 then TooManyPages
    else
      PageAdvances(start, end, size, step);
      var pageEnd := PageEnd(start, end, size, step);
      match Ask(source, start, end, size, step)
      case Raised(e) => Failed(e)
      case Malformed => MalformedPayload
      case Rows(rows) => Join(PageCandles(rows, start, pageEnd, step), Gather(source, pageEnd + 1, end, size, step, left - 1))
  }

  function Join(first: map<int, Candle>, rest: Outcome<map<int, Candle>>): Outcome<map<int, Candle>> {
    match rest
    case Ok(m) => Ok(first + m)
    case _ => rest
  }

  /** The values of a dictionary by ascending key. */
  function Listed(m: map<int, Candle>): seq<Candle> {
    SortedKeysAscend(m.Keys);
    var keys := SortedKeys(m.Keys);
    seq(|keys|, i requires 0 <= i < |keys| => assert keys[i] in keys; m[keys[i]])
  }

  function Range(minutes: Option<int>, start: int, end: int, pageSize: int, maxPages: int, source: Source): Outcome<seq<Candle>> {
    if minutes == None || minutes.value <= 0 || minutes.value > 1440 then BadInterval
    else if end < start then Ok([])
    else
      match Gather(source, start, end, Max(1, Min(pageSize, 1000)), minutes.value * 60000, maxPages)
      case Ok(m) => Ok(Listed(m))
      case BadInterval => BadInterval
      case TooManyPages => TooManyPages
      case MalformedPayload => MalformedPayload
      case Failed(e) => Failed(e)
  }

  method GetKlinesRange(minutes: Option<int>, start: int, end: int, pageSize: int, maxPages: int, source: Source)
    returns (r: Outcome<seq<Candle>>)
    ensures r == Range(minutes, start, end, pageSize, maxPages, source)
  {
    if minutes == None || minutes.value <= 0 || minutes.value > 1440 {
      return BadInterval;
    }
    if end < start {
      return Ok([]);
    }
    var size := Max(1, Min(pageSize, 1000));
    var step := minutes.value * 60000;
    hide Gather, Listed;
    var all := ReadPages(start, end, size, step, maxPages, source);
    match all
    case Ok(m) => r := Ok(Listed(m));
    case BadInterval => r := BadInterval;
    case TooManyPages => r := TooManyPages;
    case MalformedPayload => r := MalformedPayload;
    case Failed(e) => r := Failed(e);
  }

  method ReadPages(start: int, end: int, size: nat, step: nat, maxPages: int, source: Source)
    returns (r: Outcome<map<int, Candle>>)
    requires size > 0 && step > 0
    ensures r == Gather(source, start, end, size, step, maxPages)
  {
    hide Gather, PageCandles, PageEnd, Limit, Ask;
    var found: map<int, Candle> := map[];
    var pages := 0;
    var pageStart := start;
    JoinNothing(Gather(source, start, end, size, step, maxPages));
    while pageStart <= end
      invariant Gather(source, start, end, size, step, maxPages)
             == Join(found, Gather(source, pageStart, end, size, step, maxPages - pages))
      decreases end - pageStart
    {
      GatherStep(source, pageStart, end, size, step, maxPages - pages);
      PageAdvances(pageStart, end, size, step);
      pages := pages + 1;
      if pages > maxPages {
        return TooManyPages;
      }
      var pageEnd := PageEnd(pageStart, end, size, step);
      ghost var rest := Gather(source, pageEnd + 1, end, size, step, maxPages - pages);
      match Ask(source, pageStart, end, size, step) {
        case Raised(e) => return Failed(e);
        case Malformed => return MalformedPayload;
        case Rows(rows) =>
          JoinTwice(found, PageCandles(rows, pageStart, pageEnd, step), rest);
          found := AddPage(found, rows, pageStart, pageEnd, step);
      }
      pageStart := pageEnd + 1;
    }
    GatherEnd(source, pageStart, end, size, step, maxPages - pages);
    assert found + map[] == found;
    r := Ok(found);
  }

  /** The dictionary with the candles of one page added. */
  method AddPage(found: map<int, Candle>, rows: seq<Row>, lo: int, hi: int, step: nat) returns (all: map<int, Candle>)
    requires step > 0
    ensures all == found + PageCandles(rows, lo, hi, step)
  {
    all := found;
    for i := 0 to |rows|
      invariant all == found + PageCandles(rows[..i], lo, hi, step)
    {
      assert rows[..i + 1][..i] == rows[..i];
      var parsed := ParseRow(rows[i], step);
      if parsed == None {
        continue;
      }
      if lo <= parsed.value.ts <= hi {
        all := all[parsed.value.ts := parsed.value];
      }
    }
    assert rows[..|rows|] == rows;
  }

  lemma JoinNothing(rest: Outcome<map<int, Candle>>)
    ensures Join(map[], rest) == rest
  {
    if rest.Ok? {
      assert map[] + rest.value == rest.value;
    }
  }

  lemma JoinTwice(a: map<int, Candle>, b: map<int, Candle>, rest: Outcome<map<int, Candle>>)
    ensures Join(a, Join(b, rest)) == Join(a + b, rest)
  {
    if rest.Ok? {
      assert a + (b + rest.value) == a + b + rest.value;
    }
  }

  lemma GatherStep(source: Source, start: int, end: int, size: nat, step: nat, left: int)
    requires size > 0 && step > 0 && start <= end
    ensures Gather(source, start, end, size, step, left) ==
            if left <= 0 then TooManyPages
            else
              match Ask(source, start, end, size, step)
              case Raised(e) => Failed(e)
              case Malformed => MalformedPayload
              case Rows(rows) =>
                Join(PageCandles(rows, start, PageEnd(start, end, size, step), step),
                     Gather(source, PageEnd(start, end, size, step) + 1, end, size, step, left - 1))
  {
    hide Ask, PageCandles;
    PageAdvances(start, end, size, step);
  }

  lemma GatherEnd(source: Source, start: int, end: int, size: nat, step: nat, left: int)
    requires size > 0 && step > 0 && start > end
    ensures Gather(source, start, end, size, step, left) == Ok(map[])
  {
  }

  // --------------------------------------------------------------- the windows

  /** The windows that are asked for when no request fails; a request names its last instant, one before the span's end. */
  function Windows(start: int, end: int, size: nat, step: nat): seq<Span>
    requires size > 0 && step > 0
    decreases end - start + 1
  {
    if start > end then []
    else
      PageAdvances(start, end, size, step);
      var next := PageEnd(start, end, size, step) + 1;
      [Span(start, next)] + Windows(next, end, size, step)
  }

  /** The limit of every window covers its grid. */
  predicate LimitsCover(ws: seq<Span>, size: nat, step: nat)
    requires step > 0
  {
    forall w :: w in ws ==> |Opens(w.lo, w.hi - 1, step)| <= Limit(w.lo, w.hi - 1, size, step) <= size
  }

  /** The limit of a page is never smaller than the number of grid opens in it. */
  lemma LimitSuffices(start: int, end: int, size: nat, step: nat)
    requires size > 0 && step > 0 && start <= end
    ensures var hi := PageEnd(start, end, size, step);
            |Opens(start, hi, step)| <= Limit(start, hi, size, step) <= size
  {
    var hi := PageEnd(start, end, size, step);
    PageAdvances(start, end, size, step);
    OpensBound(start, hi, step);
    var q := (hi - start) / step;
    assert hi - start == q * step + (hi - start) % step;
    if q >= size {
      Distribute(q, size, step);
      NotNegative(q - size, step);
      assert false;
    }
  }

  lemma NotNegative(a: nat, b: nat)
    ensures a * b >= 0
  {
  }

  lemma {:induction false} WindowsTile(start: int, end: int, size: nat, step: nat)
    requires size > 0 && step > 0
    ensures Tiles(Windows(start, end, size, step), start, end + 1)
    ensures LimitsCover(Windows(start, end, size, step), size, step)
    decreases end - start + 1
  {
    if start <= end {
      hide Opens, Limit, PageEnd, Tiles;
      PageAdvances(start, end, size, step);
      LimitSuffices(start, end, size, step);
      var next := PageEnd(start, end, size, step) + 1;
      WindowsTile(next, end, size, step);
      TilesFrom(Span(start, next), Windows(next, end, size, step), end + 1);
    }
  }

  function Answer(source: Source, w: Span, size: nat, step: nat): Payload
    requires step > 0
  {
    source(w.lo, w.hi - 1, Limit(w.lo, w.hi - 1, size, step))
  }

  /**
   * Fail closed: candles are returned exactly when the pages fit the bound and
   * every one of them was answered; one bad page and nothing is returned.
   */
  lemma {:induction false} FailClosed(source: Source, start: int, end: int, size: nat, step: nat, left: int)
    requires size > 0 && step > 0
    ensures Gather(source, start, end, size, step, left).Ok? <==>
            var ws := Windows(start, end, size, step);
            (ws == [] || |ws| <= left) && forall i :: 0 <= i < |ws| ==> Answer(source, ws[i], size, step).Rows?
    decreases end - start + 1
  {
    if start <= end {
      PageAdvances(start, end, size, step);
      var hi := PageEnd(start, end, size, step);
      var ws, rest := Windows(start, end, size, step), Windows(hi + 1, end, size, step);
      assert ws == [Span(start, hi + 1)] + rest;
      FailClosed(source, hi + 1, end, size, step, left - 1);
      GatherStep(source, start, end, size, step, left);
      AskIsAnswer(source, start, end, size, step);
      hide Gather, Windows, PageEnd, Ask, Answer, PageCandles;
      if forall i :: 0 <= i < |ws| ==> Answer(source, ws[i], size, step).Rows? {
        assert Answer(source, ws[0], size, step).Rows?;
        forall i | 0 <= i < |rest| ensures Answer(source, rest[i], size, step).Rows? {
          assert rest[i] == ws[i + 1];
        }
      }
    }
  }

  lemma AskIsAnswer(source: Source, start: int, end: int, size: nat, step: nat)
    requires step > 0
    ensures Ask(source, start, end, size, step) ==
            Answer(source, Span(start, PageEnd(start, end, size, step) + 1), size, step)
  {
  }

  /** The number of requests a range needs. */
  lemma {:induction false} PageCount(start: int, end: int, size: nat, step: nat)
    requires size > 0 && step > 0 && start <= end
    ensures size * step > 0
    ensures |Windows(start, end, size, step)| == (end - start) / (size * step) + 1
    decreases end - start
  {
    AtLeastOneStep(size, step);
    var page := size * step;
    PageAdvances(start, end, size, step);
    var next := PageEnd(start, end, size, step) + 1;
    if next <= end {
      PageCount(next, end, size, step);
      assert next == start + page;
      QuotientOneLess(end - start, page);
    } else {
      QuotientOf(end - start, page, 0, end - start);
    }
  }

  lemma QuotientOneLess(x: int, page: nat)
    requires page > 0
    ensures (x - page) / page == x / page - 1
  {
    var q := x / page;
    assert x == q * page + x % page;
    Distribute(q, 1, page);
    QuotientOf(x - page, page, q - 1, x % page);
  }

  // ------------------------------------------------------------ what is returned

  predicate Keyed(m: map<int, Candle>, lo: int, hi: int, step: nat)
    requires step > 0
  {
    forall k :: k in m ==> lo <= k <= hi && k % step == 0 && m[k].ts == k
  }

  /** Every candle is a row of the page, inside the page and on the grid. */
  lemma {:induction false} PageIsKeyed(rows: seq<Row>, lo: int, hi: int, step: nat)
    requires step > 0
    ensures Keyed(PageCandles(rows, lo, hi, step), lo, hi, step)
    ensures forall k :: k in PageCandles(rows, lo, hi, step) ==>
              exists row :: row in rows && ParseRow(row, step) == Some(PageCandles(rows, lo, hi, step)[k])
    decreases |rows|
  {
    if rows != [] {
      var front, last := rows[..|rows| - 1], rows[|rows| - 1];
      PageIsKeyed(front, lo, hi, step);
      assert rows == front + [last];
      assert last in rows;
      assert forall row :: row in front ==> row in rows;
    }
  }

  lemma {:induction false} GatherIsKeyed(source: Source, start: int, end: int, size: nat, step: nat, left: int)
    requires size > 0 && step > 0 && Gather(source, start, end, size, step, left).Ok?
    ensures Keyed(Gather(source, start, end, size, step, left).value, start, end, step)
    decreases end - start + 1
  {
    if start <= end {
      PageAdvances(start, end, size, step);
      var hi := PageEnd(start, end, size, step);
      GatherStep(source, start, end, size, step, left);
      GatherIsKeyed(source, hi + 1, end, size, step, left - 1);
      var rows := Ask(source, start, end, size, step).rows;
      PageIsKeyed(rows, start, hi, step);
    }
  }

  lemma ListedAscends(m: map<int, Candle>, lo: int, hi: int, step: nat)
    requires step > 0 && Keyed(m, lo, hi, step)
    ensures forall i, j :: 0 <= i < j < |Listed(m)| ==> Listed(m)[i].ts < Listed(m)[j].ts
    ensures forall c :: c in Listed(m) <==> c.ts in m && m[c.ts] == c
  {
    SortedKeysAscend(m.Keys);
    var keys := SortedKeys(m.Keys);
    forall i | 0 <= i < |keys| ensures Listed(m)[i].ts == keys[i] {
      assert keys[i] in keys;
    }
    forall c | c in Listed(m) ensures c.ts in m && m[c.ts] == c {
      var i :| 0 <= i < |keys| && Listed(m)[i] == c;
      assert keys[i] in keys;
    }
    forall c: Candle | c.ts in m && m[c.ts] == c ensures c in Listed(m) {
      var i :| 0 <= i < |keys| && keys[i] == c.ts;
      assert Listed(m)[i] == c;
    }
  }

  predicate InRange(c: Candle, start: int, end: int, step: nat)
    requires step > 0
  {
    start <= c.ts <= end && c.ts % step == 0
  }

  /** Whatever the source answers: unique candles, ascending, inside the range and on the grid. */
  lemma RangeIsOrderly(minutes: Option<int>, start: int, end: int, pageSize: int, maxPages: int, source: Source)
    requires Range(minutes, start, end, pageSize, maxPages, source).Ok?
    ensures var cs := Range(minutes, start, end, pageSize, maxPages, source).value;
            && minutes.Some? && 0 < minutes.value <= 1440
            && (forall i, j :: 0 <= i < j < |cs| ==> cs[i].ts < cs[j].ts)
            && (forall c :: c in cs ==> InRange(c, start, end, minutes.value * 60000))
  {
    if start <= end {
      var size, step := Max(1, Min(pageSize, 1000)), minutes.value * 60000;
      hide Gather, Listed;
      GatherIsKeyed(source, start, end, size, step, maxPages);
      ListedAscends(Gather(source, start, end, size, step, maxPages).value, start, end, step);
    }
  }

  // --------------------------------------------------- paged equals one-shot

  function OpenOf(row: Row): Option<int> { row.openTime }

  /** The rows a source answers a window with, if it answers with rows. */
  function RowsOf(source: Source): Reader<Row> {
    (lo: int, hi: int, limit: int) =>
      match source(lo, hi, limit)
      case Rows(rows) => Some(rows)
      case _ => None
  }

  /** The valid candles of a range, as one read would give them. */
  function OneShot(u: map<int, Row>, start: int, end: int, step: nat): map<int, Candle>
    requires step > 0
  {
    map k | k in u && start <= k <= end && ParseRow(u[k], step).Some? :: ParseRow(u[k], step).value
  }

  /** A page that holds exactly the rows of its window gives exactly the valid candles of the window. */
  lemma PageOfAll(rows: seq<Row>, u: map<int, Row>, lo: int, hi: int, step: nat)
    requires step > 0 && Universe(u, OpenOf, step)
    requires RowsAre(rows, u, KeysIn(u, lo, hi))
    ensures PageCandles(rows, lo, hi, step) == OneShot(u, lo, hi, step)
  {
    var m, o := PageCandles(rows, lo, hi, step), OneShot(u, lo, hi, step);
    PageIsKeyed(rows, lo, hi, step);
    forall k | k in m ensures k in o && m[k] == o[k] {
      var row :| row in rows && ParseRow(row, step) == Some(m[k]);
      var j :| j in KeysIn(u, lo, hi) && u[j] == row;
      ParsedKey(row, step);
    }
    forall k | k in o ensures k in m {
      assert k in KeysIn(u, lo, hi);
      assert u[k] in rows;
      ParsedKey(u[k], step);
      RowIsTaken(rows, u[k], lo, hi, step);
    }
  }

  lemma ParsedKey(row: Row, step: nat)
    requires step > 0
    ensures ParseRow(row, step).Some? ==> Some(ParseRow(row, step).value.ts) == row.openTime
  {
  }

  lemma {:induction false} RowIsTaken(rows: seq<Row>, row: Row, lo: int, hi: int, step: nat)
    requires step > 0 && row in rows
    requires ParseRow(row, step).Some? && lo <= ParseRow(row, step).value.ts <= hi
    ensures ParseRow(row, step).value.ts in PageCandles(rows, lo, hi, step)
    decreases |rows|
  {
    hide ParseRow;
    if row != rows[|rows| - 1] {
      assert row in rows[..|rows| - 1];
      RowIsTaken(rows[..|rows| - 1], row, lo, hi, step);
    }
  }

  /** Over an honest source the pages together give what one read of the range would give. */
  lemma {:induction false} GatherIsOneShot(source: Source, u: map<int, Row>, start: int, end: int, size: nat, step: nat, left: int)
    requires size > 0 && step > 0 && Universe(u, OpenOf, step) && Honest(RowsOf(source), u)
    requires |Windows(start, end, size, step)| <= left
    ensures Gather(source, start, end, size, step, left) == Ok(OneShot(u, start, end, step))
    decreases end - start + 1
  {
    if start > end {
      assert OneShot(u, start, end, step) == map[];
    } else {
      hide Gather, Windows, OneShot, PageCandles, Ask, Honest, Universe, PageEnd, Opens, Limit;
      PageAdvances(start, end, size, step);
      var hi := PageEnd(start, end, size, step);
      WindowsStep(start, end, size, step);
      GatherStep(source, start, end, size, step, left);
      GatherIsOneShot(source, u, hi + 1, end, size, step, left - 1);
      HonestPage(source, u, start, end, size, step);
      OneShotSplits(u, start, hi, end, step);
    }
  }

  lemma WindowsStep(start: int, end: int, size: nat, step: nat)
    requires size > 0 && step > 0 && start <= end
    ensures |Windows(start, end, size, step)| == 1 + |Windows(PageEnd(start, end, size, step) + 1, end, size, step)|
  {
  }

  lemma HonestPage(source: Source, u: map<int, Row>, start: int, end: int, size: nat, step: nat)
    requires size > 0 && step > 0 && Universe(u, OpenOf, step) && Honest(RowsOf(source), u) && start <= end
    ensures var hi := PageEnd(start, end, size, step);
            && Ask(source, start, end, size, step).Rows?
            && PageCandles(Ask(source, start, end, size, step).rows, start, hi, step) == OneShot(u, start, hi, step)
  {
    hide PageCandles, OneShot, Universe, Opens;
    var hi := PageEnd(start, end, size, step);
    var limit := Limit(start, hi, size, step);
    LimitSuffices(start, end, size, step);
    assert RowsOf(source)(start, hi, limit).Some?;
    NewestIsAll(source(start, hi, limit).rows, u, OpenOf, start, hi, limit, step);
    PageOfAll(source(start, hi, limit).rows, u, start, hi, step);
  }

  lemma OneShotSplits(u: map<int, Row>, start: int, mid: int, end: int, step: nat)
    requires step > 0 && start <= mid <= end
    ensures OneShot(u, start, mid, step) + OneShot(u, mid + 1, end, step) == OneShot(u, start, end, step)
  {
    hide ParseRow;
  }

  /**
   * Paged equals one-shot: with enough pages allowed, the result is exactly
   * the valid candles of the range by ascending open; with too few, nothing.
   */
  lemma PagedEqualsOneShot(minutes: int, start: int, end: int, pageSize: int, maxPages: int,
                           source: Source, u: map<int, Row>)
    requires 0 < minutes <= 1440 && start <= end
    requires Universe(u, OpenOf, minutes * 60000) && Honest(RowsOf(source), u)
    ensures var size, step := Max(1, Min(pageSize, 1000)), minutes * 60000;
            && size * step > 0
            && Range(Some(minutes), start, end, pageSize, maxPages, source) ==
               if (end - start) / (size * step) < maxPages then Ok(Listed(OneShot(u, start, end, step))) else TooManyPages
  {
    var size, step := Max(1, Min(pageSize, 1000)), minutes * 60000;
    PageCount(start, end, size, step);
    if |Windows(start, end, size, step)| <= maxPages {
      GatherIsOneShot(source, u, start, end, size, step, maxPages);
    } else {
      TooFewPages(source, u, start, end, size, step, maxPages);
    }
  }

  /**
   * The same by the rows: with enough pages allowed, a candle is in the
   * result exactly when the exchange holds a row for its open time, in the
   * range, whose first five cells are its values, all finite.
   */
  lemma PagedCandlesAreRows(minutes: int, start: int, end: int, pageSize: int, maxPages: int,
                            source: Source, u: map<int, Row>, c: Candle)
    requires 0 < minutes <= 1440 && start <= end
    requires Universe(u, OpenOf, minutes * 60000) && Honest(RowsOf(source), u)
    requires Range(Some(minutes), start, end, pageSize, maxPages, source).Ok?
    ensures c in Range(Some(minutes), start, end, pageSize, maxPages, source).value <==>
            && c.ts in u && start <= c.ts <= end && c.ts >= 0
            && |u[c.ts].cells| >= 5 && |c.values| == 5
            && forall i :: 0 <= i < 5 ==> u[c.ts].cells[i] == Finite(c.values[i])
  {
    var step := minutes * 60000;
    PagedEqualsOneShot(minutes, start, end, pageSize, maxPages, source, u);
    hide Range, Listed, Honest, ParseRow;
    OneShotIsKeyed(u, start, end, step);
    ListedAscends(OneShot(u, start, end, step), start, end, step);
    if c.ts in u {
      RowGivesCandle(u[c.ts], step, c);
    }
  }

  lemma OneShotIsKeyed(u: map<int, Row>, start: int, end: int, step: nat)
    requires step > 0 && Universe(u, OpenOf, step)
    ensures Keyed(OneShot(u, start, end, step), start, end, step)
  {
    forall k | k in OneShot(u, start, end, step) ensures OneShot(u, start, end, step)[k].ts == k {
      ParsedKey(u[k], step);
    }
    hide ParseRow;
  }

  /** An interval that is no number of minutes of at most a day is rejected before anything is asked for. */
  lemma IntervalIsChecked(minutes: Option<int>, start: int, end: int, pageSize: int, maxPages: int, source: Source)
    ensures Range(minutes, start, end, pageSize, maxPages, source) == BadInterval <==>
              minutes == None || minutes.value < 1 || minutes.value > 24 * 60
    ensures minutes.Some? && 1 <= minutes.value <= 24 * 60 && end < start ==>
              Range(minutes, start, end, pageSize, maxPages, source) == Ok([])
  {
    hide Listed;
    if minutes.Some? && 1 <= minutes.value <= 24 * 60 && start <= end {
      GatherIsNoBadInterval(source, start, end, Max(1, Min(pageSize, 1000)), minutes.value * 60000, maxPages);
    }
  }

  lemma {:induction false} GatherIsNoBadInterval(source: Source, start: int, end: int, size: nat, step: nat, left: int)
    requires size > 0 && step > 0
    ensures Gather(source, start, end, size, step, left) != BadInterval
    decreases end - start + 1
  {
    if start <= end {
      hide Ask, PageCandles;
      PageAdvances(start, end, size, step);
      GatherIsNoBadInterval(source, PageEnd(start, end, size, step) + 1, end, size, step, left - 1);
    }
  }

  lemma {:induction false} TooFewPages(source: Source, u: map<int, Row>, start: int, end: int, size: nat, step: nat, left: int)
    requires size > 0 && step > 0 && Honest(RowsOf(source), u) && start <= end
    requires left < |Windows(start, end, size, step)|
    ensures Gather(source, start, end, size, step, left) == TooManyPages
    decreases end - start + 1
  {
    PageAdvances(start, end, size, step);
    GatherStep(source, start, end, size, step, left);
    if left > 0 {
      var hi := PageEnd(start, end, size, step);
      assert |Windows(start, end, size, step)| == 1 + |Windows(hi + 1, end, size, step)|;
      assert RowsOf(source)(start, hi, Limit(start, hi, size, step)).Some?;
      TooFewPages(source, u, hi + 1, end, size, step, left - 1);
    }
  }
}
