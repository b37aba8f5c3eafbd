/**
 * The one-line printer of API calls: free text is escaped so that a line can
 * be read back field by field, whatever the provider put into its message.
 */
module Telemetry {
  import opened Basics
  import opened Text

  // ------------------------------------------------------------------ escaping

  function HexEscape(c: char): string
    requires c as int < 256
  {
    "\\x" + [HexDigit(c as int / 16), HexDigit(c as int % 16)]
  }

  /** What one character of a value becomes in the line. */
  function EscapeChar(c: char, escapeSpaces: bool): string {
    if c == '\\' then "\\\\"
    else if c == '\n' then "\\n"
    else if c == '\r' then "\\r"
    else if c == '\t' then "\\t"
    else if c as int < 0x20 || c as int == 0x7F then HexEscape(c)
    else if c == '=' then "\\x3d"
    else if escapeSpaces && c == ' ' then "\\x20"
    else [c]
  }

  function Escaped(s: string, escapeSpaces: bool): string {
    if s == "" then "" else EscapeChar(s[0], escapeSpaces) + Escaped(s[1..], escapeSpaces)
  }

  method Sanitize(value: string, escapeSpaces: bool) returns (text: string)
    ensures text == Escaped(value, escapeSpaces)
    ensures Unescape(text) == Some(value)
  {
    hide Escaped, Unescape, HexEscape, EscapeChar;
    UnescapeEscaped(value, escapeSpaces);
    text := "";
    EscapedNil(escapeSpaces);
    assert value[0..] == value;
    for i := 0 to |value|
      invariant text + Escaped(value[i..], escapeSpaces) == Escaped(value, escapeSpaces)
    {
      var c := value[i];
      var escape := if c == '\\' then "\\\\"
      else if c == '\n' then "\\n"
      else if c == '\r' then "\\r"
      else if c == '\t' then "\\t"
      else "";
      EscapedStep(value, i, escapeSpaces);
      ghost var before, rest := text, Escaped(value[i + 1..], escapeSpaces);
      var piece := if escape != "" then escape
      else if c as int < 0x20 || c as int == 0x7F then HexEscape(c)
      else if c == '=' then "\\x3d"
      else if escapeSpaces && c == ' ' then "\\x20"
      else [c];
      assert piece == EscapeChar(c, escapeSpaces) by { EscapeCases(c, escapeSpaces); }
      text := text + piece;
      assert text + rest == before + (piece + rest);
    }
    assert value[|value|..] == "";
  }

  /** Hexadecimal escapes are of two lower-case digits. */
  lemma HexSpelling()
    ensures EscapeChar(0x1B as char, false) == "\\x1b" && EscapeChar(0x7F as char, true) == "\\x7f"
    ensures EscapeChar(0x00 as char, false) == "\\x00"
  {
  }

  lemma EscapeCases(c: char, escapeSpaces: bool)
    ensures c == '\\' ==> EscapeChar(c, escapeSpaces) == "\\\\"
    ensures c == '\n' ==> EscapeChar(c, escapeSpaces) == "\\n"
    ensures c == '\r' ==> EscapeChar(c, escapeSpaces) == "\\r"
    ensures c == '\t' ==> EscapeChar(c, escapeSpaces) == "\\t"
    ensures c == '=' ==> EscapeChar(c, escapeSpaces) == "\\x3d"
    ensures c == ' ' && escapeSpaces ==> EscapeChar(c, escapeSpaces) == "\\x20"
    ensures c !in "\\\n\r\t" ==>
              && (AsciiControl(c) ==> EscapeChar(c, escapeSpaces) == HexEscape(c))
              && (!AsciiControl(c) && c != '=' && !(escapeSpaces && c == ' ') ==> EscapeChar(c, escapeSpaces) == [c])
  {
  }

  lemma EscapedNil(escapeSpaces: bool)
    ensures Escaped("", escapeSpaces) == ""
  {
  }

  lemma EscapedStep(s: string, i: nat, escapeSpaces: bool)
    requires i < |s|
    ensures Escaped(s[i..], escapeSpaces) == EscapeChar(s[i], escapeSpaces) + Escaped(s[i + 1..], escapeSpaces)
  {
    assert s[i..][1..] == s[i + 1..];
  }

  /** The first character a text stands for, with the number of characters that spell it. */
  function FirstToken(t: string): Option<(char, nat)>
    requires t != ""
  {
    if t[0] != '\\' then Some((t[0], 1))
    else if |t| < 2 then None
    else if t[1] == '\\' then Some(('\\', 2))
    else if t[1] == 'n' then Some(('\n', 2))
    else if t[1] == 'r' then Some(('\r', 2))
    else if t[1] == 't' then Some(('\t', 2))
    else if t[1] != 'x' || |t| < 4 then None
    else
      match (HexValue(t[2]), HexValue(t[3]))
      case (Some(a), Some(b)) => if a < 16 && b < 16 then Some(((16 * a + b) as char, 4)) else None
      case _ => None
  }

  function Unescape(t: string): Option<string> {
    if t == "" then Some("")
    else
      match FirstToken(t)
      case None => None
      case Some((c, n)) =>
        if n == 0 || |t| < n then None
        else
          match Unescape(t[n..])
          case None => None
          case Some(rest) => Some([c] + rest)
  }

  lemma FirstTokenOfHex(c: char, rest: string)
    requires c as int < 256
    ensures FirstToken(HexEscape(c) + rest) == Some((c, 4)) && |HexEscape(c)| == 4
  {
    var e := HexEscape(c);
    var t := e + rest;
    HexRoundTrip(c as int / 16);
    HexRoundTrip(c as int % 16);
    hide HexDigit, HexValue;
    assert t[0] == '\\' && t[1] == 'x' && t[2] == e[2] && t[3] == e[3];
  }

  lemma FirstTokenOfEscape(c: char, escapeSpaces: bool, rest: string)
    ensures FirstToken(EscapeChar(c, escapeSpaces) + rest) == Some((c, |EscapeChar(c, escapeSpaces)|))
  {
    var e := EscapeChar(c, escapeSpaces);
    var t := e + rest;
    if c !in "\\\n\r\t" && (AsciiControl(c) || c == '=' || (escapeSpaces && c == ' ')) {
      FirstTokenOfHex(c, rest);
      hide FirstToken, HexValue;
      assert e == HexEscape(c);
    } else {
      hide HexEscape, HexValue;
      assert t[0] == e[0] && (|e| > 1 ==> t[1] == e[1]);
    }
  }

  /** Every string is recovered from its escaped form, with or without escaped spaces. */
  lemma {:induction false} UnescapeEscaped(s: string, escapeSpaces: bool)
    ensures Unescape(Escaped(s, escapeSpaces)) == Some(s)
    decreases |s|
  {
    if s != "" {
      var e, rest := EscapeChar(s[0], escapeSpaces), Escaped(s[1..], escapeSpaces);
      FirstTokenOfEscape(s[0], escapeSpaces, rest);
      assert (e + rest)[|e|..] == rest;
      UnescapeEscaped(s[1..], escapeSpaces);
      assert [s[0]] + s[1..] == s;
    }
  }

  lemma EscapedInjective(a: string, b: string, escapeSpaces: bool)
    requires Escaped(a, escapeSpaces) == Escaped(b, escapeSpaces)
    ensures a == b
  {
    UnescapeEscaped(a, escapeSpaces);
    UnescapeEscaped(b, escapeSpaces);
  }

  // ----------------------------------------------------- what a value may hold

  /** The control characters of ASCII. */
  predicate AsciiControl(c: char) { c as int < 0x20 || c as int == 0x7F }

  /** Every control character of Unicode: those of ASCII and U+0080 to U+009F. */
  predicate Control(c: char) { AsciiControl(c) || 0x80 <= c as int <= 0x9F }

  predicate Clean(s: string, escapeSpaces: bool) {
    forall i :: 0 <= i < |s| ==> !AsciiControl(s[i]) && s[i] != '=' && (escapeSpaces ==> s[i] != ' ')
  }

  /** No value can break the line or forge a key. */
  lemma {:induction false} EscapedIsClean(s: string, escapeSpaces: bool)
    ensures Clean(Escaped(s, escapeSpaces), escapeSpaces)
  {
    if s != "" {
      EscapedIsClean(s[1..], escapeSpaces);
      assert Clean(EscapeChar(s[0], escapeSpaces), escapeSpaces);
    }
  }

  /** A value is printed unchanged exactly when nothing in it needs an escape. */
  lemma {:induction false} PlainTextIsKept(s: string, escapeSpaces: bool)
    ensures Escaped(s, escapeSpaces) == s <==> Clean(s, escapeSpaces) && '\\' !in s
  {
    if Clean(s, escapeSpaces) && '\\' !in s {
      CleanIsKept(s, escapeSpaces);
    } else if Escaped(s, escapeSpaces) == s {
      EscapedIsClean(s, escapeSpaces);
      var i :| 0 <= i < |s| && s[i] == '\\';
      GrowsAtBackslash(s, escapeSpaces, i);
    }
  }

  lemma {:induction false} CleanIsKept(s: string, escapeSpaces: bool)
    requires Clean(s, escapeSpaces) && '\\' !in s
    ensures Escaped(s, escapeSpaces) == s
  {
    if s != "" {
      CleanIsKept(s[1..], escapeSpaces);
    }
  }

  lemma {:induction false} GrowsAtBackslash(s: string, escapeSpaces: bool, i: nat)
    requires i < |s| ==> s[i] == '\\'
    ensures |Escaped(s, escapeSpaces)| >= |s| + if i < |s| then 1 else 0
    decreases |s|
  {
    if s != "" {
      GrowsAtBackslash(s[1..], escapeSpaces, if i == 0 then |s| else i - 1);
    }
  }

  /** The control characters of Unicode that are not of ASCII. */
  predicate LateControl(c: char) { 0x80 <= c as int <= 0x9F }

  predicate HasLateControl(s: string) { exists i :: 0 <= i < |s| && LateControl(s[i]) }

  predicate ControlFree(s: string) { forall i :: 0 <= i < |s| ==> !Control(s[i]) }

  lemma ControlFreeJoin(a: string, b: string)
    ensures ControlFree(a + b) <==> ControlFree(a) && ControlFree(b)
  {
    hide Control;
    assert forall i :: 0 <= i < |a| ==> (a + b)[i] == a[i];
    assert forall i :: 0 <= i < |b| ==> (a + b)[|a| + i] == b[i];
  }

  lemma LateControlSplit(s: string)
    requires s != ""
    ensures HasLateControl(s) <==> LateControl(s[0]) || HasLateControl(s[1..])
  {
    hide LateControl;
    assert forall i :: 0 <= i < |s[1..]| ==> s[1..][i] == s[i + 1];
    if i :| 0 < i < |s| && LateControl(s[i]) {
      assert LateControl(s[1..][i - 1]);
    }
  }

  lemma LateControlOfEscape(c: char, escapeSpaces: bool)
    ensures ControlFree(EscapeChar(c, escapeSpaces)) <==> !LateControl(c)
  {
    var e := EscapeChar(c, escapeSpaces);
    if LateControl(c) {
      assert Control(e[0]);
    }
  }

  /**
   * Only the control characters of ASCII are escaped: the escaped text is
   * free of control characters exactly when the value has none of U+0080 to U+009F.
   */
  lemma {:induction false} LateControlsPass(s: string, escapeSpaces: bool)
    ensures ControlFree(Escaped(s, escapeSpaces)) <==> !HasLateControl(s)
  {
    if s != "" {
      hide ControlFree, HasLateControl, LateControl, EscapeChar;
      LateControlsPass(s[1..], escapeSpaces);
      LateControlSplit(s);
      LateControlOfEscape(s[0], escapeSpaces);
      ControlFreeJoin(EscapeChar(s[0], escapeSpaces), Escaped(s[1..], escapeSpaces));
    }
  }

  // --------------------------------------------------------------- key = value

  datatype Field = Field(key: string, value: string)

  predicate GoodKey(key: string) {
    forall i :: 0 <= i < |key| ==> 'a' <= key[i] <= 'z' || key[i] == '_' || key[i] == 'M'
  }

  /** A key is made of letters and underscores; a value has no '=' and no control character. */
  predicate WellFormed(f: Field) { GoodKey(f.key) && Clean(f.value, false) }

  function RenderField(f: Field): string { " " + f.key + "=" + f.value }

  function Render(fs: seq<Field>): string {
    if fs == [] then "" else RenderField(fs[0]) + Render(fs[1..])
  }

  /**
   * A key runs to the next '='; its value runs to the last space before the
   * '=' after that, because a value may hold spaces and a key may not.
   */
  function ReadFields(t: string): Option<seq<Field>>
    decreases |t|
  {
    if t == "" then Some([])
    else if t[0] != ' ' then None
    else
      match SplitAt(t[1..], '=')
      case None => None
      case Some((key, after)) =>
        match SplitAt(after, '=')
        case None => Some([Field(key, after)])
        case Some((chunk, _)) =>
          match SplitLast(chunk, ' ')
          case None => None
          case Some((value, _)) =>
            match ReadFields(after[|value|..])
            case None => None
            case Some(rest) => Some([Field(key, value)] + rest)
  }

  lemma Separators(f: Field)
    requires WellFormed(f)
    ensures ' ' !in f.key && '=' !in f.key && '=' !in f.value
  {
  }

  lemma ReadLast(f: Field)
    requires WellFormed(f)
    ensures ReadFields(RenderField(f)) == Some([f])
  {
    var t := RenderField(f);
    assert t[1..] == f.key + ['='] + f.value;
    Separators(f);
    SplitAtJoin(f.key, '=', f.value);
  }

  lemma ReadFirst(f: Field, g: Field, tail: string)
    requires WellFormed(f) && WellFormed(g)
    ensures var rest := RenderField(g) + tail;
            ReadFields(RenderField(f) + rest) ==
            match ReadFields(rest) { case None => None case Some(fs) => Some([f] + fs) }
  {
    hide SplitAt, SplitLast, WellFormed;
    Separators(f);
    Separators(g);
    var rest := RenderField(g) + tail;
    var t := RenderField(f) + rest;
    var chunk, after := f.value + [' '] + g.key, f.value + rest;
    assert t[0] == ' ' && t[1..] == f.key + ['='] + after;
    SplitAtJoin(f.key, '=', after);
    assert after == chunk + ['='] + (g.value + tail);
    SplitAtJoin(chunk, '=', g.value + tail);
    SplitLastJoin(f.value, ' ', g.key);
    assert after[|f.value|..] == rest;
    hide RenderField;
  }

  /** A rendered list of fields splits back into exactly these fields. */
  lemma {:induction false} ReadRendered(fs: seq<Field>)
    requires AllWellFormed(fs)
    ensures ReadFields(Render(fs)) == Some(fs)
    decreases |fs|
  {
    hide RenderField, WellFormed, ReadFields;
    if fs == [] {
      ReadNothing();
    } else {
      assert WellFormed(fs[0]);
      assert [fs[0]] + fs[1..] == fs;
      if |fs| == 1 {
        ReadLast(fs[0]);
        assert fs == [fs[0]] && fs[1..] == [];
        assert Render(fs) == RenderField(fs[0]) + "";
        assert Render(fs) == RenderField(fs[0]);
      } else {
        assert WellFormed(fs[1]);
        assert fs[1..][0] == fs[1];
        ReadFirst(fs[0], fs[1], Render(fs[1..][1..]));
        ReadRendered(fs[1..]);
      }
    }
  }

  lemma ReadNothing()
    ensures ReadFields("") == Some([])
  {
  }

  // ---------------------------------------------------------------- the record

  /** One attempt, with the duration already rounded to whole milliseconds. */
  datatype Call = Call(
    serviceTag: string,
    endpoint: string,
    caller: string,
    symbol: string,
    interval: string,
    limit: int,
    durationMs: int,
    result: string,
    retMsg: string,
    statusCode: int,
    requestId: string,
    attemptIndex: int,
    totalAttempts: int,
    httpMethod: string,
    statusSource: string,
    retCode: Option<int>,
    retryReason: string,
    bapiLimit: Option<int>,
    bapiLimitStatus: Option<int>,
    bapiLimitResetMs: Option<int>,
    headersAbsent: bool
  )

  const NONE := "none"

  /** Python's `x or "none"` on a string. */
  function OrNone(s: string): string { if s == "" then NONE else s }

  function OptText(o: Option<int>): string {
    match o
    case None => NONE
    case Some(n) => IntText(n)
  }

  function Word(s: string): string { Escaped(s, true) }

  function BaseFields(c: Call): seq<Field> {
    [ Field("service", Word(OrNone(c.serviceTag))),
      Field("endpoint", Word(c.endpoint)),
      Field("caller", Word(c.caller)),
      Field("symbol", Word(c.symbol)),
      Field("interval", Word(c.interval)),
      Field("limit", IntText(c.limit)),
      Field("duration_ms", IntText(c.durationMs)),
      Field("result", Word(c.result)) ]
  }

  /** The message is printed unless the call succeeded, the status as well unless it was rate limited. */
  function FailureFields(c: Call): seq<Field> {
    if c.result == "RATE_LIMIT" then [Field("retMsg", Escaped(c.retMsg, false))]
    else if c.result != "OK" then
      [Field("retMsg", Escaped(c.retMsg, false)), Field("status", IntText(c.statusCode))]
    else []
  }

  function SuffixFields(c: Call): seq<Field> {
    [ Field("telemetry_v", "1"),
      Field("logical_request_id", Word(OrNone(c.requestId))),
      Field("attempt_index", IntText(c.attemptIndex)),
      Field("total_attempts", IntText(c.totalAttempts)),
      Field("method", Word(c.httpMethod)),
      Field("status_code", IntText(c.statusCode)),
      Field("status_code_source", Word(OrNone(c.statusSource))),
      Field("ret_code", Word(OptText(c.retCode))),
      Field("retry_reason", Word(OrNone(c.retryReason))),
      Field("bapi_limit", Word(OptText(c.bapiLimit))),
      Field("bapi_limit_status", Word(OptText(c.bapiLimitStatus))),
      Field("bapi_limit_reset_ms", Word(OptText(c.bapiLimitResetMs))),
      Field("headers_absent", if c.headersAbsent then "true" else "false") ]
  }

  function Fields(c: Call): seq<Field> { BaseFields(c) + FailureFields(c) + SuffixFields(c) }

  const HEADER := "BYBIT_API_CALL"

  /** The line emitted for one attempt. */
  function Line(c: Call): string { HEADER + Render(Fields(c)) }

  function ReadLine(line: string): Option<seq<Field>> {
    if HEADER <= line then ReadFields(line[|HEADER|..]) else None
  }

  lemma ValueIsClean(s: string, escapeSpaces: bool)
    ensures Clean(Escaped(s, escapeSpaces), false)
  {
    EscapedIsClean(s, escapeSpaces);
  }

  lemma IntTextIsClean(n: int)
    ensures Clean(IntText(n), false)
  {
  }

  lemma LiteralsAreClean()
    ensures Clean("1", false) && Clean("true", false) && Clean("false", false)
  {
  }

  lemma BaseKeys()
    ensures GoodKey("service") && GoodKey("endpoint") && GoodKey("caller") && GoodKey("symbol")
    ensures GoodKey("interval") && GoodKey("limit") && GoodKey("duration_ms") && GoodKey("result")
    ensures GoodKey("retMsg") && GoodKey("status")
  {
  }

  lemma AttemptKeys()
    ensures GoodKey("telemetry_v") && GoodKey("logical_request_id") && GoodKey("attempt_index")
    ensures GoodKey("total_attempts") && GoodKey("method")
  {
  }

  lemma OutcomeKeys()
    ensures GoodKey("status_code") && GoodKey("status_code_source") && GoodKey("ret_code") && GoodKey("retry_reason")
  {
  }

  lemma LimitKeys()
    ensures GoodKey("bapi_limit") && GoodKey("bapi_limit_status")
    ensures GoodKey("bapi_limit_reset_ms") && GoodKey("headers_absent")
  {
  }

  predicate AllWellFormed(fs: seq<Field>) { forall i :: 0 <= i < |fs| ==> WellFormed(fs[i]) }

  lemma BaseWellFormed(c: Call)
    ensures AllWellFormed(BaseFields(c))
  {
    hide Escaped, IntText, OrNone, Clean, GoodKey;
    BaseKeys();
    ValueIsClean(OrNone(c.serviceTag), true);
    ValueIsClean(c.endpoint, true);
    ValueIsClean(c.caller, true);
    ValueIsClean(c.symbol, true);
    ValueIsClean(c.interval, true);
    ValueIsClean(c.result, true);
    IntTextIsClean(c.limit);
    IntTextIsClean(c.durationMs);
  }

  lemma FailureWellFormed(c: Call)
    ensures AllWellFormed(FailureFields(c))
  {
    hide Escaped, IntText, Clean, GoodKey;
    BaseKeys();
    ValueIsClean(c.retMsg, false);
    IntTextIsClean(c.statusCode);
  }

  lemma SuffixWellFormed(c: Call)
    ensures AllWellFormed(SuffixFields(c))
  {
    hide Escaped, IntText, OrNone, OptText, Clean, GoodKey;
    AttemptKeys();
    OutcomeKeys();
    LimitKeys();
    LiteralsAreClean();
    ValueIsClean(OrNone(c.requestId), true);
    IntTextIsClean(c.attemptIndex);
    IntTextIsClean(c.totalAttempts);
    ValueIsClean(c.httpMethod, true);
    IntTextIsClean(c.statusCode);
    ValueIsClean(OrNone(c.statusSource), true);
    ValueIsClean(OptText(c.retCode), true);
    ValueIsClean(OrNone(c.retryReason), true);
    ValueIsClean(OptText(c.bapiLimit), true);
    ValueIsClean(OptText(c.bapiLimitStatus), true);
    ValueIsClean(OptText(c.bapiLimitResetMs), true);
  }

  lemma FieldsWellFormed(c: Call)
    ensures AllWellFormed(Fields(c))
  {
    hide WellFormed, BaseFields, FailureFields, SuffixFields;
    BaseWellFormed(c);
    FailureWellFormed(c);
    SuffixWellFormed(c);
  }

  /** Every line splits back into the fields it was built from, spaces in the message included. */
  lemma LineIsReadable(c: Call)
    ensures ReadLine(Line(c)) == Some(Fields(c))
  {
    hide Fields, Render, ReadFields, WellFormed;
    FieldsWellFormed(c);
    ReadRendered(Fields(c));
    assert Line(c)[|HEADER|..] == Render(Fields(c));
  }

  // ------------------------------------------------------- what a line tells

  /** The record as far as its line shows it. */
  function Shown(c: Call): Call {
    c.(serviceTag := OrNone(c.serviceTag),
       requestId := OrNone(c.requestId),
       statusSource := OrNone(c.statusSource),
       retryReason := OrNone(c.retryReason),
       retMsg := if c.result == "OK" then "" else c.retMsg)
  }

  lemma NotNone(n: int)
    ensures IntText(n) != NONE
  {
    assert NONE[0] == 'n';
  }

  lemma OptTextInjective(a: Option<int>, b: Option<int>)
    requires OptText(a) == OptText(b)
    ensures a == b
  {
    match (a, b)
    case (Some(m), Some(n)) => IntTextInjective(m, n);
    case (Some(m), None) => NotNone(m);
    case (None, Some(n)) => NotNone(n);
    case (None, None) =>
  }

  lemma OptWordInjective(a: Option<int>, b: Option<int>)
    requires Word(OptText(a)) == Word(OptText(b))
    ensures a == b
  {
    EscapedInjective(OptText(a), OptText(b), true);
    OptTextInjective(a, b);
  }

  lemma BaseDetermines(c: Call, d: Call)
    requires BaseFields(c) == BaseFields(d)
    ensures OrNone(c.serviceTag) == OrNone(d.serviceTag)
    ensures c.endpoint == d.endpoint && c.caller == d.caller && c.symbol == d.symbol && c.interval == d.interval
    ensures c.limit == d.limit && c.durationMs == d.durationMs && c.result == d.result
  {
    hide Escaped, IntText, OrNone;
    var f, g := BaseFields(c), BaseFields(d);
    assert f[0].value == g[0].value && f[1].value == g[1].value && f[2].value == g[2].value && f[3].value == g[3].value;
    assert f[4].value == g[4].value && f[5].value == g[5].value && f[6].value == g[6].value && f[7].value == g[7].value;
    EscapedInjective(OrNone(c.serviceTag), OrNone(d.serviceTag), true);
    EscapedInjective(c.endpoint, d.endpoint, true);
    EscapedInjective(c.caller, d.caller, true);
    EscapedInjective(c.symbol, d.symbol, true);
    EscapedInjective(c.interval, d.interval, true);
    EscapedInjective(c.result, d.result, true);
    IntTextInjective(c.limit, d.limit);
    IntTextInjective(c.durationMs, d.durationMs);
  }

  lemma SuffixDetermines(c: Call, d: Call)
    requires SuffixFields(c) == SuffixFields(d)
    ensures OrNone(c.requestId) == OrNone(d.requestId)
    ensures c.attemptIndex == d.attemptIndex && c.totalAttempts == d.totalAttempts
    ensures c.httpMethod == d.httpMethod && c.statusCode == d.statusCode
    ensures OrNone(c.statusSource) == OrNone(d.statusSource)
    ensures c.retCode == d.retCode && OrNone(c.retryReason) == OrNone(d.retryReason)
    ensures c.bapiLimit == d.bapiLimit && c.bapiLimitStatus == d.bapiLimitStatus
    ensures c.bapiLimitResetMs == d.bapiLimitResetMs && c.headersAbsent == d.headersAbsent
  {
    hide Escaped, IntText, OrNone, OptText;
    var f, g := SuffixFields(c), SuffixFields(d);
    assert f[1].value == g[1].value && f[2].value == g[2].value && f[3].value == g[3].value && f[4].value == g[4].value;
    assert f[5].value == g[5].value && f[6].value == g[6].value && f[7].value == g[7].value && f[8].value == g[8].value;
    assert f[9].value == g[9].value && f[10].value == g[10].value && f[11].value == g[11].value;
    assert f[12].value == g[12].value;
    EscapedInjective(OrNone(c.requestId), OrNone(d.requestId), true);
    IntTextInjective(c.attemptIndex, d.attemptIndex);
    IntTextInjective(c.totalAttempts, d.totalAttempts);
    EscapedInjective(c.httpMethod, d.httpMethod, true);
    IntTextInjective(c.statusCode, d.statusCode);
    EscapedInjective(OrNone(c.statusSource), OrNone(d.statusSource), true);
    OptWordInjective(c.retCode, d.retCode);
    EscapedInjective(OrNone(c.retryReason), OrNone(d.retryReason), true);
    OptWordInjective(c.bapiLimit, d.bapiLimit);
    OptWordInjective(c.bapiLimitStatus, d.bapiLimitStatus);
    OptWordInjective(c.bapiLimitResetMs, d.bapiLimitResetMs);
    assert "true"[0] != "false"[0];
  }

  lemma FieldsDetermine(c: Call, d: Call)
    requires Fields(c) == Fields(d)
    ensures Shown(c) == Shown(d)
  {
    assert |BaseFields(c)| == |BaseFields(d)| == 8 && |SuffixFields(c)| == |SuffixFields(d)| == 13;
    hide Escaped, IntText, OrNone, BaseFields, SuffixFields, FailureFields;
    Parts(BaseFields(c), FailureFields(c), SuffixFields(c), BaseFields(d), FailureFields(d), SuffixFields(d));
    BaseDetermines(c, d);
    SuffixDetermines(c, d);
    FailureDetermines(c, d);
  }

  lemma Parts<T>(a: seq<T>, b: seq<T>, c: seq<T>, a': seq<T>, b': seq<T>, c': seq<T>)
    requires a + b + c == a' + b' + c' && |a| == |a'| && |c| == |c'|
    ensures a == a' && b == b' && c == c'
  {
    var s := a + b + c;
    assert s[..|a|] == a && s[..|a'|] == a';
    assert s[|a|..|a + b|] == b && s[|a'|..|a' + b'|] == b';
    assert s[|a + b|..] == c && s[|a' + b'|..] == c';
  }

  lemma FailureDetermines(c: Call, d: Call)
    requires FailureFields(c) == FailureFields(d) && c.result == d.result
    ensures c.result != "OK" ==> c.retMsg == d.retMsg
  {
    hide Escaped, IntText;
    if c.result != "OK" {
      assert FailureFields(c)[0].value == FailureFields(d)[0].value;
      EscapedInjective(c.retMsg, d.retMsg, false);
    }
  }

  /**
   * Two attempts print the same line exactly when they agree on all that a
   * line shows: everything, but for the message of a successful call and the
   * difference between an empty value and the word "none".
   */
  lemma LinesAgree(c: Call, d: Call)
    ensures Line(c) == Line(d) <==> Shown(c) == Shown(d)
  {
    if Line(c) == Line(d) {
      hide Fields, Shown, ReadLine, Line;
      LineIsReadable(c);
      LineIsReadable(d);
      FieldsDetermine(c, d);
    }
  }

  // ----------------------------------------------------------- one clean line

  predicate OneLine(s: string) { forall i :: 0 <= i < |s| ==> !AsciiControl(s[i]) }

  lemma FieldIsOneLine(f: Field)
    requires WellFormed(f)
    ensures OneLine(RenderField(f))
    ensures multiset(RenderField(f))['='] == 1
  {
    assert '=' !in " " + f.key;
    assert multiset(RenderField(f)) == multiset(" " + f.key) + multiset("=") + multiset(f.value);
  }

  lemma {:induction false} RenderedIsOneLine(fs: seq<Field>)
    requires AllWellFormed(fs)
    ensures OneLine(Render(fs))
    ensures multiset(Render(fs))['='] == |fs|
  {
    if fs != [] {
      hide RenderField, WellFormed, OneLine;
      RenderedIsOneLine(fs[1..]);
      FieldIsOneLine(fs[0]);
      JoinIsOneLine(RenderField(fs[0]), Render(fs[1..]));
    }
  }

  /** A call is printed as one line without control characters, with one '=' for each field and none inside a value. */
  lemma OneLinePerCall(c: Call)
    ensures OneLine(Line(c))
    ensures multiset(Line(c))['='] == |Fields(c)|
  {
    FieldsWellFormed(c);
    hide Fields, WellFormed, Clean, Render;
    RenderedIsOneLine(Fields(c));
    HeaderIsPlain();
    JoinIsOneLine(HEADER, Render(Fields(c)));
  }

  lemma HeaderIsPlain()
    ensures OneLine(HEADER) && multiset(HEADER)['='] == 0
  {
    HeaderHasNoSign();
    assert forall i :: 0 <= i < |HEADER| ==> 'A' <= HEADER[i] <= 'Z' || HEADER[i] == '_';
    Absent(HEADER, '=');
  }

  lemma Absent(s: string, c: char)
    requires c !in s
    ensures multiset(s)[c] == 0
  {
  }

  lemma JoinIsOneLine(a: string, b: string)
    requires OneLine(a) && OneLine(b)
    ensures OneLine(a + b) && multiset(a + b)['='] == multiset(a)['='] + multiset(b)['=']
  {
    hide AsciiControl;
  }

  lemma HeaderHasNoSign()
    ensures '=' !in HEADER
  {
  }
}
