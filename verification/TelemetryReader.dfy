/**
 * Reading a telemetry line back by its keys: every entry of the record is
 * found under its own key.
 */
module TelemetryReader {
  import opened Basics
  import opened Text
  import opened Telemetry

  /** The value of the first field with a key. */
  function ValueOf(fs: seq<Field>, key: string): Option<string> {
    if fs == [] then None else if fs[0].key == key then Some(fs[0].value) else ValueOf(fs[1..], key)
  }

  /** What a reader finds under a key of a line, with the escapes undone. */
  function Told(line: string, key: string): Option<string> {
    match ReadLine(line)
    case None => None
    case Some(fs) =>
      match ValueOf(fs, key)
      case None => None
      case Some(v) => Unescape(v)
  }

  lemma {:induction false} ValueAt(fs: seq<Field>, i: nat)
    requires i < |fs| && forall j :: 0 <= j < i ==> fs[j].key != fs[i].key
    ensures ValueOf(fs, fs[i].key) == Some(fs[i].value)
    decreases i
  {
    if i > 0 {
      assert fs[1..][i - 1] == fs[i];
      forall j | 0 <= j < i - 1 ensures fs[1..][j].key != fs[i].key {
        assert fs[1..][j] == fs[j + 1];
      }
      ValueAt(fs[1..], i - 1);
    }
  }

  lemma ToldAt(c: Call, i: nat, value: string)
    requires i < |Fields(c)| && Unescape(Fields(c)[i].value) == Some(value)
    requires forall j :: 0 <= j < i ==> Fields(c)[j].key != Fields(c)[i].key
    ensures Told(Line(c), Fields(c)[i].key) == Some(value)
  {
    hide Fields, Line, ReadLine, Unescape;
    LineIsReadable(c);
    ValueAt(Fields(c), i);
  }

  // ------------------------------------------------------------ field by field

  /** The keys of a line that has all of them, in their order. */
  const KEYS: seq<string> := [
    "service", "endpoint", "caller", "symbol", "interval", "limit", "duration_ms", "result",
    "retMsg", "status",
    "telemetry_v", "logical_request_id", "attempt_index", "total_attempts", "method",
    "status_code", "status_code_source", "ret_code", "retry_reason",
    "bapi_limit", "bapi_limit_status", "bapi_limit_reset_ms", "headers_absent" ]

  /** A number that tells the keys apart: length, first and last character. */
  function Mark(key: string): int
    requires key != ""
  {
    |key| * 1000000 + (key[0] as int) * 1000 + key[|key| - 1] as int
  }

  function PlaceOf(mark: int): int {
    if mark == 7115101 then 0
    else if mark == 8101116 then 1
    else if mark == 6099114 then 2
    else if mark == 6115108 then 3
    else if mark == 8105108 then 4
    else if mark == 5108116 then 5
    else if mark == 11100115 then 6
    else if mark == 6114116 then 7
    else if mark == 6114103 then 8
    else if mark == 6115115 then 9
    else if mark == 11116118 then 10
    else if mark == 18108100 then 11
    else if mark == 13097120 then 12
    else if mark == 14116115 then 13
    else if mark == 6109100 then 14
    else if mark == 11115101 then 15
    else if mark == 18115101 then 16
    else if mark == 8114101 then 17
    else if mark == 12114110 then 18
    else if mark == 10098116 then 19
    else if mark == 17098115 then 20
    else if mark == 19098115 then 21
    else if mark == 14104116 then 22
    else -1
  }

  lemma Places0()
    ensures forall i :: 0 <= i < 4 ==> KEYS[i] != "" && PlaceOf(Mark(KEYS[i])) == i
  {
    assert KEYS[0] == "service" && Mark("service") == 7115101;
    assert KEYS[1] == "endpoint" && Mark("endpoint") == 8101116;
    assert KEYS[2] == "caller" && Mark("caller") == 6099114;
    assert KEYS[3] == "symbol" && Mark("symbol") == 6115108;
  }

  lemma Places1()
    ensures forall i :: 4 <= i < 8 ==> KEYS[i] != "" && PlaceOf(Mark(KEYS[i])) == i
  {
    assert KEYS[4] == "interval" && Mark("interval") == 8105108;
    assert KEYS[5] == "limit" && Mark("limit") == 5108116;
    assert KEYS[6] == "duration_ms" && Mark("duration_ms") == 11100115;
    assert KEYS[7] == "result" && Mark("result") == 6114116;
  }

  lemma Places2()
    ensures forall i :: 8 <= i < 12 ==> KEYS[i] != "" && PlaceOf(Mark(KEYS[i])) == i
  {
    assert KEYS[8] == "retMsg" && Mark("retMsg") == 6114103;
    assert KEYS[9] == "status" && Mark("status") == 6115115;
    assert KEYS[10] == "telemetry_v" && Mark("telemetry_v") == 11116118;
    assert KEYS[11] == "logical_request_id" && Mark("logical_request_id") == 18108100;
  }

  lemma Places3()
    ensures forall i :: 12 <= i < 16 ==> KEYS[i] != "" && PlaceOf(Mark(KEYS[i])) == i
  {
    assert KEYS[12] == "attempt_index" && Mark("attempt_index") == 13097120;
    assert KEYS[13] == "total_attempts" && Mark("total_attempts") == 14116115;
    assert KEYS[14] == "method" && Mark("method") == 6109100;
    assert KEYS[15] == "status_code" && Mark("status_code") == 11115101;
  }

  lemma Places4()
    ensures forall i :: 16 <= i < 20 ==> KEYS[i] != "" && PlaceOf(Mark(KEYS[i])) == i
  {
    assert KEYS[16] == "status_code_source" && Mark("status_code_source") == 18115101;
    assert KEYS[17] == "ret_code" && Mark("ret_code") == 8114101;
    assert KEYS[18] == "retry_reason" && Mark("retry_reason") == 12114110;
    assert KEYS[19] == "bapi_limit" && Mark("bapi_limit") == 10098116;
  }

  lemma Places5()
    ensures forall i :: 20 <= i < 23 ==> KEYS[i] != "" && PlaceOf(Mark(KEYS[i])) == i
  {
    assert KEYS[20] == "bapi_limit_status" && Mark("bapi_limit_status") == 17098115;
    assert KEYS[21] == "bapi_limit_reset_ms" && Mark("bapi_limit_reset_ms") == 19098115;
    assert KEYS[22] == "headers_absent" && Mark("headers_absent") == 14104116;
  }

  lemma KeysDiffer(i: nat, j: nat)
    requires i < |KEYS| && j < |KEYS| && KEYS[i] == KEYS[j]
    ensures i == j
  {
    Places0();
    Places1();
    Places2();
    Places3();
    Places4();
    Places5();
    assert PlaceOf(Mark(KEYS[i])) == i && PlaceOf(Mark(KEYS[j])) == j;
    hide PlaceOf, Mark;
  }

  /** The place among all keys of the i-th field of a line. */
  function KeyPlace(c: Call, i: nat): nat {
    if i < 8 + |FailureFields(c)| then i else i + 2 - |FailureFields(c)|
  }

  lemma BaseNames(c: Call)
    ensures |BaseFields(c)| == 8 && forall i :: 0 <= i < 8 ==> BaseFields(c)[i].key == KEYS[i]
  {
    hide Escaped, IntText, OrNone;
  }

  lemma FailureNames(c: Call)
    ensures |FailureFields(c)| <= 2
    ensures forall i :: 0 <= i < |FailureFields(c)| ==> FailureFields(c)[i].key == KEYS[8 + i]
  {
    hide Escaped, IntText;
  }

  lemma SuffixNames(c: Call)
    ensures |SuffixFields(c)| == 13 && forall i :: 0 <= i < 13 ==> SuffixFields(c)[i].key == KEYS[10 + i]
  {
    hide Escaped, IntText, OrNone, OptText;
  }

  lemma FieldNames(c: Call)
    ensures |Fields(c)| == 21 + |FailureFields(c)| <= 23
    ensures forall i :: 0 <= i < |Fields(c)| ==> KeyPlace(c, i) < |KEYS| && Fields(c)[i].key == KEYS[KeyPlace(c, i)]
  {
    BaseNames(c);
    FailureNames(c);
    SuffixNames(c);
    hide BaseFields, FailureFields, SuffixFields;
  }

  lemma FieldCount(c: Call)
    ensures |Fields(c)| == if c.result == "OK" then 21 else if c.result == "RATE_LIMIT" then 22 else 23
  {
    FieldNames(c);
    hide Fields, IntText, Escaped;
  }

  /** What is written into a field is read back under its key. */
  lemma Tells(c: Call, i: nat, value: string)
    requires i < |Fields(c)| && Unescape(Fields(c)[i].value) == Some(value)
    ensures KeyPlace(c, i) < |KEYS| && Told(Line(c), KEYS[KeyPlace(c, i)]) == Some(value)
  {
    FieldNames(c);
    hide Fields, Unescape, Told, Line, FailureFields;
    forall j | 0 <= j < i ensures Fields(c)[j].key != Fields(c)[i].key {
      if Fields(c)[j].key == Fields(c)[i].key {
        KeysDiffer(KeyPlace(c, j), KeyPlace(c, i));
      }
    }
    ToldAt(c, i, value);
  }

  lemma WordIsRead(s: string, escapeSpaces: bool)
    ensures Unescape(Escaped(s, escapeSpaces)) == Some(s)
  {
    UnescapeEscaped(s, escapeSpaces);
  }

  lemma NumberIsRead(n: int)
    ensures Unescape(IntText(n)) == Some(IntText(n))
  {
    PlainTextIsKept(IntText(n), false);
    IntTextIsClean(n);
    UnescapeEscaped(IntText(n), false);
    hide Unescape, Escaped, Clean;
  }

  lemma FlagIsRead(b: bool)
    ensures Unescape(if b then "true" else "false") == Some(if b then "true" else "false")
  {
    var s := if b then "true" else "false";
    LiteralsAreClean();
    PlainTextIsKept(s, false);
    UnescapeEscaped(s, false);
    hide Unescape, Escaped, Clean;
  }

  lemma BaseTells(c: Call, i: nat, value: string)
    requires i < |BaseFields(c)| && Unescape(BaseFields(c)[i].value) == Some(value)
    ensures i < 8 && Told(Line(c), KEYS[i]) == Some(value)
  {
    hide Told, Line, Unescape, BaseFields, FailureFields, SuffixFields;
    BaseNames(c);
    assert Fields(c)[i] == BaseFields(c)[i];
    Tells(c, i, value);
  }

  lemma OriginIsTold(c: Call)
    ensures Told(Line(c), "service") == Some(OrNone(c.serviceTag))
    ensures Told(Line(c), "endpoint") == Some(c.endpoint) && Told(Line(c), "caller") == Some(c.caller)
    ensures Told(Line(c), "symbol") == Some(c.symbol)
  {
    hide Told, Line, Unescape, Escaped, IntText, OrNone;
    WordIsRead(OrNone(c.serviceTag), true);
    WordIsRead(c.endpoint, true);
    WordIsRead(c.caller, true);
    WordIsRead(c.symbol, true);
    assert KEYS[0] == "service" && KEYS[1] == "endpoint" && KEYS[2] == "caller" && KEYS[3] == "symbol";
    BaseTells(c, 0, OrNone(c.serviceTag));
    BaseTells(c, 1, c.endpoint);
    BaseTells(c, 2, c.caller);
    BaseTells(c, 3, c.symbol);
  }

  lemma RequestIsTold(c: Call)
    ensures Told(Line(c), "interval") == Some(c.interval) && Told(Line(c), "limit") == Some(IntText(c.limit))
    ensures Told(Line(c), "duration_ms") == Some(IntText(c.durationMs)) && Told(Line(c), "result") == Some(c.result)
  {
    hide Told, Line, Unescape, Escaped, IntText, OrNone;
    WordIsRead(c.interval, true);
    NumberIsRead(c.limit);
    NumberIsRead(c.durationMs);
    WordIsRead(c.result, true);
    assert KEYS[4] == "interval" && KEYS[5] == "limit" && KEYS[6] == "duration_ms" && KEYS[7] == "result";
    BaseTells(c, 4, c.interval);
    BaseTells(c, 5, IntText(c.limit));
    BaseTells(c, 6, IntText(c.durationMs));
    BaseTells(c, 7, c.result);
  }

  lemma FailureIsTold(c: Call)
    ensures c.result != "OK" ==> Told(Line(c), "retMsg") == Some(c.retMsg)
    ensures c.result != "OK" && c.result != "RATE_LIMIT" ==> Told(Line(c), "status") == Some(IntText(c.statusCode))
  {
    hide Told, Line, Unescape, Escaped, IntText, OrNone, SuffixFields;
    if c.result != "OK" {
      BaseNames(c);
      assert forall i :: 0 <= i < |FailureFields(c)| ==> Fields(c)[8 + i] == FailureFields(c)[i];
      hide BaseFields;
      WordIsRead(c.retMsg, false);
      NumberIsRead(c.statusCode);
      assert KEYS[8] == "retMsg" && KEYS[9] == "status";
      Tells(c, 8, c.retMsg);
      if c.result != "RATE_LIMIT" {
        Tells(c, 9, IntText(c.statusCode));
      }
    }
  }

  lemma SuffixField(c: Call, i: nat)
    requires i < |SuffixFields(c)|
    ensures var k := 8 + |FailureFields(c)| + i;
            k < |Fields(c)| && Fields(c)[k] == SuffixFields(c)[i] && KeyPlace(c, k) == 10 + i
  {
    BaseNames(c);
    FailureNames(c);
    hide BaseFields, FailureFields, SuffixFields;
  }

  lemma SuffixTells(c: Call, i: nat, value: string)
    requires i < |SuffixFields(c)| && Unescape(SuffixFields(c)[i].value) == Some(value)
    ensures i < 13 && Told(Line(c), KEYS[10 + i]) == Some(value)
  {
    hide Told, Line, Unescape, BaseFields, FailureFields, SuffixFields, Fields, KeyPlace;
    SuffixNames(c);
    SuffixField(c, i);
    Tells(c, 8 + |FailureFields(c)| + i, value);
  }

  lemma AttemptIsTold(c: Call)
    ensures Told(Line(c), "logical_request_id") == Some(OrNone(c.requestId))
    ensures Told(Line(c), "attempt_index") == Some(IntText(c.attemptIndex))
    ensures Told(Line(c), "total_attempts") == Some(IntText(c.totalAttempts))
  {
    hide Told, Line, Unescape, Escaped, IntText, OrNone, OptText;
    WordIsRead(OrNone(c.requestId), true);
    NumberIsRead(c.attemptIndex);
    NumberIsRead(c.totalAttempts);
    assert KEYS[11] == "logical_request_id" && KEYS[12] == "attempt_index" && KEYS[13] == "total_attempts";
    SuffixTells(c, 1, OrNone(c.requestId));
    SuffixTells(c, 2, IntText(c.attemptIndex));
    SuffixTells(c, 3, IntText(c.totalAttempts));
  }

  lemma StatusIsTold(c: Call)
    ensures Told(Line(c), "method") == Some(c.httpMethod) && Told(Line(c), "status_code") == Some(IntText(c.statusCode))
    ensures Told(Line(c), "status_code_source") == Some(OrNone(c.statusSource))
  {
    hide Told, Line, Unescape, Escaped, IntText, OrNone, OptText;
    WordIsRead(c.httpMethod, true);
    NumberIsRead(c.statusCode);
    WordIsRead(OrNone(c.statusSource), true);
    assert KEYS[14] == "method" && KEYS[15] == "status_code" && KEYS[16] == "status_code_source";
    SuffixTells(c, 4, c.httpMethod);
    SuffixTells(c, 5, IntText(c.statusCode));
    SuffixTells(c, 6, OrNone(c.statusSource));
  }

  lemma LimitsAreTold(c: Call)
    ensures Told(Line(c), "ret_code") == Some(OptText(c.retCode))
    ensures Told(Line(c), "retry_reason") == Some(OrNone(c.retryReason))
    ensures Told(Line(c), "bapi_limit") == Some(OptText(c.bapiLimit))
    ensures Told(Line(c), "bapi_limit_status") == Some(OptText(c.bapiLimitStatus))
    ensures Told(Line(c), "bapi_limit_reset_ms") == Some(OptText(c.bapiLimitResetMs))
    ensures Told(Line(c), "headers_absent") == Some(if c.headersAbsent then "true" else "false")
  {
    hide Told, Line, Unescape, Escaped, IntText, OrNone, OptText;
    WordIsRead(OptText(c.retCode), true);
    WordIsRead(OrNone(c.retryReason), true);
    WordIsRead(OptText(c.bapiLimit), true);
    WordIsRead(OptText(c.bapiLimitStatus), true);
    WordIsRead(OptText(c.bapiLimitResetMs), true);
    FlagIsRead(c.headersAbsent);
    assert KEYS[17] == "ret_code" && KEYS[18] == "retry_reason" && KEYS[19] == "bapi_limit";
    assert KEYS[20] == "bapi_limit_status" && KEYS[21] == "bapi_limit_reset_ms" && KEYS[22] == "headers_absent";
    SuffixTells(c, 7, OptText(c.retCode));
    SuffixTells(c, 8, OrNone(c.retryReason));
    SuffixTells(c, 9, OptText(c.bapiLimit));
    SuffixTells(c, 10, OptText(c.bapiLimitStatus));
    SuffixTells(c, 11, OptText(c.bapiLimitResetMs));
    SuffixTells(c, 12, if c.headersAbsent then "true" else "false");
  }

  /**
   * Every entry of the record is found in its line under its own key, with
   * the escapes undone: numbers in decimal, what is absent or empty as the
   * word "none", and the message whenever the call did not succeed. There
   * are 21 fields, and one or two more for the message and the status.
   */
  lemma LineTellsTheRecord(c: Call)
    ensures var told := (key: string) => Told(Line(c), key);
            && told("service") == Some(if c.serviceTag == "" then "none" else c.serviceTag)
            && told("endpoint") == Some(c.endpoint) && told("caller") == Some(c.caller)
            && told("symbol") == Some(c.symbol) && told("interval") == Some(c.interval)
            && told("limit") == Some(IntText(c.limit)) && told("duration_ms") == Some(IntText(c.durationMs))
            && told("result") == Some(c.result)
            && (c.result != "OK" ==> told("retMsg") == Some(c.retMsg))
            && (c.result != "OK" && c.result != "RATE_LIMIT" ==> told("status") == Some(IntText(c.statusCode)))
            && told("logical_request_id") == Some(if c.requestId == "" then "none" else c.requestId)
            && told("attempt_index") == Some(IntText(c.attemptIndex))
            && told("total_attempts") == Some(IntText(c.totalAttempts))
            && told("method") == Some(c.httpMethod) && told("status_code") == Some(IntText(c.statusCode))
            && told("status_code_source") == Some(if c.statusSource == "" then "none" else c.statusSource)
            && told("ret_code") == Some(if c.retCode == None then "none" else IntText(c.retCode.value))
            && told("retry_reason") == Some(if c.retryReason == "" then "none" else c.retryReason)
            && told("bapi_limit") == Some(if c.bapiLimit == None then "none" else IntText(c.bapiLimit.value))
            && told("bapi_limit_status") == Some(if c.bapiLimitStatus == None then "none" else IntText(c.bapiLimitStatus.value))
            && told("bapi_limit_reset_ms") ==
               Some(if c.bapiLimitResetMs == None then "none" else IntText(c.bapiLimitResetMs.value))
            && told("headers_absent") == Some(if c.headersAbsent then "true" else "false")
    ensures ReadLine(Line(c)).Some?
    ensures |ReadLine(Line(c)).value| == if c.result == "OK" then 21 else if c.result == "RATE_LIMIT" then 22 else 23
  {
    hide Told, Line, IntText, ReadLine;
    LineIsReadable(c);
    FieldCount(c);
    hide Fields;
    OriginIsTold(c);
    RequestIsTold(c);
    FailureIsTold(c);
    AttemptIsTold(c);
    StatusIsTold(c);
    LimitsAreTold(c);
  }

  lemma BaseSpaces(c: Call)
    ensures forall f :: f in BaseFields(c) ==> ' ' !in f.value
  {
    hide Escaped, IntText, OrNone;
    WordHasNoSpace(OrNone(c.serviceTag));
    WordHasNoSpace(c.endpoint);
    WordHasNoSpace(c.caller);
    WordHasNoSpace(c.symbol);
    WordHasNoSpace(c.interval);
    WordHasNoSpace(c.result);
    NumberHasNoSpace(c.limit);
    NumberHasNoSpace(c.durationMs);
  }

  lemma SuffixSpaces(c: Call)
    ensures forall f :: f in SuffixFields(c) ==> ' ' !in f.value
  {
    hide Escaped, IntText, OrNone, OptText;
    WordHasNoSpace(OrNone(c.requestId));
    NumberHasNoSpace(c.attemptIndex);
    NumberHasNoSpace(c.totalAttempts);
    WordHasNoSpace(c.httpMethod);
    NumberHasNoSpace(c.statusCode);
    WordHasNoSpace(OrNone(c.statusSource));
    WordHasNoSpace(OptText(c.retCode));
    WordHasNoSpace(OrNone(c.retryReason));
    WordHasNoSpace(OptText(c.bapiLimit));
    WordHasNoSpace(OptText(c.bapiLimitStatus));
    WordHasNoSpace(OptText(c.bapiLimitResetMs));
    assert ' ' !in "1" && ' ' !in "true" && ' ' !in "false";
  }

  lemma WordHasNoSpace(s: string)
    ensures ' ' !in Word(s)
  {
    EscapedIsClean(s, true);
    hide Escaped;
  }

  lemma NumberHasNoSpace(n: int)
    ensures ' ' !in IntText(n)
  {
  }

  /**
   * Only the message may hold spaces: any other value is a single word, while
   * a message without backslash, equals sign or control character is printed
   * as it is.
   */
  lemma OnlyTheMessageHasSpaces(c: Call)
    ensures forall f :: f in Fields(c) && f.key != "retMsg" ==> ' ' !in f.value
    ensures c.result != "OK" && Clean(c.retMsg, false) && '\\' !in c.retMsg ==> Field("retMsg", c.retMsg) in Fields(c)
  {
    BaseSpaces(c);
    SuffixSpaces(c);
    NumberHasNoSpace(c.statusCode);
    PlainTextIsKept(c.retMsg, false);
    hide BaseFields, SuffixFields, Escaped, IntText, Clean;
    if c.result != "OK" {
      assert FailureFields(c)[0] in FailureFields(c);
    }
  }
}
