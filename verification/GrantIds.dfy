/**
 * The text form of grant ids and of witness file names: reading back what was
 * written gives the same id, so the protocol may treat an id as its pair.
 */
module GrantIds {
  import opened Basics
  import opened LimiterState
  import opened Text

  // ----------------------------------------------------------------- grant ids

  /** The id as the limiter writes it. */
  function GidText(g: Gid): string {
    "e" + Decimal(g.epoch) + ":" + Decimal(g.num)
  }

  function ParseNumber(s: string): Option<nat> {
    if s != "" && AllDigits(s) then Some(DecimalValue(s)) else None
  }

  /** The epoch embedded in an id; None for text that is not an id. */
  function GidEpoch(text: string): Option<nat> {
    match SplitAt(text, ':')
    case None => None
    case Some((head, _)) => if head != "" && head[0] == 'e' then ParseNumber(head[1..]) else None
  }

  function GidNumber(text: string): Option<nat> {
    match SplitAt(text, ':')
    case None => None
    case Some((_, tail)) => ParseNumber(tail)
  }

  /** The embedded epoch and number are the ones the id was issued with. */
  lemma GidTextRoundTrip(g: Gid)
    ensures GidEpoch(GidText(g)) == Some(g.epoch) && GidNumber(GidText(g)) == Some(g.num)
  {
    DecimalRoundTrip(g.epoch);
    DecimalRoundTrip(g.num);
    var head := "e" + Decimal(g.epoch);
    assert head[1..] == Decimal(g.epoch);
    assert ':' !in head;
    assert GidText(g) == head + [':'] + Decimal(g.num);
    SplitAtJoin(head, ':', Decimal(g.num));
  }

  /** The spelling: an e, the epoch, a colon and the number, and dots and a dash in the witness name. */
  lemma Spelling()
    ensures GidText(Gid(12, 7)) == "e12:7"
    ensures WitnessName("limiter.json", "e12:7") == "limiter.json.e12-7.witness"
  {
    assert Decimal(12) == Decimal(1) + [Digit(2)];
    assert Replace("e12:7", ':', '-') == "e12-7";
  }

  /** Distinct grants have distinct ids. */
  lemma GidTextInjective(g: Gid, h: Gid)
    requires GidText(g) == GidText(h)
    ensures g == h
  {
    GidTextRoundTrip(g);
    GidTextRoundTrip(h);
  }

  // ------------------------------------------------------------- witness names

  function Replace(s: string, a: char, b: char): (t: string)
    ensures |t| == |s|
  {
    seq(|s|, i requires 0 <= i < |s| => if s[i] == a then b else s[i])
  }

  const SUFFIX := ".witness"

  function Prefix(stateFile: string): string { stateFile + "." }

  /** Name of the witness file of a grant, next to the state file. */
  function WitnessName(stateFile: string, gid: string): string {
    Prefix(stateFile) + Replace(gid, ':', '-') + SUFFIX
  }

  predicate StartsWith(s: string, p: string) { |p| <= |s| && s[..|p|] == p }

  predicate EndsWith(s: string, p: string) { |p| <= |s| && s[|s| - |p|..] == p }

  /** The part of a file name between prefix and suffix; empty when they overlap. */
  function Middle(stateFile: string, name: string): string {
    var p := Prefix(stateFile);
    if |p| + |SUFFIX| <= |name| then name[|p|..|name| - |SUFFIX|] else ""
  }

  /** The id a pruner reads off a file name; None when the name is not a witness of this state file. */
  function PrunedGid(stateFile: string, name: string): Option<string> {
    if StartsWith(name, Prefix(stateFile)) && EndsWith(name, SUFFIX)
    then Some(Replace(Middle(stateFile, name), '-', ':'))
    else None
  }

  lemma ReplaceUndone(s: string)
    requires '-' !in s
    ensures Replace(Replace(s, ':', '-'), '-', ':') == s
  {
  }

  lemma NoDash(g: Gid)
    ensures '-' !in GidText(g)
  {
  }

  lemma MiddleOfJoin(stateFile: string, m: string)
    ensures var name := Prefix(stateFile) + m + SUFFIX;
            StartsWith(name, Prefix(stateFile)) && EndsWith(name, SUFFIX) && Middle(stateFile, name) == m
  {
    var name := Prefix(stateFile) + m + SUFFIX;
    assert name[..|Prefix(stateFile)|] == Prefix(stateFile);
    assert name[|name| - |SUFFIX|..] == SUFFIX;
    assert name[|Prefix(stateFile)|..|name| - |SUFFIX|] == m;
  }

  /** id -> witness name -> id is the identity on every issued id. */
  lemma WitnessNameRoundTrip(stateFile: string, g: Gid)
    ensures PrunedGid(stateFile, WitnessName(stateFile, GidText(g))) == Some(GidText(g))
  {
    NoDash(g);
    ReplaceUndone(GidText(g));
    MiddleOfJoin(stateFile, Replace(GidText(g), ':', '-'));
  }

  /** Writing dashes for colons undoes reading colons for dashes, unless a colon was there already. */
  lemma ReplaceUndoneBack(m: string, text: string)
    requires text == Replace(m, '-', ':')
    ensures Replace(text, ':', '-') == m <==> ':' !in m
  {
    if ':' in m {
      var i :| 0 <= i < |m| && m[i] == ':';
      assert text[i] == ':';
      assert Replace(text, ':', '-')[i] == '-';
    }
  }

  lemma NameIsJoin(stateFile: string, name: string)
    requires StartsWith(name, Prefix(stateFile)) && EndsWith(name, SUFFIX)
    requires |Prefix(stateFile)| + |SUFFIX| <= |name|
    ensures name == Prefix(stateFile) + Middle(stateFile, name) + SUFFIX
  {
    hide Prefix;
    var k, l := |Prefix(stateFile)|, |name| - |SUFFIX|;
    assert name == name[..k] + name[k..l] + name[l..];
  }

  lemma JoinCancel(p: string, a: string, b: string, s: string)
    requires p + a + s == p + b + s
    ensures a == b
  {
    assert |a| == |b|;
    assert (p + a + s)[|p|..|p| + |a|] == a;
    assert (p + b + s)[|p|..|p| + |b|] == b;
  }

  /**
   * A name read as g's witness is g's witness exactly when its middle part
   * has no colon: a file spelled with the colon itself is read as the same id.
   */
  lemma PrunedNameIsTheWitness(stateFile: string, name: string, g: Gid)
    requires PrunedGid(stateFile, name) == Some(GidText(g))
    ensures name == WitnessName(stateFile, GidText(g)) <==> ':' !in Middle(stateFile, name)
  {
    var m := Middle(stateFile, name);
    assert |m| > 0 by {
      assert |GidText(g)| == |m|;
    }
    hide GidText, Replace, Prefix, StartsWith, EndsWith;
    NameIsJoin(stateFile, name);
    ReplaceUndoneBack(m, GidText(g));
    if name == WitnessName(stateFile, GidText(g)) {
      JoinCancel(Prefix(stateFile), m, Replace(GidText(g), ':', '-'), SUFFIX);
    }
  }
}
