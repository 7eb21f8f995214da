// Several values of one object left without quotes: the repair of one leaves the text in which the next is repaired
// (src/flops_agent/tools/schema.py).
module BareValues {
  import opened ToolArguments
  import opened ToolRepair
  import Whitespace

  /** A bare value s[start..end], with the delimiter behind it at `stop`. */
  datatype Span = Span(start: nat, end: nat, stop: nat)

  predicate InText(s: string, v: Span) { v.start < v.end <= v.stop < |s| }

  function QuotedSpan(s: string, v: Span): (r: string)
    requires InText(s, v)
  {
    Requoted(s, v.start, v.end)
  }

  /** Where the delimiter is once the value is quoted. */
  function Behind(s: string, v: Span): (m: nat)
    requires InText(s, v)
  {
    v.start + |Quoted(CharsOf(s[v.start..v.end]))| + (v.stop - v.end)
  }

  /** Spans from the first to the last, each by its place in the text with the earlier ones quoted. */
  predicate InOrder(s: string, spans: seq<Span>)
    decreases |spans|
  {
    spans == [] ||
    (var v := spans[0];
     && InText(s, v)
     && (|spans| > 1 ==> spans[1].start >= Behind(s, v))
     && InOrder(QuotedSpan(s, v), spans[1..]))
  }

  /** The text with all of them quoted. */
  function RequotedAll(s: string, spans: seq<Span>): (r: string)
    requires InOrder(s, spans)
    decreases |spans|
  {
    if spans == [] then s else RequotedAll(QuotedSpan(s, spans[0]), spans[1..])
  }

  predicate BareSpan(s: string, v: Span) {
    InText(s, v) && BareAt(s, v.start, v.end) && EndsAt(s, v.end, v.stop) && AwaitsValue(s[..v.start])
  }

  /** Each of them is a value left bare. */
  predicate SeveralBare(s: string, spans: seq<Span>)
    requires InOrder(s, spans)
    decreases |spans|
  {
    spans == [] || (BareSpan(s, spans[0]) && SeveralBare(QuotedSpan(s, spans[0]), spans[1..]))
  }

  /** The first `n` characters and the last one are the same. */
  predicate SameEnds(s: string, r: string, n: nat) {
    n <= |s| && n <= |r| && r[..n] == s[..n] && (s != "" ==> r != "" && r[|r| - 1] == s[|s| - 1])
  }

  lemma SameEndsTwice(a: string, b: string, c: string, n: nat)
    requires SameEnds(a, b, n) && SameEnds(b, c, n)
    ensures SameEnds(a, c, n)
  {
  }

  lemma OneSameEnds(s: string, v: Span, n: nat)
    requires InText(s, v) && n <= v.start
    ensures SameEnds(s, QuotedSpan(s, v), n)
  {
    var r := QuotedSpan(s, v);
    var tail := s[v.end..];
    assert tail[|tail| - 1] == s[|s| - 1];
  }

  /** Quoting changes nothing before the first of them, and never the last character. */
  lemma {:induction false} AllSameEnds(s: string, spans: seq<Span>, n: nat)
    requires InOrder(s, spans) && n <= |s| && (spans != [] ==> n <= spans[0].start)
    ensures SameEnds(s, RequotedAll(s, spans), n)
    decreases |spans|
  {
    if spans != [] {
      var next := QuotedSpan(s, spans[0]);
      OneSameEnds(s, spans[0], n);
      AllSameEnds(next, spans[1..], n);
      SameEndsTwice(s, next, RequotedAll(next, spans[1..]), n);
    }
  }

  /** What the quoted value replaces, and what stays behind it. */
  lemma QuotedPrefix(s: string, v: Span)
    requires InText(s, v)
    ensures var next, m := QuotedSpan(s, v), Behind(s, v);
            && m <= |next| && next[m..] == s[v.stop..]
            && next[..m] == s[..v.start] + (Quoted(CharsOf(s[v.start..v.end])) + s[v.end..v.stop])
  {
    CutBehindSlice(s, v.start, v.end, v.stop, Quoted(CharsOf(s[v.start..v.end])));
  }

  lemma SpanSettles(s: string, v: Span, j: Json) returns (d: nat)
    requires BareSpan(s, v) && Valid(j) && v.start <= |Text(j)| && Text(j)[..v.start] == s[..v.start]
    ensures LexText(START, s[..v.start] + (Quoted(CharsOf(s[v.start..v.end])) + s[v.end..v.stop])) == At(d, false)
  {
    CleanPrefix(j, v.start);
    d := LexText(START, s[..v.start]).depth;
    QuotableSlice(s, v.start, v.end);
    ValueSettles(s[..v.start], CharsOf(s[v.start..v.end]), s[v.end..v.stop]);
  }

  lemma SpanBehind(s: string, v: Span, j: Json) returns (d: nat)
    requires BareSpan(s, v) && Valid(j) && v.start <= |Text(j)| && Text(j)[..v.start] == s[..v.start]
    ensures var next, m := QuotedSpan(s, v), Behind(s, v);
            m <= |next| && next[m..] == s[v.stop..] && LexText(START, next[..m]) == At(d, false)
  {
    d := SpanSettles(s, v, j);
    QuotedPrefix(s, v);
  }

  /** The colon of the next bare value lies behind any place where none is waiting. */
  lemma NextColon(s: string, m: nat, d: nat, p: nat) returns (c: nat)
    requires m <= p <= |s| && AwaitsValue(s[..p]) && LexText(START, s[..m]) == At(d, false)
    ensures m <= c < p && s[c] == ':'
    ensures !LexText(START, s[..c + 1]).bare && !LexText(START, s[..c]).inStr
  {
    c := WaitingColonOf(s, p);
    if c < m { ColonWaits(s, c, m); }
  }

  lemma CopiedFrom(s: string, m: nat, c: nat, t: string)
    requires m <= c <= |s|
    ensures s[m..c] + t == (s[0..c] + t)[m..]
  {
  }

  /** From a sound place on, the repair does what it does from the start, less what it copies. */
  lemma RepairFromPlace(s: string, m: nat, d: nat, p: nat, good: string, quotes: bool)
    requires m <= p <= |s| && AwaitsValue(s[..p]) && LexText(START, s[..m]) == At(d, false)
    requires RepairFrom(s, 0, false, false) == (good, quotes)
    ensures m <= |good| && RepairFrom(s, m, false, false) == (good[m..], quotes)
  {
    var c := NextColon(s, m, d, p);
    assert s[..0] == "";
    RepairCopies(s, 0, c, START);
    RepairCopies(s, m, c, At(d, false));
    CopiedFrom(s, m, c, RepairFrom(s, c, false, false).0);
  }

  lemma QuotesAndGoesOn(s: string, v: Span, good: string, m: nat)
    requires BareSpan(s, v) && m == Behind(s, v) <= |good|
    requires good[..m] == s[..v.start] + (Quoted(CharsOf(s[v.start..v.end])) + s[v.end..v.stop])
    requires RepairFrom(s, v.stop, false, false).0 == good[m..]
    ensures RepairFrom(s, 0, false, false) == (good, true)
  {
    RepairOfBare(s, v.start, v.end, v.stop);
    assert good == good[..m] + good[m..];
  }

  /** The repair of an object text with any number of values left bare is the text with all of them quoted. */
  lemma {:induction false} RepairRestoresAll(j: Json, s: string, spans: seq<Span>)
    requires Valid(j) && InOrder(s, spans) && SeveralBare(s, spans) && Text(j) == RequotedAll(s, spans)
    ensures RepairFrom(s, 0, false, false) == (Text(j), spans != [])
    decreases |spans|
  {
    if spans == [] {
      CleanPrefix(j, |s|);
      assert s[..|s|] == s && s[..0] == "" && s[0..] == s;
      RepairIsIdle(s, 0, START);
    } else {
      var v := spans[0];
      var next, m := QuotedSpan(s, v), Behind(s, v);
      AllSameEnds(s, spans, v.start);
      var d := SpanBehind(s, v, j);
      RepairRestoresAll(j, next, spans[1..]);
      RepairShift(s, v.stop, next, m, false, false);
      QuotedPrefix(s, v);
      RestOfAll(j, next, spans[1..], m, d);
      QuotesAndGoesOn(s, v, Text(j), m);
    }
  }

  lemma RestOfAll(j: Json, s: string, spans: seq<Span>, m: nat, d: nat)
    requires Valid(j) && InOrder(s, spans) && SeveralBare(s, spans) && Text(j) == RequotedAll(s, spans)
    requires m <= |s| && LexText(START, s[..m]) == At(d, false) && (spans != [] ==> m <= spans[0].start)
    requires RepairFrom(s, 0, false, false) == (Text(j), spans != [])
    ensures m <= |Text(j)| && Text(j)[..m] == s[..m]
    ensures RepairFrom(s, m, false, false) == (Text(j)[m..], spans != [])
  {
    AllSameEnds(s, spans, m);
    if spans == [] {
      CleanPrefix(j, |s|);
      assert s[..|s|] == s;
      IdleFrom(s, m, d);
    } else {
      AllSameEnds(s, spans, spans[0].start);
      RepairFromPlace(s, m, d, spans[0].start, Text(j), true);
    }
  }

  /** An object text in which any number of values, at any depth, were left without quotes is accepted as the object
      that has those texts as strings there. */
  lemma BareValuesAreRepaired(j: Json, s: string, spans: seq<Span>)
    requires Valid(j) && j.Obj? && spans != []
    requires InOrder(s, spans) && SeveralBare(s, spans) && Text(j) == RequotedAll(s, spans)
    ensures ParseToolArguments(ArgumentText(s)) == Parsed(Text(j), true)
  {
    var v := spans[0];
    RepairRestoresAll(j, s, spans);
    BareValueIsBare(s, v.start, v.end);
    BareIsUndecodable(s);
    ObjectDecodes(j);
    RepairedIsParsed(s, Text(j));
    BracedIsStrippedText(j, s, spans);
    StrippedIsParsed(s);
  }

  /** An object text with values left bare still starts and ends with its braces. */
  lemma BracedIsStrippedText(j: Json, s: string, spans: seq<Span>)
    requires j.Obj? && spans != [] && InOrder(s, spans) && SeveralBare(s, spans) && Text(j) == RequotedAll(s, spans)
    ensures s != "" && Whitespace.IsStripped(s)
  {
    WaitingIsNotEmpty(s, spans[0].start);
    AllSameEnds(s, spans, spans[0].start);
    BracesStay(s, Text(j), spans[0].start);
  }

  lemma BracesStay(s: string, t: string, n: nat)
    requires SameEnds(s, t, n) && n > 0 && t[0] == '{' && t[|t| - 1] == '}'
    ensures s != "" && Whitespace.IsStripped(s)
  {
    assert t[..n][0] == s[..n][0];
  }

  lemma WaitingIsNotEmpty(s: string, p: nat)
    requires p <= |s| && AwaitsValue(s[..p])
    ensures p > 0
  {
    var _ := WaitingColonOf(s, p);
  }
}
