// How the argument repair quotes a value that was written without quotes, and that it looks only ahead
// (src/flops_agent/tools/schema.py).
module ToolRepair {
  import opened Whitespace
  import opened ToolArguments

  // ----- Quoting a bare text --------------------------------------------------------

  /** The JSON string character a bare character is written as. */
  function CharOf(c: char): (r: StrChar)
    ensures CharText(r) == EscapeChar(c)
  {
    if c == '\\' then Escaped('\\') else if c == '"' then Escaped('"') else if c == '\r' then Escaped('r')
    else if c == '\n' then Escaped('n') else if c == '\t' then Escaped('t') else Plain(c)
  }

  function CharsOf(s: string): (r: seq<StrChar>)
    ensures |r| == |s| && forall i :: 0 <= i < |s| ==> r[i] == CharOf(s[i])
  {
    seq(|s|, i requires 0 <= i < |s| => CharOf(s[i]))
  }

  /** The character a JSON string character stands for, of those the repair writes. */
  function Meaning(c: StrChar): (r: char) {
    match c
    case Plain(ch) => ch
    case Escaped(ch) => if ch == 'r' then '\r' else if ch == 'n' then '\n' else if ch == 't' then '\t' else ch
    case Hex(_) => ' '
  }

  /** Anything but a control character, three of which the repair escapes. */
  predicate QuotableChar(c: char) { c >= ' ' || c == '\r' || c == '\n' || c == '\t' }

  predicate Quotable(s: string) { forall i :: 0 <= i < |s| ==> QuotableChar(s[i]) }

  lemma {:induction false} EscapedIsCharsText(s: string)
    ensures EscapeBare(s) == CharsText(CharsOf(s))
    decreases |s|
  {
    if s != "" {
      EscapedIsCharsText(s[..|s| - 1]);
      assert CharsOf(s)[..|s| - 1] == CharsOf(s[..|s| - 1]);
    }
  }

  lemma CharIsValidIff(c: char)
    ensures ValidChar(CharOf(c)) <==> QuotableChar(c)
    ensures Meaning(CharOf(c)) == c
  {
  }

  /** A quoted bare text is a JSON string, with exactly the bare text as its value, iff the text holds no other
      control character. */
  lemma QuotedIsJsonIff(s: string)
    ensures "\"" + EscapeBare(s) + "\"" == Quoted(CharsOf(s))
    ensures ValidChars(CharsOf(s)) <==> Quotable(s)
    ensures forall i :: 0 <= i < |s| ==> Meaning(CharsOf(s)[i]) == s[i]
  {
    EscapedIsCharsText(s);
    CharsAreValidIff(s);
  }

  lemma CharsAreValidIff(s: string)
    ensures ValidChars(CharsOf(s)) <==> Quotable(s)
    ensures forall i :: 0 <= i < |s| ==> Meaning(CharsOf(s)[i]) == s[i]
  {
    var chars := CharsOf(s);
    forall i | 0 <= i < |s|
      ensures ValidChar(chars[i]) <==> QuotableChar(s[i])
      ensures Meaning(chars[i]) == s[i]
    {
      CharIsValidIff(s[i]);
    }
  }

  // ----- A value without quotes -----------------------------------------------------

  /** s[p..e] is what the repair takes for one bare value: no JSON value starts like it, no delimiter inside, no
      white space at its ends, no control character it cannot quote. */
  predicate BareAt(s: string, p: nat, e: nat) {
    && p < e <= |s|
    && s[p] != '"' && s[p] != '{' && s[p] != '[' && s[p] != '-' && !('0' <= s[p] <= '9')
    && s[p] != 't' && s[p] != 'f' && s[p] != 'n' && !IsJsonSpace(s[p]) && !IsPythonSpace(s[e - 1])
    && forall i :: p <= i < e ==> s[i] != ',' && s[i] != '}' && s[i] != ']' && QuotableChar(s[i])
  }

  /** Behind it come white space and, at `k`, a delimiter. */
  predicate EndsAt(s: string, e: nat, k: nat) {
    e <= k < |s| && (s[k] == ',' || s[k] == '}' || s[k] == ']') && forall i :: e <= i < k ==> IsJsonSpace(s[i])
  }

  /** The text ends behind a colon that waits for its value, outside strings and without an earlier fault. */
  predicate AwaitsValue(before: string) {
    var st := LexText(START, before);
    st.colon && !st.inStr && !st.bare
  }

  /** The text with s[p..e] quoted. */
  function Requoted(s: string, p: nat, e: nat): (r: string)
    requires p <= e <= |s|
  {
    s[..p] + (Quoted(CharsOf(s[p..e])) + s[e..])
  }

  lemma {:induction false} ColonIsOutsideStrings(s: string)
    ensures LexText(START, s).inStr ==> !LexText(START, s).colon
    decreases |s|
  {
    if s != "" { ColonIsOutsideStrings(s[..|s| - 1]); }
  }

  /** The colon that is waiting. */
  lemma {:induction false} WaitingColon(s: string) returns (c: nat)
    requires AwaitsValue(s)
    ensures c < |s| && s[c] == ':' && (forall k :: c < k < |s| ==> IsJsonSpace(s[k]))
    ensures !LexText(START, s[..c]).inStr && !LexText(START, s[..c]).colon
    decreases |s|
  {
    var n := |s| - 1;
    var st := LexText(START, s[..n]);
    ColonIsOutsideStrings(s[..n]);
    if st.colon && IsJsonSpace(s[n]) {
      c := WaitingColon(s[..n]);
      assert s[..n][..c] == s[..c];
    } else {
      c := n;
    }
  }

  lemma CopyChar(s: string, i: nat, c: nat, st: Lex, rest: (string, bool))
    requires i < c < |s| && (st.inStr || s[i] != ':')
    requires (st.colon ==> IsValueStart(s[i]) && !st.inStr) && (st.esc ==> st.inStr)
    requires var next := LexStep(st, s[i]);
             RepairFrom(s, i + 1, next.inStr, next.esc) == Continued(s[i + 1..c], false, rest)
    ensures RepairFrom(s, i, st.inStr, st.esc) == Continued(s[i..c], false, rest)
  {
    OrdinaryStep(st, s[i]);
    RepairChar(s, i, st.inStr, st.esc);
    ContinuedTwice([s[i]], false, s[i + 1..c], false, rest);
    assert s[i..c] == [s[i]] + s[i + 1..c];
  }

  lemma NextState(s: string, i: nat, st: Lex)
    requires i < |s| && st == LexText(START, s[..i]) && (st.inStr || s[i] != ':')
    requires (st.colon ==> IsValueStart(s[i]) && !st.inStr) && (st.esc ==> st.inStr)
    ensures LexStep(st, s[i]) == LexText(START, s[..i + 1]) && !LexStep(st, s[i]).colon
  {
    LexSnoc(s, i);
    OrdinaryStep(st, s[i]);
  }

  lemma CopyColon(s: string, i: nat, j: nat, c: nat, rest: (string, bool))
    requires i < c < |s| && s[i] == ':' && j == SkipSpace(s, i + 1) <= c && IsValueStart(s[j])
    requires RepairFrom(s, j, false, false) == Continued(s[j..c], false, rest)
    ensures RepairFrom(s, i, false, false) == Continued(s[i..c], false, rest)
  {
    RepairColon(s, i, false);
    ContinuedTwice(s[i..j], false, s[j..c], false, rest);
    assert s[i..c] == s[i..j] + s[j..c];
  }

  /** A value that starts behind a colon. */
  lemma StartBehindColon(s: string, i: nat, c: nat, st: Lex) returns (j: nat)
    requires i < c < |s| && s[i] == s[c] == ':' && st == LexText(START, s[..i]) && !st.inStr && !st.colon
    requires !LexText(START, s[..c + 1]).bare
    ensures i < j == SkipSpace(s, i + 1) <= c && IsValueStart(s[j])
    ensures LexText(START, s[..j]).colon && !LexText(START, s[..j]).inStr && !LexText(START, s[..j]).esc
  {
    j := SkipSpace(s, i + 1);
    SkipStopsBefore(s, i + 1, c);
    ColonWaits(s, i, j);
    StartsValue(s, j, c + 1);
    EscOnlyInString(s[..j]);
  }

  /** Up to a colon outside strings the repair copies what it reads. */
  lemma {:induction false} RepairCopies(s: string, i: nat, c: nat, st: Lex)
    requires i <= c < |s| && s[c] == ':' && st == LexText(START, s[..i])
    requires !LexText(START, s[..c + 1]).bare && !LexText(START, s[..c]).inStr
    requires st.colon ==> IsValueStart(s[i]) && !st.inStr
    ensures RepairFrom(s, i, st.inStr, st.esc) == Continued(s[i..c], false, RepairFrom(s, c, false, false))
    decreases c - i
  {
    var rest := RepairFrom(s, c, false, false);
    EscOnlyInString(s[..i]);
    if i == c {
      NothingCopied(s, c, rest);
    } else if st.inStr || s[i] != ':' {
      NextState(s, i, st);
      RepairCopies(s, i + 1, c, LexStep(st, s[i]));
      CopyChar(s, i, c, st, rest);
    } else {
      var j := StartBehindColon(s, i, c, st);
      RepairCopies(s, j, c, LexText(START, s[..j]));
      CopyColon(s, i, j, c, rest);
    }
  }

  lemma NothingCopied(s: string, c: nat, rest: (string, bool))
    requires c <= |s|
    ensures Continued(s[c..c], false, rest) == rest
  {
    assert s[c..c] + rest.0 == rest.0;
  }

  lemma SkipStopsBefore(s: string, i: nat, c: nat)
    requires i <= c < |s| && !IsJsonSpace(s[c])
    ensures SkipSpace(s, i) <= c
  {
  }

  lemma StartsValue(s: string, j: nat, m: nat)
    requires j < m <= |s| && !LexText(START, s[..m]).bare && !IsJsonSpace(s[j])
    requires LexText(START, s[..j]).colon && !LexText(START, s[..j]).inStr
    ensures IsValueStart(s[j])
  {
    var p := s[..m];
    assert p[..j] == s[..j];
    ColonThenStart(p, j);
  }

  // ----- The repair only looks ahead --------------------------------------------------

  lemma {:induction false} SkipShift(s: string, i: nat, t: string, j: nat)
    requires i <= |s| && j <= |t| && s[i..] == t[j..]
    ensures SkipSpace(s, i) - i == SkipSpace(t, j) - j
    decreases |s| - i
  {
    SameAhead(s, i, t, j);
    if i < |s| && IsJsonSpace(s[i]) { SkipShift(s, i + 1, t, j + 1); }
  }

  lemma {:induction false} DelimiterShift(s: string, i: nat, t: string, j: nat)
    requires i <= |s| && j <= |t| && s[i..] == t[j..]
    ensures NextDelimiter(s, i) - i == NextDelimiter(t, j) - j
    decreases |s| - i
  {
    SameAhead(s, i, t, j);
    if i < |s| && !IsDelimiter(s[i]) { DelimiterShift(s, i + 1, t, j + 1); }
  }

  lemma SameAhead(s: string, i: nat, t: string, j: nat)
    requires i <= |s| && j <= |t| && s[i..] == t[j..]
    ensures |s| - i == |t| - j
    ensures i < |s| ==> s[i] == t[j] && s[i + 1..] == t[j + 1..]
  {
    assert |s[i..]| == |t[j..]|;
    if i < |s| {
      assert s[i] == s[i..][0] == t[j..][0] == t[j];
      assert s[i + 1..] == s[i..][1..] == t[j..][1..] == t[j + 1..];
    }
  }

  lemma SameFurtherAhead(s: string, i: nat, t: string, j: nat, n: nat)
    requires i <= |s| && j <= |t| && s[i..] == t[j..] && i + n <= |s|
    ensures |s| - i == |t| - j && s[i + n..] == t[j + n..] && s[i..i + n] == t[j..j + n]
  {
    SameAhead(s, i, t, j);
    assert s[i + n..] == s[i..][n..] && t[j + n..] == t[j..][n..];
    assert s[i..i + n] == s[i..][..n] && t[j..j + n] == t[j..][..n];
  }

  /** From the same text on, the scan finds the same value start and the same delimiter. */
  lemma ColonShift(s: string, i: nat, t: string, j: nat, n: nat)
    requires i < |s| && j < |t| && s[i..] == t[j..] && i + n == SkipSpace(s, i + 1)
    ensures j + n == SkipSpace(t, j + 1) && s[i..i + n] == t[j..j + n] && s[i + n..] == t[j + n..]
    ensures i + n == |s| <==> j + n == |t|
    ensures i + n < |s| ==> s[i + n] == t[j + n]
  {
    SameAhead(s, i, t, j);
    SkipShift(s, i + 1, t, j + 1);
    SameFurtherAhead(s, i, t, j, n);
    SameAhead(s, i + n, t, j + n);
  }

  lemma ShiftChar(s: string, i: nat, t: string, j: nat, inStr: bool, esc: bool)
    requires i < |s| && j < |t| && s[i] == t[j] && (inStr || s[i] != ':')
    requires var stays := if inStr then esc || s[i] != '"' else s[i] == '"';
             var escapes := inStr && !esc && s[i] == '\\';
             RepairFrom(s, i + 1, stays, escapes) == RepairFrom(t, j + 1, stays, escapes)
    ensures RepairFrom(s, i, inStr, esc) == RepairFrom(t, j, inStr, esc)
  {
    RepairChar(s, i, inStr, esc);
    RepairChar(t, j, inStr, esc);
  }

  /** What the repair does at a colon: where it goes on, what it writes, and whether it quotes. */
  datatype Move = Move(next: nat, text: string, quotes: bool)

  function MoveAt(s: string, i: nat): (m: Move)
    requires i < |s| && s[i] == ':'
    ensures i < m.next <= |s|
  {
    var j := SkipSpace(s, i + 1);
    if j == |s| || IsValueStart(s[j]) then Move(j, s[i..j], false)
    else
      var k := NextDelimiter(s, j);
      Move(k, s[i..j] + QuoteBare(s[j..k]), true)
  }

  lemma RepairMoves(s: string, i: nat, esc: bool)
    requires i < |s| && s[i] == ':'
    ensures var m := MoveAt(s, i);
            RepairFrom(s, i, false, esc) == Continued(m.text, m.quotes, RepairFrom(s, m.next, false, false))
  {
    RepairColon(s, i, esc);
  }

  lemma MoveToStart(s: string, i: nat, n: nat, copied: string)
    requires i < |s| && s[i] == ':' && i + n == SkipSpace(s, i + 1) && s[i..i + n] == copied
    requires i + n == |s| || IsValueStart(s[i + n])
    ensures MoveAt(s, i) == Move(i + n, copied, false)
  {
  }

  lemma MoveOverBare(s: string, i: nat, n: nat, m: nat, copied: string, raw: string)
    requires i < |s| && s[i] == ':' && i + n == SkipSpace(s, i + 1) < |s| && s[i..i + n] == copied
    requires !IsValueStart(s[i + n]) && i + n + m == NextDelimiter(s, i + n) && s[i + n..i + n + m] == raw
    ensures MoveAt(s, i) == Move(i + n + m, copied + QuoteBare(raw), true)
  {
  }

  lemma MoveShift(s: string, i: nat, t: string, j: nat)
    requires i < |s| && j < |t| && s[i..] == t[j..] && s[i] == t[j] == ':'
    ensures var m, n := MoveAt(s, i), MoveAt(t, j);
            m.next - i == n.next - j && m.text == n.text && m.quotes == n.quotes && s[m.next..] == t[n.next..]
  {
    var n := SkipSpace(s, i + 1) - i;
    ColonShift(s, i, t, j, n);
    var copied := s[i..i + n];
    if i + n == |s| || IsValueStart(s[i + n]) {
      MoveToStart(s, i, n, copied);
      MoveToStart(t, j, n, copied);
    } else {
      var _, _ := MoveShiftBare(s, i, t, j, n, copied);
    }
  }

  lemma MoveShiftBare(s: string, i: nat, t: string, j: nat, n: nat, copied: string) returns (m: nat, text: string)
    requires i < |s| && j < |t| && s[i] == t[j] == ':' && i + n == SkipSpace(s, i + 1) && j + n == SkipSpace(t, j + 1)
    requires i + n < |s| && j + n < |t| && !IsValueStart(s[i + n]) && !IsValueStart(t[j + n])
    requires s[i..i + n] == copied == t[j..j + n] && s[i + n..] == t[j + n..]
    ensures MoveAt(s, i) == Move(i + n + m, text, true) && MoveAt(t, j) == Move(j + n + m, text, true)
    ensures i + n + m <= |s| && j + n + m <= |t| && s[i + n + m..] == t[j + n + m..]
  {
    m := NextDelimiter(s, i + n) - (i + n);
    BareShift(s, i + n, t, j + n, m);
    var raw := s[i + n..i + n + m];
    MoveOverBare(s, i, n, m, copied, raw);
    MoveOverBare(t, j, n, m, copied, raw);
    text := copied + QuoteBare(raw);
  }

  /** The repair from some place on depends on nothing before it. */
  lemma {:induction false} RepairShift(s: string, i: nat, t: string, j: nat, inStr: bool, esc: bool)
    requires i <= |s| && j <= |t| && s[i..] == t[j..]
    ensures RepairFrom(s, i, inStr, esc) == RepairFrom(t, j, inStr, esc)
    decreases |s| - i
  {
    SameAhead(s, i, t, j);
    if i < |s| {
      if inStr || s[i] != ':' {
        var stays := if inStr then esc || s[i] != '"' else s[i] == '"';
        RepairShift(s, i + 1, t, j + 1, stays, inStr && !esc && s[i] == '\\');
        ShiftChar(s, i, t, j, inStr, esc);
      } else {
        MoveShift(s, i, t, j);
        RepairShift(s, MoveAt(s, i).next, t, MoveAt(t, j).next, false, false);
        SameMove(s, i, t, j, MoveAt(s, i), MoveAt(t, j), esc);
      }
    }
  }

  lemma SameMove(s: string, i: nat, t: string, j: nat, m: Move, n: Move, esc: bool)
    requires i < |s| && j < |t| && s[i] == t[j] == ':' && m == MoveAt(s, i) && n == MoveAt(t, j)
    requires m.text == n.text && m.quotes == n.quotes
    requires RepairFrom(s, m.next, false, false) == RepairFrom(t, n.next, false, false)
    ensures RepairFrom(s, i, false, esc) == RepairFrom(t, j, false, esc)
  {
    RepairMoves(s, i, esc);
    RepairMoves(t, j, esc);
  }

  lemma BareShift(s: string, i: nat, t: string, j: nat, m: nat)
    requires i <= |s| && j <= |t| && s[i..] == t[j..] && i + m == NextDelimiter(s, i)
    ensures j + m == NextDelimiter(t, j) && s[i..i + m] == t[j..j + m] && s[i + m..] == t[j + m..]
  {
    DelimiterShift(s, i, t, j);
    SameFurtherAhead(s, i, t, j, m);
  }

  // ----- The repaired text ------------------------------------------------------------

  lemma StripsTo(raw: string, n: nat)
    requires 0 < n <= |raw| && !IsPythonSpace(raw[n - 1]) && forall i :: n <= i < |raw| ==> IsPythonSpace(raw[i])
    ensures RStrip(raw) == raw[..n]
  {
    var r := RStrip(raw);
    assert |r| == n;
    assert r == raw[..|r|];
  }

  lemma QuotesBare(s: string, p: nat, e: nat, k: nat)
    requires BareAt(s, p, e) && EndsAt(s, e, k)
    ensures QuoteBare(s[p..k]) == Quoted(CharsOf(s[p..e])) + s[e..k]
  {
    var raw := s[p..k];
    StripsTo(raw, e - p);
    assert raw[..e - p] == s[p..e] && raw[e - p..] == s[e..k];
    EscapedIsCharsText(s[p..e]);
  }

  /** Where the scan stops: at the bare text, and at the delimiter behind it. */
  lemma BareScan(s: string, c: nat, p: nat, e: nat, k: nat)
    requires BareAt(s, p, e) && EndsAt(s, e, k)
    requires c < p && s[c] == ':' && forall i :: c < i < p ==> IsJsonSpace(s[i])
    ensures SkipSpace(s, c + 1) == p && NextDelimiter(s, p) == k
  {
  }

  lemma MovesTo(s: string, c: nat, m: Move)
    requires c < |s| && s[c] == ':' && m == MoveAt(s, c)
    ensures RepairFrom(s, c, false, false) == Continued(m.text, m.quotes, RepairFrom(s, m.next, false, false))
  {
    RepairMoves(s, c, false);
  }

  /** At the waiting colon the repair quotes the bare text and goes on behind it. */
  lemma RepairQuotes(s: string, c: nat, p: nat, e: nat, k: nat)
    requires BareAt(s, p, e) && EndsAt(s, e, k)
    requires c < p && s[c] == ':' && forall i :: c < i < p ==> IsJsonSpace(s[i])
    ensures RepairFrom(s, c, false, false) ==
            Continued(s[c..p] + (Quoted(CharsOf(s[p..e])) + s[e..k]), true, RepairFrom(s, k, false, false))
  {
    BareScan(s, c, p, e, k);
    QuotesBare(s, p, e, k);
    MovesTo(s, c, Move(k, s[c..p] + (Quoted(CharsOf(s[p..e])) + s[e..k]), true));
  }

  /** What is copied before the colon, what is quoted, and what follows. */
  lemma RepairOfBare(s: string, p: nat, e: nat, k: nat)
    requires BareAt(s, p, e) && EndsAt(s, e, k) && AwaitsValue(s[..p])
    ensures RepairFrom(s, 0, false, false) ==
            Continued(s[..p] + (Quoted(CharsOf(s[p..e])) + s[e..k]), true, RepairFrom(s, k, false, false))
  {
    var c := WaitingColonOf(s, p);
    RepairCopies(s, 0, c, START);
    RepairQuotes(s, c, p, e, k);
    CopiedAndQuoted(s, c, p, Quoted(CharsOf(s[p..e])) + s[e..k], RepairFrom(s, k, false, false));
  }

  lemma CopiedAndQuoted(s: string, c: nat, p: nat, quoted: string, rest: (string, bool))
    requires c <= p <= |s|
    ensures Continued(s[0..c], false, Continued(s[c..p] + quoted, true, rest)) == Continued(s[..p] + quoted, true, rest)
  {
    ContinuedTwice(s[0..c], false, s[c..p] + quoted, true, rest);
    assert s[..p] == s[0..c] + s[c..p];
    SameConcat(s[0..c], s[c..p], quoted);
  }

  lemma SameConcat(a: string, b: string, c: string)
    ensures (a + b) + c == a + (b + c)
  {
  }

  lemma WaitingColonOf(s: string, p: nat) returns (c: nat)
    requires p <= |s| && AwaitsValue(s[..p])
    ensures c < p && s[c] == ':' && (forall i :: c < i < p ==> IsJsonSpace(s[i]))
    ensures s[..0] == "" && !LexText(START, s[..c + 1]).bare
    ensures !LexText(START, s[..c]).inStr && !LexText(START, s[..c]).colon
  {
    var before := s[..p];
    c := WaitingColon(before);
    assert before[..c + 1] == s[..c + 1] && before[..c] == s[..c];
    FlagsStickFrom(before, c + 1);
    forall i | c < i < p ensures IsJsonSpace(s[i]) { assert before[i] == s[i]; }
  }

  // ----- Behind the value ---------------------------------------------------------------

  lemma LexOne(st: Lex, c: char)
    ensures LexText(st, [c]) == LexStep(st, c)
  {
    assert [c][..0] == "";
  }

  lemma OpensString(d: nat)
    ensures LexStep(At(d, true), '"') == InString(d) && LexStep(At(d, false), '"') == InString(d)
  {
  }

  lemma QuotedSettlesColon(d: nat, chars: seq<StrChar>)
    requires ValidChars(chars)
    ensures LexText(At(d, true), Quoted(chars)) == At(d, false)
  {
    var rest := CharsText(chars) + ['"'];
    assert Quoted(chars) == ['"'] + rest by {
      assert "\"" == ['"'];
      SameConcat(['"'], CharsText(chars), ['"']);
    }
    LexConcat(At(d, true), ['"'], rest);
    LexConcat(At(d, false), ['"'], rest);
    LexOne(At(d, true), '"');
    LexOne(At(d, false), '"');
    OpensString(d);
    WalkQuoted(d, chars);
    assert LexText(At(d, false), Quoted(chars)) == At(d, false);
  }

  /** Behind a value the automaton is outside strings again, as it was before the colon. */
  lemma ValueSettles(before: string, chars: seq<StrChar>, space: string)
    requires AwaitsValue(before) && CleanAt(0, LexText(START, before))
    requires ValidChars(chars) && IsSpace(space)
    ensures LexText(START, before + (Quoted(chars) + space)) == At(LexText(START, before).depth, false)
  {
    var d := LexText(START, before).depth;
    EscOnlyInString(before);
    QuotedSettlesColon(d, chars);
    WalkSpace(d, false, space);
    LexConcat(At(d, true), Quoted(chars), space);
    LexConcat(START, before, Quoted(chars) + space);
  }

  lemma IdleFrom(good: string, k: nat, d: nat)
    requires k <= |good| && LexText(START, good[..k]) == At(d, false) && !LexText(START, good).bare
    ensures RepairFrom(good, k, false, false) == (good[k..], false)
  {
    RepairIsIdle(good, k, At(d, false));
  }

  lemma QuotableSlice(s: string, p: nat, e: nat)
    requires BareAt(s, p, e)
    ensures ValidChars(CharsOf(s[p..e]))
  {
    CharsAreValidIff(s[p..e]);
  }

  lemma CutBehindSlice(s: string, p: nat, e: nat, k: nat, quoted: string)
    requires p <= e <= k <= |s|
    ensures var r := s[..p] + (quoted + s[e..]);
            var m := p + |quoted| + (k - e);
            m <= |r| && r[..m] == s[..p] + (quoted + s[e..k]) && r[m..] == s[k..]
  {
    CutBehind(s[..p], quoted, s[e..], k - e);
    assert s[e..][..k - e] == s[e..k] && s[e..][k - e..] == s[k..];
  }

  lemma CutBehind(before: string, quoted: string, behind: string, n: nat)
    requires n <= |behind|
    ensures var r := before + (quoted + behind);
            var m := |before| + |quoted| + n;
            m <= |r| && r[..m] == before + (quoted + behind[..n]) && r[m..] == behind[n..]
  {
  }

  // ----- Its classification -----------------------------------------------------------

  /** No JSON text has a value that starts like none. */
  lemma BareIsUndecodable(s: string)
    requires LexText(START, s).bare
    ensures Loads(s) == SyntaxError
  {
    forall doc: Document | doc.Correct() ensures doc.Source() != s { DocumentHasNoBareValue(doc); }
  }

  lemma DocumentHasNoBareValue(doc: Document)
    requires doc.Correct()
    ensures !LexText(START, doc.Source()).bare
  {
    WalkSpace(0, false, doc.lead);
    WalkValue(0, doc.value);
    WalkSpace(0, false, doc.trail);
    LexConcat(START, doc.lead, Text(doc.value));
    LexConcat(START, doc.lead + Text(doc.value), doc.trail);
  }

  lemma BareValueIsBare(s: string, p: nat, e: nat)
    requires BareAt(s, p, e) && AwaitsValue(s[..p])
    ensures LexText(START, s).bare
  {
    LexSnoc(s, p);
    FlagsStickFrom(s, p + 1);
  }

  lemma RepairedIsParsed(text: string, good: string)
    requires Loads(text) == SyntaxError && Loads(good) == Object
    requires RepairFrom(text, 0, false, false) == (good, true)
    ensures ParseText(text) == Parsed(good, true)
  {
  }

  lemma StrippedIsParsed(text: string)
    requires text != "" && IsStripped(text)
    ensures ParseToolArguments(ArgumentText(text)) == ParseText(text)
  {
    StripIsIdleIff(text);
  }

  lemma CleanPrefix(j: Json, n: nat)
    requires Valid(j) && n <= |Text(j)|
    ensures CleanAt(0, LexText(START, Text(j)[..n]))
  {
    WalkValue(0, j);
  }
}
