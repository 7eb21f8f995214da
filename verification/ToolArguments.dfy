// Model-written tool arguments: the delimiter scanner, the bare-value repair and the
// classification of failures, against the grammar of RFC 8259, sections 2, 4, 5, 6 and 7
// (src/flops_agent/tools/schema.py).
module ToolArguments {
  import opened Whitespace

  // ----- Grammar: a value with all of its whitespace, and the text it stands for -----

  datatype StrChar = Plain(c: char) | Escaped(c: char) | Hex(digits: string)

  datatype Json =
    | Literal(text: string)
    | Number(negative: bool, whole: string, fraction: string, mark: string, exponent: string)
    | Str(chars: seq<StrChar>)
    | Arr(open: string, items: Items)
    | Obj(open: string, members: Members)

  /** `after` is the whitespace behind the value, `gap` the whitespace behind the comma if one follows. */
  datatype Items = NoItems | Item(value: Json, after: string, gap: string, rest: Items)

  datatype Members =
    | NoMembers
    | Member(key: seq<StrChar>, beforeColon: string, afterColon: string, value: Json,
             after: string, gap: string, rest: Members)

  predicate IsJsonSpace(c: char) { c == ' ' || c == '\t' || c == '\n' || c == '\r' }

  predicate IsSpace(s: string) { forall i :: 0 <= i < |s| ==> IsJsonSpace(s[i]) }

  predicate IsDigits(s: string) { forall i :: 0 <= i < |s| ==> '0' <= s[i] <= '9' }

  predicate IsHexDigit(c: char) { '0' <= c <= '9' || 'a' <= c <= 'f' || 'A' <= c <= 'F' }

  predicate ValidChar(c: StrChar) {
    match c
    case Plain(ch) => ch >= ' ' && ch != '"' && ch != '\\'
    case Escaped(ch) => ch in "\"\\/bfnrt"
    case Hex(digits) => |digits| == 4 && forall i :: 0 <= i < 4 ==> IsHexDigit(digits[i])
  }

  predicate ValidChars(chars: seq<StrChar>) { forall i :: 0 <= i < |chars| ==> ValidChar(chars[i]) }

  predicate Valid(j: Json) {
    match j
    case Literal(text) => text in {"true", "false", "null"}
    case Number(_, whole, fraction, mark, exponent) =>
      && (whole == "0" || (whole != "" && IsDigits(whole) && whole[0] != '0'))
      && IsDigits(fraction) && IsDigits(exponent)
      && mark in {"", "e", "E", "e+", "E+", "e-", "E-"}
      && (mark == "" <==> exponent == "")
    case Str(chars) => ValidChars(chars)
    case Arr(open, items) => IsSpace(open) && ValidItems(items)
    case Obj(open, members) => IsSpace(open) && ValidMembers(members)
  }

  predicate ValidItems(items: Items) {
    items.NoItems? ||
    (Valid(items.value) && IsSpace(items.after) && IsSpace(items.gap) && ValidItems(items.rest))
  }

  predicate ValidMembers(m: Members) {
    m.NoMembers? ||
    (ValidChars(m.key) && IsSpace(m.beforeColon) && IsSpace(m.afterColon) && Valid(m.value) &&
     IsSpace(m.after) && IsSpace(m.gap) && ValidMembers(m.rest))
  }

  function CharText(c: StrChar): string {
    match c
    case Plain(ch) => [ch]
    case Escaped(ch) => ['\\', ch]
    case Hex(digits) => "\\u" + digits
  }

  function CharsText(chars: seq<StrChar>): string {
    if chars == [] then "" else CharsText(chars[..|chars| - 1]) + CharText(chars[|chars| - 1])
  }

  function Quoted(chars: seq<StrChar>): string { "\"" + CharsText(chars) + "\"" }

  function NumberText(j: Json): string
    requires j.Number?
  {
    (if j.negative then "-" else "") + j.whole + (if j.fraction == "" then "" else "." + j.fraction) +
    j.mark + j.exponent
  }

  function Text(j: Json): string {
    match j
    case Literal(text) => text
    case Number(_, _, _, _, _) => NumberText(j)
    case Str(chars) => Quoted(chars)
    case Arr(open, items) => "[" + (open + ItemsText(items)) + "]"
    case Obj(open, members) => "{" + (open + MembersText(members)) + "}"
  }

  function ItemsText(items: Items): string {
    match items
    case NoItems => ""
    case Item(value, after, gap, rest) =>
      Text(value) + after + (if rest.NoItems? then "" else "," + gap + ItemsText(rest))
  }

  function MembersText(m: Members): string {
    match m
    case NoMembers => ""
    case Member(key, beforeColon, afterColon, value, after, gap, rest) =>
      Quoted(key) + beforeColon + ":" + afterColon + Text(value) + after +
      (if rest.NoMembers? then "" else "," + gap + MembersText(rest))
  }

  /** What the JSON decoder accepts: one value with optional whitespace around it. */
  datatype Document = Document(lead: string, value: Json, trail: string) {
    predicate Correct() { Valid(value) && IsSpace(lead) && IsSpace(trail) }

    function Source(): string { lead + Text(value) + trail }
  }

  // ----- One automaton for both scanners ----------------------------------------

  /** `colon`: an object-level colon was read and its value has not started. `failed`: a closing bracket
      came without an opening one. `bare`: a value started with a character no JSON value starts with. */
  datatype Lex = Lex(depth: int, inStr: bool, esc: bool, colon: bool, failed: bool, bare: bool)

  const START := Lex(0, false, false, false, false, false)

  predicate IsValueStart(c: char) {
    c == '"' || c == '{' || c == '[' || c == '-' || '0' <= c <= '9' || c == 't' || c == 'f' || c == 'n'
  }

  function LexStep(st: Lex, c: char): Lex {
    if st.inStr then
      if st.esc then st.(esc := false)
      else if c == '\\' then st.(esc := true)
      else if c == '"' then st.(inStr := false)
      else st
    else if st.colon && IsJsonSpace(c) then st
    else
      var st := st.(colon := false, bare := st.bare || (st.colon && !IsValueStart(c)));
      if c == '"' then st.(inStr := true)
      else if c == '{' || c == '[' then st.(depth := st.depth + 1)
      else if c == '}' || c == ']' then st.(depth := st.depth - 1, failed := st.failed || st.depth - 1 < 0)
      else if c == ':' then st.(colon := true)
      else st
  }

  function LexText(st: Lex, s: string): (r: Lex) {
    if s == "" then st else LexStep(LexText(st, s[..|s| - 1]), s[|s| - 1])
  }

  lemma {:induction false} LexConcat(st: Lex, a: string, b: string)
    ensures LexText(st, a + b) == LexText(LexText(st, a), b)
  {
    if b == "" {
      assert a + b == a;
    } else {
      assert (a + b)[..|a + b| - 1] == a + b[..|b| - 1];
      LexConcat(st, a, b[..|b| - 1]);
    }
  }

  lemma {:induction false} FlagsStick(st: Lex, s: string)
    ensures st.failed ==> LexText(st, s).failed
    ensures st.bare ==> LexText(st, s).bare
  {
    if s != "" { FlagsStick(st, s[..|s| - 1]); }
  }

  lemma FlagsStickFrom(s: string, i: nat)
    requires i <= |s|
    ensures LexText(START, s[..i]).failed ==> LexText(START, s).failed
    ensures LexText(START, s[..i]).bare ==> LexText(START, s).bare
  {
    assert s == s[..i] + s[i..];
    LexConcat(START, s[..i], s[i..]);
    FlagsStick(LexText(START, s[..i]), s[i..]);
  }

  /** Reading `s` leads from one state to another, never below depth `d`, with no bracket or value fault. */
  ghost predicate Walk(d: nat, from: Lex, s: string, to: Lex) {
    && LexText(from, s) == to
    && forall k :: 0 <= k <= |s| ==> CleanAt(d, LexText(from, s[..k]))
  }

  predicate CleanAt(d: nat, st: Lex) { !st.failed && !st.bare && st.depth >= d }

  lemma WalkConcat(d: nat, a: Lex, s: string, b: Lex, t: string, c: Lex)
    requires Walk(d, a, s, b) && Walk(d, b, t, c)
    ensures Walk(d, a, s + t, c)
  {
    LexConcat(a, s, t);
    forall k | 0 <= k <= |s + t| ensures CleanAt(d, LexText(a, (s + t)[..k])) {
      if k <= |s| {
        assert (s + t)[..k] == s[..k];
      } else {
        assert (s + t)[..k] == s + t[..k - |s|];
        LexConcat(a, s, t[..k - |s|]);
        assert CleanAt(d, LexText(b, t[..k - |s|]));
      }
    }
  }

  lemma WalkChar(d: nat, a: Lex, c: char)
    requires CleanAt(d, a) && CleanAt(d, LexStep(a, c))
    ensures Walk(d, a, [c], LexStep(a, c))
  {
    assert [c][..0] == "" && [c][..1] == [c];
  }

  /** Outside strings at depth `d`, with or without a colon waiting for its value. */
  function At(d: nat, colon: bool): Lex { Lex(d, false, false, colon, false, false) }

  function InString(d: nat): Lex { Lex(d, true, false, false, false, false) }

  // ----- What the pieces of the grammar do to the automaton ------------------------

  lemma {:induction false} WalkSpace(d: nat, colon: bool, s: string)
    requires IsSpace(s)
    ensures Walk(d, At(d, colon), s, At(d, colon))
  {
    if s == "" {
    } else {
      var n := |s| - 1;
      WalkSpace(d, colon, s[..n]);
      WalkChar(d, At(d, colon), s[n]);
      WalkConcat(d, At(d, colon), s[..n], At(d, colon), [s[n]], At(d, colon));
      assert s == s[..n] + [s[n]];
    }
  }

  /** Characters of numbers and literals change nothing outside strings. */
  predicate IsInert(c: char) {
    c != '"' && c != '{' && c != '}' && c != '[' && c != ']' && c != ':' && !IsJsonSpace(c)
  }

  predicate AllInert(s: string) { forall i :: 0 <= i < |s| ==> IsInert(s[i]) }

  lemma {:induction false} WalkInert(d: nat, s: string)
    requires AllInert(s)
    ensures Walk(d, At(d, false), s, At(d, false))
  {
    if s == "" {
    } else {
      var n := |s| - 1;
      WalkInert(d, s[..n]);
      WalkChar(d, At(d, false), s[n]);
      WalkConcat(d, At(d, false), s[..n], At(d, false), [s[n]], At(d, false));
      assert s == s[..n] + [s[n]];
    }
  }

  lemma {:induction false} WalkPlainDigits(d: nat, s: string)
    requires forall i :: 0 <= i < |s| ==> s[i] != '"' && s[i] != '\\'
    ensures Walk(d, InString(d), s, InString(d))
  {
    if s == "" {
    } else {
      var n := |s| - 1;
      WalkPlainDigits(d, s[..n]);
      WalkChar(d, InString(d), s[n]);
      WalkConcat(d, InString(d), s[..n], InString(d), [s[n]], InString(d));
      assert s == s[..n] + [s[n]];
    }
  }

  lemma WalkStrChar(d: nat, c: StrChar)
    requires ValidChar(c)
    ensures Walk(d, InString(d), CharText(c), InString(d))
  {
    match c
    case Plain(ch) => WalkPlainDigits(d, [ch]);
    case Escaped(ch) =>
      WalkEscape(d, ch);
    case Hex(digits) =>
      WalkEscape(d, 'u');
      WalkPlainDigits(d, digits);
      WalkConcat(d, InString(d), "\\u", InString(d), digits, InString(d));
  }

  lemma WalkEscape(d: nat, ch: char)
    ensures Walk(d, InString(d), ['\\', ch], InString(d))
  {
    var escaped := InString(d).(esc := true);
    WalkChar(d, InString(d), '\\');
    WalkChar(d, escaped, ch);
    WalkConcat(d, InString(d), ['\\'], escaped, [ch], InString(d));
    assert ['\\', ch] == ['\\'] + [ch];
  }

  lemma {:induction false} WalkChars(d: nat, chars: seq<StrChar>)
    requires ValidChars(chars)
    ensures Walk(d, InString(d), CharsText(chars), InString(d))
  {
    if chars == [] {
    } else {
      var n := |chars| - 1;
      WalkChars(d, chars[..n]);
      WalkStrChar(d, chars[n]);
      WalkConcat(d, InString(d), CharsText(chars[..n]), InString(d), CharText(chars[n]), InString(d));
    }
  }

  lemma WalkQuoted(d: nat, chars: seq<StrChar>)
    requires ValidChars(chars)
    ensures Walk(d, At(d, false), Quoted(chars), At(d, false))
  {
    WalkChar(d, At(d, false), '"');
    WalkChars(d, chars);
    WalkChar(d, InString(d), '"');
    WalkConcat(d, At(d, false), "\"", InString(d), CharsText(chars), InString(d));
    WalkConcat(d, At(d, false), "\"" + CharsText(chars), InString(d), "\"", At(d, false));
  }

  lemma DigitsAreInert(s: string)
    requires IsDigits(s)
    ensures AllInert(s)
  {
  }

  lemma MarksAreInert(mark: string)
    requires mark in {"", "e", "E", "e+", "E+", "e-", "E-"}
    ensures AllInert(mark)
  {
  }

  lemma WalkNumber(d: nat, j: Json)
    requires j.Number? && Valid(j)
    ensures Walk(d, At(d, false), NumberText(j), At(d, false))
  {
    var sign := if j.negative then "-" else "";
    var point := if j.fraction == "" then "" else "." + j.fraction;
    DigitsAreInert(j.whole);
    DigitsAreInert(j.fraction);
    DigitsAreInert(j.exponent);
    MarksAreInert(j.mark);
    assert AllInert(sign + j.whole);
    assert AllInert(sign + j.whole + point);
    assert AllInert(sign + j.whole + point + j.mark);
    assert AllInert(NumberText(j));
    WalkInert(d, NumberText(j));
  }

  /** A value text leaves every state as it found it, and settles a colon that waited for it. */
  lemma {:induction false} WalkValue(d: nat, j: Json)
    requires Valid(j)
    ensures Walk(d, At(d, false), Text(j), At(d, false))
    ensures Text(j) != "" && IsValueStart(Text(j)[0])
    decreases j
  {
    match j
    case Literal(text) => WalkInert(d, text);
    case Number(_, _, _, _, _) => WalkNumber(d, j);
    case Str(chars) => WalkQuoted(d, chars);
    case Arr(open, items) =>
      WalkSpace(d + 1, false, open);
      WalkItems(d + 1, items);
      WalkConcat(d + 1, At(d + 1, false), open, At(d + 1, false), ItemsText(items), At(d + 1, false));
      WalkBrackets(d, '[', open + ItemsText(items), ']');
    case Obj(open, members) =>
      WalkInside(d, j);
      WalkBrackets(d, '{', open + MembersText(members), '}');
  }

  lemma {:induction false} WalkInside(d: nat, j: Json)
    requires Valid(j) && j.Obj?
    ensures Walk(d + 1, At(d + 1, false), j.open + MembersText(j.members), At(d + 1, false))
    decreases j, 0
  {
    WalkSpace(d + 1, false, j.open);
    WalkMembers(d + 1, j.members);
    WalkConcat(d + 1, At(d + 1, false), j.open, At(d + 1, false), MembersText(j.members), At(d + 1, false));
  }

  lemma WalkBrackets(d: nat, open: char, inside: string, close: char)
    requires (open == '{' && close == '}') || (open == '[' && close == ']')
    requires Walk(d + 1, At(d + 1, false), inside, At(d + 1, false))
    ensures Walk(d, At(d, false), [open] + inside + [close], At(d, false))
  {
    WalkChar(d, At(d, false), open);
    WalkChar(d, At(d + 1, false), close);
    WalkConcat(d, At(d, false), [open], At(d + 1, false), inside, At(d + 1, false));
    WalkConcat(d, At(d, false), [open] + inside, At(d + 1, false), [close], At(d, false));
  }

  lemma WalkAfterColon(d: nat, s: string)
    requires s != "" && IsValueStart(s[0]) && Walk(d, At(d, false), s, At(d, false))
    ensures Walk(d, At(d, true), s, At(d, false))
  {
    var first, rest := s[..1], s[1..];
    assert s == first + rest && first == [s[0]];
    assert LexStep(At(d, true), s[0]) == LexStep(At(d, false), s[0]);
    forall t: string ensures LexText(At(d, true), first + t) == LexText(At(d, false), first + t) {
      LexConcat(At(d, true), first, t);
      LexConcat(At(d, false), first, t);
      assert first[..0] == "";
    }
    forall k | 0 <= k <= |s| ensures CleanAt(d, LexText(At(d, true), s[..k])) {
      if k > 0 { assert s[..k] == first + s[1..k]; }
    }
  }

  lemma {:induction false} WalkItems(d: nat, items: Items)
    requires ValidItems(items)
    ensures Walk(d, At(d, false), ItemsText(items), At(d, false))
    decreases items
  {
    if items.NoItems? {
    } else {
      var here := At(d, false);
      WalkValue(d, items.value);
      WalkSpace(d, false, items.after);
      WalkConcat(d, here, Text(items.value), here, items.after, here);
      WalkItems(d, items.rest);
      WalkTail(d, items.gap, ItemsText(items.rest));
      var tail := if items.rest.NoItems? then "" else "," + items.gap + ItemsText(items.rest);
      WalkConcat(d, here, Text(items.value) + items.after, here, tail, here);
    }
  }

  lemma WalkTail(d: nat, gap: string, rest: string)
    requires IsSpace(gap) && Walk(d, At(d, false), rest, At(d, false))
    ensures Walk(d, At(d, false), "," + gap + rest, At(d, false))
  {
    var here := At(d, false);
    WalkChar(d, here, ',');
    WalkSpace(d, false, gap);
    WalkConcat(d, here, ",", here, gap, here);
    WalkConcat(d, here, "," + gap, here, rest, here);
  }

  lemma {:induction false} WalkMembers(d: nat, m: Members)
    requires ValidMembers(m)
    ensures Walk(d, At(d, false), MembersText(m), At(d, false))
    decreases m
  {
    if m.NoMembers? {
    } else {
      var here := At(d, false);
      var key := Quoted(m.key) + m.beforeColon;
      WalkQuoted(d, m.key);
      WalkSpace(d, false, m.beforeColon);
      WalkConcat(d, here, Quoted(m.key), here, m.beforeColon, here);
      WalkChar(d, here, ':');
      WalkConcat(d, here, key, here, ":", At(d, true));
      WalkSpace(d, true, m.afterColon);
      WalkConcat(d, here, key + ":", At(d, true), m.afterColon, At(d, true));
      WalkValue(d, m.value);
      WalkAfterColon(d, Text(m.value));
      WalkConcat(d, here, key + ":" + m.afterColon, At(d, true), Text(m.value), here);
      WalkSpace(d, false, m.after);
      WalkConcat(d, here, key + ":" + m.afterColon + Text(m.value), here, m.after, here);
      WalkMembers(d, m.rest);
      WalkTail(d, m.gap, MembersText(m.rest));
      var tail := if m.rest.NoMembers? then "" else "," + m.gap + MembersText(m.rest);
      WalkConcat(d, here, key + ":" + m.afterColon + Text(m.value) + m.after, here, tail, here);
    }
  }

  // ----- The scanner ---------------------------------------------------------------

  function Balanced(s: string): bool {
    var st := LexText(START, s);
    !st.failed && st.depth == 0 && !st.inStr
  }

  method JsonBracketsBalanced(s: string) returns (balanced: bool)
    ensures balanced == Balanced(s)
  {
    var depth, inStr, esc := 0, false, false;
    for i := 0 to |s|
      invariant var st := LexText(START, s[..i]);
                depth == st.depth && inStr == st.inStr && esc == st.esc && !st.failed
    {
      assert s[..i + 1][..i] == s[..i];
      EscOnlyInString(s[..i]);
      var c := s[i];
      if inStr {
        if esc { esc := false; }
        else if c == '\\' { esc := true; }
        else if c == '"' { inStr := false; }
      } else if c == '"' {
        inStr := true;
      } else if c == '{' || c == '[' {
        depth := depth + 1;
      } else if c == '}' || c == ']' {
        depth := depth - 1;
        if depth < 0 {
          FlagsStickFrom(s, i + 1);
          return false;
        }
      }
    }
    assert s[..|s|] == s;
    balanced := depth == 0 && !inStr;
  }

  lemma {:induction false} EscOnlyInString(s: string)
    ensures LexText(START, s).esc ==> LexText(START, s).inStr
  {
    if s != "" { EscOnlyInString(s[..|s| - 1]); }
  }

  lemma WalkDocument(doc: Document)
    requires doc.Correct()
    ensures Walk(0, At(0, false), doc.Source(), At(0, false))
  {
    var here := At(0, false);
    WalkSpace(0, false, doc.lead);
    WalkValue(0, doc.value);
    WalkSpace(0, false, doc.trail);
    WalkConcat(0, here, doc.lead, here, Text(doc.value), here);
    WalkConcat(0, here, doc.lead + Text(doc.value), here, doc.trail, here);
  }

  /** Every JSON text is balanced. */
  lemma JsonTextIsBalanced(doc: Document)
    requires doc.Correct()
    ensures Balanced(doc.Source())
  {
    WalkDocument(doc);
  }

  /** A text with a closing bracket behind its value is unbalanced, whatever follows. */
  lemma EarlyCloseIsUnbalanced(doc: Document, close: char, rest: string)
    requires doc.Correct() && (close == '}' || close == ']')
    ensures !Balanced(doc.Source() + [close] + rest)
  {
    var before := doc.Source();
    var s := before + [close] + rest;
    WalkDocument(doc);
    LexConcat(START, before, [close]);
    assert [close][..0] == "";
    assert s[..|before| + 1] == before + [close];
    FlagsStickFrom(s, |before| + 1);
  }

  lemma OpenBraceStaysOpen(inside: string, m: nat)
    requires Walk(1, At(1, false), inside, At(1, false)) && m <= |inside|
    ensures LexText(START, ['{'] + inside[..m]).depth >= 1
  {
    LexConcat(START, ['{'], inside[..m]);
    assert LexText(START, ['{']) == At(1, false) by { assert ['{'][..0] == ""; }
    assert CleanAt(1, LexText(At(1, false), inside[..m]));
  }

  /** Every non-empty proper prefix of an object text is unbalanced. */
  lemma ObjectPrefixIsUnbalanced(j: Json, n: nat)
    requires Valid(j) && j.Obj? && 0 < n < |Text(j)|
    ensures !Balanced(Text(j)[..n])
  {
    var inside := j.open + MembersText(j.members);
    WalkInside(0, j);
    OpenBraceStaysOpen(inside, n - 1);
    PrefixInside(inside, n);
    assert Text(j) == "{" + inside + "}";
  }

  /** A character's text does not leave the string, wherever it is cut. */
  lemma CharStaysInside(c: StrChar, m: nat)
    requires ValidChar(c) && m <= |CharText(c)|
    ensures LexText(InString(0), CharText(c)[..m]).inStr
  {
    var t := CharText(c);
    match c
    case Plain(ch) =>
      WalkPlainDigits(0, t[..m]);
    case Escaped(ch) =>
      if m == 1 { assert t[..1] == ['\\'] && ['\\'][..0] == ""; }
      if m == 2 { WalkEscape(0, ch); assert t[..2] == ['\\', ch]; }
    case Hex(digits) =>
      if m == 1 { assert t[..1] == ['\\'] && ['\\'][..0] == ""; }
      if m > 1 {
        WalkEscape(0, 'u');
        WalkPlainDigits(0, digits[..m - 2]);
        LexConcat(InString(0), "\\u", digits[..m - 2]);
        assert t[..m] == "\\u" + digits[..m - 2];
      }
  }

  lemma {:induction false} CharsStayInside(chars: seq<StrChar>, m: nat)
    requires ValidChars(chars) && m <= |CharsText(chars)|
    ensures LexText(InString(0), CharsText(chars)[..m]).inStr
    decreases |chars|
  {
    if chars != [] {
      var n := |chars| - 1;
      var before, last := CharsText(chars[..n]), CharText(chars[n]);
      CutWithin(before, last, m);
      if m <= |before| {
        CharsStayInside(chars[..n], m);
      } else {
        WalkChars(0, chars[..n]);
        CharStaysInside(chars[n], m - |before|);
        LexConcat(InString(0), before, last[..m - |before|]);
      }
    }
  }

  lemma CutWithin(a: string, b: string, m: nat)
    requires m <= |a + b|
    ensures (a + b)[..m] == if m <= |a| then a[..m] else a + b[..m - |a|]
  {
  }

  /** Every non-empty proper prefix of a string text is unbalanced too: it ends inside the string. */
  lemma StringPrefixIsUnbalanced(j: Json, n: nat)
    requires Valid(j) && j.Str? && 0 < n < |Text(j)|
    ensures !Balanced(Text(j)[..n])
  {
    var inside := CharsText(j.chars);
    CharsStayInside(j.chars, n - 1);
    LexConcat(START, ['"'], inside[..n - 1]);
    assert LexText(START, ['"']) == InString(0) by { assert ['"'][..0] == ""; }
    assert Text(j)[..n] == ['"'] + inside[..n - 1];
  }

  lemma PrefixInside(inside: string, n: nat)
    requires 0 < n <= |inside| + 1
    ensures ("{" + inside + "}")[..n] == ['{'] + inside[..n - 1]
  {
  }

  lemma ObjectPrefixHasNoBareValue(j: Json, n: nat)
    requires Valid(j) && n <= |Text(j)|
    ensures !LexText(START, Text(j)[..n]).bare
  {
    WalkValue(0, j);
    assert CleanAt(0, LexText(At(0, false), Text(j)[..n]));
  }

  // ----- The repair ------------------------------------------------------------------

  function SkipSpace(s: string, i: nat): (j: nat)
    requires i <= |s|
    ensures i <= j <= |s| && (j < |s| ==> !IsJsonSpace(s[j]))
    ensures forall k :: i <= k < j ==> IsJsonSpace(s[k])
    decreases |s| - i
  {
    if i < |s| && IsJsonSpace(s[i]) then SkipSpace(s, i + 1) else i
  }

  predicate IsDelimiter(c: char) { c == ',' || c == '}' || c == ']' }

  function NextDelimiter(s: string, i: nat): (k: nat)
    requires i <= |s|
    ensures i <= k <= |s| && (k < |s| ==> IsDelimiter(s[k]))
    ensures forall m :: i <= m < k ==> !IsDelimiter(s[m])
    decreases |s| - i
  {
    if i < |s| && !IsDelimiter(s[i]) then NextDelimiter(s, i + 1) else i
  }

  /** Backslash, quote and the three raw control characters, escaped. */
  function EscapeChar(c: char): string {
    if c == '\\' then "\\\\" else if c == '"' then "\\\"" else if c == '\r' then "\\r"
    else if c == '\n' then "\\n" else if c == '\t' then "\\t" else [c]
  }

  function EscapeBare(s: string): string {
    if s == "" then "" else EscapeBare(s[..|s| - 1]) + EscapeChar(s[|s| - 1])
  }

  /** The quoted form of a bare value: trailing whitespace stays outside the quotes. */
  function QuoteBare(raw: string): string {
    var bare := RStrip(raw);
    "\"" + EscapeBare(bare) + "\"" + raw[|bare|..]
  }

  /** Output from position `i` on, and whether anything was quoted. */
  function RepairFrom(s: string, i: nat, inStr: bool, esc: bool): (r: (string, bool))
    requires i <= |s|
    decreases |s| - i
  {
    if i == |s| then ("", false)
    else
      var c := s[i];
      if inStr || c != ':' then
        var stays := if inStr then esc || c != '"' else c == '"';
        var rest := RepairFrom(s, i + 1, stays, inStr && !esc && c == '\\');
        ([c] + rest.0, rest.1)
      else
        var j := SkipSpace(s, i + 1);
        if j == |s| then (s[i..j], false)
        else if IsValueStart(s[j]) then
          var rest := RepairFrom(s, j, false, false);
          (s[i..j] + rest.0, rest.1)
        else
          var k := NextDelimiter(s, j);
          var rest := RepairFrom(s, k, false, false);
          (s[i..j] + QuoteBare(s[j..k]) + rest.0, true)
  }

  /** Output so far, continued by what is still to come. */
  function Continued(out: string, repaired: bool, rest: (string, bool)): (whole: (string, bool)) {
    (out + rest.0, repaired || rest.1)
  }

  lemma ContinuedTwice(out: string, repaired: bool, more: string, quoted: bool, rest: (string, bool))
    ensures Continued(out, repaired, Continued(more, quoted, rest)) == Continued(out + more, repaired || quoted, rest)
  {
    assert (out + more) + rest.0 == out + (more + rest.0);
  }

  lemma RepairChar(s: string, i: nat, inStr: bool, esc: bool)
    requires i < |s| && (inStr || s[i] != ':')
    ensures var stays := if inStr then esc || s[i] != '"' else s[i] == '"';
            RepairFrom(s, i, inStr, esc) ==
            Continued([s[i]], false, RepairFrom(s, i + 1, stays, inStr && !esc && s[i] == '\\'))
  {
  }

  lemma RepairColon(s: string, i: nat, esc: bool)
    requires i < |s| && s[i] == ':'
    ensures var j := SkipSpace(s, i + 1);
            RepairFrom(s, i, false, esc) ==
            if j == |s| || IsValueStart(s[j]) then Continued(s[i..j], false, RepairFrom(s, j, false, false))
            else
              var k := NextDelimiter(s, j);
              Continued(s[i..j] + QuoteBare(s[j..k]), true, RepairFrom(s, k, false, false))
  {
    var j := SkipSpace(s, i + 1);
    assert s[i..j] + "" == s[i..j];
  }

  /** The scanning loop of the repair: text to try, and whether anything was quoted. */
  method RepairScan(s: string) returns (out: string, repaired: bool)
    ensures (out, repaired) == RepairFrom(s, 0, false, false)
  {
    var i, inStr, esc := 0, false, false;
    out, repaired := "", false;
    ghost var whole := RepairFrom(s, 0, false, false);
    assert "" + whole.0 == whole.0;
    while i < |s|
      invariant 0 <= i <= |s|
      invariant Continued(out, repaired, RepairFrom(s, i, inStr, esc)) == whole
      invariant esc ==> inStr
      decreases |s| - i
    {
      var c := s[i];
      if inStr || c != ':' {
        RepairChar(s, i, inStr, esc);
        if inStr {
          if esc { esc := false; }
          else if c == '\\' { esc := true; }
          else if c == '"' { inStr := false; }
        } else {
          inStr := c == '"';
        }
        ContinuedTwice(out, repaired, [c], false, RepairFrom(s, i + 1, inStr, esc));
        out := out + [c];
        i := i + 1;
      } else {
        RepairColon(s, i, esc);
        var j := i + 1;
        while j < |s| && IsJsonSpace(s[j])
          invariant i < j <= |s| && SkipSpace(s, j) == SkipSpace(s, i + 1)
        {
          j := j + 1;
        }
        if j == |s| || IsValueStart(s[j]) {
          ContinuedTwice(out, repaired, s[i..j], false, RepairFrom(s, j, false, false));
          out := out + s[i..j];
          i := j;
        } else {
          var k := j;
          while k < |s| && !IsDelimiter(s[k])
            invariant j <= k <= |s| && NextDelimiter(s, k) == NextDelimiter(s, j)
          {
            k := k + 1;
          }
          ContinuedTwice(out, repaired, s[i..j] + QuoteBare(s[j..k]), true, RepairFrom(s, k, false, false));
          out := out + (s[i..j] + QuoteBare(s[j..k]));
          repaired := true;
          i := k;
        }
      }
    }
    assert out + "" == out;
  }

  lemma LexSnoc(s: string, i: nat)
    requires i < |s|
    ensures LexText(START, s[..i + 1]) == LexStep(LexText(START, s[..i]), s[i])
  {
    assert s[..i + 1][..i] == s[..i];
  }

  lemma OrdinaryStep(st: Lex, c: char)
    requires st.inStr || c != ':'
    requires st.colon ==> IsValueStart(c) && !st.inStr
    requires st.esc ==> st.inStr
    ensures var r := LexStep(st, c);
            && r.inStr == (if st.inStr then st.esc || c != '"' else c == '"')
            && r.esc == (st.inStr && !st.esc && c == '\\')
            && !r.colon
  {
  }

  /** Where no object-level value starts bare, the repair copies its input and quotes nothing. */
  lemma {:induction false} RepairIsIdle(s: string, i: nat, st: Lex)
    requires i <= |s| && !LexText(START, s).bare && st == LexText(START, s[..i])
    requires st.colon ==> i < |s| && IsValueStart(s[i]) && !st.inStr
    ensures RepairFrom(s, i, st.inStr, st.esc).0 == s[i..]
    ensures !RepairFrom(s, i, st.inStr, st.esc).1
    decreases |s| - i
  {
    if i < |s| {
      EscOnlyInString(s[..i]);
      if st.inStr || s[i] != ':' {
        LexSnoc(s, i);
        OrdinaryStep(st, s[i]);
        RepairIsIdle(s, i + 1, LexStep(st, s[i]));
        assert s[i..] == [s[i]] + s[i + 1..];
      } else {
        var j := SkipSpace(s, i + 1);
        ColonWaits(s, i, j);
        if j < |s| {
          ColonThenStart(s, j);
          RepairIsIdle(s, j, LexText(START, s[..j]));
        }
        SliceSplit(s, i, j);
      }
    }
  }

  lemma SliceSplit(s: string, i: nat, j: nat)
    requires i <= j <= |s|
    ensures s[i..] == s[i..j] + s[j..]
  {
  }

  lemma ColonThenStart(s: string, j: nat)
    requires j < |s| && !LexText(START, s).bare && !IsJsonSpace(s[j])
    requires LexText(START, s[..j]).colon && !LexText(START, s[..j]).inStr
    ensures IsValueStart(s[j])
  {
    LexSnoc(s, j);
    FlagsStickFrom(s, j + 1);
  }

  lemma {:induction false} ColonWaits(s: string, i: nat, j: nat)
    requires i < j <= |s| && s[i] == ':' && !LexText(START, s[..i]).inStr && !LexText(START, s[..i]).colon
    requires forall k :: i < k < j ==> IsJsonSpace(s[k])
    ensures LexText(START, s[..j]).colon && !LexText(START, s[..j]).inStr
    ensures LexText(START, s[..j]).esc == LexText(START, s[..i]).esc
    decreases j
  {
    assert s[..j][..j - 1] == s[..j - 1];
    if j > i + 1 { ColonWaits(s, i, j - 1); }
  }

  /** On a prefix of an object text (all of it included) the repair changes nothing. */
  lemma RepairLeavesObjectPrefix(j: Json, n: nat)
    requires Valid(j) && n <= |Text(j)|
    ensures RepairFrom(Text(j)[..n], 0, false, false) == (Text(j)[..n], false)
  {
    var p := Text(j)[..n];
    ObjectPrefixHasNoBareValue(j, n);
    assert p[..0] == "";
    RepairIsIdle(p, 0, START);
    assert p[0..] == p;
  }

  // ----- Classification ------------------------------------------------------------------

  /** What json.loads does with a text: an object, another value, or an error. */
  datatype Loaded = Object | OtherValue | SyntaxError

  ghost predicate Decodes(s: string, isObject: bool) {
    exists doc: Document :: doc.Correct() && doc.Source() == s && doc.value.Obj? == isObject
  }

  ghost function Loads(s: string): Loaded {
    if Decodes(s, true) then Object else if Decodes(s, false) then OtherValue else SyntaxError
  }

  /** The argument value as it arrives from the model or the provider. */
  datatype RawArguments = Mapping | Absent | OtherType | ArgumentText(text: string)

  datatype FailKind = NotObject | InvalidJson | Truncated

  /** `Parsed(source)`: the object that `source` denotes; the empty text stands for empty arguments. */
  datatype ParsedArguments = Unchanged | Parsed(source: string, repaired: bool) | Rejected(kind: FailKind)

  function Classify(text: string, loaded: Loaded, candidate: (string, bool), candidateLoaded: Loaded, balanced: bool)
    : (r: ParsedArguments)
  {
    match loaded
    case Object => Parsed(text, false)
    case OtherValue => Rejected(NotObject)
    case SyntaxError =>
      if candidate.1 && candidateLoaded == Object then Parsed(candidate.0, true)
      else Rejected(if balanced then InvalidJson else Truncated)
  }

  ghost function ParseText(text: string): (r: ParsedArguments) {
    var candidate := RepairFrom(text, 0, false, false);
    Classify(text, Loads(text), candidate, Loads(candidate.0), Balanced(text))
  }

  ghost function ParseToolArguments(raw: RawArguments): (r: ParsedArguments) {
    match raw
    case Mapping => Unchanged
    case Absent => Parsed("", false)
    case OtherType => Rejected(NotObject)
    case ArgumentText(whole) => if Strip(whole) == "" then Parsed("", false) else ParseText(Strip(whole))
  }

  lemma StripFromBrace(t: string, n: nat)
    requires 0 < n <= |t| && t[0] == '{' && t[|t| - 1] == '}'
    ensures var p := Strip(t[..n]);
            0 < |p| <= n && p == t[..|p|] && (n == |t| ==> p == t)
  {
    var p := t[..n];
    assert p[0] == '{' && !IsPythonSpace('{') && !IsPythonSpace('}');
    assert LStrip(p) == p;
    var r := RStrip(p);
    assert r == p[..|r|];
    assert p[..|r|] == t[..|r|];
  }

  /** Stripping a prefix of an object text leaves a prefix of it that still starts with the brace. */
  lemma StripObjectPrefix(j: Json, n: nat)
    requires j.Obj? && 0 < n <= |Text(j)|
    ensures var p := Strip(Text(j)[..n]);
            0 < |p| <= n && p == Text(j)[..|p|] && (n == |Text(j)| ==> p == Text(j))
  {
    StripFromBrace(Text(j), n);
  }

  /** A stream cut anywhere inside an object is reported as truncated, never as empty or invalid. */
  lemma CutObjectIsTruncated(j: Json, n: nat)
    requires Valid(j) && j.Obj? && 0 < n < |Text(j)|
    ensures ParseToolArguments(ArgumentText(Text(j)[..n])) == Rejected(Truncated)
  {
    StripObjectPrefix(j, n);
    var p := Strip(Text(j)[..n]);
    ObjectPrefixIsUnbalanced(j, |p|);
    UndecodableIfUnbalanced(p);
    RepairLeavesObjectPrefix(j, |p|);
  }

  lemma UndecodableIfUnbalanced(s: string)
    requires !Balanced(s)
    ensures Loads(s) == SyntaxError
  {
    forall doc: Document | doc.Correct() ensures doc.Source() != s { JsonTextIsBalanced(doc); }
  }

  lemma ObjectDecodes(j: Json)
    requires Valid(j) && j.Obj?
    ensures Loads(Text(j)) == Object
  {
    var doc := Document("", j, "");
    assert doc.Correct() && doc.Source() == Text(j);
  }

  lemma BracedIsStripped(t: string)
    requires |t| > 1 && t[0] == '{' && t[|t| - 1] == '}'
    ensures Strip(t) == t
  {
    StripFromBrace(t, |t|);
    assert t[..|t|] == t;
  }

  lemma BracedObjectIsParsed(t: string)
    requires |t| > 1 && t[0] == '{' && t[|t| - 1] == '}' && Loads(t) == Object
    ensures ParseToolArguments(ArgumentText(t)) == Parsed(t, false)
  {
    BracedIsStripped(t);
  }

  /** The whole object is accepted as it stands. */
  lemma WholeObjectIsParsed(j: Json)
    requires Valid(j) && j.Obj?
    ensures ParseToolArguments(ArgumentText(Text(j))) == Parsed(Text(j), false)
  {
    ObjectDecodes(j);
    BracedObjectIsParsed(Text(j));
  }

  /** The repair changed something, and what it came to is an object. */
  ghost predicate Repairs(text: string) {
    RepairFrom(text, 0, false, false).1 && Loads(RepairFrom(text, 0, false, false).0) == Object
  }

  /** What a text that is not blank is taken for: the object it denotes, the object its repair denotes, or a rejection
      for exactly the reason named. Of texts that denote nothing and cannot be repaired the unbalanced ones are
      truncated, and no text that denotes something is unbalanced. */
  lemma ClassificationIsSound(lead: string, core: string, trail: string)
    requires IsBlank(lead) && IsBlank(trail) && IsStripped(core) && core != ""
    ensures var r := ParseToolArguments(ArgumentText(lead + core + trail));
            && (r == Parsed(core, false) <==> Loads(core) == Object)
            && (r == Rejected(NotObject) <==> Loads(core) == OtherValue)
            && (r == Parsed(RepairFrom(core, 0, false, false).0, true) <==> Loads(core) == SyntaxError && Repairs(core))
            && (r == Rejected(Truncated) <==> !Balanced(core) && !Repairs(core))
            && (r == Rejected(InvalidJson) <==> Loads(core) == SyntaxError && !Repairs(core) && Balanced(core))
  {
    StripFindsCore(lead, core, trail);
    if !Balanced(core) { UndecodableIfUnbalanced(core); }
    var candidate := RepairFrom(core, 0, false, false);
    ClassifiedIff(core, Loads(core), candidate, Loads(candidate.0), Balanced(core));
  }

  lemma ClassifiedIff(text: string, loaded: Loaded, candidate: (string, bool), candidateLoaded: Loaded, balanced: bool)
    requires !balanced ==> loaded == SyntaxError
    ensures var r := Classify(text, loaded, candidate, candidateLoaded, balanced);
            var repairs := candidate.1 && candidateLoaded == Object;
            && (r == Parsed(text, false) <==> loaded == Object)
            && (r == Rejected(NotObject) <==> loaded == OtherValue)
            && (r == Parsed(candidate.0, true) <==> loaded == SyntaxError && repairs)
            && (r == Rejected(Truncated) <==> !balanced && !repairs)
            && (r == Rejected(InvalidJson) <==> loaded == SyntaxError && !repairs && balanced)
  {
  }

  /** Exactly absent arguments and blank ones are empty arguments. A mapping is passed on as it is, whatever is
      neither that nor a text is not an object, and only a text that is unbalanced between its white space is
      truncated. */
  lemma EmptyArgumentsIff(raw: RawArguments)
    ensures var r := ParseToolArguments(raw);
            && (r == Parsed("", false) <==> raw.Absent? || (raw.ArgumentText? && IsBlank(raw.text)))
            && (r == Unchanged <==> raw.Mapping?)
            && (raw.OtherType? ==> r == Rejected(NotObject))
            && (r == Rejected(Truncated) ==>
                  raw.ArgumentText? && !IsBlank(raw.text) && !Balanced(Strip(raw.text)))
  {
    if raw.ArgumentText? {
      BlankStrips(raw.text);
      if !IsBlank(raw.text) { TextIsNeverEmpty(Strip(raw.text)); }
    }
  }

  lemma TextIsNeverEmpty(text: string)
    ensures ParseText(text) != Unchanged && (ParseText(text) == Rejected(Truncated) ==> !Balanced(text))
    ensures text != "" ==> ParseText(text) != Parsed("", false)
  {
    var candidate := RepairFrom(text, 0, false, false);
    ClassifiedAs(text, Loads(text), candidate, Loads(candidate.0), Balanced(text));
  }

  lemma ClassifiedAs(text: string, loaded: Loaded, candidate: (string, bool), candidateLoaded: Loaded, balanced: bool)
    ensures var r := Classify(text, loaded, candidate, candidateLoaded, balanced);
            && r != Unchanged && (r == Rejected(Truncated) ==> !balanced)
            && (text != "" ==> r != Parsed("", false))
  {
  }
}
