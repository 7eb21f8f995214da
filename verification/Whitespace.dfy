// Stripping white space as the program's language does.
module Whitespace {

  /** Python's str.strip and str.rstrip whitespace. */
  predicate IsPythonSpace(c: char) {
    || '\t' <= c <= '\r' || c == ' ' || '\U{1c}' <= c <= '\U{1f}' || c == '\U{85}' || c == '\U{a0}'
    || c == '\U{1680}' || '\U{2000}' <= c <= '\U{200a}' || c == '\U{2028}' || c == '\U{2029}'
    || c == '\U{202f}' || c == '\U{205f}' || c == '\U{3000}'
  }

  function RStrip(s: string): (r: string)
    ensures r <= s
    ensures r != "" ==> !IsPythonSpace(r[|r| - 1])
    ensures forall i :: |r| <= i < |s| ==> IsPythonSpace(s[i])
  {
    if s != "" && IsPythonSpace(s[|s| - 1]) then RStrip(s[..|s| - 1]) else s
  }

  function LStrip(s: string): (r: string)
    ensures |r| <= |s| && r == s[|s| - |r|..]
    ensures r != "" ==> !IsPythonSpace(r[0])
    ensures forall i :: 0 <= i < |s| - |r| ==> IsPythonSpace(s[i])
  {
    if s != "" && IsPythonSpace(s[0]) then LStrip(s[1..]) else s
  }

  function Strip(s: string): string { RStrip(LStrip(s)) }

  predicate IsBlank(s: string) { forall i :: 0 <= i < |s| ==> IsPythonSpace(s[i]) }

  /** No white space at either end. */
  predicate IsStripped(s: string) { s == "" || (!IsPythonSpace(s[0]) && !IsPythonSpace(s[|s| - 1])) }

  /** Two characters that are not white space, n places from the first to the last. */
  predicate Spans(s: string, n: nat) {
    exists i, k :: 0 <= i < |s| && 0 <= k < |s| && i + n <= k + 1 && !IsPythonSpace(s[i]) && !IsPythonSpace(s[k])
  }

  lemma CoreSpansIff(s: string, start: nat, length: nat, n: nat)
    requires n > 0 && start + length <= |s|
    requires forall i :: 0 <= i < |s| && !(start <= i < start + length) ==> IsPythonSpace(s[i])
    requires length > 0 ==> !IsPythonSpace(s[start]) && !IsPythonSpace(s[start + length - 1])
    ensures length >= n <==> Spans(s, n)
  {
  }

  lemma SuffixThenPrefix(s: string, left: string, r: string, n: nat)
    requires n > 0 && |left| <= |s| && left == s[|s| - |left|..] && r <= left
    requires forall i :: 0 <= i < |s| - |left| ==> IsPythonSpace(s[i])
    requires forall i :: |r| <= i < |left| ==> IsPythonSpace(left[i])
    requires r != "" ==> !IsPythonSpace(r[0]) && !IsPythonSpace(r[|r| - 1])
    ensures |r| >= n <==> Spans(s, n)
  {
    var start := |s| - |left|;
    assert forall i :: start <= i < |s| ==> s[i] == left[i - start];
    CoreSpansIff(s, start, |r|, n);
  }

  /** At least n characters are left by stripping exactly then. */
  lemma StripSpansIff(s: string, n: nat)
    requires n > 0
    ensures |Strip(s)| >= n <==> Spans(s, n)
  {
    var left := LStrip(s);
    var r := RStrip(left);
    SuffixThenPrefix(s, left, r, n);
  }

  /** Stripping changes nothing exactly then. */
  lemma StripIsIdleIff(s: string)
    ensures Strip(s) == s <==> IsStripped(s)
  {
    if IsStripped(s) {
      assert LStrip(s) == s;
      assert RStrip(s) == s;
    }
  }

  lemma {:induction false} LStripFindsRest(lead: string, rest: string)
    requires IsBlank(lead) && (rest != "" ==> !IsPythonSpace(rest[0]))
    ensures LStrip(lead + rest) == rest
    decreases |lead|
  {
    if lead == "" {
      assert lead + rest == rest;
    } else {
      assert (lead + rest)[1..] == lead[1..] + rest;
      LStripFindsRest(lead[1..], rest);
    }
  }

  lemma {:induction false} RStripFindsRest(rest: string, trail: string)
    requires IsBlank(trail) && (rest != "" ==> !IsPythonSpace(rest[|rest| - 1]))
    ensures RStrip(rest + trail) == rest
    decreases |trail|
  {
    if trail == "" {
      assert rest + trail == rest;
    } else {
      var n := |trail| - 1;
      assert (rest + trail)[..|rest + trail| - 1] == rest + trail[..n];
      RStripFindsRest(rest, trail[..n]);
    }
  }

  /** White space around a text that has none at its ends is stripped, and nothing else. */
  lemma StripFindsCore(lead: string, core: string, trail: string)
    requires IsBlank(lead) && IsBlank(trail) && IsStripped(core) && core != ""
    ensures Strip(lead + core + trail) == core
  {
    var left := core + trail;
    assert lead + core + trail == lead + left;
    assert left[0] == core[0];
    LStripFindsRest(lead, left);
    RStripFindsRest(core, trail);
    StripsTwice(lead + left, left, core);
  }

  lemma StripsTwice(s: string, left: string, r: string)
    requires LStrip(s) == left && RStrip(left) == r
    ensures Strip(s) == r
  {
  }

  lemma BlankStrips(s: string)
    ensures Strip(s) == "" <==> IsBlank(s)
  {
    if IsBlank(s) {
      LStripFindsRest(s, "");
      assert s + "" == s;
    } else {
      StripSpansIff(s, 1);
      var i :| 0 <= i < |s| && !IsPythonSpace(s[i]);
      assert Spans(s, 1);
    }
  }
}
