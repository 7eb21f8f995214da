// Choosing where a new summary ends (src/flops_agent/engine/compaction.py). Message weights are given: one
// natural number of tokens per message.
module SplitSearch {
  import opened Prelude
  import opened Messages
  import opened Alignment

  /** Total of `overhead` and the kept tail that is aimed at, and what the tail must at least hold. */
  datatype Limits = Limits(
    low: int, high: int, overhead: int, reserved: nat, minTailTokens: int, minTailMessages: int)
  {
    function Low(): int { if low < 0 then 0 else low }
    function High(): int { if high < Low() + 1 then Low() + 1 else high }
    function Overhead(): nat { if overhead < 0 then 0 else overhead }

    /** The last candidate: the reserved newest messages are out of reach, in a history longer than them. */
    function Upper(length: nat): (n: nat)
      requires length > 0
      ensures n < length
    {
      if length > reserved then length - 1 - reserved else length - 1
    }
  }

  method SuffixTotals(w: seq<nat>) returns (suffix: seq<nat>)
    ensures |suffix| == |w| + 1
    ensures forall i :: 0 <= i <= |w| ==> suffix[i] == Sum(w[i..])
  {
    suffix := [0];
    var i := |w|;
    while i > 0
      invariant 0 <= i <= |w| && |suffix| == |w| - i + 1
      invariant forall k :: 0 <= k < |suffix| ==> suffix[k] == Sum(w[i + k..])
    {
      i := i - 1;
      assert w[i..][1..] == w[i + 1..];
      suffix := [w[i] + suffix[0]] + suffix;
    }
  }

  /** The weight of a slice, by adding up its messages; out-of-range ends are clamped. */
  method SliceTotal(w: seq<nat>, start: int, end: int) returns (total: nat)
    ensures var lo := if start < 0 then 0 else start;
            var hi := if end < 0 then 0 else if end < |w| then end else |w|;
            total == if lo <= hi then Sum(w[lo..hi]) else 0
  {
    total := 0;
    var lo := if start < 0 then 0 else start;
    var hi := if end < 0 then 0 else if end < |w| then end else |w|;
    if lo > hi { return; }
    for i := lo to hi
      invariant total == Sum(w[lo..i])
    {
      assert w[lo..i + 1] == w[lo..i] + [w[i]];
      SumConcat(w[lo..i], [w[i]]);
      assert [w[i]][1..] == [];
      total := total + w[i];
    }
  }

  /** A tail of `w` from `start` holds enough messages and enough tokens, or all there is. */
  predicate TailOk(w: seq<nat>, start: int, minTokens: int, minMessages: int) {
    && 0 <= start <= |w|
    && (minMessages > 0 ==> |w| - start >= (if minMessages < |w| then minMessages else |w|))
    && (minTokens > 0 ==> Sum(w[start..]) >= (if minTokens < Sum(w) then minTokens else Sum(w)))
  }

  method TailConstraintsMet(suffix: seq<nat>, ghost w: seq<nat>, start: int, minTokens: int, minMessages: int)
    returns (ok: bool)
    requires |suffix| == |w| + 1 && forall i :: 0 <= i <= |w| ==> suffix[i] == Sum(w[i..])
    ensures ok == TailOk(w, start, minTokens, minMessages)
  {
    var length := |suffix| - 1;
    assert w[0..] == w;
    if start < 0 || start > length { return false; }
    if minTokens <= 0 && minMessages <= 0 { return true; }
    if minMessages > 0 && length - start < (if minMessages < length then minMessages else length) { return false; }
    if minTokens > 0 && suffix[start] < (if minTokens < suffix[0] then minTokens else suffix[0]) { return false; }
    return true;
  }

  /** Overhead plus what is kept when the summary ends, aligned, at `n`. */
  function Total(h: seq<Message>, w: seq<nat>, lim: Limits, n: nat): (t: nat)
    requires |h| == |w| && n <= |h|
  {
    lim.Overhead() + Sum(w[Align(h, n)..])
  }

  /** The three passes: within the range; not above it; not below it. */
  datatype Pass = InRange | NotAbove | NotBelow

  predicate Fits(h: seq<Message>, w: seq<nat>, lim: Limits, pass: Pass, n: nat)
    requires |h| == |w| && n <= |h|
  {
    && TailOk(w, Align(h, n), lim.minTailTokens, lim.minTailMessages)
    && (pass.NotAbove? || lim.Low() <= Total(h, w, lim, n))
    && (pass.NotBelow? || Total(h, w, lim, n) <= lim.High())
  }

  /** The largest candidate up to `n` a pass accepts, -1 if none. */
  function Largest(h: seq<Message>, w: seq<nat>, lim: Limits, pass: Pass, n: int): (r: int)
    requires |h| == |w| && -1 <= n <= |h|
    ensures -1 <= r <= n
    ensures r >= 0 ==> Fits(h, w, lim, pass, r)
    ensures forall m :: r < m <= n ==> !Fits(h, w, lim, pass, m)
    decreases n + 1
  {
    if n < 0 || Fits(h, w, lim, pass, n) then n else Largest(h, w, lim, pass, n - 1)
  }

  method FindLargest(h: seq<Message>, ghost w: seq<nat>, suffix: seq<nat>, lim: Limits, pass: Pass) returns (raw: int)
    requires |h| == |w| > 0
    requires |suffix| == |w| + 1 && forall i :: 0 <= i <= |w| ==> suffix[i] == Sum(w[i..])
    ensures raw == Largest(h, w, lim, pass, lim.Upper(|h|))
  {
    var n: int := lim.Upper(|h|);
    while n >= 0
      invariant -1 <= n < |h|
      invariant Largest(h, w, lim, pass, n) == Largest(h, w, lim, pass, lim.Upper(|h|))
    {
      var ts := AdjustTailStart(h, n);
      var ok := TailConstraintsMet(suffix, w, ts, lim.minTailTokens, lim.minTailMessages);
      if ok {
        var total := lim.Overhead() + suffix[ts];
        if (pass.NotAbove? || lim.Low() <= total) && (pass.NotBelow? || total <= lim.High()) { return n; }
      }
      n := n - 1;
    }
    return -1;
  }

  function IdealCovers(h: seq<Message>, w: seq<nat>, lim: Limits): (r: int)
    requires |h| == |w|
  {
    if h == [] then 0
    else
      var n := lim.Upper(|h|);
      var first := Largest(h, w, lim, InRange, n);
      var second := if first < 0 then Largest(h, w, lim, NotAbove, n) else first;
      var third := if second < 0 then Largest(h, w, lim, NotBelow, n) else second;
      Align(h, if third < 0 then 0 else third)
  }

  method ComputeIdealCovers(h: seq<Message>, w: seq<nat>, lim: Limits) returns (r: int)
    requires |h| == |w|
    ensures r == IdealCovers(h, w, lim)
  {
    if h == [] { return 0; }
    var suffix := SuffixTotals(w);
    var raw := FindLargest(h, w, suffix, lim, InRange);
    if raw < 0 { raw := FindLargest(h, w, suffix, lim, NotAbove); }
    if raw < 0 { raw := FindLargest(h, w, suffix, lim, NotBelow); }
    if raw < 0 { raw := 0; }
    if raw >= |h| { raw := |h| - 1; }
    r := AdjustTailStart(h, raw);
  }

  // ----- What the search finds ------------------------------------------------------

  /** Keeping everything always satisfies the tail constraints, and one of the last two passes. */
  lemma KeepingEverythingFits(h: seq<Message>, w: seq<nat>, lim: Limits)
    requires |h| == |w| > 0
    ensures Fits(h, w, lim, NotAbove, 0) || Fits(h, w, lim, NotBelow, 0)
  {
    assert w[0..] == w;
  }

  /** The first of the three passes that accepts any candidate. */
  function FirstPass(h: seq<Message>, w: seq<nat>, lim: Limits): (pass: Pass)
    requires |h| == |w| > 0
  {
    if Largest(h, w, lim, InRange, lim.Upper(|h|)) >= 0 then InRange
    else if Largest(h, w, lim, NotAbove, lim.Upper(|h|)) >= 0 then NotAbove
    else NotBelow
  }

  /** One of the passes always accepts a candidate (the final default of 0 is never reached), and the search
      returns the aligned image of the largest candidate of the first such pass. */
  lemma SearchFindsLargest(h: seq<Message>, w: seq<nat>, lim: Limits)
    requires |h| == |w| > 0
    ensures var pass := FirstPass(h, w, lim);
            var n := Largest(h, w, lim, pass, lim.Upper(|h|));
            n >= 0 && IdealCovers(h, w, lim) == Align(h, n)
  {
    KeepingEverythingFits(h, w, lim);
  }

  /** On histories whose results follow their requests: the summary ends at a turn boundary, leaves the reserved
      newest messages out, keeps an allowed tail in the range of its pass, and covers at least as much as any
      other candidate of that pass would. */
  lemma SearchMeetsItsLimits(h: seq<Message>, w: seq<nat>, lim: Limits)
    requires |h| == |w| > 0 && ToolsFollow(h)
    ensures var r := IdealCovers(h, w, lim);
            && 0 <= r < |h| && !h[r].Tool?
            && (|h| > lim.reserved ==> |h| - r > lim.reserved)
            && TailOk(w, r, lim.minTailTokens, lim.minTailMessages)
            && Align(h, r) == r
            && Fits(h, w, lim, FirstPass(h, w, lim), r)
            && forall m :: 0 <= m <= lim.Upper(|h|) && Fits(h, w, lim, FirstPass(h, w, lim), m) ==> Align(h, m) <= r
  {
    SearchFindsLargest(h, w, lim);
    var pass := FirstPass(h, w, lim);
    var n := Largest(h, w, lim, pass, lim.Upper(|h|));
    AlignNeverForward(h, n);
    AlignIdempotent(h, n);
    forall m | 0 <= m <= lim.Upper(|h|) && Fits(h, w, lim, pass, m) ensures Align(h, m) <= Align(h, n) {
      assert m <= n;
      AlignMonotone(h, m, n);
    }
  }

  /** The summary may end at `m`: it is not among the reserved newest messages, and the tail it leaves holds the
      least number of messages and tokens, or all there are. */
  ghost predicate MayEndAt(h: seq<Message>, w: seq<nat>, lim: Limits, m: nat)
    requires |h| == |w|
  {
    && m < |h| && (|h| > lim.reserved ==> m + lim.reserved < |h|)
    && 0 <= Align(h, m) <= |h|
    && (lim.minTailMessages > 0 ==> |h| - Align(h, m) >= lim.minTailMessages || Align(h, m) == 0)
    && (lim.minTailTokens > 0 ==> Sum(w[Align(h, m)..]) >= lim.minTailTokens || Sum(w[Align(h, m)..]) == Sum(w))
  }

  lemma MayEndAtIff(h: seq<Message>, w: seq<nat>, lim: Limits, m: nat)
    requires |h| == |w| && m < |h|
    ensures MayEndAt(h, w, lim, m) <==>
            m <= lim.Upper(|h|) && TailOk(w, Align(h, m), lim.minTailTokens, lim.minTailMessages)
  {
    if 0 <= Align(h, m) <= |h| { SumOfSuffixes(w, 0, Align(h, m)); assert w[0..] == w; }
  }

  /** Which split is chosen: if one within the target range is allowed, one is taken that lies in the range and covers
      at least as much as any of them; failing that, if one below its upper line is allowed, one below it; and
      otherwise one above. */
  lemma TargetIsPreferred(h: seq<Message>, w: seq<nat>, lim: Limits, m: nat)
    requires |h| == |w| > 0 && ToolsFollow(h) && lim.overhead >= 0 && 0 <= lim.low < lim.high
    requires MayEndAt(h, w, lim, m)
    ensures var r, total := IdealCovers(h, w, lim), lim.overhead + Sum(w[Align(h, m)..]);
            && 0 <= r < |h|
            && (lim.low <= total <= lim.high ==>
                  lim.low <= lim.overhead + Sum(w[r..]) <= lim.high && Align(h, m) <= r)
            && (total <= lim.high ==> lim.overhead + Sum(w[r..]) <= lim.high)
            && (lim.overhead + Sum(w[r..]) < lim.low ==> total < lim.low || lim.high < total)
  {
    MayEndAtIff(h, w, lim, m);
    SearchMeetsItsLimits(h, w, lim);
    FirstPassIsFirst(h, w, lim, m);
  }

  /** A candidate of an earlier pass makes that pass the one that decides. */
  lemma FirstPassIsFirst(h: seq<Message>, w: seq<nat>, lim: Limits, m: nat)
    requires |h| == |w| > 0 && m <= lim.Upper(|h|)
    ensures Fits(h, w, lim, InRange, m) ==> FirstPass(h, w, lim).InRange?
    ensures Fits(h, w, lim, NotAbove, m) ==> !FirstPass(h, w, lim).NotBelow?
  {
  }
}
