// Trimming a text to a length: head and tail kept, the middle replaced by a marker that states how much was
// left out (src/flops_agent/engine/compaction.py).
module Trim {
  // ----- Decimal numbers ------------------------------------------------------------

  function Digit(d: nat): (c: char)
    requires d < 10
  {
    "0123456789"[d]
  }

  /** Decimal form, without leading zeros. */
  function Decimal(n: nat): (s: string)
    ensures |s| > 0 && (|s| == 1 <==> n < 10)
  {
    if n < 10 then [Digit(n)] else Decimal(n / 10) + [Digit(n % 10)]
  }

  lemma {:induction false} WiderForLarger(m: nat, n: nat)
    requires m <= n
    ensures |Decimal(m)| <= |Decimal(n)|
    decreases n
  {
    if m >= 10 { WiderForLarger(m / 10, n / 10); }
  }

  function Pow10(k: nat): (p: nat)
    ensures p > 0 && (k > 0 ==> p >= 10)
  {
    if k == 0 then 1 else 10 * Pow10(k - 1)
  }

  /** A number has at most k digits iff it is below 10^k. */
  lemma {:induction false} WidthIff(n: nat, k: nat)
    requires k > 0
    ensures |Decimal(n)| <= k <==> n < Pow10(k)
    decreases k
  {
    if n >= 10 && k > 1 { WidthIff(n / 10, k - 1); }
  }

  /** The number that a string of digits denotes. */
  function ValueOf(s: string): (n: int) {
    if s == "" then 0 else 10 * ValueOf(s[..|s| - 1]) + (s[|s| - 1] as int - '0' as int)
  }

  /** The decimal form denotes its number. */
  lemma {:induction false} DecimalDenotes(n: nat)
    ensures ValueOf(Decimal(n)) == n && forall i :: 0 <= i < |Decimal(n)| ==> '0' <= Decimal(n)[i] <= '9'
    decreases n
  {
    if n >= 10 {
      DecimalDenotes(n / 10);
      assert Decimal(n)[..|Decimal(n)| - 1] == Decimal(n / 10);
    } else {
      assert [Digit(n)][..0] == "";
    }
  }

  // ----- Keep head and tail ---------------------------------------------------------

  /** The fixed text around a count. */
  datatype Notice = Notice(before: string, after: string) {
    function Filled(n: nat): (s: string)
      ensures |s| == |before| + |Decimal(n)| + |after|
    {
      before + Decimal(n) + after
    }
  }

  /** What stands for an omitted middle, and for a cut-off end. */
  datatype Wording = Wording(omitted: Notice, cut: Notice)

  /** Room set aside for the marker of a text of length n. */
  function MarkerRoom(w: Wording, n: nat): (r: nat) { |w.omitted.Filled(n)| + 8 }

  /** Too little is left for head and tail: the text is cut off and the notice comes on top. */
  predicate Degenerate(w: Wording, length: nat, maxChars: int) { maxChars - MarkerRoom(w, length) < 64 }

  function MiddleOmitTrim(w: Wording, s: string, maxChars: int): (r: string) {
    if maxChars <= 0 || |s| <= maxChars then s
    else if Degenerate(w, |s|, maxChars) then s[..maxChars] + w.cut.Filled(|s| - maxChars)
    else
      var budget := maxChars - MarkerRoom(w, |s|);
      var head := budget / 2;
      var tail := budget - head;
      s[..head] + w.omitted.Filled(|s| - head - tail) + s[|s| - tail..]
  }

  /** The result fits iff the text already did or enough room is left around the marker; the room is computed from
      the longest count that can appear, so this holds for texts of any length. */
  lemma TrimFitsIff(w: Wording, s: string, maxChars: int)
    requires maxChars > 0
    ensures |MiddleOmitTrim(w, s, maxChars)| <= maxChars <==> |s| <= maxChars || !Degenerate(w, |s|, maxChars)
  {
    if |s| > maxChars && !Degenerate(w, |s|, maxChars) {
      var budget := maxChars - MarkerRoom(w, |s|);
      WiderForLarger(|s| - budget, |s|);
    }
  }

  /** `r` is the first `head` and the last `tail` characters of `s` around a marker that counts the rest. */
  ghost predicate EndsKept(w: Wording, s: string, r: string, head: nat, tail: nat) {
    head + tail < |s| && r == s[..head] + w.omitted.Filled(|s| - head - tail) + s[|s| - tail..]
  }

  /** A trimmed text is a true prefix and a true suffix, at least 32 characters each, around a marker that states
      exactly what is missing. */
  lemma TrimKeepsBothEnds(w: Wording, s: string, maxChars: int) returns (head: nat, tail: nat)
    requires 0 < maxChars < |s|
    requires maxChars >= |w.omitted.before| + |Decimal(|s|)| + |w.omitted.after| + 72
    ensures EndsKept(w, s, MiddleOmitTrim(w, s, maxChars), head, tail) && head >= 32 && tail >= 32
    ensures head <= tail <= head + 1
    ensures head + tail + |w.omitted.before| + |Decimal(|s|)| + |w.omitted.after| + 8 == maxChars
  {
    var budget := maxChars - MarkerRoom(w, |s|);
    head := budget / 2;
    tail := budget - head;
  }

  /** With too little room the text is cut off at the limit, behind it a notice that states exactly what is missing. */
  lemma DegenerateTrimCutsOff(w: Wording, s: string, maxChars: int)
    requires 0 < maxChars < |s|
    requires maxChars < |w.omitted.before| + |Decimal(|s|)| + |w.omitted.after| + 72
    ensures MiddleOmitTrim(w, s, maxChars) == s[..maxChars] + w.cut.before + Decimal(|s| - maxChars) + w.cut.after
  {
    var gone := Decimal(|s| - maxChars);
    assert s[..maxChars] + (w.cut.before + gone + w.cut.after) == s[..maxChars] + w.cut.before + gone + w.cut.after;
  }

  /** Trimming twice is trimming once, unless the second pass has too little room too. */
  lemma TrimIdempotent(w: Wording, s: string, maxChars: int)
    requires maxChars <= 0 || |s| <= maxChars || !Degenerate(w, |s|, maxChars)
    ensures MiddleOmitTrim(w, MiddleOmitTrim(w, s, maxChars), maxChars) == MiddleOmitTrim(w, s, maxChars)
  {
    if maxChars > 0 { TrimFitsIff(w, s, maxChars); }
  }

  /** In the degenerate branch the result only grows past the limit, so a second trim counts the first notice as
      text: it is idempotent there iff the notice is exactly as long as what it stands for. */
  lemma DegenerateTrimIdempotentIff(w: Wording, s: string, maxChars: int)
    requires 0 < maxChars < |s| && Degenerate(w, |s|, maxChars)
    ensures var once := MiddleOmitTrim(w, s, maxChars);
            MiddleOmitTrim(w, once, maxChars) == once <==> |w.cut.Filled(|s| - maxChars)| == |s| - maxChars
  {
    var once := MiddleOmitTrim(w, s, maxChars);
    if Degenerate(w, |once|, maxChars) {
      CutOffTwiceIff(w.cut, s, once, maxChars);
    } else {
      assert |once| != |s|;
      TrimFitsIff(w, once, maxChars);
    }
  }

  lemma CutOffTwiceIff(notice: Notice, s: string, once: string, n: nat)
    requires n < |s| && n < |once| && once == s[..n] + notice.Filled(|s| - n)
    ensures once[..n] + notice.Filled(|once| - n) == once <==> |once| == |s|
  {
    var a, b := |s| - n, |once| - n;
    assert once[..n] == s[..n];
    SamePrefix(s[..n], notice.Filled(b), notice.Filled(a));
    if notice.Filled(b) == notice.Filled(a) { NoticeInjective(notice, b, a); }
  }

  lemma SamePrefix(prefix: string, x: string, y: string)
    ensures prefix + x == prefix + y <==> x == y
  {
    if prefix + x == prefix + y {
      assert x == (prefix + x)[|prefix|..] == (prefix + y)[|prefix|..] == y;
    }
  }

  lemma NoticeInjective(notice: Notice, m: nat, n: nat)
    requires notice.Filled(m) == notice.Filled(n)
    ensures m == n
  {
    var a, b := notice.Filled(m), notice.Filled(n);
    assert a[|notice.before|..|notice.before| + |Decimal(m)|] == Decimal(m);
    assert b[|notice.before|..|notice.before| + |Decimal(n)|] == Decimal(n);
    DecimalInjective(m, n);
  }

  lemma {:induction false} DecimalInjective(m: nat, n: nat)
    requires Decimal(m) == Decimal(n)
    ensures m == n
    decreases m
  {
    if m < 10 || n < 10 {
    } else {
      var a, b := Decimal(m), Decimal(n);
      assert a[..|a| - 1] == Decimal(m / 10) && b[..|b| - 1] == Decimal(n / 10);
      assert a[|a| - 1] == Digit(m % 10) && b[|b| - 1] == Digit(n % 10);
      DecimalInjective(m / 10, n / 10);
    }
  }

  // ----- Tool results ---------------------------------------------------------------

  /** Budget of a tool result's tier: its limit, and how much head and tail are kept at most. */
  datatype Budget = Budget(limit: nat, head: nat, tail: nat)

  function Least(a: int, b: int): int { if a < b then a else b }

  function SoftTrim(w: Wording, s: string, b: Budget): (r: string) {
    if |s| <= b.limit then s
    else
      var budget := b.limit - (|w.omitted.Filled(0)| + 32);
      if budget < 64 then s[..b.limit] + w.cut.Filled(|s| - b.limit)
      else
        var head := Least(b.head, budget / 2);
        var tail := Least(b.tail, budget - head);
        if head + tail == 0 || head + tail >= |s| then s[..b.limit] + w.cut.Filled(|s| - b.limit)
        else s[..head] + w.omitted.Filled(|s| - head - tail) + s[|s| - tail..]
  }

  lemma ReservedRoomFits(w: Wording, s: string, b: Budget)
    requires b.limit >= |w.omitted.Filled(0)| + 96 && b.head + b.tail > 0
    requires |Decimal(|s|)| <= 33
    ensures |SoftTrim(w, s, b)| <= b.limit
  {
    if |s| > b.limit {
      var budget := b.limit - (|w.omitted.Filled(0)| + 32);
      var head := Least(b.head, budget / 2);
      var tail := Least(b.tail, budget - head);
      assert |Decimal(0)| == 1;
      WiderForLarger(|s| - head - tail, |s|);
    }
  }

  /** The marker of a tool result gets 32 spare characters: enough for every text shorter than 10^33. */
  lemma SoftTrimFits(w: Wording, s: string, b: Budget)
    requires b.limit >= |w.omitted.Filled(0)| + 96 && b.head + b.tail > 0
    requires |s| < Pow10(33)
    ensures |SoftTrim(w, s, b)| <= b.limit
  {
    WidthIff(|s|, 33);
    ReservedRoomFits(w, s, b);
  }

  /** What is kept of a trimmed tool result is a true prefix and a true suffix, within the configured head and tail,
      around a marker that states exactly what is missing. */
  lemma SoftTrimKeepsBothEnds(w: Wording, s: string, b: Budget) returns (head: nat, tail: nat)
    requires |s| > b.limit >= |w.omitted.Filled(0)| + 96 && 0 < b.head + b.tail < |s|
    ensures EndsKept(w, s, SoftTrim(w, s, b), head, tail) && head <= b.head && tail <= b.tail
    ensures head == b.head || head == (b.limit - |w.omitted.Filled(0)| - 32) / 2
    ensures tail == b.tail || tail == b.limit - |w.omitted.Filled(0)| - 32 - head
  {
    var budget := b.limit - (|w.omitted.Filled(0)| + 32);
    head := Least(b.head, budget / 2);
    tail := Least(b.tail, budget - head);
  }

  /** With no room for its marker, or nothing to be kept of its ends, a tool result is cut off at the limit, behind it a
      notice that states exactly what is missing. */
  lemma SoftTrimCutsOff(w: Wording, s: string, b: Budget)
    requires |s| > b.limit
    requires b.limit < |w.omitted.before| + |w.omitted.after| + 97 || (b.head == 0 && b.tail == 0)
    ensures SoftTrim(w, s, b) == s[..b.limit] + w.cut.Filled(|s| - b.limit)
  {
    assert |Decimal(0)| == 1;
  }

  // ----- The newest user message under the hard cap ----------------------------------

  /** What the newest user message may keep: what the hard cap leaves after everything else, but at least a floor. */
  function LatestUserBudget(hardMax: int, injection: int, overhead: int, others: nat, safety: int, floor: int)
    : (m: int)
  {
    var rest :=
      hardMax - (if injection < 0 then 0 else injection) - (if overhead < 0 then 0 else overhead) - others - safety;
    if floor < rest then rest else floor
  }

  /** Negative measures count as none. */
  lemma NegativeCountsAsNone(hardMax: int, injection: int, overhead: int, others: nat, safety: int, floor: int)
    ensures injection < 0 ==> LatestUserBudget(hardMax, injection, overhead, others, safety, floor) ==
                              LatestUserBudget(hardMax, 0, overhead, others, safety, floor)
    ensures overhead < 0 ==> LatestUserBudget(hardMax, injection, overhead, others, safety, floor) ==
                             LatestUserBudget(hardMax, injection, 0, others, safety, floor)
  {
  }

  /** Trimmed to that budget, the newest user message keeps the tail within the hard cap whenever the budget is
      above its floor (the message's metadata line comes on top). With a floor of at least 4000 that needs only a
      marker of at most 120 characters and a message shorter than 10^3800. */
  lemma TailStaysUnderHardCap(w: Wording, latest: string, digits: nat, hardMax: int, injection: nat, overhead: nat,
                              others: nat, safety: int, floor: int)
    requires |w.omitted.before| + |w.omitted.after| <= 120
    requires floor >= 4_000 && 0 < digits <= 3_800 && |latest| < Pow10(digits)
    requires LatestUserBudget(hardMax, injection, overhead, others, safety, floor) > floor
    ensures var m := LatestUserBudget(hardMax, injection, overhead, others, safety, floor);
            && others + |MiddleOmitTrim(w, latest, m)| <= hardMax - overhead - injection - safety
            && (others + |latest| <= hardMax - overhead - injection - safety ==> MiddleOmitTrim(w, latest, m) == latest)
  {
    var m := LatestUserBudget(hardMax, injection, overhead, others, safety, floor);
    WidthIff(|latest|, digits);
    TrimFitsIff(w, latest, m);
  }

  /** What the marker leaves unused when a text of length n loses `gone` characters. */
  function Slack(n: nat, gone: nat): (r: int) { 8 + |Decimal(n)| - |Decimal(gone)| }

  lemma TrimmedLength(w: Wording, s: string, maxChars: int) returns (gone: nat)
    requires 0 < maxChars < |s| && !Degenerate(w, |s|, maxChars)
    ensures gone == |s| - (maxChars - MarkerRoom(w, |s|))
    ensures |MiddleOmitTrim(w, s, maxChars)| == maxChars - Slack(|s|, gone)
  {
    gone := |s| - (maxChars - MarkerRoom(w, |s|));
  }

  /** At the floor the cap need not hold: a message within the floor is kept whole, a longer one is cut to the floor
      less the marker's slack, and the cap is kept iff that much is left. */
  lemma FloorKeepsCapIff(w: Wording, latest: string, hardMax: int, injection: nat, overhead: nat, others: nat,
                         safety: int, floor: int)
    requires floor > 0 && (|latest| <= floor || !Degenerate(w, |latest|, floor))
    requires hardMax - overhead - injection - safety - others <= floor
    ensures var rest := hardMax - overhead - injection - safety - others;
            LatestUserBudget(hardMax, injection, overhead, others, safety, floor) == floor &&
            (|MiddleOmitTrim(w, latest, floor)| <= rest <==>
            if |latest| <= floor then |latest| <= rest
            else floor - Slack(|latest|, |latest| - (floor - MarkerRoom(w, |latest|))) <= rest)
  {
    if |latest| > floor { var _ := TrimmedLength(w, latest, floor); }
  }

  /** A message of 4000 characters, a floor of as many, and a cap that leaves one less: the cap is exceeded. */
  lemma FloorExceedsCap(w: Wording) returns (latest: string)
    ensures var m := LatestUserBudget(4_000, 0, 0, 1, 0, 4_000);
            m == 4_000 && 1 + |MiddleOmitTrim(w, latest, m)| == 4_001
  {
    latest := seq(4_000, _ => 'x');
    FloorKeepsCapIff(w, latest, 4_000, 0, 0, 1, 0, 4_000);
  }
}
