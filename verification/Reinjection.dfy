// What else goes into a compacted conversation: the newest results of the summarised part, put back in; and where
// an over-long transcript for a new summary starts (src/flops_agent/engine/compaction.py).
module Reinjection {
  import opened Prelude
  import opened Messages
  import opened Alignment
  import opened Whitespace
  import opened Projection
  import SplitSearch

  /** What a result is put back under: its parent call, or its bare id if there is no such call. */
  datatype Caption = OfCall(name: string, arguments: string) | OfId(id: string) {
    /** Arguments are cut at 240 characters. */
    function Text(): (t: string)
      ensures |t| == Length()
    {
      match this
      case OfCall(name, arguments) =>
        (if name == "" then "?" else name) + "("
        + (if |arguments| > 240 then arguments[..240] + "..." else arguments) + ")"
      case OfId(id) => "tool_call_id=" + (if id == "" then "?" else id)
    }

    function Length(): (n: nat) {
      match this
      case OfCall(name, arguments) =>
        (if name == "" then 1 else |name|) + 2 + (if |arguments| > 240 then 243 else |arguments|)
      case OfId(id) => 13 + (if id == "" then 1 else |id|)
    }
  }

  function CaptionOf(call: Option<Call>, id: string): (caption: Caption) {
    match call
    case None => OfId(id)
    case Some(c) => OfCall(c.name, c.arguments)
  }

  /** A result to put back: its place in the history, its caption and its text. */
  datatype Pick = Pick(index: nat, caption: Caption, text: string) {
    function Size(): (n: nat) { caption.Length() + |text| + 64 }
  }

  /** The text a result is put back with. */
  function Restored(cfg: Config, m: Message): (text: string)
    requires m.Tool?
  {
    SoftTrimmed(cfg, m.content, 0)
  }

  function PickOf(cfg: Config, m: Message, i: nat, call: Option<Call>): (p: Pick)
    requires m.Tool?
    ensures p.index == i && p.text == Restored(cfg, m)
  {
    Pick(i, CaptionOf(call, m.callId), Restored(cfg, m))
  }

  /** Results of less than 200 characters, white space around them apart, are skipped. */
  predicate WorthIt(cfg: Config, m: Message) { m.Tool? && Spans(Restored(cfg, m), 200) }

  /** What message `i` would be put back as, if it is worth it. */
  function Candidate(cfg: Config, h: seq<Message>, upper: nat, i: nat): (p: Option<Pick>)
    requires i < upper <= |h|
    ensures p.Some? <==> WorthIt(cfg, h[i])
    ensures p.Some? ==> p.value.index == i && p.value.text == Restored(cfg, h[i])
  {
    if WorthIt(cfg, h[i]) then Some(PickOf(cfg, h[i], i, Parent(h[..upper], h[i].callId))) else None
  }

  /** The candidates of the summarised part, by place. */
  predicate ByPlace(items: seq<Option<Pick>>) {
    forall i :: 0 <= i < |items| && items[i].Some? ==> items[i].value.index == i
  }

  function Upper(h: seq<Message>, covers: int): (upper: nat)
    ensures upper <= |h|
  {
    if covers < 0 then 0 else if covers < |h| then covers else |h|
  }

  function Candidates(cfg: Config, h: seq<Message>, covers: int): (items: seq<Option<Pick>>)
    ensures |items| == Upper(h, covers) && ByPlace(items)
    ensures forall i :: 0 <= i < |items| ==> items[i] == Candidate(cfg, h, |items|, i)
  {
    var upper := Upper(h, covers);
    seq(upper, i requires 0 <= i < upper => Candidate(cfg, h, upper, i))
  }

  /** The newest picks among the first `i` candidates: at most `k`, at most `budget` in all, oldest first. */
  function Gathered(items: seq<Option<Pick>>, i: nat, k: nat, budget: int): (r: seq<Pick>)
    requires i <= |items|
    decreases i
  {
    if i == 0 || k == 0 then []
    else if items[i - 1].None? then Gathered(items, i - 1, k, budget)
    else
      var p := items[i - 1].value;
      if p.Size() > budget then [] else Gathered(items, i - 1, k - 1, budget - p.Size()) + [p]
  }

  function Reinjected(items: seq<Option<Pick>>, k: int, budget: int): (r: seq<Pick>) {
    if k <= 0 || budget <= 0 then [] else Gathered(items, |items|, k, budget)
  }

  /** Message `i` as a candidate, its parent call looked up in the table. */
  method CandidateAt(cfg: Config, h: seq<Message>, upper: nat, i: nat, table: map<string, Call>)
    returns (p: Option<Pick>)
    requires i < upper <= |h| && IsIndex(table, h[..upper])
    ensures p == Candidate(cfg, h, upper, i)
  {
    if !h[i].Tool? { return None; }
    var text := Restored(cfg, h[i]);
    StripSpansIff(text, 200);
    if |Strip(text)| < 200 { return None; }
    var id := h[i].callId;
    var call := if id in table then Some(table[id]) else None;
    assert call == Parent(h[..upper], id);
    return Some(PickOf(cfg, h[i], i, call));
  }

  /** The candidates of the summarised part, their parent calls looked up in a table made once. */
  method CandidateTable(cfg: Config, h: seq<Message>, upper: nat) returns (items: seq<Option<Pick>>)
    requires upper <= |h|
    ensures items == Candidates(cfg, h, upper)
  {
    var table := IndexCalls(h[..upper]);
    items := [];
    for i := 0 to upper
      invariant |items| == i && forall j :: 0 <= j < i ==> items[j] == Candidate(cfg, h, upper, j)
    {
      var item := CandidateAt(cfg, h, upper, i, table);
      items := items + [item];
    }
  }

  method GatherRecent(cfg: Config, h: seq<Message>, covers: int, k: int, budget: int) returns (picked: seq<Pick>)
    ensures picked == Reinjected(Candidates(cfg, h, covers), k, budget)
  {
    picked := [];
    if k <= 0 || budget <= 0 || covers <= 0 { return; }
    var items := CandidateTable(cfg, h, Upper(h, covers));
    picked := Scan(items, k, budget);
  }

  method Scan(items: seq<Option<Pick>>, k: int, budget: int) returns (picked: seq<Pick>)
    requires k > 0 && budget > 0
    ensures picked == Reinjected(items, k, budget)
  {
    picked := [];
    var used := 0;
    var i := |items|;
    while i > 0
      invariant 0 <= i <= |items| && |picked| < k
      invariant Reinjected(items, k, budget) == Gathered(items, i, k - |picked|, budget - used) + picked
    {
      i := i - 1;
      if items[i].Some? {
        var p := items[i].value;
        if used + p.Size() > budget { return; }
        PicksNext(items, i, k - |picked|, budget - used, picked);
        picked := [p] + picked;
        used := used + p.Size();
        if |picked| >= k { return; }
      }
    }
  }

  lemma PicksNext(items: seq<Option<Pick>>, i: nat, k: nat, budget: int, newer: seq<Pick>)
    requires i < |items| && items[i].Some? && k > 0 && items[i].value.Size() <= budget
    ensures var p := items[i].value;
            Gathered(items, i + 1, k, budget) + newer == Gathered(items, i, k - 1, budget - p.Size()) + ([p] + newer)
  {
  }

  function SizeOf(picks: seq<Pick>): (n: nat) {
    if picks == [] then 0 else SizeOf(picks[..|picks| - 1]) + picks[|picks| - 1].Size()
  }

  /** Chronological, and all of them candidates among the first `upper`. */
  ghost predicate InOrder(items: seq<Option<Pick>>, upper: nat, picks: seq<Pick>) {
    && upper <= |items|
    && (forall a, b :: 0 <= a < b < |picks| ==> picks[a].index < picks[b].index)
    && (forall a :: 0 <= a < |picks| ==> picks[a].index < upper && items[picks[a].index] == Some(picks[a]))
  }

  predicate Picked(picks: seq<Pick>, i: nat) { exists a :: 0 <= a < |picks| && picks[a].index == i }

  lemma InOrderSnoc(items: seq<Option<Pick>>, upper: nat, older: seq<Pick>)
    requires upper < |items| && items[upper].Some? && items[upper].value.index == upper && InOrder(items, upper, older)
    ensures InOrder(items, upper + 1, older + [items[upper].value])
  {
  }

  lemma {:induction false} GatheredInOrder(items: seq<Option<Pick>>, i: nat, k: nat, budget: int)
    requires i <= |items| && ByPlace(items)
    ensures InOrder(items, i, Gathered(items, i, k, budget))
    decreases i
  {
    if i > 0 && k > 0 {
      if items[i - 1].None? {
        GatheredInOrder(items, i - 1, k, budget);
      } else {
        var p := items[i - 1].value;
        GatheredInOrder(items, i - 1, k - 1, budget - p.Size());
        InOrderSnoc(items, i - 1, Gathered(items, i - 1, k - 1, budget - p.Size()));
      }
    }
  }

  lemma {:induction false} GatheredIsBounded(items: seq<Option<Pick>>, i: nat, k: nat, budget: int)
    requires i <= |items| && budget >= 0
    ensures |Gathered(items, i, k, budget)| <= k && SizeOf(Gathered(items, i, k, budget)) <= budget
    decreases i
  {
    if i > 0 && k > 0 {
      if items[i - 1].None? {
        GatheredIsBounded(items, i - 1, k, budget);
      } else {
        var p := items[i - 1].value;
        if p.Size() <= budget {
          GatheredIsBounded(items, i - 1, k - 1, budget - p.Size());
          var older := Gathered(items, i - 1, k - 1, budget - p.Size());
          assert (older + [p])[..|older|] == older;
        }
      }
    }
  }

  /** No newer candidate is passed over for an older one. */
  lemma {:induction false} GatheredAreNewest(items: seq<Option<Pick>>, i: nat, k: nat, budget: int, j: nat)
    requires i <= |items| && ByPlace(items) && j < i && items[j].Some?
    requires var r := Gathered(items, i, k, budget); r != [] && r[0].index <= j
    ensures Picked(Gathered(items, i, k, budget), j)
    decreases i
  {
    var r := Gathered(items, i, k, budget);
    if items[i - 1].None? {
      GatheredAreNewest(items, i - 1, k, budget, j);
    } else {
      var p := items[i - 1].value;
      var older := Gathered(items, i - 1, k - 1, budget - p.Size());
      if j == i - 1 {
        assert r[|r| - 1].index == j;
      } else if older != [] {
        assert older[0] == r[0];
        GatheredAreNewest(items, i - 1, k - 1, budget - p.Size(), j);
        var a :| 0 <= a < |older| && older[a].index == j;
        assert r[a].index == j;
      }
    }
  }

  lemma SizeOfSnoc(picks: seq<Pick>, p: Pick)
    ensures SizeOf(picks + [p]) == SizeOf(picks) + p.Size()
  {
    assert (picks + [p])[..|picks|] == picks;
  }

  lemma PickedSnoc(picks: seq<Pick>, p: Pick, i: nat)
    ensures Picked(picks + [p], i) <==> Picked(picks, i) || p.index == i
  {
    var all := picks + [p];
    assert all[|picks|] == p;
    assert forall a :: 0 <= a < |picks| ==> all[a] == picks[a];
  }

  /** The newest candidate `n` left out does not fit what the picks leave of the budget. */
  ghost predicate StopsAt(items: seq<Option<Pick>>, i: nat, picks: seq<Pick>, budget: int, n: nat)
    requires i <= |items|
  {
    && n < i && items[n].Some? && !Picked(picks, n) && SizeOf(picks) + items[n].value.Size() > budget
    && forall m :: n < m < i && items[m].Some? ==> Picked(picks, m)
  }

  /** As many as count and budget allow: if some candidate is left out although fewer than `k` are picked, then the
      newest one left out is too large for what is left of the budget. */
  lemma {:induction false} GatheredIsMaximal(items: seq<Option<Pick>>, i: nat, k: nat, budget: int, j: nat)
    returns (n: nat)
    requires i <= |items| && ByPlace(items) && j < i && items[j].Some?
    requires !Picked(Gathered(items, i, k, budget), j) && |Gathered(items, i, k, budget)| < k
    ensures StopsAt(items, i, Gathered(items, i, k, budget), budget, n)
    decreases i
  {
    if items[i - 1].None? {
      n := GatheredIsMaximal(items, i - 1, k, budget, j);
    } else {
      var p := items[i - 1].value;
      if p.Size() > budget {
        n := i - 1;
      } else {
        var older := Gathered(items, i - 1, k - 1, budget - p.Size());
        PickedSnoc(older, p, j);
        n := GatheredIsMaximal(items, i - 1, k - 1, budget - p.Size(), j);
        SizeOfSnoc(older, p);
        forall m | n <= m < i ensures Picked(older + [p], m) <==> Picked(older, m) || m == i - 1 {
          PickedSnoc(older, p, m);
        }
      }
    }
  }

  /** The same of a whole re-injection. */
  lemma ReinjectionIsMaximal(items: seq<Option<Pick>>, k: int, budget: int, j: nat) returns (n: nat)
    requires ByPlace(items) && j < |items| && items[j].Some? && k > 0 && budget > 0
    requires !Picked(Reinjected(items, k, budget), j) && |Reinjected(items, k, budget)| < k
    ensures StopsAt(items, |items|, Reinjected(items, k, budget), budget, n)
  {
    n := GatheredIsMaximal(items, |items|, k, budget, j);
  }

  /** The candidates are exactly the summarised results that, trimmed and stripped, have at least 200 characters. */
  lemma CandidatesAreLong(cfg: Config, h: seq<Message>, covers: int, i: nat)
    requires i < |h| && i < covers
    ensures i < |Candidates(cfg, h, covers)|
    ensures var c := Candidates(cfg, h, covers)[i];
            && (c.Some? <==> h[i].Tool? && |Strip(SoftTrimmed(cfg, h[i].content, 0))| >= 200)
            && (c.Some? ==> c.value.index == i && c.value.text == SoftTrimmed(cfg, h[i].content, 0))
  {
    if h[i].Tool? { StripSpansIff(SoftTrimmed(cfg, h[i].content, 0), 200); }
  }

  /** A result is put back under the name and arguments of the newest summarised request for its id, and under the
      bare id if there is none. */
  lemma PickIsLabelled(cfg: Config, h: seq<Message>, covers: int, i: nat, k: nat)
    requires i < Upper(h, covers) && WorthIt(cfg, h[i]) && h[i].callId != ""
    requires k <= Upper(h, covers) && forall j :: k <= j < Upper(h, covers) ==> !Names(h[j], h[i].callId)
    ensures var c := Candidates(cfg, h, covers)[i];
            && c.Some?
            && (k == 0 ==> c.value.caption == OfId(h[i].callId))
            && (k > 0 && Names(h[k - 1], h[i].callId) ==>
                  var call := h[k - 1].calls[LastCall(h[k - 1].calls, h[i].callId)];
                  c.value.caption == OfCall(call.name, call.arguments))
  {
    NameIsNewest(h[..Upper(h, covers)], h[i].callId, k);
  }

  /** Re-injected results are chronological, within count and budget, and all from the summarised part; and none of
      them is sent again verbatim, provided the summary's end is aligned. */
  lemma ReinjectionIsBounded(items: seq<Option<Pick>>, h: seq<Message>, covers: int, k: int, budget: int)
    requires ByPlace(items) && |items| == Upper(h, covers)
    ensures var r := Reinjected(items, k, budget);
            && InOrder(items, |items|, r)
            && (r == [] || (|r| <= k && SizeOf(r) <= budget))
            && (0 <= covers <= |h| && Align(h, covers) == covers ==>
                  forall a :: 0 <= a < |r| ==> r[a].index < Align(h, covers))
  {
    if k > 0 && budget > 0 {
      GatheredInOrder(items, |items|, k, budget);
      GatheredIsBounded(items, |items|, k, budget);
    }
  }

  /** The newest candidate below `i`; -1 if there is none. */
  function Newest(items: seq<Option<Pick>>, i: nat): (n: int)
    requires i <= |items|
    ensures -1 <= n < i && (n >= 0 ==> items[n].Some?)
    ensures forall j :: n < j < i ==> items[j].None?
  {
    if i == 0 then -1 else if items[i - 1].Some? then i - 1 else Newest(items, i - 1)
  }

  /** Something at or behind `start` is picked. */
  predicate Reaches(picks: seq<Pick>, start: nat) { exists a :: 0 <= a < |picks| && picks[a].index >= start }

  lemma {:induction false} GatheredReachesIff(items: seq<Option<Pick>>, i: nat, k: nat, budget: int, start: nat)
    requires i <= |items| && ByPlace(items)
    ensures Reaches(Gathered(items, i, k, budget), start) <==>
            k > 0 && Newest(items, i) >= start && items[Newest(items, i)].value.Size() <= budget
    decreases i
  {
    if i > 0 && k > 0 {
      if items[i - 1].None? {
        GatheredReachesIff(items, i - 1, k, budget, start);
      } else {
        var r := Gathered(items, i, k, budget);
        GatheredInOrder(items, i, k, budget);
        if r != [] { assert r[|r| - 1].index == i - 1; }
      }
    }
  }

  /** A result is sent twice, re-injected and in the tail, iff the newest candidate of the summarised part already
      lies in the tail, which an end inside a tool turn makes possible, and fits the budget. Then it is a result of
      the turn the end falls into. */
  lemma ResultSentTwiceIff(cfg: Config, h: seq<Message>, covers: nat, k: int, budget: int)
    requires covers <= |h|
    ensures var items := Candidates(cfg, h, covers);
            var start := Align(h, covers);
            var n := Newest(items, covers);
            && (Reaches(Reinjected(items, k, budget), start) <==>
                  k > 0 && budget > 0 && n >= start && items[n].value.Size() <= budget)
            && (n >= start && ToolsFollow(h) ==> start < n < covers < |h| && h[covers].Tool?)
  {
    var items := Candidates(cfg, h, covers);
    if k > 0 && budget > 0 { GatheredReachesIff(items, covers, k, budget, Align(h, covers)); }
    if Newest(items, covers) >= Align(h, covers) && ToolsFollow(h) {
      AlignNeverForward(h, covers);
      assert h[Newest(items, covers)].Tool?;
    }
  }

  /** A turn of two calls, the first answered at length. */
  predicate TwoCallTurn(h: seq<Message>) {
    && |h| == 3 && h[0] == Assistant("", "", [Call("a", "read", ""), Call("b", "read", "")])
    && h[1].Tool? && h[1].callId == "a" && |h[1].content| == 200 && IsStripped(h[1].content)
    && h[2] == Tool("b", "ok")
  }

  lemma SomeTwoCallTurn() returns (h: seq<Message>)
    ensures TwoCallTurn(h)
  {
    var calls := [Call("a", "read", ""), Call("b", "read", "")];
    h := [Assistant("", "", calls), Tool("a", seq(200, _ => 'x')), Tool("b", "ok")];
  }

  /** A summary that ends between the results of one turn: the first of them is sent twice. */
  lemma SplitTurnIsSentTwice(cfg: Config, k: int, budget: int) returns (h: seq<Message>)
    requires k > 0 && budget >= 1_000 && cfg.standard.limit >= 200
    ensures TwoCallTurn(h) && Align(h, 2) == 0
    ensures Picked(Reinjected(Candidates(cfg, h, 2), k, budget), 1)
  {
    h := SomeTwoCallTurn();
    FirstOfTwoIsPicked(cfg, h, k, budget);
  }

  lemma FirstOfTwoIsPicked(cfg: Config, h: seq<Message>, k: int, budget: int)
    requires k > 0 && budget >= 1_000 && cfg.standard.limit >= 200 && TwoCallTurn(h)
    ensures Picked(Reinjected(Candidates(cfg, h, 2), k, budget), 1)
  {
    var p := Pick(1, OfCall("read", ""), h[1].content);
    assert p.Size() == 270;
    FirstParent(h);
    PlainCandidate(cfg, h, h[1].content);
    NewestIsPicked(Candidates(cfg, h, 2), 2, k, budget, p);
  }

  lemma FirstParent(h: seq<Message>)
    requires |h| == 3 && h[0] == Assistant("", "", [Call("a", "read", ""), Call("b", "read", "")]) && h[1].Tool?
    ensures Parent(h[..2], "a") == Some(Call("a", "read", ""))
  {
    assert h[..2][..1] == h[..1];
    assert LastCall(h[0].calls, "a") == 0 by { assert h[0].calls[..1] == [Call("a", "read", "")]; }
    assert Parent(h[..1], "a") == Some(Call("a", "read", ""));
  }

  lemma RestoredWhole(cfg: Config, m: Message)
    requires m.Tool? && |m.content| <= cfg.standard.limit
    ensures Restored(cfg, m) == m.content
  {
  }

  lemma PlainIsWorthIt(cfg: Config, m: Message)
    requires m.Tool? && 200 <= |m.content| <= cfg.standard.limit && IsStripped(m.content)
    ensures WorthIt(cfg, m) && Restored(cfg, m) == m.content
  {
    RestoredWhole(cfg, m);
    assert !IsPythonSpace(m.content[0]) && !IsPythonSpace(m.content[|m.content| - 1]);
  }

  lemma PlainCandidate(cfg: Config, h: seq<Message>, content: string)
    requires |h| == 3 && h[1] == Tool("a", content) && 200 <= |content| <= cfg.standard.limit && IsStripped(content)
    requires Parent(h[..2], "a") == Some(Call("a", "read", ""))
    ensures Candidates(cfg, h, 2)[1] == Some(Pick(1, OfCall("read", ""), content))
  {
    PlainIsWorthIt(cfg, h[1]);
  }

  /** The newest candidate is picked whenever it fits. */
  lemma NewestIsPicked(items: seq<Option<Pick>>, n: nat, k: int, budget: int, p: Pick)
    requires |items| == n > 0 && ByPlace(items) && k > 0 && items[n - 1] == Some(p) && p.Size() <= budget
    ensures Picked(Reinjected(items, k, budget), n - 1)
  {
    var r := Gathered(items, n, k, budget);
    assert r[|r| - 1] == p;
  }

  // ----- The transcript for a new summary --------------------------------------------

  /** The first message from which the slice up to `end` fits the cap. */
  function FirstFit(w: seq<nat>, i: nat, end: nat, cap: int): (r: Option<nat>)
    requires i <= end <= |w|
    ensures r.Some? ==> i <= r.value < end && Sum(w[r.value..end]) <= cap
    ensures forall j :: i <= j < (if r.Some? then r.value else end) ==> Sum(w[j..end]) > cap
    decreases end - i
  {
    if i == end then None
    else if Sum(w[i..end]) <= cap then Some(i)
    else FirstFit(w, i + 1, end, cap)
  }

  method TranscriptStart(w: seq<nat>, until: int, cap: int) returns (start: nat, end: nat)
    ensures end == (if until < 0 then 0 else if until < |w| then until else |w|)
    ensures start == match FirstFit(w, 0, end, cap) case Some(i) => i case None => 0
  {
    end := if until < 0 then 0 else if until < |w| then until else |w|;
    start := 0;
    if end == 0 { return; }
    var suffix := SplitSearch.SuffixTotals(w);
    SumOfSuffixes(w, 0, end);
    if suffix[0] - suffix[end] <= cap { return; }
    var i := 0;
    while i < end
      invariant 0 <= i <= end
      invariant FirstFit(w, 0, end, cap) == FirstFit(w, i, end, cap)
    {
      SumOfSuffixes(w, i, end);
      if suffix[i] - suffix[end] <= cap { return i, end; }
      i := i + 1;
    }
  }

  /** The cap is kept exactly when the newest message of the transcript fits it on its own; otherwise nothing is cut
      at all. */
  lemma TranscriptWithinCapIff(w: seq<nat>, end: nat, cap: int)
    requires 0 < end <= |w|
    ensures var fit := FirstFit(w, 0, end, cap);
            && (fit.Some? <==> w[end - 1] <= cap)
            && (Sum(w[(if fit.Some? then fit.value else 0)..end]) <= cap <==> w[end - 1] <= cap)
  {
    var fit := FirstFit(w, 0, end, cap);
    assert w[end - 1..end] == [w[end - 1]];
    assert Sum([w[end - 1]]) == w[end - 1] by { assert [w[end - 1]][1..] == []; }
    if fit.Some? {
      LastIsPart(w, fit.value, end);
    } else {
      LastIsPart(w, 0, end);
    }
  }

  /** One message of weight 5 under a cap of 4: nothing is cut. */
  lemma HeavyMessageIsNotCut()
    ensures FirstFit([5], 0, 1, 4) == None && Sum([5][0..1]) == 5
  {
    TranscriptWithinCapIff([5], 1, 4);
    assert [5][0..1] == [5] && [5][1..] == [];
  }

  lemma LastIsPart(w: seq<nat>, start: nat, end: nat)
    requires start < end <= |w|
    ensures w[end - 1] <= Sum(w[start..end])
  {
    SumSnoc(w[start..end]);
  }
}
