// Moving a split point off the middle of a tool turn (src/flops_agent/engine/compaction.py).
module Alignment {
  import opened Messages
  import opened Pairing

  /** First index of the run of tool messages that ends just before `i`. */
  function RunStart(h: seq<Message>, i: nat): (j: nat)
    requires i <= |h|
    ensures j <= i && (forall k :: j <= k < i ==> h[k].Tool?) && (j > 0 ==> !h[j - 1].Tool?)
  {
    if i > 0 && h[i - 1].Tool? then RunStart(h, i - 1) else i
  }

  /** First index from `i` on that is not a tool message. */
  function RunEnd(h: seq<Message>, i: nat): (k: nat)
    requires i <= |h|
    ensures i <= k <= |h| && (forall j :: i <= j < k ==> h[j].Tool?) && (k < |h| ==> !h[k].Tool?)
    decreases |h| - i
  {
    if i < |h| && h[i].Tool? then RunEnd(h, i + 1) else i
  }

  /** Back to the assistant turn a tool message belongs to; forward past tool messages that belong to none. */
  function Align(h: seq<Message>, start: int): (r: int)
    ensures 0 <= start <= |h| ==> 0 <= r <= |h|
  {
    if start <= 0 || start >= |h| || !h[start].Tool? then start
    else
      var j := RunStart(h, start);
      if j > 0 && h[j - 1].Requests() then j - 1 else RunEnd(h, start)
  }

  method AdjustTailStart(h: seq<Message>, start: int) returns (r: int)
    ensures r == Align(h, start)
  {
    var n := |h|;
    if start <= 0 || start >= n { return start; }
    if !h[start].Tool? { return start; }
    var j := start - 1;
    while j >= 0 && h[j].Tool?
      invariant -1 <= j < start
      invariant RunStart(h, j + 1) == RunStart(h, start)
    {
      j := j - 1;
    }
    if j >= 0 && h[j].Assistant? && h[j].calls != [] { return j; }
    var k := start;
    while k < n && h[k].Tool?
      invariant start <= k <= n
      invariant RunEnd(h, k) == RunEnd(h, start)
    {
      k := k + 1;
    }
    return k;
  }

  /** Every run of tool messages follows the assistant turn that asked for it. */
  ghost predicate ToolsFollow(h: seq<Message>) {
    forall i :: 0 <= i < |h| && h[i].Tool? ==> i > 0 && (h[i - 1].Tool? || h[i - 1].Requests())
  }

  /** True of every history the runner keeps. */
  lemma {:induction false} OpenToolsFollow(h: seq<Message>)
    requires Open(h).Some?
    ensures ToolsFollow(h)
    decreases |h|
  {
    if h != [] {
      var n := |h| - 1;
      var before := h[..n];
      assert h == before + [h[n]];
      OpenSnoc(before, h[n]);
      OpenToolsFollow(before);
      forall i | 0 <= i < |h| && h[i].Tool? ensures i > 0 && (h[i - 1].Tool? || h[i - 1].Requests()) {
        if i < n {
          assert before[i] == h[i];
        } else {
          var calls, start := OpenIsBlock(before);
          assert before[n - 1] == h[n - 1];
        }
      }
    }
  }

  lemma RunHasOwner(h: seq<Message>, i: nat)
    requires ToolsFollow(h) && i < |h| && h[i].Tool?
    ensures var j := RunStart(h, i); j > 0 && h[j - 1].Requests()
  {
    var j := RunStart(h, i);
    assert h[j].Tool?;
  }

  /** On such a history alignment never moves forward and never lands on a tool message. */
  lemma AlignNeverForward(h: seq<Message>, start: int)
    requires ToolsFollow(h)
    ensures Align(h, start) <= start
    ensures 0 <= start < |h| ==> !h[Align(h, start)].Tool?
  {
    if 0 <= start < |h| && h[start].Tool? { RunHasOwner(h, start); }
  }

  /** It moves exactly from a tool message, and then back to the request its results follow. */
  lemma AlignFindsRequest(h: seq<Message>, start: int)
    requires ToolsFollow(h)
    ensures var r := Align(h, start);
            && (r < start <==> 0 <= start < |h| && h[start].Tool?)
            && (r < start ==> 0 <= r && h[r].Requests() && forall i :: r < i <= start ==> h[i].Tool?)
  {
    if 0 <= start < |h| && h[start].Tool? { RunHasOwner(h, start); }
  }

  lemma AlignIdempotent(h: seq<Message>, start: int)
    requires ToolsFollow(h)
    ensures Align(h, Align(h, start)) == Align(h, start)
  {
    AlignNeverForward(h, start);
  }

  lemma AlignMonotone(h: seq<Message>, i: int, j: int)
    requires ToolsFollow(h) && i <= j
    ensures Align(h, i) <= Align(h, j)
  {
    AlignNeverForward(h, i);
    AlignNeverForward(h, j);
    assert Align(h, j) < i ==> Align(h, j) == Align(h, i);
  }

  /** On any history at all: a split moves forward exactly when it lands on a tool message whose run follows no
      request, and then to the end of that run. */
  lemma AlignForwardIff(h: seq<Message>, start: int)
    ensures Align(h, start) > start <==>
            0 < start < |h| && h[start].Tool? &&
            (RunStart(h, start) == 0 || !h[RunStart(h, start) - 1].Requests())
    ensures Align(h, start) > start ==> Align(h, start) == RunEnd(h, start)
  {
  }
}
