// When a history is a valid conversation for a provider: after an assistant turn with tool calls
// come the results of those calls, all of them, in order, and nothing else.
module Pairing {
  import opened Prelude
  import opened Messages

  /** Calls still unanswered after one more message, or None if the message may not come here. */
  function Feed(pending: seq<string>, m: Message): (r: Option<seq<string>>) {
    match m
    case Tool(id, _) => if pending != [] && pending[0] == id then Some(pending[1..]) else None
    case Assistant(_, _, calls) => if pending == [] then Some(Ids(calls)) else None
    case _ => if pending == [] then Some([]) else None
  }

  function OpenFrom(pending: seq<string>, h: seq<Message>): (r: Option<seq<string>>) {
    if h == [] then Some(pending)
    else
      var before := OpenFrom(pending, h[..|h| - 1]);
      if before.None? then None else Feed(before.value, h[|h| - 1])
  }

  /** Ids of the calls of the last block that have no result yet; None if the history is broken. */
  function Open(h: seq<Message>): (r: Option<seq<string>>) { OpenFrom([], h) }

  predicate Paired(h: seq<Message>) { Open(h) == Some([]) }

  lemma {:induction false} OpenFromConcat(pending: seq<string>, a: seq<Message>, b: seq<Message>)
    ensures OpenFrom(pending, a + b) ==
            (var mid := OpenFrom(pending, a); if mid.None? then None else OpenFrom(mid.value, b))
  {
    if b == [] {
      assert a + b == a;
    } else {
      assert (a + b)[..|a + b| - 1] == a + b[..|b| - 1];
      OpenFromConcat(pending, a, b[..|b| - 1]);
    }
  }

  lemma OpenSnoc(h: seq<Message>, m: Message)
    ensures Open(h + [m]) == (if Open(h).None? then None else Feed(Open(h).value, m))
  {
    assert (h + [m])[..|h|] == h;
  }

  lemma OpenPrefix(h: seq<Message>, i: nat)
    requires i <= |h| && Open(h).Some?
    ensures Open(h[..i]).Some?
    ensures OpenFrom(Open(h[..i]).value, h[i..]) == Open(h)
  {
    assert h == h[..i] + h[i..];
    OpenFromConcat([], h[..i], h[i..]);
  }

  /** A message that is not a tool result starts from a fully answered history. */
  lemma OnlyToolsInsideBlocks(h: seq<Message>, i: nat)
    requires i < |h| && Open(h).Some? && !h[i].Tool?
    ensures Paired(h[..i])
  {
    OpenPrefix(h, i + 1);
    assert h[..i + 1][..i] == h[..i];
  }

  // ----- Reference definition ------------------------------------------------------

  /** The calls of the assistant turn at `i` are answered in order right behind it, up to the end of `h`. */
  predicate AnsweredInOrder(h: seq<Message>, i: nat)
    requires i < |h| && h[i].Assistant?
  {
    forall k :: i < k < |h| && k <= i + |h[i].calls| ==>
      h[k].Tool? && h[k].callId == h[i].calls[k - i - 1].id
  }

  /** The result at `i` belongs to an assistant turn close enough before it. */
  ghost predicate BelongsToCall(h: seq<Message>, i: nat)
    requires i < |h|
  {
    exists k :: 0 <= k < i && h[k].Assistant? && i <= k + |h[k].calls|
  }

  /** Blocks by position: every call answered in order, every result inside its block, no block cut short. */
  ghost predicate InBlocks(h: seq<Message>) {
    && (forall i :: 0 <= i < |h| && h[i].Assistant? ==> AnsweredInOrder(h, i) && i + |h[i].calls| < |h|)
    && (forall i :: 0 <= i < |h| && h[i].Tool? ==> BelongsToCall(h, i))
  }

  /** From `start` to the end `h` is one assistant turn and its answers so far. */
  ghost predicate Block(h: seq<Message>, calls: seq<Call>, start: nat) {
    && start < |h| <= start + 1 + |calls|
    && Paired(h[..start])
    && h[start].Assistant? && h[start].calls == calls
    && forall i :: start < i < |h| ==> h[i].Tool? && h[i].callId == calls[i - start - 1].id
  }

  lemma {:induction false} BlockIsOpen(h: seq<Message>, calls: seq<Call>, start: nat)
    requires Block(h, calls, start)
    ensures Open(h) == Some(Ids(calls)[|h| - 1 - start..])
    decreases |h|
  {
    var last := |h| - 1;
    var before := h[..last];
    assert h == before + [h[last]];
    OpenSnoc(before, h[last]);
    var ids := Ids(calls);
    if start < last {
      assert before[..start] == h[..start];
      BlockIsOpen(before, calls, start);
      var rest := ids[last - 1 - start..];
      assert rest[0] == h[last].callId && rest[1..] == ids[last - start..];
    } else {
      assert ids[0..] == ids;
    }
  }

  /** One more result of the block. */
  lemma BlockGrows(h: seq<Message>, calls: seq<Call>, start: nat, m: Message)
    requires Block(h, calls, start) && |h| - 1 - start < |calls|
    requires m.Tool? && m.callId == calls[|h| - 1 - start].id
    ensures Block(h + [m], calls, start)
  {
    assert (h + [m])[..start] == h[..start];
  }

  /** Conversely, unanswered calls are the rest of one block at the very end. */
  lemma {:induction false} OpenIsBlock(h: seq<Message>) returns (calls: seq<Call>, start: nat)
    requires Open(h).Some? && Open(h).value != []
    ensures Block(h, calls, start) && Open(h).value == Ids(calls)[|h| - 1 - start..]
    decreases |h|
  {
    var last := |h| - 1;
    var before := h[..last];
    assert h == before + [h[last]];
    OpenSnoc(before, h[last]);
    if h[last].Assistant? {
      calls, start := h[last].calls, last;
      assert Ids(calls)[0..] == Ids(calls);
    } else {
      calls, start := OpenIsBlock(before);
      BlockGrows(before, calls, start, h[last]);
    }
  }

  /** What the automaton guarantees by position, the last block possibly being incomplete. */
  ghost predicate AnsweredSoFar(h: seq<Message>, complete: bool) {
    && (forall i :: 0 <= i < |h| && h[i].Assistant? ==>
          AnsweredInOrder(h, i) && (complete ==> i + |h[i].calls| < |h|))
    && (forall i :: 0 <= i < |h| && h[i].Tool? ==> BelongsToCall(h, i))
  }

  lemma AppendBlock(h: seq<Message>, calls: seq<Call>, start: nat)
    requires Block(h, calls, start) && AnsweredSoFar(h[..start], true)
    ensures AnsweredSoFar(h, |h| == start + 1 + |calls|)
  {
    var cut := h[..start];
    forall i | 0 <= i < |h| && h[i].Assistant?
      ensures AnsweredInOrder(h, i) && (|h| == start + 1 + |calls| ==> i + |h[i].calls| < |h|)
    {
      if i < start {
        assert cut[i] == h[i] && AnsweredInOrder(cut, i) && i + |cut[i].calls| < start;
        assert forall k :: 0 <= k < start ==> h[k] == cut[k];
      }
    }
    forall i | 0 <= i < |h| && h[i].Tool? ensures BelongsToCall(h, i) {
      if i < start {
        assert cut[i] == h[i] && BelongsToCall(cut, i);
        var k :| 0 <= k < i && cut[k].Assistant? && i <= k + |cut[k].calls|;
        assert h[k] == cut[k];
      } else {
        assert h[start].Assistant? && i <= start + |h[start].calls|;
      }
    }
  }

  lemma {:induction false} OpenMeansAnswered(h: seq<Message>)
    requires Open(h).Some?
    ensures AnsweredSoFar(h, Paired(h))
    decreases |h|
  {
    if h != [] {
      var last := |h| - 1;
      var before := h[..last];
      assert h == before + [h[last]];
      OpenSnoc(before, h[last]);
      if h[last].Tool? {
        var calls, start := OpenIsBlock(before);
        assert Ids(calls)[|before| - 1 - start..][0] == calls[|before| - 1 - start].id;
        assert before[..start] == h[..start];
        assert forall i :: start < i < |before| ==> h[i] == before[i];
        assert Block(h, calls, start);
        BlockIsOpen(h, calls, start);
        OpenMeansAnswered(h[..start]);
        AppendBlock(h, calls, start);
      } else if h[last].Assistant? {
        OpenMeansAnswered(before);
        AppendBlock(h, h[last].calls, last);
      } else {
        OpenMeansAnswered(before);
        AppendOther(before, h[last]);
      }
    }
  }

  lemma AppendOther(before: seq<Message>, m: Message)
    requires AnsweredSoFar(before, true) && !m.Assistant? && !m.Tool?
    ensures AnsweredSoFar(before + [m], true)
  {
    var h := before + [m];
    forall i | 0 <= i < |h| && h[i].Assistant? ensures AnsweredInOrder(h, i) && i + |h[i].calls| < |h| {
      assert before[i] == h[i] && AnsweredInOrder(before, i);
      assert forall k :: 0 <= k < |before| ==> h[k] == before[k];
    }
    forall i | 0 <= i < |h| && h[i].Tool? ensures BelongsToCall(h, i) {
      assert before[i] == h[i] && BelongsToCall(before, i);
      var k :| 0 <= k < i && before[k].Assistant? && i <= k + |before[k].calls|;
      assert h[k] == before[k];
    }
  }

  /** The automaton accepts exactly the histories made of complete blocks. */
  lemma PairedIffInBlocks(h: seq<Message>)
    ensures Paired(h) <==> InBlocks(h)
  {
    if Paired(h) { OpenMeansAnswered(h); }
    if InBlocks(h) { InBlocksIsPaired(h); }
  }

  /** The last turn of a history made of complete blocks: one block, or a single other message. */
  lemma LastTurn(h: seq<Message>) returns (start: nat)
    requires InBlocks(h) && h != []
    ensures start < |h| && !h[start].Tool?
    ensures h[start].Assistant? ==> |h| == start + 1 + |h[start].calls| && AnsweredInOrder(h, start)
    ensures !h[start].Assistant? ==> start == |h| - 1
  {
    start := |h| - 1;
    if h[start].Tool? {
      assert BelongsToCall(h, start);
      start :| 0 <= start < |h| - 1 && h[start].Assistant? && |h| - 1 <= start + |h[start].calls|;
    }
  }

  lemma CompleteBlockIsPaired(h: seq<Message>, start: nat)
    requires start < |h| && h[start].Assistant? && |h| == start + 1 + |h[start].calls|
    requires Paired(h[..start]) && AnsweredInOrder(h, start)
    ensures Paired(h)
  {
    var calls := h[start].calls;
    assert Block(h, calls, start);
    BlockIsOpen(h, calls, start);
    assert Ids(calls)[|calls|..] == [];
  }

  lemma {:induction false} InBlocksIsPaired(h: seq<Message>)
    requires InBlocks(h)
    ensures Paired(h)
    decreases |h|
  {
    if h != [] {
      var start := LastTurn(h);
      InBlocksIsPaired(h[..start]);
      if h[start].Assistant? {
        CompleteBlockIsPaired(h, start);
      } else {
        assert h == h[..start] + [h[start]];
        OpenSnoc(h[..start], h[start]);
      }
    }
  }

  /** In a fully answered history every requested call has a result. */
  lemma PairedAnswersEveryCall(h: seq<Message>, i: nat, j: nat)
    requires Paired(h) && i < |h| && h[i].Assistant? && j < |h[i].calls|
    ensures i + 1 + j < |h| && h[i + 1 + j].Tool? && h[i + 1 + j].callId == h[i].calls[j].id
  {
    PairedIffInBlocks(h);
    assert AnsweredInOrder(h, i);
  }
}
