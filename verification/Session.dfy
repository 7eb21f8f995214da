// A conversation's history and the edits the runner makes to it
// (src/flops_agent/entities/session.py).
module Session {
  import opened Prelude
  import opened Messages
  import opened Pairing

  /** The stored pending interaction: which call waits for a person. */
  datatype Marker = Marker(callId: string, toolName: string)

  // ----- Lookups --------------------------------------------------------------------

  /** First call with the given id; the number of calls if there is none. */
  function CallAt(calls: seq<Call>, id: string): (k: nat)
    ensures k <= |calls|
    ensures k < |calls| ==> calls[k].id == id
    ensures forall j :: 0 <= j < k ==> calls[j].id != id
  {
    if calls == [] || calls[0].id == id then 0 else 1 + CallAt(calls[1..], id)
  }

  predicate Asks(m: Message, id: string) { m.Assistant? && CallAt(m.calls, id) < |m.calls| }

  /** The newest message that asks for a call with this id; -1 if there is none. */
  function AskedAt(h: seq<Message>, id: string): (i: int)
    ensures -1 <= i < |h|
    ensures i >= 0 ==> Asks(h[i], id)
    ensures forall j :: i < j < |h| ==> !Asks(h[j], id)
  {
    if h == [] then -1
    else if Asks(h[|h| - 1], id) then |h| - 1
    else AskedAt(h[..|h| - 1], id)
  }

  predicate HasResult(h: seq<Message>, id: string) {
    exists i :: 0 <= i < |h| && h[i].Tool? && h[i].callId == id
  }

  /** The newest message that is not a companion; -1 if there is none. */
  function LastOwn(h: seq<Message>): (i: int)
    ensures -1 <= i < |h|
    ensures i >= 0 ==> !IsCompanion(h[i])
    ensures forall j :: i < j < |h| ==> IsCompanion(h[j])
  {
    if h == [] then -1
    else if !IsCompanion(h[|h| - 1]) then |h| - 1
    else LastOwn(h[..|h| - 1])
  }

  predicate IsCompanion(m: Message) { m.User? && m.companion }

  /** History ends, companions aside, in an assistant reply without tool calls. */
  predicate OpenReply(h: seq<Message>) {
    LastOwn(h) >= 0 && h[LastOwn(h)].Assistant? && h[LastOwn(h)].calls == []
  }

  // ----- Edits ----------------------------------------------------------------------

  /** History without the calls that follow the given one in its turn. */
  function Cut(h: seq<Message>, id: string): (r: seq<Message>)
    ensures |r| == |h|
  {
    var i := AskedAt(h, id);
    if i < 0 then h else h[i := h[i].(calls := h[i].calls[..CallAt(h[i].calls, id) + 1])]
  }

  /** Where that changed anything. */
  function CutIndex(h: seq<Message>, id: string): (r: Option<nat>)
    ensures r.Some? ==> r.value < |h| && h[r.value].Assistant?
  {
    var i := AskedAt(h, id);
    if i >= 0 && CallAt(h[i].calls, id) + 1 < |h[i].calls| then Some(i) else None
  }

  /** One assistant reply: nothing, a continuation of the last message, or a new message. */
  function WriteReply(h: seq<Message>, text: string, reasoning: string, calls: seq<Call>): (r: seq<Message>) {
    if text == "" && reasoning == "" && calls == [] then h
    else if OpenReply(h) && calls == [] then h[|h| - 1 := Continued(h[|h| - 1], text, reasoning)]
    else h + [Assistant(text, reasoning, calls)]
  }

  function Continued(m: Message, text: string, reasoning: string): (r: Message) {
    match m
    case Assistant(content, was, calls) =>
      Assistant(content + text, if reasoning == "" then was else reasoning, calls)
    case User(content, companion, notice, metadata) => User(content + text, companion, notice, metadata)
    case System(content) => System(content + text)
    case Tool(callId, content) => Tool(callId, content + text)
  }

  /** Companions aside, the last message is an assistant turn without calls. */
  ghost predicate EndsInReply(h: seq<Message>) {
    exists i :: 0 <= i < |h| && h[i].Assistant? && h[i].calls == []
      && forall j :: i < j < |h| ==> h[j].User? && h[j].companion
  }

  lemma EndsInReplyIff(h: seq<Message>)
    ensures EndsInReply(h) <==> OpenReply(h)
  {
    if EndsInReply(h) {
      var i :| 0 <= i < |h| && h[i].Assistant? && h[i].calls == []
        && forall j :: i < j < |h| ==> h[j].User? && h[j].companion;
      assert !IsCompanion(h[i]) && LastOwn(h) == i;
    }
    if OpenReply(h) { assert forall j :: LastOwn(h) < j < |h| ==> IsCompanion(h[j]); }
  }

  /** `now` is `was` with the text at its end, and with the reasoning, if there is some, in place of its own. */
  predicate TakesText(was: Message, now: Message, text: string, reasoning: string) {
    match was
    case User(content, companion, notice, metadata) => now == User(content + text, companion, notice, metadata)
    case Assistant(content, old_, calls) =>
      now == Assistant(content + text, if reasoning == "" then old_ else reasoning, calls)
    case _ => false
  }

  /** What a reply does to the history: nothing if it says nothing; a new turn with its text, reasoning and calls; or,
      without calls and behind a reply, its text goes to the end of the last message. */
  lemma ReplyIsWritten(h: seq<Message>, text: string, reasoning: string, calls: seq<Call>)
    ensures var r, n := WriteReply(h, text, reasoning, calls), |h| - 1;
            if text == "" && reasoning == "" && calls == [] then r == h
            else if calls != [] || !EndsInReply(h) then r == h + [Assistant(text, reasoning, calls)]
            else |r| == |h| > 0 && r[..n] == h[..n] && TakesText(h[n], r[n], text, reasoning)
  {
    EndsInReplyIff(h);
  }

  class Session {
    var messages: seq<Message>
    var pending: Option<Marker>

    constructor (messages: seq<Message>, pending: Option<Marker>)
      ensures this.messages == messages && this.pending == pending
    {
      this.messages, this.pending := messages, pending;
    }

    method Append(message: Message)
      modifies this`messages
      ensures messages == old(messages) + [message]
    {
      messages := messages + [message];
    }

    method EndsWithOpenReply() returns (open: bool)
      ensures open == OpenReply(messages)
    {
      var i := |messages| - 1;
      while i >= 0 && IsCompanion(messages[i])
        invariant -1 <= i < |messages|
        invariant forall j :: i < j < |messages| ==> IsCompanion(messages[j])
      {
        i := i - 1;
      }
      open := i >= 0 && messages[i].Assistant? && messages[i].calls == [];
    }

    method HasToolCall(id: string) returns (found: bool)
      ensures found == (exists i :: 0 <= i < |messages| && Asks(messages[i], id))
    {
      for i := 0 to |messages|
        invariant forall j :: 0 <= j < i ==> !Asks(messages[j], id)
      {
        if messages[i].Assistant? {
          for k := 0 to |messages[i].calls|
            invariant forall j :: 0 <= j < k ==> messages[i].calls[j].id != id
          {
            if messages[i].calls[k].id == id {
              assert Asks(messages[i], id);
              return true;
            }
          }
        }
      }
      return false;
    }

    method HasToolResult(id: string) returns (found: bool)
      ensures found == HasResult(messages, id)
    {
      for i := 0 to |messages|
        invariant forall j :: 0 <= j < i ==> !(messages[j].Tool? && messages[j].callId == id)
      {
        if messages[i].Tool? && messages[i].callId == id { return true; }
      }
      return false;
    }

    /** Drops the calls behind the given one; reports the message changed, if any. */
    method TruncateToolCallsAfter(id: string) returns (index: Option<nat>)
      modifies this`messages
      ensures messages == Cut(old(messages), id)
      ensures index == CutIndex(old(messages), id)
    {
      var i := |messages| - 1;
      while i >= 0
        invariant -1 <= i < |messages| && messages == old(messages)
        invariant forall j :: i < j < |messages| ==> !Asks(messages[j], id)
      {
        var msg := messages[i];
        if msg.Assistant? {
          for k := 0 to |msg.calls|
            invariant messages == old(messages)
            invariant forall j :: 0 <= j < k ==> msg.calls[j].id != id
          {
            if msg.calls[k].id == id {
              assert CallAt(msg.calls, id) == k && Asks(msg, id) && AskedAt(messages, id) == i;
              if k + 1 < |msg.calls| {
                messages := messages[i := msg.(calls := msg.calls[..k + 1])];
                return Some(i);
              }
              assert msg.calls[..k + 1] == msg.calls;
              return None;
            }
          }
        }
        i := i - 1;
      }
      return None;
    }
  }

  // ----- What a suspend leaves behind -----------------------------------------------

  /** A call of the newest block is found there, whatever older turns called their calls. */
  lemma AskedInBlock(h: seq<Message>, calls: seq<Call>, start: nat, id: string)
    requires Block(h, calls, start) && CallAt(calls, id) < |calls|
    ensures AskedAt(h, id) == start
  {
    assert Asks(h[start], id);
    assert forall j :: start < j < |h| ==> h[j].Tool?;
  }

  function WithCalls(h: seq<Message>, start: nat, calls: seq<Call>): (r: seq<Message>)
    requires start < |h| && h[start].Assistant?
    ensures |r| == |h|
  {
    h[start := h[start].(calls := calls)]
  }

  lemma CutWhereAsked(h: seq<Message>, start: nat, i: nat, id: string)
    requires AskedAt(h, id) == start && CallAt(h[start].calls, id) == i
    ensures Cut(h, id) == WithCalls(h, start, h[start].calls[..i + 1])
    ensures CutIndex(h, id) == if i + 1 < |h[start].calls| then Some(start) else None
  {
  }

  /** Cutting at the next unanswered call leaves that one call open, as the last of the last block. */
  lemma CutLeavesOne(h: seq<Message>, calls: seq<Call>, start: nat, i: nat)
    requires Block(h, calls, start)
    requires i == |h| - 1 - start < |calls| && CallAt(calls, calls[i].id) == i
    ensures Block(Cut(h, calls[i].id), calls[..i + 1], start)
    ensures Open(Cut(h, calls[i].id)) == Some([calls[i].id])
    ensures CutIndex(h, calls[i].id) == if i + 1 < |calls| then Some(start) else None
  {
    AskedInBlock(h, calls, start, calls[i].id);
    CutWhereAsked(h, start, i, calls[i].id);
    CutIsBlock(h, calls, start, i + 1);
    OneLeft(WithCalls(h, start, calls[..i + 1]), calls[..i + 1], start);
  }

  /** A block that lacks only its last result. */
  lemma OneLeft(h: seq<Message>, calls: seq<Call>, start: nat)
    requires Block(h, calls, start) && |h| == start + |calls|
    ensures Open(h) == Some([calls[|calls| - 1].id])
  {
    BlockIsOpen(h, calls, start);
    assert Ids(calls)[|calls| - 1..] == [calls[|calls| - 1].id];
  }

  /** Cutting behind the results already there leaves a block. */
  lemma CutIsBlock(h: seq<Message>, calls: seq<Call>, start: nat, keep: nat)
    requires Block(h, calls, start) && |h| - 1 - start <= keep <= |calls|
    ensures Block(WithCalls(h, start, calls[..keep]), calls[..keep], start)
  {
    var r := WithCalls(h, start, calls[..keep]);
    assert r[..start] == h[..start];
    forall i | start < i < |r|
      ensures r[i].Tool? && r[i].callId == calls[..keep][i - start - 1].id
    {
      assert r[i] == h[i];
    }
  }

  /** History after a suspend: a call without an id cannot be looked up, so nothing is cut. */
  function AfterSuspend(h: seq<Message>, id: string): (r: seq<Message>) {
    if id == "" then h else Cut(h, id)
  }

  /** A suspend leaves exactly the asking call open iff that call can be told from the earlier ones:
      by its id, or, when it has none, by being the last of its batch. */
  lemma SuspendLeavesOneIff(h: seq<Message>, calls: seq<Call>, start: nat)
    requires Block(h, calls, start) && |h| - 1 - start < |calls|
    ensures var i := |h| - 1 - start;
            var id := calls[i].id;
            Open(AfterSuspend(h, id)) == Some([id]) <==>
            if id == "" then i + 1 == |calls| else id !in Ids(calls[..i])
  {
    var i := |h| - 1 - start;
    var id := calls[i].id;
    var k := CallAt(calls, id);
    if id == "" {
      BlockIsOpen(h, calls, start);
      if i + 1 == |calls| { assert Ids(calls)[i..] == [id]; }
    } else if k == i {
      CutLeavesOne(h, calls, start, i);
      assert forall j :: 0 <= j < i ==> Ids(calls[..i])[j] == calls[j].id;
    } else {
      assert Ids(calls[..i])[k] == id;
      AskedInBlock(h, calls, start, id);
      var r := Cut(h, id);
      assert r[..start] == h[..start];
      if k + 1 == i {
        BlockIsOpen(r, calls[..k + 1], start);
        assert Ids(calls[..k + 1])[i..] == [];
      } else {
        TooManyResults(r, calls[..k + 1], start);
      }
    }
  }

  /** One result more than the turn asked for breaks the history. */
  lemma TooManyResults(h: seq<Message>, calls: seq<Call>, start: nat)
    requires start + 1 + |calls| < |h| && Paired(h[..start])
    requires h[start].Assistant? && h[start].calls == calls
    requires forall i :: start < i < |h| ==> h[i].Tool?
    requires forall i :: start < i <= start + |calls| ==> h[i].callId == calls[i - start - 1].id
    ensures Open(h).None?
  {
    var full := h[..start + 1 + |calls|];
    assert full[..start] == h[..start];
    BlockIsOpen(full, calls, start);
    assert Ids(calls)[|calls|..] == [];
    var more := h[..start + 2 + |calls|];
    assert more == full + [h[start + 1 + |calls|]];
    OpenSnoc(full, h[start + 1 + |calls|]);
    if Open(h).Some? { OpenPrefix(h, start + 2 + |calls|); }
  }

  /** A suspend that cuts nothing leaves every remaining call of the batch open. */
  lemma UncutSuspendLeavesTheRest(h: seq<Message>, calls: seq<Call>, start: nat)
    requires Block(h, calls, start) && |h| - 1 - start < |calls|
    ensures Open(h) == Some(Ids(calls)[|h| - 1 - start..])
    ensures |Open(h).value| == 1 <==> |h| - start == |calls|
  {
    BlockIsOpen(h, calls, start);
  }

  /** Two calls by one id, the second of which asks: the cut finds the first, and nothing is left open. */
  lemma SameIdSuspendIsLost() returns (h: seq<Message>, calls: seq<Call>)
    ensures Block(h, calls, 0) && |h| == 2 == |calls| && calls[1].id == "a"
    ensures Open(AfterSuspend(h, "a")) == Some([])
  {
    calls := [Call("a", "read", "{}"), Call("a", "ask", "{}")];
    h := [Assistant("", "", calls), Tool("a", "r")];
    assert h[..0] == [];
    AskedInBlock(h, calls, 0, "a");
    CutWhereAsked(h, 0, 0, "a");
    var r := Cut(h, "a");
    assert r[0].calls == [calls[0]];
    BlockIsOpen(r, [calls[0]], 0);
    assert Ids([calls[0]])[1..] == [];
  }

  /** A gate that suspends on the first of two calls: both stay open. */
  lemma GateSuspendLeavesTwo(a: Call, b: Call) returns (h: seq<Message>)
    ensures h == [Assistant("", "", [a, b])] && Open(h) == Some(Ids([a, b]))
  {
    h := [Assistant("", "", [a, b])];
    RequestOpensAll(h);
  }

  lemma RequestOpensAll(h: seq<Message>)
    requires |h| == 1 && h[0].Requests()
    ensures Open(h) == Some(Ids(h[0].calls))
  {
    assert h[..0] == [];
    UncutSuspendLeavesTheRest(h, h[0].calls, 0);
    assert Ids(h[0].calls)[0..] == Ids(h[0].calls);
  }

  // ----- Continuing a reply ---------------------------------------------------------

  /** The reply that made the history continuable receives the continuation iff nothing follows it:
      the test looks past companions, the write does not. */
  lemma ContinuationReachesReplyIff(h: seq<Message>, text: string, reasoning: string)
    requires OpenReply(h) && text != ""
    ensures var i := LastOwn(h);
            var r := WriteReply(h, text, reasoning, []);
            r[i].content == h[i].content + text <==> !IsCompanion(h[|h| - 1])
    ensures var r := WriteReply(h, text, reasoning, []);
            |r| == |h| && r[..|h| - 1] == h[..|h| - 1] && r[|h| - 1].content == h[|h| - 1].content + text
  {
    var i := LastOwn(h);
    if i < |h| - 1 {
      assert WriteReply(h, text, reasoning, [])[i] == h[i];
      assert |h[i].content + text| > |h[i].content|;
    }
  }

  /** So a reply followed by a companion is not continued: the companion takes the text. */
  lemma ContinuationIntoCompanion() returns (h: seq<Message>)
    ensures OpenReply(h) && |h| == 2
    ensures WriteReply(h, "more", "", []) == [h[0], User("notemore", true, false, "")]
  {
    h := [Assistant("reply", "", []), User("note", true, false, "")];
    assert LastOwn(h) == 0 by { assert h[..1] == [h[0]]; }
    assert "note" + "more" == "notemore";
  }
}
