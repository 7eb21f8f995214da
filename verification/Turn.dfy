// The runner as an object: the methods that edit its session, its database and its dispatch records. Each is
// proved to make the step of the state machine in Runner (src/flops_agent/engine/runner.py).
module Turn {
  import opened Prelude
  import opened Messages
  import opened Session
  import opened Database
  import opened RunStore
  import R = Runner

  /** What one record of a dispatched call holds. */
  function DispatchRecord(call: Call, now: string): (r: Record) {
    map["tool_name" := call.name, "dispatched_at" := now]
  }

  /** The records after a batch is recorded, call by call; a call without an id is skipped. */
  function Recorded(records: map<string, Record>, calls: seq<Call>, now: string): (r: map<string, Record>)
    decreases |calls|
  {
    if calls == [] then records
    else
      var call := calls[0];
      var first :=
        if call.id == "" then records
        else records[call.id := (if call.id in records then records[call.id] else map[]) + DispatchRecord(call, now)];
      Recorded(first, calls[1..], now)
  }

  /** What one call of a batch comes to: a result, a question to a person, or a stop seen before it starts. */
  datatype ToolEnd = Returned(result: string) | AsksPerson | StopSeen

  /** How many calls return a result before one does not. */
  function Returns(ends: seq<ToolEnd>): (n: nat)
    ensures n <= |ends| && (n < |ends| ==> !ends[n].Returned?)
    ensures forall i :: 0 <= i < n ==> ends[i].Returned?
  {
    if ends == [] || !ends[0].Returned? then 0 else 1 + Returns(ends[1..])
  }

  /** The first n results as history messages. */
  function ResultMessages(calls: seq<Call>, ends: seq<ToolEnd>, n: nat): (r: seq<Message>)
    requires n <= |calls| && n <= |ends| && forall i :: 0 <= i < n ==> ends[i].Returned?
    ensures |r| == n && forall i :: 0 <= i < n ==> r[i] == Tool(calls[i].id, ends[i].result)
  {
    if n == 0 then [] else ResultMessages(calls, ends, n - 1) + [Tool(calls[n - 1].id, ends[n - 1].result)]
  }

  class Runner<E> {
    const session: Session
    const database: InMemoryDatabase
    const store: InMemoryRunStore<E>
    const sessionId: string
    const runId: string
    var step: nat
    var toolCalls: seq<Call>
    var resuming: map<string, Record>
    var suspendMarker: Option<Marker>

    constructor (session: Session, database: InMemoryDatabase, store: InMemoryRunStore<E>,
                 sessionId: string, runId: string)
      ensures this.session == session && this.database == database && this.store == store
      ensures this.sessionId == sessionId && this.runId == runId
      ensures step == 0 && toolCalls == [] && resuming == map[] && suspendMarker == None
    {
      this.session, this.database, this.store := session, database, store;
      this.sessionId, this.runId := sessionId, runId;
      step, toolCalls, resuming, suspendMarker := 0, [], map[], None;
    }

    method AcceptQuery(query: R.Query)
      modifies session`messages
      ensures session.messages ==
              if query.UserText? then old(session.messages) + [User(query.content, false, false, "")]
              else old(session.messages)
    {
      if query.UserText? { session.Append(User(query.content, false, false, "")); }
    }

    method Persist()
      modifies database`messages
      ensures database.Stored(sessionId) == Synced(old(database.Stored(sessionId)), session.messages)
    {
      var _ := SyncSession(database, sessionId, session);
    }

    /** Applies the answer to the pending interaction, clears its marker and persists, or refuses and changes
        nothing. */
    method ApplyAnswer(query: R.Query) returns (applied: bool)
      modifies session`messages, session`pending, database
      ensures applied == R.CanAnswer(old(session.messages), old(session.pending), query)
      ensures applied <==>
              && query.Answer? && query.result.Some? && old(session.pending).Some?
              && old(session.pending).value.callId != ""
              && forall i :: 0 <= i < |old(session.messages)| ==>
                   old(session.messages)[i].Tool? ==>
                     old(session.messages)[i].callId != old(session.pending).value.callId
      ensures !applied ==> unchanged(session) && unchanged(database)
      ensures applied ==>
                && session.messages == R.Answered(old(session.messages), old(session.pending).value, query.result.value)
                && R.EndsInAnswer(old(session.messages), session.messages,
                                  old(session.pending).value, query.result.value)
                && session.pending == None == database.StoredPending(sessionId)
                && database.Stored(sessionId) == Synced(old(database.Stored(sessionId)), session.messages)
    {
      if !query.Answer? || session.pending.None? { return false; }
      var m := session.pending.value;
      if m.callId == "" { return false; }
      var answered := session.HasToolResult(m.callId);
      if answered || query.result.None? { return false; }
      var known := session.HasToolCall(m.callId);
      if !known {
        session.Append(Assistant("", "", [Call(m.callId, m.toolName, "{}")]));
      }
      session.Append(Tool(m.callId, query.result.value));
      R.AnswerIsAppended(old(session.messages), m, query.result.value);
      session.pending := None;
      database.PatchMeta(sessionId, map[PENDING_INTERACTION := None]);
      Persist();
      return true;
    }

    /** The batch a previous process left, with its records; only on the first step. */
    method ResumeDispatchPlan() returns (plan: Option<seq<Call>>)
      modifies this`resuming
      ensures plan == R.ResumePlan(step, session.messages, store.Pending(runId))
      ensures var h := session.messages;
              plan.Some? <==>
              step == 0 && h != [] && h[|h| - 1].Assistant? && h[|h| - 1].calls != [] && store.Pending(runId) != map[]
      ensures plan.Some? ==> plan.value == session.messages[|session.messages| - 1].calls
      ensures resuming == if plan.Some? then R.Originals(plan.value, store.Pending(runId)) else old(resuming)
      ensures plan.Some? ==>
                && (forall id :: id in resuming <==> exists i :: 0 <= i < |plan.value| && plan.value[i].id == id)
                && (forall id :: id in resuming ==>
                      resuming[id] == if id in store.Pending(runId) then store.Pending(runId)[id] else map[])
    {
      var history := session.messages;
      if step != 0 || history == [] || !history[|history| - 1].Assistant? { return None; }
      var calls := history[|history| - 1].calls;
      var records := store.Pending(runId);
      if calls == [] || records == map[] { return None; }
      var found: map<string, Record> := map[];
      for i := 0 to |calls|
        invariant found == R.Originals(calls[..i], records)
      {
        assert calls[..i + 1] == calls[..i] + [calls[i]];
        OriginalsSnoc(calls[..i], calls[i], records);
        found := found[calls[i].id := if calls[i].id in records then records[calls[i].id] else map[]];
      }
      assert calls[..|calls|] == calls;
      resuming := found;
      return Some(calls);
    }

    method BuildReply(text: string, reasoning: string)
      modifies session`messages
      ensures session.messages == WriteReply(old(session.messages), text, reasoning, toolCalls)
    {
      if text == "" && reasoning == "" && toolCalls == [] { return; }
      var open := session.EndsWithOpenReply();
      if open && toolCalls == [] {
        var n := |session.messages| - 1;
        session.messages := session.messages[n := Continued(session.messages[n], text, reasoning)];
      } else {
        session.Append(Assistant(text, reasoning, toolCalls));
      }
    }

    /** A resumed batch is already in storage and recorded. */
    method BeforeDispatch()
      modifies database`messages
      ensures database.Stored(sessionId) ==
              if old(resuming) != map[] then old(database.Stored(sessionId))
              else Synced(old(database.Stored(sessionId)), session.messages)
    {
      if resuming == map[] { Persist(); }
    }

    method RecordDispatches(now: string)
      modifies store`dispatches
      ensures store.Pending(runId) ==
              if resuming != map[] then old(store.Pending(runId))
              else Recorded(old(store.Pending(runId)), toolCalls, now)
    {
      if resuming != map[] { return; }
      for i := 0 to |toolCalls|
        invariant Recorded(store.Pending(runId), toolCalls[i..], now) ==
                  Recorded(old(store.Pending(runId)), toolCalls, now)
      {
        assert toolCalls[i..][1..] == toolCalls[i + 1..];
        if toolCalls[i].id != "" {
          store.RecordDispatch(runId, toolCalls[i].id, DispatchRecord(toolCalls[i], now));
        }
      }
    }

    method SettleDispatches()
      modifies this`resuming, store`dispatches
      ensures resuming == map[]
      ensures store.Pending(runId) == if toolCalls == [] then old(store.Pending(runId)) else map[]
    {
      resuming := map[];
      if toolCalls != [] { store.ClearDispatches(runId); }
    }

    /** The batch, call by call, up to the first that asks a person or is stopped. False: stopped mid-step. */
    method DispatchTools(ends: seq<ToolEnd>) returns (stepCompleted: bool)
      requires |ends| == |toolCalls|
      modifies this`suspendMarker, session`messages, session`pending, database
      ensures var n := Returns(ends);
              var h := old(session.messages) + ResultMessages(toolCalls, ends, n);
              if n < |ends| && ends[n].AsksPerson? then
                stepCompleted && session.messages == AfterSuspend(h, toolCalls[n].id)
                && suspendMarker == Some(Marker(toolCalls[n].id, toolCalls[n].name)) == session.pending
                && database.StoredPending(sessionId) == suspendMarker
              else
                stepCompleted == (n == |ends|) && session.messages == h
                && suspendMarker == old(suspendMarker) && session.pending == old(session.pending)
                && database.messages == old(database.messages) && database.meta == old(database.meta)
    {
      for i := 0 to |toolCalls|
        invariant i <= Returns(ends)
        invariant session.messages == old(session.messages) + ResultMessages(toolCalls, ends, i)
        invariant suspendMarker == old(suspendMarker) && session.pending == old(session.pending)
        invariant database.messages == old(database.messages) && database.meta == old(database.meta)
      {
        match ends[i] {
          case StopSeen => return false;
          case AsksPerson =>
            SuspendFor(toolCalls[i]);
            return true;
          case Returned(result) => session.Append(Tool(toolCalls[i].id, result));
        }
      }
      return true;
    }

    /** Cuts the calls behind the asking one, writes that one message, and leaves the marker, also on record. */
    method SuspendFor(call: Call)
      modifies this`suspendMarker, session`messages, session`pending, database
      ensures suspendMarker == Some(Marker(call.id, call.name)) == session.pending
      ensures database.StoredPending(sessionId) == suspendMarker
      ensures session.messages == AfterSuspend(old(session.messages), call.id)
      ensures database.Stored(sessionId) ==
              var cut := CutIndex(old(session.messages), call.id);
              if call.id == "" || cut.None? then old(database.Stored(sessionId))
              else Rewritten(old(database.Stored(sessionId)), cut.value, session.messages[cut.value])
    {
      suspendMarker := Some(Marker(call.id, call.name));
      if call.id != "" {
        var cut := session.TruncateToolCallsAfter(call.id);
        if cut.Some? {
          database.ReplaceMessage(sessionId, cut.value, session.messages[cut.value]);
        }
      }
      session.pending := suspendMarker;
      database.PatchMeta(sessionId, map[PENDING_INTERACTION := Some(Pending(suspendMarker.value))]);
    }
  }

  lemma OneResultMore(h: seq<Message>, calls: seq<Call>, ends: seq<ToolEnd>, n: nat)
    requires 0 < n <= |calls| && n <= |ends| && forall i :: 0 <= i < n ==> ends[i].Returned?
    ensures h + ResultMessages(calls, ends, n) ==
            (h + ResultMessages(calls, ends, n - 1)) + [Tool(calls[n - 1].id, ends[n - 1].result)]
  {
  }

  /** Collecting results is that many steps of the state machine. */
  lemma {:induction false} ResultsAreToolSteps(s: R.State, ends: seq<ToolEnd>, n: nat) returns (steps: seq<R.Action>)
    requires s.pc == R.Tools(0) && n <= |s.calls| == |ends| && forall i :: 0 <= i < n ==> ends[i].Returned?
    ensures R.IsRun(s, steps) && |steps| == n && forall i :: 0 <= i < n ==> steps[i] == R.ToolReturns(ends[i].result)
    ensures R.After(s, steps) == s.(pc := R.Tools(n), hist := s.hist + ResultMessages(s.calls, ends, n))
  {
    if n == 0 {
      steps := [];
      assert s.hist + [] == s.hist;
    } else {
      steps := ResultsAreToolSteps(s, ends, n - 1);
      var last := R.ToolReturns(ends[n - 1].result);
      R.RunSnoc(s, steps, last);
      steps := steps + [last];
      OneResultMore(s.hist, s.calls, ends, n);
    }
  }

  lemma OriginalsSnoc(calls: seq<Call>, call: Call, records: map<string, Record>)
    ensures R.Originals(calls + [call], records) ==
            R.Originals(calls, records)[call.id := if call.id in records then records[call.id] else map[]]
  {
    var ids := Ids(calls);
    var more := Ids(calls + [call]);
    assert more == ids + [call.id];
  }

  /** Afterwards every call with an id has a record, with the name of the last call that goes by that id. */
  lemma {:induction false} EveryCallIsRecorded(records: map<string, Record>, calls: seq<Call>, now: string, i: nat)
    requires i < |calls| && calls[i].id != "" && forall j :: i < j < |calls| ==> calls[j].id != calls[i].id
    ensures var r := Recorded(records, calls, now);
            && calls[i].id in r && "tool_name" in r[calls[i].id] && r[calls[i].id]["tool_name"] == calls[i].name
            && "dispatched_at" in r[calls[i].id] && r[calls[i].id]["dispatched_at"] == now
    decreases |calls|
  {
    var call := calls[0];
    var first :=
      if call.id == "" then records
      else records[call.id := (if call.id in records then records[call.id] else map[]) + DispatchRecord(call, now)];
    if i > 0 {
      EveryCallIsRecorded(first, calls[1..], now, i - 1);
    } else {
      OthersKeepTheirRecord(first, calls[1..], now, call.id);
    }
  }

  lemma {:induction false} OthersKeepTheirRecord(
    records: map<string, Record>, calls: seq<Call>, now: string, id: string)
    requires id in records && forall i :: 0 <= i < |calls| ==> calls[i].id != id
    ensures id in Recorded(records, calls, now) && Recorded(records, calls, now)[id] == records[id]
    decreases |calls|
  {
    if calls != [] {
      var call := calls[0];
      OthersKeepTheirRecord(
        if call.id == "" then records
        else records[call.id := (if call.id in records then records[call.id] else map[]) + DispatchRecord(call, now)],
        calls[1..], now, id);
    }
  }

  /** Recording a batch is that many recording steps of the state machine. */
  ghost function RecordSteps(calls: seq<Call>, now: string): (r: seq<R.Action>)
    ensures |r| == |calls|
  {
    seq(|calls|, i requires 0 <= i < |calls| => R.RecordCall(DispatchRecord(calls[i], now)))
  }

  lemma {:induction false} RecordedIsRecordSteps(s: R.State, now: string, k: nat)
    requires s.pc.Recording? && s.pc.next == k <= |s.calls|
    ensures var steps := RecordSteps(s.calls, now)[k..];
            R.IsRun(s, steps) &&
            R.After(s, steps) == s.(pc := R.Recording(|s.calls|), records := Recorded(s.records, s.calls[k..], now))
    decreases |s.calls| - k
  {
    var steps := RecordSteps(s.calls, now)[k..];
    if k < |s.calls| {
      assert steps[0] == R.RecordCall(DispatchRecord(s.calls[k], now));
      assert steps[1..] == RecordSteps(s.calls, now)[k + 1..];
      assert s.calls[k..][1..] == s.calls[k + 1..];
      RecordedIsRecordSteps(R.Do(s, steps[0]), now, k + 1);
    }
  }
}
