// One reachable run for each thing the runner does not keep: a batch of three calls, aborted, cut in memory, cancelled
// inside its suspend, and a crash in the window of the answer to it.
module RunnerCases {
  import opened Prelude
  import opened Messages
  import opened Session
  import opened Database
  import opened Runner
  import opened RunnerGuarantees

  function Asked(): (h: seq<Message>) {
    [User("q", false, false, ""),
     Assistant("", "", [Call("a", "read", "{}"), Call("b", "ask", "{}"), Call("c", "read", "{}")])]
  }

  lemma ThreeAsked() returns (s: State)
    ensures Reachable(s) && s.pc.BeforeDispatch? && s.resuming == map[] && s.records == map[] && s.pending.None?
    ensures s.hist == Asked() && s.calls == Asked()[1].calls
  {
    s := State([], [], None, None, map[], false, 0, [], map[], None, UserText("q"), Accept);
    FreshIsReachable(s);
    ReachableStep(s, AcceptQuery);
    s := Do(s, AcceptQuery);
    ReachableStep(s, Plan);
    s := Do(s, Plan);
    var asked := ModelReplies("", "", Asked()[1].calls);
    ReachableStep(s, asked);
    s := Do(s, asked);
  }

  /** Three calls asked for, stored and recorded, the first one answered. */
  lemma OneOfThreeAnswered() returns (s: State)
    ensures Reachable(s) && s.pc == Tools(1) && s.records != map[] && s.pending.None?
    ensures s.hist == Asked() + [Tool("a", "r")] && s.calls == Asked()[1].calls
  {
    s := ThreeAsked();
    ReachableStep(s, PersistBatch);
    s := RecordRest(Do(s, PersistBatch));
    ReachableStep(s, StartTools);
    s := Do(s, StartTools);
    ReachableStep(s, ToolReturns("r"));
    s := Do(s, ToolReturns("r"));
  }

  lemma {:induction false} RecordRest(before: State) returns (s: State)
    requires Reachable(before) && before.pc.Recording? && before.pc.next <= |before.calls|
    ensures Reachable(s) && s == before.(pc := Recording(|s.calls|), records := s.records)
    ensures before.records.Keys <= s.records.Keys
    ensures before.pc.next < |before.calls| && before.calls[before.pc.next].id != "" ==> s.records != map[]
    decreases |before.calls| - before.pc.next
  {
    var k := before.pc.next;
    if k == |before.calls| {
      s := before;
    } else {
      ReachableStep(before, RecordCall(map[]));
      var t := Do(before, RecordCall(map[]));
      s := RecordRest(t);
      if before.calls[k].id != "" { assert before.calls[k].id in t.records.Keys; }
    }
  }

  /** The batch is stored and nothing is recorded yet: a crash here is not resumed. */
  lemma CrashBeforeFirstRecord() returns (s: State)
    ensures Reachable(s) && s.pc == Recording(0) && !Enabled(s, Crash(NoQuery))
  {
    var t := ThreeAsked();
    ReachableStep(t, PersistBatch);
    s := Do(t, PersistBatch);
    ReachableKeepsInv(s);
    CrashIsResumableIff(s);
  }

  /** Stopped there, the batch is stuck half-way: stored, not resumed, and no text may follow it. */
  lemma AbortedBatchIsStuck() returns (s: State)
    ensures Reachable(s) && s.pc == Finished(Stopped)
    ensures !Enabled(s, NextRun(NoQuery, true))
    ensures forall content :: !Enabled(s, NextRun(UserText(content), true))
  {
    var t := OneOfThreeAnswered();
    ReachableKeepsInv(t);
    AbortedBatchResumesIff(t, Stopped);
    ReachableStep(t, Abort(Stopped));
    ReachableStep(Do(t, Abort(Stopped)), Finalize);
    s := Do(Do(t, Abort(Stopped)), Finalize);
  }

  /** The second call asking a person: cut only in memory, the final persist leaves the third call in storage. */
  lemma MemoryOnlyCutIsLost() returns (s: State)
    ensures Reachable(s) && s.pc == Tools(1) && Enabled(s, ToolAsks)
    ensures var r := AfterSuspend(s.hist, s.calls[1].id); Synced(s.db, r) != r
  {
    s := OneOfThreeAnswered();
    ReachableKeepsInv(s);
    MemoryOnlyCutIsExactIff(s.hist, s.calls, 1);
  }

  /** The same call suspending as it should. */
  lemma SecondCallAsks() returns (s: State)
    ensures Reachable(s) && s.pc == SuspendPersist(1) && s.suspend == Some(Marker("b", "ask"))
    ensures !HasResult(s.hist, "b") && !EndsInRequest(s.hist)
  {
    var t := OneOfThreeAnswered();
    ReachableKeepsInv(t);
    AskedCallIsCut(t.hist, t.calls, 1);
    NoAnswerYet(t.hist, t.calls[..2]);
    ReachableStep(t, ToolAsks);
    s := Do(t, ToolAsks);
  }

  lemma NoAnswerYet(h: seq<Message>, calls: seq<Call>)
    requires |h| == 3 && h[0].User? && h[1].Assistant? && h[2] == Tool("a", "r")
    ensures var r := WithCalls(h, 1, calls); !HasResult(r, "b") && !EndsInRequest(r)
  {
  }

  /** Cancelled inside the write of the cut. */
  lemma CancelledCutIsLost() returns (s: State)
    ensures Reachable(s) && s.pc.SuspendPersist? && Synced(s.db, s.hist) != s.hist
  {
    s := SecondCallAsks();
    ReachableKeepsInv(s);
    CancelledCutIsExactIff(s);
  }

  lemma SuspendFinishes(s: State) returns (t: State)
    requires Reachable(s) && s.pc.SuspendPersist?
    ensures Reachable(t) && t.pc == Finished(Suspended) && t.hist == s.hist && t.pending == s.suspend
  {
    ReachableKeepsInv(s);
    ReachableStep(s, PersistCut);
    t := Do(s, PersistCut);
    ReachableStep(t, MarkSuspended);
    t := Do(t, MarkSuspended);
    ReachableStep(t, Finalize);
    t := Do(t, Finalize);
  }

  lemma NextAnswers(s: State, result: string) returns (t: State)
    requires Reachable(s) && s.pc == Finished(Suspended)
    ensures Reachable(t) && t.pc.Top? && t.step == 0 && t.hist == s.hist && t.pending == s.pending
    ensures t.query == Answer(Some(result)) && t.records == map[]
  {
    ReachableKeepsInv(s);
    var answer := NextRun(Answer(Some(result)), false);
    ReachableStep(s, answer);
    t := Do(s, answer);
    ReachableStep(t, AcceptQuery);
    t := Do(t, AcceptQuery);
  }

  /** Answered, then a crash between the marker and the result: no query can start the session. */
  lemma AnswerIsLost() returns (s: State)
    ensures Reachable(s) && Enabled(s, ApplyAnswer)
    ensures forall next :: !Enabled(Do(s, ApplyAnswer), Crash(next))
  {
    var asked := SecondCallAsks();
    var suspended := SuspendFinishes(asked);
    s := NextAnswers(suspended, "yes");
    ReachableKeepsInv(suspended);
    ReachableKeepsInv(s);
    AnswerLostInWindow(s);
  }
}
