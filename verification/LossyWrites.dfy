// What becomes of the delta sync when a write to the database fails: the runner logs it and goes on
// (src/flops_agent/engine/runner.py).
module LossyWrites {
  import opened Prelude
  import opened Messages
  import opened Pairing
  import opened Session
  import opened Database
  import opened Runner
  import opened RunnerGuarantees

  /** A step of the runner, one whose database write fails, or a cancellation inside a suspend's own write. */
  datatype Step = Written(a: Action) | Unwritten(a: Action) | CutCancelled(cause: Status)

  /** Steps that write messages. */
  predicate Writes(a: Action) { Persists(a) || a.PersistCut? }

  predicate StepEnabled(s: State, step: Step) {
    match step
    case Written(a) => Enabled(s, a)
    case Unwritten(a) => Enabled(s, a) && Writes(a)
    case CutCancelled(cause) => s.pc.SuspendPersist? && (cause.Stopped? || cause.Failed?)
  }

  function Take(s: State, step: Step): (t: State)
    requires StepEnabled(s, step)
  {
    match step
    case Written(a) => Do(s, a)
    case Unwritten(a) => Do(s, a).(db := s.db)
    case CutCancelled(cause) => s.(pc := Finalizing(cause))
  }

  // ----- How far the database may lag -------------------------------------------------

  /** No longer than the history, and the same as it below its own last message. */
  predicate Lags(db: seq<Message>, h: seq<Message>) {
    |db| <= |h| && (db != [] ==> db[..|db| - 1] == h[..|db| - 1])
  }

  /** The last stored message has been rewritten since. */
  predicate LastIsStale(db: seq<Message>, h: seq<Message>)
    requires Lags(db, h)
  {
    db != [] && db[|db| - 1] != h[|db| - 1]
  }

  /** A delta sync makes up for everything missed iff the last stored message was not rewritten or is still the
      last one. */
  lemma CatchesUpIff(db: seq<Message>, h: seq<Message>)
    requires Lags(db, h)
    ensures Synced(db, h) == h <==> |db| == |h| || !LastIsStale(db, h)
  {
    SyncIsExactIff(db, h);
    if db != [] && |db| < |h| {
      var n := |db| - 1;
      assert db == db[..n] + [db[n]] && h[..n + 1] == h[..n] + [h[n]];
      if db[n] != h[n] { assert db[n] != h[..n + 1][n]; }
    }
  }

  ghost predicate LagInv(s: State) {
    HistInv(s) && Lags(s.db, s.hist) && (s.pc.Tools? ==> s.pc.index <= |s.hist| && |s.db| <= |s.hist| - s.pc.index)
  }

  /** `h2` is `h1` with messages behind the stored ones, and at most the last stored one rewritten. */
  predicate EditsBehind(db: seq<Message>, h1: seq<Message>, h2: seq<Message>) {
    |db| <= |h1| <= |h2| && (db != [] ==> h2[..|db| - 1] == h1[..|db| - 1])
  }

  lemma EditKeepsLag(db: seq<Message>, h1: seq<Message>, h2: seq<Message>)
    requires Lags(db, h1) && EditsBehind(db, h1, h2)
    ensures Lags(db, h2)
  {
  }

  lemma AsksEditsBehind(s: State)
    requires LagInv(s) && Enabled(s, ToolAsks)
    ensures EditsBehind(s.db, s.hist, Do(s, ToolAsks).hist)
  {
    var i := s.pc.index;
    var start := |s.hist| - 1 - i;
    AskedCallIsCut(s.hist, s.calls, i);
    var r := WithCalls(s.hist, start, s.calls[..i + 1]);
    if s.db != [] { assert r[..|s.db| - 1] == s.hist[..|s.db| - 1]; }
  }

  lemma ReplyEditsBehind(db: seq<Message>, h: seq<Message>, text: string, reasoning: string, calls: seq<Call>)
    requires |db| <= |h|
    ensures EditsBehind(db, h, WriteReply(h, text, reasoning, calls))
  {
  }

  /** Steps that write nothing change the history only behind what is stored. */
  lemma StepEditsBehind(s: State, a: Action)
    requires LagInv(s) && Enabled(s, a) && !Writes(a) && !Restarts(a)
    ensures Do(s, a).db == s.db && EditsBehind(s.db, s.hist, Do(s, a).hist)
  {
    if a.ToolAsks? { AsksEditsBehind(s); }
    else if a.ModelReplies? { ReplyEditsBehind(s.db, s.hist, a.text, a.reasoning, a.asked); }
  }

  lemma SilentStepKeepsLag(s: State, a: Action)
    requires LagInv(s) && Enabled(s, a) && !Writes(a) && !Restarts(a)
    ensures LagInv(Do(s, a))
  {
    DoKeepsHistInv(s, a);
    StepEditsBehind(s, a);
    EditKeepsLag(s.db, s.hist, Do(s, a).hist);
  }

  lemma RestartKeepsLag(s: State, a: Action)
    requires LagInv(s) && Enabled(s, a) && Restarts(a)
    ensures LagInv(Do(s, a))
  {
    DoKeepsHistInv(s, a);
  }

  lemma CutWriteKeepsLag(s: State)
    requires LagInv(s) && Enabled(s, PersistCut)
    ensures LagInv(Do(s, PersistCut))
  {
    DoKeepsHistInv(s, PersistCut);
  }

  lemma WriteKeepsLag(s: State, a: Action)
    requires LagInv(s) && Enabled(s, a) && Persists(a)
    requires |s.db| == |s.hist| || !LastIsStale(s.db, s.hist)
    ensures LagInv(Do(s, a))
  {
    DoKeepsHistInv(s, a);
    CatchesUpIff(s.db, s.hist);
  }

  lemma FailedWriteKeepsLag(s: State, a: Action)
    requires LagInv(s) && Enabled(s, a) && Writes(a)
    ensures LagInv(Do(s, a).(db := s.db))
  {
    DoKeepsHistInv(s, a);
  }

  lemma CancelledCutKeepsLag(s: State, cause: Status)
    requires LagInv(s) && StepEnabled(s, CutCancelled(cause))
    ensures LagInv(Take(s, CutCancelled(cause)))
  {
  }

  /** A write that goes through with the last stored message stale and others behind it buries that message. */
  predicate Buries(s: State, step: Step) {
    step.Written? && Persists(step.a) && Lags(s.db, s.hist) && |s.db| < |s.hist| && LastIsStale(s.db, s.hist)
  }

  lemma StepKeepsLag(s: State, step: Step)
    requires LagInv(s) && StepEnabled(s, step) && !Buries(s, step)
    ensures LagInv(Take(s, step))
  {
    match step
    case Unwritten(a) => FailedWriteKeepsLag(s, a);
    case CutCancelled(cause) => CancelledCutKeepsLag(s, cause);
    case Written(a) =>
      if a.PersistCut? { CutWriteKeepsLag(s); }
      else if Persists(a) { WriteKeepsLag(s, a); }
      else if Restarts(a) { RestartKeepsLag(s, a); }
      else { SilentStepKeepsLag(s, a); }
  }

  // ----- Over whole runs --------------------------------------------------------------

  ghost predicate IsLossyRun(s: State, steps: seq<Step>)
    decreases |steps|
  {
    steps == [] ||
    (StepEnabled(s, steps[0]) && !Buries(s, steps[0]) && IsLossyRun(Take(s, steps[0]), steps[1..]))
  }

  ghost function LossyAfter(s: State, steps: seq<Step>): (t: State)
    requires IsLossyRun(s, steps)
    decreases |steps|
  {
    if steps == [] then s else LossyAfter(Take(s, steps[0]), steps[1..])
  }

  lemma {:induction false} LossyRunKeepsLag(s: State, steps: seq<Step>)
    requires LagInv(s) && IsLossyRun(s, steps)
    ensures LagInv(LossyAfter(s, steps))
    decreases |steps|
  {
    if steps != [] {
      StepKeepsLag(s, steps[0]);
      LossyRunKeepsLag(Take(s, steps[0]), steps[1..]);
    }
  }

  /** With any writes failing and any suspends cancelled inside theirs: as long as no stale message has been buried,
      the next persist makes database and history equal iff it buries none, that is, iff the last stored message was
      not rewritten since or is still the last one. */
  lemma NextPersistIsExactIff(s: State, steps: seq<Step>, a: Action)
    requires Fresh(s) && IsLossyRun(s, steps) && Enabled(LossyAfter(s, steps), a) && Persists(a)
    requires a.PersistBatch? ==> LossyAfter(s, steps).resuming == map[]
    ensures var t := LossyAfter(s, steps);
            && Lags(t.db, t.hist)
            && (Do(t, a).db == t.hist <==> |t.db| == |t.hist| || !LastIsStale(t.db, t.hist))
            && (Do(t, a).db == t.hist <==> !Buries(t, Written(a)))
  {
    LossyRunKeepsLag(s, steps);
    CatchesUpIff(LossyAfter(s, steps).db, LossyAfter(s, steps).hist);
  }

  // ----- What is buried stays buried ----------------------------------------------------

  function SyncAll(db: seq<Message>, histories: seq<seq<Message>>): (r: seq<Message>)
    decreases |histories|
  {
    if histories == [] then db else SyncAll(Synced(db, histories[0]), histories[1..])
  }

  /** The histories of later persists: never shorter, and with message `i` as it is. */
  predicate LaterHistories(db: seq<Message>, i: nat, m: Message, histories: seq<seq<Message>>) {
    forall k :: 0 <= k < |histories| ==>
      |db| <= |histories[k]| && i < |histories[k]| && histories[k][i] == m
      && forall j :: 0 <= j < k ==> |histories[j]| <= |histories[k]|
  }

  /** However many delta syncs follow, a stale message with another stored behind it is never replaced. */
  lemma {:induction false} BuriedIsNeverRepaired(db: seq<Message>, i: nat, m: Message, histories: seq<seq<Message>>)
    requires i + 1 < |db| && db[i] != m && LaterHistories(db, i, m, histories)
    ensures var r := SyncAll(db, histories);
            |r| > i && r[i] == db[i] != m && (histories != [] ==> r != histories[|histories| - 1])
    decreases |histories|
  {
    if histories != [] {
      var next := Synced(db, histories[0]);
      assert next[i] == db[i];
      assert forall k :: 0 <= k < |histories| - 1 ==> histories[1..][k] == histories[k + 1];
      BuriedIsNeverRepaired(next, i, m, histories[1..]);
    }
  }

  // ----- A run that buries a message ------------------------------------------------------

  lemma StepReaches(s: State, steps: seq<Step>, step: Step)
    requires IsLossyRun(s, steps) && StepEnabled(LossyAfter(s, steps), step) && !Buries(LossyAfter(s, steps), step)
    ensures IsLossyRun(s, steps + [step]) && LossyAfter(s, steps + [step]) == Take(LossyAfter(s, steps), step)
    decreases |steps|
  {
    if steps == [] {
      assert ([] + [step])[1..] == [];
    } else {
      assert (steps + [step])[1..] == steps[1..] + [step];
      StepReaches(Take(s, steps[0]), steps[1..], step);
    }
  }

  /** The last of two messages has been rewritten since they were stored. */
  predicate Continued(t: State) {
    |t.db| == |t.hist| == 2 && t.db[0] == t.hist[0] && t.db[1] != t.hist[1] && t.calls == []
  }

  /** A stored reply is continued. */
  lemma ReplyContinued(h: seq<Message>) returns (s: State, steps: seq<Step>)
    requires h == [User("q", false, false, ""), Assistant("one", "", [])]
    ensures Fresh(s) && IsLossyRun(s, steps)
    ensures LossyAfter(s, steps).pc.StepEnd? && Continued(LossyAfter(s, steps))
  {
    s := State(h, h, None, None, map[], false, 0, [], map[], None, NoQuery, Accept);
    TwoMessagesArePaired(h);
    steps := [];
    var reply := ModelReplies(" two", "", []);
    StepReaches(s, steps, Written(AcceptQuery));
    steps := steps + [Written(AcceptQuery)];
    StepReaches(s, steps, Written(Plan));
    steps := steps + [Written(Plan)];
    StepReaches(s, steps, Written(reply));
    steps := steps + [Written(reply)];
  }

  /** And the write of that step fails. */
  lemma ContinuedUnwritten(s: State, before: seq<Step>) returns (steps: seq<Step>)
    requires IsLossyRun(s, before) && LossyAfter(s, before).pc.StepEnd? && Continued(LossyAfter(s, before))
    ensures IsLossyRun(s, steps) && LossyAfter(s, steps).pc.Decide? && Continued(LossyAfter(s, steps))
  {
    StepReaches(s, before, Unwritten(PersistStep));
    steps := before + [Unwritten(PersistStep)];
    StepReaches(s, steps, Written(SettleRecords(true)));
    steps := steps + [Written(SettleRecords(true))];
  }

  lemma TwoMessagesArePaired(h: seq<Message>)
    requires |h| == 2 && h[0].User? && h[1].Assistant? && h[1].calls == []
    ensures Paired(h) && OpenReply(h)
  {
    assert h == h[..1] + [h[1]] && h[..1] == [] + [h[0]];
    OpenSnoc([], h[0]);
    OpenSnoc(h[..1], h[1]);
    assert Ids([]) == [];
  }

  lemma MailBuries(t: State, mail: Message)
    requires t.pc.Decide? && Continued(t)
    requires !mail.Tool? && !mail.Requests()
    ensures Enabled(t, Arrive([mail]))
    ensures var u := Do(t, Arrive([mail])); u.pc.ArrivalsPersist? && Do(u, PersistArrivals).db != u.hist
  {
    assert Lags(t.db, t.hist + [mail]);
    CatchesUpIff(t.db, t.hist + [mail]);
  }

  /** Then mail arrives, and the write behind it goes through: the database keeps the reply without its
      continuation. */
  lemma ContinuationIsBuried() returns (s: State, steps: seq<Step>)
    ensures Fresh(s) && IsLossyRun(s, steps)
    ensures var t := LossyAfter(s, steps);
            t.pc.ArrivalsPersist? && Do(t, PersistArrivals).db != t.hist
  {
    s, steps := ReplyContinued([User("q", false, false, ""), Assistant("one", "", [])]);
    steps := ContinuedUnwritten(s, steps);
    var mail := User("more", false, false, "");
    MailBuries(LossyAfter(s, steps), mail);
    StepReaches(s, steps, Written(Arrive([mail])));
    steps := steps + [Written(Arrive([mail]))];
  }
}
