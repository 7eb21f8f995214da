// What the runner promises over whole runs, crashes and restarts included.
module RunnerGuarantees {
  import opened Prelude
  import opened Messages
  import opened Pairing
  import opened Session
  import opened Database
  import opened Runner

  ghost predicate Inv(s: State) { HistInv(s) && DbInv(s) && CrashInv(s) }

  lemma DoKeepsInv(s: State, a: Action)
    requires Inv(s) && Enabled(s, a)
    ensures Inv(Do(s, a))
  {
    DoKeepsHistInv(s, a);
    DoKeepsDbInv(s, a);
    DoKeepsCrashInv(s, a);
  }

  lemma {:induction false} RunKeepsInv(s: State, actions: seq<Action>)
    requires Inv(s) && IsRun(s, actions)
    ensures Inv(After(s, actions))
    decreases |actions|
  {
    if actions != [] {
      DoKeepsInv(s, actions[0]);
      RunKeepsInv(Do(s, actions[0]), actions[1..]);
    }
  }

  /** Some run from a freshly loaded session gets here. */
  ghost predicate Reachable(s: State) {
    exists start, actions :: Fresh(start) && IsRun(start, actions) && After(start, actions) == s
  }

  lemma FreshIsReachable(s: State)
    requires Fresh(s)
    ensures Reachable(s)
  {
    assert IsRun(s, []) && After(s, []) == s;
  }

  lemma ReachableStep(s: State, a: Action)
    requires Reachable(s) && Enabled(s, a)
    ensures Reachable(Do(s, a))
  {
    var start, actions :| Fresh(start) && IsRun(start, actions) && After(start, actions) == s;
    RunSnoc(start, actions, a);
    assert Reachable(Do(s, a));
  }

  lemma ReachableKeepsInv(s: State)
    requires Reachable(s)
    ensures Inv(s)
  {
    var start, actions :| Fresh(start) && IsRun(start, actions) && After(start, actions) == s;
    RunKeepsInv(start, actions);
  }

  // ----- Pairing --------------------------------------------------------------------

  /** Every run, however many crashes and restarts before it: concluded, its history consists of complete
      blocks; suspended, it lacks exactly the last result of its last block, the one the stored marker names;
      stopped or failed, it lacks at most the last results of its last block. */
  lemma HistoryPairing(s: State, actions: seq<Action>)
    requires Fresh(s) && IsRun(s, actions)
    ensures var t := After(s, actions);
            t.pc.Finished? ==>
              match t.pc.final
              case Done => InBlocks(t.hist)
              case NothingPending => InBlocks(t.hist) || Waiting(t.hist, t.pending)
              case Suspended => OneResultMissing(t.hist, t.pending)
              case _ => InBlocks(t.hist) || ResultsMissing(t.hist)
  {
    RunKeepsInv(s, actions);
    var t := After(s, actions);
    if t.pc.Finished? {
      PairedIffInBlocks(t.hist);
      if t.pc.final.Suspended? {
        SuspendedLacksOne(t.hist, t.pending);
      } else if t.pc.final.Stopped? || t.pc.final.Failed? {
        if !Paired(t.hist) {
          var calls, start := OpenIsBlock(t.hist);
          BlockLacksResults(t.hist, calls, start);
        }
      }
    }
  }

  /** One block at the end, complete up to the result of its last call, which `pending` names. */
  ghost predicate OneResultMissing(h: seq<Message>, pending: Option<Marker>) {
    exists start :: 0 <= start < |h| && h[start].Requests() && Block(h, h[start].calls, start)
      && |h| == start + |h[start].calls|
      && pending.Some? && pending.value.callId == h[start].calls[|h[start].calls| - 1].id
  }

  ghost predicate ResultsMissing(h: seq<Message>) {
    exists start :: 0 <= start < |h| && h[start].Requests() && Block(h, h[start].calls, start)
  }

  lemma BlockLacksResults(h: seq<Message>, calls: seq<Call>, start: nat)
    requires Block(h, calls, start) && Open(h) != Some([])
    ensures ResultsMissing(h)
  {
    BlockIsOpen(h, calls, start);
    assert h[start].Requests();
  }

  lemma SuspendedLacksOne(h: seq<Message>, pending: Option<Marker>)
    requires Waiting(h, pending)
    ensures OneResultMissing(h, pending)
  {
    var calls, start := OpenIsBlock(h);
    var rest := Ids(calls)[|h| - 1 - start..];
    assert |rest| == 1 && rest[0] == calls[|calls| - 1].id;
    assert h[start].Requests();
  }

  /** Side messages are only ever put behind a fully answered history. */
  lemma MailLandsBetweenBlocks(s: State, a: Action)
    requires Inv(s) && Enabled(s, a) && (a.Arrive? || a.ToolsDone?)
    ensures InBlocks(s.hist)
  {
    if a.ToolsDone? { BatchCompletes(s.hist, s.calls); }
    PairedIffInBlocks(s.hist);
  }

  /** An answer run that gets as far as applying the answer continues from a complete history. */
  lemma AnswerCompletesTheRun(s: State)
    requires Inv(s) && Enabled(s, ApplyAnswer)
    ensures InBlocks(Do(s, ApplyAnswer).hist)
  {
    DoKeepsHistInv(s, ApplyAnswer);
    PairedIffInBlocks(Do(s, ApplyAnswer).hist);
  }

  /** An applied answer is the last message, as the result of the call the marker named, and one step later the last
      message of the database too. */
  lemma AnswerIsKept(s: State)
    requires Inv(s) && Enabled(s, ApplyAnswer)
    ensures var t := Do(s, ApplyAnswer);
            && EndsInAnswer(s.hist, t.hist, s.pending.value, s.query.result.value)
            && t.pending == None == t.dbPending
            && Do(t, PersistAnswer).db == t.hist
  {
    AnswerIsAppended(s.hist, s.pending.value, s.query.result.value);
    DoKeepsInv(s, ApplyAnswer);
    var t := Do(s, ApplyAnswer);
    PrefixIsBehind(t.db, t.hist);
    SyncCatchesUp(t.db, t.hist);
  }

  /** An answer is applied at most once: afterwards neither the cleared marker nor the old one admits another. */
  lemma AnsweredOnlyOnce(s: State, next: Query)
    requires Enabled(s, ApplyAnswer)
    ensures var t := Do(s, ApplyAnswer);
            !CanAnswer(t.hist, t.pending, next) && !CanAnswer(t.hist, s.pending, next)
  {
    var h := Do(s, ApplyAnswer).hist;
    assert h[|h| - 1].Tool? && h[|h| - 1].callId == s.pending.value.callId;
  }

  /** Plain text may only follow a complete history: after a suspend, or after a stop inside a batch, it would
      leave calls unanswered for good. */
  lemma PlainTextNeedsCompleteHistory(h: seq<Message>, content: string)
    requires Open(h).Some?
    ensures Open(h + [User(content, false, false, "")]).Some? <==> InBlocks(h)
  {
    OpenSnoc(h, User(content, false, false, ""));
    PairedIffInBlocks(h);
  }

  // ----- Delta sync -----------------------------------------------------------------

  predicate Persists(a: Action) {
    a.PersistAnswer? || a.PersistBatch? || a.PersistStep? || a.PersistArrivals? || a.Finalize?
  }

  lemma InvIsBehind(t: State)
    requires DbInv(t) && !t.pc.SuspendPersist?
    ensures Behind(t.db, t.hist)
  {
    if t.db <= t.hist { PrefixIsBehind(t.db, t.hist); }
  }

  lemma PersistIsExact(t: State, a: Action)
    requires Behind(t.db, t.hist) && Enabled(t, a) && Persists(a)
    requires a.PersistBatch? ==> t.resuming == map[] || t.db == t.hist
    ensures Do(t, a).db == t.hist == Do(t, a).hist
  {
    SyncCatchesUp(t.db, t.hist);
  }

  /** Every persist of every run leaves database and history identical, without a full rewrite; in between the
      database is a prefix of the history or differs from it in the last message only. */
  lemma DeltaSyncIsExact(s: State, actions: seq<Action>, a: Action)
    requires Fresh(s) && IsRun(s, actions) && Enabled(After(s, actions), a)
    ensures !After(s, actions).pc.SuspendPersist? ==> Behind(After(s, actions).db, After(s, actions).hist)
    ensures Persists(a) ==>
              var t := After(s, actions); Do(t, a).db == t.hist == Do(t, a).hist
  {
    RunKeepsInv(s, actions);
    var t := After(s, actions);
    if !t.pc.SuspendPersist? {
      InvIsBehind(t);
      if Persists(a) { PersistIsExact(t, a); }
    }
  }

  /** A suspend that only truncates in memory, as one decided after execution does, is repaired by the final
      persist iff the asking call is the first of its batch or the last (then nothing is cut). */
  lemma MemoryOnlyCutIsExactIff(h: seq<Message>, calls: seq<Call>, done: nat)
    requires InBatch(h, calls, done) && done < |calls| && ToldApart(calls, done)
    ensures var db := h[..|h| - done];
            var r := AfterSuspend(h, calls[done].id);
            Synced(db, r) == r <==> done == 0 || done + 1 == |calls|
  {
    var start := |h| - 1 - done;
    var db := h[..|h| - done];
    AskedCallIsCut(h, calls, done);
    var r := AfterSuspend(h, calls[done].id);
    SyncIsExactIff(db, r);
    if done + 1 == |calls| {
      assert calls[..done + 1] == calls && r == h;
      if done == 0 { assert db == r; } else { assert db <= r; }
    } else {
      assert |r[start].calls| < |db[start].calls|;
      if done == 0 { assert db[..start] == r[..start]; }
    }
  }

  /** A cancellation inside a suspend's own write, before it takes effect, leaves the cut in memory only. The final
      persist makes up for it iff no result of the batch had been collected, and only such a cancellation is a
      step of the machine. */
  lemma CancelledCutIsExactIff(s: State)
    requires Inv(s) && s.pc.SuspendPersist?
    ensures Synced(s.db, s.hist) == s.hist <==> s.pc.cut + 1 == |s.hist|
    ensures Enabled(s, Abort(Stopped)) <==> Synced(s.db, s.hist) == s.hist
  {
    SyncIsExactIff(s.db, s.hist);
  }

  // ----- Crashes --------------------------------------------------------------------

  /** Where a crash always leaves a session that resumes without a query. */
  predicate AlwaysResumable(s: State) {
    match s.pc
    case Accept => !s.query.Answer?
    case Top => s.step > 0 || !s.query.Answer?
    case Planned | BeforeDispatch | Settle | Decide | ArrivalsPersist => true
    case StepEnd => s.calls == []
    case Finalizing(Done) => true
    case Finished(Done) => true
    case _ => false
  }

  /** The batch's request is stored, its results are not. */
  predicate BatchStored(s: State) {
    match s.pc
    case Recording(_) => true
    case Tools(_) => true
    case SuspendPersist(_) => true
    case SuspendMark => true
    case StepEnd => s.calls != []
    case Finalizing(Suspended) => true
    case _ => false
  }

  lemma StoredBatchIsOpen(s: State)
    requires Inv(s) && BatchStored(s)
    ensures EndsInRequest(s.db) && !Paired(s.db)
  {
    match s.pc
    case Recording(_) => BatchInDb(s.hist, s.calls, 0);
    case Tools(i) => BatchInDb(s.hist, s.calls, i);
    case _ =>
    if Paired(s.db) { PairedNeverDangles(s.db); }
  }

  lemma AlwaysRecoverable(s: State)
    requires Inv(s) && AlwaysResumable(s)
    ensures Recoverable(s.db, s.records)
  {
  }

  /** Exactly when a process that dies here is resumed by the next one without a new query: what it has stored is
      complete, or ends in a request and some dispatch record is left. So always outside a batch, and during one
      iff some record exists, as after recording without failure; what remains are answers not yet applied and runs
      stopped, failed or suspended. */
  lemma CrashIsResumableIff(s: State)
    requires Inv(s)
    ensures Enabled(s, Crash(NoQuery)) <==> InBlocks(s.db) || (EndsInRequest(s.db) && s.records != map[])
    ensures AlwaysResumable(s) ==> Enabled(s, Crash(NoQuery))
    ensures BatchStored(s) ==> (Enabled(s, Crash(NoQuery)) <==> s.records != map[])
    ensures (s.pc.Tools? || (s.pc.StepEnd? && s.calls != [])) && s.recorded && HasId(s.calls) ==>
              Enabled(s, Crash(NoQuery))
    ensures s.pc.Finished? ==> s.db == s.hist
    ensures s.pc.Accept? || (s.pc.Top? && s.step == 0) ==> Enabled(s, Crash(s.query))
  {
    assert Enabled(s, Crash(NoQuery)) <==> Recoverable(s.db, s.records);
    PairedIffInBlocks(s.db);
    if AlwaysResumable(s) { AlwaysRecoverable(s); }
    if BatchStored(s) { StoredBatchIsOpen(s); }
  }

  /** Some query can start what a crash leaves iff it can be recovered without one or awaits an answer. */
  lemma SomeQueryStartsIff(t: State)
    ensures (exists next :: Enabled(t, Crash(next))) <==> Recoverable(t.db, t.records) || Waiting(t.db, t.dbPending)
  {
    if Recoverable(t.db, t.records) { assert Enabled(t, Crash(NoQuery)); }
    if Waiting(t.db, t.dbPending) { assert Enabled(t, Crash(Answer(None))); }
  }

  /** The answer's window: its marker is deleted before its result is persisted, so a crash in between leaves a
      session some query can start on iff the asking call was the first of its batch and an old dispatch record is
      still there. One step later it always resumes. */
  lemma AnswerLostInWindow(s: State)
    requires Inv(s) && Enabled(s, ApplyAnswer) && Waiting(s.hist, s.pending)
    ensures (exists next :: Enabled(Do(s, ApplyAnswer), Crash(next))) <==>
            EndsInRequest(s.hist) && s.records != map[]
    ensures Enabled(Do(Do(s, ApplyAnswer), PersistAnswer), Crash(NoQuery))
  {
    var t := Do(s, ApplyAnswer);
    SomeQueryStartsIff(t);
    assert t.db == s.hist && t.dbPending.None?;
    DoKeepsInv(s, ApplyAnswer);
    PersistedAnswerIsPaired(t);
  }

  lemma PersistedAnswerIsPaired(t: State)
    requires Inv(t) && t.pc.AnswerPersist?
    ensures Paired(Do(t, PersistAnswer).db)
  {
    PrefixIsBehind(t.db, t.hist);
    SyncCatchesUp(t.db, t.hist);
  }

  /** After a restart that resumes `calls`: the request is still the newest stored message, its records are
      still there, and whatever this process dispatches is that batch with those records. */
  ghost predicate Resumed(s: State, calls: seq<Call>, records: map<string, Record>) {
    && calls != [] && records != map[] && s.records == records
    && s.db != [] && s.db[|s.db| - 1].Assistant? && s.db[|s.db| - 1].calls == calls
    && match s.pc
       case Accept => s.query.NoQuery? && s.step == 0 && s.hist == s.db
       case Top => s.query.NoQuery? && s.step == 0 && s.hist == s.db
       case Planned => s.step == 0 && s.hist == s.db
       case BeforeDispatch => s.calls == calls && s.resuming == Originals(calls, records)
       case Tools(_) => s.calls == calls && s.resuming == Originals(calls, records)
       case StepEnd => s.calls == calls && s.resuming == Originals(calls, records)
       case _ => false
  }

  /** Any step short of persisting the batch's results, suspending, or giving up; restarts bring no new query. */
  predicate WithinBatch(a: Action) {
    !a.PersistStep? && !a.ToolAsks? && !a.Abort? && (a.Crash? ==> a.next.NoQuery?)
  }

  lemma OriginalsNotEmpty(calls: seq<Call>, records: map<string, Record>)
    requires calls != []
    ensures Originals(calls, records) != map[]
  {
    assert Ids(calls)[0] in Originals(calls, records);
  }

  lemma PlanningKeepsResumed(s: State, a: Action, calls: seq<Call>, records: map<string, Record>)
    requires Resumed(s, calls, records) && Enabled(s, a)
    requires a.AcceptQuery? || a.Plan? || a.TakePlan? || (a.Crash? && a.next.NoQuery?)
    ensures Resumed(Do(s, a), calls, records)
  {
  }

  lemma DispatchingKeepsResumed(s: State, a: Action, calls: seq<Call>, records: map<string, Record>)
    requires Resumed(s, calls, records) && Enabled(s, a)
    requires a.PersistBatch? || a.ToolReturns? || a.ToolsDone?
    ensures Resumed(Do(s, a), calls, records)
  {
    OriginalsNotEmpty(calls, records);
  }

  lemma StepKeepsResumed(s: State, a: Action, calls: seq<Call>, records: map<string, Record>)
    requires Resumed(s, calls, records) && Enabled(s, a) && WithinBatch(a)
    ensures Resumed(Do(s, a), calls, records)
  {
    match a
    case AcceptQuery | Plan | TakePlan | Crash(_) => PlanningKeepsResumed(s, a, calls, records);
    case PersistBatch | ToolReturns(_) | ToolsDone(_) => DispatchingKeepsResumed(s, a, calls, records);
    case _ =>
  }

  lemma {:induction false} RunKeepsResumed(
    s: State, actions: seq<Action>, calls: seq<Call>, records: map<string, Record>)
    requires Resumed(s, calls, records) && IsRun(s, actions)
    requires forall i :: 0 <= i < |actions| ==> WithinBatch(actions[i])
    ensures Resumed(After(s, actions), calls, records)
    decreases |actions|
  {
    if actions != [] {
      StepKeepsResumed(s, actions[0], calls, records);
      RunKeepsResumed(Do(s, actions[0]), actions[1..], calls, records);
    }
  }

  /** A batch has been recorded at least in part, and its results are not persisted yet. */
  predicate InFlight(s: State) {
    s.records != map[] && (s.pc.Recording? || s.pc.Tools? || (s.pc.StepEnd? && s.calls != []))
  }

  lemma InFlightIsStored(s: State)
    requires Inv(s) && InFlight(s)
    ensures s.calls != [] && Dangling(s.db, s.records) && s.db[|s.db| - 1].calls == s.calls
  {
    if s.pc.Recording? { BatchInDb(s.hist, s.calls, 0); }
    else if s.pc.Tools? { BatchInDb(s.hist, s.calls, s.pc.index); }
  }

  lemma CrashEntersResumed(s: State)
    requires Inv(s) && InFlight(s)
    ensures Enabled(s, Crash(NoQuery))
    ensures Resumed(Do(s, Crash(NoQuery)), s.calls, s.records)
  {
    InFlightIsStored(s);
  }

  /** The batch is dispatched without the model: the only way on is the plan, and each call is handed the
      record it already has. */
  ghost predicate Redispatches(t: State, calls: seq<Call>, records: map<string, Record>) {
    && (t.pc.Planned? ==> Enabled(t, TakePlan) && !Enabled(t, ModelSilent))
    && (forall text, reasoning, asked :: !Enabled(t, ModelReplies(text, reasoning, asked)))
    && (t.pc.Tools? ==> t.calls == calls && HandsOut(t.resuming, calls, records))
  }

  predicate HandsOut(resuming: map<string, Record>, calls: seq<Call>, records: map<string, Record>) {
    forall i :: 0 <= i < |calls| ==>
      calls[i].id in resuming && (calls[i].id in records ==> resuming[calls[i].id] == records[calls[i].id])
  }

  lemma OriginalsHandOut(calls: seq<Call>, records: map<string, Record>)
    ensures HandsOut(Originals(calls, records), calls, records)
  {
    forall i | 0 <= i < |calls| ensures calls[i].id in Originals(calls, records) {
      assert Ids(calls)[i] == calls[i].id;
    }
  }

  lemma ResumedRedispatches(t: State, calls: seq<Call>, records: map<string, Record>)
    requires Resumed(t, calls, records)
    ensures Redispatches(t, calls, records)
  {
    OriginalsHandOut(calls, records);
  }

  /** Crash resume: a crash while a batch is in flight, then any number of further steps and crashes. Whenever
      the resumed process reaches its first step it takes the plan, the model cannot be asked, and what it
      dispatches are the same calls, each with the record it had at the crash. */
  lemma CrashResume(s: State, actions: seq<Action>)
    requires Inv(s) && InFlight(s) && Enabled(s, Crash(NoQuery))
    requires IsRun(Do(s, Crash(NoQuery)), actions)
    requires forall i :: 0 <= i < |actions| ==> WithinBatch(actions[i])
    ensures Redispatches(After(Do(s, Crash(NoQuery)), actions), s.calls, s.records)
  {
    CrashEntersResumed(s);
    var restarted := Do(s, Crash(NoQuery));
    RunKeepsResumed(restarted, actions, s.calls, s.records);
    ResumedRedispatches(After(restarted, actions), s.calls, s.records);
  }

  lemma AbortPersists(s: State, cause: Status)
    requires DbInv(s) && s.pc.Tools? && Enabled(s, Abort(cause))
    ensures Do(Do(s, Abort(cause)), Finalize) == s.(pc := Finished(cause), db := s.hist)
  {
    if s.db <= s.hist { PrefixIsBehind(s.db, s.hist); }
    SyncCatchesUp(s.db, s.hist);
  }

  /** Stopped or failed in the middle of a batch: what was collected is persisted. The next run can resume the batch
      iff nothing had been collected and it has left a record, and can start with plain text iff everything had. */
  lemma AbortedBatchResumesIff(s: State, cause: Status)
    requires Inv(s) && s.pc.Tools? && Enabled(s, Abort(cause))
    ensures var t := Do(Do(s, Abort(cause)), Finalize);
            && t.db == s.hist
            && (ResumePlan(0, t.db, t.records).Some? <==> s.pc.index == 0 && s.records != map[])
            && (forall content :: Enabled(t, NextRun(UserText(content), true)) <==> s.pc.index == |s.calls|)
            && (Enabled(t, NextRun(NoQuery, true)) <==>
                (s.pc.index == 0 && s.records != map[]) || s.pc.index == |s.calls|)
  {
    AbortPersists(s, cause);
    BatchByResults(s.hist, s.calls, s.pc.index);
  }

  // ----- A persisted batch is never dispatched again ---------------------------------

  /** The first `n` messages are complete, in memory and in the database. */
  ghost predicate Past(s: State, n: nat) {
    n <= |s.hist| && n <= |s.db| && Paired(s.hist[..n]) && Paired(s.db[..n])
  }

  /** An incomplete block begins behind everything complete. */
  lemma CompleteEndsBeforeBlock(h: seq<Message>, calls: seq<Call>, start: nat, n: nat)
    requires Block(h, calls, start) && |h| < start + 1 + |calls| && n <= |h| && Paired(h[..n])
    ensures n <= start
  {
    if n > start {
      var cut := h[..n];
      assert cut[..start] == h[..start];
      BlockIsOpen(cut, calls, start);
    }
  }

  lemma HistKeepsPast(s: State, a: Action, n: nat)
    requires HistInv(s) && Past(s, n) && Enabled(s, a) && !a.Crash? && !a.ToolAsks?
    ensures n <= |Do(s, a).hist| && Paired(Do(s, a).hist[..n])
  {
    var r := Do(s, a).hist;
    if a.ModelReplies? && a.asked == [] && n == |s.hist| && |r| == n {
      ReplyKeepsPaired(s.hist, a.text, a.reasoning);
      assert s.hist[..n] == s.hist && r[..n] == r;
    } else {
      assert r[..n] == s.hist[..n];
    }
  }

  lemma AsksKeepsPast(s: State, n: nat)
    requires HistInv(s) && Past(s, n) && Enabled(s, ToolAsks)
    ensures Past(Do(s, ToolAsks), n)
  {
    var i := s.pc.index;
    var start := |s.hist| - 1 - i;
    CompleteEndsBeforeBlock(s.hist, s.calls, start, n);
    AskedCallIsCut(s.hist, s.calls, i);
    assert WithCalls(s.hist, start, s.calls[..i + 1])[..n] == s.hist[..n];
  }

  lemma CompleteEndsBeforeRequest(db: seq<Message>, n: nat)
    requires n <= |db| && Paired(db[..n]) && db != [] && db[|db| - 1].Requests()
    ensures n < |db|
  {
    assert db[..|db|] == db;
    if Paired(db) { PairedNeverDangles(db); }
  }

  lemma DbKeepsPast(s: State, a: Action, n: nat)
    requires Inv(s) && Past(s, n) && Enabled(s, a)
    ensures n <= |Do(s, a).db| && Paired(Do(s, a).db[..n])
  {
    if a.PersistCut? {
      CutKeepsDbPast(s, n);
    } else if Persists(a) {
      InvIsBehind(s);
      PersistIsExact(s, a);
    } else {
      assert Do(s, a).db == s.db;
    }
  }

  lemma CutKeepsDbPast(s: State, n: nat)
    requires DbInv(s) && CrashInv(s) && Past(s, n) && Enabled(s, PersistCut)
    ensures n <= |Do(s, PersistCut).db| && Paired(Do(s, PersistCut).db[..n])
  {
    CompleteEndsBeforeRequest(s.db, n);
    assert Do(s, PersistCut).db[..n] == s.db[..n];
  }

  lemma {:induction false} RunKeepsPast(s: State, actions: seq<Action>, n: nat)
    requires Inv(s) && Past(s, n) && IsRun(s, actions)
    ensures Past(After(s, actions), n)
    decreases |actions|
  {
    if actions != [] {
      var a := actions[0];
      DoKeepsInv(s, a);
      DbKeepsPast(s, a, n);
      if a.ToolAsks? { AsksKeepsPast(s, n); }
      else if !a.Crash? { HistKeepsPast(s, a, n); }
      RunKeepsPast(Do(s, a), actions[1..], n);
    }
  }

  lemma PersistReachesPast(s: State)
    requires Inv(s) && Enabled(s, PersistStep)
    ensures Inv(Do(s, PersistStep)) && Past(Do(s, PersistStep), |s.hist|)
  {
    DoKeepsInv(s, PersistStep);
    assert s.hist[..|s.hist|] == s.hist;
  }

  lemma PlanIsBehind(t: State, n: nat)
    requires Past(t, n) && Enabled(t, TakePlan)
    ensures |t.hist| > n
  {
    CompleteEndsBeforeRequest(t.hist, n);
  }

  /** Once a step is persisted, no later plan of any run re-dispatches its batch or an older one, whether or not
      the records were cleared: every plan concerns a request behind the messages persisted then. */
  lemma PersistedBatchIsNeverRedispatched(s: State, actions: seq<Action>)
    requires Inv(s) && Enabled(s, PersistStep) && IsRun(Do(s, PersistStep), actions)
    requires Enabled(After(Do(s, PersistStep), actions), TakePlan)
    ensures var t := After(Do(s, PersistStep), actions); |t.hist| - 1 >= |s.hist|
  {
    PersistReachesPast(s);
    RunKeepsPast(Do(s, PersistStep), actions, |s.hist|);
    PlanIsBehind(After(Do(s, PersistStep), actions), |s.hist|);
  }
}
