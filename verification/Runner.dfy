// One session's runs as a state machine: history, database, pending interaction and dispatch records
// across steps, tool batches, suspends, answers, aborts, crashes and restarts
// (src/flops_agent/engine/runner.py).
module Runner {
  import opened Prelude
  import opened Messages
  import opened Pairing
  import opened Session
  import opened Database

  type Record = map<string, string>

  /** What a run is started with. `Answer` carries the tool result its response resolves to, None when the
      response is missing. */
  datatype Query = NoQuery | UserText(content: string) | Answer(result: Option<string>)

  /** `NothingPending`: concluded without a step because there was no interaction to answer. */
  datatype Status = Done | NothingPending | Suspended | Stopped | Failed

  datatype Pc =
    | Accept                   // before the query is taken in
    | Top                      // before a step
    | AnswerPersist            // answer in history, marker cleared, not yet in the database
    | Planned                  // about to re-dispatch or to ask the model
    | BeforeDispatch           // a batch of calls is chosen
    | Recording(next: nat)     // batch persisted, `next` calls recorded
    | Tools(index: nat)        // `index` calls of the batch have their result
    | SuspendPersist(cut: nat) // history cut at a suspending call, that message not yet in the database
    | SuspendMark              // suspend marker not yet written
    | StepEnd                  // step complete, not yet persisted
    | Settle                   // step persisted, records not yet cleared
    | Decide                   // continue or conclude
    | ArrivalsPersist          // side messages in history, not yet in the database
    | Finalizing(ending: Status)
    | Finished(final: Status)

  /** `recorded`: no call of the batch has failed to be recorded. */
  datatype State = State(
    hist: seq<Message>, db: seq<Message>,
    pending: Option<Marker>, dbPending: Option<Marker>,
    records: map<string, Record>, recorded: bool,
    step: nat, calls: seq<Call>, resuming: map<string, Record>,
    suspend: Option<Marker>, query: Query, pc: Pc)

  datatype Action =
    | AcceptQuery | ApplyAnswer | RefuseAnswer | PersistAnswer | Plan
    | TakePlan | ModelReplies(text: string, reasoning: string, asked: seq<Call>) | ModelSilent
    | PersistBatch | RecordCall(record: Record) | RecordFails | StartTools
    | ToolReturns(result: string) | ToolAsks | PersistCut | MarkSuspended
    | ToolsDone(stepMail: seq<Message>)
    | PersistStep | SettleRecords(cleared: bool)
    | Continue | Arrive(turnMail: seq<Message>) | PersistArrivals | Conclude
    | Abort(cause: Status) | Finalize
    | Crash(next: Query) | NextRun(next: Query, sameRun: bool)

  // ----- Answering, resuming --------------------------------------------------------

  /** An answer applies: something with an id is pending, it has no result yet, and the response resolves. */
  predicate CanAnswer(h: seq<Message>, pending: Option<Marker>, query: Query) {
    && query.Answer? && query.result.Some?
    && pending.Some? && pending.value.callId != "" && !HasResult(h, pending.value.callId)
  }

  predicate HasCall(h: seq<Message>, id: string) { AskedAt(h, id) >= 0 }

  /** The answer becomes the call's result, behind a synthetic call if history no longer holds the call. */
  function Answered(h: seq<Message>, m: Marker, result: string): (r: seq<Message>) {
    (if HasCall(h, m.callId) then h else h + [Assistant("", "", [Call(m.callId, m.toolName, "{}")])])
    + [Tool(m.callId, result)]
  }

  predicate Named(h: seq<Message>, id: string) {
    exists i, k :: 0 <= i < |h| && h[i].Assistant? && 0 <= k < |h[i].calls| && h[i].calls[k].id == id
  }

  /** `r` is `h` with the answer as the result of the marker's call at its end, and in front of it, exactly when no
      request of `h` names that call, a request for it under the marker's tool name. */
  predicate EndsInAnswer(h: seq<Message>, r: seq<Message>, m: Marker, result: string) {
    && |r| == |h| + (if Named(h, m.callId) then 1 else 2) && r[..|h|] == h
    && r[|r| - 1] == Tool(m.callId, result)
    && (!Named(h, m.callId) ==> r[|h|] == Assistant("", "", [Call(m.callId, m.toolName, "{}")]))
  }

  lemma AnswerIsAppended(h: seq<Message>, m: Marker, result: string)
    ensures EndsInAnswer(h, Answered(h, m, result), m, result)
  {
    var i := AskedAt(h, m.callId);
    if i >= 0 {
      assert h[i].calls[CallAt(h[i].calls, m.callId)].id == m.callId;
    } else {
      forall j, k | 0 <= j < |h| && h[j].Assistant? && 0 <= k < |h[j].calls| ensures h[j].calls[k].id != m.callId {
        assert !Asks(h[j], m.callId);
      }
    }
  }

  /** The batch to dispatch again without asking the model. */
  function ResumePlan(step: nat, h: seq<Message>, records: map<string, Record>): (r: Option<seq<Call>>) {
    if step == 0 && h != [] && h[|h| - 1].Requests() && records != map[] then Some(h[|h| - 1].calls) else None
  }

  /** The record each re-dispatched call is handed; empty if it never got one. */
  function Originals(calls: seq<Call>, records: map<string, Record>): (r: map<string, Record>) {
    map id | id in Ids(calls) :: if id in records then records[id] else map[]
  }

  predicate HasId(calls: seq<Call>) { exists i :: 0 <= i < |calls| && calls[i].id != "" }

  /** The call can be told from the earlier ones of its batch: by its id or, without one, by being the last.
      Exactly then a suspend leaves just this call open (Session.SuspendLeavesOneIff). */
  predicate ToldApart(calls: seq<Call>, i: nat)
    requires i < |calls|
  {
    if calls[i].id == "" then i + 1 == |calls| else CallAt(calls, calls[i].id) == i
  }

  /** Neither a tool result nor a request for one. */
  predicate SideMail(mail: seq<Message>) {
    forall i :: 0 <= i < |mail| ==> !mail[i].Tool? && !mail[i].Requests()
  }

  // ----- Which sessions a run may start on ------------------------------------------

  predicate EndsInRequest(h: seq<Message>) { h != [] && h[|h| - 1].Requests() }

  /** The history ends in a request whose batch the next process re-dispatches. */
  predicate Dangling(h: seq<Message>, records: map<string, Record>) {
    records != map[] && Open(h).Some? && EndsInRequest(h)
  }

  /** Exactly the pending interaction is unanswered. */
  predicate Waiting(h: seq<Message>, pending: Option<Marker>) {
    pending.Some? && Open(h) == Some([pending.value.callId])
  }

  predicate Ready(h: seq<Message>, pending: Option<Marker>, records: map<string, Record>, query: Query) {
    match query
    case UserText(_) => Paired(h)
    case Answer(_) => Paired(h) || Waiting(h, pending)
    case NoQuery => Paired(h) || Dangling(h, records)
  }

  // ----- Steps ----------------------------------------------------------------------

  predicate Enabled(s: State, a: Action) {
    match a
    case AcceptQuery => s.pc.Accept?
    case ApplyAnswer => s.pc.Top? && s.step == 0 && CanAnswer(s.hist, s.pending, s.query)
    case RefuseAnswer => s.pc.Top? && s.step == 0 && s.query.Answer? && !CanAnswer(s.hist, s.pending, s.query)
    case PersistAnswer => s.pc.AnswerPersist?
    case Plan => s.pc.Top? && !(s.step == 0 && s.query.Answer?)
    case TakePlan => s.pc.Planned? && ResumePlan(s.step, s.hist, s.records).Some?
    case ModelReplies(_, _, _) => s.pc.Planned? && ResumePlan(s.step, s.hist, s.records).None?
    case ModelSilent => s.pc.Planned? && ResumePlan(s.step, s.hist, s.records).None?
    case PersistBatch => s.pc.BeforeDispatch?
    case RecordCall(_) => s.pc.Recording? && s.pc.next < |s.calls|
    case RecordFails => s.pc.Recording? && s.pc.next < |s.calls|
    case StartTools => s.pc.Recording? && s.pc.next == |s.calls|
    case ToolReturns(_) => s.pc.Tools? && s.pc.index < |s.calls|
    case ToolAsks => s.pc.Tools? && s.pc.index < |s.calls| && ToldApart(s.calls, s.pc.index)
    case PersistCut => s.pc.SuspendPersist? && s.pc.cut < |s.hist|
    case MarkSuspended => s.pc.SuspendMark?
    case ToolsDone(mail) => s.pc.Tools? && s.pc.index == |s.calls| && SideMail(mail)
    case PersistStep => s.pc.StepEnd?
    case SettleRecords(_) => s.pc.Settle?
    case Continue => s.pc.Decide? && s.calls != []
    case Arrive(mail) => s.pc.Decide? && s.calls == [] && mail != [] && SideMail(mail)
    case PersistArrivals => s.pc.ArrivalsPersist?
    case Conclude => s.pc.Decide? && s.calls == []
    case Abort(cause) =>
      && (cause.Stopped? || cause.Failed?) && !s.pc.Finalizing? && !s.pc.Finished?
      && (s.pc.SuspendPersist? ==> s.pc.cut + 1 == |s.hist|)
    case Finalize => s.pc.Finalizing?
    case Crash(next) => Ready(s.db, s.dbPending, s.records, next)
    case NextRun(next, sameRun) =>
      s.pc.Finished? && Ready(s.hist, s.pending, if sameRun then s.records else map[], next)
  }

  function Do(s: State, a: Action): (t: State)
    requires Enabled(s, a)
  {
    match a
    case AcceptQuery =>
      s.(pc := Top, hist := if s.query.UserText? then s.hist + [User(s.query.content, false, false, "")] else s.hist)
    case ApplyAnswer =>
      s.(pc := AnswerPersist, hist := Answered(s.hist, s.pending.value, s.query.result.value),
         pending := None, dbPending := None)
    case RefuseAnswer => s.(pc := Finalizing(NothingPending))
    case PersistAnswer => s.(pc := Planned, db := Synced(s.db, s.hist))
    case Plan => s.(pc := Planned)
    case TakePlan =>
      var calls := ResumePlan(s.step, s.hist, s.records).value;
      s.(pc := BeforeDispatch, calls := calls, resuming := Originals(calls, s.records))
    case ModelReplies(text, reasoning, asked) =>
      s.(pc := if asked == [] then StepEnd else BeforeDispatch, calls := asked,
         hist := WriteReply(s.hist, text, reasoning, asked))
    case ModelSilent => s.(pc := Top, step := s.step + 1)
    case PersistBatch =>
      if s.resuming != map[] then s.(pc := Tools(0))
      else s.(pc := Recording(0), recorded := true, db := Synced(s.db, s.hist))
    case RecordCall(record) =>
      var id := s.calls[s.pc.next].id;
      s.(pc := Recording(s.pc.next + 1),
         records := if id == "" then s.records
                    else s.records[id := (if id in s.records then s.records[id] else map[]) + record])
    case RecordFails => s.(pc := Recording(s.pc.next + 1), recorded := false)
    case StartTools => s.(pc := Tools(0))
    case ToolReturns(result) =>
      s.(pc := Tools(s.pc.index + 1), hist := s.hist + [Tool(s.calls[s.pc.index].id, result)])
    case ToolAsks =>
      var call := s.calls[s.pc.index];
      s.(suspend := Some(Marker(call.id, call.name)), hist := AfterSuspend(s.hist, call.id),
         pc := if call.id != "" && CutIndex(s.hist, call.id).Some?
               then SuspendPersist(CutIndex(s.hist, call.id).value) else SuspendMark)
    case PersistCut => s.(pc := SuspendMark, db := Rewritten(s.db, s.pc.cut, s.hist[s.pc.cut]))
    case MarkSuspended => s.(pc := Finalizing(Suspended), pending := s.suspend, dbPending := s.suspend)
    case ToolsDone(mail) => s.(pc := StepEnd, hist := s.hist + mail)
    case PersistStep => s.(pc := Settle, db := Synced(s.db, s.hist))
    case SettleRecords(cleared) =>
      s.(pc := Decide, resuming := map[], records := if s.calls != [] && cleared then map[] else s.records)
    case Continue => s.(pc := Top, step := s.step + 1, calls := [])
    case Arrive(mail) => s.(pc := ArrivalsPersist, hist := s.hist + mail)
    case PersistArrivals => s.(pc := Top, step := s.step + 1, db := Synced(s.db, s.hist))
    case Conclude => s.(pc := Finalizing(Done))
    case Abort(cause) => s.(pc := Finalizing(cause))
    case Finalize => s.(pc := Finished(s.pc.ending), db := Synced(s.db, s.hist))
    case Crash(next) =>
      State(s.db, s.db, s.dbPending, s.dbPending, s.records, false, 0, [], map[], None, next, Accept)
    case NextRun(next, sameRun) =>
      State(s.hist, s.db, s.pending, s.dbPending, if sameRun then s.records else map[], false,
            0, [], map[], None, next, Accept)
  }

  /** A session that has just been loaded. */
  predicate Fresh(s: State) {
    && s.pc.Accept? && s.step == 0 && s.calls == [] && s.resuming == map[] && s.suspend.None?
    && s.hist == s.db && s.pending == s.dbPending
    && Ready(s.hist, s.pending, s.records, s.query)
  }

  ghost predicate IsRun(s: State, actions: seq<Action>)
    decreases |actions|
  {
    actions == [] || (Enabled(s, actions[0]) && IsRun(Do(s, actions[0]), actions[1..]))
  }

  ghost function After(s: State, actions: seq<Action>): (t: State)
    requires IsRun(s, actions)
    decreases |actions|
  {
    if actions == [] then s else After(Do(s, actions[0]), actions[1..])
  }

  lemma {:induction false} RunSnoc(s: State, steps: seq<Action>, last: Action)
    requires IsRun(s, steps) && Enabled(After(s, steps), last)
    ensures IsRun(s, steps + [last]) && After(s, steps + [last]) == Do(After(s, steps), last)
    decreases |steps|
  {
    if steps == [] {
      assert ([] + [last])[1..] == [];
    } else {
      assert (steps + [last])[1..] == steps[1..] + [last];
      RunSnoc(Do(s, steps[0]), steps[1..], last);
    }
  }

  // ----- Histories under the runner's edits -----------------------------------------

  /** The newest turn is a request for `calls` with its first `done` results. */
  ghost predicate InBatch(h: seq<Message>, calls: seq<Call>, done: nat) {
    done <= |calls| && calls != [] && done < |h| && Block(h, calls, |h| - 1 - done)
  }

  lemma BatchStarts(h: seq<Message>, text: string, reasoning: string, calls: seq<Call>)
    requires Paired(h) && calls != []
    ensures InBatch(WriteReply(h, text, reasoning, calls), calls, 0)
  {
    var r := WriteReply(h, text, reasoning, calls);
    assert r[..|h|] == h;
  }

  lemma BatchGrows(h: seq<Message>, calls: seq<Call>, done: nat, result: string)
    requires InBatch(h, calls, done) && done < |calls|
    ensures InBatch(h + [Tool(calls[done].id, result)], calls, done + 1)
  {
    var start := |h| - 1 - done;
    var r := h + [Tool(calls[done].id, result)];
    assert r[..start] == h[..start];
  }

  /** A suspend leaves the asking call open and nothing else. */
  lemma AskedCallIsOpen(h: seq<Message>, calls: seq<Call>, i: nat)
    requires InBatch(h, calls, i) && i < |calls| && ToldApart(calls, i)
    ensures Open(AfterSuspend(h, calls[i].id)) == Some([calls[i].id])
  {
    var start := |h| - 1 - i;
    if calls[i].id == "" {
      OneLeft(h, calls, start);
    } else {
      CutLeavesOne(h, calls, start, i);
    }
  }

  lemma NothingBehindLast(h: seq<Message>, calls: seq<Call>, i: nat)
    requires InBatch(h, calls, i) && i + 1 == |calls|
    ensures WithCalls(h, |h| - 1 - i, calls[..i + 1]) == h
  {
    assert calls[..i + 1] == calls;
  }

  /** What a suspend does to the batch's request: the calls behind the asking one are cut, if it has an id. */
  lemma AskedCallIsCut(h: seq<Message>, calls: seq<Call>, i: nat)
    requires InBatch(h, calls, i) && i < |calls| && ToldApart(calls, i)
    ensures var start := |h| - 1 - i;
            && AfterSuspend(h, calls[i].id) == WithCalls(h, start, calls[..i + 1])
            && (calls[i].id != "" ==> CutIndex(h, calls[i].id) == if i + 1 < |calls| then Some(start) else None)
  {
    var start := |h| - 1 - i;
    if i + 1 == |calls| { NothingBehindLast(h, calls, i); }
    if calls[i].id != "" {
      AskedInBlock(h, calls, start, calls[i].id);
      CutWhereAsked(h, start, i, calls[i].id);
    }
  }

  lemma BatchCompletes(h: seq<Message>, calls: seq<Call>)
    requires InBatch(h, calls, |calls|)
    ensures Paired(h)
  {
    BlockIsOpen(h, calls, |h| - 1 - |calls|);
    assert Ids(calls)[|calls|..] == [];
  }

  lemma BatchIsOpen(h: seq<Message>, calls: seq<Call>, done: nat)
    requires InBatch(h, calls, done)
    ensures Open(h).Some?
  {
    BlockIsOpen(h, calls, |h| - 1 - done);
  }

  lemma BatchByResults(h: seq<Message>, calls: seq<Call>, done: nat)
    requires InBatch(h, calls, done)
    ensures Open(h).Some? && (Paired(h) <==> done == |calls|) && (EndsInRequest(h) <==> done == 0)
  {
    BlockIsOpen(h, calls, |h| - 1 - done);
  }

  lemma DanglingIsBatch(h: seq<Message>, records: map<string, Record>)
    requires Dangling(h, records)
    ensures InBatch(h, h[|h| - 1].calls, 0)
  {
    OnlyToolsInsideBlocks(h, |h| - 1);
  }

  lemma {:induction false} MailKeepsPaired(h: seq<Message>, mail: seq<Message>)
    requires Paired(h) && SideMail(mail)
    ensures Paired(h + mail)
  {
    if mail == [] {
      assert h + mail == h;
    } else {
      var init := mail[..|mail| - 1];
      MailKeepsPaired(h, init);
      assert h + mail == (h + init) + [mail[|mail| - 1]];
      OpenSnoc(h + init, mail[|mail| - 1]);
      assert Ids([]) == [];
    }
  }

  lemma ReplyKeepsPaired(h: seq<Message>, text: string, reasoning: string)
    requires Paired(h)
    ensures Paired(WriteReply(h, text, reasoning, []))
  {
    var r := WriteReply(h, text, reasoning, []);
    if OpenReply(h) {
      var n := |h| - 1;
      assert h == h[..n] + [h[n]];
      OpenSnoc(h[..n], h[n]);
      if r != h {
        assert r == h[..n] + [Continued(h[n], text, reasoning)];
        OpenSnoc(h[..n], r[n]);
      }
    } else if r != h {
      MailKeepsPaired(h, [Assistant(text, reasoning, [])]);
    }
  }

  /** A request at the end is never a fully answered history. */
  lemma PairedNeverDangles(h: seq<Message>)
    requires Paired(h) && h != []
    ensures !h[|h| - 1].Requests()
  {
    var n := |h| - 1;
    assert h == h[..n] + [h[n]];
    OpenSnoc(h[..n], h[n]);
  }

  /** In a fully answered history no call without a result is ever asked for. */
  lemma PairedAsksNothingUnanswered(h: seq<Message>, id: string)
    requires Paired(h) && HasCall(h, id)
    ensures HasResult(h, id)
  {
    var at := AskedAt(h, id);
    PairedAnswersEveryCall(h, at, CallAt(h[at].calls, id));
  }

  lemma WaitingAsks(h: seq<Message>, id: string)
    requires Open(h) == Some([id])
    ensures HasCall(h, id)
  {
    var calls, start := OpenIsBlock(h);
    var rest := Ids(calls)[|h| - 1 - start..];
    assert rest[0] == calls[|h| - 1 - start].id == id;
    assert Asks(h[start], id);
  }

  /** The answer completes the history, whether the call is still there or has to be patched in. */
  lemma AnswerCompletes(h: seq<Message>, m: Marker, result: string)
    requires Paired(h) || Waiting(h, Some(m))
    requires m.callId != "" && !HasResult(h, m.callId)
    ensures Paired(Answered(h, m, result))
  {
    if Paired(h) {
      if HasCall(h, m.callId) { PairedAsksNothingUnanswered(h, m.callId); }
      var call := Call(m.callId, m.toolName, "{}");
      OpenSnoc(h, Assistant("", "", [call]));
      ResultCloses(h + [Assistant("", "", [call])], m.callId, result);
    } else {
      WaitingAsks(h, m.callId);
      ResultCloses(h, m.callId, result);
    }
  }

  lemma ResultCloses(h: seq<Message>, id: string, result: string)
    requires Open(h).Some? && |Open(h).value| == 1 && Open(h).value[0] == id
    ensures Paired(h + [Tool(id, result)])
  {
    OpenSnoc(h, Tool(id, result));
    assert Open(h).value[1..] == [];
  }

  /** Exactly when an answer run completes a waiting history: the response resolves and no older result
      carries the same call id. */
  lemma AnswerCompletesIff(h: seq<Message>, m: Marker, query: Query)
    requires Waiting(h, Some(m)) && m.callId != "" && query.Answer?
    ensures var r := if CanAnswer(h, Some(m), query) then Answered(h, m, query.result.value) else h;
            Paired(r) <==> query.result.Some? && !HasResult(h, m.callId)
  {
    if CanAnswer(h, Some(m), query) { AnswerCompletes(h, m, query.result.value); }
  }

  // ----- Kinds of steps ---------------------------------------------------------------

  predicate Plans(a: Action) {
    a.AcceptQuery? || a.ApplyAnswer? || a.RefuseAnswer? || a.PersistAnswer? || a.Plan? || a.TakePlan?
  }

  predicate Dispatches(a: Action) { a.ModelReplies? || a.ModelSilent? || a.PersistBatch? || a.StartTools? }

  predicate Collects(a: Action) { a.ToolReturns? || a.ToolsDone? || a.MarkSuspended? }

  predicate PersistsAll(a: Action) { a.PersistStep? || a.PersistArrivals? || a.Finalize? }

  predicate Ends(a: Action) { a.SettleRecords? || a.Continue? || a.Arrive? || a.Conclude? || a.Abort? }

  predicate Restarts(a: Action) { a.Crash? || a.NextRun? }

  // ----- Invariant 1: histories ------------------------------------------------------

  ghost predicate HistInv(s: State) {
    match s.pc
    case Accept => s.step == 0 && Ready(s.hist, s.pending, s.records, s.query)
    case Top => if s.step == 0 then Ready(s.hist, s.pending, s.records, s.query) else Paired(s.hist)
    case Planned => Paired(s.hist) || (s.step == 0 && Dangling(s.hist, s.records))
    case BeforeDispatch => InBatch(s.hist, s.calls, 0)
    case Recording(k) => k <= |s.calls| && InBatch(s.hist, s.calls, 0)
    case Tools(i) => InBatch(s.hist, s.calls, i)
    case SuspendPersist(_) => Waiting(s.hist, s.suspend)
    case SuspendMark => Waiting(s.hist, s.suspend)
    case Finalizing(ending) => Ended(s.hist, s.pending, ending)
    case Finished(ending) => Ended(s.hist, s.pending, ending)
    case _ => Paired(s.hist)
  }

  /** What each ending says about the history. */
  ghost predicate Ended(h: seq<Message>, pending: Option<Marker>, ending: Status) {
    match ending
    case Done => Paired(h)
    case NothingPending => Paired(h) || Waiting(h, pending)
    case Suspended => Waiting(h, pending)
    case Stopped => Open(h).Some?
    case Failed => Open(h).Some?
  }

  lemma HistInvIsOpen(s: State)
    requires HistInv(s)
    ensures Open(s.hist).Some?
  {
    match s.pc
    case BeforeDispatch => BatchIsOpen(s.hist, s.calls, 0);
    case Recording(_) => BatchIsOpen(s.hist, s.calls, 0);
    case Tools(i) => BatchIsOpen(s.hist, s.calls, i);
    case _ =>
  }

  lemma PlanKeepsHistInv(s: State, a: Action)
    requires HistInv(s) && Enabled(s, a)
    requires Plans(a)
    ensures HistInv(Do(s, a))
  {
    match a
    case AcceptQuery =>
      if s.query.UserText? { MailKeepsPaired(s.hist, [User(s.query.content, false, false, "")]); }
    case ApplyAnswer => AnswerCompletes(s.hist, s.pending.value, s.query.result.value);
    case TakePlan =>
      if Paired(s.hist) { PairedNeverDangles(s.hist); }
      DanglingIsBatch(s.hist, s.records);
    case _ =>
  }

  lemma ModelKeepsHistInv(s: State, a: Action)
    requires HistInv(s) && Enabled(s, a)
    requires a.ModelReplies? || a.ModelSilent?
    ensures HistInv(Do(s, a))
  {
    assert Paired(s.hist);
    if a.ModelReplies? {
      if a.asked == [] {
        ReplyKeepsPaired(s.hist, a.text, a.reasoning);
      } else {
        BatchStarts(s.hist, a.text, a.reasoning, a.asked);
      }
    }
  }

  lemma ToolsKeepHistInv(s: State, a: Action)
    requires HistInv(s) && Enabled(s, a)
    requires a.ToolReturns? || a.ToolAsks? || a.ToolsDone?
    ensures HistInv(Do(s, a))
  {
    var i := s.pc.index;
    match a
    case ToolReturns(result) => BatchGrows(s.hist, s.calls, i, result);
    case ToolAsks => AskedCallIsOpen(s.hist, s.calls, i);
    case ToolsDone(mail) =>
      BatchCompletes(s.hist, s.calls);
      MailKeepsPaired(s.hist, mail);
  }

  lemma DoKeepsHistInv(s: State, a: Action)
    requires Enabled(s, a) && HistInv(s)
    ensures HistInv(Do(s, a))
  {
    if Plans(a) { PlanKeepsHistInv(s, a); }
    else if a.ModelReplies? || a.ModelSilent? { ModelKeepsHistInv(s, a); }
    else if a.ToolReturns? || a.ToolAsks? || a.ToolsDone? { ToolsKeepHistInv(s, a); }
    else if a.Arrive? { MailKeepsPaired(s.hist, a.turnMail); }
    else if a.Abort? { HistInvIsOpen(s); }
  }

  // ----- Invariant 2: the database is in reach of every delta sync --------------------

  ghost predicate DbInv(s: State) {
    match s.pc
    case Accept => s.db == s.hist && s.resuming == map[]
    case Top => s.db <= s.hist && (s.step == 0 && s.query.NoQuery? ==> s.db == s.hist) && s.resuming == map[]
    case AnswerPersist => s.db <= s.hist && s.resuming == map[]
    case Planned =>
      s.db <= s.hist && (ResumePlan(s.step, s.hist, s.records).Some? ==> s.db == s.hist) && s.resuming == map[]
    case BeforeDispatch => s.db <= s.hist && (s.resuming != map[] ==> s.db == s.hist)
    case Recording(_) => s.db == s.hist
    case Tools(i) => i <= |s.hist| && s.db == s.hist[..|s.hist| - i]
    case SuspendPersist(cut) =>
      cut < |s.hist| && |s.db| == cut + 1 && s.db[..cut] == s.hist[..cut] && s.db[cut] != s.hist[cut]
    case SuspendMark => s.db <= s.hist
    case StepEnd => Behind(s.db, s.hist)
    case ArrivalsPersist => s.db <= s.hist && s.resuming == map[]
    case Decide => s.db == s.hist && s.resuming == map[]
    case Finalizing(_) => Behind(s.db, s.hist)
    case Settle => s.db == s.hist
    case Finished(_) => s.db == s.hist
  }

  /** A prefix of the history, or as long as it and different at most in the last message. */
  predicate Behind(db: seq<Message>, h: seq<Message>) { |db| <= |h| && InReach(db, h) }

  lemma PrefixIsBehind(db: seq<Message>, h: seq<Message>)
    requires db <= h
    ensures Behind(db, h)
  {
    if |db| == |h| { assert db == h; }
  }

  lemma SyncCatchesUp(db: seq<Message>, h: seq<Message>)
    requires Behind(db, h)
    ensures Synced(db, h) == h
  {
    SyncIsExactIff(db, h);
  }

  lemma ReplyStaysBehind(db: seq<Message>, h: seq<Message>, text: string, reasoning: string, calls: seq<Call>)
    requires db <= h
    ensures var r := WriteReply(h, text, reasoning, calls);
            Behind(db, r) && (calls != [] ==> db <= r)
  {
    var r := WriteReply(h, text, reasoning, calls);
    if |r| == |h| && r != h {
      assert r[..|h| - 1] == h[..|h| - 1];
      if |db| < |h| { assert db <= r; }
      assert Behind(db, r);
    } else {
      assert db <= r;
      PrefixIsBehind(db, r);
    }
  }

  lemma PlanKeepsDbInv(s: State, a: Action)
    requires HistInv(s) && DbInv(s) && Enabled(s, a)
    requires Plans(a)
    ensures DbInv(Do(s, a))
  {
    PrefixIsBehind(s.db, s.hist);
    match a
    case PersistAnswer =>
      SyncCatchesUp(s.db, s.hist);
    case Plan =>
      if s.step == 0 && s.query.UserText? && s.hist != [] { PairedNeverDangles(s.hist); }
    case _ =>
  }

  lemma CutChangesRequest(h: seq<Message>, calls: seq<Call>, i: nat)
    requires InBatch(h, calls, i) && i + 1 < |calls|
    ensures var start := |h| - 1 - i;
            var r := WithCalls(h, start, calls[..i + 1]);
            r[..start] == h[..start] && r[start] != h[start]
  {
    var start := |h| - 1 - i;
    assert |WithCalls(h, start, calls[..i + 1])[start].calls| < |h[start].calls|;
  }

  lemma AsksKeepsDbInv(s: State)
    requires HistInv(s) && DbInv(s) && Enabled(s, ToolAsks)
    ensures DbInv(Do(s, ToolAsks))
  {
    var i := s.pc.index;
    AskedCallIsCut(s.hist, s.calls, i);
    if i + 1 == |s.calls| {
      NothingBehindLast(s.hist, s.calls, i);
    } else {
      CutChangesRequest(s.hist, s.calls, i);
    }
  }

  lemma StepsKeepDbInv(s: State, a: Action)
    requires HistInv(s) && DbInv(s) && Enabled(s, a)
    requires a.ModelReplies? || a.ModelSilent? || a.PersistBatch? || a.PersistCut? || a.ToolsDone?
    ensures DbInv(Do(s, a))
  {
    match a
    case ModelReplies(text, reasoning, asked) => ReplyStaysBehind(s.db, s.hist, text, reasoning, asked);
    case PersistBatch => PrefixIsBehind(s.db, s.hist); SyncCatchesUp(s.db, s.hist);
    case PersistCut => assert Do(s, a).db == s.hist[..s.pc.cut + 1];
    case ToolsDone(mail) => PrefixIsBehind(s.db, s.hist + mail);
    case _ =>
  }

  lemma ToolsKeepDbInv(s: State, a: Action)
    requires HistInv(s) && DbInv(s) && Enabled(s, a)
    requires a.RecordCall? || a.RecordFails? || a.StartTools? || a.ToolReturns? || a.MarkSuspended?
    ensures DbInv(Do(s, a))
  {
    if a.MarkSuspended? { PrefixIsBehind(s.db, s.hist); }
  }

  lemma PersistsKeepDbInv(s: State, a: Action)
    requires DbInv(s) && Enabled(s, a)
    requires PersistsAll(a)
    ensures DbInv(Do(s, a)) && Do(s, a).db == s.hist
  {
    if s.db <= s.hist { PrefixIsBehind(s.db, s.hist); }
    SyncCatchesUp(s.db, s.hist);
  }

  lemma EndsKeepDbInv(s: State, a: Action)
    requires DbInv(s) && Enabled(s, a) && (a.Conclude? || a.Abort?)
    ensures DbInv(Do(s, a))
  {
    if s.db <= s.hist { PrefixIsBehind(s.db, s.hist); }
  }

  lemma RestsKeepDbInv(s: State, a: Action)
    requires DbInv(s) && Enabled(s, a)
    requires a.SettleRecords? || a.Continue? || a.Arrive? || a.Crash? || a.NextRun?
    ensures DbInv(Do(s, a))
  {
  }

  lemma DoKeepsDbInv(s: State, a: Action)
    requires HistInv(s) && DbInv(s) && Enabled(s, a)
    ensures DbInv(Do(s, a))
  {
    if Plans(a) { PlanKeepsDbInv(s, a); }
    else if a.ToolAsks? { AsksKeepsDbInv(s); }
    else if PersistsAll(a) { PersistsKeepDbInv(s, a); }
    else if a.Conclude? || a.Abort? { EndsKeepDbInv(s, a); }
    else if Ends(a) || Restarts(a) { RestsKeepDbInv(s, a); }
    else if a.RecordCall? || a.RecordFails? || a.StartTools? || a.ToolReturns? || a.MarkSuspended? {
      ToolsKeepDbInv(s, a);
    }
    else { StepsKeepDbInv(s, a); }
  }

  // ----- Invariant 3: what a crash leaves behind ------------------------------------

  /** What a process that dies now leaves in the database can be taken up without a new query. */
  predicate Recoverable(db: seq<Message>, records: map<string, Record>) { Paired(db) || Dangling(db, records) }

  ghost predicate CrashInv(s: State) {
    s.pending == s.dbPending && Open(s.db).Some? && RecordsKept(s) && CrashSafe(s)
  }

  /** The batch is a resumed one, or none of its calls failed to be recorded. */
  predicate HasRecords(s: State) { s.recorded || s.resuming != map[] }

  /** Then its calls with an id have left a record. */
  predicate RecordsKept(s: State) {
    match s.pc
    case BeforeDispatch => s.resuming != map[] ==> s.records != map[]
    case Recording(k) =>
      k <= |s.calls| && s.resuming == map[] && (s.recorded && HasId(s.calls[..k]) ==> s.records != map[])
    case Tools(_) => BatchRecorded(s)
    case StepEnd => s.calls != [] ==> BatchRecorded(s)
    case SuspendPersist(_) => HasRecords(s) ==> s.records != map[]
    case SuspendMark => s.suspend.Some? && (HasRecords(s) && s.suspend.value.callId != "" ==> s.records != map[])
    case Finalizing(Suspended) =>
      s.pending.Some? && (HasRecords(s) && s.pending.value.callId != "" ==> s.records != map[])
    case _ => true
  }

  predicate BatchRecorded(s: State) {
    (s.recorded && HasId(s.calls)) || s.resuming != map[] ==> s.records != map[]
  }

  ghost predicate CrashSafe(s: State) {
    match s.pc
    case Top =>
      if s.step == 0 && s.query.Answer? then s.db == s.hist
      else Recoverable(s.db, s.records) && (s.step == 0 && s.query.UserText? ==> Paired(s.db))
    case AnswerPersist => s.dbPending.None?
    case Planned => Recoverable(s.db, s.records)
    case BeforeDispatch => Recoverable(s.db, s.records)
    case SuspendPersist(cut) =>
      EndsInRequest(s.db) && cut < |s.hist| && Paired(s.hist[..cut]) && s.hist[cut].Requests()
    case SuspendMark => EndsInRequest(s.db)
    case StepEnd =>
      if s.calls == [] then Recoverable(s.db, s.records)
      else EndsInRequest(s.db) && s.db[|s.db| - 1].calls == s.calls
    case ArrivalsPersist => Paired(s.db)
    case Finalizing(ending) => (ending.Suspended? ==> EndsInRequest(s.db)) && (ending.Done? ==> Paired(s.db))
    case _ => true
  }

  /** While a batch runs, the database ends in the request for it. */
  lemma BatchInDb(h: seq<Message>, calls: seq<Call>, done: nat)
    requires InBatch(h, calls, done)
    ensures var db := h[..|h| - done];
            Open(db).Some? && EndsInRequest(db) && db[|db| - 1].calls == calls
  {
    var db := h[..|h| - done];
    assert db[..|db| - 1] == h[..|h| - 1 - done];
    BatchIsOpen(db, calls, 0);
  }

  lemma RequestOpens(before: seq<Message>, m: Message)
    requires Paired(before) && m.Requests()
    ensures Open(before + [m]).Some?
  {
    OpenSnoc(before, m);
  }

  lemma PlanKeepsCrashInv(s: State, a: Action)
    requires HistInv(s) && DbInv(s) && CrashInv(s) && Enabled(s, a)
    requires Plans(a)
    ensures CrashInv(Do(s, a))
  {
    if a.PersistAnswer? {
      PrefixIsBehind(s.db, s.hist);
      SyncCatchesUp(s.db, s.hist);
    }
  }

  lemma AsksKeepsRecords(s: State)
    requires RecordsKept(s) && Enabled(s, ToolAsks)
    ensures RecordsKept(Do(s, ToolAsks))
  {
    assert s.calls[s.pc.index].id != "" ==> HasId(s.calls);
  }

  /** A suspend cuts the request in memory and leaves the one in the database to the next step. */
  lemma AsksCuts(s: State)
    requires HistInv(s) && DbInv(s) && Enabled(s, ToolAsks)
    ensures var i, t := s.pc.index, Do(s, ToolAsks);
            var start := |s.hist| - 1 - i;
            && start >= 0 && s.hist[start].Assistant?
            && t.hist == WithCalls(s.hist, start, s.calls[..i + 1]) && t.db == s.db && EndsInRequest(t.db)
            && t.pc == if s.calls[i].id != "" && i + 1 < |s.calls| then SuspendPersist(start) else SuspendMark
  {
    BatchInDb(s.hist, s.calls, s.pc.index);
    AskedCallIsCut(s.hist, s.calls, s.pc.index);
  }

  lemma AsksKeepsCrashSafe(s: State)
    requires HistInv(s) && DbInv(s) && Enabled(s, ToolAsks)
    ensures CrashSafe(Do(s, ToolAsks))
  {
    AsksCuts(s);
    CutKeepsBefore(s.hist, s.calls, s.pc.index);
    CutIsCrashSafe(Do(s, ToolAsks), |s.hist| - 1 - s.pc.index);
  }

  lemma CutIsCrashSafe(t: State, start: nat)
    requires t.pc == SuspendPersist(start) || t.pc.SuspendMark?
    requires EndsInRequest(t.db) && start < |t.hist| && Paired(t.hist[..start]) && t.hist[start].Requests()
    ensures CrashSafe(t)
  {
  }

  lemma AsksKeepsCrashInv(s: State)
    requires HistInv(s) && DbInv(s) && CrashInv(s) && Enabled(s, ToolAsks)
    ensures CrashInv(Do(s, ToolAsks))
  {
    AsksKeepsRecords(s);
    AsksKeepsCrashSafe(s);
  }

  lemma CutKeepsBefore(h: seq<Message>, calls: seq<Call>, i: nat)
    requires InBatch(h, calls, i) && i < |calls|
    ensures var start := |h| - 1 - i;
            var r := WithCalls(h, start, calls[..i + 1]);
            Paired(r[..start]) && r[start].Requests()
  {
    var start := |h| - 1 - i;
    assert WithCalls(h, start, calls[..i + 1])[..start] == h[..start];
  }

  lemma DispatchKeepsCrashInv(s: State, a: Action)
    requires HistInv(s) && DbInv(s) && CrashInv(s) && Enabled(s, a)
    requires Dispatches(a)
    ensures CrashInv(Do(s, a))
  {
    match a
    case PersistBatch =>
      HistInvIsOpen(s);
      PrefixIsBehind(s.db, s.hist);
      SyncCatchesUp(s.db, s.hist);
    case StartTools => assert s.calls[..|s.calls|] == s.calls;
    case _ =>
  }

  lemma ToolsKeepCrashInv(s: State, a: Action)
    requires HistInv(s) && DbInv(s) && CrashInv(s) && Enabled(s, a)
    requires Collects(a)
    ensures CrashInv(Do(s, a))
  {
    if a.ToolsDone? { BatchInDb(s.hist, s.calls, |s.calls|); }
  }

  lemma CutKeepsCrashInv(s: State)
    requires HistInv(s) && DbInv(s) && CrashInv(s) && Enabled(s, PersistCut)
    ensures CrashInv(Do(s, PersistCut))
  {
    var cut := s.pc.cut;
    assert Rewritten(s.db, cut, s.hist[cut]) == s.hist[..cut] + [s.hist[cut]];
    RequestOpens(s.hist[..cut], s.hist[cut]);
  }

  lemma RecordKeepsCrashInv(s: State, record: Record)
    requires CrashInv(s) && Enabled(s, RecordCall(record))
    ensures CrashInv(Do(s, RecordCall(record)))
  {
    var k := s.pc.next;
    var t := Do(s, RecordCall(record));
    if s.calls[k].id != "" {
      assert s.calls[k].id in t.records;
    } else if HasId(s.calls[..k + 1]) {
      var i :| 0 <= i < k + 1 && s.calls[..k + 1][i].id != "";
      assert s.calls[..k][i].id != "";
    }
  }

  lemma PersistsKeepCrashInv(s: State, a: Action)
    requires HistInv(s) && DbInv(s) && CrashInv(s) && Enabled(s, a)
    requires PersistsAll(a)
    ensures CrashInv(Do(s, a))
  {
    PersistsKeepDbInv(s, a);
    HistInvIsOpen(s);
  }

  lemma EndsKeepCrashInv(s: State, a: Action)
    requires HistInv(s) && DbInv(s) && CrashInv(s) && Enabled(s, a)
    requires Ends(a)
    ensures CrashInv(Do(s, a))
  {
  }

  lemma RestartsKeepCrashInv(s: State, a: Action)
    requires HistInv(s) && DbInv(s) && CrashInv(s) && Enabled(s, a)
    requires Restarts(a)
    ensures CrashInv(Do(s, a))
  {
  }

  lemma DoKeepsCrashInv(s: State, a: Action)
    requires HistInv(s) && DbInv(s) && CrashInv(s) && Enabled(s, a)
    ensures CrashInv(Do(s, a))
  {
    if Plans(a) { PlanKeepsCrashInv(s, a); }
    else if Dispatches(a) { DispatchKeepsCrashInv(s, a); }
    else if Collects(a) { ToolsKeepCrashInv(s, a); }
    else if PersistsAll(a) { PersistsKeepCrashInv(s, a); }
    else if Ends(a) { EndsKeepCrashInv(s, a); }
    else if Restarts(a) { RestartsKeepCrashInv(s, a); }
    else if a.RecordCall? { RecordKeepsCrashInv(s, a.record); }
    else if a.ToolAsks? { AsksKeepsCrashInv(s); }
    else if a.PersistCut? { CutKeepsCrashInv(s); }
  }
}
