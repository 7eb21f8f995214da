// What the history holds of what was said over whole runs, and that every run can be brought to its end
// (src/flops_agent/engine/runner.py).
module RunnerHistory {
  import opened Prelude
  import opened Messages
  import opened Session
  import opened Runner
  import opened RunnerGuarantees

  // ----- No dead end ----------------------------------------------------------------

  /** A step that is neither a crash nor given up, whatever the model and the tools say. */
  function OneWayOn(s: State): (a: Action)
    requires !s.pc.Finished?
  {
    match s.pc
    case Accept => AcceptQuery
    case Top =>
      if s.step > 0 || !s.query.Answer? then Plan
      else if CanAnswer(s.hist, s.pending, s.query) then ApplyAnswer else RefuseAnswer
    case AnswerPersist => PersistAnswer
    case Planned => if ResumePlan(s.step, s.hist, s.records).Some? then TakePlan else ModelReplies("", "", [])
    case BeforeDispatch => PersistBatch
    case Recording(k) => if k < |s.calls| then RecordFails else StartTools
    case Tools(i) => if i < |s.calls| then ToolReturns("") else ToolsDone([])
    case SuspendPersist(_) => PersistCut
    case SuspendMark => MarkSuspended
    case StepEnd => PersistStep
    case Settle => SettleRecords(true)
    case Decide => if s.calls != [] then Continue else Conclude
    case ArrivalsPersist => PersistArrivals
    case Finalizing(_) => Finalize
  }

  /** Calls the last message asks for. */
  function LastCalls(h: seq<Message>): (n: nat) {
    if h != [] && h[|h| - 1].Assistant? then |h[|h| - 1].calls| else 0
  }

  /** Steps there are at most on that way. */
  function Rank(s: State): (n: int) {
    match s.pc
    case Accept => 22 + 3 * LastCalls(s.hist)
    case Top => if s.step > 0 then 6 else 21 + 3 * LastCalls(s.hist)
    case AnswerPersist => 16 + 3 * LastCalls(s.hist)
    case Planned => if ResumePlan(s.step, s.hist, s.records).None? then 5 else 15 + 3 * LastCalls(s.hist)
    case BeforeDispatch => 14 + 3 * |s.calls|
    case Recording(k) => 11 + 2 * |s.calls| - k
    case Tools(i) => 10 + |s.calls| - i
    case SuspendPersist(_) => 3
    case SuspendMark => 2
    case StepEnd => if s.calls == [] then 4 else 9
    case Settle => if s.calls == [] then 3 else 8
    case Decide => if s.calls == [] then 2 else 7
    case ArrivalsPersist => 7
    case Finalizing(_) => 1
    case Finished(_) => 0
  }

  lemma WayIsOpen(s: State)
    requires Inv(s) && !s.pc.Finished?
    ensures Enabled(s, OneWayOn(s)) && Rank(s) > 0
  {
  }

  predicate Starts(s: State) { s.pc.Accept? || s.pc.Top? || s.pc.AnswerPersist? || s.pc.Planned? }

  lemma StartLeadsOn(s: State)
    requires Starts(s) && Enabled(s, OneWayOn(s))
    ensures Rank(Do(s, OneWayOn(s))) < Rank(s)
  {
    if s.pc.Accept? && s.query.UserText? {
      var h := s.hist + [User(s.query.content, false, false, "")];
      assert Do(s, AcceptQuery).hist == h && LastCalls(h) == 0;
    } else if s.pc.Top? && s.step == 0 && s.query.Answer? && CanAnswer(s.hist, s.pending, s.query) {
      var h := Answered(s.hist, s.pending.value, s.query.result.value);
      assert Do(s, ApplyAnswer).hist == h && LastCalls(h) == 0;
    }
  }

  lemma StepLeadsOn(s: State)
    requires !Starts(s) && !s.pc.Finished? && Enabled(s, OneWayOn(s))
    ensures Rank(Do(s, OneWayOn(s))) < Rank(s)
  {
  }

  lemma WayLeadsOn(s: State)
    requires !s.pc.Finished? && Enabled(s, OneWayOn(s))
    ensures Rank(Do(s, OneWayOn(s))) < Rank(s)
  {
    if Starts(s) { StartLeadsOn(s); } else { StepLeadsOn(s); }
  }

  /** No state of any run is a dead end, whatever crashed before it: some further steps, none of them a crash or an
      abort, bring the run to its end. */
  lemma {:induction false} RunCanFinish(s: State) returns (actions: seq<Action>)
    requires Inv(s)
    ensures IsRun(s, actions) && After(s, actions).pc.Finished?
    ensures forall i :: 0 <= i < |actions| ==> !actions[i].Crash? && !actions[i].Abort? && !actions[i].NextRun?
    decreases Rank(s)
  {
    if s.pc.Finished? {
      actions := [];
    } else {
      var a := OneWayOn(s);
      WayIsOpen(s);
      WayLeadsOn(s);
      DoKeepsInv(s, a);
      var rest := RunCanFinish(Do(s, a));
      actions := [a] + rest;
      assert actions[1..] == rest;
    }
  }

  // ----- What was said --------------------------------------------------------------

  /** All texts of a history, in order. */
  function Words(h: seq<Message>): (r: string) {
    if h == [] then "" else Words(h[..|h| - 1]) + h[|h| - 1].content
  }

  /** The results of a history, each with the id of its call. */
  function Results(h: seq<Message>): (r: seq<(string, string)>) {
    if h == [] then []
    else
      var m := h[|h| - 1];
      Results(h[..|h| - 1]) + if m.Tool? then [(m.callId, m.content)] else []
  }

  /** What a step brings in from outside: a query, a reply, a result, an answer, or mail. */
  function Saying(s: State, a: Action): (r: string)
    requires Enabled(s, a)
  {
    match a
    case AcceptQuery => if s.query.UserText? then s.query.content else ""
    case ApplyAnswer => s.query.result.value
    case ModelReplies(text, _, _) => text
    case ToolReturns(result) => result
    case ToolsDone(mail) => Words(mail)
    case Arrive(mail) => Words(mail)
    case _ => ""
  }

  /** The results it brings in, each with the id it answers. */
  function Answering(s: State, a: Action): (r: seq<(string, string)>)
    requires Enabled(s, a)
  {
    match a
    case ApplyAnswer => [(s.pending.value.callId, s.query.result.value)]
    case ToolReturns(result) => [(s.calls[s.pc.index].id, result)]
    case _ => []
  }

  lemma {:induction false} WordsConcat(a: seq<Message>, b: seq<Message>)
    ensures Words(a + b) == Words(a) + Words(b)
    decreases |b|
  {
    if b == [] {
      assert a + b == a;
    } else {
      var n := |b| - 1;
      assert a + b == (a + b[..n]) + [b[n]];
      WordsSnoc(a + b[..n], b[n]);
      WordsConcat(a, b[..n]);
    }
  }

  lemma {:induction false} ResultsConcat(a: seq<Message>, b: seq<Message>)
    ensures Results(a + b) == Results(a) + Results(b)
    decreases |b|
  {
    if b == [] {
      assert a + b == a;
    } else {
      var n := |b| - 1;
      assert a + b == (a + b[..n]) + [b[n]];
      WordsSnoc(a + b[..n], b[n]);
      ResultsConcat(a, b[..n]);
    }
  }

  lemma Regroup<T>(a: seq<T>, b: seq<T>, c: seq<T>)
    ensures (a + b) + c == a + (b + c)
  {
  }

  lemma WordsSnoc(h: seq<Message>, m: Message)
    ensures Words(h + [m]) == Words(h) + m.content
    ensures Results(h + [m]) == Results(h) + if m.Tool? then [(m.callId, m.content)] else []
  {
    assert (h + [m])[..|h|] == h;
  }

  lemma {:induction false} SideMailHasNoResults(mail: seq<Message>)
    requires SideMail(mail)
    ensures Results(mail) == []
    decreases |mail|
  {
    if mail != [] { SideMailHasNoResults(mail[..|mail| - 1]); }
  }

  lemma LastContinued(before: seq<Message>, m: Message, text: string, reasoning: string)
    requires !m.Tool?
    ensures Words(before + [Continued(m, text, reasoning)]) == Words(before + [m]) + text
    ensures Results(before + [Continued(m, text, reasoning)]) == Results(before + [m])
  {
    WordsSnoc(before, m);
    WordsSnoc(before, Continued(m, text, reasoning));
    Regroup(Words(before), m.content, text);
  }

  lemma ReplySays(h: seq<Message>, text: string, reasoning: string, calls: seq<Call>)
    ensures Words(WriteReply(h, text, reasoning, calls)) == Words(h) + text
    ensures Results(WriteReply(h, text, reasoning, calls)) == Results(h)
  {
    if text == "" && reasoning == "" && calls == [] {
    } else if OpenReply(h) && calls == [] {
      var n := |h| - 1;
      LastContinued(h[..n], h[n], text, reasoning);
      assert h == h[..n] + [h[n]];
      assert WriteReply(h, text, reasoning, calls) == h[..n] + [Continued(h[n], text, reasoning)];
    } else {
      WordsSnoc(h, Assistant(text, reasoning, calls));
    }
  }

  lemma AnswerSays(h: seq<Message>, m: Marker, result: string)
    ensures Words(Answered(h, m, result)) == Words(h) + result
    ensures Results(Answered(h, m, result)) == Results(h) + [(m.callId, result)]
  {
    var asked := Assistant("", "", [Call(m.callId, m.toolName, "{}")]);
    WordsSnoc(h, asked);
    WordsSnoc(if HasCall(h, m.callId) then h else h + [asked], Tool(m.callId, result));
  }

  lemma {:induction false} SameTexts(a: seq<Message>, b: seq<Message>)
    requires |a| == |b|
    requires forall i :: 0 <= i < |a| ==>
               a[i].content == b[i].content && (a[i].Tool? <==> b[i].Tool?) && (a[i].Tool? ==> a[i] == b[i])
    ensures Words(a) == Words(b) && Results(a) == Results(b)
    decreases |a|
  {
    if a != [] { SameTexts(a[..|a| - 1], b[..|b| - 1]); }
  }

  lemma MailSays(h: seq<Message>, mail: seq<Message>)
    requires SideMail(mail)
    ensures Words(h + mail) == Words(h) + Words(mail) && Results(h + mail) == Results(h)
  {
    WordsConcat(h, mail);
    ResultsConcat(h, mail);
    SideMailHasNoResults(mail);
  }

  lemma StepSays(s: State, a: Action)
    requires Enabled(s, a) && !a.Crash?
    ensures Words(Do(s, a).hist) == Words(s.hist) + Saying(s, a)
    ensures Results(Do(s, a).hist) == Results(s.hist) + Answering(s, a)
  {
    match a
    case AcceptQuery => if s.query.UserText? { WordsSnoc(s.hist, User(s.query.content, false, false, "")); }
    case ApplyAnswer => AnswerSays(s.hist, s.pending.value, s.query.result.value);
    case ModelReplies(text, reasoning, asked) => ReplySays(s.hist, text, reasoning, asked);
    case ToolReturns(result) => WordsSnoc(s.hist, Tool(s.calls[s.pc.index].id, result));
    case ToolAsks => SameTexts(AfterSuspend(s.hist, s.calls[s.pc.index].id), s.hist);
    case ToolsDone(mail) => MailSays(s.hist, mail);
    case Arrive(mail) => MailSays(s.hist, mail);
    case _ =>
  }

  ghost function SaidIn(s: State, actions: seq<Action>): (r: string)
    requires IsRun(s, actions)
    decreases |actions|
  {
    if actions == [] then "" else Saying(s, actions[0]) + SaidIn(Do(s, actions[0]), actions[1..])
  }

  ghost function AnsweredIn(s: State, actions: seq<Action>): (r: seq<(string, string)>)
    requires IsRun(s, actions)
    decreases |actions|
  {
    if actions == [] then [] else Answering(s, actions[0]) + AnsweredIn(Do(s, actions[0]), actions[1..])
  }

  /** Over any number of runs without a crash nothing that was said is lost, changed or said twice: the texts of the
      history are those of before and then everything brought in, in order, through continued replies, cuts and
      patched-in calls; and its results are those brought in, each under the id of the call it answers. */
  lemma {:induction false} NothingSaidIsLost(s: State, actions: seq<Action>)
    requires IsRun(s, actions) && forall i :: 0 <= i < |actions| ==> !actions[i].Crash?
    ensures Words(After(s, actions).hist) == Words(s.hist) + SaidIn(s, actions)
    ensures Results(After(s, actions).hist) == Results(s.hist) + AnsweredIn(s, actions)
    decreases |actions|
  {
    if actions != [] {
      var next, rest := Do(s, actions[0]), actions[1..];
      StepSays(s, actions[0]);
      NothingSaidIsLost(next, rest);
      Regroup(Words(s.hist), Saying(s, actions[0]), SaidIn(next, rest));
      Regroup(Results(s.hist), Answering(s, actions[0]), AnsweredIn(next, rest));
    }
  }

  // ----- Dispatch records ------------------------------------------------------------

  /** Steps that may delete records: a batch settled, or a run that goes by another id. */
  predicate Clears(s: State, a: Action) {
    (a.SettleRecords? && a.cleared && s.calls != []) || (a.NextRun? && !a.sameRun)
  }

  ghost predicate ClearsNothing(s: State, actions: seq<Action>)
    requires IsRun(s, actions)
    decreases |actions|
  {
    actions == [] || (!Clears(s, actions[0]) && ClearsNothing(Do(s, actions[0]), actions[1..]))
  }

  /** Records last until their batch is settled: through replies without calls, crashes and restarts under the same
      id none is lost. */
  lemma {:induction false} RecordsLast(s: State, actions: seq<Action>)
    requires IsRun(s, actions) && ClearsNothing(s, actions)
    ensures s.records.Keys <= After(s, actions).records.Keys
    decreases |actions|
  {
    if actions != [] { RecordsLast(Do(s, actions[0]), actions[1..]); }
  }

  /** No record is left outside a batch. */
  predicate OnlyInBatch(s: State) {
    match s.pc
    case Recording(_) | Tools(_) => s.calls != []
    case BeforeDispatch => s.calls != [] && s.records == map[]
    case SuspendPersist(_) | SuspendMark => true
    case StepEnd | Settle => s.calls == [] ==> s.records == map[]
    case Finalizing(ending) => ending.Done? ==> s.records == map[]
    case Finished(ending) => ending.Done? ==> s.records == map[]
    case _ => s.records == map[]
  }

  lemma StepKeepsOnlyInBatch(s: State, a: Action)
    requires OnlyInBatch(s) && Enabled(s, a) && !a.Crash? && !a.NextRun? && (a.SettleRecords? ==> a.cleared)
    ensures OnlyInBatch(Do(s, a))
  {
    if Plans(a) || Dispatches(a) || Collects(a) {
      EarlyStepKeepsOnlyInBatch(s, a);
    } else {
      LateStepKeepsOnlyInBatch(s, a);
    }
  }

  lemma EarlyStepKeepsOnlyInBatch(s: State, a: Action)
    requires OnlyInBatch(s) && Enabled(s, a) && (Plans(a) || Dispatches(a) || Collects(a))
    ensures OnlyInBatch(Do(s, a))
  {
  }

  lemma LateStepKeepsOnlyInBatch(s: State, a: Action)
    requires OnlyInBatch(s) && Enabled(s, a) && !Plans(a) && !Dispatches(a) && !Collects(a)
    requires !a.Crash? && !a.NextRun? && (a.SettleRecords? ==> a.cleared)
    ensures OnlyInBatch(Do(s, a))
  {
  }

  /** And they do not outlast it: in a run that starts without records and whose settling succeeds there are none
      outside a batch, and none when it is done, so there is nothing a later process could dispatch again. */
  lemma {:induction false} RecordsEndWithTheirBatch(s: State, actions: seq<Action>)
    requires OnlyInBatch(s) && IsRun(s, actions)
    requires forall i :: 0 <= i < |actions| ==>
               !actions[i].Crash? && !actions[i].NextRun? && (actions[i].SettleRecords? ==> actions[i].cleared)
    ensures OnlyInBatch(After(s, actions))
    decreases |actions|
  {
    if actions != [] {
      StepKeepsOnlyInBatch(s, actions[0]);
      RecordsEndWithTheirBatch(Do(s, actions[0]), actions[1..]);
    }
  }

  // ----- Endings ---------------------------------------------------------------------

  /** Each ending is reached in its own way only. */
  predicate EndingFits(s: State) {
    match s.pc
    case Finalizing(ending) => FitsEnding(s, ending)
    case Finished(ending) => FitsEnding(s, ending)
    case _ => true
  }

  predicate FitsEnding(s: State, ending: Status) {
    match ending
    case Done => s.calls == []
    case NothingPending => s.query.Answer? && s.step == 0
    case Suspended => s.pending == s.suspend == s.dbPending
    case _ => true
  }

  lemma StepKeepsEndingFits(s: State, a: Action)
    requires EndingFits(s) && Enabled(s, a)
    ensures EndingFits(Do(s, a))
  {
    if Plans(a) || Dispatches(a) || Collects(a) {
      EarlyStepKeepsEndingFits(s, a);
    } else {
      LateStepKeepsEndingFits(s, a);
    }
  }

  lemma EarlyStepKeepsEndingFits(s: State, a: Action)
    requires EndingFits(s) && Enabled(s, a) && (Plans(a) || Dispatches(a) || Collects(a))
    ensures EndingFits(Do(s, a))
  {
  }

  lemma LateStepKeepsEndingFits(s: State, a: Action)
    requires EndingFits(s) && Enabled(s, a) && !Plans(a) && !Dispatches(a) && !Collects(a)
    ensures EndingFits(Do(s, a))
  {
  }

  /** Over all runs: a run is done only behind a reply without calls, reports that nothing is pending only for an
      answer on its first step, and is suspended only with the asking call as its marker, also on record. */
  lemma {:induction false} EndingsMeanWhatTheySay(s: State, actions: seq<Action>)
    requires EndingFits(s) && IsRun(s, actions)
    ensures EndingFits(After(s, actions))
    decreases |actions|
  {
    if actions != [] {
      StepKeepsEndingFits(s, actions[0]);
      EndingsMeanWhatTheySay(Do(s, actions[0]), actions[1..]);
    }
  }
}
