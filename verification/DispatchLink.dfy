// Remote tool dispatch: one server's link object, and the protocol it runs with executors over
// a network that loses, repeats and reorders messages, across server restarts
// (src/flops_agent/executor/link.py, src/flops_agent/executor/protocol.py).
module DispatchLink {
  import opened Prelude

  /** Executor-to-server messages. An empty value or error text stands for a falsy one. */
  datatype Message =
    | StreamChunk(task: string, chunk: string)
    | StreamMeta(task: string, fields: string)
    | Result(task: string, value: string)
    | Failed(task: string, error: string)
    | Foreign(kind: string)
  {
    predicate Terminal() { Result? || Failed? }
  }

  /** A terminal message reduced to what parking and replay need. */
  datatype Outcome = ResultOutcome(value: string) | FailedOutcome(error: string)

  datatype ToolResult = PlainSuccess | Value(value: string) | Failure(error: string)

  function OutcomeOf(m: Message): Outcome
    requires m.Terminal()
  {
    if m.Result? then ResultOutcome(m.value) else FailedOutcome(m.error)
  }

  function ToToolResult(o: Outcome): ToolResult {
    match o
    case ResultOutcome(value) => if value == "" then PlainSuccess else Value(value)
    case FailedOutcome(error) => Failure(if error == "" then "Task failed" else error)
  }

  /** What a result tells about a terminal message: it is a failure iff the message was one, with its error text or
      the default one; otherwise it is the message's value, or plain success when that is empty. */
  ghost predicate Tells(r: ToolResult, failed: bool, text: string) {
    && (r.Failure? <==> failed)
    && (failed ==> r.error == if text == "" then "Task failed" else text)
    && (!failed && text != "" ==> r == Value(text))
    && (!failed && text == "" ==> r.PlainSuccess?)
  }

  ghost predicate TellsOutcome(r: ToolResult, o: Outcome) {
    Tells(r, o.FailedOutcome?, if o.FailedOutcome? then o.error else o.value)
  }

  ghost predicate TellsMessage(r: ToolResult, m: Message) {
    m.Terminal() && Tells(r, m.Failed?, if m.Failed? then m.error else m.value)
  }

  /** In-process waiter queues, and the durable ledger of seen tasks and parked outcomes. */
  datatype Link = Link(waiting: map<string, seq<Message>>, seen: set<string>, parked: map<string, Outcome>)

  datatype Received = Received(link: Link, ack: Option<string>)

  /** Routing of one message. A terminal outcome counts once; repeats are only acknowledged again. */
  function Receive(l: Link, m: Message): (r: Received) {
    if m.Foreign? || m.task == "" then Received(l, None)
    else if m.Terminal() then
      if m.task in l.seen then Received(l, Some(m.task))
      else
        var l := l.(seen := l.seen + {m.task});
        if m.task in l.waiting then
          Received(l.(waiting := l.waiting[m.task := l.waiting[m.task] + [m]]), Some(m.task))
        else
          Received(l.(parked := l.parked[m.task := OutcomeOf(m)]), Some(m.task))
    else if m.task in l.waiting then
      Received(l.(waiting := l.waiting[m.task := l.waiting[m.task] + [m]]), None)
    else Received(l, None)
  }

  datatype Started = Started(link: Link, result: Option<ToolResult>)

  /** A resumed dispatch drains a parked outcome, or waits for a replay without sending anything. */
  function Resume(l: Link, task: string): (r: Started) {
    if task in l.parked then Started(l.(parked := l.parked - {task}), Some(ToToolResult(l.parked[task])))
    else Started(l.(waiting := l.waiting[task := []]), None)
  }

  /** The waiter takes one queued message; a terminal one ends the dispatch. */
  function Poll(l: Link, task: string): (r: Started)
    requires task in l.waiting && l.waiting[task] != []
  {
    var m := l.waiting[task][0];
    if m.Terminal() then Started(l.(waiting := l.waiting - {task}), Some(ToToolResult(OutcomeOf(m))))
    else Started(l.(waiting := l.waiting[task := l.waiting[task][1..]]), None)
  }

  function Expire(l: Link, task: string): Link {
    l.(waiting := l.waiting - {task})
  }

  // ----- The server objects -------------------------------------------------------

  /** In-process ledger: seen task ids and parked outcomes. */
  class InMemoryDispatchLedger {
    var seen: set<string>
    var parked: map<string, Outcome>

    constructor ()
      ensures seen == {} && parked == map[]
    {
      seen, parked := {}, map[];
    }

    method MarkSeen(task: string)
      modifies this`seen
      ensures seen == old(seen) + {task}
    {
      seen := seen + {task};
    }

    method Park(task: string, outcome: Outcome)
      modifies this`parked
      ensures parked == old(parked)[task := outcome]
    {
      parked := parked[task := outcome];
    }

    method TakeParked(task: string) returns (outcome: Option<Outcome>)
      modifies this`parked
      ensures outcome == if task in old(parked) then Some(old(parked)[task]) else None
      ensures parked == old(parked) - {task}
    {
      if task !in parked { return None; }
      outcome := Some(parked[task]);
      parked := parked - {task};
    }
  }

  class ExecutorLink {
    const ledger: InMemoryDispatchLedger
    var waiting: map<string, seq<Message>>

    ghost function View(): Link
      reads this, ledger
    {
      Link(waiting, ledger.seen, ledger.parked)
    }

    constructor (ledger: InMemoryDispatchLedger)
      ensures this.ledger == ledger && waiting == map[]
    {
      this.ledger := ledger;
      waiting := map[];
    }

    method ReceiveMessage(m: Message) returns (ack: Option<string>)
      modifies this, ledger
      ensures Received(View(), ack) == Receive(old(View()), m)
      ensures ack == if m.Foreign? || m.task == "" || !m.Terminal() then None else Some(m.task)
      ensures !m.Foreign? && m.task != "" && !m.Terminal() ==>
                && ledger.seen == old(ledger.seen) && ledger.parked == old(ledger.parked)
                && waiting == if m.task in old(waiting)
                              then old(waiting)[m.task := old(waiting)[m.task] + [m]] else old(waiting)
      ensures ack.Some? && m.task !in old(ledger.seen) ==>
                && ledger.seen == old(ledger.seen) + {m.task}
                && (m.task in old(waiting) ==>
                      && waiting == old(waiting)[m.task := old(waiting)[m.task] + [m]]
                      && ledger.parked == old(ledger.parked))
                && (m.task !in old(waiting) ==>
                      && waiting == old(waiting) && m.task in ledger.parked
                      && (forall r :: TellsOutcome(r, ledger.parked[m.task]) <==> TellsMessage(r, m)))
    {
      if m.Foreign? || m.task == "" { return None; }
      if m.Terminal() {
        if m.task !in ledger.seen {
          ledger.MarkSeen(m.task);
          if m.task in waiting {
            waiting := waiting[m.task := waiting[m.task] + [m]];
          } else {
            ledger.Park(m.task, OutcomeOf(m));
          }
        }
        return Some(m.task);
      }
      if m.task in waiting {
        waiting := waiting[m.task := waiting[m.task] + [m]];
      }
      return None;
    }

    /** Registers the waiter of a dispatch, or returns the parked outcome of a resumed one. */
    method StartDispatch(task: string, resume: bool) returns (result: Option<ToolResult>)
      modifies this, ledger
      ensures resume ==> Started(View(), result) == Resume(old(View()), task)
      ensures result.Some? <==> resume && task in old(ledger.parked)
      ensures result.Some? ==>
                TellsOutcome(result.value, old(ledger.parked)[task]) && ledger.parked == old(ledger.parked) - {task}
      ensures !resume ==> result == None && View() == old(View()).(waiting := old(waiting)[task := []])
    {
      if resume {
        var parked := ledger.TakeParked(task);
        if parked.Some? { return Some(ToToolResult(parked.value)); }
      }
      waiting := waiting[task := []];
      return None;
    }

    /** The waiting loop over messages already queued: stream updates are relayed, the first terminal
        message ends the dispatch and removes the waiter. */
    method DrainQueue(task: string) returns (result: Option<ToolResult>, streamed: seq<Message>)
      requires task in waiting
      modifies this
      ensures var q := old(waiting[task]);
              && streamed <= q
              && (forall i :: 0 <= i < |streamed| ==> !streamed[i].Terminal())
              && (result.None? ==> streamed == q && View() == old(View()).(waiting := old(waiting)[task := []]))
              && (result.Some? ==>
                    && |streamed| < |q| && q[|streamed|].Terminal()
                    && TellsMessage(result.value, q[|streamed|])
                    && View() == Expire(old(View()), task))
    {
      ghost var q := waiting[task];
      streamed := [];
      while waiting[task] != []
        invariant task in waiting && waiting.Keys == old(waiting).Keys
        invariant waiting == old(waiting)[task := waiting[task]]
        invariant q == streamed + waiting[task]
        invariant forall i :: 0 <= i < |streamed| ==> !streamed[i].Terminal()
        decreases |waiting[task]|
      {
        var m := waiting[task][0];
        if m.Terminal() {
          waiting := waiting - {task};
          return Some(ToToolResult(OutcomeOf(m))), streamed;
        }
        waiting := waiting[task := waiting[task][1..]];
        streamed := streamed + [m];
      }
      return None, streamed;
    }
  }

  // ----- The protocol -----------------------------------------------------------------

  /** Everything put on the wire stays deliverable, any number of times and in any order, or never.
      `accepted`, `returned`, `dropped` and `results` record what became of first terminal outcomes. */
  datatype World = World(
    link: Link, sending: set<string>, dispatched: set<string>, runSent: multiset<string>,
    toExecutor: set<string>, toServer: set<Message>, acks: set<string>,
    outbox: map<string, Message>, produced: set<string>,
    accepted: map<string, Outcome>, returned: multiset<string>, dropped: multiset<string>,
    results: map<string, ToolResult>)

  datatype Step =
    | Dispatch(task: string)                 // a new dispatch, with a fresh task id: waiter set, run_tool handed over
    | SendReturns(task: string)              // the transport took it
    | SendRaises(task: string)               // or raised, whether or not it had delivered
    | ResumeDispatch(task: string)           // dispatch again after a restart, never sending
    | WaiterTakes(task: string)
    | WaiterTimesOut(task: string)
    | ServerReceives(m: Message)
    | Restart
    | ExecutorFinishes(m: Message)           // a terminal message enters the executor's outbox
    | ExecutorStreams(m: Message)
    | ExecutorSends(task: string)            // first send or replay of an outbox item
    | ExecutorGetsAck(task: string)

  ghost predicate Initial(w: World) {
    w == World(Link(map[], {}, map[]), {}, {}, multiset{}, {}, {}, {}, map[], {}, map[], multiset{}, multiset{}, map[])
  }

  ghost predicate Enabled(w: World, s: Step) {
    match s
    case Dispatch(task) => task != "" && task !in w.dispatched
    case SendReturns(task) => task in w.sending
    case SendRaises(task) => task in w.sending
    case ResumeDispatch(task) => task in w.dispatched && task !in w.link.waiting
    case WaiterTakes(task) => task in w.link.waiting && task !in w.sending && w.link.waiting[task] != []
    case WaiterTimesOut(task) => task in w.link.waiting && task !in w.sending
    case ServerReceives(m) => m in w.toServer
    case Restart => true
    case ExecutorFinishes(m) => m.Terminal() && m.task in w.toExecutor
    case ExecutorStreams(m) => (m.StreamChunk? || m.StreamMeta?) && m.task in w.toExecutor
    case ExecutorSends(task) => task in w.outbox
    case ExecutorGetsAck(task) => task in w.acks
  }

  function Terminals(q: seq<Message>): nat {
    if q == [] then 0 else Terminals(q[..|q| - 1]) + (if q[|q| - 1].Terminal() then 1 else 0)
  }

  function Queued(l: Link, task: string): nat {
    if task in l.waiting then Terminals(l.waiting[task]) else 0
  }

  /** Tasks whose terminal outcome sits in a waiter queue. */
  function Loaded(l: Link): set<string> {
    set task | task in l.waiting && Terminals(l.waiting[task]) > 0
  }

  function Discard(w: World, task: string): World {
    w.(link := Expire(w.link, task), sending := w.sending - {task},
       dropped := if task in Loaded(w.link) then w.dropped + multiset{task} else w.dropped)
  }

  function Return(w: World, task: string, started: Started): World {
    if started.result.None? then w.(link := started.link)
    else w.(link := started.link, returned := w.returned + multiset{task},
            results := w.results[task := started.result.value])
  }

  function Do(w: World, s: Step): (w': World)
    requires Enabled(w, s)
  {
    match s
    case Dispatch(task) =>
      w.(link := w.link.(waiting := w.link.waiting[task := []]), sending := w.sending + {task},
         dispatched := w.dispatched + {task}, runSent := w.runSent + multiset{task},
         toExecutor := w.toExecutor + {task})
    case SendReturns(task) => w.(sending := w.sending - {task})
    case SendRaises(task) => Discard(w, task)
    case ResumeDispatch(task) => Return(w, task, Resume(w.link, task))
    case WaiterTakes(task) => Return(w, task, Poll(w.link, task))
    case WaiterTimesOut(task) => Discard(w, task)
    case ServerReceives(m) =>
      var r := Receive(w.link, m);
      w.(link := r.link,
         acks := if r.ack.Some? then w.acks + {r.ack.value} else w.acks,
         accepted := if r.ack.Some? && r.ack.value !in w.link.seen
                     then w.accepted[r.ack.value := OutcomeOf(m)] else w.accepted)
    case Restart =>
      w.(link := w.link.(waiting := map[]), sending := {}, dropped := w.dropped + multiset(Loaded(w.link)))
    case ExecutorFinishes(m) => w.(outbox := w.outbox[m.task := m], produced := w.produced + {m.task})
    case ExecutorStreams(m) => w.(toServer := w.toServer + {m})
    case ExecutorSends(task) => w.(toServer := w.toServer + {w.outbox[task]})
    case ExecutorGetsAck(task) => w.(outbox := w.outbox - {task})
  }

  // ----- Invariants ---------------------------------------------------------------------

  /** In how many places the terminal outcome of a task is. */
  function Places(w: World, task: string): nat {
    Queued(w.link, task) + (if task in w.link.parked then 1 else 0) + w.returned[task] + w.dropped[task]
  }

  /** Each received terminal outcome is in exactly one place, and an unseen task's in none. */
  ghost predicate Conserved(w: World) {
    forall task :: Places(w, task) == if task in w.link.seen then 1 else 0
  }

  ghost predicate NeverParkedWhileWaiting(w: World) {
    forall task :: task in w.link.waiting ==> task !in w.link.parked
  }

  /** The copies that are somewhere are copies of what was received first. */
  ghost predicate QueuedFaithfully(m: Message, task: string, accepted: map<string, Outcome>) {
    && !m.Foreign? && m.task == task
    && (m.Terminal() ==> task in accepted && OutcomeOf(m) == accepted[task])
  }

  ghost predicate Faithful(w: World) {
    && (forall task :: task in w.link.seen <==> task in w.accepted)
    && (forall task :: task in w.link.parked ==> task in w.accepted && w.link.parked[task] == w.accepted[task])
    && (forall task, k :: task in w.link.waiting && 0 <= k < |w.link.waiting[task]| ==>
          QueuedFaithfully(w.link.waiting[task][k], task, w.accepted))
    && (forall task :: task in w.returned ==>
          task in w.accepted && task in w.results && w.results[task] == ToToolResult(w.accepted[task]))
  }

  ghost predicate SentAtMostOnce(w: World) {
    && (forall task :: w.runSent[task] <= 1)
    && (forall task :: task in w.sending ==> task in w.dispatched && task in w.link.waiting)
    && (forall task :: task in w.runSent ==> task in w.dispatched)
  }

  /** Only dispatched tasks are ever talked about. */
  ghost predicate OnlyDispatched(w: World) {
    OnWire(w) && InLink(w)
  }

  ghost predicate OnWire(w: World) {
    && w.toExecutor <= w.dispatched && "" !in w.dispatched
    && (forall m :: m in w.toServer ==> !m.Foreign? && m.task in w.dispatched)
    && (forall task :: task in w.outbox ==>
          w.outbox[task].Terminal() && w.outbox[task].task == task && task in w.dispatched)
  }

  ghost predicate InLink(w: World) {
    && w.link.seen <= w.dispatched
    && (forall task :: task in w.link.parked ==> task in w.dispatched)
  }

  /** An acknowledged task has been seen, so an outcome leaves the outbox only once the server has it. */
  ghost predicate NothingLostBeforeSeen(w: World) {
    && w.acks <= w.link.seen
    && (forall task :: task in w.produced ==> task in w.outbox || task in w.link.seen)
  }

  ghost predicate Inv(w: World) {
    && Conserved(w) && NeverParkedWhileWaiting(w) && Faithful(w)
    && SentAtMostOnce(w) && OnlyDispatched(w) && NothingLostBeforeSeen(w)
  }

  lemma TerminalsPop(q: seq<Message>)
    requires q != []
    ensures Terminals(q) == (if q[0].Terminal() then 1 else 0) + Terminals(q[1..])
  {
    if |q| == 1 {
      assert q[..0] == [] && q[1..] == [];
    } else {
      TerminalsPop(q[..|q| - 1]);
      assert q[..|q| - 1][1..] == q[1..][..|q| - 2];
    }
  }

  lemma ReceiveKeepsConserved(w: World, m: Message)
    requires Conserved(w) && NeverParkedWhileWaiting(w) && Enabled(w, ServerReceives(m)) && !m.Foreign?
    ensures Conserved(Do(w, ServerReceives(m)))
  {
    var w' := Do(w, ServerReceives(m));
    forall task ensures Places(w', task) == if task in w'.link.seen then 1 else 0 {
      assert Places(w, task) == if task in w.link.seen then 1 else 0;
      if task == m.task && task in w.link.waiting {
        var q := w.link.waiting[task];
        assert (q + [m])[..|q|] == q;
      }
    }
  }

  lemma ResumeKeepsConserved(w: World, task: string)
    requires Conserved(w) && Enabled(w, ResumeDispatch(task))
    ensures Conserved(Do(w, ResumeDispatch(task)))
  {
    var w' := Do(w, ResumeDispatch(task));
    forall t ensures Places(w', t) == if t in w'.link.seen then 1 else 0 {
      assert Places(w, t) == if t in w.link.seen then 1 else 0;
    }
  }

  lemma TakeKeepsConserved(w: World, task: string)
    requires Conserved(w) && Enabled(w, WaiterTakes(task))
    ensures Conserved(Do(w, WaiterTakes(task)))
  {
    var w' := Do(w, WaiterTakes(task));
    TerminalsPop(w.link.waiting[task]);
    assert Places(w, task) <= 1;
    forall t ensures Places(w', t) == if t in w'.link.seen then 1 else 0 {
      assert Places(w, t) == if t in w.link.seen then 1 else 0;
    }
  }

  lemma DiscardKeepsConserved(w: World, s: Step)
    requires Conserved(w) && Enabled(w, s) && (s.SendRaises? || s.WaiterTimesOut? || s.Restart?)
    ensures Conserved(Do(w, s))
  {
    var w' := Do(w, s);
    forall task ensures Places(w', task) == if task in w'.link.seen then 1 else 0 {
      assert Places(w, task) == if task in w.link.seen then 1 else 0;
      assert task in Loaded(w.link) <==> Queued(w.link, task) > 0;
    }
  }

  lemma DoKeepsConserved(w: World, s: Step)
    requires Conserved(w) && NeverParkedWhileWaiting(w) && OnlyDispatched(w) && Enabled(w, s)
    ensures Conserved(Do(w, s))
  {
    if s.ServerReceives? { ReceiveKeepsConserved(w, s.m); }
    else if s.ResumeDispatch? { ResumeKeepsConserved(w, s.task); }
    else if s.WaiterTakes? { TakeKeepsConserved(w, s.task); }
    else if s.SendRaises? || s.WaiterTimesOut? || s.Restart? { DiscardKeepsConserved(w, s); }
    else {
      var w' := Do(w, s);
      forall task ensures Places(w', task) == if task in w'.link.seen then 1 else 0 {
        assert Places(w, task) == if task in w.link.seen then 1 else 0;
        if s.Dispatch? && task == s.task { assert task !in w.link.seen; }
      }
    }
  }

  lemma ReceiveKeepsFaithful(w: World, m: Message)
    requires Faithful(w) && Enabled(w, ServerReceives(m)) && !m.Foreign?
    ensures Faithful(Do(w, ServerReceives(m)))
  {
    var w' := Do(w, ServerReceives(m));
    forall task, k | task in w'.link.waiting && 0 <= k < |w'.link.waiting[task]|
      ensures QueuedFaithfully(w'.link.waiting[task][k], task, w'.accepted)
    {
      if k < |w.link.waiting[task]| {
        assert QueuedFaithfully(w.link.waiting[task][k], task, w.accepted);
      }
    }
  }

  lemma TakeKeepsFaithful(w: World, task: string)
    requires Faithful(w) && Enabled(w, WaiterTakes(task))
    ensures Faithful(Do(w, WaiterTakes(task)))
  {
    var q := w.link.waiting[task];
    assert forall k :: 0 <= k < |q| - 1 ==> q[1..][k] == q[k + 1];
    assert QueuedFaithfully(q[0], task, w.accepted);
  }

  /** Steps that put nothing into a waiter's queue and return nothing. */
  lemma DropKeepsFaithful(w: World, s: Step)
    requires Faithful(w) && Enabled(w, s)
    requires s.Dispatch? || s.SendRaises? || s.WaiterTimesOut? || s.Restart?
    ensures Faithful(Do(w, s))
  {
  }

  lemma ResumeKeepsFaithful(w: World, task: string)
    requires Faithful(w) && Enabled(w, ResumeDispatch(task))
    ensures Faithful(Do(w, ResumeDispatch(task)))
  {
    if task in w.link.parked {
      ParkedKeepsFaithful(w, task);
    } else {
      assert Do(w, ResumeDispatch(task)).results == w.results;
    }
  }

  lemma ParkedKeepsFaithful(w: World, task: string)
    requires Faithful(w) && Enabled(w, ResumeDispatch(task)) && task in w.link.parked
    ensures Faithful(Do(w, ResumeDispatch(task)))
  {
    assert w.link.parked[task] == w.accepted[task];
  }

  lemma DoKeepsFaithful(w: World, s: Step)
    requires Faithful(w) && OnlyDispatched(w) && Enabled(w, s)
    ensures Faithful(Do(w, s))
  {
    match s
    case ServerReceives(m) => ReceiveKeepsFaithful(w, m);
    case WaiterTakes(task) => TakeKeepsFaithful(w, task);
    case ResumeDispatch(task) => ResumeKeepsFaithful(w, task);
    case Dispatch(_) | SendRaises(_) | WaiterTimesOut(_) | Restart => DropKeepsFaithful(w, s);
    case _ =>
  }

  lemma DoKeepsNeverParked(w: World, s: Step)
    requires NeverParkedWhileWaiting(w) && OnlyDispatched(w) && Enabled(w, s)
    ensures NeverParkedWhileWaiting(Do(w, s))
  {
  }

  lemma DoKeepsSentAtMostOnce(w: World, s: Step)
    requires SentAtMostOnce(w) && Enabled(w, s)
    ensures SentAtMostOnce(Do(w, s))
  {
    if s.Dispatch? { assert s.task !in w.runSent; }
  }

  lemma DoKeepsOnWire(w: World, s: Step)
    requires OnWire(w) && SentAtMostOnce(w) && Enabled(w, s)
    ensures OnWire(Do(w, s))
  {
  }

  lemma DoKeepsInLink(w: World, s: Step)
    requires OnlyDispatched(w) && Enabled(w, s)
    ensures InLink(Do(w, s))
  {
  }

  lemma DoKeepsNothingLost(w: World, s: Step)
    requires NothingLostBeforeSeen(w) && OnlyDispatched(w) && Enabled(w, s)
    ensures NothingLostBeforeSeen(Do(w, s))
  {
  }

  ghost predicate IsRun(trace: seq<World>, steps: seq<Step>) {
    && |trace| == |steps| + 1
    && Initial(trace[0])
    && forall i :: 0 <= i < |steps| ==> Enabled(trace[i], steps[i]) && trace[i + 1] == Do(trace[i], steps[i])
  }

  lemma {:induction false} RunKeepsInv(trace: seq<World>, steps: seq<Step>, i: nat)
    requires IsRun(trace, steps) && i < |trace|
    ensures Inv(trace[i])
  {
    if i > 0 {
      RunKeepsInv(trace, steps, i - 1);
      DoKeepsConserved(trace[i - 1], steps[i - 1]);
      DoKeepsFaithful(trace[i - 1], steps[i - 1]);
      DoKeepsNeverParked(trace[i - 1], steps[i - 1]);
      DoKeepsSentAtMostOnce(trace[i - 1], steps[i - 1]);
      DoKeepsOnWire(trace[i - 1], steps[i - 1]);
      DoKeepsInLink(trace[i - 1], steps[i - 1]);
      DoKeepsNothingLost(trace[i - 1], steps[i - 1]);
    }
  }

  /** Dispatch conservation, for every run of the protocol. */
  lemma DispatchConservation(trace: seq<World>, steps: seq<Step>, i: nat, task: string)
    requires IsRun(trace, steps) && i < |trace|
    ensures var w := trace[i];
            && w.runSent[task] <= 1 && w.returned[task] <= 1
            && (task in w.acks ==> task in w.link.seen)
            && (task in w.link.waiting ==> task !in w.link.parked)
            && Places(w, task) == (if task in w.link.seen then 1 else 0)
            && (task in w.produced ==> task in w.outbox || task in w.link.seen)
            && (task in w.returned ==> task in w.accepted && task in w.results &&
                                       w.results[task] == ToToolResult(w.accepted[task]))
  {
    RunKeepsInv(trace, steps, i);
  }

  lemma AcceptedStays(w: World, s: Step, task: string)
    requires Faithful(w) && Enabled(w, s) && task in w.accepted
    ensures task in Do(w, s).accepted && Do(w, s).accepted[task] == w.accepted[task]
  {
  }

  lemma RunIsFaithful(trace: seq<World>, steps: seq<Step>, i: nat)
    requires IsRun(trace, steps) && i < |trace|
    ensures Faithful(trace[i])
  {
    RunKeepsInv(trace, steps, i);
  }

  /** The first terminal outcome received is final: nothing later replaces it. */
  lemma {:induction false} FirstOutcomeIsFinal(trace: seq<World>, steps: seq<Step>, i: nat, j: nat, task: string)
    requires IsRun(trace, steps) && i <= j < |trace| && task in trace[i].accepted
    ensures task in trace[j].accepted && trace[j].accepted[task] == trace[i].accepted[task]
  {
    if i < j {
      FirstOutcomeIsFinal(trace, steps, i, j - 1, task);
      RunIsFaithful(trace, steps, j - 1);
      AcceptedStays(trace[j - 1], steps[j - 1], task);
    }
  }

  ghost predicate ReceivesOutcome(step: Step, task: string) {
    step.ServerReceives? && step.m.Terminal() && step.m.task == task
  }

  lemma OutcomeIsAccepted(w: World, s: Step, task: string)
    requires Faithful(w) && Enabled(w, s) && task != "" && ReceivesOutcome(s, task)
    ensures task in Do(w, s).accepted
    ensures task !in w.accepted ==> Do(w, s).accepted[task] == OutcomeOf(s.m)
  {
  }

  lemma OnlyOutcomesAreAccepted(w: World, s: Step, task: string)
    requires Faithful(w) && Enabled(w, s) && !ReceivesOutcome(s, task)
    ensures task in Do(w, s).accepted <==> task in w.accepted
  {
  }

  /** The outcome on record for a task is that of the first terminal message received for it. */
  lemma {:induction false} AcceptedIsFirst(trace: seq<World>, steps: seq<Step>, i: nat, task: string) returns (j: nat)
    requires IsRun(trace, steps) && i < |trace| && task != "" && task in trace[i].accepted
    ensures j < i && ReceivesOutcome(steps[j], task) && trace[i].accepted[task] == OutcomeOf(steps[j].m)
    ensures forall k :: 0 <= k < j ==> !ReceivesOutcome(steps[k], task)
    decreases i
  {
    j := i - 1;
    RunIsFaithful(trace, steps, j);
    if task in trace[j].accepted {
      AcceptedStays(trace[j], steps[j], task);
      j := AcceptedIsFirst(trace, steps, i - 1, task);
    } else {
      if !ReceivesOutcome(steps[j], task) { OnlyOutcomesAreAccepted(trace[j], steps[j], task); }
      OutcomeIsAccepted(trace[j], steps[j], task);
      forall k | 0 <= k < j ensures !ReceivesOutcome(steps[k], task) {
        if ReceivesOutcome(steps[k], task) {
          RunIsFaithful(trace, steps, k);
          OutcomeIsAccepted(trace[k], steps[k], task);
          FirstOutcomeIsFinal(trace, steps, k + 1, j, task);
        }
      }
    }
  }

  /** In every run, whatever was lost, repeated or restarted, a dispatch that returned an outcome told its caller what
      the first terminal message received for its task said: failure with its error, or its value. */
  lemma ResultTellsFirstOutcome(trace: seq<World>, steps: seq<Step>, i: nat, task: string) returns (j: nat)
    requires IsRun(trace, steps) && i < |trace| && task != "" && task in trace[i].returned
    ensures task in trace[i].results
    ensures j < i && ReceivesOutcome(steps[j], task) && TellsMessage(trace[i].results[task], steps[j].m)
    ensures forall k :: 0 <= k < j ==> !ReceivesOutcome(steps[k], task)
  {
    RunIsFaithful(trace, steps, i);
    j := AcceptedIsFirst(trace, steps, i, task);
  }

  /** What an executor still holds can always be brought in: however much was lost, one replay that arrives is seen,
      acknowledged, and once the acknowledgement arrives leaves the outbox. */
  lemma ReplayCompletes(trace: seq<World>, steps: seq<Step>, task: string)
    returns (trace': seq<World>, steps': seq<Step>)
    requires IsRun(trace, steps) && task != "" && task in trace[|steps|].outbox
    ensures IsRun(trace', steps') && trace <= trace' && steps <= steps' && |steps'| == |steps| + 3
    ensures var t := trace'[|steps'|];
            task in t.link.seen && task in t.accepted && task in t.acks && task !in t.outbox
  {
    RunKeepsInv(trace, steps, |steps|);
    var m := trace[|steps|].outbox[task];
    trace', steps' := GoOn(trace, steps, ExecutorSends(task));
    OutcomeArrives(trace'[|steps'|], m);
    trace', steps' := GoOn(trace', steps', ServerReceives(m));
    trace', steps' := GoOn(trace', steps', ExecutorGetsAck(task));
  }

  lemma GoOn(trace: seq<World>, steps: seq<Step>, step: Step) returns (trace': seq<World>, steps': seq<Step>)
    requires IsRun(trace, steps) && Enabled(trace[|steps|], step)
    ensures IsRun(trace', steps') && trace <= trace' && steps <= steps' && |steps'| == |steps| + 1
    ensures trace'[|steps'|] == Do(trace[|steps|], step)
  {
    trace', steps' := trace + [Do(trace[|steps|], step)], steps + [step];
  }

  /** And once its outcome is in a waiter's queue, the dispatch can return it, whatever updates come before it. */
  lemma {:induction false} WaiterReturns(trace: seq<World>, steps: seq<Step>, task: string)
    returns (trace': seq<World>, steps': seq<Step>)
    requires IsRun(trace, steps) && task in Loaded(trace[|steps|].link)
    ensures IsRun(trace', steps') && trace <= trace' && steps <= steps'
    ensures task in trace'[|steps'|].returned && task !in trace'[|steps'|].link.waiting
    decreases |trace[|steps|].link.waiting[task]| + if task in trace[|steps|].sending then 1 else 0
  {
    var w := trace[|steps|];
    if task in w.sending {
      trace', steps' := GoOn(trace, steps, SendReturns(task));
      trace', steps' := WaiterReturns(trace', steps', task);
    } else {
      var q := w.link.waiting[task];
      TerminalsPop(q);
      trace', steps' := GoOn(trace, steps, WaiterTakes(task));
      if !q[0].Terminal() { trace', steps' := WaiterReturns(trace', steps', task); }
    }
  }

  lemma OutcomeArrives(w: World, m: Message)
    requires Faithful(w) && m in w.toServer && m.Terminal() && m.task != ""
    ensures var t := Do(w, ServerReceives(m)); m.task in t.link.seen && m.task in t.acks && m.task in t.accepted
  {
  }

  /** A repeated terminal message changes nothing and is acknowledged again. */
  lemma RepeatIsOnlyAcknowledged(l: Link, m: Message, again: Message)
    requires m.Terminal() && again.Terminal() && m.task == again.task != ""
    ensures Receive(Receive(l, m).link, again) == Received(Receive(l, m).link, Some(m.task))
  {
  }
}
