// Exactly-once hand-off: emits, subscribers and finish as a state machine over arbitrary
// interleavings (src/flops_agent/engine/execution.py, emit, finish, subscribe).
//
// Commits happen in the order of the log lock's FIFO queue, deliveries in the order of the
// store-write lock's FIFO queue. A delivery follows its persist without giving up control, so
// persisting the head and delivering it are one step. A run without a store is the schedule in
// which every queued job is carried out at once. Once finish has begun, nothing more is emitted.
module HandOff {
  import opened Prelude
  import opened RunLog

  /** A log of segments whose open slot, if any, is its last entry. */
  type Log<+R> = st: LogState<seq<R>> | st.SlotIsLast() witness LogState([], None, true)

  /** What a subscriber receives: raw events (one when live, a merged segment when replayed) and a cursor. */
  datatype Item<+R> = Deliver(content: seq<R>, cursor: nat, replayed: bool) | Sentinel

  /** Waiting for the log lock. `held` is what the coalescer still held after this feed. */
  datatype CommitJob<+R> =
    | EmitJob(event: R, parts: seq<LogWrite<seq<R>>>, held: seq<R>)
    | FinishJob(parts: seq<LogWrite<seq<R>>>)

  /** Waiting for the store-write lock. Finishing takes that lock twice: for its segments and for its status. */
  datatype WriteJob<+R> =
    | LiveWrite(item: Item<R>, targets: set<nat>)
    | FinishWrite(targets: set<nat>)
    | FinishMark(targets: set<nat>)

  /** History of one committed emit: its event, its cursor, and what the coalescer held afterwards. */
  datatype Committed<+R> = Committed(event: R, cursor: nat, held: seq<R>)

  /** `joined`: the log's entries at the moment of joining. */
  datatype Sub<+R> = Sub(from: nat, joined: seq<seq<R>>, joinCommit: nat, joinHeld: seq<R>, live: bool,
                         received: seq<Item<R>>, backlog: seq<Item<R>>, queue: seq<Item<R>>)

  datatype State<+R> = State(
    held: seq<R>, commitQueue: seq<CommitJob<R>>, finishing: bool, done: bool,
    log: Log<R>, commits: seq<Committed<R>>, writeQueue: seq<WriteJob<R>>,
    subs: map<nat, Sub<R>>, subscribers: set<nat>, used: set<nat>)

  datatype Step<+R> =
    | Feed(event: R, parts: seq<LogWrite<seq<R>>>, held: seq<R>)
    | Flush(parts: seq<LogWrite<seq<R>>>)
    | CommitHead
    | DeliverHead
    | FinishPersisted
    | RefuseOverwrite
    | SendSentinels
    | Subscribe(id: nat, from: nat)
    | Yield(id: nat)
    | Leave(id: nat)

  /** A run before its first emit: its log is empty or what an earlier process stored, and `commits` is a history
      of emits that leads to that log. */
  ghost predicate Initial<R>(s: State<R>) {
    && s == Loaded(s.log, s.commits) && s.log.openSlot.None?
    && forall k :: 0 <= k < |s.commits| ==> s.commits[k].cursor <= |s.log.log|
  }

  function Loaded<R>(log: Log<R>, commits: seq<Committed<R>>): (s: State<R>) {
    State([], [], false, false, log, commits, [], map[], {}, {})
  }

  /** Any coalescer: nothing is asked of the writes a feed or a flush comes to. */
  predicate Enabled<R>(s: State<R>, step: Step<R>) {
    match step
    case Feed(_, _, _) => !s.finishing
    case Flush(_) => true
    case CommitHead => s.commitQueue != []
    case DeliverHead => s.writeQueue != [] && s.writeQueue[0].LiveWrite?
    case FinishPersisted => s.writeQueue != [] && s.writeQueue[0].FinishWrite?
    case RefuseOverwrite => true
    case SendSentinels => s.writeQueue != [] && s.writeQueue[0].FinishMark?
    case Subscribe(id, _) => id !in s.used
    case Yield(id) => id in s.subs && (s.subs[id].backlog != [] || s.subs[id].queue != [])
    case Leave(id) => id in s.subs
  }

  /** The backlog handed to a subscriber: log[from..] with cursors from+1, from+2, ... */
  function Replays<R>(log: seq<seq<R>>, from: nat): (items: seq<Item<R>>) {
    if from >= |log| then []
    else seq(|log| - from, i requires 0 <= i < |log| - from => Deliver(log[from + i], from + i + 1, true))
  }

  /** What the coalescer held right after the last commit: nothing once the run is done. */
  function HeldNow<R>(s: State<R>): seq<R> {
    if s.done || s.commits == [] then [] else s.commits[|s.commits| - 1].held
  }

  function PutAll<R>(subs: map<nat, Sub<R>>, targets: set<nat>, item: Item<R>): (r: map<nat, Sub<R>>) {
    map id | id in subs :: if id in targets then subs[id].(queue := subs[id].queue + [item]) else subs[id]
  }

  function Do<R>(s: State<R>, step: Step<R>): (s': State<R>)
    requires Enabled(s, step)
  {
    match step
    case Feed(event, parts, held) =>
      s.(held := held, commitQueue := s.commitQueue + [EmitJob(event, parts, held)])
    case Flush(parts) =>
      s.(held := [], commitQueue := s.commitQueue + [FinishJob(parts)], finishing := true)
    case CommitHead =>
      var job := s.commitQueue[0];
      var rest := s.commitQueue[1..];
      (match job
       case EmitJob(event, parts, held) =>
         var log: Log<R> := ApplyParts(s.log, parts).state;
         var cursor := log.LiveCursor();
         s.(commitQueue := rest, log := log,
            commits := s.commits + [Committed(event, cursor, held)],
            writeQueue := s.writeQueue + [LiveWrite(Deliver([event], cursor, false), s.subscribers)])
       case FinishJob(parts) =>
         if s.done then s.(commitQueue := rest)
         else s.(commitQueue := rest, log := ApplyParts(s.log, parts).state, done := true, subscribers := {},
                 writeQueue := s.writeQueue + [FinishWrite(s.subscribers)]))
    case DeliverHead =>
      s.(writeQueue := s.writeQueue[1..], subs := PutAll(s.subs, s.writeQueue[0].targets, s.writeQueue[0].item))
    case FinishPersisted =>
      s.(writeQueue := s.writeQueue[1..] + [FinishMark(s.writeQueue[0].targets)])
    case RefuseOverwrite => s.(log := s.log.(inplaceOk := false))
    case SendSentinels =>
      s.(writeQueue := s.writeQueue[1..], subs := PutAll(s.subs, s.writeQueue[0].targets, Sentinel))
    case Subscribe(id, from) =>
      var sub := Sub(from, s.log.log, |s.commits|, HeldNow(s), !s.done, [], Replays(s.log.log, from), []);
      s.(subs := s.subs[id := sub], used := s.used + {id},
         subscribers := if s.done then s.subscribers else s.subscribers + {id})
    case Yield(id) =>
      s.(subs := s.subs[id := Take(s.subs[id])])
    case Leave(id) =>
      s.(subs := s.subs - {id}, subscribers := s.subscribers - {id})
  }

  // ----- What a subscriber is owed -------------------------------------------

  function Lives<R>(commits: seq<Committed<R>>, from: nat): (items: seq<Item<R>>)
    requires from <= |commits|
  {
    seq(|commits| - from, i requires 0 <= i < |commits| - from =>
      Deliver([commits[from + i].event], commits[from + i].cursor, false))
  }

  /** Replay of the log at the join, then every event committed since, then the sentinel if the run is done. */
  function Owed<R>(commits: seq<Committed<R>>, done: bool, sub: Sub<R>): (items: seq<Item<R>>)
    requires sub.joinCommit <= |commits|
  {
    Replays(sub.joined, sub.from) +
    (if sub.live then Lives(commits, sub.joinCommit) + (if done then [Sentinel] else []) else [])
  }

  /** Items for one subscriber still in the store-write queue. */
  function InFlight<R>(writeQueue: seq<WriteJob<R>>, id: nat): (items: seq<Item<R>>) {
    if writeQueue == [] then []
    else
      var job := writeQueue[|writeQueue| - 1];
      InFlight(writeQueue[..|writeQueue| - 1], id) +
      (if id !in job.targets then [] else if job.LiveWrite? then [job.item] else [Sentinel])
  }

  lemma {:induction false} InFlightConcat<R>(a: seq<WriteJob<R>>, b: seq<WriteJob<R>>, id: nat)
    ensures InFlight(a + b, id) == InFlight(a, id) + InFlight(b, id)
  {
    if b == [] {
      assert a + b == a;
    } else {
      assert (a + b)[..|a + b| - 1] == a + b[..|b| - 1];
      InFlightConcat(a, b[..|b| - 1], id);
    }
  }

  lemma InFlightHead<R>(q: seq<WriteJob<R>>, id: nat)
    requires q != []
    ensures InFlight(q, id) == InFlight([q[0]], id) + InFlight(q[1..], id)
    ensures InFlight([q[0]], id) ==
            if id !in q[0].targets then [] else if q[0].LiveWrite? then [q[0].item] else [Sentinel]
  {
    InFlightConcat([q[0]], q[1..], id);
    assert q == [q[0]] + q[1..];
    assert [q[0]][..0] == [];
  }

  lemma {:induction false} InFlightUnknown<R>(q: seq<WriteJob<R>>, id: nat)
    requires forall k :: 0 <= k < |q| ==> id !in q[k].targets
    ensures InFlight(q, id) == []
  {
    if q != [] { InFlightUnknown(q[..|q| - 1], id); }
  }

  /** Everything already received by a subscriber or on its way to it. */
  function Stream<R>(sub: Sub<R>, writeQueue: seq<WriteJob<R>>, id: nat): (items: seq<Item<R>>) {
    sub.received + sub.backlog + sub.queue + InFlight(writeQueue, id)
  }

  // ----- Invariant -------------------------------------------------------------

  /** Nothing is emitted behind a finish, and finish jobs are last in the store-write queue. */
  ghost predicate FinishIsLast<R>(s: State<R>) {
    && (s.done ==> s.finishing && forall k :: 0 <= k < |s.commitQueue| ==> s.commitQueue[k].FinishJob?)
    && (forall j, k :: 0 <= j < k < |s.commitQueue| && s.commitQueue[j].FinishJob? ==> s.commitQueue[k].FinishJob?)
    && (forall k :: 0 <= k < |s.commitQueue| && s.commitQueue[k].FinishJob? ==> s.finishing)
    && (forall k :: 0 <= k < |s.writeQueue| && !s.writeQueue[k].LiveWrite? ==> s.done && k == |s.writeQueue| - 1)
  }

  ghost predicate KnownTargets<R>(s: State<R>) {
    && s.subscribers <= s.used
    && (s.done ==> s.subscribers == {})
    && (forall id :: id in s.subs ==> id in s.used)
    && forall k :: 0 <= k < |s.writeQueue| ==> s.writeQueue[k].targets <= s.used
  }

  ghost predicate SubOk<R>(s: State<R>, id: nat)
    requires id in s.subs
  {
    var sub := s.subs[id];
    && sub.joinCommit <= |s.commits|
    && (!sub.live ==> s.done)
    && (sub.live && !s.done ==> id in s.subscribers)
    && Stream(sub, s.writeQueue, id) == Owed(s.commits, s.done, sub)
  }

  /** No live delivery carries a cursor beyond what the log now guarantees. */
  ghost predicate CursorsOk<R>(s: State<R>) {
    forall k :: 0 <= k < |s.commits| ==> s.commits[k].cursor <= s.log.LiveCursor()
  }

  ghost predicate Inv<R>(s: State<R>) {
    && FinishIsLast(s) && KnownTargets(s) && CursorsOk(s)
    && forall id :: id in s.subs ==> SubOk(s, id)
  }

  // ----- Each step keeps the invariant -----------------------------------------

  lemma DoKeepsFinishIsLast<R>(s: State<R>, step: Step<R>)
    requires FinishIsLast(s) && Enabled(s, step)
    ensures FinishIsLast(Do(s, step))
  {
    var s' := Do(s, step);
    match step
    case Feed(event, parts, held) => assert s'.writeQueue == s.writeQueue;
    case Flush(parts) => assert s'.writeQueue == s.writeQueue;
    case CommitHead =>
      assert forall k :: 0 <= k < |s'.commitQueue| ==> s'.commitQueue[k] == s.commitQueue[k + 1];
      assert s.commitQueue[0].EmitJob? ==> !s.done;
    case DeliverHead => assert forall k :: 0 <= k < |s'.writeQueue| ==> s'.writeQueue[k] == s.writeQueue[k + 1];
    case FinishPersisted => assert |s.writeQueue| == 1;
    case SendSentinels => assert |s.writeQueue| == 1;
    case _ =>
  }

  lemma DoKeepsKnownTargets<R>(s: State<R>, step: Step<R>)
    requires FinishIsLast(s) && KnownTargets(s) && Enabled(s, step)
    ensures KnownTargets(Do(s, step))
  {
    var s' := Do(s, step);
    if step.CommitHead? && s.commitQueue[0].FinishJob? && !s.done {
      assert forall k :: 0 <= k < |s.writeQueue| ==> s'.writeQueue[k] == s.writeQueue[k];
    }
  }

  /** Whatever a step does, the log below the live cursor stays, and the live cursor never goes back. */
  lemma DoKeepsBelowCursor<R>(s: State<R>, step: Step<R>)
    requires Enabled(s, step)
    ensures KeepsBelowCursor(s.log, Do(s, step).log)
  {
    if step.CommitHead? { ApplyKeepsBelowCursor(s.log, s.commitQueue[0].parts); }
  }

  lemma DoKeepsCursorsOk<R>(s: State<R>, step: Step<R>)
    requires CursorsOk(s) && Enabled(s, step)
    ensures CursorsOk(Do(s, step))
  {
    DoKeepsBelowCursor(s, step);
  }

  lemma OwedAfterEmit<R>(commits: seq<Committed<R>>, sub: Sub<R>, c: Committed<R>)
    requires sub.joinCommit <= |commits|
    ensures sub.live ==> Owed(commits + [c], false, sub) ==
                         Owed(commits, false, sub) + [Deliver([c.event], c.cursor, false)]
  {
    assert Lives(commits + [c], sub.joinCommit) ==
           Lives(commits, sub.joinCommit) + [Deliver([c.event], c.cursor, false)];
  }

  lemma OwedAfterFinish<R>(commits: seq<Committed<R>>, sub: Sub<R>)
    requires sub.joinCommit <= |commits|
    ensures sub.live ==> Owed(commits, true, sub) == Owed(commits, false, sub) + [Sentinel]
  {
  }

  lemma StreamGrows<R>(sub: Sub<R>, q: seq<WriteJob<R>>, id: nat, job: WriteJob<R>)
    requires id in job.targets
    ensures Stream(sub, q + [job], id) == Stream(sub, q, id) + [if job.LiveWrite? then job.item else Sentinel]
  {
    InFlightConcat(q, [job], id);
    InFlightHead([job], id);
  }

  lemma CommitKeepsSub<R>(s: State<R>, id: nat)
    requires s.commitQueue != [] && id in s.subs && SubOk(s, id)
    requires s.done ==> s.commitQueue[0].FinishJob?
    ensures SubOk(Do(s, CommitHead), id)
  {
    var s' := Do(s, CommitHead);
    var sub := s.subs[id];
    if s.commitQueue[0].EmitJob? {
      StreamGrows(sub, s.writeQueue, id, s'.writeQueue[|s.writeQueue|]);
      OwedAfterEmit(s.commits, sub, s'.commits[|s.commits|]);
    } else if !s.done {
      StreamGrows(sub, s.writeQueue, id, s'.writeQueue[|s.writeQueue|]);
      OwedAfterFinish(s.commits, sub);
    }
  }

  /** Popping the head of the store-write queue moves its item, if any, into the subscriber's queue. */
  lemma PutAllKeepsStream<R>(subs: map<nat, Sub<R>>, q: seq<WriteJob<R>>, id: nat)
    requires q != [] && id in subs
    ensures var item := if q[0].LiveWrite? then q[0].item else Sentinel;
            Stream(PutAll(subs, q[0].targets, item)[id], q[1..], id) == Stream(subs[id], q, id)
  {
    InFlightHead(q, id);
    var sub := subs[id];
    assert Stream(sub, q, id) ==
           sub.received + sub.backlog + (sub.queue + InFlight([q[0]], id)) + InFlight(q[1..], id);
  }

  lemma PopKeepsSub<R>(s: State<R>, step: Step<R>, id: nat)
    requires Enabled(s, step) && (step.DeliverHead? || step.SendSentinels?) && id in s.subs && SubOk(s, id)
    ensures SubOk(Do(s, step), id)
  {
    PutAllKeepsStream(s.subs, s.writeQueue, id);
  }

  lemma FinishPersistedKeepsSub<R>(s: State<R>, id: nat)
    requires FinishIsLast(s) && Enabled(s, FinishPersisted) && id in s.subs && SubOk(s, id)
    ensures SubOk(Do(s, FinishPersisted), id)
  {
    assert |s.writeQueue| == 1;
    InFlightHead(s.writeQueue, id);
    InFlightHead(Do(s, FinishPersisted).writeQueue, id);
  }

  lemma SubscribeMakesSub<R>(s: State<R>, id: nat, from: nat)
    requires KnownTargets(s) && Enabled(s, Subscribe(id, from))
    ensures SubOk(Do(s, Subscribe(id, from)), id)
  {
    InFlightUnknown(s.writeQueue, id);
    assert Lives(s.commits, |s.commits|) == [];
  }

  /** The subscriber after taking its next item: backlog first, then the live queue. */
  function Take<R>(sub: Sub<R>): (r: Sub<R>)
    requires sub.backlog != [] || sub.queue != []
    ensures r.received + r.backlog + r.queue == sub.received + sub.backlog + sub.queue
    ensures r.received + r.backlog + r.queue != [] && |r.received| == |sub.received| + 1
  {
    if sub.backlog != [] then
      assert sub.received + sub.backlog == sub.received + [sub.backlog[0]] + sub.backlog[1..];
      sub.(received := sub.received + [sub.backlog[0]], backlog := sub.backlog[1..])
    else
      assert sub.received + sub.backlog + sub.queue ==
             sub.received + [sub.queue[0]] + sub.backlog + sub.queue[1..];
      sub.(received := sub.received + [sub.queue[0]], queue := sub.queue[1..])
  }

  lemma YieldKeepsSub<R>(s: State<R>, id: nat)
    requires Enabled(s, Yield(id)) && SubOk(s, id)
    ensures SubOk(Do(s, Yield(id)), id)
  {
    var sub := Take(s.subs[id]);
    assert Do(s, Yield(id)).subs[id] == sub;
    assert Stream(sub, s.writeQueue, id) == Stream(s.subs[id], s.writeQueue, id);
  }

  lemma DoKeepsSub<R>(s: State<R>, step: Step<R>, id: nat)
    requires Inv(s) && Enabled(s, step) && id in Do(s, step).subs
    ensures SubOk(Do(s, step), id)
  {
    match step
    case CommitHead => assert SubOk(s, id); CommitKeepsSub(s, id);
    case DeliverHead => assert SubOk(s, id); PopKeepsSub(s, step, id);
    case SendSentinels => assert SubOk(s, id); PopKeepsSub(s, step, id);
    case FinishPersisted => assert SubOk(s, id); FinishPersistedKeepsSub(s, id);
    case Subscribe(new_, from) =>
      if new_ == id { SubscribeMakesSub(s, id, from); } else { assert SubOk(s, id); }
    case Yield(who) => assert SubOk(s, id); if who == id { YieldKeepsSub(s, id); }
    case _ => assert SubOk(s, id);
  }

  lemma DoKeepsInv<R>(s: State<R>, step: Step<R>)
    requires Inv(s) && Enabled(s, step)
    ensures Inv(Do(s, step))
  {
    DoKeepsFinishIsLast(s, step);
    DoKeepsKnownTargets(s, step);
    DoKeepsCursorsOk(s, step);
    forall id | id in Do(s, step).subs ensures SubOk(Do(s, step), id) { DoKeepsSub(s, step, id); }
  }

  // ----- Results over whole runs ----------------------------------------------

  ghost predicate IsRun<R>(trace: seq<State<R>>, steps: seq<Step<R>>) {
    && |trace| == |steps| + 1
    && Initial(trace[0])
    && forall i :: 0 <= i < |steps| ==> Enabled(trace[i], steps[i]) && trace[i + 1] == Do(trace[i], steps[i])
  }

  lemma {:induction false} RunKeepsInv<R>(trace: seq<State<R>>, steps: seq<Step<R>>, i: nat)
    requires IsRun(trace, steps) && i < |trace|
    ensures Inv(trace[i])
  {
    if i > 0 {
      RunKeepsInv(trace, steps, i - 1);
      DoKeepsInv(trace[i - 1], steps[i - 1]);
    }
  }

  ghost predicate Drained<R>(s: State<R>, id: nat)
    requires id in s.subs
  {
    s.subs[id].backlog == [] && s.subs[id].queue == [] && InFlight(s.writeQueue, id) == []
  }

  /** Received is a prefix of owed, all of it once drained, and nothing follows the sentinel. */
  ghost predicate ReceivedInOrder<R>(s: State<R>, id: nat, owed: seq<Item<R>>)
    requires id in s.subs
  {
    var received := s.subs[id].received;
    && received <= owed
    && (Drained(s, id) ==> received == owed)
    && (Sentinel in received ==> s.done && received == owed)
  }

  lemma SubOkReceivesInOrder<R>(s: State<R>, id: nat)
    requires id in s.subs && SubOk(s, id)
    ensures ReceivedInOrder(s, id, Owed(s.commits, s.done, s.subs[id]))
  {
    var sub := s.subs[id];
    var owed := Owed(s.commits, s.done, sub);
    if Sentinel in sub.received {
      var k :| 0 <= k < |sub.received| && sub.received[k] == Sentinel;
      assert owed[k] == Sentinel;
      assert k == |owed| - 1;
    }
  }

  /** For any coalescer, also one that overwrites a slot: at any moment of any interleaving a subscriber has received
      a prefix of what it is owed, in order and without repeats; all of it once nothing is on its way; and nothing
      comes after the sentinel. */
  lemma ExactHandOff<R>(trace: seq<State<R>>, steps: seq<Step<R>>, i: nat, id: nat)
    requires IsRun(trace, steps) && i < |trace| && id in trace[i].subs
    ensures SubOk(trace[i], id)
    ensures ReceivedInOrder(trace[i], id, Owed(trace[i].commits, trace[i].done, trace[i].subs[id]))
  {
    RunKeepsInv(trace, steps, i);
    assert SubOk(trace[i], id);
    SubOkReceivesInOrder(trace[i], id);
  }

  /** Reconnecting is safe for any coalescer: whatever happens later in the run, the log below the cursor of a live
      delivery stays what it was, so what the subscriber has not seen is behind it. */
  lemma {:induction false} LiveCursorsStaySafe<R>(trace: seq<State<R>>, steps: seq<Step<R>>, i: nat, j: nat, k: nat)
    requires IsRun(trace, steps) && i <= j < |trace| && k < |trace[i].commits|
    ensures var c := trace[i].commits[k].cursor;
            c <= |trace[i].log.log| && c <= |trace[j].log.log| && trace[j].log.log[..c] == trace[i].log.log[..c]
    decreases j
  {
    RunKeepsInv(trace, steps, i);
    LogKeptBelowCursor(trace, steps, i, j);
    var c, live := trace[i].commits[k].cursor, trace[i].log.LiveCursor();
    assert c <= live;
    assert trace[j].log.log[..c] == trace[j].log.log[..live][..c];
    assert trace[i].log.log[..c] == trace[i].log.log[..live][..c];
  }

  /** A commit puts the event at the head of the queue behind the earlier ones. It hands out the log's length or,
      while a slot is open, the index of the log's last entry. */
  lemma EmitIsCommitted<R>(s: State<R>)
    requires s.commitQueue != [] && s.commitQueue[0].EmitJob?
    ensures var t, n := Do(s, CommitHead), |s.commits|;
            && |t.commits| == n + 1 && t.commits[..n] == s.commits && t.commits[n].event == s.commitQueue[0].event
            && t.commits[n].cursor + (if t.log.openSlot.Some? then 1 else 0) == |t.log.log|
            && t.writeQueue == s.writeQueue +
                 [LiveWrite(Deliver([t.commits[n].event], t.commits[n].cursor, false), s.subscribers)]
  {
  }

  lemma CommitsAreKept<R>(s: State<R>, step: Step<R>)
    requires Enabled(s, step)
    ensures s.commits <= Do(s, step).commits
    ensures |Do(s, step).commits| > |s.commits| ==> step.CommitHead? && s.commitQueue[0].EmitJob?
  {
  }

  /** Which cursor the k-th event was delivered with, for any coalescer: there was a step `j` that committed it, and
      behind it the cursor was the length of the log or, with a slot open, the index of its last entry. So a
      subscriber that reconnects with it right away is replayed at most one entry. */
  lemma {:induction false} CursorAtCommit<R>(trace: seq<State<R>>, steps: seq<Step<R>>, i: nat, k: nat)
    returns (j: nat)
    requires IsRun(trace, steps) && i < |trace| && |trace[0].commits| <= k < |trace[i].commits|
    ensures j < i && steps[j].CommitHead? && |trace[j].commits| == k < |trace[j + 1].commits|
    ensures trace[i].commits[k] == trace[j + 1].commits[k]
    ensures var c, after := trace[i].commits[k].cursor, trace[j + 1].log;
            && c + (if after.openSlot.Some? then 1 else 0) == |after.log|
            && |Replays(after.log, c)| <= 1
    decreases i
  {
    j := i - 1;
    CommitsAreKept(trace[j], steps[j]);
    if k < |trace[j].commits| {
      j := CursorAtCommit(trace, steps, i - 1, k);
    } else {
      EmitIsCommitted(trace[j]);
    }
  }

  /** Cursors of live deliveries never go back, also not behind those an earlier process handed out. */
  lemma CursorsNeverDecrease<R>(trace: seq<State<R>>, steps: seq<Step<R>>, i: nat, k: nat, l: nat)
    requires IsRun(trace, steps) && i < |trace| && k <= l < |trace[i].commits| && |trace[0].commits| <= l
    ensures trace[i].commits[k].cursor <= trace[i].commits[l].cursor
  {
    var j := CursorAtCommit(trace, steps, i, l);
    if k < l {
      RunKeepsInv(trace, steps, j);
      DoKeepsBelowCursor(trace[j], CommitHead);
      CommitsOnlyPrefix(trace, steps, j, i);
      assert trace[j].commits[k].cursor <= trace[j].log.LiveCursor();
    }
  }

  lemma {:induction false} CommitsOnlyPrefix<R>(trace: seq<State<R>>, steps: seq<Step<R>>, i: nat, j: nat)
    requires IsRun(trace, steps) && i <= j < |trace|
    ensures trace[i].commits <= trace[j].commits
    decreases j
  {
    if i < j {
      CommitsOnlyPrefix(trace, steps, i, j - 1);
      CommitsAreKept(trace[j - 1], steps[j - 1]);
    }
  }

  // ----- Nothing gets stuck -----------------------------------------------------------

  /** What a queued write still takes. */
  function WriteWork<R>(q: seq<WriteJob<R>>): (n: nat)
    decreases |q|
  {
    if q == [] then 0 else (if q[0].FinishWrite? then 3 else 2) + WriteWork(q[1..])
  }

  lemma {:induction false} WriteWorkSnoc<R>(q: seq<WriteJob<R>>, job: WriteJob<R>)
    ensures WriteWork(q + [job]) == WriteWork(q) + if job.FinishWrite? then 3 else 2
    decreases |q|
  {
    if q == [] {
      assert (q + [job])[1..] == [];
    } else {
      assert (q + [job])[1..] == q[1..] + [job];
      WriteWorkSnoc(q[1..], job);
    }
  }

  function Work<R>(s: State<R>, id: nat): (n: nat) {
    4 * |s.commitQueue| + WriteWork(s.writeQueue) +
    if id in s.subs then |s.subs[id].backlog| + |s.subs[id].queue| else 0
  }

  /** The queues' own next step, or one of subscriber `id`. */
  function NextStep<R>(s: State<R>, id: nat): (step: Step<R>)
    requires Work(s, id) > 0
    ensures Enabled(s, step)
  {
    if s.commitQueue != [] then CommitHead
    else if s.writeQueue != [] then
      match s.writeQueue[0]
      case LiveWrite(_, _) => DeliverHead
      case FinishWrite(_) => FinishPersisted
      case FinishMark(_) => SendSentinels
    else Yield(id)
  }

  lemma CommitDoesWork<R>(s: State<R>, id: nat)
    requires s.commitQueue != []
    ensures Work(Do(s, CommitHead), id) < Work(s, id)
  {
    var t := Do(s, CommitHead);
    if |t.writeQueue| > |s.writeQueue| {
      WriteWorkSnoc(s.writeQueue, t.writeQueue[|s.writeQueue|]);
    }
  }

  lemma WriteDoesWork<R>(s: State<R>, id: nat)
    requires s.commitQueue == [] && s.writeQueue != []
    ensures Work(Do(s, NextStep(s, id)), id) < Work(s, id)
  {
    if s.writeQueue[0].FinishWrite? { WriteWorkSnoc(s.writeQueue[1..], FinishMark(s.writeQueue[0].targets)); }
  }

  lemma NextStepDoesWork<R>(s: State<R>, id: nat)
    requires Work(s, id) > 0
    ensures Work(Do(s, NextStep(s, id)), id) < Work(s, id) && (id in s.subs ==> id in Do(s, NextStep(s, id)).subs)
  {
    if s.commitQueue != [] {
      CommitDoesWork(s, id);
    } else if s.writeQueue != [] {
      WriteDoesWork(s, id);
    }
  }

  /** Nothing gets stuck: in any state of any run the queues' own steps and the subscriber's, none of them a new
      event, bring it everything it is owed. */
  lemma {:induction false} OwedArrives<R>(trace: seq<State<R>>, steps: seq<Step<R>>, id: nat)
    returns (trace': seq<State<R>>, steps': seq<Step<R>>)
    requires IsRun(trace, steps) && id in trace[|steps|].subs
    ensures IsRun(trace', steps') && trace <= trace' && steps <= steps'
    ensures forall k :: |steps| <= k < |steps'| ==>
              !steps'[k].Feed? && !steps'[k].Flush? && !steps'[k].Subscribe? && !steps'[k].Leave?
    ensures var t := trace'[|steps'|];
            && id in t.subs && t.commitQueue == [] && SubOk(t, id)
            && t.subs[id].received == Owed(t.commits, t.done, t.subs[id])
    decreases Work(trace[|steps|], id)
  {
    var s := trace[|steps|];
    if Work(s, id) == 0 {
      trace', steps' := trace, steps;
      ExactHandOff(trace, steps, |steps|, id);
    } else {
      var step := NextStep(s, id);
      NextStepDoesWork(s, id);
      RunGoesOn(trace, steps, step);
      trace', steps' := OwedArrives(trace + [Do(s, step)], steps + [step], id);
      assert steps'[|steps|] == (steps + [step])[|steps|] == step;
    }
  }

  lemma RunGoesOn<R>(trace: seq<State<R>>, steps: seq<Step<R>>, step: Step<R>)
    requires IsRun(trace, steps) && Enabled(trace[|steps|], step)
    ensures IsRun(trace + [Do(trace[|steps|], step)], steps + [step])
  {
  }

  lemma GoneStaysGone<R>(s: State<R>, step: Step<R>, id: nat)
    requires Enabled(s, step) && id in s.used && id !in s.subs && id !in s.subscribers
    ensures var t := Do(s, step); id in t.used && id !in t.subs && id !in t.subscribers
  {
  }

  /** A subscriber that has left is gone for good: nothing later puts it back or sends to it. */
  lemma {:induction false} LeftForGood<R>(trace: seq<State<R>>, steps: seq<Step<R>>, i: nat, j: nat, id: nat)
    requires IsRun(trace, steps) && i < j < |trace| && steps[i] == Leave(id)
    ensures id in trace[j].used && id !in trace[j].subs && id !in trace[j].subscribers
    decreases j
  {
    if i + 1 < j {
      LeftForGood(trace, steps, i, j - 1, id);
      GoneStaysGone(trace[j - 1], steps[j - 1], id);
    } else {
      RunKeepsInv(trace, steps, i);
    }
  }

  // ----- What is committed, and what is replayed ------------------------------------

  /** The events fed, in order. */
  function Fed<R>(steps: seq<Step<R>>): (events: seq<R>) {
    if steps == [] then []
    else
      var last := steps[|steps| - 1];
      Fed(steps[..|steps| - 1]) + if last.Feed? then [last.event] else []
  }

  /** The events waiting for their commit. */
  function Waiting<R>(jobs: seq<CommitJob<R>>): (events: seq<R>) {
    if jobs == [] then []
    else
      var last := jobs[|jobs| - 1];
      Waiting(jobs[..|jobs| - 1]) + if last.EmitJob? then [last.event] else []
  }

  lemma {:induction false} WaitingHead<R>(jobs: seq<CommitJob<R>>)
    requires jobs != []
    ensures Waiting(jobs) == (if jobs[0].EmitJob? then [jobs[0].event] else []) + Waiting(jobs[1..])
    decreases |jobs|
  {
    if |jobs| > 1 {
      var n := |jobs| - 1;
      WaitingHead(jobs[..n]);
      assert jobs[..n][1..] == jobs[1..][..n - 1];
    }
  }

  lemma WaitingSnoc<R>(jobs: seq<CommitJob<R>>, job: CommitJob<R>)
    ensures Waiting(jobs + [job]) == Waiting(jobs) + if job.EmitJob? then [job.event] else []
  {
    assert (jobs + [job])[..|jobs|] == jobs;
  }

  lemma CommitKeepsFed<R>(s: State<R>)
    requires s.commitQueue != []
    ensures Events(Do(s, CommitHead).commits) + Waiting(Do(s, CommitHead).commitQueue) ==
            Events(s.commits) + Waiting(s.commitQueue)
  {
    WaitingHead(s.commitQueue);
    var t := Do(s, CommitHead);
    if s.commitQueue[0].EmitJob? {
      EmitIsCommitted(s);
      EventsSnoc(t.commits, s.commits);
    }
  }

  lemma EventsSnoc<R>(all: seq<Committed<R>>, before: seq<Committed<R>>)
    requires |all| == |before| + 1 && all[..|before|] == before
    ensures Events(all) == Events(before) + [all[|before|].event]
  {
  }

  lemma StepKeepsFed<R>(s: State<R>, step: Step<R>)
    requires Enabled(s, step)
    ensures Events(Do(s, step).commits) + Waiting(Do(s, step).commitQueue) ==
            Events(s.commits) + Waiting(s.commitQueue) + if step.Feed? then [step.event] else []
  {
    if step.CommitHead? {
      CommitKeepsFed(s);
    } else if step.Feed? {
      WaitingSnoc(s.commitQueue, EmitJob(step.event, step.parts, step.held));
    } else if step.Flush? {
      WaitingSnoc(s.commitQueue, FinishJob(step.parts));
    } else {
      assert Do(s, step).commits == s.commits && Do(s, step).commitQueue == s.commitQueue;
    }
  }

  /** For any coalescer and interleaving: every event fed is committed once, in the order fed, or still waits. */
  lemma {:induction false} CommittedAsFed<R>(trace: seq<State<R>>, steps: seq<Step<R>>, i: nat)
    requires IsRun(trace, steps) && i < |trace|
    ensures Events(trace[i].commits) + Waiting(trace[i].commitQueue) == Events(trace[0].commits) + Fed(steps[..i])
    decreases i
  {
    if i > 0 {
      CommittedAsFed(trace, steps, i - 1);
      StepKeepsFed(trace[i - 1], steps[i - 1]);
      var now := steps[..i];
      assert now[..i - 1] == steps[..i - 1];
    }
  }

  ghost predicate SameOrigin<R>(a: Sub<R>, b: Sub<R>) {
    && a.from == b.from && a.joined == b.joined && a.joinCommit == b.joinCommit
    && a.joinHeld == b.joinHeld && a.live == b.live
  }

  lemma OriginIsKept<R>(s: State<R>, step: Step<R>, id: nat)
    requires Enabled(s, step) && id in Do(s, step).subs && !(step.Subscribe? && step.id == id)
    ensures id in s.subs && SameOrigin(s.subs[id], Do(s, step).subs[id])
  {
    var t := Do(s, step);
    match step
    case DeliverHead => assert t.subs.Keys == s.subs.Keys;
    case SendSentinels => assert t.subs.Keys == s.subs.Keys;
    case _ =>
  }

  /** What a subscriber is owed is said by the state it joined in: some step `j` was its subscription, and it is owed
      the log of that moment from its cursor on, whatever slot was open, and, unless the run was done, every event
      committed since. */
  lemma {:induction false} OwedSinceJoining<R>(trace: seq<State<R>>, steps: seq<Step<R>>, i: nat, id: nat)
    returns (j: nat)
    requires IsRun(trace, steps) && i < |trace| && id in trace[i].subs
    ensures j < i && steps[j] == Subscribe(id, trace[i].subs[id].from)
    ensures var sub, at := trace[i].subs[id], trace[j];
            && sub.joined == at.log.log && sub.joinCommit == |at.commits| <= |trace[i].commits|
            && sub.live == !at.done && sub.joinHeld == HeldNow(at)
    decreases i
  {
    j := i - 1;
    CommitsAreKept(trace[j], steps[j]);
    if !(steps[j].Subscribe? && steps[j].id == id) {
      OriginIsKept(trace[j], steps[j], id);
      j := OwedSinceJoining(trace, steps, i - 1, id);
    }
  }

  lemma {:induction false} LogKeptBelowCursor<R>(trace: seq<State<R>>, steps: seq<Step<R>>, i: nat, j: nat)
    requires IsRun(trace, steps) && i <= j < |trace|
    ensures KeepsBelowCursor(trace[i].log, trace[j].log)
    decreases j
  {
    if i < j {
      LogKeptBelowCursor(trace, steps, i, j - 1);
      DoKeepsBelowCursor(trace[j - 1], steps[j - 1]);
      var live, mid := trace[i].log.LiveCursor(), trace[j - 1].log.LiveCursor();
      assert trace[j].log.log[..live] == trace[j].log.log[..mid][..live];
      assert trace[j - 1].log.log[..live] == trace[j - 1].log.log[..mid][..live];
    }
  }

  // ----- What the log holds: coalescers that append in order ---------------------------

  predicate Appending<R>(parts: seq<LogWrite<seq<R>>>) {
    forall k :: 0 <= k < |parts| ==> !parts[k].replacesOpenSlot
  }

  function Segments<R>(parts: seq<LogWrite<seq<R>>>): (r: seq<seq<R>>)
    ensures |r| == |parts|
  {
    seq(|parts|, i requires 0 <= i < |parts| => parts[i].event)
  }

  function Appends<R>(segments: seq<seq<R>>): (parts: seq<LogWrite<seq<R>>>)
    ensures Appending(parts) && Segments(parts) == segments
  {
    seq(|segments|, i requires 0 <= i < |segments| => LogWrite(segments[i], false))
  }

  /** What is emitted and what is kept is what was held plus the new event; flushing emits all that was held. */
  ghost predicate Orderly<R>(s: State<R>, step: Step<R>) {
    match step
    case Feed(event, parts, held) => Appending(parts) && Flatten(Segments(parts)) + held == s.held + [event]
    case Flush(parts) => Appending(parts) && Flatten(Segments(parts)) == s.held
    case _ => true
  }

  /** Appending writes only make the log longer. */
  lemma {:induction false} AppendingCommit<R>(st: Log<R>, parts: seq<LogWrite<seq<R>>>)
    requires st.openSlot.None? && Appending(parts)
    ensures ApplyParts(st, parts).state == LogState(st.log + Segments(parts), None, st.inplaceOk)
    decreases |parts|
  {
    if parts == [] {
      assert st.log + [] == st.log;
    } else {
      var n := |parts| - 1;
      AppendingCommit(st, parts[..n]);
      assert Segments(parts) == Segments(parts[..n]) + [parts[n].event];
      assert st.log + Segments(parts) == st.log + Segments(parts[..n]) + [parts[n].event];
    }
  }

  /** What the coalescer held after the last commit, in terms of the jobs still waiting. */
  ghost predicate Chain<R>(held: seq<R>, jobs: seq<CommitJob<R>>, end: seq<R>)
    decreases |jobs|
  {
    if jobs == [] then held == end
    else
      && Appending(jobs[0].parts)
      && match jobs[0]
         case EmitJob(event, parts, after) =>
           Flatten(Segments(parts)) + after == held + [event] && Chain(after, jobs[1..], end)
         case FinishJob(parts) => Flatten(Segments(parts)) == held && Chain([], jobs[1..], end)
  }

  lemma {:induction false} ChainSnoc<R>(
    held: seq<R>, jobs: seq<CommitJob<R>>, mid: seq<R>, job: CommitJob<R>, end: seq<R>)
    requires Chain(held, jobs, mid) && Chain(mid, [job], end)
    ensures Chain(held, jobs + [job], end)
    decreases |jobs|
  {
    if jobs != [] {
      assert (jobs + [job])[1..] == jobs[1..] + [job];
      ChainSnoc(if jobs[0].EmitJob? then jobs[0].held else [], jobs[1..], mid, job, end);
    }
  }

  function Events<R>(commits: seq<Committed<R>>): (events: seq<R>) {
    seq(|commits|, i requires 0 <= i < |commits| => commits[i].event)
  }

  /** At every commit, the log so far plus what the coalescer held is everything committed so far. */
  ghost predicate HistoryOk<R>(log: seq<seq<R>>, commits: seq<Committed<R>>) {
    forall i :: 0 <= i < |commits| ==>
      && commits[i].cursor <= |log|
      && Flatten(log[..commits[i].cursor]) + commits[i].held == Events(commits)[..i + 1]
  }

  ghost predicate LogIsComplete<R>(s: State<R>) {
    && s.log.openSlot.None?
    && Chain(HeldNow(s), s.commitQueue, s.held)
    && Flatten(s.log.log) + HeldNow(s) == Events(s.commits)
    && HistoryOk(s.log.log, s.commits)
  }

  /** What a subscriber was given to replay, and what was held then, is everything committed until then. */
  ghost predicate JoinOk<R>(s: State<R>, id: nat)
    requires id in s.subs
  {
    var sub := s.subs[id];
    sub.joinCommit <= |s.commits| && Flatten(sub.joined) + sub.joinHeld == Events(s.commits)[..sub.joinCommit]
  }

  ghost predicate ContentInv<R>(s: State<R>) {
    LogIsComplete(s) && forall id :: id in s.subs ==> id in s.used && JoinOk(s, id)
  }

  lemma HistoryKept<R>(log: seq<seq<R>>, commits: seq<Committed<R>>, log': seq<seq<R>>)
    requires HistoryOk(log, commits) && log <= log'
    ensures HistoryOk(log', commits)
  {
    forall i | 0 <= i < |commits|
      ensures Flatten(log'[..commits[i].cursor]) + commits[i].held == Events(commits)[..i + 1]
    {
      assert log'[..commits[i].cursor] == log[..commits[i].cursor];
    }
  }

  lemma HistoryGrows<R>(log: seq<seq<R>>, commits: seq<Committed<R>>, c: Committed<R>)
    requires HistoryOk(log, commits) && c.cursor == |log|
    requires Flatten(log) + c.held == Events(commits) + [c.event]
    ensures HistoryOk(log, commits + [c]) && Events(commits + [c]) == Events(commits) + [c.event]
  {
    var all := commits + [c];
    assert Events(all) == Events(commits) + [c.event];
    forall i | 0 <= i < |all| ensures Flatten(log[..all[i].cursor]) + all[i].held == Events(all)[..i + 1] {
      if i < |commits| {
        assert Events(all)[..i + 1] == Events(commits)[..i + 1];
      } else {
        assert log[..|log|] == log && Events(all)[..i + 1] == Events(all);
      }
    }
  }

  lemma Rebracket<R>(a: seq<R>, b: seq<R>, c: seq<R>, d: seq<R>, e: R)
    requires b + c == d + [e]
    ensures a + b + c == a + d + [e]
  {
    assert a + b + c == a + (b + c);
    assert a + d + [e] == a + (d + [e]);
  }

  lemma EmitKeepsHistory<R>(
    log: seq<seq<R>>, commits: seq<Committed<R>>, before: seq<R>, event: R, segments: seq<seq<R>>, held: seq<R>)
    requires HistoryOk(log, commits) && Flatten(log) + before == Events(commits)
    requires Flatten(segments) + held == before + [event]
    ensures var c := Committed(event, |log + segments|, held);
            && HistoryOk(log + segments, commits + [c])
            && Flatten(log + segments) + held == Events(commits + [c])
  {
    FlattenConcat(log, segments);
    HistoryKept(log, commits, log + segments);
    Rebracket(Flatten(log), Flatten(segments), held, before, event);
    HistoryGrows(log + segments, commits, Committed(event, |log + segments|, held));
  }

  lemma EmitKeepsLogIsComplete<R>(s: State<R>)
    requires LogIsComplete(s) && s.commitQueue != [] && s.commitQueue[0].EmitJob? && !s.done
    ensures LogIsComplete(Do(s, CommitHead))
  {
    var job := s.commitQueue[0];
    AppendingCommit(s.log, job.parts);
    EmitKeepsHistory(s.log.log, s.commits, HeldNow(s), job.event, Segments(job.parts), job.held);
  }

  lemma FinishKeepsLogIsComplete<R>(s: State<R>)
    requires LogIsComplete(s) && s.commitQueue != [] && s.commitQueue[0].FinishJob?
    ensures LogIsComplete(Do(s, CommitHead))
  {
    var parts := s.commitQueue[0].parts;
    AppendingCommit(s.log, parts);
    FlattenConcat(s.log.log, Segments(parts));
    HistoryKept(s.log.log, s.commits, s.log.log + Segments(parts));
  }

  lemma DoKeepsLogIsComplete<R>(s: State<R>, step: Step<R>)
    requires LogIsComplete(s) && FinishIsLast(s) && Enabled(s, step) && Orderly(s, step)
    ensures LogIsComplete(Do(s, step))
  {
    match step
    case Feed(event, parts, held) => ChainSnoc(HeldNow(s), s.commitQueue, s.held, EmitJob(event, parts, held), held);
    case Flush(parts) => ChainSnoc(HeldNow(s), s.commitQueue, s.held, FinishJob(parts), []);
    case CommitHead =>
      if s.commitQueue[0].EmitJob? { EmitKeepsLogIsComplete(s); } else { FinishKeepsLogIsComplete(s); }
    case _ =>
  }

  lemma DoKeepsContentInv<R>(s: State<R>, step: Step<R>)
    requires ContentInv(s) && FinishIsLast(s) && Enabled(s, step) && Orderly(s, step)
    ensures ContentInv(Do(s, step))
  {
    DoKeepsLogIsComplete(s, step);
    forall id | id in Do(s, step).subs ensures JoinOk(Do(s, step), id) {
      if id in s.subs {
        assert JoinOk(s, id);
        DoKeepsJoin(s, step, id);
      } else {
        assert Events(s.commits)[..|s.commits|] == Events(s.commits);
      }
    }
  }

  lemma DoKeepsJoin<R>(s: State<R>, step: Step<R>, id: nat)
    requires Enabled(s, step) && id in s.subs && id in Do(s, step).subs && JoinOk(s, id)
    requires step.Subscribe? ==> step.id != id
    ensures JoinOk(Do(s, step), id)
  {
    CommitsOnlyGrow(s, step, s.subs[id].joinCommit);
  }

  lemma CommitsOnlyGrow<R>(s: State<R>, step: Step<R>, n: nat)
    requires Enabled(s, step) && n <= |s.commits|
    ensures n <= |Do(s, step).commits| && Events(Do(s, step).commits)[..n] == Events(s.commits)[..n]
  {
  }

  ghost predicate IsOrderlyRun<R>(trace: seq<State<R>>, steps: seq<Step<R>>) {
    && IsRun(trace, steps) && LogIsComplete(trace[0])
    && forall i :: 0 <= i < |steps| ==> Orderly(trace[i], steps[i])
  }

  lemma {:induction false} OrderlyRunKeepsContent<R>(trace: seq<State<R>>, steps: seq<Step<R>>, i: nat)
    requires IsOrderlyRun(trace, steps) && i < |trace|
    ensures ContentInv(trace[i])
  {
    if i > 0 {
      OrderlyRunKeepsContent(trace, steps, i - 1);
      RunKeepsInv(trace, steps, i - 1);
      DoKeepsContentInv(trace[i - 1], steps[i - 1]);
    }
  }

  /** Emits that produce one segment, held back until it is whole. */
  function SegmentHistory<R>(segment: seq<R>, below: nat): (commits: seq<Committed<R>>)
    ensures |commits| == |segment|
  {
    seq(|segment|, i requires 0 <= i < |segment| =>
      if i + 1 == |segment| then Committed(segment[i], below + 1, [])
      else Committed(segment[i], below, segment[..i + 1]))
  }

  function Stored<R>(log: seq<seq<R>>): (st: Log<R>) { LogState(log, None, true) }

  /** Every log is some history's log, so a run may start on any. */
  lemma {:induction false} EveryLogHasAHistory<R>(log: seq<seq<R>>) returns (commits: seq<Committed<R>>)
    ensures Initial(Loaded(Stored(log), commits)) && LogIsComplete(Loaded(Stored(log), commits))
    decreases |log|
  {
    if log == [] {
      commits := [];
    } else {
      var n := |log| - 1;
      var before := EveryLogHasAHistory(log[..n]);
      commits := before + SegmentHistory(log[n], n);
      SegmentExtends(log, before, n);
    }
  }

  lemma SegmentExtends<R>(log: seq<seq<R>>, before: seq<Committed<R>>, n: nat)
    requires |log| == n + 1 && LogIsComplete(Loaded(Stored(log[..n]), before))
    ensures LogIsComplete(Loaded(Stored(log), before + SegmentHistory(log[n], n)))
  {
    var all := before + SegmentHistory(log[n], n);
    HistoryKept(log[..n], before, log);
    SegmentHistoryOk(log, before, n);
    var s := Loaded(Stored(log), all);
    assert HeldNow(s) == [];
    assert Flatten(log) == Events(all);
  }

  lemma SegmentHistoryOk<R>(log: seq<seq<R>>, before: seq<Committed<R>>, n: nat)
    requires |log| == n + 1 && HistoryOk(log, before) && Flatten(log[..n]) == Events(before)
    ensures var all := before + SegmentHistory(log[n], n);
            HistoryOk(log, all) && Events(all) == Events(before) + log[n]
  {
    var segment, news := log[n], SegmentHistory(log[n], n);
    var all := before + news;
    assert Events(all) == Events(before) + segment;
    forall i | 0 <= i < |all|
      ensures all[i].cursor <= |log| && Flatten(log[..all[i].cursor]) + all[i].held == Events(all)[..i + 1]
    {
      if i < |before| {
        assert Events(all)[..i + 1] == Events(before)[..i + 1];
      } else {
        var k := i - |before|;
        assert all[i] == news[k] && Events(all)[..i + 1] == Events(before) + segment[..k + 1];
        if k + 1 == |segment| { assert segment[..k + 1] == segment && log[..n + 1] == log; }
      }
    }
  }

  /** Raw events contained in a sequence of deliveries. */
  function RawOf<R>(items: seq<Item<R>>): (raw: seq<R>) {
    if items == [] then []
    else RawOf(items[..|items| - 1]) + (if items[|items| - 1].Sentinel? then [] else items[|items| - 1].content)
  }

  lemma {:induction false} RawOfConcat<R>(a: seq<Item<R>>, b: seq<Item<R>>)
    ensures RawOf(a + b) == RawOf(a) + RawOf(b)
  {
    if b == [] {
      assert a + b == a;
    } else {
      assert (a + b)[..|a + b| - 1] == a + b[..|b| - 1];
      RawOfConcat(a, b[..|b| - 1]);
    }
  }

  lemma {:induction false} RawOfReplays<R>(log: seq<seq<R>>, from: nat)
    requires from <= |log|
    ensures RawOf(Replays(log, from)) == Flatten(log[from..])
    decreases |log|
  {
    if from < |log| {
      var n := |log| - 1;
      RawOfReplays(log[..n], from);
      assert Replays(log, from)[..|log| - from - 1] == Replays(log[..n], from);
      assert log[from..][..|log| - from - 1] == log[..n][from..];
    }
  }

  lemma {:induction false} RawOfLives<R>(commits: seq<Committed<R>>, from: nat)
    requires from <= |commits|
    ensures RawOf(Lives(commits, from)) == Events(commits)[from..]
    decreases |commits|
  {
    if from < |commits| {
      var n := |commits| - 1;
      RawOfLives(commits[..n], from);
      assert Lives(commits, from)[..|commits| - from - 1] == Lives(commits[..n], from);
      assert Events(commits)[from..] == Events(commits[..n])[from..] + [commits[n].event];
    }
  }

  lemma RawOfOwed<R>(commits: seq<Committed<R>>, done: bool, sub: Sub<R>)
    requires sub.from <= |sub.joined| && sub.joinCommit <= |commits| && sub.live
    ensures RawOf(Owed(commits, done, sub)) == Flatten(sub.joined[sub.from..]) + Events(commits)[sub.joinCommit..]
  {
    var lives := Lives(commits, sub.joinCommit);
    var end: seq<Item<R>> := if done then [Sentinel] else [];
    RawOfConcat(Replays(sub.joined, sub.from), lives + end);
    RawOfConcat(lives, end);
    RawOfReplays(sub.joined, sub.from);
    RawOfLives(commits, sub.joinCommit);
    assert RawOf(end) == [] by { if done { assert end[..0] == []; } }
  }

  /** With any order-preserving coalescer: a subscriber that replays from the start is owed every event
      of the run except exactly those the coalescer held at the moment of joining. */
  lemma JoinMissesExactlyWhatWasHeld<R>(trace: seq<State<R>>, steps: seq<Step<R>>, i: nat, id: nat)
    requires IsOrderlyRun(trace, steps) && i < |trace| && id in trace[i].subs
    requires trace[i].subs[id].live && trace[i].subs[id].from == 0
    ensures trace[i].subs[id].joinCommit <= |trace[i].commits|
    ensures var s := trace[i];
            var sub := s.subs[id];
            var seen := Flatten(sub.joined);
            var news := Events(s.commits)[sub.joinCommit..];
            && RawOf(Owed(s.commits, s.done, sub)) == seen + news
            && Events(s.commits) == seen + sub.joinHeld + news
  {
    OrderlyRunKeepsContent(trace, steps, i);
    assert JoinOk(trace[i], id);
    OwedFromStart(trace[i].commits, trace[i].done, trace[i].subs[id]);
  }

  lemma OwedFromStart<R>(commits: seq<Committed<R>>, done: bool, sub: Sub<R>)
    requires sub.live && sub.from == 0 && sub.joinCommit <= |commits|
    requires Flatten(sub.joined) + sub.joinHeld == Events(commits)[..sub.joinCommit]
    ensures var seen, news := Flatten(sub.joined), Events(commits)[sub.joinCommit..];
            RawOf(Owed(commits, done, sub)) == seen + news && Events(commits) == seen + sub.joinHeld + news
  {
    RawOfOwed(commits, done, sub);
    assert sub.joined[0..] == sub.joined;
    assert Events(commits) == Events(commits)[..sub.joinCommit] + Events(commits)[sub.joinCommit..];
  }

  /** Reconnecting with the cursor of live event `k` leaves no gap: the log from there on is what the coalescer held
      just after event `k` - which the client has already seen - and then the later events. */
  lemma ReconnectRepeatsExactlyWhatWasHeld<R>(trace: seq<State<R>>, steps: seq<Step<R>>, i: nat, k: nat)
    requires IsOrderlyRun(trace, steps) && i < |trace| && k < |trace[i].commits|
    ensures var s := trace[i];
            && s.commits[k].cursor <= |s.log.log|
            && Flatten(s.log.log[s.commits[k].cursor..]) + HeldNow(s) == s.commits[k].held + Events(s.commits)[k + 1..]
  {
    OrderlyRunKeepsContent(trace, steps, i);
    BehindCursor(trace[i].log.log, trace[i].commits, HeldNow(trace[i]), k);
  }

  lemma BehindCursor<R>(log: seq<seq<R>>, commits: seq<Committed<R>>, heldNow: seq<R>, i: nat)
    requires HistoryOk(log, commits) && i < |commits| && Flatten(log) + heldNow == Events(commits)
    ensures Flatten(log[commits[i].cursor..]) + heldNow == commits[i].held + Events(commits)[i + 1..]
  {
    var c := commits[i].cursor;
    var below := Flatten(log[..c]);
    assert below + commits[i].held == Events(commits)[..i + 1];
    FlattenConcat(log[..c], log[c..]);
    assert log == log[..c] + log[c..];
    SamePrefix(below, Flatten(log[c..]), heldNow, commits[i].held, Events(commits)[i + 1..], Events(commits), i + 1);
  }

  lemma SamePrefix<R>(p: seq<R>, a: seq<R>, b: seq<R>, c: seq<R>, d: seq<R>, all: seq<R>, k: nat)
    requires k <= |all| && p + a + b == all && p + c == all[..k] && d == all[k..]
    ensures a + b == c + d
  {
    assert p + (a + b) == all && p + (c + d) == all;
    assert a + b == all[|p|..];
    assert c + d == all[|p|..];
  }

  // ----- A run that misses an event ------------------------------------------------------

  lemma RunSnoc<R>(trace: seq<State<R>>, steps: seq<Step<R>>, step: Step<R>)
    requires IsOrderlyRun(trace, steps) && Enabled(trace[|steps|], step) && Orderly(trace[|steps|], step)
    ensures IsOrderlyRun(trace + [Do(trace[|steps|], step)], steps + [step])
  {
  }

  lemma JoinWhileHeld() returns (trace: seq<State<int>>, steps: seq<Step<int>>)
    ensures IsOrderlyRun(trace, steps) && |trace| == 4
    ensures trace[3] == State([1], [], false, false, Stored([]), [Committed(1, 0, [1])], trace[3].writeQueue,
                              map[0 := Sub(0, [], 1, [1], true, [], [], [])], {0}, {0})
  {
    trace, steps := [Loaded(Stored([]), [])], [];
    RunSnoc(trace, steps, Feed(1, [], [1]));
    trace, steps := trace + [Do(trace[0], Feed(1, [], [1]))], steps + [Feed(1, [], [1])];
    RunSnoc(trace, steps, CommitHead);
    trace, steps := trace + [Do(trace[1], CommitHead)], steps + [CommitHead];
    RunSnoc(trace, steps, Subscribe(0, 0));
    trace, steps := trace + [Do(trace[2], Subscribe(0, 0))], steps + [Subscribe(0, 0)];
  }

  lemma SecondEventArrives() returns (trace: seq<State<int>>, steps: seq<Step<int>>)
    ensures IsOrderlyRun(trace, steps) && |trace| == 6
    ensures trace[5].subs == map[0 := Sub(0, [], 1, [1], true, [], [], [])] && !trace[5].done
    ensures trace[5].commits == [Committed(1, 0, [1]), Committed(2, 1, [])]
  {
    trace, steps := JoinWhileHeld();
    FlattenOne([1, 2]);
    var last := Feed(2, Appends([[1, 2]]), []);
    RunSnoc(trace, steps, last);
    trace, steps := trace + [Do(trace[3], last)], steps + [last];
    AppendingCommit(Stored([]), Appends([[1, 2]]));
    RunSnoc(trace, steps, CommitHead);
    trace, steps := trace + [Do(trace[4], CommitHead)], steps + [CommitHead];
  }

  /** The first event was held when the subscriber joined, and comes later in one segment with the second, of which
      the subscriber is sent only its own event. */
  lemma HeldEventIsMissed() returns (trace: seq<State<int>>, steps: seq<Step<int>>)
    ensures IsOrderlyRun(trace, steps) && |trace| == 6 && 0 in trace[5].subs
    ensures trace[5].subs[0].live && trace[5].subs[0].from == 0 && trace[5].subs[0].joinCommit <= |trace[5].commits|
    ensures Events(trace[5].commits) == [1, 2] && RawOf(Owed(trace[5].commits, false, trace[5].subs[0])) == [2]
  {
    trace, steps := SecondEventArrives();
    JoinMissesExactlyWhatWasHeld(trace, steps, 5, 0);
    assert Events(trace[5].commits) == [1, 2];
  }

  // ----- The default coalescer --------------------------------------------------

  /** The passthrough coalescer: every event is its own segment, and flushing emits nothing. */
  ghost predicate Passthrough<R>(steps: seq<Step<R>>) {
    forall i :: 0 <= i < |steps| ==>
      && (steps[i].Feed? ==> steps[i].parts == [LogWrite([steps[i].event], false)])
      && (steps[i].Flush? ==> steps[i].parts == [])
  }

  ghost predicate PassInv<R>(s: State<R>) {
    && s.log.openSlot.None?
    && (forall k :: 0 <= k < |s.commitQueue| ==>
          match s.commitQueue[k]
          case EmitJob(event, parts, _) => parts == [LogWrite([event], false)]
          case FinishJob(parts) => parts == [])
    && OneEventEach(s.log.log, s.commits)
    && (forall id :: id in s.subs ==>
          && s.subs[id].joined <= s.log.log && s.subs[id].joinCommit == |s.subs[id].joined|
          && (!s.subs[id].live ==> s.done && s.subs[id].joined == s.log.log))
  }

  ghost predicate OneEventEach<R>(log: seq<seq<R>>, commits: seq<Committed<R>>) {
    && |log| == |commits|
    && forall k :: 0 <= k < |commits| ==> log[k] == [commits[k].event] && commits[k].cursor == k + 1
  }

  lemma CommitKeepsPassInv<R>(s: State<R>)
    requires PassInv(s) && s.commitQueue != []
    requires s.done ==> s.commitQueue[0].FinishJob?
    ensures PassInv(Do(s, CommitHead))
  {
    var s' := Do(s, CommitHead);
    var parts := s.commitQueue[0].parts;
    AppendingCommit(s.log, parts);
    assert forall k :: 0 <= k < |s'.commitQueue| ==> s'.commitQueue[k] == s.commitQueue[k + 1];
    if s.commitQueue[0].FinishJob? {
      assert s'.log.log == s.log.log;
    } else {
      assert Segments(parts) == [[s.commitQueue[0].event]];
    }
  }

  lemma SubscribeKeepsPassInv<R>(s: State<R>, id: nat, from: nat)
    requires PassInv(s) && Enabled(s, Subscribe(id, from))
    ensures PassInv(Do(s, Subscribe(id, from)))
  {
  }

  lemma DoKeepsPassInv<R>(s: State<R>, step: Step<R>)
    requires PassInv(s) && FinishIsLast(s) && Enabled(s, step) && Passthrough([step])
    ensures PassInv(Do(s, step))
  {
    assert [step][0] == step;
    if step.CommitHead? { CommitKeepsPassInv(s); }
    else if step.Subscribe? { SubscribeKeepsPassInv(s, step.id, step.from); }
  }

  lemma {:induction false} PassthroughKeepsPassInv<R>(trace: seq<State<R>>, steps: seq<Step<R>>, i: nat)
    requires IsRun(trace, steps) && Passthrough(steps) && PassInv(trace[0]) && i < |trace|
    ensures PassInv(trace[i])
  {
    if i > 0 {
      PassthroughKeepsPassInv(trace, steps, i - 1);
      RunKeepsInv(trace, steps, i - 1);
      assert steps[i - 1] in steps;
      DoKeepsPassInv(trace[i - 1], steps[i - 1]);
    }
  }

  /** A run that starts on a passthrough log of these events, none for a new run. */
  function Preloaded<R>(earlier: seq<R>): (s: State<R>)
    ensures Initial(s) && PassInv(s)
  {
    Loaded(Stored(seq(|earlier|, i requires 0 <= i < |earlier| => [earlier[i]])),
           seq(|earlier|, i requires 0 <= i < |earlier| => Committed(earlier[i], i + 1, [])))
  }

  /** What a subscriber from cursor `from` must get: each event once, in order, with cursors counting up. */
  function EventsFrom<R>(events: seq<R>, from: nat, replayedBelow: nat): (items: seq<Item<R>>)
    requires from <= |events|
  {
    seq(|events| - from, i requires 0 <= i < |events| - from =>
      Deliver([events[from + i]], from + i + 1, from + i < replayedBelow))
  }

  /** What a subscriber of a passthrough run must get in all: a cursor beyond the log counts as its end. */
  function PassthroughOwed<R>(commits: seq<Committed<R>>, done: bool, sub: Sub<R>): (items: seq<Item<R>>)
    requires |sub.joined| <= |commits|
  {
    var joined := |sub.joined|;
    EventsFrom(Events(commits), if sub.from < joined then sub.from else joined, joined) +
    (if done && sub.live then [Sentinel] else [])
  }

  lemma PassthroughOwes<R>(log: seq<seq<R>>, commits: seq<Committed<R>>, done: bool, sub: Sub<R>)
    requires OneEventEach(log, commits) && sub.joined <= log && sub.joinCommit == |sub.joined|
    requires !sub.live ==> sub.joined == log
    ensures Owed(commits, done, sub) == PassthroughOwed(commits, done, sub)
  {
    var joined := |sub.joined|;
    var from := if sub.from < joined then sub.from else joined;
    var replays := Replays(sub.joined, sub.from);
    var lives := if sub.live then Lives(commits, sub.joinCommit) else [];
    var expected := EventsFrom(Events(commits), from, joined);
    assert |expected| == |replays| + |lives|;
    assert forall i :: 0 <= i < |replays| ==> expected[i] == replays[i];
    assert forall i :: 0 <= i < |lives| ==> expected[|replays| + i] == lives[i];
    assert expected == replays + lives;
  }

  /** Exactly once: with the passthrough coalescer, in every interleaving, on a new run or on an earlier process's
      events, a subscriber from cursor c ends up with events[c..], replay first and then live, and the sentinel
      after the last of them. */
  lemma ExactlyOnceHandOff<R>(trace: seq<State<R>>, steps: seq<Step<R>>, earlier: seq<R>, i: nat, id: nat)
    requires IsRun(trace, steps) && trace[0] == Preloaded(earlier) && Passthrough(steps)
    requires i < |trace| && id in trace[i].subs
    ensures |trace[i].subs[id].joined| <= |trace[i].commits|
    ensures ReceivedInOrder(trace[i], id, PassthroughOwed(trace[i].commits, trace[i].done, trace[i].subs[id]))
  {
    ExactHandOff(trace, steps, i, id);
    PassthroughKeepsPassInv(trace, steps, i);
    PassthroughOwes(trace[i].log.log, trace[i].commits, trace[i].done, trace[i].subs[id]);
  }
}
