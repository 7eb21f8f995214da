// Turning a provider's chunk stream into events and an assembled reply, with whole-step retry
// (src/flops_agent/engine/stream.py, src/flops_agent/engine/runner.py).
module Stream {
  import opened Prelude
  import opened Messages

  /** In a tool chunk an empty string stands for a missing id, name or argument fragment. */
  datatype Chunk =
    | TextChunk(text: string)
    | ReasoningChunk(text: string)
    | ToolChunk(index: int, id: string, name: string, arguments: string)
    | FinishChunk

  datatype Event =
    | TextDelta(text: string)
    | ReasoningDelta(text: string)
    | ToolCallStarted(index: int, name: string)
    | ToolCallArgsDelta(index: int, arguments: string)
    | LLMStreamRetrying(attempt: nat)

  /** Assembled state: one call per index, and the indices already announced. */
  datatype Acc = Acc(text: string, reasoning: string, calls: map<int, Call>, named: set<int>)

  const NOTHING := Acc("", "", map[], {})

  // ----- The accumulator ------------------------------------------------------------

  function Slot(acc: Acc, index: int): (call: Call) {
    if index in acc.calls then acc.calls[index] else Call("", "", "")
  }

  function Absorbed(acc: Acc, chunk: Chunk): (r: Acc) {
    match chunk
    case TextChunk(text) => acc.(text := acc.text + text)
    case ReasoningChunk(text) => acc.(reasoning := acc.reasoning + text)
    case ToolChunk(i, id, name, arguments) =>
      var was := Slot(acc, i);
      acc.(calls := acc.calls[i := Call(if id == "" then was.id else id, was.name + name, was.arguments + arguments)],
           named := if name == "" then acc.named else acc.named + {i})
    case FinishChunk => acc
  }

  function Emitted(acc: Acc, chunk: Chunk): (events: seq<Event>) {
    match chunk
    case TextChunk(text) => [TextDelta(text)]
    case ReasoningChunk(text) => [ReasoningDelta(text)]
    case ToolChunk(i, _, name, arguments) =>
      (if name == "" || i in acc.named then [] else [ToolCallStarted(i, Slot(acc, i).name + name)])
      + (if arguments == "" then [] else [ToolCallArgsDelta(i, arguments)])
    case FinishChunk => []
  }

  function FeedAll(chunks: seq<Chunk>): (acc: Acc) {
    if chunks == [] then NOTHING else Absorbed(FeedAll(chunks[..|chunks| - 1]), chunks[|chunks| - 1])
  }

  function EventsOf(chunks: seq<Chunk>): (events: seq<Event>) {
    if chunks == [] then []
    else
      var init := chunks[..|chunks| - 1];
      EventsOf(init) + Emitted(FeedAll(init), chunks[|chunks| - 1])
  }

  predicate Increasing(s: seq<int>) { forall i, j :: 0 <= i < j < |s| ==> s[i] < s[j] }

  /** `order` lists the given indices once each, from the smallest up. */
  ghost predicate Ordered(order: seq<int>, keys: set<int>) {
    Increasing(order) && forall i :: i in order <==> i in keys
  }

  ghost predicate CallsInOrder(calls: seq<Call>, slots: map<int, Call>, order: seq<int>) {
    && Ordered(order, slots.Keys) && |calls| == |order|
    && forall k :: 0 <= k < |order| ==> order[k] in slots && calls[k] == slots[order[k]]
  }

  ghost predicate CallsSorted(calls: seq<Call>, slots: map<int, Call>) {
    exists order :: CallsInOrder(calls, slots, order)
  }

  class StreamAccumulator {
    var text: string
    var reasoning: string
    var calls: map<int, Call>
    var named: set<int>

    function State(): (acc: Acc)
      reads this
    {
      Acc(text, reasoning, calls, named)
    }

    constructor ()
      ensures State() == NOTHING
    {
      text, reasoning, calls, named := "", "", map[], {};
    }

    method Feed(chunk: Chunk) returns (events: seq<Event>)
      modifies this
      ensures State() == Absorbed(old(State()), chunk)
      ensures events == Emitted(old(State()), chunk)
    {
      events := [];
      match chunk {
        case TextChunk(t) =>
          text := text + t;
          events := [TextDelta(t)];
        case ReasoningChunk(t) =>
          reasoning := reasoning + t;
          events := [ReasoningDelta(t)];
        case ToolChunk(i, id, name, arguments) =>
          var slot := Slot(State(), i);
          assert slot.name + "" == slot.name && slot.arguments + "" == slot.arguments;
          if id != "" { slot := slot.(id := id); }
          if name != "" {
            slot := slot.(name := slot.name + name);
            if i !in named {
              named := named + {i};
              events := [ToolCallStarted(i, slot.name)];
            }
          }
          if arguments != "" {
            slot := slot.(arguments := slot.arguments + arguments);
            events := events + [ToolCallArgsDelta(i, arguments)];
          }
          calls := calls[i := slot];
        case FinishChunk =>
      }
    }

    /** The assembled calls, one per index, by increasing index. */
    method ToolCalls() returns (r: seq<Call>)
      ensures CallsSorted(r, calls)
    {
      r := [];
      ghost var order: seq<int> := [];
      var rest := calls.Keys;
      while rest != {}
        invariant rest <= calls.Keys && forall i :: i in order <==> i in calls && i !in rest
        invariant Increasing(order) && |r| == |order|
        invariant forall k, i :: 0 <= k < |order| && i in rest ==> order[k] < i
        invariant forall k :: 0 <= k < |order| ==> order[k] in calls && r[k] == calls[order[k]]
        decreases |rest|
      {
        var least := Least(rest);
        r := r + [calls[least]];
        order := order + [least];
        rest := rest - {least};
      }
      assert CallsInOrder(r, calls, order);
    }
  }

  lemma NotEmpty(s: set<int>)
    requires s != {}
    ensures exists i :: i in s
  {
    if !(exists i :: i in s) { assert false; }
  }

  method Least(s: set<int>) returns (m: int)
    requires s != {}
    ensures m in s && forall i :: i in s ==> m <= i
  {
    NotEmpty(s);
    m :| m in s;
    var rest := s - {m};
    while rest != {}
      invariant m in s && rest <= s
      invariant forall i :: i in s && i !in rest ==> m <= i
      decreases |rest|
    {
      NotEmpty(rest);
      var i :| i in rest;
      if i < m { m := i; }
      rest := rest - {i};
    }
  }

  lemma {:induction false} OrderIsUnique(a: seq<int>, b: seq<int>, keys: set<int>)
    requires Ordered(a, keys) && Ordered(b, keys)
    ensures a == b
    decreases |a|
  {
    EmptyOrder(a, b, keys);
    if a != [] {
      var x, y := a[|a| - 1], b[|b| - 1];
      LastIsLargest(a, keys, y);
      LastIsLargest(b, keys, x);
      OrderIsUnique(a[..|a| - 1], b[..|b| - 1], keys - {x});
      assert a == a[..|a| - 1] + [x] && b == b[..|b| - 1] + [y];
    }
  }

  /** The order is the only one there is, so the committed calls are determined by what was assembled. */
  lemma SortedCallsAreUnique(a: seq<Call>, b: seq<Call>, slots: map<int, Call>)
    requires CallsSorted(a, slots) && CallsSorted(b, slots)
    ensures a == b
  {
    var x :| CallsInOrder(a, slots, x);
    var y :| CallsInOrder(b, slots, y);
    OrderIsUnique(x, y, slots.Keys);
  }

  lemma EmptyOrder(a: seq<int>, b: seq<int>, keys: set<int>)
    requires Ordered(a, keys) && Ordered(b, keys)
    ensures a == [] <==> b == []
  {
    if a != [] { assert a[0] in a; assert a[0] in b; }
    if b != [] { assert b[0] in b; assert b[0] in a; }
  }

  lemma LastIsLargest(a: seq<int>, keys: set<int>, i: int)
    requires Ordered(a, keys) && a != []
    ensures a[|a| - 1] in keys && (i in keys ==> i <= a[|a| - 1])
  {
    assert a[|a| - 1] in a;
    if i in keys {
      assert i in a;
      var k :| 0 <= k < |a| && a[k] == i;
    }
  }

  // ----- What a stream says, chunk boundaries aside ----------------------------------

  function TextOf(chunks: seq<Chunk>): (r: string) {
    if chunks == [] then ""
    else
      var last := chunks[|chunks| - 1];
      TextOf(chunks[..|chunks| - 1]) + if last.TextChunk? then last.text else ""
  }

  function ReasoningOf(chunks: seq<Chunk>): (r: string) {
    if chunks == [] then ""
    else
      var last := chunks[|chunks| - 1];
      ReasoningOf(chunks[..|chunks| - 1]) + if last.ReasoningChunk? then last.text else ""
  }

  /** All name fragments given for an index. */
  function NamesOf(chunks: seq<Chunk>, i: int): (r: string) {
    if chunks == [] then ""
    else
      var last := chunks[|chunks| - 1];
      NamesOf(chunks[..|chunks| - 1], i) + if last.ToolChunk? && last.index == i then last.name else ""
  }

  function ArgumentsOf(chunks: seq<Chunk>, i: int): (r: string) {
    if chunks == [] then ""
    else
      var last := chunks[|chunks| - 1];
      ArgumentsOf(chunks[..|chunks| - 1], i) + if last.ToolChunk? && last.index == i then last.arguments else ""
  }

  /** The last id given for an index. */
  function IdOf(chunks: seq<Chunk>, i: int): (r: string) {
    if chunks == [] then ""
    else
      var last := chunks[|chunks| - 1];
      if last.ToolChunk? && last.index == i && last.id != "" then last.id else IdOf(chunks[..|chunks| - 1], i)
  }

  /** The first name fragment given for an index. */
  function FirstNameOf(chunks: seq<Chunk>, i: int): (r: string) {
    if chunks == [] then ""
    else
      var before := FirstNameOf(chunks[..|chunks| - 1], i);
      var last := chunks[|chunks| - 1];
      if before == "" && last.ToolChunk? && last.index == i then last.name else before
  }

  predicate Mentioned(chunks: seq<Chunk>, i: int) {
    chunks != [] &&
    (var last := chunks[|chunks| - 1];
     (last.ToolChunk? && last.index == i) || Mentioned(chunks[..|chunks| - 1], i))
  }

  function CallOf(chunks: seq<Chunk>, i: int): (r: Call) {
    Call(IdOf(chunks, i), NamesOf(chunks, i), ArgumentsOf(chunks, i))
  }

  lemma {:induction false} TextAsSaid(chunks: seq<Chunk>)
    ensures FeedAll(chunks).text == TextOf(chunks) && FeedAll(chunks).reasoning == ReasoningOf(chunks)
    decreases |chunks|
  {
    if chunks != [] { TextAsSaid(chunks[..|chunks| - 1]); }
  }

  /** What is assembled for an index is the concatenation of its fragments with its last id, whatever the chunk
      boundaries and whatever the order in which indices alternate. */
  lemma {:induction false} AssembledAsSaid(chunks: seq<Chunk>, i: int)
    ensures Slot(FeedAll(chunks), i) == CallOf(chunks, i)
    ensures i in FeedAll(chunks).calls <==> Mentioned(chunks, i)
    ensures i in FeedAll(chunks).named <==> NamesOf(chunks, i) != ""
    decreases |chunks|
  {
    if chunks != [] { AssembledAsSaid(chunks[..|chunks| - 1], i); }
  }

  /** Two streams that say the same are committed as the same reply. */
  lemma ChunkingDoesNotMatter(a: seq<Chunk>, b: seq<Chunk>)
    requires TextOf(a) == TextOf(b) && ReasoningOf(a) == ReasoningOf(b)
    requires forall i :: Mentioned(a, i) == Mentioned(b, i) && CallOf(a, i) == CallOf(b, i)
    ensures FeedAll(a) == FeedAll(b)
  {
    var x, y := FeedAll(a), FeedAll(b);
    TextAsSaid(a);
    TextAsSaid(b);
    forall i
      ensures i in x.calls <==> i in y.calls
      ensures i in x.named <==> i in y.named
      ensures i in x.calls ==> x.calls[i] == y.calls[i]
    {
      AssembledAsSaid(a, i);
      AssembledAsSaid(b, i);
      assert Mentioned(a, i) == Mentioned(b, i) && CallOf(a, i) == CallOf(b, i);
    }
    assert x.calls == y.calls;
  }

  // ----- What a client makes of the events -------------------------------------------

  /** A client's copy: the deltas since the last retry, and every name each index was announced with. */
  datatype Client = Client(text: string, reasoning: string, arguments: map<int, string>, started: map<int, seq<string>>)

  const BLANK := Client("", "", map[], map[])

  function Announced(c: Client, i: int, name: string): (r: map<int, seq<string>>) {
    c.started[i := (if i in c.started then c.started[i] else []) + [name]]
  }

  function See(c: Client, e: Event): (r: Client) {
    match e
    case TextDelta(text) => c.(text := c.text + text)
    case ReasoningDelta(text) => c.(reasoning := c.reasoning + text)
    case ToolCallStarted(i, name) => c.(started := Announced(c, i, name))
    case ToolCallArgsDelta(i, arguments) =>
      c.(arguments := c.arguments[i := (if i in c.arguments then c.arguments[i] else "") + arguments])
    case LLMStreamRetrying(_) => BLANK
  }

  function SeeAll(c: Client, events: seq<Event>): (r: Client)
    decreases |events|
  {
    if events == [] then c else SeeAll(See(c, events[0]), events[1..])
  }

  lemma {:induction false} SeeConcat(c: Client, a: seq<Event>, b: seq<Event>)
    ensures SeeAll(c, a + b) == SeeAll(SeeAll(c, a), b)
    decreases |a|
  {
    if a == [] {
      assert a + b == b;
    } else {
      assert (a + b)[1..] == a[1..] + b;
      SeeConcat(See(c, a[0]), a[1..], b);
    }
  }

  function ClientOf(chunks: seq<Chunk>): (c: Client) { SeeAll(BLANK, EventsOf(chunks)) }

  lemma ClientSnoc(chunks: seq<Chunk>)
    requires chunks != []
    ensures var init := chunks[..|chunks| - 1];
            ClientOf(chunks) == SeeAll(ClientOf(init), Emitted(FeedAll(init), chunks[|chunks| - 1]))
  {
    var init := chunks[..|chunks| - 1];
    SeeConcat(BLANK, EventsOf(init), Emitted(FeedAll(init), chunks[|chunks| - 1]));
  }

  lemma SeeTool(c: Client, acc: Acc, i: int, id: string, name: string, arguments: string)
    ensures var r := SeeAll(c, Emitted(acc, ToolChunk(i, id, name, arguments)));
            && r.text == c.text && r.reasoning == c.reasoning
            && r.started == (if name == "" || i in acc.named then c.started
                             else Announced(c, i, Slot(acc, i).name + name))
            && r.arguments == (if arguments == "" then c.arguments
                               else c.arguments[i := (if i in c.arguments then c.arguments[i] else "") + arguments])
  {
    var start := if name == "" || i in acc.named then [] else [ToolCallStarted(i, Slot(acc, i).name + name)];
    var delta := if arguments == "" then [] else [ToolCallArgsDelta(i, arguments)];
    SeeConcat(c, start, delta);
    assert start != [] ==> start[1..] == [];
    assert delta != [] ==> delta[1..] == [];
  }

  /** Folding the deltas reproduces the reply being assembled. */
  ghost predicate Reproduces(c: Client, acc: Acc) {
    && c.text == acc.text && c.reasoning == acc.reasoning
    && (forall i :: i in c.arguments <==> i in acc.calls && acc.calls[i].arguments != "")
    && (forall i :: i in c.arguments ==> c.arguments[i] == acc.calls[i].arguments)
  }

  lemma {:induction false} DeltasReproduceReply(chunks: seq<Chunk>)
    ensures Reproduces(ClientOf(chunks), FeedAll(chunks))
    decreases |chunks|
  {
    if chunks != [] {
      var init := chunks[..|chunks| - 1];
      DeltasReproduceReply(init);
      ClientSnoc(chunks);
      match chunks[|chunks| - 1]
      case ToolChunk(i, id, name, arguments) => SeeTool(ClientOf(init), FeedAll(init), i, id, name, arguments);
      case _ =>
    }
  }

  lemma SeeStarted(c: Client, acc: Acc, chunk: Chunk, i: int)
    ensures var r := SeeAll(c, Emitted(acc, chunk));
            r.started == (if chunk.ToolChunk? && chunk.name != "" && chunk.index !in acc.named
                          then Announced(c, chunk.index, Slot(acc, chunk.index).name + chunk.name)
                          else c.started)
  {
    match chunk
    case ToolChunk(j, id, name, arguments) => SeeTool(c, acc, j, id, name, arguments);
    case _ =>
  }

  /** A call is announced before the first of its arguments that come with its name. */
  lemma AnnouncedFirst(acc: Acc, chunk: Chunk)
    ensures var events := Emitted(acc, chunk);
            |events| <= 2 && (|events| == 2 ==> events[0].ToolCallStarted? && events[1].ToolCallArgsDelta?)
  {
  }

  lemma {:induction false} FirstNameIsAName(chunks: seq<Chunk>, i: int)
    ensures FirstNameOf(chunks, i) == "" <==> NamesOf(chunks, i) == ""
    decreases |chunks|
  {
    if chunks != [] { FirstNameIsAName(chunks[..|chunks| - 1], i); }
  }

  /** Every call is announced at most once, when its first name fragment arrives and with that fragment only. */
  lemma {:induction false} StartedOnceWithFirstName(chunks: seq<Chunk>, i: int)
    ensures i in ClientOf(chunks).started <==> NamesOf(chunks, i) != ""
    ensures i in ClientOf(chunks).started ==> ClientOf(chunks).started[i] == [FirstNameOf(chunks, i)]
    decreases |chunks|
  {
    if chunks != [] {
      var init := chunks[..|chunks| - 1];
      var last := chunks[|chunks| - 1];
      StartedOnceWithFirstName(init, i);
      ClientSnoc(chunks);
      SeeStarted(ClientOf(init), FeedAll(init), last, i);
      AssembledAsSaid(init, i);
      FirstNameIsAName(init, i);
      if last.ToolChunk? && last.index == i && last.name != "" && NamesOf(init, i) == "" {
        assert ClientOf(chunks).started[i] == [] + ["" + last.name];
        assert "" + last.name == last.name;
      }
    }
  }

  predicate HasName(chunk: Chunk, i: int) { chunk.ToolChunk? && chunk.index == i && chunk.name != "" }

  /** How many chunks bring a piece of the name for an index. */
  function NameFragments(chunks: seq<Chunk>, i: int): (n: nat) {
    if chunks == [] then 0
    else NameFragments(chunks[..|chunks| - 1], i) + if HasName(chunks[|chunks| - 1], i) then 1 else 0
  }

  lemma {:induction false} MoreFragmentsMoreName(chunks: seq<Chunk>, i: int)
    ensures NameFragments(chunks, i) == 0 <==> NamesOf(chunks, i) == ""
    ensures NameFragments(chunks, i) == 1 ==> FirstNameOf(chunks, i) == NamesOf(chunks, i)
    ensures NameFragments(chunks, i) > 1 ==> |FirstNameOf(chunks, i)| < |NamesOf(chunks, i)|
    decreases |chunks|
  {
    if chunks != [] {
      var init := chunks[..|chunks| - 1];
      MoreFragmentsMoreName(init, i);
      FirstNameIsAName(init, i);
    }
  }

  /** The announced name is the committed one iff the name came in one fragment. */
  lemma AnnouncedNameIsFinalIff(chunks: seq<Chunk>, i: int)
    requires NamesOf(chunks, i) != ""
    ensures i in ClientOf(chunks).started
    ensures ClientOf(chunks).started[i] == [Slot(FeedAll(chunks), i).name] <==> NameFragments(chunks, i) == 1
  {
    StartedOnceWithFirstName(chunks, i);
    AssembledAsSaid(chunks, i);
    MoreFragmentsMoreName(chunks, i);
  }

  /** A name in two fragments: the client is told "re", the history gets "read". */
  lemma SplitNameIsAnnouncedShort() returns (chunks: seq<Chunk>)
    ensures |chunks| == 2 && NameFragments(chunks, 0) == 2
    ensures 0 in ClientOf(chunks).started && ClientOf(chunks).started[0] == ["re"]
    ensures Slot(FeedAll(chunks), 0).name == "read"
  {
    chunks := [ToolChunk(0, "a", "re", ""), ToolChunk(0, "", "ad", "{}")];
    assert chunks[..1] == [chunks[0]] && chunks[..1][..0] == [];
    assert "" + "re" == "re" && "re" + "ad" == "read";
    StartedOnceWithFirstName(chunks, 0);
    AssembledAsSaid(chunks, 0);
  }

  // ----- Retrying the whole step ------------------------------------------------------

  /** How one attempt's stream ended, with the chunks fed until then. `Broke` carries whether its error counts as
      transient, and whether a stop had been requested by the end of the back-off. */
  datatype Attempt =
    | Finished(chunks: seq<Chunk>)
    | StoppedAt(chunks: seq<Chunk>)
    | Broke(chunks: seq<Chunk>, transient: bool, stopWaiting: bool)

  /** `backoffs`: how many waiting times are configured. */
  datatype RetryPolicy = NoRetry | RetryPolicy(maxAttempts: int, backoffs: nat)

  datatype Outcome = Replied(acc: Acc) | Interrupted | Raised

  /** The n-th attempt (from 1) broke, and another one is made. */
  predicate Resends(policy: RetryPolicy, n: nat, a: Attempt) {
    a.Broke? && a.transient && policy.RetryPolicy? && n < policy.maxAttempts && policy.backoffs > 0
  }

  /** Events of the first n attempts, each followed by its numbered retry notice. */
  function EventsBefore(attempts: seq<Attempt>, n: nat): (events: seq<Event>)
    requires n <= |attempts|
  {
    if n == 0 then [] else EventsBefore(attempts, n - 1) + EventsOf(attempts[n - 1].chunks) + [LLMStreamRetrying(n)]
  }

  method ConsumeStream(chunks: seq<Chunk>) returns (acc: Acc, log: seq<Event>)
    ensures acc == FeedAll(chunks) && log == EventsOf(chunks)
  {
    var accumulator := new StreamAccumulator();
    log := [];
    for i := 0 to |chunks|
      invariant accumulator.State() == FeedAll(chunks[..i])
      invariant log == EventsOf(chunks[..i])
    {
      assert chunks[..i + 1][..i] == chunks[..i];
      var events := accumulator.Feed(chunks[i]);
      log := log + events;
    }
    assert chunks[..|chunks|] == chunks;
    acc := accumulator.State();
  }

  /** The first n attempts broke and were resent. */
  predicate AllResent(policy: RetryPolicy, attempts: seq<Attempt>, n: nat)
    requires n <= |attempts|
  {
    forall k :: 0 <= k < n ==> Resends(policy, k + 1, attempts[k]) && !attempts[k].stopWaiting
  }

  /** What the n-th attempt, being the last, leaves: a reply, an interruption, or its error. */
  predicate Concludes(policy: RetryPolicy, n: nat, last: Attempt, before: seq<Event>, outcome: Outcome, log: seq<Event>)
  {
    match last
    case Finished(chunks) => outcome == Replied(FeedAll(chunks)) && log == before
    case StoppedAt(_) => outcome == Interrupted && log == before
    case Broke(_, _, stopWaiting) =>
      if Resends(policy, n, last) then stopWaiting && outcome == Interrupted && log == before + [LLMStreamRetrying(n)]
      else outcome == Raised && log == before
  }

  /** The n-th attempt: how it concludes the call, or None if the next attempt is to be made. */
  method OneAttempt(policy: RetryPolicy, n: nat, attempt: Attempt) returns (outcome: Option<Outcome>, log: seq<Event>)
    ensures outcome.Some? ==> Concludes(policy, n, attempt, EventsOf(attempt.chunks), outcome.value, log)
    ensures outcome.None? ==>
              && Resends(policy, n, attempt) && !attempt.stopWaiting
              && log == EventsOf(attempt.chunks) + [LLMStreamRetrying(n)]
  {
    var acc, events := ConsumeStream(attempt.chunks);
    log := events;
    if attempt.Finished? { return Some(Replied(acc)), log; }
    if attempt.StoppedAt? { return Some(Interrupted), log; }
    if policy.NoRetry? || n >= policy.maxAttempts || !attempt.transient { return Some(Raised), log; }
    if policy.backoffs == 0 { return Some(Raised), log; }
    log := log + [LLMStreamRetrying(n)];
    if attempt.stopWaiting { return Some(Interrupted), log; }
    return None, log;
  }

  /** One step's model call: attempt after attempt, as long as attempts break and may be resent.
      `attempts` supplies what the provider does; `used` attempts were made, and `last` is what the last one logged. */
  method StreamLlm(policy: RetryPolicy, attempts: seq<Attempt>)
    returns (outcome: Outcome, log: seq<Event>, used: nat, ghost last: seq<Event>)
    requires |attempts| > 0 && (policy.RetryPolicy? ==> |attempts| >= policy.maxAttempts)
    ensures 1 <= used <= |attempts| && AllResent(policy, attempts, used - 1)
    ensures log == EventsBefore(attempts, used - 1) + last
    ensures Concludes(policy, used, attempts[used - 1], EventsOf(attempts[used - 1].chunks), outcome, last)
  {
    log, used := [], 0;
    while true
      invariant 0 <= used < |attempts|
      invariant log == EventsBefore(attempts, used)
      invariant AllResent(policy, attempts, used)
      decreases |attempts| - used
    {
      used := used + 1;
      var concluded, events := OneAttempt(policy, used, attempts[used - 1]);
      if concluded.Some? { return concluded.value, log + events, used, events; }
      log := log + events;
    }
  }

  /** The call is given up exactly where it must be: an error is raised only by an attempt that was not transient, had
      no policy or no waiting times, or was the last one allowed; and an attempt that ends in a reply, coming after
      transient breaks only and in time, is the one the call returns. */
  lemma RetriesAreExhausted(policy: RetryPolicy, attempts: seq<Attempt>, used: nat, outcome: Outcome, last: seq<Event>)
    requires 1 <= used <= |attempts| && AllResent(policy, attempts, used - 1)
    requires Concludes(policy, used, attempts[used - 1], EventsOf(attempts[used - 1].chunks), outcome, last)
    ensures outcome.Raised? <==>
            var a := attempts[used - 1];
            a.Broke? && (!a.transient || policy.NoRetry? || policy.backoffs == 0 || used >= policy.maxAttempts)
    ensures outcome.Replied? <==> attempts[used - 1].Finished?
    ensures var a := attempts[used - 1];
            var resent := a.Broke? && a.transient && policy.RetryPolicy? && policy.backoffs > 0
                          && used < policy.maxAttempts;
            last == EventsOf(a.chunks) + if resent then [LLMStreamRetrying(used)] else []
    ensures forall k :: 0 <= k < |attempts| && attempts[k].Finished? && InTime(policy, attempts, k) ==>
              used == k + 1 && outcome == Replied(FeedAll(attempts[k].chunks))
  {
    forall k | 0 <= k < |attempts| && attempts[k].Finished? && InTime(policy, attempts, k)
      ensures used == k + 1
    {
      if used != k + 1 { assert false; }
    }
  }

  /** The first `k` attempts broke transiently, with attempts left, waiting times configured and no stop requested. */
  predicate InTime(policy: RetryPolicy, attempts: seq<Attempt>, k: nat)
    requires k <= |attempts|
  {
    (k > 0 ==> policy.RetryPolicy? && k < policy.maxAttempts && policy.backoffs > 0) &&
    forall j :: 0 <= j < k ==> attempts[j].Broke? && attempts[j].transient && !attempts[j].stopWaiting
  }

  /** At most `max_attempts` attempts are made, and one if there is no policy. */
  lemma AttemptsAreBounded(policy: RetryPolicy, attempts: seq<Attempt>, used: nat)
    requires 1 <= used <= |attempts| && AllResent(policy, attempts, used - 1)
    ensures used == 1 || (policy.RetryPolicy? && used <= policy.maxAttempts)
  {
    if used > 1 { assert Resends(policy, used - 1, attempts[used - 2]); }
  }

  /** 1, 2, ..., n. */
  function UpTo(n: nat): (r: seq<nat>)
    ensures |r| == n && forall k :: 0 <= k < n ==> r[k] == k + 1
  {
    if n == 0 then [] else UpTo(n - 1) + [n]
  }

  lemma {:induction false} RetryNoticesAreCounted(attempts: seq<Attempt>, n: nat)
    requires n <= |attempts|
    ensures Notices(EventsBefore(attempts, n)) == UpTo(n)
    decreases n
  {
    if n > 0 {
      RetryNoticesAreCounted(attempts, n - 1);
      NoNotices(attempts[n - 1].chunks);
      NoticesConcat(EventsBefore(attempts, n - 1), EventsOf(attempts[n - 1].chunks));
      NoticesConcat(EventsBefore(attempts, n - 1) + EventsOf(attempts[n - 1].chunks), [LLMStreamRetrying(n)]);
      assert Notices([LLMStreamRetrying(n)]) == [n] by { assert [LLMStreamRetrying(n)][1..] == []; }
    }
  }

  /** The numbers of the retry notices, in order. */
  function Notices(events: seq<Event>): (r: seq<nat>)
    decreases |events|
  {
    if events == [] then []
    else (if events[0].LLMStreamRetrying? then [events[0].attempt] else []) + Notices(events[1..])
  }

  lemma {:induction false} NoticesConcat(a: seq<Event>, b: seq<Event>)
    ensures Notices(a + b) == Notices(a) + Notices(b)
    decreases |a|
  {
    if a == [] {
      assert a + b == b;
    } else {
      NoticesConcat(a[1..], b);
      var said := if a[0].LLMStreamRetrying? then [a[0].attempt] else [];
      assert Notices(a) == said + Notices(a[1..]);
      assert Notices(a + b) == said + Notices(a[1..] + b) by { assert (a + b)[1..] == a[1..] + b; }
    }
  }

  lemma {:induction false} NoNotices(chunks: seq<Chunk>)
    ensures Notices(EventsOf(chunks)) == []
    decreases |chunks|
  {
    if chunks != [] {
      var init := chunks[..|chunks| - 1];
      var more := Emitted(FeedAll(init), chunks[|chunks| - 1]);
      NoNotices(init);
      NoticesConcat(EventsOf(init), more);
      assert Notices(more) == [] by {
        if |more| > 0 { assert Notices(more) == Notices(more[1..]); }
        if |more| > 1 { assert Notices(more[1..]) == Notices(more[1..][1..]); }
      }
    }
  }

  /** Whatever broken attempts came first, a client folding the whole log has exactly the committed reply. */
  lemma RetriedStreamIsFaithful(attempts: seq<Attempt>, n: nat)
    requires n < |attempts|
    ensures var chunks := attempts[n].chunks;
            var c := SeeAll(BLANK, EventsBefore(attempts, n) + EventsOf(chunks));
            c == ClientOf(chunks) && Reproduces(c, FeedAll(chunks))
  {
    var chunks := attempts[n].chunks;
    SeeConcat(BLANK, EventsBefore(attempts, n), EventsOf(chunks));
    if n > 0 {
      var before := EventsBefore(attempts, n - 1) + EventsOf(attempts[n - 1].chunks);
      SeeConcat(BLANK, before, [LLMStreamRetrying(n)]);
      assert [LLMStreamRetrying(n)][1..] == [];
    }
    DeltasReproduceReply(chunks);
  }
}
