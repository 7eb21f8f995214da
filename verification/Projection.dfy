// What is sent to the model: the history from an aligned start on, trimmed message by message, behind a summary
// and re-injected results; and the ruler that weighs the same (src/flops_agent/engine/compaction.py).
module Projection {
  import opened Prelude
  import opened Messages
  import opened Pairing
  import opened Alignment
  import opened Trim
  import opened Whitespace

  datatype Config = Config(
    exempt: set<string>,
    toolTrim: bool, standard: Budget,
    grading: bool, fullCount: int, fullMax: int, stubAfter: int, stubMin: int,
    userTrim: bool, userMax: int, noticeExempt: bool,
    argumentTrim: bool, argumentMax: int,
    textWording: Wording, toolWording: Wording, stubWording: Notice,
    metadataPrefix: string, summaryTag: string)

  // ----- Tiers of tool results ------------------------------------------------------

  datatype Tier = Full | Standard | Stub

  /** Tool results in the history from `i` on. */
  function ToolsFrom(h: seq<Message>, i: nat): (n: nat)
    requires i <= |h|
    decreases |h| - i
  {
    if i == |h| then 0 else (if h[i].Tool? then 1 else 0) + ToolsFrom(h, i + 1)
  }

  /** The tier of a result with `newer` newer ones; everything is standard when grading is off. */
  function TierOf(cfg: Config, newer: nat): (t: Tier) {
    if !cfg.grading then Standard
    else if newer < cfg.fullCount then Full
    else if cfg.stubAfter > 0 && newer >= cfg.stubAfter then Stub
    else Standard
  }

  ghost predicate IsTierTable(cfg: Config, tiers: map<int, Tier>, h: seq<Message>) {
    && (forall i :: i in tiers <==> cfg.grading && 0 <= i < |h| && h[i].Tool?)
    && (forall i :: i in tiers ==> tiers[i] == TierOf(cfg, ToolsFrom(h, i + 1)))
  }

  method ComputeToolTiers(cfg: Config, h: seq<Message>) returns (tiers: map<int, Tier>)
    ensures IsTierTable(cfg, tiers, h)
  {
    tiers := map[];
    if !cfg.grading { return; }
    var seen := 0;
    var i := |h|;
    while i > 0
      invariant 0 <= i <= |h| && seen == ToolsFrom(h, i)
      invariant forall k :: k in tiers <==> i <= k < |h| && h[k].Tool?
      invariant forall k :: k in tiers ==> tiers[k] == TierOf(cfg, ToolsFrom(h, k + 1))
    {
      i := i - 1;
      if h[i].Tool? {
        tiers := tiers[i := if seen < cfg.fullCount then Full
                            else if cfg.stubAfter > 0 && seen >= cfg.stubAfter then Stub
                            else Standard];
        seen := seen + 1;
      }
    }
  }

  // ----- One message on the wire ----------------------------------------------------

  function SoftTrimmed(cfg: Config, s: string, full: int): (r: string) {
    if !cfg.toolTrim then s
    else SoftTrim(cfg.toolWording, s, if full > 0 then Budget(full, full, full) else cfg.standard)
  }

  /** A tool result rendered for its tier; a result of an exempt tool is left alone. */
  function ToolText(cfg: Config, content: string, tier: Tier, name: string): (r: string) {
    if name != "" && name in cfg.exempt then content
    else
      match tier
      case Stub => if |content| <= cfg.stubMin then SoftTrimmed(cfg, content, 0) else cfg.stubWording.Filled(|content|)
      case Full => SoftTrimmed(cfg, content, cfg.fullMax)
      case Standard => SoftTrimmed(cfg, content, 0)
  }

  function UserText(cfg: Config, m: Message, limit: int): (r: string)
    requires m.User?
  {
    if !cfg.userTrim || (cfg.noticeExempt && m.notice) then m.content
    else MiddleOmitTrim(cfg.textWording, m.content, limit)
  }

  function ArgumentText(cfg: Config, arguments: string): (r: string) {
    if cfg.argumentTrim then MiddleOmitTrim(cfg.textWording, arguments, cfg.argumentMax) else arguments
  }

  function WireCalls(cfg: Config, calls: seq<Call>): (r: seq<Call>)
    ensures |r| == |calls|
    ensures forall i :: 0 <= i < |calls| ==> r[i] == calls[i].(arguments := ArgumentText(cfg, calls[i].arguments))
  {
    seq(|calls|, i requires 0 <= i < |calls| => calls[i].(arguments := ArgumentText(cfg, calls[i].arguments)))
  }

  /** Reasoning that is only white space is not sent. */
  function WireReasoning(reasoning: string): (r: string) { if Strip(reasoning) == "" then "" else reasoning }

  /** The newest request for this id; a missing id is not looked up. */
  function Parent(h: seq<Message>, id: string): (call: Option<Call>) {
    if h == [] || id == "" then None
    else
      var m := h[|h| - 1];
      var k := if m.Assistant? then LastCall(m.calls, id) else -1;
      if k >= 0 then Some(m.calls[k]) else Parent(h[..|h| - 1], id)
  }

  /** The name it was called by; empty if unknown. */
  function NameOf(h: seq<Message>, id: string): (name: string) {
    match Parent(h, id)
    case Some(call) => call.name
    case None => ""
  }

  function LastCall(calls: seq<Call>, id: string): (k: int)
    ensures -1 <= k < |calls| && (k >= 0 ==> calls[k].id == id)
    ensures forall j :: k < j < |calls| ==> calls[j].id != id
  {
    if calls == [] then -1
    else if calls[|calls| - 1].id == id then |calls| - 1
    else LastCall(calls[..|calls| - 1], id)
  }

  predicate Names(m: Message, id: string) { m.Assistant? && LastCall(m.calls, id) >= 0 }

  /** A result is named by the newest request for its id, wherever it stands in the history; without one it has
      no name. */
  lemma {:induction false} NameIsNewest(h: seq<Message>, id: string, i: nat)
    requires id != "" && i <= |h| && forall j :: i <= j < |h| ==> !Names(h[j], id)
    ensures i == 0 ==> Parent(h, id) == None && NameOf(h, id) == ""
    ensures i > 0 && Names(h[i - 1], id) ==>
              var call := h[i - 1].calls[LastCall(h[i - 1].calls, id)];
              Parent(h, id) == Some(call) && NameOf(h, id) == call.name
    decreases |h|
  {
    if i < |h| { NameIsNewest(h[..|h| - 1], id, i); }
  }

  /** The table holds, under each id, the newest request for it. */
  ghost predicate IsIndex(table: map<string, Call>, h: seq<Message>) {
    forall id :: Parent(h, id) == if id in table then Some(table[id]) else None
  }

  /** One pass over the history, the later request for an id replacing the earlier. */
  method IndexCalls(h: seq<Message>) returns (table: map<string, Call>)
    ensures IsIndex(table, h)
  {
    table := map[];
    for i := 0 to |h|
      invariant IsIndex(table, h[..i])
    {
      assert h[..i + 1][..i] == h[..i];
      if h[i].Assistant? {
        var calls := h[i].calls;
        var before := table;
        for k := 0 to |calls|
          invariant forall id :: id in table ==> id != ""
          invariant forall id {:trigger id in table} {:trigger LastCall(calls[..k], id)} ::
                      if id != "" && LastCall(calls[..k], id) >= 0
                      then id in table && table[id] == calls[LastCall(calls[..k], id)]
                      else (id in table <==> id in before) && (id in table ==> table[id] == before[id])
        {
          assert calls[..k + 1][..k] == calls[..k];
          if calls[k].id != "" { table := table[calls[k].id := calls[k]]; }
        }
        assert calls[..|calls|] == calls;
      }
    }
    assert h[..|h|] == h;
  }

  /** The tiers of a result that is not exempt: short texts are shown whole in every tier; longer ones fit their
      tier's limit, or are replaced by a notice of their length. */
  lemma ToolTextFits(cfg: Config, content: string, tier: Tier, name: string)
    requires (name == "" || name !in cfg.exempt) && LimitsFit(cfg, content)
    ensures var r := ToolText(cfg, content, tier, name);
            && (|content| <= cfg.stubMin ==> r == content)
            && (tier.Full? ==> |r| <= cfg.fullMax && (|content| <= cfg.fullMax ==> r == content))
            && (tier.Standard? ==> |r| <= cfg.standard.limit && (|content| <= cfg.standard.limit ==> r == content))
            && (tier.Stub? && |content| > cfg.stubMin ==> r == cfg.stubWording.Filled(|content|))
  {
    match tier
    case Full => SoftTrimFits(cfg.toolWording, content, Budget(cfg.fullMax, cfg.fullMax, cfg.fullMax));
    case _ => SoftTrimFits(cfg.toolWording, content, cfg.standard);
  }

  /** Trimming is on, each limit leaves room for its marker, and the marker for the text's length. */
  predicate LimitsFit(cfg: Config, content: string) {
    && cfg.toolTrim && |content| < Pow10(33)
    && cfg.standard.limit >= |cfg.toolWording.omitted.Filled(0)| + 96 && cfg.standard.head + cfg.standard.tail > 0
    && cfg.fullMax >= cfg.standard.limit >= cfg.stubMin
  }

  /** How long a result may be to be shown whole. */
  function WholeUpTo(cfg: Config, tier: Tier): (limit: int) {
    match tier
    case Full => cfg.fullMax
    case Standard => cfg.standard.limit
    case Stub => cfg.stubMin
  }

  /** What a message becomes; `limit` is a user message's budget. */
  function WireAs(cfg: Config, m: Message, tier: Tier, name: string, limit: int): (r: seq<Message>) {
    match m
    case System(content) => [System(content)]
    case User(content, _, _, metadata) =>
      (if metadata == "" then [] else [System(cfg.metadataPrefix + metadata)])
      + [User(UserText(cfg, m, limit), false, false, "")]
    case Assistant(content, reasoning, calls) => [Assistant(content, WireReasoning(reasoning), WireCalls(cfg, calls))]
    case Tool(id, content) => [Tool(id, ToolText(cfg, content, tier, name))]
  }

  /** What message `i` becomes; `limits` overrides the budget of single user messages. */
  function WireOf(cfg: Config, h: seq<Message>, i: nat, limits: map<nat, int>): (r: seq<Message>)
    requires i < |h|
  {
    WireAs(cfg, h[i], TierOf(cfg, ToolsFrom(h, i + 1)), if h[i].Tool? then NameOf(h, h[i].callId) else "",
           if i in limits then limits[i] else cfg.userMax)
  }

  function Wires(cfg: Config, h: seq<Message>, limits: map<nat, int>): (r: seq<seq<Message>>)
    ensures |r| == |h|
    ensures forall i :: 0 <= i < |h| ==> r[i] == WireOf(cfg, h, i, limits)
  {
    seq(|h|, i requires 0 <= i < |h| => WireOf(cfg, h, i, limits))
  }

  /** A slice of the history as it is sent. */
  function Expanded(cfg: Config, h: seq<Message>, start: nat, end: nat, limits: map<nat, int>): (r: seq<Message>)
    requires start <= end <= |h|
  {
    Flatten(Wires(cfg, h, limits)[start..end])
  }

  /** Message `i` on the wire, by the table of tiers and the table of calls. */
  method WireFromTables(cfg: Config, h: seq<Message>, i: nat, limits: map<nat, int>,
                        tiers: map<int, Tier>, table: map<string, Call>) returns (r: seq<Message>)
    requires i < |h| && IsTierTable(cfg, tiers, h) && IsIndex(table, h)
    ensures r == WireOf(cfg, h, i, limits)
  {
    var tier := if i in tiers then tiers[i] else Standard;
    var name := "";
    if h[i].Tool? {
      assert Parent(h, h[i].callId) == if h[i].callId in table then Some(table[h[i].callId]) else None;
      if h[i].callId in table { name := table[h[i].callId].name; }
    }
    r := WireAs(cfg, h[i], tier, name, if i in limits then limits[i] else cfg.userMax);
  }

  method ExpandCanonical(cfg: Config, h: seq<Message>, start: int, end: int, limits: map<nat, int>)
    returns (out: seq<Message>)
    ensures var lo := if start < 0 then 0 else start;
            var hi := if end < 0 then 0 else if end < |h| then end else |h|;
            out == if lo <= hi then Expanded(cfg, h, lo, hi, limits) else []
  {
    out := [];
    var lo := if start < 0 then 0 else start;
    var hi := if end < 0 then 0 else if end < |h| then end else |h|;
    var tiers := ComputeToolTiers(cfg, h);
    var table := IndexCalls(h);
    ghost var wires := Wires(cfg, h, limits);
    if lo > hi { return; }
    for i := lo to hi
      invariant out == Flatten(wires[lo..i])
    {
      var wire := WireFromTables(cfg, h, i, limits, tiers, table);
      FlattenSlice(wires, lo, i);
      out := out + wire;
    }
  }

  // ----- What is sent as it is -------------------------------------------------------

  /** Within the limit that applies to it, or exempt from trimming. */
  predicate SentWhole(cfg: Config, h: seq<Message>, i: nat)
    requires i < |h|
  {
    match h[i]
    case System(_) => true
    case User(content, _, notice, _) =>
      !cfg.userTrim || (cfg.noticeExempt && notice) || cfg.userMax <= 0 || |content| <= cfg.userMax
    case Assistant(_, reasoning, calls) =>
      && (IsBlank(reasoning) ==> reasoning == "")
      && (cfg.argumentTrim ==>
            forall k :: 0 <= k < |calls| ==> cfg.argumentMax <= 0 || |calls[k].arguments| <= cfg.argumentMax)
    case Tool(id, content) =>
      || (NameOf(h, id) != "" && NameOf(h, id) in cfg.exempt)
      || (match TierOf(cfg, ToolsFrom(h, i + 1))
          case Full => !cfg.toolTrim || |content| <= (if cfg.fullMax > 0 then cfg.fullMax else cfg.standard.limit)
          case Standard => !cfg.toolTrim || |content| <= cfg.standard.limit
          case Stub => |content| <= cfg.stubMin && (!cfg.toolTrim || |content| <= cfg.standard.limit))
  }

  /** A message as it is, a user message's metadata in a line of its own and its flags dropped. */
  function AsWritten(cfg: Config, m: Message): (r: seq<Message>) {
    match m
    case User(content, _, _, metadata) =>
      (if metadata == "" then [] else [System(cfg.metadataPrefix + metadata)]) + [User(content, false, false, "")]
    case _ => [m]
  }

  function AllAsWritten(cfg: Config, h: seq<Message>): (r: seq<seq<Message>>)
    ensures |r| == |h| && forall i :: 0 <= i < |h| ==> r[i] == AsWritten(cfg, h[i])
  {
    seq(|h|, i requires 0 <= i < |h| => AsWritten(cfg, h[i]))
  }

  lemma SentAsWritten(cfg: Config, h: seq<Message>, i: nat)
    requires i < |h| && SentWhole(cfg, h, i)
    ensures WireOf(cfg, h, i, map[]) == AsWritten(cfg, h[i])
  {
    match h[i]
    case Assistant(content, reasoning, calls) =>
      BlankStrips(reasoning);
      assert WireCalls(cfg, calls) == calls;
    case _ =>
  }

  /** A stretch of messages within their limits is sent word for word, in order, role by role. */
  lemma WithinLimitsSentWhole(cfg: Config, h: seq<Message>, start: nat, end: nat)
    requires start <= end <= |h| && forall i :: start <= i < end ==> SentWhole(cfg, h, i)
    ensures Expanded(cfg, h, start, end, map[]) == Flatten(AllAsWritten(cfg, h[start..end]))
  {
    forall i | start <= i < end ensures WireOf(cfg, h, i, map[]) == AsWritten(cfg, h[i]) { SentAsWritten(cfg, h, i); }
    assert Wires(cfg, h, map[])[start..end] == AllAsWritten(cfg, h[start..end]);
  }

  /** Positions of the results from `i` on. */
  ghost function Newer(h: seq<Message>, i: nat): (s: set<int>) { set j | i <= j < |h| && h[j].Tool? }

  lemma {:induction false} ToolsFromCounts(h: seq<Message>, i: nat)
    requires i <= |h|
    ensures ToolsFrom(h, i) == |Newer(h, i)|
    decreases |h| - i
  {
    if i == |h| {
      assert Newer(h, i) == {};
    } else {
      ToolsFromCounts(h, i + 1);
      assert Newer(h, i) == Newer(h, i + 1) + if h[i].Tool? then {i as int} else {};
    }
  }

  /** The newest `fullCount` results are shown in full, those with at least `stubAfter` newer ones as stubs, and those
      between, or all if there is no grading, by the standard limit. */
  lemma TierByAge(cfg: Config, h: seq<Message>, i: nat)
    requires i < |h|
    ensures var newer, t := |Newer(h, i + 1)|, TierOf(cfg, ToolsFrom(h, i + 1));
            && (t.Full? <==> cfg.grading && newer < cfg.fullCount)
            && (t.Stub? <==> cfg.grading && newer >= cfg.fullCount && 0 < cfg.stubAfter <= newer)
  {
    ToolsFromCounts(h, i + 1);
  }

  // ----- One ruler ------------------------------------------------------------------

  /** Characters of one wire message. */
  function Size(m: Message): (n: nat) {
    match m
    case Assistant(content, reasoning, calls) => |content| + |reasoning| + CallsSize(calls)
    case _ => |m.content|
  }

  function CallsSize(calls: seq<Call>): (n: nat) {
    if calls == [] then 0 else CallsSize(calls[..|calls| - 1]) + |calls[|calls| - 1].arguments|
  }

  function SizeAll(wire: seq<Message>): (n: nat) {
    if wire == [] then 0 else SizeAll(wire[..|wire| - 1]) + Size(wire[|wire| - 1])
  }

  lemma {:induction false} SizeConcat(a: seq<Message>, b: seq<Message>)
    ensures SizeAll(a + b) == SizeAll(a) + SizeAll(b)
    decreases |b|
  {
    if b == [] {
      assert a + b == a;
    } else {
      assert (a + b)[..|a + b| - 1] == a + b[..|b| - 1];
      SizeConcat(a, b[..|b| - 1]);
    }
  }

  function ArgumentsWeight(cfg: Config, calls: seq<Call>): (n: nat) {
    if calls == [] then 0
    else ArgumentsWeight(cfg, calls[..|calls| - 1]) + |ArgumentText(cfg, calls[|calls| - 1].arguments)|
  }

  /** What the compaction judgment takes one message to weigh: unlike the builder it does not know the tool's name,
      and it strips the metadata. */
  function Weight(cfg: Config, m: Message, tier: Tier): (n: nat) {
    match m
    case System(content) => |content|
    case User(content, _, _, metadata) =>
      |UserText(cfg, m, cfg.userMax)| + (if Strip(metadata) == "" then 0 else |cfg.metadataPrefix + Strip(metadata)|)
    case Assistant(content, reasoning, calls) =>
      |content| + (if Strip(reasoning) == "" then 0 else |reasoning|) + ArgumentsWeight(cfg, calls)
    case Tool(_, content) => |ToolText(cfg, content, tier, "")|
  }

  function Weights(cfg: Config, h: seq<Message>): (w: seq<nat>)
    ensures |w| == |h|
    ensures forall i :: 0 <= i < |h| ==> w[i] == Weight(cfg, h[i], TierOf(cfg, ToolsFrom(h, i + 1)))
  {
    seq(|h|, i requires 0 <= i < |h| => Weight(cfg, h[i], TierOf(cfg, ToolsFrom(h, i + 1))))
  }

  /** The metadata line, if any, has no surrounding white space. */
  predicate PlainMetadata(m: Message) { m.User? ==> IsStripped(m.metadata) }

  lemma {:induction false} CallsWeighAlike(cfg: Config, calls: seq<Call>)
    ensures CallsSize(WireCalls(cfg, calls)) == ArgumentsWeight(cfg, calls)
    decreases |calls|
  {
    if calls != [] {
      var init := calls[..|calls| - 1];
      CallsWeighAlike(cfg, init);
      assert WireCalls(cfg, calls)[..|calls| - 1] == WireCalls(cfg, init);
    }
  }

  lemma StripShortensIff(s: string)
    ensures |Strip(s)| <= |s| && (|Strip(s)| == |s| <==> IsStripped(s))
  {
    StripIsIdleIff(s);
    if |Strip(s)| == |s| { assert LStrip(s) == s && RStrip(s) == s; }
  }

  lemma UserSize(cfg: Config, metadata: string, text: string)
    ensures SizeAll((if metadata == "" then [] else [System(cfg.metadataPrefix + metadata)])
                    + [User(text, false, false, "")])
            == |text| + (if metadata == "" then 0 else |cfg.metadataPrefix + metadata|)
  {
    var line := System(cfg.metadataPrefix + metadata);
    var user := User(text, false, false, "");
    SizeConcat(if metadata == "" then [] else [line], [user]);
  }

  lemma UserSizeIff(cfg: Config, metadata: string, text: string)
    ensures var sent := SizeAll((if metadata == "" then [] else [System(cfg.metadataPrefix + metadata)])
                                + [User(text, false, false, "")]);
            var weight := |text| + (if Strip(metadata) == "" then 0 else |cfg.metadataPrefix + Strip(metadata)|);
            weight <= sent && (weight == sent <==> IsStripped(metadata))
  {
    UserSize(cfg, metadata, text);
    StripShortensIff(metadata);
  }

  lemma TextSize(m: Message)
    requires !m.Assistant?
    ensures SizeAll([m]) == |m.content|
  {
  }

  lemma AssistantSize(cfg: Config, content: string, reasoning: string, calls: seq<Call>)
    ensures SizeAll([Assistant(content, WireReasoning(reasoning), WireCalls(cfg, calls))])
            == |content| + (if Strip(reasoning) == "" then 0 else |reasoning|) + ArgumentsWeight(cfg, calls)
  {
    CallsWeighAlike(cfg, calls);
  }

  predicate Exempt(cfg: Config, h: seq<Message>, i: nat)
    requires i < |h|
  {
    h[i].Tool? && NameOf(h, h[i].callId) != "" && NameOf(h, h[i].callId) in cfg.exempt
  }

  lemma MessageWeighsItsSizeIff(cfg: Config, h: seq<Message>, i: nat)
    requires i < |h| && !Exempt(cfg, h, i)
    ensures Weights(cfg, h)[i] <= SizeAll(WireOf(cfg, h, i, map[]))
    ensures Weights(cfg, h)[i] == SizeAll(WireOf(cfg, h, i, map[])) <==> PlainMetadata(h[i])
  {
    match h[i]
    case User(_, _, _, metadata) => UserSizeIff(cfg, metadata, UserText(cfg, h[i], cfg.userMax));
    case Assistant(content, reasoning, calls) => AssistantSize(cfg, content, reasoning, calls);
    case System(content) => TextSize(System(content));
    case Tool(id, content) => TextSize(Tool(id, ToolText(cfg, content, TierOf(cfg, ToolsFrom(h, i + 1)), "")));
  }

  lemma {:induction false} SizesDominate(wires: seq<seq<Message>>, w: seq<nat>, start: nat, end: nat)
    requires start <= end <= |w| == |wires| && forall i :: start <= i < end ==> w[i] <= SizeAll(wires[i])
    ensures var sent, weight := SizeAll(Flatten(wires[start..end])), Sum(w[start..end]);
            weight <= sent && (weight == sent <==> forall i :: start <= i < end ==> w[i] == SizeAll(wires[i]))
    decreases end
  {
    if start < end {
      var n := end - 1;
      SizesDominate(wires, w, start, n);
      FlattenSlice(wires, start, n);
      SizeConcat(Flatten(wires[start..n]), wires[n]);
      SumSlice(w, start, n);
    }
  }

  /** One ruler: without exempt tools, with stripped metadata and no override, the characters of the expanded slice
      are exactly what the slice weighs, read off as the difference of two suffix totals. */
  lemma OneRuler(cfg: Config, h: seq<Message>, start: nat, end: nat)
    requires start <= end <= |h| && cfg.exempt == {} && forall i :: 0 <= i < |h| ==> PlainMetadata(h[i])
    ensures var w := Weights(cfg, h);
            SizeAll(Expanded(cfg, h, start, end, map[])) == Sum(w[start..]) - Sum(w[end..])
  {
    var wires, w := Wires(cfg, h, map[]), Weights(cfg, h);
    forall i | 0 <= i < |h| ensures SizeAll(wires[i]) == w[i] { MessageWeighsItsSizeIff(cfg, h, i); }
    SizesDominate(wires, w, start, end);
    SumOfSuffixes(w, start, end);
  }

  /** An exempt tool's result is sent whole but weighed as if it were trimmed: builder and ruler agree on it iff it
      is short enough to be shown whole in its tier anyway, and otherwise more is sent than weighed. */
  lemma ExemptResultAgreesIff(cfg: Config, h: seq<Message>, i: nat)
    requires i < |h| && Exempt(cfg, h, i) && LimitsFit(cfg, h[i].content)
    requires cfg.stubMin >= |cfg.stubWording.Filled(|h[i].content|)|
    ensures Weights(cfg, h)[i] <= SizeAll(WireOf(cfg, h, i, map[]))
    ensures Weights(cfg, h)[i] == SizeAll(WireOf(cfg, h, i, map[])) <==> ShownWhole(cfg, h, i)
  {
    ToolTextFits(cfg, h[i].content, TierOf(cfg, ToolsFrom(h, i + 1)), "");
  }

  /** Short enough not to be trimmed in its tier. */
  predicate ShownWhole(cfg: Config, h: seq<Message>, i: nat)
    requires i < |h|
  {
    |h[i].content| <= WholeUpTo(cfg, TierOf(cfg, ToolsFrom(h, i + 1)))
  }

  /** One ruler for every slice: never is less sent than weighed, and exactly as much iff each exempt result in it is
      short enough to be shown whole anyway and each metadata line is stripped. */
  lemma OneRulerIff(cfg: Config, h: seq<Message>, start: nat, end: nat)
    requires start <= end <= |h|
    requires forall i :: 0 <= i < |h| && h[i].Tool? ==>
               LimitsFit(cfg, h[i].content) && cfg.stubMin >= |cfg.stubWording.Filled(|h[i].content|)|
    ensures var sent, weight := SizeAll(Expanded(cfg, h, start, end, map[])), Sum(Weights(cfg, h)[start..end]);
            weight <= sent && (weight == sent <==>
              forall i :: start <= i < end ==> PlainMetadata(h[i]) && (Exempt(cfg, h, i) ==> ShownWhole(cfg, h, i)))
  {
    var wires, w := Wires(cfg, h, map[]), Weights(cfg, h);
    forall i | 0 <= i < |h|
      ensures w[i] <= SizeAll(wires[i])
      ensures w[i] == SizeAll(wires[i]) <==> PlainMetadata(h[i]) && (Exempt(cfg, h, i) ==> ShownWhole(cfg, h, i))
    {
      if Exempt(cfg, h, i) { ExemptResultAgreesIff(cfg, h, i); } else { MessageWeighsItsSizeIff(cfg, h, i); }
    }
    SizesDominate(wires, w, start, end);
  }

  // ----- The tool protocol on the wire ----------------------------------------------

  datatype Summary = Summary(text: string, covers: int)

  predicate InForce(h: seq<Message>, active: Option<Summary>) {
    active.Some? && Strip(active.value.text) != "" && 0 <= active.value.covers <= |h|
  }

  /** First history message that is sent verbatim. */
  function TailStart(h: seq<Message>, active: Option<Summary>): (start: nat)
    ensures start <= |h|
  {
    if InForce(h, active) then Align(h, active.value.covers) else 0
  }

  /** The messages sent: summary, re-injected results if any, and the tail. */
  function Built(cfg: Config, h: seq<Message>, active: Option<Summary>, reinjected: Option<string>,
                 limits: map<nat, int>)
    : (r: seq<Message>)
  {
    Preamble(cfg, h, active, reinjected) + Expanded(cfg, h, TailStart(h, active), |h|, limits)
  }

  lemma WireKeepsFeed(cfg: Config, h: seq<Message>, i: nat, limits: map<nat, int>, pending: seq<string>)
    requires i < |h|
    ensures OpenFrom(pending, WireOf(cfg, h, i, limits)) == Feed(pending, h[i])
  {
    var r := WireOf(cfg, h, i, limits);
    match h[i]
    case User(_, _, _, metadata) =>
      var user := r[|r| - 1];
      if metadata != "" {
        assert r == [r[0]] + [user];
        OpenFromConcat(pending, [r[0]], [user]);
      } else {
        assert r == [user];
      }
    case Assistant(_, _, calls) =>
      assert Ids(WireCalls(cfg, calls)) == Ids(calls);
    case _ =>
  }

  /** Each list is, to the tool protocol, the message in its place. */
  ghost predicate FeedAlike(wires: seq<seq<Message>>, h: seq<Message>) {
    |wires| == |h| && forall i, pending :: 0 <= i < |h| ==> OpenFrom(pending, wires[i]) == Feed(pending, h[i])
  }

  lemma {:induction false} FlattenKeepsOpen(wires: seq<seq<Message>>, h: seq<Message>, pending: seq<string>)
    requires FeedAlike(wires, h)
    ensures OpenFrom(pending, Flatten(wires)) == OpenFrom(pending, h)
    decreases |h|
  {
    if h != [] {
      var n := |h| - 1;
      FlattenKeepsOpen(wires[..n], h[..n], pending);
      OpenFromConcat(pending, Flatten(wires[..n]), wires[n]);
    }
  }

  lemma ExpansionKeepsOpen(cfg: Config, h: seq<Message>, start: nat, end: nat, limits: map<nat, int>)
    requires start <= end <= |h|
    ensures Open(Expanded(cfg, h, start, end, limits)) == Open(h[start..end])
  {
    var wires := Wires(cfg, h, limits);
    forall i, pending | 0 <= i < |h| ensures OpenFrom(pending, wires[i]) == Feed(pending, h[i]) {
      WireKeepsFeed(cfg, h, i, limits, pending);
    }
    FlattenKeepsOpen(wires[start..end], h[start..end], []);
  }

  /** Alignment only ever cuts where every call so far is answered. */
  lemma TailIsSelfContained(h: seq<Message>, active: Option<Summary>)
    requires Open(h).Some?
    ensures var start := TailStart(h, active);
            start < |h| ==> Paired(h[..start]) && Open(h[start..]) == Open(h)
  {
    var start := TailStart(h, active);
    OpenToolsFollow(h);
    if start < |h| {
      if 0 < start {
        AlignNeverForward(h, active.value.covers);
        OnlyToolsInsideBlocks(h, start);
      } else {
        assert h[..0] == [];
      }
      OpenPrefix(h, start);
    }
  }

  lemma {:induction false} LeadingSystems(systems: seq<Message>, tail: seq<Message>)
    requires forall i :: 0 <= i < |systems| ==> systems[i].System?
    ensures Open(systems + tail) == Open(tail)
    decreases |systems|
  {
    if systems == [] {
      assert systems + tail == tail;
    } else {
      var n := |systems| - 1;
      LeadingSystems(systems[..n], [systems[n]] + tail);
      assert systems + tail == systems[..n] + ([systems[n]] + tail);
      OpenFromConcat([], [systems[n]], tail);
    }
  }

  /** The system messages put in front of the tail. */
  function Preamble(cfg: Config, h: seq<Message>, active: Option<Summary>, reinjected: Option<string>)
    : (r: seq<Message>)
    ensures forall i :: 0 <= i < |r| ==> r[i].System?
  {
    if !InForce(h, active) then []
    else
      [System(cfg.summaryTag + Strip(active.value.text))]
      + (if reinjected.Some? then [System(reinjected.value)] else [])
  }

  /** Without a record, or with one that is blank or out of range, all of the history is sent and nothing else. */
  lemma WholeHistoryWithoutRecord(cfg: Config, h: seq<Message>, active: Option<Summary>, reinjected: Option<string>,
                                  limits: map<nat, int>)
    requires active.Some? ==> IsBlank(active.value.text) || active.value.covers < 0 || active.value.covers > |h|
    ensures Built(cfg, h, active, reinjected, limits) == Expanded(cfg, h, 0, |h|, limits)
  {
    if active.Some? { BlankStrips(active.value.text); }
  }

  /** With a record in range its text is sent first, white space around it apart, then the re-injected results if
      there are any, and then every message the record does not cover, in order, behind at most the covered part of
      the tool turn its end falls into. */
  lemma RecordThenTail(cfg: Config, h: seq<Message>, lead: string, text: string, trail: string, covers: nat,
                       reinjected: Option<string>, limits: map<nat, int>) returns (start: nat)
    requires covers <= |h| && Open(h).Some?
    requires IsBlank(lead) && IsBlank(trail) && IsStripped(text) && text != ""
    ensures start <= covers
    ensures Built(cfg, h, Some(Summary(lead + text + trail, covers)), reinjected, limits) ==
            [System(cfg.summaryTag + text)] + (if reinjected.Some? then [System(reinjected.value)] else [])
            + Expanded(cfg, h, start, |h|, limits)
    ensures start < covers ==> covers < |h| && h[start].Requests() && forall i :: start < i <= covers ==> h[i].Tool?
  {
    StripFindsCore(lead, text, trail);
    start := BuiltOnRecord(cfg, h, Summary(lead + text + trail, covers), text, reinjected, limits);
    OpenToolsFollow(h);
    AlignNeverForward(h, covers);
    AlignFindsRequest(h, covers);
  }

  lemma BuiltOnRecord(cfg: Config, h: seq<Message>, s: Summary, text: string, reinjected: Option<string>,
                      limits: map<nat, int>) returns (start: nat)
    requires 0 <= s.covers <= |h| && Strip(s.text) == text != ""
    ensures start == Align(h, s.covers) <= |h|
    ensures Built(cfg, h, Some(s), reinjected, limits) ==
            [System(cfg.summaryTag + text)] + (if reinjected.Some? then [System(reinjected.value)] else [])
            + Expanded(cfg, h, start, |h|, limits)
  {
    start := Align(h, s.covers);
  }

  /** The record covers everything. */
  predicate CoversAll(h: seq<Message>, active: Option<Summary>) {
    active.Some? && !IsBlank(active.value.text) && active.value.covers == |h|
  }

  lemma TailIsEmptyIff(h: seq<Message>, active: Option<Summary>)
    requires Open(h).Some?
    ensures TailStart(h, active) == |h| <==> h == [] || CoversAll(h, active)
  {
    OpenToolsFollow(h);
    if active.Some? {
      BlankStrips(active.value.text);
      AlignNeverForward(h, active.value.covers);
    }
  }

  /** The projection keeps the tool protocol: for every history the runner keeps, any active record, any
      re-injection and any budgets, what is sent leaves open exactly what the history leaves open. Only a record that
      covers everything, open calls included, leaves nothing open. */
  lemma ProjectionKeepsProtocol(cfg: Config, h: seq<Message>, active: Option<Summary>, reinjected: Option<string>,
                                limits: map<nat, int>)
    requires Open(h).Some?
    ensures var r := Open(Built(cfg, h, active, reinjected, limits));
            if CoversAll(h, active) then r == Some([]) else r == Open(h)
  {
    TailIsEmptyIff(h, active);
    var start := TailStart(h, active);
    ExpansionKeepsOpen(cfg, h, start, |h|, limits);
    TailIsSelfContained(h, active);
    InFrontOfTail(Preamble(cfg, h, active, reinjected), Expanded(cfg, h, start, |h|, limits), h, start);
  }

  lemma InFrontOfTail(systems: seq<Message>, tail: seq<Message>, h: seq<Message>, start: nat)
    requires start <= |h| && forall i :: 0 <= i < |systems| ==> systems[i].System?
    requires Open(tail) == Open(h[start..|h|]) && (start < |h| ==> Open(h[start..]) == Open(h))
    ensures Open(systems + tail) == if start < |h| then Open(h) else Some([])
  {
    LeadingSystems(systems, tail);
    assert h[start..|h|] == h[start..];
  }

  /** What the provider sees of tools: which calls were asked, by id and name, and which were answered. */
  datatype Mention = Asked(id: string, name: string) | Answered(id: string)

  function AskedIn(calls: seq<Call>): (r: seq<Mention>) {
    if calls == [] then [] else AskedIn(calls[..|calls| - 1]) + [Asked(calls[|calls| - 1].id, calls[|calls| - 1].name)]
  }

  function MentionsOf(m: Message): (r: seq<Mention>) {
    match m
    case Assistant(_, _, calls) => AskedIn(calls)
    case Tool(id, _) => [Answered(id)]
    case _ => []
  }

  function MentionLists(h: seq<Message>): (r: seq<seq<Mention>>)
    ensures |r| == |h| && forall i :: 0 <= i < |h| ==> r[i] == MentionsOf(h[i])
  {
    seq(|h|, i requires 0 <= i < |h| => MentionsOf(h[i]))
  }

  function Mentions(h: seq<Message>): (r: seq<Mention>) { Flatten(MentionLists(h)) }

  lemma MentionsConcat(a: seq<Message>, b: seq<Message>)
    ensures Mentions(a + b) == Mentions(a) + Mentions(b)
  {
    assert MentionLists(a + b) == MentionLists(a) + MentionLists(b);
    FlattenConcat(MentionLists(a), MentionLists(b));
  }

  lemma {:induction false} AskedAlike(cfg: Config, calls: seq<Call>)
    ensures AskedIn(WireCalls(cfg, calls)) == AskedIn(calls)
    decreases |calls|
  {
    if calls != [] {
      var init := calls[..|calls| - 1];
      AskedAlike(cfg, init);
      assert WireCalls(cfg, calls)[..|calls| - 1] == WireCalls(cfg, init);
    }
  }

  lemma MentionsOfOne(m: Message)
    ensures Mentions([m]) == MentionsOf(m)
  {
    assert MentionLists([m]) == [MentionsOf(m)];
    FlattenOne(MentionsOf(m));
  }

  lemma WireMentions(cfg: Config, h: seq<Message>, i: nat, limits: map<nat, int>)
    requires i < |h|
    ensures Mentions(WireOf(cfg, h, i, limits)) == MentionsOf(h[i])
  {
    var r := WireOf(cfg, h, i, limits);
    MentionsOfOne(r[|r| - 1]);
    match h[i]
    case User(_, _, _, metadata) =>
      if metadata != "" {
        MentionsOfOne(r[0]);
        assert r == [r[0]] + [r[1]];
        MentionsConcat([r[0]], [r[1]]);
      }
    case Assistant(_, _, calls) => AskedAlike(cfg, calls);
    case _ =>
  }

  lemma {:induction false} FlattenKeepsMentions(wires: seq<seq<Message>>, h: seq<Message>)
    requires |wires| == |h| && forall i :: 0 <= i < |h| ==> Mentions(wires[i]) == MentionsOf(h[i])
    ensures Mentions(Flatten(wires)) == Mentions(h)
    decreases |h|
  {
    if h != [] {
      var n := |h| - 1;
      FlattenKeepsMentions(wires[..n], h[..n]);
      MentionsConcat(Flatten(wires[..n]), wires[n]);
      assert MentionLists(h)[..n] == MentionLists(h[..n]);
    }
  }

  /** Ids, names and order of every call and result of the tail are sent unchanged. */
  lemma ExpansionKeepsMentions(cfg: Config, h: seq<Message>, start: nat, end: nat, limits: map<nat, int>)
    requires start <= end <= |h|
    ensures Mentions(Expanded(cfg, h, start, end, limits)) == Mentions(h[start..end])
  {
    var wires := Wires(cfg, h, limits);
    forall i | 0 <= i < |h| ensures Mentions(wires[i]) == MentionsOf(h[i]) { WireMentions(cfg, h, i, limits); }
    MentionSlice(wires, h, start, end);
  }

  lemma MentionSlice(wires: seq<seq<Message>>, h: seq<Message>, start: nat, end: nat)
    requires |wires| == |h| && start <= end <= |h|
    requires forall i :: 0 <= i < |h| ==> Mentions(wires[i]) == MentionsOf(h[i])
    ensures Mentions(Flatten(wires[start..end])) == Mentions(h[start..end])
  {
    FlattenKeepsMentions(wires[start..end], h[start..end]);
  }
}
