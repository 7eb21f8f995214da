// The newest user message trimmed so that the tail stays under the hard cap
// (src/flops_agent/engine/compaction.py).
module RegimeB {
  import opened Prelude
  import opened Messages
  import opened Trim
  import opened Whitespace
  import opened Projection
  import SplitSearch

  /** The newest user message from `start` on; -1 if there is none. */
  function LatestUser(h: seq<Message>, start: nat): (u: int)
    requires start <= |h|
    ensures u == -1 || (start <= u < |h| && h[u].User?)
    ensures forall i :: start <= i < |h| && u < i ==> !h[i].User?
    decreases |h|
  {
    if start == |h| then -1
    else if h[|h| - 1].User? then |h| - 1
    else LatestUser(h[..|h| - 1], start)
  }

  /** Weight of the tail from `start` without message `u`. */
  function Others(w: seq<nat>, start: nat, u: nat): (n: nat)
    requires start <= u < |w|
  {
    Sum(w[start..u]) + Sum(w[u + 1..])
  }

  method FindLatestUser(h: seq<Message>, start: nat) returns (u: int)
    requires start <= |h|
    ensures u == LatestUser(h, start)
  {
    u := |h| - 1;
    while u >= start && !h[u].User?
      invariant start - 1 <= u < |h| && forall k :: u < k < |h| ==> !h[k].User?
    {
      u := u - 1;
    }
    if u < start { u := -1; }
  }

  /** The override: which user message gets which budget, given the weights of all messages. */
  method LatestUserOverride(userTrim: bool, h: seq<Message>, w: seq<nat>, start: nat, injection: int, overhead: int,
                            hardMax: int, safety: int, floor: int)
    returns (r: Option<(nat, int)>)
    requires start <= |h| == |w|
    ensures r.None? <==> !userTrim || LatestUser(h, start) == -1
    ensures r.Some? ==> r.value.0 == LatestUser(h, start)
    ensures r.Some? ==>
              r.value.1 == LatestUserBudget(hardMax, injection, overhead, Others(w, start, r.value.0), safety, floor)
  {
    if !userTrim { return None; }
    var u := FindLatestUser(h, start);
    if u == -1 { return None; }
    var before := SplitSearch.SliceTotal(w, start, u);
    var behind := SplitSearch.SliceTotal(w, u + 1, |w|);
    assert w[u + 1..|w|] == w[u + 1..];
    return Some((u, LatestUserBudget(hardMax, injection, overhead, before + behind, safety, floor)));
  }

  /** The metadata line in front of a user message. */
  function MetadataLine(cfg: Config, m: Message): (n: nat)
    requires m.User?
  {
    if Strip(m.metadata) == "" then 0 else |cfg.metadataPrefix + Strip(m.metadata)|
  }

  /** That line as it is sent, unstripped. */
  function SentMetadata(cfg: Config, m: Message): (n: nat)
    requires m.User?
  {
    if m.metadata == "" then 0 else |cfg.metadataPrefix + m.metadata|
  }

  /** What message `i` is sent with beyond its weight: the part of an exempt result that weighing trims, and the white
      space around metadata. */
  function Surplus(cfg: Config, h: seq<Message>, i: nat): (n: int)
    requires i < |h|
  {
    if Exempt(cfg, h, i) then |h[i].content| - |ToolText(cfg, h[i].content, TierOf(cfg, ToolsFrom(h, i + 1)), "")|
    else if h[i].User? then SentMetadata(cfg, h[i]) - MetadataLine(cfg, h[i])
    else 0
  }

  function Surpluses(cfg: Config, h: seq<Message>): (extra: seq<int>)
    ensures |extra| == |h| && forall i :: 0 <= i < |h| ==> extra[i] == Surplus(cfg, h, i)
  {
    seq(|h|, i requires 0 <= i < |h| => Surplus(cfg, h, i))
  }

  /** Total from `i` on, entry `u` left out. */
  function TotalBut(extra: seq<int>, i: nat, u: nat): (n: int)
    requires i <= |extra|
    decreases |extra| - i
  {
    if i == |extra| then 0 else (if i == u then 0 else extra[i]) + TotalBut(extra, i + 1, u)
  }

  /** The surplus of the tail without message `u`. */
  function Excess(cfg: Config, h: seq<Message>, i: nat, u: nat): (n: int)
    requires i <= |h|
  {
    TotalBut(Surpluses(cfg, h), i, u)
  }

  lemma SizeWithSurplus(cfg: Config, h: seq<Message>, i: nat)
    requires i < |h|
    ensures SizeAll(WireOf(cfg, h, i, map[])) == Weights(cfg, h)[i] + Surplus(cfg, h, i)
  {
    match h[i]
    case User(_, _, _, metadata) => UserSize(cfg, metadata, UserText(cfg, h[i], cfg.userMax));
    case Assistant(content, reasoning, calls) => AssistantSize(cfg, content, reasoning, calls);
    case System(content) => TextSize(System(content));
    case Tool(id, content) =>
      TextSize(Tool(id, ToolText(cfg, content, TierOf(cfg, ToolsFrom(h, i + 1)), NameOf(h, id))));
  }

  lemma OverriddenSize(cfg: Config, h: seq<Message>, u: nat, m: int)
    requires u < |h| && h[u].User?
    ensures SizeAll(WireOf(cfg, h, u, map[u := m])) == |UserText(cfg, h[u], m)| + SentMetadata(cfg, h[u])
  {
    UserSize(cfg, h[u].metadata, UserText(cfg, h[u], m));
  }

  lemma SameWithoutOverride(cfg: Config, h: seq<Message>, u: nat, m: int, i: nat)
    requires u < |h| && i < |h| && i != u
    ensures WireOf(cfg, h, i, map[u := m]) == WireOf(cfg, h, i, map[])
  {
  }

  lemma OtherSize(cfg: Config, h: seq<Message>, u: nat, m: int, i: nat)
    requires u < |h| && i < |h| && i != u
    ensures SizeAll(WireOf(cfg, h, i, map[u := m])) == Weights(cfg, h)[i] + Surplus(cfg, h, i)
  {
    SameWithoutOverride(cfg, h, u, m, i);
    SizeWithSurplus(cfg, h, i);
  }

  /** `v` is `w` with `extra` added everywhere but at `u`. */
  ghost predicate WithExtra(w: seq<nat>, extra: seq<int>, v: seq<nat>, u: nat) {
    |extra| == |w| == |v| && forall i :: 0 <= i < |w| && i != u ==> v[i] == w[i] + extra[i]
  }

  lemma SumHead(w: seq<nat>, i: nat)
    requires i < |w|
    ensures Sum(w[i..]) == w[i] + Sum(w[i + 1..])
  {
    assert w[i..][1..] == w[i + 1..];
  }

  lemma {:induction false} ExtraBehind(w: seq<nat>, extra: seq<int>, v: seq<nat>, u: nat, i: nat)
    requires WithExtra(w, extra, v, u) && u < i <= |w|
    ensures Sum(v[i..]) == Sum(w[i..]) + TotalBut(extra, i, u)
    decreases |w| - i
  {
    if i < |w| {
      ExtraBehind(w, extra, v, u, i + 1);
      SumHead(v, i);
      SumHead(w, i);
    }
  }

  lemma {:induction false} ExtraAddsUp(w: seq<nat>, extra: seq<int>, v: seq<nat>, u: nat, i: nat)
    requires WithExtra(w, extra, v, u) && i <= u < |w|
    ensures Sum(v[i..]) == Others(w, i, u) + v[u] + TotalBut(extra, i, u)
    decreases u - i
  {
    SumHead(v, i);
    if i == u {
      ExtraBehind(w, extra, v, u, i + 1);
      assert w[i..u] == [];
    } else {
      ExtraAddsUp(w, extra, v, u, i + 1);
      assert w[i..u][1..] == w[i + 1..u];
    }
  }

  lemma SentSizes(cfg: Config, h: seq<Message>, u: nat, m: int) returns (v: seq<nat>)
    requires u < |h| && h[u].User?
    ensures WithExtra(Weights(cfg, h), Surpluses(cfg, h), v, u)
    ensures v[u] == |UserText(cfg, h[u], m)| + SentMetadata(cfg, h[u])
    ensures forall i :: 0 <= i < |h| ==> v[i] == SizeAll(Wires(cfg, h, map[u := m])[i])
  {
    v := seq(|h|, i requires 0 <= i < |h| => SizeAll(WireOf(cfg, h, i, map[u := m])));
    forall i | 0 <= i < |h| && i != u ensures v[i] == Weights(cfg, h)[i] + Surplus(cfg, h, i) {
      OtherSize(cfg, h, u, m, i);
    }
    OverriddenSize(cfg, h, u, m);
  }

  lemma SentInAll(wires: seq<seq<Message>>, v: seq<nat>, start: nat)
    requires start <= |v| == |wires| && forall i :: 0 <= i < |v| ==> v[i] == SizeAll(wires[i])
    ensures SizeAll(Flatten(wires[start..|v|])) == Sum(v[start..])
  {
    SizesDominate(wires, v, start, |v|);
    assert v[start..|v|] == v[start..];
  }

  /** The size of the whole tail as sent when the newest user message gets the budget `m`. */
  lemma TailSize(cfg: Config, h: seq<Message>, start: nat, u: nat, m: int)
    requires start <= u < |h| && h[u].User?
    ensures SizeAll(Expanded(cfg, h, start, |h|, map[u := m])) ==
            Others(Weights(cfg, h), start, u) + |UserText(cfg, h[u], m)| + SentMetadata(cfg, h[u])
            + Excess(cfg, h, start, u)
  {
    var v := SentSizes(cfg, h, u, m);
    ExtraAddsUp(Weights(cfg, h), Surpluses(cfg, h), v, u, start);
    SentInAll(Wires(cfg, h, map[u := m]), v, start);
  }

  /** Regime B without any exception: the tail as sent, its newest user message's metadata line apart, keeps the hard
      cap less overhead, injection and safety iff that message's text and the excess fit what the others leave. */
  lemma TailUnderHardCapIff(cfg: Config, h: seq<Message>, start: nat, u: nat, m: int,
                            injection: nat, overhead: nat, hardMax: int, safety: int)
    requires start <= u < |h| && h[u].User?
    ensures var cap := hardMax - overhead - injection - safety;
            SizeAll(Expanded(cfg, h, start, |h|, map[u := m])) - SentMetadata(cfg, h[u]) <= cap <==>
            |UserText(cfg, h[u], m)| + Excess(cfg, h, start, u) <= cap - Others(Weights(cfg, h), start, u)
  {
    TailSize(cfg, h, start, u, m);
  }

  lemma {:induction false} NoExcess(cfg: Config, h: seq<Message>, i: nat, u: nat)
    requires i <= |h| && cfg.exempt == {} && forall j :: i <= j < |h| && j != u ==> PlainMetadata(h[j])
    ensures Excess(cfg, h, i, u) == 0
    decreases |h| - i
  {
    if i < |h| {
      if i != u && h[i].User? { StripIsIdleIff(h[i].metadata); }
      NoExcess(cfg, h, i + 1, u);
    }
  }

  /** So with the newest user message trimmed to the budget `m` computed for it, and nothing else sent beyond its
      weight, the cap is kept whenever the budget is above its floor. */
  lemma TailUnderHardCap(cfg: Config, h: seq<Message>, digits: nat, start: nat, u: nat, m: int,
                         injection: nat, overhead: nat, hardMax: int, safety: int, floor: int)
    requires start <= u < |h| && LatestUser(h, start) == u
    requires m == LatestUserBudget(hardMax, injection, overhead, Others(Weights(cfg, h), start, u), safety, floor)
    requires cfg.userTrim && cfg.exempt == {}
    requires forall i :: start <= i < |h| && i != u ==> PlainMetadata(h[i])
    requires |cfg.textWording.omitted.before| + |cfg.textWording.omitted.after| <= 120
    requires !(cfg.noticeExempt && h[u].notice) && m > floor >= 4_000
    requires 0 < digits <= 3_800 && |h[u].content| < Pow10(digits)
    ensures SizeAll(Expanded(cfg, h, start, |h|, map[u := m])) - SentMetadata(cfg, h[u])
            <= hardMax - overhead - injection - safety
  {
    var others := Others(Weights(cfg, h), start, u);
    TailSize(cfg, h, start, u, m);
    NoExcess(cfg, h, start, u);
    TailStaysUnderHardCap(cfg.textWording, h[u].content, digits, hardMax, injection, overhead, others, safety, floor);
  }

  /** A notice of 5000 characters as the newest user message is sent whole, past a cap that leaves it 4500. */
  lemma NoticeExceedsCap(cfg: Config) returns (h: seq<Message>, m: int)
    requires cfg.noticeExempt
    ensures |h| == 1 && h[0].User? && LatestUser(h, 0) == 0
    ensures m == LatestUserBudget(4_500, 0, 0, Others(Weights(cfg, h), 0, 0), 0, 4_000) == 4_500
    ensures SizeAll(Expanded(cfg, h, 0, 1, map[0 := m])) - SentMetadata(cfg, h[0]) == 5_000
  {
    h, m := [User(seq(5_000, _ => 'x'), false, true, "")], 4_500;
    var w := Weights(cfg, h);
    assert w[0..0] == [] && w[1..] == [];
    TailSize(cfg, h, 0, 0, m);
    assert TotalBut(Surpluses(cfg, h), 1, 0) == 0;
  }
}
