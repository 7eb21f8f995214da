// When to compact, which stored summary to use, and the store that holds them
// (src/flops_agent/engine/compaction.py, src/flops_agent/seams/compaction_store.py). Token counts are given.
module Compaction {
  import opened Prelude
  import opened Messages
  import opened Alignment
  import opened SplitSearch

  /** An exact fraction; the product with a window is rounded down. */
  datatype Fraction = Fraction(num: nat, den: nat) {
    ghost predicate Valid() { den > 0 }
    function Of(w: nat): (r: nat)
      requires Valid()
    {
      w * num / den
    }
  }

  datatype Policy = Policy(
    enabled: bool,
    minTokens: int, maxTokensAbs: int, hardMaxTokensAbs: int, minTailTokensAbs: int, minTailMessages: int,
    maxWindow: Fraction, minWindow: Fraction, minTailWindow: Fraction,
    smallWindowFloor: nat, reserved: nat)
  {
    ghost predicate Valid() { maxWindow.Valid() && minWindow.Valid() && minTailWindow.Valid() }
  }

  /** The values a product starts from. */
  function DefaultPolicy(): (p: Policy)
    ensures p.Valid()
  {
    Policy(false, 0, 64_000, 80_000, 20_000, 0, Fraction(66, 100), Fraction(33, 100), Fraction(25, 100), 20_000, 20)
  }

  function Max(a: int, b: int): int { if a < b then b else a }
  function Min(a: int, b: int): int { if a < b then a else b }

  /** The window if it is large enough to be used, else 0. */
  function Usable(p: Policy, window: nat): (w: nat) { if window >= p.smallWindowFloor then window else 0 }

  function Trigger(p: Policy, window: nat): (t: int)
    requires p.Valid()
    ensures t >= 1
  {
    var w := Usable(p, window);
    Max(1, if w > 0 then p.maxWindow.Of(w) else p.maxTokensAbs)
  }

  function HardMax(p: Policy, window: nat): (t: int)
    requires p.Valid()
  {
    var w := Usable(p, window);
    Max(Trigger(p, window) + 1, if w > 0 then w * 95 / 100 else p.hardMaxTokensAbs)
  }

  function MinTail(p: Policy, window: nat): (t: int)
    requires p.Valid()
  {
    var w := Usable(p, window);
    if w == 0 then p.minTailTokensAbs else Max(0, Min(p.minTailTokensAbs, p.minTailWindow.Of(w)))
  }

  datatype Thresholds = Thresholds(trigger: int, low: int, high: int)

  function ThresholdsOf(p: Policy, window: nat): (t: Thresholds)
    requires p.Valid()
  {
    var trigger := Trigger(p, window);
    var w := Usable(p, window);
    if w == 0 then Thresholds(trigger, p.minTokens, trigger)
    else
      var wanted := Max(1, p.minWindow.Of(w));
      var minTail := MinTail(p, window);
      var least := minTail + Max(4_000, minTail / 2);
      var high :=
        if wanted >= least then wanted
        else if trigger - 1 > least then Min(trigger - 1, least)
        else least;
      Thresholds(trigger, Max(0, high - Max(1, high / 4)), high)
  }

  /** With the default policy every usable window leaves room between the lines: the target band lies below the
      trigger, the trigger below the hard cap, the hard cap within the window, and the minimum tail, with a
      margin of 4000, below the target. */
  lemma LinesAreOrdered(window: nat)
    requires window >= 20_000
    ensures var t := ThresholdsOf(DefaultPolicy(), window);
            && 0 <= t.low < t.high < t.trigger < HardMax(DefaultPolicy(), window) <= window
            && MinTail(DefaultPolicy(), window) + 4_000 <= t.high
  {
    var minTail := MinTail(DefaultPolicy(), window);
    assert minTail == if window / 4 < 20_000 then window / 4 else 20_000;
  }

  /** Strictly above the target, the trigger leaves a hysteresis band exactly when the window is usable. */
  lemma HysteresisIff(window: nat)
    ensures var t := ThresholdsOf(DefaultPolicy(), window);
            t.high < t.trigger <==> window >= 20_000
  {
    if window >= 20_000 { LinesAreOrdered(window); }
  }

  /** The default lines in numbers. Without a usable window: trigger and target 64000, hard cap 80000, tail 20000.
      With one: 66, 95 and 25 percent of it for trigger, hard cap and tail, the tail at most 20000; and for the target
      33 percent or, if that is more, the tail and half of it again, at least 4000. */
  lemma DefaultLines(window: nat)
    ensures var t, hard, tail := ThresholdsOf(DefaultPolicy(), window), HardMax(DefaultPolicy(), window),
                                 MinTail(DefaultPolicy(), window);
            if window < 20_000 then t == Thresholds(64_000, 0, 64_000) && hard == 80_000 && tail == 20_000
            else
              && 100 * t.trigger <= 66 * window < 100 * (t.trigger + 1)
              && 100 * hard <= 95 * window < 100 * (hard + 1)
              && (if window < 80_000 then 100 * tail <= 25 * window < 100 * (tail + 1) else tail == 20_000)
              && 33 * window < 100 * (t.high + 1) && tail + Max(4_000, tail / 2) <= t.high
              && (100 * t.high <= 33 * window || t.high == tail + Max(4_000, tail / 2))
              && t.low == t.high - t.high / 4
  {
  }

  // ----- Planning -------------------------------------------------------------------

  /** A stored summary: `injection` is what it costs on the wire, tag included, `length` its stripped length. */
  datatype Record = Record(id: string, covers: int, length: nat, injection: nat)

  /** Everything a judgment depends on besides the active record. */
  datatype Conversation = Conversation(policy: Policy, h: seq<Message>, w: seq<nat>, overhead: nat, window: nat) {
    ghost predicate Valid() { policy.Valid() && |h| == |w| }
  }

  function Covered(active: Option<Record>): (n: nat) {
    if active.Some? && active.value.covers > 0 then active.value.covers else 0
  }

  function Injected(active: Option<Record>): (n: nat) {
    if active.Some? && active.value.length > 0 then active.value.injection else 0
  }

  /** Tokens of everything from `start` on. */
  function TailTokens(w: seq<nat>, start: nat): (t: nat) { if start <= |w| then Sum(w[start..]) else 0 }

  function LimitsOf(c: Conversation, active: Option<Record>): (lim: Limits)
    requires c.Valid()
  {
    var t := ThresholdsOf(c.policy, c.window);
    Limits(t.low, t.high, c.overhead + Injected(active), c.policy.reserved,
           MinTail(c.policy, c.window), c.policy.minTailMessages)
  }

  /** Where a new summary should end, if one is needed. */
  function Plan(c: Conversation, active: Option<Record>): (r: Option<nat>)
    requires c.Valid()
  {
    if !c.policy.enabled || |c.h| < 2 then None
    else if c.overhead + Injected(active) + TailTokens(c.w, Covered(active)) <= Trigger(c.policy, c.window) then None
    else
      var n := IdealCovers(c.h, c.w, LimitsOf(c, active));
      if n <= Covered(active) || n >= |c.h| then None else Some(n)
  }

  /** A plan's summary covers strictly more than the one before it, and never everything. */
  lemma PlanExtends(c: Conversation, active: Option<Record>)
    requires c.Valid() && Plan(c, active).Some?
    ensures Covered(active) < Plan(c, active).value < |c.h| && c.policy.enabled && |c.h| >= 2
  {
  }

  /** What is weighed against the trigger: overhead, the active summary, and what it does not cover. */
  function Used(c: Conversation, active: Option<Record>): (t: nat) {
    c.overhead
    + (if active.Some? && active.value.length > 0 then active.value.injection else 0)
    + (if active.None? || active.value.covers <= 0 then Sum(c.w)
       else if active.value.covers <= |c.w| then Sum(c.w[active.value.covers..]) else 0)
  }

  /** With everything from `start` on kept the total lies in the target range. */
  predicate InTarget(c: Conversation, active: Option<Record>, start: int)
    requires c.Valid()
  {
    0 <= start <= |c.w| &&
    ThresholdsOf(c.policy, c.window).low <= c.overhead + Injected(active) + Sum(c.w[start..])
      <= ThresholdsOf(c.policy, c.window).high
  }

  /** Nothing is planned below the trigger. Above it, if some split within the target range is allowed and covers more
      than the active record, one is planned that covers at least as much and brings the total into the range. */
  lemma PlanWhenNeeded(c: Conversation, active: Option<Record>, m: nat)
    requires c.Valid() && ToolsFollow(c.h) && |c.h| >= 2 && c.policy.enabled
    requires 0 <= ThresholdsOf(c.policy, c.window).low < ThresholdsOf(c.policy, c.window).high
    ensures Used(c, active) <= ThresholdsOf(c.policy, c.window).trigger ==> Plan(c, active).None?
    ensures Used(c, active) > ThresholdsOf(c.policy, c.window).trigger && MayEndAt(c.h, c.w, LimitsOf(c, active), m) &&
            InTarget(c, active, Align(c.h, m)) && Align(c.h, m) > Covered(active) ==>
              && Plan(c, active).Some? && Plan(c, active).value >= Align(c.h, m)
              && InTarget(c, active, Plan(c, active).value)
  {
    assert c.w[0..] == c.w;
    if MayEndAt(c.h, c.w, LimitsOf(c, active), m) { TargetIsPreferred(c.h, c.w, LimitsOf(c, active), m); }
  }

  /** The record active before the i-th one was planned. */
  function Before(records: seq<Record>, i: nat): (r: Option<Record>)
    requires i <= |records|
  {
    if i == 0 then None else Some(records[i - 1])
  }

  /** Each record was planned while the one before it was active. */
  ghost predicate IsChain(c: Conversation, records: seq<Record>)
    requires c.Valid()
  {
    forall i :: 0 <= i < |records| ==>
      records[i].covers >= 0 && Plan(c, Before(records, i)) == Some(records[i].covers)
  }

  /** On fixed messages any chain of compactions strictly gains coverage, so it has fewer links than messages. */
  lemma {:induction false} ChainEnds(c: Conversation, records: seq<Record>, k: nat)
    requires c.Valid() && IsChain(c, records) && k < |records|
    ensures k < records[k].covers < |c.h|
    decreases k
  {
    PlanExtends(c, Before(records, k));
    if k > 0 { ChainEnds(c, records, k - 1); }
  }

  /** The search reached its target: the planned total is at most the target's upper line. */
  predicate OnTarget(c: Conversation, active: Option<Record>, n: nat)
    requires c.Valid()
  {
    c.overhead + Injected(active) + TailTokens(c.w, n) <= ThresholdsOf(c.policy, c.window).high
  }

  /** It does so whenever one of its first two passes accepts a candidate. */
  lemma FirstPassesAreOnTarget(c: Conversation, active: Option<Record>)
    requires c.Valid() && c.h != [] && ToolsFollow(c.h)
    requires ThresholdsOf(c.policy, c.window).low < ThresholdsOf(c.policy, c.window).high
    requires ThresholdsOf(c.policy, c.window).high > 0
    requires !FirstPass(c.h, c.w, LimitsOf(c, active)).NotBelow?
    ensures var n := IdealCovers(c.h, c.w, LimitsOf(c, active));
            0 <= n < |c.h| && OnTarget(c, active, n)
  {
    SearchMeetsItsLimits(c.h, c.w, LimitsOf(c, active));
  }

  // ----- Repairing the active record ------------------------------------------------

  function Bounds(p: Policy, window: nat): (b: (int, int))
    requires p.Valid()
  {
    var high := Trigger(p, window);
    (p.minTokens, if high <= p.minTokens then p.minTokens + 1 else high)
  }

  /** Total tokens when the record is used. */
  function Combined(c: Conversation, r: Record): (t: nat)
    requires c.Valid() && 0 <= r.covers < |c.h|
  {
    c.overhead + r.injection + Sum(c.w[Align(c.h, r.covers)..])
  }

  /** In range of the conversation, of the tokens, and of the tail constraints. */
  predicate Acceptable(c: Conversation, r: Record)
    requires c.Valid()
  {
    && 0 <= r.covers < |c.h|
    && Bounds(c.policy, c.window).0 <= Combined(c, r) <= Bounds(c.policy, c.window).1
    && TailOk(c.w, Align(c.h, r.covers), MinTail(c.policy, c.window), c.policy.minTailMessages)
  }

  /** May be taken from the archive. */
  predicate Eligible(c: Conversation, r: Record)
    requires c.Valid()
  {
    Acceptable(c, r) && r.length >= 40 && r.id != ""
  }

  /** The first archived record among the eligible ones with the largest coverage. */
  function Best(c: Conversation, archive: seq<Record>): (r: Option<Record>)
    requires c.Valid()
    ensures r.Some? ==> r.value in archive && Eligible(c, r.value)
    ensures forall x :: x in archive && Eligible(c, x) ==> r.Some? && x.covers <= r.value.covers
  {
    if archive == [] then None
    else
      var before := Best(c, archive[..|archive| - 1]);
      var last := archive[|archive| - 1];
      assert archive == archive[..|archive| - 1] + [last];
      if Eligible(c, last) && (before.None? || last.covers > before.value.covers) then Some(last) else before
  }

  /** Of eligible records of the same coverage the first is taken. */
  lemma {:induction false} FirstOfLargest(c: Conversation, archive: seq<Record>) returns (i: nat)
    requires c.Valid() && Best(c, archive).Some?
    ensures i < |archive| && Best(c, archive) == Some(archive[i])
    ensures forall j :: 0 <= j < i && Eligible(c, archive[j]) ==> archive[j].covers < archive[i].covers
    decreases |archive|
  {
    var n := |archive| - 1;
    if Best(c, archive[..n]) == Best(c, archive) {
      i := FirstOfLargest(c, archive[..n]);
    } else {
      i := n;
      assert forall j :: 0 <= j < n ==> archive[j] in archive[..n];
    }
  }

  method TryRehome(c: Conversation, archive: seq<Record>) returns (found: Option<Record>)
    requires c.Valid()
    ensures found == Best(c, archive)
  {
    if |c.h| == 0 {
      return None;
    }
    var bounds := Bounds(c.policy, c.window);
    var minTail := MinTail(c.policy, c.window);
    var suffix := SuffixTotals(c.w);
    found := None;
    for i := 0 to |archive|
      invariant found == Best(c, archive[..i])
    {
      assert archive[..i + 1][..i] == archive[..i];
      var rec := archive[i];
      if !(rec.covers < 0 || rec.covers >= |c.h|) && !(rec.length < 40 || rec.id == "") {
        var start := AdjustTailStart(c.h, rec.covers);
        var ok := TailConstraintsMet(suffix, c.w, start, minTail, c.policy.minTailMessages);
        if ok {
          var combined := c.overhead + rec.injection + suffix[start];
          if bounds.0 <= combined <= bounds.1 && (found.None? || rec.covers > found.value.covers) {
            found := Some(rec);
          }
        }
      }
    }
    assert archive[..|archive|] == archive;
  }

  datatype RepairOutcome = Keep | Change(active: Option<string>, prune: Option<int>)

  /** `pointer`: the stored active id; `active`: the record it resolves to, if any. */
  function Repair(c: Conversation, active: Option<Record>, archive: seq<Record>, pointer: Option<string>)
    : (r: RepairOutcome)
    requires c.Valid()
  {
    if active.Some? && Acceptable(c, active.value) then Keep
    else
      match Best(c, archive)
      case Some(best) => Change(Some(best.id), Some(best.covers))
      case None => if active.None? && (pointer.None? || pointer.value == "") then Keep else Change(None, None)
  }

  method RepairActive(c: Conversation, active: Option<Record>, archive: seq<Record>, pointer: Option<string>)
    returns (r: RepairOutcome)
    requires c.Valid()
    ensures r == Repair(c, active, archive, pointer)
  {
    if active.Some? {
      var covers := active.value.covers;
      var stale := covers < 0 || covers >= |c.h|;
      if !stale {
        var suffix := SuffixTotals(c.w);
        var start := AdjustTailStart(c.h, covers);
        var combined := c.overhead + active.value.injection + suffix[start];
        var ok := TailConstraintsMet(suffix, c.w, start, MinTail(c.policy, c.window), c.policy.minTailMessages);
        var bounds := Bounds(c.policy, c.window);
        if bounds.0 <= combined <= bounds.1 && ok { return Keep; }
      }
    }
    var best := TryRehome(c, archive);
    if best.Some? { return Change(Some(best.value.id), Some(best.value.covers)); }
    if active.None? && (pointer.None? || pointer.value == "") { return Keep; }
    return Change(None, None);
  }

  /** No oscillation: after a plan on target, with the same fixed overhead and a new summary costing at most the
      width of the hysteresis band more than the old one, planning again finds nothing to do and repair keeps
      the new record (given that the range's lower bound is met, as it always is at its default of 0). */
  lemma PlannedRecordStays(c: Conversation, active: Option<Record>, planned: Record, archive: seq<Record>,
                           pointer: Option<string>)
    requires c.Valid() && ToolsFollow(c.h)
    requires Plan(c, active) == Some(planned.covers) && OnTarget(c, active, planned.covers)
    requires planned.injection - Injected(active) <=
             ThresholdsOf(c.policy, c.window).trigger - ThresholdsOf(c.policy, c.window).high
    requires c.policy.minTokens <= Combined(c, planned)
    ensures Plan(c, Some(planned)).None?
    ensures Repair(c, Some(planned), archive, pointer).Keep?
  {
    SearchMeetsItsLimits(c.h, c.w, LimitsOf(c, active));
  }

  // ----- Applying a repair ----------------------------------------------------------

  function Pruned(archive: seq<Record>, cap: int): (r: seq<Record>)
    ensures forall x :: x in r <==> x in archive && x.covers <= cap
  {
    if archive == [] then []
    else
      var last := archive[|archive| - 1];
      assert archive == archive[..|archive| - 1] + [last];
      Pruned(archive[..|archive| - 1], cap) + if last.covers > cap then [] else [last]
  }

  /** The record with an id; ids are unique in an archive. */
  function Lookup(archive: seq<Record>, id: Option<string>): (r: Option<Record>)
    ensures r.Some? ==> r.value in archive && id == Some(r.value.id)
    ensures r.None? && id.Some? ==> forall x :: x in archive ==> x.id != id.value
  {
    if id.None? || archive == [] then None
    else if archive[|archive| - 1].id == id.value then Some(archive[|archive| - 1])
    else
      var init := archive[..|archive| - 1];
      assert archive == init + [archive[|archive| - 1]];
      Lookup(init, id)
  }

  predicate UniqueIds(archive: seq<Record>) {
    forall i, j :: 0 <= i < j < |archive| ==> archive[i].id != archive[j].id
  }

  lemma LookupFinds(archive: seq<Record>, r: Record)
    requires UniqueIds(archive) && r in archive
    ensures Lookup(archive, Some(r.id)) == Some(r)
  {
    var i :| 0 <= i < |archive| && archive[i] == r;
    var found := Lookup(archive, Some(r.id));
    var j :| 0 <= j < |archive| && archive[j] == found.value;
    if i < j { assert archive[i].id != archive[j].id; }
    if j < i { assert archive[j].id != archive[i].id; }
  }

  lemma {:induction false} PruneKeepsUnique(archive: seq<Record>, cap: int)
    requires UniqueIds(archive)
    ensures UniqueIds(Pruned(archive, cap))
    decreases |archive|
  {
    if archive != [] {
      var n := |archive| - 1;
      var init := archive[..n];
      PruneKeepsUnique(init, cap);
      var kept := Pruned(init, cap);
      forall i | 0 <= i < |kept| ensures kept[i].id != archive[n].id {}
    }
  }

  /** The store after a repair: pointer and archive. */
  function Applied(r: RepairOutcome, archive: seq<Record>, pointer: Option<string>)
    : (after: (Option<string>, seq<Record>))
  {
    match r
    case Keep => (pointer, archive)
    case Change(active, prune) => (active, if prune.Some? then Pruned(archive, prune.value) else archive)
  }

  /** A record chosen from the archive is in range, keeps an allowed tail, covers the most of all eligible ones,
      and survives the pruning it causes. */
  lemma RehomedRecordIsBest(c: Conversation, active: Option<Record>, archive: seq<Record>, pointer: Option<string>)
    requires c.Valid() && UniqueIds(archive)
    requires var r := Repair(c, active, archive, pointer); r.Change? && r.active.Some?
    ensures var r := Repair(c, active, archive, pointer);
            var after := Applied(r, archive, pointer);
            var chosen := Lookup(after.1, after.0);
            && chosen.Some? && chosen.value in archive && Eligible(c, chosen.value)
            && (forall x :: x in archive && Eligible(c, x) ==> x.covers <= chosen.value.covers)
            && (forall x :: x in after.1 <==> x in archive && x.covers <= chosen.value.covers)
  {
    var best := Best(c, archive).value;
    PruneKeepsUnique(archive, best.covers);
    LookupFinds(Pruned(archive, best.covers), best);
  }

  /** Repair reaches a fixpoint in one step: once its outcome is applied, repairing again changes nothing. */
  lemma RepairIsSettledInOneStep(c: Conversation, archive: seq<Record>, pointer: Option<string>)
    requires c.Valid() && UniqueIds(archive)
    ensures var after := Applied(Repair(c, Lookup(archive, pointer), archive, pointer), archive, pointer);
            Repair(c, Lookup(after.1, after.0), after.1, after.0).Keep?
  {
    var active := Lookup(archive, pointer);
    var r := Repair(c, active, archive, pointer);
    if r.Change? && r.active.Some? {
      RehomedRecordIsBest(c, active, archive, pointer);
    }
  }

  /** After a repair the record in use, if any, is in range: of the conversation, of the tokens, and of the tail. One
      that already was is kept as it is. None is in use only if no archived one of at least 40 characters is in range
      either, and then the pointer is cleared too. */
  lemma RepairLeavesUsable(c: Conversation, archive: seq<Record>, pointer: Option<string>)
    requires c.Valid() && UniqueIds(archive)
    ensures var active := Lookup(archive, pointer);
            var after := Applied(Repair(c, active, archive, pointer), archive, pointer);
            var chosen := Lookup(after.1, after.0);
            && (chosen.Some? ==> InUse(c, chosen.value))
            && (active.Some? && InUse(c, active.value) ==> after == (pointer, archive))
            && (chosen.Some? && chosen != active ==> chosen.value.length >= 40 && chosen.value.id != "")
            && (chosen.None? ==>
                  && (after.0.None? || after.0.value == "") && after.1 == archive
                  && forall x :: x in archive && x.length >= 40 && x.id != "" ==> !InUse(c, x))
  {
    var active := Lookup(archive, pointer);
    forall x | x in archive ensures Acceptable(c, x) <==> InUse(c, x) { InUseIff(c, x); }
    var r := Repair(c, active, archive, pointer);
    if r.Change? && r.active.Some? {
      RehomedRecordIsBest(c, active, archive, pointer);
    } else {
      assert active.Some? && r.Keep? ==> Acceptable(c, active.value);
    }
  }

  /** The record ends inside the conversation, the total with it is between the least one and the trigger (or one above
      the least, where that is the larger), and it keeps the least number of messages and tokens, or all there are. */
  ghost predicate InUse(c: Conversation, r: Record)
    requires c.Valid()
  {
    0 <= r.covers < |c.h| &&
    var start := Align(c.h, r.covers);
    var total := c.overhead + r.injection + Sum(c.w[start..]);
    && c.policy.minTokens <= total
    && (total <= ThresholdsOf(c.policy, c.window).trigger ||
        (total <= c.policy.minTokens + 1 && ThresholdsOf(c.policy, c.window).trigger <= c.policy.minTokens))
    && (c.policy.minTailMessages > 0 ==> |c.h| - start >= c.policy.minTailMessages || start == 0)
    && (MinTail(c.policy, c.window) > 0 ==>
          Sum(c.w[start..]) >= MinTail(c.policy, c.window) || Sum(c.w[start..]) == Sum(c.w))
  }

  lemma InUseIff(c: Conversation, r: Record)
    requires c.Valid()
    ensures Acceptable(c, r) <==> InUse(c, r)
  {
    if 0 <= r.covers < |c.h| {
      SumOfSuffixes(c.w, 0, Align(c.h, r.covers));
      assert c.w[0..] == c.w;
    }
  }

  // ----- The store ------------------------------------------------------------------

  class InMemoryCompactionStore {
    var archive: map<string, seq<Record>>
    var active: map<string, Option<string>>

    constructor ()
      ensures archive == map[] && active == map[]
    {
      archive, active := map[], map[];
    }

    function Archived(session: string): (records: seq<Record>)
      reads this
    {
      if session in archive then archive[session] else []
    }

    function Pointer(session: string): (id: Option<string>)
      reads this
    {
      if session in active then active[session] else None
    }

    method GetActive(session: string) returns (r: Option<Record>)
      ensures r == Lookup(Archived(session), Pointer(session))
    {
      r := Lookup(Archived(session), Pointer(session));
    }

    method SetActive(session: string, id: Option<string>)
      modifies this`active
      ensures Pointer(session) == id
      ensures forall s: string :: s != session ==> Pointer(s) == old(Pointer(s))
    {
      active := active[session := id];
    }

    method PruneAbove(session: string, cap: int) returns (changed: bool)
      modifies this`archive
      ensures Archived(session) == Pruned(old(Archived(session)), cap)
      ensures changed <==> exists x :: x in old(Archived(session)) && x.covers > cap
      ensures forall s: string :: s != session ==> Archived(s) == old(Archived(s))
    {
      if session !in archive || archive[session] == [] { return false; }
      var bucket := archive[session];
      var kept: seq<Record> := [];
      changed := false;
      for i := 0 to |bucket|
        invariant archive == old(archive)
        invariant kept == Pruned(bucket[..i], cap)
        invariant changed <==> exists x :: x in bucket[..i] && x.covers > cap
      {
        assert bucket[..i + 1][..i] == bucket[..i] && bucket[..i + 1] == bucket[..i] + [bucket[i]];
        if bucket[i].covers > cap { changed := true; } else { kept := kept + [bucket[i]]; }
      }
      assert bucket[..|bucket|] == bucket;
      archive := archive[session := kept];
    }

    /** Stores a record under its id, replacing one of the same id, and makes it active. */
    method AppendAndActivate(session: string, record: Record, prune: Option<int>)
      requires UniqueIds(Archived(session))
      modifies this
      ensures Pointer(session) == Some(record.id) && UniqueIds(Archived(session))
      ensures forall x :: x in Archived(session) <==>
                && (x == record || (x in old(Archived(session)) && x.id != record.id))
                && (prune.Some? ==> x.covers <= prune.value)
    {
      var bucket := Archived(session);
      var i := 0;
      while i < |bucket| && bucket[i].id != record.id
        invariant 0 <= i <= |bucket|
        invariant forall k :: 0 <= k < i ==> bucket[k].id != record.id
      {
        i := i + 1;
      }
      StoredUnderItsId(bucket, record, i);
      archive := archive[session := if i < |bucket| then bucket[i := record] else bucket + [record]];
      active := active[session := Some(record.id)];
      if prune.Some? {
        PruneKeepsUnique(Archived(session), prune.value);
        var _ := this.PruneAbove(session, prune.value);
      }
    }
  }

  lemma StoredUnderItsId(bucket: seq<Record>, record: Record, i: nat)
    requires UniqueIds(bucket) && i <= |bucket| && (forall k :: 0 <= k < i ==> bucket[k].id != record.id)
    requires i < |bucket| ==> bucket[i].id == record.id
    ensures var r := if i < |bucket| then bucket[i := record] else bucket + [record];
            UniqueIds(r) && forall x :: x in r <==> x == record || (x in bucket && x.id != record.id)
  {
    var r := if i < |bucket| then bucket[i := record] else bucket + [record];
    assert r[i] == record;
    forall x ensures x in r <==> x == record || (x in bucket && x.id != record.id) {
      if x in bucket && x.id != record.id {
        var k :| 0 <= k < |bucket| && bucket[k] == x;
        assert r[k] == x;
      }
      if x in r && x != record {
        var k :| 0 <= k < |r| && r[k] == x;
        assert k != i && bucket[k] == x;
        if i < |bucket| {
          assert k < i ==> bucket[k].id != bucket[i].id;
          assert i < k ==> bucket[i].id != bucket[k].id;
        }
      }
    }
  }
}
