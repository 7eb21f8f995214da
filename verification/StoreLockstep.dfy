// The log and its persisted buffer: seeding on resume, the FIFO of batches not yet
// persisted, and what a refused store call can and cannot do
// (src/flops_agent/engine/execution.py, src/flops_agent/seams/run_store.py).
module StoreLockstep {
  import opened Prelude
  import opened RunLog

  /** One commit on its way to the store: segments to append, and overwrites by absolute index. */
  datatype Batch<+E> = Batch(appended: seq<E>, replaced: seq<(nat, E)>)

  /** Store buffer after some calls, and whether every overwrite so far was accepted. */
  datatype Stored<+E> = Stored(buffer: seq<E>, accepted: bool)

  function BatchOf<E>(st: LogState<E>, parts: seq<LogWrite<E>>): Batch<E>
    requires st.SlotIsLast()
  {
    var a := ApplyParts(st, parts);
    Batch(a.appended, a.replaced)
  }

  /** The replace_chunk calls of one batch; `permit[k] == false` means call k raised. An index out of
      range is rejected by the store. Either way the overwrite is dropped, never turned into an append. */
  function ReplaceAll<E>(buffer: seq<E>, replaced: seq<(nat, E)>, permit: seq<bool>): (r: Stored<E>)
    requires |permit| == |replaced|
    ensures |r.buffer| == |buffer|
  {
    if replaced == [] then Stored(buffer, true)
    else
      var n := |replaced| - 1;
      var before := ReplaceAll(buffer, replaced[..n], permit[..n]);
      if permit[n] && replaced[n].0 < |buffer| then
        Stored(before.buffer[replaced[n].0 := replaced[n].1], before.accepted)
      else
        Stored(before.buffer, false)
  }

  lemma ReplaceAllStep<E>(buffer: seq<E>, replaced: seq<(nat, E)>, permit: seq<bool>, k: nat)
    requires |permit| == |replaced| && k < |replaced|
    ensures var before := ReplaceAll(buffer, replaced[..k], permit[..k]);
            ReplaceAll(buffer, replaced[..k + 1], permit[..k + 1]) ==
            if permit[k] && replaced[k].0 < |buffer|
            then Stored(before.buffer[replaced[k].0 := replaced[k].1], before.accepted)
            else Stored(before.buffer, false)
  {
    assert replaced[..k + 1][..k] == replaced[..k] && permit[..k + 1][..k] == permit[..k];
  }

  /** Persisting one batch: the overwrites first, then one append_chunks call. */
  function PersistBatch<E>(buffer: seq<E>, batch: Batch<E>, permit: seq<bool>, appendOk: bool): (r: Stored<E>)
    requires |permit| == |batch.replaced|
  {
    var r := ReplaceAll(buffer, batch.replaced, permit);
    Stored(r.buffer + (if appendOk then batch.appended else []), r.accepted)
  }

  /** No store call raises. */
  function Granted(n: nat): (permit: seq<bool>) {
    seq(n, _ => true)
  }

  function PersistOk<E>(buffer: seq<E>, batch: Batch<E>): (r: Stored<E>) {
    PersistBatch(buffer, batch, Granted(|batch.replaced|), true)
  }

  /** Overwrite `k` is granted and hits entry `i`. */
  predicate Hits<E>(replaced: seq<(nat, E)>, permit: seq<bool>, i: nat, k: nat)
    requires |permit| == |replaced| && k < |replaced|
  {
    permit[k] && replaced[k].0 == i
  }

  predicate HitsLast<E>(replaced: seq<(nat, E)>, permit: seq<bool>, i: nat, k: nat)
    requires |permit| == |replaced| && k < |replaced|
  {
    Hits(replaced, permit, i, k) && forall m :: k < m < |replaced| ==> !Hits(replaced, permit, i, m)
  }

  /** Each entry of the store holds the last version granted for it, or is what it was; refused overwrites leave no
      trace, and a failed append adds nothing. */
  lemma {:induction false} LastGrantedIsStored<E>(buffer: seq<E>, batch: Batch<E>, permit: seq<bool>, appendOk: bool,
                                                  i: nat)
    requires |permit| == |batch.replaced| && i < |buffer|
    ensures var r := PersistBatch(buffer, batch, permit, appendOk).buffer;
            && |r| >= |buffer| && r[|buffer|..] == (if appendOk then batch.appended else [])
            && ((forall k :: 0 <= k < |permit| ==> !Hits(batch.replaced, permit, i, k)) ==> r[i] == buffer[i])
            && (forall k :: 0 <= k < |permit| && HitsLast(batch.replaced, permit, i, k) ==> r[i] == batch.replaced[k].1)
    decreases |permit|
  {
    if permit != [] {
      var n := |permit| - 1;
      var init := Batch(batch.appended, batch.replaced[..n]);
      LastGrantedIsStored(buffer, init, permit[..n], appendOk, i);
      assert forall k :: 0 <= k < n ==>
        (Hits(init.replaced, permit[..n], i, k) <==> Hits(batch.replaced, permit, i, k));
      assert Hits(batch.replaced, permit, i, n) <==> permit[n] && batch.replaced[n].0 == i;
      forall k | 0 <= k < n && HitsLast(batch.replaced, permit, i, k)
        ensures HitsLast(init.replaced, permit[..n], i, k)
      {
        assert !Hits(batch.replaced, permit, i, n);
      }
    }
  }

  // ----- Lockstep when nothing fails -----------------------------------------

  /** Write `k` is the first version of a snapshot: none is open in front of it. */
  predicate OpensSlot<E>(st: LogState<E>, parts: seq<LogWrite<E>>, k: nat)
    requires k < |parts|
  {
    parts[k].replacesOpenSlot && if k == 0 then st.openSlot.None? else !parts[k - 1].replacesOpenSlot
  }

  /** The coalescer hands over the first version of a snapshot and, right behind it, a second one. */
  predicate OverwritesOwnSlot<E>(st: LogState<E>, parts: seq<LogWrite<E>>) {
    st.inplaceOk && exists k :: 0 <= k < |parts| - 1 && OpensSlot(st, parts, k) && parts[k + 1].replacesOpenSlot
  }

  /** An overwrite is recorded for an entry that is not in the store yet. */
  predicate ReplacesBeyond<E>(base: nat, batch: Batch<E>) {
    exists k :: 0 <= k < |batch.replaced| && batch.replaced[k].0 >= base
  }

  /** A slot is open behind a batch iff its last write is a snapshot. */
  lemma {:induction false} SlotBehind<E>(st: LogState<E>, parts: seq<LogWrite<E>>)
    requires st.SlotIsLast() && st.inplaceOk
    ensures var t := ApplyParts(st, parts).state;
            && t.inplaceOk && |t.log| >= |st.log|
            && (t.openSlot.Some? <==> if parts == [] then st.openSlot.Some? else parts[|parts| - 1].replacesOpenSlot)
    decreases |parts|
  {
    if parts != [] { SlotBehind(st, parts[..|parts| - 1]); }
  }

  /** The open slot is one of this batch's iff the last write opened it or an earlier one already overwrote it. */
  lemma OwnSlotBehind<E>(st: LogState<E>, parts: seq<LogWrite<E>>)
    requires st.SlotIsLast() && st.inplaceOk && parts != []
    ensures var t := ApplyParts(st, parts).state;
            var n := |parts| - 1;
            && (OpensSlot(st, parts, n) ==> t.openSlot.Some? && t.openSlot.value >= |st.log|)
            && (t.openSlot.Some? && t.openSlot.value >= |st.log| ==>
                  OpensSlot(st, parts, n) || ReplacesBeyond(|st.log|, BatchOf(st, parts)))
  {
    var n := |parts| - 1;
    var before := ApplyParts(st, parts[..n]);
    SlotBehind(st, parts[..n]);
    if before.state.Overwrites(parts[n]) {
      assert BatchOf(st, parts).replaced[|before.replaced|].0 == before.state.openSlot.value;
    }
  }

  lemma MoreReplaced<E>(st: LogState<E>, parts: seq<LogWrite<E>>)
    requires st.SlotIsLast() && parts != []
    ensures var init := parts[..|parts| - 1];
            var t := ApplyParts(st, init).state;
            ReplacesBeyond(|st.log|, BatchOf(st, parts)) <==>
              || ReplacesBeyond(|st.log|, BatchOf(st, init))
              || (t.Overwrites(parts[|parts| - 1]) && t.openSlot.value >= |st.log|)
  {
    var before, all := ApplyParts(st, parts[..|parts| - 1]).replaced, BatchOf(st, parts).replaced;
    assert before <= all;
    assert forall k :: 0 <= k < |before| ==> all[k] == before[k];
    if |all| > |before| { assert all[|before|].0 == ApplyParts(st, parts[..|parts| - 1]).state.openSlot.value; }
  }

  lemma MoreWrites<E>(st: LogState<E>, parts: seq<LogWrite<E>>)
    requires parts != []
    ensures var n := |parts| - 1;
            OverwritesOwnSlot(st, parts) <==>
              || OverwritesOwnSlot(st, parts[..n])
              || (st.inplaceOk && n > 0 && OpensSlot(st, parts[..n], n - 1) && parts[n].replacesOpenSlot)
  {
    var n := |parts| - 1;
    assert forall k :: 0 <= k < n ==> OpensSlot(st, parts[..n], k) == OpensSlot(st, parts, k);
    if st.inplaceOk && n > 0 && OpensSlot(st, parts[..n], n - 1) && parts[n].replacesOpenSlot {
      assert OpensSlot(st, parts, n - 1);
    }
    if OverwritesOwnSlot(st, parts[..n]) {
      var k :| 0 <= k < n - 1 && OpensSlot(st, parts[..n], k) && parts[..n][k + 1].replacesOpenSlot;
      assert OpensSlot(st, parts, k) && parts[k + 1].replacesOpenSlot;
    }
  }

  /** Which writes make a batch overwrite its own slot: two versions in a row of a snapshot it opens. */
  lemma {:induction false} OwnSlotIff<E>(st: LogState<E>, parts: seq<LogWrite<E>>)
    requires st.SlotIsLast()
    ensures ReplacesBeyond(|st.log|, BatchOf(st, parts)) <==> OverwritesOwnSlot(st, parts)
    decreases |parts|
  {
    if !st.inplaceOk {
      ApplyOnceDisabled(st, parts);
    } else if parts != [] {
      var init := parts[..|parts| - 1];
      OwnSlotIff(st, init);
      MoreReplaced(st, parts);
      MoreWrites(st, parts);
      SlotBehind(st, init);
      if init != [] { OwnSlotBehind(st, init); }
    }
  }

  lemma {:induction false} ReplaceAllAcceptedIff<E>(buffer: seq<E>, replaced: seq<(nat, E)>, permit: seq<bool>)
    requires |permit| == |replaced|
    ensures ReplaceAll(buffer, replaced, permit).accepted <==>
            forall k :: 0 <= k < |replaced| ==> permit[k] && replaced[k].0 < |buffer|
  {
    if replaced != [] {
      var n := |replaced| - 1;
      ReplaceAllAcceptedIff(buffer, replaced[..n], permit[..n]);
      assert forall k :: 0 <= k < n ==> replaced[..n][k] == replaced[k] && permit[..n][k] == permit[k];
    }
  }

  /** Overwriting stays on iff every overwrite of the batch was granted and in range, whether or not the append went
      through. */
  lemma PersistAcceptedIff<E>(buffer: seq<E>, batch: Batch<E>, permit: seq<bool>, appendOk: bool)
    requires |permit| == |batch.replaced|
    ensures PersistBatch(buffer, batch, permit, appendOk).accepted <==>
            forall k :: 0 <= k < |permit| ==> permit[k] && batch.replaced[k].0 < |buffer|
  {
    ReplaceAllAcceptedIff(buffer, batch.replaced, permit);
  }

  lemma {:induction false} BatchInLockstep<E>(st: LogState<E>, parts: seq<LogWrite<E>>)
    requires st.SlotIsLast()
    requires !ReplacesBeyond(|st.log|, BatchOf(st, parts))
    ensures PersistOk(st.log, BatchOf(st, parts)) == Stored(ApplyParts(st, parts).state.log, true)
    ensures |ApplyParts(st, parts).state.log| == |st.log| + |ApplyParts(st, parts).appended|
  {
    if parts != [] {
      var init := parts[..|parts| - 1];
      var w := parts[|parts| - 1];
      var before := ApplyParts(st, init);
      var batch := BatchOf(st, parts);
      MoreReplaced(st, parts);
      BatchInLockstep(st, init);
      if before.state.Overwrites(w) {
        var n := |before.replaced|;
        assert batch.replaced == before.replaced + [(before.state.openSlot.value, w.event)];
        assert batch.replaced[n].0 < |st.log|;
        ReplaceAllStep(st.log, batch.replaced, Granted(n + 1), n);
        assert batch.replaced[..n] == before.replaced && batch.replaced[..n + 1] == batch.replaced;
        assert Granted(n + 1)[..n] == Granted(n) && Granted(n + 1)[..n + 1] == Granted(n + 1);
        assert before.appended == [];
      } else {
        assert batch.replaced == before.replaced;
      }
    }
  }

  /** A batch loses its place in lockstep exactly when it overwrites a slot it opened itself: the
      overwrite reaches the store before the append, is rejected, and in-place writing is given up. */
  lemma OwnSlotRejectedIff<E>(st: LogState<E>, parts: seq<LogWrite<E>>)
    requires st.SlotIsLast()
    ensures PersistOk(st.log, BatchOf(st, parts)).accepted <==> !OverwritesOwnSlot(st, parts)
    ensures !OverwritesOwnSlot(st, parts) ==>
              PersistOk(st.log, BatchOf(st, parts)) == Stored(ApplyParts(st, parts).state.log, true)
  {
    OwnSlotIff(st, parts);
    if !OverwritesOwnSlot(st, parts) { BatchInLockstep(st, parts); }
    var batch := BatchOf(st, parts);
    ReplaceAllAcceptedIff(st.log, batch.replaced, Granted(|batch.replaced|));
  }

  /** Two versions of a fresh snapshot in one batch: the store keeps the first, the log holds the second. */
  lemma OwnSlotLeavesStoreStale<E>(st: LogState<E>, first: E, second: E)
    requires st.SlotIsLast() && st.openSlot.None? && st.inplaceOk && first != second
    ensures var parts := [LogWrite(first, true), LogWrite(second, true)];
            && OverwritesOwnSlot(st, parts)
            && PersistOk(st.log, BatchOf(st, parts)) == Stored(st.log + [first], false)
            && ApplyParts(st, parts).state.log == st.log + [second]
  {
    var parts := [LogWrite(first, true), LogWrite(second, true)];
    assert OpensSlot(st, parts, 0);
    assert parts[..1] == [LogWrite(first, true)];
    assert parts[..1][..0] == [];
    assert ApplyParts(st, parts[..1][..0]) == Applied(st, [], []);
    var mid := ApplyParts(st, parts[..1]);
    assert mid.state == LogState(st.log + [first], Some(|st.log|), true);
    var batch := BatchOf(st, parts);
    assert batch == Batch([first], [(|st.log|, second)]);
    ReplaceAllStep(st.log, batch.replaced, Granted(1), 0);
    assert batch.replaced[..1] == batch.replaced && Granted(1)[..1] == Granted(1);
  }

  function Drain<E>(buffer: seq<E>, queue: seq<Batch<E>>): (r: seq<E>)
    decreases |queue|
  {
    if queue == [] then buffer else Drain(PersistOk(buffer, queue[0]).buffer, queue[1..])
  }

  lemma {:induction false} DrainSnoc<E>(buffer: seq<E>, queue: seq<Batch<E>>, b: Batch<E>)
    ensures Drain(buffer, queue + [b]) == PersistOk(Drain(buffer, queue), b).buffer
    decreases |queue|
  {
    if queue == [] {
      assert ([] + [b])[1..] == [];
    } else {
      assert (queue + [b])[1..] == queue[1..] + [b];
      DrainSnoc(PersistOk(buffer, queue[0]).buffer, queue[1..], b);
    }
  }

  /** A run whose store calls all succeed and none of whose batches overwrites its own slot. */
  datatype CleanStep<+E> = CleanCommit(parts: seq<LogWrite<E>>) | CleanPersist

  datatype CleanSys<+E> = CleanSys(live: LogState<E>, queue: seq<Batch<E>>, store: seq<E>)

  ghost predicate CleanNext<E>(s: CleanSys<E>, step: CleanStep<E>, s': CleanSys<E>)
    requires s.live.SlotIsLast()
  {
    match step
    case CleanCommit(parts) =>
      && !OverwritesOwnSlot(s.live, parts)
      && s' == CleanSys(ApplyParts(s.live, parts).state, s.queue + [BatchOf(s.live, parts)], s.store)
    case CleanPersist =>
      && s.queue != []
      && s' == s.(queue := s.queue[1..], store := PersistOk(s.store, s.queue[0]).buffer)
  }

  ghost predicate CleanRun<E>(trace: seq<CleanSys<E>>, steps: seq<CleanStep<E>>) {
    && |trace| == |steps| + 1
    && trace[0].live.SlotIsLast() && trace[0].queue == [] && trace[0].store == trace[0].live.log
    && forall i :: 0 <= i < |steps| ==> trace[i].live.SlotIsLast() && CleanNext(trace[i], steps[i], trace[i + 1])
  }

  /** Store lockstep: at every moment, persisting what is still queued would make the store equal the log. */
  lemma {:induction false} StoreLockstep<E>(trace: seq<CleanSys<E>>, steps: seq<CleanStep<E>>, i: nat)
    requires CleanRun(trace, steps) && i < |trace|
    ensures Drain(trace[i].store, trace[i].queue) == trace[i].live.log
  {
    if i > 0 {
      StoreLockstep(trace, steps, i - 1);
      var s := trace[i - 1];
      assert CleanNext(s, steps[i - 1], trace[i]);
      if steps[i - 1].CleanCommit? {
        var parts := steps[i - 1].parts;
        OwnSlotRejectedIff(s.live, parts);
        DrainSnoc(s.store, s.queue, BatchOf(s.live, parts));
      }
    }
  }

  // ----- Alignment under any failures ----------------------------------------

  /** A segment labelled with the log index it was written for and the time of the write. */
  datatype Seg<+E> = Seg(index: nat, stamp: nat, event: E)

  /** Each write carries its own index and a fresh time stamp. */
  ghost predicate Labelled<E>(st: LogState<Seg<E>>, clock: nat, parts: seq<LogWrite<Seg<E>>>)
    requires st.SlotIsLast()
  {
    parts == [] ||
    var n := |parts| - 1;
    var before := ApplyParts(st, parts[..n]).state;
    var seg := parts[n].event;
    && Labelled(st, clock, parts[..n])
    && seg.index == (if before.Overwrites(parts[n]) then before.openSlot.value else |before.log|)
    && seg.stamp == clock + n
  }

  /** A batch committed when the log had `base` segments, with stamps from `lo` up to `hi`. */
  ghost predicate BatchShape<E>(batch: Batch<Seg<E>>, base: nat, lo: nat, hi: nat) {
    && lo <= hi
    && (forall j :: 0 <= j < |batch.appended| ==>
          batch.appended[j].index == base + j && lo <= batch.appended[j].stamp < hi)
    && (forall k :: 0 <= k < |batch.replaced| ==>
          && batch.replaced[k].1.index == batch.replaced[k].0
          && batch.replaced[k].0 + 1 >= base
          && lo <= batch.replaced[k].1.stamp < hi)
    && (forall j, k :: 0 <= j < k < |batch.replaced| ==> batch.replaced[j].1.stamp < batch.replaced[k].1.stamp)
  }

  lemma {:induction false} CommitShape<E>(st: LogState<Seg<E>>, clock: nat, parts: seq<LogWrite<Seg<E>>>)
    requires st.SlotIsLast() && Labelled(st, clock, parts)
    ensures BatchShape(BatchOf(st, parts), |st.log|, clock, clock + |parts|)
    ensures |ApplyParts(st, parts).state.log| == |st.log| + |ApplyParts(st, parts).appended|
  {
    if parts != [] {
      var n := |parts| - 1;
      CommitShape(st, clock, parts[..n]);
      var before := ApplyParts(st, parts[..n]);
      var all := BatchOf(st, parts);
      assert forall k :: 0 <= k < |before.replaced| ==> all.replaced[k] == before.replaced[k];
    }
  }

  datatype Queued<+E> = Queued(batch: Batch<Seg<E>>, base: nat, lo: nat)

  datatype Sys<+E> = Sys(live: LogState<Seg<E>>, clock: nat, queue: seq<Queued<E>>, store: seq<Seg<E>>)

  datatype Step<+E> =
    | CommitStep(parts: seq<LogWrite<Seg<E>>>)
    | PersistStep(permit: seq<bool>, appendOk: bool)

  ghost predicate Next<E>(s: Sys<E>, step: Step<E>, s': Sys<E>)
    requires s.live.SlotIsLast()
  {
    match step
    case CommitStep(parts) =>
      && Labelled(s.live, s.clock, parts)
      && s' == Sys(ApplyParts(s.live, parts).state, s.clock + |parts|,
                   s.queue + [Queued(BatchOf(s.live, parts), |s.live.log|, s.clock)], s.store)
    case PersistStep(permit, appendOk) =>
      && s.queue != []
      && |permit| == |s.queue[0].batch.replaced|
      && var r := PersistBatch(s.store, s.queue[0].batch, permit, appendOk);
         s' == s.(live := s.live.(inplaceOk := s.live.inplaceOk && r.accepted),
                  queue := s.queue[1..], store := r.buffer)
  }

  /** A seeded start: store and log agree, every segment sits at its own index. */
  ghost predicate Seeded<E>(s: Sys<E>) {
    && s.live.openSlot.None? && s.queue == [] && s.store == s.live.log
    && forall i :: 0 <= i < |s.store| ==> s.store[i].index == i && s.store[i].stamp < s.clock
  }

  /** Log length and clock right after batch `k` was committed. */
  function BaseAfter<E>(queue: seq<Queued<E>>, k: int, base: nat): nat
    requires -1 <= k
  {
    if k + 1 < |queue| then queue[k + 1].base else base
  }

  function ClockAfter<E>(queue: seq<Queued<E>>, k: int, clock: nat): nat
    requires -1 <= k
  {
    if k + 1 < |queue| then queue[k + 1].lo else clock
  }

  ghost predicate QueueShape<E>(queue: seq<Queued<E>>, base: nat, clock: nat) {
    forall k :: 0 <= k < |queue| ==>
      && BatchShape(queue[k].batch, queue[k].base, queue[k].lo, ClockAfter(queue, k, clock))
      && BaseAfter(queue, k, base) == queue[k].base + |queue[k].batch.appended|
  }

  /** A store that is as long as the log was meant to be at that point has lost nothing. */
  ghost predicate StoreShape<E>(store: seq<Seg<E>>, base: nat, lo: nat) {
    && |store| <= base
    && (|store| == base ==> forall i :: 0 <= i < |store| ==> store[i].index == i)
    && forall i :: 0 <= i < |store| ==> store[i].stamp < lo
  }

  ghost predicate Inv<E>(s: Sys<E>) {
    && s.live.SlotIsLast()
    && QueueShape(s.queue, |s.live.log|, s.clock)
    && StoreShape(s.store, BaseAfter(s.queue, -1, |s.live.log|), ClockAfter(s.queue, -1, s.clock))
  }

  /** Each accepted overwrite of the batch hits an older version of the very same log index. */
  ghost predicate HitsOwnSnapshot<E>(store: seq<Seg<E>>, replaced: seq<(nat, Seg<E>)>, permit: seq<bool>)
    requires |permit| == |replaced|
  {
    forall k :: 0 <= k < |replaced| && permit[k] && replaced[k].0 < |store| ==>
      var hit := ReplaceAll(store, replaced[..k], permit[..k]).buffer[replaced[k].0];
      hit.index == replaced[k].0 == replaced[k].1.index && hit.stamp < replaced[k].1.stamp
  }

  lemma {:induction false} ReplaceAllKeepsShape<E>(
    store: seq<Seg<E>>, batch: Batch<Seg<E>>, base: nat, lo: nat, hi: nat, permit: seq<bool>, k: nat)
    requires BatchShape(batch, base, lo, hi) && StoreShape(store, base, lo)
    requires |permit| == |batch.replaced| && k <= |batch.replaced|
    ensures var r := ReplaceAll(store, batch.replaced[..k], permit[..k]).buffer;
            && (|store| == base ==> forall i :: 0 <= i < |r| ==> r[i].index == i)
            && (forall i :: 0 <= i < |r| ==> r[i].stamp < hi)
            && (k < |batch.replaced| ==> forall i :: 0 <= i < |r| ==> r[i].stamp < batch.replaced[k].1.stamp)
  {
    if k > 0 {
      ReplaceAllKeepsShape(store, batch, base, lo, hi, permit, k - 1);
      ReplaceAllStep(store, batch.replaced, permit, k - 1);
    }
  }

  lemma PersistKeepsShape<E>(
    store: seq<Seg<E>>, batch: Batch<Seg<E>>, base: nat, lo: nat, hi: nat, permit: seq<bool>, appendOk: bool)
    requires BatchShape(batch, base, lo, hi) && StoreShape(store, base, lo)
    requires |permit| == |batch.replaced|
    ensures StoreShape(PersistBatch(store, batch, permit, appendOk).buffer, base + |batch.appended|, hi)
  {
    var n := |batch.replaced|;
    ReplaceAllKeepsShape(store, batch, base, lo, hi, permit, n);
    assert batch.replaced[..n] == batch.replaced;
    assert permit[..n] == permit;
    var kept := ReplaceAll(store, batch.replaced, permit).buffer;
    assert kept == ReplaceAll(store, batch.replaced[..n], permit[..n]).buffer;
    assert forall i :: 0 <= i < |kept| ==> kept[i].stamp < hi;
    assert |store| == base ==> forall i :: 0 <= i < |kept| ==> kept[i].index == i;
    var r := PersistBatch(store, batch, permit, appendOk).buffer;
    assert r == kept || r == kept + batch.appended;
  }

  lemma AcceptedHitsOwnSnapshot<E>(s: Sys<E>, permit: seq<bool>)
    requires Inv(s) && s.queue != [] && |permit| == |s.queue[0].batch.replaced|
    ensures HitsOwnSnapshot(s.store, s.queue[0].batch.replaced, permit)
  {
    var b := s.queue[0].batch;
    var hi := ClockAfter(s.queue, 0, s.clock);
    forall k | 0 <= k < |b.replaced| && permit[k] && b.replaced[k].0 < |s.store|
      ensures var hit := ReplaceAll(s.store, b.replaced[..k], permit[..k]).buffer[b.replaced[k].0];
              hit.index == b.replaced[k].0 == b.replaced[k].1.index && hit.stamp < b.replaced[k].1.stamp
    {
      ReplaceAllKeepsShape(s.store, b, s.queue[0].base, s.queue[0].lo, hi, permit, k);
    }
  }

  lemma CommitKeepsInv<E>(s: Sys<E>, parts: seq<LogWrite<Seg<E>>>, s': Sys<E>)
    requires Inv(s) && Next(s, CommitStep(parts), s')
    ensures Inv(s')
  {
    CommitShape(s.live, s.clock, parts);
  }

  lemma PersistKeepsInv<E>(s: Sys<E>, permit: seq<bool>, appendOk: bool, s': Sys<E>)
    requires Inv(s) && Next(s, PersistStep(permit, appendOk), s')
    ensures Inv(s')
  {
    var q := s.queue[0];
    assert BatchShape(q.batch, q.base, q.lo, ClockAfter(s.queue, 0, s.clock));
    PersistKeepsShape(s.store, q.batch, q.base, q.lo, ClockAfter(s.queue, 0, s.clock), permit, appendOk);
    assert forall k :: 0 <= k < |s'.queue| ==>
      && s'.queue[k] == s.queue[k + 1]
      && ClockAfter(s'.queue, k, s.clock) == ClockAfter(s.queue, k + 1, s.clock)
      && BaseAfter(s'.queue, k, |s.live.log|) == BaseAfter(s.queue, k + 1, |s.live.log|);
  }

  ghost predicate IsRun<E>(trace: seq<Sys<E>>, steps: seq<Step<E>>) {
    && |trace| == |steps| + 1
    && Seeded(trace[0])
    && forall i :: 0 <= i < |steps| ==> trace[i].live.SlotIsLast() && Next(trace[i], steps[i], trace[i + 1])
  }

  lemma {:induction false} RunKeepsInv<E>(trace: seq<Sys<E>>, steps: seq<Step<E>>, i: nat)
    requires IsRun(trace, steps) && i < |trace|
    ensures Inv(trace[i])
  {
    if i > 0 {
      RunKeepsInv(trace, steps, i - 1);
      match steps[i - 1]
      case CommitStep(parts) => CommitKeepsInv(trace[i - 1], parts, trace[i]);
      case PersistStep(permit, appendOk) => PersistKeepsInv(trace[i - 1], permit, appendOk, trace[i]);
    }
  }

  /** On a seeded run, under any pattern of failed appends and refused overwrites, an accepted overwrite
      only ever replaces an older version of the same snapshot, never another segment. */
  lemma OverwritesNeverHitAnotherSegment<E>(trace: seq<Sys<E>>, steps: seq<Step<E>>, i: nat)
    requires IsRun(trace, steps) && i < |steps| && steps[i].PersistStep?
    ensures trace[i].queue != [] && |steps[i].permit| == |trace[i].queue[0].batch.replaced|
    ensures HitsOwnSnapshot(trace[i].store, trace[i].queue[0].batch.replaced, steps[i].permit)
  {
    RunKeepsInv(trace, steps, i);
    assert Next(trace[i], steps[i], trace[i + 1]);
    AcceptedHitsOwnSnapshot(trace[i], steps[i].permit);
  }

  // ----- Seeding on resume -----------------------------------------------------

  /** Result of pre-warming the log: `size` and `range` are what the reads returned, None if they raised. */
  function Seed<E>(canReplace: bool, canRead: bool, size: Option<nat>, range: Option<seq<E>>): (st: LogState<E>)
    ensures st.SlotIsLast()
  {
    if !canRead then LogState([], None, canReplace)
    else if size.None? then LogState([], None, false)
    else if size.value == 0 then LogState([], None, canReplace)
    else if range.None? || |range.value| != size.value then LogState([], None, false)
    else LogState(range.value, None, canReplace)
  }

  /** With truthful reads, seeding leaves log and store aligned or overwriting off, unless the store can
      overwrite but not be read: then a resumed run starts misaligned with overwriting still on. */
  lemma SeedAlignedIff<E>(canReplace: bool, canRead: bool, buffer: seq<E>)
    ensures var st := Seed(canReplace, canRead, Some(|buffer|), Some(buffer));
            && ((st.log == buffer || !st.inplaceOk) <==> (canRead || buffer == [] || !canReplace))
            && (canRead ==> st.log == buffer && (st.inplaceOk <==> canReplace))
            && (!canRead ==> st.log == [] && (st.inplaceOk <==> canReplace))
  {
  }

  /** Reads that fail or disagree never leave overwriting on. */
  lemma UntrustedReadDisablesOverwrite<E>(canReplace: bool, size: Option<nat>, range: Option<seq<E>>)
    ensures var st := Seed(canReplace, true, size, range);
            && (st.inplaceOk ==>
                  canReplace && size.Some? && (size.value == 0 || (range == Some(st.log) && |st.log| == size.value)))
            && (st.log != [] ==> size == Some(|st.log|) && range == Some(st.log) && (st.inplaceOk <==> canReplace))
  {
  }

  /** What the misaligned start does: the second version of the first snapshot overwrites a segment
      that an earlier process had stored. */
  lemma UnreadStoreIsCorrupted<E>(earlier: E, v1: E, v2: E)
    ensures var st := Seed<E>(true, false, None, None);
            var first := BatchOf(st, [LogWrite(v1, true)]);
            var st1 := ApplyParts(st, [LogWrite(v1, true)]).state;
            var second := BatchOf(st1, [LogWrite(v2, true)]);
            Drain([earlier], [first, second]) == [v2, v1]
  {
    var st := Seed<E>(true, false, None, None);
    assert [LogWrite(v1, true)][..0] == [] && [LogWrite(v2, true)][..0] == [];
    assert ApplyParts(st, [LogWrite(v1, true)][..0]) == Applied(st, [], []);
    var st1 := ApplyParts(st, [LogWrite(v1, true)]).state;
    assert st1 == LogState([v1], Some(0), true);
    assert ApplyParts(st1, [LogWrite(v2, true)][..0]) == Applied(st1, [], []);
    var first := BatchOf(st, [LogWrite(v1, true)]);
    var second := BatchOf(st1, [LogWrite(v2, true)]);
    assert first == Batch([v1], []) && second == Batch([], [(0, v2)]);
    ReplaceAllStep([earlier, v1], second.replaced, Granted(1), 0);
    assert second.replaced[..1] == second.replaced && Granted(1)[..1] == Granted(1);
    assert PersistOk([earlier], first).buffer == [earlier, v1];
    assert PersistOk([earlier, v1], second).buffer == [v2, v1];
    var q := [first, second];
    assert q[1..] == [second] && q[1..][1..] == [];
    assert Drain([earlier, v1], q[1..]) == [v2, v1];
  }
}
