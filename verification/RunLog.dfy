// The log of one run: appended segments, and one "open slot" that a rolling
// snapshot overwrites in place (src/flops_agent/engine/execution.py).
module RunLog {
  import opened Prelude

  /** What the coalescer asks for: append, or write the next version of the rolling snapshot. */
  datatype LogWrite<+E> = LogWrite(event: E, replacesOpenSlot: bool)

  datatype LogState<+E> = LogState(log: seq<E>, openSlot: Option<nat>, inplaceOk: bool) {
    /** The inductive fact of the slot mechanism: an open slot is the last index. */
    ghost predicate SlotIsLast() {
      openSlot.Some? ==> openSlot.value + 1 == |log|
    }

    /** The reconnect cursor attached to a live delivery. */
    function LiveCursor(): (cursor: nat) {
      if openSlot.Some? then openSlot.value else |log|
    }

    /** Whether a write lands on the open slot instead of growing the log. */
    predicate Overwrites<F>(w: LogWrite<F>) {
      w.replacesOpenSlot && inplaceOk && openSlot.Some?
    }
  }

  /** State after some writes, with the two lists handed to the store. */
  datatype Applied<+E> = Applied(state: LogState<E>, appended: seq<E>, replaced: seq<(nat, E)>)

  function Write<E>(st: LogState<E>, w: LogWrite<E>): (a: Applied<E>)
    requires st.SlotIsLast()
    ensures a.state.SlotIsLast()
  {
    if st.Overwrites(w) then
      Applied(st.(log := st.log[st.openSlot.value := w.event]), [], [(st.openSlot.value, w.event)])
    else
      var slot := if w.replacesOpenSlot && st.inplaceOk then Some(|st.log|) else None;
      Applied(LogState(st.log + [w.event], slot, st.inplaceOk), [w.event], [])
  }

  function ApplyParts<E>(st: LogState<E>, parts: seq<LogWrite<E>>): (a: Applied<E>)
    requires st.SlotIsLast()
    ensures a.state.SlotIsLast()
  {
    if parts == [] then Applied(st, [], [])
    else
      var before := ApplyParts(st, parts[..|parts| - 1]);
      var last := Write(before.state, parts[|parts| - 1]);
      Applied(last.state, before.appended + last.appended, before.replaced + last.replaced)
  }

  /** What can happen to the log of a live run: a batch of writes, or the store refusing an overwrite. */
  datatype LogOp<+E> = Commit(parts: seq<LogWrite<E>>) | DisableInplace

  function Exec<E>(st: LogState<E>, op: LogOp<E>): (r: LogState<E>)
    requires st.SlotIsLast()
    ensures r.SlotIsLast()
  {
    match op
    case Commit(parts) => ApplyParts(st, parts).state
    case DisableInplace => st.(inplaceOk := false)
  }

  function ExecAll<E>(st: LogState<E>, ops: seq<LogOp<E>>): (r: LogState<E>)
    requires st.SlotIsLast()
    ensures r.SlotIsLast()
    decreases |ops|
  {
    if ops == [] then st else ExecAll(Exec(st, ops[0]), ops[1..])
  }

  // ----- Cursors are sound ---------------------------------------------------

  /** `to` extends `from` without touching anything below `from`'s live cursor. */
  ghost predicate KeepsBelowCursor<E>(from: LogState<E>, to: LogState<E>) {
    && from.LiveCursor() <= to.LiveCursor() <= |to.log|
    && |from.log| <= |to.log|
    && from.LiveCursor() <= |from.log|
    && to.log[..from.LiveCursor()] == from.log[..from.LiveCursor()]
  }

  lemma {:induction false} ApplyKeepsBelowCursor<E>(st: LogState<E>, parts: seq<LogWrite<E>>)
    requires st.SlotIsLast()
    ensures KeepsBelowCursor(st, ApplyParts(st, parts).state)
  {
    if parts != [] {
      var mid := ApplyParts(st, parts[..|parts| - 1]).state;
      ApplyKeepsBelowCursor(st, parts[..|parts| - 1]);
    }
  }

  /** Whatever happens later, live cursors never go back and the log below one never changes. */
  lemma {:induction false} LiveCursorIsStable<E>(st: LogState<E>, ops: seq<LogOp<E>>)
    requires st.SlotIsLast()
    ensures KeepsBelowCursor(st, ExecAll(st, ops))
    decreases |ops|
  {
    if ops != [] {
      var next := Exec(st, ops[0]);
      if ops[0].Commit? { ApplyKeepsBelowCursor(st, ops[0].parts); }
      LiveCursorIsStable(next, ops[1..]);
    }
  }

  ghost predicate StablePrefix<E(!new)>(st: LogState<E>, cursor: nat)
    requires st.SlotIsLast() && cursor <= |st.log|
  {
    forall ops: seq<LogOp<E>> ::
      |ExecAll(st, ops).log| >= cursor && ExecAll(st, ops).log[..cursor] == st.log[..cursor]
  }

  /** Exactly the cursors up to the live one are safe: the index+1 a replayed delivery hands out
      for an open slot is not, as long as the slot can still be overwritten. */
  lemma StableExactlyUpToLiveCursor<E(!new)>(st: LogState<E>, cursor: nat, other: E)
    requires st.SlotIsLast() && cursor <= |st.log| && other !in st.log
    ensures StablePrefix(st, cursor) <==> cursor <= st.LiveCursor() || !st.inplaceOk
  {
    if cursor <= st.LiveCursor() {
      forall ops: seq<LogOp<E>>
        ensures |ExecAll(st, ops).log| >= cursor && ExecAll(st, ops).log[..cursor] == st.log[..cursor]
      {
        LiveCursorIsStable(st, ops);
        assert ExecAll(st, ops).log[..cursor] == ExecAll(st, ops).log[..st.LiveCursor()][..cursor];
      }
    } else if !st.inplaceOk {
      forall ops: seq<LogOp<E>>
        ensures |ExecAll(st, ops).log| >= cursor && ExecAll(st, ops).log[..cursor] == st.log[..cursor]
      {
        AppendOnlyOnceDisabled(st, ops);
      }
    } else {
      var w := LogWrite(other, true);
      var ops := [Commit([w])];
      var bad := ExecAll(st, ops);
      CommitOne(st, w);
      assert bad.log[..cursor][cursor - 1] == other;
      assert st.log[..cursor][cursor - 1] == st.log[cursor - 1];
    }
  }

  lemma {:induction false} AppendOnlyOnceDisabled<E>(st: LogState<E>, ops: seq<LogOp<E>>)
    requires st.SlotIsLast() && !st.inplaceOk
    ensures !ExecAll(st, ops).inplaceOk && st.log <= ExecAll(st, ops).log
    decreases |ops|
  {
    if ops != [] {
      if ops[0].Commit? { ApplyOnceDisabled(st, ops[0].parts); }
      AppendOnlyOnceDisabled(Exec(st, ops[0]), ops[1..]);
    }
  }

  lemma {:induction false} ApplyOnceDisabled<E>(st: LogState<E>, parts: seq<LogWrite<E>>)
    requires st.SlotIsLast() && !st.inplaceOk
    ensures !ApplyParts(st, parts).state.inplaceOk
    ensures ApplyParts(st, parts).replaced == []
    ensures ApplyParts(st, parts).state.log == st.log + ApplyParts(st, parts).appended
  {
    if parts != [] { ApplyOnceDisabled(st, parts[..|parts| - 1]); }
  }

  // ----- What a batch leaves in the log ---------------------------------------

  /** The writes that survive a batch: of versions of a snapshot in a row only the last. */
  function Survivors<E>(parts: seq<LogWrite<E>>): (r: seq<E>)
    decreases |parts|
  {
    if parts == [] then []
    else
      (if |parts| > 1 && parts[0].replacesOpenSlot && parts[1].replacesOpenSlot then [] else [parts[0].event])
      + Survivors(parts[1..])
  }

  lemma {:induction false} SurvivorsSnoc<E>(parts: seq<LogWrite<E>>, w: LogWrite<E>)
    ensures var n := |Survivors(parts)|;
            && (parts != [] ==> n > 0)
            && Survivors(parts + [w]) ==
               if parts != [] && parts[|parts| - 1].replacesOpenSlot && w.replacesOpenSlot
               then Survivors(parts)[..n - 1] + [w.event] else Survivors(parts) + [w.event]
    decreases |parts|
  {
    if parts == [] {
      assert (parts + [w])[1..] == [];
    } else {
      SurvivorsSnoc(parts[1..], w);
      assert (parts + [w])[1..] == parts[1..] + [w];
    }
  }

  /** The log as the first write of a batch finds it: an open slot is given up to a further version. */
  function Below<E>(st: LogState<E>, parts: seq<LogWrite<E>>): (r: seq<E>)
    requires st.SlotIsLast()
  {
    if parts != [] && st.Overwrites(parts[0]) then st.log[..|st.log| - 1] else st.log
  }

  /** A batch adds to the log exactly the writes that survive it, in order, and leaves a slot open iff its last
      write is a version of a snapshot. */
  lemma {:induction false} BatchLeavesSurvivors<E>(st: LogState<E>, parts: seq<LogWrite<E>>)
    requires st.SlotIsLast() && st.inplaceOk && parts != []
    ensures var t := ApplyParts(st, parts).state;
            && t.log == Below(st, parts) + Survivors(parts)
            && t.inplaceOk && (t.openSlot.Some? <==> parts[|parts| - 1].replacesOpenSlot)
    decreases |parts|
  {
    var n := |parts| - 1;
    var init, w := parts[..n], parts[n];
    SurvivorsSnoc(init, w);
    assert parts == init + [w];
    if n > 0 {
      BatchLeavesSurvivors(st, init);
      WriteBehind(ApplyParts(st, init).state, Below(st, init), Survivors(init), w);
      assert Below(st, parts) == Below(st, init);
    }
  }

  lemma WriteBehind<E>(st: LogState<E>, below: seq<E>, last: seq<E>, w: LogWrite<E>)
    requires st.SlotIsLast() && st.inplaceOk && st.log == below + last && last != []
    ensures var t := Write(st, w).state;
            && t.inplaceOk && (t.openSlot.Some? <==> w.replacesOpenSlot)
            && t.log == below + if st.openSlot.Some? && w.replacesOpenSlot
                                then last[..|last| - 1] + [w.event] else last + [w.event]
  {
  }

  // ----- Replaying from a live cursor ----------------------------------------

  /** State of a client that has consumed `events`, starting from `start`. */
  function Replay<S, E>(step: (S, E) -> S, start: S, events: seq<E>): (end: S)
  {
    if events == [] then start else step(Replay(step, start, events[..|events| - 1]), events[|events| - 1])
  }

  lemma {:induction false} ReplayConcat<S, E>(step: (S, E) -> S, start: S, a: seq<E>, b: seq<E>)
    ensures Replay(step, start, a + b) == Replay(step, Replay(step, start, a), b)
  {
    if b == [] {
      assert a + b == a;
    } else {
      assert (a + b)[..|a + b| - 1] == a + b[..|b| - 1];
      ReplayConcat(step, start, a, b[..|b| - 1]);
    }
  }

  /** Applying `later` makes an earlier application of `earlier` irrelevant. */
  ghost predicate Subsumes<S(!new), E>(step: (S, E) -> S, earlier: E, later: E) {
    forall s: S :: step(step(s, earlier), later) == step(s, later)
  }

  lemma SubsumesTransitive<S(!new), E>(step: (S, E) -> S, a: E, b: E, c: E)
    requires Subsumes(step, a, b) && Subsumes(step, b, c)
    ensures Subsumes(step, a, c)
  {
    forall s: S ensures step(step(s, a), c) == step(s, c) {
      assert step(step(step(s, a), b), c) == step(step(s, a), c);
      assert step(step(s, b), c) == step(s, c);
    }
  }

  /** Every overwrite in the batch subsumes the version it overwrites. */
  ghost predicate PartsSubsume<S(!new), E>(step: (S, E) -> S, st: LogState<E>, parts: seq<LogWrite<E>>)
    requires st.SlotIsLast()
  {
    parts == [] ||
    var init := parts[..|parts| - 1];
    var w := parts[|parts| - 1];
    var before := ApplyParts(st, init).state;
    && PartsSubsume(step, st, init)
    && (before.Overwrites(w) ==> Subsumes(step, before.log[before.openSlot.value], w.event))
  }

  ghost predicate OpsSubsume<S(!new), E>(step: (S, E) -> S, st: LogState<E>, ops: seq<LogOp<E>>)
    requires st.SlotIsLast()
    decreases |ops|
  {
    ops == [] ||
    ((ops[0].Commit? ==> PartsSubsume(step, st, ops[0].parts)) && OpsSubsume(step, Exec(st, ops[0]), ops[1..]))
  }

  lemma {:induction false} ApplySubsumes<S(!new), E>(
    step: (S, E) -> S, st: LogState<E>, parts: seq<LogWrite<E>>, i: nat, seen: E)
    requires st.SlotIsLast() && PartsSubsume(step, st, parts)
    requires i < |st.log| && Subsumes(step, seen, st.log[i])
    ensures i < |ApplyParts(st, parts).state.log| && Subsumes(step, seen, ApplyParts(st, parts).state.log[i])
  {
    if parts != [] {
      var init := parts[..|parts| - 1];
      var w := parts[|parts| - 1];
      ApplySubsumes(step, st, init, i, seen);
      var before := ApplyParts(st, init).state;
      if before.Overwrites(w) && before.openSlot.value == i {
        SubsumesTransitive(step, seen, before.log[i], w.event);
      }
    }
  }

  /** What a client saw at log index `i` stays subsumed by whatever that index holds later. */
  lemma {:induction false} ExecSubsumes<S(!new), E>(
    step: (S, E) -> S, st: LogState<E>, ops: seq<LogOp<E>>, i: nat, seen: E)
    requires st.SlotIsLast() && OpsSubsume(step, st, ops)
    requires i < |st.log| && Subsumes(step, seen, st.log[i])
    ensures i < |ExecAll(st, ops).log| && Subsumes(step, seen, ExecAll(st, ops).log[i])
    decreases |ops|
  {
    if ops != [] {
      if ops[0].Commit? { ApplySubsumes(step, st, ops[0].parts, i, seen); }
      ExecSubsumes(step, Exec(st, ops[0]), ops[1..], i, seen);
    }
  }

  /** Reconnecting with a live cursor loses nothing: a client that had consumed the log when the
      cursor was issued, and later replays from the cursor, ends where a full replay ends.
      The snapshot in an open slot may be seen twice, so it must be idempotent. */
  lemma ReconnectEqualsFullReplay<S(!new), E>(
    step: (S, E) -> S, start: S, st: LogState<E>, ops: seq<LogOp<E>>)
    requires st.SlotIsLast() && OpsSubsume(step, st, ops)
    requires st.openSlot.Some? ==> Subsumes(step, st.log[st.openSlot.value], st.log[st.openSlot.value])
    ensures var later := ExecAll(st, ops).log;
            st.LiveCursor() <= |later| &&
            Replay(step, Replay(step, start, st.log), later[st.LiveCursor()..]) == Replay(step, start, later)
  {
    var c := st.LiveCursor();
    var later := ExecAll(st, ops).log;
    LiveCursorIsStable(st, ops);
    var below := st.log[..c];
    assert later == below + later[c..];
    ReplayConcat(step, start, below, later[c..]);
    if st.openSlot.Some? {
      ExecSubsumes(step, st, ops, c, st.log[c]);
      var s := Replay(step, start, below);
      var tail := later[c + 1..];
      assert st.log == below + [st.log[c]];
      assert later[c..] == [later[c]] + tail;
      ReplayConcat(step, start, below, [st.log[c]]);
      ReplayOne(step, s, st.log[c]);
      ReplayConcat(step, s, [later[c]], tail);
      ReplayOne(step, s, later[c]);
      ReplayConcat(step, step(s, st.log[c]), [later[c]], tail);
      ReplayOne(step, step(s, st.log[c]), later[c]);
    } else {
      assert below == st.log;
    }
  }

  /** Reconnecting with the cursor a replayed delivery hands out, index + 1, can lose an update: a client that has
      replayed the first version of an open slot asks from behind it and is never sent the second. */
  lemma ReplayedCursorLosesUpdate() returns (st: LogState<int>, ops: seq<LogOp<int>>)
    ensures st.SlotIsLast() && st == ExecAll(LogState([], None, true), [Commit([LogWrite(1, true)])])
    ensures var step := (state: int, snapshot: int) => snapshot;
            var later := ExecAll(st, ops).log;
            && |st.log| <= |later|
            && Replay(step, Replay(step, 0, st.log), later[|st.log|..]) == 1
            && Replay(step, 0, later) == 2
  {
    st := LogState([1], Some(0), true);
    ops := [Commit([LogWrite(2, true)])];
    CommitOne(LogState([], None, true), LogWrite(1, true));
    CommitOne(st, LogWrite(2, true));
    var step := (state: int, snapshot: int) => snapshot;
    ReplayOne(step, 0, 1);
    ReplayOne(step, 0, 2);
    assert [2][1..] == [];
  }

  lemma CommitOne<E>(st: LogState<E>, w: LogWrite<E>)
    requires st.SlotIsLast()
    ensures ExecAll(st, [Commit([w])]) == Write(st, w).state
  {
    var ops := [Commit([w])];
    assert ops[1..] == [] && [w][..0] == [];
    assert ApplyParts(st, [w][..0]) == Applied(st, [], []);
    assert ExecAll(st, ops) == ExecAll(Exec(st, ops[0]), ops[1..]);
  }

  lemma ReplayOne<S, E>(step: (S, E) -> S, start: S, e: E)
    ensures Replay(step, start, [e]) == step(start, e)
  {
    assert [e][..0] == [];
    assert Replay(step, start, []) == start;
  }
}
