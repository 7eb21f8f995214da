// One run as an object: the log it updates in place and the store calls it makes
// (src/flops_agent/engine/execution.py, class Run).
module Execution {
  import opened Prelude
  import opened RunLog
  import opened StoreLockstep
  import opened RunStore

  class Run<E> {
    const id: string
    var log: seq<E>
    var openSlot: Option<nat>
    var inplaceOk: bool

    ghost function State(): LogState<E>
      reads this
    {
      LogState(log, openSlot, inplaceOk)
    }

    /** Registers the run and pre-warms its log from whatever an earlier process stored. */
    constructor (id: string, ownerId: string, sessionId: string, store: InMemoryRunStore<E>)
      requires store.Valid()
      modifies store
      ensures store.Valid() && this.id == id
      ensures State() == LogState(old(store.Buffer(id)), None, true)
      ensures store.Buffer(id) == log && id in store.meta && id in store.buffers
      ensures old(id in store.meta) ==> store.meta == old(store.meta)
    {
      this.id := id;
      log, openSlot, inplaceOk := [], None, true;
      new;
      store.CreateRun(id, ownerId, sessionId);
      var seeded := store.Buffer(id);
      if |seeded| > 0 { log := seeded; }
    }

    /** Writes the coalescer's segments into the log and reports what the store must append and replace. */
    method ApplyToLog(parts: seq<LogWrite<E>>) returns (appended: seq<E>, replaced: seq<(nat, E)>)
      requires State().SlotIsLast()
      modifies this
      ensures Applied(State(), appended, replaced) == ApplyParts(old(State()), parts)
      ensures State().SlotIsLast()
    {
      appended, replaced := [], [];
      for i := 0 to |parts|
        invariant State().SlotIsLast()
        invariant Applied(State(), appended, replaced) == ApplyParts(old(State()), parts[..i])
      {
        assert parts[..i + 1][..i] == parts[..i];
        var w := parts[i];
        if w.replacesOpenSlot && inplaceOk && openSlot.Some? {
          log := log[openSlot.value := w.event];
          replaced := replaced + [(openSlot.value, w.event)];
        } else {
          log := log + [w.event];
          appended := appended + [w.event];
          openSlot := if w.replacesOpenSlot && inplaceOk then Some(|log| - 1) else None;
        }
      }
      assert parts[..|parts|] == parts;
    }

    method LiveCursor() returns (cursor: nat)
      requires State().SlotIsLast()
      ensures cursor == State().LiveCursor() && cursor + (if openSlot.Some? then 1 else 0) == |log|
    {
      if openSlot.Some? { return openSlot.value; }
      return |log|;
    }

    /** Overwrites first, then one append; a rejected overwrite turns in-place writing off for good. */
    method PersistParts(store: InMemoryRunStore<E>, appended: seq<E>, replaced: seq<(nat, E)>)
      modifies this`inplaceOk, store`buffers
      ensures old(store.Valid()) ==> store.Valid()
      ensures Stored(store.Buffer(id), true).(accepted := inplaceOk) ==
              var r := PersistOk(old(store.Buffer(id)), Batch(appended, replaced));
              r.(accepted := old(inplaceOk) && r.accepted)
    {
      for k := 0 to |replaced|
        invariant store.buffers.Keys == old(store.buffers.Keys)
        invariant var r := ReplaceAll(old(store.Buffer(id)), replaced[..k], Granted(|replaced|)[..k]);
                  store.Buffer(id) == r.buffer && inplaceOk == (old(inplaceOk) && r.accepted)
      {
        ReplaceAllStep(old(store.Buffer(id)), replaced, Granted(|replaced|), k);
        var (index, event) := replaced[k];
        var accepted := store.ReplaceChunk(id, index, event);
        if !accepted { inplaceOk := false; }
      }
      assert replaced[..|replaced|] == replaced && Granted(|replaced|)[..|replaced|] == Granted(|replaced|);
      if appended == [] { return; }
      store.AppendChunks(id, appended);
    }

    /** One whole emit against a store in lockstep: afterwards they are in lockstep again, with in-place
        writing still on, exactly when the batch did not hold two versions of a snapshot it opened itself. */
    method Emit(store: InMemoryRunStore<E>, parts: seq<LogWrite<E>>) returns (cursor: nat)
      requires State().SlotIsLast() && store.Buffer(id) == log
      modifies this, store`buffers
      ensures old(store.Valid()) ==> store.Valid()
      ensures log == ApplyParts(old(State()), parts).state.log
      ensures openSlot == ApplyParts(old(State()), parts).state.openSlot
      ensures cursor + (if openSlot.Some? then 1 else 0) == |log| && State().SlotIsLast()
      ensures inplaceOk == (ApplyParts(old(State()), parts).state.inplaceOk &&
                            !OverwritesOwnSlot(old(State()), parts))
      ensures !OverwritesOwnSlot(old(State()), parts) ==> store.Buffer(id) == log
    {
      var appended, replaced := ApplyToLog(parts);
      cursor := LiveCursor();
      OwnSlotRejectedIff(old(State()), parts);
      PersistParts(store, appended, replaced);
    }
  }
}
