// The in-process reference run store: log buffers, run metadata, and the records of
// tool calls dispatched but not yet collected (src/flops_agent/seams/run_store.py).
module RunStore {
  /** One dispatch record: string fields, merged by later updates. */
  type Record = map<string, string>

  datatype RunMeta = RunMeta(ownerId: string, sessionId: string, status: string, resumeCount: nat)

  class InMemoryRunStore<E> {
    var buffers: map<string, seq<E>>
    var meta: map<string, RunMeta>
    var latest: map<(string, string), string>
    var dispatches: map<string, map<string, Record>>

    /** Every known run has a log. */
    ghost predicate Valid()
      reads this
    {
      meta.Keys <= buffers.Keys
    }

    constructor ()
      ensures Valid()
      ensures buffers == map[] && meta == map[] && latest == map[] && dispatches == map[]
    {
      buffers, meta, latest, dispatches := map[], map[], map[], map[];
    }

    /** Segments of a run; a run never seen has none. */
    function Buffer(runId: string): (buffer: seq<E>)
      reads this
    {
      if runId in buffers then buffers[runId] else []
    }

    /** Outstanding dispatch records of a run. */
    function Pending(runId: string): (records: map<string, Record>)
      reads this
    {
      if runId in dispatches then dispatches[runId] else map[]
    }

    /** Idempotent by run id: a known run keeps its status, log, resume count and evidence. */
    method CreateRun(runId: string, ownerId: string, sessionId: string)
      requires Valid()
      modifies this
      ensures Valid() && runId in buffers
      ensures old(runId in meta) ==> unchanged(this)
      ensures old(runId !in meta) ==>
                && meta == old(meta)[runId := RunMeta(ownerId, sessionId, "running", 0)]
                && latest == old(latest)[(ownerId, sessionId) := runId]
                && dispatches == old(dispatches)
      ensures forall r: string :: Buffer(r) == old(Buffer(r))
    {
      if runId in meta { return; }
      meta := meta[runId := RunMeta(ownerId, sessionId, "running", 0)];
      if runId !in buffers { buffers := buffers[runId := []]; }
      latest := latest[(ownerId, sessionId) := runId];
    }

    method AppendChunks(runId: string, parts: seq<E>)
      modifies this`buffers
      ensures old(Valid()) ==> Valid()
      ensures Buffer(runId) == old(Buffer(runId)) + parts
      ensures forall r: string :: r != runId ==> Buffer(r) == old(Buffer(r))
    {
      buffers := buffers[runId := Buffer(runId) + parts];
    }

    /** Rejects an index out of range instead of touching another position. */
    method ReplaceChunk(runId: string, index: int, part: E) returns (accepted: bool)
      modifies this`buffers
      ensures buffers.Keys == old(buffers.Keys)
      ensures accepted == (0 <= index < |old(Buffer(runId))|)
      ensures Buffer(runId) == if accepted then old(Buffer(runId))[index := part] else old(Buffer(runId))
      ensures forall r: string :: r != runId ==> Buffer(r) == old(Buffer(r))
    {
      if runId !in buffers || index < 0 || index >= |buffers[runId]| { return false; }
      buffers := buffers[runId := buffers[runId][index := part]];
      return true;
    }

    method MarkFinished(runId: string, status: string)
      modifies this`meta
      ensures meta.Keys == old(meta.Keys)
      ensures meta == if runId in old(meta) then old(meta)[runId := old(meta)[runId].(status := status)] else old(meta)
    {
      if runId in meta { meta := meta[runId := meta[runId].(status := status)]; }
    }

    /** Back to running with one more resume; zero for an unknown run. */
    method MarkResuming(runId: string) returns (count: nat)
      modifies this`meta
      ensures meta.Keys == old(meta.Keys)
      ensures count == 0 <==> runId !in old(meta)
      ensures runId !in old(meta) ==> meta == old(meta)
      ensures runId in old(meta) ==>
                && count == old(meta)[runId].resumeCount + 1
                && meta == old(meta)[runId := old(meta)[runId].(status := "running", resumeCount := count)]
    {
      if runId !in meta { return 0; }
      count := meta[runId].resumeCount + 1;
      meta := meta[runId := meta[runId].(status := "running", resumeCount := count)];
    }

    method DeleteRun(runId: string)
      requires Valid()
      modifies this
      ensures Valid()
      ensures runId !in meta && Buffer(runId) == [] && Pending(runId) == map[]
      ensures meta == old(meta) - {runId} && latest == old(latest)
      ensures forall r: string :: r != runId ==> Buffer(r) == old(Buffer(r)) && Pending(r) == old(Pending(r))
    {
      meta := meta - {runId};
      buffers := buffers - {runId};
      dispatches := dispatches - {runId};
    }

    /** Creates the record or merges new fields into it. */
    method RecordDispatch(runId: string, callId: string, record: Record)
      modifies this`dispatches
      ensures var was := old(Pending(runId));
              Pending(runId) == was[callId := (if callId in was then was[callId] else map[]) + record]
      ensures forall r: string :: r != runId ==> Pending(r) == old(Pending(r))
    {
      var pending := Pending(runId);
      var current := if callId in pending then pending[callId] else map[];
      dispatches := dispatches[runId := pending[callId := current + record]];
    }

    method ClearDispatches(runId: string)
      modifies this`dispatches
      ensures Pending(runId) == map[]
      ensures forall r: string :: r != runId ==> Pending(r) == old(Pending(r))
    {
      dispatches := dispatches - {runId};
    }
  }
}
