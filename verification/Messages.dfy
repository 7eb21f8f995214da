// The history message shared by the runner, the database and the projection.
module Messages {

  /** One function call requested by the model. An empty id stands for a missing one. */
  datatype Call = Call(id: string, name: string, arguments: string)

  /** `companion`: a system-supplied user-shaped message attached to the preceding turn. `notice`: a
      structured notification. `metadata`: the user message's metadata, already formatted. */
  datatype Message =
    | System(content: string)
    | User(content: string, companion: bool, notice: bool, metadata: string)
    | Assistant(content: string, reasoning: string, calls: seq<Call>)
    | Tool(callId: string, content: string)
  {
    /** An assistant turn that requests tools. */
    predicate Requests() { Assistant? && calls != [] }
  }

  function Ids(calls: seq<Call>): (ids: seq<string>)
    ensures |ids| == |calls|
    ensures forall i :: 0 <= i < |calls| ==> ids[i] == calls[i].id
  {
    seq(|calls|, i requires 0 <= i < |calls| => calls[i].id)
  }
}
