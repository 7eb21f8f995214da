// A tool call between its streamed form and its form in the history (src/flops_agent/tools/schema.py).
module ToolCalls {
  import opened Prelude
  import T = ToolArguments

  /** A value read from a stored history entry: `Other` is anything but a string, with its JSON form, its printed
      form, and whether it counts as true. */
  datatype Field = Absent | Text(s: string) | Other(json: string, printed: string, truthy: bool)

  /** A history entry's id, and the name and arguments under its `function`. */
  datatype Entry = Entry(id: Field, name: Field, arguments: Field)

  datatype ToolCall = ToolCall(id: Option<string>, name: string, arguments: string)

  function FromDict(e: Entry): (call: ToolCall) {
    ToolCall(
      if e.id.Text? then Some(e.id.s) else None,
      match e.name {
        case Text(s) => s
        case Other(_, printed, truthy) => if truthy then printed else ""
        case Absent => ""
      },
      match e.arguments {
        case Text(s) => s
        case Other(json, _, truthy) => if truthy then json else "{}"
        case Absent => "{}"
      })
  }

  function ToOpenAI(call: ToolCall): (e: Entry) {
    Entry(if call.id.Some? then Text(call.id.value) else Absent, Text(call.name), Text(call.arguments))
  }

  /** What was streamed is what a resumed process dispatches. */
  lemma StreamedCallSurvives(call: ToolCall)
    ensures FromDict(ToOpenAI(call)) == call
  {
  }

  /** A stored entry comes back unchanged iff its name and arguments are strings and its id is one or missing. */
  lemma EntrySurvivesIff(e: Entry)
    ensures ToOpenAI(FromDict(e)) == e <==> e.name.Text? && e.arguments.Text? && !e.id.Other?
  {
  }

  /** Read back without arguments, or with none to speak of, a call is dispatched with the empty object. */
  lemma MissingArgumentsAreEmptyObject(e: Entry)
    requires e.arguments.Absent? || (e.arguments.Other? && !e.arguments.truthy)
    ensures FromDict(e).arguments == T.Text(T.Obj("", T.NoMembers))
    ensures T.ParseToolArguments(T.ArgumentText(FromDict(e).arguments)) == T.Parsed("{}", false)
  {
    var empty := T.Obj("", T.NoMembers);
    assert T.Valid(empty) && T.Text(empty) == "{}";
    T.WholeObjectIsParsed(empty);
  }

  /** A name or arguments that are not text are read in their printed and their JSON form, an id that is not text is
      taken for missing, and what is missing or counts as false is read as an empty name. */
  lemma OtherFieldsAreRead(e: Entry)
    ensures !e.id.Text? ==> FromDict(e).id == None
    ensures e.name.Absent? || (e.name.Other? && !e.name.truthy) ==> FromDict(e).name == ""
    ensures e.name.Other? && e.name.truthy ==> FromDict(e).name == e.name.printed
    ensures e.arguments.Other? && e.arguments.truthy ==> FromDict(e).arguments == e.arguments.json
  {
  }
}
