/** StreamDedup: which text parts of an event stream are shown, so that a streamed reply, which ADK
    sends once in pieces and once more whole, is shown once. */
module StreamDedup {
  import opened Basics

  type Bytes = seq<byte>

  datatype Role = Model | Thinking | OtherRole(name: string)

  datatype FunctionCall = FunctionCall(name: string, args: string)

  datatype FunctionResponse = FunctionResponse(name: string, response: string)

  datatype Part = Part(text: Bytes, call: Option<FunctionCall>, response: Option<FunctionResponse>)

  datatype Content = Content(role: Role, parts: seq<Part>)

  datatype Event = Event(author: string, partial: bool, content: Option<Content>)

  predicate ModelRole(role: Role) {
    role.Model? || role.Thinking?
  }

  /** The flag after BeginEvent. */
  function Begun(streamed: bool, ev: Event): bool {
    if ev.content.Some? && !ModelRole(ev.content.value.role) then false else streamed
  }

  class StreamDedup {
    var streamed: bool

    constructor ()
      ensures !streamed
    {
      streamed := false;
    }

    method BeginEvent(ev: Event)
      modifies this
      ensures streamed == Begun(old(streamed), ev)
    {
      if ev.content.None? {
        return;
      }
      if !ModelRole(ev.content.value.role) {
        streamed := false;
      }
    }

    /** A text part is skipped exactly when it is the aggregate of text already streamed. */
    method SkipText(ev: Event) returns (skip: bool)
      modifies this
      ensures skip == (old(streamed) && !ev.partial)
      ensures streamed == (old(streamed) || ev.partial)
    {
      if ev.partial {
        streamed := true;
        return false;
      }
      skip := streamed;
    }
  }
}
