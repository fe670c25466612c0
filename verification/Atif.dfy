/** Converting session events to trajectory steps, and the writer that collects them. */
module Atif {
  import opened Basics

  // Session events

  datatype FunctionCall = FunctionCall(id: string, name: string, args: Option<map<string, string>>)
  datatype FunctionResponse = FunctionResponse(id: string, name: string, response: string)

  datatype Part = Part(
    text: string, thought: bool,
    call: Option<FunctionCall>, response: Option<FunctionResponse>)

  datatype Content = Content(role: string, parts: seq<Part>)

  datatype Event = Event(
    author: string, timestamp: string, content: Option<Content>,
    turnComplete: bool, finishReason: string)

  // Trajectory steps

  datatype Source = User | Agent | System
  datatype Message = Text(text: string) | TextParts(texts: seq<string>)
  datatype ToolCall = ToolCall(id: string, name: string, args: map<string, string>)
  datatype Observed = Observed(source: string, content: string, ref: string)

  datatype Step = Step(
    id: int, timestamp: string, source: Source, message: Message,
    toolCalls: seq<ToolCall>, observation: Option<seq<Observed>>)

  // Conversion

  /** unicode.ToLower, as far as it can yield an ASCII letter. */
  function Lower(c: char): char {
    if 'A' <= c <= 'Z' then c + ('a' - 'A')
    else if c == '\U{130}' then 'i'
    else if c == '\U{212A}' then 'k'
    else c
  }

  /** The representative strings.EqualFold compares, as far as it is an ASCII letter. */
  function Folded(c: char): char {
    if 'a' <= c <= 'z' then c - ('a' - 'A')
    else if c == '\U{17F}' then 'S'
    else if c == '\U{212A}' then 'K'
    else c
  }

  function Mapped(f: char -> char, s: string): string {
    seq(|s|, i requires 0 <= i < |s| => f(s[i]))
  }

  predicate Visible(p: Part) {
    p.text != "" && !p.thought
  }

  function MapSource(e: Event): Source {
    if e.author == "user" then User
    else if e.author in {"model", "pi", "assistant", "agent"} then Agent
    else if e.content.None? then System
    else if Mapped(Lower, TrimSpace(e.content.value.role)) in {"model", "assistant"} then Agent
    else if && e.turnComplete && Mapped(Folded, TrimSpace(e.finishReason)) == "STOP"
            && exists p | p in e.content.value.parts :: Visible(p)
    then Agent
    else System
  }

  function BuildMessage(texts: seq<string>): Message {
    if texts == [] then Text("") else if |texts| == 1 then Text(texts[0]) else TextParts(texts)
  }

  function AppendToolCall(step: Step, call: Option<FunctionCall>): Step {
    if call.None? then
      step
    else
      var c := call.value;
      step.(toolCalls := step.toolCalls + [ToolCall(c.id, c.name, if c.args.None? then map[] else c.args.value)])
  }

  function AppendObservation(step: Step, response: Option<FunctionResponse>): Step {
    if response.None? then
      step
    else
      var r := response.value;
      var results := if step.observation.None? then [] else step.observation.value;
      step.(observation := Some(results + [Observed(if r.id == "" then r.name else r.id, r.response, "")]))
  }

  function Texts(parts: seq<Part>): seq<string> {
    if parts == [] then
      []
    else
      var p := parts[|parts| - 1];
      Texts(parts[..|parts| - 1]) + if Visible(p) then [p.text] else []
  }

  function Filled(step: Step, parts: seq<Part>): Step {
    if parts == [] then
      step
    else
      var p := parts[|parts| - 1];
      AppendObservation(AppendToolCall(Filled(step, parts[..|parts| - 1]), p.call), p.response)
  }

  function Converted(event: Option<Event>, id: int): (steps: seq<Step>) {
    if event.None? || event.value.content.None? || event.value.content.value.parts == [] then
      []
    else
      var e, parts := event.value, event.value.content.value.parts;
      var blank := Step(id, e.timestamp, MapSource(e), Text(""), [], None);
      var step := Filled(blank, parts).(message := BuildMessage(Texts(parts)));
      if step.message == Text("") && step.toolCalls == [] && step.observation.None? then [] else [step]
  }

  method ConvertEvent(event: Option<Event>, id: int) returns (steps: seq<Step>)
    ensures steps == Converted(event, id)
  {
    if event.None? || event.value.content.None? || |event.value.content.value.parts| == 0 {
      return [];
    }
    var e, parts := event.value, event.value.content.value.parts;
    var step := Step(id, e.timestamp, MapSource(e), Text(""), [], None);
    ghost var blank := step;
    var texts: seq<string> := [];
    var i := 0;
    while i < |parts|
      invariant 0 <= i <= |parts|
      invariant texts == Texts(parts[..i]) && step == Filled(blank, parts[..i])
    {
      assert parts[..i + 1][..i] == parts[..i];
      var part := parts[i];
      if part.text != "" && !part.thought {
        texts := texts + [part.text];
      }
      step := AppendToolCall(step, part.call);
      step := AppendObservation(step, part.response);
      i := i + 1;
    }
    assert parts[..i] == parts;
    step := step.(message := BuildMessage(texts));
    if step.message == Text("") && |step.toolCalls| == 0 && step.observation.None? {
      return [];
    }
    return [step];
  }

  // The writer's state as a value

  datatype Writing = Writing(steps: seq<Step>, counter: int, written: seq<seq<Step>>)

  const Fresh := Writing([], 1, [])

  function Flushed(w: Writing, ok: bool): Writing {
    if ok then w.(written := w.written + [w.steps]) else w
  }

  function Taken(w: Writing, event: Option<Event>): Writing {
    var added := Converted(event, w.counter);
    w.(steps := w.steps + added, counter := w.counter + |added|)
  }

  function AllTaken(w: Writing, events: seq<Option<Event>>): Writing {
    if events == [] then w else Taken(AllTaken(w, events[..|events| - 1]), events[|events| - 1])
  }

  function Appended(w: Writing, event: Option<Event>, ok: bool): Writing {
    if Converted(event, w.counter) == [] then w else Flushed(Taken(w, event), ok)
  }

  function AppendedAll(w: Writing, events: seq<Option<Event>>, ok: bool): Writing {
    var w' := AllTaken(w, events);
    if w'.counter == w.counter then w' else Flushed(w', ok)
  }

  /** Where a result for the call is: the first one in the latest step that has one. */
  function FirstMatch(results: seq<Observed>, id: string): (j: nat)
    ensures j <= |results|
    ensures j < |results| ==> results[j].source == id
    ensures forall k | 0 <= k < j :: results[k].source != id
  {
    if results == [] then 0 else if results[0].source == id then 0 else 1 + FirstMatch(results[1..], id)
  }

  predicate Matches(step: Step, id: string) {
    step.observation.Some? && exists k :: 0 <= k < |step.observation.value| && step.observation.value[k].source == id
  }

  function Referenced(step: Step, id: string, path: string): Step
    requires Matches(step, id)
  {
    var results := step.observation.value;
    var j := FirstMatch(results, id);
    step.(observation := Some(results[j := results[j].(ref := path)]))
  }

  function WithRef(steps: seq<Step>, id: string, path: string): seq<Step> {
    if steps == [] then
      []
    else
      var front, last := steps[..|steps| - 1], steps[|steps| - 1];
      if Matches(last, id) then front + [Referenced(last, id, path)] else WithRef(front, id, path) + [last]
  }

  lemma {:induction false} FirstMatchIs(results: seq<Observed>, id: string, j: nat)
    requires j < |results| && results[j].source == id && forall k | 0 <= k < j :: results[k].source != id
    ensures FirstMatch(results, id) == j
  {
    if j > 0 {
      FirstMatchIs(results[1..], id, j - 1);
    }
  }

  lemma {:induction false} WithRefNone(steps: seq<Step>, id: string, path: string)
    requires forall k | 0 <= k < |steps| :: !Matches(steps[k], id)
    ensures WithRef(steps, id, path) == steps
  {
    if steps != [] {
      WithRefNone(steps[..|steps| - 1], id, path);
    }
  }

  lemma {:induction false} WithRefFound(steps: seq<Step>, i: nat, id: string, path: string)
    requires i < |steps| && Matches(steps[i], id) && forall k | i < k < |steps| :: !Matches(steps[k], id)
    ensures WithRef(steps, id, path) == steps[i := Referenced(steps[i], id, path)]
  {
    if i < |steps| - 1 {
      WithRefFound(steps[..|steps| - 1], i, id, path);
    }
  }

  lemma AllTakenStep(w: Writing, events: seq<Option<Event>>, i: nat)
    requires i < |events|
    ensures AllTaken(w, events[..i + 1]) == Taken(AllTaken(w, events[..i]), events[i])
  {
    assert events[..i + 1][..i] == events[..i];
  }

  // The writer

  class Writer {
    var steps: seq<Step>
    var stepCounter: int
    var flushCount: nat
    var written: seq<seq<Step>>  // the trajectories that reached the file

    function Now(): Writing
      reads this
    {
      Writing(steps, stepCounter, written)
    }

    constructor ()
      ensures Now() == Fresh && flushCount == 0
    {
      steps, stepCounter, flushCount, written := [], 1, 0, [];
    }

    /** ok says whether the file can be written. */
    method Flush(ok: bool) returns (error: bool)
      requires flushCount == |written|
      modifies this`flushCount, this`written
      ensures Now() == Flushed(old(Now()), ok) && error == !ok && flushCount == |written|
    {
      if ok {
        written := written + [steps];
        flushCount := flushCount + 1;
      }
      error := !ok;
    }

    method AppendEvent(event: Option<Event>, ok: bool) returns (error: bool)
      requires flushCount == |written|
      modifies this
      ensures Now() == Appended(old(Now()), event, ok) && flushCount == |written|
      ensures error <==> steps != old(steps) && !ok
    {
      var added := ConvertEvent(event, stepCounter);
      if |added| == 0 {
        return false;
      }
      steps := steps + added;
      stepCounter := stepCounter + |added|;
      error := Flush(ok);
    }

    method AppendEvents(events: seq<Option<Event>>, ok: bool) returns (error: bool)
      requires flushCount == |written|
      modifies this
      ensures Now() == AppendedAll(old(Now()), events, ok) && flushCount == |written|
      ensures error <==> stepCounter != old(stepCounter) && !ok
    {
      var flushed := false;
      var i := 0;
      while i < |events|
        invariant 0 <= i <= |events|
        invariant Now() == AllTaken(old(Now()), events[..i])
        invariant stepCounter >= old(stepCounter) && flushed == (stepCounter > old(stepCounter))
        invariant flushCount == |written|
      {
        AllTakenStep(old(Now()), events, i);
        var added := ConvertEvent(events[i], stepCounter);
        i := i + 1;
        if |added| == 0 {
          continue;
        }
        steps := steps + added;
        stepCounter := stepCounter + |added|;
        flushed := true;
      }
      assert events[..i] == events;
      if !flushed {
        return false;
      }
      error := Flush(ok);
    }

    method SetSubagentRef(id: string, path: string)
      modifies this`steps
      ensures steps == WithRef(old(steps), id, path)
    {
      var i := |steps| - 1;
      while i >= 0
        invariant -1 <= i < |steps| && steps == old(steps)
        invariant forall k | i < k < |steps| :: !Matches(steps[k], id)
        decreases i
      {
        var step := steps[i];
        if step.observation.None? {
          i := i - 1;
          continue;
        }
        var results := step.observation.value;
        var j := 0;
        while j < |results|
          invariant 0 <= j <= |results| && steps == old(steps)
          invariant forall k | 0 <= k < j :: results[k].source != id
        {
          if results[j].source == id {
            FirstMatchIs(results, id, j);
            WithRefFound(steps, i, id, path);
            steps := steps[i := step.(observation := Some(results[j := results[j].(ref := path)]))];
            return;
          }
          j := j + 1;
        }
        i := i - 1;
      }
      WithRefNone(steps, id, path);
    }

    method Close(ok: bool) returns (error: bool)
      requires flushCount == |written|
      modifies this
      ensures Now() == (if old(steps) == [] then old(Now()) else Flushed(old(Now()), ok)) && flushCount == |written|
      ensures error <==> old(steps) != [] && !ok
    {
      if |steps| == 0 {
        return false;
      }
      error := Flush(ok);
    }
  }
}
