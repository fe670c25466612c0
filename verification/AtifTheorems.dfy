/** What holds of a trajectory however its writer is used. */
module AtifTheorems {
  import opened Basics
  import opened Atif

  type Events = seq<Option<Event>>

  datatype Op =
    | One(event: Option<Event>, ok: bool)
    | Many(events: Events, ok: bool)
    | Ref(id: string, path: string)
    | Close(ok: bool)

  function Do(w: Writing, op: Op): Writing {
    match op
    case One(e, ok) => Appended(w, e, ok)
    case Many(es, ok) => AppendedAll(w, es, ok)
    case Ref(id, path) => w.(steps := WithRef(w.steps, id, path))
    case Close(ok) => if w.steps == [] then w else Flushed(w, ok)
  }

  /** The writer after the operations. */
  function After(ops: seq<Op>): Writing {
    if ops == [] then Fresh else Do(After(ops[..|ops| - 1]), ops[|ops| - 1])
  }

  // Step numbers

  predicate Numbered(w: Writing) {
    w.counter == |w.steps| + 1 && forall i | 0 <= i < |w.steps| :: w.steps[i].id == i + 1
  }

  lemma {:induction false} FilledKeepsId(step: Step, parts: seq<Part>)
    ensures Filled(step, parts).id == step.id
  {
    if parts != [] {
      FilledKeepsId(step, parts[..|parts| - 1]);
    }
  }

  lemma TakenNumbered(w: Writing, e: Option<Event>)
    requires Numbered(w)
    ensures Numbered(Taken(w, e))
  {
    if Converted(e, w.counter) != [] {
      var c := e.value;
      FilledKeepsId(Step(w.counter, c.timestamp, MapSource(c), Text(""), [], None), c.content.value.parts);
    }
  }

  lemma {:induction false} AllTakenNumbered(w: Writing, es: Events)
    requires Numbered(w)
    ensures Numbered(AllTaken(w, es))
  {
    if es != [] {
      AllTakenNumbered(w, es[..|es| - 1]);
      TakenNumbered(AllTaken(w, es[..|es| - 1]), es[|es| - 1]);
    }
  }

  /** Setting a reference changes that reference only: the steps differ nowhere but in the latest step with
      a result of the call, there in the first such result, and there in the reference. */
  lemma RefChangesOneResult(steps: seq<Step>, id: string, path: string)
    ensures (forall k | 0 <= k < |steps| :: !Matches(steps[k], id)) ==> WithRef(steps, id, path) == steps
    ensures forall i | 0 <= i < |steps| && Matches(steps[i], id)
                       && (forall k | i < k < |steps| :: !Matches(steps[k], id)) ::
              var results := steps[i].observation.value;
              var j := FirstMatch(results, id);
              && j < |results| && results[j].source == id
              && (forall k | 0 <= k < j :: results[k].source != id)
              && WithRef(steps, id, path) ==
                 steps[i := steps[i].(observation := Some(results[j := results[j].(ref := path)]))]
  {
    if forall k | 0 <= k < |steps| :: !Matches(steps[k], id) {
      WithRefNone(steps, id, path);
    }
    forall i | 0 <= i < |steps| && Matches(steps[i], id) && (forall k | i < k < |steps| :: !Matches(steps[k], id))
      ensures WithRef(steps, id, path) == steps[i := Referenced(steps[i], id, path)]
    {
      WithRefFound(steps, i, id, path);
    }
  }

  lemma {:induction false} RefKeepsIds(steps: seq<Step>, id: string, path: string)
    ensures |WithRef(steps, id, path)| == |steps|
    ensures forall i | 0 <= i < |steps| :: WithRef(steps, id, path)[i].id == steps[i].id
  {
    if steps != [] {
      RefKeepsIds(steps[..|steps| - 1], id, path);
    }
  }

  /** However the writer was used, step i has ID i + 1 and the counter is one past the last step. */
  lemma {:induction false} StepsNumbered(ops: seq<Op>)
    ensures Numbered(After(ops))
  {
    if ops != [] {
      var w, op := After(ops[..|ops| - 1]), ops[|ops| - 1];
      StepsNumbered(ops[..|ops| - 1]);
      if op.One? {
        TakenNumbered(w, op.event);
      } else if op.Many? {
        AllTakenNumbered(w, op.events);
      } else if op.Ref? {
        RefKeepsIds(w.steps, op.id, op.path);
      }
    }
  }

  // A batch is its events one by one.

  function OneByOne(w: Writing, es: Events, oks: seq<bool>): Writing
    requires |oks| == |es|
  {
    if es == [] then w
    else Appended(OneByOne(w, es[..|es| - 1], oks[..|es| - 1]), es[|es| - 1], oks[|es| - 1])
  }

  lemma {:induction false} OneByOneTakes(w: Writing, es: Events, oks: seq<bool>)
    requires |oks| == |es|
    ensures OneByOne(w, es, oks).steps == AllTaken(w, es).steps
    ensures OneByOne(w, es, oks).counter == AllTaken(w, es).counter
  {
    if es != [] {
      OneByOneTakes(w, es[..|es| - 1], oks[..|es| - 1]);
    }
  }

  lemma {:induction false} TakingGrows(w: Writing, es: Events)
    ensures AllTaken(w, es).counter - w.counter == |AllTaken(w, es).steps| - |w.steps| >= 0
    ensures AllTaken(w, es).steps[..|w.steps|] == w.steps
    ensures AllTaken(w, es).written == w.written
  {
    if es != [] {
      TakingGrows(w, es[..|es| - 1]);
    }
  }

  /** Every flush of the appends one by one succeeded, the last file is the last trajectory. */
  lemma {:induction false} OneByOneFile(w: Writing, es: Events, oks: seq<bool>)
    requires |oks| == |es| && forall i | 0 <= i < |es| :: oks[i]
    ensures var r := OneByOne(w, es, oks);
            if r.counter == w.counter then r == w
            else r.counter > w.counter && r.written != [] && r.written[|r.written| - 1] == r.steps
  {
    if es != [] {
      OneByOneFile(w, es[..|es| - 1], oks[..|es| - 1]);
    }
  }

  /** Appending a batch gives the trajectory and the counter that appending its events one by one gives,
      with at most one flush, which writes the whole batch; and with no failing flush either way leaves
      the same file. */
  lemma BatchIsOneByOne(w: Writing, es: Events, oks: seq<bool>, ok: bool)
    requires |oks| == |es|
    ensures var b, o := AppendedAll(w, es, ok), OneByOne(w, es, oks);
            && b.steps == o.steps && b.counter == o.counter
            && b.written == (if b.steps != w.steps && ok then w.written + [b.steps] else w.written)
            && (ok && (forall i | 0 <= i < |es| :: oks[i]) ==>
                  if b.steps == w.steps then b == o == w
                  else o.written != [] && o.written[|o.written| - 1] == b.written[|b.written| - 1])
  {
    OneByOneTakes(w, es, oks);
    TakingGrows(w, es);
    if ok && forall i | 0 <= i < |es| :: oks[i] {
      OneByOneFile(w, es, oks);
    }
  }

  // Nothing is lost in conversion.

  function Recorded(c: FunctionCall): ToolCall {
    ToolCall(c.id, c.name, if c.args.None? then map[] else c.args.value)
  }

  function Observing(r: FunctionResponse): Observed {
    Observed(if r.id == "" then r.name else r.id, r.response, "")
  }

  /** A value for every part that has one, in order. */
  function Gathered<T>(parts: seq<Part>, f: Part -> Option<T>): seq<T> {
    if parts == [] then
      []
    else
      Gathered(parts[..|parts| - 1], f) +
      var x := f(parts[|parts| - 1]);
      if x.None? then [] else [x.value]
  }

  function CallOf(p: Part): Option<ToolCall> {
    if p.call.None? then None else Some(Recorded(p.call.value))
  }

  function ResultOf(p: Part): Option<Observed> {
    if p.response.None? then None else Some(Observing(p.response.value))
  }

  function TextOf(p: Part): Option<string> {
    if Visible(p) then Some(p.text) else None
  }

  function PartsOf(e: Option<Event>): seq<Part> {
    if e.None? || e.value.content.None? then [] else e.value.content.value.parts
  }

  function MessageTexts(m: Message): seq<string> {
    match m
    case Text(t) => if t == "" then [] else [t]
    case TextParts(ts) => ts
  }

  function Unreferenced(results: seq<Observed>): seq<Observed> {
    seq(|results|, i requires 0 <= i < |results| => results[i].(ref := ""))
  }

  function StepResults(s: Step): seq<Observed> {
    if s.observation.None? then [] else Unreferenced(s.observation.value)
  }

  /** The tool calls, the results with their references left out, and the texts of a step or steps. */
  datatype Contents = Contents(calls: seq<ToolCall>, results: seq<Observed>, texts: seq<string>)
  {
    function Then(c: Contents): Contents {
      Contents(calls + c.calls, results + c.results, texts + c.texts)
    }
  }

  const Nothing := Contents([], [], [])

  lemma ThenAssociates(a: Contents, b: Contents, c: Contents)
    ensures a.Then(b).Then(c) == a.Then(b.Then(c))
  {
    assert a.calls + b.calls + c.calls == a.calls + (b.calls + c.calls);
    assert a.results + b.results + c.results == a.results + (b.results + c.results);
    assert a.texts + b.texts + c.texts == a.texts + (b.texts + c.texts);
  }

  lemma ThenNothing(a: Contents)
    ensures a.Then(Nothing) == a && Nothing.Then(a) == a
  {
    assert a.calls + [] == a.calls == [] + a.calls;
    assert a.results + [] == a.results == [] + a.results;
    assert a.texts + [] == a.texts == [] + a.texts;
  }

  function StepContents(s: Step): Contents {
    Contents(s.toolCalls, StepResults(s), MessageTexts(s.message))
  }

  function StepsContents(steps: seq<Step>): Contents {
    if steps == [] then Nothing
    else StepsContents(steps[..|steps| - 1]).Then(StepContents(steps[|steps| - 1]))
  }

  function EventContents(e: Option<Event>): Contents {
    var parts := PartsOf(e);
    Contents(Gathered(parts, CallOf), Gathered(parts, ResultOf), Gathered(parts, TextOf))
  }

  function EventsContents(es: Events): Contents {
    if es == [] then Nothing
    else EventsContents(es[..|es| - 1]).Then(EventContents(es[|es| - 1]))
  }

  lemma {:induction false} FilledGathers(step: Step, parts: seq<Part>)
    requires step.toolCalls == [] && step.observation.None?
    ensures var s, results := Filled(step, parts), Gathered(parts, ResultOf);
            && s.toolCalls == Gathered(parts, CallOf)
            && s.observation == if results == [] then None else Some(results)
  {
    if parts != [] {
      var front, p := parts[..|parts| - 1], parts[|parts| - 1];
      FilledGathers(step, front);
      var s := Filled(step, front);
      assert AppendToolCall(s, p.call).observation == s.observation;
      assert AppendToolCall(s, p.call).toolCalls == Gathered(parts, CallOf);
      if p.response.None? {
        assert Gathered(parts, ResultOf) == Gathered(front, ResultOf);
      } else {
        assert Gathered(parts, ResultOf) == Gathered(front, ResultOf) + [Observing(p.response.value)];
      }
    }
  }

  lemma {:induction false} TextsGathers(parts: seq<Part>)
    ensures Texts(parts) == Gathered(parts, TextOf)
    ensures forall t | t in Texts(parts) :: t != ""
  {
    if parts != [] {
      TextsGathers(parts[..|parts| - 1]);
    }
  }

  lemma {:induction false} ResultsUnreferenced(parts: seq<Part>)
    ensures Unreferenced(Gathered(parts, ResultOf)) == Gathered(parts, ResultOf)
  {
    if parts != [] {
      ResultsUnreferenced(parts[..|parts| - 1]);
    }
  }

  lemma OneStepContents(step: Step)
    ensures StepsContents([step]) == StepContents(step)
  {
    assert [step][..0] == [];
    ThenNothing(StepContents(step));
  }

  lemma MessageHoldsTexts(parts: seq<Part>)
    ensures MessageTexts(BuildMessage(Texts(parts))) == Gathered(parts, TextOf)
    ensures BuildMessage(Texts(parts)) == Text("") <==> Gathered(parts, TextOf) == []
  {
    var texts := Texts(parts);
    TextsGathers(parts);
    assert |texts| == 1 ==> texts[0] in texts && texts == [texts[0]];
  }

  /** A step holds all its event held; an event that gives no step held nothing. */
  lemma ConversionKeeps(e: Option<Event>, id: int)
    ensures StepsContents(Converted(e, id)) == EventContents(e)
    ensures Converted(e, id) == [] <==> EventContents(e) == Nothing
  {
    var parts := PartsOf(e);
    if parts != [] {
      var c := e.value;
      var blank := Step(id, c.timestamp, MapSource(c), Text(""), [], None);
      var step := Filled(blank, parts).(message := BuildMessage(Texts(parts)));
      FilledGathers(blank, parts);
      MessageHoldsTexts(parts);
      ResultsUnreferenced(parts);
      OneStepContents(step);
    }
  }

  lemma StepsContentsLast(steps: seq<Step>, more: seq<Step>)
    requires |more| <= 1
    ensures StepsContents(steps + more) == StepsContents(steps).Then(StepsContents(more))
  {
    if more == [] {
      assert steps + more == steps;
      ThenNothing(StepsContents(steps));
    } else {
      var all := steps + more;
      assert all[..|all| - 1] == steps && all[|all| - 1] == more[0] && more == [more[0]];
      OneStepContents(more[0]);
    }
  }

  lemma TakenKeeps(w: Writing, e: Option<Event>)
    ensures StepsContents(Taken(w, e).steps) == StepsContents(w.steps).Then(EventContents(e))
  {
    ConversionKeeps(e, w.counter);
    StepsContentsLast(w.steps, Converted(e, w.counter));
  }

  lemma {:induction false} AllTakenKeeps(w: Writing, es: Events)
    ensures StepsContents(AllTaken(w, es).steps) == StepsContents(w.steps).Then(EventsContents(es))
  {
    if es == [] {
      ThenNothing(StepsContents(w.steps));
    } else {
      var front, last := es[..|es| - 1], es[|es| - 1];
      AllTakenKeeps(w, front);
      TakenKeeps(AllTaken(w, front), last);
      ThenAssociates(StepsContents(w.steps), EventsContents(front), EventContents(last));
    }
  }

  lemma {:induction false} RefKeeps(steps: seq<Step>, id: string, path: string)
    ensures StepsContents(WithRef(steps, id, path)) == StepsContents(steps)
  {
    if steps != [] {
      var front, last := steps[..|steps| - 1], steps[|steps| - 1];
      if Matches(last, id) {
        assert StepResults(Referenced(last, id, path)) == StepResults(last);
      } else {
        RefKeeps(front, id, path);
      }
    }
  }

  /** The events appended by the operations, in order. */
  function AppendedBy(ops: seq<Op>): Events {
    if ops == [] then
      []
    else
      AppendedBy(ops[..|ops| - 1]) + EventsOf(ops[|ops| - 1])
  }

  lemma {:induction false} EventsContentsConcat(a: Events, b: Events)
    ensures EventsContents(a + b) == EventsContents(a).Then(EventsContents(b))
  {
    if b == [] {
      assert a + b == a;
      ThenNothing(EventsContents(a));
    } else {
      var front, last := b[..|b| - 1], b[|b| - 1];
      assert (a + b)[..|a + b| - 1] == a + front;
      EventsContentsConcat(a, front);
      ThenAssociates(EventsContents(a), EventsContents(front), EventContents(last));
    }
  }

  function EventsOf(op: Op): Events {
    if op.One? then [op.event] else if op.Many? then op.events else []
  }

  lemma DoKeeps(w: Writing, op: Op)
    ensures StepsContents(Do(w, op).steps) == StepsContents(w.steps).Then(EventsContents(EventsOf(op)))
  {
    if op.One? {
      TakenKeeps(w, op.event);
      assert [op.event][..0] == [];
      ThenNothing(EventContents(op.event));
      ConversionKeeps(op.event, w.counter);
      ThenNothing(StepsContents(w.steps));
    } else if op.Many? {
      AllTakenKeeps(w, op.events);
    } else {
      ThenNothing(StepsContents(w.steps));
      if op.Ref? {
        RefKeeps(w.steps, op.id, op.path);
      }
    }
  }

  /** However events were appended, the steps hold, in order, every call, result and visible text of the
      events and nothing else, references aside. */
  lemma {:induction false} NothingLost(ops: seq<Op>)
    ensures StepsContents(After(ops).steps) == EventsContents(AppendedBy(ops))
  {
    if ops != [] {
      var front, op := ops[..|ops| - 1], ops[|ops| - 1];
      NothingLost(front);
      DoKeeps(After(front), op);
      EventsContentsConcat(AppendedBy(front), EventsOf(op));
    }
  }

  // The file keeps up.

  predicate NoneFails(ops: seq<Op>) {
    forall i | 0 <= i < |ops| :: ops[i].Ref? || ops[i].ok
  }

  /** The file holds every step, references aside. */
  ghost predicate Current(w: Writing) {
    if w.steps == [] then
      w.written == []
    else
      && w.written != []
      && |w.written[|w.written| - 1]| == |w.steps|
      && StepsContents(w.written[|w.written| - 1]) == StepsContents(w.steps)
  }

  lemma FlushedCurrent(w: Writing)
    requires w.steps != []
    ensures Current(Flushed(w, true))
  {
    var f := Flushed(w, true);
    assert f.written[|f.written| - 1] == w.steps;
  }

  lemma DoCurrent(w: Writing, op: Op)
    requires Current(w) && (op.Ref? || op.ok)
    ensures Current(Do(w, op))
  {
    if op.One? {
      if Converted(op.event, w.counter) != [] {
        FlushedCurrent(Taken(w, op.event));
      }
    } else if op.Many? {
      var all := AllTaken(w, op.events);
      TakingGrows(w, op.events);
      if all.counter == w.counter {
        assert all.steps == all.steps[..|w.steps|];
        assert all == w;
      } else {
        FlushedCurrent(all);
      }
    } else if op.Ref? {
      RefKeeps(w.steps, op.id, op.path);
      RefKeepsIds(w.steps, op.id, op.path);
      assert Do(w, op).steps == [] <==> w.steps == [];
    } else if w.steps != [] {
      FlushedCurrent(w);
    }
  }

  /** While no flush fails, the file holds every step appended. */
  lemma {:induction false} FileHolds(ops: seq<Op>)
    requires NoneFails(ops)
    ensures Current(After(ops))
  {
    if ops != [] {
      FileHolds(ops[..|ops| - 1]);
      DoCurrent(After(ops[..|ops| - 1]), ops[|ops| - 1]);
    }
  }

  // Where a step comes from

  /** c is the small letter or its capital; one odd letter also counts as that plain one. */
  predicate CasedLetter(c: char, small: char, odd: char, plain: char) {
    c == small || c as int + 32 == small as int || (c == odd && small == plain)
  }

  /** t is the word, whatever the case of its letters. */
  predicate Cased(t: string, word: string, odd: char, plain: char) {
    |t| == |word| && forall i | 0 <= i < |t| :: CasedLetter(t[i], word[i], odd, plain)
  }

  /** A word of small letters, none of them k. */
  predicate SmallLetters(word: string) {
    forall i | 0 <= i < |word| :: 'a' <= word[i] <= 'z' && word[i] != 'k'
  }

  lemma LowerLetter(c: char, small: char)
    requires 'a' <= small <= 'z' && small != 'k'
    ensures Lower(c) == small <==> CasedLetter(c, small, '\U{130}', 'i')
  {
  }

  lemma FoldedLetter(c: char, small: char)
    requires 'a' <= small <= 'z' && small != 'k'
    ensures Folded(c) as int + 32 == small as int <==> CasedLetter(c, small, '\U{17F}', 's')
  {
  }

  lemma LowerExactly(t: string, word: string)
    requires SmallLetters(word)
    ensures Mapped(Lower, t) == word <==> Cased(t, word, '\U{130}', 'i')
  {
    forall i | 0 <= i < |t| && i < |word|
      ensures Mapped(Lower, t)[i] == word[i] <==> CasedLetter(t[i], word[i], '\U{130}', 'i')
    {
      LowerLetter(t[i], word[i]);
    }
  }

  lemma FoldedStop(t: string)
    ensures Mapped(Folded, t) == "STOP" <==> Cased(t, "stop", '\U{17F}', 's')
  {
    var small, big := "stop", "STOP";
    assert forall i | 0 <= i < 4 :: big[i] as int + 32 == small[i] as int;
    forall i | 0 <= i < |t| && i < 4
      ensures Mapped(Folded, t)[i] == big[i] <==> CasedLetter(t[i], small[i], '\U{17F}', 's')
    {
      FoldedLetter(t[i], small[i]);
    }
  }

  /** The event speaks for the agent: by its author, by its content's role, or as the end of a turn that the
      model stopped with something to show. */
  ghost predicate SpeaksForAgent(e: Event) {
    || e.author == "model" || e.author == "pi" || e.author == "assistant" || e.author == "agent"
    || (e.content.Some?
        && (|| Cased(TrimSpace(e.content.value.role), "model", '\U{130}', 'i')
            || Cased(TrimSpace(e.content.value.role), "assistant", '\U{130}', 'i')
            || (e.turnComplete && Cased(TrimSpace(e.finishReason), "stop", '\U{17F}', 's')
                && exists p | p in e.content.value.parts :: p.text != "" && !p.thought)))
  }

  /** Whom a step is from. */
  lemma SourceExactly(e: Event)
    ensures MapSource(e) == User <==> e.author == "user"
    ensures MapSource(e) == Agent <==> e.author != "user" && SpeaksForAgent(e)
  {
    if e.content.Some? {
      LowerExactly(TrimSpace(e.content.value.role), "model");
      LowerExactly(TrimSpace(e.content.value.role), "assistant");
      FoldedStop(TrimSpace(e.finishReason));
    }
  }

  lemma {:induction false} FilledKeepsHeader(step: Step, parts: seq<Part>)
    ensures var f := Filled(step, parts);
            f.id == step.id && f.timestamp == step.timestamp && f.source == step.source
  {
    if parts != [] {
      FilledKeepsHeader(step, parts[..|parts| - 1]);
    }
  }

  /** A step has the number asked for and its event's time and source, and its message is plain text unless it
      holds more than one. */
  lemma StepHeader(event: Option<Event>, id: int)
    requires Converted(event, id) != []
    ensures var e, step := event.value, Converted(event, id)[0];
            && step.id == id && step.timestamp == e.timestamp
            && (step.source == User <==> e.author == "user")
            && (step.source == Agent <==> e.author != "user" && SpeaksForAgent(e))
            && (step.message.TextParts? ==> |step.message.texts| > 1)
  {
    var e := event.value;
    SourceExactly(e);
    FilledKeepsHeader(Step(id, e.timestamp, MapSource(e), Text(""), [], None), e.content.value.parts);
  }
}
