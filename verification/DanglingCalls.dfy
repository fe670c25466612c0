/** Closing tool calls that an interrupted turn left without a response, before every turn. */
module DanglingCalls {
  import opened Basics

  datatype Call = Call(id: string, name: string)

  datatype Response = Response(id: string, name: string, result: Result)

  datatype Result = Returned(text: string) | Interrupted  // may or may not have run

  /** One part of a message; the recorded form does not keep calls and responses apart. */
  datatype Part = Part(call: Option<Call>, response: Option<Response>)

  datatype Event = Event(author: string, content: Option<seq<Part>>)

  type History = seq<Event>

  // The specification

  /** Every part recorded, in order. */
  function Parts(h: History): seq<Part> {
    if h == [] then
      []
    else
      var last := h[|h| - 1];
      Parts(h[..|h| - 1]) + if last.content.None? then [] else last.content.value
  }

  function Calls(parts: seq<Part>): seq<Call> {
    if parts == [] then
      []
    else
      var last := parts[|parts| - 1];
      Calls(parts[..|parts| - 1]) + if last.call.Some? then [last.call.value] else []
  }

  /** The IDs answered. A response beside a call in the same part is not looked at. */
  function Answered(parts: seq<Part>): set<string> {
    set p | p in parts && p.call.None? && p.response.Some? :: p.response.value.id
  }

  function Closing(c: Call): Part {
    Part(None, Some(Response(c.id, c.name, Interrupted)))
  }

  function Unanswered(calls: seq<Call>, answered: set<string>): seq<Call> {
    if calls == [] then
      []
    else
      var last := calls[|calls| - 1];
      Unanswered(calls[..|calls| - 1], answered) + if last.id in answered then [] else [last]
  }

  function Closings(calls: seq<Call>): (parts: seq<Part>) {
    seq(|calls|, i requires 0 <= i < |calls| => Closing(calls[i]))
  }

  function Dangling(h: History): seq<Part> {
    Closings(Unanswered(Calls(Parts(h)), Answered(Parts(h))))
  }

  function Repaired(h: History): History {
    if Dangling(h) == [] then h else h + [Event("pi", Some(Dangling(h)))]
  }

  /** What the surroundings do during one turn. The hook may rewrite the history, even when it fails; the
      runner records the user's message and any number of events, whole turn or not. */
  datatype Turn = Turn(
    hook: History -> History, hookFails: bool,
    getFails: bool, appendFails: bool,
    recorded: seq<Event>)

  datatype Error = HookFailed | GetFailed | AppendFailed

  /** The history after a turn, what the runner was dispatched on, and the error that kept it from it. */
  datatype Outcome = Outcome(history: History, dispatched: Option<History>, error: Option<Error>)

  function TurnOf(h: History, t: Turn): Outcome {
    var hooked := t.hook(h);
    if t.hookFails then Outcome(hooked, None, Some(HookFailed))
    else if t.getFails then Outcome(hooked, None, Some(GetFailed))
    else if Dangling(hooked) != [] && t.appendFails then Outcome(hooked, None, Some(AppendFailed))
    else Outcome(Repaired(hooked) + t.recorded, Some(Repaired(hooked)), None)
  }

  // The program

  method DanglingResponses(events: History) returns (out: seq<Part>)
    ensures out == Dangling(events)
  {
    var calls: seq<Call> := [];
    var answered: set<string> := {};
    assert Collected([], calls, answered);
    var i := 0;
    while i < |events|
      invariant 0 <= i <= |events|
      invariant Collected(Parts(events[..i]), calls, answered)
    {
      assert events[..i + 1][..i] == events[..i];
      if events[i].content.None? {
        assert Parts(events[..i + 1]) == Parts(events[..i]);
        i := i + 1;
        continue;
      }
      var parts := events[i].content.value;
      ghost var before := Parts(events[..i]);
      assert before + parts[..0] == before;
      var j := 0;
      while j < |parts|
        invariant 0 <= j <= |parts|
        invariant Collected(before + parts[..j], calls, answered)
      {
        var p := parts[j];
        assert before + parts[..j + 1] == before + parts[..j] + [p];
        CollectOne(before + parts[..j], calls, answered, p);
        if p.call.Some? {
          calls := calls + [p.call.value];
        } else if p.response.Some? {
          answered := answered + {p.response.value.id};
        }
        j := j + 1;
      }
      assert parts[..j] == parts;
      assert Parts(events[..i + 1]) == before + parts[..j];
      i := i + 1;
    }
    assert events[..i] == events;
    out := [];
    i := 0;
    while i < |calls|
      invariant 0 <= i <= |calls|
      invariant out == Closings(Unanswered(calls[..i], answered))
    {
      assert calls[..i + 1][..i] == calls[..i];
      if calls[i].id !in answered {
        out := out + [Closing(calls[i])];
      }
      i := i + 1;
    }
    assert calls[..i] == calls;
  }

  lemma OnePartMore(parts: seq<Part>, p: Part)
    ensures Calls(parts + [p]) == Calls(parts) + if p.call.Some? then [p.call.value] else []
    ensures Answered(parts + [p]) ==
            Answered(parts) + if p.call.None? && p.response.Some? then {p.response.value.id} else {}
  {
    assert (parts + [p])[..|parts|] == parts;
  }

  ghost predicate Collected(parts: seq<Part>, calls: seq<Call>, answered: set<string>) {
    calls == Calls(parts) && answered == Answered(parts)
  }

  lemma CollectOne(parts: seq<Part>, calls: seq<Call>, answered: set<string>, p: Part)
    requires Collected(parts, calls, answered)
    ensures if p.call.Some? then Collected(parts + [p], calls + [p.call.value], answered)
            else if p.response.Some? then Collected(parts + [p], calls, answered + {p.response.value.id})
            else Collected(parts + [p], calls, answered)
  {
    OnePartMore(parts, p);
  }

  class Agent {
    var history: History
    var dispatched: seq<History>  // what the runner was given, turn by turn

    constructor ()
      ensures history == [] && dispatched == []
    {
      history, dispatched := [], [];
    }

    method RunPreTurn(t: Turn) returns (err: Option<Error>)
      modifies this`history
      ensures history == t.hook(old(history))
      ensures err == if t.hookFails then Some(HookFailed) else None
    {
      history := t.hook(history);
      err := if t.hookFails then Some(HookFailed) else None;
    }

    method RepairDanglingCalls(t: Turn) returns (err: Option<Error>)
      modifies this`history
      ensures err.Some? ==> history == old(history)
      ensures err.None? ==> history == Repaired(old(history))
      ensures err == if t.getFails then Some(GetFailed)
                     else if Dangling(old(history)) != [] && t.appendFails then Some(AppendFailed)
                     else None
    {
      if t.getFails {
        return Some(GetFailed);
      }
      var parts := DanglingResponses(history);
      if |parts| == 0 {
        return None;
      }
      if t.appendFails {
        return Some(AppendFailed);
      }
      history := history + [Event("pi", Some(parts))];
      return None;
    }

    /** Run and RunStreaming: the hook, the repair, and only then the runner. */
    method Run(t: Turn) returns (err: Option<Error>)
      modifies this
      ensures var o := TurnOf(old(history), t);
              && history == o.history && err == o.error
              && dispatched == old(dispatched) + if o.dispatched.Some? then [o.dispatched.value] else []
    {
      err := RunPreTurn(t);
      if err.Some? {
        return;
      }
      err := RepairDanglingCalls(t);
      if err.Some? {
        return;
      }
      dispatched := dispatched + [history];
      history := history + t.recorded;
    }
  }

  // What the repair does to a history.

  function CallsIn(h: History): seq<Call> {
    Calls(Parts(h))
  }

  function AnsweredIn(h: History): set<string> {
    Answered(Parts(h))
  }

  ghost predicate Whole(h: History) {
    forall c | c in CallsIn(h) :: c.id in AnsweredIn(h)
  }

  lemma {:induction false} CallsConcat(a: seq<Part>, b: seq<Part>)
    ensures Calls(a + b) == Calls(a) + Calls(b)
  {
    if b == [] {
      assert a + b == a;
    } else {
      assert (a + b)[..|a + b| - 1] == a + b[..|b| - 1];
      CallsConcat(a, b[..|b| - 1]);
    }
  }

  function Ids(calls: seq<Call>): set<string> {
    set c | c in calls :: c.id
  }

  lemma ClosingsLast(calls: seq<Call>, c: Call)
    ensures Closings(calls + [c]) == Closings(calls) + [Closing(c)]
  {
  }

  lemma IdsLast(calls: seq<Call>, c: Call)
    ensures Ids(calls + [c]) == Ids(calls) + {c.id}
  {
  }

  lemma {:induction false} ClosingsCallNothing(calls: seq<Call>)
    ensures Calls(Closings(calls)) == []
    ensures Answered(Closings(calls)) == Ids(calls)
  {
    if calls != [] {
      var front, last := calls[..|calls| - 1], calls[|calls| - 1];
      assert calls == front + [last];
      ClosingsCallNothing(front);
      ClosingsLast(front, last);
      IdsLast(front, last);
      OnePartMore(Closings(front), Closing(last));
    }
  }

  lemma {:induction false} UnansweredExactly(calls: seq<Call>, answered: set<string>, c: Call)
    ensures c in Unanswered(calls, answered) <==> c in calls && c.id !in answered
  {
    if calls != [] {
      var front := calls[..|calls| - 1];
      UnansweredExactly(front, answered, c);
      assert calls == front + [calls[|calls| - 1]];
    }
  }

  function Times(c: Call, calls: seq<Call>): nat {
    multiset(calls)[c]
  }

  /** Each unanswered call is answered as often as it was made. */
  lemma {:induction false} UnansweredTimes(calls: seq<Call>, answered: set<string>, c: Call)
    ensures Times(c, Unanswered(calls, answered)) == if c.id in answered then 0 else Times(c, calls)
  {
    if calls != [] {
      var front, last := calls[..|calls| - 1], calls[|calls| - 1];
      UnansweredTimes(front, answered, c);
      assert calls == front + [last];
      if last.id in answered {
        assert Unanswered(calls, answered) == Unanswered(front, answered);
      }
    }
  }

  lemma RepairedParts(h: History)
    ensures Parts(Repaired(h)) == Parts(h) + Dangling(h)
  {
    if Dangling(h) != [] {
      assert Repaired(h)[..|h|] == h;
    }
  }

  lemma RepairAnswers(h: History)
    ensures CallsIn(Repaired(h)) == CallsIn(h)
    ensures AnsweredIn(Repaired(h)) == AnsweredIn(h) + Ids(Unanswered(CallsIn(h), AnsweredIn(h)))
  {
    RepairedParts(h);
    CallsConcat(Parts(h), Dangling(h));
    ClosingsCallNothing(Unanswered(CallsIn(h), AnsweredIn(h)));
  }

  lemma UnansweredIds(calls: seq<Call>, answered: set<string>)
    ensures answered + Ids(Unanswered(calls, answered)) == answered + Ids(calls)
    ensures Unanswered(calls, answered) == [] <==> forall c | c in calls :: c.id in answered
  {
    var todo := Unanswered(calls, answered);
    forall c ensures c in todo <==> c in calls && c.id !in answered {
      UnansweredExactly(calls, answered, c);
    }
    if todo != [] {
      assert todo[0] in todo;
    }
  }

  /** The repair only appends, records no call, and leaves every call answered. It does nothing exactly
      when they all were. */
  lemma RepairMakesWhole(h: History)
    ensures h <= Repaired(h) && |Repaired(h)| <= |h| + 1
    ensures CallsIn(Repaired(h)) == CallsIn(h)
    ensures AnsweredIn(Repaired(h)) == AnsweredIn(h) + Ids(CallsIn(h))
    ensures Whole(Repaired(h))
    ensures Repaired(h) == h <==> Whole(h)
  {
    RepairAnswers(h);
    UnansweredIds(CallsIn(h), AnsweredIn(h));
  }

  lemma RepairTwice(h: History)
    ensures Dangling(Repaired(h)) == [] && Repaired(Repaired(h)) == Repaired(h)
  {
    RepairMakesWhole(h);
    RepairMakesWhole(Repaired(h));
  }

  /** The k-th appended response answers the k-th unanswered call, each as often as it was made. */
  lemma AnswersInCallOrder(h: History)
    ensures var todo := Unanswered(CallsIn(h), AnsweredIn(h));
            && |Dangling(h)| == |todo|
            && (forall k | 0 <= k < |todo| ::
                  Dangling(h)[k] == Part(None, Some(Response(todo[k].id, todo[k].name, Interrupted))))
            && forall c :: Times(c, todo) == if c.id in AnsweredIn(h) then 0 else Times(c, CallsIn(h))
  {
    forall c
      ensures Times(c, Unanswered(CallsIn(h), AnsweredIn(h))) ==
              if c.id in AnsweredIn(h) then 0 else Times(c, CallsIn(h))
    {
      UnansweredTimes(CallsIn(h), AnsweredIn(h), c);
    }
  }

  /** The repair answers a call that has a response on record exactly when every such response shares
      its part with a call. */
  lemma AnsweredAgainExactly(h: History, c: Call)
    requires c in CallsIn(h)
    ensures c in Unanswered(CallsIn(h), AnsweredIn(h)) <==>
            forall p | p in Parts(h) && p.response.Some? && p.response.value.id == c.id :: p.call.Some?
  {
    UnansweredExactly(CallsIn(h), AnsweredIn(h), c);
  }

  /** As long as no part holds both a call and a response, exactly the calls without any response on record
      are answered. */
  lemma AnsweredOnceUnlessShared(h: History, c: Call)
    requires c in CallsIn(h)
    requires forall p | p in Parts(h) :: p.call.None? || p.response.None?
    ensures c in Unanswered(CallsIn(h), AnsweredIn(h)) <==>
            forall p | p in Parts(h) && p.response.Some? :: p.response.value.id != c.id
  {
    AnsweredAgainExactly(h, c);
  }

  lemma PartsOfOne(author: string, part: Part)
    ensures Parts([Event(author, Some([part]))]) == [part]
  {
    var h := [Event(author, Some([part]))];
    assert h[..0] == [] && [] + [part] == [part];
  }

  /** One part that holds a call and its response: the call is answered again. */
  lemma SharedPartAnsweredAgain(c: Call, r: Response)
    requires r.id == c.id
    ensures var h := [Event("model", Some([Part(Some(c), Some(r))]))];
            c in Unanswered(CallsIn(h), AnsweredIn(h))
  {
    var part := Part(Some(c), Some(r));
    PartsOfOne("model", part);
    OnePartMore([], part);
    assert [] + [part] == [part];
    AnsweredAgainExactly([Event("model", Some([part]))], c);
  }

  // One turn

  /** What becomes of a turn: the runner is dispatched exactly when the hook and the repair succeed, and the
      repair fails only where it must read or must append; a turn that fails leaves what the hook left; and
      the runner gets that, with one event by the agent behind it if calls were open. */
  lemma TurnExactly(h: History, t: Turn)
    ensures var o, hooked := TurnOf(h, t), t.hook(h);
            && (o.dispatched.None? <==> t.hookFails || t.getFails || (t.appendFails && !Whole(hooked)))
            && (o.error == Some(HookFailed) <==> t.hookFails)
            && (o.error == Some(GetFailed) <==> !t.hookFails && t.getFails)
            && (o.error == Some(AppendFailed) <==> !t.hookFails && !t.getFails && t.appendFails && !Whole(hooked))
            && (o.error.None? <==> o.dispatched.Some?)
            && (o.dispatched.None? ==> o.history == hooked)
            && (o.dispatched.Some? ==>
                  && o.history == o.dispatched.value + t.recorded
                  && Whole(o.dispatched.value)
                  && (Whole(hooked) ==> o.dispatched.value == hooked)
                  && (!Whole(hooked) ==> exists parts :: o.dispatched.value == hooked + [Event("pi", Some(parts))]))
  {
    RepairMakesWhole(t.hook(h));
  }

  /** What was recorded is what some event holds. */
  lemma {:induction false} PartsExactly(h: History, p: Part)
    ensures p in Parts(h) <==> exists i :: 0 <= i < |h| && h[i].content.Some? && p in h[i].content.value
  {
    if h != [] {
      PartsExactly(h[..|h| - 1], p);
    }
  }

  lemma {:induction false} CallsExactly(parts: seq<Part>, c: Call)
    ensures c in Calls(parts) <==> exists p | p in parts :: p.call == Some(c)
  {
    if parts != [] {
      var front, last := parts[..|parts| - 1], parts[|parts| - 1];
      assert parts == front + [last];
      CallsExactly(front, c);
    }
  }

  // Runs of turns

  /** The history after the turns, and what the runner was dispatched on, in order. */
  function After(turns: seq<Turn>): (r: (History, seq<History>)) {
    if turns == [] then
      ([], [])
    else
      var (h, ds) := After(turns[..|turns| - 1]);
      var o := TurnOf(h, turns[|turns| - 1]);
      (o.history, ds + if o.dispatched.Some? then [o.dispatched.value] else [])
  }

  /** However each turn was cut off and whatever the hooks did to the history, the runner is only ever
      dispatched on a history whose calls are all answered. */
  lemma {:induction false} DispatchedWhole(turns: seq<Turn>)
    ensures forall i | 0 <= i < |After(turns).1| :: Whole(After(turns).1[i])
  {
    if turns != [] {
      var front, last := turns[..|turns| - 1], turns[|turns| - 1];
      DispatchedWhole(front);
      RepairMakesWhole(last.hook(After(front).0));
    }
  }

  /** Nothing recorded is lost while hooks only append. */
  lemma {:induction false} NothingLost(turns: seq<Turn>, n: nat)
    requires n <= |turns|
    requires forall i, h | n <= i < |turns| :: h <= turns[i].hook(h)
    ensures After(turns[..n]).0 <= After(turns).0
    decreases |turns|
  {
    if n == |turns| {
      assert turns[..n] == turns;
    } else {
      var front, last := turns[..|turns| - 1], turns[|turns| - 1];
      assert front[..n] == turns[..n];
      NothingLost(front, n);
      RepairMakesWhole(last.hook(After(front).0));
    }
  }
}
