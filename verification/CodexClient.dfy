/** The client's and the session's methods over mutable state: the mutex sections of client.go, its
    loop over the pending calls, and the session's handling, draining and finishing. Each is proved
    against the functions the step relation is made of. */
module CodexClient {
  import opened Basics
  import opened CodexTypes
  import opened CodexProtocol

  class Client {
    var nextID: nat
    var pending: map<nat, nat>
    var slots: map<nat, Option<Response>>  // the reply channel of every call, capacity one
    var closed: bool
    var closing: bool
    var notifCh: Chan<Notification>
    var stderrCh: Chan<string>
    var stderrText: string
    var waitErr: Option<string>

    function View(): Core
      reads this
    {
      Core(nextID, pending, closed)
    }

    ghost predicate Valid()
      reads this
    {
      && (forall id | id in pending :: 1 <= id <= nextID && pending[id] in slots)
      && (closing ==> closed)
    }

    constructor ()
      ensures Valid() && View() == Core(0, map[], false)
      ensures notifCh == Chan([], NOTIF_BUFFER, true) && stderrCh == Chan([], STDERR_BUFFER, true)
    {
      nextID, pending, slots, closed, closing := 0, map[], map[], false, false;
      notifCh, stderrCh := Chan([], NOTIF_BUFFER, true), Chan([], STDERR_BUFFER, true);
      stderrText, waitErr := "", None;
    }

    /** The first mutex section of request: a new ID and an empty reply channel, unless closed. */
    method BeginRequest(call: nat) returns (id: Option<nat>)
      requires Valid() && call !in slots
      modifies this`nextID, this`pending, this`slots
      ensures Valid()
      ensures closed ==> id == None && View() == old(View()) && slots == old(slots)
      ensures !closed ==>
                && id == Some(old(nextID) + 1)
                && id.value !in old(pending)
                && View() == old(View()).Register(call)
                && slots == old(slots)[call := None]
    {
      if closed {
        return None;
      }
      nextID := nextID + 1;
      slots := slots[call := None];
      pending := pending[nextID := call];
      id := Some(nextID);
    }

    /** The deferred mutex section of request. */
    method EndRequest(id: nat)
      requires Valid()
      modifies this`pending
      ensures Valid() && View() == old(View()).Unregister(id)
    {
      pending := pending - {id};
    }

    /** requestNoWait: an ID that nobody waits on. */
    method SkipID() returns (ok: bool)
      requires Valid()
      modifies this`nextID
      ensures Valid() && ok == !closed
      ensures View() == if closed then old(View()) else old(View()).Skip()
    {
      ok := !closed;
      if ok {
        nextID := nextID + 1;
      }
    }

    /** A non-blocking send into a reply channel. */
    method Offer(call: nat, response: Response)
      requires call in slots
      modifies this`slots
      ensures slots == old(slots)[call := if old(slots)[call].None? then Some(response) else old(slots)[call]]
    {
      if slots[call].None? {
        slots := slots[call := Some(response)];
      }
    }

    /** routeResponse: an unknown ID changes nothing, a known one reaches only its own call, and a
        call that was already answered keeps its answer. */
    method RouteResponse(response: Response)
      requires Valid()
      modifies this`slots
      ensures Valid() && slots.Keys == old(slots).Keys
      ensures forall c | c in slots ::
                slots[c] == if response.id in pending && pending[response.id] == c && old(slots)[c].None?
                            then Some(response) else old(slots)[c]
    {
      if response.id in pending {
        Offer(pending[response.id], response);
      }
    }

    /** failPending: nothing stays pending, and every call that was has a message in its channel;
        no channel loses the message it had. */
    method FailPending()
      requires Valid()
      modifies this`pending, this`slots
      ensures Valid() && View() == old(View()).Sweep() && slots.Keys == old(slots).Keys
      ensures forall c | c in slots && old(slots)[c].Some? :: slots[c] == old(slots)[c]
      ensures forall id | id in old(pending) :: slots[old(pending)[id]].Some?
      ensures forall c | c in slots && c !in old(View()).Waiters() :: slots[c] == old(slots)[c]
    {
      var taken := pending;
      pending := map[];
      var left := taken.Keys;
      while left != {}
        invariant left <= taken.Keys && pending == map[]
        invariant slots.Keys == old(slots).Keys
        invariant forall c | c in slots && old(slots)[c].Some? :: slots[c] == old(slots)[c]
        invariant forall id | id in taken && id !in left :: slots[taken[id]].Some?
        invariant forall c | c in slots && c !in old(View()).Waiters() :: slots[c] == old(slots)[c]
        decreases left
      {
        var id :| id in left;
        left := left - {id};
        Offer(taken[id], Response(id, Payload("", None, ""), Some(CLOSED_ERROR)));
      }
    }

    /** close: only the first call signals. */
    method Close() returns (first: bool)
      requires Valid()
      modifies this`closed, this`closing
      ensures Valid() && first == !old(closed) && View() == old(View()).Shut()
      ensures first ==> closing
      ensures !first ==> closing == old(closing)
    {
      if closed {
        return false;
      }
      closed := true;
      closing := true;
      first := true;
    }
  }

  class Session {
    const client: Client
    const threadID: string
    var events: Chan<Event>
    var done: bool
    var turnID: string
    var result: RunResult

    constructor (client: Client, threadID: string)
      ensures this.client == client && this.threadID == threadID
      ensures events == Chan([], EVENT_BUFFER, true) && !done
    {
      this.client, this.threadID := client, threadID;
      events, done, turnID := Chan([], EVENT_BUFFER, true), false, "";
      result := RunResult(Error, "", "", "", "", "");
    }

    /** emit: delivered when there is room, dropped otherwise. */
    method Emit(ev: Event)
      requires events.open
      modifies this`events
      ensures events == old(events).Offer(ev)
    {
      if |events.buf| < events.cap {
        events := events.Push(ev);
      }
    }

    /** handleNotification: the text grows by what the notification adds to the answer, whether or
        not its event found room, and only this thread's turn/completed ends the turn. */
    method HandleNotification(n: Notification, text: string, lastErr: string)
      returns (finished: Option<RunResult>, text': string, lastErr': string)
      requires events.open
      modifies this`events
      ensures text' == text + AnswerPart(n, threadID)
      ensures lastErr' == if ErrorPart(n) != "" then ErrorPart(n) else lastErr
      ensures finished ==
              if Completes(n, threadID)
              then Some(CompletedResult(n.turn, threadID, text, lastErr, TrimSpace(client.stderrText)))
              else None
      ensures events == Emitted(old(events), Handle(n, threadID, text, lastErr).event)
    {
      finished, text', lastErr' := None, text, lastErr;
      match n {
        case TurnCompleted(thread, turn) =>
          if thread != threadID {
            Emit(ProgressEvent("codex subagent thread completed"));
          } else {
            finished := Some(CompletedResult(turn, threadID, text, lastErr, TrimSpace(client.stderrText)));
          }
        case ErrorNotice(message) =>
          var msg := TrimSpace(message);
          if msg != "" {
            lastErr' := msg;
            Emit(ErrorEvent(msg));
          }
        case ItemNotice(thread, item, completed) =>
          if thread == threadID {
            text' := HandleItem(item, completed, text);
          }
        case Ignored =>
      }
    }

    /** handleItem and the emit helpers below it. */
    method HandleItem(item: Item, completed: bool, text: string) returns (text': string)
      requires events.open
      modifies this`events
      ensures text' == text + AnswerPart(ItemNotice(threadID, item, completed), threadID)
      ensures events == Emitted(old(events), ItemEvent(item, completed))
    {
      text' := text;
      match item {
        case AgentMessage(content) =>
          text' := EmitMessage(content, completed, text);
        case ExitedReviewMode(content) =>
          text' := EmitMessage(content, completed, text);
        case Reasoning(summary) =>
          if completed && TrimSpace(summary) != "" {
            Emit(ProgressEvent(TrimSpace(summary)));
          }
        case WebSearch(_) =>
          if !completed {
            Emit(ToolEvent(item, completed));
          }
        case OtherItem =>
        case _ =>
          Emit(ToolEvent(item, completed));
      }
    }

    method EmitMessage(content: string, completed: bool, text: string) returns (text': string)
      requires events.open
      modifies this`events
      ensures text' == if completed && !Blank(content) then text + content else text
      ensures events == if Blank(content) then old(events) else old(events).Offer(MessageEvent(content))
    {
      if Blank(content) {
        return text;
      }
      Emit(MessageEvent(content));
      text' := if completed then text + content else text;
    }

    /** The notification arm of a select: the head of the queue is taken and handled. */
    method TakeQueued(text: string, lastErr: string)
      returns (finished: Option<RunResult>, text': string, lastErr': string)
      requires events.open && client.notifCh.buf != []
      modifies this`events, client`notifCh
      ensures events.open && client.notifCh == old(client.notifCh).Pop()
      ensures var n := old(client.notifCh.buf)[0];
              && text' == text + AnswerPart(n, threadID)
              && lastErr' == (if ErrorPart(n) != "" then ErrorPart(n) else lastErr)
              && finished == if Completes(n, threadID)
                             then Some(CompletedResult(n.turn, threadID, text', lastErr', TrimSpace(client.stderrText)))
                             else None
    {
      var n := client.notifCh.buf[0];
      client.notifCh := client.notifCh.Pop();
      finished, text', lastErr' := HandleNotification(n, text, lastErr);
      assert Completes(n, threadID) ==> text' == text;
    }

    /** The stderr arm of a select. */
    method TakeStderr()
      requires events.open && client.stderrCh.buf != []
      modifies this`events, client`stderrCh
      ensures events == old(events).Offer(StderrEvent(old(client.stderrCh.buf)[0])) && events.open
      ensures client.stderrCh == old(client.stderrCh).Pop()
      ensures |client.stderrCh.buf| < |old(client.stderrCh.buf)|
    {
      var line := client.stderrCh.buf[0];
      client.stderrCh := client.stderrCh.Pop();
      Emit(StderrEvent(line));
    }

    /** One more of a series taken so far. */
    method TakeNext(text: string, lastErr: string, ghost taken: seq<Notification>,
                    ghost text0: string, ghost err0: string)
      returns (finished: Option<RunResult>, text': string, lastErr': string, ghost taken': seq<Notification>)
      requires events.open && client.notifCh.buf != []
      requires Folded(taken, threadID, text0, err0, text, lastErr) && NoneCompletes(taken, threadID)
      modifies this`events, client`notifCh
      ensures events.open && client.notifCh == old(client.notifCh).Pop()
      ensures taken' == taken + [old(client.notifCh.buf)[0]]
      ensures taken' + client.notifCh.buf == taken + old(client.notifCh.buf)
      ensures |client.notifCh.buf| < |old(client.notifCh.buf)|
      ensures Folded(taken', threadID, text0, err0, text', lastErr')
      ensures if finished.None? then NoneCompletes(taken', threadID) else EndsTurn(taken', threadID)
      ensures finished.Some? ==>
                finished.value ==
                CompletedResult(taken'[|taken'| - 1].turn, threadID, text', lastErr', TrimSpace(client.stderrText))
    {
      ghost var n := client.notifCh.buf[0];
      FoldGrows(taken, n, threadID, text0, err0, text, lastErr);
      EndsOrGoesOn(taken, n, threadID);
      finished, text', lastErr' := TakeQueued(text, lastErr);
      taken' := taken + [n];
    }

    /** drainRemaining. It takes queued notifications in order up to this thread's first
        turn/completed; with the channel closed it stops short of the end of the queue only there. */
    method DrainRemaining(text: string, lastErr: string)
      returns (finished: Option<RunResult>, text': string, lastErr': string, ghost taken: seq<Notification>)
      requires events.open
      modifies this`events, client`notifCh, client`stderrCh
      ensures old(client.notifCh.buf) == taken + client.notifCh.buf
      ensures Folded(taken, threadID, text, lastErr, text', lastErr')
      ensures finished.None? ==> NoneCompletes(taken, threadID)
      ensures finished.Some? ==> EndsTurn(taken, threadID)
      ensures finished.Some? ==>
                finished.value ==
                CompletedResult(taken[|taken| - 1].turn, threadID, text', lastErr', TrimSpace(client.stderrText))
      ensures !old(client.notifCh.open) && finished.None? ==> client.notifCh.buf == []
      ensures events.open
    {
      finished, text', lastErr', taken := None, text, lastErr, [];
      var stderrLive := true;
      while true
        invariant events.open && finished.None?
        invariant client.notifCh.open == old(client.notifCh.open)
        invariant old(client.notifCh.buf) == taken + client.notifCh.buf
        invariant Folded(taken, threadID, text, lastErr, text', lastErr')
        invariant NoneCompletes(taken, threadID)
        decreases |client.notifCh.buf| + |client.stderrCh.buf|, stderrLive
      {
        if
        case stderrLive && client.stderrCh.buf != [] =>
          TakeStderr();
        case stderrLive && client.stderrCh.buf == [] && !client.stderrCh.open =>
          stderrLive := false;
        case client.notifCh.buf != [] =>
          finished, text', lastErr', taken := TakeNext(text', lastErr', taken, text, lastErr);
          if finished.Some? {
            return;
          }
        case client.notifCh.buf == [] && !client.notifCh.open =>
          return;
        case client.notifCh.buf == [] && client.notifCh.open
             && !(stderrLive && (client.stderrCh.buf != [] || !client.stderrCh.open)) =>
          return;  // default
      }
    }

    /** exitedResult: with the channels closed, a crash exactly when nothing queued completed the turn; else
        the first completion's result, with the text and the error queued before it. */
    method ExitedResult(text: string, lastErr: string) returns (r: RunResult)
      requires events.open && !client.notifCh.open
      modifies this`events, client`notifCh, client`stderrCh
      ensures var queue := old(client.notifCh.buf);
              if NoneCompletes(queue, threadID) then
                && r == CrashResult(threadID, text + Answer(queue, threadID),
                                    if LatestError(queue) != "" then LatestError(queue) else lastErr,
                                    TrimSpace(client.stderrText), client.waitErr)
              else
                exists k | 0 <= k < |queue| ::
                  && Completes(queue[k], threadID) && NoneCompletes(queue[..k], threadID)
                  && r == CompletedResult(queue[k].turn, threadID, text + Answer(queue[..k], threadID),
                                          if LatestError(queue[..k]) != "" then LatestError(queue[..k]) else lastErr,
                                          TrimSpace(client.stderrText))
    {
      var finished, text', lastErr', taken := DrainRemaining(text, lastErr);
      var queue := old(client.notifCh.buf);
      if finished.Some? {
        r := finished.value;
        EndedAt(queue, taken, client.notifCh.buf, threadID, text, lastErr, text', lastErr');
      } else {
        assert queue == taken;
        r := CrashResult(threadID, text', lastErr', TrimSpace(client.stderrText), client.waitErr);
      }
    }

    /** finish: the result is stored before done is signalled, and the client is closed. */
    method Finish(r: RunResult)
      requires events.open && !done && client.Valid()
      modifies this`result, this`events, this`done, client`closed, client`closing
      ensures result == Published(r, threadID, TrimSpace(client.stderrText))
      ensures !events.open && events.buf == old(events).buf && done
      ensures client.Valid() && client.closed
    {
      var filled := r;
      if filled.sessionID == "" {
        filled := filled.(sessionID := threadID);
      }
      if filled.stderr == "" {
        filled := filled.(stderr := TrimSpace(client.stderrText));
      }
      result := filled;
      events := events.Close();
      done := true;
      var _ := client.Close();
    }
  }

  /** The thread's first turn/completed, and nothing after it. */
  ghost predicate EndsTurn(taken: seq<Notification>, thread: string) {
    taken != [] && Completes(taken[|taken| - 1], thread) && NoneCompletes(taken[..|taken| - 1], thread)
  }

  /** Text and error after taking some notifications, starting from text0 and err0. */
  ghost predicate Folded(taken: seq<Notification>, thread: string,
                         text0: string, err0: string, text: string, err: string)
  {
    && text == text0 + Answer(taken, thread)
    && err == if LatestError(taken) != "" then LatestError(taken) else err0
  }

  /** The completion adds neither text nor error to what came before it. */
  lemma EndedAt(queue: seq<Notification>, taken: seq<Notification>, rest: seq<Notification>, thread: string,
                text0: string, err0: string, text: string, err: string)
    requires queue == taken + rest
    requires Folded(taken, thread, text0, err0, text, err) && EndsTurn(taken, thread)
    ensures var k := |taken| - 1;
            && k < |queue| && queue[k] == taken[k]
            && Completes(queue[k], thread) && NoneCompletes(queue[..k], thread)
            && text == text0 + Answer(queue[..k], thread)
            && err == if LatestError(queue[..k]) != "" then LatestError(queue[..k]) else err0
  {
    var k := |taken| - 1;
    assert queue[..k] == taken[..k];
    assert taken == taken[..k] + [taken[k]];
    AnswerLast(taken[..k], taken[k], thread);
  }

  lemma EndsOrGoesOn(taken: seq<Notification>, n: Notification, thread: string)
    requires NoneCompletes(taken, thread)
    ensures if Completes(n, thread) then EndsTurn(taken + [n], thread) else NoneCompletes(taken + [n], thread)
  {
    var all := taken + [n];
    assert all[..|all| - 1] == taken;
  }

  lemma AnswerLast(taken: seq<Notification>, n: Notification, thread: string)
    ensures Answer(taken + [n], thread) == Answer(taken, thread) + AnswerPart(n, thread)
    ensures LatestError(taken + [n]) == if ErrorPart(n) != "" then ErrorPart(n) else LatestError(taken)
  {
    var all := taken + [n];
    assert all[..|all| - 1] == taken && all[|all| - 1] == n;
  }

  lemma FoldGrows(taken: seq<Notification>, n: Notification, thread: string,
                  text0: string, err0: string, text: string, err: string)
    requires Folded(taken, thread, text0, err0, text, err)
    ensures Folded(taken + [n], thread, text0, err0, text + AnswerPart(n, thread),
                   if ErrorPart(n) != "" then ErrorPart(n) else err)
  {
    AnswerLast(taken, n, thread);
    ConcatThree(text0, Answer(taken, thread), AnswerPart(n, thread));
  }
}
