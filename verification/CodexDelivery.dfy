/** What the consumer of a session's events gets of what the session emits. */
module CodexDelivery {
  import opened Basics
  import opened CodexTypes
  import opened CodexProtocol
  import opened CodexInvariant
  import opened CodexTheorems

  /** The event a step emits, if it emits one. */
  function EmittedBy(s: State, step: Step): Option<Event>
    requires Can(s, step)
  {
    if step == BySession(OnStderr) then
      Some(StderrEvent(s.stderrCh.buf[0]))
    else if step == BySession(OnNotification) then
      Handle(s.notifCh.buf[0], s.ses.thread, s.ses.text, s.ses.lastErr).event
    else
      None
  }

  function ListOf<T>(x: Option<T>): seq<T> {
    if x.None? then [] else [x.value]
  }

  /** The events the session emitted in the first n steps, whether or not they found room. */
  function Offered(run: Run, n: nat): seq<Event>
    requires IsRun(run) && n <= |run.steps|
  {
    if n == 0 then
      []
    else
      assert Follows(run, n - 1);
      Offered(run, n - 1) + ListOf(EmittedBy(run.states[n - 1], run.steps[n - 1]))
  }

  /** How many of them were dropped, because the queue was full. */
  function Dropped(run: Run, n: nat): nat
    requires IsRun(run) && n <= |run.steps|
  {
    if n == 0 then
      0
    else
      assert Follows(run, n - 1);
      var s := run.states[n - 1];
      Dropped(run, n - 1) + if EmittedBy(s, run.steps[n - 1]).Some? && !s.ses.events.Room() then 1 else 0
  }

  /** The events the consumer took. */
  function Received(run: Run, n: nat): seq<Event>
    requires IsRun(run) && n <= |run.steps|
  {
    if n == 0 then
      []
    else
      assert Follows(run, n - 1);
      Received(run, n - 1) + if run.steps[n - 1].ByConsumer? then [run.states[n - 1].ses.events.buf[0]] else []
  }

  /** a is b with some elements left out. */
  predicate IsSubsequence<T(==)>(a: seq<T>, b: seq<T>) {
    || a == []
    || (b != []
        && (|| IsSubsequence(a, b[..|b| - 1])
            || (a[|a| - 1] == b[|b| - 1] && IsSubsequence(a[..|a| - 1], b[..|b| - 1]))))
  }

  lemma SubsequenceGrows<T>(a: seq<T>, b: seq<T>, x: T)
    requires IsSubsequence(a, b)
    ensures IsSubsequence(a, b + [x]) && IsSubsequence(a + [x], b + [x])
  {
    assert (b + [x])[..|b|] == b && (a + [x])[..|a|] == a;
  }

  /** A step puts what it emits into the queue if there is room, and the consumer takes from its front. */
  lemma StepDelivers(s: State, step: Step)
    requires Can(s, step)
    ensures var t, ev := Do(s, step), EmittedBy(s, step);
            if step.ByConsumer? then s.ses.events.buf == [s.ses.events.buf[0]] + t.ses.events.buf
            else t.ses.events.buf == s.ses.events.buf + if s.ses.events.Room() then ListOf(ev) else []
    ensures step.ByConsumer? ==> EmittedBy(s, step).None?
  {
    var buf := s.ses.events.buf;
    assert buf + [] == buf;
    if step.BySession? {
      SessionDelivers(s, step.session);
    } else if !step.ByConsumer? {
      OthersEmitNothing(s, step);
    }
  }

  lemma SessionDelivers(s: State, a: SessionAct)
    requires SessionCan(s, a)
    ensures SessionDo(s, a).ses.events.buf ==
            s.ses.events.buf + if s.ses.events.Room() then ListOf(EmittedBy(s, BySession(a))) else []
  {
    if a.OnNotification? {
      TakingEmits(s);
    } else if a.OnStderr? {
      StderrEmits(s);
    } else {
      SessionEmitsNothing(s, a);
      AppendNothing(s.ses.events.buf);
    }
  }

  lemma AppendNothing<T>(a: seq<T>)
    ensures a + [] == a
  {
  }

  lemma EmittedBuf(events: Chan<Event>, ev: Option<Event>)
    ensures Emitted(events, ev).buf == events.buf + if events.Room() then ListOf(ev) else []
  {
    AppendNothing(events.buf);
  }

  lemma TakingEmits(s: State)
    requires SessionCan(s, OnNotification)
    ensures SessionDo(s, OnNotification).ses.events.buf ==
            s.ses.events.buf + if s.ses.events.Room() then ListOf(EmittedBy(s, BySession(OnNotification))) else []
  {
    var ev := Handle(s.notifCh.buf[0], s.ses.thread, s.ses.text, s.ses.lastErr).event;
    EmittedBuf(s.ses.events, ev);
  }

  lemma StderrEmits(s: State)
    requires SessionCan(s, OnStderr)
    ensures SessionDo(s, OnStderr).ses.events.buf ==
            s.ses.events.buf + if s.ses.events.Room() then ListOf(EmittedBy(s, BySession(OnStderr))) else []
  {
    EmittedBuf(s.ses.events, Some(StderrEvent(s.stderrCh.buf[0])));
  }

  lemma SessionEmitsNothing(s: State, a: SessionAct)
    requires SessionCan(s, a) && !a.OnNotification? && !a.OnStderr?
    ensures SessionDo(s, a).ses.events.buf == s.ses.events.buf
  {
    if a.Record? || a.CloseEvents? || a.CloseDone? || a.CloseClient? {
      FinishingEmitsNothing(s, a);
    } else if Ending(a) {
      LeavingEmitsNothing(s, a);
    } else {
      SelectingEmitsNothing(s, a);
    }
  }

  lemma FinishingEmitsNothing(s: State, a: SessionAct)
    requires SessionCan(s, a) && (a.Record? || a.CloseEvents? || a.CloseDone? || a.CloseClient?)
    ensures SessionDo(s, a).ses.events.buf == s.ses.events.buf
  {
  }

  lemma LeavingEmitsNothing(s: State, a: SessionAct)
    requires SessionCan(s, a)
    requires a.OnClosing? || a.OnExited? || a.OnContext? || a.DrainNotifClosed? || a.DrainDefault?
    ensures SessionDo(s, a).ses.events.buf == s.ses.events.buf
  {
  }

  lemma SelectingEmitsNothing(s: State, a: SessionAct)
    requires SessionCan(s, a) && (a.Open? || a.OnStarted? || a.OnStderrClosed? || a.OnNotifClosed?)
    ensures SessionDo(s, a).ses.events.buf == s.ses.events.buf
  {
  }

  lemma OthersEmitNothing(s: State, step: Step)
    requires Can(s, step) && !step.BySession? && !step.ByConsumer?
    ensures Do(s, step).ses.events == s.ses.events
  {
    match step
    case ByReader(a) => ReaderFrame(s, a);
    case ByDrainer(a) => DrainerFrame(s, a);
    case ByReaper(a) => ReaperFrame(s, a);
    case ByCall(call, a) => CallFrame(s, call, a);
    case ByCloser(k, a) => CloserFrame(s, k, a);
    case ByTurn(a) => TurnFrame(s, a);
    case ByProcess =>
  }

  /** Leaving out nothing leaves everything. */
  lemma {:induction false} FullSubsequence<T>(a: seq<T>, b: seq<T>)
    requires IsSubsequence(a, b)
    ensures |a| <= |b| && (|a| == |b| ==> a == b)
  {
    if a != [] {
      if IsSubsequence(a, b[..|b| - 1]) {
        FullSubsequence(a, b[..|b| - 1]);
      } else {
        FullSubsequence(a[..|a| - 1], b[..|b| - 1]);
      }
    }
  }

  /** What the consumer has, counting what is queued for it, after one more step. */
  lemma GotGrows(received: seq<Event>, s: State, step: Step)
    requires Can(s, step)
    ensures var t, ev := Do(s, step), EmittedBy(s, step);
            received + (if step.ByConsumer? then [s.ses.events.buf[0]] else []) + t.ses.events.buf ==
            received + s.ses.events.buf + (if s.ses.events.Room() then ListOf(ev) else [])
  {
    var t := Do(s, step);
    StepDelivers(s, step);
    if step.ByConsumer? {
      ConcatThree(received, [s.ses.events.buf[0]], t.ses.events.buf);
      assert received + s.ses.events.buf + [] == received + s.ses.events.buf;
    } else {
      assert received + [] == received;
      ConcatThree(received, s.ses.events.buf, if s.ses.events.Room() then ListOf(EmittedBy(s, step)) else []);
    }
  }

  /** In order and each once events offered, with so many of them missing. */
  predicate DeliveredOf(got: seq<Event>, offered: seq<Event>, dropped: nat) {
    IsSubsequence(got, offered) && |got| + dropped == |offered|
  }

  function Got(run: Run, n: nat): seq<Event>
    requires IsRun(run) && n <= |run.steps|
  {
    Received(run, n) + run.states[n].ses.events.buf
  }

  lemma OneMoreOffered(got: seq<Event>, offered: seq<Event>, dropped: nat, ev: Option<Event>, room: bool)
    requires DeliveredOf(got, offered, dropped)
    ensures DeliveredOf(got + (if room then ListOf(ev) else []), offered + ListOf(ev),
                        dropped + if ev.Some? && !room then 1 else 0)
  {
    AppendNothing(got);
    AppendNothing(offered);
    if ev.Some? {
      SubsequenceGrows(got, offered, ev.value);
    }
  }

  lemma DeliveredFollows(run: Run, n: nat)
    requires IsRun(run) && n < |run.steps|
    requires DeliveredOf(Got(run, n), Offered(run, n), Dropped(run, n))
    ensures DeliveredOf(Got(run, n + 1), Offered(run, n + 1), Dropped(run, n + 1))
  {
    assert Follows(run, n);
    var s, step := run.states[n], run.steps[n];
    GotGrows(Received(run, n), s, step);
    OneMoreOffered(Got(run, n), Offered(run, n), Dropped(run, n), EmittedBy(s, step), s.ses.events.Room());
  }

  lemma NothingAtFirst(run: Run)
    requires IsRun(run)
    ensures Got(run, 0) == []
  {
  }

  lemma {:induction false} AlwaysDelivered(run: Run, n: nat)
    requires IsRun(run) && n <= |run.steps|
    ensures DeliveredOf(Got(run, n), Offered(run, n), Dropped(run, n))
  {
    if n == 0 {
      NothingAtFirst(run);
    } else {
      AlwaysDelivered(run, n - 1);
      DeliveredFollows(run, n - 1);
    }
  }

  /** What the consumer has received and what is queued for it are, in order and each once, events the session
      emitted; and the only ones missing are those that found the queue full. */
  lemma DeliveredInOrder(run: Run, n: nat)
    requires IsRun(run) && n <= |run.steps|
    ensures var got := Received(run, n) + run.states[n].ses.events.buf;
            && IsSubsequence(got, Offered(run, n))
            && |got| + Dropped(run, n) == |Offered(run, n)|
            && (got == Offered(run, n) <==> Dropped(run, n) == 0)
  {
    AlwaysDelivered(run, n);
    FullSubsequence(Got(run, n), Offered(run, n));
  }

  // What the events say.

  /** Which notifications of a session's stream give which event. */
  predicate Gives(n: Notification, thread: string, ev: Event) {
    match ev
    case MessageEvent(content) =>
      && !Blank(content) && n.ItemNotice? && n.thread == thread
      && n.item in {AgentMessage(content), ExitedReviewMode(content)}
    case ProgressEvent(content) =>
      || (n.TurnCompleted? && n.thread != thread && content == "codex subagent thread completed")
      || (n.ItemNotice? && n.thread == thread && n.completed && n.item.Reasoning?
          && content == TrimSpace(n.item.summary) && content != "")
    case ToolEvent(item, completed) =>
      && n == ItemNotice(thread, item, completed)
      && (item.CommandExecution? || item.FileChange? || item.ToolCall? || (item.WebSearch? && !completed))
    case ErrorEvent(message) => n.ErrorNotice? && message == TrimSpace(n.message) && message != ""
    case StderrEvent(_) => false
  }

  /** A notification gives at most one event, exactly the one of its kind; an item of another thread gives none. */
  lemma GivesExactly(n: Notification, thread: string, text: string, lastErr: string, ev: Event)
    ensures Handle(n, thread, text, lastErr).event == Some(ev) <==> Gives(n, thread, ev)
  {
  }

  /** What a notification adds to the answer is shown as a message, and what a message shows on completion is
      added. */
  lemma AnswerIsShown(n: Notification, thread: string, text: string, lastErr: string, content: string)
    ensures content != "" && AnswerPart(n, thread) == content <==>
            n.ItemNotice? && n.completed && Handle(n, thread, text, lastErr).event == Some(MessageEvent(content))
  {
    assert TrimSpace("") == "";
  }

  /** A step emits an event exactly when the session takes a line of stderr or a notification that gives one. */
  lemma EmittedExactly(s: State, step: Step, ev: Event)
    requires Can(s, step)
    ensures EmittedBy(s, step) == Some(ev) <==>
            || (step == BySession(OnStderr) && ev == StderrEvent(s.stderrCh.buf[0]))
            || (step == BySession(OnNotification) && Gives(s.notifCh.buf[0], s.ses.thread, ev))
  {
    if step == BySession(OnNotification) {
      GivesExactly(s.notifCh.buf[0], s.ses.thread, s.ses.text, s.ses.lastErr, ev);
    }
  }
}
