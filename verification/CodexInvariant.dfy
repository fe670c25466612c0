/** The inductive invariant of the Codex protocol, one group of facts at a time, and its proof over
    every step of every actor. */
module CodexInvariant {
  import opened Basics
  import opened CodexTypes
  import opened CodexProtocol

  /** Which program counters go with which closed channels; nothing has panicked. */
  ghost predicate Lifecycle(s: State) {
    && !s.panicked
    && (s.notifCh.open <==> !(s.reader.RCloseDone? || s.reader.RDone?))
    && (s.readerDone <==> s.reader.RDone?)
    && (s.stderrDone <==> s.drainer.DDone?)
    && (s.stderrCh.open <==> s.reaper.PWaitReader? || s.reaper.PWaitStderr? || s.reaper.PCloseStderr?)
    && (!s.reaper.PWaitReader? ==> s.readerDone)
    && (!s.reaper.PWaitReader? && !s.reaper.PWaitStderr? ==> s.stderrDone)
    && (s.exited <==> s.reaper.PDone?)
    && (s.ses.events.open <==> !(s.ses.pc.EventsClosed? || s.ses.pc.DoneClosed? || s.ses.pc.Ended?))
    && (s.ses.done <==> s.ses.pc.DoneClosed? || s.ses.pc.Ended?)
    && (s.ses.pc.Draining? ==> s.exited && s.ses.notifLive)
    && (!s.ses.notifLive ==> !s.notifCh.open && s.notifCh.buf == [])
    && (!s.ses.stderrLive ==> !s.stderrCh.open && s.stderrCh.buf == [])
    && s.notifCh.cap == NOTIF_BUFFER && |s.notifCh.buf| <= s.notifCh.cap
    && |s.stderrCh.buf| <= s.stderrCh.cap
    && |s.ses.events.buf| <= s.ses.events.cap
  }

  /** Exactly one caller of close gets to signal, and does so once. */
  ghost predicate Closing(s: State) {
    && (s.closing ==> s.core.closed)
    && (forall k | k in s.closers && s.closers[k].KSignal? :: s.core.closed && !s.closing)
    && (forall j, k | j in s.closers && k in s.closers && s.closers[j].KSignal? && s.closers[k].KSignal? :: j == k)
    && (s.core.closed && !s.closing ==> exists k :: k in s.closers && s.closers[k].KSignal?)
    && (s.ses.pc.Ended? <==> 0 in s.closers)
    && (0 in s.closers ==> !s.closers[0].KInterrupt? && (s.closers[0].KDone? ==> s.core.closed))
  }

  predicate Live(c: Call) {
    c.phase.Registered? || c.phase.Waiting? || c.phase.Leaving?
  }

  /** The line is the one the reader held when `born` lines had been read, or was read after that. */
  predicate Heard(log: seq<Line>, born: nat, line: Line) {
    exists i :: 0 <= i < |log| && born <= i + 1 && log[i] == line
  }

  lemma HeardStill(log: seq<Line>, more: seq<Line>, born: nat, line: Line)
    requires Heard(log, born, line) && log <= more
    ensures Heard(more, born, line)
  {
    var i :| 0 <= i < |log| && born <= i + 1 && log[i] == line;
    assert more[i] == line;
  }

  /** The server said this to the call, or the client made it up when the stream died. */
  predicate Genuine(log: seq<Line>, born: nat, id: int, r: Response) {
    r.id == id && (r.error == Some(CLOSED_ERROR) || Heard(log, born, Reply(r)))
  }

  predicate GoodOutcome(log: seq<Line>, born: nat, id: int, o: Outcome) {
    o.Good? ==> Heard(log, born, Reply(Response(id, o.result, None)))
  }

  predicate CallOk(log: seq<Line>, nextID: nat, c: Call) {
    && c.id <= nextID && c.born <= |log|
    && (Live(c) ==> 1 <= c.id)
    && (c.slot.Some? ==> Genuine(log, c.born, c.id, c.slot.value))
    && (c.phase.Leaving? || c.phase.Returned? ==> GoodOutcome(log, c.born, c.id, c.phase.outcome))
  }

  lemma CallStillOk(log: seq<Line>, more: seq<Line>, nextID: nat, c: Call)
    requires CallOk(log, nextID, c) && log <= more
    ensures CallOk(more, nextID, c)
  {
    if c.slot.Some? && Heard(log, c.born, Reply(c.slot.value)) {
      HeardStill(log, more, c.born, Reply(c.slot.value));
    }
    if (c.phase.Leaving? || c.phase.Returned?) && c.phase.outcome.Good? {
      HeardStill(log, more, c.born, Reply(Response(c.id, c.phase.outcome.result, None)));
    }
  }

  predicate PendingOk(s: State, id: int)
    requires id in s.core.pending
  {
    var c := s.core.pending[id];
    c in s.calls && s.calls[c].id == id && Live(s.calls[c])
  }

  ghost predicate DistinctIds(calls: map<nat, Call>) {
    forall c, d | c in calls && d in calls && c != d && 1 <= calls[c].id :: calls[c].id != calls[d].id
  }

  /** Every call has its own ID and hears only about that ID. */
  ghost predicate Calls(s: State) {
    && (forall c | c in s.calls :: CallOk(s.log, s.core.nextID, s.calls[c]))
    && DistinctIds(s.calls)
    && (forall id | id in s.core.pending :: PendingOk(s, id))
    && (s.reader.RRoute? ==> s.log != [] && s.log[|s.log| - 1] == Reply(s.reader.response))
    && (s.reader.RDeliver? ==>
          && s.reader.call in s.calls
          && Heard(s.log, s.calls[s.reader.call].born, Reply(s.reader.response))
          && s.calls[s.reader.call].id == s.reader.response.id)
  }

  predicate SweepDone(s: State) {
    s.reader.RFailing? || s.reader.RCloseNotif? || s.reader.RCloseDone? || s.reader.RDone?
  }

  function Unfailed(s: State): set<nat> {
    if s.reader.RFailing? then s.reader.left else {}
  }

  /** No call in flight is forgotten: it is pending, or failPending took it and fills its slot. */
  ghost predicate Swept(s: State) {
    && (!SweepDone(s) ==> s.swept == {})
    && Unfailed(s) <= s.swept
    && (forall c | c in s.swept :: c in s.calls)
    && (forall c | c in s.calls && Live(s.calls[c]) && c !in s.swept ::
          s.calls[c].id in s.core.pending && s.core.pending[s.calls[c].id] == c)
    && (forall c | c in s.swept && c !in Unfailed(s) && (s.calls[c].phase.Registered? || s.calls[c].phase.Waiting?) ::
          s.calls[c].slot.Some?)
  }

  function NotificationsOf(log: seq<Line>): seq<Notification> {
    if log == [] then
      []
    else
      NotificationsOf(log[..|log| - 1])
      + if log[|log| - 1].Notify? then [log[|log| - 1].notification] else []
  }

  function InHand(s: State): seq<Notification> {
    if s.reader.RPark? then [s.reader.notification] else s.aborted
  }

  predicate Reading(s: State) {
    s.reader.RRead? || s.reader.RStderr? || s.reader.RRoute? || s.reader.RDeliver? || s.reader.RPark?
  }

  /** Notifications reach the session in the order read, none lost but the one a close abandons. */
  ghost predicate Flow(s: State) {
    && s.sent == s.taken + s.notifCh.buf
    && NotificationsOf(s.log) == s.sent + InHand(s)
    && |s.aborted| <= 1 && (s.aborted != [] ==> s.closing && !Reading(s))
  }

  /** A result speaks for what was consumed, and its cause is what happened. */
  ghost predicate Justified(s: State, v: Verdict) {
    && v.result.result == Answer(s.taken, s.ses.thread)
    && (if v.cause.ByCompletion? then
          && s.taken != []
          && Completes(s.taken[|s.taken| - 1], s.ses.thread)
          && s.taken[|s.taken| - 1].turn == v.cause.turn
          && NoneCompletes(s.taken[..|s.taken| - 1], s.ses.thread)
        else
          NoneCompletes(s.taken, s.ses.thread))
    && (v.cause.ByCrash? ==> s.exited && s.notifCh.buf == [])
    && (v.cause.ByCancel? ==> s.closing)
    && (v.result.status.Success? <==>
          || (v.cause.ByCompletion? && v.cause.turn.status.Completed?)
          || (v.cause.ByStart? && v.cause.sr.Started? && v.cause.sr.turn.status.Completed?))
    && (v.cause.ByStart? ==> OwnStart(s, v.cause.sr) && (v.cause.sr.Started? ==> IsTerminal(v.cause.sr.turn.status)))
  }

  ghost predicate Accounting(s: State) {
    && (s.ses.pc.Absent? ==> s.taken == [])
    && s.ses.text == Answer(s.taken, s.ses.thread)
    && s.ses.lastErr == LatestError(s.taken)
    && (Selecting(s) ==> NoneCompletes(s.taken, s.ses.thread))
    && (s.ses.pc.Finishing? ==> Justified(s, Verdict(s.ses.pc.result, s.ses.pc.cause)))
    && (s.ses.verdict.Some? ==> Justified(s, s.ses.verdict.value))
    && (s.ses.verdict.Some?
        <==> s.ses.pc.Recorded? || s.ses.pc.EventsClosed? || s.ses.pc.DoneClosed? || s.ses.pc.Ended?)
  }

  /** The session's own turn/start call, once it is made. */
  function StartCall(x: Session): Option<nat> {
    match x.turnPC
    case TIdle => None
    case TAsked(call) => Some(call)
    case TGot(call, _) => Some(call)
    case TSent(call) => Some(call)
  }

  /** The session's own turn/start call returned, and this is what came of it. */
  predicate OwnStart(s: State, sr: StartResult) {
    var call := StartCall(s.ses);
    && call.Some? && call.value in s.calls
    && s.calls[call.value].phase.Returned? && sr == StartOf(s.calls[call.value].phase.outcome)
  }

  ghost predicate Starting(s: State) {
    && (s.ses.turnPC.TGot? ==> OwnStart(s, s.ses.turnPC.sr))
    && (forall i | 0 <= i < |s.ses.started| :: OwnStart(s, s.ses.started[i]))
    && (s.ses.started != [] ==> s.ses.turnPC.TSent?)
  }

  /** A call that has returned stays as it is. */
  ghost predicate ReturnsKept(s: State, t: State) {
    forall c | c in s.calls && s.calls[c].phase.Returned? :: c in t.calls && t.calls[c].phase == s.calls[c].phase
  }

  ghost predicate Inv(s: State) {
    Lifecycle(s) && Closing(s) && Calls(s) && Swept(s) && Flow(s) && Accounting(s) && Starting(s)
  }

  // Every group survives every step.

  lemma ReaderLifecycle(s: State, a: ReaderAct)
    requires Lifecycle(s) && ReaderCan(s, a)
    ensures Lifecycle(ReaderDo(s, a))
  {
    if a.ReadLine? {
      LineLifecycle(s, a.line);
    } else if Closes(a) {
      ClosingReaderLifecycle(s, a);
    } else {
      OpenReaderLifecycle(s, a);
    }
  }

  /** The reader's steps that use or close a channel. */
  predicate Closes(a: ReaderAct) {
    a.ReaderStderr? || a.Forward? || a.CloseNotif? || a.SignalReaderDone?
  }

  lemma ClosingReaderLifecycle(s: State, a: ReaderAct)
    requires Lifecycle(s) && ReaderCan(s, a) && Closes(a)
    ensures Lifecycle(ReaderDo(s, a))
  {
    if a.ReaderStderr? {
    } else if a.Forward? {
    } else if a.CloseNotif? {
    }
  }

  lemma LineLifecycle(s: State, line: Line)
    requires Lifecycle(s) && s.reader.RRead?
    ensures Lifecycle(LineRead(s, line))
  {
  }

  lemma OpenReaderLifecycle(s: State, a: ReaderAct)
    requires Lifecycle(s) && ReaderCan(s, a) && !Closes(a) && !a.ReadLine?
    ensures Lifecycle(ReaderDo(s, a))
  {
  }

  lemma DrainerLifecycle(s: State, a: DrainerAct)
    requires Lifecycle(s) && DrainerCan(s, a)
    ensures Lifecycle(DrainerDo(s, a))
  {
  }

  lemma ReaperLifecycle(s: State, a: ReaperAct)
    requires Lifecycle(s) && ReaperCan(s, a)
    ensures Lifecycle(ReaperDo(s, a))
  {
  }

  lemma AbsorbLifecycle(s: State, h: Handled)
    requires Lifecycle(s) && SessionCan(s, OnNotification)
    ensures Lifecycle(Absorb(s, h))
  {
  }

  /** The arms that end the loop or the drain, and the steps of finish. */
  predicate Ending(a: SessionAct) {
    || a.OnClosing? || a.OnExited? || a.OnContext? || a.DrainNotifClosed? || a.DrainDefault?
    || a.Record? || a.CloseEvents? || a.CloseDone? || a.CloseClient?
  }

  lemma EndingLifecycle(s: State, a: SessionAct)
    requires Lifecycle(s) && SessionCan(s, a) && Ending(a)
    ensures Lifecycle(SessionDo(s, a))
  {
    if a.OnClosing? || a.OnExited? || a.OnContext? {
    } else if a.DrainNotifClosed? || a.DrainDefault? {
    } else if a.Record? || a.CloseEvents? {
    }
  }

  lemma SelectLifecycle(s: State, a: SessionAct)
    requires Lifecycle(s) && SessionCan(s, a) && !Ending(a) && !a.OnNotification?
    ensures Lifecycle(SessionDo(s, a))
  {
    if a.Open? || a.OnStarted? {
    } else if a.OnStderr? {
    } else if a.OnStderrClosed? {
    }
  }

  lemma SessionLifecycle(s: State, a: SessionAct)
    requires Lifecycle(s) && SessionCan(s, a)
    ensures Lifecycle(SessionDo(s, a))
  {
    if a.OnNotification? {
      AbsorbLifecycle(s, Handle(s.notifCh.buf[0], s.ses.thread, s.ses.text, s.ses.lastErr));
    } else if Ending(a) {
      EndingLifecycle(s, a);
    } else {
      SelectLifecycle(s, a);
    }
  }

  /** A step that leaves program counters, channels and signals alone. */
  lemma SameLifecycle(s: State, t: State)
    requires Lifecycle(s)
    requires t == s.(core := t.core, calls := t.calls, closers := t.closers, closing := t.closing, ses := t.ses,
                     processGone := t.processGone)
    requires t.ses == s.ses.(turnPC := t.ses.turnPC, turnID := t.ses.turnID, started := t.ses.started)
    ensures Lifecycle(t)
  {
  }

  lemma CloserClosing(s: State, k: nat, a: CloserAct)
    requires Closing(s) && CloserCan(s, k, a)
    ensures Closing(CloserDo(s, k, a))
  {
    if a.SignalClosing? {
      SignalOnce(s, k);
    } else if a.Shut? {
      ShutClosing(s, k);
    } else {
      EnterClosing(s, k, a);
    }
  }

  lemma EnterClosing(s: State, k: nat, a: CloserAct)
    requires Closing(s) && CloserCan(s, k, a) && !a.Shut? && !a.SignalClosing?
    ensures Closing(CloserDo(s, k, a))
  {
    var t := CloserDo(s, k, a);
    if s.core.closed && !s.closing {
      var j :| j in s.closers && s.closers[j].KSignal?;
      assert j in t.closers && t.closers[j].KSignal?;
    }
  }

  lemma ShutClosing(s: State, k: nat)
    requires Closing(s) && CloserCan(s, k, CloserAct.Shut)
    ensures Closing(CloserDo(s, k, CloserAct.Shut))
  {
    if s.core.closed {
      LateShutClosing(s, k);
    } else {
      FirstShutClosing(s, k);
    }
  }

  lemma FirstShutClosing(s: State, k: nat)
    requires Closing(s) && CloserCan(s, k, CloserAct.Shut) && !s.core.closed
    ensures Closing(CloserDo(s, k, CloserAct.Shut))
  {
    assert k in CloserDo(s, k, CloserAct.Shut).closers;
  }

  lemma LateShutClosing(s: State, k: nat)
    requires Closing(s) && CloserCan(s, k, CloserAct.Shut) && s.core.closed
    ensures Closing(CloserDo(s, k, CloserAct.Shut))
  {
    if !s.closing {
      var j :| j in s.closers && s.closers[j].KSignal?;
      assert j in CloserDo(s, k, CloserAct.Shut).closers;
    }
  }

  lemma SignalOnce(s: State, k: nat)
    requires Closing(s) && CloserCan(s, k, SignalClosing)
    ensures Closing(CloserDo(s, k, SignalClosing))
  {
  }

  /** What Closing reads of a step that is no closer's. */
  lemma OtherClosing(s: State, t: State)
    requires Closing(s)
    requires t.core.closed == s.core.closed && t.closing == s.closing
    requires
      || (t.closers == s.closers && (t.ses.pc.Ended? <==> s.ses.pc.Ended?))
      || (t.closers == s.closers[0 := KClose] && t.ses.pc.Ended? && !s.ses.pc.Ended?)
    ensures Closing(t)
  {
    if s.core.closed && !s.closing {
      var j :| j in s.closers && s.closers[j].KSignal?;
      assert j in t.closers && t.closers[j].KSignal?;
    }
  }

  // IDs, reply channels and outcomes.

  /** What Calls reads of a step that touches no call. */
  lemma OtherCalls(s: State, t: State)
    requires Calls(s)
    requires t.calls == s.calls && t.core.pending == s.core.pending && s.core.nextID <= t.core.nextID
    requires t.log == s.log && t.reader == s.reader
    ensures Calls(t)
  {
  }

  /** The reader leaves calls and pending alone, or drops all of pending. */
  lemma LogCalls(s: State, t: State)
    requires Calls(s)
    requires t.calls == s.calls && t.core.nextID == s.core.nextID
    requires t.core.pending == s.core.pending || t.core.pending == map[]
    requires s.log <= t.log
    requires !t.reader.RDeliver?
    requires t.reader.RRoute? ==> t.log != [] && t.log[|t.log| - 1] == Reply(t.reader.response)
    ensures Calls(t)
  {
    forall c | c in t.calls ensures CallOk(t.log, t.core.nextID, t.calls[c]) {
      CallStillOk(s.log, t.log, s.core.nextID, s.calls[c]);
    }
    forall id | id in t.core.pending ensures PendingOk(t, id) {
      assert PendingOk(s, id);
    }
  }

  /** A genuine reply goes into a reply channel, or finds it full. */
  lemma OfferCalls(s: State, t: State, call: nat, r: Response)
    requires Calls(s) && call in s.calls && Genuine(s.log, s.calls[call].born, s.calls[call].id, r)
    requires t.calls == OfferSlot(s.calls, call, r) && t.core == s.core && t.log == s.log
    requires !t.reader.RDeliver? && !t.reader.RRoute?
    ensures Calls(t)
  {
    forall c | c in t.calls ensures CallOk(t.log, t.core.nextID, t.calls[c]) {
      assert CallOk(s.log, s.core.nextID, s.calls[c]);
    }
    forall id | id in t.core.pending ensures PendingOk(t, id) {
      assert PendingOk(s, id);
    }
  }

  /** The reader has found whom to deliver to. */
  lemma PointCalls(s: State, t: State)
    requires Calls(s) && t.reader.RDeliver?
    requires t.calls == s.calls && t.core == s.core && t.log == s.log
    requires
      && t.reader.call in s.calls
      && Heard(s.log, s.calls[t.reader.call].born, Reply(t.reader.response))
      && s.calls[t.reader.call].id == t.reader.response.id
    ensures Calls(t)
  {
    forall id | id in t.core.pending ensures PendingOk(t, id) {
      assert PendingOk(s, id);
    }
  }

  lemma LookupCalls(s: State)
    requires Calls(s) && s.reader.RRoute?
    ensures Calls(ReaderDo(s, Lookup))
  {
    var t := ReaderDo(s, Lookup);
    if s.reader.response.id in s.core.pending {
      assert PendingOk(s, s.reader.response.id);
      assert CallOk(s.log, s.core.nextID, s.calls[t.reader.call]);
      assert Heard(s.log, s.calls[t.reader.call].born, s.log[|s.log| - 1]);
      PointCalls(s, t);
    } else {
      LogCalls(s, t);
    }
  }

  lemma LineCalls(s: State, line: Line)
    requires Calls(s) && s.reader.RRead?
    ensures Calls(LineRead(s, line))
  {
    var t := LineRead(s, line);
    assert t.log[|s.log|] == line;
    LogCalls(s, t);
  }

  lemma ReaderCalls(s: State, a: ReaderAct)
    requires Calls(s) && ReaderCan(s, a)
    ensures Calls(ReaderDo(s, a))
  {
    var t := ReaderDo(s, a);
    if a.ReadLine? {
      LineCalls(s, a.line);
    } else if a.Lookup? {
      LookupCalls(s);
    } else if a.Deliver? {
      OfferCalls(s, t, s.reader.call, s.reader.response);
    } else if a.FailOne? {
      OfferCalls(s, t, a.call, Response(s.calls[a.call].id, Payload("", None, ""), Some(CLOSED_ERROR)));
    } else {
      assert t.log == s.log && t.calls == s.calls && !t.reader.RDeliver? && !t.reader.RRoute?;
      LogCalls(s, t);
    }
  }

  /** A new call: registered under the next ID, or refused because the client is closed. */
  predicate Begun(s: State, t: State, call: nat, c: Call) {
    && call !in s.calls
    && t.calls == s.calls[call := c]
    && CallOk(s.log, t.core.nextID, c)
    && (|| (t.core == s.core && c.id == 0 && c.phase.Returned?)
        || (t.core == s.core.Register(call) && c.id == t.core.nextID && Live(c)))
    && t.log == s.log && t.reader == s.reader && t.swept == s.swept
  }

  lemma CallBegins(s: State, call: nat)
    requires CallCan(s, call, Begin)
    ensures Begun(s, CallDo(s, call, Begin), call, CallDo(s, call, Begin).calls[call])
  {
  }

  /** An ID above all those given out. */
  lemma BeginIds(calls: map<nat, Call>, call: nat, c: Call, nextID: nat)
    requires DistinctIds(calls) && call !in calls && (c.id == 0 || nextID < c.id)
    requires forall d | d in calls :: calls[d].id <= nextID
    ensures DistinctIds(calls[call := c])
  {
    var after := calls[call := c];
    forall d, e | d in after && e in after && d != e && 1 <= after[d].id ensures after[d].id != after[e].id {
      if d == call {
        assert calls[e].id <= nextID;
      } else if e == call {
        assert calls[d].id <= nextID;
      }
    }
  }

  lemma BeginCalls(s: State, t: State, call: nat, c: Call)
    requires Calls(s) && Begun(s, t, call, c)
    ensures Calls(t)
  {
    forall d | d in s.calls ensures s.calls[d].id <= s.core.nextID && CallOk(t.log, t.core.nextID, s.calls[d]) {
      assert CallOk(s.log, s.core.nextID, s.calls[d]);
    }
    BeginIds(s.calls, call, c, s.core.nextID);
    forall id | id in t.core.pending ensures PendingOk(t, id) {
      if id in s.core.pending {
        assert PendingOk(s, id);
      }
    }
  }

  predicate Moved(s: State, t: State, call: nat, c: Call) {
    && call in s.calls && Live(s.calls[call])
    && c.id == s.calls[call].id && c.born == s.calls[call].born
    && (c.slot == s.calls[call].slot || c.phase.Leaving?)
    && (c.phase.Waiting? ==> s.calls[call].phase.Registered?) && !c.phase.Registered?
    && t.calls == s.calls[call := c]
    && t.core == (if Live(c) then s.core else s.core.Unregister(c.id))
    && t.log == s.log && t.reader == s.reader && t.swept == s.swept
  }

  lemma MoveIds(calls: map<nat, Call>, call: nat, c: Call)
    requires DistinctIds(calls) && call in calls && c.id == calls[call].id
    ensures DistinctIds(calls[call := c])
  {
    var after := calls[call := c];
    forall d, e | d in after && e in after && d != e && 1 <= after[d].id ensures after[d].id != after[e].id {
      assert calls[d].id == after[d].id && calls[e].id == after[e].id;
    }
  }

  /** A call moves on, keeping its ID, and gives up its pending entry when it returns. */
  lemma MoveCalls(s: State, t: State, call: nat, c: Call)
    requires Calls(s) && Moved(s, t, call, c) && CallOk(s.log, s.core.nextID, c)
    ensures Calls(t)
  {
    MoveIds(s.calls, call, c);
    forall d | d in t.calls ensures CallOk(t.log, t.core.nextID, t.calls[d]) {
      if d != call {
        assert CallOk(s.log, s.core.nextID, s.calls[d]);
      }
    }
    forall id | id in t.core.pending ensures PendingOk(t, id) {
      assert PendingOk(s, id);
    }
  }

  lemma CallMoves(s: State, call: nat, a: CallAct)
    requires CallCan(s, call, a) && !a.Begin?
    ensures Moved(s, CallDo(s, call, a), call, CallDo(s, call, a).calls[call])
  {
    if a.Write? || a.TakeReply? {
    } else if a.Forget? {
    }
  }

  lemma CallCalls(s: State, call: nat, a: CallAct)
    requires Calls(s) && CallCan(s, call, a)
    ensures Calls(CallDo(s, call, a))
  {
    var t := CallDo(s, call, a);
    if a.Begin? {
      CallBegins(s, call);
      BeginCalls(s, t, call, t.calls[call]);
    } else {
      assert CallOk(s.log, s.core.nextID, s.calls[call]);
      CallMoves(s, call, a);
      MoveCalls(s, t, call, t.calls[call]);
    }
  }

  // The sweep of failPending.

  lemma OtherSwept(s: State, t: State)
    requires Swept(s)
    requires t.calls == s.calls && t.core.pending == s.core.pending && t.swept == s.swept
    requires SweepDone(t) == SweepDone(s) && Unfailed(t) == Unfailed(s)
    ensures Swept(t)
  {
  }

  lemma SweepSwept(s: State, t: State)
    requires Swept(s) && Calls(s) && !SweepDone(s)
    requires t.calls == s.calls && t.swept == s.core.Waiters() && t.reader == RFailing(t.swept)
    ensures Swept(t)
  {
    forall c | c in s.core.Waiters() ensures c in t.calls {
      var id :| id in s.core.pending && s.core.pending[id] == c;
      assert PendingOk(s, id);
    }
    forall c | c in t.calls && Live(t.calls[c]) ensures c in t.swept {
      assert s.calls[c].id in s.core.pending;
    }
  }

  /** The reader fills at most one slot, that of `call`, and may cross that call off. */
  lemma OfferSwept(s: State, t: State, call: nat, r: Response)
    requires Swept(s) && call in s.calls
    requires t.calls == OfferSlot(s.calls, call, r) && t.core == s.core && t.swept == s.swept
    requires SweepDone(t) == SweepDone(s) && (Unfailed(t) == Unfailed(s) || Unfailed(t) == Unfailed(s) - {call})
    ensures Swept(t)
  {
  }

  /** The reader's steps that touch neither calls nor what failPending has left to do. */
  lemma ReaderQuiet(s: State, a: ReaderAct)
    requires ReaderCan(s, a) && !a.SweepPending? && !a.Deliver? && !a.FailOne?
    ensures OnlyReader(s, ReaderDo(s, a))
  {
    if a.ReadLine? {
      LineQuiet(s, a.line);
    } else if a.FailedAll? || a.CloseNotif? || a.SignalReaderDone? {
      LateReaderQuiet(s, a);
    } else {
      EarlyReaderQuiet(s, a);
    }
  }

  lemma LineQuiet(s: State, line: Line)
    requires s.reader.RRead?
    ensures OnlyReader(s, LineRead(s, line))
  {
  }

  lemma EarlyReaderQuiet(s: State, a: ReaderAct)
    requires ReaderCan(s, a) && (a.ReadEOF? || a.ReaderStderr? || a.Lookup? || a.Forward? || a.Abandon?)
    ensures OnlyReader(s, ReaderDo(s, a))
  {
  }

  lemma LateReaderQuiet(s: State, a: ReaderAct)
    requires ReaderCan(s, a) && (a.FailedAll? || a.CloseNotif? || a.SignalReaderDone?)
    ensures OnlyReader(s, ReaderDo(s, a))
  {
  }

  predicate OnlyReader(s: State, t: State) {
    && t.calls == s.calls && t.core == s.core && t.swept == s.swept
    && SweepDone(t) == SweepDone(s) && Unfailed(t) == Unfailed(s)
  }

  lemma ReaderSwept(s: State, a: ReaderAct)
    requires Swept(s) && Calls(s) && ReaderCan(s, a)
    ensures Swept(ReaderDo(s, a))
  {
    var t := ReaderDo(s, a);
    if a.SweepPending? {
      SweepSwept(s, t);
    } else if a.Deliver? {
      OfferSwept(s, t, s.reader.call, s.reader.response);
    } else if a.FailOne? {
      OfferSwept(s, t, a.call, Response(s.calls[a.call].id, Payload("", None, ""), Some(CLOSED_ERROR)));
    } else {
      ReaderQuiet(s, a);
      OtherSwept(s, t);
    }
  }

  lemma BeginSwept(s: State, t: State, call: nat, c: Call)
    requires Swept(s) && Calls(s) && Begun(s, t, call, c)
    ensures Swept(t)
  {
    forall d | d in t.calls && Live(t.calls[d]) && d !in t.swept
      ensures t.calls[d].id in t.core.pending && t.core.pending[t.calls[d].id] == d
    {
      if d != call {
        assert CallOk(s.log, s.core.nextID, s.calls[d]);
      }
    }
  }

  lemma MoveSwept(s: State, t: State, call: nat, c: Call)
    requires Swept(s) && Calls(s) && Moved(s, t, call, c)
    ensures Swept(t)
  {
    assert CallOk(s.log, s.core.nextID, s.calls[call]);
  }

  lemma CallSwept(s: State, call: nat, a: CallAct)
    requires Swept(s) && Calls(s) && CallCan(s, call, a)
    ensures Swept(CallDo(s, call, a))
  {
    var t := CallDo(s, call, a);
    if a.Begin? {
      CallBegins(s, call);
      BeginSwept(s, t, call, t.calls[call]);
    } else {
      CallMoves(s, call, a);
      MoveSwept(s, t, call, t.calls[call]);
    }
  }

  // Notifications from the reader to the session.

  lemma OtherFlow(s: State, t: State)
    requires Flow(s)
    requires t.sent == s.sent && t.taken + t.notifCh.buf == s.taken + s.notifCh.buf
    requires t.log == s.log && t.reader == s.reader && t.aborted == s.aborted && (s.closing ==> t.closing)
    ensures Flow(t)
  {
  }

  /** The next line read, and the notification in hand if it is one. */
  lemma LineFlow(s: State, line: Line)
    requires Flow(s) && s.reader.RRead?
    ensures Flow(LineRead(s, line))
  {
    NotificationsLast(s.log, line);
    ReadFlow(s, LineRead(s, line), if line.Notify? then [line.notification] else []);
  }

  lemma ReadFlow(s: State, t: State, read: seq<Notification>)
    requires Flow(s) && s.reader.RRead? && s.aborted == [] && t.aborted == []
    requires t.sent == s.sent && t.taken == s.taken && t.notifCh == s.notifCh
    requires InHand(t) == read && NotificationsOf(t.log) == NotificationsOf(s.log) + read
    ensures Flow(t)
  {
    assert s.sent + [] == s.sent;
  }

  lemma NotificationsLast(log: seq<Line>, line: Line)
    ensures NotificationsOf(log + [line]) ==
            NotificationsOf(log) + if line.Notify? then [line.notification] else []
  {
    assert (log + [line])[..|log|] == log;
  }

  lemma ReaderFlow(s: State, a: ReaderAct)
    requires Flow(s) && ReaderCan(s, a)
    ensures Flow(ReaderDo(s, a))
  {
    if a.ReadLine? {
      LineFlow(s, a.line);
    }
  }

  // The session's text, error, result and cause.

  /** What Accounting reads of a step of another actor. */
  lemma OtherAccounting(s: State, t: State)
    requires Accounting(s) && Lifecycle(s)
    requires t.ses == s.ses.(events := t.ses.events, turnID := t.ses.turnID, turnPC := t.ses.turnPC,
                             started := t.ses.started)
    requires t.taken == s.taken
    requires s.exited ==> t.exited && t.notifCh == s.notifCh
    requires s.closing ==> t.closing
    requires StartKept(s, t)
    ensures Accounting(t)
  {
    if s.ses.pc.Finishing? {
      OtherJustified(s, t, Verdict(s.ses.pc.result, s.ses.pc.cause));
    }
    if s.ses.verdict.Some? {
      OtherJustified(s, t, s.ses.verdict.value);
    }
  }

  /** The session's turn/start call is the same, and has returned what it had. */
  ghost predicate StartKept(s: State, t: State) {
    forall sr | OwnStart(s, sr) :: OwnStart(t, sr)
  }

  lemma OtherJustified(s: State, t: State, v: Verdict)
    requires Justified(s, v)
    requires t.ses.thread == s.ses.thread && t.taken == s.taken
    requires s.exited ==> t.exited && t.notifCh == s.notifCh
    requires s.closing ==> t.closing
    requires StartKept(s, t)
    ensures Justified(t, v)
  {
  }

  /** What is owed to turn/start survives any step that keeps what calls returned and whose call it was. */
  lemma ReturnsKeepStart(s: State, t: State)
    requires ReturnsKept(s, t)
    requires StartCall(s.ses).Some? ==> StartCall(t.ses) == StartCall(s.ses)
    ensures StartKept(s, t)
  {
  }

  lemma TakeAccounting(s: State)
    requires Accounting(s) && SessionCan(s, OnNotification)
    ensures Accounting(TakeNotification(s))
  {
    HandleStep(s.taken, s.notifCh.buf[0], s.ses.thread);
  }

  lemma StartAccounting(s: State)
    requires Accounting(s) && Starting(s) && SessionCan(s, OnStarted)
    ensures Accounting(TakeStart(s))
  {
    assert OwnStart(s, s.ses.started[0]);
  }

  lemma EndingAccounting(s: State, a: SessionAct)
    requires Accounting(s) && Lifecycle(s) && SessionCan(s, a) && Ending(a)
    ensures Accounting(SessionDo(s, a))
  {
    if a.Record? || a.CloseEvents? || a.CloseDone? || a.CloseClient? {
      FinishAccounting(s, a);
    } else {
      LeaveAccounting(s, a);
    }
  }

  /** The steps of finish carry the result along. */
  lemma FinishAccounting(s: State, a: SessionAct)
    requires Accounting(s) && SessionCan(s, a) && (a.Record? || a.CloseEvents? || a.CloseDone? || a.CloseClient?)
    ensures Accounting(SessionDo(s, a))
  {
    if a.Record? {
      RecordAccounting(s);
    } else {
      CarryAccounting(s, SessionDo(s, a));
    }
  }

  lemma RecordAccounting(s: State)
    requires Accounting(s) && SessionCan(s, Record)
    ensures Accounting(SessionDo(s, Record))
  {
    OtherJustified(s, SessionDo(s, Record), Verdict(s.ses.pc.result, s.ses.pc.cause));
  }

  /** Once recorded, a result is only carried along. */
  lemma CarryAccounting(s: State, t: State)
    requires Accounting(s) && s.ses.verdict.Some?
    requires t.ses == s.ses.(pc := t.ses.pc, events := t.ses.events, done := t.ses.done)
    requires t.ses.pc.EventsClosed? || t.ses.pc.DoneClosed? || t.ses.pc.Ended?
    requires t == s.(ses := t.ses, panicked := t.panicked, closers := t.closers)
    ensures Accounting(t)
  {
    OtherJustified(s, t, s.ses.verdict.value);
  }

  /** The arms that leave the loop or the drain without a notification. */
  lemma LeaveAccounting(s: State, a: SessionAct)
    requires Accounting(s) && Lifecycle(s) && SessionCan(s, a)
    requires a.OnClosing? || a.OnExited? || a.OnContext? || a.DrainNotifClosed? || a.DrainDefault?
    ensures Accounting(SessionDo(s, a))
  {
    if a.OnClosing? || a.OnContext? {
    } else if a.OnExited? {
    }
  }

  lemma SelectAccounting(s: State, a: SessionAct)
    requires Accounting(s) && SessionCan(s, a) && !Ending(a) && !a.OnNotification? && !a.OnStarted?
    ensures Accounting(SessionDo(s, a))
  {
    if a.Open? {
    } else if a.OnStderr? {
    }
  }

  lemma SessionAccounting(s: State, a: SessionAct)
    requires Accounting(s) && Lifecycle(s) && Starting(s) && SessionCan(s, a)
    ensures Accounting(SessionDo(s, a))
  {
    if a.OnNotification? {
      TakeAccounting(s);
    } else if a.OnStarted? {
      StartAccounting(s);
    } else if Ending(a) {
      EndingAccounting(s, a);
    } else {
      SelectAccounting(s, a);
    }
  }

  // The answer to turn/start.

  lemma OtherStarting(s: State, t: State)
    requires Starting(s) && StartKept(s, t)
    requires t.ses.turnPC == s.ses.turnPC
    requires t.ses.started == s.ses.started || (s.ses.started != [] && t.ses.started == s.ses.started[1..])
    ensures Starting(t)
  {
    forall i | 0 <= i < |t.ses.started| ensures OwnStart(t, t.ses.started[i]) {
      var j := i + |s.ses.started| - |t.ses.started|;
      assert t.ses.started[i] == s.ses.started[j] && OwnStart(s, s.ses.started[j]);
    }
  }

  lemma TurnStarting(s: State, a: TurnAct)
    requires Starting(s) && TurnCan(s, a)
    ensures Starting(TurnDo(s, a))
    ensures StartKept(s, TurnDo(s, a))
  {
    var t := TurnDo(s, a);
    ReturnsKeepStart(s, t);
    if a.Send? {
      assert OwnStart(s, s.ses.turnPC.sr);
    }
  }

  // All groups together. Each actor's step first: what it leaves alone.

  /** What a step of the reader leaves alone. */
  ghost predicate ByReaderOnly(s: State, t: State) {
    && t.core.closed == s.core.closed && t.closing == s.closing && t.closers == s.closers && t.exited == s.exited
    && t.ses == s.ses && t.taken == s.taken && (s.exited ==> t.notifCh == s.notifCh)
    && s.log <= t.log && ReturnsKept(s, t)
  }

  lemma ReaderTouches(s: State, a: ReaderAct)
    requires Lifecycle(s) && ReaderCan(s, a)
    ensures ByReaderOnly(s, ReaderDo(s, a))
  {
    if a.ReadLine? || a.ReadEOF? || a.ReaderStderr? {
    } else if a.Lookup? || a.Deliver? || a.Forward? {
    } else if a.Abandon? || a.SweepPending? || a.FailOne? {
    }
  }

  lemma ReaderInv(s: State, a: ReaderAct)
    requires Inv(s) && ReaderCan(s, a)
    ensures Inv(ReaderDo(s, a))
  {
    ReaderLifecycle(s, a);
    ReaderCalls(s, a);
    ReaderSwept(s, a);
    ReaderFlow(s, a);
    ReaderTouches(s, a);
    ReaderRest(s, ReaderDo(s, a));
  }

  lemma ReaderRest(s: State, t: State)
    requires Inv(s) && Lifecycle(t) && Calls(t) && Swept(t) && Flow(t) && ByReaderOnly(s, t)
    ensures Inv(t)
  {
    ReturnsKeepStart(s, t);
    OtherClosing(s, t);
    OtherAccounting(s, t);
    OtherStarting(s, t);
  }

  /** What a step of the drainer, the reaper, the consumer or the process leaves alone. */
  ghost predicate Quiet(s: State, t: State) {
    && t.core == s.core && t.calls == s.calls && t.reader == s.reader && t.closers == s.closers
    && t.ses == s.ses.(events := t.ses.events) && t.notifCh == s.notifCh && t.closing == s.closing
    && t.log == s.log && t.sent == s.sent && t.aborted == s.aborted && t.swept == s.swept && t.taken == s.taken
    && (s.exited ==> t.exited)
  }

  lemma DrainerTouches(s: State, a: DrainerAct)
    requires DrainerCan(s, a)
    ensures Quiet(s, DrainerDo(s, a)) && DrainerDo(s, a).ses == s.ses && DrainerDo(s, a).reaper == s.reaper
  {
  }

  lemma DrainerInv(s: State, a: DrainerAct)
    requires Inv(s) && DrainerCan(s, a)
    ensures Inv(DrainerDo(s, a))
  {
    DrainerLifecycle(s, a);
    DrainerTouches(s, a);
    QuietRest(s, DrainerDo(s, a));
  }

  lemma ReaperSets(s: State, a: ReaperAct)
    requires ReaperCan(s, a) && (a.CloseStderr? || a.RecordWait? || a.CloseExited?)
    ensures Quiet(s, ReaperDo(s, a)) && ReaperDo(s, a).ses == s.ses
  {
  }

  lemma ReaperMovesOn(s: State, a: ReaperAct)
    requires ReaperCan(s, a) && !(a.CloseStderr? || a.RecordWait? || a.CloseExited?)
    ensures Quiet(s, ReaperDo(s, a)) && ReaperDo(s, a).ses == s.ses
    ensures ReaperDo(s, a) == s.(reaper := ReaperDo(s, a).reaper)
  {
    var t := ReaperDo(s, a);
    assert t == s.(reaper := t.reaper);
  }

  lemma ReaperTouches(s: State, a: ReaperAct)
    requires ReaperCan(s, a)
    ensures Quiet(s, ReaperDo(s, a)) && ReaperDo(s, a).ses == s.ses
  {
    if a.CloseStderr? || a.RecordWait? || a.CloseExited? {
      ReaperSets(s, a);
    } else {
      ReaperMovesOn(s, a);
    }
  }

  lemma ReaperInv(s: State, a: ReaperAct)
    requires Inv(s) && ReaperCan(s, a)
    ensures Inv(ReaperDo(s, a))
  {
    ReaperLifecycle(s, a);
    ReaperTouches(s, a);
    QuietRest(s, ReaperDo(s, a));
  }

  lemma QuietRest(s: State, t: State)
    requires Inv(s) && Quiet(s, t) && Lifecycle(t)
    ensures Inv(t)
  {
    ReturnsKeepStart(s, t);
    OtherClosing(s, t);
    OtherCalls(s, t);
    OtherSwept(s, t);
    OtherFlow(s, t);
    OtherAccounting(s, t);
    OtherStarting(s, t);
  }

  ghost predicate ByCallOnly(s: State, t: State) {
    && t.core.closed == s.core.closed
    && t == s.(core := t.core, calls := t.calls)
    && ReturnsKept(s, t)
  }

  lemma CallTouches(s: State, call: nat, a: CallAct)
    requires CallCan(s, call, a)
    ensures ByCallOnly(s, CallDo(s, call, a))
  {
  }

  lemma CallInv(s: State, call: nat, a: CallAct)
    requires Inv(s) && CallCan(s, call, a)
    ensures Inv(CallDo(s, call, a))
  {
    CallCalls(s, call, a);
    CallSwept(s, call, a);
    CallTouches(s, call, a);
    CallRest(s, CallDo(s, call, a));
  }

  lemma CallRest(s: State, t: State)
    requires Inv(s) && Calls(t) && Swept(t) && ByCallOnly(s, t)
    ensures Inv(t)
  {
    SameLifecycle(s, t);
    ReturnsKeepStart(s, t);
    OtherClosing(s, t);
    OtherFlow(s, t);
    OtherAccounting(s, t);
    OtherStarting(s, t);
  }

  ghost predicate ByCloserOnly(s: State, t: State) {
    && t == s.(core := t.core, closers := t.closers, closing := t.closing)
    && t.core.pending == s.core.pending && s.core.nextID <= t.core.nextID && (s.closing ==> t.closing)
  }

  /** The one closer that signals finds the signal not given yet. */
  lemma CloserTouches(s: State, k: nat, a: CloserAct)
    requires Lifecycle(s) && Closing(s) && CloserCan(s, k, a)
    ensures ByCloserOnly(s, CloserDo(s, k, a))
  {
    if a.CallCancel? || a.CallClose? {
    } else if a.Interrupt? || a.Shut? {
    }
  }

  lemma CloserInv(s: State, k: nat, a: CloserAct)
    requires Inv(s) && CloserCan(s, k, a)
    ensures Inv(CloserDo(s, k, a))
  {
    CloserClosing(s, k, a);
    CloserTouches(s, k, a);
    CloserRest(s, CloserDo(s, k, a));
  }

  lemma CloserRest(s: State, t: State)
    requires Inv(s) && Closing(t) && ByCloserOnly(s, t)
    ensures Inv(t)
  {
    SameLifecycle(s, t);
    ReturnsKeepStart(s, t);
    OtherCalls(s, t);
    OtherSwept(s, t);
    OtherFlow(s, t);
    OtherAccounting(s, t);
    OtherStarting(s, t);
  }

  ghost predicate BySessionOnly(s: State, t: State) {
    && t == s.(ses := t.ses, stderrCh := t.stderrCh, notifCh := t.notifCh, taken := t.taken, closers := t.closers,
               panicked := t.panicked)
    && t.taken + t.notifCh.buf == s.taken + s.notifCh.buf
    && (|| (t.closers == s.closers && (t.ses.pc.Ended? <==> s.ses.pc.Ended?))
        || (t.closers == s.closers[0 := KClose] && t.ses.pc.Ended? && !s.ses.pc.Ended?))
    && (s.ses.pc.Absent? || t.ses.thread == s.ses.thread)
    && t.ses.turnPC == s.ses.turnPC
    && (t.ses.started == s.ses.started || (s.ses.started != [] && t.ses.started == s.ses.started[1..]))
  }

  lemma TakeTouches(s: State)
    requires SessionCan(s, OnNotification)
    ensures BySessionOnly(s, SessionDo(s, OnNotification))
  {
  }

  lemma EndingTouches(s: State, a: SessionAct)
    requires SessionCan(s, a) && Ending(a)
    ensures BySessionOnly(s, SessionDo(s, a))
  {
    if a.OnClosing? || a.OnExited? || a.OnContext? {
    } else if a.DrainNotifClosed? || a.DrainDefault? {
    } else if a.Record? || a.CloseEvents? {
    }
  }

  lemma SessionTouches(s: State, a: SessionAct)
    requires SessionCan(s, a)
    ensures BySessionOnly(s, SessionDo(s, a))
  {
    if a.OnNotification? {
      TakeTouches(s);
    } else if Ending(a) {
      EndingTouches(s, a);
    } else {
      SelectTouches(s, a);
    }
  }

  lemma SelectTouches(s: State, a: SessionAct)
    requires SessionCan(s, a) && !a.OnNotification? && !Ending(a)
    ensures BySessionOnly(s, SessionDo(s, a))
  {
    var t := SessionDo(s, a);
    if a.OnStderr? {
      assert t == s.(stderrCh := t.stderrCh, panicked := t.panicked, ses := t.ses);
    } else {
      assert t == s.(ses := t.ses);
    }
  }

  lemma SessionInv(s: State, a: SessionAct)
    requires Inv(s) && SessionCan(s, a)
    ensures Inv(SessionDo(s, a))
  {
    SessionLifecycle(s, a);
    SessionAccounting(s, a);
    SessionTouches(s, a);
    SessionRest(s, SessionDo(s, a));
  }

  lemma SessionRest(s: State, t: State)
    requires Inv(s) && Lifecycle(t) && Accounting(t) && BySessionOnly(s, t)
    ensures Inv(t)
  {
    ReturnsKeepStart(s, t);
    OtherClosing(s, t);
    OtherCalls(s, t);
    OtherSwept(s, t);
    OtherFlow(s, t);
    OtherStarting(s, t);
  }

  lemma TurnInv(s: State, a: TurnAct)
    requires Inv(s) && TurnCan(s, a)
    ensures Inv(TurnDo(s, a))
  {
    TurnStarting(s, a);
    TurnTouches(s, a);
    TurnRest(s, TurnDo(s, a));
  }

  ghost predicate ByTurnOnly(s: State, t: State) {
    t == s.(ses := s.ses.(turnPC := t.ses.turnPC, turnID := t.ses.turnID, started := t.ses.started))
  }

  lemma TurnTouches(s: State, a: TurnAct)
    requires TurnCan(s, a)
    ensures ByTurnOnly(s, TurnDo(s, a))
  {
  }

  lemma TurnRest(s: State, t: State)
    requires Inv(s) && Starting(t) && StartKept(s, t) && ByTurnOnly(s, t)
    ensures Inv(t)
  {
    SameLifecycle(s, t);
    OtherClosing(s, t);
    OtherCalls(s, t);
    OtherSwept(s, t);
    OtherFlow(s, t);
    OtherAccounting(s, t);
  }

  /** A step of the consumer or of the process. */
  lemma OutsideInv(s: State, step: Step)
    requires Inv(s) && Can(s, step) && (step.ByConsumer? || step.ByProcess?)
    ensures Inv(Do(s, step))
  {
    assert Quiet(s, Do(s, step));
    assert Lifecycle(Do(s, step));
    QuietRest(s, Do(s, step));
  }

  lemma InvStep(s: State, step: Step)
    requires Inv(s) && Can(s, step)
    ensures Inv(Do(s, step))
  {
    match step
    case ByReader(a) => ReaderInv(s, a);
    case ByDrainer(a) => DrainerInv(s, a);
    case ByReaper(a) => ReaperInv(s, a);
    case ByCall(call, a) => CallInv(s, call, a);
    case ByCloser(k, a) => CloserInv(s, k, a);
    case BySession(a) => SessionInv(s, a);
    case ByTurn(a) => TurnInv(s, a);
    case ByConsumer => OutsideInv(s, step);
    case ByProcess => OutsideInv(s, step);
  }

  lemma InitInv(hasProcess: bool)
    ensures Inv(Init(hasProcess))
  {
  }

  lemma InvFollows(run: Run, i: nat)
    requires IsRun(run) && i < |run.steps| && Inv(run.states[i])
    ensures Inv(run.states[i + 1])
  {
    assert Follows(run, i);
    InvStep(run.states[i], run.steps[i]);
  }

  /** The invariant holds in every state of every run. */
  lemma {:induction false} InvAlways(run: Run, i: nat)
    requires IsRun(run) && i < |run.states|
    ensures Inv(run.states[i])
  {
    if i == 0 {
      InitInv(run.states[0].hasProcess);
    } else {
      InvAlways(run, i - 1);
      InvFollows(run, i - 1);
    }
  }
}
