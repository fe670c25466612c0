/** What the Codex client and session promise, over every run of the protocol. */
module CodexTheorems {
  import opened Basics
  import opened CodexTypes
  import opened CodexProtocol
  import opened CodexInvariant

  // Channels.

  /** No goroutine ever sends on a closed channel and no channel is ever closed twice. */
  lemma NeverPanics(run: Run, i: nat)
    requires IsRun(run) && i < |run.states|
    ensures !run.states[i].panicked
  {
    InvAlways(run, i);
  }

  // What each actor leaves alone.

  predicate SameQueues(s: State, t: State) {
    t.notifCh == s.notifCh && t.stderrCh == s.stderrCh && t.sent == s.sent && t.exited == s.exited
  }

  lemma ReaderFrame(s: State, a: ReaderAct)
    requires ReaderCan(s, a)
    ensures var t := ReaderDo(s, a); t.reaper == s.reaper && t.ses == s.ses
  {
    if a.ReadLine? {
    } else if a.ReadEOF? || a.ReaderStderr? || a.Lookup? {
    }
  }

  lemma DrainerFrame(s: State, a: DrainerAct)
    requires DrainerCan(s, a)
    ensures var t := DrainerDo(s, a); t.reaper == s.reaper && t.ses == s.ses && t.calls == s.calls
  {
    DrainerTouches(s, a);
  }

  lemma ReaperFrame(s: State, a: ReaperAct)
    requires ReaperCan(s, a)
    ensures var t := ReaperDo(s, a); t.ses == s.ses && t.calls == s.calls
  {
    ReaperTouches(s, a);
  }

  lemma CallFrame(s: State, call: nat, a: CallAct)
    requires CallCan(s, call, a)
    ensures var t := CallDo(s, call, a); t.reaper == s.reaper && t.ses == s.ses && SameQueues(s, t)
  {
    CallTouches(s, call, a);
  }

  lemma CloserSets(s: State, k: nat, a: CloserAct)
    requires CloserCan(s, k, a)
    ensures var t := CloserDo(s, k, a);
            t == s.(core := t.core, closers := t.closers, closing := t.closing, panicked := t.panicked)
  {
  }

  lemma CloserFrame(s: State, k: nat, a: CloserAct)
    requires CloserCan(s, k, a)
    ensures var t := CloserDo(s, k, a); t.reaper == s.reaper && t.ses == s.ses && t.calls == s.calls && SameQueues(s, t)
  {
    CloserSets(s, k, a);
  }

  lemma SessionFrame(s: State, a: SessionAct)
    requires SessionCan(s, a)
    ensures var t := SessionDo(s, a);
            && t.reaper == s.reaper && t.calls == s.calls && t.sent == s.sent && t.exited == s.exited
            && (!a.Open? ==> t.ses.thread == s.ses.thread)
  {
    if !a.Open? {
      SessionIsThere(s, a);
    }
    SessionTouches(s, a);
    OnlySessionFrame(s, SessionDo(s, a));
  }

  lemma SessionIsThere(s: State, a: SessionAct)
    requires SessionCan(s, a) && !a.Open?
    ensures !s.ses.pc.Absent?
  {
  }

  lemma OnlySessionFrame(s: State, t: State)
    requires BySessionOnly(s, t)
    ensures t.reaper == s.reaper && t.calls == s.calls && t.sent == s.sent && t.exited == s.exited
    ensures !s.ses.pc.Absent? ==> t.ses.thread == s.ses.thread
  {
  }

  lemma TurnFrame(s: State, a: TurnAct)
    requires TurnCan(s, a)
    ensures var t := TurnDo(s, a);
            && t.reaper == s.reaper && t.calls == s.calls && SameQueues(s, t)
            && t.ses == s.ses.(turnPC := t.ses.turnPC, turnID := t.ses.turnID, started := t.ses.started)
  {
    TurnTouches(s, a);
  }

  // Requests.

  /** Pending IDs are in use by the calls that own them, below nextID and all different; a request
      succeeds only with the result of a response the server sent with that request's ID, in a line read
      since the request began or in the one line the reader was holding then. */
  lemma RequestsAnswered(run: Run, i: nat)
    requires IsRun(run) && i < |run.states|
    ensures var s := run.states[i];
            && (forall id | id in s.core.pending ::
                  && 1 <= id <= s.core.nextID
                  && s.core.pending[id] in s.calls
                  && s.calls[s.core.pending[id]].id == id)
            && (forall c, d | c in s.calls && d in s.calls && c != d && Live(s.calls[c]) ::
                  s.calls[c].id != s.calls[d].id)
            && (forall c | c in s.calls && s.calls[c].phase.Returned? && s.calls[c].phase.outcome.Good? ::
                  Heard(s.log, s.calls[c].born, Reply(Response(s.calls[c].id, s.calls[c].phase.outcome.result, None))))
  {
    InvAlways(run, i);
    var s := run.states[i];
    forall id | id in s.core.pending
      ensures 1 <= id <= s.core.nextID && s.core.pending[id] in s.calls && s.calls[s.core.pending[id]].id == id
    {
      assert PendingOk(s, id);
      assert CallOk(s.log, s.core.nextID, s.calls[s.core.pending[id]]);
    }
    forall c | c in s.calls && Live(s.calls[c]) ensures 1 <= s.calls[c].id {
      assert CallOk(s.log, s.core.nextID, s.calls[c]);
    }
    forall c | c in s.calls && s.calls[c].phase.Returned? && s.calls[c].phase.outcome.Good?
      ensures Heard(s.log, s.calls[c].born, Reply(Response(s.calls[c].id, s.calls[c].phase.outcome.result, None)))
    {
      assert CallOk(s.log, s.core.nextID, s.calls[c]);
    }
  }

  /** From s to t, call c keeps its ID, and a message in its reply channel stays there until the call
      takes it as its outcome. */
  predicate KeepsReply(s: State, t: State, c: nat)
    requires c in s.calls
  {
    && c in t.calls
    && t.calls[c].id == s.calls[c].id
    && (s.calls[c].slot.Some? ==>
          || t.calls[c].slot == s.calls[c].slot
          || (t.calls[c].slot.None? && t.calls[c].phase == Leaving(ReplyOutcome(s.calls[c].slot.value))))
  }

  lemma ReaderKeepsReply(s: State, a: ReaderAct, c: nat)
    requires ReaderCan(s, a) && c in s.calls
    ensures KeepsReply(s, ReaderDo(s, a), c)
  {
    if !a.SweepPending? && !a.Deliver? && !a.FailOne? {
      ReaderQuiet(s, a);
    }
  }

  lemma CallKeepsReply(s: State, call: nat, a: CallAct, c: nat)
    requires CallCan(s, call, a) && c in s.calls
    ensures KeepsReply(s, CallDo(s, call, a), c)
  {
  }

  /** In every step a reply channel keeps its first message: later replies and failPending are
      dropped, and the call's outcome is that message. */
  lemma FirstReplyKept(s: State, step: Step, c: nat)
    requires Can(s, step) && c in s.calls
    ensures KeepsReply(s, Do(s, step), c)
  {
    match step
    case ByReader(a) => ReaderKeepsReply(s, a, c);
    case ByDrainer(a) => DrainerFrame(s, a);
    case ByReaper(a) => ReaperFrame(s, a);
    case ByCall(call, a) => CallKeepsReply(s, call, a, c);
    case ByCloser(k, a) => CloserFrame(s, k, a);
    case BySession(a) => SessionFrame(s, a);
    case ByTurn(a) => TurnFrame(s, a);
    case ByConsumer =>
    case ByProcess =>
  }

  // Nothing is stuck.

  /** Once failPending is done with it, every call that was pending then can take a reply. */
  lemma SweptCallsReleased(run: Run, i: nat, c: nat)
    requires IsRun(run) && i < |run.states|
    requires var s := run.states[i];
             SweepDone(s) && c in s.swept && c !in Unfailed(s) && c in s.calls && s.calls[c].phase.Waiting?
    ensures CallCan(run.states[i], c, TakeReply)
  {
    InvAlways(run, i);
  }

  function ReaperRank(pc: ReaperPC): nat {
    match pc
    case PWaitReader => 6
    case PWaitStderr => 5
    case PCloseStderr => 4
    case PWaitProcess => 3
    case PRecord(_) => 2
    case PCloseExited => 1
    case PDone => 0
  }

  /** The reaper only moves forward. */
  lemma ReaperForward(s: State, step: Step)
    requires Can(s, step)
    ensures ReaperRank(Do(s, step).reaper) <= ReaperRank(s.reaper)
    ensures step.ByReaper? ==> ReaperRank(Do(s, step).reaper) < ReaperRank(s.reaper)
  {
    match step
    case ByReader(a) => ReaderFrame(s, a);
    case ByDrainer(a) => DrainerFrame(s, a);
    case ByReaper(a) => ReaperMoves(s, a);
    case ByCall(call, a) => CallFrame(s, call, a);
    case ByCloser(k, a) => CloserFrame(s, k, a);
    case BySession(a) => SessionFrame(s, a);
    case ByTurn(a) => TurnFrame(s, a);
    case ByConsumer =>
    case ByProcess =>
  }

  lemma ReaperMoves(s: State, a: ReaperAct)
    requires ReaperCan(s, a)
    ensures ReaperRank(ReaperDo(s, a).reaper) < ReaperRank(s.reaper)
  {
    if a.SawReader? || a.SawStderr? {
    } else if a.CloseStderr? {
    } else if a.NoProcess? || a.Reap? {
    }
  }

  /** Once both pipe readers have finished, a waiting call can take its reply, or can see the exit, or
      the reaper can move, or the process is still running; the reaper reaches the exit in at most six
      moves, and nothing but a running process holds it up. */
  lemma WaitingCallsReleased(run: Run, i: nat, c: nat)
    requires IsRun(run) && i < |run.states|
    requires run.states[i].reader.RDone? && run.states[i].drainer.DDone?
    requires c in run.states[i].calls && run.states[i].calls[c].phase.Waiting?
    ensures
      || CallCan(run.states[i], c, TakeReply)
      || CallCan(run.states[i], c, SawExit)
      || (exists a :: ReaperCan(run.states[i], a))
      || Can(run.states[i], ByProcess)
    ensures
      (!run.states[i].exited && !(exists a :: ReaperCan(run.states[i], a)))
      <==> (run.states[i].reaper.PWaitProcess? && Can(run.states[i], ByProcess))
    ensures c in run.states[i].swept ==> CallCan(run.states[i], c, TakeReply)
    ensures ReaperRank(run.states[i].reaper) == 0 ==> CallCan(run.states[i], c, SawExit)
  {
    InvAlways(run, i);
    var s := run.states[i];
    if !s.exited && !(s.reaper.PWaitProcess? && Can(s, ByProcess)) {
      var a := if s.reaper.PWaitReader? then SawReader
               else if s.reaper.PWaitStderr? then SawStderr
               else if s.reaper.PCloseStderr? then CloseStderr
               else if s.reaper.PWaitProcess? then (if s.hasProcess then Reap(None) else NoProcess)
               else if s.reaper.PRecord? then RecordWait
               else CloseExited;
      assert ReaperCan(s, a);
    }
  }

  /** The reader stops for one reason only: a notification in hand, a full queue and no close. */
  lemma ReaderStuckExactly(run: Run, i: nat)
    requires IsRun(run) && i < |run.states|
    ensures var s := run.states[i];
            (!s.reader.RDone? && !(exists a :: ReaderCan(s, a)))
            <==> (s.reader.RPark? && !s.notifCh.Room() && !s.closing)
  {
    InvAlways(run, i);
    var s := run.states[i];
    match s.reader
    case RRead => assert ReaderCan(s, ReadEOF);
    case RStderr(_) => assert ReaderCan(s, ReaderStderr);
    case RRoute(_) => assert ReaderCan(s, Lookup);
    case RDeliver(_, _) => assert ReaderCan(s, Deliver);
    case RPark(_) =>
      if s.notifCh.Room() {
        assert ReaderCan(s, Forward);
      } else if s.closing {
        assert ReaderCan(s, Abandon);
      }
    case RFail => assert ReaderCan(s, SweepPending);
    case RFailing(left) =>
      if left == {} {
        assert ReaderCan(s, FailedAll);
      } else {
        var c :| c in left;
        assert ReaderCan(s, FailOne(c));
      }
    case RCloseNotif => assert ReaderCan(s, CloseNotif);
    case RCloseDone => assert ReaderCan(s, SignalReaderDone);
    case RDone =>
  }

  ghost predicate SessionMoves(s: State) {
    exists a :: SessionCan(s, a) && !a.OnContext? && !a.Open?
  }

  ghost predicate CloserMoves(s: State) {
    exists k, a :: CloserCan(s, k, a) && !a.CallCancel? && !a.CallClose?
  }

  /** Nobody has opened a session, and everybody who began to close has finished. */
  ghost predicate Unattended(s: State) {
    s.ses.pc.Absent? && !s.core.closed && forall k | k in s.closers :: s.closers[k].KDone?
  }

  /** A reader stopped on a full queue has nobody to help it, neither the session that drains the queue nor a
      close on its way to the signal, exactly when the queue filled before any session was there and nobody
      is closing. */
  lemma StuckReaderHelped(run: Run, i: nat)
    requires IsRun(run) && i < |run.states|
    requires run.states[i].reader.RPark? && !run.states[i].notifCh.Room()
    ensures
      !(ReaderCan(run.states[i], Abandon) || SessionMoves(run.states[i]) || CloserMoves(run.states[i]))
      <==> Unattended(run.states[i])
  {
    InvAlways(run, i);
    var s := run.states[i];
    if !Unattended(s) && !s.closing {
      if s.core.closed {
        var k :| k in s.closers && s.closers[k].KSignal?;
        assert CloserCan(s, k, SignalClosing);
      } else if s.ses.pc.Absent? {
        var k :| k in s.closers && !s.closers[k].KDone?;
        CloserOnItsWay(s, k);
      } else {
        SessionOnItsWay(s);
      }
    }
  }

  lemma CloserOnItsWay(s: State, k: nat)
    requires k in s.closers && !s.closers[k].KDone?
    ensures CloserMoves(s)
  {
    var a := if s.closers[k].KInterrupt? then Interrupt
             else if s.closers[k].KClose? then CloserAct.Shut
             else SignalClosing;
    assert CloserCan(s, k, a);
  }

  /** With a session there and the queue full, the session or the close it makes at its end can move. */
  lemma SessionOnItsWay(s: State)
    requires Inv(s) && !s.ses.pc.Absent? && s.notifCh.buf != [] && !s.core.closed
    ensures SessionMoves(s) || CloserMoves(s)
  {
    if s.ses.pc.Ended? {
      CloserOnItsWay(s, 0);
    } else {
      var a := if Selecting(s) then OnNotification
               else if s.ses.pc.Finishing? then Record
               else if s.ses.pc.Recorded? then CloseEvents
               else if s.ses.pc.EventsClosed? then CloseDone
               else CloseClient;
      assert SessionCan(s, a);
    }
  }

  /** After close, a reader parked on a full queue can move as soon as close has signalled, and
      whoever closed can always do that. */
  lemma CloseFreesReader(run: Run, i: nat)
    requires IsRun(run) && i < |run.states|
    requires run.states[i].core.closed && run.states[i].reader.RPark?
    ensures ReaderCan(run.states[i], Abandon) || exists k :: CloserCan(run.states[i], k, SignalClosing)
  {
    InvAlways(run, i);
    var s := run.states[i];
    if !s.closing {
      var k :| k in s.closers && s.closers[k].KSignal?;
      assert CloserCan(s, k, SignalClosing);
    }
  }

  // The session's end.

  /** After the exit the reader, the drainer and the reaper are done. */
  lemma ExitedAreIdle(s: State, step: Step)
    requires Lifecycle(s) && s.exited && Can(s, step)
    ensures !step.ByReader? && !step.ByDrainer? && !step.ByReaper?
  {
  }

  /** Why the session ended, once it has decided to. */
  function CauseOf(s: State): Option<Cause> {
    if s.ses.pc.Finishing? then
      Some(s.ses.pc.cause)
    else if s.ses.verdict.Some? then
      Some(s.ses.verdict.value.cause)
    else
      None
  }

  /** A session ends by completion if and only if it has taken a completion of its own thread, and then
      that was the last notification it took and the first of its kind; one of another thread never ends it. */
  lemma ChildThreadNeverEnds(run: Run, i: nat)
    requires IsRun(run) && i < |run.states|
    ensures var s := run.states[i];
            && ((CauseOf(s).Some? && CauseOf(s).value.ByCompletion?) <==> !NoneCompletes(s.taken, s.ses.thread))
            && (CauseOf(s).Some? && CauseOf(s).value.ByCompletion? ==>
                  && s.taken != []
                  && Completes(s.taken[|s.taken| - 1], s.ses.thread)
                  && s.taken[|s.taken| - 1].turn == CauseOf(s).value.turn
                  && NoneCompletes(s.taken[..|s.taken| - 1], s.ses.thread))
            && (SessionCan(s, OnNotification) && !Completes(s.notifCh.buf[0], s.ses.thread) ==>
                  SessionDo(s, OnNotification).ses.pc == s.ses.pc)
  {
    InvAlways(run, i);
    var s := run.states[i];
    if CauseOf(s).Some? {
      CauseTells(s);
    } else {
      NoCauseYet(s);
    }
    if SessionCan(s, OnNotification) && !Completes(s.notifCh.buf[0], s.ses.thread) {
      OthersAreProgress(s);
    }
  }

  lemma NoCauseYet(s: State)
    requires Accounting(s) && CauseOf(s).None?
    ensures NoneCompletes(s.taken, s.ses.thread)
  {
  }

  /** A notification that does not complete the session's own turn leaves the loop where it is. */
  lemma OthersAreProgress(s: State)
    requires SessionCan(s, OnNotification) && !Completes(s.notifCh.buf[0], s.ses.thread)
    ensures SessionDo(s, OnNotification).ses.pc == s.ses.pc
  {
  }

  lemma SessionKeepsVerdict(s: State, a: SessionAct)
    requires Accounting(s) && SessionCan(s, a)
    ensures a.Record? ==> s.ses.verdict.None? && SessionDo(s, a).ses.verdict.Some?
    ensures !a.Record? ==> SessionDo(s, a).ses.verdict == s.ses.verdict
  {
  }

  lemma OthersKeepSession(s: State, step: Step)
    requires Can(s, step) && !step.BySession?
    ensures Do(s, step).ses.verdict == s.ses.verdict
  {
    match step
    case ByReader(a) => ReaderFrame(s, a);
    case ByDrainer(a) => DrainerFrame(s, a);
    case ByReaper(a) => ReaperFrame(s, a);
    case ByCall(call, a) => CallFrame(s, call, a);
    case ByCloser(k, a) => CloserFrame(s, k, a);
    case ByTurn(a) => TurnFrame(s, a);
    case ByConsumer =>
    case ByProcess =>
  }

  /** Only Record publishes, and nothing replaces what it published. */
  lemma OnlyRecordPublishes(s: State, step: Step)
    requires Inv(s) && Can(s, step)
    ensures step == BySession(Record) ==> s.ses.verdict.None? && Do(s, step).ses.verdict.Some?
    ensures step != BySession(Record) ==> Do(s, step).ses.verdict == s.ses.verdict
  {
    if step.BySession? {
      SessionKeepsVerdict(s, step.session);
    } else {
      OthersKeepSession(s, step);
    }
  }

  function Records(steps: seq<Step>): nat {
    if steps == [] then
      0
    else
      Records(steps[..|steps| - 1]) + if steps[|steps| - 1] == BySession(Record) then 1 else 0
  }

  lemma PublishedOnce(run: Run, j: nat)
    requires IsRun(run) && j < |run.steps|
    ensures var s, t := run.states[j].ses, run.states[j + 1].ses;
            if run.steps[j] == BySession(Record) then s.verdict.None? && t.verdict.Some? else t.verdict == s.verdict
  {
    InvAlways(run, j);
    assert Follows(run, j);
    OnlyRecordPublishes(run.states[j], run.steps[j]);
  }

  /** The session makes at most one terminal transition, exactly one once it has a result, and the
      result it published never changes. */
  lemma {:induction false} OneTerminalTransition(run: Run, i: nat, j: nat)
    requires IsRun(run) && i <= j < |run.states|
    ensures Records(run.steps[..j]) == if run.states[j].ses.verdict.Some? then 1 else 0
    ensures run.states[i].ses.verdict.Some? ==> run.states[j].ses.verdict == run.states[i].ses.verdict
    decreases j
  {
    if j == 0 {
    } else {
      OneTerminalTransition(run, if i < j then i else j - 1, j - 1);
      PublishedOnce(run, j - 1);
      assert run.steps[..j][..j - 1] == run.steps[..j - 1];
    }
  }

  /** The server reported the turn completed in its answer to the session's own turn/start request. */
  ghost predicate StartReportedCompleted(s: State) {
    var call := StartCall(s.ses);
    && call.Some? && call.value in s.calls
    && var c := s.calls[call.value];
    && c.phase.Returned? && c.phase.outcome.Good?
    && c.phase.outcome.result.turn.Some? && c.phase.outcome.result.turn.value.status.Completed?
    && Heard(s.log, c.born, Reply(Response(c.id, c.phase.outcome.result, None)))
  }

  /** Done is signalled only after the result is published. The result's text is the answer given by
      the notifications consumed, which are a prefix of those the server sent; success means the
      server reported the session's own turn completed, in a turn/completed of its thread or in the
      answer to its own turn/start. */
  lemma ResultJustified(run: Run, i: nat)
    requires IsRun(run) && i < |run.states|
    ensures run.states[i].ses.done ==> run.states[i].ses.verdict.Some?
    ensures run.states[i].taken <= NotificationsOf(run.states[i].log)
    ensures var s := run.states[i];
            s.ses.verdict.Some? ==>
              var v := s.ses.verdict.value;
              && v.result.result == Answer(s.taken, s.ses.thread)
              && (v.result.status.Success? ==>
                    || (exists k | 0 <= k < |s.taken| ::
                          Completes(s.taken[k], s.ses.thread) && s.taken[k].turn.status.Completed?)
                    || StartReportedCompleted(s))
  {
    InvAlways(run, i);
    var s := run.states[i];
    assert s.taken <= s.taken + (s.notifCh.buf + InHand(s)) == NotificationsOf(s.log);
    if s.ses.verdict.Some? && s.ses.verdict.value.result.status.Success? {
      var v := s.ses.verdict.value;
      if v.cause.ByCompletion? {
        var k := |s.taken| - 1;
        assert Completes(s.taken[k], s.ses.thread) && s.taken[k].turn.status.Completed?;
      } else {
        StartSucceeds(s, v);
      }
    }
  }

  lemma StartSucceeds(s: State, v: Verdict)
    requires Calls(s) && Justified(s, v) && v.result.status.Success? && v.cause.ByStart?
    ensures StartReportedCompleted(s)
  {
    var c := s.calls[StartCall(s.ses).value];
    assert CallOk(s.log, s.core.nextID, c);
    assert v.cause.sr == StartOf(c.phase.outcome);
  }

  // The exited arm.

  /** Draining starts only after both channels are closed, so the default arm is never ready. */
  lemma DrainDefaultNeverReady(run: Run, i: nat)
    requires IsRun(run) && i < |run.states|
    ensures !SessionCan(run.states[i], DrainDefault)
  {
    InvAlways(run, i);
  }

  function DrainMeasure(s: State): nat {
    |s.notifCh.buf| + |s.stderrCh.buf| + (if s.ses.stderrLive then 1 else 0)
  }

  lemma SessionDrains(s: State, a: SessionAct)
    requires Inv(s) && s.ses.pc.Draining? && SessionCan(s, a)
    ensures SessionDo(s, a).ses.pc.Draining? ==> DrainMeasure(SessionDo(s, a)) < DrainMeasure(s)
    ensures !SessionDo(s, a).ses.pc.Draining? ==>
              && SessionDo(s, a).ses.pc.Finishing?
              && (SessionDo(s, a).ses.pc.cause.ByCrash? || SessionDo(s, a).ses.pc.cause.ByCompletion?)
  {
    if a.OnNotification? {
      TakingDrains(s);
    }
  }

  lemma TakingDrains(s: State)
    requires s.ses.pc.Draining? && SessionCan(s, OnNotification)
    ensures var t := TakeNotification(s);
            && |t.notifCh.buf| < |s.notifCh.buf| && t.stderrCh == s.stderrCh && t.ses.stderrLive == s.ses.stderrLive
            && (t.ses.pc.Draining? || (t.ses.pc.Finishing? && t.ses.pc.cause.ByCompletion?))
  {
  }

  /** The drain always has a ready arm, each arm it takes shrinks what is left, and no other actor
      adds to it; so the drain ends. */
  lemma DrainTerminates(run: Run, i: nat, step: Step)
    requires IsRun(run) && i < |run.states| && run.states[i].ses.pc.Draining?
    requires Can(run.states[i], step)
    ensures exists a :: SessionCan(run.states[i], a) && !a.OnContext?
    ensures var t := Do(run.states[i], step);
            if step.BySession? then
              t.ses.pc.Draining? ==> DrainMeasure(t) < DrainMeasure(run.states[i])
            else
              t.ses.pc.Draining? && DrainMeasure(t) == DrainMeasure(run.states[i])
  {
    InvAlways(run, i);
    var s := run.states[i];
    if s.notifCh.buf != [] {
      assert SessionCan(s, OnNotification);
    } else {
      assert SessionCan(s, DrainNotifClosed);
    }
    if step.BySession? {
      SessionDrains(s, step.session);
    } else {
      ExitFreezes(s, step);
    }
  }

  /** After the exit nobody but the session touches its queues. */
  lemma ExitFreezes(s: State, step: Step)
    requires Inv(s) && s.exited && Can(s, step) && !step.BySession?
    ensures var t := Do(s, step);
            && t.exited && t.notifCh == s.notifCh && t.stderrCh == s.stderrCh && t.sent == s.sent
            && t.ses.pc == s.ses.pc && t.ses.stderrLive == s.ses.stderrLive && t.ses.thread == s.ses.thread
            && t.ses.verdict == s.ses.verdict
  {
    ExitedAreIdle(s, step);
    if step.ByCall? {
      CallFrame(s, step.call, step.callAct);
    } else if step.ByCloser? {
      CloserFrame(s, step.closer, step.closerAct);
    } else if step.ByTurn? {
      TurnFrame(s, step.turn);
    }
  }

  /** A session that drains, or has ended by draining, with its queue's history settled. */
  ghost predicate Drained(s: State, sent: seq<Notification>, thread: string) {
    && s.exited && s.sent == sent && s.ses.thread == thread
    && (s.ses.pc.Draining? || (CauseOf(s).Some? && (CauseOf(s).value.ByCrash? || CauseOf(s).value.ByCompletion?)))
  }

  lemma DrainedBySession(s: State, a: SessionAct)
    requires Inv(s) && Drained(s, s.sent, s.ses.thread) && SessionCan(s, a)
    ensures Drained(SessionDo(s, a), s.sent, s.ses.thread)
  {
    SessionFrame(s, a);
    if s.ses.pc.Draining? {
      SessionDrains(s, a);
    }
  }

  lemma DrainedStep(s: State, step: Step)
    requires Inv(s) && Drained(s, s.sent, s.ses.thread) && Can(s, step)
    ensures Drained(Do(s, step), s.sent, s.ses.thread)
  {
    if step.BySession? {
      DrainedBySession(s, step.session);
    } else {
      ExitFreezes(s, step);
    }
  }

  lemma DrainedFollows(run: Run, i: nat)
    requires IsRun(run) && i < |run.steps|
    requires Drained(run.states[i], run.states[i].sent, run.states[i].ses.thread)
    ensures Drained(run.states[i + 1], run.states[i].sent, run.states[i].ses.thread)
  {
    InvAlways(run, i);
    assert Follows(run, i);
    DrainedStep(run.states[i], run.steps[i]);
  }

  lemma DrainingIsDrained(run: Run, i: nat)
    requires IsRun(run) && i < |run.states| && run.states[i].ses.pc.Draining?
    ensures Drained(run.states[i], run.states[i].sent, run.states[i].ses.thread)
  {
    InvAlways(run, i);
  }

  lemma {:induction false} DrainedRun(run: Run, i: nat, j: nat)
    requires IsRun(run) && i <= j < |run.states| && run.states[i].ses.pc.Draining?
    ensures Drained(run.states[j], run.states[i].sent, run.states[i].ses.thread)
    decreases j
  {
    if i == j {
      DrainingIsDrained(run, i);
    } else {
      DrainedRun(run, i, j - 1);
      DrainedFollows(run, j - 1);
    }
  }

  /** A session that takes the exited arm ends with its first queued turn/completed if there is one,
      and reports a crash exactly when there is none. */
  lemma ExitReportedExactly(run: Run, i: nat, j: nat)
    requires IsRun(run) && i <= j < |run.states|
    requires run.states[i].ses.pc.Draining? && CauseOf(run.states[j]).Some?
    ensures var queue, thread := run.states[i].notifCh.buf, run.states[i].ses.thread;
            var cause := CauseOf(run.states[j]).value;
            && (cause.ByCrash? <==> NoneCompletes(queue, thread))
            && (!cause.ByCrash? ==>
                  && cause.ByCompletion?
                  && exists k | 0 <= k < |queue| ::
                       Completes(queue[k], thread) && NoneCompletes(queue[..k], thread) && cause.turn == queue[k].turn)
  {
    InvAlways(run, i);
    InvAlways(run, j);
    DrainedRun(run, i, j);
    SettledQueue(run.states[i], run.states[j]);
  }

  /** Both ends of a drain account for the same notifications. */
  lemma SettledQueue(s: State, t: State)
    requires Flow(s) && Accounting(s) && s.ses.pc.Draining?
    requires Flow(t) && Accounting(t) && Drained(t, s.sent, s.ses.thread) && !t.ses.pc.Draining?
    ensures var queue, thread, cause := s.notifCh.buf, s.ses.thread, CauseOf(t).value;
            && (cause.ByCrash? <==> NoneCompletes(queue, thread))
            && (!cause.ByCrash? ==>
                  exists k | 0 <= k < |queue| ::
                    Completes(queue[k], thread) && NoneCompletes(queue[..k], thread) && cause.turn == queue[k].turn)
  {
    SplitTaken(s.taken, s.notifCh.buf, t.taken, t.notifCh.buf, s.ses.thread);
    CauseTells(t);
  }

  /** What a cause says about the notifications taken. */
  lemma CauseTells(t: State)
    requires Accounting(t) && CauseOf(t).Some?
    ensures CauseOf(t).value.ByCrash? ==> t.notifCh.buf == []
    ensures !CauseOf(t).value.ByCompletion? ==> NoneCompletes(t.taken, t.ses.thread)
    ensures CauseOf(t).value.ByCompletion? ==>
              && t.taken != [] && Completes(t.taken[|t.taken| - 1], t.ses.thread)
              && t.taken[|t.taken| - 1].turn == CauseOf(t).value.turn
              && NoneCompletes(t.taken[..|t.taken| - 1], t.ses.thread)
  {
  }

  /** Of one sequence split in two ways, the earlier part holding no completion: what the later
      part says about completions it says about the rest. */
  lemma SplitTaken(before: seq<Notification>, queue: seq<Notification>,
                   after: seq<Notification>, rest: seq<Notification>, thread: string)
    requires before + queue == after + rest && NoneCompletes(before, thread)
    ensures NoneCompletes(after, thread) && rest == [] ==> NoneCompletes(queue, thread)
    ensures after != [] && Completes(after[|after| - 1], thread) && NoneCompletes(after[..|after| - 1], thread) ==>
              var k := |after| - 1 - |before|;
              0 <= k < |queue| && queue[k] == after[|after| - 1] && NoneCompletes(queue[..k], thread)
  {
    var all := before + queue;
    assert forall k | 0 <= k < |queue| :: queue[k] == all[|before| + k];
    assert forall k | 0 <= k < |after| :: after[k] == all[k];
    assert forall k | 0 <= k < |before| :: before[k] == all[k];
  }

  /** A reported crash means the server never completed the session's turn: not in anything the
      session was sent, and not in anything read, unless the one notification a close dropped did. */
  lemma CrashMeansUnfinished(run: Run, i: nat)
    requires IsRun(run) && i < |run.states|
    requires CauseOf(run.states[i]) == Some(ByCrash)
    ensures NoneCompletes(run.states[i].sent, run.states[i].ses.thread)
    ensures var s := run.states[i];
            && NotificationsOf(s.log) == s.sent + s.aborted && |s.aborted| <= 1
            && (s.aborted != [] ==> s.closing)
            && (NoneCompletes(NotificationsOf(s.log), s.ses.thread) <==> NoneCompletes(s.aborted, s.ses.thread))
  {
    InvAlways(run, i);
    var s := run.states[i];
    assert s.taken + s.notifCh.buf == s.taken;
    NoneInBoth(s.sent, s.aborted, s.ses.thread);
  }

  lemma NoneInBoth(a: seq<Notification>, b: seq<Notification>, thread: string)
    ensures NoneCompletes(a + b, thread) <==> NoneCompletes(a, thread) && NoneCompletes(b, thread)
  {
    assert forall i | 0 <= i < |a| :: (a + b)[i] == a[i];
    assert forall i | 0 <= i < |b| :: (a + b)[|a| + i] == b[i];
  }

  // Two runs.

  function Last(run: Run): State
    requires run.states != []
  {
    run.states[|run.states| - 1]
  }

  function Fresh(): Run {
    Run([Init(true)], [])
  }

  function Then(run: Run, step: Step): Run
    requires run.states != [] && Can(Last(run), step)
  {
    Run(run.states + [Do(Last(run), step)], run.steps + [step])
  }

  lemma ThenIsRun(run: Run, step: Step)
    requires IsRun(run) && Can(Last(run), step)
    ensures IsRun(Then(run, step)) && Last(Then(run, step)) == Do(Last(run), step)
  {
    var t := Then(run, step);
    forall i | 0 <= i < |t.steps| ensures Follows(t, i) {
      if i < |run.steps| {
        assert Follows(run, i);
        assert t.states[i] == run.states[i] && t.states[i + 1] == run.states[i + 1];
      }
    }
  }

  /** A client nobody uses yet, with n notifications in the queue. */
  ghost predicate Filling(s: State, n: nat) {
    && s.reader.RRead? && s.notifCh.open && s.notifCh.cap == NOTIF_BUFFER && |s.notifCh.buf| == n
    && s.ses.pc.Absent? && !s.core.closed && s.closers == map[]
  }

  lemma FillOne(s: State, n: nat)
    requires Filling(s, n) && n < NOTIF_BUFFER
    ensures var t := LineRead(s, Notify(Ignored));
            ReaderCan(t, Forward) && Filling(ReaderDo(t, Forward), n + 1)
  {
  }

  lemma {:induction false} FilledRun(n: nat) returns (run: Run)
    requires n <= NOTIF_BUFFER
    ensures IsRun(run) && Filling(Last(run), n)
  {
    if n == 0 {
      run := Fresh();
    } else {
      var before := FilledRun(n - 1);
      var s := Last(before);
      FillOne(s, n - 1);
      ThenIsRun(before, ByReader(ReadLine(Notify(Ignored))));
      var read := Then(before, ByReader(ReadLine(Notify(Ignored))));
      ThenIsRun(read, ByReader(Forward));
      run := Then(read, ByReader(Forward));
    }
  }

  /** Such a reader exists: a server that sends more notifications than the queue holds before any session is
      opened stops it, with nobody to help. */
  lemma QueueFillsUnattended() returns (run: Run)
    ensures IsRun(run)
    ensures Last(run).reader.RPark? && !Last(run).notifCh.Room() && Unattended(Last(run))
  {
    var full := FilledRun(NOTIF_BUFFER);
    ThenIsRun(full, ByReader(ReadLine(Notify(Ignored))));
    run := Then(full, ByReader(ReadLine(Notify(Ignored))));
  }

  /** The line the reader holds when a request begins can answer it: a request can succeed with a response
      that was read before it was made. */
  lemma HeldReplyTaken(p: Payload) returns (run: Run)
    ensures IsRun(run)
    ensures var s := Last(run);
            && 0 in s.calls && s.calls[0].phase == Returned(Good(p)) && s.calls[0].born == 1
            && s.log == [Reply(Response(1, p, None))]
  {
    var r := Response(1, p, None);
    run := ReplyThenBegin(r);
    var s := Last(run);
    ThenIsRun(run, ByReader(Lookup));
    run := Then(run, ByReader(Lookup));
    ThenIsRun(run, ByReader(Deliver));
    run := Then(run, ByReader(Deliver));
    ThenIsRun(run, ByCall(0, Write(None)));
    run := Then(run, ByCall(0, Write(None)));
    assert Last(run).calls[0] == Call(1, Waiting, Some(r), 1);
    ThenIsRun(run, ByCall(0, TakeReply));
    run := Then(run, ByCall(0, TakeReply));
    ThenIsRun(run, ByCall(0, Forget));
    run := Then(run, ByCall(0, Forget));
  }

  /** The reader holds r, and then the first request begins. */
  lemma ReplyThenBegin(r: Response) returns (run: Run)
    requires r.id == 1
    ensures IsRun(run)
    ensures var s := Last(run);
            && s.reader == RRoute(r) && s.log == [Reply(r)] && !s.core.closed
            && s.core.pending == map[1 := 0] && s.calls == map[0 := Call(1, Registered, None, 1)]
  {
    run := Fresh();
    ThenIsRun(run, ByReader(ReadLine(Reply(r))));
    run := Then(run, ByReader(ReadLine(Reply(r))));
    ThenIsRun(run, ByCall(0, Begin));
    run := Then(run, ByCall(0, Begin));
  }
}
