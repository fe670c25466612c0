/** What a session's result tells, field by field, for every way it can end, and what its pieces go back to: the
    answer to its own turn/start, the lines of stderr, the process's exit. */
module CodexResults {
  import opened Basics
  import opened CodexTypes
  import opened CodexProtocol
  import opened CodexInvariant
  import opened CodexTheorems

  /** A step of the run before state i. */
  ghost predicate Stepped(run: Run, i: nat, step: Step) {
    exists m :: 0 <= m < i && m < |run.steps| && run.steps[m] == step
  }

  // The answer to turn/start.

  /** What is reported for the outcome of the session's turn/start request: the turn, or why there is none. */
  predicate Answers(o: Outcome, sr: StartResult) {
    match o
    case Good(p) =>
      if p.turn.Some? then sr == Started(p.turn.value) else sr == StartFailed("codex turn/start response: " + p.flaw)
    case Bad(ServerError(e)) => sr == StartFailed("codex turn/start: " + e.message)
    case Bad(ServerExited(None)) => sr == StartFailed("codex turn/start: app-server exited: %!w(<nil>)")
    case Bad(ServerExited(Some(e))) => sr == StartFailed("codex turn/start: app-server exited: " + e)
    case Bad(ContextDone(e)) => sr == StartFailed("codex turn/start: " + e)
    case Bad(WriteFailed(e)) => sr == StartFailed("codex turn/start: write: " + e)
    case Bad(WriteRefused) => sr == StartFailed("codex turn/start: codex client is closed")
    case Bad(ClientClosed) => sr == StartFailed("codex client is closed")
  }

  lemma AnswersExactly(o: Outcome, sr: StartResult)
    ensures Answers(o, sr) <==> sr == StartOf(o)
  {
  }

  /** The outcome of the session's own turn/start request, once that has returned. */
  function StartOutcome(s: State): Option<Outcome> {
    var call := StartCall(s.ses);
    if call.Some? && call.value in s.calls && s.calls[call.value].phase.Returned? then
      Some(s.calls[call.value].phase.outcome)
    else
      None
  }

  /** A session that ends by its turn/start ends by the answer to its own request: by the turn that answer
      carries, and only a turn reported completed, failed or interrupted, or else by its failure. */
  lemma StartEndsSo(run: Run, i: nat, sr: StartResult)
    requires IsRun(run) && i < |run.states| && CauseOf(run.states[i]) == Some(ByStart(sr))
    ensures var o := StartOutcome(run.states[i]);
            && o.Some? && Answers(o.value, sr)
            && (sr.Started? ==> sr.turn.status in {Completed, Failed, Interrupted})
            && (sr.Started? <==> o.value.Good? && o.value.result.turn.Some?)
  {
    InvAlways(run, i);
    var s := run.states[i];
    assert OwnStart(s, sr);
    AnswersExactly(StartOutcome(s).value, sr);
  }

  /** The answer ends the session exactly when it carries no turn or one that is over; on any other the loop
      goes on as it was. */
  lemma StartEndsExactly(run: Run, i: nat)
    requires IsRun(run) && i < |run.states| && SessionCan(run.states[i], OnStarted)
    ensures var s, t, o := run.states[i], SessionDo(run.states[i], OnStarted), StartOutcome(run.states[i]);
            && o.Some?
            && (t.ses.pc == Looping <==>
                && o.value.Good? && o.value.result.turn.Some?
                && o.value.result.turn.value.status !in {Completed, Failed, Interrupted})
            && (t.ses.pc == Looping ==> t == s.(ses := s.ses.(started := s.ses.started[1..])))
            && (t.ses.pc != Looping ==> t.ses.pc.Finishing? && t.ses.pc.cause.ByStart?
                                        && Answers(o.value, t.ses.pc.cause.sr))
  {
    InvAlways(run, i);
    var s := run.states[i];
    var sr := s.ses.started[0];
    assert OwnStart(s, sr);
    AnswersExactly(StartOutcome(s).value, sr);
    StartTaken(s);
  }

  lemma StartTaken(s: State)
    requires SessionCan(s, OnStarted)
    ensures var sr, t := s.ses.started[0], SessionDo(s, OnStarted);
            && (t.ses.pc == Looping <==> sr.Started? && sr.turn.status !in {Completed, Failed, Interrupted})
            && (t.ses.pc == Looping ==> t == s.(ses := s.ses.(started := s.ses.started[1..])))
            && (t.ses.pc != Looping ==> t.ses.pc.Finishing? && t.ses.pc.cause == ByStart(sr))
  {
  }

  // What the result says.

  /** What a turn that is over leaves in a result. */
  predicate Reports(turn: Turn, lastErr: string, r: RunResult) {
    && (turn.status.Completed? <==> r.status.Success?)
    && (turn.status.Completed? ==> r.stopReason == "completed" && r.error == "")
    && (turn.status.Failed? ==> r.stopReason == "failed")
    && (turn.status.Interrupted? ==> r.stopReason == "interrupted")
    && (turn.status.InProgress? ==> r.stopReason == "inProgress")
    && (turn.status.OtherStatus? ==> r.stopReason == turn.status.text)
    && (!turn.status.Completed? ==>
          r.error == if !Blank(turn.error) then TrimSpace(turn.error)
                     else if lastErr != "" then lastErr
                     else "codex turn " + r.stopReason)
  }

  /** Status, error and stop reason, by what ended the session, the last error the server told and the error
      the process ended with. */
  predicate Tells(cause: Cause, lastErr: string, waitErr: Option<string>, r: RunResult) {
    match cause
    case ByCompletion(turn) => Reports(turn, lastErr, r)
    case ByStart(Started(turn)) => Reports(turn, lastErr, r)
    case ByStart(StartFailed(err)) => r.status == Error && r.error == err && r.stopReason == ""
    case ByCancel => r.status == Error && r.error == "codex turn canceled" && r.stopReason == "interrupted"
    case ByContext => r.status == Error && r.stopReason == ""
    case ByCrash =>
      && r.status == Error && r.stopReason == ""
      && r.error == (if waitErr.Some? then "codex app-server exited: " + waitErr.value
                     else "codex app-server exited before the turn completed")
                    + if lastErr == "" then "" else ": " + lastErr
  }

  lemma CompletedReports(turn: Turn, thread: string, text: string, lastErr: string, stderr: string)
    ensures var r := CompletedResult(turn, thread, text, lastErr, stderr);
            Reports(turn, lastErr, r) && r.sessionID == thread
  {
  }

  lemma StartedTells(sr: StartResult, thread: string, text: string, lastErr: string, stderr: string,
                     waitErr: Option<string>)
    ensures var r := StartedResult(sr, thread, text, lastErr, stderr);
            r.Some? ==> Tells(ByStart(sr), lastErr, waitErr, r.value) && r.value.sessionID in {"", thread}
  {
    if sr.Started? {
      CompletedReports(sr.turn, thread, text, lastErr, stderr);
    }
  }

  lemma CrashTells(thread: string, text: string, lastErr: string, stderr: string, waitErr: Option<string>)
    ensures var r := CrashResult(thread, text, lastErr, stderr, waitErr);
            Tells(ByCrash, lastErr, waitErr, r) && r.sessionID == thread
  {
    var msg := CrashResult(thread, text, "", stderr, waitErr).error;
    assert msg + "" == msg;
    assert msg + (": " + lastErr) == msg + ": " + lastErr;
  }

  lemma PublishedTells(cause: Cause, lastErr: string, waitErr: Option<string>, r: RunResult, thread: string,
                       stderr: string)
    requires Tells(cause, lastErr, waitErr, r) && r.sessionID in {"", thread}
    ensures Tells(cause, lastErr, waitErr, Published(r, thread, stderr))
    ensures Published(r, thread, stderr).sessionID == thread
  {
  }

  /** What ended the session is told, before and after it is published. */
  ghost predicate Telling(s: State) {
    && (s.ses.pc.Finishing? ==>
          && Tells(s.ses.pc.cause, LatestError(s.taken), s.waitErr, s.ses.pc.result)
          && s.ses.pc.result.sessionID in {"", s.ses.thread})
    && (s.ses.verdict.Some? ==>
          && Tells(s.ses.verdict.value.cause, LatestError(s.taken), s.waitErr, s.ses.verdict.value.result)
          && s.ses.verdict.value.result.sessionID == s.ses.thread)
  }

  /** A session that has just decided how to end, or goes on. */
  ghost predicate Decides(s: State, t: State) {
    && Accounting(s) && Selecting(s)
    && t.ses.verdict == s.ses.verdict && t.ses.lastErr == LatestError(t.taken)
    && (t.ses.pc.Finishing? ==>
          && Tells(t.ses.pc.cause, t.ses.lastErr, t.waitErr, t.ses.pc.result)
          && t.ses.pc.result.sessionID in {"", t.ses.thread})
  }

  lemma DecidedTells(s: State, t: State)
    requires Decides(s, t)
    ensures Telling(t)
  {
  }

  lemma TakingTells(s: State)
    requires Accounting(s) && SessionCan(s, OnNotification)
    ensures Telling(SessionDo(s, OnNotification))
  {
    HandleStep(s.taken, s.notifCh.buf[0], s.ses.thread);
    AbsorbTells(s, Handle(s.notifCh.buf[0], s.ses.thread, s.ses.text, s.ses.lastErr));
  }

  lemma AbsorbTells(s: State, h: Handled)
    requires Accounting(s) && SessionCan(s, OnNotification) && h.lastErr == LatestError(s.taken + [s.notifCh.buf[0]])
    ensures Telling(Absorb(s, h))
  {
    if h.finished.Some? {
      CompletedReports(h.finished.value, s.ses.thread, h.text, h.lastErr, StderrOf(s));
    }
    DecidedTells(s, Absorb(s, h));
  }

  lemma StartingTells(s: State)
    requires Accounting(s) && SessionCan(s, OnStarted)
    ensures Telling(SessionDo(s, OnStarted))
  {
    StartedTells(s.ses.started[0], s.ses.thread, s.ses.text, s.ses.lastErr, StderrOf(s), s.waitErr);
    DecidedTells(s, SessionDo(s, OnStarted));
  }

  lemma LeavingTells(s: State, a: SessionAct)
    requires Accounting(s) && SessionCan(s, a) && (a.OnClosing? || a.OnContext? || a.OnExited?)
    ensures Telling(SessionDo(s, a))
  {
    DecidedTells(s, SessionDo(s, a));
  }

  lemma DrainedTells(s: State, a: SessionAct)
    requires Accounting(s) && SessionCan(s, a) && (a.DrainNotifClosed? || a.DrainDefault?)
    ensures Telling(SessionDo(s, a))
  {
    CrashTells(s.ses.thread, s.ses.text, s.ses.lastErr, StderrOf(s), s.waitErr);
    DecidedTells(s, SessionDo(s, a));
  }

  lemma RecordTells(s: State)
    requires Accounting(s) && Telling(s) && SessionCan(s, Record)
    ensures Telling(SessionDo(s, Record))
  {
    PublishedTells(s.ses.pc.cause, LatestError(s.taken), s.waitErr, s.ses.pc.result, s.ses.thread, StderrOf(s));
  }

  lemma ClosingTells(s: State, a: SessionAct)
    requires Telling(s) && SessionCan(s, a) && (a.CloseEvents? || a.CloseDone? || a.CloseClient?)
    ensures Telling(SessionDo(s, a))
  {
    ClosingKeeps(s, a);
    CarriedTells(s, SessionDo(s, a));
  }

  predicate Carried(s: State, t: State) {
    && t.ses.verdict == s.ses.verdict && t.ses.thread == s.ses.thread && t.taken == s.taken && t.waitErr == s.waitErr
    && !t.ses.pc.Finishing?
  }

  lemma ClosingKeeps(s: State, a: SessionAct)
    requires SessionCan(s, a) && (a.CloseEvents? || a.CloseDone? || a.CloseClient?)
    ensures Carried(s, SessionDo(s, a))
  {
  }

  lemma CarriedTells(s: State, t: State)
    requires Telling(s) && Carried(s, t)
    ensures Telling(t)
  {
  }

  lemma SelectingTells(s: State, a: SessionAct)
    requires Accounting(s) && SessionCan(s, a)
    requires a.Open? || a.OnStderr? || a.OnStderrClosed? || a.OnNotifClosed?
    ensures Telling(SessionDo(s, a))
  {
  }

  lemma SessionTells(s: State, a: SessionAct)
    requires Accounting(s) && Telling(s) && SessionCan(s, a)
    ensures Telling(SessionDo(s, a))
  {
    match a
    case OnNotification => TakingTells(s);
    case OnStarted => StartingTells(s);
    case OnClosing => LeavingTells(s, a);
    case OnContext(_) => LeavingTells(s, a);
    case OnExited => LeavingTells(s, a);
    case DrainNotifClosed => DrainedTells(s, a);
    case DrainDefault => DrainedTells(s, a);
    case Record => RecordTells(s);
    case CloseEvents => ClosingTells(s, a);
    case CloseDone => ClosingTells(s, a);
    case CloseClient => ClosingTells(s, a);
    case _ => SelectingTells(s, a);
  }

  // What the other actors leave to the session.

  /** What a result tells of, apart from what the session does. */
  predicate SameTold(s: State, t: State) {
    && t.ses == s.ses.(events := t.ses.events, turnPC := t.ses.turnPC, turnID := t.ses.turnID,
                       started := t.ses.started)
    && t.taken == s.taken && (s.exited ==> t.waitErr == s.waitErr && t.stderrText == s.stderrText)
  }

  lemma LineTold(s: State, line: Line)
    requires s.reader.RRead? && !s.exited
    ensures SameTold(s, LineRead(s, line)) && LineRead(s, line).waitErr == s.waitErr
  {
  }

  lemma ReaderTold(s: State, a: ReaderAct)
    requires Lifecycle(s) && ReaderCan(s, a)
    ensures SameTold(s, ReaderDo(s, a)) && ReaderDo(s, a).waitErr == s.waitErr
  {
    if a.ReadLine? {
      LineTold(s, a.line);
    } else if a.ReadEOF? || a.ReaderStderr? || a.Lookup? || a.Deliver? {
    } else if a.Forward? || a.Abandon? || a.SweepPending? || a.FailOne? {
    }
  }

  lemma DrainerTold(s: State, a: DrainerAct)
    requires Lifecycle(s) && DrainerCan(s, a)
    ensures SameTold(s, DrainerDo(s, a)) && DrainerDo(s, a).waitErr == s.waitErr
  {
    DrainerTouches(s, a);
  }

  lemma ReaperTold(s: State, a: ReaperAct)
    requires Lifecycle(s) && ReaperCan(s, a)
    ensures SameTold(s, ReaperDo(s, a)) && ReaperDo(s, a).stderrText == s.stderrText
  {
    if a.CloseStderr? || a.RecordWait? || a.CloseExited? {
    } else {
      ReaperMovesOn(s, a);
    }
  }

  lemma CallTold(s: State, call: nat, a: CallAct)
    requires CallCan(s, call, a)
    ensures SameTold(s, CallDo(s, call, a)) && CallDo(s, call, a).waitErr == s.waitErr
  {
    CallTouches(s, call, a);
  }

  lemma CloserTold(s: State, k: nat, a: CloserAct)
    requires CloserCan(s, k, a)
    ensures SameTold(s, CloserDo(s, k, a)) && CloserDo(s, k, a).waitErr == s.waitErr
  {
    CloserSets(s, k, a);
  }

  lemma TurnTold(s: State, a: TurnAct)
    requires TurnCan(s, a)
    ensures SameTold(s, TurnDo(s, a)) && TurnDo(s, a).waitErr == s.waitErr
  {
    TurnTouches(s, a);
  }

  lemma OthersTold(s: State, step: Step)
    requires Lifecycle(s) && Can(s, step) && !step.BySession?
    ensures SameTold(s, Do(s, step))
  {
    match step
    case ByReader(a) => ReaderTold(s, a);
    case ByDrainer(a) => DrainerTold(s, a);
    case ByReaper(a) => ReaperTold(s, a);
    case ByCall(call, a) => CallTold(s, call, a);
    case ByCloser(k, a) => CloserTold(s, k, a);
    case ByTurn(a) => TurnTold(s, a);
    case ByConsumer =>
    case ByProcess =>
  }

  lemma TellingStill(s: State, t: State)
    requires Accounting(s) && Telling(s) && SameTold(s, t)
    ensures Telling(t)
  {
  }

  lemma TellingStep(s: State, step: Step)
    requires Inv(s) && Telling(s) && Can(s, step)
    ensures Telling(Do(s, step))
  {
    if step.BySession? {
      SessionTells(s, step.session);
    } else {
      OthersTold(s, step);
      TellingStill(s, Do(s, step));
    }
  }

  lemma {:induction false} TellingAlways(run: Run, i: nat)
    requires IsRun(run) && i < |run.states|
    ensures Telling(run.states[i])
  {
    if i > 0 {
      TellingAlways(run, i - 1);
      InvAlways(run, i - 1);
      assert Follows(run, i - 1);
      TellingStep(run.states[i - 1], run.steps[i - 1]);
    }
  }
}
