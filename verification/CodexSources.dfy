/** Where what a session tells comes from: the lines of stderr, the process's exit, the ends of requests, and the
    notifications behind its events. */
module CodexSources {
  import opened Basics
  import opened CodexTypes
  import opened CodexProtocol
  import opened CodexInvariant
  import opened CodexTheorems
  import opened CodexDelivery
  import opened CodexResults

  // Stderr.

  /** What a step adds to the stderr text: a line of stderr, or one of stdout that does not parse. */
  function StderrPart(step: Step): string {
    match step
    case ByReader(ReadLine(Unparseable(text))) => "codex: unparseable stdout: " + text + "\n"
    case ByDrainer(DrainLine(line)) => line + "\n"
    case _ => ""
  }

  function StderrSaid(steps: seq<Step>): string {
    if steps == [] then "" else StderrSaid(steps[..|steps| - 1]) + StderrPart(steps[|steps| - 1])
  }

  lemma LineSaid(s: State, line: Line)
    requires s.reader.RRead?
    ensures LineRead(s, line).stderrText == s.stderrText + StderrPart(ByReader(ReadLine(line)))
  {
    if line.Unparseable? {
      ConcatThree(s.stderrText, "codex: unparseable stdout: " + line.text, "\n");
    }
  }

  lemma ReaderSaid(s: State, a: ReaderAct)
    requires ReaderCan(s, a) && !a.ReadLine?
    ensures ReaderDo(s, a).stderrText == s.stderrText
  {
    if a.ReadEOF? || a.ReaderStderr? || a.Lookup? || a.Deliver? {
    } else if a.Forward? || a.Abandon? || a.SweepPending? || a.FailOne? {
    }
  }

  lemma DrainerSaid(s: State, a: DrainerAct)
    requires DrainerCan(s, a)
    ensures DrainerDo(s, a).stderrText == s.stderrText + StderrPart(ByDrainer(a))
  {
    if a.DrainLine? {
      ConcatThree(s.stderrText, a.line, "\n");
    }
  }

  lemma OthersSaid(s: State, step: Step)
    requires Can(s, step) && !step.ByReader? && !step.ByDrainer?
    ensures Do(s, step).stderrText == s.stderrText
  {
    match step
    case ByReaper(a) => ReaperSaid(s, a);
    case ByCall(call, a) => CallTouches(s, call, a);
    case ByCloser(k, a) => CloserSets(s, k, a);
    case BySession(a) => SessionTouches(s, a);
    case ByTurn(a) => TurnTouches(s, a);
    case ByConsumer =>
    case ByProcess =>
  }

  lemma ReaperSaid(s: State, a: ReaperAct)
    requires ReaperCan(s, a)
    ensures ReaperDo(s, a).stderrText == s.stderrText
  {
    if a.CloseStderr? || a.RecordWait? || a.CloseExited? {
    } else {
      ReaperMovesOn(s, a);
    }
  }

  lemma StepSaid(s: State, step: Step)
    requires Can(s, step)
    ensures Do(s, step).stderrText == s.stderrText + StderrPart(step)
  {
    assert s.stderrText + "" == s.stderrText;
    if step.ByReader? {
      if step.reader.ReadLine? {
        LineSaid(s, step.reader.line);
      } else {
        ReaderSaid(s, step.reader);
      }
    } else if step.ByDrainer? {
      DrainerSaid(s, step.drainer);
    } else {
      OthersSaid(s, step);
    }
  }

  /** The stderr text is every line of stderr, and every stdout line that did not parse, in the order read. */
  lemma {:induction false} StderrComplete(run: Run, i: nat)
    requires IsRun(run) && i < |run.states|
    ensures run.states[i].stderrText == StderrSaid(run.steps[..i])
  {
    if i > 0 {
      StderrComplete(run, i - 1);
      assert Follows(run, i - 1);
      StepSaid(run.states[i - 1], run.steps[i - 1]);
      assert run.steps[..i][..i - 1] == run.steps[..i - 1];
    }
  }

  // Stderr as events.

  /** The stderr lines under way to the session: queued, or in the hands of the reader or the drainer. */
  function LinesHeld(s: State): set<string> {
    (set line | line in s.stderrCh.buf)
    + (if s.reader.RStderr? then {s.reader.line} else {})
    + (if s.drainer.DSend? then {s.drainer.line} else {})
  }

  /** The line a step adds to them: one of stderr that is not blank, or one of stdout that does not parse. */
  function LineShown(step: Step): set<string> {
    match step
    case ByReader(ReadLine(Unparseable(text))) => {"codex: unparseable stdout: " + text}
    case ByDrainer(DrainLine(line)) => if Blank(line) then {} else {line}
    case _ => {}
  }

  predicate SameLines(s: State, t: State) {
    t.reader == s.reader && t.drainer == s.drainer && forall line | line in t.stderrCh.buf :: line in s.stderrCh.buf
  }

  lemma SameLinesHeld(s: State, t: State)
    requires SameLines(s, t)
    ensures LinesHeld(t) <= LinesHeld(s)
  {
  }

  lemma LineHeld(s: State, line: Line)
    requires s.reader.RRead?
    ensures LinesHeld(LineRead(s, line)) <= LinesHeld(s) + LineShown(ByReader(ReadLine(line)))
  {
  }

  /** The reader's line joins the end of the queue when there is room. */
  lemma ReaderHandsOver(s: State)
    requires ReaderCan(s, ReaderStderr)
    ensures var t := ReaderDo(s, ReaderStderr);
            && t.stderrCh.buf == s.stderrCh.buf + (if s.stderrCh.Room() then [s.reader.line] else [])
            && LinesHeld(t) <= LinesHeld(s)
  {
  }

  predicate ReaderLines(s: State, t: State) {
    t.drainer == s.drainer && t.stderrCh == s.stderrCh && !t.reader.RStderr?
  }

  lemma ReaderLeavesLines(s: State, a: ReaderAct)
    requires ReaderCan(s, a) && !a.ReadLine? && !a.ReaderStderr?
    ensures ReaderLines(s, ReaderDo(s, a))
  {
    if a.ReadEOF? || a.Lookup? || a.Deliver? {
    } else if a.Forward? || a.Abandon? || a.SweepPending? || a.FailOne? {
    }
  }

  lemma DrainerHandsOver(s: State, a: DrainerAct)
    requires DrainerCan(s, a)
    ensures var t := DrainerDo(s, a);
            && (a.DrainSend? ==>
                  t.stderrCh.buf == s.stderrCh.buf + (if s.stderrCh.Room() then [s.drainer.line] else []))
            && LinesHeld(t) <= LinesHeld(s) + LineShown(ByDrainer(a))
  {
  }

  lemma ReaperLines(s: State, a: ReaperAct)
    requires ReaperCan(s, a)
    ensures SameLines(s, ReaperDo(s, a))
  {
    if a.CloseStderr? || a.RecordWait? || a.CloseExited? {
    } else {
      ReaperMovesOn(s, a);
    }
  }

  lemma CallLines(s: State, call: nat, a: CallAct)
    requires CallCan(s, call, a)
    ensures SameLines(s, CallDo(s, call, a))
  {
    CallTouches(s, call, a);
  }

  lemma CloserLines(s: State, k: nat, a: CloserAct)
    requires CloserCan(s, k, a)
    ensures SameLines(s, CloserDo(s, k, a))
  {
    CloserSets(s, k, a);
  }

  lemma SessionLines(s: State, a: SessionAct)
    requires SessionCan(s, a)
    ensures SameLines(s, SessionDo(s, a))
  {
    SessionTouches(s, a);
    if Ending(a) {
      EndLines(s, a);
    } else {
      LoopLines(s, a);
    }
  }

  lemma LoopLines(s: State, a: SessionAct)
    requires SessionCan(s, a) && !Ending(a)
    ensures forall line | line in SessionDo(s, a).stderrCh.buf :: line in s.stderrCh.buf
  {
    if a.OnNotification? {
    } else if a.OnStderr? {
    }
  }

  lemma EndLines(s: State, a: SessionAct)
    requires SessionCan(s, a) && Ending(a)
    ensures SessionDo(s, a).stderrCh == s.stderrCh
  {
    if a.OnClosing? || a.OnExited? || a.OnContext? {
    } else if a.DrainNotifClosed? || a.DrainDefault? {
    } else if a.Record? || a.CloseEvents? {
    }
  }

  lemma TurnLines(s: State, a: TurnAct)
    requires TurnCan(s, a)
    ensures SameLines(s, TurnDo(s, a))
  {
    TurnTouches(s, a);
  }

  lemma OthersHold(s: State, step: Step)
    requires Can(s, step) && !step.ByReader? && !step.ByDrainer?
    ensures SameLines(s, Do(s, step))
  {
    match step
    case ByReaper(a) => ReaperLines(s, a);
    case ByCall(call, a) => CallLines(s, call, a);
    case ByCloser(k, a) => CloserLines(s, k, a);
    case BySession(a) => SessionLines(s, a);
    case ByTurn(a) => TurnLines(s, a);
    case ByConsumer =>
    case ByProcess =>
  }

  lemma StepHolds(s: State, step: Step)
    requires Can(s, step)
    ensures LinesHeld(Do(s, step)) <= LinesHeld(s) + LineShown(step)
  {
    if step.ByReader? {
      if step.reader.ReadLine? {
        LineHeld(s, step.reader.line);
      } else if step.reader.ReaderStderr? {
        ReaderHandsOver(s);
      } else {
        ReaderLeavesLines(s, step.reader);
      }
    } else if step.ByDrainer? {
      DrainerHandsOver(s, step.drainer);
    } else {
      OthersHold(s, step);
      SameLinesHeld(s, Do(s, step));
    }
  }

  ghost predicate Shown(run: Run, i: nat, line: string) {
    exists m :: 0 <= m < i && m < |run.steps| && line in LineShown(run.steps[m])
  }

  /** Every stderr line a session may still show is one that was read: nothing is made up. */
  lemma {:induction false} StderrReal(run: Run, i: nat, line: string)
    requires IsRun(run) && i < |run.states| && line in LinesHeld(run.states[i])
    ensures Shown(run, i, line)
  {
    assert i > 0;
    assert Follows(run, i - 1);
    StepHolds(run.states[i - 1], run.steps[i - 1]);
    if line in LinesHeld(run.states[i - 1]) {
      StderrReal(run, i - 1, line);
    }
  }

  // The exit.

  /** The error the process ended with, as the reaper knows it. */
  ghost predicate ExitKnown(run: Run, i: nat)
    requires i < |run.states|
  {
    var s := run.states[i];
    match s.reaper
    case PRecord(err) => s.hasProcess && s.waitErr.None? && Stepped(run, i, ByReaper(Reap(err)))
    case PCloseExited => if s.hasProcess then Stepped(run, i, ByReaper(Reap(s.waitErr))) else s.waitErr.None?
    case PDone => if s.hasProcess then Stepped(run, i, ByReaper(Reap(s.waitErr))) else s.waitErr.None?
    case _ => s.waitErr.None?
  }

  lemma ReaderExit(s: State, a: ReaderAct)
    requires Lifecycle(s) && ReaderCan(s, a)
    ensures SameExit(s, ReaderDo(s, a))
  {
    ReaderFrame(s, a);
    ReaderTold(s, a);
    if a.ReadLine? {
    } else if a.ReadEOF? || a.ReaderStderr? || a.Lookup? || a.Deliver? {
    } else if a.Forward? || a.Abandon? || a.SweepPending? || a.FailOne? {
    }
  }

  predicate SameExit(s: State, t: State) {
    t.reaper == s.reaper && t.waitErr == s.waitErr && t.hasProcess == s.hasProcess
  }

  lemma DrainerExit(s: State, a: DrainerAct)
    requires DrainerCan(s, a)
    ensures SameExit(s, DrainerDo(s, a))
  {
  }

  lemma CallExit(s: State, call: nat, a: CallAct)
    requires CallCan(s, call, a)
    ensures SameExit(s, CallDo(s, call, a))
  {
    CallTouches(s, call, a);
  }

  lemma CloserExit(s: State, k: nat, a: CloserAct)
    requires CloserCan(s, k, a)
    ensures SameExit(s, CloserDo(s, k, a))
  {
    CloserSets(s, k, a);
  }

  lemma SessionExit(s: State, a: SessionAct)
    requires SessionCan(s, a)
    ensures SameExit(s, SessionDo(s, a))
  {
    SessionTouches(s, a);
  }

  lemma TurnExit(s: State, a: TurnAct)
    requires TurnCan(s, a)
    ensures SameExit(s, TurnDo(s, a))
  {
    TurnTouches(s, a);
  }

  lemma OthersExit(s: State, step: Step)
    requires Lifecycle(s) && Can(s, step) && !step.ByReaper?
    ensures SameExit(s, Do(s, step))
  {
    match step
    case ByReader(a) => ReaderExit(s, a);
    case ByDrainer(a) => DrainerExit(s, a);
    case ByCall(call, a) => CallExit(s, call, a);
    case ByCloser(k, a) => CloserExit(s, k, a);
    case BySession(a) => SessionExit(s, a);
    case ByTurn(a) => TurnExit(s, a);
    case ByConsumer =>
    case ByProcess =>
  }

  lemma ExitStillKnown(run: Run, i: nat)
    requires i + 1 < |run.states| && ExitKnown(run, i) && SameExit(run.states[i], run.states[i + 1])
    ensures ExitKnown(run, i + 1)
  {
  }

  lemma ReaperLearns(run: Run, i: nat, a: ReaperAct)
    requires i + 1 < |run.states| && i < |run.steps| && ExitKnown(run, i)
    requires run.steps[i] == ByReaper(a) && ReaperCan(run.states[i], a)
    requires run.states[i + 1] == ReaperDo(run.states[i], a)
    ensures ExitKnown(run, i + 1)
  {
    assert Stepped(run, i + 1, run.steps[i]);
  }

  lemma {:induction false} ExitAlwaysKnown(run: Run, i: nat)
    requires IsRun(run) && i < |run.states|
    ensures ExitKnown(run, i)
  {
    if i > 0 {
      ExitAlwaysKnown(run, i - 1);
      InvAlways(run, i - 1);
      assert Follows(run, i - 1);
      if run.steps[i - 1].ByReaper? {
        ReaperLearns(run, i - 1, run.steps[i - 1].reaper);
      } else {
        OthersExit(run.states[i - 1], run.steps[i - 1]);
        ExitStillKnown(run, i - 1);
      }
    }
  }

  /** Once the exit is signalled, the error on record is the one the process was reaped with, and there is none
      without a process. */
  lemma ExitErrorExactly(run: Run, i: nat)
    requires IsRun(run) && i < |run.states| && run.states[i].exited
    ensures run.states[i].hasProcess ==> Stepped(run, i, ByReaper(Reap(run.states[i].waitErr)))
    ensures !run.states[i].hasProcess ==> run.states[i].waitErr.None?
  {
    InvAlways(run, i);
    ExitAlwaysKnown(run, i);
  }

  // The thread.

  lemma OpenSets(s: State, thread: string)
    requires SessionCan(s, Open(thread))
    ensures SessionDo(s, Open(thread)).ses.thread == thread
  {
  }

  lemma SessionThread(s: State, a: SessionAct)
    requires SessionCan(s, a)
    ensures var t := SessionDo(s, a);
            a == Open(t.ses.thread) || (!s.ses.pc.Absent? && t.ses.thread == s.ses.thread)
  {
    if a.Open? {
      OpenSets(s, a.thread);
    } else {
      SessionIsThere(s, a);
      SessionFrame(s, a);
    }
  }

  lemma ThreadStep(s: State, step: Step)
    requires Lifecycle(s) && Can(s, step)
    ensures || step == BySession(Open(Do(s, step).ses.thread))
            || ((s.ses.pc.Absent? ==> Do(s, step).ses.pc.Absent?) && Do(s, step).ses.thread == s.ses.thread)
  {
    if step.BySession? {
      SessionThread(s, step.session);
    } else {
      OthersTold(s, step);
    }
  }

  lemma ThreadFollows(run: Run, i: nat)
    requires IsRun(run) && i < |run.steps| && !run.states[i + 1].ses.pc.Absent?
    ensures || run.steps[i] == BySession(Open(run.states[i + 1].ses.thread))
            || (!run.states[i].ses.pc.Absent? && run.states[i + 1].ses.thread == run.states[i].ses.thread)
  {
    InvAlways(run, i);
    assert Follows(run, i);
    ThreadStep(run.states[i], run.steps[i]);
  }

  /** The session's thread is the one it was opened with. */
  lemma {:induction false} ThreadOpened(run: Run, i: nat)
    requires IsRun(run) && i < |run.states| && !run.states[i].ses.pc.Absent?
    ensures Stepped(run, i, BySession(Open(run.states[i].ses.thread)))
  {
    assert i > 0;
    ThreadFollows(run, i - 1);
    if run.steps[i - 1] != BySession(Open(run.states[i].ses.thread)) {
      ThreadOpened(run, i - 1);
    }
  }

  // The end of a session.

  /** At step m the session decides to end, for this cause and with this result. */
  ghost predicate DecidedAt(run: Run, m: nat, cause: Cause, r: RunResult) {
    && m < |run.steps| && m + 1 < |run.states|
    && run.steps[m].BySession? && Decided(run.states[m], run.steps[m].session, cause, r)
  }

  /** What a step that decides leaves in the result. */
  predicate Decided(s: State, a: SessionAct, cause: Cause, r: RunResult) {
    && Selecting(s)
    && r.stderr == (if cause.ByCancel? || (cause.ByStart? && cause.sr.StartFailed?) then ""
                    else TrimSpace(s.stderrText))
    && (cause.ByContext? ==> a == OnContext(r.error))
    && (cause.ByCrash? ==> s.ses.pc.Draining?)
  }

  lemma TakingDecides(s: State, a: SessionAct)
    requires SessionCan(s, a) && (a.OnNotification? || a.OnStarted?) && SessionDo(s, a).ses.pc.Finishing?
    ensures Decided(s, a, SessionDo(s, a).ses.pc.cause, SessionDo(s, a).ses.pc.result)
  {
  }

  lemma SessionDecides(s: State, a: SessionAct)
    requires SessionCan(s, a) && SessionDo(s, a).ses.pc.Finishing?
    ensures Decided(s, a, SessionDo(s, a).ses.pc.cause, SessionDo(s, a).ses.pc.result)
  {
    if a.OnNotification? || a.OnStarted? {
      TakingDecides(s, a);
    } else if a.OnClosing? || a.OnContext? {
    } else if a.DrainNotifClosed? || a.DrainDefault? {
    }
  }

  lemma DecidesOrWas(run: Run, i: nat)
    requires IsRun(run) && i < |run.steps| && run.states[i + 1].ses.pc.Finishing?
    ensures || DecidedAt(run, i, run.states[i + 1].ses.pc.cause, run.states[i + 1].ses.pc.result)
            || run.states[i].ses.pc == run.states[i + 1].ses.pc
  {
    InvAlways(run, i);
    assert Follows(run, i);
    if run.steps[i].BySession? {
      SessionDecides(run.states[i], run.steps[i].session);
    } else {
      OthersTold(run.states[i], run.steps[i]);
    }
  }

  lemma {:induction false} DecidedBefore(run: Run, i: nat)
    requires IsRun(run) && i < |run.states| && run.states[i].ses.pc.Finishing?
    ensures exists m :: 0 <= m < i && DecidedAt(run, m, run.states[i].ses.pc.cause, run.states[i].ses.pc.result)
  {
    assert i > 0;
    DecidesOrWas(run, i - 1);
    if run.states[i - 1].ses.pc == run.states[i].ses.pc {
      DecidedBefore(run, i - 1);
    }
  }

  /** A step that publishes: what was decided, with the stderr of that moment if it had none. */
  ghost predicate PublishedAt(run: Run, n: nat, v: Verdict) {
    && n < |run.steps| && n < |run.states| && run.steps[n] == BySession(Record)
    && run.states[n].ses.pc.Finishing? && run.states[n].ses.pc.cause == v.cause
    && v.result.error == run.states[n].ses.pc.result.error
    && v.result.stderr == (if run.states[n].ses.pc.result.stderr != "" then run.states[n].ses.pc.result.stderr
                           else TrimSpace(run.states[n].stderrText))
  }

  lemma {:induction false} PublishedBefore(run: Run, i: nat)
    requires IsRun(run) && i < |run.states| && run.states[i].ses.verdict.Some?
    ensures exists n :: 0 <= n < i && PublishedAt(run, n, run.states[i].ses.verdict.value)
  {
    assert i > 0;
    PublishedOnce(run, i - 1);
    if run.steps[i - 1] == BySession(Record) {
      assert Follows(run, i - 1);
      assert PublishedAt(run, i - 1, run.states[i].ses.verdict.value);
    } else {
      PublishedBefore(run, i - 1);
    }
  }

  /** The stderr a result carries: what stderr had said when the session decided to end, and when that was
      nothing, or was not asked for, what it had said by the time the result was published. */
  predicate StderrSeen(run: Run, m: nat, n: nat, cause: Cause, stderr: string)
    requires m <= n <= |run.steps|
  {
    var early, late := TrimSpace(StderrSaid(run.steps[..m])), TrimSpace(StderrSaid(run.steps[..n]));
    stderr == if cause.ByCancel? || (cause.ByStart? && cause.sr.StartFailed?) || early == "" then late else early
  }

  /** A result goes back to one step of the session that decided it and a later one that published it: it has
      the session's thread, what Tells says, the stderr of those moments, and the error of a context that was
      done at the deciding step. */
  lemma ResultTells(run: Run, i: nat)
    requires IsRun(run) && i < |run.states| && run.states[i].ses.verdict.Some?
    ensures var s, v := run.states[i], run.states[i].ses.verdict.value;
            && v.result.sessionID == s.ses.thread
            && Tells(v.cause, LatestError(s.taken), s.waitErr, v.result)
            && exists m: nat, n: nat ::
                 && m < n < i && n < |run.steps| && Selecting(run.states[m]) && run.steps[n] == BySession(Record)
                 && StderrSeen(run, m, n, v.cause, v.result.stderr)
                 && (v.cause.ByContext? ==> run.steps[m] == BySession(OnContext(v.result.error)))
  {
    var v := run.states[i].ses.verdict.value;
    TellingAlways(run, i);
    PublishedBefore(run, i);
    var n: nat :| n < i && PublishedAt(run, n, v);
    DecidedBefore(run, n);
    var m: nat :| m < n && DecidedAt(run, m, v.cause, run.states[n].ses.pc.result);
    StderrComplete(run, m);
    StderrComplete(run, n);
    assert StderrSeen(run, m, n, v.cause, v.result.stderr);
  }

  lemma FrozenStep(s: State, step: Step)
    requires Inv(s) && s.exited && Can(s, step)
    ensures Do(s, step).exited && Do(s, step).stderrText == s.stderrText
  {
    if step.BySession? {
      SessionFrame(s, step.session);
      OthersSaid(s, step);
    } else {
      ExitFreezes(s, step);
      OthersTold(s, step);
    }
  }

  lemma {:induction false} StderrFrozen(run: Run, m: nat, i: nat)
    requires IsRun(run) && m <= i < |run.states| && run.states[m].exited
    ensures run.states[i].exited && run.states[i].stderrText == run.states[m].stderrText
    decreases i
  {
    if m < i {
      StderrFrozen(run, m, i - 1);
      InvAlways(run, i - 1);
      assert Follows(run, i - 1);
      FrozenStep(run.states[i - 1], run.steps[i - 1]);
    }
  }

  /** A crash report carries all that stderr ever said, and the error the process was reaped with. */
  lemma CrashTellsAll(run: Run, i: nat)
    requires IsRun(run) && i < |run.states|
    requires run.states[i].ses.verdict.Some? && run.states[i].ses.verdict.value.cause.ByCrash?
    ensures var s, r := run.states[i], run.states[i].ses.verdict.value.result;
            && r.stderr == TrimSpace(StderrSaid(run.steps))
            && (s.hasProcess ==> Stepped(run, i, ByReaper(Reap(s.waitErr))))
            && Tells(ByCrash, LatestError(s.taken), if s.hasProcess then s.waitErr else None, r)
  {
    var v, last := run.states[i].ses.verdict.value, |run.steps|;
    PublishedBefore(run, i);
    var n: nat :| n < i && PublishedAt(run, n, v);
    DecidedBefore(run, n);
    var m: nat :| m < n && DecidedAt(run, m, v.cause, run.states[n].ses.pc.result);
    InvAlways(run, m);
    StderrFrozen(run, m, n);
    StderrFrozen(run, m, i);
    StderrFrozen(run, m, last);
    StderrComplete(run, last);
    assert run.steps[..last] == run.steps;
    ExitErrorExactly(run, i);
    TellingAlways(run, i);
  }
}
