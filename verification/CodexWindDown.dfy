/** How a Codex client and its session come to rest once somebody has closed and the process is gone. */
module CodexWindDown {
  import opened Basics
  import opened CodexTypes
  import opened CodexProtocol
  import opened CodexInvariant
  import opened CodexTheorems

  /** A close has signalled, and there is no process, or none any more. */
  predicate Winding(s: State) {
    s.closing && (s.hasProcess ==> s.processGone)
  }

  /** A step of what is already under way: no line comes in, and nobody outside asks for anything new. */
  predicate Inner(s: State, step: Step) {
    match step
    case ByReader(a) => !a.ReadLine?
    case ByDrainer(a) => !a.DrainLine?
    case ByReaper(_) => true
    case ByCall(call, a) => a.Begin? ==> s.ses.turnPC == TAsked(call)
    case ByCloser(_, a) => !a.CallCancel? && !a.CallClose?
    case BySession(a) => !a.Open?
    case ByTurn(_) => true
    case ByConsumer => true
    case ByProcess => true
  }

  /** A step that waits for no deadline and no context. */
  predicate Prompt(step: Step) {
    && (step.ByCall? ==> !step.callAct.SawContext?)
    && (step.BySession? ==> !step.session.OnContext?)
  }

  /** Every goroutine has returned, every call is answered, every close is through. */
  predicate AllDone(s: State) {
    && s.reader.RDone? && s.drainer.DDone? && s.reaper.PDone?
    && (forall c | c in s.calls :: s.calls[c].phase.Returned?)
    && (forall k | k in s.closers :: s.closers[k].KDone?)
    && (s.ses.pc.Absent? || (s.ses.pc.Ended? && s.ses.turnPC.TSent?))
  }

  // How much is left to do.

  function ReaderWork(pc: ReaderPC, calls: set<nat>): nat {
    match pc
    case RRead => 5 + |calls|
    case RStderr(_) => 8 + |calls|
    case RRoute(_) => 7 + |calls|
    case RDeliver(_, _) => 6 + |calls|
    case RPark(_) => 8 + |calls|
    case RFail => 4 + |calls|
    case RFailing(left) => 3 + |left|
    case RCloseNotif => 2
    case RCloseDone => 1
    case RDone => 0
  }

  function DrainerWork(pc: DrainerPC): nat {
    match pc
    case DRead => 2
    case DSend(_) => 5
    case DCloseDone => 1
    case DDone => 0
  }

  function Unreturned(calls: map<nat, Call>): set<nat> {
    set c | c in calls && !calls[c].phase.Returned?
  }

  function Unanswered(calls: map<nat, Call>): set<nat> {
    set c | c in calls && (calls[c].phase.Registered? || calls[c].phase.Waiting?)
  }

  function Unwritten(calls: map<nat, Call>): set<nat> {
    set c | c in calls && calls[c].phase.Registered?
  }

  function CallWork(calls: map<nat, Call>): nat {
    |Unreturned(calls)| + |Unanswered(calls)| + |Unwritten(calls)|
  }

  function Undone(closers: map<nat, CloserPC>): set<nat> {
    set k | k in closers && !closers[k].KDone?
  }

  function Unshut(closers: map<nat, CloserPC>): set<nat> {
    set k | k in closers && (closers[k].KInterrupt? || closers[k].KClose?)
  }

  function Interrupting(closers: map<nat, CloserPC>): set<nat> {
    set k | k in closers && closers[k].KInterrupt?
  }

  function CloserWork(closers: map<nat, CloserPC>): nat {
    |Undone(closers)| + |Unshut(closers)| + |Interrupting(closers)|
  }

  /** A queued line or notification becomes at most one event, which the consumer then takes. */
  function QueueWork(s: State): nat {
    2 * |s.notifCh.buf| + 2 * |s.stderrCh.buf| + |s.ses.events.buf|
  }

  function Flags(x: Session): nat {
    (if x.notifLive then 1 else 0) + if x.stderrLive then 1 else 0
  }

  function SessionWork(x: Session): nat {
    |x.started| +
    match x.pc
    case Absent => 0
    case Looping => 12 + Flags(x)
    case Draining => 8 + Flags(x)
    case Finishing(_, _) => 7
    case Recorded => 6
    case EventsClosed => 5
    case DoneClosed => 4
    case Ended => 0
  }

  function TurnWork(pc: TurnPC, calls: set<nat>): nat {
    match pc
    case TIdle => 20
    case TAsked(call) => if call in calls then 4 else 14
    case TGot(_, _) => 3
    case TSent(_) => 0
  }

  function Work(s: State): nat {
    ReaderWork(s.reader, s.calls.Keys) + DrainerWork(s.drainer) + ReaperRank(s.reaper)
    + CallWork(s.calls) + CloserWork(s.closers)
    + QueueWork(s) + SessionWork(s.ses) + TurnWork(s.ses.turnPC, s.calls.Keys)
  }

  // Every inner step leaves less to do.

  lemma OneLess<T>(a: set<T>, b: set<T>, x: T)
    requires x in b && a == b - {x}
    ensures |a| < |b|
  {
  }

  /** The reader fills slots, but calls stay where they are. */
  predicate SamePhases(a: map<nat, Call>, b: map<nat, Call>) {
    a.Keys == b.Keys && forall c | c in a :: a[c].phase == b[c].phase
  }

  lemma SameCallWork(a: map<nat, Call>, b: map<nat, Call>)
    requires SamePhases(a, b)
    ensures CallWork(a) == CallWork(b)
  {
    assert Unreturned(a) == Unreturned(b);
    assert Unanswered(a) == Unanswered(b);
    assert Unwritten(a) == Unwritten(b);
  }

  /** What a step of the reader leaves alone, less its own queues. */
  predicate ReaderLeaves(s: State, t: State) {
    && t.drainer == s.drainer && t.reaper == s.reaper && t.closers == s.closers && t.ses == s.ses
    && SamePhases(s.calls, t.calls)
  }

  lemma ReaderLeavesRest(s: State, a: ReaderAct)
    requires ReaderCan(s, a) && !a.ReadLine?
    ensures ReaderLeaves(s, ReaderDo(s, a))
  {
    if a.Deliver? || a.FailOne? {
    } else if a.ReadEOF? || a.ReaderStderr? || a.Lookup? {
    }
  }

  lemma OfferAddsOne<T>(ch: Chan<T>, x: T)
    ensures |ch.Offer(x).buf| <= |ch.buf| + 1
  {
  }

  /** The part of the work a step of the reader touches. */
  function ReaderShare(s: State): nat {
    ReaderWork(s.reader, s.calls.Keys) + 2 * |s.notifCh.buf| + 2 * |s.stderrCh.buf|
  }

  lemma FillingShrinks(s: State, a: ReaderAct)
    requires ReaderCan(s, a) && (a.Deliver? || a.FailOne?)
    ensures ReaderShare(ReaderDo(s, a)) < ReaderShare(s)
  {
    assert ReaderDo(s, a).calls.Keys == s.calls.Keys;
    if a.FailOne? {
      OneLess(s.reader.left - {a.call}, s.reader.left, a.call);
    }
  }

  lemma SendingShrinks(s: State, a: ReaderAct)
    requires ReaderCan(s, a) && (a.ReaderStderr? || a.Forward?)
    ensures ReaderShare(ReaderDo(s, a)) < ReaderShare(s)
  {
    if a.ReaderStderr? {
      OfferAddsOne(s.stderrCh, s.reader.line);
    }
  }

  lemma TurningShrinks(s: State, a: ReaderAct)
    requires ReaderCan(s, a) && (a.ReadEOF? || a.Lookup? || a.Abandon?)
    ensures ReaderShare(ReaderDo(s, a)) < ReaderShare(s)
  {
  }

  lemma SweepingShrinks(s: State)
    requires Calls(s) && ReaderCan(s, SweepPending)
    ensures ReaderShare(ReaderDo(s, SweepPending)) < ReaderShare(s)
  {
    SweepShrinks(s);
  }

  lemma ClosingDownShrinks(s: State, a: ReaderAct)
    requires ReaderCan(s, a) && (a.FailedAll? || a.CloseNotif? || a.SignalReaderDone?)
    ensures ReaderShare(ReaderDo(s, a)) < ReaderShare(s)
  {
  }

  lemma ReaderQueues(s: State, a: ReaderAct)
    requires Calls(s) && ReaderCan(s, a) && !a.ReadLine?
    ensures ReaderShare(ReaderDo(s, a)) < ReaderShare(s)
  {
    if a.Deliver? || a.FailOne? {
      FillingShrinks(s, a);
    } else if a.ReaderStderr? || a.Forward? {
      SendingShrinks(s, a);
    } else if a.ReadEOF? || a.Lookup? || a.Abandon? {
      TurningShrinks(s, a);
    } else if a.SweepPending? {
      SweepingShrinks(s);
    } else {
      ClosingDownShrinks(s, a);
    }
  }

  lemma SweepShrinks(s: State)
    requires Calls(s) && s.reader.RFail?
    ensures |s.core.Waiters()| <= |s.calls.Keys|
  {
    forall c | c in s.core.Waiters() ensures c in s.calls.Keys {
      var id :| id in s.core.pending && s.core.pending[id] == c;
      assert PendingOk(s, id);
    }
    SubsetSize(s.core.Waiters(), s.calls.Keys);
  }

  lemma ReaderShrinks(s: State, a: ReaderAct)
    requires Inv(s) && ReaderCan(s, a) && !a.ReadLine?
    ensures Work(ReaderDo(s, a)) < Work(s)
  {
    ReaderQueues(s, a);
    ReaderLeavesRest(s, a);
    SameCallWork(s.calls, ReaderDo(s, a).calls);
  }

  lemma DrainerShrinks(s: State, a: DrainerAct)
    requires DrainerCan(s, a) && !a.DrainLine?
    ensures Work(DrainerDo(s, a)) < Work(s)
  {
    DrainerTouches(s, a);
    if a.DrainSend? {
      OfferAddsOne(s.stderrCh, s.drainer.line);
    }
  }

  lemma ReaperShrinks(s: State, a: ReaperAct)
    requires ReaperCan(s, a)
    ensures Work(ReaperDo(s, a)) < Work(s)
  {
    ReaperTouches(s, a);
    ReaperMoves(s, a);
    ReaperQueues(s, a);
  }

  lemma ReaperQueues(s: State, a: ReaperAct)
    requires ReaperCan(s, a)
    ensures var t := ReaperDo(s, a);
            t.notifCh.buf == s.notifCh.buf && t.stderrCh.buf == s.stderrCh.buf && t.drainer == s.drainer
  {
    if a.CloseStderr? || a.RecordWait? || a.CloseExited? {
      ReaperSetsQueues(s, a);
    } else {
      ReaperMovesQueues(s, a);
    }
  }

  lemma ReaperSetsQueues(s: State, a: ReaperAct)
    requires ReaperCan(s, a) && (a.CloseStderr? || a.RecordWait? || a.CloseExited?)
    ensures var t := ReaperDo(s, a);
            t.notifCh.buf == s.notifCh.buf && t.stderrCh.buf == s.stderrCh.buf && t.drainer == s.drainer
  {
  }

  lemma ReaperMovesQueues(s: State, a: ReaperAct)
    requires ReaperCan(s, a) && !(a.CloseStderr? || a.RecordWait? || a.CloseExited?)
    ensures var t := ReaperDo(s, a);
            t.notifCh.buf == s.notifCh.buf && t.stderrCh.buf == s.stderrCh.buf && t.drainer == s.drainer
  {
    ReaperMovesOn(s, a);
  }

  /** A call moves on to a later phase. */
  predicate Advances(from: CallPhase, to: CallPhase) {
    || (from.Registered? && (to.Waiting? || to.Leaving?))
    || (from.Waiting? && to.Leaving?)
    || (from.Leaving? && to.Returned?)
  }

  lemma CallWorkShrinks(calls: map<nat, Call>, call: nat, c: Call)
    requires call in calls && Advances(calls[call].phase, c.phase)
    ensures CallWork(calls[call := c]) < CallWork(calls)
  {
    if calls[call].phase.Leaving? {
      ReturningShrinks(calls, call, c);
    } else if calls[call].phase.Waiting? {
      LeavingCallShrinks(calls, call, c);
    } else {
      WritingShrinks(calls, call, c);
    }
  }

  lemma ReturningShrinks(calls: map<nat, Call>, call: nat, c: Call)
    requires call in calls && calls[call].phase.Leaving? && c.phase.Returned?
    ensures CallWork(calls[call := c]) < CallWork(calls)
  {
    var after := calls[call := c];
    assert Unreturned(after) == Unreturned(calls) - {call};
    assert Unanswered(after) == Unanswered(calls);
    assert Unwritten(after) == Unwritten(calls);
  }

  lemma LeavingCallShrinks(calls: map<nat, Call>, call: nat, c: Call)
    requires call in calls && calls[call].phase.Waiting? && c.phase.Leaving?
    ensures CallWork(calls[call := c]) < CallWork(calls)
  {
    var after := calls[call := c];
    assert Unreturned(after) == Unreturned(calls);
    assert Unanswered(after) == Unanswered(calls) - {call};
    assert Unwritten(after) == Unwritten(calls);
  }

  lemma WritingShrinks(calls: map<nat, Call>, call: nat, c: Call)
    requires call in calls && calls[call].phase.Registered? && (c.phase.Waiting? || c.phase.Leaving?)
    ensures CallWork(calls[call := c]) < CallWork(calls)
  {
    var after := calls[call := c];
    assert Unreturned(after) == Unreturned(calls);
    SubsetSize(Unanswered(after), Unanswered(calls));
    assert Unwritten(after) == Unwritten(calls) - {call};
  }

  /** The session's own turn/start call is refused once the client is closed. */
  lemma RefusedCallWork(calls: map<nat, Call>, call: nat, c: Call)
    requires call !in calls && c.phase.Returned?
    ensures CallWork(calls[call := c]) == CallWork(calls)
    ensures |calls[call := c].Keys| == |calls.Keys| + 1
  {
    var after := calls[call := c];
    assert after.Keys == calls.Keys + {call};
    assert Unreturned(after) == Unreturned(calls);
    assert Unanswered(after) == Unanswered(calls);
    assert Unwritten(after) == Unwritten(calls);
  }

  lemma BeginShrinks(s: State, call: nat)
    requires Inv(s) && s.closing && CallCan(s, call, Begin) && s.ses.turnPC == TAsked(call)
    ensures Work(CallDo(s, call, Begin)) < Work(s)
  {
    CallTouches(s, call, Begin);
    RefusedCallWork(s.calls, call, CallDo(s, call, Begin).calls[call]);
  }

  lemma CallShrinks(s: State, call: nat, a: CallAct)
    requires CallCan(s, call, a) && !a.Begin?
    ensures Work(CallDo(s, call, a)) < Work(s)
  {
    var t := CallDo(s, call, a);
    CallTouches(s, call, a);
    CallAdvances(s, call, a);
    CallWorkShrinks(s.calls, call, t.calls[call]);
    assert t.calls.Keys == s.calls.Keys;
  }

  lemma CallAdvances(s: State, call: nat, a: CallAct)
    requires CallCan(s, call, a) && !a.Begin?
    ensures var c := CallDo(s, call, a).calls[call];
            CallDo(s, call, a).calls == s.calls[call := c] && Advances(s.calls[call].phase, c.phase)
  {
  }

  lemma CloserWorkShrinks(closers: map<nat, CloserPC>, k: nat, pc: CloserPC)
    requires k in closers
    requires
      || (closers[k].KInterrupt? && pc.KClose?)
      || (closers[k].KClose? && (pc.KSignal? || pc.KDone?))
      || (closers[k].KSignal? && pc.KDone?)
    ensures CloserWork(closers[k := pc]) < CloserWork(closers)
  {
    if closers[k].KInterrupt? {
      InterruptedShrinks(closers, k);
    } else if closers[k].KClose? {
      ShutShrinks(closers, k, pc);
    } else {
      SignalledShrinks(closers, k);
    }
  }

  lemma InterruptedShrinks(closers: map<nat, CloserPC>, k: nat)
    requires k in closers && closers[k].KInterrupt?
    ensures CloserWork(closers[k := KClose]) < CloserWork(closers)
  {
    var after := closers[k := KClose];
    assert Undone(after) == Undone(closers);
    assert Unshut(after) == Unshut(closers);
    assert Interrupting(after) == Interrupting(closers) - {k};
  }

  lemma ShutShrinks(closers: map<nat, CloserPC>, k: nat, pc: CloserPC)
    requires k in closers && closers[k].KClose? && (pc.KSignal? || pc.KDone?)
    ensures CloserWork(closers[k := pc]) < CloserWork(closers)
  {
    var after := closers[k := pc];
    SubsetSize(Undone(after), Undone(closers));
    assert Unshut(after) == Unshut(closers) - {k};
    assert Interrupting(after) == Interrupting(closers);
  }

  lemma SignalledShrinks(closers: map<nat, CloserPC>, k: nat)
    requires k in closers && closers[k].KSignal?
    ensures CloserWork(closers[k := KDone]) < CloserWork(closers)
  {
    var after := closers[k := KDone];
    assert Undone(after) == Undone(closers) - {k};
    assert Unshut(after) == Unshut(closers);
    assert Interrupting(after) == Interrupting(closers);
  }

  lemma CloserShrinks(s: State, k: nat, a: CloserAct)
    requires CloserCan(s, k, a) && !a.CallCancel? && !a.CallClose?
    ensures Work(CloserDo(s, k, a)) < Work(s)
  {
    CloserSets(s, k, a);
    CloserWorkShrinks(s.closers, k, NextCloser(s, k, a));
  }

  lemma OneMore<T>(a: set<T>, b: set<T>, x: T)
    requires x !in b && a == b + {x}
    ensures |a| == |b| + 1
  {
  }

  lemma NewCloserWork(closers: map<nat, CloserPC>)
    requires 0 !in closers
    ensures CloserWork(closers[0 := KClose]) == CloserWork(closers) + 2
  {
    var after := closers[0 := KClose];
    OneMore(Undone(after), Undone(closers), 0);
    OneMore(Unshut(after), Unshut(closers), 0);
    assert Interrupting(after) == Interrupting(closers);
  }

  /** The part of the work a step of the session touches. */
  function SessionShare(s: State): nat {
    CloserWork(s.closers) + QueueWork(s) + SessionWork(s.ses)
  }

  lemma EmittedAddsOne(events: Chan<Event>, ev: Option<Event>)
    ensures |Emitted(events, ev).buf| <= |events.buf| + 1
  {
  }

  lemma TakingShrinks(s: State)
    requires SessionCan(s, OnNotification)
    ensures SessionShare(SessionDo(s, OnNotification)) < SessionShare(s)
  {
    EmittedAddsOne(s.ses.events, Handle(s.notifCh.buf[0], s.ses.thread, s.ses.text, s.ses.lastErr).event);
  }

  lemma ClientCloseShrinks(s: State)
    requires Closing(s) && SessionCan(s, CloseClient)
    ensures SessionShare(SessionDo(s, CloseClient)) < SessionShare(s)
  {
    NewCloserWork(s.closers);
  }

  lemma FinishingShrinks(s: State, a: SessionAct)
    requires SessionCan(s, a) && (a.Record? || a.CloseEvents? || a.CloseDone?)
    ensures SessionShare(SessionDo(s, a)) < SessionShare(s)
  {
  }

  lemma LeavingLoopShrinks(s: State, a: SessionAct)
    requires SessionCan(s, a)
    requires a.OnClosing? || a.OnExited? || a.OnContext? || a.DrainNotifClosed? || a.DrainDefault?
    ensures SessionShare(SessionDo(s, a)) < SessionShare(s)
  {
  }

  lemma EndingShrinks(s: State, a: SessionAct)
    requires Closing(s) && SessionCan(s, a) && Ending(a)
    ensures SessionShare(SessionDo(s, a)) < SessionShare(s)
  {
    if a.CloseClient? {
      ClientCloseShrinks(s);
    } else if a.Record? || a.CloseEvents? || a.CloseDone? {
      FinishingShrinks(s, a);
    } else {
      LeavingLoopShrinks(s, a);
    }
  }

  lemma SelectingShrinks(s: State, a: SessionAct)
    requires SessionCan(s, a) && !Ending(a) && !a.OnNotification? && !a.Open?
    ensures SessionShare(SessionDo(s, a)) < SessionShare(s)
  {
    if a.OnStderr? {
      OfferAddsOne(s.ses.events, StderrEvent(s.stderrCh.buf[0]));
    }
  }

  lemma SessionShrinks(s: State, a: SessionAct)
    requires Inv(s) && SessionCan(s, a) && !a.Open?
    ensures Work(SessionDo(s, a)) < Work(s)
  {
    SessionTouches(s, a);
    if a.OnNotification? {
      TakingShrinks(s);
    } else if Ending(a) {
      EndingShrinks(s, a);
    } else {
      SelectingShrinks(s, a);
    }
  }

  /** The part of the work a step of the turn/start goroutine touches. */
  function TurnShare(x: Session, calls: set<nat>): nat {
    |x.started| + TurnWork(x.turnPC, calls)
  }

  lemma TurnShareShrinks(s: State, a: TurnAct)
    requires TurnCan(s, a)
    ensures TurnShare(TurnDo(s, a).ses, s.calls.Keys) < TurnShare(s.ses, s.calls.Keys)
  {
    if a.Ask? {
    } else if a.Answered? {
    }
  }

  lemma TurnShrinks(s: State, a: TurnAct)
    requires TurnCan(s, a)
    ensures Work(TurnDo(s, a)) < Work(s)
  {
    TurnTouches(s, a);
    TurnShareShrinks(s, a);
    OnlyTurnShrinks(s, TurnDo(s, a));
  }

  lemma OnlyTurnShrinks(s: State, t: State)
    requires ByTurnOnly(s, t) && TurnShare(t.ses, s.calls.Keys) < TurnShare(s.ses, s.calls.Keys)
    ensures Work(t) < Work(s)
  {
    assert SessionWork(t.ses) - |t.ses.started| == SessionWork(s.ses) - |s.ses.started|;
  }

  lemma ConsumerShrinks(s: State)
    requires Can(s, ByConsumer)
    ensures Work(Do(s, ByConsumer)) < Work(s)
  {
  }

  /** Once winding down, every step of what is under way leaves less to do, and the system keeps winding down. */
  lemma StepShrinks(s: State, step: Step)
    requires Inv(s) && Winding(s) && Can(s, step) && Inner(s, step)
    ensures Work(Do(s, step)) < Work(s)
  {
    match step
    case ByReader(a) => ReaderShrinks(s, a);
    case ByDrainer(a) => DrainerShrinks(s, a);
    case ByReaper(a) => ReaperShrinks(s, a);
    case ByCall(call, a) =>
      if a.Begin? {
        BeginShrinks(s, call);
      } else {
        CallShrinks(s, call, a);
      }
    case ByCloser(k, a) => CloserShrinks(s, k, a);
    case BySession(a) => SessionShrinks(s, a);
    case ByTurn(a) => TurnShrinks(s, a);
    case ByConsumer => ConsumerShrinks(s);
  }

  lemma StillWinding(s: State, step: Step)
    requires Winding(s) && Can(s, step)
    ensures Winding(Do(s, step))
  {
    match step
    case ByReader(a) => ReaderKeepsWinding(s, a);
    case ByDrainer(a) => DrainerKeepsWinding(s, a);
    case ByReaper(a) => ReaperKeepsWinding(s, a);
    case ByCall(call, a) => CallTouches(s, call, a);
    case ByCloser(k, a) => CloserKeepsWinding(s, k, a);
    case BySession(a) => SessionKeepsWinding(s, a);
    case ByTurn(a) => TurnTouches(s, a);
    case ByConsumer =>
  }

  lemma DrainerKeepsWinding(s: State, a: DrainerAct)
    requires Winding(s) && DrainerCan(s, a)
    ensures Winding(DrainerDo(s, a))
  {
  }

  lemma CloserKeepsWinding(s: State, k: nat, a: CloserAct)
    requires Winding(s) && CloserCan(s, k, a)
    ensures Winding(CloserDo(s, k, a))
  {
    CloserSets(s, k, a);
  }

  lemma SessionKeepsWinding(s: State, a: SessionAct)
    requires Winding(s) && SessionCan(s, a)
    ensures Winding(SessionDo(s, a))
  {
    SessionTouches(s, a);
  }

  lemma ReaderKeepsWinding(s: State, a: ReaderAct)
    requires Winding(s) && ReaderCan(s, a)
    ensures Winding(ReaderDo(s, a))
  {
    if a.ReadLine? {
    } else if a.ReadEOF? || a.ReaderStderr? || a.Lookup? {
    }
  }

  lemma ReaperKeepsWinding(s: State, a: ReaperAct)
    requires Winding(s) && ReaperCan(s, a)
    ensures Winding(ReaperDo(s, a))
  {
    if a.CloseStderr? || a.RecordWait? || a.CloseExited? {
    }
  }

  // Until everything is done, something can move.

  lemma ReaderGoesOn(s: State) returns (a: ReaderAct)
    requires Calls(s) && Swept(s) && s.closing && !s.reader.RDone?
    ensures ReaderCan(s, a) && !a.ReadLine?
  {
    if s.reader.RFailing? {
      if s.reader.left == {} {
        a := FailedAll;
      } else {
        var c :| c in s.reader.left;
        a := FailOne(c);
      }
    } else {
      a := if s.reader.RRead? then ReadEOF
           else if s.reader.RStderr? then ReaderStderr
           else if s.reader.RRoute? then Lookup
           else if s.reader.RDeliver? then Deliver
           else if s.reader.RPark? then Abandon
           else if s.reader.RFail? then SweepPending
           else if s.reader.RCloseNotif? then CloseNotif
           else SignalReaderDone;
    }
  }

  lemma DrainerGoesOn(s: State) returns (a: DrainerAct)
    requires !s.drainer.DDone?
    ensures DrainerCan(s, a) && !a.DrainLine?
  {
    a := if s.drainer.DRead? then DrainEOF else if s.drainer.DSend? then DrainSend else SignalStderrDone;
  }

  lemma ReaperGoesOn(s: State) returns (a: ReaperAct)
    requires Lifecycle(s) && Winding(s) && s.reader.RDone? && s.drainer.DDone? && !s.reaper.PDone?
    ensures ReaperCan(s, a)
  {
    a := if s.reaper.PWaitReader? then SawReader
         else if s.reaper.PWaitStderr? then SawStderr
         else if s.reaper.PCloseStderr? then CloseStderr
         else if s.reaper.PWaitProcess? then (if s.hasProcess then Reap(None) else NoProcess)
         else if s.reaper.PRecord? then RecordWait
         else CloseExited;
  }

  lemma CallGoesOn(s: State, c: nat) returns (a: CallAct)
    requires s.exited && c in s.calls && !s.calls[c].phase.Returned?
    ensures CallCan(s, c, a) && !a.Begin? && !a.SawContext?
  {
    a := if s.calls[c].phase.Registered? then Write(None)
         else if s.calls[c].phase.Waiting? then SawExit
         else Forget;
  }

  lemma CloserGoesOn(s: State, k: nat) returns (a: CloserAct)
    requires k in s.closers && !s.closers[k].KDone?
    ensures CloserCan(s, k, a) && !a.CallCancel? && !a.CallClose?
  {
    a := if s.closers[k].KInterrupt? then Interrupt
         else if s.closers[k].KClose? then CloserAct.Shut
         else SignalClosing;
  }

  lemma SessionGoesOn(s: State) returns (a: SessionAct)
    requires Lifecycle(s) && s.closing && !s.ses.pc.Absent? && !s.ses.pc.Ended?
    ensures SessionCan(s, a) && !a.Open? && !a.OnContext?
  {
    a := if s.ses.pc.Looping? then OnClosing
         else if s.ses.pc.Draining? then (if s.notifCh.buf != [] then OnNotification else DrainNotifClosed)
         else if s.ses.pc.Finishing? then Record
         else if s.ses.pc.Recorded? then CloseEvents
         else if s.ses.pc.EventsClosed? then CloseDone
         else CloseClient;
  }

  /** Some number is not in a set. */
  lemma {:induction false} NumberOutside(taken: set<nat>) returns (n: nat)
    ensures forall m | m in taken :: m < n
    decreases |taken|
  {
    if taken == {} {
      n := 0;
    } else {
      var x :| x in taken;
      var rest := NumberOutside(taken - {x});
      n := if rest <= x then x + 1 else rest;
      forall m | m in taken ensures m < n {
        assert m == x || m in taken - {x};
      }
    }
  }

  /** The turn/start goroutine, once every call made has returned. */
  lemma TurnGoesOn(s: State) returns (step: Step)
    requires Starting(s) && !s.ses.pc.Absent? && !s.ses.turnPC.TSent?
    requires forall c | c in s.calls :: s.calls[c].phase.Returned?
    ensures Can(s, step) && Inner(s, step) && Prompt(step)
  {
    if s.ses.turnPC.TIdle? {
      var call := NumberOutside(s.calls.Keys);
      step := ByTurn(Ask(call));
    } else if s.ses.turnPC.TAsked? && s.ses.turnPC.call !in s.calls {
      step := ByCall(s.ses.turnPC.call, Begin);
    } else if s.ses.turnPC.TAsked? {
      step := ByTurn(Answered);
    } else {
      step := ByTurn(Send);
    }
  }

  /** While winding down, as long as not everything is done some step of what is under way can be taken, and
      none of the deadlines is needed for it. */
  lemma SomethingGoesOn(s: State) returns (step: Step)
    requires Inv(s) && Winding(s) && !AllDone(s)
    ensures Can(s, step) && Inner(s, step) && Prompt(step)
  {
    if !s.reader.RDone? {
      var a := ReaderGoesOn(s);
      step := ByReader(a);
    } else if !s.drainer.DDone? {
      var a := DrainerGoesOn(s);
      step := ByDrainer(a);
    } else if !s.reaper.PDone? {
      var a := ReaperGoesOn(s);
      step := ByReaper(a);
    } else if exists c :: c in s.calls && !s.calls[c].phase.Returned? {
      var c :| c in s.calls && !s.calls[c].phase.Returned?;
      var a := CallGoesOn(s, c);
      step := ByCall(c, a);
    } else if exists k :: k in s.closers && !s.closers[k].KDone? {
      var k :| k in s.closers && !s.closers[k].KDone?;
      var a := CloserGoesOn(s, k);
      step := ByCloser(k, a);
    } else if !s.ses.pc.Absent? && !s.ses.pc.Ended? {
      var a := SessionGoesOn(s);
      step := BySession(a);
    } else {
      step := TurnGoesOn(s);
    }
  }

  // Runs

  /** From state i on the run takes steps of what is under way only. */
  ghost predicate WindsOn(run: Run, i: nat, j: nat)
    requires |run.states| == |run.steps| + 1 && i <= j < |run.states|
  {
    Winding(run.states[i]) && forall k | i <= k < j :: Inner(run.states[k], run.steps[k])
  }

  /** Once a close has signalled and the process is gone, and no more lines come in, a run has at most as many
      steps left as there was work; so however the goroutines are scheduled it comes to rest. */
  lemma {:induction false} WindsDown(run: Run, i: nat, j: nat)
    requires IsRun(run) && i <= j < |run.states| && WindsOn(run, i, j)
    ensures Winding(run.states[j])
    ensures Work(run.states[j]) + (j - i) <= Work(run.states[i])
    decreases j
  {
    if i < j {
      WindsDown(run, i, j - 1);
      OneStepDown(run, j - 1);
    }
  }

  lemma OneStepDown(run: Run, k: nat)
    requires IsRun(run) && k < |run.steps| && Winding(run.states[k]) && Inner(run.states[k], run.steps[k])
    ensures Winding(run.states[k + 1]) && Work(run.states[k + 1]) < Work(run.states[k])
  {
    InvAlways(run, k);
    assert Follows(run, k);
    StepShrinks(run.states[k], run.steps[k]);
    StillWinding(run.states[k], run.steps[k]);
  }

  /** A run goes on from where another stopped, with steps of what is under way only. */
  ghost predicate GoesOnFrom(more: Run, run: Run) {
    && IsRun(more) && IsRun(run)
    && run.steps <= more.steps && run.states <= more.states
    && WindsOn(more, |run.steps|, |more.steps|)
  }

  lemma GoesOnFromBefore(more: Run, run: Run, step: Step)
    requires IsRun(run) && Winding(Last(run)) && Can(Last(run), step) && Inner(Last(run), step)
    requires GoesOnFrom(more, Then(run, step))
    ensures GoesOnFrom(more, run)
  {
    var next, n := Then(run, step), |run.steps|;
    assert more.states[n] == next.states[n] == Last(run);
    assert more.steps[n] == next.steps[n] == step;
    assert forall i | 0 <= i < n :: more.steps[i] == next.steps[i] == run.steps[i];
    assert forall i | 0 <= i <= n :: more.states[i] == next.states[i] == run.states[i];
  }

  /** One more step of what is under way, which leaves less to do. */
  lemma OneStepOn(run: Run) returns (step: Step)
    requires IsRun(run) && Winding(Last(run)) && !AllDone(Last(run))
    ensures Can(Last(run), step) && Inner(Last(run), step) && Prompt(step)
    ensures IsRun(Then(run, step)) && Winding(Last(Then(run, step)))
    ensures Work(Last(Then(run, step))) < Work(Last(run))
  {
    InvAlways(run, |run.steps|);
    step := SomethingGoesOn(Last(run));
    StepShrinks(Last(run), step);
    StillWinding(Last(run), step);
    ThenIsRun(run, step);
  }

  /** And it comes to rest only when everything is done: any run that winds down goes on, within as many steps as
      there is work left, to a state in which every goroutine has returned, every call is answered and every
      close is through. */
  lemma {:induction false} RestIsReached(run: Run) returns (more: Run)
    requires IsRun(run) && Winding(Last(run))
    ensures GoesOnFrom(more, run) && AllDone(Last(more))
    ensures |more.steps| <= |run.steps| + Work(Last(run))
    decreases Work(Last(run))
  {
    if AllDone(Last(run)) {
      more := run;
    } else {
      var step := OneStepOn(run);
      more := RestIsReached(Then(run, step));
      GoesOnFromBefore(more, run, step);
    }
  }
}
