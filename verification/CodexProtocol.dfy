/** The Codex client and session as one step relation. Every goroutine of client.go and session.go is
    an actor with a program counter; a mutex section, a channel operation or one select arm is one
    step; which actor moves, and which ready arm a select takes, is free. Sending on a closed channel
    or closing a channel twice raises `panicked`, as Go does. */
module CodexProtocol {
  import opened Basics
  import opened CodexTypes

  const NOTIF_BUFFER: nat := 256
  const STDERR_BUFFER: nat := 256
  const EVENT_BUFFER: nat := 256

  const CLOSED_ERROR := RPCError(-32000, "codex app-server closed the connection")

  /** The fields client.go guards with its mutex. A pending ID maps to the call that owns its
      reply channel. */
  datatype Core = Core(nextID: nat, pending: map<nat, nat>, closed: bool) {
    function Register(call: nat): Core {
      this.(nextID := nextID + 1, pending := pending[nextID + 1 := call])
    }

    function Unregister(id: nat): Core {
      this.(pending := pending - {id})
    }

    function Skip(): Core {
      this.(nextID := nextID + 1)
    }

    /** The calls whose reply channels are pending. */
    function Waiters(): set<nat> {
      set id | id in pending :: pending[id]
    }

    function Sweep(): Core {
      this.(pending := map[])
    }

    function Shut(): Core {
      this.(closed := true)
    }
  }

  /** Why a request fails: refused at once or at the write because the client is closed, the write itself
      fails, the server says so, the process has exited, or the context of the request is done. */
  datatype Failure =
    | ClientClosed
    | WriteRefused
    | WriteFailed(err: string)
    | ServerError(error: RPCError)
    | ServerExited(exit: Option<string>)
    | ContextDone(err: string)

  datatype Outcome = Good(result: Payload) | Bad(why: Failure)

  /** Where a call of request is: between its mutex sections, in its select, or back. */
  datatype CallPhase = Registered | Waiting | Leaving(outcome: Outcome) | Returned(outcome: Outcome)

  /** One call of request, with its reply channel of capacity one; `born` is how many lines had been read
      when it began. */
  datatype Call = Call(id: nat, phase: CallPhase, slot: Option<Response>, born: nat)

  datatype ReaderPC =
    | RRead
    | RStderr(line: string)
    | RRoute(response: Response)
    | RDeliver(call: nat, response: Response)
    | RPark(notification: Notification)
    | RFail
    | RFailing(left: set<nat>)
    | RCloseNotif
    | RCloseDone
    | RDone

  datatype DrainerPC = DRead | DSend(line: string) | DCloseDone | DDone

  datatype ReaperPC =
    | PWaitReader | PWaitStderr | PCloseStderr | PWaitProcess
    | PRecord(err: Option<string>)
    | PCloseExited | PDone

  /** A caller of Cancel or of close. */
  datatype CloserPC = KInterrupt | KClose | KSignal | KDone

  datatype Cause =
    | ByStart(sr: StartResult)
    | ByCompletion(turn: Turn)
    | ByCancel
    | ByCrash
    | ByContext

  datatype SessionPC =
    | Absent
    | Looping
    | Draining
    | Finishing(result: RunResult, cause: Cause)
    | Recorded
    | EventsClosed
    | DoneClosed
    | Ended

  /** The goroutine of startTurn, with its call of request. */
  datatype TurnPC = TIdle | TAsked(call: nat) | TGot(call: nat, sr: StartResult) | TSent(call: nat)

  datatype Verdict = Verdict(result: RunResult, cause: Cause)

  datatype Session = Session(
    pc: SessionPC,
    thread: string,
    text: string,
    lastErr: string,
    notifLive: bool,
    stderrLive: bool,
    events: Chan<Event>,
    done: bool,
    turnID: string,
    verdict: Option<Verdict>,
    turnPC: TurnPC,
    started: seq<StartResult>)

  /** `hasProcess` is whether the client has a process to reap (newClient may be given none), `processGone`
      whether that process has exited. `log`, `sent`, `aborted`, `swept`, `taken` and the `born` of calls
      record history and steer nothing. */
  datatype State = State(
    core: Core,
    calls: map<nat, Call>,
    reader: ReaderPC,
    readerDone: bool,
    drainer: DrainerPC,
    stderrDone: bool,
    reaper: ReaperPC,
    hasProcess: bool,
    processGone: bool,
    notifCh: Chan<Notification>,
    stderrCh: Chan<string>,
    stderrText: string,
    closing: bool,
    exited: bool,
    waitErr: Option<string>,
    closers: map<nat, CloserPC>,
    ses: Session,
    panicked: bool,
    log: seq<Line>,
    sent: seq<Notification>,
    aborted: seq<Notification>,
    swept: set<nat>,
    taken: seq<Notification>)

  function Init(hasProcess: bool): State {
    State(
      Core(0, map[], false), map[],
      RRead, false, DRead, false, PWaitReader, hasProcess, false,
      Chan([], NOTIF_BUFFER, true), Chan([], STDERR_BUFFER, true), "",
      false, false, None, map[],
      Session(Absent, "", "", "", true, true, Chan([], EVENT_BUFFER, true), false, "", None, TIdle, []),
      false, [], [], [], {}, [])
  }

  datatype ReaderAct = ReadLine(line: Line) | ReadEOF | ReaderStderr | Lookup | Deliver | Forward | Abandon
                     | SweepPending | FailOne(call: nat) | FailedAll | CloseNotif | SignalReaderDone
  datatype DrainerAct = DrainLine(line: string) | DrainEOF | DrainSend | SignalStderrDone
  datatype ReaperAct = SawReader | SawStderr | CloseStderr | NoProcess | Reap(err: Option<string>)
                     | RecordWait | CloseExited
  datatype CallAct = Begin | Write(failed: Option<string>) | TakeReply | SawExit | SawContext(err: string) | Forget
  datatype CloserAct = CallCancel | CallClose | Interrupt | Shut | SignalClosing
  datatype SessionAct = Open(thread: string) | OnStarted | OnStderr | OnStderrClosed | OnNotification | OnNotifClosed
                      | OnClosing | OnExited | OnContext(err: string) | DrainNotifClosed | DrainDefault
                      | Record | CloseEvents | CloseDone | CloseClient
  datatype TurnAct = Ask(call: nat) | Answered | Send

  datatype Step =
    | ByReader(reader: ReaderAct)
    | ByDrainer(drainer: DrainerAct)
    | ByReaper(reaper: ReaperAct)
    | ByCall(call: nat, callAct: CallAct)
    | ByCloser(closer: nat, closerAct: CloserAct)
    | BySession(session: SessionAct)
    | ByTurn(turn: TurnAct)
    | ByConsumer
    | ByProcess  // the process exits

  // The reader: readLoop, routeResponse, emitStderr and failPending.

  predicate ReaderCan(s: State, a: ReaderAct) {
    match a
    case ReadLine(_) => s.reader.RRead?
    case ReadEOF => s.reader.RRead?
    case ReaderStderr => s.reader.RStderr?
    case Lookup => s.reader.RRoute?
    case Deliver => s.reader.RDeliver? && s.reader.call in s.calls
    case Forward => s.reader.RPark? && (s.notifCh.Room() || !s.notifCh.open)
    case Abandon => s.reader.RPark? && s.closing
    case SweepPending => s.reader.RFail?
    case FailOne(call) => s.reader.RFailing? && call in s.reader.left && call in s.calls
    case FailedAll => s.reader.RFailing? && s.reader.left == {}
    case CloseNotif => s.reader.RCloseNotif?
    case SignalReaderDone => s.reader.RCloseDone?
  }

  function AfterLine(line: Line): ReaderPC {
    match line
    case Unparseable(text) => RStderr("codex: unparseable stdout: " + text)
    case Reply(response) => RRoute(response)
    case Notify(notification) => RPark(notification)
    case _ => RRead  // blank, neither, or a server request answered with "method not found"
  }

  /** A non-blocking send into a reply channel of capacity one. */
  function OfferSlot(calls: map<nat, Call>, call: nat, response: Response): map<nat, Call>
    requires call in calls
  {
    if calls[call].slot.None? then calls[call := calls[call].(slot := Some(response))] else calls
  }

  /** A line that does not parse counts as stderr text, and is offered to whoever watches stderr. */
  function LineRead(s: State, line: Line): State {
    var next := AfterLine(line);
    s.(log := s.log + [line], reader := next,
       stderrText := if next.RStderr? then s.stderrText + next.line + "\n" else s.stderrText)
  }

  function ReaderDo(s: State, a: ReaderAct): State
    requires ReaderCan(s, a)
  {
    match a
    case ReadLine(line) => LineRead(s, line)
    case ReadEOF => s.(reader := RFail)
    case ReaderStderr =>
      s.(reader := RRead, stderrCh := s.stderrCh.Offer(s.reader.line), panicked := s.panicked || !s.stderrCh.open)
    case Lookup =>
      var id := s.reader.response.id;
      s.(reader := if id in s.core.pending then RDeliver(s.core.pending[id], s.reader.response) else RRead)
    case Deliver =>
      s.(reader := RRead, calls := OfferSlot(s.calls, s.reader.call, s.reader.response))
    case Forward =>
      var n := s.reader.notification;
      s.(reader := RRead, notifCh := s.notifCh.Push(n), sent := s.sent + [n], panicked := s.panicked || !s.notifCh.open)
    case Abandon => s.(reader := RFail, aborted := [s.reader.notification])
    case SweepPending =>
      s.(reader := RFailing(s.core.Waiters()), swept := s.core.Waiters(), core := s.core.Sweep())
    case FailOne(call) =>
      s.(reader := RFailing(s.reader.left - {call}),
         calls := OfferSlot(s.calls, call, Response(s.calls[call].id, Payload("", None, ""), Some(CLOSED_ERROR))))
    case FailedAll => s.(reader := RCloseNotif)
    case CloseNotif =>
      s.(reader := RCloseDone, notifCh := s.notifCh.Close(), panicked := s.panicked || !s.notifCh.open)
    case SignalReaderDone => s.(reader := RDone, readerDone := true, panicked := s.panicked || s.readerDone)
  }

  // The stderr drainer.

  predicate DrainerCan(s: State, a: DrainerAct) {
    match a
    case DrainLine(_) => s.drainer.DRead?
    case DrainEOF => s.drainer.DRead?
    case DrainSend => s.drainer.DSend?
    case SignalStderrDone => s.drainer.DCloseDone?
  }

  function DrainerDo(s: State, a: DrainerAct): State
    requires DrainerCan(s, a)
  {
    match a
    case DrainLine(line) =>
      s.(stderrText := s.stderrText + line + "\n", drainer := if Blank(line) then DRead else DSend(line))
    case DrainEOF => s.(drainer := DCloseDone)
    case DrainSend =>
      s.(drainer := DRead, stderrCh := s.stderrCh.Offer(s.drainer.line), panicked := s.panicked || !s.stderrCh.open)
    case SignalStderrDone => s.(drainer := DDone, stderrDone := true, panicked := s.panicked || s.stderrDone)
  }

  // The reaper.

  predicate ReaperCan(s: State, a: ReaperAct) {
    match a
    case SawReader => s.reaper.PWaitReader? && s.readerDone
    case SawStderr => s.reaper.PWaitStderr? && s.stderrDone
    case CloseStderr => s.reaper.PCloseStderr?
    case NoProcess => s.reaper.PWaitProcess? && !s.hasProcess
    case Reap(_) => s.reaper.PWaitProcess? && s.hasProcess && s.processGone
    case RecordWait => s.reaper.PRecord?
    case CloseExited => s.reaper.PCloseExited?
  }

  function ReaperDo(s: State, a: ReaperAct): State
    requires ReaperCan(s, a)
  {
    match a
    case SawReader => s.(reaper := PWaitStderr)
    case SawStderr => s.(reaper := PCloseStderr)
    case CloseStderr =>
      s.(reaper := PWaitProcess, stderrCh := s.stderrCh.Close(), panicked := s.panicked || !s.stderrCh.open)
    case NoProcess => s.(reaper := PCloseExited)
    case Reap(err) => s.(reaper := PRecord(err))
    case RecordWait => s.(reaper := PCloseExited, waitErr := s.reaper.err)
    case CloseExited => s.(reaper := PDone, exited := true, panicked := s.panicked || s.exited)
  }

  // A call of request.

  predicate CallCan(s: State, call: nat, a: CallAct) {
    match a
    case Begin => call !in s.calls
    case Write(_) => call in s.calls && s.calls[call].phase.Registered?
    case TakeReply => call in s.calls && s.calls[call].phase.Waiting? && s.calls[call].slot.Some?
    case SawExit => call in s.calls && s.calls[call].phase.Waiting? && s.exited
    case SawContext(_) => call in s.calls && s.calls[call].phase.Waiting?
    case Forget => call in s.calls && s.calls[call].phase.Leaving?
  }

  function ReplyOutcome(response: Response): Outcome {
    match response.error
    case None => Good(response.result)
    case Some(e) => Bad(ServerError(e))
  }

  /** A call before it is made, in the state that will decide whether it is refused. */
  function NewCall(s: State): Call {
    if s.core.closed then Call(0, Returned(Bad(ClientClosed)), None, |s.log|)
    else Call(s.core.nextID + 1, Registered, None, |s.log|)
  }

  function NextCall(s: State, c: Call, a: CallAct): Call
    requires a.TakeReply? ==> c.slot.Some?
    requires a.Forget? ==> c.phase.Leaving?
  {
    match a
    case Begin => NewCall(s)
    case Write(failed) =>
      c.(phase := if s.core.closed then Leaving(Bad(WriteRefused))
                  else if failed.Some? then Leaving(Bad(WriteFailed(failed.value)))
                  else Waiting)
    case TakeReply => c.(slot := None, phase := Leaving(ReplyOutcome(c.slot.value)))
    case SawExit => c.(phase := Leaving(Bad(ServerExited(s.waitErr))))
    case SawContext(err) => c.(phase := Leaving(Bad(ContextDone(err))))
    case Forget => c.(phase := Returned(c.phase.outcome))
  }

  function CallDo(s: State, call: nat, a: CallAct): State
    requires CallCan(s, call, a)
  {
    var c := if a.Begin? then NewCall(s) else s.calls[call];
    s.(core := if a.Begin? && !s.core.closed then s.core.Register(call)
               else if a.Forget? then s.core.Unregister(c.id)
               else s.core,
       calls := s.calls[call := NextCall(s, c, a)])
  }

  // A caller of Cancel or close; closer 0 is the call finish makes.

  predicate CloserCan(s: State, k: nat, a: CloserAct) {
    match a
    case CallCancel => k != 0 && k !in s.closers && !s.ses.pc.Absent?
    case CallClose => k != 0 && k !in s.closers
    case Interrupt => k in s.closers && s.closers[k].KInterrupt?
    case Shut => k in s.closers && s.closers[k].KClose?
    case SignalClosing => k in s.closers && s.closers[k].KSignal?
  }

  function NextCloser(s: State, k: nat, a: CloserAct): CloserPC {
    match a
    case CallCancel => if s.ses.done then KDone else KInterrupt
    case CallClose => KClose
    case Interrupt => KClose
    case Shut => if s.core.closed then KDone else KSignal
    case SignalClosing => KDone
  }

  function CloserDo(s: State, k: nat, a: CloserAct): State
    requires CloserCan(s, k, a)
  {
    // requestNoWait takes an ID for the interrupt but registers nothing.
    s.(closers := s.closers[k := NextCloser(s, k, a)],
       core := if a.Interrupt? && s.ses.turnID != "" && !s.core.closed then s.core.Skip()
               else if a.Shut? then s.core.Shut()
               else s.core,
       closing := s.closing || a.SignalClosing?,
       panicked := s.panicked || (a.SignalClosing? && s.closing))
  }

  // The session loop.

  function StderrOf(s: State): string {
    TrimSpace(s.stderrText)
  }

  /** emit: best-effort delivery of at most one event. */
  function Emitted(events: Chan<Event>, ev: Option<Event>): Chan<Event> {
    if ev.Some? then events.Offer(ev.value) else events
  }

  predicate DrainIdle(s: State) {
    && !(s.ses.stderrLive && (s.stderrCh.buf != [] || !s.stderrCh.open))
    && !(s.ses.notifLive && (s.notifCh.buf != [] || !s.notifCh.open))
  }

  predicate Selecting(s: State) {
    s.ses.pc.Looping? || s.ses.pc.Draining?
  }

  predicate SessionCan(s: State, a: SessionAct) {
    match a
    case Open(_) => s.ses.pc.Absent?
    case OnStarted => s.ses.pc.Looping? && s.ses.started != []
    case OnStderr => Selecting(s) && s.ses.stderrLive && s.stderrCh.buf != []
    case OnStderrClosed => Selecting(s) && s.ses.stderrLive && s.stderrCh.buf == [] && !s.stderrCh.open
    case OnNotification => Selecting(s) && s.ses.notifLive && s.notifCh.buf != []
    case OnNotifClosed => s.ses.pc.Looping? && s.ses.notifLive && s.notifCh.buf == [] && !s.notifCh.open
    case OnClosing => s.ses.pc.Looping? && s.closing
    case OnExited => s.ses.pc.Looping? && s.exited
    case OnContext(_) => s.ses.pc.Looping?
    case DrainNotifClosed => s.ses.pc.Draining? && s.ses.notifLive && s.notifCh.buf == [] && !s.notifCh.open
    case DrainDefault => s.ses.pc.Draining? && DrainIdle(s)
    case Record => s.ses.pc.Finishing?
    case CloseEvents => s.ses.pc.Recorded?
    case CloseDone => s.ses.pc.EventsClosed?
    case CloseClient => s.ses.pc.DoneClosed?
  }

  /** One notification leaves the queue and is handled as `h` says. */
  function Absorb(s: State, h: Handled): State
    requires s.notifCh.buf != []
  {
    var x := s.ses;
    s.(notifCh := s.notifCh.Pop(),
       taken := s.taken + [s.notifCh.buf[0]],
       panicked := s.panicked || (h.event.Some? && !x.events.open),
       ses := x.(text := h.text, lastErr := h.lastErr, events := Emitted(x.events, h.event),
                 pc := match h.finished
                       case None => x.pc
                       case Some(turn) =>
                         Finishing(CompletedResult(turn, x.thread, h.text, h.lastErr, StderrOf(s)),
                                   ByCompletion(turn))))
  }

  function TakeNotification(s: State): State
    requires s.notifCh.buf != []
  {
    Absorb(s, Handle(s.notifCh.buf[0], s.ses.thread, s.ses.text, s.ses.lastErr))
  }

  function TakeStart(s: State): State
    requires s.ses.started != []
  {
    var x := s.ses;
    var sr := x.started[0];
    s.(ses := x.(started := x.started[1..],
                 pc := match StartedResult(sr, x.thread, x.text, x.lastErr, StderrOf(s))
                       case None => x.pc
                       case Some(result) => Finishing(result, ByStart(sr))))
  }

  function Crash(s: State): State {
    var x := s.ses;
    s.(ses := x.(pc := Finishing(CrashResult(x.thread, x.text, x.lastErr, StderrOf(s), s.waitErr), ByCrash)))
  }

  function SessionDo(s: State, a: SessionAct): State
    requires SessionCan(s, a)
  {
    var x := s.ses;
    match a
    case Open(thread) => s.(ses := x.(pc := Looping, thread := thread))
    case OnStarted => TakeStart(s)
    case OnStderr =>
      s.(stderrCh := s.stderrCh.Pop(),
         panicked := s.panicked || !x.events.open,
         ses := x.(events := x.events.Offer(StderrEvent(s.stderrCh.buf[0]))))
    case OnStderrClosed => s.(ses := x.(stderrLive := false))
    case OnNotification => TakeNotification(s)
    case OnNotifClosed => s.(ses := x.(notifLive := false))
    case OnClosing => s.(ses := x.(pc := Finishing(CanceledResult(x.thread, x.text), ByCancel)))
    case OnExited => s.(ses := x.(pc := Draining, notifLive := true, stderrLive := true))
    case OnContext(err) => s.(ses := x.(pc := Finishing(ContextResult(x.thread, x.text, err, StderrOf(s)), ByContext)))
    case DrainNotifClosed => Crash(s)
    case DrainDefault => Crash(s)
    case Record =>
      s.(ses := x.(pc := Recorded, verdict := Some(Verdict(Published(x.pc.result, x.thread, StderrOf(s)), x.pc.cause))))
    case CloseEvents =>
      s.(ses := x.(pc := EventsClosed, events := x.events.Close()), panicked := s.panicked || !x.events.open)
    case CloseDone => s.(ses := x.(pc := DoneClosed, done := true), panicked := s.panicked || x.done)
    case CloseClient => s.(ses := x.(pc := Ended), closers := s.closers[0 := KClose])
  }

  // The goroutine of startTurn.

  predicate TurnCan(s: State, a: TurnAct) {
    match a
    case Ask(call) => s.ses.turnPC.TIdle? && !s.ses.pc.Absent? && call !in s.calls
    case Answered => s.ses.turnPC.TAsked? && s.ses.turnPC.call in s.calls && s.calls[s.ses.turnPC.call].phase.Returned?
    case Send => s.ses.turnPC.TGot? && s.ses.started == []
  }

  function FailureText(why: Failure): string {
    match why
    case ClientClosed => "codex client is closed"
    case WriteRefused => "codex turn/start: codex client is closed"
    case WriteFailed(err) => "codex turn/start: write: " + err
    case ServerError(error) => "codex turn/start: " + error.message
    case ServerExited(exit) =>
      // a clean exit has no error to wrap, which Go's Errorf spells like this
      "codex turn/start: app-server exited: " + if exit.Some? then exit.value else "%!w(<nil>)"
    case ContextDone(err) => "codex turn/start: " + err
  }

  function StartOf(outcome: Outcome): StartResult {
    match outcome
    case Bad(why) => StartFailed(FailureText(why))
    case Good(p) =>
      match p.turn
      case None => StartFailed("codex turn/start response: " + p.flaw)
      case Some(turn) => Started(turn)
  }

  function TurnDo(s: State, a: TurnAct): State
    requires TurnCan(s, a)
  {
    var x := s.ses;
    match a
    case Ask(call) => s.(ses := x.(turnPC := TAsked(call)))
    case Answered =>
      var sr := StartOf(s.calls[x.turnPC.call].phase.outcome);
      s.(ses := x.(turnPC := TGot(x.turnPC.call, sr), turnID := if sr.Started? then sr.turn.id else x.turnID))
    case Send => s.(ses := x.(turnPC := TSent(x.turnPC.call), started := x.started + [x.turnPC.sr]))
  }

  // One step of the whole system.

  predicate Can(s: State, step: Step) {
    match step
    case ByReader(a) => ReaderCan(s, a)
    case ByDrainer(a) => DrainerCan(s, a)
    case ByReaper(a) => ReaperCan(s, a)
    case ByCall(call, a) => CallCan(s, call, a)
    case ByCloser(k, a) => CloserCan(s, k, a)
    case BySession(a) => SessionCan(s, a)
    case ByTurn(a) => TurnCan(s, a)
    case ByConsumer => s.ses.events.buf != []
    case ByProcess => s.hasProcess && !s.processGone
  }

  function Do(s: State, step: Step): State
    requires Can(s, step)
  {
    match step
    case ByReader(a) => ReaderDo(s, a)
    case ByDrainer(a) => DrainerDo(s, a)
    case ByReaper(a) => ReaperDo(s, a)
    case ByCall(call, a) => CallDo(s, call, a)
    case ByCloser(k, a) => CloserDo(s, k, a)
    case BySession(a) => SessionDo(s, a)
    case ByTurn(a) => TurnDo(s, a)
    case ByConsumer => s.(ses := s.ses.(events := s.ses.events.Pop()))
    case ByProcess => s.(processGone := true)
  }

  /** A run: a first state, and a state after every step taken. */
  datatype Run = Run(states: seq<State>, steps: seq<Step>)

  ghost predicate IsRun(run: Run) {
    && |run.states| == |run.steps| + 1
    && run.states[0] == Init(run.states[0].hasProcess)
    && forall i :: 0 <= i < |run.steps| ==> Follows(run, i)
  }

  ghost predicate Follows(run: Run, i: nat)
    requires i < |run.steps| < |run.states|
  {
    Can(run.states[i], run.steps[i]) && run.states[i + 1] == Do(run.states[i], run.steps[i])
  }
}
