/** How requests end, and what the session makes of its own: the step that ended a call, the errors it was told,
    the turn's ID and the interrupt. */
module CodexRequests {
  import opened Basics
  import opened CodexTypes
  import opened CodexProtocol
  import opened CodexInvariant
  import opened CodexTheorems
  import opened CodexResults
  import opened CodexSources

  function OutcomeOf(c: Call): Option<Outcome> {
    if c.phase.Leaving? || c.phase.Returned? then Some(c.phase.outcome) else None
  }

  predicate IsClosedError(e: RPCError) {
    e.code == -32000 && e.message == "codex app-server closed the connection"
  }

  // What the server said.

  /** The server sent this error to the request, or failPending made it up once stdout had ended. */
  ghost predicate ErrorTold(s: State, c: Call, e: RPCError) {
    || (exists p :: Heard(s.log, c.born, Reply(Response(c.id, p, Some(e)))))
    || (IsClosedError(e) && SweepDone(s))
  }

  ghost predicate ErrorsTold(s: State) {
    forall c | c in s.calls ::
      && (s.calls[c].slot.Some? && s.calls[c].slot.value.error.Some? ==>
            ErrorTold(s, s.calls[c], s.calls[c].slot.value.error.value))
      && (OutcomeOf(s.calls[c]).Some? && OutcomeOf(s.calls[c]).value.Bad?
          && OutcomeOf(s.calls[c]).value.why.ServerError? ==>
            ErrorTold(s, s.calls[c], OutcomeOf(s.calls[c]).value.why.error))
  }

  lemma ErrorStillTold(s: State, t: State, c: Call, d: Call, e: RPCError)
    requires ErrorTold(s, c, e) && s.log <= t.log && (SweepDone(s) ==> SweepDone(t)) && d.id == c.id && d.born == c.born
    ensures ErrorTold(t, d, e)
  {
    if p :| Heard(s.log, c.born, Reply(Response(c.id, p, Some(e)))) {
      HeardStill(s.log, t.log, c.born, Reply(Response(c.id, p, Some(e))));
      assert Heard(t.log, d.born, Reply(Response(d.id, p, Some(e))));
    }
  }

  predicate ReadsOn(s: State, t: State) {
    s.log <= t.log && (SweepDone(s) ==> SweepDone(t))
  }

  lemma ToldStill(s: State, t: State)
    requires ErrorsTold(s) && t.calls == s.calls && ReadsOn(s, t)
    ensures ErrorsTold(t)
  {
    forall c, e | c in s.calls && ErrorTold(s, s.calls[c], e) ensures ErrorTold(t, s.calls[c], e) {
      ErrorStillTold(s, t, s.calls[c], s.calls[c], e);
    }
  }

  lemma ReaderReadsOn(s: State, a: ReaderAct)
    requires ReaderCan(s, a)
    ensures ReadsOn(s, ReaderDo(s, a))
    ensures !a.Deliver? && !a.FailOne? ==> ReaderDo(s, a).calls == s.calls
  {
    if a.ReadLine? {
    } else if a.ReadEOF? || a.ReaderStderr? || a.Lookup? || a.Deliver? {
    } else if a.Forward? || a.Abandon? || a.SweepPending? || a.FailOne? {
    }
  }

  lemma OfferTold(s: State, t: State, call: nat, r: Response)
    requires ErrorsTold(s) && ReadsOn(s, t) && call in s.calls && t.calls == OfferSlot(s.calls, call, r)
    requires r.error.Some? ==> ErrorTold(t, s.calls[call], r.error.value)
    ensures ErrorsTold(t)
  {
    forall c, e | c in s.calls && ErrorTold(s, s.calls[c], e) ensures ErrorTold(t, t.calls[c], e) {
      ErrorStillTold(s, t, s.calls[c], t.calls[c], e);
    }
    if r.error.Some? {
      ErrorStillTold(t, t, s.calls[call], t.calls[call], r.error.value);
    }
  }

  lemma ReaderErrors(s: State, a: ReaderAct)
    requires Calls(s) && ErrorsTold(s) && ReaderCan(s, a)
    ensures ErrorsTold(ReaderDo(s, a))
  {
    var t := ReaderDo(s, a);
    ReaderReadsOn(s, a);
    if a.Deliver? {
      var r := s.reader.response;
      assert Heard(t.log, s.calls[s.reader.call].born, Reply(Response(r.id, r.result, r.error)));
      OfferTold(s, t, s.reader.call, r);
    } else if a.FailOne? {
      OfferTold(s, t, a.call, Response(s.calls[a.call].id, Payload("", None, ""), Some(CLOSED_ERROR)));
    } else {
      ToldStill(s, t);
    }
  }

  lemma NextOutcome(s: State, call: nat, a: CallAct)
    requires CallCan(s, call, a) && !a.Begin?
    ensures var c, d := s.calls[call], CallDo(s, call, a).calls[call];
            && d.id == c.id && d.born == c.born
            && (d.slot == c.slot || d.slot.None?)
            && (OutcomeOf(d) == OutcomeOf(c)
                || (OutcomeOf(d).Some? && OutcomeOf(d).value.Bad? && OutcomeOf(d).value.why.ServerError? ==>
                      c.slot.Some? && c.slot.value.error == Some(OutcomeOf(d).value.why.error)))
  {
  }

  lemma CallErrors(s: State, call: nat, a: CallAct)
    requires ErrorsTold(s) && CallCan(s, call, a)
    ensures ErrorsTold(CallDo(s, call, a))
  {
    var t := CallDo(s, call, a);
    CallTouches(s, call, a);
    if !a.Begin? {
      NextOutcome(s, call, a);
    }
    forall c, e | c in s.calls && c in t.calls && t.calls[c].id == s.calls[c].id && t.calls[c].born == s.calls[c].born
                  && ErrorTold(s, s.calls[c], e)
      ensures ErrorTold(t, t.calls[c], e)
    {
      ErrorStillTold(s, t, s.calls[c], t.calls[c], e);
    }
  }

  predicate Apart(s: State, t: State) {
    t.calls == s.calls && ReadsOn(s, t)
  }

  lemma DrainerApart(s: State, a: DrainerAct)
    requires DrainerCan(s, a)
    ensures Apart(s, DrainerDo(s, a))
  {
    DrainerTouches(s, a);
  }

  lemma ReaperApart(s: State, a: ReaperAct)
    requires ReaperCan(s, a)
    ensures Apart(s, ReaperDo(s, a))
  {
    ReaperTouches(s, a);
  }

  lemma CloserApart(s: State, k: nat, a: CloserAct)
    requires CloserCan(s, k, a)
    ensures Apart(s, CloserDo(s, k, a))
  {
    CloserSets(s, k, a);
  }

  lemma SessionApart(s: State, a: SessionAct)
    requires SessionCan(s, a)
    ensures Apart(s, SessionDo(s, a))
  {
    SessionTouches(s, a);
  }

  lemma TurnApart(s: State, a: TurnAct)
    requires TurnCan(s, a)
    ensures Apart(s, TurnDo(s, a))
  {
    TurnTouches(s, a);
  }

  lemma OthersApart(s: State, step: Step)
    requires Can(s, step) && !step.ByReader? && !step.ByCall?
    ensures Apart(s, Do(s, step))
  {
    match step
    case ByDrainer(a) => DrainerApart(s, a);
    case ByReaper(a) => ReaperApart(s, a);
    case ByCloser(k, a) => CloserApart(s, k, a);
    case BySession(a) => SessionApart(s, a);
    case ByTurn(a) => TurnApart(s, a);
    case ByConsumer =>
    case ByProcess =>
  }

  lemma {:induction false} ErrorsAlwaysTold(run: Run, i: nat)
    requires IsRun(run) && i < |run.states|
    ensures ErrorsTold(run.states[i])
  {
    if i > 0 {
      ErrorsAlwaysTold(run, i - 1);
      InvAlways(run, i - 1);
      assert Follows(run, i - 1);
      var s, step := run.states[i - 1], run.steps[i - 1];
      if step.ByReader? {
        ReaderErrors(s, step.reader);
      } else if step.ByCall? {
        CallErrors(s, step.call, step.callAct);
      } else {
        OthersApart(s, step);
        ToldStill(s, run.states[i]);
      }
    }
  }

  // The step that ended a call.

  /** Some step ended call c, and this outcome is what it saw. */
  ghost predicate EndedSo(run: Run, i: nat, c: nat, o: Outcome)
    requires i < |run.states|
  {
    match o
    case Good(_) => Stepped(run, i, ByCall(c, TakeReply))
    case Bad(ServerError(_)) => Stepped(run, i, ByCall(c, TakeReply))
    case Bad(ServerExited(exit)) =>
      run.states[i].exited && exit == run.states[i].waitErr && Stepped(run, i, ByCall(c, SawExit))
    case Bad(ContextDone(err)) => Stepped(run, i, ByCall(c, SawContext(err)))
    case Bad(WriteFailed(err)) => Stepped(run, i, ByCall(c, Write(Some(err))))
    case Bad(WriteRefused) =>
      run.states[i].core.closed && exists failed :: Stepped(run, i, ByCall(c, Write(failed)))
    case Bad(ClientClosed) => run.states[i].core.closed && Stepped(run, i, ByCall(c, Begin))
  }

  lemma EndedStill(run: Run, i: nat, c: nat, o: Outcome)
    requires i + 1 < |run.states| && EndedSo(run, i, c, o)
    requires run.states[i].core.closed ==> run.states[i + 1].core.closed
    requires run.states[i].exited ==> run.states[i + 1].exited && run.states[i + 1].waitErr == run.states[i].waitErr
    ensures EndedSo(run, i + 1, c, o)
  {
  }

  ghost predicate AllEndedSo(run: Run, i: nat)
    requires i < |run.states|
  {
    forall c | c in run.states[i].calls && OutcomeOf(run.states[i].calls[c]).Some? ::
      EndedSo(run, i, c, OutcomeOf(run.states[i].calls[c]).value)
  }

  /** No step but a call's own changes its outcome. */
  lemma OutcomeKept(s: State, step: Step, c: nat)
    requires Can(s, step) && c in Do(s, step).calls && !(step.ByCall? && step.call == c)
    ensures c in s.calls && OutcomeOf(Do(s, step).calls[c]) == OutcomeOf(s.calls[c])
  {
    if step.ByReader? {
      ReaderKeepsOutcomes(s, step.reader, c);
    } else if step.ByCall? {
      OtherCallKept(s, step.call, step.callAct, c);
    } else {
      OthersApart(s, step);
    }
  }

  lemma ReaderKeepsOutcomes(s: State, a: ReaderAct, c: nat)
    requires ReaderCan(s, a) && c in ReaderDo(s, a).calls
    ensures c in s.calls && OutcomeOf(ReaderDo(s, a).calls[c]) == OutcomeOf(s.calls[c])
  {
    ReaderReadsOn(s, a);
  }

  lemma OtherCallKept(s: State, call: nat, a: CallAct, c: nat)
    requires CallCan(s, call, a) && c != call && c in CallDo(s, call, a).calls
    ensures c in s.calls && CallDo(s, call, a).calls[c] == s.calls[c]
  {
  }

  lemma CallEnds(run: Run, i: nat, c: nat, a: CallAct)
    requires IsRun(run) && i < |run.steps| && run.steps[i] == ByCall(c, a) && Follows(run, i)
    requires OutcomeOf(run.states[i + 1].calls[c]).Some?
    requires c in run.states[i].calls && OutcomeOf(run.states[i].calls[c]).Some? ==>
               EndedSo(run, i + 1, c, OutcomeOf(run.states[i].calls[c]).value)
    ensures EndedSo(run, i + 1, c, OutcomeOf(run.states[i + 1].calls[c]).value)
  {
    assert Stepped(run, i + 1, run.steps[i]);
  }

  lemma ExitStays(s: State, step: Step)
    requires Inv(s) && Can(s, step) && s.exited
    ensures Do(s, step).exited && Do(s, step).waitErr == s.waitErr
  {
    ExitedAreIdle(s, step);
    FrozenStep(s, step);
    OthersExit(s, step);
  }

  lemma ReaderKeepsClosed(s: State, a: ReaderAct)
    requires Lifecycle(s) && ReaderCan(s, a)
    ensures ReaderDo(s, a).core.closed == s.core.closed
  {
    ReaderTouches(s, a);
  }

  lemma CallKeepsClosed(s: State, call: nat, a: CallAct)
    requires CallCan(s, call, a)
    ensures CallDo(s, call, a).core.closed == s.core.closed
  {
    CallTouches(s, call, a);
  }

  lemma CloserKeepsClosed(s: State, k: nat, a: CloserAct)
    requires CloserCan(s, k, a)
    ensures s.core.closed ==> CloserDo(s, k, a).core.closed
  {
  }

  predicate SameCore(s: State, t: State) {
    t.core == s.core
  }

  lemma PipesKeepCore(s: State, step: Step)
    requires Can(s, step) && (step.ByDrainer? || step.ByReaper?)
    ensures SameCore(s, Do(s, step))
  {
    if step.ByDrainer? {
      DrainerTouches(s, step.drainer);
    } else {
      ReaperTouches(s, step.reaper);
    }
  }

  lemma SessionKeepsCore(s: State, a: SessionAct)
    requires SessionCan(s, a)
    ensures SameCore(s, SessionDo(s, a))
  {
    SessionTouches(s, a);
  }

  lemma TurnKeepsCore(s: State, a: TurnAct)
    requires TurnCan(s, a)
    ensures SameCore(s, TurnDo(s, a))
  {
    TurnTouches(s, a);
  }

  lemma ClosedStays(s: State, step: Step)
    requires Lifecycle(s) && Can(s, step) && s.core.closed
    ensures Do(s, step).core.closed
  {
    match step
    case ByReader(a) => ReaderKeepsClosed(s, a);
    case ByDrainer(a) => PipesKeepCore(s, step);
    case ByReaper(a) => PipesKeepCore(s, step);
    case ByCall(call, a) => CallKeepsClosed(s, call, a);
    case ByCloser(k, a) => CloserKeepsClosed(s, k, a);
    case BySession(a) => SessionKeepsCore(s, a);
    case ByTurn(a) => TurnKeepsCore(s, a);
    case ByConsumer =>
    case ByProcess =>
  }

  lemma EndedStep(run: Run, i: nat)
    requires IsRun(run) && i < |run.steps| && AllEndedSo(run, i)
    ensures AllEndedSo(run, i + 1)
  {
    InvAlways(run, i);
    assert Follows(run, i);
    var s, t, step := run.states[i], run.states[i + 1], run.steps[i];
    if s.core.closed {
      ClosedStays(s, step);
    }
    if s.exited {
      ExitStays(s, step);
    }
    forall c | c in t.calls && OutcomeOf(t.calls[c]).Some? ensures EndedSo(run, i + 1, c, OutcomeOf(t.calls[c]).value) {
      if c in s.calls && OutcomeOf(s.calls[c]).Some? {
        EndedStill(run, i, c, OutcomeOf(s.calls[c]).value);
      }
      if step.ByCall? && step.call == c {
        CallEnds(run, i, c, step.callAct);
      } else {
        OutcomeKept(s, step, c);
      }
    }
  }

  lemma {:induction false} AllAlwaysEndedSo(run: Run, i: nat)
    requires IsRun(run) && i < |run.states|
    ensures AllEndedSo(run, i)
  {
    if i > 0 {
      AllAlwaysEndedSo(run, i - 1);
      EndedStep(run, i - 1);
    }
  }

  /** How a request can end: with the result of its own response; with an error the server sent it, or that
      failPending gave it after stdout had ended; or by the one event its failure names, which happened. */
  lemma RequestEndsSo(run: Run, i: nat, c: nat)
    requires IsRun(run) && i < |run.states|
    requires c in run.states[i].calls && run.states[i].calls[c].phase.Returned?
    ensures var s, o := run.states[i], run.states[i].calls[c].phase.outcome;
            && EndedSo(run, i, c, o)
            && (o.Good? ==> Heard(s.log, s.calls[c].born, Reply(Response(s.calls[c].id, o.result, None))))
            && (o.Bad? && o.why.ServerError? ==> ErrorTold(s, s.calls[c], o.why.error))
  {
    AllAlwaysEndedSo(run, i);
    ErrorsAlwaysTold(run, i);
    RequestsAnswered(run, i);
  }

  /** Left alone, the reader gives a response to the call registered under its ID, if its reply channel is empty,
      and to nobody else. */
  lemma ReplyReaches(s: State)
    requires s.reader.RRoute? && Calls(s)
    ensures var r, t := s.reader.response, ReaderDo(s, Lookup);
            if r.id in s.core.pending then
              var c := s.core.pending[r.id];
              && c in s.calls && s.calls[c].id == r.id
              && ReaderCan(t, Deliver) && ReaderDo(t, Deliver).reader == RRead
              && ReaderDo(t, Deliver).calls ==
                 s.calls[c := if s.calls[c].slot.None? then s.calls[c].(slot := Some(r)) else s.calls[c]]
            else
              t == s.(reader := RRead)
  {
    var r := s.reader.response;
    if r.id in s.core.pending {
      assert PendingOk(s, r.id);
      assert s.calls == s.calls[s.core.pending[r.id] := s.calls[s.core.pending[r.id]]];
    }
  }

  // The turn's ID.

  lemma TurnKeepsCall(s: State, a: TurnAct)
    requires TurnCan(s, a)
    ensures StartCall(TurnDo(s, a).ses) == if a.Ask? then Some(a.call) else StartCall(s.ses)
  {
  }

  lemma StartStep(s: State, step: Step)
    requires Inv(s) && Can(s, step)
    ensures || StartCall(Do(s, step).ses) == StartCall(s.ses)
            || (StartCall(Do(s, step).ses).Some? && step == ByTurn(Ask(StartCall(Do(s, step).ses).value)))
  {
    if step.ByTurn? {
      TurnKeepsCall(s, step.turn);
    } else if step.BySession? {
      SessionKeepsTurn(s, step.session);
    } else {
      OthersLeaveTurn(s, step);
    }
  }

  lemma StartFollows(run: Run, i: nat)
    requires IsRun(run) && i < |run.steps|
    ensures var call := StartCall(run.states[i + 1].ses);
            call == StartCall(run.states[i].ses) || (call.Some? && run.steps[i] == ByTurn(Ask(call.value)))
  {
    InvAlways(run, i);
    assert Follows(run, i);
    StartStep(run.states[i], run.steps[i]);
  }

  /** The session's own turn/start request is the one its goroutine asked. */
  lemma {:induction false} StartAsked(run: Run, i: nat)
    requires IsRun(run) && i < |run.states| && StartCall(run.states[i].ses).Some?
    ensures Stepped(run, i, ByTurn(Ask(StartCall(run.states[i].ses).value)))
  {
    assert i > 0;
    StartFollows(run, i - 1);
    if StartCall(run.states[i - 1].ses) == StartCall(run.states[i].ses) {
      StartAsked(run, i - 1);
    }
  }

  /** The ID on record is that of the turn the session's own turn/start was answered with. */
  predicate TurnIdOk(s: State) {
    if s.ses.turnPC.TGot? || s.ses.turnPC.TSent? then
      var o := StartOutcome(s);
      && o.Some?
      && s.ses.turnID == if o.value.Good? && o.value.result.turn.Some? then o.value.result.turn.value.id else ""
    else
      s.ses.turnID == ""
  }

  predicate SameTurn(s: State, t: State) {
    t.ses.turnPC == s.ses.turnPC && t.ses.turnID == s.ses.turnID && t.calls == s.calls
  }

  lemma LoopKeepsTurn(s: State, a: SessionAct)
    requires SessionCan(s, a) && !Ending(a)
    ensures SameTurn(s, SessionDo(s, a))
  {
    if a.OnNotification? || a.OnStarted? {
    } else if a.Open? || a.OnStderr? {
    }
  }

  lemma EndKeepsTurn(s: State, a: SessionAct)
    requires SessionCan(s, a) && Ending(a)
    ensures SameTurn(s, SessionDo(s, a))
  {
    if a.OnClosing? || a.OnExited? || a.OnContext? {
    } else if a.DrainNotifClosed? || a.DrainDefault? {
    } else if a.Record? || a.CloseEvents? {
    }
  }

  lemma SessionKeepsTurn(s: State, a: SessionAct)
    requires SessionCan(s, a)
    ensures SameTurn(s, SessionDo(s, a))
  {
    if Ending(a) {
      EndKeepsTurn(s, a);
    } else {
      LoopKeepsTurn(s, a);
    }
  }

  lemma TurnTurns(s: State, a: TurnAct)
    requires TurnIdOk(s) && TurnCan(s, a)
    ensures TurnIdOk(TurnDo(s, a))
  {
  }

  lemma TurnIdStill(s: State, t: State)
    requires TurnIdOk(s) && ReturnsKept(s, t) && t.ses.turnPC == s.ses.turnPC && t.ses.turnID == s.ses.turnID
    ensures TurnIdOk(t)
  {
  }

  ghost predicate TurnUntouched(s: State, t: State) {
    ReturnsKept(s, t) && t.ses.turnPC == s.ses.turnPC && t.ses.turnID == s.ses.turnID
  }

  lemma ReaderLeavesTurn(s: State, a: ReaderAct)
    requires Lifecycle(s) && ReaderCan(s, a)
    ensures TurnUntouched(s, ReaderDo(s, a))
  {
    ReaderTouches(s, a);
  }

  lemma PipesLeaveTurn(s: State, step: Step)
    requires Can(s, step) && (step.ByDrainer? || step.ByReaper?)
    ensures TurnUntouched(s, Do(s, step))
  {
    if step.ByDrainer? {
      DrainerTouches(s, step.drainer);
    } else {
      ReaperTouches(s, step.reaper);
    }
  }

  lemma CallLeavesTurn(s: State, call: nat, a: CallAct)
    requires CallCan(s, call, a)
    ensures TurnUntouched(s, CallDo(s, call, a))
  {
    CallTouches(s, call, a);
  }

  lemma CloserLeavesTurn(s: State, k: nat, a: CloserAct)
    requires CloserCan(s, k, a)
    ensures TurnUntouched(s, CloserDo(s, k, a))
  {
    CloserSets(s, k, a);
  }

  lemma OthersLeaveTurn(s: State, step: Step)
    requires Inv(s) && Can(s, step) && !step.BySession? && !step.ByTurn?
    ensures TurnUntouched(s, Do(s, step))
  {
    match step
    case ByReader(a) => ReaderLeavesTurn(s, a);
    case ByDrainer(a) => PipesLeaveTurn(s, step);
    case ByReaper(a) => PipesLeaveTurn(s, step);
    case ByCall(call, a) => CallLeavesTurn(s, call, a);
    case ByCloser(k, a) => CloserLeavesTurn(s, k, a);
    case ByConsumer =>
    case ByProcess =>
  }

  lemma TurnIdStep(s: State, step: Step)
    requires Inv(s) && TurnIdOk(s) && Can(s, step)
    ensures TurnIdOk(Do(s, step))
  {
    if step.ByTurn? {
      TurnTurns(s, step.turn);
    } else if step.BySession? {
      SessionKeepsTurn(s, step.session);
      TurnIdStill(s, Do(s, step));
    } else {
      OthersLeaveTurn(s, step);
      TurnIdStill(s, Do(s, step));
    }
  }

  /** In every run the turn's ID is that of the turn the server answered turn/start with, and empty before. */
  lemma {:induction false} TurnIdAlways(run: Run, i: nat)
    requires IsRun(run) && i < |run.states|
    ensures TurnIdOk(run.states[i])
  {
    if i > 0 {
      TurnIdAlways(run, i - 1);
      InvAlways(run, i - 1);
      assert Follows(run, i - 1);
      TurnIdStep(run.states[i - 1], run.steps[i - 1]);
    }
  }

  /** Cancel on a session that is done does nothing. Otherwise, left alone, it takes one ID for an interrupt if
      the turn has an ID and the client is open, and leaves the client closed; and it is this caller that gives
      the signal exactly when the client was open. */
  lemma CancelUnbroken(s: State, k: nat)
    requires CloserCan(s, k, CallCancel)
    ensures var called := CloserDo(s, k, CallCancel);
            if s.ses.done then
              called == s.(closers := s.closers[k := KDone])
            else
              && CloserCan(called, k, Interrupt)
              && var asked := CloserDo(called, k, Interrupt);
                 && CloserCan(asked, k, CloserAct.Shut)
                 && var shut := CloserDo(asked, k, CloserAct.Shut);
                    && shut.core.closed && shut.core.pending == s.core.pending
                    && shut.core.nextID == s.core.nextID + (if s.ses.turnID != "" && !s.core.closed then 1 else 0)
                    && (CloserCan(shut, k, SignalClosing) <==> !s.core.closed)
                    && shut == s.(core := shut.core, closers := shut.closers)
  {
  }
}
