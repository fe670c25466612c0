/** The messages of the Codex app-server protocol (JSON-RPC 2.0, sections 4, 4.1 and 5) as the
    client sees them after decoding, and what one notification means for a session. */
module CodexTypes {
  import opened Basics

  /** A buffered Go channel: queued values, capacity, and whether it is still open. */
  datatype Chan<T> = Chan(buf: seq<T>, cap: nat, open: bool) {
    predicate Room() {
      |buf| < cap
    }

    function Push(x: T): Chan<T> {
      this.(buf := buf + [x])
    }

    /** `select { case ch <- x: default: }` on an open channel. */
    function Offer(x: T): Chan<T> {
      if Room() then Push(x) else this
    }

    function Pop(): Chan<T>
      requires buf != []
    {
      this.(buf := buf[1..])
    }

    function Close(): Chan<T> {
      this.(open := false)
    }
  }

  datatype RPCError = RPCError(code: int, message: string)

  datatype TurnStatus = InProgress | Completed | Interrupted | Failed | OtherStatus(text: string)

  function StatusText(status: TurnStatus): string {
    match status
    case InProgress => "inProgress"
    case Completed => "completed"
    case Interrupted => "interrupted"
    case Failed => "failed"
    case OtherStatus(text) => text
  }

  predicate IsTerminal(status: TurnStatus) {
    status.Completed? || status.Failed? || status.Interrupted?
  }

  datatype Turn = Turn(id: string, status: TurnStatus, error: string)

  /** A response result: the raw text and, when it decodes as one, the turn it carries, or else what the
      decoder says is wrong with it. */
  datatype Payload = Payload(raw: string, turn: Option<Turn>, flaw: string)

  datatype Response = Response(id: int, result: Payload, error: Option<RPCError>)

  datatype Item =
    | AgentMessage(text: string)
    | ExitedReviewMode(review: string)
    | Reasoning(summary: string)  // the summary lines joined by newlines
    | CommandExecution(command: string, exitCode: Option<int>)
    | FileChange(changes: nat)
    | ToolCall(server: string, tool: string)  // mcpToolCall and dynamicToolCall
    | WebSearch(query: string)
    | OtherItem

  /** A decoded notification. Ignored stands for undecodable parameters and every other method. */
  datatype Notification =
    | TurnCompleted(thread: string, turn: Turn)
    | ErrorNotice(message: string)
    | ItemNotice(thread: string, item: Item, completed: bool)
    | Ignored

  /** One decoded line of the app-server's stdout. */
  datatype Line =
    | BlankLine
    | Unparseable(text: string)
    | ServerRequest(id: int, name: string)
    | Reply(response: Response)
    | Notify(notification: Notification)
    | Neither  // no id and no method

  datatype Event =
    | MessageEvent(content: string)
    | ProgressEvent(content: string)
    | ToolEvent(item: Item, completed: bool)
    | StderrEvent(content: string)
    | ErrorEvent(message: string)

  datatype Status = Success | Error

  datatype RunResult = RunResult(
    status: Status,
    error: string,
    result: string,
    sessionID: string,
    stderr: string,
    stopReason: string)

  /** The event one item gives, if any, and the text it adds to the answer. */
  function ItemEvent(item: Item, completed: bool): Option<Event> {
    match item
    case AgentMessage(text) => if Blank(text) then None else Some(MessageEvent(text))
    case ExitedReviewMode(review) => if Blank(review) then None else Some(MessageEvent(review))
    case Reasoning(summary) =>
      if completed && !Blank(summary) then Some(ProgressEvent(TrimSpace(summary))) else None
    case WebSearch(_) => if completed then None else Some(ToolEvent(item, completed))
    case OtherItem => None
    case _ => Some(ToolEvent(item, completed))
  }

  function ItemText(item: Item, completed: bool): string {
    match item
    case AgentMessage(text) => if completed && !Blank(text) then text else ""
    case ExitedReviewMode(review) => if completed && !Blank(review) then review else ""
    case _ => ""
  }

  /** What handling one notification does: the event it emits, the new accumulated text and last
      error, and the turn it completes. */
  datatype Handled = Handled(event: Option<Event>, text: string, lastErr: string, finished: Option<Turn>)

  function Handle(n: Notification, thread: string, text: string, lastErr: string): Handled {
    match n
    case TurnCompleted(other, turn) =>
      if other != thread then
        Handled(Some(ProgressEvent("codex subagent thread completed")), text, lastErr, None)
      else
        Handled(None, text, lastErr, Some(turn))
    case ErrorNotice(message) =>
      var msg := TrimSpace(message);
      if msg != "" then Handled(Some(ErrorEvent(msg)), text, msg, None) else Handled(None, text, lastErr, None)
    case ItemNotice(other, item, completed) =>
      if other != thread then
        Handled(None, text, lastErr, None)
      else
        Handled(ItemEvent(item, completed), text + ItemText(item, completed), lastErr, None)
    case Ignored =>
      Handled(None, text, lastErr, None)
  }

  /** The answer a thread gave in a sequence of notifications: its completed non-blank agent
      messages and reviews, in order. */
  function Answer(ns: seq<Notification>, thread: string): string {
    if ns == [] then "" else Answer(ns[..|ns| - 1], thread) + AnswerPart(ns[|ns| - 1], thread)
  }

  function AnswerPart(n: Notification, thread: string): string {
    match n
    case ItemNotice(t, AgentMessage(s), true) => if t == thread && TrimSpace(s) != "" then s else ""
    case ItemNotice(t, ExitedReviewMode(s), true) => if t == thread && TrimSpace(s) != "" then s else ""
    case _ => ""
  }

  /** The latest non-blank error message in a sequence of notifications. */
  function LatestError(ns: seq<Notification>): string {
    if ns == [] then
      ""
    else if ErrorPart(ns[|ns| - 1]) != "" then
      ErrorPart(ns[|ns| - 1])
    else
      LatestError(ns[..|ns| - 1])
  }

  function ErrorPart(n: Notification): string {
    if n.ErrorNotice? then TrimSpace(n.message) else ""
  }

  predicate Completes(n: Notification, thread: string) {
    n.TurnCompleted? && n.thread == thread
  }

  ghost predicate NoneCompletes(ns: seq<Notification>, thread: string) {
    forall i | 0 <= i < |ns| :: !Completes(ns[i], thread)
  }

  function FirstNonEmpty(a: string, b: string, c: string): string {
    if a != "" then a else if b != "" then b else c
  }

  function CompletedResult(turn: Turn, thread: string, text: string, lastErr: string, stderr: string): RunResult {
    var stop := StatusText(turn.status);
    if turn.status.Completed? then
      RunResult(Success, "", text, thread, stderr, stop)
    else
      RunResult(Error, FirstNonEmpty(TrimSpace(turn.error), lastErr, "codex turn " + stop), text, thread, stderr, stop)
  }

  function CrashResult(thread: string, text: string, lastErr: string, stderr: string, exitErr: Option<string>)
    : RunResult
  {
    var msg := match exitErr
               case None => "codex app-server exited before the turn completed"
               case Some(err) => "codex app-server exited: " + err;
    RunResult(Error, if lastErr != "" then msg + ": " + lastErr else msg, text, thread, stderr, "")
  }

  /** What turn/start reports to the loop: an error, or the turn as first reported. */
  datatype StartResult = StartFailed(err: string) | Started(turn: Turn)

  function StartedResult(sr: StartResult, thread: string, text: string, lastErr: string, stderr: string)
    : Option<RunResult>
  {
    match sr
    case StartFailed(err) => Some(RunResult(Error, err, text, "", "", ""))
    case Started(turn) =>
      if IsTerminal(turn.status) then Some(CompletedResult(turn, thread, text, lastErr, stderr)) else None
  }

  function CanceledResult(thread: string, text: string): RunResult {
    RunResult(Error, "codex turn canceled", text, thread, "", StatusText(Interrupted))
  }

  function ContextResult(thread: string, text: string, err: string, stderr: string): RunResult {
    RunResult(Error, err, text, thread, stderr, "")
  }

  /** finish fills a missing session ID and a missing stderr before it publishes the result. */
  function Published(r: RunResult, thread: string, stderr: string): RunResult {
    r.(sessionID := if r.sessionID == "" then thread else r.sessionID,
       stderr := if r.stderr == "" then stderr else r.stderr)
  }

  /** One notification moves the accumulated text and error to the fold over what was consumed. */
  lemma HandleStep(ns: seq<Notification>, n: Notification, thread: string)
    ensures var h := Handle(n, thread, Answer(ns, thread), LatestError(ns));
            && h.text == Answer(ns + [n], thread)
            && h.lastErr == LatestError(ns + [n])
            && (h.finished.Some? <==> Completes(n, thread))
            && (h.finished.Some? ==> h.finished.value == n.turn)
  {
    var all := ns + [n];
    assert all[..|all| - 1] == ns;
  }
}
