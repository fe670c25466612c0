# Verified models of pi-go's stateful cores

Dafny models of the parts of pi-go whose correctness depends on state, on order or on interleaving, with
proofs of what they promise. `dafny verify dfyconfig.toml` checks everything.

| files | what they model |
|---|---|
| `CodexTypes`, `CodexProtocol`, `CodexInvariant`, `CodexTheorems`, `CodexWindDown`, `CodexDelivery`, `CodexResults`, `CodexSources`, `CodexRequests` | the Codex app-server client and session as one step relation: stdout reader, stderr drainer, reaper, any number of requests, callers of Cancel and close, the session loop, the turn/start goroutine and the consumer of events |
| `CodexClient` | the same client and session as classes: the mutex sections, `failPending`, notification handling, the drain and `finish` |
| `JsonDelta`, `JsonDeltaTheorems`, `Utf8` | JSON mode's grouping of streamed text at sentence and word boundaries |
| `StreamDedup`, `DedupTheorems` | showing a reply once that ADK sends in pieces and then whole |
| `ToolNames`, `ToolNameRuns`, `ToolNameForms` | unique, stable, short model-facing tool names |
| `Retry`, `RetryTransient` | retrying a run in front of a consumer that may stop listening |
| `HiddenChars`, `HiddenCharsTheorems` | the hidden-character scan and the strip that must agree with it |
| `DanglingCalls` | closing tool calls an interrupted turn left open, before every turn |
| `DotEnv`, `DotEnvForms` | writing one `.env` variable, and loading the file back |
| `Atif`, `AtifTheorems` | converting events to trajectory steps, and the incremental writer |
| `Basics` | options, bytes, code points, `strings.TrimSpace` |

## How the Codex protocol is modelled

Every goroutine is an actor with a program counter. A mutex section, a channel operation or one arm of a
`select` is one step; the actor that moves and the arm a `select` takes are free, so a theorem about runs
covers every interleaving. Channels are bounded queues with an open flag; a send on a closed channel and a
second close set `panicked`, as Go would panic. Lines read, end of file, process exit, cancellation and the
60-second request timeout are free steps of the surroundings; a client may have a process to reap or none.
The fields `log`, `sent`, `taken`, `swept` and `aborted`, and the `born` of a call, record history and steer
nothing.

The methods that change state are proved against the functions the step relation and the theorems are made
of (`JsonDelta.Do`, `Retry.Retried`, `Atif.Appended`, `DotEnv.Updated` and so on), and the properties are
proved of those functions. What such a function computes is also stated without it: by code points, bytes,
literal texts, positions or steps of a run (the lemmas whose names end in `Exactly`, `So` or `Tells`).

## Where the code and its own words differ

Each with the exact condition, and an input on which it happens.

- `sentenceBreak` (internal/cli/jsondelta.go:134) says it returns the last break; it returns the first, and
  `text` cuts at most once per call. So a finished sentence can stay in the buffer:
  `FinishedSentenceLeftExactly`, `TwoSentences`. `SmallChunksSettle` gives the bound on the buffer for chunks
  that are short and hold at most one whitespace byte.
- JSON mode (the repository's README.md:350-354) promises deltas that concatenate to exactly the reply. A run that fails with
  an error returns without the last flush (internal/cli/cli.go:1907-1915), so grouped mode then loses the
  text it holds, which raw mode has shown: `RunRefinesRaw`, `FailedRunLosesText`.
- `StreamDedup` (internal/agent/eventstream.go:68-71) lets a bare aggregate through after a user or tool
  event. Two model turns with no such event between them, the first streamed and the second only whole, lose
  the second one's text: `TurnsShownOnce`, `BareTurnLost`.
- `truncateToolName` (internal/agent/toolnames.go:187-189) says the tool's own name survives. It does not
  when the name alone is too long, or starts with a trimmable byte that nothing of the prefix is left to
  hold back: `OwnNameKept`, `OwnNameLost`. With nothing else left it gives the empty name:
  `EmptyNameExactly`, `NameLost`.
- `WithRetry` (internal/agent/retry.go:38-39) says only a run that produced nothing is replayed. An error
  that comes without an event does not count, so it can be delivered twice: `SilentBefore`,
  `ErrorDeliveredTwice`.
- `danglingResponses` (internal/agent/dangling_calls.go:48) answers calls that have no response; a response
  that shares its part with a call is not looked at, so that call is answered again: `AnsweredAgainExactly`,
  `SharedPartAnsweredAgain`. No code of the repository builds such a part
  (internal/provider/functioncall_args.go:49 makes parts that hold a call alone, the repair parts that hold a
  response alone), and without one the words hold: `AnsweredOnceUnlessShared`.
- A `.env` line that sets the key in another spelling (`KEY =old`) below the literal one wins over the value
  written: `RoundTripExactly`, `OtherSpellingWins`. Writing to a text without a final newline settles only the
  second time: `WritingSettles`, `SettlesLate`.
- The notification queue blocks its sender, and the session is said to drain it continuously
  (internal/codex/client.go:43-46). A queue that fills before any session exists is drained by nobody until
  somebody closes, as startSession does when its request times out: `StuckReaderHelped`,
  `QueueFillsUnattended`.

## Model

| member | source | states |
|---|---|---|
| `CodexTheorems.NeverPanics` | internal/codex/client.go:138-182 | in every interleaving no goroutine sends on a closed channel and none of notifCh, stderrCh, closing, exited, events, done, readerDone, stderrDone is closed twice |
| `CodexTheorems.RequestsAnswered` | internal/codex/client.go:214-251 | pending IDs belong to their own calls, are positive and at most nextID, live calls have distinct IDs, and a request succeeds only with the result of a server response carrying its ID, in a line read since the request began or the one line the reader held then |
| `CodexTheorems.HeldReplyTaken` | internal/codex/client.go:412-423 | a run on which a request succeeds with a line read before it began |
| `CodexTheorems.FirstReplyKept` | internal/codex/client.go:412-423 | in every step a reply slot keeps its first message until its call takes it as the outcome; late replies and failPending never replace it |
| `CodexTheorems.SweptCallsReleased` | internal/codex/client.go:438-450 | a waiting call that failPending has handled can take a reply |
| `CodexTheorems.WaitingCallsReleased` | internal/codex/client.go:161-179 | once both pipe readers are done, a waiting call can take its reply, see the exit, or the reaper can move, or the process is still running; the reaper is held up if and only if the process it waits for runs; every call pending at failPending has a filled slot |
| `CodexTheorems.ReaperForward` | internal/codex/client.go:161-179 | no step moves the reaper back and each of its own moves it on, so the exit is at most six moves away |
| `CodexTheorems.ReaderStuckExactly` | internal/codex/client.go:366-404 | the reader cannot move if and only if it holds a notification, the queue is full and nobody has closed |
| `CodexTheorems.StuckReaderHelped` | internal/codex/client.go:43-46 | a reader stopped on a full queue has neither session nor closer to help it if and only if no session was opened and nobody is closing |
| `CodexTheorems.QueueFillsUnattended` | internal/codex/client.go:396-400 | a run on which the queue fills before any session is opened and the reader stops with nobody to help |
| `CodexTheorems.CloseFreesReader` | internal/codex/client.go:332-344 | after close a parked reader can move, or the one closer left can signal it |
| `CodexTheorems.ChildThreadNeverEnds` | internal/codex/session.go:382-388 | on every run a session ends by completion if and only if it took a completion of its own thread, the last notification it took; no other notification moves the loop |
| `CodexTheorems.OnlyRecordPublishes` | internal/codex/session.go:572-582 | only finish publishes a result and nothing replaces it |
| `CodexTheorems.OneTerminalTransition` | internal/codex/session.go:251-315 | on every run at most one terminal transition happens, exactly one once there is a result, and the result never changes |
| `CodexTheorems.ResultJustified` | internal/codex/session.go:320-452 | done follows the result; the result text is the in-order concatenation of the thread's completed non-blank messages and reviews consumed so far, whichever arm ended the session and whatever events were dropped; success was reported by the server in a turn/completed of the thread or in the reply to the session's own turn/start request |
| `CodexTheorems.DrainDefaultNeverReady` | internal/codex/session.go:366-368 | the default arm of the drain is unreachable |
| `CodexTheorems.DrainTerminates` | internal/codex/session.go:349-371 | the drain always has a ready arm, each shrinks the measure, and no other actor adds to it |
| `CodexTheorems.ExitFreezes` | internal/codex/client.go:153-179 | after the exit only the session touches its queues |
| `CodexTheorems.ExitReportedExactly` | internal/codex/session.go:338-343 | a session that takes the exited arm reports a crash if and only if its queue held no turn/completed of its thread, and otherwise ends with the first one |
| `CodexTheorems.CrashMeansUnfinished` | internal/codex/session.go:528-546 | a reported crash means no completion of the turn in anything the session was sent; what was read is that and the at most one notification a close dropped, so none was read if and only if that one was none |
| `CodexWindDown.StepShrinks` | internal/codex/client.go:153-179 | once a close has signalled and the process is gone, every step of what is under way, of any actor, leaves less to do |
| `CodexWindDown.SomethingGoesOn` | internal/codex/session.go:251-315 | until every goroutine has returned, every call is answered and every close is through, some such step can be taken, and none of the deadlines is needed for it |
| `CodexWindDown.WindsDown` | internal/codex/client.go:332-355 | however the goroutines are scheduled, a run has then at most as many steps left as there is work |
| `CodexWindDown.RestIsReached` | internal/codex/client.go:332-355 | and goes on, within that many steps, to a state in which everything is done |
| `CodexDelivery.StepDelivers` | internal/codex/session.go:562-567 | an emitted event goes to the end of the queue if and only if there is room, and the consumer takes from its front |
| `CodexDelivery.DeliveredInOrder` | internal/codex/session.go:557-567 | on every run what the consumer received and what is queued for it are an in-order subsequence of the events emitted, short by exactly those that found the queue full |
| `CodexDelivery.GivesExactly` | internal/codex/session.go:375-507 | which event a notification gives, told from the event: its text, thread, kind and completion; any other notification gives none |
| `CodexDelivery.AnswerIsShown` | internal/codex/session.go:426-452 | a notification adds content to the answer if and only if it is a completed item whose message event shows that content |
| `CodexDelivery.EmittedExactly` | internal/codex/session.go:268-284 | a step emits an event if and only if the session takes a line of stderr or a notification that gives it |
| `CodexResults.StartEndsSo` | internal/codex/session.go:155-188 | in every run a session ended by turn/start ended by the answer to its own request: by the turn in it, which is completed, failed or interrupted, or by the text of the failure that kept it from having one |
| `CodexResults.StartEndsExactly` | internal/codex/session.go:320-332 | taking that answer ends the session if and only if it carries no turn or one that is over; on any other the loop goes on unchanged |
| `CodexResults.TellingAlways` | internal/codex/session.go:286-332 | in every run status, error text, stop reason and session ID of a result are, word for word, those of what ended the session, with the latest error told and the error of the exit |
| `CodexSources.StderrComplete` | internal/codex/client.go:455-482 | the stderr text is every line of stderr and every stdout line that did not parse, in the order read |
| `CodexSources.StderrReal` | internal/codex/client.go:455-482 | every stderr line queued for the session is a line that was read and is not blank |
| `CodexSources.ExitErrorExactly` | internal/codex/client.go:151-180 | once the exit is signalled the error on record is the one the process was reaped with, none without a process |
| `CodexSources.ThreadOpened` | internal/codex/session.go:142-145 | the thread in results and events is the one the session was opened with |
| `CodexSources.ResultTells` | internal/codex/session.go:510-587 | a published result goes back to a deciding step and a later publishing one: its stderr is what had been said by then, its context error that of the deciding step |
| `CodexSources.CrashTellsAll` | internal/codex/session.go:527-546 | a crash report carries all stderr ever said and the error the process was reaped with |
| `CodexRequests.RequestEndsSo` | internal/codex/client.go:214-251 | a request that returned did so by the one step its outcome names: a reply with its ID, a server error sent to it or made up after stdout ended, the exit with its error, its context, a failed or refused write |
| `CodexRequests.ReplyReaches` | internal/codex/client.go:409-424 | a response read reaches the call registered under its ID if that has no message yet, and nobody else |
| `CodexRequests.TurnIdAlways` | internal/codex/session.go:166-187 | the turn ID is that of the turn turn/start was answered with, and empty before |
| `CodexRequests.StartAsked` | internal/codex/session.go:155-188 | the call whose answer ends the session is the one its own goroutine made |
| `CodexRequests.CancelUnbroken` | internal/codex/session.go:219-234 | Cancel does nothing on a session that is done; else it takes one ID for an interrupt if the turn has an ID and the client is open, closes the client, and signals if and only if it was the first to close |
| `CodexInvariant.InvAlways` | internal/codex/client.go:66-90 | the whole invariant holds in every state of every run |
| `CodexInvariant.InvStep` | internal/codex/session.go:251-315 | every step of every actor keeps channel lifecycles, close signalling, call IDs, sweeping, notification order, text and result accounting |
| `CodexTypes.HandleStep` | internal/codex/session.go:375-442 | handling one notification moves text and last error to the fold over what was consumed, and ends the turn if and only if it completes this thread's |
| `CodexClient.Client.constructor` | internal/codex/client.go:138-148 | a fresh client has no pending request, both channels open and empty |
| `CodexClient.Client.BeginRequest` | internal/codex/client.go:218-227 | a closed client refuses and changes nothing; otherwise a new ID, not pending before, with an empty slot |
| `CodexClient.Client.EndRequest` | internal/codex/client.go:229-233 | the call's ID is no longer pending |
| `CodexClient.Client.SkipID` | internal/codex/client.go:259-267 | an ID is used up and nobody waits on it |
| `CodexClient.Client.Offer` | internal/codex/client.go:419-422 | a full slot keeps what it has |
| `CodexClient.Client.RouteResponse` | internal/codex/client.go:412-423 | an unknown ID changes nothing, a known one fills only its own empty slot |
| `CodexClient.Client.FailPending` | internal/codex/client.go:438-450 | nothing stays pending, every call that was has a message, no earlier message is lost, other slots are untouched |
| `CodexClient.Client.Close` | internal/codex/client.go:332-344 | only the first close signals |
| `CodexClient.Session.Emit` | internal/codex/session.go:562-567 | an event is delivered if there is room and dropped otherwise |
| `CodexClient.Session.HandleNotification` | internal/codex/session.go:375-421 | text grows by the notification's part of the answer, the error by its message, the turn ends only on its own thread's completion, at most one event goes out |
| `CodexClient.Session.HandleItem` | internal/codex/session.go:426-503 | text is added on completion only, once, and only for messages and reviews |
| `CodexClient.Session.EmitMessage` | internal/codex/session.go:444-452 | blank content is dropped, other content emitted, and counted when completed |
| `CodexClient.Session.DrainRemaining` | internal/codex/session.go:349-371 | what is taken is a prefix of the queue, folded into text and error, up to the first completion of the thread; with the channel closed the queue ends empty unless there was one |
| `CodexClient.Session.ExitedResult` | internal/codex/session.go:338-343 | a crash result carrying all queued text and the last error if nothing queued completed the turn, else the first completion's result with the text and error queued before it |
| `CodexClient.Session.Finish` | internal/codex/session.go:572-587 | the completed result is stored, events closed unchanged, done set, the client closed |
| `JsonDelta.FindSentenceBreak` | internal/cli/jsondelta.go:140-156 | the loop finds the first whitespace that follows a terminator, closing marks aside, or 0 |
| `JsonDelta.JsonEmitter.FindBreak` | internal/cli/jsondelta.go:113-132 | the index to cut at: sentence, then last space past the soft limit, then the hard limit |
| `JsonDelta.JsonEmitter.FlushFirst` | internal/cli/jsondelta.go:91-99 | the first n bytes go out under the running kind and agent, the rest stays |
| `JsonDelta.JsonEmitter.FlushBuffer` | internal/cli/jsondelta.go:83-88 | the whole buffer goes out, an empty one sends nothing |
| `JsonDelta.JsonEmitter.AddText` | internal/cli/jsondelta.go:64-78 | raw mode emits at once; a change of kind or agent flushes first; at most one cut |
| `JsonDelta.JsonEmitter.Parts` | internal/cli/jsondelta.go:170-207 | the loop does the operations of all parts in order and leaves the dedup flag they leave |
| `JsonDelta.JsonEmitter.Run` | internal/cli/cli.go:1896-1954 | the loop over a run's events and its end: message_start at the first content, the parts of every event in order, a flush before the last event of every ending but a failure |
| `JsonDeltaTheorems.GroupedRefinesRaw` | internal/cli/jsondelta.go:59-98 | for every event stream grouped and raw mode flatten to the same sequence of bytes and tool events: nothing lost, repeated, moved across a tool event or between reasoning and reply |
| `JsonDeltaTheorems.RunRefinesRaw` | internal/cli/cli.go:1904-1954 | a whole run says in grouped mode what it says in raw mode if and only if it does not fail with text held back; then exactly that text is lost |
| `JsonDeltaTheorems.FailedRunLosesText` | internal/cli/cli.go:1907-1915 | a run of one chunk without a break that fails has lost the chunk in grouped mode |
| `JsonDeltaTheorems.OneByteIsHeld` | internal/cli/jsondelta.go:113-132 | any single byte is such a chunk |
| `JsonDeltaTheorems.DeltasWellFormed` | internal/cli/jsondelta.go:91-132 | if every chunk is well-formed UTF-8 (RFC 3629 section 4), so is every delta |
| `JsonDeltaTheorems.CutsAtBoundaries` | internal/cli/jsondelta.go:113-132 | for every event stream, a delta that the next event goes on with, so that no flush forced it out, ends in whitespace or is at least 360 bytes long |
| `JsonDeltaTheorems.TextCutsWell` | internal/cli/jsondelta.go:64-78 | a text sends nothing of the buffer it joined, or one prefix of it that ends in whitespace or is at least 360 bytes long, whatever follows |
| `JsonDeltaTheorems.SmallChunksSettle` | internal/cli/jsondelta.go:19-22 | with chunks under 180 bytes and at most one whitespace byte each, the buffer never holds a pending break or 360 bytes |
| `JsonDeltaTheorems.OneCutPerText` | internal/cli/jsondelta.go:74-77 | with a sentence end in the joined buffer exactly the first sentence goes out, whatever follows |
| `JsonDeltaTheorems.CutsAtLastSpace` | internal/cli/jsondelta.go:121-125 | with no sentence end and 180 bytes or more the text up to the last space, the first byte aside, goes out and the rest stays |
| `JsonDeltaTheorems.CutsWholeBuffer` | internal/cli/jsondelta.go:126-131 | with no sentence end, no such space and 360 bytes or more the whole buffer goes out |
| `JsonDeltaTheorems.HoldsBack` | internal/cli/jsondelta.go:118-131 | in every other case without a sentence end nothing goes out |
| `JsonDeltaTheorems.SentenceEndExactly` | internal/cli/jsondelta.go:140-156 | a sentence ends at whitespace behind a terminator with any number of closing marks |
| `JsonDeltaTheorems.ByteClasses` | internal/cli/jsondelta.go:158-166 | the bytes that count as whitespace, terminators and closing marks |
| `JsonDeltaTheorems.RawIsOneEach` | internal/cli/jsondelta.go:64-68 | raw mode gives one event per operation, each chunk as it came |
| `JsonDeltaTheorems.OpeningIsFirst` | internal/cli/cli.go:1935-1944 | message_start is that of the first event with content |
| `JsonDeltaTheorems.PartAsks` | internal/cli/jsondelta.go:170-206 | which text, call and result a part asks for, in which order and under whose name, and when it sets the flag |
| `JsonDeltaTheorems.FinishedSentenceLeftExactly` | internal/cli/jsondelta.go:134-156 | after a text a finished sentence stays in the buffer if and only if the joined buffer held two sentence ends, that is, its first break was not its last |
| `JsonDeltaTheorems.TwoSentences` | internal/cli/jsondelta.go:134-140 | two sentences in one chunk leave the second, finished, in the buffer |
| `Utf8.CutAfterAscii` | internal/cli/jsondelta.go:121-125 | cutting well-formed UTF-8 after an ASCII byte leaves two well-formed strings |
| `StreamDedup.StreamDedup.BeginEvent` | internal/agent/eventstream.go:72-79 | only an event with content of a role other than model or thinking clears the flag |
| `StreamDedup.StreamDedup.SkipText` | internal/agent/eventstream.go:86-95 | partial text is shown and sets the flag; whole text is skipped if and only if the flag is set |
| `DedupTheorems.TurnsShownOnce` | internal/agent/eventstream.go:43-79 | every turn's text is shown exactly once, in its place among the turn's reasoning, if and only if no turn that comes only whole follows a streamed one with no outside event between |
| `DedupTheorems.BareTurnLost` | internal/agent/eventstream.go:68-71 | a streamed turn followed by one that comes only whole is such a stream |
| `DedupTheorems.PartialTextShown` | internal/agent/eventstream.go:81-95 | for every event stream partial text is never suppressed |
| `ToolNames.Sanitize` | internal/agent/toolnames.go:164-185 | the loop gives every rune made acceptable, underscore runs collapsed, edges trimmed |
| `ToolNames.TrimLeftSuffix` | internal/agent/toolnames.go:190-195 | trimming leaves the longest end of a name that does not start with a trimmable byte |
| `ToolNames.TruncateExactly` | internal/agent/toolnames.go:190-195 | a name that fits is left alone; of a longer one the last 64 bytes are kept, less the trimmable bytes they start with |
| `ToolNames.CandidateEnds` | internal/agent/toolnames.go:74-75 | a candidate ends in its own number even when truncation eats the whole wanted name |
| `ToolNames.CandidatesDiffer` | internal/agent/toolnames.go:74-75 | different numbers give different candidates |
| `ToolNames.SearchBound` | internal/agent/toolnames.go:74-80 | when the candidates below n are all taken, n is at most the number taken plus 2 |
| `ToolNames.FirstFree` | internal/agent/toolnames.go:74-80 | the search ends within the number taken plus one candidates at the first free one |
| `ToolNames.Claimed` | internal/agent/toolnames.go:67-81 | a name given was free, is the one wanted if and only if that was free, and any other is at most 64 bytes |
| `ToolNames.NameClaims.Claim` | internal/agent/toolnames.go:67-81 | claim returns that name, and takes it and nothing else |
| `ToolNames.NewName` | internal/agent/toolnames.go:133-149 | a tool keeps its own name if and only if that was free; any other is free and at most 64 bytes |
| `ToolNames.DedupedToolset.NameFor` | internal/agent/toolnames.go:133-149 | a name given earlier is returned and nothing changes; otherwise the new name is remembered and taken |
| `ToolNames.DedupedToolset.Tools` | internal/agent/toolnames.go:110-126 | the list is the names of the tools that are not nil, in order; earlier names are kept, new ones were free |
| `ToolNames.DedupeToolsets` | internal/agent/toolnames.go:37-55 | every toolset that is not nil is wrapped, in order, all sharing one set of claims that starts as the built-in names |
| `ToolNameRuns.NameForIsTwoSteps` | internal/agent/toolnames.go:133-149 | check and claim left alone give exactly nameFor |
| `ToolNameRuns.NamesUnique` | internal/agent/toolnames.go:57-88 | however checks and claims of toolsets interleave, names given are pairwise distinct, distinct from the built-ins, and the tool's own or at most 64 bytes |
| `ToolNameRuns.NamesStable` | internal/agent/toolnames.go:90-101 | a name once given never changes |
| `ToolNameRuns.ListUnique` | internal/agent/toolnames.go:110-126 | distinct tools are listed under distinct names, also when other toolsets claim meanwhile |
| `ToolNameRuns.SanitizedExactly` | internal/agent/toolnames.go:162-185 | sanitized names hold accepted characters, no underscore run, no underscore at an edge; and exactly such names are left alone |
| `ToolNameRuns.OwnNameKept` | internal/agent/toolnames.go:187-195 | the tool's own name survives truncation if and only if it fits and is not trimmed |
| `ToolNameRuns.OwnNameLost` | internal/agent/toolnames.go:187-195 | a name that fits and loses its first byte |
| `ToolNameRuns.EmptyNameExactly` | internal/agent/toolnames.go:154-160 | a fallback name is empty if and only if it is too long and its last 64 bytes are all trimmable |
| `ToolNameRuns.NameLost` | internal/agent/toolnames.go:154-160 | names that leave the tool without one |
| `ToolNameForms.FittedExactly` | internal/agent/toolnames.go:190-195 | truncation by literal bytes: a name of at most 64 bytes is kept, of a longer one the last 64 less the leading _ - and .  |
| `ToolNameForms.DecimalExactly` | internal/agent/toolnames.go:75 | the number of an alternative is written in decimal without leading zeros |
| `ToolNameForms.ClaimedExactly` | internal/agent/toolnames.go:64-82 | claim gives the wanted name if it is free, and else the wanted name with an underscore and the first number from 2 on that is free, cut to fit; that number is at most two above the names taken |
| `ToolNameForms.SanitizedIsWords` | internal/agent/toolnames.go:162-185 | a sanitized name is the words of the name joined by single underscores |
| `ToolNameForms.PrefixedExactly` | internal/agent/toolnames.go:154-160 | a prefixed name is the words of the toolset, or mcp, an underscore and the name, cut to fit |
| `ToolNameForms.NewNameExactly` | internal/agent/toolnames.go:133-149 | a tool gets its own name if that is free, else its prefixed name if that is free, else the first free alternative to it |
| `ToolNameForms.RenamedExactly` | internal/agent/toolnames.go:133-149 | in every interleaving a tool is renamed if and only if a built-in has its name or another tool was given it |
| `ToolNameForms.NamesExplained` | internal/agent/toolnames.go:64-149 | in every interleaving each name given was claimed at one step, for the own name or, if that was taken, for the prefixed one |
| `ToolNameForms.BuiltinsExactly` | internal/agent/toolnames.go:41-46 | the names taken at first are those of the tools that are not nil |
| `ToolNameForms.PresentExactly` | internal/agent/toolnames.go:47-54 | the toolsets wrapped are all that are not nil, in order |
| `ToolNameForms.ListedExactly` | internal/agent/toolnames.go:110-126 | the k-th name listed is the one assigned to the k-th tool that is not nil |
| `Retry.Consumer.Yield` | internal/agent/retry.go:105-107 | one more item seen; must not be called once it has answered false |
| `Retry.RunAttempt` | internal/agent/retry.go:100-113 | the attempt's outcome; with a transient error the consumer has not stopped |
| `Retry.RetryLoop` | internal/agent/retry.go:62-94 | the items seen, the retries announced and the calls made are those of the whole retried run |
| `Retry.AttemptForwards` | internal/agent/retry.go:100-113 | an attempt offers its run up to the transient error, and to a consumer that took everything reports that error and whether an event came before it |
| `Retry.HearsOffered` | internal/agent/retry.go:62-94 | a consumer that may stop sees what one that never stops is offered, cut after its first refusal |
| `Retry.NeverAskedAfterRefusal` | internal/agent/retry.go:105-107 | yield is never called again after it answered false |
| `Retry.OneAttemptDelivers` | internal/agent/retry.go:70-74 | all events delivered come from the last attempt made and are a prefix of that run's |
| `Retry.AttemptMadeExactly` | internal/agent/retry.go:63-90 | attempt j is made if and only if every earlier one failed transiently before any event, with a retry left and an undisturbed pause, and the consumer accepted all they offered |
| `Retry.CallsAndNotices` | internal/agent/retry.go:76-94 | at most MaxRetries+1 calls, none for a negative limit; each retry announced once with consecutive numbers, and one more only when its pause is cut short |
| `Retry.SilentBefore` | internal/agent/retry.go:36-42 | nothing was delivered before attempt j if and only if every earlier one began with its transient error |
| `Retry.ErrorDeliveredTwice` | internal/agent/retry.go:36-42 | an error without an event can be delivered twice |
| `RetryTransient.NoTransientNoRetry` | internal/agent/retry.go:100-113 | a first run without a transient error is one call, no announcement, and every item of it, errors among them, is handed on |
| `RetryTransient.RetriedOnTransientExactly` | internal/agent/retry.go:63-90 | attempt j is made if and only if every run before broke off at a transient error with no event before it, a retry was left, the pause was not cut short, and the consumer took everything |
| `RetryTransient.OffersClean` | internal/agent/retry.go:63-69 | a run without a transient error is offered whole and ends the call |
| `RetryTransient.OffersBroken` | internal/agent/retry.go:70-94 | of a run that breaks off at a transient error the items before it are offered; the error follows wrapped, or the cancellation, or the next run |
| `RetryTransient.TransientWithheld` | internal/agent/retry.go:30-42 | the consumer never gets a transient error as it was: at most one, wrapped, comes last |
| `HiddenChars.IsEmoji` | internal/audit/scanner.go:86-93 | the loop over the ranges decides whether some range holds the rune |
| `HiddenChars.EmojiNotHidden` | internal/audit/chars.go:35-116 | no emoji is in the character table |
| `HiddenChars.ScanText` | internal/audit/scanner.go:97-153 | one finding per reported rune, in order, with its line and column counted from the newlines before it; the ASCII shortcut agrees |
| `HiddenChars.StripDangerous` | internal/audit/scanner.go:216-248 | the loop keeps exactly the runes the strip keeps |
| `HiddenChars.CountBySeverity` | internal/audit/scanner.go:48-60 | the counts of the three severities |
| `HiddenChars.Classify` | internal/audit/scanner.go:279-287 | a highest severity: none is higher, and it is found or there is nothing above info |
| `HiddenChars.PassesAgree` | internal/audit/scanner.go:97-248 | a rune is stripped if and only if the scan reports it at warning or above |
| `HiddenChars.SameVerdict` | internal/audit/scanner.go:216-248 | a rescan makes of every kept rune what the first scan made of it, though its neighbours may have changed |
| `HiddenChars.RescanIsClean` | internal/audit/scanner.go:216-248 | after stripping a rescan finds nothing at warning or above and as many infos as before |
| `HiddenChars.StripIsFinal` | internal/audit/scanner.go:216-248 | stripping twice is stripping once |
| `HiddenChars.ChangesExactly` | internal/audit/scanner.go:252-263 | stripping changes the text if and only if the scan has a finding at warning or above |
| `HiddenChars.RawChangesExactly` | internal/audit/scanner.go:216-263 | stripping raw bytes changes them if and only if the decoded text has a finding at warning or above or the bytes are not well-formed |
| `HiddenChars.ScanFile` | internal/audit/scanner.go:156-178 | a file that is not UTF-8 is one critical finding, any other is scanned as text, an unreadable one is an error |
| `HiddenChars.File.StripFile` | internal/audit/scanner.go:252-276 | an unchanged file is left alone; a changed one is backed up first and then holds the stripped text; a failed backup leaves the file, a failed write leaves anything or nothing |
| `HiddenChars.FileChangesExactly` | internal/audit/scanner.go:156-263 | stripping changes a file if and only if scanning it finds something at warning or above |
| `HiddenChars.StrippedFileIsClean` | internal/audit/scanner.go:156-276 | a file once stripped scans clean and is not changed again |
| `HiddenChars.RemovesWhatIsCounted` | internal/audit/scanner.go:48-60 | the runes removed are as many as the critical and warning findings |
| `HiddenCharsTheorems.TableExactly` | internal/audit/chars.go:35-116 | the code points of each kind and its severity |
| `HiddenCharsTheorems.EmojiExactly` | internal/audit/scanner.go:72-93 | the code points that count as emoji |
| `HiddenCharsTheorems.ReportedExactly` | internal/audit/scanner.go:119-139 | how a rune is judged where it stands: a joiner with emoji on both sides and a mark at the very start are info, any other by its kind |
| `HiddenCharsTheorems.ScanExactly` | internal/audit/scanner.go:97-153 | one finding for each hidden character, in text order, with the number of newlines before it, its distance from the line start, and its verdict |
| `HiddenCharsTheorems.StripExactly` | internal/audit/scanner.go:216-248 | stripping leaves exactly the runes that, by code point and neighbours, survive, in order |
| `HiddenCharsTheorems.JoinersStand` | internal/audit/scanner.go:229-237 | every joiner of a stripped text has an emoji on both sides |
| `HiddenCharsTheorems.JoinersSurvive` | internal/audit/scanner.go:229-237 | a joiner between two emoji stays, between the same two |
| `HiddenCharsTheorems.MarkOnlyFirst` | internal/audit/scanner.go:239-243 | a stripped text has a byte order mark at its start or nowhere, and one at the start stays |
| `HiddenCharsTheorems.CountExactly` | internal/audit/scanner.go:48-60 | a count is how often its severity occurs among the findings |
| `HiddenCharsTheorems.BadByteReplaced` | internal/audit/scanner.go:216-248 | a byte that is not UTF-8 is one replacement character in the stripped file |
| `DanglingCalls.DanglingResponses` | internal/agent/dangling_calls.go:50-78 | the loops give one synthetic response per unanswered call, in call order |
| `DanglingCalls.Agent.RepairDanglingCalls` | internal/agent/dangling_calls.go:30-46 | on success the history is the repaired one, on failure unchanged, and which error comes when |
| `DanglingCalls.Agent.Run` | internal/agent/agent.go:801-832 | hook, repair, dispatch; a failure of either keeps the runner from being dispatched |
| `DanglingCalls.RepairMakesWhole` | internal/agent/dangling_calls.go:30-46 | the repair only appends, adds no calls, answers every call, and does nothing if and only if all were answered |
| `DanglingCalls.RepairTwice` | internal/agent/dangling_calls.go:38-41 | a second repair appends nothing |
| `DanglingCalls.AnswersInCallOrder` | internal/agent/dangling_calls.go:66-77 | the k-th response answers the k-th unanswered call, each as often as it was made |
| `DanglingCalls.AnsweredAgainExactly` | internal/agent/dangling_calls.go:57-64 | a call with a response on record is answered again if and only if every such response shares its part with a call |
| `DanglingCalls.AnsweredOnceUnlessShared` | internal/agent/dangling_calls.go:48-64 | as long as no part holds both, exactly the calls without a response are answered |
| `DanglingCalls.SharedPartAnsweredAgain` | internal/agent/dangling_calls.go:57-64 | a part that holds a call and its response: the call is answered again |
| `DanglingCalls.DispatchedWhole` | internal/agent/agent.go:801-824 | over every run of turns cut off anywhere, with hooks that rewrite the history at will, the runner is dispatched only on histories whose calls all have a response |
| `DanglingCalls.NothingLost` | internal/agent/dangling_calls.go:15-29 | while hooks only append, nothing recorded is ever lost |
| `DanglingCalls.TurnExactly` | internal/agent/agent.go:801-832 | the runner is dispatched if and only if hook and repair succeed, and each failure is reported as its own and leaves what the hook left; the repair appends one event of the agent if calls were open and none else |
| `DanglingCalls.PartsExactly` | internal/agent/dangling_calls.go:52-56 | the parts looked at are those of all events with content |
| `DanglingCalls.CallsExactly` | internal/agent/dangling_calls.go:57-59 | the calls looked at are those of all these parts |
| `DotEnv.UpdateEnvVar` | internal/auth/auth.go:1017-1043 | the loop's result is the text with the key's lines replaced or one appended, empty lines before the first dropped, and the last line ended |
| `DotEnv.Process.LoadDotEnvFile` | internal/cli/cli.go:2142-2163 | the environment after loading is the fold of the lines' settings; an unreadable file changes nothing |
| `DotEnv.Process.Setenv` | internal/cli/cli.go:2161 | an empty key or a zero character changes nothing |
| `DotEnv.WrittenLoads` | internal/auth/auth.go:1018-1024 | a written line loads as its key and value if and only if both are clean |
| `DotEnv.RoundTripExactly` | internal/auth/auth.go:1017-1043 | loading the updated text gives the old map with only the key set to the value if and only if no line after the last literal one sets the key otherwise; other keys never change |
| `DotEnv.OtherSpellingWins` | internal/auth/auth.go:1022-1029 | for any key and values another spelling below the literal line wins |
| `DotEnv.WritingSettles` | internal/auth/auth.go:1031-1042 | writing three times equals writing twice, and once is enough if and only if the text had the key, was empty, or ended its last line |
| `DotEnv.SettlesLate` | internal/auth/auth.go:1031-1036 | any line of another key without a final newline changes again the second time |
| `DotEnv.UpdateFixedExactly` | internal/auth/auth.go:1022-1042 | a text stays as it is if and only if it ends its last line, has the key at the value everywhere and no empty line before it |
| `DotEnvForms.LoadedExactly` | internal/cli/cli.go:2147-2162 | a line sets a key to a value if and only if, spaces around both and around the line aside, it is key=value, the key no comment and both fit to be set |
| `DotEnvForms.LastLineCounts` | internal/cli/cli.go:2147-2162 | of the lines that set a key the last one counts, and a key no line sets keeps its value |
| `DotEnvForms.UpdatedExactly` | internal/auth/auth.go:1017-1043 | from the first literal line on every line is kept or set, the empty ones before it go; without one the key is appended, behind an empty line if the text did not end its last line |
| `Atif.ConvertEvent` | internal/atif/convert.go:14-45 | at most one step, built part by part, none when nothing was in it |
| `Atif.Writer.Flush` | internal/atif/writer.go:160-195 | a successful flush writes the trajectory as it is and counts once |
| `Atif.Writer.AppendEvent` | internal/atif/writer.go:69-82 | the event's step is appended and flushed; an event without a step changes nothing |
| `Atif.Writer.AppendEvents` | internal/atif/writer.go:96-118 | all steps appended, one flush at the end if there were any |
| `Atif.Writer.SetSubagentRef` | internal/atif/writer.go:123-139 | the loops set the reference of the first match in the latest matching step |
| `Atif.Writer.Close` | internal/atif/writer.go:149-156 | a last flush unless there are no steps; an error if and only if that flush fails |
| `AtifTheorems.StepsNumbered` | internal/atif/writer.go:69-118 | in every reachable state step i has ID i+1 and the counter is the length plus one |
| `AtifTheorems.BatchIsOneByOne` | internal/atif/writer.go:84-118 | a batch gives the trajectory its events one by one give, with at most one flush, and the same file when no flush fails |
| `AtifTheorems.ConversionKeeps` | internal/atif/convert.go:14-81 | a step holds every call, result and visible text of its event, in order; an event gives no step if and only if it has none |
| `AtifTheorems.NothingLost` | internal/atif/convert.go:14-81 | after any operations the calls, results and texts of the steps are those of all events appended, in order, references aside; so the tool-call IDs are conserved |
| `AtifTheorems.RefChangesOneResult` | internal/atif/writer.go:120-139 | setting a reference changes only the first matching result of the latest matching step, and in it only the reference |
| `AtifTheorems.FileHolds` | internal/atif/writer.go:84-95 | while no flush fails the file holds every step appended |
| `AtifTheorems.SourceExactly` | internal/atif/convert.go:83-117 | a step is from the user, the agent or the system by author, role in any case, or a stopped turn with visible text, and in no other case |
| `AtifTheorems.StepHeader` | internal/atif/convert.go:19-23 | a step has the given number, its event's time and source, and parts for a message only with more than one text |

## Left out

- Process spawning, signals, JSON encoding and decoding, the stdin write (one atomic step that may fail), and the reply to a server request.
- Fairness of the Go scheduler: progress is stated as which actor can move next and which measure falls; `CodexWindDown` bounds every run once a close has signalled, the process is gone and no more lines come in.
- startSession's own thread/start request: a session may open at any time with any thread ID, which covers every outcome of it.
- The wording of the tool progress lines of emitToolItem: the event carries the item itself.
- CodexResults.StartEndsSo: the texts are those of turn/start; review/start differs in the method's name only.
- Session log calls, and JSON marshalling of tool results in the emitter.
- CodexClient.Session.DrainRemaining: takes the queues as they are when it runs; that nobody adds to them after the exit is `ExitFreezes`.
- Retry.RetryLoop: each attempt yields a finite sequence; a run that never ends is covered up to any point its consumer stops it.
- Transient-error classification and retry delays: a free predicate and a free answer of each pause.
- ToolNames.NameClaims.Claim: assumes fewer names than a Go int counts, which no map exceeds.
- The renamed tool wrapper, and errors of an inner toolset's own listing, which change no name.
- Malformed UTF-8 in tool names: names are byte strings, and the toolset's name is its decoded runes.
- Discovery of skill directories, the confirmation dialogue and report formatting of the audit.
- The text of the character descriptions: a kind per group of the table instead.
- What compaction does in the pre-turn hook, and session storage: the hook is an arbitrary function of the history.
- Other sessions or processes appending between the repair's read and its append.
- DotEnv.RoundTripExactly: keys and values are those clean enough to be written on one line and read back; `WrittenLoads` shows no others can be.
- Atif.ConvertEvent: parts that are nil, timestamps' formatting, and letters outside ASCII that fold to none inside it.
- JsonDelta.JsonEmitter.Run: title, usage counting and the warning on an empty run; the events it is given are those not nil and without a provider error.
- Trajectory header fields, temporary files and the rename: a flush either writes the trajectory or fails.
- Provider, OAuth, Sigstore, terminal and command-line plumbing: wrappers over libraries.
- Token pricing, option overlays and rate-limit precedence: single branches or floating point.
