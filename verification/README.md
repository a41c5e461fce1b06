# The agent kernel of OryxOS, modelled and proved in Dafny

OryxOS runs an agent as a loop: build a prompt from a session, ask a model, execute the tools it asks for, repeat.
Around that loop stand two audit ledgers, a streaming wrapper, a validator for tool arguments, and the start-up,
shutdown, publication and binding protocols of the process. This project models that kernel and proves what it keeps
over every run, whatever models, tools, ledgers, file systems, clocks and other goroutines answer.

`dafny verify dfyconfig.toml` checks everything.

## How the model is built

- **Outside world.** Models, tools, ledgers, clocks, cancellation, components, readers and the file system answer
  anything. Each answer is an arbitrary value, and the answers that matter are kept as events of a trace. A theorem
  about traces is therefore a theorem about every schedule of answers and faults.
- **Runs.** `Audit.Track` reads a trace as a state machine of the protocol (check, prompt, model call, ledger row,
  tool calls). `ReactLoop.Run` is the imperative loop and is proved to produce only traces that follow it; the
  theorems in `Audit` and `Runs` are about all such traces. `Stream`, `Application` and `Executor` are built the same
  way: the methods are tied to a description of what they did, and the theorems are about all descriptions.
- **Streams.** The upstream of an audited stream and the reader of a connector may answer anything, and each keeps
  what was done with it. `Stream.AuditedStream.log` grows at each effect; between calls it agrees with the upstream's
  own record and with the description of the calls.
- **Conversation grammar.** A session is a sequence of turns. A turn is a user message and then blocks, each a model
  message followed by the results of its tool calls, in order and matched by id and name. Results may be missing only
  at the end of a turn, where a run stopped. `Conversation.Accepts` is a one-pass acceptor, `Grammatical` says the
  same by positions, and the two are proved equal.
- **Racing goroutines.** `Registry` lets other goroutines make any number of their own moves before each critical
  section. `WebServer` is a step system with any number of calls of Start and Close.
- **Racing initialisers.** `Race` is a step system in which any number of calls create workspace files at once: each
  file-system operation is a step that may fail, writes may be short, a call may crash anywhere, and a hard link gives
  an inode a second name. That files are always absent, untouched or complete, and that at most one call reports a
  file created, are theorems about all its runs. `Disk` and `Workspace` are the methods of one initialiser; before
  each operation others may move. `Race.StepIsMove` proves that the steps of other calls are such moves, the `Own`
  lemmas of `Disk` prove that this initialiser's steps are moves the others reckon with, and `Disk.moments` keeps
  every moment of an actual run. A crash is a run whose every later operation fails without effect.
- **Memory.** `Payloads` and `Ownership` model payload maps and lists as cells at addresses, so that aliasing and
  mutation can be spoken of. `Session` sees the same messages as values.
- **Texts** are sequences of characters, one for each rune. JSON encoding and decoding, redaction and chunk conversion
  are arbitrary functions.
- Long functions of the source are split into several methods (`Build`/`Fit`,
  `Run`/`Iterate`/`Respond`/`ExecuteCalls`, `Execute`/`Admit`/`RunAttempts`/`RecordInvocation`,
  `CreateFile`/`FillTemp`/`Publish`); the order of effects is the source's.

Assumptions made explicit: the model never answers in the user's or a tool's role (`Audit.RolesKept`), errors from
outside do not answer the marker `ModelResponseAvailable` positively (stated where needed), one run at a time per
session, and Serve returns once Shutdown or Close was called.

## Findings

- Copying a session payload is not always the identity (internal/session/session.go:76-117): a nil list comes back
  empty, an empty list of strings comes back nil, and a nil tool call list comes back empty. `Payloads.CopiedExactly`
  and `Ownership.CopiedMessageExactly` give the exact condition; what is already in a session meets it.
- The argument validator is stricter than JSON Schema 2020-12 (internal/tool/schema.go:129-140 and 191-198): `1.0` is
  refused as an integer and as the enum choice `1` (`Schema.StricterThanStandard`). It is sound for all values, and it
  accepts exactly the valid values in which every number at an integer place is written as a plain decimal of 64 bits
  and every value equal to an enum choice also stands among the choices as written
  (`Schema.ConformsIffValidAndWritten`).
- A second `Run` of one `Application` starts components that nobody closes, because shutdown happens once
  (internal/app/application.go:153-181; `Application.ClosesWhatStarted`, and `Application.LaterRunLeaks` for one
  component).
- `totalPages` (internal/web/api/pagination.go:81-87) is the ceiling exactly when the total is not negative or divides
  evenly (`Pagination.TotalPages`); its caller checks the former (internal/web/api/result.go:80).
- A rerun of workspace initialisation succeeds exactly when every entry that is there has its shape; the one thing a
  failed run can leave in the way is a directory whose mode could be neither set nor undone
  (cmd/oryxos/workspace.go:188-195; `Workspace.GrownRecoverable`).

## Model

| member | source | states |
|---|---|---|
| Conversation.AcceptsIffGrammatical | internal/runtime/react_loop.go:72-105 | the one-pass acceptor accepts exactly the conversations in which every tool result stands in order under its own call and every model message follows a question or a fully answered block |
| Conversation.SuffixScan | internal/runtime/prompt_builder.go:241-270 | cutting an accepted conversation at a user message leaves an accepted one that stands at the same place |
| Conversation.AcceptsConcat | internal/runtime/react_loop.go:72-105 | a turn opened by a user message may follow any accepted conversation, also one left with unanswered calls |
| Conversation.WellOwnedConcat | internal/runtime/prompt_builder.go:133-137 | putting message lists one after the other makes no tool result an orphan |
| Window.FullWindowIsLongest | internal/session/session.go:45-66 | a user-rooted suffix that uses up the turn limit, or has every turn, is the longest one within the limit |
| Window.LongestWindowUnique | internal/session/session.go:45-66 | the limit determines the window, so the prompt's turn window and RecentTurns agree |
| Window.LongerHasMoreTurns | internal/runtime/prompt_builder.go:258-270 | of two user-rooted suffixes the longer has strictly more turns |
| Window.DropStep | internal/runtime/prompt_builder.go:258-270 | dropping the oldest turn skips no user-rooted suffix in between |
| Window.LessRoomKeepsSuffix | internal/runtime/prompt_builder.go:133-145 | with less room the best window is a user-rooted suffix of the best window with more room |
| Window.WindowAccepted | internal/runtime/prompt_builder.go:241-256 | every user-rooted suffix of an accepted conversation is accepted and has no orphan results |
| Window.RunesConcat | internal/runtime/prompt_builder.go:272-302 | rune counts add up over concatenation |
| PromptBuilder.SplitCurrentTurn | internal/runtime/prompt_builder.go:227-239 | the current turn starts at the last user message with the content, and is that message alone when there is none |
| PromptBuilder.SplitAtOpenTurn | internal/runtime/prompt_builder.go:227-239 | within a run the split is exactly where the run began, even when earlier turns asked the same |
| PromptBuilder.LimitCompleteTurns | internal/runtime/prompt_builder.go:241-256 | the longest user-rooted suffix with at most so many turns |
| PromptBuilder.DropOldestCompleteTurn | internal/runtime/prompt_builder.go:258-270 | the longest user-rooted suffix with one turn less |
| PromptBuilder.MessagesRuneCount | internal/runtime/prompt_builder.go:272-302 | the sum of all texts, tool calls and payload encodings of all messages |
| PromptBuilder.SystemContent | internal/runtime/prompt_builder.go:110-119 | the six sections in order, each under its label with its own text; the identity is the profile's and the persona's texts that are not blank, one to a line |
| PromptBuilder.RenderRunes | internal/runtime/prompt_builder.go:121-137 | a prompt's size is its protected part plus its history |
| PromptBuilder.RenderWellOwned | internal/runtime/prompt_builder.go:121-137 | a prompt has no orphan results when history and current turn have none |
| PromptBuilder.Fit | internal/runtime/prompt_builder.go:121-145 | the loop ends; it fails exactly when the protected context alone exceeds the budget, and otherwise the history shown is the longest user-rooted suffix within turn limit and budget |
| PromptBuilder.Build | internal/runtime/prompt_builder.go:76-146 | each refusal in its order; otherwise the prompt is the system text with each source under its own label, the history shown, the session's current turn in full and the clock, each under its marker; the history shown is the longest user-rooted suffix of the earlier conversation with at most the profile's number of turns, twenty when it names none, for which the whole prompt keeps to the budget |
| Session.Session.Append | internal/session/session.go:24-31 | the conversation grows by exactly the message |
| Session.Session.Messages | internal/session/session.go:34-41 | the whole conversation |
| Session.Session.RecentTurns | internal/session/session.go:45-66 | the longest user-rooted suffix with at most so many turns, the same window that prompts start from |
| Payloads.Memory.CloneValue | internal/session/session.go:102-117 | copying ends on finitely deep values; the copy is made of new cells only, has the contents of the source up to nil and empty, changes nothing that was there, and no new cell points to an old one |
| Payloads.Memory.CloneMap | internal/session/session.go:91-100 | the same for maps, whatever the order of iteration |
| Payloads.CopiedExactly | internal/session/session.go:102-117 | a copy equals its source exactly when the source has no nil list and no empty list of strings; a copy always has neither |
| Payloads.WritesElsewhere | internal/session/session.go:68-117 | what a value is made of decides its contents: writes to other cells do not change them |
| Ownership.CloneMessage | internal/session/session.go:76-89 | a message copy shares no cell with the source: not its call list, not an index pointer, not an extension map |
| Ownership.CopiedMessageExactly | internal/session/session.go:76-89 | a message copy equals its source exactly when nothing in it is nil or empty in the ways copying changes |
| Ownership.Session.Append | internal/session/session.go:24-31 | the session's contents grow by the contents of the message at that moment, in cells nobody else points to or holds |
| Ownership.Session.CopyFrom | internal/session/session.go:34-74 | what is handed out is made of new cells, says exactly what the session says, leaves the session unchanged, and gives callers hold of its call lists and extension maps but of nothing of the session |
| Ownership.Session.CallersWrite | internal/session/session.go:24-66 | whatever callers do with the references they hold and can follow, the session's contents stay the same, and they get hold of nothing of it |
| Ownership.CallersStayOut | internal/session/session.go:24-66 | who holds nothing of a region that nothing else points into can neither write in it nor come to point into it |
| Audit.ResponseKeptIffUnpersisted | internal/provider/service.go:83-88 | an error offers the kept response exactly when the model answered and its row was not written |
| Audit.ChatErrorTells | internal/provider/service.go:152-166 | a failed chat carries everything that failed, the call and the write of its row, under its prefix, and there is an error exactly when something failed |
| Audit.ExecuteErrorTells | internal/tool/executor.go:73-100 | the same of a failed tool call |
| Audit.HiddenStaysHidden | internal/provider/service.go:180-194 | nothing of a sensitive cause gets out: the returned errors are the same whichever it was |
| Audit.InvokedAfterRecord | internal/runtime/react_loop.go:82-104 | every tool invocation is of the next unanswered call of a response whose success row was written before, with no model call since |
| Audit.FailClosed | internal/runtime/react_loop.go:82-104 | nothing at all follows a failed ledger write in a run |
| Audit.OneRecordPerGeneration | internal/provider/service.go:82-89 | each model call is followed at once by its one ledger attempt with the same outcome, and each attempt is preceded by its call |
| Audit.GenerationsBounded | internal/runtime/react_loop.go:74-106 | a run makes at most the bound of model calls, and exactly the bound when it ends for iterations |
| Audit.RunKeepsGrammar | internal/runtime/react_loop.go:72-105 | in every phase of every run from an accepted conversation the session stands where the phase says |
| Provider.PrepareCall | internal/provider/service.go:102-131 | each refusal in its order before the model is asked; the resolver is asked once for a profile with tools that passed every check, and not at all otherwise, and its failure comes back wrapped and redacted |
| Provider.RecordOutcome | internal/provider/service.go:133-166 | one row: usage for success only, redacted message for failure only, stamped with the clock and with the elapsed milliseconds, never negative; and the error joins the lost row with the failed call |
| Provider.Chat | internal/provider/service.go:75-90 | one model call and then one row that names session, provider and model and how long the call took, or a refusal and neither; the response comes back with an error only when just its row was lost, and is empty after any other failure |
| Executor.AttemptsBounded | internal/tool/executor.go:131-157 | at most four attempts, and more than one only for a retryable, idempotent tool after retryable failures |
| Executor.AttemptsPersist | internal/tool/executor.go:131-157 | a further attempt is made, up to the fourth, after every failure whose first answer to the retry marker, however wrapped or joined, is to retry, unless the wait was interrupted |
| Base.RetryableFirst | internal/tool/executor.go:188-191 | whether an error is retryable is what the first of all its offers, from the outside in, answers |
| Base.ResponseFirst | internal/runtime/react_loop.go:109-112 | whether an error offers the kept response is what the first of all its offers, from the outside in, answers |
| Base.TrimExact | internal/tool/executor.go:62-62 | trimming takes away the white space at both ends and nothing else |
| Executor.AttemptsLogged | internal/tool/executor.go:142-155 | one invocation and one log line for each attempt, numbered from one, only the last final |
| Executor.AttemptsWaited | internal/tool/executor.go:151-151 | at most three waits, of 10, 20 and 40 milliseconds in this order, and every attempt but the last had one that ended |
| Executor.AttemptsStay | internal/tool/executor.go:131-157 | attempts neither move a run on nor say anything |
| Executor.RowAcceptedIff | internal/store/tool_invocation_repository.go:46-69 | the row that Execute writes is accepted by the store exactly when the session is named and the clock is not zero |
| Executor.ContainsExact | internal/tool/executor.go:179-186 | found exactly when listed |
| Executor.Admit | internal/tool/executor.go:103-129 | a call is admitted exactly when its tool is allowed, registered, implemented and timed, says its own name, and declares a supported schema that accepts the arguments; otherwise the first failing check answers |
| Executor.RunAttempt | internal/tool/executor.go:132-156 | one attempt, its wait and its log line; it goes on exactly when it failed, was eligible, and its wait ended |
| Executor.RunAttempts | internal/tool/executor.go:131-157 | the loop ends, and result and error are those of the last attempt |
| Executor.RecordInvocation | internal/tool/executor.go:64-100 | one row with the input, encoded unless it is JSON, the encoded result, the clock and the elapsed milliseconds, a redacted message for failure only; and the error joins tool failure and lost row |
| Executor.Execute | internal/tool/executor.go:54-101 | the attempts of a permitted call, or none, and then exactly one row, which says how long it all took |
| ReactLoop.ExecuteCalls | internal/runtime/react_loop.go:93-104 | results are appended in the order of the calls, the failing one included, each with what the tool put out last for its call, and the first failure ends the run |
| ReactLoop.Respond | internal/runtime/react_loop.go:82-104 | from a prompt the run goes where the protocol says, and the session holds its transcript |
| ReactLoop.Iterate | internal/runtime/react_loop.go:74-105 | one iteration advances the protocol by one round or stops it with the result |
| ReactLoop.Run | internal/runtime/react_loop.go:56-107 | a run's trace follows the protocol to its end and its result is the protocol's; the session grew by the user message and then, one for each in order, by the model's messages and under the id and name of each executed call a tool message with the last output of its tool, or nothing when the tool was not invoked; an answer is the content of the last message, which asks for nothing; and an accepted session stays accepted |
| ReactLoop.TranscriptRetained | internal/runtime/react_loop.go:88-100 | what a run leaves says, message for message, what the model answered and what the tools put out, unless an error from outside offers the marker |
| Runs.PromptShowsBest | internal/runtime/prompt_builder.go:121-145 | every prompt that a run builds shows the open turn in full and of the earlier conversation the longest user-rooted suffix within the profile's limit and the budget |
| Runs.PromptExplained | internal/runtime/prompt_builder.go:76-146 | what each prompt of a run is, given what its cancellation check, memory and clock answered: the refusal they bring about, the budget error exactly when the open turn leaves no room, or the best prompt |
| Runs.PromptSeesOutputs | internal/runtime/react_loop.go:78-100 | every prompt of a run is built from the conversation before it, the question, and what the run left so far, each tool message with what the tool put out for its call |
| Runs.RequestsWellOwned | internal/runtime/react_loop.go:78-82 | every prompt built from an accepted session has each tool result directly in the block that owns it |
| Runs.GeneratedFromPrompt | internal/runtime/react_loop.go:78-82 | every model request is the prompt built just before |
| Runs.LaterPromptKeepsSuffix | internal/runtime/prompt_builder.go:133-145 | later prompts of a run show a user-rooted suffix of the history earlier ones showed, when memory and clock texts do not shrink |
| Runs.OneUserPerRun | internal/runtime/react_loop.go:72-105 | a run adds no further user message |
| Runs.InvocationsSound | internal/tool/executor.go:107-135 | every invocation of a run is of an allowed tool, under the schema that the tool declared when it was last asked for this call, with arguments valid for that schema under the standard, authorised by a written success row |
| Runs.RowsAccepted | internal/store/tool_invocation_repository.go:46-69 | the store accepts every tool row of a run on a named session unless the clock shows zero |
| Runs.RowsHonest | internal/provider/service.go:133-160 | every row of a run is of its session, the rows of model calls name the profile's provider and model, and no row shows the text of a failure that is sensitive |
| Runs.HistoriesGrammatical | internal/runtime/react_loop.go:56-107 | any sequence of runs on a fresh session leaves a grammatical conversation; an answered run ends closed, and only a failed run leaves calls unanswered |
| Json.DecimalInjective | internal/tool/schema.go:191-198 | canonical digit strings are determined by their value |
| Json.PlainEqual | internal/tool/schema.go:129-140 | on canonical values the standard's equality is equality of text |
| Schema.ValidateSchema | internal/tool/schema.go:57-126 | accepts exactly the supported schema documents, whatever the order of map iteration |
| Schema.ValidateObjectSchema | internal/tool/schema.go:71-103 | the same for the keywords of object schemas |
| Schema.ValidateValue | internal/tool/schema.go:128-209 | for a supported schema no type assertion fails and exactly the conforming values are accepted, whatever the order of map iteration |
| Schema.ValidateObject | internal/tool/schema.go:144-171 | the same for required, undeclared and declared members |
| Schema.ValidateArguments | internal/tool/schema.go:20-36 | accepts exactly when the document decodes to a supported schema with an object at its root and the arguments decode to a value that conforms |
| Schema.ConformsIsValid | internal/tool/schema.go:128-209 | what the validator accepts is valid under JSON Schema 2020-12, keyword by keyword: type, enum, required, properties, additionalProperties and items |
| Schema.ConformsIffValidAndWritten | internal/tool/schema.go:128-209 | the validator accepts exactly the values that are valid and written as the integer and enum checks want |
| Schema.PlainValidConforms | internal/tool/schema.go:128-209 | on canonical 64-bit decimals acceptance and validity agree |
| Schema.StricterThanStandard | internal/tool/schema.go:191-198 | 1.0 is a valid integer and equals the choice 1, and both are refused |
| Schema.ArgumentsSound | internal/tool/schema.go:20-36 | accepted arguments are an object, valid under the standard for the tool's schema |
| Stream.AuditedStream.Recv | internal/provider/stream.go:54-90 | one more receive; everything it did at the stream's boundaries is in the log, which reads the upstream at most once and ends with the answer; a row is written exactly when it ended the stream |
| Stream.AuditedStream.Close | internal/provider/stream.go:92-111 | one more close in the log; it closes the upstream and writes a failure row exactly when the stream was open, and answers what the log says was told |
| Stream.AuditedStream.Fail | internal/provider/stream.go:113-118 | after one read a failure closes the upstream, then writes its row, and joins both errors |
| Stream.AuditedStream.CloseUpstream | internal/provider/stream.go:120-130 | the first call closes the upstream and keeps its answer, later calls leave it alone and answer the same |
| Stream.AuditedStream.ReadUpstream | internal/provider/stream.go:64-64 | reads the upstream exactly once, whatever stream it is; a connector's moves on by one pull |
| Stream.AuditedStream.Complete | internal/provider/stream.go:81-86 | after one read the upstream is closed and then the success row written; the response is told only when it was, and otherwise the failure of that write |
| Stream.AuditedStream.Settle | internal/provider/stream.go:64-90 | each kind of answer goes its way: a delta is passed on, a completed response completes, everything else fails with its own cause |
| Stream.ChatStream | internal/provider/stream.go:18-38 | a refusal writes nothing, a failed start exactly its one row, an opened stream nothing yet |
| Stream.RecordedOnce | internal/provider/stream.go:54-130 | over all calls: no outcome recorded and upstream not closed while open, exactly one of each afterwards |
| Stream.StreamsOrderly | internal/provider/stream.go:54-130 | over all calls: no read after the end or a close, one ending, deltas as read; a completed response is told only right after its success row was written, and a written success row is followed by it; an error told at the end carries everything that failed, the stream, the close of the upstream and the write of the row; after the end end of file, after a close closed pipe, and every close answers the same |
| Stream.AuditedStream.AlwaysOrderly | internal/provider/stream.go:54-130 | at any time between calls both hold of what really happened: the log kept where the upstream is read and closed, rows are written and answers told; and the upstream, of any kind, was used exactly as that log says |
| EinoStream.EinoResponseStream.Recv | internal/provider/eino_adapter.go:107-151 | the reader is asked once, and not after the end; the answer is the converted chunk, the converted concatenation of all it delivered at the end, or the failure; the reader is closed once, exactly when the stream is done |
| EinoStream.EinoResponseStream.Close | internal/provider/eino_adapter.go:153-163 | closed and done, the reader closed at most once |
| EinoStream.EinoResponseStream.Finish | internal/provider/eino_adapter.go:165-168 | done, and the reader closed at most once |
| EinoStream.EinoResponseStream.CloseReader | internal/provider/eino_adapter.go:170-176 | the reader is closed on the first call only |
| ComposedStream.ComposedStream | internal/provider/eino_adapter.go:107-176 | the audited stream over this one tells the chunks pulled, converted, in order, and a completed response only as the conversion of the concatenation of all of them; the reader is done exactly when the stream is not open |
| ComposedStream.OverConnector | internal/provider/stream.go:54-130 | at any time between calls on an audited stream over a connector: told were the chunks that the reader delivered, all of them, but for a last one that ended the stream; the reader was not asked after an answer that ends, and was closed once exactly when the stream is no longer open |
| WebServer.InvStep | internal/web/component.go:32-116 | every step of Start, Close and Serve keeps the invariant |
| WebServer.RunInv | internal/web/component.go:32-116 | the invariant holds in every state of every interleaving |
| WebServer.RunSafe | internal/web/component.go:32-116 | at most one Serve, done closed at most once, the error send never blocks, every bound listener served, released or held by its call |
| WebServer.NoListenerLeaks | internal/web/component.go:49-73 | once all calls returned, every listener ever bound is served or released |
| WebServer.ClosedStaysUnstarted | internal/web/component.go:57-65 | after closed is set no Start starts the server |
| WebServer.StartResultsMean | internal/web/component.go:33-75 | only the call whose listener is served, or was until Serve returned, reports success; one that reports a closed server is right, and done is closed if it had bound; every other call that returned has no listener left |
| WebServer.StartOutcomes | internal/web/component.go:33-66 | a cancelled context, a closed server, one that is started or starting, and a failed bind each settle for good what the call returns, and only a call that bound and found the server open reports success |
| WebServer.ClosedNeverStarts | internal/web/component.go:57-65 | after the server is closed no call reports success but one that had already passed |
| WebServer.CloseMeansEnded | internal/web/component.go:78-109 | once any Close returned the server is closed, and a started one has ended: Serve returned, done is closed, the listener is released |
| WebServer.ForcedAfterFailure | internal/web/component.go:101-105 | a Close whose Shutdown failed closes by force before it goes on |
| WebServer.ErrorsConserved | internal/web/component.go:68-73 | an error that was sent is in the channel or was received, each once |
| WebServer.ErrorIsSent | internal/web/component.go:68-73 | an error that Serve returned is sent, once, before done is closed |
| WebServer.WaitingProgresses | internal/web/component.go:100-109 | while a Close waits for done, done is closed or an enabled step of the started server brings it closer |
| WebServer.RemainingNeverGrows | internal/web/component.go:68-73 | no step of anyone takes done further away |
| WebServer.TowardsPersists | internal/web/component.go:100-109 | on a started server that was shut down, a step of anyone brings done closer or leaves the step towards it enabled |
| WebServer.GuardedProgresses | internal/web/component.go:78-84 | a Close held back by the once guard waits for one other call, which can take its own step unless it waits for done |
| Application.WaitForTermination | internal/app/application.go:120-151 | the wait ends with the first delivery that is neither nil, nor a closed server, nor a closed channel, and answers that error, or ends with the root context; each source is heard in order and not after its channel closed |
| Application.Application.StartComponents | internal/app/application.go:80-94 | exactly a registration-order prefix starts, up to a nil component or a failure |
| Application.Application.CloseStarted | internal/app/application.go:162-172 | every started component is closed, last first, and every error is collected |
| Application.Application.Shutdown | internal/app/application.go:153-182 | readiness ends, started components are closed, errors are joined, and all that only once |
| Application.Application.Run | internal/app/application.go:73-102 | what a run does, as one description of starts, wait, stop and shutdown; and of its own events what it answers: nil exactly when no start failed but for an ended root context, no component was nil, none reported an error while waiting, no close failed and the deadline held, and otherwise an error that matches exactly the causes that these match |
| Application.ClosesWhatStarted | internal/app/application.go:73-102 | the components started are a registration-order prefix; the shutdown closes exactly the components it was given, each once, in reverse |
| Application.FirstRunClosesItsStarts | internal/app/application.go:73-102 | the first run of an application closes exactly the components that this run started, each once, in reverse |
| Application.LaterRunLeaks | internal/app/application.go:153-181 | a later run of one application can start a component and close nothing |
| Application.StopsBeforeClosing | internal/app/application.go:96-101 | the root context ends after every start and before every close; ready is announced only when all started, and withdrawn right after |
| Application.NothingIsLost | internal/app/application.go:162-176 | the result of the first run is nil exactly when nothing of its events and of what was heard went wrong, and otherwise matches a cause exactly when one of them does; a start that failed because the root ended does not count |
| Application.JoinAllMatches | internal/app/application.go:162-176 | a joined error matches exactly the causes its parts match |
| Race.InvStep | cmd/oryxos/workspace.go:198-278 | every step of every call, with faults, short writes and crashes, keeps what each call has made and what each linked name shows |
| Race.RunInv | cmd/oryxos/workspace.go:198-278 | the invariant holds in every state of every interleaving |
| Race.AbsentUntouchedOrComplete | cmd/oryxos/workspace.go:198-244 | at every moment of every interleaving a workspace file is as it was at the start, absent, or complete with mode 0600, whoever still has its inode open |
| Race.OneCreator | cmd/oryxos/workspace.go:229-244 | at most one of all calls for a file reports that it created it; the file was not there at the start and is complete |
| Race.ReportsExactly | cmd/oryxos/workspace.go:229-244 | a call that returned reports that it created the file exactly when the name is linked to its inode |
| Race.SuccessLeavesFile | cmd/oryxos/workspace.go:198-261 | a call that returns without an error leaves a regular file under the name |
| Race.SmoothSucceeds | cmd/oryxos/workspace.go:198-261 | a call that met no fault of its own, whatever others met, succeeds exactly when the name was absent or a regular file at the start, and leaves no temporary file |
| Race.StepIsMove | cmd/oryxos/workspace.go:198-244 | each step of another call is a move that an initialiser's own contracts reckon with |
| Disk.OwnLink | cmd/oryxos/workspace.go:229-229 | publishing a complete file is a move every other initialiser reckons with |
| Disk.AlwaysSound | cmd/oryxos/workspace.go:167-244 | at every moment of an actual run of the methods, own and other steps alike, the workspace files are absent, untouched or complete |
| Disk.Disk.SoundThroughout | cmd/oryxos/workspace.go:167-244 | the files of a workspace were sound at every moment since the run began, not only now |
| Disk.OnePublisher | cmd/oryxos/workspace.go:229-244 | two initialisers of one workspace whose views meet did not both publish the same file |
| Workspace.EnsureDirectory | cmd/oryxos/workspace.go:167-196 | success leaves a directory with mode 0750; alone it made just that, or changed nothing, or left one directory; without faults it fails only for a misshapen entry or a missing parent |
| Workspace.ExistingFile | cmd/oryxos/workspace.go:246-261 | whether a regular file is there; anything else there is an error |
| Workspace.WriteContent | cmd/oryxos/workspace.go:263-278 | success leaves exactly the content, however short the writes; failure only on a fault |
| Workspace.FillTemp | cmd/oryxos/workspace.go:216-227 | success leaves a complete temporary file with mode 0600, synced and closed, which is what linking demands |
| Workspace.Publish | cmd/oryxos/workspace.go:229-244 | created exactly when this initialiser published the file, which was not there; a file that won the race is left alone |
| Workspace.CreateFile | cmd/oryxos/workspace.go:198-244 | under any faults and races every workspace file stays absent, untouched or complete; created means published by this initialiser; without faults no temporary file is left |
| Workspace.Initialize | cmd/oryxos/workspace.go:76-115 | a file is reported as created exactly when this initialiser published it in this run, and each has one publisher; alone, an entry is reported as created exactly when it was not there before, success leaves an initialised workspace, without faults it succeeds exactly from a recoverable one, and on an initialised one it changes nothing |
| Workspace.TargetsNamed | cmd/oryxos/workspace.go:103-113 | a full report names every directory and every file |
| Workspace.ParentsByName | cmd/oryxos/workspace.go:99-101 | a file lies in the directory that its name starts with |
| Workspace.Status | cmd/oryxos/workspace.go:119-135 | initialised only when every entry has its shape, and exactly then when lookups do not fail |
| Workspace.GrownInitialized | cmd/oryxos/workspace.go:76-115 | a run that did every entry leaves an initialised workspace |
| Workspace.GrownUnchanged | cmd/oryxos/workspace.go:76-115 | nothing changes in an initialised workspace |
| Workspace.GrownRecoverable | cmd/oryxos/workspace.go:188-195 | after a failed run from a recoverable workspace a rerun can succeed exactly when no directory was left with another mode |
| Registry.Registry.RegisterFactory | internal/provider/registry.go:45-60 | adds a factory under the trimmed name and never overwrites one |
| Registry.Registry.BindProfile | internal/provider/registry.go:63-110 | success is one entry that binds an unbound name to the model the factory made; failure leaves the registry to the others; the factory is asked at most once, with the profile's own settings; alone it succeeds exactly under the stated checks |
| Registry.Registry.BindProfiles | internal/provider/registry.go:114-171 | success installs at once a snapshot with exactly the profiles' names, one order to a factory for each profile; failure installs nothing; alone it succeeds exactly when all is declared, registered and made |
| Registry.Registry.LookUp | internal/provider/registry.go:174-182 | the model bound when the lock was held |
| Registry.IndexDefinitions | internal/provider/registry.go:124-133 | succeeds exactly when every declaration is named, has a credential and is unique, and then finds each by its name |
| Registry.OneBindingBetweenSnapshots | internal/provider/registry.go:103-109 | over all interleavings, between two successful bindings of one name a whole snapshot was installed |
| Registry.LiveUntilReplaced | internal/provider/registry.go:103-109 | over all interleavings a live binding stays what it is until a whole snapshot replaces it |
| Registry.MadeFromItsProfile | internal/provider/registry.go:90-95 | over all interleavings every live model was made under its name by an entry of the log that no snapshot follows: the binding of the profile of that name, or the snapshot's profile of that name, merged with a definition given with it, by the factory of its provider |
| Registry.FactoriesStay | internal/provider/registry.go:53-58 | factories once registered stay |
| Expand.ValidEnvironmentName | internal/config/expand.go:77-91 | a letter or underscore, then letters, digits and underscores, all ASCII |
| Expand.ExpandString | internal/config/expand.go:46-75 | the loop computes the one-pass expansion, and ends |
| Expand.ExpandPrinted | internal/config/expand.go:46-75 | the printed form of any template whose names are set expands to its substitution; inserted values are not looked at again |
| Expand.Reading | internal/config/expand.go:46-75 | every value is the printed form of a template whose names are set, then nothing, or an opener with a fault |
| Expand.ExpandsExactly | internal/config/expand.go:46-75 | a value expands to a text exactly when it is the printed form of a template with all names set whose substitution is that text |
| Expand.FailsExactly | internal/config/expand.go:56-70 | a value fails exactly when after such a template a malformed or unset placeholder opens, and with that placeholder's error |
| Pagination.IsUnsignedDecimal | internal/web/api/pagination.go:62-69 | true exactly when every character is a digit |
| Pagination.ParseDigits | internal/web/api/pagination.go:47-54 | without overflow in 64 bits: refused exactly when the number does not fit, otherwise the number |
| Pagination.ParsePaginationValue | internal/web/api/pagination.go:34-60 | absent is the default, more than one is refused, and one is accepted exactly when it is a digit string of a number from one to the maximum |
| Pagination.ParsePagination | internal/web/api/pagination.go:22-32 | both fields in range, or the first refusal |
| Pagination.TotalPages | internal/web/api/pagination.go:81-87 | without overflow in 64 bits: the exact ceiling, unless a negative total is left uneven |

## Left out

- nil receivers, nil contexts and nil collaborators: their guards are one error return each and are not modelled.
- Error texts: prefixes and causes are kept, quoting of names and numbers inside messages is not.
- Cancellation: every check of a context is an arbitrary answer; that a cancelled context stays cancelled is not used.
- Attempt durations, deadlines of single attempts and log attributes other than number, finality and success are not
  modelled.
- Tool definitions that the resolver returns and the model is sent: only whether resolving failed.
- The store's check of llm_calls rows: its writes succeed or fail arbitrarily; the check of tool_invocations rows is a
  predicate.
- Rendering of bootstrap files and skills: the builder holds the rendered texts.
- Integer overflow of rune counts, of token counts and of durations.
- Field-by-field conversion of connector messages and the merging of chunks: arbitrary functions.
- WebServer: the flags are fields of a state that steps replace, not an object that methods update, because its
  methods interleave; the error values that Close joins are not modelled.
- Application.WaitForTermination: a wait that never ends is not modelled; each source delivers a finite list of
  values.
- Application.Application.Run: closing a component always returns, and other goroutines do not call Run at the same
  time.
- Workspace.EnsureDirectory: other initialisers remove only finitely many directories, without which its recursion
  might not end.
- Disk: temporary files of other initialisers and the loss of unsynced data after a power failure are not modelled;
  inodes shared by hard links are, in Race.
- Race: a call that creates directories takes no part; a missing parent directory is a fault.
- Session.Session.Append: here messages are values; that a deep copy is kept is stated by Ownership.Session.Append.
- Session.Session.Messages: here messages are values; that a deep copy is returned is stated by
  Ownership.Session.CopyFrom.
- Registry.Registry.LookUp: handed-out models stay in use after they are replaced; that use is not modelled.
- Ownership.Session.CopyFrom: which position RecentTurns copies from is proved in Session.Session.RecentTurns on
  values; payload parts other than maps, lists and lists of strings are shared with the source, as in the source, and
  do not occur here.
- Expand: decoding of the configuration document and the walk over its nodes; a missing lookup function is a lookup
  that finds nothing.
- Schema: the decoder is an arbitrary function from texts to values; number literals are known by their parts.
- The HTTP handlers, command line, logging handlers, database access, profile loading, connectors and the website are
  plumbing.
