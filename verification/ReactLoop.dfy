/** The reason-act-observe loop over session, provider and executor (internal/runtime/react_loop.go). */
module ReactLoop {
  import opened Base
  import opened Llm
  import opened Profiles
  import opened Conversation
  import opened Window
  import opened PromptBuilder
  import opened Audit
  import Schema
  import Provider
  import Executor
  import S = Session
  import W = World

  /** What stays fixed during one run; start is the conversation with the user message that opened it. */
  datatype Setting = Setting(
    texts: TextModel, builder: Builder, service: Provider.Service, tools: Executor.Tools,
    sessionID: string, selected: Profile, content: string, start: seq<Message>)

  /** This is what Build answers for the conversation seen, given its cancellation check, memory and clock. */
  ghost predicate WasBuilt(s: Setting, seen: seq<Message>, late: Option<Error>, memory: Result<string>, clock: string,
    prompt: Result<seq<Message>>)
  {
    exists parts :: Built(s.builder, late, seen, s.selected, s.content, memory, clock, prompt, parts)
  }

  /** The tool was asked for this call, and declared the schema; since then there were only attempts. */
  ghost predicate DeclaredIn(front: seq<Event>, call: ToolCall, schema: string) {
    exists k | 0 <= k < |front| ::
      && front[k] == Described(call, Ok(Definition(Trim(call.callee.name), schema)))
      && forall m | k < m < |front| :: Executor.IsAttempt(front[m], call, schema)
  }

  lemma StillDeclared(front: seq<Event>, call: ToolCall, schema: string, e: Event)
    requires DeclaredIn(front, call, schema) && Executor.IsAttempt(e, call, schema)
    ensures DeclaredIn(front + [e], call, schema)
  {
    var k :| 0 <= k < |front| && front[k] == Described(call, Ok(Definition(Trim(call.callee.name), schema)))
      && forall m | k < m < |front| :: Executor.IsAttempt(front[m], call, schema);
    var longer := front + [e];
    assert longer[k] == front[k];
    forall m | k < m < |longer| ensures Executor.IsAttempt(longer[m], call, schema) {
      if m < |front| { assert longer[m] == front[m]; }
    }
  }

  lemma NowDeclared(front: seq<Event>, call: ToolCall, schema: string)
    ensures DeclaredIn(front + [Described(call, Ok(Definition(Trim(call.callee.name), schema)))], call, schema)
  {
    assert (front + [Described(call, Ok(Definition(Trim(call.callee.name), schema)))])[|front|].Described?;
  }

  /** The text is what the tool put out last for this call, or empty when it was not invoked since the last row. */
  ghost predicate FromTool(front: seq<Event>, call: ToolCall, text: string) {
    || (exists k | 0 <= k < |front| ::
          && front[k].Invoked? && front[k].call == call && front[k].output == text
          && forall m | k < m < |front| :: front[m].Waited? || front[m].Logged?)
    || (text == "" && exists k | 0 <= k < |front| ::
          IsRow(front[k]) && forall m | k < m < |front| :: front[m].Described?)
  }

  predicate IsRow(e: Event) { e.CallRecorded? || e.InvocationRecorded? }

  /** The last event wrote a row. */
  predicate AtRow(run: seq<Event>) { run != [] && IsRow(run[|run| - 1]) }

  lemma NothingPutOut(run: seq<Event>, call: ToolCall, asked: Option<Result<Definition>>)
    requires AtRow(run)
    ensures FromTool(run + Executor.DescribedEvents(call, asked), call, "")
  {
    assert IsRow((run + Executor.DescribedEvents(call, asked))[|run| - 1]);
  }

  lemma LastPutOut(front: seq<Event>, call: ToolCall, schema: string, attempts: seq<Executor.Attempt>)
    requires attempts != []
    ensures FromTool(front + Executor.AttemptEvents(call, schema, attempts), call, attempts[|attempts| - 1].output)
  {
    hide Executor.AttemptEvents;
    var n := |attempts| - 1;
    var earlier, pass := front + Executor.AttemptEvents(call, schema, attempts[..n]),
      Executor.PassEvents(call, schema, n, attempts[n]);
    Executor.AttemptEventsAppend(call, schema, attempts[..n], attempts[n]);
    assert attempts == attempts[..n] + [attempts[n]];
    assert front + Executor.AttemptEvents(call, schema, attempts) == earlier + pass;
    assert (earlier + pass)[|earlier|] == pass[0];
    forall m | |earlier| < m < |earlier + pass| ensures (earlier + pass)[m].Waited? || (earlier + pass)[m].Logged? {
      assert (earlier + pass)[m] == pass[m - |earlier|];
    }
  }

  /** What each event of a run must be, given the events before it. */
  ghost predicate Genuine(s: Setting, front: seq<Event>, e: Event) {
    match e
    case Prompted(seen, late, memory, clock, prompt) =>
      seen == s.start + Transcript(s.texts, front) && WasBuilt(s, seen, late, memory, clock, prompt)
    case CallRecorded(outcome, row, _) =>
      Provider.IsRowOf(s.texts, row, Provider.MetadataFrom(s.sessionID, s.selected), outcome)
    case Invoked(call, schema, _, _) =>
      Executor.Permitted(s.texts, s.tools, s.selected.tools, call, schema) && DeclaredIn(front, call, schema)
    case InvocationRecorded(call, result, cause, row, _) =>
      Executor.IsRowOf(s.texts, row, s.sessionID, call, result, cause) && Executor.NamesItself(cause) &&
        FromTool(front, call, result)
    case _ => true
  }

  ghost predicate AllGenuine(s: Setting, run: seq<Event>) {
    run == [] || (AllGenuine(s, run[..|run| - 1]) && Genuine(s, run[..|run| - 1], run[|run| - 1]))
  }

  lemma GenuineAppend(s: Setting, run: seq<Event>, e: Event)
    requires AllGenuine(s, run) && Genuine(s, run, e)
    ensures AllGenuine(s, run + [e])
  {
    assert (run + [e])[..|run|] == run;
  }

  lemma {:induction false} GenuineAt(s: Setting, run: seq<Event>, i: nat)
    requires AllGenuine(s, run) && i < |run|
    ensures Genuine(s, run[..i], run[i])
  {
    if i < |run| - 1 {
      GenuineAt(s, run[..|run| - 1], i);
      assert run[..|run| - 1][..i] == run[..i];
    }
  }

  lemma {:induction false} GenuinePrefix(s: Setting, run: seq<Event>, i: nat)
    requires AllGenuine(s, run) && i <= |run|
    ensures AllGenuine(s, run[..i])
  {
    if i < |run| {
      GenuinePrefix(s, run[..|run| - 1], i);
      assert run[..|run| - 1][..i] == run[..i];
    } else {
      assert run[..i] == run;
    }
  }

  lemma {:induction false} AttemptsGenuine(s: Setting, run: seq<Event>, call: ToolCall, schema: string,
    events: seq<Event>)
    requires AllGenuine(s, run) && Executor.AllAttempts(events, call, schema)
    requires events != [] ==>
      Executor.Permitted(s.texts, s.tools, s.selected.tools, call, schema) && DeclaredIn(run, call, schema)
    ensures AllGenuine(s, run + events)
    decreases |events|
  {
    hide AllGenuine, DeclaredIn, Executor.Permitted, WasBuilt, Transcript;
    if events == [] {
      assert run + events == run;
    } else {
      assert Executor.IsAttempt(events[0], call, schema);
      GenuineAppend(s, run, events[0]);
      StillDeclared(run, call, schema, events[0]);
      AttemptsGenuine(s, run + [events[0]], call, schema, events[1..]);
      assert run + events == run + [events[0]] + events[1..];
    }
  }

  // ---------- Runs ----------

  /** The session holds what the run so far has said, and every event is genuine. */
  ghost predicate Follows(s: Setting, run: seq<Event>, messages: seq<Message>) {
    && messages == s.start + Transcript(s.texts, run)
    && AllGenuine(s, run)
  }

  lemma FollowsAppend(s: Setting, run: seq<Event>, e: Event, messages: seq<Message>)
    requires Follows(s, run, messages) && Genuine(s, run, e)
    ensures Follows(s, run + [e], messages + Spoken(s.texts, e))
    ensures Track(s.texts, run + [e]) == Advance(s.texts, Track(s.texts, run), e)
  {
    GenuineAppend(s, run, e);
    TrackAppend(s.texts, run, e);
  }

  lemma DescribedFollows(s: Setting, run: seq<Event>, messages: seq<Message>, n: nat, calls: seq<ToolCall>,
    x: Executor.Execution)
    requires Follows(s, run, messages) && Track(s.texts, run) == AtCalls(n, calls) && calls != []
    requires Executor.Executed(s.texts, s.tools, s.selected.tools, s.sessionID, calls[0], x)
    ensures var longer := run + Executor.DescribedEvents(calls[0], x.asked);
      && Follows(s, longer, messages) && Track(s.texts, longer) == AtCalls(n, calls)
      && (x.attempts != [] ==> DeclaredIn(longer, calls[0], x.schema))
  {
    hide Track, Transcript, Advance, AllGenuine, Executor.Permitted, Executor.Lawful, Executor.IsRowOf, DeclaredIn;
    Executor.DescribedStays(s.texts, run, n, calls, x.asked);
    if x.asked.Some? {
      GenuineAppend(s, run, Described(calls[0], x.asked.value));
    } else {
      assert run + [] == run;
    }
    if x.attempts != [] { NowDeclared(run, calls[0], x.schema); }
  }

  lemma AttemptsFollow(s: Setting, run: seq<Event>, messages: seq<Message>, n: nat, calls: seq<ToolCall>,
    x: Executor.Execution)
    requires Follows(s, run, messages) && Track(s.texts, run) == AtCalls(n, calls) && calls != []
    requires Executor.Executed(s.texts, s.tools, s.selected.tools, s.sessionID, calls[0], x)
    requires x.attempts != [] ==> DeclaredIn(run, calls[0], x.schema)
    ensures var longer := run + Executor.AttemptEvents(calls[0], x.schema, x.attempts);
      Follows(s, longer, messages) && Track(s.texts, longer) == AtCalls(n, calls)
  {
    hide Track, Transcript, Advance, AllGenuine, Executor.Permitted, Executor.Lawful, Executor.IsRowOf,
      Executor.AllAttempts, DeclaredIn;
    var attempts := Executor.AttemptEvents(calls[0], x.schema, x.attempts);
    Executor.AttemptEventsAreAttempts(calls[0], x.schema, x.attempts);
    Executor.AttemptsStay(s.texts, run, n, calls, x.schema, attempts);
    AttemptsGenuine(s, run, calls[0], x.schema, attempts);
  }

  /** Where a run goes when the first of the calls it waits for is executed. */
  function AfterExecution(t: TextModel, n: nat, calls: seq<ToolCall>, failure: Option<Error>): Phase
    requires calls != []
  {
    if failure.Some? then Stopped(n, Err(failure.value))
    else if |calls| == 1 then AtCheck(n) else AtCalls(n, calls[1..])
  }

  lemma RecordAdvances(t: TextModel, n: nat, calls: seq<ToolCall>, e: Event)
    requires calls != [] && e.InvocationRecorded? && e.answered == calls[0] && e.entry.success == e.cause.None?
    ensures Advance(t, AtCalls(n, calls), e) == AfterExecution(t, n, calls, ExecuteError(t, e.cause, e.lost))
  {
  }

  lemma RecordedSuccess(s: Setting, call: ToolCall, x: Executor.Execution)
    requires Executor.Executed(s.texts, s.tools, s.selected.tools, s.sessionID, call, x)
    ensures x.row.success == x.cause.None?
  {
  }

  lemma RecordedGenuine(s: Setting, front: seq<Event>, call: ToolCall, x: Executor.Execution)
    requires Executor.Executed(s.texts, s.tools, s.selected.tools, s.sessionID, call, x)
    requires AtRow(front)
    ensures var before := front + Executor.DescribedEvents(call, x.asked) +
        Executor.AttemptEvents(call, x.schema, x.attempts);
      Genuine(s, before, InvocationRecorded(call, x.result, x.cause, x.row, x.lost))
  {
    hide FromTool, Executor.DescribedEvents, Executor.Permitted, Executor.Lawful, Executor.IsRowOf, Executor.Verdict,
      Executor.NamesItself;
    var described := front + Executor.DescribedEvents(call, x.asked);
    if x.attempts == [] {
      NothingPutOut(front, call, x.asked);
      assert described + [] == described;
    } else {
      hide Executor.AttemptEvents;
      LastPutOut(described, call, x.schema, x.attempts);
    }
  }

  lemma ExecutionFollows(s: Setting, run: seq<Event>, messages: seq<Message>, n: nat, calls: seq<ToolCall>,
    x: Executor.Execution)
    requires Follows(s, run, messages) && Track(s.texts, run) == AtCalls(n, calls) && calls != [] && AtRow(run)
    requires Executor.Executed(s.texts, s.tools, s.selected.tools, s.sessionID, calls[0], x)
    ensures var longer := run + Executor.ExecutionEvents(calls[0], x);
      && AtRow(longer)
      && Follows(s, longer, messages + [ToolResult(x.result, calls[0])])
      && Track(s.texts, longer) == AfterExecution(s.texts, n, calls, ExecuteError(s.texts, x.cause, x.lost))
  {
    hide Track, Transcript, Advance, ExecuteError, Follows, AfterExecution, Genuine, Executor.AttemptEvents,
      Executor.Executed, Executor.DescribedEvents, DeclaredIn;
    var recorded := InvocationRecorded(calls[0], x.result, x.cause, x.row, x.lost);
    var asked := run + Executor.DescribedEvents(calls[0], x.asked);
    DescribedFollows(s, run, messages, n, calls, x);
    AttemptsFollow(s, asked, messages, n, calls, x);
    var attempts := Executor.AttemptEvents(calls[0], x.schema, x.attempts);
    RecordedSuccess(s, calls[0], x);
    RecordedGenuine(s, run, calls[0], x);
    RecordAdvances(s.texts, n, calls, recorded);
    FollowsAppend(s, asked + attempts, recorded, messages);
    assert run + Executor.ExecutionEvents(calls[0], x) == asked + attempts + [recorded];
  }

  /** The inner loop: executes the calls of one response in order, keeping each result. */
  method ExecuteCalls(world: W.World, session: S.Session, ghost s: Setting, tools: Executor.Tools, selected: Profile,
    calls: seq<ToolCall>, ghost past: seq<Event>, ghost run: seq<Event>, ghost n: nat)
    returns (failure: Option<Error>, ghost longer: seq<Event>)
    requires world.texts == s.texts && tools == s.tools && selected == s.selected && session.id == s.sessionID
    requires world.trace == past + run && Follows(s, run, session.messages)
    requires Track(s.texts, run) == AtCalls(n, calls) && calls != [] && AtRow(run)
    modifies world, session
    ensures world.trace == past + longer && Follows(s, longer, session.messages)
    ensures Track(s.texts, longer) == match failure case Some(error) => Stopped(n, Err(error)) case None => AtCheck(n)
  {
    hide Track, Transcript, Advance, ExecuteError, Executor.Executed, Executor.ExecutionEvents, Follows;
    longer := run;
    failure := None;
    for i := 0 to |calls|
      invariant world.trace == past + longer && Follows(s, longer, session.messages)
      invariant Track(s.texts, longer) == if i < |calls| then AtCalls(n, calls[i..]) else AtCheck(n)
      invariant AtRow(longer)
    {
      var result, executeErr, x := Executor.Execute(world, tools, session.id, selected.tools, calls[i]);
      ExecutionFollows(s, longer, session.messages, n, calls[i..], x);
      session.Append(ToolResult(result, calls[i]));
      longer := longer + Executor.ExecutionEvents(calls[i], x);
      if executeErr.Some? {
        return executeErr, longer;
      }
    }
  }

  // ---------- One iteration ----------

  /** What the loop keeps of a chat: the response, also when only its row was lost. */
  function Kept(response: Response, failure: Option<Error>): seq<Message> {
    if failure.None? || ResponseAvailable(failure.value) then [response.message] else []
  }

  ghost predicate Chatted(s: Setting, response: Response, failure: Option<Error>, x: Provider.Exchange) {
    match x
    case Declined(error) => failure == Some(error) && response == EMPTY_RESPONSE
    case Called(outcome, row, lost) =>
      && Provider.IsRowOf(s.texts, row, Provider.MetadataFrom(s.sessionID, s.selected), outcome)
      && failure == ChatError(s.texts, outcome, lost)
      && response == (if outcome.Ok? then outcome.value else EMPTY_RESPONSE)
  }

  function AfterChat(n: nat, response: Response, failure: Option<Error>, x: Provider.Exchange): Phase {
    if failure.Some? then Stopped(if x.Called? then n + 1 else n, Err(failure.value))
    else if response.message.toolCalls == [] then Stopped(n + 1, Ok(response.message.content))
    else AtCalls(n + 1, response.message.toolCalls)
  }

  lemma ChatFollows(s: Setting, run: seq<Event>, messages: seq<Message>, n: nat, prompt: seq<Message>,
    response: Response, failure: Option<Error>, x: Provider.Exchange)
    requires Follows(s, run, messages) && Track(s.texts, run) == AtChat(n, prompt)
    requires Chatted(s, response, failure, x)
    ensures var longer := run + Provider.ExchangeEvents(prompt, x);
      Follows(s, longer, messages + Kept(response, failure)) &&
        Track(s.texts, longer) == AfterChat(n, response, failure, x) && (failure.None? ==> AtRow(longer))
  {
    hide Track, Transcript, Follows, ResponseAvailable;
    match x
    case Declined(error) =>
      FollowsAppend(s, run, Refused(error), messages);
    case Called(outcome, row, lost) =>
      FollowsAppend(s, run, Generated(prompt, outcome), messages);
      assert messages + [] == messages;
      CalledFollows(s, run + [Generated(prompt, outcome)], messages, n, response, failure, outcome, row, lost);
      assert run + Provider.ExchangeEvents(prompt, x) == run + [Generated(prompt, outcome)] +
        [CallRecorded(outcome, row, lost)];
  }

  lemma CalledFollows(s: Setting, run: seq<Event>, messages: seq<Message>, n: nat,
    response: Response, failure: Option<Error>, outcome: Result<Response>, row: LlmCall, lost: Option<Error>)
    requires Follows(s, run, messages) && Track(s.texts, run) == AtRecord(n + 1, outcome)
    requires Chatted(s, response, failure, Provider.Called(outcome, row, lost))
    ensures var longer := run + [CallRecorded(outcome, row, lost)];
      && Follows(s, longer, messages + Kept(response, failure))
      && Track(s.texts, longer) == AfterChat(n, response, failure, Provider.Called(outcome, row, lost))
  {
    assert outcome.Ok? && lost.Some? ==> ResponseAvailable(failure.value);
    hide Track, Transcript, Follows, ResponseAvailable;
    FollowsAppend(s, run, CallRecorded(outcome, row, lost), messages);
  }

  lemma PromptedFollows(s: Setting, run: seq<Event>, messages: seq<Message>, n: nat, prompt: Result<seq<Message>>,
    cancelled: Option<Error>, memory: Result<string>, clock: string, parts: Parts)
    requires Follows(s, run, messages) && Track(s.texts, run) == AtPrompt(n)
    requires Built(s.builder, cancelled, messages, s.selected, s.content, memory, clock, prompt, parts)
    ensures Follows(s, run + [Prompted(messages, cancelled, memory, clock, prompt)], messages)
    ensures Track(s.texts, run + [Prompted(messages, cancelled, memory, clock, prompt)]) ==
      match prompt
      case Ok(p) => AtChat(n, p)
      case Err(error) => Stopped(n, Err(Wrapped("build prompt", Text(error), Some(error))))
  {
    hide Track, Transcript, AllGenuine, Built;
    assert WasBuilt(s, messages, cancelled, memory, clock, prompt);
    GenuineAppend(s, run, Prompted(messages, cancelled, memory, clock, prompt));
    TrackAppend(s.texts, run, Prompted(messages, cancelled, memory, clock, prompt));
  }

  lemma CheckFollows(s: Setting, run: seq<Event>, messages: seq<Message>, n: nat, cancelled: Option<Error>)
    requires Follows(s, run, messages) && Track(s.texts, run) == AtCheck(n)
    ensures Follows(s, run + [Checked(cancelled)], messages)
    ensures Track(s.texts, run + [Checked(cancelled)]) ==
      if cancelled.Some? then Stopped(n, Err(cancelled.value)) else AtPrompt(n)
  {
    hide Track, Transcript, Follows;
    FollowsAppend(s, run, Checked(cancelled), messages);
    assert messages + [] == messages;
  }

  /** One pass of the loop: check, build the prompt, ask the model, execute what it asked for. A stop
      carries the result of the run. */
  method Iterate(world: W.World, session: S.Session, ghost s: Setting, builder: Builder, service: Provider.Service,
    tools: Executor.Tools, selected: Profile, userMessage: string, ghost past: seq<Event>, ghost run: seq<Event>,
      ghost n: nat)
    returns (stop: Option<Result<string>>, ghost longer: seq<Event>)
    requires world.texts == s.texts && builder == s.builder && service == s.service && tools == s.tools
    requires selected == s.selected && userMessage == s.content && session.id == s.sessionID
    requires world.trace == past + run && Follows(s, run, session.messages)
    requires Track(s.texts, run) == AtCheck(n)
    modifies world, session
    ensures world.trace == past + longer && Follows(s, longer, session.messages)
    ensures match stop
      case None => Track(s.texts, longer) == AtCheck(n + 1)
      case Some(r) => exists k :: n <= k <= n + 1 && Track(s.texts, longer) == Stopped(k, r)
  {
    hide Track, Follows, Built, ShowsWithin, IsSplit, Runes, Refusal, Advance;
    var cancelled := world.Check();
    CheckFollows(s, run, session.messages, n, cancelled);
    longer := run + [Checked(cancelled)];
    if cancelled.Some? {
      return Some(Err(cancelled.value)), longer;
    }
    var seen := session.Messages();
    var late: Option<Error> := world.Ask();
    var memory: Result<string> := world.Ask();
    var clock: string := world.Ask();
    var prompt, parts := Build(builder, late, seen, selected, userMessage, memory, clock);
    world.Note(Prompted(seen, late, memory, clock, prompt));
    PromptedFollows(s, longer, seen, n, prompt, late, memory, clock, parts);
    longer := longer + [Prompted(seen, late, memory, clock, prompt)];
    if prompt.Err? {
      return Some(Err(Wrapped("build prompt", Text(prompt.error), Some(prompt.error)))), longer;
    }
    stop, longer := Respond(world, session, s, service, tools, selected, prompt.value, past, longer, n);
  }

  /** The second half of a pass, from the prompt on. */
  method Respond(world: W.World, session: S.Session, ghost s: Setting, service: Provider.Service, tools: Executor.Tools,
    selected: Profile, prompt: seq<Message>, ghost past: seq<Event>, ghost run: seq<Event>, ghost n: nat)
    returns (stop: Option<Result<string>>, ghost longer: seq<Event>)
    requires world.texts == s.texts && service == s.service && tools == s.tools
    requires selected == s.selected && session.id == s.sessionID
    requires world.trace == past + run && Follows(s, run, session.messages)
    requires Track(s.texts, run) == AtChat(n, prompt)
    modifies world, session
    ensures world.trace == past + longer && Follows(s, longer, session.messages)
    ensures match stop
      case None => Track(s.texts, longer) == AtCheck(n + 1)
      case Some(r) => exists k :: n <= k <= n + 1 && Track(s.texts, longer) == Stopped(k, r)
  {
    hide Track, Follows, ResponseAvailable, Provider.IsRowOf, ChatError, Provider.ExchangeEvents, Provider.Refusal;
    var response, failure, x := Provider.Chat(service, world, session.id, selected, prompt);
    ChatFollows(s, run, session.messages, n, prompt, response, failure, x);
    longer := run + Provider.ExchangeEvents(prompt, x);
    assert session.messages + [] == session.messages;
    if failure.Some? {
      if ResponseAvailable(failure.value) {
        session.Append(response.message);
      }
      return Some(Err(failure.value)), longer;
    }
    session.Append(response.message);
    if |response.message.toolCalls| == 0 {
      return Some(Ok(response.message.content)), longer;
    }
    var executeErr;
    executeErr, longer := ExecuteCalls(world, session, s, tools, selected, response.message.toolCalls, past, longer,
      n + 1);
    if executeErr.Some? {
      return Some(Err(executeErr.value)), longer;
    }
    return None, longer;
  }

  // ---------- What a run leaves ----------

  /** An event that leaves one message: a response, or a row for a tool call. */
  predicate Leaves(e: Event) { (e.CallRecorded? && e.response.Ok?) || e.InvocationRecorded? }

  function LeftBy(run: seq<Event>): nat {
    if run == [] then 0 else LeftBy(run[..|run| - 1]) + if Leaves(run[|run| - 1]) then 1 else 0
  }

  /** The message says what the event was about: the model's own message, or under the id and the name of the call
      what the tool put out for it. */
  ghost predicate SpeaksFor(run: seq<Event>, i: nat, m: Message)
    requires i < |run|
  {
    match run[i]
    case CallRecorded(Ok(response), _, _) => m == response.message
    case InvocationRecorded(call, _, _, _, _) =>
      && m.role == "tool" && m.toolCallID == call.id && m.toolName == call.callee.name && m.toolCalls == []
      && FromTool(run[..i], call, m.content)
    case _ => true
  }

  /** Each such event of the run left its message, in order, and nothing else was left. */
  ghost predicate Retained(run: seq<Event>, left: seq<Message>) {
    && |left| == LeftBy(run)
    && forall i: nat | i < |run| && Leaves(run[i]) ::
         LeftBy(run[..i]) < |left| && SpeaksFor(run, i, left[LeftBy(run[..i])])
  }

  lemma RetainedStep(run: seq<Event>, left: seq<Message>, e: Event, said: seq<Message>)
    requires Retained(run, left) && |said| == if Leaves(e) then 1 else 0
    requires Leaves(e) ==> SpeaksFor(run + [e], |run|, said[0])
    ensures Retained(run + [e], left + said)
  {
    var longer := run + [e];
    assert longer[..|run|] == run;
    hide SpeaksFor;
    forall i: nat | i < |longer| && Leaves(longer[i])
      ensures LeftBy(longer[..i]) < |left + said| && SpeaksFor(longer, i, (left + said)[LeftBy(longer[..i])])
    {
      if i < |run| {
        assert longer[..i] == run[..i];
        SpeaksStill(run, e, i, left[LeftBy(run[..i])]);
      }
    }
  }

  lemma SpeaksStill(run: seq<Event>, e: Event, i: nat, m: Message)
    requires i < |run| && SpeaksFor(run, i, m)
    ensures SpeaksFor(run + [e], i, m)
  {
    assert (run + [e])[..i] == run[..i];
  }

  /** The empty response that a run keeps when an error from outside offers the marker. */
  predicate KeepsEmpty(p: Phase) {
    p.Stopped? && p.result.Err? && ResponseAvailable(p.result.error)
  }

  lemma SaidFor(s: Setting, front: seq<Event>, e: Event)
    requires Genuine(s, front, e) && Leaves(e)
    ensures |Spoken(s.texts, e)| == 1 && SpeaksFor(front + [e], |front|, Spoken(s.texts, e)[0])
  {
    hide FromTool, Executor.IsRowOf, Provider.IsRowOf;
    assert (front + [e])[..|front|] == front;
  }

  lemma NothingSaidFor(t: TextModel, p: Phase, e: Event)
    requires !Advance(t, p, e).Violation? && !Leaves(e) && !KeepsEmpty(Advance(t, p, e))
    ensures Spoken(t, e) == []
  {
    hide ResponseAvailable;
  }

  lemma LastStep(s: Setting, run: seq<Event>)
    requires AllGenuine(s, run) && !Track(s.texts, run).Violation? && run != []
    ensures var front, e := run[..|run| - 1], run[|run| - 1];
      && AllGenuine(s, front) && Genuine(s, front, e) &&
          Track(s.texts, run) == Advance(s.texts, Track(s.texts, front), e)
      && !Track(s.texts, front).Violation? && !KeepsEmpty(Track(s.texts, front))
      && Transcript(s.texts, run) == Transcript(s.texts, front) + Spoken(s.texts, e)
  {
    hide Genuine, Spoken, ResponseAvailable;
  }

  lemma NothingRetained(s: Setting)
    ensures Retained([], Transcript(s.texts, []))
  {
  }

  /** What a run leaves in the session says, message for message, what the model answered and the tools put out. */
  lemma {:induction false} TranscriptRetained(s: Setting, run: seq<Event>)
    requires AllGenuine(s, run) && !Track(s.texts, run).Violation? && !KeepsEmpty(Track(s.texts, run))
    ensures Retained(run, Transcript(s.texts, run))
  {
    hide *;
    if run != [] {
      var front, e := run[..|run| - 1], run[|run| - 1];
      assert run == front + [e];
      LastStep(s, run);
      TranscriptRetained(s, front);
      if Leaves(e) { SaidFor(s, front, e); } else { NothingSaidFor(s.texts, Track(s.texts, front), e); }
      RetainedStep(front, Transcript(s.texts, front), e, Spoken(s.texts, e));
    } else {
      NothingRetained(s);
    }
  }

  /** The answer of a run is what the last message says, and that message asks for nothing. */
  lemma AnswerIsLast(s: Setting, run: seq<Event>)
    requires Track(s.texts, run).Stopped? && Track(s.texts, run).result.Ok?
    ensures var left := Transcript(s.texts, run);
      left != [] && left[|left| - 1].content == Track(s.texts, run).result.value && left[|left| - 1].toolCalls == []
  {
  }

  // ---------- Run ----------

  function Invalid(text: string): Error { Cause("run react loop: " + text, None, None) }

  /** Why a run is refused before it touches the session. */
  function RunRefusal(sessionID: string, selected: Profile): Option<Error> {
    if Blank(sessionID) then Some(Invalid("session is required"))
    else if Blank(selected.name) then Some(Invalid("profile is required"))
    else if selected.maxIterations <= 0 then Some(Invalid("max_iterations must be positive"))
    else None
  }

  /** The session after a run: what was there, the user's message, and then exactly what the run left; an answer is
      the content of the last message. An error that offers the marker itself may leave one empty message more. */
  ghost predicate LeavesRightly(before: seq<Message>, userMessage: string, run: seq<Event>, r: Result<string>,
    after: seq<Message>)
  {
    && |before| < |after| && before == after[..|before|]
    && after[|before|].role == "user" && after[|before|].content == userMessage && after[|before|].toolCalls == []
    && (r.Ok? || !ResponseAvailable(r.error) ==> Retained(run, after[|before| + 1..]))
    && (r.Ok? ==> after[|after| - 1].content == r.value && after[|after| - 1].toolCalls == [])
  }

  lemma RunLeaves(s: Setting, before: seq<Message>, run: seq<Event>, bound: nat, r: Result<string>,
    after: seq<Message>)
    requires s.start == before + [TextMessage(ROLE_USER, s.content)] && Follows(s, run, after)
    requires Finished(Track(s.texts, run), bound, r)
    ensures LeavesRightly(before, s.content, run, r, after)
  {
    hide AllGenuine, Track, Transcript, Retained;
    if r.Ok? { AnswerIsLast(s, run); }
    if r.Ok? || !ResponseAvailable(r.error) {
      TranscriptRetained(s, run);
      assert after[|before| + 1..] == Transcript(s.texts, run);
    }
  }

  /** Appends one user message and runs at most the profile's iteration bound. What the run did to the world is a
      trace that follows the protocol to its end; what it did to the session is that message and the
      transcript of the trace. */
  method Run(world: W.World, session: S.Session, builder: Builder, service: Provider.Service, tools: Executor.Tools,
    selected: Profile, userMessage: string) returns (r: Result<string>, ghost s: Setting, ghost run: seq<Event>)
    modifies world, session
    ensures s == Setting(world.texts, builder, service, tools, session.id, selected, userMessage,
      old(session.messages) + [TextMessage(ROLE_USER, userMessage)])
    ensures world.trace == old(world.trace) + run
    ensures match RunRefusal(session.id, selected)
      case Some(error) => r == Err(error) && run == [] && session.messages == old(session.messages)
      case None =>
        && session.messages == old(session.messages) + [TextMessage(ROLE_USER, userMessage)] +
            Transcript(world.texts, run)
        && AllGenuine(s, run)
        && Finished(Track(world.texts, run), selected.maxIterations, r)
    ensures RunRefusal(session.id, selected).None? ==>
      LeavesRightly(old(session.messages), userMessage, run, r, session.messages)
    ensures RolesKept(run) && Accepts(old(session.messages)) ==> Accepts(session.messages)
  {
    run := [];
    s := Setting(world.texts, builder, service, tools, session.id, selected, userMessage,
      session.messages + [TextMessage(ROLE_USER, userMessage)]);
    if Trim(session.id) == "" { return Err(Invalid("session is required")), s, run; }
    if Trim(selected.name) == "" { return Err(Invalid("profile is required")), s, run; }
    if selected.maxIterations <= 0 { return Err(Invalid("max_iterations must be positive")), s, run; }
    ghost var past, before := world.trace, session.messages;
    session.Append(TextMessage(ROLE_USER, userMessage));
    assert Follows(s, run, session.messages) && Track(s.texts, run) == AtCheck(0);
    var stop: Option<Result<string>>;
    hide Track, AllGenuine, Transcript, RolesKept, Scan, LeavesRightly;
    for iteration := 0 to selected.maxIterations
      invariant world.trace == past + run && Follows(s, run, session.messages)
      invariant Track(s.texts, run) == AtCheck(iteration)
    {
      stop, run := Iterate(world, session, s, builder, service, tools, selected, userMessage, past, run, iteration);
      if stop.Some? {
        RunAccepted(s, before, run, session.messages);
        RunLeaves(s, before, run, selected.maxIterations, stop.value, session.messages);
        return stop.value, s, run;
      }
    }
    RunAccepted(s, before, run, session.messages);
    RunLeaves(s, before, run, selected.maxIterations, Err(MaxIterations), session.messages);
    return Err(MaxIterations), s, run;
  }

  /** A run that followed the protocol leaves an accepted conversation accepted. */
  lemma RunAccepted(s: Setting, before: seq<Message>, run: seq<Event>, messages: seq<Message>)
    requires s.start == before + [TextMessage(ROLE_USER, s.content)]
    requires messages == s.start + Transcript(s.texts, run) && !Track(s.texts, run).Violation?
    ensures RolesKept(run) && Accepts(before) ==> Accepts(messages)
  {
    hide Track, Transcript, RolesKept, Scan;
    if RolesKept(run) && Accepts(before) { RunKeepsGrammar(s.texts, before, s.content, run); }
  }
}
