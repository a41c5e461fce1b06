/** The events of a run: what the model, the tools and the two audit ledgers were asked to do and
    what they answered, and the protocol those events follow. */
module Audit {
  import opened Base
  import opened Llm
  import opened Conversation
  import opened Json

  const REDACTED := "[REDACTED]"

  /** Text functions of the libraries: what counts as sensitive, JSON encoding of a string, JSON
      validity and decoding of one document. */
  datatype TextModel = TextModel(
    sensitive: string -> bool, encode: string -> string, validJson: string -> bool, decode: string -> Option<Json>)

  /** One row of the llm_calls ledger. */
  datatype LlmCall = LlmCall(
    sessionID: string, provider: string, model: string, success: bool, durationMS: int, createdAt: int,
    usage: Usage, errorMessage: Option<string>)

  /** One row of the tool_invocations ledger. */
  datatype ToolInvocation = ToolInvocation(
    sessionID: string, toolName: string, inputJSON: string, resultJSON: string, success: bool,
    durationMS: int, createdAt: int, errorMessage: Option<string>)

  /** What a tool says of itself: its name and the schema document of its arguments. */
  datatype Definition = Definition(name: string, inputSchema: string)

  datatype Event =
    | Checked(cancelled: Option<Error>)
    | Prompted(seen: seq<Message>, late: Option<Error>, memory: Result<string>, clock: string,
               prompt: Result<seq<Message>>)
    | Refused(error: Error)
    | Generated(request: seq<Message>, outcome: Result<Response>)
    | CallRecorded(response: Result<Response>, row: LlmCall, failure: Option<Error>)
    | Described(described: ToolCall, info: Result<Definition>)
    | Invoked(call: ToolCall, schema: string, output: string, fault: Option<Error>)
    | Waited(milliseconds: nat, interrupt: Option<Error>)
    | Logged(attempt: nat, final: bool, success: bool)
    | InvocationRecorded(answered: ToolCall, result: string, cause: Option<Error>, entry: ToolInvocation,
      lost: Option<Error>)

  // ---------- Errors ----------

  function Sanitize(t: TextModel, text: string): string {
    if t.sensitive(text) then REDACTED else text
  }

  /** A wrapped error whose cause is hidden when its text was redacted. */
  function SafeWrap(t: TextModel, prefix: string, cause: Error): Error {
    var message := Sanitize(t, Text(cause));
    Wrapped(prefix, message, if message == Text(cause) then Some(cause) else None)
  }

  function SanitizeToolError(t: TextModel, cause: Error): Error {
    if Sanitize(t, Text(cause)) == Text(cause) then cause else Cause(Sanitize(t, Text(cause)), None, None)
  }

  /** What Chat returns for the outcome of the model call and of the write to llm_calls. */
  function ChatError(t: TextModel, outcome: Result<Response>, failure: Option<Error>): Option<Error> {
    match (outcome, failure)
    case (Ok(_), None) => None
    case (Ok(_), Some(f)) => Some(AuditPersistence(SafeWrap(t, "persist llm call", f)))
    case (Err(e), None) => Some(SafeWrap(t, "provider call failed", e))
    case (Err(e), Some(f)) => Some(Joined(SafeWrap(t, "persist llm call", f), SafeWrap(t, "provider call failed", e)))
  }

  /** What Execute returns for the outcome of the tool and of the write to tool_invocations. */
  function ExecuteError(t: TextModel, cause: Option<Error>, failure: Option<Error>): Option<Error> {
    var recorded :=
      if failure.None? then None else Some(Wrapped("record tool invocation", Text(failure.value), failure));
    if cause.None? then recorded
    else if recorded.None? then Some(SanitizeToolError(t, cause.value))
    else Some(Joined(SanitizeToolError(t, cause.value), recorded.value))
  }

  /** The text of the cause is not to be shown. */
  predicate Hidden(t: TextModel, cause: Error) { t.sensitive(Text(cause)) && Text(cause) != "[REDACTED]" }

  /** The error tells of the cause under the prefix: with its text and itself, unless that is to be hidden. */
  predicate TellsOf(t: TextModel, error: Error, prefix: string, cause: Error) {
    Carries(error, if Hidden(t, cause) then Wrapped(prefix, "[REDACTED]", None)
                   else Wrapped(prefix, Text(cause), Some(cause)))
  }

  lemma SafeWrapTells(t: TextModel, prefix: string, cause: Error)
    ensures TellsOf(t, SafeWrap(t, prefix, cause), prefix, cause)
  {
  }

  lemma JoinTells(t: TextModel, first: Error, second: Error, prefix: string, cause: Error)
    requires TellsOf(t, first, prefix, cause) || TellsOf(t, second, prefix, cause)
    ensures TellsOf(t, Joined(first, second), prefix, cause)
  {
  }

  /** A failed chat tells of everything that failed: the call, and the write of its row. */
  lemma ChatErrorTells(t: TextModel, outcome: Result<Response>, failure: Option<Error>)
    ensures ChatError(t, outcome, failure).Some? <==> outcome.Err? || failure.Some?
    ensures outcome.Err? ==> TellsOf(t, ChatError(t, outcome, failure).value, "provider call failed", outcome.error)
    ensures failure.Some? ==> TellsOf(t, ChatError(t, outcome, failure).value, "persist llm call", failure.value)
  {
  }

  /** And a failed tool call: of the failure, or of nothing but that it is hidden, and of the write of its row. */
  lemma ExecuteErrorTells(t: TextModel, cause: Option<Error>, failure: Option<Error>)
    ensures ExecuteError(t, cause, failure).Some? <==> cause.Some? || failure.Some?
    ensures cause.Some? ==> Carries(ExecuteError(t, cause, failure).value,
      if Hidden(t, cause.value) then Cause("[REDACTED]", None, None) else cause.value)
    ensures failure.Some? ==> Carries(ExecuteError(t, cause, failure).value,
      Wrapped("record tool invocation", Text(failure.value), failure))
  {
  }

  /** Nothing of a cause that is to be hidden gets out: the errors are the same whichever it was. */
  lemma HiddenStaysHidden(t: TextModel, a: Error, b: Error, failure: Option<Error>, outcome: Result<Response>)
    requires Hidden(t, a) && Hidden(t, b)
    ensures ChatError(t, Err(a), failure) == ChatError(t, Err(b), failure)
    ensures ChatError(t, outcome, Some(a)) == ChatError(t, outcome, Some(b))
    ensures ExecuteError(t, Some(a), failure) == ExecuteError(t, Some(b), failure)
  {
  }

  /** Wrapping keeps the marker, redaction drops it. */
  lemma SafeWrapMark(t: TextModel, prefix: string, cause: Error)
    ensures ResponseMark(SafeWrap(t, prefix, cause)) ==
      if Sanitize(t, Text(cause)) == Text(cause) then ResponseMark(cause) else None
  {
  }

  /** The marker that lets Run keep a response appears exactly when the model answered and its row
      was not written, unless an error from outside offers the marker itself. */
  lemma ResponseKeptIffUnpersisted(t: TextModel, outcome: Result<Response>, failure: Option<Error>)
    requires outcome.Err? ==> !ResponseAvailable(outcome.error)
    requires failure.Some? ==> !ResponseAvailable(failure.value)
    ensures ChatError(t, outcome, failure).Some? && ResponseAvailable(ChatError(t, outcome, failure).value)
            <==> outcome.Ok? && failure.Some?
  {
    if outcome.Err? {
      SafeWrapMark(t, "provider call failed", outcome.error);
      if failure.Some? { SafeWrapMark(t, "persist llm call", failure.value); }
    }
  }

  // ---------- The protocol ----------

  /** Where a run stands between two events; round counts the model calls made. */
  datatype Phase =
    | AtCheck(round: nat)
    | AtPrompt(round: nat)
    | AtChat(round: nat, prompt: seq<Message>)
    | AtRecord(round: nat, outcome: Result<Response>)
    | AtCalls(round: nat, calls: seq<ToolCall>)
    | Stopped(round: nat, result: Result<string>)
    | Violation

  function Advance(t: TextModel, p: Phase, e: Event): Phase {
    match p
    case AtCheck(n) =>
      if !e.Checked? then Violation
      else if e.cancelled.Some? then Stopped(n, Err(e.cancelled.value))
      else AtPrompt(n)
    case AtPrompt(n) =>
      if !e.Prompted? then Violation
      else (match e.prompt
            case Ok(prompt) => AtChat(n, prompt)
            case Err(error) => Stopped(n, Err(Wrapped("build prompt", Text(error), Some(error)))))
    case AtChat(n, prompt) =>
      if e.Refused? then Stopped(n, Err(e.error))
      else if e.Generated? && e.request == prompt then AtRecord(n + 1, e.outcome)
      else Violation
    case AtRecord(n, outcome) =>
      if !(e.CallRecorded? && e.response == outcome && e.row.success == outcome.Ok?) then Violation
      else if ChatError(t, outcome, e.failure).Some? then Stopped(n, Err(ChatError(t, outcome, e.failure).value))
      else if outcome.value.message.toolCalls == [] then Stopped(n, Ok(outcome.value.message.content))
      else AtCalls(n, outcome.value.message.toolCalls)
    case AtCalls(n, calls) =>
      if calls == [] then Violation
      else if e.Described? then (if e.described == calls[0] then p else Violation)
      else if e.Invoked? then (if e.call == calls[0] then p else Violation)
      else if e.Waited? || e.Logged? then p
      else if !(e.InvocationRecorded? && e.answered == calls[0] && e.entry.success == e.cause.None?) then Violation
      else if ExecuteError(t, e.cause, e.lost).Some? then Stopped(n, Err(ExecuteError(t, e.cause, e.lost).value))
      else if |calls| == 1 then AtCheck(n)
      else AtCalls(n, calls[1..])
    case Stopped(_, _) => Violation
    case Violation => Violation
  }

  function Track(t: TextModel, trace: seq<Event>): Phase {
    if trace == [] then AtCheck(0) else Advance(t, Track(t, trace[..|trace| - 1]), trace[|trace| - 1])
  }

  /** A run ended with a result: at a stop, or at the iteration bound. */
  predicate Finished(p: Phase, bound: nat, r: Result<string>) {
    (p.Stopped? && p.round <= bound && r == p.result) || (p == AtCheck(bound) && r == Err(MaxIterations))
  }

  /** The messages an event leaves in the session. */
  function Spoken(t: TextModel, e: Event): seq<Message> {
    match e
    case CallRecorded(Ok(response), _, _) => [response.message]
    case CallRecorded(Err(_), _, _) =>
      if ResponseAvailable(ChatError(t, e.response, e.failure).value) then [EMPTY_RESPONSE.message] else []
    case Refused(error) => if ResponseAvailable(error) then [EMPTY_RESPONSE.message] else []
    case InvocationRecorded(call, result, _, _, _) => [ToolResult(result, call)]
    case _ => []
  }

  function Transcript(t: TextModel, trace: seq<Event>): seq<Message> {
    if trace == [] then [] else Transcript(t, trace[..|trace| - 1]) + Spoken(t, trace[|trace| - 1])
  }

  lemma TrackAppend(t: TextModel, trace: seq<Event>, e: Event)
    ensures Track(t, trace + [e]) == Advance(t, Track(t, trace), e)
    ensures Transcript(t, trace + [e]) == Transcript(t, trace) + Spoken(t, e)
  {
    assert (trace + [e])[..|trace|] == trace;
  }

  // ---------- What the protocol means ----------

  /** The number of tool_invocations rows attempted. */
  function Settled(trace: seq<Event>): nat {
    if trace == [] then 0
    else Settled(trace[..|trace| - 1]) + if trace[|trace| - 1].InvocationRecorded? then 1 else 0
  }

  /** The number of model calls. */
  function Generations(trace: seq<Event>): nat {
    if trace == [] then 0
    else Generations(trace[..|trace| - 1]) + if trace[|trace| - 1].Generated? then 1 else 0
  }

  /** Event j wrote the row of a successful model call and no model call came after it. */
  ghost predicate Authority(trace: seq<Event>, j: nat) {
    && j < |trace|
    && trace[j].CallRecorded? && trace[j].response.Ok? && trace[j].row.success && trace[j].failure.None?
    && forall k | j < k < |trace| :: !trace[k].Generated?
  }

  /** The calls still to be settled are those of the authorising response from the first unsettled one. */
  ghost predicate Awaits(trace: seq<Event>, j: nat, calls: seq<ToolCall>) {
    && Authority(trace, j) && calls != []
    && var asked := trace[j].response.value.message.toolCalls;
    && Settled(trace[j + 1..]) <= |asked| && calls == asked[Settled(trace[j + 1..])..]
  }

  /** What each phase says about the events so far. */
  ghost predicate Explains(trace: seq<Event>, p: Phase) {
    match p
    case AtRecord(_, outcome) => trace != [] && trace[|trace| - 1].Generated? && trace[|trace| - 1].outcome == outcome
    case AtCalls(_, calls) => exists j: nat :: Awaits(trace, j, calls)
    case _ => true
  }

  lemma SettledAppend(trace: seq<Event>, e: Event, j: nat)
    requires j <= |trace|
    ensures Settled((trace + [e])[j..]) == Settled(trace[j..]) + if e.InvocationRecorded? then 1 else 0
  {
    assert (trace + [e])[j..] == trace[j..] + [e];
    assert (trace[j..] + [e])[..|trace| - j] == trace[j..];
  }

  /** A settled call leaves the rest of the calls, any other event but a model call leaves them all. */
  lemma AwaitsStep(trace: seq<Event>, j: nat, calls: seq<ToolCall>, e: Event)
    requires Awaits(trace, j, calls) && !e.Generated?
    ensures !e.InvocationRecorded? ==> Awaits(trace + [e], j, calls)
    ensures e.InvocationRecorded? && |calls| > 1 ==> Awaits(trace + [e], j, calls[1..])
  {
    SettledAppend(trace, e, j + 1);
    assert forall k | 0 <= k < |trace| :: (trace + [e])[k] == trace[k];
    hide Settled;
  }

  lemma AwaitsStart(trace: seq<Event>, e: Event)
    requires e.CallRecorded? && e.response.Ok? && e.row.success && e.failure.None? &&
      e.response.value.message.toolCalls != []
    ensures Awaits(trace + [e], |trace|, e.response.value.message.toolCalls)
  {
    assert (trace + [e])[|trace| + 1..] == [];
  }

  lemma ExplainsStep(t: TextModel, trace: seq<Event>, p: Phase, e: Event)
    requires Explains(trace, p)
    ensures Explains(trace + [e], Advance(t, p, e))
  {
    hide Awaits, ExecuteError;
    if Advance(t, p, e).AtCalls? {
      if p.AtRecord? {
        AwaitsStart(trace, e);
      } else {
        var j: nat :| Awaits(trace, j, p.calls);
        AwaitsStep(trace, j, p.calls, e);
      }
    }
  }

  lemma {:induction false} TrackExplains(t: TextModel, trace: seq<Event>)
    ensures Explains(trace, Track(t, trace))
    ensures Track(t, trace).Violation? || Track(t, trace).round == Generations(trace)
  {
    if trace != [] {
      var front := trace[..|trace| - 1];
      assert trace == front + [trace[|trace| - 1]];
      TrackExplains(t, front);
      ExplainsStep(t, front, Track(t, front), trace[|trace| - 1]);
    }
  }

  lemma {:induction false} LawfulPrefix(t: TextModel, trace: seq<Event>, i: nat)
    requires i <= |trace| && !Track(t, trace).Violation?
    ensures !Track(t, trace[..i]).Violation?
    ensures i < |trace| ==> !Track(t, trace[..i]).Stopped?
    ensures i < |trace| ==> Track(t, trace[..i + 1]) == Advance(t, Track(t, trace[..i]), trace[i])
    decreases |trace| - i
  {
    if i < |trace| {
      LawfulPrefix(t, trace, i + 1);
      assert trace[..i + 1][..i] == trace[..i];
    } else {
      assert trace[..i] == trace;
    }
  }

  /** Every tool invocation was asked for by a model response whose success row is in the ledger, and it
      is the call that comes next in that response: as many calls before it as rows were written since. */
  lemma InvokedAfterRecord(t: TextModel, trace: seq<Event>, i: nat)
    requires !Track(t, trace).Violation? && i < |trace| && trace[i].Invoked?
    ensures exists j: nat ::
      && j < i && Authority(trace[..i], j)
      && var asked := trace[j].response.value.message.toolCalls;
      && Settled(trace[j + 1..i]) < |asked| && trace[i].call == asked[Settled(trace[j + 1..i])]
  {
    var before := trace[..i];
    LawfulPrefix(t, trace, i);
    LawfulPrefix(t, trace, i + 1);
    TrackExplains(t, before);
    var j: nat :| Awaits(before, j, Track(t, before).calls);
    assert before[j + 1..] == trace[j + 1..i];
    assert Authority(trace[..i], j);
  }

  /** A failed write to either ledger is the last event of a run: no model call, no invocation, nothing. */
  lemma {:induction false} FailClosed(t: TextModel, trace: seq<Event>, i: nat)
    requires !Track(t, trace).Violation? && i < |trace|
    requires (trace[i].CallRecorded? && trace[i].failure.Some?) || (trace[i].InvocationRecorded? && trace[i].lost.Some?)
    ensures i == |trace| - 1
  {
    LawfulPrefix(t, trace, i);
    LawfulPrefix(t, trace, i + 1);
  }

  /** Each model call has exactly one llm_calls attempt, the next event; a finished run lacks none. */
  lemma {:induction false} OneRecordPerGeneration(t: TextModel, trace: seq<Event>, i: nat)
    requires !Track(t, trace).Violation? && i < |trace|
    ensures trace[i].Generated? && (i + 1 < |trace| || !Track(t, trace).AtRecord?) ==>
      && i + 1 < |trace| && trace[i + 1].CallRecorded? && trace[i + 1].response == trace[i].outcome
      && trace[i + 1].row.success == trace[i].outcome.Ok?
    ensures trace[i].CallRecorded? ==> i > 0 && trace[i - 1].Generated? && trace[i - 1].outcome == trace[i].response
  {
    LawfulPrefix(t, trace, i);
    LawfulPrefix(t, trace, i + 1);
    TrackExplains(t, trace[..i]);
    assert trace[..i + 1] == trace || i + 1 < |trace|;
    if i + 1 < |trace| { LawfulPrefix(t, trace, i + 2); }
  }

  /** A run makes no more model calls than its iteration bound. */
  lemma GenerationsBounded(t: TextModel, trace: seq<Event>, bound: nat, r: Result<string>)
    requires Finished(Track(t, trace), bound, r)
    ensures Generations(trace) <= bound
    ensures r == Err(MaxIterations) && Track(t, trace).AtCheck? ==> Generations(trace) == bound
  {
    TrackExplains(t, trace);
  }

  // ---------- The conversation a run leaves ----------

  /** The model never speaks in the user's or a tool's role. */
  ghost predicate RolesKept(trace: seq<Event>) {
    forall i | 0 <= i < |trace| && trace[i].Generated? && trace[i].outcome.Ok? :: IsHead(trace[i].outcome.value.message)
  }

  /** Where the conversation stands in each phase. */
  ghost predicate Stands(p: Phase, place: Place) {
    match p
    case AtCheck(n) => if n == 0 then place.Asked? else place.Complete?
    case AtPrompt(n) => if n == 0 then place.Asked? else place.Complete?
    case AtChat(n, _) => if n == 0 then place.Asked? else place.Complete?
    case AtRecord(n, outcome) => n > 0 && (place.Asked? || place.Complete?) &&
         (outcome.Ok? ==> IsHead(outcome.value.message))
    case AtCalls(n, calls) => n > 0 && calls != [] && place == Pending(calls)
    case Stopped(_, result) => if result.Ok? then place.Closed? else !place.Broken?
    case Violation => true
  }

  /** The effect of an event's messages on the conversation. */
  function Reach(place: Place, spoken: seq<Message>): Place {
    if spoken == [] then place else Next(place, spoken[0])
  }

  lemma StandsStep(t: TextModel, p: Phase, place: Place, e: Event)
    requires Stands(p, place) && |Spoken(t, e)| <= 1
    requires e.Generated? && e.outcome.Ok? ==> IsHead(e.outcome.value.message)
    ensures Stands(Advance(t, p, e), Reach(place, Spoken(t, e)))
  {
    match p
    case AtChat(_, _) =>
    case AtRecord(_, outcome) =>
    case AtCalls(n, calls) =>
    case _ =>
  }

  /** A run that follows the protocol keeps the grammar: after the user message that opened it, the
      messages it left stand where the phase says. */
  lemma {:induction false} RunKeepsGrammar(t: TextModel, before: seq<Message>, content: string, trace: seq<Event>)
    requires Accepts(before) && RolesKept(trace)
    ensures var rooted := before + [TextMessage(ROLE_USER, content)];
      Stands(Track(t, trace), Scan(rooted + Transcript(t, trace)))
  {
    var rooted := before + [TextMessage(ROLE_USER, content)];
    if trace == [] {
      ScanAppend(before, TextMessage(ROLE_USER, content));
      assert rooted + [] == rooted;
    } else {
      var front, last := trace[..|trace| - 1], trace[|trace| - 1];
      RunKeepsGrammar(t, before, content, front);
      var said := rooted + Transcript(t, front);
      StandsStep(t, Track(t, front), Scan(said), last);
      if Spoken(t, last) == [] {
        assert rooted + Transcript(t, trace) == said;
      } else {
        ScanAppend(said, Spoken(t, last)[0]);
        assert rooted + Transcript(t, trace) == said + [Spoken(t, last)[0]];
      }
    }
  }
}
