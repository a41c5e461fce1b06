/** Validating, invoking and recording one logical Tool call (internal/tool/executor.go). */
module Executor {
  import opened Base
  import opened Llm
  import opened Audit
  import Schema
  import W = World

  const MAX_TOOL_RETRIES := 3

  /** A registered tool and its policy. */
  datatype Configured = Configured(implemented: bool, retryable: bool, idempotent: bool, timeout: int)

  type Tools = map<string, Configured>

  // ---------- Attempts ----------

  /** One pass of the retry loop: what the tool answered and how the wait after it went, if there was one. */
  datatype Attempt = Attempt(output: string, fault: Option<Error>, interrupt: Option<Option<Error>>)

  function Pow2(n: nat): nat {
    if n == 0 then 1 else 2 * Pow2(n - 1)
  }

  /** Whether attempt k, counted from zero, may be followed by another. */
  predicate Eligible(tool: Configured, k: nat, fault: Error) {
    k < MAX_TOOL_RETRIES && tool.retryable && tool.idempotent && Retryable(fault)
  }

  /** The attempt failed, was eligible and its wait ended: the loop goes on. */
  predicate GoesOn(tool: Configured, k: nat, a: Attempt) {
    a.fault.Some? && Eligible(tool, k, a.fault.value) && a.interrupt == Some(None)
  }

  /** The attempt ends the loop: by success, by a failure that is not eligible, or in its wait. */
  predicate Ends(tool: Configured, k: nat, a: Attempt) {
    if a.fault.None? then a.interrupt.None?
    else if Eligible(tool, k, a.fault.value) then a.interrupt.Some? && a.interrupt.value.Some?
    else a.interrupt.None?
  }

  predicate Lawful(tool: Configured, attempts: seq<Attempt>) {
    && attempts != []
    && (forall k: nat | k < |attempts| - 1 :: GoesOn(tool, k, attempts[k]))
    && Ends(tool, |attempts| - 1, attempts[|attempts| - 1])
  }

  function PassEvents(call: ToolCall, schema: string, k: nat, a: Attempt): seq<Event> {
    [Invoked(call, schema, a.output, a.fault)]
    + (if a.interrupt.Some? then [Waited(10 * Pow2(k), a.interrupt.value)] else [])
    + [Logged(k + 1, a.interrupt != Some(None), a.fault.None?)]
  }

  function AttemptEvents(call: ToolCall, schema: string, attempts: seq<Attempt>): seq<Event> {
    if attempts == [] then []
    else
      var n := |attempts| - 1;
      AttemptEvents(call, schema, attempts[..n]) + PassEvents(call, schema, n, attempts[n])
  }

  lemma AttemptEventsAppend(call: ToolCall, schema: string, attempts: seq<Attempt>, a: Attempt)
    ensures AttemptEvents(call, schema, attempts + [a])
         == AttemptEvents(call, schema, attempts) + PassEvents(call, schema, |attempts|, a)
  {
    assert (attempts + [a])[..|attempts|] == attempts;
  }

  /** The failure that ends a tool's attempts. */
  function Verdict(name: string, last: Attempt): Option<Error> {
    if last.fault.None? then None
    else if last.interrupt.Some? && last.interrupt.value.Some? then
      Some(Wrapped("execute tool " + name + " retry wait", Text(last.interrupt.value.value), last.interrupt.value))
    else Some(Wrapped("execute tool " + name, Text(last.fault.value), last.fault))
  }

  /** At most four attempts, and more than one only for a retryable, idempotent tool whose earlier
      failures were all retryable. */
  lemma AttemptsBounded(tool: Configured, attempts: seq<Attempt>)
    requires Lawful(tool, attempts)
    ensures |attempts| <= 4
    ensures |attempts| > 1 ==> tool.retryable && tool.idempotent
    ensures forall k | 0 <= k < |attempts| - 1 :: attempts[k].fault.Some? && Retryable(attempts[k].fault.value)
  {
    if |attempts| > 1 {
      assert GoesOn(tool, |attempts| - 2, attempts[|attempts| - 2]);
    }
  }

  /** A further attempt must be made, up to the fourth: attempts end earlier only with a success, with a failure whose
      first offer is not to retry, or with a wait that did not end; a tool that is not retryable and idempotent has one
      attempt. */
  lemma AttemptsPersist(tool: Configured, attempts: seq<Attempt>)
    requires Lawful(tool, attempts)
    ensures var last := attempts[|attempts| - 1];
      |attempts| < 4 && tool.retryable && tool.idempotent && last.fault.Some?
      && RetryOffers(last.fault.value) != [] && RetryOffers(last.fault.value)[0] ==>
        last.interrupt.Some? && last.interrupt.value.Some?
  {
    var last := attempts[|attempts| - 1];
    if last.fault.Some? { RetryableFirst(last.fault.value); }
  }

  function Invocations(trace: seq<Event>): nat {
    if trace == [] then 0
    else Invocations(trace[..|trace| - 1]) + if trace[|trace| - 1].Invoked? then 1 else 0
  }

  function Logs(trace: seq<Event>): seq<Event> {
    if trace == [] then []
    else Logs(trace[..|trace| - 1]) + if trace[|trace| - 1].Logged? then [trace[|trace| - 1]] else []
  }

  function Waits(trace: seq<Event>): seq<Event> {
    if trace == [] then []
    else Waits(trace[..|trace| - 1]) + if trace[|trace| - 1].Waited? then [trace[|trace| - 1]] else []
  }

  lemma ProjectAppend(trace: seq<Event>, e: Event)
    ensures Invocations(trace + [e]) == Invocations(trace) + if e.Invoked? then 1 else 0
    ensures Logs(trace + [e]) == Logs(trace) + if e.Logged? then [e] else []
    ensures Waits(trace + [e]) == Waits(trace) + if e.Waited? then [e] else []
  {
    assert (trace + [e])[..|trace|] == trace;
  }

  lemma ProjectPass(trace: seq<Event>, call: ToolCall, schema: string, k: nat, a: Attempt)
    ensures var all := trace + PassEvents(call, schema, k, a);
      && Invocations(all) == Invocations(trace) + 1
      && Logs(all) == Logs(trace) + [Logged(k + 1, a.interrupt != Some(None), a.fault.None?)]
      && Waits(all) == Waits(trace) + if a.interrupt.Some? then [Waited(10 * Pow2(k), a.interrupt.value)] else []
  {
    var one := trace + [Invoked(call, schema, a.output, a.fault)];
    ProjectAppend(trace, Invoked(call, schema, a.output, a.fault));
    var two := if a.interrupt.Some? then one + [Waited(10 * Pow2(k), a.interrupt.value)] else one;
    if a.interrupt.Some? { ProjectAppend(one, Waited(10 * Pow2(k), a.interrupt.value)); }
    var log := Logged(k + 1, a.interrupt != Some(None), a.fault.None?);
    ProjectAppend(two, log);
    assert trace + PassEvents(call, schema, k, a) == two + [log];
  }

  /** Only the last attempt has no wait that ended. */
  lemma FinalIffLast(tool: Configured, attempts: seq<Attempt>, k: nat)
    requires Lawful(tool, attempts) && k < |attempts|
    ensures attempts[k].interrupt != Some(None) <==> k == |attempts| - 1
  {
    if k < |attempts| - 1 { assert GoesOn(tool, k, attempts[k]); }
  }

  function LogOf(k: nat, a: Attempt): Event { Logged(k + 1, a.interrupt != Some(None), a.fault.None?) }

  /** The waits of the attempts: one for each whose wait began. */
  function WaitsOf(attempts: seq<Attempt>): seq<Event> {
    if attempts == [] then []
    else
      var n := |attempts| - 1;
      WaitsOf(attempts[..n])
      + if attempts[n].interrupt.Some? then [Waited(10 * Pow2(n), attempts[n].interrupt.value)] else []
  }

  lemma {:induction false} AttemptsProjected(call: ToolCall, schema: string, attempts: seq<Attempt>)
    ensures var events := AttemptEvents(call, schema, attempts);
      && Invocations(events) == |attempts| && |Logs(events)| == |attempts|
      && (forall k: nat | k < |attempts| :: Logs(events)[k] == LogOf(k, attempts[k]))
      && Waits(events) == WaitsOf(attempts)
  {
    if attempts != [] {
      hide Invocations, Logs, Waits, PassEvents, LogOf;
      var n := |attempts| - 1;
      AttemptsProjected(call, schema, attempts[..n]);
      ProjectPass(AttemptEvents(call, schema, attempts[..n]), call, schema, n, attempts[n]);
    }
  }

  /** One invocation and one log line per attempt; the lines are numbered from one and only the last is final. */
  lemma AttemptsLogged(tool: Configured, call: ToolCall, schema: string, attempts: seq<Attempt>)
    requires Lawful(tool, attempts)
    ensures var events := AttemptEvents(call, schema, attempts);
      && Invocations(events) == |attempts| && |Logs(events)| == |attempts|
      && forall k: nat | k < |attempts| ::
           Logs(events)[k] == Logged(k + 1, k == |attempts| - 1, attempts[k].fault.None?)
  {
    hide Invocations, Logs, Waits, AttemptEvents, Lawful;
    AttemptsProjected(call, schema, attempts);
    forall k: nat | k < |attempts| ensures attempts[k].interrupt != Some(None) <==> k == |attempts| - 1 {
      FinalIffLast(tool, attempts, k);
    }
  }

  /** Every attempt but the last is followed by a wait that ended, and wait k, counted from zero, is ten times
      two to the k milliseconds. */
  lemma AttemptsWaited(tool: Configured, call: ToolCall, schema: string, attempts: seq<Attempt>)
    requires Lawful(tool, attempts)
    ensures var waits := Waits(AttemptEvents(call, schema, attempts));
      && |attempts| - 1 <= |waits| <= |attempts|
      && (forall k: nat | k < |attempts| - 1 :: waits[k] == Waited(10 * Pow2(k), None))
      && |waits| <= 3
      && (forall k: nat | k < |waits| ::
            waits[k].Waited? && waits[k].milliseconds == if k == 0 then 10 else if k == 1 then 20 else 40)
      && (|waits| == |attempts| ==>
            waits[|waits| - 1].Waited? && waits[|waits| - 1].milliseconds == 10 * Pow2(|waits| - 1)
                                    && waits[|waits| - 1].interrupt.Some?)
  {
    AttemptsBounded(tool, attempts);
    FirstPowers();
    hide Waits, AttemptEvents, Pow2;
    AttemptsProjected(call, schema, attempts);
    var n := |attempts| - 1;
    WaitsOfGoing(tool, attempts[..n]);
  }

  lemma FirstPowers()
    ensures Pow2(0) == 1 && Pow2(1) == 2 && Pow2(2) == 4
  {
  }

  lemma {:induction false} WaitsOfGoing(tool: Configured, attempts: seq<Attempt>)
    requires forall k: nat | k < |attempts| :: GoesOn(tool, k, attempts[k])
    ensures |WaitsOf(attempts)| == |attempts|
    ensures forall k: nat | k < |attempts| :: WaitsOf(attempts)[k] == Waited(10 * Pow2(k), None)
  {
    if attempts != [] {
      hide Pow2;
      assert GoesOn(tool, |attempts| - 1, attempts[|attempts| - 1]);
      WaitsOfGoing(tool, attempts[..|attempts| - 1]);
    }
  }

  /** An event of the attempts at a call. */
  predicate IsAttempt(e: Event, call: ToolCall, schema: string) {
    (e.Invoked? && e.call == call && e.schema == schema) || e.Waited? || e.Logged?
  }

  ghost predicate AllAttempts(events: seq<Event>, call: ToolCall, schema: string) {
    forall e | e in events :: IsAttempt(e, call, schema)
  }

  lemma {:induction false} AttemptEventsAreAttempts(call: ToolCall, schema: string, attempts: seq<Attempt>)
    ensures AllAttempts(AttemptEvents(call, schema, attempts), call, schema)
  {
    if attempts != [] { AttemptEventsAreAttempts(call, schema, attempts[..|attempts| - 1]); }
  }

  lemma AttemptStays(t: TextModel, trace: seq<Event>, n: nat, calls: seq<ToolCall>, schema: string, e: Event)
    requires Track(t, trace) == AtCalls(n, calls) && calls != [] && IsAttempt(e, calls[0], schema)
    ensures Track(t, trace + [e]) == AtCalls(n, calls)
    ensures Transcript(t, trace + [e]) == Transcript(t, trace)
  {
    TrackAppend(t, trace, e);
  }

  lemma DescribedStays(t: TextModel, trace: seq<Event>, n: nat, calls: seq<ToolCall>, asked: Option<Result<Definition>>)
    requires Track(t, trace) == AtCalls(n, calls) && calls != []
    ensures var longer := trace + DescribedEvents(calls[0], asked);
      Track(t, longer) == AtCalls(n, calls) && Transcript(t, longer) == Transcript(t, trace)
  {
    if asked.Some? {
      TrackAppend(t, trace, Described(calls[0], asked.value));
    } else {
      assert trace + [] == trace;
    }
  }

  /** Attempts do not move a run: it still waits for the same calls, and nothing is said. */
  lemma {:induction false} AttemptsStay(t: TextModel, trace: seq<Event>, n: nat, calls: seq<ToolCall>, schema: string,
    events: seq<Event>)
    requires Track(t, trace) == AtCalls(n, calls) && calls != []
    requires AllAttempts(events, calls[0], schema)
    ensures Track(t, trace + events) == AtCalls(n, calls)
    ensures Transcript(t, trace + events) == Transcript(t, trace)
    decreases |events|
  {
    hide Track, Transcript, Advance, Spoken;
    if events == [] {
      assert trace + events == trace;
    } else {
      var longer := trace + [events[0]];
      AttemptStays(t, trace, n, calls, schema, events[0]);
      AttemptsStay(t, longer, n, calls, schema, events[1..]);
      assert trace + events == longer + events[1..];
    }
  }

  // ---------- Recording ----------

  function NormalizedJson(t: TextModel, raw: string): string {
    if t.validJson(raw) then raw else t.encode(raw)
  }

  /** The row of a call and its outcome. */
  ghost predicate IsRowOf(t: TextModel, row: ToolInvocation, sessionID: string, call: ToolCall, result: string,
    cause: Option<Error>) {
    && row.sessionID == sessionID
    && row.toolName == (if Trim(call.callee.name) == "" then "<unknown>" else Trim(call.callee.name))
    && row.inputJSON ==
       (if t.validJson(call.callee.arguments) then call.callee.arguments else t.encode(call.callee.arguments))
    && row.resultJSON == t.encode(result)
    && row.success == cause.None?
    && row.durationMS >= 0
    && row.errorMessage == (if cause.None? then None else Some(Text(SanitizeToolError(t, cause.value))))
  }

  /** What the store demands of a row, with the message as the store redacts it once more. */
  predicate ValidRow(t: TextModel, row: ToolInvocation) {
    && !Blank(row.sessionID) && !Blank(row.toolName) && row.durationMS >= 0 && row.createdAt != 0
    && (if row.success then row.errorMessage.None?
        else row.errorMessage.Some? && !Blank(Sanitize(t, row.errorMessage.value)))
  }

  /** Every failure that execute reports names itself. */
  predicate NamesItself(cause: Option<Error>) {
    cause.Some? ==> |Text(cause.value)| > 0 && Text(cause.value)[0] == 'e'
  }

  /** The row Execute writes is accepted by the store exactly when the session is named and the clock
      does not show the zero time. */
  lemma RowAcceptedIff(t: TextModel, row: ToolInvocation, sessionID: string, call: ToolCall, result: string,
    cause: Option<Error>)
    requires IsRowOf(t, row, sessionID, call, result, cause) && NamesItself(cause)
    ensures ValidRow(t, row) <==> !Blank(sessionID) && row.createdAt != 0
  {
    hide Blank, Trim;
    VisibleStart("<unknown>");
    VisibleStart(REDACTED);
    if Trim(call.callee.name) != "" { TrimmedNotBlank(call.callee.name); }
    if cause.Some? { VisibleStart(Text(cause.value)); }
  }

  // ---------- Execute ----------

  function Reject(text: string): Option<Error> { Some(Cause("execute tool: " + text, None, None)) }

  /** Why a call is rejected before its tool is asked for its metadata. */
  function Rejection(tools: Tools, allowed: seq<string>, name: string): Option<Error> {
    if name == "" then Reject("tool name is required")
    else if name !in allowed then Reject("tool is not allowed by profile")
    else if name !in tools then Reject("tool is not registered")
    else if !tools[name].implemented then Reject("tool has no implementation")
    else if tools[name].timeout <= 0 then Reject("tool timeout must be positive")
    else None
  }

  /** What must hold of a call for its tool to be invoked. */
  ghost predicate Permitted(t: TextModel, tools: Tools, allowed: seq<string>, call: ToolCall, schema: string) {
    && Rejection(tools, allowed, Trim(call.callee.name)).None?
    && Schema.ArgumentsConform(t.decode, schema, call.callee.arguments)
  }

  method ContainsExact(values: seq<string>, wanted: string) returns (found: bool)
    ensures found <==> wanted in values
  {
    for i := 0 to |values|
      invariant wanted !in values[..i]
    {
      if values[i] == wanted { return true; }
    }
    return false;
  }

  /** The tool names itself as it was called, and its declared schema accepts the arguments. */
  ghost predicate Suits(t: TextModel, definition: Definition, call: ToolCall) {
    definition.name == Trim(call.callee.name) &&
      Schema.ArgumentsConform(t.decode, definition.inputSchema, call.callee.arguments)
  }

  function DescribedEvents(call: ToolCall, asked: Option<Result<Definition>>): seq<Event> {
    if asked.None? then [] else [Described(call, asked.value)]
  }

  /** The checks before the loop; the schema is the document the tool declared. A call is admitted exactly when all
      of them pass. */
  method Admit(world: W.World, tools: Tools, allowed: seq<string>, call: ToolCall)
    returns (cause: Option<Error>, schema: string, ghost asked: Option<Result<Definition>>)
    modifies world`trace
    ensures world.trace == old(world.trace) + DescribedEvents(call, asked)
    ensures asked.Some? <==> Rejection(tools, allowed, Trim(call.callee.name)).None?
    ensures asked.None? ==> cause == Rejection(tools, allowed, Trim(call.callee.name))
    ensures asked.Some? && asked.value.Err? ==>
      cause == Some(Wrapped("execute tool: read metadata", Text(asked.value.error), Some(asked.value.error)))
    ensures asked.Some? && asked.value.Ok? ==>
      (cause.None? <==> Suits(world.texts, asked.value.value, call))
    ensures cause.None? ==>
      asked.value.value == Definition(Trim(call.callee.name), schema) &&
        Permitted(world.texts, tools, allowed, call, schema)
    ensures NamesItself(cause)
  {
    asked, schema := None, "";
    var name := Trim(call.callee.name);
    if name == "" { return Reject("tool name is required"), schema, asked; }
    var listed := ContainsExact(allowed, name);
    if !listed { return Reject("tool is not allowed by profile"), schema, asked; }
    if name !in tools { return Reject("tool is not registered"), schema, asked; }
    var configured := tools[name];
    if !configured.implemented { return Reject("tool has no implementation"), schema, asked; }
    if configured.timeout <= 0 { return Reject("tool timeout must be positive"), schema, asked; }
    var info := world.Describe(call);
    asked := Some(info);
    if info.Err? {
      return Some(Wrapped("execute tool: read metadata", Text(info.error), Some(info.error))), schema, asked;
    }
    if info.value.name != name { return Reject("metadata name does not match call"), schema, asked; }
    schema := info.value.inputSchema;
    var invalid := Schema.ValidateArguments(world.texts.decode, schema, call.callee.arguments);
    if invalid.Some? {
      return Some(Wrapped("execute tool " + name, Text(invalid.value), invalid)), schema, asked;
    }
    return None, schema, asked;
  }

  /** The retry loop. */
  method RunAttempts(world: W.World, configured: Configured, name: string, call: ToolCall, schema: string)
    returns (result: string, cause: Option<Error>, ghost attempts: seq<Attempt>)
    modifies world`trace
    ensures attempts != [] && Lawful(configured, attempts)
    ensures world.trace == old(world.trace) + AttemptEvents(call, schema, attempts)
    ensures result == attempts[|attempts| - 1].output && cause == Verdict(name, attempts[|attempts| - 1])
  {
    attempts := [];
    ghost var start, events := world.trace, AttemptEvents(call, schema, attempts);
    assert events == [] && start + events == start;
    hide AttemptEvents, PassEvents, Verdict, GoesOn, Ends, Lawful;
    var attempt: nat := 0;
    while true
      invariant attempt == |attempts| <= MAX_TOOL_RETRIES
      invariant forall k: nat | k < attempt :: GoesOn(configured, k, attempts[k])
      invariant world.trace == start + events && events == AttemptEvents(call, schema, attempts)
      decreases MAX_TOOL_RETRIES - attempt
    {
      ghost var pass;
      var done: bool;
      result, cause, done, pass := RunAttempt(world, configured, name, call, schema, attempt);
      AttemptEventsAppend(call, schema, attempts, pass);
      Regroup(start, events, PassEvents(call, schema, attempt, pass));
      attempts, events := attempts + [pass], events + PassEvents(call, schema, attempt, pass);
      if done {
        EndedLawfully(configured, attempts);
        return;
      }
      attempt := attempt + 1;
    }
  }

  lemma Regroup(a: seq<Event>, b: seq<Event>, c: seq<Event>)
    ensures a + b + c == a + (b + c)
  {
  }

  lemma EndedLawfully(configured: Configured, attempts: seq<Attempt>)
    requires attempts != [] && Ends(configured, |attempts| - 1, attempts[|attempts| - 1])
    requires forall k: nat | k < |attempts| - 1 :: GoesOn(configured, k, attempts[k])
    ensures Lawful(configured, attempts)
  {
  }

  /** One pass of the loop: invoke, then finish or wait. */
  method RunAttempt(world: W.World, configured: Configured, name: string, call: ToolCall, schema: string, attempt: nat)
    returns (result: string, cause: Option<Error>, done: bool, ghost pass: Attempt)
    modifies world`trace
    ensures world.trace == old(world.trace) + PassEvents(call, schema, attempt, pass)
    ensures if done then Ends(configured, attempt, pass) else GoesOn(configured, attempt, pass)
    ensures result == pass.output && (if done then cause == Verdict(name, pass) else attempt < MAX_TOOL_RETRIES)
  {
    var fault;
    result, fault := world.Invoke(call, schema);
    pass := Attempt(result, fault, None);
    if fault.None? {
      world.Log(attempt + 1, true, true);
      return result, None, true, pass;
    }
    var retryEligible := attempt < MAX_TOOL_RETRIES && configured.retryable && configured.idempotent &&
      Retryable(fault.value);
    if !retryEligible {
      world.Log(attempt + 1, true, false);
      return result, Some(Wrapped("execute tool " + name, Text(fault.value), fault)), true, pass;
    }
    var waitErr := world.Wait(Pow2(attempt) * 10);
    pass := Attempt(result, fault, Some(waitErr));
    if waitErr.Some? {
      world.Log(attempt + 1, true, false);
      return result, Some(Wrapped("execute tool " + name + " retry wait", Text(waitErr.value), waitErr)), true, pass;
    }
    world.Log(attempt + 1, false, false);
    return result, None, false, pass;
  }

  /** What one Execute leaves: the attempts, if the call was permitted, and one row. */
  datatype Execution = Execution(
    asked: Option<Result<Definition>>, schema: string, attempts: seq<Attempt>, result: string, cause: Option<Error>,
    row: ToolInvocation, lost: Option<Error>)

  ghost predicate Executed(t: TextModel, tools: Tools, allowed: seq<string>, sessionID: string, call: ToolCall,
    x: Execution) {
    && IsRowOf(t, x.row, sessionID, call, x.result, x.cause) && NamesItself(x.cause)
    && if x.attempts == [] then
         x.cause.Some? && x.result == ""
       else
         var last := x.attempts[|x.attempts| - 1];
         && x.asked.Some? && x.asked.value.Ok? && x.asked.value.value == Definition(Trim(call.callee.name), x.schema)
         && Permitted(t, tools, allowed, call, x.schema)
         && Lawful(tools[Trim(call.callee.name)], x.attempts)
         && x.result == last.output && x.cause == Verdict(Trim(call.callee.name), last)
  }

  function ExecutionEvents(call: ToolCall, x: Execution): seq<Event> {
    DescribedEvents(call, x.asked) + AttemptEvents(call, x.schema, x.attempts) +
      [InvocationRecorded(call, x.result, x.cause, x.row, x.lost)]
  }

  lemma NoAttempts(call: ToolCall)
    ensures forall schema :: AttemptEvents(call, schema, []) == []
  {
  }

  lemma Admitted(tools: Tools, allowed: seq<string>, name: string)
    requires Rejection(tools, allowed, name).None?
    ensures name in tools && name in allowed
  {
  }

  lemma VerdictNames(name: string, last: Attempt)
    ensures NamesItself(Verdict(name, last))
  {
  }

  method Execute(world: W.World, tools: Tools, sessionID: string, allowed: seq<string>, call: ToolCall)
    returns (result: string, failure: Option<Error>, ghost x: Execution)
    modifies world
    ensures Executed(world.texts, tools, allowed, sessionID, call, x)
    ensures world.trace == old(world.trace) + ExecutionEvents(call, x)
    ensures result == x.result && failure == ExecuteError(world.texts, x.cause, x.lost)
    ensures exists startedAt ::
      W.Timed(old(world.readings), world.readings, startedAt, x.row.createdAt, x.row.durationMS)
  {
    NoAttempts(call);
    hide IsRowOf, ExecuteError, Lawful, Permitted, Rejection, AttemptEvents, Trim, Verdict, NamesItself;
    var startedAt := world.Now();
    var toolName := Trim(call.callee.name);
    var invokeErr, schema, asked := Admit(world, tools, allowed, call);
    result := "";
    ghost var attempts: seq<Attempt> := [];
    if invokeErr.None? {
      assert toolName in tools by { Admitted(tools, allowed, toolName); }
      result, invokeErr, attempts := RunAttempts(world, tools[toolName], toolName, call, schema);
      VerdictNames(toolName, attempts[|attempts| - 1]);
    }
    ghost var row, lost;
    failure, row, lost := RecordInvocation(world, sessionID, toolName, call, result, invokeErr, startedAt);
    assert W.Timed(old(world.readings), world.readings, startedAt, row.createdAt, row.durationMS);
    x := Execution(asked, schema, attempts, result, invokeErr, row, lost);
  }

  /** The recording part of Execute: one row, built field by field. */
  method RecordInvocation(world: W.World, sessionID: string, toolName: string, call: ToolCall, result: string,
    invokeErr: Option<Error>, startedAt: int)
    returns (failure: Option<Error>, ghost row: ToolInvocation, ghost lost: Option<Error>)
    requires toolName == Trim(call.callee.name)
    modifies world
    ensures IsRowOf(world.texts, row, sessionID, call, result, invokeErr)
    ensures world.readings == old(world.readings) + [row.createdAt]
    ensures row.durationMS ==
      if row.createdAt < startedAt then 0 else (row.createdAt - startedAt) / 1_000_000
    ensures world.trace == old(world.trace) + [InvocationRecorded(call, result, invokeErr, row, lost)]
    ensures failure == ExecuteError(world.texts, invokeErr, lost)
  {
    var finishedAt := world.Now();
    var safeInvokeErr := if invokeErr.None? then None else Some(SanitizeToolError(world.texts, invokeErr.value));
    var invocation := ToolInvocation(sessionID, toolName, NormalizedJson(world.texts, call.callee.arguments),
      world.texts.encode(result), safeInvokeErr.None?, W.ElapsedMS(startedAt, finishedAt), finishedAt, None);
    if invocation.toolName == "" {
      invocation := invocation.(toolName := "<unknown>");
    }
    if safeInvokeErr.Some? {
      invocation := invocation.(errorMessage := Some(Text(safeInvokeErr.value)));
    }
    var recordErr := world.CreateInvocation(call, result, invokeErr, invocation);
    row, lost := invocation, recordErr;
    if recordErr.Some? {
      recordErr := Some(Wrapped("record tool invocation", Text(recordErr.value), recordErr));
    }
    if safeInvokeErr.Some? && recordErr.Some? {
      return Some(Joined(safeInvokeErr.value, recordErr.value)), row, lost;
    }
    if safeInvokeErr.Some? { return safeInvokeErr, row, lost; }
    if recordErr.Some? { return recordErr, row, lost; }
    return None, row, lost;
  }
}
