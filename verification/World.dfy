/** Everything outside the components: models, tools, ledgers, clocks and cancellation. It may answer
    anything; each answer that matters is kept as an event. */
module World {
  import opened Base
  import opened Llm
  import opened Audit

  class World {
    const texts: TextModel
    ghost var trace: seq<Event>
    ghost var resolutions: seq<Option<Error>>
    ghost var readings: seq<int>

    constructor (texts: TextModel)
      ensures this.texts == texts && trace == [] && resolutions == [] && readings == []
    {
      this.texts := texts;
      trace, resolutions, readings := [], [], [];
    }

    /** Asks the resolver of tool definitions. */
    method Resolve() returns (failure: Option<Error>)
      modifies `resolutions
      ensures resolutions == old(resolutions) + [failure]
    {
      failure := *;
      resolutions := resolutions + [failure];
    }

    /** A clock reading in nanoseconds; zero is the zero time. */
    method Now() returns (nanoseconds: int)
      modifies `readings
      ensures readings == old(readings) + [nanoseconds]
    {
      nanoseconds := *;
      readings := readings + [nanoseconds];
    }

    /** An answer that leaves no event: a lookup, a memory read, a formatted time. */
    method Ask<T(0)>() returns (answer: T)
    {
      answer := *;
    }

    method Check() returns (cancelled: Option<Error>)
      modifies `trace
      ensures trace == old(trace) + [Checked(cancelled)]
    {
      cancelled := *;
      trace := trace + [Checked(cancelled)];
    }

    method Generate(request: seq<Message>) returns (outcome: Result<Response>)
      modifies `trace
      ensures trace == old(trace) + [Generated(request, outcome)]
    {
      outcome := *;
      trace := trace + [Generated(request, outcome)];
    }

    method CreateCall(ghost response: Result<Response>, row: LlmCall) returns (failure: Option<Error>)
      modifies `trace
      ensures trace == old(trace) + [CallRecorded(response, row, failure)]
    {
      failure := *;
      trace := trace + [CallRecorded(response, row, failure)];
    }

    method Describe(call: ToolCall) returns (info: Result<Definition>)
      modifies `trace
      ensures trace == old(trace) + [Described(call, info)]
    {
      info := *;
      trace := trace + [Described(call, info)];
    }

    method Invoke(call: ToolCall, ghost schema: string) returns (output: string, fault: Option<Error>)
      modifies `trace
      ensures trace == old(trace) + [Invoked(call, schema, output, fault)]
    {
      output, fault := *, *;
      trace := trace + [Invoked(call, schema, output, fault)];
    }

    method Wait(milliseconds: nat) returns (interrupt: Option<Error>)
      modifies `trace
      ensures trace == old(trace) + [Waited(milliseconds, interrupt)]
    {
      interrupt := *;
      trace := trace + [Waited(milliseconds, interrupt)];
    }

    method Log(attempt: nat, final: bool, success: bool)
      modifies `trace
      ensures trace == old(trace) + [Logged(attempt, final, success)]
    {
      trace := trace + [Logged(attempt, final, success)];
    }

    method CreateInvocation(ghost call: ToolCall, ghost result: string, ghost cause: Option<Error>, row: ToolInvocation)
      returns (failure: Option<Error>)
      modifies `trace
      ensures trace == old(trace) + [InvocationRecorded(call, result, cause, row, failure)]
    {
      failure := *;
      trace := trace + [InvocationRecorded(call, result, cause, row, failure)];
    }

    /** Keeps an event whose answer a component computed. */
    ghost method Note(e: Event)
      modifies `trace
      ensures trace == old(trace) + [e]
    {
      trace := trace + [e];
    }
  }

  /** The clock was read at the start and for the row, which says how long it took. */
  ghost predicate Timed(before: seq<int>, after: seq<int>, startedAt: int, createdAt: int, durationMS: int) {
    && after == before + [startedAt, createdAt]
    && durationMS == if createdAt < startedAt then 0 else (createdAt - startedAt) / 1_000_000
  }

  /** Elapsed whole milliseconds, never negative. */
  function ElapsedMS(start: int, finish: int): nat {
    if finish < start then 0 else (finish - start) / 1_000_000
  }
}
