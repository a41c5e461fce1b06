/** One synchronous, audited model call (internal/provider/service.go). */
module Provider {
  import opened Base
  import opened Llm
  import opened Profiles
  import opened Audit
  import W = World

  /** The service: which profiles have a model, and whether tool schemas can be resolved. */
  datatype Service = Service(bound: set<string>, hasResolver: bool)

  datatype Metadata = Metadata(sessionID: string, provider: string, model: string)

  function MetadataFrom(sessionID: string, selected: Profile): Metadata {
    Metadata(sessionID, selected.providerName, selected.model)
  }

  function Refuse(text: string): Option<Error> { Some(Cause(text, None, None)) }

  /** Why a call is refused before the model is asked, leaving out the resolver's own answer. */
  function Refusal(service: Service, sessionID: string, selected: Profile): Option<Error> {
    if Blank(sessionID) then Refuse("session_id is required")
    else if Blank(selected.name) then Refuse("profile is required")
    else if selected.name !in service.bound then Refuse("model binding not found")
    else if selected.tools != [] && !service.hasResolver then Refuse("tool schema resolver is required")
    else None
  }

  function Unresolved(t: TextModel, cause: Option<Error>): Option<Error> {
    if cause.None? then None else Some(SafeWrap(t, "resolve tool schemas", cause.value))
  }

  /** Every check before the model is asked; the resolver is asked only for a profile with tools, and its failure is
      wrapped so that nothing sensitive shows. */
  method PrepareCall(service: Service, world: W.World, sessionID: string, selected: Profile)
    returns (refusal: Option<Error>, ghost unresolved: Option<Error>)
    modifies world`resolutions
    ensures Refusal(service, sessionID, selected).Some? ==> refusal == Refusal(service, sessionID, selected)
    ensures Refusal(service, sessionID, selected).None? ==> refusal == Unresolved(world.texts, unresolved)
    ensures world.resolutions == old(world.resolutions) +
      if Refusal(service, sessionID, selected).None? && selected.tools != [] then [unresolved] else []
    ensures Refusal(service, sessionID, selected).Some? || selected.tools == [] ==> unresolved.None?
  {
    unresolved := None;
    if Trim(sessionID) == "" { return Refuse("session_id is required"), unresolved; }
    if Trim(selected.name) == "" { return Refuse("profile is required"), unresolved; }
    if selected.name !in service.bound { return Refuse("model binding not found"), unresolved; }
    if |selected.tools| > 0 {
      if !service.hasResolver { return Refuse("tool schema resolver is required"), unresolved; }
      var resolveErr := world.Resolve();
      if resolveErr.Some? {
        return Some(SafeWrap(world.texts, "resolve tool schemas", resolveErr.value)), resolveErr;
      }
    }
    return None, unresolved;
  }

  /** The row of an outcome: usage only for a success, a redacted message only for a failure. */
  ghost predicate IsRowOf(t: TextModel, row: LlmCall, metadata: Metadata, outcome: Result<Response>) {
    && row.sessionID == metadata.sessionID && row.provider == metadata.provider && row.model == metadata.model
    && row.success == outcome.Ok?
    && row.durationMS >= 0
    && row.usage == (if outcome.Ok? then outcome.value.usage else Usage(0, 0, 0))
    && row.errorMessage ==
       (if outcome.Ok? then None else Some(Text(SafeWrap(t, "provider call failed", outcome.error))))
  }

  /** The error of a call and its row together. */
  function RecordError(t: TextModel, outcome: Result<Response>, lost: Option<Error>): Option<Error> {
    match ChatError(t, outcome, lost)
    case Some(AuditPersistence(cause)) => Some(cause)
    case other => other
  }

  /** Chat marks the error when only the row failed. */
  lemma ChatOrRecordError(t: TextModel, outcome: Result<Response>, lost: Option<Error>)
    ensures outcome.Err? ==>
      RecordError(t, outcome, lost) == ChatError(t, outcome, lost) && ChatError(t, outcome, lost).Some?
    ensures outcome.Ok? && lost.Some? ==>
      RecordError(t, outcome, lost).Some? &&
      ChatError(t, outcome, lost) == Some(AuditPersistence(RecordError(t, outcome, lost).value))
    ensures outcome.Ok? && lost.None? ==> RecordError(t, outcome, lost).None? && ChatError(t, outcome, lost).None?
  {
  }

  /** Writes one row and says what the call amounts to: nothing when it succeeded and was written. */
  method RecordOutcome(world: W.World, metadata: Metadata, startedAt: int, outcome: Result<Response>)
    returns (failure: Option<Error>, ghost row: LlmCall, ghost lost: Option<Error>)
    modifies world
    ensures IsRowOf(world.texts, row, metadata, outcome)
    ensures world.trace == old(world.trace) + [CallRecorded(outcome, row, lost)]
    ensures failure == RecordError(world.texts, outcome, lost)
    ensures world.readings == old(world.readings) + [row.createdAt]
    ensures row.durationMS ==
      if row.createdAt < startedAt then 0 else (row.createdAt - startedAt) / 1_000_000
  {
    var finishedAt := world.Now();
    var duration := W.ElapsedMS(startedAt, finishedAt);
    var call := LlmCall(metadata.sessionID, metadata.provider, metadata.model, outcome.Ok?, duration, finishedAt,
      Usage(0, 0, 0), None);
    if outcome.Ok? {
      call := call.(usage := outcome.value.usage);
    }
    var safeCallErr := None;
    if outcome.Err? {
      safeCallErr := Some(SafeWrap(world.texts, "provider call failed", outcome.error));
      call := call.(errorMessage := Some(Text(safeCallErr.value)));
    }
    row := call;
    var persistErr := world.CreateCall(outcome, call);
    lost := persistErr;
    if persistErr.Some? {
      var safePersistErr := SafeWrap(world.texts, "persist llm call", persistErr.value);
      if safeCallErr.Some? {
        return Some(Joined(safePersistErr, safeCallErr.value)), row, lost;
      }
      return Some(safePersistErr), row, lost;
    }
    return safeCallErr, row, lost;
  }

  /** What a chat leaves in the trace: a refusal, or a model call and its row. */
  datatype Exchange = Declined(error: Error) | Called(outcome: Result<Response>, row: LlmCall, lost: Option<Error>)

  function ExchangeEvents(messages: seq<Message>, x: Exchange): seq<Event> {
    match x
    case Declined(error) => [Refused(error)]
    case Called(outcome, row, lost) => [Generated(messages, outcome), CallRecorded(outcome, row, lost)]
  }

  /** Calls the model once and writes its row. The response comes back with the error when only the row failed. */
  method Chat(service: Service, world: W.World, sessionID: string, selected: Profile, messages: seq<Message>)
    returns (response: Response, failure: Option<Error>, ghost x: Exchange)
    modifies world
    ensures world.trace == old(world.trace) + ExchangeEvents(messages, x)
    ensures match x
      case Declined(error) => failure == Some(error) && response == EMPTY_RESPONSE
      case Called(outcome, row, lost) =>
        && IsRowOf(world.texts, row, MetadataFrom(sessionID, selected), outcome)
        && failure == ChatError(world.texts, outcome, lost)
        && response == (if outcome.Ok? then outcome.value else EMPTY_RESPONSE)
        && row.sessionID == sessionID && row.provider == selected.providerName && row.model == selected.model
        && exists startedAt :: W.Timed(old(world.readings), world.readings, startedAt, row.createdAt, row.durationMS)
    ensures x.Declined? || x.outcome.Err? ==>
      failure.Some? && response.message.content == "" && response.message.toolCalls == []
    ensures Refusal(service, sessionID, selected).Some? ==> x == Declined(Refusal(service, sessionID, selected).value)
    ensures Refusal(service, sessionID, selected).None? && selected.tools == [] ==> x.Called?
  {
    hide Refusal, SafeWrap, Trim, ChatError, RecordError;
    var refusal, unresolved := PrepareCall(service, world, sessionID, selected);
    if refusal.Some? {
      x := Declined(refusal.value);
      world.Note(Refused(refusal.value));
      return EMPTY_RESPONSE, refusal, x;
    }
    var startedAt := world.Now();
    var outcome := world.Generate(messages);
    ghost var row, lost;
    var outcomeErr: Option<Error>;
    outcomeErr, row, lost := RecordOutcome(world, MetadataFrom(sessionID, selected), startedAt, outcome);
    ChatOrRecordError(world.texts, outcome, lost);
    assert W.Timed(old(world.readings), world.readings, startedAt, row.createdAt, row.durationMS);
    x := Called(outcome, row, lost);
    if outcomeErr.Some? {
      if outcome.Ok? {
        return outcome.value, Some(AuditPersistence(outcomeErr.value)), x;
      }
      return EMPTY_RESPONSE, outcomeErr, x;
    }
    return outcome.value, None, x;
  }
}
