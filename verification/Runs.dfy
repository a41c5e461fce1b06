/** What holds of whole runs and of sequences of runs on one session. */
module Runs {
  import opened Base
  import opened Llm
  import opened Conversation
  import opened Window
  import opened PromptBuilder
  import opened Audit
  import opened ReactLoop
  import Executor
  import Schema

  /** A run that started from the conversation before and followed the protocol. */
  ghost predicate LawfulRun(s: Setting, before: seq<Message>, run: seq<Event>) {
    && s.start == before + [TextMessage(ROLE_USER, s.content)]
    && AllGenuine(s, run) && !Track(s.texts, run).Violation?
  }

  /** The turn that a run has grown so far. */
  function Turn(s: Setting, run: seq<Event>): seq<Message> {
    [TextMessage(ROLE_USER, s.content)] + Transcript(s.texts, run)
  }

  lemma SpokenHead(t: TextModel, p: Phase, e: Event)
    requires p.AtRecord? && p.outcome.Ok? ==> IsHead(p.outcome.value.message)
    requires !Advance(t, p, e).Violation?
    ensures forall m | m in Spoken(t, e) :: !IsUser(m)
  {
  }

  /** A run adds no further user message. */
  lemma {:induction false} OneUserPerRun(t: TextModel, run: seq<Event>)
    requires RolesKept(run) && !Track(t, run).Violation?
    ensures forall m | m in Transcript(t, run) :: !IsUser(m)
    ensures Track(t, run).AtRecord? && Track(t, run).outcome.Ok? ==> IsHead(Track(t, run).outcome.value.message)
  {
    if run != [] {
      hide Advance, Spoken;
      var front, last := run[..|run| - 1], run[|run| - 1];
      ViolationStays(t, Track(t, front), last);
      OneUserPerRun(t, front);
      SpokenHead(t, Track(t, front), last);
      RecordOutcome(t, Track(t, front), last);
    }
  }

  lemma ViolationStays(t: TextModel, p: Phase, e: Event)
    ensures p.Violation? ==> Advance(t, p, e).Violation?
  {
  }

  lemma RecordOutcome(t: TextModel, p: Phase, e: Event)
    ensures Advance(t, p, e).AtRecord? ==> e.Generated? && Advance(t, p, e).outcome == e.outcome
  {
  }

  lemma LawfulRunPrefix(s: Setting, before: seq<Message>, run: seq<Event>, i: nat)
    requires LawfulRun(s, before, run) && RolesKept(run) && i < |run|
    ensures Genuine(s, run[..i], run[i])
    ensures RolesKept(run[..i]) && !Track(s.texts, run[..i]).Violation?
    ensures Track(s.texts, run[..i + 1]) == Advance(s.texts, Track(s.texts, run[..i]), run[i])
    ensures !Track(s.texts, run[..i + 1]).Violation?
  {
    hide Track, AllGenuine, Genuine, Advance;
    GenuineAt(s, run, i);
    LawfulPrefix(s.texts, run, i);
    LawfulPrefix(s.texts, run, i + 1);
  }

  // ---------- Prompts ----------

  /** The prompt is rendered from parts that show the best window of the history before the run. */
  ghost predicate ShowsBest(s: Setting, before: seq<Message>, current: seq<Message>, prompt: seq<Message>,
    memory: Result<string>, clock: string, parts: Parts)
  {
    && prompt == Render(parts) && parts.current == current && parts.clock == clock
    && Refusal(s.builder, None, s.selected, memory).None?
    && parts.system == System(s.builder, s.selected, memory)
    && Room(s.builder, s.selected, memory, current, clock) >= 0
    && BestWindow(before, HistoryLimit(s.selected), Room(s.builder, s.selected, memory, current, clock), parts.history)
  }

  /** Build on the conversation of a run, in terms of the turn the run opened. */
  lemma BuiltOnTurn(s: Setting, before: seq<Message>, turn: seq<Message>, cancelled: Option<Error>,
    memory: Result<string>, clock: string, prompt: Result<seq<Message>>, parts: Parts)
    requires Built(s.builder, cancelled, before + turn, s.selected, s.content, memory, clock, prompt, parts)
    requires turn != [] && AsksFor(turn[0], s.content) && forall i | 0 < i < |turn| :: !IsUser(turn[i])
    ensures Refusal(s.builder, cancelled, s.selected, memory).Some? ==>
      prompt == Err(Refusal(s.builder, cancelled, s.selected, memory).value)
    ensures Refusal(s.builder, cancelled, s.selected, memory).None? ==>
      && Refusal(s.builder, None, s.selected, memory).None?
      && if Room(s.builder, s.selected, memory, turn, clock) < 0 then prompt == Err(OVER_BUDGET)
         else prompt.Ok? && ShowsBest(s, before, turn, prompt.value, memory, clock, parts)
  {
    hide System, Render, BestWindow, Room;
    if Refusal(s.builder, cancelled, s.selected, memory).None? {
      NotCancelled(s, cancelled, memory);
      var history :| IsSplit(before + turn, s.content, history, parts.current) && (
        var room := Room(s.builder, s.selected, memory, parts.current, clock);
        if room < 0 then prompt == Err(OVER_BUDGET)
        else
          && prompt == Ok(Render(parts))
          && parts.system == System(s.builder, s.selected, memory) && parts.clock == clock
          && BestWindow(history, HistoryLimit(s.selected), room, parts.history));
      SplitAtOpenTurn(before, turn, s.content, history, parts.current);
    }
  }

  lemma TurnAsks(s: Setting, run: seq<Event>)
    requires forall m | m in Transcript(s.texts, run) :: !IsUser(m)
    ensures var turn := Turn(s, run);
      turn != [] && AsksFor(turn[0], s.content) && forall i | 0 < i < |turn| :: !IsUser(turn[i])
  {
    hide Transcript;
    var turn := Turn(s, run);
    forall i | 0 < i < |turn| ensures !IsUser(turn[i]) { assert turn[i] in Transcript(s.texts, run); }
  }

  /** What each prompt of a run is, given what its cancellation check, memory and clock answered: a refusal; the
      budget error, exactly when the protected context with the turn grown so far leaves no room; or the prompt that
      shows that turn in full and, of the conversation before the run, the longest user-rooted suffix within the turn
      limit and the budget. */
  lemma PromptExplained(s: Setting, before: seq<Message>, run: seq<Event>, i: nat)
    requires LawfulRun(s, before, run) && RolesKept(run) && i < |run| && run[i].Prompted?
    ensures Refusal(s.builder, run[i].late, s.selected, run[i].memory).Some? ==>
      run[i].prompt == Err(Refusal(s.builder, run[i].late, s.selected, run[i].memory).value)
    ensures Refusal(s.builder, run[i].late, s.selected, run[i].memory).None? ==>
      Refusal(s.builder, None, s.selected, run[i].memory).None? && Fitted(s, before, Turn(s, run[..i]), run[i])
  {
    hide Track, AllGenuine, Transcript, Advance, Built, Fitted, RolesKept, Refusal;
    LawfulRunPrefix(s, before, run, i);
    OneUserPerRun(s.texts, run[..i]);
    var e, turn := run[i], Turn(s, run[..i]);
    TurnAsks(s, run[..i]);
    assert e.seen == before + turn;
    var parts :| Built(s.builder, e.late, e.seen, s.selected, s.content, e.memory, e.clock, e.prompt, parts);
    BuiltOnTurn(s, before, turn, e.late, e.memory, e.clock, e.prompt, parts);
    if Refusal(s.builder, e.late, s.selected, e.memory).None? { FittedBy(s, before, turn, e, parts); }
  }

  /** The prompt fails exactly for want of room, and otherwise shows the best. */
  ghost predicate Fitted(s: Setting, before: seq<Message>, turn: seq<Message>, e: Event)
    requires e.Prompted? && Refusal(s.builder, None, s.selected, e.memory).None?
  {
    if Room(s.builder, s.selected, e.memory, turn, e.clock) < 0 then e.prompt == Err(OVER_BUDGET)
    else
      && e.prompt.Ok? && e.memory.Ok?
      && ShowsWithin(s.builder, s.selected, e.memory.value, e.clock, before, turn, e.prompt.value)
      && exists parts :: ShowsBest(s, before, turn, e.prompt.value, e.memory, e.clock, parts)
  }

  lemma FittedBy(s: Setting, before: seq<Message>, turn: seq<Message>, e: Event, parts: Parts)
    requires e.Prompted? && Refusal(s.builder, None, s.selected, e.memory).None?
    requires if Room(s.builder, s.selected, e.memory, turn, e.clock) < 0 then e.prompt == Err(OVER_BUDGET)
      else e.prompt.Ok? && ShowsBest(s, before, turn, e.prompt.value, e.memory, e.clock, parts)
    ensures Fitted(s, before, turn, e)
  {
    if Room(s.builder, s.selected, e.memory, turn, e.clock) >= 0 {
      ShowsBestWithin(s.builder, s.selected, e.memory, e.clock, before, turn, parts);
    }
    hide ShowsBest, ShowsWithin, Room, Refusal;
  }

  /** Every prompt that is built shows the best window there is. */
  lemma PromptShowsBest(s: Setting, before: seq<Message>, run: seq<Event>, i: nat)
    requires LawfulRun(s, before, run) && RolesKept(run) && i < |run|
    requires run[i].Prompted? && run[i].prompt.Ok?
    ensures exists parts ::
      ShowsBest(s, before, Turn(s, run[..i]), run[i].prompt.value, run[i].memory, run[i].clock, parts)
    ensures run[i].memory.Ok? && ShowsWithin(s.builder, s.selected, run[i].memory.value, run[i].clock, before,
      Turn(s, run[..i]), run[i].prompt.value)
  {
    hide LawfulRun, RolesKept, Refusal, Room, Turn, ShowsBest, ShowsWithin;
    PromptExplained(s, before, run, i);
  }

  /** What a prompt is built from: the conversation before the run, the question, and what the run left so far, each
      tool message with what the tool put out for its call. */
  lemma PromptSeesOutputs(s: Setting, before: seq<Message>, run: seq<Event>, i: nat)
    requires LawfulRun(s, before, run) && i < |run| && run[i].Prompted?
    ensures var seen := run[i].seen;
      && |before| < |seen| && before == seen[..|before|] && IsUser(seen[|before|])
      && seen[|before|].content == s.content && Retained(run[..i], seen[|before| + 1..])
  {
    hide Track, AllGenuine, Transcript, Advance, WasBuilt, Retained;
    GenuineAt(s, run, i);
    GenuinePrefix(s, run, i);
    LawfulPrefix(s.texts, run, i);
    TranscriptRetained(s, run[..i]);
    assert run[i].seen[|before| + 1..] == Transcript(s.texts, run[..i]);
  }

  lemma NotCancelled(s: Setting, cancelled: Option<Error>, memory: Result<string>)
    ensures Refusal(s.builder, cancelled, s.selected, memory).None? ==>
      Refusal(s.builder, None, s.selected, memory).None?
  {
  }

  /** Every request the model gets from an accepted conversation has each tool result directly in the
      block that owns it. */
  lemma RequestsWellOwned(s: Setting, before: seq<Message>, run: seq<Event>, i: nat)
    requires LawfulRun(s, before, run) && RolesKept(run) && Accepts(before) && i < |run|
    requires run[i].Prompted? && run[i].prompt.Ok?
    ensures WellOwned(run[i].prompt.value)
  {
    hide Track, AllGenuine, Transcript, Advance, System, Refusal, Render, Room, RolesKept, WellOwned, Scan;
    PromptShowsBest(s, before, run, i);
    var parts :|
      ShowsBest(s, before, Turn(s, run[..i]), run[i].prompt.value, run[i].memory, run[i].clock, parts);
    WindowAccepted(before, parts.history);
    LawfulRunPrefix(s, before, run, i);
    TurnAccepted(s, before, run[..i]);
    RenderWellOwned(parts);
  }

  lemma TurnAccepted(s: Setting, before: seq<Message>, run: seq<Event>)
    requires RolesKept(run) && Accepts(before) && !Track(s.texts, run).Violation?
    ensures Accepts(before + Turn(s, run)) && WellOwned(Turn(s, run))
    ensures Stands(Track(s.texts, run), Scan(before + Turn(s, run)))
  {
    hide Track, Transcript, RolesKept, WellOwned, Scan;
    RunKeepsGrammar(s.texts, before, s.content, run);
    var all := before + Turn(s, run);
    assert all == before + [TextMessage(ROLE_USER, s.content)] + Transcript(s.texts, run);
    assert all[|before|..] == Turn(s, run);
    WindowAccepted(all, Turn(s, run));
  }

  /** The request of each model call is the prompt that was just built. */
  lemma {:induction false} GeneratedFromPrompt(t: TextModel, run: seq<Event>, i: nat)
    requires !Track(t, run).Violation? && i < |run| && run[i].Generated?
    ensures i > 0 && run[i - 1].Prompted? && run[i - 1].prompt == Ok(run[i].request)
  {
    TrackStart(t, run);
    LawfulPrefix(t, run, i);
    LawfulPrefix(t, run, i + 1);
    hide Track;
    GeneratedAtChat(t, Track(t, run[..i]), run[i]);
    LawfulPrefix(t, run, i - 1);
    ChatAfterPrompt(t, Track(t, run[..i - 1]), run[i - 1]);
  }

  lemma TrackStart(t: TextModel, run: seq<Event>)
    ensures Track(t, run[..0]) == AtCheck(0)
  {
  }

  lemma GeneratedAtChat(t: TextModel, p: Phase, e: Event)
    requires e.Generated? && !Advance(t, p, e).Violation?
    ensures p.AtChat? && p.prompt == e.request
  {
  }

  lemma ChatAfterPrompt(t: TextModel, p: Phase, e: Event)
    requires Advance(t, p, e).AtChat?
    ensures e.Prompted? && e.prompt == Ok(Advance(t, p, e).prompt)
  {
  }

  /** Within one run later prompts keep a user-rooted suffix of the history that earlier ones showed, as
      long as memory and clock texts do not get shorter. */
  lemma LaterPromptKeepsSuffix(s: Setting, before: seq<Message>, run: seq<Event>, i: nat, j: nat,
    memory: Result<string>, clock: string, parts: Parts, memory': Result<string>, clock': string, parts': Parts)
    requires i <= j < |run|
    requires run[i].Prompted? && run[i].prompt.Ok? && run[j].Prompted? && run[j].prompt.Ok?
    requires ShowsBest(s, before, Turn(s, run[..i]), run[i].prompt.value, memory, clock, parts)
    requires ShowsBest(s, before, Turn(s, run[..j]), run[j].prompt.value, memory', clock', parts')
    requires |parts.system| <= |parts'.system| && |clock| <= |clock'|
    ensures IsWindow(parts.history, parts'.history)
  {
    hide Transcript, System, Refusal, Render, BestWindow;
    var early, late := Turn(s, run[..i]), Turn(s, run[..j]);
    TranscriptGrows(s.texts, run, i, j);
    ProtectedGrows(parts.system, early, clock, parts'.system, late, clock');
    LessRoomKeepsSuffix(before, HistoryLimit(s.selected),
      Room(s.builder, s.selected, memory, early, clock), parts.history,
      Room(s.builder, s.selected, memory', late, clock'), parts'.history);
  }

  lemma {:induction false} TranscriptGrows(t: TextModel, run: seq<Event>, i: nat, j: nat)
    requires i <= j <= |run|
    ensures Transcript(t, run[..i]) <= Transcript(t, run[..j])
  {
    if i < j {
      TranscriptGrows(t, run, i, j - 1);
      assert run[..j] == run[..j - 1] + [run[j - 1]];
      TrackAppend(t, run[..j - 1], run[j - 1]);
    }
  }

  lemma ProtectedGrows(system: string, current: seq<Message>, clock: string, system': string, current': seq<Message>,
    clock': string)
    requires |system| <= |system'| && current <= current' && |clock| <= |clock'|
    ensures ProtectedRunes(system, current, clock) <= ProtectedRunes(system', current', clock')
  {
    hide Runes, MessageRunes;
    SuffixRunes(current, clock);
    SuffixRunes(current', clock');
    assert current' == current + current'[|current|..];
    RunesConcat(current, current'[|current|..]);
    PrefixRunes(system);
    PrefixRunes(system');
    TextRunes("[CURRENT_DATETIME]\n" + clock);
    TextRunes("[CURRENT_DATETIME]\n" + clock');
    TextRunes(system);
    TextRunes(system');
  }

  lemma TextRunes(content: string)
    ensures MessageRunes(TextMessage(ROLE_SYSTEM, content)) == |ROLE_SYSTEM| + |content|
  {
  }

  lemma PrefixRunes(system: string)
    ensures Runes(Prefix(system)) == MessageRunes(TextMessage(ROLE_SYSTEM, system)) +
      MessageRunes(TextMessage(ROLE_SYSTEM, "[HISTORY]"))
  {
    hide MessageRunes;
    var a, b := [TextMessage(ROLE_SYSTEM, system)], [TextMessage(ROLE_SYSTEM, "[HISTORY]")];
    SingleRunes(a[0]);
    SingleRunes(b[0]);
    RunesConcat(a, b);
    assert Prefix(system) == a + b;
  }

  lemma SingleRunes(m: Message)
    ensures Runes([m]) == MessageRunes(m)
  {
    hide MessageRunes;
    assert [m][..0] == [];
  }

  lemma SuffixRunes(current: seq<Message>, clock: string)
    ensures Runes(Suffix(current, clock)) == MessageRunes(TextMessage(ROLE_SYSTEM, "[USER_MESSAGE]")) + Runes(current)
      + MessageRunes(TextMessage(ROLE_SYSTEM, "[CURRENT_DATETIME]\n" + clock))
  {
    hide Runes, MessageRunes;
    var a, c := TextMessage(ROLE_SYSTEM, "[USER_MESSAGE]"), TextMessage(ROLE_SYSTEM, "[CURRENT_DATETIME]\n" + clock);
    RunesConcat([a], current);
    RunesConcat([a] + current, [c]);
    SingleRunes(a);
    SingleRunes(c);
  }

  // ---------- Tool calls ----------

  /** Every tool invocation of a run is of a tool the profile allows, with arguments that are valid JSON Schema
      instances of what the tool declared, asked for next by a response whose success row is written. */
  lemma InvocationsSound(s: Setting, before: seq<Message>, run: seq<Event>, i: nat)
    requires LawfulRun(s, before, run) && i < |run| && run[i].Invoked?
    ensures Trim(run[i].call.callee.name) in s.selected.tools
    ensures var arguments := s.texts.decode(run[i].call.callee.arguments);
      && arguments.Some? && s.texts.decode(run[i].schema).Some?
      && Schema.Valid(s.texts.decode(run[i].schema).value, arguments.value)
    ensures DeclaredIn(run[..i], run[i].call, run[i].schema)
    ensures exists j: nat ::
      && j < i && Authority(run[..i], j)
      && var asked := run[j].response.value.message.toolCalls;
      && Settled(run[j + 1..i]) < |asked| && run[i].call == asked[Settled(run[j + 1..i])]
  {
    hide Track, AllGenuine, Schema.Valid, Authority, Settled, Schema.Conforms, Schema.Supported;
    GenuineAt(s, run, i);
    Schema.ArgumentsSound(s.texts.decode, run[i].schema, run[i].call.callee.arguments);
    InvokedAfterRecord(s.texts, run, i);
  }

  /** What a failure is recorded as: its text, unless that is to be hidden. */
  function Shown(t: TextModel, cause: Error): string {
    if Hidden(t, cause) then "[REDACTED]" else Text(cause)
  }

  /** Every row of a run is of its session, the rows of model calls name the profile's provider and model, and no row
      shows the text of a failure that is to be hidden. */
  lemma RowsHonest(s: Setting, before: seq<Message>, run: seq<Event>, i: nat)
    requires LawfulRun(s, before, run) && i < |run|
    ensures run[i].CallRecorded? ==>
      var row := run[i].row;
      && row.sessionID == s.sessionID && row.provider == s.selected.providerName && row.model == s.selected.model
      && row.errorMessage == match run[i].response
           case Ok(_) => None
           case Err(cause) => Some("provider call failed: " + Shown(s.texts, cause))
    ensures run[i].InvocationRecorded? ==>
      var row := run[i].entry;
      && row.sessionID == s.sessionID
      && row.errorMessage == if run[i].cause.None? then None else Some(Shown(s.texts, run[i].cause.value))
  {
    hide Track, AllGenuine, FromTool, WasBuilt, Executor.Permitted, DeclaredIn, Trim;
    GenuineAt(s, run, i);
    if run[i].CallRecorded? && run[i].response.Err? {
      assert "provider call failed" + ": " + Shown(s.texts, run[i].response.error) ==
        "provider call failed: " + Shown(s.texts, run[i].response.error);
    }
  }

  /** The store accepts every row a run writes for its tool calls, unless the clock showed the zero time. */
  lemma RowsAccepted(s: Setting, before: seq<Message>, run: seq<Event>, i: nat)
    requires LawfulRun(s, before, run) && i < |run| && run[i].InvocationRecorded? && !Blank(s.sessionID)
    ensures Executor.ValidRow(s.texts, run[i].entry) <==> run[i].entry.createdAt != 0
  {
    hide Track, AllGenuine, Blank;
    GenuineAt(s, run, i);
    Executor.RowAcceptedIff(s.texts, run[i].entry, s.sessionID, run[i].answered, run[i].result, run[i].cause);
  }

  // ---------- Sequences of runs ----------

  /** One finished run: the message that opened it, its events and its result. */
  datatype Episode = Episode(content: string, events: seq<Event>, bound: nat, result: Result<string>)

  ghost predicate Proper(t: TextModel, e: Episode) {
    Finished(Track(t, e.events), e.bound, e.result) && RolesKept(e.events)
  }

  /** The session that a sequence of runs leaves. */
  function History(t: TextModel, episodes: seq<Episode>): seq<Message> {
    if episodes == [] then []
    else
      var last := episodes[|episodes| - 1];
      History(t, episodes[..|episodes| - 1]) + [TextMessage(ROLE_USER, last.content)] + Transcript(t, last.events)
  }

  /** Whatever model, tools and ledgers do, any sequence of runs on a fresh session leaves a grammatical
      conversation; only a run that failed can leave tool calls unanswered, and a run that answered ends with its
      answer. */
  lemma {:induction false} HistoriesGrammatical(t: TextModel, episodes: seq<Episode>)
    requires forall e | e in episodes :: Proper(t, e)
    ensures Accepts(History(t, episodes)) && Grammatical(History(t, episodes))
    ensures episodes != [] ==>
      var last := episodes[|episodes| - 1];
      var place := Scan(History(t, episodes));
      && (last.result.Ok? ==> place.Closed?)
      && (place.Pending? ==> last.result.Err? && Track(t, last.events).Stopped?)
  {
    hide Track, Transcript, RolesKept, Scan, Grammatical;
    if episodes != [] {
      var front, last := episodes[..|episodes| - 1], episodes[|episodes| - 1];
      assert Proper(t, last);
      HistoriesGrammatical(t, front);
      RunKeepsGrammar(t, History(t, front), last.content, last.events);
      AcceptsIffGrammatical(History(t, episodes));
    } else {
      EmptyAccepted();
      AcceptsIffGrammatical([]);
    }
  }

  lemma EmptyAccepted()
    ensures Scan([]) == Start
  {
  }
}
