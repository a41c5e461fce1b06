/** Cutting a prompt from a session under a turn limit and a rune budget
    (internal/runtime/prompt_builder.go). */
module PromptBuilder {
  import opened Base
  import opened Llm
  import opened Profiles
  import opened Conversation
  import opened Window

  const DEFAULT_HISTORY_TURNS := 20
  const MAX_MEMORY_CHARACTERS := 4000

  /** The bootstrap sections of a profile, rendered and classified. */
  datatype BootText = BootText(project: string, persona: string, preferences: string)

  /** The start-up context; nothing in it changes after construction. */
  datatype Builder = Builder(
    runtimeRules: string, bootstrap: map<string, BootText>, skills: map<string, string>, budgets: map<string, int>)

  // ---------- Assembling ----------

  function TruncateRunes(value: string, limit: nat): string {
    if |value| <= limit then value else value[..limit]
  }

  /** The values that are not blank, in order. */
  function NonBlank(values: seq<string>): seq<string> {
    if values == [] then []
    else NonBlank(values[..|values| - 1]) + if Blank(values[|values| - 1]) then [] else [values[|values| - 1]]
  }

  method NonEmpty(values: seq<string>) returns (result: seq<string>)
    ensures result == NonBlank(values)
  {
    result := [];
    for i := 0 to |values|
      invariant result == NonBlank(values[..i])
    {
      assert values[..i + 1][..i] == values[..i];
      if Trim(values[i]) != "" {
        result := result + [values[i]];
      }
    }
    assert values[..|values|] == values;
  }

  /** The parts with a separator between any two. */
  function Join(parts: seq<string>, separator: string): string {
    if parts == [] then ""
    else if |parts| == 1 then parts[0]
    else Join(parts[..|parts| - 1], separator) + separator + parts[|parts| - 1]
  }

  lemma JoinAppend(parts: seq<string>, separator: string, part: string)
    requires parts != []
    ensures Join(parts + [part], separator) == Join(parts, separator) + separator + part
  {
    assert (parts + [part])[..|parts|] == parts;
  }

  /** One line for each text, and each text under its own label. */
  function Sectioned(sections: seq<(string, string)>): string {
    if sections == [] then ""
    else
      sections[0].0 + "\n" + sections[0].1 + if |sections| == 1 then "" else "\n" + Sectioned(sections[1..])
  }

  lemma {:induction false} SectionedJoins(sections: seq<(string, string)>, parts: seq<string>)
    requires |parts| == |sections| > 0
    requires forall i | 0 <= i < |parts| :: parts[i] == sections[i].0 + "\n" + sections[i].1
    ensures Sectioned(sections) == Join(parts, "\n")
  {
    if |parts| > 1 {
      SectionedJoins(sections[1..], parts[1..]);
      JoinFirst(parts, "\n");
      Regroup(parts[0], "\n", Join(parts[1..], "\n"));
    }
  }

  lemma {:induction false} JoinFirst(parts: seq<string>, separator: string)
    requires |parts| > 1
    ensures Join(parts, separator) == parts[0] + separator + Join(parts[1..], separator)
  {
    var front, last := parts[..|parts| - 1], parts[|parts| - 1];
    if |parts| == 2 {
      assert front == [parts[0]] && parts[1..] == [last];
    } else {
      JoinFirst(front, separator);
      assert parts[1..] == front[1..] + [last];
      JoinAppend(front[1..], separator, last);
      assert front[0] == parts[0];
    }
  }

  lemma Regroup(a: string, b: string, c: string)
    ensures a + b + c == a + (b + c)
  {
  }

  /** What stands in the system text: under each label its own source. */
  function Sections(builder: Builder, selected: Profile, boot: BootText, skills: string, memory: string)
    : seq<(string, string)>
  {
    [("[RUNTIME_RULES]", builder.runtimeRules),
     ("[PROJECT_RULES]", boot.project),
     ("[AGENT_IDENTITY]", Trim(Join(NonBlank([selected.agentName, selected.identityPrompt, boot.persona]), "\n"))),
     ("[SKILLS]", skills),
     ("[USER_PREFERENCES]", boot.preferences),
     ("[LONG_TERM_MEMORY]", memory)]
  }

  method SystemContent(builder: Builder, selected: Profile, boot: BootText, skills: string, memory: string)
    returns (content: string)
    ensures content == Sectioned(Sections(builder, selected, boot, skills, memory))
  {
    hide Join, NonBlank, Trim, Sectioned;
    var named := NonEmpty([selected.agentName, selected.identityPrompt, boot.persona]);
    var identity := Trim(Join(named, "\n"));
    var parts := [
      "[RUNTIME_RULES]\n" + builder.runtimeRules,
      "[PROJECT_RULES]\n" + boot.project,
      "[AGENT_IDENTITY]\n" + identity,
      "[SKILLS]\n" + skills,
      "[USER_PREFERENCES]\n" + boot.preferences,
      "[LONG_TERM_MEMORY]\n" + memory];
    SectionedJoins(Sections(builder, selected, boot, skills, memory), parts);
    return Join(parts, "\n");
  }

  function HistoryLimit(selected: Profile): (limit: int)
    ensures limit > 0
  {
    if selected.maxHistoryTurns > 0 then selected.maxHistoryTurns else DEFAULT_HISTORY_TURNS
  }

  /** A prompt by its parts: the system text, the history shown, the current turn and the clock. */
  datatype Parts = Parts(system: string, history: seq<Message>, current: seq<Message>, clock: string)

  function Prefix(system: string): seq<Message> {
    [TextMessage(ROLE_SYSTEM, system), TextMessage(ROLE_SYSTEM, "[HISTORY]")]
  }

  function Suffix(current: seq<Message>, clock: string): seq<Message> {
    [TextMessage(ROLE_SYSTEM, "[USER_MESSAGE]")] + current + [TextMessage(ROLE_SYSTEM, "[CURRENT_DATETIME]\n" + clock)]
  }

  function Render(parts: Parts): seq<Message> {
    Prefix(parts.system) + parts.history + Suffix(parts.current, parts.clock)
  }

  /** The runes of a prompt that no trimming removes. */
  function ProtectedRunes(system: string, current: seq<Message>, clock: string): nat {
    Runes(Prefix(system)) + Runes(Suffix(current, clock))
  }

  lemma RenderRunes(parts: Parts)
    ensures Runes(Render(parts)) == ProtectedRunes(parts.system, parts.current, parts.clock) + Runes(parts.history)
  {
    RunesConcat(Prefix(parts.system) + parts.history, Suffix(parts.current, parts.clock));
    RunesConcat(Prefix(parts.system), parts.history);
  }

  /** Every tool result in a prompt follows its own block when that holds of history and current turn. */
  lemma RenderWellOwned(parts: Parts)
    requires WellOwned(parts.history) && WellOwned(parts.current)
    ensures WellOwned(Render(parts))
  {
    var user, clock := [TextMessage(ROLE_SYSTEM, "[USER_MESSAGE]")],
      [TextMessage(ROLE_SYSTEM, "[CURRENT_DATETIME]\n" + parts.clock)];
    WellOwnedConcat(user, parts.current);
    WellOwnedConcat(user + parts.current, clock);
    WellOwnedConcat(Prefix(parts.system), parts.history);
    WellOwnedConcat(Prefix(parts.system) + parts.history, Suffix(parts.current, parts.clock));
  }

  // ---------- Splitting ----------

  predicate AsksFor(m: Message, content: string) { IsUser(m) && m.content == content }

  /** The current turn starts at the last user message with the content, and is that message alone
      when there is none. */
  ghost predicate IsSplit(ms: seq<Message>, content: string, history: seq<Message>, turn: seq<Message>) {
    if exists m :: m in ms && AsksFor(m, content) then
      && ms == history + turn && turn != [] && AsksFor(turn[0], content)
      && forall i | 0 < i < |turn| :: !AsksFor(turn[i], content)
    else
      history == ms && turn == [TextMessage(ROLE_USER, content)]
  }

  method SplitCurrentTurn(messages: seq<Message>, content: string) returns (history: seq<Message>, turn: seq<Message>)
    ensures IsSplit(messages, content, history, turn)
  {
    var currentStart := -1;
    var index := |messages| - 1;
    while index >= 0
      invariant -1 <= index < |messages| && currentStart == -1
      invariant forall i | index < i < |messages| :: !AsksFor(messages[i], content)
    {
      if messages[index].role == ROLE_USER && messages[index].content == content {
        currentStart := index;
        break;
      }
      index := index - 1;
    }
    if currentStart < 0 {
      return messages, [TextMessage(ROLE_USER, content)];
    }
    assert AsksFor(messages[currentStart], content);
    return messages[..currentStart], messages[currentStart..];
  }

  /** In a run the split is where the run started: the turn the user just opened is the current
      turn, even when earlier turns asked the same. */
  lemma SplitAtOpenTurn(before: seq<Message>, turn: seq<Message>, content: string, history: seq<Message>,
    current: seq<Message>)
    requires turn != [] && AsksFor(turn[0], content)
    requires forall i | 0 < i < |turn| :: !IsUser(turn[i])
    requires IsSplit(before + turn, content, history, current)
    ensures history == before && current == turn
  {
    var ms := before + turn;
    assert ms[|before|] in ms && AsksFor(ms[|before|], content);
    assert AsksFor(ms[|history|], content);
    assert ms[..|before|] == before && ms[..|history|] == history;
  }

  // ---------- Limiting and dropping turns ----------

  /** The user positions met so far, in order: the t-th has t turns before it. */
  ghost predicate TurnStarts(ms: seq<Message>, index: nat, starts: seq<nat>) {
    && index <= |ms| && |starts| == Users(ms[..index])
    && forall t: nat | t < |starts| :: starts[t] < index && IsUser(ms[starts[t]]) && Users(ms[..starts[t]]) == t
  }

  lemma TurnStartsStep(ms: seq<Message>, index: nat, starts: seq<nat>)
    requires index < |ms| && TurnStarts(ms, index, starts)
    ensures TurnStarts(ms, index + 1, if IsUser(ms[index]) then starts + [index] else starts)
  {
    assert ms[..index + 1][..index] == ms[..index];
  }

  /** The window that starts limit turns before the end, or at the first turn, is the longest. */
  lemma StartWindow(ms: seq<Message>, starts: seq<nat>, limit: int, t: nat)
    requires TurnStarts(ms, |ms|, starts) && t < |starts| && 0 < limit
    requires t == if |starts| > limit then |starts| - limit else 0
    ensures starts[t] < |ms| && LongestWindow(ms, limit, ms[starts[t]..])
  {
    assert ms[..|ms|] == ms;
    UsersSplit(ms, starts[t]);
    FullWindowIsLongest(ms, limit, ms[starts[t]..]);
  }

  lemma NoTurns(ms: seq<Message>, starts: seq<nat>, limit: int)
    requires TurnStarts(ms, |ms|, starts) && (starts == [] || limit <= 0)
    ensures LongestWindow(ms, limit, [])
  {
    assert ms[..|ms|] == ms;
    FullWindowIsLongest(ms, limit, []);
  }

  method LimitCompleteTurns(messages: seq<Message>, limit: int) returns (window: seq<Message>)
    ensures LongestWindow(messages, limit, window)
  {
    var starts := TurnStartPositions(messages);
    if |starts| == 0 || limit <= 0 {
      NoTurns(messages, starts, limit);
      return [];
    }
    var turn := 0;
    if |starts| > limit {
      turn := |starts| - limit;
    }
    StartWindow(messages, starts, limit, turn);
    return messages[starts[turn]..];
  }

  /** The loop that LimitCompleteTurns and RecentTurns share. */
  method TurnStartPositions(messages: seq<Message>) returns (starts: seq<nat>)
    ensures TurnStarts(messages, |messages|, starts)
  {
    starts := [];
    for index := 0 to |messages|
      invariant TurnStarts(messages, index, starts)
    {
      TurnStartsStep(messages, index, starts);
      if messages[index].role == ROLE_USER {
        starts := starts + [index];
      }
    }
  }

  method DropOldestCompleteTurn(messages: seq<Message>) returns (rest: seq<Message>)
    ensures LongestWindow(messages, Users(messages) - 1, rest)
  {
    var foundFirst := false;
    for index := 0 to |messages|
      invariant Users(messages[..index]) == if foundFirst then 1 else 0
    {
      assert messages[..index + 1][..index] == messages[..index];
      if messages[index].role == ROLE_USER {
        if foundFirst {
          UsersSplit(messages, index);
          FullWindowIsLongest(messages, Users(messages) - 1, messages[index..]);
          return messages[index..];
        }
        foundFirst := true;
      }
    }
    assert messages[..|messages|] == messages;
    FullWindowIsLongest(messages, Users(messages) - 1, []);
    return [];
  }

  // ---------- Counting ----------

  /** An extension map without an encoding counts nothing. */
  method JsonRuneCount(value: Payload) returns (count: nat)
    ensures count == PayloadRunes(value)
  {
    match value {
      case NoPayload => return 0;
      case Payload(encoded) => if encoded.None? { return 0; } return |encoded.value|;
    }
  }

  method MessagesRuneCount(messages: seq<Message>) returns (total: nat)
    ensures total == Runes(messages)
  {
    total := 0;
    for i := 0 to |messages|
      invariant total == Runes(messages[..i])
    {
      var message := messages[i];
      ghost var before := total;
      total := total + |message.role|;
      total := total + |message.content|;
      total := total + |message.name|;
      total := total + |message.toolCallID|;
      total := total + |message.toolName|;
      total := total + |message.reasoning|;
      ghost var own := total;
      for k := 0 to |message.toolCalls|
        invariant total == own + CallsRunes(message.toolCalls[..k])
      {
        var call := message.toolCalls[k];
        total := total + |call.id|;
        total := total + |call.kind|;
        total := total + |call.callee.name|;
        total := total + |call.callee.arguments|;
        var encoded := JsonRuneCount(call.extra);
        total := total + encoded;
        assert message.toolCalls[..k + 1][..k] == message.toolCalls[..k];
      }
      assert message.toolCalls[..|message.toolCalls|] == message.toolCalls;
      var encoded := JsonRuneCount(message.extra);
      total := total + encoded;
      assert messages[..i + 1][..i] == messages[..i];
    }
    assert messages[..|messages|] == messages;
  }

  // ---------- Build ----------

  /** What makes Build refuse before it looks at the conversation, in the order it is checked. */
  function Refusal(builder: Builder, cancelled: Option<Error>, selected: Profile,
    memory: Result<string>): Option<Error> {
    if cancelled.Some? then cancelled
    else if Blank(selected.name) then Some(Cause("build prompt: profile is required", None, None))
    else if selected.name !in builder.bootstrap then
      Some(Cause("build prompt: bootstrap snapshot not found", None, None))
    else if selected.name !in builder.skills then Some(Cause("build prompt: skill snapshot not found", None, None))
    else if selected.name !in builder.budgets || builder.budgets[selected.name] <= 0 then
      Some(Cause("build prompt: input budget not found", None, None))
    else if memory.Err? then Some(Wrapped("build prompt: read memory", Text(memory.error), Some(memory.error)))
    else None
  }

  const OVER_BUDGET := Cause("build prompt: protected context exceeds input budget", None, None)

  /** The system text and the room that history may fill, once nothing refuses. */
  function System(builder: Builder, selected: Profile, memory: Result<string>): string
    requires Refusal(builder, None, selected, memory).None?
  {
    var remembered := if |memory.value| <= 4000 then memory.value else memory.value[..4000];
    Sectioned(Sections(builder, selected, builder.bootstrap[selected.name], builder.skills[selected.name], remembered))
  }

  function Room(builder: Builder, selected: Profile, memory: Result<string>, current: seq<Message>, clock: string): int
    requires Refusal(builder, None, selected, memory).None?
  {
    builder.budgets[selected.name] - ProtectedRunes(System(builder, selected, memory), current, clock)
  }

  /** What Build promises. It fails for a refusal, or exactly when the protected context alone exceeds the
      budget; otherwise the prompt shows the best window of the history before the current turn. */
  ghost predicate Built(builder: Builder, cancelled: Option<Error>, messages: seq<Message>, selected: Profile,
    content: string, memory: Result<string>, clock: string, r: Result<seq<Message>>, parts: Parts)
  {
    if Refusal(builder, cancelled, selected, memory).Some? then
      r == Err(Refusal(builder, cancelled, selected, memory).value)
    else
      exists history :: IsSplit(messages, content, history, parts.current) && (
        var room := Room(builder, selected, memory, parts.current, clock);
        if room < 0 then r == Err(OVER_BUDGET)
        else
          && r == Ok(Render(parts))
          && parts.system == System(builder, selected, memory) && parts.clock == clock
          && BestWindow(history, HistoryLimit(selected), room, parts.history))
  }

  /** What a prompt shows, said of the prompt itself: the labels with their own texts, the turn in full, and before it
      of the earlier conversation a user-rooted suffix of at most as many turns as the profile wants, or twenty when it
      does not say, such that the prompt keeps to the budget and would exceed it with any longer such suffix. */
  ghost predicate ShowsWithin(builder: Builder, selected: Profile, memory: string, clock: string, before: seq<Message>,
    turn: seq<Message>, prompt: seq<Message>)
  {
    && selected.name in builder.bootstrap && selected.name in builder.skills && selected.name in builder.budgets
    && var remembered := if |memory| <= 4000 then memory else memory[..4000];
    && var system := Sectioned(Sections(builder, selected, builder.bootstrap[selected.name],
                      builder.skills[selected.name], remembered));
    && exists shown ::
        && ShowsExactly(system, shown, turn, clock, prompt)
        && IsLongestShown(system, before, turn, clock,
            if selected.maxHistoryTurns > 0 then selected.maxHistoryTurns else 20, builder.budgets[selected.name],
              shown)
  }

  ghost predicate ShowsExactly(system: string, shown: seq<Message>, turn: seq<Message>, clock: string,
    prompt: seq<Message>)
  {
    prompt ==
      [TextMessage("system", system), TextMessage("system", "[HISTORY]")] + shown +
      [TextMessage("system", "[USER_MESSAGE]")] + turn + [TextMessage("system", "[CURRENT_DATETIME]\n" + clock)]
  }

  ghost predicate IsLongestShown(system: string, before: seq<Message>, turn: seq<Message>, clock: string, turns: int,
    budget: int, shown: seq<Message>)
  {
    && IsWindow(before, shown) && Users(shown) <= turns && Runes(Render(Parts(system, shown, turn, clock))) <= budget
    && forall v :: IsWindow(before, v) && Users(v) <= turns && |shown| < |v| ==>
         Runes(Render(Parts(system, v, turn, clock))) > budget
  }

  /** A best window is what a prompt shows at most. */
  lemma BestIsLongest(system: string, before: seq<Message>, turn: seq<Message>, clock: string, turns: int, budget: int,
    shown: seq<Message>)
    requires turns > 0 && BestWindow(before, turns, budget - ProtectedRunes(system, turn, clock), shown)
    ensures IsLongestShown(system, before, turn, clock, turns, budget, shown)
    ensures ShowsExactly(system, shown, turn, clock, Render(Parts(system, shown, turn, clock)))
  {
    hide Runes, Users, IsWindow, ProtectedRunes;
    forall v ensures
      Runes(Render(Parts(system, v, turn, clock))) == ProtectedRunes(system, turn, clock) + Runes(v) {
      RenderRunes(Parts(system, v, turn, clock));
    }
    hide Render;
  }

  lemma ShowsBestWithin(builder: Builder, selected: Profile, memory: Result<string>, clock: string,
    before: seq<Message>, turn: seq<Message>, parts: Parts)
    requires Refusal(builder, None, selected, memory).None? && parts.system == System(builder, selected, memory)
    requires parts.current == turn && parts.clock == clock
    requires BestWindow(before, HistoryLimit(selected), Room(builder, selected, memory, turn, clock), parts.history)
    ensures memory.Ok? && ShowsWithin(builder, selected, memory.value, clock, before, turn, Render(parts))
  {
    hide BestWindow, ShowsExactly, IsLongestShown, Sections, Sectioned, ProtectedRunes, Render, Blank;
    BestIsLongest(parts.system, before, turn, clock, HistoryLimit(selected), builder.budgets[selected.name],
      parts.history);
  }

  method Build(builder: Builder, cancelled: Option<Error>, messages: seq<Message>, selected: Profile,
    content: string, memory: Result<string>, clock: string) returns (r: Result<seq<Message>>, ghost parts: Parts)
    ensures Built(builder, cancelled, messages, selected, content, memory, clock, r, parts)
    ensures Refusal(builder, cancelled, selected, memory).Some? ==>
      r == Err(Refusal(builder, cancelled, selected, memory).value)
    ensures r.Ok? ==> selected.name in builder.budgets && Runes(r.value) <= builder.budgets[selected.name]
    ensures r.Ok? ==> memory.Ok? && exists before, turn ::
      && IsSplit(messages, content, before, turn)
      && ShowsWithin(builder, selected, memory.value, clock, before, turn, r.value)
  {
    hide BestWindow, Render, Sections, Sectioned, IsSplit, ShowsWithin, ProtectedRunes, Trim, Runes, HistoryLimit, Text;
    parts := Parts("", [], [], "");
    if cancelled.Some? { return Err(cancelled.value), parts; }
    if Trim(selected.name) == "" { return Err(Cause("build prompt: profile is required", None, None)), parts; }
    if selected.name !in builder.bootstrap {
      return Err(Cause("build prompt: bootstrap snapshot not found", None, None)), parts;
    }
    var boot := builder.bootstrap[selected.name];
    if selected.name !in builder.skills {
      return Err(Cause("build prompt: skill snapshot not found", None, None)), parts;
    }
    var skills := builder.skills[selected.name];
    var budget := if selected.name in builder.budgets then builder.budgets[selected.name] else 0;
    if budget <= 0 { return Err(Cause("build prompt: input budget not found", None, None)), parts; }
    if memory.Err? {
      return Err(Wrapped("build prompt: read memory", Text(memory.error), Some(memory.error))), parts;
    }
    var remembered := TruncateRunes(memory.value, MAX_MEMORY_CHARACTERS);
    var systemContent := SystemContent(builder, selected, boot, skills, remembered);
    var history, currentTurn := SplitCurrentTurn(messages, content);
    r, parts := Fit(systemContent, history, currentTurn, clock, HistoryLimit(selected), budget);
    if r.Ok? { ShowsBestWithin(builder, selected, memory, clock, history, currentTurn, parts); }
  }

  /** A window within the limit, such that every longer one is too large. */
  ghost predicate Candidate(whole: seq<Message>, limit: int, room: int, history: seq<Message>) {
    && IsWindow(whole, history) && Users(history) <= limit
    && forall v :: IsWindow(whole, v) && Users(v) <= limit && |history| < |v| ==> Runes(v) > room
  }

  lemma CandidateStart(whole: seq<Message>, limit: int, room: int, history: seq<Message>)
    requires 0 < limit && LongestWindow(whole, limit, history)
    ensures Candidate(whole, limit, room, history)
  {
  }

  lemma CandidateFits(whole: seq<Message>, limit: int, room: int, history: seq<Message>)
    requires 0 < limit && Candidate(whole, limit, room, history) && Runes(history) <= room
    ensures room >= 0 && BestWindow(whole, limit, room, history)
  {
  }

  lemma CandidateDrops(whole: seq<Message>, limit: int, room: int, history: seq<Message>, shorter: seq<Message>)
    requires Candidate(whole, limit, room, history) && Runes(history) > room && history != []
    requires LongestWindow(history, Users(history) - 1, shorter)
    ensures Candidate(whole, limit, room, shorter) && |shorter| < |history|
  {
    hide Users, Runes, IsWindow, LongestWindow;
    DropStep(whole, history, shorter);
    forall v | IsWindow(whole, v) && Users(v) <= limit && |shorter| < |v| ensures Runes(v) > room {
      if |v| <= |history| { assert v == history; }
    }
  }

  /** The trimming part of Build. */
  method Fit(system: string, whole: seq<Message>, current: seq<Message>, clock: string, limit: int, budget: int)
    returns (r: Result<seq<Message>>, ghost parts: Parts)
    requires 0 < limit
    ensures r.Ok? <==> ProtectedRunes(system, current, clock) <= budget
    ensures r.Ok? ==> Runes(r.value) <= budget
    ensures parts.current == current
    ensures var room := budget - ProtectedRunes(system, current, clock);
      if room < 0 then r == Err(OVER_BUDGET)
      else
        && r == Ok(Render(parts)) && parts.system == system && parts.clock == clock
        && BestWindow(whole, limit, room, parts.history)
  {
    hide *;
    ghost var room := budget - ProtectedRunes(system, current, clock);
    var prefix := [TextMessage(ROLE_SYSTEM, system), TextMessage(ROLE_SYSTEM, "[HISTORY]")];
    var suffix := [TextMessage(ROLE_SYSTEM, "[USER_MESSAGE]")] + current +
      [TextMessage(ROLE_SYSTEM, "[CURRENT_DATETIME]\n" + clock)];
    var history := LimitCompleteTurns(whole, limit);
    CandidateStart(whole, limit, room, history);
    NoRunes();
    while true
      invariant Candidate(whole, limit, room, history)
      decreases |history|
    {
      var messages := prefix + history + suffix;
      parts := Parts(system, history, current, clock);
      Rendered(parts);
      RenderRunes(parts);
      var count := MessagesRuneCount(messages);
      if count <= budget {
        CandidateFits(whole, limit, room, history);
        return Ok(messages), parts;
      }
      if |history| == 0 {
        assert history == [];
        return Err(OVER_BUDGET), parts;
      }
      var shorter := DropOldestCompleteTurn(history);
      CandidateDrops(whole, limit, room, history, shorter);
      history := shorter;
    }
  }

  lemma Rendered(parts: Parts)
    ensures Render(parts) ==
      [TextMessage(ROLE_SYSTEM, parts.system), TextMessage(ROLE_SYSTEM, "[HISTORY]")] + parts.history +
      ([TextMessage(ROLE_SYSTEM, "[USER_MESSAGE]")] + parts.current +
        [TextMessage(ROLE_SYSTEM, "[CURRENT_DATETIME]\n" + parts.clock)])
  {
  }

  lemma NoRunes()
    ensures Runes([]) == 0
  {
  }
}
