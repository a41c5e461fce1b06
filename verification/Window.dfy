/** User-rooted suffixes of a conversation, the windows a prompt may show of its history. */
module Window {
  import opened Base
  import opened Llm
  import opened Conversation

  /** The number of user messages, which is the number of turns. */
  function Users(ms: seq<Message>): nat {
    if ms == [] then 0 else Users(ms[..|ms| - 1]) + if IsUser(ms[|ms| - 1]) then 1 else 0
  }

  /** A suffix that is empty or starts with a user message. */
  ghost predicate IsWindow(ms: seq<Message>, w: seq<Message>) {
    |w| <= |ms| && w == ms[|ms| - |w|..] && (w != [] ==> IsUser(w[0]))
  }

  /** The longest window with at most limit turns. */
  ghost predicate LongestWindow(ms: seq<Message>, limit: int, w: seq<Message>) {
    && IsWindow(ms, w) && Users(w) <= Max(limit, 0)
    && forall v :: IsWindow(ms, v) && Users(v) <= Max(limit, 0) ==> |v| <= |w|
  }

  /** The longest window with at most limit turns and at most room runes. */
  ghost predicate BestWindow(ms: seq<Message>, limit: int, room: int, w: seq<Message>) {
    && IsWindow(ms, w) && Users(w) <= Max(limit, 0) && Runes(w) <= room
    && forall v :: IsWindow(ms, v) && Users(v) <= Max(limit, 0) && Runes(v) <= room ==> |v| <= |w|
  }

  // ---------- Sizes ----------

  function PayloadRunes(p: Payload): nat {
    if p.NoPayload? || p.encoded.None? then 0 else |p.encoded.value|
  }

  function CallRunes(call: ToolCall): nat {
    |call.id| + |call.kind| + |call.callee.name| + |call.callee.arguments| + PayloadRunes(call.extra)
  }

  function CallsRunes(calls: seq<ToolCall>): nat {
    if calls == [] then 0 else CallsRunes(calls[..|calls| - 1]) + CallRunes(calls[|calls| - 1])
  }

  function MessageRunes(m: Message): nat {
    |m.role| + |m.content| + |m.name| + |m.toolCallID| + |m.toolName| + |m.reasoning|
    + CallsRunes(m.toolCalls) + PayloadRunes(m.extra)
  }

  function Runes(ms: seq<Message>): nat {
    if ms == [] then 0 else Runes(ms[..|ms| - 1]) + MessageRunes(ms[|ms| - 1])
  }

  lemma {:induction false} RunesConcat(a: seq<Message>, b: seq<Message>)
    ensures Runes(a + b) == Runes(a) + Runes(b)
  {
    if b == [] {
      assert a + b == a;
    } else {
      assert (a + b)[..|a + b| - 1] == a + b[..|b| - 1];
      RunesConcat(a, b[..|b| - 1]);
    }
  }

  lemma {:induction false} UsersConcat(a: seq<Message>, b: seq<Message>)
    ensures Users(a + b) == Users(a) + Users(b)
  {
    if b == [] {
      assert a + b == a;
    } else {
      assert (a + b)[..|a + b| - 1] == a + b[..|b| - 1];
      UsersConcat(a, b[..|b| - 1]);
    }
  }

  lemma UsersSplit(ms: seq<Message>, k: nat)
    requires k <= |ms|
    ensures Users(ms) == Users(ms[..k]) + Users(ms[k..])
  {
    assert ms == ms[..k] + ms[k..];
    UsersConcat(ms[..k], ms[k..]);
  }

  lemma {:induction false} UsersPositive(ms: seq<Message>)
    requires ms != [] && IsUser(ms[0])
    ensures Users(ms) > 0
  {
    if |ms| > 1 { UsersPositive(ms[..|ms| - 1]); }
  }

  // ---------- Windows ----------

  /** Of two windows of one conversation the shorter is a window of the longer. */
  lemma WindowNested(ms: seq<Message>, w: seq<Message>, v: seq<Message>)
    requires IsWindow(ms, w) && IsWindow(ms, v) && |v| <= |w|
    ensures IsWindow(w, v)
  {
    assert w[|w| - |v|..] == ms[|ms| - |v|..];
  }

  /** A window of a window is a window. */
  lemma WindowTransitive(ms: seq<Message>, w: seq<Message>, v: seq<Message>)
    requires IsWindow(ms, w) && IsWindow(w, v)
    ensures IsWindow(ms, v)
  {
    assert w[|w| - |v|..] == ms[|ms| - |v|..];
  }

  /** A longer window has more turns. */
  lemma LongerHasMoreTurns(ms: seq<Message>, w: seq<Message>, v: seq<Message>)
    requires IsWindow(ms, w) && IsWindow(ms, v) && |v| < |w|
    ensures Users(v) < Users(w)
  {
    hide Users;
    WindowNested(ms, w, v);
    UsersSplit(w, |w| - |v|);
    UsersPositive(w[..|w| - |v|]);
  }

  /** A window never has more turns than the conversation. */
  lemma WindowTurns(ms: seq<Message>, w: seq<Message>)
    requires IsWindow(ms, w)
    ensures Users(w) <= Users(ms)
  {
    UsersSplit(ms, |ms| - |w|);
  }

  /** A window is the longest within a limit when it uses the limit up or has every turn. */
  lemma FullWindowIsLongest(ms: seq<Message>, limit: int, w: seq<Message>)
    requires IsWindow(ms, w) && Users(w) <= Max(limit, 0)
    requires Users(w) == Max(limit, 0) || Users(w) == Users(ms)
    ensures LongestWindow(ms, limit, w)
  {
    forall v | IsWindow(ms, v) && Users(v) <= Max(limit, 0) ensures |v| <= |w| {
      if |w| < |v| {
        LongerHasMoreTurns(ms, v, w);
        WindowTurns(ms, v);
      }
    }
  }

  /** The limit determines the window. */
  lemma LongestWindowUnique(ms: seq<Message>, limit: int, w: seq<Message>, v: seq<Message>)
    requires LongestWindow(ms, limit, w) && LongestWindow(ms, limit, v)
    ensures w == v
  {
  }

  /** A user-rooted suffix of an accepted conversation is accepted. */
  lemma WindowAccepted(ms: seq<Message>, w: seq<Message>)
    requires Accepts(ms) && IsWindow(ms, w)
    ensures Accepts(w) && WellOwned(w)
  {
    if w != [] { SuffixScan(ms, |ms| - |w|); }
    AcceptsIffGrammatical(w);
  }

  /** With less room the best window is a user-rooted suffix of the one with more room: as the
      protected part of a prompt grows, the history it shows only loses turns at its old end. */
  lemma LessRoomKeepsSuffix(ms: seq<Message>, limit: int, room: int, w: seq<Message>, room': int, w': seq<Message>)
    requires room' <= room
    requires BestWindow(ms, limit, room, w) && BestWindow(ms, limit, room', w')
    ensures IsWindow(w, w')
  {
    assert |w'| <= |w|;
    WindowNested(ms, w, w');
  }

  // ---------- Dropping turns ----------

  /** Dropping the oldest turn of the longest window for its number of turns leaves the longest
      window for one turn less, and no window lies between the two. */
  lemma DropStep(ms: seq<Message>, w: seq<Message>, d: seq<Message>)
    requires IsWindow(ms, w) && w != []
    requires LongestWindow(w, Users(w) - 1, d)
    ensures IsWindow(ms, d) && |d| < |w| && Users(d) < Users(w)
    ensures forall v :: IsWindow(ms, v) && |d| < |v| <= |w| ==> v == w
  {
    WindowTransitive(ms, w, d);
    LongerHasMoreTurns(ms, w, []);
    forall v | IsWindow(ms, v) && |d| < |v| <= |w| ensures v == w {
      WindowNested(ms, w, v);
      if |v| < |w| { LongerHasMoreTurns(ms, w, v); }
    }
  }
}
