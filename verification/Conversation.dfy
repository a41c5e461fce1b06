/** The grammar of a session: turns rooted at a user message, each a sequence of blocks, each block
    a model message followed by the results of its tool calls in order. */
module Conversation {
  import opened Base
  import opened Llm

  predicate IsUser(m: Message) { m.role == ROLE_USER }
  predicate IsTool(m: Message) { m.role == ROLE_TOOL }

  /** A message that opens a block: what a model said. */
  predicate IsHead(m: Message) { !IsUser(m) && !IsTool(m) }

  predicate Answers(m: Message, call: ToolCall) {
    IsTool(m) && m.toolCallID == call.id && m.toolName == call.callee.name
  }

  // ---------- The acceptor ----------

  /** Where a conversation stands: nothing said; a user asked; tool calls wait for results, in order;
      the block got all its results; the model gave a final answer; outside the grammar. */
  datatype Place = Start | Asked | Pending(calls: seq<ToolCall>) | Complete | Closed | Broken

  function Next(p: Place, m: Message): Place {
    if p.Broken? then Broken
    else if IsUser(m) then Asked
    else if IsTool(m) then
      if p.Pending? && p.calls != [] && Answers(m, p.calls[0]) then
        if |p.calls| == 1 then Complete else Pending(p.calls[1..])
      else Broken
    else if p.Asked? || p.Complete? then
      if m.toolCalls == [] then Closed else Pending(m.toolCalls)
    else Broken
  }

  function Scan(ms: seq<Message>): Place {
    if ms == [] then Start else Next(Scan(ms[..|ms| - 1]), ms[|ms| - 1])
  }

  predicate Accepts(ms: seq<Message>) { !Scan(ms).Broken? }

  lemma ScanAppend(ms: seq<Message>, m: Message)
    ensures Scan(ms + [m]) == Next(Scan(ms), m)
  {
    assert (ms + [m])[..|ms|] == ms;
  }

  // ---------- The grammar by positions ----------

  /** Message i is the result number i - j - 1 of the block opened at j, and the results before it
      are there in order. */
  ghost predicate OwnedBy(ms: seq<Message>, j: nat, i: nat) {
    && j < i < |ms|
    && IsHead(ms[j])
    && i - j <= |ms[j].toolCalls|
    && forall k | j < k <= i :: Answers(ms[k], ms[j].toolCalls[k - j - 1])
  }

  /** No tool result is an orphan. */
  ghost predicate WellOwned(ms: seq<Message>) {
    forall i: nat | i < |ms| && IsTool(ms[i]) :: exists j: nat :: OwnedBy(ms, j, i)
  }

  /** The messages before i end with a question or with a fully answered block. */
  ghost predicate MaySpeak(ms: seq<Message>, i: nat) {
    && 0 < i <= |ms|
    && (IsUser(ms[i - 1]) || exists j: nat :: OwnedBy(ms, j, i - 1) && i - 1 - j == |ms[j].toolCalls|)
  }

  ghost predicate Grammatical(ms: seq<Message>) {
    && WellOwned(ms)
    && forall i: nat | i < |ms| && IsHead(ms[i]) :: MaySpeak(ms, i)
  }

  /** What each place of the acceptor means, said by positions. */
  ghost predicate Describes(p: Place, ms: seq<Message>) {
    var n := |ms|;
    match p
    case Start => n == 0
    case Asked => n > 0 && IsUser(ms[n - 1])
    case Closed => n > 0 && IsHead(ms[n - 1]) && ms[n - 1].toolCalls == []
    case Complete => n > 0 && exists j: nat :: OwnedBy(ms, j, n - 1) && n - 1 - j == |ms[j].toolCalls|
    case Pending(calls) => exists j: nat :: Waiting(ms, j, calls)
    case Broken => !Grammatical(ms)
  }

  ghost predicate Waiting(ms: seq<Message>, j: nat, calls: seq<ToolCall>) {
    && j < |ms| && IsHead(ms[j]) && calls != []
    && (j == |ms| - 1 || OwnedBy(ms, j, |ms| - 1))
    && |ms| - 1 - j <= |ms[j].toolCalls| && calls == ms[j].toolCalls[|ms| - 1 - j..]
  }

  lemma OwnedByPrefix(ms: seq<Message>, m: Message, j: nat, i: nat)
    requires i < |ms|
    ensures OwnedBy(ms + [m], j, i) <==> OwnedBy(ms, j, i)
  {
    var ns := ms + [m];
    assert forall k | 0 <= k <= i :: ns[k] == ms[k];
  }

  lemma MaySpeakPrefix(ms: seq<Message>, m: Message, i: nat)
    requires i <= |ms|
    ensures MaySpeak(ms + [m], i) <==> MaySpeak(ms, i)
  {
    if 0 < i {
      var ns, last := ms + [m], i - 1;
      assert ns[last] == ms[last];
      forall j: nat ensures OwnedBy(ns, j, last) <==> OwnedBy(ms, j, last) {
        OwnedByPrefix(ms, m, j, last);
      }
    }
  }

  /** The grammar looks only backwards: one more message adds one condition. */
  lemma GrammaticalAppend(ms: seq<Message>, m: Message)
    ensures Grammatical(ms + [m]) <==>
            Grammatical(ms)
            && (IsTool(m) ==> exists j: nat :: OwnedBy(ms + [m], j, |ms|))
            && (IsHead(m) ==> MaySpeak(ms, |ms|))
  {
    var ns := ms + [m];
    forall i: nat | i < |ms| ensures ns[i] == ms[i] {}
    forall i: nat, j: nat | i < |ms| ensures OwnedBy(ns, j, i) <==> OwnedBy(ms, j, i) {
      OwnedByPrefix(ms, m, j, i);
    }
    forall i: nat | i <= |ms| ensures MaySpeak(ns, i) <==> MaySpeak(ms, i) {
      MaySpeakPrefix(ms, m, i);
    }
    assert ns[|ms|] == m;
  }

  /** A block may open exactly at the places Asked and Complete. */
  lemma SpeakStep(ms: seq<Message>, p: Place)
    requires Describes(p, ms) && !p.Broken?
    ensures MaySpeak(ms, |ms|) <==> p.Asked? || p.Complete?
  {
    if p.Pending? {
      var j: nat :| Waiting(ms, j, p.calls);
    }
  }

  /** Between a result and its owner there are only tool results. */
  lemma OwnerNearest(ms: seq<Message>, j: nat, i: nat, k: nat)
    requires OwnedBy(ms, j, i) && k < i
    ensures k <= j || Answers(ms[k], ms[j].toolCalls[k - j - 1])
  {
  }

  /** The result that answers the first waiting call extends the open block. */
  lemma ResultExtends(ms: seq<Message>, m: Message, j: nat, calls: seq<ToolCall>)
    requires Waiting(ms, j, calls) && Answers(m, calls[0])
    ensures OwnedBy(ms + [m], j, |ms|)
    ensures Describes(Next(Pending(calls), m), ms + [m])
  {
    var ns, n := ms + [m], |ms|;
    forall k | j < k <= n ensures Answers(ns[k], ns[j].toolCalls[k - j - 1]) {
      if k < n { assert ns[k] == ms[k]; }
    }
    if |calls| > 1 { assert Waiting(ns, j, calls[1..]); }
  }

  /** Only the open block can own one more result. */
  lemma OwnerIsOpenBlock(ms: seq<Message>, m: Message, j: nat, j': nat)
    requires j < |ms| && IsHead(ms[j]) && (j == |ms| - 1 || OwnedBy(ms, j, |ms| - 1))
    requires OwnedBy(ms + [m], j', |ms|)
    ensures j' == j && |ms| - j <= |ms[j].toolCalls| && Answers(m, ms[j].toolCalls[|ms| - j - 1])
  {
    var ns, n := ms + [m], |ms|;
    assert forall k | j < k < n :: IsTool(ms[k]);
    assert ns[j] == ms[j] && ns[j'] == ms[j'] && ns[n] == m;
    OwnerNearest(ns, j', n, j);
  }

  /** A tool result has an owner exactly when it answers the first waiting call. */
  lemma ResultStep(ms: seq<Message>, m: Message, p: Place)
    requires Describes(p, ms) && !p.Broken? && IsTool(m)
    ensures (exists j: nat :: OwnedBy(ms + [m], j, |ms|)) <==> p.Pending? && Answers(m, p.calls[0])
    ensures p.Pending? && Answers(m, p.calls[0]) ==> Describes(Next(p, m), ms + [m])
  {
    var ns, n := ms + [m], |ms|;
    if p.Pending? {
      var j: nat :| Waiting(ms, j, p.calls);
      if Answers(m, p.calls[0]) { ResultExtends(ms, m, j, p.calls); }
      forall j': nat | OwnedBy(ns, j', n) ensures Answers(m, p.calls[0]) {
        OwnerIsOpenBlock(ms, m, j, j');
      }
    } else if p.Complete? {
      var j: nat :| OwnedBy(ms, j, n - 1) && n - 1 - j == |ms[j].toolCalls|;
      forall j': nat | OwnedBy(ns, j', n) ensures false {
        OwnerIsOpenBlock(ms, m, j, j');
      }
    } else {
      assert n > 0 ==> ns[n - 1] == ms[n - 1];
    }
  }

  lemma NextDescribes(ms: seq<Message>, m: Message, p: Place)
    requires Describes(p, ms) && (p.Broken? <==> !Grammatical(ms))
    ensures Describes(Next(p, m), ms + [m])
    ensures Next(p, m).Broken? <==> !Grammatical(ms + [m])
  {
    var ns := ms + [m];
    GrammaticalAppend(ms, m);
    if p.Broken? {
    } else if IsTool(m) {
      ResultStep(ms, m, p);
    } else if IsHead(m) {
      SpeakStep(ms, p);
      if m.toolCalls != [] { assert Waiting(ns, |ms|, m.toolCalls); }
    }
  }

  /** The acceptor accepts exactly the grammatical conversations. */
  lemma {:induction false} AcceptsIffGrammatical(ms: seq<Message>)
    ensures Accepts(ms) <==> Grammatical(ms)
    ensures Describes(Scan(ms), ms)
  {
    if ms != [] {
      hide Grammatical, Describes, Next;
      var front, last := ms[..|ms| - 1], ms[|ms| - 1];
      assert ms == front + [last];
      AcceptsIffGrammatical(front);
      NextDescribes(front, last, Scan(front));
    }
  }

  // ---------- Cutting and joining ----------

  /** What follows a user message stands on its own: a user-rooted suffix is grammatical. */
  lemma {:induction false} SuffixScan(ms: seq<Message>, k: nat)
    requires k < |ms| && IsUser(ms[k]) && Accepts(ms)
    ensures Scan(ms[k..]) == Scan(ms)
  {
    var front := ms[..|ms| - 1];
    assert ms[k..][..|ms| - k - 1] == front[k..];
    if k < |ms| - 1 {
      SuffixScan(front, k);
    }
  }

  /** Results keep their owners when conversations are put one after the other. */
  lemma WellOwnedConcat(a: seq<Message>, b: seq<Message>)
    requires WellOwned(a) && WellOwned(b)
    ensures WellOwned(a + b)
  {
    var c := a + b;
    forall i: nat | i < |c| && IsTool(c[i]) ensures exists j: nat :: OwnedBy(c, j, i) {
      if i < |a| {
        var j: nat :| OwnedBy(a, j, i);
        assert OwnedBy(c, j, i);
      } else {
        assert IsTool(b[i - |a|]);
        var j: nat :| OwnedBy(b, j, i - |a|);
        assert forall k | 0 <= k < |b| :: c[|a| + k] == b[k];
        assert OwnedBy(c, |a| + j, i) by {
          forall k | |a| + j < k <= i ensures Answers(c[k], c[|a| + j].toolCalls[k - (|a| + j) - 1]) {
            assert Answers(b[k - |a|], b[j].toolCalls[k - |a| - j - 1]);
          }
        }
      }
    }
  }

  /** Two accepted conversations, the second opened by the user, join to an accepted one. */
  lemma {:induction false} AcceptsConcat(a: seq<Message>, b: seq<Message>)
    requires Accepts(a) && Accepts(b)
    requires b != [] && IsUser(b[0])
    ensures Scan(a + b) == Scan(b)
  {
    var front := b[..|b| - 1];
    assert (a + b)[..|a + b| - 1] == a + front;
    if |b| > 1 {
      AcceptsConcat(a, front);
    } else {
      assert a + front == a;
    }
  }
}
