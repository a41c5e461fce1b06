/** A session owns its messages: nothing a caller can reach is part of it (internal/session/session.go). */
module Ownership {
  import opened Base
  import opened Payloads

  datatype MessageFields = MessageFields(
    role: string, content: string, name: string, toolCallID: string, toolName: string, reasoning: string)

  /** A message in memory: its immutable fields, its tool call list and its extension map. */
  datatype Message = Message(fields: MessageFields, toolCalls: Option<Address>, extra: Option<Address>)

  // ---------- Contents ----------

  datatype CallTree = CallTree(fields: CallFields, index: Option<int>, extra: Tree)

  datatype MessageTree = MessageTree(fields: MessageFields, calls: Option<seq<CallTree>>, extra: Tree)

  ghost predicate CallWithin(cells: Cells, call: Call, depth: nat, region: set<Address>) {
    && Within(cells, MapRef(call.extra), depth, region)
    && (call.index.Some? ==>
          call.index.value in region && call.index.value in cells && cells[call.index.value].IndexCell?)
  }

  ghost predicate MessageWithin(cells: Cells, m: Message, depth: nat, region: set<Address>) {
    && Within(cells, MapRef(m.extra), depth, region)
    && (m.toolCalls.Some? ==>
          var a := m.toolCalls.value;
          a in region && a in cells && cells[a].CallsCell? &&
          forall i | 0 <= i < |cells[a].calls| :: CallWithin(cells, cells[a].calls[i], depth, region))
  }

  ghost function CallContents(cells: Cells, call: Call, depth: nat): CallTree {
    CallTree(call.fields,
      if call.index.Some? && call.index.value in cells && cells[call.index.value].IndexCell?
      then Some(cells[call.index.value].index)
      else None,
      Contents(cells, MapRef(call.extra), depth))
  }

  ghost function MessageContents(cells: Cells, m: Message, depth: nat): MessageTree {
    MessageTree(m.fields,
      if m.toolCalls.Some? && m.toolCalls.value in cells && cells[m.toolCalls.value].CallsCell?
      then Some(CallsContents(cells, cells[m.toolCalls.value].calls, depth))
      else None,
      Contents(cells, MapRef(m.extra), depth))
  }

  ghost function CallsContents(cells: Cells, calls: seq<Call>, depth: nat): seq<CallTree> {
    seq(|calls|, i requires 0 <= i < |calls| => CallContents(cells, calls[i], depth))
  }

  ghost function CopiedCall(t: CallTree): CallTree { t.(extra := Copied(t.extra)) }

  /** A copied message has the same contents, except that a nil tool call list comes back empty. */
  ghost function CopiedMessage(t: MessageTree): MessageTree {
    var calls := if t.calls.Some? then t.calls.value else [];
    MessageTree(t.fields, Some(seq(|calls|, i requires 0 <= i < |calls| => CopiedCall(calls[i]))), Copied(t.extra))
  }

  ghost predicate PlainMessage(t: MessageTree) {
    t.calls.Some? && Plain(t.extra) && forall i | 0 <= i < |t.calls.value| :: Plain(t.calls.value[i].extra)
  }

  /** A copy of a message is equal to it exactly when nothing in it was nil or empty in the ways that copying
      changes; a copy of a copy is always equal. */
  lemma CopiedMessageExactly(t: MessageTree)
    ensures CopiedMessage(t) == t <==> PlainMessage(t)
    ensures PlainMessage(CopiedMessage(t))
  {
    CopiedExactly(t.extra);
    if t.calls.Some? {
      var calls := t.calls.value;
      forall i | 0 <= i < |calls|
        ensures (CopiedCall(calls[i]) == calls[i] <==> Plain(calls[i].extra)) && Plain(CopiedCall(calls[i]).extra) {
        CopiedExactly(calls[i].extra);
      }
      if PlainMessage(t) { assert CopiedMessage(t).calls.value == calls; }
      if CopiedMessage(t) == t {
        forall i | 0 <= i < |calls|
          ensures Plain(calls[i].extra) { assert CopiedMessage(t).calls.value[i] == CopiedCall(calls[i]); }
      }
    }
  }

  // ---------- Writes elsewhere ----------

  lemma CallWritesElsewhere(before: Cells, after: Cells, call: Call, depth: nat, more: nat, region: set<Address>,
    wider: set<Address>)
    requires CallWithin(before, call, depth, region) && Agree(before, after, region) && depth <= more && region <= wider
    ensures CallWithin(after, call, more, wider) && CallContents(after, call, more) == CallContents(before, call, depth)
  {
    WritesElsewhere(before, after, MapRef(call.extra), depth, region);
    WithinMore(after, MapRef(call.extra), depth, more, region, wider);
  }

  /** What a message is made of decides what it is. */
  lemma MessageWritesElsewhere(before: Cells, after: Cells, m: Message, depth: nat, more: nat, region: set<Address>,
    wider: set<Address>)
    requires MessageWithin(before, m, depth, region) && Agree(before, after, region) && depth <= more && region <= wider
    ensures MessageWithin(after, m, more, wider) && MessageContents(after, m, more) == MessageContents(before, m, depth)
  {
    WritesElsewhere(before, after, MapRef(m.extra), depth, region);
    WithinMore(after, MapRef(m.extra), depth, more, region, wider);
    if m.toolCalls.Some? {
      var calls := before[m.toolCalls.value].calls;
      forall i | 0 <= i < |calls|
        ensures CallWithin(after, calls[i], more, wider) &&
          CallContents(after, calls[i], more) == CallContents(before, calls[i], depth)
      {
        CallWritesElsewhere(before, after, calls[i], depth, more, region, wider);
      }
      assert CallsContents(after, calls, more) == CallsContents(before, calls, depth);
    }
  }

  lemma MessagesWriteElsewhere(before: Cells, after: Cells, messages: seq<Message>, depth: nat, more: nat,
    region: set<Address>, wider: set<Address>)
    requires forall i | 0 <= i < |messages| :: MessageWithin(before, messages[i], depth, region)
    requires Agree(before, after, region) && depth <= more && region <= wider
    ensures forall i | 0 <= i < |messages| :: MessageWithin(after, messages[i], more, wider)
    ensures forall i | 0 <= i < |messages| ::
      MessageContents(after, messages[i], more) == MessageContents(before, messages[i], depth)
  {
    forall i | 0 <= i < |messages|
      ensures MessageWithin(after, messages[i], more, wider)
      ensures MessageContents(after, messages[i], more) == MessageContents(before, messages[i], depth)
    {
      MessageWritesElsewhere(before, after, messages[i], depth, more, region, wider);
    }
  }

  // ---------- Copying ----------

  ghost predicate IsCallCopy(before: Cells, after: Cells, call: Call, c: Call, depth: nat) {
    && CallWithin(after, c, depth + 1, after.Keys - before.Keys)
    && CallContents(after, c, depth + 1) == CopiedCall(CallContents(before, call, depth))
  }

  ghost predicate IsMessageCopy(before: Cells, after: Cells, m: Message, c: Message, depth: nat) {
    && MessageWithin(after, c, depth + 1, after.Keys - before.Keys)
    && MessageContents(after, c, depth + 1) == CopiedMessage(MessageContents(before, m, depth))
  }

  lemma CallCopyStays(start: Cells, before: Cells, after: Cells, call: Call, c: Call, depth: nat)
    requires IsCallCopy(start, before, call, c, depth) && Extends(before, after)
    ensures IsCallCopy(start, after, call, c, depth)
  {
    CallWritesElsewhere(before, after, c, depth + 1, depth + 1, before.Keys - start.Keys, after.Keys - start.Keys);
  }

  /** The call's extension map and then its index pointer. */
  method CloneCall(memory: Memory, call: Call, ghost depth: nat) returns (c: Call)
    requires memory.Valid() && CallWithin(memory.cells, call, depth, memory.cells.Keys)
    modifies memory
    ensures memory.Valid() && Grown(old(memory.cells), memory.cells)
    ensures IsCallCopy(old(memory.cells), memory.cells, call, c, depth)
  {
    ghost var start := memory.cells;
    var extra := memory.CloneMap(call.extra, depth);
    c := call.(extra := extra);
    if call.index.Some? {
      ghost var before := memory.cells;
      var value := memory.Allocate(IndexCell(memory.cells[call.index.value].index), start);
      CopyStays(start, before, memory.cells, MapRef(call.extra), MapRef(extra), depth);
      c := c.(index := Some(value));
    }
  }

  lemma CallsPointAside(start: Cells, now: Cells, calls: seq<Call>, cloned: seq<Call>, depth: nat, a: Address)
    requires |cloned| <= |calls| && forall i | 0 <= i < |cloned| :: IsCallCopy(start, now, calls[i], cloned[i], depth)
    requires CellPointsTo(CallsCell(cloned), a)
    ensures a in now && a !in start
  {
    var i :| 0 <= i < |cloned| && (cloned[i].index == Some(a) || cloned[i].extra == Some(a));
    assert IsCallCopy(start, now, calls[i], cloned[i], depth);
  }

  lemma CallSameAs(start: Cells, before: Cells, after: Cells, call: Call, c: Call, depth: nat)
    requires CallWithin(start, call, depth, start.Keys) && Extends(start, before) &&
      IsCallCopy(before, after, call, c, depth)
    ensures IsCallCopy(start, after, call, c, depth)
  {
    CallWritesElsewhere(start, before, call, depth, depth, start.Keys, start.Keys);
    CallWritesElsewhere(after, after, c, depth + 1, depth + 1, after.Keys - before.Keys, after.Keys - start.Keys);
  }

  method CloneCalls(memory: Memory, calls: seq<Call>, ghost depth: nat) returns (cloned: seq<Call>)
    requires memory.Valid() && forall i | 0 <= i < |calls| ::
      CallWithin(memory.cells, calls[i], depth, memory.cells.Keys)
    modifies memory
    ensures memory.Valid() && Grown(old(memory.cells), memory.cells) && |cloned| == |calls|
    ensures forall i | 0 <= i < |cloned| :: IsCallCopy(old(memory.cells), memory.cells, calls[i], cloned[i], depth)
  {
    hide IsCallCopy, CallWithin, CellPointsTo;
    ghost var start := memory.cells;
    cloned := [];
    for i := 0 to |calls|
      invariant memory.Valid() && Grown(start, memory.cells) && |cloned| == i
      invariant forall j | 0 <= j < i :: IsCallCopy(start, memory.cells, calls[j], cloned[j], depth)
    {
      ghost var before := memory.cells;
      CallWritesElsewhere(start, before, calls[i], depth, depth, start.Keys, before.Keys);
      var c := CloneCall(memory, calls[i], depth);
      forall j | 0 <= j < i ensures IsCallCopy(start, memory.cells, calls[j], cloned[j], depth) {
        CallCopyStays(start, before, memory.cells, calls[j], cloned[j], depth);
      }
      CallSameAs(start, before, memory.cells, calls[i], c, depth);
      GrownTwice(start, before, memory.cells);
      cloned := cloned + [c];
    }
  }

  method CloneMessage(memory: Memory, m: Message, ghost depth: nat) returns (c: Message)
    requires memory.Valid() && MessageWithin(memory.cells, m, depth, memory.cells.Keys)
    modifies memory
    ensures memory.Valid() && Grown(old(memory.cells), memory.cells)
    ensures IsMessageCopy(old(memory.cells), memory.cells, m, c, depth)
  {
    ghost var start := memory.cells;
    var calls := if m.toolCalls.Some? then memory.cells[m.toolCalls.value].calls else [];
    var extra := memory.CloneMap(m.extra, depth);
    ghost var middle := memory.cells;
    forall i | 0 <= i < |calls| ensures CallWithin(middle, calls[i], depth, middle.Keys) {
      CallWritesElsewhere(start, middle, calls[i], depth, depth, start.Keys, middle.Keys);
    }
    var cloned := CloneCalls(memory, calls, depth);
    ghost var before := memory.cells;
    CopyStays(start, middle, before, MapRef(m.extra), MapRef(extra), depth);
    forall i | 0 <= i < |calls| ensures IsCallCopy(start, before, calls[i], cloned[i], depth) {
      CallSameAs(start, middle, before, calls[i], cloned[i], depth);
    }
    GrownTwice(start, middle, before);
    forall b | CellPointsTo(CallsCell(cloned), b) ensures b in before && b !in start {
      CallsPointAside(start, before, calls, cloned, depth, b);
    }
    var a := memory.Allocate(CallsCell(cloned), start);
    c := Message(m.fields, Some(a), extra);
    MessageCopied(start, before, m, calls, cloned, extra, a, depth);
  }

  lemma MessageCopied(start: Cells, before: Cells, m: Message, calls: seq<Call>, cloned: seq<Call>,
    extra: Option<Address>, a: Address, depth: nat)
    requires MessageWithin(start, m, depth, start.Keys) && Extends(start, before) && a !in before && |cloned| == |calls|
    requires calls == if m.toolCalls.Some? then start[m.toolCalls.value].calls else []
    requires IsCopy(start, before, MapRef(m.extra), MapRef(extra), depth)
    requires forall i | 0 <= i < |cloned| :: IsCallCopy(start, before, calls[i], cloned[i], depth)
    ensures IsMessageCopy(start, before[a := CallsCell(cloned)], m, Message(m.fields, Some(a), extra), depth)
  {
    var after := before[a := CallsCell(cloned)];
    CopyStays(start, before, after, MapRef(m.extra), MapRef(extra), depth);
    forall i | 0 <= i < |cloned| ensures IsCallCopy(start, after, calls[i], cloned[i], depth) {
      CallCopyStays(start, before, after, calls[i], cloned[i], depth);
    }
    var copied := CopiedMessage(MessageContents(start, m, depth));
    hide Contents, Copied, Within;
    assert CallsContents(after, cloned, depth + 1) == copied.calls.value;
  }

  // ---------- The session ----------

  /** No cell outside the region points into it. */
  ghost predicate Apart(cells: Cells, own: set<Address>) {
    forall a, b | a in cells && a !in own && b in own :: !CellPointsTo(cells[a], b)
  }

  /** A region with every new cell added stays apart. */
  lemma ApartGrows(memory: Memory, before: Cells, own: set<Address>)
    requires Grown(before, memory.cells) && Apart(before, own) && own <= before.Keys
    requires forall a, b | a in before && b !in before :: !CellPointsTo(before[a], b)
    ensures Apart(memory.cells, own + (memory.cells.Keys - before.Keys)) && own <= memory.cells.Keys
  {
    hide CellPointsTo;
  }

  // ---------- What callers can do ----------

  function Roots(m: Message): set<Address> {
    (if m.toolCalls.Some? then {m.toolCalls.value} else {}) + (if m.extra.Some? then {m.extra.value} else {})
  }

  /** References followed one after the other, from one that is held. */
  ghost predicate IsPath(cells: Cells, held: set<Address>, path: seq<Address>) {
    && path != [] && path[0] in held
    && forall k | 0 <= k < |path| - 1 :: path[k] in cells && CellPointsTo(cells[path[k]], path[k + 1])
  }

  ghost predicate Reachable(cells: Cells, held: set<Address>, a: Address) {
    exists path :: IsPath(cells, held, path) && path[|path| - 1] == a
  }

  /** Who holds addresses outside a region that nothing points into cannot reach into it. */
  lemma {:induction false} PathStaysOut(cells: Cells, held: set<Address>, own: set<Address>, path: seq<Address>)
    requires IsPath(cells, held, path) && held !! own && Apart(cells, own)
    ensures path[|path| - 1] !in own
  {
    if |path| > 1 {
      var front := path[..|path| - 1];
      assert forall k | 0 <= k < |front| :: front[k] == path[k];
      PathStaysOut(cells, held, own, front);
      assert CellPointsTo(cells[path[|path| - 2]], path[|path| - 1]);
    }
  }

  /** An address the callers can reach, or one of a cell they made. */
  ghost predicate MayHold(before: Cells, held: set<Address>, a: Address) {
    a !in before || Reachable(before, held, a)
  }

  /** What callers can make of the memory and of what they hold: cells they cannot reach stay, and what they write
      points, like what they hold afterwards, only to what they can reach or made. */
  ghost predicate CallersMay(before: Cells, held: set<Address>, written: Cells, holding: set<Address>) {
    && before.Keys <= written.Keys && holding <= written.Keys
    && (forall a | a in before && !Reachable(before, held, a) :: written[a] == before[a])
    && (forall a, b | a in written && MayHold(before, held, a) && CellPointsTo(written[a], b) ::
          b in written && MayHold(before, held, b))
    && (forall a | a in holding :: MayHold(before, held, a))
  }

  /** So whatever callers do stays outside a region that they hold nothing of and that nothing points into. */
  lemma CallersStayOut(before: Cells, held: set<Address>, written: Cells, holding: set<Address>, own: set<Address>)
    requires CallersMay(before, held, written, holding)
    requires held !! own && own <= before.Keys && Apart(before, own)
    ensures Agree(before, written, own) && Apart(written, own) && holding !! own
  {
    hide CellPointsTo;
    forall a | a in own ensures !MayHold(before, held, a) {
      forall path | IsPath(before, held, path) ensures path[|path| - 1] != a { PathStaysOut(before, held, own, path); }
    }
  }

  lemma NoneDangling(before: Cells, held: set<Address>, written: Cells, holding: set<Address>)
    requires CallersMay(before, held, written, holding)
    requires forall a, b | a in before && b !in before :: !CellPointsTo(before[a], b)
    ensures forall a, b | a in written && b !in written :: !CellPointsTo(written[a], b)
  {
    hide CellPointsTo, Reachable;
  }

  // ---------- What is handed out ----------

  ghost function Views(cells: Cells, messages: seq<Message>, depth: nat): seq<MessageTree> {
    seq(|messages|, i requires 0 <= i < |messages| => MessageContents(cells, messages[i], depth))
  }

  /** A copy that was handed out: made of cells of the region, and saying what the session says. */
  ghost predicate Handed(cells: Cells, depth: nat, region: set<Address>, c: Message, t: MessageTree) {
    MessageWithin(cells, c, depth + 1, region) && MessageContents(cells, c, depth + 1) == t
  }

  ghost predicate AllHanded(cells: Cells, depth: nat, region: set<Address>, copies: seq<Message>,
    trees: seq<MessageTree>) {
    |copies| == |trees| && forall i | 0 <= i < |copies| :: Handed(cells, depth, region, copies[i], trees[i])
  }

  lemma StillHanded(now: Cells, after: Cells, depth: nat, region: set<Address>, wider: set<Address>, c: Message,
    t: MessageTree)
    requires Handed(now, depth, region, c, t) && Agree(now, after, region) && region <= wider
    ensures Handed(after, depth, wider, c, t)
  {
    MessageWritesElsewhere(now, after, c, depth + 1, depth + 1, region, wider);
  }

  lemma StillAllHanded(before: Cells, now: Cells, after: Cells, depth: nat, copies: seq<Message>,
    trees: seq<MessageTree>,
    c: Message, t: MessageTree)
    requires Grown(before, now) && Grown(now, after)
    requires AllHanded(now, depth, now.Keys - before.Keys, copies, trees) &&
      Handed(after, depth, after.Keys - now.Keys, c, t)
    ensures Grown(before, after) && AllHanded(after, depth, after.Keys - before.Keys, copies + [c], trees + [t])
  {
    hide Handed, CellPointsTo;
    forall i | 0 <= i < |copies| ensures Handed(after, depth, after.Keys - before.Keys, copies[i], trees[i]) {
      StillHanded(now, after, depth, now.Keys - before.Keys, after.Keys - before.Keys, copies[i], trees[i]);
    }
    StillHanded(after, after, depth, after.Keys - now.Keys, after.Keys - before.Keys, c, t);
    GrownTwice(before, now, after);
  }

  lemma NothingHanded(cells: Cells, messages: seq<Message>, depth: nat)
    ensures Grown(cells, cells) && AllHanded(cells, depth, cells.Keys - cells.Keys, [], [])
    ensures |Views(cells, messages, depth)| == |messages|
  {
  }

  // ---------- The session ----------

  /** The messages are plain and made of cells of the region alone, which no other cell points to and no caller
      holds. */
  ghost predicate Owning(cells: Cells, messages: seq<Message>, depth: nat, own: set<Address>, held: set<Address>) {
    && own + held <= cells.Keys && own !! held && Apart(cells, own)
    && (forall i | 0 <= i < |messages| :: MessageWithin(cells, messages[i], depth, own))
    && (forall i | 0 <= i < |messages| :: PlainMessage(MessageContents(cells, messages[i], depth)))
  }

  lemma OwnMessage(cells: Cells, messages: seq<Message>, depth: nat, own: set<Address>, held: set<Address>, k: nat)
    requires Owning(cells, messages, depth, own, held) && k < |messages|
    ensures MessageWithin(cells, messages[k], depth, cells.Keys) &&
      PlainMessage(MessageContents(cells, messages[k], depth))
  {
    MessageWritesElsewhere(cells, cells, messages[k], depth, depth, own, cells.Keys);
  }

  lemma CopyIsHanded(now: Cells, after: Cells, m: Message, depth: nat, c: Message)
    requires PlainMessage(MessageContents(now, m, depth)) && IsMessageCopy(now, after, m, c, depth)
    ensures Handed(after, depth, after.Keys - now.Keys, c, MessageContents(now, m, depth))
    ensures Roots(c) <= after.Keys - now.Keys
  {
    CopiedMessageExactly(MessageContents(now, m, depth));
    RootsWithin(after, c, depth + 1, after.Keys - now.Keys);
  }

  /** New cells that point to nothing older leave the session as it was, also when callers hold some of them. */
  lemma StaysOwned(now: Cells, after: Cells, messages: seq<Message>, depth: nat, own: set<Address>, held: set<Address>,
    more: set<Address>)
    requires Owning(now, messages, depth, own, held) && Grown(now, after) && more <= after.Keys - now.Keys
    ensures Owning(after, messages, depth, own, held + more) &&
      Views(after, messages, depth) == Views(now, messages, depth)
  {
    MessagesWriteElsewhere(now, after, messages, depth, depth, own, own);
    hide MessageWithin, MessageContents, PlainMessage, CellPointsTo;
  }

  lemma RootsWithin(cells: Cells, m: Message, depth: nat, region: set<Address>)
    requires MessageWithin(cells, m, depth, region)
    ensures Roots(m) <= region
  {
  }

  lemma RootsOf(m: Message)
    ensures m.toolCalls.Some? ==> m.toolCalls.value in Roots(m)
    ensures m.extra.Some? ==> m.extra.value in Roots(m)
  {
  }

  lemma ViewAt(cells: Cells, messages: seq<Message>, depth: nat, k: nat)
    requires k < |messages|
    ensures |Views(cells, messages, depth)| == |messages|
    ensures Views(cells, messages, depth)[k] == MessageContents(cells, messages[k], depth)
  {
  }

  class Session {
    var messages: seq<Message>
    ghost var own: set<Address>
    ghost var held: set<Address>
    ghost var depth: nat

    /** The messages are copies, made of cells of the session alone, which no other cell points to and no caller
        holds. */
    ghost predicate Valid(memory: Memory)
      reads this, memory
    {
      memory.Valid() && Owning(memory.cells, messages, depth, own, held)
    }

    /** What the session says. */
    ghost function View(cells: Cells): seq<MessageTree>
      reads `messages, `depth
    {
      Views(cells, messages, depth)
    }

    constructor (memory: Memory, ghost held: set<Address>)
      requires memory.Valid() && held <= memory.cells.Keys
      ensures Valid(memory) && View(memory.cells) == [] && this.held == held
    {
      messages, own, this.held, depth := [], {}, held, 0;
    }

    /** Callers do anything they can with what they hold; the session does not notice. */
    method CallersWrite(memory: Memory, written: Cells, next: Address, ghost holding: set<Address>)
      requires Valid(memory) && CallersMay(memory.cells, held, written, holding)
      requires forall a | a in written :: a < next
      modifies `held, memory
      ensures Valid(memory) && memory.cells == written && held == holding
      ensures View(written) == old(View(memory.cells))
    {
      ghost var before := memory.cells;
      CallersStayOut(before, held, written, holding, own);
      NoneDangling(before, held, written, holding);
      MessagesWriteElsewhere(before, written, messages, depth, depth, own, own);
      hide CallersMay, Reachable, CellPointsTo, MessageWithin, MessageContents, PlainMessage;
      memory.cells, memory.next, held := written, next, holding;
    }

    /** Appends a copy of the message as it is now; callers still hold nothing of the session. */
    method Append(memory: Memory, m: Message, ghost d: nat)
      requires Valid(memory) && MessageWithin(memory.cells, m, d, memory.cells.Keys) && Roots(m) <= held
      modifies this, memory
      ensures Valid(memory) && Extends(old(memory.cells), memory.cells) && held == old(held)
      ensures View(memory.cells) == old(View(memory.cells)) + [CopiedMessage(MessageContents(old(memory.cells), m, d))]
    {
      hide CellPointsTo, MessageContents, MessageWithin, CopiedMessage, PlainMessage;
      ghost var before := memory.cells;
      ghost var view := View(before);
      var c := CloneMessage(memory, m, d);
      ghost var cells := memory.cells;
      ghost var grown := own + (cells.Keys - before.Keys);
      ghost var deep := Max(depth, d + 1);
      MessagesWriteElsewhere(before, cells, messages, depth, deep, own, grown);
      MessageWritesElsewhere(cells, cells, c, d + 1, deep, cells.Keys - before.Keys, grown);
      CopiedMessageExactly(MessageContents(before, m, d));
      ApartGrows(memory, before, own);
      assert MessageContents(cells, c, deep) == CopiedMessage(MessageContents(before, m, d));
      hide IsMessageCopy, Apart;
      messages, own, depth := messages + [c], grown, deep;
    }

    /** One copy, which the callers hold from now on. */
    method CopyOne(memory: Memory, k: nat) returns (c: Message)
      requires Valid(memory) && k < |messages|
      modifies `held, memory
      ensures Valid(memory) && Grown(old(memory.cells), memory.cells) && View(memory.cells) == old(View(memory.cells))
      ensures k < |View(memory.cells)|
      ensures Handed(memory.cells, depth, memory.cells.Keys - old(memory.cells).Keys, c, View(memory.cells)[k])
      ensures held == old(held) + Roots(c)
    {
      hide Owning, Views, Grown, MessageWithin, MessageContents, IsMessageCopy, Handed, Roots, PlainMessage,
        CellPointsTo;
      ghost var now := memory.cells;
      OwnMessage(now, messages, depth, own, held, k);
      c := CloneMessage(memory, messages[k], depth);
      CopyIsHanded(now, memory.cells, messages[k], depth, c);
      StaysOwned(now, memory.cells, messages, depth, own, held, Roots(c));
      ViewAt(now, messages, depth, k);
      held := held + Roots(c);
    }

    /** Copies of the messages from a position on: of all of them, or of the recent turns. */
    method CopyFrom(memory: Memory, start: nat) returns (copies: seq<Message>)
      requires Valid(memory) && start <= |messages|
      modifies `held, memory
      ensures Valid(memory) && Grown(old(memory.cells), memory.cells) && View(memory.cells) == old(View(memory.cells))
      ensures AllHanded(memory.cells, depth, memory.cells.Keys - old(memory.cells).Keys, copies,
        View(memory.cells)[start..])
      ensures old(held) <= held && forall c | c in copies ::
        (c.toolCalls.Some? ==> c.toolCalls.value in held) && (c.extra.Some? ==> c.extra.value in held)
    {
      hide *;
      ghost var before := memory.cells;
      ghost var view := View(before);
      ViewLength(before);
      NothingHanded(before, messages, depth);
      copies := [];
      ghost var trees: seq<MessageTree> := [];
      for k := start to |messages|
        invariant Valid(memory) && Grown(before, memory.cells) && View(memory.cells) == view
        invariant AllHanded(memory.cells, depth, memory.cells.Keys - before.Keys, copies, trees) &&
          trees == view[start..k]
        invariant old(held) <= held && forall c | c in copies :: Roots(c) <= held
      {
        ghost var now := memory.cells;
        var c := CopyOne(memory, k);
        StillAllHanded(before, now, memory.cells, depth, copies, trees, c, view[k]);
        copies, trees := copies + [c], trees + [view[k]];
      }
      assert view[start..] == trees;
      forall c | c in copies
        ensures (c.toolCalls.Some? ==> c.toolCalls.value in held) && (c.extra.Some? ==> c.extra.value in held)
      {
        RootsOf(c);
      }
    }

    lemma ViewLength(cells: Cells)
      ensures |View(cells)| == |messages|
    {
    }
  }
}
