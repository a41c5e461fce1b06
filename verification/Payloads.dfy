/** Mutable payloads in memory, and copies that share nothing with them (internal/session/session.go, the clone
    functions). A reference is an address; nil is None. */
module Payloads {
  import opened Base

  type Address = nat

  /** A dynamically typed value: one without mutable parts, a map, a list, or a list of strings. */
  datatype Value =
    | Scalar(content: int)
    | MapRef(at: Option<Address>)
    | ListRef(at: Option<Address>)
    | StringsRef(at: Option<Address>)

  datatype Cell =
    | MapCell(entries: map<string, Value>)
    | ListCell(items: seq<Value>)
    | StringsCell(texts: seq<string>)
    | IndexCell(index: int)
    | CallsCell(calls: seq<Call>)

  datatype CallFields = CallFields(id: string, kind: string, name: string, arguments: string)

  /** A tool call in memory: its immutable fields, its index pointer and its extension map. */
  datatype Call = Call(fields: CallFields, index: Option<Address>, extra: Option<Address>)

  type Cells = map<Address, Cell>

  // ---------- What a reference reaches ----------

  /** The value is built of cells in the region, at most so deep; nothing cyclic is. */
  ghost predicate Within(cells: Cells, v: Value, depth: nat, region: set<Address>)
    decreases depth
  {
    match v
    case MapRef(Some(a)) =>
      a in region && a in cells && cells[a].MapCell? && depth > 0 &&
      forall k | k in cells[a].entries :: Within(cells, cells[a].entries[k], depth - 1, region)
    case ListRef(Some(a)) =>
      a in region && a in cells && cells[a].ListCell? && depth > 0 &&
      forall i | 0 <= i < |cells[a].items| :: Within(cells, cells[a].items[i], depth - 1, region)
    case StringsRef(Some(a)) => a in region && a in cells && cells[a].StringsCell?
    case _ => true
  }

  /** The contents of a value, nil and empty told apart; Cut is where a value is deeper than asked. */
  datatype Tree =
    | Leaf(content: int)
    | NilMap | NilList | NilStrings
    | MapTree(entries: map<string, Tree>)
    | ListTree(items: seq<Tree>)
    | StringsTree(texts: seq<string>)
    | Cut

  ghost function Contents(cells: Cells, v: Value, depth: nat): Tree
    decreases depth
  {
    match v
    case Scalar(content) => Leaf(content)
    case MapRef(None) => NilMap
    case ListRef(None) => NilList
    case StringsRef(None) => NilStrings
    case MapRef(Some(a)) =>
      if depth == 0 || a !in cells || !cells[a].MapCell? then Cut
      else MapTree(map k | k in cells[a].entries :: Contents(cells, cells[a].entries[k], depth - 1))
    case ListRef(Some(a)) =>
      if depth == 0 || a !in cells || !cells[a].ListCell? then Cut
      else ListTree(seq(|cells[a].items|,
        i requires 0 <= i < |cells[a].items| => Contents(cells, cells[a].items[i], depth - 1)))
    case StringsRef(Some(a)) =>
      if a !in cells || !cells[a].StringsCell? then Cut else StringsTree(cells[a].texts)
  }

  /** Both have the cells of the region in common. */
  ghost predicate Agree(before: Cells, after: Cells, region: set<Address>) {
    forall a | a in region && a in before :: a in after && after[a] == before[a]
  }

  /** What a value is made of decides what it is: writes elsewhere do not matter. */
  lemma {:induction false} WritesElsewhere(before: Cells, after: Cells, v: Value, depth: nat, region: set<Address>)
    requires Within(before, v, depth, region) && Agree(before, after, region)
    ensures Within(after, v, depth, region) && Contents(after, v, depth) == Contents(before, v, depth)
    decreases depth
  {
    match v {
      case MapRef(Some(a)) =>
        forall k | k in before[a].entries
          ensures Within(after, before[a].entries[k], depth - 1, region)
          ensures Contents(after, before[a].entries[k], depth - 1) == Contents(before, before[a].entries[k], depth - 1)
        {
          WritesElsewhere(before, after, before[a].entries[k], depth - 1, region);
        }
      case ListRef(Some(a)) =>
        forall i | 0 <= i < |before[a].items|
          ensures Within(after, before[a].items[i], depth - 1, region)
          ensures Contents(after, before[a].items[i], depth - 1) == Contents(before, before[a].items[i], depth - 1)
        {
          WritesElsewhere(before, after, before[a].items[i], depth - 1, region);
        }
      case _ =>
    }
  }

  /** More depth and more cells change nothing. */
  lemma {:induction false} WithinMore(cells: Cells, v: Value, depth: nat, more: nat, region: set<Address>,
    wider: set<Address>)
    requires Within(cells, v, depth, region) && depth <= more && region <= wider
    ensures Within(cells, v, more, wider) && Contents(cells, v, more) == Contents(cells, v, depth)
    decreases depth
  {
    match v {
      case MapRef(Some(a)) =>
        forall k | k in cells[a].entries
          ensures Within(cells, cells[a].entries[k], more - 1, wider)
          ensures Contents(cells, cells[a].entries[k], more - 1) == Contents(cells, cells[a].entries[k], depth - 1)
        {
          WithinMore(cells, cells[a].entries[k], depth - 1, more - 1, region, wider);
        }
      case ListRef(Some(a)) =>
        forall i | 0 <= i < |cells[a].items|
          ensures Within(cells, cells[a].items[i], more - 1, wider)
          ensures Contents(cells, cells[a].items[i], more - 1) == Contents(cells, cells[a].items[i], depth - 1)
        {
          WithinMore(cells, cells[a].items[i], depth - 1, more - 1, region, wider);
        }
      case _ =>
    }
  }

  // ---------- What a copy keeps ----------

  /** A copy has the same contents, except that a nil list comes back empty and an empty list of strings nil. */
  ghost function Copied(t: Tree): Tree {
    match t
    case NilList => ListTree([])
    case StringsTree(texts) => if texts == [] then NilStrings else t
    case MapTree(entries) => MapTree(map k | k in entries :: Copied(entries[k]))
    case ListTree(items) => ListTree(seq(|items|, i requires 0 <= i < |items| => Copied(items[i])))
    case _ => t
  }

  /** No nil list and no empty list of strings that is not nil. */
  ghost predicate Plain(t: Tree) {
    match t
    case NilList => false
    case StringsTree(texts) => texts != []
    case MapTree(entries) => forall k | k in entries :: Plain(entries[k])
    case ListTree(items) => forall i | 0 <= i < |items| :: Plain(items[i])
    case _ => true
  }

  /** Copies are equal to their source exactly when the source has neither; a copy of a copy always is. */
  lemma {:induction false} CopiedExactly(t: Tree)
    ensures Copied(t) == t <==> Plain(t)
    ensures Plain(Copied(t))
  {
    match t {
      case MapTree(entries) =>
        forall k | k in entries ensures (Copied(entries[k]) == entries[k] <==> Plain(entries[k])) &&
          Plain(Copied(entries[k])) {
          CopiedExactly(entries[k]);
        }
        if Copied(t) == t {
          forall k | k in entries ensures Plain(entries[k]) { assert Copied(t).entries[k] == Copied(entries[k]); }
        }
      case ListTree(items) =>
        forall i | 0 <= i < |items|
          ensures (Copied(items[i]) == items[i] <==> Plain(items[i])) && Plain(Copied(items[i])) {
          CopiedExactly(items[i]);
        }
        if Copied(t) == t {
          forall i | 0 <= i < |items| ensures Plain(items[i]) { assert Copied(t).items[i] == Copied(items[i]); }
        }
      case _ =>
    }
  }

  // ---------- Copying ----------

  /** The copy of a value shares no cell with anything that was there, and has its contents. The copy of a nil
      list is one level deeper than nil. */
  ghost predicate IsCopy(before: Cells, after: Cells, v: Value, c: Value, depth: nat) {
    && Within(after, c, depth + 1, after.Keys - before.Keys)
    && Contents(after, c, depth + 1) == Copied(Contents(before, v, depth))
  }

  ghost predicate PointsTo(v: Value, a: Address) {
    v == MapRef(Some(a)) || v == ListRef(Some(a)) || v == StringsRef(Some(a))
  }

  ghost predicate CellPointsTo(cell: Cell, a: Address) {
    match cell
    case MapCell(entries) => exists k | k in entries :: PointsTo(entries[k], a)
    case ListCell(items) => exists v | v in items :: PointsTo(v, a)
    case CallsCell(calls) => exists call | call in calls :: call.index == Some(a) || call.extra == Some(a)
    case _ => false
  }

  ghost predicate Extends(before: Cells, after: Cells) {
    forall a | a in before :: a in after && after[a] == before[a]
  }

  /** Everything that was there is still there, unchanged, and no new cell points to it. */
  ghost predicate Grown(before: Cells, after: Cells) {
    && Extends(before, after)
    && (forall a, b | a in after && a !in before && b in before :: !CellPointsTo(after[a], b))
  }

  lemma GrownTwice(start: Cells, before: Cells, after: Cells)
    requires Grown(start, before) && Grown(before, after)
    ensures Grown(start, after)
  {
  }

  lemma CopyStays(start: Cells, before: Cells, after: Cells, v: Value, c: Value, depth: nat)
    requires IsCopy(start, before, v, c, depth) && Extends(before, after)
    ensures IsCopy(start, after, v, c, depth)
  {
    WritesElsewhere(before, after, c, depth + 1, before.Keys - start.Keys);
    WithinMore(after, c, depth + 1, depth + 1, before.Keys - start.Keys, after.Keys - start.Keys);
  }

  lemma CopyOfSame(start: Cells, before: Cells, after: Cells, v: Value, c: Value, depth: nat)
    requires Within(start, v, depth, start.Keys) && Extends(start, before) && IsCopy(before, after, v, c, depth)
    ensures IsCopy(start, after, v, c, depth)
  {
    WritesElsewhere(start, before, v, depth, start.Keys);
    WithinMore(after, c, depth + 1, depth + 1, after.Keys - before.Keys, after.Keys - start.Keys);
  }

  lemma MapPointsAside(start: Cells, now: Cells, entries: map<string, Value>, cloned: map<string, Value>, depth: nat,
    a: Address)
    requires cloned.Keys <= entries.Keys && forall k | k in cloned :: IsCopy(start, now, entries[k], cloned[k], depth)
    requires CellPointsTo(MapCell(cloned), a)
    ensures a in now && a !in start
  {
    var k :| k in cloned && PointsTo(cloned[k], a);
    assert IsCopy(start, now, entries[k], cloned[k], depth);
  }

  lemma ListPointsAside(start: Cells, now: Cells, items: seq<Value>, cloned: seq<Value>, depth: nat, a: Address)
    requires |cloned| <= |items| && forall i | 0 <= i < |cloned| :: IsCopy(start, now, items[i], cloned[i], depth)
    requires CellPointsTo(ListCell(cloned), a)
    ensures a in now && a !in start
  {
    var i :| 0 <= i < |cloned| && PointsTo(cloned[i], a);
    assert IsCopy(start, now, items[i], cloned[i], depth);
  }

  lemma StillWithin(start: Cells, now: Cells, v: Value, depth: nat)
    requires Within(start, v, depth, start.Keys) && Extends(start, now)
    ensures Within(now, v, depth, now.Keys)
  {
    WritesElsewhere(start, now, v, depth, start.Keys);
    WithinMore(now, v, depth, depth, start.Keys, now.Keys);
  }

  lemma MapCopied(start: Cells, before: Cells, m: Address, cloned: map<string, Value>, a: Address, depth: nat)
    requires Within(start, MapRef(Some(m)), depth, start.Keys) && Extends(start, before) && a !in before
    requires cloned.Keys == start[m].entries.Keys
    requires forall k | k in cloned :: IsCopy(start, before, start[m].entries[k], cloned[k], depth - 1)
    ensures IsCopy(start, before[a := MapCell(cloned)], MapRef(Some(m)), MapRef(Some(a)), depth)
  {
    var after := before[a := MapCell(cloned)];
    forall k | k in cloned ensures IsCopy(start, after, start[m].entries[k], cloned[k], depth - 1) {
      CopyStays(start, before, after, start[m].entries[k], cloned[k], depth - 1);
    }
    assert Contents(after, MapRef(Some(a)), depth + 1).entries ==
      Copied(Contents(start, MapRef(Some(m)), depth)).entries;
  }

  lemma ListCopied(start: Cells, before: Cells, l: Address, cloned: seq<Value>, a: Address, depth: nat)
    requires Within(start, ListRef(Some(l)), depth, start.Keys) && Extends(start, before) && a !in before
    requires |cloned| == |start[l].items|
    requires forall i | 0 <= i < |cloned| :: IsCopy(start, before, start[l].items[i], cloned[i], depth - 1)
    ensures IsCopy(start, before[a := ListCell(cloned)], ListRef(Some(l)), ListRef(Some(a)), depth)
  {
    var after := before[a := ListCell(cloned)];
    forall i | 0 <= i < |cloned| ensures IsCopy(start, after, start[l].items[i], cloned[i], depth - 1) {
      CopyStays(start, before, after, start[l].items[i], cloned[i], depth - 1);
    }
    assert Contents(after, ListRef(Some(a)), depth + 1).items == Copied(Contents(start, ListRef(Some(l)), depth)).items;
  }

  class Memory {
    var cells: Cells
    var next: Address

    /** Addresses are handed out in order, and nothing points nowhere. */
    ghost predicate Valid()
      reads this
    {
      && (forall a | a in cells :: a < next)
      && (forall a, b | a in cells && b !in cells :: !CellPointsTo(cells[a], b))
    }

    constructor ()
      ensures Valid() && cells == map[]
    {
      cells, next := map[], 0;
    }

    method Allocate(cell: Cell, ghost start: Cells) returns (a: Address)
      requires Valid() && Grown(start, cells)
      requires forall b | CellPointsTo(cell, b) :: b in cells && b !in start
      modifies this
      ensures Valid() && a !in old(cells) && cells == old(cells)[a := cell] && Grown(start, cells)
    {
      a := next;
      cells, next := cells[a := cell], next + 1;
    }

    /** A map copied entry by entry, in whatever order; nil stays nil. */
    method CloneMap(m: Option<Address>, ghost depth: nat) returns (c: Option<Address>)
      requires Valid() && Within(cells, MapRef(m), depth, cells.Keys)
      modifies this
      ensures Valid() && Grown(old(cells), cells) && IsCopy(old(cells), cells, MapRef(m), MapRef(c), depth)
      decreases depth, 0
    {
      hide Contents, Copied, IsCopy, CellPointsTo;
      if m.None? {
        NilMapCopied(cells, depth);
        return None;
      }
      ghost var start := cells;
      var entries := cells[m.value].entries;
      var cloned: map<string, Value> := map[];
      var todo := entries.Keys;
      while todo != {}
        invariant Valid() && Grown(start, cells)
        invariant cloned.Keys == entries.Keys - todo && todo <= entries.Keys
        invariant forall k | k in cloned :: IsCopy(start, cells, entries[k], cloned[k], depth - 1)
        decreases todo
      {
        var k :| k in todo;
        ghost var before := cells;
        StillWithin(start, cells, entries[k], depth - 1);
        var x := CloneValue(entries[k], depth - 1);
        forall j | j in cloned ensures IsCopy(start, cells, entries[j], cloned[j], depth - 1) {
          CopyStays(start, before, cells, entries[j], cloned[j], depth - 1);
        }
        CopyOfSame(start, before, cells, entries[k], x, depth - 1);
        GrownTwice(start, before, cells);
        cloned, todo := cloned[k := x], todo - {k};
      }
      ghost var before := cells;
      forall b | CellPointsTo(MapCell(cloned), b) ensures b in cells && b !in start {
        MapPointsAside(start, cells, entries, cloned, depth - 1, b);
      }
      var a := Allocate(MapCell(cloned), start);
      MapCopied(start, before, m.value, cloned, a, depth);
      return Some(a);
    }

    /** A list copied item by item. */
    method CloneList(l: Address, ghost depth: nat) returns (c: Address)
      requires Valid() && Within(cells, ListRef(Some(l)), depth, cells.Keys)
      modifies this
      ensures Valid() && Grown(old(cells), cells) &&
        IsCopy(old(cells), cells, ListRef(Some(l)), ListRef(Some(c)), depth)
      decreases depth, 0
    {
      hide Contents, Copied, IsCopy, CellPointsTo;
      ghost var start := cells;
      var items := cells[l].items;
      var cloned: seq<Value> := [];
      for i := 0 to |items|
        invariant Valid() && Grown(start, cells) && |cloned| == i
        invariant forall j | 0 <= j < i :: IsCopy(start, cells, items[j], cloned[j], depth - 1)
      {
        ghost var before := cells;
        StillWithin(start, cells, items[i], depth - 1);
        var x := CloneValue(items[i], depth - 1);
        forall j | 0 <= j < i ensures IsCopy(start, cells, items[j], cloned[j], depth - 1) {
          CopyStays(start, before, cells, items[j], cloned[j], depth - 1);
        }
        CopyOfSame(start, before, cells, items[i], x, depth - 1);
        GrownTwice(start, before, cells);
        cloned := cloned + [x];
      }
      ghost var before := cells;
      forall b | CellPointsTo(ListCell(cloned), b) ensures b in cells && b !in start {
        ListPointsAside(start, cells, items, cloned, depth - 1, b);
      }
      c := Allocate(ListCell(cloned), start);
      ListCopied(start, before, l, cloned, c, depth);
    }

    /** A deep copy. Values are finitely deep, so copying ends. */
    method CloneValue(v: Value, ghost depth: nat) returns (c: Value)
      requires Valid() && Within(cells, v, depth, cells.Keys)
      modifies this
      ensures Valid() && Grown(old(cells), cells) && IsCopy(old(cells), cells, v, c, depth)
      decreases depth, 1
    {
      match v {
        case Scalar(_) => return v;
        case MapRef(m) =>
          var a := CloneMap(m, depth);
          return MapRef(a);
        case ListRef(None) =>
          var a := Allocate(ListCell([]), cells);
          return ListRef(Some(a));
        case ListRef(Some(l)) =>
          var a := CloneList(l, depth);
          return ListRef(Some(a));
        case StringsRef(None) => return v;
        case StringsRef(Some(a)) =>
          var texts := cells[a].texts;
          if texts == [] { return StringsRef(None); }
          var b := Allocate(StringsCell(texts), cells);
          return StringsRef(Some(b));
      }
    }
  }

  lemma NilMapCopied(cells: Cells, depth: nat)
    ensures IsCopy(cells, cells, MapRef(None), MapRef(None), depth)
  {
  }
}
