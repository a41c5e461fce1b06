/** The file system under racing initialisers: operations may fail on their own, and before each of them other
    initialisers of the same workspace may have moved. */
module Disk {
  import opened Base

  datatype Node = Dir(mode: int) | File(mode: int, content: string) | Symlink | Special

  /** The workspace itself, its directories and its files. */
  datatype Path = Root | Sub(name: string) | Target(name: string)

  type Nodes = map<Path, Node>

  const DIRECTORY_MODE := 0x1E8 // octal 0750
  const FILE_MODE := 0x180      // octal 0600

  datatype Stat = Absent | Found(node: Node) | StatFailed

  /** The outcome of an operation that a present entry refuses. */
  datatype Outcome = Done | Exists | Failed

  function Directories(): seq<string> { ["profiles", "sessions", "skills", "logs", "memory"] }

  /** The workspace files in the order they are made. */
  function Files(): seq<string> {
    ["AGENTS.md", "SOUL.md", "USER.md", "mcp_servers.yaml", "memory/MEMORY.md", "profiles/default.yaml"]
  }

  function Parent(p: Path): Path {
    match p
    case Target("memory/MEMORY.md") => Sub("memory")
    case Target("profiles/default.yaml") => Sub("profiles")
    case _ => Root
  }

  /** The directory that must be there to create an entry; the one above the workspace always is. */
  predicate HasParent(nodes: Nodes, p: Path) {
    p.Root? || (Parent(p) in nodes && nodes[Parent(p)].Dir?)
  }

  /** A workspace file is as it was at the start, absent, or complete. */
  ghost predicate Sound(contents: map<string, string>, initial: Nodes, nodes: Nodes) {
    && (forall p | p in initial && p.Target? :: p in nodes && nodes[p] == initial[p])
    && (forall p | p in nodes && p.Target? && p !in initial ::
          p.name in contents && nodes[p] == File(0x180, contents[p.name]))
  }

  /** What other initialisers may do in one go: publish complete files, make directories, give a directory its
      mode, and remove a directory of theirs, of which only so many are left. */
  predicate OthersMove(me: nat, contents: map<string, string>, b: Nodes, a: Nodes,
    pb: map<string, nat>, pa: map<string, nat>, rb: nat, ra: nat)
  {
    && ra <= rb
    && (forall p | p in b.Keys ::
          if p.Target? then p in a && a[p] == b[p]
          else if p in a then a[p] == b[p] || (b[p].Dir? && a[p] == Dir(DIRECTORY_MODE)) ||
            (b[p].Dir? && a[p].Dir? && ra < rb)
          else b[p].Dir? && ra < rb)
    && (forall p | p in a.Keys && p !in b ::
          if p.Target? then p.name in contents && a[p] == File(FILE_MODE, contents[p.name]) && p.name in pa &&
            pa[p.name] != me
          else a[p].Dir?)
    && (forall t | t in pb.Keys :: t in pa && pa[t] == pb[t])
    && (forall t | t in pa.Keys && t !in pb :: Target(t) in a && Target(t) !in b && pa[t] != me)
  }

  /** What can be seen of the workspace at one moment. */
  datatype Moment = Moment(nodes: Nodes, publisher: map<string, nat>)

  /** A move that an initialiser reckons with, given a removal left. */
  ghost predicate IsMove(observer: nat, contents: map<string, string>, b: Moment, a: Moment) {
    OthersMove(observer, contents, b.nodes, a.nodes, b.publisher, a.publisher, 1, 0)
  }

  /** A step of this initialiser's own, with which every other one reckons. */
  ghost predicate IsOwnMove(me: nat, contents: map<string, string>, b: Moment, a: Moment) {
    forall other: nat | other != me :: IsMove(other, contents, b, a)
  }

  /** The moments of an actual run: each step is one of its own, or what others did before one of its operations. */
  ghost predicate IsHistory(me: nat, contents: map<string, string>, moments: seq<Moment>) {
    forall k | 0 <= k < |moments| - 1 ::
      IsOwnMove(me, contents, moments[k], moments[k + 1]) || IsMove(me, contents, moments[k], moments[k + 1])
  }

  /** A history from one moment to another. */
  ghost predicate Chronicle(me: nat, contents: map<string, string>, moments: seq<Moment>, first: Moment, last: Moment) {
    moments != [] && moments[0] == first && moments[|moments| - 1] == last && IsHistory(me, contents, moments)
  }

  lemma HistoryGrows(me: nat, contents: map<string, string>, moments: seq<Moment>, first: Moment, b: Moment, a: Moment)
    requires Chronicle(me, contents, moments, first, b) && (IsOwnMove(me, contents, b, a) || IsMove(me, contents, b, a))
    ensures Chronicle(me, contents, moments + [a], first, a)
  {
    hide IsOwnMove, IsMove;
    var longer := moments + [a];
    assert forall k | 0 <= k < |moments| :: longer[k] == moments[k];
  }

  lemma MovesWithin(observer: nat, contents: map<string, string>, b: Moment, a: Moment, rb: nat, ra: nat)
    requires OthersMove(observer, contents, b.nodes, a.nodes, b.publisher, a.publisher, rb, ra)
    ensures IsMove(observer, contents, b, a)
  {
  }

  lemma OwnMkdir(me: nat, contents: map<string, string>, b: Moment, p: Path, mode: int)
    requires !p.Target? && p !in b.nodes
    ensures IsOwnMove(me, contents, b, b.(nodes := b.nodes[p := Dir(mode)]))
  {
  }

  lemma OwnChmod(me: nat, contents: map<string, string>, b: Moment, p: Path)
    requires !p.Target? && p in b.nodes && b.nodes[p].Dir?
    ensures IsOwnMove(me, contents, b, b.(nodes := b.nodes[p := Dir(DIRECTORY_MODE)]))
  {
  }

  lemma OwnRemove(me: nat, contents: map<string, string>, b: Moment, p: Path)
    requires !p.Target? && p in b.nodes && b.nodes[p].Dir?
    ensures IsOwnMove(me, contents, b, b.(nodes := b.nodes - {p}))
  {
  }

  /** Publishing is a move others reckon with because the file is complete. */
  lemma OwnLink(me: nat, contents: map<string, string>, b: Moment, p: Path, file: Node)
    requires p.Target? && p !in b.nodes && p.name !in b.publisher && p.name in contents
    requires file == File(FILE_MODE, contents[p.name])
    ensures IsOwnMove(me, contents, b, Moment(b.nodes[p := file], b.publisher[p.name := me]))
  {
    assert p == Target(p.name);
  }

  /** At every moment of a run every workspace file is absent, as it was at the start, or complete with its mode. */
  lemma {:induction false} AlwaysSound(me: nat, contents: map<string, string>, moments: seq<Moment>, k: nat)
    requires IsHistory(me, contents, moments) && k < |moments|
    ensures Sound(contents, moments[0].nodes, moments[k].nodes)
  {
    if k > 0 {
      AlwaysSound(me, contents, moments, k - 1);
      var b, a := moments[k - 1], moments[k];
      assert IsMove(me + 1, contents, b, a) || IsMove(me, contents, b, a);
    }
  }

  /** A published file keeps its publisher. */
  lemma {:induction false} PublisherStays(me: nat, contents: map<string, string>, moments: seq<Moment>, i: nat, j: nat,
    name: string)
    requires IsHistory(me, contents, moments) && i <= j < |moments| && name in moments[i].publisher
    ensures name in moments[j].publisher && moments[j].publisher[name] == moments[i].publisher[name]
  {
    if i < j {
      PublisherStays(me, contents, moments, i, j - 1, name);
      var b, a := moments[j - 1], moments[j];
      assert IsMove(me + 1, contents, b, a) || IsMove(me, contents, b, a);
    }
  }

  class Disk {
    const me: nat
    const contents: map<string, string>
    const faulty: bool
    const alone: bool
    const initial: Nodes
    var nodes: Nodes
    var publisher: map<string, nat>
    var removals: nat
    var temps: map<nat, Node>
    var synced: set<nat>
    var closed: set<nat>
    var serial: nat
    ghost var moments: seq<Moment>

    /** Every file is sound, and each one published since the start has its one publisher. */
    ghost predicate Valid()
      reads this
    {
      && Sound(contents, initial, nodes)
      && Chronicle(me, contents, moments, Moment(initial, map[]), Moment(nodes, publisher))
      && (forall t | t in publisher :: Target(t) in nodes && Target(t) !in initial)
      && (forall p | p in nodes && p.Target? && p !in initial :: p.name in publisher)
      && (forall n | n in temps :: n < serial)
      && (forall n | n in synced :: n < serial)
      && (forall n | n in closed :: n < serial)
    }

    constructor (me: nat, contents: map<string, string>, faulty: bool, alone: bool, nodes: Nodes, removals: nat)
      ensures Valid() && this.me == me && this.contents == contents && this.faulty == faulty && this.alone == alone
      ensures initial == nodes == this.nodes && temps == map[] && publisher == map[]
    {
      this.me, this.contents, this.faulty, this.alone := me, contents, faulty, alone;
      this.initial, this.nodes, this.removals := nodes, nodes, removals;
      publisher, temps, synced, closed, serial := map[], map[], {}, {}, 0;
      moments := [Moment(nodes, map[])];
    }

    /** What every operation keeps: files that are there, their publishers, and the order of removals. */
    twostate predicate Since()
      reads this
    {
      && (forall p | p in old(nodes) && p.Target? :: p in nodes && nodes[p] == old(nodes)[p])
      && (forall t | t in old(publisher) :: t in publisher && publisher[t] == old(publisher)[t])
      && removals <= old(removals) && old(moments) <= moments
    }

    /** No file of this initialiser was published. */
    twostate predicate NothingPublished()
      reads this
    {
      forall t | t in publisher && publisher[t] == me :: t in old(publisher)
    }

    /** Keeps the moment after a step. */
    ghost method Extend(a: Moment)
      requires Chronicle(me, contents, moments, Moment(initial, map[]), Moment(nodes, publisher))
      requires var b := Moment(nodes, publisher); IsOwnMove(me, contents, b, a) || IsMove(me, contents, b, a)
      modifies `moments
      ensures moments == old(moments) + [a] && Chronicle(me, contents, moments, Moment(initial, map[]), a)
    {
      HistoryGrows(me, contents, moments, Moment(initial, map[]), Moment(nodes, publisher), a);
      moments := moments + [a];
    }

    method Fault() returns (fault: bool)
      ensures fault ==> faulty
    {
      fault := *;
      fault := fault && faulty;
    }

    method Interfere()
      requires Valid()
      modifies `nodes, `publisher, `removals, `moments
      ensures Valid() && Since() && NothingPublished()
      ensures alone ==> nodes == old(nodes) && publisher == old(publisher)
      ensures forall p | p in old(nodes) && p !in nodes :: removals < old(removals)
    {
      hide Chronicle, IsHistory, IsOwnMove, IsMove;
      if alone { return; }
      var a: Nodes, pa: map<string, nat>, ra: nat := *, *, *;
      if OthersMove(me, contents, nodes, a, publisher, pa, removals, ra) {
        MovesWithin(me, contents, Moment(nodes, publisher), Moment(a, pa), removals, ra);
        Extend(Moment(a, pa));
        nodes, publisher, removals := a, pa, ra;
      }
    }

    method Lstat(p: Path) returns (s: Stat)
      requires Valid()
      modifies `nodes, `publisher, `removals, `moments
      ensures Valid() && Since() && NothingPublished()
      ensures alone ==> nodes == old(nodes) && publisher == old(publisher)
      ensures match s
        case Absent => p !in nodes
        case Found(node) => p in nodes && nodes[p] == node
        case StatFailed => faulty
      ensures s.Absent? && p in old(nodes) ==> removals < old(removals)
    {
      hide Chronicle, IsHistory, IsOwnMove, IsMove, OthersMove;
      Interfere();
      var fault := Fault();
      return if fault then StatFailed else if p in nodes then Found(nodes[p]) else Absent;
    }

    /** The mode of a new directory is what the process mask leaves of the wanted one. */
    method Mkdir(p: Path) returns (outcome: Outcome)
      requires Valid() && !p.Target?
      modifies `nodes, `publisher, `removals, `moments
      ensures Valid() && Since() && NothingPublished()
      ensures outcome.Done? ==> p in nodes && nodes[p].Dir?
      ensures outcome.Exists? ==> p in nodes
      ensures alone ==> publisher == old(publisher) && match outcome
        case Done => p !in old(nodes) && nodes == old(nodes)[p := nodes[p]]
        case Exists => p in old(nodes) && nodes == old(nodes)
        case Failed => nodes == old(nodes) && (faulty || !HasParent(nodes, p))
    {
      hide Chronicle, IsHistory, IsOwnMove, IsMove, OthersMove;
      Interfere();
      var fault := Fault();
      if fault || !HasParent(nodes, p) { return Failed; }
      if p in nodes { return Exists; }
      var mode: int := *;
      SetEntry(p, Some(mode));
      return Done;
    }

    method Chmod(p: Path) returns (ok: bool)
      requires Valid() && !p.Target?
      modifies `nodes, `publisher, `removals, `moments
      ensures Valid() && Since() && NothingPublished()
      ensures ok ==> p in nodes && nodes[p] == Dir(DIRECTORY_MODE)
      ensures alone ==> publisher == old(publisher)
      ensures alone ==>
        if ok then nodes == old(nodes)[p := Dir(DIRECTORY_MODE)]
        else nodes == old(nodes) && (faulty || p !in nodes || !nodes[p].Dir?)
    {
      hide Chronicle, IsHistory, IsOwnMove, IsMove, OthersMove;
      Interfere();
      var fault := Fault();
      if fault || p !in nodes || !nodes[p].Dir? { return false; }
      SetEntry(p, Some(DIRECTORY_MODE));
      return true;
    }

    method RemoveDirectory(p: Path) returns (ok: bool)
      requires Valid() && !p.Target?
      modifies `nodes, `publisher, `removals, `moments
      ensures Valid() && Since() && NothingPublished()
      ensures alone ==> publisher == old(publisher) && nodes == if ok then old(nodes) - {p} else old(nodes)
    {
      hide Chronicle, IsHistory, IsOwnMove, IsMove, OthersMove;
      Interfere();
      var fault := Fault();
      if fault || p !in nodes || !nodes[p].Dir? { return false; }
      SetEntry(p, None);
      return true;
    }

    /** A step of this initialiser on a directory: making it, giving it its mode, or removing it. */
    method SetEntry(p: Path, mode: Option<int>)
      requires Valid() && !p.Target?
      requires if p in nodes then nodes[p].Dir? && (mode.None? || mode == Some(DIRECTORY_MODE)) else mode.Some?
      modifies `nodes, `moments
      ensures Valid() && Since() && NothingPublished()
      ensures nodes == if mode.None? then old(nodes) - {p} else old(nodes)[p := Dir(mode.value)]
    {
      hide Chronicle, IsHistory, IsOwnMove, IsMove, OthersMove;
      ghost var now := Moment(nodes, publisher);
      if mode.None? {
        OwnRemove(me, contents, now, p);
        Extend(now.(nodes := nodes - {p}));
        nodes := nodes - {p};
      } else {
        if p in nodes { OwnChmod(me, contents, now, p); } else { OwnMkdir(me, contents, now, p, mode.value); }
        Extend(now.(nodes := nodes[p := Dir(mode.value)]));
        nodes := nodes[p := Dir(mode.value)];
      }
    }

    /** A new temporary file beside the target, under a name nothing else has. */
    method CreateTemp(target: Path) returns (temp: Option<nat>)
      requires Valid() && target.Target?
      modifies `nodes, `publisher, `removals, `moments, `temps, `serial
      ensures Valid() && Since() && NothingPublished()
      ensures alone ==> nodes == old(nodes) && publisher == old(publisher)
      ensures match temp
        case None => temps == old(temps) && (alone ==> faulty || !HasParent(nodes, target))
        case Some(n) =>
          && n !in old(temps) && n in temps && temps == old(temps)[n := temps[n]] && temps[n].File? &&
              temps[n].content == ""
          && n !in synced && n !in closed
    {
      hide Chronicle, IsHistory, IsOwnMove, IsMove, OthersMove;
      Interfere();
      var fault := Fault();
      if fault || !HasParent(nodes, target) { return None; }
      var mode: int := *;
      var n := serial;
      temps, serial := temps[n := File(mode, "")], serial + 1;
      return Some(n);
    }

    method ChmodTemp(n: nat) returns (ok: bool)
      requires Valid() && n in temps && temps[n].File? && n !in closed
      modifies `nodes, `publisher, `removals, `moments, `temps
      ensures Valid() && Since() && NothingPublished()
      ensures alone ==> nodes == old(nodes) && publisher == old(publisher)
      ensures temps == if ok then old(temps)[n := old(temps)[n].(mode := FILE_MODE)] else old(temps)
      ensures !ok ==> faulty
    {
      hide Chronicle, IsHistory, IsOwnMove, IsMove, OthersMove;
      Interfere();
      var fault := Fault();
      if fault { return false; }
      temps := temps[n := temps[n].(mode := FILE_MODE)];
      return true;
    }

    /** Writes some of the content to an open file, which is then no longer synced. A sound report is what was
        written; any other report comes from a broken writer, which may have written anything. */
    method WriteTemp(n: nat, content: string) returns (written: int, ok: bool)
      requires Valid() && n in temps && temps[n].File? && n !in closed
      modifies `nodes, `publisher, `removals, `moments, `temps, `synced
      ensures Valid() && Since() && NothingPublished() && synced == old(synced) - {n}
      ensures alone ==> nodes == old(nodes) && publisher == old(publisher)
      ensures n in temps && temps == old(temps)[n := temps[n]] && temps[n].File? && temps[n].mode == old(temps)[n].mode
      ensures 0 <= written <= |content| ==> temps[n].content == old(temps)[n].content + content[..written]
      ensures !faulty ==> ok && 0 <= written <= |content| && (content != "" ==> written > 0)
    {
      hide Chronicle, IsHistory, IsOwnMove, IsMove, OthersMove;
      Interfere();
      synced := synced - {n};
      var fault := Fault();
      var report: int := *;
      if !fault && !(0 < report <= |content|) {
        report := |content|;
      }
      if 0 <= report <= |content| {
        temps := temps[n := temps[n].(content := temps[n].content + content[..report])];
        var broken := Fault();
        return report, !broken;
      }
      var junk: string := *;
      temps := temps[n := temps[n].(content := temps[n].content + junk)];
      return report, false;
    }

    method SyncTemp(n: nat) returns (ok: bool)
      requires Valid() && n in temps && n !in closed
      modifies `nodes, `publisher, `removals, `moments, `synced
      ensures Valid() && Since() && NothingPublished()
      ensures alone ==> nodes == old(nodes) && publisher == old(publisher)
      ensures synced == if ok then old(synced) + {n} else old(synced)
      ensures !ok ==> faulty
    {
      hide Chronicle, IsHistory, IsOwnMove, IsMove, OthersMove;
      Interfere();
      var fault := Fault();
      if fault { return false; }
      synced := synced + {n};
      return true;
    }

    /** A file whose close failed is not known to be closed. */
    method CloseTemp(n: nat) returns (ok: bool)
      requires Valid() && n in temps && n !in closed
      modifies `nodes, `publisher, `removals, `moments, `closed
      ensures Valid() && Since() && NothingPublished()
      ensures alone ==> nodes == old(nodes) && publisher == old(publisher)
      ensures closed == if ok then old(closed) + {n} else old(closed)
      ensures !ok ==> faulty
    {
      hide Chronicle, IsHistory, IsOwnMove, IsMove, OthersMove;
      Interfere();
      var fault := Fault();
      if fault { return false; }
      closed := closed + {n};
      return true;
    }

    /** Gives a temporary file the target's name. Only a complete, synced and closed file may be linked. */
    method Link(n: nat, target: Path) returns (outcome: Outcome)
      requires Valid() && target.Target? && n in temps
      requires target.name in contents && temps[n] == File(FILE_MODE, contents[target.name])
      requires n in synced && n in closed
      modifies `nodes, `publisher, `removals, `moments
      ensures Valid() && Since() && (!outcome.Done? ==> NothingPublished())
      ensures outcome.Done? ==> target !in old(nodes) && target in nodes && nodes[target] == temps[n]
      ensures outcome.Done? ==> target.name in publisher && publisher[target.name] == me
      ensures outcome.Done? ==> forall t | t in publisher && publisher[t] == me && t != target.name ::
        t in old(publisher)
      ensures outcome.Exists? ==> target in nodes
      ensures alone ==> match outcome
        case Done => nodes == old(nodes)[target := temps[n]]
        case Exists => target in old(nodes) && nodes == old(nodes) && publisher == old(publisher)
        case Failed => nodes == old(nodes) && publisher == old(publisher) && (faulty || !HasParent(nodes, target))
    {
      hide Chronicle, IsHistory, IsOwnMove, IsMove, OthersMove;
      Interfere();
      var fault := Fault();
      if fault || !HasParent(nodes, target) { return Failed; }
      if target in nodes { return Exists; }
      LinkNow(n, target);
      return Done;
    }

    /** The step itself: a second name for a complete file. */
    method LinkNow(n: nat, target: Path)
      requires Valid() && target.Target? && n in temps && target !in nodes
      requires target.name in contents && temps[n] == File(FILE_MODE, contents[target.name])
      modifies `nodes, `publisher, `moments
      ensures Valid() && Since()
      ensures nodes == old(nodes)[target := temps[n]] && publisher == old(publisher)[target.name := me]
    {
      hide Chronicle, IsHistory, IsOwnMove, IsMove, OthersMove;
      assert target == Target(target.name);
      OwnLink(me, contents, Moment(nodes, publisher), target, temps[n]);
      Extend(Moment(nodes[target := temps[n]], publisher[target.name := me]));
      nodes, publisher := nodes[target := temps[n]], publisher[target.name := me];
    }

    method RemoveTemp(n: nat) returns (ok: bool)
      requires Valid()
      modifies `nodes, `publisher, `removals, `moments, `temps
      ensures Valid() && Since() && NothingPublished()
      ensures alone ==> nodes == old(nodes) && publisher == old(publisher)
      ensures temps == if ok then old(temps) - {n} else old(temps)
      ensures !ok ==> faulty
    {
      hide Chronicle, IsHistory, IsOwnMove, IsMove, OthersMove;
      Interfere();
      var fault := Fault();
      if fault { return false; }
      temps := temps - {n};
      return true;
    }

    /** Not only now: at every moment of the run so far the workspace files were sound. */
    lemma SoundThroughout(k: nat)
      requires Valid() && k < |moments|
      ensures Sound(contents, initial, moments[k].nodes)
    {
      AlwaysSound(me, contents, moments, k);
    }
  }

  /** Two initialisers of one workspace, whose views meet in a later moment that both reckon with, did not both
      publish the same file. */
  lemma OnePublisher(a: Disk, b: Disk, later: Moment, name: string)
    requires a.me != b.me && a.Valid() && b.Valid()
    requires IsMove(a.me, a.contents, Moment(a.nodes, a.publisher), later)
    requires IsMove(b.me, b.contents, Moment(b.nodes, b.publisher), later)
    requires name in a.publisher && a.publisher[name] == a.me
    ensures name in b.publisher ==> b.publisher[name] != b.me
  {
  }
}
