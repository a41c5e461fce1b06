/** Initialising a workspace without touching what is there (cmd/oryxos/workspace.go). */
module Workspace {
  import opened Base
  import opened Disk

  /** The entries after a file was created, or not. */
  function WithFile(nodes: Nodes, created: bool, name: string, content: string): Nodes {
    if created then nodes[Target(name) := File(FILE_MODE, content)] else nodes
  }

  function Fail(text: string): Option<string> { Some(text) }

  // ---------- Directories ----------

  /** A missing directory is made and given its mode; one that appeared meanwhile is looked at again. */
  method EnsureDirectory(disk: Disk, p: Path) returns (created: bool, err: Option<string>)
    requires disk.Valid() && !p.Target?
    modifies disk`nodes, disk`publisher, disk`removals, disk`moments
    ensures disk.Valid() && disk.Since() && disk.NothingPublished()
    ensures err.None? ==> p in disk.nodes && disk.nodes[p] == Dir(DIRECTORY_MODE)
    ensures disk.alone ==> disk.publisher == old(disk.publisher)
    ensures disk.alone && err.None? ==>
      if created then p !in old(disk.nodes) && disk.nodes == old(disk.nodes)[p := Dir(DIRECTORY_MODE)]
      else disk.nodes == old(disk.nodes)
    ensures disk.alone && err.Some? ==>
      || disk.nodes == old(disk.nodes)
      || (p !in old(disk.nodes) && p in disk.nodes && disk.nodes[p].Dir? &&
          disk.nodes == old(disk.nodes)[p := disk.nodes[p]])
    ensures disk.alone && !disk.faulty && err.Some? ==>
      (p in old(disk.nodes) && old(disk.nodes)[p] != Dir(DIRECTORY_MODE)) || !HasParent(old(disk.nodes), p)
    ensures disk.alone && err.None? && !created ==> p in old(disk.nodes)
    decreases disk.removals, if p in disk.nodes then 0 else 1
  {
    hide Chronicle, Sound;
    created := false;
    var info := disk.Lstat(p);
    match info {
      case Found(node) => return false, DirectoryFault(node);
      case StatFailed => return false, Fail("lstat");
      case Absent =>
    }
    var made := disk.Mkdir(p);
    if made.Exists? {
      created, err := EnsureDirectory(disk, p);
      return;
    }
    if made.Failed? { return false, Fail("mkdir"); }
    err := GiveMode(disk, p);
    return err.None?, err;
  }

  /** What is wrong with an entry where a directory is wanted. */
  function DirectoryFault(node: Node): Option<string> {
    match node
    case Symlink => Fail("existing path is a symlink")
    case Dir(mode) => if mode == DIRECTORY_MODE then None else Fail("existing directory permissions differ")
    case _ => Fail("existing path is not a directory")
  }

  /** Gives a directory just made its mode, or removes it again. */
  method GiveMode(disk: Disk, p: Path) returns (err: Option<string>)
    requires disk.Valid() && !p.Target?
    modifies disk`nodes, disk`publisher, disk`removals, disk`moments
    ensures disk.Valid() && disk.Since() && disk.NothingPublished()
    ensures err.None? ==> p in disk.nodes && disk.nodes[p] == Dir(DIRECTORY_MODE)
    ensures disk.alone ==> disk.publisher == old(disk.publisher)
    ensures disk.alone && err.None? ==> disk.nodes == old(disk.nodes)[p := Dir(DIRECTORY_MODE)]
    ensures disk.alone && err.Some? ==> disk.nodes == old(disk.nodes) || disk.nodes == old(disk.nodes) - {p}
    ensures disk.alone && err.Some? ==> disk.faulty || p !in old(disk.nodes) || !old(disk.nodes)[p].Dir?
  {
    hide Chronicle, Sound;
    var ok := disk.Chmod(p);
    if !ok {
      var removed := disk.RemoveDirectory(p);
      return Fail(if removed then "chmod" else "chmod and remove directory after chmod failure");
    }
    return None;
  }

  // ---------- Files ----------

  /** Whether a regular file is there. */
  method ExistingFile(disk: Disk, p: Path) returns (exists_: bool, err: Option<string>)
    requires disk.Valid()
    modifies disk`nodes, disk`publisher, disk`removals, disk`moments
    ensures disk.Valid() && disk.Since() && disk.NothingPublished()
    ensures disk.alone ==> disk.nodes == old(disk.nodes) && disk.publisher == old(disk.publisher)
    ensures err.None? ==> (exists_ <==> p in disk.nodes) && (exists_ ==> disk.nodes[p].File?)
    ensures err.Some? ==> !exists_ && (disk.faulty || (p in disk.nodes && !disk.nodes[p].File?))
  {
    hide Chronicle, Sound;
    var info := disk.Lstat(p);
    match info {
      case Absent => return false, None;
      case StatFailed => return false, Fail("lstat");
      case Found(Symlink) => return false, Fail("existing path is a symlink");
      case Found(File(_, _)) => return true, None;
      case Found(_) => return false, Fail("existing path is not a regular file");
    }
  }

  /** Writes all of the content, however little each write takes. */
  method WriteContent(disk: Disk, n: nat, whole: string) returns (ok: bool)
    requires disk.Valid() && n in disk.temps && disk.temps[n].File? && disk.temps[n].content == "" && n !in disk.closed
    modifies disk`nodes, disk`publisher, disk`removals, disk`moments, disk`temps, disk`synced
    ensures disk.Valid() && disk.Since() && disk.NothingPublished()
    ensures disk.alone ==> disk.nodes == old(disk.nodes) && disk.publisher == old(disk.publisher)
    ensures n in disk.temps && disk.temps == old(disk.temps)[n := disk.temps[n]]
    ensures disk.temps[n].File? && disk.temps[n].mode == old(disk.temps)[n].mode
    ensures ok ==> disk.temps[n].content == whole
    ensures !ok ==> disk.faulty
  {
    hide Chronicle, Sound;
    var content := whole;
    while |content| > 0
      invariant disk.Valid() && disk.Since() && disk.NothingPublished()
      invariant disk.alone ==> disk.nodes == old(disk.nodes) && disk.publisher == old(disk.publisher)
      invariant n in disk.temps && disk.temps == old(disk.temps)[n := disk.temps[n]]
      invariant disk.temps[n].File? && disk.temps[n].mode == old(disk.temps)[n].mode
      invariant disk.temps[n].content + content == whole
      decreases |content|
    {
      var written, sound := disk.WriteTemp(n, content);
      if written < 0 || written > |content| { return false; }
      assert content == content[..written] + content[written..];
      content := content[written..];
      if !sound { return false; }
      if written == 0 { return false; }
    }
    return true;
  }

  /** Mode, content, sync and close of the temporary file, which is removed when one of them fails. */
  method FillTemp(disk: Disk, n: nat, content: string) returns (ok: bool)
    requires disk.Valid() && n in disk.temps && disk.temps[n].File? && disk.temps[n].content == "" && n !in disk.closed
    modifies disk`nodes, disk`publisher, disk`removals, disk`moments, disk`temps, disk`synced, disk`closed
    ensures disk.Valid() && disk.Since() && disk.NothingPublished()
    ensures disk.alone ==> disk.nodes == old(disk.nodes) && disk.publisher == old(disk.publisher)
    ensures ok ==> n in disk.temps && disk.temps == old(disk.temps)[n := File(FILE_MODE, content)]
    ensures ok ==> n in disk.synced && n in disk.closed
    ensures !ok ==> disk.faulty
  {
    hide Chronicle, Sound;
    ok := disk.ChmodTemp(n);
    if ok { ok := WriteContent(disk, n, content); }
    if ok { ok := disk.SyncTemp(n); }
    if !ok {
      var closed := disk.CloseTemp(n);
    } else {
      ok := disk.CloseTemp(n);
    }
    if !ok {
      var removed := disk.RemoveTemp(n);
    }
  }

  /** Publishes a file by linking a complete temporary file; a file that is there, or wins the race, is left alone. */
  method CreateFile(disk: Disk, name: string) returns (created: bool, err: Option<string>)
    requires disk.Valid() && name in disk.contents
    modifies disk`nodes, disk`publisher, disk`removals, disk`moments, disk`temps, disk`synced, disk`closed, disk`serial
    ensures disk.Valid() && disk.Since()
    ensures created ==> Target(name) !in old(disk.nodes) && name in disk.publisher && disk.publisher[name] == disk.me
    ensures forall t | t in disk.publisher && disk.publisher[t] == disk.me && (t != name || !created) ::
      t in old(disk.publisher)
    ensures err.None? ==> Target(name) in disk.nodes && disk.nodes[Target(name)].File?
    ensures disk.alone ==> disk.nodes == WithFile(old(disk.nodes), created, name, disk.contents[name])
    ensures !disk.faulty ==> disk.temps == old(disk.temps)
    ensures disk.alone && !disk.faulty && err.Some? ==>
      (Target(name) in old(disk.nodes) && !old(disk.nodes)[Target(name)].File?) ||
        !HasParent(old(disk.nodes), Target(name))
  {
    hide Chronicle, Sound;
    var p := Target(name);
    var there;
    there, err := ExistingFile(disk, p);
    if err.Some? || there { return false, err; }
    var temp := disk.CreateTemp(p);
    if temp.None? { return false, Fail("create temporary file"); }
    var filled := FillTemp(disk, temp.value, disk.contents[name]);
    if !filled { return false, Fail("fill temporary file"); }
    created, err := Publish(disk, temp.value, name);
  }

  method Publish(disk: Disk, n: nat, name: string) returns (created: bool, err: Option<string>)
    requires disk.Valid() && name in disk.contents
    requires n in disk.temps && disk.temps[n] == File(FILE_MODE, disk.contents[name])
    requires n in disk.synced && n in disk.closed
    modifies disk`nodes, disk`publisher, disk`removals, disk`moments, disk`temps
    ensures disk.Valid() && disk.Since()
    ensures created ==> Target(name) !in old(disk.nodes) && name in disk.publisher && disk.publisher[name] == disk.me
    ensures forall t | t in disk.publisher && disk.publisher[t] == disk.me && (t != name || !created) ::
      t in old(disk.publisher)
    ensures err.None? ==> Target(name) in disk.nodes && disk.nodes[Target(name)].File?
    ensures disk.alone ==> disk.nodes == WithFile(old(disk.nodes), created, name, disk.contents[name])
    ensures !disk.faulty ==> disk.temps == old(disk.temps) - {n}
    ensures disk.alone && !disk.faulty && err.Some? ==>
      (Target(name) in old(disk.nodes) && !old(disk.nodes)[Target(name)].File?) ||
        !HasParent(old(disk.nodes), Target(name))
  {
    hide Chronicle, Sound;
    var p := Target(name);
    var linked := disk.Link(n, p);
    var removed := disk.RemoveTemp(n);
    match linked {
      case Done =>
        return true, if removed then None else Fail("remove published temporary file");
      case Exists =>
        var there;
        there, err := ExistingFile(disk, p);
        if err.None? && !there { err := Fail("publication target disappeared"); }
        if err.None? && !removed { err := Fail("remove temporary file"); }
        return false, err;
      case Failed => return false, Fail("link");
    }
  }

  // ---------- Initialising ----------

  /** The entries a workspace needs. */
  ghost predicate IsEntry(p: Path) {
    p.Root? || (p.Sub? && p.name in Directories()) || (p.Target? && p.name in Files())
  }

  /** What the status check demands of an entry: a directory with its exact mode, or a regular file. */
  ghost predicate InShape(nodes: Nodes, p: Path) {
    p in nodes && if p.Target? then nodes[p].File? else nodes[p] == Dir(0x1E8)
  }

  ghost predicate Initialized(nodes: Nodes) {
    forall p | IsEntry(p) :: InShape(nodes, p)
  }

  /** Every entry that is there has its shape. */
  ghost predicate Recoverable(nodes: Nodes) {
    forall p | IsEntry(p) && p in nodes :: InShape(nodes, p)
  }

  /** A run so far: nothing that was there has changed, and what is new are the done entries, in shape, and
      complete if they are files; one directory may be left over without its mode. */
  ghost predicate Grown(contents: map<string, string>, before: Nodes, nodes: Nodes, done: set<Path>,
    leftover: Option<Path>) {
    && (forall p | p in before :: p in nodes && nodes[p] == before[p])
    && (forall p | p in nodes && p !in before ::
          (leftover == Some(p) && nodes[p].Dir?) || (p in done && InShape(nodes, p) &&
            (p.Target? ==> p.name in contents && nodes[p] == File(FILE_MODE, contents[p.name]))))
    && (forall p | p in done :: IsEntry(p) && InShape(nodes, p))
    && (leftover.Some? ==>
          IsEntry(leftover.value) && leftover.value !in before && leftover.value in nodes && !leftover.value.Target?)
  }

  lemma GrownDirectory(contents: map<string, string>, before: Nodes, nodes: Nodes, done: set<Path>, p: Path,
    created: bool)
    requires Grown(contents, before, nodes, done, None) && !p.Target? && IsEntry(p)
    requires if created then p !in nodes else InShape(nodes, p)
    ensures var nodes' := if created then nodes[p := Dir(DIRECTORY_MODE)] else nodes;
      Grown(contents, before, nodes', done + {p}, None)
    ensures created ==> p !in before
  {
  }

  lemma GrownLeftover(contents: map<string, string>, before: Nodes, nodes: Nodes, done: set<Path>, p: Path, left: Node)
    requires Grown(contents, before, nodes, done, None) && !p.Target? && IsEntry(p) && p !in nodes && left.Dir?
    ensures Grown(contents, before, nodes[p := left], done, Some(p))
  {
  }

  lemma GrownFile(contents: map<string, string>, before: Nodes, nodes: Nodes, done: set<Path>, name: string,
    created: bool)
    requires Grown(contents, before, nodes, done, None) && name in contents && name in Files()
    requires if created then Target(name) !in nodes else InShape(nodes, Target(name))
    ensures Grown(contents, before, WithFile(nodes, created, name, contents[name]), done + {Target(name)}, None)
    ensures created ==> Target(name) !in before
  {
  }

  /** An entry that is there out of shape was so before. */
  lemma MisshapenBefore(contents: map<string, string>, before: Nodes, nodes: Nodes, done: set<Path>, p: Path)
    requires Grown(contents, before, nodes, done, None) && IsEntry(p) && p in nodes && !InShape(nodes, p)
    ensures !Recoverable(before)
  {
    assert p in before && !InShape(before, p);
  }

  /** Ensures one directory as part of a run. */
  method DirectoryStep(disk: Disk, p: Path, ghost before: Nodes, ghost done: set<Path>)
    returns (created: bool, err: Option<string>, ghost leftover: Option<Path>)
    requires disk.Valid() && !p.Target? && IsEntry(p)
    requires disk.alone ==> Grown(disk.contents, before, disk.nodes, done, None) && (p.Root? || Root in done)
    modifies disk`nodes, disk`publisher, disk`removals, disk`moments
    ensures disk.Valid() && disk.Since() && disk.NothingPublished()
    ensures err.None? ==> leftover.None?
    ensures disk.alone ==>
      Grown(disk.contents, before, disk.nodes, if err.None? then done + {p} else done, leftover)
    ensures disk.alone && err.None? ==> (created <==> p !in old(disk.nodes)) && (created ==> p !in before)
    ensures disk.alone && err.None? && p !in done ==> (created <==> p !in before)
    ensures disk.alone && !disk.faulty && err.Some? ==> !Recoverable(before)
  {
    hide Chronicle, Sound;
    ghost var nodes := disk.nodes;
    created, err := EnsureDirectory(disk, p);
    leftover := None;
    if disk.alone {
      if err.None? {
        GrownDirectory(disk.contents, before, nodes, done, p, created);
      } else {
        if disk.nodes != nodes {
          leftover := Some(p);
          GrownLeftover(disk.contents, before, nodes, done, p, disk.nodes[p]);
        }
        if !disk.faulty {
          assert p.Sub? ==> InShape(nodes, Root);
          MisshapenBefore(disk.contents, before, nodes, done, p);
        }
      }
    }
  }

  /** Creates one file as part of a run. */
  method FileStep(disk: Disk, name: string, ghost before: Nodes, ghost done: set<Path>)
    returns (created: bool, err: Option<string>, ghost done': set<Path>)
    requires disk.Valid() && name in disk.contents && name in Files()
    requires disk.alone ==> Grown(disk.contents, before, disk.nodes, done, None) && Parent(Target(name)) in done
    modifies disk`nodes, disk`publisher, disk`removals, disk`moments, disk`temps, disk`synced, disk`closed, disk`serial
    ensures disk.Valid() && disk.Since()
    ensures PublishersStep(disk.me, old(disk.publisher), disk.publisher, name, created)
    ensures disk.alone ==> Grown(disk.contents, before, disk.nodes, done', None)
    ensures done <= done' <= done + {Target(name)}
    ensures disk.alone && err.None? && Target(name) !in done ==> (created <==> Target(name) !in before)
    ensures disk.alone && err.None? ==>
      Target(name) in done' && (created <==> Target(name) !in old(disk.nodes)) && (created ==> Target(name) !in before)
    ensures disk.alone && !disk.faulty && err.Some? ==> !Recoverable(before)
  {
    hide Chronicle, Sound;
    ghost var nodes := disk.nodes;
    created, err := CreateFile(disk, name);
    done' := done;
    if disk.alone {
      if err.None? || created {
        GrownFile(disk.contents, before, nodes, done, name, created);
        done' := done + {Target(name)};
      } else if !disk.faulty {
        assert InShape(nodes, Parent(Target(name)));
        MisshapenBefore(disk.contents, before, nodes, done, Target(name));
      }
    }
  }

  /** A run that has done every entry leaves an initialised workspace, and started from a recoverable one. */
  lemma GrownInitialized(contents: map<string, string>, before: Nodes, nodes: Nodes, done: set<Path>)
    requires Grown(contents, before, nodes, done, None) && forall p | IsEntry(p) :: p in done
    ensures Initialized(nodes) && Recoverable(before)
  {
    forall p | IsEntry(p) && p in before ensures InShape(before, p) {
      assert p in done && nodes[p] == before[p];
    }
  }

  /** Nothing changes in an initialised workspace. */
  lemma GrownUnchanged(contents: map<string, string>, before: Nodes, nodes: Nodes, done: set<Path>,
    leftover: Option<Path>)
    requires Grown(contents, before, nodes, done, leftover) && Initialized(before)
    ensures nodes == before
  {
    forall p | p in nodes ensures p in before {
      assert IsEntry(p) ==> InShape(before, p);
    }
  }

  /** A run from a recoverable workspace, failed or not, leaves a recoverable one exactly when no directory is
      left with another mode. */
  lemma GrownRecoverable(contents: map<string, string>, before: Nodes, nodes: Nodes, done: set<Path>,
    leftover: Option<Path>)
    requires Grown(contents, before, nodes, done, leftover) && Recoverable(before)
    ensures Recoverable(nodes) <==>
      forall p | IsEntry(p) && !p.Target? && p in nodes && nodes[p].Dir? :: nodes[p] == Dir(DIRECTORY_MODE)
  {
    forall p | IsEntry(p) && p in nodes ensures InShape(nodes, p) || (!p.Target? && nodes[p].Dir?) {
      if p in before { assert InShape(before, p); }
    }
  }

  // ---------- The whole run ----------

  /** All targets, sorted. */
  function Targets(): seq<string> {
    ["AGENTS.md", "SOUL.md", "USER.md", "logs", "mcp_servers.yaml", "memory", "memory/MEMORY.md",
     "profiles", "profiles/default.yaml", "sessions", "skills"]
  }

  lemma TargetsCovered()
    ensures forall k | 0 <= k < |Targets()| :: Targets()[k] in Directories() || Targets()[k] in Files()
    ensures "memory" in Directories() && "profiles" in Directories()
  {
    assert Targets()[0] == Files()[0] && Targets()[1] == Files()[1] && Targets()[2] == Files()[2];
    assert Targets()[3] == Directories()[3] && Targets()[4] == Files()[3] && Targets()[5] == Directories()[4];
    assert Targets()[6] == Files()[4] && Targets()[7] == Directories()[0] && Targets()[8] == Files()[5];
    assert Targets()[9] == Directories()[1] && Targets()[10] == Directories()[2];
  }

  lemma DirectoriesAreNotFiles()
    ensures forall d | d in Directories() :: d !in Files()
  {
  }

  /** No directory and no file is missing from the targets. */
  lemma TargetsComplete()
    ensures forall d | d in Directories() :: d in Targets()
    ensures forall f | f in Files() :: f in Targets()
  {
    assert Targets()[0] == Files()[0] && Targets()[1] == Files()[1] && Targets()[2] == Files()[2];
    assert Targets()[4] == Files()[3] && Targets()[6] == Files()[4] && Targets()[8] == Files()[5];
    assert Targets()[7] == Directories()[0] && Targets()[9] == Directories()[1] && Targets()[10] == Directories()[2];
    assert Targets()[3] == Directories()[3] && Targets()[5] == Directories()[4];
  }

  /** The lines are those of the first targets, in order. */
  ghost predicate Lists(results: map<string, bool>, report: seq<(bool, string)>) {
    |report| <= |Targets()| && forall k | 0 <= k < |report| ::
      report[k].1 == Targets()[k] && report[k].1 in results && report[k].0 == results[report[k].1]
  }

  /** Prints one line for each target, as far as the output lets it. */
  method Report(disk: Disk, results: map<string, bool>) returns (report: seq<(bool, string)>, err: Option<string>)
    requires forall t | t in Targets() :: t in results
    ensures Lists(results, report)
    ensures err.None? ==> |report| == |Targets()|
    ensures err.Some? ==> disk.faulty
  {
    hide Chronicle, Sound, Targets;
    report := [];
    for i := 0 to |Targets()|
      invariant |report| == i && Lists(results, report)
    {
      var broken := disk.Fault();
      if broken { return report, Fail("write"); }
      report := report + [(results[Targets()[i]], Targets()[i])];
    }
    return report, None;
  }

  lemma NothingGrown(contents: map<string, string>, before: Nodes)
    ensures Grown(contents, before, before, {}, None)
  {
  }

  method MakeDirectories(disk: Disk, ghost before: Nodes)
    returns (results: map<string, bool>, err: Option<string>, ghost done: set<Path>, ghost leftover: Option<Path>)
    requires disk.Valid() && before == disk.nodes
    modifies disk`nodes, disk`publisher, disk`removals, disk`moments
    ensures disk.Valid() && disk.Since() && disk.NothingPublished()
    ensures disk.alone ==> Grown(disk.contents, before, disk.nodes, done, leftover)
    ensures err.None? ==> leftover.None? && forall d | d in Directories() :: d in results
    ensures forall d | d in results :: d in Directories()
    ensures disk.alone && err.None? ==> Root in done && forall d | d in Directories() :: Sub(d) in done
    ensures forall p | p in done :: !p.Target?
    ensures MadeNew(disk.alone, results, before)
    ensures disk.alone && !disk.faulty && err.Some? ==> !Recoverable(before)
  {
    NamesDiffer();
    hide Chronicle, Sound, Grown, Recoverable, InShape, Directories;
    NothingGrown(disk.contents, before);
    results, done := map[], {};
    var created;
    created, err, leftover := DirectoryStep(disk, Root, before, done);
    if err.Some? { return; }
    done := done + {Root};
    for i := 0 to |Directories()|
      invariant disk.Valid() && disk.Since() && disk.NothingPublished() && leftover.None? && err.None?
      invariant disk.alone ==> Grown(disk.contents, before, disk.nodes, done, None) && Root in done
      invariant disk.alone ==> forall k | 0 <= k < i :: Sub(Directories()[k]) in done
      invariant forall k | 0 <= k < i :: Directories()[k] in results
      invariant forall d | d in results :: d in Directories()
      invariant forall k | i <= k < |Directories()| :: Sub(Directories()[k]) !in done
      invariant forall p | p in done :: !p.Target?
      invariant MadeNew(disk.alone, results, before)
    {
      created, err, leftover := DirectoryStep(disk, Sub(Directories()[i]), before, done);
      if err.Some? { return; }
      done := done + {Sub(Directories()[i])};
      results := results[Directories()[i] := created];
    }
  }

  /** A file lies in the directory that its name starts with, and otherwise in the workspace itself. */
  lemma ParentsByName(f: string, d: string)
    requires f in Files() && d in Directories()
    ensures Parent(Target(f)) == Sub(d) <==> d + "/" <= f
  {
    var begin := d + "/";
    assert begin[0] == d[0] && begin[|d|] == '/';
    if f == "memory/MEMORY.md" && d == "memory" { assert f[..7] == begin; }
    if f == "profiles/default.yaml" && d == "profiles" { assert f[..9] == begin; }
  }

  lemma FileParents()
    ensures forall f | f in Files() :: Parent(Target(f)) in {Root, Sub("memory"), Sub("profiles")}
  {
  }

  lemma NamesDiffer()
    ensures forall j, k | 0 <= j < k < |Directories()| :: Directories()[j] != Directories()[k]
    ensures forall j, k | 0 <= j < k < |Files()| :: Files()[j] != Files()[k]
  {
  }

  type Publishers = map<string, nat>

  predicate PublishedBy(me: nat, publisher: Publishers, name: string) { name in publisher && publisher[name] == me }

  /** What a run reports as created: exactly what this initialiser published since, which alone is exactly what was not
      there before; and nothing else was published since. */
  ghost predicate Truthful(disk: Disk, publisher: Publishers, results: map<string, bool>, before: Nodes,
    had: Publishers)
  {
    && (forall f | f in results :: results[f] <==> PublishedBy(disk.me, publisher, f) && f !in had)
    && (forall f | PublishedBy(disk.me, publisher, f) && f !in had :: f in results)
    && (disk.alone ==> forall f | f in results :: results[f] <==> Target(f) !in before)
  }

  /** The publishers after a step that may have published the name. */
  ghost predicate PublishersStep(me: nat, was: Publishers, publisher: Publishers, name: string, created: bool) {
    && (forall t | t in was :: t in publisher && publisher[t] == was[t])
    && (created <==> PublishedBy(me, publisher, name) && name !in was)
    && (forall t | PublishedBy(me, publisher, t) && t != name :: t in was)
  }

  lemma NothingTold(disk: Disk, before: Nodes)
    ensures Truthful(disk, disk.publisher, map[], before, disk.publisher)
  {
  }

  lemma TruthfulStep(disk: Disk, was: Publishers, publisher: Publishers, results: map<string, bool>, before: Nodes,
    had: Publishers, name: string, created: bool)
    requires Truthful(disk, was, results, before, had) && name !in results && had.Keys <= was.Keys
    requires PublishersStep(disk.me, was, publisher, name, created)
    requires disk.alone ==> (created <==> Target(name) !in before)
    ensures Truthful(disk, publisher, results[name := created], before, had)
  {
  }

  method MakeFiles(disk: Disk, ghost before: Nodes, ghost ready: set<Path>)
    returns (results: map<string, bool>, err: Option<string>, ghost done: set<Path>)
    requires disk.Valid() && forall f | f in Files() :: f in disk.contents
    requires disk.alone ==> Grown(disk.contents, before, disk.nodes, ready, None)
    requires disk.alone ==> Root in ready && Sub("memory") in ready && Sub("profiles") in ready
    requires forall p | p in ready :: !p.Target?
    modifies disk`nodes, disk`publisher, disk`removals, disk`moments, disk`temps, disk`synced, disk`closed, disk`serial
    ensures disk.Valid() && disk.Since() &&
      (err.None? ==> Truthful(disk, disk.publisher, results, before, old(disk.publisher)))
    ensures disk.alone ==> Grown(disk.contents, before, disk.nodes, done, None) && ready <= done
    ensures err.None? ==> forall f | f in Files() :: f in results && (disk.alone ==> Target(f) in done)
    ensures forall f | f in results :: f in Files()
    ensures disk.alone && !disk.faulty && err.Some? ==> !Recoverable(before)
  {
    FileParents();
    NamesDiffer();
    hide Chronicle, Sound, Grown, Recoverable, InShape, Files, Parent, Truthful, PublishersStep;
    NothingTold(disk, before);
    results, done, err := map[], ready, None;
    for i := 0 to |Files()|
      invariant disk.Valid() && disk.Since() && err.None?
      invariant Truthful(disk, disk.publisher, results, before, old(disk.publisher))
      invariant forall f | f in results :: exists k :: 0 <= k < i && Files()[k] == f
      invariant forall k | i <= k < |Files()| :: Target(Files()[k]) !in done
      invariant disk.alone ==> Grown(disk.contents, before, disk.nodes, done, None) && ready <= done
      invariant forall k | 0 <= k < i :: Files()[k] in results && (disk.alone ==> Target(Files()[k]) in done)
      invariant forall f | f in results :: f in Files()
    {
      var created;
      ghost var was := disk.publisher;
      created, err, done := FileStep(disk, Files()[i], before, done);
      if err.Some? { return; }
      TruthfulStep(disk, was, disk.publisher, results, before, old(disk.publisher), Files()[i], created);
      results := results[Files()[i] := created];
    }
  }

  /** Alone, a run reports as made exactly the directories that were not there before. */
  ghost predicate MadeNew(alone: bool, results: map<string, bool>, before: Nodes) {
    alone ==> forall d | d in results :: results[d] <==> Sub(d) !in before
  }

  /** A line of the report comes from the results of files or of directories. */
  ghost predicate IsLine(directories: map<string, bool>, files: map<string, bool>, line: (bool, string)) {
    if line.1 in Files() then line.1 in files && line.0 == files[line.1]
    else line.1 in Directories() && line.1 in directories && line.0 == directories[line.1]
  }

  lemma ReportLines(directories: map<string, bool>, files: map<string, bool>, report: seq<(bool, string)>)
    requires forall d | d in directories :: d in Directories()
    requires forall f | f in files :: f in Files()
    requires Lists(directories + files, report)
    ensures forall line | line in report :: IsLine(directories, files, line)
  {
    TargetsCovered();
    DirectoriesAreNotFiles();
    hide Targets, Files, Directories;
  }

  lemma NothingNew(before: Nodes, directories: map<string, bool>, files: map<string, bool>, line: (bool, string))
    requires IsLine(directories, files, line) && TellsNew(line, before)
    requires Initialized(before)
    ensures !line.0
  {
    hide Files, Directories;
    assert IsEntry(Target(line.1)) || IsEntry(Sub(line.1));
    assert InShape(before, Target(line.1)) || InShape(before, Sub(line.1));
  }

  lemma EveryEntryDone(done: set<Path>)
    requires Root in done && (forall d | d in Directories() :: Sub(d) in done) &&
      (forall f | f in Files() :: Target(f) in done)
    ensures forall p | IsEntry(p) :: p in done
  {
  }

  /** The line says created exactly when its entry was not there before. */
  ghost predicate TellsNew(line: (bool, string), before: Nodes) {
    if line.1 in Files() then line.0 <==> Target(line.1) !in before else line.0 <==> Sub(line.1) !in before
  }

  /** No directory and no file goes unreported. */
  ghost predicate NamesAll(report: seq<(bool, string)>) {
    forall t | t in Directories() || t in Files() :: exists k | 0 <= k < |report| :: report[k].1 == t
  }

  lemma TargetsNamed(report: seq<(bool, string)>)
    requires |report| == |Targets()| && forall k | 0 <= k < |report| :: report[k].1 == Targets()[k]
    ensures NamesAll(report)
  {
    TargetsComplete();
    hide Targets, Directories, Files;
    forall t | t in Directories() || t in Files() ensures exists k | 0 <= k < |report| :: report[k].1 == t {
      var k :| 0 <= k < |Targets()| && Targets()[k] == t;
      assert report[k].1 == t;
    }
  }

  /** Makes what is missing and reports every target in order; reporting may fail. */
  method Initialize(disk: Disk)
    returns (report: seq<(bool, string)>, err: Option<string>, ghost done: set<Path>, ghost leftover: Option<Path>)
    requires disk.Valid() && forall f | f in Files() :: f in disk.contents
    modifies disk`nodes, disk`publisher, disk`removals, disk`moments, disk`temps, disk`synced, disk`closed, disk`serial
    ensures disk.Valid() && disk.Since()
    ensures forall line | line in report && line.1 in Files() ::
      line.0 <==> PublishedBy(disk.me, disk.publisher, line.1) && line.1 !in old(disk.publisher)
    ensures disk.alone ==> forall line | line in report :: TellsNew(line, old(disk.nodes))
    ensures err.None? ==> |report| == |Targets()| && forall k | 0 <= k < |report| :: report[k].1 == Targets()[k]
    ensures err.None? ==> NamesAll(report)
    ensures disk.alone ==> Grown(disk.contents, old(disk.nodes), disk.nodes, done, leftover)
    ensures disk.alone && err.None? ==> Initialized(disk.nodes)
    ensures disk.alone && !disk.faulty ==> (err.None? <==> Recoverable(old(disk.nodes)))
    ensures disk.alone && Initialized(old(disk.nodes)) ==>
      disk.nodes == old(disk.nodes) && forall line | line in report :: !line.0
  {
    TargetsCovered();
    ghost var before, had := disk.nodes, disk.publisher;
    report := [];
    var directories, files;
    hide Chronicle, Sound, Grown, Recoverable, Initialized, Files, Directories, Targets, IsEntry, Truthful, IsLine,
      MadeNew, NamesAll, TellsNew;
    directories, err, done, leftover := MakeDirectories(disk, before);
    if err.None? {
      ghost var mid := disk.publisher;
      files, err, done := MakeFiles(disk, before, done);
      if err.None? {
        TruthfulSince(disk, files, before, had, mid);
        report, err := Report(disk, directories + files);
        if err.None? { TargetsNamed(report); }
        ReportLines(directories, files, report);
        ReportTruthful(disk, before, had, directories, files, report);
        if disk.alone {
          EveryEntryDone(done);
          GrownInitialized(disk.contents, before, disk.nodes, done);
        }
      }
    }
    if disk.alone { UnchangedIfInitialized(disk.contents, before, disk.nodes, done, leftover); }
  }

  lemma UnchangedIfInitialized(contents: map<string, string>, before: Nodes, nodes: Nodes, done: set<Path>,
    leftover: Option<Path>)
    requires Grown(contents, before, nodes, done, leftover)
    ensures Initialized(before) ==> nodes == before
  {
    hide Grown, Initialized;
    if Initialized(before) { GrownUnchanged(contents, before, nodes, done, leftover); }
  }

  lemma TruthfulSince(disk: Disk, files: map<string, bool>, before: Nodes, had: Publishers, mid: Publishers)
    requires Truthful(disk, disk.publisher, files, before, mid) && had.Keys <= mid.Keys
    requires forall t | t in mid :: t in disk.publisher && disk.publisher[t] == mid[t]
    requires forall t | t in mid && mid[t] == disk.me :: t in had
    ensures Truthful(disk, disk.publisher, files, before, had)
  {
  }

  lemma ReportTruthful(disk: Disk, before: Nodes, had: Publishers, directories: map<string, bool>,
    files: map<string, bool>, report: seq<(bool, string)>)
    requires forall line | line in report :: IsLine(directories, files, line)
    requires MadeNew(disk.alone, directories, before) && Truthful(disk, disk.publisher, files, before, had)
    ensures forall line | line in report && line.1 in Files() ::
      line.0 <==> PublishedBy(disk.me, disk.publisher, line.1) && line.1 !in had
    ensures disk.alone ==> forall line | line in report :: TellsNew(line, before)
    ensures disk.alone && Initialized(before) ==> forall line | line in report :: !line.0
  {
    hide Files, Directories, Initialized;
    if disk.alone && Initialized(before) {
      forall line | line in report ensures !line.0 { NothingNew(before, directories, files, line); }
    }
  }

  // ---------- Status ----------

  /** A directory with its exact mode, or a regular file, is there. */
  method IsShaped(disk: Disk, p: Path) returns (shaped: bool)
    requires disk.Valid()
    modifies disk`nodes, disk`publisher, disk`removals, disk`moments
    ensures disk.Valid() && disk.Since() && disk.NothingPublished()
    ensures disk.alone ==> disk.nodes == old(disk.nodes) && (shaped ==> InShape(disk.nodes, p))
    ensures disk.alone && !disk.faulty ==> (shaped <==> InShape(disk.nodes, p))
  {
    hide Chronicle, Sound;
    var info := disk.Lstat(p);
    return info.Found? && if p.Target? then info.node.File? else info.node == Dir(DIRECTORY_MODE);
  }

  /** What needs to be there: the workspace, its directories, its files in whatever order. */
  ghost predicate Checked(nodes: Nodes, directories: nat, files: set<string>)
    requires directories <= |Directories()|
  {
    && InShape(nodes, Root)
    && (forall k | 0 <= k < directories :: InShape(nodes, Sub(Directories()[k])))
    && (forall f | f in files :: InShape(nodes, Target(f)))
  }

  lemma CheckedIsInitialized(nodes: Nodes)
    ensures Checked(nodes, |Directories()|, set f | f in Files()) <==> Initialized(nodes)
  {
    hide InShape, Directories, Files;
    if Initialized(nodes) {
      assert IsEntry(Root);
      forall k | 0 <= k < |Directories()| ensures InShape(nodes, Sub(Directories()[k])) {
        assert IsEntry(Sub(Directories()[k]));
      }
      forall f | f in Files() ensures InShape(nodes, Target(f)) { assert IsEntry(Target(f)); }
    }
  }

  /** Initialized only when every entry has its shape; on a sound disk that nobody else touches, exactly then. */
  method Status(disk: Disk) returns (initialized: bool)
    requires disk.Valid()
    modifies disk`nodes, disk`publisher, disk`removals, disk`moments
    ensures disk.Valid() && disk.Since() && disk.NothingPublished()
    ensures disk.alone ==> disk.nodes == old(disk.nodes) && (initialized ==> Initialized(disk.nodes))
    ensures disk.alone && !disk.faulty ==> (initialized <==> Initialized(disk.nodes))
  {
    hide Chronicle, Sound, InShape, Initialized, Directories, Files;
    ghost var nodes := disk.nodes;
    CheckedIsInitialized(nodes);
    var shaped := IsShaped(disk, Root);
    if !shaped { return false; }
    for i := 0 to |Directories()|
      invariant disk.Valid() && disk.Since() && disk.NothingPublished()
      invariant disk.alone ==> disk.nodes == nodes && Checked(nodes, i, {})
    {
      shaped := IsShaped(disk, Sub(Directories()[i]));
      if !shaped { return false; }
    }
    ghost var all := set f | f in Files();
    ghost var seen: set<string> := {};
    var left := set f | f in Files();
    while left != {}
      invariant disk.Valid() && disk.Since() && disk.NothingPublished()
      invariant left <= all && seen == all - left
      invariant disk.alone ==> disk.nodes == nodes && Checked(nodes, |Directories()|, seen)
      decreases left
    {
      var f :| f in left;
      shaped := IsShaped(disk, Target(f));
      if !shaped { return false; }
      left, seen := left - {f}, seen + {f};
    }
    assert seen == all;
    return true;
  }
}
