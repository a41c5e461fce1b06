/** Any number of initialisers creating workspace files at once, each file-system operation one step, with faults,
    short writes and crashes anywhere (cmd/oryxos/workspace.go). A hard link gives an inode a second name. */
module Race {
  import opened Base
  import opened Disk

  /** Where one call that creates a file is: before the first look; before making, giving its mode to, writing,
      syncing, closing and linking its temporary file; before closing and removing it after a failure; before
      removing it after linking, or after another won; before looking at what won; returned, or crashed. */
  datatype At =
    | Looking | Making | Moding | Writing(rest: string) | Syncing | Closing | Linking
    | Discarding(closing: bool) | Unlinking(created: bool) | Checking(removed: bool)
    | Returned(created: bool, ok: bool) | Crashed

  datatype Call = Call(name: string, at: At)

  /** The files there at the start, the names linked since, the inodes, and the calls; call i makes inode i. */
  datatype State = State(
    initial: map<string, Node>, linked: map<string, nat>, inodes: map<nat, Node>, temps: set<nat>,
    calls: map<nat, Call>)

  datatype Step =
    | Begin(i: nat, name: string) | Look(i: nat, fault: bool) | Make(i: nat, fault: bool, mode: int)
    | Mode(i: nat, fault: bool)
    | Write(i: nat, report: int, fault: bool, junk: string) | Sync(i: nat, fault: bool) | CloseFile(i: nat, fault: bool)
    | Link(i: nat, fault: bool) | Remove(i: nat, fault: bool) | Crash(i: nat)

  // ---------- The steps ----------

  predicate IsAt(s: State, i: nat, at: At) { i in s.calls && s.calls[i].at == at }

  predicate Present(s: State, name: string) { name in s.initial || name in s.linked }

  /** Whether what has the name is a regular file; what was linked is. */
  predicate Regular(s: State, name: string) { Present(s, name) && (name in s.initial ==> s.initial[name].File?) }

  predicate Enabled(contents: map<string, string>, s: State, step: Step) {
    match step
    case Begin(i, name) => i !in s.calls && name in contents
    case Look(i, _) => i in s.calls && (s.calls[i].at.Looking? || s.calls[i].at.Checking?)
    case Make(i, _, _) => IsAt(s, i, Making)
    case Mode(i, _) => IsAt(s, i, Moding) && i in s.inodes && s.inodes[i].File?
    case Write(i, _, _, _) => i in s.calls && s.calls[i].at.Writing? && i in s.inodes && s.inodes[i].File?
    case Sync(i, _) => IsAt(s, i, Syncing)
    case CloseFile(i, _) => IsAt(s, i, Closing) || IsAt(s, i, Discarding(true))
    case Link(i, _) => IsAt(s, i, Linking)
    case Remove(i, _) => i in s.calls && (s.calls[i].at == Discarding(false) || s.calls[i].at.Unlinking?)
    case Crash(i) => i in s.calls && !s.calls[i].at.Returned?
  }

  function Goes(s: State, i: nat, at: At): State
    requires i in s.calls
  {
    s.(calls := s.calls[i := s.calls[i].(at := at)])
  }

  function Append(s: State, i: nat, text: string): State
    requires i in s.inodes && s.inodes[i].File?
  {
    s.(inodes := s.inodes[i := s.inodes[i].(content := s.inodes[i].content + text)])
  }

  function Next(contents: map<string, string>, s: State, step: Step): State
    requires Enabled(contents, s, step)
  {
    match step
    case Begin(i, name) => s.(calls := s.calls[i := Call(name, Looking)])
    case Look(i, fault) =>
      var name := s.calls[i].name;
      (match s.calls[i].at
       case Checking(removed) => Goes(s, i, Returned(false, !fault && Regular(s, name) && removed))
       case _ =>
         if fault then Goes(s, i, Returned(false, false))
         else if Present(s, name) then Goes(s, i, Returned(false, Regular(s, name)))
         else Goes(s, i, Making))
    case Make(i, fault, mode) =>
      if fault then Goes(s, i, Returned(false, false))
      else Goes(s, i, Moding).(inodes := s.inodes[i := File(mode, "")], temps := s.temps + {i})
    case Mode(i, fault) =>
      if fault then Goes(s, i, Discarding(true))
      else Goes(s, i, Writing(if s.calls[i].name in contents then contents[s.calls[i].name] else ""))
        .(inodes := s.inodes[i := s.inodes[i].(mode := FILE_MODE)])
    case Write(i, report, fault, junk) =>
      var rest := s.calls[i].at.rest;
      if rest == "" then Goes(s, i, Syncing)
      else if !(0 <= report <= |rest|) then Append(Goes(s, i, Discarding(true)), i, junk)
      else if fault || report == 0 then Append(Goes(s, i, Discarding(true)), i, rest[..report])
      else Append(Goes(s, i, Writing(rest[report..])), i, rest[..report])
    case Sync(i, fault) => Goes(s, i, if fault then Discarding(true) else Closing)
    case CloseFile(i, fault) => Goes(s, i, if s.calls[i].at.Closing? && !fault then Linking else Discarding(false))
    case Link(i, fault) =>
      var name := s.calls[i].name;
      if fault then Goes(s, i, Discarding(false))
      else if Present(s, name) then Goes(s, i, Unlinking(false))
      else Goes(s, i, Unlinking(true)).(linked := s.linked[name := i])
    case Remove(i, fault) =>
      var after := if fault then s else s.(temps := s.temps - {i});
      (match s.calls[i].at
       case Unlinking(created) => Goes(after, i, if created then Returned(true, !fault) else Checking(!fault))
       case _ => Goes(after, i, Returned(false, false)))
    case Crash(i) => Goes(s, i, Crashed)
  }

  // ---------- The invariant ----------

  predicate NotLinked(s: State, i: nat) { forall name | name in s.linked :: s.linked[name] != i }

  /** What the call has made so far: nothing, an inode nobody else sees, a growing one, a complete one, a linked one. */
  ghost predicate CallInv(contents: map<string, string>, s: State, i: nat)
    requires i in s.calls
  {
    var Call(name, at) := s.calls[i];
    && name in contents
    && match at
       case Looking => i !in s.inodes && NotLinked(s, i)
       case Making => i !in s.inodes && NotLinked(s, i)
       case Moding => i in s.inodes && s.inodes[i].File? && s.inodes[i].content == "" && NotLinked(s, i)
       case Writing(rest) =>
         && i in s.inodes && s.inodes[i].File? && s.inodes[i].mode == FILE_MODE
         && s.inodes[i].content + rest == contents[name] && NotLinked(s, i)
       case Syncing => i in s.inodes && s.inodes[i] == File(FILE_MODE, contents[name]) && NotLinked(s, i)
       case Closing => i in s.inodes && s.inodes[i] == File(FILE_MODE, contents[name]) && NotLinked(s, i)
       case Linking => i in s.inodes && s.inodes[i] == File(FILE_MODE, contents[name]) && NotLinked(s, i)
       case Unlinking(created) => if created then Linked(s, i) else NotLinked(s, i) && Present(s, name)
       case Checking(_) => NotLinked(s, i) && Present(s, name)
       case Returned(created, ok) =>
         (if created then Linked(s, i) else NotLinked(s, i)) && (ok ==> Regular(s, name))
       case Discarding(_) => NotLinked(s, i)
       case Crashed => true
  }

  predicate Linked(s: State, i: nat)
    requires i in s.calls
  {
    s.calls[i].name in s.linked && s.linked[s.calls[i].name] == i
  }

  /** A linked name was not there before, and its inode is complete and no longer written to. */
  ghost predicate LinkInv(contents: map<string, string>, s: State, name: string)
    requires name in s.linked
  {
    var i := s.linked[name];
    && name !in s.initial && name in contents && i in s.inodes && s.inodes[i] == File(FILE_MODE, contents[name])
    && i in s.calls && s.calls[i].name == name
    && (s.calls[i].at == Unlinking(true) || s.calls[i].at == Crashed ||
          (s.calls[i].at.Returned? && s.calls[i].at.created))
  }

  ghost predicate Inv(contents: map<string, string>, s: State) {
    && (forall i | i in s.calls :: CallInv(contents, s, i))
    && (forall i | i in s.inodes :: i in s.calls)
    && (forall name | name in s.linked :: LinkInv(contents, s, name))
  }

  /** What the other calls rely on: their inodes stay, names are only added, and only by linking the caller's inode. */
  ghost predicate Harmless(s: State, s': State, i: nat) {
    && s'.initial == s.initial
    && (forall j | j in s.calls && j != i :: j in s'.calls && s'.calls[j] == s.calls[j])
    && (forall j | j in s.inodes && j != i :: j in s'.inodes && s'.inodes[j] == s.inodes[j])
    && (forall j | j in s'.inodes && j != i :: j in s.inodes)
    && (forall j | j in s'.calls && j != i :: j in s.calls)
    && (forall name | name in s.linked :: name in s'.linked && s'.linked[name] == s.linked[name])
    && (forall name | name in s'.linked && name !in s.linked :: s'.linked[name] == i)
  }

  /** What a step has to show of its own call. */
  ghost predicate OwnKept(contents: map<string, string>, s': State, i: nat) {
    && i in s'.calls && CallInv(contents, s', i)
    && (forall name | name in s'.linked && s'.linked[name] == i :: LinkInv(contents, s', name))
  }

  /** The other calls and their files keep what they had. */
  lemma OthersKeep(contents: map<string, string>, s: State, s': State, i: nat)
    requires Inv(contents, s) && Harmless(s, s', i) && OwnKept(contents, s', i)
    ensures Inv(contents, s')
  {
    forall j | j in s'.calls ensures CallInv(contents, s', j) {
      if j != i { assert CallInv(contents, s, j); }
    }
    forall name | name in s'.linked ensures LinkInv(contents, s', name) {
      if s'.linked[name] != i { assert LinkInv(contents, s, name); }
    }
  }

  lemma BeginKeeps(contents: map<string, string>, s: State, step: Step)
    requires Inv(contents, s) && Enabled(contents, s, step) && step.Begin?
    ensures Harmless(s, Next(contents, s, step), step.i) && OwnKept(contents, Next(contents, s, step), step.i)
  {
  }

  lemma LookHarmless(contents: map<string, string>, s: State, step: Step)
    requires Enabled(contents, s, step) && step.Look?
    ensures Harmless(s, Next(contents, s, step), step.i)
  {
  }

  lemma LookKept(contents: map<string, string>, s: State, step: Step)
    requires Inv(contents, s) && Enabled(contents, s, step) && step.Look?
    ensures OwnKept(contents, Next(contents, s, step), step.i)
  {
    assert step.i in s.calls && CallInv(contents, s, step.i);
  }

  lemma LookKeeps(contents: map<string, string>, s: State, step: Step)
    requires Inv(contents, s) && Enabled(contents, s, step) && step.Look?
    ensures Harmless(s, Next(contents, s, step), step.i) && OwnKept(contents, Next(contents, s, step), step.i)
  {
    hide *;
    LookHarmless(contents, s, step);
    LookKept(contents, s, step);
  }

  lemma MakeHarmless(contents: map<string, string>, s: State, step: Step)
    requires Enabled(contents, s, step) && step.Make?
    ensures Harmless(s, Next(contents, s, step), step.i)
  {
  }

  lemma MakeKept(contents: map<string, string>, s: State, step: Step)
    requires Inv(contents, s) && Enabled(contents, s, step) && step.Make?
    ensures OwnKept(contents, Next(contents, s, step), step.i)
  {
    assert step.i in s.calls && CallInv(contents, s, step.i);
  }

  lemma MakeKeeps(contents: map<string, string>, s: State, step: Step)
    requires Inv(contents, s) && Enabled(contents, s, step) && step.Make?
    ensures Harmless(s, Next(contents, s, step), step.i) && OwnKept(contents, Next(contents, s, step), step.i)
  {
    hide *;
    MakeHarmless(contents, s, step);
    MakeKept(contents, s, step);
  }

  lemma ModeHarmless(contents: map<string, string>, s: State, step: Step)
    requires Enabled(contents, s, step) && step.Mode?
    ensures Harmless(s, Next(contents, s, step), step.i)
  {
  }

  lemma ModeKept(contents: map<string, string>, s: State, step: Step)
    requires Inv(contents, s) && Enabled(contents, s, step) && step.Mode?
    ensures OwnKept(contents, Next(contents, s, step), step.i)
  {
    assert step.i in s.calls && CallInv(contents, s, step.i);
  }

  lemma ModeKeeps(contents: map<string, string>, s: State, step: Step)
    requires Inv(contents, s) && Enabled(contents, s, step) && step.Mode?
    ensures Harmless(s, Next(contents, s, step), step.i) && OwnKept(contents, Next(contents, s, step), step.i)
  {
    hide *;
    ModeHarmless(contents, s, step);
    ModeKept(contents, s, step);
  }

  lemma WriteHarmless(contents: map<string, string>, s: State, step: Step)
    requires Enabled(contents, s, step) && step.Write?
    ensures Harmless(s, Next(contents, s, step), step.i)
  {
  }

  lemma WriteKept(contents: map<string, string>, s: State, step: Step)
    requires Inv(contents, s) && Enabled(contents, s, step) && step.Write?
    ensures OwnKept(contents, Next(contents, s, step), step.i)
  {
    assert step.i in s.calls && CallInv(contents, s, step.i);
  }

  lemma WriteKeeps(contents: map<string, string>, s: State, step: Step)
    requires Inv(contents, s) && Enabled(contents, s, step) && step.Write?
    ensures Harmless(s, Next(contents, s, step), step.i) && OwnKept(contents, Next(contents, s, step), step.i)
  {
    hide *;
    WriteHarmless(contents, s, step);
    WriteKept(contents, s, step);
  }

  lemma SyncKeeps(contents: map<string, string>, s: State, step: Step)
    requires Inv(contents, s) && Enabled(contents, s, step) && step.Sync?
    ensures Harmless(s, Next(contents, s, step), step.i) && OwnKept(contents, Next(contents, s, step), step.i)
  {
    assert step.i in s.calls && CallInv(contents, s, step.i);
  }

  lemma CloseFileKeeps(contents: map<string, string>, s: State, step: Step)
    requires Inv(contents, s) && Enabled(contents, s, step) && step.CloseFile?
    ensures Harmless(s, Next(contents, s, step), step.i) && OwnKept(contents, Next(contents, s, step), step.i)
  {
    assert step.i in s.calls && CallInv(contents, s, step.i);
  }

  lemma LinkHarmless(contents: map<string, string>, s: State, step: Step)
    requires Enabled(contents, s, step) && step.Link?
    ensures Harmless(s, Next(contents, s, step), step.i)
  {
  }

  lemma LinkKept(contents: map<string, string>, s: State, step: Step)
    requires Inv(contents, s) && Enabled(contents, s, step) && step.Link?
    ensures OwnKept(contents, Next(contents, s, step), step.i)
  {
    assert step.i in s.calls && CallInv(contents, s, step.i);
  }

  lemma LinkKeeps(contents: map<string, string>, s: State, step: Step)
    requires Inv(contents, s) && Enabled(contents, s, step) && step.Link?
    ensures Harmless(s, Next(contents, s, step), step.i) && OwnKept(contents, Next(contents, s, step), step.i)
  {
    hide *;
    LinkHarmless(contents, s, step);
    LinkKept(contents, s, step);
  }

  lemma RemoveHarmless(contents: map<string, string>, s: State, step: Step)
    requires Enabled(contents, s, step) && step.Remove?
    ensures Harmless(s, Next(contents, s, step), step.i)
  {
  }

  lemma RemoveKept(contents: map<string, string>, s: State, step: Step)
    requires Inv(contents, s) && Enabled(contents, s, step) && step.Remove?
    ensures OwnKept(contents, Next(contents, s, step), step.i)
  {
    assert step.i in s.calls && CallInv(contents, s, step.i);
  }

  lemma RemoveKeeps(contents: map<string, string>, s: State, step: Step)
    requires Inv(contents, s) && Enabled(contents, s, step) && step.Remove?
    ensures Harmless(s, Next(contents, s, step), step.i) && OwnKept(contents, Next(contents, s, step), step.i)
  {
    hide *;
    RemoveHarmless(contents, s, step);
    RemoveKept(contents, s, step);
  }

  lemma CrashKeeps(contents: map<string, string>, s: State, step: Step)
    requires Inv(contents, s) && Enabled(contents, s, step) && step.Crash?
    ensures Harmless(s, Next(contents, s, step), step.i) && OwnKept(contents, Next(contents, s, step), step.i)
  {
    assert step.i in s.calls && CallInv(contents, s, step.i);
  }

  lemma InvStep(contents: map<string, string>, s: State, step: Step)
    requires Inv(contents, s) && Enabled(contents, s, step)
    ensures Inv(contents, Next(contents, s, step)) && Harmless(s, Next(contents, s, step), step.i)
  {
    hide Inv, Enabled, Next, Harmless, OwnKept;
    match step {
      case Begin(_, _) => BeginKeeps(contents, s, step);
      case Look(_, _) => LookKeeps(contents, s, step);
      case Make(_, _, _) => MakeKeeps(contents, s, step);
      case Mode(_, _) => ModeKeeps(contents, s, step);
      case Write(_, _, _, _) => WriteKeeps(contents, s, step);
      case Sync(_, _) => SyncKeeps(contents, s, step);
      case CloseFile(_, _) => CloseFileKeeps(contents, s, step);
      case Link(_, _) => LinkKeeps(contents, s, step);
      case Remove(_, _) => RemoveKeeps(contents, s, step);
      case Crash(_) => CrashKeeps(contents, s, step);
    }
    OthersKeep(contents, s, Next(contents, s, step), step.i);
  }

  // ---------- Every interleaving ----------

  function Start(initial: map<string, Node>): State { State(initial, map[], map[], {}, map[]) }

  /** The states that a sequence of enabled steps visits. */
  ghost predicate IsRun(contents: map<string, string>, states: seq<State>, steps: seq<Step>) {
    && |states| == |steps| + 1 && states[0] == Start(states[0].initial)
    && forall k | 0 <= k < |steps| ::
        Enabled(contents, states[k], steps[k]) && states[k + 1] == Next(contents, states[k], steps[k])
  }

  lemma RunStep(contents: map<string, string>, states: seq<State>, steps: seq<Step>, k: nat)
    requires IsRun(contents, states, steps) && k < |states| - 1
    ensures k < |steps| && Enabled(contents, states[k], steps[k]) &&
      states[k + 1] == Next(contents, states[k], steps[k])
  {
    hide Next, Enabled;
  }

  lemma StartInv(contents: map<string, string>, states: seq<State>, steps: seq<Step>)
    requires IsRun(contents, states, steps)
    ensures Inv(contents, states[0])
  {
    hide Next, Enabled;
  }

  lemma {:induction false} RunInv(contents: map<string, string>, states: seq<State>, steps: seq<Step>, k: nat)
    requires IsRun(contents, states, steps) && k < |states|
    ensures Inv(contents, states[k]) && states[k].initial == states[0].initial
  {
    hide *;
    if k == 0 {
      StartInv(contents, states, steps);
    } else {
      RunInv(contents, states, steps, k - 1);
      RunStep(contents, states, steps, k - 1);
      InvStep(contents, states[k - 1], steps[k - 1]);
      InitialKept(contents, states[k - 1], steps[k - 1]);
    }
  }

  lemma InitialKept(contents: map<string, string>, s: State, step: Step)
    requires Enabled(contents, s, step)
    ensures Next(contents, s, step).initial == s.initial
  {
  }

  /** What has the name: the file of the start, or the inode linked to it, whoever else may have it open. */
  function NodeAt(contents: map<string, string>, s: State, name: string): Option<Node> {
    if name in s.initial then Some(s.initial[name])
    else if name in s.linked && s.linked[name] in s.inodes then Some(s.inodes[s.linked[name]])
    else None
  }

  ghost predicate SoundName(contents: map<string, string>, start: State, s: State, name: string) {
    var node := NodeAt(contents, s, name);
    if name in start.initial then node == Some(start.initial[name])
    else node.None? || (name in contents && node == Some(File(0x180, contents[name])))
  }

  /** At every moment, whatever failed or crashed, a workspace file is as it was at the start, absent, or complete
      with its mode. */
  lemma AbsentUntouchedOrComplete(contents: map<string, string>, states: seq<State>, steps: seq<Step>, k: nat,
    name: string)
    requires IsRun(contents, states, steps) && k < |states|
    ensures SoundName(contents, states[0], states[k], name)
  {
    hide IsRun, Next, Enabled;
    RunInv(contents, states, steps, k);
    if name in states[k].linked { assert LinkInv(contents, states[k], name); }
  }

  predicate Reports(s: State, i: nat, name: string) {
    i in s.calls && s.calls[i].name == name && s.calls[i].at.Returned? && s.calls[i].at.created
  }

  /** Of all calls for one file at most one reports that it created it; the file was not there at the start and is
      there complete. */
  lemma OneCreator(contents: map<string, string>, states: seq<State>, steps: seq<Step>, k: nat, i: nat, j: nat,
    name: string)
    requires IsRun(contents, states, steps) && k < |states| && Reports(states[k], i, name)
    ensures Reports(states[k], j, name) ==> i == j
    ensures name !in states[0].initial && name in contents
    ensures NodeAt(contents, states[k], name) == Some(File(FILE_MODE, contents[name]))
  {
    hide IsRun, Next, Enabled;
    RunInv(contents, states, steps, k);
    assert CallInv(contents, states[k], i) && LinkInv(contents, states[k], name);
    if Reports(states[k], j, name) { assert CallInv(contents, states[k], j); }
  }

  /** A call that returns without an error leaves a regular file. */
  lemma SuccessLeavesFile(contents: map<string, string>, states: seq<State>, steps: seq<Step>, k: nat, i: nat)
    requires IsRun(contents, states, steps) && k < |states| && i in states[k].calls
    requires states[k].calls[i].at.Returned? && states[k].calls[i].at.ok
    ensures var node := NodeAt(contents, states[k], states[k].calls[i].name);
      node.Some? && node.value.File?
  {
    hide IsRun, Next, Enabled;
    RunInv(contents, states, steps, k);
    var name := states[k].calls[i].name;
    assert CallInv(contents, states[k], i);
    if name in states[k].linked { assert LinkInv(contents, states[k], name); }
  }

  /** A call that returned reports that it created the file exactly when the name is linked to its inode. */
  lemma ReportsExactly(contents: map<string, string>, states: seq<State>, steps: seq<Step>, k: nat, i: nat)
    requires IsRun(contents, states, steps) && k < |states| && i in states[k].calls && states[k].calls[i].at.Returned?
    ensures var name := states[k].calls[i].name;
      states[k].calls[i].at.created <==> name in states[k].linked && states[k].linked[name] == i
  {
    hide IsRun, Next, Enabled;
    RunInv(contents, states, steps, k);
    assert CallInv(contents, states[k], i);
  }

  // ---------- Calls that meet no fault ----------

  /** The step does what was asked: no fault, no crash, and a write takes something. */
  predicate Smooth(s: State, step: Step) {
    match step
    case Begin(_, _) => true
    case Write(i, report, fault, _) =>
      i in s.calls && s.calls[i].at.Writing? &&
        (s.calls[i].at.rest == "" || (!fault && 0 < report <= |s.calls[i].at.rest|))
    case Crash(_) => false
    case _ => !step.fault
  }

  /** What a call that met no fault has come to: when it returns, its answer is whether the name is a regular file, and
      its temporary file is gone. */
  ghost predicate SmoothAt(s: State, i: nat) {
    i in s.calls ==>
      var name := s.calls[i].name;
      match s.calls[i].at
      case Looking => i !in s.temps
      case Making => i !in s.temps
      case Checking(removed) => removed && i !in s.temps && Present(s, name)
      case Unlinking(_) => Present(s, name)
      case Discarding(_) => false
      case Crashed => false
      case Returned(_, ok) => i !in s.temps && Present(s, name) && (ok <==> Regular(s, name))
      case _ => true
  }

  lemma OthersSmooth(contents: map<string, string>, s: State, step: Step, i: nat)
    requires Enabled(contents, s, step) && step.i != i && SmoothAt(s, i) && Harmless(s, Next(contents, s, step), step.i)
    ensures SmoothAt(Next(contents, s, step), i)
  {
    TempsStep(contents, s, step, i);
    hide Next, Enabled;
  }

  lemma TempsStep(contents: map<string, string>, s: State, step: Step, i: nat)
    requires Enabled(contents, s, step)
    ensures i in Next(contents, s, step).temps && i !in s.temps ==> step.Make? && step.i == i
  {
  }

  lemma OwnSmoothLook(contents: map<string, string>, s: State, step: Step)
    requires Inv(contents, s) && Enabled(contents, s, step) && SmoothAt(s, step.i) && Smooth(s, step) && step.Look?
    ensures SmoothAt(Next(contents, s, step), step.i)
  {
    assert CallInv(contents, s, step.i);
  }

  lemma OwnSmoothLast(contents: map<string, string>, s: State, step: Step)
    requires Inv(contents, s) && Enabled(contents, s, step) && SmoothAt(s, step.i) && Smooth(s, step)
    requires step.Link? || step.Remove?
    ensures SmoothAt(Next(contents, s, step), step.i)
  {
    assert CallInv(contents, s, step.i);
  }

  lemma OwnSmooth(contents: map<string, string>, s: State, step: Step)
    requires Inv(contents, s) && Enabled(contents, s, step) && SmoothAt(s, step.i) && Smooth(s, step)
    requires !step.Look? && !step.Link? && !step.Remove?
    requires step.Begin? ==> step.i !in s.temps
    ensures SmoothAt(Next(contents, s, step), step.i)
  {
  }

  /** Only calls that were made have temporary files. */
  lemma {:induction false} TempsOfCalls(contents: map<string, string>, states: seq<State>, steps: seq<Step>, k: nat)
    requires IsRun(contents, states, steps) && k < |states|
    ensures forall i | i in states[k].temps :: i in states[k].calls
  {
    hide Next, Enabled;
    if k > 0 {
      TempsOfCalls(contents, states, steps, k - 1);
      RunStep(contents, states, steps, k - 1);
      forall i | i in states[k].temps ensures i in states[k].calls {
        TempsStep(contents, states[k - 1], steps[k - 1], i);
        CallsStay(contents, states[k - 1], steps[k - 1], i);
      }
    }
  }

  lemma CallsStay(contents: map<string, string>, s: State, step: Step, i: nat)
    requires Enabled(contents, s, step)
    ensures i in s.calls ==> i in Next(contents, s, step).calls
    ensures step.Make? ==> step.i in s.calls
  {
  }

  lemma {:induction false} SmoothRun(contents: map<string, string>, states: seq<State>, steps: seq<Step>, k: nat,
    i: nat)
    requires IsRun(contents, states, steps) && k < |states|
    requires forall m | 0 <= m < |steps| && steps[m].i == i :: Smooth(states[m], steps[m])
    ensures SmoothAt(states[k], i)
  {
    hide *;
    if k == 0 {
      NothingBegun(contents, states, steps, i);
    } else {
      SmoothRun(contents, states, steps, k - 1, i);
      RunStep(contents, states, steps, k - 1);
      RunInv(contents, states, steps, k - 1);
      SmoothStep(contents, states, steps, k - 1, i);
    }
  }

  lemma NothingBegun(contents: map<string, string>, states: seq<State>, steps: seq<Step>, i: nat)
    requires IsRun(contents, states, steps)
    ensures SmoothAt(states[0], i)
  {
    hide Next, Enabled;
  }

  lemma SmoothStep(contents: map<string, string>, states: seq<State>, steps: seq<Step>, k: nat, i: nat)
    requires IsRun(contents, states, steps) && k < |steps| && k < |states| - 1
    requires Enabled(contents, states[k], steps[k]) && Inv(contents, states[k]) && SmoothAt(states[k], i)
    requires steps[k].i == i ==> Smooth(states[k], steps[k])
    ensures SmoothAt(Next(contents, states[k], steps[k]), i)
  {
    hide Next, Inv, SmoothAt, Smooth, Harmless, IsRun;
    InvStep(contents, states[k], steps[k]);
    if steps[k].i != i {
      OthersSmooth(contents, states[k], steps[k], i);
    } else if steps[k].Look? {
      OwnSmoothLook(contents, states[k], steps[k]);
    } else if steps[k].Link? || steps[k].Remove? {
      OwnSmoothLast(contents, states[k], steps[k]);
    } else {
      TempsOfCalls(contents, states, steps, k);
      OwnSmooth(contents, states[k], steps[k]);
    }
  }

  /** A call that met no fault of its own, whatever the others met, succeeds exactly when the name was absent or a
      regular file at the start, and leaves no temporary file. */
  lemma SmoothSucceeds(contents: map<string, string>, states: seq<State>, steps: seq<Step>, k: nat, i: nat)
    requires IsRun(contents, states, steps) && k < |states| && i in states[k].calls && states[k].calls[i].at.Returned?
    requires forall m | 0 <= m < |steps| && steps[m].i == i :: Smooth(states[m], steps[m])
    ensures var name := states[k].calls[i].name;
      states[k].calls[i].at.ok <==> (name in states[0].initial ==> states[0].initial[name].File?)
    ensures i !in states[k].temps
  {
    hide IsRun, Next, Enabled, Smooth;
    SmoothRun(contents, states, steps, k, i);
    RunInv(contents, states, steps, k);
  }

  // ---------- What one initialiser sees of the others ----------

  /** The workspace files as entries of the disk. */
  function Entries(contents: map<string, string>, s: State): Nodes {
    map name | name in s.initial.Keys + s.linked.Keys && NodeAt(contents, s, name).Some? ::
      Target(name) := NodeAt(contents, s, name).value
  }

  lemma EntriesAreNodes(contents: map<string, string>, s: State)
    ensures forall p | p in Entries(contents, s) ::
      p.Target? && NodeAt(contents, s, p.name) == Some(Entries(contents, s)[p])
    ensures forall name | NodeAt(contents, s, name).Some? ::
      Target(name) in Entries(contents, s) && NodeAt(contents, s, name) == Some(Entries(contents, s)[Target(name)])
  {
    var names := s.initial.Keys + s.linked.Keys;
    forall name | NodeAt(contents, s, name).Some? ensures name in names && Target(name) in Entries(contents, s) {}
  }

  /** The nodes a step of a call keeps, and those it adds. */
  lemma StepNodes(contents: map<string, string>, s: State, step: Step, name: string)
    requires Inv(contents, s) && Enabled(contents, s, step)
    ensures var s' := Next(contents, s, step);
      && Inv(contents, s')
      && (name in s.linked ==> name in s'.linked && s'.linked[name] == s.linked[name])
      && (NodeAt(contents, s, name).Some? ==> NodeAt(contents, s', name) == NodeAt(contents, s, name))
      && (name in s'.linked && name !in s.linked ==>
            s'.linked[name] == step.i && NodeAt(contents, s, name).None? && NodeAt(contents, s', name).Some?)
      && (NodeAt(contents, s, name).None? && NodeAt(contents, s', name).Some? ==>
            name in s'.linked && name !in s.linked && name in contents &&
              NodeAt(contents, s', name) == Some(File(FILE_MODE, contents[name])))
  {
    hide Next, Enabled;
    var s' := Next(contents, s, step);
    InvStep(contents, s, step);
    if name in s.linked { assert LinkInv(contents, s, name) && LinkInv(contents, s', name); }
    if name in s'.linked { assert LinkInv(contents, s', name); }
  }

  /** A step of another call is a move that an initialiser reckons with: its complete files come from this protocol. */
  lemma StepIsMove(contents: map<string, string>, s: State, step: Step, me: nat, removals: nat)
    requires Inv(contents, s) && Enabled(contents, s, step) && step.i != me
    ensures var s' := Next(contents, s, step);
      OthersMove(me, contents, Entries(contents, s), Entries(contents, s'), s.linked, s'.linked, removals, removals)
  {
    hide Next, Enabled, Entries, NodeAt, Inv;
    var s' := Next(contents, s, step);
    EntriesAreNodes(contents, s);
    EntriesAreNodes(contents, s');
    var b, a := Entries(contents, s), Entries(contents, s');
    forall p | p in b ensures p.Target? && p in a && a[p] == b[p] { StepNodes(contents, s, step, p.name); }
    forall p | p in a && p !in b
      ensures p.Target? && p.name in contents && a[p] == File(FILE_MODE, contents[p.name])
      ensures p.name in s'.linked && s'.linked[p.name] != me
    {
      assert p == Target(p.name);
      StepNodes(contents, s, step, p.name);
    }
    forall t | t in s.linked ensures t in s'.linked && s'.linked[t] == s.linked[t] { StepNodes(contents, s, step, t); }
    forall t | t in s'.linked && t !in s.linked ensures Target(t) in a && Target(t) !in b && s'.linked[t] != me {
      StepNodes(contents, s, step, t);
    }
  }
}
