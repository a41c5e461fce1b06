/** Starting and closing the HTTP server from any number of goroutines (internal/web/component.go). Each
    step is one critical section or one call into net/http, and the steps interleave freely. */
module WebServer {
  import opened Base

  /** Where one call of Start is: before its context check; before its first critical section; binding; back
      from a failed or a successful bind; rejecting the listener because the server closed meanwhile; about to
      finish after that; about to launch the Serve goroutine; returned. */
  datatype StartAt = Calling | Entering | Binding | BindFailed | Bound | Rejecting | Finishing | Launching
                   | StartReturned(result: StartResult)

  datatype StartResult = Started | Cancelled | AlreadyStarted | ServerClosed | NotBound

  /** Where the Serve goroutine is: serving a listener, sending its error, about to finish, ended. */
  datatype ServeAt = Serving(listener: nat) | Sending | ServeFinishing | ServeEnded

  /** Where one call of Close is: before the once guard; inside it before the critical section, before Shutdown,
      before the forced close, waiting for done, about to leave; returned. */
  datatype CloseAt = Guarding | Marking | ShuttingDown | Forcing | Waiting | Leaving | CloseReturned

  datatype Once = Unused | Running(closer: nat) | Over

  /** The server's fields, its goroutines, and the fate of listeners; the listener bound by call i is called i.
      The flags started and starting carry the call that set them. */
  datatype State = State(
    started: Option<nat>, starting: Option<nat>, closed: bool, once: Once, shutdown: bool,
    doneOnce: bool, doneCloses: nat, slot: nat, sent: nat,
    starts: map<nat, StartAt>, closes: map<nat, CloseAt>, serves: seq<ServeAt>,
    bound: set<nat>, released: set<nat>)

  const INITIAL := State(None, None, false, Unused, false, false, 0, 0, 0, map[], map[], [], {}, {})

  datatype Step =
    | CallStart(i: nat) | CheckContext(i: nat, cancelled: bool) | Enter(i: nat) | Bind(i: nat, ok: bool)
    | ReportBindFailure(i: nat) | Decide(i: nat) | Reject(i: nat) | FinishRejected(i: nat) | Launch(i: nat)
    | ServeReturns(failed: bool) | SendError | ReceiveError | ServeFinishes
    | CallClose(c: nat) | Guard(c: nat) | Mark(c: nat) | Shutdown(c: nat, ok: bool) | Force(c: nat) | Await(c: nat)
    | Leave(c: nat)

  // ---------- The steps ----------

  function At(s: State, i: nat, pc: StartAt): State { s.(starts := s.starts[i := pc]) }

  function CloserAt(s: State, c: nat, pc: CloseAt): State { s.(closes := s.closes[c := pc]) }

  predicate IsAt(s: State, i: nat, pc: StartAt) { i in s.starts && s.starts[i] == pc }

  predicate CloserIs(s: State, c: nat, pc: CloseAt) { c in s.closes && s.closes[c] == pc }

  /** The done channel is closed through its once guard. */
  function Finish(s: State): State {
    if s.doneOnce then s else s.(doneOnce := true, doneCloses := s.doneCloses + 1)
  }

  /** Whether a step can be taken. Sending needs room in the one-slot channel; Serve returns an error
      of its own at any time, and the closed-server error once Shutdown or Close was called. */
  predicate Enabled(s: State, step: Step) {
    match step
    case CallStart(i) => i !in s.starts
    case CheckContext(i, _) => IsAt(s, i, Calling)
    case Enter(i) => IsAt(s, i, Entering)
    case Bind(i, _) => IsAt(s, i, Binding)
    case ReportBindFailure(i) => IsAt(s, i, BindFailed)
    case Decide(i) => IsAt(s, i, Bound)
    case Reject(i) => IsAt(s, i, Rejecting)
    case FinishRejected(i) => IsAt(s, i, Finishing)
    case Launch(i) => IsAt(s, i, Launching)
    case ServeReturns(failed) => |s.serves| > 0 && s.serves[|s.serves| - 1].Serving? && (failed || s.shutdown)
    case SendError => |s.serves| > 0 && s.serves[|s.serves| - 1].Sending? && s.slot == 0
    case ReceiveError => s.slot > 0
    case ServeFinishes => |s.serves| > 0 && s.serves[|s.serves| - 1].ServeFinishing?
    case CallClose(c) => c !in s.closes
    case Guard(c) => CloserIs(s, c, Guarding) && !s.once.Running?
    case Mark(c) => CloserIs(s, c, Marking)
    case Shutdown(c, _) => CloserIs(s, c, ShuttingDown)
    case Force(c) => CloserIs(s, c, Forcing)
    case Await(c) => CloserIs(s, c, Waiting) && s.doneOnce
    case Leave(c) => CloserIs(s, c, Leaving)
  }

  function Last(s: State, pc: ServeAt): State
    requires s.serves != []
  {
    s.(serves := s.serves[|s.serves| - 1 := pc])
  }

  function Next(s: State, step: Step): State
    requires Enabled(s, step)
  {
    match step
    case CallStart(i) => At(s, i, Calling)
    case CheckContext(i, cancelled) => At(s, i, if cancelled then StartReturned(Cancelled) else Entering)
    case Enter(i) =>
      if s.closed then At(s, i, StartReturned(ServerClosed))
      else if s.started.Some? || s.starting.Some? then At(s, i, StartReturned(AlreadyStarted))
      else At(s, i, Binding).(starting := Some(i))
    case Bind(i, ok) => if ok then At(s, i, Bound).(bound := s.bound + {i}) else At(s, i, BindFailed)
    case ReportBindFailure(i) => At(s, i, StartReturned(NotBound)).(starting := None)
    case Decide(i) =>
      if s.closed then At(s, i, Rejecting).(starting := None)
      else At(s, i, Launching).(starting := None, started := Some(i))
    case Reject(i) => At(s, i, Finishing).(released := s.released + {i})
    case FinishRejected(i) => Finish(At(s, i, StartReturned(ServerClosed)))
    case Launch(i) => At(s, i, StartReturned(Started)).(serves := s.serves + [Serving(i)])
    case ServeReturns(failed) =>
      Last(s, if failed then Sending else ServeFinishing)
        .(released := s.released + {s.serves[|s.serves| - 1].listener})
    case SendError => Last(s, ServeFinishing).(slot := s.slot + 1, sent := s.sent + 1)
    case ReceiveError => s.(slot := s.slot - 1)
    case ServeFinishes => Finish(Last(s, ServeEnded))
    case CallClose(c) => CloserAt(s, c, Guarding)
    case Guard(c) =>
      if s.once.Over? then CloserAt(s, c, CloseReturned) else CloserAt(s, c, Marking).(once := Running(c))
    case Mark(c) => CloserAt(s, c, if s.started.Some? then ShuttingDown else Leaving).(closed := true)
    case Shutdown(c, ok) => CloserAt(s, c, if ok then Waiting else Forcing).(shutdown := true)
    case Force(c) => CloserAt(s, c, Waiting)
    case Await(c) => CloserAt(s, c, Leaving)
    case Leave(c) => CloserAt(s, c, CloseReturned).(once := Over)
  }

  // ---------- The invariant ----------

  /** The call is between setting and clearing the starting flag. */
  predicate InFlight(pc: StartAt) { pc.Binding? || pc.BindFailed? || pc.Bound? }

  predicate Holds(pc: StartAt) { pc.Bound? || pc.Rejecting? || pc.Launching? }

  predicate InsideOnce(pc: CloseAt) { !pc.Guarding? && !pc.CloseReturned? }

  /** The starting flag belongs to the one call in flight, and a started server has the call that started it
      about to launch, or one Serve goroutine. */
  ghost predicate StartInv(s: State) {
    && (s.starting.Some? ==> s.starting.value in s.starts && s.started.None?)
    && (forall i | i in s.starts :: InFlight(s.starts[i]) <==> s.starting == Some(i))
    && (s.started.Some? && s.serves == [] ==> s.started.value in s.starts)
    && (forall i | i in s.starts :: s.starts[i].Launching? <==> s.started == Some(i) && s.serves == [])
    && |s.serves| <= 1
    && (s.serves != [] ==> s.started.Some?)
    && (forall i | i in s.starts && (s.starts[i].Rejecting? || s.starts[i].Finishing?) :: s.closed && s.started.None?)
  }

  /** Done is closed at most once, and on a started server only by the goroutine that ended. */
  ghost predicate DoneInv(s: State) {
    && s.doneCloses == (if s.doneOnce then 1 else 0)
    && (s.serves != [] ==> (s.doneOnce <==> s.serves[0].ServeEnded?))
    && (s.doneOnce && s.serves == [] ==> s.closed && s.started.None?)
    && s.slot <= s.sent <= 1
    && (s.sent > 0 ==> s.serves != [] && (s.serves[0].ServeFinishing? || s.serves[0].ServeEnded?))
  }

  /** One call of Close runs the guarded body, and what it waits for is a started, shut down server. */
  ghost predicate CloseInv(s: State) {
    && (s.once.Running? ==> s.once.closer in s.closes)
    && (forall c | c in s.closes :: InsideOnce(s.closes[c]) <==> s.once == Running(c))
    && (s.once.Running? ==>
          var pc := s.closes[s.once.closer];
          && (pc.ShuttingDown? || pc.Forcing? || pc.Waiting? ==> s.started.Some? && s.closed)
          && (pc.Forcing? || pc.Waiting? ==> s.shutdown)
          && (pc.Leaving? ==> s.closed && (s.started.Some? ==> s.doneOnce)))
    && (s.once.Over? ==> s.closed && (s.started.Some? ==> s.doneOnce))
    && (forall c | c in s.closes && s.closes[c].CloseReturned? :: s.once.Over?)
  }

  /** Every bound listener is held by its call, served, or released. */
  ghost predicate ListenerInv(s: State) {
    && (forall i | i in s.starts && Holds(s.starts[i]) :: i in s.bound)
    && (forall i | i in s.bound ::
          i in s.released || (i in s.starts && Holds(s.starts[i])) || s.serves == [Serving(i)])
  }

  ghost predicate Inv(s: State) { StartInv(s) && DoneInv(s) && CloseInv(s) && ListenerInv(s) }

  // ---------- The invariant holds on every interleaving ----------

  predicate Calls(step: Step) { step.CallStart? || step.CheckContext? }

  predicate Binds(step: Step) { step.Enter? || step.Bind? }

  predicate Decides(step: Step) {
    step.ReportBindFailure? || step.Decide? || step.Reject? || step.FinishRejected? || step.Launch?
  }

  predicate Serves(step: Step) { step.ServeReturns? || step.SendError? || step.ReceiveError? || step.ServeFinishes? }

  predicate Closes(step: Step) { !Calls(step) && !Binds(step) && !Decides(step) && !Serves(step) }

  lemma StartInvCalls(s: State, step: Step)
    requires StartInv(s) && Enabled(s, step) && Calls(step)
    ensures StartInv(Next(s, step))
  {
  }

  lemma StartInvEnter(s: State, i: nat)
    requires StartInv(s) && IsAt(s, i, Entering)
    ensures StartInv(Next(s, Enter(i)))
  {
  }

  lemma StartInvBind(s: State, i: nat, ok: bool)
    requires StartInv(s) && IsAt(s, i, Binding)
    ensures StartInv(Next(s, Bind(i, ok)))
  {
  }

  lemma StartInvBinding(s: State, step: Step)
    requires StartInv(s) && Enabled(s, step) && (step.ReportBindFailure? || step.Decide?)
    ensures StartInv(Next(s, step))
  {
  }

  lemma StartInvBound(s: State, step: Step)
    requires StartInv(s) && Enabled(s, step) && (step.Reject? || step.FinishRejected? || step.Launch?)
    ensures StartInv(Next(s, step))
  {
  }

  lemma StartInvDecides(s: State, step: Step)
    requires StartInv(s) && Enabled(s, step) && Decides(step)
    ensures StartInv(Next(s, step))
  {
    hide StartInv, ListenerInv, Next, Enabled;
    if step.ReportBindFailure? || step.Decide? { StartInvBinding(s, step); } else { StartInvBound(s, step); }
  }

  lemma StartInvServes(s: State, step: Step)
    requires StartInv(s) && Enabled(s, step) && Serves(step)
    ensures StartInv(Next(s, step))
  {
  }

  /** Close touches nothing of Start but the closed flag. */
  lemma ClosesKeepStarts(s: State, step: Step)
    requires Enabled(s, step) && Closes(step)
    ensures var s' := Next(s, step);
      && s'.starts == s.starts && s'.started == s.started && s'.starting == s.starting && s'.serves == s.serves
      && (s.closed ==> s'.closed)
  {
  }

  lemma StartInvKept(s: State, s': State)
    requires StartInv(s) && (s.closed ==> s'.closed)
    requires s'.starts == s.starts && s'.started == s.started && s'.starting == s.starting && s'.serves == s.serves
    ensures StartInv(s')
  {
  }

  lemma StartInvCloses(s: State, step: Step)
    requires StartInv(s) && Enabled(s, step) && Closes(step)
    ensures StartInv(Next(s, step))
  {
    hide StartInv, Next, Enabled, Closes;
    ClosesKeepStarts(s, step);
    StartInvKept(s, Next(s, step));
  }

  lemma CloseInvCalls(s: State, step: Step)
    requires StartInv(s) && DoneInv(s) && CloseInv(s) && Enabled(s, step) && Calls(step)
    ensures CloseInv(Next(s, step))
  {
  }

  lemma CloseInvEnter(s: State, i: nat)
    requires StartInv(s) && DoneInv(s) && CloseInv(s) && IsAt(s, i, Entering)
    ensures CloseInv(Next(s, Enter(i)))
  {
  }

  lemma CloseInvBind(s: State, i: nat, ok: bool)
    requires StartInv(s) && DoneInv(s) && CloseInv(s) && IsAt(s, i, Binding)
    ensures CloseInv(Next(s, Bind(i, ok)))
  {
  }

  lemma CloseInvDecides(s: State, step: Step)
    requires StartInv(s) && DoneInv(s) && CloseInv(s) && Enabled(s, step) && Decides(step)
    ensures CloseInv(Next(s, step))
  {
  }

  lemma CloseInvServes(s: State, step: Step)
    requires StartInv(s) && DoneInv(s) && CloseInv(s) && Enabled(s, step) && Serves(step)
    ensures CloseInv(Next(s, step))
  {
  }

  lemma CloseInvEnters(s: State, step: Step)
    requires CloseInv(s) && Enabled(s, step) && (step.CallClose? || step.Guard?)
    ensures CloseInv(Next(s, step))
  {
  }

  lemma CloseInvMarks(s: State, step: Step)
    requires CloseInv(s) && Enabled(s, step) && (step.Mark? || step.Shutdown? || step.Force?)
    ensures CloseInv(Next(s, step))
  {
  }

  lemma CloseInvEnds(s: State, step: Step)
    requires CloseInv(s) && Enabled(s, step) && (step.Await? || step.Leave?)
    ensures CloseInv(Next(s, step))
  {
  }

  lemma CloseInvCloses(s: State, step: Step)
    requires CloseInv(s) && Enabled(s, step) && Closes(step)
    ensures CloseInv(Next(s, step))
  {
    hide CloseInv, Next, Enabled;
    match step {
      case CallClose(_) => CloseInvEnters(s, step);
      case Guard(_) => CloseInvEnters(s, step);
      case Await(_) => CloseInvEnds(s, step);
      case Leave(_) => CloseInvEnds(s, step);
      case _ => CloseInvMarks(s, step);
    }
  }

  lemma ListenerInvCalls(s: State, step: Step)
    requires StartInv(s) && ListenerInv(s) && Enabled(s, step) && Calls(step)
    ensures ListenerInv(Next(s, step))
  {
  }

  lemma ListenerInvEnter(s: State, i: nat)
    requires StartInv(s) && ListenerInv(s) && IsAt(s, i, Entering)
    ensures ListenerInv(Next(s, Enter(i)))
  {
  }

  lemma ListenerInvBind(s: State, i: nat, ok: bool)
    requires StartInv(s) && ListenerInv(s) && IsAt(s, i, Binding)
    ensures ListenerInv(Next(s, Bind(i, ok)))
  {
  }

  lemma ListenerInvBinding(s: State, step: Step)
    requires StartInv(s) && ListenerInv(s) && Enabled(s, step) && (step.ReportBindFailure? || step.Decide?)
    ensures ListenerInv(Next(s, step))
  {
  }

  lemma ListenerInvBound(s: State, step: Step)
    requires StartInv(s) && ListenerInv(s) && Enabled(s, step) && (step.Reject? || step.FinishRejected? || step.Launch?)
    ensures ListenerInv(Next(s, step))
  {
  }

  lemma ListenerInvDecides(s: State, step: Step)
    requires StartInv(s) && ListenerInv(s) && Enabled(s, step) && Decides(step)
    ensures ListenerInv(Next(s, step))
  {
    hide StartInv, ListenerInv, Next, Enabled;
    if step.ReportBindFailure? || step.Decide? { ListenerInvBinding(s, step); } else { ListenerInvBound(s, step); }
  }

  lemma ListenerInvServes(s: State, step: Step)
    requires StartInv(s) && ListenerInv(s) && Enabled(s, step) && Serves(step)
    ensures ListenerInv(Next(s, step))
  {
  }

  lemma ListenerInvCloses(s: State, step: Step)
    requires StartInv(s) && ListenerInv(s) && Enabled(s, step) && Closes(step)
    ensures ListenerInv(Next(s, step))
  {
  }

  /** What the invariant on done looks at, but for the closed flag. */
  ghost predicate SameDone(s: State, s': State) {
    && s'.serves == s.serves && s'.started == s.started && s'.doneOnce == s.doneOnce && s'.doneCloses == s.doneCloses
    && s'.slot == s.slot && s'.sent == s.sent
  }

  lemma DoneInvKept(s: State, s': State)
    requires DoneInv(s) && SameDone(s, s') && (s.closed ==> s'.closed)
    ensures DoneInv(s')
  {
  }

  lemma CallsKeepDone(s: State, step: Step)
    requires Enabled(s, step) && (Calls(step) || Binds(step))
    ensures SameDone(s, Next(s, step)) && Next(s, step).closed == s.closed
  {
  }

  lemma ClosesKeepDone(s: State, step: Step)
    requires Enabled(s, step) && Closes(step)
    ensures SameDone(s, Next(s, step)) && (s.closed ==> Next(s, step).closed)
  {
  }

  lemma DoneInvStarts(s: State, step: Step)
    requires DoneInv(s) && Enabled(s, step) && (Calls(step) || Binds(step))
    ensures DoneInv(Next(s, step))
  {
    hide DoneInv, Next, Enabled, Calls, Binds, SameDone;
    CallsKeepDone(s, step);
    DoneInvKept(s, Next(s, step));
  }

  lemma DoneInvDecides(s: State, step: Step)
    requires StartInv(s) && DoneInv(s) && Enabled(s, step) && Decides(step)
    ensures DoneInv(Next(s, step))
  {
  }

  lemma DoneInvServes(s: State, step: Step)
    requires StartInv(s) && DoneInv(s) && Enabled(s, step) && Serves(step)
    ensures DoneInv(Next(s, step))
  {
  }

  lemma DoneInvCloses(s: State, step: Step)
    requires DoneInv(s) && Enabled(s, step) && Closes(step)
    ensures DoneInv(Next(s, step))
  {
    hide DoneInv, Next, Enabled, Closes, SameDone;
    ClosesKeepDone(s, step);
    DoneInvKept(s, Next(s, step));
  }

  lemma InvStep(s: State, step: Step)
    requires Inv(s) && Enabled(s, step)
    ensures Inv(Next(s, step))
  {
    hide StartInv, DoneInv, CloseInv, ListenerInv, Next;
    if Calls(step) || Binds(step) { DoneInvStarts(s, step); }
    if Decides(step) { DoneInvDecides(s, step); }
    if Calls(step) {
      StartInvCalls(s, step);
      CloseInvCalls(s, step);
      ListenerInvCalls(s, step);
    } else if Binds(step) {
      match step {
        case Enter(i) =>
          StartInvEnter(s, i);
          CloseInvEnter(s, i);
          ListenerInvEnter(s, i);
        case Bind(i, ok) =>
          StartInvBind(s, i, ok);
          CloseInvBind(s, i, ok);
          ListenerInvBind(s, i, ok);
      }
    } else if Decides(step) {
      StartInvDecides(s, step);
      CloseInvDecides(s, step);
      ListenerInvDecides(s, step);
    } else if Serves(step) {
      DoneInvServes(s, step);
      StartInvServes(s, step);
      CloseInvServes(s, step);
      ListenerInvServes(s, step);
    } else {
      DoneInvCloses(s, step);
      StartInvCloses(s, step);
      CloseInvCloses(s, step);
      ListenerInvCloses(s, step);
    }
  }

  /** The states that a sequence of enabled steps visits, the first and the last included. */
  ghost predicate IsRun(states: seq<State>, steps: seq<Step>) {
    && |states| == |steps| + 1 && states[0] == INITIAL
    && forall k | 0 <= k < |steps| :: Enabled(states[k], steps[k]) && states[k + 1] == Next(states[k], steps[k])
  }

  lemma InitialInv()
    ensures Inv(INITIAL)
  {
  }

  lemma RunStep(states: seq<State>, steps: seq<Step>, k: nat)
    requires IsRun(states, steps) && k < |states| - 1
    ensures k < |steps| && Enabled(states[k], steps[k]) && states[k + 1] == Next(states[k], steps[k])
  {
    hide Next, Enabled;
  }

  lemma RunStart(states: seq<State>, steps: seq<Step>)
    requires IsRun(states, steps)
    ensures states[0] == INITIAL
  {
  }

  lemma {:induction false} RunInv(states: seq<State>, steps: seq<Step>, k: nat)
    requires IsRun(states, steps) && k < |states|
    ensures Inv(states[k])
  {
    hide *;
    if k == 0 {
      RunStart(states, steps);
      InitialInv();
    } else {
      RunInv(states, steps, k - 1);
      RunStep(states, steps, k - 1);
      InvStep(states[k - 1], steps[k - 1]);
    }
  }

  // ---------- What every interleaving guarantees ----------

  /** At most one Serve goroutine ever exists, done is closed at most once, sending the one error never
      blocks, every bound listener is served, released or in the hands of its call. */
  lemma RunSafe(states: seq<State>, steps: seq<Step>, k: nat)
    requires IsRun(states, steps) && k < |states|
    ensures var s := states[k];
      && |s.serves| <= 1 && s.doneCloses <= 1
      && (s.serves != [] && s.serves[0].Sending? ==> Enabled(s, SendError))
      && forall i | i in s.bound ::
           i in s.released || s.serves == [Serving(i)] || (i in s.starts && Holds(s.starts[i]))
  {
    hide IsRun;
    RunInv(states, steps, k);
  }

  /** Once all calls have returned, every listener ever bound is being served or was released. */
  lemma NoListenerLeaks(states: seq<State>, steps: seq<Step>, k: nat, i: nat)
    requires IsRun(states, steps) && k < |states|
    requires forall j | j in states[k].starts :: states[k].starts[j].StartReturned?
    requires i in states[k].bound
    ensures i in states[k].released || states[k].serves == [Serving(i)]
  {
    hide IsRun;
    RunSafe(states, steps, k);
  }

  /** After a call of Close has marked the server closed, no call of Start starts it any more. */
  lemma {:induction false} ClosedStaysUnstarted(states: seq<State>, steps: seq<Step>, k: nat, n: nat)
    requires IsRun(states, steps) && k <= n < |states| && states[k].closed
    ensures states[n].closed && states[n].started == states[k].started
  {
    hide *;
    if k < n {
      ClosedStaysUnstarted(states, steps, k, n - 1);
      RunStep(states, steps, n - 1);
      ClosedStep(states[n - 1], steps[n - 1]);
    }
  }

  lemma ClosedStep(s: State, step: Step)
    requires Enabled(s, step) && s.closed
    ensures Next(s, step).closed && Next(s, step).started == s.started
  {
  }

  // ---------- What calls return ----------

  /** What the return of a call of Start says of its listener and of the server. */
  ghost predicate ResultFits(s: State, i: nat)
    requires i in s.starts
  {
    match s.starts[i]
    case StartReturned(Started) =>
      s.started == Some(i) && i in s.bound && s.serves != [] && (s.serves[0] == Serving(i) || i in s.released)
    case StartReturned(ServerClosed) => s.closed && (i in s.bound ==> i in s.released && s.doneOnce)
    case Bound => i in s.bound
    case Rejecting => i in s.bound
    case Finishing => i in s.bound && i in s.released
    case Launching => i in s.bound
    case _ => i !in s.bound
  }

  ghost predicate ResultInv(s: State) {
    && (forall i | i in s.starts :: ResultFits(s, i))
    && (forall i | i in s.bound :: i in s.starts)
    && (s.serves != [] ==> s.started.Some? && IsAt(s, s.started.value, StartReturned(Started)))
    && (s.serves != [] && s.serves[0].Serving? ==> s.started == Some(s.serves[0].listener))
  }

  lemma ResultInvCalls(s: State, step: Step)
    requires StartInv(s) && ResultInv(s) && Enabled(s, step) && Calls(step)
    ensures ResultInv(Next(s, step))
  {
  }

  lemma ResultInvEnter(s: State, i: nat)
    requires StartInv(s) && ResultInv(s) && IsAt(s, i, Entering)
    ensures ResultInv(Next(s, Enter(i)))
  {
  }

  lemma ResultInvBind(s: State, i: nat, ok: bool)
    requires StartInv(s) && ResultInv(s) && IsAt(s, i, Binding)
    ensures ResultInv(Next(s, Bind(i, ok)))
  {
  }

  lemma ResultInvBinding(s: State, step: Step)
    requires StartInv(s) && ResultInv(s) && Enabled(s, step) && (step.ReportBindFailure? || step.Decide?)
    ensures ResultInv(Next(s, step))
  {
  }

  lemma ResultInvBound(s: State, step: Step)
    requires StartInv(s) && ResultInv(s) && Enabled(s, step) && (step.Reject? || step.FinishRejected? || step.Launch?)
    ensures ResultInv(Next(s, step))
  {
  }

  lemma ResultInvServes(s: State, step: Step)
    requires StartInv(s) && ResultInv(s) && Enabled(s, step) && Serves(step)
    ensures ResultInv(Next(s, step))
  {
  }

  /** What the results speak of is left alone, and the server is not opened again. */
  lemma ClosesKeepResults(s: State, step: Step)
    requires Enabled(s, step) && Closes(step)
    ensures var s' := Next(s, step);
      && s'.starts == s.starts && s'.started == s.started && s'.serves == s.serves && s'.bound == s.bound
      && s'.released == s.released && s'.doneOnce == s.doneOnce && (s.closed ==> s'.closed)
  {
  }

  lemma ResultInvCloses(s: State, step: Step)
    requires ResultInv(s) && Enabled(s, step) && Closes(step)
    ensures ResultInv(Next(s, step))
  {
    ClosesKeepResults(s, step);
    hide Next, Enabled;
    assert forall i | i in s.starts :: ResultFits(s, i) ==> ResultFits(Next(s, step), i);
  }

  lemma EnterEnabled(s: State, step: Step)
    requires Enabled(s, step)
    ensures step.Enter? ==> IsAt(s, step.i, Entering)
    ensures step.Bind? ==> IsAt(s, step.i, Binding)
  {
  }

  lemma ResultInvStep(s: State, step: Step)
    requires StartInv(s) && ResultInv(s) && Enabled(s, step)
    ensures ResultInv(Next(s, step))
  {
    hide StartInv, ResultInv, Next, Enabled;
    if Calls(step) {
      ResultInvCalls(s, step);
    } else if step.Enter? {
      EnterEnabled(s, step);
      ResultInvEnter(s, step.i);
    } else if step.Bind? {
      EnterEnabled(s, step);
      ResultInvBind(s, step.i, step.ok);
    } else if step.ReportBindFailure? || step.Decide? {
      ResultInvBinding(s, step);
    } else if Decides(step) {
      ResultInvBound(s, step);
    } else if Serves(step) {
      ResultInvServes(s, step);
    } else {
      ResultInvCloses(s, step);
    }
  }

  lemma InitialResults()
    ensures ResultInv(INITIAL)
  {
  }

  lemma {:induction false} RunResults(states: seq<State>, steps: seq<Step>, k: nat)
    requires IsRun(states, steps) && k < |states|
    ensures ResultInv(states[k]) && StartInv(states[k])
  {
    hide *;
    if k == 0 {
      RunStart(states, steps);
      InitialResults();
      InitialInv();
      InvParts(INITIAL);
    } else {
      RunResults(states, steps, k - 1);
      RunStep(states, steps, k - 1);
      ResultInvStep(states[k - 1], steps[k - 1]);
      RunInv(states, steps, k);
      InvParts(states[k]);
    }
  }

  lemma InvParts(s: State)
    requires Inv(s)
    ensures StartInv(s) && DoneInv(s) && CloseInv(s) && ListenerInv(s)
  {
  }

  /** Only the call whose listener is served, or was until Serve returned, says that it started the server; one that
      says the server is closed is right, and then done is closed if it had bound; every other call that returned has
      no listener. */
  lemma StartResultsMean(states: seq<State>, steps: seq<Step>, k: nat, i: nat)
    requires IsRun(states, steps) && k < |states| && i in states[k].starts && states[k].starts[i].StartReturned?
    ensures var s, result := states[k], states[k].starts[i].result;
      && (result == Started <==> s.started == Some(i) && s.serves != [])
      && (result == Started ==> i in s.bound && (s.serves == [Serving(i)] || i in s.released))
      && (result != Started ==> s.serves != [Serving(i)] && (i in s.bound ==> i in s.released))
      && (result == ServerClosed ==> s.closed && (i in s.bound ==> s.doneOnce))
      && (i in s.bound ==> result == Started || result == ServerClosed)
  {
    hide IsRun;
    RunResults(states, steps, k);
    var s := states[k];
    assert ResultFits(s, i);
    if s.serves != [] { assert s.serves == [s.serves[0]]; }
  }

  /** Where a call of Start may stand from a decision on. */
  predicate Fated(pc: StartAt, result: StartResult) {
    match result
    case NotBound => pc == BindFailed || pc == StartReturned(NotBound)
    case ServerClosed => pc == Rejecting || pc == Finishing || pc == StartReturned(ServerClosed)
    case Started => pc == Launching || pc == StartReturned(Started)
    case _ => pc == StartReturned(result)
  }

  lemma FateCalls(s: State, step: Step, i: nat, result: StartResult)
    requires Enabled(s, step) && i in s.starts && Fated(s.starts[i], result) && (Calls(step) || Binds(step))
    ensures i in Next(s, step).starts && Next(s, step).starts[i] == s.starts[i]
  {
    hide Next;
    OthersStay(s, step, i);
  }

  lemma FateDecides(s: State, step: Step, i: nat, result: StartResult)
    requires Enabled(s, step) && i in s.starts && Fated(s.starts[i], result) && Decides(step)
    ensures i in Next(s, step).starts && Fated(Next(s, step).starts[i], result)
  {
    hide Next, Enabled, Fated;
    OthersStay(s, step, i);
    if step.i == i { FateDecidesOwn(s, step, result); }
  }

  lemma FateDecidesOwn(s: State, step: Step, result: StartResult)
    requires Enabled(s, step) && Decides(step) && step.i in s.starts && Fated(s.starts[step.i], result)
    ensures step.i in Next(s, step).starts && Fated(Next(s, step).starts[step.i], result)
  {
  }

  /** A step of one call of Start leaves the others where they are. */
  lemma OthersStay(s: State, step: Step, i: nat)
    requires Enabled(s, step) && (Calls(step) || Binds(step) || Decides(step)) && i in s.starts
    ensures step.i != i ==> i in Next(s, step).starts && Next(s, step).starts[i] == s.starts[i]
  {
  }

  lemma ServesKeepStarts(s: State, step: Step)
    requires Enabled(s, step) && Serves(step)
    ensures Next(s, step).starts == s.starts
  {
  }

  lemma FateStep(s: State, step: Step, i: nat, result: StartResult)
    requires Enabled(s, step) && i in s.starts && Fated(s.starts[i], result)
    ensures i in Next(s, step).starts && Fated(Next(s, step).starts[i], result)
  {
    hide Next, Enabled, Fated;
    if Calls(step) || Binds(step) {
      FateCalls(s, step, i, result);
    } else if Decides(step) {
      FateDecides(s, step, i, result);
    } else if Serves(step) {
      ServesKeepStarts(s, step);
    } else {
      ClosesKeepStarts(s, step);
    }
  }

  lemma {:induction false} FateStays(states: seq<State>, steps: seq<Step>, k: nat, n: nat, i: nat, result: StartResult)
    requires IsRun(states, steps) && k <= n < |states| && i in states[k].starts && Fated(states[k].starts[i], result)
    ensures i in states[n].starts && Fated(states[n].starts[i], result)
  {
    hide *;
    if k < n {
      FateStays(states, steps, k, n - 1, i, result);
      RunStep(states, steps, n - 1);
      FateStep(states[n - 1], steps[n - 1], i, result);
    }
  }

  /** What a step decides about the result of its call of Start; nothing when it does not. */
  function Decision(s: State, step: Step): Option<(nat, StartResult)> {
    match step
    case CheckContext(i, true) => Some((i, Cancelled))
    case Enter(i) =>
      if s.closed then Some((i, ServerClosed))
      else if s.started.Some? || s.starting.Some? then Some((i, AlreadyStarted)) else None
    case Bind(i, false) => Some((i, NotBound))
    case Decide(i) => Some((i, if s.closed then ServerClosed else Started))
    case _ => None
  }

  lemma DecisionTaken(s: State, step: Step)
    requires Enabled(s, step) && Decision(s, step).Some?
    ensures var (i, result) := Decision(s, step).value;
      i in Next(s, step).starts && Fated(Next(s, step).starts[i], result)
  {
  }

  /** A cancelled context, a closed server, one that is started or starting, and a failed bind each settle for good
      what the call returns; only one that bound and found the server open can say that it started it. */
  lemma StartOutcomes(states: seq<State>, steps: seq<Step>, k: nat, n: nat)
    requires IsRun(states, steps) && k < |steps| && k < n < |states| && Decision(states[k], steps[k]).Some?
    ensures var (i, result) := Decision(states[k], steps[k]).value;
      i in states[n].starts && (states[n].starts[i].StartReturned? ==> states[n].starts[i].result == result)
  {
    hide IsRun, Next, Enabled, Decision;
    RunStep(states, steps, k);
    DecisionTaken(states[k], steps[k]);
    var (i, result) := Decision(states[k], steps[k]).value;
    FateStays(states, steps, k + 1, n, i, result);
  }

  /** After the server is closed, no call but one that had already passed says that it started it. */
  lemma ClosedNeverStarts(states: seq<State>, steps: seq<Step>, k: nat, n: nat, i: nat)
    requires IsRun(states, steps) && k <= n < |states| && states[k].closed && states[k].started != Some(i)
    ensures !IsAt(states[n], i, StartReturned(Started))
  {
    hide IsRun;
    ClosedStaysUnstarted(states, steps, k, n);
    RunResults(states, steps, n);
    if i in states[n].starts { assert ResultFits(states[n], i); }
  }

  /** Once any call of Close has returned, the server is closed, and one that was started has ended: Serve returned,
      done is closed and the listener is released. */
  lemma CloseMeansEnded(states: seq<State>, steps: seq<Step>, k: nat, c: nat)
    requires IsRun(states, steps) && k < |states| && CloserIs(states[k], c, CloseReturned)
    ensures var s := states[k];
      && s.closed
      && (s.started.Some? ==> s.doneOnce && s.serves == [ServeEnded] && s.started.value in s.released)
  {
    hide IsRun;
    RunInv(states, steps, k);
    RunResults(states, steps, k);
    var s := states[k];
    if s.started.Some? {
      assert s.serves == [s.serves[0]];
      assert ResultFits(s, s.started.value);
    }
  }

  lemma ForcedStep(s: State, step: Step, c: nat)
    requires Enabled(s, step) && CloserIs(s, c, Forcing)
    ensures step == Force(c) || CloserIs(Next(s, step), c, Forcing)
  {
  }

  /** A Close whose Shutdown failed closes the server by force before it goes on. */
  lemma {:induction false} ForcedAfterFailure(states: seq<State>, steps: seq<Step>, k: nat, n: nat, c: nat)
    requires IsRun(states, steps) && k < n < |states| && k < |steps| && steps[k] == Shutdown(c, false)
    ensures CloserIs(states[n], c, Forcing) || exists m | k < m < n :: steps[m] == Force(c)
  {
    hide IsRun, Next;
    if n == k + 1 {
      RunStep(states, steps, k);
      ShutdownFailed(states[k], c);
    } else {
      ForcedAfterFailure(states, steps, k, n - 1, c);
      RunStep(states, steps, n - 1);
      if CloserIs(states[n - 1], c, Forcing) { ForcedStep(states[n - 1], steps[n - 1], c); }
    }
  }

  lemma ShutdownFailed(s: State, c: nat)
    requires CloserIs(s, c, ShuttingDown)
    ensures CloserIs(Next(s, Shutdown(c, false)), c, Forcing)
  {
  }

  // ---------- The one error ----------

  function Sends(steps: seq<Step>): nat {
    if steps == [] then 0 else Sends(steps[..|steps| - 1]) + if steps[|steps| - 1].SendError? then 1 else 0
  }

  function Receives(steps: seq<Step>): nat {
    if steps == [] then 0 else Receives(steps[..|steps| - 1]) + if steps[|steps| - 1].ReceiveError? then 1 else 0
  }

  lemma ErrorStep(s: State, step: Step)
    requires Enabled(s, step)
    ensures var s' := Next(s, step);
      && s'.sent == s.sent + (if step.SendError? then 1 else 0)
      && s'.slot == s.slot + (if step.SendError? then 1 else 0) - if step.ReceiveError? then 1 else 0
  {
    hide Next, Enabled;
    if Calls(step) || Binds(step) {
      CallsKeepDone(s, step);
    } else if Decides(step) {
      DecidesKeepErrors(s, step);
    } else if Serves(step) {
      ErrorServes(s, step);
    } else {
      ClosesKeepDone(s, step);
    }
  }

  lemma DecidesKeepErrors(s: State, step: Step)
    requires Enabled(s, step) && Decides(step)
    ensures Next(s, step).sent == s.sent && Next(s, step).slot == s.slot
  {
  }

  lemma ErrorServes(s: State, step: Step)
    requires Enabled(s, step) && Serves(step)
    ensures var s' := Next(s, step);
      && s'.sent == s.sent + (if step.SendError? then 1 else 0)
      && s'.slot == s.slot + (if step.SendError? then 1 else 0) - if step.ReceiveError? then 1 else 0
  {
  }

  /** What was sent is in the channel or was received, each once. */
  lemma {:induction false} ErrorsConserved(states: seq<State>, steps: seq<Step>, k: nat)
    requires IsRun(states, steps) && k < |states|
    ensures k <= |steps| && states[k].sent == Sends(steps[..k]) == states[k].slot + Receives(steps[..k])
  {
    hide Next, Enabled;
    if k > 0 {
      ErrorsConserved(states, steps, k - 1);
      RunStep(states, steps, k - 1);
      ErrorStep(states[k - 1], steps[k - 1]);
      assert steps[..k][..k - 1] == steps[..k - 1];
    }
  }

  /** An error of Serve is about to be sent or was. */
  ghost predicate ErrorOut(s: State) { s.serves != [] && (s.serves[0].Sending? || s.sent == 1) }

  lemma ErrorOutStep(s: State, step: Step)
    requires StartInv(s) && DoneInv(s) && Enabled(s, step) && (ErrorOut(s) || step == ServeReturns(true))
    ensures ErrorOut(Next(s, step))
  {
  }

  /** An error that Serve returned is sent before the server is done, and so once. */
  lemma {:induction false} ErrorIsSent(states: seq<State>, steps: seq<Step>, k: nat, n: nat)
    requires IsRun(states, steps) && k < n < |states| && k < |steps| && steps[k] == ServeReturns(true)
    ensures ErrorOut(states[n]) && (states[n].doneOnce ==> Sends(steps[..n]) == 1)
  {
    hide Next, Enabled, StartInv, CloseInv, ListenerInv, ErrorOut, IsRun, Sends;
    RunInv(states, steps, n - 1);
    RunStep(states, steps, n - 1);
    if n > k + 1 { ErrorIsSent(states, steps, k, n - 1); }
    ErrorOutStep(states[n - 1], steps[n - 1]);
    RunInv(states, steps, n);
    ErrorsConserved(states, steps, n);
    if states[n].doneOnce { DoneMeansSent(states[n]); }
  }

  lemma DoneMeansSent(s: State)
    requires DoneInv(s) && ErrorOut(s) && s.doneOnce
    ensures s.sent == 1
  {
  }

  // ---------- No Close waits for ever ----------

  /** How many steps of the launching call and the Serve goroutine are left until done is closed. */
  function Remaining(s: State): nat {
    if s.doneOnce then 0
    else if s.serves == [] then 4
    else match s.serves[0]
         case Serving(_) => 3
         case Sending => 2
         case ServeFinishing => 1
         case ServeEnded => 0
  }

  /** The next step towards closing done. */
  function Towards(s: State): Step {
    if s.serves == [] then Launch(if s.started.Some? then s.started.value else 0)
    else match s.serves[0]
         case Serving(_) => ServeReturns(false)
         case Sending => SendError
         case _ => ServeFinishes
  }

  /** While a Close waits for done, either done is closed and the wait can end, or a step of the launching
      call or the Serve goroutine is enabled and brings done closer. */
  lemma WaitingProgresses(states: seq<State>, steps: seq<Step>, k: nat, c: nat)
    requires IsRun(states, steps) && k < |states| && CloserIs(states[k], c, Waiting)
    ensures var s := states[k];
      if s.doneOnce then Enabled(s, Await(c))
      else Enabled(s, Towards(s)) && Remaining(Next(s, Towards(s))) < Remaining(s)
  {
    hide IsRun;
    RunInv(states, steps, k);
  }

  /** No step of anyone takes done further away. */
  lemma RemainingNeverGrows(s: State, step: Step)
    requires StartInv(s) && DoneInv(s) && Enabled(s, step)
    ensures Remaining(Next(s, step)) <= Remaining(s)
  {
  }

  /** The step towards done is left as it was, or something came closer. */
  ghost predicate TowardsKept(s: State, s': State) {
    || Remaining(s') < Remaining(s)
    || (s'.shutdown && !s'.doneOnce && Towards(s') == Towards(s) && Enabled(s', Towards(s)))
  }

  lemma CallsKeepTowards(s: State, step: Step)
    requires StartInv(s) && DoneInv(s) && Enabled(s, step) && (Calls(step) || Binds(step))
    requires s.started.Some? && s.shutdown && !s.doneOnce
    ensures TowardsKept(s, Next(s, step))
  {
  }

  lemma ServesKeepTowards(s: State, step: Step)
    requires StartInv(s) && DoneInv(s) && Enabled(s, step) && (Decides(step) || Serves(step))
    requires s.started.Some? && s.shutdown && !s.doneOnce
    ensures TowardsKept(s, Next(s, step))
  {
  }

  lemma ClosesKeepTowards(s: State, step: Step)
    requires StartInv(s) && DoneInv(s) && Enabled(s, step) && Closes(step)
    requires s.started.Some? && s.shutdown && !s.doneOnce
    ensures TowardsKept(s, Next(s, step))
  {
  }

  /** On a started server that was shut down, a step of anyone either brings done closer or leaves the step towards
      it enabled: what a waiting Close needs is never taken away. */
  lemma TowardsPersists(s: State, step: Step)
    requires Inv(s) && Enabled(s, step) && s.started.Some? && s.shutdown && !s.doneOnce
    ensures TowardsKept(s, Next(s, step))
  {
    hide StartInv, DoneInv, CloseInv, ListenerInv, Next, Enabled, TowardsKept;
    if Calls(step) || Binds(step) {
      CallsKeepTowards(s, step);
    } else if Decides(step) || Serves(step) {
      ServesKeepTowards(s, step);
    } else {
      ClosesKeepTowards(s, step);
    }
  }

  /** The next step of the call that runs inside the once guard. */
  function OwnStep(pc: CloseAt, c: nat): Step {
    match pc
    case Marking => Mark(c)
    case ShuttingDown => Shutdown(c, true)
    case Forcing => Force(c)
    case Waiting => Await(c)
    case _ => Leave(c)
  }

  /** A call of Close that the once guard holds back waits for one other call, which can take its own
      next step unless it waits for done itself. */
  lemma GuardedProgresses(states: seq<State>, steps: seq<Step>, k: nat, c: nat)
    requires IsRun(states, steps) && k < |states|
    requires CloserIs(states[k], c, Guarding) && !Enabled(states[k], Guard(c))
    ensures var s := states[k];
      && s.once.Running? && s.once.closer in s.closes && s.once.closer != c
      && var pc := s.closes[s.once.closer];
      && (!pc.Waiting? || s.doneOnce ==> Enabled(s, OwnStep(pc, s.once.closer)))
  {
    hide IsRun;
    RunInv(states, steps, k);
  }
}
