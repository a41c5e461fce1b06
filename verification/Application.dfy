/** One process: components started in registration order, a wait for the end, and one orderly shutdown
    (internal/app/application.go). */
module Application {
  import opened Base

  /** What a component's error channel delivers: a value, which may be nil, or the news that it was closed. */
  datatype Delivery = Value(error: Option<Error>) | ChannelClosed

  /** A registered component: nil, one without an error channel, or one with everything its channel delivers. */
  datatype Component = NilComponent | Silent | Source(deliveries: seq<Delivery>)

  datatype Event =
    | Start(component: nat, fault: Option<Error>)
    | RootChecked(ended: bool)
    | Ready(ready: bool)
    | Stopped
    | Close(component: nat, fault: Option<Error>)
    | DeadlineChecked(expired: bool)

  const CANCELED := Cause("context canceled", None, None)
  const SERVER_CLOSED := Cause("http: Server closed", None, None)
  const DEADLINE_EXCEEDED := Cause("context deadline exceeded", None, None)
  const NIL_COMPONENT := Cause("start component: nil component", None, None)

  function Optional<T>(o: Option<T>): seq<T> {
    match o case None => [] case Some(x) => [x]
  }

  // ---------- Joined errors ----------

  function JoinAll(errors: seq<Error>): Option<Error> {
    if errors == [] then None
    else match JoinAll(errors[..|errors| - 1])
      case None => Some(errors[|errors| - 1])
      case Some(first) => Some(Joined(first, errors[|errors| - 1]))
  }

  /** One of the errors matches the cause. */
  ghost predicate Among(errors: seq<Error>, cause: Error) {
    exists e | e in errors :: Carries(e, cause)
  }

  lemma AmongConcat(a: seq<Error>, b: seq<Error>, cause: Error)
    ensures Among(a + b, cause) <==> Among(a, cause) || Among(b, cause)
  {
    assert forall e :: e in a + b <==> e in a || e in b;
  }

  lemma CarriesJoined(first: Error, second: Error, cause: Error)
    requires cause.Cause?
    ensures Carries(Joined(first, second), cause) <==> Carries(first, cause) || Carries(second, cause)
  {
  }

  lemma AmongOne(e: Error, cause: Error)
    ensures Among([e], cause) <==> Carries(e, cause)
  {
    assert e in [e];
  }

  lemma JoinAllAppend(front: seq<Error>, last: Error)
    ensures JoinAll(front + [last]) == Some(if JoinAll(front).Some? then Joined(JoinAll(front).value, last) else last)
  {
    assert (front + [last])[..|front|] == front;
  }

  lemma NoneAmongNone(cause: Error)
    ensures !Among([], cause) && JoinAll([]).None?
  {
  }

  /** A joined error is there exactly when something was collected, and it matches exactly the causes that
      something collected matches. */
  lemma {:induction false} JoinAllMatches(errors: seq<Error>, cause: Error)
    requires cause.Cause?
    ensures JoinAll(errors).None? <==> errors == []
    ensures (JoinAll(errors).Some? && Carries(JoinAll(errors).value, cause)) <==> Among(errors, cause)
  {
    hide JoinAll, Among, Carries;
    NoneAmongNone(cause);
    if errors != [] {
      var front, last := errors[..|errors| - 1], errors[|errors| - 1];
      JoinAllMatches(front, cause);
      assert errors == front + [last];
      JoinAllAppend(front, last);
      AmongConcat(front, [last], cause);
      AmongOne(last, cause);
      if front != [] { CarriesJoined(JoinAll(front).value, last, cause); }
    }
  }

  // ---------- Waiting ----------

  /** A nil value and the error of a server closed on purpose end nothing, and nor does a closed channel. */
  predicate Ignored(d: Delivery) {
    d.ChannelClosed? || d.error.None? || Carries(d.error.value, SERVER_CLOSED)
  }

  /** The deliveries of one source, in order. */
  function From(received: seq<(nat, Delivery)>, source: nat): seq<Delivery> {
    if received == [] then []
    else
      var (s, d) := received[|received| - 1];
      From(received[..|received| - 1], source) + if s == source then [d] else []
  }

  lemma FromAppend(received: seq<(nat, Delivery)>, s: nat, d: Delivery, source: nat)
    ensures From(received + [(s, d)], source) == From(received, source) + if s == source then [d] else []
  {
    assert (received + [(s, d)])[..|received|] == received;
  }

  function Script(components: seq<Component>, i: nat): seq<Delivery> {
    if i < |components| && components[i].Source? then components[i].deliveries else []
  }

  /** Each source was heard in order, and not again after its channel closed. */
  ghost predicate Heard(components: seq<Component>, received: seq<(nat, Delivery)>) {
    && (forall k | 0 <= k < |received| :: received[k].0 < |components|)
    && forall i: nat | i < |components| :: HeardFrom(Script(components, i), From(received, i))
  }

  ghost predicate HeardFrom(script: seq<Delivery>, heard: seq<Delivery>) {
    heard <= script && forall k | 0 <= k < |heard| - 1 :: !heard[k].ChannelClosed?
  }

  /** How many deliveries the sources have left. */
  function Left(components: seq<Component>, taken: seq<nat>): nat
    requires |taken| <= |components|
    requires forall i | 0 <= i < |taken| :: taken[i] <= |Script(components, i)|
  {
    if taken == [] then 0
    else
      var i := |taken| - 1;
      Left(components, taken[..i]) + |Script(components, i)| - taken[i]
  }

  lemma {:induction false} LeftDrops(components: seq<Component>, taken: seq<nat>, i: nat)
    requires i < |taken| <= |components|
    requires forall j | 0 <= j < |taken| :: taken[j] <= |Script(components, j)|
    requires taken[i] < |Script(components, i)|
    ensures Left(components, taken[i := taken[i] + 1]) == Left(components, taken) - 1
  {
    var last := |taken| - 1;
    var after := taken[i := taken[i] + 1];
    if i == last {
      assert after[..last] == taken[..last];
    } else {
      LeftDrops(components, taken[..last], i);
      assert after[..last] == taken[..last][i := taken[i] + 1];
    }
  }

  /** How waiting ended: with the first delivery that is not to be ignored, or, when the root context ended
      before one was received, with nothing. */
  ghost predicate EndedBy(received: seq<(nat, Delivery)>, trigger: Option<Error>) {
    match trigger
    case None => forall k | 0 <= k < |received| :: Ignored(received[k].1)
    case Some(error) =>
      && received != []
      && (forall k | 0 <= k < |received| - 1 :: Ignored(received[k].1))
      && !Ignored(received[|received| - 1].1)
      && error == TerminalError(received[|received| - 1].1.error.value)
  }

  function TerminalError(cause: Error): Error { Wrapped("terminal component", Text(cause), Some(cause)) }

  /** What a wait that heard so much ended with: the error delivered last, if it is not to be ignored. */
  function Ended(received: seq<(nat, Delivery)>): Option<Error> {
    if received == [] || Ignored(received[|received| - 1].1) then None
    else Some(TerminalError(received[|received| - 1].1.error.value))
  }

  lemma EndedByUnique(received: seq<(nat, Delivery)>, trigger: Option<Error>)
    requires EndedBy(received, trigger)
    ensures trigger == Ended(received)
  {
  }

  /** While waiting: what was taken from each source is what was heard of it, and open sources have not closed. */
  ghost predicate Listening(components: seq<Component>, live: seq<bool>, taken: seq<nat>,
    received: seq<(nat, Delivery)>) {
    && |live| == |taken| == |components|
    && (forall i: nat | i < |taken| ::
          taken[i] <= |Script(components, i)| && From(received, i) == Script(components, i)[..taken[i]])
    && (forall i: nat | i < |live| && live[i] :: NotClosed(From(received, i)))
    && Heard(components, received)
    && EndedBy(received, None)
  }

  ghost predicate NotClosed(heard: seq<Delivery>) {
    forall k | 0 <= k < |heard| :: !heard[k].ChannelClosed?
  }

  /** The delivery ends the wait. */
  ghost predicate Decisive(components: seq<Component>, trigger: Option<Error>) {
    exists i: nat, d | i < |components| && d in Script(components, i) ::
      !Ignored(d) && trigger == Some(TerminalError(d.error.value))
  }

  lemma ListeningStep(components: seq<Component>, live: seq<bool>, taken: seq<nat>, received: seq<(nat, Delivery)>,
    i: nat)
    requires Listening(components, live, taken, received)
    requires i < |components| && live[i] && taken[i] < |Script(components, i)|
    ensures var d := Script(components, i)[taken[i]];
      var after := received + [(i, d)];
      && Heard(components, after)
      && (Ignored(d) ==> Listening(components, live[i := !d.ChannelClosed?], taken[i := taken[i] + 1], after))
  {
    hide Script, From, Ignored;
    var d := Script(components, i)[taken[i]];
    var after := received + [(i, d)];
    assert Script(components, i)[..taken[i] + 1] == Script(components, i)[..taken[i]] + [d];
    forall j: nat | j < |components|
      ensures From(after, j) == Script(components, j)[..taken[i := taken[i] + 1][j]]
      ensures HeardFrom(Script(components, j), From(after, j))
      ensures live[j] && (j == i ==> !d.ChannelClosed?) ==> NotClosed(From(after, j))
    {
      FromAppend(received, i, d, j);
    }
  }

  lemma ListeningEnds(components: seq<Component>, received: seq<(nat, Delivery)>, i: nat, d: Delivery)
    requires EndedBy(received, None) && i < |components| && d in Script(components, i) && !Ignored(d)
    ensures d.Value? && d.error.Some?
    ensures EndedBy(received + [(i, d)], Some(TerminalError(d.error.value)))
    ensures Decisive(components, Some(TerminalError(d.error.value)))
  {
  }

  lemma ListeningHeard(components: seq<Component>, live: seq<bool>, taken: seq<nat>, received: seq<(nat, Delivery)>)
    requires Listening(components, live, taken, received)
    ensures Heard(components, received) && EndedBy(received, None)
  {
  }

  lemma ListeningStarts(components: seq<Component>)
    ensures var live, taken: seq<nat> := seq(|components|, i => true), seq(|components|, i => 0);
      Listening(components, live, taken, [])
  {
  }

  method WaitForTermination(components: seq<Component>)
    returns (trigger: Option<Error>, ghost received: seq<(nat, Delivery)>)
    ensures Heard(components, received) && EndedBy(received, trigger)
    ensures trigger.Some? ==> Decisive(components, trigger)
  {
    hide *;
    received, trigger := [], None;
    var live, taken: seq<nat> := seq(|components|, i => true), seq(|components|, i => 0);
    ListeningStarts(components);
    while true
      invariant |live| == |taken| == |components| && Listening(components, live, taken, received)
      invariant forall i: nat | i < |taken| :: taken[i] <= |Script(components, i)|
      decreases Left(components, taken)
    {
      ListeningHeard(components, live, taken, received);
      var chosen: int := *;
      if !(0 <= chosen < |components| && live[chosen] && taken[chosen] < |Script(components, chosen)|) { return; }
      var delivery := Script(components, chosen)[taken[chosen]];
      ListeningStep(components, live, taken, received, chosen);
      LeftDrops(components, taken, chosen);
      if !Ignored(delivery) {
        ListeningEnds(components, received, chosen, delivery);
        return Some(TerminalError(delivery.error.value)), received + [(chosen, delivery)];
      }
      received, taken := received + [(chosen, delivery)], taken[chosen := taken[chosen] + 1];
      live := live[chosen := !delivery.ChannelClosed?];
    }
  }

  // ---------- What a run does ----------

  /** Why the starting and waiting of a run was over. */
  datatype Halt = MetNil | StartFault(error: Error, rootCanceled: bool) | Waited(received: seq<(nat, Delivery)>)

  /** The error a shutdown starts from; a start that failed because the root context had ended is none. */
  function Trigger(halt: Halt): Option<Error> {
    match halt
    case MetNil => Some(NIL_COMPONENT)
    case StartFault(error, rootCanceled) =>
      if rootCanceled && Carries(error, CANCELED) then None
      else Some(Wrapped("start component", Text(error), Some(error)))
    case Waited(received) => Ended(received)
  }

  function Indices(n: nat): (s: seq<nat>)
    ensures |s| == n && forall i | 0 <= i < n :: s[i] == i
  {
    seq(n, i => i)
  }

  function Starts(n: nat): seq<Event> {
    seq(n, i requires 0 <= i < n => Start(i, None))
  }

  /** Closing started components from the last to the first; the k-th close answered with the k-th fault. */
  function Closes(started: seq<nat>, faults: seq<Option<Error>>): seq<Event>
    requires |faults| <= |started|
  {
    seq(|faults|, k requires 0 <= k < |faults| => Close(started[|started| - 1 - k], faults[k]))
  }

  function CloseErrors(faults: seq<Option<Error>>): seq<Error> {
    if faults == [] then []
    else CloseErrors(faults[..|faults| - 1]) + match faults[|faults| - 1]
      case None => []
      case Some(e) => [Wrapped("close component", Text(e), Some(e))]
  }

  /** The answers to a shutdown: of each Close, in closing order, and of its deadline. */
  datatype Closing = Closing(faults: seq<Option<Error>>, expired: bool)

  function Collected(trigger: Option<Error>, closing: Closing): seq<Error> {
    Optional(trigger) + CloseErrors(closing.faults) + Lateness(closing.expired)
  }

  function Lateness(expired: bool): seq<Error> {
    if expired then [DEADLINE_EXCEEDED] else []
  }

  function Announce(observed: bool, ready: bool): seq<Event> {
    if observed then [Ready(ready)] else []
  }

  /** What comes after the starts of components that succeeded. */
  function RiseEnd(observed: bool, n: nat, halt: Halt): seq<Event> {
    match halt
    case MetNil => []
    case StartFault(error, rootCanceled) => [Start(n, Some(error)), RootChecked(rootCanceled)]
    case Waited(_) => Announce(observed, true)
  }

  /** Starting and waiting: n components started, and what halted it. */
  function Rise(observed: bool, n: nat, halt: Halt): seq<Event> {
    Starts(n) + RiseEnd(observed, n, halt)
  }

  /** Shutting down, which a second run does not do again. */
  function Fall(observed: bool, started: seq<nat>, closing: Option<Closing>): seq<Event>
    requires closing.Some? ==> |closing.value.faults| == |started|
  {
    if closing.None? then []
    else Announce(observed, false) + Closes(started, closing.value.faults) + [DeadlineChecked(closing.value.expired)]
  }

  /** The components before the n-th are not nil, and the halt fits the n-th, or the end of the components. */
  ghost predicate Risen(components: seq<Component>, n: nat, halt: Halt) {
    && n <= |components|
    && (forall i | 0 <= i < n :: !components[i].NilComponent?)
    && (halt.Waited? <==> n == |components|)
    && (n < |components| ==> (halt.MetNil? <==> components[n].NilComponent?))
    && (halt.Waited? ==> Heard(components, halt.received) && EndedBy(halt.received, Ended(halt.received)))
  }

  function RunEvents(observed: bool, n: nat, halt: Halt, started: seq<nat>, closing: Option<Closing>): seq<Event>
    requires closing.Some? ==> |closing.value.faults| == |started|
  {
    Rise(observed, n, halt) + [Stopped] + Fall(observed, started, closing)
  }

  lemma RiseWaited(components: seq<Component>, observed: bool, n: nat, trigger: Option<Error>,
    received: seq<(nat, Delivery)>)
    requires n == |components| && forall i | 0 <= i < n :: !components[i].NilComponent?
    requires Heard(components, received) && EndedBy(received, trigger)
    ensures Risen(components, n, Waited(received)) && Trigger(Waited(received)) == trigger
    ensures Rise(observed, n, Waited(received)) == Starts(n) + Announce(observed, true)
  {
    EndedByUnique(received, trigger);
  }

  lemma FallParts(observed: bool, started: seq<nat>, faults: seq<Option<Error>>)
    ensures Fall(observed, started, None) == []
    ensures |faults| == |started| ==> forall expired ::
      Fall(observed, started, Some(Closing(faults, expired))) == Announce(observed, false) + Closes(started, faults) +
        [DeadlineChecked(expired)]
  {
  }

  lemma CollectedParts(trigger: Option<Error>, closing: Closing)
    ensures Collected(trigger, closing) == Optional(trigger) + CloseErrors(closing.faults) + Lateness(closing.expired)
  {
  }

  lemma RunEventsParts(observed: bool, n: nat, halt: Halt, started: seq<nat>, closing: Option<Closing>)
    requires closing.Some? ==> |closing.value.faults| == |started|
    ensures RunEvents(observed, n, halt, started, closing) == Rise(observed, n, halt) + [Stopped] +
      Fall(observed, started, closing)
  {
  }

  class Application {
    const components: seq<Component>
    const observed: bool
    var started: seq<nat>
    var shutdownOnce: bool
    var shutdownErr: Option<Error>
    ghost var trace: seq<Event>

    constructor (components: seq<Component>, observed: bool)
      ensures this.components == components && this.observed == observed
      ensures started == [] && !shutdownOnce && trace == []
    {
      this.components, this.observed := components, observed;
      started, shutdownOnce, shutdownErr, trace := [], false, None, [];
    }

    method StartComponent(i: nat) returns (fault: Option<Error>)
      modifies `trace
      ensures trace == old(trace) + [Start(i, fault)]
    {
      fault := *;
      trace := trace + [Start(i, fault)];
    }

    method CloseComponent(i: nat) returns (fault: Option<Error>)
      modifies `trace
      ensures trace == old(trace) + [Close(i, fault)]
    {
      fault := *;
      trace := trace + [Close(i, fault)];
    }

    method RootEnded() returns (ended: bool)
      modifies `trace
      ensures trace == old(trace) + [RootChecked(ended)]
    {
      ended := *;
      trace := trace + [RootChecked(ended)];
    }

    method DeadlineExpired() returns (expired: bool)
      modifies `trace
      ensures trace == old(trace) + [DeadlineChecked(expired)]
    {
      expired := *;
      trace := trace + [DeadlineChecked(expired)];
    }

    method SetReady(ready: bool)
      modifies `trace
      ensures trace == old(trace) + Announce(observed, ready)
    {
      if observed { trace := trace + [Ready(ready)]; }
    }

    /** Starts components in order until one is nil or fails; the root context may have ended by then. */
    method StartComponents() returns (halt: Option<Halt>, ghost n: nat)
      modifies `started, `trace
      ensures started == old(started) + Indices(n)
      ensures n <= |components| && forall i | 0 <= i < n :: !components[i].NilComponent?
      ensures match halt
        case None => n == |components| && trace == old(trace) + Starts(n)
        case Some(h) => Risen(components, n, h) && !h.Waited? && trace == old(trace) + Rise(observed, n, h)
    {
      for i := 0 to |components|
        invariant started == old(started) + Indices(i) && trace == old(trace) + Starts(i)
        invariant forall j | 0 <= j < i :: !components[j].NilComponent?
      {
        if components[i].NilComponent? { return Some(MetNil), i; }
        var fault := StartComponent(i);
        if fault.Some? {
          var rootCanceled := RootEnded();
          return Some(StartFault(fault.value, rootCanceled)), i;
        }
        started := started + [i];
        assert Indices(i + 1) == Indices(i) + [i] && Starts(i + 1) == Starts(i) + [Start(i, None)];
      }
      return None, |components|;
    }

    /** Closes what was started, last first, whatever each Close answers. */
    method CloseStarted() returns (errs: seq<Error>, ghost faults: seq<Option<Error>>)
      modifies `trace
      ensures |faults| == |started| && errs == CloseErrors(faults)
      ensures trace == old(trace) + Closes(started, faults)
    {
      errs, faults := [], [];
      NothingClosed(started);
      hide CloseErrors, Closes, Text;
      var index := |started|;
      while index > 0
        invariant 0 <= index <= |started| && |faults| == |started| - index
        invariant trace == old(trace) + Closes(started, faults)
        invariant errs == CloseErrors(faults)
      {
        index := index - 1;
        var fault := CloseComponent(started[index]);
        if fault.Some? {
          errs := errs + [Wrapped("close component", Text(fault.value), fault)];
        }
        CloseErrorsAppend(faults, fault);
        ClosesAppend(started, faults, fault);
        faults := faults + [fault];
      }
    }

    /** Shuts down what was started and keeps the joined errors; all that only once. */
    method Shutdown(trigger: Option<Error>) returns (err: Option<Error>, ghost closing: Option<Closing>)
      modifies `shutdownOnce, `shutdownErr, `trace
      ensures shutdownOnce && err == shutdownErr
      ensures closing.None? <==> old(shutdownOnce)
      ensures closing.Some? ==> |closing.value.faults| == |started|
      ensures trace == old(trace) + Fall(observed, started, closing)
      ensures err == if closing.None? then old(shutdownErr) else JoinAll(Collected(trigger, closing.value))
    {
      hide *;
      if shutdownOnce {
        FallParts(observed, started, []);
        return shutdownErr, None;
      }
      shutdownOnce := true;
      ghost var past := trace;
      SetReady(false);
      var closeErrs;
      ghost var faults;
      closeErrs, faults := CloseStarted();
      var expired := DeadlineExpired();
      closing := Some(Closing(faults, expired));
      FallParts(observed, started, faults);
      var errs := Optional(trigger) + closeErrs + Lateness(expired);
      CollectedParts(trigger, closing.value);
      shutdownErr := JoinAll(errs);
      err := shutdownErr;
      assert trace == past + Fall(observed, started, closing);
    }

    /** One whole run. */
    method Run() returns (err: Option<Error>, ghost n: nat, ghost halt: Halt, ghost closing: Option<Closing>)
      modifies `started, `shutdownOnce, `shutdownErr, `trace
      ensures Risen(components, n, halt) && started == old(started) + Indices(n)
      ensures closing.None? <==> old(shutdownOnce)
      ensures closing.Some? ==> |closing.value.faults| == |started|
      ensures trace == old(trace) + RunEvents(observed, n, halt, started, closing)
      ensures shutdownOnce && err == shutdownErr
      ensures err == if closing.None? then old(shutdownErr) else JoinAll(Collected(Trigger(halt), closing.value))
      ensures closing.Some? ==>
        (err.None? <==> Untroubled(components, trace[|old(trace)|..], HeardIn(halt)))
      ensures closing.Some? ==> forall cause: Error | cause.Cause? ::
        (err.Some? && Carries(err.value, cause)) <==> Blamed(components, trace[|old(trace)|..], HeardIn(halt), cause)
    {
      hide *;
      ghost var past := trace;
      var stopped;
      stopped, n := StartComponents();
      var trigger;
      if stopped.Some? {
        halt, trigger := stopped.value, Trigger(stopped.value);
      } else {
        SetReady(true);
        ghost var received;
        trigger, received := WaitForTermination(components);
        halt := Waited(received);
        RiseWaited(components, observed, n, trigger, received);
        assert trace == old(trace) + Rise(observed, n, halt);
      }
      assert trace == old(trace) + Rise(observed, n, halt);
      trace := trace + [Stopped];
      err, closing := Shutdown(trigger);
      RunEventsParts(observed, n, halt, started, closing);
      assert past + (trace[|past|..]) == trace && trace == past + RunEvents(observed, n, halt, started, closing);
      assert trace[|past|..] == RunEvents(observed, n, halt, started, closing);
      if closing.Some? {
        NothingIsLost(components, observed, n, halt, started, closing.value, Cause("", None, None));
        forall cause: Error | cause.Cause?
          ensures (err.Some? && Carries(err.value, cause)) <==>
            Blamed(components, trace[|old(trace)|..], HeardIn(halt), cause)
        {
          NothingIsLost(components, observed, n, halt, started, closing.value, cause);
        }
      }
    }
  }

  // ---------- The order of a run ----------

  /** The components that started, in order. */
  function Opened(run: seq<Event>): seq<nat> {
    if run == [] then []
    else
      var e := run[|run| - 1];
      Opened(run[..|run| - 1]) + if e.Start? && e.fault.None? then [e.component] else []
  }

  /** The components that were closed, in order. */
  function Shut(run: seq<Event>): seq<nat> {
    if run == [] then []
    else
      var e := run[|run| - 1];
      Shut(run[..|run| - 1]) + if e.Close? then [e.component] else []
  }

  function Reverse(s: seq<nat>): (r: seq<nat>)
    ensures |r| == |s| && forall k | 0 <= k < |s| :: r[k] == s[|s| - 1 - k]
  {
    seq(|s|, k requires 0 <= k < |s| => s[|s| - 1 - k])
  }

  lemma {:induction false} OpenedConcat(a: seq<Event>, b: seq<Event>)
    ensures Opened(a + b) == Opened(a) + Opened(b) && Shut(a + b) == Shut(a) + Shut(b)
  {
    if b == [] {
      assert a + b == a;
    } else {
      var c, e := b[..|b| - 1], b[|b| - 1];
      assert (a + b)[..|a + b| - 1] == a + c && (a + b)[|a + b| - 1] == e;
      OpenedConcat(a, c);
    }
  }

  lemma {:induction false} OpenedStarts(n: nat)
    ensures Opened(Starts(n)) == Indices(n) && Shut(Starts(n)) == []
  {
    if n == 0 {
    } else {
      OpenedStarts(n - 1);
      assert Starts(n)[..n - 1] == Starts(n - 1) && Indices(n) == Indices(n - 1) + [n - 1];
    }
  }

  lemma {:induction false} ShutCloses(started: seq<nat>, faults: seq<Option<Error>>)
    requires |faults| <= |started|
    ensures Opened(Closes(started, faults)) == [] && Shut(Closes(started, faults)) == Reverse(started)[..|faults|]
  {
    if faults == [] {
    } else {
      var front := faults[..|faults| - 1];
      ShutCloses(started, front);
      assert Closes(started, faults)[..|front|] == Closes(started, front);
      assert Reverse(started)[..|faults|] == Reverse(started)[..|front|] + [Reverse(started)[|front|]];
    }
  }

  lemma OpenedShort(e: Event)
    ensures Opened([e]) == (if e.Start? && e.fault.None? then [e.component] else [])
    ensures Shut([e]) == (if e.Close? then [e.component] else [])
  {
    assert [e][..0] == [];
  }

  lemma OpenedAnnounce(observed: bool, ready: bool)
    ensures Opened(Announce(observed, ready)) == [] && Shut(Announce(observed, ready)) == []
  {
    OpenedShort(Ready(ready));
  }

  lemma OpenedRiseEnd(observed: bool, n: nat, halt: Halt)
    ensures Opened(RiseEnd(observed, n, halt)) == [] && Shut(RiseEnd(observed, n, halt)) == []
  {
    OpenedAnnounce(observed, true);
    if halt.StartFault? {
      var start, checked := Start(n, Some(halt.error)), RootChecked(halt.rootCanceled);
      OpenedShort(start);
      OpenedShort(checked);
      OpenedConcat([start], [checked]);
      assert RiseEnd(observed, n, halt) == [start] + [checked];
    }
  }

  lemma OpenedRise(observed: bool, n: nat, halt: Halt)
    ensures Opened(Rise(observed, n, halt)) == Indices(n) && Shut(Rise(observed, n, halt)) == []
  {
    hide Opened, Shut, Starts, Indices, Announce;
    OpenedStarts(n);
    OpenedRiseEnd(observed, n, halt);
    OpenedConcat(Starts(n), RiseEnd(observed, n, halt));
  }

  lemma ReverseWhole(started: seq<nat>)
    ensures Reverse(started)[..|started|] == Reverse(started)
  {
  }

  lemma OpenedFall(observed: bool, started: seq<nat>, closing: Option<Closing>)
    requires closing.Some? ==> |closing.value.faults| == |started|
    ensures Opened(Fall(observed, started, closing)) == []
    ensures Shut(Fall(observed, started, closing)) == if closing.Some? then Reverse(started) else []
  {
    hide Opened, Shut, Reverse, Closes, Announce, Fall;
    OpenedNothing();
    FallParts(observed, started, if closing.Some? then closing.value.faults else []);
    if closing.Some? {
      var announced, closes := Announce(observed, false), Closes(started, closing.value.faults);
      OpenedAnnounce(observed, false);
      ShutCloses(started, closing.value.faults);
      ReverseWhole(started);
      OpenedShort(DeadlineChecked(closing.value.expired));
      OpenedConcat(announced, closes);
      OpenedConcat(announced + closes, [DeadlineChecked(closing.value.expired)]);
    }
  }

  lemma OpenedNothing()
    ensures Opened([]) == [] && Shut([]) == []
  {
  }

  /** A run starts exactly a registration-order prefix, and the shutdown closes exactly what was started, each
      once, in reverse; only the first run of an application shuts anything down. */
  lemma ClosesWhatStarted(observed: bool, n: nat, halt: Halt, started: seq<nat>, closing: Option<Closing>)
    requires closing.Some? ==> |closing.value.faults| == |started|
    ensures var run := RunEvents(observed, n, halt, started, closing);
      Opened(run) == Indices(n) && Shut(run) == if closing.Some? then Reverse(started) else []
  {
    hide Opened, Shut, Rise, Fall, Indices, Reverse;
    var rise, fall := Rise(observed, n, halt), Fall(observed, started, closing);
    OpenedRise(observed, n, halt);
    OpenedFall(observed, started, closing);
    OpenedShort(Stopped);
    OpenedConcat(rise, [Stopped]);
    OpenedConcat(rise + [Stopped], fall);
  }

  /** So the first run of an application closes exactly what it started, in reverse. */
  lemma FirstRunClosesItsStarts(observed: bool, n: nat, halt: Halt, closing: Closing)
    requires |closing.faults| == n
    ensures var run := RunEvents(observed, n, halt, Indices(n), Some(closing));
      Opened(run) == Indices(n) && Shut(run) == Reverse(Opened(run))
  {
    hide Opened, Shut, RunEvents, Indices, Reverse;
    IndicesLength(n);
    ClosesWhatStarted(observed, n, halt, Indices(n), Some(closing));
  }

  lemma IndicesLength(n: nat)
    ensures |Indices(n)| == n
  {
  }

  /** A later run of the same application may start a component, and then nobody closes it. */
  lemma LaterRunLeaks()
    ensures var run := RunEvents(false, 1, Waited([]), [0, 0], None);
      Risen([Silent], 1, Waited([])) && Opened(run) == [0] && Shut(run) == []
  {
    ClosesWhatStarted(false, 1, Waited([]), [0, 0], None);
    assert Indices(1) == [0];
    assert Heard([Silent], []) && EndedBy([], None);
  }

  /** The root context ends at one place, after every start and before every close. Readiness is announced
      only as the last thing before, when every start went well, and is withdrawn right after. */
  ghost predicate StopsAt(observed: bool, n: nat, halt: Halt, shutting: bool, run: seq<Event>, stop: nat) {
    && stop < |run| && run[stop].Stopped?
    && (forall k | 0 <= k < stop :: run[k].Start? || run[k].RootChecked? ||
          (run[k] == Ready(true) && observed && halt.Waited? && k == n == stop - 1))
    && (forall k | stop < k < |run| ::
          run[k].Close? || run[k].DeadlineChecked? || (run[k] == Ready(false) && k == stop + 1))
    && (observed && halt.Waited? ==> stop == n + 1 && run[n] == Ready(true))
    && (observed && shutting ==> stop + 1 < |run| && run[stop + 1] == Ready(false))
  }

  lemma StopsBeforeClosing(observed: bool, n: nat, halt: Halt, started: seq<nat>, closing: Option<Closing>)
    requires closing.Some? ==> |closing.value.faults| == |started|
    ensures exists stop ::
      StopsAt(observed, n, halt, closing.Some?, RunEvents(observed, n, halt, started, closing), stop)
  {
    var run := RunEvents(observed, n, halt, started, closing);
    var rise, fall := Rise(observed, n, halt), Fall(observed, started, closing);
    assert forall k | 0 <= k < |rise| :: run[k] == rise[k];
    assert forall k | |rise| < k < |run| :: run[k] == fall[k - |rise| - 1];
    assert StopsAt(observed, n, halt, closing.Some?, run, |rise|);
  }

  /** One of the Close calls answered with an error that matches the cause. */
  ghost predicate Answered(faults: seq<Option<Error>>, cause: Error) {
    exists f | f in faults :: f.Some? && Carries(f.value, cause)
  }

  lemma NothingClosed(started: seq<nat>)
    ensures Closes(started, []) == [] && CloseErrors([]) == []
  {
  }

  lemma ClosesAppend(started: seq<nat>, faults: seq<Option<Error>>, fault: Option<Error>)
    requires |faults| < |started|
    ensures Closes(started, faults + [fault]) == Closes(started, faults) +
      [Close(started[|started| - 1 - |faults|], fault)]
  {
  }

  lemma CloseErrorsAppend(faults: seq<Option<Error>>, fault: Option<Error>)
    ensures CloseErrors(faults + [fault]) == CloseErrors(faults) +
      (if fault.Some? then [Wrapped("close component", Text(fault.value), fault)] else [])
  {
    assert (faults + [fault])[..|faults|] == faults;
  }

  lemma {:induction false} CloseErrorsMatch(faults: seq<Option<Error>>, cause: Error)
    requires cause.Cause?
    ensures Among(CloseErrors(faults), cause) <==> Answered(faults, cause)
    ensures CloseErrors(faults) == [] <==> forall f | f in faults :: f.None?
  {
    if faults != [] {
      var front, last := faults[..|faults| - 1], faults[|faults| - 1];
      CloseErrorsMatch(front, cause);
      assert faults == front + [last];
      assert Answered(faults, cause) <==> Answered(front, cause) || Answered([last], cause) by {
        assert forall f :: f in faults <==> f in front || f in [last];
      }
      if last.Some? {
        var wrapped := Wrapped("close component", Text(last.value), last);
        AmongConcat(CloseErrors(front), [wrapped], cause);
        AmongOne(wrapped, cause);
        assert last in [last];
      }
    }
  }

  /** A joined result matches a cause exactly when the trigger, the answer of some Close, or the expired deadline
      does. */
  lemma CollectedMatches(trigger: Option<Error>, closing: Closing, cause: Error)
    requires cause.Cause?
    ensures var err := JoinAll(Collected(trigger, closing));
      && (err.None? <==> trigger.None? && (forall f | f in closing.faults :: f.None?) && !closing.expired)
      && ((err.Some? && Carries(err.value, cause)) <==>
          || (trigger.Some? && Carries(trigger.value, cause))
          || Answered(closing.faults, cause)
          || (closing.expired && cause == DEADLINE_EXCEEDED))
  {
    var a, b, c := Optional(trigger), CloseErrors(closing.faults), Lateness(closing.expired);
    JoinAllMatches(a + b + c, cause);
    CloseErrorsMatch(closing.faults, cause);
    AmongConcat(a + b, c, cause);
    AmongConcat(a, b, cause);
    if trigger.Some? { AmongOne(trigger.value, cause); }
    AmongOne(DEADLINE_EXCEEDED, cause);
  }

  // ---------- What went wrong, said of the events ----------

  /** A start failed, and not because the root context had ended. */
  ghost predicate StartFailed(run: seq<Event>, k: nat) {
    && k < |run| && run[k].Start? && run[k].fault.Some?
    && !(k + 1 < |run| && run[k + 1] == RootChecked(true) &&
          Carries(run[k].fault.value, Cause("context canceled", None, None)))
  }

  predicate CloseFailed(e: Event) { e.Close? && e.fault.Some? }

  /** Every component before a nil one started. */
  ghost predicate MeetsNil(components: seq<Component>, run: seq<Event>) {
    exists i | 0 <= i < |components| :: components[i].NilComponent? && forall j: nat | j < i :: Start(j, None) in run
  }

  /** A component reported an error of its own. */
  predicate Reported(d: Delivery) {
    d.Value? && d.error.Some? && !Carries(d.error.value, Cause("http: Server closed", None, None))
  }

  /** What was heard while waiting. */
  function HeardIn(halt: Halt): seq<(nat, Delivery)> { if halt.Waited? then halt.received else [] }

  /** Something of a run matches the cause. */
  ghost predicate Blamed(components: seq<Component>, run: seq<Event>, heard: seq<(nat, Delivery)>, cause: Error) {
    || (exists k: nat :: StartFailed(run, k) && Carries(run[k].fault.value, cause))
    || (MeetsNil(components, run) && cause == NIL_COMPONENT)
    || (exists k | 0 <= k < |heard| :: Reported(heard[k].1) && Carries(heard[k].1.error.value, cause))
    || (exists e | e in run :: CloseFailed(e) && Carries(e.fault.value, cause))
    || (DeadlineChecked(true) in run && cause == Cause("context deadline exceeded", None, None))
  }

  /** Nothing of a run went wrong. */
  ghost predicate Untroubled(components: seq<Component>, run: seq<Event>, heard: seq<(nat, Delivery)>) {
    && (forall k: nat :: !StartFailed(run, k))
    && !MeetsNil(components, run)
    && (forall k | 0 <= k < |heard| :: !Reported(heard[k].1))
    && (forall e | e in run :: !CloseFailed(e))
    && DeadlineChecked(true) !in run
  }

  /** The components that started are the events at the front, and nothing after the rise starts one. */
  lemma RunAt(observed: bool, n: nat, halt: Halt, started: seq<nat>, closing: Closing)
    requires |closing.faults| == |started|
    ensures var run, end := RunEvents(observed, n, halt, started, Some(closing)), RiseEnd(observed, n, halt);
      && n + |end| < |run|
      && (forall k | 0 <= k < n :: run[k] == Start(k, None))
      && (forall k | n <= k < n + |end| :: run[k] == end[k - n])
      && (forall k | n + |end| <= k < |run| :: !run[k].Start? && !run[k].RootChecked?)
  {
    hide Fall, RiseEnd;
    var rise, fall := Rise(observed, n, halt), Fall(observed, started, Some(closing));
    FallIn(observed, started, closing);
    assert forall k | 0 <= k < n :: rise[k] == Starts(n)[k];
    assert RunEvents(observed, n, halt, started, Some(closing)) == rise + ([Stopped] + fall);
  }

  /** What is in the fall: the announcement, a close with each fault, and the deadline. */
  lemma FallIn(observed: bool, started: seq<nat>, closing: Closing)
    requires |closing.faults| == |started|
    ensures var fall := Fall(observed, started, Some(closing));
      && (forall e | e in fall :: !e.Start? && !e.RootChecked? && !e.Stopped?)
      && (forall e | e in fall && e.Close? :: e.fault in closing.faults)
      && (forall f | f in closing.faults :: exists e :: e in fall && e.Close? && e.fault == f)
      && (DeadlineChecked(true) in fall <==> closing.expired)
  {
    var closes, fall := Closes(started, closing.faults), Fall(observed, started, Some(closing));
    forall e | e in fall
      ensures e in Announce(observed, false) || e in closes || e == DeadlineChecked(closing.expired) {}
    hide Fall;
    forall f | f in closing.faults ensures exists e :: e in fall && e.Close? && e.fault == f {
      var k :| 0 <= k < |closing.faults| && closing.faults[k] == f;
      assert closes[k].Close? && closes[k].fault == f;
      FallHas(observed, started, closing, closes[k]);
    }
    FallHas(observed, started, closing, DeadlineChecked(closing.expired));
  }

  lemma FallHas(observed: bool, started: seq<nat>, closing: Closing, e: Event)
    requires |closing.faults| == |started|
    requires e in Closes(started, closing.faults) || e == DeadlineChecked(closing.expired)
    ensures e in Fall(observed, started, Some(closing))
  {
  }

  lemma StartsIn(observed: bool, n: nat, halt: Halt, started: seq<nat>, closing: Closing)
    requires |closing.faults| == |started|
    ensures var run := RunEvents(observed, n, halt, started, Some(closing));
      forall j: nat :: Start(j, None) in run <==> j < n
  {
    hide RunEvents;
    RunAt(observed, n, halt, started, closing);
    var run := RunEvents(observed, n, halt, started, Some(closing));
    forall j: nat | j < n ensures Start(j, None) in run { assert run[j] == Start(j, None); }
  }

  lemma StartsBlamed(observed: bool, n: nat, halt: Halt, started: seq<nat>, closing: Closing, cause: Error)
    requires |closing.faults| == |started|
    ensures var run := RunEvents(observed, n, halt, started, Some(closing));
      && ((exists k: nat :: StartFailed(run, k) && Carries(run[k].fault.value, cause)) <==>
            halt.StartFault? && Trigger(halt).Some? && Carries(halt.error, cause))
      && ((exists k: nat :: StartFailed(run, k)) <==> halt.StartFault? && Trigger(halt).Some?)
  {
    hide Carries, RunEvents;
    var run := RunEvents(observed, n, halt, started, Some(closing));
    RunAt(observed, n, halt, started, closing);
    assert forall k: nat :: StartFailed(run, k) ==> k == n && halt.StartFault?;
    if halt.StartFault? {
      assert run[n] == Start(n, Some(halt.error)) && run[n + 1] == RootChecked(halt.rootCanceled);
      assert Trigger(halt).Some? <==> StartFailed(run, n);
    }
  }

  lemma NilBlamed(components: seq<Component>, observed: bool, n: nat, halt: Halt, started: seq<nat>, closing: Closing)
    requires |closing.faults| == |started| && Risen(components, n, halt)
    ensures MeetsNil(components, RunEvents(observed, n, halt, started, Some(closing))) <==> halt.MetNil?
  {
    hide RunEvents, Heard, EndedBy, Ended;
    StartsIn(observed, n, halt, started, closing);
    var run := RunEvents(observed, n, halt, started, Some(closing));
    if MeetsNil(components, run) {
      var i: nat :| i < |components| && components[i].NilComponent? && forall j: nat | j < i :: Start(j, None) in run;
      if n < i { assert Start(n, None) in run; }
    }
  }

  lemma ClosesBlamed(observed: bool, n: nat, halt: Halt, started: seq<nat>, closing: Closing, cause: Error)
    requires |closing.faults| == |started|
    ensures var run := RunEvents(observed, n, halt, started, Some(closing));
      && ((exists e | e in run :: CloseFailed(e) && Carries(e.fault.value, cause)) <==>
            Answered(closing.faults, cause))
      && ((forall e | e in run :: !CloseFailed(e)) <==> forall f | f in closing.faults :: f.None?)
      && (DeadlineChecked(true) in run <==> closing.expired)
  {
    hide Carries, Fall, Starts;
    var run, fall := RunEvents(observed, n, halt, started, Some(closing)), Fall(observed, started, Some(closing));
    FallIn(observed, started, closing);
    RiseCloses(observed, n, halt);
    assert forall e :: e in run <==> e in Rise(observed, n, halt) || e == Stopped || e in fall;
    hide RunEvents, Rise;
    assert forall e: Event | e.Close? || e.DeadlineChecked? :: e in run <==> e in fall;
  }

  lemma RiseCloses(observed: bool, n: nat, halt: Halt)
    ensures forall e | e in Rise(observed, n, halt) :: !e.Close? && !e.DeadlineChecked?
  {
  }

  lemma DeliveriesBlamed(components: seq<Component>, n: nat, halt: Halt, cause: Error)
    requires Risen(components, n, halt) && cause.Cause?
    ensures var heard := HeardIn(halt);
      && ((exists k | 0 <= k < |heard| :: Reported(heard[k].1) && Carries(heard[k].1.error.value, cause)) <==>
            halt.Waited? && Trigger(halt).Some? && Carries(Trigger(halt).value, cause))
      && ((exists k | 0 <= k < |heard| :: Reported(heard[k].1)) <==> halt.Waited? && Trigger(halt).Some?)
  {
    if halt.Waited? {
      var heard := halt.received;
      assert forall k | 0 <= k < |heard| :: Reported(heard[k].1) <==> !Ignored(heard[k].1);
      if Trigger(halt).Some? { CarriesWrapped("terminal component", heard[|heard| - 1].1.error.value, cause); }
    }
  }

  lemma CarriesWrapped(prefix: string, error: Error, cause: Error)
    requires cause.Cause?
    ensures Carries(Wrapped(prefix, Text(error), Some(error)), cause) <==> Carries(error, cause)
  {
  }

  /** The result of the first run is nil exactly when nothing went wrong, and otherwise matches a cause exactly when
      something that went wrong does: a start that failed, unless because the root context had ended; a nil component;
      an error that a component reported; a failed close; the deadline. */
  lemma NothingIsLost(components: seq<Component>, observed: bool, n: nat, halt: Halt, started: seq<nat>,
    closing: Closing, cause: Error)
    requires |closing.faults| == |started| && Risen(components, n, halt) && cause.Cause?
    ensures var run := RunEvents(observed, n, halt, started, Some(closing));
      var err := JoinAll(Collected(Trigger(halt), closing));
      && (err.None? <==> Untroubled(components, run, HeardIn(halt)))
      && ((err.Some? && Carries(err.value, cause)) <==> Blamed(components, run, HeardIn(halt), cause))
  {
    hide RunEvents, StartFailed, CloseFailed, MeetsNil, Reported, Answered, JoinAll, Collected, Risen;
    CollectedMatches(Trigger(halt), closing, cause);
    StartsBlamed(observed, n, halt, started, closing, cause);
    NilBlamed(components, observed, n, halt, started, closing);
    ClosesBlamed(observed, n, halt, started, closing, cause);
    DeliveriesBlamed(components, n, halt, cause);
    if halt.StartFault? { CarriesWrapped("start component", halt.error, cause); }
  }
}
