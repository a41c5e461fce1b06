/** The audited response stream over any upstream (internal/provider/stream.go). */
module Stream {
  import opened Base
  import opened Llm
  import opened Profiles
  import opened Audit
  import opened EinoStream
  import Provider
  import W = World

  /** What happens at the boundaries of the stream: reads and the close of the upstream, writes to the
      ledger, and what the caller is told. */
  datatype Step =
    | Read(answer: Answer)
    | UpstreamClosed(error: Option<Error>)
    | Recorded(outcome: Result<Response>, row: LlmCall, lost: Option<Error>)
    | Told(answer: Answer)
    | CloseTold(result: Option<Error>)

  function Ended(text: string): Error { Cause("provider stream " + text, None, None) }

  const CLOSED_EARLY := Ended("closed before completion")

  function JoinStreamErrors(t: TextModel, closeErr: Option<Error>, outcomeErr: Option<Error>): Option<Error> {
    if closeErr.None? then outcomeErr
    else
      var safe := SafeWrap(t, "close provider stream", closeErr.value);
      if outcomeErr.None? then Some(safe) else Some(Joined(safe, outcomeErr.value))
  }

  /** The outcome that an answer other than a delta settles. */
  function Outcome(answer: Answer): Result<Response> {
    match answer
    case Event(e) =>
      (match e.kind
       case CompletedKind =>
         if e.response.Some? then Ok(e.response.value) else Err(Ended("completed without response"))
       case DeltaKind => Err(Ended("delta contains completed response"))
       case OtherKind(_) => Err(Ended("returned unknown event kind")))
    case Fault(error) => Err(error)
    case EndOfFile => Err(Ended("ended before completed response"))
    case ClosedPipe => Err(Cause("io: read/write on closed pipe", None, None))
  }

  // ---------- Calls ----------

  /** One call of Recv or Close with what the outside answered. */
  datatype Act =
    | RecvDelta(event: Answer)
    | RecvFinal(answer: Answer, closeErr: Option<Error>, row: LlmCall, lost: Option<Error>)
    | RecvAfterEnd
    | RecvAfterClose
    | CloseOpen(closeErr: Option<Error>, row: LlmCall, lost: Option<Error>)
    | CloseEnded
    | CloseAgain

  datatype Status = Open | Terminal(upstreamErr: Option<Error>) | Closed(result: Option<Error>) | Impossible

  function After(t: TextModel, s: Status, a: Act): Status {
    match (s, a)
    case (Open, RecvDelta(event)) => if IsDelta(event) then Open else Impossible
    case (Open, RecvFinal(answer, closeErr, row, _)) =>
      if !IsDelta(answer) && row.success == Outcome(answer).Ok? then Terminal(closeErr) else Impossible
    case (Open, CloseOpen(closeErr, row, lost)) =>
      if row.success then Impossible
      else Closed(JoinStreamErrors(t, closeErr, Provider.RecordError(t, Err(CLOSED_EARLY), lost)))
    case (Terminal(_), RecvAfterEnd) => s
    case (Terminal(upstreamErr), CloseEnded) => Closed(upstreamErr)
    case (Closed(_), RecvAfterClose) => s
    case (Closed(_), CloseAgain) => s
    case (_, _) => Impossible
  }

  /** What the caller is told when an answer ends the stream: the completed event only when its row was written. */
  function Verdict(t: TextModel, answer: Answer, closeErr: Option<Error>, lost: Option<Error>): Answer {
    match Outcome(answer)
    case Ok(_) => if lost.None? then answer else Fault(SafeWrap(t, "persist llm call", lost.value))
    case Err(_) => Fault(JoinStreamErrors(t, closeErr, Provider.RecordError(t, Outcome(answer), lost)).value)
  }

  function Steps(t: TextModel, s: Status, a: Act): seq<Step> {
    match a
    case RecvDelta(event) => [Read(event), Told(event)]
    case RecvFinal(answer, closeErr, row, lost) =>
      [Read(answer), UpstreamClosed(closeErr), Recorded(Outcome(answer), row, lost),
        Told(Verdict(t, answer, closeErr, lost))]
    case RecvAfterEnd => [Told(EndOfFile)]
    case RecvAfterClose => [Told(ClosedPipe)]
    case CloseOpen(closeErr, row, lost) =>
      [UpstreamClosed(closeErr), Recorded(Err(CLOSED_EARLY), row, lost),
       CloseTold(JoinStreamErrors(t, closeErr, Provider.RecordError(t, Err(CLOSED_EARLY), lost)))]
    case CloseEnded => [CloseTold(if s.Terminal? then s.upstreamErr else None)]
    case CloseAgain => [CloseTold(if s.Closed? then s.result else None)]
  }

  function StatusOf(t: TextModel, acts: seq<Act>): Status {
    if acts == [] then Open else After(t, StatusOf(t, acts[..|acts| - 1]), acts[|acts| - 1])
  }

  function Log(t: TextModel, acts: seq<Act>): seq<Step> {
    if acts == [] then []
    else
      var front := acts[..|acts| - 1];
      Log(t, front) + Steps(t, StatusOf(t, front), acts[|acts| - 1])
  }

  lemma ActAppend(t: TextModel, acts: seq<Act>, a: Act)
    ensures StatusOf(t, acts + [a]) == After(t, StatusOf(t, acts), a)
    ensures Log(t, acts + [a]) == Log(t, acts) + Steps(t, StatusOf(t, acts), a)
  {
    assert (acts + [a])[..|acts|] == acts;
  }

  // ---------- What the log of a stream says ----------

  function Records(log: seq<Step>): nat {
    if log == [] then 0 else Records(log[..|log| - 1]) + if log[|log| - 1].Recorded? then 1 else 0
  }

  function UpstreamCloses(log: seq<Step>): nat {
    if log == [] then 0 else UpstreamCloses(log[..|log| - 1]) + if log[|log| - 1].UpstreamClosed? then 1 else 0
  }

  lemma {:induction false} CountsConcat(a: seq<Step>, b: seq<Step>)
    ensures Records(a + b) == Records(a) + Records(b)
    ensures UpstreamCloses(a + b) == UpstreamCloses(a) + UpstreamCloses(b)
  {
    if b == [] {
      assert a + b == a;
    } else {
      assert (a + b)[..|a + b| - 1] == a + b[..|b| - 1];
      CountsConcat(a, b[..|b| - 1]);
    }
  }

  lemma CountOne(x: Step)
    ensures Records([x]) == (if x.Recorded? then 1 else 0) && UpstreamCloses([x]) == if x.UpstreamClosed? then 1 else 0
  {
    assert [x][..0] == [];
  }

  lemma StepsCounts(t: TextModel, s: Status, a: Act)
    requires !After(t, s, a).Impossible?
    ensures Records(Steps(t, s, a)) == UpstreamCloses(Steps(t, s, a))
    ensures Records(Steps(t, s, a)) == if s.Open? && !After(t, s, a).Open? then 1 else 0
  {
    var steps := Steps(t, s, a);
    hide Records, UpstreamCloses;
    CountOne(steps[0]);
    if |steps| > 1 {
      CountOne(steps[1]);
      CountsConcat([steps[0]], [steps[1]]);
      if |steps| > 2 {
        CountOne(steps[2]);
        CountsConcat([steps[0]] + [steps[1]], [steps[2]]);
        if |steps| > 3 {
          CountOne(steps[3]);
          CountsConcat([steps[0]] + [steps[1]] + [steps[2]], [steps[3]]);
        }
      }
    }
    assert |steps| == 1 ==> steps == [steps[0]];
    assert |steps| == 2 ==> steps == [steps[0]] + [steps[1]];
    assert |steps| == 3 ==> steps == [steps[0]] + [steps[1]] + [steps[2]];
    assert |steps| == 4 ==> steps == [steps[0]] + [steps[1]] + [steps[2]] + [steps[3]];
  }

  /** One outcome is recorded and the upstream is closed once, exactly when the stream is no longer open. */
  lemma {:induction false} RecordedOnce(t: TextModel, acts: seq<Act>)
    requires !StatusOf(t, acts).Impossible?
    ensures Records(Log(t, acts)) == UpstreamCloses(Log(t, acts)) == if StatusOf(t, acts).Open? then 0 else 1
  {
    if acts != [] {
      hide Steps;
      var front, last := acts[..|acts| - 1], acts[|acts| - 1];
      RecordedOnce(t, front);
      StepsCounts(t, StatusOf(t, front), last);
      CountsConcat(Log(t, front), Steps(t, StatusOf(t, front), last));
    }
  }

  /** The upstream was closed, a result was recorded, or the caller closed the stream. */
  predicate Settles(x: Step) { x.UpstreamClosed? || x.Recorded? || x.CloseTold? }

  /** The caller was told the one event that ends a stream: the completed response or an error. */
  predicate Concludes(x: Step) {
    x.Told? && (x.answer.Fault? || (x.answer.Event? && !IsDelta(x.answer)))
  }

  /** After the settling begins the upstream is not read. */
  ghost predicate NoReadAfterSettling(log: seq<Step>) {
    forall i, j | 0 <= i < j < |log| && Settles(log[i]) :: !log[j].Read?
  }

  /** An ending is told once: after it only end of file, closed pipe and results of Close. */
  ghost predicate OneEnding(log: seq<Step>) {
    forall i, j | 0 <= i < j < |log| && Concludes(log[i]) ::
      log[j].CloseTold? || log[j] == Told(EndOfFile) || log[j] == Told(ClosedPipe)
  }

  /** After a close only closed pipe is told, and every close tells the same result. */
  ghost predicate ShutStaysShut(log: seq<Step>) {
    forall i, j | 0 <= i < j < |log| && log[i].CloseTold? :: log[j] == log[i] || log[j] == Told(ClosedPipe)
  }

  /** End of file follows an ending, closed pipe follows a close. */
  ghost predicate RefusalsGrounded(log: seq<Step>) {
    && (forall j | 0 <= j < |log| && log[j] == Told(EndOfFile) :: exists i :: 0 <= i < j && Concludes(log[i]))
    && (forall j | 0 <= j < |log| && log[j] == Told(ClosedPipe) :: exists i :: 0 <= i < j && log[i].CloseTold?)
  }

  /** A delta is told as it was read. */
  ghost predicate DeltasAsRead(log: seq<Step>) {
    forall j | 0 <= j < |log| && log[j].Told? && IsDelta(log[j].answer) :: j > 0 && log[j - 1] == Read(log[j].answer)
  }

  /** A recorded outcome is followed by what the caller is told: the completed response exactly when its
      success row was written. */
  ghost predicate CompletedIffWritten(log: seq<Step>) {
    && (log != [] ==> !log[|log| - 1].Recorded?)
    && forall j | 0 < j < |log| && log[j - 1].Recorded? && log[j - 1].outcome.Ok? ::
      (log[j].Told? && log[j].answer.Event? && log[j].answer.event.response == Some(log[j - 1].outcome.value))
      <==> log[j - 1].lost.None?
  }

  /** A completed response is told right after the success row that carries it was written. */
  ghost predicate CompletedGrounded(log: seq<Step>) {
    forall j | 0 <= j < |log| && log[j].Told? && log[j].answer.Event? && !IsDelta(log[j].answer) ::
      FollowsItsRow(log, j)
  }

  /** An error told at the end of a stream tells of everything that failed: the stream itself, the close of the
      upstream, and the write of the row. */
  ghost predicate FailuresTold(t: TextModel, log: seq<Step>) {
    forall j | 0 < j < |log| - 1 && log[j].Recorded? && log[j].outcome.Err? ::
      && log[j - 1].UpstreamClosed?
      && TellsAll(t, log[j - 1].error, log[j].outcome.error, log[j].lost, log[j + 1])
  }

  ghost predicate TellsAll(t: TextModel, closeErr: Option<Error>, cause: Error, lost: Option<Error>, told: Step) {
    && ((told.Told? && told.answer.Fault?) || (told.CloseTold? && told.result.Some?))
    && var error := if told.Told? then told.answer.error else told.result.value;
    && TellsOf(t, error, "provider call failed", cause)
    && (closeErr.Some? ==> TellsOf(t, error, "close provider stream", closeErr.value))
    && (lost.Some? ==> TellsOf(t, error, "persist llm call", lost.value))
  }

  lemma JoinedTells(t: TextModel, closeErr: Option<Error>, cause: Error, lost: Option<Error>)
    ensures var error := JoinStreamErrors(t, closeErr, Provider.RecordError(t, Err(cause), lost));
      error.Some? && TellsAll(t, closeErr, cause, lost, CloseTold(error))
      && TellsAll(t, closeErr, cause, lost, Told(Fault(error.value)))
  {
    hide SafeWrap, TellsOf, ChatError;
    ChatErrorTells(t, Err(cause), lost);
    var outcomeErr := Provider.RecordError(t, Err(cause), lost);
    assert outcomeErr == ChatError(t, Err(cause), lost) by { Provider.ChatOrRecordError(t, Err(cause), lost); }
    if closeErr.Some? {
      SafeWrapTells(t, "close provider stream", closeErr.value);
      JoinTells(t, SafeWrap(t, "close provider stream", closeErr.value), outcomeErr.value, "close provider stream",
        closeErr.value);
      JoinTells(t, SafeWrap(t, "close provider stream", closeErr.value), outcomeErr.value, "provider call failed",
        cause);
      if lost.Some? {
        JoinTells(t, SafeWrap(t, "close provider stream", closeErr.value), outcomeErr.value, "persist llm call",
          lost.value);
      }
    }
  }

  lemma FailuresAppend(t: TextModel, log: seq<Step>, steps: seq<Step>)
    requires FailuresTold(t, log) && FailuresTold(t, steps) && (log != [] ==> !log[|log| - 1].Recorded?)
    requires steps != [] && !steps[0].Recorded?
    ensures FailuresTold(t, log + steps)
  {
    hide TellsAll;
    var n, longer := |log|, log + steps;
    assert forall i | 0 <= i < n :: longer[i] == log[i];
    assert forall i | n <= i < |longer| :: longer[i] == steps[i - n];
  }

  lemma StepsTold(t: TextModel, s: Status, a: Act)
    ensures FailuresTold(t, Steps(t, s, a)) && Steps(t, s, a) != [] && !Steps(t, s, a)[0].Recorded?
  {
    hide JoinStreamErrors, Provider.RecordError, Outcome, TellsAll;
    if a.RecvFinal? && Outcome(a.answer).Err? {
      JoinedTells(t, a.closeErr, Outcome(a.answer).error, a.lost);
    } else if a.CloseOpen? {
      JoinedTells(t, a.closeErr, CLOSED_EARLY, a.lost);
    }
  }

  lemma FailuresStep(t: TextModel, s: Status, log: seq<Step>, a: Act)
    requires FailuresTold(t, log) && (log != [] ==> !log[|log| - 1].Recorded?)
    ensures FailuresTold(t, log + Steps(t, s, a))
  {
    hide *;
    StepsTold(t, s, a);
    FailuresAppend(t, log, Steps(t, s, a));
  }

  ghost predicate FollowsItsRow(log: seq<Step>, j: nat)
    requires j < |log| && log[j].Told? && log[j].answer.Event?
  {
    && j > 0 && log[j - 1].Recorded? && log[j - 1].outcome.Ok? && log[j - 1].row.success && log[j - 1].lost.None?
    && log[j].answer.event.kind.CompletedKind? && log[j].answer.event.response == Some(log[j - 1].outcome.value)
  }

  /** What each status knows of the past. */
  ghost predicate Remembers(s: Status, log: seq<Step>) {
    match s
    case Open => forall i | 0 <= i < |log| :: !Settles(log[i]) && !Concludes(log[i])
    case Terminal(_) =>
      && (exists i :: 0 <= i < |log| && Concludes(log[i]))
      && (forall i | 0 <= i < |log| :: !log[i].CloseTold?)
    case Closed(result) =>
      && (exists i :: 0 <= i < |log| && log[i].CloseTold?)
      && (forall i | 0 <= i < |log| && log[i].CloseTold? :: log[i].result == result)
    case Impossible => true
  }

  lemma VerdictConcludes(t: TextModel, answer: Answer, closeErr: Option<Error>, lost: Option<Error>)
    requires !IsDelta(answer)
    ensures Concludes(Told(Verdict(t, answer, closeErr, lost)))
  {
  }

  lemma RememberStep(t: TextModel, s: Status, log: seq<Step>, a: Act)
    requires Remembers(s, log) && !After(t, s, a).Impossible?
    ensures Remembers(After(t, s, a), log + Steps(t, s, a))
  {
    var n, longer := |log|, log + Steps(t, s, a);
    if a.RecvFinal? { VerdictConcludes(t, a.answer, a.closeErr, a.lost); }
    hide Verdict, JoinStreamErrors, Provider.RecordError, Outcome;
    assert forall i | 0 <= i < n :: longer[i] == log[i];
    match a
    case RecvFinal(_, _, _, _) => assert Concludes(longer[n + 3]);
    case CloseOpen(_, _, _) => assert longer[n + 2].CloseTold?;
    case CloseEnded => assert longer[n].CloseTold?;
    case _ =>
  }

  ghost predicate Orderly(log: seq<Step>) {
    NoReadAfterSettling(log) && OneEnding(log) && ShutStaysShut(log) && DeltasAsRead(log)
  }

  lemma NoReadStep(t: TextModel, s: Status, log: seq<Step>, a: Act)
    requires Remembers(s, log) && !After(t, s, a).Impossible? && NoReadAfterSettling(log)
    ensures NoReadAfterSettling(log + Steps(t, s, a))
  {
    var n, longer := |log|, log + Steps(t, s, a);
    if a.RecvFinal? { VerdictConcludes(t, a.answer, a.closeErr, a.lost); }
    hide Verdict, JoinStreamErrors, Provider.RecordError, Outcome;
    assert forall i | 0 <= i < n :: longer[i] == log[i];
  }

  lemma EndingStep(t: TextModel, s: Status, log: seq<Step>, a: Act)
    requires Remembers(s, log) && !After(t, s, a).Impossible? && OneEnding(log)
    ensures OneEnding(log + Steps(t, s, a))
  {
    var n, longer := |log|, log + Steps(t, s, a);
    if a.RecvFinal? { VerdictConcludes(t, a.answer, a.closeErr, a.lost); }
    hide Verdict, JoinStreamErrors, Provider.RecordError, Outcome;
    assert forall i | 0 <= i < n :: longer[i] == log[i];
  }

  lemma ShutStep(t: TextModel, s: Status, log: seq<Step>, a: Act)
    requires Remembers(s, log) && !After(t, s, a).Impossible? && ShutStaysShut(log)
    ensures ShutStaysShut(log + Steps(t, s, a))
  {
    var n, longer := |log|, log + Steps(t, s, a);
    if a.RecvFinal? { VerdictConcludes(t, a.answer, a.closeErr, a.lost); }
    hide Verdict, JoinStreamErrors, Provider.RecordError, Outcome;
    assert forall i | 0 <= i < n :: longer[i] == log[i];
  }

  lemma DeltasStep(t: TextModel, s: Status, log: seq<Step>, a: Act)
    requires Remembers(s, log) && !After(t, s, a).Impossible? && DeltasAsRead(log)
    ensures DeltasAsRead(log + Steps(t, s, a))
  {
    var n, longer := |log|, log + Steps(t, s, a);
    if a.RecvFinal? { VerdictConcludes(t, a.answer, a.closeErr, a.lost); }
    hide Verdict, JoinStreamErrors, Provider.RecordError, Outcome;
    assert forall i | 0 <= i < n :: longer[i] == log[i];
  }

  lemma OrderlyStep(t: TextModel, s: Status, log: seq<Step>, a: Act)
    requires Remembers(s, log) && !After(t, s, a).Impossible? && Orderly(log)
    ensures Orderly(log + Steps(t, s, a))
  {
    hide NoReadAfterSettling, OneEnding, ShutStaysShut, DeltasAsRead, Remembers, After, Steps;
    NoReadStep(t, s, log, a);
    EndingStep(t, s, log, a);
    ShutStep(t, s, log, a);
    DeltasStep(t, s, log, a);
  }

  lemma GroundedStep(t: TextModel, s: Status, log: seq<Step>, a: Act)
    requires Remembers(s, log) && !After(t, s, a).Impossible? && RefusalsGrounded(log)
    ensures RefusalsGrounded(log + Steps(t, s, a))
  {
    var n, longer := |log|, log + Steps(t, s, a);
    if a.RecvFinal? { VerdictConcludes(t, a.answer, a.closeErr, a.lost); }
    hide Verdict, JoinStreamErrors, Provider.RecordError, Outcome;
    assert forall i | 0 <= i < n :: longer[i] == log[i];
  }

  lemma WrittenStep(t: TextModel, s: Status, log: seq<Step>, a: Act)
    requires Remembers(s, log) && !After(t, s, a).Impossible? && CompletedIffWritten(log)
    ensures CompletedIffWritten(log + Steps(t, s, a))
  {
    var n, longer := |log|, log + Steps(t, s, a);
    assert forall i | 0 <= i < n :: longer[i] == log[i];
  }

  /** Only an answer whose outcome is a response written to the ledger is told as it came. */
  lemma VerdictCompleted(t: TextModel, answer: Answer, closeErr: Option<Error>, lost: Option<Error>)
    requires !IsDelta(answer) && Verdict(t, answer, closeErr, lost).Event?
    ensures Verdict(t, answer, closeErr, lost) == answer && answer.event.kind.CompletedKind? && lost.None?
    ensures Outcome(answer).Ok? && answer.event.response == Some(Outcome(answer).value)
  {
  }

  lemma CompletedStep(t: TextModel, s: Status, log: seq<Step>, a: Act)
    requires !After(t, s, a).Impossible? && CompletedGrounded(log)
    ensures CompletedGrounded(log + Steps(t, s, a))
  {
    var n, longer := |log|, log + Steps(t, s, a);
    if a.RecvFinal? && Verdict(t, a.answer, a.closeErr, a.lost).Event? {
      VerdictCompleted(t, a.answer, a.closeErr, a.lost);
    }
    hide Verdict, JoinStreamErrors, Provider.RecordError, Outcome;
    forall j | 0 <= j < |longer| && longer[j].Told? && longer[j].answer.Event? && !IsDelta(longer[j].answer)
      ensures FollowsItsRow(longer, j)
    {
      if j < n { assert longer[j] == log[j] && FollowsItsRow(log, j); }
    }
  }

  /** Any sequence of Recv and Close calls over any upstream leaves a log with all of these properties. */
  lemma {:induction false} StreamsOrderly(t: TextModel, acts: seq<Act>)
    requires !StatusOf(t, acts).Impossible?
    ensures var log := Log(t, acts);
      && Orderly(log) && RefusalsGrounded(log) && CompletedIffWritten(log) && CompletedGrounded(log)
      && FailuresTold(t, log) && (log != [] ==> !log[|log| - 1].Recorded?)
      && Remembers(StatusOf(t, acts), log)
  {
    if acts != [] {
      hide Steps, After, Orderly, RefusalsGrounded, CompletedIffWritten, CompletedGrounded, Remembers, FailuresTold;
      var front, last := acts[..|acts| - 1], acts[|acts| - 1];
      StatusStays(t, StatusOf(t, front), last);
      StreamsOrderly(t, front);
      RememberStep(t, StatusOf(t, front), Log(t, front), last);
      OrderlyStep(t, StatusOf(t, front), Log(t, front), last);
      GroundedStep(t, StatusOf(t, front), Log(t, front), last);
      WrittenStep(t, StatusOf(t, front), Log(t, front), last);
      CompletedStep(t, StatusOf(t, front), Log(t, front), last);
      FailuresStep(t, StatusOf(t, front), Log(t, front), last);
      LastIsTold(t, StatusOf(t, front), Log(t, front), last);
    }
  }

  lemma LastIsTold(t: TextModel, s: Status, log: seq<Step>, a: Act)
    ensures var longer := log + Steps(t, s, a); longer != [] && !longer[|longer| - 1].Recorded?
  {
  }

  lemma StatusStays(t: TextModel, s: Status, a: Act)
    ensures s.Impossible? ==> After(t, s, a).Impossible?
  {
  }

  // ---------- The stream over the one that reads a connector ----------

  /** One call with what the reader answered underneath, if it was asked. */
  datatype Joint = Joint(act: Act, pull: Option<Pull>)

  /** The two streams step together: a read of the upstream is a pull, closing the upstream closes the reader
      without an error, and other calls do not reach it. */
  ghost predicate Fits(lib: Library, s: State, j: Joint) {
    match j.act
    case RecvDelta(event) => j.pull.Some? && event == PullAnswer(lib, s.chunks, j.pull.value)
    case RecvFinal(answer, closeErr, _, _) => j.pull.Some? && answer == PullAnswer(lib, s.chunks, j.pull.value) &&
         closeErr.None?
    case CloseOpen(closeErr, _, _) => closeErr.None?
    case _ => true
  }

  function Underneath(lib: Library, s: State, j: Joint): State {
    var pulled := if j.pull.Some? then AfterPull(lib, s, j.pull.value) else s;
    match j.act
    case RecvDelta(_) => pulled
    case RecvFinal(_, _, _, _) => pulled.(done := true, closed := true)
    case CloseOpen(_, _, _) => s.(done := true, closed := true)
    case _ => s
  }

  function Acts(joints: seq<Joint>): seq<Act> {
    if joints == [] then [] else Acts(joints[..|joints| - 1]) + [joints[|joints| - 1].act]
  }

  function StateOf(lib: Library, joints: seq<Joint>): State {
    if joints == [] then FRESH else Underneath(lib, StateOf(lib, joints[..|joints| - 1]), joints[|joints| - 1])
  }

  ghost predicate Composed(t: TextModel, lib: Library, joints: seq<Joint>) {
    && !StatusOf(t, Acts(joints)).Impossible?
    && (joints == [] ||
        (Composed(t, lib, joints[..|joints| - 1]) &&
          Fits(lib, StateOf(lib, joints[..|joints| - 1]), joints[|joints| - 1])))
  }

  /** The calls so far fit the two streams together, and the one underneath is where they left it. */
  ghost predicate InStep(t: TextModel, lib: Library, joints: seq<Joint>, acts: seq<Act>, s: State) {
    && Acts(joints) == acts && Composed(t, lib, joints) && StateOf(lib, joints) == s
    && (s.done <==> !StatusOf(t, acts).Open?)
  }

  lemma InStepStart(t: TextModel, lib: Library)
    ensures InStep(t, lib, [], [], FRESH)
  {
  }

  lemma InStepNext(t: TextModel, lib: Library, joints: seq<Joint>, acts: seq<Act>, s: State, j: Joint)
    requires InStep(t, lib, joints, acts, s) && Fits(lib, s, j) && !After(t, StatusOf(t, acts), j.act).Impossible?
    ensures InStep(t, lib, joints + [j], acts + [j.act], Underneath(lib, s, j))
  {
    assert (joints + [j])[..|joints|] == joints;
    ActAppend(t, acts, j.act);
  }

  /** An answer that ends the stream moves the one underneath on, and closes it. */
  lemma FinalMoves(t: TextModel, lib: Library, s: State, answer: Answer, pull: Option<Pull>, closeErr: Option<Error>,
    row: LlmCall, lost: Option<Error>)
    ensures pull.Some? && answer == PullAnswer(lib, s.chunks, pull.value) && closeErr.None? ==>
      var j := Joint(RecvFinal(answer, closeErr, row, lost), pull);
      Fits(lib, s, j) && Underneath(lib, s, j) == AfterPull(lib, s, pull.value).(done := true, closed := true)
  {
  }

  lemma VerdictFailed(t: TextModel, answer: Answer, closeErr: Option<Error>, lost: Option<Error>, cause: Error)
    requires Outcome(answer) == Err(cause)
    ensures var error := JoinStreamErrors(t, closeErr, Provider.RecordError(t, Err(cause), lost));
      error.Some? && Verdict(t, answer, closeErr, lost) == Fault(error.value)
  {
  }

  lemma VerdictWritten(t: TextModel, answer: Answer, closeErr: Option<Error>, lost: Option<Error>, response: Response)
    requires Outcome(answer) == Ok(response)
    ensures var error := Provider.RecordError(t, Ok(response), lost);
      Verdict(t, answer, closeErr, lost) == if error.Some? then Fault(error.value) else answer
  {
  }

  lemma EndsEarly(t: TextModel, closeErr: Option<Error>, row: LlmCall, lost: Option<Error>)
    requires !row.success
    ensures After(t, Open, CloseOpen(closeErr, row, lost)) ==
      Closed(JoinStreamErrors(t, closeErr, Provider.RecordError(t, Err(CLOSED_EARLY), lost)))
  {
  }

  lemma EndsOpen(t: TextModel, answer: Answer, closeErr: Option<Error>, row: LlmCall, lost: Option<Error>)
    requires !IsDelta(answer) && row.success == Outcome(answer).Ok?
    ensures After(t, Open, RecvFinal(answer, closeErr, row, lost)) == Terminal(closeErr)
  {
  }

  // ---------- The upstream ----------

  /** What a stream does to its upstream: reads it or closes it. */
  function Contacts(log: seq<Step>): seq<Step> {
    if log == [] then []
    else
      var x := log[|log| - 1];
      Contacts(log[..|log| - 1]) + if x.Read? || x.UpstreamClosed? then [x] else []
  }

  lemma ContactsAppend(log: seq<Step>, x: Step)
    ensures Contacts(log + [x]) == Contacts(log) + if x.Read? || x.UpstreamClosed? then [x] else []
  {
    assert (log + [x])[..|log|] == log;
  }

  /** The stream a model returned: one that reads a connector, or any other. It keeps how it was used. */
  class Upstream {
    const connector: EinoResponseStream?
    ghost var contacts: seq<Step>

    ghost function Footprint(): set<object> {
      {this} + if connector != null then {connector, connector.reader} else {}
    }

    ghost predicate Valid()
      reads Footprint()
    {
      connector != null ==> connector.Valid()
    }

    /** Where the connector's stream is, if there is one. */
    ghost function Below(): State
      reads connector
    {
      if connector == null then FRESH else connector.Abstract()
    }

    constructor (connector: EinoResponseStream?)
      requires connector != null ==> connector.Valid()
      ensures Valid() && this.connector == connector && contacts == []
    {
      this.connector, contacts := connector, [];
    }

    method Recv() returns (received: Answer, ghost pull: Option<Pull>)
      requires Valid()
      modifies Footprint()
      ensures Valid() && contacts == old(contacts) + [Read(received)]
      ensures connector != null && !old(connector.done) ==>
        && pull.Some? && received == PullAnswer(connector.lib, old(Below()).chunks, pull.value)
        && Below() == AfterPull(connector.lib, old(Below()), pull.value)
    {
      pull := None;
      if connector != null {
        received, pull := connector.Recv();
      } else {
        received := *;
      }
      contacts := contacts + [Read(received)];
    }

    method Close() returns (error: Option<Error>)
      requires Valid()
      modifies Footprint()
      ensures Valid() && contacts == old(contacts) + [UpstreamClosed(error)]
      ensures connector != null ==> error.None? && Below() == old(Below()).(done := true, closed := true)
    {
      error := None;
      if connector != null {
        connector.Close();
      } else {
        error := *;
      }
      contacts := contacts + [UpstreamClosed(error)];
    }
  }

  // ---------- The audited stream ----------

  /** The log of the calls, and what the call under way has done since. */
  ghost predicate Keeps(t: TextModel, acts: seq<Act>, part: seq<Step>, log: seq<Step>, contacts: seq<Step>) {
    log == Log(t, acts) + part && contacts == Contacts(log)
  }

  lemma KeepsMore(t: TextModel, acts: seq<Act>, part: seq<Step>, log: seq<Step>, contacts: seq<Step>, x: Step)
    requires Keeps(t, acts, part, log, contacts)
    ensures Keeps(t, acts, part + [x], log + [x], contacts + if x.Read? || x.UpstreamClosed? then [x] else [])
  {
    ContactsAppend(log, x);
    assert Log(t, acts) + part + [x] == Log(t, acts) + (part + [x]);
  }

  lemma KeepsNone(t: TextModel, acts: seq<Act>, log: seq<Step>, contacts: seq<Step>)
    ensures Keeps(t, acts, [], log, contacts) <==> log == Log(t, acts) && contacts == Contacts(log)
  {
    assert Log(t, acts) + [] == Log(t, acts);
  }

  /** The last step of a call is what the caller is told; the others come before. */
  function Doing(t: TextModel, s: Status, a: Act): seq<Step> {
    var steps := Steps(t, s, a);
    steps[..|steps| - 1]
  }

  function Telling(t: TextModel, s: Status, a: Act): Step {
    var steps := Steps(t, s, a);
    steps[|steps| - 1]
  }

  lemma StepsEnd(t: TextModel, s: Status, a: Act)
    ensures var x := Telling(t, s, a);
      (x.Told? || x.CloseTold?) && Steps(t, s, a) == Doing(t, s, a) + [x]
  {
  }

  lemma Regroup(a: seq<Step>, b: seq<Step>, c: seq<Step>)
    ensures a + b + c == a + (b + c)
  {
  }

  lemma KeepsCall(t: TextModel, acts: seq<Act>, a: Act, log: seq<Step>, contacts: seq<Step>)
    requires Keeps(t, acts, Doing(t, StatusOf(t, acts), a), log, contacts)
    ensures Keeps(t, acts + [a], [], log + [Telling(t, StatusOf(t, acts), a)], contacts)
  {
    hide Steps, Log, After, StatusOf, Contacts, Doing, Telling;
    var s := StatusOf(t, acts);
    ActAppend(t, acts, a);
    StepsEnd(t, s, a);
    ContactsAppend(log, Telling(t, s, a));
    Regroup(Log(t, acts), Doing(t, s, a), [Telling(t, s, a)]);
    KeepsNone(t, acts + [a], log + [Telling(t, s, a)], contacts);
  }

  /** A call on a stream that is no longer open does nothing but tell. */
  predicate IsAlone(a: Act) { a.RecvAfterEnd? || a.RecvAfterClose? || a.CloseEnded? || a.CloseAgain? }

  lemma BelowAlone(a: Act, lib: Library, below: State)
    requires IsAlone(a)
    ensures Fits(lib, below, Joint(a, None)) && Underneath(lib, below, Joint(a, None)) == below
  {
  }

  lemma AloneAfter(t: TextModel, upstreamErr: Option<Error>, result: Option<Error>)
    ensures After(t, Terminal(upstreamErr), RecvAfterEnd) == Terminal(upstreamErr)
    ensures After(t, Terminal(upstreamErr), CloseEnded) == Closed(upstreamErr)
    ensures After(t, Closed(result), RecvAfterClose) == After(t, Closed(result), CloseAgain) == Closed(result)
  {
  }

  lemma AloneTells(t: TextModel, upstreamErr: Option<Error>, result: Option<Error>)
    ensures Telling(t, Terminal(upstreamErr), RecvAfterEnd) == Told(EndOfFile)
    ensures Telling(t, Terminal(upstreamErr), CloseEnded) == CloseTold(upstreamErr)
    ensures Telling(t, Closed(result), RecvAfterClose) == Told(ClosedPipe)
    ensures Telling(t, Closed(result), CloseAgain) == CloseTold(result)
  {
  }

  lemma NothingDone(t: TextModel, s: Status, a: Act)
    requires IsAlone(a)
    ensures Doing(t, s, a) == []
  {
  }

  lemma DoingFinal(t: TextModel, s: Status, answer: Answer, closeErr: Option<Error>, row: LlmCall, lost: Option<Error>)
    ensures var a := RecvFinal(answer, closeErr, row, lost);
      && Doing(t, s, a) == [Read(answer), UpstreamClosed(closeErr), Recorded(Outcome(answer), row, lost)]
      && Telling(t, s, a) == Told(Verdict(t, answer, closeErr, lost))
  {
    hide Verdict, Outcome;
  }

  class AuditedStream {
    const world: W.World
    const metadata: Provider.Metadata
    const startedAt: int
    const upstream: Upstream
    var terminal: bool
    var callerClosed: bool
    var upstreamClosed: bool
    var upstreamCloseErr: Option<Error>
    var closeResult: Option<Error>
    ghost var acts: seq<Act>
    ghost var joints: seq<Joint>
    ghost var log: seq<Step>

    ghost function Footprint(): set<object> { {this} + upstream.Footprint() }

    ghost function Status(): Status
      reads `acts
    {
      StatusOf(world.texts, acts)
    }

    /** The flags say what the calls so far made of the stream. */
    ghost predicate Flagged()
      reads this
    {
      match Status()
      case Open => !terminal && !callerClosed && !upstreamClosed
      case Terminal(upstreamErr) => terminal && !callerClosed && upstreamClosed && upstreamCloseErr == upstreamErr
      case Closed(result) => terminal && callerClosed && upstreamClosed && closeResult == result
      case Impossible => false
    }

    /** The upstream is sound, and a connector's stream was in state s after the calls so far. */
    ghost predicate Over(s: State)
      reads `acts, `joints, upstream.Footprint()
    {
      && upstream.Valid()
      && (upstream.connector != null ==> InStep(world.texts, upstream.connector.lib, joints, acts, s))
    }

    /** The log is that of the calls so far and of what the call under way did, and the upstream was used as it says. */
    ghost predicate Logged(part: seq<Step>)
      reads `acts, `log, upstream`contacts
    {
      Keeps(world.texts, acts, part, log, upstream.contacts)
    }

    ghost predicate Valid()
      reads Footprint()
    {
      Flagged() && Over(upstream.Below()) && Logged([])
    }

    constructor (world: W.World, metadata: Provider.Metadata, startedAt: int, upstream: Upstream)
      requires upstream.Valid() && upstream.contacts == [] && upstream.Below() == FRESH
      ensures Valid() && acts == [] && this.world == world && this.metadata == metadata && this.startedAt == startedAt
      ensures this.upstream == upstream
    {
      this.world, this.metadata, this.startedAt, this.upstream := world, metadata, startedAt, upstream;
      terminal, callerClosed, upstreamClosed := false, false, false;
      upstreamCloseErr, closeResult := None, None;
      acts, joints, log := [], [], [];
      new;
      if upstream.connector != null { InStepStart(world.texts, upstream.connector.lib); }
      KeepsNone(world.texts, [], [], []);
    }

    /** Reads the upstream once. */
    method ReadUpstream() returns (received: Answer, ghost pull: Option<Pull>)
      requires Valid() && Status().Open?
      modifies `log, upstream.Footprint()
      ensures JustRead(received, pull, old(upstream.Below()))
    {
      hide InStep, Keeps;
      OpenBelow();
      received, pull := upstream.Recv();
      KeepsMore(world.texts, acts, [], log, old(upstream.contacts), Read(received));
      log := log + [Read(received)];
      assert [] + [Read(received)] == [Read(received)];
    }

    /** While the stream is open a connector's stream is not done. */
    lemma OpenBelow()
      requires Valid() && Status().Open?
      ensures upstream.connector != null ==> !upstream.connector.done
    {
    }

    /** Closes the upstream, the first time only. */
    method CloseUpstream(ghost part: seq<Step>) returns (error: Option<Error>)
      requires upstream.Valid() && Logged(part)
      modifies `upstreamClosed, `upstreamCloseErr, `log, upstream.Footprint()
      ensures upstream.Valid() && upstreamClosed && error == upstreamCloseErr
      ensures Logged(if old(upstreamClosed) then part else part + [UpstreamClosed(error)])
      ensures old(upstreamClosed) ==>
        upstreamCloseErr == old(upstreamCloseErr) && upstream.Below() == old(upstream.Below())
      ensures !old(upstreamClosed) && upstream.connector != null ==>
        error.None? && upstream.Below() == old(upstream.Below()).(done := true, closed := true)
    {
      hide Keeps;
      if upstreamClosed { return upstreamCloseErr; }
      upstreamClosed := true;
      upstreamCloseErr := upstream.Close();
      KeepsMore(world.texts, acts, part, log, old(upstream.contacts), UpstreamClosed(upstreamCloseErr));
      log := log + [UpstreamClosed(upstreamCloseErr)];
      return upstreamCloseErr;
    }

    /** Writes the one row of the stream. */
    method Record(outcome: Result<Response>, ghost part: seq<Step>)
      returns (failure: Option<Error>, ghost row: LlmCall, ghost lost: Option<Error>)
      requires Logged(part)
      modifies `log, world
      ensures Provider.IsRowOf(world.texts, row, metadata, outcome) && row.success == outcome.Ok?
      ensures world.trace == old(world.trace) + [CallRecorded(outcome, row, lost)]
      ensures failure == Provider.RecordError(world.texts, outcome, lost)
      ensures Logged(part + [Recorded(outcome, row, lost)])
    {
      hide Keeps;
      failure, row, lost := Provider.RecordOutcome(world, metadata, startedAt, outcome);
      KeepsMore(world.texts, acts, part, log, upstream.contacts, Recorded(outcome, row, lost));
      assert upstream.contacts + [] == upstream.contacts;
      log := log + [Recorded(outcome, row, lost)];
    }

    /** Ends one more call, which moved a connector's stream on from s: its last step is told. */
    ghost method Tell(act: Act, pull: Option<Pull>, s: State)
      requires !After(world.texts, Status(), act).Impossible? && Over(s)
      requires upstream.connector != null ==>
        && Fits(upstream.connector.lib, s, Joint(act, pull))
        && upstream.Below() == Underneath(upstream.connector.lib, s, Joint(act, pull))
      requires Logged(Doing(world.texts, Status(), act))
      modifies `acts, `joints, `log
      ensures acts == old(acts) + [act] && Status() == After(world.texts, old(Status()), act)
      ensures Over(upstream.Below()) && Logged([])
    {
      hide InStep, Fits, Underneath, Keeps, After, Steps;
      ActAppend(world.texts, acts, act);
      if upstream.connector != null {
        InStepNext(world.texts, upstream.connector.lib, joints, acts, s, Joint(act, pull));
      }
      KeepsCall(world.texts, acts, act, log, upstream.contacts);
      log := log + [Telling(world.texts, Status(), act)];
      acts, joints := acts + [act], joints + [Joint(act, pull)];
    }

    /** The same for a call that only tells. */
    ghost method TellAlone(act: Act)
      requires IsAlone(act) && !After(world.texts, Status(), act).Impossible? && Over(upstream.Below()) && Logged([])
      modifies `acts, `joints, `log
      ensures acts == old(acts) + [act] && Status() == After(world.texts, old(Status()), act)
      ensures Over(upstream.Below()) && Logged([])
    {
      hide InStep, Fits, Underneath, Keeps, After, Steps, Doing;
      if upstream.connector != null {
        BelowAlone(act, upstream.connector.lib, upstream.Below());
      }
      NothingDone(world.texts, Status(), act);
      Tell(act, None, upstream.Below());
    }

    /** The rows a call writes. */
    function RowsOf(act: Act): seq<Event> {
      match act
      case RecvFinal(answer, _, row, lost) => [CallRecorded(Outcome(answer), row, lost)]
      case CloseOpen(_, row, lost) => [CallRecorded(Err(CLOSED_EARLY), row, lost)]
      case _ => []
    }

    /** An answer has just been read; s is where a connector's stream was before. */
    ghost predicate JustRead(answer: Answer, pull: Option<Pull>, s: State)
      reads Footprint()
    {
      && Flagged() && Status().Open? && Over(s) && Logged([Read(answer)])
      && (upstream.connector != null ==>
            pull.Some? && answer == PullAnswer(upstream.connector.lib, s.chunks, pull.value) &&
              upstream.Below() == AfterPull(upstream.connector.lib, s, pull.value))
    }

    /** Passes a delta on. */
    method Pass(received: Answer, ghost pull: Option<Pull>, ghost s: State) returns (answer: Answer, ghost act: Act)
      requires JustRead(received, pull, s) && IsDelta(received)
      modifies `acts, `joints, `log
      ensures Valid() && acts == old(acts) + [act] && act == RecvDelta(received) && answer == received
    {
      hide InStep, Keeps, PullAnswer;
      act := RecvDelta(received);
      assert Doing(world.texts, Status(), act) == [Read(received)];
      Tell(act, pull, s);
      return received, act;
    }

    /** Ends the stream: closes the upstream, writes the row, and has the verdict told. */
    method Finish(answer: Answer, outcome: Result<Response>, ghost pull: Option<Pull>, ghost s: State)
      returns (closeErr: Option<Error>, failure: Option<Error>, ghost act: Act)
      requires JustRead(answer, pull, s) && !IsDelta(answer) && Outcome(answer) == outcome
      modifies this, world, upstream.Footprint()
      ensures Valid() && acts == old(acts) + [act] && act.RecvFinal? && act.answer == answer && act.closeErr == closeErr
      ensures Provider.IsRowOf(world.texts, act.row, metadata, outcome)
      ensures world.trace == old(world.trace) + RowsOf(act)
      ensures failure == Provider.RecordError(world.texts, outcome, act.lost)
    {
      hide InStep, Provider.IsRowOf, Provider.RecordError, After, Fits, Underneath, PullAnswer, AfterPull, Outcome,
        Keeps, Steps, Doing, Verdict;
      terminal := true;
      closeErr := CloseUpstream([Read(answer)]);
      ghost var row, lost;
      failure, row, lost := Record(outcome, [Read(answer)] + [UpstreamClosed(closeErr)]);
      act := RecvFinal(answer, closeErr, row, lost);
      DoingFinal(world.texts, Status(), answer, closeErr, row, lost);
      assert [Read(answer)] + [UpstreamClosed(closeErr)] + [Recorded(outcome, row, lost)]
        == [Read(answer), UpstreamClosed(closeErr), Recorded(outcome, row, lost)];
      if upstream.connector != null {
        FinalMoves(world.texts, upstream.connector.lib, s, answer, pull, closeErr, row, lost);
      }
      EndsOpen(world.texts, answer, closeErr, row, lost);
      Tell(act, pull, s);
    }

    /** Ends the stream with a failure. */
    method Fail(answer: Answer, cause: Error, ghost pull: Option<Pull>, ghost s: State)
      returns (error: Error, ghost act: Act)
      requires JustRead(answer, pull, s) && !IsDelta(answer) && Outcome(answer) == Err(cause)
      modifies this, world, upstream.Footprint()
      ensures Valid() && acts == old(acts) + [act] && act.RecvFinal? && act.answer == answer
      ensures Provider.IsRowOf(world.texts, act.row, metadata, Err(cause))
      ensures world.trace == old(world.trace) + RowsOf(act)
      ensures Fault(error) == Verdict(world.texts, answer, act.closeErr, act.lost)
    {
      hide *;
      var closeErr, outcomeErr;
      closeErr, outcomeErr, act := Finish(answer, Err(cause), pull, s);
      VerdictFailed(world.texts, answer, closeErr, act.lost, cause);
      return JoinStreamErrors(world.texts, closeErr, outcomeErr).value, act;
    }

    /** Ends the stream with its response, which is told only when the row is written. */
    method Complete(answer: Answer, response: Response, ghost pull: Option<Pull>, ghost s: State)
      returns (told: Answer, ghost act: Act)
      requires JustRead(answer, pull, s) && !IsDelta(answer) && Outcome(answer) == Ok(response)
      modifies this, world, upstream.Footprint()
      ensures Valid() && acts == old(acts) + [act] && act.RecvFinal? && act.answer == answer
      ensures Provider.IsRowOf(world.texts, act.row, metadata, Ok(response))
      ensures world.trace == old(world.trace) + RowsOf(act)
      ensures told == Verdict(world.texts, answer, act.closeErr, act.lost)
    {
      hide *;
      var closeErr, error;
      closeErr, error, act := Finish(answer, Ok(response), pull, s);
      VerdictWritten(world.texts, answer, closeErr, act.lost, response);
      if error.Some? { return Fault(error.value), act; }
      return answer, act;
    }

    /** Receives one event: the upstream is read at most once, and the answer is what the log says was told. */
    method Recv() returns (answer: Answer, ghost act: Act)
      requires Valid()
      modifies this, world, upstream.Footprint()
      ensures Valid() && acts == old(acts) + [act] && !act.CloseOpen? && !act.CloseEnded? && !act.CloseAgain?
      ensures Telling(world.texts, old(Status()), act) == Told(answer)
      ensures world.trace == old(world.trace) + RowsOf(act)
      ensures act.RecvFinal? ==> Provider.IsRowOf(world.texts, act.row, metadata, Outcome(act.answer))
    {
      hide InStep, Provider.IsRowOf, Keeps, Verdict, After, Steps, Telling, Doing, Outcome;
      AloneAfter(world.texts, upstreamCloseErr, closeResult);
      AloneTells(world.texts, upstreamCloseErr, closeResult);
      ghost var s := upstream.Below();
      if callerClosed {
        act := RecvAfterClose;
        TellAlone(act);
        return ClosedPipe, act;
      }
      if terminal {
        act := RecvAfterEnd;
        TellAlone(act);
        return EndOfFile, act;
      }
      var received, pull := ReadUpstream();
      answer, act := Settle(received, pull, s);
    }

    /** What becomes of an answer that was read. */
    method Settle(received: Answer, ghost pull: Option<Pull>, ghost s: State) returns (answer: Answer, ghost act: Act)
      requires JustRead(received, pull, s)
      modifies this, world, upstream.Footprint()
      ensures Valid() && acts == old(acts) + [act] && !act.CloseOpen? && !act.CloseEnded? && !act.CloseAgain?
      ensures Telling(world.texts, old(Status()), act) == Told(answer)
      ensures world.trace == old(world.trace) + RowsOf(act)
      ensures act.RecvFinal? ==> Provider.IsRowOf(world.texts, act.row, metadata, Outcome(act.answer))
    {
      hide InStep, Provider.IsRowOf, Keeps, Verdict, PullAnswer, AfterPull;
      var error: Error;
      match received {
        case Fault(cause) => error, act := Fail(received, cause, pull, s);
        case EndOfFile => error, act := Fail(received, Ended("ended before completed response"), pull, s);
        case ClosedPipe => error, act := Fail(received, Cause("io: read/write on closed pipe", None, None), pull, s);
        case Event(event) =>
          match event.kind {
            case DeltaKind =>
              if event.response.None? {
                answer, act := Pass(received, pull, s);
                return;
              }
              error, act := Fail(received, Ended("delta contains completed response"), pull, s);
            case CompletedKind =>
              if event.response.Some? {
                answer, act := Complete(received, event.response.value, pull, s);
                return;
              }
              error, act := Fail(received, Ended("completed without response"), pull, s);
            case OtherKind(_) => error, act := Fail(received, Ended("returned unknown event kind"), pull, s);
          }
      }
      return Fault(error), act;
    }

    /** Closes the stream; one that was still open is recorded as failed. */
    method Close() returns (result: Option<Error>, ghost act: Act)
      requires Valid()
      modifies this, world, upstream.Footprint()
      ensures Valid() && acts == old(acts) + [act] && (act.CloseOpen? || act.CloseEnded? || act.CloseAgain?)
      ensures Telling(world.texts, old(Status()), act) == CloseTold(result)
      ensures world.trace == old(world.trace) + RowsOf(act)
      ensures act.CloseOpen? ==> Provider.IsRowOf(world.texts, act.row, metadata, Err(CLOSED_EARLY))
    {
      hide InStep, Provider.IsRowOf, Keeps, JoinStreamErrors, Provider.RecordError, After, Steps, Telling, Doing,
        Outcome;
      AloneAfter(world.texts, upstreamCloseErr, closeResult);
      AloneTells(world.texts, upstreamCloseErr, closeResult);
      ghost var s := upstream.Below();
      if callerClosed {
        act := CloseAgain;
        TellAlone(act);
        return closeResult, act;
      }
      callerClosed := true;
      var closeErr := CloseUpstream([]);
      if terminal {
        result, act := EndClosed(closeErr);
        return;
      }
      assert [] + [UpstreamClosed(closeErr)] == [UpstreamClosed(closeErr)];
      result, act := EndEarly(closeErr, s);
    }

    /** The part of Close for a stream that had ended. */
    method EndClosed(closeErr: Option<Error>) returns (result: Option<Error>, ghost act: Act)
      requires Status() == Terminal(closeErr) && Over(upstream.Below()) && Logged([])
      requires terminal && callerClosed && upstreamClosed
      modifies `closeResult, `acts, `joints, `log
      ensures Valid() && acts == old(acts) + [act] && act == CloseEnded && result == closeErr
    {
      hide InStep, Keeps, After, Steps, Doing;
      AloneAfter(world.texts, closeErr, closeResult);
      closeResult := closeErr;
      act := CloseEnded;
      TellAlone(act);
      return closeResult, act;
    }

    /** The part of Close for a stream that was still open. */
    method EndEarly(closeErr: Option<Error>, ghost s: State) returns (result: Option<Error>, ghost act: Act)
      requires Status().Open? && Over(s) && callerClosed && upstreamClosed && Logged([UpstreamClosed(closeErr)])
      requires upstream.connector != null ==> closeErr.None? && upstream.Below() == s.(done := true, closed := true)
      modifies this, world
      ensures Valid() && acts == old(acts) + [act] && act.CloseOpen?
      ensures Telling(world.texts, old(Status()), act) == CloseTold(result)
      ensures world.trace == old(world.trace) + RowsOf(act)
      ensures Provider.IsRowOf(world.texts, act.row, metadata, Err(CLOSED_EARLY))
    {
      hide InStep, Provider.IsRowOf, Provider.RecordError, JoinStreamErrors, After, Text, Keeps;
      var terminalErr, row, lost := Record(Err(CLOSED_EARLY), [UpstreamClosed(closeErr)]);
      terminal := true;
      closeResult := JoinStreamErrors(world.texts, closeErr, terminalErr);
      EndsEarly(world.texts, closeErr, row, lost);
      act := CloseOpen(closeErr, row, lost);
      assert Doing(world.texts, Status(), act)
        == [UpstreamClosed(closeErr)] + [Recorded(Err(CLOSED_EARLY), row, lost)];
      Tell(act, None, s);
      return closeResult, act;
    }

    /** At any time between calls: what really happened at the stream's boundaries is orderly, and the upstream itself
        was closed and the outcome recorded once, exactly when the stream is no longer open. */
    lemma AlwaysOrderly()
      requires Valid()
      ensures Orderly(log) && RefusalsGrounded(log) && CompletedIffWritten(log) && CompletedGrounded(log)
      ensures FailuresTold(world.texts, log)
      ensures Records(log) == UpstreamCloses(log) == if Status().Open? then 0 else 1
      ensures upstream.contacts == Contacts(log)
    {
      KeepsNone(world.texts, acts, log, upstream.contacts);
      hide Orderly, RefusalsGrounded, CompletedIffWritten, CompletedGrounded, FailuresTold, Contacts, InStep;
      StreamsOrderly(world.texts, acts);
      RecordedOnce(world.texts, acts);
    }
  }

  /** Starts a stream: a refusal writes nothing, a failed start writes its one row, and an open stream has
      written nothing yet. */
  method ChatStream(service: Provider.Service, world: W.World, sessionID: string, selected: Profile,
    upstream: Upstream)
    returns (stream: Option<AuditedStream>, failure: Option<Error>)
    requires upstream.Valid() && upstream.contacts == [] && upstream.Below() == FRESH
    modifies world
    ensures stream.Some? <==> failure.None?
    ensures match stream
      case Some(started) =>
        && fresh(started) && started.Valid() && started.acts == [] && started.world == world &&
            started.upstream == upstream
        && started.metadata == Provider.MetadataFrom(sessionID, selected)
        && world.trace == old(world.trace)
      case None =>
        || world.trace == old(world.trace)
        || exists error, row, lost ::
             && world.trace == old(world.trace) + [CallRecorded(Err(error), row, lost)]
             && Provider.IsRowOf(world.texts, row, Provider.MetadataFrom(sessionID, selected), Err(error))
             && failure == Provider.RecordError(world.texts, Err(error), lost)
    ensures Provider.Refusal(service, sessionID, selected).Some? ==>
      failure == Provider.Refusal(service, sessionID, selected) && world.trace == old(world.trace)
  {
    var refusal, unresolved := Provider.PrepareCall(service, world, sessionID, selected);
    if refusal.Some? { return None, refusal; }
    var startedAt := world.Now();
    var callErr: Option<Error> := world.Ask();
    var nilStream: bool := world.Ask();
    if callErr.None? && nilStream {
      callErr := Some(Cause("model returned nil response stream", None, None));
    }
    if callErr.Some? {
      ghost var row, lost;
      failure, row, lost := Provider.RecordOutcome(world, Provider.MetadataFrom(sessionID, selected), startedAt,
        Err(callErr.value));
      return None, failure;
    }
    var started := new AuditedStream(world, Provider.MetadataFrom(sessionID, selected), startedAt, upstream);
    return Some(started), None;
  }
}
