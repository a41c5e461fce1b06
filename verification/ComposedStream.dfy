/** What a caller sees when the audited stream runs over the one that reads a connector
    (internal/provider/stream.go, internal/provider/eino_adapter.go). */
module ComposedStream {
  import opened Base
  import opened Llm
  import opened Audit
  import opened EinoStream
  import opened Stream
  import Provider

  /** What the caller was told of deltas, in order. */
  function Deltas(log: seq<Step>): seq<Answer> {
    if log == [] then []
    else
      var x := log[|log| - 1];
      Deltas(log[..|log| - 1]) + if x.Told? && IsDelta(x.answer) then [x.answer] else []
  }

  lemma {:induction false} DeltasConcat(a: seq<Step>, b: seq<Step>)
    ensures Deltas(a + b) == Deltas(a) + Deltas(b)
  {
    if b == [] {
      assert a + b == a;
    } else {
      assert (a + b)[..|a + b| - 1] == a + b[..|b| - 1];
      DeltasConcat(a, b[..|b| - 1]);
    }
  }

  /** The deltas told are the chunks converted, in order: all of them, but for a last one that ended the stream. */
  ghost predicate ChunksInOrder(lib: Library, chunks: seq<Raw>, deltas: seq<Answer>) {
    && |deltas| <= |chunks| <= |deltas| + 1
    && forall k | 0 <= k < |deltas| ::
         lib.convertChunk(chunks[k]).Ok? &&
           deltas[k] == Event(StreamEvent(DeltaKind, lib.convertChunk(chunks[k]).value, None))
  }

  /** A completed response that the caller was told is the conversion of the concatenation of all chunks. */
  ghost predicate CompletedIsMerged(lib: Library, chunks: seq<Raw>, log: seq<Step>) {
    forall i | 0 <= i < |log| && log[i].Told? && log[i].answer.Event? && !IsDelta(log[i].answer) ::
      && lib.concat(chunks).Ok? && lib.convertResponse(lib.concat(chunks).value).Ok?
      && log[i].answer.event.kind.CompletedKind?
      && log[i].answer.event.response == Some(lib.convertResponse(lib.concat(chunks).value).value)
      && |Deltas(log)| == |chunks| > 0
  }

  lemma DeltasOne(x: Step)
    ensures Deltas([x]) == if x.Told? && IsDelta(x.answer) then [x.answer] else []
  {
    assert [x][..0] == [];
  }

  lemma {:induction false} DeltasNone(steps: seq<Step>)
    requires forall i | 0 <= i < |steps| :: steps[i].Told? ==> !IsDelta(steps[i].answer)
    ensures Deltas(steps) == []
  {
    if steps != [] { DeltasNone(steps[..|steps| - 1]); }
  }

  lemma StepDeltas(t: TextModel, s: Status, a: Act)
    requires !After(t, s, a).Impossible?
    ensures Deltas(Steps(t, s, a)) == if a.RecvDelta? then [a.event] else []
  {
    if a.RecvFinal? { VerdictConcludes(t, a.answer, a.closeErr, a.lost); }
    hide Verdict, JoinStreamErrors, Provider.RecordError, Outcome, Deltas;
    if a.RecvDelta? {
      DeltasOne(Read(a.event));
      DeltasOne(Told(a.event));
      DeltasConcat([Read(a.event)], [Told(a.event)]);
      assert Steps(t, s, a) == [Read(a.event)] + [Told(a.event)];
    } else {
      DeltasNone(Steps(t, s, a));
    }
  }

  /** The caller of the composed stream sees the chunks converted in order, then one ending: the merged
      response or an error. The reader is done exactly when the audited stream is no longer open. */
  lemma {:induction false} ComposedStream(t: TextModel, lib: Library, joints: seq<Joint>)
    requires Composed(t, lib, joints)
    ensures var chunks, log := StateOf(lib, joints).chunks, Log(t, Acts(joints));
      && ChunksInOrder(lib, chunks, Deltas(log)) && CompletedIsMerged(lib, chunks, log)
      && (StatusOf(t, Acts(joints)).Open? ==> |Deltas(log)| == |chunks|)
    ensures StateOf(lib, joints).done <==> !StatusOf(t, Acts(joints)).Open?
  {
    if joints != [] {
      var front, last := joints[..|joints| - 1], joints[|joints| - 1];
      ComposedStream(t, lib, front);
      ActAppend(t, Acts(front), last.act);
      StreamsOrderly(t, Acts(front));
      StepDeltas(t, StatusOf(t, Acts(front)), last.act);
      DeltasConcat(Log(t, Acts(front)), Steps(t, StatusOf(t, Acts(front)), last.act));
      ComposedStep(t, lib, StatusOf(t, Acts(front)), StateOf(lib, front), Log(t, Acts(front)), last);
    }
  }

  lemma ComposedStep(t: TextModel, lib: Library, status: Status, s: State, log: seq<Step>, j: Joint)
    requires !After(t, status, j.act).Impossible? && Fits(lib, s, j) && Remembers(status, log)
    requires ChunksInOrder(lib, s.chunks, Deltas(log)) && CompletedIsMerged(lib, s.chunks, log)
    requires status.Open? ==> |Deltas(log)| == |s.chunks|
    requires s.done <==> !status.Open?
    requires Deltas(log + Steps(t, status, j.act)) == Deltas(log) + if j.act.RecvDelta? then [j.act.event] else []
    ensures var s', log' := Underneath(lib, s, j), log + Steps(t, status, j.act);
      && ChunksInOrder(lib, s'.chunks, Deltas(log')) && CompletedIsMerged(lib, s'.chunks, log')
      && (After(t, status, j.act).Open? ==> |Deltas(log')| == |s'.chunks|)
      && (s'.done <==> !After(t, status, j.act).Open?)
  {
    hide Deltas, JoinStreamErrors, Provider.RecordError;
  }

  /** So at any time between calls on an audited stream that reads a connector: the caller was told the chunks that
      the reader delivered, converted, in order, and a completed response only as the merge of them all; the reader is
      closed, once, exactly when the stream is no longer open. */
  lemma OverConnector(stream: AuditedStream)
    requires stream.Valid() && stream.upstream.connector != null
    ensures var below, log := stream.upstream.connector, stream.log;
      var delivered := Delivered(below.reader.pulls);
      && ChunksInOrder(below.lib, delivered, Deltas(log)) && CompletedIsMerged(below.lib, delivered, log)
      && OneEnd(below.lib, below.reader.pulls)
      && below.reader.closes == if stream.Status().Open? then 0 else 1
  {
    KeepsNone(stream.world.texts, stream.acts, stream.log, stream.upstream.contacts);
    hide ChunksInOrder, CompletedIsMerged, Log, Deltas, Composed, StateOf, Delivered, OneEnd, Contacts;
    ComposedStream(stream.world.texts, stream.upstream.connector.lib, stream.joints);
  }
}
