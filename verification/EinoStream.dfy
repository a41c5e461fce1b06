/** The response stream over a connector's reader (internal/provider/eino_adapter.go). Conversion and concatenation of
    chunks are any functions. */
module EinoStream {
  import opened Base
  import opened Llm

  datatype Kind = DeltaKind | CompletedKind | OtherKind(name: string)

  datatype StreamEvent = StreamEvent(kind: Kind, delta: Message, response: Option<Response>)

  /** What a Recv of a response stream answers. */
  datatype Answer = Event(event: StreamEvent) | Fault(error: Error) | EndOfFile | ClosedPipe

  /** A well-formed delta leaves the stream open; any other answer ends it. */
  predicate IsDelta(answer: Answer) {
    answer.Event? && answer.event.kind.DeltaKind? && answer.event.response.None?
  }

  /** A message of the connector library. */
  datatype Raw = Raw(text: string)

  datatype Library = Library(
    convertChunk: Raw -> Result<Message>, concat: seq<Raw> -> Result<Raw>, convertResponse: Raw -> Result<Response>)

  /** What the reader answers: a chunk, which may be nil, its end, or an error. */
  datatype Pull = Got(chunk: Option<Raw>) | AtEnd | Broken(error: Error)

  datatype State = State(chunks: seq<Raw>, done: bool, closed: bool)

  const FRESH := State([], false, false)

  function DeltaOf(m: Message): Answer { Event(StreamEvent(DeltaKind, m, None)) }

  function CompletedOf(r: Response): Answer { Event(StreamEvent(CompletedKind, TextMessage("", ""), Some(r))) }

  function Failure(text: string): Answer { Fault(Cause(text, None, None)) }

  /** The merged response of all chunks. */
  function Merged(lib: Library, chunks: seq<Raw>): Result<Response> {
    match lib.concat(chunks)
    case Err(error) => Err(Wrapped("merge Eino stream response", Text(error), Some(error)))
    case Ok(whole) => lib.convertResponse(whole)
  }

  /** What a Recv answers when it pulls from the reader. */
  function PullAnswer(lib: Library, chunks: seq<Raw>, pull: Pull): Answer {
    match pull
    case Got(None) => Failure("Eino connector returned nil stream chunk")
    case Got(Some(chunk)) =>
      (match lib.convertChunk(chunk)
       case Ok(delta) => Event(StreamEvent(DeltaKind, delta, None))
       case Err(error) => Fault(error))
    case Broken(error) => Fault(error)
    case AtEnd =>
      if chunks == [] then Failure("Eino connector stream completed without a response")
      else (match Merged(lib, chunks)
            case Ok(response) => Event(StreamEvent(CompletedKind, TextMessage("", ""), Some(response)))
            case Err(error) => Fault(error))
  }

  /** The state after a pull: a chunk is kept even when it cannot be converted. */
  function AfterPull(lib: Library, s: State, pull: Pull): State {
    s.(chunks := if pull.Got? && pull.chunk.Some? then s.chunks + [pull.chunk.value] else s.chunks,
       done := !IsDelta(PullAnswer(lib, s.chunks, pull)))
  }

  // ---------- What the reader delivered ----------

  /** The chunks among the reader's answers, in order. */
  function Delivered(pulls: seq<Pull>): seq<Raw> {
    if pulls == [] then []
    else
      var p := pulls[|pulls| - 1];
      Delivered(pulls[..|pulls| - 1]) + if p.Got? && p.chunk.Some? then [p.chunk.value] else []
  }

  lemma DeliveredAppend(pulls: seq<Pull>, p: Pull)
    ensures Delivered(pulls + [p]) == Delivered(pulls) + if p.Got? && p.chunk.Some? then [p.chunk.value] else []
  {
    assert (pulls + [p])[..|pulls|] == pulls;
  }

  /** No answer but the last ended the stream. */
  ghost predicate OneEnd(lib: Library, pulls: seq<Pull>) {
    forall k | 0 <= k < |pulls| - 1 :: IsDelta(PullAnswer(lib, Delivered(pulls[..k]), pulls[k]))
  }

  /** The last answer ended the stream. */
  ghost predicate AtItsEnd(lib: Library, pulls: seq<Pull>) {
    pulls != [] && !IsDelta(PullAnswer(lib, Delivered(pulls[..|pulls| - 1]), pulls[|pulls| - 1]))
  }

  lemma PullAppended(lib: Library, pulls: seq<Pull>, p: Pull)
    requires OneEnd(lib, pulls) && !AtItsEnd(lib, pulls)
    ensures OneEnd(lib, pulls + [p]) && (AtItsEnd(lib, pulls + [p]) <==> !IsDelta(PullAnswer(lib, Delivered(pulls), p)))
  {
    hide Delivered, PullAnswer, IsDelta;
    var more := pulls + [p];
    assert more[..|pulls|] == pulls;
    forall k | 0 <= k < |pulls| ensures IsDelta(PullAnswer(lib, Delivered(more[..k]), more[k])) {
      assert more[..k] == pulls[..k];
    }
  }

  /** A connector's reader: it may answer anything, and keeps what it was asked. */
  class Reader {
    ghost var pulls: seq<Pull>
    ghost var closes: nat

    constructor ()
      ensures pulls == [] && closes == 0
    {
      pulls, closes := [], 0;
    }

    method Recv() returns (p: Pull)
      modifies `pulls
      ensures pulls == old(pulls) + [p]
    {
      p := *;
      pulls := pulls + [p];
    }

    method Close()
      modifies `closes
      ensures closes == old(closes) + 1
    {
      closes := closes + 1;
    }
  }

  class EinoResponseStream {
    const reader: Reader
    const lib: Library
    var chunks: seq<Raw>
    var done: bool
    var closed: bool
    var readerClosed: bool

    ghost function Abstract(): State
      reads this
    {
      State(chunks, done, closed)
    }

    /** The chunks are exactly those the reader delivered; it is not read after an answer that ended the stream, and
        is closed exactly when the stream is done, and only once. */
    ghost predicate Valid()
      reads this, reader
    {
      && (closed ==> done) && (readerClosed <==> done) && reader.closes == (if done then 1 else 0)
      && chunks == Delivered(reader.pulls) && OneEnd(lib, reader.pulls) && (AtItsEnd(lib, reader.pulls) ==> done)
    }

    constructor (reader: Reader, lib: Library)
      requires reader.pulls == [] && reader.closes == 0
      ensures Valid() && Abstract() == FRESH && this.reader == reader && this.lib == lib
    {
      this.reader, this.lib := reader, lib;
      chunks, done, closed, readerClosed := [], false, false, false;
    }

    method CloseReader()
      modifies `readerClosed, reader`closes
      ensures readerClosed && reader.closes == old(reader.closes) + if old(readerClosed) then 0 else 1
    {
      if !readerClosed {
        readerClosed := true;
        reader.Close();
      }
    }

    method Finish()
      modifies `done, `readerClosed, reader`closes
      ensures done && readerClosed && reader.closes == old(reader.closes) + if old(readerClosed) then 0 else 1
    {
      done := true;
      CloseReader();
    }

    /** Asks the reader once, unless the stream is done; the answer is the chunk converted, the conversion of all
        chunks together, or the failure. */
    method Recv() returns (answer: Answer, ghost pull: Option<Pull>)
      requires Valid()
      modifies this, reader
      ensures Valid() && (pull.Some? <==> !old(done))
      ensures reader.pulls == old(reader.pulls) + if pull.Some? then [pull.value] else []
      ensures match pull
        case Some(p) => answer == PullAnswer(lib, old(chunks), p) && Abstract() == AfterPull(lib, old(Abstract()), p)
        case None => answer == (if old(closed) then ClosedPipe else EndOfFile) && Abstract() == old(Abstract())
    {
      hide OneEnd, AtItsEnd, Delivered;
      if closed { return ClosedPipe, None; }
      if done { return EndOfFile, None; }
      var p := reader.Recv();
      pull := Some(p);
      DeliveredAppend(old(reader.pulls), p);
      PullAppended(lib, old(reader.pulls), p);
      match p {
        case Got(chunk) =>
          if chunk.None? {
            Finish();
            return Failure("Eino connector returned nil stream chunk"), pull;
          }
          chunks := chunks + [chunk.value];
          var delta := lib.convertChunk(chunk.value);
          if delta.Err? {
            Finish();
            return Fault(delta.error), pull;
          }
          return DeltaOf(delta.value), pull;
        case Broken(error) =>
          Finish();
          return Fault(error), pull;
        case AtEnd =>
          if |chunks| == 0 {
            Finish();
            return Failure("Eino connector stream completed without a response"), pull;
          }
          var message := lib.concat(chunks);
          if message.Err? {
            Finish();
            return Fault(Wrapped("merge Eino stream response", Text(message.error), Some(message.error))), pull;
          }
          var response := lib.convertResponse(message.value);
          Finish();
          if response.Err? { return Fault(response.error), pull; }
          return CompletedOf(response.value), pull;
      }
    }

    method Close()
      requires Valid()
      modifies this, reader`closes
      ensures Valid() && Abstract() == old(Abstract()).(done := true, closed := true)
    {
      closed := true;
      done := true;
      CloseReader();
    }
  }
}
