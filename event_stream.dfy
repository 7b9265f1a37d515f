/**
 * The server-sent event stream both streaming handlers write to: every event
 * is framed as `data: <payload>\n\n`, errors carry `{"error": "<text>"}`, a
 * finished turn writes `[DONE]`. The writer is an object the handlers write
 * to one chunk at a time and then close or abort.
 */
module EventStream {

  const FramePrefix: string := "data: "
  const FrameSuffix: string := "\n\n"

  /** `data: <payload>\n\n`. */
  function Frame(payload: string): string
  {
    FramePrefix + payload + FrameSuffix
  }

  predicate IsFramed(event: string)
  {
    |event| >= |FramePrefix| + |FrameSuffix|
    && event[..|FramePrefix|] == FramePrefix
    && event[|event| - |FrameSuffix|..] == FrameSuffix
  }

  /** The payload of a framed event. */
  function Unframe(event: string): string
    requires IsFramed(event)
  {
    event[|FramePrefix|..|event| - |FrameSuffix|]
  }

  /** Framing can be undone: the payload is recovered from its event. */
  lemma FrameUnframe(payload: string)
    ensures IsFramed(Frame(payload))
    ensures Unframe(Frame(payload)) == payload
  {
    var e := Frame(payload);
    assert e[..|FramePrefix|] == FramePrefix;
    assert e[|e| - |FrameSuffix|..] == FrameSuffix;
    assert e[|FramePrefix|..|e| - |FrameSuffix|] == payload;
  }

  /** Every framed event is the frame of its payload. */
  lemma UnframeFrame(event: string)
    requires IsFramed(event)
    ensures Frame(Unframe(event)) == event
  {
    var p := Unframe(event);
    assert event == event[..|FramePrefix|] + p + event[|event| - |FrameSuffix|..];
  }

  /** The JSON error payload, with the text inserted unescaped. */
  function ErrorPayload(message: string): string
  {
    "{\"error\": \"" + message + "\"}"
  }

  function ErrorEvent(message: string): string
  {
    Frame(ErrorPayload(message))
  }

  const DoneEvent: string := Frame("[DONE]")

  /** Distinct error texts give distinct events, and no error event is the `[DONE]` event. */
  lemma ErrorEventsDistinct(m1: string, m2: string)
    ensures ErrorEvent(m1) == ErrorEvent(m2) <==> m1 == m2
    ensures ErrorEvent(m1) != DoneEvent
  {
    FrameUnframe(ErrorPayload(m1));
    FrameUnframe(ErrorPayload(m2));
    FrameUnframe("[DONE]");
    if ErrorEvent(m1) == ErrorEvent(m2) {
      var p1 := ErrorPayload(m1);
      var p2 := ErrorPayload(m2);
      assert p1 == p2;
      assert m1 == p1[11..|p1| - 2];
      assert m2 == p2[11..|p2| - 2];
    }
    assert ErrorPayload(m1)[0] == '{';
  }

  /** A thrown value: an `Error` with its message, or anything else. */
  datatype Thrown = ErrorValue(message: string) | OtherValue

  /** `error instanceof Error ? error.message : 'An unknown error occurred'`. */
  function ThrownText(t: Thrown): string
  {
    match t
    case ErrorValue(message) => message
    case OtherValue => "An unknown error occurred"
  }

  /** The writable end of a stream: what has been written, and whether it is closed or aborted. */
  datatype StreamState = Open | Closed | Aborted

  class StreamWriter {
    var written: seq<string>
    var state: StreamState

    constructor()
      ensures written == [] && state == Open
    {
      written := [];
      state := Open;
    }

    method Write(chunk: string)
      requires state == Open
      modifies this
      ensures written == old(written) + [chunk] && state == Open
    {
      written := written + [chunk];
    }

    /** Writes the chunks one after another. */
    method WriteAll(chunks: seq<string>)
      requires state == Open
      modifies this
      ensures written == old(written) + chunks && state == Open
    {
      var i := 0;
      while i < |chunks|
        invariant 0 <= i <= |chunks|
        invariant written == old(written) + chunks[..i] && state == Open
      {
        assert chunks[..i + 1] == chunks[..i] + [chunks[i]];
        Write(chunks[i]);
        i := i + 1;
      }
      assert chunks[..i] == chunks;
    }

    method Close()
      requires state == Open
      modifies this
      ensures written == old(written) && state == Closed
    {
      state := Closed;
    }

    method Abort()
      requires state == Open
      modifies this
      ensures written == old(written) && state == Aborted
    {
      state := Aborted;
    }
  }
}
