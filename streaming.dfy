/** What both streaming endpoints consume: a TextIteratorStreamer, seen from
    the consuming side as the text fragments it yields and how the iteration
    ends. The generating thread that feeds it is not modelled. */
module Streaming {
  import opened Common
  import opened Sse

  /** An exception that ends a `for` loop over the streamer by escaping it.
      StopIteration is not one: raised by the iterator it is how a `for` loop
      ends normally, so an iteration that raises it is an exhausted one. */
  type IterationError = x: Exception | !x.StopIteration? witness ValueError("")

  /** The fragments the iteration yields, in order, then either exhaustion
      (`failure` None) or the exception the iteration raises. */
  datatype Streamer = Streamer(fragments: seq<string>, failure: Option<IterationError>)

  /** The fragments the endpoints emit: the non-empty ones, in order. */
  function NonEmpty(fragments: seq<string>): seq<string>
  {
    if fragments == [] then []
    else
      var last := fragments[|fragments| - 1];
      NonEmpty(fragments[..|fragments| - 1]) + (if last == "" then [] else [last])
  }

  /** The concatenation of a sequence of fragments. */
  function Concat(fragments: seq<string>): string
  {
    if fragments == [] then "" else Concat(fragments[..|fragments| - 1]) + fragments[|fragments| - 1]
  }

  /** `finish_reason` after the loop: "stop" on exhaustion, "error" when the
      iteration raised (the exception is swallowed). */
  function FinishReason(streamer: Streamer): (reason: string)
    ensures reason == "stop" <==> streamer.failure.None?
    ensures reason == "error" <==> streamer.failure.Some?
  {
    if streamer.failure.None? then "stop" else "error"
  }

  lemma {:induction false} NonEmptyAppend(a: seq<string>, b: seq<string>)
    ensures NonEmpty(a + b) == NonEmpty(a) + NonEmpty(b)
    decreases |b|
  {
    if b == [] {
      assert a + b == a;
    } else {
      var last := b[|b| - 1];
      assert (a + b)[..|a + b| - 1] == a + b[..|b| - 1];
      NonEmptyAppend(a, b[..|b| - 1]);
    }
  }

  /** Filtering keeps exactly the non-empty fragments, in order: it splits over
      concatenation, keeps a non-empty fragment and drops an empty one. */
  lemma NonEmptyFilters(a: seq<string>, b: seq<string>, f: string)
    ensures NonEmpty(a + b) == NonEmpty(a) + NonEmpty(b)
    ensures NonEmpty([f]) == if f == "" then [] else [f]
    ensures forall i :: 0 <= i < |NonEmpty(a)| ==> NonEmpty(a)[i] != ""
    ensures |NonEmpty(a)| <= |a|
  {
    NonEmptyAppend(a, b);
    assert [f][..0] == [];
    NonEmptyFacts(a);
  }

  lemma {:induction false} NonEmptyFacts(a: seq<string>)
    ensures forall i :: 0 <= i < |NonEmpty(a)| ==> NonEmpty(a)[i] != ""
    ensures |NonEmpty(a)| <= |a|
  {
    if a != [] {
      NonEmptyFacts(a[..|a| - 1]);
    }
  }

  /** One more fragment read by the endpoint loops. */
  lemma NonEmptyStep(fragments: seq<string>, i: nat)
    requires i < |fragments|
    ensures NonEmpty(fragments[..i + 1]) == NonEmpty(fragments[..i]) + (if fragments[i] == "" then [] else [fragments[i]])
    ensures Concat(NonEmpty(fragments[..i + 1])) == Concat(NonEmpty(fragments[..i])) + fragments[i]
  {
    var before := NonEmpty(fragments[..i]);
    assert fragments[..i + 1][..i] == fragments[..i];
    if fragments[i] == "" {
      assert before + [] == before;
    } else {
      assert (before + [fragments[i]])[..|before|] == before;
    }
  }

  lemma {:induction false} ConcatAppend(a: seq<string>, b: seq<string>)
    ensures Concat(a + b) == Concat(a) + Concat(b)
    decreases |b|
  {
    if b == [] {
      assert a + b == a;
    } else {
      var init := b[..|b| - 1];
      var last := b[|b| - 1];
      assert (a + b)[..|a + b| - 1] == a + init;
      assert (a + b)[|a + b| - 1] == last;
      ConcatAppend(a, init);
      assert Concat(a + b) == (Concat(a) + Concat(init)) + last;
      assert Concat(b) == Concat(init) + last;
    }
  }

  /** Skipping the empty fragments loses no text. */
  lemma {:induction false} ConcatSkipsEmpty(fragments: seq<string>)
    ensures Concat(NonEmpty(fragments)) == Concat(fragments)
  {
    if fragments != [] {
      var init := fragments[..|fragments| - 1];
      var last := fragments[|fragments| - 1];
      ConcatSkipsEmpty(init);
      ConcatAppend(NonEmpty(init), if last == "" then [] else [last]);
      assert Concat([last]) == last by { assert [last][..0] == []; }
    }
  }

  // ---------------------------------------------------------------------------
  // The wire

  /** What a streaming endpoint yields: a response chunk, framed by
      `format_sse`, or the literal end-of-stream marker. */
  datatype StreamEvent<R> = ChunkEvent(response: R) | DoneEvent

  /** The text of one event: `format_sse` of the serialised chunk, or the
      marker. `dumps` stands for `json.dumps` of `model_dump()`. */
  function Render<R>(ev: StreamEvent<R>, dumps: R -> string): string
  {
    match ev
    case ChunkEvent(response) => FormatSse(dumps(response), DefaultField)
    case DoneEvent => DoneMarker
  }

  function RenderAll<R>(events: seq<StreamEvent<R>>, dumps: R -> string): string
  {
    if events == [] then "" else Render(events[0], dumps) + RenderAll(events[1..], dumps)
  }

  /** The `data` payload of each event. */
  function Payloads<R>(events: seq<StreamEvent<R>>, dumps: R -> string): (payloads: seq<string>)
    ensures |payloads| == |events|
  {
    seq(|events|, i requires 0 <= i < |events| => if events[i].ChunkEvent? then dumps(events[i].response) else "[DONE]")
  }

  lemma {:induction false} RenderAllIsFrames<R>(events: seq<StreamEvent<R>>, dumps: R -> string)
    ensures RenderAll(events, dumps) == Frames(Payloads(events, dumps))
  {
    if events != [] {
      DoneMarkerIsFrame();
      RenderAllIsFrames(events[1..], dumps);
      assert Payloads(events, dumps)[1..] == Payloads(events[1..], dumps);
    }
  }

  /** Provided the serialiser writes no line feed (json.dumps without indent
      escapes them), a client reading the stream's text receives one event per
      yielded item, in order: the serialised chunks and then "[DONE]". */
  lemma StreamReachesClient<R>(events: seq<StreamEvent<R>>, dumps: R -> string)
    requires forall r: R :: '\n' !in dumps(r)
    ensures DataEvents(RenderAll(events, dumps), []) == Payloads(events, dumps)
  {
    var payloads := Payloads(events, dumps);
    forall i | 0 <= i < |payloads|
      ensures '\n' !in payloads[i]
    {
      if events[i].DoneEvent? {
        assert payloads[i] == "[DONE]";
      }
    }
    RenderAllIsFrames(events, dumps);
    FramesDeliver(payloads);
  }
}
