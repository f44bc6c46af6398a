/** The text-completions endpoint (src/api/endpoints/completions.py): the
    server-sent event stream built while the streamer is drained, and the
    single JSON response with its error mapping. */
module CompletionEndpoint {
  import opened Common
  import opened Runtime
  import opened Records
  import opened Samplers
  import opened CompletionTypes
  import opened Engine
  import opened Streaming

  type CompletionEvent = StreamEvent<CompletionResponse>

  /** The chunk for one non-empty fragment (lines 47-49). */
  function FragmentChunk(model: Option<string>, text: string): CompletionResponse
  {
    NewCompletionResponse(model, [NewCompletionChoice(text, None)], None)
  }

  /** The terminal chunk (lines 55-57): empty text, the finish reason, and
      no usage. */
  function TerminalChunk(model: Option<string>, reason: string): CompletionResponse
  {
    NewCompletionResponse(model, [NewCompletionChoice("", Some(reason))], None)
  }

  /** One text chunk per fragment. The chat endpoint has its own version over
      its delta chunks; the two differ only in the chunk they build. */
  function FragmentEvents(model: Option<string>, texts: seq<string>): (events: seq<CompletionEvent>)
    ensures |events| == |texts|
  {
    seq(|texts|, i requires 0 <= i < |texts| => ChunkEvent(FragmentChunk(model, texts[i])))
  }

  lemma FragmentEventsAppend(model: Option<string>, texts: seq<string>, text: string)
    ensures FragmentEvents(model, texts + [text]) == FragmentEvents(model, texts) + [ChunkEvent(FragmentChunk(model, text))]
  {
  }

  /** Reference definition of the stream: one chunk per non-empty fragment,
      the terminal chunk, the marker. Nothing in the `finally` block can
      raise, so every stream is terminated. */
  function CompletionStream(request: CompletionRequest, streamer: Streamer): seq<CompletionEvent>
  {
    FragmentEvents(request.model, NonEmpty(streamer.fragments))
    + [ChunkEvent(TerminalChunk(request.model, FinishReason(streamer))), DoneEvent]
  }

  /** `_stream_completion` (lines 18-59). The generation runs on a thread
      started before the loop (lines 23-37) and joined in the `finally` block:
      `background` is what that thread writes and calls, and its outcome is
      dropped. `handle` is the streamer object the thread is given; `streamer`
      is what iterating it yields. */
  method StreamCompletion(request: CompletionRequest, e: InferenceEngine, streamer: Streamer, handle: StreamerRef)
    returns (events: seq<CompletionEvent>, background: seq<Event>)
    ensures events == CompletionStream(request, streamer)
    ensures Logs(background) == ExpectedLogs(e.settings.log, PromptLog(request.prompt), Some(GenConfigOf(request.samplers)),
                                             TextOf(CompletionOutcome(e.model, e.tokenizer, request.prompt,
                                                                      Some(GenConfigOf(request.samplers)), Some(handle))))
    ensures |GenerateCalls(background)| <= 2
  {
    var genConfig := CompletionGenConfig(request);
    // thread.start()
    var dropped;
    dropped, background := GenerateCompletions(e, request.prompt, Some(genConfig), Some(handle));
    events := DrainAndFinish(request, streamer);
  }

  /** The `try`/`finally` of lines 41-59 around the thread: the chunks of the
      loop, the finish reason, the terminal chunk and the marker. */
  method DrainAndFinish(request: CompletionRequest, streamer: Streamer) returns (events: seq<CompletionEvent>)
    ensures events == CompletionStream(request, streamer)
  {
    events := DrainCompletion(request, streamer.fragments);
    var finishReason: Option<string>;
    if streamer.failure.None? {
      finishReason := Some("stop");
    } else {
      finishReason := Some("error");
    }
    // finally: thread.join()
    var finalChoice := NewCompletionChoice("", finishReason);
    events := events + [ChunkEvent(NewCompletionResponse(request.model, [finalChoice], None))];
    events := events + [DoneEvent];
  }

  /** The `for text in streamer` loop of lines 42-49: a chunk per non-empty
      fragment, with no finish reason yet. */
  method DrainCompletion(request: CompletionRequest, fragments: seq<string>) returns (events: seq<CompletionEvent>)
    ensures events == FragmentEvents(request.model, NonEmpty(fragments))
  {
    var finishReason: Option<string> := None;
    events := [];
    var i := 0;
    while i < |fragments|
      invariant 0 <= i <= |fragments|
      invariant events == FragmentEvents(request.model, NonEmpty(fragments[..i]))
      invariant finishReason == None
    {
      var text := fragments[i];
      NonEmptyStep(fragments, i);
      if text != "" {
        FragmentEventsAppend(request.model, NonEmpty(fragments[..i]), text);
        var choice := NewCompletionChoice(text, finishReason);
        events := events + [ChunkEvent(NewCompletionResponse(request.model, [choice], None))];
      } else {
        assert NonEmpty(fragments[..i]) + [] == NonEmpty(fragments[..i]);
      }
      i := i + 1;
    }
    assert fragments[..i] == fragments;
  }

  /** The text a client reads from the fragment chunks of a stream. */
  function StreamedText(events: seq<CompletionEvent>): string
  {
    if events == [] then ""
    else
      var last := events[|events| - 1];
      StreamedText(events[..|events| - 1])
      + (if last.ChunkEvent? && |last.response.choices| == 1 && last.response.choices[0].finishReason.None?
         then last.response.choices[0].text else "")
  }

  lemma {:induction false} StreamedTextOfFragments(model: Option<string>, texts: seq<string>)
    ensures StreamedText(FragmentEvents(model, texts)) == Concat(texts)
  {
    if texts != [] {
      var init := texts[..|texts| - 1];
      assert FragmentEvents(model, texts)[..|texts| - 1] == FragmentEvents(model, init);
      StreamedTextOfFragments(model, init);
    }
  }

  /** Every completion stream: one chunk per non-empty fragment, in order,
      carrying that fragment with no finish reason, together all the text the
      streamer yielded; then exactly one terminal chunk with empty text and
      finish reason "stop" exactly when the streamer was exhausted ("error"
      when it raised); then the marker, which appears nowhere else. No event
      carries usage. */
  lemma CompletionStreamShape(request: CompletionRequest, streamer: Streamer)
    ensures var events := CompletionStream(request, streamer);
            var texts := NonEmpty(streamer.fragments);
            var n := |texts|;
            && |events| == n + 2
            && (forall i :: 0 <= i < n ==>
                  && events[i].ChunkEvent?
                  && events[i].response.choices == [NewCompletionChoice(texts[i], None)]
                  && texts[i] != "")
            && StreamedText(events[..n]) == Concat(streamer.fragments)
            && events[n].ChunkEvent?
            && events[n].response.choices == [NewCompletionChoice("", Some(FinishReason(streamer)))]
            && (events[n].response.choices[0].finishReason == Some("stop") <==> streamer.failure.None?)
            && events[n + 1] == DoneEvent
            && (forall i :: 0 <= i < n + 1 ==> events[i].ChunkEvent? && events[i].response.usage.None?)
  {
    var events := CompletionStream(request, streamer);
    var texts := NonEmpty(streamer.fragments);
    NonEmptyFacts(streamer.fragments);
    assert events[..|texts|] == FragmentEvents(request.model, texts);
    StreamedTextOfFragments(request.model, texts);
    ConcatSkipsEmpty(streamer.fragments);
  }

  // ---------------------------------------------------------------------------
  // create_completion

  datatype CompletionReply = EventStream(events: seq<CompletionEvent>) | JsonBody(response: CompletionResponse)

  /** The error mapping of lines 96-101. */
  function CompletionHttpError(x: Exception): (h: Exception)
    ensures h.HttpException? && (x.HttpException? ==> h == x)
    ensures !x.HttpException? ==> h == HttpException(500, "Internal Server Error during generation. " + Str(x))
  {
    if x.HttpException? then x
    else HttpException(500, "Internal Server Error during generation. " + Str(x))
  }

  /** The JSON reply of lines 75-101. */
  function CompletionJsonReply(request: CompletionRequest, e: InferenceEngine): Outcome<CompletionResponse>
  {
    match CompletionOutcome(e.model, e.tokenizer, request.prompt, Some(CompletionGenConfig(request)), None)
    case Raise(x) => Raise(CompletionHttpError(x))
    case Ok(c) =>
      Ok(NewCompletionResponse(request.model, [NewCompletionChoice(c.text, Some("stop"))],
                               Some(UsageOf(c.promptTokens, c.completionTokens))))
  }

  /** `create_completion` (lines 63-101): `request.stream` alone chooses
      between the event stream and the JSON reply. */
  method CreateCompletion(request: CompletionRequest, e: InferenceEngine, streamer: Streamer, handle: StreamerRef)
    returns (r: Outcome<CompletionReply>, trace: seq<Event>)
    ensures request.stream ==> r == Ok(EventStream(CompletionStream(request, streamer)))
    ensures request.stream ==>
              && Logs(trace) == ExpectedLogs(e.settings.log, PromptLog(request.prompt), Some(GenConfigOf(request.samplers)),
                                             TextOf(CompletionOutcome(e.model, e.tokenizer, request.prompt,
                                                                      Some(GenConfigOf(request.samplers)), Some(handle))))
              && |GenerateCalls(trace)| <= 2
    ensures !request.stream ==>
              && (r.Ok? <==> CompletionJsonReply(request, e).Ok?)
              && (r.Ok? ==> r.value == JsonBody(CompletionJsonReply(request, e).value))
              && (r.Raise? ==> r.exc == CompletionJsonReply(request, e).exc)
              && Logs(trace) == ExpectedLogs(e.settings.log, PromptLog(request.prompt), Some(GenConfigOf(request.samplers)),
                                             if r.Ok? then Some(r.value.response.choices[0].text) else None)
  {
    if request.stream {
      var events, background := StreamCompletion(request, e, streamer, handle);
      return Ok(EventStream(events)), background;
    }
    var genConfig := CompletionGenConfig(request);
    var generated;
    generated, trace := GenerateCompletions(e, request.prompt, Some(genConfig), None);
    if generated.Raise? {
      return Raise(CompletionHttpError(generated.exc)), trace;
    }
    var c := generated.value;
    var usage := UsageInfo(c.promptTokens, Some(c.completionTokens), c.promptTokens + c.completionTokens);
    var choice := NewCompletionChoice(c.text, Some("stop"));
    r := Ok(JsonBody(NewCompletionResponse(request.model, [choice], Some(usage))));
  }

  /** A JSON reply holds one choice, the generated text with finish reason
      "stop" and usage adding up to the whole output; a failure is always an
      HTTP error, the engine's own HTTP errors passing through unchanged. */
  lemma CompletionJsonReplyShape(request: CompletionRequest, e: InferenceEngine)
    ensures var r := CompletionJsonReply(request, e);
            var c := CompletionOutcome(e.model, e.tokenizer, request.prompt, Some(GenConfigOf(request.samplers)), None);
            && (r.Ok? <==> c.Ok?)
            && (r.Ok? ==>
                  && r.value.model == request.model
                  && r.value.choices == [CompletionChoice(c.value.text, 0, None, Some("stop"))]
                  && r.value.usage.Some?
                  && r.value.usage.value.promptTokens == c.value.promptTokens
                  && r.value.usage.value.completionTokens == Some(c.value.completionTokens)
                  && r.value.usage.value.totalTokens == c.value.promptTokens + c.value.completionTokens)
            && (r.Raise? ==> r.exc.HttpException? && (c.exc.HttpException? ==> r.exc == c.exc))
  {
  }
}
