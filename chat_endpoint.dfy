/** The chat-completions endpoint (src/api/endpoints/chat_completions.py): the
    server-sent event stream built while the streamer is drained, and the
    single JSON response with its error mapping. */
module ChatEndpoint {
  import opened Common
  import opened Runtime
  import opened Records
  import opened ChatTypes
  import opened Engine
  import opened Streaming
  import opened Samplers

  type ChatEvent = StreamEvent<ChatCompletionResponse>

  /** The events yielded, and the exception that ended the stream early, if
      the final usage count raised. */
  datatype ChatStreamResult = ChatStreamResult(events: seq<ChatEvent>, raised: Option<Exception>)

  /** The chunk for one non-empty fragment (lines 51-55). */
  function FragmentChunk(model: Option<string>, text: string): ChatCompletionResponse
  {
    NewChatResponse(model, [DeltaChoice(Assistant(text), None)], None)
  }

  /** The terminal chunk (lines 67-78): empty delta, the finish reason, usage. */
  function TerminalChunk(model: Option<string>, reason: string, usage: UsageInfo): ChatCompletionResponse
  {
    NewChatResponse(model, [DeltaChoice(Assistant(""), Some(reason))], Some(usage))
  }

  function FragmentEvents(model: Option<string>, texts: seq<string>): (events: seq<ChatEvent>)
    ensures |events| == |texts|
  {
    seq(|texts|, i requires 0 <= i < |texts| => ChunkEvent(FragmentChunk(model, texts[i])))
  }

  lemma FragmentEventsAppend(model: Option<string>, texts: seq<string>, text: string)
    ensures FragmentEvents(model, texts + [text]) == FragmentEvents(model, texts) + [ChunkEvent(FragmentChunk(model, text))]
  {
  }

  /** What the `finally` block yields once the fragments are drained: unless
      counting the prompt or the accumulated text raises, the terminal chunk
      with the usage of the whole conversation, then the marker. */
  function FinallyEvents(request: ChatCompletionRequest, e: InferenceEngine, reason: string, text: string): ChatStreamResult
  {
    match ApplyChatTemplate(e, MessagesJson(request.messages), DefaultTemplateArgs)
    case Raise(x) => ChatStreamResult([], Some(x))
    case Ok(promptIds) =>
      match Tokenize(e, text)
      case Raise(x) => ChatStreamResult([], Some(x))
      case Ok(completionIds) =>
        ChatStreamResult([ChunkEvent(TerminalChunk(request.model, reason, UsageOf(|promptIds.inputIds|, |completionIds|))), DoneEvent], None)
  }

  /** Reference definition of the stream: one chunk per non-empty fragment,
      then what the `finally` block yields for the finish reason and all the
      streamed text. */
  function ChatStream(request: ChatCompletionRequest, e: InferenceEngine, streamer: Streamer): ChatStreamResult
  {
    var tail := FinallyEvents(request, e, FinishReason(streamer), Concat(streamer.fragments));
    ChatStreamResult(FragmentEvents(request.model, NonEmpty(streamer.fragments)) + tail.events, tail.raised)
  }

  /** The `finally` block (lines 61-81): count the prompt and the accumulated
      text, then yield the terminal chunk and the marker; a count that raises
      ends the stream. */
  method Finally(request: ChatCompletionRequest, e: InferenceEngine, finishReason: string, allText: string)
    returns (events: seq<ChatEvent>, raised: Option<Exception>)
    ensures ChatStreamResult(events, raised) == FinallyEvents(request, e, finishReason, allText)
  {
    var promptIds := ApplyChatTemplate(e, MessagesJson(request.messages), DefaultTemplateArgs);
    if promptIds.Raise? {
      return [], Some(promptIds.exc);
    }
    var completionIds := Tokenize(e, allText);
    if completionIds.Raise? {
      return [], Some(completionIds.exc);
    }
    var numPrompt := |promptIds.value.inputIds|;
    var numCompletion := |completionIds.value|;
    var usage := UsageInfo(numPrompt, Some(numCompletion), numPrompt + numCompletion);
    var finalChoice := DeltaChoice(Assistant(""), Some(finishReason));
    events := [ChunkEvent(NewChatResponse(request.model, [finalChoice], Some(usage)))];
    events := events + [DoneEvent];
    raised := None;
  }

  /** `_stream_completion` (lines 19-81). The loop emits a chunk per non-empty
      fragment and accumulates the text; an exception from the streamer only
      sets the finish reason to "error". The `finally` block then counts the
      prompt and the accumulated text, and yields the terminal chunk and the
      marker; if either count raises, the stream ends there. The generation
      itself runs on a thread started before the loop (lines 24-38) and joined
      in the `finally` block: `background` is what that thread writes and
      calls, and its outcome is dropped. `handle` is the streamer object the
      thread is given; `streamer` is what iterating it yields. */
  method StreamChatCompletion(request: ChatCompletionRequest, e: InferenceEngine, streamer: Streamer, handle: StreamerRef)
    returns (events: seq<ChatEvent>, raised: Option<Exception>, background: seq<Event>)
    ensures ChatStreamResult(events, raised) == ChatStream(request, e, streamer)
    ensures Logs(background) == ExpectedLogs(e.settings.log, ConversationLog(MessagesJson(request.messages)),
                                             Some(GenConfigOf(request.samplers)),
                                             TextOf(ChatCompletionOutcome(e, MessagesJson(request.messages),
                                                                          Some(GenConfigOf(request.samplers)), Some(handle))))
    ensures |GenerateCalls(background)| <= 2
  {
    var messages := MessagesJson(request.messages);
    var genConfig := ChatGenConfig(request);
    // thread.start()
    var dropped;
    dropped, background := GenerateChatCompletions(e, messages, Some(genConfig), Some(handle));
    var allText;
    events, allText := DrainChat(request, streamer.fragments);
    var finishReason: Option<string> := None;
    if streamer.failure.None? {
      finishReason := Some("stop");
    } else {
      finishReason := Some("error");
    }
    // finally: thread.join(), then the usage counts.
    var tail;
    tail, raised := Finally(request, e, finishReason.value, allText);
    events := events + tail;
  }

  /** The `for text in streamer` loop of lines 45-56: a chunk per non-empty
      fragment, with no finish reason yet, and the accumulated text. */
  method DrainChat(request: ChatCompletionRequest, fragments: seq<string>)
    returns (events: seq<ChatEvent>, allText: string)
    ensures events == FragmentEvents(request.model, NonEmpty(fragments))
    ensures allText == Concat(fragments)
  {
    var finishReason: Option<string> := None;
    allText := "";
    events := [];
    var i := 0;
    while i < |fragments|
      invariant 0 <= i <= |fragments|
      invariant allText == Concat(NonEmpty(fragments[..i]))
      invariant events == FragmentEvents(request.model, NonEmpty(fragments[..i]))
      invariant finishReason == None
    {
      var text := fragments[i];
      NonEmptyStep(fragments, i);
      if text != "" {
        FragmentEventsAppend(request.model, NonEmpty(fragments[..i]), text);
        allText := allText + text;
        events := events + [ChunkEvent(NewChatResponse(request.model, [DeltaChoice(Assistant(text), finishReason)], None))];
      } else {
        assert NonEmpty(fragments[..i]) + [] == NonEmpty(fragments[..i]);
      }
      i := i + 1;
    }
    assert fragments[..i] == fragments;
    ConcatSkipsEmpty(fragments);
  }

  // ---------------------------------------------------------------------------
  // Properties of the stream

  /** The text a client reads from the fragment chunks of a stream. */
  function StreamedText(events: seq<ChatEvent>): string
  {
    if events == [] then ""
    else
      var last := events[|events| - 1];
      StreamedText(events[..|events| - 1])
      + (if last.ChunkEvent? && |last.response.choices| == 1 && last.response.choices[0].delta.Some?
            && last.response.choices[0].finishReason.None?
         then last.response.choices[0].delta.value.content else "")
  }

  lemma {:induction false} StreamedTextOfFragments(model: Option<string>, texts: seq<string>)
    ensures StreamedText(FragmentEvents(model, texts)) == Concat(texts)
  {
    if texts != [] {
      var init := texts[..|texts| - 1];
      assert FragmentEvents(model, texts)[..|texts| - 1] == FragmentEvents(model, init);
      StreamedTextOfFragments(model, init);
    }
  }

  /** The shape of every chat stream: first one chunk per non-empty fragment,
      in order, each carrying that fragment with no finish reason and no usage,
      and together carrying all the text the streamer yielded. */
  lemma ChatStreamChunks(request: ChatCompletionRequest, e: InferenceEngine, streamer: Streamer)
    ensures var r := ChatStream(request, e, streamer);
            var texts := NonEmpty(streamer.fragments);
            && |texts| <= |r.events|
            && (forall i :: 0 <= i < |texts| ==>
                  && r.events[i].ChunkEvent?
                  && r.events[i].response.choices == [DeltaChoice(Assistant(texts[i]), None)]
                  && r.events[i].response.usage.None?
                  && texts[i] != "")
            && StreamedText(r.events[..|texts|]) == Concat(streamer.fragments)
  {
    var r := ChatStream(request, e, streamer);
    var texts := NonEmpty(streamer.fragments);
    NonEmptyFacts(streamer.fragments);
    assert r.events[..|texts|] == FragmentEvents(request.model, texts);
    StreamedTextOfFragments(request.model, texts);
    ConcatSkipsEmpty(streamer.fragments);
  }

  /** How a chat stream ends. It is cut short, right after the fragment chunks,
      exactly when counting the prompt or the streamed text raises. Otherwise
      it ends with exactly one terminal chunk and then the marker, which
      appears nowhere else: the terminal chunk has an empty delta, finish
      reason "stop" exactly when the streamer was exhausted and "error" when it
      raised, and usage whose total is the prompt count plus the completion
      count. */
  lemma ChatStreamEnd(request: ChatCompletionRequest, e: InferenceEngine, streamer: Streamer)
    ensures var r := ChatStream(request, e, streamer);
            var n := |NonEmpty(streamer.fragments)|;
            var prompt := ApplyChatTemplate(e, MessagesJson(request.messages), DefaultTemplateArgs);
            var completion := Tokenize(e, Concat(streamer.fragments));
            && (r.raised.None? <==> prompt.Ok? && completion.Ok?)
            && (r.raised.Some? ==> |r.events| == n)
            && (r.raised.None? ==>
                  && |r.events| == n + 2
                  && r.events[n + 1] == DoneEvent
                  && (forall i :: 0 <= i < n + 1 ==> r.events[i].ChunkEvent?)
                  && var last := r.events[n].response;
                  && |last.choices| == 1
                  && last.choices[0].delta == Some(Assistant(""))
                  && (last.choices[0].finishReason == Some("stop") <==> streamer.failure.None?)
                  && (last.choices[0].finishReason == Some("error") <==> streamer.failure.Some?)
                  && last.usage.Some?
                  && last.usage.value.promptTokens == |prompt.value.inputIds|
                  && last.usage.value.completionTokens == Some(|completion.value|)
                  && last.usage.value.totalTokens == |prompt.value.inputIds| + |completion.value|)
  {
  }

  // ---------------------------------------------------------------------------
  // create_chat_completion

  datatype ChatReply = EventStream(stream: ChatStreamResult) | JsonBody(response: ChatCompletionResponse)

  /** The error mapping of lines 123-135. */
  function ChatHttpError(x: Exception): (h: Exception)
    ensures h.HttpException? && (x.HttpException? ==> h == x)
    ensures !x.HttpException? ==> h.status == 500
    ensures x.StopIteration? ==> h.detail == "Internal Server Error: Generator yielded no response."
    ensures !x.StopIteration? && !x.HttpException? ==>
              h.detail == "Internal Server Error during chat generation: " + Str(x)
  {
    match x
    case StopIteration => HttpException(500, "Internal Server Error: Generator yielded no response.")
    case HttpException(_, _) => x
    case _ => HttpException(500, "Internal Server Error during chat generation: " + Str(x))
  }

  /** The JSON reply of lines 101-135. */
  function ChatJsonReply(request: ChatCompletionRequest, e: InferenceEngine): Outcome<ChatCompletionResponse>
  {
    match ChatCompletionOutcome(e, MessagesJson(request.messages), Some(ChatGenConfig(request)), None)
    case Raise(x) => Raise(ChatHttpError(x))
    case Ok(c) =>
      Ok(NewChatResponse(request.model, [MessageChoice(Assistant(c.text), Some("stop"))],
                         Some(UsageOf(c.promptTokens, c.completionTokens))))
  }

  /** `create_chat_completion` (lines 89-135): `request.stream` alone chooses
      between the event stream and the JSON reply. */
  method CreateChatCompletion(request: ChatCompletionRequest, e: InferenceEngine, streamer: Streamer, handle: StreamerRef)
    returns (r: Outcome<ChatReply>, trace: seq<Event>)
    ensures request.stream ==> r == Ok(EventStream(ChatStream(request, e, streamer)))
    ensures request.stream ==>
              && Logs(trace) == ExpectedLogs(e.settings.log, ConversationLog(MessagesJson(request.messages)),
                                             Some(GenConfigOf(request.samplers)),
                                             TextOf(ChatCompletionOutcome(e, MessagesJson(request.messages),
                                                                          Some(GenConfigOf(request.samplers)), Some(handle))))
              && |GenerateCalls(trace)| <= 2
    ensures !request.stream ==>
              && (r.Ok? <==> ChatJsonReply(request, e).Ok?)
              && (r.Ok? ==> r.value == JsonBody(ChatJsonReply(request, e).value))
              && (r.Raise? ==> r.exc == ChatJsonReply(request, e).exc)
              && Logs(trace) == ExpectedLogs(e.settings.log, ConversationLog(MessagesJson(request.messages)),
                                             Some(GenConfigOf(request.samplers)),
                                             if r.Ok? then Some(r.value.response.choices[0].message.value.content) else None)
  {
    if request.stream {
      var events, raised, background := StreamChatCompletion(request, e, streamer, handle);
      return Ok(EventStream(ChatStreamResult(events, raised))), background;
    }
    r, trace := JsonChatCompletion(request, e);
  }

  /** The non-streaming branch (lines 101-135): generate in the request's own
      thread, then one JSON body with the message, "stop" and the usage. */
  method JsonChatCompletion(request: ChatCompletionRequest, e: InferenceEngine)
    returns (r: Outcome<ChatReply>, trace: seq<Event>)
    ensures r.Ok? <==> ChatJsonReply(request, e).Ok?
    ensures r.Ok? ==> r.value == JsonBody(ChatJsonReply(request, e).value)
    ensures r.Raise? ==> r.exc == ChatJsonReply(request, e).exc
    ensures Logs(trace) == ExpectedLogs(e.settings.log, ConversationLog(MessagesJson(request.messages)),
                                        Some(GenConfigOf(request.samplers)),
                                        if r.Ok? then Some(r.value.response.choices[0].message.value.content) else None)
  {
    var genConfig := ChatGenConfig(request);
    var messages := MessagesJson(request.messages);
    var generated;
    generated, trace := GenerateChatCompletions(e, messages, Some(genConfig), None);
    if generated.Raise? {
      return Raise(ChatHttpError(generated.exc)), trace;
    }
    var c := generated.value;
    var usage := UsageInfo(c.promptTokens, Some(c.completionTokens), c.promptTokens + c.completionTokens);
    var choice := MessageChoice(Assistant(c.text), Some("stop"));
    r := Ok(JsonBody(NewChatResponse(request.model, [choice], Some(usage))));
  }

  /** A JSON reply holds one choice, the generated message with finish reason
      "stop" and usage adding up; a failure is always an HTTP error, the
      engine's own HTTP errors passing through unchanged. */
  lemma ChatJsonReplyShape(request: ChatCompletionRequest, e: InferenceEngine)
    ensures var r := ChatJsonReply(request, e);
            var c := ChatCompletionOutcome(e, MessagesJson(request.messages), Some(GenConfigOf(request.samplers)), None);
            && (r.Ok? <==> c.Ok?)
            && (r.Ok? ==>
                  && r.value.model == request.model
                  && |r.value.choices| == 1
                  && r.value.choices[0].message == Some(Assistant(c.value.text))
                  && r.value.choices[0].delta.None?
                  && r.value.choices[0].finishReason == Some("stop")
                  && r.value.usage.Some?
                  && r.value.usage.value.totalTokens == r.value.usage.value.promptTokens + c.value.completionTokens
                  && r.value.usage.value.promptTokens == c.value.promptTokens)
            && (r.Raise? ==> r.exc.HttpException? && (c.exc.HttpException? ==> r.exc == c.exc))
  {
  }

  /** The conversation handed to the engine is multimodal exactly when some
      request message has a list content with a part whose "type" is "image"
      or "video". */
  lemma MultimodalMessages(messages: seq<Message>)
    ensures IsMultimodal(MessagesJson(messages)) <==>
            exists i, j :: 0 <= i < |messages| && messages[i].content.Parts?
                           && 0 <= j < |messages[i].content.parts|
                           && "type" in messages[i].content.parts[j]
                           && messages[i].content.parts[j]["type"] in {"image", "video"}
  {
    var js := MessagesJson(messages);
    forall i, j | 0 <= i < |messages| && messages[i].content.Parts? && 0 <= j < |messages[i].content.parts|
      ensures IsMediaItem(js[i].fields["content"].items[j]) <==>
              "type" in messages[i].content.parts[j] && messages[i].content.parts[j]["type"] in {"image", "video"}
    {
      var part := messages[i].content.parts[j];
      assert js[i].fields["content"].items[j] == JObj(map k | k in part :: JStr(part[k]));
    }
    forall i | 0 <= i < |messages|
      ensures IsMediaMessage(js[i]) <==>
                (messages[i].content.Parts? &&
                 exists j :: 0 <= j < |messages[i].content.parts| && "type" in messages[i].content.parts[j]
                             && messages[i].content.parts[j]["type"] in {"image", "video"})
    {
      assert js[i].fields["content"] == ContentJson(messages[i].content);
    }
  }
}
