/** Chat request and response bodies (src/api/types/chat_completions.py). */
module ChatTypes {
  import opened Common
  import opened Runtime
  import opened Samplers
  import opened Records

  /** `content: str | list[dict[str, str]]` */
  datatype Content = Text(text: string) | Parts(parts: seq<map<string, string>>)

  datatype Message = Message(role: string, content: Content)

  datatype GeneratedMessage = GeneratedMessage(role: string, content: string, reasoningContent: Option<string>)

  /** `GeneratedMessage(content=...)`: role "assistant", no reasoning content. */
  function Assistant(content: string): GeneratedMessage
  {
    GeneratedMessage("assistant", content, None)
  }

  datatype ChatCompletionRequest = ChatCompletionRequest(
    samplers: Samplers,
    model: Option<string>,
    messages: seq<Message>,
    stream: bool)

  datatype ChatCompletionChoice = ChatCompletionChoice(
    index: int,
    message: Option<GeneratedMessage>,
    delta: Option<GeneratedMessage>,
    logprobs: Option<string>,
    finishReason: Option<string>)

  /** `ChatCompletionChoice(delta=..., finish_reason=...)` */
  function DeltaChoice(delta: GeneratedMessage, finishReason: Option<string>): ChatCompletionChoice
  {
    ChatCompletionChoice(0, None, Some(delta), None, finishReason)
  }

  /** `ChatCompletionChoice(message=..., finish_reason=...)` */
  function MessageChoice(message: GeneratedMessage, finishReason: Option<string>): ChatCompletionChoice
  {
    ChatCompletionChoice(0, Some(message), None, None, finishReason)
  }

  datatype ChatCompletionResponse = ChatCompletionResponse(
    id: string,
    objectName: string,
    model: Option<string>,
    choices: seq<ChatCompletionChoice>,
    usage: Option<UsageInfo>)

  /** `ChatCompletionResponse(model=..., choices=..., usage=...)` with its
      defaults. */
  function NewChatResponse(model: Option<string>, choices: seq<ChatCompletionChoice>,
                           usage: Option<UsageInfo>): ChatCompletionResponse
  {
    ChatCompletionResponse("transAPI", "chat_completion", model, choices, usage)
  }

  // ---------------------------------------------------------------------------
  // Validation of a request body

  /** A `dict[str, str]`: an object whose every value is a string. */
  function StrDict(j: Json): (r: Option<map<string, string>>)
    ensures r.Some? <==> j.JObj? && forall k :: k in j.fields ==> j.fields[k].JStr?
    ensures r.Some? ==> r.value.Keys == j.fields.Keys && forall k :: k in r.value ==> j.fields[k] == JStr(r.value[k])
  {
    if j.JObj? && forall k :: k in j.fields ==> j.fields[k].JStr? then
      Some(map k | k in j.fields :: j.fields[k].s)
    else None
  }

  function StrDicts(items: seq<Json>): (r: Option<seq<map<string, string>>>)
    ensures r.Some? <==> forall i :: 0 <= i < |items| ==> StrDict(items[i]).Some?
    ensures r.Some? ==> |r.value| == |items| && forall i :: 0 <= i < |items| ==> Some(r.value[i]) == StrDict(items[i])
  {
    if items == [] then Some([])
    else match (StrDict(items[0]), StrDicts(items[1..]))
      case (Some(d), Some(rest)) => Some([d] + rest)
      case _ => None
  }

  function ParseContent(j: Json): (r: Outcome<Content>)
    ensures j.JStr? ==> r == Ok(Text(j.s))
    ensures r.Ok? <==> j.JStr? || (j.JList? && StrDicts(j.items).Some?)
  {
    match j
    case JStr(s) => Ok(Text(s))
    case JList(items) =>
      (match StrDicts(items)
       case Some(parts) => Ok(Parts(parts))
       case None => Raise(ValidationError("content: Input should be a valid string or list of dictionaries")))
    case _ => Raise(ValidationError("content: Input should be a valid string or list of dictionaries"))
  }

  /** A message needs a string `role` and a valid `content`; other keys are
      ignored. */
  function ParseMessage(j: Json): (r: Outcome<Message>)
    ensures r.Ok? <==> j.JObj? && "role" in j.fields && j.fields["role"].JStr?
                       && "content" in j.fields && ParseContent(j.fields["content"]).Ok?
  {
    if !j.JObj? then Raise(ValidationError("message: Input should be a valid dictionary"))
    else if "role" !in j.fields || !j.fields["role"].JStr? then Raise(ValidationError("role: Field required"))
    else if "content" !in j.fields then Raise(ValidationError("content: Field required"))
    else
      var content :- ParseContent(j.fields["content"]);
      Ok(Message(j.fields["role"].s, content))
  }

  function ParseMessages(items: seq<Json>): (r: Outcome<seq<Message>>)
    ensures r.Ok? <==> forall i :: 0 <= i < |items| ==> ParseMessage(items[i]).Ok?
    ensures r.Ok? ==> |r.value| == |items| && forall i :: 0 <= i < |items| ==> Ok(r.value[i]) == ParseMessage(items[i])
  {
    if items == [] then Ok([])
    else
      var first :- ParseMessage(items[0]);
      var rest :- ParseMessages(items[1..]);
      Ok([first] + rest)
  }

  /** Validation of a chat request body (lines 19-22): the sampler fields,
      `model` (default None), the required `messages` and `stream` (default
      false). */
  function ParseChatRequest(body: map<string, Json>): (r: Outcome<ChatCompletionRequest>)
    ensures r.Ok? ==> ParseSamplers(body) == Ok(r.value.samplers)
    ensures r.Ok? ==> (r.value.model.None? <==> "model" !in body || body["model"] == JNull)
    ensures r.Ok? ==> (r.value.stream <==> "stream" in body && body["stream"] == JBool(true))
    ensures r.Ok? ==> "messages" in body && body["messages"].JList?
                      && ParseMessages(body["messages"].items) == Ok(r.value.messages)
    ensures "messages" !in body ==> r.Raise?
  {
    var samplers :- ParseSamplers(body);
    var model :- if "model" !in body || body["model"] == JNull then Ok(None)
                 else if body["model"].JStr? then Ok(Some(body["model"].s))
                 else Raise(ValidationError("model: Input should be a valid string"));
    var messages :- if "messages" !in body then Raise(ValidationError("messages: Field required"))
                    else if !body["messages"].JList? then Raise(ValidationError("messages: Input should be a valid list"))
                    else ParseMessages(body["messages"].items);
    var stream :- if "stream" !in body then Ok(false)
                  else if body["stream"].JBool? then Ok(body["stream"].b)
                  else Raise(ValidationError("stream: Input should be a valid boolean"));
    Ok(ChatCompletionRequest(samplers, model, messages, stream))
  }

  // ---------------------------------------------------------------------------
  // Dumping

  function ContentJson(c: Content): Json
  {
    match c
    case Text(s) => JStr(s)
    case Parts(parts) =>
      JList(seq(|parts|, i requires 0 <= i < |parts| => JObj(map k | k in parts[i] :: JStr(parts[i][k]))))
  }

  /** `msg.model_dump(exclude_none=True)`: a message has no optional field, so
      both keys are always there. */
  function MessageJson(m: Message): Json
  {
    JObj(map["role" := JStr(m.role), "content" := ContentJson(m.content)])
  }

  /** Line 20 (and 103) of the chat endpoint: the conversation handed to the
      engine. */
  function MessagesJson(messages: seq<Message>): (js: seq<Json>)
    ensures |js| == |messages| && forall i :: 0 <= i < |messages| ==> js[i] == MessageJson(messages[i])
  {
    seq(|messages|, i requires 0 <= i < |messages| => MessageJson(messages[i]))
  }

  /** Dumping then validating a message gives it back. */
  lemma MessageRoundTrip(m: Message)
    ensures ParseMessage(MessageJson(m)) == Ok(m)
  {
    var j := MessageJson(m);
    assert j.fields["role"] == JStr(m.role);
    assert j.fields["content"] == ContentJson(m.content);
    match m.content
    case Text(s) =>
    case Parts(parts) =>
      var items := ContentJson(m.content).items;
      forall i | 0 <= i < |items|
        ensures StrDict(items[i]) == Some(parts[i])
      {
        assert items[i] == JObj(map k | k in parts[i] :: JStr(parts[i][k]));
        assert StrDict(items[i]).value == parts[i];
      }
      var back := StrDicts(items).value;
      assert back == parts;
  }

  lemma {:induction false} MessagesRoundTrip(messages: seq<Message>)
    ensures ParseMessages(MessagesJson(messages)) == Ok(messages)
  {
    var js := MessagesJson(messages);
    if messages != [] {
      MessageRoundTrip(messages[0]);
      MessagesRoundTrip(messages[1..]);
      assert js[1..] == MessagesJson(messages[1..]);
      assert [messages[0]] + messages[1..] == messages;
    }
  }

  // ---------------------------------------------------------------------------
  // gen_config

  /** The fields ChatCompletionRequest adds to Samplers, as `model_dump()`
      writes them. */
  function OwnFields(req: ChatCompletionRequest): map<string, Json>
  {
    map["model" := (if req.model.Some? then JStr(req.model.value) else JNull),
        "messages" := JList(MessagesJson(req.messages)),
        "stream" := JBool(req.stream)]
  }

  const ChatExclude: set<string> := {"stream", "model", "messages"}

  /** `ChatCompletionRequest.gen_config` (lines 24-26): the exclusions cover every
      field the request adds, so GenerationConfig receives exactly the sampler
      configuration. */
  function ChatGenConfig(req: ChatCompletionRequest): (config: GenConfig)
    ensures config == GenConfigOf(req.samplers)
  {
    RequestConfigIsSamplerConfig(req.samplers, OwnFields(req), ChatExclude);
    RequestGenConfig(req.samplers, OwnFields(req), ChatExclude)
  }
}
