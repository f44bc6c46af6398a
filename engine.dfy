/** The inference engine (src/core/engine.py): multimodal classification of a
    conversation, chat-template dispatch with its tokenizer fallback, generation
    with a single out-of-memory retry, and the prompt/completion token count. */
module Engine {
  import opened Common
  import opened Settings
  import opened Runtime
  import Loader

  /** An InferenceEngine after `__init__`: its settings and the three loaded
      components. None of its fields is reassigned afterwards. */
  datatype InferenceEngine = InferenceEngine(
    settings: AppSettings,
    model: Model,
    tokenizer: Tokenizer,
    processor: Processor)

  function FromLoaded(settings: AppSettings, loaded: Loader.Loaded): InferenceEngine
  {
    InferenceEngine(settings, loaded.model, loaded.tokenizer, loaded.processor)
  }

  // ---------------------------------------------------------------------------
  // is_multimodal

  /** A content item that is a dict whose "type" is "image" or "video". */
  predicate IsMediaItem(item: Json)
  {
    item.JObj? && "type" in item.fields && item.fields["type"] in {JStr("image"), JStr("video")}
  }

  /** A message that is a dict with a list under "content" holding a media item. */
  predicate IsMediaMessage(msg: Json)
  {
    && msg.JObj?
    && "content" in msg.fields
    && msg.fields["content"].JList?
    && exists j :: 0 <= j < |msg.fields["content"].items| && IsMediaItem(msg.fields["content"].items[j])
  }

  /** The inner `any(...)` over a content list, item by item. */
  function AnyMediaItem(items: seq<Json>): (r: bool)
    ensures r <==> exists j :: 0 <= j < |items| && IsMediaItem(items[j])
  {
    if items == [] then false
    else IsMediaItem(items[0]) || AnyMediaItem(items[1..])
  }

  /** The outer `any(...)` of lines 46-62, message by message: only dict
      messages with a "content" key are examined, and only a list content can
      make one multimodal. */
  function IsMultimodal(conversation: seq<Json>): (r: bool)
    ensures r <==> exists i :: 0 <= i < |conversation| && IsMediaMessage(conversation[i])
  {
    if conversation == [] then false
    else
      var msg := conversation[0];
      var here := msg.JObj? && "content" in msg.fields
                  && msg.fields["content"].JList? && AnyMediaItem(msg.fields["content"].items);
      here || IsMultimodal(conversation[1..])
  }

  /** A conversation whose every message is a non-dict, lacks "content", or
      has a string content is text-only. */
  lemma StringContentIsTextOnly(conversation: seq<Json>)
    requires forall i :: 0 <= i < |conversation| ==>
               var msg := conversation[i];
               !msg.JObj? || "content" !in msg.fields || msg.fields["content"].JStr?
    ensures !IsMultimodal(conversation)
  {
  }

  // ---------------------------------------------------------------------------
  // apply_chat_template

  /** Lines 73-102: text-only conversations go to the tokenizer; multimodal ones
      go to the processor, and if the processor raises (whatever the exception)
      the tokenizer's result for the same arguments is returned instead. */
  function ApplyChatTemplate(e: InferenceEngine, conversation: seq<Json>, args: TemplateArgs): (r: Outcome<ModelInputs>)
    ensures r == e.tokenizer.chatTemplate(conversation, args) || r == e.processor.chatTemplate(conversation, args)
    ensures !IsMultimodal(conversation) ==> r == e.tokenizer.chatTemplate(conversation, args)
    ensures IsMultimodal(conversation) && e.processor.chatTemplate(conversation, args).Ok?
            ==> r == e.processor.chatTemplate(conversation, args)
    ensures r.Raise? ==> r == e.tokenizer.chatTemplate(conversation, args)
  {
    if !IsMultimodal(conversation) then e.tokenizer.chatTemplate(conversation, args)
    else match e.processor.chatTemplate(conversation, args)
      case Ok(inputs) => Ok(inputs)
      case Raise(_) => e.tokenizer.chatTemplate(conversation, args)
  }

  /** For a text-only conversation the processor is never consulted: any other
      processor gives the same result. */
  lemma TextOnlyIgnoresProcessor(e: InferenceEngine, other: Processor, conversation: seq<Json>, args: TemplateArgs)
    requires !IsMultimodal(conversation)
    ensures ApplyChatTemplate(e.(processor := other), conversation, args) == ApplyChatTemplate(e, conversation, args)
  {
  }

  /** The arguments `generate_chat_completions` passes: generation prompt,
      tokenized, as a dict. */
  const ChatArgs := TemplateArgs(true, true, true, true)

  /** The default keyword arguments of `apply_chat_template`. */
  const DefaultTemplateArgs := TemplateArgs(true, true, true, false)

  // ---------------------------------------------------------------------------
  // _resilient_generate

  /** What the engine does that an observer can see: log lines, the out-of-memory
      warning, emptying the CUDA cache, and calls to `generate`. */
  datatype LogLine =
    | PromptLog(prompt: string)
    | ConversationLog(conversation: seq<Json>)
    | ConfigLog(config: Option<GenConfig>)
    | CompletionLog(text: string)

  datatype Event =
    | Log(line: LogLine)
    | OomWarning(message: string)
    | EmptyCache
    | Generate(call: GenerateCall)

  /** The first `generate` call of lines 27-34, with the model inputs spread
      into it. */
  function FirstCall(inputs: ModelInputs, config: Option<GenConfig>, streamer: Option<StreamerRef>): GenerateCall
  {
    GenerateCall(inputs.inputIds, inputs.others, true, config, streamer, true, None)
  }

  /** The retry of line 41: the same model inputs with the cache implementation
      forced to "offloaded", and without the generation config, the streamer or
      the tokenizer. */
  function RetryCall(first: GenerateCall): (retry: GenerateCall)
    ensures retry.inputIds == first.inputIds && retry.otherInputs == first.otherInputs && retry.useModelDefaults
    ensures retry.generationConfig.None? && retry.streamer.None? && !retry.passesTokenizer
    ensures retry.cacheImplementation == Some("offloaded")
  {
    first.(useModelDefaults := true, generationConfig := None, streamer := None, passesTokenizer := false,
           cacheImplementation := Some("offloaded"))
  }

  predicate IsOom(o: Outcome<seq<int>>)
  {
    o.Raise? && o.exc.OutOfMemory?
  }

  /** The outcome `_resilient_generate` returns or raises. */
  function ResilientOutcome(model: Model, first: GenerateCall): Outcome<seq<int>>
  {
    if IsOom(model.generate(first)) then model.generate(RetryCall(first)) else model.generate(first)
  }

  function GenerateCalls(trace: seq<Event>): (calls: seq<GenerateCall>)
    ensures |calls| <= |trace|
  {
    if trace == [] then []
    else (if trace[0].Generate? then [trace[0].call] else []) + GenerateCalls(trace[1..])
  }

  /** Lines 18-41. A first call that returns, or raises anything but
      OutOfMemory, decides the outcome alone. After an OutOfMemory the warning is
      logged, the cache is emptied and `generate` is retried exactly once; that
      retry's outcome, an OutOfMemory included, is the result. */
  method ResilientGenerate(model: Model, first: GenerateCall) returns (r: Outcome<seq<int>>, trace: seq<Event>)
    ensures r == ResilientOutcome(model, first)
    ensures 1 <= |GenerateCalls(trace)| <= 2 && GenerateCalls(trace)[0] == first
    ensures |GenerateCalls(trace)| == 2 <==> IsOom(model.generate(first))
    ensures GenerateCalls(trace) == if IsOom(model.generate(first)) then [first, RetryCall(first)] else [first]
    ensures Logs(trace) == []
    ensures |GenerateCalls(trace)| == 1 ==> r == model.generate(first) && trace == [Generate(first)]
    ensures |GenerateCalls(trace)| == 2 ==>
              && trace == [Generate(first), OomWarning("OOM error during generation: " + model.generate(first).exc.message),
                           EmptyCache, Generate(RetryCall(first))]
              && r == model.generate(RetryCall(first))
  {
    var oom := false;
    var kwargs := first;
    trace := [Generate(first)];
    var attempt := model.generate(first);
    if attempt.Raise? && attempt.exc.OutOfMemory? {
      trace := trace + [OomWarning("OOM error during generation: " + attempt.exc.message)];
      oom := true;
    } else {
      return attempt, trace;
    }
    if oom {
      trace := trace + [EmptyCache];
      kwargs := kwargs.(cacheImplementation := Some("offloaded"));
      var retry := kwargs.(useModelDefaults := true, generationConfig := None, streamer := None,
                           passesTokenizer := false);
      trace := trace + [Generate(retry)];
      r := model.generate(retry);
      assert trace[1..][1..][1..] == [Generate(retry)];
      assert trace[1..][1..] == [EmptyCache, Generate(retry)];
      assert GenerateCalls(trace[1..][1..]) == [retry];
      assert Logs(trace[1..][1..][1..]) == [];
      assert Logs(trace[1..][1..]) == [];
      assert GenerateCalls(trace) == [first, retry];
    }
  }

  // ---------------------------------------------------------------------------
  // generate_completions / generate_chat_completions

  datatype Completion = Completion(text: string, promptTokens: int, completionTokens: int)

  /** Python's `output[n:]`: empty when `n` is past the end. */
  function TokensFrom(output: seq<int>, n: nat): seq<int>
  {
    if n <= |output| then output[n..] else []
  }

  /** Lines 119 and 128-134 (and 163, 173-179): the prompt count is the length
      of the input ids, the completion count the rest of the output, and only
      the tokens after the prompt are decoded, special tokens skipped. */
  function Account(tokenizer: Tokenizer, inputIds: seq<int>, output: seq<int>): (r: Outcome<Completion>)
    ensures r.Ok? ==> r.value.promptTokens == |inputIds|
    ensures r.Ok? ==> r.value.promptTokens + r.value.completionTokens == |output|
    ensures r.Ok? ==> Ok(r.value.text) == tokenizer.decode(TokensFrom(output, |inputIds|), true)
    ensures r.Ok? && |inputIds| <= |output| ==> r.value.completionTokens == |TokensFrom(output, |inputIds|)|
    ensures r.Ok? && |output| < |inputIds| ==> r.value.completionTokens < 0 && TokensFrom(output, |inputIds|) == []
    ensures r.Raise? ==> tokenizer.decode(TokensFrom(output, |inputIds|), true) == Raise(r.exc)
  {
    var generated := TokensFrom(output, |inputIds|);
    match tokenizer.decode(generated, true)
    case Raise(exc) => Raise(exc)
    case Ok(text) => Ok(Completion(text, |inputIds|, |output| - |inputIds|))
  }

  /** Generation from prompt ids through to the decoded triple: the shared
      second half of both generation methods. */
  function GenerationFromInputs(model: Model, tokenizer: Tokenizer, inputs: ModelInputs,
                                config: Option<GenConfig>, streamer: Option<StreamerRef>): Outcome<Completion>
  {
    var output :- ResilientOutcome(model, FirstCall(inputs, config, streamer));
    Account(tokenizer, inputs.inputIds, output)
  }

  /** The triple `generate_completions` returns, or what it raises. It does not
      depend on the settings, so the log switches cannot change it. */
  function CompletionOutcome(model: Model, tokenizer: Tokenizer, prompt: string,
                             config: Option<GenConfig>, streamer: Option<StreamerRef>): Outcome<Completion>
  {
    var inputs :- tokenizer.call(prompt);
    GenerationFromInputs(model, tokenizer, inputs, config, streamer)
  }

  /** The triple `generate_chat_completions` returns, or what it raises. */
  function ChatCompletionOutcome(e: InferenceEngine, conversation: seq<Json>,
                                 config: Option<GenConfig>, streamer: Option<StreamerRef>): Outcome<Completion>
  {
    var inputs :- ApplyChatTemplate(e, conversation, ChatArgs);
    GenerationFromInputs(e.model, e.tokenizer, inputs, config, streamer)
  }

  function LogIf(flag: bool, line: LogLine): (events: seq<Event>)
    ensures Logs(events) == if flag then [line] else []
    ensures GenerateCalls(events) == []
  {
    var events := if flag then [Log(line)] else [];
    assert events != [] ==> events[1..] == [];
    events
  }

  /** Only the log events of a trace. */
  function Logs(trace: seq<Event>): seq<LogLine>
  {
    if trace == [] then []
    else (if trace[0].Log? then [trace[0].line] else []) + Logs(trace[1..])
  }

  lemma {:induction false} LogsAppend(a: seq<Event>, b: seq<Event>)
    ensures Logs(a + b) == Logs(a) + Logs(b)
  {
    if a == [] {
      assert a + b == b;
    } else {
      var head := if a[0].Log? then [a[0].line] else [];
      assert (a + b)[0] == a[0];
      assert (a + b)[1..] == a[1..] + b;
      LogsAppend(a[1..], b);
      assert Logs(a + b) == head + (Logs(a[1..]) + Logs(b));
      assert head + (Logs(a[1..]) + Logs(b)) == (head + Logs(a[1..])) + Logs(b);
    }
  }

  /** The log lines a generation writes: its prompt (or conversation) line and
      its config line when their switches are on, and the completion line when
      generation succeeded and that switch is on. */
  function ExpectedLogs(log: LogSettings, promptLine: LogLine, config: Option<GenConfig>,
                        completion: Option<string>): seq<LogLine>
  {
    (if log.prompt then [promptLine] else [])
    + (if log.params then [ConfigLog(config)] else [])
    + (if log.completion && completion.Some? then [CompletionLog(completion.value)] else [])
  }

  function TextOf(r: Outcome<Completion>): Option<string>
  {
    if r.Ok? then Some(r.value.text) else None
  }

  /** The log events written before generation: the prompt (or conversation)
      line and the config line, each when its switch is on. */
  function HeadLogs(log: LogSettings, promptLine: LogLine, config: Option<GenConfig>): seq<Event>
  {
    LogIf(log.prompt, promptLine) + LogIf(log.params, ConfigLog(config))
  }

  /** The log event written after a successful generation. */
  function TailLogs(log: LogSettings, completion: Option<string>): seq<Event>
  {
    if completion.Some? then LogIf(log.completion, CompletionLog(completion.value)) else []
  }

  /** A trace made of the head logs, the events of `_resilient_generate` and
      the tail log carries exactly the expected log lines and no more
      `generate` calls than the middle part. */
  lemma TraceLogs(log: LogSettings, promptLine: LogLine, config: Option<GenConfig>,
                  gen: seq<Event>, completion: Option<string>)
    requires Logs(gen) == [] && |GenerateCalls(gen)| <= 2
    ensures Logs(HeadLogs(log, promptLine, config) + gen + TailLogs(log, completion))
            == ExpectedLogs(log, promptLine, config, completion)
    ensures GenerateCalls(HeadLogs(log, promptLine, config) + gen + TailLogs(log, completion)) == GenerateCalls(gen)
    ensures |GenerateCalls(HeadLogs(log, promptLine, config) + gen + TailLogs(log, completion))| <= 2
  {
    var a := LogIf(log.prompt, promptLine);
    var b := LogIf(log.params, ConfigLog(config));
    var head := a + b;
    var tail := TailLogs(log, completion);
    LogsAppend(a, b);
    LogsAppend(head, gen);
    LogsAppend(head + gen, tail);
    GenerateCallsAppend(a, b);
    GenerateCallsAppend(head, gen);
    GenerateCallsAppend(head + gen, tail);
    if completion.None? {
      assert Logs(tail) == [] && GenerateCalls(tail) == [];
    }
  }

  /** Every `generate` call of a trace receives the whole of `inputs`: the
      input ids and every other entry (attention mask, processor tensors). */
  predicate CallsCarry(trace: seq<Event>, inputs: ModelInputs)
  {
    forall c :: c in GenerateCalls(trace) ==> c.inputIds == inputs.inputIds && c.otherInputs == inputs.others
  }

  /** Lines 121-139 (and 166-184): generate, count, decode, and log the
      completion when its switch is on. */
  method GenerateFromInputs(e: InferenceEngine, inputs: ModelInputs, config: Option<GenConfig>,
                            streamer: Option<StreamerRef>)
    returns (r: Outcome<Completion>, gen: seq<Event>, tail: seq<Event>)
    ensures r == GenerationFromInputs(e.model, e.tokenizer, inputs, config, streamer)
    ensures Logs(gen) == [] && |GenerateCalls(gen)| <= 2
    ensures CallsCarry(gen, inputs)
    ensures tail == TailLogs(e.settings.log, TextOf(r))
  {
    var output;
    output, gen := ResilientGenerate(e.model, FirstCall(inputs, config, streamer));
    ghost var first := FirstCall(inputs, config, streamer);
    assert CallsCarry(gen, inputs) by {
      assert GenerateCalls(gen) == [first] || GenerateCalls(gen) == [first, RetryCall(first)];
    }
    if output.Raise? {
      return Raise(output.exc), gen, [];
    }
    var numPrompt := |inputs.inputIds|;
    var numCompletion := |output.value| - numPrompt;
    var generated := TokensFrom(output.value, numPrompt);
    var text := e.tokenizer.decode(generated, true);
    if text.Raise? {
      return Raise(text.exc), gen, [];
    }
    r := Ok(Completion(text.value, numPrompt, numCompletion));
    tail := LogIf(e.settings.log.completion, CompletionLog(text.value));
  }

  /** `generate_completions` (lines 104-139). The triple is the settings-free
      CompletionOutcome, so the log switches cannot change it; each log line is
      written exactly when its own switch is on; `generate` is called only once
      the prompt is tokenized, and always with everything the tokenizer call
      returned. */
  method GenerateCompletions(e: InferenceEngine, prompt: string, config: Option<GenConfig>,
                             streamer: Option<StreamerRef>)
    returns (r: Outcome<Completion>, trace: seq<Event>)
    ensures r == CompletionOutcome(e.model, e.tokenizer, prompt, config, streamer)
    ensures Logs(trace) == ExpectedLogs(e.settings.log, PromptLog(prompt), config, TextOf(r))
    ensures |GenerateCalls(trace)| <= 2
    ensures e.tokenizer.call(prompt).Raise? ==> GenerateCalls(trace) == []
    ensures e.tokenizer.call(prompt).Ok? ==> CallsCarry(trace, e.tokenizer.call(prompt).value)
  {
    var head := HeadLogs(e.settings.log, PromptLog(prompt), config);
    var inputs := e.tokenizer.call(prompt);
    if inputs.Raise? {
      TraceLogs(e.settings.log, PromptLog(prompt), config, [], None);
      assert head + [] + TailLogs(e.settings.log, None) == head;
      return Raise(inputs.exc), head;
    }
    var gen, tail;
    r, gen, tail := GenerateFromInputs(e, inputs.value, config, streamer);
    TraceLogs(e.settings.log, PromptLog(prompt), config, gen, TextOf(r));
    trace := head + gen + tail;
  }

  /** `generate_chat_completions` (lines 141-184): as above, with the model
      inputs taken from the chat template (generation prompt added, as a dict),
      so a multimodal conversation's processor tensors reach `generate`. */
  method GenerateChatCompletions(e: InferenceEngine, conversation: seq<Json>, config: Option<GenConfig>,
                                 streamer: Option<StreamerRef>)
    returns (r: Outcome<Completion>, trace: seq<Event>)
    ensures r == ChatCompletionOutcome(e, conversation, config, streamer)
    ensures Logs(trace) == ExpectedLogs(e.settings.log, ConversationLog(conversation), config, TextOf(r))
    ensures |GenerateCalls(trace)| <= 2
    ensures ApplyChatTemplate(e, conversation, ChatArgs).Raise? ==> GenerateCalls(trace) == []
    ensures ApplyChatTemplate(e, conversation, ChatArgs).Ok? ==>
              CallsCarry(trace, ApplyChatTemplate(e, conversation, ChatArgs).value)
  {
    var head := HeadLogs(e.settings.log, ConversationLog(conversation), config);
    var processed := ApplyChatTemplate(e, conversation, ChatArgs);
    if processed.Raise? {
      TraceLogs(e.settings.log, ConversationLog(conversation), config, [], None);
      assert head + [] + TailLogs(e.settings.log, None) == head;
      return Raise(processed.exc), head;
    }
    var gen, tail;
    r, gen, tail := GenerateFromInputs(e, processed.value, config, streamer);
    TraceLogs(e.settings.log, ConversationLog(conversation), config, gen, TextOf(r));
    trace := head + gen + tail;
  }

  /** The log switches, and the settings generally, never change what a chat
      generation returns or raises. */
  lemma ChatResultIgnoresSettings(e: InferenceEngine, settings: AppSettings, conversation: seq<Json>,
                                  config: Option<GenConfig>, streamer: Option<StreamerRef>)
    ensures ChatCompletionOutcome(e.(settings := settings), conversation, config, streamer)
            == ChatCompletionOutcome(e, conversation, config, streamer)
  {
  }

  lemma {:induction false} GenerateCallsAppend(a: seq<Event>, b: seq<Event>)
    ensures GenerateCalls(a + b) == GenerateCalls(a) + GenerateCalls(b)
  {
    if a == [] {
      assert a + b == b;
    } else {
      var head := if a[0].Generate? then [a[0].call] else [];
      assert (a + b)[0] == a[0];
      assert (a + b)[1..] == a[1..] + b;
      GenerateCallsAppend(a[1..], b);
      assert GenerateCalls(a + b) == head + (GenerateCalls(a[1..]) + GenerateCalls(b));
      assert head + (GenerateCalls(a[1..]) + GenerateCalls(b)) == (head + GenerateCalls(a[1..])) + GenerateCalls(b);
    }
  }

  /** `tokenize` and `detokenize` (lines 186-190): the tokenizer's own encode
      and decode, special tokens kept. */
  function Tokenize(e: InferenceEngine, prompt: string): Outcome<seq<int>>
  {
    e.tokenizer.encode(prompt)
  }

  function Detokenize(e: InferenceEngine, tokens: seq<int>): Outcome<string>
  {
    e.tokenizer.decode(tokens, false)
  }
}
