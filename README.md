# transAPI in Dafny

transAPI serves a Hugging Face causal language model behind an OpenAI-style
HTTP interface. It exposes text completions, chat completions (both as one
JSON response or as a server-sent event stream), tokenize/detokenize, the
model list and a health check. This project models the decision and
protocol rules of that server and proves what they guarantee:

- **engine** (`Engine`): classifying a conversation as multimodal, routing
  the chat template to the tokenizer or the processor (falling back to the
  tokenizer when the processor raises), generation with exactly one
  out-of-memory retry, and the prompt/completion token accounting;
- **streaming** (`Streaming`, `ChatEndpoint`, `CompletionEndpoint`, `Sse`):
  the event sequence each endpoint yields while draining the streamer, the
  `format_sse` framing, and what a client reading the byte stream receives;
- **JSON responses and error mapping** of both completion endpoints;
- **request bodies** (`Samplers`, `ChatTypes`, `CompletionTypes`): field
  aliases and defaults, and the canonical generation configuration that
  `gen_config` hands to `GenerationConfig`;
- **configuration** (`Settings`): the settings defaults and `load_config`'s
  rewrite of `served_model_names`;
- **loading** (`Loader`): the dtype table, the bitsandbytes flags, the
  pad-token fallback and the error wrapping;
- **lifecycle** (`Lifecycle`, `Dependencies`, `Health`): `app.state.engine`
  as a small state machine, the 503 availability gate, the health report and
  the catch-all exception handler;
- **small routes** (`TokenizerEndpoint`, `ListModels`, `Routes`).

The model runtime is not part of the server: `generate`, the tokenizer's
call, `encode`/`decode`/`apply_chat_template`, the processor, the hub loaders and
`torch.compile` are function-valued fields (`Runtime`, `Loader.Hub`), so
every property holds whatever they compute. A Python call that returns or
raises is an `Outcome` (`Ok(value)` or `Raise(exception)`). CUDA
out-of-memory is the `OutOfMemory` exception.

Two behaviours of the streaming code are easy to miss:

- A chat stream does not always end with a usage-bearing terminal chunk and
  `[DONE]`. The prompt and completion counts are taken inside the `finally`
  block, before the terminal chunk is yielded
  (src/api/endpoints/chat_completions.py:61-79). If either count raises, the
  stream ends right after the fragment chunks (`ChatEndpoint.ChatStreamEnd`).
- The comment on `CompletionResponse.usage` (src/api/types/completions.py:31)
  has usage absent from streaming chunks until the final one. The
  text-completion stream's final chunk carries no usage either
  (src/api/endpoints/completions.py:55-57,
  `CompletionEndpoint.CompletionStreamShape`).

## Model

| member | source | states |
|---|---|---|
| Engine.AnyMediaItem | src/core/engine.py:50-58 | true exactly when some content item is a dict whose "type" is "image" or "video" |
| Engine.IsMultimodal | src/core/engine.py:43-62 | true exactly when some message is a dict with a list "content" holding a media item |
| Engine.StringContentIsTextOnly | src/core/engine.py:46-61 | non-dict messages, messages without "content" and messages with string content never make a conversation multimodal |
| Engine.ApplyChatTemplate | src/core/engine.py:64-102 | text-only conversations get the tokenizer's result. Multimodal ones get the processor's result when it succeeds, else the tokenizer's for the same arguments. A failure is always the tokenizer's. The result is the whole template output: the input ids and every other entry (attention mask, processor tensors) |
| Engine.TextOnlyIgnoresProcessor | src/core/engine.py:73-81 | for a text-only conversation, replacing the processor changes nothing |
| Engine.RetryCall | src/core/engine.py:38-41 | the retry keeps every model input (the input ids and the other entries such as the attention mask and processor tensors), forces cache_implementation "offloaded", and drops generation_config, streamer and tokenizer |
| Engine.ResilientGenerate | src/core/engine.py:18-41 | one `generate` call unless the first raises OutOfMemory. Then: warning, cache emptied, exactly one retry, whose outcome (an OOM included) is returned. Never more than two calls |
| Engine.Account | src/core/engine.py:119-134 | prompt count = input length; prompt + completion = output length; only the tokens after the prompt are decoded, skipping special tokens; decode errors propagate |
| Engine.LogIf | src/core/engine.py:111-114 | a log line is written exactly when its switch is on, and no `generate` call is made |
| Engine.GenerateCompletions | src/core/engine.py:104-139 | the result is the settings-free CompletionOutcome. Prompt, config and completion lines are logged each exactly when its own switch is on (completion only on success). At most two `generate` calls; none when the tokenizer call raises, and otherwise each receives everything the tokenizer call returned |
| Engine.GenerateChatCompletions | src/core/engine.py:141-184 | the same for a conversation. The model inputs come from the chat template with the generation prompt added, as a dict; every `generate` call receives all of them, so a multimodal conversation's processor tensors reach the model; no call is made when the template raises |
| Engine.GenerateFromInputs | src/core/engine.py:121-139 | from the model inputs: the resilient generation, then the counts over the input ids and the decoded completion; every `generate` call receives all the inputs; no log line is written by the generation itself and at most two `generate` calls are made; the completion line is written exactly when its switch is on and the generation succeeded |
| Engine.TraceLogs | src/core/engine.py:111-139 | the prompt and config lines, the generation and the completion line together log exactly the expected lines, in order; the `generate` calls are exactly the generation's, so at most two |
| Engine.ChatResultIgnoresSettings | src/core/engine.py:141-184 | the settings, the log switches included, never change what a chat generation returns or raises |
| Streaming.FinishReason | src/api/endpoints/chat_completions.py:57-60 | "stop" exactly when the iteration was exhausted, "error" exactly when it raised; a StopIteration from the iterator counts as exhaustion, so it is not a failure the streamer can carry |
| Streaming.NonEmptyFilters | src/api/endpoints/completions.py:42-44 | skipping empty fragments splits over concatenation, keeps non-empty fragments in order and drops empty ones |
| Streaming.ConcatSkipsEmpty | src/api/endpoints/chat_completions.py:42-49 | the accumulated text of the non-empty fragments is all the text the streamer yielded |
| Streaming.StreamReachesClient | src/api/endpoints/chat_completions.py:56-81 | if the serialiser writes no line feed, a client parsing the stream receives exactly one event per yielded item, in order, ending with "[DONE]" |
| ChatEndpoint.StreamChatCompletion | src/api/endpoints/chat_completions.py:19-81 | the loop and the `finally` block yield exactly the reference stream ChatStream; the background thread (lines 24-38) logs exactly the lines `generate_chat_completions` logs for the conversation, the request's configuration and that streamer, and makes at most two `generate` calls |
| ChatEndpoint.DrainChat | src/api/endpoints/chat_completions.py:45-56 | the loop skips empty fragments and yields one chunk per non-empty fragment, in order, with no finish reason; `all_text` is the concatenation of every fragment |
| ChatEndpoint.Finally | src/api/endpoints/chat_completions.py:61-81 | the `finally` block counts the prompt and the completion; if either count raises, nothing more is yielded and the exception escapes; otherwise the terminal chunk with the usage and then the marker |
| ChatEndpoint.StreamedTextOfFragments | src/api/endpoints/chat_completions.py:45-56 | the deltas of the fragment chunks concatenate to the fragments |
| ChatEndpoint.ChatStreamChunks | src/api/endpoints/chat_completions.py:45-56 | one chunk per non-empty fragment, in order. Each has delta = the fragment, no finish reason and no usage. Together they carry all the streamed text |
| ChatEndpoint.ChatStreamEnd | src/api/endpoints/chat_completions.py:57-81 | cut short exactly when a count raises; otherwise one terminal chunk (empty delta, "stop"/"error", usage prompt + completion) and then the marker, last |
| ChatEndpoint.ChatHttpError | src/api/endpoints/chat_completions.py:123-135 | StopIteration becomes 500 "Generator yielded no response"; an HTTPException passes unchanged; anything else becomes 500 with the chat-generation prefix |
| ChatEndpoint.CreateChatCompletion | src/api/endpoints/chat_completions.py:89-135 | `stream` alone selects the event stream, whose trace is the background generation's. Otherwise the reply is the JSON response or the mapped error, and the engine logs exactly the expected lines |
| ChatEndpoint.JsonChatCompletion | src/api/endpoints/chat_completions.py:101-135 | the reply is the JSON response ChatJsonReply describes or its mapped error, and the engine logs exactly the expected lines |
| ChatEndpoint.ChatJsonReplyShape | src/api/endpoints/chat_completions.py:101-121 | one choice with the generated message and "stop", usage total = prompt + completion; every failure is an HTTP error |
| ChatEndpoint.MultimodalMessages | src/core/engine.py:43-62 | the dumped request messages are multimodal exactly when some list content has a part whose "type" is "image" or "video" |
| CompletionEndpoint.StreamCompletion | src/api/endpoints/completions.py:18-59 | the loop and the `finally` block yield exactly the reference stream CompletionStream; the background thread (lines 23-37) logs exactly the lines `generate_completions` logs for the prompt, the request's configuration and that streamer, and makes at most two `generate` calls |
| CompletionEndpoint.DrainAndFinish | src/api/endpoints/completions.py:41-59 | the loop's chunks, then the terminal chunk with the finish reason ("stop" on exhaustion, "error" when the iteration raised), then the marker: exactly CompletionStream |
| CompletionEndpoint.DrainCompletion | src/api/endpoints/completions.py:42-49 | the loop skips empty fragments and yields one chunk per non-empty fragment, in order, with no finish reason |
| CompletionEndpoint.StreamedTextOfFragments | src/api/endpoints/completions.py:42-49 | the texts of the fragment chunks concatenate to the fragments |
| CompletionEndpoint.CompletionStreamShape | src/api/endpoints/completions.py:41-59 | one chunk per non-empty fragment carrying all the text; then one terminal chunk with empty text and "stop"/"error"; then the marker. No usage anywhere |
| CompletionEndpoint.CompletionHttpError | src/api/endpoints/completions.py:96-101 | an HTTPException passes unchanged; anything else becomes 500 with the generation prefix |
| CompletionEndpoint.CreateCompletion | src/api/endpoints/completions.py:63-101 | `stream` alone selects the event stream, whose trace is the background generation's. Otherwise the reply is the JSON response or the mapped error, and the engine logs exactly the expected lines |
| CompletionEndpoint.CompletionJsonReplyShape | src/api/endpoints/completions.py:75-94 | one choice with the generated text and "stop", usage total = prompt + completion; every failure is an HTTP error |
| Sse.FormatSse | src/api/utils/format_sse.py:4-7 | the frame is the field, ": ", then exactly the payload, then a blank-line terminator |
| Sse.DoneMarkerIsFrame | src/api/endpoints/completions.py:59 | the hand-written marker is the `data` frame of "[DONE]" |
| Sse.FrameDelivers | src/api/utils/format_sse.py:6-7 | a frame whose payload has no line feed reaches an event-stream reader as exactly one event with that payload |
| Sse.FramesDeliver | src/api/utils/format_sse.py:4-7 | a sequence of such frames reaches the reader as exactly its payloads, in order |
| Samplers.InputKey | src/api/types/samplers.py:7-9 | fields without an alias are read from their keyword name |
| Samplers.OptBool | src/api/types/samplers.py:6 | a missing key gives the default; null gives None |
| Samplers.OptInt | src/api/types/samplers.py:8-14 | a missing key or null gives None, an integer gives itself |
| Samplers.OptFloat | src/api/types/samplers.py:12-15 | a missing key or null gives None, a float gives itself |
| Samplers.OptStop | src/api/types/samplers.py:9 | one string or a list of strings; missing or null gives None |
| Samplers.ParseSamplers | src/api/types/samplers.py:5-15 | a body validates exactly when every field's input key, where present, holds a value of the field's declared type |
| Samplers.GenConfigOf | src/api/types/samplers.py:17-19 | exactly the non-null fields; `max_length` always; `do_sample` exactly when not null |
| Samplers.NoTransportKeywords | src/api/types/samplers.py:18 | no configuration key is `stream`, `model`, `messages` or `prompt` |
| Samplers.DumpExcluding | src/api/types/samplers.py:19 | `model_dump(exclude=..., exclude_none=True)` keeps exactly the non-null, non-excluded fields with their values |
| Samplers.RequestConfigIsSamplerConfig | src/api/types/samplers.py:17-19 | when a request excludes all its own fields, the dump holds sampler fields only and equals the sampler configuration |
| Samplers.FieldFromBody | src/api/types/samplers.py:5-15 | each validated field dumps to the body's value under its input key, or to its default |
| Samplers.GenConfigFromBody | src/api/types/samplers.py:5-19 | the generation configuration of a valid body equals the reference map read straight from the body's input keys |
| Samplers.ParseReadsInputKeysOnly | src/api/types/samplers.py:5-15 | two bodies that agree on the input keys validate identically |
| Samplers.CanonicalNamesIgnoredAsInput | src/api/types/samplers.py:7-9 | `max_length`, `max_new_tokens` and `stop_strings` in a body are ignored |
| ChatTypes.StrDict | src/api/types/chat_completions.py:10 | a dict[str, str] is exactly an object with only string values, with the same keys and values |
| ChatTypes.ParseContent | src/api/types/chat_completions.py:10 | content validates exactly when it is a string or a list of dict[str, str] |
| ChatTypes.ParseMessage | src/api/types/chat_completions.py:8-10 | a message validates exactly when it has a string role and a valid content |
| ChatTypes.ParseMessages | src/api/types/chat_completions.py:21 | a list validates exactly when every message does, giving them in order |
| ChatTypes.ParseChatRequest | src/api/types/chat_completions.py:19-22 | samplers from the body. `model` is None exactly when absent or null. `stream` is true exactly when given true. `messages` is required |
| ChatTypes.MessagesJson | src/api/endpoints/chat_completions.py:20 | one dumped dict per message, in order |
| ChatTypes.MessageRoundTrip | src/api/types/chat_completions.py:8-10 | validating a dumped message gives it back |
| ChatTypes.MessagesRoundTrip | src/api/endpoints/chat_completions.py:20 | validating the dumped conversation gives the messages back |
| ChatTypes.ChatGenConfig | src/api/types/chat_completions.py:24-26 | the request's configuration is exactly its sampler configuration |
| CompletionTypes.ParseCompletionRequest | src/api/types/completions.py:8-11 | samplers from the body; `model` None exactly when absent or null; `stream` true exactly when given true; `prompt` a required string |
| CompletionTypes.CompletionGenConfig | src/api/types/completions.py:13-15 | the request's configuration is exactly its sampler configuration |
| Settings.ParseServer | config/settings.py:5-9 | `ServerSettings(**d)` validates exactly when the section is an object whose `host` and `root_path` are strings, whose `port` is an integer and whose `served_model_names` is a list of strings or null, wherever present; each present field is taken as given and each absent one is `0.0.0.0`, 8000, `""` or the empty list |
| Settings.ParseLog | config/settings.py:12-16 | `LogSettings(**d)` validates exactly when `level` is a string and `prompt`, `params` and `completion` are booleans wherever present; each absent field is `info` or false |
| Settings.ParseQuantization | config/settings.py:19-21 | `QuantizationSettings(**d)` validates exactly when `bnb_4bit` and `bnb_8bit` are booleans wherever present; each absent flag is false |
| Settings.ParseModel | config/settings.py:24-28 | `ModelSettings(**d)` validates exactly when `model_path` is present and a string, a present `quantization` is a valid quantization object, and `device` and `precision` are strings wherever present; the model path is the data's, the quantization is the section's parse or the all-false default, device defaults to `auto` and precision to `bfloat16` |
| Settings.ParseCors | config/settings.py:31-36 | `CorsSettings(**d)` validates exactly when `enabled` and `allow_credentials` are booleans and the three `allow_*` lists are lists of strings wherever present; each present field is taken as given, and the defaults are disabled, credentials allowed and `["*"]` for every list |
| Settings.BuildSettings | config/settings.py:39-43 | `AppSettings(**data)` succeeds exactly when the `model` section is present and valid and every present `server`, `log` and `cors` section is valid; each section of the result is that section's parse, or its default when the section is absent; a missing `model` section fails |
| Settings.DefaultsFromMinimalConfig | config/settings.py:5-43 | a configuration naming only the model path gets every documented default |
| Common.Strings | config/settings.py:9 | a list validates as list[str] exactly when every item is a string |
| Settings.PyContains | config/settings.py:52 | Python's `in` on a dict is key membership; it raises exactly on a non-container |
| Settings.LastSegment | config/settings.py:54 | the name is the suffix of the path after its last '/', and holds no '/' |
| Settings.OriginalModelName | config/settings.py:52-54 | a missing `model` or `model_path` is the ValueError; success is the last segment of the path |
| Settings.NormalizedServedNames | config/settings.py:57-65 | the normalised list always ends with the original model name |
| Settings.RewriteServedNames | config/settings.py:57-65 | the in-place rewrite of the `server` section sets `served_model_names` to the normalised list, or raises the same error |
| Settings.ServedNamesCases | config/settings.py:57-65 | absent gives [orig, orig]; null gives [orig]; a string s gives [s, orig]; a list L gives L + [orig] |
| Settings.NormalizedConfig | config/settings.py:51-65 | the name check's error propagates; success keeps the keys and needs a `server` section |
| Settings.NormalizeConfig | config/settings.py:51-65 | the in-place rewrite computes NormalizedConfig |
| Settings.LoadConfig | config/settings.py:46-67 | a missing `model` or `model_path` is the ValueError of OriginalModelName; otherwise the result is the validation of NormalizedConfig, whose last served name is the original model name; the loaded host, port and root path are the file's or their defaults, and the model, log and cors sections are their own validations or defaults |
| Settings.LoadedKeepsOtherFields | config/settings.py:54-67 | the rewrite before validation touches only `server.served_model_names`: every other loaded field is what the configuration file says, or its default |
| Settings.LoadedNamesEndWithOriginal | config/settings.py:57-67 | the settings validated from a normalised configuration end their served names with the original model name |
| Settings.NormalizedServerSection | config/settings.py:55-65 | after normalisation the server section holds a list of served names ending with the original model name |
| Settings.ServedNamesSurviveValidation | config/settings.py:65-67 | validation keeps the normalised list, so its last name is the original |
| Loader.TorchDtype | src/core/loader.py:26-31 | each listed precision gives its dtype; anything else gives "auto" |
| Loader.QuantizationConfig | src/core/loader.py:33-44 | BitsAndBytesConfig is called exactly when a flag is set, asking for exactly one of 4-bit and 8-bit loading (4-bit winning), with the compute dtype from the table, CPU offload and double quantization |
| Loader.PadTokenChoice | src/core/loader.py:68-76 | precedence: the existing pad token, then EOS, then UNK, else none; reading a missing attribute raises |
| Loader.EnsurePadToken | src/core/loader.py:68-76 | the tokenizer's pad token becomes PadTokenChoice, and is unchanged on failure |
| Loader.LoadModelWithSettings | src/core/loader.py:13-89 | succeeds exactly when the reference LoadOutcome does, with its compiled model, processor, a fresh tokenizer with the fetched functions and the chosen pad token; fails with LoadOutcome's exception: the ValueError for an empty path, the quantization config's own exception unwrapped, or the wrapped RuntimeError |
| Loader.LoadOutcomeCases | src/core/loader.py:13-89 | loading succeeds exactly when the path is non-empty, the quantization config (if asked for) is built and every step of the try block succeeds (model, tokenizer, pad token, processor, compile). An empty path is the ValueError; a rejected quantization config escapes unwrapped, since it is built before the try; a failure inside the try block is a RuntimeError whose message is the prefix followed by the failing step's message. Without a flag the constructor is never called |
| Loader.QuantizedAutoDtypeUnwrapped | src/core/loader.py:26-46 | a precision outside the table with 4-bit on asks BitsAndBytesConfig for compute dtype "auto"; if the constructor raises, load_model_with_settings raises that exception unwrapped |
| Lifecycle.SlotAfterShutdown | main.py:47-50 | shutdown clears a stored engine and leaves any other state alone |
| Lifecycle.AppState.Startup | main.py:30-42 | the loader result succeeds exactly when LoadOutcome does, with its parts, and otherwise carries LoadOutcome's exception; the slot holds the engine on success; on failure it holds None and startup aborts with the RuntimeError |
| Lifecycle.AppState.Shutdown | main.py:46-51 | the slot becomes SlotAfterShutdown of the old one |
| Lifecycle.GateFollowsLifecycle | main.py:28-51 | after a successful startup requests reach that engine; after a failed one or after shutdown they get 503 |
| Lifecycle.GeneralExceptionHandler | main.py:66-72 | status 500 with the single key "detail" = "Internal Server Error with " + str(exc) |
| Dependencies.GetInferenceEngine | src/api/utils/dependencies.py:8-24 | the stored engine exactly when one is available; otherwise 503 with its detail; an error is logged only on failure |
| Health.HealthCheck | src/api/endpoints/health.py:7-14 | exactly the keys status ("ok") and engine_status (available/unavailable) |
| Health.HealthAgreesWithGate | src/api/endpoints/health.py:9-13 | "available" exactly when the gate lets requests through, "unavailable" exactly when it answers 503 |
| TokenizerEndpoint.TokenizeRoute | src/api/endpoints/tokenizer.py:14-28 | the engine's tokens with count = their number; any failure is 500 with the tokenization prefix |
| TokenizerEndpoint.DetokenizeRoute | src/api/endpoints/tokenizer.py:31-45 | the engine's text; any failure is 500 with the detokenization prefix |
| TokenizerEndpoint.RoutesPassThrough | src/core/engine.py:186-190 | tokenize is the tokenizer's encode; detokenize is its decode, keeping special tokens |
| ListModels.ListModelsRoute | src/api/endpoints/list_models.py:11-26 | a None name list fails the assertion; otherwise one card per name, in order, in a "list" |
| ListModels.CardIdsAreNames | src/api/endpoints/list_models.py:21-26 | the card ids are the served names, in order; each card has object "model" and owner "transAPI" |
| Routes.Route | main.py:87-91 | each handler is reached from exactly the method and paths its decorators name (`/models` and `/v1/models`, `/tokenize` and `/v1/tokenize`, `/detokenize` and `/v1/detokenize`, one path for the others); no other request reaches these handlers |

## Left out

- Threads and TextIteratorStreamer: the streamer is the fragments it yields plus how the iteration ended. The fragments are not tied to what the generating thread computes. The thread's log lines and `generate` calls are the stream path's trace, but how they interleave with the yielded events is not modelled; an exception inside the thread never reaches the stream and is dropped.
- Transformers and torch internals (`generate`, tokenizers, processors, `torch.compile`, the `BitsAndBytesConfig` constructor, `torch.cuda.empty_cache`): function values that return or raise (`Runtime`, `Loader.Hub`), or events in a trace. What a BitsAndBytesConfig object holds beyond its arguments is not modelled.
- Tensors: the tokenizer call `tokenizer(prompt, return_tensors="pt")` and the chat template return the input ids (the first row) and the other entries by name. The model carries those entries, such as the attention mask and `pixel_values`, into `generate` unread. Their contents, batching and the move to the device are left out. With `return_dict=False` only the ids are read.
- The `is not None` assertions on input ids and outputs cannot fail in the model: the runtime functions always return a value or raise.
- GenerationConfig construction: `gen_config` is modelled as the keyword map GenerationConfig receives. The model does not capture GenerationConfig rejecting inconsistent values.
- pydantic validation: the model uses strict JSON types, except that an integer is accepted for a float field. Lax coercions (numeric strings, floats with zero fraction) and pydantic's own error texts and error ordering are simplified to the first failing field.
- `json.dumps` is a function parameter of the streaming lemmas, assumed to write no line feed. `created` timestamps (`time.time()`) are not modelled. Float sampler values are reals with no arithmetic.
- The event-stream reader of section 9.2 of the HTML Living Standard is modelled for LF line endings only.
- FastAPI and uvicorn wiring (`Depends`, `StreamingResponse`, the CORS middleware and `uvicorn.run` in main.py:75-101): routes are a table from method and path to handler.
- File and YAML I/O in `load_config`, the config-file choice at main.py:18-22 and the logging set-up at main.py:23-24: `load_config` starts from the parsed mapping.
- Log texts of `lifespan`, of the loader and the `print(e)` in the chat stream are not modelled. The engine's log lines are modelled as events.
- src/api/types/tool_call.py is not used by any route and is not part of this model.
- ChatTypes.ParseChatRequest: states what a successful parse holds and that a missing `messages` fails, not which validation error is reported.
- CompletionTypes.ParseCompletionRequest: states what a successful parse holds and that a missing or non-string `prompt` fails, not which validation error is reported.
- Streaming.StreamReachesClient: holds only for serialisers that write no line feed, which `json.dumps` without indentation guarantees but the model does not derive.
