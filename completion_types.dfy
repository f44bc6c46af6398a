/** Text-completion request and response bodies (src/api/types/completions.py). */
module CompletionTypes {
  import opened Common
  import opened Runtime
  import opened Samplers
  import opened Records

  datatype CompletionRequest = CompletionRequest(
    samplers: Samplers,
    model: Option<string>,
    prompt: string,
    stream: bool)

  datatype CompletionChoice = CompletionChoice(
    text: string,
    index: int,
    logprobs: Option<string>,
    finishReason: Option<string>)

  /** `CompletionChoice(text=..., finish_reason=...)` with its defaults. */
  function NewCompletionChoice(text: string, finishReason: Option<string>): CompletionChoice
  {
    CompletionChoice(text, 0, None, finishReason)
  }

  datatype CompletionResponse = CompletionResponse(
    id: string,
    objectName: string,
    model: Option<string>,
    choices: seq<CompletionChoice>,
    usage: Option<UsageInfo>)

  /** `CompletionResponse(model=..., choices=..., usage=...)` with its
      defaults. */
  function NewCompletionResponse(model: Option<string>, choices: seq<CompletionChoice>,
                                 usage: Option<UsageInfo>): CompletionResponse
  {
    CompletionResponse("transAPI", "text_completion", model, choices, usage)
  }

  /** Validation of a completion request body (lines 8-11): the sampler
      fields, `model` (default None), the required string `prompt` and `stream`
      (default false). */
  function ParseCompletionRequest(body: map<string, Json>): (r: Outcome<CompletionRequest>)
    ensures r.Ok? ==> ParseSamplers(body) == Ok(r.value.samplers)
    ensures r.Ok? ==> (r.value.model.None? <==> "model" !in body || body["model"] == JNull)
    ensures r.Ok? ==> (r.value.stream <==> "stream" in body && body["stream"] == JBool(true))
    ensures r.Ok? ==> "prompt" in body && body["prompt"] == JStr(r.value.prompt)
    ensures !("prompt" in body && body["prompt"].JStr?) ==> r.Raise?
  {
    var samplers :- ParseSamplers(body);
    var model :- if "model" !in body || body["model"] == JNull then Ok(None)
                 else if body["model"].JStr? then Ok(Some(body["model"].s))
                 else Raise(ValidationError("model: Input should be a valid string"));
    var prompt :- if "prompt" !in body then Raise(ValidationError("prompt: Field required"))
                  else if body["prompt"].JStr? then Ok(body["prompt"].s)
                  else Raise(ValidationError("prompt: Input should be a valid string"));
    var stream :- if "stream" !in body then Ok(false)
                  else if body["stream"].JBool? then Ok(body["stream"].b)
                  else Raise(ValidationError("stream: Input should be a valid boolean"));
    Ok(CompletionRequest(samplers, model, prompt, stream))
  }

  /** The fields CompletionRequest adds to Samplers, as `model_dump()` writes
      them. */
  function OwnFields(req: CompletionRequest): map<string, Json>
  {
    map["model" := (if req.model.Some? then JStr(req.model.value) else JNull),
        "prompt" := JStr(req.prompt),
        "stream" := JBool(req.stream)]
  }

  const CompletionExclude: set<string> := {"stream", "model", "prompt"}

  /** `CompletionRequest.gen_config` (lines 13-15): the exclusions cover every
      field the request adds, so GenerationConfig receives exactly the sampler
      configuration. */
  function CompletionGenConfig(req: CompletionRequest): (config: GenConfig)
    ensures config == GenConfigOf(req.samplers)
  {
    RequestConfigIsSamplerConfig(req.samplers, OwnFields(req), CompletionExclude);
    RequestGenConfig(req.samplers, OwnFields(req), CompletionExclude)
  }
}
