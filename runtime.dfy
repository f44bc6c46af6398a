/** The model runtime the server drives but does not implement: the causal
    language model's `generate`, the tokenizer, the multimodal processor and the
    functions that fetch them from a model path. Each is a function value, so
    every property proved about the server holds whatever they compute; a call
    that can raise returns an Outcome. */
module Runtime {
  import opened Common

  /** The GenerationConfig keyword arguments the server sets. */
  datatype GenField = DoSample | MaxLength | MaxNewTokens | StopStrings | NumBeams
                    | NumBeamGroups | Temperature | TopP | TopK | RepetitionPenalty

  /** The keyword each field is passed as. */
  function KeywordName(f: GenField): string
  {
    match f
    case DoSample => "do_sample"
    case MaxLength => "max_length"
    case MaxNewTokens => "max_new_tokens"
    case StopStrings => "stop_strings"
    case NumBeams => "num_beams"
    case NumBeamGroups => "num_beam_groups"
    case Temperature => "temperature"
    case TopP => "top_p"
    case TopK => "top_k"
    case RepetitionPenalty => "repetition_penalty"
  }

  /** A generation configuration, as the keyword arguments GenerationConfig is
      built from, each under its keyword `KeywordName(f)`. */
  type GenConfig = map<GenField, Json>

  /** Identity of a TextIteratorStreamer handed to `generate`. */
  datatype StreamerRef = StreamerRef(id: nat)

  /** The keyword arguments of `apply_chat_template`. */
  datatype TemplateArgs = TemplateArgs(
    addGenerationPrompt: bool,
    tokenize: bool,
    addSpecialTokens: bool,
    returnDict: bool)

  /** A tensor the program hands on without reading it: an attention mask, a
      processor's `pixel_values`, and the like. */
  datatype Tensor = Tensor(shape: seq<nat>, values: seq<real>)

  /** What a tokenizer call or a tokenizing chat template returns: the (first
      row of the) input ids, and every other entry of the dict by its key. When
      `return_dict` is false only the ids are returned, and only they are read. */
  datatype ModelInputs = ModelInputs(inputIds: seq<int>, others: map<string, Tensor>)

  /** The arguments of one `model.generate` call: the model inputs spread into
      it (the input ids and the other entries) and the keyword arguments the
      program passes. */
  datatype GenerateCall = GenerateCall(
    inputIds: seq<int>,
    otherInputs: map<string, Tensor>,
    useModelDefaults: bool,
    generationConfig: Option<GenConfig>,
    streamer: Option<StreamerRef>,
    passesTokenizer: bool,
    cacheImplementation: Option<string>)

  /** An attribute read on a Python object: absent (AttributeError) or present. */
  datatype Attr<T> = Missing | Present(value: T)

  datatype ModelConfig = ModelConfig(eosToken: Attr<Option<string>>, unkToken: Attr<Option<string>>)

  /** A loaded model: its configuration and its `generate`, which returns the
      first row of the output ids (prompt followed by the new tokens) or raises,
      possibly with OutOfMemory. */
  datatype Model = Model(config: ModelConfig, generate: GenerateCall -> Outcome<seq<int>>)

  /** What AutoTokenizer.from_pretrained yields before the loader touches it. */
  datatype TokenizerSpec = TokenizerSpec(
    call: string -> Outcome<ModelInputs>,
    encode: string -> Outcome<seq<int>>,
    decode: (seq<int>, bool) -> Outcome<string>,
    chatTemplate: (seq<Json>, TemplateArgs) -> Outcome<ModelInputs>,
    padToken: Option<string>)

  datatype Processor = Processor(chatTemplate: (seq<Json>, TemplateArgs) -> Outcome<ModelInputs>)

  /** The tokenizer object. Only its pad token is ever assigned after loading. */
  class Tokenizer {
    /** `tokenizer(text, return_tensors="pt")` */
    const call: string -> Outcome<ModelInputs>
    const encode: string -> Outcome<seq<int>>
    /** `decode(ids, skip_special_tokens)` */
    const decode: (seq<int>, bool) -> Outcome<string>
    const chatTemplate: (seq<Json>, TemplateArgs) -> Outcome<ModelInputs>
    var padToken: Option<string>

    constructor (spec: TokenizerSpec)
      ensures call == spec.call && encode == spec.encode && decode == spec.decode
      ensures chatTemplate == spec.chatTemplate && padToken == spec.padToken
    {
      call := spec.call;
      encode := spec.encode;
      decode := spec.decode;
      chatTemplate := spec.chatTemplate;
      padToken := spec.padToken;
    }
  }
}
