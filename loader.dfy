/** Model loading (src/core/loader.py): the precision-to-dtype lookup, the
    bitsandbytes quantization arguments, the pad-token fallback and the
    wrapping of every failure inside the loading block into a RuntimeError. */
module Loader {
  import opened Common
  import opened Settings
  import opened Runtime

  datatype DType = Float32 | Float16 | BFloat16 | AutoDType

  /** The dtype table of lines 26-31; a precision it does not list means "auto". */
  function TorchDtype(precision: string): (d: DType)
    ensures d == Float32 <==> precision == "float32"
    ensures d == Float16 <==> precision == "float16"
    ensures d == BFloat16 <==> precision == "bfloat16"
    ensures d == AutoDType <==> precision !in {"float32", "float16", "bfloat16"}
  {
    var table := map["float32" := Float32, "float16" := Float16, "bfloat16" := BFloat16, "auto" := AutoDType];
    if precision in table then table[precision] else AutoDType
  }

  /** The keyword arguments lines 35-44 pass to BitsAndBytesConfig. */
  datatype BnbArgs = BnbArgs(
    loadIn8bit: bool,
    fp32CpuOffload: bool,
    loadIn4bit: bool,
    computeDtype: DType,
    doubleQuant: bool)

  /** A BitsAndBytesConfig object, identified by the arguments it was built from. */
  datatype BnbConfig = BnbConfig(args: BnbArgs)

  /** The arguments of the BitsAndBytesConfig call of lines 33-44: the call
      is made only when a quantization flag is set, and then asks for exactly
      one of 4-bit and 8-bit loading, 4-bit winning when both are set. */
  function QuantizationConfig(q: QuantizationSettings, dtype: DType): (c: Option<BnbArgs>)
    ensures c.Some? <==> q.bnb4bit || q.bnb8bit
    ensures c.Some? ==> c.value.loadIn4bit != c.value.loadIn8bit
    ensures c.Some? ==> (c.value.loadIn4bit <==> q.bnb4bit)
    ensures c.Some? ==> c.value.computeDtype == dtype && c.value.fp32CpuOffload && c.value.doubleQuant
  {
    if q.bnb4bit || q.bnb8bit then
      Some(BnbArgs(q.bnb8bit && !q.bnb4bit, true, q.bnb4bit, dtype, true))
    else None
  }

  /** The pad token the tokenizer ends up with (lines 68-76): its own if it has
      one, else the model's EOS token, else its UNK token, else none. Reading a
      token attribute the model configuration lacks raises AttributeError. */
  function PadTokenChoice(current: Option<string>, config: ModelConfig): (r: Outcome<Option<string>>)
    ensures current.Some? ==> r == Ok(current)
    ensures current.None? && config.eosToken.Present? && config.eosToken.value.Some? ==> r == Ok(config.eosToken.value)
    ensures current.None? && config.eosToken == Present(None) && config.unkToken.Present? ==> r == Ok(config.unkToken.value)
    ensures r.Raise? <==> current.None? && (config.eosToken.Missing? || (config.eosToken == Present(None) && config.unkToken.Missing?))
    ensures r.Raise? ==> r.exc.AttributeError?
  {
    if current.Some? then Ok(current)
    else match config.eosToken
      case Missing => Raise(AttributeError("config has no attribute 'eos_token'"))
      case Present(Some(eos)) => Ok(Some(eos))
      case Present(None) =>
        match config.unkToken
        case Missing => Raise(AttributeError("config has no attribute 'unk_token'"))
        case Present(unk) => Ok(unk)
  }

  /** Lines 68-76 applied to the tokenizer object in place. */
  method EnsurePadToken(tokenizer: Tokenizer, config: ModelConfig) returns (r: Outcome<()>)
    modifies tokenizer
    ensures r.Ok? <==> PadTokenChoice(old(tokenizer.padToken), config).Ok?
    ensures r.Ok? ==> tokenizer.padToken == PadTokenChoice(old(tokenizer.padToken), config).value
    ensures r.Raise? ==> tokenizer.padToken == old(tokenizer.padToken) && r.exc == PadTokenChoice(old(tokenizer.padToken), config).exc
  {
    if tokenizer.padToken.None? {
      match config.eosToken {
        case Missing =>
          return Raise(AttributeError("config has no attribute 'eos_token'"));
        case Present(eos) =>
          if eos.Some? {
            tokenizer.padToken := eos;
          } else {
            match config.unkToken {
              case Missing =>
                return Raise(AttributeError("config has no attribute 'unk_token'"));
              case Present(unk) =>
                if unk.Some? {
                  tokenizer.padToken := unk;
                }
            }
          }
      }
    }
    r := Ok(());
  }

  /** The keyword arguments of AutoModelForCausalLM.from_pretrained that vary
      with the settings. */
  datatype LoadArgs = LoadArgs(deviceMap: string, dtype: DType, quantization: Option<BnbConfig>)

  /** The library calls of the loader: the BitsAndBytesConfig constructor
      (which may reject its arguments, e.g. a compute dtype torch does not
      have), fetching the three components from a model path, and
      torch.compile. */
  datatype Hub = Hub(
    bnbConfig: BnbArgs -> Outcome<BnbConfig>,
    loadModel: (string, LoadArgs) -> Outcome<Model>,
    loadTokenizer: string -> Outcome<TokenizerSpec>,
    loadProcessor: string -> Outcome<Processor>,
    compile: Model -> Outcome<Model>)

  datatype Loaded = Loaded(model: Model, tokenizer: Tokenizer, processor: Processor)

  const MissingModelPath := "Model name must be provided in the configuration"
  const LoadErrorPrefix := "Error initializing model and tokenizer: "

  /** `quant_cfg` (lines 33-44): None without a quantization flag, else what
      the BitsAndBytesConfig constructor returns or raises. This runs before
      the try block, so its exception is not wrapped. */
  function QuantOutcome(settings: ModelSettings, hub: Hub): Outcome<Option<BnbConfig>>
  {
    match QuantizationConfig(settings.quantization, TorchDtype(settings.precision))
    case None => Ok(None)
    case Some(args) =>
      var config :- hub.bnbConfig(args);
      Ok(Some(config))
  }

  /** The keyword arguments of from_pretrained for a given `quant_cfg`
      (lines 47-63). */
  function ArgsFor(settings: ModelSettings, quant: Option<BnbConfig>): LoadArgs
  {
    LoadArgs(settings.device, TorchDtype(settings.precision), quant)
  }

  /** What a successful load is made of, as values: the compiled model, the
      tokenizer as fetched, the pad token it ends up with, and the processor. */
  datatype LoadedParts = LoadedParts(model: Model, spec: TokenizerSpec, padToken: Option<string>, processor: Processor)

  /** The steps inside the try block of lines 46-86, in order; the first
      failing step's exception is the outcome. */
  function LoadSteps(settings: ModelSettings, hub: Hub, quant: Option<BnbConfig>): Outcome<LoadedParts>
  {
    var path := settings.modelPath;
    var model :- hub.loadModel(path, ArgsFor(settings, quant));
    var spec :- hub.loadTokenizer(path);
    var padToken :- PadTokenChoice(spec.padToken, model.config);
    var processor :- hub.loadProcessor(path);
    var compiled :- hub.compile(model);
    Ok(LoadedParts(compiled, spec, padToken, processor))
  }

  /** Reference definition of `load_model_with_settings` (lines 13-89): the
      unwrapped ValueError for an empty path, then the unwrapped failure of
      the quantization config, then the steps with any failure wrapped in a
      RuntimeError carrying the prefix and the original message. */
  function LoadOutcome(settings: ModelSettings, hub: Hub): Outcome<LoadedParts>
  {
    if settings.modelPath == "" then Raise(ValueError(MissingModelPath))
    else match QuantOutcome(settings, hub)
      case Raise(x) => Raise(x)
      case Ok(quant) =>
        match LoadSteps(settings, hub, quant)
        case Raise(x) => Raise(RuntimeError(LoadErrorPrefix + Str(x)))
        case Ok(parts) => Ok(parts)
  }

  /** Loading succeeds exactly when the path is non-empty, the quantization
      config (if any) is built, and every step of the try block succeeds. An
      empty path is the ValueError and a rejected quantization config is
      raised as it is; a failure inside the try block is always the wrapped
      RuntimeError, whose message is the prefix followed by the failing step's
      message. Without a quantization flag the config constructor is never
      called. */
  lemma LoadOutcomeCases(settings: ModelSettings, hub: Hub)
    ensures var path := settings.modelPath;
            var quant := QuantOutcome(settings, hub);
            var model := if quant.Ok? then hub.loadModel(path, ArgsFor(settings, quant.value)) else Raise(OtherError(""));
            var spec := hub.loadTokenizer(path);
            LoadOutcome(settings, hub).Ok? <==>
              && path != ""
              && quant.Ok?
              && model.Ok?
              && spec.Ok?
              && PadTokenChoice(spec.value.padToken, model.value.config).Ok?
              && hub.loadProcessor(path).Ok?
              && hub.compile(model.value).Ok?
    ensures settings.modelPath == "" ==> LoadOutcome(settings, hub) == Raise(ValueError(MissingModelPath))
    ensures settings.modelPath != "" && QuantOutcome(settings, hub).Raise? ==>
              LoadOutcome(settings, hub) == Raise(QuantOutcome(settings, hub).exc)
    ensures QuantOutcome(settings, hub).Raise? ==>
              exists args :: QuantizationConfig(settings.quantization, TorchDtype(settings.precision)) == Some(args)
                             && hub.bnbConfig(args) == Raise(QuantOutcome(settings, hub).exc)
    ensures !settings.quantization.bnb4bit && !settings.quantization.bnb8bit ==> QuantOutcome(settings, hub) == Ok(None)
    ensures var r := LoadOutcome(settings, hub);
            var quant := QuantOutcome(settings, hub);
            settings.modelPath != "" && quant.Ok? && r.Raise? ==>
              && r.exc.RuntimeError?
              && StartsWith(r.exc.message, LoadErrorPrefix)
              && r.exc.message[|LoadErrorPrefix|..] == Str(LoadSteps(settings, hub, quant.value).exc)
  {
    var r := LoadOutcome(settings, hub);
    var quant := QuantOutcome(settings, hub);
    if settings.modelPath != "" && quant.Ok? && r.Raise? {
      var m := LoadErrorPrefix + Str(LoadSteps(settings, hub, quant.value).exc);
      assert m[..|LoadErrorPrefix|] == LoadErrorPrefix;
      assert m[|LoadErrorPrefix|..] == Str(LoadSteps(settings, hub, quant.value).exc);
    }
  }

  /** A precision the dtype table does not list, with 4-bit quantization on,
      asks BitsAndBytesConfig for the compute dtype "auto"; if the constructor
      rejects it, that exception escapes as it is, not as the RuntimeError. */
  lemma QuantizedAutoDtypeUnwrapped(settings: ModelSettings, hub: Hub)
    requires settings.modelPath != "" && settings.quantization.bnb4bit
    requires settings.precision !in {"float32", "float16", "bfloat16"}
    ensures var args := BnbArgs(false, true, true, AutoDType, true);
            hub.bnbConfig(args).Raise? ==> LoadOutcome(settings, hub) == Raise(hub.bnbConfig(args).exc)
  {
  }

  /** `load_model_with_settings`. The empty-path check and the quantization
      config come before the try block, so their exceptions are not wrapped;
      every failure inside the block becomes a RuntimeError carrying the
      original message. */
  method LoadModelWithSettings(settings: ModelSettings, hub: Hub) returns (r: Outcome<Loaded>)
    ensures r.Ok? <==> LoadOutcome(settings, hub).Ok?
    ensures r.Raise? ==> r.exc == LoadOutcome(settings, hub).exc
    ensures r.Ok? ==>
              var parts := LoadOutcome(settings, hub).value;
              && r.value.model == parts.model
              && r.value.processor == parts.processor
              && fresh(r.value.tokenizer)
              && r.value.tokenizer.call == parts.spec.call
              && r.value.tokenizer.encode == parts.spec.encode
              && r.value.tokenizer.decode == parts.spec.decode
              && r.value.tokenizer.chatTemplate == parts.spec.chatTemplate
              && r.value.tokenizer.padToken == parts.padToken
  {
    var path := settings.modelPath;
    if path == "" {
      return Raise(ValueError(MissingModelPath));
    }
    var dtype := TorchDtype(settings.precision);
    var quant: Option<BnbConfig> := None;
    var bnbArgs := QuantizationConfig(settings.quantization, dtype);
    if bnbArgs.Some? {
      var built := hub.bnbConfig(bnbArgs.value);
      if built.Raise? {
        return Raise(built.exc);
      }
      quant := Some(built.value);
    }
    var args := LoadArgs(settings.device, dtype, quant);
    // try:
    var model := hub.loadModel(path, args);
    if model.Raise? {
      return Raise(RuntimeError(LoadErrorPrefix + Str(model.exc)));
    }
    var spec := hub.loadTokenizer(path);
    if spec.Raise? {
      return Raise(RuntimeError(LoadErrorPrefix + Str(spec.exc)));
    }
    var tokenizer := new Tokenizer(spec.value);
    var padded := EnsurePadToken(tokenizer, model.value.config);
    if padded.Raise? {
      return Raise(RuntimeError(LoadErrorPrefix + Str(padded.exc)));
    }
    var processor := hub.loadProcessor(path);
    if processor.Raise? {
      return Raise(RuntimeError(LoadErrorPrefix + Str(processor.exc)));
    }
    var compiled := hub.compile(model.value);
    if compiled.Raise? {
      return Raise(RuntimeError(LoadErrorPrefix + Str(compiled.exc)));
    }
    r := Ok(Loaded(compiled.value, tokenizer, processor.value));
  }
}
