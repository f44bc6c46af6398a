/** Sampling parameters (src/api/types/samplers.py): validation of the request
    body's sampler fields, with the three input aliases, and the canonical
    generation configuration `gen_config` dumps from them. */
module Samplers {
  import opened Common
  import opened Runtime

  /** `stop_strings: str | list[str] | None` */
  datatype Stop = OneStop(s: string) | ManyStops(ss: seq<string>)

  datatype Samplers = Samplers(
    doSample: Option<bool>,
    maxLength: int,
    maxNewTokens: Option<int>,
    stopStrings: Option<Stop>,
    numBeams: Option<int>,
    numBeamGroups: Option<int>,
    temperature: Option<real>,
    topP: Option<real>,
    topK: Option<int>,
    repetitionPenalty: Option<real>)

  const DefaultMaxLength := 2048

  /** The key a field is read from in the request body: its alias when it has
      one (lines 7-9), else its keyword name. */
  function InputKey(f: GenField): (key: string)
    ensures f !in {MaxLength, MaxNewTokens, StopStrings} ==> key == KeywordName(f)
  {
    match f
    case MaxLength => "max_tokens"
    case MaxNewTokens => "max_completion_tokens"
    case StopStrings => "stop"
    case _ => KeywordName(f)
  }

  // ---------------------------------------------------------------------------
  // Validation of one field. A missing key takes the default; an explicit null
  // is None for the optional fields.

  /** The declared types of the sampler fields. */
  datatype FieldType = OptionalBool | RequiredInt | OptionalInt | OptionalFloat | OptionalStop

  function TypeOf(f: GenField): FieldType
  {
    match f
    case DoSample => OptionalBool
    case MaxLength => RequiredInt
    case StopStrings => OptionalStop
    case Temperature | TopP | RepetitionPenalty => OptionalFloat
    case _ => OptionalInt
  }

  /** The JSON values a declared type accepts: null for every optional type,
      an integer for the integer types and also for the float one, one string
      or a list of strings for `stop_strings`. */
  predicate Accepts(t: FieldType, v: Json)
  {
    match t
    case OptionalBool => v.JNull? || v.JBool?
    case RequiredInt => v.JInt?
    case OptionalInt => v.JNull? || v.JInt?
    case OptionalFloat => v.JNull? || v.JInt? || v.JFloat?
    case OptionalStop => v.JNull? || v.JStr? || (v.JList? && forall i :: 0 <= i < |v.items| ==> v.items[i].JStr?)
  }

  function OptBool(body: map<string, Json>, key: string, default: Option<bool>): (r: Outcome<Option<bool>>)
    ensures key !in body ==> r == Ok(default)
    ensures key in body ==> (r == Ok(None) <==> body[key] == JNull)
    ensures r.Ok? <==> key !in body || Accepts(OptionalBool, body[key])
  {
    if key !in body then Ok(default)
    else match body[key]
      case JNull => Ok(None)
      case JBool(b) => Ok(Some(b))
      case _ => Raise(ValidationError(key + ": Input should be a valid boolean"))
  }

  function ReqInt(body: map<string, Json>, key: string, default: int): (r: Outcome<int>)
    ensures key !in body ==> r == Ok(default)
    ensures key in body && r.Ok? ==> body[key] == JInt(r.value)
    ensures r.Ok? <==> key !in body || Accepts(RequiredInt, body[key])
  {
    if key !in body then Ok(default)
    else match body[key]
      case JInt(i) => Ok(i)
      case _ => Raise(ValidationError(key + ": Input should be a valid integer"))
  }

  function OptInt(body: map<string, Json>, key: string): (r: Outcome<Option<int>>)
    ensures key !in body ==> r == Ok(None)
    ensures key in body ==> (r == Ok(None) <==> body[key] == JNull)
    ensures key in body && r.Ok? && r.value.Some? ==> body[key] == JInt(r.value.value)
    ensures r.Ok? <==> key !in body || Accepts(OptionalInt, body[key])
  {
    if key !in body then Ok(None)
    else match body[key]
      case JNull => Ok(None)
      case JInt(i) => Ok(Some(i))
      case _ => Raise(ValidationError(key + ": Input should be a valid integer"))
  }

  /** A float field also accepts an integer, widened to a float. */
  function OptFloat(body: map<string, Json>, key: string): (r: Outcome<Option<real>>)
    ensures key !in body ==> r == Ok(None)
    ensures key in body ==> (r == Ok(None) <==> body[key] == JNull)
    ensures key in body && body[key].JFloat? ==> r == Ok(Some(body[key].f))
    ensures r.Ok? <==> key !in body || Accepts(OptionalFloat, body[key])
  {
    if key !in body then Ok(None)
    else match body[key]
      case JNull => Ok(None)
      case JFloat(f) => Ok(Some(f))
      case JInt(i) => Ok(Some(i as real))
      case _ => Raise(ValidationError(key + ": Input should be a valid number"))
  }

  /** `stop_strings` accepts one string or a list of strings (line 9). */
  function OptStop(body: map<string, Json>, key: string): (r: Outcome<Option<Stop>>)
    ensures key !in body ==> r == Ok(None)
    ensures key in body ==> (r == Ok(None) <==> body[key] == JNull)
    ensures key in body && body[key].JStr? ==> r == Ok(Some(OneStop(body[key].s)))
    ensures r.Ok? <==> key !in body || Accepts(OptionalStop, body[key])
  {
    if key !in body then Ok(None)
    else match body[key]
      case JNull => Ok(None)
      case JStr(s) => Ok(Some(OneStop(s)))
      case JList(items) =>
        (match Strings(items)
         case Some(ss) => Ok(Some(ManyStops(ss)))
         case None => Raise(ValidationError(key + ": Input should be a valid list of strings")))
      case _ => Raise(ValidationError(key + ": Input should be a valid string or list"))
  }

  /** The validated record from the ten field results, in declaration order:
      the first failing field's error, or the record of all the values. */
  function Assemble(doSample: Outcome<Option<bool>>, maxLength: Outcome<int>, maxNewTokens: Outcome<Option<int>>,
                    stop: Outcome<Option<Stop>>, numBeams: Outcome<Option<int>>, numBeamGroups: Outcome<Option<int>>,
                    temperature: Outcome<Option<real>>, topP: Outcome<Option<real>>, topK: Outcome<Option<int>>,
                    penalty: Outcome<Option<real>>): (r: Outcome<Samplers>)
    ensures r.Ok? <==> doSample.Ok? && maxLength.Ok? && maxNewTokens.Ok? && stop.Ok? && numBeams.Ok?
                       && numBeamGroups.Ok? && temperature.Ok? && topP.Ok? && topK.Ok? && penalty.Ok?
    ensures r.Ok? ==> r.value == Samplers(doSample.value, maxLength.value, maxNewTokens.value, stop.value,
                                          numBeams.value, numBeamGroups.value, temperature.value, topP.value,
                                          topK.value, penalty.value)
  {
    var a :- doSample;
    var b :- maxLength;
    var c :- maxNewTokens;
    var d :- stop;
    var e :- numBeams;
    var f :- numBeamGroups;
    var g :- temperature;
    var h :- topP;
    var i :- topK;
    var j :- penalty;
    Ok(Samplers(a, b, c, d, e, f, g, h, i, j))
  }

  /** Every field accepts its value exactly when each of the ten does. */
  lemma AcceptsEveryField(body: map<string, Json>)
    ensures (forall f: GenField :: AcceptsAt(body, f))
            <==> && AcceptsAt(body, DoSample) && AcceptsAt(body, MaxLength) && AcceptsAt(body, MaxNewTokens)
                 && AcceptsAt(body, StopStrings) && AcceptsAt(body, NumBeams) && AcceptsAt(body, NumBeamGroups)
                 && AcceptsAt(body, Temperature) && AcceptsAt(body, TopP) && AcceptsAt(body, TopK)
                 && AcceptsAt(body, RepetitionPenalty)
  {
    if AcceptsAt(body, DoSample) && AcceptsAt(body, MaxLength) && AcceptsAt(body, MaxNewTokens)
       && AcceptsAt(body, StopStrings) && AcceptsAt(body, NumBeams) && AcceptsAt(body, NumBeamGroups)
       && AcceptsAt(body, Temperature) && AcceptsAt(body, TopP) && AcceptsAt(body, TopK)
       && AcceptsAt(body, RepetitionPenalty) {
      forall f: GenField
        ensures AcceptsAt(body, f)
      {
        match f
        case DoSample =>
        case MaxLength =>
        case MaxNewTokens =>
        case StopStrings =>
        case NumBeams =>
        case NumBeamGroups =>
        case Temperature =>
        case TopP =>
        case TopK =>
        case RepetitionPenalty =>
      }
    }
  }

  /** The body's value for a field, if present, is one its type accepts. */
  predicate AcceptsAt(body: map<string, Json>, f: GenField)
  {
    InputKey(f) in body ==> Accepts(TypeOf(f), body[InputKey(f)])
  }

  /** Validation of the sampler fields of a request body (lines 5-15). Each
      field is read from its input key only: `max_length`, `max_new_tokens` and
      `stop_strings` themselves are not accepted as input, and keys no field
      declares are ignored. */
  function ParseSamplers(body: map<string, Json>): (r: Outcome<Samplers>)
    ensures r.Ok? <==> forall f: GenField :: AcceptsAt(body, f)
  {
    AcceptsEveryField(body);
    Assemble(OptBool(body, InputKey(DoSample), Some(true)),
             ReqInt(body, InputKey(MaxLength), DefaultMaxLength),
             OptInt(body, InputKey(MaxNewTokens)),
             OptStop(body, InputKey(StopStrings)),
             OptInt(body, InputKey(NumBeams)),
             OptInt(body, InputKey(NumBeamGroups)),
             OptFloat(body, InputKey(Temperature)),
             OptFloat(body, InputKey(TopP)),
             OptInt(body, InputKey(TopK)),
             OptFloat(body, InputKey(RepetitionPenalty)))
  }

  // ---------------------------------------------------------------------------
  // Dumping

  function OptBoolJson(o: Option<bool>): Json { if o.Some? then JBool(o.value) else JNull }
  function OptIntJson(o: Option<int>): Json { if o.Some? then JInt(o.value) else JNull }
  function OptFloatJson(o: Option<real>): Json { if o.Some? then JFloat(o.value) else JNull }

  function StopJson(o: Option<Stop>): Json
  {
    match o
    case None => JNull
    case Some(OneStop(s)) => JStr(s)
    case Some(ManyStops(ss)) => JList(seq(|ss|, i requires 0 <= i < |ss| => JStr(ss[i])))
  }

  /** One field of `model_dump()`, None as null. */
  function FieldJson(s: Samplers, f: GenField): Json
  {
    match f
    case DoSample => OptBoolJson(s.doSample)
    case MaxLength => JInt(s.maxLength)
    case MaxNewTokens => OptIntJson(s.maxNewTokens)
    case StopStrings => StopJson(s.stopStrings)
    case NumBeams => OptIntJson(s.numBeams)
    case NumBeamGroups => OptIntJson(s.numBeamGroups)
    case Temperature => OptFloatJson(s.temperature)
    case TopP => OptFloatJson(s.topP)
    case TopK => OptIntJson(s.topK)
    case RepetitionPenalty => OptFloatJson(s.repetitionPenalty)
  }

  /** `Samplers.gen_config` (lines 17-19): `model_dump(exclude_none=True)`.
      Its keys are generation keywords only, so `stream`, `model`, `messages`
      and `prompt` never reach GenerationConfig. */
  function GenConfigOf(s: Samplers): (config: GenConfig)
    ensures forall f :: f in config <==> FieldJson(s, f) != JNull
    ensures MaxLength in config && config[MaxLength] == JInt(s.maxLength)
    ensures DoSample in config <==> s.doSample.Some?
  {
    map f: GenField | FieldJson(s, f) != JNull :: FieldJson(s, f)
  }

  /** The transport fields are never generation keywords, so no configuration
      carries them. */
  lemma NoTransportKeywords(s: Samplers)
    ensures forall f :: f in GenConfigOf(s) ==> KeywordName(f) !in {"stream", "model", "messages", "prompt"}
  {
  }

  // ---------------------------------------------------------------------------
  // Requests that extend Samplers

  /** A field of a request model: a sampler field it inherits, or one it adds. */
  datatype RequestField = SamplerField(f: GenField) | OwnField(name: string)

  /** `model_dump()` of a request: its sampler fields and its own fields. */
  function RequestDump(s: Samplers, own: map<string, Json>): map<RequestField, Json>
  {
    (map f: GenField :: SamplerField(f) := FieldJson(s, f)) + (map n | n in own :: OwnField(n) := own[n])
  }

  /** `model_dump(exclude=..., exclude_none=True)` */
  function DumpExcluding<K(!new)>(fields: map<K, Json>, exclude: set<K>): (d: map<K, Json>)
    ensures forall k :: k in d <==> k in fields && k !in exclude && fields[k] != JNull
    ensures forall k :: k in d ==> d[k] == fields[k]
  {
    map k | k in fields && k !in exclude && fields[k] != JNull :: fields[k]
  }

  /** What GenerationConfig(**dump) receives from a request's gen_config: the
      excluded dump, of which only sampler fields are keywords. */
  function RequestGenConfig(s: Samplers, own: map<string, Json>, exclude: set<string>): GenConfig
  {
    var d := DumpExcluding(RequestDump(s, own), set n | n in exclude :: OwnField(n));
    map f: GenField | SamplerField(f) in d :: d[SamplerField(f)]
  }

  /** A request whose own fields are all excluded hands GenerationConfig
      exactly the sampler configuration, and no field of its own. */
  lemma RequestConfigIsSamplerConfig(s: Samplers, own: map<string, Json>, exclude: set<string>)
    requires own.Keys <= exclude
    ensures forall k :: k in DumpExcluding(RequestDump(s, own), set n | n in exclude :: OwnField(n)) ==> k.SamplerField?
    ensures RequestGenConfig(s, own, exclude) == GenConfigOf(s)
  {
    var dump := RequestDump(s, own);
    var excluded := set n | n in exclude :: OwnField(n);
    var d := DumpExcluding(dump, excluded);
    forall k | k in d && k.OwnField?
      ensures k in excluded
    {
    }
    forall f: GenField
      ensures SamplerField(f) in d <==> FieldJson(s, f) != JNull
      ensures SamplerField(f) in d ==> d[SamplerField(f)] == FieldJson(s, f)
    {
      assert SamplerField(f) in dump && dump[SamplerField(f)] == FieldJson(s, f);
      assert SamplerField(f) !in excluded;
    }
  }

  const FloatFields: set<GenField> := {Temperature, TopP, RepetitionPenalty}

  /** Reference definition of one generation keyword's value, read straight
      from the request body: the value under the field's input key, an
      integer widened to a float for the float fields; when the key is
      absent, true for `do_sample`, 2048 for `max_length` and null (left out)
      for the rest. */
  function BodyFieldJson(body: map<string, Json>, f: GenField): Json
  {
    var key := InputKey(f);
    if key !in body then
      (if f == DoSample then JBool(true) else if f == MaxLength then JInt(DefaultMaxLength) else JNull)
    else if f in FloatFields && body[key].JInt? then JFloat(body[key].i as real)
    else body[key]
  }

  lemma StopJsonOfList(items: seq<Json>)
    requires Strings(items).Some?
    ensures StopJson(Some(ManyStops(Strings(items).value))) == JList(items)
  {
    var ss := Strings(items).value;
    assert seq(|ss|, i requires 0 <= i < |ss| => JStr(ss[i])) == items;
  }

  // What each kind of validated field dumps to, against the body.

  lemma OptBoolDumps(body: map<string, Json>, key: string)
    requires OptBool(body, key, Some(true)).Ok?
    ensures OptBoolJson(OptBool(body, key, Some(true)).value) == if key in body then body[key] else JBool(true)
  {
  }

  lemma ReqIntDumps(body: map<string, Json>, key: string)
    requires ReqInt(body, key, DefaultMaxLength).Ok?
    ensures JInt(ReqInt(body, key, DefaultMaxLength).value) == if key in body then body[key] else JInt(DefaultMaxLength)
  {
  }

  lemma OptIntDumps(body: map<string, Json>, key: string)
    requires OptInt(body, key).Ok?
    ensures OptIntJson(OptInt(body, key).value) == if key in body then body[key] else JNull
  {
  }

  lemma OptFloatDumps(body: map<string, Json>, key: string)
    requires OptFloat(body, key).Ok?
    ensures OptFloatJson(OptFloat(body, key).value)
            == if key !in body then JNull else if body[key].JInt? then JFloat(body[key].i as real) else body[key]
  {
  }

  lemma OptStopDumps(body: map<string, Json>, key: string)
    requires OptStop(body, key).Ok?
    ensures StopJson(OptStop(body, key).value) == if key in body then body[key] else JNull
  {
    if key in body && body[key].JList? {
      StopJsonOfList(body[key].items);
    }
  }

  /** A validated field dumps to the body's value for it. */
  lemma FieldFromBody(body: map<string, Json>, f: GenField)
    requires ParseSamplers(body).Ok?
    ensures FieldJson(ParseSamplers(body).value, f) == BodyFieldJson(body, f)
  {
    var key := InputKey(f);
    match f
    case DoSample => OptBoolDumps(body, key);
    case MaxLength => ReqIntDumps(body, key);
    case MaxNewTokens => OptIntDumps(body, key);
    case StopStrings => OptStopDumps(body, key);
    case NumBeams => OptIntDumps(body, key);
    case NumBeamGroups => OptIntDumps(body, key);
    case Temperature => OptFloatDumps(body, key);
    case TopP => OptFloatDumps(body, key);
    case TopK => OptIntDumps(body, key);
    case RepetitionPenalty => OptFloatDumps(body, key);
  }

  /** For a request body that validates, the generation configuration holds
      exactly the fields whose reference value is not null, each with that
      value: `max_length` always, `do_sample` unless explicitly null, and
      every other field exactly when its input key carries a non-null value. */
  lemma GenConfigFromBody(body: map<string, Json>)
    requires ParseSamplers(body).Ok?
    ensures GenConfigOf(ParseSamplers(body).value) == map f: GenField | BodyFieldJson(body, f) != JNull :: BodyFieldJson(body, f)
  {
    forall f: GenField
      ensures FieldJson(ParseSamplers(body).value, f) == BodyFieldJson(body, f)
    {
      FieldFromBody(body, f);
    }
  }

  /** Validation reads each field from its input key and nothing else. */
  lemma ParseReadsInputKeysOnly(b1: map<string, Json>, b2: map<string, Json>)
    requires forall f: GenField :: InputKey(f) in b1 <==> InputKey(f) in b2
    requires forall f: GenField :: InputKey(f) in b1 ==> b1[InputKey(f)] == b2[InputKey(f)]
    ensures ParseSamplers(b1) == ParseSamplers(b2)
  {
    forall f: GenField
      ensures OptBool(b1, InputKey(f), Some(true)) == OptBool(b2, InputKey(f), Some(true))
      ensures ReqInt(b1, InputKey(f), DefaultMaxLength) == ReqInt(b2, InputKey(f), DefaultMaxLength)
      ensures OptInt(b1, InputKey(f)) == OptInt(b2, InputKey(f))
      ensures OptStop(b1, InputKey(f)) == OptStop(b2, InputKey(f))
      ensures OptFloat(b1, InputKey(f)) == OptFloat(b2, InputKey(f))
    {
      SameKeySameField(b1, b2, InputKey(f));
    }
  }

  /** The validators read the body at their key only. */
  lemma SameKeySameField(b1: map<string, Json>, b2: map<string, Json>, key: string)
    requires key in b1 <==> key in b2
    requires key in b1 ==> b1[key] == b2[key]
    ensures OptBool(b1, key, Some(true)) == OptBool(b2, key, Some(true))
    ensures ReqInt(b1, key, DefaultMaxLength) == ReqInt(b2, key, DefaultMaxLength)
    ensures OptInt(b1, key) == OptInt(b2, key)
    ensures OptStop(b1, key) == OptStop(b2, key)
    ensures OptFloat(b1, key) == OptFloat(b2, key)
  {
  }

  /** The keyword names of the aliased fields are not read from the body:
      removing them changes nothing. */
  lemma CanonicalNamesIgnoredAsInput(body: map<string, Json>)
    ensures ParseSamplers(body) == ParseSamplers(body - {"max_length", "max_new_tokens", "stop_strings"})
  {
    var stripped := body - {"max_length", "max_new_tokens", "stop_strings"};
    forall f: GenField
      ensures InputKey(f) in body <==> InputKey(f) in stripped
      ensures InputKey(f) in body ==> body[InputKey(f)] == stripped[InputKey(f)]
    {
      assert InputKey(f) !in {"max_length", "max_new_tokens", "stop_strings"};
    }
    ParseReadsInputKeysOnly(body, stripped);
  }
}
