/** Application settings (config/settings.py): the settings records with their
    defaults, the construction of the records from a parsed configuration
    mapping, and `load_config`'s in-place rewrite of `served_model_names`. */
module Settings {
  import opened Common

  datatype ServerSettings = ServerSettings(
    host: string,
    port: int,
    rootPath: string,
    servedModelNames: Option<seq<string>>)

  datatype LogSettings = LogSettings(level: string, prompt: bool, params: bool, completion: bool)

  datatype QuantizationSettings = QuantizationSettings(bnb4bit: bool, bnb8bit: bool)

  datatype ModelSettings = ModelSettings(
    modelPath: string,
    quantization: QuantizationSettings,
    device: string,
    precision: string)

  datatype CorsSettings = CorsSettings(
    enabled: bool,
    allowOrigins: seq<string>,
    allowCredentials: bool,
    allowMethods: seq<string>,
    allowHeaders: seq<string>)

  datatype AppSettings = AppSettings(
    server: ServerSettings,
    model: ModelSettings,
    log: LogSettings,
    cors: CorsSettings)

  const DefaultServer := ServerSettings("0.0.0.0", 8000, "", Some([]))
  const DefaultLog := LogSettings("info", false, false, false)
  const DefaultQuantization := QuantizationSettings(false, false)
  const DefaultCors := CorsSettings(false, ["*"], true, ["*"], ["*"])

  const ModelPathRequired := "Configuration error: 'model.model_path' is required."

  // ---------------------------------------------------------------------------
  // Field validation. A missing key takes the field's default, a value of the
  // declared type is taken as it is, anything else is a validation error.

  /** A field as validation reads it: the JSON under `key` is `value` when the
      key is present, and the field holds its default (`isDefault`) otherwise. */
  predicate FieldIs(fields: map<string, Json>, key: string, value: Json, isDefault: bool)
  {
    if key in fields then fields[key] == value else isDefault
  }

  /** The JSON list of a list of strings. */
  function StrListJson(ss: seq<string>): (j: Json)
    ensures j.JList? && |j.items| == |ss| && forall i :: 0 <= i < |ss| ==> j.items[i] == JStr(ss[i])
  {
    JList(seq(|ss|, i requires 0 <= i < |ss| => JStr(ss[i])))
  }

  function OptStrListJson(o: Option<seq<string>>): Json
  {
    if o.None? then JNull else StrListJson(o.value)
  }

  predicate IsStrList(j: Json)
  {
    j.JList? && forall i :: 0 <= i < |j.items| ==> j.items[i].JStr?
  }

  // The declared type of each field, as a test on the value under a present key.
  predicate StrOrAbsent(f: map<string, Json>, key: string) { key in f ==> f[key].JStr? }
  predicate BoolOrAbsent(f: map<string, Json>, key: string) { key in f ==> f[key].JBool? }
  predicate IntOrAbsent(f: map<string, Json>, key: string) { key in f ==> f[key].JInt? }
  predicate StrListOrAbsent(f: map<string, Json>, key: string) { key in f ==> IsStrList(f[key]) }

  predicate ServerValid(f: map<string, Json>)
  {
    && StrOrAbsent(f, "host") && IntOrAbsent(f, "port") && StrOrAbsent(f, "root_path")
    && ("served_model_names" in f ==> f["served_model_names"] == JNull || IsStrList(f["served_model_names"]))
  }

  predicate LogValid(f: map<string, Json>)
  {
    StrOrAbsent(f, "level") && BoolOrAbsent(f, "prompt") && BoolOrAbsent(f, "params") && BoolOrAbsent(f, "completion")
  }

  predicate QuantizationValid(f: map<string, Json>)
  {
    BoolOrAbsent(f, "bnb_4bit") && BoolOrAbsent(f, "bnb_8bit")
  }

  predicate ModelValid(f: map<string, Json>)
  {
    && "model_path" in f && f["model_path"].JStr?
    && ("quantization" in f ==> f["quantization"].JObj? && QuantizationValid(f["quantization"].fields))
    && StrOrAbsent(f, "device") && StrOrAbsent(f, "precision")
  }

  predicate CorsValid(f: map<string, Json>)
  {
    && BoolOrAbsent(f, "enabled") && StrListOrAbsent(f, "allow_origins") && BoolOrAbsent(f, "allow_credentials")
    && StrListOrAbsent(f, "allow_methods") && StrListOrAbsent(f, "allow_headers")
  }

  function StrField(fields: map<string, Json>, key: string, default: string): (r: Outcome<string>)
    ensures key !in fields ==> r == Ok(default)
    ensures key in fields ==> (r.Ok? <==> fields[key].JStr?)
    ensures key in fields && r.Ok? ==> fields[key] == JStr(r.value)
  {
    if key !in fields then Ok(default)
    else match fields[key]
      case JStr(s) => Ok(s)
      case _ => Raise(ValidationError(key + ": Input should be a valid string"))
  }

  function BoolField(fields: map<string, Json>, key: string, default: bool): (r: Outcome<bool>)
    ensures key !in fields ==> r == Ok(default)
    ensures key in fields ==> (r.Ok? <==> fields[key].JBool?)
    ensures key in fields && r.Ok? ==> fields[key] == JBool(r.value)
  {
    if key !in fields then Ok(default)
    else match fields[key]
      case JBool(b) => Ok(b)
      case _ => Raise(ValidationError(key + ": Input should be a valid boolean"))
  }

  function IntField(fields: map<string, Json>, key: string, default: int): (r: Outcome<int>)
    ensures key !in fields ==> r == Ok(default)
    ensures key in fields ==> (r.Ok? <==> fields[key].JInt?)
    ensures key in fields && r.Ok? ==> fields[key] == JInt(r.value)
  {
    if key !in fields then Ok(default)
    else match fields[key]
      case JInt(i) => Ok(i)
      case _ => Raise(ValidationError(key + ": Input should be a valid integer"))
  }

  function StrListField(fields: map<string, Json>, key: string, default: seq<string>): (r: Outcome<seq<string>>)
    ensures key !in fields ==> r == Ok(default)
    ensures key in fields ==> (r.Ok? <==> IsStrList(fields[key]))
    ensures key in fields && r.Ok? ==> fields[key] == StrListJson(r.value)
  {
    if key !in fields then Ok(default)
    else match fields[key]
      case JList(items) =>
        (match Strings(items)
         case Some(ss) => Ok(ss)
         case None => Raise(ValidationError(key + ": Input should be a valid list of strings")))
      case _ => Raise(ValidationError(key + ": Input should be a valid list"))
  }

  /** `served_model_names: list[str] | None`, default an empty list. */
  function OptStrListField(fields: map<string, Json>, key: string): (r: Outcome<Option<seq<string>>>)
    ensures key !in fields ==> r == Ok(Some([]))
    ensures key in fields && fields[key] == JNull ==> r == Ok(None)
    ensures key in fields ==> (r.Ok? <==> fields[key] == JNull || IsStrList(fields[key]))
    ensures key in fields && r.Ok? ==> fields[key] == OptStrListJson(r.value)
  {
    if key !in fields then Ok(Some([]))
    else match fields[key]
      case JNull => Ok(None)
      case JList(items) =>
        (match Strings(items)
         case Some(ss) => Ok(Some(ss))
         case None => Raise(ValidationError(key + ": Input should be a valid list of strings")))
      case _ => Raise(ValidationError(key + ": Input should be a valid list"))
  }

  function Section(j: Json, name: string): (r: Outcome<map<string, Json>>)
    ensures r.Ok? <==> j.JObj?
  {
    match j
    case JObj(fields) => Ok(fields)
    case _ => Raise(ValidationError(name + ": Input should be a valid dictionary"))
  }

  function ParseServer(j: Json): (r: Outcome<ServerSettings>)
    ensures r.Ok? <==> j.JObj? && ServerValid(j.fields)
    ensures r.Ok? ==>
              && FieldIs(j.fields, "host", JStr(r.value.host), r.value.host == DefaultServer.host)
              && FieldIs(j.fields, "port", JInt(r.value.port), r.value.port == DefaultServer.port)
              && FieldIs(j.fields, "root_path", JStr(r.value.rootPath), r.value.rootPath == DefaultServer.rootPath)
              && FieldIs(j.fields, "served_model_names", OptStrListJson(r.value.servedModelNames),
                         r.value.servedModelNames == DefaultServer.servedModelNames)
  {
    var f :- Section(j, "server");
    var host :- StrField(f, "host", DefaultServer.host);
    var port :- IntField(f, "port", DefaultServer.port);
    var rootPath :- StrField(f, "root_path", DefaultServer.rootPath);
    var names :- OptStrListField(f, "served_model_names");
    Ok(ServerSettings(host, port, rootPath, names))
  }

  function ParseLog(j: Json): (r: Outcome<LogSettings>)
    ensures r.Ok? <==> j.JObj? && LogValid(j.fields)
    ensures r.Ok? ==>
              && FieldIs(j.fields, "level", JStr(r.value.level), r.value.level == DefaultLog.level)
              && FieldIs(j.fields, "prompt", JBool(r.value.prompt), r.value.prompt == DefaultLog.prompt)
              && FieldIs(j.fields, "params", JBool(r.value.params), r.value.params == DefaultLog.params)
              && FieldIs(j.fields, "completion", JBool(r.value.completion), r.value.completion == DefaultLog.completion)
  {
    var f :- Section(j, "log");
    var level :- StrField(f, "level", DefaultLog.level);
    var prompt :- BoolField(f, "prompt", DefaultLog.prompt);
    var params :- BoolField(f, "params", DefaultLog.params);
    var completion :- BoolField(f, "completion", DefaultLog.completion);
    Ok(LogSettings(level, prompt, params, completion))
  }

  function ParseQuantization(j: Json): (r: Outcome<QuantizationSettings>)
    ensures r.Ok? <==> j.JObj? && QuantizationValid(j.fields)
    ensures r.Ok? ==>
              && FieldIs(j.fields, "bnb_4bit", JBool(r.value.bnb4bit), r.value.bnb4bit == DefaultQuantization.bnb4bit)
              && FieldIs(j.fields, "bnb_8bit", JBool(r.value.bnb8bit), r.value.bnb8bit == DefaultQuantization.bnb8bit)
  {
    var f :- Section(j, "quantization");
    var b4 :- BoolField(f, "bnb_4bit", false);
    var b8 :- BoolField(f, "bnb_8bit", false);
    Ok(QuantizationSettings(b4, b8))
  }

  function ParseModel(j: Json): (r: Outcome<ModelSettings>)
    ensures r.Ok? ==> j.JObj? && "model_path" in j.fields && j.fields["model_path"] == JStr(r.value.modelPath)
    ensures r.Ok? <==> j.JObj? && ModelValid(j.fields)
    ensures r.Ok? ==>
              && (if "quantization" in j.fields then ParseQuantization(j.fields["quantization"]) == Ok(r.value.quantization)
                  else r.value.quantization == DefaultQuantization)
              && FieldIs(j.fields, "device", JStr(r.value.device), r.value.device == "auto")
              && FieldIs(j.fields, "precision", JStr(r.value.precision), r.value.precision == "bfloat16")
  {
    var f :- Section(j, "model");
    var path :- if "model_path" in f then StrField(f, "model_path", "")
                else Raise(ValidationError("model.model_path: Field required"));
    var quant :- if "quantization" in f then ParseQuantization(f["quantization"]) else Ok(DefaultQuantization);
    var device :- StrField(f, "device", "auto");
    var precision :- StrField(f, "precision", "bfloat16");
    Ok(ModelSettings(path, quant, device, precision))
  }

  function ParseCors(j: Json): (r: Outcome<CorsSettings>)
    ensures r.Ok? <==> j.JObj? && CorsValid(j.fields)
    ensures r.Ok? ==>
              && FieldIs(j.fields, "enabled", JBool(r.value.enabled), r.value.enabled == DefaultCors.enabled)
              && FieldIs(j.fields, "allow_origins", StrListJson(r.value.allowOrigins), r.value.allowOrigins == DefaultCors.allowOrigins)
              && FieldIs(j.fields, "allow_credentials", JBool(r.value.allowCredentials),
                         r.value.allowCredentials == DefaultCors.allowCredentials)
              && FieldIs(j.fields, "allow_methods", StrListJson(r.value.allowMethods), r.value.allowMethods == DefaultCors.allowMethods)
              && FieldIs(j.fields, "allow_headers", StrListJson(r.value.allowHeaders), r.value.allowHeaders == DefaultCors.allowHeaders)
  {
    var f :- Section(j, "cors");
    var enabled :- BoolField(f, "enabled", DefaultCors.enabled);
    var origins :- StrListField(f, "allow_origins", DefaultCors.allowOrigins);
    var credentials :- BoolField(f, "allow_credentials", DefaultCors.allowCredentials);
    var methods :- StrListField(f, "allow_methods", DefaultCors.allowMethods);
    var headers :- StrListField(f, "allow_headers", DefaultCors.allowHeaders);
    Ok(CorsSettings(enabled, origins, credentials, methods, headers))
  }

  /** `AppSettings(**config_data)`: every section but `model` is optional and
      takes its defaults; keys the records do not declare are ignored. */
  function BuildSettings(data: map<string, Json>): (r: Outcome<AppSettings>)
    ensures "model" !in data ==> r.Raise?
    ensures r.Ok? ==> "model" in data && data["model"].JObj? && "model_path" in data["model"].fields
                      && data["model"].fields["model_path"] == JStr(r.value.model.modelPath)
    ensures r.Ok? && "server" !in data ==> r.value.server == DefaultServer
    ensures r.Ok? && "log" !in data ==> r.value.log == DefaultLog
    ensures r.Ok? && "cors" !in data ==> r.value.cors == DefaultCors
    ensures r.Ok? <==>
              && "model" in data && ParseModel(data["model"]).Ok?
              && ("server" in data ==> ParseServer(data["server"]).Ok?)
              && ("log" in data ==> ParseLog(data["log"]).Ok?)
              && ("cors" in data ==> ParseCors(data["cors"]).Ok?)
    ensures r.Ok? ==>
              && Ok(r.value.model) == ParseModel(data["model"])
              && ("server" in data ==> Ok(r.value.server) == ParseServer(data["server"]))
              && ("log" in data ==> Ok(r.value.log) == ParseLog(data["log"]))
              && ("cors" in data ==> Ok(r.value.cors) == ParseCors(data["cors"]))
  {
    var server :- if "server" in data then ParseServer(data["server"]) else Ok(DefaultServer);
    var model :- if "model" in data then ParseModel(data["model"])
                 else Raise(ValidationError("model: Field required"));
    var log :- if "log" in data then ParseLog(data["log"]) else Ok(DefaultLog);
    var cors :- if "cors" in data then ParseCors(data["cors"]) else Ok(DefaultCors);
    Ok(AppSettings(server, model, log, cors))
  }

  /** A configuration naming only the model path gets every documented default. */
  lemma DefaultsFromMinimalConfig(path: string)
    ensures BuildSettings(map["model" := JObj(map["model_path" := JStr(path)])])
      == Ok(AppSettings(
           ServerSettings("0.0.0.0", 8000, "", Some([])),
           ModelSettings(path, QuantizationSettings(false, false), "auto", "bfloat16"),
           LogSettings("info", false, false, false),
           CorsSettings(false, ["*"], true, ["*"], ["*"])))
  {
    var m := map["model_path" := JStr(path)];
    assert ParseModel(JObj(m)) == Ok(ModelSettings(path, DefaultQuantization, "auto", "bfloat16"));
  }

  // ---------------------------------------------------------------------------
  // load_config

  /** Python's `key in s` on strings: `key` occurs in `s` at some position. */
  predicate IsSubstring(key: string, s: string)
    decreases |s|
  {
    StartsWith(s, key) || (|s| > 0 && IsSubstring(key, s[1..]))
  }

  /** Python's `key in container`: dict membership, substring test on a str,
      element test on a list, TypeError on anything else. */
  function PyContains(container: Json, key: string): (r: Outcome<bool>)
    ensures container.JObj? ==> r == Ok(key in container.fields)
    ensures r.Raise? <==> !(container.JObj? || container.JStr? || container.JList?)
  {
    match container
    case JObj(fields) => Ok(key in fields)
    case JStr(s) => Ok(IsSubstring(key, s))
    case JList(items) => Ok(JStr(key) in items)
    case _ => Raise(TypeError("argument of type is not iterable"))
  }

  /** `path.split("/")[-1]`: everything after the last '/', the whole path when
      there is none. */
  function LastSegment(path: string): (name: string)
    ensures '/' !in name
    ensures |name| <= |path| && name == path[|path| - |name|..]
    ensures |name| < |path| ==> path[|path| - |name| - 1] == '/'
  {
    if |path| == 0 then ""
    else if path[|path| - 1] == '/' then ""
    else LastSegment(path[..|path| - 1]) + [path[|path| - 1]]
  }

  /** The original model name from line 54, with the checks of lines 52-53:
      a missing `model` section or a `model` without `model_path` is a ValueError. */
  function OriginalModelName(data: map<string, Json>): (r: Outcome<string>)
    ensures "model" !in data ==> r == Raise(ValueError(ModelPathRequired))
    ensures "model" in data && data["model"].JObj? && "model_path" !in data["model"].fields
            ==> r == Raise(ValueError(ModelPathRequired))
    ensures r.Ok? ==> "model" in data && data["model"].JObj? && "model_path" in data["model"].fields
                      && data["model"].fields["model_path"].JStr?
                      && r.value == LastSegment(data["model"].fields["model_path"].s)
  {
    if "model" !in data then Raise(ValueError(ModelPathRequired))
    else
      var has :- PyContains(data["model"], "model_path");
      if !has then Raise(ValueError(ModelPathRequired))
      else if !data["model"].JObj? then Raise(AttributeError("object has no attribute 'get'"))
      else match data["model"].fields["model_path"]
        case JStr(p) => Ok(LastSegment(p))
        case _ => Raise(AttributeError("object has no attribute 'split'"))
  }

  /** The list `served_model_names` ends up as, by the case the server section
      is in (lines 57-65). */
  function NormalizedServedNames(orig: string, server: Json): (r: Outcome<seq<Json>>)
    ensures r.Ok? ==> server.JObj? && |r.value| >= 1 && r.value[|r.value| - 1] == JStr(orig)
  {
    if !server.JObj? then Raise(TypeError("object does not support item assignment"))
    else if "served_model_names" !in server.fields then Ok([JStr(orig), JStr(orig)])
    else match server.fields["served_model_names"]
      case JNull => Ok([JStr(orig)])
      case JStr(s) => Ok([JStr(s), JStr(orig)])
      case JList(names) => Ok(names + [JStr(orig)])
      case _ => Raise(AttributeError("object has no attribute 'append'"))
  }

  /** The four shapes of `served_model_names`: absent gives the original name
      twice, null gives it once, a single string gives that string then the
      original name, and a list gets the original name appended, so the
      result is one longer than the list it was normalised to. */
  lemma ServedNamesCases(orig: string, server: Json)
    ensures var r := NormalizedServedNames(orig, server);
            && (server.JObj? && "served_model_names" !in server.fields ==> r == Ok([JStr(orig), JStr(orig)]))
            && (server.JObj? && "served_model_names" in server.fields ==>
                  match server.fields["served_model_names"]
                  case JNull => r == Ok([JStr(orig)])
                  case JStr(s) => r == Ok([JStr(s), JStr(orig)])
                  case JList(names) => r == Ok(names + [JStr(orig)]) && |r.value| == |names| + 1
                  case _ => r.Raise?)
            && (!server.JObj? ==> r.Raise?)
  {
  }

  /** The configuration mapping `load_config` hands to AppSettings: the
      `served_model_names` entry of the server section replaced by its
      normalized list, everything else untouched. */
  function NormalizedConfig(data: map<string, Json>): (r: Outcome<map<string, Json>>)
    ensures OriginalModelName(data).Raise? ==> r == Raise(OriginalModelName(data).exc)
    ensures r.Ok? ==> r.value.Keys == data.Keys && "server" in data
  {
    match OriginalModelName(data)
    case Raise(x) => Raise(x)
    case Ok(orig) =>
      if "server" !in data then Raise(TypeError("'ServerSettings' object does not support item assignment"))
      else match NormalizedServedNames(orig, data["server"])
        case Raise(x) => Raise(x)
        case Ok(names) => Ok(data["server" := JObj(data["server"].fields["served_model_names" := JList(names)])])
  }

  /** The server section of `data` holds a list of served names whose last
      entry is `orig`. */
  predicate ServedListEndsWith(data: map<string, Json>, orig: string)
  {
    && "server" in data && data["server"].JObj?
    && "served_model_names" in data["server"].fields
    && data["server"].fields["served_model_names"].JList?
    && var items := data["server"].fields["served_model_names"].items;
       |items| >= 1 && items[|items| - 1] == JStr(orig)
  }

  /** A normalised configuration's server section holds a list of served
      names ending with the original model name. */
  lemma NormalizedServerSection(data: map<string, Json>, orig: string)
    requires OriginalModelName(data) == Ok(orig)
    requires NormalizedConfig(data).Ok?
    ensures ServedListEndsWith(NormalizedConfig(data).value, orig)
  {
    NormalizedConfigValue(data, orig);
    var server := data["server"];
    RewrittenListEndsWith(data, server.fields, NormalizedServedNames(orig, server).value, orig);
  }

  lemma NormalizedConfigValue(data: map<string, Json>, orig: string)
    requires OriginalModelName(data) == Ok(orig)
    requires NormalizedConfig(data).Ok?
    ensures "server" in data && NormalizedServedNames(orig, data["server"]).Ok? && data["server"].JObj?
    ensures NormalizedConfig(data).value
            == data["server" := JObj(data["server"].fields["served_model_names" := JList(NormalizedServedNames(orig, data["server"]).value)])]
  {
  }

  lemma RewrittenListEndsWith(data: map<string, Json>, fields: map<string, Json>, names: seq<Json>, orig: string)
    requires |names| >= 1 && names[|names| - 1] == JStr(orig)
    ensures ServedListEndsWith(data["server" := JObj(fields["served_model_names" := JList(names)])], orig)
  {
  }

  /** Lines 57-65 on the server dict, rewriting its `served_model_names` slot
      in place, one `if` at a time. */
  method RewriteServedNames(orig: string, server: map<string, Json>) returns (r: Outcome<map<string, Json>>)
    ensures r.Ok? <==> NormalizedServedNames(orig, JObj(server)).Ok?
    ensures r.Ok? ==> r.value == server["served_model_names" := JList(NormalizedServedNames(orig, JObj(server)).value)]
    ensures r.Raise? ==> r.exc == NormalizedServedNames(orig, JObj(server)).exc
  {
    ghost var entry := if "served_model_names" in server then Some(server["served_model_names"]) else None;
    var slot: Option<Json> := if "served_model_names" in server then Some(server["served_model_names"]) else None;
    if slot.None? {
      slot := Some(JList([JStr(orig)]));
    }
    if slot.value.JNull? {
      slot := Some(JList([]));
    }
    if slot.value.JStr? {
      var one := slot.value.s;
      slot := Some(JList([JStr(one)]));
    }
    if !slot.value.JList? {
      return Raise(AttributeError("object has no attribute 'append'"));
    }
    ghost var names := slot.value.items + [JStr(orig)];
    if entry.None? {
      assert names == [JStr(orig), JStr(orig)];
    } else if entry.value.JNull? {
      assert names == [JStr(orig)];
    } else if entry.value.JStr? {
      assert names == [entry.value, JStr(orig)];
    }
    assert NormalizedServedNames(orig, JObj(server)) == Ok(names);
    slot := Some(JList(slot.value.items + [JStr(orig)]));
    r := Ok(server["served_model_names" := slot.value]);
  }

  /** The rewrite of lines 51-65 on the parsed configuration, changing the
      mapping step by step as the source does. A configuration without a
      `server` section fails: line 56 stores a ServerSettings record there and
      line 58 then assigns into it by key, which the record does not support. */
  method NormalizeConfig(configData: map<string, Json>) returns (r: Outcome<map<string, Json>>)
    ensures r == NormalizedConfig(configData)
  {
    var data := configData;
    var nameOrError := OriginalModelName(data);
    if nameOrError.Raise? {
      return Raise(nameOrError.exc);
    }
    var orig := nameOrError.value;
    assert OriginalModelName(configData) == Ok(orig);
    if "server" !in data {
      return Raise(TypeError("'ServerSettings' object does not support item assignment"));
    }
    if !data["server"].JObj? {
      return Raise(TypeError("object does not support item assignment"));
    }
    var server := RewriteServedNames(orig, data["server"].fields);
    if server.Raise? {
      return Raise(server.exc);
    }
    data := data["server" := JObj(server.value)];
    r := Ok(data);
  }

  /** `load_config` after the file has been read and parsed (lines 46-67):
      the checks of lines 50-51 give a ValueError for a missing `model` section
      and for a missing `model_path`; otherwise the result is the validation of
      the normalised configuration, whose last served name is the original
      model name. */
  method LoadConfig(configData: map<string, Json>) returns (r: Outcome<AppSettings>)
    ensures OriginalModelName(configData).Raise? ==> r == Raise(OriginalModelName(configData).exc)
    ensures r == match NormalizedConfig(configData)
                 case Raise(x) => Raise(x)
                 case Ok(d) => BuildSettings(d)
    ensures r.Ok? ==> OriginalModelName(configData).Ok? &&
                      var orig := OriginalModelName(configData).value;
                      r.value.server.servedModelNames.Some?
                      && |r.value.server.servedModelNames.value| >= 1
                      && Last(r.value.server.servedModelNames.value) == orig
    ensures r.Ok? ==> LoadedFromData(configData, r.value)
  {
    var normalized := NormalizeConfig(configData);
    if normalized.Raise? {
      return Raise(normalized.exc);
    }
    r := BuildSettings(normalized.value);
    if r.Ok? {
      LoadedNamesEndWithOriginal(configData, OriginalModelName(configData).value);
      LoadedKeepsOtherFields(configData, OriginalModelName(configData).value);
    }
  }

  /** Apart from the served names, loaded settings are what the configuration
      file says: the server's host, port and root path are the file's or their
      defaults, and the model, log and cors sections are their own validations
      or defaults. */
  ghost predicate LoadedFromData(data: map<string, Json>, s: AppSettings)
  {
    && "server" in data && data["server"].JObj?
    && var f := data["server"].fields;
    && FieldIs(f, "host", JStr(s.server.host), s.server.host == DefaultServer.host)
    && FieldIs(f, "port", JInt(s.server.port), s.server.port == DefaultServer.port)
    && FieldIs(f, "root_path", JStr(s.server.rootPath), s.server.rootPath == DefaultServer.rootPath)
    && "model" in data && ParseModel(data["model"]) == Ok(s.model)
    && (if "log" in data then ParseLog(data["log"]) == Ok(s.log) else s.log == DefaultLog)
    && (if "cors" in data then ParseCors(data["cors"]) == Ok(s.cors) else s.cors == DefaultCors)
  }

  /** The normalisation rewrites only `server.served_model_names`, so every
      other field reaches validation as the file wrote it. */
  lemma LoadedKeepsOtherFields(data: map<string, Json>, orig: string)
    requires OriginalModelName(data) == Ok(orig)
    requires NormalizedConfig(data).Ok? && BuildSettings(NormalizedConfig(data).value).Ok?
    ensures LoadedFromData(data, BuildSettings(NormalizedConfig(data).value).value)
  {
    NormalizedConfigValue(data, orig);
    RewrittenDataKeepsFields(data, JList(NormalizedServedNames(orig, data["server"]).value));
  }

  /** Validating a configuration whose served names were replaced reads every
      other field as the configuration had it. */
  lemma RewrittenDataKeepsFields(data: map<string, Json>, names: Json)
    requires "server" in data && data["server"].JObj?
    requires BuildSettings(data["server" := JObj(data["server"].fields["served_model_names" := names])]).Ok?
    ensures LoadedFromData(data, BuildSettings(data["server" := JObj(data["server"].fields["served_model_names" := names])]).value)
  {
    var d := data["server" := JObj(data["server"].fields["served_model_names" := names])];
    var s := BuildSettings(d).value;
    assert ParseServer(d["server"]) == Ok(s.server);
    RewrittenServerKeepsFields(data["server"].fields, names);
  }

  /** Validating a server section whose served names were replaced reads the
      host, port and root path the section had before. */
  lemma RewrittenServerKeepsFields(f: map<string, Json>, names: Json)
    requires ParseServer(JObj(f["served_model_names" := names])).Ok?
    ensures var s := ParseServer(JObj(f["served_model_names" := names])).value;
            && FieldIs(f, "host", JStr(s.host), s.host == DefaultServer.host)
            && FieldIs(f, "port", JInt(s.port), s.port == DefaultServer.port)
            && FieldIs(f, "root_path", JStr(s.rootPath), s.rootPath == DefaultServer.rootPath)
  {
    var g := f["served_model_names" := names];
    assert ("host" in g <==> "host" in f) && ("host" in f ==> g["host"] == f["host"]);
    assert ("port" in g <==> "port" in f) && ("port" in f ==> g["port"] == f["port"]);
    assert ("root_path" in g <==> "root_path" in f) && ("root_path" in f ==> g["root_path"] == f["root_path"]);
  }

  /** The settings validated from a normalised configuration end their
      served names with the original model name. */
  lemma LoadedNamesEndWithOriginal(data: map<string, Json>, orig: string)
    requires OriginalModelName(data) == Ok(orig)
    requires NormalizedConfig(data).Ok? && BuildSettings(NormalizedConfig(data).value).Ok?
    ensures var names := BuildSettings(NormalizedConfig(data).value).value.server.servedModelNames;
            names.Some? && |names.value| >= 1 && Last(names.value) == orig
  {
    var d := NormalizedConfig(data).value;
    assert ServedListEndsWith(d, orig) by {
      NormalizedServerSection(data, orig);
    }
    ServedNamesSurviveValidation(d, orig);
  }

  function Last<T>(s: seq<T>): T
    requires |s| > 0
  {
    s[|s| - 1]
  }

  /** Once the server section holds a list ending in the original name, the
      validated settings keep that list, so their last served name is it. */
  lemma ServedNamesSurviveValidation(data: map<string, Json>, orig: string)
    requires ServedListEndsWith(data, orig)
    requires BuildSettings(data).Ok?
    ensures var names := BuildSettings(data).value.server.servedModelNames;
            names.Some? && |names.value| >= 1 && Last(names.value) == orig
  {
    ParsedNamesEndWith(data, orig);
    assert ParseServer(data["server"]) == Ok(BuildSettings(data).value.server);
  }

  /** Validation keeps a served-names list as it is, so its last name too. */
  lemma ParsedNamesEndWith(data: map<string, Json>, orig: string)
    requires ServedListEndsWith(data, orig)
    requires ParseServer(data["server"]).Ok?
    ensures var names := ParseServer(data["server"]).value.servedModelNames;
            names.Some? && |names.value| >= 1 && Last(names.value) == orig
  {
    var names := ParseServer(data["server"]).value.servedModelNames;
    assert data["server"].fields["served_model_names"] == OptStrListJson(names);
    ListJsonEndsWith(names, orig);
  }

  lemma ListJsonEndsWith(names: Option<seq<string>>, orig: string)
    requires OptStrListJson(names).JList? && |OptStrListJson(names).items| >= 1
    requires OptStrListJson(names).items[|OptStrListJson(names).items| - 1] == JStr(orig)
    ensures names.Some? && |names.value| >= 1 && Last(names.value) == orig
  {
  }
}
