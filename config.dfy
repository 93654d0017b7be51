/** The client's settings (client/config.py): four nested sections and four
    top-level settings with their defaults, the validator, the flat
    serialiser, the environment reader and the copy-then-update operation.
    The dataclasses are immutable values here, so `copy.deepcopy` is implicit:
    every update yields a new value and leaves its input as it was. */
module Config {
  import opened Python

  datatype ReplicateAPIConfig = ReplicateAPIConfig(
    baseUrl: string, timeout: int, maxRetries: int,
    retryDelay: real, maxRetryDelay: real, backoffFactor: real)

  datatype ReplicateModelConfig = ReplicateModelConfig(
    defaultModel: string, codeGenerationModel: string, textGenerationModel: string,
    imageGenerationModel: string, maxTokens: int, temperature: real, topP: real)

  datatype ReplicatePredictionConfig = ReplicatePredictionConfig(
    defaultWebhookEvents: seq<string>, maxPredictionTime: int,
    pollingInterval: real, maxPollingAttempts: int)

  /** `dockerfile_base_images` is a str-to-str dict, kept in insertion order. */
  datatype ReplicateCodeConfig = ReplicateCodeConfig(
    supportedLanguages: seq<string>, defaultLanguage: string,
    codeOptimizationGoals: seq<string>, dockerfileBaseImages: seq<(string, string)>)

  datatype ReplicateConfig = ReplicateConfig(
    api: ReplicateAPIConfig, model: ReplicateModelConfig,
    prediction: ReplicatePredictionConfig, code: ReplicateCodeConfig,
    debug: bool, logLevel: string, cacheEnabled: bool, cacheTtl: int)

  const DEFAULT_API := ReplicateAPIConfig("https://api.replicate.com/v1", 30, 3, 1.0, 60.0, 2.0)

  const DEFAULT_MODEL := ReplicateModelConfig(
    "meta/codellama-34b-instruct", "meta/codellama-34b-instruct", "meta/llama-2-70b-chat",
    "stability-ai/stable-diffusion", 2000, 0.1, 0.9)

  const DEFAULT_PREDICTION := ReplicatePredictionConfig(["start", "output", "logs", "completed"], 300, 1.0, 300)

  const DEFAULT_CODE := ReplicateCodeConfig(
    ["python", "javascript", "typescript", "java", "c++", "c", "go",
     "rust", "php", "ruby", "swift", "kotlin", "scala", "r", "sql"],
    "python",
    ["performance", "readability", "maintainability", "security", "memory_usage"],
    [("python", "python:3.9-slim"), ("node", "node:16-alpine"), ("java", "openjdk:11-jre-slim"),
     ("go", "golang:1.19-alpine"), ("rust", "rust:1.70-slim")])

  /** `ReplicateConfig()`, which is also `DEFAULT_CONFIG`. */
  const DEFAULT_CONFIG := ReplicateConfig(DEFAULT_API, DEFAULT_MODEL, DEFAULT_PREDICTION, DEFAULT_CODE,
                                          false, "INFO", true, 3600)

  // ---------------------------------------------------------------- validation

  /** The checks of `validate_config`, in the order they are asserted, each
      with the message of its assertion. */
  function Checks(c: ReplicateConfig): seq<(bool, string)> {
    [(c.api.timeout > 0, "API timeout must be positive"),
     (c.api.maxRetries >= 0, "Max retries must be non-negative"),
     (StartsWith(c.api.baseUrl, "http"), "Base URL must be HTTP/HTTPS"),
     (c.model.maxTokens > 0, "Max tokens must be positive"),
     (0.0 <= c.model.temperature <= 2.0, "Temperature must be between 0 and 2"),
     (0.0 <= c.model.topP <= 1.0, "Top-p must be between 0 and 1"),
     (c.prediction.maxPredictionTime > 0, "Max prediction time must be positive"),
     (c.prediction.pollingInterval > 0.0, "Polling interval must be positive"),
     (c.prediction.maxPollingAttempts > 0, "Max polling attempts must be positive"),
     (c.code.defaultLanguage in c.code.supportedLanguages, "Default language must be in supported languages")]
  }

  /** The message of the first failing check: the AssertionError that is caught. */
  function FirstFailure(checks: seq<(bool, string)>): (r: Option<string>)
    ensures r.None? <==> forall i :: 0 <= i < |checks| ==> checks[i].0
    ensures r.Some? ==> exists i :: 0 <= i < |checks| && !checks[i].0 && r.value == checks[i].1 &&
                                    forall j :: 0 <= j < i ==> checks[j].0
  {
    if checks == [] then None
    else if !checks[0].0 then Some(checks[0].1)
    else
      var r := FirstFailure(checks[1..]);
      assert forall i :: 1 <= i < |checks| ==> checks[i] == checks[1..][i - 1];
      r
  }

  /** What `validate_config` prints after "Configuration validation failed: ",
      or None when it returns True. */
  function ValidationFailure(c: ReplicateConfig): Option<string> {
    FirstFailure(Checks(c))
  }

  /** `validate_config`: True exactly when every check holds. A failing check
      is caught, so the function never raises. */
  function ValidateConfig(c: ReplicateConfig): (ok: bool)
    ensures ok <==>
      c.api.timeout > 0 && c.api.maxRetries >= 0 && StartsWith(c.api.baseUrl, "http") &&
      c.model.maxTokens > 0 && 0.0 <= c.model.temperature <= 2.0 && 0.0 <= c.model.topP <= 1.0 &&
      c.prediction.maxPredictionTime > 0 && c.prediction.pollingInterval > 0.0 &&
      c.prediction.maxPollingAttempts > 0 && c.code.defaultLanguage in c.code.supportedLanguages
  {
    var checks := Checks(c);
    assert (forall i :: 0 <= i < |checks| ==> checks[i].0) <==>
      checks[0].0 && checks[1].0 && checks[2].0 && checks[3].0 && checks[4].0 &&
      checks[5].0 && checks[6].0 && checks[7].0 && checks[8].0 && checks[9].0;
    ValidationFailure(c).None?
  }

  /** A failing check turns `validate_config` false, and the message printed is
      that of the earliest failing check. */
  lemma {:induction false} FailingCheckRejects(c: ReplicateConfig, i: int)
    requires 0 <= i < |Checks(c)| && !Checks(c)[i].0
    requires forall j :: 0 <= j < i ==> Checks(c)[j].0
    ensures !ValidateConfig(c)
    ensures ValidationFailure(c) == Some(Checks(c)[i].1)
  {
    var r := ValidationFailure(c);
    var k :| 0 <= k < |Checks(c)| && !Checks(c)[k].0 && r.value == Checks(c)[k].1 &&
             forall j :: 0 <= j < k ==> Checks(c)[j].0;
    assert k == i;
  }

  lemma DefaultsPassStringChecks()
    ensures StartsWith(DEFAULT_API.baseUrl, "http")
    ensures DEFAULT_CODE.defaultLanguage in DEFAULT_CODE.supportedLanguages
  {
    assert DEFAULT_API.baseUrl[..4] == "http";
    assert DEFAULT_CODE.supportedLanguages[0] == "python";
  }

  /** The defaults pass validation: timeout 30, 2000 tokens, "python" supported. */
  lemma DefaultConfigValid()
    ensures ValidateConfig(DEFAULT_CONFIG)
    ensures ValidationFailure(DEFAULT_CONFIG) == None
  {
    DefaultsPassStringChecks();
  }

  // ---------------------------------------------------------------- value conversions

  function StrsValue(l: seq<string>): Value {
    List(seq(|l|, i requires 0 <= i < |l| => Str(l[i])))
  }

  function PairsValue(m: seq<(string, string)>): Value {
    Dict(seq(|m|, i requires 0 <= i < |m| => (m[i].0, Str(m[i].1))))
  }

  function AsStrs(v: Value): (r: Option<seq<string>>)
    ensures r.Some? ==> StrsValue(r.value) == v
    ensures v.List? && (forall i :: 0 <= i < |v.items| ==> v.items[i].Str?) ==> r.Some?
  {
    if v.List? && forall i :: 0 <= i < |v.items| ==> v.items[i].Str? then
      var l := seq(|v.items|, i requires 0 <= i < |v.items| => v.items[i].s);
      assert StrsValue(l).items == v.items;
      Some(l)
    else None
  }

  function AsPairs(v: Value): (r: Option<seq<(string, string)>>)
    ensures r.Some? ==> PairsValue(r.value) == v
    ensures v.Dict? && (forall i :: 0 <= i < |v.entries| ==> v.entries[i].1.Str?) ==> r.Some?
  {
    if v.Dict? && forall i :: 0 <= i < |v.entries| ==> v.entries[i].1.Str? then
      var m := seq(|v.entries|, i requires 0 <= i < |v.entries| => (v.entries[i].0, v.entries[i].1.s));
      assert PairsValue(m).entries == v.entries;
      Some(m)
    else None
  }

  /** A number as a float field stores it: a float, or an int widened. */
  function AsReal(v: Value): Option<real> {
    match v
    case Float(x) => Some(x)
    case Int(i) => Some(i as real)
    case _ => None
  }

  /** The value a field holding `cur` takes when `v` is assigned to it: `v`
      when it has the field's type (an int widened for a float field), and
      otherwise `cur`, since the typed record cannot hold it. */
  function Stored(cur: Value, v: Value): Value {
    match cur
    case Str(_) => if v.Str? then v else cur
    case Int(_) => if v.Int? then v else cur
    case Bool(_) => if v.Bool? then v else cur
    case Float(_) => if AsReal(v).Some? then Float(AsReal(v).value) else cur
    case List(_) => if AsStrs(v).Some? then v else cur
    case Dict(_) => if AsPairs(v).Some? then v else cur
    case Null => cur
  }

  // ---------------------------------------------------------------- field views

  /** Each section's attributes by name, with their values as `to_dict` shows
      them; None for a name that is no attribute of the section. */
  function ApiField(a: ReplicateAPIConfig, key: string): Option<Value> {
    if key == "base_url" then Some(Str(a.baseUrl))
    else if key == "timeout" then Some(Int(a.timeout))
    else if key == "max_retries" then Some(Int(a.maxRetries))
    else if key == "retry_delay" then Some(Float(a.retryDelay))
    else if key == "max_retry_delay" then Some(Float(a.maxRetryDelay))
    else if key == "backoff_factor" then Some(Float(a.backoffFactor))
    else None
  }

  function ModelField(m: ReplicateModelConfig, key: string): Option<Value> {
    if key == "default_model" then Some(Str(m.defaultModel))
    else if key == "code_generation_model" then Some(Str(m.codeGenerationModel))
    else if key == "text_generation_model" then Some(Str(m.textGenerationModel))
    else if key == "image_generation_model" then Some(Str(m.imageGenerationModel))
    else if key == "max_tokens" then Some(Int(m.maxTokens))
    else if key == "temperature" then Some(Float(m.temperature))
    else if key == "top_p" then Some(Float(m.topP))
    else None
  }

  function PredictionField(p: ReplicatePredictionConfig, key: string): Option<Value> {
    if key == "default_webhook_events" then Some(StrsValue(p.defaultWebhookEvents))
    else if key == "max_prediction_time" then Some(Int(p.maxPredictionTime))
    else if key == "polling_interval" then Some(Float(p.pollingInterval))
    else if key == "max_polling_attempts" then Some(Int(p.maxPollingAttempts))
    else None
  }

  function CodeField(c: ReplicateCodeConfig, key: string): Option<Value> {
    if key == "supported_languages" then Some(StrsValue(c.supportedLanguages))
    else if key == "default_language" then Some(Str(c.defaultLanguage))
    else if key == "code_optimization_goals" then Some(StrsValue(c.codeOptimizationGoals))
    else if key == "dockerfile_base_images" then Some(PairsValue(c.dockerfileBaseImages))
    else None
  }

  /** The four settings `update_config` may set at top level. */
  function TopField(c: ReplicateConfig, key: string): Option<Value> {
    if key == "debug" then Some(Bool(c.debug))
    else if key == "log_level" then Some(Str(c.logLevel))
    else if key == "cache_enabled" then Some(Bool(c.cacheEnabled))
    else if key == "cache_ttl" then Some(Int(c.cacheTtl))
    else None
  }

  /** A section attribute of the whole configuration, by section and name. */
  function SectionField(c: ReplicateConfig, section: string, key: string): Option<Value> {
    if section == "api" then ApiField(c.api, key)
    else if section == "model" then ModelField(c.model, key)
    else if section == "prediction" then PredictionField(c.prediction, key)
    else if section == "code" then CodeField(c.code, key)
    else None
  }

  // ---------------------------------------------------------------- setattr

  /** `setattr(api, key, v)` guarded by `hasattr`: only the named attribute
      changes, to what it can store of `v`; an unknown name changes nothing. */
  function SetApi(a: ReplicateAPIConfig, key: string, v: Value): (r: ReplicateAPIConfig)
    ensures forall k :: k != key ==> ApiField(r, k) == ApiField(a, k)
    ensures ApiField(a, key).None? ==> r == a
    ensures ApiField(a, key).Some? ==> ApiField(r, key) == Some(Stored(ApiField(a, key).value, v))
  {
    if key == "base_url" && v.Str? then a.(baseUrl := v.s)
    else if key == "timeout" && v.Int? then a.(timeout := v.i)
    else if key == "max_retries" && v.Int? then a.(maxRetries := v.i)
    else if key == "retry_delay" && AsReal(v).Some? then a.(retryDelay := AsReal(v).value)
    else if key == "max_retry_delay" && AsReal(v).Some? then a.(maxRetryDelay := AsReal(v).value)
    else if key == "backoff_factor" && AsReal(v).Some? then a.(backoffFactor := AsReal(v).value)
    else a
  }

  function SetModel(m: ReplicateModelConfig, key: string, v: Value): (r: ReplicateModelConfig)
    ensures forall k :: k != key ==> ModelField(r, k) == ModelField(m, k)
    ensures ModelField(m, key).None? ==> r == m
    ensures ModelField(m, key).Some? ==> ModelField(r, key) == Some(Stored(ModelField(m, key).value, v))
  {
    if key == "default_model" && v.Str? then m.(defaultModel := v.s)
    else if key == "code_generation_model" && v.Str? then m.(codeGenerationModel := v.s)
    else if key == "text_generation_model" && v.Str? then m.(textGenerationModel := v.s)
    else if key == "image_generation_model" && v.Str? then m.(imageGenerationModel := v.s)
    else if key == "max_tokens" && v.Int? then m.(maxTokens := v.i)
    else if key == "temperature" && AsReal(v).Some? then m.(temperature := AsReal(v).value)
    else if key == "top_p" && AsReal(v).Some? then m.(topP := AsReal(v).value)
    else m
  }

  function SetPrediction(p: ReplicatePredictionConfig, key: string, v: Value): (r: ReplicatePredictionConfig)
    ensures forall k :: k != key ==> PredictionField(r, k) == PredictionField(p, k)
    ensures PredictionField(p, key).None? ==> r == p
    ensures PredictionField(p, key).Some? ==>
              PredictionField(r, key) == Some(Stored(PredictionField(p, key).value, v))
  {
    if key == "default_webhook_events" && AsStrs(v).Some? then p.(defaultWebhookEvents := AsStrs(v).value)
    else if key == "max_prediction_time" && v.Int? then p.(maxPredictionTime := v.i)
    else if key == "polling_interval" && AsReal(v).Some? then p.(pollingInterval := AsReal(v).value)
    else if key == "max_polling_attempts" && v.Int? then p.(maxPollingAttempts := v.i)
    else p
  }

  function SetCode(c: ReplicateCodeConfig, key: string, v: Value): (r: ReplicateCodeConfig)
    ensures forall k :: k != key ==> CodeField(r, k) == CodeField(c, k)
    ensures CodeField(c, key).None? ==> r == c
    ensures CodeField(c, key).Some? ==> CodeField(r, key) == Some(Stored(CodeField(c, key).value, v))
  {
    if key == "supported_languages" && AsStrs(v).Some? then c.(supportedLanguages := AsStrs(v).value)
    else if key == "default_language" && v.Str? then c.(defaultLanguage := v.s)
    else if key == "code_optimization_goals" && AsStrs(v).Some? then c.(codeOptimizationGoals := AsStrs(v).value)
    else if key == "dockerfile_base_images" && AsPairs(v).Some? then c.(dockerfileBaseImages := AsPairs(v).value)
    else c
  }

  /** `setattr(new_config, key, v)` for one of the four top-level settings;
      the sections and the other settings are untouched. */
  function SetTop(c: ReplicateConfig, key: string, v: Value): (r: ReplicateConfig)
    ensures forall k :: k != key ==> TopField(r, k) == TopField(c, k)
    ensures r.api == c.api && r.model == c.model && r.prediction == c.prediction && r.code == c.code
    ensures TopField(c, key).None? ==> r == c
    ensures TopField(c, key).Some? ==> TopField(r, key) == Some(Stored(TopField(c, key).value, v))
  {
    if key == "debug" && v.Bool? then c.(debug := v.b)
    else if key == "log_level" && v.Str? then c.(logLevel := v.s)
    else if key == "cache_enabled" && v.Bool? then c.(cacheEnabled := v.b)
    else if key == "cache_ttl" && v.Int? then c.(cacheTtl := v.i)
    else c
  }

  // ---------------------------------------------------------------- update_config

  /** Applying `set` to every item, first to last: what a
      `for key, value in items: setattr(...)` loop leaves behind. */
  function Fold<S>(s: S, items: Entries, apply: (S, string, Value) -> S): S
    decreases |items|
  {
    if items == [] then s else Fold(apply(s, items[0].0, items[0].1), items[1..], apply)
  }

  /** The items `kwargs[name].items()` iterates over: none when the keyword is
      absent, and an AttributeError when its value is not a dict. */
  function SectionItems(kwargs: Entries, name: string): Result<Entries, string> {
    match Lookup(kwargs, name)
    case None => Success([])
    case Some(Dict(e)) => Success(e)
    case Some(v) => Failure(AttrError(v, "items"))
  }

  const TOP_LEVEL_KEYS: seq<string> := ["debug", "log_level", "cache_enabled", "cache_ttl"]

  /** The top-level settings present in `kwargs`, in the order the loop visits them. */
  function TopItems(kwargs: Entries, keys: seq<string>): (r: Entries)
    ensures forall i :: 0 <= i < |r| ==> r[i].0 in keys && Lookup(kwargs, r[i].0) == Some(r[i].1)
  {
    if keys == [] then []
    else
      var rest := TopItems(kwargs, keys[1..]);
      match Lookup(kwargs, keys[0])
      case Some(v) => [(keys[0], v)] + rest
      case None => rest
  }

  /** The configuration after `update_config`'s four section loops. */
  function UpdatedSections(c: ReplicateConfig, kwargs: Entries): (r: Result<ReplicateConfig, string>)
    ensures r.Success? ==> r.value.debug == c.debug && r.value.logLevel == c.logLevel &&
                           r.value.cacheEnabled == c.cacheEnabled && r.value.cacheTtl == c.cacheTtl
  {
    var api := SectionItems(kwargs, "api");
    var model := SectionItems(kwargs, "model");
    var prediction := SectionItems(kwargs, "prediction");
    var code := SectionItems(kwargs, "code");
    if api.Failure? then Failure(api.error)
    else if model.Failure? then Failure(model.error)
    else if prediction.Failure? then Failure(prediction.error)
    else if code.Failure? then Failure(code.error)
    else
      Success(c.(api := Fold(c.api, api.value, SetApi),
                 model := Fold(c.model, model.value, SetModel),
                 prediction := Fold(c.prediction, prediction.value, SetPrediction),
                 code := Fold(c.code, code.value, SetCode)))
  }

  /** What `update_config(config, **kwargs)` returns: the four sections
      updated in order, then the top-level settings. */
  function Updated(c: ReplicateConfig, kwargs: Entries): Result<ReplicateConfig, string> {
    match UpdatedSections(c, kwargs)
    case Failure(e) => Failure(e)
    case Success(c1) => Success(Fold(c1, TopItems(kwargs, TOP_LEVEL_KEYS), SetTop))
  }

  /** One section's `for key, value in ....items()` loop. */
  method ApplyItems<S>(s: S, items: Entries, apply: (S, string, Value) -> S) returns (r: S)
    ensures r == Fold(s, items, apply)
  {
    r := s;
    var i := 0;
    while i < |items|
      invariant 0 <= i <= |items|
      invariant Fold(r, items[i..], apply) == Fold(s, items, apply)
    {
      assert items[i..][1..] == items[i + 1..];
      r := apply(r, items[i].0, items[i].1);
      i := i + 1;
    }
  }

  /** `update_config`: works on a copy, section by section, then the top-level keys. */
  method UpdateConfig(config: ReplicateConfig, kwargs: Entries) returns (r: Result<ReplicateConfig, string>)
    ensures r == Updated(config, kwargs)
  {
    var newConfig := config;
    var api := SectionItems(kwargs, "api");
    if api.Failure? { return Failure(api.error); }
    var a := ApplyItems(newConfig.api, api.value, SetApi);
    newConfig := newConfig.(api := a);
    var model := SectionItems(kwargs, "model");
    if model.Failure? { return Failure(model.error); }
    var m := ApplyItems(newConfig.model, model.value, SetModel);
    newConfig := newConfig.(model := m);
    var prediction := SectionItems(kwargs, "prediction");
    if prediction.Failure? { return Failure(prediction.error); }
    var p := ApplyItems(newConfig.prediction, prediction.value, SetPrediction);
    newConfig := newConfig.(prediction := p);
    var code := SectionItems(kwargs, "code");
    if code.Failure? { return Failure(code.error); }
    var cd := ApplyItems(newConfig.code, code.value, SetCode);
    newConfig := newConfig.(code := cd);
    ghost var base := newConfig;
    var i := 0;
    while i < |TOP_LEVEL_KEYS|
      invariant 0 <= i <= |TOP_LEVEL_KEYS|
      invariant Fold(newConfig, TopItems(kwargs, TOP_LEVEL_KEYS[i..]), SetTop) ==
                Fold(base, TopItems(kwargs, TOP_LEVEL_KEYS), SetTop)
    {
      var key := TOP_LEVEL_KEYS[i];
      assert TOP_LEVEL_KEYS[i..][1..] == TOP_LEVEL_KEYS[i + 1..];
      if key in Keys(kwargs) {
        newConfig := SetTop(newConfig, key, Lookup(kwargs, key).value);
      }
      i := i + 1;
    }
    r := Success(newConfig);
  }

  /** A fold leaves a field alone when no item names it and the setter
      touches only the field it is given. */
  lemma {:induction false} FoldKeeps<S>(s: S, items: Entries, apply: (S, string, Value) -> S,
                                       view: (S, string) -> Option<Value>, key: string)
    requires forall t: S, k: string, v: Value :: k != key ==> view(apply(t, k, v), key) == view(t, key)
    requires key !in Keys(items)
    ensures view(Fold(s, items, apply), key) == view(s, key)
    decreases |items|
  {
    if items != [] {
      assert Keys(items)[0] == items[0].0;
      assert forall j :: 0 <= j < |items| - 1 ==> Keys(items[1..])[j] == Keys(items)[j + 1];
      FoldKeeps(apply(s, items[0].0, items[0].1), items[1..], apply, view, key);
    }
  }

  /** A fold in which `key` occurs once leaves that field holding `v`. */
  lemma {:induction false} FoldSets<S>(s: S, items: Entries, apply: (S, string, Value) -> S,
                                      view: (S, string) -> Option<Value>, key: string, v: Value)
    requires forall t: S, k: string, w: Value :: k != key ==> view(apply(t, k, w), key) == view(t, key)
    requires forall t: S, w: Value :: view(t, key).Some? ==> view(apply(t, key, w), key) == Some(Stored(view(t, key).value, w))
    requires DistinctKeys(items) && (key, v) in items
    requires view(s, key).Some?
    ensures view(Fold(s, items, apply), key) == Some(Stored(view(s, key).value, v))
    decreases |items|
  {
    var t := apply(s, items[0].0, items[0].1);
    if items[0].0 == key {
      assert items[0] == (key, v) by {
        var i :| 0 <= i < |items| && items[i] == (key, v);
        if i != 0 { assert items[0].0 == items[i].0; }
      }
      assert key !in Keys(items[1..]) by {
        forall j | 0 <= j < |items[1..]| ensures Keys(items[1..])[j] != key {
          assert items[1..][j] == items[j + 1];
        }
      }
      FoldKeeps(t, items[1..], apply, view, key);
    } else {
      assert (key, v) in items[1..];
      assert DistinctKeys(items[1..]) by {
        forall i, j | 0 <= i < j < |items[1..]| ensures items[1..][i].0 != items[1..][j].0 {
          assert items[1..][i] == items[i + 1] && items[1..][j] == items[j + 1];
        }
      }
      FoldSets(t, items[1..], apply, view, key, v);
    }
  }

  /** The top-level loop leaves the four sections alone. */
  lemma {:induction false} FoldTopKeepsSections(c: ReplicateConfig, items: Entries)
    ensures var r := Fold(c, items, SetTop);
      r.api == c.api && r.model == c.model && r.prediction == c.prediction && r.code == c.code
    decreases |items|
  {
    if items != [] {
      FoldTopKeepsSections(SetTop(c, items[0].0, items[0].1), items[1..]);
    }
  }

  /** In `update_config`, a section attribute that no item of its section
      names keeps its old value (unknown names never change anything). */
  lemma UpdatedKeepsUnnamed(c: ReplicateConfig, kwargs: Entries, section: string, key: string)
    requires Updated(c, kwargs).Success?
    requires SectionItems(kwargs, section).Success? && key !in Keys(SectionItems(kwargs, section).value)
    ensures SectionField(Updated(c, kwargs).value, section, key) == SectionField(c, section, key)
  {
    var items := SectionItems(kwargs, section).value;
    var c1 := UpdatedSections(c, kwargs).value;
    FoldTopKeepsSections(c1, TopItems(kwargs, TOP_LEVEL_KEYS));
    if section == "api" {
      FoldKeeps(c.api, items, SetApi, ApiField, key);
    } else if section == "model" {
      FoldKeeps(c.model, items, SetModel, ModelField, key);
    } else if section == "prediction" {
      FoldKeeps(c.prediction, items, SetPrediction, PredictionField, key);
    } else if section == "code" {
      FoldKeeps(c.code, items, SetCode, CodeField, key);
    }
  }

  /** In `update_config`, an attribute named in its section's dict ends up
      holding the given value (as far as its type allows). */
  lemma UpdatedSetsNamed(c: ReplicateConfig, kwargs: Entries, section: string, key: string, v: Value)
    requires Updated(c, kwargs).Success?
    requires SectionItems(kwargs, section).Success?
    requires DistinctKeys(SectionItems(kwargs, section).value) && (key, v) in SectionItems(kwargs, section).value
    requires SectionField(c, section, key).Some?
    ensures SectionField(Updated(c, kwargs).value, section, key) == Some(Stored(SectionField(c, section, key).value, v))
  {
    var items := SectionItems(kwargs, section).value;
    var c1 := UpdatedSections(c, kwargs).value;
    FoldTopKeepsSections(c1, TopItems(kwargs, TOP_LEVEL_KEYS));
    if section == "api" {
      FoldSets(c.api, items, SetApi, ApiField, key, v);
    } else if section == "model" {
      FoldSets(c.model, items, SetModel, ModelField, key, v);
    } else if section == "prediction" {
      FoldSets(c.prediction, items, SetPrediction, PredictionField, key, v);
    } else {
      FoldSets(c.code, items, SetCode, CodeField, key, v);
    }
  }

  /** A top-level setting keeps its value unless it is passed, and when passed
      it takes the keyword's value. */
  lemma {:induction false} UpdatedTopLevel(c: ReplicateConfig, kwargs: Entries, key: string)
    requires Updated(c, kwargs).Success?
    requires key in TOP_LEVEL_KEYS
    ensures key !in Keys(kwargs) ==> TopField(Updated(c, kwargs).value, key) == TopField(c, key)
    ensures key in Keys(kwargs) ==>
              TopField(Updated(c, kwargs).value, key) == Some(Stored(TopField(c, key).value, Lookup(kwargs, key).value))
  {
    var c1 := UpdatedSections(c, kwargs).value;
    assert TopField(c1, key) == TopField(c, key);
    if key in Keys(kwargs) {
      TopFoldSets(c1, kwargs, key);
    } else {
      TopFoldKeeps(c1, kwargs, key);
    }
  }

  /** The top-level loop gives a passed setting the keyword's value. */
  lemma TopFoldSets(c1: ReplicateConfig, kwargs: Entries, key: string)
    requires key in TOP_LEVEL_KEYS && key in Keys(kwargs)
    ensures TopField(c1, key).Some?
    ensures TopField(Fold(c1, TopItems(kwargs, TOP_LEVEL_KEYS), SetTop), key) ==
            Some(Stored(TopField(c1, key).value, Lookup(kwargs, key).value))
  {
    TopItemsDistinct(kwargs, TOP_LEVEL_KEYS);
    TopItemsContains(kwargs, TOP_LEVEL_KEYS, key);
    FoldSets(c1, TopItems(kwargs, TOP_LEVEL_KEYS), SetTop, TopField, key, Lookup(kwargs, key).value);
  }

  /** The top-level loop leaves a setting that is not passed alone. */
  lemma TopFoldKeeps(c1: ReplicateConfig, kwargs: Entries, key: string)
    requires key !in Keys(kwargs)
    ensures TopField(Fold(c1, TopItems(kwargs, TOP_LEVEL_KEYS), SetTop), key) == TopField(c1, key)
  {
    var items := TopItems(kwargs, TOP_LEVEL_KEYS);
    assert key !in Keys(items) by {
      forall j | 0 <= j < |items| ensures Keys(items)[j] != key {
        assert Lookup(kwargs, items[j].0).Some?;
      }
    }
    FoldKeeps(c1, items, SetTop, TopField, key);
  }

  lemma {:induction false} TopItemsDistinct(kwargs: Entries, keys: seq<string>)
    requires forall i, j :: 0 <= i < j < |keys| ==> keys[i] != keys[j]
    ensures DistinctKeys(TopItems(kwargs, keys))
  {
    if keys != [] {
      var rest := TopItems(kwargs, keys[1..]);
      assert forall i, j :: 0 <= i < j < |keys[1..]| ==> keys[1..][i] != keys[1..][j] by {
        forall i, j | 0 <= i < j < |keys[1..]| ensures keys[1..][i] != keys[1..][j] {
          assert keys[1..][i] == keys[i + 1] && keys[1..][j] == keys[j + 1];
        }
      }
      TopItemsDistinct(kwargs, keys[1..]);
      match Lookup(kwargs, keys[0])
      case Some(v) =>
        forall i | 0 <= i < |rest| ensures rest[i].0 != keys[0] {
          var j :| 0 <= j < |keys[1..]| && keys[1..][j] == rest[i].0;
          assert keys[j + 1] == rest[i].0;
        }
        DistinctKeysCons((keys[0], v), rest);
      case None =>
    }
  }

  lemma {:induction false} TopItemsContains(kwargs: Entries, keys: seq<string>, key: string)
    requires key in keys && key in Keys(kwargs)
    ensures (key, Lookup(kwargs, key).value) in TopItems(kwargs, keys)
  {
    if keys[0] != key {
      TopItemsContains(kwargs, keys[1..], key);
    }
  }

  /** Keywords other than the four sections and the four top-level settings
      have no effect: with none of those present the copy equals the input. */
  lemma UpdatedIgnoresOtherKeywords(c: ReplicateConfig, kwargs: Entries)
    requires forall i :: 0 <= i < |kwargs| ==>
               kwargs[i].0 !in ["api", "model", "prediction", "code"] && kwargs[i].0 !in TOP_LEVEL_KEYS
    ensures Updated(c, kwargs) == Success(c)
  {
    assert forall k :: k in ["api", "model", "prediction", "code"] + TOP_LEVEL_KEYS ==> k !in Keys(kwargs);
    TopItemsEmpty(kwargs, TOP_LEVEL_KEYS);
  }

  lemma {:induction false} TopItemsEmpty(kwargs: Entries, keys: seq<string>)
    requires forall k :: k in keys ==> k !in Keys(kwargs)
    ensures TopItems(kwargs, keys) == []
  {
    if keys != [] {
      TopItemsEmpty(kwargs, keys[1..]);
    }
  }

  // ---------------------------------------------------------------- to_dict

  function ApiDict(a: ReplicateAPIConfig): Entries {
    [("base_url", Str(a.baseUrl)), ("timeout", Int(a.timeout)), ("max_retries", Int(a.maxRetries)),
     ("retry_delay", Float(a.retryDelay)), ("max_retry_delay", Float(a.maxRetryDelay)),
     ("backoff_factor", Float(a.backoffFactor))]
  }

  function ModelDict(m: ReplicateModelConfig): Entries {
    [("default_model", Str(m.defaultModel)), ("code_generation_model", Str(m.codeGenerationModel)),
     ("text_generation_model", Str(m.textGenerationModel)), ("image_generation_model", Str(m.imageGenerationModel)),
     ("max_tokens", Int(m.maxTokens)), ("temperature", Float(m.temperature)), ("top_p", Float(m.topP))]
  }

  function PredictionDict(p: ReplicatePredictionConfig): Entries {
    [("default_webhook_events", StrsValue(p.defaultWebhookEvents)), ("max_prediction_time", Int(p.maxPredictionTime)),
     ("polling_interval", Float(p.pollingInterval)), ("max_polling_attempts", Int(p.maxPollingAttempts))]
  }

  function CodeDict(c: ReplicateCodeConfig): Entries {
    [("supported_languages", StrsValue(c.supportedLanguages)), ("default_language", Str(c.defaultLanguage)),
     ("code_optimization_goals", StrsValue(c.codeOptimizationGoals)),
     ("dockerfile_base_images", PairsValue(c.dockerfileBaseImages))]
  }

  /** `to_dict`. */
  function ToDict(c: ReplicateConfig): Entries {
    [("api", Dict(ApiDict(c.api))), ("model", Dict(ModelDict(c.model))),
     ("prediction", Dict(PredictionDict(c.prediction))), ("code", Dict(CodeDict(c.code))),
     ("debug", Bool(c.debug)), ("log_level", Str(c.logLevel)),
     ("cache_enabled", Bool(c.cacheEnabled)), ("cache_ttl", Int(c.cacheTtl))]
  }

  /** Every attribute of a section appears in its dict under its own name
      with its value, and nothing else does. */
  lemma ApiDictFields(a: ReplicateAPIConfig, k: string)
    ensures Lookup(ApiDict(a), k) == ApiField(a, k)
  {
    var d := ApiDict(a);
    assert d[6..] == [];
    assert Lookup(d[5..], k) == if k == "backoff_factor" then Some(d[5].1) else Lookup(d[6..], k);
    assert Lookup(d[4..], k) == if k == "max_retry_delay" then Some(d[4].1) else Lookup(d[5..], k);
    assert Lookup(d[3..], k) == if k == "retry_delay" then Some(d[3].1) else Lookup(d[4..], k);
    assert Lookup(d[2..], k) == if k == "max_retries" then Some(d[2].1) else Lookup(d[3..], k);
    assert Lookup(d[1..], k) == if k == "timeout" then Some(d[1].1) else Lookup(d[2..], k);
  }

  lemma ModelDictFields(m: ReplicateModelConfig, k: string)
    ensures Lookup(ModelDict(m), k) == ModelField(m, k)
  {
    var d := ModelDict(m);
    assert d[7..] == [];
    assert Lookup(d[6..], k) == if k == "top_p" then Some(d[6].1) else Lookup(d[7..], k);
    assert Lookup(d[5..], k) == if k == "temperature" then Some(d[5].1) else Lookup(d[6..], k);
    assert Lookup(d[4..], k) == if k == "max_tokens" then Some(d[4].1) else Lookup(d[5..], k);
    assert Lookup(d[3..], k) == if k == "image_generation_model" then Some(d[3].1) else Lookup(d[4..], k);
    assert Lookup(d[2..], k) == if k == "text_generation_model" then Some(d[2].1) else Lookup(d[3..], k);
    assert Lookup(d[1..], k) == if k == "code_generation_model" then Some(d[1].1) else Lookup(d[2..], k);
  }

  lemma PredictionDictFields(p: ReplicatePredictionConfig, k: string)
    ensures Lookup(PredictionDict(p), k) == PredictionField(p, k)
  {
    var d := PredictionDict(p);
    assert d[4..] == [];
    assert Lookup(d[3..], k) == if k == "max_polling_attempts" then Some(d[3].1) else Lookup(d[4..], k);
    assert Lookup(d[2..], k) == if k == "polling_interval" then Some(d[2].1) else Lookup(d[3..], k);
    assert Lookup(d[1..], k) == if k == "max_prediction_time" then Some(d[1].1) else Lookup(d[2..], k);
  }

  lemma CodeDictFields(c: ReplicateCodeConfig, k: string)
    ensures Lookup(CodeDict(c), k) == CodeField(c, k)
  {
    var d := CodeDict(c);
    assert d[4..] == [];
    assert Lookup(d[3..], k) == if k == "dockerfile_base_images" then Some(d[3].1) else Lookup(d[4..], k);
    assert Lookup(d[2..], k) == if k == "code_optimization_goals" then Some(d[2].1) else Lookup(d[3..], k);
    assert Lookup(d[1..], k) == if k == "default_language" then Some(d[1].1) else Lookup(d[2..], k);
  }

  /** What `to_dict` holds under a top-level key: a section's dict or a setting. */
  function TopEntry(c: ReplicateConfig, key: string): Option<Value> {
    if key == "api" then Some(Dict(ApiDict(c.api)))
    else if key == "model" then Some(Dict(ModelDict(c.model)))
    else if key == "prediction" then Some(Dict(PredictionDict(c.prediction)))
    else if key == "code" then Some(Dict(CodeDict(c.code)))
    else TopField(c, key)
  }

  /** The last four entries of `to_dict` are the top-level settings. */
  lemma ToDictSettings(c: ReplicateConfig, k: string)
    ensures Lookup(ToDict(c)[4..], k) == TopField(c, k)
  {
    var d := ToDict(c);
    assert d[8..] == [];
    assert Lookup(d[7..], k) == if k == "cache_ttl" then Some(d[7].1) else Lookup(d[8..], k);
    assert Lookup(d[6..], k) == if k == "cache_enabled" then Some(d[6].1) else Lookup(d[7..], k);
    assert Lookup(d[5..], k) == if k == "log_level" then Some(d[5].1) else Lookup(d[6..], k);
    assert Lookup(d[4..], k) == if k == "debug" then Some(d[4].1) else Lookup(d[5..], k);
  }

  /** `to_dict` holds each section under its name and the four settings at top level. */
  lemma ToDictTop(c: ReplicateConfig, k: string)
    ensures Lookup(ToDict(c), k) == TopEntry(c, k)
  {
    var d := ToDict(c);
    ToDictSettings(c, k);
    assert Lookup(d[3..], k) == if k == "code" then Some(d[3].1) else Lookup(d[4..], k);
    assert Lookup(d[2..], k) == if k == "prediction" then Some(d[2].1) else Lookup(d[3..], k);
    assert Lookup(d[1..], k) == if k == "model" then Some(d[1].1) else Lookup(d[2..], k);
  }

  /** `to_dict` maps every attribute to an entry with the same value under its
      section's key. */
  lemma ToDictFields(c: ReplicateConfig, section: string, key: string)
    requires section in ["api", "model", "prediction", "code"]
    ensures Lookup(ToDict(c), section).Some? && Lookup(ToDict(c), section).value.Dict?
    ensures Lookup(Lookup(ToDict(c), section).value.entries, key) == SectionField(c, section, key)
  {
    if section == "api" {
      assert Lookup(ToDict(c), "api") == Some(Dict(ApiDict(c.api))) by { ToDictTop(c, "api"); }
      ApiDictFields(c.api, key);
    } else if section == "model" {
      assert Lookup(ToDict(c), "model") == Some(Dict(ModelDict(c.model))) by { ToDictTop(c, "model"); }
      ModelDictFields(c.model, key);
    } else if section == "prediction" {
      assert Lookup(ToDict(c), "prediction") == Some(Dict(PredictionDict(c.prediction))) by {
        ToDictTop(c, "prediction");
      }
      PredictionDictFields(c.prediction, key);
    } else {
      assert section == "code";
      assert Lookup(ToDict(c), "code") == Some(Dict(CodeDict(c.code))) by { ToDictTop(c, "code"); }
      CodeDictFields(c.code, key);
    }
  }

  /** The inverse of `to_dict`: reads a configuration back from its dict. */
  function FromDict(d: Entries): (r: Option<ReplicateConfig>) {
    var api := ApiFromDict(Get(d, "api"));
    var model := ModelFromDict(Get(d, "model"));
    var prediction := PredictionFromDict(Get(d, "prediction"));
    var code := CodeFromDict(Get(d, "code"));
    var debug := Get(d, "debug");
    var logLevel := Get(d, "log_level");
    var cacheEnabled := Get(d, "cache_enabled");
    var cacheTtl := Get(d, "cache_ttl");
    if api.Some? && model.Some? && prediction.Some? && code.Some? &&
       debug.Bool? && logLevel.Str? && cacheEnabled.Bool? && cacheTtl.Int?
    then Some(ReplicateConfig(api.value, model.value, prediction.value, code.value,
                              debug.b, logLevel.s, cacheEnabled.b, cacheTtl.i))
    else None
  }

  lemma ApiFromGets(d: Entries, a: ReplicateAPIConfig)
    requires Get(d, "base_url") == Str(a.baseUrl) && Get(d, "timeout") == Int(a.timeout)
    requires Get(d, "max_retries") == Int(a.maxRetries) && Get(d, "retry_delay") == Float(a.retryDelay)
    requires Get(d, "max_retry_delay") == Float(a.maxRetryDelay) && Get(d, "backoff_factor") == Float(a.backoffFactor)
    ensures ApiFromDict(Dict(d)) == Some(a)
  {
  }

  lemma ModelFromGets(d: Entries, m: ReplicateModelConfig)
    requires Get(d, "default_model") == Str(m.defaultModel) && Get(d, "code_generation_model") == Str(m.codeGenerationModel)
    requires Get(d, "text_generation_model") == Str(m.textGenerationModel)
    requires Get(d, "image_generation_model") == Str(m.imageGenerationModel)
    requires Get(d, "max_tokens") == Int(m.maxTokens) && Get(d, "temperature") == Float(m.temperature)
    requires Get(d, "top_p") == Float(m.topP)
    ensures ModelFromDict(Dict(d)) == Some(m)
  {
  }

  function ApiFromDict(v: Value): Option<ReplicateAPIConfig> {
    if !v.Dict? then None
    else
      var baseUrl := Get(v.entries, "base_url");
      var timeout := Get(v.entries, "timeout");
      var maxRetries := Get(v.entries, "max_retries");
      var retryDelay := AsReal(Get(v.entries, "retry_delay"));
      var maxRetryDelay := AsReal(Get(v.entries, "max_retry_delay"));
      var backoffFactor := AsReal(Get(v.entries, "backoff_factor"));
      if baseUrl.Str? && timeout.Int? && maxRetries.Int? && retryDelay.Some? && maxRetryDelay.Some? && backoffFactor.Some?
      then Some(ReplicateAPIConfig(baseUrl.s, timeout.i, maxRetries.i, retryDelay.value, maxRetryDelay.value, backoffFactor.value))
      else None
  }

  function ModelFromDict(v: Value): Option<ReplicateModelConfig> {
    if !v.Dict? then None
    else
      var defaultModel := Get(v.entries, "default_model");
      var codeModel := Get(v.entries, "code_generation_model");
      var textModel := Get(v.entries, "text_generation_model");
      var imageModel := Get(v.entries, "image_generation_model");
      var maxTokens := Get(v.entries, "max_tokens");
      var temperature := AsReal(Get(v.entries, "temperature"));
      var topP := AsReal(Get(v.entries, "top_p"));
      if defaultModel.Str? && codeModel.Str? && textModel.Str? && imageModel.Str? && maxTokens.Int? &&
         temperature.Some? && topP.Some?
      then Some(ReplicateModelConfig(defaultModel.s, codeModel.s, textModel.s, imageModel.s, maxTokens.i,
                                     temperature.value, topP.value))
      else None
  }

  function PredictionFromDict(v: Value): Option<ReplicatePredictionConfig> {
    if !v.Dict? then None
    else
      var events := AsStrs(Get(v.entries, "default_webhook_events"));
      var maxTime := Get(v.entries, "max_prediction_time");
      var interval := AsReal(Get(v.entries, "polling_interval"));
      var attempts := Get(v.entries, "max_polling_attempts");
      if events.Some? && maxTime.Int? && interval.Some? && attempts.Int?
      then Some(ReplicatePredictionConfig(events.value, maxTime.i, interval.value, attempts.i))
      else None
  }

  function CodeFromDict(v: Value): Option<ReplicateCodeConfig> {
    if !v.Dict? then None
    else
      var languages := AsStrs(Get(v.entries, "supported_languages"));
      var language := Get(v.entries, "default_language");
      var goals := AsStrs(Get(v.entries, "code_optimization_goals"));
      var images := AsPairs(Get(v.entries, "dockerfile_base_images"));
      if languages.Some? && language.Str? && goals.Some? && images.Some?
      then Some(ReplicateCodeConfig(languages.value, language.s, goals.value, images.value))
      else None
  }

  lemma {:induction false} StrsRoundTrip(l: seq<string>)
    ensures AsStrs(StrsValue(l)) == Some(l)
  {
    var v := StrsValue(l);
    assert forall i :: 0 <= i < |v.items| ==> v.items[i] == Str(l[i]);
    var w := seq(|v.items|, i requires 0 <= i < |v.items| => v.items[i].s);
    assert w == l;
  }

  lemma {:induction false} PairsRoundTrip(m: seq<(string, string)>)
    ensures AsPairs(PairsValue(m)) == Some(m)
  {
    var v := PairsValue(m);
    assert forall i :: 0 <= i < |v.entries| ==> v.entries[i] == (m[i].0, Str(m[i].1));
    var w := seq(|v.entries|, i requires 0 <= i < |v.entries| => (v.entries[i].0, v.entries[i].1.s));
    assert w == m;
  }

  lemma ApiRoundTrip(a: ReplicateAPIConfig)
    ensures ApiFromDict(Dict(ApiDict(a))) == Some(a)
  {
    ApiDictFields(a, "base_url");
    ApiDictFields(a, "timeout");
    ApiDictFields(a, "max_retries");
    ApiDictFields(a, "retry_delay");
    ApiDictFields(a, "max_retry_delay");
    ApiDictFields(a, "backoff_factor");
    var d := ApiDict(a);
    assert Get(d, "base_url") == Str(a.baseUrl) && Get(d, "timeout") == Int(a.timeout);
    assert Get(d, "max_retries") == Int(a.maxRetries) && Get(d, "retry_delay") == Float(a.retryDelay);
    assert Get(d, "max_retry_delay") == Float(a.maxRetryDelay) && Get(d, "backoff_factor") == Float(a.backoffFactor);
    ApiFromGets(d, a);
  }

  lemma ModelRoundTrip(m: ReplicateModelConfig)
    ensures ModelFromDict(Dict(ModelDict(m))) == Some(m)
  {
    ModelDictFields(m, "default_model");
    ModelDictFields(m, "code_generation_model");
    ModelDictFields(m, "text_generation_model");
    ModelDictFields(m, "image_generation_model");
    ModelDictFields(m, "max_tokens");
    ModelDictFields(m, "temperature");
    ModelDictFields(m, "top_p");
    var d := ModelDict(m);
    assert Get(d, "default_model") == Str(m.defaultModel) && Get(d, "code_generation_model") == Str(m.codeGenerationModel);
    assert Get(d, "text_generation_model") == Str(m.textGenerationModel);
    assert Get(d, "image_generation_model") == Str(m.imageGenerationModel);
    assert Get(d, "max_tokens") == Int(m.maxTokens) && Get(d, "temperature") == Float(m.temperature);
    assert Get(d, "top_p") == Float(m.topP);
    ModelFromGets(d, m);
  }

  lemma PredictionRoundTrip(p: ReplicatePredictionConfig)
    ensures PredictionFromDict(Dict(PredictionDict(p))) == Some(p)
  {
    var d := PredictionDict(p);
    assert AsStrs(Get(d, "default_webhook_events")) == Some(p.defaultWebhookEvents) by {
      PredictionDictFields(p, "default_webhook_events");
      StrsRoundTrip(p.defaultWebhookEvents);
    }
    assert Get(d, "max_prediction_time") == Int(p.maxPredictionTime) by {
      PredictionDictFields(p, "max_prediction_time");
    }
    assert Get(d, "polling_interval") == Float(p.pollingInterval) by {
      PredictionDictFields(p, "polling_interval");
    }
    assert Get(d, "max_polling_attempts") == Int(p.maxPollingAttempts) by {
      PredictionDictFields(p, "max_polling_attempts");
    }
    PredictionFromGets(d, p);
  }

  lemma PredictionFromGets(d: Entries, p: ReplicatePredictionConfig)
    requires AsStrs(Get(d, "default_webhook_events")) == Some(p.defaultWebhookEvents)
    requires Get(d, "max_prediction_time") == Int(p.maxPredictionTime)
    requires Get(d, "polling_interval") == Float(p.pollingInterval)
    requires Get(d, "max_polling_attempts") == Int(p.maxPollingAttempts)
    ensures PredictionFromDict(Dict(d)) == Some(p)
  {
  }

  lemma CodeRoundTrip(c: ReplicateCodeConfig)
    ensures CodeFromDict(Dict(CodeDict(c))) == Some(c)
  {
    CodeDictFields(c, "supported_languages");
    CodeDictFields(c, "default_language");
    CodeDictFields(c, "code_optimization_goals");
    CodeDictFields(c, "dockerfile_base_images");
    StrsRoundTrip(c.supportedLanguages);
    StrsRoundTrip(c.codeOptimizationGoals);
    PairsRoundTrip(c.dockerfileBaseImages);
  }

  /** `to_dict` loses nothing: the configuration can be read back from it. */
  lemma {:induction false} ToDictRoundTrip(c: ReplicateConfig)
    ensures FromDict(ToDict(c)) == Some(c)
  {
    ToDictTop(c, "api");
    ToDictTop(c, "model");
    ToDictTop(c, "prediction");
    ToDictTop(c, "code");
    ToDictTop(c, "debug");
    ToDictTop(c, "log_level");
    ToDictTop(c, "cache_enabled");
    ToDictTop(c, "cache_ttl");
    ApiRoundTrip(c.api);
    ModelRoundTrip(c.model);
    PredictionRoundTrip(c.prediction);
    CodeRoundTrip(c.code);
  }

  // ---------------------------------------------------------------- from_env

  /** `os.getenv(name)` when it is truthy: set and not empty. */
  function Getenv(env: map<string, string>, name: string): (r: Option<string>)
    ensures r.Some? <==> name in env && env[name] != ""
  {
    if name in env && env[name] != "" then Some(env[name]) else None
  }

  /** The variable `name` is set and `parse` rejects its text. */
  predicate Unparsable<T>(env: map<string, string>, name: string, parse: string -> Option<T>) {
    Getenv(env, name).Some? && parse(env[name]).None?
  }

  /** An integer setting read with `int(...)`: the parser is a parameter, and
      a string it rejects raises ValueError. */
  function EnvInt(env: map<string, string>, name: string, parseInt: string -> Option<int>, default: int): Result<int, string> {
    match Getenv(env, name)
    case None => Success(default)
    case Some(s) =>
      match parseInt(s)
      case Some(n) => Success(n)
      case None => Failure("invalid literal for int() with base 10: '" + s + "'")
  }

  function EnvFloat(env: map<string, string>, name: string, parseFloat: string -> Option<real>, default: real): Result<real, string> {
    match Getenv(env, name)
    case None => Success(default)
    case Some(s) =>
      match parseFloat(s)
      case Some(x) => Success(x)
      case None => Failure("could not convert string to float: '" + s + "'")
  }

  function EnvStr(env: map<string, string>, name: string, default: string): string {
    match Getenv(env, name)
    case None => default
    case Some(s) => s
  }

  /** `os.getenv(name).lower() == "true"`, taken only when the variable is set. */
  function EnvBool(env: map<string, string>, name: string, default: bool): bool {
    match Getenv(env, name)
    case None => default
    case Some(s) => Lower(s) == "true"
  }

  /** `ReplicateConfig.from_env()` over the environment `env`. The numeric
      variables are parsed in the order the source reads them. */
  function FromEnv(env: map<string, string>, parseInt: string -> Option<int>, parseFloat: string -> Option<real>)
    : (r: Result<ReplicateConfig, string>)
    ensures env == map[] ==> r == Success(DEFAULT_CONFIG)
    ensures r.Success? ==>
      (r.value.debug <==> "REPLICATE_DEBUG" in env && Lower(env["REPLICATE_DEBUG"]) == "true")
    ensures r.Success? ==>
      (r.value.cacheEnabled <==> Getenv(env, "REPLICATE_CACHE_ENABLED").None? ||
                                 Lower(env["REPLICATE_CACHE_ENABLED"]) == "true")
    ensures r.Success? ==> r.value.api.baseUrl == EnvStr(env, "REPLICATE_BASE_URL", DEFAULT_API.baseUrl)
    ensures r.Success? ==> r.value.model.defaultModel == EnvStr(env, "REPLICATE_DEFAULT_MODEL", DEFAULT_MODEL.defaultModel) &&
                           r.value.model.codeGenerationModel == EnvStr(env, "REPLICATE_CODE_MODEL", DEFAULT_MODEL.codeGenerationModel) &&
                           r.value.logLevel == EnvStr(env, "REPLICATE_LOG_LEVEL", DEFAULT_CONFIG.logLevel)
    ensures r.Success? ==>
      r.value.model.textGenerationModel == DEFAULT_MODEL.textGenerationModel &&
      r.value.model.imageGenerationModel == DEFAULT_MODEL.imageGenerationModel &&
      r.value.model.topP == DEFAULT_MODEL.topP && r.value.prediction == DEFAULT_PREDICTION &&
      r.value.code == DEFAULT_CODE && r.value.api.retryDelay == DEFAULT_API.retryDelay &&
      r.value.api.maxRetryDelay == DEFAULT_API.maxRetryDelay && r.value.api.backoffFactor == DEFAULT_API.backoffFactor
    ensures r.Failure? <==>
      Unparsable(env, "REPLICATE_TIMEOUT", parseInt) || Unparsable(env, "REPLICATE_MAX_RETRIES", parseInt) ||
      Unparsable(env, "REPLICATE_MAX_TOKENS", parseInt) || Unparsable(env, "REPLICATE_TEMPERATURE", parseFloat) ||
      Unparsable(env, "REPLICATE_CACHE_TTL", parseInt)
  {
    var timeout := EnvInt(env, "REPLICATE_TIMEOUT", parseInt, DEFAULT_API.timeout);
    var maxRetries := EnvInt(env, "REPLICATE_MAX_RETRIES", parseInt, DEFAULT_API.maxRetries);
    var maxTokens := EnvInt(env, "REPLICATE_MAX_TOKENS", parseInt, DEFAULT_MODEL.maxTokens);
    var temperature := EnvFloat(env, "REPLICATE_TEMPERATURE", parseFloat, DEFAULT_MODEL.temperature);
    var cacheTtl := EnvInt(env, "REPLICATE_CACHE_TTL", parseInt, DEFAULT_CONFIG.cacheTtl);
    if timeout.Failure? then Failure(timeout.error)
    else if maxRetries.Failure? then Failure(maxRetries.error)
    else if maxTokens.Failure? then Failure(maxTokens.error)
    else if temperature.Failure? then Failure(temperature.error)
    else if cacheTtl.Failure? then Failure(cacheTtl.error)
    else
      var api := DEFAULT_API.(baseUrl := EnvStr(env, "REPLICATE_BASE_URL", DEFAULT_API.baseUrl),
                              timeout := timeout.value, maxRetries := maxRetries.value);
      var model := DEFAULT_MODEL.(defaultModel := EnvStr(env, "REPLICATE_DEFAULT_MODEL", DEFAULT_MODEL.defaultModel),
                                  codeGenerationModel := EnvStr(env, "REPLICATE_CODE_MODEL", DEFAULT_MODEL.codeGenerationModel),
                                  maxTokens := maxTokens.value, temperature := temperature.value);
      Success(DEFAULT_CONFIG.(api := api, model := model,
                              debug := EnvBool(env, "REPLICATE_DEBUG", DEFAULT_CONFIG.debug),
                              logLevel := EnvStr(env, "REPLICATE_LOG_LEVEL", DEFAULT_CONFIG.logLevel),
                              cacheEnabled := EnvBool(env, "REPLICATE_CACHE_ENABLED", DEFAULT_CONFIG.cacheEnabled),
                              cacheTtl := cacheTtl.value))
  }

  /** An integer variable that parses is taken as is; one that is unset or
      empty leaves the default. */
  lemma FromEnvIntegers(env: map<string, string>, parseInt: string -> Option<int>, parseFloat: string -> Option<real>)
    requires FromEnv(env, parseInt, parseFloat).Success?
    ensures var c := FromEnv(env, parseInt, parseFloat).value;
      c.api.timeout == EnvInt(env, "REPLICATE_TIMEOUT", parseInt, 30).value &&
      c.api.maxRetries == EnvInt(env, "REPLICATE_MAX_RETRIES", parseInt, 3).value &&
      c.model.maxTokens == EnvInt(env, "REPLICATE_MAX_TOKENS", parseInt, 2000).value &&
      c.model.temperature == EnvFloat(env, "REPLICATE_TEMPERATURE", parseFloat, 0.1).value &&
      c.cacheTtl == EnvInt(env, "REPLICATE_CACHE_TTL", parseInt, 3600).value
  {
  }

  /** `get_config(use_env)`: `ENV_CONFIG`, built by `from_env` when the module
      is imported (an import that fails on a bad variable never reaches this
      call), or the defaults. */
  function GetConfig(useEnv: bool, env: map<string, string>, parseInt: string -> Option<int>,
                     parseFloat: string -> Option<real>): (r: ReplicateConfig)
    requires FromEnv(env, parseInt, parseFloat).Success?
    ensures !useEnv ==> r == DEFAULT_CONFIG
    ensures useEnv ==> r == FromEnv(env, parseInt, parseFloat).value
    ensures env == map[] ==> r == DEFAULT_CONFIG
  {
    if useEnv then FromEnv(env, parseInt, parseFloat).value else DEFAULT_CONFIG
  }

  /** Without the environment, `get_config` hands out a configuration that
      passes `validate_config`. */
  lemma GetConfigValid(useEnv: bool, env: map<string, string>, parseInt: string -> Option<int>,
                       parseFloat: string -> Option<real>)
    requires FromEnv(env, parseInt, parseFloat).Success?
    requires !useEnv || env == map[]
    ensures ValidateConfig(GetConfig(useEnv, env, parseInt, parseFloat))
  {
    DefaultConfigValid();
  }
}
