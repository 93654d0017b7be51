/** The authentication client: construction from a token, token validation,
    the success/error result objects, and the popularity ranking of models. */
module ReplicateAuth {
  import opened Python
  import opened Http

  const USER_AGENT: string := "SwiftaskAgent/1.0"

  const AUTH_TOKEN_REQUIRED: string :=
    "Replicate API token is required. Set REPLICATE_API_TOKEN environment variable or pass api_token parameter."

  /** A constructed authentication client; its fields are set once. */
  datatype AuthClient = AuthClient(apiToken: string, baseUrl: string, headers: Headers)

  /** `ReplicateAuthClient(api_token)`: the argument, else the environment's
      token; a `ValueError` when neither is truthy. The headers carry the
      token and a fixed User-Agent. */
  function NewAuthClient(apiToken: Option<string>, env: Option<string>): (r: Result<AuthClient, string>)
    ensures r.Failure? <==> (apiToken.None? || apiToken.value == "") && (env.None? || env.value == "")
    ensures r.Failure? ==> r.error == AUTH_TOKEN_REQUIRED
    ensures r.Success? && apiToken.Some? && apiToken.value != "" ==> r.value.apiToken == apiToken.value
    ensures r.Success? && (apiToken.None? || apiToken.value == "") ==> r.value.apiToken == env.value
    ensures r.Success? ==> r.value.baseUrl == API_BASE && |r.value.headers| == 3 &&
                           r.value.headers[0] == ("Authorization", "Token " + r.value.apiToken) &&
                           r.value.headers[2] == ("User-Agent", USER_AGENT)
  {
    var token := Or(OptStr(apiToken), OptStr(env));
    if !Truthy(token) then Failure(AUTH_TOKEN_REQUIRED)
    else
      var t := token.s;
      Success(AuthClient(t, API_BASE, [("Authorization", "Token " + t), ("Content-Type", "application/json"),
                                       ("User-Agent", USER_AGENT)]))
  }

  /** The probe `validate_token` sends: one model. */
  function ProbeRequest(c: AuthClient): Request {
    Request(GET, c.baseUrl + "/models", c.headers, [("limit", Int(1))], None)
  }

  /** `validate_token`: true exactly for a 200 answer; an exception (no
      response) gives false. */
  function ValidateToken(probe: Option<Response>): (ok: bool)
    ensures ok <==> probe.Some? && probe.value.status == 200
  {
    match probe
    case None => false
    case Some(r) => r.status == 200
  }

  /** `validate_replicate_token`: false when no client can be built. */
  function ValidateReplicateToken(token: string, env: Option<string>, probe: Option<Response>): (ok: bool)
    ensures ok <==> (token != "" || (env.Some? && env.value != "")) && probe.Some? && probe.value.status == 200
  {
    match NewAuthClient(Some(token), env)
    case Failure(_) => false
    case Success(_) => ValidateToken(probe)
  }

  // ---------------------------------------------------------------- result objects

  const SUCCESS_KEY: string := "success"

  /** `{"success": False, "error": message}`. */
  function ErrorResult(message: string): Entries {
    [(SUCCESS_KEY, Bool(false)), ("error", Str(message))]
  }

  /** The error text of an unexpected status: `"HTTP {code}: {text}"`. */
  function HttpError(resp: Response): string {
    "HTTP " + IntToString(resp.status) + ": " + resp.text
  }

  /** The result object of `get_account_info`, `get_model_info`,
      `get_prediction` (expecting 200) and `create_prediction` (expecting
      201). `answer` is the response, or the text of the exception the
      request raised. */
  function ResultObject(answer: Result<Response, string>, expected: int): (r: Entries)
    ensures Get(r, SUCCESS_KEY) == Bool(answer.Success? && answer.value.status == expected)
    ensures answer.Success? && answer.value.status == expected ==>
              Keys(r) == [SUCCESS_KEY, "data"] && Get(r, "data") == Dict(answer.value.body)
    ensures answer.Success? && answer.value.status != expected ==>
              Keys(r) == [SUCCESS_KEY, "error"] && Get(r, "error") == Str(HttpError(answer.value))
    ensures answer.Failure? ==> Keys(r) == [SUCCESS_KEY, "error"] && Get(r, "error") == Str(answer.error)
  {
    match answer
    case Failure(e) => ErrorResult(e)
    case Success(resp) =>
      if resp.status == expected then [(SUCCESS_KEY, Bool(true)), ("data", Dict(resp.body))]
      else ErrorResult(HttpError(resp))
  }

  function AccountRequest(c: AuthClient): Request {
    Request(GET, c.baseUrl + "/account", c.headers, [], None)
  }

  function ModelInfoRequest(c: AuthClient, owner: string, name: string): Request {
    Request(GET, c.baseUrl + "/models/" + owner + "/" + name, c.headers, [], None)
  }

  function PredictionRequest(c: AuthClient, predictionId: string): Request {
    Request(GET, c.baseUrl + "/predictions/" + predictionId, c.headers, [], None)
  }

  /** `create_prediction` posts exactly the version and the input. */
  function CreatePredictionRequest(c: AuthClient, modelVersion: string, inputData: Entries): (r: Request)
    ensures r.verb == POST && r.json.Some? && r.json.value.Dict?
    ensures Keys(r.json.value.entries) == ["version", "input"]
    ensures Get(r.json.value.entries, "version") == Str(modelVersion)
    ensures Get(r.json.value.entries, "input") == Dict(inputData)
  {
    Request(POST, c.baseUrl + "/predictions", c.headers, [],
            Some(Dict([("version", Str(modelVersion)), ("input", Dict(inputData))])))
  }

  /** How the probe of `test_connection` can fail instead of answering. */
  datatype ProbeFault = ProbeTimeout | ProbeUnreachable | ProbeRaised(message: string)

  const CONNECTED: string := "Successfully connected to Replicate API"
  const TIMEOUT_ERROR: string := "Connection timeout - Replicate API is not responding"
  const UNREACHABLE_ERROR: string := "Connection error - Unable to reach Replicate API"
  const UNEXPECTED: string := "Unexpected error: "

  /** `test_connection`: on 200 the number of results the probe returned and
      the two rate-limit headers (`remaining`, `reset`); otherwise the error
      object of the status or of the fault. */
  function TestConnection(answer: Result<Response, ProbeFault>, remaining: Option<string>, reset: Option<string>)
    : (r: Entries)
    ensures Get(r, SUCCESS_KEY).Bool?
    ensures Get(r, SUCCESS_KEY).b ==>
              answer.Success? && answer.value.status == 200 &&
              Iterate(DictGet(answer.value.body, "results", List([]))).Some? &&
              Get(r, "models_available") == Int(|Iterate(DictGet(answer.value.body, "results", List([]))).value|) &&
              Get(r, "rate_limit_remaining") == OptStr(remaining) && Get(r, "rate_limit_reset") == OptStr(reset)
    ensures answer.Success? && answer.value.status == 200 &&
            DictGet(answer.value.body, "results", List([])).List? ==>
              Get(r, SUCCESS_KEY).b &&
              Get(r, "models_available") == Int(|DictGet(answer.value.body, "results", List([])).items|)
    ensures answer.Success? && answer.value.status != 200 ==> r == ErrorResult(HttpError(answer.value))
    ensures answer.Success? && answer.value.status == 200 &&
            Iterate(DictGet(answer.value.body, "results", List([]))).None? ==>
              r == ErrorResult(UNEXPECTED + LenError(DictGet(answer.value.body, "results", List([]))))
    ensures answer.Failure? ==> !Get(r, SUCCESS_KEY).b && Get(r, "error").Str?
    ensures answer == Failure(ProbeTimeout) ==> r == ErrorResult(TIMEOUT_ERROR)
    ensures answer == Failure(ProbeUnreachable) ==> r == ErrorResult(UNREACHABLE_ERROR)
    ensures answer.Failure? && answer.error.ProbeRaised? ==> r == ErrorResult(UNEXPECTED + answer.error.message)
  {
    match answer
    case Failure(ProbeTimeout) => ErrorResult(TIMEOUT_ERROR)
    case Failure(ProbeUnreachable) => ErrorResult(UNREACHABLE_ERROR)
    case Failure(ProbeRaised(m)) => ErrorResult(UNEXPECTED + m)
    case Success(resp) =>
      if resp.status != 200 then ErrorResult(HttpError(resp))
      else
        var results := DictGet(resp.body, "results", List([]));
        match Iterate(results)
        case None => ErrorResult(UNEXPECTED + LenError(results))
        case Some(items) => ConnectedResult(|items|, remaining, reset)
  }

  /** The answer of a probe answered with 200. */
  function ConnectedResult(count: int, remaining: Option<string>, reset: Option<string>): (r: Entries)
    ensures Get(r, SUCCESS_KEY) == Bool(true) && Get(r, "models_available") == Int(count)
    ensures Get(r, "rate_limit_remaining") == OptStr(remaining) && Get(r, "rate_limit_reset") == OptStr(reset)
  {
    var r := [(SUCCESS_KEY, Bool(true)), ("message", Str(CONNECTED)), ("models_available", Int(count)),
              ("rate_limit_remaining", OptStr(remaining)), ("rate_limit_reset", OptStr(reset))];
    assert DistinctKeys(r);
    LookupDistinct(r, 2);
    LookupDistinct(r, 3);
    LookupDistinct(r, 4);
    r
  }

  // ---------------------------------------------------------------- list_popular_models

  /** `x.get("run_count", 0)` as the number Python compares: an int, a float
      or a bool (which compares as 0 or 1). Other values are not ranked here. */
  function RunCount(m: Entries): real {
    match DictGet(m, "run_count", Int(0))
    case Int(n) => n as real
    case Float(x) => x
    case Bool(b) => if b then 1.0 else 0.0
    case _ => 0.0
  }

  /** The run count is a number. */
  predicate NumericRunCount(m: Entries) {
    var v := DictGet(m, "run_count", Int(0));
    v.Int? || v.Float? || v.Bool?
  }

  /** Run counts the ranking can order: numbers, or a single model, which
      `sorted` never compares. */
  predicate ComparableRunCounts(models: seq<Entries>) {
    |models| <= 1 || forall i :: 0 <= i < |models| ==> NumericRunCount(models[i])
  }

  /** Non-increasing by `key`. */
  predicate SortedBy<T>(s: seq<T>, key: T -> real) {
    forall i, j :: 0 <= i < j < |s| ==> key(s[i]) >= key(s[j])
  }

  /** Places `x` after every element whose key is at least its own. */
  function Insert<T>(x: T, s: seq<T>, key: T -> real): (r: seq<T>)
    ensures |r| == |s| + 1
  {
    if s == [] then [x]
    else if key(s[0]) >= key(x) then [s[0]] + Insert(x, s[1..], key)
    else [x] + s
  }

  /** `sorted(s, key=key, reverse=True)`, by insertion from the left. */
  function SortBy<T>(s: seq<T>, key: T -> real): (r: seq<T>)
    ensures |r| == |s|
  {
    if s == [] then [] else Insert(s[|s| - 1], SortBy(s[..|s| - 1], key), key)
  }

  /** The elements whose key is `v`, in their order. */
  function WithKey<T>(s: seq<T>, key: T -> real, v: real): seq<T> {
    if s == [] then [] else (if key(s[0]) == v then [s[0]] else []) + WithKey(s[1..], key, v)
  }

  lemma SortedTail<T>(s: seq<T>, key: T -> real)
    requires s != [] && SortedBy(s, key)
    ensures SortedBy(s[1..], key)
  {
    forall i, j | 0 <= i < j < |s[1..]| ensures key(s[1..][i]) >= key(s[1..][j]) {
      assert s[1..][i] == s[i + 1] && s[1..][j] == s[j + 1];
    }
  }

  lemma {:induction false} InsertSorted<T>(x: T, s: seq<T>, key: T -> real)
    requires SortedBy(s, key)
    ensures SortedBy(Insert(x, s, key), key)
  {
    if s != [] && key(s[0]) >= key(x) {
      SortedTail(s, key);
      InsertSorted(x, s[1..], key);
      InsertMultiset(x, s[1..], key);
      InsertSortedStep(x, s, Insert(x, s[1..], key), key);
      assert Insert(x, s, key) == [s[0]] + Insert(x, s[1..], key);
    }
  }

  /** The step of `InsertSorted` past an element whose key is at least that of `x`. */
  lemma InsertSortedStep<T>(x: T, s: seq<T>, t: seq<T>, key: T -> real)
    requires s != [] && key(s[0]) >= key(x) && SortedBy(s, key) && SortedBy(t, key)
    requires multiset(t) == multiset(s[1..]) + multiset{x}
    ensures SortedBy([s[0]] + t, key)
  {
    var r := [s[0]] + t;
    forall k | 0 <= k < |t| ensures key(s[0]) >= key(t[k]) {
      assert t[k] in multiset(t);
      if t[k] != x {
        assert t[k] in multiset(s[1..]);
        var j :| 0 <= j < |s[1..]| && s[1..][j] == t[k];
        assert s[j + 1] == t[k];
      }
    }
    forall i, j | 0 <= i < j < |r| ensures key(r[i]) >= key(r[j]) {
      assert r[j] == t[j - 1];
      if i > 0 {
        assert r[i] == t[i - 1];
      }
    }
  }

  lemma {:induction false} InsertMultiset<T>(x: T, s: seq<T>, key: T -> real)
    ensures multiset(Insert(x, s, key)) == multiset(s) + multiset{x}
  {
    if s != [] && key(s[0]) >= key(x) {
      InsertMultiset(x, s[1..], key);
      assert s == [s[0]] + s[1..];
    }
  }

  lemma {:induction false} WithKeyAppend<T>(a: seq<T>, b: seq<T>, key: T -> real, v: real)
    ensures WithKey(a + b, key, v) == WithKey(a, key, v) + WithKey(b, key, v)
  {
    if a == [] {
      assert a + b == b;
    } else {
      var h := if key(a[0]) == v then [a[0]] else [];
      assert (a + b)[0] == a[0] && (a + b)[1..] == a[1..] + b;
      WithKeyAppend(a[1..], b, key, v);
      assert WithKey(a + b, key, v) == h + (WithKey(a[1..], key, v) + WithKey(b, key, v));
      assert WithKey(a, key, v) == h + WithKey(a[1..], key, v);
    }
  }

  lemma {:induction false} WithKeyNone<T>(s: seq<T>, key: T -> real, v: real)
    requires forall i :: 0 <= i < |s| ==> key(s[i]) < v
    ensures WithKey(s, key, v) == []
  {
    if s != [] {
      WithKeyNone(s[1..], key, v);
    }
  }

  lemma WithKeyCons<T>(e: T, t: seq<T>, key: T -> real, v: real)
    ensures WithKey([e] + t, key, v) == (if key(e) == v then [e] else []) + WithKey(t, key, v)
  {
    assert ([e] + t)[0] == e && ([e] + t)[1..] == t;
  }

  /** Inserting keeps the order among equal keys and puts `x` last among them. */
  lemma {:induction false} InsertStable<T>(x: T, s: seq<T>, key: T -> real, v: real)
    requires SortedBy(s, key)
    ensures WithKey(Insert(x, s, key), key, v) == WithKey(s, key, v) + (if key(x) == v then [x] else [])
  {
    if s == [] {
      assert WithKey([x], key, v) == if key(x) == v then [x] else [];
    } else if key(s[0]) >= key(x) {
      SortedTail(s, key);
      InsertStable(x, s[1..], key, v);
      InsertStableStep(x, s, key, v);
    } else {
      assert Insert(x, s, key) == [x] + s;
      WithKeyCons(x, s, key, v);
      if key(x) == v {
        WithKeyNone(s, key, v);
      }
    }
  }

  /** The step of `InsertStable` past an element whose key is at least that of `x`. */
  lemma InsertStableStep<T>(x: T, s: seq<T>, key: T -> real, v: real)
    requires s != [] && key(s[0]) >= key(x)
    requires WithKey(Insert(x, s[1..], key), key, v) == WithKey(s[1..], key, v) + (if key(x) == v then [x] else [])
    ensures WithKey(Insert(x, s, key), key, v) == WithKey(s, key, v) + (if key(x) == v then [x] else [])
  {
    var last := if key(x) == v then [x] else [];
    var h := if key(s[0]) == v then [s[0]] else [];
    assert Insert(x, s, key) == [s[0]] + Insert(x, s[1..], key);
    WithKeyCons(s[0], Insert(x, s[1..], key), key, v);
    WithKeyCons(s[0], s[1..], key, v);
    assert s == [s[0]] + s[1..];
    assert WithKey(Insert(x, s, key), key, v) == h + (WithKey(s[1..], key, v) + last);
    assert WithKey(s, key, v) == h + WithKey(s[1..], key, v);
  }

  /** The ranking is non-increasing and a permutation of its input. */
  lemma {:induction false} SortSorted<T>(s: seq<T>, key: T -> real)
    ensures SortedBy(SortBy(s, key), key)
    ensures multiset(SortBy(s, key)) == multiset(s)
  {
    if s != [] {
      var p := s[..|s| - 1];
      SortSorted(p, key);
      InsertSorted(s[|s| - 1], SortBy(p, key), key);
      InsertMultiset(s[|s| - 1], SortBy(p, key), key);
      assert s == p + [s[|s| - 1]];
    }
  }

  /** The ranking is stable: elements with equal keys keep their relative order. */
  lemma {:induction false} SortStable<T>(s: seq<T>, key: T -> real, v: real)
    ensures WithKey(SortBy(s, key), key, v) == WithKey(s, key, v)
  {
    if s != [] {
      var p := s[..|s| - 1];
      var x := s[|s| - 1];
      var last := if key(x) == v then [x] else [];
      assert WithKey(SortBy(s, key), key, v) == WithKey(SortBy(p, key), key, v) + last by {
        assert SortBy(s, key) == Insert(x, SortBy(p, key), key);
        SortSorted(p, key);
        InsertStable(x, SortBy(p, key), key, v);
      }
      assert WithKey(s, key, v) == WithKey(p, key, v) + last by {
        assert s == p + [x];
        WithKeyAppend(p, [x], key, v);
        assert WithKey([x], key, v) == last;
      }
      SortStable(p, key, v);
    }
  }

  /** `s[:limit]`: a negative limit counts from the end. */
  function Prefix<T>(s: seq<T>, limit: int): (r: seq<T>)
    ensures limit >= 0 ==> |r| == if limit < |s| then limit else |s|
    ensures limit < 0 ==> |r| == if |s| + limit > 0 then |s| + limit else 0
    ensures r == s[..|r|]
  {
    if limit >= 0 then (if limit < |s| then s[..limit] else s)
    else if |s| + limit > 0 then s[..|s| + limit] else []
  }

  /** The `data` of `list_popular_models`. */
  function PopularModels(models: seq<Entries>, limit: int): seq<Entries> {
    Prefix(SortBy(models, RunCount), limit)
  }

  /** A prefix of a sorted sequence keeps its largest keys. */
  lemma PrefixTop<T>(s: seq<T>, key: T -> real, limit: int)
    requires SortedBy(s, key)
    ensures var r := Prefix(s, limit);
      SortedBy(r, key) && multiset(r) <= multiset(s) &&
      forall x, y :: x in r && y in multiset(s) - multiset(r) ==> key(x) >= key(y)
  {
    var r := Prefix(s, limit);
    var n := |r|;
    assert s == r + s[n..];
    assert multiset(s) == multiset(r) + multiset(s[n..]);
    forall x, y | x in r && y in multiset(s) - multiset(r) ensures key(x) >= key(y) {
      var i :| 0 <= i < n && r[i] == x;
      assert y in multiset(s[n..]);
      var j :| 0 <= j < |s[n..]| && s[n..][j] == y;
      assert s[i] == x && s[n + j] == y;
    }
  }

  /** The popular models are a prefix of the ranking: sorted, at most `limit`
      of them, drawn from the results, and never a less-run model kept while a
      more-run one is dropped. */
  lemma PopularModelsTop(models: seq<Entries>, limit: int)
    ensures var r := PopularModels(models, limit);
      SortedBy(r, RunCount) && multiset(r) <= multiset(models) &&
      (limit >= 0 ==> |r| <= limit) &&
      forall x, y :: x in r && y in multiset(models) - multiset(r) ==> RunCount(x) >= RunCount(y)
  {
    SortSorted(models, RunCount);
    PrefixTop(SortBy(models, RunCount), RunCount, limit);
  }

  /** Among the popular models, those with equal run counts appear in the
      order the results listed them, and are the first such results. */
  lemma PopularModelsStable(models: seq<Entries>, limit: int, v: real)
    ensures WithKey(PopularModels(models, limit), RunCount, v) <= WithKey(models, RunCount, v)
  {
    var sorted := SortBy(models, RunCount);
    var r := PopularModels(models, limit);
    assert sorted == r + sorted[|r|..];
    WithKeyAppend(r, sorted[|r|..], RunCount, v);
    SortStable(models, RunCount, v);
  }

  /** What `sorted` ranks: `data.get("results", [])` iterated, with the key
      called on every element before any comparison. The models when every
      element is a dict; else the TypeError of a value that is not iterable,
      or the AttributeError of `.get` on the first element that is no dict. */
  function RankedInput(body: Entries): (r: Result<seq<Entries>, string>)
    ensures var v := DictGet(body, "results", List([]));
      (r.Success? <==> Iterate(v).Some? && forall i :: 0 <= i < |Iterate(v).value| ==> Iterate(v).value[i].Dict?) &&
      (r.Success? ==> Iterate(v) == Some(Dicts(r.value))) &&
      (Iterate(v).None? ==> r == Failure(NotIterable(v))) &&
      (Iterate(v).Some? && r.Failure? ==>
         exists k :: 0 <= k < |Iterate(v).value| && NotDict(Iterate(v).value[k]) &&
           (forall j :: 0 <= j < k ==> Iterate(v).value[j].Dict?) && r.error == AttrError(Iterate(v).value[k], "get"))
  {
    var v := DictGet(body, "results", List([]));
    match Iterate(v)
    case None => Failure(NotIterable(v))
    case Some(items) =>
      if exists i :: 0 <= i < |items| && NotDict(items[i]) then
        var k := FirstIndex(items, NotDict);
        Failure(AttrError(items[k], "get"))
      else
        var ms := seq(|items|, i requires 0 <= i < |items| && items[i].Dict? => items[i].entries);
        assert Dicts(ms) == items;
        Success(ms)
  }

  /** `list_popular_models`: on 200 the ranked prefix and the number of results
      before truncation; otherwise the error object of the status or of the
      exception raised. */
  function ListPopularModels(answer: Result<Response, string>, limit: int): (r: Entries)
    requires answer.Success? && answer.value.status == 200 && RankedInput(answer.value.body).Success? ==>
             ComparableRunCounts(RankedInput(answer.value.body).value)
    ensures Get(r, SUCCESS_KEY) ==
            Bool(answer.Success? && answer.value.status == 200 && RankedInput(answer.value.body).Success?)
    ensures answer.Success? && answer.value.status == 200 && RankedInput(answer.value.body).Success? ==>
              var models := RankedInput(answer.value.body).value;
              Keys(r) == [SUCCESS_KEY, "data", "total_available"] &&
              Get(r, "total_available") == Int(|models|) &&
              Get(r, "data") == List(Dicts(PopularModels(models, limit)))
    ensures answer.Success? && answer.value.status == 200 && RankedInput(answer.value.body).Failure? ==>
              r == ErrorResult(RankedInput(answer.value.body).error)
    ensures answer.Success? && answer.value.status != 200 ==> r == ErrorResult(HttpError(answer.value))
    ensures answer.Failure? ==> r == ErrorResult(answer.error)
  {
    match answer
    case Failure(e) => ErrorResult(e)
    case Success(resp) =>
      if resp.status != 200 then ErrorResult(HttpError(resp))
      else
        match RankedInput(resp.body)
        case Failure(e) => ErrorResult(e)
        case Success(models) => PopularResult(models, limit)
  }

  /** The answer of a models page answered with 200. */
  function PopularResult(models: seq<Entries>, limit: int): (r: Entries)
    ensures Get(r, SUCCESS_KEY) == Bool(true) && Keys(r) == [SUCCESS_KEY, "data", "total_available"]
    ensures Get(r, "total_available") == Int(|models|) && Get(r, "data") == List(Dicts(PopularModels(models, limit)))
  {
    var r := [(SUCCESS_KEY, Bool(true)), ("data", List(Dicts(PopularModels(models, limit)))),
              ("total_available", Int(|models|))];
    assert DistinctKeys(r);
    LookupDistinct(r, 1);
    LookupDistinct(r, 2);
    r
  }

  function Dicts(ms: seq<Entries>): (r: seq<Value>)
    ensures |r| == |ms| && forall i :: 0 <= i < |ms| ==> r[i] == Dict(ms[i])
  {
    seq(|ms|, i requires 0 <= i < |ms| => Dict(ms[i]))
  }

  /** The request `list_popular_models` sends: the limit is passed on as given. */
  function PopularModelsRequest(c: AuthClient, limit: int): Request {
    Request(GET, c.baseUrl + "/models", c.headers, [("limit", Int(limit))], None)
  }
}
