/** The REST client: construction from a token, request building and method
    dispatch, the listing and update requests, deletion, waiting for a
    prediction, and the settings object with its token. */
module ReplicateClient {
  import opened Python
  import opened Http
  import Models

  /** A constructed client; its fields are set once, by `NewClient`. */
  datatype Client = Client(apiToken: string, baseUrl: string, headers: Headers)

  const TOKEN_REQUIRED: string :=
    "Replicate API token is required. Set REPLICATE_API_TOKEN environment variable or pass api_token parameter."

  /** `ReplicateClient(api_token)`: the argument, else the environment's
      token; a `ValueError` when neither is truthy. */
  function NewClient(apiToken: Option<string>, env: Option<string>): (r: Result<Client, string>)
    ensures r.Failure? <==> (apiToken.None? || apiToken.value == "") && (env.None? || env.value == "")
    ensures r.Failure? ==> r.error == TOKEN_REQUIRED
    ensures r.Success? && apiToken.Some? && apiToken.value != "" ==> r.value.apiToken == apiToken.value
    ensures r.Success? && (apiToken.None? || apiToken.value == "") ==> r.value.apiToken == env.value
    ensures r.Success? ==> r.value.baseUrl == API_BASE && |r.value.headers| == 2 &&
                           r.value.headers[0] == ("Authorization", "Token " + r.value.apiToken)
  {
    var token := Or(OptStr(apiToken), OptStr(env));
    if !Truthy(token) then Failure(TOKEN_REQUIRED)
    else
      var t := token.s;
      Success(Client(t, API_BASE, [("Authorization", "Token " + t), ("Content-Type", "application/json")]))
  }

  const VERBS: seq<string> := ["GET", "POST", "PATCH", "DELETE"]

  /** `_make_request`: the endpoint joined to the base URL with its leading
      slashes dropped, the method matched in any letter case; a body only for
      POST and PATCH. */
  function MakeRequest(c: Client, verb: string, endpoint: string, data: Option<Value>, params: Entries)
    : (r: Result<Request, string>)
    ensures r.Success? <==> Upper(verb) in VERBS
    ensures r.Failure? ==> r.error == "Unsupported HTTP method: " + verb
    ensures r.Success? ==> r.value.headers == c.headers && r.value.params == params
    ensures r.Success? ==> StartsWith(r.value.url, c.baseUrl + "/") &&
                           var rest := r.value.url[|c.baseUrl| + 1..]; rest == [] || rest[0] != '/'
    ensures r.Success? ==> r.value.url == c.baseUrl + "/" + LStrip(endpoint, '/')
    ensures r.Success? ==> (r.value.verb == GET <==> Upper(verb) == "GET") && (r.value.verb == POST <==> Upper(verb) == "POST") &&
                           (r.value.verb == PATCH <==> Upper(verb) == "PATCH") &&
                           (r.value.verb == DELETE <==> Upper(verb) == "DELETE")
    ensures r.Success? ==> r.value.json == if Upper(verb) == "POST" || Upper(verb) == "PATCH" then data else None
  {
    var url := c.baseUrl + "/" + LStrip(endpoint, '/');
    assert url[..|c.baseUrl + "/"|] == c.baseUrl + "/" && url[|c.baseUrl| + 1..] == LStrip(endpoint, '/');
    var m := Upper(verb);
    if m == "GET" then Success(Request(GET, url, c.headers, params, None))
    else if m == "POST" then Success(Request(POST, url, c.headers, params, data))
    else if m == "PATCH" then Success(Request(PATCH, url, c.headers, params, data))
    else if m == "DELETE" then Success(Request(DELETE, url, c.headers, params, None))
    else Failure("Unsupported HTTP method: " + verb)
  }

  /** The letter case of the method does not matter. */
  lemma MakeRequestIgnoresCase(c: Client, v1: string, v2: string, endpoint: string, data: Option<Value>,
                               params: Entries)
    requires Upper(v1) == Upper(v2)
    ensures MakeRequest(c, v1, endpoint, data, params).Success? <==> MakeRequest(c, v2, endpoint, data, params).Success?
    ensures MakeRequest(c, v1, endpoint, data, params).Success? ==>
              MakeRequest(c, v1, endpoint, data, params) == MakeRequest(c, v2, endpoint, data, params)
  {
  }

  /** The four methods in lower case are dispatched as their upper-case verbs. */
  lemma LowerCaseVerbs(c: Client, endpoint: string, data: Option<Value>, params: Entries)
    ensures MakeRequest(c, "get", endpoint, data, params).Success? && MakeRequest(c, "get", endpoint, data, params).value.verb == GET
    ensures MakeRequest(c, "post", endpoint, data, params).Success? && MakeRequest(c, "post", endpoint, data, params).value.verb == POST
    ensures MakeRequest(c, "patch", endpoint, data, params).Success? && MakeRequest(c, "patch", endpoint, data, params).value.verb == PATCH
    ensures MakeRequest(c, "delete", endpoint, data, params).Success? && MakeRequest(c, "delete", endpoint, data, params).value.verb == DELETE
  {
    assert Upper("get") == "GET";
    assert Upper("post") == "POST";
    assert Upper("patch") == "PATCH";
    assert Upper("delete") == "DELETE";
  }

  /** A leading slash on the endpoint makes no difference to the request. */
  lemma LeadingSlashIgnored(c: Client, verb: string, endpoint: string, data: Option<Value>, params: Entries)
    ensures MakeRequest(c, verb, "/" + endpoint, data, params) == MakeRequest(c, verb, endpoint, data, params)
  {
    assert ("/" + endpoint)[1..] == endpoint;
    assert LStrip("/" + endpoint, '/') == LStrip(endpoint, '/');
  }

  /** The request `_make_request` builds for a method it accepts. */
  function Issue(c: Client, verb: string, endpoint: string, data: Option<Value>, params: Entries): (r: Request)
    requires verb in VERBS
    ensures MakeRequest(c, verb, endpoint, data, params) == Success(r)
  {
    assert Upper(verb) == verb by {
      assert Upper("GET") == "GET" && Upper("POST") == "POST" && Upper("PATCH") == "PATCH" && Upper("DELETE") == "DELETE";
    }
    MakeRequest(c, verb, endpoint, data, params).value
  }

  /** `raise_for_status()` then `response.json()`: the body, or the 4xx/5xx status. */
  function RaiseForStatus(resp: Response): (r: Result<Entries, int>)
    ensures r.Failure? <==> IsHttpError(resp.status)
    ensures r.Success? ==> r.value == resp.body
  {
    if IsHttpError(resp.status) then Failure(resp.status) else Success(resp.body)
  }

  // ---------------------------------------------------------------- listings and updates

  /** `get_models`: cursor and limit only when truthy, the limit unclamped. */
  method GetModelsRequest(c: Client, cursor: Option<string>, limit: Option<int>) returns (req: Request)
    ensures req == Issue(c, "GET", "/models", None, req.params)
    ensures req.params == PageEntries(cursor, limit)
    ensures "cursor" in Keys(req.params) <==> cursor.Some? && cursor.value != ""
    ensures "limit" in Keys(req.params) <==> limit.Some? && limit.value != 0
    ensures "limit" in Keys(req.params) ==> Lookup(req.params, "limit") == Some(Int(limit.value))
  {
    var params := PageParams(cursor, limit);
    req := Issue(c, "GET", "/models", None, params);
  }

  /** `get_predictions`: the same parameters on the predictions endpoint. */
  method GetPredictionsRequest(c: Client, cursor: Option<string>, limit: Option<int>) returns (req: Request)
    ensures req == Issue(c, "GET", "/predictions", None, req.params)
    ensures req.params == PageEntries(cursor, limit)
    ensures "cursor" in Keys(req.params) <==> cursor.Some? && cursor.value != ""
    ensures "limit" in Keys(req.params) <==> limit.Some? && limit.value != 0
    ensures "limit" in Keys(req.params) ==> Lookup(req.params, "limit") == Some(Int(limit.value))
  {
    var params := PageParams(cursor, limit);
    req := Issue(c, "GET", "/predictions", None, params);
  }

  /** `{k: v for k, v in kwargs.items() if v is not None}`. */
  function DropNone(kwargs: Entries): (r: Entries)
    ensures |r| <= |kwargs|
    ensures forall i :: 0 <= i < |r| ==> r[i].1 != Null && r[i] in kwargs
  {
    if kwargs == [] then []
    else if kwargs[0].1 == Null then DropNone(kwargs[1..])
    else [kwargs[0]] + DropNone(kwargs[1..])
  }

  /** Only `None` values are dropped: with distinct keyword names, every other
      value is kept under its name, falsy ones included. */
  lemma {:induction false} DropNoneLookup(kwargs: Entries, k: string)
    requires DistinctKeys(kwargs)
    ensures Lookup(DropNone(kwargs), k) == if Lookup(kwargs, k) == Some(Null) then None else Lookup(kwargs, k)
  {
    if kwargs != [] {
      assert DistinctKeys(kwargs[1..]) by {
        forall i, j | 0 <= i < j < |kwargs[1..]| ensures kwargs[1..][i].0 != kwargs[1..][j].0 {
          assert kwargs[1..][i] == kwargs[i + 1] && kwargs[1..][j] == kwargs[j + 1];
        }
      }
      DropNoneLookup(kwargs[1..], k);
      if kwargs[0].0 != k {
        assert Lookup(kwargs, k) == Lookup(kwargs[1..], k);
      } else {
        assert k !in Keys(kwargs[1..]) by {
          forall j | 0 <= j < |kwargs[1..]| ensures Keys(kwargs[1..])[j] != k {
            assert kwargs[1..][j] == kwargs[j + 1];
          }
        }
      }
    }
  }

  /** Every truthy keyword survives the filter, and so does every falsy one that is not `None`. */
  lemma DropNoneKeepsFalsy(kwargs: Entries, k: string, v: Value)
    requires DistinctKeys(kwargs) && Lookup(kwargs, k) == Some(v) && v != Null
    ensures Lookup(DropNone(kwargs), k) == Some(v)
    ensures Lookup(TruthyEntries(kwargs), k).Some? ==> Lookup(DropNone(kwargs), k) == Lookup(TruthyEntries(kwargs), k)
  {
    DropNoneLookup(kwargs, k);
    TruthyEntriesLookup(kwargs, k);
  }

  /** `update_model`: a PATCH of the non-`None` keyword arguments. */
  function UpdateModelRequest(c: Client, owner: string, name: string, kwargs: Entries): (r: Request)
    ensures r.verb == PATCH && r.json == Some(Dict(DropNone(kwargs)))
    ensures r == Issue(c, "PATCH", "/models/" + owner + "/" + name, Some(Dict(DropNone(kwargs))), [])
  {
    Issue(c, "PATCH", "/models/" + owner + "/" + name, Some(Dict(DropNone(kwargs))), [])
  }

  /** `delete_model` reports success exactly for 204, as the delete tool does. */
  function DeleteModel(resp: Response): (ok: bool)
    ensures ok <==> resp.status == 204
  {
    resp.status == 204
  }

  lemma DeleteModelAgreesWithTool(owner: string, name: string, resp: Response)
    ensures DeleteModel(resp) <==> StartsWith(Models.DeleteModelReply(owner, name, resp), "Model ")
  {
  }

  // ---------------------------------------------------------------- wait_for_prediction

  datatype WaitOutcome =
    | Completed(prediction: Entries)   // the first terminal prediction
    | TimedOut(message: string)        // TimeoutError
    | HttpFailed(status: int)          // the HTTPError of `get_prediction`
    | SleepFailed(message: string)     // ValueError of `time.sleep`

  /** The GET `get_prediction` issues. */
  function PredictionGet(c: Client, predictionId: string): Request {
    Issue(c, "GET", "/predictions/" + predictionId, None, [])
  }

  predicate WaitStops(timeout: int, o: Observation) {
    !(o.elapsed < timeout as real) || IsHttpError(o.response.status) || IsTerminal(StatusOf(o.response.body))
  }

  predicate WaitEnds(timeout: int, pollInterval: int, o: Observation) {
    WaitStops(timeout, o) || pollInterval < 0
  }

  predicate WaitFinite(timeout: int, pollInterval: int, obs: seq<Observation>) {
    exists i :: 0 <= i < |obs| && WaitEnds(timeout, pollInterval, obs[i])
  }

  function WaitTurn(timeout: int, pollInterval: int, obs: seq<Observation>): (k: nat)
    requires WaitFinite(timeout, pollInterval, obs)
    ensures k < |obs| && WaitEnds(timeout, pollInterval, obs[k])
    ensures forall j :: 0 <= j < k ==> !WaitEnds(timeout, pollInterval, obs[j])
  {
    FirstIndex(obs, o => WaitEnds(timeout, pollInterval, o))
  }

  function TimeoutMessage(predictionId: string, timeout: int): string {
    "Prediction " + predictionId + " did not complete within " + IntToString(timeout) + " seconds"
  }

  /** What `wait_for_prediction` returns or raises, for the turns `obs`. */
  function WaitSpec(predictionId: string, timeout: int, pollInterval: int, obs: seq<Observation>): (r: WaitOutcome)
    requires WaitFinite(timeout, pollInterval, obs)
    ensures r.Completed? ==> IsTerminal(StatusOf(r.prediction))
  {
    var o := obs[WaitTurn(timeout, pollInterval, obs)];
    if !(o.elapsed < timeout as real) then TimedOut(TimeoutMessage(predictionId, timeout))
    else if IsHttpError(o.response.status) then HttpFailed(o.response.status)
    else if IsTerminal(StatusOf(o.response.body)) then Completed(o.response.body)
    else SleepFailed("sleep length must be non-negative")
  }

  function WaitPolls(timeout: int, pollInterval: int, obs: seq<Observation>): nat
    requires WaitFinite(timeout, pollInterval, obs)
  {
    var k := WaitTurn(timeout, pollInterval, obs);
    if obs[k].elapsed < timeout as real then k + 1 else k
  }

  /** The loop: while the clock is below the timeout, fetch the prediction
      and return it once terminal, else sleep. */
  method WaitForPrediction(c: Client, predictionId: string, timeout: int, pollInterval: int, obs: seq<Observation>)
    returns (outcome: WaitOutcome, polls: seq<Request>)
    requires WaitFinite(timeout, pollInterval, obs)
    ensures outcome == WaitSpec(predictionId, timeout, pollInterval, obs)
    ensures |polls| == WaitPolls(timeout, pollInterval, obs)
    ensures forall j :: 0 <= j < |polls| ==> polls[j] == PredictionGet(c, predictionId)
  {
    polls := [];
    ghost var k := WaitTurn(timeout, pollInterval, obs);
    var i := 0;
    while obs[i].elapsed < timeout as real
      invariant 0 <= i <= k
      invariant |polls| == i
      invariant forall j :: 0 <= j < |polls| ==> polls[j] == PredictionGet(c, predictionId)
      decreases k - i
    {
      polls := polls + [PredictionGet(c, predictionId)];
      match RaiseForStatus(obs[i].response) {
        case Failure(status) =>
          assert i == k;
          return HttpFailed(status), polls;
        case Success(prediction) =>
          var status := StatusOf(prediction);
          if IsTerminal(status) {
            assert i == k;
            return Completed(prediction), polls;
          }
      }
      if pollInterval < 0 {
        assert i == k;
        return SleepFailed("sleep length must be non-negative"), polls;
      }
      assert i < k by {
        assert !WaitEnds(timeout, pollInterval, obs[i]);
      }
      i := i + 1;
    }
    assert i == k;
    outcome := TimedOut(TimeoutMessage(predictionId, timeout));
  }

  /** The turn `i` is the first at which the loop does not go on. */
  predicate FirstWaitEnd(timeout: int, pollInterval: int, obs: seq<Observation>, i: nat) {
    i < |obs| && WaitEnds(timeout, pollInterval, obs[i]) &&
    forall j :: 0 <= j < i ==> !WaitEnds(timeout, pollInterval, obs[j])
  }

  lemma WaitTurnIs(timeout: int, pollInterval: int, obs: seq<Observation>, i: nat)
    requires FirstWaitEnd(timeout, pollInterval, obs, i)
    ensures WaitFinite(timeout, pollInterval, obs) && WaitTurn(timeout, pollInterval, obs) == i
  {
    var k := WaitTurn(timeout, pollInterval, obs);
    assert !(k < i) && !(i < k);
  }

  /** The first terminal prediction fetched in time is the one returned,
      'canceled' included, and nothing is fetched after it. */
  lemma WaitReturnsFirstTerminal(predictionId: string, timeout: int, pollInterval: int, obs: seq<Observation>, i: nat)
    requires i < |obs| && forall j :: 0 <= j < i ==> !WaitEnds(timeout, pollInterval, obs[j])
    requires obs[i].elapsed < timeout as real && !IsHttpError(obs[i].response.status)
    requires IsTerminal(StatusOf(obs[i].response.body))
    ensures WaitFinite(timeout, pollInterval, obs)
    ensures WaitSpec(predictionId, timeout, pollInterval, obs) == Completed(obs[i].response.body)
    ensures WaitPolls(timeout, pollInterval, obs) == i + 1
  {
    WaitTurnIs(timeout, pollInterval, obs, i);
  }

  /** When the clock reaches the timeout first, `TimeoutError` is raised and
      that turn fetches nothing. */
  lemma WaitTimesOut(predictionId: string, timeout: int, pollInterval: int, obs: seq<Observation>, i: nat)
    requires i < |obs| && forall j :: 0 <= j < i ==> !WaitEnds(timeout, pollInterval, obs[j])
    requires !(obs[i].elapsed < timeout as real)
    ensures WaitFinite(timeout, pollInterval, obs)
    ensures WaitSpec(predictionId, timeout, pollInterval, obs) == TimedOut(TimeoutMessage(predictionId, timeout))
    ensures WaitPolls(timeout, pollInterval, obs) == i
  {
    WaitTurnIs(timeout, pollInterval, obs, i);
  }

  // ---------------------------------------------------------------- settings

  /** `validate_api_token`: a client can be built and the one-model listing
      is not answered with an HTTP error. */
  predicate ValidateApiToken(token: string, env: Option<string>, probe: Response) {
    NewClient(Some(token), env).Success? && !IsHttpError(probe.status)
  }

  /** `ReplicateConfig`: the token, initially the environment's, replaced by `SetApiToken`. */
  class Settings {
    var apiToken: Option<string>
    const defaultTimeout: int
    const defaultPollInterval: int
    const defaultModel: string

    constructor (env: Option<string>)
      ensures apiToken == env
      ensures defaultTimeout == 300 && defaultPollInterval == 5 && defaultModel == "meta/codellama-34b-instruct"
    {
      apiToken := env;
      defaultTimeout := 300;
      defaultPollInterval := 5;
      defaultModel := "meta/codellama-34b-instruct";
    }

    method SetApiToken(token: string)
      modifies this
      ensures apiToken == Some(token)
    {
      apiToken := Some(token);
    }

    /** `get_client`. */
    function GetClient(env: Option<string>): Result<Client, string>
      reads this
    {
      NewClient(apiToken, env)
    }

    /** `validate_config`: false without a token, else the token is probed. */
    predicate ValidateConfig(env: Option<string>, probe: Response)
      reads this
    {
      Truthy(OptStr(apiToken)) && ValidateApiToken(apiToken.value, env, probe)
    }

    /** `setup_replicate_auth`: store the token, then validate it. */
    method SetupAuth(token: string, env: Option<string>, probe: Response) returns (ok: bool)
      modifies this
      ensures apiToken == Some(token)
      ensures ok <==> token != "" && !IsHttpError(probe.status)
    {
      SetApiToken(token);
      ok := ValidateConfig(env, probe);
    }
  }
}
