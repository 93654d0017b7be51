/** The prediction tools: the `create_prediction` body, the `list_predictions`
    query and the `stream_prediction` poll loop. */
module Predictions {
  import opened Python
  import opened Http
  import opened Models

  // ---------------------------------------------------------------- create_prediction

  /** `webhook_events_filter` as the JSON body carries it: a list of strings. */
  function OptStrs(o: Option<seq<string>>): (v: Value)
    ensures Truthy(v) <==> o.Some? && o.value != []
  {
    match o
    case None => Null
    case Some(l) => List(seq(|l|, i requires 0 <= i < |l| => Str(l[i])))
  }

  function PredictionRequired(modelVersion: string, inputData: Entries): Entries {
    [("version", Str(modelVersion)), ("input", Dict(inputData))]
  }

  function PredictionOptionals(webhook: Option<string>, eventsFilter: Option<seq<string>>): Entries {
    [("webhook", OptStr(webhook)), ("webhook_events_filter", OptStrs(eventsFilter))]
  }

  /** The `create_prediction` body: version and input always, first in that
      order, then each webhook field exactly when its argument is truthy. */
  function PredictionPayload(modelVersion: string, inputData: Entries, webhook: Option<string>,
                             eventsFilter: Option<seq<string>>): (r: Entries)
    ensures |r| >= 2 && Keys(r)[..2] == ["version", "input"]
    ensures Lookup(r, "version") == Some(Str(modelVersion)) && Lookup(r, "input") == Some(Dict(inputData))
    ensures "webhook" in Keys(r) <==> webhook.Some? && webhook.value != ""
    ensures "webhook" in Keys(r) ==> Lookup(r, "webhook") == Some(Str(webhook.value))
    ensures "webhook_events_filter" in Keys(r) <==> eventsFilter.Some? && eventsFilter.value != []
    ensures "webhook_events_filter" in Keys(r) ==>
              Lookup(r, "webhook_events_filter") == Some(OptStrs(eventsFilter))
    ensures forall k :: k !in ["version", "input", "webhook", "webhook_events_filter"] ==> k !in Keys(r)
  {
    var r := PredictionRequired(modelVersion, inputData) + TruthyEntries(PredictionOptionals(webhook, eventsFilter));
    PayloadFixed(modelVersion, inputData, webhook, eventsFilter);
    PayloadWebhook(modelVersion, inputData, webhook, eventsFilter);
    PayloadEventsFilter(modelVersion, inputData, webhook, eventsFilter);
    r
  }

  lemma PayloadFixed(modelVersion: string, inputData: Entries, webhook: Option<string>,
                     eventsFilter: Option<seq<string>>)
    ensures var r := PredictionRequired(modelVersion, inputData) + TruthyEntries(PredictionOptionals(webhook, eventsFilter));
      |r| >= 2 && Keys(r)[..2] == ["version", "input"] &&
      Lookup(r, "version") == Some(Str(modelVersion)) && Lookup(r, "input") == Some(Dict(inputData)) &&
      forall k :: k !in ["version", "input", "webhook", "webhook_events_filter"] ==> k !in Keys(r)
  {
    var req := PredictionRequired(modelVersion, inputData);
    var opts := PredictionOptionals(webhook, eventsFilter);
    var r := req + TruthyEntries(opts);
    assert Keys(req) == ["version", "input"];
    assert Keys(opts) == ["webhook", "webhook_events_filter"];
    FixedThenTruthy(req, opts, "version");
    FixedThenTruthy(req, opts, "input");
    forall k | k !in ["version", "input", "webhook", "webhook_events_filter"]
      ensures k !in Keys(r)
    {
      FixedThenTruthy(req, opts, k);
    }
  }

  lemma PayloadWebhook(modelVersion: string, inputData: Entries, webhook: Option<string>,
                       eventsFilter: Option<seq<string>>)
    ensures var r := PredictionRequired(modelVersion, inputData) + TruthyEntries(PredictionOptionals(webhook, eventsFilter));
      Lookup(r, "webhook") == IfTruthy(Some(OptStr(webhook)))
  {
    var req := PredictionRequired(modelVersion, inputData);
    var opts := PredictionOptionals(webhook, eventsFilter);
    assert Keys(req) == ["version", "input"];
    FixedThenTruthy(req, opts, "webhook");
    assert Lookup(opts, "webhook") == Some(OptStr(webhook));
  }

  lemma PayloadEventsFilter(modelVersion: string, inputData: Entries, webhook: Option<string>,
                            eventsFilter: Option<seq<string>>)
    ensures var r := PredictionRequired(modelVersion, inputData) + TruthyEntries(PredictionOptionals(webhook, eventsFilter));
      Lookup(r, "webhook_events_filter") == IfTruthy(Some(OptStrs(eventsFilter)))
  {
    var req := PredictionRequired(modelVersion, inputData);
    var opts := PredictionOptionals(webhook, eventsFilter);
    assert Keys(req) == ["version", "input"];
    FixedThenTruthy(req, opts, "webhook_events_filter");
    assert Lookup(opts, "webhook_events_filter") == Some(OptStrs(eventsFilter));
  }

  /** The request `create_prediction` sends, with the body filled in place. */
  method CreatePredictionRequest(token: Value, modelVersion: string, inputData: Entries, webhook: Option<string>,
                                 eventsFilter: Option<seq<string>>) returns (req: Request)
    ensures req == Request(POST, API_BASE + "/predictions", AuthHeaders(token), [],
                           Some(Dict(PredictionPayload(modelVersion, inputData, webhook, eventsFilter))))
  {
    var required := PredictionRequired(modelVersion, inputData);
    assert Keys(required) == ["version", "input"];
    var data := PutIfTruthy(required, "webhook", OptStr(webhook), required, {});
    data := PutIfTruthy(data, "webhook_events_filter", OptStrs(eventsFilter), required, {"webhook"});
    ghost var opts := PredictionOptionals(webhook, eventsFilter);
    assert required + TruthyEntries(opts) == required + Kept(opts[0]) + Kept(opts[1]) by {
      assert required + TruthyEntries([]) == required;
      TruthyEntriesSnocAfter(required, [], opts[0]);
      TruthyEntriesSnocAfter(required, [] + [opts[0]], opts[1]);
      assert [] + [opts[0]] + [opts[1]] == opts;
    }
    req := Request(POST, API_BASE + "/predictions", AuthHeaders(token), [], Some(Dict(data)));
  }

  /** Anything but 201 is reported with the status code and the raw text. */
  function CreatePredictionError(resp: Response): (e: Option<string>)
    ensures e.None? <==> resp.status == 201
    ensures e.Some? ==> StartsWith(e.value, "Error creating prediction: ")
  {
    if resp.status == 201 then None
    else
      assert StartsWith(StatusError("Error creating prediction: ", resp), "Error creating prediction: ") by {
        assert StatusError("Error creating prediction: ", resp)[..|"Error creating prediction: "|]
            == "Error creating prediction: ";
      }
      Some(StatusError("Error creating prediction: ", resp))
  }

  // ---------------------------------------------------------------- list_predictions

  /** The `list_predictions` request: cursor and limit only when truthy, and
      unlike the model listing the limit is passed on unclamped. */
  method ListPredictionsRequest(token: Value, cursor: Option<string>, limit: Option<int>) returns (req: Request)
    ensures req.verb == GET && req.url == API_BASE + "/predictions" && req.headers == AuthHeaders(token)
    ensures req.json.None?
    ensures "cursor" in Keys(req.params) <==> cursor.Some? && cursor.value != ""
    ensures "limit" in Keys(req.params) <==> limit.Some? && limit.value != 0
    ensures "cursor" in Keys(req.params) ==> Lookup(req.params, "cursor") == Some(Str(cursor.value))
    ensures "limit" in Keys(req.params) ==> Lookup(req.params, "limit") == Some(Int(limit.value))
    ensures forall k :: k in Keys(req.params) ==> k == "cursor" || k == "limit"
  {
    var params := PageParams(cursor, limit);
    req := Request(GET, API_BASE + "/predictions", AuthHeaders(token), params, None);
  }

  // ---------------------------------------------------------------- stream_prediction

  /** One line of the stream report. */
  datatype StreamLine =
    | Header(predictionId: string)                // "Streaming prediction {id}..."
    | StatusLine(status: Value, createdAt: Value) // "Status: {status} at {created_at}"
    | FinalStatus(final: Value)                   // "Final Status: {status}"
    | OutputLine(output: Value)                   // "Output: {json of output}"
    | ErrorDetail(error: Value)                   // "Error: {error}"
    | LogsLine(logs: Value)                       // "Logs: {logs}"
    | MetricsLine(metrics: Value)                 // "Metrics: {json of metrics}"
    | TimeoutLine(timeout: int)                   // "Timeout reached after {timeout} seconds"
    | PollError(code: int, text: string)          // "Error getting prediction: {code} - {text}"

  /** The tool returns the report, or the text of an exception raised on the way. */
  datatype StreamOutcome = Streamed(lines: seq<StreamLine>) | StreamFailed(message: string)

  const STREAM_FAILURE: string := "Failed to stream Replicate prediction: "

  /** Comparing the elapsed float with a `None` timeout raises before any poll. */
  const NO_TIMEOUT_ERROR: string := "'>' not supported between instances of 'float' and 'NoneType'"

  /** `time.sleep` rejects a `None` or negative interval. */
  predicate SleepFails(pollInterval: Option<int>) {
    pollInterval.None? || pollInterval.value < 0
  }

  function SleepError(pollInterval: Option<int>): string {
    if pollInterval.None? then "'NoneType' object cannot be interpreted as an integer"
    else "sleep length must be non-negative"
  }

  /** The GET each turn of the loop issues. */
  function PollRequest(token: Value, predictionId: string): Request {
    Request(GET, API_BASE + "/predictions/" + predictionId, AuthHeaders(token), [], None)
  }

  predicate TimedOut(timeout: int, o: Observation) {
    o.elapsed > timeout as real
  }

  /** The turns at which the loop breaks: the clock is past the timeout, the
      poll failed, or the prediction reached a terminal status. */
  predicate Stops(timeout: int, o: Observation) {
    TimedOut(timeout, o) || o.response.status != 200 || IsTerminal(StatusOf(o.response.body))
  }

  /** The turns after which the loop does not go on: it stops, or its sleep raises. */
  predicate Ends(timeout: int, pollInterval: Option<int>, o: Observation) {
    Stops(timeout, o) || SleepFails(pollInterval)
  }

  /** What the loop needs to terminate: some turn ends it. */
  predicate Finite(timeout: Option<int>, pollInterval: Option<int>, obs: seq<Observation>) {
    timeout.None? || exists i :: 0 <= i < |obs| && Ends(timeout.value, pollInterval, obs[i])
  }

  function LastTurn(timeout: int, pollInterval: Option<int>, obs: seq<Observation>): (k: nat)
    requires exists i :: 0 <= i < |obs| && Ends(timeout, pollInterval, obs[i])
    ensures k < |obs| && Ends(timeout, pollInterval, obs[k])
    ensures forall j :: 0 <= j < k ==> !Ends(timeout, pollInterval, obs[j])
  {
    FirstIndex(obs, o => Ends(timeout, pollInterval, o))
  }

  function StatusLineOf(body: Entries): StreamLine {
    StatusLine(StatusOf(body), DictGet(body, "created_at", Str("unknown time")))
  }

  function StatusLines(obs: seq<Observation>): (r: seq<StreamLine>)
    ensures |r| == |obs|
  {
    seq(|obs|, i requires 0 <= i < |obs| => StatusLineOf(obs[i].response.body))
  }

  lemma StatusLinesSnoc(obs: seq<Observation>, i: nat)
    requires i < |obs|
    ensures StatusLines(obs[..i + 1]) == StatusLines(obs[..i]) + [StatusLineOf(obs[i].response.body)]
  {
    assert obs[..i + 1] == obs[..i] + [obs[i]];
  }

  /** A turn no later than the last one that ends the loop is the last one. */
  lemma LastTurnAt(timeout: int, pollInterval: Option<int>, obs: seq<Observation>, i: nat)
    requires exists j :: 0 <= j < |obs| && Ends(timeout, pollInterval, obs[j])
    requires i <= LastTurn(timeout, pollInterval, obs) && Ends(timeout, pollInterval, obs[i])
    ensures i == LastTurn(timeout, pollInterval, obs)
  {
  }

  /** The output line of a succeeded prediction or the error line of a failed one, when truthy. */
  function ResultLines(body: Entries): seq<StreamLine> {
    var status := StatusOf(body);
    if status == Str("succeeded") && Truthy(Get(body, "output")) then [OutputLine(Get(body, "output"))]
    else if status == Str("failed") && Truthy(Get(body, "error")) then [ErrorDetail(Get(body, "error"))]
    else []
  }

  function LogsLines(body: Entries): seq<StreamLine> {
    if Truthy(Get(body, "logs")) then [LogsLine(Get(body, "logs"))] else []
  }

  function MetricsLines(body: Entries): seq<StreamLine> {
    if Truthy(Get(body, "metrics")) then [MetricsLine(Get(body, "metrics"))] else []
  }

  /** The lines a terminal prediction adds after its "Final Status" line. */
  function Details(body: Entries): seq<StreamLine> {
    ResultLines(body) + LogsLines(body) + MetricsLines(body)
  }

  /** The detail lines of a terminal poll, appended one condition at a time. */
  method AppendDetails(lines: seq<StreamLine>, body: Entries) returns (r: seq<StreamLine>)
    ensures r == lines + Details(body)
  {
    r := lines;
    var status := StatusOf(body);
    if status == Str("succeeded") {
      var output := Get(body, "output");
      if Truthy(output) {
        r := r + [OutputLine(output)];
      }
    } else if status == Str("failed") {
      var error := Get(body, "error");
      if Truthy(error) {
        r := r + [ErrorDetail(error)];
      }
    }
    assert r == lines + ResultLines(body);
    var logs := Get(body, "logs");
    if Truthy(logs) {
      r := r + [LogsLine(logs)];
    }
    assert r == lines + ResultLines(body) + LogsLines(body);
    var metrics := Get(body, "metrics");
    if Truthy(metrics) {
      r := r + [MetricsLine(metrics)];
    }
    assert r == lines + ResultLines(body) + LogsLines(body) + MetricsLines(body);
    ConcatAssoc(lines, ResultLines(body), LogsLines(body), MetricsLines(body));
  }

  lemma ConcatAssoc<T>(a: seq<T>, b: seq<T>, c: seq<T>, d: seq<T>)
    ensures a + (b + c + d) == a + b + c + d
  {
  }

  /** The lines the stopping turn adds. */
  function Ending(timeout: int, o: Observation): seq<StreamLine> {
    if TimedOut(timeout, o) then [TimeoutLine(timeout)]
    else if o.response.status != 200 then [PollError(o.response.status, o.response.text)]
    else [StatusLineOf(o.response.body)] + [FinalStatus(StatusOf(o.response.body))] + Details(o.response.body)
  }

  /** What `stream_prediction` returns for a run whose turns are `obs`. */
  function StreamSpec(predictionId: string, timeout: Option<int>, pollInterval: Option<int>,
                      obs: seq<Observation>): StreamOutcome
    requires Finite(timeout, pollInterval, obs)
  {
    if timeout.None? then StreamFailed(STREAM_FAILURE + NO_TIMEOUT_ERROR)
    else
      var k := LastTurn(timeout.value, pollInterval, obs);
      if Stops(timeout.value, obs[k]) then
        Streamed([Header(predictionId)] + StatusLines(obs[..k]) + Ending(timeout.value, obs[k]))
      else StreamFailed(STREAM_FAILURE + SleepError(pollInterval))
  }

  /** How many polls the run issues: one per turn up to the last, except that
      a turn whose clock is past the timeout issues none. */
  function StreamPolls(timeout: Option<int>, pollInterval: Option<int>, obs: seq<Observation>): nat
    requires Finite(timeout, pollInterval, obs)
  {
    if timeout.None? then 0
    else
      var k := LastTurn(timeout.value, pollInterval, obs);
      if TimedOut(timeout.value, obs[k]) then k else k + 1
  }

  /** `stream_prediction`: the clock comparison raises at once without a
      timeout, otherwise the poll loop runs. */
  method StreamPrediction(token: Value, predictionId: string, timeout: Option<int>, pollInterval: Option<int>,
                          obs: seq<Observation>) returns (outcome: StreamOutcome, polls: seq<Request>)
    requires Finite(timeout, pollInterval, obs)
    ensures outcome == StreamSpec(predictionId, timeout, pollInterval, obs)
    ensures |polls| == StreamPolls(timeout, pollInterval, obs)
    ensures forall j :: 0 <= j < |polls| ==> polls[j] == PollRequest(token, predictionId)
  {
    if timeout.None? {
      return StreamFailed(STREAM_FAILURE + NO_TIMEOUT_ERROR), [];
    }
    outcome, polls := StreamLoop(token, predictionId, timeout.value, pollInterval, obs);
  }

  lemma StreamSpecStreamed(predictionId: string, t: int, pollInterval: Option<int>, obs: seq<Observation>,
                           lines: seq<StreamLine>)
    requires Finite(Some(t), pollInterval, obs)
    requires var k := LastTurn(t, pollInterval, obs);
      Stops(t, obs[k]) && lines == [Header(predictionId)] + StatusLines(obs[..k]) + Ending(t, obs[k])
    ensures StreamSpec(predictionId, Some(t), pollInterval, obs) == Streamed(lines)
  {
  }

  /** The `while True` loop: read the clock, poll, report, stop or sleep. */
  method StreamLoop(token: Value, predictionId: string, t: int, pollInterval: Option<int>,
                    obs: seq<Observation>) returns (outcome: StreamOutcome, polls: seq<Request>)
    requires Finite(Some(t), pollInterval, obs)
    ensures outcome == StreamSpec(predictionId, Some(t), pollInterval, obs)
    ensures |polls| == StreamPolls(Some(t), pollInterval, obs)
    ensures forall j :: 0 <= j < |polls| ==> polls[j] == PollRequest(token, predictionId)
  {
    ghost var k := LastTurn(t, pollInterval, obs);
    outcome, polls := PollStream(token, predictionId, t, pollInterval, obs, k);
  }

  /** The loop itself, which ends at turn `k`: a status line per turn before
      it, then the ending of turn `k`, or the sleep's error when no poll
      stopped it. */
  method PollStream(token: Value, predictionId: string, t: int, pollInterval: Option<int>,
                    obs: seq<Observation>, ghost k: nat) returns (outcome: StreamOutcome, polls: seq<Request>)
    requires FirstEnd(t, pollInterval, obs, k)
    ensures outcome == if Stops(t, obs[k]) then Streamed([Header(predictionId)] + StatusLines(obs[..k]) + Ending(t, obs[k]))
                       else StreamFailed(STREAM_FAILURE + SleepError(pollInterval))
    ensures |polls| == if TimedOut(t, obs[k]) then k else k + 1
    ensures forall j :: 0 <= j < |polls| ==> polls[j] == PollRequest(token, predictionId)
  {
    polls := [];
    var lines := [Header(predictionId)];
    var i := 0;
    while true
      invariant 0 <= i <= k
      invariant lines == [Header(predictionId)] + StatusLines(obs[..i])
      invariant |polls| == i
      invariant forall j :: 0 <= j < |polls| ==> polls[j] == PollRequest(token, predictionId)
      decreases k - i
    {
      ghost var before := lines;
      ghost var statuses := StatusLines(obs[..i]);
      var o := obs[i];
      if o.elapsed > t as real {
        lines := lines + [TimeoutLine(t)];
        assert i == k && lines == before + Ending(t, o);
        break;
      }
      polls := polls + [PollRequest(token, predictionId)];
      var response := o.response;
      if response.status != 200 {
        lines := lines + [PollError(response.status, response.text)];
        assert i == k && lines == before + Ending(t, o);
        break;
      }
      var status := StatusOf(response.body);
      lines := lines + [StatusLineOf(response.body)];
      if IsTerminal(status) {
        lines := lines + [FinalStatus(status)];
        lines := AppendDetails(lines, response.body);
        ConcatAssoc(before, [StatusLineOf(response.body)], [FinalStatus(status)], Details(response.body));
        assert i == k && lines == before + Ending(t, o);
        break;
      }
      if SleepFails(pollInterval) {
        assert i == k;
        outcome := StreamFailed(STREAM_FAILURE + SleepError(pollInterval));
        return;
      }
      assert i < k by {
        assert !Ends(t, pollInterval, obs[i]);
      }
      StatusLinesSnoc(obs, i);
      ConcatAssoc([Header(predictionId)], statuses, [StatusLineOf(response.body)], []);
      assert lines == [Header(predictionId)] + StatusLines(obs[..i + 1]);
      i := i + 1;
    }
    outcome := Streamed(lines);
  }

  // ---------------------------------------------------------------- properties of the stream

  /** The turn `i` is where the loop stops: every earlier turn goes on, `i` ends it. */
  predicate FirstEnd(t: int, pollInterval: Option<int>, obs: seq<Observation>, i: nat) {
    i < |obs| && Ends(t, pollInterval, obs[i]) && forall j :: 0 <= j < i ==> !Ends(t, pollInterval, obs[j])
  }

  lemma LastTurnIs(t: int, pollInterval: Option<int>, obs: seq<Observation>, i: nat)
    requires FirstEnd(t, pollInterval, obs, i)
    ensures Finite(Some(t), pollInterval, obs) && LastTurn(t, pollInterval, obs) == i
  {
    var k := LastTurn(t, pollInterval, obs);
    assert !(k < i) && !(i < k);
  }

  /** The report starts with the header line and ends with the line of the stopping turn. */
  lemma StreamStartsWithHeader(predictionId: string, timeout: Option<int>, pollInterval: Option<int>,
                               obs: seq<Observation>)
    requires Finite(timeout, pollInterval, obs)
    ensures var out := StreamSpec(predictionId, timeout, pollInterval, obs);
      out.Streamed? ==> |out.lines| >= 2 && out.lines[0] == Header(predictionId)
    ensures StreamSpec(predictionId, timeout, pollInterval, obs).StreamFailed? <==>
              timeout.None? || (SleepFails(pollInterval) && !Stops(timeout.value, obs[0]))
  {
    if timeout.Some? {
      var t := timeout.value;
      var k := LastTurn(t, pollInterval, obs);
      if SleepFails(pollInterval) {
        assert Ends(t, pollInterval, obs[0]);
        assert k == 0;
      }
    }
  }

  /** The turn at which the clock is first read past the timeout, before any
      other stop, ends the report with the timeout line and issues no poll. */
  lemma StreamTimeout(predictionId: string, t: int, pollInterval: Option<int>, obs: seq<Observation>, i: nat)
    requires FirstEnd(t, pollInterval, obs, i) && TimedOut(t, obs[i])
    ensures Finite(Some(t), pollInterval, obs)
    ensures StreamSpec(predictionId, Some(t), pollInterval, obs)
         == Streamed([Header(predictionId)] + StatusLines(obs[..i]) + [TimeoutLine(t)])
    ensures StreamPolls(Some(t), pollInterval, obs) == i
  {
    LastTurnIs(t, pollInterval, obs, i);
  }

  /** A poll answered with anything but 200 ends the report with the error
      line, and no poll follows it. */
  lemma StreamPollError(predictionId: string, t: int, pollInterval: Option<int>, obs: seq<Observation>, i: nat)
    requires FirstEnd(t, pollInterval, obs, i) && !TimedOut(t, obs[i]) && obs[i].response.status != 200
    ensures Finite(Some(t), pollInterval, obs)
    ensures StreamSpec(predictionId, Some(t), pollInterval, obs)
         == Streamed([Header(predictionId)] + StatusLines(obs[..i]) +
                     [PollError(obs[i].response.status, obs[i].response.text)])
    ensures StreamPolls(Some(t), pollInterval, obs) == i + 1
  {
    LastTurnIs(t, pollInterval, obs, i);
  }

  /** The first poll with a terminal status gets its status line, then the
      "Final Status" line, then its details, and the loop stops there. */
  lemma StreamFinal(predictionId: string, t: int, pollInterval: Option<int>, obs: seq<Observation>, i: nat)
    requires i < |obs| && forall j :: 0 <= j < i ==> !Ends(t, pollInterval, obs[j])
    requires !TimedOut(t, obs[i]) && obs[i].response.status == 200 && IsTerminal(StatusOf(obs[i].response.body))
    ensures Finite(Some(t), pollInterval, obs)
    ensures var body := obs[i].response.body;
      StreamSpec(predictionId, Some(t), pollInterval, obs)
         == Streamed([Header(predictionId)] + StatusLines(obs[..i]) +
                     ([StatusLineOf(body)] + [FinalStatus(StatusOf(body))] + Details(body)))
    ensures StreamPolls(Some(t), pollInterval, obs) == i + 1
  {
    LastTurnIs(t, pollInterval, obs, i);
  }

  /** Which lines can report an output or an error. */
  predicate Reports(l: StreamLine) {
    l.OutputLine? || l.ErrorDetail?
  }

  /** Of the lines of a stopping turn, only the result line reports, and only as due. */
  lemma EndingReports(t: int, o: Observation, l: StreamLine)
    requires l in Ending(t, o) && Reports(l)
    ensures !TimedOut(t, o) && o.response.status == 200
    ensures l in ResultLines(o.response.body)
    ensures FinalStatus(StatusOf(o.response.body)) in Ending(t, o)
  {
    var body := o.response.body;
    var head := [StatusLineOf(body)] + [FinalStatus(StatusOf(body))];
    assert !TimedOut(t, o) && o.response.status == 200;
    assert Ending(t, o) == head + (ResultLines(body) + LogsLines(body) + MetricsLines(body));
    assert l !in head && l !in LogsLines(body) && l !in MetricsLines(body);
  }

  /** An output line only reports the truthy output of a succeeded prediction,
      an error line only the truthy error of a failed one. */
  lemma StreamDetailsOnlyWhenDue(predictionId: string, timeout: Option<int>, pollInterval: Option<int>,
                                 obs: seq<Observation>)
    requires Finite(timeout, pollInterval, obs)
    ensures var out := StreamSpec(predictionId, timeout, pollInterval, obs);
      out.Streamed? ==>
        (forall v :: OutputLine(v) in out.lines ==> FinalStatus(Str("succeeded")) in out.lines && Truthy(v)) &&
        (forall v :: ErrorDetail(v) in out.lines ==> FinalStatus(Str("failed")) in out.lines && Truthy(v))
  {
    var out := StreamSpec(predictionId, timeout, pollInterval, obs);
    if out.Streamed? {
      var t := timeout.value;
      var k := LastTurn(t, pollInterval, obs);
      var prefix := [Header(predictionId)] + StatusLines(obs[..k]);
      var ending := Ending(t, obs[k]);
      assert out.lines == prefix + ending;
      assert forall j :: 0 <= j < |prefix| ==> !Reports(prefix[j]);
      forall l | l in out.lines && Reports(l)
        ensures l in ending && FinalStatus(StatusOf(obs[k].response.body)) in out.lines
        ensures l in ResultLines(obs[k].response.body)
      {
        assert l !in prefix;
        EndingReports(t, obs[k], l);
      }
    }
  }

  /** How many status lines a report holds. */
  function CountStatusLines(lines: seq<StreamLine>): nat {
    if lines == [] then 0 else (if lines[0].StatusLine? then 1 else 0) + CountStatusLines(lines[1..])
  }

  /** How many of the given polls were answered with 200. */
  function CountOk(obs: seq<Observation>): nat {
    if obs == [] then 0 else CountOk(obs[..|obs| - 1]) + (if obs[|obs| - 1].response.status == 200 then 1 else 0)
  }

  lemma {:induction false} CountStatusLinesAppend(a: seq<StreamLine>, b: seq<StreamLine>)
    ensures CountStatusLines(a + b) == CountStatusLines(a) + CountStatusLines(b)
  {
    if a == [] {
      assert a + b == b;
    } else {
      assert (a + b)[1..] == a[1..] + b;
      CountStatusLinesAppend(a[1..], b);
    }
  }

  lemma {:induction false} CountStatusLinesNone(lines: seq<StreamLine>)
    requires forall j :: 0 <= j < |lines| ==> !lines[j].StatusLine?
    ensures CountStatusLines(lines) == 0
  {
    if lines != [] {
      CountStatusLinesNone(lines[1..]);
    }
  }

  lemma {:induction false} CountStatusLinesAll(lines: seq<StreamLine>)
    requires forall j :: 0 <= j < |lines| ==> lines[j].StatusLine?
    ensures CountStatusLines(lines) == |lines|
  {
    if lines != [] {
      CountStatusLinesAll(lines[1..]);
    }
  }

  lemma {:induction false} CountOkAll(obs: seq<Observation>)
    requires forall j :: 0 <= j < |obs| ==> obs[j].response.status == 200
    ensures CountOk(obs) == |obs|
  {
    if obs != [] {
      CountOkAll(obs[..|obs| - 1]);
    }
  }

  /** The stopping turn adds a status line exactly when its poll was answered with 200. */
  lemma EndingStatusLines(t: int, o: Observation)
    ensures CountStatusLines(Ending(t, o)) == if TimedOut(t, o) || o.response.status != 200 then 0 else 1
  {
    if !TimedOut(t, o) && o.response.status == 200 {
      var body := o.response.body;
      CountStatusLinesNone(Details(body));
      CountStatusLinesAppend([StatusLineOf(body)] + [FinalStatus(StatusOf(body))], Details(body));
      CountStatusLinesAppend([StatusLineOf(body)], [FinalStatus(StatusOf(body))]);
    }
  }

  /** The status lines of a report that stops at turn `k`, after `k` turns
      answered with 200. */
  lemma StreamedStatusLines(predictionId: string, t: int, obs: seq<Observation>, k: nat)
    requires k < |obs| && forall j :: 0 <= j < k ==> obs[j].response.status == 200
    ensures CountStatusLines([Header(predictionId)] + StatusLines(obs[..k]) + Ending(t, obs[k])) ==
            CountOk(obs[..if TimedOut(t, obs[k]) then k else k + 1])
  {
    var statuses := StatusLines(obs[..k]);
    assert CountStatusLines(statuses) == k by {
      CountStatusLinesAll(statuses);
    }
    assert CountOk(obs[..k]) == k by {
      CountOkAll(obs[..k]);
    }
    assert CountStatusLines([Header(predictionId)] + statuses + Ending(t, obs[k])) ==
           k + CountStatusLines(Ending(t, obs[k])) by {
      CountStatusLinesAppend([Header(predictionId)], statuses);
      CountStatusLinesAppend([Header(predictionId)] + statuses, Ending(t, obs[k]));
      assert CountStatusLines([Header(predictionId)]) == 0;
    }
    EndingStatusLines(t, obs[k]);
    if !TimedOut(t, obs[k]) {
      assert obs[..k + 1][..k] == obs[..k];
    }
  }

  /** One status line per poll answered with 200: the report's status lines
      are counted by the polls the run issued. */
  lemma StreamStatusPerPoll(predictionId: string, timeout: Option<int>, pollInterval: Option<int>,
                            obs: seq<Observation>)
    requires Finite(timeout, pollInterval, obs)
    ensures var out := StreamSpec(predictionId, timeout, pollInterval, obs);
      var polls := StreamPolls(timeout, pollInterval, obs);
      out.Streamed? ==> polls <= |obs| && CountStatusLines(out.lines) == CountOk(obs[..polls])
  {
    if timeout.Some? {
      var t := timeout.value;
      var k := LastTurn(t, pollInterval, obs);
      assert forall j :: 0 <= j < k ==> obs[j].response.status == 200 by {
        forall j | 0 <= j < k ensures obs[j].response.status == 200 {
          assert !Ends(t, pollInterval, obs[j]);
        }
      }
      StreamedStatusLines(predictionId, t, obs, k);
    }
  }
}
