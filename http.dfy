/** What the wrappers send to and receive from the prediction-hosting API.
    Responses, clock readings and poll results are inputs of the model. */
module Http {
  import opened Python

  const API_BASE: string := "https://api.replicate.com/v1"

  datatype Verb = GET | POST | PATCH | DELETE

  type Headers = seq<(string, string)>

  /** A request as the `requests` call would issue it: `params` become the
      query string, `json` the body. */
  datatype Request = Request(verb: Verb, url: string, headers: Headers, params: Entries, json: Option<Value>)

  /** A response: the status code, the decoded JSON object and the raw text. */
  datatype Response = Response(status: int, body: Entries, text: string)

  /** `raise_for_status()` raises exactly for 4xx and 5xx codes. */
  predicate IsHttpError(status: int) {
    400 <= status < 600
  }

  /** The headers every tool sends, with the token already extracted. */
  function ToolHeaders(token: Value): (h: Headers)
    ensures |h| == 2 && h[0] == ("Authorization", "Token " + Show(token))
  {
    [("Authorization", "Token " + Show(token)), ("Content-Type", "application/json")]
  }

  /** The "{prefix}{code} - {text}" reply the tools give for an unexpected status. */
  function StatusError(prefix: string, r: Response): string {
    prefix + IntToString(r.status) + " - " + r.text
  }

  /** One turn of a poll loop: the elapsed time the loop's clock check reads,
      and the response of the poll that follows that check. */
  datatype Observation = Observation(elapsed: real, response: Response)

  /** The status field of a prediction body (`prediction.get('status')`). */
  function StatusOf(body: Entries): Value {
    Get(body, "status")
  }

  /** `status in ['succeeded', 'failed', 'canceled']`. */
  predicate IsTerminal(status: Value) {
    status == Str("succeeded") || status == Str("failed") || status == Str("canceled")
  }

  /** The index of the first element satisfying `p`: where a poll loop stops. */
  function FirstIndex<T>(s: seq<T>, p: T -> bool): (k: nat)
    requires exists i :: 0 <= i < |s| && p(s[i])
    ensures k < |s| && p(s[k])
    ensures forall j :: 0 <= j < k ==> !p(s[j])
    decreases |s|
  {
    if p(s[0]) then 0
    else
      assert exists i :: 0 <= i < |s[1..]| && p(s[1..][i]) by {
        var i :| 0 <= i < |s| && p(s[i]);
        assert i > 0 && s[1..][i - 1] == s[i];
      }
      1 + FirstIndex(s[1..], p)
  }

  /** The query parameters of every paginated listing: `cursor` and `limit`,
      each only when truthy. */
  function PageEntries(cursor: Option<string>, limit: Option<int>): (r: Entries)
    ensures "cursor" in Keys(r) <==> cursor.Some? && cursor.value != ""
    ensures "limit" in Keys(r) <==> limit.Some? && limit.value != 0
    ensures "cursor" in Keys(r) ==> Lookup(r, "cursor") == Some(Str(cursor.value))
    ensures "limit" in Keys(r) ==> Lookup(r, "limit") == Some(Int(limit.value))
    ensures forall k :: k in Keys(r) ==> k == "cursor" || k == "limit"
  {
    var c, l := ("cursor", OptStr(cursor)), ("limit", OptInt(limit));
    var r := TruthyEntries([c, l]);
    TruthyPair(c, l);
    if Truthy(c.1) && Truthy(l.1) then
      assert r == [c, l] && Keys(r) == ["cursor", "limit"];
      r
    else if Truthy(c.1) then
      assert r == [c] && Keys(r) == ["cursor"];
      r
    else if Truthy(l.1) then
      assert r == [l] && Keys(r) == ["limit"];
      r
    else
      assert r == [] && Keys(r) == [];
      r
  }

  lemma TruthyPair(c: (string, Value), l: (string, Value))
    ensures TruthyEntries([c, l]) == (if Truthy(c.1) then [c] else []) + (if Truthy(l.1) then [l] else [])
  {
    assert [c, l][1..] == [l] && [l][1..] == [];
    assert TruthyEntries([l]) == if Truthy(l.1) then [l] else [];
  }

  /** `PageEntries`, filled in place as the source does. */
  method PageParams(cursor: Option<string>, limit: Option<int>) returns (params: Entries)
    ensures params == PageEntries(cursor, limit)
  {
    ghost var c, l := ("cursor", OptStr(cursor)), ("limit", OptInt(limit));
    params := [];
    if Truthy(OptStr(cursor)) {
      params := Set(params, "cursor", OptStr(cursor));
    }
    ghost var mid := params;
    assert mid == if Truthy(c.1) then [c] else [];
    if Truthy(OptInt(limit)) {
      assert "limit" !in Keys(mid);
      params := Set(params, "limit", OptInt(limit));
    }
    assert params == mid + (if Truthy(l.1) then [l] else []);
    TruthyPair(c, l);
  }
}