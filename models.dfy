/** The model-management tools (agent_tools/replicate/models.py): the token
    helper, and for each tool the request it sends and the reply it gives for
    the response it gets back. */
module Models {
  import opened Python
  import opened Http

  /** The values `extract_token_from_data` tries on a dict, in order: under
      `token`, `access_token` and `api_key`. */
  function TokenValues(e: Entries): seq<Value> {
    [Get(e, "token"), Get(e, "access_token"), Get(e, "api_key")]
  }

  /** `extract_token_from_data`: a string is the token itself; a dict yields
      `get('token') or get('access_token') or get('api_key')`; anything else
      its `str()`. */
  function ExtractToken(tokenData: Value): (r: Value)
    ensures tokenData.Str? ==> r == tokenData
    ensures !tokenData.Str? && !tokenData.Dict? ==> r == Str(Show(tokenData))
    ensures tokenData.Dict? ==>
              (Truthy(r) <==> exists i :: 0 <= i < 3 && Truthy(TokenValues(tokenData.entries)[i]))
    ensures tokenData.Dict? && Truthy(r) ==>
              exists i :: 0 <= i < 3 && r == TokenValues(tokenData.entries)[i] &&
                          forall j :: 0 <= j < i ==> !Truthy(TokenValues(tokenData.entries)[j])
    ensures tokenData.Dict? && !Truthy(r) ==> r == Get(tokenData.entries, "api_key")
  {
    match tokenData
    case Str(_) => tokenData
    case Dict(e) =>
      TokenChain(TokenValues(e));
      Or(Or(Get(e, "token"), Get(e, "access_token")), Get(e, "api_key"))
    case _ => Str(Show(tokenData))
  }

  /** `a or b or c` picks the first truthy value, and the last one when none is. */
  lemma TokenChain(vs: seq<Value>)
    requires |vs| == 3
    ensures var r := Or(Or(vs[0], vs[1]), vs[2]);
      (Truthy(r) <==> exists i :: 0 <= i < 3 && Truthy(vs[i])) &&
      (Truthy(r) ==> exists i :: 0 <= i < 3 && r == vs[i] && forall j :: 0 <= j < i ==> !Truthy(vs[j])) &&
      (!Truthy(r) ==> r == vs[2])
  {
    var r := Or(Or(vs[0], vs[1]), vs[2]);
    if Truthy(vs[0]) {
      assert r == vs[0];
    } else if Truthy(vs[1]) {
      assert r == vs[1] && forall j :: 0 <= j < 1 ==> !Truthy(vs[j]);
    } else if Truthy(vs[2]) {
      assert r == vs[2] && forall j :: 0 <= j < 2 ==> !Truthy(vs[j]);
    }
  }

  /** The headers every model tool sends. */
  function AuthHeaders(token: Value): Headers {
    ToolHeaders(ExtractToken(token))
  }

  function ModelUrl(owner: string, name: string): string {
    API_BASE + "/models/" + owner + "/" + name
  }

  /** `min(limit, 100)` on a given limit. */
  function CapLimit(limit: Option<int>): (r: Option<int>)
    ensures limit.None? <==> r.None?
    ensures r.Some? ==> r.value <= 100 && (r.value == limit.value || r.value == 100)
    ensures r.Some? ==> (r.value == 0 <==> limit.value == 0)
  {
    match limit
    case None => None
    case Some(n) => Some(if n < 100 then n else 100)
  }

  // ---------------------------------------------------------------- list_models

  /** The request `list_models` sends: `cursor` when truthy, and `limit` when
      truthy, capped at 100. */
  method ListModelsRequest(token: Value, cursor: Option<string>, limit: Option<int>) returns (req: Request)
    ensures req.verb == GET && req.url == API_BASE + "/models" && req.headers == AuthHeaders(token) && req.json == None
    ensures "cursor" in Keys(req.params) <==> cursor.Some? && cursor.value != ""
    ensures "cursor" in Keys(req.params) ==> Lookup(req.params, "cursor") == Some(Str(cursor.value))
    ensures "limit" in Keys(req.params) <==> limit.Some? && limit.value != 0
    ensures "limit" in Keys(req.params) ==>
              Lookup(req.params, "limit") == Some(Int(if limit.value < 100 then limit.value else 100))
    ensures forall n :: Lookup(req.params, "limit") == Some(Int(n)) ==> n <= 100
    ensures forall k :: k in Keys(req.params) ==> k == "cursor" || k == "limit"
  {
    var params := PageParams(cursor, CapLimit(limit));
    req := Request(GET, API_BASE + "/models", AuthHeaders(token), params, None);
  }

  /** One line group of the listing: the count, one group per model, and the
      next-page cursor. */
  datatype ListLine =
    | Found(count: nat)
    | ModelEntry(owner: Value, name: Value, description: Value, visibility: Value, url: Value)
    | NextCursor(cursor: Value)

  /** A tool reply: the listing, or a one-line message. */
  datatype Listing = Lines(lines: seq<ListLine>) | Message(text: string)

  const LIST_FAILURE: string := "Failed to list Replicate models: "

  /** The group the loop appends for one model (a dict). */
  function EntryOf(model: Entries): ListLine {
    ModelEntry(Get(model, "owner"), Get(model, "name"), DictGet(model, "description", Str("No description")),
               DictGet(model, "visibility", Str("unknown")), DictGet(model, "url", Str("N/A")))
  }

  function NextLines(body: Entries): seq<ListLine> {
    if Truthy(Get(body, "next")) then [NextCursor(Get(body, "next"))] else []
  }

  function EntriesOf(models: seq<Value>): seq<ListLine>
    requires forall i :: 0 <= i < |models| ==> models[i].Dict?
  {
    seq(|models|, i requires 0 <= i < |models| => EntryOf(models[i].entries))
  }

  /** One group per model, or the AttributeError of `.get` on the first
      element that is no dict. */
  function GroupsOf(models: seq<Value>): (r: Result<seq<ListLine>, string>)
    ensures r.Success? <==> forall i :: 0 <= i < |models| ==> models[i].Dict?
    ensures r.Success? ==> |r.value| == |models| && forall i :: 0 <= i < |r.value| ==> r.value[i].ModelEntry?
  {
    if exists i :: 0 <= i < |models| && NotDict(models[i]) then
      Failure(AttrError(models[FirstIndex(models, NotDict)], "get"))
    else
      Success(EntriesOf(models))
  }

  /** The reply of `list_models` for a response, declaratively: a status other
      than 200 is reported, and `len(results)` fails on a value without a length. */
  function ListingOf(resp: Response): Listing {
    if resp.status != 200 then Message(StatusError("Error listing models: ", resp))
    else
      var results := DictGet(resp.body, "results", List([]));
      match Iterate(results)
      case None => Message(LIST_FAILURE + LenError(results))
      case Some(models) =>
        match GroupsOf(models)
        case Failure(e) => Message(LIST_FAILURE + e)
        case Success(groups) => Lines([Found(|models|)] + groups + NextLines(resp.body))
  }

  /** The `for model in models` loop, one model at a time. */
  method ModelGroups(models: seq<Value>) returns (r: Result<seq<ListLine>, string>)
    ensures r == GroupsOf(models)
  {
    var groups := [];
    var i := 0;
    while i < |models|
      invariant 0 <= i <= |models|
      invariant forall j :: 0 <= j < i ==> models[j].Dict?
      invariant groups == EntriesOf(models[..i])
    {
      if !models[i].Dict? {
        r := Failure(AttrError(models[i], "get"));
        assert r == GroupsOf(models) by {
          assert NotDict(models[i]);
          var k := FirstIndex(models, NotDict);
          assert !(k < i) && !(i < k);
        }
        return;
      }
      EntriesOfSnoc(models, i);
      groups := groups + [EntryOf(models[i].entries)];
      i := i + 1;
    }
    r := Success(groups);
    assert r == GroupsOf(models) by {
      assert models[..i] == models;
      assert forall j :: 0 <= j < |models| ==> !NotDict(models[j]);
    }
  }

  lemma EntriesOfSnoc(models: seq<Value>, i: nat)
    requires i < |models| && forall j :: 0 <= j <= i ==> models[j].Dict?
    ensures EntriesOf(models[..i + 1]) == EntriesOf(models[..i]) + [EntryOf(models[i].entries)]
  {
    var l := EntriesOf(models[..i + 1]);
    var r := EntriesOf(models[..i]) + [EntryOf(models[i].entries)];
    assert |l| == |r|;
    forall j | 0 <= j < |l| ensures l[j] == r[j] {
      assert models[..i + 1][j] == models[j];
      if j < i {
        assert models[..i][j] == models[j];
      }
    }
  }

  /** `list_models` after the request. */
  method ListModelsReply(resp: Response) returns (reply: Listing)
    ensures reply == ListingOf(resp)
  {
    if resp.status != 200 {
      return Message(StatusError("Error listing models: ", resp));
    }
    var results := DictGet(resp.body, "results", List([]));
    var iterated := Iterate(results);
    if iterated.None? {
      return Message(LIST_FAILURE + LenError(results));
    }
    var models := iterated.value;
    var groups := ModelGroups(models);
    if groups.Failure? {
      return Message(LIST_FAILURE + groups.error);
    }
    reply := Lines([Found(|models|)] + groups.value + NextLines(resp.body));
  }

  function CountEntries(lines: seq<ListLine>): nat {
    if lines == [] then 0 else (if lines[0].ModelEntry? then 1 else 0) + CountEntries(lines[1..])
  }

  lemma {:induction false} CountEntriesAppend(a: seq<ListLine>, b: seq<ListLine>)
    ensures CountEntries(a + b) == CountEntries(a) + CountEntries(b)
  {
    if a != [] {
      assert (a + b)[1..] == a[1..] + b;
      CountEntriesAppend(a[1..], b);
    } else {
      assert a + b == b;
    }
  }

  lemma {:induction false} CountEntriesAll(lines: seq<ListLine>)
    requires forall i :: 0 <= i < |lines| ==> lines[i].ModelEntry?
    ensures CountEntries(lines) == |lines|
  {
    if lines != [] {
      CountEntriesAll(lines[1..]);
    }
  }

  /** The listing starts with "Found N models" where N is both the length of
      `results` and the number of model groups that follow; the next-page
      cursor line comes last, and appears iff `next` is truthy. */
  lemma ListingSummary(resp: Response)
    requires ListingOf(resp).Lines?
    ensures var lines := ListingOf(resp).lines;
      var models := Iterate(DictGet(resp.body, "results", List([]))).value;
      |lines| >= 1 && lines[0] == Found(|models|) && lines[0] == Found(CountEntries(lines))
    ensures var lines := ListingOf(resp).lines;
      (lines[|lines| - 1].NextCursor? <==> Truthy(Get(resp.body, "next"))) &&
      forall i :: 0 <= i < |lines| - 1 ==> !lines[i].NextCursor?
  {
    var models := Iterate(DictGet(resp.body, "results", List([]))).value;
    var es := GroupsOf(models).value;
    assert ListingOf(resp).lines == [Found(|models|)] + es + NextLines(resp.body);
    LinesShape(|models|, es, NextLines(resp.body));
  }

  /** A header, model groups and at most one cursor line: the header counts
      the groups, and only the last line can be the cursor. */
  lemma LinesShape(n: nat, es: seq<ListLine>, next: seq<ListLine>)
    requires n == |es| && forall i :: 0 <= i < |es| ==> es[i].ModelEntry?
    requires next == [] || (|next| == 1 && next[0].NextCursor?)
    ensures var lines := [Found(n)] + es + next;
      lines[0] == Found(CountEntries(lines)) &&
      (lines[|lines| - 1].NextCursor? <==> next != []) &&
      forall i :: 0 <= i < |lines| - 1 ==> !lines[i].NextCursor?
  {
    var lines := [Found(n)] + es + next;
    CountEntriesAll(es);
    CountEntriesAppend([Found(n)], es);
    CountEntriesAppend([Found(n)] + es, next);
    if next != [] {
      assert CountEntries(next) == 0 by { assert next[1..] == []; }
    }
    forall i | 0 <= i < |lines| - 1 ensures !lines[i].NextCursor? {
      if 0 < i {
        assert lines[i] == es[i - 1];
      }
    }
  }

  // ---------------------------------------------------------------- create_model

  /** The optional fields of `create_model`, as the caller gave them. */
  function CreateOptionals(description: Option<string>, githubUrl: Option<string>, paperUrl: Option<string>,
                           licenseUrl: Option<string>, coverImageUrl: Option<string>): Entries {
    [("description", OptStr(description)), ("github_url", OptStr(githubUrl)), ("paper_url", OptStr(paperUrl)),
     ("license_url", OptStr(licenseUrl)), ("cover_image_url", OptStr(coverImageUrl))]
  }

  function CreateRequired(modelName: string, visibility: string, hardware: string): Entries {
    [("name", Str(modelName)), ("visibility", Str(visibility)), ("hardware", Str(hardware))]
  }

  lemma CreateRequiredFields(modelName: string, visibility: string, hardware: string)
    ensures var req := CreateRequired(modelName, visibility, hardware);
      Keys(req) == ["name", "visibility", "hardware"] &&
      Lookup(req, "name") == Some(Str(modelName)) && Lookup(req, "visibility") == Some(Str(visibility)) &&
      Lookup(req, "hardware") == Some(Str(hardware))
  {
    var req := CreateRequired(modelName, visibility, hardware);
    assert req[1..] == [req[1], req[2]] && req[1..][1..] == [req[2]];
  }

  lemma CreateOptionalsDistinct(description: Option<string>, githubUrl: Option<string>, paperUrl: Option<string>,
                                licenseUrl: Option<string>, coverImageUrl: Option<string>)
    ensures DistinctKeys(CreateOptionals(description, githubUrl, paperUrl, licenseUrl, coverImageUrl))
  {
    UpdateFieldsDistinct(None, None, description, githubUrl, paperUrl, licenseUrl, coverImageUrl);
    assert CreateOptionals(description, githubUrl, paperUrl, licenseUrl, coverImageUrl) ==
           UpdateFields(None, None, description, githubUrl, paperUrl, licenseUrl, coverImageUrl)[2..];
  }

  /** The truthy optional fields behind a fixed prefix, entry by entry. */
  lemma OptionalsKept(base: Entries, description: Option<string>, githubUrl: Option<string>, paperUrl: Option<string>,
                      licenseUrl: Option<string>, coverImageUrl: Option<string>)
    ensures var opts := CreateOptionals(description, githubUrl, paperUrl, licenseUrl, coverImageUrl);
      base + TruthyEntries(opts) == base + Kept(opts[0]) + Kept(opts[1]) + Kept(opts[2]) + Kept(opts[3]) + Kept(opts[4])
  {
    var opts := CreateOptionals(description, githubUrl, paperUrl, licenseUrl, coverImageUrl);
    assert base + TruthyEntries([]) == base;
    TruthyEntriesSnocAfter(base, [], opts[0]);
    TruthyEntriesSnocAfter(base, [] + [opts[0]], opts[1]);
    TruthyEntriesSnocAfter(base, [] + [opts[0]] + [opts[1]], opts[2]);
    TruthyEntriesSnocAfter(base, [] + [opts[0]] + [opts[1]] + [opts[2]], opts[3]);
    TruthyEntriesSnocAfter(base, [] + [opts[0]] + [opts[1]] + [opts[2]] + [opts[3]], opts[4]);
    assert opts == [] + [opts[0]] + [opts[1]] + [opts[2]] + [opts[3]] + [opts[4]];
  }

  /** The five `if value: data[key] = value` steps shared by `create_model`
      and `update_model`, on a dict that holds none of their keys yet. */
  method PutOptionals(data: Entries, description: Option<string>, githubUrl: Option<string>,
                      paperUrl: Option<string>, licenseUrl: Option<string>, coverImageUrl: Option<string>)
    returns (d: Entries)
    requires "description" !in Keys(data) && "github_url" !in Keys(data) && "paper_url" !in Keys(data)
    requires "license_url" !in Keys(data) && "cover_image_url" !in Keys(data)
    ensures d == data + TruthyEntries(CreateOptionals(description, githubUrl, paperUrl, licenseUrl, coverImageUrl))
  {
    ghost var done := {};
    d := PutIfTruthy(data, "description", OptStr(description), data, done);
    done := done + {"description"};
    d := PutIfTruthy(d, "github_url", OptStr(githubUrl), data, done);
    done := done + {"github_url"};
    d := PutIfTruthy(d, "paper_url", OptStr(paperUrl), data, done);
    done := done + {"paper_url"};
    d := PutIfTruthy(d, "license_url", OptStr(licenseUrl), data, done);
    done := done + {"license_url"};
    d := PutIfTruthy(d, "cover_image_url", OptStr(coverImageUrl), data, done);
    OptionalsKept(data, description, githubUrl, paperUrl, licenseUrl, coverImageUrl);
  }

  /** The `create_model` payload: the three required fields, then each
      optional field exactly when its argument is truthy. */
  function CreatePayload(modelName: string, visibility: string, hardware: string, description: Option<string>,
                         githubUrl: Option<string>, paperUrl: Option<string>, licenseUrl: Option<string>,
                         coverImageUrl: Option<string>): (r: Entries)
    ensures |r| >= 3 && Keys(r)[..3] == ["name", "visibility", "hardware"]
    ensures Lookup(r, "name") == Some(Str(modelName)) && Lookup(r, "visibility") == Some(Str(visibility)) &&
            Lookup(r, "hardware") == Some(Str(hardware))
    ensures forall k :: k !in ["name", "visibility", "hardware"] ==>
              Lookup(r, k) == IfTruthy(Lookup(CreateOptionals(description, githubUrl, paperUrl, licenseUrl, coverImageUrl), k))
  {
    var req := CreateRequired(modelName, visibility, hardware);
    var opts := CreateOptionals(description, githubUrl, paperUrl, licenseUrl, coverImageUrl);
    CreateOptionalsDistinct(description, githubUrl, paperUrl, licenseUrl, coverImageUrl);
    FixedThenTruthyAll(req, opts);
    CreateRequiredFields(modelName, visibility, hardware);
    req + TruthyEntries(opts)
  }

  /** The request `create_model` sends, with the payload filled in place. */
  method CreateModelRequest(token: Value, modelName: string, visibility: string, hardware: string,
                            description: Option<string>, githubUrl: Option<string>, paperUrl: Option<string>,
                            licenseUrl: Option<string>, coverImageUrl: Option<string>) returns (req: Request)
    ensures req == Request(POST, API_BASE + "/models", AuthHeaders(token), [],
                           Some(Dict(CreatePayload(modelName, visibility, hardware, description, githubUrl,
                                                   paperUrl, licenseUrl, coverImageUrl))))
  {
    var required := CreateRequired(modelName, visibility, hardware);
    assert Keys(required) == ["name", "visibility", "hardware"];
    var data := PutOptionals(required, description, githubUrl, paperUrl, licenseUrl, coverImageUrl);
    req := Request(POST, API_BASE + "/models", AuthHeaders(token), [], Some(Dict(data)));
  }

  // ---------------------------------------------------------------- update_model

  /** The fields `update_model` may change, as the caller gave them. */
  function UpdateFields(visibility: Option<string>, hardware: Option<string>, description: Option<string>,
                        githubUrl: Option<string>, paperUrl: Option<string>, licenseUrl: Option<string>,
                        coverImageUrl: Option<string>): Entries {
    [("visibility", OptStr(visibility)), ("hardware", OptStr(hardware))] +
    CreateOptionals(description, githubUrl, paperUrl, licenseUrl, coverImageUrl)
  }

  lemma UpdateFieldsDistinct(visibility: Option<string>, hardware: Option<string>, description: Option<string>,
                             githubUrl: Option<string>, paperUrl: Option<string>, licenseUrl: Option<string>,
                             coverImageUrl: Option<string>)
    ensures DistinctKeys(UpdateFields(visibility, hardware, description, githubUrl, paperUrl, licenseUrl, coverImageUrl))
    ensures DistinctKeys(UpdateFields(visibility, hardware, description, githubUrl, paperUrl, licenseUrl, coverImageUrl)[2..])
  {
  }

  /** The `update_model` payload holds exactly the truthy fields, and is empty
      exactly when none is truthy. */
  function UpdatePayload(visibility: Option<string>, hardware: Option<string>, description: Option<string>,
                         githubUrl: Option<string>, paperUrl: Option<string>, licenseUrl: Option<string>,
                         coverImageUrl: Option<string>): (r: Entries)
    ensures var fields := UpdateFields(visibility, hardware, description, githubUrl, paperUrl, licenseUrl, coverImageUrl);
      forall k :: Lookup(r, k) == IfTruthy(Lookup(fields, k))
    ensures var fields := UpdateFields(visibility, hardware, description, githubUrl, paperUrl, licenseUrl, coverImageUrl);
      r == [] <==> forall i :: 0 <= i < |fields| ==> !Truthy(fields[i].1)
  {
    var fields := UpdateFields(visibility, hardware, description, githubUrl, paperUrl, licenseUrl, coverImageUrl);
    forall k ensures Lookup(TruthyEntries(fields), k) == IfTruthy(Lookup(fields, k)) {
      TruthyEntriesLookup(fields, k);
    }
    TruthyEntriesEmpty(fields);
    TruthyEntries(fields)
  }

  /** What a tool does next: reply at once, or send a request. */
  datatype Step = Reply(text: string) | Send(request: Request)

  const NO_UPDATES: string := "No updates provided. Please specify at least one field to update."

  /** `update_model` up to the request: the payload is filled in place, and an
      empty payload is answered without any PATCH. */
  method UpdateModelStep(token: Value, modelOwner: string, modelName: string, visibility: Option<string>,
                         hardware: Option<string>, description: Option<string>, githubUrl: Option<string>,
                         paperUrl: Option<string>, licenseUrl: Option<string>, coverImageUrl: Option<string>)
    returns (step: Step)
    ensures var payload := UpdatePayload(visibility, hardware, description, githubUrl, paperUrl, licenseUrl, coverImageUrl);
      step == if payload == [] then Reply(NO_UPDATES)
              else Send(Request(PATCH, ModelUrl(modelOwner, modelName), AuthHeaders(token), [], Some(Dict(payload))))
  {
    var data := UpdateData(visibility, hardware, description, githubUrl, paperUrl, licenseUrl, coverImageUrl);
    if data == [] {
      return Reply(NO_UPDATES);
    }
    step := Send(Request(PATCH, ModelUrl(modelOwner, modelName), AuthHeaders(token), [], Some(Dict(data))));
  }

  /** The `data` dict of `update_model`, filled in place one optional field at a time. */
  method UpdateData(visibility: Option<string>, hardware: Option<string>, description: Option<string>,
                    githubUrl: Option<string>, paperUrl: Option<string>, licenseUrl: Option<string>,
                    coverImageUrl: Option<string>) returns (data: Entries)
    ensures data == TruthyEntries(UpdateFields(visibility, hardware, description, githubUrl, paperUrl, licenseUrl,
                                               coverImageUrl))
  {
    data := PutIfTruthy([], "visibility", OptStr(visibility), [], {});
    data := PutIfTruthy(data, "hardware", OptStr(hardware), [], {"visibility"});
    ghost var first := [("visibility", OptStr(visibility)), ("hardware", OptStr(hardware))];
    assert data == TruthyEntries(first) by {
      TruthyEntriesSnoc([], first[0]);
      TruthyEntriesSnoc([first[0]], first[1]);
      assert [] + [first[0]] == [first[0]] && [first[0]] + [first[1]] == first;
    }
    data := PutOptionals(data, description, githubUrl, paperUrl, licenseUrl, coverImageUrl);
    TruthyEntriesAppend(first, CreateOptionals(description, githubUrl, paperUrl, licenseUrl, coverImageUrl));
  }

  /** No PATCH is issued exactly when every optional argument is missing or empty. */
  lemma UpdateWithoutFields(token: Value, modelOwner: string, modelName: string, visibility: Option<string>,
                            hardware: Option<string>, description: Option<string>, githubUrl: Option<string>,
                            paperUrl: Option<string>, licenseUrl: Option<string>, coverImageUrl: Option<string>)
    ensures UpdatePayload(visibility, hardware, description, githubUrl, paperUrl, licenseUrl, coverImageUrl) == [] <==>
      (visibility.None? || visibility.value == "") && (hardware.None? || hardware.value == "") &&
      (description.None? || description.value == "") && (githubUrl.None? || githubUrl.value == "") &&
      (paperUrl.None? || paperUrl.value == "") && (licenseUrl.None? || licenseUrl.value == "") &&
      (coverImageUrl.None? || coverImageUrl.value == "")
  {
    var fields := UpdateFields(visibility, hardware, description, githubUrl, paperUrl, licenseUrl, coverImageUrl);
    assert fields[0].1 == OptStr(visibility) && fields[1].1 == OptStr(hardware) && fields[2].1 == OptStr(description);
    assert fields[3].1 == OptStr(githubUrl) && fields[4].1 == OptStr(paperUrl);
    assert fields[5].1 == OptStr(licenseUrl) && fields[6].1 == OptStr(coverImageUrl);
  }

  // ---------------------------------------------------------------- delete_model

  /** The reply of `delete_model`: success exactly for status 204. */
  function DeleteModelReply(modelOwner: string, modelName: string, resp: Response): (text: string)
    ensures resp.status == 204 <==> StartsWith(text, "Model ")
    ensures resp.status != 204 ==> StartsWith(text, "Error deleting model: ")
  {
    if resp.status == 204 then "Model " + modelOwner + "/" + modelName + " deleted successfully!"
    else
      var t := StatusError("Error deleting model: ", resp);
      assert t[..22] == "Error deleting model: ";
      assert t[..6] != "Model " by { assert t[0] == 'E'; }
      t
  }
}
