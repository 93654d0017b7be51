# Replicate API tools — a Dafny model

This project models the core of a Python package that wraps the Replicate
HTTP API for an agent framework:

- the fifteen agent tools (model management, predictions, code generation);
- the tool factory and its category summary;
- two API clients (`ReplicateClient` and `ReplicateAuthClient`) and the
  `ReplicateConfig` settings holder;
- the dataclass configuration: defaults, validation, `to_dict`, `from_env`
  and `update_config`.

Each HTTP exchange is modelled as a value:

- a `Request` records the verb, URL, headers, query parameters and JSON body the
  code builds;
- a `Response` (status, decoded JSON body, raw text) is an input;
- the wall clock and the server's answers in a polling loop are a sequence of
  `Observation`s (elapsed seconds read by the loop's check, then the response
  of the poll that follows).

Python values (`None`, booleans, integers, floats, strings, lists and dicts)
are the `Python.Value` datatype. A dict is an association list in insertion
order. Truthiness, `dict.get`, `d[k] = v`, `or`, `str()` and the exceptions the
code lets escape are written out in `python.dfy`.

Modules:

- `Python`: value model, dict operations, string helpers (`Upper`, `Lower`,
  `LStrip`, `StartsWith`, integer printing).
- `Http`: requests, responses, the shared tool headers, the terminal-status test
  and `FirstIndex`, which locates where a polling loop stops.
- `Config`: `client/config.py`.
- `Models`, `Predictions`, `CodeGeneration`: the tool functions in
  `agent_tools/replicate/`.
- `ReplicateClient`: `client/replicate_client.py`, with `ReplicateConfig` as the
  class `Settings`.
- `ReplicateAuth`: `client/replicate_auth.py`, including the stable popularity
  ranking of `list_popular_models`.
- `ReplicateTools`: `agent_tools/replicate/replicate_tools.py`.

The polling tools (`stream_prediction`, the five code tools,
`wait_for_prediction`) are methods with `while` loops. Each is proved equal to
a declarative function of the observations, and lemmas about that function
state each way the loop can end. Request building that fills a dict step by
step (`params`, `data`) is a method proved equal to a function whose lemmas
state which keys appear and with which values.

## Model

| member | source | states |
|---|---|---|
| Config.ValidateConfig | client/config.py:229-263 | true exactly when all ten checks hold (timeout, retries, http base URL, tokens, temperature and top-p ranges, prediction limits, default language supported); a failing check is caught, never raised |
| Config.FirstFailure | client/config.py:239-263 | no message exactly when every check passes; otherwise the message of the first failing check, every earlier one passing |
| Config.FailingCheckRejects | client/config.py:239-257 | when check i is the first to fail, the configuration is invalid and check i's message is the one reported |
| Config.DefaultConfigValid | client/config.py:13-76 | the default configuration passes validation |
| Config.SetApi | client/config.py:198-200 | `hasattr`/`setattr` changes only the named attribute, to the value it can store; an unknown name changes nothing |
| Config.UpdateConfig | client/config.py:181-225 | the step-by-step update loops give the declarative `Updated` result, including the AttributeError for a non-dict section |
| Config.UpdatedKeepsUnnamed | client/config.py:196-218 | an attribute not named in a section's keywords keeps its value |
| Config.UpdatedSetsNamed | client/config.py:196-218 | an existing attribute named in a section's keywords takes the stored value of that keyword |
| Config.UpdatedTopLevel | client/config.py:220-223 | each of debug, log_level, cache_enabled, cache_ttl changes exactly when it is a keyword, to that keyword's value |
| Config.UpdatedIgnoresOtherKeywords | client/config.py:181-225 | keywords that are neither a section nor a top-level setting leave the configuration unchanged |
| Config.ToDictFields | client/config.py:122-158 | every section attribute appears under its own name in its section's dict with its value, and no other key does |
| Config.ToDictRoundTrip | client/config.py:122-158 | reading the `to_dict` output back gives the original configuration |
| Config.FromEnv | client/config.py:79-120 | an empty environment gives the defaults; base_url, default_model, code_generation_model and log_level are their variables when set; the booleans are `lower() == "true"`; parsing fails exactly when a set numeric variable does not parse; unread settings keep their defaults |
| Config.FromEnvIntegers | client/config.py:87-118 | each numeric setting is its variable's parsed value when set, else its default |
| Config.GetConfig | client/config.py:162-178 | `use_env` gives the configuration `from_env` built at import time, otherwise the defaults; with an empty environment both are the defaults |
| Config.GetConfigValid | client/config.py:168-178 | the configuration `get_config` returns without the environment passes validation |
| Models.ExtractToken | agent_tools/replicate/models.py:15-21 | a string is returned as is; for a dict, the first truthy of token, access_token, api_key, else the api_key value; anything else is printed with `str` |
| Models.CapLimit | agent_tools/replicate/models.py:45-46 | the limit is capped at 100 and is zero only when the argument is |
| Models.ListModelsRequest | agent_tools/replicate/models.py:36-52 | GET /models with cursor and limit present exactly when truthy; the limit is `min(limit, 100)`; no other parameter |
| Models.ListModelsReply | agent_tools/replicate/models.py:54-73 | the `for` loop over the results gives the declarative listing, including the non-200 message and the `len` and `.get` errors |
| Models.ListingSummary | agent_tools/replicate/models.py:56-66 | the "Found N" header counts the results and equals the number of model entries; the next-page line appears last, exactly when `next` is truthy |
| Models.CreatePayload | agent_tools/replicate/models.py:184-199 | name, visibility, hardware come first; each optional field is present exactly when its argument is truthy, with that value |
| Models.CreateModelRequest | agent_tools/replicate/models.py:184-205 | the in-place filled `data` dict is the create payload, posted to /models |
| Models.PutOptionals | agent_tools/replicate/models.py:189-198 | the five `if value: data[key] = value` steps append exactly the truthy optional fields, in order, to a dict holding none of them |
| Models.UpdatePayload | agent_tools/replicate/models.py:264-278 | each field is present exactly when its argument is truthy; the payload is empty exactly when no argument is truthy |
| Models.UpdateData | agent_tools/replicate/models.py:264-278 | the dict filled from empty one truthy field at a time is the filtered update field list |
| Models.UpdateModelStep | agent_tools/replicate/models.py:264-287 | an empty payload answers with the no-updates text and sends nothing; otherwise it is PATCHed to the model's URL |
| Models.UpdateWithoutFields | agent_tools/replicate/models.py:280-281 | no update is sent exactly when every argument is None or empty |
| Models.DeleteModelReply | agent_tools/replicate/models.py:329-337 | the success text appears exactly for status 204; any other status gives the error text |
| Predictions.PredictionPayload | agent_tools/replicate/predictions.py:49-57 | version and input come first with their values; webhook and webhook_events_filter are present exactly when truthy; no other key |
| Predictions.CreatePredictionRequest | agent_tools/replicate/predictions.py:42-63 | the in-place filled `data` dict is that payload, posted to /predictions with the tool headers |
| Predictions.CreatePredictionError | agent_tools/replicate/predictions.py:65-82 | no error exactly for status 201; otherwise the "Error creating prediction" text |
| Predictions.ListPredictionsRequest | agent_tools/replicate/predictions.py:224-243 | GET /predictions with cursor and limit present exactly when truthy, the limit not capped |
| Predictions.StreamPrediction | agent_tools/replicate/predictions.py:291-359 | the streamed output and the polls sent agree with the declarative stream specification, including a `None` timeout and a failing sleep |
| Predictions.StreamLoop | agent_tools/replicate/predictions.py:307-356 | for a given timeout, the `while True` loop's output and polls agree with the stream specification: one status line per answered poll, then the ending it breaks on |
| Predictions.PollStream | agent_tools/replicate/predictions.py:307-356 | stopping at turn k: one status line per earlier turn, then turn k's ending, or the sleep's error; k polls on a timeout, else k+1, each the same GET |
| Predictions.AppendDetails | agent_tools/replicate/predictions.py:332-349 | the output or error, then logs, then metrics are appended exactly when due |
| Predictions.StreamStartsWithHeader | agent_tools/replicate/predictions.py:304-359 | a streamed result starts with the header and has an ending; the stream fails exactly for a `None` timeout or a sleep that fails before any stop |
| Predictions.StreamTimeout | agent_tools/replicate/predictions.py:309-311 | when turn i is the first stop and is past the timeout, the output ends with the timeout line and i polls were sent |
| Predictions.StreamPollError | agent_tools/replicate/predictions.py:319-321 | when turn i's poll is not 200, the output ends with that error and i+1 polls were sent |
| Predictions.StreamFinal | agent_tools/replicate/predictions.py:323-351 | when turn i reaches a terminal status, the output ends with its status line, the final status and the details |
| Predictions.StreamDetailsOnlyWhenDue | agent_tools/replicate/predictions.py:332-339 | an output line appears only with final status succeeded and a truthy output; an error line only with failed and a truthy error |
| Predictions.StreamStatusPerPoll | agent_tools/replicate/predictions.py:313-326 | the number of status lines equals the number of polls answered with 200 |
| CodeGeneration.ModelName | agent_tools/replicate/code_generation.py:26-32 | a truthy model argument is used, else the tool's default, which is codellama for every tool |
| CodeGeneration.DetailInstruction | agent_tools/replicate/code_generation.py:424-430 | basic and detailed pick their instruction; any other level gets medium |
| CodeGeneration.ExplainPromptLevel | agent_tools/replicate/code_generation.py:424-430 | two explanation prompts for the same code and language are equal exactly when their detail levels fall back to the same level (basic, detailed, or medium for anything else) |
| CodeGeneration.ErrorContext | agent_tools/replicate/code_generation.py:302 | empty exactly when the error message is falsy, else the prefix followed by the message |
| CodeGeneration.CommentInstruction | agent_tools/replicate/code_generation.py:558 | the preserve-comments instruction exactly when `preserve_comments` is true |
| CodeGeneration.PromptOf | agent_tools/replicate/code_generation.py:66-76 | each tool's prompt carries the printed language, the caller's code or requirements, the printed focus, the error context of the message, the instruction of the detail level, and the comment instruction |
| CodeGeneration.InputOf | agent_tools/replicate/code_generation.py:78-84 | generation sends the caller's max_tokens and temperature with repetition penalty 1.1; the others send 3000 tokens with temperature 0.2 (debug, convert) or 0.3; top_p is 0.9 |
| CodeGeneration.JoinOutput | agent_tools/replicate/code_generation.py:117-123 | a list of strings is concatenated, a non-list is printed with `str`, and a list holding a non-string fails with the join TypeError message for its first such item |
| CodeGeneration.JoinOutputAppend | agent_tools/replicate/code_generation.py:119-120 | joining a list extended by one string appends that string |
| CodeGeneration.SuccessText | agent_tools/replicate/code_generation.py:125-128 | the reply contains the result body, the "Model used" line and, for generation, the fenced code |
| CodeGeneration.SettledAnswer | agent_tools/replicate/code_generation.py:113-132 | the reply built for a settled poll is the declarative settled text |
| CodeGeneration.RunCodeTool | agent_tools/replicate/code_generation.py:98-142 | the polling loop's reply and polls agree with the declarative code-tool result |
| CodeGeneration.PollCode | agent_tools/replicate/code_generation.py:107-140 | stopping at turn k: the reply is turn k's answer; one GET per turn whose clock was below 300 seconds |
| CodeGeneration.CreationRejected | agent_tools/replicate/code_generation.py:141-142 | a creation status other than 201 gives the error text and no poll |
| CodeGeneration.CodeSucceeded | agent_tools/replicate/code_generation.py:117-128 | the first settled poll being succeeded gives the success text of its output |
| CodeGeneration.CodeFailed | agent_tools/replicate/code_generation.py:130-132 | the first settled poll being failed gives the failure text, with 'Unknown error' when the error key is missing |
| CodeGeneration.CodeTimedOut | agent_tools/replicate/code_generation.py:107-140 | reaching 300 seconds with no settled poll gives the timeout text |
| CodeGeneration.CanceledKeepsPolling | agent_tools/replicate/code_generation.py:134-138 | a canceled or non-200 poll does not stop the code tools, while the stream tool would stop on it |
| ReplicateClient.NewClient | client/replicate_client.py:16-31 | fails exactly when neither the argument nor the environment token is truthy; the argument wins; the headers carry "Token {token}" |
| ReplicateClient.MakeRequest | client/replicate_client.py:33-48 | accepted exactly when the upper-cased verb is GET, POST, PATCH or DELETE, else the ValueError text; the verb sent is the upper-cased one; the URL is base + "/" + endpoint with its leading slashes removed; only POST and PATCH carry the data as JSON |
| ReplicateClient.MakeRequestIgnoresCase | client/replicate_client.py:37-44 | two spellings of a verb that agree after upper-casing build the same request |
| ReplicateClient.LowerCaseVerbs | client/replicate_client.py:37-44 | get, post, patch and delete are accepted as the four verbs |
| ReplicateClient.LeadingSlashIgnored | client/replicate_client.py:35 | a leading slash on the endpoint does not change the request |
| ReplicateClient.RaiseForStatus | client/replicate_client.py:58-60 | 4xx and 5xx responses raise; others yield the body |
| ReplicateClient.GetModelsRequest | client/replicate_client.py:50-58 | GET /models with cursor and limit present exactly when truthy |
| ReplicateClient.GetPredictionsRequest | client/replicate_client.py:115-123 | GET /predictions with cursor and limit present exactly when truthy |
| ReplicateClient.DropNoneLookup | client/replicate_client.py:82 | the update payload drops exactly the None-valued keywords |
| ReplicateClient.DropNoneKeepsFalsy | client/replicate_client.py:82 | falsy non-None values are kept, unlike the tools' truthiness filter |
| ReplicateClient.UpdateModelRequest | client/replicate_client.py:80-85 | PATCH to the model with the None-free keywords as JSON |
| ReplicateClient.DeleteModel | client/replicate_client.py:87-90 | true exactly for status 204 |
| ReplicateClient.DeleteModelAgreesWithTool | client/replicate_client.py:87-90 | the client reports success exactly when the delete tool prints its success text |
| ReplicateClient.WaitSpec | client/replicate_client.py:133-142 | a completed wait returns a prediction with a terminal status |
| ReplicateClient.WaitForPrediction | client/replicate_client.py:127-142 | the polling loop's outcome and polls agree with the declarative wait specification |
| ReplicateClient.WaitReturnsFirstTerminal | client/replicate_client.py:133-138 | the first in-time poll with a terminal status is returned, after i+1 polls |
| ReplicateClient.WaitTimesOut | client/replicate_client.py:133-142 | reaching the timeout first raises the TimeoutError text, after i polls |
| ReplicateClient.Settings.constructor | client/replicate_client.py:175-179 | the token starts as the environment's; the defaults are 300, 5 and codellama |
| ReplicateClient.Settings.SetApiToken | client/replicate_client.py:181-184 | the stored token becomes the argument |
| ReplicateClient.Settings.SetupAuth | client/replicate_client.py:201-207 | the token is stored, and the setup succeeds exactly when it is non-empty and the probe is no HTTP error |
| ReplicateAuth.NewAuthClient | client/replicate_auth.py:26-35 | fails exactly without a truthy token; three headers, with "Token {token}" and the fixed User-Agent |
| ReplicateAuth.ValidateToken | client/replicate_auth.py:37-52 | true exactly when the probe answers 200; an exception gives false |
| ReplicateAuth.ValidateReplicateToken | client/replicate_auth.py:291-305 | true exactly when a client can be built and its probe answers 200 |
| ReplicateAuth.ResultObject | client/replicate_auth.py:61-81 | success with the body exactly for the expected status; otherwise "HTTP {code}: {text}", or the exception text |
| ReplicateAuth.CreatePredictionRequest | client/replicate_auth.py:174-183 | the posted payload holds exactly the version and the input |
| ReplicateAuth.TestConnection | client/replicate_auth.py:90-127 | on 200, models_available is the length of the results, with both rate-limit headers, and a results value without a length gives the `len` TypeError as an unexpected error; another status gives the HTTP error; a timeout, a connection error and any other exception each give their own message |
| ReplicateAuth.SortSorted | client/replicate_auth.py:255-259 | the ranking is non-increasing by run count and is a permutation of the results |
| ReplicateAuth.SortStable | client/replicate_auth.py:255-259 | models with equal run counts keep their original relative order |
| ReplicateAuth.Prefix | client/replicate_auth.py:263 | `s[:limit]` is a prefix of length min(limit, len) for a non-negative limit; a negative limit drops that many from the end |
| ReplicateAuth.PopularModelsTop | client/replicate_auth.py:252-263 | the data is sorted, at most `limit` long, a sub-multiset of the results, and no dropped model has a higher run count than a kept one |
| ReplicateAuth.PopularModelsStable | client/replicate_auth.py:255-263 | the kept models of each run count are the first such results, in order |
| ReplicateAuth.ListPopularModels | client/replicate_auth.py:243-275 | on 200 the ranked prefix and total_available = number of results before truncation; a non-iterable results value or a result that is no dict gives that exception's error object; otherwise the HTTP or exception error object |
| ReplicateAuth.RankedInput | client/replicate_auth.py:252-259 | the ranking's input is the results when they are an iterable of dicts; otherwise the TypeError of a non-iterable value or the AttributeError of `.get` on the first element that is no dict |
| ReplicateTools.CreateReplicateTools | agent_tools/replicate/replicate_tools.py:22-69 | the list built with `extend` is the model tools, then the prediction tools, then the code tools |
| ReplicateTools.AllOpsOnce | agent_tools/replicate/replicate_tools.py:40-67 | fifteen tools, five per group in group order, every tool function exactly once |
| ReplicateTools.RegistryNames | agent_tools/replicate/replicate_tools.py:41-65 | every tool is named prefix + "_" + its suffix, and the fifteen names are pairwise distinct |
| ReplicateTools.SuffixInjective | agent_tools/replicate/replicate_tools.py:41-65 | different tools have different suffixes |
| ReplicateTools.CategoriesMatchRegistry | agent_tools/replicate/replicate_tools.py:80-105 | each category's count is the length of its tool list, and that list is the group's suffixes in factory order |
| Python.LStrip | client/replicate_client.py:35 | `lstrip('/')` removes the leading run of slashes, so the result does not start with one |
| Http.PageParams | client/replicate_client.py:52-56 | the `params` dict filled by the two `if` steps is the page-parameter list of `PageEntries` |
| Http.PageEntries | client/replicate_client.py:52-56 | cursor and limit are present exactly when truthy, with their values, and no other key |
| Python.PutIfTruthy | agent_tools/replicate/models.py:189-190 | `if value: d[key] = value` for a new key appends the entry exactly when the value is truthy |
| Python.TruthyEntriesLookup | agent_tools/replicate/models.py:264-278 | over distinct keys, a key survives the truthiness filter exactly when its value is truthy, keeping that value |

## Left out

- Actual network I/O: every response is an input value. Bodies are already-decoded JSON objects, so a `response.json()` that fails on a non-JSON body is not modelled.
- The wall clock and `time.sleep`: each loop turn's clock reading comes from the observation sequence, and the loops require that some observation stops them.
- The agent-framework objects (`StructuredTool.from_function`, the pydantic input schemas): a built tool is its name, description, token and which function it runs.
- `json.dumps(..., indent=2)` and the exact prompt wording: streamed details and prompts are structured values, not text.
- The display texts of get_model, get_prediction, cancel_prediction and list_predictions, and the success texts of create_model, update_model and create_prediction. Their requests and error texts are modelled.
- `repr` escaping and float printing inside `str()`: `Python.Show` prints strings and integers exactly and other values approximately.
- Python.Upper: maps ASCII letters only. A verb such as "poſt" (with a long s), which Python upper-cases to POST, is rejected here.
- Config.SetApi (and the other section setters): a value of the wrong type is not stored, while Python's `setattr` stores it; the typed records cannot hold it.
- Config.FromEnv: `int()` and `float()` parsing are parameters.
- ReplicateClient.Settings.SetApiToken: the write to `os.environ` by `set_api_token_env` is not modelled; the process environment is an input everywhere else, never state.
- ReplicateClient.Settings.SetupAuth: the token probe is a response, so a network exception is not modelled separately from an HTTP error.
- ReplicateAuth.ListPopularModels: requires that two or more ranked results have numeric run counts (int, float or bool). Other run counts are not modelled: strings among themselves order lexicographically, and a mix Python cannot order raises a TypeError whose message names the pair compared first, which depends on the comparisons Timsort makes. A non-iterable `results` and a result that is no dict are modelled: the key is computed for every element before any comparison, so these raise whatever the order.
- The `**kwargs` merges of `create_model` and `create_prediction` in the client, and its pass-through getters (`get_model`, `get_prediction`, `cancel_prediction`).
- The copies of `extract_token_from_data` in agent_tools/replicate/predictions.py:15-21 and agent_tools/replicate/code_generation.py:16-22 are identical to the one in models.py, so `Models.ExtractToken` serves all three.
- agent_tools/replicate/replicate.py, load_tools.py and the two `__init__.py` files: these registries import names that no shown module defines.
- The tests and the demo `__main__` blocks.
