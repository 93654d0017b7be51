/** The five code tools (generate, optimize, debug, explain, convert): model
    choice, prompt selections, the prediction they create, the poll loop that
    waits for it, and the texts they answer with. */
module CodeGeneration {
  import opened Python
  import opened Http
  import opened Models
  import opened Predictions

  datatype CodeTool = Generation | Optimization | Debugging | Explanation | Conversion

  /** A call of one of the tools, with the arguments it takes besides `model`. */
  datatype CodeTask =
    | Generate(prompt: string, language: Option<string>, maxTokens: Option<int>, temperature: Option<real>)
    | Optimize(code: string, language: Option<string>, focus: Option<string>)
    | Debug(code: string, errorMessage: Option<string>, language: Option<string>)
    | Explain(code: string, language: Option<string>, detailLevel: Option<string>)
    | Convert(code: string, sourceLanguage: string, targetLanguage: string, preserveComments: Option<bool>)

  function ToolOf(task: CodeTask): CodeTool {
    match task
    case Generate(_, _, _, _) => Generation
    case Optimize(_, _, _) => Optimization
    case Debug(_, _, _) => Debugging
    case Explain(_, _, _) => Explanation
    case Convert(_, _, _, _) => Conversion
  }

  function ToolKey(tool: CodeTool): string {
    match tool
    case Generation => "code_generation"
    case Optimization => "code_optimization"
    case Debugging => "code_debugging"
    case Explanation => "code_explanation"
    case Conversion => "code_conversion"
  }

  const CODELLAMA: string := "meta/codellama-34b-instruct"

  /** `DEFAULT_CODE_MODELS`: every tool defaults to the same model. */
  const DEFAULT_CODE_MODELS: Entries :=
    [("code_generation", Str(CODELLAMA)), ("code_optimization", Str(CODELLAMA)), ("code_debugging", Str(CODELLAMA)),
     ("code_explanation", Str(CODELLAMA)), ("code_conversion", Str(CODELLAMA))]

  /** `model or DEFAULT_CODE_MODELS[key]`: the caller's model when truthy. */
  function ModelName(tool: CodeTool, model: Option<string>): (r: string)
    ensures model.Some? && model.value != "" ==> r == model.value
    ensures model.None? || model.value == "" ==> r == CODELLAMA
  {
    if Truthy(OptStr(model)) then model.value
    else
      var d := DEFAULT_CODE_MODELS;
      assert Lookup(d[4..], ToolKey(tool)) == if tool == Conversion then Some(d[4].1) else Lookup(d[5..], ToolKey(tool));
      assert Lookup(d[3..], ToolKey(tool)) == if tool == Explanation then Some(d[3].1) else Lookup(d[4..], ToolKey(tool));
      assert Lookup(d[2..], ToolKey(tool)) == if tool == Debugging then Some(d[2].1) else Lookup(d[3..], ToolKey(tool));
      assert Lookup(d[1..], ToolKey(tool)) == if tool == Optimization then Some(d[1].1) else Lookup(d[2..], ToolKey(tool));
      assert Lookup(d, ToolKey(tool)) == if tool == Generation then Some(d[0].1) else Lookup(d[1..], ToolKey(tool));
      Show(Get(d, ToolKey(tool)))
  }

  // ---------------------------------------------------------------- prompt selections

  const BASIC_INSTRUCTION: string := "Provide a brief, high-level explanation suitable for beginners"
  const MEDIUM_INSTRUCTION: string := "Provide a detailed explanation with examples and context"
  const DETAILED_INSTRUCTION: string :=
    "Provide a comprehensive explanation with technical details, complexity analysis, and best practices"

  const DETAIL_INSTRUCTIONS: Entries :=
    [("basic", Str(BASIC_INSTRUCTION)), ("medium", Str(MEDIUM_INSTRUCTION)), ("detailed", Str(DETAILED_INSTRUCTION))]

  /** `detail_instructions.get(detail_level, detail_instructions["medium"])`. */
  function DetailInstruction(detailLevel: Option<string>): (r: string)
    ensures detailLevel == Some("basic") ==> r == BASIC_INSTRUCTION
    ensures detailLevel == Some("detailed") ==> r == DETAILED_INSTRUCTION
    ensures detailLevel != Some("basic") && detailLevel != Some("detailed") ==> r == MEDIUM_INSTRUCTION
  {
    match detailLevel
    case None => MEDIUM_INSTRUCTION
    case Some(level) =>
      var d := DETAIL_INSTRUCTIONS;
      assert Lookup(d[2..], level) == if level == "detailed" then Some(d[2].1) else Lookup(d[3..], level);
      assert Lookup(d[1..], level) == if level == "medium" then Some(d[1].1) else Lookup(d[2..], level);
      assert Lookup(d, level) == if level == "basic" then Some(d[0].1) else Lookup(d[1..], level);
      Show(DictGet(d, level, Str(MEDIUM_INSTRUCTION)))
  }

  /** The level `detail_instructions.get` falls back to: anything but basic
      and detailed reads as medium. */
  function EffectiveLevel(detailLevel: Option<string>): string {
    if detailLevel == Some("basic") || detailLevel == Some("detailed") then detailLevel.value else "medium"
  }

  /** Two explanation calls on the same code and language build the same
      prompt exactly when their detail levels fall to the same instruction. */
  lemma ExplainPromptLevel(code: string, language: Option<string>, l1: Option<string>, l2: Option<string>)
    ensures PromptOf(Explain(code, language, l1)) == PromptOf(Explain(code, language, l2)) <==>
            EffectiveLevel(l1) == EffectiveLevel(l2)
  {
    assert |BASIC_INSTRUCTION| == 62 && |MEDIUM_INSTRUCTION| == 56 && |DETAILED_INSTRUCTION| == 99;
  }

  const ERROR_CONTEXT_PREFIX: string := "\nError message: "

  /** The debugging prompt's error context: empty without a message. */
  function ErrorContext(errorMessage: Option<string>): (r: string)
    ensures r == "" <==> errorMessage.None? || errorMessage.value == ""
    ensures r != "" ==> StartsWith(r, ERROR_CONTEXT_PREFIX) && r[|ERROR_CONTEXT_PREFIX|..] == errorMessage.value
  {
    if Truthy(OptStr(errorMessage)) then
      var r := ERROR_CONTEXT_PREFIX + errorMessage.value;
      assert r[..|ERROR_CONTEXT_PREFIX|] == ERROR_CONTEXT_PREFIX;
      r
    else ""
  }

  const PRESERVE_COMMENTS: string := "Preserve and convert comments appropriately"
  const COMMENTS_OPTIONAL: string := "Focus on code conversion, comments optional"

  /** The conversion prompt keeps comments exactly when asked to. */
  function CommentInstruction(preserveComments: Option<bool>): (r: string)
    ensures r == PRESERVE_COMMENTS <==> preserveComments == Some(true)
    ensures r == COMMENTS_OPTIONAL <==> preserveComments != Some(true)
  {
    assert PRESERVE_COMMENTS[0] != COMMENTS_OPTIONAL[0];
    if Truthy(match preserveComments case None => Null case Some(b) => Bool(b)) then PRESERVE_COMMENTS
    else COMMENTS_OPTIONAL
  }

  /** How an optional string argument prints inside an f-string. */
  function Render(o: Option<string>): (s: string)
    ensures o.Some? ==> s == o.value
    ensures o.None? ==> s == "None"
  {
    Show(OptStr(o))
  }

  /** The prompts, as the choices made in them rather than their wording. */
  datatype Prompt =
    | GenerationPrompt(language: string, requirements: string)
    | OptimizationPrompt(language: string, focus: string, code: string)
    | DebuggingPrompt(language: string, code: string, errorContext: string)
    | ExplanationPrompt(language: string, code: string, instruction: string)
    | ConversionPrompt(sourceLanguage: string, targetLanguage: string, code: string, commentInstruction: string)

  /** Each tool's prompt: the language as printed, the caller's text or code,
      and the selections made from the remaining arguments. */
  function PromptOf(task: CodeTask): (p: Prompt)
    ensures task.Generate? ==>
              p.GenerationPrompt? && p.language == Render(task.language) && p.requirements == task.prompt
    ensures task.Optimize? ==>
              p.OptimizationPrompt? && p.language == Render(task.language) && p.focus == Render(task.focus) &&
              p.code == task.code
    ensures task.Debug? ==>
              p.DebuggingPrompt? && p.language == Render(task.language) && p.code == task.code &&
              p.errorContext == ErrorContext(task.errorMessage) &&
              (p.errorContext == "" <==> task.errorMessage.None? || task.errorMessage.value == "")
    ensures task.Explain? ==>
              p.ExplanationPrompt? && p.language == Render(task.language) && p.code == task.code &&
              p.instruction == DetailInstruction(task.detailLevel) &&
              (task.detailLevel == Some("basic") ==> p.instruction == BASIC_INSTRUCTION) &&
              (task.detailLevel == Some("detailed") ==> p.instruction == DETAILED_INSTRUCTION) &&
              (task.detailLevel != Some("basic") && task.detailLevel != Some("detailed") ==>
                 p.instruction == MEDIUM_INSTRUCTION)
    ensures task.Convert? ==>
              p.ConversionPrompt? && p.sourceLanguage == task.sourceLanguage &&
              p.targetLanguage == task.targetLanguage && p.code == task.code &&
              p.commentInstruction == CommentInstruction(task.preserveComments) &&
              (p.commentInstruction == PRESERVE_COMMENTS <==> task.preserveComments == Some(true))
  {
    match task
    case Generate(prompt, language, _, _) => GenerationPrompt(Render(language), prompt)
    case Optimize(code, language, focus) => OptimizationPrompt(Render(language), Render(focus), code)
    case Debug(code, errorMessage, language) => DebuggingPrompt(Render(language), code, ErrorContext(errorMessage))
    case Explain(code, language, detailLevel) => ExplanationPrompt(Render(language), code, DetailInstruction(detailLevel))
    case Convert(code, source, target, preserve) => ConversionPrompt(source, target, code, CommentInstruction(preserve))
  }

  /** The model input each tool sends. */
  datatype ModelInput = ModelInput(prompt: Prompt, maxTokens: Value, temperature: Value, topP: real,
                                   repetitionPenalty: Option<real>)

  /** The body of the prediction each tool creates. */
  datatype CodePrediction = CodePrediction(version: string, input: ModelInput)

  function OptFloat(o: Option<real>): Value {
    match o
    case None => Null
    case Some(r) => Float(r)
  }

  /** Only the generation tool takes its token budget and temperature from
      the caller and adds a repetition penalty; the others use 3000 tokens
      and a fixed temperature. */
  function InputOf(task: CodeTask): (r: ModelInput)
    ensures r.prompt == PromptOf(task) && r.topP == 0.9
    ensures task.Generate? <==> r.repetitionPenalty.Some?
    ensures task.Generate? ==> r.maxTokens == OptInt(task.maxTokens) && r.temperature == OptFloat(task.temperature) &&
                                r.repetitionPenalty == Some(1.1)
    ensures !task.Generate? ==>
              r.maxTokens == Int(3000) && r.temperature == Float(if task.Debug? || task.Convert? then 0.2 else 0.3)
  {
    match task
    case Generate(_, _, maxTokens, temperature) =>
      ModelInput(PromptOf(task), OptInt(maxTokens), OptFloat(temperature), 0.9, Some(1.1))
    case Optimize(_, _, _) => ModelInput(PromptOf(task), Int(3000), Float(0.3), 0.9, None)
    case Debug(_, _, _) => ModelInput(PromptOf(task), Int(3000), Float(0.2), 0.9, None)
    case Explain(_, _, _) => ModelInput(PromptOf(task), Int(3000), Float(0.3), 0.9, None)
    case Convert(_, _, _, _) => ModelInput(PromptOf(task), Int(3000), Float(0.2), 0.9, None)
  }

  /** The prediction the tool creates: its version is the chosen model. */
  function PredictionFor(task: CodeTask, model: Option<string>): (p: CodePrediction)
    ensures p.version == ModelName(ToolOf(task), model) && p.input == InputOf(task)
    ensures model.None? || model.value == "" ==> p.version == CODELLAMA
  {
    CodePrediction(ModelName(ToolOf(task), model), InputOf(task))
  }

  // ---------------------------------------------------------------- output joining

  /** The message of the `TypeError` that `''.join` raises on a non-string item. */
  function JoinError(index: nat, item: Value): string {
    "sequence item " + NatToString(index) + ": expected str instance, " + TypeName(item) + " found"
  }

  function Texts(items: seq<Value>): seq<string>
    requires forall i :: 0 <= i < |items| ==> items[i].Str?
  {
    seq(|items|, i requires 0 <= i < |items| => items[i].s)
  }

  /** `''.join(output)` for a list, `str(output)` otherwise. */
  function JoinOutput(output: Value): (r: Result<string, string>)
    ensures !output.List? ==> r == Success(Show(output))
    ensures output.List? && (forall i :: 0 <= i < |output.items| ==> output.items[i].Str?) ==>
              r == Success(Concat(Texts(output.items)))
    ensures r.Failure? <==> output.List? && exists i :: 0 <= i < |output.items| && !output.items[i].Str?
    ensures r.Failure? ==>
              exists k :: 0 <= k < |output.items| && !output.items[k].Str? &&
                (forall j :: 0 <= j < k ==> output.items[j].Str?) && r.error == JoinError(k, output.items[k])
  {
    match output
    case List(items) =>
      if forall i :: 0 <= i < |items| ==> items[i].Str? then Success(Concat(Texts(items)))
      else
        var k := FirstIndex(items, (v: Value) => !v.Str?);
        Failure(JoinError(k, items[k]))
    case _ => Success(Show(output))
  }

  lemma {:induction false} ConcatAppend(a: seq<string>, b: seq<string>)
    ensures Concat(a + b) == Concat(a) + Concat(b)
  {
    if a == [] {
      assert a + b == b;
    } else {
      assert (a + b)[1..] == a[1..] + b;
      ConcatAppend(a[1..], b);
    }
  }

  /** Joining a list of strings concatenates them: the list's pieces join to
      the joins of the pieces. */
  lemma JoinOutputAppend(a: seq<Value>, b: seq<Value>)
    requires forall i :: 0 <= i < |a| ==> a[i].Str?
    requires forall i :: 0 <= i < |b| ==> b[i].Str?
    ensures JoinOutput(List(a + b)).Success? && JoinOutput(List(a)).Success? && JoinOutput(List(b)).Success?
    ensures JoinOutput(List(a + b)).value == JoinOutput(List(a)).value + JoinOutput(List(b)).value
  {
    assert Texts(a + b) == Texts(a) + Texts(b);
    ConcatAppend(Texts(a), Texts(b));
  }

  /** A one-string list joins to that string, which is also what the string
      alone prints as. */
  lemma JoinOutputSingle(s: string)
    ensures JoinOutput(List([Str(s)])) == JoinOutput(Str(s)) == Success(s)
  {
    var items := [Str(s)];
    assert forall i :: 0 <= i < |items| ==> items[i].Str?;
    assert Texts(items) == [s];
    assert [s][1..] == [];
    assert Concat([s]) == s + Concat([]) == s;
    assert JoinOutput(List(items)) == Success(s);
  }

  // ---------------------------------------------------------------- result texts

  function Noun(tool: CodeTool): string {
    match tool
    case Generation => "generation"
    case Optimization => "optimization"
    case Debugging => "debugging"
    case Explanation => "explanation"
    case Conversion => "conversion"
  }

  /** "Code {noun} timed out after 5 minutes". */
  function TimeoutText(tool: CodeTool): string {
    "Code " + Noun(tool) + " timed out after 5 minutes"
  }

  /** "Code {noun} failed: {error}". */
  function FailedText(tool: CodeTool, error: Value): string {
    "Code " + Noun(tool) + " failed: " + Show(error)
  }

  /** The prefix of the text the tool returns for an exception. */
  function ExceptionPrefix(tool: CodeTool): string {
    match tool
    case Generation => "Failed to generate code: "
    case Optimization => "Failed to optimize code: "
    case Debugging => "Failed to debug code: "
    case Explanation => "Failed to explain code: "
    case Conversion => "Failed to convert code: "
  }

  function Completion(tool: CodeTool): string {
    match tool
    case Generation => "Generation completed successfully!"
    case Optimization => "Optimization completed successfully!"
    case Debugging => "Debug analysis completed successfully!"
    case Explanation => "Explanation completed successfully!"
    case Conversion => "Conversion completed successfully!"
  }

  /** Generated code is wrapped in a fence tagged with the language. */
  function Fence(language: string, code: string): string {
    "```" + language + "\n" + code + "\n```"
  }

  /** The first line of a successful answer and what follows it. */
  function Banner(task: CodeTask): string {
    match task
    case Generate(_, language, _, _) => "Generated " + Render(language) + " code:\n\n"
    case Optimize(_, _, focus) => "Code Optimization Results (" + Render(focus) + "):\n\n"
    case Debug(_, _, _) => "Code Debug Analysis:\n\n"
    case Explain(_, _, detailLevel) => "Code Explanation (" + Render(detailLevel) + " level):\n\n"
    case Convert(_, source, target, _) => "Code Conversion (" + source + " \U{2192} " + target + "):\n\n"
  }

  function Body(task: CodeTask, output: string): string {
    if task.Generate? then Fence(Render(task.language), output) else output
  }

  /** The answer to a succeeded prediction: it carries the output (fenced for
      the generation tool) and names the model used. */
  function SuccessText(task: CodeTask, modelName: string, output: string): (r: string)
    ensures Contains(r, Body(task, output))
    ensures Contains(r, "Model used: " + modelName + "\n")
    ensures task.Generate? ==> Contains(r, Fence(Render(task.language), output))
  {
    var a := Banner(task);
    var b := Body(task, output);
    var m := "Model used: " + modelName + "\n";
    var c := Completion(ToolOf(task));
    ContainsMiddle(a, b, "\n\n" + m + c);
    AppendAssoc(a + b, "\n\n" + m, c);
    AppendAssoc(a + b, "\n\n", m);
    ContainsMiddle(a + b + "\n\n", m, c);
    a + b + "\n\n" + m + c
  }

  // ---------------------------------------------------------------- the poll loop

  const MAX_WAIT: real := 300.0

  /** `status in ['succeeded', 'failed']` on a 200 poll: the only statuses
      that end the loop early. */
  predicate Settled(o: Observation) {
    o.response.status == 200 && Finished(StatusOf(o.response.body))
  }

  /** `status in ["succeeded", "failed"]`. */
  predicate Finished(status: Value) {
    status == Str("succeeded") || status == Str("failed")
  }

  /** The loop goes on while the clock is below the wait and no poll has settled. */
  predicate CodeStops(o: Observation) {
    !(o.elapsed < MAX_WAIT) || Settled(o)
  }

  /** The answer to a settled poll. */
  function SettledText(task: CodeTask, modelName: string, body: Entries): string {
    var tool := ToolOf(task);
    if StatusOf(body) == Str("succeeded") then
      match JoinOutput(Get(body, "output"))
      case Success(out) => SuccessText(task, modelName, out)
      case Failure(e) => ExceptionPrefix(tool) + e
    else FailedText(tool, DictGet(body, "error", Str("Unknown error")))
  }

  /** The answer of the stopping turn. */
  function TurnResult(task: CodeTask, modelName: string, o: Observation): string {
    if !(o.elapsed < MAX_WAIT) then TimeoutText(ToolOf(task))
    else SettledText(task, modelName, o.response.body)
  }

  /** What the loop needs to terminate, once the prediction is created. */
  predicate CodeFinite(create: Response, obs: seq<Observation>) {
    create.status != 201 || exists i :: 0 <= i < |obs| && CodeStops(obs[i])
  }

  /** What a code tool answers, given the creation response and the turns of its loop. */
  function CodeResult(task: CodeTask, model: Option<string>, create: Response, obs: seq<Observation>): string
    requires CodeFinite(create, obs)
  {
    if create.status != 201 then StatusError("Error creating prediction: ", create)
    else
      var k := FirstIndex(obs, CodeStops);
      TurnResult(task, ModelName(ToolOf(task), model), obs[k])
  }

  /** How many status polls the tool issues. */
  function CodePolls(create: Response, obs: seq<Observation>): nat
    requires CodeFinite(create, obs)
  {
    if create.status != 201 then 0
    else
      var k := FirstIndex(obs, CodeStops);
      if obs[k].elapsed < MAX_WAIT then k + 1 else k
  }

  /** The poll each turn issues, for the id the creation answered with. */
  function CodePollRequest(token: Value, create: Response): Request {
    PollRequest(token, Show(Get(create.body, "id")))
  }

  /** The `succeeded` and `failed` branches of the loop body. */
  method SettledAnswer(task: CodeTask, modelName: string, body: Entries) returns (result: string)
    requires Finished(StatusOf(body))
    ensures result == SettledText(task, modelName, body)
  {
    var status := StatusOf(body);
    if status == Str("succeeded") {
      var joined := JoinOutput(Get(body, "output"));
      match joined {
        case Success(out) => result := SuccessText(task, modelName, out);
        case Failure(e) => result := ExceptionPrefix(ToolOf(task)) + e;
      }
    } else {
      result := FailedText(ToolOf(task), DictGet(body, "error", Str("Unknown error")));
    }
  }

  /** Any of the tools after its prediction was requested: report a failed
      creation, or poll until settled or out of time. */
  method RunCodeTool(token: Value, task: CodeTask, model: Option<string>, create: Response, obs: seq<Observation>)
    returns (result: string, polls: seq<Request>)
    requires CodeFinite(create, obs)
    ensures result == CodeResult(task, model, create, obs)
    ensures |polls| == CodePolls(create, obs)
    ensures forall j :: 0 <= j < |polls| ==> polls[j] == CodePollRequest(token, create)
  {
    if create.status != 201 {
      return StatusError("Error creating prediction: ", create), [];
    }
    var modelName := ModelName(ToolOf(task), model);
    FirstCodeStopExists(obs);
    ghost var k := FirstIndex(obs, CodeStops);
    result, polls := PollCode(token, task, modelName, create, obs, k);
    CodeResultAt(task, model, create, obs, k);
  }

  /** The poll loop of a code tool, which stops at turn `k`: one GET per turn
      whose clock is below the wait, and the answer of turn `k`. */
  method PollCode(token: Value, task: CodeTask, modelName: string, create: Response, obs: seq<Observation>,
                  ghost k: nat)
    returns (result: string, polls: seq<Request>)
    requires FirstCodeStop(obs, k)
    ensures result == TurnResult(task, modelName, obs[k])
    ensures |polls| == if obs[k].elapsed < MAX_WAIT then k + 1 else k
    ensures forall j :: 0 <= j < |polls| ==> polls[j] == CodePollRequest(token, create)
  {
    polls := [];
    var i := 0;
    while obs[i].elapsed < MAX_WAIT
      invariant 0 <= i <= k
      invariant |polls| == i
      invariant forall j :: 0 <= j < |polls| ==> polls[j] == CodePollRequest(token, create)
      decreases k - i
    {
      polls := polls + [CodePollRequest(token, create)];
      var response := obs[i].response;
      if response.status == 200 {
        var status := StatusOf(response.body);
        if Finished(status) {
          result := SettledAnswer(task, modelName, response.body);
          assert i == k;
          return;
        }
      }
      assert i < k by {
        assert !CodeStops(obs[i]);
      }
      i := i + 1;
    }
    assert i == k;
    result := TimeoutText(ToolOf(task));
  }

  // ---------------------------------------------------------------- outcomes of the loop

  /** The turn `i` is the first at which the loop stops. */
  predicate FirstCodeStop(obs: seq<Observation>, i: nat) {
    i < |obs| && CodeStops(obs[i]) && forall j :: 0 <= j < i ==> !CodeStops(obs[j])
  }

  lemma FirstCodeStopExists(obs: seq<Observation>)
    requires exists j :: 0 <= j < |obs| && CodeStops(obs[j])
    ensures FirstCodeStop(obs, FirstIndex(obs, CodeStops))
  {
  }

  lemma FirstCodeStopIs(obs: seq<Observation>, i: nat)
    requires FirstCodeStop(obs, i)
    ensures exists j :: 0 <= j < |obs| && CodeStops(obs[j])
    ensures FirstIndex(obs, CodeStops) == i
  {
    var k := FirstIndex(obs, CodeStops);
    assert !(k < i) && !(i < k);
  }

  /** After a created prediction, the answer is the one of the first stopping turn. */
  lemma CodeResultAt(task: CodeTask, model: Option<string>, create: Response, obs: seq<Observation>, i: nat)
    requires create.status == 201 && FirstCodeStop(obs, i)
    ensures CodeFinite(create, obs)
    ensures CodeResult(task, model, create, obs) == TurnResult(task, ModelName(ToolOf(task), model), obs[i])
    ensures CodePolls(create, obs) == if obs[i].elapsed < MAX_WAIT then i + 1 else i
  {
    FirstCodeStopIs(obs, i);
  }

  /** A creation answered with anything but 201 is reported, and nothing is polled. */
  lemma CreationRejected(task: CodeTask, model: Option<string>, create: Response, obs: seq<Observation>)
    requires create.status != 201
    ensures CodeFinite(create, obs)
    ensures StartsWith(CodeResult(task, model, create, obs), "Error creating prediction: ")
    ensures CodePolls(create, obs) == 0
  {
    var s := CodeResult(task, model, create, obs);
    assert s[..|"Error creating prediction: "|] == "Error creating prediction: ";
  }

  /** At the first settled poll with status succeeded, within the wait, the
      answer carries the joined output and the model's name. */
  lemma CodeSucceeded(task: CodeTask, model: Option<string>, create: Response, obs: seq<Observation>, i: nat)
    requires create.status == 201 && FirstCodeStop(obs, i) && obs[i].elapsed < MAX_WAIT
    requires StatusOf(obs[i].response.body) == Str("succeeded")
    requires JoinOutput(Get(obs[i].response.body, "output")).Success?
    ensures CodeFinite(create, obs) && CodePolls(create, obs) == i + 1
    ensures var out := JoinOutput(Get(obs[i].response.body, "output")).value;
      var r := CodeResult(task, model, create, obs);
      r == SuccessText(task, ModelName(ToolOf(task), model), out) &&
      Contains(r, Body(task, out)) && Contains(r, "Model used: " + ModelName(ToolOf(task), model) + "\n")
  {
    CodeResultAt(task, model, create, obs, i);
  }

  lemma SettledFailed(task: CodeTask, modelName: string, body: Entries)
    requires StatusOf(body) == Str("failed")
    ensures SettledText(task, modelName, body) == FailedText(ToolOf(task), DictGet(body, "error", Str("Unknown error")))
  {
    assert Str("failed") != Str("succeeded") by {
      assert "failed"[0] != "succeeded"[0];
    }
  }

  /** At the first settled poll with status failed, within the wait, the
      answer gives the error, or 'Unknown error' when the key is missing. */
  lemma CodeFailed(task: CodeTask, model: Option<string>, create: Response, obs: seq<Observation>, i: nat)
    requires create.status == 201 && FirstCodeStop(obs, i) && obs[i].elapsed < MAX_WAIT
    requires StatusOf(obs[i].response.body) == Str("failed")
    ensures CodeFinite(create, obs) && CodePolls(create, obs) == i + 1
    ensures var body := obs[i].response.body;
      var r := CodeResult(task, model, create, obs);
      r == "Code " + Noun(ToolOf(task)) + " failed: " + Show(DictGet(body, "error", Str("Unknown error"))) &&
      ("error" !in Keys(body) ==> r == "Code " + Noun(ToolOf(task)) + " failed: " + "Unknown error")
  {
    var body := obs[i].response.body;
    var error := DictGet(body, "error", Str("Unknown error"));
    assert CodeFinite(create, obs) && CodePolls(create, obs) == i + 1 &&
           CodeResult(task, model, create, obs) == FailedText(ToolOf(task), error) by {
      CodeResultAt(task, model, create, obs, i);
      SettledFailed(task, ModelName(ToolOf(task), model), body);
    }
    if "error" !in Keys(body) {
      assert Show(error) == "Unknown error";
    }
  }

  /** When the clock reaches the wait before any poll settles, the answer
      is the timeout text and that turn polls no more. */
  lemma CodeTimedOut(task: CodeTask, model: Option<string>, create: Response, obs: seq<Observation>, i: nat)
    requires create.status == 201 && FirstCodeStop(obs, i) && !(obs[i].elapsed < MAX_WAIT)
    ensures CodeFinite(create, obs) && CodePolls(create, obs) == i
    ensures CodeResult(task, model, create, obs) == "Code " + Noun(ToolOf(task)) + " timed out after 5 minutes"
  {
    CodeResultAt(task, model, create, obs, i);
  }

  /** Unlike the stream tool, the code tools keep polling through a
      'canceled' status and through any poll that is not answered with 200. */
  lemma CanceledKeepsPolling(o: Observation)
    requires o.elapsed < MAX_WAIT
    requires o.response.status != 200 || StatusOf(o.response.body) == Str("canceled")
    ensures !CodeStops(o)
    ensures StatusOf(o.response.body) == Str("canceled") ==> Stops(o.elapsed.Floor + 1, o)
  {
  }
}
