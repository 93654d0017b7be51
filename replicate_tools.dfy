/** The tool factory: the fifteen named tools, in three groups of five, and
    the category summary that describes them. */
module ReplicateTools {
  import opened Python

  /** The fifteen tool factories. */
  datatype Operation =
    | ListModels | GetModel | CreateModel | UpdateModel | DeleteModel
    | CreatePrediction | GetPrediction | CancelPrediction | ListPredictions | StreamPrediction
    | GenerateCode | OptimizeCode | DebugCode | ExplainCode | ConvertCode

  datatype Group = ModelGroup | PredictionGroup | CodeGroup

  /** A built tool: its name, the shared description and token, and what it runs. */
  datatype Tool = Tool(name: string, description: Option<string>, token: string, op: Operation)

  function GroupOf(op: Operation): Group {
    match op
    case ListModels | GetModel | CreateModel | UpdateModel | DeleteModel => ModelGroup
    case CreatePrediction | GetPrediction | CancelPrediction | ListPredictions | StreamPrediction => PredictionGroup
    case _ => CodeGroup
  }

  /** The fixed part of each tool's name. */
  function Suffix(op: Operation): string {
    match op
    case ListModels => "list_models"
    case GetModel => "get_model"
    case CreateModel => "create_model"
    case UpdateModel => "update_model"
    case DeleteModel => "delete_model"
    case CreatePrediction => "create_prediction"
    case GetPrediction => "get_prediction"
    case CancelPrediction => "cancel_prediction"
    case ListPredictions => "list_predictions"
    case StreamPrediction => "stream_prediction"
    case GenerateCode => "generate_code"
    case OptimizeCode => "optimize_code"
    case DebugCode => "debug_code"
    case ExplainCode => "explain_code"
    case ConvertCode => "convert_code"
  }

  const MODEL_OPS: seq<Operation> := [ListModels, GetModel, CreateModel, UpdateModel, DeleteModel]
  const PREDICTION_OPS: seq<Operation> :=
    [CreatePrediction, GetPrediction, CancelPrediction, ListPredictions, StreamPrediction]
  const CODE_OPS: seq<Operation> := [GenerateCode, OptimizeCode, DebugCode, ExplainCode, ConvertCode]

  /** The tools built from `ops` for the prefix `name`. */
  function Build(name: string, token: string, description: Option<string>, ops: seq<Operation>): (r: seq<Tool>)
    ensures |r| == |ops|
    ensures forall i :: 0 <= i < |ops| ==> r[i].op == ops[i] && r[i].token == token && r[i].description == description
  {
    seq(|ops|, i requires 0 <= i < |ops| => Tool(name + "_" + Suffix(ops[i]), description, token, ops[i]))
  }

  /** `create_replicate_tools`: the model tools, then the prediction tools,
      then the code tools, each named `{name}_{suffix}`. */
  method CreateReplicateTools(name: string, token: string, description: Option<string>) returns (tools: seq<Tool>)
    ensures tools == Build(name, token, description, ALL_OPS)
  {
    tools := [];
    var modelTools := Build(name, token, description, MODEL_OPS);
    tools := tools + modelTools;
    var predictionTools := Build(name, token, description, PREDICTION_OPS);
    tools := tools + predictionTools;
    var codeTools := Build(name, token, description, CODE_OPS);
    tools := tools + codeTools;
    BuildAppend(name, token, description, MODEL_OPS, PREDICTION_OPS);
    BuildAppend(name, token, description, MODEL_OPS + PREDICTION_OPS, CODE_OPS);
  }

  lemma BuildAppend(name: string, token: string, description: Option<string>, a: seq<Operation>, b: seq<Operation>)
    ensures Build(name, token, description, a + b) ==
            Build(name, token, description, a) + Build(name, token, description, b)
  {
    var l := Build(name, token, description, a + b);
    var r := Build(name, token, description, a) + Build(name, token, description, b);
    forall i | 0 <= i < |l| ensures l[i] == r[i] {
      if i >= |a| {
        assert (a + b)[i] == b[i - |a|];
      }
    }
  }

  /** Different operations have different suffixes. */
  lemma SuffixInjective(p: Operation, q: Operation)
    requires p != q
    ensures Suffix(p) != Suffix(q)
  {
    var s, t := Suffix(p), Suffix(q);
    if |s| == |t| && |s| > 0 {
      assert s[0] != t[0] || s[1] != t[1] || s[|s| - 1] != t[|t| - 1] || s[2] != t[2];
    }
  }

  const ALL_OPS: seq<Operation> := MODEL_OPS + PREDICTION_OPS + CODE_OPS

  /** The position of each operation in the factory's order. */
  function Position(op: Operation): (i: nat)
    ensures i < |ALL_OPS| && ALL_OPS[i] == op
  {
    match op
    case ListModels => 0 case GetModel => 1 case CreateModel => 2 case UpdateModel => 3 case DeleteModel => 4
    case CreatePrediction => 5 case GetPrediction => 6 case CancelPrediction => 7 case ListPredictions => 8
    case StreamPrediction => 9 case GenerateCode => 10 case OptimizeCode => 11 case DebugCode => 12
    case ExplainCode => 13 case ConvertCode => 14
  }

  /** Fifteen tools: the five model tools first, then the five prediction
      tools, then the five code tools, every operation exactly once. */
  lemma AllOpsOnce()
    ensures |ALL_OPS| == 15
    ensures forall i :: 0 <= i < 5 ==> GroupOf(ALL_OPS[i]) == ModelGroup
    ensures forall i :: 5 <= i < 10 ==> GroupOf(ALL_OPS[i]) == PredictionGroup
    ensures forall i :: 10 <= i < 15 ==> GroupOf(ALL_OPS[i]) == CodeGroup
    ensures forall op: Operation :: op in ALL_OPS
    ensures forall i, j :: 0 <= i < j < |ALL_OPS| ==> ALL_OPS[i] != ALL_OPS[j]
  {
    forall op: Operation ensures op in ALL_OPS {
      assert ALL_OPS[Position(op)] == op;
    }
    assert forall i :: 0 <= i < |ALL_OPS| ==> Position(ALL_OPS[i]) == i;
  }

  /** The tool names are pairwise distinct and of the form `{name}_{suffix}`. */
  lemma RegistryNames(name: string, token: string, description: Option<string>)
    ensures var tools := Build(name, token, description, ALL_OPS);
      (forall i :: 0 <= i < |tools| ==> tools[i].name == name + "_" + Suffix(tools[i].op)) &&
      (forall i, j :: 0 <= i < j < |tools| ==> tools[i].name != tools[j].name)
  {
    var tools := Build(name, token, description, ALL_OPS);
    AllOpsOnce();
    forall i, j | 0 <= i < j < |tools| ensures tools[i].name != tools[j].name {
      SuffixInjective(ALL_OPS[i], ALL_OPS[j]);
      var p := name + "_";
      assert tools[i].name[|p|..] == Suffix(ALL_OPS[i]);
      assert tools[j].name[|p|..] == Suffix(ALL_OPS[j]);
    }
  }

  // ---------------------------------------------------------------- categories

  function Strs(ss: seq<string>): seq<Value> {
    seq(|ss|, i requires 0 <= i < |ss| => Str(ss[i]))
  }

  function Suffixes(ops: seq<Operation>): seq<string> {
    seq(|ops|, i requires 0 <= i < |ops| => Suffix(ops[i]))
  }

  function Category(description: string, count: int, tools: seq<string>): Value {
    Dict([("description", Str(description)), ("count", Int(count)), ("tools", List(Strs(tools)))])
  }

  /** `get_replicate_tool_categories`. */
  function ToolCategories(): Entries {
    [("models", Category("Tools for managing Replicate models", 5,
        ["list_models", "get_model", "create_model", "update_model", "delete_model"])),
     ("predictions", Category("Tools for executing and managing predictions", 5,
        ["create_prediction", "get_prediction", "cancel_prediction", "list_predictions", "stream_prediction"])),
     ("code_generation", Category("Tools for AI-powered code generation and optimization", 5,
        ["generate_code", "optimize_code", "debug_code", "explain_code", "convert_code"]))]
  }

  function GroupKey(g: Group): string {
    match g
    case ModelGroup => "models"
    case PredictionGroup => "predictions"
    case CodeGroup => "code_generation"
  }

  function GroupOps(g: Group): seq<Operation> {
    match g
    case ModelGroup => MODEL_OPS
    case PredictionGroup => PREDICTION_OPS
    case CodeGroup => CODE_OPS
  }

  function GroupDescription(g: Group): string {
    match g
    case ModelGroup => "Tools for managing Replicate models"
    case PredictionGroup => "Tools for executing and managing predictions"
    case CodeGroup => "Tools for AI-powered code generation and optimization"
  }

  lemma CategoryOf(g: Group)
    ensures Keys(ToolCategories()) == ["models", "predictions", "code_generation"]
    ensures Get(ToolCategories(), GroupKey(g)) == Category(GroupDescription(g), 5, Suffixes(GroupOps(g)))
  {
    match g
    case ModelGroup =>
      assert Suffixes(MODEL_OPS) == ["list_models", "get_model", "create_model", "update_model", "delete_model"];
    case PredictionGroup =>
      assert Suffixes(PREDICTION_OPS) ==
             ["create_prediction", "get_prediction", "cancel_prediction", "list_predictions", "stream_prediction"];
    case CodeGroup =>
      assert Suffixes(CODE_OPS) == ["generate_code", "optimize_code", "debug_code", "explain_code", "convert_code"];
  }

  lemma GroupOpsExact(g: Group)
    ensures forall op :: op in GroupOps(g) <==> GroupOf(op) == g
  {
    forall op ensures op in GroupOps(g) <==> GroupOf(op) == g {
      if GroupOf(op) == g {
        var i := Position(op);
        assert ALL_OPS[i] == op;
        if i < 5 {
          assert MODEL_OPS[i] == op;
        } else if i < 10 {
          assert PREDICTION_OPS[i - 5] == op;
        } else {
          assert CODE_OPS[i - 10] == op;
        }
      }
    }
  }

  /** Each category's count is the length of its tool list, and that list is,
      in order, the suffixes of the tools the factory builds for the group. */
  lemma CategoriesMatchRegistry(g: Group)
    ensures Keys(ToolCategories()) == ["models", "predictions", "code_generation"]
    ensures var c := Get(ToolCategories(), GroupKey(g));
      c.Dict? && Get(c.entries, "tools").List? &&
      Get(c.entries, "count") == Int(|Get(c.entries, "tools").items|) &&
      Get(c.entries, "tools") == List(Strs(Suffixes(GroupOps(g)))) &&
      forall op :: op in GroupOps(g) <==> GroupOf(op) == g
  {
    CategoryOf(g);
    GroupOpsExact(g);
    var c := Category(GroupDescription(g), 5, Suffixes(GroupOps(g)));
    assert Get(c.entries, "tools") == List(Strs(Suffixes(GroupOps(g))));
    assert Get(c.entries, "count") == Int(5);
  }
}
