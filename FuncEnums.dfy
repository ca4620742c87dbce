/**
 * Shaping the supplier's JSON into OpenAI function and tool descriptors
 * (openai-func-enums/src/lib.rs): `get_function_chat_completion_args`,
 * `get_tool_chat_completion_args` and `get_tools_limited`.
 *
 * Each of the three calls its supplier once, reads the JSON as a list of
 * entries (an object is one entry, an array its elements, anything else an
 * `InvalidArgument` error), builds one descriptor per entry in order (the
 * tool variants skipping the free-text entry named "GPT") and returns the
 * supplier's token total untouched.  The OpenAI builder types are plain
 * records here.
 */
module FuncEnums {
  import opened Wrappers
  import opened Json

  datatype OpenAIError = InvalidArgument(message: string)

  /** `FunctionObject`: a function the model may call. */
  datatype FunctionObject = FunctionObject(name: string, description: Option<string>, parameters: Option<Json>)

  datatype ToolType = FunctionTool

  /** `ChatCompletionTool`: a function wrapped as a tool of type "function". */
  datatype ChatCompletionTool = ChatCompletionTool(kind: ToolType, func: FunctionObject)

  const ParseErrorMessage: string := "Something went wrong parsing the json"

  /** The reserved entry standing for the model's free-text reply; it is never offered as a tool. */
  const FreeformName: string := "GPT"

  /** The supplier's JSON as a list of entries, or the error for any other JSON kind. */
  function Entries(v: Json): Result<seq<Json>, OpenAIError>
  {
    match v
    case JObject(_) => Ok([v])
    case JArray(items) => Ok(items)
    case _ => Err(InvalidArgument(ParseErrorMessage))
  }

  /** An entry the code can read: `value.get("name").unwrap().as_str().unwrap()` does not panic. */
  predicate HasName(e: Json)
  {
    Get(e, "name").Some? && Get(e, "name").value.JString?
  }

  /** Every entry of the supplier's JSON has a string name (nothing to demand when the JSON is rejected). */
  predicate EntriesNamed(v: Json)
  {
    match v
    case JObject(_) => HasName(v)
    case JArray(items) => forall i :: 0 <= i < |items| ==> HasName(items[i])
    case _ => true
  }

  function NameOf(e: Json): string
    requires HasName(e)
  {
    Get(e, "name").value.s
  }

  /** `value.get("description").and_then(|v| v.as_str())`. */
  function DescriptionOf(e: Json): Option<string>
  {
    match Get(e, "description")
    case Some(JString(s)) => Some(s)
    case _ => None
  }

  /** The descriptor one entry becomes. */
  function Describe(e: Json): FunctionObject
    requires HasName(e)
  {
    FunctionObject(NameOf(e), DescriptionOf(e), Get(e, "parameters"))
  }

  predicate AllNamed(es: seq<Json>)
  {
    forall i :: 0 <= i < |es| ==> HasName(es[i])
  }

  /** One descriptor per entry, in entry order. */
  function DescribeAll(es: seq<Json>): seq<FunctionObject>
    requires AllNamed(es)
  {
    seq(|es|, i requires 0 <= i < |es| => Describe(es[i]))
  }

  function ToolOf(e: Json): ChatCompletionTool
    requires HasName(e)
  {
    ChatCompletionTool(FunctionTool, Describe(e))
  }

  /** The tools the entries become: the entries not named "GPT", in order. */
  function Tools(es: seq<Json>): seq<ChatCompletionTool>
    requires AllNamed(es)
  {
    if es == [] then []
    else
      var init := es[..|es| - 1];
      var last := es[|es| - 1];
      Tools(init) + (if NameOf(last) != FreeformName then [ToolOf(last)] else [])
  }

  /** Number of entries named "GPT". */
  function FreeformCount(es: seq<Json>): nat
    requires AllNamed(es)
  {
    if es == [] then 0
    else FreeformCount(es[..|es| - 1]) + (if NameOf(es[|es| - 1]) == FreeformName then 1 else 0)
  }

  /** What `get_function_chat_completion_args` returns for the supplier's result. */
  function FunctionArgs(supplied: (Json, nat)): Result<(seq<FunctionObject>, nat), OpenAIError>
    requires EntriesNamed(supplied.0)
  {
    match Entries(supplied.0)
    case Err(e) => Err(e)
    case Ok(es) => Ok((DescribeAll(es), supplied.1))
  }

  /** What the tool variants return for the supplier's result. */
  function ToolArgs(supplied: (Json, nat)): Result<(seq<ChatCompletionTool>, nat), OpenAIError>
    requires EntriesNamed(supplied.0)
  {
    match Entries(supplied.0)
    case Err(e) => Err(e)
    case Ok(es) => Ok((Tools(es), supplied.1))
  }

  /** The loop shared by the three functions, building function descriptors. */
  method DescribeEntries(values: seq<Json>) returns (vec: seq<FunctionObject>)
    requires AllNamed(values)
    ensures vec == DescribeAll(values)
  {
    vec := [];
    var i := 0;
    while i < |values|
      invariant 0 <= i <= |values|
      invariant |vec| == i
      invariant forall k :: 0 <= k < i ==> vec[k] == Describe(values[k])
    {
      var value := values[i];
      var parameters := Get(value, "parameters");
      var description := DescriptionOf(value);
      var name := Get(value, "name").value.s;
      var args := match description
        case Some(desc) => FunctionObject(name, Some(desc), parameters)
        case None => FunctionObject(name, None, parameters);
      vec := vec + [args];
      i := i + 1;
    }
  }

  /** The loop of the tool variants: entries named "GPT" are skipped. */
  method ToolEntries(values: seq<Json>) returns (vec: seq<ChatCompletionTool>)
    requires AllNamed(values)
    ensures vec == Tools(values)
  {
    vec := [];
    var i := 0;
    while i < |values|
      invariant 0 <= i <= |values|
      invariant vec == Tools(values[..i])
    {
      var value := values[i];
      var parameters := Get(value, "parameters");
      var description := DescriptionOf(value);
      var name := Get(value, "name").value.s;
      if name != FreeformName {
        var args := match description
          case Some(desc) => FunctionObject(name, Some(desc), parameters)
          case None => FunctionObject(name, None, parameters);
        vec := vec + [ChatCompletionTool(FunctionTool, args)];
      }
      assert values[..i + 1][..i] == values[..i];
      i := i + 1;
    }
    assert values[..|values|] == values;
  }

  /** `get_function_chat_completion_args`. */
  method GetFunctionChatCompletionArgs(func: () -> (Json, nat)) returns (r: Result<(seq<FunctionObject>, nat), OpenAIError>)
    requires EntriesNamed(func().0)
    ensures r == FunctionArgs(func())
  {
    var (funcJson, totalTokens) := func();
    var values: seq<Json>;
    match funcJson {
      case JObject(_) => values := [funcJson];
      case JArray(arr) => values := arr;
      case _ => return Err(InvalidArgument(ParseErrorMessage));
    }
    var vec := DescribeEntries(values);
    r := Ok((vec, totalTokens));
  }

  /** `get_tool_chat_completion_args`. */
  method GetToolChatCompletionArgs(toolFunc: () -> (Json, nat)) returns (r: Result<(seq<ChatCompletionTool>, nat), OpenAIError>)
    requires EntriesNamed(toolFunc().0)
    ensures r == ToolArgs(toolFunc())
  {
    var (toolJson, totalTokens) := toolFunc();
    var values: seq<Json>;
    match toolJson {
      case JObject(_) => values := [toolJson];
      case JArray(arr) => values := arr;
      case _ => return Err(InvalidArgument(ParseErrorMessage));
    }
    var vec := ToolEntries(values);
    r := Ok((vec, totalTokens));
  }

  /**
   * `get_tools_limited`: the supplier receives the allowed and required name
   * lists exactly as given (the selection among them is the supplier's), and
   * its result is shaped as in `get_tool_chat_completion_args`.
   */
  method GetToolsLimited(toolFunc: (seq<string>, Option<seq<string>>) -> (Json, nat),
                         allowedFuncNames: seq<string>, requiredFuncNames: Option<seq<string>>)
    returns (r: Result<(seq<ChatCompletionTool>, nat), OpenAIError>)
    requires EntriesNamed(toolFunc(allowedFuncNames, requiredFuncNames).0)
    ensures r == ToolArgs(toolFunc(allowedFuncNames, requiredFuncNames))
  {
    var (toolJson, totalTokens) := toolFunc(allowedFuncNames, requiredFuncNames);
    var values: seq<Json>;
    match toolJson {
      case JObject(_) => values := [toolJson];
      case JArray(arr) => values := arr;
      case _ => return Err(InvalidArgument(ParseErrorMessage));
    }
    var vec := ToolEntries(values);
    r := Ok((vec, totalTokens));
  }

  // ---------------------------------------------------------------------
  // Properties of the shaping
  // ---------------------------------------------------------------------

  /** An object is one entry, an array its elements; any other JSON is rejected with no descriptors. */
  lemma ShapingAcceptsObjectsAndArrays(supplied: (Json, nat))
    requires EntriesNamed(supplied.0)
    ensures FunctionArgs(supplied).Ok? <==> supplied.0.JObject? || supplied.0.JArray?
    ensures ToolArgs(supplied).Ok? <==> supplied.0.JObject? || supplied.0.JArray?
    ensures FunctionArgs(supplied).Err? ==> FunctionArgs(supplied).error == InvalidArgument(ParseErrorMessage)
    ensures ToolArgs(supplied).Err? ==> ToolArgs(supplied).error == InvalidArgument(ParseErrorMessage)
    ensures supplied.0.JObject? ==> FunctionArgs(supplied) == Ok(([Describe(supplied.0)], supplied.1))
    ensures supplied.0.JArray? ==> FunctionArgs(supplied) == Ok((DescribeAll(supplied.0.items), supplied.1))
  {
    if supplied.0.JObject? {
      assert DescribeAll([supplied.0]) == [Describe(supplied.0)];
    }
  }

  /** The token total handed back is the supplier's, however many "GPT" entries were dropped. */
  lemma TokensPassThrough(supplied: (Json, nat))
    requires EntriesNamed(supplied.0)
    ensures FunctionArgs(supplied).Ok? ==> FunctionArgs(supplied).value.1 == supplied.1
    ensures ToolArgs(supplied).Ok? ==> ToolArgs(supplied).value.1 == supplied.1
  {
  }

  /**
   * `get_function_chat_completion_args` drops nothing and keeps order: the
   * k-th descriptor is made from the k-th entry; its name is the entry's name,
   * it has a description exactly when the entry's "description" is a string,
   * and its parameters are the entry's "parameters", present or absent.
   */
  lemma DescribeAllFaithful(es: seq<Json>, k: int)
    requires AllNamed(es) && 0 <= k < |es|
    ensures |DescribeAll(es)| == |es|
    ensures DescribeAll(es)[k].name == Get(es[k], "name").value.s
    ensures DescribeAll(es)[k].description.Some? <==> Get(es[k], "description").Some? && Get(es[k], "description").value.JString?
    ensures DescribeAll(es)[k].description.Some? ==> JString(DescribeAll(es)[k].description.value) == Get(es[k], "description").value
    ensures DescribeAll(es)[k].parameters == Get(es[k], "parameters")
  {
  }

  /** The tool variants: exactly the entries not named "GPT" survive. */
  lemma {:induction false} ToolsCount(es: seq<Json>)
    requires AllNamed(es)
    ensures |Tools(es)| == |es| - FreeformCount(es)
    ensures forall t :: t in Tools(es) ==> t.func.name != FreeformName
  {
    if es != [] {
      ToolsCount(es[..|es| - 1]);
    }
  }

  /** Positions of the entries not named "GPT", in increasing order: an independent account of the filter. */
  function KeptPositions(es: seq<Json>): seq<nat>
    requires AllNamed(es)
  {
    if es == [] then []
    else
      var n := |es| - 1;
      KeptPositions(es[..n]) + (if NameOf(es[n]) != FreeformName then [n] else [])
  }

  /** The kept positions are exactly those of the entries not named "GPT". */
  lemma {:induction false} KeptPositionsExact(es: seq<Json>)
    requires AllNamed(es)
    ensures forall k :: 0 <= k < |KeptPositions(es)| ==> KeptPositions(es)[k] < |es|
    ensures forall j :: 0 <= j < |es| ==> (j in KeptPositions(es) <==> NameOf(es[j]) != FreeformName)
  {
    if es != [] {
      var n := |es| - 1;
      var init := es[..n];
      KeptPositionsExact(init);
      forall j | 0 <= j < n ensures NameOf(init[j]) == NameOf(es[j]) {
        assert init[j] == es[j];
      }
    }
  }

  /**
   * The tool variants keep order: the k-th tool is made from the entry at the
   * k-th kept position, and those positions strictly increase.
   */
  lemma {:induction false} ToolsFollowKeptPositions(es: seq<Json>)
    requires AllNamed(es)
    ensures |KeptPositions(es)| == |Tools(es)|
    ensures forall k :: 0 <= k < |Tools(es)| ==> KeptPositions(es)[k] < |es| && Tools(es)[k] == ToolOf(es[KeptPositions(es)[k]])
    ensures forall k, l :: 0 <= k < l < |Tools(es)| ==> KeptPositions(es)[k] < KeptPositions(es)[l]
  {
    if es != [] {
      var n := |es| - 1;
      var init := es[..n];
      ToolsFollowKeptPositions(init);
      var prev := KeptPositions(init);
      forall k | 0 <= k < |prev| ensures prev[k] < n && init[prev[k]] == es[prev[k]] {
      }
    }
  }

  /** A concrete run: one named tool and one "GPT" entry in an array give one tool and the supplier's total. */
  lemma GptEntryDropped()
    ensures var e1 := JObject([("name", JString("Add")), ("description", JString("Adds"))]);
            var e2 := JObject([("name", JString("GPT"))]);
            ToolArgs((JArray([e1, e2]), 42)) == Ok(([ChatCompletionTool(FunctionTool, FunctionObject("Add", Some("Adds"), None))], 42))
  {
    var e1 := JObject([("name", JString("Add")), ("description", JString("Adds"))]);
    var e2 := JObject([("name", JString("GPT"))]);
    var es := [e1, e2];
    assert "name" != "description" by { assert "name"[0] != "description"[0]; }
    assert "name" != "parameters" by { assert "name"[0] != "parameters"[0]; }
    assert "description" != "parameters" by { assert "description"[0] != "parameters"[0]; }
    assert "Add" != "GPT" by { assert "Add"[0] != "GPT"[0]; }
    assert NameOf(e1) == "Add" && NameOf(e2) == "GPT";
    assert Describe(e1) == FunctionObject("Add", Some("Adds"), None);
    assert HasName(e1) && HasName(e2);
    assert es[..1] == [e1];
    assert es[..1][..0] == [];
    assert Tools(es[..1]) == [ToolOf(e1)];
    assert Tools(es) == [ToolOf(e1)];
  }
}
