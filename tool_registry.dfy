/**
 * The tool registry: a table of tools keyed by name in registration order
 * (a PHP array, where assigning an existing key replaces the value where it
 * stands), the schemas sent to the provider, and tool execution with its
 * error isolation.
 */
module ToolRegistry {
  import opened Wrappers
  import opened Json
  import opened Provider
  import opened Tools

  /** One entry of `executeToolCalls`' result. */
  datatype ToolResult = ToolResult(toolCallId: string, name: string, result: string)

  predicate UniqueNames(tools: seq<Tool>) {
    forall i, j :: 0 <= i < j < |tools| ==> tools[i].name != tools[j].name
  }

  /** The position of the tool called `name`, or -1. */
  function IndexOfName(tools: seq<Tool>, name: string): (r: int)
    ensures -1 <= r < |tools|
    ensures r >= 0 ==> tools[r].name == name && forall k :: 0 <= k < r ==> tools[k].name != name
    ensures r == -1 <==> forall k :: 0 <= k < |tools| ==> tools[k].name != name
  {
    if tools == [] then -1
    else if tools[|tools| - 1].name == name && IndexOfName(tools[..|tools| - 1], name) == -1 then |tools| - 1
    else IndexOfName(tools[..|tools| - 1], name)
  }

  /** `$this->_tools[$name] ?? null`. */
  function Find(tools: seq<Tool>, name: string): (r: Option<Tool>)
    ensures r.Some? ==> r.value in tools && r.value.name == name
    ensures r.None? <==> forall t :: t in tools ==> t.name != name
  {
    var i := IndexOfName(tools, name);
    if i >= 0 then Some(tools[i]) else None
  }

  /** `$this->_tools[$tool->name()] = $tool`: replace in place when the name is known, else append. */
  function Registered(tools: seq<Tool>, t: Tool): seq<Tool> {
    var i := IndexOfName(tools, t.name);
    if i >= 0 then tools[i := t] else tools + [t]
  }

  /**
   * Registering keeps names unique, makes `t` the tool found under its
   * name, leaves every other name's lookup alone, replaces in place (same
   * length, other positions kept) or appends at the end.
   */
  lemma {:induction false} RegisteredTable(tools: seq<Tool>, t: Tool, name: string)
    requires UniqueNames(tools)
    ensures UniqueNames(Registered(tools, t))
    ensures Find(Registered(tools, t), name) == if name == t.name then Some(t) else Find(tools, name)
    ensures |Registered(tools, t)| == |tools| + (if Find(tools, t.name).None? then 1 else 0)
    ensures forall k :: 0 <= k < |tools| && tools[k].name != t.name ==> Registered(tools, t)[k] == tools[k]
  {
    var r := Registered(tools, t);
    var i := IndexOfName(tools, t.name);
    forall a, b | 0 <= a < b < |r| ensures r[a].name != r[b].name {
      if i < 0 && b == |tools| {
        assert r[a] == tools[a];
      }
    }
    var j := IndexOfName(r, name);
    if name == t.name {
      if i >= 0 {
        assert r[i] == t;
      } else {
        assert r[|tools|] == t;
      }
    } else {
      var jo := IndexOfName(tools, name);
      if jo >= 0 {
        assert r[jo] == tools[jo];
        assert j == jo;
      } else {
        assert forall k :: 0 <= k < |r| ==> r[k].name != name by {
          forall k | 0 <= k < |r| ensures r[k].name != name {
            if k < |tools| && k != i {
              assert r[k] == tools[k];
            }
          }
        }
      }
    }
  }

  /** The tools `init` registers, in order. */
  const BuiltinKinds := [SearchKnowledgeBase, GetPageContext, GetBusinessInfo, ListKnowledgeTopics, Escalate]
  const BuiltinTools := [Builtin(SearchKnowledgeBase), Builtin(GetPageContext), Builtin(GetBusinessInfo),
                         Builtin(ListKnowledgeTopics), Builtin(Escalate)]

  /** After `init` there are exactly five tools with distinct names, escalate among them whatever the settings say. */
  lemma {:induction false} InitTools()
    ensures |BuiltinTools| == 5 && UniqueNames(BuiltinTools)
    ensures forall k :: Find(BuiltinTools, Builtin(k).name) == Some(Builtin(k))
    ensures Find(BuiltinTools, "escalate") == Some(Builtin(Escalate))
  {
    BuiltinUnique();
    forall k ensures Find(BuiltinTools, Builtin(k).name) == Some(Builtin(k)) {
      BuiltinFound(k);
    }
    assert Builtin(Escalate).name == "escalate";
  }

  /** The `i`-th registered tool is the built-in of the `i`-th kind. */
  lemma {:induction false} BuiltinAt()
    ensures |BuiltinTools| == |BuiltinKinds| == 5
    ensures forall i :: 0 <= i < 5 ==> BuiltinTools[i] == Builtin(BuiltinKinds[i])
  {
  }

  lemma {:induction false} BuiltinUnique()
    ensures UniqueNames(BuiltinTools)
  {
    BuiltinAt();
    forall i, j | 0 <= i < j < 5 ensures BuiltinTools[i].name != BuiltinTools[j].name {
      BuiltinNamesDistinct(BuiltinKinds[i], BuiltinKinds[j]);
    }
  }

  lemma {:induction false} BuiltinFound(k: ToolKind)
    ensures Find(BuiltinTools, Builtin(k).name) == Some(Builtin(k))
  {
    BuiltinAt();
    var i := match k
      case SearchKnowledgeBase => 0 case GetPageContext => 1 case GetBusinessInfo => 2
      case ListKnowledgeTopics => 3 case Escalate => 4;
    assert BuiltinKinds[i] == k && BuiltinTools[i] == Builtin(k);
    var r := Find(BuiltinTools, Builtin(k).name);
    var j :| 0 <= j < 5 && BuiltinTools[j] == r.value;
    BuiltinNamesDistinct(BuiltinKinds[j], k);
  }

  /** The five registrations of `init`, one after the other, give the built-in table. */
  lemma {:induction false} InitChain()
    ensures Registered(Registered(Registered(Registered(Registered([], Builtin(SearchKnowledgeBase)), Builtin(GetPageContext)),
              Builtin(GetBusinessInfo)), Builtin(ListKnowledgeTopics)), Builtin(Escalate)) == BuiltinTools
  {
    var b0, b1, b2 := Builtin(SearchKnowledgeBase), Builtin(GetPageContext), Builtin(GetBusinessInfo);
    var b3, b4 := Builtin(ListKnowledgeTopics), Builtin(Escalate);
    BuiltinNamesDistinct(SearchKnowledgeBase, GetPageContext);
    BuiltinNamesDistinct(SearchKnowledgeBase, GetBusinessInfo);
    BuiltinNamesDistinct(SearchKnowledgeBase, ListKnowledgeTopics);
    BuiltinNamesDistinct(SearchKnowledgeBase, Escalate);
    BuiltinNamesDistinct(GetPageContext, GetBusinessInfo);
    BuiltinNamesDistinct(GetPageContext, ListKnowledgeTopics);
    BuiltinNamesDistinct(GetPageContext, Escalate);
    BuiltinNamesDistinct(GetBusinessInfo, ListKnowledgeTopics);
    BuiltinNamesDistinct(GetBusinessInfo, Escalate);
    BuiltinNamesDistinct(ListKnowledgeTopics, Escalate);
    RegisterFive(b0, b1, b2, b3, b4);
  }

  /** Five registrations under five different names append the tools in order. */
  lemma {:induction false} RegisterFive(b0: Tool, b1: Tool, b2: Tool, b3: Tool, b4: Tool)
    requires b0.name != b1.name && b0.name != b2.name && b0.name != b3.name && b0.name != b4.name
    requires b1.name != b2.name && b1.name != b3.name && b1.name != b4.name
    requires b2.name != b3.name && b2.name != b4.name && b3.name != b4.name
    ensures Registered(Registered(Registered(Registered(Registered([], b0), b1), b2), b3), b4) == [b0, b1, b2, b3, b4]
  {
    RegisterNew([], b0);
    RegisterNew([b0], b1);
    RegisterNew([b0, b1], b2);
    RegisterNew([b0, b1, b2], b3);
    RegisterNew([b0, b1, b2, b3], b4);
  }

  /** Registering a name not yet present appends the tool. */
  lemma {:induction false} RegisterNew(front: seq<Tool>, t: Tool)
    requires forall k :: 0 <= k < |front| ==> front[k].name != t.name
    ensures Registered(front, t) == front + [t]
  {
  }

  /** One schema per tool, in table order. */
  function Schemas(tools: seq<Tool>): (r: seq<ToolSchema>)
    ensures |r| == |tools| && forall k :: 0 <= k < |tools| ==> r[k] == ToSchema(tools[k])
  {
    seq(|tools|, k requires 0 <= k < |tools| => ToSchema(tools[k]))
  }

  function UnknownTool(name: string): string {
    Encode(Obj([("error", Str("Unknown tool: " + name))]))
  }

  function ToolFailed(message: string): string {
    Encode(Obj([("error", Str("Tool execution failed: " + message))]))
  }

  /** `executeTool`: the unknown-tool error, the tool's own result, or the failure error when it throws. */
  function ExecuteTool(tools: seq<Tool>, name: string, params: Value, env: ToolEnv): string {
    match Find(tools, name)
    case None => UnknownTool(name)
    case Some(t) =>
      match Execute(t.kind, params, env)
      case Ok(s) => s
      case Fail(m) => ToolFailed(m)
  }

  /** An unknown name gives the error whatever the tools would do; a known one runs the tool under that name. */
  lemma {:induction false} ExecuteToolCases(tools: seq<Tool>, name: string, params: Value, env: ToolEnv, other: ToolEnv)
    ensures (forall t :: t in tools ==> t.name != name) ==>
      ExecuteTool(tools, name, params, env) == UnknownTool(name) && ExecuteTool(tools, name, params, other) == UnknownTool(name)
    ensures Find(tools, name).Some? && Execute(Find(tools, name).value.kind, params, env).Fail? ==>
      ExecuteTool(tools, name, params, env) == ToolFailed(Execute(Find(tools, name).value.kind, params, env).message)
  {
  }

  /** `$call['arguments'] ?? []`. */
  function CallArguments(c: ToolCall): Value {
    Coalesce(c.arguments, Empty)
  }

  /** `executeTool` declares `array $params`: other arguments raise a TypeError that nothing catches. */
  const ArgumentsTypeError := "TypeError: tool arguments must be of type array"

  predicate ArrayArguments(calls: seq<ToolCall>) {
    forall i :: 0 <= i < |calls| ==> IsArray(CallArguments(calls[i]))
  }

  function CallResult(tools: seq<Tool>, c: ToolCall, env: ToolEnv): ToolResult {
    ToolResult(c.id, c.name, ExecuteTool(tools, c.name, CallArguments(c), env))
  }

  /**
   * One result per call, in order: the call's id and name copied, the
   * result of running that call alone (a failing sibling changes nothing).
   */
  function CallResults(tools: seq<Tool>, calls: seq<ToolCall>, env: ToolEnv): (r: seq<ToolResult>)
    ensures |r| == |calls|
    ensures forall i :: 0 <= i < |calls| ==>
      r[i].toolCallId == calls[i].id && r[i].name == calls[i].name
      && r[i].result == ExecuteTool(tools, calls[i].name, CallArguments(calls[i]), env)
  {
    seq(|calls|, i requires 0 <= i < |calls| => CallResult(tools, calls[i], env))
  }

  /** A call's result is the same in any batch: it depends on that call only. */
  lemma {:induction false} CallResultsIsolated(tools: seq<Tool>, a: seq<ToolCall>, b: seq<ToolCall>, env: ToolEnv, i: nat, j: nat)
    requires i < |a| && j < |b| && a[i] == b[j]
    ensures CallResults(tools, a, env)[i] == CallResults(tools, b, env)[j]
  {
  }

  /** Missing arguments become the empty array, which every tool accepts. */
  lemma {:induction false} MissingArgumentsAreEmpty(c: ToolCall)
    requires c.arguments == Null
    ensures CallArguments(c) == Empty && IsArray(CallArguments(c))
  {
  }

  class Registry {
    var tools: seq<Tool>

    ghost predicate Valid()
      reads this
    {
      UniqueNames(tools)
    }

    /** The component's construction, which runs `init`. */
    constructor ()
      ensures Valid() && tools == BuiltinTools
    {
      tools := [];
      new;
      Register(Builtin(SearchKnowledgeBase));
      Register(Builtin(GetPageContext));
      Register(Builtin(GetBusinessInfo));
      Register(Builtin(ListKnowledgeTopics));
      Register(Builtin(Escalate));
      InitChain();
    }

    method Register(t: Tool)
      requires Valid()
      modifies this
      ensures Valid() && tools == Registered(old(tools), t)
    {
      RegisteredTable(tools, t, t.name);
      var i := IndexOfName(tools, t.name);
      if i >= 0 {
        tools := tools[i := t];
      } else {
        tools := tools + [t];
      }
    }

    /** `get`: the tool registered under `name`, or None when there is none. */
    function Get(name: string): (r: Option<Tool>)
      reads this
      ensures r.Some? ==> r.value in tools && r.value.name == name
      ensures r.None? <==> forall t :: t in tools ==> t.name != name
    {
      Find(tools, name)
    }

    method GetSchemas() returns (schemas: seq<ToolSchema>)
      ensures schemas == Schemas(tools)
    {
      schemas := [];
      for i := 0 to |tools|
        invariant |schemas| == i && forall k :: 0 <= k < i ==> schemas[k] == ToSchema(tools[k])
      {
        schemas := schemas + [ToSchema(tools[i])];
      }
    }

    method ExecuteToolNamed(name: string, params: Value, env: ToolEnv) returns (result: string)
      ensures result == ExecuteTool(tools, name, params, env)
    {
      var tool := Get(name);
      if tool.None? {
        return UnknownTool(name);
      }
      var r := Run(tool.value.kind, params, env);
      if r.Fail? {
        return ToolFailed(r.message);
      }
      result := r.value;
    }

    /** `executeToolCalls`: the results in call order, or the TypeError of the first call whose arguments are not an array. */
    method ExecuteToolCalls(calls: seq<ToolCall>, env: ToolEnv) returns (r: Result<seq<ToolResult>>)
      ensures ArrayArguments(calls) ==> r == Ok(CallResults(tools, calls, env))
      ensures !ArrayArguments(calls) ==> r == Fail(ArgumentsTypeError)
    {
      var results := [];
      for i := 0 to |calls|
        invariant |results| == i
        invariant forall k :: 0 <= k < i ==> IsArray(CallArguments(calls[k]))
        invariant forall k :: 0 <= k < i ==> results[k] == CallResult(tools, calls[k], env)
      {
        var args := CallArguments(calls[i]);
        if !IsArray(args) {
          return Fail(ArgumentsTypeError);
        }
        var result := ExecuteToolNamed(calls[i].name, args, env);
        results := results + [ToolResult(calls[i].id, calls[i].name, result)];
      }
      assert results == CallResults(tools, calls, env);
      r := Ok(results);
    }
  }
}
