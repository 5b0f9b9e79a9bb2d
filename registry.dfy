/**
 * The fixed tool list, lookup by name (tool-test/src/mcp-test.mjs, line 76),
 * and the tool messages one assistant turn's calls produce (lines 75-100).
 */
module Registry {
  import opened Wrappers
  import opened Messages
  import opened Normalisation

  /** A tool: the name the model uses to request it and what invoking it returns. */
  datatype Tool = Tool(name: string, invoke: Json -> ToolResult)

  /** Some tool in the list answers to `name`. */
  predicate Registered(tools: seq<Tool>, name: string) {
    exists j :: 0 <= j < |tools| && tools[j].name == name
  }

  /** `tools.find(t => t.name === name)`, as the index of the tool found. */
  function Find(tools: seq<Tool>, name: string): (r: Option<nat>)
    ensures r.Some? ==> r.value < |tools| && tools[r.value].name == name
    ensures r.Some? ==> forall j :: 0 <= j < r.value ==> tools[j].name != name
    ensures r.None? <==> !Registered(tools, name)
  {
    if tools == [] then None
    else if tools[0].name == name then Some(0)
    else
      match Find(tools[1..], name)
      case None => None
      case Some(k) => Some(k + 1)
  }

  /** The message answering `call` with the first tool named as it asks. */
  function Answer(tools: seq<Tool>, stringify: ToolResult -> string, call: ToolCall): Message
    requires Registered(tools, call.name)
  {
    var tool := tools[Find(tools, call.name).value];
    ToolMessage(Normalise(tool.invoke(call.args), stringify), call.id)
  }

  /** The tool messages for `calls`, taken one call at a time, in order; unknown names add nothing. */
  function Dispatch(tools: seq<Tool>, stringify: ToolResult -> string, calls: seq<ToolCall>): seq<Message> {
    if calls == [] then []
    else
      var first := match Find(tools, calls[0].name)
        case None => []
        case Some(i) => [ToolMessage(Normalise(tools[i].invoke(calls[0].args), stringify), calls[0].id)];
      first + Dispatch(tools, stringify, calls[1..])
  }

  /** The calls naming a registered tool, in their original order. */
  function Known(tools: seq<Tool>, calls: seq<ToolCall>): seq<ToolCall> {
    if calls == [] then []
    else (if Registered(tools, calls[0].name) then [calls[0]] else []) + Known(tools, calls[1..])
  }

  /** Filtering keeps exactly the registered calls, and filters a concatenation piecewise. */
  lemma {:induction false} KnownFilters(tools: seq<Tool>, a: seq<ToolCall>, b: seq<ToolCall>)
    ensures Known(tools, a + b) == Known(tools, a) + Known(tools, b)
    ensures forall c :: c in Known(tools, a) <==> c in a && Registered(tools, c.name)
    ensures |Known(tools, a)| <= |a|
  {
    if a != [] {
      assert (a + b)[0] == a[0] && (a + b)[1..] == a[1..] + b;
      KnownFilters(tools, a[1..], b);
      assert a == [a[0]] + a[1..];
    } else {
      assert a + b == b;
    }
  }

  /** When every call names a registered tool, every call is answered; when none does, none is. */
  lemma {:induction false} KnownExtremes(tools: seq<Tool>, calls: seq<ToolCall>)
    ensures (forall i :: 0 <= i < |calls| ==> Registered(tools, calls[i].name)) ==> Known(tools, calls) == calls
    ensures (forall i :: 0 <= i < |calls| ==> !Registered(tools, calls[i].name)) ==> Known(tools, calls) == []
  {
    if calls != [] {
      KnownExtremes(tools, calls[1..]);
      assert forall i :: 1 <= i < |calls| ==> calls[1..][i - 1] == calls[i];
      assert calls == [calls[0]] + calls[1..];
    }
  }

  /** Dispatching a concatenation dispatches each piece in turn. */
  lemma {:induction false} DispatchAppend(tools: seq<Tool>, stringify: ToolResult -> string, a: seq<ToolCall>, b: seq<ToolCall>)
    ensures Dispatch(tools, stringify, a + b) == Dispatch(tools, stringify, a) + Dispatch(tools, stringify, b)
  {
    if a != [] {
      assert (a + b)[0] == a[0] && (a + b)[1..] == a[1..] + b;
      DispatchAppend(tools, stringify, a[1..], b);
    } else {
      assert a + b == b;
    }
  }

  /**
   * One tool message per call that names a registered tool, in the calls'
   * order: the k-th message answers the k-th such call, carries its id and
   * the normalised result of the first tool with its name.
   */
  lemma {:induction false} DispatchAnswersKnownCalls(tools: seq<Tool>, stringify: ToolResult -> string, calls: seq<ToolCall>)
    ensures |Dispatch(tools, stringify, calls)| == |Known(tools, calls)|
    ensures forall k :: 0 <= k < |Known(tools, calls)| ==>
      Registered(tools, Known(tools, calls)[k].name) &&
      Dispatch(tools, stringify, calls)[k] == Answer(tools, stringify, Known(tools, calls)[k])
  {
    KnownFilters(tools, calls, []);
    if calls != [] {
      DispatchAnswersKnownCalls(tools, stringify, calls[1..]);
    }
  }
}
