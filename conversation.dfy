/**
 * The bounded tool-calling loop `runWithTools` (tool-test/src/mcp-test.mjs,
 * lines 51-104): a specification of its outcome as a function, the loop
 * itself as a method proved equal to it, and what the loop promises.
 */
module Conversation {
  import opened Wrappers
  import opened Messages
  import opened Normalisation
  import opened Registry

  /** The chat model with the tools bound: given the whole history, its next reply. */
  type ChatModel = seq<Message> -> Reply

  /**
   * How a run ends: the string returned, the history at that point, and how
   * many times the model was invoked.
   */
  datatype Outcome = Outcome(answer: string, history: seq<Message>, invocations: nat)

  /** The history a run starts from: the prefetched resources, then the query. */
  function Seed(resourceContent: string, query: string): seq<Message> {
    [SystemMessage(resourceContent), HumanMessage(query)]
  }

  /** `message[message.length - 1].content`. */
  function LastContent(history: seq<Message>): string
    requires |history| > 0
  {
    history[|history| - 1].content
  }

  /**
   * The outcome of running the loop from `history` with `remaining`
   * iterations left: ask the model, append its reply, stop with the reply's
   * content when it requests no tools, otherwise append the tool messages
   * and go on; with nothing left, return the last message's content.
   */
  function Loop(tools: seq<Tool>, stringify: ToolResult -> string, model: ChatModel,
                history: seq<Message>, remaining: nat): Outcome
    requires |history| > 0
    decreases remaining
  {
    if remaining == 0 then Outcome(LastContent(history), history, 0)
    else
      var reply := model(history);
      if !RequestsTools(reply) then Outcome(reply.content, history + [reply], 1)
      else
        var next := history + [reply] + Dispatch(tools, stringify, CallsOf(reply));
        var rest := Loop(tools, stringify, model, next, remaining - 1);
        Outcome(rest.answer, rest.history, rest.invocations + 1)
  }

  /** The outcome of `runWithTools(query, maxIterations)`. */
  function Run(resourceContent: string, query: string, tools: seq<Tool>,
               stringify: ToolResult -> string, model: ChatModel, maxIterations: nat): Outcome
  {
    Loop(tools, stringify, model, Seed(resourceContent, query), maxIterations)
  }

  /** An outcome with `i` more model invocations counted. */
  function After(i: nat, o: Outcome): Outcome {
    Outcome(o.answer, o.history, o.invocations + i)
  }

  /**
   * The loop as the source runs it: the history grows by appending only, the
   * model is asked once per iteration, and each tool call is looked up and
   * answered in turn. Returns what `runWithTools` returns; the final history
   * and the invocation count are ghost, for stating what happened.
   */
  method RunWithTools(resourceContent: string, query: string, tools: seq<Tool>,
                      stringify: ToolResult -> string, model: ChatModel, maxIterations: nat)
    returns (answer: string, ghost history: seq<Message>, ghost invocations: nat)
    ensures answer == Run(resourceContent, query, tools, stringify, model, maxIterations).answer
    ensures history == Run(resourceContent, query, tools, stringify, model, maxIterations).history
    ensures invocations == Run(resourceContent, query, tools, stringify, model, maxIterations).invocations
  {
    var message := Seed(resourceContent, query);
    invocations := 0;
    var i := 0;
    while i < maxIterations
      invariant 0 <= i <= maxIterations
      invariant |message| >= 2
      invariant invocations == i
      invariant After(i, Loop(tools, stringify, model, message, maxIterations - i))
             == Run(resourceContent, query, tools, stringify, model, maxIterations)
    {
      var response := model(message);
      invocations := invocations + 1;
      message := message + [response];

      if response.toolCalls.None? || |response.toolCalls.value| == 0 {
        answer, history := response.content, message;
        return;
      }

      var toolCalls := response.toolCalls.value;
      ghost var before := message;
      for k := 0 to |toolCalls|
        invariant message == before + Dispatch(tools, stringify, toolCalls[..k])
      {
        var toolCall := toolCalls[k];
        DispatchAppend(tools, stringify, toolCalls[..k], [toolCall]);
        assert toolCalls[..k + 1] == toolCalls[..k] + [toolCall];
        var tool := Find(tools, toolCall.name);
        if tool.Some? {
          var toolResult := tools[tool.value].invoke(toolCall.args);
          var contentStr := Normalise(toolResult, stringify);
          message := message + [ToolMessage(contentStr, toolCall.id)];
        }
      }
      assert toolCalls[..|toolCalls|] == toolCalls;
      i := i + 1;
    }
    answer, history := message[|message| - 1].content, message;
  }

  /** Every reply the model could give requests at least one tool. */
  ghost predicate AlwaysRequestsTools(model: ChatModel) {
    forall h :: RequestsTools(model(h))
  }

  /** Every reply requests tools, and none of the tools requested is registered. */
  ghost predicate OnlyUnknownTools(tools: seq<Tool>, model: ChatModel) {
    forall h :: RequestsTools(model(h)) && Known(tools, CallsOf(model(h))) == []
  }

  /** Every reply requests tools, and at least one of them is registered. */
  ghost predicate SomeKnownTool(tools: seq<Tool>, model: ChatModel) {
    forall h :: RequestsTools(model(h)) && Known(tools, CallsOf(model(h))) != []
  }

  /** The history only grows by appending: what was there is kept, unchanged and in order. */
  lemma {:induction false} LoopOnlyAppends(tools: seq<Tool>, stringify: ToolResult -> string, model: ChatModel,
                                           history: seq<Message>, remaining: nat)
    requires |history| > 0
    ensures |history| <= |Loop(tools, stringify, model, history, remaining).history|
    ensures Loop(tools, stringify, model, history, remaining).history[..|history|] == history
    decreases remaining
  {
    if remaining > 0 {
      var reply := model(history);
      if RequestsTools(reply) {
        var next := history + [reply] + Dispatch(tools, stringify, CallsOf(reply));
        LoopOnlyAppends(tools, stringify, model, next, remaining - 1);
        assert next[..|history|] == history;
      }
    }
  }

  /** The model is invoked at most `remaining` times, and at least once when any iteration is left. */
  lemma {:induction false} LoopInvocationsBounded(tools: seq<Tool>, stringify: ToolResult -> string, model: ChatModel,
                                                  history: seq<Message>, remaining: nat)
    requires |history| > 0
    ensures Loop(tools, stringify, model, history, remaining).invocations <= remaining
    ensures remaining > 0 ==> Loop(tools, stringify, model, history, remaining).invocations >= 1
    decreases remaining
  {
    if remaining > 0 {
      var reply := model(history);
      if RequestsTools(reply) {
        var next := history + [reply] + Dispatch(tools, stringify, CallsOf(reply));
        LoopInvocationsBounded(tools, stringify, model, next, remaining - 1);
      }
    }
  }

  /**
   * Whichever way the loop ends, it returns the content of the last message
   * in the history: the tool-free reply it stops at, or whatever message is
   * last when the budget runs out.
   */
  lemma {:induction false} AnswerIsLastContent(tools: seq<Tool>, stringify: ToolResult -> string, model: ChatModel,
                                               history: seq<Message>, remaining: nat)
    requires |history| > 0
    ensures |Loop(tools, stringify, model, history, remaining).history| > 0
    ensures Loop(tools, stringify, model, history, remaining).answer
         == LastContent(Loop(tools, stringify, model, history, remaining).history)
    decreases remaining
  {
    if remaining > 0 {
      var reply := model(history);
      if RequestsTools(reply) {
        var next := history + [reply] + Dispatch(tools, stringify, CallsOf(reply));
        AnswerIsLastContent(tools, stringify, model, next, remaining - 1);
      }
    }
  }

  /**
   * One iteration: the model's reply is appended first. Without tool calls
   * the run ends there with the reply's content and one invocation; with
   * tool calls the reply is followed by one tool message per call naming a
   * registered tool, in the calls' order, each carrying its call's id.
   */
  lemma IterationStep(tools: seq<Tool>, stringify: ToolResult -> string, model: ChatModel,
                      history: seq<Message>, remaining: nat)
    requires |history| > 0 && remaining > 0
    ensures var o := Loop(tools, stringify, model, history, remaining);
      |o.history| > |history| && o.history[|history|] == model(history)
    ensures !RequestsTools(model(history)) ==>
      Loop(tools, stringify, model, history, remaining) == Outcome(model(history).content, history + [model(history)], 1)
    ensures RequestsTools(model(history)) ==>
      var o := Loop(tools, stringify, model, history, remaining);
      var known := Known(tools, CallsOf(model(history)));
      var grown := |history| + 1 + |known|;
      grown <= |o.history| &&
      o.history[..grown] == history + [model(history)] + Dispatch(tools, stringify, CallsOf(model(history))) &&
      forall k :: 0 <= k < |known| ==>
        Registered(tools, known[k].name) &&
        o.history[|history| + 1 + k] == Answer(tools, stringify, known[k]) &&
        o.history[|history| + 1 + k].toolCallId == known[k].id
  {
    var reply := model(history);
    if RequestsTools(reply) {
      var calls := CallsOf(reply);
      var next := history + [reply] + Dispatch(tools, stringify, calls);
      DispatchAnswersKnownCalls(tools, stringify, calls);
      LoopOnlyAppends(tools, stringify, model, next, remaining - 1);
      var o := Loop(tools, stringify, model, history, remaining);
      assert o.history[..|next|] == next;
      assert forall k :: 0 <= k < |next| ==> o.history[k] == next[k];
    }
  }

  /**
   * An iteration with tool calls appends nothing beyond the reply and its
   * tool messages: either the run ends there, or the next thing in the
   * history is the model's reply to exactly that history.
   */
  lemma IterationGrowsExactly(tools: seq<Tool>, stringify: ToolResult -> string, model: ChatModel,
                              history: seq<Message>, remaining: nat)
    requires |history| > 0 && remaining > 0
    requires RequestsTools(model(history))
    ensures var o := Loop(tools, stringify, model, history, remaining);
      var grown := |history| + 1 + |Known(tools, CallsOf(model(history)))|;
      (remaining == 1 ==> |o.history| == grown) &&
      (remaining > 1 ==> |o.history| > grown && o.history[grown] == model(o.history[..grown]))
  {
    var reply := model(history);
    var calls := CallsOf(reply);
    var next := history + [reply] + Dispatch(tools, stringify, calls);
    DispatchAnswersKnownCalls(tools, stringify, calls);
    assert |next| == |history| + 1 + |Known(tools, calls)|;
    var rest := Loop(tools, stringify, model, next, remaining - 1);
    assert Loop(tools, stringify, model, history, remaining).history == rest.history;
    if remaining > 1 {
      IterationStep(tools, stringify, model, next, remaining - 1);
      LoopOnlyAppends(tools, stringify, model, next, remaining - 1);
    }
  }

  /** A run's history begins with exactly the system message and the query. */
  lemma RunStartsWithSeed(resourceContent: string, query: string, tools: seq<Tool>,
                          stringify: ToolResult -> string, model: ChatModel, maxIterations: nat)
    ensures var h := Run(resourceContent, query, tools, stringify, model, maxIterations).history;
      |h| >= 2 && h[..2] == [SystemMessage(resourceContent), HumanMessage(query)]
  {
    LoopOnlyAppends(tools, stringify, model, Seed(resourceContent, query), maxIterations);
  }

  /** With no iterations the model is never asked and the query itself is returned. */
  lemma NoIterationsReturnsQuery(resourceContent: string, query: string, tools: seq<Tool>,
                                 stringify: ToolResult -> string, model: ChatModel)
    ensures Run(resourceContent, query, tools, stringify, model, 0)
         == Outcome(query, [SystemMessage(resourceContent), HumanMessage(query)], 0)
  {
  }

  /** A first reply without tool calls ends the run after exactly one invocation, returning that reply's content. */
  lemma FirstReplyWithoutTools(resourceContent: string, query: string, tools: seq<Tool>,
                               stringify: ToolResult -> string, model: ChatModel, maxIterations: nat)
    requires maxIterations > 0
    requires !RequestsTools(model(Seed(resourceContent, query)))
    ensures var reply := model([SystemMessage(resourceContent), HumanMessage(query)]);
      Run(resourceContent, query, tools, stringify, model, maxIterations)
      == Outcome(reply.content, [SystemMessage(resourceContent), HumanMessage(query), reply], 1)
  {
  }

  /** A model that always requests tools uses the whole budget. */
  lemma {:induction false} ToolRequestsUseWholeBudget(tools: seq<Tool>, stringify: ToolResult -> string, model: ChatModel,
                                                      history: seq<Message>, remaining: nat)
    requires |history| > 0
    requires AlwaysRequestsTools(model)
    ensures Loop(tools, stringify, model, history, remaining).invocations == remaining
    decreases remaining
  {
    if remaining > 0 {
      var reply := model(history);
      assert RequestsTools(reply);
      var next := history + [reply] + Dispatch(tools, stringify, CallsOf(reply));
      ToolRequestsUseWholeBudget(tools, stringify, model, next, remaining - 1);
    }
  }

  /**
   * When every reply requests only unregistered tools, nothing but the
   * replies is appended: one per iteration, the whole budget is used, and
   * the answer is the content of the last assistant message.
   */
  lemma {:induction false} UnknownToolsReturnLastReply(tools: seq<Tool>, stringify: ToolResult -> string, model: ChatModel,
                                                       history: seq<Message>, remaining: nat)
    requires |history| > 0
    requires OnlyUnknownTools(tools, model)
    ensures var o := Loop(tools, stringify, model, history, remaining);
      o.invocations == remaining && |o.history| == |history| + remaining &&
      (remaining > 0 ==>
        o.history[|o.history| - 1].AIMessage? &&
        o.history[|o.history| - 1] == model(o.history[..|o.history| - 1]) &&
        o.answer == o.history[|o.history| - 1].content)
    decreases remaining
  {
    if remaining > 0 {
      var reply := model(history);
      assert RequestsTools(reply) && Known(tools, CallsOf(reply)) == [];
      DispatchAnswersKnownCalls(tools, stringify, CallsOf(reply));
      var next := history + [reply] + Dispatch(tools, stringify, CallsOf(reply));
      assert next == history + [reply];
      UnknownToolsReturnLastReply(tools, stringify, model, next, remaining - 1);
      if remaining == 1 {
        assert next[..|next| - 1] == history;
      }
    }
  }

  /**
   * When every reply requests tools and at least one of them is registered,
   * the budget runs out with a tool message last, so the answer is a tool's
   * normalised output rather than an assistant message's content.
   */
  lemma {:induction false} KnownToolsReturnToolOutput(tools: seq<Tool>, stringify: ToolResult -> string, model: ChatModel,
                                                      history: seq<Message>, remaining: nat)
    requires |history| > 0 && remaining > 0
    requires SomeKnownTool(tools, model)
    ensures var o := Loop(tools, stringify, model, history, remaining);
      o.invocations == remaining && |o.history| > 0 && o.history[|o.history| - 1].ToolMessage? &&
      o.answer == o.history[|o.history| - 1].content
    decreases remaining
  {
    var reply := model(history);
    assert RequestsTools(reply) && Known(tools, CallsOf(reply)) != [];
    DispatchAnswersKnownCalls(tools, stringify, CallsOf(reply));
    var answers := Dispatch(tools, stringify, CallsOf(reply));
    var next := history + [reply] + answers;
    if remaining == 1 {
      assert next[|next| - 1] == answers[|answers| - 1];
    } else {
      KnownToolsReturnToolOutput(tools, stringify, model, next, remaining - 1);
    }
  }
}
