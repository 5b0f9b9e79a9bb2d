# Tool-calling conversation loop

This project models `runWithTools` from `tool-test/src/mcp-test.mjs`. That function is the loop that lets a chat model call MCP tools:

- It seeds a message history with the prefetched resource text as a system message and the user's query as a human message.
- It then asks the model at most `maxIterations` times.
- It appends every reply to the history.
- It stops at the first reply that requests no tools and returns that reply's content.
- Otherwise it runs each requested tool that is registered under the requested name. It normalises the tool's result to a string and appends a tool message tagged with the call's id.
- When the budget runs out, it returns the content of whatever message is last.

The model is in five modules:

- `Wrappers` (`wrappers.dfy`): `Option`, which stands for absent or falsy fields.
- `Messages` (`messages.dfy`): JSON values for tool arguments, tool calls, the four message kinds (`SystemMessage`, `HumanMessage`, `AIMessage`, `ToolMessage`) and the `Reply` subset type of assistant messages.
- `Normalisation` (`normalise.dfy`): the shapes a tool result can take, the normalisation of a result to a string, and `JoinLines` / `SplitLines`. These are JavaScript's `join("\n")` and `split("\n")`, and they give the `content`-array case a round trip.
- `Registry` (`registry.dfy`): the tool list, `tools.find` by name, and the tool messages produced for one reply's tool calls.
- `Conversation` (`conversation.dfy`):
  - `Loop` and `Run` are a functional specification of the outcome: the answer, the final history and the number of model invocations.
  - `RunWithTools` is the source's loop written imperatively. It appends to a local history and has an inner loop over the tool calls. It is proved to produce exactly `Run`'s outcome.
  - Lemmas about `Loop` state what the loop promises.

The chat model is a total function from the history to the next assistant message. Each tool is a total function from its arguments to its result. `JSON.stringify` is a parameter, `stringify`, whose output is left unspecified.

Two consequences of the code are worth spelling out:

- A non-text part is not dropped: `[text "A", image]` gives `"A\n"` (`Normalisation.TextThenImage`).
- When the budget runs out, an assistant message is last only if none of the tools the last reply requests is registered. Otherwise a tool message is last and its content is returned. The lemmas prove the two uniform cases: every reply requests only unregistered tools (`Conversation.UnknownToolsReturnLastReply`), or every reply requests at least one registered tool (`Conversation.KnownToolsReturnToolOutput`).

## Model

| member | source | states |
|---|---|---|
| `Conversation.Loop` | tool-test/src/mcp-test.mjs:54-103 | Definition of the loop's outcome from a given history and budget. Its promises are stated by `LoopOnlyAppends`, `LoopInvocationsBounded`, `IterationStep`, `IterationGrowsExactly`, `AnswerIsLastContent`, `ToolRequestsUseWholeBudget`, `UnknownToolsReturnLastReply` and `KnownToolsReturnToolOutput`. |
| `Conversation.Run` | tool-test/src/mcp-test.mjs:51-104 | Definition of `runWithTools(query, maxIterations)`'s outcome: `Loop` from the seed history. Its promises are stated by `RunStartsWithSeed`, `NoIterationsReturnsQuery` and `FirstReplyWithoutTools`. |
| `Conversation.Seed` | tool-test/src/mcp-test.mjs:52 | Definition of the starting history: the system message, then the query. Its promise is stated by `RunStartsWithSeed`. |
| `Conversation.LastContent` | tool-test/src/mcp-test.mjs:103 | Definition of `message[message.length - 1].content`. Its promise is stated by `AnswerIsLastContent` and `NoIterationsReturnsQuery`. |
| `Conversation.RunWithTools` | tool-test/src/mcp-test.mjs:51-104 | The loop's returned string, its final history and its number of model invocations are exactly those of the specification `Run`. The loop invariants tie each iteration and each dispatched tool call to `Loop`. |
| `Conversation.RunStartsWithSeed` | tool-test/src/mcp-test.mjs:52 | Every run's final history starts with exactly `[SystemMessage(resourceContent), HumanMessage(query)]`. |
| `Conversation.LoopInvocationsBounded` | tool-test/src/mcp-test.mjs:54-56 | The model is invoked at most `maxIterations` times, and at least once when the budget is positive. `Loop` terminates because its budget decreases. |
| `Conversation.LoopOnlyAppends` | tool-test/src/mcp-test.mjs:54-100 | The history only grows by appending. The earlier history stays a prefix of the final one, unchanged and in order. |
| `Conversation.IterationStep` | tool-test/src/mcp-test.mjs:56-99 | The reply is appended before anything else. Without tool calls the run ends with the reply's content after one invocation. With tool calls the history grows by the reply plus one tool message per call that names a registered tool, in call order, each carrying its call's id and the normalised result of the first matching tool. |
| `Conversation.IterationGrowsExactly` | tool-test/src/mcp-test.mjs:54-100 | An iteration with tool calls appends nothing beyond the reply and its tool messages. With one iteration left, the history ends right after them. Otherwise the next message is the model's reply to exactly that history. So each iteration grows the history by 1 plus the number of calls naming a registered tool. |
| `Conversation.FirstReplyWithoutTools` | tool-test/src/mcp-test.mjs:60-63 | If the first reply has absent or empty `tool_calls`, there is exactly one invocation. The run returns that reply's content, and the history is the seed plus that reply. |
| `Conversation.AnswerIsLastContent` | tool-test/src/mcp-test.mjs:60-103 | However the loop ends, the returned string is the content of the last message in the final history. |
| `Conversation.NoIterationsReturnsQuery` | tool-test/src/mcp-test.mjs:51-103 | With `maxIterations = 0` the model is never asked, the history is the seed, and the query itself is returned. |
| `Conversation.ToolRequestsUseWholeBudget` | tool-test/src/mcp-test.mjs:54-100 | A model whose every reply requests tools is invoked exactly `maxIterations` times. |
| `Conversation.UnknownToolsReturnLastReply` | tool-test/src/mcp-test.mjs:75-103 | When every reply requests only unregistered tools, nothing else is appended and nothing fails. Each iteration adds one assistant message, the whole budget is used, and the answer is the last assistant message's content. |
| `Conversation.KnownToolsReturnToolOutput` | tool-test/src/mcp-test.mjs:96-103 | When every reply requests at least one registered tool, the budget runs out with a tool message last, and the answer is that tool message's content. |
| `Messages.RequestsTools` | tool-test/src/mcp-test.mjs:60 | Definition of the negation of line 60's test: `tool_calls` is present and non-empty. `CallsOf` states its link to the calls that get run. |
| `Messages.CallsOf` | tool-test/src/mcp-test.mjs:60 | A reply yields tool calls to run exactly when `tool_calls` is present and non-empty. |
| `Registry.Find` | tool-test/src/mcp-test.mjs:76 | Lookup returns the first tool whose name equals the call's name. It returns nothing exactly when no tool has that name. |
| `Registry.Dispatch` | tool-test/src/mcp-test.mjs:75-100 | Definition of the tool messages one reply's calls produce, call by call. Its promises are stated by `DispatchAppend` and `DispatchAnswersKnownCalls`. |
| `Registry.KnownFilters` | tool-test/src/mcp-test.mjs:75-77 | The calls that get answered are exactly the calls naming a registered tool. They are kept in order, and filtering a concatenation filters each part. |
| `Registry.KnownExtremes` | tool-test/src/mcp-test.mjs:75-99 | If every call names a registered tool, every call is answered. If no call does, none is. |
| `Registry.DispatchAppend` | tool-test/src/mcp-test.mjs:75-100 | Handling the calls one at a time gives the same messages as handling a prefix and then the rest. |
| `Registry.DispatchAnswersKnownCalls` | tool-test/src/mcp-test.mjs:75-99 | An iteration appends one tool message per registered call, in order. The k-th message carries the k-th registered call's id and its tool's normalised result. |
| `Normalisation.Normalise` | tool-test/src/mcp-test.mjs:80-95 | Definition of the normalisation of a tool result to a string, case by case in the source's order. Its promises are stated by `ContentLinesArePartTexts`, `EmptyContentArrayIsEmpty`, `TextThenImage`, `EmptyTextIsSerialised` and `SerialiserOnlyForUnrecognised`. |
| `Normalisation.JoinLines` | tool-test/src/mcp-test.mjs:90 | Definition of `join("\n")`. Its partner `SplitLines` undoes it, as `SplitJoinLines` proves. |
| `Normalisation.PartText` | tool-test/src/mcp-test.mjs:89 | Definition of one part's contribution: its text for a `"text"` part, `""` otherwise or when the text is absent. Its promises are stated by `ContentLinesArePartTexts` and `TextThenImage`. |
| `Normalisation.PartTexts` | tool-test/src/mcp-test.mjs:88-89 | Every part of the `content` array contributes exactly one string, so non-text parts are not dropped. |
| `Normalisation.SplitJoinLines` | tool-test/src/mcp-test.mjs:88-90 | Splitting at newlines undoes the `"\n"` join for any non-empty list of newline-free strings. |
| `Normalisation.ContentLinesArePartTexts` | tool-test/src/mcp-test.mjs:83-90 | An object whose `content` is a non-empty array, none of whose part texts contains a newline, normalises to one line per part, in order: a text part's text, or `""` for any other part. |
| `Normalisation.EmptyContentArrayIsEmpty` | tool-test/src/mcp-test.mjs:83-90 | An empty `content` array still counts as an array. It normalises to `""` and never reaches the `text` or serialisation branches. |
| `Normalisation.TextThenImage` | tool-test/src/mcp-test.mjs:88-90 | `[text "A", image]` normalises to `"A\n"`. |
| `Normalisation.EmptyTextIsSerialised` | tool-test/src/mcp-test.mjs:91-95 | An empty `text` is falsy, so the object is serialised. |
| `Normalisation.SerialiserOnlyForUnrecognised` | tool-test/src/mcp-test.mjs:80-95 | A string passes through unchanged, and a non-empty `text` is taken as it is. Serialisation can only influence the result of `null`, a boolean, a number or an array, or of an object with neither a `content` array nor a non-empty `text`. |

## Left out

- Construction of the chat model and the MCP client, environment-variable configuration, and `mcpClient.close()` (lines 11-37, 112). These are configuration and process or network I/O.
- Resource prefetch with `listResources` / `readResource` (lines 39-46). It is network I/O, so `resourceContent` is an input string.
- Binding the tools to the model (lines 48-49). The tool list is an input, and the model is a function that already knows it.
- Console output, `chalk` styling and `async`/`await`. The model and the tools are synchronous, total functions.
- Failures. A model or tool invocation that throws aborts the source's loop. Here both always return, so the model does not cover that abort.
- Non-determinism and state in the model or in tools. The model's reply depends only on the history, and a tool's result depends only on its arguments.
- The output format of `JSON.stringify`. It is an unspecified `stringify` parameter. It sees only the fields normalisation inspects (`Obj`) or an opaque JSON value (`Other`), not the tool's whole object.
- `ContentLinesArePartTexts`: a part text with an embedded newline is described only by the definition of `JoinLines`, because its newline cannot be told apart from the separator.
- A tool result of `undefined` cannot be represented, because `JSON.stringify(undefined)` returns `undefined` rather than a string. Every `Other` result is `null`, a boolean, a number or an array.
- `maxIterations` that is negative or not an integer. The parameter is a `nat`, and the default of 30 is the caller's choice.
- Truthy non-string `text` fields, non-string part texts, `null` parts (on which `c.type` throws), and a non-array `tool_calls`. A part's missing `text` is modelled as joining as `""`.
- rag-test/src/loader-and-splitter.mjs, rag-test/src/MarkdownTextSplitter-test.mjs, rag-test/src/LatexTextSplitter-test.mjs and tool-test/src/hello-langchain.mjs are not part of this model. They are sequences of library calls without logic of their own.
