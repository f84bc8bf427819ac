# pinky agent core, modelled in Dafny

This project models the core of `pinky`, a terminal agent that sits between a
human operator, a language-model backend (ollama) and a set of callable tools.
Two parts are modelled:

- **The step machine** (`main.go`, module `Agent`). A `Brain` owns the
  conversation history, which only grows by appending, and a registry of
  tools. One automated step (`loop`) looks at the latest message. If it
  carries tool calls, the calls are run as an atomic batch (`callTools`).
  Otherwise the model is asked and its reply is appended (`chat`). The outer
  loop (`start`, the Dafny `Brain.Run`) prompts the operator when the latest
  message is an assistant turn without tool calls. It keeps stepping while
  `len(history) <= limit || limit == 0`. `printMessage` flattens a message to
  text.
- **Tool plumbing** (`tools.go`, modules `Schema` and `Registry`). A remote
  tool-provider schema is normalised into the backend's descriptor shape
  (`fromMCPTool`), which rejects any enum entry that is not a string. The
  provider's paginated listing is followed cursor by cursor
  (`FromMCPClient`). The name-to-tool registry (`toolManager`) rejects
  duplicate names. The web-search tool (`serper`) validates its argument.

The external services are oracles, given as function values. They are the
model backend (`Agent.Backend`), the operator's prompt form
(`Agent.Operator`), the JSON serialiser used by `printMessage`
(`Agent.Marshal`), each tool's `Run` (inside `Registry.Tool`), the provider's
`ListTools` (`Schema.Provider`), and the search call and HTML-to-markdown
converter (`Registry.Search`, `Registry.ToMarkdown`).

Files: `wrappers.dfy` (Option/Result/Outcome), `errors.dfy` (error kinds),
`api.dfy` (the backend's message and descriptor types), `schema.dfy`,
`registry.dfy`, `agent.dfy`.

main.go:17 and tools.go:14 both declare `Tool`. The code also
assigns the `*toolManager` `defaultTools` to `Brain.tools`, which is declared as
a `map[string]Tool` (main.go:42, main.go:51). The model has one registry type,
`Registry.Tools` (name to tool). `Brain` holds such a map and `ToolManager`
wraps one. A tool is filed under the name in its descriptor, as `AddTool`
does; main.go's `Name()` method is not used anywhere.

Two behaviours of the source worth noting:

- A duplicate in an `AddTool` batch leaves the earlier tools of that batch
  inserted. The registry is mutated even though a duplicate is rejected.
- `chat` appends the last response the callback received. If the callback
  was never called, it appends the zero message.

## Model

| member | source | states |
|---|---|---|
| `Schema.Function.ToolFunction` | tools.go:25-30 | The backend's descriptor carries the function's name, description, parameter type, required list and property keys, and each property keeps its type, description and enum list |
| `Schema.Function.Tool` | tools.go:32-37 | The descriptor has type "function" and carries the converted function |
| `Schema.ToolFunctionRoundTrip` | tools.go:25-37 | Converting a `Function` to the backend's `ToolFunction` loses nothing: reading it back gives the same name, description, parameter type, required list and properties |
| `Schema.EnumTextKeepsOrder` | tools.go:55-62 | The string list built from an all-string enum has the same length, and entry i is the i-th enum string, so order is kept and an empty enum gives an empty list |
| `Schema.TranslateKeepsSchema` | tools.go:51-85 | An accepted schema gives a descriptor of type "function" with the same name, description and required list. `Parameters.Type` is "". The property keys are the input keys, and each property keeps its type, description and enum strings in order |
| `Schema.FromMcpTool` | tools.go:51-85 | Succeeds exactly when every enum entry of every parameter is a string, and then returns the translated descriptor. Otherwise the error names an entry that is the first non-string entry of its parameter's enum |
| `Schema.TranslatePage` | tools.go:95-104 | One page's tools are translated in order. The result is the list of all translations exactly when every tool is accepted. Otherwise it is the error of the first rejected tool (every earlier tool is accepted), naming a first non-string enum entry of that tool, and no list |
| `Schema.FromMcpClient` | tools.go:87-111 | The result is the listing reached from the empty cursor by following each page's next cursor and stopping after the first page whose next cursor is empty. It is the tools of every page in page order, or the first fetch error unchanged, or an enum error. A failure never carries a partial list |
| `Schema.ListFromBoundIrrelevant` | tools.go:90-109 | The listing does not depend on the termination bound the model uses: any two valid bounds give the same listing |
| `Schema.ChainIsListed` | tools.go:88-110 | A provider that serves pages p0…pn along a cursor chain, with the last next cursor empty, is listed as the concatenation of the pages' translated tools, in page order |
| `Schema.FirstFetchFailure` | tools.go:91-94 | A failing first fetch ends the listing with exactly that error |
| `Schema.ThreePages` | tools.go:88-110 | Three pages of sizes 2, 2 and 1, linked by cursors A, B, "", list exactly the five translated tools in page order |
| `Registry.SerperDescription` | tools.go:158-173 | The search tool's descriptor is a "function" named `web_search` of type "object" with exactly one property, `search_term`, which is required, of type "string" and has no enum |
| `Registry.SerperRunAsWritten` | tools.go:175-193 | The search tool as written: a missing `search_term` is an argument-missing error. A non-string one is a type error that carries no value. For a string, a search error or a conversion error is returned unchanged. When both succeed, the result is one message whose content is the markdown and whose role is the call's name, and only then does the tool succeed |
| `Registry.SerperRun` | tools.go:175-193 | The corrected search tool, which the registry runs. A missing `search_term` is an argument-missing error. A non-string one is a type error that reports the value. For a string, a search error or a conversion error is returned unchanged. When both succeed, the result is one message whose content is the markdown and whose role is the call's name, and only then does the tool succeed |
| `Registry.SerperRunConformsToDescription` | tools.go:158-193 | The search tool runs only on arguments that conform to its own descriptor: each required parameter is present and has its declared type |
| `Registry.SerperAsWrittenHidesValue` | tools.go:180-183 | As written, a numeric and a boolean `search_term` produce the very same type error, with no value. The corrected tool reports the number, and its two errors differ |
| `Registry.SerperRunOnlyReportsValue` | tools.go:175-193 | The corrected and the as-written search tool agree on every input except the non-string argument, where only the corrected one reports the value |
| `Registry.Invoke` | tools.go:140-146 | A call whose name is not registered is a no-such-tool error and runs no tool. Otherwise the result is exactly what the registered tool's `Run` returns |
| `Registry.AddAllFresh` | tools.go:121-130 | A batch with no name already registered and no name repeated succeeds. The registry's keys grow by exactly the batch's names, and its size grows by the batch's length |
| `Registry.AddAllFreshFiles` | tools.go:121-130 | After a fresh batch, each of its tools is registered under its own name |
| `Registry.AddAllKeepsEntries` | tools.go:121-130 | Whatever the outcome, no existing entry is removed or overwritten, and no name outside the registry and the batch appears |
| `Registry.AddAllStopsAtClash` | tools.go:122-127 | At the first tool whose name is taken, by the registry or by an earlier tool of the batch, the batch fails with a duplicate-name error for that name. The tools before it stay inserted, and none after it are |
| `Registry.AddAllPassIsFresh` | tools.go:121-130 | A batch succeeds only when it is fresh. Together with `AddAllFresh` this is an if-and-only-if |
| `Registry.AddAllKeyed` | tools.go:121-128 | Adding a batch keeps every tool filed under its own descriptor name |
| `Registry.Describe` | tools.go:132-138 | One descriptor per registered tool, and no duplicates: the list's length is the map's size. The order is an enumeration of the keys. Descriptor names are distinct when tools are filed under their names |
| `Registry.DistinctBatchIsListed` | tools.go:121-138 | Starting from an empty registry, after a batch of distinct names, a listing has exactly one descriptor per added tool, and every added tool's descriptor is in it |
| `Registry.ToolManager.constructor` | tools.go:117-119 | A new manager is empty |
| `Registry.ToolManager.AddTool` | tools.go:121-130 | The new map and the outcome are those of inserting the batch in order and stopping at the first duplicate. Tools stay filed under their own names |
| `Registry.ToolManager.List` | tools.go:132-138 | One descriptor per registered tool. The length equals the map size and the names are distinct |
| `Registry.ToolManager.Call` | tools.go:140-146 | An unknown name is a no-such-tool error. Otherwise the result is exactly what the tool's `Run` returns |
| `Agent.BlocksOnePerCall` | main.go:25-30 | When every tool call marshals, there is one fenced ```` ```json ```` block per call, in call order |
| `Agent.PrintMessage` | main.go:23-35 | With no tool calls, or none that marshal, the result is the content. Otherwise it is the fenced blocks joined by "\n\n", and the content is dropped |
| `Agent.RunCallsSucceeds` | main.go:110-124 | A batch of tool calls succeeds exactly when every call resolves and runs. Then it yields one message per call, and the i-th is the i-th call's result |
| `Agent.RunCallsFirstFailure` | main.go:112-120 | The first failing call decides the batch: its error is returned, and the calls after it play no part |
| `Agent.UnknownToolFails` | main.go:113-116 | A call to an unregistered tool, after calls that succeed, fails the batch with a no-such-tool error naming it |
| `Agent.StepAppends` | main.go:139-152 | A successful step appends, when the latest message has tool calls, one result per call in order. Otherwise it appends exactly the model's one reply. It never appends an operator prompt |
| `Agent.TickGrows` | main.go:154-168 | Every successful iteration of `start` appends at least one message, so the length limit is eventually passed |
| `Agent.TickPrompts` | main.go:155-167 | When the latest message has no tool calls and its lower-cased role is "assistant", the iteration does not depend on the model's answer. Otherwise it does not depend on the operator's answer. A successful prompt appends one non-empty "user" message |
| `Agent.TraceGrows` | main.go:154-168 | Over any run of `start`, the iterations together append at least as many messages as there were iterations |
| `Agent.TraceBounded` | main.go:154-168 | With a non-zero limit, `start` iterates at most `limit + 1 - len(history)` times from a history, because each iteration appends a message and runs only while the history is no longer than `limit` |
| `Agent.UnknownToolStep` | main.go:139-145 | A history ending in one call to an unregistered tool fails the step with a no-such-tool error |
| `Agent.FirstReply` | main.go:127-137 | From [system, user], a plain assistant reply gives a history of length 3 whose third message is the assistant's |
| `Agent.Brain.constructor` | main.go:45-53 | A new brain has the given model, limit and registry, and an empty history |
| `Agent.Brain.Request` | main.go:94-108 | The request carries the model and the current history. It has one descriptor per registered tool (an enumeration of the registry), `Think` is true and `Stream` is false |
| `Agent.Brain.Prompt` | main.go:55-79 | On a non-empty answer, one "user" message with that content is appended. An empty answer or a form error leaves the history unchanged and returns the error |
| `Agent.Brain.CallTools` | main.go:110-125 | If every call succeeds, the history grows by the batch's results in call order, with the old history as prefix. Otherwise it returns the first error and the history is unchanged |
| `Agent.Brain.Chat` | main.go:127-137 | The request sent is the one `request` describes. On success exactly one message is appended: the last response the callback received. On error the history is unchanged |
| `Agent.Brain.Loop` | main.go:139-152 | Exactly one branch per step: `callTools` on the latest message's tool calls if it has any, `chat` otherwise. The history changes only as that branch says |
| `Agent.Brain.Tick` | main.go:156-167 | Prompt when awaiting user input, otherwise one `loop` step. The new history and outcome follow that choice |
| `Agent.Brain.Run` | main.go:154-171 | The new history is the old one followed by the messages of successive iterations and nothing else. Each iteration ran while the history was no longer than `limit` or `limit` was 0, and appended what one iteration (prompt when awaiting user input, otherwise one `loop` step) gives for that history, the request it sent and the operator's answer. `Finished` means `limit != 0` and the history is longer than `limit`. `Interrupted` means `limit == 0` after `fuel` iterations. `Failed(e)` means one more iteration on the final history failed with `e` and appended nothing |
| `Agent.Brain.Start` | main.go:173-206 | An empty first prompt is rejected with no change. Otherwise the history is seeded with the old history, then a "system" message and a "user" message, and from that seed it ends exactly as `Agent.Brain.Run` states, including `Interrupted` only with `limit == 0` |

## Left out

- Forms and rendering: the `huh` forms, the spinner, `glamour` and `show`. The history display inside the prompt form is not modelled either. Only what the forms decide is kept: an empty prompt is rejected, and a prompt appends one message.
- Brain.Prompt: the form re-asks until the input is non-empty. The model folds the re-asking into the operator oracle, and an empty answer reads as an `EmptyPrompt` failure with no append.
- Brain.Start: the form's model and history-limit fields are left out. That includes the `strconv.Atoi` parse of the limit. The system prompt and first prompt are parameters.
- `main`, and the backend client setup in `NewBrain` (`ClientFromEnvironment`). The backend is an oracle parameter.
- `context.Context` and cancellation. A cancelled model or tool call is just an error returned by its oracle, which leaves the history unchanged like any other error.
- JSON: marshalling and unmarshalling between `Function` and `api.ToolFunction` is a field-for-field mapping. The marshal/unmarshal errors in `fromMCPTool` (tools.go:69-80) cannot occur for these types and are not modelled. `json.MarshalIndent` in `printMessage` is the oracle `Agent.Marshal`.
- JSON values are strings, integers, booleans and null. Floating-point numbers, arrays and objects are not modelled.
- Map iteration order in `List`, `request` and `fromMCPTool` is unspecified. The model picks keys with `:|`. Listings are stated as enumerations of the keys, and the enum error as "some first non-string entry".
- Oracles are pure functions. The same call twice in one batch gets the same answer. Because the history grows at every step, the backend and the operator never see the same input twice.
- Brain.Run: with `limit == 0` the source loops until an error. The model takes a `fuel` count of iterations for that mode and returns `Interrupted` when it runs out, which stands for the operator's interrupt.
- Schema.FromMcpClient: it requires a bound within which the provider's cursor chain ends. A provider whose cursors cycle forever makes the source loop forever. Its contract also says only that a rejection returns some enum error, not which tool or entry.
- Registry.Tool.Run: the registry runs the corrected search tool `Registry.SerperRun`, so calls through `Registry.Invoke`, `Agent.RunCalls`, `Agent.Brain.CallTools` and `Registry.ToolManager.Call` report the offending value in the type error, unlike tools.go:182. The code as written is `Registry.SerperRunAsWritten`.
- Agent.Lower lower-cases ASCII letters only, while `strings.ToLower` also folds other Unicode letters.
- A nil input schema or nil property in a remote tool would make the source panic. This is not modelled: schemas are values.
- The fixed description text of the search tool is included, but no property depends on it.

## Findings

| source | as written | input that shows it | evidently intended | confidence | as-written member | corrected member |
|---|---|---|---|---|---|---|
| tools.go:182 | The type error's format string has a `%v` verb and no operand, so the message never shows the offending value | arguments `{"search_term": 1}` | the error reports the value it got (`val`) | high; not executed | `Registry.SerperRunAsWritten`, `Registry.SerperAsWrittenHidesValue` | `Registry.SerperRun`, `Registry.SerperRunOnlyReportsValue` |
