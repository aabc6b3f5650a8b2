# Task-planning agent: a Dafny model of its tool-calling core

The agent takes a natural-language goal and asks a chat-completion
provider for a plan. The provider may first ask for tool calls: a web
search or a weather lookup. The agent runs each one and appends its result
to the conversation. It then asks the provider once more, with no tools
offered, and returns `{goal, plan, status}`. Every failure becomes a record
with status `error`.

This project models the three methods of `TaskPlanningAgent` that hold
that logic:

- `web_search` (module `Search`): builds the list of text pieces from the
  search service's decoded answer. The pieces are the summary, the texts of
  the related topics in the slice `RelatedTopics[:num_results]`, and the
  instant answer. It then joins them with newlines, or returns the
  "no information" sentinel. `SearchText` is the specification.
  `WebSearch` and `AppendTopicTexts` are the imperative code, proved equal
  to it.
- `get_weather` (module `Weather`): a pure choice between four outcomes.
  These are the key-missing sentinel, the report line on status 200, the
  not-available text and the error text.
- `create_plan` (module `Planner`): `Plan` is the specification as a
  function, and `RunTools` is the tool loop within it. `CreatePlan` is the
  imperative version: a conversation that grows by appends and a loop over
  the tool calls, proved equal to `Plan`. The provider's messages and
  replies and the classification of refused requests are in module
  `Provider`.

The network is an input. `World` holds three total functions. The
provider answers a `Request`. The search and weather services answer the
i-th tool call's argument. Every outbound request is recorded in a log of
`Call`s. This lets the contracts state how many requests are made, in what
order and with what conversation. Running `create_plan` twice against the
same deterministic stub gives the same record, because `Plan` is a
function.

Modules `Text` (`startswith`, `endswith`, `in` on strings, `str.join`,
`str(int)`), `Json` (decoded argument values and Python's rendering of
them) and `Wrappers` (Option, Result) stand in for the Python built-ins the
code uses.

The tool schema describes `num_results` as the "Number of results to
return" (agent.py:100-103), but the code bounds only the `RelatedTopics`
slice (agent.py:37). The summary and the answer come on top, so the text
can have up to `num_results + 2` pieces: `Search.RelatedTextsBounded`
proves that at most that many are produced. With a negative `num_results`
the slice drops entries from the end instead
(`Search.NegativeBoundDropsFromEnd`).

## Model

| member | source | states |
|---|---|---|
| `Search.SearchText` | agent.py:13-48 | what `web_search` returns for a decoded answer or a failed fetch; no contract of its own: the rows from `Search.SummaryLeads` to `Search.FailuresBecomeText` state its properties, and `Search.WebSearch` is proved equal to it |
| `Search.Pieces` | agent.py:29-43 | the pieces list, or the slice's exception; `Search.CollectPieces` is proved equal to it and `Search.NoInformationWhenNothingExtracted` and `Search.RelatedTextsBounded` state its properties |
| `Search.JoinOrSentinel` | agent.py:45 | the final `return`; `Search.NoInformationWhenNothingExtracted`, `Search.EmptyTextIsNotSentinel`, `Search.SummaryLeads` and `Search.AnswerTrails` state its properties |
| `Search.SliceBound` | agent.py:37 | how Python reads `num_results` as a slice bound (integer, boolean, `None`, or not an index); its properties are stated by `Search.ExaminedWindow` |
| `Search.PyPrefix` | agent.py:37 | Python's `xs[:n]`; `Search.PyPrefixShape` states its contract |
| `Search.Examined` | agent.py:36-37 | the entries the loop looks at, or the slice's exception; `Search.ExaminedWindow` states its contract |
| `Search.WebSearch` | agent.py:13-48 | the text built step by step (pieces list, slice, loop, join or sentinel) equals `SearchText` for every answer, including failures |
| `Search.CollectPieces` | agent.py:29-43 | the pieces list grown step by step (summary, examined related texts, answer) equals `Pieces`, and a bad slice bound surfaces as the error `Pieces` reports |
| `Search.AppendTopicTexts` | agent.py:37-39 | the loop appends exactly the `Text`s of the examined entries that are dicts with a `Text`, in order, after what was already there |
| `Search.ExaminedWindow` | agent.py:36-37 | the examined entries are a prefix of `RelatedTopics`; there are at most `num_results` of them for a non-negative integer bound, exactly the first `num_results` when the list is longer, and all of them for a bound of at least the list's length or for `None`; the slice raises exactly when the list is non-empty and the bound is neither an integer, a boolean nor `None` |
| `Search.PyPrefixShape` | agent.py:37 | Python's `xs[:n]` is a prefix of `xs`, of length `min(n, len)` for `n >= 0`; a negative `n` drops that many from the end |
| `Search.TopicTexts` | agent.py:38-39 | the filter never yields more texts than entries examined |
| `Search.TopicTextsConcat` | agent.py:37-39 | the filter preserves order: the texts of `a + b` are the texts of `a` followed by those of `b` |
| `Search.TopicTextsMembers` | agent.py:38-39 | a text is yielded if and only if some examined entry is a dict whose `Text` it is |
| `Search.TopicTextsEmpty` | agent.py:38-39 | no text is yielded if and only if no examined entry is a dict with a `Text` |
| `Search.RelatedTextsBounded` | agent.py:36-39 | with `num_results >= 0` nothing raises and the related-topic part adds at most `num_results` pieces to summary and answer |
| `Search.NegativeBoundDropsFromEnd` | agent.py:37 | a negative `num_results` examines all but the last that many entries |
| `Search.SummaryLeads` | agent.py:32-45 | a non-empty `Abstract` makes the text begin with `"Summary: " + Abstract` |
| `Search.AnswerTrails` | agent.py:42-45 | a non-empty `Answer` makes the text end with `"Answer: " + Answer` |
| `Search.NoInformationWhenNothingExtracted` | agent.py:29-45 | no piece is extracted if and only if `Abstract` and `Answer` are empty and no examined entry contributes; the text is then exactly the sentinel with the query |
| `Search.EmptyTextIsNotSentinel` | agent.py:45 | the sentinel is chosen on the list, not the text: one entry with an empty `Text` gives `""` |
| `Search.FailuresBecomeText` | agent.py:47-48 | a failed fetch or a bad slice bound is returned as text beginning with `"Search error: "`, never raised |
| `Weather.GetWeather` | agent.py:50-81 | the model of `get_weather`; `Weather.WeatherOutcomes` and `Weather.NoKeyIgnoresReply` state its contract, `Planner.KnownToolsRun` when it requests |
| `Weather.WeatherOutcomes` | agent.py:53-81 | the text equals the key-missing sentinel if and only if no key is set; it begins with `"Weather in "` iff status 200 with a complete body; it begins with the not-available text iff the reply decoded and its status is not 200, and is then exactly that text with the location; it begins with `"Weather error: "` iff the request failed or the body did not decode (whatever the status), or a 200 body lacked a field |
| `Weather.NoKeyIgnoresReply` | agent.py:53-54 | without a key the result is the sentinel whatever the service would answer |
| `Provider.ErrorDetail` | agent.py:172 | `error_msg`; its meaning is stated through `Provider.RefusalText` and `Provider.NullMessageIsNone` |
| `Provider.ErrorCode` | agent.py:174 | the refusal's `code`, "" when absent; used by `Provider.Decommissioned`, whose consequences `Provider.RefusalText` states |
| `Provider.Decommissioned` | agent.py:174 | the decommissioned-model test; `Provider.RefusalText` states that it decides between the two messages, in both directions |
| `Provider.RefusalText` | agent.py:170-177 | a code containing `model_decommissioned` gives a message naming the quoted model; otherwise, and only then, it is exactly `"Groq API error: <status> - <message>"`; both end with the provider's `error.message` as `str()` renders it (`"None"` for `null`), or the raw body when the body has no `error` object or that object no `message` key |
| `Provider.NullMessageIsNone` | agent.py:172 | an `error.message` of `null` is rendered as `"None"`, not replaced by the raw body |
| `Planner.Settle` | agent.py:170-243 | what a provider reply settles; `Planner.RefusalsAreReported`, `Planner.RaisingRequestsAreReported`, `Planner.ToolResultsBecomePlan` and `Planner.Plan` state its cases |
| `Planner.Rejects` | agent.py:190-204 | which tool calls make the loop raise; `Planner.Execute` states it is exactly when `Execute` fails |
| `Planner.Failure` | agent.py:251-256 | an error record's plan begins with `"Error creating plan: "` |
| `Planner.Execute` | agent.py:188-209 | one tool call raises if and only if its arguments do not decode, or are not an object and the tool reads them; it raises with that exception's text; any other name gives `"Function not available"` with no request; no tool asks the provider |
| `Planner.KnownToolsRun` | agent.py:195-207 | `web_search` runs the search assembly on `query` and `num_results` (5 when absent) with exactly one search request for `query`; `get_weather` runs the weather assembly on `location`, with one weather request when a key is set and none otherwise |
| `Planner.HandleToolCalls` | agent.py:188-216 | the imperative loop over the tool calls appends to the conversation and the request log exactly what `RunTools` specifies, and reports the same failure |
| `Planner.CallTool` | agent.py:189-209 | the loop body (decode, dispatch by name, run the executor) gives what `Execute` specifies |
| `Planner.RunTools` | agent.py:188-216 | the loop appends at most one message per call and makes no provider request |
| `Planner.ToolMessagesCorrelate` | agent.py:184-216 | without a failure there is exactly one tool message per call. The k-th is tagged with call k's id and name and holds its executor's text ("Function not available" for unknown names). With a failure the messages stop at the first rejecting call, whose exception is reported |
| `Planner.LoopRequestsInOrder` | agent.py:188-207 | the loop's requests are exactly those of the calls it handled, each call's in turn and in emission order; no executor runs for the call that raised or any after it |
| `Planner.FailureStops` | agent.py:188-256 | once a tool call raises, no later call is examined or executed |
| `Planner.Opening` | agent.py:129-146 | the [system, user] conversation; `Planner.Plan` and `Planner.SecondRequestShape` state where it is sent |
| `Planner.FirstRequest` | agent.py:129-162 | the first payload, with tools offered; `Planner.Plan` states it is the first request made |
| `Planner.SecondRequest` | agent.py:211-223 | the second payload, without tools; `Planner.SecondRequestShape` and `Planner.ToolResultsBecomePlan` state its contents |
| `Planner.Plan` | agent.py:83-256 | the goal is echoed. An error plan has the error prefix. The first request is [system, user] with tools offered. Provider requests appear only first and last in the log. A first reply without tool calls is the plan, and no executor runs |
| `Planner.RejectedToolCallIsReported` | agent.py:188-256 | when tool call k is the first whose arguments make the loop raise (not JSON, or not an object for a known tool), the record is `{goal, "Error creating plan: " + that exception's text, error}` and no second provider request is made |
| `Planner.ToolResultsBecomePlan` | agent.py:211-243 | when no tool call raises, the loop's requests are followed by one second provider request carrying the loop's messages, and a completed second reply's `content` is the plan, with status success |
| `Planner.CreatePlan` | agent.py:149-256 | the imperative run (list appends, the loop over tool calls, two provider calls) gives the record and request log `Plan` specifies |
| `Planner.SecondRequestShape` | agent.py:179-229 | a second request follows only a first reply with tool calls and offers no tools. Its conversation is [system, user] unchanged, then the assistant message, then exactly the tool loop's messages: one per call, in order, with matching id and name and holding that call's executor text |
| `Planner.RaisingRequestsAreReported` | agent.py:164-256 | a provider request that raises (the POST fails, or a 200 body lacks `choices[0].message`), first or second, ends the run with `{goal, "Error creating plan: " + that exception's text, error}` |
| `Planner.RefusalsAreReported` | agent.py:170-238 | a refused first or second request ends the run with `Failure` of that refusal's text: one rule for both calls |
| `Planner.DecommissionedNamesModel` | agent.py:174-175 | the error plan of a decommissioned-model refusal contains the configured model in quotes |
| `Planner.ParisScenario` | agent.py:184-249 | a provider that asks for the weather in Paris and then answers "Visit the Louvre..." yields that plan with status success. The run makes exactly three requests, and the only weather lookup is for "Paris" |

## Left out

- HTTP: `requests.get` and `requests.post`, headers, the base URL and the bearer token are not modelled. So are the content-type sniffing and `.json()` decoding. Decoded replies come from `World`. An error body that claims to be JSON but does not parse is not modelled.
- `json.loads` of tool arguments: a call's arguments arrive already decoded, or as a decode failure with its exception text.
- Floating-point formatting of temperature, humidity and wind speed: the report line is built from the fields as text.
- Values of unexpected type: an error body whose `error` is `null` or not an object (where `.get` raises `AttributeError`) is treated as having no error object. Not modelled either: a `null` error `code`, a non-string `Abstract`, `Answer` or topic `Text` (which would make `join` raise), a tool call without `id` or `function.name`, and a message without a `content` key.
- The system prompt's wording and the tool schema literal are constants with no effect on control flow. `SystemPrompt` is an unspecified string. The schema is reduced to the `offersTools` flag, as are `tool_choice` and the fixed temperature 0.7.
- The debug flag and its `print` calls: they only gate logging.
- Search and weather answers are functions of the tool call's position and argument value. A reply depends only on that position and argument, not on `num_results`, the API key or earlier replies.
- No timeouts, retries or concurrency: the source has none.
- main.py, database.py, run.py and config.py (web routes, persistence, startup checks, environment reads) are not part of this model.
