# Writing agent: project transformation layer

This project models the server side of an AI writing assistant. Each chat turn
hands a `WritingAgent` the user's message and the whole project document (a
JSON dict holding `plan`, `edit`, `chatHistory`, `currentPhase`, `title`,
`content` and other keys). The agent then:

- picks the writing phase (`plan_organize`, `write` or `edit_revise`);
- turns the project's chat log into language-model messages;
- renders the project as context, either as JSON without its chat log or as a
  line-per-field summary;
- runs the language-model agent of that phase;
- applies the agent's `add_idea` and `add_comment` tool calls to a copy of the
  project;
- appends the user's message and the reply to the chat log.

Any exception becomes an apology that carries the exception's text, and the
project is handed back as it came.

The project document is modelled as Python sees it after `json.loads`:
`PyJson.Json` covers None, bool, int, str, list and dict, and a project is a
`map<string, Json>`. The code performs Python operations on values whose shape
it does not check (`x.get`, `k in v`, `len(v)`, `v.append`, `", ".join(v)`).
On a value of the wrong shape those operations raise, and the model carries
each such exception as a `Faults.Fault` inside a `Result`. The language-model
agent, `json.dumps` and Python's `repr` of a list or dict are fields of
`Chat.Runtime`. The model fixes nothing about them.

Modules:
- `PyJson`: JSON values, truthiness, type names, `str()`, `str.join`.
- `Faults`: the exceptions and the `Result` type.
- `Phases`: `_get_current_phase`.
- `History`: `_extract_chat_history`.
- `Context`: `_create_project_context` and `_create_full_project_context`.
- `Tools`: the two tools and the steps the executor reports.
- `ToolCalls`: `_apply_tool_calls_to_project`.
- `Chat`: `process_chat_message`.

Some operations loop and update variables. Each of these is a method proved
equal to a specification function:
- `History.ExtractChatHistory` is proved equal to `History.ChatMessages`.
- `ToolCalls.ApplyToolCalls` is proved equal to `ToolCalls.ToolCallsApplied`.
- `ToolCalls.AppendRecord` is proved equal to `ToolCalls.Append`.
- `Chat.ProcessChatMessage` is proved against `Chat.Turn`.

The properties are lemmas about those functions.

## Model

| member | source | states |
|---|---|---|
| `Tools.IdeaObservation` | api/agent.py:29-31 | the observation is "Added idea: " followed by the idea verbatim |
| `Tools.CommentObservation` | api/agent.py:40-42 | the observation is "Added comment: " followed by the comment text; the content is not echoed |
| `Phases.ParsePhase` | api/agent.py:168-169 | a key names a phase exactly when it is that phase's key |
| `Phases.CurrentPhase` | api/agent.py:162-171 | the stored `currentPhase` when it is a phase key; `plan_organize` when it is absent or anything else; a list or dict raises as unhashable |
| `History.Converted` | api/agent.py:154-158 | a `user` entry gives one human message and an `assistant` entry one AI message, with content `""` when missing; other dicts give nothing; a non-dict raises on `get` |
| `History.ChatMessages` | api/agent.py:148-160 | an absent or false chat log gives `[]`; a list is converted entry by entry; a true non-list raises |
| `History.ExtractChatHistory` | api/agent.py:148-160 | the loop returns exactly `ChatMessages(project)` |
| `History.ChatMessagesConcat` | api/agent.py:154-158 | converting `a + b` converts `a` then `b` and concatenates, so message order follows entry order |
| `History.ChatMessagesSucceedIff` | api/agent.py:154-158 | the conversion raises exactly when some entry is not a dict |
| `History.ChatMessagesCount` | api/agent.py:154-158 | one message per entry whose role is `user` or `assistant`, none for other entries |
| `Context.Truncated` | api/agent.py:196-200 | content of at most 1000 characters is kept verbatim; longer content becomes its first 1000 characters plus "..." |
| `Context.IdeaTexts` | api/agent.py:189 | `", ".join` succeeds exactly on an all-str list, and otherwise raises on the first non-str item, naming its index and type |
| `Context.IdeasLines` | api/agent.py:185-189 | the ideas line appears exactly when `brainstormIdeas` is a non-empty list of str, and then it holds them joined by ", " |
| `Context.ContentLines` | api/agent.py:195-201 | no line for absent or false content; str content appears truncated |
| `Context.SummaryEndsWithPhase` | api/agent.py:203-207 | the summary raises only where its ideas line, content line or phase lookup raises; otherwise it ends with "Current Phase: " and the phase's title, so it is never "No additional context available." |
| `Context.ContextCopy` | api/agent.py:213-216 | the serialised copy has no `chatHistory` and keeps every other top-level entry |
| `Context.FullProjectContext` | api/agent.py:209-224 | the JSON of the copy under its header; the summary of the original project when serialisation fails |
| `ToolCalls.Requested` | api/agent.py:232-259 | only pairs naming `add_idea` or `add_comment` ask for anything; an idea must be true; a comment needs true `content` and true `comment_text`; a non-dict `tool_input` raises |
| `ToolCalls.Append` | api/agent.py:240-273 | succeeds exactly when the container and list are absent or of the right shape; appends one record numbered after the list's length; leaves every other top-level key and every other container key unchanged |
| `ToolCalls.AppendRecord` | api/agent.py:240-273 | the loop body's append, statement by statement on the working copy, computes exactly `Append` |
| `ToolCalls.ApplyStep` | api/agent.py:233-273 | a step that asks for nothing leaves the project unchanged; otherwise it appends, or raises when its arguments are not a dict |
| `ToolCalls.ToolCallsApplied` | api/agent.py:226-231 | a result without `intermediate_steps`, or with none, leaves the project exactly as it was |
| `ToolCalls.ApplyToolCalls` | api/agent.py:226-275 | the loop over the steps computes exactly `ToolCallsApplied` |
| `ToolCalls.ApplyStepsFailurePersists` | api/agent.py:232-273 | once one step raises, the walk ends with that exception |
| `ToolCalls.ApplyStepsKeepsOtherKeys` | api/agent.py:228-275 | no top-level entry other than `plan` and `edit` is added, removed or changed |
| `ToolCalls.ApplyStepRecords` | api/agent.py:237-273 | one step appends a record to a kind's list exactly when it asks for an addition of that kind, numbered after the list's length, and leaves that list alone otherwise |
| `ToolCalls.ApplyStepsAppendsInOrder` | api/agent.py:232-273 | `plan.ideas` (`edit.suggestions`) becomes the old list followed by one record per idea (comment) requested, in step order, with ids `ai_idea_<n+1>`, `ai_idea_<n+2>`, and so on (`ai_comment_...` for comments) |
| `ToolCalls.ApplyStepsKeepsContainerFields` | api/agent.py:240-273 | the walk changes no entry of `plan` (`edit`) other than its `ideas` (`suggestions`) list |
| `ToolCalls.NewRecordIdsDistinct` | api/agent.py:247-268 | the records appended in one walk have pairwise distinct ids |
| `ToolCalls.ApplyStepsSucceeds` | api/agent.py:237-273 | with `plan.ideas` and `edit.suggestions` lists or absent, and every tool call's arguments a dict, applying the steps never raises |
| `ToolCalls.NewRecordIdsFresh` | api/agent.py:247-253 | appending numbered records keeps a list's ids unique when they were unique and no record already holds an id numbered past the list's length |
| `ToolCalls.ApplyStepsIdsFresh` | api/agent.py:232-273 | under the same condition on the old `plan.ideas` (`edit.suggestions`), the list after the walk has unique ids |
| `ToolCalls.DuplicateIdAfterRemoval` | api/agent.py:247-253 | from `plan.ideas` holding only `ai_idea_2`, one `add_idea` call yields a list with two records whose id is `ai_idea_2` |
| `PyJson.NatToStringRoundTrip` | api/agent.py:248 | the decimal count written into an id reads back as the same number |
| `Chat.Reply` | api/agent.py:304 | the agent's `output` when present, otherwise "I'm sorry, I couldn't process your request." |
| `Chat.ProcessChatMessage` | api/agent.py:277-329 | a successful turn returns `Turn`'s reply and project; on any exception it returns "I encountered an error while processing your request: " plus the exception's text, and the input project |
| `Chat.TurnAppendsExchange` | api/agent.py:298-325 | a successful turn ran the agent and replied with its output or the apology; the chat log is the prior log (or `[]`) followed by exactly the user entry and then the assistant entry; only `plan`, `edit` and `chatHistory` change; `plan.ideas` and `edit.suggestions` gain exactly the records the agent's steps asked for, in order, and no other entry of `plan` or `edit` changes |
| `Chat.TurnSucceeds` | api/agent.py:279-325 | for a project of the expected shape whose `json.dumps` succeeds, the agent is always reached, and the turn then fails only when the agent raises or a tool call's arguments are not a dict |

## Left out

- Constructing and calling the language model (`ChatOpenAI`, `_create_agent`, `AgentExecutor`, `agent.invoke`): these are foreign library and network calls. The agent of each phase is `Chat.Runtime.invoke`, an arbitrary function of the phase, the input text and the chat messages.
- The executor is built without `return_intermediate_steps` (api/agent.py:146), and LangChain's default then leaves `intermediate_steps` out of the result. The model takes the result's steps as an arbitrary `Option`, so both cases are covered.
- The system-prompt texts (api/agent.py:60-129): constant prose. Only their keys matter, as `Phases.Phase.Key`.
- `json.dumps` (api/agent.py:220): a foreign serialiser, modelled as `Runtime.dumps`, which may fail (`None`).
- Python's `repr` of a list or dict, used when such a value is formatted into a summary line: `Runtime.repr`.
- Floating-point JSON numbers, and the insertion order of dict keys: a dict is a `map`.
- The validation that LangChain's `HumanMessage`/`AIMessage` apply to message content: a log entry's content is carried through as any JSON value.
- `Faults.Message`: exception texts follow CPython 3.12's wording. Other Python versions word some of them differently. On 3.11 and earlier, slicing a dict raises `TypeError: unhashable type: 'slice'` rather than a `KeyError`.
- `ToolCalls.NewRecordIdsDistinct`: new ids are distinct only from one another. Each new id is numbered from the list's current length (api/agent.py:248, 268), so it can repeat the id of a record already there once an earlier record has been removed. `ToolCalls.DuplicateIdAfterRemoval` exhibits such a case. `ToolCalls.ApplyStepsIdsFresh` states the condition under which ids stay unique. The model keeps the numbering the code uses.
- `project.copy()` is shallow (api/agent.py:214, 228). In-place appends to `plan.ideas`, `edit.suggestions` and `chatHistory` are therefore also visible through the caller's dict, including on the error path. The model works on values and returns the input project unchanged on error.
- api/app.py: HTTP routing, CORS, environment loading and debug printing. Its guards at api/app.py:67-87 reject only a false body, a false `userInput` and a false `currentProject`.
- `Chat.ProcessChatMessage` takes the project as a dict and `userInput` as a str. `process_chat_message` itself accepts any value for either; only the route's callers are restricted, as follows.
  - A true project that is not a dict never reaches the agent: the debug print at api/app.py:98 calls `project.keys()` first, which raises, and the route answers with an internal error. Called directly, such a project takes the error path of `process_chat_message` on its first `in` test or `get`. That path is not modelled.
  - A true `userInput` that is a bool or an int raises in the `len` of the debug print at api/app.py:76. A non-empty list or dict passes every guard. It is formatted with `str()` into the agent's input and stored as-is as the content of the user's chat entry. The model covers only a str `userInput`.
