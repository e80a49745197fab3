# Zappy Blog Engine orchestrator, modelled in Dafny

Zappy's page component drives a six-agent content pipeline for a keyword. The order is:

1. Researcher.
2. Writer.
3. Compliance, Enhancer and SEO, dispatched together.
4. Editor.

Each agent is one call of the generation service. The call gets the keyword and a text context that grows by one labelled section per finished stage. As the run goes, the page updates one `BlogState` record: `keyword`, `activeAgents`, `history`, `finalPost`, `isGenerating` and `error`. The first failure stops the run, and its message becomes `error`. `reset` restores the initial state. Each agent card shows its agent as active, completed or waiting.

The model has six modules:

- `Text` models `String.prototype.trim`, which the blank-keyword guard uses, and `toUpperCase`, which the feedback labels use.
- `Blog` holds the data:
  - the agent ids and the agent table;
  - the responses and the `BlogState` record;
  - the initial state;
  - the three card-status predicates.
- `Pipeline` is the reference definition of a run, `Expected`. It runs the ranks `[[Researcher], [Writer], [Compliance, Enhancer, SEO], [Editor]]` one at a time:
  - every call of a rank gets the same context and sees the same state;
  - a rank completes only if all its calls succeed, and its responses are then appended in rank order;
  - the first failing rank ends the run.

  The module also holds its induction lemmas:
  - a run ends with a post exactly when it has no error;
  - a successful history lists every rank's agents;
  - a failed run stops at one rank.
- `Stages` states in closed form what each stage of `Expected` gets and what it leads to: the exact context, the snapshot of the state, and the continuation or the error.
- `Properties` holds the promises about a whole run:
  - the history order on success;
  - where a failed run stops, and the all-or-nothing three-agent stage;
  - exactly one of post and error;
  - the card status while each call is in progress and after the run.
- `App` is the page's state as a class, `Orchestrator`:
  - `RunOrchestrator` follows the source step by step: trim guard, initial update, `try`, `catch`, `finally`;
  - the `try` body is split into one method per stage, with the `forEach` loop that builds the feedback context;
  - each method is proved against `Expected`.

The generation service is a parameter. It is a function from (agent, keyword, context) to `Ok(text)` or `Err(message)`. The ghost field `calls` records every call made: its arguments, and the state observers saw when the call was made. The contract of `RunOrchestrator` ties the calls, the final history, the post and the error to `Expected`.

## Model

| member | source | states |
|---|---|---|
| Text.TrimStart | App.tsx:32 | The result is the suffix left after dropping leading whitespace. Everything dropped is whitespace, and the result is empty or starts with a non-whitespace character. |
| Text.TrimEnd | App.tsx:32 | The result is the prefix left after dropping trailing whitespace. Everything dropped is whitespace, and the result is empty or ends with a non-whitespace character. |
| Text.TrimEmptyIffBlank | App.tsx:32 | `keyword.trim()` is empty exactly when every character of the keyword is ECMAScript whitespace or a line terminator. |
| Text.UpperChar | App.tsx:74 | A lower-case ASCII letter becomes the matching capital. Any other character is unchanged. |
| Text.Upper | App.tsx:74 | Same length as the input, and no lower-case ASCII letter remains. Each lower-case letter is replaced by its capital, and every other character is kept. |
| Blog.CompletedIffInIds | App.tsx:125 | An agent is completed exactly when some history entry carries its id. |
| Blog.InitialAllWaiting | App.tsx:14-21 | In the initial state every agent card shows waiting: no agent is active and the history is empty. |
| Pipeline.FindIndex | App.tsx:73 | `AGENTS.find` by id: the index of the first entry with that id, or the table length when there is none. Every earlier entry has another id. |
| Pipeline.ErrorText | App.tsx:83 | `err.message \|\| "System failure."`: never empty, equal to the message whenever the message is non-empty, and `"System failure."` when the message is empty or missing. |
| Pipeline.Failures | App.tsx:64-68 | The error texts a failed rank may report. The set is empty exactly when every call succeeded. It contains the text of every failed call, and every text in it is non-empty. |
| Pipeline.FailureHasCause | App.tsx:64-68 | Every error text the rank may report is the text of one of its failed calls. |
| Pipeline.RenderFeedback | App.tsx:72-75 | For the three-agent rank, the sections appended to the context are exactly the `[FEEDBACK FROM ...]` sections. |
| Pipeline.RunRanksSettles | App.tsx:46-86 | A run ends with a post exactly when it ends without an error, and every error text is non-empty. The history and the calls only grow. |
| Pipeline.RunRanksSuccess | App.tsx:46-80 | On success the history adds one response per agent, rank after rank. The calls add one call per agent in the same order. The post is the content of the last response. |
| Pipeline.RunRanksFailure | App.tsx:46-83 | On failure there is a rank k such that: the history adds exactly the agents of the ranks before k; the calls add exactly the agents of the ranks up to and including k, and none of a later rank. |
| Stages.ResearcherStage | App.tsx:47-51 | The Researcher is called first, on `""`, while it is the only active agent and the history is empty. A failure ends the run with that call only, no history and that error text. Success continues with `"\n\n[RESEARCH REPORT]\n"` + report as the context. |
| Stages.WriterStage | App.tsx:53-57 | The Writer is called on exactly the research section, while only the Researcher is completed. A failure ends the run with history `[research]`. Success continues with the draft section appended. |
| Stages.GroupRank | App.tsx:59-68 | The three-agent stage makes one call each for Compliance, Enhancer and SEO, in array order, all on the same keyword, context and state snapshot. `Promise.all` lists the replies in array order, not settle order. When all succeed, the responses carry those agents and the replies' texts in that order, and they render to exactly their feedback sections. |
| Stages.GroupRun | App.tsx:59-75 | From any context and history, the three agents are called on that one context with the same snapshot. If any fails, the history is unchanged and the error is one of the failed calls' texts. Otherwise their three responses, in array order, are appended and their feedback sections are added to the context. |
| Stages.GroupStage | App.tsx:59-75 | Compliance, Enhancer and SEO all get the research and draft sections, and none sees another's output. One failure leaves history `[research, draft]`, even if the other two succeeded. |
| Stages.EditorStage | App.tsx:72-80 | The Editor's context is the research and draft sections, then `"\n\n[FEEDBACK FROM " + upper(name) + "]\n"` + content for Compliance, Enhancer and SEO in that order. The name falls back to the id. The Editor's text becomes the last history entry and the post; its failure becomes the only error. |
| Properties.RunSettles | App.tsx:80-85 | Every run ends with exactly one of a post and an error, and the error is never empty. |
| Properties.SuccessfulRun | App.tsx:64-80 | On success the history is exactly Researcher, Writer, Compliance, Enhancer, SEO, Editor, with no agent twice. Every agent was called once, in that order. The post is the Editor's output. |
| Properties.FailedRun | App.tsx:46-83 | On failure there is no post. The history holds exactly the agents of the ranks before the failed one. No agent of a later rank was called. |
| Properties.AllOrNothing | App.tsx:64-71 | A failed run's history is `[]`, `[R]`, `[R, W]` or `[R, W, C, E, S]`, never part of the group. The Editor was called exactly when the whole group completed. |
| Properties.RunRanksInProgress | App.tsx:47-77 | If no agent repeats, every call is made while the run is generating, with its agent active and not yet completed. |
| Properties.CallsInProgress | App.tsx:47-77 | Every call of the pipeline is made while its agent's card shows active and not completed. |
| Properties.FinalStatus | App.tsx:124-126 | With no agent active, the cards showing waiting are exactly the agents without a response. After a successful run every card shows completed. |
| App.AppendFeedback | App.tsx:72-75 | The `forEach` loop appends the feedback section of each response to the context, in array order. |
| App.Orchestrator.constructor | App.tsx:14-21 | The page starts in the initial `BlogState` with no call made. |
| App.Orchestrator.Reset | App.tsx:96-98 | `reset` restores exactly the initial `BlogState`. |
| App.Orchestrator.Research | App.tsx:47-51 | The Researcher becomes the only active agent and is called on `""`. On success its report is the history and the new context. On failure the run's outcome is that error. |
| App.Orchestrator.Draft | App.tsx:53-57 | The Writer becomes the only active agent and is called on the context. On success the draft is appended to the history and the context. |
| App.Orchestrator.Review | App.tsx:59-75 | The three agents become active and are called on the same context. On failure the history is unchanged and the reported message is one of the failures. On success the responses are appended in array order and the feedback is added to the context. |
| App.Orchestrator.Edit | App.tsx:77-80 | The Editor becomes the only active agent and is called on the full context. On success its text is appended to the history and becomes `finalPost`. |
| App.Orchestrator.RunStages | App.tsx:44-81 | The `try` body starts from the fresh run state. It ends with the calls, history and post of `Expected`, and throws exactly when `Expected` fails, with a message whose error text `Expected` allows. |
| App.Orchestrator.RunOrchestrator | App.tsx:31-87 | A blank keyword makes no call and changes nothing. Otherwise the calls made, the history and the post are those of `Expected`, and `error` is set exactly when `Expected` failed, to one of its error texts. Afterwards `isGenerating` is false, `activeAgents` is empty and exactly one of `finalPost` and `error` is set. |

## Left out

- Rendering, styling, the scroll effect (App.tsx:25-29) and the form handler (App.tsx:89-94) are UI and are not modelled.
- The progress percentage (App.tsx:138-141) uses floating-point division and `Math.round`, and is not modelled.
- `Date.now()` timestamps are not modelled. `AgentResponse` keeps only the agent id and the content.
- The body of `geminiService.runAgentTask` is not part of this model. It is the `service` parameter: a function of (agent, keyword, context), so two identical calls get the same answer.
- The `AGENTS` table and the string values of `AgentId` come from `./types`, which is not part of this model. They are the `Registry` parameter.
- Real concurrency in `Promise.all` is not modelled:
  - the three calls are made in array order, and all three are made even when one fails;
  - when several fail, which failure settles first is not modelled, so the reported message is any one of the failed calls' messages;
  - overlapping runs and completions from a superseded run are left out, as the code has no guard for them.
- React's batching of `setState` is not modelled. Each functional `setState` is an immediate update of the `state` field.
- `calls` is a ghost log that `RunOrchestrator` extends once, when the run ends. Each entry carries the state as it was when the call was made, so the order and the snapshots are kept. Interleaving with other code that reads `calls` during a run is not represented.
- Three source expressions are written as appends to the current history: `[researchResponse, draftResponse]` (App.tsx:57), `[researchResponse, draftResponse, ...parallelResults]` (App.tsx:70) and `[...updatedHistory, finalResponse]` (App.tsx:80). The stage contracts prove that the history holds exactly those responses at that point.
- `finalPost` holding an empty string counts as set, as `null` is the only unset value in the source. The UI's truthiness checks on it are not modelled.
- Text.Upper: models `toUpperCase` for the ASCII letters only. Other characters are kept as they are. Locale- and Unicode-specific case mappings such as `ß` to `SS` are not modelled.
- Text.UpperChar: models upper-casing for the ASCII letters `a`-`z` only. Every other character, such as `é`, is returned unchanged.
- Text.IsWhitespace: strings are sequences of Unicode scalar values, not UTF-16 code units. The whitespace set is the ECMAScript WhiteSpace and LineTerminator code points, with the Space_Separator category listed out.
