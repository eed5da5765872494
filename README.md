# MediGenius fallback orchestrator, in Dafny

MediGenius answers a medical question in a fixed order. It asks the LLM directly first.
When that answer is blank, it searches its own document index, then Wikipedia, then
DuckDuckGo, and stops at the first source that gives something. A final `generate` step
then writes the answer. All of this runs as a LangGraph state machine
(`MedicalWorkflow`) over one shared conversation state (`AgentState`, kept by
`StateManager`). Every host (the console loop, the Streamlit page, the HTTP endpoint) runs
a turn the same way:

1. clear the per-turn keys;
2. run the graph on the stored state;
3. merge the result back.

The model has these parts:

- `outcomes.dfy`: `Option`, and `Outcome` (`Ok(value)` or `Fail`) for a service call
  that returns or raises.
- `text.dfy`: Python's `str.strip()` (with the exact set of characters `str.isspace()`
  accepts), `str.join`, and the `xs[-3:]` slice.
- `state_management.dfy`: `AgentState` as a record, and a partial update `Update` with one
  `Option` per key. `Merge` is `dict.update`, proved equal to map override on a dict view
  of the state. `StateManager` is a class with one mutable field per key, and its methods
  are proved against `Merge`, `ResetHistory` and `InitialState`.
- `workflow.dfy`: the source tags, the nodes, the five node functions, the three routers,
  and the imperative graph construction (`StateGraph`, `MedicalWorkflow.BuildWorkflow`).
  The compiled run is the function `RunFrom`/`Invoke`. `InvokeGraph` is the loop that
  runs it one node at a time and is proved equal to `Invoke`.
- `workflow_properties.dfy`: what one run does. This covers the path it takes, which
  answer and source it ends with, the attempted flags and search query it leaves, and
  how much history it adds. It is proved by writing the fallback chain out as
  `Gather` and showing the graph runs exactly `Gather` and then `generate`.
- `session.dfy`: the hosts' turn protocol. `AskQuestion` runs it on a `StateManager`.
  The lemmas say what carries over from one turn to the next.
- `scenarios.dfy`: four concrete turns about a headache.

The external services are parameters. `Oracles` holds one function per call site:

- the first LLM call;
- the vector-store search;
- Wikipedia;
- DuckDuckGo;
- the grounded LLM call.

Each function maps the request it gets (prompt, query or question) to `Ok(value)`, or to
`Fail` when the call raises. Logging is left out. The prompt keeps only its three slots,
not the prose of the template.

Some consequences of the code that are easy to miss:

- Only an LLM reply that strips to `""` falls through to retrieval. A failed LLM call
  leaves a non-empty apology, so the turn ends with that apology and source
  `llm_knowledge`. A search never follows a failed LLM call.
- A successful document search sets the source to `documents` and logs "Searching medical
  documents..." even when it returns no passages. A failed one leaves the source alone.
- Wikipedia and DuckDuckGo set the source either way. They set their attempted flag only
  on success. A success always gives a one-element document list, so a Wikipedia success
  always ends the search.
- The answer is not always non-empty. When the documents are found but the grounded reply
  is only whitespace, the answer is `""` (`TurnAnswer` gives the exact condition). Every
  turn still ends with one of the five source tags.
- In a real turn the document search never gets the bare question. `query_llm` has just
  appended the question and the empty answer to the history, so the query always has the
  `Context:` prefix (`DocsQueryCarriesHistory`).

## Model

| member | source | states |
|---|---|---|
| Text.Strip | modules/workflow.py:74 | the result has no leading or trailing whitespace; it is empty exactly when the input is all whitespace; an already stripped string is unchanged; it is the slice of the input left once whitespace alone is cut from both ends |
| Text.Join | modules/workflow.py:62 | the joined string is empty exactly when there is nothing to join or every piece is empty (only one piece, for a non-empty separator) |
| Text.LastThree | modules/workflow.py:173 | the last three elements, or all of them when there are fewer |
| StateManagement.Merge | modules/state_management.py:56-68 | `self.state.update(new_state)` on the record; it has no contract of its own, and `MergeGet` and `MergeIsDictUpdate` state what it does |
| StateManagement.MergeGet | modules/state_management.py:67 | every key present in the update takes the update's value, and every other key keeps the stored one |
| StateManagement.MergeIsDictUpdate | modules/state_management.py:67 | seen as a map from keys to values, the merged state is the old map overridden by the update's entries |
| StateManagement.MergeNoUpdate | modules/state_management.py:67 | an empty update changes nothing |
| StateManagement.MergeIdempotent | modules/state_management.py:67 | applying the same update twice gives what applying it once gives |
| StateManagement.MergeOverwrite | modules/state_management.py:67 | an update that holds every key replaces the whole state |
| StateManagement.ResetHistory | modules/state_management.py:76 | the history becomes empty and every other key keeps its value |
| StateManagement.ResetIdempotent | modules/state_management.py:70-76 | resetting twice gives the same state as resetting once |
| StateManagement.InitialState | modules/state_management.py:36-54 | the state `_initialize_state` returns; it has no contract of its own, and `StateManager.constructor` ensures the manager starts from it |
| StateManagement.StateManager.constructor | modules/state_management.py:30-54 | a new manager holds empty strings and lists, no search query and four false attempted flags |
| StateManagement.StateManager.UpdateState | modules/state_management.py:56-68 | the stored state becomes the merge of the old state and the update, and that state is returned |
| StateManagement.StateManager.ResetConversation | modules/state_management.py:70-76 | the stored state becomes the old one with an empty history |
| StateManagement.StateManager.GetState | modules/state_management.py:78-85 | returns the stored state and changes nothing |
| Workflow.DoctorPrompt | modules/workflow.py:16-30 | the template's three slots under their headings; no contract of its own, it is the request every LLM oracle receives |
| Workflow.LlmPrompt | modules/workflow.py:62-63 | the first prompt: the history joined by newlines, the question, no content; no contract of its own, `QueryLlm` and the turn lemmas are stated over the reply to it |
| Workflow.GroundedPrompt | modules/workflow.py:172-173 | the second prompt: the last three history lines joined with nothing between them, the question, the passages joined by newlines; no contract of its own, `GroundedAnswer` is stated over the reply to it |
| Workflow.RetrievalQuery | modules/workflow.py:90-94 | the query is the question alone when there is no history; when some history entry is non-empty, it is "Context: " + the history joined by newlines + "\nQuestion: " + the question |
| Workflow.Contents | modules/workflow.py:172 | the text of each passage, in order |
| Workflow.QueryLlm | modules/workflow.py:60-86 | the source is `llm_knowledge` and the LLM flag is set. A reply's answer is the reply stripped. The answer is empty exactly when the reply was only whitespace. A failed call gives the apology and leaves the history as it was. A reply adds "User: q" and "Doctor: answer" |
| Workflow.RetrieveDocs | modules/workflow.py:88-111 | on success sets the passages, the flag, the query, the source `documents` and a "Searching" line. On failure sets no documents, the flag and a "failed" line, and leaves the source and the query alone |
| Workflow.RetrieveWiki | modules/workflow.py:113-129 | the source becomes `wikipedia` either way. The documents are non-empty exactly when the call succeeded, and then they are one document holding its text. Only a success sets the flag. The history line tells which happened |
| Workflow.RetrieveDuckDuckGo | modules/workflow.py:131-147 | the same as the Wikipedia node, with the `duckduckgo` tag and the web search |
| Workflow.QueryLlmWrites | modules/workflow.py:73-86 | the LLM node writes exactly the answer, the source, the LLM flag and the history, whether the call succeeds or not |
| Workflow.RetrieveDocsWrites | modules/workflow.py:98-111 | the document node writes the documents, its flag and the history; the query and the source only when the search succeeds |
| Workflow.RetrieveWikiWrites | modules/workflow.py:117-129 | the Wikipedia node writes the documents, the source and the history; its flag only when the call succeeds |
| Workflow.RetrieveDuckDuckGoWrites | modules/workflow.py:135-147 | the DuckDuckGo node writes the documents, the source and the history; its flag only when the call succeeds |
| Workflow.GroundedAnswerWrites | modules/workflow.py:177-193 | every answer `generate` builds writes exactly the answer, the source and the history |
| Workflow.GenerateResponse | modules/workflow.py:164-169 | with source `llm_knowledge` the merged state is the state as it was; otherwise the update is the grounded answer |
| Workflow.GroundedAnswer | modules/workflow.py:170-194 | with no documents it gives the fixed "couldn't find" answer with source `none`. A failed call gives the fixed error answer with source `none`. A reply gives the reply stripped, which is empty exactly when the reply was whitespace, keeps the source and logs the answer |
| Workflow.StateGraph.constructor | modules/workflow.py:36 | a new graph has no nodes, no entry point and no edges |
| Workflow.StateGraph.AddNode | modules/workflow.py:40-44 | adds the node and changes nothing else |
| Workflow.StateGraph.SetEntryPoint | modules/workflow.py:46 | sets the entry point and changes nothing else |
| Workflow.StateGraph.AddConditionalEdges | modules/workflow.py:48-56 | gives the node a routed edge with the listed targets and changes nothing else |
| Workflow.StateGraph.AddEdge | modules/workflow.py:57-58 | gives the node a fixed edge and changes nothing else |
| Workflow.MedicalWorkflow.constructor | modules/workflow.py:32-37 | the new workflow owns a fresh graph holding exactly the five nodes, the entry `llm_query` and each node's edge |
| Workflow.MedicalWorkflow.BuildWorkflow | modules/workflow.py:39-58 | adds the five nodes, sets the entry to `llm_query`, and gives each node its edge; edges of other nodes are kept |
| Workflow.EdgesMoveForward | modules/workflow.py:48-58 | every edge leads further along llm, rag, wiki, ddg, generate, END; only `generate` leads to END |
| Workflow.RouteAfterLlm | modules/workflow.py:149-152 | the route is one of the two targets the edge declares, and it is `generate` exactly when the state holds a non-empty answer |
| Workflow.RouteAfterRag | modules/workflow.py:154-157 | the route is one of the two declared targets, and it is `generate` exactly when documents were found |
| Workflow.RouteAfterWiki | modules/workflow.py:159-162 | the route is one of the two declared targets, and it is `generate` exactly when documents were found |
| Workflow.EdgeOf | modules/workflow.py:48-58 | the edge each node is given; no contract of its own, `EdgesMoveForward` states that every edge leads further along the chain and `BuildWorkflow` that these are the edges built |
| Workflow.Successor | modules/workflow.py:149-162 | the routed node is one of the edge's targets and lies further along the chain |
| Workflow.RunFrom | modules/workflow.py:196-198 | the compiled graph from one node on; no contract of its own, `RunFromTrace`, `RunFromExtendsHistory` and `InvokeIsGatherThenGenerate` state what it does |
| Workflow.Invoke | main.py:67 | `app.invoke(state)`; no contract of its own, `InvokeIsGatherThenGenerate`, `TurnPath` and the turn lemmas state what it does |
| Workflow.StepNode | main.py:67 | one step of the compiled graph is the node's update merged into the state, followed by the node its edge chooses on the merged state, which lies further along the chain |
| Workflow.InvokeGraph | main.py:67 | running the graph one node at a time, merging each update before choosing the edge, gives the final state and the nodes run of `Invoke` |
| WorkflowProperties.RunFromTrace | modules/workflow.py:46-58 | a run from any node starts at it, ends with `generate`, and visits nodes strictly further along the chain |
| WorkflowProperties.TurnTrace | modules/workflow.py:46-58 | a turn starts at `llm_query`, ends at `generate`, never runs END and runs no node twice |
| WorkflowProperties.NodeExtendsHistory | modules/workflow.py:68-193 | every node keeps the history it got as a prefix and adds at most two entries |
| WorkflowProperties.RunFromExtendsHistory | modules/workflow.py:68-193 | over a run the old history stays a prefix, and at most two entries are added per node run |
| WorkflowProperties.InvokeIsGatherThenGenerate | modules/workflow.py:48-58 | the graph runs exactly the fallback chain, stopping at the first source that gives something, then `generate` |
| WorkflowProperties.GatherPath | modules/workflow.py:149-162 | the sources tried before `generate`, by what each service answers |
| WorkflowProperties.TurnPath | modules/workflow.py:149-162 | a non-blank or failed LLM answer ends the turn. Otherwise documents found end it after the search. Otherwise a Wikipedia success ends it. Otherwise DuckDuckGo runs once, whatever it gives |
| WorkflowProperties.LlmAnswerEndsTurn | modules/workflow.py:73-86 | with a non-blank or failed LLM answer no retrieval runs and `generate` changes nothing. The turn ends with source `llm_knowledge`, the reply or the apology, and the history accordingly. Documents, query and the other flags are untouched |
| WorkflowProperties.GatheredDocuments | modules/workflow.py:98-147 | after a blank LLM answer, `generate` gets the first non-empty result among the document search, Wikipedia and DuckDuckGo, with that source's tag. When nothing was found the source is DuckDuckGo's. It is never the LLM's |
| WorkflowProperties.GatheredFlags | modules/workflow.py:98-147 | the search always sets the document flag. The Wikipedia and DuckDuckGo flags are set only by a success of a source that was reached. The search query is set only by a successful document search |
| WorkflowProperties.GatheredSearchQuery | modules/workflow.py:101 | after the search the stored query is this turn's document query exactly when the document search succeeded, and the earlier one otherwise |
| WorkflowProperties.DocsQueryCarriesHistory | modules/workflow.py:88-94 | in a turn the document query is always the history, with the question and the empty answer just added, followed by the question |
| WorkflowProperties.TagsDiffer | modules/workflow.py:9-14 | the five source tags are different strings |
| WorkflowProperties.SearchThenGrounded | modules/workflow.py:102-168 | after a search the source is a retrieval tag, so `generate` takes the grounded path and the turn ends with its answer merged in |
| WorkflowProperties.SearchAnswer | modules/workflow.py:171-194 | after a search: nothing found gives the "couldn't find" answer with source `none`. A failed grounded call gives the error answer with source `none`. A reply gives its stripped text and the finding source |
| WorkflowProperties.SearchKeepsDocuments | modules/workflow.py:177-193 | `generate` leaves the gathered documents as they are |
| WorkflowProperties.TurnSource | modules/workflow.py:164-194 | the final source is always one of the five tags. It is `llm_knowledge` exactly when the LLM answer was not blank, and `none` exactly when the search found nothing or the grounded call failed |
| WorkflowProperties.TurnAnswer | modules/workflow.py:164-194 | each fixed answer with source `none` has exactly one cause: nothing found, or a failed grounded call. An empty answer comes exactly from a whitespace grounded reply after a successful search |
| WorkflowProperties.GeneratedKeepsBookkeeping | modules/workflow.py:177-193 | after a search `generate` leaves the question, the attempted flags and the search query as the search left them |
| WorkflowProperties.TurnBookkeeping | modules/workflow.py:73-147 | the question stays and the LLM flag is set. The document flag is set by any search; the Wikipedia and DuckDuckGo flags only by a success of a reached source. The query is set only by a successful document search. Everything else keeps the earlier value |
| WorkflowProperties.GatheredHistory | modules/workflow.py:98-146 | the search adds one history line per source tried, after the two LLM lines |
| WorkflowProperties.SearchTurnHistory | modules/workflow.py:177-193 | after a search the answer adds one more history line |
| WorkflowProperties.TurnHistory | modules/workflow.py:60-194 | a turn keeps the old history as a prefix. It adds nothing after a failed LLM call and two lines after an LLM answer. Otherwise it adds one line per node run plus one |
| Session.TurnReset | main.py:59-64 | the update a host makes before a turn; no contract of its own, `TurnStartClears` states its effect |
| Session.TurnStart | main.py:59-67 | the state the graph is invoked on; `TurnStartClears` states it |
| Session.AfterTurn | main.py:59-68 | the state after a whole turn; `AskQuestion` ensures the manager holds it, and `TurnCarriesOver` and `HistoryGrowsAcrossTurns` state what it keeps |
| Session.AskQuestion | main.py:59-72 | the manager ends up holding the state after the turn started from the old state with the per-turn keys cleared, and the answer given is that state's answer stripped |
| Session.TurnStartClears | main.py:59-64 | the workflow starts from the new question, no documents, empty answer and source, and everything else from before |
| Session.NoCarryOverOfAnswer | app.py:86-94 | states that differ only in documents, answer or source give the same next turn |
| Session.HistoryGrowsAcrossTurns | FastAPI.py:45-54 | without a reset, the history before a turn is a prefix of the history after it |
| Session.TurnCarriesOver | FastAPI.py:45-54 | a turn keeps the asked question and ends with a source tag. Attempted flags once set stay set. The search query is the earlier one or this turn's document query |
| Scenarios.LlmAnswersHeadache | modules/workflow.py:73-78 | when the model replies to the turn's prompt with stripped text, that reply is the answer, from `llm_knowledge`, with no search and the question and answer logged |
| Scenarios.LlmFailureGivesApology | modules/workflow.py:79-86 | a failed LLM call gives the apology from `llm_knowledge` with no search and no history change |
| Scenarios.DocumentsAnswerHeadache | modules/workflow.py:98-104 | a blank reply and one found passage give the grounded answer from `documents` with that passage, and neither Wikipedia nor DuckDuckGo is asked |
| Scenarios.NothingFoundForHeadache | modules/workflow.py:183-187 | an empty index and failing Wikipedia and DuckDuckGo give the "couldn't find" answer with source `none` after all four sources were tried |

## Left out

- The service clients (`modules/retrieval_tools.py`, `modules/llm_models.py`, `tools/llm_client.py`) are not part of this model. They are network calls, so each one is a parameter function from its request to `Ok` or `Fail`. The same LLM called twice in one turn is two independent functions.
- The same request in two different turns gets the same service result. The model does not capture the services changing their answers over time.
- Document loading and chunking (`modules/document_processing.py`) are library code. A passage is reduced to its text.
- The text of the prompt template (modules/workflow.py:16-30) is left out. `DoctorPrompt` keeps its three slots under their headings, without the surrounding prose and indentation.
- LangGraph's own checks when it compiles the graph, and its other features, are not modelled. The run is the behaviour the graph declares: run a node, merge its update, follow its edge.
- `StateGraph` records one outgoing edge per node. The graph built here never gives a node two edges.
- Logging, the hosts' user interface, their own transcript lists, and FastAPI's process-wide shared state and its concurrency are not modelled. The hosts' `exit` and reset endpoints are `StateManager.ResetConversation`.
- The console host strips the question it reads (main.py:49). The model takes the question as given.
- UpdateState, GetState: `update_state` and `get_state` return the live `self.state` dict (modules/state_management.py:68, 85), so a caller that keeps it sees later changes and can make them. The model returns an `AgentState` value, so that aliasing is not captured. The hosts ignore what `update_state` returns and hand what `get_state` returns straight to the graph.
- Update: `update_state` accepts any dict (modules/state_management.py:56). An `Update` holds only the ten declared keys, so a dict with other keys is not modelled; every caller passes declared keys only.
