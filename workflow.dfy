/** The fallback workflow of one turn: the LLM first, then the document index, Wikipedia
    and DuckDuckGo, stopping at the first that gives something, then a final answer. Each
    node reads the state and returns a partial update; the graph merges it and follows
    the node's edge. */
module Workflow {
  import opened Outcomes
  import opened Text
  import opened StateManagement

  /** Where an answer came from. The state stores the tag string. */
  datatype Source = LLM | RAG | WIKI | DDG | NONE
  {
    function Value(): string
    {
      match this
      case LLM => "llm_knowledge"
      case RAG => "documents"
      case WIKI => "wikipedia"
      case DDG => "duckduckgo"
      case NONE => "none"
    }
  }

  /** The tags of the five sources. */
  const SourceTags: set<string> :=
    {LLM.Value(), RAG.Value(), WIKI.Value(), DDG.Value(), NONE.Value()}

  /** The nodes of the graph, and END. */
  datatype Node = LlmQuery | RagQuery | WikiQuery | DdgQuery | Generate | End

  /** Position along llm_query, rag_query, wiki_query, ddg_query, generate, END. */
  function Rank(n: Node): nat
  {
    match n
    case LlmQuery => 0
    case RagQuery => 1
    case WikiQuery => 2
    case DdgQuery => 3
    case Generate => 4
    case End => 5
  }

  /** The services one turn calls, each a function from its request to what it gives back.
      `llm` answers the prompt of `query_llm`, `grounded` the prompt of `generate_response`:
      the same chat model called a second time, which need not answer alike. `documents`
      is the vector-store search, `wikipedia` and `web` give the text of one document. */
  datatype Oracles = Oracles(
    llm: string -> Outcome<string>,
    documents: string -> Outcome<seq<Doc>>,
    wikipedia: string -> Outcome<string>,
    web: string -> Outcome<string>,
    grounded: string -> Outcome<string>)

  /** A model answer that is only whitespace, hence empty once stripped. */
  predicate IsBlank(out: Outcome<string>)
  {
    out.Ok? && AllSpace(out.value)
  }

  // ---------------------------------------------------------------------------
  // Requests

  /** `PromptBuilder.doctor_prompt`: the template's three slots under their headings. */
  function DoctorPrompt(context: string, question: string, content: string): string
  {
    "Context:\n" + context + "\nQuestion:\n" + question + "\nMedical Info:\n" + content
  }

  /** The prompt of `query_llm`: the whole history, one entry per line, and the question. */
  function LlmPrompt(s: AgentState): string
  {
    DoctorPrompt(Join("\n", s.conversationHistory), s.question, "")
  }

  /** The query `_retrieve_docs` sends: the question alone when the joined history is
      empty, otherwise prefixed by the history. */
  function RetrievalQuery(s: AgentState): (q: string)
    ensures s.conversationHistory == [] ==> q == s.question
    ensures (exists k :: 0 <= k < |s.conversationHistory| && s.conversationHistory[k] != [])
            ==> q == "Context: " + Join("\n", s.conversationHistory) + "\nQuestion: " + s.question
  {
    var context := Join("\n", s.conversationHistory);
    if context != "" then "Context: " + context + "\nQuestion: " + s.question else s.question
  }

  /** The text of each passage. */
  function Contents(docs: seq<Doc>): (r: seq<string>)
    ensures |r| == |docs| && forall i :: 0 <= i < |docs| ==> r[i] == docs[i].content
  {
    seq(|docs|, i requires 0 <= i < |docs| => docs[i].content)
  }

  /** The prompt of `generate_response`: the last three history entries run together, the
      question, and the passages one per line. */
  function GroundedPrompt(s: AgentState): string
  {
    DoctorPrompt(Join("", LastThree(s.conversationHistory)), s.question,
                 Join("\n", Contents(s.documents)))
  }

  // ---------------------------------------------------------------------------
  // Nodes: each returns the keys it sets.

  const LlmErrorAnswer := "Sorry, I encountered an error generating the response."

  /** `query_llm`: asks the model directly. The source is always the LLM, and the answer
      is the reply stripped, empty only when the model answered with whitespace; a failed call leaves the
      non-empty apology and the history as it was. */
  function QueryLlm(s: AgentState, o: Oracles): (u: Update)
    ensures u.source == Some(LLM.Value()) && u.llmAttempted == Some(true)
    ensures u.generation.Some? && u.conversationHistory.Some?
    ensures u.generation.value == "" <==> IsBlank(o.llm(LlmPrompt(s)))
    ensures o.llm(LlmPrompt(s)).Fail? ==>
      u.generation.value == LlmErrorAnswer && u.conversationHistory.value == s.conversationHistory
    ensures o.llm(LlmPrompt(s)).Ok? ==>
      u.generation == Some(Strip(o.llm(LlmPrompt(s)).value))
      && u.conversationHistory.value
        == s.conversationHistory + ["User: " + s.question, "Doctor: " + u.generation.value]
  {
    match o.llm(LlmPrompt(s))
    case Ok(res) =>
      var answer := Strip(res);
      NoUpdate.(generation := Some(answer), source := Some(LLM.Value()),
                llmAttempted := Some(true),
                conversationHistory :=
                  Some(s.conversationHistory + ["User: " + s.question, "Doctor: " + answer]))
    case Fail =>
      NoUpdate.(generation := Some(LlmErrorAnswer), source := Some(LLM.Value()),
                llmAttempted := Some(true), conversationHistory := Some(s.conversationHistory))
  }

  /** `_retrieve_docs`: searches the document index. On success it stores the passages (it
      may be none), the query and the source; on failure it empties the documents and
      leaves the source and the query alone. Either way one history entry is added. */
  function RetrieveDocs(s: AgentState, o: Oracles): (u: Update)
    ensures o.documents(RetrievalQuery(s)).Ok? ==>
      u.documents == Some(o.documents(RetrievalQuery(s)).value)
      && u.searchQuery == Some(Some(RetrievalQuery(s))) && u.source == Some(RAG.Value())
      && u.conversationHistory == Some(s.conversationHistory + ["AI: Searching medical documents..."])
    ensures o.documents(RetrievalQuery(s)).Fail? ==>
      u.documents == Some([])
      && u.conversationHistory == Some(s.conversationHistory + ["AI: Document retrieval failed."])
    ensures u.ragAttempted == Some(true)
  {
    var query := RetrievalQuery(s);
    match o.documents(query)
    case Ok(docs) =>
      NoUpdate.(documents := Some(docs), ragAttempted := Some(true),
                searchQuery := Some(Some(query)), source := Some(RAG.Value()),
                conversationHistory :=
                  Some(s.conversationHistory + ["AI: Searching medical documents..."]))
    case Fail =>
      NoUpdate.(documents := Some([]), ragAttempted := Some(true),
                conversationHistory := Some(s.conversationHistory + ["AI: Document retrieval failed."]))
  }

  /** `_retrieve_wiki`: looks the raw question up. The source becomes Wikipedia either way;
      the documents are non-empty exactly when the call succeeded (one document, whatever
      its text), and only a success sets the attempted flag. */
  function RetrieveWiki(s: AgentState, o: Oracles): (u: Update)
    ensures u.source == Some(WIKI.Value()) && u.documents.Some?
    ensures u.documents.value != [] <==> o.wikipedia(s.question).Ok?
    ensures o.wikipedia(s.question).Ok? ==>
      u.documents.value == [Doc(o.wikipedia(s.question).value)]
      && u.wikiAttempted == Some(true)
      && u.conversationHistory == Some(s.conversationHistory + ["AI: Searching Wikipedia..."])
    ensures o.wikipedia(s.question).Fail? ==>
      u.conversationHistory == Some(s.conversationHistory + ["AI: Wikipedia retrieval failed."])
  {
    match o.wikipedia(s.question)
    case Ok(content) =>
      NoUpdate.(documents := Some([Doc(content)]), source := Some(WIKI.Value()),
                conversationHistory := Some(s.conversationHistory + ["AI: Searching Wikipedia..."]),
                wikiAttempted := Some(true))
    case Fail =>
      NoUpdate.(documents := Some([]), source := Some(WIKI.Value()),
                conversationHistory := Some(s.conversationHistory + ["AI: Wikipedia retrieval failed."]))
  }

  /** `_retrieve_duckduckgo`: searches the web for the raw question, with the same shape as
      the Wikipedia node. */
  function RetrieveDuckDuckGo(s: AgentState, o: Oracles): (u: Update)
    ensures u.source == Some(DDG.Value()) && u.documents.Some?
    ensures u.documents.value != [] <==> o.web(s.question).Ok?
    ensures o.web(s.question).Ok? ==>
      u.documents.value == [Doc(o.web(s.question).value)]
      && u.ddgAttempted == Some(true)
      && u.conversationHistory == Some(s.conversationHistory + ["AI: Searching DuckDuckGo..."])
    ensures o.web(s.question).Fail? ==>
      u.conversationHistory == Some(s.conversationHistory + ["AI: DuckDuckGo retrieval failed."])
  {
    match o.web(s.question)
    case Ok(content) =>
      NoUpdate.(documents := Some([Doc(content)]), source := Some(DDG.Value()),
                conversationHistory := Some(s.conversationHistory + ["AI: Searching DuckDuckGo..."]),
                ddgAttempted := Some(true))
    case Fail =>
      NoUpdate.(documents := Some([]), source := Some(DDG.Value()),
                conversationHistory := Some(s.conversationHistory + ["AI: DuckDuckGo retrieval failed."]))
  }

  const NotFoundAnswer :=
    "I couldn't find enough information to answer your question right now. Please consult a licensed medical professional."
  const NotFoundEntry := "Doctor: I couldn't find enough information to answer your question."
  const ErrorAnswer := "An error occurred while processing your request."
  const ErrorEntry := "Doctor: An error occurred."

  /** `generate_response`: when the LLM already answered, the state is handed back as it
      is, so merging it changes nothing; otherwise the answer comes from GroundedAnswer. */
  function GenerateResponse(s: AgentState, o: Oracles): (u: Update)
    ensures s.source == LLM.Value() ==> Merge(s, u) == s
    ensures s.source != LLM.Value() ==> u == GroundedAnswer(s, o)
  {
    if s.source == LLM.Value() then
      MergeOverwrite(s, s);
      Overwrite(s)
    else
      GroundedAnswer(s, o)
  }

  /** The rest of `generate_response`: an answer grounded in the documents, or the fixed
      "couldn't find" text when there are none; a failed model call becomes the fixed
      error text. Those two fallbacks set the source to none; a grounded answer keeps it. */
  function GroundedAnswer(s: AgentState, o: Oracles): (u: Update)
    ensures s.documents == [] ==>
      u.generation == Some(NotFoundAnswer) && u.source == Some(NONE.Value())
      && u.conversationHistory == Some(s.conversationHistory + [NotFoundEntry])
    ensures s.documents != [] && o.grounded(GroundedPrompt(s)).Fail? ==>
      u.generation == Some(ErrorAnswer) && u.source == Some(NONE.Value())
      && u.conversationHistory == Some(s.conversationHistory + [ErrorEntry])
    ensures s.documents != [] && o.grounded(GroundedPrompt(s)).Ok? ==>
      u.source == Some(s.source) && u.generation == Some(Strip(o.grounded(GroundedPrompt(s)).value))
      && IsStripped(u.generation.value)
      && (u.generation.value == "" <==> IsBlank(o.grounded(GroundedPrompt(s))))
      && u.conversationHistory == Some(s.conversationHistory + ["Doctor: " + u.generation.value])
  {
    if s.documents != [] then
      match o.grounded(GroundedPrompt(s))
      case Ok(response) =>
        NoUpdate.(generation := Some(Strip(response)), source := Some(s.source),
                  conversationHistory := Some(s.conversationHistory + ["Doctor: " + Strip(response)]))
      case Fail =>
        NoUpdate.(generation := Some(ErrorAnswer), source := Some(NONE.Value()),
                  conversationHistory := Some(s.conversationHistory + [ErrorEntry]))
    else
      NoUpdate.(generation := Some(NotFoundAnswer), source := Some(NONE.Value()),
                conversationHistory := Some(s.conversationHistory + [NotFoundEntry]))
  }

  // ---------------------------------------------------------------------------
  // The keys each node sets

  /** `query_llm` sets the answer, the source, the LLM flag and the history, whether the
      call succeeds or not. */
  lemma QueryLlmWrites(s: AgentState, o: Oracles)
    ensures Written(QueryLlm(s, o)) == {KGeneration, KSource, KLlmAttempted, KConversationHistory}
  {
    var u := QueryLlm(s, o);
    assert u.question.None? && u.documents.None? && u.searchQuery.None?;
    assert u.ragAttempted.None? && u.wikiAttempted.None? && u.ddgAttempted.None?;
  }

  /** `_retrieve_docs` sets the query and the source only when the search succeeds. */
  lemma RetrieveDocsWrites(s: AgentState, o: Oracles)
    ensures Written(RetrieveDocs(s, o)) ==
      if o.documents(RetrievalQuery(s)).Ok?
      then {KDocuments, KRagAttempted, KSearchQuery, KSource, KConversationHistory}
      else {KDocuments, KRagAttempted, KConversationHistory}
  {
    var u := RetrieveDocs(s, o);
    assert u.question.None? && u.generation.None? && u.llmAttempted.None?;
    assert u.wikiAttempted.None? && u.ddgAttempted.None?;
  }

  /** `_retrieve_wiki` sets its flag only when the call succeeds. */
  lemma RetrieveWikiWrites(s: AgentState, o: Oracles)
    ensures Written(RetrieveWiki(s, o)) ==
      if o.wikipedia(s.question).Ok?
      then {KDocuments, KSource, KConversationHistory, KWikiAttempted}
      else {KDocuments, KSource, KConversationHistory}
  {
    var u := RetrieveWiki(s, o);
    assert u.question.None? && u.generation.None? && u.searchQuery.None?;
    assert u.llmAttempted.None? && u.ragAttempted.None? && u.ddgAttempted.None?;
  }

  /** `_retrieve_duckduckgo` sets its flag only when the call succeeds. */
  lemma RetrieveDuckDuckGoWrites(s: AgentState, o: Oracles)
    ensures Written(RetrieveDuckDuckGo(s, o)) ==
      if o.web(s.question).Ok?
      then {KDocuments, KSource, KConversationHistory, KDdgAttempted}
      else {KDocuments, KSource, KConversationHistory}
  {
    var u := RetrieveDuckDuckGo(s, o);
    assert u.question.None? && u.generation.None? && u.searchQuery.None?;
    assert u.llmAttempted.None? && u.ragAttempted.None? && u.wikiAttempted.None?;
  }

  /** Every answer `generate_response` builds sets the answer, the source and the history
      and nothing else. */
  lemma GroundedAnswerWrites(s: AgentState, o: Oracles)
    ensures Written(GroundedAnswer(s, o)) == {KGeneration, KSource, KConversationHistory}
  {
    var u := GroundedAnswer(s, o);
    assert u.question.None? && u.documents.None? && u.searchQuery.None?;
    assert u.llmAttempted.None? && u.ragAttempted.None? && u.wikiAttempted.None?;
    assert u.ddgAttempted.None?;
  }

  // ---------------------------------------------------------------------------
  // Routing

  /** `_route_after_llm`: any non-empty answer, the apology included, ends the search. */
  function RouteAfterLlm(s: AgentState): (r: Node)
    ensures r in {Generate, RagQuery}
    ensures r == Generate <==> s.generation != ""
  {
    if s.generation != "" then Generate else RagQuery
  }

  /** `_route_after_rag`. */
  function RouteAfterRag(s: AgentState): (r: Node)
    ensures r in {Generate, WikiQuery}
    ensures r == Generate <==> s.documents != []
  {
    if s.documents != [] then Generate else WikiQuery
  }

  /** `_route_after_wiki`. */
  function RouteAfterWiki(s: AgentState): (r: Node)
    ensures r in {Generate, DdgQuery}
    ensures r == Generate <==> s.documents != []
  {
    if s.documents != [] then Generate else DdgQuery
  }

  /** The routing functions a conditional edge may carry. */
  datatype Router = AfterLlm | AfterRag | AfterWiki

  function Route(r: Router, s: AgentState): Node
  {
    match r
    case AfterLlm => RouteAfterLlm(s)
    case AfterRag => RouteAfterRag(s)
    case AfterWiki => RouteAfterWiki(s)
  }

  /** An outgoing edge: fixed, or chosen by a router among the targets of its path map. */
  datatype Edge = Direct(target: Node) | Conditional(router: Router, targets: set<Node>)
  {
    function Targets(): set<Node>
    {
      match this
      case Direct(t) => {t}
      case Conditional(_, ts) => ts
    }
  }

  // ---------------------------------------------------------------------------
  // Building the graph

  /** What a `StateGraph` records while it is built: its nodes, its entry point and the
      outgoing edge of each node. */
  class StateGraph {
    var nodes: set<Node>
    var entry: Option<Node>
    var edges: map<Node, Edge>

    constructor ()
      ensures nodes == {} && entry == None && edges == map[]
    {
      nodes, entry, edges := {}, None, map[];
    }

    method AddNode(n: Node)
      modifies this
      ensures nodes == old(nodes) + {n} && entry == old(entry) && edges == old(edges)
    {
      nodes := nodes + {n};
    }

    method SetEntryPoint(n: Node)
      modifies this
      ensures entry == Some(n) && nodes == old(nodes) && edges == old(edges)
    {
      entry := Some(n);
    }

    method AddConditionalEdges(from: Node, router: Router, targets: set<Node>)
      modifies this
      ensures edges == old(edges)[from := Conditional(router, targets)]
      ensures nodes == old(nodes) && entry == old(entry)
    {
      edges := edges[from := Conditional(router, targets)];
    }

    method AddEdge(from: Node, to: Node)
      modifies this
      ensures edges == old(edges)[from := Direct(to)]
      ensures nodes == old(nodes) && entry == old(entry)
    {
      edges := edges[from := Direct(to)];
    }
  }

  /** The nodes `_build_workflow` adds. */
  const WorkflowNodes: set<Node> := {LlmQuery, RagQuery, WikiQuery, DdgQuery, Generate}

  /** The outgoing edge `_build_workflow` gives each node. */
  function EdgeOf(n: Node): Edge
    requires n != End
  {
    match n
    case LlmQuery => Conditional(AfterLlm, {Generate, RagQuery})
    case RagQuery => Conditional(AfterRag, {Generate, WikiQuery})
    case WikiQuery => Conditional(AfterWiki, {Generate, DdgQuery})
    case DdgQuery => Direct(Generate)
    case Generate => Direct(End)
  }

  /** Every edge of the graph leads further along the chain, so no node can be reached
      twice and every walk ends at END. */
  lemma EdgesMoveForward(n: Node)
    requires n != End
    ensures forall t :: t in EdgeOf(n).Targets() ==> Rank(n) < Rank(t)
    ensures End in EdgeOf(n).Targets() <==> n == Generate
  {
  }

  /** `MedicalWorkflow`: owns the graph that its constructor builds. */
  class MedicalWorkflow {
    var workflow: StateGraph

    constructor ()
      ensures fresh(workflow)
      ensures workflow.nodes == WorkflowNodes && workflow.entry == Some(LlmQuery)
      ensures workflow.edges.Keys == WorkflowNodes
      ensures forall n :: n in workflow.edges ==> workflow.edges[n] == EdgeOf(n)
    {
      workflow := new StateGraph();
      new;
      BuildWorkflow();
    }

    /** `_build_workflow`: five nodes, the entry point, three conditional edges and two
        fixed ones. */
    method BuildWorkflow()
      modifies workflow
      ensures workflow.nodes == old(workflow.nodes) + WorkflowNodes
      ensures workflow.entry == Some(LlmQuery)
      ensures workflow.edges.Keys == old(workflow.edges.Keys) + WorkflowNodes
      ensures forall n :: n in WorkflowNodes ==> workflow.edges[n] == EdgeOf(n)
      ensures forall n :: n in workflow.edges && n !in WorkflowNodes ==>
        workflow.edges[n] == old(workflow.edges[n])
    {
      workflow.AddNode(LlmQuery);
      workflow.AddNode(RagQuery);
      workflow.AddNode(WikiQuery);
      workflow.AddNode(DdgQuery);
      workflow.AddNode(Generate);

      workflow.SetEntryPoint(LlmQuery);

      workflow.AddConditionalEdges(LlmQuery, AfterLlm, {Generate, RagQuery});
      workflow.AddConditionalEdges(RagQuery, AfterRag, {Generate, WikiQuery});
      workflow.AddConditionalEdges(WikiQuery, AfterWiki, {Generate, DdgQuery});
      workflow.AddEdge(DdgQuery, Generate);
      workflow.AddEdge(Generate, End);
    }
  }

  // ---------------------------------------------------------------------------
  // Running the compiled graph

  /** The update node `n` returns. */
  function Apply(n: Node, s: AgentState, o: Oracles): Update
    requires n != End
  {
    match n
    case LlmQuery => QueryLlm(s, o)
    case RagQuery => RetrieveDocs(s, o)
    case WikiQuery => RetrieveWiki(s, o)
    case DdgQuery => RetrieveDuckDuckGo(s, o)
    case Generate => GenerateResponse(s, o)
  }

  /** The node after `n`, read off `n`'s edge in the state its update produced: always one
      of the edge's targets, and always further along the chain. */
  function Successor(n: Node, s: AgentState): (next: Node)
    requires n != End
    ensures next in EdgeOf(n).Targets()
    ensures Rank(n) < Rank(next)
  {
    match EdgeOf(n)
    case Direct(t) => t
    case Conditional(r, _) => Route(r, s)
  }

  /** A finished run: the final state and the nodes run, in order. */
  datatype Run = Run(final: AgentState, trace: seq<Node>)

  /** The state once node `n`'s update is merged. */
  function After(n: Node, s: AgentState, o: Oracles): AgentState
    requires n != End
  {
    Merge(s, Apply(n, s, o))
  }

  /** The node that runs after `n`. */
  function Next(n: Node, s: AgentState, o: Oracles): Node
    requires n != End
  {
    Successor(n, After(n, s, o))
  }

  /** What the compiled graph does from node `n` on: run the node, merge its update into
      the state, follow its edge, until END. */
  function RunFrom(n: Node, s: AgentState, o: Oracles): Run
    decreases 5 - Rank(n)
  {
    if n == End then Run(s, [])
    else
      var rest := RunFrom(Next(n, s, o), After(n, s, o), o);
      Run(rest.final, [n] + rest.trace)
  }

  /** `app.invoke(state)`: a run from the entry point. */
  function Invoke(s: AgentState, o: Oracles): Run
  {
    RunFrom(LlmQuery, s, o)
  }

  /** `generate` leads straight to END. */
  lemma RunFromGenerate(s: AgentState, o: Oracles)
    ensures RunFrom(Generate, s, o) == Run(Merge(s, GenerateResponse(s, o)), [Generate])
  {
    assert After(Generate, s, o) == Merge(s, GenerateResponse(s, o));
    assert Next(Generate, s, o) == End;
  }

  /** One step of a run from a node other than END. */
  lemma RunFromUnfold(n: Node, s: AgentState, o: Oracles)
    requires n != End
    ensures RunFrom(n, s, o).final == RunFrom(Next(n, s, o), After(n, s, o), o).final
    ensures RunFrom(n, s, o).trace == [n] + RunFrom(Next(n, s, o), After(n, s, o), o).trace
  {
  }

  /** Running node `n` after the nodes `done` is running the rest after `done + [n]`. */
  lemma RunFromStep(n: Node, s: AgentState, o: Oracles, done: seq<Node>)
    requires n != End
    ensures RunFrom(n, s, o).final == RunFrom(Next(n, s, o), After(n, s, o), o).final
    ensures done + RunFrom(n, s, o).trace
            == (done + [n]) + RunFrom(Next(n, s, o), After(n, s, o), o).trace
  {
    RunFromUnfold(n, s, o);
    var rest := RunFrom(Next(n, s, o), After(n, s, o), o).trace;
    assert done + ([n] + rest) == (done + [n]) + rest;
  }

  /** One step of the compiled graph: run the node, merge its update, then choose the
      edge out of it on the merged state. */
  method StepNode(n: Node, s: AgentState, o: Oracles) returns (next: Node, merged: AgentState)
    requires n != End
    ensures merged == After(n, s, o) && next == Next(n, s, o)
    ensures Rank(n) < Rank(next)
  {
    var update := Apply(n, s, o);
    merged := Merge(s, update);
    next := Successor(n, merged);
  }

  /** The compiled graph's loop: one node at a time, merging each update before the edge
      out of it is chosen. It computes Invoke. */
  method InvokeGraph(s0: AgentState, o: Oracles) returns (s: AgentState, trace: seq<Node>)
    ensures Run(s, trace) == Invoke(s0, o)
  {
    var node := LlmQuery;
    s, trace := s0, [];
    while node != End
      invariant RunFrom(node, s, o).final == Invoke(s0, o).final
      invariant trace + RunFrom(node, s, o).trace == Invoke(s0, o).trace
      decreases 5 - Rank(node)
    {
      RunFromStep(node, s, o, trace);
      trace := trace + [node];
      node, s := StepNode(node, s, o);
    }
    assert RunFrom(node, s, o) == Run(s, []);
  }
}
