/** What one run of the compiled workflow does, proved from the graph and its nodes: the
    order in which sources are tried, when each is reached, what the answer then is, and
    what happens to the history, the attempted flags and the search query. */
module WorkflowProperties {
  import opened Outcomes
  import opened Text
  import opened StateManagement
  import opened Workflow

  // ---------------------------------------------------------------------------
  // Shape of a run

  /** The ranks strictly increase along `t`. */
  predicate Ascending(t: seq<Node>)
  {
    forall i, j :: 0 <= i < j < |t| ==> Rank(t[i]) < Rank(t[j])
  }

  /** Putting a node of lower rank in front keeps the ranks increasing. */
  lemma AscendingCons(n: Node, t: seq<Node>)
    requires Ascending(t) && |t| > 0 && Rank(n) < Rank(t[0])
    ensures Ascending([n] + t)
  {
    var nt := [n] + t;
    forall i, j | 0 <= i < j < |nt| ensures Rank(nt[i]) < Rank(nt[j]) {
      if i == 0 && j > 1 {
        assert Rank(t[0]) < Rank(t[j - 1]);
      }
    }
  }

  /** From any node, a run visits nodes further and further along the chain and ends
      with `generate`: each node runs at most once and END follows `generate`. */
  lemma {:induction false} RunFromTrace(n: Node, s: AgentState, o: Oracles)
    requires n != End
    ensures var t := RunFrom(n, s, o).trace;
      |t| > 0 && t[0] == n && t[|t| - 1] == Generate && Ascending(t)
    decreases 5 - Rank(n)
  {
    var m := Next(n, s, o);
    EdgesMoveForward(n);
    RunFromUnfold(n, s, o);
    if m == End {
      assert RunFrom(n, s, o).trace == [n];
    } else {
      RunFromTrace(m, After(n, s, o), o);
      var rest := RunFrom(m, After(n, s, o), o).trace;
      AscendingCons(n, rest);
    }
  }

  /** A sequence with increasing ranks that ends at `generate` repeats no node and never
      reaches END. */
  lemma AscendingToGenerate(t: seq<Node>)
    requires Ascending(t) && |t| > 0 && t[|t| - 1] == Generate
    ensures End !in t
    ensures forall i, j :: 0 <= i < j < |t| ==> t[i] != t[j]
  {
    forall i | 0 <= i < |t| ensures t[i] != End {
      if i < |t| - 1 {
        assert Rank(t[i]) < Rank(t[|t| - 1]);
      }
    }
  }

  /** A turn starts at `llm_query`, ends at `generate`, and runs no node twice. */
  lemma TurnTrace(s: AgentState, o: Oracles)
    ensures var t := Invoke(s, o).trace;
      |t| > 0 && t[0] == LlmQuery && t[|t| - 1] == Generate && End !in t
      && forall i, j :: 0 <= i < j < |t| ==> t[i] != t[j]
  {
    RunFromTrace(LlmQuery, s, o);
    AscendingToGenerate(Invoke(s, o).trace);
  }

  // ---------------------------------------------------------------------------
  // History

  /** Every node keeps the history it was given as a prefix and adds at most two
      entries. */
  lemma NodeExtendsHistory(n: Node, s: AgentState, o: Oracles)
    requires n != End
    ensures var h := After(n, s, o).conversationHistory;
      s.conversationHistory <= h && |h| <= |s.conversationHistory| + 2
  {
    var u := Apply(n, s, o);
    if n == Generate && s.source != LLM.Value() {
      assert u == GroundedAnswer(s, o);
    }
  }

  /** Over a whole run the history only grows: what it held before is a prefix of what it
      holds after, and no node adds more than two entries. */
  lemma {:induction false} RunFromExtendsHistory(n: Node, s: AgentState, o: Oracles)
    ensures s.conversationHistory <= RunFrom(n, s, o).final.conversationHistory
    ensures |RunFrom(n, s, o).final.conversationHistory|
            <= |s.conversationHistory| + 2 * |RunFrom(n, s, o).trace|
    decreases 5 - Rank(n)
  {
    if n != End {
      NodeExtendsHistory(n, s, o);
      RunFromExtendsHistory(Next(n, s, o), After(n, s, o), o);
    }
  }

  // ---------------------------------------------------------------------------
  // The fallback chain written out

  function LlmStep(s: AgentState, o: Oracles): AgentState { Merge(s, QueryLlm(s, o)) }
  function RagStep(s: AgentState, o: Oracles): AgentState { Merge(s, RetrieveDocs(s, o)) }
  function WikiStep(s: AgentState, o: Oracles): AgentState { Merge(s, RetrieveWiki(s, o)) }
  function DdgStep(s: AgentState, o: Oracles): AgentState { Merge(s, RetrieveDuckDuckGo(s, o)) }

  /** The sources tried before `generate`, one after the other until one gives something,
      and the state `generate` then starts from. */
  function Gather(s: AgentState, o: Oracles): Run
  {
    var s1 := LlmStep(s, o);
    if s1.generation != "" then Run(s1, [LlmQuery])
    else
      var rest := GatherFromRag(s1, o);
      Run(rest.final, [LlmQuery] + rest.trace)
  }

  /** The chain from the document index on. */
  function GatherFromRag(s1: AgentState, o: Oracles): Run
  {
    var s2 := RagStep(s1, o);
    if s2.documents != [] then Run(s2, [RagQuery])
    else
      var rest := GatherFromWiki(s2, o);
      Run(rest.final, [RagQuery] + rest.trace)
  }

  /** The chain from Wikipedia on. */
  function GatherFromWiki(s2: AgentState, o: Oracles): Run
  {
    var s3 := WikiStep(s2, o);
    if s3.documents != [] then Run(s3, [WikiQuery])
    else Run(DdgStep(s3, o), [WikiQuery, DdgQuery])
  }

  /** What running from `n` gives when the chain from `n` is `g`. */
  predicate Completes(n: Node, s: AgentState, o: Oracles, g: Run)
  {
    RunFrom(n, s, o).trace == g.trace + [Generate]
    && RunFrom(n, s, o).final == Merge(g.final, GenerateResponse(g.final, o))
  }

  /** The step out of `llm_query` is the chain's first step. */
  lemma LlmQueryStep(s: AgentState, o: Oracles)
    ensures After(LlmQuery, s, o) == LlmStep(s, o)
    ensures Next(LlmQuery, s, o) == if LlmStep(s, o).generation != "" then Generate else RagQuery
  {
  }

  /** The step out of `rag_query` is the chain's document step. */
  lemma RagQueryStep(s: AgentState, o: Oracles)
    ensures After(RagQuery, s, o) == RagStep(s, o)
    ensures Next(RagQuery, s, o) == if RagStep(s, o).documents != [] then Generate else WikiQuery
  {
  }

  /** The step out of `wiki_query` is the chain's Wikipedia step. */
  lemma WikiQueryStep(s: AgentState, o: Oracles)
    ensures After(WikiQuery, s, o) == WikiStep(s, o)
    ensures Next(WikiQuery, s, o) == if WikiStep(s, o).documents != [] then Generate else DdgQuery
  {
  }

  lemma FromWikiCompletes(s2: AgentState, o: Oracles)
    ensures Completes(WikiQuery, s2, o, GatherFromWiki(s2, o))
  {
    var s3 := WikiStep(s2, o);
    RunFromUnfold(WikiQuery, s2, o);
    WikiQueryStep(s2, o);
    if s3.documents != [] {
      RunFromGenerate(s3, o);
    } else {
      var s4 := DdgStep(s3, o);
      RunFromUnfold(DdgQuery, s3, o);
      RunFromGenerate(s4, o);
      assert RunFrom(WikiQuery, s2, o).trace == [WikiQuery] + ([DdgQuery] + [Generate]);
    }
  }

  lemma FromRagCompletes(s1: AgentState, o: Oracles)
    ensures Completes(RagQuery, s1, o, GatherFromRag(s1, o))
  {
    if RagStep(s1, o).documents != [] {
      FromRagFound(s1, o);
    } else {
      FromRagMissed(s1, o);
    }
  }

  /** The document search found passages: `generate` runs next. */
  lemma FromRagFound(s1: AgentState, o: Oracles)
    requires RagStep(s1, o).documents != []
    ensures Completes(RagQuery, s1, o, GatherFromRag(s1, o))
  {
    RunFromUnfold(RagQuery, s1, o);
    RagQueryStep(s1, o);
    RunFromGenerate(RagStep(s1, o), o);
  }

  /** The document search found nothing: the chain goes on from Wikipedia. */
  lemma FromRagMissed(s1: AgentState, o: Oracles)
    requires RagStep(s1, o).documents == []
    ensures Completes(RagQuery, s1, o, GatherFromRag(s1, o))
  {
    var s2 := RagStep(s1, o);
    RunFromUnfold(RagQuery, s1, o);
    RagQueryStep(s1, o);
    FromWikiCompletes(s2, o);
    var rest := GatherFromWiki(s2, o).trace;
    assert RunFrom(RagQuery, s1, o).trace == [RagQuery] + (rest + [Generate]);
  }

  /** The compiled graph runs exactly the fallback chain, then `generate`. */
  lemma InvokeIsGatherThenGenerate(s: AgentState, o: Oracles)
    ensures Invoke(s, o).trace == Gather(s, o).trace + [Generate]
    ensures Invoke(s, o).final
            == Merge(Gather(s, o).final, GenerateResponse(Gather(s, o).final, o))
  {
    var s1 := LlmStep(s, o);
    RunFromUnfold(LlmQuery, s, o);
    LlmQueryStep(s, o);
    if s1.generation != "" {
      RunFromGenerate(s1, o);
    } else {
      FromRagCompletes(s1, o);
      var rest := GatherFromRag(s1, o).trace;
      assert Invoke(s, o).trace == [LlmQuery] + (rest + [Generate]);
    }
  }

  // ---------------------------------------------------------------------------
  // Which sources a turn tries

  /** The documents search gave at least one passage. */
  predicate FoundDocuments(out: Outcome<seq<Doc>>)
  {
    out.Ok? && out.value != []
  }

  /** No node before `generate` touches the question. */
  lemma GatherKeepsQuestion(s: AgentState, o: Oracles)
    ensures LlmStep(s, o).question == s.question
    ensures RagStep(LlmStep(s, o), o).question == s.question
    ensures WikiStep(RagStep(LlmStep(s, o), o), o).question == s.question
  {
  }

  /** The sources tried before `generate`, by what the services answer. */
  lemma GatherPath(s: AgentState, o: Oracles)
    ensures Gather(s, o).trace ==
      if !IsBlank(o.llm(LlmPrompt(s))) then [LlmQuery]
      else if FoundDocuments(o.documents(RetrievalQuery(LlmStep(s, o)))) then
        [LlmQuery, RagQuery]
      else if o.wikipedia(s.question).Ok? then [LlmQuery, RagQuery, WikiQuery]
      else [LlmQuery, RagQuery, WikiQuery, DdgQuery]
  {
    GatherKeepsQuestion(s, o);
    var s1 := LlmStep(s, o);
    if s1.generation == "" {
      var s2 := RagStep(s1, o);
      if s2.documents == [] {
        assert GatherFromWiki(s2, o).trace
          == if o.wikipedia(s.question).Ok? then [WikiQuery] else [WikiQuery, DdgQuery];
      }
    }
  }

  /** The nodes a turn runs, by what the services answer: the LLM answer ends the turn
      unless it is blank; the document index next, then Wikipedia, whose success always
      ends the search; DuckDuckGo is tried last, once, whatever it then gives. */
  lemma TurnPath(s: AgentState, o: Oracles)
    ensures Invoke(s, o).trace ==
      if !IsBlank(o.llm(LlmPrompt(s))) then [LlmQuery, Generate]
      else if FoundDocuments(o.documents(RetrievalQuery(LlmStep(s, o)))) then
        [LlmQuery, RagQuery, Generate]
      else if o.wikipedia(s.question).Ok? then [LlmQuery, RagQuery, WikiQuery, Generate]
      else [LlmQuery, RagQuery, WikiQuery, DdgQuery, Generate]
  {
    InvokeIsGatherThenGenerate(s, o);
    GatherPath(s, o);
  }

  /** A non-blank LLM answer, or a failed LLM call, ends the turn: no retrieval node runs,
      the source is the LLM and only the answer, the history and the LLM flag change. A
      failed call leaves the apology and the history as it was. */
  lemma LlmAnswerEndsTurn(s: AgentState, o: Oracles)
    requires !IsBlank(o.llm(LlmPrompt(s)))
    ensures Invoke(s, o).trace == [LlmQuery, Generate]
    ensures Invoke(s, o).final == LlmStep(s, o)
    ensures var f := Invoke(s, o).final;
      f.source == LLM.Value() && f.llmAttempted && f.generation != ""
      && f.question == s.question && f.documents == s.documents
      && f.searchQuery == s.searchQuery && f.ragAttempted == s.ragAttempted
      && f.wikiAttempted == s.wikiAttempted && f.ddgAttempted == s.ddgAttempted
    ensures o.llm(LlmPrompt(s)).Fail? ==>
      Invoke(s, o).final.generation == LlmErrorAnswer
      && Invoke(s, o).final.conversationHistory == s.conversationHistory
    ensures o.llm(LlmPrompt(s)).Ok? ==>
      var answer := Strip(o.llm(LlmPrompt(s)).value);
      Invoke(s, o).final.generation == answer
      && Invoke(s, o).final.conversationHistory
         == s.conversationHistory + ["User: " + s.question, "Doctor: " + answer]
  {
    InvokeIsGatherThenGenerate(s, o);
  }

  // ---------------------------------------------------------------------------
  // What the search gathers when the LLM answer was blank

  /** The query the document search gets. */
  function DocsQuery(s: AgentState, o: Oracles): string
  {
    RetrievalQuery(LlmStep(s, o))
  }

  /** Once the LLM answer was blank, `generate` starts from documents exactly when one of
      the three searches gave something, and from the source that gave them; with none
      the source is DuckDuckGo's, the last one tried. Never the LLM's. */
  lemma GatheredDocuments(s: AgentState, o: Oracles)
    requires IsBlank(o.llm(LlmPrompt(s)))
    ensures var g := Gather(s, o).final;
      (g.documents != [] <==>
         FoundDocuments(o.documents(DocsQuery(s, o)))
         || o.wikipedia(s.question).Ok? || o.web(s.question).Ok?)
      && g.documents == (if FoundDocuments(o.documents(DocsQuery(s, o)))
                           then o.documents(DocsQuery(s, o)).value
                         else if o.wikipedia(s.question).Ok? then [Doc(o.wikipedia(s.question).value)]
                         else if o.web(s.question).Ok? then [Doc(o.web(s.question).value)]
                         else [])
      && g.source == (if FoundDocuments(o.documents(DocsQuery(s, o))) then RAG.Value()
                      else if o.wikipedia(s.question).Ok? then WIKI.Value()
                      else DDG.Value())
      && g.question == s.question
  {
    GatherKeepsQuestion(s, o);
  }

  /** The flags the search leaves: the document-search flag is always set, the Wikipedia
      and DuckDuckGo flags only by a successful call to a source that was reached. */
  lemma GatheredFlags(s: AgentState, o: Oracles)
    requires IsBlank(o.llm(LlmPrompt(s)))
    ensures var g := Gather(s, o).final;
      var found := FoundDocuments(o.documents(DocsQuery(s, o)));
      g.llmAttempted && g.ragAttempted
      && g.wikiAttempted == (s.wikiAttempted || (!found && o.wikipedia(s.question).Ok?))
      && g.ddgAttempted == (s.ddgAttempted
                            || (!found && o.wikipedia(s.question).Fail? && o.web(s.question).Ok?))
  {
    GatherKeepsQuestion(s, o);
    var s1 := LlmStep(s, o);
    assert s1.generation == "" && s1.llmAttempted;
    assert s1.wikiAttempted == s.wikiAttempted && s1.ddgAttempted == s.ddgAttempted;
    var s2 := RagStep(s1, o);
    assert s2.ragAttempted && s2.llmAttempted;
    assert s2.wikiAttempted == s.wikiAttempted && s2.ddgAttempted == s.ddgAttempted;
    assert s2.documents != [] <==> FoundDocuments(o.documents(DocsQuery(s, o)));
    if s2.documents == [] {
      var s3 := WikiStep(s2, o);
      assert s3.ragAttempted && s3.llmAttempted && s3.ddgAttempted == s.ddgAttempted;
      assert s3.wikiAttempted == (s.wikiAttempted || o.wikipedia(s.question).Ok?);
      if s3.documents == [] {
        var s4 := DdgStep(s3, o);
        assert s4.ddgAttempted == (s.ddgAttempted || o.web(s.question).Ok?);
      }
    }
  }

  /** Only a successful document search stores its query. */
  lemma GatheredSearchQuery(s: AgentState, o: Oracles)
    requires IsBlank(o.llm(LlmPrompt(s)))
    ensures Gather(s, o).final.searchQuery
            == if o.documents(DocsQuery(s, o)).Ok? then Some(DocsQuery(s, o)) else s.searchQuery
  {
  }

  /** In a turn the document search never gets the bare question: `query_llm` has just put
      the question and the empty answer in the history, so the query always carries them. */
  lemma DocsQueryCarriesHistory(s: AgentState, o: Oracles)
    requires IsBlank(o.llm(LlmPrompt(s)))
    ensures DocsQuery(s, o) == "Context: " + Join("\n", s.conversationHistory
              + ["User: " + s.question, "Doctor: "]) + "\nQuestion: " + s.question
  {
    var u := QueryLlm(s, o);
    var h := LlmStep(s, o).conversationHistory;
    assert u.generation.value == "";
    assert "Doctor: " + u.generation.value == "Doctor: ";
    assert h == s.conversationHistory + ["User: " + s.question, "Doctor: "];
    assert h[|s.conversationHistory|] == "User: " + s.question;
  }

  // ---------------------------------------------------------------------------
  // The answer of a turn

  /** The five source tags are different strings. */
  lemma TagsDiffer()
    ensures forall a: Source, b: Source :: a != b ==> a.Value() != b.Value()
  {
    forall a: Source, b: Source | a != b ensures a.Value() != b.Value() {
      assert |a.Value()| != |b.Value()| || a.Value()[0] != b.Value()[0];
    }
  }

  /** Some search gave documents. */
  predicate SearchFound(s: AgentState, o: Oracles)
  {
    FoundDocuments(o.documents(DocsQuery(s, o)))
    || o.wikipedia(s.question).Ok? || o.web(s.question).Ok?
  }

  /** The second model call of a turn that searched. */
  function GroundedReply(s: AgentState, o: Oracles): Outcome<string>
  {
    o.grounded(GroundedPrompt(Gather(s, o).final))
  }

  /** After a search `generate` never takes its LLM short cut: the source is the tag of
      a retrieval node, so the turn ends with the grounded answer merged in. */
  lemma SearchThenGrounded(s: AgentState, o: Oracles)
    requires IsBlank(o.llm(LlmPrompt(s)))
    ensures Gather(s, o).final.source in {RAG.Value(), WIKI.Value(), DDG.Value()}
    ensures Invoke(s, o).final
            == Merge(Gather(s, o).final, GroundedAnswer(Gather(s, o).final, o))
  {
    InvokeIsGatherThenGenerate(s, o);
    GatheredDocuments(s, o);
    TagsDiffer();
    var g := Gather(s, o).final;
    assert g.source != LLM.Value();
  }

  /** After a search, the answer is the stripped grounded reply and the source is the one
      that gave documents; with no documents it is the fixed "couldn't find" text, and
      when the second model call fails the fixed error text, both with source none. */
  lemma SearchAnswer(s: AgentState, o: Oracles)
    requires IsBlank(o.llm(LlmPrompt(s)))
    ensures var f := Invoke(s, o).final;
      (!SearchFound(s, o) ==> f.generation == NotFoundAnswer && f.source == NONE.Value())
      && (SearchFound(s, o) && GroundedReply(s, o).Fail? ==>
            f.generation == ErrorAnswer && f.source == NONE.Value())
      && (SearchFound(s, o) && GroundedReply(s, o).Ok? ==>
            f.generation == Strip(GroundedReply(s, o).value)
            && f.source == Gather(s, o).final.source && f.source != NONE.Value())
      && f.source != LLM.Value()
  {
    SearchThenGrounded(s, o);
    GatheredDocuments(s, o);
    TagsDiffer();
    var g := Gather(s, o).final;
    var u := GroundedAnswer(g, o);
    assert SearchFound(s, o) <==> g.documents != [];
    assert g.source != NONE.Value();
    assert Invoke(s, o).final.generation == u.generation.value;
    assert Invoke(s, o).final.source == u.source.value;
  }

  /** `generate` never changes the documents the search gathered. */
  lemma SearchKeepsDocuments(s: AgentState, o: Oracles)
    requires IsBlank(o.llm(LlmPrompt(s)))
    ensures Invoke(s, o).final.documents == Gather(s, o).final.documents
  {
    SearchThenGrounded(s, o);
    var u := GroundedAnswer(Gather(s, o).final, o);
    assert u.documents.None?;
  }

  /** Where the answer of a turn came from: always one of the five tags, the LLM's exactly
      when its answer was not blank, and none exactly when the search found nothing or the
      second model call failed. */
  lemma TurnSource(s: AgentState, o: Oracles)
    ensures var f := Invoke(s, o).final;
      f.source in SourceTags
      && (f.source == LLM.Value() <==> !IsBlank(o.llm(LlmPrompt(s))))
      && (f.source == NONE.Value() <==>
            IsBlank(o.llm(LlmPrompt(s))) && (!SearchFound(s, o) || GroundedReply(s, o).Fail?))
  {
    if IsBlank(o.llm(LlmPrompt(s))) {
      SearchAnswer(s, o);
      SearchThenGrounded(s, o);
    } else {
      LlmAnswerEndsTurn(s, o);
      TagsDiffer();
    }
  }

  /** The fixed texts with source none each have one cause, and an empty answer only comes
      from a grounded reply that was only whitespace. */
  lemma TurnAnswer(s: AgentState, o: Oracles)
    ensures var f := Invoke(s, o).final;
      (f.source == NONE.Value() && f.generation == NotFoundAnswer <==>
         IsBlank(o.llm(LlmPrompt(s))) && !SearchFound(s, o))
      && (f.source == NONE.Value() && f.generation == ErrorAnswer <==>
            IsBlank(o.llm(LlmPrompt(s))) && SearchFound(s, o) && GroundedReply(s, o).Fail?)
      && (f.generation == "" <==>
            IsBlank(o.llm(LlmPrompt(s))) && SearchFound(s, o) && IsBlank(GroundedReply(s, o)))
  {
    TurnSource(s, o);
    assert NotFoundAnswer != ErrorAnswer && NotFoundAnswer != "" && ErrorAnswer != "";
    if IsBlank(o.llm(LlmPrompt(s))) {
      SearchAnswer(s, o);
    } else {
      LlmAnswerEndsTurn(s, o);
    }
  }

  /** After a search `generate` writes only the answer, the source and the history. */
  lemma GeneratedKeepsBookkeeping(s: AgentState, o: Oracles)
    requires IsBlank(o.llm(LlmPrompt(s)))
    ensures var f := Invoke(s, o).final;
      var g := Gather(s, o).final;
      f.question == g.question && f.llmAttempted == g.llmAttempted
      && f.ragAttempted == g.ragAttempted && f.wikiAttempted == g.wikiAttempted
      && f.ddgAttempted == g.ddgAttempted && f.searchQuery == g.searchQuery
  {
    SearchThenGrounded(s, o);
    var u := GroundedAnswer(Gather(s, o).final, o);
    assert u.question.None? && u.llmAttempted.None? && u.ragAttempted.None?
      && u.wikiAttempted.None? && u.ddgAttempted.None? && u.searchQuery.None?;
  }

  /** What a turn does to the rest of the state: the question stays; the LLM flag is set;
      the document-search flag is set by any search; the Wikipedia and DuckDuckGo flags
      only by a successful call to a source that was reached; the search query only by a
      successful document search. What an earlier turn set stays otherwise. */
  lemma TurnBookkeeping(s: AgentState, o: Oracles)
    ensures var f := Invoke(s, o).final;
      var blank := IsBlank(o.llm(LlmPrompt(s)));
      var found := FoundDocuments(o.documents(DocsQuery(s, o)));
      f.question == s.question && f.llmAttempted
      && f.ragAttempted == (s.ragAttempted || blank)
      && f.wikiAttempted == (s.wikiAttempted || (blank && !found && o.wikipedia(s.question).Ok?))
      && f.ddgAttempted == (s.ddgAttempted || (blank && !found && o.wikipedia(s.question).Fail?
                                                && o.web(s.question).Ok?))
      && f.searchQuery == (if blank && o.documents(DocsQuery(s, o)).Ok? then Some(DocsQuery(s, o))
                           else s.searchQuery)
  {
    if IsBlank(o.llm(LlmPrompt(s))) {
      GeneratedKeepsBookkeeping(s, o);
      GatheredFlags(s, o);
      GatheredSearchQuery(s, o);
      GatheredDocuments(s, o);
    } else {
      LlmAnswerEndsTurn(s, o);
    }
  }

  /** The search adds one history line per source it tries, after the two `query_llm`
      added. */
  lemma GatheredHistory(s: AgentState, o: Oracles)
    requires IsBlank(o.llm(LlmPrompt(s)))
    ensures |Gather(s, o).final.conversationHistory|
            == |s.conversationHistory| + |Gather(s, o).trace| + 1
  {
    var s1 := LlmStep(s, o);
    assert |s1.conversationHistory| == |s.conversationHistory| + 2;
    assert s1.generation == "";
    FromRagHistory(s1, o);
  }

  lemma FromRagHistory(s1: AgentState, o: Oracles)
    ensures |GatherFromRag(s1, o).final.conversationHistory|
            == |s1.conversationHistory| + |GatherFromRag(s1, o).trace|
  {
    var s2 := RagStep(s1, o);
    assert |s2.conversationHistory| == |s1.conversationHistory| + 1;
    if s2.documents == [] {
      FromWikiHistory(s2, o);
    }
  }

  lemma FromWikiHistory(s2: AgentState, o: Oracles)
    ensures |GatherFromWiki(s2, o).final.conversationHistory|
            == |s2.conversationHistory| + |GatherFromWiki(s2, o).trace|
  {
    var s3 := WikiStep(s2, o);
    assert |s3.conversationHistory| == |s2.conversationHistory| + 1;
    if s3.documents == [] {
      assert |DdgStep(s3, o).conversationHistory| == |s3.conversationHistory| + 1;
    }
  }

  /** After a search the answer adds one more line. */
  lemma SearchTurnHistory(s: AgentState, o: Oracles)
    requires IsBlank(o.llm(LlmPrompt(s)))
    ensures |Invoke(s, o).final.conversationHistory|
            == |s.conversationHistory| + |Invoke(s, o).trace| + 1
  {
    SearchThenGrounded(s, o);
    InvokeIsGatherThenGenerate(s, o);
    GatheredHistory(s, o);
    var g := Gather(s, o).final;
    var u := GroundedAnswer(g, o);
    assert |u.conversationHistory.value| == |g.conversationHistory| + 1;
  }

  /** A turn keeps the earlier history as a prefix and adds: nothing when the LLM call
      failed, the question and the answer when the LLM answered, and otherwise those two,
      one line per source tried and the final answer. */
  lemma TurnHistory(s: AgentState, o: Oracles)
    ensures s.conversationHistory <= Invoke(s, o).final.conversationHistory
    ensures |Invoke(s, o).final.conversationHistory| == |s.conversationHistory| +
      if o.llm(LlmPrompt(s)).Fail? then 0
      else if !IsBlank(o.llm(LlmPrompt(s))) then 2
      else |Invoke(s, o).trace| + 1
  {
    RunFromExtendsHistory(LlmQuery, s, o);
    if IsBlank(o.llm(LlmPrompt(s))) {
      SearchTurnHistory(s, o);
    } else {
      LlmAnswerEndsTurn(s, o);
    }
  }
}
