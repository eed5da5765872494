/** One question and answer as every host runs it (the console loop, the Streamlit page
    and the HTTP endpoint alike): clear the per-turn keys of the shared state, run the
    workflow on what the state then holds, merge the result back and show the stripped
    answer. */
module Session {
  import opened Outcomes
  import opened Text
  import opened StateManagement
  import opened Workflow
  import opened WorkflowProperties

  /** The update a host makes before running the workflow: the new question, and no
      documents, answer or source. The history, the search query and the attempted flags
      are not in it. */
  function TurnReset(question: string): Update
  {
    NoUpdate.(question := Some(question), documents := Some([]), generation := Some(""),
              source := Some(""))
  }

  /** The state the workflow starts a turn from. */
  function TurnStart(s: AgentState, question: string): AgentState
  {
    Merge(s, TurnReset(question))
  }

  /** The state after a whole turn. */
  function AfterTurn(s: AgentState, question: string, o: Oracles): AgentState
  {
    Invoke(TurnStart(s, question), o).final
  }

  /** One turn on the shared state manager: reset the per-turn keys, run the workflow on
      the state read back, merge its whole result and give the answer stripped. */
  method AskQuestion(m: StateManager, question: string, o: Oracles) returns (answer: string)
    modifies m
    ensures m.State() == AfterTurn(old(m.State()), question, o)
    ensures answer == Strip(m.State().generation)
  {
    var started := m.UpdateState(TurnReset(question));
    var state := m.GetState();
    var result, trace := InvokeGraph(state, o);
    MergeOverwrite(started, result);
    var merged := m.UpdateState(Overwrite(result));
    answer := Strip(result.generation);
  }

  // ---------------------------------------------------------------------------
  // Turn properties

  /** The workflow starts from the new question, with no documents, answer or source, and
      everything else as the previous turn left it. */
  lemma TurnStartClears(s: AgentState, question: string)
    ensures forall k :: (Get(TurnStart(s, question), k) ==
                           match k
                           case KQuestion => Str(question)
                           case KDocuments => Docs([])
                           case KGeneration => Str("")
                           case KSource => Str("")
                           case _ => Get(s, k))
  {
  }

  /** Nothing a turn gives depends on the documents, the answer or the source of the
      turn before: two states that differ only there give the same next state. */
  lemma NoCarryOverOfAnswer(s: AgentState, t: AgentState, question: string, o: Oracles)
    requires forall k :: k !in {KDocuments, KGeneration, KSource} ==> Get(s, k) == Get(t, k)
    ensures AfterTurn(s, question, o) == AfterTurn(t, question, o)
  {
    assert Get(s, KQuestion) == Get(t, KQuestion);
    assert Get(s, KSearchQuery) == Get(t, KSearchQuery);
    assert Get(s, KConversationHistory) == Get(t, KConversationHistory);
    assert Get(s, KLlmAttempted) == Get(t, KLlmAttempted);
    assert Get(s, KRagAttempted) == Get(t, KRagAttempted);
    assert Get(s, KWikiAttempted) == Get(t, KWikiAttempted);
    assert Get(s, KDdgAttempted) == Get(t, KDdgAttempted);
    assert TurnStart(s, question) == TurnStart(t, question);
  }

  /** Across turns, with no reset between them, the history only grows: the history
      before a turn is a prefix of the one after it. */
  lemma HistoryGrowsAcrossTurns(s: AgentState, question: string, o: Oracles)
    ensures s.conversationHistory <= AfterTurn(s, question, o).conversationHistory
  {
    TurnHistory(TurnStart(s, question), o);
  }

  /** A turn answers the question it was asked, with one of the five source tags. The
      search query and the attempted flags are those of earlier turns unless this turn
      sets them: a flag once set stays set. */
  lemma TurnCarriesOver(s: AgentState, question: string, o: Oracles)
    ensures var f := AfterTurn(s, question, o);
      f.question == question && f.source in SourceTags && f.llmAttempted
      && (s.ragAttempted ==> f.ragAttempted) && (s.wikiAttempted ==> f.wikiAttempted)
      && (s.ddgAttempted ==> f.ddgAttempted)
      && (f.searchQuery == s.searchQuery || f.searchQuery == Some(DocsQuery(TurnStart(s, question), o)))
  {
    TurnBookkeeping(TurnStart(s, question), o);
    TurnSource(TurnStart(s, question), o);
  }
}
