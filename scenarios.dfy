/** Turns about a headache, with the services answering as each lemma states and whatever
    the earlier turns left in the state. */
module Scenarios {
  import opened Outcomes
  import opened Text
  import opened StateManagement
  import opened Workflow
  import opened WorkflowProperties
  import opened Session

  const Headache := "What helps a headache?"

  /** The model answers the turn's prompt at once: the answer is its reply, from the LLM,
      no search runs and the history gains the question and the answer. */
  lemma LlmAnswersHeadache(s: AgentState, o: Oracles)
    requires o.llm(LlmPrompt(TurnStart(s, Headache))) == Ok("Try rest and hydration.")
    ensures Invoke(TurnStart(s, Headache), o).trace == [LlmQuery, Generate]
    ensures AfterTurn(s, Headache, o).generation == "Try rest and hydration."
    ensures AfterTurn(s, Headache, o).source == LLM.Value()
    ensures AfterTurn(s, Headache, o).conversationHistory
            == s.conversationHistory + ["User: " + Headache, "Doctor: " + "Try rest and hydration."]
  {
    AlreadyStripped("Try rest and hydration.");
    TurnStartKeeps(s, Headache);
    StrippedReplyEndsTurn(TurnStart(s, Headache), o, "Try rest and hydration.");
  }

  /** A reply with no whitespace at either end is the answer as it stands. */
  lemma AlreadyStripped(reply: string)
    requires reply != [] && !IsSpace(reply[0]) && !IsSpace(reply[|reply| - 1])
    ensures Strip(reply) == reply && !IsBlank(Ok(reply))
  {
    assert IsStripped(reply);
  }

  /** The turn starts from the new question and the history as it was. */
  lemma TurnStartKeeps(s: AgentState, question: string)
    ensures TurnStart(s, question).question == question
    ensures TurnStart(s, question).conversationHistory == s.conversationHistory
  {
    TurnStartClears(s, question);
    assert Get(TurnStart(s, question), KQuestion) == Str(question);
    assert Get(TurnStart(s, question), KConversationHistory) == Lines(s.conversationHistory);
  }

  /** A first model reply that is already stripped and not empty is the turn's answer. */
  lemma StrippedReplyEndsTurn(t: AgentState, o: Oracles, reply: string)
    requires o.llm(LlmPrompt(t)) == Ok(reply) && !IsBlank(Ok(reply))
    requires Strip(reply) == reply
    ensures Invoke(t, o).trace == [LlmQuery, Generate]
    ensures Invoke(t, o).final.generation == reply
    ensures Invoke(t, o).final.source == LLM.Value()
    ensures Invoke(t, o).final.conversationHistory
            == t.conversationHistory + ["User: " + t.question, "Doctor: " + reply]
  {
    LlmAnswerEndsTurn(t, o);
  }

  /** A failed first model call does not fall through to the search: the apology is the
      answer and the history stays as it was. */
  lemma LlmFailureGivesApology(s: AgentState, o: Oracles)
    requires o.llm == ((prompt: string) => Fail)
    ensures Invoke(TurnStart(s, Headache), o).trace == [LlmQuery, Generate]
    ensures AfterTurn(s, Headache, o).generation
            == "Sorry, I encountered an error generating the response."
    ensures AfterTurn(s, Headache, o).source == LLM.Value()
    ensures AfterTurn(s, Headache, o).conversationHistory == s.conversationHistory
  {
    var t := TurnStart(s, Headache);
    assert t.conversationHistory == s.conversationHistory;
    LlmAnswerEndsTurn(t, o);
  }

  /** A blank model reply falls through to the document index, which finds one passage:
      the answer is grounded in it, the source is the documents and neither Wikipedia nor
      DuckDuckGo is asked. */
  lemma DocumentsAnswerHeadache(s: AgentState, o: Oracles)
    requires o.llm == ((prompt: string) => Ok(" \n"))
    requires o.documents == ((query: string) => Ok([Doc("Ibuprofen reduces headache pain.")]))
    requires o.grounded == ((prompt: string) => Ok("Ibuprofen can relieve it."))
    ensures Invoke(TurnStart(s, Headache), o).trace == [LlmQuery, RagQuery, Generate]
    ensures AfterTurn(s, Headache, o).source == "documents"
    ensures AfterTurn(s, Headache, o).documents == [Doc("Ibuprofen reduces headache pain.")]
    ensures AfterTurn(s, Headache, o).generation == "Ibuprofen can relieve it."
  {
    var t := TurnStart(s, Headache);
    var blank := " \n";
    assert IsSpace(blank[0]) && IsSpace(blank[1]);
    assert IsBlank(o.llm(LlmPrompt(t)));
    var reply := "Ibuprofen can relieve it.";
    assert !IsSpace(reply[0]) && !IsSpace(reply[|reply| - 1]);
    assert FoundDocuments(o.documents(DocsQuery(t, o)));
    TurnPath(t, o);
    SearchAnswer(t, o);
    GatheredDocuments(t, o);
    SearchKeepsDocuments(t, o);
  }

  /** Every source comes back empty or failing: the answer is the fixed "couldn't find"
      text with source none, after all four sources were tried. */
  lemma NothingFoundForHeadache(s: AgentState, o: Oracles)
    requires o.llm == ((prompt: string) => Ok(""))
    requires o.documents == ((query: string) => Ok([]))
    requires o.wikipedia == ((question: string) => Fail)
    requires o.web == ((question: string) => Fail)
    ensures Invoke(TurnStart(s, Headache), o).trace
            == [LlmQuery, RagQuery, WikiQuery, DdgQuery, Generate]
    ensures AfterTurn(s, Headache, o).generation == NotFoundAnswer
    ensures AfterTurn(s, Headache, o).source == NONE.Value()
  {
    var t := TurnStart(s, Headache);
    assert IsBlank(o.llm(LlmPrompt(t)));
    assert !SearchFound(t, o);
    TurnPath(t, o);
    SearchAnswer(t, o);
  }
}
