/** The conversation state threaded through the workflow (`AgentState`) and the store that
    keeps it between turns (`StateManager`). */
module StateManagement {
  import opened Outcomes

  /** A retrieved passage (a langchain `Document`); the workflow reads only its text. */
  datatype Doc = Doc(content: string)

  /** The typed state dict. `source` holds the tag of a workflow source, or "" before the
      first turn and at the start of each turn. */
  datatype AgentState = AgentState(
    question: string,
    documents: seq<Doc>,
    generation: string,
    source: string,
    searchQuery: Option<string>,
    conversationHistory: seq<string>,
    llmAttempted: bool,
    ragAttempted: bool,
    wikiAttempted: bool,
    ddgAttempted: bool)

  /** A partial state: the dict a workflow node returns, or the dict a host hands to
      `update_state`. A key is present exactly when its field is `Some`. */
  datatype Update = Update(
    question: Option<string>,
    documents: Option<seq<Doc>>,
    generation: Option<string>,
    source: Option<string>,
    searchQuery: Option<Option<string>>,
    conversationHistory: Option<seq<string>>,
    llmAttempted: Option<bool>,
    ragAttempted: Option<bool>,
    wikiAttempted: Option<bool>,
    ddgAttempted: Option<bool>)

  /** The empty dict. */
  const NoUpdate: Update := Update(None, None, None, None, None, None, None, None, None, None)

  /** Every key of `s`: what is merged when a whole state dict is handed over, as when a
      node returns its input state or a host merges the graph's result. */
  function Overwrite(s: AgentState): Update
  {
    Update(Some(s.question), Some(s.documents), Some(s.generation), Some(s.source),
           Some(s.searchQuery), Some(s.conversationHistory), Some(s.llmAttempted),
           Some(s.ragAttempted), Some(s.wikiAttempted), Some(s.ddgAttempted))
  }

  // ---------------------------------------------------------------------------
  // The dict view: the state as Python holds it, a map from keys to values.

  /** The keys `AgentState` declares, in order `question`, `documents`, `generation`,
      `source`, `search_query`, `conversation_history` and the four `*_attempted` flags. */
  datatype Key =
    | KQuestion | KDocuments | KGeneration | KSource | KSearchQuery | KConversationHistory
    | KLlmAttempted | KRagAttempted | KWikiAttempted | KDdgAttempted

  const AllKeys: set<Key> := {KQuestion, KDocuments, KGeneration, KSource, KSearchQuery,
    KConversationHistory, KLlmAttempted, KRagAttempted, KWikiAttempted, KDdgAttempted}

  datatype Value =
    | Str(str: string)
    | Docs(docs: seq<Doc>)
    | MaybeStr(maybe: Option<string>)
    | Lines(lines: seq<string>)
    | Flag(flag: bool)

  /** `state[k]`. */
  function Get(s: AgentState, k: Key): Value
  {
    match k
    case KQuestion => Str(s.question)
    case KDocuments => Docs(s.documents)
    case KGeneration => Str(s.generation)
    case KSource => Str(s.source)
    case KSearchQuery => MaybeStr(s.searchQuery)
    case KConversationHistory => Lines(s.conversationHistory)
    case KLlmAttempted => Flag(s.llmAttempted)
    case KRagAttempted => Flag(s.ragAttempted)
    case KWikiAttempted => Flag(s.wikiAttempted)
    case KDdgAttempted => Flag(s.ddgAttempted)
  }

  /** `u.get(k)`: the value of `k` in the partial state, when the key is present. */
  function Entry(u: Update, k: Key): Option<Value>
  {
    match k
    case KQuestion => if u.question.Some? then Some(Str(u.question.value)) else None
    case KDocuments => if u.documents.Some? then Some(Docs(u.documents.value)) else None
    case KGeneration => if u.generation.Some? then Some(Str(u.generation.value)) else None
    case KSource => if u.source.Some? then Some(Str(u.source.value)) else None
    case KSearchQuery => if u.searchQuery.Some? then Some(MaybeStr(u.searchQuery.value)) else None
    case KConversationHistory =>
      if u.conversationHistory.Some? then Some(Lines(u.conversationHistory.value)) else None
    case KLlmAttempted => if u.llmAttempted.Some? then Some(Flag(u.llmAttempted.value)) else None
    case KRagAttempted => if u.ragAttempted.Some? then Some(Flag(u.ragAttempted.value)) else None
    case KWikiAttempted => if u.wikiAttempted.Some? then Some(Flag(u.wikiAttempted.value)) else None
    case KDdgAttempted => if u.ddgAttempted.Some? then Some(Flag(u.ddgAttempted.value)) else None
  }

  /** The whole state as a dict. */
  function ToMap(s: AgentState): map<Key, Value>
  {
    map k | k in AllKeys :: Get(s, k)
  }

  /** The keys a partial state holds. */
  function Written(u: Update): set<Key>
  {
    (if u.question.Some? then {KQuestion} else {}) +
    (if u.documents.Some? then {KDocuments} else {}) +
    (if u.generation.Some? then {KGeneration} else {}) +
    (if u.source.Some? then {KSource} else {}) +
    (if u.searchQuery.Some? then {KSearchQuery} else {}) +
    (if u.conversationHistory.Some? then {KConversationHistory} else {}) +
    (if u.llmAttempted.Some? then {KLlmAttempted} else {}) +
    (if u.ragAttempted.Some? then {KRagAttempted} else {}) +
    (if u.wikiAttempted.Some? then {KWikiAttempted} else {}) +
    (if u.ddgAttempted.Some? then {KDdgAttempted} else {})
  }

  /** The dict a partial state stands for: its present keys only. */
  function UpdateMap(u: Update): map<Key, Value>
  {
    map k | k in AllKeys && Entry(u, k).Some? :: Entry(u, k).value
  }

  /** States that agree on every key are equal, so the dict view loses nothing. */
  lemma GetInjective(a: AgentState, b: AgentState)
    requires forall k :: Get(a, k) == Get(b, k)
    ensures a == b
  {
    assert Get(a, KQuestion) == Get(b, KQuestion);
    assert Get(a, KDocuments) == Get(b, KDocuments);
    assert Get(a, KGeneration) == Get(b, KGeneration);
    assert Get(a, KSource) == Get(b, KSource);
    assert Get(a, KSearchQuery) == Get(b, KSearchQuery);
    assert Get(a, KConversationHistory) == Get(b, KConversationHistory);
    assert Get(a, KLlmAttempted) == Get(b, KLlmAttempted);
    assert Get(a, KRagAttempted) == Get(b, KRagAttempted);
    assert Get(a, KWikiAttempted) == Get(b, KWikiAttempted);
    assert Get(a, KDdgAttempted) == Get(b, KDdgAttempted);
  }

  // ---------------------------------------------------------------------------
  // Merge and reset, as functions on states.

  /** `state.update(u)`: every key present in `u` takes the value `u` gives it, every other
      key keeps the stored one. */
  function Merge(s: AgentState, u: Update): AgentState
  {
    AgentState(
      u.question.GetOr(s.question),
      u.documents.GetOr(s.documents),
      u.generation.GetOr(s.generation),
      u.source.GetOr(s.source),
      u.searchQuery.GetOr(s.searchQuery),
      u.conversationHistory.GetOr(s.conversationHistory),
      u.llmAttempted.GetOr(s.llmAttempted),
      u.ragAttempted.GetOr(s.ragAttempted),
      u.wikiAttempted.GetOr(s.wikiAttempted),
      u.ddgAttempted.GetOr(s.ddgAttempted))
  }

  /** Every key present in the update takes the update's value; every other key keeps the
      stored one. */
  lemma MergeGet(s: AgentState, u: Update)
    ensures forall k :: Get(Merge(s, u), k)
                        == if Entry(u, k).Some? then Entry(u, k).value else Get(s, k)
  {
  }

  /** On the dict view, Merge is Python's `dict.update`: map override. */
  lemma MergeIsDictUpdate(s: AgentState, u: Update)
    ensures ToMap(Merge(s, u)) == ToMap(s) + UpdateMap(u)
  {
    MergeGet(s, u);
    var l, r := ToMap(Merge(s, u)), ToMap(s) + UpdateMap(u);
    assert l.Keys == AllKeys == r.Keys;
    forall k | k in AllKeys ensures l[k] == r[k] {
      if Entry(u, k).Some? { assert k in UpdateMap(u); } else { assert k !in UpdateMap(u); }
    }
  }

  /** Merging the empty dict changes nothing. */
  lemma MergeNoUpdate(s: AgentState)
    ensures Merge(s, NoUpdate) == s
  {
    MergeGet(s, NoUpdate);
    forall k ensures Get(Merge(s, NoUpdate), k) == Get(s, k) {
      assert Entry(NoUpdate, k) == None;
    }
    GetInjective(Merge(s, NoUpdate), s);
  }

  /** Merging the same dict twice is merging it once. */
  lemma MergeIdempotent(s: AgentState, u: Update)
    ensures Merge(Merge(s, u), u) == Merge(s, u)
  {
    MergeGet(s, u);
    MergeGet(Merge(s, u), u);
    GetInjective(Merge(Merge(s, u), u), Merge(s, u));
  }

  /** Merging a whole state dict replaces the stored state by it. */
  lemma MergeOverwrite(s: AgentState, t: AgentState)
    ensures Merge(s, Overwrite(t)) == t
  {
    MergeGet(s, Overwrite(t));
    forall k ensures Get(Merge(s, Overwrite(t)), k) == Get(t, k) {
      assert Entry(Overwrite(t), k) == Some(Get(t, k));
    }
    GetInjective(Merge(s, Overwrite(t)), t);
  }

  /** `state["conversation_history"] = []`: the history key is emptied, every other key
      keeps its value. */
  function ResetHistory(s: AgentState): (r: AgentState)
    ensures forall k :: Get(r, k) == if k == KConversationHistory then Lines([]) else Get(s, k)
  {
    s.(conversationHistory := [])
  }

  /** Resetting twice is resetting once. */
  lemma ResetIdempotent(s: AgentState)
    ensures ResetHistory(ResetHistory(s)) == ResetHistory(s)
  {
    GetInjective(ResetHistory(ResetHistory(s)), ResetHistory(s));
  }

  /** `_initialize_state`: empty strings and lists, no search query, no source attempted. */
  function InitialState(): AgentState
  {
    AgentState("", [], "", "", None, [], false, false, false, false)
  }

  // ---------------------------------------------------------------------------

  /** `StateManager`: the state dict of one conversation, changed in place key by key.
      Each field is one key of the dict. */
  class StateManager {
    var question: string
    var documents: seq<Doc>
    var generation: string
    var source: string
    var searchQuery: Option<string>
    var conversationHistory: seq<string>
    var llmAttempted: bool
    var ragAttempted: bool
    var wikiAttempted: bool
    var ddgAttempted: bool

    /** The dict as a value. */
    function State(): AgentState
      reads this
    {
      AgentState(question, documents, generation, source, searchQuery, conversationHistory,
                 llmAttempted, ragAttempted, wikiAttempted, ddgAttempted)
    }

    /** A new conversation: empty strings and lists, no search query, nothing attempted. */
    constructor ()
      ensures State() == InitialState()
      ensures question == "" && generation == "" && source == ""
      ensures documents == [] && conversationHistory == [] && searchQuery == None
      ensures !llmAttempted && !ragAttempted && !wikiAttempted && !ddgAttempted
    {
      var s := InitialState();
      question, documents, generation, source := s.question, s.documents, s.generation, s.source;
      searchQuery, conversationHistory := s.searchQuery, s.conversationHistory;
      llmAttempted, ragAttempted := s.llmAttempted, s.ragAttempted;
      wikiAttempted, ddgAttempted := s.wikiAttempted, s.ddgAttempted;
    }

    /** `update_state`: overwrites the keys present in `u`, leaves the others, and returns
        the updated state. A key absent from `u` has its stored value written back. */
    method UpdateState(u: Update) returns (r: AgentState)
      modifies this
      ensures State() == Merge(old(State()), u)
      ensures r == State()
    {
      var n := Merge(State(), u);
      question, documents, generation, source := n.question, n.documents, n.generation, n.source;
      searchQuery, conversationHistory := n.searchQuery, n.conversationHistory;
      llmAttempted, ragAttempted := n.llmAttempted, n.ragAttempted;
      wikiAttempted, ddgAttempted := n.wikiAttempted, n.ddgAttempted;
      r := State();
    }

    /** `reset_conversation`: empties the history and nothing else. */
    method ResetConversation()
      modifies this
      ensures State() == ResetHistory(old(State()))
    {
      conversationHistory := [];
    }

    /** `get_state`: the current state. */
    method GetState() returns (r: AgentState)
      ensures r == State()
    {
      r := State();
    }
  }
}
