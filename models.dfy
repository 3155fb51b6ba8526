/** The backend's records: session states, agent kinds, one agent output, the cost
    totals and the session snapshot, with the defaults a new record gets. */
module Models {
  import opened Wrappers

  datatype SessionState =
    | Init
    | ClarificationPending
    | ClarificationComplete
    | RoundProcessing
    | SynthesisProcessing
    | Complete
    | Error

  const AllStates: seq<SessionState> :=
    [Init, ClarificationPending, ClarificationComplete, RoundProcessing, SynthesisProcessing, Complete, Error]

  /** Exactly seven states: the list covers every state and holds no repeats. */
  lemma StatesEnumerated()
    ensures |AllStates| == 7
    ensures forall s: SessionState :: s in AllStates
    ensures forall i, j :: 0 <= i < j < |AllStates| ==> AllStates[i] != AllStates[j]
  {
    forall s: SessionState ensures s in AllStates {
      match s
      case Init => assert AllStates[0] == s;
      case ClarificationPending => assert AllStates[1] == s;
      case ClarificationComplete => assert AllStates[2] == s;
      case RoundProcessing => assert AllStates[3] == s;
      case SynthesisProcessing => assert AllStates[4] == s;
      case Complete => assert AllStates[5] == s;
      case Error => assert AllStates[6] == s;
    }
  }

  /** The enum's string value, as it appears in snapshots and in messages. */
  function StateName(s: SessionState): string {
    match s
    case Init => "INIT"
    case ClarificationPending => "CLARIFICATION_PENDING"
    case ClarificationComplete => "CLARIFICATION_COMPLETE"
    case RoundProcessing => "ROUND_PROCESSING"
    case SynthesisProcessing => "SYNTHESIS_PROCESSING"
    case Complete => "COMPLETE"
    case Error => "ERROR"
  }

  /** Reading a state back from its string value (pydantic's enum validation). */
  function ParseState(name: string): (r: Option<SessionState>)
    ensures r.Some? ==> StateName(r.value) == name
  {
    if name == "INIT" then Some(Init)
    else if name == "CLARIFICATION_PENDING" then Some(ClarificationPending)
    else if name == "CLARIFICATION_COMPLETE" then Some(ClarificationComplete)
    else if name == "ROUND_PROCESSING" then Some(RoundProcessing)
    else if name == "SYNTHESIS_PROCESSING" then Some(SynthesisProcessing)
    else if name == "COMPLETE" then Some(Complete)
    else if name == "ERROR" then Some(Error)
    else None
  }

  /** Every state's string value reads back as that state, so distinct states have distinct values. */
  lemma StateNameRoundTrip(s: SessionState, t: SessionState)
    ensures ParseState(StateName(s)) == Some(s)
    ensures StateName(s) == StateName(t) ==> s == t
  {
  }

  datatype AgentType = Clarification | Expansion | Compression | Synthesis

  function AgentName(a: AgentType): string {
    match a
    case Clarification => "CLARIFICATION"
    case Expansion => "EXPANSION"
    case Compression => "COMPRESSION"
    case Synthesis => "SYNTHESIS"
  }

  const AllAgents: seq<AgentType> := [Clarification, Expansion, Compression, Synthesis]

  /** Exactly four agent kinds: the list covers every kind and holds no repeats. */
  lemma AgentsEnumerated()
    ensures |AllAgents| == 4
    ensures forall a: AgentType :: a in AllAgents
    ensures forall i, j :: 0 <= i < j < |AllAgents| ==> AllAgents[i] != AllAgents[j]
  {
    forall a: AgentType ensures a in AllAgents {
      match a
      case Clarification => assert AllAgents[0] == a;
      case Expansion => assert AllAgents[1] == a;
      case Compression => assert AllAgents[2] == a;
      case Synthesis => assert AllAgents[3] == a;
    }
  }

  function ParseAgent(name: string): (r: Option<AgentType>)
    ensures r.Some? ==> AgentName(r.value) == name
  {
    if name == "CLARIFICATION" then Some(Clarification)
    else if name == "EXPANSION" then Some(Expansion)
    else if name == "COMPRESSION" then Some(Compression)
    else if name == "SYNTHESIS" then Some(Synthesis)
    else None
  }

  /** Every agent kind's string value reads back as that kind. */
  lemma AgentNameRoundTrip(a: AgentType, b: AgentType)
    ensures ParseAgent(AgentName(a)) == Some(a)
    ensures AgentName(a) == AgentName(b) ==> a == b
  {
  }

  /** One agent output. Round 0 is reserved for the synthesis. */
  datatype RoundOutput = RoundOutput(
    roundNumber: int,
    agent: AgentType,
    content: string,
    tokensUsed: Option<int>,
    inputTokens: Option<int>,
    outputTokens: Option<int>,
    modelUsed: Option<string>,
    cost: Option<real>)

  /** `RoundOutput(round_number=..., agent=..., content=..., tokens_used=...)`: the optional
      metric fields not given keep their default None. */
  function NewRoundOutput(roundNumber: int, agent: AgentType, content: string, tokensUsed: Option<int>): (o: RoundOutput)
    ensures o.roundNumber == roundNumber && o.agent == agent && o.content == content && o.tokensUsed == tokensUsed
    ensures o.inputTokens.None? && o.outputTokens.None? && o.modelUsed.None? && o.cost.None?
  {
    RoundOutput(roundNumber, agent, content, tokensUsed, None, None, None, None)
  }

  /** Per-model running totals inside the cost record. */
  datatype ModelUsage = ModelUsage(cost: real, inputTokens: int, outputTokens: int, callCount: int)

  datatype CostTracking = CostTracking(
    totalCost: real,
    totalInputTokens: int,
    totalOutputTokens: int,
    modelCosts: map<string, ModelUsage>)

  function NewCostTracking(): (c: CostTracking)
    ensures c.totalCost == 0.0 && c.totalInputTokens == 0 && c.totalOutputTokens == 0
    ensures c.modelCosts == map[]
  {
    CostTracking(0.0, 0, 0, map[])
  }

  /** The session snapshot. `sessionId` is the canonical text of the session's UUID. */
  datatype SessionData = SessionData(
    sessionId: string,
    state: SessionState,
    originalUserPrompt: string,
    clarificationQuestions: Option<string>,
    clarificationAnswers: Option<string>,
    mergedUserPrompt: Option<string>,
    currentRound: int,
    maxRounds: int,
    history: seq<RoundOutput>,
    errorMessage: Option<string>,
    retryCount: int,
    selectedModel: string,
    modelReasoning: Option<string>,
    costTracking: CostTracking)

  /** The model id a new session starts with, before the meta agent picks one. */
  const DefaultSelectedModel: string := "glm-4.7"

  /** `SessionData(original_user_prompt=prompt, max_rounds=maxRounds)` with the id
      `uuid4()` would draw passed in. */
  function NewSession(id: string, prompt: string, maxRounds: int := 3): (s: SessionData)
    ensures s.sessionId == id && s.originalUserPrompt == prompt && s.maxRounds == maxRounds
    ensures s.state == Init && s.currentRound == 0 && s.history == []
    ensures s.clarificationQuestions.None? && s.clarificationAnswers.None? && s.mergedUserPrompt.None?
    ensures s.errorMessage.None? && s.retryCount == 0
    ensures s.selectedModel == DefaultSelectedModel && s.modelReasoning.None?
    ensures s.costTracking == NewCostTracking()
  {
    SessionData(id, Init, prompt, None, None, None, 0, maxRounds, [], None, 0,
                DefaultSelectedModel, None, NewCostTracking())
  }
}
