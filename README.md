# Perspective: a verified model of the multi-perspective chat pipeline

Perspective answers a user's prompt in several steps:

1. A meta agent picks the completion model.
2. A clarification agent asks questions. It skips them when its reply contains the skip sentinel.
3. The user's answers are merged into the prompt.
4. Two agents, EXPANSION and COMPRESSION, take turns for `max_rounds` rounds.
5. A synthesis agent writes the final answer.

The backend is a FastAPI service. It stores sessions as JSON files, runs the pipeline as a background task and pushes every step to the browser over a WebSocket. The browser side has a chat hook that folds those messages into client state, and a chat page that renders them. The landing page has a typing preview.

This project models that core in Dafny and proves what each part promises.

| module (file) | what it models |
|---|---|
| `Models` (models.dfy) | session states, agent types, round outputs, cost tracking, the session record and its defaults |
| `Text` (text.dfy) | decimal rendering of numbers, substring containment, joining |
| `Prompts` (prompts.dfy) | the prompt manager's builders; each template is reduced to its first line and its interpolations |
| `ModelConfig` (model_config.dfy) | the task-to-model routing table, the text-model catalog, cost, and listing models by tier |
| `Gateway` (gateway.dfy) | the completion client: model-key resolution, the retry loop with exponential back-off, response extraction, the health check |
| `Store` (session_store.dfy) | the JSON-file session store, as a class over a map from file path to session |
| `StateMachine` (state_machine.dfy) | the orchestrator's INIT, clarification, round and synthesis handlers, as methods over the store |
| `Server` (server.dfy) | the HTTP endpoints, the WebSocket registry and greeting, the broadcast, and the background loop |
| `ChatHook` (chat_hook.dfy) | `useMultiPerspectiveChat`: the reducer from socket messages to client state, and the two POST actions |
| `ChatPage` (chat_page.dfy) | the chat page's feed, its `start`/`submitClarification` guards, and `isProcessing` |
| `Preview` (preview.dfy) | the landing-page typing simulator and its progress bar |

The completion service, the meta-reply JSON parser, the network and the clock are parameters.

- The completion service is a function from endpoint, prompt and attempt number to an outcome.
- Each handler records what it does as a trace of `Saved` and `Emitted` effects. The proofs reason over that trace.

Every imperative handler is a method whose `ensures` ties it to a function of its inputs: `InitSpec`, `ClarificationSpec`, `RoundsSpec`, `SynthesisSpec`, `GenerateSpec` or `DriveFrom`. The lemmas prove the source's promises about those functions. Among them:

- A successful run appends exactly the schedule E1 C1 … En Cn S0, with n = max(1, max_rounds).
- A failed run ends in ERROR, having appended a proper prefix of that schedule.
- Every emitted output was saved first.
- The outputs a run broadcasts are exactly the entries the saved history gained. Each reaches the client when the session has a registered socket and that send succeeds.

## Model

| member | source | states |
|---|---|---|
| Models.StatesEnumerated | backend/app/models.py:7-14 | there are exactly seven session states and they are pairwise distinct |
| Models.ParseState | backend/app/models.py:7-14 | a parsed state name renders back to the same string |
| Models.StateNameRoundTrip | backend/app/models.py:7-14 | parsing a state's wire name gives the state back; distinct states have distinct names |
| Models.AgentsEnumerated | backend/app/models.py:16-20 | there are exactly four agent types, pairwise distinct |
| Models.ParseAgent | backend/app/models.py:16-20 | a parsed agent name renders back to the same string |
| Models.AgentNameRoundTrip | backend/app/models.py:16-20 | parsing an agent's wire name gives it back; the names are injective |
| Models.NewRoundOutput | backend/app/models.py:22-31 | a new output carries the given round, agent, content and token count; the optional token, model and cost fields are unset |
| Models.NewCostTracking | backend/app/models.py:36-40 | a new cost tracker starts at zero totals with no per-model costs |
| Models.NewSession | backend/app/models.py:45-70 | a new session is INIT at round 0 with an empty history, no questions, answers, merged prompt or error, retry count 0, model "glm-4.7" and max_rounds defaulting to 3 |
| Text.DigitChar | backend/app/ollama_client.py:124 | the character for a decimal digit is a digit with that value |
| Text.NatToString | backend/app/ollama_client.py:124 | `str(n)` of a natural number is a nonempty digit string, one character long exactly when n < 10 |
| Text.DigitsValueOfNatToString | src/components/home/useMultiPerspectiveChat.ts:130-131 | reading back the decimal rendering of n gives n |
| Text.ConcatPiece | backend/app/prompts.py:175-180 | every piece of a concatenation occurs in it, at the combined length of the pieces before it |
| Text.JoinSnoc | src/app/chat/page.tsx:23-25 | joining with one more part appends the separator and that part |
| Text.ReprRoundTrip | backend/app/state_machine.py:193 | the body of `repr(s)`, with its quote, backslash, named and `\xhh` escapes, reads back to s |
| Text.PyReprInjective | backend/app/state_machine.py:193 | distinct keys give distinct `repr` texts, so the stored error names the key |
| Text.PlainRepr | backend/app/state_machine.py:193 | a key of printable characters without a single quote or backslash is shown as itself in single quotes |
| Text.ReprExamples | backend/app/state_machine.py:193 | a single quote switches `repr` to double quotes, both quotes escape the single one, a backslash is doubled and a newline is written `\n` |
| Prompts.FormatClarification | backend/app/prompts.py:126-128 | the clarification prompt contains the user's prompt, right after the fixed head text |
| Prompts.MergeContextLayout | backend/app/prompts.py:131-137 | the merged context holds the original prompt and the answers, each after its label |
| Prompts.MergeContextInjective | backend/app/prompts.py:131-137 | for prompts of equal length, equal merged contexts have equal prompts and equal answers (without that bound the separator may occur inside either) |
| Prompts.SystemPromptChoice | backend/app/prompts.py:149-152 | EXPANSION gets the expansion system prompt and every other agent gets the compression one |
| Prompts.PreviousOutputOnlyLast | backend/app/prompts.py:155-158 | only the last history entry feeds the next turn; an empty history gives an empty block; the block contains the last content |
| Prompts.AgentRoundEmbeds | backend/app/prompts.py:140-168 | an agent's round prompt is `[INST]`, its system prompt, the context label, the merged context, a newline, the previous output and the round line, each starting where the one before ends, and nothing more |
| Prompts.TranscriptPartsIndex | backend/app/prompts.py:175-180 | the transcript has one part per history entry, in history order |
| Prompts.TranscriptSnoc | backend/app/prompts.py:175-180 | one more history entry extends the transcript by its part |
| Prompts.RoundCountIsMax | backend/app/prompts.py:182 | the synthesis round count is the largest round number in the history, or 0 for an empty one |
| Prompts.SynthesisEmbeds | backend/app/prompts.py:184-196 | the synthesis prompt holds the system prompt with the round count, the merged context and the full transcript, in that order, each right after its label, and ends with the closing line |
| ModelConfig.CatalogOrderIsKeys | backend/app/model_config.py:74-174 | the catalog's listing order holds each catalog key exactly once |
| ModelConfig.GetModelForTaskRouting | backend/app/model_config.py:218-228 | each task type routes to its own entry; any other name falls back to GENERAL, which is glm-4.7-flashx |
| ModelConfig.TablesConsistent | backend/app/model_config.py:28-71 | every model the routing table names is in the catalog, with the same input price, output price and tier |
| ModelConfig.GetModelInfo | backend/app/model_config.py:255-265 | a model's information is found exactly when the model is in the catalog, and it is the catalog's entry |
| ModelConfig.CatalogPricesNonNegative | backend/app/model_config.py:74-174 | no catalog price is negative |
| ModelConfig.CostProperties | backend/app/model_config.py:230-253 | an unknown model costs 0; a free model costs 0; cost is nonnegative for nonnegative counts and monotone in each count |
| ModelConfig.Insert | backend/app/model_config.py:267-281 | insertion adds exactly the new name to the multiset |
| ModelConfig.Sort | backend/app/model_config.py:267-281 | sorting permutes its input |
| ModelConfig.StrLtTransitive | backend/app/model_config.py:267-281 | Python's string order is transitive |
| ModelConfig.StrLtTrichotomy | backend/app/model_config.py:267-281 | Python's string order is total and asymmetric |
| ModelConfig.InsertStrictlySorted | backend/app/model_config.py:267-281 | inserting a new name into a strictly sorted list keeps it strictly sorted |
| ModelConfig.SortStrictlySorted | backend/app/model_config.py:267-281 | sorting distinct names gives a strictly sorted list |
| ModelConfig.NamesOfTier | backend/app/model_config.py:267-281 | the filter keeps exactly the catalog names of the given tier |
| ModelConfig.NamesOfTierDistinct | backend/app/model_config.py:267-281 | filtering a list of distinct names keeps them distinct |
| ModelConfig.ListModelsByTierCorrect | backend/app/model_config.py:267-281 | the listing for a tier is sorted and holds exactly the models whose information has that tier |
| Gateway.ResolveKey | backend/app/ollama_client.py:76-77 | a nonempty model key is used as given; a missing or empty one falls back to the default model |
| Gateway.Pow2 | backend/app/ollama_client.py:136-139 | the back-off factor is at least 1 |
| Gateway.WordCount | backend/app/ollama_client.py:106-114 | the word count of a reply never exceeds its length |
| Gateway.WordCountZero | backend/app/ollama_client.py:106-114 | a text has no words exactly when it is all white space |
| Gateway.WordCountSplit | backend/app/ollama_client.py:106-114 | joining two texts with a space adds their word counts |
| Gateway.Extract | backend/app/ollama_client.py:106-114 | the reply is the first choice's text, or "" with no choices; the token count is the service's count when given, otherwise the word count |
| Gateway.Generate | backend/app/ollama_client.py:65-141 | the retry loop returns exactly `GenerateSpec`: the attempts, the back-off sleeps and the final outcome |
| Gateway.UnknownModelFailsFirst | backend/app/ollama_client.py:76-77 | an unknown model key fails with a key error before any attempt or sleep |
| Gateway.AttemptsBounded | backend/app/ollama_client.py:92-93 | the loop makes at most `max_retries` attempts, counting from any point |
| Gateway.GenerateAttemptsBounded | backend/app/ollama_client.py:92-141 | at most `max_retries` attempts in all; with `max_retries` ≤ 0 the call fails at once, reporting None as the last error |
| Gateway.Backoff | backend/app/ollama_client.py:136-139 | there is one sleep per failed attempt except the last |
| Gateway.BackoffElement | backend/app/ollama_client.py:136-139 | the k-th sleep is `retry_delay * 2**k` |
| Gateway.BackoffSum | backend/app/ollama_client.py:136-139 | n sleeps take `retry_delay * (2**n - 1)` in total |
| Gateway.RetryablePrefix | backend/app/ollama_client.py:119-139 | a run of timeouts and 5xx failures walks the loop forward, sleeping the back-off delays in order |
| Gateway.AllAttemptsFail | backend/app/ollama_client.py:119-141 | if every attempt fails in a retryable way, the call makes `max_retries` attempts, sleeps after all but the last, and reports the last error |
| Gateway.ClientErrorStops | backend/app/ollama_client.py:123-129 | a status below 500 ends the call at once with "HTTP status: text", with no further attempt and no sleep after it |
| Gateway.SuccessAfterRetries | backend/app/ollama_client.py:92-114 | a 2xx reply after k retryable failures returns its extracted result after k + 1 attempts and k sleeps |
| Gateway.DefaultClientScenario | backend/app/ollama_client.py:44-49 | with the default client, two timeouts and then a reply give that reply after three attempts and sleeps of 2 s and 4 s |
| Gateway.HealthCheck | backend/app/ollama_client.py:51-63 | healthy exactly when the default model is configured and its endpoint answers 200 |
| Store.FilePathInjective | backend/app/session_store.py:21-22 | different session ids map to different files |
| Store.SaveThenLookup | backend/app/session_store.py:24-42 | after a save, loading that id gives the saved session, and every other id is unaffected |
| Store.DeleteThenLookup | backend/app/session_store.py:31-51 | after a delete, loading that id gives nothing, and every other id is unaffected |
| Store.SaveTwice | backend/app/session_store.py:24-29 | a second save to the same file overwrites the first |
| Store.SessionStore.constructor | backend/app/session_store.py:17-19 | the store starts over the given directory and files |
| Store.SessionStore.Save | backend/app/session_store.py:24-29 | the session's file now holds the session; every other id loads as before |
| Store.SessionStore.Load | backend/app/session_store.py:31-42 | a missing file loads as None; a loaded session carries the id asked for |
| Store.SessionStore.Delete | backend/app/session_store.py:44-51 | reports whether the file existed, removes it, and leaves every other id as before |
| StateMachine.Fail | backend/app/state_machine.py:87-92 | a handler's `except` sets ERROR with the error text, saves, and keeps the history |
| StateMachine.ApplyMeta | backend/app/state_machine.py:45-52 | an unparsable meta reply selects "deepseek"; a parsed one selects its model (default "deepseek") and records its reason |
| StateMachine.Orchestrator.constructor | backend/app/state_machine.py:16-92 | the orchestrator holds the given collaborators and store |
| StateMachine.Orchestrator.Persist | backend/app/state_machine.py:55 | a save writes the session's file and is recorded in the trace |
| StateMachine.Orchestrator.Abort | backend/app/state_machine.py:87-92 | the `except` branch computes `Fail` and saves its session |
| StateMachine.Orchestrator.Unwind | backend/app/state_machine.py:190-195 | an exception passing through enclosing round frames saves ERROR again in each frame; without an error nothing changes |
| StateMachine.Orchestrator.ProcessInit | backend/app/state_machine.py:16-92 | `process_init` as intended equals `InitSpec`, and leaves the store holding its final session |
| StateMachine.Orchestrator.Ask | backend/app/state_machine.py:59-82 | the clarification half of `process_init` equals its specification and saves its final session |
| StateMachine.Orchestrator.ProcessInitAsWritten | backend/app/state_machine.py:29 | `process_init` as written equals `InitSpecAsWritten` |
| StateMachine.Orchestrator.RunSynthesis | backend/app/state_machine.py:197-242 | the synthesis step equals `SynthesisSpec`, continuing the given trace |
| StateMachine.Orchestrator.ProcessSynthesis | backend/app/state_machine.py:197-242 | `process_synthesis` equals `SynthesisSpec` and leaves its final session stored |
| StateMachine.Orchestrator.RunAgent | backend/app/state_machine.py:133-177 | one agent's turn equals `AgentTurn` and stores its session |
| StateMachine.Orchestrator.RunExchange | backend/app/state_machine.py:133-177 | the two agent turns equal `Exchange` |
| StateMachine.Orchestrator.RunRound | backend/app/state_machine.py:124-188 | one round equals `PlayRound` |
| StateMachine.Orchestrator.RunRounds | backend/app/state_machine.py:115-195 | the self-recursive rounds, run as a loop, equal `RoundsSpec` |
| StateMachine.Orchestrator.ProcessRound | backend/app/state_machine.py:115-195 | `process_round` equals `RoundsSpec` from an empty trace |
| StateMachine.Orchestrator.ProcessClarification | backend/app/state_machine.py:94-113 | `process_clarification` equals `ClarificationSpec` and leaves its final session stored |
| StateMachine.RethrowsNoError | backend/app/state_machine.py:190-195 | a result without an error passes through the round frames unchanged |
| StateMachine.RethrowsSession | backend/app/state_machine.py:190-195 | re-raising through frames keeps the session and the error |
| StateMachine.Shape | backend/app/state_machine.py:133-228 | the shape of a history is its (round number, agent) pairs, in order |
| StateMachine.ScheduleLength | backend/app/state_machine.py:180-188 | the schedule from round `from` has two entries per round plus one for the synthesis |
| StateMachine.ScheduleRound | backend/app/state_machine.py:133-177 | entry 2k of the schedule is round from+k's expansion and entry 2k+1 is its compression |
| StateMachine.ScheduleEnd | backend/app/state_machine.py:219-228 | the schedule ends with the synthesis entry, numbered 0 |
| StateMachine.Grow | backend/app/state_machine.py:133-177 | appending in two steps appends the two pieces, shape by shape |
| StateMachine.AgentTurn | backend/app/state_machine.py:133-177 | a successful turn appends the agent's output for the current round and saves it before emitting it; a failure is `Fail` |
| StateMachine.AgentTurnFacts | backend/app/state_machine.py:133-177 | a successful turn keeps the state, round number and error message and appends exactly one entry: (current round, agent) |
| StateMachine.SynthesisFacts | backend/app/state_machine.py:197-242 | the synthesis appends exactly (0, SYNTHESIS) and ends COMPLETE, or fails in ERROR with nothing appended |
| StateMachine.ExchangeNext | backend/app/state_machine.py:133-177 | both turns succeed: (r, EXPANSION) then (r, COMPRESSION) are appended |
| StateMachine.ExchangeFails | backend/app/state_machine.py:133-177 | a failed turn leaves ERROR with the error text, after appending at most the expansion |
| StateMachine.PlayRound | backend/app/state_machine.py:124-188 | a round that goes on is ROUND_PROCESSING at the next round number with two new entries |
| StateMachine.PlayRoundFrame | backend/app/state_machine.py:124-188 | a round changes only the state, the history, the round number and the error message, and only appends to the history |
| StateMachine.PlayRoundNext | backend/app/state_machine.py:184-188 | a round that goes on appends (r, EXPANSION) then (r, COMPRESSION) and moves to round r+1 |
| StateMachine.PlayRoundCompletes | backend/app/state_machine.py:180-182 | a round that ends without error was the last one: its two entries and the synthesis are appended, and the session is COMPLETE |
| StateMachine.PlayRoundFails | backend/app/state_machine.py:190-195 | a failed round leaves ERROR with the text, having appended a proper prefix of its entries |
| StateMachine.ScheduleStep | backend/app/state_machine.py:184-188 | the schedule from an earlier round is that round's two entries followed by the schedule from the next |
| StateMachine.RoundsNext | backend/app/state_machine.py:184-188 | a round that goes on is followed by the next round's result, passed through this frame |
| StateMachine.RoundsFrame | backend/app/state_machine.py:115-195 | the rounds change only the state, history, round number and error message, and only append to the history |
| StateMachine.CompletedStep | backend/app/state_machine.py:184-188 | a round that goes on, followed by rounds that succeed, completes the schedule from this round |
| StateMachine.CompletedLast | backend/app/state_machine.py:180-182 | the last round followed by a successful synthesis completes the schedule |
| StateMachine.RoundsComplete | backend/app/state_machine.py:115-242 | without a failure, the rounds append exactly the schedule and end COMPLETE at the last round number |
| StateMachine.FailedStep | backend/app/state_machine.py:184-195 | a round that goes on, followed by rounds that fail, fails within the schedule from this round |
| StateMachine.FailedLast | backend/app/state_machine.py:190-195 | a failed round fails within the schedule |
| StateMachine.RoundsFail | backend/app/state_machine.py:115-242 | after a failure the session is ERROR with the error text, having appended a proper prefix of the schedule |
| StateMachine.OutputsAppend | backend/app/state_machine.py:150-153 | the outputs of a joined trace are the outputs of its parts |
| StateMachine.JournalSave | backend/app/state_machine.py:124-128 | a save that keeps the history keeps the journal invariant |
| StateMachine.JournalTurn | backend/app/state_machine.py:147-153 | an output that is appended, saved and then emitted keeps the journal invariant |
| StateMachine.JournalRefl | backend/app/state_machine.py:115-195 | no effects satisfy the journal invariant trivially |
| StateMachine.EmitsSavedAppend | backend/app/state_machine.py:147-153 | "saved before emitted" survives concatenation |
| StateMachine.SavesOfAppend | backend/app/state_machine.py:147-153 | "saves only this session" survives concatenation |
| StateMachine.JournalAppend | backend/app/state_machine.py:115-195 | two journals in a row compose into one |
| StateMachine.RethrowJournal | backend/app/state_machine.py:190-195 | the extra ERROR save of an outer frame keeps the journal invariant |
| StateMachine.AgentTurnJournal | backend/app/state_machine.py:133-177 | an agent turn emits exactly what it appended, each output saved first |
| StateMachine.ExchangeJournal | backend/app/state_machine.py:133-177 | the exchange emits exactly what it appended, each output saved first |
| StateMachine.SynthesisJournal | backend/app/state_machine.py:219-232 | the synthesis emits exactly what it appended, after saving it |
| StateMachine.LastJournal | backend/app/state_machine.py:180-182 | the synthesis after the last round, seen through that round's frame, keeps the journal invariant |
| StateMachine.PlayRoundJournal | backend/app/state_machine.py:124-195 | a round emits exactly what it appended, each output saved first |
| StateMachine.RoundsJournal | backend/app/state_machine.py:115-195 | whichever way the rounds end, they emit exactly the saved history's new entries, each saved first, and save only this session |
| StateMachine.ClarificationCompletes | backend/app/state_machine.py:94-113 | a successful clarification run ends COMPLETE with the merged prompt, having appended the schedule from round 1: 2·max(1, max_rounds)+1 entries |
| StateMachine.ClarificationFails | backend/app/state_machine.py:94-113 | a failed clarification run ends ERROR with the text and the merged prompt, having appended a proper prefix of the schedule |
| StateMachine.ClarificationThreeRounds | backend/app/state_machine.py:94-113 | with three rounds the outputs are E1 C1 E2 C2 E3 C3, then S0 |
| StateMachine.ClarificationJournal | backend/app/state_machine.py:94-113 | the client is sent exactly the entries the saved history gained, each saved first |
| StateMachine.InitOutcome | backend/app/state_machine.py:55-92 | INIT emits nothing, ends with a save of its final session, and either records the questions (auto-skipping exactly when they contain the sentinel) or fails in ERROR |
| StateMachine.InitModelChoice | backend/app/state_machine.py:32-66 | INIT succeeds exactly when the meta agent and then the clarification agent (with the chosen model) reply; the questions are the latter's reply |
| StateMachine.InitAsWrittenFails | backend/app/state_machine.py:29 | as written, INIT ends ERROR with the missing-attribute text on every session, before any service call |
| StateMachine.InitSucceedsWhenAgentsReply | backend/app/state_machine.py:16-92 | as intended, INIT succeeds whenever both agents reply |
| StateMachine.UnknownModelFailsRound | backend/app/state_machine.py:133-153 | a session whose selected model the client lacks fails its round at the first call, with `repr` of the key (what `str` of a `KeyError` shows) as the text and nothing appended |
| Server.OnOutput | backend/app/main.py:241-279 | round and clarification outputs broadcast their round and agent; a synthesis-handler output is a bare content message |
| Server.OutputMessages | backend/app/main.py:241-279 | one broadcast per output, in order |
| Server.HandlerFacts | backend/app/main.py:223-268 | every handler keeps the id, only appends, emits exactly what it appended, and on success moves down the loop's rank; a failure is ERROR with its text |
| Server.HandlersSound | backend/app/main.py:223-268 | the orchestrator's handlers keep that promise for every handled state |
| Server.TurnOf | backend/app/main.py:223-308 | a loop pass that continues lowers the rank and keeps the session id |
| Server.DriveStep | backend/app/main.py:223-308 | the loop's result is its first pass followed by the rest of the loop |
| Server.DriveEnds | backend/app/main.py:223-308 | the loop ends COMPLETE, ERROR or CLARIFICATION_PENDING, keeps the id, and calls handlers at most twice |
| Server.DriveFails | backend/app/main.py:290-308 | a failing handler ends the loop in ERROR; the last message is the error and no state change is broadcast |
| Server.DriveClarification | backend/app/main.py:256-286 | from CLARIFICATION_COMPLETE a successful run makes one handler call, broadcasts each new entry then the state, and ends COMPLETE |
| Server.DriveSchedule | backend/app/main.py:256-286 | for any sound handler that completes the schedule, the messages are one per new entry and then the state change |
| Server.DriveOnce | backend/app/main.py:256-286 | a successful non-INIT pass that leaves an unhandled state is the whole loop |
| Server.DriveInit | backend/app/main.py:230-239 | with the corrected INIT handler wired in, a successful INIT pass broadcasts the questions and then the state; a PENDING session stops there |
| Server.DriveFirst | backend/app/main.py:230-239 | for any sound handler, a successful INIT pass broadcasts the questions and the state, then the loop goes on from the new state |
| Server.DeliveriesAppend | backend/app/main.py:197-205 | broadcasting two batches delivers the two batches' deliveries in order |
| Server.DeliveriesFacts | backend/app/main.py:197-205 | only the registered socket receives, only broadcast messages; no socket means no delivery; with every send succeeding everything arrives in order |
| Server.SentStep | backend/app/main.py:197-205 | the loop's record of deliveries accumulates batch by batch |
| Server.ReconnectLosesSocket | backend/app/main.py:193-195 | as written, the old socket's cleanup after a reconnect unregisters the new socket |
| Server.ReconnectKeepsSocket | backend/app/main.py:160-161 | as intended, a socket's cleanup removes only its own registration |
| Server.AcceptedAnswersMerged | backend/app/main.py:132-134 | the accepted answers are what the first round merges; the session becomes a handled state of rank 1 |
| Server.Greeting | backend/app/main.py:167-182 | a connecting socket gets the state, then the questions when they are nonempty; an unknown session gets nothing |
| Server.SentUntilFailure | backend/app/main.py:170-182 | messages sent one by one until a send fails arrive as the longest prefix the network accepts, and the send after that prefix is the one that failed |
| Server.Backend.constructor | backend/app/main.py:154-205 | no connections, deliveries or tasks; the handlers are the orchestrator's |
| Server.Backend.Broadcast | backend/app/main.py:197-205 | a broadcast delivers to the registered socket when the send succeeds and drops a failure |
| Server.Backend.BroadcastAll | backend/app/main.py:197-205 | broadcasting a sequence delivers its deliveries in order |
| Server.Backend.Open | backend/app/main.py:154-182 | the socket is registered and receives the greeting up to the first failed send; it stays open exactly when every send succeeds, and otherwise it is unregistered |
| Server.Backend.Close | backend/app/main.py:193-195 | the endpoint's `finally` unregisters the session's socket |
| Server.Backend.InitSession | backend/app/main.py:101-115 | a fresh INIT session is saved with the configured round limit, a task is scheduled, and the id and "INIT" are returned |
| Server.Backend.SubmitClarification | backend/app/main.py:117-141 | 404 for an unknown session, 400 unless it is CLARIFICATION_PENDING; otherwise the answers are saved, the state is CLARIFICATION_COMPLETE and a task is scheduled |
| Server.Backend.Handle | backend/app/main.py:223-268 | the handler result for the session's state, with its session stored |
| Server.Backend.RecordFailure | backend/app/main.py:290-305 | the outer `except` reloads the session, marks it ERROR with the text and saves it |
| Server.Backend.RunTurn | backend/app/main.py:223-308 | one loop pass equals `TurnOf`, with its broadcasts delivered and its final session stored |
| Server.Backend.ProcessBackground | backend/app/main.py:209-308 | a missing session does nothing; otherwise the loop follows `DriveFrom`, storing its final session and delivering its messages |
| ChatHook.Or | src/components/home/useMultiPerspectiveChat.ts:125-127 | `x \|\| fallback`: a truthy string is kept and anything else falls back |
| ChatHook.SetAgent | src/components/home/useMultiPerspectiveChat.ts:139-148 | EXPANSION fills agentA, COMPRESSION fills agentB, any other agent leaves the round as it was |
| ChatHook.UpdateRound | src/components/home/useMultiPerspectiveChat.ts:139-148 | only the rounds with that number change |
| ChatHook.FindAscending | src/components/home/useMultiPerspectiveChat.ts:137 | in ascending rounds, `find` returns the round with that number exactly when there is one |
| ChatHook.InsertMembers | src/components/home/useMultiPerspectiveChat.ts:157 | insertion adds one element and keeps all the others |
| ChatHook.InsertNonDecreasing | src/components/home/useMultiPerspectiveChat.ts:157 | stable insertion keeps the numbers non-decreasing |
| ChatHook.InsertAscending | src/components/home/useMultiPerspectiveChat.ts:157 | inserting a new number keeps the numbers strictly ascending |
| ChatHook.SortSorted | src/components/home/useMultiPerspectiveChat.ts:157 | sorting already sorted rounds changes nothing |
| ChatHook.MergeRoundAscending | src/components/home/useMultiPerspectiveChat.ts:136-158 | the rounds updater keeps them ascending and adds exactly the message's round number |
| ChatHook.SameNumbers | src/components/home/useMultiPerspectiveChat.ts:139-148 | updating agents keeps the round numbers |
| ChatHook.NewRound | src/components/home/useMultiPerspectiveChat.ts:151-157 | appending a new round and sorting is inserting it in order |
| ChatHook.SortFacts | src/components/home/useMultiPerspectiveChat.ts:157 | the sort is non-decreasing and a permutation |
| ChatHook.MergeRoundFind | src/components/home/useMultiPerspectiveChat.ts:136-158 | after the updater, the message's round holds the reply in its agent's slot, on top of what it held, and every other round is unchanged |
| ChatHook.RoundPercentMonotone | src/components/home/useMultiPerspectiveChat.ts:162-166 | round progress lies strictly between the pending and complete percentages and grows with the (round, agent) step |
| ChatHook.RoundPercentCap | src/components/home/useMultiPerspectiveChat.ts:162-166 | progress reaches the 90 % cap exactly from round 5's compression on |
| ChatHook.DigitRun | src/components/home/useMultiPerspectiveChat.ts:130 | `\d+` takes the longest digit prefix |
| ChatHook.StageRoundTrip | src/components/home/useMultiPerspectiveChat.ts:130-131 | the `round_n` stage the hook itself writes for an agent output (line 164) parses back to round n |
| ChatHook.DigitRunAll | src/components/home/useMultiPerspectiveChat.ts:130 | an all-digit string is its own digit run |
| ChatHook.HistoryMessages | src/components/home/useMultiPerspectiveChat.ts:80-85 | one message per history entry, in order |
| ChatHook.HistoryMatchesLive | src/components/home/useMultiPerspectiveChat.ts:80-85 | a refetched history entry reads like the live message the backend broadcast for it; synthesis exactly for the synthesis agent |
| ChatHook.ChatClient.constructor | src/components/home/useMultiPerspectiveChat.ts:58-69 | the hook starts with no session, state INIT, idle progress, no rounds and no socket |
| ChatHook.ChatClient.OnMessage | src/components/home/useMultiPerspectiveChat.ts:100-176 | each message type updates exactly its part of the state; an unknown type changes nothing |
| ChatHook.ChatClient.OnStateChange | src/components/home/useMultiPerspectiveChat.ts:104-122 | the state is set; GENERATING, PENDING and COMPLETE set their progress, and COMPLETE requests the history |
| ChatHook.ChatClient.OnProgress | src/components/home/useMultiPerspectiveChat.ts:123-131 | progress takes the stage, percent and description, with fallbacks; a `round_n` stage sets the current round |
| ChatHook.ChatClient.OnOutput | src/components/home/useMultiPerspectiveChat.ts:132-168 | the message is appended; with a truthy round and agent, the rounds are merged and the round and progress are set |
| ChatHook.ChatClient.OnHistory | src/components/home/useMultiPerspectiveChat.ts:74-91 | a loaded history replaces the messages; a failed fetch changes nothing |
| ChatHook.ChatClient.OnSocketError | src/components/home/useMultiPerspectiveChat.ts:178-180 | a socket error records the connection error text only |
| ChatHook.ChatClient.Reset | src/components/home/useMultiPerspectiveChat.ts:188-197 | the reset clears messages, rounds, round number and error, and sets INIT and the analyzing progress |
| ChatHook.AfterInitFacts | src/components/home/useMultiPerspectiveChat.ts:185-219 | after `initSession` the messages and rounds are empty and one POST more was issued; the error is clear exactly on success, when the socket follows the new session; a failure keeps the old session and socket with state INIT |
| ChatHook.AfterClarifyFacts | src/components/home/useMultiPerspectiveChat.ts:222-241 | submitting answers touches only the requests and the error, POSTs exactly when there is a truthy session id, to that session, and keeps the error on success |
| ChatHook.ChatClient.InitSession | src/components/home/useMultiPerspectiveChat.ts:185-219 | the whole new hook state is `AfterInit` of the old: cleared, POSTed; then the session, state and socket, or the failure text as the error |
| ChatHook.ChatClient.SubmitClarification | src/components/home/useMultiPerspectiveChat.ts:222-241 | the whole new hook state is `AfterClarify` of the old: unchanged without a session; otherwise the answers are POSTed and a failure becomes the error |
| ChatPage.Kept | src/app/chat/page.tsx:23-25 | `filter(Boolean)` keeps no empty strings |
| ChatPage.CnAppend | src/app/chat/page.tsx:23-25 | a falsy class adds nothing and a truthy one is appended with a space; the result is empty exactly when every part is falsy |
| ChatPage.KeptEmpty | src/app/chat/page.tsx:23-25 | the joined classes are empty exactly when no part is truthy |
| ChatPage.ShownFacts | src/app/chat/page.tsx:91-113 | at most one bubble per message, none empty, and no agent bubble while the conversation is hidden |
| ChatPage.DropAgentsAppend | src/app/chat/page.tsx:98-111 | dropping agent bubbles distributes over concatenation |
| ChatPage.HidingDropsAgents | src/app/chat/page.tsx:98-111 | the hidden-conversation feed is the shown feed with the agent bubbles removed |
| ChatPage.FeedShape | src/app/chat/page.tsx:68-117 | with no session: the welcome, then the error if any; with a session: the header first, the error last |
| ChatPage.AlwaysShown | src/app/chat/page.tsx:94-97 | clarifications and syntheses with content show whatever the switch says |
| ChatPage.ProcessingUntilFinal | src/app/chat/page.tsx:151-152 | with a session, the page is processing exactly until COMPLETE or ERROR |
| ChatPage.Lead | src/app/chat/page.tsx:127 | the leading white space counted lies within the string |
| ChatPage.Trail | src/app/chat/page.tsx:127 | the trailing white space counted lies within the string |
| ChatPage.LeadFacts | src/app/chat/page.tsx:127 | the leading run is all white space and stops at a non-space |
| ChatPage.TrailFacts | src/app/chat/page.tsx:127 | the trailing run is all white space and stops at a non-space |
| ChatPage.TrimDrops | src/app/chat/page.tsx:127 | trimming drops only white space, from either end |
| ChatPage.TrimFacts | src/app/chat/page.tsx:127-128 | the trimmed text is empty exactly when the input is all white space; otherwise neither of its ends is white space |
| ChatPage.Page.constructor | src/app/chat/page.tsx:66-152 | the page starts with empty inputs, the conversation hidden and nothing submitted |
| ChatPage.Page.Feed | src/app/chat/page.tsx:68-117 | the loop builds exactly `FeedOf` of the hook's state |
| ChatPage.Page.Start | src/app/chat/page.tsx:126-132 | blank input changes neither the fields nor any of the hook's state; otherwise the inputs are cleared and the hook's state becomes exactly what `initSession` of the trimmed prompt leaves |
| ChatPage.Page.SubmitClarification | src/app/chat/page.tsx:143-149 | blank answers change neither the form nor any of the hook's state; otherwise the form is marked submitted, the field cleared, and the hook's state becomes exactly what `submitClarification` of the trimmed answers leaves |
| ChatPage.Page.StateChanged | src/app/chat/page.tsx:137-141 | leaving CLARIFICATION_PENDING clears the submitted flag |
| Preview.ProgressBounds | src/components/home/PreviewSimulator.tsx:155-172 | progress lies in [0, 1] and is 0 with no script or an empty one |
| Preview.ProgressFull | src/components/home/PreviewSimulator.tsx:155-172 | a fully typed script shows a full bar |
| Preview.CharsPrefix | src/components/home/PreviewSimulator.tsx:158 | the rendered lines' length grows line by line within the total |
| Preview.TotalBound | src/components/home/PreviewSimulator.tsx:158-163 | the conversation typed so far plus the current line stays within the script's total |
| Preview.TypedWithinTotal | src/components/home/PreviewSimulator.tsx:155-172 | the typed characters never exceed the script's total and equal it once done |
| Preview.Share | src/components/home/PreviewSimulator.tsx:171 | a part over a whole lies in [0, 1] and is 1 for the whole |
| Preview.ProgressShare | src/components/home/PreviewSimulator.tsx:155-172 | the bar is the typed share of the script, full once done |
| Preview.Simulator.constructor | src/components/home/PreviewSimulator.tsx:8-21 | nothing is selected, running or pending |
| Preview.Simulator.Stop | src/components/home/PreviewSimulator.tsx:23-27 | as intended, stop cancels whatever is scheduled, frame or pause timer, leaves no orphaned timer, clears `running`, and nothing else changes |
| Preview.Simulator.StopAsWritten | src/components/home/PreviewSimulator.tsx:23-27 | as written, stop empties the slot and clears `running`, but a pause timer held in the slot stays scheduled as an orphan |
| Preview.Simulator.Reset | src/components/home/PreviewSimulator.tsx:29-40 | reset stops with nothing scheduled and no new orphan, keeps the selection, and clears all typed text and counters |
| Preview.Simulator.ResetAsWritten | src/components/home/PreviewSimulator.tsx:29-40 | as written, reset clears the text and counters, but a pause timer it interrupts stays scheduled as an orphan |
| Preview.Simulator.Play | src/components/home/PreviewSimulator.tsx:50-68 | play resets, selects the script, runs and requests the first frame, with no orphaned timer left beside it |
| Preview.Simulator.PlayAsWritten | src/components/home/PreviewSimulator.tsx:50-68 | as written, play during a pause requests the new loop's first frame while the old pause timer stays scheduled, so two loops will tick |
| Preview.Simulator.TimerFired | src/components/home/PreviewSimulator.tsx:60-67 | a pause's timeout requests the next frame and types nothing |
| Preview.Simulator.OrphanFired | src/components/home/PreviewSimulator.tsx:60-63 | an orphaned timer fires and requests a frame although the slot was cleared; nothing is typed yet |
| Preview.Simulator.Tick | src/components/home/PreviewSimulator.tsx:69-146 | a frame types exactly min(inc, remaining) characters of the current segment; `charIndex` advances by `inc` inside it and returns to 0 when the stage moves on. Per stage it fixes the next stage, the line index and what is scheduled: a 180 ms timer after the prompt, a 130 ms timer after a line that is not the last, a 160 ms timer after the agreement, nothing after the response, and a frame otherwise. It is done exactly at the end of the response; otherwise `running` is unchanged |
| Preview.Simulator.TypePrompt | src/components/home/PreviewSimulator.tsx:75-89 | the prompt stage types exactly min(inc, remaining) characters and leaves the line index alone; when the prompt is finished it moves to the conversation after a 180 ms timer, otherwise it requests the next frame |
| Preview.Simulator.TypeLine | src/components/home/PreviewSimulator.tsx:92-115 | a conversation line types exactly min(inc, remaining) characters; a finished line is rendered and the next follows after a 130 ms timer, except that the last moves on to the agreement with a frame |
| Preview.Simulator.FinishLine | src/components/home/PreviewSimulator.tsx:99-111 | a finished line joins the rendered lines; the next line follows after 130 ms, or the agreement starts |
| Preview.Simulator.TypeAgreement | src/components/home/PreviewSimulator.tsx:118-132 | the agreement stage types exactly min(inc, remaining) characters; when finished it moves to the response after a 160 ms timer, otherwise it requests the next frame |
| Preview.Simulator.TypeResponse | src/components/home/PreviewSimulator.tsx:135-146 | the response stage types exactly min(inc, remaining) characters; its last character ends the run with nothing scheduled, otherwise it requests the next frame |
| Preview.ResetDuringPauseAsWritten | src/components/home/PreviewSimulator.tsx:23-67 | as written, a reset during a pause is undone: the orphaned timer fires and its frame types part of the prompt while nothing is running |
| Preview.ResetDuringPause | src/components/home/PreviewSimulator.tsx:23-40 | with the pause timer cleared too, a reset during a pause leaves nothing scheduled and no orphan, so nothing types until the next play |

## Left out

- I/O is modelled by parameters, traces and maps:
  - HTTP to the completion service is the `Service` function.
  - The JSON files are the store's map.
  - WebSocket sends are the `network` predicate and the `sent` log.
  - Browser fetches are the `Response` parameters of the hook's methods.
- `asyncio` scheduling and concurrency are not modelled:
  - A background task is recorded in `tasks` and run by `ProcessBackground`.
  - Two tasks on one session cannot interleave in the model.
- Broadcasts from the handler callbacks are delivered after the handler returns, in the order the handler emitted them. Interleaving with other sockets' traffic is not modelled.
- The meta agent's reply is parsed by a parameter (`parseMeta`). Its JSON grammar is not modelled.
- The meta-prompt builder does not exist in the prompt manager. The as-intended model takes it as a parameter (see Findings).
- Prompt templates keep only their first line and their interpolated values. The fixed instructional text is abbreviated.
- Timestamps and the token accounting into `cost_tracking` are left out: the first needs a clock, and the core never updates the second.
- ModelConfig.CostProperties: stated on exact reals; the source's float arithmetic and its rounding to six decimals are not modelled.
- The 400 response's detail text is "Invalid state: " and the formatted state; `format` of a `str` enum member gives its value or its qualified name, depending on the Python version. The model reduces the detail to the state it reports.
- The WebSocket ping loop, the `/health` and `/diagnose` endpoints, CORS and logging are not modelled.
- The `retry_count` field is never updated by the core and is only initialised.
- `SessionStore.delete` is modelled, but the backend never calls it.
- The client's JSON parse errors in `onmessage` and non-`Error` throws ("Unknown error") are not distinguished from other failures. A malformed message is not a modelled input.
- `NaN` and non-integer rounds from the socket are not modelled: round numbers are integers.
- Closing the previous socket in `connectWebSocket` and the unmount cleanup only reset `socket`.
- The preview's frame timing is left out. `dt`, `cps` and `performance.now()` become the `inc` ≥ 1 parameter.
- Preview.Simulator.Play: requires a script with at least one conversation line. The conversation stage reads the current line's `text` without a check, so on an empty conversation the source throws. The scripts' text (scripts.ts) is not part of this model.
- Preview.Simulator.OrphanFired: models the timer orphaned by `reset`, whose tick types the script that is still selected. A timer orphaned by `play` of another script runs a second tick loop over the old script into the shared counters. Only its scheduling is modelled, by `PlayAsWritten`.
- The rest of the preview model uses the corrected `stop`, which also clears the pause's timeout (see Findings).
- The backend never sends a `progress` message: backend/app/models.py:82-90 lists its message types. The hook's progress branch is modelled as written, for any message.
- The server model wires in the corrected INIT handler, `InitSpec`, which takes the meta-prompt builder as a parameter. As written, every INIT ends in ERROR with an error broadcast (see Findings). The Server rows about INIT describe the corrected pipeline.
- The nested `except` blocks of the recursive `process_round` save ERROR once per frame. This is modelled by `Rethrows`; the repeated saves write the same session.
- Gateway.ErrorText: models `repr` exactly up to U+00FF. Above that, Python also escapes the characters Unicode does not class as printable (separators, format characters, unassigned code points) as `\uXXXX` or `\UXXXXXXXX`. The model keeps every character above U+00FF as it is, because that classification table is not modelled.
- Gateway.AllAttemptsFail: states the list of sleeps; their total is proved separately by `Gateway.BackoffSum`.

## Findings

| source | as written | input that shows it | evidently intended | confidence | as-written member | corrected member |
|---|---|---|---|---|---|---|
| backend/app/state_machine.py:29 | `process_init` calls `prompt_manager.format_meta`, which the prompt manager does not define, so it raises `AttributeError` before any service call | any session in state INIT | the meta agent is asked with a meta prompt, the model choice is saved, then the clarification agent asks | not executed | StateMachine.InitAsWrittenFails | StateMachine.InitSucceedsWhenAgentsReply |
| backend/app/main.py:193-195 | the socket's `finally` deletes `active_connections[session_id]` whatever socket is registered there now | socket A connects, socket B reconnects for the same session, then A disconnects: B is unregistered and no later broadcast reaches it | a socket removes only its own registration | not executed | Server.ReconnectLosesSocket | Server.ReconnectKeepsSocket |
| src/components/home/PreviewSimulator.tsx:23-27 | `stop` cancels `raf.current` with `cancelAnimationFrame`. During a pause the slot holds a `setTimeout` id (lines 60-67), so the timer is not cancelled, and it later requests a frame of the old `tick` | play a script and press Reset during the 180 ms pause after the prompt: the timer fires and the prompt types again although nothing is running; a tile clicked during a pause starts a second loop beside the old one | `stop` also clears the pause's timeout | not executed | Preview.ResetDuringPauseAsWritten | Preview.ResetDuringPause |
