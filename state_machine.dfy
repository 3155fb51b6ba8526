/** The session orchestrator: the INIT, clarification, round and synthesis handlers.
    Each handler updates its copy of the session a field at a time and saves it to the
    store after each change; every output it appends is saved before it is handed to the
    `on_output` callback. A failure inside a handler's `try` sets ERROR with the error text,
    saves and re-raises.

    Each handler is a method tied to a specification function that gives its final
    session, the error it raised (if any) and its trace of saves and emitted outputs. */
module StateMachine {
  import opened Wrappers
  import opened Text
  import opened Models
  import opened Prompts
  import opened Gateway
  import opened Store

  /** What the meta agent's reply parses to: the `model` and `reason` keys, None when absent. */
  datatype MetaReply = MetaReply(model: Option<string>, reason: Option<string>)

  /** What a handler asks the completion service for; `Render` gives the prompt text. */
  datatype Request =
    | MetaPrompt(userPrompt: string)
    | ClarificationPrompt(userPrompt: string)
    | AgentPrompt(agent: AgentType, mergedContext: string, history: seq<RoundOutput>, round: int)
    | SynthesisPrompt(mergedContext: string, history: seq<RoundOutput>)

  /** The prompt manager's text for a request; the meta prompt comes from `formatMeta`. */
  function Render(formatMeta: string -> string, q: Request): string {
    match q
    case MetaPrompt(u) => formatMeta(u)
    case ClarificationPrompt(u) => FormatClarification(u)
    case AgentPrompt(a, m, h, r) => FormatAgentRound(a, m, h, r)
    case SynthesisPrompt(m, h) => FormatSynthesis(m, h)
  }

  /** The collaborators: the meta-reply parser (None when the reply is not a JSON object)
      and `generate`, what one `ollama_client.generate` call gives for a request's prompt
      and a model key. The handlers are stated over any generator; `Wire` builds the one
      the backend uses. */
  datatype Env = Env(
    parseMeta: string -> Option<MetaReply>,
    generate: (Request, string) -> Result<GenResult, GenError>)

  /** The backend's generator: the prompt manager renders the request and the client's retry
      loop (`Gateway.Generate`, specified by `GenerateSpec`) runs it. */
  function Wire(c: Client, service: Service, formatMeta: string -> string): (Request, string) -> Result<GenResult, GenError> {
    (q: Request, key: string) => GenerateSpec(c, service, Render(formatMeta, q), Some(key)).result
  }

  /** What a handler does that others can observe. */
  datatype Effect =
    | Saved(snapshot: SessionData)
    | Emitted(output: RoundOutput)

  /** A handler's final session, the text of the exception it raised, and its effects. */
  datatype Step = Step(session: SessionData, error: Option<string>, trace: seq<Effect>)

  const MetaModelKey: string := "deepseek"
  const DefaultReason: string := "Default fallback"
  const SkipSentinel: string := "NO CLARIFICATION NEEDED"
  const SkipAnswers: string := "None (Clarification skipped - context sufficient)"
  const MissingFormatMeta: string := "'PromptManager' object has no attribute 'format_meta'"

  /** The `except` branch: state ERROR, the error text, a save; the exception propagates. */
  function Fail(s: SessionData, t: seq<Effect>, e: string): (r: Step)
    ensures r.session.state == Error && r.session.errorMessage == Some(e) && r.error == Some(e)
    ensures r.trace == t + [Saved(r.session)]
    ensures r.session.history == s.history && r.session.sessionId == s.sessionId
  {
    var s' := s.(state := Error, errorMessage := Some(e));
    Step(s', Some(e), t + [Saved(s')])
  }

  /** The model choice taken from the meta agent's reply. */
  function ApplyMeta(s: SessionData, reply: Option<MetaReply>): (r: SessionData)
    ensures reply.None? ==> r == s.(selectedModel := MetaModelKey)
    ensures reply.Some? ==>
      (&& r.selectedModel == reply.value.model.GetOr(MetaModelKey)
       && r.modelReasoning == Some(reply.value.reason.GetOr(DefaultReason))
       && r == s.(selectedModel := r.selectedModel, modelReasoning := r.modelReasoning))
  {
    match reply
    case None => s.(selectedModel := MetaModelKey)
    case Some(m) => s.(selectedModel := m.model.GetOr(MetaModelKey), modelReasoning := Some(m.reason.GetOr(DefaultReason)))
  }

  /** The questions recorded, and the auto-skip decision on them. */
  function RecordQuestions(s: SessionData, questions: string): SessionData {
    if Contains(questions, SkipSentinel) then
      s.(clarificationQuestions := Some(questions), clarificationAnswers := Some(SkipAnswers), state := ClarificationComplete)
    else
      s.(clarificationQuestions := Some(questions), state := ClarificationPending)
  }

  /** The second half of `process_init`, after the model choice `s1` was saved: the
      clarification agent asks and its questions are recorded. */
  function AskSpec(env: Env, s1: SessionData): Step {
    var clar := env.generate(ClarificationPrompt(s1.originalUserPrompt), s1.selectedModel);
    if clar.Failure? then Fail(s1, [Saved(s1)], ErrorText(clar.error))
    else
      var s2 := RecordQuestions(s1, clar.value.response);
      Step(s2, None, [Saved(s1), Saved(s2)])
  }

  /** `process_init` as intended: the meta agent picks the model, the clarification agent asks. */
  function InitSpec(env: Env, s: SessionData): Step {
    var meta := env.generate(MetaPrompt(s.originalUserPrompt), MetaModelKey);
    if meta.Failure? then Fail(s, [], ErrorText(meta.error))
    else AskSpec(env, ApplyMeta(s, env.parseMeta(meta.value.response)))
  }

  /** `process_init` as written: the meta prompt builder it calls does not exist, so the
      first statement in the `try` raises and every session ends in ERROR. */
  function InitSpecAsWritten(s: SessionData): Step {
    Fail(s, [], MissingFormatMeta)
  }

  /** An exception passing through an enclosing `process_round` frame: that frame's `except`
      sets the same state and text again and saves once more. */
  function Rethrow(r: Step): Step {
    if r.error.Some? then Step(r.session, r.error, r.trace + [Saved(r.session)]) else r
  }

  function Rethrows(r: Step, frames: nat): Step
    decreases frames
  {
    if frames == 0 then r else Rethrows(Rethrow(r), frames - 1)
  }

  /** `process_synthesis`. */
  function SynthesisSpec(env: Env, s: SessionData, t: seq<Effect>): Step {
    var s0 := s.(state := SynthesisProcessing);
    var t0 := t + [Saved(s0)];
    var g := env.generate(SynthesisPrompt(PyStr(s0.mergedUserPrompt), s0.history), s0.selectedModel);
    if g.Failure? then Fail(s0, t0, ErrorText(g.error))
    else
      var o := NewRoundOutput(0, Synthesis, g.value.response, Some(g.value.tokensGenerated));
      var s1 := s0.(history := s0.history + [o], state := Complete);
      Step(s1, None, t0 + [Saved(s1), Emitted(o)])
  }

  /** How one round of `process_round` ends: with the handler's result (a failure, or the
      synthesis after the last round), or with the session and trace for the next round. */
  datatype RoundEnd = Finished(step: Step) | Next(session: SessionData, trace: seq<Effect>)

  /** One agent's turn in the current round: its prompt is generated, and the output is
      appended to the history, saved and emitted. */
  function AgentTurn(env: Env, s: SessionData, t: seq<Effect>, agent: AgentType): (e: RoundEnd)
    ensures e.Next? ==>
      (&& e.session == s.(history := e.session.history)
       && |e.session.history| == |s.history| + 1
       && e.session.history[..|s.history|] == s.history
       && e.session.history[|s.history|].agent == agent
       && e.session.history[|s.history|].roundNumber == s.currentRound
       && e.trace == t + [Saved(e.session), Emitted(e.session.history[|s.history|])])
    ensures e.Finished? ==> e.step.error.Some? && e.step == Fail(s, t, e.step.error.value)
  {
    var g := env.generate(AgentPrompt(agent, PyStr(s.mergedUserPrompt), s.history, s.currentRound), s.selectedModel);
    if g.Failure? then Finished(Fail(s, t, ErrorText(g.error)))
    else
      var o := NewRoundOutput(s.currentRound, agent, g.value.response, Some(g.value.tokensGenerated));
      var s' := s.(history := s.history + [o]);
      assert s'.history[..|s.history|] == s.history;
      Next(s', t + [Saved(s'), Emitted(o)])
  }

  /** The two agent turns of a round: expansion, then compression. */
  function Exchange(env: Env, s: SessionData, t: seq<Effect>): RoundEnd {
    match AgentTurn(env, s, t, Expansion)
    case Finished(step) => Finished(step)
    case Next(sa, ta) => AgentTurn(env, sa, ta, Compression)
  }

  /** One round: ROUND_PROCESSING is saved, the two agents run, then the round-number test
      picks the synthesis or the next round. */
  function PlayRound(env: Env, s: SessionData, t: seq<Effect>): (e: RoundEnd)
    ensures e.Next? ==>
      (&& s.currentRound < s.maxRounds
       && e.session.currentRound == s.currentRound + 1
       && e.session.maxRounds == s.maxRounds)
  {
    var s0 := s.(state := RoundProcessing);
    match Exchange(env, s0, t + [Saved(s0)])
    case Finished(step) => Finished(step)
    case Next(sb, tb) =>
      if s.currentRound >= s.maxRounds then Finished(Rethrow(SynthesisSpec(env, sb, tb)))
      else
        var sc := sb.(currentRound := s.currentRound + 1);
        Next(sc, tb + [Saved(sc)])
  }

  /** The session a round ends with, whichever way it ends. */
  function RoundSession(e: RoundEnd): SessionData {
    if e.Next? then e.session else e.step.session
  }

  /** The trace a round ends with, whichever way it ends. */
  function RoundTrace(e: RoundEnd): seq<Effect> {
    if e.Next? then e.trace else e.step.trace
  }

  /** `process_round` from `s.current_round` on, recursing into the next round. */
  function RoundsSpec(env: Env, s: SessionData, t: seq<Effect>): Step
    decreases s.maxRounds - s.currentRound
  {
    match PlayRound(env, s, t)
    case Finished(step) => step
    case Next(s', t') => Rethrow(RoundsSpec(env, s', t'))
  }

  /** The session `process_clarification` hands to the first round. */
  function Merged(s: SessionData): SessionData {
    s.(mergedUserPrompt := Some(MergeContext(s.originalUserPrompt, PyStr(s.clarificationAnswers))),
       state := ClarificationComplete, currentRound := 1)
  }

  /** `process_clarification`: merge, save, then run the rounds. */
  function ClarificationSpec(env: Env, s: SessionData): Step {
    RoundsSpec(env, Merged(s), [Saved(Merged(s))])
  }

  /** The snapshots in a trace all belong to session `id`. */
  predicate SavesOf(t: seq<Effect>, id: string) {
    forall i :: 0 <= i < |t| && t[i].Saved? ==> t[i].snapshot.sessionId == id
  }

  class Orchestrator {
    const env: Env
    const store: SessionStore

    constructor(env: Env, store: SessionStore)
      ensures this.env == env && this.store == store
    {
      this.env := env;
      this.store := store;
    }

    /** `await session_store.save(session)`, recorded in the trace. */
    method Persist(s: SessionData, t: seq<Effect>) returns (t': seq<Effect>)
      requires store.Valid()
      modifies store
      ensures store.Valid()
      ensures store.files == old(store.files)[FilePath(store.storagePath, s.sessionId) := s]
      ensures t' == t + [Saved(s)]
    {
      store.Save(s);
      t' := t + [Saved(s)];
    }

    /** The `except` branch of a handler. */
    method Abort(s: SessionData, t: seq<Effect>, e: string) returns (r: Step)
      requires store.Valid()
      modifies store
      ensures store.Valid()
      ensures r == Fail(s, t, e)
      ensures store.files == old(store.files)[FilePath(store.storagePath, s.sessionId) := r.session]
    {
      var s' := s.(state := Error);
      s' := s'.(errorMessage := Some(e));
      var t' := Persist(s', t);
      r := Step(s', Some(e), t');
    }

    /** The saves made while an exception unwinds through `frames` enclosing round frames. */
    method Unwind(r0: Step, frames: nat) returns (r: Step)
      requires store.Valid()
      modifies store
      ensures store.Valid()
      ensures r == Rethrows(r0, frames)
      ensures r.session == r0.session
      ensures r0.error.None? || frames == 0 ==> store.files == old(store.files)
      ensures r0.error.Some? && frames > 0 ==>
        store.files == old(store.files)[FilePath(store.storagePath, r0.session.sessionId) := r0.session]
    {
      r := Rethrows(r0, frames);
      if r0.error.None? {
        RethrowsNoError(r0, frames);
        return;
      }
      var cur := r0;
      var k: nat := frames;
      while k > 0
        invariant store.Valid()
        invariant Rethrows(cur, k) == r && cur.session == r0.session && cur.error == r0.error
        invariant k == frames ==> store.files == old(store.files)
        invariant k < frames ==> store.files == old(store.files)[FilePath(store.storagePath, r0.session.sessionId) := r0.session]
        decreases k
      {
        var t' := Persist(cur.session, cur.trace);
        cur := Step(cur.session, cur.error, t');
        k := k - 1;
      }
    }

    /** `process_init` as intended. */
    method ProcessInit(s: SessionData) returns (r: Step)
      requires store.Valid()
      modifies store
      ensures store.Valid()
      ensures r == InitSpec(env, s)
      ensures store.files == old(store.files)[FilePath(store.storagePath, s.sessionId) := r.session]
    {
      var meta := env.generate(MetaPrompt(s.originalUserPrompt), MetaModelKey);
      if meta.Failure? {
        r := Abort(s, [], ErrorText(meta.error));
        return;
      }
      var cur := ApplyMeta(s, env.parseMeta(meta.value.response));
      var trace := Persist(cur, []);
      r := Ask(cur, trace);
      SaveTwice(old(store.files), FilePath(store.storagePath, s.sessionId), cur, r.session);
    }

    /** The clarification half of `process_init`, after the model choice `s1` was saved. */
    method Ask(s1: SessionData, t: seq<Effect>) returns (r: Step)
      requires store.Valid() && t == [Saved(s1)]
      modifies store
      ensures store.Valid()
      ensures r == AskSpec(env, s1)
      ensures store.files == old(store.files)[FilePath(store.storagePath, s1.sessionId) := r.session]
    {
      var clar := env.generate(ClarificationPrompt(s1.originalUserPrompt), s1.selectedModel);
      if clar.Failure? {
        r := Abort(s1, t, ErrorText(clar.error));
        return;
      }
      var questions := clar.value.response;
      var cur := s1.(clarificationQuestions := Some(questions));
      if Contains(questions, SkipSentinel) {
        cur := cur.(clarificationAnswers := Some(SkipAnswers));
        cur := cur.(state := ClarificationComplete);
      } else {
        cur := cur.(state := ClarificationPending);
      }
      var trace := Persist(cur, t);
      r := Step(cur, None, trace);
    }

    /** `process_init` as written: the missing meta prompt builder raises at once. */
    method ProcessInitAsWritten(s: SessionData) returns (r: Step)
      requires store.Valid()
      modifies store
      ensures store.Valid()
      ensures r == InitSpecAsWritten(s)
      ensures store.files == old(store.files)[FilePath(store.storagePath, s.sessionId) := r.session]
    {
      r := Abort(s, [], MissingFormatMeta);
    }

    /** `process_synthesis`, continuing the trace `t`. */
    method RunSynthesis(s: SessionData, t: seq<Effect>) returns (r: Step)
      requires store.Valid()
      modifies store
      ensures store.Valid()
      ensures r == SynthesisSpec(env, s, t)
      ensures store.files == old(store.files)[FilePath(store.storagePath, s.sessionId) := r.session]
    {
      var cur := s.(state := SynthesisProcessing);
      var trace := Persist(cur, t);
      var g := env.generate(SynthesisPrompt(PyStr(cur.mergedUserPrompt), cur.history), cur.selectedModel);
      if g.Failure? {
        r := Abort(cur, trace, ErrorText(g.error));
        return;
      }
      var o := NewRoundOutput(0, Synthesis, g.value.response, Some(g.value.tokensGenerated));
      cur := cur.(history := cur.history + [o]);
      cur := cur.(state := Complete);
      trace := Persist(cur, trace);
      trace := trace + [Emitted(o)];
      r := Step(cur, None, trace);
    }

    /** `process_synthesis`. */
    method ProcessSynthesis(s: SessionData) returns (r: Step)
      requires store.Valid()
      modifies store
      ensures store.Valid()
      ensures r == SynthesisSpec(env, s, [])
      ensures store.files == old(store.files)[FilePath(store.storagePath, s.sessionId) := r.session]
    {
      r := RunSynthesis(s, []);
    }

    /** One agent's turn: generate, append, save, emit. */
    method RunAgent(s: SessionData, t: seq<Effect>, agent: AgentType) returns (e: RoundEnd)
      requires store.Valid()
      modifies store
      ensures store.Valid()
      ensures e == AgentTurn(env, s, t, agent)
      ensures store.files == old(store.files)[FilePath(store.storagePath, s.sessionId) := RoundSession(e)]
    {
      var g := env.generate(AgentPrompt(agent, PyStr(s.mergedUserPrompt), s.history, s.currentRound), s.selectedModel);
      if g.Failure? {
        var failed := Abort(s, t, ErrorText(g.error));
        return Finished(failed);
      }
      var o := NewRoundOutput(s.currentRound, agent, g.value.response, Some(g.value.tokensGenerated));
      var cur := s.(history := s.history + [o]);
      var trace := Persist(cur, t);
      trace := trace + [Emitted(o)];
      return Next(cur, trace);
    }

    /** The expansion and compression turns of a round. */
    method RunExchange(s: SessionData, t: seq<Effect>) returns (e: RoundEnd)
      requires store.Valid()
      modifies store
      ensures store.Valid()
      ensures e == Exchange(env, s, t)
      ensures store.files == old(store.files)[FilePath(store.storagePath, s.sessionId) := RoundSession(e)]
      ensures RoundSession(e).sessionId == s.sessionId
    {
      ghost var m0 := store.files;
      ghost var p := FilePath(store.storagePath, s.sessionId);
      var ea := RunAgent(s, t, Expansion);
      if ea.Finished? {
        return ea;
      }
      e := RunAgent(ea.session, ea.trace, Compression);
      SaveTwice(m0, p, ea.session, RoundSession(e));
    }

    /** One round of `process_round`, up to its test of the round number. */
    method RunRound(s: SessionData, t: seq<Effect>) returns (e: RoundEnd)
      requires store.Valid()
      modifies store
      ensures store.Valid()
      ensures e == PlayRound(env, s, t)
      ensures store.files == old(store.files)[FilePath(store.storagePath, s.sessionId) := RoundSession(e)]
      ensures RoundSession(e).sessionId == s.sessionId
    {
      ghost var m0 := store.files;
      ghost var p := FilePath(store.storagePath, s.sessionId);
      var c0 := s.(state := RoundProcessing);
      var t0 := Persist(c0, t);
      var eb := RunExchange(c0, t0);
      SaveTwice(m0, p, c0, RoundSession(eb));
      if eb.Finished? {
        return eb;
      }
      if s.currentRound >= s.maxRounds {
        var done := RunSynthesis(eb.session, eb.trace);
        SaveTwice(m0, p, eb.session, done.session);
        var unwound := Unwind(done, 1);
        SaveTwice(m0, p, done.session, unwound.session);
        return Finished(unwound);
      }
      var next := eb.session.(currentRound := s.currentRound + 1);
      var tn := Persist(next, eb.trace);
      SaveTwice(m0, p, eb.session, next);
      return Next(next, tn);
    }

    /** The rounds from `s.current_round` on: the self-recursion of `process_round` as a loop
        over the round number; `frames` counts the round frames an exception unwinds through. */
    method RunRounds(s: SessionData, t: seq<Effect>) returns (r: Step)
      requires store.Valid()
      modifies store
      ensures store.Valid()
      ensures r == RoundsSpec(env, s, t)
      ensures store.files == old(store.files)[FilePath(store.storagePath, s.sessionId) := r.session]
    {
      var cur := s;
      var trace := t;
      var frames: nat := 0;
      while true
        invariant store.Valid()
        invariant cur.sessionId == s.sessionId
        invariant Rethrows(RoundsSpec(env, cur, trace), frames) == RoundsSpec(env, s, t)
        invariant frames == 0 ==> store.files == old(store.files)
        invariant frames > 0 ==> store.files == old(store.files)[FilePath(store.storagePath, s.sessionId) := cur]
        decreases cur.maxRounds - cur.currentRound
      {
        var e := RunRound(cur, trace);
        match e {
          case Finished(step) =>
            SaveTwice(old(store.files), FilePath(store.storagePath, s.sessionId), cur, step.session);
            r := Unwind(step, frames);
            RethrowsSession(step, frames);
            SaveTwice(old(store.files), FilePath(store.storagePath, s.sessionId), step.session, step.session);
            return;
          case Next(next, t') =>
            SaveTwice(old(store.files), FilePath(store.storagePath, s.sessionId), cur, next);
            cur := next;
            trace := t';
            frames := frames + 1;
        }
      }
    }

    /** `process_round`. */
    method ProcessRound(s: SessionData) returns (r: Step)
      requires store.Valid()
      modifies store
      ensures store.Valid()
      ensures r == RoundsSpec(env, s, [])
      ensures store.files == old(store.files)[FilePath(store.storagePath, s.sessionId) := r.session]
    {
      r := RunRounds(s, []);
    }

    /** `process_clarification`: merge the answers, start round 1, save, run the rounds. */
    method ProcessClarification(s: SessionData) returns (r: Step)
      requires store.Valid()
      modifies store
      ensures store.Valid()
      ensures r == ClarificationSpec(env, s)
      ensures store.files == old(store.files)[FilePath(store.storagePath, s.sessionId) := r.session]
    {
      var cur := s.(mergedUserPrompt := Some(MergeContext(s.originalUserPrompt, PyStr(s.clarificationAnswers))));
      cur := cur.(state := ClarificationComplete);
      cur := cur.(currentRound := 1);
      assert cur == Merged(s);
      var trace := Persist(cur, []);
      assert trace == [Saved(Merged(s))];
      r := RunRounds(cur, trace);
      SaveTwice(old(store.files), FilePath(store.storagePath, s.sessionId), cur, r.session);
    }
  }

  lemma {:induction false} RethrowsNoError(r: Step, frames: nat)
    requires r.error.None?
    ensures Rethrows(r, frames) == r
    decreases frames
  {
    if frames > 0 {
      RethrowsNoError(r, frames - 1);
    }
  }

  lemma {:induction false} RethrowsSession(r: Step, frames: nat)
    ensures Rethrows(r, frames).session == r.session && Rethrows(r, frames).error == r.error
    decreases frames
  {
    if frames > 0 {
      RethrowsSession(Rethrow(r), frames - 1);
    }
  }

  // ---------------------------------------------------------------------------------------
  // Properties of the handlers

  /** `s'` differs from `s` at most in the fields the round and synthesis handlers write. */
  predicate SameSession(s: SessionData, s': SessionData) {
    s' == s.(state := s'.state, history := s'.history, currentRound := s'.currentRound, errorMessage := s'.errorMessage)
  }

  /** `b` is `a` with entries appended. */
  predicate Extends<T(==)>(a: seq<T>, b: seq<T>) {
    |a| <= |b| && b[..|a|] == a
  }

  /** The (round number, agent) pairs of a history, in order. */
  function Shape(h: seq<RoundOutput>): (sh: seq<(int, AgentType)>)
    ensures |sh| == |h|
    ensures forall i :: 0 <= i < |h| ==> sh[i] == (h[i].roundNumber, h[i].agent)
  {
    if |h| == 0 then [] else Shape(h[..|h| - 1]) + [(h[|h| - 1].roundNumber, h[|h| - 1].agent)]
  }

  /** The entries the rounds from `from` on append when nothing fails: an expansion and a
      compression entry per round, then one synthesis entry numbered 0. The first round
      always runs; another follows while the round number is below `last`. */
  function Schedule(from: int, last: int): seq<(int, AgentType)>
    decreases last - from
  {
    [(from, Expansion), (from, Compression)] + (if from >= last then [(0, Synthesis)] else Schedule(from + 1, last))
  }

  /** The round number the rounds from `s` end at. */
  function LastRound(s: SessionData): int {
    if s.currentRound >= s.maxRounds then s.currentRound else s.maxRounds
  }

  /** The length of the schedule: two entries per round and one for the synthesis. */
  lemma {:induction false} ScheduleLength(from: int, last: int)
    ensures |Schedule(from, last)| == 2 * (LastRoundFrom(from, last) - from + 1) + 1
    decreases last - from
  {
    if from < last {
      ScheduleLength(from + 1, last);
    }
  }

  /** The round number the rounds from round `from` end at. */
  function LastRoundFrom(from: int, last: int): int {
    if from >= last then from else last
  }

  /** Entry `2k` is round `from + k`'s expansion and entry `2k + 1` its compression. */
  lemma {:induction false} ScheduleRound(from: int, last: int, k: nat)
    requires k <= LastRoundFrom(from, last) - from
    ensures |Schedule(from, last)| > 2 * k + 1
    ensures Schedule(from, last)[2 * k] == (from + k, Expansion)
    ensures Schedule(from, last)[2 * k + 1] == (from + k, Compression)
    decreases k
  {
    if k > 0 {
      ScheduleRound(from + 1, last, k - 1);
      var rest := Schedule(from + 1, last);
      assert Schedule(from, last) == [(from, Expansion), (from, Compression)] + rest;
    }
  }

  /** The last entry of the schedule is the synthesis, numbered 0. */
  lemma {:induction false} ScheduleEnd(from: int, last: int)
    ensures |Schedule(from, last)| > 0
    ensures Schedule(from, last)[|Schedule(from, last)| - 1] == (0, Synthesis)
    decreases last - from
  {
    if from < last {
      ScheduleEnd(from + 1, last);
    }
  }

  /** Appending in two steps appends the two pieces in order. */
  lemma Grow(a: seq<RoundOutput>, b: seq<RoundOutput>, c: seq<RoundOutput>)
    requires Extends(a, b) && Extends(b, c)
    ensures Extends(a, c)
    ensures Shape(c[|a|..]) == Shape(b[|a|..]) + Shape(c[|b|..])
  {
    assert c[|a|..] == b[|a|..] + c[|b|..];
  }

  /** What one agent's turn does to the session, as a fact about `AgentTurn`. */
  lemma AgentTurnFacts(env: Env, s: SessionData, t: seq<Effect>, agent: AgentType)
    ensures var e := AgentTurn(env, s, t, agent);
      e.Next? ==>
        (&& SameSession(s, e.session) && e.session.state == s.state && e.session.currentRound == s.currentRound
         && e.session.errorMessage == s.errorMessage
         && Extends(s.history, e.session.history)
         && Shape(e.session.history[|s.history|..]) == [(s.currentRound, agent)])
  {
    var e := AgentTurn(env, s, t, agent);
    if e.Next? {
      assert e.session.history[|s.history|..] == [e.session.history[|s.history|]];
    }
  }

  /** `process_synthesis` appends exactly the entry `(0, SYNTHESIS)` and ends COMPLETE, or
      ends in ERROR with the error text and the history it was given. */
  lemma SynthesisFacts(env: Env, s: SessionData, t: seq<Effect>)
    ensures var r := SynthesisSpec(env, s, t);
      && SameSession(s, r.session) && r.session.currentRound == s.currentRound
      && Extends(s.history, r.session.history)
      && (r.error.None? ==>
            r.session.state == Complete && r.session.errorMessage == s.errorMessage
            && Shape(r.session.history[|s.history|..]) == [(0, Synthesis)])
      && (r.error.Some? ==>
            r.session.state == Error && r.session.errorMessage == r.error && r.session.history == s.history)
  {
    var r := SynthesisSpec(env, s, t);
    if r.error.None? {
      assert r.session.history[|s.history|..] == [r.session.history[|s.history|]];
    }
  }

  /** Both agent turns succeed: `(r, EXPANSION)` then `(r, COMPRESSION)` are appended and
      nothing else changes. */
  lemma ExchangeNext(env: Env, s: SessionData, t: seq<Effect>)
    requires Exchange(env, s, t).Next?
    ensures var n := Exchange(env, s, t).session;
      && n == s.(history := n.history)
      && Extends(s.history, n.history)
      && Shape(n.history[|s.history|..]) == [(s.currentRound, Expansion), (s.currentRound, Compression)]
  {
    var ea := AgentTurn(env, s, t, Expansion);
    AgentTurnFacts(env, s, t, Expansion);
    AgentTurnFacts(env, ea.session, ea.trace, Compression);
    Grow(s.history, ea.session.history, Exchange(env, s, t).session.history);
  }

  /** A failed agent turn leaves ERROR with the error text, after appending at most the
      expansion entry. */
  lemma ExchangeFails(env: Env, s: SessionData, t: seq<Effect>)
    requires Exchange(env, s, t).Finished?
    ensures var r := Exchange(env, s, t).step;
      && r.error.Some? && r.session == s.(state := Error, errorMessage := r.error, history := r.session.history)
      && Extends(s.history, r.session.history) && |r.session.history| - |s.history| < 2
      && Shape(r.session.history[|s.history|..]) == [(s.currentRound, Expansion)][..|r.session.history| - |s.history|]
  {
    var ea := AgentTurn(env, s, t, Expansion);
    AgentTurnFacts(env, s, t, Expansion);
    if ea.Finished? {
      assert ea.step.session.history[|s.history|..] == [];
    }
  }

  /** A round changes nothing but state, history, round number and error message; it only
      appends to the history, and it advances the round number exactly when it goes on. */
  lemma PlayRoundFrame(env: Env, s: SessionData, t: seq<Effect>)
    ensures var e := PlayRound(env, s, t);
      && SameSession(s, RoundSession(e)) && Extends(s.history, RoundSession(e).history)
      && RoundSession(e).currentRound == if e.Next? then s.currentRound + 1 else s.currentRound
  {
    var s0 := s.(state := RoundProcessing);
    var t0 := t + [Saved(s0)];
    var eb := Exchange(env, s0, t0);
    if eb.Next? {
      ExchangeNext(env, s0, t0);
      if s.currentRound >= s.maxRounds {
        SynthesisFacts(env, eb.session, eb.trace);
        Grow(s.history, eb.session.history, SynthesisSpec(env, eb.session, eb.trace).session.history);
      }
    } else {
      ExchangeFails(env, s0, t0);
    }
  }

  /** `f` is `s` after a round that goes on: still ROUND_PROCESSING, the error message
      untouched, and `(r, EXPANSION)` then `(r, COMPRESSION)` appended. */
  predicate WentOn(s: SessionData, f: SessionData) {
    && f.state == RoundProcessing && f.errorMessage == s.errorMessage
    && Extends(s.history, f.history)
    && Shape(f.history[|s.history|..]) == [(s.currentRound, Expansion), (s.currentRound, Compression)]
  }

  /** `f` is `s` after its last round and the synthesis: COMPLETE, the error message
      untouched, and the round's two entries then `(0, SYNTHESIS)` appended. */
  predicate FinishedLast(s: SessionData, f: SessionData) {
    && s.currentRound >= s.maxRounds && f.currentRound == s.currentRound
    && f.state == Complete && f.errorMessage == s.errorMessage
    && Extends(s.history, f.history)
    && Shape(f.history[|s.history|..]) == [(s.currentRound, Expansion), (s.currentRound, Compression), (0, Synthesis)]
  }

  /** `f` is `s` after a round that failed with `err`: ERROR with that text, and a proper
      prefix of the round's two entries and the synthesis entry appended. */
  predicate FailedRound(s: SessionData, f: SessionData, err: Option<string>) {
    && f.state == Error && f.errorMessage == err
    && Extends(s.history, f.history) && |f.history| - |s.history| < 3
    && Shape(f.history[|s.history|..])
       == [(s.currentRound, Expansion), (s.currentRound, Compression), (0, Synthesis)][..|f.history| - |s.history|]
  }

  /** A round that goes on to the next one appends `(r, EXPANSION)` then `(r, COMPRESSION)`. */
  lemma PlayRoundNext(env: Env, s: SessionData, t: seq<Effect>)
    requires PlayRound(env, s, t).Next?
    ensures WentOn(s, PlayRound(env, s, t).session)
  {
    var s0 := s.(state := RoundProcessing);
    ExchangeNext(env, s0, t + [Saved(s0)]);
  }

  /** A round that ends the handler without an error is the last one: its two entries and
      then the synthesis entry are appended, and the session is COMPLETE. */
  lemma PlayRoundCompletes(env: Env, s: SessionData, t: seq<Effect>)
    requires PlayRound(env, s, t).Finished? && PlayRound(env, s, t).step.error.None?
    ensures FinishedLast(s, PlayRound(env, s, t).step.session)
  {
    var s0 := s.(state := RoundProcessing);
    var t0 := t + [Saved(s0)];
    var eb := Exchange(env, s0, t0);
    if eb.Finished? {
      ExchangeFails(env, s0, t0);
    } else {
      ExchangeNext(env, s0, t0);
      SynthesisFacts(env, eb.session, eb.trace);
      Grow(s.history, eb.session.history, SynthesisSpec(env, eb.session, eb.trace).session.history);
    }
  }

  /** A round that fails leaves ERROR with the error text, and has appended a proper prefix
      of its two entries and the synthesis entry. */
  lemma PlayRoundFails(env: Env, s: SessionData, t: seq<Effect>)
    requires PlayRound(env, s, t).Finished? && PlayRound(env, s, t).step.error.Some?
    ensures FailedRound(s, PlayRound(env, s, t).step.session, PlayRound(env, s, t).step.error)
  {
    var s0 := s.(state := RoundProcessing);
    var t0 := t + [Saved(s0)];
    var eb := Exchange(env, s0, t0);
    var r := s.currentRound;
    if eb.Finished? {
      ExchangeFails(env, s0, t0);
      var n := |eb.step.session.history| - |s.history|;
      assert [(r, Expansion), (r, Compression), (0, Synthesis)][..n] == [(r, Expansion)][..n];
    } else {
      ExchangeNext(env, s0, t0);
      SynthesisFacts(env, eb.session, eb.trace);
      assert [(r, Expansion), (r, Compression), (0, Synthesis)][..2] == [(r, Expansion), (r, Compression)];
    }
  }

  /** A prefix of `a` behind `p` is a prefix of `p + a`. */
  lemma PrefixAppend<T>(p: seq<T>, a: seq<T>, k: nat)
    requires k <= |a|
    ensures p + a[..k] == (p + a)[..|p| + k]
  {
  }

  lemma ScheduleStep(from: int, last: int)
    requires from < last
    ensures Schedule(from, last) == [(from, Expansion), (from, Compression)] + Schedule(from + 1, last)
  {
  }

  /** `RoundsSpec` at a round that goes on: the next round's result, passed through this
      round's frame. */
  lemma RoundsNext(env: Env, s: SessionData, t: seq<Effect>)
    requires PlayRound(env, s, t).Next?
    ensures var e := PlayRound(env, s, t);
      RoundsSpec(env, s, t) == Rethrow(RoundsSpec(env, e.session, e.trace))
  {
  }

  /** The rounds from `s` on change nothing but state, history, round number and error
      message; the history is only appended to, and the round number stays between the
      first and the last round. */
  lemma {:induction false} RoundsFrame(env: Env, s: SessionData, t: seq<Effect>)
    ensures var f := RoundsSpec(env, s, t).session;
      && SameSession(s, f) && Extends(s.history, f.history)
      && s.currentRound <= f.currentRound <= LastRound(s)
    decreases s.maxRounds - s.currentRound
  {
    PlayRoundFrame(env, s, t);
    var e := PlayRound(env, s, t);
    if e.Next? {
      RoundsNext(env, s, t);
      RoundsFrame(env, e.session, e.trace);
      Grow(s.history, e.session.history, RoundsSpec(env, e.session, e.trace).session.history);
    }
  }

  /** `f` is `s` after the rounds from `s` on have all succeeded: COMPLETE at the last
      round, the error message untouched, and exactly the schedule's entries appended. */
  predicate CompletedFrom(s: SessionData, f: SessionData) {
    && f.state == Complete && f.errorMessage == s.errorMessage && f.currentRound == LastRound(s)
    && Extends(s.history, f.history)
    && Shape(f.history[|s.history|..]) == Schedule(s.currentRound, s.maxRounds)
  }

  /** A round that goes on, followed by rounds that all succeed, is the schedule from one
      round earlier. */
  lemma CompletedStep(s: SessionData, n: SessionData, f: SessionData)
    requires s.currentRound < s.maxRounds && n.currentRound == s.currentRound + 1 && n.maxRounds == s.maxRounds
    requires WentOn(s, n) && CompletedFrom(n, f)
    ensures CompletedFrom(s, f)
  {
    Grow(s.history, n.history, f.history);
    ScheduleStep(s.currentRound, s.maxRounds);
  }

  /** The last round followed by a successful synthesis is the whole schedule. */
  lemma CompletedLast(s: SessionData, f: SessionData)
    requires FinishedLast(s, f)
    ensures CompletedFrom(s, f)
  {
  }

  /** Without a failure, the rounds from `s` on append exactly the schedule's entries and
      end COMPLETE at the last round, with the error message untouched. */
  lemma {:induction false} RoundsComplete(env: Env, s: SessionData, t: seq<Effect>)
    requires RoundsSpec(env, s, t).error.None?
    ensures CompletedFrom(s, RoundsSpec(env, s, t).session)
    decreases s.maxRounds - s.currentRound
  {
    var e := PlayRound(env, s, t);
    if e.Next? {
      PlayRoundNext(env, s, t);
      RoundsNext(env, s, t);
      RoundsComplete(env, e.session, e.trace);
      CompletedStep(s, e.session, RoundsSpec(env, e.session, e.trace).session);
    } else {
      PlayRoundCompletes(env, s, t);
      CompletedLast(s, e.step.session);
    }
  }

  /** `r` ends the rounds from `s` with a failure: ERROR with the error text, and a proper
      prefix of the schedule's entries appended. */
  predicate FailedFrom(s: SessionData, r: Step) {
    && r.session.state == Error && r.session.errorMessage == r.error
    && Extends(s.history, r.session.history)
    && var added := Shape(r.session.history[|s.history|..]);
       var full := Schedule(s.currentRound, s.maxRounds);
       |added| < |full| && added == full[..|added|]
  }

  /** A round that goes on, followed by rounds that fail, fails within the schedule from
      one round earlier. */
  lemma FailedStep(s: SessionData, n: SessionData, r: Step)
    requires s.currentRound < s.maxRounds && n.currentRound == s.currentRound + 1 && n.maxRounds == s.maxRounds
    requires WentOn(s, n) && FailedFrom(n, r)
    ensures FailedFrom(s, r)
  {
    var cr := s.currentRound;
    var head := [(cr, Expansion), (cr, Compression)];
    var later := Shape(r.session.history[|n.history|..]);
    var rest := Schedule(cr + 1, s.maxRounds);
    var added := Shape(r.session.history[|s.history|..]);
    assert Extends(s.history, r.session.history) && added == head + later by {
      Grow(s.history, n.history, r.session.history);
    }
    assert Schedule(cr, s.maxRounds) == head + rest by {
      ScheduleStep(cr, s.maxRounds);
    }
    PrefixBelow(head, later, rest);
  }

  lemma PrefixBelow<T>(head: seq<T>, later: seq<T>, rest: seq<T>)
    requires |later| < |rest| && later == rest[..|later|]
    ensures |head + later| < |head + rest| && head + later == (head + rest)[..|head + later|]
  {
    PrefixAppend(head, rest, |later|);
  }

  /** A round that fails fails within the schedule. */
  lemma FailedLast(s: SessionData, r: Step)
    requires FailedRound(s, r.session, r.error)
    ensures FailedFrom(s, r)
  {
    var cr := s.currentRound;
    var n := |r.session.history| - |s.history|;
    var head := [(cr, Expansion), (cr, Compression), (0, Synthesis)];
    if cr < s.maxRounds {
      ScheduleStep(cr, s.maxRounds);
      assert Schedule(cr, s.maxRounds)[..n] == head[..n];
    } else {
      assert Schedule(cr, s.maxRounds) == head;
    }
  }

  /** After a failure, the session is ERROR with the error text, and the history has gained
      a proper prefix of the schedule's entries. */
  lemma {:induction false} RoundsFail(env: Env, s: SessionData, t: seq<Effect>)
    requires RoundsSpec(env, s, t).error.Some?
    ensures FailedFrom(s, RoundsSpec(env, s, t))
    decreases s.maxRounds - s.currentRound
  {
    var e := PlayRound(env, s, t);
    if e.Next? {
      PlayRoundNext(env, s, t);
      RoundsNext(env, s, t);
      RoundsFail(env, e.session, e.trace);
      FailedStep(s, e.session, RoundsSpec(env, e.session, e.trace));
    } else {
      PlayRoundFails(env, s, t);
      FailedLast(s, e.step);
    }
  }

  // ---------------------------------------------------------------------------------------
  // What the handlers save and emit

  /** The outputs a trace hands to `on_output`, in order. */
  function Outputs(u: seq<Effect>): seq<RoundOutput> {
    if |u| == 0 then []
    else Outputs(u[..|u| - 1]) + (if u[|u| - 1].Emitted? then [u[|u| - 1].output] else [])
  }

  lemma {:induction false} OutputsAppend(a: seq<Effect>, b: seq<Effect>)
    ensures Outputs(a + b) == Outputs(a) + Outputs(b)
    decreases |b|
  {
    if |b| > 0 {
      var b' := b[..|b| - 1];
      assert (a + b)[..|a + b| - 1] == a + b';
      OutputsAppend(a, b');
    } else {
      assert a + b == a;
    }
  }

  /** Every emitted output was saved first: the effect before it is a save of a snapshot
      whose history ends with that output. */
  predicate EmitsSaved(u: seq<Effect>) {
    forall i :: 0 <= i < |u| && u[i].Emitted? ==>
      i > 0 && u[i - 1].Saved? && |u[i - 1].snapshot.history| > 0
      && u[i - 1].snapshot.history[|u[i - 1].snapshot.history| - 1] == u[i].output
  }

  /** Going from session `s` with trace `t` to session `f` with trace `t'`, the effects
      added save only this session, save every output before emitting it, and emit exactly
      the entries appended to the history. */
  predicate Journal(s: SessionData, t: seq<Effect>, f: SessionData, t': seq<Effect>) {
    && f.sessionId == s.sessionId
    && Extends(t, t') && Extends(s.history, f.history)
    && Outputs(t'[|t|..]) == f.history[|s.history|..]
    && SavesOf(t'[|t|..], s.sessionId) && EmitsSaved(t'[|t|..])
  }

  /** A save that leaves the history as it is. */
  lemma JournalSave(s: SessionData, t: seq<Effect>, f: SessionData)
    requires f.sessionId == s.sessionId && f.history == s.history
    ensures Journal(s, t, f, t + [Saved(f)])
  {
    var u := (t + [Saved(f)])[|t|..];
    assert u == [Saved(f)];
    assert u[..0] == [];
    assert f.history[|s.history|..] == [];
  }

  /** An output appended, saved and emitted. */
  lemma JournalTurn(s: SessionData, t: seq<Effect>, n: SessionData, o: RoundOutput)
    requires n.sessionId == s.sessionId && n.history == s.history + [o]
    ensures Journal(s, t, n, t + [Saved(n), Emitted(o)])
  {
    var u := (t + [Saved(n), Emitted(o)])[|t|..];
    assert u == [Saved(n), Emitted(o)];
    assert u[..1] == [Saved(n)];
    assert u[..1][..0] == [];
    assert Outputs(u[..1]) == [];
    assert Outputs(u) == [o];
    assert n.history[|s.history|..] == [o];
  }

  lemma JournalRefl(s: SessionData, t: seq<Effect>)
    ensures Journal(s, t, s, t)
  {
    assert t[|t|..] == [];
    assert s.history[|s.history|..] == [];
  }

  lemma EmitsSavedAppend(a: seq<Effect>, b: seq<Effect>)
    requires EmitsSaved(a) && EmitsSaved(b)
    ensures EmitsSaved(a + b)
  {
    var u := a + b;
    forall i | 0 <= i < |u| && u[i].Emitted?
      ensures i > 0 && u[i - 1].Saved? && |u[i - 1].snapshot.history| > 0
        && u[i - 1].snapshot.history[|u[i - 1].snapshot.history| - 1] == u[i].output
    {
      if i >= |a| {
        assert u[i] == b[i - |a|];
        assert u[i - 1] == b[i - 1 - |a|];
      } else {
        assert u[i] == a[i];
        assert u[i - 1] == a[i - 1];
      }
    }
  }

  lemma SavesOfAppend(a: seq<Effect>, b: seq<Effect>, id: string)
    requires SavesOf(a, id) && SavesOf(b, id)
    ensures SavesOf(a + b, id)
  {
    var u := a + b;
    forall i | 0 <= i < |u| && u[i].Saved? ensures u[i].snapshot.sessionId == id {
      if i >= |a| {
        assert u[i] == b[i - |a|];
      }
    }
  }

  /** Slicing off a prefix in two steps. */
  lemma SliceTwice<T>(a: seq<T>, b: seq<T>, c: seq<T>)
    requires Extends(a, b) && Extends(b, c)
    ensures Extends(a, c) && c[|a|..] == b[|a|..] + c[|b|..]
  {
  }

  /** Two journals in a row make one. */
  lemma JournalAppend(s: SessionData, t: seq<Effect>, m: SessionData, tm: seq<Effect>, f: SessionData, tf: seq<Effect>)
    requires Journal(s, t, m, tm) && Journal(m, tm, f, tf)
    ensures Journal(s, t, f, tf)
  {
    SliceTwice(t, tm, tf);
    SliceTwice(s.history, m.history, f.history);
    OutputsAppend(tm[|t|..], tf[|tm|..]);
    EmitsSavedAppend(tm[|t|..], tf[|tm|..]);
    SavesOfAppend(tm[|t|..], tf[|tm|..], s.sessionId);
  }

  /** The extra save of an exception passing through a round frame. */
  lemma RethrowJournal(r: Step)
    ensures Journal(r.session, r.trace, Rethrow(r).session, Rethrow(r).trace)
  {
    if r.error.Some? {
      JournalSave(r.session, r.trace, r.session);
    } else {
      JournalRefl(r.session, r.trace);
    }
  }

  lemma AgentTurnJournal(env: Env, s: SessionData, t: seq<Effect>, agent: AgentType)
    ensures var e := AgentTurn(env, s, t, agent);
      Journal(s, t, RoundSession(e), RoundTrace(e))
  {
    var e := AgentTurn(env, s, t, agent);
    if e.Next? {
      var o := e.session.history[|s.history|];
      assert e.session.history == s.history + [o];
      JournalTurn(s, t, e.session, o);
    } else {
      JournalSave(s, t, e.step.session);
    }
  }

  lemma ExchangeJournal(env: Env, s: SessionData, t: seq<Effect>)
    ensures var e := Exchange(env, s, t); Journal(s, t, RoundSession(e), RoundTrace(e))
  {
    var ea := AgentTurn(env, s, t, Expansion);
    AgentTurnJournal(env, s, t, Expansion);
    if ea.Next? {
      AgentTurnJournal(env, ea.session, ea.trace, Compression);
      var eb := AgentTurn(env, ea.session, ea.trace, Compression);
      JournalAppend(s, t, ea.session, ea.trace, RoundSession(eb), RoundTrace(eb));
    }
  }

  lemma SynthesisJournal(env: Env, s: SessionData, t: seq<Effect>)
    ensures var r := SynthesisSpec(env, s, t); Journal(s, t, r.session, r.trace)
  {
    var s0 := s.(state := SynthesisProcessing);
    var t0 := t + [Saved(s0)];
    JournalSave(s, t, s0);
    var r := SynthesisSpec(env, s, t);
    if r.error.Some? {
      JournalSave(s0, t0, r.session);
    } else {
      var o := r.session.history[|s.history|];
      assert r.session.history == s0.history + [o];
      JournalTurn(s0, t0, r.session, o);
    }
    JournalAppend(s, t, s0, t0, r.session, r.trace);
  }

  /** The synthesis after the last round, passed through that round's frame. */
  lemma LastJournal(env: Env, s: SessionData, t: seq<Effect>)
    ensures var r := Rethrow(SynthesisSpec(env, s, t)); Journal(s, t, r.session, r.trace)
  {
    var r := SynthesisSpec(env, s, t);
    SynthesisJournal(env, s, t);
    RethrowJournal(r);
    JournalAppend(s, t, r.session, r.trace, Rethrow(r).session, Rethrow(r).trace);
  }

  lemma PlayRoundJournal(env: Env, s: SessionData, t: seq<Effect>)
    ensures var e := PlayRound(env, s, t); Journal(s, t, RoundSession(e), RoundTrace(e))
  {
    var s0 := s.(state := RoundProcessing);
    var t0 := t + [Saved(s0)];
    JournalSave(s, t, s0);
    var eb := Exchange(env, s0, t0);
    ExchangeJournal(env, s0, t0);
    JournalAppend(s, t, s0, t0, RoundSession(eb), RoundTrace(eb));
    if eb.Next? {
      var sb := eb.session;
      if s.currentRound >= s.maxRounds {
        var r := Rethrow(SynthesisSpec(env, sb, eb.trace));
        LastJournal(env, sb, eb.trace);
        JournalAppend(s, t, sb, eb.trace, r.session, r.trace);
      } else {
        var sc := sb.(currentRound := s.currentRound + 1);
        JournalSave(sb, eb.trace, sc);
        JournalAppend(s, t, sb, eb.trace, sc, eb.trace + [Saved(sc)]);
      }
    }
  }

  /** Whichever way the rounds from `s` end, everything they emit was saved first, they save
      only this session, and they emit exactly the entries they append to the history. */
  lemma {:induction false} RoundsJournal(env: Env, s: SessionData, t: seq<Effect>)
    ensures var r := RoundsSpec(env, s, t); Journal(s, t, r.session, r.trace)
    decreases s.maxRounds - s.currentRound
  {
    var e := PlayRound(env, s, t);
    PlayRoundJournal(env, s, t);
    if e.Next? {
      RoundsNext(env, s, t);
      var r' := RoundsSpec(env, e.session, e.trace);
      RoundsJournal(env, e.session, e.trace);
      RethrowJournal(r');
      JournalAppend(s, t, e.session, e.trace, r'.session, r'.trace);
      JournalAppend(s, t, r'.session, r'.trace, Rethrow(r').session, Rethrow(r').trace);
    }
  }

  // ---------------------------------------------------------------------------------------
  // The handlers' outcomes

  /** A clarification run that succeeds plays rounds 1 to `max(1, max_rounds)`, two entries
      each, then one synthesis entry: `2 * max(1, max_rounds) + 1` outputs in all. It ends
      COMPLETE with the merged prompt recorded and the error message untouched. */
  lemma ClarificationCompletes(env: Env, s: SessionData)
    requires ClarificationSpec(env, s).error.None?
    ensures var f := ClarificationSpec(env, s).session;
      && f.state == Complete && f.currentRound == LastRoundFrom(1, s.maxRounds)
      && f.mergedUserPrompt == Some(MergeContext(s.originalUserPrompt, PyStr(s.clarificationAnswers)))
      && f.errorMessage == s.errorMessage
      && Extends(s.history, f.history)
      && Shape(f.history[|s.history|..]) == Schedule(1, s.maxRounds)
      && |f.history| - |s.history| == 2 * LastRoundFrom(1, s.maxRounds) + 1
  {
    RoundsComplete(env, Merged(s), [Saved(Merged(s))]);
    RoundsFrame(env, Merged(s), [Saved(Merged(s))]);
    ScheduleLength(1, s.maxRounds);
  }

  /** A clarification run that fails ends in ERROR with the error text and the merged
      prompt recorded, having appended a proper prefix of the schedule's entries. */
  lemma ClarificationFails(env: Env, s: SessionData)
    requires ClarificationSpec(env, s).error.Some?
    ensures var r := ClarificationSpec(env, s);
      && r.session.state == Error && r.session.errorMessage == r.error
      && r.session.mergedUserPrompt == Some(MergeContext(s.originalUserPrompt, PyStr(s.clarificationAnswers)))
      && Extends(s.history, r.session.history)
      && var added := Shape(r.session.history[|s.history|..]);
         var full := Schedule(1, s.maxRounds);
         |added| < |full| && added == full[..|added|]
  {
    RoundsFail(env, Merged(s), [Saved(Merged(s))]);
    RoundsFrame(env, Merged(s), [Saved(Merged(s))]);
  }

  /** With the default three rounds, the outputs are E1 C1 E2 C2 E3 C3 and then S0. */
  lemma ClarificationThreeRounds(env: Env, s: SessionData)
    requires s.maxRounds == 3 && ClarificationSpec(env, s).error.None?
    ensures var f := ClarificationSpec(env, s).session;
      && Extends(s.history, f.history)
      && Shape(f.history[|s.history|..])
      == [(1, Expansion), (1, Compression), (2, Expansion), (2, Compression),
          (3, Expansion), (3, Compression), (0, Synthesis)]
  {
    ClarificationCompletes(env, s);
    assert Schedule(3, 3) == [(3, Expansion), (3, Compression), (0, Synthesis)];
    assert Schedule(2, 3) == [(2, Expansion), (2, Compression)] + Schedule(3, 3);
  }

  /** Whichever way the clarification run ends, the client is sent exactly the entries the
      saved history gained, each one saved before it is sent. */
  lemma ClarificationJournal(env: Env, s: SessionData)
    ensures var r := ClarificationSpec(env, s); Journal(s, [], r.session, r.trace)
  {
    JournalSave(s, [], Merged(s));
    var r := ClarificationSpec(env, s);
    RoundsJournal(env, Merged(s), [Saved(Merged(s))]);
    JournalAppend(s, [], Merged(s), [Saved(Merged(s))], r.session, r.trace);
  }

  /** `process_init` as intended: it emits nothing, saves only this session and ends with a
      save of its final session. On success the questions are recorded, and the session
      auto-skips to CLARIFICATION_COMPLETE exactly when they contain the sentinel, with the
      skip text as the answers; otherwise it waits in CLARIFICATION_PENDING. A failure leaves
      ERROR with the error text. */
  lemma InitOutcome(env: Env, s: SessionData)
    ensures var r := InitSpec(env, s);
      && r.session.sessionId == s.sessionId && r.session.history == s.history
      && r.session.originalUserPrompt == s.originalUserPrompt
      && Outputs(r.trace) == [] && SavesOf(r.trace, s.sessionId)
      && |r.trace| > 0 && r.trace[|r.trace| - 1] == Saved(r.session)
      && (r.error.Some? ==> r.session.state == Error && r.session.errorMessage == r.error)
      && (r.error.None? ==>
            && r.session.clarificationQuestions.Some?
            && (r.session.state == ClarificationComplete || r.session.state == ClarificationPending)
            && (r.session.state == ClarificationComplete <==> Contains(r.session.clarificationQuestions.value, SkipSentinel))
            && (r.session.state == ClarificationComplete ==> r.session.clarificationAnswers == Some(SkipAnswers))
            && (r.session.state == ClarificationPending ==> r.session.clarificationAnswers == s.clarificationAnswers))
  {
    var r := InitSpec(env, s);
    assert Outputs([]) == [];
    var meta := env.generate(MetaPrompt(s.originalUserPrompt), MetaModelKey);
    if meta.Failure? {
      assert r == Fail(s, [], ErrorText(meta.error));
      assert r.trace[..0] == [];
    } else {
      assert |r.trace| == 2;
      assert r.trace[..1][..0] == [];
    }
  }

  /** `process_init` as intended succeeds exactly when the meta agent replies and the
      clarification agent, asked with the model that reply chose, replies too; the questions
      recorded are the clarification agent's reply. */
  lemma InitModelChoice(env: Env, s: SessionData)
    ensures var r := InitSpec(env, s);
      var meta := env.generate(MetaPrompt(s.originalUserPrompt), MetaModelKey);
      && (r.error.None? <==>
            && meta.Success?
            && env.generate(ClarificationPrompt(s.originalUserPrompt),
                            ApplyMeta(s, env.parseMeta(meta.value.response)).selectedModel).Success?)
      && (r.error.None? ==>
            && r.session.selectedModel == ApplyMeta(s, env.parseMeta(meta.value.response)).selectedModel
            && r.session.clarificationQuestions
               == Some(env.generate(ClarificationPrompt(s.originalUserPrompt), r.session.selectedModel).value.response))
  {
  }

  /** As written, `process_init` ends in ERROR with the missing-attribute text for every
      session, before any service is asked: nothing but the error is recorded. */
  lemma InitAsWrittenFails(s: SessionData)
    ensures var r := InitSpecAsWritten(s);
      && r.error == Some(MissingFormatMeta) && r.session.state == Error
      && r.session.clarificationQuestions == s.clarificationQuestions
      && r.session.selectedModel == s.selectedModel
      && r.trace == [Saved(r.session)]
  {
  }

  /** As intended, `process_init` succeeds whenever both agents reply. */
  lemma InitSucceedsWhenAgentsReply(env: Env, s: SessionData)
    requires forall q, k :: env.generate(q, k).Success?
    ensures InitSpec(env, s).error.None?
  {
  }

  /** With the backend's generator, a session whose selected model the client does not
      know fails its round at the first agent call: ERROR with `repr` of the key as the
      text, and nothing appended. */
  lemma UnknownModelFailsRound(c: Client, service: Service, formatMeta: string -> string,
                               parseMeta: string -> Option<MetaReply>, s: SessionData, t: seq<Effect>)
    requires s.selectedModel != "" && s.selectedModel !in c.models
    ensures var e := PlayRound(Env(parseMeta, Wire(c, service, formatMeta)), s, t);
      && e.Finished? && e.step.error == Some(PyRepr(s.selectedModel))
      && e.step.session.state == Error && e.step.session.history == s.history
  {
    var s0 := s.(state := RoundProcessing);
    var q := AgentPrompt(Expansion, PyStr(s0.mergedUserPrompt), s0.history, s0.currentRound);
    UnknownModelFailsFirst(c, service, Render(formatMeta, q), Some(s.selectedModel));
  }
}
