/** The HTTP and WebSocket front of the backend: the init and clarify endpoints, the
    registry of open WebSockets with its best-effort broadcast, and the background task
    that drives a session through the handlers until it is COMPLETE or ERROR, or waits for
    answers. */
module Server {
  import opened Wrappers
  import opened Text
  import opened Models
  import opened Store
  import opened Prompts
  import opened StateMachine

  /** The `type` field of a WebSocket message. */
  datatype Kind = StateChange | AgentOutput | SynthesisOut | ErrorOut

  function KindName(k: Kind): string {
    match k
    case StateChange => "state_change"
    case AgentOutput => "agent_output"
    case SynthesisOut => "synthesis"
    case ErrorOut => "error"
  }

  /** `WSMessage`, without its timestamp and its cost (always None here). */
  datatype Message = Message(
    kind: Kind,
    sessionId: string,
    content: Option<string>,
    round: Option<int>,
    agent: Option<AgentType>,
    state: Option<SessionState>)

  function StateMessage(id: string, st: SessionState): Message {
    Message(StateChange, id, None, None, None, Some(st))
  }

  function ClarificationMessage(id: string, questions: Option<string>): Message {
    Message(AgentOutput, id, questions, None, Some(Clarification), None)
  }

  function ErrorMessage(id: string, text: string): Message {
    Message(ErrorOut, id, Some(text), None, None, None)
  }

  /** What the `on_output` callback broadcasts for an output. The round and clarification
      callbacks send the round, agent and content, typed "synthesis" for the synthesis entry;
      the synthesis handler's callback sends the content alone. */
  function OnOutput(handler: SessionState, id: string, o: RoundOutput): (m: Message)
    ensures m.sessionId == id && m.content == Some(o.content) && m.state.None?
    ensures m.kind == SynthesisOut <==> handler == SynthesisProcessing || o.agent == Synthesis
    ensures m.kind == AgentOutput <==> handler != SynthesisProcessing && o.agent != Synthesis
    ensures handler != SynthesisProcessing ==> m.round == Some(o.roundNumber) && m.agent == Some(o.agent)
    ensures handler == SynthesisProcessing ==> m.round.None? && m.agent.None?
  {
    if handler == SynthesisProcessing then Message(SynthesisOut, id, Some(o.content), None, None, None)
    else Message(if o.agent == Synthesis then SynthesisOut else AgentOutput, id, Some(o.content), Some(o.roundNumber), Some(o.agent), None)
  }

  function OutputMessages(handler: SessionState, id: string, os: seq<RoundOutput>): (ms: seq<Message>)
    ensures |ms| == |os|
    ensures forall i :: 0 <= i < |os| ==> ms[i] == OnOutput(handler, id, os[i])
  {
    seq(|os|, i requires 0 <= i < |os| => OnOutput(handler, id, os[i]))
  }

  /** The states the background loop hands to a handler. */
  predicate Handled(st: SessionState) {
    st == Init || st == ClarificationComplete || st == RoundProcessing || st == SynthesisProcessing
  }

  /** The handler the loop calls for the session's state. */
  function HandlerStep(env: Env, s: SessionData): Step
    requires Handled(s.state)
  {
    match s.state
    case Init => InitSpec(env, s)
    case ClarificationComplete => ClarificationSpec(env, s)
    case RoundProcessing => RoundsSpec(env, s, [])
    case SynthesisProcessing => SynthesisSpec(env, s, [])
  }

  /** How far a state is from the end of the loop: INIT needs two handler calls at most, the
      other handled states one. */
  function Rank(st: SessionState): nat {
    if st == Init then 2 else if Handled(st) then 1 else 0
  }

  /** What every handler promises the loop: it keeps the session id, only appends to the
      history, emits exactly what it appends, ends a failure in ERROR with the error text,
      and on success leaves a state of lower rank. */
  predicate HandlerFact(s: SessionData, r: Step) {
    && r.session.sessionId == s.sessionId
    && Extends(s.history, r.session.history)
    && Outputs(r.trace) == r.session.history[|s.history|..]
    && (r.error.None? ==> Rank(r.session.state) < Rank(s.state))
    && (r.error.Some? ==> r.session.state == Error && r.session.errorMessage == r.error)
  }

  lemma HandlerFacts(env: Env, s: SessionData)
    requires Handled(s.state)
    ensures HandlerFact(s, HandlerStep(env, s))
  {
    var r := HandlerStep(env, s);
    match s.state {
      case Init =>
        InitOutcome(env, s);
        assert r.session.history[|s.history|..] == [];
      case ClarificationComplete =>
        ClarificationJournal(env, s);
        if r.error.None? { ClarificationCompletes(env, s); } else { ClarificationFails(env, s); }
      case RoundProcessing =>
        RoundsJournal(env, s, []);
        if r.error.None? { RoundsComplete(env, s, []); } else { RoundsFail(env, s, []); }
      case SynthesisProcessing =>
        SynthesisJournal(env, s, []);
        SynthesisFacts(env, s, []);
    }
  }

  /** The loop's view of the handlers: the result of the handler for each handled state. */
  function HandlerOf(env: Env): SessionData -> Step {
    (s: SessionData) => if Handled(s.state) then HandlerStep(env, s) else Step(s, None, [])
  }

  /** `h` keeps the handlers' promise on every handled state. */
  ghost predicate Sound(h: SessionData -> Step) {
    forall s: SessionData :: Handled(s.state) ==> HandlerFact(s, h(s))
  }

  lemma HandlersSound(env: Env)
    ensures Sound(HandlerOf(env))
  {
    forall s: SessionData | Handled(s.state) ensures HandlerFact(s, HandlerOf(env)(s)) {
      HandlerFacts(env, s);
    }
  }

  /** One pass of the background loop over a handled state: the handler's broadcasts, and
      either the session the loop goes on with or, after a failure, the session it leaves. */
  datatype Turn = Stop(final: SessionData, messages: seq<Message>) | Continue(next: SessionData, messages: seq<Message>)

  /** A handler's exception lands in the outer `except`: the session is set to ERROR with
      the error text, saved, and an error message is broadcast. Otherwise the INIT branch
      broadcasts the questions, and every branch then broadcasts the new state. */
  function TurnOf(h: SessionData -> Step, s: SessionData): (t: Turn)
    requires Sound(h) && Handled(s.state)
    ensures t.Continue? ==> Rank(t.next.state) < Rank(s.state) && t.next.sessionId == s.sessionId
  {
    var r := h(s);
    var id := s.sessionId;
    var out := OutputMessages(s.state, id, Outputs(r.trace));
    if r.error.Some? then
      Stop(r.session.(state := Error, errorMessage := r.error), out + [ErrorMessage(id, r.error.value)])
    else
      Continue(r.session, out + (if s.state == Init then [ClarificationMessage(id, r.session.clarificationQuestions)] else [])
                            + [StateMessage(id, r.session.state)])
  }

  /** What the background loop does from session `s`: the session it leaves, the messages
      it broadcasts in order, and how many handler calls it makes. */
  datatype Drive = Drive(final: SessionData, messages: seq<Message>, calls: nat)

  /** `process_session_background` from a loaded session: the loop runs while the state is
      neither COMPLETE nor ERROR, and returns at CLARIFICATION_PENDING. */
  function DriveFrom(h: SessionData -> Step, s: SessionData): Drive
    requires Sound(h)
    decreases Rank(s.state)
  {
    if !Handled(s.state) then Drive(s, [], 0)
    else
      match TurnOf(h, s)
      case Stop(f, ms) => Drive(f, ms, 1)
      case Continue(n, ms) =>
        var rest := DriveFrom(h, n);
        Drive(rest.final, ms + rest.messages, rest.calls + 1)
  }

  /** One pass of the loop as part of the whole: a stop is the last pass, and after a
      pass that goes on the loop continues from the session it left. */
  lemma DriveStep(h: SessionData -> Step, s: SessionData, t: Turn)
    requires Sound(h) && Handled(s.state) && t == TurnOf(h, s)
    ensures t.Stop? ==> DriveFrom(h, s) == Drive(t.final, t.messages, 1)
    ensures t.Continue? ==> DriveFrom(h, s).final == DriveFrom(h, t.next).final
    ensures t.Continue? ==> DriveFrom(h, s).messages == t.messages + DriveFrom(h, t.next).messages
  {
  }

  /** The loop ends COMPLETE, ERROR or waiting in CLARIFICATION_PENDING, keeps the session
      id, and calls a handler at most twice (at most once unless it starts at INIT). */
  lemma {:induction false} DriveEnds(h: SessionData -> Step, s: SessionData)
    requires Sound(h)
    ensures var d := DriveFrom(h, s);
      && (d.final.state == Complete || d.final.state == Error || d.final.state == ClarificationPending)
      && d.final.sessionId == s.sessionId
      && d.calls <= Rank(s.state) <= 2
    decreases Rank(s.state)
  {
    if Handled(s.state) {
      var t := TurnOf(h, s);
      if t.Continue? {
        DriveEnds(h, t.next);
      }
    }
  }

  /** A handler that fails ends the loop in ERROR with the error text; the last message
      broadcast is the error, and no state change is broadcast for that call. */
  lemma DriveFails(h: SessionData -> Step, s: SessionData)
    requires Sound(h) && Handled(s.state) && h(s).error.Some?
    ensures var d := DriveFrom(h, s); var e := h(s).error.value;
      && d.final.state == Error && d.final.errorMessage == Some(e)
      && d.calls == 1 && |d.messages| > 0
      && d.messages[|d.messages| - 1] == ErrorMessage(s.sessionId, e)
      && forall i :: 0 <= i < |d.messages| ==> d.messages[i].kind != StateChange
  {
    var r := h(s);
    var out := OutputMessages(s.state, s.sessionId, Outputs(r.trace));
    assert DriveFrom(h, s).messages == out + [ErrorMessage(s.sessionId, r.error.value)];
  }

  /** From CLARIFICATION_COMPLETE without a failure: one handler call, one message per new
      history entry in order (`2 * max(1, max_rounds) + 1` of them, the last typed
      "synthesis"), then the state change to COMPLETE. */
  lemma DriveClarification(env: Env, s: SessionData)
    requires s.state == ClarificationComplete && ClarificationSpec(env, s).error.None?
    ensures Sound(HandlerOf(env))
    ensures var d := DriveFrom(HandlerOf(env), s); var f := ClarificationSpec(env, s).session;
      && d.final == f && f.state == Complete && d.calls == 1
      && Extends(s.history, f.history)
      && d.messages == OutputMessages(ClarificationComplete, s.sessionId, f.history[|s.history|..])
                       + [StateMessage(s.sessionId, Complete)]
      && |d.messages| == 2 * LastRoundFrom(1, s.maxRounds) + 2
      && d.messages[|d.messages| - 2].kind == SynthesisOut
  {
    HandlersSound(env);
    var h := HandlerOf(env);
    var r := ClarificationSpec(env, s);
    assert h(s) == r;
    var f := r.session;
    var n := LastRoundFrom(1, s.maxRounds);
    assert f.state == Complete && Extends(s.history, f.history) && |f.history| - |s.history| == 2 * n + 1
        && Shape(f.history[|s.history|..])[2 * n] == (0, Synthesis) by {
      ClarificationCompletes(env, s);
      ScheduleEnd(1, s.maxRounds);
    }
    assert Outputs(r.trace) == f.history[|s.history|..] by {
      ClarificationJournal(env, s);
      assert r.trace[0..] == r.trace;
    }
    DriveSchedule(h, s, n);
  }

  /** The message side of a clarification run, for any sound handler that completes with
      the schedule's `2 * n + 1` entries, the last of them the synthesis. */
  lemma DriveSchedule(h: SessionData -> Step, s: SessionData, n: int)
    requires Sound(h) && s.state == ClarificationComplete && h(s).error.None?
    requires h(s).session.state == Complete
    requires Outputs(h(s).trace) == h(s).session.history[|s.history|..]
    requires |h(s).session.history| - |s.history| == 2 * n + 1
    requires Shape(h(s).session.history[|s.history|..])[2 * n] == (0, Synthesis)
    ensures var d := DriveFrom(h, s); var f := h(s).session;
      && d.final == f && d.calls == 1
      && d.messages == OutputMessages(ClarificationComplete, s.sessionId, f.history[|s.history|..])
                       + [StateMessage(s.sessionId, Complete)]
      && |d.messages| == 2 * n + 2
      && d.messages[2 * n].kind == SynthesisOut
  {
    DriveOnce(h, s);
    var added := h(s).session.history[|s.history|..];
    assert added[2 * n].agent == Synthesis;
  }

  /** A successful call of a handler other than INIT's that leaves a state the loop does
      not handle is the loop's only pass: its outputs, then the state change. */
  lemma DriveOnce(h: SessionData -> Step, s: SessionData)
    requires Sound(h) && Handled(s.state) && s.state != Init
    requires h(s).error.None? && !Handled(h(s).session.state)
    ensures DriveFrom(h, s) == Drive(h(s).session,
      OutputMessages(s.state, s.sessionId, Outputs(h(s).trace)) + [StateMessage(s.sessionId, h(s).session.state)], 1)
  {
    var ms := OutputMessages(s.state, s.sessionId, Outputs(h(s).trace)) + [StateMessage(s.sessionId, h(s).session.state)];
    assert TurnOf(h, s) == Continue(h(s).session, ms);
    assert DriveFrom(h, h(s).session) == Drive(h(s).session, [], 0);
    assert ms + [] == ms;
  }

  /** From INIT with both agents replying: the clarification questions are always broadcast,
      followed by the new state, in the auto-skip case as well. When they ask for answers,
      the loop stops there, waiting in CLARIFICATION_PENDING. */
  lemma DriveInit(env: Env, s: SessionData)
    requires s.state == Init && InitSpec(env, s).error.None?
    ensures Sound(HandlerOf(env))
    ensures var d := DriveFrom(HandlerOf(env), s); var r := InitSpec(env, s);
      && |d.messages| >= 2
      && d.messages[0] == ClarificationMessage(s.sessionId, r.session.clarificationQuestions)
      && d.messages[1] == StateMessage(s.sessionId, r.session.state)
      && r.session.clarificationQuestions.Some?
      && (r.session.state == ClarificationPending ==> d.final == r.session && d.calls == 1 && |d.messages| == 2)
      && (r.session.state == ClarificationComplete ==> d.calls == 1 + DriveFrom(HandlerOf(env), r.session).calls)
  {
    HandlersSound(env);
    var h := HandlerOf(env);
    var r := InitSpec(env, s);
    assert h(s) == r;
    InitOutcome(env, s);
    DriveFirst(h, s);
  }

  /** The INIT pass of the loop for any sound handler whose INIT call succeeds without
      outputs: the questions, then the new state, then whatever the loop does from there. */
  lemma DriveFirst(h: SessionData -> Step, s: SessionData)
    requires Sound(h) && s.state == Init && h(s).error.None? && Outputs(h(s).trace) == []
    ensures var d := DriveFrom(h, s); var n := h(s).session; var rest := DriveFrom(h, n);
      && d.messages == [ClarificationMessage(s.sessionId, n.clarificationQuestions), StateMessage(s.sessionId, n.state)] + rest.messages
      && d.calls == 1 + rest.calls && d.final == rest.final
  {
    assert OutputMessages(Init, s.sessionId, []) == [];
  }

  // ---------------------------------------------------------------------------------------
  // Connections

  type ConnId = nat

  /** What a broadcast of `ms` to session `id` delivers: nothing without a registered
      socket, and otherwise the messages whose send succeeds, in order. A failed send is
      logged and dropped. */
  function Deliveries(conns: map<string, ConnId>, network: (ConnId, Message) -> bool, id: string, ms: seq<Message>): seq<(ConnId, Message)> {
    if |ms| == 0 then []
    else
      Deliveries(conns, network, id, ms[..|ms| - 1])
      + (if id in conns && network(conns[id], ms[|ms| - 1]) then [(conns[id], ms[|ms| - 1])] else [])
  }

  lemma {:induction false} DeliveriesAppend(conns: map<string, ConnId>, network: (ConnId, Message) -> bool, id: string, a: seq<Message>, b: seq<Message>)
    ensures Deliveries(conns, network, id, a + b) == Deliveries(conns, network, id, a) + Deliveries(conns, network, id, b)
    decreases |b|
  {
    if |b| == 0 {
      assert a + b == a;
    } else {
      assert (a + b)[..|a + b| - 1] == a + b[..|b| - 1];
      DeliveriesAppend(conns, network, id, a, b[..|b| - 1]);
    }
  }

  /** Only the socket registered for the session receives anything, and only messages
      that were broadcast; with no socket registered nothing is delivered; when every send
      succeeds, every message is delivered, in order. */
  lemma {:induction false} DeliveriesFacts(conns: map<string, ConnId>, network: (ConnId, Message) -> bool, id: string, ms: seq<Message>)
    ensures var ds := Deliveries(conns, network, id, ms);
      && |ds| <= |ms|
      && (forall k :: 0 <= k < |ds| ==> id in conns && ds[k].0 == conns[id] && ds[k].1 in ms)
      && (id !in conns ==> ds == [])
      && ((id in conns && forall m :: network(conns[id], m)) ==>
            |ds| == |ms| && forall k :: 0 <= k < |ms| ==> ds[k] == (conns[id], ms[k]))
    decreases |ms|
  {
    if |ms| > 0 {
      var init := ms[..|ms| - 1];
      DeliveriesFacts(conns, network, id, init);
      var ds := Deliveries(conns, network, id, ms);
      var di := Deliveries(conns, network, id, init);
      forall k | 0 <= k < |ds| ensures id in conns && ds[k].0 == conns[id] && ds[k].1 in ms {
        if k < |di| {
          assert ds[k] == di[k];
          assert di[k].1 in init;
        } else {
          assert ds[k] == (conns[id], ms[|ms| - 1]);
        }
      }
      if id in conns && forall m :: network(conns[id], m) {
        forall k | 0 <= k < |ms| ensures ds[k] == (conns[id], ms[k]) {
          if k < |init| {
            assert ds[k] == di[k];
          }
        }
      }
    }
  }

  /** The loop's bookkeeping of what it has delivered so far. */
  lemma SentStep(sent0: seq<(ConnId, Message)>, conns: map<string, ConnId>, network: (ConnId, Message) -> bool,
                 id: string, done: seq<Message>, ms: seq<Message>)
    ensures sent0 + Deliveries(conns, network, id, done) + Deliveries(conns, network, id, ms)
         == sent0 + Deliveries(conns, network, id, done + ms)
  {
    DeliveriesAppend(conns, network, id, done, ms);
  }

  /** Associativity of `+`, as a lemma of its own: `ProcessBackground`'s loop needs just
      this instance, and asserting it there inline makes the loop body run out of resource. */
  lemma AppendAssoc<T>(a: seq<T>, b: seq<T>, c: seq<T>)
    ensures (a + b) + c == a + (b + c)
  {
  }

  /** `websocket_endpoint`'s registration and its `finally`: the registry is keyed by
      session id alone, so a second socket for a session replaces the first, and the first
      one's cleanup then removes the second. */
  function Register(conns: map<string, ConnId>, id: string, c: ConnId): map<string, ConnId> {
    conns[id := c]
  }

  function Unregister(conns: map<string, ConnId>, id: string): map<string, ConnId> {
    if id in conns then conns - {id} else conns
  }

  /** The cleanup as evidently intended: a socket removes its own registration only. */
  function UnregisterOwn(conns: map<string, ConnId>, id: string, c: ConnId): map<string, ConnId> {
    if id in conns && conns[id] == c then conns - {id} else conns
  }

  /** As written: after a reconnect, the old socket's cleanup leaves the session with no
      socket at all, so the new socket receives no broadcast. */
  lemma ReconnectLosesSocket(conns: map<string, ConnId>, id: string, first: ConnId, second: ConnId,
                             network: (ConnId, Message) -> bool, ms: seq<Message>)
    requires first != second
    ensures var after := Unregister(Register(Register(conns, id, first), id, second), id);
      && id !in after
      && Deliveries(after, network, id, ms) == []
  {
    var after := Unregister(Register(Register(conns, id, first), id, second), id);
    DeliveriesFacts(after, network, id, ms);
  }

  /** As intended: the old socket's cleanup keeps the new registration, while a socket's
      own cleanup removes it and leaves every other session's socket in place. */
  lemma ReconnectKeepsSocket(conns: map<string, ConnId>, id: string, first: ConnId, second: ConnId)
    requires first != second
    ensures UnregisterOwn(Register(Register(conns, id, first), id, second), id, first) == Register(conns, id, second)
    ensures id !in UnregisterOwn(Register(conns, id, second), id, second)
    ensures forall other :: other != id && other in conns ==>
      other in UnregisterOwn(Register(conns, id, second), id, second)
      && UnregisterOwn(Register(conns, id, second), id, second)[other] == conns[other]
  {
    assert Register(Register(conns, id, first), id, second) == Register(conns, id, second);
  }

  /** The clarify endpoint's answer. */
  datatype ClarifyResponse = NotFound | InvalidState(state: SessionState) | ProcessingStarted

  function StatusCode(r: ClarifyResponse): int {
    match r
    case NotFound => 404
    case InvalidState(_) => 400
    case ProcessingStarted => 200
  }

  /** The session the clarify endpoint saves. */
  function Accept(s: SessionData, answers: string): SessionData {
    s.(clarificationAnswers := Some(answers), state := ClarificationComplete)
  }

  /** The answers accepted are exactly what the first round is given to merge, and the
      background run they trigger starts at the clarification handler. */
  lemma AcceptedAnswersMerged(s: SessionData, answers: string)
    ensures Merged(Accept(s, answers)).mergedUserPrompt == Some(MergeContext(s.originalUserPrompt, answers))
    ensures Handled(Accept(s, answers).state) && Rank(Accept(s, answers).state) == 1
    ensures Accept(s, answers).history == s.history && Accept(s, answers).sessionId == s.sessionId
  {
  }

  /** What a socket receives when `ms` are sent to it one by one and the first failed send
      ends the sending: the longest prefix of `ms` the network accepts. */
  function SentUntilFailure(network: (ConnId, Message) -> bool, ws: ConnId, ms: seq<Message>): (d: seq<(ConnId, Message)>)
    ensures |d| <= |ms|
    ensures forall k :: 0 <= k < |d| ==> d[k] == (ws, ms[k]) && network(ws, ms[k])
    ensures |d| < |ms| ==> !network(ws, ms[|d|])
  {
    if |ms| == 0 || !network(ws, ms[0]) then [] else [(ws, ms[0])] + SentUntilFailure(network, ws, ms[1..])
  }

  /** What `websocket_endpoint` sends a new socket: the session's state, then the
      clarification when there are (non-empty) questions; nothing for an unknown session. */
  function Greeting(s: Option<SessionData>, id: string): (ms: seq<Message>)
    ensures s.None? ==> ms == []
    ensures s.Some? ==> |ms| >= 1 && ms[0] == StateMessage(id, s.value.state)
    ensures s.Some? && s.value.clarificationQuestions.Some? && s.value.clarificationQuestions.value != "" ==>
      ms == [StateMessage(id, s.value.state), ClarificationMessage(id, s.value.clarificationQuestions)]
    ensures s.Some? && (s.value.clarificationQuestions.None? || s.value.clarificationQuestions.value == "") ==>
      ms == [StateMessage(id, s.value.state)]
  {
    if s.None? then []
    else
      var q := s.value.clarificationQuestions;
      [StateMessage(id, s.value.state)] + (if q.Some? && q.value != "" then [ClarificationMessage(id, q)] else [])
  }

  class Backend {
    const orch: Orchestrator
    /** The handlers as the loop sees them. */
    const handler: SessionData -> Step
    /** Whether a send on a socket succeeds. */
    const network: (ConnId, Message) -> bool
    /** `settings.max_rounds`. */
    const maxRounds: int
    /** `active_connections`: the open socket per session id. */
    var connections: map<string, ConnId>
    /** Every message delivered, with the socket it went to. */
    var sent: seq<(ConnId, Message)>
    /** The background tasks scheduled, by session id. */
    var tasks: seq<string>

    /** `handler` gives, for every handled state, the orchestrator's handler result. */
    ghost predicate Wired() {
      forall s: SessionData {:trigger HandlerStep(orch.env, s)} :: Handled(s.state) ==> handler(s) == HandlerStep(orch.env, s)
    }

    constructor(orch: Orchestrator, network: (ConnId, Message) -> bool, maxRounds: int)
      ensures this.orch == orch && this.network == network && this.maxRounds == maxRounds
      ensures connections == map[] && sent == [] && tasks == []
      ensures handler == HandlerOf(orch.env) && Wired() && Sound(handler)
    {
      this.orch := orch;
      handler := HandlerOf(orch.env);
      HandlersSound(orch.env);
      this.network := network;
      this.maxRounds := maxRounds;
      connections := map[];
      sent := [];
      tasks := [];
    }

    /** `broadcast_to_session`: send to the registered socket, if any; a failure is dropped. */
    method Broadcast(id: string, m: Message)
      modifies this
      ensures sent == old(sent) + Deliveries(connections, network, id, [m])
      ensures connections == old(connections) && tasks == old(tasks)
    {
      assert [m][..0] == [];
      if id in connections {
        var ws := connections[id];
        if network(ws, m) {
          sent := sent + [(ws, m)];
        }
      }
    }

    /** The broadcasts of a sequence of messages, in order. */
    method BroadcastAll(id: string, ms: seq<Message>)
      modifies this
      ensures sent == old(sent) + Deliveries(connections, network, id, ms)
      ensures connections == old(connections) && tasks == old(tasks)
    {
      for i := 0 to |ms|
        invariant sent == old(sent) + Deliveries(connections, network, id, ms[..i])
        invariant connections == old(connections) && tasks == old(tasks)
      {
        Broadcast(id, ms[i]);
        DeliveriesAppend(connections, network, id, ms[..i], [ms[i]]);
        assert ms[..i] + [ms[i]] == ms[..i + 1];
      }
      assert ms[..|ms|] == ms;
    }

    /** `websocket_endpoint` up to its receive loop: register the socket, then send it the
        session's state and, when there are questions, the clarification. A failed send ends
        the endpoint, and its `finally` removes the registration. Returns whether the socket
        stays open. */
    method Open(id: string, ws: ConnId) returns (open: bool)
      requires orch.store.Valid()
      modifies this
      ensures var ms := Greeting(orch.store.Get(id), id);
        && (open <==> forall k :: 0 <= k < |ms| ==> network(ws, ms[k]))
        && sent == old(sent) + SentUntilFailure(network, ws, ms)
        && (open ==> connections == Register(old(connections), id, ws))
        && (!open ==> connections == Unregister(Register(old(connections), id, ws), id))
      ensures tasks == old(tasks)
    {
      connections := Register(connections, id, ws);
      var s := orch.store.Load(id);
      open := true;
      if s.Some? {
        var m := StateMessage(id, s.value.state);
        if !network(ws, m) {
          connections := Unregister(connections, id);
          return false;
        }
        sent := sent + [(ws, m)];
        var q := s.value.clarificationQuestions;
        if q.Some? && q.value != "" {
          var c := ClarificationMessage(id, q);
          assert Greeting(s, id)[1] == c;
          if !network(ws, c) {
            connections := Unregister(connections, id);
            return false;
          }
          sent := sent + [(ws, c)];
        }
      }
    }

    /** The endpoint's `finally` after the socket disconnects. */
    method Close(id: string)
      modifies this
      ensures connections == Unregister(old(connections), id)
      ensures sent == old(sent) && tasks == old(tasks)
    {
      if id in connections {
        connections := connections - {id};
      }
    }

    /** `init_session`: save a fresh INIT session with the configured round limit and
        schedule its background run; `id` is the UUID drawn for it. */
    method InitSession(id: string, prompt: string) returns (sessionId: string, status: string)
      requires orch.store.Valid()
      modifies orch.store, this
      ensures orch.store.Valid()
      ensures orch.store.files == old(orch.store.files)[FilePath(orch.store.storagePath, id) := NewSession(id, prompt, maxRounds)]
      ensures tasks == old(tasks) + [id] && connections == old(connections) && sent == old(sent)
      ensures sessionId == id && status == StateName(Init)
    {
      var s := NewSession(id, prompt, maxRounds);
      orch.store.Save(s);
      tasks := tasks + [id];
      return id, StateName(s.state);
    }

    /** `submit_clarification`: 404 for an unknown session, 400 unless it waits for answers,
        and otherwise the answers are stored, the state becomes CLARIFICATION_COMPLETE, the
        session is saved and its background run scheduled. */
    method SubmitClarification(id: string, answers: string) returns (r: ClarifyResponse)
      requires orch.store.Valid()
      modifies orch.store, this
      ensures orch.store.Valid()
      ensures connections == old(connections) && sent == old(sent)
      ensures var s := old(orch.store.Get(id));
        && (s.None? ==> r == NotFound)
        && (s.Some? && s.value.state != ClarificationPending ==> r == InvalidState(s.value.state))
        && (s.Some? && s.value.state == ClarificationPending ==> r == ProcessingStarted)
      ensures r == ProcessingStarted ==>
        && orch.store.files == old(orch.store.files)[FilePath(orch.store.storagePath, id) := Accept(old(orch.store.Get(id)).value, answers)]
        && tasks == old(tasks) + [id]
      ensures r != ProcessingStarted ==> orch.store.files == old(orch.store.files) && tasks == old(tasks)
    {
      var s := orch.store.Load(id);
      if s.None? {
        return NotFound;
      }
      var session := s.value;
      if session.state != ClarificationPending {
        return InvalidState(session.state);
      }
      session := session.(clarificationAnswers := Some(answers));
      session := session.(state := ClarificationComplete);
      orch.store.Save(session);
      tasks := tasks + [id];
      return ProcessingStarted;
    }

    /** The handler for a session's state. */
    method Handle(s: SessionData) returns (r: Step)
      requires orch.store.Valid() && Handled(s.state) && Wired()
      modifies orch.store
      ensures orch.store.Valid()
      ensures r == handler(s)
      ensures orch.store.files == old(orch.store.files)[FilePath(orch.store.storagePath, s.sessionId) := r.session]
    {
      match s.state {
        case Init => r := orch.ProcessInit(s);
        case ClarificationComplete => r := orch.ProcessClarification(s);
        case RoundProcessing => r := orch.ProcessRound(s);
        case SynthesisProcessing => r := orch.ProcessSynthesis(s);
      }
      assert r == HandlerStep(orch.env, s);
    }

    /** The outer `except`: reload the session, mark it ERROR with the error text, save it. */
    method RecordFailure(id: string, session: SessionData, error: Option<string>) returns (e: SessionData)
      requires orch.store.Valid() && orch.store.Get(id) == Some(session)
      modifies orch.store
      ensures orch.store.Valid()
      ensures e == session.(state := Error, errorMessage := error)
      ensures orch.store.files == old(orch.store.files)[FilePath(orch.store.storagePath, id) := e]
    {
      var reloaded := orch.store.Load(id);
      e := reloaded.value.(state := Error);
      e := e.(errorMessage := error);
      orch.store.Save(e);
    }

    /** One pass of the loop: the handler, its broadcasts, and on a failure the outer
        `except` (reload, ERROR with the text, save, broadcast the error). The broadcasts are
        issued after the handler returns, in the order the handler made its callbacks; the
        store and the sockets do not affect each other, so the outcome is the same. */
    method RunTurn(s: SessionData) returns (t: Turn)
      requires orch.store.Valid() && Handled(s.state) && Wired() && Sound(handler)
      modifies orch.store, this
      ensures orch.store.Valid()
      ensures t == TurnOf(handler, s)
      ensures orch.store.files == old(orch.store.files)[FilePath(orch.store.storagePath, s.sessionId) :=
        if t.Stop? then t.final else t.next]
      ensures sent == old(sent) + Deliveries(connections, network, s.sessionId, t.messages)
      ensures connections == old(connections) && tasks == old(tasks)
    {
      var id := s.sessionId;
      var p := FilePath(orch.store.storagePath, id);
      var r := Handle(s);
      SaveTwice(old(orch.store.files), p, s, r.session);
      var out := OutputMessages(s.state, id, Outputs(r.trace));
      if r.error.Some? {
        var e := RecordFailure(id, r.session, r.error);
        SaveTwice(old(orch.store.files), p, r.session, e);
        t := Stop(e, out + [ErrorMessage(id, r.error.value)]);
      } else {
        var ms: seq<Message> := [];
        if s.state == Init {
          ms := [ClarificationMessage(id, r.session.clarificationQuestions)];
        }
        ms := ms + [StateMessage(id, r.session.state)];
        t := Continue(r.session, out + ms);
      }
      BroadcastAll(id, t.messages);
    }

    /** `process_session_background`: the loop over the handlers, with its broadcasts. */
    method ProcessBackground(id: string)
      requires orch.store.Valid() && Wired() && Sound(handler)
      modifies orch.store, this
      ensures orch.store.Valid()
      ensures connections == old(connections) && tasks == old(tasks)
      ensures var s0 := old(orch.store.Get(id));
        && (s0.None? ==> orch.store.files == old(orch.store.files) && sent == old(sent))
        && (s0.Some? ==>
              var d := DriveFrom(handler, s0.value);
              && orch.store.files == old(orch.store.files)[FilePath(orch.store.storagePath, id) := d.final]
              && sent == old(sent) + Deliveries(connections, network, id, d.messages))
    {
      var loaded := orch.store.Load(id);
      if loaded.None? {
        return;
      }
      var p := FilePath(orch.store.storagePath, id);
      ghost var d0 := DriveFrom(handler, loaded.value);
      var session := loaded.value;
      assert old(orch.store.files)[p := session] == old(orch.store.files);
      ghost var done: seq<Message> := [];
      while Handled(session.state)
        invariant orch.store.Valid()
        invariant session.sessionId == id
        invariant orch.store.files == old(orch.store.files)[p := session]
        invariant connections == old(connections) && tasks == old(tasks)
        invariant d0.final == DriveFrom(handler, session).final
        invariant d0.messages == done + DriveFrom(handler, session).messages
        invariant sent == old(sent) + Deliveries(connections, network, id, done)
        decreases Rank(session.state)
      {
        var t := RunTurn(session);
        SaveTwice(old(orch.store.files), p, session, if t.Stop? then t.final else t.next);
        DriveStep(handler, session, t);
        SentStep(old(sent), connections, network, id, done, t.messages);
        AppendAssoc(done, t.messages, if t.Stop? then [] else DriveFrom(handler, t.next).messages);
        done := done + t.messages;
        if t.Stop? {
          assert d0.messages == done;
          return;
        }
        session := t.next;
      }
      assert DriveFrom(handler, session) == Drive(session, [], 0);
      assert done + [] == done;
    }
  }
}
