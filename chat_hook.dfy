/** The client's chat hook: the reducer that folds WebSocket messages into the page's
    state (messages, state, error, progress, and the rounds list shown per agent), the
    history refetch when a session completes, and the reset and error handling of the two
    HTTP calls. Messages arrive as parsed JSON objects; a field the JSON lacked is None. */
module ChatHook {
  import opened Wrappers
  import opened Text
  import opened Models
  import Server

  /** A parsed WebSocket message (`ChatMessage`, with the fields a "progress" message adds). */
  datatype ChatMessage = ChatMessage(
    kind: string,
    content: Option<string>,
    agent: Option<string>,
    round: Option<int>,
    state: Option<string>,
    stage: Option<string>,
    progressPercent: Option<int>,
    description: Option<string>)

  datatype ProgressState = ProgressState(stage: string, percent: int, description: string)

  /** `{ content, thinking: false }`. */
  datatype Reply = Reply(content: Option<string>, thinking: bool)

  /** One round as the page shows it: the expansion reply in `agentA`, the compression reply
      in `agentB`. */
  datatype RoundData = RoundData(number: int, agentA: Option<Reply>, agentB: Option<Reply>)

  // ---------------------------------------------------------------------------------------
  // JavaScript truthiness

  /** A string field that is present and not empty. */
  predicate Truthy(o: Option<string>) {
    o.Some? && o.value != ""
  }

  /** `o || fallback` for a string field. */
  function Or(o: Option<string>, fallback: string): (r: string)
    ensures Truthy(o) ==> r == o.value
    ensures !Truthy(o) ==> r == fallback
  {
    if Truthy(o) then o.value else fallback
  }

  /** A number field that is present and not zero. */
  predicate TruthyNumber(o: Option<int>) {
    o.Some? && o.value != 0
  }

  // ---------------------------------------------------------------------------------------
  // The rounds updater

  /** The reply of `agent` recorded in `r`: EXPANSION fills `agentA`, COMPRESSION fills
      `agentB`, any other agent leaves the round as it is. */
  function SetAgent(r: RoundData, agent: string, content: Option<string>): (q: RoundData)
    ensures q.number == r.number
    ensures agent == "EXPANSION" ==> q == r.(agentA := Some(Reply(content, false)))
    ensures agent == "COMPRESSION" ==> q == r.(agentB := Some(Reply(content, false)))
    ensures agent != "EXPANSION" && agent != "COMPRESSION" ==> q == r
  {
    if agent == "EXPANSION" then r.(agentA := Some(Reply(content, false)))
    else if agent == "COMPRESSION" then r.(agentB := Some(Reply(content, false)))
    else r
  }

  /** `prev.find((r) => r.number === n)`: the first round numbered `n`. */
  function Find(rounds: seq<RoundData>, n: int): Option<RoundData>
    decreases |rounds|
  {
    if |rounds| == 0 then None
    else if rounds[0].number == n then Some(rounds[0])
    else Find(rounds[1..], n)
  }

  /** The `prev.map(...)` branch: every round numbered `n` gets the reply. */
  function UpdateRound(rounds: seq<RoundData>, n: int, agent: string, content: Option<string>): (u: seq<RoundData>)
    ensures |u| == |rounds|
    ensures forall i :: 0 <= i < |rounds| ==>
      u[i] == if rounds[i].number == n then SetAgent(rounds[i], agent, content) else rounds[i]
  {
    seq(|rounds|, i requires 0 <= i < |rounds| =>
      if rounds[i].number == n then SetAgent(rounds[i], agent, content) else rounds[i])
  }

  /** Insertion of `x` after every round whose number is at most its own. */
  function InsertByNumber(rounds: seq<RoundData>, x: RoundData): seq<RoundData>
    decreases |rounds|
  {
    if |rounds| == 0 then [x]
    else if rounds[|rounds| - 1].number <= x.number then rounds + [x]
    else InsertByNumber(rounds[..|rounds| - 1], x) + [rounds[|rounds| - 1]]
  }

  /** `.sort((a, b) => a.number - b.number)`: JavaScript's sort is stable, and so is this
      insertion sort, so the two order every list alike. */
  function SortByNumber(rounds: seq<RoundData>): seq<RoundData>
    decreases |rounds|
  {
    if |rounds| == 0 then []
    else InsertByNumber(SortByNumber(rounds[..|rounds| - 1]), rounds[|rounds| - 1])
  }

  /** The `setRounds` updater for an output of `agent` in round `n`. */
  function MergeRound(rounds: seq<RoundData>, n: int, agent: string, content: Option<string>): seq<RoundData> {
    if Find(rounds, n).Some? then UpdateRound(rounds, n, agent, content)
    else SortByNumber(rounds + [SetAgent(RoundData(n, None, None), agent, content)])
  }

  /** Increasing round numbers: sorted, and no number twice. */
  predicate Ascending(rounds: seq<RoundData>) {
    forall i, j :: 0 <= i < j < |rounds| ==> rounds[i].number < rounds[j].number
  }

  predicate NonDecreasing(rounds: seq<RoundData>) {
    forall i, j :: 0 <= i < j < |rounds| ==> rounds[i].number <= rounds[j].number
  }

  function Numbers(rounds: seq<RoundData>): set<int> {
    set r | r in rounds :: r.number
  }

  /** In an ascending list, `find` gives the one round with that number. */
  lemma {:induction false} FindAscending(rounds: seq<RoundData>, n: int)
    requires Ascending(rounds)
    ensures Find(rounds, n).None? <==> n !in Numbers(rounds)
    ensures Find(rounds, n).Some? ==> Find(rounds, n).value in rounds && Find(rounds, n).value.number == n
    ensures forall r :: r in rounds && r.number == n ==> Find(rounds, n) == Some(r)
    decreases |rounds|
  {
    if |rounds| > 0 {
      var tail := rounds[1..];
      FindAscending(tail, n);
      assert rounds == [rounds[0]] + tail;
      forall r | r in rounds && r.number == n ensures Find(rounds, n) == Some(r) {
        if r != rounds[0] {
          var k :| 0 <= k < |rounds| && rounds[k] == r;
          assert k > 0;
          assert tail[k - 1] == r;
        }
      }
    }
  }

  /** Inserting a round adds it to the others and drops none. */
  lemma {:induction false} InsertMembers(rounds: seq<RoundData>, x: RoundData)
    ensures multiset(InsertByNumber(rounds, x)) == multiset(rounds) + multiset{x}
    ensures forall r :: r in InsertByNumber(rounds, x) <==> r in rounds || r == x
    decreases |rounds|
  {
    if |rounds| > 0 && rounds[|rounds| - 1].number > x.number {
      var init := rounds[..|rounds| - 1];
      assert rounds == init + [rounds[|rounds| - 1]];
      InsertMembers(init, x);
    }
  }

  /** Inserting into a list in order keeps it in order. */
  lemma {:induction false} InsertNonDecreasing(rounds: seq<RoundData>, x: RoundData)
    requires NonDecreasing(rounds)
    ensures NonDecreasing(InsertByNumber(rounds, x))
    decreases |rounds|
  {
    if |rounds| > 0 && rounds[|rounds| - 1].number > x.number {
      var init := rounds[..|rounds| - 1];
      var last := rounds[|rounds| - 1];
      InsertNonDecreasing(init, x);
      InsertMembers(init, x);
      var ins := InsertByNumber(init, x);
      forall i | 0 <= i < |ins| ensures ins[i].number <= last.number {
        assert ins[i] in ins;
        if ins[i] != x {
          var k :| 0 <= k < |init| && init[k] == ins[i];
          assert rounds[k] == init[k];
        }
      }
    }
  }

  /** Inserting a new number into an ascending list keeps it ascending. */
  lemma {:induction false} InsertAscending(rounds: seq<RoundData>, x: RoundData)
    requires Ascending(rounds) && x.number !in Numbers(rounds)
    ensures Ascending(InsertByNumber(rounds, x))
    decreases |rounds|
  {
    if |rounds| > 0 {
      var init := rounds[..|rounds| - 1];
      var last := rounds[|rounds| - 1];
      assert last in rounds;
      if last.number > x.number {
        assert Numbers(init) <= Numbers(rounds) by {
          forall r | r in init ensures r in rounds { }
        }
        InsertAscending(init, x);
        InsertMembers(init, x);
        var ins := InsertByNumber(init, x);
        forall i | 0 <= i < |ins| ensures ins[i].number < last.number {
          assert ins[i] in ins;
          if ins[i] != x {
            var k :| 0 <= k < |init| && init[k] == ins[i];
            assert rounds[k] == init[k];
          }
        }
      }
    }
  }

  /** Sorting a list that is already in order changes nothing. */
  lemma {:induction false} SortSorted(rounds: seq<RoundData>)
    requires NonDecreasing(rounds)
    ensures SortByNumber(rounds) == rounds
    decreases |rounds|
  {
    if |rounds| > 0 {
      var init := rounds[..|rounds| - 1];
      SortSorted(init);
      if |init| > 0 {
        assert init[|init| - 1] == rounds[|rounds| - 2];
      }
      assert init + [rounds[|rounds| - 1]] == rounds;
    }
  }

  /** The updater keeps the rounds list ascending, and adds `n` to its numbers. */
  lemma MergeRoundAscending(rounds: seq<RoundData>, n: int, agent: string, content: Option<string>)
    requires Ascending(rounds)
    ensures Ascending(MergeRound(rounds, n, agent, content))
    ensures Numbers(MergeRound(rounds, n, agent, content)) == Numbers(rounds) + {n}
  {
    FindAscending(rounds, n);
    if Find(rounds, n).Some? {
      var u := UpdateRound(rounds, n, agent, content);
      SameNumbers(rounds, u);
    } else {
      NewRound(rounds, SetAgent(RoundData(n, None, None), agent, content));
    }
  }

  /** Lists with the same numbers at the same places. */
  lemma SameNumbers(a: seq<RoundData>, b: seq<RoundData>)
    requires |a| == |b| && forall i :: 0 <= i < |a| ==> a[i].number == b[i].number
    ensures Ascending(a) ==> Ascending(b)
    ensures Numbers(a) == Numbers(b)
  {
    forall x | x in Numbers(b) ensures x in Numbers(a) {
      var k :| 0 <= k < |b| && b[k].number == x;
      assert a[k] in a;
    }
    forall x | x in Numbers(a) ensures x in Numbers(b) {
      var k :| 0 <= k < |a| && a[k].number == x;
      assert b[k] in b;
    }
  }

  /** A round with a new number is sorted into place. */
  lemma NewRound(rounds: seq<RoundData>, added: RoundData)
    requires Ascending(rounds) && added.number !in Numbers(rounds)
    ensures SortByNumber(rounds + [added]) == InsertByNumber(rounds, added)
    ensures Ascending(InsertByNumber(rounds, added))
    ensures Numbers(InsertByNumber(rounds, added)) == Numbers(rounds) + {added.number}
  {
    SortSorted(rounds);
    assert (rounds + [added])[..|rounds|] == rounds;
    InsertMembers(rounds, added);
    InsertAscending(rounds, added);
    assert added in InsertByNumber(rounds, added);
  }

  /** The sort orders every list by number and keeps its rounds. */
  lemma {:induction false} SortFacts(rounds: seq<RoundData>)
    ensures NonDecreasing(SortByNumber(rounds))
    ensures multiset(SortByNumber(rounds)) == multiset(rounds)
    decreases |rounds|
  {
    if |rounds| > 0 {
      var init := rounds[..|rounds| - 1];
      assert rounds == init + [rounds[|rounds| - 1]];
      SortFacts(init);
      InsertNonDecreasing(SortByNumber(init), rounds[|rounds| - 1]);
      InsertMembers(SortByNumber(init), rounds[|rounds| - 1]);
    }
  }

  /** The round an output lands in: the existing round numbered `n`, or a new empty one. */
  function Target(rounds: seq<RoundData>, n: int): RoundData {
    Find(rounds, n).GetOr(RoundData(n, None, None))
  }

  /** After the updater, round `n` holds the reply in the slot of its agent, on top of what
      it held before, and every other round is as it was. */
  lemma MergeRoundFind(rounds: seq<RoundData>, n: int, agent: string, content: Option<string>, k: int)
    requires Ascending(rounds)
    ensures Find(MergeRound(rounds, n, agent, content), k)
         == if k == n then Some(SetAgent(Target(rounds, n), agent, content)) else Find(rounds, k)
  {
    var m := MergeRound(rounds, n, agent, content);
    MergeRoundAscending(rounds, n, agent, content);
    FindAscending(rounds, n);
    FindAscending(rounds, k);
    FindAscending(m, k);
    if Find(rounds, n).Some? {
      var i :| 0 <= i < |rounds| && rounds[i] == Find(rounds, n).value;
      if k == n {
        assert m[i] in m;
      } else if Find(rounds, k).Some? {
        var j :| 0 <= j < |rounds| && rounds[j] == Find(rounds, k).value;
        assert m[j] in m;
      }
    } else {
      var added := SetAgent(RoundData(n, None, None), agent, content);
      SortSorted(rounds);
      assert (rounds + [added])[..|rounds|] == rounds;
      InsertMembers(rounds, added);
      if k == n {
        assert added in m;
      } else if Find(rounds, k).Some? {
        assert Find(rounds, k).value in m;
      }
    }
  }

  // ---------------------------------------------------------------------------------------
  // Progress

  /** The percent shown after an output of `agent` in round `n`. */
  function RoundPercent(n: int, agent: string): int {
    var p := 10 + (n - 1) * 16 + (if agent == "COMPRESSION" then 16 else 8);
    if p < 90 then p else 90
  }

  /** Where an output falls in the debate: expansion, then compression, round after round. */
  function Step(n: int, agent: string): int {
    2 * n + (if agent == "COMPRESSION" then 1 else 0)
  }

  /** In a run, the bar never moves back: past the 10 of "waiting for your answers", a later
      output never shows less than an earlier one, the bar stops at 90, and only COMPLETE
      shows 100. */
  lemma RoundPercentMonotone(n1: int, a1: string, n2: int, a2: string)
    requires 1 <= n1 && Step(n1, a1) <= Step(n2, a2)
    ensures PendingPercent < RoundPercent(n1, a1) <= RoundPercent(n2, a2) <= 90 < CompletePercent
  {
  }

  /** The output that first reaches 90 is the compression of round 5. */
  lemma RoundPercentCap(n: int, agent: string)
    requires n >= 1
    ensures RoundPercent(n, agent) == 90 <==> Step(n, agent) >= Step(5, "COMPRESSION")
  {
  }

  /** The progress after an output of `agent` in round `n`. */
  function RoundProgress(n: int, agent: string): ProgressState {
    ProgressState("round_" + IntToString(n), RoundPercent(n, agent), "Round " + IntToString(n))
  }

  const PendingPercent := 10
  const CompletePercent := 100

  // ---------------------------------------------------------------------------------------
  // The stage of a "progress" message

  /** The run of decimal digits at the start of `s`. */
  function DigitRun(s: string): (d: string)
    ensures AllDigits(d) && d <= s
    ensures |d| < |s| ==> !IsDigit(s[|d|])
    decreases |s|
  {
    if |s| > 0 && IsDigit(s[0]) then [s[0]] + DigitRun(s[1..]) else []
  }

  /** `/round_(\d+)/` tried at each position from `i` on, the leftmost match winning; the
      digits read with `parseInt(_, 10)`. */
  function StageRoundFrom(stage: string, i: nat): (r: Option<nat>)
    decreases |stage| - i
  {
    if i + 7 > |stage| then None
    else if stage[i..i + 6] == "round_" && IsDigit(stage[i + 6]) then Some(DigitsValue(DigitRun(stage[i + 6..])))
    else StageRoundFrom(stage, i + 1)
  }

  function StageRound(stage: Option<string>): Option<nat> {
    if stage.Some? then StageRoundFrom(stage.value, 0) else None
  }

  /** The stage the hook itself writes for round `n` reads back as `n`. */
  lemma StageRoundTrip(n: nat)
    ensures StageRound(Some("round_" + NatToString(n))) == Some(n)
  {
    var s := "round_" + NatToString(n);
    var digits := NatToString(n);
    assert s[6..] == digits;
    assert s[..6] == "round_";
    assert IsDigit(s[6]) by { assert s[6] == digits[0]; }
    DigitRunAll(digits);
    DigitsValueOfNatToString(n);
  }

  lemma {:induction false} DigitRunAll(s: string)
    requires AllDigits(s)
    ensures DigitRun(s) == s
    decreases |s|
  {
    if |s| > 0 {
      DigitRunAll(s[1..]);
      assert [s[0]] + s[1..] == s;
    }
  }

  // ---------------------------------------------------------------------------------------
  // The history refetch

  /** One entry of the session's `history` as the GET returns it. */
  datatype HistoryEntry = HistoryEntry(agent: string, content: string, roundNumber: int)

  /** `fetchSessionHistory`'s mapping of one entry to a message. */
  function HistoryMessage(h: HistoryEntry): (m: ChatMessage) {
    ChatMessage(if h.agent == "SYNTHESIS" then "synthesis" else "agent_output",
                Some(h.content), Some(h.agent), Some(h.roundNumber), None, None, None, None)
  }

  function HistoryMessages(history: seq<HistoryEntry>): (ms: seq<ChatMessage>)
    ensures |ms| == |history|
    ensures forall i :: 0 <= i < |history| ==> ms[i] == HistoryMessage(history[i])
  {
    seq(|history|, i requires 0 <= i < |history| => HistoryMessage(history[i]))
  }

  /** How a stored output reads back from the GET. */
  function Entry(o: RoundOutput): HistoryEntry {
    HistoryEntry(AgentName(o.agent), o.content, o.roundNumber)
  }

  /** How a broadcast reads on the client. */
  function Received(m: Server.Message): ChatMessage {
    var agent := if m.agent.Some? then Some(AgentName(m.agent.value)) else None;
    var state := if m.state.Some? then Some(StateName(m.state.value)) else None;
    ChatMessage(Server.KindName(m.kind), m.content, agent, m.round, state, None, None, None)
  }

  /** A refetched history shows an output as the live broadcast of a debate round did: the
      same type ("synthesis" exactly for the synthesis), content, agent and round. */
  lemma HistoryMatchesLive(handler: SessionState, id: string, o: RoundOutput)
    requires handler != SynthesisProcessing
    ensures HistoryMessage(Entry(o)) == Received(Server.OnOutput(handler, id, o))
    ensures HistoryMessage(Entry(o)).kind == "synthesis" <==> o.agent == Synthesis
  {
    AgentNameRoundTrip(o.agent, Synthesis);
  }

  // ---------------------------------------------------------------------------------------
  // The hook's state

  /** The HTTP requests the hook issues, in order. */
  datatype Request = InitPost(message: string) | ClarifyPost(sessionId: string, answers: string) | HistoryGet(sessionId: string)

  /** What came back from `POST /api/chat/init` or `/api/chat/clarify`: a body, a response
      that is not ok with its status and text, or an exception with its message. */
  datatype Response<T> = Ok(body: T) | NotOk(status: int, text: string) | Thrown(message: string)

  /** What came back from the history GET: nothing usable (not ok, or an exception, which is
      only logged), or a session whose `history` field may be missing. */
  datatype HistoryReply = Unusable | Loaded(history: Option<seq<HistoryEntry>>)

  /** The message of the error thrown for a response that is not ok. */
  function FailureText(what: string, status: int, text: string): string {
    "Failed to " + what + " (" + IntToString(status) + ") " + text
  }

  const InitialProgress := ProgressState("idle", 0, "")

  /** Everything the hook holds, as one value. */
  datatype ClientView = ClientView(
    sessionId: Option<string>, messages: seq<ChatMessage>, state: Option<string>, error: Option<string>,
    progress: ProgressState, rounds: seq<RoundData>, currentRound: int, socket: Option<string>,
    requests: seq<Request>)

  /** What `initSession` leaves of `v`: messages, rounds and round cleared, the progress at
      "clarification_generating", the POST issued; then the new session id, its state and its
      socket, or (id and socket kept, state "INIT") the failure's text as the error. */
  function AfterInit(v: ClientView, prompt: string, reply: Response<(string, string)>): ClientView {
    var cleared := v.(state := Some("INIT"), error := None, messages := [], rounds := [], currentRound := 0,
                      progress := ProgressState("clarification_generating", 5, "Analyzing and generating questions..."),
                      requests := v.requests + [InitPost(prompt)]);
    match reply
    case Ok((id, status)) => cleared.(sessionId := Some(id), state := Some(status), socket := Some(id))
    case NotOk(code, text) => cleared.(error := Some(FailureText("initialize session", code, text)))
    case Thrown(message) => cleared.(error := Some(message))
  }

  /** What `submitClarification` leaves of `v`: without a truthy session id, `v` itself;
      otherwise the POST of the answers to that session, and a failure's text as the error.
      Nothing else changes. */
  function AfterClarify(v: ClientView, answers: string, reply: Response<string>): ClientView {
    if !Truthy(v.sessionId) then v
    else
      var posted := v.(requests := v.requests + [ClarifyPost(v.sessionId.value, answers)]);
      match reply
      case Ok(_) => posted
      case NotOk(code, text) => posted.(error := Some(FailureText("submit clarification", code, text)))
      case Thrown(message) => posted.(error := Some(message))
  }

  /** After `initSession` the debate starts empty and one POST more was issued; the error is
      clear exactly when the reply succeeded, and then the socket follows the new session. */
  lemma AfterInitFacts(v: ClientView, prompt: string, reply: Response<(string, string)>)
    ensures var w := AfterInit(v, prompt, reply);
      && w.messages == [] && w.rounds == [] && Ascending(w.rounds) && w.currentRound == 0
      && w.requests == v.requests + [InitPost(prompt)]
      && (w.error.None? <==> reply.Ok?)
      && (reply.Ok? ==> w.sessionId.Some? && w.socket == w.sessionId)
      && (!reply.Ok? ==> w.sessionId == v.sessionId && w.socket == v.socket && w.state == Some("INIT"))
  {
  }

  /** `submitClarification` touches only the requests and the error; it issues a POST exactly
      when there is a truthy session id, and then to that session. */
  lemma AfterClarifyFacts(v: ClientView, answers: string, reply: Response<string>)
    ensures var w := AfterClarify(v, answers, reply);
      && w.(requests := v.requests, error := v.error) == v
      && (Truthy(v.sessionId) <==> |w.requests| == |v.requests| + 1)
      && (Truthy(v.sessionId) ==> w.requests[|v.requests|] == ClarifyPost(v.sessionId.value, answers))
      && (!Truthy(v.sessionId) || reply.Ok? ==> w.error == v.error)
  {
  }

  class ChatClient {
    var sessionId: Option<string>
    var messages: seq<ChatMessage>
    var state: Option<string>
    var error: Option<string>
    var progress: ProgressState
    var rounds: seq<RoundData>
    var currentRound: int
    /** The session whose WebSocket `wsRef` holds. */
    var socket: Option<string>
    var requests: seq<Request>

    /** The rounds list is kept in ascending order of round number, one round per number. */
    ghost predicate Valid()
      reads this
    {
      Ascending(rounds)
    }

    function Snapshot(): ClientView
      reads this
    {
      ClientView(sessionId, messages, state, error, progress, rounds, currentRound, socket, requests)
    }

    constructor()
      ensures Valid()
      ensures sessionId.None? && messages == [] && state == Some("INIT") && error.None?
      ensures progress == InitialProgress && rounds == [] && currentRound == 0
      ensures socket.None? && requests == []
    {
      sessionId := None;
      messages := [];
      state := Some("INIT");
      error := None;
      progress := InitialProgress;
      rounds := [];
      currentRound := 0;
      socket := None;
      requests := [];
    }

    /** `ws.onmessage` of the socket opened for `socket`. */
    method OnMessage(m: ChatMessage)
      requires Valid() && socket.Some?
      modifies this
      ensures Valid()
      ensures sessionId == old(sessionId) && socket == old(socket)
      ensures m.kind == "state_change" ==>
        && state == m.state && messages == old(messages) && rounds == old(rounds)
        && currentRound == old(currentRound) && error == old(error)
        && progress == (if m.state == Some("CLARIFICATION_GENERATING") then ProgressState("clarification_generating", 5, "Generating clarification questions...")
                        else if m.state == Some("CLARIFICATION_PENDING") then ProgressState("clarification_pending", PendingPercent, "Waiting for your answers...")
                        else if m.state == Some("COMPLETE") then ProgressState("complete", CompletePercent, "Complete")
                        else old(progress))
        && requests == old(requests) + (if m.state == Some("COMPLETE") then [HistoryGet(socket.value)] else [])
      ensures m.kind == "progress" ==>
        && progress == ProgressState(Or(m.stage, "processing"), m.progressPercent.GetOr(0), Or(m.description, ""))
        && currentRound == (if StageRound(m.stage).Some? then StageRound(m.stage).value else old(currentRound))
        && state == old(state) && messages == old(messages) && rounds == old(rounds)
        && error == old(error) && requests == old(requests)
      ensures (m.kind == "agent_output" || m.kind == "synthesis") ==>
        && messages == old(messages) + [m]
        && state == old(state) && error == old(error) && requests == old(requests)
        && (TruthyNumber(m.round) && Truthy(m.agent) ==>
              && rounds == MergeRound(old(rounds), m.round.value, m.agent.value, m.content)
              && currentRound == m.round.value
              && progress == RoundProgress(m.round.value, m.agent.value))
        && (!(TruthyNumber(m.round) && Truthy(m.agent)) ==>
              rounds == old(rounds) && currentRound == old(currentRound) && progress == old(progress))
      ensures m.kind == "error" ==>
        && error == Some(Or(m.content, "Backend error")) && state == Some("ERROR")
        && messages == old(messages) && rounds == old(rounds) && currentRound == old(currentRound)
        && progress == old(progress) && requests == old(requests)
      ensures m.kind !in {"state_change", "progress", "agent_output", "synthesis", "error"} ==>
        && state == old(state) && messages == old(messages) && rounds == old(rounds)
        && currentRound == old(currentRound) && error == old(error) && progress == old(progress)
        && requests == old(requests)
    {
      if m.kind == "state_change" {
        OnStateChange(m.state);
      } else if m.kind == "progress" {
        OnProgress(m);
      } else if m.kind == "agent_output" || m.kind == "synthesis" {
        OnOutput(m);
      } else if m.kind == "error" {
        error := Some(Or(m.content, "Backend error"));
        state := Some("ERROR");
      }
    }

    /** A "state_change": the new state, and the progress of the states that have one. */
    method OnStateChange(st: Option<string>)
      requires Valid() && socket.Some?
      modifies this
      ensures Valid()
      ensures sessionId == old(sessionId) && socket == old(socket)
      ensures state == st && messages == old(messages) && rounds == old(rounds)
      ensures currentRound == old(currentRound) && error == old(error)
      ensures progress == (if st == Some("CLARIFICATION_GENERATING") then ProgressState("clarification_generating", 5, "Generating clarification questions...")
                           else if st == Some("CLARIFICATION_PENDING") then ProgressState("clarification_pending", PendingPercent, "Waiting for your answers...")
                           else if st == Some("COMPLETE") then ProgressState("complete", CompletePercent, "Complete")
                           else old(progress))
      ensures requests == old(requests) + (if st == Some("COMPLETE") then [HistoryGet(socket.value)] else [])
    {
      state := st;
      if st == Some("CLARIFICATION_GENERATING") {
        progress := ProgressState("clarification_generating", 5, "Generating clarification questions...");
      } else if st == Some("CLARIFICATION_PENDING") {
        progress := ProgressState("clarification_pending", PendingPercent, "Waiting for your answers...");
      } else if st == Some("COMPLETE") {
        progress := ProgressState("complete", CompletePercent, "Complete");
        requests := requests + [HistoryGet(socket.value)];
      }
    }

    /** A "progress" message: its stage, percent and description, and the round its stage
        names. */
    method OnProgress(m: ChatMessage)
      requires Valid()
      modifies this
      ensures Valid()
      ensures sessionId == old(sessionId) && socket == old(socket)
      ensures progress == ProgressState(Or(m.stage, "processing"), m.progressPercent.GetOr(0), Or(m.description, ""))
      ensures currentRound == (if StageRound(m.stage).Some? then StageRound(m.stage).value else old(currentRound))
      ensures state == old(state) && messages == old(messages) && rounds == old(rounds)
      ensures error == old(error) && requests == old(requests)
    {
      progress := ProgressState(Or(m.stage, "processing"), m.progressPercent.GetOr(0), Or(m.description, ""));
      var matched := StageRound(m.stage);
      if matched.Some? {
        currentRound := matched.value;
      }
    }

    /** An "agent_output" or "synthesis": the message is kept, and one with a round and an
        agent goes into its round and moves the progress to that round. */
    method OnOutput(m: ChatMessage)
      requires Valid()
      modifies this
      ensures Valid()
      ensures sessionId == old(sessionId) && socket == old(socket)
      ensures messages == old(messages) + [m]
      ensures state == old(state) && error == old(error) && requests == old(requests)
      ensures TruthyNumber(m.round) && Truthy(m.agent) ==>
        && rounds == MergeRound(old(rounds), m.round.value, m.agent.value, m.content)
        && currentRound == m.round.value
        && progress == RoundProgress(m.round.value, m.agent.value)
      ensures !(TruthyNumber(m.round) && Truthy(m.agent)) ==>
        rounds == old(rounds) && currentRound == old(currentRound) && progress == old(progress)
    {
      messages := messages + [m];
      if TruthyNumber(m.round) && Truthy(m.agent) {
        var n := m.round.value;
        var agent := m.agent.value;
        var merged := MergeRound(rounds, n, agent, m.content);
        MergeRoundAscending(rounds, n, agent, m.content);
        rounds := merged;
        currentRound := n;
        progress := RoundProgress(n, agent);
      }
    }

    /** The history GET's reply: a usable one replaces the messages with the refetched
        history, `[]` when the field is missing. */
    method OnHistory(reply: HistoryReply)
      modifies this
      ensures reply.Loaded? ==> messages == HistoryMessages(reply.history.GetOr([]))
      ensures reply.Unusable? ==> messages == old(messages)
      ensures sessionId == old(sessionId) && state == old(state) && error == old(error)
      ensures progress == old(progress) && rounds == old(rounds) && currentRound == old(currentRound)
      ensures socket == old(socket) && requests == old(requests)
    {
      if reply.Loaded? {
        messages := HistoryMessages(reply.history.GetOr([]));
      }
    }

    /** `ws.onerror`. */
    method OnSocketError()
      modifies this
      ensures error == Some("WebSocket connection error")
      ensures sessionId == old(sessionId) && state == old(state) && messages == old(messages)
      ensures progress == old(progress) && rounds == old(rounds) && currentRound == old(currentRound)
      ensures socket == old(socket) && requests == old(requests)
    {
      error := Some("WebSocket connection error");
    }

    /** What `initSession` clears before its request. */
    method Reset()
      modifies this
      ensures Valid()
      ensures state == Some("INIT") && error.None?
      ensures messages == [] && rounds == [] && currentRound == 0
      ensures progress == ProgressState("clarification_generating", 5, "Analyzing and generating questions...")
      ensures sessionId == old(sessionId) && socket == old(socket) && requests == old(requests)
    {
      state := Some("INIT");
      progress := ProgressState("clarification_generating", 5, "Analyzing and generating questions...");
      messages := [];
      rounds := [];
      currentRound := 0;
      error := None;
    }

    /** `initSession`: the reset, the POST, and then either the new session with its socket
        or the error. */
    method InitSession(prompt: string, reply: Response<(string, string)>)
      requires Valid()
      modifies this
      ensures Valid()
      ensures Snapshot() == AfterInit(old(Snapshot()), prompt, reply)
    {
      Reset();
      requests := requests + [InitPost(prompt)];
      match reply {
        case Ok((id, status)) =>
          sessionId := Some(id);
          state := Some(status);
          socket := Some(id);
        case NotOk(code, text) =>
          error := Some(FailureText("initialize session", code, text));
        case Thrown(message) =>
          error := Some(message);
      }
    }

    /** `submitClarification`: nothing without a session id; otherwise the POST, and the
        error when it fails. */
    method SubmitClarification(answers: string, reply: Response<string>)
      modifies this
      ensures Snapshot() == AfterClarify(old(Snapshot()), answers, reply)
    {
      if !Truthy(sessionId) {
        return;
      }
      requests := requests + [ClarifyPost(sessionId.value, answers)];
      match reply {
        case Ok(_) =>
        case NotOk(code, text) =>
          error := Some(FailureText("submit clarification", code, text));
        case Thrown(message) =>
          error := Some(message);
      }
    }
  }
}
