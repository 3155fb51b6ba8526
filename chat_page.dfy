/** The chat page: the feed of bubbles built from the hook's state, the `cn` class-name
    helper, the processing flag, and the two form actions, which ignore input that is only
    white space. */
module ChatPage {
  import opened Wrappers
  import opened Text
  import opened Models
  import opened ChatHook

  datatype Role = System | Agent | SynthesisRole | AgentExpansion | AgentCompression

  /** One entry of the feed: `{ role, title, content }`. */
  datatype Bubble = Bubble(role: Role, title: string, content: string)

  // ---------------------------------------------------------------------------------------
  // cn

  /** `cn(...)`: the parts that are truthy (None stands for `false`, `undefined` and
      `null`), joined with single spaces. */
  function Cn(parts: seq<Option<string>>): string {
    Join(Kept(parts), " ")
  }

  function Kept(parts: seq<Option<string>>): (k: seq<string>)
    ensures forall i :: 0 <= i < |k| ==> k[i] != ""
    decreases |parts|
  {
    if |parts| == 0 then []
    else Kept(parts[..|parts| - 1]) + (if Truthy(parts[|parts| - 1]) then [parts[|parts| - 1].value] else [])
  }

  /** A falsy part changes nothing; a truthy one is added after a single space, or alone
      when nothing came before it; the result is empty exactly when no part is truthy. */
  lemma {:induction false} CnAppend(parts: seq<Option<string>>, x: Option<string>)
    ensures !Truthy(x) ==> Cn(parts + [x]) == Cn(parts)
    ensures Truthy(x) && Cn(parts) == "" ==> Cn(parts + [x]) == x.value
    ensures Truthy(x) && Cn(parts) != "" ==> Cn(parts + [x]) == Cn(parts) + " " + x.value
    ensures Cn(parts) == "" <==> forall i :: 0 <= i < |parts| ==> !Truthy(parts[i])
    decreases |parts|
  {
    assert (parts + [x])[..|parts|] == parts;
    assert Kept(parts + [x]) == Kept(parts) + (if Truthy(x) then [x.value] else []);
    assert Kept(parts) + [] == Kept(parts);
    KeptEmpty(parts);
    if Truthy(x) && Cn(parts) != "" {
      JoinSnoc(Kept(parts), x.value, " ");
    }
  }

  lemma {:induction false} KeptEmpty(parts: seq<Option<string>>)
    ensures Join(Kept(parts), " ") == "" <==> Kept(parts) == []
    ensures Kept(parts) == [] <==> forall i :: 0 <= i < |parts| ==> !Truthy(parts[i])
    decreases |parts|
  {
    var k := Kept(parts);
    if |k| == 1 {
      assert k[0] != "";
    } else if |k| > 1 {
      assert Join(k, " ") == k[0] + " " + Join(k[1..], " ");
    }
    if |parts| > 0 {
      KeptEmpty(parts[..|parts| - 1]);
      if Kept(parts[..|parts| - 1]) != [] {
        assert |Kept(parts)| >= |Kept(parts[..|parts| - 1])|;
      }
      forall i | 0 <= i < |parts| - 1 ensures parts[i] == parts[..|parts| - 1][i] { }
    }
  }

  // ---------------------------------------------------------------------------------------
  // The feed

  /** The bubble a message gives, if any: one without content is skipped; a clarification
      and a synthesis always show; any other agent output shows only with the AI
      conversation switched on. */
  function Classify(m: ChatMessage, showConversation: bool): Option<Bubble> {
    if !Truthy(m.content) then None
    else if m.agent == Some("CLARIFICATION") then Some(Bubble(System, "Clarification", m.content.value))
    else if m.agent == Some("SYNTHESIS") || m.kind == "synthesis" then Some(Bubble(SynthesisRole, "Synthesis", m.content.value))
    else if m.kind == "agent_output" && showConversation then
      var isExpansion := m.agent == Some("EXPANSION");
      var isCompression := m.agent == Some("COMPRESSION");
      var role := if isCompression then AgentCompression else if isExpansion then AgentExpansion else Agent;
      var name := if isExpansion then "Agent A (Expansion)" else if isCompression then "Agent B (Compression)" else Or(m.agent, "Agent");
      Some(Bubble(role, name, m.content.value))
    else None
  }

  /** The bubbles of the messages, in order. */
  function Shown(ms: seq<ChatMessage>, showConversation: bool): seq<Bubble>
    decreases |ms|
  {
    if |ms| == 0 then []
    else
      var b := Classify(ms[|ms| - 1], showConversation);
      Shown(ms[..|ms| - 1], showConversation) + (if b.Some? then [b.value] else [])
  }

  /** `${x}` for the hook's state, which a state change without a state leaves undefined. */
  function Shows(state: Option<string>): string {
    if state.Some? then state.value else "undefined"
  }

  function SessionHeader(id: string, state: Option<string>): Bubble {
    Bubble(System, "Session",
           "Connected \U{2022} " + id[..if |id| < 8 then |id| else 8] + "\U{2026} \U{2022} State: " + Shows(state))
  }

  const Welcome := Bubble(System, "Welcome", "What's on your mind today?")

  function ErrorBubbles(error: Option<string>): seq<Bubble> {
    if Truthy(error) then [Bubble(System, "Error", error.value)] else []
  }

  /** What the feed shows for the hook's state. */
  function FeedOf(sessionId: Option<string>, state: Option<string>, messages: seq<ChatMessage>,
                  error: Option<string>, showConversation: bool): seq<Bubble> {
    if !Truthy(sessionId) then [Welcome] + ErrorBubbles(error)
    else [SessionHeader(sessionId.value, state)] + Shown(messages, showConversation) + ErrorBubbles(error)
  }

  predicate IsAgentRole(r: Role) {
    r == Agent || r == AgentExpansion || r == AgentCompression
  }

  /** Every bubble comes from a message with content, and a bubble never has empty
      content; with the conversation hidden, no agent bubble shows. */
  lemma {:induction false} ShownFacts(ms: seq<ChatMessage>, showConversation: bool)
    ensures |Shown(ms, showConversation)| <= |ms|
    ensures forall b :: b in Shown(ms, showConversation) ==> b.content != ""
    ensures !showConversation ==> forall b :: b in Shown(ms, showConversation) ==> !IsAgentRole(b.role)
    decreases |ms|
  {
    if |ms| > 0 {
      ShownFacts(ms[..|ms| - 1], showConversation);
    }
  }

  /** The feed with the conversation hidden is the feed with it shown, minus the agent
      bubbles: the switch only adds or removes agent bubbles. */
  function DropAgents(bs: seq<Bubble>): seq<Bubble>
    decreases |bs|
  {
    if |bs| == 0 then []
    else DropAgents(bs[..|bs| - 1]) + (if IsAgentRole(bs[|bs| - 1].role) then [] else [bs[|bs| - 1]])
  }

  lemma {:induction false} DropAgentsAppend(a: seq<Bubble>, b: seq<Bubble>)
    ensures DropAgents(a + b) == DropAgents(a) + DropAgents(b)
    decreases |b|
  {
    if |b| == 0 {
      assert a + b == a;
    } else {
      assert (a + b)[..|a + b| - 1] == a + b[..|b| - 1];
      DropAgentsAppend(a, b[..|b| - 1]);
    }
  }

  lemma {:induction false} HidingDropsAgents(ms: seq<ChatMessage>)
    ensures Shown(ms, false) == DropAgents(Shown(ms, true))
    decreases |ms|
  {
    if |ms| > 0 {
      var init := ms[..|ms| - 1];
      HidingDropsAgents(init);
      var b := Classify(ms[|ms| - 1], true);
      DropAgentsAppend(Shown(init, true), if b.Some? then [b.value] else []);
      if b.Some? {
        assert DropAgents([b.value]) == DropAgents([]) + (if IsAgentRole(b.value.role) then [] else [b.value]);
      }
    }
  }

  /** Without a session the feed is the welcome, then the error if there is one. With a
      session the header comes first, the error (if any) last, and in between one bubble
      per shown message. */
  lemma FeedShape(sessionId: Option<string>, state: Option<string>, messages: seq<ChatMessage>,
                  error: Option<string>, showConversation: bool)
    ensures var f := FeedOf(sessionId, state, messages, error, showConversation);
      && |f| >= 1
      && (!Truthy(sessionId) ==> f[0] == Welcome && |f| == (if Truthy(error) then 2 else 1))
      && (Truthy(sessionId) ==> f[0].title == "Session" && |f| <= |messages| + 2)
      && (Truthy(error) ==> f[|f| - 1] == Bubble(System, "Error", error.value))
  {
    ShownFacts(messages, showConversation);
  }

  /** A clarification or a synthesis with content shows whatever the switch says. */
  lemma AlwaysShown(m: ChatMessage, showConversation: bool)
    requires Truthy(m.content)
    requires m.agent == Some("CLARIFICATION") || m.agent == Some("SYNTHESIS") || m.kind == "synthesis"
    ensures Classify(m, showConversation) == Classify(m, !showConversation)
    ensures Classify(m, showConversation).Some?
    ensures Classify(m, showConversation).value.role == if m.agent == Some("CLARIFICATION") then System else SynthesisRole
  {
  }

  // ---------------------------------------------------------------------------------------
  // isProcessing

  predicate IsProcessing(sessionId: Option<string>, state: Option<string>) {
    Truthy(sessionId) && state != Some("COMPLETE") && state != Some("ERROR")
  }

  /** With a session, the page shows the processing indicator in every backend state but
      the two final ones. */
  lemma ProcessingUntilFinal(sessionId: Option<string>, st: SessionState)
    requires Truthy(sessionId)
    ensures IsProcessing(sessionId, Some(StateName(st))) <==> st != Complete && st != Error
  {
    StateNameRoundTrip(st, Complete);
    StateNameRoundTrip(st, Error);
  }

  // ---------------------------------------------------------------------------------------
  // trim

  /** The characters `String.prototype.trim` removes: white space and line terminators. */
  predicate IsSpace(c: char) {
    c == '\t' || c == '\n' || c == '\U{000B}' || c == '\U{000C}' || c == '\r' || c == ' '
    || c == '\U{00A0}' || c == '\U{1680}' || ('\U{2000}' <= c <= '\U{200A}')
    || c == '\U{2028}' || c == '\U{2029}' || c == '\U{202F}' || c == '\U{205F}'
    || c == '\U{3000}' || c == '\U{FEFF}'
  }

  /** How many white-space characters `s` starts with. */
  function Lead(s: string): (n: nat)
    ensures n <= |s|
    decreases |s|
  {
    if |s| > 0 && IsSpace(s[0]) then 1 + Lead(s[1..]) else 0
  }

  /** How many white-space characters `s` ends with. */
  function Trail(s: string): (n: nat)
    ensures n <= |s|
    decreases |s|
  {
    if |s| > 0 && IsSpace(s[|s| - 1]) then 1 + Trail(s[..|s| - 1]) else 0
  }

  /** `s.trim()`. */
  function Trim(s: string): string {
    var i := Lead(s);
    s[i..|s| - Trail(s[i..])]
  }

  predicate AllSpace(s: string) {
    forall i :: 0 <= i < |s| ==> IsSpace(s[i])
  }

  lemma {:induction false} LeadFacts(s: string)
    ensures forall i :: 0 <= i < Lead(s) ==> IsSpace(s[i])
    ensures Lead(s) < |s| ==> !IsSpace(s[Lead(s)])
    decreases |s|
  {
    if |s| > 0 && IsSpace(s[0]) {
      LeadFacts(s[1..]);
      forall i | 1 <= i < Lead(s) ensures IsSpace(s[i]) {
        assert s[i] == s[1..][i - 1];
      }
    }
  }

  lemma {:induction false} TrailFacts(s: string)
    ensures forall i :: |s| - Trail(s) <= i < |s| ==> IsSpace(s[i])
    ensures Trail(s) < |s| ==> !IsSpace(s[|s| - Trail(s) - 1])
    decreases |s|
  {
    if |s| > 0 && IsSpace(s[|s| - 1]) {
      var init := s[..|s| - 1];
      TrailFacts(init);
      forall i | |s| - Trail(s) <= i < |s| - 1 ensures IsSpace(s[i]) {
        assert s[i] == init[i];
      }
    }
  }

  /** Trimming drops only white space, from either end. */
  lemma TrimDrops(s: string)
    ensures forall k :: 0 <= k < Lead(s) ==> IsSpace(s[k])
    ensures forall k :: |s| - Trail(s[Lead(s)..]) <= k < |s| ==> IsSpace(s[k])
  {
    var i := Lead(s);
    var t := s[i..];
    LeadFacts(s);
    TrailFacts(t);
    forall k | |s| - Trail(t) <= k < |s| ensures IsSpace(s[k]) {
      DropIndex(s, i, k);
    }
  }

  /** Indexing after a drop, kept as a lemma of its own so that the trimming proofs
      above see only this instance of the slice axioms; stated inline they run out of
      resource. */
  lemma DropIndex(s: string, i: nat, k: nat)
    requires i <= k < |s|
    ensures s[i..][k - i] == s[k]
  {
  }

  /** What trimming keeps starts and ends with a character that is not white space, and it
      keeps nothing exactly when the input is only white space. */
  lemma TrimFacts(s: string)
    ensures Trim(s) == "" <==> AllSpace(s)
    ensures Trim(s) != "" ==> !IsSpace(Trim(s)[0]) && !IsSpace(Trim(s)[|Trim(s)| - 1])
  {
    var i := Lead(s);
    var t := s[i..];
    LeadFacts(s);
    TrailFacts(t);
    var e := |s| - Trail(t);
    assert i < |s| ==> t[0] == s[i];
    if Trim(s) == "" {
      assert i == |s|;
    }
    assert i < |s| ==> !IsSpace(s[i]);
    if Trim(s) != "" {
      assert Trim(s)[0] == s[i];
      DropIndex(s, i, e - 1);
      assert Trim(s)[|Trim(s)| - 1] == t[e - 1 - i];
    }
  }

  // ---------------------------------------------------------------------------------------
  // The page

  class Page {
    const chat: ChatClient
    var input: string
    var clarify: string
    var showConversation: bool
    var clarificationSubmitted: bool

    constructor(chat: ChatClient)
      ensures this.chat == chat && input == "" && clarify == ""
      ensures !showConversation && !clarificationSubmitted
    {
      this.chat := chat;
      input := "";
      clarify := "";
      showConversation := false;
      clarificationSubmitted := false;
    }

    /** The `feed` memo: the bubbles pushed one by one. */
    method Feed() returns (out: seq<Bubble>)
      ensures out == FeedOf(chat.sessionId, chat.state, chat.messages, chat.error, showConversation)
    {
      out := [];
      if !Truthy(chat.sessionId) {
        out := out + [Welcome];
        if Truthy(chat.error) {
          out := out + [Bubble(System, "Error", chat.error.value)];
        }
        return;
      }
      out := out + [SessionHeader(chat.sessionId.value, chat.state)];
      var ms := chat.messages;
      for i := 0 to |ms|
        invariant out == [SessionHeader(chat.sessionId.value, chat.state)] + Shown(ms[..i], showConversation)
      {
        assert ms[..i + 1][..i] == ms[..i];
        var b := Classify(ms[i], showConversation);
        if b.Some? {
          out := out + [b.value];
        }
      }
      assert ms[..|ms|] == ms;
      if Truthy(chat.error) {
        out := out + [Bubble(System, "Error", chat.error.value)];
      }
    }

    /** `start`: input that is only white space does nothing; otherwise both fields are
        cleared and the session is initialised with the trimmed prompt. */
    method Start(reply: Response<(string, string)>)
      requires chat.Valid()
      modifies this, chat
      ensures chat.Valid()
      ensures AllSpace(old(input)) ==> input == old(input) && clarify == old(clarify) && chat.Snapshot() == old(chat.Snapshot())
      ensures !AllSpace(old(input)) ==>
        input == "" && clarify == "" && chat.Snapshot() == AfterInit(old(chat.Snapshot()), Trim(old(input)), reply)
      ensures showConversation == old(showConversation) && clarificationSubmitted == old(clarificationSubmitted)
    {
      TrimFacts(input);
      var t := Trim(input);
      if t == "" {
        return;
      }
      input := "";
      clarify := "";
      chat.InitSession(t, reply);
    }

    /** `submitClarification`: answers that are only white space do nothing; otherwise the
        form hides, the trimmed answers are sent, and the field is cleared. */
    method SubmitClarification(reply: Response<string>)
      modifies this, chat
      ensures AllSpace(old(clarify)) ==>
        clarify == old(clarify) && clarificationSubmitted == old(clarificationSubmitted) && chat.Snapshot() == old(chat.Snapshot())
      ensures !AllSpace(old(clarify)) ==>
        clarify == "" && clarificationSubmitted && chat.Snapshot() == AfterClarify(old(chat.Snapshot()), Trim(old(clarify)), reply)
      ensures input == old(input) && showConversation == old(showConversation)
    {
      TrimFacts(clarify);
      var t := Trim(clarify);
      if t == "" {
        return;
      }
      clarificationSubmitted := true;
      chat.SubmitClarification(t, reply);
      clarify := "";
    }

    /** The effect on `chat.state`: leaving CLARIFICATION_PENDING shows the form again next
        time. */
    method StateChanged()
      modifies this
      ensures chat.state != Some("CLARIFICATION_PENDING") ==> !clarificationSubmitted
      ensures chat.state == Some("CLARIFICATION_PENDING") ==> clarificationSubmitted == old(clarificationSubmitted)
      ensures input == old(input) && clarify == old(clarify) && showConversation == old(showConversation)
    {
      if chat.state != Some("CLARIFICATION_PENDING") {
        clarificationSubmitted := false;
      }
    }
  }
}
