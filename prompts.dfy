/** Prompt assembly (the backend's PromptManager). The long template bodies are kept as
    opaque constants holding their first line; what is modelled exactly is how the
    variable parts (user text, answers, history, round numbers) are placed. */
module Prompts {
  import opened Text
  import opened Models

  const ClarificationHead: string :=
    "[INST]\nYou are a clarification assistant analyzing user queries for the Multi-Perspective AI Reasoning System.\n...\nUser Input:\n"
  const ClarificationTail: string :=
    "\n\nOutput format (plain text, one question per line):\n...\n[/INST]"
  const ExpansionSystemPrompt: string :=
    "You are Persona A: Expansion Agent with Emotional Intelligence Scanner.\n..."
  const CompressionSystemPrompt: string :=
    "You are Persona B: Compression Agent with Manipulation Detection Scanner.\n..."
  const SynthesisHead: string :=
    "You are the Synthesis Agent for a multi-round AI debate system.\n...\n- Complete transcript of Expansion Agent (A) and Compression Agent (B) outputs across "
  const SynthesisTail: string :=
    " rounds\n..."

  /** `CLARIFICATION_TEMPLATE.format(user_prompt=p)`. */
  function FormatClarification(userPrompt: string): (r: string)
    ensures OccursAt(r, userPrompt, |ClarificationHead|)
    ensures Contains(r, userPrompt)
  {
    var r := ClarificationHead + userPrompt + ClarificationTail;
    assert OccursAt(r, userPrompt, |ClarificationHead|);
    r
  }

  const MergeHead: string := "Original Question:\n"
  const MergeSeparator: string := "\n\nAdditional Context (from clarification):\n"

  function MergeContext(userPrompt: string, answers: string): string {
    MergeHead + userPrompt + MergeSeparator + answers
  }

  /** The merged text is the original question, then the separator label, then the answers,
      each verbatim and in that order. */
  lemma MergeContextLayout(p: string, a: string)
    ensures var r := MergeContext(p, a);
      && |r| == |MergeHead| + |p| + |MergeSeparator| + |a|
      && r[..|MergeHead|] == MergeHead
      && r[|MergeHead|..|MergeHead| + |p|] == p
      && r[|MergeHead| + |p|..|MergeHead| + |p| + |MergeSeparator|] == MergeSeparator
      && r[|r| - |a|..] == a
  {
    var r := MergeContext(p, a);
    assert r == MergeHead + p + MergeSeparator + a;
  }

  /** Knowing the length of the question, the question and the answers can be read back. */
  lemma MergeContextInjective(p: string, a: string, p': string, a': string)
    requires MergeContext(p, a) == MergeContext(p', a') && |p| == |p'|
    ensures p == p' && a == a'
  {
    MergeContextLayout(p, a);
    MergeContextLayout(p', a');
  }

  /** Expansion gets its own system prompt; every other agent kind gets the compression one. */
  function SystemPromptFor(agent: AgentType): string {
    if agent == Expansion then ExpansionSystemPrompt else CompressionSystemPrompt
  }

  lemma SystemPromptChoice(agent: AgentType)
    ensures SystemPromptFor(agent) == ExpansionSystemPrompt <==> agent == Expansion
    ensures agent != Expansion ==> SystemPromptFor(agent) == CompressionSystemPrompt
  {
    assert ExpansionSystemPrompt != CompressionSystemPrompt;
  }

  /** The context contributed by the history: a description of its last entry, or nothing. */
  function PreviousOutput(history: seq<RoundOutput>): string {
    if |history| == 0 then ""
    else
      var last := history[|history| - 1];
      "\n\nPrevious " + AgentName(last.agent) + " Agent Output (Round " + IntToString(last.roundNumber) + "):\n" + last.content
  }

  /** Only the last entry contributes; earlier entries never do. */
  lemma PreviousOutputOnlyLast(history: seq<RoundOutput>, earlier: seq<RoundOutput>, last: RoundOutput)
    ensures PreviousOutput(history + [last]) == PreviousOutput(earlier + [last]) == PreviousOutput([last])
    ensures PreviousOutput([]) == ""
    ensures Contains(PreviousOutput([last]), last.content)
  {
    var d := PreviousOutput([last]);
    assert OccursAt(d, last.content, |d| - |last.content|);
  }

  /** The closing line naming the round. */
  function RoundLine(currentRound: int): string {
    "\n\nThis is Round " + IntToString(currentRound) + ". Generate your response now.\n[/INST]"
  }

  const AgentContextLabel := "\n\nUser Context (Merged with Clarification):\n"

  /** `format_agent_round(agent, merged_context, history, current_round)`. */
  function FormatAgentRound(agent: AgentType, mergedContext: string, history: seq<RoundOutput>, currentRound: int): string {
    Concat(["[INST]\n", SystemPromptFor(agent), AgentContextLabel, mergedContext, "\n",
            PreviousOutput(history), RoundLine(currentRound)])
  }

  /** The agent prompt is "[INST]\n", the agent's system prompt, the context label, the
      merged context, a newline, the previous output and the round line, each right after the
      one before, and nothing else. */
  lemma AgentRoundEmbeds(agent: AgentType, mergedContext: string, history: seq<RoundOutput>, currentRound: int)
    ensures var r := FormatAgentRound(agent, mergedContext, history, currentRound);
      var atContext := 7 + |SystemPromptFor(agent)| + |AgentContextLabel|;
      var atPrevious := atContext + |mergedContext| + 1;
      var atRound := atPrevious + |PreviousOutput(history)|;
      && r[..7] == "[INST]\n"
      && OccursAt(r, SystemPromptFor(agent), 7)
      && OccursAt(r, AgentContextLabel, 7 + |SystemPromptFor(agent)|)
      && OccursAt(r, mergedContext, atContext)
      && OccursAt(r, PreviousOutput(history), atPrevious)
      && OccursAt(r, RoundLine(currentRound), atRound)
      && |r| == atRound + |RoundLine(currentRound)|
  {
    Concat7("[INST]\n", SystemPromptFor(agent), AgentContextLabel, mergedContext, "\n",
            PreviousOutput(history), RoundLine(currentRound));
  }

  /** One transcript part per history entry. */
  function TranscriptPart(o: RoundOutput): string {
    "--- Round " + IntToString(o.roundNumber) + " | Agent " + AgentName(o.agent) + " ---\n" + o.content + "\n"
  }

  function TranscriptParts(history: seq<RoundOutput>): seq<string>
    decreases |history|
  {
    if |history| == 0 then [] else [TranscriptPart(history[0])] + TranscriptParts(history[1..])
  }

  /** One transcript part per history entry, in history order. */
  lemma {:induction false} TranscriptPartsIndex(history: seq<RoundOutput>)
    ensures |TranscriptParts(history)| == |history|
    ensures forall i :: 0 <= i < |history| ==> TranscriptParts(history)[i] == TranscriptPart(history[i])
    decreases |history|
  {
    if |history| > 0 {
      TranscriptPartsIndex(history[1..]);
    }
  }

  function Transcript(history: seq<RoundOutput>): string {
    Join(TranscriptParts(history), "\n")
  }

  /** The transcript grows by one newline-separated part per appended entry, so the parts
      appear in history order. */
  lemma TranscriptSnoc(history: seq<RoundOutput>, o: RoundOutput)
    ensures Transcript(history + [o]) ==
      if history == [] then TranscriptPart(o) else Transcript(history) + "\n" + TranscriptPart(o)
  {
    var ps := TranscriptParts(history);
    TranscriptPartsIndex(history);
    TranscriptPartsIndex(history + [o]);
    assert TranscriptParts(history + [o]) == ps + [TranscriptPart(o)];
    if history != [] {
      JoinSnoc(ps, TranscriptPart(o), "\n");
    }
  }

  /** `max(o.round_number for o in history)`, or 0 for an empty history. */
  function RoundCount(history: seq<RoundOutput>): int
    decreases |history|
  {
    if |history| == 0 then 0
    else if |history| == 1 then history[0].roundNumber
    else
      var rest := RoundCount(history[1..]);
      if history[0].roundNumber >= rest then history[0].roundNumber else rest
  }

  /** The round count is the largest round number in the history, and 0 for none. */
  lemma {:induction false} RoundCountIsMax(history: seq<RoundOutput>)
    ensures history == [] ==> RoundCount(history) == 0
    ensures forall i :: 0 <= i < |history| ==> history[i].roundNumber <= RoundCount(history)
    ensures history != [] ==> exists i :: 0 <= i < |history| && history[i].roundNumber == RoundCount(history)
    decreases |history|
  {
    if |history| == 1 {
      assert history[0].roundNumber == RoundCount(history);
    } else if |history| > 1 {
      var rest := history[1..];
      RoundCountIsMax(rest);
      var j :| 0 <= j < |rest| && rest[j].roundNumber == RoundCount(rest);
      assert history[j + 1] == rest[j];
      if history[0].roundNumber < RoundCount(rest) {
        assert history[j + 1].roundNumber == RoundCount(history);
      } else {
        assert history[0].roundNumber == RoundCount(history);
      }
      forall i | 1 <= i < |history| ensures history[i].roundNumber <= RoundCount(history) {
        assert history[i] == rest[i - 1];
      }
    }
  }

  function SynthesisSystemPrompt(roundCount: int): string {
    SynthesisHead + IntToString(roundCount) + SynthesisTail
  }

  /** `format_synthesis(merged_context, history)`. */
  function FormatSynthesis(mergedContext: string, history: seq<RoundOutput>): string {
    Concat(["[INST]\n", SynthesisSystemPrompt(RoundCount(history)), "\n\nUser Context:\n", mergedContext,
            "\n\nComplete Debate Transcript:\n", Transcript(history), "\n\nGenerate final synthesis now.\n[/INST]"])
  }

  /** The synthesis prompt embeds the round count, the merged context and the whole
      transcript, in that order, each right after its label. */
  lemma SynthesisEmbeds(mergedContext: string, history: seq<RoundOutput>)
    ensures var r := FormatSynthesis(mergedContext, history);
      var sys := SynthesisSystemPrompt(RoundCount(history));
      var atContext := 7 + |sys| + |"\n\nUser Context:\n"|;
      var atTranscript := atContext + |mergedContext| + |"\n\nComplete Debate Transcript:\n"|;
      && r[..7] == "[INST]\n"
      && OccursAt(r, sys, 7)
      && OccursAt(r, mergedContext, atContext)
      && OccursAt(r, Transcript(history), atTranscript)
      && |r| == atTranscript + |Transcript(history)| + |"\n\nGenerate final synthesis now.\n[/INST]"|
  {
    Concat7("[INST]\n", SynthesisSystemPrompt(RoundCount(history)), "\n\nUser Context:\n", mergedContext,
            "\n\nComplete Debate Transcript:\n", Transcript(history), "\n\nGenerate final synthesis now.\n[/INST]");
  }
}
