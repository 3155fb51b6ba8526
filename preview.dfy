/** The landing page's preview: a typewriter that plays a script in four stages (the
    prompt, the conversation line by line, the agreement, the response), a few characters
    per animation frame, with short pauses between stages and lines, and a progress bar
    over everything typed so far. */
module Preview {
  import opened Wrappers

  /** A preview script; `convo` holds the text of each conversation line. */
  datatype Script = Script(prompt: string, convo: seq<string>, agreement: string, response: string)

  /** What `raf.current` holds: nothing, an animation frame, or a pause's timer. */
  datatype Pending = Idle | Frame | Timer(ms: int)

  /** The summed lengths of some lines: the `reduce((a, t) => a + t.length, 0)`. */
  function Chars(lines: seq<string>): nat
    decreases |lines|
  {
    if |lines| == 0 then 0 else Chars(lines[..|lines| - 1]) + |lines[|lines| - 1]|
  }

  function Min(a: int, b: int): int {
    if a < b then a else b
  }

  /** The length of the whole script. */
  function Total(s: Script): nat {
    |s.prompt| + Chars(s.convo) + |s.agreement| + |s.response|
  }

  /** The progress bar for the texts typed so far: 0 without a script or for an empty one,
      otherwise the typed share of the script, at most 1. */
  function Progress(active: Option<Script>, promptText: string, convoRendered: seq<string>, currentLine: string,
                    agreementText: string, responseText: string): real
  {
    if active.None? then 0.0
    else
      var total := Total(active.value);
      var current := |promptText| + Chars(convoRendered) + |currentLine| + |agreementText| + |responseText|;
      if total == 0 then 0.0
      else if (current as real) / (total as real) < 1.0 then (current as real) / (total as real)
      else 1.0
  }

  lemma ProgressBounds(active: Option<Script>, promptText: string, convoRendered: seq<string>, currentLine: string,
                       agreementText: string, responseText: string)
    ensures var p := Progress(active, promptText, convoRendered, currentLine, agreementText, responseText);
      && 0.0 <= p <= 1.0
      && (active.None? || Total(active.value) == 0 ==> p == 0.0)
  {
    var p := Progress(active, promptText, convoRendered, currentLine, agreementText, responseText);
    if active.Some? && Total(active.value) != 0 {
      var current := |promptText| + Chars(convoRendered) + |currentLine| + |agreementText| + |responseText|;
      assert (current as real) / (Total(active.value) as real) >= 0.0;
    }
  }

  /** Once the whole script is typed the bar is full (for a script that is not empty). */
  lemma ProgressFull(s: Script)
    requires Total(s) > 0
    ensures Progress(Some(s), s.prompt, s.convo, "", s.agreement, s.response) == 1.0
  {
    Share(Total(s), Total(s));
  }

  lemma {:induction false} CharsPrefix(lines: seq<string>, k: int)
    requires 0 <= k < |lines|
    ensures Chars(lines[..k + 1]) == Chars(lines[..k]) + |lines[k]|
    ensures Chars(lines[..k]) + |lines[k]| <= Chars(lines)
    decreases |lines|
  {
    assert lines[..k + 1][..k] == lines[..k];
    if k + 1 < |lines| {
      CharsPrefix(lines[..|lines| - 1], k);
      assert lines[..|lines| - 1][..k + 1] == lines[..k + 1];
      assert lines[..|lines| - 1][..k] == lines[..k];
    } else {
      assert lines[..k + 1] == lines;
    }
  }

  class Simulator {
    var selected: Option<Script>
    var running: bool
    var done: bool
    var promptText: string
    var convoRendered: seq<string>
    var currentLine: string
    var agreementText: string
    var responseText: string
    var pending: Pending
    var msgIndex: nat
    var charIndex: nat
    /** 0 prompt, 1 conversation, 2 agreement, 3 response. */
    var stage: nat
    /** Pause timers still scheduled although `raf.current` no longer holds them. */
    var orphans: nat

    /** The texts on screen are the typed prefix of the current stage's text after every
        earlier stage in full; `charIndex` never passes the end of the text being typed,
        and the rendered lines are the first `msgIndex` lines of the conversation. */
    ghost predicate Valid()
      reads this
    {
      && stage <= 3
      && (selected.None? ==>
            stage == 0 && charIndex == 0 && msgIndex == 0 && !done
            && promptText == "" && convoRendered == [] && currentLine == "" && agreementText == "" && responseText == "")
      && (selected.Some? ==>
            var s := selected.value;
            && |s.convo| > 0
            && (stage == 0 ==> charIndex <= |s.prompt| && promptText == s.prompt[..charIndex] && msgIndex == 0)
            && (stage > 0 ==> promptText == s.prompt)
            && (stage == 1 ==> msgIndex < |s.convo| && charIndex <= |s.convo[msgIndex]|
                               && currentLine == s.convo[msgIndex][..charIndex])
            && (stage <= 1 ==> convoRendered == s.convo[..msgIndex] && agreementText == "")
            && (stage >= 2 ==> convoRendered == s.convo && msgIndex == |s.convo|)
            && (stage != 1 ==> currentLine == "")
            && (stage == 2 ==> charIndex <= |s.agreement| && agreementText == s.agreement[..charIndex])
            && (stage == 3 ==> agreementText == s.agreement && charIndex <= |s.response| && responseText == s.response[..charIndex])
            && (stage <= 2 ==> responseText == "")
            && (done ==> stage == 3 && charIndex == |s.response|))
      && (done ==> !running && pending == Idle)
    }

    /** How many characters are on screen. */
    function Typed(): nat
      reads this
    {
      |promptText| + Chars(convoRendered) + |currentLine| + |agreementText| + |responseText|
    }

    /** The length of the text the current stage types. */
    function Segment(): nat
      reads this
      requires selected.Some? && stage <= 3 && (stage == 1 ==> msgIndex < |selected.value.convo|)
    {
      var s := selected.value;
      if stage == 0 then |s.prompt|
      else if stage == 1 then |s.convo[msgIndex]|
      else if stage == 2 then |s.agreement|
      else |s.response|
    }

    constructor()
      ensures Valid() && selected.None? && !running && pending == Idle && orphans == 0
    {
      selected := None;
      running := false;
      done := false;
      promptText := "";
      convoRendered := [];
      currentLine := "";
      agreementText := "";
      responseText := "";
      pending := Idle;
      msgIndex := 0;
      charIndex := 0;
      stage := 0;
      orphans := 0;
    }

    /** `stop` as evidently intended: cancel whatever `raf.current` holds, the animation
        frame or the pause's timer, and stop running. No timer is left behind. */
    method Stop()
      requires Valid()
      modifies this
      ensures Valid() && pending == Idle && !running && orphans == old(orphans)
      ensures selected == old(selected) && done == old(done) && stage == old(stage)
      ensures msgIndex == old(msgIndex) && charIndex == old(charIndex)
      ensures promptText == old(promptText) && convoRendered == old(convoRendered) && currentLine == old(currentLine)
      ensures agreementText == old(agreementText) && responseText == old(responseText)
    {
      pending := Idle;
      running := false;
    }

    /** `stop` as written: `cancelAnimationFrame` cancels a pending frame, but a pause's
        `setTimeout` id in the same slot is no frame, so that timer stays scheduled while the
        slot is cleared. */
    method StopAsWritten()
      requires Valid()
      modifies this
      ensures Valid() && pending == Idle && !running
      ensures orphans == old(orphans) + (if old(pending).Timer? then 1 else 0)
      ensures selected == old(selected) && done == old(done) && stage == old(stage)
      ensures msgIndex == old(msgIndex) && charIndex == old(charIndex)
      ensures promptText == old(promptText) && convoRendered == old(convoRendered) && currentLine == old(currentLine)
      ensures agreementText == old(agreementText) && responseText == old(responseText)
    {
      if pending.Timer? {
        orphans := orphans + 1;
      }
      pending := Idle;
      running := false;
    }

    /** `reset`: stop, and every counter and text back to its start; the selection stays. */
    method Reset()
      requires Valid()
      modifies this
      ensures Valid() && pending == Idle && !running && !done && orphans == old(orphans)
      ensures selected == old(selected)
      ensures stage == 0 && msgIndex == 0 && charIndex == 0
      ensures promptText == "" && convoRendered == [] && currentLine == "" && agreementText == "" && responseText == ""
      ensures Typed() == 0
    {
      Stop();
      Rewind();
    }

    /** `reset` as written, over the `stop` that leaves a pause's timer scheduled. */
    method ResetAsWritten()
      requires Valid()
      modifies this
      ensures Valid() && pending == Idle && !running && !done
      ensures orphans == old(orphans) + (if old(pending).Timer? then 1 else 0)
      ensures selected == old(selected)
      ensures stage == 0 && msgIndex == 0 && charIndex == 0
      ensures promptText == "" && convoRendered == [] && currentLine == "" && agreementText == "" && responseText == ""
      ensures Typed() == 0
    {
      StopAsWritten();
      Rewind();
    }

    /** The part of `reset` after `stop`: counters and texts back to their start. */
    method Rewind()
      requires Valid() && pending == Idle && !running
      modifies this
      ensures Valid() && pending == Idle && !running && !done && orphans == old(orphans)
      ensures selected == old(selected)
      ensures stage == 0 && msgIndex == 0 && charIndex == 0
      ensures promptText == "" && convoRendered == [] && currentLine == "" && agreementText == "" && responseText == ""
      ensures Typed() == 0
    {
      msgIndex := 0;
      charIndex := 0;
      stage := 0;
      promptText := "";
      convoRendered := [];
      currentLine := "";
      agreementText := "";
      responseText := "";
      done := false;
    }

    /** `play`: reset, select the script, and schedule the first frame. Every script the
        page offers has a conversation; the conversation stage reads its current line
        without a check. */
    method Play(s: Script)
      requires Valid() && |s.convo| > 0
      modifies this
      ensures Valid() && selected == Some(s) && running && !done && pending == Frame && orphans == old(orphans)
      ensures stage == 0 && charIndex == 0 && Typed() == 0
    {
      Reset();
      selected := Some(s);
      running := true;
      pending := Frame;
    }

    /** `play` as written: a pause's timer the reset leaves behind stays scheduled beside
        the new loop's first frame, so two tick loops will run. */
    method PlayAsWritten(s: Script)
      requires Valid() && |s.convo| > 0
      modifies this
      ensures Valid() && selected == Some(s) && running && !done && pending == Frame
      ensures orphans == old(orphans) + (if old(pending).Timer? then 1 else 0)
      ensures stage == 0 && charIndex == 0 && Typed() == 0
    {
      ResetAsWritten();
      selected := Some(s);
      running := true;
      pending := Frame;
    }

    /** The pause's timer fires and schedules the next frame. */
    method TimerFired()
      requires Valid() && pending.Timer?
      modifies this
      ensures Valid() && pending == Frame && orphans == old(orphans)
      ensures running == old(running) && stage == old(stage) && charIndex == old(charIndex) && Typed() == old(Typed())
    {
      pending := Frame;
    }

    /** An orphaned timer fires: its callback puts a frame of its tick in `raf.current`.
        This models the timer left by a reset, whose tick types the script still selected. */
    method OrphanFired()
      requires Valid() && selected.Some? && !done && pending == Idle && orphans > 0
      modifies this
      ensures Valid() && pending == Frame && orphans == old(orphans) - 1
      ensures selected == old(selected) && running == old(running) && done == old(done)
      ensures stage == old(stage) && charIndex == old(charIndex) && msgIndex == old(msgIndex) && Typed() == old(Typed())
    {
      orphans := orphans - 1;
      pending := Frame;
    }

    /** What a tick from stage `stage0` at `char0`, with `typed0` characters on screen, a
        stage text of length `seg0` and `running0`, leaves: exactly `min(inc, seg0 - char0)`
        more characters on screen, within the script; `charIndex` is `char0 + inc` inside
        the text and back at 0 once the text is finished, when the stage moves on by at most
        one; the run is done exactly when the tick reached the end of the response, and
        otherwise something is scheduled and `running` is as it was. */
    ghost predicate Ticked(stage0: nat, char0: nat, typed0: nat, seg0: nat, running0: bool, inc: nat)
      reads this
    {
      && selected.Some? && Valid()
      && (stage == stage0 || (stage == stage0 + 1 && charIndex == 0))
      && Typed() == typed0 + Min(inc, seg0 - char0)
      && Typed() <= Total(selected.value)
      && charIndex == (if done then seg0 else if char0 + inc >= seg0 then 0 else char0 + inc)
      && (done <==> stage0 == 3 && char0 + inc >= seg0)
      && (done ==> Typed() == Total(selected.value))
      && (!done ==> pending != Idle && running == running0)
    }

    /** `tick` with `inc` characters to type, `inc` at least 1. */
    method Tick(inc: nat)
      requires Valid() && selected.Some? && pending == Frame && inc >= 1
      modifies this
      ensures selected == old(selected)
      ensures Ticked(old(stage), old(charIndex), old(Typed()), old(Segment()), old(running), inc)
      ensures orphans == old(orphans)
      ensures old(stage) != 1 ==> msgIndex == old(msgIndex)
      ensures var fin := old(charIndex) + inc >= old(Segment());
        && (old(stage) == 0 ==> stage == (if fin then 1 else 0) && pending == (if fin then Timer(180) else Frame))
        && (old(stage) == 1 ==>
              && msgIndex == (if fin then old(msgIndex) + 1 else old(msgIndex))
              && stage == (if fin && msgIndex == |selected.value.convo| then 2 else 1)
              && pending == (if fin && stage == 1 then Timer(130) else Frame))
        && (old(stage) == 2 ==> stage == (if fin then 3 else 2) && pending == (if fin then Timer(160) else Frame))
        && (old(stage) == 3 ==> stage == 3 && pending == (if done then Idle else Frame))
    {
      if stage == 0 {
        TypePrompt(inc);
      } else if stage == 1 {
        TypeLine(inc);
      } else if stage == 2 {
        TypeAgreement(inc);
      } else {
        TypeResponse(inc);
      }
    }

    /** Stage 0: the prompt; when it is typed, a pause of 180 ms before the conversation. */
    method TypePrompt(inc: nat)
      requires Valid() && selected.Some? && pending == Frame && inc >= 1 && stage == 0
      modifies this
      ensures selected == old(selected)
      ensures Ticked(old(stage), old(charIndex), old(Typed()), old(Segment()), old(running), inc)
      ensures orphans == old(orphans)
      ensures msgIndex == old(msgIndex)
      ensures var fin := old(charIndex) + inc >= |selected.value.prompt|;
        stage == (if fin then 1 else 0) && pending == (if fin then Timer(180) else Frame)
    {
      var s := selected.value;
      var full := s.prompt;
      charIndex := Min(|full|, charIndex + inc);
      promptText := full[..charIndex];
      if charIndex >= |full| {
        stage := 1;
        charIndex := 0;
        pending := Timer(180);
        assert s.convo[0][..0] == "" && s.convo[..0] == [];
        TotalBound(s, 0);
        return;
      }
      pending := Frame;
    }

    /** Stage 1: the current line; a finished line joins the rendered ones, then either a
        pause of 130 ms before the next line or, after the last, the agreement. */
    method TypeLine(inc: nat)
      requires Valid() && selected.Some? && pending == Frame && inc >= 1 && stage == 1
      modifies this
      ensures selected == old(selected)
      ensures Ticked(old(stage), old(charIndex), old(Typed()), old(Segment()), old(running), inc)
      ensures orphans == old(orphans)
      ensures msgIndex == |convoRendered|
      ensures convoRendered == old(convoRendered) || convoRendered == old(convoRendered) + [selected.value.convo[old(msgIndex)]]
      ensures stage == 2 <==> msgIndex == |selected.value.convo|
      ensures var fin := old(charIndex) + inc >= |selected.value.convo[old(msgIndex)]|;
        && msgIndex == (if fin then old(msgIndex) + 1 else old(msgIndex))
        && pending == (if fin && stage == 1 then Timer(130) else Frame)
    {
      var s := selected.value;
      var full := s.convo[msgIndex];
      CharsPrefix(s.convo, msgIndex);
      charIndex := Min(|full|, charIndex + inc);
      currentLine := full[..charIndex];
      if charIndex >= |full| {
        FinishLine();
        if stage == 1 {
          return;
        }
      }
      pending := Frame;
    }

    /** A finished line joins the rendered ones and the next line starts empty, after a
        pause of 130 ms; after the last line the agreement starts. */
    method FinishLine()
      requires Valid() && selected.Some? && stage == 1 && charIndex == |selected.value.convo[msgIndex]|
      modifies this
      ensures Valid() && selected == old(selected) && charIndex == 0 && Typed() == old(Typed())
      ensures convoRendered == old(convoRendered) + [selected.value.convo[old(msgIndex)]] && msgIndex == old(msgIndex) + 1
      ensures stage == (if msgIndex == |selected.value.convo| then 2 else 1)
      ensures pending == (if stage == 2 then old(pending) else Timer(130))
      ensures done == old(done) && running == old(running) && orphans == old(orphans)
    {
      var s := selected.value;
      var full := s.convo[msgIndex];
      CharsPrefix(s.convo, msgIndex);
      assert full[..charIndex] == full;
      assert s.convo[..msgIndex + 1] == convoRendered + [full];
      convoRendered := convoRendered + [full];
      currentLine := "";
      msgIndex := msgIndex + 1;
      charIndex := 0;
      if msgIndex >= |s.convo| {
        stage := 2;
        assert s.convo[..msgIndex] == s.convo;
      } else {
        pending := Timer(130);
        assert s.convo[msgIndex][..0] == "";
      }
    }

    /** Stage 2: the agreement; when it is typed, a pause of 160 ms before the response. */
    method TypeAgreement(inc: nat)
      requires Valid() && selected.Some? && pending == Frame && inc >= 1 && stage == 2
      modifies this
      ensures selected == old(selected)
      ensures Ticked(old(stage), old(charIndex), old(Typed()), old(Segment()), old(running), inc)
      ensures orphans == old(orphans)
      ensures msgIndex == old(msgIndex)
      ensures var fin := old(charIndex) + inc >= |selected.value.agreement|;
        stage == (if fin then 3 else 2) && pending == (if fin then Timer(160) else Frame)
    {
      var s := selected.value;
      var full := s.agreement;
      charIndex := Min(|full|, charIndex + inc);
      agreementText := full[..charIndex];
      if charIndex >= |full| {
        stage := 3;
        charIndex := 0;
        pending := Timer(160);
        return;
      }
      pending := Frame;
    }

    /** Stage 3: the response; its last character ends the run. */
    method TypeResponse(inc: nat)
      requires Valid() && selected.Some? && pending == Frame && inc >= 1 && stage == 3
      modifies this
      ensures selected == old(selected)
      ensures Ticked(old(stage), old(charIndex), old(Typed()), old(Segment()), old(running), inc)
      ensures orphans == old(orphans)
      ensures msgIndex == old(msgIndex)
      ensures stage == 3 && pending == (if done then Idle else Frame)
    {
      var s := selected.value;
      var full := s.response;
      charIndex := Min(|full|, charIndex + inc);
      responseText := full[..charIndex];
      if charIndex >= |full| {
        running := false;
        done := true;
        pending := Idle;
        return;
      }
      pending := Frame;
    }
  }

  /** As written, a reset during a pause does not stay reset: the pause's timer survives
      `stop`, fires, and its frame types the prompt again although nothing is running. */
  method ResetDuringPauseAsWritten(sim: Simulator, inc: nat)
    requires sim.Valid() && sim.selected.Some? && sim.pending.Timer? && inc >= 1
    requires |sim.selected.value.prompt| > 0
    modifies sim
    ensures sim.selected == old(sim.selected) && !sim.running && !sim.done && sim.stage <= 1
    ensures sim.Typed() == Min(inc, |old(sim.selected).value.prompt|) > 0
  {
    sim.ResetAsWritten();
    sim.OrphanFired();
    sim.Tick(inc);
  }

  /** With `stop` clearing the pause's timer too, a reset during a pause leaves nothing
      scheduled and no timer behind, so no tick can type until the next `play`. */
  method ResetDuringPause(sim: Simulator)
    requires sim.Valid() && sim.selected.Some? && sim.pending.Timer?
    modifies sim
    ensures !sim.running && !sim.done && sim.pending == Idle && sim.orphans == old(sim.orphans)
    ensures sim.Typed() == 0
  {
    sim.Reset();
  }

  /** What the first `k` lines and a partial line add up to stays within the script. */
  lemma TotalBound(s: Script, k: int)
    requires 0 <= k < |s.convo|
    ensures Chars(s.convo[..k]) + |s.convo[k]| <= Chars(s.convo)
  {
    CharsPrefix(s.convo, k);
  }

  /** What a consistent simulator has typed never exceeds its script, and a finished run
      has typed all of it. */
  lemma TypedWithinTotal(sim: Simulator)
    requires sim.Valid() && sim.selected.Some?
    ensures sim.Typed() <= Total(sim.selected.value)
    ensures sim.done ==> sim.Typed() == Total(sim.selected.value)
  {
    var s := sim.selected.value;
    if sim.stage == 1 {
      TotalBound(s, sim.msgIndex);
    } else if sim.stage == 0 {
      assert Chars(sim.convoRendered) == 0;
    }
  }

  lemma Share(a: nat, t: nat)
    requires a <= t && t > 0
    ensures 0.0 <= (a as real) / (t as real) <= 1.0
    ensures a == t ==> (a as real) / (t as real) == 1.0
  {
    var q := (a as real) / (t as real);
    assert q * (t as real) == a as real;
  }

  /** So the bar shows the plain typed share, and a finished run shows a full bar. */
  lemma ProgressShare(sim: Simulator)
    requires sim.Valid() && sim.selected.Some? && Total(sim.selected.value) > 0
    ensures Progress(sim.selected, sim.promptText, sim.convoRendered, sim.currentLine, sim.agreementText, sim.responseText)
         == (sim.Typed() as real) / (Total(sim.selected.value) as real)
    ensures sim.done ==> Progress(sim.selected, sim.promptText, sim.convoRendered, sim.currentLine, sim.agreementText, sim.responseText) == 1.0
  {
    TypedWithinTotal(sim);
    Share(sim.Typed(), Total(sim.selected.value));
  }
}
