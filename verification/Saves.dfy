/** What a run starts from, saves on the way and reports at its end. */
module Saves {
  import opened Wrappers
  import opened Messages
  import opened Gate
  import opened AgentLoop
  import opened Checkpoints
  import opened Lifetime

  /** A fresh task opens with the system prompt, the continuity message if there
      is one, and the prompt as typed; what the loop quotes of the prompt is
      stripped if the policy asks for it. */
  lemma OpeningExactly<W>(a: Agent, env: Env<W>, systemPrompt: string, continuity: Option<string>, prompt: string)
    ensures var conv, p := Opening(systemPrompt, continuity, prompt), PromptsOf(a, env, prompt);
            && |conv| == (if continuity.Some? then 3 else 2)
            && conv[0] == Message(System, systemPrompt, [], None, None)
            && conv[|conv| - 1] == Message(User, prompt, [], None, None)
            && (continuity.Some? ==> conv[1] == Message(User, continuity.value, [], None, None))
            && p.prompt == prompt
            && p.safe == (if a.privacy.Policy? && a.privacy.redact then env.strip(prompt) else prompt)
            && !FRESH.emptyRetried && FRESH.lastGood == None
  {
  }

  /** `cp` is the saved form of a state: every text stripped, the system message
      left out. */
  ghost predicate IsSaved<W>(env: Env<W>, h: Handle, prompt: string, cp: Checkpoint, conv: seq<Message>, g: Guard) {
    && cp.handle == h
    && cp.prompt == env.strip(prompt)
    && cp.conversation == Stored(env.strip, conv)
    && cp.guard == g.(lastGood := if g.lastGood.Some? then Some(env.strip(g.lastGood.value)) else None)
  }

  /** The last save of a run is of its final state, says how it ended, with how
      many iterations and with what answer. */
  ghost predicate TellsTheEnd<W>(env: Env<W>, h: Handle, prompt: string, out: RunOut<W>) {
    && out.saves != []
    && var last := out.saves[|out.saves| - 1];
       && IsSaved(env, h, prompt, last, out.conv, out.g)
       && last.status == (if out.status == AgentLoop.Complete then SessionStatus.Complete else SessionStatus.Failed)
       && last.stepsUsed == out.used
       && last.finalAnswer == if out.answer.Some? then Some(env.strip(out.answer.value)) else None
  }

  /** Before that, each iteration saved first: running, itself counted, with no
      answer yet. */
  ghost predicate TellsTheWay<W>(env: Env<W>, h: Handle, prompt: string, used: nat, out: RunOut<W>) {
    && |out.saves| == out.used - used + 1
    && forall k | 0 <= k < |out.saves| - 1 ::
         var cp := out.saves[k];
         && cp.handle == h && cp.prompt == env.strip(prompt)
         && cp.status == Running && cp.stepsUsed == used + k + 1 && cp.finalAnswer == None
  }

  lemma {:induction false} SavesExactly<W>(a: Agent, env: Env<W>, h: Handle, p: Prompts, conv: seq<Message>, g: Guard,
                                           w: W, used: nat, answer: Option<string>)
    requires conv != []
    ensures var out := RunFrom(a, env, h, p, conv, g, w, used, answer);
            && out.used >= used && (used < a.maxSteps ==> out.used <= a.maxSteps)
            && TellsTheEnd(env, h, p.prompt, out) && TellsTheWay(env, h, p.prompt, used, out)
            && (used < a.maxSteps ==> IsSaved(env, h, p.prompt, out.saves[0], conv, g))
    decreases a.maxSteps - used
  {
    hide RunTurn, Stored, TellsTheEnd, TellsTheWay, IsSaved;
    if used < a.maxSteps && RunTurn(a, env, p, conv, g, w).end.None? {
      var t := RunTurn(a, env, p, conv, g, w);
      var later := RunFrom(a, env, h, p, t.conv, t.g, t.w, used + 1, Latest(t.candidate, answer));
      SavesExactly(a, env, h, p, t.conv, t.g, t.w, used + 1, Latest(t.candidate, answer));
      var head := MakeCheckpoint(env.strip, h, Running, p.prompt, conv, g, used + 1, None);
      SavedForm(env, h, p.prompt, conv, g, used + 1);
      EarlierSave(env, h, p.prompt, used, head, t.events, later);
    } else {
      OnlySaves(a, env, h, p, conv, g, w, used, answer);
    }
  }

  lemma SavedForm<W>(env: Env<W>, h: Handle, prompt: string, conv: seq<Message>, g: Guard, stepsUsed: nat)
    ensures IsSaved(env, h, prompt, MakeCheckpoint(env.strip, h, Running, prompt, conv, g, stepsUsed, None), conv, g)
  {
    hide Stored;
  }

  lemma OnlySaves<W>(a: Agent, env: Env<W>, h: Handle, p: Prompts, conv: seq<Message>, g: Guard, w: W, used: nat,
                     answer: Option<string>)
    requires conv != [] && (used < a.maxSteps ==> RunTurn(a, env, p, conv, g, w).end.Some?)
    ensures var out := RunFrom(a, env, h, p, conv, g, w, used, answer);
            && out.used == used + (if used < a.maxSteps then 1 else 0)
            && TellsTheEnd(env, h, p.prompt, out) && TellsTheWay(env, h, p.prompt, used, out)
            && (used < a.maxSteps ==> IsSaved(env, h, p.prompt, out.saves[0], conv, g))
  {
    hide RunTurn, Stored;
  }

  lemma EarlierSave<W>(env: Env<W>, h: Handle, prompt: string, used: nat, head: Checkpoint, events: seq<Event>,
                       later: RunOut<W>)
    requires TellsTheEnd(env, h, prompt, later) && TellsTheWay(env, h, prompt, used + 1, later)
    requires head.handle == h && head.prompt == env.strip(prompt) && head.status == Running
    requires head.stepsUsed == used + 1 && head.finalAnswer == None
    ensures var out := later.After(events, [head]);
            TellsTheEnd(env, h, prompt, out) && TellsTheWay(env, h, prompt, used, out) && out.saves[0] == head
  {
    hide Stored;
    var out := later.After(events, [head]);
    assert forall k | 0 < k < |out.saves| :: out.saves[k] == later.saves[k - 1];
  }

  // ---- What a run that uses up its iterations reports ----------------------

  /** The candidate answers of a run's iterations, in order. */
  function Candidates<W>(a: Agent, env: Env<W>, p: Prompts, conv: seq<Message>, g: Guard, w: W, used: nat): seq<string>
    requires conv != []
    decreases a.maxSteps - used
  {
    if used >= a.maxSteps then []
    else
      var t := RunTurn(a, env, p, conv, g, w);
      (if t.candidate.Some? then [t.candidate.value] else [])
      + if t.end.Some? then [] else Candidates(a, env, p, t.conv, t.g, t.w, used + 1)
  }

  /** Every iteration of a run went on. */
  predicate UsesUp<W>(a: Agent, env: Env<W>, p: Prompts, conv: seq<Message>, g: Guard, w: W, used: nat)
    requires conv != []
    decreases a.maxSteps - used
  {
    used < a.maxSteps ==>
      var t := RunTurn(a, env, p, conv, g, w);
      t.end.None? && UsesUp(a, env, p, t.conv, t.g, t.w, used + 1)
  }

  /** A run whose iterations are used up without an end fails and reports the last
      candidate answer it had. */
  lemma {:induction false} ExhaustedReportsLast<W>(a: Agent, env: Env<W>, h: Handle, p: Prompts, conv: seq<Message>,
                                                   g: Guard, w: W, used: nat, answer: Option<string>)
    requires conv != [] && UsesUp(a, env, p, conv, g, w, used)
    ensures var out := RunFrom(a, env, h, p, conv, g, w, used, answer);
            var candidates := Candidates(a, env, p, conv, g, w, used);
            && out.status == AgentLoop.Failed && out.used >= a.maxSteps
            && out.answer == if candidates == [] then answer else Some(candidates[|candidates| - 1])
    decreases a.maxSteps - used
  {
    hide RunTurn, MakeCheckpoint;
    if used < a.maxSteps {
      var t := RunTurn(a, env, p, conv, g, w);
      ExhaustedReportsLast(a, env, h, p, t.conv, t.g, t.w, used + 1, Latest(t.candidate, answer));
    }
  }
}
