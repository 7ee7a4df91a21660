/** Nothing runs without having passed the gate: for every turn of every agent
    and for skill steps. */
module GateSafety {
  import opened Wrappers
  import opened Messages
  import opened Gate
  import opened Execution
  import opened AgentLoop
  import opened Counters

  // ---- Skills --------------------------------------------------------------

  /** A skill runs a prefix of its steps in order. Only the last record can be a
      block, nothing follows it, and recorded plus skipped steps are all. */
  ghost predicate RecordsPrefix(steps: seq<SkillStep>, records: seq<StepRecord>, blocked: bool) {
    && |records| <= |steps|
    && (forall i | 0 <= i < |records| :: records[i].tool == steps[i].tool)
    && (forall i | 0 <= i < |records| :: records[i].StepBlocked? <==> blocked && i == |records| - 1)
    && (blocked ==> records != [])
  }

  lemma {:induction false} ExpandPrefix<W>(a: Agent, env: Env<W>, call: ToolCall, steps: seq<SkillStep>, k: nat,
                                           x: Expansion<W>)
    requires k <= |steps| && RecordsPrefix(steps, x.records, x.blocked)
    requires !x.blocked ==> |x.records| == k
    ensures var x' := ExpandFrom(a, env, call, steps, k, x);
            RecordsPrefix(steps, x'.records, x'.blocked) && (!x'.blocked ==> |x'.records| == |steps|)
    decreases |steps| - k
  {
    hide GateCall, ExecuteCallSpec, AddNew;
    if k < |steps| && !x.blocked {
      ExpandPrefix(a, env, call, steps, k + 1, ExpandStep(a, env, call, steps[k], k, x));
    }
  }

  ghost predicate AllRan(records: seq<StepRecord>) {
    forall i | 0 <= i < |records| :: records[i].StepRan?
  }

  /** Success of a skill means that no step was blocked, not that the steps
      themselves succeeded. */
  lemma SkillRunsPrefix<W>(a: Agent, env: Env<W>, w: W, call: ToolCall)
    requires env.words.skillName(call) in a.skills
    ensures var steps := a.skills[env.words.skillName(call)].steps;
            var s := ExpandSkillSpec(a, env, w, call);
            && RecordsPrefix(steps, s.x.records, s.x.blocked)
            && |s.x.records| + s.skipped == |steps|
            && (s.result.success <==> AllRan(s.x.records))
            && (s.result.success ==> s.skipped == 0)
  {
    var steps := a.skills[env.words.skillName(call)].steps;
    var none := Expansion(w, [], [], [], false, []);
    ExpandPrefix(a, env, call, steps, 0, none);
    hide ExpandFrom;
    var x := ExpandFrom(a, env, call, steps, 0, none);
    assert ExpandSkillSpec(a, env, w, call) == FinishSkill(env, call, |steps|, x);
    if x.blocked {
      assert x.records[|x.records| - 1].StepBlocked?;
    }
  }

  // ---- Traces of the gate phase --------------------------------------------

  lemma SafeQuietly(a: Agent, events: seq<Event>, more: seq<Event>)
    requires GateSafe(a, events) && forall i | 0 <= i < |more| :: !more[i].Attempted?
    ensures GateSafe(a, events + more)
  {
    hide AllowedIn;
    GateSafeAppend(a, events, more);
  }

  /** Running an allowed call again and again stays safe. */
  lemma AttemptsAreSafe(a: Agent, events: seq<Event>, attempts: seq<Event>, call: ToolCall)
    requires GateSafe(a, events) && AllowedIn(a, events, call) && OnlyAttempts(attempts, call)
    ensures GateSafe(a, events + attempts)
  {
    forall i | 0 <= i < |attempts|
      ensures AllowedIn(a, events + attempts[..i], attempts[i].call)
    {
      assert attempts[i] == Attempted(call);
      AllowsStable(a, events, attempts[..i], call);
    }
    GateSafeAppend(a, events, attempts);
  }

  /** After the gate phase of one call: still safe, and an allowed call has its
      pass on record. */
  lemma GatePhaseSafe<W>(a: Agent, env: Env<W>, w: W, call: ToolCall, before: seq<Event>)
    requires GateSafe(a, before)
    ensures var g := GateCall(a, env, w, call);
            var events := before + g.events + [GateDecided(call, g.decision)];
            GateSafe(a, events) && (g.decision == Allowed ==> AllowedIn(a, events, call))
  {
    GateCallExact(a, env, w, call);
    var g := GateCall(a, env, w, call);
    GateQuiet(a, env, w, call);
    assert forall i | 0 <= i < |g.events| :: !g.events[i].Attempted?;
    hide AllowsAt, GateCall;
    SafeQuietly(a, before, g.events);
    SafeQuietly(a, before + g.events, [GateDecided(call, g.decision)]);
  }

  lemma ExpandStepSafe<W>(a: Agent, env: Env<W>, call: ToolCall, step: SkillStep, k: nat, x: Expansion<W>)
    requires GateSafe(a, x.events)
    ensures GateSafe(a, ExpandStep(a, env, call, step, k, x).events)
  {
    hide GateSafe, AllowedIn, GateCall, ExecuteCallSpec, AddNew, OnlyAttempts;
    var sc := StepCall(call, k, step);
    var g := GateCall(a, env, x.w, sc);
    SafeQuietly(a, x.events, [CallRequested(sc)]);
    GatePhaseSafe(a, env, x.w, sc, x.events + [CallRequested(sc)]);
    if g.decision == Allowed {
      var gated := x.events + [CallRequested(sc)] + g.events + [GateDecided(sc, g.decision)];
      var ran := ExecuteCallSpec(env, g.w, sc, MAX_RETRIES);
      ExecuteAttempts(env, g.w, sc, MAX_RETRIES);
      AttemptsAreSafe(a, gated, ran.events, sc);
      SafeQuietly(a, gated + ran.events, [StepFinished(ran.result)]);
    }
  }

  lemma {:induction false} ExpandFromSafe<W>(a: Agent, env: Env<W>, call: ToolCall, steps: seq<SkillStep>, k: nat,
                                             x: Expansion<W>)
    requires k <= |steps| && GateSafe(a, x.events)
    ensures GateSafe(a, ExpandFrom(a, env, call, steps, k, x).events)
    decreases |steps| - k
  {
    hide GateSafe, ExpandStep;
    if k < |steps| && !x.blocked {
      ExpandStepSafe(a, env, call, steps[k], k, x);
      ExpandFromSafe(a, env, call, steps, k + 1, ExpandStep(a, env, call, steps[k], k, x));
    }
  }

  lemma SkillSafe<W>(a: Agent, env: Env<W>, w: W, call: ToolCall)
    ensures GateSafe(a, ExpandSkillSpec(a, env, w, call).x.events)
  {
    assert GateSafe(a, []);
    hide GateSafe;
    var name := env.words.skillName(call);
    if name in a.skills {
      ExpandFromSafe(a, env, call, a.skills[name].steps, 0, Expansion(w, [], [], [], false, []));
    }
  }

  /** Every ready call has its pass among the events so far. */
  ghost predicate ReadyAllowed(a: Agent, items: seq<ExecItem>, events: seq<Event>) {
    forall i | 0 <= i < |items| :: items[i].CallItem? ==> AllowedIn(a, events, items[i].call)
  }

  lemma ReadyStays(a: Agent, items: seq<ExecItem>, events: seq<Event>, more: seq<Event>)
    requires ReadyAllowed(a, items, events)
    ensures ReadyAllowed(a, items, events + more)
  {
    forall i | 0 <= i < |items| && items[i].CallItem?
      ensures AllowedIn(a, events + more, items[i].call)
    {
      AllowsStable(a, events, more, items[i].call);
    }
  }

  ghost predicate BatchSafe<W>(a: Agent, b: Batch<W>) {
    GateSafe(a, b.events) && ReadyAllowed(a, b.ready, b.events)
  }

  lemma GateStepSafe<W>(a: Agent, env: Env<W>, b: Batch<W>, call: ToolCall)
    requires BatchSafe(a, b)
    ensures BatchSafe(a, GateStep(a, env, b, call))
  {
    hide GateSafe, AllowedIn, GateCall, ExpandSkillSpec, AddAll;
    var g := GateCall(a, env, b.w, call);
    var gated := g.events + [GateDecided(call, g.decision)];
    var events := b.events + g.events + [GateDecided(call, g.decision)];
    GatePhaseSafe(a, env, b.w, call, b.events);
    ReadyStays(a, b.ready, b.events, gated);
    assert events == b.events + gated;
    if g.decision != Allowed {
      var last := [BlockAnswered(BlockedResult(env.words, call, g.decision))];
      SafeQuietly(a, events, last);
      ReadyStays(a, b.ready, events, last);
    } else if call.name == USE_SKILL {
      var s := ExpandSkillSpec(a, env, g.w, call);
      SkillSafe(a, env, g.w, call);
      GateSafeConcat(a, events, s.x.events);
      ReadyStays(a, b.ready, events, s.x.events);
    }
  }

  lemma {:induction false} GateAllSafe<W>(a: Agent, env: Env<W>, b: Batch<W>, calls: seq<ToolCall>)
    requires BatchSafe(a, b)
    ensures BatchSafe(a, GateAll(a, env, b, calls))
    decreases |calls|
  {
    hide BatchSafe, GateStep;
    if calls != [] {
      GateStepSafe(a, env, b, calls[0]);
      GateAllSafe(a, env, GateStep(a, env, b, calls[0]), calls[1..]);
    }
  }

  /** Every future that is not done belongs to a call that passed. */
  ghost predicate SlotsAllowed(a: Agent, slots: seq<Slot>, trace: seq<Event>) {
    forall i | 0 <= i < |slots| :: !slots[i].Finished? ==> AllowedIn(a, trace, slots[i].call)
  }

  lemma PollSafe<W>(a: Agent, env: Env<W>, before: seq<Event>, p: Pool<W>, k: nat)
    requires GateSafe(a, before + p.events) && SlotsAllowed(a, p.slots, before)
    ensures var p' := Poll(env, p, k);
            GateSafe(a, before + p'.events) && SlotsAllowed(a, p'.slots, before)
  {
    hide GateSafe, AllowedIn;
    if k < |p.slots| && p.slots[k].Waiting? {
      var call := p.slots[k].call;
      AllowsStable(a, before, p.events, call);
      AttemptsAreSafe(a, before + p.events, [Attempted(call)], call);
      assert before + p.events + [Attempted(call)] == before + (p.events + [Attempted(call)]);
    }
  }

  /** Every interleaving of the attempts of a batch. */
  lemma {:induction false} PollsAreSafe<W>(a: Agent, env: Env<W>, before: seq<Event>, p: Pool<W>, order: seq<nat>)
    requires GateSafe(a, before + p.events) && SlotsAllowed(a, p.slots, before)
    ensures GateSafe(a, before + PollAll(env, p, order).events)
    decreases |order|
  {
    hide GateSafe, SlotsAllowed, Poll;
    if order != [] {
      PollSafe(a, env, before, p, order[0]);
      PollsAreSafe(a, env, before, Poll(env, p, order[0]), order[1..]);
    }
  }

  lemma ExecuteAllSafe<W>(a: Agent, env: Env<W>, before: seq<Event>, w: W, items: seq<ExecItem>)
    requires GateSafe(a, before) && ReadyAllowed(a, items, before)
    ensures GateSafe(a, before + ExecuteAll(env, w, items).events)
  {
    hide GateSafe, AllowedIn, PollAll;
    var p := Pool(SlotsOf(items), w, []);
    assert before + p.events == before;
    forall i | 0 <= i < |items|
      ensures !p.slots[i].Finished? ==> AllowedIn(a, before, p.slots[i].call)
    {
      assert p.slots[i] == SlotOf(items[i]);
    }
    PollsAreSafe(a, env, before, p, Order(env, w, |items|));
  }

  lemma BatchRunSafe<W>(a: Agent, env: Env<W>, g: Guard, w: W, calls: seq<ToolCall>)
    ensures var b := GateBatchSpec(a, env, g, w, calls);
            GateSafe(a, b.events + ExecuteAll(env, b.w, b.ready).events)
  {
    var b0 := Batch(w, AddAll(g.used, NamesOf(calls)), g.executed, [], [], [], RequestEvents(calls));
    assert BatchSafe(a, b0);
    GateAllSafe(a, env, b0, calls);
    var b := GateBatchSpec(a, env, g, w, calls);
    ExecuteAllSafe(a, env, b.events, b.w, b.ready);
  }

  lemma NoAttemptsSafe(a: Agent, events: seq<Event>)
    requires forall i | 0 <= i < |events| :: !events[i].Attempted?
    ensures GateSafe(a, events)
  {
  }

  ghost predicate OnlyAnswers(events: seq<Event>) {
    forall i | 0 <= i < |events| :: events[i].Answered?
  }

  lemma {:induction false} AbsorbNoAttempts(words: Wording, s: Absorption, results: seq<ToolResult>)
    requires OnlyAnswers(s.events)
    ensures OnlyAnswers(AbsorbAll(words, s, results).events)
    decreases |results|
  {
    hide AbsorbGuard;
    if results != [] {
      AbsorbNoAttempts(words, Absorb(words, s, results[0]), results[1..]);
    }
  }

  /** Whatever the model, the policy, the humans and the tools do: every
      executor run of a turn was let through by the whole gate chain. */
  lemma TurnIsGateSafe<W>(a: Agent, env: Env<W>, p: Prompts, conv0: seq<Message>, g: Guard, w: W)
    requires conv0 != []
    ensures GateSafe(a, RunTurn(a, env, p, conv0, g, w).events)
  {
    hide GateSafe, ToolTurn, AnswerTurn, Window, Dropped, Outgoing, ToolCount;
    var conv := Window(conv0);
    var out := RunTurn(a, env, p, conv0, g, w);
    var cut := Trimmed(ToolCount(Dropped(conv0)));
    NoAttemptsSafe(a, [cut]);
    if !(a.privacy.Policy? && !a.privacy.allowed) {
      var sent := Outgoing(a, env, conv);
      var (reply, w1) := env.chat(w, sent);
      var events1 := [cut] + [ChatRequested(sent)];
      SafeQuietly(a, [cut], [ChatRequested(sent)]);
      if reply.Replied? && !reply.turn.IsEmpty() {
        var turn := reply.turn;
        var content := if Redacts(a) then env.unmask(turn.content, conv) else turn.content;
        var conv1 := conv + [Message(Assistant, content, turn.toolCalls, None, turn.reasoning)];
        if turn.toolCalls != [] {
          ToolTurnSafe(a, env, p, conv1, g.(emptyRetried := false), w1, turn.toolCalls, events1);
        } else {
          AnswerTurnSafe(a, env, p, conv1, g.(emptyRetried := false), w1, content, events1);
        }
      }
    }
  }

  lemma ToolTurnSafe<W>(a: Agent, env: Env<W>, p: Prompts, conv: seq<Message>, g: Guard, w: W,
                        calls: seq<ToolCall>, events: seq<Event>)
    requires GateSafe(a, events)
    ensures GateSafe(a, ToolTurn(a, env, p, conv, g, w, calls, events).events)
  {
    hide GateSafe, GateBatchSpec, ExecuteAll, AbsorbAll, ShortcutAll, IsOneShot, NudgeFor;
    var b := GateBatchSpec(a, env, g, w, calls);
    var r := ExecuteAll(env, b.w, b.ready);
    BatchRunSafe(a, env, g, w, calls);
    GateSafeConcat(a, events, b.events + r.events);
    assert events + (b.events + r.events) == events + b.events + r.events;
    var ran := events + b.events + r.events;
    var out := ToolTurn(a, env, p, conv, g, w, calls, events);
    var more := out.events[|ran|..];
    assert out.events == ran + more;
    var s0 := Absorption(g.(used := b.used, executed := b.executed), b.observations, b.answers, []);
    var s := AbsorbAll(env.words, s0, r.results);
    AbsorbNoAttempts(env.words, s0, r.results);
    forall i | 0 <= i < |more|
      ensures !more[i].Attempted?
    {
      if out.end.Some? {
        assert more == ShortcutEvents(r.results);
      } else {
        assert more == s.events + [Nudged(NudgeFor(s.g.sameCount))];
      }
    }
    SafeQuietly(a, ran, more);
  }

  lemma AnswerTurnSafe<W>(a: Agent, env: Env<W>, p: Prompts, conv: seq<Message>, g: Guard, w: W,
                          answer: string, events: seq<Event>)
    requires GateSafe(a, events)
    ensures GateSafe(a, AnswerTurn(a, env, p, conv, g, w, answer, events).events)
  {
    hide GateSafe, InterpretVerification, ToolCount;
    var out := AnswerTurn(a, env, p, conv, g, w, answer, events);
    SafeQuietly(a, events, [Audited(g.executedCalls, ToolCount(conv))]);
  }
}
