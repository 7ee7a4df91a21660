/** One pass of the gate covers one call and its retries: at no moment of a run
    has a call run more than three times per pass of its own. */
module Coverage {
  import opened Wrappers
  import opened Messages
  import opened Gate
  import opened Execution
  import opened AgentLoop
  import opened Counters
  import opened GateSafety

  const RUNS_PER_PASS: nat := MAX_RETRIES + 1

  function CreditOne(e: Event, call: ToolCall): int {
    if e == GateDecided(call, Allowed) then RUNS_PER_PASS else if e == Attempted(call) then -1 else 0
  }

  /** Passes of the gate for `call` times the runs a pass allows, minus the runs
      that happened. */
  function Credit(events: seq<Event>, call: ToolCall): int {
    if events == [] then 0 else CreditOne(events[0], call) + Credit(events[1..], call)
  }

  lemma CreditCons(e: Event, events: seq<Event>, call: ToolCall)
    ensures Credit([e] + events, call) == CreditOne(e, call) + Credit(events, call)
  {
    assert ([e] + events)[1..] == events;
  }

  lemma CreditEmpty(call: ToolCall)
    ensures Credit([], call) == 0
  {
  }

  lemma CreditSingle(e: Event, call: ToolCall)
    ensures Credit([e], call) == CreditOne(e, call)
  {
    CreditCons(e, [], call);
    CreditEmpty(call);
  }

  lemma {:induction false} CreditAppend(x: seq<Event>, y: seq<Event>, call: ToolCall)
    ensures Credit(x + y, call) == Credit(x, call) + Credit(y, call)
  {
    hide *;
    if x == [] {
      CreditEmpty(call);
      assert x + y == y;
    } else {
      var e, rest := x[0], x[1..];
      assert x == [e] + rest && x + y == [e] + (rest + y);
      CreditCons(e, rest, call);
      CreditCons(e, rest + y, call);
      CreditAppend(rest, y, call);
    }
  }

  /** Events that neither pass a gate nor run anything. */
  ghost predicate Idle(events: seq<Event>) {
    forall i | 0 <= i < |events| :: !events[i].Attempted? && !events[i].GateDecided?
  }

  lemma {:induction false} IdleCredit(events: seq<Event>, call: ToolCall)
    requires Idle(events)
    ensures Credit(events, call) == 0
  {
    if events != [] {
      assert Idle(events[1..]);
      IdleCredit(events[1..], call);
    }
  }

  lemma {:induction false} AttemptsCredit(events: seq<Event>, run: ToolCall, call: ToolCall)
    requires OnlyAttempts(events, run)
    ensures Credit(events, call) == if run == call then -|events| else 0
  {
    if events != [] {
      assert events[0] == Attempted(run);
      assert OnlyAttempts(events[1..], run);
      AttemptsCredit(events[1..], run, call);
    }
  }

  /** The gate phase of one call earns the runs it lets through. */
  lemma GatePhaseCredit<W>(a: Agent, env: Env<W>, w: W, gated: ToolCall, call: ToolCall)
    ensures var g := GateCall(a, env, w, gated);
            Credit(g.events + [GateDecided(gated, g.decision)], call)
              == if g.decision == Allowed && gated == call then RUNS_PER_PASS else 0
  {
    var g := GateCall(a, env, w, gated);
    assert Idle(g.events);
    hide GateCall;
    IdleCredit(g.events, call);
    CreditSingle(GateDecided(gated, g.decision), call);
    CreditAppend(g.events, [GateDecided(gated, g.decision)], call);
  }

  // ---- At every moment -----------------------------------------------------

  /** At no moment of the trace has `call` run more than its passes allow: a
      denied call is not covered by an equal call that was allowed before. */
  ghost predicate CoveredFor(events: seq<Event>, call: ToolCall) {
    forall i | 0 <= i <= |events| :: Credit(events[..i], call) >= 0
  }

  lemma CoveredCredit(events: seq<Event>, call: ToolCall)
    requires CoveredFor(events, call)
    ensures Credit(events, call) >= 0
  {
    assert events[..|events|] == events;
  }

  lemma CoveredMore(x: seq<Event>, y: seq<Event>, call: ToolCall)
    requires CoveredFor(x, call)
    requires forall i | 0 <= i <= |y| :: Credit(x, call) + Credit(y[..i], call) >= 0
    ensures CoveredFor(x + y, call) && Credit(x + y, call) == Credit(x, call) + Credit(y, call)
  {
    hide Credit;
    forall i | 0 <= i <= |x + y|
      ensures Credit((x + y)[..i], call) >= 0
    {
      if i <= |x| {
        assert (x + y)[..i] == x[..i];
      } else {
        assert (x + y)[..i] == x + y[..i - |x|];
        CreditAppend(x, y[..i - |x|], call);
      }
    }
    CreditAppend(x, y, call);
  }

  lemma CoveredConcat(x: seq<Event>, y: seq<Event>, call: ToolCall)
    requires CoveredFor(x, call) && CoveredFor(y, call)
    ensures CoveredFor(x + y, call) && Credit(x + y, call) == Credit(x, call) + Credit(y, call)
  {
    hide Credit;
    CoveredCredit(x, call);
    CoveredMore(x, y, call);
  }

  lemma CoveredPrefix(events: seq<Event>, n: nat, call: ToolCall)
    requires CoveredFor(events, call) && n <= |events|
    ensures CoveredFor(events[..n], call)
  {
    hide Credit;
    forall i | 0 <= i <= n
      ensures Credit(events[..n][..i], call) >= 0
    {
      assert events[..n][..i] == events[..i];
    }
  }

  lemma IdleIsCovered(events: seq<Event>, call: ToolCall)
    requires Idle(events)
    ensures CoveredFor(events, call) && Credit(events, call) == 0
  {
    hide Credit;
    IdleCredit(events, call);
    forall i | 0 <= i <= |events|
      ensures Credit(events[..i], call) >= 0
    {
      IdleCredit(events[..i], call);
    }
  }

  lemma GatePhaseCovered<W>(a: Agent, env: Env<W>, w: W, gated: ToolCall, call: ToolCall)
    ensures var g := GateCall(a, env, w, gated);
            var gate := g.events + [GateDecided(gated, g.decision)];
            CoveredFor(gate, call)
            && Credit(gate, call) == if g.decision == Allowed && gated == call then RUNS_PER_PASS else 0
  {
    var g := GateCall(a, env, w, gated);
    assert Idle(g.events);
    var last := [GateDecided(gated, g.decision)];
    GatePhaseCredit(a, env, w, gated, call);
    CreditEmpty(call);
    CreditSingle(last[0], call);
    hide GateCall, Credit;
    IdleIsCovered(g.events, call);
    assert last[..0] == [] && last[..1] == last;
    CoveredMore(g.events, last, call);
  }

  /** Runs of one call after credit enough for them. */
  lemma AttemptsCovered(x: seq<Event>, attempts: seq<Event>, run: ToolCall, call: ToolCall)
    requires CoveredFor(x, call) && OnlyAttempts(attempts, run)
    requires run == call ==> Credit(x, call) >= |attempts|
    ensures CoveredFor(x + attempts, call)
    ensures Credit(x + attempts, call) == Credit(x, call) - if run == call then |attempts| else 0
  {
    hide Credit;
    CoveredCredit(x, call);
    forall i | 0 <= i <= |attempts|
      ensures Credit(x, call) + Credit(attempts[..i], call) >= 0
    {
      AttemptsCredit(attempts[..i], run, call);
    }
    CoveredMore(x, attempts, call);
    AttemptsCredit(attempts, run, call);
  }

  lemma ExpandStepCovered<W>(a: Agent, env: Env<W>, call: ToolCall, step: SkillStep, k: nat, x: Expansion<W>,
                             c: ToolCall)
    requires CoveredFor(x.events, c)
    ensures CoveredFor(ExpandStep(a, env, call, step, k, x).events, c)
  {
    hide Credit, CoveredFor, GateCall, ExecuteCallSpec, AddNew, OnlyAttempts;
    var sc := StepCall(call, k, step);
    var g := GateCall(a, env, x.w, sc);
    var gate := g.events + [GateDecided(sc, g.decision)];
    var asked := x.events + [CallRequested(sc)];
    IdleIsCovered([CallRequested(sc)], c);
    CoveredConcat(x.events, [CallRequested(sc)], c);
    GatePhaseCovered(a, env, x.w, sc, c);
    CoveredConcat(asked, gate, c);
    assert asked + gate == x.events + [CallRequested(sc)] + g.events + [GateDecided(sc, g.decision)];
    if g.decision == Allowed {
      var ran := ExecuteCallSpec(env, g.w, sc, MAX_RETRIES);
      ExecuteAttempts(env, g.w, sc, MAX_RETRIES);
      CoveredCredit(asked, c);
      AttemptsCovered(asked + gate, ran.events, sc, c);
      IdleIsCovered([StepFinished(ran.result)], c);
      CoveredConcat(asked + gate + ran.events, [StepFinished(ran.result)], c);
    }
  }

  lemma {:induction false} ExpandFromCovered<W>(a: Agent, env: Env<W>, call: ToolCall, steps: seq<SkillStep>, k: nat,
                                                x: Expansion<W>, c: ToolCall)
    requires k <= |steps| && CoveredFor(x.events, c)
    ensures CoveredFor(ExpandFrom(a, env, call, steps, k, x).events, c)
    decreases |steps| - k
  {
    hide CoveredFor, ExpandStep;
    if k < |steps| && !x.blocked {
      ExpandStepCovered(a, env, call, steps[k], k, x, c);
      ExpandFromCovered(a, env, call, steps, k + 1, ExpandStep(a, env, call, steps[k], k, x), c);
    }
  }

  lemma SkillCovered<W>(a: Agent, env: Env<W>, w: W, call: ToolCall, c: ToolCall)
    ensures CoveredFor(ExpandSkillSpec(a, env, w, call).x.events, c)
  {
    hide CoveredFor, ExpandFrom;
    IdleIsCovered([], c);
    var name := env.words.skillName(call);
    if name in a.skills {
      ExpandFromCovered(a, env, call, a.skills[name].steps, 0, Expansion(w, [], [], [], false, []), c);
    }
  }

  function ReadyCount(items: seq<ExecItem>, call: ToolCall): nat {
    if items == [] then 0 else (if items[0] == CallItem(call) then 1 else 0) + ReadyCount(items[1..], call)
  }

  lemma {:induction false} ReadyCountAppend(items: seq<ExecItem>, item: ExecItem, call: ToolCall)
    ensures ReadyCount(items + [item], call) == ReadyCount(items, call) + if item == CallItem(call) then 1 else 0
  {
    if items == [] {
      assert items + [item] == [item];
      assert [item][1..] == [];
    } else {
      assert (items + [item])[1..] == items[1..] + [item];
      ReadyCountAppend(items[1..], item, call);
    }
  }

  /** The gate phase is covered and has earned the runs of what is ready. */
  ghost predicate Funded<W>(b: Batch<W>, call: ToolCall) {
    CoveredFor(b.events, call) && Credit(b.events, call) >= RUNS_PER_PASS * ReadyCount(b.ready, call)
  }

  lemma GateStepFunded<W>(a: Agent, env: Env<W>, b: Batch<W>, call: ToolCall, c: ToolCall)
    requires Funded(b, c)
    ensures Funded(GateStep(a, env, b, call), c)
  {
    hide Credit, CoveredFor, GateCall, ExpandSkillSpec, AddAll, ReadyCount;
    var g := GateCall(a, env, b.w, call);
    var gate := g.events + [GateDecided(call, g.decision)];
    GatePhaseCovered(a, env, b.w, call, c);
    CoveredConcat(b.events, gate, c);
    assert b.events + gate == b.events + g.events + [GateDecided(call, g.decision)];
    if g.decision != Allowed {
      var last := BlockAnswered(BlockedResult(env.words, call, g.decision));
      IdleIsCovered([last], c);
      CoveredConcat(b.events + gate, [last], c);
    } else if call.name == USE_SKILL {
      var s := ExpandSkillSpec(a, env, g.w, call);
      SkillCovered(a, env, g.w, call, c);
      CoveredCredit(s.x.events, c);
      CoveredConcat(b.events + gate, s.x.events, c);
      ReadyCountAppend(b.ready, SkillItem(s.result), c);
    } else {
      ReadyCountAppend(b.ready, CallItem(call), c);
    }
  }

  lemma {:induction false} GateAllFunded<W>(a: Agent, env: Env<W>, b: Batch<W>, calls: seq<ToolCall>, c: ToolCall)
    requires Funded(b, c)
    ensures Funded(GateAll(a, env, b, calls), c)
    decreases |calls|
  {
    hide Funded, GateStep;
    if calls != [] {
      GateStepFunded(a, env, b, calls[0], c);
      GateAllFunded(a, env, GateStep(a, env, b, calls[0]), calls[1..], c);
    }
  }

  /** The runs of `call` that a future may still start. */
  function Owed(slot: Slot, call: ToolCall): nat {
    match slot
    case Waiting(c, retries) => if c == call then retries + 1 else 0
    case Trying(c, retries) => if c == call then retries else 0
    case Finished(_) => 0
  }

  function OwedIn(slots: seq<Slot>, call: ToolCall): nat {
    if slots == [] then 0 else Owed(slots[0], call) + OwedIn(slots[1..], call)
  }

  lemma {:induction false} OwedReplace(slots: seq<Slot>, k: nat, slot: Slot, call: ToolCall)
    requires k < |slots|
    ensures OwedIn(slots[k := slot], call) + Owed(slots[k], call) == OwedIn(slots, call) + Owed(slot, call)
  {
    var after := slots[k := slot];
    if k == 0 {
      assert after[1..] == slots[1..];
    } else {
      assert after[1..] == slots[1..][k - 1 := slot];
      OwedReplace(slots[1..], k - 1, slot, call);
    }
  }

  lemma {:induction false} OwedAtStart(items: seq<ExecItem>, call: ToolCall)
    ensures OwedIn(SlotsOf(items), call) == RUNS_PER_PASS * ReadyCount(items, call)
  {
    if items != [] {
      OwedAtStart(items[1..], call);
      assert SlotsOf(items)[1..] == SlotsOf(items[1..]);
      assert SlotsOf(items)[0] == SlotOf(items[0]);
    }
  }

  /** The credit always covers what the futures may still run. */
  ghost predicate Backed<W>(before: seq<Event>, p: Pool<W>, call: ToolCall) {
    CoveredFor(before + p.events, call) && Credit(before + p.events, call) >= OwedIn(p.slots, call)
  }

  lemma PollBacked<W>(env: Env<W>, before: seq<Event>, p: Pool<W>, k: nat, c: ToolCall)
    requires Backed(before, p, c)
    ensures Backed(before, Poll(env, p, k), c)
  {
    hide Credit, CoveredFor, OwedIn;
    if k < |p.slots| {
      var p' := Poll(env, p, k);
      OwedReplace(p.slots, k, p'.slots[k], c);
      assert p'.slots == p.slots[k := p'.slots[k]];
      if p.slots[k].Waiting? {
        var call := p.slots[k].call;
        AttemptsCovered(before + p.events, [Attempted(call)], call, c);
        assert before + p.events + [Attempted(call)] == before + p'.events;
      }
    }
  }

  /** Every interleaving of the attempts of a batch. */
  lemma {:induction false} PollsAreBacked<W>(env: Env<W>, before: seq<Event>, p: Pool<W>, order: seq<nat>, c: ToolCall)
    requires Backed(before, p, c)
    ensures Backed(before, PollAll(env, p, order), c)
    decreases |order|
  {
    hide Backed, Poll;
    if order != [] {
      PollBacked(env, before, p, order[0], c);
      PollsAreBacked(env, before, Poll(env, p, order[0]), order[1..], c);
    }
  }

  lemma ExecuteAllCovered<W>(env: Env<W>, before: seq<Event>, w: W, items: seq<ExecItem>, c: ToolCall)
    requires CoveredFor(before, c) && Credit(before, c) >= RUNS_PER_PASS * ReadyCount(items, c)
    ensures CoveredFor(before + ExecuteAll(env, w, items).events, c)
  {
    hide Credit, CoveredFor, PollAll, OwedIn, ReadyCount;
    var p := Pool(SlotsOf(items), w, []);
    assert before + p.events == before;
    OwedAtStart(items, c);
    PollsAreBacked(env, before, p, Order(env, w, |items|), c);
  }

  /** In a batch no call ever runs more than three times per pass of its own. */
  lemma BatchRunsCovered<W>(a: Agent, env: Env<W>, g: Guard, w: W, calls: seq<ToolCall>, c: ToolCall)
    ensures var b := GateBatchSpec(a, env, g, w, calls);
            CoveredFor(b.events + ExecuteAll(env, b.w, b.ready).events, c)
  {
    hide Credit, CoveredFor, AddAll, GateAll, ExecuteAll;
    var b0 := Batch(w, AddAll(g.used, NamesOf(calls)), g.executed, [], [], [], RequestEvents(calls));
    assert Idle(RequestEvents(calls));
    IdleIsCovered(RequestEvents(calls), c);
    GateAllFunded(a, env, b0, calls, c);
    var b := GateBatchSpec(a, env, g, w, calls);
    ExecuteAllCovered(env, b.events, b.w, b.ready, c);
  }

  // ---- A whole turn --------------------------------------------------------

  /** Whatever surrounds a batch in its turn neither passes a gate nor runs. */
  lemma ToolTurnCovered<W>(a: Agent, env: Env<W>, p: Prompts, conv: seq<Message>, g: Guard, w: W,
                           calls: seq<ToolCall>, events: seq<Event>, c: ToolCall)
    requires CoveredFor(events, c)
    ensures CoveredFor(ToolTurn(a, env, p, conv, g, w, calls, events).events, c)
  {
    hide Credit, CoveredFor, GateBatchSpec, ExecuteAll, AbsorbAll, ShortcutAll, IsOneShot, NudgeFor;
    var b := GateBatchSpec(a, env, g, w, calls);
    var r := ExecuteAll(env, b.w, b.ready);
    BatchRunsCovered(a, env, g, w, calls, c);
    CoveredConcat(events, b.events + r.events, c);
    assert events + (b.events + r.events) == events + b.events + r.events;
    var ran := events + b.events + r.events;
    var s0 := Absorption(g.(used := b.used, executed := b.executed), b.observations, b.answers, []);
    var s := AbsorbAll(env.words, s0, r.results);
    AbsorbNoAttempts(env.words, s0, r.results);
    var tail := s.events + [Nudged(NudgeFor(s.g.sameCount))];
    assert Idle(tail) && Idle(ShortcutEvents(r.results));
    IdleIsCovered(tail, c);
    IdleIsCovered(ShortcutEvents(r.results), c);
    CoveredConcat(ran, tail, c);
    CoveredConcat(ran, ShortcutEvents(r.results), c);
    assert ran + tail == ran + s.events + [Nudged(NudgeFor(s.g.sameCount))];
  }

  lemma AnswerTurnCovered<W>(a: Agent, env: Env<W>, p: Prompts, conv: seq<Message>, g: Guard, w: W,
                             answer: string, events: seq<Event>, c: ToolCall)
    requires CoveredFor(events, c)
    ensures CoveredFor(AnswerTurn(a, env, p, conv, g, w, answer, events).events, c)
  {
    hide Credit, CoveredFor, InterpretVerification, ToolCount, VerifyQuestion;
    var audit := [Audited(g.executedCalls, ToolCount(conv))];
    IdleIsCovered(audit, c);
    CoveredConcat(events, audit, c);
  }

  lemma TurnIsCovered<W>(a: Agent, env: Env<W>, p: Prompts, conv0: seq<Message>, g: Guard, w: W, c: ToolCall)
    requires conv0 != []
    ensures CoveredFor(RunTurn(a, env, p, conv0, g, w).events, c)
  {
    hide Credit, CoveredFor, ToolTurn, AnswerTurn, Window, Dropped, Outgoing, ToolCount;
    var conv := Window(conv0);
    var cut := Trimmed(ToolCount(Dropped(conv0)));
    IdleIsCovered([cut], c);
    if !(a.privacy.Policy? && !a.privacy.allowed) {
      var sent := Outgoing(a, env, conv);
      var (reply, w1) := env.chat(w, sent);
      var events1 := [cut] + [ChatRequested(sent)];
      IdleIsCovered(events1, c);
      if reply.Replied? && !reply.turn.IsEmpty() {
        var turn := reply.turn;
        var content := if Redacts(a) then env.unmask(turn.content, conv) else turn.content;
        var conv1 := conv + [Message(Assistant, content, turn.toolCalls, None, turn.reasoning)];
        if turn.toolCalls != [] {
          ToolTurnCovered(a, env, p, conv1, g.(emptyRetried := false), w1, turn.toolCalls, events1, c);
        } else {
          AnswerTurnCovered(a, env, p, conv1, g.(emptyRetried := false), w1, content, events1, c);
        }
      }
    }
  }

  /** Covered for every call at once. */
  ghost predicate Covered(events: seq<Event>) {
    forall call: ToolCall :: CoveredFor(events, call)
  }

  lemma CoveredTogether(x: seq<Event>, y: seq<Event>)
    requires Covered(x) && Covered(y)
    ensures Covered(x + y)
  {
    hide CoveredFor;
    forall call: ToolCall
      ensures CoveredFor(x + y, call)
    {
      CoveredConcat(x, y, call);
    }
  }

  lemma FirstEventsCovered<W>(a: Agent, env: Env<W>, p: Prompts, conv: seq<Message>, g: Guard, w: W, n: nat)
    requires conv != [] && n <= |RunTurn(a, env, p, conv, g, w).events|
    ensures Covered(RunTurn(a, env, p, conv, g, w).events[..n])
  {
    hide CoveredFor, RunTurn;
    var events := RunTurn(a, env, p, conv, g, w).events;
    forall call: ToolCall
      ensures CoveredFor(events[..n], call)
    {
      TurnIsCovered(a, env, p, conv, g, w, call);
      CoveredPrefix(events, n, call);
    }
  }
}
