/** The agent loop: trim, ask the model, gate and run its calls, nudge, verify.

    Every loop of the source is a method here, proved equal to a function of
    its inputs; the functions are what the other modules reason about. */
module AgentLoop {
  import opened Wrappers
  import opened Text
  import opened Messages
  import opened Gate
  import opened Execution

  const MAX_TAIL: nat := 30
  const SOFT_LIMIT: nat := 2
  const HARD_LIMIT: nat := 3
  const U32_MAX: nat := 0xFFFF_FFFF
  const USIZE_MAX: nat := 0xFFFF_FFFF_FFFF_FFFF
  const USE_SKILL := "use_skill"

  /** The loop locals a checkpoint carries, apart from the step counter. */
  datatype Guard = Guard(lastTool: Option<string>, sameCount: nat, emptyRetried: bool,
                         lastGood: Option<string>, used: seq<string>,
                         executed: seq<string>, executedCalls: nat)

  const FRESH := Guard(None, 0, false, None, [], [], 0)

  /** The task prompt as typed, and as the model may see it. */
  datatype Prompts = Prompts(prompt: string, safe: string)

  datatype Status = Complete | Failed

  /** Why a turn was the last one, with the answer it gives and saves. */
  datatype Ending = Ending(status: Status, answer: Option<string>)

  function SaturatingNext(n: nat, max: nat): nat {
    if n < max then n + 1 else max
  }

  function AddNew(names: seq<string>, name: string): seq<string> {
    if name in names then names else names + [name]
  }

  function AddAll(names: seq<string>, more: seq<string>): seq<string>
    decreases |more|
  {
    if more == [] then names else AddAll(AddNew(names, more[0]), more[1..])
  }

  // ---- The conversation window ---------------------------------------------

  function Window(conv: seq<Message>): seq<Message>
    requires conv != []
  {
    if |conv| > MAX_TAIL + 1 then [conv[0]] + conv[|conv| - MAX_TAIL..] else conv
  }

  /** The messages that trimming removes. */
  function Dropped(conv: seq<Message>): seq<Message> {
    if |conv| > MAX_TAIL + 1 then conv[1..|conv| - MAX_TAIL] else []
  }

  function ToolCount(conv: seq<Message>): nat {
    if conv == [] then 0
    else ToolCount(conv[..|conv| - 1]) + if conv[|conv| - 1].role == ToolRole then 1 else 0
  }

  predicate Redacts(a: Agent) {
    a.privacy.Policy? && a.privacy.redact
  }

  function Outgoing<W>(a: Agent, env: Env<W>, conv: seq<Message>): seq<Message> {
    if Redacts(a) then
      seq(|conv|, i requires 0 <= i < |conv| => conv[i].(content := env.mask(i, conv[i].content)))
    else conv
  }

  // ---- Expanding a skill ---------------------------------------------------

  datatype Expansion<W> = Expansion(w: W, records: seq<StepRecord>, stepTools: seq<string>,
                                    ranTools: seq<string>, blocked: bool, events: seq<Event>)

  function StepCall(call: ToolCall, k: nat, step: SkillStep): ToolCall {
    ToolCall(call.id + "-step-" + Decimal(k), step.tool, step.arguments)
  }

  function ExpandStep<W>(a: Agent, env: Env<W>, call: ToolCall, step: SkillStep, k: nat,
                         x: Expansion<W>): Expansion<W> {
    var sc := StepCall(call, k, step);
    var g := GateCall(a, env, x.w, sc);
    var events := x.events + [CallRequested(sc)] + g.events + [GateDecided(sc, g.decision)];
    if g.decision != Allowed then
      Expansion(g.w, x.records + [StepBlocked(step.tool, g.decision)],
                AddNew(x.stepTools, step.tool), x.ranTools, true, events)
    else
      var ran := ExecuteCallSpec(env, g.w, sc, MAX_RETRIES);
      Expansion(ran.w, x.records + [StepRan(step.tool, ran.result)],
                AddNew(x.stepTools, step.tool), AddNew(x.ranTools, step.tool), false,
                events + ran.events + [StepFinished(ran.result)])
  }

  /** Steps from `k` on; a blocked step ends the skill. */
  function ExpandFrom<W>(a: Agent, env: Env<W>, call: ToolCall, steps: seq<SkillStep>, k: nat,
                         x: Expansion<W>): Expansion<W>
    requires k <= |steps|
    decreases |steps| - k
  {
    if k == |steps| || x.blocked then x
    else ExpandFrom(a, env, call, steps, k + 1, ExpandStep(a, env, call, steps[k], k, x))
  }

  datatype SkillOutcome<W> = SkillOutcome(result: ToolResult, x: Expansion<W>, skipped: int)

  function FinishSkill<W>(env: Env<W>, call: ToolCall, total: nat, x: Expansion<W>): SkillOutcome<W> {
    var name := env.words.skillName(call);
    var skipped := total - |x.records|;
    SkillOutcome(ToolResult(call.id, call.name, !x.blocked,
                            env.words.skillOutput(name, x.records, skipped),
                            env.words.skillSummary(name, x.records, total)),
                 x, skipped)
  }

  function ExpandSkillSpec<W>(a: Agent, env: Env<W>, w: W, call: ToolCall): SkillOutcome<W> {
    var name := env.words.skillName(call);
    var none := Expansion(w, [], [], [], false, []);
    if name !in a.skills then
      SkillOutcome(ToolResult(call.id, call.name, false, env.words.unknownSkill(name), "Unknown skill"), none, 0)
    else
      var steps := a.skills[name].steps;
      var x := ExpandFrom(a, env, call, steps, 0, none);
      FinishSkill(env, call, |steps|, x)
  }

  method ExpandSkill<W>(a: Agent, env: Env<W>, w: W, call: ToolCall) returns (outcome: SkillOutcome<W>)
    ensures outcome == ExpandSkillSpec(a, env, w, call)
  {
    var name := env.words.skillName(call);
    var x := Expansion(w, [], [], [], false, []);
    if name !in a.skills {
      return SkillOutcome(ToolResult(call.id, call.name, false, env.words.unknownSkill(name), "Unknown skill"), x, 0);
    }
    var steps := a.skills[name].steps;
    var k := 0;
    while k < |steps| && !x.blocked
      invariant 0 <= k <= |steps|
      invariant ExpandFrom(a, env, call, steps, k, x)
             == ExpandFrom(a, env, call, steps, 0, Expansion(w, [], [], [], false, []))
    {
      ghost var x0 := x;
      var step := steps[k];
      var sc := StepCall(call, k, step);
      var g := GateCall(a, env, x.w, sc);
      var events := x.events + [CallRequested(sc)] + g.events + [GateDecided(sc, g.decision)];
      var stepTools := AddNew(x.stepTools, step.tool);
      if g.decision != Allowed {
        x := Expansion(g.w, x.records + [StepBlocked(step.tool, g.decision)], stepTools, x.ranTools, true, events);
      } else {
        var ran := ExecuteCall(env, g.w, sc);
        x := Expansion(ran.w, x.records + [StepRan(step.tool, ran.result)], stepTools,
                       AddNew(x.ranTools, step.tool), false, events + ran.events + [StepFinished(ran.result)]);
      }
      assert x == ExpandStep(a, env, call, step, k, x0);
      k := k + 1;
    }
    outcome := FinishSkill(env, call, |steps|, x);
  }

  // ---- Gating a batch ------------------------------------------------------

  datatype Batch<W> = Batch(w: W, used: seq<string>, executed: seq<string>, ready: seq<ExecItem>,
                            observations: seq<string>, answers: seq<Message>, events: seq<Event>)

  /** What a blocked call leaves in its batch. */
  function AnswerBlocked<W>(env: Env<W>, b: Batch<W>, call: ToolCall, decision: Decision): Batch<W> {
    var result := BlockedResult(env.words, call, decision);
    b.(observations := b.observations + [env.words.observation(result)],
       answers := b.answers + [ToolMessage(result.callId, result.output)],
       events := b.events + [BlockAnswered(result)])
  }

  function GateStep<W>(a: Agent, env: Env<W>, b: Batch<W>, call: ToolCall): Batch<W> {
    var g := GateCall(a, env, b.w, call);
    var events := b.events + g.events + [GateDecided(call, g.decision)];
    if g.decision != Allowed then AnswerBlocked(env, b.(w := g.w, events := events), call, g.decision)
    else if call.name == USE_SKILL then
      var s := ExpandSkillSpec(a, env, g.w, call);
      b.(w := s.x.w,
         used := AddAll(b.used, s.x.stepTools),
         executed := AddAll(b.executed, s.x.ranTools),
         ready := b.ready + [SkillItem(s.result)],
         events := events + s.x.events)
    else
      b.(w := g.w, ready := b.ready + [CallItem(call)], events := events)
  }

  function GateAll<W>(a: Agent, env: Env<W>, b: Batch<W>, calls: seq<ToolCall>): Batch<W>
    decreases |calls|
  {
    if calls == [] then b else GateAll(a, env, GateStep(a, env, b, calls[0]), calls[1..])
  }

  /** The events and used names before any gate runs. */
  function RequestEvents(calls: seq<ToolCall>): seq<Event> {
    seq(|calls|, i requires 0 <= i < |calls| => CallRequested(calls[i]))
  }

  function NamesOf(calls: seq<ToolCall>): seq<string> {
    seq(|calls|, i requires 0 <= i < |calls| => calls[i].name)
  }

  function GateBatchSpec<W>(a: Agent, env: Env<W>, g: Guard, w: W, calls: seq<ToolCall>): Batch<W> {
    GateAll(a, env, Batch(w, AddAll(g.used, NamesOf(calls)), g.executed, [], [], [], RequestEvents(calls)), calls)
  }

  method RecordRequests(used0: seq<string>, calls: seq<ToolCall>) returns (used: seq<string>, events: seq<Event>)
    ensures used == AddAll(used0, NamesOf(calls)) && events == RequestEvents(calls)
  {
    used, events := used0, [];
    var k := 0;
    while k < |calls|
      invariant 0 <= k <= |calls|
      invariant AddAll(used, NamesOf(calls)[k..]) == AddAll(used0, NamesOf(calls))
      invariant events == RequestEvents(calls)[..k]
    {
      assert NamesOf(calls)[k..][1..] == NamesOf(calls)[k + 1..];
      used := AddNew(used, calls[k].name);
      events := events + [CallRequested(calls[k])];
      k := k + 1;
    }
    assert NamesOf(calls)[k..] == [];
    assert RequestEvents(calls)[..k] == RequestEvents(calls);
  }

  method GateBatch<W>(a: Agent, env: Env<W>, g: Guard, w: W, calls: seq<ToolCall>) returns (b: Batch<W>)
    ensures b == GateBatchSpec(a, env, g, w, calls)
  {
    hide AddAll, GateStep;
    var used, events := RecordRequests(g.used, calls);
    b := Batch(w, used, g.executed, [], [], [], events);
    var k := 0;
    assert calls[k..] == calls;
    while k < |calls|
      invariant 0 <= k <= |calls|
      invariant GateAll(a, env, b, calls[k..]) == GateBatchSpec(a, env, g, w, calls)
    {
      assert calls[k..][1..] == calls[k + 1..];
      b := GateOne(a, env, b, calls[k]);
      k := k + 1;
    }
  }

  method GateOne<W>(a: Agent, env: Env<W>, b: Batch<W>, call: ToolCall) returns (b': Batch<W>)
    ensures b' == GateStep(a, env, b, call)
  {
    var g := GateCall(a, env, b.w, call);
    var events := b.events + g.events + [GateDecided(call, g.decision)];
    if g.decision != Allowed {
      b' := BlockCall(env, b.(w := g.w, events := events), call, g.decision);
    } else if call.name == USE_SKILL {
      var s := ExpandSkill(a, env, g.w, call);
      b' := b.(w := s.x.w,
               used := AddAll(b.used, s.x.stepTools),
               executed := AddAll(b.executed, s.x.ranTools),
               ready := b.ready + [SkillItem(s.result)],
               events := events + s.x.events);
    } else {
      b' := b.(w := g.w, ready := b.ready + [CallItem(call)], events := events);
    }
  }

  /** Record a blocked call: an observation for the model and the mandatory
      tool message. A caller can rely on one more tool message under the call's
      own id, whatever the decision, and on nothing becoming ready or used. */
  method BlockCall<W>(env: Env<W>, b: Batch<W>, call: ToolCall, decision: Decision) returns (b': Batch<W>)
    ensures b' == AnswerBlocked(env, b, call, decision)
    ensures |b'.answers| == |b.answers| + 1 && b.answers <= b'.answers
    ensures var last := b'.answers[|b.answers|];
            last.role == ToolRole && last.toolCallId == Some(call.id) && last.toolCalls == []
    ensures |b'.observations| == |b.observations| + 1 && |b'.events| == |b.events| + 1
    ensures b'.ready == b.ready && b'.used == b.used && b'.executed == b.executed && b'.w == b.w
  {
    var result := BlockedResult(env.words, call, decision);
    var observations, answers, events := b.observations, b.answers, b.events;
    events := events + [BlockAnswered(result)];
    observations := observations + [env.words.observation(result)];
    answers := answers + [ToolMessage(result.callId, result.output)];
    b' := b.(observations := observations, answers := answers, events := events);
  }

  // ---- Answering the results -----------------------------------------------

  datatype Absorption = Absorption(g: Guard, observations: seq<string>, answers: seq<Message>, events: seq<Event>)

  function AbsorbGuard(g: Guard, result: ToolResult): Guard {
    var same := g.lastTool == Some(result.name);
    g.(executed := AddNew(g.executed, result.name),
       executedCalls := SaturatingNext(g.executedCalls, USIZE_MAX),
       lastGood := if result.success && Trim(result.summary) != ""
                   then Some(result.name + ": " + result.summary) else g.lastGood,
       lastTool := Some(result.name),
       sameCount := if same then SaturatingNext(g.sameCount, U32_MAX) else 1)
  }

  function Absorb(words: Wording, s: Absorption, result: ToolResult): Absorption {
    Absorption(AbsorbGuard(s.g, result),
               s.observations + [words.observation(result)],
               s.answers + [ToolMessage(result.callId, result.output)],
               s.events + [Answered(result)])
  }

  function AbsorbAll(words: Wording, s: Absorption, results: seq<ToolResult>): Absorption
    decreases |results|
  {
    if results == [] then s else AbsorbAll(words, Absorb(words, s, results[0]), results[1..])
  }

  method AbsorbResults(words: Wording, s: Absorption, results: seq<ToolResult>) returns (s': Absorption)
    ensures s' == AbsorbAll(words, s, results)
  {
    s' := s;
    var k := 0;
    while k < |results|
      invariant 0 <= k <= |results|
      invariant AbsorbAll(words, s', results[k..]) == AbsorbAll(words, s, results)
    {
      assert results[k..][1..] == results[k + 1..];
      s' := Absorb(words, s', results[k]);
      k := k + 1;
    }
  }

  /** The one-shot exit counts its results but answers none. */
  function ShortcutAll(g: Guard, results: seq<ToolResult>): Guard
    decreases |results|
  {
    if results == [] then g
    else ShortcutAll(g.(executed := AddNew(g.executed, results[0].name),
                        executedCalls := SaturatingNext(g.executedCalls, USIZE_MAX)),
                     results[1..])
  }

  method ShortcutResults(g: Guard, results: seq<ToolResult>) returns (g': Guard)
    ensures g' == ShortcutAll(g, results)
  {
    g' := g;
    var k := 0;
    while k < |results|
      invariant 0 <= k <= |results|
      invariant ShortcutAll(g', results[k..]) == ShortcutAll(g, results)
    {
      assert results[k..][1..] == results[k + 1..];
      g' := g'.(executed := AddNew(g'.executed, results[k].name),
                executedCalls := SaturatingNext(g'.executedCalls, USIZE_MAX));
      k := k + 1;
    }
  }

  predicate IsOneShot(prompt: string, results: seq<ToolResult>, nothingBlocked: bool) {
    && (HasPrefix(prompt, "open ") || HasPrefix(prompt, "launch ") || HasPrefix(prompt, "start "))
    && !Contains(prompt, " and ") && !Contains(prompt, " then ") && !Contains(prompt, " also ")
    && !Contains(prompt, " after ") && !Contains(prompt, " while ")
    && (forall r :: r in results ==> r.success)
    && nothingBlocked
  }

  function NudgeFor(sameCount: nat): Nudge {
    if sameCount >= HARD_LIMIT then Hard else if sameCount >= SOFT_LIMIT then Soft else Plain
  }

  // ---- One turn ------------------------------------------------------------

  /** What one iteration leaves: the conversation and locals, the world, a
      candidate answer if it made one, its events, and its ending if it was the
      last. */
  datatype TurnOut<W> = TurnOut(conv: seq<Message>, g: Guard, w: W, candidate: Option<string>,
                                events: seq<Event>, end: Option<Ending>)

  datatype VerificationDecision = Verified | Incomplete(feedback: string)

  function InterpretVerification(text: string): VerificationDecision {
    var t := Trim(text);
    if HasPrefix(t, "INCOMPLETE:") then Incomplete(Trim(t[11..]))
    else if HasPrefix(t, "INCOMPLETE") then Incomplete(t)
    else Verified
  }

  function ToolTurn<W>(a: Agent, env: Env<W>, p: Prompts, conv: seq<Message>, g: Guard, w: W,
                       calls: seq<ToolCall>, events: seq<Event>): TurnOut<W>
  {
    var b := GateBatchSpec(a, env, g, w, calls);
    var r := ExecuteAll(env, b.w, b.ready);
    var g1 := g.(used := b.used, executed := b.executed);
    if IsOneShot(env.words.lower(p.prompt), r.results, b.observations == []) then
      var summary := env.words.summary(r.results);
      TurnOut(conv, ShortcutAll(g1, r.results).(lastGood := Some(summary)), r.w, Some(summary),
              events + b.events + r.events + ShortcutEvents(r.results),
              Some(Ending(Complete, Some(summary))))
    else
      var s := AbsorbAll(env.words, Absorption(g1, b.observations, b.answers, []), r.results);
      var nudge := NudgeFor(s.g.sameCount);
      var wrapUp := env.words.wrapUp(s.observations, nudge, s.g.lastTool, s.g.sameCount, p.safe);
      TurnOut(conv + s.answers + [UserMessage(wrapUp)], s.g, r.w, None,
              events + b.events + r.events + s.events + [Nudged(nudge)], None)
  }

  function ShortcutEvents(results: seq<ToolResult>): seq<Event> {
    seq(|results|, i requires 0 <= i < |results| => ShortcutTaken(results[i]))
  }

  /** The verification prompt, with the council's evidence finding if it fires. */
  function VerifyQuestion<W>(a: Agent, env: Env<W>, p: Prompts, conv: seq<Message>, g: Guard, answer: string): string {
    var asked := env.words.verifyPrompt(p.safe, answer, EvidenceGap(g.executedCalls, ToolCount(conv)), g.used);
    if Redacts(a) then env.strip(asked) else asked
  }

  function AnswerTurn<W>(a: Agent, env: Env<W>, p: Prompts, conv: seq<Message>, g: Guard, w: W,
                         answer: string, events: seq<Event>): TurnOut<W>
  {
    var inContext := ToolCount(conv);
    var events1 := events + [Audited(g.executedCalls, inContext)];
    var prompt := VerifyQuestion(a, env, p, conv, g, answer);
    var (reply, w1) := env.verify(w, prompt);
    var text := if reply.None? || reply.value == "" then "VERIFIED" else reply.value;
    var conv1 := conv + [UserMessage(prompt)];
    match InterpretVerification(text)
    case Verified =>
      TurnOut(conv1 + [AssistantMessage("VERIFIED")], g, w1, Some(answer), events1,
              Some(Ending(Complete, Some(answer))))
    case Incomplete(feedback) =>
      TurnOut(conv1 + [AssistantMessage(Trim(text)), UserMessage(env.words.incomplete(feedback))],
              g, w1, Some(answer), events1, None)
  }

  /** The evidence rule of the QC council. */
  predicate EvidenceGap(executedCalls: nat, inContext: nat) {
    executedCalls > inContext
  }

  function EmptyTurn<W>(words: Wording, conv: seq<Message>, g: Guard, w: W, events: seq<Event>): TurnOut<W> {
    if !g.emptyRetried then
      TurnOut(conv + [UserMessage(words.emptyNudge)], g.(emptyRetried := true), w, None, events, None)
    else if g.lastGood.Some? then
      var content := words.fromEarlierWork(g.lastGood.value);
      TurnOut(conv, g.(lastGood := Some(content)), w, Some(content), events,
              Some(Ending(Complete, Some(content))))
    else
      TurnOut(conv, g, w, None, events, Some(Ending(Failed, None)))
  }

  /** One iteration of the loop, after its checkpoint was written. */
  function RunTurn<W>(a: Agent, env: Env<W>, p: Prompts, conv0: seq<Message>, g: Guard, w: W): (out: TurnOut<W>)
    requires conv0 != []
    ensures out.conv != []
  {
    var conv := Window(conv0);
    var events := [Trimmed(ToolCount(Dropped(conv0)))];
    if a.privacy.Policy? && !a.privacy.allowed then
      TurnOut(conv, g, w, None, events, Some(Ending(Failed, None)))
    else
      var sent := Outgoing(a, env, conv);
      var (reply, w1) := env.chat(w, sent);
      var events1 := events + [ChatRequested(sent)];
      if reply.Broken? then
        TurnOut(conv, g, w1, None, events1, Some(Ending(Failed, None)))
      else if reply.turn.IsEmpty() then
        EmptyTurn(env.words, conv, g, w1, events1)
      else
        var turn := reply.turn;
        var content := if Redacts(a) then env.unmask(turn.content, conv) else turn.content;
        var conv1 := conv + [Message(Assistant, content, turn.toolCalls, None, turn.reasoning)];
        var g1 := g.(emptyRetried := false);
        if turn.toolCalls != [] then ToolTurn(a, env, p, conv1, g1, w1, turn.toolCalls, events1)
        else AnswerTurn(a, env, p, conv1, g1, w1, content, events1)
  }

  method ToolBatch<W>(a: Agent, env: Env<W>, p: Prompts, conv: seq<Message>, g: Guard, w: W,
                      calls: seq<ToolCall>, events: seq<Event>) returns (out: TurnOut<W>)
    ensures out == ToolTurn(a, env, p, conv, g, w, calls, events)
  {
    var b := GateBatch(a, env, g, w, calls);
    var r := ExecuteReady(env, b.w, b.ready);
    var g1 := g.(used := b.used, executed := b.executed);
    if IsOneShot(env.words.lower(p.prompt), r.results, b.observations == []) {
      var summary := env.words.summary(r.results);
      var g2 := ShortcutResults(g1, r.results);
      return TurnOut(conv, g2.(lastGood := Some(summary)), r.w, Some(summary),
                     events + b.events + r.events + ShortcutEvents(r.results),
                     Some(Ending(Complete, Some(summary))));
    }
    var s := AbsorbResults(env.words, Absorption(g1, b.observations, b.answers, []), r.results);
    var nudge := NudgeFor(s.g.sameCount);
    var wrapUp := env.words.wrapUp(s.observations, nudge, s.g.lastTool, s.g.sameCount, p.safe);
    return TurnOut(conv + s.answers + [UserMessage(wrapUp)], s.g, r.w, None,
                   events + b.events + r.events + s.events + [Nudged(nudge)], None);
  }

  method TakeTurn<W>(a: Agent, env: Env<W>, p: Prompts, conv0: seq<Message>, g: Guard, w: W) returns (out: TurnOut<W>)
    requires conv0 != []
    ensures out == RunTurn(a, env, p, conv0, g, w)
  {
    var conv := conv0;
    if |conv| > MAX_TAIL + 1 {
      var tail := conv[|conv| - MAX_TAIL..];
      conv := [conv[0]] + tail;
    }
    var events := [Trimmed(ToolCount(Dropped(conv0)))];
    if a.privacy.Policy? && !a.privacy.allowed {
      return TurnOut(conv, g, w, None, events, Some(Ending(Failed, None)));
    }
    var sent := Outgoing(a, env, conv);
    var (reply, w1) := env.chat(w, sent);
    events := events + [ChatRequested(sent)];
    if reply.Broken? {
      return TurnOut(conv, g, w1, None, events, Some(Ending(Failed, None)));
    }
    if reply.turn.IsEmpty() {
      return EmptyTurn(env.words, conv, g, w1, events);
    }
    var turn := reply.turn;
    var content := if Redacts(a) then env.unmask(turn.content, conv) else turn.content;
    conv := conv + [Message(Assistant, content, turn.toolCalls, None, turn.reasoning)];
    var g1 := g.(emptyRetried := false);
    if turn.toolCalls != [] {
      out := ToolBatch(a, env, p, conv, g1, w1, turn.toolCalls, events);
    } else {
      out := AnswerTurn(a, env, p, conv, g1, w1, content, events);
    }
  }
}
