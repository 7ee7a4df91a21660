/** Whole runs: the loop over its iterations, crashes and resumes.

    A crash loses the iteration in progress. Its checkpoint was written with the
    iteration already counted, so a resumed run does the same work with exactly
    one iteration fewer. */
module Lifetime {
  import opened Wrappers
  import opened Messages
  import opened Gate
  import opened Execution
  import opened AgentLoop
  import opened Conversation
  import opened Counters
  import opened GateSafety
  import opened Checkpoints

  // ---- The run -------------------------------------------------------------

  datatype RunOut<W> = RunOut(status: AgentLoop.Status, answer: Option<string>, conv: seq<Message>, g: Guard,
                              used: nat, w: W, events: seq<Event>, saves: seq<Checkpoint>)
  {
    function After(before: seq<Event>, saved: seq<Checkpoint>): RunOut<W> {
      this.(events := before + events, saves := saved + saves)
    }

    lemma AfterNothing()
      ensures After([], []) == this
    {
    }

    lemma AfterTwice(e1: seq<Event>, s1: seq<Checkpoint>, e2: seq<Event>, s2: seq<Checkpoint>)
      ensures After(e2, s2).After(e1, s1) == After(e1 + e2, s1 + s2)
    {
      assert e1 + (e2 + events) == e1 + e2 + events;
      assert s1 + (s2 + saves) == s1 + s2 + saves;
    }
  }

  function SavedStatus(status: AgentLoop.Status): SessionStatus {
    if status == AgentLoop.Complete then SessionStatus.Complete else SessionStatus.Failed
  }

  /** The iterations that are left after `used` of them. */
  function RunFrom<W>(a: Agent, env: Env<W>, h: Handle, p: Prompts, conv: seq<Message>, g: Guard, w: W,
                      used: nat, answer: Option<string>): RunOut<W>
    requires conv != []
    decreases a.maxSteps - used
  {
    if used >= a.maxSteps then
      RunOut(AgentLoop.Failed, answer, conv, g, used, w, [],
             [MakeCheckpoint(env.strip, h, SessionStatus.Failed, p.prompt, conv, g, used, answer)])
    else
      var head := MakeCheckpoint(env.strip, h, Running, p.prompt, conv, g, used + 1, None);
      var t := RunTurn(a, env, p, conv, g, w);
      if t.end.Some? then
        var end := t.end.value;
        var last := MakeCheckpoint(env.strip, h, SavedStatus(end.status), p.prompt, t.conv, t.g, used + 1, end.answer);
        RunOut(end.status, end.answer, t.conv, t.g, used + 1, t.w, t.events, [head, last])
      else
        RunFrom(a, env, h, p, t.conv, t.g, t.w, used + 1, Latest(t.candidate, answer)).After(t.events, [head])
  }

  function Latest(candidate: Option<string>, answer: Option<string>): Option<string> {
    if candidate.Some? then candidate else answer
  }

  method RunLoop<W>(a: Agent, env: Env<W>, h: Handle, p: Prompts, conv0: seq<Message>, g0: Guard, w0: W, start: nat)
    returns (out: RunOut<W>)
    requires conv0 != []
    ensures out == RunFrom(a, env, h, p, conv0, g0, w0, start, None)
  {
    hide MakeCheckpoint, RunTurn, RunOut<W>.After;
    var conv, g, w, used, answer := conv0, g0, w0, start, None;
    var events: seq<Event> := [];
    var saves: seq<Checkpoint> := [];
    RunFrom(a, env, h, p, conv0, g0, w0, start, None).AfterNothing();
    while used < a.maxSteps
      invariant conv != []
      invariant RunFrom(a, env, h, p, conv0, g0, w0, start, None)
             == RunFrom(a, env, h, p, conv, g, w, used, answer).After(events, saves)
      decreases a.maxSteps - used
    {
      var head := MakeCheckpoint(env.strip, h, Running, p.prompt, conv, g, used + 1, None);
      var t := TakeTurn(a, env, p, conv, g, w);
      if t.end.Some? {
        var end := t.end.value;
        var last := MakeCheckpoint(env.strip, h, SavedStatus(end.status), p.prompt, t.conv, t.g, used + 1, end.answer);
        out := RunOut(end.status, end.answer, t.conv, t.g, used + 1, t.w, t.events, [head, last]);
        out := out.After(events, saves);
        return;
      }
      var later := Latest(t.candidate, answer);
      RunFrom(a, env, h, p, t.conv, t.g, t.w, used + 1, later).AfterTwice(events, saves, t.events, [head]);
      events, saves := events + t.events, saves + [head];
      conv, g, w, used, answer := t.conv, t.g, t.w, used + 1, later;
    }
    var last := MakeCheckpoint(env.strip, h, SessionStatus.Failed, p.prompt, conv, g, used, answer);
    out := RunOut(AgentLoop.Failed, answer, conv, g, used, w, [], [last]);
    out := out.After(events, saves);
  }

  /** The opening conversation of a fresh task. */
  function Opening(systemPrompt: string, continuity: Option<string>, prompt: string): seq<Message> {
    [SystemMessage(systemPrompt)]
    + (if continuity.Some? then [UserMessage(continuity.value)] else [])
    + [UserMessage(prompt)]
  }

  function PromptsOf<W>(a: Agent, env: Env<W>, prompt: string): Prompts {
    Prompts(prompt, if Redacts(a) then env.strip(prompt) else prompt)
  }

  method Run<W>(a: Agent, env: Env<W>, h: Handle, systemPrompt: string, continuity: Option<string>, prompt: string,
                w: W)
    returns (out: RunOut<W>)
    ensures out == RunFrom(a, env, h, PromptsOf(a, env, prompt), Opening(systemPrompt, continuity, prompt),
                           FRESH, w, 0, None)
  {
    out := RunLoop(a, env, h, PromptsOf(a, env, prompt), Opening(systemPrompt, continuity, prompt), FRESH, w, 0);
  }

  method Resume<W>(a: Agent, env: Env<W>, systemPrompt: string, cp: Checkpoint, w: W) returns (out: RunOut<W>)
    ensures var r := Restore(systemPrompt, cp);
            out == RunFrom(a, env, cp.handle, r.p, r.conv, r.g, w, r.stepsUsed, None)
  {
    var r := Restore(systemPrompt, cp);
    out := RunLoop(a, env, cp.handle, r.p, r.conv, r.g, w, r.stepsUsed);
  }

  // ---- Chat requests -------------------------------------------------------

  function ChatLog(events: seq<Event>): seq<seq<Message>> {
    if events == [] then []
    else (if events[0].ChatRequested? then [events[0].messages] else []) + ChatLog(events[1..])
  }

  lemma ChatLogCons(e: Event, events: seq<Event>)
    ensures ChatLog([e] + events) == (if e.ChatRequested? then [e.messages] else []) + ChatLog(events)
  {
    assert ([e] + events)[1..] == events;
  }

  lemma {:induction false} ChatLogAppend(x: seq<Event>, y: seq<Event>)
    ensures ChatLog(x + y) == ChatLog(x) + ChatLog(y)
  {
    hide *;
    if x == [] {
      ChatLogEmpty();
      assert x + y == y;
      assert [] + ChatLog(y) == ChatLog(y);
    } else {
      var e, rest := x[0], x[1..];
      assert x == [e] + rest && x + y == [e] + (rest + y);
      ChatLogCons(e, rest);
      ChatLogCons(e, rest + y);
      ChatLogAppend(rest, y);
      var own := if e.ChatRequested? then [e.messages] else [];
      assert own + (ChatLog(rest) + ChatLog(y)) == (own + ChatLog(rest)) + ChatLog(y);
    }
  }

  lemma ChatLogSingle(sent: seq<Message>)
    ensures ChatLog([ChatRequested(sent)]) == [sent]
  {
  }

  lemma ChatLogEmpty()
    ensures ChatLog([]) == []
  {
  }

  ghost predicate NoChat(events: seq<Event>) {
    forall i | 0 <= i < |events| :: !events[i].ChatRequested?
  }

  lemma {:induction false} NoChatLog(events: seq<Event>)
    requires NoChat(events)
    ensures ChatLog(events) == []
  {
    if events != [] {
      assert NoChat(events[1..]);
      NoChatLog(events[1..]);
    }
  }

  lemma GateStepNoChat<W>(a: Agent, env: Env<W>, b: Batch<W>, call: ToolCall)
    requires NoChat(b.events)
    ensures NoChat(GateStep(a, env, b, call).events)
  {
    hide GateCall, ExpandSkillSpec, AddAll;
    var g := GateCall(a, env, b.w, call);
    GateNoChat(a, env, b.w, call);
    SkillNoChat(a, env, g.w, call);
  }

  lemma GateNoChat<W>(a: Agent, env: Env<W>, w: W, call: ToolCall)
    ensures NoChat(GateCall(a, env, w, call).events)
  {
  }

  lemma {:induction false} ExpandNoChat<W>(a: Agent, env: Env<W>, call: ToolCall, steps: seq<SkillStep>, k: nat,
                                           x: Expansion<W>)
    requires k <= |steps| && NoChat(x.events)
    ensures NoChat(ExpandFrom(a, env, call, steps, k, x).events)
    decreases |steps| - k
  {
    hide GateCall, ExecuteCallSpec, AddNew;
    if k < |steps| && !x.blocked {
      var sc := StepCall(call, k, steps[k]);
      var g := GateCall(a, env, x.w, sc);
      GateNoChat(a, env, x.w, sc);
      ExecuteAttempts(env, g.w, sc, MAX_RETRIES);
      ExpandNoChat(a, env, call, steps, k + 1, ExpandStep(a, env, call, steps[k], k, x));
    }
  }

  lemma SkillNoChat<W>(a: Agent, env: Env<W>, w: W, call: ToolCall)
    ensures NoChat(ExpandSkillSpec(a, env, w, call).x.events)
  {
    hide ExpandFrom;
    var name := env.words.skillName(call);
    if name in a.skills {
      ExpandNoChat(a, env, call, a.skills[name].steps, 0, Expansion(w, [], [], [], false, []));
    }
  }

  lemma {:induction false} GateAllNoChat<W>(a: Agent, env: Env<W>, b: Batch<W>, calls: seq<ToolCall>)
    requires NoChat(b.events)
    ensures NoChat(GateAll(a, env, b, calls).events)
    decreases |calls|
  {
    hide GateStep, NoChat;
    if calls != [] {
      GateStepNoChat(a, env, b, calls[0]);
      GateAllNoChat(a, env, GateStep(a, env, b, calls[0]), calls[1..]);
    }
  }

  lemma ToolTurnNoChat<W>(a: Agent, env: Env<W>, p: Prompts, conv: seq<Message>, g: Guard, w: W,
                          calls: seq<ToolCall>, events: seq<Event>)
    ensures var more := ToolTurn(a, env, p, conv, g, w, calls, events).events;
            events <= more && NoChat(more[|events|..])
  {
    hide AddAll, GateAll, ExecuteAll, AbsorbAll, ShortcutAll, IsOneShot, NudgeFor;
    var b0 := Batch(w, AddAll(g.used, NamesOf(calls)), g.executed, [], [], [], RequestEvents(calls));
    GateAllNoChat(a, env, b0, calls);
    var b := GateBatchSpec(a, env, g, w, calls);
    ExecuteAllAttempts(env, b.w, b.ready);
    var r := ExecuteAll(env, b.w, b.ready);
    var s0 := Absorption(g.(used := b.used, executed := b.executed), b.observations, b.answers, []);
    AbsorbNoAttempts(env.words, s0, r.results);
    var s := AbsorbAll(env.words, s0, r.results);
    var out := ToolTurn(a, env, p, conv, g, w, calls, events);
    var tail := if out.end.Some? then ShortcutEvents(r.results) else s.events + [Nudged(NudgeFor(s.g.sameCount))];
    assert NoChat(tail);
    assert out.events == events + (b.events + r.events + tail);
    assert out.events[|events|..] == b.events + r.events + tail;
  }

  /** A turn asks the model at most once, with the window of its conversation. */
  lemma TurnAsksOnce<W>(a: Agent, env: Env<W>, p: Prompts, conv0: seq<Message>, g: Guard, w: W)
    requires conv0 != []
    ensures ChatLog(RunTurn(a, env, p, conv0, g, w).events)
            == if a.privacy.Policy? && !a.privacy.allowed then [] else [Outgoing(a, env, Window(conv0))]
  {
    hide ToolTurn, AnswerTurn, Window, Dropped, Outgoing, ToolCount, ChatLog;
    var conv := Window(conv0);
    var out := RunTurn(a, env, p, conv0, g, w);
    var cut := Trimmed(ToolCount(Dropped(conv0)));
    NoChatLog([cut]);
    if !(a.privacy.Policy? && !a.privacy.allowed) {
      var sent := Outgoing(a, env, conv);
      var (reply, w1) := env.chat(w, sent);
      var events1 := [cut] + [ChatRequested(sent)];
      ChatLogSingle(sent);
      ChatLogAppend([cut], [ChatRequested(sent)]);
      assert [] + [sent] == [sent];
      if reply.Replied? && !reply.turn.IsEmpty() {
        var turn := reply.turn;
        var content := if Redacts(a) then env.unmask(turn.content, conv) else turn.content;
        var conv1 := conv + [Message(Assistant, content, turn.toolCalls, None, turn.reasoning)];
        var g1 := g.(emptyRetried := false);
        if turn.toolCalls != [] {
          ToolTurnNoChat(a, env, p, conv1, g1, w1, turn.toolCalls, events1);
        } else {
          AnswerTurnNoChat(a, env, p, conv1, g1, w1, content, events1);
        }
        assert out.events == events1 + out.events[|events1|..];
        NoChatLog(out.events[|events1|..]);
        ChatLogAppend(events1, out.events[|events1|..]);
      } else {
        assert out.events == events1;
      }
    }
  }

  lemma AnswerTurnNoChat<W>(a: Agent, env: Env<W>, p: Prompts, conv: seq<Message>, g: Guard, w: W,
                            answer: string, events: seq<Event>)
    ensures var more := AnswerTurn(a, env, p, conv, g, w, answer, events).events;
            events <= more && NoChat(more[|events|..])
  {
  }

  // ---- Resuming does the same work -----------------------------------------

  /** `resumed` is `full` with one iteration fewer: either `full` ended before
      the budget did and both do and say the same, or the budget ends `resumed`
      first, at most one chat request short of `full`. */
  ghost predicate OneFewer<W>(maxSteps: nat, full: RunOut<W>, resumed: RunOut<W>) {
    if full.used < maxSteps then
      && resumed.used == full.used + 1
      && resumed.events == full.events && resumed.status == full.status && resumed.answer == full.answer
      && resumed.conv == full.conv && resumed.g == full.g && resumed.w == full.w
    else
      && full.used == resumed.used == maxSteps && resumed.status == AgentLoop.Failed
      && resumed.events <= full.events
      && |ChatLog(full.events[|resumed.events|..])| <= 1
  }

  lemma OneFewerAfter<W>(maxSteps: nat, full: RunOut<W>, resumed: RunOut<W>, events: seq<Event>,
                         saves: seq<Checkpoint>, saves': seq<Checkpoint>)
    requires OneFewer(maxSteps, full, resumed)
    ensures OneFewer(maxSteps, full.After(events, saves), resumed.After(events, saves'))
  {
    hide ChatLog;
    if full.used >= maxSteps {
      assert (events + full.events)[|events + resumed.events|..] == full.events[|resumed.events|..];
    }
  }

  /** The same state with one more iteration already used: the run is the same
      run, except that the iteration the budget no longer covers is missing. */
  lemma {:induction false} OneIterationFewer<W>(a: Agent, env: Env<W>, h: Handle, h': Handle, p: Prompts,
                                                conv: seq<Message>, g: Guard, w: W, used: nat,
                                                answer: Option<string>, answer': Option<string>)
    requires conv != [] && used < a.maxSteps
    ensures var full := RunFrom(a, env, h, p, conv, g, w, used, answer);
            var resumed := RunFrom(a, env, h', p, conv, g, w, used + 1, answer');
            OneFewer(a.maxSteps, full, resumed)
    decreases a.maxSteps - used
  {
    hide RunTurn, MakeCheckpoint, OneFewer, RunOut<W>.After;
    if used + 1 == a.maxSteps {
      LastIterationMissing(a, env, h, h', p, conv, g, w, used, answer, answer');
    } else {
      var t := RunTurn(a, env, p, conv, g, w);
      if t.end.Some? {
        BothEnd(a, env, h, h', p, conv, g, w, used, answer, answer');
      } else {
        var a1, a1' := Latest(t.candidate, answer), Latest(t.candidate, answer');
        OneIterationFewer(a, env, h, h', p, t.conv, t.g, t.w, used + 1, a1, a1');
        var full := RunFrom(a, env, h, p, t.conv, t.g, t.w, used + 1, a1);
        var resumed := RunFrom(a, env, h', p, t.conv, t.g, t.w, used + 2, a1');
        OneFewerAfter(a.maxSteps, full, resumed, t.events,
                      [MakeCheckpoint(env.strip, h, Running, p.prompt, conv, g, used + 1, None)],
                      [MakeCheckpoint(env.strip, h', Running, p.prompt, conv, g, used + 2, None)]);
      }
    }
  }

  lemma LastIterationMissing<W>(a: Agent, env: Env<W>, h: Handle, h': Handle, p: Prompts, conv: seq<Message>,
                                g: Guard, w: W, used: nat, answer: Option<string>, answer': Option<string>)
    requires conv != [] && used + 1 == a.maxSteps
    ensures var full := RunFrom(a, env, h, p, conv, g, w, used, answer);
            var resumed := RunFrom(a, env, h', p, conv, g, w, used + 1, answer');
            OneFewer(a.maxSteps, full, resumed)
  {
    hide RunTurn, MakeCheckpoint, ChatLog, Outgoing, Window;
    var t := RunTurn(a, env, p, conv, g, w);
    TurnAsksOnce(a, env, p, conv, g, w);
    var full := RunFrom(a, env, h, p, conv, g, w, used, answer);
    assert t.events + [] == t.events;
    assert t.events[0..] == t.events;
  }

  lemma BothEnd<W>(a: Agent, env: Env<W>, h: Handle, h': Handle, p: Prompts, conv: seq<Message>,
                   g: Guard, w: W, used: nat, answer: Option<string>, answer': Option<string>)
    requires conv != [] && used + 1 < a.maxSteps && RunTurn(a, env, p, conv, g, w).end.Some?
    ensures var full := RunFrom(a, env, h, p, conv, g, w, used, answer);
            var resumed := RunFrom(a, env, h', p, conv, g, w, used + 1, answer');
            OneFewer(a.maxSteps, full, resumed)
  {
    hide RunTurn, MakeCheckpoint, ChatLog;
  }

  /** Crash and resume of a clean task: resuming the checkpoint written at the
      head of an iteration repeats that iteration and everything after it, with
      exactly one iteration fewer. */
  lemma ResumeSimulates<W>(a: Agent, env: Env<W>, h: Handle, systemPrompt: string, p: Prompts,
                           conv: seq<Message>, g: Guard, w: W, used: nat, answer: Option<string>)
    requires Shape(conv) && used < a.maxSteps
    requires conv[0] == SystemMessage(systemPrompt) && CleanMessages(env.strip, conv[1..])
    requires env.strip(p.prompt) == p.prompt == p.safe
    requires g.lastGood.Some? ==> env.strip(g.lastGood.value) == g.lastGood.value
    ensures var cp := MakeCheckpoint(env.strip, h, Running, p.prompt, conv, g, used + 1, None);
            var r := Restore(systemPrompt, cp);
            var full := RunFrom(a, env, h, p, conv, g, w, used, answer);
            && full.saves != [] && full.saves[0] == cp
            && OneFewer(a.maxSteps, full, RunFrom(a, env, cp.handle, r.p, r.conv, r.g, w, r.stepsUsed, None))
  {
    ResumeRestoresExactly(env.strip, systemPrompt, h, p, conv, g, used + 1);
    hide *;
    OneIterationFewer(a, env, h, h, p, conv, g, w, used, answer, None);
    FirstSave(a, env, h, p, conv, g, w, used, answer);
  }

  lemma FirstSave<W>(a: Agent, env: Env<W>, h: Handle, p: Prompts, conv: seq<Message>, g: Guard, w: W,
                     used: nat, answer: Option<string>)
    requires conv != [] && used < a.maxSteps
    ensures var full := RunFrom(a, env, h, p, conv, g, w, used, answer);
            var cp := MakeCheckpoint(env.strip, h, Running, p.prompt, conv, g, used + 1, None);
            full.saves != [] && full.saves[0] == cp && cp.handle == h
  {
    hide RunTurn, Stored;
  }
}
