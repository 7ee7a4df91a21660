/** Why a turn ends a run: what stands behind a completed task. */
module Endings {
  import opened Wrappers
  import opened Text
  import opened Messages
  import opened Gate
  import opened Execution
  import opened AgentLoop
  import opened Conversation
  import opened Checkpoints
  import opened Lifetime

  /** A verification reply is a refusal exactly when its trimmed text starts with
      `INCOMPLETE`; the feedback is what follows the colon, or the whole text if
      there is none. */
  lemma VerdictExact(text: string)
    ensures InterpretVerification(text).Incomplete? <==> Extends(Trim(text), "INCOMPLETE")
    ensures forall rest: string | Trim(text) == "INCOMPLETE:" + rest ::
              InterpretVerification(text) == Incomplete(Trim(rest))
    ensures Extends(Trim(text), "INCOMPLETE") && !Extends(Trim(text), "INCOMPLETE:") ==>
              InterpretVerification(text) == Incomplete(Trim(text))
  {
    var t := Trim(text);
    PrefixExactly(t, "INCOMPLETE");
    PrefixExactly(t, "INCOMPLETE:");
    hide Trim, Extends;
    assert HasPrefix(t, "INCOMPLETE:") ==> HasPrefix(t, "INCOMPLETE") by {
      assert "INCOMPLETE" <= "INCOMPLETE:";
    }
    forall rest: string | t == "INCOMPLETE:" + rest
      ensures InterpretVerification(text) == Incomplete(Trim(rest))
    {
      assert t[11..] == rest;
    }
  }

  /** Every call of the batch passed the gate. */
  ghost predicate AllPassed(flags: seq<bool>) {
    forall i | 0 <= i < |flags| :: flags[i]
  }

  ghost predicate AllSucceeded(results: seq<ToolResult>) {
    forall r | r in results :: r.success
  }

  /** A batch without a blocked observation is one whose calls all passed. */
  lemma {:induction false} NothingBlockedMeansAllPassed<W>(a: Agent, env: Env<W>, b: Batch<W>, calls: seq<ToolCall>)
    ensures |GateAll(a, env, b, calls).observations| >= |b.observations|
    ensures |GateAll(a, env, b, calls).observations| == |b.observations| <==> AllPassed(Passes(a, env, b, calls))
    decreases |calls|
  {
    hide GateCall, ExpandSkillSpec, AddAll;
    if calls != [] {
      var b1 := GateStep(a, env, b, calls[0]);
      var flags, rest := Passes(a, env, b, calls), Passes(a, env, b1, calls[1..]);
      NothingBlockedMeansAllPassed(a, env, b1, calls[1..]);
      assert flags == [flags[0]] + rest;
      assert AllPassed(flags) <==> flags[0] && AllPassed(rest) by {
        if AllPassed(flags) {
          assert forall i | 0 <= i < |rest| :: rest[i] == flags[i + 1];
        }
      }
    }
  }

  /** A request to open, launch or start something, with nothing joined to it. */
  ghost predicate IsSimpleRequest(text: string) {
    && (Extends(text, "open ") || Extends(text, "launch ") || Extends(text, "start "))
    && !Occurs(text, " and ") && !Occurs(text, " then ") && !Occurs(text, " also ")
    && !Occurs(text, " after ") && !Occurs(text, " while ")
  }

  lemma SimpleRequestExactly(text: string, results: seq<ToolResult>, nothingBlocked: bool)
    ensures IsOneShot(text, results, nothingBlocked)
            <==> IsSimpleRequest(text) && AllSucceeded(results) && nothingBlocked
  {
    hide HasPrefix, Contains, Extends, Occurs;
    PrefixExactly(text, "open ");
    PrefixExactly(text, "launch ");
    PrefixExactly(text, "start ");
    ContainsExactly(text, " and ");
    ContainsExactly(text, " then ");
    ContainsExactly(text, " also ");
    ContainsExactly(text, " after ");
    ContainsExactly(text, " while ");
  }

  /** A batch ends the run exactly when every call passed the gate, every result
      is a success and the prompt is one simple request; the answer is then the
      summary of the results, one per call. */
  lemma OneShotExactly<W(!new)>(a: Agent, env: Env<W>, p: Prompts, conv: seq<Message>, g: Guard, w: W,
                                calls: seq<ToolCall>, events: seq<Event>)
    requires HonestExecutor(env)
    ensures var b0 := Batch(w, AddAll(g.used, NamesOf(calls)), g.executed, [], [], [], RequestEvents(calls));
            var b := GateBatchSpec(a, env, g, w, calls);
            var results := ExecuteAll(env, b.w, b.ready).results;
            var out := ToolTurn(a, env, p, conv, g, w, calls, events);
            && (out.end.Some? <==> AllPassed(Passes(a, env, b0, calls)) && AllSucceeded(results)
                                   && IsSimpleRequest(env.words.lower(p.prompt)))
            && (out.end.Some? ==>
                  && ResultIds(results) == CallIds(calls) && out.conv == conv
                  && var answer := Some(env.words.summary(results));
                     out.end.value == Ending(AgentLoop.Complete, answer)
                     && out.candidate == answer && out.g.lastGood == answer)
  {
    hide AddAll, GateAll, ExecuteAll, AbsorbAll, ShortcutAll, NudgeFor, Passes, Pick, IsOneShot, IsSimpleRequest,
         AllSucceeded, AllPassed, CallIds, ResultIds, ItemIds;
    var b0 := Batch(w, AddAll(g.used, NamesOf(calls)), g.executed, [], [], [], RequestEvents(calls));
    var b := GateBatchSpec(a, env, g, w, calls);
    NothingBlockedMeansAllPassed(a, env, b0, calls);
    SimpleRequestExactly(env.words.lower(p.prompt), ExecuteAll(env, b.w, b.ready).results, b.observations == []);
    if AllPassed(Passes(a, env, b0, calls)) {
      AllPassedIds(a, env, b0, calls);
      ExecuteAllIds(env, b.w, b.ready);
    }
  }

  lemma AllPassedIds<W(!new)>(a: Agent, env: Env<W>, b0: Batch<W>, calls: seq<ToolCall>)
    requires AllPassed(Passes(a, env, b0, calls)) && b0.answers == [] && b0.ready == []
    ensures ItemIds(GateAll(a, env, b0, calls).ready) == CallIds(calls)
  {
    hide GateAll, Passes, Pick, AllPassed;
    EmptyIds(b0);
    GateAllIds(a, env, b0, calls);
    PickAll(calls, Passes(a, env, b0, calls));
    assert [] + CallIds(calls) == CallIds(calls);
  }

  lemma {:induction false} PickAll(calls: seq<ToolCall>, flags: seq<bool>)
    requires |flags| == |calls| && AllPassed(flags)
    ensures Pick(calls, flags, true) == calls
  {
    if calls != [] {
      PickAll(calls[1..], flags[1..]);
      assert calls == [calls[0]] + calls[1..];
    }
  }

  /** No reply, an empty one, or one that does not start with `INCOMPLETE`. */
  ghost predicate Accepted(verdict: Option<string>) {
    verdict.None? || verdict.value == "" || !Extends(Trim(verdict.value), "INCOMPLETE")
  }

  /** What stands behind a completed turn: a candidate answer that the model did
      not call incomplete, one simple request whose calls all passed and succeeded,
      or earlier good work after a second empty reply. */
  ghost predicate Deserved<W(!new)>(a: Agent, env: Env<W>, p: Prompts, conv0: seq<Message>, g: Guard, w: W,
                                    answer: string)
    requires conv0 != []
  {
    var conv := Window(conv0);
    var (reply, w1) := env.chat(w, Outgoing(a, env, conv));
    && MayInfer(a)
    && reply.Replied?
    && var turn := reply.turn;
       var content := if Redacts(a) then env.unmask(turn.content, conv) else turn.content;
       if SaysNothing(turn) then
         g.emptyRetried && g.lastGood.Some? && answer == env.words.fromEarlierWork(g.lastGood.value)
       else if turn.toolCalls == [] then
         var conv1 := conv + [Message(Assistant, content, [], None, turn.reasoning)];
         && answer == content
         && Accepted(env.verify(w1, VerifyQuestion(a, env, p, conv1, g.(emptyRetried := false), answer)).0)
       else
         var b0 := Batch(w1, AddAll(g.used, NamesOf(turn.toolCalls)), g.executed, [], [], [],
                         RequestEvents(turn.toolCalls));
         var b := GateBatchSpec(a, env, g.(emptyRetried := false), w1, turn.toolCalls);
         var results := ExecuteAll(env, b.w, b.ready).results;
         && IsSimpleRequest(env.words.lower(p.prompt))
         && AllPassed(Passes(a, env, b0, turn.toolCalls)) && AllSucceeded(results)
         && answer == env.words.summary(results)
  }

  ghost predicate SaysNothing(turn: Turn) {
    AllWhite(turn.content) && turn.toolCalls == []
  }

  predicate MayInfer(a: Agent) {
    a.privacy.Policy? ==> a.privacy.allowed
  }

  /** What makes a turn fail the task: no permission to ask, no reply, or a second
      empty reply without earlier good work. */
  ghost predicate Hopeless<W>(a: Agent, env: Env<W>, conv0: seq<Message>, g: Guard, w: W)
    requires conv0 != []
  {
    || !MayInfer(a)
    || var reply := env.chat(w, Outgoing(a, env, Window(conv0))).0;
       reply.Broken? || (SaysNothing(reply.turn) && g.emptyRetried && g.lastGood.None?)
  }

  /** A turn completes the task with an answer exactly when that answer is
      deserved, fails it exactly when it is hopeless, reporting none, and else
      goes on. */
  lemma TurnEndsExactly<W(!new)>(a: Agent, env: Env<W>, p: Prompts, conv0: seq<Message>, g: Guard, w: W)
    requires HonestExecutor(env) && conv0 != []
    ensures var end := RunTurn(a, env, p, conv0, g, w).end;
            && (forall answer :: end == Some(Ending(AgentLoop.Complete, Some(answer)))
                                 <==> Deserved(a, env, p, conv0, g, w, answer))
            && (end == Some(Ending(AgentLoop.Failed, None)) <==> Hopeless(a, env, conv0, g, w))
            && (end.Some? ==> if end.value.status == AgentLoop.Complete then end.value.answer.Some?
                              else end.value.answer.None?)
  {
    hide Window, Outgoing, ToolCount, Dropped, Trim, AllWhite, GateBatchSpec, ExecuteAll, ToolTurn, IsSimpleRequest,
         Passes, AllPassed, AllSucceeded, AnswerTurn, Accepted, VerifyQuestion, HonestExecutor, AddAll, RequestEvents,
         NamesOf;
    var conv := Window(conv0);
    if MayInfer(a) {
      var sent := Outgoing(a, env, conv);
      var (reply, w1) := env.chat(w, sent);
      if reply.Replied? {
        BlankExactly(reply.turn.content);
      }
      if reply.Replied? && !reply.turn.IsEmpty() {
        var turn := reply.turn;
        var content := if Redacts(a) then env.unmask(turn.content, conv) else turn.content;
        var conv1 := conv + [Message(Assistant, content, turn.toolCalls, None, turn.reasoning)];
        var g1 := g.(emptyRetried := false);
        var events := [Trimmed(ToolCount(Dropped(conv0)))] + [ChatRequested(sent)];
        if turn.toolCalls != [] {
          OneShotExactly(a, env, p, conv1, g1, w1, turn.toolCalls, events);
        } else {
          AnswerIsVerified(a, env, p, conv1, g1, w1, content, events);
        }
      }
    }
  }

  // ---- A whole run ---------------------------------------------------------

  datatype Head<W> = Head(conv: seq<Message>, g: Guard, w: W)

  /** The state at the head of the last iteration of a run. */
  function LastHead<W>(a: Agent, env: Env<W>, p: Prompts, conv: seq<Message>, g: Guard, w: W,
                       used: nat): (head: Head<W>)
    requires conv != []
    ensures head.conv != []
    decreases a.maxSteps - used
  {
    if used >= a.maxSteps then Head(conv, g, w)
    else
      var t := RunTurn(a, env, p, conv, g, w);
      if t.end.Some? || used + 1 >= a.maxSteps then Head(conv, g, w)
      else LastHead(a, env, p, t.conv, t.g, t.w, used + 1)
  }

  /** A run that reports completion has an answer that its last iteration
      deserved; a run that fails reports at most a candidate, and only when it
      used up its iterations. */
  lemma {:induction false} RunCompletionIsDeserved<W(!new)>(a: Agent, env: Env<W>, h: Handle, p: Prompts,
                                                            conv: seq<Message>, g: Guard, w: W, used: nat,
                                                            answer: Option<string>)
    requires HonestExecutor(env) && conv != []
    ensures var out := RunFrom(a, env, h, p, conv, g, w, used, answer);
            var head := LastHead(a, env, p, conv, g, w, used);
            if out.status == AgentLoop.Complete then
              out.answer.Some? && Deserved(a, env, p, head.conv, head.g, head.w, out.answer.value)
            else out.answer.Some? ==> out.used >= a.maxSteps
    decreases a.maxSteps - used
  {
    hide RunTurn, MakeCheckpoint, Deserved, HonestExecutor, Latest;
    if used < a.maxSteps {
      var t := RunTurn(a, env, p, conv, g, w);
      TurnEndsExactly(a, env, p, conv, g, w);
      if t.end.None? {
        RunCompletionIsDeserved(a, env, h, p, t.conv, t.g, t.w, used + 1, Latest(t.candidate, answer));
      }
    }
  }

  lemma AnswerIsVerified<W>(a: Agent, env: Env<W>, p: Prompts, conv: seq<Message>, g: Guard, w: W,
                            answer: string, events: seq<Event>)
    ensures var end := AnswerTurn(a, env, p, conv, g, w, answer, events).end;
            && (end.Some? <==> Accepted(env.verify(w, VerifyQuestion(a, env, p, conv, g, answer)).0))
            && (end.Some? ==> end.value == Ending(AgentLoop.Complete, Some(answer)))
  {
    hide ToolCount, InterpretVerification, Trim, VerifyQuestion;
    var verdict := env.verify(w, VerifyQuestion(a, env, p, conv, g, answer)).0;
    VerdictExact(if verdict.None? || verdict.value == "" then "VERIFIED" else verdict.value);
    VerifiedIsVerified();
  }

  lemma VerifiedIsVerified()
    ensures InterpretVerification("VERIFIED") == Verified
  {
  }
}
