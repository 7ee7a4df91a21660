/** What an iteration says and remembers: the answer each call gets, the texts
    that go to the model and back, and the locals that the next iteration sees. */
module Turns {
  import opened Wrappers
  import opened Text
  import opened Messages
  import opened Gate
  import opened Execution
  import opened AgentLoop

  // ---- The gate phase, call by call ----------------------------------------

  /** What one call of a batch came to: a refusal, or an item to execute. */
  datatype Handling<W> = Handling(w: W, events: seq<Event>, refused: seq<ToolResult>, ready: seq<ExecItem>,
                                  stepTools: seq<string>, ranTools: seq<string>)

  /** A blocked call is refused under its own id, a skill that passed is expanded
      at once, and any other call that passed is left to be run. */
  function Handled<W>(a: Agent, env: Env<W>, w: W, call: ToolCall): Handling<W> {
    var g := GateCall(a, env, w, call);
    var gated := g.events + [GateDecided(call, g.decision)];
    if g.decision != Allowed then
      var refusal := ToolResult(call.id, call.name, false, env.words.blocked(g.decision, call), "");
      Handling(g.w, gated + [BlockAnswered(refusal)], [refusal], [], [], [])
    else if call.name == "use_skill" then
      var s := ExpandSkillSpec(a, env, g.w, call);
      Handling(s.x.w, gated + s.x.events, [], [SkillItem(s.result)], s.x.stepTools, s.x.ranTools)
    else
      Handling(g.w, gated, [], [CallItem(call)], [], [])
  }

  /** The calls one after the other, each in the world the one before left. */
  function AllHandled<W>(a: Agent, env: Env<W>, w: W, calls: seq<ToolCall>): Handling<W>
    decreases |calls|
  {
    if calls == [] then Handling(w, [], [], [], [], [])
    else
      var first := Handled(a, env, w, calls[0]);
      var rest := AllHandled(a, env, first.w, calls[1..]);
      Handling(rest.w, first.events + rest.events, first.refused + rest.refused, first.ready + rest.ready,
               first.stepTools + rest.stepTools, first.ranTools + rest.ranTools)
  }

  /** The tool messages that answer results, and what the model is told of them. */
  function AnswersTo(results: seq<ToolResult>): seq<Message> {
    seq(|results|, i requires 0 <= i < |results| =>
                     Message(ToolRole, results[i].output, [], Some(results[i].callId), None))
  }

  function ToldOf(words: Wording, results: seq<ToolResult>): seq<string> {
    seq(|results|, i requires 0 <= i < |results| => words.observation(results[i]))
  }

  /** `names` is `before` with the names of `more` that were not in it. */
  ghost predicate Gains(before: seq<string>, more: seq<string>, names: seq<string>) {
    before <= names && forall n: string :: n in names <==> n in before || n in more
  }

  lemma GainsNothing(names: seq<string>)
    ensures Gains(names, [], names)
  {
  }

  lemma GainsTwice(x: seq<string>, more: seq<string>, y: seq<string>, more': seq<string>, z: seq<string>)
    requires Gains(x, more, y) && Gains(y, more', z)
    ensures Gains(x, more + more', z)
  {
    assert x <= y <= z;
  }

  lemma AddNewGains(names: seq<string>, name: string)
    ensures Gains(names, [name], AddNew(names, name))
  {
  }

  lemma {:induction false} AddAllGains(names: seq<string>, more: seq<string>)
    ensures Gains(names, more, AddAll(names, more))
    decreases |more|
  {
    hide Gains, AddNew;
    if more == [] {
      GainsNothing(names);
    } else {
      AddNewGains(names, more[0]);
      AddAllGains(AddNew(names, more[0]), more[1..]);
      GainsTwice(names, [more[0]], AddNew(names, more[0]), more[1..], AddAll(names, more));
      assert more == [more[0]] + more[1..];
    }
  }

  ghost predicate BatchTells<W>(words: Wording, b: Batch<W>, h: Handling<W>, b': Batch<W>) {
    && b'.w == h.w && b'.events == b.events + h.events && b'.ready == b.ready + h.ready
    && b'.answers == b.answers + AnswersTo(h.refused)
    && b'.observations == b.observations + ToldOf(words, h.refused)
    && Gains(b.used, h.stepTools, b'.used) && Gains(b.executed, h.ranTools, b'.executed)
  }

  lemma GateStepTells<W>(a: Agent, env: Env<W>, b: Batch<W>, call: ToolCall)
    ensures BatchTells(env.words, b, Handled(a, env, b.w, call), GateStep(a, env, b, call))
  {
    hide GateCall, ExpandSkillSpec, AddAll, Gains;
    var g := GateCall(a, env, b.w, call);
    var s := ExpandSkillSpec(a, env, g.w, call);
    GainsNothing(b.used);
    GainsNothing(b.executed);
    AddAllGains(b.used, s.x.stepTools);
    AddAllGains(b.executed, s.x.ranTools);
  }

  lemma TellsNothing<W>(words: Wording, b: Batch<W>)
    ensures BatchTells(words, b, Handling(b.w, [], [], [], [], []), b)
  {
  }

  lemma TellsTwice<W>(words: Wording, b: Batch<W>, x: Handling<W>, mid: Batch<W>, y: Handling<W>, b': Batch<W>)
    requires BatchTells(words, b, x, mid) && BatchTells(words, mid, y, b')
    ensures BatchTells(words, b, Handling(y.w, x.events + y.events, x.refused + y.refused, x.ready + y.ready,
                                          x.stepTools + y.stepTools, x.ranTools + y.ranTools), b')
  {
    hide Gains;
    GainsTwice(b.used, x.stepTools, mid.used, y.stepTools, b'.used);
    GainsTwice(b.executed, x.ranTools, mid.executed, y.ranTools, b'.executed);
    assert AnswersTo(x.refused + y.refused) == AnswersTo(x.refused) + AnswersTo(y.refused);
    assert ToldOf(words, x.refused + y.refused) == ToldOf(words, x.refused) + ToldOf(words, y.refused);
  }

  /** The gate phase of a batch is its calls handled one by one: what is answered,
      told, left to run and recorded is what the single calls came to, in the
      model's order. */
  lemma {:induction false} GateAllTells<W>(a: Agent, env: Env<W>, b: Batch<W>, calls: seq<ToolCall>)
    ensures BatchTells(env.words, b, AllHandled(a, env, b.w, calls), GateAll(a, env, b, calls))
    decreases |calls|
  {
    hide BatchTells, Handled, GateStep;
    if calls == [] {
      TellsNothing(env.words, b);
    } else {
      var b1 := GateStep(a, env, b, calls[0]);
      var first, rest := Handled(a, env, b.w, calls[0]), AllHandled(a, env, b1.w, calls[1..]);
      GateStepTells(a, env, b, calls[0]);
      WorldTold(env.words, b, first, b1);
      GateAllTells(a, env, b1, calls[1..]);
      TellsTwice(env.words, b, first, b1, rest, GateAll(a, env, b, calls));
    }
  }

  lemma WorldTold<W>(words: Wording, b: Batch<W>, h: Handling<W>, b': Batch<W>)
    requires BatchTells(words, b, h, b')
    ensures b'.w == h.w
  {
  }

  // ---- Answering results ---------------------------------------------------

  function ToolNames(results: seq<ToolResult>): seq<string> {
    seq(|results|, i requires 0 <= i < |results| => results[i].name)
  }

  ghost predicate IsGood(r: ToolResult) {
    r.success && !AllWhite(r.summary)
  }

  /** The last success with something to say, as it is remembered; without one,
      what was remembered before. */
  ghost predicate Remembers(before: Option<string>, results: seq<ToolResult>, lastGood: Option<string>) {
    || ((forall i | 0 <= i < |results| :: !IsGood(results[i])) && lastGood == before)
    || exists k :: LastGoodAt(results, k, lastGood)
  }

  ghost predicate LastGoodAt(results: seq<ToolResult>, k: nat, lastGood: Option<string>) {
    && k < |results| && IsGood(results[k]) && lastGood == Some(results[k].name + ": " + results[k].summary)
    && forall i | k < i < |results| :: !IsGood(results[i])
  }

  ghost predicate AbsorptionTells(words: Wording, s: Absorption, results: seq<ToolResult>, s': Absorption) {
    && s'.answers == s.answers + AnswersTo(results)
    && s'.observations == s.observations + ToldOf(words, results)
    && Gains(s.g.executed, ToolNames(results), s'.g.executed)
    && Remembers(s.g.lastGood, results, s'.g.lastGood)
    && s'.g.used == s.g.used && s'.g.emptyRetried == s.g.emptyRetried
  }

  /** Answering results says each output under its own call's id, tells the model
      of each, and remembers the last good one. */
  lemma {:induction false} AbsorbAllTells(words: Wording, s: Absorption, results: seq<ToolResult>)
    ensures AbsorptionTells(words, s, results, AbsorbAll(words, s, results))
    decreases |results|
  {
    hide Gains, Remembers, AbsorbGuard, AnswersTo, ToldOf, ToolNames;
    if results == [] {
      NothingTold(words);
      GainsNothing(s.g.executed);
      RemembersNothing(s.g.lastGood);
      assert s.answers + [] == s.answers && s.observations + [] == s.observations;
    } else {
      var first, rest := results[0], results[1..];
      var s1, s' := Absorb(words, s, first), AbsorbAll(words, s, results);
      assert results == [first] + rest;
      AbsorbAllTells(words, s1, rest);
      GuardTells(s.g, first);
      FirstTold(words, first, rest);
      GainsTwice(s.g.executed, [first.name], s1.g.executed, ToolNames(rest), s'.g.executed);
      RemembersMore(s.g.lastGood, first, s1.g.lastGood, rest, s'.g.lastGood);
      Reassociate(s.answers, [ToolMessage(first.callId, first.output)], AnswersTo(rest));
      Reassociate(s.observations, [words.observation(first)], ToldOf(words, rest));
    }
  }

  lemma NothingTold(words: Wording)
    ensures AnswersTo([]) == [] && ToldOf(words, []) == [] && ToolNames([]) == []
  {
  }

  lemma FirstTold(words: Wording, first: ToolResult, rest: seq<ToolResult>)
    ensures AnswersTo([first] + rest) == [ToolMessage(first.callId, first.output)] + AnswersTo(rest)
    ensures ToldOf(words, [first] + rest) == [words.observation(first)] + ToldOf(words, rest)
    ensures ToolNames([first] + rest) == [first.name] + ToolNames(rest)
  {
  }

  lemma Reassociate<T>(x: seq<T>, y: seq<T>, z: seq<T>)
    ensures (x + y) + z == x + (y + z)
  {
  }

  lemma RemembersNothing(before: Option<string>)
    ensures Remembers(before, [], before)
  {
  }

  lemma GuardTells(g: Guard, result: ToolResult)
    ensures var g' := AbsorbGuard(g, result);
            && Gains(g.executed, [result.name], g'.executed)
            && g'.lastGood == (if IsGood(result) then Some(result.name + ": " + result.summary) else g.lastGood)
            && g'.used == g.used && g'.emptyRetried == g.emptyRetried
  {
    AddNewGains(g.executed, result.name);
    BlankExactly(result.summary);
  }

  lemma RemembersMore(before: Option<string>, first: ToolResult, mid: Option<string>, rest: seq<ToolResult>,
                      after: Option<string>)
    requires mid == if IsGood(first) then Some(first.name + ": " + first.summary) else before
    requires Remembers(mid, rest, after)
    ensures Remembers(before, [first] + rest, after)
  {
    hide IsGood;
    var results := [first] + rest;
    if k: nat :| LastGoodAt(rest, k, after) {
      assert LastGoodAt(results, k + 1, after);
    } else if IsGood(first) {
      assert LastGoodAt(results, 0, after);
    }
  }

  // ---- The tool half of an iteration ---------------------------------------

  function NudgeAfter(count: nat): Nudge {
    if count < 2 then Plain else if count == 2 then Soft else Hard
  }

  /** After a batch that goes on: each call answered, refusals first; then one
      message with everything there is to tell and the nudge; and the memory. */
  ghost predicate GoesOn<W>(words: Wording, safe: string, conv: seq<Message>, g: Guard, h: Handling<W>,
                            results: seq<ToolResult>, out: TurnOut<W>) {
    var told := ToldOf(words, h.refused + results);
    var wrapUp := words.wrapUp(told, NudgeAfter(out.g.sameCount), out.g.lastTool, out.g.sameCount, safe);
    && out.conv == conv + AnswersTo(h.refused + results) + [Message(User, wrapUp, [], None, None)]
    && out.candidate == None
    && Remembers(g.lastGood, results, out.g.lastGood)
    && out.g.emptyRetried == g.emptyRetried
  }

  function AtMost(n: nat, max: nat): nat {
    if n < max then n else max
  }

  /** After a one-shot exit: nothing was said, the results are counted and their
      summary is the answer. */
  ghost predicate TookShortcut<W>(words: Wording, conv: seq<Message>, g: Guard, results: seq<ToolResult>,
                                  out: TurnOut<W>) {
    && out.conv == conv
    && out.candidate == out.g.lastGood == Some(words.summary(results))
    && (g.executedCalls <= USIZE_MAX ==> out.g.executedCalls == AtMost(g.executedCalls + |results|, USIZE_MAX))
    && out.g.lastTool == g.lastTool && out.g.sameCount == g.sameCount && out.g.emptyRetried == g.emptyRetried
  }

  lemma {:induction false} ShortcutTells(g: Guard, results: seq<ToolResult>)
    ensures var g' := ShortcutAll(g, results);
            && Gains(g.executed, ToolNames(results), g'.executed)
            && g' == g.(executed := g'.executed, executedCalls := g'.executedCalls)
            && (g.executedCalls <= USIZE_MAX ==>
                  g'.executedCalls == AtMost(g.executedCalls + |results|, USIZE_MAX))
    decreases |results|
  {
    hide Gains, AddNew;
    if results == [] {
      GainsNothing(g.executed);
    } else {
      var first, rest := results[0], results[1..];
      var g1 := g.(executed := AddNew(g.executed, first.name),
                   executedCalls := SaturatingNext(g.executedCalls, USIZE_MAX));
      AddNewGains(g.executed, first.name);
      ShortcutTells(g1, rest);
      GainsTwice(g.executed, [first.name], g1.executed, ToolNames(rest), ShortcutAll(g, results).executed);
      assert ToolNames(results) == [first.name] + ToolNames(rest);
    }
  }

  lemma GatePhaseTells<W>(a: Agent, env: Env<W>, g: Guard, w: W, calls: seq<ToolCall>)
    ensures var h, b := AllHandled(a, env, w, calls), GateBatchSpec(a, env, g, w, calls);
            && b.w == h.w && b.ready == h.ready && b.events == RequestEvents(calls) + h.events
            && b.answers == AnswersTo(h.refused) && b.observations == ToldOf(env.words, h.refused)
            && Gains(g.used, NamesOf(calls) + h.stepTools, b.used) && Gains(g.executed, h.ranTools, b.executed)
  {
    hide AddAll, GateAll, AllHandled, Gains;
    var b0 := Batch(w, AddAll(g.used, NamesOf(calls)), g.executed, [], [], [], RequestEvents(calls));
    var h, b := AllHandled(a, env, w, calls), GateBatchSpec(a, env, g, w, calls);
    AddAllGains(g.used, NamesOf(calls));
    GateAllTells(a, env, b0, calls);
    GainsTwice(g.used, NamesOf(calls), b0.used, h.stepTools, b.used);
    assert [] + h.ready == h.ready && [] + AnswersTo(h.refused) == AnswersTo(h.refused);
    assert [] + ToldOf(env.words, h.refused) == ToldOf(env.words, h.refused);
  }

  /** The tool half of an iteration: the calls are handled one by one, what is
      left to run is run, and the batch goes on or takes the shortcut; either way
      the requested, expanded and executed names are recorded. */
  lemma ToolTurnTells<W>(a: Agent, env: Env<W>, p: Prompts, conv: seq<Message>, g: Guard, w: W,
                         calls: seq<ToolCall>, events: seq<Event>)
    ensures var out := ToolTurn(a, env, p, conv, g, w, calls, events);
            var h := AllHandled(a, env, w, calls);
            var r := ExecuteAll(env, h.w, h.ready);
            && out.w == r.w
            && events + (RequestEvents(calls) + h.events) + r.events <= out.events
            && Gains(g.used, NamesOf(calls) + h.stepTools, out.g.used)
            && Gains(g.executed, h.ranTools + ToolNames(r.results), out.g.executed)
            && (out.end.None? ==> GoesOn(env.words, p.safe, conv, g, h, r.results, out))
            && (out.end.Some? ==> TookShortcut(env.words, conv, g, r.results, out))
  {
    hide GateBatchSpec, AllHandled, ExecuteAll, AbsorbAll, ShortcutAll, IsOneShot, Gains, Remembers, ToldOf, AnswersTo,
         ShortcutEvents, RequestEvents;
    GatePhaseTells(a, env, g, w, calls);
    var out, h := ToolTurn(a, env, p, conv, g, w, calls, events), AllHandled(a, env, w, calls);
    var b := GateBatchSpec(a, env, g, w, calls);
    var results := ExecuteAll(env, h.w, h.ready).results;
    var g1 := g.(used := b.used, executed := b.executed);
    if out.end.Some? {
      ShortcutTells(g1, results);
      GainsTwice(g.executed, h.ranTools, b.executed, ToolNames(results), out.g.executed);
    } else {
      AbsorbAllTells(env.words, Absorption(g1, b.observations, b.answers, []), results);
      GainsTwice(g.executed, h.ranTools, b.executed, ToolNames(results), out.g.executed);
      AnswersTogether(h.refused, results);
      ToldTogether(env.words, h.refused, results);
    }
  }

  lemma AnswersTogether(x: seq<ToolResult>, y: seq<ToolResult>)
    ensures AnswersTo(x + y) == AnswersTo(x) + AnswersTo(y)
  {
  }

  lemma ToldTogether(words: Wording, x: seq<ToolResult>, y: seq<ToolResult>)
    ensures ToldOf(words, x + y) == ToldOf(words, x) + ToldOf(words, y)
  {
  }

  // ---- The answer half -----------------------------------------------------

  /** The question a candidate answer raises: the task and the answer, whether the
      counts show missing evidence, and the tools used; stripped if the policy asks
      for it. */
  ghost predicate Asks<W>(a: Agent, env: Env<W>, p: Prompts, conv: seq<Message>, g: Guard, answer: string,
                          question: string) {
    var plain := env.words.verifyPrompt(p.safe, answer, g.executedCalls > ToolCount(conv), g.used);
    question == if a.privacy.Policy? && a.privacy.redact then env.strip(plain) else plain
  }

  /** A candidate answer is put to the model, and the reply goes into the
      conversation: as an acceptance, or with what is missing. */
  lemma AnswerTurnTells<W>(a: Agent, env: Env<W>, p: Prompts, conv: seq<Message>, g: Guard, w: W,
                           answer: string, events: seq<Event>)
    ensures var out := AnswerTurn(a, env, p, conv, g, w, answer, events);
            var question := VerifyQuestion(a, env, p, conv, g, answer);
            var (reply, w1) := env.verify(w, question);
            var asked := Message(User, question, [], None, None);
            && Asks(a, env, p, conv, g, answer, question)
            && out.g == g && out.w == w1 && out.candidate == Some(answer)
            && out.events == events + [Audited(g.executedCalls, ToolCount(conv))]
            && (out.end.Some? ==> out.conv == conv + [asked, Message(Assistant, "VERIFIED", [], None, None)])
            && (out.end.None? ==>
                  && reply.Some?
                  && var feedback := InterpretVerification(reply.value).feedback;
                     out.conv == conv + [asked, Message(Assistant, Trim(reply.value), [], None, None),
                                         Message(User, env.words.incomplete(feedback), [], None, None)])
  {
    VerifiedIsFinal();
    hide Trim, ToolCount, InterpretVerification;
    var reply := env.verify(w, VerifyQuestion(a, env, p, conv, g, answer)).0;
    var text := if reply.None? || reply.value == "" then "VERIFIED" else reply.value;
    assert InterpretVerification(text).Incomplete? ==> reply.Some? && text == reply.value;
  }

  lemma VerifiedIsFinal()
    ensures InterpretVerification("VERIFIED") == Verified
  {
  }

  // ---- A whole iteration ---------------------------------------------------

  /** Trimming keeps the first message and the last thirty. */
  lemma WindowExactly(conv: seq<Message>)
    requires conv != []
    ensures var kept := Window(conv);
            && |kept| == AtMost(|conv|, 31) && kept[0] == conv[0]
            && kept[1..] == conv[|conv| + 1 - |kept|..]
  {
  }

  /** A request is the conversation, with each content masked exactly if the
      policy asks for redaction. */
  lemma OutgoingExactly<W>(a: Agent, env: Env<W>, conv: seq<Message>)
    ensures var sent := Outgoing(a, env, conv);
            && |sent| == |conv|
            && forall i | 0 <= i < |conv| ::
                 sent[i] == if a.privacy.Policy? && a.privacy.redact
                            then conv[i].(content := env.mask(i, conv[i].content)) else conv[i]
  {
  }

  /** What the model said joins the conversation as it is, except that masked texts
      are put back; an empty reply joins nothing. */
  function Said<W>(a: Agent, env: Env<W>, conv: seq<Message>, turn: Turn): Message {
    Message(Assistant, if a.privacy.Policy? && a.privacy.redact then env.unmask(turn.content, conv) else turn.content,
            turn.toolCalls, None, turn.reasoning)
  }

  /** An iteration trims and asks; without a reply it leaves the rest as it was,
      an empty reply is nudged once and otherwise left, and any other reply is
      recorded as it was said, clears the mark of an empty one, and goes on to its
      tool calls or, without any, to its answer. */
  lemma TurnTells<W>(a: Agent, env: Env<W>, p: Prompts, conv0: seq<Message>, g: Guard, w: W)
    requires conv0 != []
    ensures var out := RunTurn(a, env, p, conv0, g, w);
            var conv := Window(conv0);
            var (reply, w1) := env.chat(w, Outgoing(a, env, conv));
            if (a.privacy.Policy? && !a.privacy.allowed) || reply.Broken? then
              && out.conv == conv && out.g == g && out.candidate == None
              && out.w == if a.privacy.Policy? && !a.privacy.allowed then w else w1
            else if AllWhite(reply.turn.content) && reply.turn.toolCalls == [] then
              && out.w == w1
              && (out.end.None? <==> !g.emptyRetried)
              && if !g.emptyRetried then
                   out.conv == conv + [Message(User, env.words.emptyNudge, [], None, None)]
                   && out.g == g.(emptyRetried := true) && out.candidate == None
                 else
                   out.conv == conv
                   && out.g == g.(lastGood := out.candidate)
                   && out.candidate == if g.lastGood.Some? then Some(env.words.fromEarlierWork(g.lastGood.value))
                                       else None
            else
              var said := Said(a, env, conv, reply.turn);
              var events := [Trimmed(ToolCount(Dropped(conv0))), ChatRequested(Outgoing(a, env, conv))];
              var g1 := g.(emptyRetried := false);
              && conv + [said] <= out.conv && !out.g.emptyRetried
              && out == if reply.turn.toolCalls != []
                        then ToolTurn(a, env, p, conv + [said], g1, w1, reply.turn.toolCalls, events)
                        else AnswerTurn(a, env, p, conv + [said], g1, w1, said.content, events)
  {
    hide ToolTurn, AnswerTurn, Window, Outgoing, Trim, AllWhite, ToolCount, Dropped;
    var conv := Window(conv0);
    var sent := Outgoing(a, env, conv);
    var (reply, w1) := env.chat(w, sent);
    if !(a.privacy.Policy? && !a.privacy.allowed) && reply.Replied? {
      BlankExactly(reply.turn.content);
      if !reply.turn.IsEmpty() {
        var said := Said(a, env, conv, reply.turn);
        var events := [Trimmed(ToolCount(Dropped(conv0))), ChatRequested(sent)];
        assert [Trimmed(ToolCount(Dropped(conv0)))] + [ChatRequested(sent)] == events;
        var g1 := g.(emptyRetried := false);
        ToolTurnAdds(a, env, p, conv + [said], g1, w1, reply.turn.toolCalls, events);
        AnswerTurnAdds(a, env, p, conv + [said], g1, w1, said.content, events);
      }
    }
  }

  lemma ToolTurnAdds<W>(a: Agent, env: Env<W>, p: Prompts, conv: seq<Message>, g: Guard, w: W,
                        calls: seq<ToolCall>, events: seq<Event>)
    ensures var out := ToolTurn(a, env, p, conv, g, w, calls, events);
            conv <= out.conv && out.g.emptyRetried == g.emptyRetried
  {
    hide ToolTurn, Gains, Remembers, AnswersTo, ToldOf, AllHandled, ExecuteAll;
    ToolTurnTells(a, env, p, conv, g, w, calls, events);
  }

  lemma AnswerTurnAdds<W>(a: Agent, env: Env<W>, p: Prompts, conv: seq<Message>, g: Guard, w: W,
                          answer: string, events: seq<Event>)
    ensures var out := AnswerTurn(a, env, p, conv, g, w, answer, events);
            conv <= out.conv && out.g.emptyRetried == g.emptyRetried
  {
    hide AnswerTurn, InterpretVerification, Trim, ToolCount;
    AnswerTurnTells(a, env, p, conv, g, w, answer, events);
  }

  /** Two empty replies in a row are the end: the first is nudged, the second ends
      the run. */
  lemma SecondEmptyReplyEnds<W>(a: Agent, env: Env<W>, p: Prompts, conv: seq<Message>, g: Guard, w: W)
    requires conv != [] && RunTurn(a, env, p, conv, g, w).end.None?
    requires !(a.privacy.Policy? && !a.privacy.allowed)
    requires var reply := env.chat(w, Outgoing(a, env, Window(conv))).0;
             reply.Replied? && AllWhite(reply.turn.content) && reply.turn.toolCalls == []
    ensures var t := RunTurn(a, env, p, conv, g, w);
            var again := env.chat(t.w, Outgoing(a, env, Window(t.conv))).0;
            again.Replied? && AllWhite(again.turn.content) && again.turn.toolCalls == [] ==>
              RunTurn(a, env, p, t.conv, t.g, t.w).end.Some?
  {
    hide RunTurn, Window, Outgoing, AllWhite;
    TurnTells(a, env, p, conv, g, w);
    var t := RunTurn(a, env, p, conv, g, w);
    TurnTells(a, env, p, t.conv, t.g, t.w);
  }
}
