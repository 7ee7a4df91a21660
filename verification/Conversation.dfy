/** What every conversation of the loop looks like: one system message in
    front, and every tool call answered at once under its own id. */
module Conversation {
  import opened Wrappers
  import opened Messages
  import opened Gate
  import opened Execution
  import opened AgentLoop

  ghost predicate Shape(conv: seq<Message>) {
    && conv != []
    && conv[0].role == System && conv[0].toolCalls == [] && conv[0].toolCallId.None?
    && forall i | 0 < i < |conv| ::
         conv[i].role != System && (conv[i].toolCalls != [] ==> conv[i].role == Assistant)
  }

  function ToolIds(ms: seq<Message>): (ids: seq<string>)
    ensures |ids| == |ms|
  {
    seq(|ms|, i requires 0 <= i < |ms| => if ms[i].toolCallId.Some? then ms[i].toolCallId.value else "")
  }

  ghost predicate AllTools(ms: seq<Message>) {
    forall i | 0 <= i < |ms| :: ms[i].role == ToolRole && ms[i].toolCallId.Some? && ms[i].toolCalls == []
  }

  /** The message at `i` is followed at once by one tool message per call, and
      the answered ids are a permutation of the called ids. */
  ghost predicate AnsweredAt(conv: seq<Message>, i: nat)
    requires i < |conv|
  {
    var n := |conv[i].toolCalls|;
    && i + n < |conv|
    && AllTools(conv[i + 1..i + 1 + n])
    && multiset(ToolIds(conv[i + 1..i + 1 + n])) == multiset(CallIds(conv[i].toolCalls))
  }

  ghost predicate Answered(conv: seq<Message>) {
    forall i | 0 <= i < |conv| :: conv[i].toolCalls != [] ==> AnsweredAt(conv, i)
  }

  ghost predicate Good(conv: seq<Message>) {
    Shape(conv) && Answered(conv)
  }

  /** What a provider may be sent. */
  ghost predicate WellFormedRequest(conv: seq<Message>) {
    Good(conv) && |conv| <= MAX_TAIL + 1
  }

  // ---- What keeps a conversation good --------------------------------------

  /** Whether a message is answered depends only on it and what follows it. */
  lemma AnswersTransfer(conv: seq<Message>, k: nat, t: seq<Message>, i: nat)
    requires k < |conv| && AnsweredAt(conv, k)
    requires i < |t| && t[i] == conv[k]
    requires conv[k..] <= t[i..] || t[i..] == conv[k..]
    ensures AnsweredAt(t, i)
  {
    var n := |conv[k].toolCalls|;
    assert forall j | 0 <= j < |conv| - k :: t[i..][j] == conv[k..][j];
    assert t[i + 1..i + 1 + n] == conv[k + 1..k + 1 + n];
  }

  /** Trimming keeps a suffix, so every call that is left keeps its answers. */
  lemma WindowIsGood(conv: seq<Message>)
    requires Good(conv)
    ensures WellFormedRequest(Window(conv))
  {
    if |conv| > MAX_TAIL + 1 {
      WindowTail(conv);
      WindowKeepsShape(conv);
      WindowKeepsAnswers(conv);
    }
  }

  lemma WindowTail(conv: seq<Message>)
    requires |conv| > MAX_TAIL + 1
    ensures var t, cut := Window(conv), |conv| - MAX_TAIL;
            && |t| == MAX_TAIL + 1 && t[0] == conv[0]
            && forall i | 0 < i < |t| :: t[i] == conv[cut - 1 + i] && t[i..] == conv[cut - 1 + i..]
  {
  }

  lemma WindowKeepsShape(conv: seq<Message>)
    requires Shape(conv) && |conv| > MAX_TAIL + 1
    ensures Shape(Window(conv))
  {
    WindowTail(conv);
    hide Window;
  }

  lemma WindowKeepsAnswers(conv: seq<Message>)
    requires Good(conv) && |conv| > MAX_TAIL + 1
    ensures Answered(Window(conv))
  {
    var t, cut := Window(conv), |conv| - MAX_TAIL;
    WindowTail(conv);
    hide AnsweredAt, Window;
    forall i | 0 <= i < |t| && t[i].toolCalls != []
      ensures AnsweredAt(t, i)
    {
      var k := cut - 1 + i;
      assert t[i] == conv[k];
      assert AnsweredAt(conv, k);
      AnswersTransfer(conv, k, t, i);
    }
  }

  /** Two messages that differ at most in their texts. */
  ghost predicate SameSkeleton(m: Message, m': Message) {
    m.role == m'.role && m.toolCallId == m'.toolCallId && CallIds(m.toolCalls) == CallIds(m'.toolCalls)
  }

  ghost predicate SameSkeletons(ms: seq<Message>, ms': seq<Message>) {
    |ms| == |ms'| && forall i | 0 <= i < |ms| :: SameSkeleton(ms[i], ms'[i])
  }

  lemma SkeletonIsEnough(conv: seq<Message>, conv': seq<Message>)
    requires Good(conv) && SameSkeletons(conv, conv')
    ensures Good(conv')
  {
    forall i | 0 <= i < |conv|
      ensures |conv[i].toolCalls| == |conv'[i].toolCalls|
    {
      assert SameSkeleton(conv[i], conv'[i]);
      assert |CallIds(conv[i].toolCalls)| == |CallIds(conv'[i].toolCalls)|;
    }
    forall i | 0 <= i < |conv'| && conv'[i].toolCalls != []
      ensures AnsweredAt(conv', i)
    {
      AnswersBySkeleton(conv, conv', i);
    }
  }

  lemma AnswersBySkeleton(conv: seq<Message>, conv': seq<Message>, i: nat)
    requires Answered(conv) && SameSkeletons(conv, conv')
    requires forall k | 0 <= k < |conv| :: |conv[k].toolCalls| == |conv'[k].toolCalls|
    requires i < |conv'| && conv'[i].toolCalls != []
    ensures AnsweredAt(conv', i)
  {
    assert AnsweredAt(conv, i) && SameSkeleton(conv[i], conv'[i]);
    var n := |conv[i].toolCalls|;
    var x, y := conv[i + 1..i + 1 + n], conv'[i + 1..i + 1 + n];
    forall k | 0 <= k < n
      ensures y[k].role == ToolRole && y[k].toolCallId == x[k].toolCallId && y[k].toolCalls == []
    {
      assert SameSkeleton(conv[i + 1 + k], conv'[i + 1 + k]);
      assert x[k].toolCalls == [];
    }
    assert ToolIds(x) == ToolIds(y);
  }

  lemma OutgoingIsGood<W>(a: Agent, env: Env<W>, conv: seq<Message>)
    requires WellFormedRequest(conv)
    ensures WellFormedRequest(Outgoing(a, env, conv))
  {
    SkeletonIsEnough(conv, Outgoing(a, env, conv));
  }

  /** Messages that neither call tools nor carry the system role may follow. */
  ghost predicate CallFree(ms: seq<Message>) {
    forall i | 0 <= i < |ms| :: ms[i].role != System && ms[i].toolCalls == []
  }

  lemma PrefixStaysAnswered(conv: seq<Message>, more: seq<Message>)
    requires Answered(conv)
    ensures forall i | 0 <= i < |conv| :: conv[i].toolCalls != [] ==> AnsweredAt(conv + more, i)
  {
    hide AnsweredAt;
    var c := conv + more;
    forall i | 0 <= i < |conv| && conv[i].toolCalls != []
      ensures AnsweredAt(c, i)
    {
      assert c[i..] == conv[i..] + more;
      AnswersTransfer(conv, i, c, i);
    }
  }

  lemma PlainMayFollow(conv: seq<Message>, more: seq<Message>)
    requires Good(conv) && CallFree(more)
    ensures Good(conv + more)
  {
    hide AnsweredAt;
    PrefixStaysAnswered(conv, more);
  }

  /** A calling message may follow together with its answers. */
  lemma CallsMayFollow(conv: seq<Message>, calling: Message, answers: seq<Message>)
    requires Good(conv)
    requires calling.role == Assistant && |answers| == |calling.toolCalls| && AllTools(answers)
    requires multiset(ToolIds(answers)) == multiset(CallIds(calling.toolCalls))
    ensures Good(conv + [calling] + answers)
  {
    hide Shape, Answered, ToolIds, CallIds;
    CallsKeepShape(conv, calling, answers);
    CallsKeepAnswered(conv, calling, answers);
  }

  lemma CallsKeepShape(conv: seq<Message>, calling: Message, answers: seq<Message>)
    requires Shape(conv) && calling.role == Assistant && AllTools(answers)
    ensures Shape(conv + [calling] + answers)
  {
    var c := conv + [calling] + answers;
    forall i | |conv| < i < |c|
      ensures c[i].role == ToolRole && c[i].toolCalls == []
    {
      assert c[i] == answers[i - |conv| - 1];
    }
  }

  lemma CallsKeepAnswered(conv: seq<Message>, calling: Message, answers: seq<Message>)
    requires Answered(conv) && |answers| == |calling.toolCalls| && AllTools(answers)
    requires multiset(ToolIds(answers)) == multiset(CallIds(calling.toolCalls))
    ensures Answered(conv + [calling] + answers)
  {
    hide AnsweredAt, ToolIds, CallIds;
    var c := conv + [calling] + answers;
    assert c == conv + ([calling] + answers);
    NewCallAnswered(conv, calling, answers);
    PrefixStaysAnswered(conv, [calling] + answers);
    forall i | |conv| < i < |c|
      ensures c[i].toolCalls == []
    {
      assert c[i] == answers[i - |conv| - 1];
    }
  }

  lemma NewCallAnswered(conv: seq<Message>, calling: Message, answers: seq<Message>)
    requires |answers| == |calling.toolCalls| && AllTools(answers)
    requires multiset(ToolIds(answers)) == multiset(CallIds(calling.toolCalls))
    ensures AnsweredAt(conv + [calling] + answers, |conv|)
  {
    var c := conv + [calling] + answers;
    assert c[|conv| + 1..|conv| + 1 + |answers|] == answers;
  }

  // ---- Every call of a batch is answered once ------------------------------

  /** Executors keep the trait's contract: a result names its call. */
  ghost predicate HonestExecutor<W(!new)>(env: Env<W>) {
    forall w, call :: var r := env.execute(w, call).0; r.callId == call.id && r.name == call.name
  }

  function ItemId(item: ExecItem): string {
    match item
    case CallItem(call) => call.id
    case SkillItem(result) => result.callId
  }

  function ItemName(item: ExecItem): string {
    match item
    case CallItem(call) => call.name
    case SkillItem(result) => result.name
  }

  function ItemIds(items: seq<ExecItem>): (ids: seq<string>)
    ensures |ids| == |items|
  {
    seq(|items|, i requires 0 <= i < |items| => ItemId(items[i]))
  }

  function ResultIds(results: seq<ToolResult>): (ids: seq<string>)
    ensures |ids| == |results|
  {
    seq(|results|, i requires 0 <= i < |results| => results[i].callId)
  }

  /** Which calls of the batch pass the gate, in order. */
  function Passes<W>(a: Agent, env: Env<W>, b: Batch<W>, calls: seq<ToolCall>): (flags: seq<bool>)
    ensures |flags| == |calls|
    decreases |calls|
  {
    if calls == [] then []
    else [GateCall(a, env, b.w, calls[0]).decision == Allowed]
         + Passes(a, env, GateStep(a, env, b, calls[0]), calls[1..])
  }

  function Pick(calls: seq<ToolCall>, flags: seq<bool>, want: bool): seq<ToolCall>
    requires |flags| == |calls|
  {
    if calls == [] then []
    else (if flags[0] == want then [calls[0]] else []) + Pick(calls[1..], flags[1..], want)
  }

  lemma {:induction false} PickPartitions(calls: seq<ToolCall>, flags: seq<bool>)
    requires |flags| == |calls|
    ensures var ids := CallIds(Pick(calls, flags, false)) + CallIds(Pick(calls, flags, true));
            multiset(ids) == multiset(CallIds(calls)) && |ids| == |calls|
  {
    if calls != [] {
      PickPartitions(calls[1..], flags[1..]);
      assert CallIds(calls) == [calls[0].id] + CallIds(calls[1..]);
      PickFirst(calls, flags);
    }
  }

  lemma PickFirst(calls: seq<ToolCall>, flags: seq<bool>)
    requires |flags| == |calls| && calls != []
    ensures CallIds(Pick(calls, flags, true)) ==
            (if flags[0] then [calls[0].id] else []) + CallIds(Pick(calls[1..], flags[1..], true))
    ensures CallIds(Pick(calls, flags, false)) ==
            (if flags[0] then [] else [calls[0].id]) + CallIds(Pick(calls[1..], flags[1..], false))
  {
    hide CallIds;
    CallIdsCons(calls[0], Pick(calls[1..], flags[1..], true));
    CallIdsCons(calls[0], Pick(calls[1..], flags[1..], false));
    var want := flags[0];
    assert Pick(calls, flags, want) == [calls[0]] + Pick(calls[1..], flags[1..], want);
    assert Pick(calls, flags, !want) == Pick(calls[1..], flags[1..], !want);
  }

  lemma CallIdsCons(call: ToolCall, calls: seq<ToolCall>)
    ensures CallIds([call] + calls) == [call.id] + CallIds(calls)
  {
  }

  lemma SkillKeepsId<W>(a: Agent, env: Env<W>, w: W, call: ToolCall)
    ensures ExpandSkillSpec(a, env, w, call).result.callId == call.id
    ensures ExpandSkillSpec(a, env, w, call).result.name == call.name
  {
  }

  /** One call adds its id either to the answers or to the ready items. */
  lemma GateStepIds<W>(a: Agent, env: Env<W>, b: Batch<W>, call: ToolCall)
    requires AllTools(b.answers)
    ensures var b' := GateStep(a, env, b, call);
            && AllTools(b'.answers)
            && if GateCall(a, env, b.w, call).decision == Allowed then
                 b'.answers == b.answers && ItemIds(b'.ready) == ItemIds(b.ready) + [call.id]
               else
                 b'.ready == b.ready && ToolIds(b'.answers) == ToolIds(b.answers) + [call.id]
  {
    SkillKeepsId(a, env, GateCall(a, env, b.w, call).w, call);
  }

  lemma {:induction false} GateAllIds<W>(a: Agent, env: Env<W>, b: Batch<W>, calls: seq<ToolCall>)
    requires AllTools(b.answers)
    ensures var b' := GateAll(a, env, b, calls);
            var flags := Passes(a, env, b, calls);
            && AllTools(b'.answers)
            && ToolIds(b'.answers) == ToolIds(b.answers) + CallIds(Pick(calls, flags, false))
            && ItemIds(b'.ready) == ItemIds(b.ready) + CallIds(Pick(calls, flags, true))
    decreases |calls|
  {
    hide GateStep, GateCall, ToolIds, ItemIds, CallIds, AllTools, Pick;
    if calls != [] {
      var b1 := GateStep(a, env, b, calls[0]);
      var flags := Passes(a, env, b, calls);
      assert flags[1..] == Passes(a, env, b1, calls[1..]);
      GateStepIds(a, env, b, calls[0]);
      GateAllIds(a, env, b1, calls[1..]);
      PickFirst(calls, flags);
    } else {
      NothingPicked();
    }
  }

  lemma NothingPicked()
    ensures forall want :: CallIds(Pick([], [], want)) == []
  {
  }

  lemma {:induction false} ExecutedKeepsId<W(!new)>(env: Env<W>, w: W, call: ToolCall, retries: nat)
    requires HonestExecutor(env)
    ensures var r := ExecuteCallSpec(env, w, call, retries).result;
            r.callId == call.id && r.name == call.name
    decreases retries
  {
    var (result, w1) := env.execute(w, call);
    if !result.success && retries > 0 {
      ExecutedKeepsId(env, w1, call, retries - 1);
    }
  }

  function SlotId(slot: Slot): string {
    if slot.Finished? then slot.result.callId else slot.call.id
  }

  function SlotName(slot: Slot): string {
    if slot.Finished? then slot.result.name else slot.call.name
  }

  ghost predicate SameCalls(slots: seq<Slot>, slots': seq<Slot>) {
    && |slots| == |slots'|
    && forall i | 0 <= i < |slots| :: SlotId(slots[i]) == SlotId(slots'[i]) && SlotName(slots[i]) == SlotName(slots'[i])
  }

  lemma {:induction false} PollsKeepCalls<W(!new)>(env: Env<W>, p: Pool<W>, order: seq<nat>)
    requires HonestExecutor(env)
    ensures SameCalls(p.slots, PollAll(env, p, order).slots)
    decreases |order|
  {
    if order != [] {
      PollsKeepCalls(env, Poll(env, p, order[0]), order[1..]);
    }
  }

  /** However a batch is scheduled, there is one result per ready item, in the
      model's order, under the item's own id and name. */
  lemma ExecuteAllIds<W(!new)>(env: Env<W>, w: W, items: seq<ExecItem>)
    requires HonestExecutor(env)
    ensures var results := ExecuteAll(env, w, items).results;
            && ResultIds(results) == ItemIds(items)
            && forall i | 0 <= i < |items| :: results[i].name == ItemName(items[i])
  {
    hide PollAll, HonestExecutor;
    EverythingFinishes(env, w, items);
    PollsKeepCalls(env, Pool(SlotsOf(items), w, []), Order(env, w, |items|));
    var results := ExecuteAll(env, w, items).results;
    forall i | 0 <= i < |items|
      ensures results[i].callId == ItemId(items[i]) && results[i].name == ItemName(items[i])
    {
      assert SlotId(SlotsOf(items)[i]) == ItemId(items[i]) && SlotName(SlotsOf(items)[i]) == ItemName(items[i]);
    }
  }

  lemma {:induction false} AbsorbAllIds(words: Wording, s: Absorption, results: seq<ToolResult>)
    requires AllTools(s.answers)
    ensures var s' := AbsorbAll(words, s, results);
            AllTools(s'.answers) && ToolIds(s'.answers) == ToolIds(s.answers) + ResultIds(results)
    decreases |results|
  {
    if results != [] {
      AbsorbAllIds(words, Absorb(words, s, results[0]), results[1..]);
    }
  }

  lemma EmptyIds<W>(b: Batch<W>)
    requires b.answers == [] && b.ready == []
    ensures AllTools(b.answers) && ToolIds(b.answers) == [] && ItemIds(b.ready) == [] && ResultIds([]) == []
  {
  }

  /** The answers of a batch: the blocked calls first, then the executed calls
      and skills, each part in the model's order and each call exactly once. */
  lemma BatchAnswers<W(!new)>(a: Agent, env: Env<W>, g: Guard, w: W, calls: seq<ToolCall>)
    requires HonestExecutor(env)
    ensures var b0 := Batch(w, AddAll(g.used, NamesOf(calls)), g.executed, [], [], [], RequestEvents(calls));
            var b := GateBatchSpec(a, env, g, w, calls);
            var r := ExecuteAll(env, b.w, b.ready);
            var s := AbsorbAll(env.words, Absorption(g.(used := b.used, executed := b.executed),
                                                     b.observations, b.answers, []), r.results);
            var flags := Passes(a, env, b0, calls);
            && AllTools(s.answers)
            && ToolIds(s.answers) == CallIds(Pick(calls, flags, false)) + CallIds(Pick(calls, flags, true))
            && multiset(ToolIds(s.answers)) == multiset(CallIds(calls))
            && |s.answers| == |calls|
  {
    hide Passes, Pick, AllTools, GateAll, ExecuteAll, AbsorbAll, AddAll, ToolIds, CallIds, HonestExecutor;
    var b0 := Batch(w, AddAll(g.used, NamesOf(calls)), g.executed, [], [], [], RequestEvents(calls));
    EmptyIds(b0);
    var b := GateBatchSpec(a, env, g, w, calls);
    var flags := Passes(a, env, b0, calls);
    GateAllIds(a, env, b0, calls);
    ExecuteAllIds(env, b.w, b.ready);
    var r := ExecuteAll(env, b.w, b.ready);
    var s0 := Absorption(g.(used := b.used, executed := b.executed), b.observations, b.answers, []);
    AbsorbAllIds(env.words, s0, r.results);
    PickPartitions(calls, flags);
  }

  // ---- A whole turn --------------------------------------------------------

  ghost predicate RequestsWellFormed(events: seq<Event>) {
    forall i | 0 <= i < |events| :: events[i].ChatRequested? ==> WellFormedRequest(events[i].messages)
  }

  /** The last message calls tools, and nothing answers it. */
  predicate EndsInCalls(conv: seq<Message>) {
    conv != [] && conv[|conv| - 1].role == Assistant && conv[|conv| - 1].toolCalls != []
  }

  lemma GoodEndsAnswered(conv: seq<Message>)
    requires Good(conv)
    ensures !EndsInCalls(conv)
  {
    assert forall i | 0 <= i < |conv| :: conv[i].toolCalls != [] ==> i + |conv[i].toolCalls| < |conv|;
  }

  /** The turn ended the run although the model had called tools. */
  predicate OneShotExit<W>(a: Agent, env: Env<W>, p: Prompts, conv0: seq<Message>, g: Guard, w: W)
    requires conv0 != []
  {
    && !(a.privacy.Policy? && !a.privacy.allowed)
    && RunTurn(a, env, p, conv0, g, w).end.Some?
    && var reply := env.chat(w, Outgoing(a, env, Window(conv0))).0;
       reply.Replied? && reply.turn.toolCalls != []
  }

  /** A turn leaves a good conversation, unless it ended the run by the one-shot
      exit: that one leaves its calls unanswered. */
  lemma TurnKeepsGood<W(!new)>(a: Agent, env: Env<W>, p: Prompts, conv0: seq<Message>, g: Guard, w: W)
    requires HonestExecutor(env) && Good(conv0)
    ensures var out := RunTurn(a, env, p, conv0, g, w);
            && (out.end.None? ==> Good(out.conv))
            && (Good(out.conv) <==> !OneShotExit(a, env, p, conv0, g, w))
            && (EndsInCalls(out.conv) <==> OneShotExit(a, env, p, conv0, g, w))
  {
    assert conv0 != [];
    hide RunTurn, OneShotExit, Good;
    TurnEndsGood(a, env, p, conv0, g, w);
    TurnEndsInCalls(a, env, p, conv0, g, w);
    if Good(RunTurn(a, env, p, conv0, g, w).conv) {
      GoodEndsAnswered(RunTurn(a, env, p, conv0, g, w).conv);
    }
  }

  lemma TurnEndsInCalls<W(!new)>(a: Agent, env: Env<W>, p: Prompts, conv0: seq<Message>, g: Guard, w: W)
    requires Good(conv0)
    ensures OneShotExit(a, env, p, conv0, g, w) ==> EndsInCalls(RunTurn(a, env, p, conv0, g, w).conv)
  {
    hide GateBatchSpec, ExecuteAll, AbsorbAll, IsOneShot, ShortcutAll, ToolCount, Window, NudgeFor, Outgoing, Good;
  }

  lemma TurnEndsGood<W(!new)>(a: Agent, env: Env<W>, p: Prompts, conv0: seq<Message>, g: Guard, w: W)
    requires HonestExecutor(env) && Good(conv0)
    ensures Good(RunTurn(a, env, p, conv0, g, w).conv) || OneShotExit(a, env, p, conv0, g, w)
    ensures RunTurn(a, env, p, conv0, g, w).end.None? ==> Good(RunTurn(a, env, p, conv0, g, w).conv)
  {
    hide GateBatchSpec, ExecuteAll, AbsorbAll, IsOneShot, ShortcutAll, ToolCount, InterpretVerification, Window,
         Answered, NudgeFor, Outgoing;
    var out := RunTurn(a, env, p, conv0, g, w);
    var conv := Window(conv0);
    WindowIsGood(conv0);
    if !(a.privacy.Policy? && !a.privacy.allowed) && env.chat(w, Outgoing(a, env, conv)).0.Replied? {
      var (reply, w1) := env.chat(w, Outgoing(a, env, conv));
      if reply.turn.IsEmpty() {
        PlainMayFollow(conv, [UserMessage(env.words.emptyNudge)]);
      } else {
        var turn := reply.turn;
        var content := if Redacts(a) then env.unmask(turn.content, conv) else turn.content;
        var calling := Message(Assistant, content, turn.toolCalls, None, turn.reasoning);
        var g1 := g.(emptyRetried := false);
        if turn.toolCalls != [] {
          ToolTurnKeepsGood(a, env, p, conv, calling, g1, w1,
                            [Trimmed(ToolCount(Dropped(conv0))), ChatRequested(Outgoing(a, env, conv))]);
        } else {
          AnswerTurnKeepsGood(a, env, p, conv, calling, g1, w1, content,
                              [Trimmed(ToolCount(Dropped(conv0))), ChatRequested(Outgoing(a, env, conv))]);
        }
      }
    }
  }

  lemma ToolTurnKeepsGood<W(!new)>(a: Agent, env: Env<W>, p: Prompts, conv: seq<Message>, calling: Message,
                                   g: Guard, w: W, events: seq<Event>)
    requires HonestExecutor(env) && Good(conv) && calling.role == Assistant
    ensures var out := ToolTurn(a, env, p, conv + [calling], g, w, calling.toolCalls, events);
            out.end.None? ==> Good(out.conv)
  {
    hide GateBatchSpec, ExecuteAll, AbsorbAll, IsOneShot, ShortcutAll, Good, Passes, Pick;
    var calls := calling.toolCalls;
    var out := ToolTurn(a, env, p, conv + [calling], g, w, calls, events);
    if out.end.None? {
      BatchAnswers(a, env, g, w, calls);
      var b := GateBatchSpec(a, env, g, w, calls);
      var r := ExecuteAll(env, b.w, b.ready);
      var s := AbsorbAll(env.words, Absorption(g.(used := b.used, executed := b.executed),
                                               b.observations, b.answers, []), r.results);
      CallsMayFollow(conv, calling, s.answers);
      var last := out.conv[|out.conv| - 1];
      assert out.conv == (conv + [calling] + s.answers) + [last];
      PlainMayFollow(conv + [calling] + s.answers, [last]);
    }
  }

  lemma AnswerTurnKeepsGood<W>(a: Agent, env: Env<W>, p: Prompts, conv: seq<Message>, said: Message,
                               g: Guard, w: W, answer: string, events: seq<Event>)
    requires Good(conv) && said.role == Assistant && said.toolCalls == []
    ensures Good(AnswerTurn(a, env, p, conv + [said], g, w, answer, events).conv)
  {
    hide Good, InterpretVerification, ToolCount;
    var out := AnswerTurn(a, env, p, conv + [said], g, w, answer, events);
    var more := out.conv[|conv|..];
    assert out.conv == conv + more;
    PlainMayFollow(conv, more);
  }
}
