/** The loop's counters as facts about its whole history: the same-tool guard,
    the executed-tool lists and the evidence count of the QC council. */
module Counters {
  import opened Wrappers
  import opened Messages
  import opened Gate
  import opened Execution
  import opened AgentLoop
  import opened Conversation

  // ---- Tallies of a history ------------------------------------------------

  /** The names of the answered results in order, and how many blocked calls
      were answered and how many tool messages trimming dropped. */
  datatype Tally = Tally(names: seq<string>, blocks: nat, trims: nat)
  {
    function Then(other: Tally): Tally {
      Tally(names + other.names, blocks + other.blocks, trims + other.trims)
    }
  }

  const NOTHING := Tally([], 0, 0)

  function TallyOne(e: Event): Tally {
    match e
    case Answered(result) => Tally([result.name], 0, 0)
    case BlockAnswered(_) => Tally([], 1, 0)
    case Trimmed(n) => Tally([], 0, n)
    case _ => NOTHING
  }

  function TallyOf(events: seq<Event>): Tally {
    if events == [] then NOTHING else TallyOne(events[0]).Then(TallyOf(events[1..]))
  }

  lemma TallyEmpty()
    ensures TallyOf([]) == NOTHING
  {
  }

  lemma ThenNothing(t: Tally)
    ensures t.Then(NOTHING) == t && NOTHING.Then(t) == t
  {
  }

  lemma ThenAssociates(a: Tally, b: Tally, c: Tally)
    ensures a.Then(b).Then(c) == a.Then(b.Then(c))
  {
  }

  lemma TallyCons(e: Event, events: seq<Event>)
    ensures TallyOf([e] + events) == TallyOne(e).Then(TallyOf(events))
  {
    assert ([e] + events)[1..] == events;
  }

  lemma TallySingle(e: Event)
    ensures TallyOf([e]) == TallyOne(e)
  {
    hide TallyOne;
    TallyEmpty();
    ThenNothing(TallyOne(e));
  }

  lemma {:induction false} TallyAppend(a: seq<Event>, b: seq<Event>)
    ensures TallyOf(a + b) == TallyOf(a).Then(TallyOf(b))
  {
    hide *;
    if a == [] {
      TallyEmpty();
      assert a + b == b;
      ThenNothing(TallyOf(b));
    } else {
      var e, rest := a[0], a[1..];
      assert a == [e] + rest && a + b == [e] + (rest + b);
      TallyCons(e, rest);
      TallyCons(e, rest + b);
      TallyAppend(rest, b);
      ThenAssociates(TallyOne(e), TallyOf(rest), TallyOf(b));
    }
  }

  /** Events that no tally and no trace condition looks at. */
  ghost predicate Quiet(events: seq<Event>) {
    forall i | 0 <= i < |events| ::
      TallyOne(events[i]) == NOTHING && !events[i].Nudged? && !events[i].Audited?
  }

  lemma {:induction false} QuietTally(events: seq<Event>)
    requires Quiet(events)
    ensures TallyOf(events) == NOTHING
  {
    if events != [] {
      assert Quiet(events[1..]);
      QuietTally(events[1..]);
      ThenNothing(NOTHING);
    }
  }

  ghost predicate Silent(events: seq<Event>) {
    forall i | 0 <= i < |events| :: !events[i].Nudged? && !events[i].Audited?
  }

  // ---- Runs of equal names -------------------------------------------------

  /** How many of the last names are equal to the last one. */
  function TrailingRun(names: seq<string>): nat {
    var n := |names|;
    if n == 0 then 0
    else if n >= 2 && names[n - 2] == names[n - 1] then TrailingRun(names[..n - 1]) + 1
    else 1
  }

  /** It is the length of the longest constant tail. */
  lemma {:induction false} TrailingRunIsLongest(names: seq<string>)
    ensures var n, k := |names|, TrailingRun(names);
            && k <= n && (n > 0 ==> k > 0)
            && (forall i | n - k <= i < n :: names[i] == names[n - 1])
            && (k < n ==> names[n - k - 1] != names[n - 1])
  {
    var n := |names|;
    if n >= 2 && names[n - 2] == names[n - 1] {
      TrailingRunIsLongest(names[..n - 1]);
    }
  }

  function Cap(n: nat, max: nat): nat {
    if n < max then n else max
  }

  /** The guard's counters say what the answered names say. */
  ghost predicate CountsNames(g: Guard, names: seq<string>) {
    && g.lastTool == (if names == [] then None else Some(names[|names| - 1]))
    && g.sameCount == Cap(TrailingRun(names), U32_MAX)
    && g.executedCalls == Cap(|names|, USIZE_MAX)
  }

  lemma AbsorbCounts(g: Guard, names: seq<string>, result: ToolResult)
    requires CountsNames(g, names)
    ensures CountsNames(AbsorbGuard(g, result), names + [result.name])
  {
    var more := names + [result.name];
    assert more[..|more| - 1] == names;
  }

  // ---- Name lists ----------------------------------------------------------

  ghost predicate NoDuplicates(names: seq<string>) {
    forall i, j | 0 <= i < j < |names| :: names[i] != names[j]
  }

  ghost predicate Within(names: seq<string>, others: seq<string>) {
    forall n | n in names :: n in others
  }

  ghost predicate NamesOk(used: seq<string>, executed: seq<string>) {
    NoDuplicates(used) && NoDuplicates(executed) && Within(executed, used)
  }

  lemma AddNewKeeps(names: seq<string>, name: string)
    requires NoDuplicates(names)
    ensures NoDuplicates(AddNew(names, name)) && name in AddNew(names, name)
    ensures Within(names, AddNew(names, name))
    ensures forall n | n in AddNew(names, name) :: n in names || n == name
  {
  }

  lemma {:induction false} AddAllKeeps(names: seq<string>, more: seq<string>)
    requires NoDuplicates(names)
    ensures NoDuplicates(AddAll(names, more))
    ensures Within(names, AddAll(names, more)) && Within(more, AddAll(names, more))
    ensures forall n | n in AddAll(names, more) :: n in names || n in more
    decreases |more|
  {
    hide AddNew;
    if more != [] {
      AddNewKeeps(names, more[0]);
      AddAllKeeps(AddNew(names, more[0]), more[1..]);
      assert more == [more[0]] + more[1..];
    }
  }

  // ---- Skills --------------------------------------------------------------

  ghost predicate OnlyAttempts(events: seq<Event>, call: ToolCall) {
    forall i | 0 <= i < |events| :: events[i] == Attempted(call)
  }

  lemma {:induction false} ExecuteAttempts<W>(env: Env<W>, w: W, call: ToolCall, retries: nat)
    ensures var events := ExecuteCallSpec(env, w, call, retries).events;
            OnlyAttempts(events, call) && 1 <= |events| <= retries + 1
    decreases retries
  {
    var (result, w1) := env.execute(w, call);
    if !result.success && retries > 0 {
      ExecuteAttempts(env, w1, call, retries - 1);
    }
  }

  lemma ExecuteQuiet<W>(env: Env<W>, w: W, call: ToolCall, retries: nat)
    ensures Quiet(ExecuteCallSpec(env, w, call, retries).events)
  {
    ExecuteAttempts(env, w, call, retries);
    var events := ExecuteCallSpec(env, w, call, retries).events;
    assert forall i | 0 <= i < |events| :: events[i].Attempted?;
  }

  lemma GateQuiet<W>(a: Agent, env: Env<W>, w: W, call: ToolCall)
    ensures Quiet(GateCall(a, env, w, call).events)
  {
  }

  ghost predicate ExpansionOk<W>(x: Expansion<W>) {
    && Quiet(x.events)
    && NoDuplicates(x.stepTools) && NoDuplicates(x.ranTools) && Within(x.ranTools, x.stepTools)
  }

  lemma ExpandStepOk<W>(a: Agent, env: Env<W>, call: ToolCall, step: SkillStep, k: nat, x: Expansion<W>)
    requires ExpansionOk(x)
    ensures ExpansionOk(ExpandStep(a, env, call, step, k, x))
  {
    hide AddNew, GateCall, ExecuteCallSpec;
    var sc := StepCall(call, k, step);
    var g := GateCall(a, env, x.w, sc);
    GateQuiet(a, env, x.w, sc);
    AddNewKeeps(x.stepTools, step.tool);
    AddNewKeeps(x.ranTools, step.tool);
    ExecuteQuiet(env, g.w, sc, MAX_RETRIES);
    var ran := ExecuteCallSpec(env, g.w, sc, MAX_RETRIES);
    QuietAppend(x.events, [CallRequested(sc)]);
    QuietAppend(x.events + [CallRequested(sc)], g.events);
    var events := x.events + [CallRequested(sc)] + g.events;
    QuietAppend(events, [GateDecided(sc, g.decision)]);
    QuietAppend(events + [GateDecided(sc, g.decision)], ran.events);
    QuietAppend(events + [GateDecided(sc, g.decision)] + ran.events, [StepFinished(ran.result)]);
  }

  lemma QuietAppend(a: seq<Event>, b: seq<Event>)
    requires Quiet(a) && Quiet(b)
    ensures Quiet(a + b)
  {
  }

  lemma {:induction false} ExpandFromOk<W>(a: Agent, env: Env<W>, call: ToolCall, steps: seq<SkillStep>, k: nat,
                                           x: Expansion<W>)
    requires k <= |steps| && ExpansionOk(x)
    ensures ExpansionOk(ExpandFrom(a, env, call, steps, k, x))
    decreases |steps| - k
  {
    hide ExpandStep, ExpansionOk;
    if k < |steps| && !x.blocked {
      ExpandStepOk(a, env, call, steps[k], k, x);
      ExpandFromOk(a, env, call, steps, k + 1, ExpandStep(a, env, call, steps[k], k, x));
    }
  }

  lemma SkillOk<W>(a: Agent, env: Env<W>, w: W, call: ToolCall)
    ensures ExpansionOk(ExpandSkillSpec(a, env, w, call).x)
  {
    var none := Expansion(w, [], [], [], false, []);
    assert ExpansionOk(none);
    hide ExpansionOk;
    var name := env.words.skillName(call);
    if name in a.skills {
      ExpandFromOk(a, env, call, a.skills[name].steps, 0, none);
    }
  }

  // ---- The gate phase ------------------------------------------------------

  ghost predicate ReadyNamed(items: seq<ExecItem>, used: seq<string>) {
    forall i | 0 <= i < |items| :: ItemName(items[i]) in used
  }

  /** What the gate phase keeps about a batch. */
  ghost predicate BatchOk<W>(b: Batch<W>) {
    && NamesOk(b.used, b.executed)
    && ReadyNamed(b.ready, b.used)
    && AllTools(b.answers)
    && TallyOf(b.events) == Tally([], |b.answers|, 0)
    && Silent(b.events)
  }

  lemma TallyMore(events: seq<Event>, more: seq<Event>, blocks: nat, blocks': nat)
    requires TallyOf(events) == Tally([], blocks, 0)
    requires TallyOf(more) == Tally([], blocks', 0)
    ensures TallyOf(events + more) == Tally([], blocks + blocks', 0)
  {
    hide TallyOf, TallyOne;
    TallyAppend(events, more);
    assert Tally([], blocks, 0).Then(Tally([], blocks', 0)) == Tally([], blocks + blocks', 0);
  }

  lemma BlockedStepOk<W>(a: Agent, env: Env<W>, b: Batch<W>, call: ToolCall)
    requires BatchOk(b) && GateCall(a, env, b.w, call).decision != Allowed
    ensures BatchOk(GateStep(a, env, b, call))
    ensures GateStep(a, env, b, call).used == b.used
  {
    hide GateCall, TallyOf;
    var g := GateCall(a, env, b.w, call);
    GateQuiet(a, env, b.w, call);
    var quiet := g.events + [GateDecided(call, g.decision)];
    assert Quiet(quiet);
    QuietTally(quiet);
    var last := BlockAnswered(BlockedResult(env.words, call, g.decision));
    TallySingle(last);
    TallyMore(b.events, quiet, |b.answers|, 0);
    TallyMore(b.events + quiet, [last], |b.answers|, 1);
    assert GateStep(a, env, b, call).events == b.events + quiet + [last];
  }

  lemma PassedCallOk<W>(a: Agent, env: Env<W>, b: Batch<W>, call: ToolCall)
    requires BatchOk(b) && GateCall(a, env, b.w, call).decision == Allowed && call.name in b.used
    requires call.name != USE_SKILL
    ensures BatchOk(GateStep(a, env, b, call))
    ensures GateStep(a, env, b, call).used == b.used
  {
    hide GateCall, TallyOf;
    var g := GateCall(a, env, b.w, call);
    GateQuiet(a, env, b.w, call);
    var quiet := g.events + [GateDecided(call, g.decision)];
    assert Quiet(quiet);
    QuietTally(quiet);
    TallyMore(b.events, quiet, |b.answers|, 0);
    assert GateStep(a, env, b, call).events == b.events + quiet;
  }

  lemma PassedSkillOk<W>(a: Agent, env: Env<W>, b: Batch<W>, call: ToolCall)
    requires BatchOk(b) && GateCall(a, env, b.w, call).decision == Allowed && call.name in b.used
    requires call.name == USE_SKILL
    ensures BatchOk(GateStep(a, env, b, call))
    ensures Within(b.used, GateStep(a, env, b, call).used)
  {
    hide GateCall, TallyOf, ExpandSkillSpec, AddAll;
    var g := GateCall(a, env, b.w, call);
    var s := ExpandSkillSpec(a, env, g.w, call);
    GateQuiet(a, env, b.w, call);
    SkillOk(a, env, g.w, call);
    SkillKeepsId(a, env, g.w, call);
    var quiet := g.events + [GateDecided(call, g.decision)] + s.x.events;
    assert Quiet(quiet);
    QuietTally(quiet);
    TallyMore(b.events, quiet, |b.answers|, 0);
    assert GateStep(a, env, b, call).events == b.events + quiet;
    AddAllKeeps(b.used, s.x.stepTools);
    AddAllKeeps(b.executed, s.x.ranTools);
  }

  lemma {:induction false} GateAllOk<W>(a: Agent, env: Env<W>, b: Batch<W>, calls: seq<ToolCall>)
    requires BatchOk(b) && forall i | 0 <= i < |calls| :: calls[i].name in b.used
    ensures BatchOk(GateAll(a, env, b, calls))
    decreases |calls|
  {
    hide BatchOk, GateStep, GateCall;
    if calls != [] {
      var call := calls[0];
      if GateCall(a, env, b.w, call).decision != Allowed {
        BlockedStepOk(a, env, b, call);
      } else if call.name == USE_SKILL {
        PassedSkillOk(a, env, b, call);
      } else {
        PassedCallOk(a, env, b, call);
      }
      GateAllOk(a, env, GateStep(a, env, b, call), calls[1..]);
    }
  }

  lemma GateBatchOk<W>(a: Agent, env: Env<W>, g: Guard, w: W, calls: seq<ToolCall>)
    requires NamesOk(g.used, g.executed)
    ensures BatchOk(GateBatchSpec(a, env, g, w, calls))
  {
    hide AddAll, GateAll, TallyOf;
    var b := Batch(w, AddAll(g.used, NamesOf(calls)), g.executed, [], [], [], RequestEvents(calls));
    AddAllKeeps(g.used, NamesOf(calls));
    assert Quiet(RequestEvents(calls));
    QuietTally(RequestEvents(calls));
    forall i | 0 <= i < |calls|
      ensures calls[i].name in b.used
    {
      assert NamesOf(calls)[i] in NamesOf(calls);
    }
    hide NoDuplicates, Within;
    GateAllOk(a, env, b, calls);
  }

  // ---- Execution and answers -----------------------------------------------

  ghost predicate ResultsNamed(results: seq<ToolResult>, used: seq<string>) {
    forall i | 0 <= i < |results| :: results[i].name in used
  }

  /** Executing a batch starts attempts and does nothing else that shows. */
  ghost predicate AllAttempts(events: seq<Event>) {
    forall i | 0 <= i < |events| :: events[i].Attempted?
  }

  lemma {:induction false} PollsOnlyAttempt<W>(env: Env<W>, p: Pool<W>, order: seq<nat>)
    requires AllAttempts(p.events)
    ensures AllAttempts(PollAll(env, p, order).events)
    decreases |order|
  {
    if order != [] {
      PollsOnlyAttempt(env, Poll(env, p, order[0]), order[1..]);
    }
  }

  lemma ExecuteAllAttempts<W>(env: Env<W>, w: W, items: seq<ExecItem>)
    ensures AllAttempts(ExecuteAll(env, w, items).events)
  {
    hide PollAll;
    PollsOnlyAttempt(env, Pool(SlotsOf(items), w, []), Order(env, w, |items|));
  }

  lemma ExecuteAllOk<W(!new)>(env: Env<W>, w: W, items: seq<ExecItem>, used: seq<string>)
    requires HonestExecutor(env) && ReadyNamed(items, used)
    ensures var r := ExecuteAll(env, w, items);
            Quiet(r.events) && ResultsNamed(r.results, used)
  {
    hide ExecuteAll, ItemName, HonestExecutor;
    ExecuteAllAttempts(env, w, items);
    ExecuteAllIds(env, w, items);
    assert |ResultIds(ExecuteAll(env, w, items).results)| == |items|;
  }

  function ResultNames(results: seq<ToolResult>): seq<string> {
    if results == [] then [] else [results[0].name] + ResultNames(results[1..])
  }

  /** What answering results does to the counters, the lists and the history. */
  lemma {:induction false} AbsorbAllOk(words: Wording, s: Absorption, results: seq<ToolResult>, names: seq<string>)
    requires CountsNames(s.g, names) && NamesOk(s.g.used, s.g.executed) && ResultsNamed(results, s.g.used)
    requires AllTools(s.answers) && Silent(s.events)
    ensures var s' := AbsorbAll(words, s, results);
            && CountsNames(s'.g, names + ResultNames(results))
            && NamesOk(s'.g.used, s'.g.executed)
            && AllTools(s'.answers) && |s'.answers| == |s.answers| + |results|
            && TallyOf(s'.events) == TallyOf(s.events).Then(Tally(ResultNames(results), 0, 0))
            && Silent(s'.events)
    decreases |results|
  {
    hide CountsNames, TallyOf, AllTools, Absorb, NamesOk, Silent, ResultsNamed, Tally.Then;
    ThenNothing(TallyOf(s.events));
    if results == [] {
      assert names + ResultNames(results) == names;
    } else {
      var first, rest := results[0], results[1..];
      FirstNamed(results, s.g.used);
      AbsorbOneOk(words, s, first, names);
      AbsorbAllOk(words, Absorb(words, s, first), rest, names + [first.name]);
      assert names + [first.name] + ResultNames(rest) == names + ResultNames(results);
      ThenAssociates(TallyOf(s.events), Tally([first.name], 0, 0), Tally(ResultNames(rest), 0, 0));
      NamesThen([first.name], ResultNames(rest));
    }
  }

  lemma NamesThen(x: seq<string>, y: seq<string>)
    ensures Tally(x, 0, 0).Then(Tally(y, 0, 0)) == Tally(x + y, 0, 0)
  {
  }

  lemma AbsorbOneOk(words: Wording, s: Absorption, result: ToolResult, names: seq<string>)
    requires CountsNames(s.g, names) && NamesOk(s.g.used, s.g.executed) && result.name in s.g.used
    requires AllTools(s.answers) && Silent(s.events)
    ensures var s' := Absorb(words, s, result);
            && CountsNames(s'.g, names + [result.name])
            && NamesOk(s'.g.used, s'.g.executed) && s'.g.used == s.g.used
            && AllTools(s'.answers) && |s'.answers| == |s.answers| + 1
            && TallyOf(s'.events) == TallyOf(s.events).Then(Tally([result.name], 0, 0))
            && Silent(s'.events)
  {
    hide CountsNames, TallyOf, AddNew, AllTools, AbsorbGuard, NamesOk, Silent, Tally.Then;
    AbsorbCounts(s.g, names, result);
    AbsorbNames(s.g, result);
    SilentAnswer(s.events, result);
    ToolMessageIsTool(result.callId, result.output);
    OneMoreTool(s.answers, ToolMessage(result.callId, result.output));
    TallyAppend(s.events, [Answered(result)]);
    TallySingle(Answered(result));
  }

  lemma AbsorbNames(g: Guard, result: ToolResult)
    requires NamesOk(g.used, g.executed) && result.name in g.used
    ensures var g' := AbsorbGuard(g, result);
            NamesOk(g'.used, g'.executed) && g'.used == g.used
  {
    AddNewKeeps(g.executed, result.name);
  }

  lemma FirstNamed(results: seq<ToolResult>, used: seq<string>)
    requires results != [] && ResultsNamed(results, used)
    ensures results[0].name in used && ResultsNamed(results[1..], used)
  {
  }

  lemma SilentAnswer(events: seq<Event>, result: ToolResult)
    requires Silent(events)
    ensures Silent(events + [Answered(result)])
  {
  }

  lemma OneMoreTool(ms: seq<Message>, m: Message)
    requires AllTools(ms) && AllTools([m])
    ensures AllTools(ms + [m])
  {
    assert [m][0] == m;
  }

  lemma ToolMessageIsTool(callId: string, output: string)
    ensures AllTools([ToolMessage(callId, output)])
  {
  }

  lemma {:induction false} ResultNamesLength(results: seq<ToolResult>)
    ensures |ResultNames(results)| == |results|
  {
    if results != [] {
      ResultNamesLength(results[1..]);
    }
  }

  lemma {:induction false} ShortcutOk(g: Guard, results: seq<ToolResult>)
    requires NamesOk(g.used, g.executed) && ResultsNamed(results, g.used)
    ensures var g' := ShortcutAll(g, results);
            && NamesOk(g'.used, g'.executed)
            && g'.lastTool == g.lastTool && g'.sameCount == g.sameCount
    decreases |results|
  {
    hide AddNew;
    if results != [] {
      AddNewKeeps(g.executed, results[0].name);
      assert results[0].name in g.used;
      ShortcutOk(g.(executed := AddNew(g.executed, results[0].name),
                    executedCalls := SaturatingNext(g.executedCalls, USIZE_MAX)), results[1..]);
    }
  }

  // ---- Tool messages in context --------------------------------------------

  lemma {:induction false} ToolCountAppend(a: seq<Message>, b: seq<Message>)
    ensures ToolCount(a + b) == ToolCount(a) + ToolCount(b)
    decreases |b|
  {
    if b == [] {
      assert a + b == a;
    } else {
      var n := |b| - 1;
      assert (a + b)[..|a + b| - 1] == a + b[..n];
      ToolCountAppend(a, b[..n]);
    }
  }

  lemma {:induction false} ToolCountAll(ms: seq<Message>)
    requires AllTools(ms)
    ensures ToolCount(ms) == |ms|
    decreases |ms|
  {
    if ms != [] {
      ToolCountAll(ms[..|ms| - 1]);
    }
  }

  lemma WindowCounts(conv: seq<Message>)
    requires conv != []
    ensures ToolCount(Window(conv)) + ToolCount(Dropped(conv)) == ToolCount(conv)
  {
    if |conv| > MAX_TAIL + 1 {
      var head, tail := [conv[0]], conv[|conv| - MAX_TAIL..];
      assert conv == head + Dropped(conv) + tail;
      ToolCountAppend(head + Dropped(conv), tail);
      ToolCountAppend(head, Dropped(conv));
      ToolCountAppend(head, tail);
    } else {
      assert ToolCount([]) == 0;
    }
  }

  // ---- What every turn keeps -----------------------------------------------

  /** How an event must relate to the history before it: the nudge follows the
      run of equal names, and the audit sees exact counts. */
  ghost predicate EventOk(before: seq<Event>, e: Event) {
    var t := TallyOf(before);
    match e
    case Nudged(nudge) =>
      var run := TrailingRun(t.names);
      nudge == (if run >= 3 then Hard else if run == 2 then Soft else Plain)
    case Audited(executedCalls, inContext) =>
      && executedCalls == Cap(|t.names|, USIZE_MAX)
      && inContext + t.trims == |t.names| + t.blocks
    case _ => true
  }

  ghost predicate TraceOk(hist: seq<Event>) {
    forall i | 0 <= i < |hist| :: EventOk(hist[..i], hist[i])
  }

  lemma TraceSilent(hist: seq<Event>, more: seq<Event>)
    requires TraceOk(hist) && Silent(more)
    ensures TraceOk(hist + more)
  {
    var all := hist + more;
    forall i | 0 <= i < |all|
      ensures EventOk(all[..i], all[i])
    {
      if i < |hist| {
        assert all[..i] == hist[..i];
      }
    }
  }

  lemma TraceOneMore(hist: seq<Event>, e: Event)
    requires TraceOk(hist) && EventOk(hist, e)
    ensures TraceOk(hist + [e])
  {
    hide EventOk;
    var all := hist + [e];
    forall i | 0 <= i < |all|
      ensures EventOk(all[..i], all[i])
    {
      if i < |hist| {
        assert all[..i] == hist[..i];
      } else {
        assert all[..i] == hist;
      }
    }
  }

  /** The counters of a live loop agree with its history. Every tool message is
      in the conversation or was trimmed, and stands for one answered result or
      one answered block. */
  ghost predicate LoopOk(conv: seq<Message>, g: Guard, hist: seq<Event>) {
    var t := TallyOf(hist);
    && CountsNames(g, t.names)
    && NamesOk(g.used, g.executed)
    && TraceOk(hist)
    && ToolCount(conv) + t.trims == |t.names| + t.blocks
  }

  lemma LoopOkQuiet(conv: seq<Message>, g: Guard, hist: seq<Event>, more: seq<Event>)
    requires LoopOk(conv, g, hist) && Quiet(more)
    ensures LoopOk(conv, g, hist + more)
  {
    hide TraceOk, TallyOf, CountsNames, ToolCount, NamesOk, Quiet, Silent;
    QuietKeepsTally(hist, more);
    QuietIsSilent(more);
    TraceSilent(hist, more);
  }

  lemma QuietKeepsTally(hist: seq<Event>, more: seq<Event>)
    requires Quiet(more)
    ensures TallyOf(hist + more) == TallyOf(hist)
  {
    hide *;
    TallyAppend(hist, more);
    QuietTally(more);
    ThenNothing(TallyOf(hist));
  }

  lemma QuietIsSilent(events: seq<Event>)
    requires Quiet(events)
    ensures Silent(events)
  {
  }

  lemma CountsIgnoreLists(g: Guard, names: seq<string>, used: seq<string>, executed: seq<string>)
    requires CountsNames(g, names)
    ensures CountsNames(g.(used := used, executed := executed), names)
  {
  }

  /** A message that is no tool message changes no count. */
  lemma LoopOkSpeech(conv: seq<Message>, g: Guard, hist: seq<Event>, more: seq<Message>)
    requires LoopOk(conv, g, hist)
    requires forall i | 0 <= i < |more| :: more[i].role != ToolRole
    ensures LoopOk(conv + more, g, hist)
  {
    hide TraceOk, TallyOf, CountsNames;
    NoTools(more);
    ToolCountAppend(conv, more);
  }

  lemma {:induction false} NoTools(ms: seq<Message>)
    requires forall i | 0 <= i < |ms| :: ms[i].role != ToolRole
    ensures ToolCount(ms) == 0
    decreases |ms|
  {
    if ms != [] {
      NoTools(ms[..|ms| - 1]);
    }
  }

  lemma LoopOkTrim(conv: seq<Message>, g: Guard, hist: seq<Event>)
    requires conv != [] && LoopOk(conv, g, hist)
    ensures LoopOk(Window(conv), g, hist + [Trimmed(ToolCount(Dropped(conv)))])
  {
    var e := Trimmed(ToolCount(Dropped(conv)));
    hide EventOk, CountsNames, ToolCount, TallyOf, Window, Dropped;
    WindowCounts(conv);
    TallyAppend(hist, [e]);
    TallySingle(e);
    assert TallyOf(hist + [e]).names == TallyOf(hist).names;
    TraceSilent(hist, [e]);
  }

  /** Counters in step, with the answers of `n` blocked calls still unsent. */
  ghost predicate Unsent(conv: seq<Message>, g: Guard, hist: seq<Event>, n: nat) {
    var t := TallyOf(hist);
    && CountsNames(g, t.names) && NamesOk(g.used, g.executed) && TraceOk(hist)
    && ToolCount(conv) + n + t.trims == |t.names| + t.blocks
  }

  /** Gating and executing a batch, before anything is answered. */
  lemma BatchRan<W(!new)>(a: Agent, env: Env<W>, conv: seq<Message>, g: Guard, w: W, calls: seq<ToolCall>,
                          h: seq<Event>)
    requires HonestExecutor(env) && LoopOk(conv, g, h)
    ensures var b := GateBatchSpec(a, env, g, w, calls);
            var r := ExecuteAll(env, b.w, b.ready);
            && Unsent(conv, g.(used := b.used, executed := b.executed), h + (b.events + r.events), |b.answers|)
            && AllTools(b.answers) && ResultsNamed(r.results, b.used)
  {
    hide GateBatchSpec, ExecuteAll, TraceOk, CountsNames, TallyOf, ToolCount, NoDuplicates, Within, ReadyNamed,
         ResultsNamed, AllTools, Quiet, Silent;
    var b := GateBatchSpec(a, env, g, w, calls);
    GateBatchOk(a, env, g, w, calls);
    var r := ExecuteAll(env, b.w, b.ready);
    ExecuteAllOk(env, b.w, b.ready, b.used);
    var ran := b.events + r.events;
    CountsIgnoreLists(g, TallyOf(h).names, b.used, b.executed);
    QuietTally(r.events);
    QuietIsSilent(r.events);
    SilentBoth(b.events, r.events);
    TallyMore(b.events, r.events, |b.answers|, 0);
    TallyAppend(h, ran);
    NamesThenNone(TallyOf(h), |b.answers|);
    TraceSilent(h, ran);
  }

  lemma SilentBoth(x: seq<Event>, y: seq<Event>)
    requires Silent(x) && Silent(y)
    ensures Silent(x + y)
  {
  }

  /** The batch half of a turn. */
  lemma ToolTurnCounts<W(!new)>(a: Agent, env: Env<W>, p: Prompts, conv: seq<Message>, g: Guard, w: W,
                                calls: seq<ToolCall>, hist: seq<Event>, events: seq<Event>)
    requires HonestExecutor(env) && LoopOk(conv, g, hist + events)
    ensures var out := ToolTurn(a, env, p, conv, g, w, calls, events);
            && TraceOk(hist + out.events)
            && (out.end.None? ==> LoopOk(out.conv, out.g, hist + out.events))
            && NamesOk(out.g.used, out.g.executed)
  {
    hide GateBatchSpec, ExecuteAll, AbsorbAll, ShortcutAll, IsOneShot, ResultsNamed, AllTools, Unsent, LoopOk, TraceOk,
         NamesOk, NudgeFor, HonestExecutor, ShortcutEvents;
    var h := hist + events;
    var b := GateBatchSpec(a, env, g, w, calls);
    var r := ExecuteAll(env, b.w, b.ready);
    var g1 := g.(used := b.used, executed := b.executed);
    var ran := b.events + r.events;
    BatchRan(a, env, conv, g, w, calls, h);
    UnsentParts(conv, g1, h + ran, |b.answers|);
    var out := ToolTurn(a, env, p, conv, g, w, calls, events);
    if out.end.Some? {
      ShortcutIsSilent(r.results);
      TraceSilent(h + ran, ShortcutEvents(r.results));
      assert hist + out.events == h + ran + ShortcutEvents(r.results);
      ShortcutOk(g1, r.results);
    } else {
      var s := AbsorbAll(env.words, Absorption(g1, b.observations, b.answers, []), r.results);
      var last := UserMessage(env.words.wrapUp(s.observations, NudgeFor(s.g.sameCount), s.g.lastTool, s.g.sameCount,
                                               p.safe));
      BatchCounts(env.words, g1, b.observations, b.answers, r.results, conv, h + ran, |b.answers|, last);
      assert hist + out.events == h + ran + s.events + [Nudged(NudgeFor(s.g.sameCount))];
      LoopOkParts(out.conv, out.g, hist + out.events);
    }
  }

  lemma LoopOkParts(conv: seq<Message>, g: Guard, hist: seq<Event>)
    requires LoopOk(conv, g, hist)
    ensures TraceOk(hist) && NamesOk(g.used, g.executed)
  {
  }

  lemma UnsentParts(conv: seq<Message>, g: Guard, hist: seq<Event>, n: nat)
    requires Unsent(conv, g, hist, n)
    ensures TraceOk(hist) && NamesOk(g.used, g.executed)
  {
  }

  lemma ShortcutIsSilent(results: seq<ToolResult>)
    ensures Silent(ShortcutEvents(results))
  {
  }

  lemma NamesThenNone(t: Tally, blocks: nat)
    ensures t.Then(Tally([], blocks, 0)) == Tally(t.names, t.blocks + blocks, t.trims)
  {
  }

  /** Answering the results of a batch and nudging, after `hist` with the given
      blocked answers still unsent. */
  lemma BatchCounts(words: Wording, g: Guard, observations: seq<string>, blocked: seq<Message>,
                    results: seq<ToolResult>, conv: seq<Message>, hist: seq<Event>, n: nat, last: Message)
    requires Unsent(conv, g, hist, n)
    requires AllTools(blocked) && |blocked| == n && ResultsNamed(results, g.used)
    requires last.role == User
    ensures var s := AbsorbAll(words, Absorption(g, observations, blocked, []), results);
            LoopOk(conv + s.answers + [last], s.g, hist + s.events + [Nudged(NudgeFor(s.g.sameCount))])
  {
    hide AbsorbAll, TraceOk, CountsNames, TallyOf, ToolCount, NoDuplicates, Within, ResultsNamed, AllTools, EventOk,
         TallyOne, ResultNames, NudgeFor, TrailingRun;
    var t := TallyOf(hist);
    var s0 := Absorption(g, observations, blocked, []);
    var s := AbsorbAll(words, s0, results);
    assert Silent([]);
    AbsorbAllOk(words, s0, results, t.names);
    ResultNamesLength(results);
    TallyEmpty();
    ThenNothing(Tally(ResultNames(results), 0, 0));
    TallyAppend(hist, s.events);
    var answered := hist + s.events;
    assert TallyOf(answered) == Tally(t.names + ResultNames(results), t.blocks, t.trims);
    TraceSilent(hist, s.events);
    ToolCountAll(s.answers);
    ToolCountAppend(conv, s.answers);
    assert LoopOk(conv + s.answers, s.g, answered);
    NudgeFits(s.g, answered);
    TraceOneMore(answered, Nudged(NudgeFor(s.g.sameCount)));
    TallyAppend(answered, [Nudged(NudgeFor(s.g.sameCount))]);
    TallyNudge(NudgeFor(s.g.sameCount));
    ThenNothing(TallyOf(answered));
    assert LoopOk(conv + s.answers, s.g, answered + [Nudged(NudgeFor(s.g.sameCount))]);
    LoopOkSpeech(conv + s.answers, s.g, answered + [Nudged(NudgeFor(s.g.sameCount))], [last]);
  }

  lemma TallyNudge(n: Nudge)
    ensures TallyOf([Nudged(n)]) == NOTHING
  {
    TallySingle(Nudged(n));
  }

  lemma NudgeFits(g: Guard, hist: seq<Event>)
    requires CountsNames(g, TallyOf(hist).names)
    ensures EventOk(hist, Nudged(NudgeFor(g.sameCount)))
  {
  }

  /** The answer half of a turn. */
  lemma AnswerTurnCounts<W>(a: Agent, env: Env<W>, p: Prompts, conv: seq<Message>, g: Guard, w: W,
                            answer: string, hist: seq<Event>, events: seq<Event>)
    requires LoopOk(conv, g, hist + events)
    ensures var out := AnswerTurn(a, env, p, conv, g, w, answer, events);
            LoopOk(out.conv, out.g, hist + out.events)
  {
    hide LoopOk, ToolCount;
    var h := hist + events;
    var out := AnswerTurn(a, env, p, conv, g, w, answer, events);
    var audit := Audited(g.executedCalls, ToolCount(conv));
    LoopOkAudit(conv, g, h);
    AnswerShape(a, env, p, conv, g, w, answer, events);
    assert hist + out.events == h + [audit];
    LoopOkSpeech(conv, g, h + [audit], out.conv[|conv|..]);
  }

  /** Answering only speaks and audits. */
  lemma AnswerShape<W>(a: Agent, env: Env<W>, p: Prompts, conv: seq<Message>, g: Guard, w: W,
                       answer: string, events: seq<Event>)
    ensures var out := AnswerTurn(a, env, p, conv, g, w, answer, events);
            && out.g == g && out.events == events + [Audited(g.executedCalls, ToolCount(conv))]
            && conv <= out.conv && out.conv == conv + out.conv[|conv|..]
            && forall i | |conv| <= i < |out.conv| :: out.conv[i].role != ToolRole
  {
    hide InterpretVerification, ToolCount, VerifyQuestion;
  }

  lemma LoopOkAudit(conv: seq<Message>, g: Guard, h: seq<Event>)
    requires LoopOk(conv, g, h)
    ensures LoopOk(conv, g, h + [Audited(g.executedCalls, ToolCount(conv))])
  {
    AuditFits(conv, g, h);
    AuditTally(h, g.executedCalls, ToolCount(conv));
    hide TraceOk, EventOk, TallyOf, ToolCount, TallyOne, NamesOk, CountsNames, Tally.Then;
    TraceOneMore(h, Audited(g.executedCalls, ToolCount(conv)));
  }

  lemma AuditTally(h: seq<Event>, x: nat, c: nat)
    ensures TallyOf(h + [Audited(x, c)]) == TallyOf(h)
  {
    hide *;
    TallyAppend(h, [Audited(x, c)]);
    TallyAudit(x, c);
    ThenNothing(TallyOf(h));
  }

  lemma TallyAudit(x: nat, c: nat)
    ensures TallyOf([Audited(x, c)]) == NOTHING
  {
    TallySingle(Audited(x, c));
  }

  lemma AuditFits(conv: seq<Message>, g: Guard, hist: seq<Event>)
    requires LoopOk(conv, g, hist)
    ensures EventOk(hist, Audited(g.executedCalls, ToolCount(conv)))
  {
  }

  /** Every turn keeps the counters in step with the history; what it nudges
      and audits on the way is right even in a turn that ends the run. */
  lemma TurnKeepsCounts<W(!new)>(a: Agent, env: Env<W>, p: Prompts, conv0: seq<Message>, g: Guard, w: W,
                                 hist: seq<Event>)
    requires HonestExecutor(env) && conv0 != [] && LoopOk(conv0, g, hist)
    ensures var out := RunTurn(a, env, p, conv0, g, w);
            && TraceOk(hist + out.events)
            && (out.end.None? || !EndsInCalls(out.conv) ==> LoopOk(out.conv, out.g, hist + out.events))
            && NamesOk(out.g.used, out.g.executed)
  {
    hide TraceOk, TallyOf, ToolCount, NoDuplicates, Within, ToolTurn, AnswerTurn, Window, Dropped, Outgoing;
    var out := RunTurn(a, env, p, conv0, g, w);
    var conv := Window(conv0);
    var cut := Trimmed(ToolCount(Dropped(conv0)));
    LoopOkTrim(conv0, g, hist);
    if !(a.privacy.Policy? && !a.privacy.allowed) {
      var sent := Outgoing(a, env, conv);
      var (reply, w1) := env.chat(w, sent);
      var events1 := [cut] + [ChatRequested(sent)];
      LoopOkQuiet(conv, g, hist + [cut], [ChatRequested(sent)]);
      assert hist + events1 == hist + [cut] + [ChatRequested(sent)];
      if reply.Replied? {
        if reply.turn.IsEmpty() {
          LoopOkSpeech(conv, g, hist + events1, [UserMessage(env.words.emptyNudge)]);
        } else {
          var turn := reply.turn;
          var content := if Redacts(a) then env.unmask(turn.content, conv) else turn.content;
          var said := Message(Assistant, content, turn.toolCalls, None, turn.reasoning);
          var g1 := g.(emptyRetried := false);
          LoopOkSpeech(conv, g, hist + events1, [said]);
          assert LoopOk(conv + [said], g1, hist + events1);
          if turn.toolCalls != [] {
            ToolTurnCounts(a, env, p, conv + [said], g1, w1, turn.toolCalls, hist, events1);
            EndedBatchSpeaksLast(a, env, p, conv + [said], g1, w1, turn.toolCalls, events1);
          } else {
            AnswerTurnCounts(a, env, p, conv + [said], g1, w1, content, hist, events1);
          }
        }
      }
    }
  }

  lemma EndedBatchSpeaksLast<W>(a: Agent, env: Env<W>, p: Prompts, conv: seq<Message>, g: Guard, w: W,
                                calls: seq<ToolCall>, events: seq<Event>)
    ensures var out := ToolTurn(a, env, p, conv, g, w, calls, events);
            out.end.Some? ==> out.conv == conv
  {
    hide GateBatchSpec, ExecuteAll, AbsorbAll, ShortcutAll, IsOneShot;
  }

  /** The evidence finding fires exactly when trimming dropped more tool messages
      than blocked calls were answered (and more than the saturated counter no
      longer counts): blocked answers stand in for missing results, so one
      dropped result alone does not make it fire, and without a dropped one it
      never fires. */
  lemma EvidenceFindingExact(hist: seq<Event>, i: nat)
    requires TraceOk(hist) && i < |hist| && hist[i].Audited?
    ensures var t := TallyOf(hist[..i]);
            && (EvidenceGap(hist[i].executedCalls, hist[i].inContext)
                <==> t.trims > t.blocks + (|t.names| - Cap(|t.names|, USIZE_MAX)))
            && (t.trims == 0 ==> !EvidenceGap(hist[i].executedCalls, hist[i].inContext))
  {
    assert EventOk(hist[..i], hist[i]);
  }
}
