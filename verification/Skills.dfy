/** What an expanded skill did, step by step: each recorded step is one gate
    decision on the step's own call, and its runs if it passed. */
module Skills {
  import opened Text
  import opened Messages
  import opened Gate
  import opened Execution
  import opened AgentLoop
  import opened Counters
  import opened GateSafety

  /** The call that stands for step `k` of a skill. */
  function CallOfStep(call: ToolCall, steps: seq<SkillStep>, k: nat): ToolCall
    requires k < |steps|
  {
    ToolCall(call.id + "-step-" + Decimal(k), steps[k].tool, steps[k].arguments)
  }

  /** One step led from `w` to `w'` with these events: it was requested and put
      through the gate, and ran until it succeeded, at most three times, or was
      blocked; the record says which. */
  ghost predicate StepHappened<W>(a: Agent, env: Env<W>, w: W, sc: ToolCall, record: StepRecord,
                                  events: seq<Event>, w': W) {
    var g := GateCall(a, env, w, sc);
    var gated := [CallRequested(sc)] + g.events + [GateDecided(sc, g.decision)];
    match record
    case StepBlocked(_, decision) => g.decision == decision != Allowed && events == gated && w' == g.w
    case StepRan(_, result) =>
      && g.decision == Allowed
      && exists runs: nat :: StepRan3(env, g.w, sc, gated, result, events, w', runs)
  }

  ghost predicate StepRan3<W>(env: Env<W>, w: W, sc: ToolCall, gated: seq<Event>, result: ToolResult,
                              events: seq<Event>, w': W, runs: nat) {
    var attempts := seq(runs, _ => Attempted(sc));
    && RanTimes(env, w, sc, Ran(result, w', attempts), runs, 3)
    && events == gated + attempts + [StepFinished(result)]
  }

  /** The recorded steps happened one after the other, the first in `worlds[0]`,
      and are a prefix of the skill's steps. */
  ghost predicate StepsHappened<W>(a: Agent, env: Env<W>, call: ToolCall, steps: seq<SkillStep>,
                                   records: seq<StepRecord>, parts: seq<seq<Event>>, worlds: seq<W>) {
    && |parts| == |records| <= |steps| && |worlds| == |records| + 1
    && forall i | 0 <= i < |records| ::
         && records[i].tool == steps[i].tool
         && StepHappened(a, env, worlds[i], CallOfStep(call, steps, i), records[i], parts[i], worlds[i + 1])
  }

  function InOrder(parts: seq<seq<Event>>): seq<Event> {
    if parts == [] then [] else InOrder(parts[..|parts| - 1]) + parts[|parts| - 1]
  }

  lemma StepHappens<W>(a: Agent, env: Env<W>, call: ToolCall, steps: seq<SkillStep>, k: nat, x: Expansion<W>)
    returns (part: seq<Event>)
    requires k < |steps|
    ensures var x' := ExpandStep(a, env, call, steps[k], k, x);
            && x'.events == x.events + part
            && |x'.records| == |x.records| + 1 && x.records <= x'.records
            && var record := x'.records[|x.records|];
               && record.tool == steps[k].tool
               && StepHappened(a, env, x.w, CallOfStep(call, steps, k), record, part, x'.w)
  {
    hide GateCall, ExecuteCallSpec, AddNew, RanTimes;
    var sc := CallOfStep(call, steps, k);
    assert sc == StepCall(call, k, steps[k]);
    var g := GateCall(a, env, x.w, sc);
    var gated := [CallRequested(sc)] + g.events + [GateDecided(sc, g.decision)];
    if g.decision != Allowed {
      part := gated;
    } else {
      var ran := ExecuteCallSpec(env, g.w, sc, MAX_RETRIES);
      var runs := RunsUntilSuccess(env, g.w, sc, MAX_RETRIES);
      RunsAreAttempts(env, g.w, sc, ran, runs);
      part := gated + ran.events + [StepFinished(ran.result)];
      assert StepRan3(env, g.w, sc, gated, ran.result, part, ran.w, runs);
    }
    assert ExpandStep(a, env, call, steps[k], k, x).events == x.events + part;
  }

  lemma RunsAreAttempts<W>(env: Env<W>, w: W, sc: ToolCall, ran: Ran<W>, runs: nat)
    requires RanTimes(env, w, sc, ran, runs, 3)
    ensures ran == Ran(ran.result, ran.w, seq(runs, _ => Attempted(sc)))
  {
  }

  lemma {:induction false} ExpandHappens<W>(a: Agent, env: Env<W>, call: ToolCall, steps: seq<SkillStep>, k: nat,
                                            x: Expansion<W>, parts: seq<seq<Event>>, worlds: seq<W>)
    returns (parts': seq<seq<Event>>, worlds': seq<W>)
    requires k <= |steps| && |x.records| == |parts| && (x.blocked || |parts| == k)
    requires StepsHappened(a, env, call, steps, x.records, parts, worlds)
    requires InOrder(parts) == x.events && worlds[|parts|] == x.w
    ensures var x' := ExpandFrom(a, env, call, steps, k, x);
            && StepsHappened(a, env, call, steps, x'.records, parts', worlds')
            && InOrder(parts') == x'.events && worlds'[|parts'|] == x'.w && worlds'[0] == worlds[0]
    decreases |steps| - k
  {
    hide StepHappened, ExpandStep;
    parts', worlds' := parts, worlds;
    if k < |steps| && !x.blocked {
      var part := StepHappens(a, env, call, steps, k, x);
      var x1 := ExpandStep(a, env, call, steps[k], k, x);
      assert (parts + [part])[..|parts|] == parts;
      MoreHappened(a, env, call, steps, x.records, parts, worlds, x1.records[k], part, x1.w);
      assert x1.records == x.records + [x1.records[k]];
      parts', worlds' := ExpandHappens(a, env, call, steps, k + 1, x1, parts + [part], worlds + [x1.w]);
    }
  }

  lemma MoreHappened<W>(a: Agent, env: Env<W>, call: ToolCall, steps: seq<SkillStep>, records: seq<StepRecord>,
                        parts: seq<seq<Event>>, worlds: seq<W>, record: StepRecord, part: seq<Event>, w': W)
    requires StepsHappened(a, env, call, steps, records, parts, worlds) && |records| < |steps|
    requires record.tool == steps[|records|].tool
    requires StepHappened(a, env, worlds[|records|], CallOfStep(call, steps, |records|), record, part, w')
    ensures StepsHappened(a, env, call, steps, records + [record], parts + [part], worlds + [w'])
  {
    hide StepHappened;
    var worlds' := worlds + [w'];
    forall i | 0 <= i < |records|
      ensures StepHappened(a, env, worlds'[i], CallOfStep(call, steps, i), records[i], parts[i], worlds'[i + 1])
    {
    }
  }

  /** A known skill puts a prefix of its steps through the gate one by one, each
      under its own id with its own arguments, and runs those that pass; a
      blocked step is the last. The result tells the records. */
  lemma SkillHappens<W>(a: Agent, env: Env<W>, w: W, call: ToolCall)
    requires env.words.skillName(call) in a.skills
    ensures var name := env.words.skillName(call);
            var steps := a.skills[name].steps;
            var s := ExpandSkillSpec(a, env, w, call);
            && RecordsPrefix(steps, s.x.records, s.x.blocked)
            && s.result == ToolResult(call.id, call.name, AllRan(s.x.records),
                                      env.words.skillOutput(name, s.x.records, |steps| - |s.x.records|),
                                      env.words.skillSummary(name, s.x.records, |steps|))
            && exists parts, worlds ::
                 && StepsHappened(a, env, call, steps, s.x.records, parts, worlds)
                 && worlds[0] == w && worlds[|parts|] == s.x.w && InOrder(parts) == s.x.events
  {
    SkillRunsPrefix(a, env, w, call);
    SkillResult(a, env, w, call);
    var parts, worlds := SkillTrace(a, env, w, call);
    hide *;
  }

  lemma SkillResult<W>(a: Agent, env: Env<W>, w: W, call: ToolCall)
    requires env.words.skillName(call) in a.skills
    ensures var name := env.words.skillName(call);
            var steps := a.skills[name].steps;
            var s := ExpandSkillSpec(a, env, w, call);
            s.result == ToolResult(call.id, call.name, AllRan(s.x.records),
                                   env.words.skillOutput(name, s.x.records, |steps| - |s.x.records|),
                                   env.words.skillSummary(name, s.x.records, |steps|))
  {
    SkillRunsPrefix(a, env, w, call);
    hide ExpandFrom, AllRan, RecordsPrefix;
  }

  lemma SkillTrace<W>(a: Agent, env: Env<W>, w: W, call: ToolCall) returns (parts: seq<seq<Event>>, worlds: seq<W>)
    requires env.words.skillName(call) in a.skills
    ensures var steps := a.skills[env.words.skillName(call)].steps;
            var x := ExpandSkillSpec(a, env, w, call).x;
            && StepsHappened(a, env, call, steps, x.records, parts, worlds)
            && worlds[0] == w && worlds[|parts|] == x.w && InOrder(parts) == x.events
  {
    hide StepHappened, ExpandFrom;
    var steps := a.skills[env.words.skillName(call)].steps;
    parts, worlds := ExpandHappens(a, env, call, steps, 0, Expansion(w, [], [], [], false, []), [], [w]);
  }

  /** An unknown skill runs nothing and fails. */
  lemma UnknownSkillDoesNothing<W>(a: Agent, env: Env<W>, w: W, call: ToolCall)
    requires env.words.skillName(call) !in a.skills
    ensures var s := ExpandSkillSpec(a, env, w, call);
            && s.x == Expansion(w, [], [], [], false, [])
            && s.result.callId == call.id && s.result.name == call.name && !s.result.success
            && s.result.output == env.words.unknownSkill(env.words.skillName(call))
  {
  }

  // ---- Which tools a skill used --------------------------------------------

  /** The first list names the tools of all recorded steps, the second those of
      the steps that ran. */
  ghost predicate ToolsTell(records: seq<StepRecord>, stepTools: seq<string>, ranTools: seq<string>) {
    && (forall t: string :: t in stepTools <==> exists i :: 0 <= i < |records| && records[i].tool == t)
    && (forall t: string ::
          t in ranTools <==> exists i :: 0 <= i < |records| && records[i].tool == t && records[i].StepRan?)
  }

  lemma ToolsTellMore(records: seq<StepRecord>, stepTools: seq<string>, ranTools: seq<string>, record: StepRecord)
    requires ToolsTell(records, stepTools, ranTools)
    ensures ToolsTell(records + [record], AddNew(stepTools, record.tool),
                      if record.StepRan? then AddNew(ranTools, record.tool) else ranTools)
  {
    var more := records + [record];
    assert more[|records|] == record;
    assert forall i | 0 <= i < |records| :: more[i] == records[i];
  }

  lemma {:induction false} ExpandToolsTell<W>(a: Agent, env: Env<W>, call: ToolCall, steps: seq<SkillStep>, k: nat,
                                              x: Expansion<W>)
    requires k <= |steps| && ToolsTell(x.records, x.stepTools, x.ranTools)
    ensures var x' := ExpandFrom(a, env, call, steps, k, x);
            ToolsTell(x'.records, x'.stepTools, x'.ranTools)
    decreases |steps| - k
  {
    hide ToolsTell, GateCall, ExecuteCallSpec, AddNew;
    if k < |steps| && !x.blocked {
      var x1 := ExpandStep(a, env, call, steps[k], k, x);
      ToolsTellMore(x.records, x.stepTools, x.ranTools, x1.records[|x.records|]);
      ExpandToolsTell(a, env, call, steps, k + 1, x1);
    }
  }

  /** A skill reports the tools it asked for and those it ran, once each. */
  lemma SkillTellsTools<W>(a: Agent, env: Env<W>, w: W, call: ToolCall)
    ensures var x := ExpandSkillSpec(a, env, w, call).x;
            && ToolsTell(x.records, x.stepTools, x.ranTools)
            && NoDuplicates(x.stepTools) && NoDuplicates(x.ranTools)
  {
    SkillOk(a, env, w, call);
    var none := Expansion(w, [], [], [], false, []);
    assert ToolsTell(none.records, none.stepTools, none.ranTools);
    hide ToolsTell, ExpandFrom, NoDuplicates;
    var name := env.words.skillName(call);
    if name in a.skills {
      ExpandToolsTell(a, env, call, a.skills[name].steps, 0, none);
    }
  }
}
