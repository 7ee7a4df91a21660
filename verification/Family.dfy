/** What a sub-agent inherits, and gate safety over a whole swarm. */
module Family {
  import opened Wrappers
  import opened Messages
  import opened Gate
  import opened AgentLoop
  import opened Conversation
  import opened Lifetime
  import opened Checkpoints
  import opened Coverage
  import opened Crashes

  const SPAWN_AGENT := "spawn_agent"

  /** What one `spawn_agent` tool holds: the parent's parts as they stood before
      the tool joined them, and the optional ceiling for children. */
  datatype SpawnTool = SpawnTool(parts: Agent, ceiling: Option<Tier>)
  {
    function Ceiling(): Tier {
      if ceiling.Some? then ceiling.value else parts.ceiling
    }

    function Tools(): map<string, Tier> {
      parts.tools[SPAWN_AGENT := ExternalEffector]
    }

    /** The child: inherited parts, the registry with the spawn tool put back,
        the ceiling override if there is one, and no skills. */
    function ChildAgent(): Agent {
      parts.(tools := Tools(), ceiling := Ceiling(), skills := map[])
    }

    /** The tool registered for the child. */
    function ChildTool(): SpawnTool {
      SpawnTool(parts, ceiling)
    }
  }

  /** One agent of a swarm, how its life went, and the children it spawned. */
  datatype Member<!W> = Member(agent: Agent, env: Env<W>, h: Handle, systemPrompt: string, continuity: Option<string>,
                               prompt: string, w: W, moves: seq<Move<W>>, children: seq<Member<W>>)
  {
    function Wire(): seq<Event> {
      Live(agent, env, h, Start(agent, env, systemPrompt, continuity, prompt, w), moves).wire
    }
  }

  ghost predicate SpawnedBy<W(!new)>(tool: SpawnTool, m: Member<W>)
    decreases m
  {
    && m.agent == tool.ChildAgent()
    && HonestExecutor(m.env)
    && forall c | c in m.children :: SpawnedBy(tool.ChildTool(), c)
  }

  /** Every generation is made of the same parts: the tool a child gets makes the
      child's children just as it made the child. A child has the parent's tools
      with their tiers, the parent's limits and privacy, the override as its
      ceiling if there is one, and no skill to expand. */
  lemma GenerationsAreAlike<W>(tool: SpawnTool, env: Env<W>, w: W, call: ToolCall)
    ensures tool.ChildTool().ChildAgent() == tool.ChildAgent() && tool.ChildTool().Ceiling() == tool.Ceiling()
    ensures var child := tool.ChildAgent();
            && child.ceiling == (if tool.ceiling.Some? then tool.ceiling.value else tool.parts.ceiling)
            && child.threshold == tool.parts.threshold && child.maxSteps == tool.parts.maxSteps
            && child.privacy == tool.parts.privacy
            && (forall name: string | name != "spawn_agent" ::
                  (name in child.tools <==> name in tool.parts.tools)
                  && (name in child.tools ==> child.tools[name] == tool.parts.tools[name]))
            && "spawn_agent" in child.tools && child.tools["spawn_agent"] == ExternalEffector
            && ExpandSkillSpec(child, env, w, call).x.events == []
            && !ExpandSkillSpec(child, env, w, call).result.success
  {
  }

  // ---- What an executed call has behind it ---------------------------------

  /** `trace[j]` is a verdict that lets `call` of tier `tier` run at `i`. */
  ghost predicate Cleared(threshold: Tier, tier: Tier, trace: seq<Event>, j: nat, i: nat, call: ToolCall) {
    && j < i <= |trace|
    && trace[j].Judged? && trace[j].call == call && !trace[j].verdict.Deny?
    && (trace[j].verdict.Escalate? || threshold.AtMost(tier) ==> j + 1 < i && trace[j + 1] == HumanAnswered(call, true))
  }

  /** Every executor run in the trace is of a registered tool within the
      ceiling, was judged and not denied, and was approved by a human right
      after the verdict whenever that was due. */
  ghost predicate Lawful(tools: map<string, Tier>, threshold: Tier, ceiling: Tier, trace: seq<Event>) {
    forall i | 0 <= i < |trace| && trace[i].Attempted? ::
      var call := trace[i].call;
      && call.name in tools
      && tools[call.name].AtMost(ceiling)
      && exists j: nat :: Cleared(threshold, tools[call.name], trace, j, i, call)
  }

  lemma SafeIsLawful(a: Agent, trace: seq<Event>)
    requires GateSafe(a, trace)
    ensures Lawful(a.tools, a.threshold, a.ceiling, trace)
  {
    forall i | 0 <= i < |trace| && trace[i].Attempted?
      ensures var call := trace[i].call;
              && call.name in a.tools && a.tools[call.name].AtMost(a.ceiling)
              && exists j: nat :: Cleared(a.threshold, a.tools[call.name], trace, j, i, call)
    {
      var call := trace[i].call;
      assert AllowedIn(a, trace[..i], call);
      var j :| AllowsAt(a, trace[..i], j, call);
      assert forall k | 0 <= k < i :: trace[..i][k] == trace[k];
      if a.threshold.AtMost(a.tools[call.name]) || !trace[j - 1].Judged? {
        assert Cleared(a.threshold, a.tools[call.name], trace, j - 2, i, call);
      } else {
        assert Cleared(a.threshold, a.tools[call.name], trace, j - 1, i, call);
      }
    }
  }

  lemma LifeIsLawful<W(!new)>(m: Member<W>)
    requires HonestExecutor(m.env)
    ensures Lawful(m.agent.tools, m.agent.threshold, m.agent.ceiling, m.Wire())
  {
    hide GateSafe, Lawful, Live, HonestExecutor, LifeOk, LostTurnOk;
    var start := Start(m.agent, m.env, m.systemPrompt, m.continuity, m.prompt, m.w);
    EveryLifeIsOk(m.agent, m.env, m.h, m.systemPrompt, m.continuity, m.prompt, m.w, m.moves);
    OkIsGateSafe(m.agent, Live(m.agent, m.env, m.h, start, m.moves));
    SafeIsLawful(m.agent, m.Wire());
  }

  lemma OkIsGateSafe<W>(a: Agent, s: Life<W>)
    requires LifeOk(a, s)
    ensures GateSafe(a, s.wire)
  {
    hide GateSafe, Covered, Sound, ChatLog;
  }

  // ---- The whole swarm -----------------------------------------------------

  ghost predicate LawfulBelow<W>(tools: map<string, Tier>, threshold: Tier, ceiling: Tier, members: seq<Member<W>>)
    decreases members
  {
    forall m | m in members ::
      Lawful(tools, threshold, ceiling, m.Wire()) && LawfulBelow(tools, threshold, ceiling, m.children)
  }

  lemma {:induction false} DescendantsAreLawful<W(!new)>(tool: SpawnTool, members: seq<Member<W>>)
    requires forall m | m in members :: SpawnedBy(tool, m)
    ensures LawfulBelow(tool.Tools(), tool.parts.threshold, tool.Ceiling(), members)
    decreases members
  {
    hide Lawful, HonestExecutor;
    forall m | m in members
      ensures Lawful(tool.Tools(), tool.parts.threshold, tool.Ceiling(), m.Wire())
      ensures LawfulBelow(tool.Tools(), tool.parts.threshold, tool.Ceiling(), m.children)
    {
      LifeIsLawful(m);
      DescendantsAreLawful(tool.ChildTool(), m.children);
    }
  }

  /** Gate safety at any depth: the root obeys its own ceiling, and every agent
      below it, however deep, the one ceiling of the spawn tool, over crashes
      and resumes of each of them. That ceiling is no higher than the root's
      exactly when the host gave no override above it. */
  lemma SwarmIsLawful<W(!new)>(tool: SpawnTool, root: Member<W>)
    requires HonestExecutor(root.env)
    requires forall c | c in root.children :: SpawnedBy(tool, c)
    requires tool.parts.ceiling == root.agent.ceiling
    ensures Lawful(root.agent.tools, root.agent.threshold, root.agent.ceiling, root.Wire())
    ensures LawfulBelow(tool.Tools(), tool.parts.threshold, tool.Ceiling(), root.children)
    ensures tool.Ceiling().AtMost(root.agent.ceiling)
            <==> tool.ceiling.None? || tool.ceiling.value.AtMost(root.agent.ceiling)
  {
    hide Lawful, HonestExecutor, SpawnedBy;
    LifeIsLawful(root);
    DescendantsAreLawful(tool, root.children);
  }

  // ---- Spawning itself -----------------------------------------------------

  /** An agent below a ceiling under `ExternalEffector` never spawns. */
  lemma CappedNeverSpawns(tools: map<string, Tier>, threshold: Tier, ceiling: Tier, trace: seq<Event>, i: nat)
    requires Lawful(tools, threshold, ceiling, trace) && i < |trace| && trace[i].Attempted?
    requires SPAWN_AGENT in tools && tools[SPAWN_AGENT] == ExternalEffector
    ensures trace[i].call.name == SPAWN_AGENT ==>
              && ExternalEffector.AtMost(ceiling)
              && (threshold.AtMost(ExternalEffector) ==> HumanAnswered(trace[i].call, true) in trace[..i])
  {
    var call := trace[i].call;
    var j: nat :| Cleared(threshold, tools[call.name], trace, j, i, call);
    if call.name == SPAWN_AGENT && threshold.AtMost(ExternalEffector) {
      assert trace[..i][j + 1] == HumanAnswered(call, true);
    }
  }

  /** A human is asked about a spawn the policy lets through exactly when the
      policy escalates it or the threshold is not above `ExternalEffector`. */
  lemma SpawnAsksHuman<W>(a: Agent, env: Env<W>, w: W, call: ToolCall)
    requires call.name == SPAWN_AGENT && SPAWN_AGENT in a.tools && a.tools[SPAWN_AGENT] == ExternalEffector
    requires ExternalEffector.AtMost(a.ceiling) && !env.judge(w, call).0.Deny?
    ensures LiveAsks(a, env, w, call) <==> env.judge(w, call).0.Escalate? || a.threshold != SystemControl
  {
    var live := GateCall(a, env, w, call);
    if AsksHuman(a, env.judge(w, call).0.Escalate?, ExternalEffector) {
      assert live.events[|live.events| - 1].HumanAnswered?;
    }
  }
}
