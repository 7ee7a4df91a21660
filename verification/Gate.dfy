/** The gate chain in front of every tool call:
    registry lookup, trust ceiling, policy engine, human approval. */
module Gate {
  import opened Wrappers
  import opened Messages

  datatype Tier = Observational | Network | LocalMutating | ExternalEffector | SystemControl
  {
    function Rank(): nat {
      match this
      case Observational => 0
      case Network => 1
      case LocalMutating => 2
      case ExternalEffector => 3
      case SystemControl => 4
    }

    predicate AtMost(other: Tier) {
      Rank() <= other.Rank()
    }
  }

  datatype Verdict = Allow | Deny | Escalate

  datatype Decision = Allowed | UnknownTool | TrustBlocked | PolicyDenied | ApprovalDenied

  datatype SkillStep = SkillStep(tool: string, arguments: string)

  datatype Skill = Skill(steps: seq<SkillStep>, expected: string)

  /** A privacy policy either lets inference through or not, and may ask for
      redaction of what is sent. */
  datatype Privacy = NoPolicy | Policy(allowed: bool, redact: bool)

  /** The fixed parts of one agent: registered tools with their tiers, the
      configuration, the adopted skills and the privacy policy. */
  datatype Agent = Agent(tools: map<string, Tier>, ceiling: Tier, threshold: Tier,
                         maxSteps: nat, skills: map<string, Skill>, privacy: Privacy)

  datatype Reply = Replied(turn: Turn) | Broken

  datatype Nudge = Plain | Soft | Hard

  datatype StepRecord = StepRan(tool: string, result: ToolResult) | StepBlocked(tool: string, decision: Decision)

  /** The texts the loop writes. None of them decides anything. */
  datatype Wording = Wording(
    blocked: (Decision, ToolCall) -> string,
    skillName: ToolCall -> string,
    skillOutput: (string, seq<StepRecord>, int) -> string,
    skillSummary: (string, seq<StepRecord>, nat) -> string,
    unknownSkill: string -> string,
    observation: ToolResult -> string,
    wrapUp: (seq<string>, Nudge, Option<string>, nat, string) -> string,
    verifyPrompt: (string, string, bool, seq<string>) -> string,
    incomplete: string -> string,
    emptyNudge: string,
    fromEarlierWork: string -> string,
    summary: (seq<ToolResult>) -> string,
    lower: string -> string)

  /** Everything outside the loop, as functions that read and advance a world
      `W`. The world is arbitrary, so any behaviour of models, policies, humans
      and tools is some environment. `schedule` orders the concurrent work of a
      batch of that many items. `strip` is the archival PII strip, `mask` the
      per-message strip of a request and `unmask` its inverse on a reply. */
  datatype Env<!W> = Env(
    chat: (W, seq<Message>) -> (Reply, W),
    verify: (W, string) -> (Option<string>, W),
    judge: (W, ToolCall) -> (Verdict, W),
    approve: (W, ToolCall) -> (bool, W),
    execute: (W, ToolCall) -> (ToolResult, W),
    schedule: (W, nat) -> seq<nat>,
    strip: string -> string,
    mask: (nat, string) -> string,
    unmask: (string, seq<Message>) -> string,
    words: Wording)

  /** What happens during a run, in order. */
  datatype Event =
    | Trimmed(tools: nat)                          // tool messages dropped by trimming
    | ChatRequested(messages: seq<Message>)
    | CallRequested(call: ToolCall)
    | Judged(call: ToolCall, verdict: Verdict)
    | HumanAnswered(call: ToolCall, approved: bool)
    | GateDecided(call: ToolCall, decision: Decision)
    | BlockAnswered(result: ToolResult)            // a blocked call got its tool message
    | Attempted(call: ToolCall)                    // one run of an executor
    | StepFinished(result: ToolResult)             // a skill step ran
    | Answered(result: ToolResult)                 // a result got its tool message
    | ShortcutTaken(result: ToolResult)            // a result of a one-shot batch
    | Nudged(nudge: Nudge)
    | Audited(executedCalls: nat, inContext: nat)

  // ---- The core: lookup, ceiling, policy -----------------------------------

  datatype Core = Stopped(decision: Decision) | Passed(escalate: bool, tier: Tier)

  datatype Checked<W> = Checked(core: Core, w: W, events: seq<Event>)

  function GateCheck<W>(a: Agent, env: Env<W>, w: W, call: ToolCall): Checked<W> {
    if call.name !in a.tools then Checked(Stopped(UnknownTool), w, [])
    else if !a.tools[call.name].AtMost(a.ceiling) then Checked(Stopped(TrustBlocked), w, [])
    else
      var (verdict, w1) := env.judge(w, call);
      Checked(if verdict.Deny? then Stopped(PolicyDenied)
              else Passed(verdict.Escalate?, a.tools[call.name]),
              w1, [Judged(call, verdict)])
  }

  // ---- The live chain ------------------------------------------------------

  datatype Gated<W> = Gated(decision: Decision, w: W, events: seq<Event>)

  predicate AsksHuman(a: Agent, escalate: bool, tier: Tier) {
    escalate || a.threshold.AtMost(tier)
  }

  function GateCall<W>(a: Agent, env: Env<W>, w: W, call: ToolCall): Gated<W> {
    var check := GateCheck(a, env, w, call);
    match check.core
    case Stopped(decision) => Gated(decision, check.w, check.events)
    case Passed(escalate, tier) =>
      if AsksHuman(a, escalate, tier) then
        var (approved, w1) := env.approve(check.w, call);
        Gated(if approved then Allowed else ApprovalDenied, w1,
              check.events + [HumanAnswered(call, approved)])
      else
        Gated(Allowed, check.w, check.events)
  }

  /** Answering a blocked call: a failed result under the call's own id. */
  function BlockedResult(words: Wording, call: ToolCall, decision: Decision): ToolResult {
    ToolResult(call.id, call.name, false, words.blocked(decision, call), "")
  }

  // ---- The dry run ---------------------------------------------------------

  datatype DryRun = DryRun(decision: Decision, wouldBlock: bool, approvalRequired: bool)

  /** The same core without executing or asking; approval is predicted with the
      fixed `ExternalEffector` threshold. */
  function DryRunGate<W>(a: Agent, env: Env<W>, w: W, call: ToolCall): DryRun {
    match GateCheck(a, env, w, call).core
    case Stopped(decision) => DryRun(decision, true, false)
    case Passed(escalate, tier) =>
      DryRun(Allowed, false, escalate || ExternalEffector.AtMost(tier))
  }

  predicate LiveAsks<W>(a: Agent, env: Env<W>, w: W, call: ToolCall) {
    exists e :: e in GateCall(a, env, w, call).events && e.HumanAnswered?
  }

  /** The dry run foresees every block no human is asked about, and predicts the
      human's question except for a call between the two thresholds. */
  lemma DryRunPredictsLive<W>(a: Agent, env: Env<W>, w: W, call: ToolCall)
    ensures var dry := DryRunGate(a, env, w, call);
            var live := GateCall(a, env, w, call);
            && (dry.wouldBlock <==> live.decision !in {Allowed, ApprovalDenied})
            && (dry.wouldBlock ==> dry.decision == live.decision)
            && (dry.approvalRequired == LiveAsks(a, env, w, call) <==>
                dry.wouldBlock
                || GateCheck(a, env, w, call).core.escalate
                || (ExternalEffector.AtMost(a.tools[call.name]) <==> a.threshold.AtMost(a.tools[call.name])))
  {
    var live := GateCall(a, env, w, call);
    var check := GateCheck(a, env, w, call);
    assert forall e | e in check.events :: e.Judged?;
    if check.core.Passed? && AsksHuman(a, check.core.escalate, check.core.tier) {
      assert live.events[|live.events| - 1].HumanAnswered?;
    }
  }

  ghost predicate DryRunAgrees<W>(a: Agent, env: Env<W>, w: W, call: ToolCall) {
    DryRunGate(a, env, w, call).approvalRequired == LiveAsks(a, env, w, call)
  }

  /** Take any call and whatever its policy verdict is. Every agent with the
      given threshold foresees the human's question rightly exactly when the
      threshold is the fixed one or the verdict leaves the tier no say. */
  lemma DryRunThreshold<W>(threshold: Tier, env: Env<W>, w: W, call: ToolCall)
    ensures (forall a: Agent | a.threshold == threshold :: DryRunAgrees(a, env, w, call))
            <==> threshold == ExternalEffector || !env.judge(w, call).0.Allow?
  {
    forall a: Agent | a.threshold == threshold
      ensures threshold == ExternalEffector || !env.judge(w, call).0.Allow? ==> DryRunAgrees(a, env, w, call)
    {
      DryRunPredictsLive(a, env, w, call);
    }
    if threshold != ExternalEffector && env.judge(w, call).0.Allow? {
      var tier := if threshold.Rank() < 3 then threshold else ExternalEffector;
      var a := Agent(map[call.name := tier], SystemControl, threshold, 0, map[], NoPolicy);
      DryRunPredictsLive(a, env, w, call);
      assert !DryRunAgrees(a, env, w, call);
    }
  }

  // ---- What an allowed call has behind it ----------------------------------

  /** Position `j` of a trace lets `call` run: the call was registered, within
      the ceiling, judged and not denied, and a human said yes right after the
      verdict when the policy escalated or the tier reached the threshold. */
  ghost predicate AllowsAt(a: Agent, trace: seq<Event>, j: int, call: ToolCall) {
    && 0 < j < |trace|
    && trace[j] == GateDecided(call, Allowed)
    && call.name in a.tools
    && a.tools[call.name].AtMost(a.ceiling)
    && (if a.threshold.AtMost(a.tools[call.name]) || !trace[j - 1].Judged? then
          j >= 2 && trace[j - 1] == HumanAnswered(call, true)
          && trace[j - 2].Judged? && trace[j - 2].call == call && !trace[j - 2].verdict.Deny?
        else
          trace[j - 1] == Judged(call, Allow))
  }

  ghost predicate AllowedIn(a: Agent, trace: seq<Event>, call: ToolCall) {
    exists j :: AllowsAt(a, trace, j, call)
  }

  /** A trace in which every executor run is preceded by a gate pass of the
      very call it runs. */
  ghost predicate GateSafe(a: Agent, trace: seq<Event>) {
    forall i | 0 <= i < |trace| :: trace[i].Attempted? ==> AllowedIn(a, trace[..i], trace[i].call)
  }

  /** The gate passes a call exactly when it is registered, within the ceiling,
      not denied, and approved by a human if one has to be asked; its events end
      in the evidence that `AllowsAt` looks for. */
  lemma GateCallExact<W>(a: Agent, env: Env<W>, w: W, call: ToolCall)
    ensures var g := GateCall(a, env, w, call);
            g.decision == Allowed <==>
              && call.name in a.tools
              && a.tools[call.name].AtMost(a.ceiling)
              && var (verdict, w1) := env.judge(w, call);
                 && !verdict.Deny?
                 && (verdict.Escalate? || a.threshold.AtMost(a.tools[call.name]) ==> env.approve(w1, call).0)
    ensures var g := GateCall(a, env, w, call);
            g.decision == Allowed ==>
              forall before: seq<Event> ::
                AllowsAt(a, before + g.events + [GateDecided(call, Allowed)], |before + g.events|, call)
  {
    var g := GateCall(a, env, w, call);
    if g.decision == Allowed {
      var (verdict, w1) := env.judge(w, call);
      forall before: seq<Event>
        ensures AllowsAt(a, before + g.events + [GateDecided(call, Allowed)], |before + g.events|, call)
      {
        var trace := before + g.events + [GateDecided(call, Allowed)];
        var j := |before + g.events|;
        if AsksHuman(a, verdict.Escalate?, a.tools[call.name]) {
          assert g.events == [Judged(call, verdict), HumanAnswered(call, true)];
          assert trace[j - 1] == HumanAnswered(call, true) && trace[j - 2] == Judged(call, verdict);
        } else {
          assert g.events == [Judged(call, verdict)];
          assert trace[j - 1] == Judged(call, verdict);
        }
      }
    }
  }

  lemma TiersInOrder(x: Tier, y: Tier)
    ensures var order := [Observational, Network, LocalMutating, ExternalEffector, SystemControl];
            x.AtMost(y) <==> exists i, j :: 0 <= i <= j < 5 && order[i] == x && order[j] == y
  {
    var order := [Observational, Network, LocalMutating, ExternalEffector, SystemControl];
    assert order[x.Rank()] == x && order[y.Rank()] == y;
  }

  /** The whole chain: the policy judges registered calls within the ceiling and
      no others, a human is asked about the calls it escalates and those of a tier
      at the threshold or above, unless it denied them, and the first objection is
      the decision. */
  lemma GateDecidesExactly<W>(a: Agent, env: Env<W>, w: W, call: ToolCall)
    ensures var g := GateCall(a, env, w, call);
            var (verdict, w1) := env.judge(w, call);
            var (yes, w2) := env.approve(w1, call);
            var known := call.name in a.tools;
            var judged := known && a.tools[call.name].AtMost(a.ceiling);
            var asked := judged && !verdict.Deny? && (verdict.Escalate? || a.threshold.AtMost(a.tools[call.name]));
            && (g.decision == UnknownTool <==> !known)
            && (g.decision == TrustBlocked <==> known && !judged)
            && (g.decision == PolicyDenied <==> judged && verdict.Deny?)
            && (g.decision == ApprovalDenied <==> asked && !yes)
            && g.events == (if !judged then [] else if !asked then [Judged(call, verdict)]
                            else [Judged(call, verdict), HumanAnswered(call, yes)])
            && g.w == (if !judged then w else if !asked then w1 else w2)
  {
  }

  lemma AllowsStable(a: Agent, trace: seq<Event>, more: seq<Event>, call: ToolCall)
    requires AllowedIn(a, trace, call)
    ensures AllowedIn(a, trace + more, call)
  {
    var j :| AllowsAt(a, trace, j, call);
    assert AllowsAt(a, trace + more, j, call);
  }

  lemma AllowsShift(a: Agent, before: seq<Event>, trace: seq<Event>, call: ToolCall)
    requires AllowedIn(a, trace, call)
    ensures AllowedIn(a, before + trace, call)
  {
    var j :| AllowsAt(a, trace, j, call);
    assert (before + trace)[|before| + j] == trace[j];
    assert AllowsAt(a, before + trace, |before| + j, call);
  }

  lemma GateSafeAppend(a: Agent, x: seq<Event>, y: seq<Event>)
    requires GateSafe(a, x)
    requires forall i | 0 <= i < |y| :: y[i].Attempted? ==> AllowedIn(a, x + y[..i], y[i].call)
    ensures GateSafe(a, x + y)
  {
    var z := x + y;
    forall i | 0 <= i < |z| && z[i].Attempted?
      ensures AllowedIn(a, z[..i], z[i].call)
    {
      if i < |x| {
        assert z[..i] == x[..i];
      } else {
        assert z[..i] == x + y[..i - |x|];
      }
    }
  }

  lemma GateSafeConcat(a: Agent, x: seq<Event>, y: seq<Event>)
    requires GateSafe(a, x) && GateSafe(a, y)
    ensures GateSafe(a, x + y)
  {
    forall i | 0 <= i < |y| && y[i].Attempted?
      ensures AllowedIn(a, x + y[..i], y[i].call)
    {
      AllowsShift(a, x, y[..i], y[i].call);
    }
    GateSafeAppend(a, x, y);
  }

  lemma GateSafePrefix(a: Agent, x: seq<Event>, n: nat)
    requires GateSafe(a, x) && n <= |x|
    ensures GateSafe(a, x[..n])
  {
    forall i | 0 <= i < n && x[..n][i].Attempted?
      ensures AllowedIn(a, x[..n][..i], x[..n][i].call)
    {
      assert x[..n][..i] == x[..i];
    }
  }
}
