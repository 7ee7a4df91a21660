/** One swarm: the budget, the ordinal table, the reports and the replay cache
    that all generations of `spawn_agent` tools share.

    A call of the tool is a thread that runs one critical section at a time, so
    calls of every generation interleave in any order. */
module Swarm {
  import opened Wrappers
  import opened Text

  datatype Child = Child(parent: string, callId: string, ordinal: nat)
  {
    function Id(): string {
      parent + "." + Decimal(ordinal)
    }
  }

  /** How a child's run ended. */
  datatype Outcome = Outcome(complete: bool, toolCalls: nat, answer: Option<string>)

  datatype Summary = Summary(child: Child, outcome: Outcome)

  datatype Refusal = EmptyTask | Exhausted(max: nat)

  /** A run child is a success for the loop, whatever its outcome. */
  datatype SpawnResult = Refused(callId: string, refusal: Refusal) | Ran(callId: string, summary: Summary)

  datatype Phase =
    | Entered
    | Reserved
    | Running(child: Child)
    | Reporting(summary: Summary)
    | Finished(result: SpawnResult)

  /** One call of the tool instance that belongs to `parent`. */
  datatype Call = Call(parent: string, callId: string, phase: Phase)

  type Key = (string, string)

  /** `started` are the children announced as spawned, in order. */
  datatype State = State(budget: nat, counts: map<string, nat>, started: seq<Child>, reports: seq<Summary>,
                         done: map<Key, SpawnResult>, calls: seq<Call>)

  /** A call arrives at a tool, or a call in flight runs its next section. */
  datatype Move = Arrive(parent: string, callId: string, task: string) | Proceed(i: nat, outcome: Outcome)

  function Ids(children: seq<Child>): set<string> {
    set c | c in children :: c.Id()
  }

  predicate Known(root: string, s: State, parent: string) {
    parent == root || parent in Ids(s.started)
  }

  function CountOf(counts: map<string, nat>, parent: string): nat {
    if parent in counts then counts[parent] else 0
  }

  function Step(root: string, max: nat, s: State, move: Move): State {
    match move
    case Arrive(parent, callId, task) =>
      if !Known(root, s, parent) then s
      else
        var phase :=
          if (parent, callId) in s.done then Finished(s.done[(parent, callId)])
          else if Trim(task) == "" then Finished(Refused(callId, EmptyTask))
          else Entered;
        s.(calls := s.calls + [Call(parent, callId, phase)])
    case Proceed(i, outcome) =>
      if i >= |s.calls| then s else ProceedStep(max, s, i, outcome)
  }

  function ProceedStep(max: nat, s: State, i: nat, outcome: Outcome): State
    requires i < |s.calls|
  {
    var call := s.calls[i];
    match call.phase
    case Entered =>
      if s.budget == 0 then s.(calls := s.calls[i := call.(phase := Finished(Refused(call.callId, Exhausted(max))))])
      else s.(budget := s.budget - 1, calls := s.calls[i := call.(phase := Reserved)])
    case Reserved =>
      var n := CountOf(s.counts, call.parent) + 1;
      var child := Child(call.parent, call.callId, n);
      s.(counts := s.counts[call.parent := n], started := s.started + [child],
         calls := s.calls[i := call.(phase := Running(child))])
    case Running(child) =>
      var summary := Summary(child, outcome);
      s.(reports := s.reports + [summary], calls := s.calls[i := call.(phase := Reporting(summary))])
    case Reporting(summary) =>
      var result := Ran(call.callId, summary);
      s.(done := s.done[(call.parent, call.callId) := result],
         calls := s.calls[i := call.(phase := Finished(result))])
    case Finished(_) => s
  }

  function Steps(root: string, max: nat, s: State, moves: seq<Move>): State
    decreases |moves|
  {
    if moves == [] then s else Steps(root, max, Step(root, max, s, moves[0]), moves[1..])
  }

  function Fresh(max: nat): State {
    State(max, map[], [], [], map[], [])
  }

  /** The shared cells of a swarm, as the tool's `execute` updates them. */
  class SpawnTools {
    const root: string
    const max: nat
    var budget: nat
    var counts: map<string, nat>
    var started: seq<Child>
    var reports: seq<Summary>
    var done: map<Key, SpawnResult>
    var calls: seq<Call>

    function View(): State
      reads this
    {
      State(budget, counts, started, reports, done, calls)
    }

    constructor (root: string, max: nat)
      ensures this.root == root && this.max == max && View() == Fresh(max)
    {
      this.root, this.max := root, max;
      budget, counts, started, reports, done, calls := max, map[], [], [], map[], [];
    }

    method Arrive(parent: string, callId: string, task: string)
      modifies this
      ensures View() == Step(root, max, old(View()), Move.Arrive(parent, callId, task))
    {
      if !Known(root, View(), parent) {
        return;
      }
      var phase := Entered;
      if (parent, callId) in done {
        phase := Finished(done[(parent, callId)]);
      } else if Trim(task) == "" {
        phase := Finished(Refused(callId, EmptyTask));
      }
      calls := calls + [Call(parent, callId, phase)];
    }

    method Proceed(i: nat, outcome: Outcome)
      modifies this
      ensures View() == Step(root, max, old(View()), Move.Proceed(i, outcome))
    {
      if i >= |calls| {
        return;
      }
      var call := calls[i];
      match call.phase {
        case Entered =>
          if budget == 0 {
            calls := calls[i := call.(phase := Finished(Refused(call.callId, Exhausted(max))))];
          } else {
            budget := budget - 1;
            calls := calls[i := call.(phase := Reserved)];
          }
        case Reserved =>
          var n := CountOf(counts, call.parent) + 1;
          counts := counts[call.parent := n];
          var child := Child(call.parent, call.callId, n);
          started := started + [child];
          calls := calls[i := call.(phase := Running(child))];
        case Running(child) =>
          var summary := Summary(child, outcome);
          reports := reports + [summary];
          calls := calls[i := call.(phase := Reporting(summary))];
        case Reporting(summary) =>
          var result := Ran(call.callId, summary);
          done := done[(call.parent, call.callId) := result];
          calls := calls[i := call.(phase := Finished(result))];
        case Finished(_) =>
      }
    }
  }

  // ---- Counting calls in flight --------------------------------------------

  function ReservedOne(call: Call): nat {
    if call.phase.Reserved? then 1 else 0
  }

  function ReservedIn(calls: seq<Call>): nat {
    if calls == [] then 0 else ReservedOne(calls[0]) + ReservedIn(calls[1..])
  }

  function RunningOne(call: Call): multiset<Child> {
    if call.phase.Running? then multiset{call.phase.child} else multiset{}
  }

  function RunningIn(calls: seq<Call>): multiset<Child> {
    if calls == [] then multiset{} else RunningOne(calls[0]) + RunningIn(calls[1..])
  }

  lemma {:induction false} Replace(calls: seq<Call>, i: nat, call: Call)
    requires i < |calls|
    ensures ReservedIn(calls[i := call]) + ReservedOne(calls[i]) == ReservedIn(calls) + ReservedOne(call)
    ensures RunningIn(calls[i := call]) + RunningOne(calls[i]) == RunningIn(calls) + RunningOne(call)
  {
    var after := calls[i := call];
    if i == 0 {
      assert after[1..] == calls[1..];
    } else {
      Replace(calls[1..], i - 1, call);
      assert after[1..] == calls[1..][i - 1 := call];
      SameSum(RunningOne(calls[0]), RunningIn(after[1..]), RunningOne(calls[i]), RunningIn(calls[1..]),
              RunningOne(call));
    }
  }

  lemma SameSum<T>(a: multiset<T>, x: multiset<T>, p: multiset<T>, y: multiset<T>, q: multiset<T>)
    requires x + p == y + q
    ensures a + x + p == a + y + q
  {
    assert a + x + p == a + (x + p);
  }

  lemma {:induction false} Extend(calls: seq<Call>, call: Call)
    ensures ReservedIn(calls + [call]) == ReservedIn(calls) + ReservedOne(call)
    ensures RunningIn(calls + [call]) == RunningIn(calls) + RunningOne(call)
  {
    if calls == [] {
      assert [] + [call] == [call];
    } else {
      Extend(calls[1..], call);
      assert (calls + [call])[1..] == calls[1..] + [call];
    }
  }

  // ---- Ordinals ------------------------------------------------------------

  function ChildrenOf(children: seq<Child>, parent: string): nat {
    if children == [] then 0
    else ChildrenOf(children[..|children| - 1], parent) + if children[|children| - 1].parent == parent then 1 else 0
  }

  lemma ChildrenOfMore(children: seq<Child>, child: Child, parent: string)
    ensures ChildrenOf(children + [child], parent)
         == ChildrenOf(children, parent) + if child.parent == parent then 1 else 0
  {
    assert (children + [child])[..|children|] == children;
  }

  lemma {:induction false} ChildrenOfGrows(children: seq<Child>, i: nat, j: nat, parent: string)
    requires i <= j <= |children|
    ensures ChildrenOf(children[..i], parent) <= ChildrenOf(children[..j], parent)
    decreases j - i
  {
    if i < j {
      ChildrenOfGrows(children, i, j - 1, parent);
      assert children[..j] == children[..j - 1] + [children[j - 1]];
      ChildrenOfMore(children[..j - 1], children[j - 1], parent);
    }
  }

  /** The children of each parent are numbered 1, 2, 3, ... as they start. */
  ghost predicate Numbered(children: seq<Child>) {
    forall i | 0 <= i < |children| :: children[i].ordinal == ChildrenOf(children[..i], children[i].parent) + 1
  }

  /** Every chain leads back to the root. */
  ghost predicate Rooted(root: string, children: seq<Child>) {
    forall i | 0 <= i < |children| :: children[i].parent == root || children[i].parent in Ids(children[..i])
  }

  /** Chain ids name one child: the ordinal has no dot in it, so the id splits
      at its last dot only. */
  lemma {:induction false} IdInjective(x: Child, y: Child)
    requires x.Id() == y.Id()
    ensures x.parent == y.parent && x.ordinal == y.ordinal
  {
    DecimalRoundTrip(x.ordinal);
    DecimalRoundTrip(y.ordinal);
    LastDot(x.parent, Decimal(x.ordinal), y.parent, Decimal(y.ordinal));
    DecimalInjective(x.ordinal, y.ordinal);
  }

  lemma LastDot(p: string, d: string, p': string, d': string)
    requires p + "." + d == p' + "." + d'
    requires '.' !in d && '.' !in d'
    ensures p == p' && d == d'
  {
    var s, s' := p + "." + d, p' + "." + d';
    assert s[|p|] == '.' && s'[|p'|] == '.';
    assert forall k | |p| < k < |s| :: s[k] == d[k - |p| - 1];
    assert forall k | |p'| < k < |s'| :: s'[k] == d'[k - |p'| - 1];
    assert s[..|p|] == p && s'[..|p'|] == p';
    assert s[|p| + 1..] == d && s'[|p'| + 1..] == d';
  }

  ghost predicate DistinctIds(root: string, children: seq<Child>) {
    && (forall i, j | 0 <= i < j < |children| :: children[i].Id() != children[j].Id())
    && (forall i | 0 <= i < |children| :: children[i].Id() != root)
  }

  lemma NumberedMeansDistinct(root: string, children: seq<Child>)
    requires Numbered(children) && Rooted(root, children)
    ensures DistinctIds(root, children)
  {
    hide Child.Id, Numbered, Rooted;
    forall i, j | 0 <= i < j < |children|
      ensures children[i].Id() != children[j].Id()
    {
      LaterDiffers(children, i, j);
    }
    forall i | 0 <= i < |children|
      ensures children[i].Id() != root
    {
      LongerThanRoot(root, children, i);
    }
  }

  lemma LaterDiffers(children: seq<Child>, i: nat, j: nat)
    requires Numbered(children) && i < j < |children|
    ensures children[i].Id() != children[j].Id()
  {
    hide Child.Id, ChildrenOf;
    var x, y := children[i], children[j];
    if x.Id() == y.Id() {
      IdInjective(x, y);
      assert children[..i + 1] == children[..i] + [x];
      ChildrenOfMore(children[..i], x, x.parent);
      ChildrenOfGrows(children, i + 1, j, x.parent);
      assert false;
    }
  }

  lemma {:induction false} LongerThanRoot(root: string, children: seq<Child>, i: nat)
    requires Rooted(root, children) && i < |children|
    ensures |children[i].Id()| > |root|
  {
    var parent := children[i].parent;
    if parent != root {
      var c :| c in children[..i] && c.Id() == parent;
      var j :| 0 <= j < i && children[j] == c;
      LongerThanRoot(root, children, j);
    }
  }

  // ---- What every interleaving keeps ---------------------------------------

  function Reported(reports: seq<Summary>): (children: seq<Child>)
    ensures |children| == |reports|
  {
    seq(|reports|, i requires 0 <= i < |reports| => reports[i].child)
  }

  /** The child was started for the call with that key. */
  predicate ChildOf(child: Child, key: Key) {
    child.parent == key.0 && child.callId == key.1
  }

  /** What a call with that key may be answered: a refusal of its own, or the
      reported summary of a child that was started for it. */
  ghost predicate ResultFits(s: State, key: Key, result: SpawnResult) {
    && result.callId == key.1
    && (result.Ran? ==> ChildOf(result.summary.child, key) && result.summary in s.reports)
  }

  ghost predicate PhaseFits(s: State, key: Key, phase: Phase) {
    match phase
    case Running(child) => ChildOf(child, key) && child in s.started
    case Reporting(summary) => ChildOf(summary.child, key) && summary in s.reports
    case Finished(result) => ResultFits(s, key, result)
    case _ => true
  }

  ghost predicate CallOk(root: string, s: State, call: Call) {
    Known(root, s, call.parent) && PhaseFits(s, (call.parent, call.callId), call.phase)
  }

  ghost predicate CallsOk(root: string, s: State) {
    forall i | 0 <= i < |s.calls| :: CallOk(root, s, s.calls[i])
  }

  /** The table holds the last ordinal of every parent. */
  ghost predicate CountsOk(s: State) {
    forall p: string :: CountOf(s.counts, p) == ChildrenOf(s.started, p)
  }

  ghost predicate DoneOk(s: State) {
    forall k | k in s.done :: s.done[k].Ran? && ResultFits(s, k, s.done[k])
  }

  ghost predicate SumsOk(max: nat, s: State) {
    && s.budget + ReservedIn(s.calls) + |s.started| == max
    && multiset(s.started) == multiset(Reported(s.reports)) + RunningIn(s.calls)
  }

  ghost predicate SwarmOk(root: string, max: nat, s: State) {
    && SumsOk(max, s)
    && CountsOk(s)
    && Numbered(s.started) && Rooted(root, s.started)
    && CallsOk(root, s) && DoneOk(s)
  }

  lemma ArriveKeeps(root: string, max: nat, s: State, parent: string, callId: string, task: string)
    requires SwarmOk(root, max, s)
    ensures SwarmOk(root, max, Step(root, max, s, Arrive(parent, callId, task)))
  {
    hide CountsOk, Numbered, Rooted, ReservedIn, RunningIn, Trim, Ids;
    var s' := Step(root, max, s, Arrive(parent, callId, task));
    if Known(root, s, parent) {
      Extend(s.calls, s'.calls[|s.calls|]);
      CountsFrame(s, s');
    }
  }

  lemma CountsFrame(s: State, s': State)
    requires CountsOk(s) && s'.counts == s.counts && s'.started == s.started
    ensures CountsOk(s')
  {
  }

  /** Sections that start no child. */
  lemma QuietSectionKeeps(root: string, max: nat, s: State, i: nat, outcome: Outcome)
    requires SwarmOk(root, max, s) && i < |s.calls| && !s.calls[i].phase.Reserved?
    ensures SwarmOk(root, max, ProceedStep(max, s, i, outcome))
  {
    hide CountsOk, Numbered, Rooted, CallsOk, DoneOk, SumsOk;
    CountsFrame(s, ProceedStep(max, s, i, outcome));
    RecordsKeep(root, max, s, i, outcome);
    SumsKeep(max, s, i, outcome);
  }

  lemma SumsKeep(max: nat, s: State, i: nat, outcome: Outcome)
    requires SumsOk(max, s) && i < |s.calls| && !s.calls[i].phase.Reserved?
    ensures SumsOk(max, ProceedStep(max, s, i, outcome))
  {
    hide ReservedIn, RunningIn, Reported;
    var s' := ProceedStep(max, s, i, outcome);
    Replace(s.calls, i, s'.calls[i]);
    assert s'.calls == s.calls[i := s'.calls[i]];
    if s.calls[i].phase.Running? {
      ReportedMore(s.reports, Summary(s.calls[i].phase.child, outcome));
      assert RunningIn(s.calls) == RunningIn(s'.calls) + multiset{s.calls[i].phase.child};
    } else {
      NotRunning(RunningIn(s.calls), RunningIn(s'.calls), s.calls[i], s'.calls[i]);
    }
  }

  lemma NotRunning(x: multiset<Child>, y: multiset<Child>, call: Call, call': Call)
    requires y + RunningOne(call) == x + RunningOne(call')
    requires !call.phase.Running? && !call'.phase.Running?
    ensures x == y
  {
    assert x == x + multiset{} && y == y + multiset{};
  }

  lemma ReportedMore(reports: seq<Summary>, summary: Summary)
    ensures multiset(Reported(reports + [summary])) == multiset(Reported(reports)) + multiset{summary.child}
  {
    assert Reported(reports + [summary]) == Reported(reports) + [summary.child];
  }

  /** Reports are only added, so what calls and the cache hold stays reported. */
  lemma RecordsKeep(root: string, max: nat, s: State, i: nat, outcome: Outcome)
    requires CallsOk(root, s) && DoneOk(s) && i < |s.calls| && !s.calls[i].phase.Reserved?
    ensures CallsOk(root, ProceedStep(max, s, i, outcome)) && DoneOk(ProceedStep(max, s, i, outcome))
  {
    hide Ids;
    var s' := ProceedStep(max, s, i, outcome);
    assert CallOk(root, s, s.calls[i]);
    assert s.reports <= s'.reports;
    if s.calls[i].phase.Running? {
      assert s'.reports[|s.reports|] == s'.calls[i].phase.summary;
    }
    forall k | 0 <= k < |s'.calls|
      ensures CallOk(root, s', s'.calls[k])
    {
      assert CallOk(root, s, s.calls[k]);
    }
  }

  lemma StartKeeps(root: string, max: nat, s: State, i: nat, outcome: Outcome)
    requires SwarmOk(root, max, s) && i < |s.calls| && s.calls[i].phase.Reserved?
    ensures SwarmOk(root, max, ProceedStep(max, s, i, outcome))
  {
    hide ReservedIn, RunningIn, Ids, CallsOk, CountsOk, Rooted, Numbered;
    var s' := ProceedStep(max, s, i, outcome);
    var child := s'.calls[i].phase.child;
    Replace(s.calls, i, s'.calls[i]);
    CallsKeep(root, max, s, i, outcome);
    CountsKeep(max, s, i, outcome);
    NumberedMore(root, s, child);
    assert multiset(s'.started) == multiset(s.started) + multiset{child};
    assert RunningIn(s'.calls) == RunningIn(s.calls) + multiset{child};
  }

  lemma CallsKeep(root: string, max: nat, s: State, i: nat, outcome: Outcome)
    requires CallsOk(root, s) && i < |s.calls| && s.calls[i].phase.Reserved?
    ensures CallsOk(root, ProceedStep(max, s, i, outcome)) && Known(root, s, s.calls[i].parent)
  {
    var s' := ProceedStep(max, s, i, outcome);
    assert CallOk(root, s, s.calls[i]);
    assert Ids(s.started) <= Ids(s'.started);
    forall k | 0 <= k < |s'.calls|
      ensures CallOk(root, s', s'.calls[k])
    {
      assert CallOk(root, s, s.calls[k]);
    }
  }

  lemma CountsKeep(max: nat, s: State, i: nat, outcome: Outcome)
    requires CountsOk(s) && i < |s.calls| && s.calls[i].phase.Reserved?
    ensures CountsOk(ProceedStep(max, s, i, outcome))
    ensures CountOf(s.counts, s.calls[i].parent) == ChildrenOf(s.started, s.calls[i].parent)
  {
    var s' := ProceedStep(max, s, i, outcome);
    forall p: string
      ensures CountOf(s'.counts, p) == ChildrenOf(s'.started, p)
    {
      ChildrenOfMore(s.started, s'.calls[i].phase.child, p);
      assert CountOf(s.counts, p) == ChildrenOf(s.started, p);
    }
  }

  lemma NumberedMore(root: string, s: State, child: Child)
    requires Numbered(s.started) && Rooted(root, s.started)
    requires Known(root, s, child.parent) && child.ordinal == ChildrenOf(s.started, child.parent) + 1
    ensures Numbered(s.started + [child]) && Rooted(root, s.started + [child])
  {
    hide Ids, ChildrenOf;
    var all := s.started + [child];
    forall i | 0 <= i < |all|
      ensures all[i].ordinal == ChildrenOf(all[..i], all[i].parent) + 1
      ensures all[i].parent == root || all[i].parent in Ids(all[..i])
    {
      if i < |s.started| {
        assert all[..i] == s.started[..i];
      } else {
        assert all[..i] == s.started;
      }
    }
  }

  lemma StepKeeps(root: string, max: nat, s: State, move: Move)
    requires SwarmOk(root, max, s)
    ensures SwarmOk(root, max, Step(root, max, s, move))
  {
    match move {
      case Arrive(parent, callId, task) => ArriveKeeps(root, max, s, parent, callId, task);
      case Proceed(i, outcome) =>
        if i < |s.calls| {
          if s.calls[i].phase.Reserved? {
            StartKeeps(root, max, s, i, outcome);
          } else {
            QuietSectionKeeps(root, max, s, i, outcome);
          }
          hide *;
          assert Step(root, max, s, move) == ProceedStep(max, s, i, outcome) by { ProceedIs(root, max, s, i, outcome); }
        }
    }
  }

  lemma ProceedIs(root: string, max: nat, s: State, i: nat, outcome: Outcome)
    requires i < |s.calls|
    ensures Step(root, max, s, Proceed(i, outcome)) == ProceedStep(max, s, i, outcome)
  {
  }

  lemma {:induction false} StepsKeep(root: string, max: nat, s: State, moves: seq<Move>)
    requires SwarmOk(root, max, s)
    ensures SwarmOk(root, max, Steps(root, max, s, moves))
    decreases |moves|
  {
    hide SwarmOk, Step;
    if moves != [] {
      StepKeeps(root, max, s, moves[0]);
      StepsKeep(root, max, Step(root, max, s, moves[0]), moves[1..]);
    }
  }

  /** Conservation, for every interleaving of spawns over all generations: what
      is left of the budget, what is reserved and what ever started add up to
      the cap; the reports are exactly the children that finished, and every
      other started child is running; chain ids are distinct and none is the
      root's. */
  lemma SwarmConserves(root: string, max: nat, moves: seq<Move>)
    ensures var s := Steps(root, max, Fresh(max), moves);
            && s.budget + ReservedIn(s.calls) + |s.started| == max
            && |s.started| == |s.reports| + |RunningIn(s.calls)|
            && multiset(s.started) == multiset(Reported(s.reports)) + RunningIn(s.calls)
            && DistinctIds(root, s.started) && Numbered(s.started)
  {
    var s := Steps(root, max, Fresh(max), moves);
    FreshIsOk(root, max);
    StepsKeep(root, max, Fresh(max), moves);
    NumberedMeansDistinct(root, s.started);
    hide *;
    OkSizes(root, max, s);
  }

  lemma FreshIsOk(root: string, max: nat)
    ensures SwarmOk(root, max, Fresh(max))
  {
    assert multiset(Reported([])) == multiset{};
  }

  lemma OkSizes(root: string, max: nat, s: State)
    requires SwarmOk(root, max, s)
    ensures s.budget + ReservedIn(s.calls) + |s.started| == max
    ensures |s.started| == |s.reports| + |RunningIn(s.calls)|
    ensures multiset(s.started) == multiset(Reported(s.reports)) + RunningIn(s.calls)
    ensures Numbered(s.started)
  {
    hide CountsOk, Numbered, Rooted, CallsOk, DoneOk, ReservedIn, RunningIn;
    assert |multiset(s.started)| == |s.started|;
    assert |multiset(Reported(s.reports))| == |s.reports|;
  }

  // ---- Every call is answered with its own child ---------------------------

  /** Over every interleaving: whatever a call runs, reports or was answered with
      is a child that was started for it, and so is whatever the replay cache
      holds for its key. */
  lemma AnswersAreOwn(root: string, max: nat, moves: seq<Move>)
    ensures var s := Steps(root, max, Fresh(max), moves);
            && (forall i | 0 <= i < |s.calls| ::
                  PhaseFits(s, (s.calls[i].parent, s.calls[i].callId), s.calls[i].phase))
            && (forall key | key in s.done :: s.done[key].Ran? && ResultFits(s, key, s.done[key]))
  {
    FreshIsOk(root, max);
    StepsKeep(root, max, Fresh(max), moves);
    var s := Steps(root, max, Fresh(max), moves);
    hide Steps, SumsOk, CountsOk, Numbered, Rooted, PhaseFits, ResultFits;
    forall i | 0 <= i < |s.calls|
      ensures PhaseFits(s, (s.calls[i].parent, s.calls[i].callId), s.calls[i].phase)
    {
      assert CallOk(root, s, s.calls[i]);
    }
  }

  /** Move `j` ended the run of the child that call `i` was running, with the
      outcome in the summary. */
  ghost predicate EndedBy(root: string, max: nat, s: State, moves: seq<Move>, i: nat, j: nat, summary: Summary) {
    && j < |moves| && moves[j] == Proceed(i, summary.outcome)
    && var before := Steps(root, max, s, moves[..j]);
       i < |before.calls| && before.calls[i].phase == Running(summary.child)
  }

  ghost predicate Earned(root: string, max: nat, s: State, moves: seq<Move>, i: nat, summary: Summary)
    requires i < |s.calls|
  {
    s.calls[i].phase == Reporting(summary) || exists j: nat :: EndedBy(root, max, s, moves, i, j, summary)
  }

  lemma {:induction false} StepsMore(root: string, max: nat, s: State, moves: seq<Move>, last: Move)
    ensures Steps(root, max, s, moves + [last]) == Step(root, max, Steps(root, max, s, moves), last)
    decreases |moves|
  {
    hide Step;
    if moves == [] {
      assert [last][1..] == [] && [] + [last] == [last];
    } else {
      assert (moves + [last])[1..] == moves[1..] + [last];
      StepsMore(root, max, Step(root, max, s, moves[0]), moves[1..], last);
    }
  }

  lemma EarnedStays(root: string, max: nat, s: State, moves: seq<Move>, last: Move, i: nat, summary: Summary)
    requires i < |s.calls| && Earned(root, max, s, moves, i, summary)
    ensures Earned(root, max, s, moves + [last], i, summary)
  {
    hide Steps;
    if s.calls[i].phase != Reporting(summary) {
      var j: nat :| EndedBy(root, max, s, moves, i, j, summary);
      assert (moves + [last])[..j] == moves[..j];
      assert EndedBy(root, max, s, moves + [last], i, j, summary);
    }
  }

  /** A call in flight is answered, however the rest of the swarm goes on, with
      the child it ran itself and the outcome that run ended with, or with a
      refusal. */
  lemma {:induction false} AnsweredWithOwnRun(root: string, max: nat, s: State, moves: seq<Move>, i: nat)
    requires i < |s.calls| && !s.calls[i].phase.Finished?
    ensures var s' := Steps(root, max, s, moves);
            && i < |s'.calls|
            && (s'.calls[i].phase.Reporting? ==> Earned(root, max, s, moves, i, s'.calls[i].phase.summary))
            && (s'.calls[i].phase.Finished? && s'.calls[i].phase.result.Ran? ==>
                  Earned(root, max, s, moves, i, s'.calls[i].phase.result.summary))
    decreases |moves|
  {
    if moves != [] {
      var front, last := moves[..|moves| - 1], moves[|moves| - 1];
      assert moves == front + [last];
      AnsweredWithOwnRun(root, max, s, front, i);
      StepsMore(root, max, s, front, last);
      hide Steps, Trim, Earned;
      var mid := Steps(root, max, s, front);
      var phase := mid.calls[i].phase;
      if phase.Reporting? {
        EarnedStays(root, max, s, front, last, i, phase.summary);
      } else if phase.Finished? && phase.result.Ran? {
        EarnedStays(root, max, s, front, last, i, phase.result.summary);
      } else if phase.Running? && last.Proceed? && last.i == i {
        JustEnded(root, max, s, front, last, i);
      }
    }
  }

  lemma JustEnded(root: string, max: nat, s: State, front: seq<Move>, last: Move, i: nat)
    requires i < |s.calls| && last.Proceed? && last.i == i
    requires var mid := Steps(root, max, s, front); i < |mid.calls| && mid.calls[i].phase.Running?
    ensures var mid := Steps(root, max, s, front);
            Earned(root, max, s, front + [last], i, Summary(mid.calls[i].phase.child, last.outcome))
  {
    hide Steps;
    assert (front + [last])[..|front|] == front;
    var summary := Summary(Steps(root, max, s, front).calls[i].phase.child, last.outcome);
    assert EndedBy(root, max, s, front + [last], i, |front|, summary);
  }

  /** The four sections of a call that nothing comes between, while there is
      budget: it takes one from it, starts the next child of its parent and is
      answered, from then on too, with the outcome the third section gave. */
  lemma FourSections(root: string, max: nat, s: State, i: nat, ended: Outcome)
    requires i < |s.calls| && s.calls[i].phase.Entered? && s.budget > 0
    ensures var call := s.calls[i];
            var child := Child(call.parent, call.callId, CountOf(s.counts, call.parent) + 1);
            var result := Ran(call.callId, Summary(child, ended));
            var s1 := Step(root, max, Step(root, max, s, Proceed(i, ended)), Proceed(i, ended));
            var s2 := Step(root, max, Step(root, max, s1, Proceed(i, ended)), Proceed(i, ended));
            && s1.calls[i].phase == Running(child)
            && s2 == State(s.budget - 1, s.counts[call.parent := child.ordinal], s.started + [child],
                           s.reports + [Summary(child, ended)], s.done[(call.parent, call.callId) := result],
                           s.calls[i := call.(phase := Finished(result))])
  {
    var call := s.calls[i];
    assert s.calls[i := call.(phase := Reserved)][i] == call.(phase := Reserved);
  }

  // ---- Refusals and replays ------------------------------------------------

  /** A known tool refuses exactly a new call with a blank task, and a call that
      finds the budget used up; it answers exactly the calls it has a result for
      at once; and every other call goes on with one less in the budget. */
  lemma RefusedExactly(root: string, max: nat, s: State, parent: string, callId: string, task: string, i: nat,
                       outcome: Outcome)
    requires Known(root, s, parent) && DoneOk(s) && i < |s.calls| && s.calls[i].phase.Entered?
    ensures var arrived := Step(root, max, s, Arrive(parent, callId, task)).calls[|s.calls|];
            var cached := (parent, callId) in s.done;
            && arrived.parent == parent && arrived.callId == callId
            && (arrived.phase == Finished(Refused(callId, EmptyTask)) <==> !cached && AllWhite(task))
            && (arrived.phase == Entered <==> !cached && !AllWhite(task))
            && (cached ==> arrived.phase == Finished(s.done[(parent, callId)]))
    ensures var s' := Step(root, max, s, Proceed(i, outcome));
            && (s'.calls[i].phase == Finished(Refused(s.calls[i].callId, Exhausted(max))) <==> s.budget == 0)
            && (s'.calls[i].phase == Reserved && s'.budget == s.budget - 1 <==> s.budget > 0)
  {
    hide Trim, AllWhite;
    BlankExactly(task);
  }

  /** A section that ends in a refusal moves neither the budget nor an ordinal,
      starts nothing and caches nothing. */
  lemma RefusedChangesNothing(root: string, max: nat, s: State, move: Move, i: nat)
    requires i < |Step(root, max, s, move).calls|
    requires (if i < |s.calls| then !s.calls[i].phase.Finished? else DoneOk(s))
    requires var phase := Step(root, max, s, move).calls[i].phase; phase.Finished? && phase.result.Refused?
    ensures Step(root, max, s, move).(calls := []) == s.(calls := [])
  {
    hide Trim;
  }

  /** Calls of one key that might still start a child. */
  ghost predicate Settled(s: State, key: Key) {
    && key in s.done
    && forall i | 0 <= i < |s.calls| ::
         (s.calls[i].parent, s.calls[i].callId) == key ==> s.calls[i].phase.Finished?
  }

  function StartedFor(children: seq<Child>, key: Key): nat {
    if children == [] then 0
    else StartedFor(children[..|children| - 1], key)
         + if (children[|children| - 1].parent, children[|children| - 1].callId) == key then 1 else 0
  }

  lemma StartedMore(children: seq<Child>, child: Child, key: Key)
    ensures StartedFor(children + [child], key)
            == StartedFor(children, key) + if (child.parent, child.callId) == key then 1 else 0
  {
    assert (children + [child])[..|children|] == children;
  }

  lemma SettledStep(root: string, max: nat, s: State, move: Move, key: Key)
    requires Settled(s, key)
    ensures var s' := Step(root, max, s, move);
            Settled(s', key) && s'.done[key] == s.done[key] && StartedFor(s'.started, key) == StartedFor(s.started, key)
  {
    hide Trim, StartedFor;
    if move.Proceed? && move.i < |s.calls| && s.calls[move.i].phase.Reserved? {
      var call := s.calls[move.i];
      StartedMore(s.started, Child(call.parent, call.callId, CountOf(s.counts, call.parent) + 1), key);
    }
  }

  /** Once a call has run its child and none of its copies is in flight, every
      retry of it, however the rest of the swarm goes on, gets the result of
      that one run back and starts nothing. */
  lemma {:induction false} RetryReplays(root: string, max: nat, s: State, moves: seq<Move>, key: Key, task: string)
    requires Settled(s, key) && Known(root, s, key.0)
    ensures var s' := Steps(root, max, s, moves);
            var retried := Step(root, max, s', Arrive(key.0, key.1, task));
            && StartedFor(s'.started, key) == StartedFor(s.started, key)
            && retried == s'.(calls := s'.calls + [Call(key.0, key.1, Finished(s.done[key]))])
    decreases |moves|
  {
    hide Trim, StartedFor, Ids;
    if moves != [] {
      SettledStep(root, max, s, moves[0], key);
      KnownStays(root, max, s, moves[0], key.0);
      RetryReplays(root, max, Step(root, max, s, moves[0]), moves[1..], key, task);
    } else {
      assert (key.0, key.1) == key;
    }
  }

  lemma KnownStays(root: string, max: nat, s: State, move: Move, parent: string)
    requires Known(root, s, parent)
    ensures Known(root, Step(root, max, s, move), parent)
  {
    hide Trim;
    assert Ids(s.started) <= Ids(Step(root, max, s, move).started);
  }
}
