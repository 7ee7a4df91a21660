/** Running tool calls: one call with its retries, and the ready items of a batch
    concurrently.

    The calls of a batch run as futures that are polled in any order. A poll
    either starts an attempt or finishes one; the world that the executor sees is
    the one at its finish. */
module Execution {
  import opened Messages
  import opened Gate

  const MAX_RETRIES: nat := 2

  // ---- Running one call ----------------------------------------------------

  datatype Ran<W> = Ran(result: ToolResult, w: W, events: seq<Event>)

  function ExecuteCallSpec<W>(env: Env<W>, w: W, call: ToolCall, retries: nat): Ran<W>
    decreases retries
  {
    var (result, w1) := env.execute(w, call);
    if result.success || retries == 0 then Ran(result, w1, [Attempted(call)])
    else
      var later := ExecuteCallSpec(env, w1, call, retries - 1);
      later.(events := [Attempted(call)] + later.events)
  }

  /** The world before attempt `n` of a call that is tried again and again, the
      first attempt being number 0. */
  function WorldBefore<W>(env: Env<W>, w: W, call: ToolCall, n: nat): W {
    if n == 0 then w else env.execute(WorldBefore(env, w, call, n - 1), call).1
  }

  function ResultOf<W>(env: Env<W>, w: W, call: ToolCall, n: nat): ToolResult {
    env.execute(WorldBefore(env, w, call, n), call).0
  }

  /** `ran` is what trying a call exactly `n` times leaves, and `n` is where to
      stop: at the first success, or at the last attempt there is. */
  ghost predicate RanTimes<W>(env: Env<W>, w: W, call: ToolCall, ran: Ran<W>, n: nat, most: nat) {
    && 1 <= n <= most
    && (forall k: nat | k < n - 1 :: !ResultOf(env, w, call, k).success)
    && ran.result == ResultOf(env, w, call, n - 1)
    && ran.w == WorldBefore(env, w, call, n)
    && (ran.result.success || n == most)
    && ran.events == seq(n, _ => Attempted(call))
  }

  lemma {:induction false} NextWorld<W>(env: Env<W>, w: W, call: ToolCall, n: nat)
    ensures WorldBefore(env, w, call, n + 1) == WorldBefore(env, env.execute(w, call).1, call, n)
  {
    if n > 0 {
      NextWorld(env, w, call, n - 1);
    }
  }

  lemma {:induction false} RunsUntilSuccess<W>(env: Env<W>, w: W, call: ToolCall, retries: nat) returns (n: nat)
    ensures RanTimes(env, w, call, ExecuteCallSpec(env, w, call, retries), n, retries + 1)
    decreases retries
  {
    var (result, w1) := env.execute(w, call);
    var ran := ExecuteCallSpec(env, w, call, retries);
    assert WorldBefore(env, w, call, 0) == w;
    if result.success || retries == 0 {
      n := 1;
      assert WorldBefore(env, w, call, 1) == w1;
      assert ran.events == seq(1, _ => Attempted(call));
    } else {
      var later := RunsUntilSuccess(env, w1, call, retries - 1);
      n := later + 1;
      forall k: nat
        ensures WorldBefore(env, w, call, k + 1) == WorldBefore(env, w1, call, k)
      {
        NextWorld(env, w, call, k);
      }
      assert forall k: nat :: ResultOf(env, w, call, k + 1) == ResultOf(env, w1, call, k);
      forall k: nat | k < n - 1
        ensures !ResultOf(env, w, call, k).success
      {
        if k > 0 {
          assert ResultOf(env, w, call, k) == ResultOf(env, w1, call, k - 1);
        }
      }
    }
  }

  /** One run and up to two retries: attempts go on while they fail, the first
      success or the third attempt is the result, and nothing else happens. */
  method ExecuteCall<W>(env: Env<W>, w: W, call: ToolCall) returns (ran: Ran<W>)
    ensures ran == ExecuteCallSpec(env, w, call, MAX_RETRIES)
    ensures exists n: nat :: RanTimes(env, w, call, ran, n, 3)
  {
    var (result, world) := env.execute(w, call);
    var events := [Attempted(call)];
    var retry := 0;
    while !result.success && retry < MAX_RETRIES
      invariant 0 <= retry <= MAX_RETRIES
      invariant ExecuteCallSpec(env, w, call, MAX_RETRIES) ==
                if result.success || retry == MAX_RETRIES then Ran(result, world, events)
                else var later := ExecuteCallSpec(env, world, call, MAX_RETRIES - retry - 1);
                     later.(events := events + later.events)
    {
      var (again, world1) := env.execute(world, call);
      result, world := again, world1;
      retry := retry + 1;
      events := events + [Attempted(call)];
    }
    ran := Ran(result, world, events);
    ghost var n := RunsUntilSuccess(env, w, call, MAX_RETRIES);
  }

  // ---- The ready items of a batch ------------------------------------------

  datatype ExecItem = CallItem(call: ToolCall) | SkillItem(result: ToolResult)

  /** One future: before an attempt, in the middle of one, or done. `retries` are
      those left after the attempt at hand. */
  datatype Slot =
    | Waiting(call: ToolCall, retries: nat)
    | Trying(call: ToolCall, retries: nat)
    | Finished(result: ToolResult)

  datatype Pool<W> = Pool(slots: seq<Slot>, w: W, events: seq<Event>)

  datatype Results<W> = Results(results: seq<ToolResult>, w: W, events: seq<Event>)

  /** A skill's result is in hand already. */
  function SlotOf(item: ExecItem): Slot {
    match item
    case CallItem(call) => Waiting(call, MAX_RETRIES)
    case SkillItem(result) => Finished(result)
  }

  function SlotsOf(items: seq<ExecItem>): (slots: seq<Slot>)
    ensures |slots| == |items|
  {
    seq(|items|, i requires 0 <= i < |items| => SlotOf(items[i]))
  }

  function Poll<W>(env: Env<W>, p: Pool<W>, k: nat): (p': Pool<W>)
    ensures |p'.slots| == |p.slots|
  {
    if k >= |p.slots| then p
    else
      match p.slots[k]
      case Waiting(call, retries) =>
        Pool(p.slots[k := Trying(call, retries)], p.w, p.events + [Attempted(call)])
      case Trying(call, retries) =>
        var (result, w) := env.execute(p.w, call);
        var slot := if result.success || retries == 0 then Finished(result) else Waiting(call, retries - 1);
        p.(slots := p.slots[k := slot], w := w)
      case Finished(_) => p
  }

  function PollAll<W>(env: Env<W>, p: Pool<W>, order: seq<nat>): (p': Pool<W>)
    ensures |p'.slots| == |p.slots|
    decreases |order|
  {
    if order == [] then p else PollAll(env, Poll(env, p, order[0]), order[1..])
  }

  // ---- Everything finishes -------------------------------------------------

  /** How many polls a future can need. */
  function Left(slot: Slot): nat {
    match slot
    case Waiting(_, retries) => 2 * retries + 2
    case Trying(_, retries) => 2 * retries + 1
    case Finished(_) => 0
  }

  /** Enough polls for each of `n` items: one start and one finish per attempt. */
  function Rest(n: nat): seq<nat> {
    if n == 0 then [] else Rest(n - 1) + [n - 1, n - 1, n - 1, n - 1, n - 1, n - 1]
  }

  /** The order of a batch: what the environment schedules, and then whatever is
      left, so a complete schedule is followed as it is. */
  function Order<W>(env: Env<W>, w: W, n: nat): seq<nat> {
    env.schedule(w, n) + Rest(n)
  }

  function PollsOf(order: seq<nat>, k: nat): nat {
    if order == [] then 0 else (if order[0] == k then 1 else 0) + PollsOf(order[1..], k)
  }

  lemma {:induction false} PollsAppend(x: seq<nat>, y: seq<nat>, k: nat)
    ensures PollsOf(x + y, k) == PollsOf(x, k) + PollsOf(y, k)
  {
    if x == [] {
      assert x + y == y;
    } else {
      assert (x + y)[1..] == x[1..] + y;
      PollsAppend(x[1..], y, k);
    }
  }

  lemma {:induction false} RestIsEnough(n: nat, k: nat)
    requires k < n
    ensures PollsOf(Rest(n), k) >= 2 * MAX_RETRIES + 2
  {
    var last := [n - 1, n - 1, n - 1, n - 1, n - 1, n - 1];
    PollsAppend(Rest(n - 1), last, k);
    if k < n - 1 {
      RestIsEnough(n - 1, k);
    } else {
      SixPolls(k);
    }
  }

  lemma SixPolls(k: nat)
    ensures PollsOf([k, k, k, k, k, k], k) == 6
  {
    assert [k][1..] == [];
    PollsAppend([k], [k], k);
    PollsAppend([k, k], [k, k], k);
    PollsAppend([k, k, k, k], [k, k], k);
    assert [k] + [k] == [k, k] && [k, k] + [k, k] == [k, k, k, k] && [k, k, k, k] + [k, k] == [k, k, k, k, k, k];
  }

  lemma {:induction false} PollsSuffice<W>(env: Env<W>, p: Pool<W>, order: seq<nat>, k: nat)
    requires k < |p.slots| && PollsOf(order, k) >= Left(p.slots[k])
    ensures PollAll(env, p, order).slots[k].Finished?
    decreases |order|
  {
    if order != [] {
      PollsSuffice(env, Poll(env, p, order[0]), order[1..], k);
    }
  }

  predicate AllFinished(slots: seq<Slot>) {
    forall i | 0 <= i < |slots| :: slots[i].Finished?
  }

  /** The batch ends with every item finished, whatever the schedule. */
  lemma EverythingFinishes<W>(env: Env<W>, w: W, items: seq<ExecItem>)
    ensures AllFinished(PollAll(env, Pool(SlotsOf(items), w, []), Order(env, w, |items|)).slots)
  {
    hide PollAll, Rest, PollsOf;
    var p := Pool(SlotsOf(items), w, []);
    forall k | 0 <= k < |items|
      ensures PollAll(env, p, Order(env, w, |items|)).slots[k].Finished?
    {
      PollsAppend(env.schedule(w, |items|), Rest(|items|), k);
      RestIsEnough(|items|, k);
      PollsSuffice(env, p, Order(env, w, |items|), k);
    }
  }

  // ---- What the polls did --------------------------------------------------

  /** An attempt for the item at a position began, or finished with a result. */
  datatype Act = Began(item: nat, call: ToolCall) | Done(item: nat, call: ToolCall, result: ToolResult)

  /** Finishing attempts, in this order, is what leads from one world to the
      other, and gave the results it says. */
  ghost predicate Plays<W>(env: Env<W>, w: W, acts: seq<Act>, w': W) {
    if acts == [] then w' == w
    else
      match acts[0]
      case Began(_, _) => Plays(env, w, acts[1..], w')
      case Done(_, call, result) =>
        var (r, w1) := env.execute(w, call);
        r == result && Plays(env, w1, acts[1..], w')
  }

  function EventsOf(acts: seq<Act>): seq<Event> {
    if acts == [] then []
    else
      var last := acts[|acts| - 1];
      EventsOf(acts[..|acts| - 1]) + if last.Began? then [Attempted(last.call)] else []
  }

  function ActsOf(acts: seq<Act>, k: nat): seq<Act> {
    if acts == [] then []
    else
      var last := acts[|acts| - 1];
      ActsOf(acts[..|acts| - 1], k) + if last.item == k then [last] else []
  }

  /** Attempts of one call, one after the other: each but the last one failed
      before the next began, and there are at most three. */
  ghost predicate Tries(k: nat, call: ToolCall, acts: seq<Act>) {
    && |acts| <= 6
    && forall i | 0 <= i < |acts| ::
         if i % 2 == 0 then acts[i] == Began(k, call)
         else acts[i].Done? && acts[i].call == call && (i + 1 < |acts| ==> !acts[i].result.success)
  }

  /** The last attempt succeeded, or was the third. */
  ghost predicate Settled(acts: seq<Act>) {
    acts != [] && acts[|acts| - 1].Done? && (acts[|acts| - 1].result.success || |acts| == 6)
  }

  ghost predicate SlotFits(item: ExecItem, slot: Slot, k: nat, mine: seq<Act>) {
    match item
    case SkillItem(result) => slot == Finished(result) && mine == []
    case CallItem(call) =>
      && Tries(k, call, mine)
      && slot == (if Settled(mine) then Finished(mine[|mine| - 1].result)
                  else if |mine| % 2 == 0 then Waiting(call, 2 - |mine| / 2) else Trying(call, 2 - |mine| / 2))
  }

  ghost predicate PoolFits<W>(env: Env<W>, w: W, items: seq<ExecItem>, p: Pool<W>, acts: seq<Act>) {
    && Plays(env, w, acts, p.w)
    && p.events == EventsOf(acts)
    && SlotsFit(items, p.slots, acts)
    && InRange(acts, |items|)
  }

  ghost predicate InRange(acts: seq<Act>, n: nat) {
    forall act | act in acts :: act.item < n
  }

  lemma InRangeMore(acts: seq<Act>, act: Act, n: nat)
    requires InRange(acts, n) && act.item < n
    ensures InRange(acts + [act], n)
  {
  }

  ghost predicate SlotsFit(items: seq<ExecItem>, slots: seq<Slot>, acts: seq<Act>) {
    |slots| == |items| && forall k: nat | k < |items| :: SlotFits(items[k], slots[k], k, ActsOf(acts, k))
  }

  lemma OneMoreAct<W>(env: Env<W>, w: W, acts: seq<Act>, mid: W, act: Act, w': W)
    requires Plays(env, w, acts, mid) && Plays(env, mid, [act], w')
    ensures Plays(env, w, acts + [act], w')
    ensures EventsOf(acts + [act]) == EventsOf(acts) + if act.Began? then [Attempted(act.call)] else []
    ensures forall k: nat :: ActsOf(acts + [act], k) == ActsOf(acts, k) + if act.item == k then [act] else []
  {
    hide Plays;
    PlaysMore(env, w, acts, mid, act, w');
    assert (acts + [act])[..|acts|] == acts;
  }

  lemma {:induction false} PlaysMore<W>(env: Env<W>, w: W, acts: seq<Act>, mid: W, act: Act, w': W)
    requires Plays(env, w, acts, mid) && Plays(env, mid, [act], w')
    ensures Plays(env, w, acts + [act], w')
    decreases |acts|
  {
    if acts == [] {
      assert acts + [act] == [act];
    } else {
      assert (acts + [act])[1..] == acts[1..] + [act];
      PlaysMore(env, if acts[0].Done? then env.execute(w, acts[0].call).1 else w, acts[1..], mid, act, w');
    }
  }

  lemma PollPlays<W>(env: Env<W>, w: W, items: seq<ExecItem>, p: Pool<W>, acts: seq<Act>, k: nat)
    returns (acts': seq<Act>)
    requires PoolFits(env, w, items, p, acts)
    ensures PoolFits(env, w, items, Poll(env, p, k), acts')
  {
    acts' := acts;
    if k < |p.slots| && !p.slots[k].Finished? {
      hide Plays, EventsOf, ActsOf, SlotsFit, InRange;
      SlotsAreItems(items, p.slots, acts);
      var call := p.slots[k].call;
      var act := if p.slots[k].Waiting? then Began(k, call) else Done(k, call, env.execute(p.w, call).0);
      var p' := Poll(env, p, k);
      OneActPlays(env, p.w, act, p'.w);
      OneMoreAct(env, w, acts, p.w, act, p'.w);
      NextActFits(items, p.slots, k, acts, act, p'.slots[k]);
      InRangeMore(acts, act, |items|);
      acts' := acts + [act];
    }
  }

  lemma SlotsAreItems(items: seq<ExecItem>, slots: seq<Slot>, acts: seq<Act>)
    requires SlotsFit(items, slots, acts)
    ensures |slots| == |items|
  {
  }

  lemma NextActFits(items: seq<ExecItem>, slots: seq<Slot>, k: nat, acts: seq<Act>, act: Act, slot': Slot)
    requires SlotsFit(items, slots, acts) && k < |slots| && act.item == k
    requires forall j: nat :: ActsOf(acts + [act], j) == ActsOf(acts, j) + if act.item == j then [act] else []
    requires match slots[k]
             case Waiting(call, retries) => act == Began(k, call) && slot' == Trying(call, retries)
             case Trying(call, retries) =>
               && act.Done? && act.call == call
               && slot' == if act.result.success || retries == 0 then Finished(act.result)
                           else Waiting(call, retries - 1)
             case Finished(_) => false
    ensures SlotsFit(items, slots[k := slot'], acts + [act])
  {
    hide ActsOf, SlotFits;
    assert SlotFits(items[k], slots[k], k, ActsOf(acts, k));
    OneSlotFits(items[k], slots[k], k, ActsOf(acts, k), act, slot');
    forall j: nat | j < |items|
      ensures SlotFits(items[j], slots[k := slot'][j], j, ActsOf(acts + [act], j))
    {
      assert SlotFits(items[j], slots[j], j, ActsOf(acts, j));
      assert ActsOf(acts, j) + [] == ActsOf(acts, j);
    }
  }

  lemma OneSlotFits(item: ExecItem, slot: Slot, k: nat, mine: seq<Act>, act: Act, slot': Slot)
    requires SlotFits(item, slot, k, mine) && !slot.Finished?
    requires slot.Waiting? ==> act == Began(k, slot.call) && slot' == Trying(slot.call, slot.retries)
    requires slot.Trying? ==>
               && act.Done? && act.item == k && act.call == slot.call
               && slot' == if act.result.success || slot.retries == 0 then Finished(act.result)
                           else Waiting(slot.call, slot.retries - 1)
    ensures SlotFits(item, slot', k, mine + [act])
  {
    var more := mine + [act];
    assert more[..|mine|] == mine && more[|mine|] == act;
  }

  lemma OneActPlays<W>(env: Env<W>, w: W, act: Act, w': W)
    requires act.Done? ==> env.execute(w, act.call) == (act.result, w')
    requires act.Began? ==> w' == w
    ensures Plays(env, w, [act], w')
  {
    assert [act][1..] == [];
  }

  lemma {:induction false} PollsPlay<W>(env: Env<W>, w: W, items: seq<ExecItem>, p: Pool<W>, acts: seq<Act>,
                                        order: seq<nat>)
    returns (acts': seq<Act>)
    requires PoolFits(env, w, items, p, acts)
    ensures PoolFits(env, w, items, PollAll(env, p, order), acts')
    decreases |order|
  {
    hide PoolFits, Poll;
    acts' := acts;
    if order != [] {
      var acts1 := PollPlays(env, w, items, p, acts, order[0]);
      acts' := PollsPlay(env, w, items, Poll(env, p, order[0]), acts1, order[1..]);
    }
  }

  // ---- The batch -----------------------------------------------------------

  /** One result per item, in the model's order. */
  function Collected(slots: seq<Slot>): (results: seq<ToolResult>)
    requires AllFinished(slots)
    ensures |results| == |slots|
  {
    seq(|slots|, i requires 0 <= i < |slots| => slots[i].result)
  }

  function ExecuteAll<W>(env: Env<W>, w: W, items: seq<ExecItem>): Results<W> {
    var p := PollAll(env, Pool(SlotsOf(items), w, []), Order(env, w, |items|));
    EverythingFinishes(env, w, items);
    Results(Collected(p.slots), p.w, p.events)
  }

  /** A history that accounts for a whole batch: the attempts of each call came
      one after the other until the first success or the third failure, which is
      the call's result; skills made none; and the world went from attempt to
      attempt as they finished. */
  ghost predicate Accounts<W>(env: Env<W>, w: W, items: seq<ExecItem>, r: Results<W>, acts: seq<Act>) {
    && Plays(env, w, acts, r.w)
    && r.events == EventsOf(acts)
    && |r.results| == |items|
    && InRange(acts, |items|)
    && forall k: nat | k < |items| ::
         var mine := ActsOf(acts, k);
         match items[k]
         case SkillItem(result) => r.results[k] == result && mine == []
         case CallItem(call) => Tries(k, call, mine) && Settled(mine) && r.results[k] == mine[|mine| - 1].result
  }

  /** Whatever order the attempts of a batch start and finish in. */
  lemma BatchIsAccountedFor<W>(env: Env<W>, w: W, items: seq<ExecItem>)
    ensures exists acts :: Accounts(env, w, items, ExecuteAll(env, w, items), acts)
  {
    hide PollAll, Rest, Plays, EventsOf, ActsOf, Tries, Settled, PollsOf;
    var start := Pool(SlotsOf(items), w, []);
    NothingPlays(env, w, items);
    var acts := PollsPlay(env, w, items, start, [], Order(env, w, |items|));
    EverythingFinishes(env, w, items);
    var p, r := PollAll(env, start, Order(env, w, |items|)), ExecuteAll(env, w, items);
    forall k: nat | k < |items|
      ensures SlotFits(items[k], Finished(r.results[k]), k, ActsOf(acts, k))
    {
      assert SlotFits(items[k], p.slots[k], k, ActsOf(acts, k));
    }
    assert Accounts(env, w, items, r, acts);
  }

  lemma NothingPlays<W>(env: Env<W>, w: W, items: seq<ExecItem>)
    ensures PoolFits(env, w, items, Pool(SlotsOf(items), w, []), [])
  {
    var slots := SlotsOf(items);
    forall k: nat | k < |items|
      ensures SlotFits(items[k], slots[k], k, ActsOf([], k))
    {
      assert slots[k] == SlotOf(items[k]);
    }
  }

  lemma {:induction false} PollAllAppend<W>(env: Env<W>, p: Pool<W>, x: seq<nat>, y: seq<nat>)
    ensures PollAll(env, p, x + y) == PollAll(env, PollAll(env, p, x), y)
    decreases |x|
  {
    if x == [] {
      assert x + y == y;
    } else {
      assert (x + y)[1..] == x[1..] + y;
      PollAllAppend(env, Poll(env, p, x[0]), x[1..], y);
    }
  }

  lemma {:induction false} FinishedStays<W>(env: Env<W>, p: Pool<W>, order: seq<nat>)
    requires AllFinished(p.slots)
    ensures PollAll(env, p, order) == p
    decreases |order|
  {
    if order != [] {
      FinishedStays(env, p, order[1..]);
    }
  }

  /** A schedule that finishes the batch is followed as it is. */
  lemma ScheduleIsFollowed<W>(env: Env<W>, w: W, items: seq<ExecItem>)
    requires AllFinished(PollAll(env, Pool(SlotsOf(items), w, []), env.schedule(w, |items|)).slots)
    ensures var p := PollAll(env, Pool(SlotsOf(items), w, []), env.schedule(w, |items|));
            ExecuteAll(env, w, items) == Results(Collected(p.slots), p.w, p.events)
  {
    hide PollAll, Rest, AllFinished;
    var start := Pool(SlotsOf(items), w, []);
    PollAllAppend(env, start, env.schedule(w, |items|), Rest(|items|));
    FinishedStays(env, PollAll(env, start, env.schedule(w, |items|)), Rest(|items|));
  }

  method ExecuteReady<W>(env: Env<W>, w: W, items: seq<ExecItem>) returns (r: Results<W>)
    ensures r == ExecuteAll(env, w, items)
    ensures exists acts :: Accounts(env, w, items, r, acts)
  {
    BatchIsAccountedFor(env, w, items);
    hide Accounts;
    var order := Order(env, w, |items|);
    ghost var start := Pool(SlotsOf(items), w, []);
    var p := Pool(SlotsOf(items), w, []);
    var k := 0;
    assert order[0..] == order;
    while k < |order|
      invariant 0 <= k <= |order|
      invariant |p.slots| == |items|
      invariant PollAll(env, p, order[k..]) == PollAll(env, start, order)
    {
      assert order[k..][1..] == order[k + 1..];
      p := Poll(env, p, order[k]);
      k := k + 1;
    }
    EverythingFinishes(env, w, items);
    var results: seq<ToolResult> := [];
    k := 0;
    while k < |items|
      invariant 0 <= k <= |items|
      invariant results == Collected(p.slots)[..k]
    {
      results := results + [p.slots[k].result];
      k := k + 1;
    }
    r := Results(results, p.w, p.events);
  }
}
