/** Scheduled promises and chat claims: the due scan, and the driver's machine of
    messages, scans, fires and saves that compete for one claim per chat.
    Instants are seconds. */
module Scheduler {
  import opened Wrappers

  const TICK := 30
  const GRACE := 60

  datatype Status = Pending | Fired | Missed | Cancelled

  /** `at` is `None` where the recorded instant does not parse. */
  datatype Promise = Promise(id: string, chat: string, at: Option<int>, status: Status)

  predicate IsDue(p: Promise, now: int, grace: int) {
    p.status.Pending? && p.at.Some? && p.at.value <= now <= p.at.value + grace
  }

  predicate IsMissed(p: Promise, now: int, grace: int) {
    p.status.Pending? && (p.at.None? || p.at.value + grace < now)
  }

  // ---- The due scan --------------------------------------------------------

  /** The indices at which `flags` is set, below `n`, in order. */
  function Indices(flags: seq<bool>): seq<nat> {
    if flags == [] then []
    else Indices(flags[..|flags| - 1]) + if flags[|flags| - 1] then [|flags| - 1] else []
  }

  function DueFlags(tasks: seq<Promise>, now: int, grace: int): seq<bool> {
    seq(|tasks|, i requires 0 <= i < |tasks| => IsDue(tasks[i], now, grace))
  }

  function MissedFlags(tasks: seq<Promise>, now: int, grace: int): seq<bool> {
    seq(|tasks|, i requires 0 <= i < |tasks| => IsMissed(tasks[i], now, grace))
  }

  /** Ascending, and exactly the set positions. */
  ghost predicate IsIndexList(list: seq<nat>, flags: seq<bool>) {
    && (forall i, j | 0 <= i < j < |list| :: list[i] < list[j])
    && (forall i | 0 <= i < |list| :: list[i] < |flags| && flags[list[i]])
    && (forall k: nat | k < |flags| && flags[k] :: k in list)
  }

  lemma IndexListMore(list: seq<nat>, flags: seq<bool>, last: bool)
    requires IsIndexList(list, flags)
    ensures IsIndexList(list + if last then [|flags|] else [], flags + [last])
  {
    var more := list + if last then [|flags|] else [];
    forall k: nat | k < |flags| + 1 && (flags + [last])[k]
      ensures k in more
    {
      if k == |flags| {
        assert more[|list|] == k;
      } else {
        assert k in list;
      }
    }
  }

  lemma {:induction false} IndicesExact(flags: seq<bool>)
    ensures IsIndexList(Indices(flags), flags)
  {
    if flags != [] {
      hide IsIndexList;
      var n := |flags| - 1;
      IndicesExact(flags[..n]);
      IndexListMore(Indices(flags[..n]), flags[..n], flags[n]);
      assert flags[..n] + [flags[n]] == flags;
    }
  }

  lemma IndicesApart(xs: seq<bool>, ys: seq<bool>)
    requires |xs| == |ys| && forall k | 0 <= k < |xs| :: !(xs[k] && ys[k])
    ensures forall k | k in Indices(xs) :: k !in Indices(ys)
  {
    hide Indices;
    IndicesExact(xs);
    IndicesExact(ys);
  }

  method DueScan(tasks: seq<Promise>, now: int, grace: nat) returns (due: seq<nat>, missed: seq<nat>)
    ensures due == Indices(DueFlags(tasks, now, grace))
    ensures missed == Indices(MissedFlags(tasks, now, grace))
    ensures forall k | k in due :: k !in missed
    ensures forall k: nat :: k in due <==>
              && k < |tasks| && tasks[k].status == Pending && tasks[k].at.Some?
              && tasks[k].at.value <= now <= tasks[k].at.value + grace
    ensures forall k: nat :: k in missed <==>
              && k < |tasks| && tasks[k].status == Pending
              && (tasks[k].at.None? || tasks[k].at.value + grace < now)
  {
    due, missed := [], [];
    var index := 0;
    while index < |tasks|
      invariant 0 <= index <= |tasks|
      invariant due == Indices(DueFlags(tasks, now, grace)[..index])
      invariant missed == Indices(MissedFlags(tasks, now, grace)[..index])
    {
      var task := tasks[index];
      OneMoreFlag(DueFlags(tasks, now, grace), index);
      OneMoreFlag(MissedFlags(tasks, now, grace), index);
      if task.status == Pending {
        if task.at.None? {
          missed := missed + [index];
        } else if now > task.at.value + grace {
          missed := missed + [index];
        } else if task.at.value <= now {
          due := due + [index];
        }
      }
      index := index + 1;
    }
    assert DueFlags(tasks, now, grace)[..index] == DueFlags(tasks, now, grace);
    assert MissedFlags(tasks, now, grace)[..index] == MissedFlags(tasks, now, grace);
    IndicesApart(DueFlags(tasks, now, grace), MissedFlags(tasks, now, grace));
    IndicesExact(DueFlags(tasks, now, grace));
    IndicesExact(MissedFlags(tasks, now, grace));
    hide Indices;
  }

  lemma OneMoreFlag(flags: seq<bool>, i: nat)
    requires i < |flags|
    ensures Indices(flags[..i + 1]) == Indices(flags[..i]) + if flags[i] then [i] else []
  {
    assert flags[..i + 1][..i] == flags[..i];
  }

  // ---- The driver ----------------------------------------------------------

  /** A task in flight holds its chat: a live message, a fire that runs, or a
      fire whose save was attempted. */
  datatype Task = Live(chat: string) | Firing(promise: Promise) | Recorded(promise: Promise)
  {
    function Chat(): string {
      if Live? then chat else promise.chat
    }
  }

  /** `misses` are the copies of missed promises a scan has still to save,
      `fires` all fires handed out with the scan's clock, and `unsaved` the
      promises whose fire could not be saved, once per failure. */
  datatype State = State(queue: map<string, Promise>, busy: set<string>, tasks: seq<Task>,
                         misses: seq<Promise>, fires: seq<(string, int)>, unsaved: seq<string>)

  datatype Move =
    | Schedule(id: string, chat: string, at: Option<int>)
    | Cancel(id: string)
    | Message(chat: string)
    | LiveEnd(i: nat)
    | Scan(order: seq<string>, now: int)
    | Miss(saved: bool)
    | FireDone(i: nat, ran: bool, saved: bool)
    | FireRelease(i: nat)

  /** What a scan loads: promises of the queue, in any order. */
  predicate Loadable(queue: map<string, Promise>, order: seq<string>) {
    forall id | id in order :: id in queue
  }

  function Load(queue: map<string, Promise>, order: seq<string>): seq<Promise>
    requires Loadable(queue, order)
  {
    seq(|order|, i requires 0 <= i < |order| => queue[order[i]])
  }

  function At(tasks: seq<Promise>, indices: seq<nat>): seq<Promise>
    requires forall k | 0 <= k < |indices| :: indices[k] < |tasks|
  {
    seq(|indices|, k requires 0 <= k < |indices| => tasks[indices[k]])
  }

  function Claim(s: State, p: Promise, now: int): State {
    if p.chat in s.busy then s
    else s.(busy := s.busy + {p.chat}, tasks := s.tasks + [Firing(p)], fires := s.fires + [(p.id, now)])
  }

  function ClaimAll(s: State, due: seq<Promise>, now: int): State
    decreases |due|
  {
    if due == [] then s else ClaimAll(Claim(s, due[0], now), due[1..], now)
  }

  function Selected(tasks: seq<Promise>, flags: seq<bool>): seq<Promise>
    requires |flags| == |tasks|
  {
    IndicesExact(flags);
    At(tasks, Indices(flags))
  }

  /** A scan of the given loaded promises. */
  function ScanOf(s: State, loaded: seq<Promise>, now: int): State {
    var s1 := ClaimAll(s, Selected(loaded, DueFlags(loaded, now, GRACE)), now);
    s1.(misses := s1.misses + Selected(loaded, MissedFlags(loaded, now, GRACE)))
  }

  function Without(s: State, i: nat): State
    requires i < |s.tasks|
  {
    s.(busy := s.busy - {s.tasks[i].Chat()}, tasks := s.tasks[..i] + s.tasks[i + 1..])
  }

  function Step(s: State, move: Move): State {
    match move
    case Schedule(id, chat, at) =>
      if id in s.queue then s else s.(queue := s.queue[id := Promise(id, chat, at, Pending)])
    case Cancel(id) =>
      if id in s.queue && s.queue[id].status.Pending? then
        s.(queue := s.queue[id := s.queue[id].(status := Cancelled)])
      else s
    case Message(chat) =>
      if chat in s.busy then s else s.(busy := s.busy + {chat}, tasks := s.tasks + [Live(chat)])
    case LiveEnd(i) =>
      if i < |s.tasks| && s.tasks[i].Live? then Without(s, i) else s
    case Scan(order, now) =>
      if Loadable(s.queue, order) then ScanOf(s, Load(s.queue, order), now) else s
    case Miss(saved) =>
      if s.misses == [] then s
      else
        var p := s.misses[0].(status := Missed);
        s.(queue := if saved then s.queue[p.id := p] else s.queue, misses := s.misses[1..])
    case FireDone(i, ran, saved) =>
      if i < |s.tasks| && s.tasks[i].Firing? then
        var p := s.tasks[i].promise.(status := if ran then Fired else Missed);
        s.(queue := if saved then s.queue[p.id := p] else s.queue,
           tasks := s.tasks[i := Recorded(p)],
           unsaved := if saved then s.unsaved else s.unsaved + [p.id])
      else s
    case FireRelease(i) =>
      if i < |s.tasks| && s.tasks[i].Recorded? then Without(s, i) else s
  }

  function Steps(s: State, moves: seq<Move>): State
    decreases |moves|
  {
    if moves == [] then s else Steps(Step(s, moves[0]), moves[1..])
  }

  const START := State(map[], {}, [], [], [], [])

  class Driver {
    var queue: map<string, Promise>
    var busy: set<string>
    var tasks: seq<Task>
    var misses: seq<Promise>
    var fires: seq<(string, int)>
    var unsaved: seq<string>

    function View(): State
      reads this
    {
      State(queue, busy, tasks, misses, fires, unsaved)
    }

    constructor ()
      ensures View() == START
    {
      queue, busy, tasks, misses, fires, unsaved := map[], {}, [], [], [], [];
    }

    method OnMessage(chat: string) returns (claimed: bool)
      modifies this
      ensures View() == Step(old(View()), Message(chat))
      ensures claimed == (chat !in old(busy))
    {
      claimed := chat !in busy;
      if claimed {
        busy := busy + {chat};
        tasks := tasks + [Live(chat)];
      }
    }

    /** Dropping a claim. */
    method Release(i: nat)
      requires i < |tasks|
      modifies this
      ensures View() == Without(old(View()), i)
    {
      busy := busy - {tasks[i].Chat()};
      tasks := tasks[..i] + tasks[i + 1..];
    }

    method ScanSchedules(order: seq<string>, now: int)
      requires Loadable(queue, order)
      modifies this
      ensures View() == Step(old(View()), Scan(order, now))
    {
      var loaded := Load(queue, order);
      var due, missed := DueScan(loaded, now, GRACE);
      IndicesExact(DueFlags(loaded, now, GRACE));
      IndicesExact(MissedFlags(loaded, now, GRACE));
      ClaimDue(loaded, due, now);
      HoldMissed(loaded, missed);
    }

    method ClaimDue(loaded: seq<Promise>, due: seq<nat>, now: int)
      requires forall k | 0 <= k < |due| :: due[k] < |loaded|
      modifies this
      ensures View() == ClaimAll(old(View()), At(loaded, due), now)
    {
      ghost var picked := At(loaded, due);
      var k := 0;
      assert picked[0..] == picked;
      while k < |due|
        invariant 0 <= k <= |due|
        invariant ClaimAll(View(), picked[k..], now) == ClaimAll(old(View()), picked, now)
      {
        var p := loaded[due[k]];
        assert picked[k..][0] == p && picked[k..][1..] == picked[k + 1..];
        if p.chat !in busy {
          busy := busy + {p.chat};
          tasks := tasks + [Firing(p)];
          fires := fires + [(p.id, now)];
        }
        k := k + 1;
      }
    }

    method HoldMissed(loaded: seq<Promise>, missed: seq<nat>)
      requires forall k | 0 <= k < |missed| :: missed[k] < |loaded|
      modifies this`misses
      ensures misses == old(misses) + At(loaded, missed)
    {
      ghost var late := At(loaded, missed);
      var k := 0;
      while k < |missed|
        invariant 0 <= k <= |missed|
        invariant misses == old(misses) + late[..k]
      {
        misses := misses + [loaded[missed[k]]];
        assert late[..k + 1] == late[..k] + [late[k]];
        k := k + 1;
      }
      assert late[..k] == late;
    }

    method MissOne(saved: bool)
      modifies this
      ensures View() == Step(old(View()), Miss(saved))
    {
      if misses == [] {
        return;
      }
      var p := misses[0].(status := Missed);
      if saved {
        queue := queue[p.id := p];
      }
      misses := misses[1..];
    }

    method RecordFire(i: nat, ran: bool, saved: bool)
      modifies this
      ensures View() == Step(old(View()), FireDone(i, ran, saved))
    {
      if i >= |tasks| || !tasks[i].Firing? {
        return;
      }
      var p := tasks[i].promise.(status := if ran then Fired else Missed);
      if saved {
        queue := queue[p.id := p];
      } else {
        unsaved := unsaved + [p.id];
      }
      tasks := tasks[i := Recorded(p)];
    }
  }

  // ---- The claims ----------------------------------------------------------

  /** The busy set is the chats with a task in flight, and no chat has two. */
  ghost predicate BusyOk(s: State) {
    && s.busy == (set i | 0 <= i < |s.tasks| :: s.tasks[i].Chat())
    && forall i, j | 0 <= i < j < |s.tasks| :: s.tasks[i].Chat() != s.tasks[j].Chat()
  }

  /** A copy of a promise agrees with the queue on what never changes. */
  ghost predicate Copies(s: State, p: Promise) {
    p.id in s.queue && s.queue[p.id].chat == p.chat && s.queue[p.id].at == p.at
  }

  ghost predicate CopiesOk(s: State) {
    && (forall id | id in s.queue :: s.queue[id].id == id)
    && (forall i | 0 <= i < |s.tasks| :: !s.tasks[i].Live? ==> Copies(s, s.tasks[i].promise))
    && (forall i | 0 <= i < |s.misses| :: Copies(s, s.misses[i]))
  }

  ghost predicate FireOk(s: State, fire: (string, int)) {
    && fire.0 in s.queue && s.queue[fire.0].at.Some?
    && s.queue[fire.0].at.value <= fire.1 <= s.queue[fire.0].at.value + 60
  }

  /** Fires happen only inside the window of their promise. */
  ghost predicate FiresOk(s: State) {
    forall i | 0 <= i < |s.fires| :: FireOk(s, s.fires[i])
  }

  function FiresOf(fires: seq<(string, int)>, id: string): nat {
    if fires == [] then 0
    else FiresOf(fires[..|fires| - 1], id) + if fires[|fires| - 1].0 == id then 1 else 0
  }

  function CountIn(ids: seq<string>, id: string): nat {
    if ids == [] then 0 else CountIn(ids[..|ids| - 1], id) + if ids[|ids| - 1] == id then 1 else 0
  }

  ghost predicate InFlight(s: State, id: string) {
    exists i :: 0 <= i < |s.tasks| && s.tasks[i].Firing? && s.tasks[i].promise.id == id
  }

  /** The promise is no longer pending, or its fire is running. */
  ghost predicate Spent(s: State, id: string) {
    id in s.queue && (!s.queue[id].status.Pending? || InFlight(s, id))
  }

  /** A promise fires once, and once more for each fire that could not be saved. */
  ghost predicate CountOk(s: State) {
    forall id: string :: FiresOf(s.fires, id) <= CountIn(s.unsaved, id) + if Spent(s, id) then 1 else 0
  }

  ghost predicate DriverOk(s: State) {
    BusyOk(s) && CopiesOk(s) && FiresOk(s) && CountOk(s)
  }

  // ---- What the queue keeps ------------------------------------------------

  /** Promises stay, with their chat and instant, and never become pending again. */
  ghost predicate QueueGrows(s: State, s': State) {
    forall id | id in s.queue ::
      && id in s'.queue && s'.queue[id].chat == s.queue[id].chat && s'.queue[id].at == s.queue[id].at
      && (!s.queue[id].status.Pending? ==> !s'.queue[id].status.Pending?)
  }

  lemma FiresStay(s: State, s': State)
    requires FiresOk(s) && QueueGrows(s, s') && s'.fires == s.fires
    ensures FiresOk(s')
  {
    forall i | 0 <= i < |s'.fires|
      ensures FireOk(s', s'.fires[i])
    {
      assert FireOk(s, s.fires[i]);
    }
  }

  lemma CountStays(s: State, s': State)
    requires CountOk(s) && s'.fires == s.fires && s'.unsaved == s.unsaved
    requires forall id | Spent(s, id) :: Spent(s', id)
    ensures CountOk(s')
  {
    hide FiresOf, CountIn, Spent;
  }

  /** Saving a status other than pending. */
  lemma SaveKeeps(s: State, p: Promise)
    requires CopiesOk(s) && FiresOk(s) && CountOk(s) && Copies(s, p) && !p.status.Pending?
    ensures var s' := s.(queue := s.queue[p.id := p]);
            CopiesOk(s') && FiresOk(s') && CountOk(s') && QueueGrows(s, s') && Spent(s', p.id)
  {
    var s' := s.(queue := s.queue[p.id := p]);
    hide FiresOk, CountOk;
    FiresStay(s, s');
    forall id | Spent(s, id)
      ensures Spent(s', id)
    {
      FlightIgnoresQueue(s, s', id);
    }
    CountStays(s, s');
  }

  lemma FlightIgnoresQueue(s: State, s': State, id: string)
    requires s'.tasks == s.tasks
    ensures InFlight(s', id) <==> InFlight(s, id)
  {
  }

  // ---- Claims and releases -------------------------------------------------

  lemma ClaimKeepsBusy(s: State, t: Task)
    requires BusyOk(s) && t.Chat() !in s.busy
    ensures BusyOk(s.(busy := s.busy + {t.Chat()}, tasks := s.tasks + [t]))
  {
    var s' := s.(busy := s.busy + {t.Chat()}, tasks := s.tasks + [t]);
    assert forall i | 0 <= i < |s.tasks| :: s'.tasks[i] == s.tasks[i];
    assert s'.tasks[|s.tasks|] == t;
  }

  lemma ReleaseKeepsBusy(s: State, i: nat)
    requires BusyOk(s) && i < |s.tasks|
    ensures BusyOk(Without(s, i))
  {
    var s' := Without(s, i);
    assert forall j | 0 <= j < |s'.tasks| :: s'.tasks[j] == s.tasks[if j < i then j else j + 1];
    forall j | 0 <= j < |s.tasks| && j != i
      ensures s.tasks[j] == s'.tasks[if j < i then j else j - 1]
    {
    }
  }

  /** Letting go of a task that is not a running fire. */
  lemma ReleaseKeeps(s: State, i: nat)
    requires DriverOk(s) && i < |s.tasks| && !s.tasks[i].Firing?
    ensures DriverOk(Without(s, i))
  {
    var s' := Without(s, i);
    ReleaseKeepsBusy(s, i);
    hide BusyOk, FiresOk, CountOk;
    assert forall j | 0 <= j < |s'.tasks| :: s'.tasks[j] == s.tasks[if j < i then j else j + 1];
    FiresStay(s, s');
    forall id | Spent(s, id)
      ensures Spent(s', id)
    {
      if InFlight(s, id) {
        var j :| 0 <= j < |s.tasks| && s.tasks[j].Firing? && s.tasks[j].promise.id == id;
        assert s'.tasks[if j < i then j else j - 1] == s.tasks[j];
      }
    }
    CountStays(s, s');
  }

  lemma LiveKeeps(s: State, chat: string)
    requires DriverOk(s) && chat !in s.busy
    ensures DriverOk(s.(busy := s.busy + {chat}, tasks := s.tasks + [Live(chat)]))
  {
    var s' := s.(busy := s.busy + {chat}, tasks := s.tasks + [Live(chat)]);
    ClaimKeepsBusy(s, Live(chat));
    hide BusyOk, FiresOk, CountOk;
    FiresStay(s, s');
    forall id | Spent(s, id)
      ensures Spent(s', id)
    {
      FlightGrows(s, s', id);
    }
    CountStays(s, s');
  }

  lemma FlightGrows(s: State, s': State, id: string)
    requires s.tasks <= s'.tasks
    ensures InFlight(s, id) ==> InFlight(s', id)
  {
    if InFlight(s, id) {
      var j :| 0 <= j < |s.tasks| && s.tasks[j].Firing? && s.tasks[j].promise.id == id;
      assert s'.tasks[j] == s.tasks[j];
    }
  }

  lemma FiresMore(fires: seq<(string, int)>, fire: (string, int), id: string)
    ensures FiresOf(fires + [fire], id) == FiresOf(fires, id) + if fire.0 == id then 1 else 0
  {
    assert (fires + [fire])[..|fires|] == fires;
  }

  lemma CountMore(ids: seq<string>, last: string, id: string)
    ensures CountIn(ids + [last], id) == CountIn(ids, id) + if last == id then 1 else 0
  {
    assert (ids + [last])[..|ids|] == ids;
  }

  /** A due promise of a free chat is neither spent nor running, so its fire is
      covered. */
  lemma ClaimKeeps(s: State, p: Promise, now: int)
    requires DriverOk(s) && p.id in s.queue && s.queue[p.id] == p && IsDue(p, now, GRACE)
    ensures DriverOk(Claim(s, p, now))
  {
    if p.chat !in s.busy {
      var s' := Claim(s, p, now);
      ClaimKeepsBusy(s, Firing(p));
      FreeChatIsIdle(s, p);
      hide BusyOk, CountOk;
      assert FireOk(s', (p.id, now));
      forall i | 0 <= i < |s'.fires|
        ensures FireOk(s', s'.fires[i])
      {
        if i < |s.fires| {
          assert FireOk(s, s.fires[i]);
        }
      }
      ClaimCounts(s, p, now);
    }
  }

  lemma FreeChatIsIdle(s: State, p: Promise)
    requires BusyOk(s) && CopiesOk(s) && p.id in s.queue && s.queue[p.id] == p && p.chat !in s.busy
    ensures !InFlight(s, p.id)
  {
    forall i | 0 <= i < |s.tasks| && s.tasks[i].Firing?
      ensures s.tasks[i].promise.id != p.id
    {
      assert Copies(s, s.tasks[i].promise);
      assert s.tasks[i].Chat() in s.busy;
    }
  }

  lemma ClaimCounts(s: State, p: Promise, now: int)
    requires CountOk(s) && p.id in s.queue && s.queue[p.id].status.Pending? && !InFlight(s, p.id) && p.chat !in s.busy
    ensures CountOk(Claim(s, p, now))
  {
    var s' := Claim(s, p, now);
    assert s'.tasks[|s.tasks|] == Firing(p);
    assert Spent(s', p.id);
    forall id: string
      ensures FiresOf(s'.fires, id) <= CountIn(s'.unsaved, id) + if Spent(s', id) then 1 else 0
    {
      FiresMore(s.fires, (p.id, now), id);
      FlightGrows(s, s', id);
      hide FiresOf, CountIn;
      assert FiresOf(s.fires, id) <= CountIn(s.unsaved, id) + if Spent(s, id) then 1 else 0;
    }
  }

  lemma {:induction false} ClaimAllKeeps(s: State, due: seq<Promise>, now: int)
    requires DriverOk(s)
    requires forall i | 0 <= i < |due| ::
               due[i].id in s.queue && s.queue[due[i].id] == due[i] && IsDue(due[i], now, GRACE)
    ensures DriverOk(ClaimAll(s, due, now)) && ClaimAll(s, due, now).queue == s.queue
    ensures ClaimAll(s, due, now).misses == s.misses
    decreases |due|
  {
    hide DriverOk;
    if due != [] {
      ClaimKeeps(s, due[0], now);
      ClaimAllKeeps(Claim(s, due[0], now), due[1..], now);
    }
  }

  ghost predicate TakenFrom(p: Promise, tasks: seq<Promise>, flags: seq<bool>)
    requires |flags| == |tasks|
  {
    exists i :: 0 <= i < |tasks| && flags[i] && p == tasks[i]
  }

  lemma SelectedFrom(tasks: seq<Promise>, flags: seq<bool>)
    requires |flags| == |tasks|
    ensures forall k | 0 <= k < |Selected(tasks, flags)| :: TakenFrom(Selected(tasks, flags)[k], tasks, flags)
    ensures forall i | 0 <= i < |tasks| && flags[i] :: tasks[i] in Selected(tasks, flags)
  {
    hide Indices;
    IndicesExact(flags);
    var list, picked := Indices(flags), Selected(tasks, flags);
    forall k | 0 <= k < |picked|
      ensures TakenFrom(picked[k], tasks, flags)
    {
      assert flags[list[k]] && picked[k] == tasks[list[k]];
    }
    forall i | 0 <= i < |tasks| && flags[i]
      ensures tasks[i] in picked
    {
      var k :| 0 <= k < |list| && list[k] == i;
      assert picked[k] == tasks[i];
    }
  }

  lemma ScanKeeps(s: State, order: seq<string>, now: int)
    requires DriverOk(s) && Loadable(s.queue, order)
    ensures DriverOk(ScanOf(s, Load(s.queue, order), now))
  {
    hide DriverOk, ClaimAll, Selected;
    var loaded := Load(s.queue, order);
    var due, late := Selected(loaded, DueFlags(loaded, now, GRACE)), Selected(loaded, MissedFlags(loaded, now, GRACE));
    SelectedFrom(loaded, DueFlags(loaded, now, GRACE));
    SelectedFrom(loaded, MissedFlags(loaded, now, GRACE));
    QueueKeys(s);
    forall i | 0 <= i < |due|
      ensures due[i].id in s.queue && s.queue[due[i].id] == due[i] && IsDue(due[i], now, GRACE)
    {
      assert TakenFrom(due[i], loaded, DueFlags(loaded, now, GRACE));
      var j :| 0 <= j < |loaded| && DueFlags(loaded, now, GRACE)[j] && due[i] == loaded[j];
      assert loaded[j] == s.queue[order[j]] && order[j] in order;
    }
    ClaimAllKeeps(s, due, now);
    forall i | 0 <= i < |late|
      ensures late[i].id in s.queue && s.queue[late[i].id] == late[i]
    {
      assert TakenFrom(late[i], loaded, MissedFlags(loaded, now, GRACE));
      var j :| 0 <= j < |loaded| && MissedFlags(loaded, now, GRACE)[j] && late[i] == loaded[j];
      assert loaded[j] == s.queue[order[j]] && order[j] in order;
    }
    MoreMisses(ClaimAll(s, due, now), late);
  }

  lemma QueueKeys(s: State)
    requires DriverOk(s)
    ensures forall id | id in s.queue :: s.queue[id].id == id
  {
  }

  lemma MoreMisses(s: State, late: seq<Promise>)
    requires DriverOk(s)
    requires forall i | 0 <= i < |late| :: late[i].id in s.queue && s.queue[late[i].id] == late[i]
    ensures DriverOk(s.(misses := s.misses + late))
  {
    var s' := s.(misses := s.misses + late);
    hide FiresOk, CountOk;
    FiresStay(s, s');
    forall id
      ensures Spent(s', id) == Spent(s, id)
    {
      FlightIgnoresQueue(s, s', id);
    }
    CountStays(s, s');
  }

  lemma MissKeeps(s: State, saved: bool)
    requires DriverOk(s)
    ensures DriverOk(Step(s, Miss(saved)))
  {
    if s.misses != [] {
      var p := s.misses[0].(status := Missed);
      var s1 := if saved then s.(queue := s.queue[p.id := p]) else s;
      var s' := s1.(misses := s1.misses[1..]);
      assert Copies(s, s.misses[0]);
      if saved {
        SaveKeeps(s, p);
      }
      hide FiresOk, CountOk;
      FiresStay(s1, s');
      forall id
        ensures Spent(s', id) == Spent(s1, id)
      {
        FlightIgnoresQueue(s1, s', id);
      }
      CountStays(s1, s');
    }
  }

  lemma FireDoneKeeps(s: State, i: nat, ran: bool, saved: bool)
    requires DriverOk(s) && i < |s.tasks| && s.tasks[i].Firing?
    ensures DriverOk(Step(s, FireDone(i, ran, saved)))
  {
    var p := s.tasks[i].promise.(status := if ran then Fired else Missed);
    var s' := Step(s, FireDone(i, ran, saved));
    assert Copies(s, s.tasks[i].promise);
    var s1 := if saved then s.(queue := s.queue[p.id := p]) else s;
    if saved {
      SaveKeeps(s, p);
    }
    RecordedKeepsRest(s1, s', i, p);
    RecordedCounts(s1, s', i, p, saved);
    hide CountOk, CopiesOk, FiresOk;
    BusyByChats(s, s');
  }

  lemma BusyByChats(s: State, s': State)
    requires BusyOk(s) && s'.busy == s.busy && |s'.tasks| == |s.tasks|
    requires forall j | 0 <= j < |s.tasks| :: s'.tasks[j].Chat() == s.tasks[j].Chat()
    ensures BusyOk(s')
  {
  }

  lemma RecordedKeepsRest(s: State, s': State, i: nat, p: Promise)
    requires CopiesOk(s) && FiresOk(s) && i < |s.tasks| && s.tasks[i].Firing? && Copies(s, p)
    requires s' == s.(tasks := s.tasks[i := Recorded(p)], unsaved := s'.unsaved)
    ensures CopiesOk(s') && FiresOk(s')
  {
    hide FiresOk;
    FiresStay(s, s');
  }

  lemma RecordedCounts(s: State, s': State, i: nat, p: Promise, saved: bool)
    requires CountOk(s) && i < |s.tasks| && s.tasks[i].Firing? && s.tasks[i].promise.id == p.id
    requires s' == s.(tasks := s.tasks[i := Recorded(p)], unsaved := if saved then s.unsaved else s.unsaved + [p.id])
    requires saved ==> p.id in s.queue && !s.queue[p.id].status.Pending?
    ensures CountOk(s')
  {
    forall id: string
      ensures FiresOf(s'.fires, id) <= CountIn(s'.unsaved, id) + if Spent(s', id) then 1 else 0
    {
      hide FiresOf, CountIn;
      assert FiresOf(s.fires, id) <= CountIn(s.unsaved, id) + if Spent(s, id) then 1 else 0;
      if !saved {
        CountMore(s.unsaved, p.id, id);
      }
      if id != p.id && InFlight(s, id) {
        var j :| 0 <= j < |s.tasks| && s.tasks[j].Firing? && s.tasks[j].promise.id == id;
        assert s'.tasks[j] == s.tasks[j];
      }
    }
  }

  lemma QueueMoveKeeps(s: State, move: Move)
    requires DriverOk(s) && (move.Schedule? || move.Cancel?)
    ensures DriverOk(Step(s, move))
  {
    var s' := Step(s, move);
    hide FiresOk, CountOk;
    FiresStay(s, s');
    forall id | Spent(s, id)
      ensures Spent(s', id)
    {
      FlightIgnoresQueue(s, s', id);
    }
    CountStays(s, s');
  }

  lemma StepKeeps(s: State, move: Move)
    requires DriverOk(s)
    ensures DriverOk(Step(s, move))
  {
    hide DriverOk, ScanOf, Without, Load;
    match move {
      case Schedule(_, _, _) => QueueMoveKeeps(s, move);
      case Cancel(_) => QueueMoveKeeps(s, move);
      case Message(chat) =>
        if chat !in s.busy {
          LiveKeeps(s, chat);
        }
      case LiveEnd(i) =>
        if i < |s.tasks| && s.tasks[i].Live? {
          ReleaseKeeps(s, i);
        }
      case Scan(order, now) =>
        if Loadable(s.queue, order) {
          ScanKeeps(s, order, now);
        }
      case Miss(saved) => MissKeeps(s, saved);
      case FireDone(i, ran, saved) =>
        if i < |s.tasks| && s.tasks[i].Firing? {
          FireDoneKeeps(s, i, ran, saved);
        }
      case FireRelease(i) =>
        if i < |s.tasks| && s.tasks[i].Recorded? {
          ReleaseKeeps(s, i);
        }
    }
  }

  lemma {:induction false} StepsKeep(s: State, moves: seq<Move>)
    requires DriverOk(s)
    ensures DriverOk(Steps(s, moves))
    decreases |moves|
  {
    hide DriverOk, Step;
    if moves != [] {
      StepKeeps(s, moves[0]);
      StepsKeep(Step(s, moves[0]), moves[1..]);
    }
  }

  // ---- The results ---------------------------------------------------------

  /** Over every interleaving of messages, scans, fires, misses and cancels, with
      saves that fail or not: the busy set is the chats with a task in flight
      and no chat has two; every fire lies in its promise's window; and a
      promise fires at most once more than its fire failed to be saved. */
  lemma ClaimsAndFiresAreSafe(moves: seq<Move>)
    ensures var s := Steps(START, moves);
            && BusyOk(s)
            && FiresOk(s)
            && forall id: string :: FiresOf(s.fires, id) <= 1 + CountIn(s.unsaved, id)
  {
    StartIsOk();
    StepsKeep(START, moves);
    hide FiresOf, CountIn, Steps, BusyOk, FiresOk, Spent, CopiesOk;
  }

  lemma StartIsOk()
    ensures DriverOk(START)
  {
  }

  /** A status that is not pending is final in that sense for good. */
  lemma {:induction false} SettledStaysSettled(s: State, moves: seq<Move>, id: string)
    requires DriverOk(s) && id in s.queue && !s.queue[id].status.Pending?
    ensures id in Steps(s, moves).queue && !Steps(s, moves).queue[id].status.Pending?
    decreases |moves|
  {
    hide DriverOk, Step;
    if moves != [] {
      StepKeeps(s, moves[0]);
      StepSettles(s, moves[0], id);
      SettledStaysSettled(Step(s, moves[0]), moves[1..], id);
    }
  }

  lemma StepSettles(s: State, move: Move, id: string)
    requires DriverOk(s) && id in s.queue && !s.queue[id].status.Pending?
    ensures id in Step(s, move).queue && !Step(s, move).queue[id].status.Pending?
  {
    hide FiresOk, CountOk, BusyOk, ClaimAll, Selected;
    if move.Scan? && Loadable(s.queue, move.order) {
      ScanLeavesQueue(s, Load(s.queue, move.order), move.now);
    }
  }

  lemma ScanLeavesQueue(s: State, loaded: seq<Promise>, now: int)
    ensures ScanOf(s, loaded, now).queue == s.queue
    ensures ScanOf(s, loaded, now).misses == s.misses + Selected(loaded, MissedFlags(loaded, now, GRACE))
  {
    hide Selected;
    ClaimsLeaveQueue(s, Selected(loaded, DueFlags(loaded, now, GRACE)), now);
  }

  lemma {:induction false} ClaimsLeaveQueue(s: State, due: seq<Promise>, now: int)
    ensures ClaimAll(s, due, now).queue == s.queue && ClaimAll(s, due, now).misses == s.misses
    decreases |due|
  {
    if due != [] {
      ClaimsLeaveQueue(Claim(s, due[0], now), due[1..], now);
    }
  }

  /** Saving all outstanding misses. */
  function MissAll(s: State): State
    decreases |s.misses|
  {
    if s.misses == [] then s else MissAll(Step(s, Miss(true)))
  }

  lemma {:induction false} MissAllMisses(s: State, id: string)
    requires CopiesOk(s)
    requires || (exists i :: 0 <= i < |s.misses| && s.misses[i].id == id)
             || (id in s.queue && !s.queue[id].status.Pending?)
    ensures id in MissAll(s).queue && !MissAll(s).queue[id].status.Pending?
    decreases |s.misses|
  {
    if s.misses != [] {
      var s' := Step(s, Miss(true));
      assert Copies(s, s.misses[0]);
      if i: int :| 0 <= i < |s.misses| && s.misses[i].id == id {
        if i > 0 {
          assert s'.misses[i - 1].id == id;
        }
      }
      MissAllMisses(s', id);
    }
  }

  /** Once a scan of the whole queue has saved its misses, no promise that was
      past its window at the scan is pending, whether its chat is busy or not. */
  lemma NoExpiredPromiseStaysPending(s: State, order: seq<string>, now: int, id: string)
    requires DriverOk(s) && Loadable(s.queue, order) && id in order && IsMissed(s.queue[id], now, GRACE)
    ensures var s' := MissAll(Step(s, Scan(order, now)));
            id in s'.queue && !s'.queue[id].status.Pending?
  {
    hide MissAll, Selected, BusyOk, FiresOk, CountOk;
    var loaded := Load(s.queue, order);
    var late := Selected(loaded, MissedFlags(loaded, now, GRACE));
    SelectedFrom(loaded, MissedFlags(loaded, now, GRACE));
    ScanLeavesQueue(s, loaded, now);
    var i :| 0 <= i < |order| && order[i] == id;
    assert loaded[i] in late;
    var k :| 0 <= k < |late| && late[k] == loaded[i];
    ScanKeeps(s, order, now);
    var s1 := Step(s, Scan(order, now));
    assert s1.misses[|s.misses| + k].id == id;
    MissAllMisses(s1, id);
  }

  // ---- Who gets a chat -----------------------------------------------------

  /** A message to a free chat claims it and starts a task, and the end of that
      task gives everything back; a message to a busy chat does nothing. */
  lemma MessageClaims(s: State, chat: string)
    ensures var s' := Step(s, Message(chat));
            if chat in s.busy then s' == s
            else
              && s'.tasks == s.tasks + [Live(chat)] && chat in s'.busy
              && Step(s', LiveEnd(|s.tasks|)) == s
  {
    var s' := Step(s, Message(chat));
    if chat !in s.busy {
      assert s'.tasks[..|s.tasks|] == s.tasks;
      assert s'.busy - {chat} == s.busy;
    }
  }

  /** The end of a task frees its chat for the next message and ends no other. */
  lemma EndFrees(s: State, i: nat)
    requires DriverOk(s) && i < |s.tasks| && !s.tasks[i].Firing?
    ensures var chat := s.tasks[i].Chat();
            var s' := Step(s, if s.tasks[i].Live? then LiveEnd(i) else FireRelease(i));
            && s'.busy == s.busy - {chat} && chat in s.busy
            && s'.tasks == s.tasks[..i] + s.tasks[i + 1..]
            && s'.queue == s.queue && s'.fires == s.fires && s'.misses == s.misses
            && Step(s', Message(chat)).tasks == s'.tasks + [Live(chat)]
  {
    hide CopiesOk, FiresOk, CountOk;
  }

  /** Which of the due promises get their chat: those whose chat is free and was
      not taken by an earlier one. */
  function Wins(busy: set<string>, due: seq<Promise>): (flags: seq<bool>)
    ensures |flags| == |due|
  {
    seq(|due|, k requires 0 <= k < |due| => due[k].chat !in busy + ChatsOf(due[..k]))
  }

  function ChatsOf(promises: seq<Promise>): set<string> {
    set p | p in promises :: p.chat
  }

  function Firings(promises: seq<Promise>): seq<Task> {
    seq(|promises|, i requires 0 <= i < |promises| => Firing(promises[i]))
  }

  function FiresAt(promises: seq<Promise>, now: int): seq<(string, int)> {
    seq(|promises|, i requires 0 <= i < |promises| => (promises[i].id, now))
  }

  lemma {:induction false} ClaimAllMore(s: State, due: seq<Promise>, p: Promise, now: int)
    ensures ClaimAll(s, due + [p], now) == Claim(ClaimAll(s, due, now), p, now)
    decreases |due|
  {
    if due == [] {
      assert [] + [p] == [p] && [p][1..] == [];
    } else {
      assert (due + [p])[1..] == due[1..] + [p];
      ClaimAllMore(Claim(s, due[0], now), due[1..], p, now);
    }
  }

  /** Claims are handed out in order, one per chat. */
  lemma {:induction false} ClaimsExactly(s: State, due: seq<Promise>, now: int)
    ensures var s', won := ClaimAll(s, due, now), Selected(due, Wins(s.busy, due));
            && s'.tasks == s.tasks + Firings(won)
            && s'.fires == s.fires + FiresAt(won, now)
            && s'.busy == s.busy + ChatsOf(due)
            && s'.queue == s.queue && s'.misses == s.misses
    decreases |due|
  {
    if due == [] {
      NothingWon(s.busy);
      assert s.tasks + Firings([]) == s.tasks && s.fires + FiresAt([], now) == s.fires;
    } else {
      var n := |due| - 1;
      var front, p := due[..n], due[n];
      assert due == front + [p];
      ClaimsExactly(s, front, now);
      ClaimAllMore(s, front, p, now);
      WinsMore(s.busy, front, p);
      OneMoreChat(front, p);
      hide *;
      var won := Selected(front, Wins(s.busy, front));
      ClaimIs(ClaimAll(s, front, now), p, now);
      FiringsMore(won, p, now);
      Reassociate(s.tasks, Firings(won), [Firing(p)]);
      Reassociate(s.fires, FiresAt(won, now), [(p.id, now)]);
      BusyMore(s.busy, ChatsOf(front), p.chat);
    }
  }

  lemma NothingWon(busy: set<string>)
    ensures Selected([], Wins(busy, [])) == [] && ChatsOf([]) == {}
  {
  }

  lemma OneMoreChat(front: seq<Promise>, p: Promise)
    ensures ChatsOf(front + [p]) == ChatsOf(front) + {p.chat}
  {
    assert p in front + [p];
  }

  lemma ClaimIs(s: State, p: Promise, now: int)
    ensures var s' := Claim(s, p, now);
            if p.chat in s.busy then s' == s
            else s' == s.(busy := s.busy + {p.chat}, tasks := s.tasks + [Firing(p)], fires := s.fires + [(p.id, now)])
  {
  }

  lemma FiringsMore(won: seq<Promise>, p: Promise, now: int)
    ensures Firings(won + [p]) == Firings(won) + [Firing(p)]
    ensures FiresAt(won + [p], now) == FiresAt(won, now) + [(p.id, now)]
  {
  }

  lemma Reassociate<T>(x: seq<T>, y: seq<T>, z: seq<T>)
    ensures (x + y) + z == x + (y + z)
  {
  }

  lemma BusyMore(busy: set<string>, chats: set<string>, chat: string)
    ensures (busy + chats) + {chat} == busy + (chats + {chat})
    ensures chat in busy + chats ==> busy + (chats + {chat}) == busy + chats
  {
  }

  lemma WinsMore(busy: set<string>, front: seq<Promise>, p: Promise)
    ensures Selected(front + [p], Wins(busy, front + [p])) ==
            var won := Selected(front, Wins(busy, front));
            if p.chat in busy + ChatsOf(front) then won else won + [p]
  {
    var due := front + [p];
    var flags, wins := Wins(busy, front), Wins(busy, due);
    assert due[..|front|] == front;
    assert forall k | 0 <= k < |front| :: due[..k] == front[..k];
    hide ChatsOf;
    assert wins[..|front|] == flags;
    IndicesExact(flags);
    var list, last := Indices(flags), p.chat !in busy + ChatsOf(front);
    assert Indices(wins) == list + if last then [|front|] else [];
    hide Indices;
    assert forall k | 0 <= k < |list| :: due[list[k]] == front[list[k]];
  }

  /** One scan: of the loaded promises that are due, the first of each free chat
      fires, at the scan's clock; the missed ones are held for saving. */
  lemma ScanExactly(s: State, loaded: seq<Promise>, now: int)
    ensures var due := Selected(loaded, DueFlags(loaded, now, GRACE));
            var won := Selected(due, Wins(s.busy, due));
            var s' := ScanOf(s, loaded, now);
            && s'.tasks == s.tasks + Firings(won) && s'.fires == s.fires + FiresAt(won, now)
            && s'.misses == s.misses + Selected(loaded, MissedFlags(loaded, now, GRACE))
            && s'.queue == s.queue && s'.unsaved == s.unsaved
  {
    hide Selected, Wins;
    ClaimsExactly(s, Selected(loaded, DueFlags(loaded, now, GRACE)), now);
    ClaimsSaveNothing(s, Selected(loaded, DueFlags(loaded, now, GRACE)), now);
  }

  lemma {:induction false} ClaimsSaveNothing(s: State, due: seq<Promise>, now: int)
    ensures ClaimAll(s, due, now).unsaved == s.unsaved
    decreases |due|
  {
    if due != [] {
      ClaimsSaveNothing(Claim(s, due[0], now), due[1..], now);
    }
  }

  // ---- What is saved -------------------------------------------------------

  /** Saving a fire records it fired, or missed if it could not run; saving a miss
      records it missed; a failed save changes nothing of the queue. Only new
      promises are added, and only pending ones cancelled. */
  lemma SavesExactly(s: State, i: nat, ran: bool, id: string, chat: string, at: Option<int>)
    requires DriverOk(s) && i < |s.tasks| && s.tasks[i].Firing?
    ensures var p := s.tasks[i].promise;
            && Step(s, FireDone(i, ran, true)).queue == s.queue[p.id := p.(status := if ran then Fired else Missed)]
            && Step(s, FireDone(i, ran, false)).queue == s.queue
            && Step(s, FireDone(i, ran, true)).unsaved == s.unsaved
            && Step(s, FireDone(i, ran, false)).unsaved == s.unsaved + [p.id]
    ensures s.misses != [] ==>
              var p := s.misses[0];
              && Step(s, Miss(true)).queue == s.queue[p.id := p.(status := Missed)]
              && Step(s, Miss(false)).queue == s.queue
              && Step(s, Miss(true)).misses == Step(s, Miss(false)).misses == s.misses[1..]
    ensures Step(s, Schedule(id, chat, at)).queue
            == if id in s.queue then s.queue else s.queue[id := Promise(id, chat, at, Pending)]
    ensures Step(s, Cancel(id)).queue
            == if id in s.queue && s.queue[id].status == Pending then s.queue[id := s.queue[id].(status := Cancelled)]
               else s.queue
  {
    hide DriverOk;
  }

  // ---- Where the promises end ----------------------------------------------

  lemma ScanOfOne(s: State, p: Promise, now: int)
    ensures ScanOf(s, [p], now)
         == if IsDue(p, now, GRACE) then Claim(s, p, now)
            else if IsMissed(p, now, GRACE) then s.(misses := s.misses + [p])
            else s
  {
    var due, missed := DueFlags([p], now, GRACE), MissedFlags([p], now, GRACE);
    assert due == [IsDue(p, now, GRACE)] && missed == [IsMissed(p, now, GRACE)];
    IndicesOfOne(IsDue(p, now, GRACE));
    IndicesOfOne(IsMissed(p, now, GRACE));
    hide Indices;
    var fired, late := Selected([p], due), Selected([p], missed);
    assert fired == if IsDue(p, now, GRACE) then [p] else [];
    assert late == if IsMissed(p, now, GRACE) then [p] else [];
    ClaimOne(s, p, now);
    if !IsMissed(p, now, GRACE) {
      var s1 := ClaimAll(s, fired, now);
      assert s1.misses + [] == s1.misses;
    }
  }

  lemma ClaimOne(s: State, p: Promise, now: int)
    ensures ClaimAll(s, [p], now) == Claim(s, p, now) && ClaimAll(s, [], now) == s
  {
    assert [p][1..] == [];
  }

  lemma IndicesOfOne(flag: bool)
    ensures Indices([flag]) == if flag then [0] else []
  {
    assert [flag][..0] == [];
    assert Indices([]) == [];
  }

  /** The state after the one promise was scheduled. */
  function OnePromise(p: Promise): State {
    State(map[p.id := p], {}, [], [], [], [])
  }

  lemma LoadOne(p: Promise)
    ensures Loadable(OnePromise(p).queue, [p.id]) && Load(OnePromise(p).queue, [p.id]) == [p]
  {
  }

  /** A fire whose save fails leaves its promise pending: it fires again exactly
      at a scan inside the window. */
  lemma UnsavedFireFiresAgain(p: Promise, at: int, next: int)
    requires p.status.Pending? && p.at == Some(at)
    ensures var s1 := Step(OnePromise(p), Scan([p.id], at));
            var s2 := Step(Step(s1, FireDone(0, true, false)), FireRelease(0));
            Step(s2, Scan([p.id], next)).fires
            == if at <= next <= at + GRACE then [(p.id, at), (p.id, next)] else [(p.id, at)]
  {
    LoadOne(p);
    hide ScanOf, Load;
    ScanOfOne(OnePromise(p), p, at);
    var s1 := Step(OnePromise(p), Scan([p.id], at));
    assert s1.tasks == [Firing(p)] && s1.busy == {p.chat};
    var s2 := Step(Step(s1, FireDone(0, true, false)), FireRelease(0));
    assert s2.queue == OnePromise(p).queue && s2.busy == {} && s2.tasks == [];
    ScanOfOne(s2, p, next);
  }

  lemma {:induction false} ClaimsOnlyAdd(s: State, due: seq<Promise>, now: int)
    ensures s.tasks <= ClaimAll(s, due, now).tasks
    decreases |due|
  {
    if due != [] {
      ClaimsOnlyAdd(Claim(s, due[0], now), due[1..], now);
    }
  }

  /** Nothing checks whether a missed promise is running: a scan that sees a
      pending promise while its fire runs takes it for missed exactly when the
      fire has outlasted the grace, and the fire runs on. */
  lemma RunningFireIsMissedExactly(s: State, i: nat, order: seq<string>, now: int)
    requires DriverOk(s) && Loadable(s.queue, order)
    requires i < |s.tasks| && s.tasks[i].Firing?
    requires var id := s.tasks[i].promise.id;
             id in order && s.queue[id].status.Pending? && s.queue[id].at.Some?
    ensures var p := s.queue[s.tasks[i].promise.id];
            var s' := Step(s, Scan(order, now));
            && i < |s'.tasks| && s'.tasks[i] == s.tasks[i]
            && s.misses <= s'.misses
            && (p in s'.misses[|s.misses|..] <==> p.at.value + GRACE < now)
  {
    hide Selected, BusyOk, FiresOk, CountOk, ClaimAll;
    var loaded, id := Load(s.queue, order), s.tasks[i].promise.id;
    var flags := MissedFlags(loaded, now, GRACE);
    var late, p := Selected(loaded, flags), s.queue[id];
    SelectedFrom(loaded, flags);
    ScanLeavesQueue(s, loaded, now);
    ClaimsOnlyAdd(s, Selected(loaded, DueFlags(loaded, now, GRACE)), now);
    var s' := Step(s, Scan(order, now));
    assert s'.misses[|s.misses|..] == late;
    var k :| 0 <= k < |order| && order[k] == id;
    assert loaded[k] == p && flags[k] == IsMissed(p, now, GRACE);
    if p in late {
      var j :| 0 <= j < |late| && late[j] == p;
      assert TakenFrom(late[j], loaded, flags);
    }
  }

  /** Such a promise is recorded missed, and fired afterwards. */
  lemma MissedWhileRunning(p: Promise, at: int, later: int)
    requires p.status.Pending? && p.at == Some(at)
    ensures var s1 := Step(OnePromise(p), Scan([p.id], at));
            var s2 := Step(Step(s1, Scan([p.id], later)), Miss(true));
            && s2.tasks == [Firing(p)]
            && (s2.queue == map[p.id := p.(status := Missed)] <==> at + GRACE < later)
            && Step(s2, FireDone(0, true, true)).queue == map[p.id := p.(status := Fired)]
  {
    LoadOne(p);
    hide ScanOf, Load;
    ScanOfOne(OnePromise(p), p, at);
    var s1 := Step(OnePromise(p), Scan([p.id], at));
    assert s1.tasks == [Firing(p)] && s1.queue == OnePromise(p).queue && s1.misses == [];
    ScanOfOne(s1, p, later);
    assert [p][1..] == [] && [] + [p] == [p];
    assert map[p.id := p][p.id] != map[p.id := p.(status := Missed)][p.id];
  }

  /** A claim made from a promise loaded earlier looks at the loaded copy and the
      busy set only: it fires exactly when the copy is due and the chat is free,
      whatever became of the promise in the queue since. */
  lemma StaleClaimExactly(s: State, copy: Promise, now: int)
    ensures var s' := ScanOf(s, [copy], now);
            && (s'.fires == s.fires + [(copy.id, now)] <==> IsDue(copy, now, GRACE) && copy.chat !in s.busy)
            && (s'.fires != s.fires + [(copy.id, now)] ==> s'.fires == s.fires)
            && s'.queue == s.queue
  {
    hide ScanOf;
    ScanOfOne(s, copy, now);
    assert |s.fires + [(copy.id, now)]| == |s.fires| + 1;
  }

  /** Loading and claiming have to be one step: claims made from a queue loaded
      before the fire was saved and released fire the promise again. */
  lemma StaleScanFiresAgain(p: Promise, at: int)
    requires p.status.Pending? && p.at == Some(at)
    ensures var loaded := Load(OnePromise(p).queue, [p.id]);
            var s1 := Step(OnePromise(p), Scan([p.id], at));
            var s2 := Step(Step(s1, FireDone(0, true, true)), FireRelease(0));
            && s2.queue == map[p.id := p.(status := Fired)] && s2.unsaved == []
            && ScanOf(s2, loaded, at).fires == [(p.id, at), (p.id, at)]
  {
    LoadOne(p);
    hide ScanOf, Load;
    ScanOfOne(OnePromise(p), p, at);
    var s1 := Step(OnePromise(p), Scan([p.id], at));
    assert s1.tasks == [Firing(p)] && s1.busy == {p.chat};
    var s2 := Step(Step(s1, FireDone(0, true, true)), FireRelease(0));
    assert s2.busy == {} && s2.tasks == [];
    ScanOfOne(s2, p, at);
  }

  // ---- No promise slips through --------------------------------------------

  /** A promise still waiting at one scan is not missed at the next, if that is at
      most one grace later. */
  lemma WaitingIsNotMissedNext(p: Promise, now: int, next: int, grace: nat)
    requires p.status.Pending? && p.at.Some? && now < p.at.value && next <= now + grace
    ensures !IsMissed(p, next, grace)
    ensures next >= p.at.value ==> IsDue(p, next, grace)
  {
  }

  /** Scans never more than a tick apart see the promise due at least `n` times in
      a row before they can see it missed, when `n` ticks fit in the grace. */
  lemma {:induction false} DueAtLeast(times: seq<int>, at: int, tick: nat, grace: nat, n: nat)
    requires |times| > 0 && times[0] < at && at + grace < times[|times| - 1]
    requires forall k | 0 < k < |times| :: times[k - 1] < times[k] <= times[k - 1] + tick
    requires n * tick <= grace
    ensures exists f: nat :: DueFrom(times, at, grace, f, n)
  {
    var f := FirstAtOrAfter(times, at);
    assert times[f - 1] < at <= times[f];
    var m := 0;
    while m < n
      invariant 0 <= m <= n && f + m < |times|
      invariant times[f + m] < at + (m + 1) * tick
      invariant forall j | f <= j < f + m :: at <= times[j] <= at + grace
    {
      Multiples(m + 1, n, tick);
      Ascends(times, f, f + m);
      assert at <= times[f + m] <= at + grace;
      m := m + 1;
    }
    assert DueFrom(times, at, grace, f, n);
  }

  ghost predicate DueFrom(times: seq<int>, at: int, grace: nat, f: nat, n: nat) {
    f + n < |times| && forall j | f <= j < f + n :: at <= times[j] <= at + grace
  }

  lemma Multiples(m: nat, n: nat, tick: nat)
    requires m <= n
    ensures m * tick <= n * tick
    ensures (m + 1) * tick == m * tick + tick
  {
    if m < n {
      Multiples(m, n - 1, tick);
    }
  }

  function FirstAtOrAfter(times: seq<int>, at: int): (f: nat)
    requires |times| > 0 && times[0] < at <= times[|times| - 1]
    ensures 0 < f < |times| && times[f - 1] < at <= times[f]
    decreases |times|
  {
    if times[|times| - 2] < at then |times| - 1 else FirstAtOrAfter(times[..|times| - 1], at)
  }

  lemma {:induction false} Ascends(times: seq<int>, i: nat, j: nat)
    requires forall k | 0 < k < |times| :: times[k - 1] < times[k]
    requires i <= j < |times|
    ensures times[i] <= times[j]
    decreases j
  {
    if i < j {
      Ascends(times, i, j - 1);
    }
  }

  /** With the driver's constants: due in two scans. */
  lemma DueTwice(times: seq<int>, at: int)
    requires |times| > 0 && times[0] < at && at + 60 < times[|times| - 1]
    requires forall k | 0 < k < |times| :: times[k - 1] < times[k] <= times[k - 1] + 30
    ensures exists f: nat :: DueFrom(times, at, 60, f, 2)
  {
    DueAtLeast(times, at, TICK, GRACE, 2);
  }
}
