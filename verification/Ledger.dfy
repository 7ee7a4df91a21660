/** The privacy ledger's event sink: a frame stack that names the running task
    and a tracker per network call in flight. */
module Ledger {
  import opened Wrappers

  datatype Event =
    | TaskStarted(taskId: Option<string>)
    | TaskResumed(resumedId: string)
    | TaskComplete(completedId: Option<string>)
    | TaskFailed
    | ToolCallRequested(callId: string, tool: string, host: Option<string>)
    | ApprovalResolved(resolvedId: string, approved: bool)
    | ToolExecuted(executedId: string, success: bool)
    | PrivacyStripped(counts: seq<(string, nat)>)
    | Other

  /** What the sink was constructed with. */
  datatype Identity = Identity(tenant: string, task: Option<string>, parent: Option<string>, agent: Option<string>)

  datatype Frame = Frame(task: string, parent: Option<string>)

  datatype Tracker = Tracker(tool: string, site: Option<string>, gate: Option<string>)

  datatype Chain = Chain(task: Option<string>, parent: Option<string>)

  datatype Kind =
    | NetworkCall(tool: string, site: Option<string>, outcome: string, gate: Option<string>)
    | PiiStrip(counts: seq<(string, nat)>)

  datatype Row = Row(tenant: string, chain: Chain, agent: Option<string>, kind: Kind)

  predicate IsNetworkTool(tool: string) {
    tool in ["web_search", "fetch_url", "run_command"]
  }

  // ---- Trackers and rows, under a given chain ------------------------------

  datatype Books = Books(calls: map<string, Tracker>, rows: seq<Row>)

  function NewRow(me: Identity, chain: Chain, kind: Kind): Row {
    Row(me.tenant, chain, me.agent, kind)
  }

  function Book(me: Identity, chain: Chain, b: Books, e: Event): Books {
    match e
    case ToolCallRequested(id, tool, host) =>
      if IsNetworkTool(tool) then
        b.(calls := b.calls[id := Tracker(tool, if tool == "fetch_url" then host else None, None)])
      else b
    case ApprovalResolved(id, approved) =>
      if id !in b.calls then b
      else if approved then b.(calls := b.calls[id := b.calls[id].(gate := Some("human_approved"))])
      else Books(b.calls - {id},
                 b.rows + [NewRow(me, chain,
                                  NetworkCall(b.calls[id].tool, b.calls[id].site, "denied", Some("human_denied")))])
    case ToolExecuted(id, success) =>
      if id !in b.calls then b
      else Books(b.calls - {id},
                 b.rows + [NewRow(me, chain, NetworkCall(b.calls[id].tool, b.calls[id].site,
                                                         if success then "ok" else "error", b.calls[id].gate))])
    case PrivacyStripped(counts) => b.(rows := b.rows + [NewRow(me, chain, PiiStrip(counts))])
    case _ => b
  }

  // ---- The stack -----------------------------------------------------------

  datatype Sink = Sink(frames: seq<Frame>, books: Books)

  function CurrentChain(me: Identity, frames: seq<Frame>): Chain {
    if frames == [] then Chain(me.task, me.parent)
    else Chain(Some(frames[|frames| - 1].task), frames[|frames| - 1].parent)
  }

  predicate OnTop(frames: seq<Frame>, id: string) {
    frames != [] && frames[|frames| - 1].task == id
  }

  function ParentFor(me: Identity, frames: seq<Frame>, id: string): Option<string> {
    if frames != [] then Some(frames[|frames| - 1].task)
    else if me.task == Some(id) then me.parent
    else me.task
  }

  function Push(me: Identity, frames: seq<Frame>, id: string): seq<Frame> {
    if OnTop(frames, id) then frames else frames + [Frame(id, ParentFor(me, frames, id))]
  }

  function Pop(frames: seq<Frame>, id: Option<string>): seq<Frame> {
    if frames != [] && (id.None? || OnTop(frames, id.value)) then frames[..|frames| - 1] else frames
  }

  function Feed(me: Identity, s: Sink, e: Event): Sink {
    match e
    case TaskStarted(id) => if id.Some? then s.(frames := Push(me, s.frames, id.value)) else s
    case TaskResumed(id) => s.(frames := Push(me, s.frames, id))
    case TaskComplete(id) => s.(frames := Pop(s.frames, id))
    case TaskFailed => s.(frames := Pop(s.frames, None))
    case _ => s.(books := Book(me, CurrentChain(me, s.frames), s.books, e))
  }

  function FeedAll(me: Identity, s: Sink, events: seq<Event>): Sink
    decreases |events|
  {
    if events == [] then s else FeedAll(me, Feed(me, s, events[0]), events[1..])
  }

  const EMPTY := Sink([], Books(map[], []))

  class LedgerSink {
    const me: Identity
    var frames: seq<Frame>
    var calls: map<string, Tracker>
    var rows: seq<Row>

    function View(): Sink
      reads this
    {
      Sink(frames, Books(calls, rows))
    }

    constructor (me: Identity)
      ensures this.me == me && View() == EMPTY
    {
      this.me := me;
      frames, calls, rows := [], map[], [];
    }

    method PushTask(id: string)
      modifies this`frames
      ensures frames == Push(me, old(frames), id)
    {
      if frames != [] && frames[|frames| - 1].task == id {
        return;
      }
      var parent := me.task;
      if frames != [] {
        parent := Some(frames[|frames| - 1].task);
      } else if me.task == Some(id) {
        parent := me.parent;
      }
      frames := frames + [Frame(id, parent)];
    }

    method PopTask(id: Option<string>)
      modifies this`frames
      ensures frames == Pop(old(frames), id)
    {
      match id {
        case Some(id) =>
          if frames != [] && frames[|frames| - 1].task == id {
            frames := frames[..|frames| - 1];
          }
        case None =>
          if frames != [] {
            frames := frames[..|frames| - 1];
          }
      }
    }

    method Emit(e: Event)
      modifies this
      ensures View() == Feed(me, old(View()), e)
    {
      match e {
        case TaskStarted(id) =>
          if id.Some? {
            PushTask(id.value);
          }
        case TaskResumed(id) => PushTask(id);
        case TaskComplete(id) => PopTask(id);
        case TaskFailed => PopTask(None);
        case ToolCallRequested(id, tool, host) =>
          if IsNetworkTool(tool) {
            var site := if tool == "fetch_url" then host else None;
            calls := calls[id := Tracker(tool, site, None)];
          }
        case ApprovalResolved(id, approved) =>
          if id in calls {
            var tracker := calls[id];
            if approved {
              calls := calls[id := tracker.(gate := Some("human_approved"))];
            } else {
              calls := calls - {id};
              var kind := NetworkCall(tracker.tool, tracker.site, "denied", Some("human_denied"));
              rows := rows + [NewRow(me, CurrentChain(me, frames), kind)];
            }
          }
        case ToolExecuted(id, success) =>
          if id in calls {
            var tracker := calls[id];
            calls := calls - {id};
            var outcome := if success then "ok" else "error";
            var kind := NetworkCall(tracker.tool, tracker.site, outcome, tracker.gate);
            rows := rows + [NewRow(me, CurrentChain(me, frames), kind)];
          }
        case PrivacyStripped(counts) =>
          rows := rows + [NewRow(me, CurrentChain(me, frames), PiiStrip(counts))];
        case Other =>
      }
    }
  }

  lemma {:induction false} FeedAppend(me: Identity, s: Sink, x: seq<Event>, y: seq<Event>)
    ensures FeedAll(me, s, x + y) == FeedAll(me, FeedAll(me, s, x), y)
    decreases |x|
  {
    hide Feed;
    if x == [] {
      assert x + y == y;
    } else {
      assert (x + y)[1..] == x[1..] + y;
      FeedAppend(me, Feed(me, s, x[0]), x[1..], y);
    }
  }

  // ---- Tasks that nest -----------------------------------------------------

  /** What happens inside a task, in order: its own events and the whole runs of
      the children it spawns. */
  datatype Item = Own(event: Event) | Task(id: string, resumed: bool, items: seq<Item>, failed: bool)

  function FirstOf(t: Item): Event
    requires t.Task?
  {
    if t.resumed then TaskResumed(t.id) else TaskStarted(Some(t.id))
  }

  function LastOf(t: Item): Event
    requires t.Task?
  {
    if t.failed then TaskFailed else TaskComplete(Some(t.id))
  }

  function ItemEvents(items: seq<Item>): seq<Event>
    decreases items
  {
    if items == [] then []
    else
      (if items[0].Own? then [items[0].event]
       else [FirstOf(items[0])] + ItemEvents(items[0].items) + [LastOf(items[0])])
      + ItemEvents(items[1..])
  }

  function TaskEvents(t: Item): seq<Event>
    requires t.Task?
  {
    [FirstOf(t)] + ItemEvents(t.items) + [LastOf(t)]
  }

  predicate IsFrameEvent(e: Event) {
    e.TaskStarted? || e.TaskResumed? || e.TaskComplete? || e.TaskFailed?
  }

  /** No child has the id of the task it runs in. */
  ghost predicate Nested(own: Option<string>, items: seq<Item>)
    decreases items
  {
    items != [] ==>
      && (if items[0].Own? then !IsFrameEvent(items[0].event)
          else own != Some(items[0].id) && Nested(Some(items[0].id), items[0].items))
      && Nested(own, items[1..])
  }

  /** The books of a tree, kept without any stack: every own event under the
      task's real chain. */
  function TreeBooks(me: Identity, chain: Chain, items: seq<Item>, b: Books): Books
    decreases items
  {
    if items == [] then b
    else
      var b1 := if items[0].Own? then Book(me, chain, b, items[0].event)
                else TreeBooks(me, Chain(Some(items[0].id), chain.task), items[0].items, b);
      TreeBooks(me, chain, items[1..], b1)
  }

  lemma FeedOne(me: Identity, s: Sink, e: Event)
    ensures FeedAll(me, s, [e]) == Feed(me, s, e)
  {
    hide Feed;
    assert [e][1..] == [];
  }

  /** Bracketing what leaves the frames alone by a task's first and last event
      leaves the frames alone, and runs it under the task's own frame. */
  lemma Bracket(me: Identity, s: Sink, t: Item, books: Books)
    requires t.Task? && !OnTop(s.frames, t.id)
    requires var inner := s.frames + [Frame(t.id, ParentFor(me, s.frames, t.id))];
             FeedAll(me, Sink(inner, s.books), ItemEvents(t.items)) == Sink(inner, books)
    ensures FeedAll(me, s, TaskEvents(t)) == Sink(s.frames, books)
  {
    hide FeedAll, ItemEvents;
    var inner := s.frames + [Frame(t.id, ParentFor(me, s.frames, t.id))];
    FeedAppend(me, s, [FirstOf(t)] + ItemEvents(t.items), [LastOf(t)]);
    FeedAppend(me, s, [FirstOf(t)], ItemEvents(t.items));
    FeedOne(me, s, FirstOf(t));
    FeedOne(me, Sink(inner, books), LastOf(t));
    assert inner[..|inner| - 1] == s.frames;
  }

  lemma {:induction false} ItemsKeepFrames(me: Identity, s: Sink, items: seq<Item>)
    requires Nested(CurrentChain(me, s.frames).task, items)
    ensures FeedAll(me, s, ItemEvents(items))
         == Sink(s.frames, TreeBooks(me, CurrentChain(me, s.frames), items, s.books))
    decreases items
  {
    hide FeedAll, Book;
    var chain := CurrentChain(me, s.frames);
    if items == [] {
      FeedNothing(me, s);
    } else {
      var t, rest := items[0], ItemEvents(items[1..]);
      if t.Own? {
        FeedAppend(me, s, [t.event], rest);
        FeedOne(me, s, t.event);
        ItemsKeepFrames(me, s.(books := Book(me, chain, s.books, t.event)), items[1..]);
      } else {
        var inner := s.frames + [Frame(t.id, ParentFor(me, s.frames, t.id))];
        var books := TreeBooks(me, Chain(Some(t.id), chain.task), t.items, s.books);
        ItemsKeepFrames(me, Sink(inner, s.books), t.items);
        Bracket(me, s, t, books);
        FeedAppend(me, s, TaskEvents(t), rest);
        ItemsKeepFrames(me, Sink(s.frames, books), items[1..]);
      }
    }
  }

  lemma FeedNothing(me: Identity, s: Sink)
    ensures FeedAll(me, s, []) == s
  {
  }

  /** A whole task, children and all, leaves the stack as it was and writes the
      rows of its tree: exactly when its id is not the one already on top. */
  lemma TaskIsStamped(me: Identity, s: Sink, t: Item)
    requires t.Task? && Nested(Some(t.id), t.items)
    ensures FeedAll(me, s, TaskEvents(t)).frames == s.frames <==> !OnTop(s.frames, t.id)
    ensures var chain := if OnTop(s.frames, t.id) then CurrentChain(me, s.frames)
                         else Chain(Some(t.id), ParentFor(me, s.frames, t.id));
            FeedAll(me, s, TaskEvents(t)).books == TreeBooks(me, chain, t.items, s.books)
  {
    hide FeedAll, ItemEvents, TreeBooks, Nested, Book;
    if OnTop(s.frames, t.id) {
      ItemsKeepFrames(me, s, t.items);
      FeedAppend(me, s, [FirstOf(t)] + ItemEvents(t.items), [LastOf(t)]);
      FeedAppend(me, s, [FirstOf(t)], ItemEvents(t.items));
      FeedOne(me, s, FirstOf(t));
      FeedOne(me, FeedAll(me, s, ItemEvents(t.items)), LastOf(t));
    } else {
      var inner := s.frames + [Frame(t.id, ParentFor(me, s.frames, t.id))];
      ItemsKeepFrames(me, Sink(inner, s.books), t.items);
      Bracket(me, s, t, TreeBooks(me, Chain(Some(t.id), ParentFor(me, s.frames, t.id)), t.items, s.books));
    }
  }

  // ---- Whose rows they are -------------------------------------------------

  /** The chains of the tree: the task's own and those of its descendants. */
  ghost predicate ChainOf(chain: Chain, items: seq<Item>, c: Chain)
    decreases items
  {
    c == chain || ChainBelow(chain, items, c)
  }

  ghost predicate ChainBelow(chain: Chain, items: seq<Item>, c: Chain)
    decreases items, 0
  {
    items != [] &&
      ((items[0].Task? && ChainOf(Chain(Some(items[0].id), chain.task), items[0].items, c))
       || ChainBelow(chain, items[1..], c))
  }

  /** An event writes at most one row, in the name of the chain it runs under. */
  lemma BookStamps(me: Identity, chain: Chain, b: Books, e: Event)
    ensures var b' := Book(me, chain, b, e);
            && b.rows <= b'.rows && |b'.rows| <= |b.rows| + 1
            && forall i | |b.rows| <= i < |b'.rows| ::
                 b'.rows[i].chain == chain && b'.rows[i].tenant == me.tenant && b'.rows[i].agent == me.agent
  {
  }

  /** Every row of a tree names a task of the tree and that task's real parent. */
  lemma {:induction false} RowsNameTheTree(me: Identity, chain: Chain, items: seq<Item>, b: Books)
    ensures var b' := TreeBooks(me, chain, items, b);
            && b.rows <= b'.rows
            && forall i | |b.rows| <= i < |b'.rows| :: ChainOf(chain, items, b'.rows[i].chain)
    decreases items
  {
    hide Book;
    if items != [] {
      var t, rest := items[0], items[1..];
      if t.Own? {
        BookStamps(me, chain, b, t.event);
        RowsNameTheTree(me, chain, rest, Book(me, chain, b, t.event));
      } else {
        var inner := Chain(Some(t.id), chain.task);
        RowsNameTheTree(me, inner, t.items, b);
        RowsNameTheTree(me, chain, rest, TreeBooks(me, inner, t.items, b));
      }
    }
  }

  /** The frames other tasks have open above the frame of `x`, innermost last,
      after the frame events of `events`; `None` once one of them took the frame
      of `x` itself away. */
  function Above(x: string, open: seq<string>, events: seq<Event>): Option<seq<string>>
    decreases |events|
  {
    if events == [] then Some(open)
    else
      var e, rest := events[0], events[1..];
      var top := if open == [] then x else open[|open| - 1];
      if e.TaskResumed? || (e.TaskStarted? && e.taskId.Some?) then
        var id := if e.TaskResumed? then e.resumedId else e.taskId.value;
        Above(x, if top == id then open else open + [id], rest)
      else if e.TaskFailed? || (e.TaskComplete? && (e.completedId.None? || e.completedId.value == top)) then
        if open == [] then None else Above(x, open[..|open| - 1], rest)
      else Above(x, open, rest)
  }

  /** The frames of `open`, each the child of the one below. */
  function Stacked(x: string, open: seq<string>): seq<Frame> {
    if open == [] then []
    else
      var n := |open| - 1;
      Stacked(x, open[..n]) + [Frame(open[n], Some(if n == 0 then x else open[n - 1]))]
  }

  ghost predicate NeverStarts(x: string, events: seq<Event>) {
    forall i | 0 <= i < |events| :: events[i] != TaskStarted(Some(x)) && events[i] != TaskResumed(x)
  }

  lemma StackedMore(x: string, open: seq<string>, id: string)
    ensures Stacked(x, open + [id])
         == Stacked(x, open) + [Frame(id, Some(if open == [] then x else open[|open| - 1]))]
  {
    assert (open + [id])[..|open|] == open;
  }

  lemma {:induction false} StackedLength(x: string, open: seq<string>)
    ensures |Stacked(x, open)| == |open|
    ensures open != [] ==> Stacked(x, open)[|open| - 1].task == open[|open| - 1]
  {
    if open != [] {
      StackedLength(x, open[..|open| - 1]);
    }
  }

  ghost predicate NoFrameOf(x: string, frames: seq<Frame>) {
    forall i | 0 <= i < |frames| :: frames[i].task != x
  }

  lemma {:induction false} NoFrameStays(me: Identity, s: Sink, x: string, events: seq<Event>)
    requires NoFrameOf(x, s.frames) && NeverStarts(x, events)
    ensures NoFrameOf(x, FeedAll(me, s, events).frames)
    decreases |events|
  {
    hide Book;
    if events != [] {
      assert NeverStarts(x, events[1..]) && NoFrameOf(x, Feed(me, s, events[0]).frames);
      NoFrameStays(me, Feed(me, s, events[0]), x, events[1..]);
    }
  }

  /** Whatever interleaving of other tasks follows the start of `x`: while its
      frame is there, the stack is what lay below, that frame, and the open frames
      above it; once it was taken away, no frame of `x` is left. */
  lemma {:induction false} FramesAbove(me: Identity, s: Sink, below: seq<Frame>, own: Frame, open: seq<string>,
                                       events: seq<Event>)
    requires s.frames == below + [own] + Stacked(own.task, open)
    requires NoFrameOf(own.task, below) && NeverStarts(own.task, events)
    ensures var frames, open' := FeedAll(me, s, events).frames, Above(own.task, open, events);
            if open'.Some? then frames == below + [own] + Stacked(own.task, open'.value)
            else NoFrameOf(own.task, frames)
    decreases |events|
  {
    hide Book, Stacked;
    if events != [] {
      var e, x, rest := events[0], own.task, events[1..];
      assert NeverStarts(x, rest);
      StackedLength(x, open);
      var top := if open == [] then x else open[|open| - 1];
      assert CurrentChain(me, s.frames).task == Some(top);
      var open1 := open;
      if e.TaskResumed? || (e.TaskStarted? && e.taskId.Some?) {
        var id := if e.TaskResumed? then e.resumedId else e.taskId.value;
        StackedMore(x, open, id);
        open1 := if top == id then open else open + [id];
        FramesAbove(me, Feed(me, s, e), below, own, open1, rest);
      } else if e.TaskFailed? || (e.TaskComplete? && (e.completedId.None? || e.completedId.value == top)) {
        if open == [] {
          assert s.frames[..|s.frames| - 1] == below;
          NoFrameStays(me, Feed(me, s, e), x, rest);
        } else {
          open1 := open[..|open| - 1];
          StackedMore(x, open1, top);
          assert open == open1 + [top];
          assert s.frames[..|s.frames| - 1] == below + [own] + Stacked(x, open1);
          FramesAbove(me, Feed(me, s, e), below, own, open1, rest);
        }
      } else {
        FramesAbove(me, Feed(me, s, e), below, own, open1, rest);
      }
    }
  }

  /** Outside any task events are booked under the sink's own chain. A task that
      starts or resumes comes under the task booked before it, except that the
      sink's own task keeps its own parent. */
  lemma StartsUnderCurrent(me: Identity, s: Sink, id: string)
    requires !OnTop(s.frames, id)
    ensures var before := CurrentChain(me, s.frames);
            var started, resumed := Feed(me, s, TaskStarted(Some(id))), Feed(me, s, TaskResumed(id));
            && CurrentChain(me, EMPTY.frames) == Chain(me.task, me.parent)
            && started == resumed && started.books == s.books
            && CurrentChain(me, started.frames)
               == Chain(Some(id), if s.frames == [] && me.task == Some(id) then me.parent else before.task)
            && started.frames[..|started.frames| - 1] == s.frames
  {
  }

  /** A child `x` starts and any interleaving of other tasks follows, nested or
      not. An event is then booked in the name of `x` and its real parent exactly
      while its frame is there and no other task's frame is open above; under
      open frames it goes to the innermost of them. */
  lemma StampedRightExactly(me: Identity, s: Sink, x: string, events: seq<Event>, e: Event)
    requires me.task != Some(x) && NoFrameOf(x, s.frames) && NeverStarts(x, events) && !IsFrameEvent(e)
    ensures var mine := Chain(Some(x), ParentFor(me, s.frames, x));
            var open := Above(x, [], events);
            var s1 := FeedAll(me, s, [TaskStarted(Some(x))] + events);
            var booked := CurrentChain(me, s1.frames);
            && Feed(me, s1, e).books == Book(me, booked, s1.books, e)
            && (booked == mine <==> open == Some([]))
            && (open.Some? && open.value != [] ==>
                  var n := |open.value|;
                  booked == Chain(Some(open.value[n - 1]), Some(if n == 1 then x else open.value[n - 2])))
  {
    var own := Frame(x, ParentFor(me, s.frames, x));
    var start := Sink(s.frames + [own], s.books);
    FeedTwo(me, s, TaskStarted(Some(x)), events);
    assert start.frames == s.frames + [own] + Stacked(x, []);
    FramesAbove(me, start, s.frames, own, [], events);
    hide FeedAll, Book, Above;
    var open := Above(x, [], events);
    if open.Some? {
      OthersOpen(x, [], events);
      StackedLength(x, open.value);
    }
  }

  /** Only other tasks are open above `x`. */
  lemma {:induction false} OthersOpen(x: string, open: seq<string>, events: seq<Event>)
    requires x !in open && NeverStarts(x, events) && Above(x, open, events).Some?
    ensures x !in Above(x, open, events).value
    decreases |events|
  {
    if events != [] {
      var e, rest := events[0], events[1..];
      assert NeverStarts(x, rest);
      var top := if open == [] then x else open[|open| - 1];
      if e.TaskResumed? || (e.TaskStarted? && e.taskId.Some?) {
        var id := if e.TaskResumed? then e.resumedId else e.taskId.value;
        OthersOpen(x, if top == id then open else open + [id], rest);
      } else if e.TaskFailed? || (e.TaskComplete? && (e.completedId.None? || e.completedId.value == top)) {
        OthersOpen(x, open[..|open| - 1], rest);
      } else {
        OthersOpen(x, open, rest);
      }
    }
  }

  /** Two children of any task overlap. Before the second one starts the first
      one's events are its own; after that they are booked as the second's, and
      the second passes for a child of the first. */
  lemma OverlapMisstamps(me: Identity, s: Sink, x: string, y: string, e: Event)
    requires x != y && !OnTop(s.frames, x) && !IsFrameEvent(e)
    ensures var alone := FeedAll(me, s, [TaskStarted(Some(x))]);
            var both := FeedAll(me, s, [TaskStarted(Some(x)), TaskStarted(Some(y))]);
            && Feed(me, alone, e).books == Book(me, Chain(Some(x), ParentFor(me, s.frames, x)), s.books, e)
            && Feed(me, both, e).books == Book(me, Chain(Some(y), Some(x)), s.books, e)
  {
    hide Book;
    var start := TaskStarted(Some(y));
    FeedOne(me, s, TaskStarted(Some(x)));
    FeedTwo(me, s, TaskStarted(Some(x)), [start]);
    FeedOne(me, Feed(me, s, TaskStarted(Some(x))), start);
    assert [TaskStarted(Some(x))] + [start] == [TaskStarted(Some(x)), start];
  }

  /** For one: the first child's search is recorded as the second's. */
  lemma ConcurrentSpawnsMisstamp(me: Identity)
    requires me.task == Some("p")
    ensures var frames := Push(me, Push(me, Push(me, [], "p"), "p.1"), "p.2");
            var s := FeedAll(me, EMPTY, [TaskStarted(Some("p")), TaskStarted(Some("p.1")), TaskStarted(Some("p.2")),
                                         ToolCallRequested("c", "web_search", None), ToolExecuted("c", true)]);
            && s.frames == frames && CurrentChain(me, frames) == Chain(Some("p.2"), Some("p.1"))
            && s.books.rows == [NewRow(me, Chain(Some("p.2"), Some("p.1")),
                                       NetworkCall("web_search", None, "ok", None))]
  {
    ThreeStarts(me);
    var frames := Push(me, Push(me, Push(me, [], "p"), "p.1"), "p.2");
    var starts := [TaskStarted(Some("p")), TaskStarted(Some("p.1")), TaskStarted(Some("p.2"))];
    var search := [ToolCallRequested("c", "web_search", None), ToolExecuted("c", true)];
    SearchRow(me, frames);
    hide FeedAll, Push, CurrentChain;
    FeedAppend(me, EMPTY, starts, search);
    assert starts + search == [TaskStarted(Some("p")), TaskStarted(Some("p.1")), TaskStarted(Some("p.2")),
                               ToolCallRequested("c", "web_search", None), ToolExecuted("c", true)];
  }

  lemma ThreeStarts(me: Identity)
    requires me.task == Some("p")
    ensures var frames := Push(me, Push(me, Push(me, [], "p"), "p.1"), "p.2");
            && FeedAll(me, EMPTY, [TaskStarted(Some("p")), TaskStarted(Some("p.1")), TaskStarted(Some("p.2"))])
               == Sink(frames, EMPTY.books)
            && CurrentChain(me, frames) == Chain(Some("p.2"), Some("p.1"))
  {
    var x, y, z := TaskStarted(Some("p")), TaskStarted(Some("p.1")), TaskStarted(Some("p.2"));
    var f1 := Push(me, [], "p");
    var f2 := Push(me, f1, "p.1");
    assert f1 == [Frame("p", me.parent)] && f2 == f1 + [Frame("p.1", Some("p"))];
    assert Push(me, f2, "p.2") == f2 + [Frame("p.2", Some("p.1"))];
    hide FeedAll, Push;
    FeedTwo(me, EMPTY, x, [y, z]);
    FeedTwo(me, Sink(f1, EMPTY.books), y, [z]);
    FeedOne(me, Sink(f2, EMPTY.books), z);
    assert [x] + [y, z] == [x, y, z] && [y] + [z] == [y, z];
  }

  lemma SearchRow(me: Identity, frames: seq<Frame>)
    ensures FeedAll(me, Sink(frames, EMPTY.books),
                    [ToolCallRequested("c", "web_search", None), ToolExecuted("c", true)]).frames
            == frames
    ensures FeedAll(me, Sink(frames, EMPTY.books),
                    [ToolCallRequested("c", "web_search", None), ToolExecuted("c", true)]).books.rows
            == [NewRow(me, CurrentChain(me, frames), NetworkCall("web_search", None, "ok", None))]
  {
    var request, run := ToolCallRequested("c", "web_search", None), ToolExecuted("c", true);
    var s1 := Feed(me, Sink(frames, EMPTY.books), request);
    hide FeedAll;
    FeedTwo(me, Sink(frames, EMPTY.books), request, [run]);
    FeedOne(me, s1, run);
    assert [request] + [run] == [request, run];
  }

  lemma FeedTwo(me: Identity, s: Sink, e: Event, events: seq<Event>)
    ensures FeedAll(me, s, [e] + events) == FeedAll(me, Feed(me, s, e), events)
  {
    hide Feed;
    assert ([e] + events)[1..] == events;
  }

  // ---- One row per request -------------------------------------------------

  /** A request whose tool uses the network. */
  predicate TracksCall(e: Event) {
    e.ToolCallRequested? && (e.tool == "web_search" || e.tool == "fetch_url" || e.tool == "run_command")
  }

  function Tracked(events: seq<Event>): nat {
    if events == [] then 0 else (if TracksCall(events[0]) then 1 else 0) + Tracked(events[1..])
  }

  function NetworkRows(rows: seq<Row>): nat {
    if rows == [] then 0
    else NetworkRows(rows[..|rows| - 1]) + if rows[|rows| - 1].kind.NetworkCall? then 1 else 0
  }

  lemma NetworkRowsMore(rows: seq<Row>, row: Row)
    ensures NetworkRows(rows + [row]) == NetworkRows(rows) + if row.kind.NetworkCall? then 1 else 0
  {
    assert (rows + [row])[..|rows|] == rows;
  }

  function Balance(b: Books): nat {
    NetworkRows(b.rows) + |b.calls|
  }

  lemma RequestBalance(b: Books, id: string, t: Tracker)
    ensures Balance(b.(calls := b.calls[id := t])) <= Balance(b) + if id in b.calls then 0 else 1
  {
    hide NetworkRows;
    UpdateSize(b.calls, id, t);
  }

  lemma ClosingBalance(b: Books, id: string, row: Row)
    requires id in b.calls
    ensures Balance(Books(b.calls - {id}, b.rows + [row])) <= Balance(b)
  {
    UpdateSize(b.calls, id, b.calls[id]);
    NetworkRowsMore(b.rows, row);
    hide NetworkRows;
  }

  lemma StripBalance(b: Books, row: Row)
    requires row.kind.PiiStrip?
    ensures Balance(b.(rows := b.rows + [row])) == Balance(b)
  {
    NetworkRowsMore(b.rows, row);
    hide NetworkRows;
  }

  lemma BookBalance(me: Identity, chain: Chain, b: Books, e: Event)
    ensures Balance(Book(me, chain, b, e)) <= Balance(b) + if TracksCall(e) then 1 else 0
  {
    hide Balance;
    var b' := Book(me, chain, b, e);
    match e {
      case ToolCallRequested(id, tool, _) =>
        if IsNetworkTool(tool) {
          RequestBalance(b, id, b'.calls[id]);
        }
      case ApprovalResolved(id, approved) =>
        if id in b.calls {
          if approved {
            RequestBalance(b, id, b'.calls[id]);
          } else {
            ClosingBalance(b, id, b'.rows[|b.rows|]);
          }
        }
      case ToolExecuted(id, _) =>
        if id in b.calls {
          ClosingBalance(b, id, b'.rows[|b.rows|]);
        }
      case PrivacyStripped(_) => StripBalance(b, b'.rows[|b.rows|]);
      case _ =>
    }
  }

  lemma FeedBalance(me: Identity, s: Sink, e: Event)
    ensures Balance(Feed(me, s, e).books) <= Balance(s.books) + if TracksCall(e) then 1 else 0
  {
    hide Balance, Book;
    BookBalance(me, CurrentChain(me, s.frames), s.books, e);
  }

  lemma UpdateSize(m: map<string, Tracker>, id: string, t: Tracker)
    ensures |m[id := t]| == |m| + if id in m then 0 else 1
    ensures |m - {id}| == |m| - if id in m then 1 else 0
  {
    assert (m - {id}).Keys == m.Keys - {id};
    assert m[id := t].Keys == m.Keys + {id};
  }

  /** Whatever the stream, nested or not: the network rows and the calls still
      tracked are never more than the network calls requested. */
  lemma {:induction false} AtMostOneRowEach(me: Identity, s: Sink, events: seq<Event>)
    ensures var s' := FeedAll(me, s, events);
            NetworkRows(s'.books.rows) + |s'.books.calls|
            <= NetworkRows(s.books.rows) + |s.books.calls| + Tracked(events)
    decreases |events|
  {
    hide Feed, NetworkRows;
    if events != [] {
      FeedBalance(me, s, events[0]);
      AtMostOneRowEach(me, Feed(me, s, events[0]), events[1..]);
    }
  }

  // ---- What a row says about its call --------------------------------------

  predicate Closes(e: Event, id: string) {
    e == ApprovalResolved(id, false) || (e.ToolExecuted? && e.executedId == id)
  }

  /** The request at `j` is the one that is open for `id` after `events`. */
  ghost predicate OpenAt(events: seq<Event>, id: string, j: nat) {
    && j < |events| && TracksCall(events[j]) && events[j].callId == id
    && forall k | j < k < |events| ::
         !Closes(events[k], id) && !(TracksCall(events[k]) && events[k].callId == id)
  }

  ghost predicate ApprovedSince(events: seq<Event>, id: string, j: nat) {
    exists k :: j < k < |events| && events[k] == ApprovalResolved(id, true)
  }

  ghost predicate TrackerTells(events: seq<Event>, id: string, t: Tracker) {
    exists j: nat :: TrackerTellsAt(events, id, t, j)
  }

  ghost predicate TrackerTellsAt(events: seq<Event>, id: string, t: Tracker, j: nat) {
    && j < |events| && TracksCall(events[j]) && OpenAt(events, id, j)
    && t.tool == events[j].tool
    && t.site == (if events[j].tool == "fetch_url" then events[j].host else None)
    && t.gate == (if ApprovedSince(events, id, j) then Some("human_approved") else None)
  }

  ghost predicate CallsTell(events: seq<Event>, calls: map<string, Tracker>) {
    && (forall id | id in calls :: TrackerTells(events, id, calls[id]))
    && (forall id, j: nat | OpenAt(events, id, j) :: id in calls)
  }

  lemma OpenStays(events: seq<Event>, e: Event, id: string, j: nat)
    requires j < |events|
    ensures OpenAt(events + [e], id, j)
            <==> OpenAt(events, id, j) && !Closes(e, id) && !(TracksCall(e) && e.callId == id)
  {
    var more := events + [e];
    if OpenAt(more, id, j) {
      assert more[|events|] == e;
      forall k | j < k < |events|
        ensures !Closes(events[k], id) && !(TracksCall(events[k]) && events[k].callId == id)
      {
        assert more[k] == events[k];
      }
    }
  }

  lemma ApprovedStays(events: seq<Event>, e: Event, id: string, j: nat)
    requires j < |events|
    ensures ApprovedSince(events + [e], id, j) <==> ApprovedSince(events, id, j) || e == ApprovalResolved(id, true)
  {
    var more := events + [e];
    if ApprovedSince(events, id, j) {
      var k :| j < k < |events| && events[k] == ApprovalResolved(id, true);
      assert more[k] == events[k];
    }
    if e == ApprovalResolved(id, true) {
      assert more[|events|] == e;
    }
  }

  lemma NewTracker(events: seq<Event>, e: Event)
    requires TracksCall(e)
    ensures TrackerTells(events + [e], e.callId, Tracker(e.tool, if e.tool == "fetch_url" then e.host else None, None))
  {
    var more := events + [e];
    assert more[|events|] == e;
    assert OpenAt(more, e.callId, |events|);
    assert !ApprovedSince(more, e.callId, |events|);
    assert TrackerTellsAt(more, e.callId, Tracker(e.tool, if e.tool == "fetch_url" then e.host else None, None),
                          |events|);
  }

  lemma TrackerStays(events: seq<Event>, e: Event, id: string, t: Tracker)
    requires TrackerTells(events, id, t) && !Closes(e, id) && !(TracksCall(e) && e.callId == id)
    ensures TrackerTells(events + [e], id,
                         if e == ApprovalResolved(id, true) then t.(gate := Some("human_approved")) else t)
  {
    hide OpenAt, ApprovedSince;
    var j: nat :| TrackerTellsAt(events, id, t, j);
    OpenStays(events, e, id, j);
    ApprovedStays(events, e, id, j);
    assert (events + [e])[j] == events[j];
    var t' := if e == ApprovalResolved(id, true) then t.(gate := Some("human_approved")) else t;
    assert TrackerTellsAt(events + [e], id, t', j);
  }

  lemma OpenInRange(events: seq<Event>, id: string, j: nat)
    requires OpenAt(events, id, j)
    ensures j < |events| && TracksCall(events[j]) && events[j].callId == id
  {
  }

  /** One event keeps the trackers telling the history. */
  lemma CallsStillTell(me: Identity, chain: Chain, b: Books, events: seq<Event>, e: Event)
    requires CallsTell(events, b.calls)
    ensures CallsTell(events + [e], Book(me, chain, b, e).calls)
  {
    hide TrackerTells, OpenAt;
    var more, calls := events + [e], Book(me, chain, b, e).calls;
    forall id | id in calls
      ensures TrackerTells(more, id, calls[id])
    {
      if TracksCall(e) && e.callId == id {
        NewTracker(events, e);
      } else {
        TrackerStays(events, e, id, b.calls[id]);
      }
    }
    forall id, j: nat | OpenAt(more, id, j)
      ensures id in calls
    {
      OpenInRange(more, id, j);
      if j < |events| {
        OpenStays(events, e, id, j);
        assert id in b.calls;
      }
    }
  }

  /** After any stream a tracker exists for a call exactly when the call has an
      open request, and tells that request's tool and site and whether a human
      approved it since. A row is written from the tracker of its call, so it
      says the same. */
  lemma {:induction false} TrackersTellTheHistory(me: Identity, events: seq<Event>)
    ensures CallsTell(events, FeedAll(me, EMPTY, events).books.calls)
    decreases |events|
  {
    hide Feed, CallsTell;
    if events == [] {
      NothingToTell();
    } else {
      var before, e := events[..|events| - 1], events[|events| - 1];
      assert events == before + [e];
      TrackersTellTheHistory(me, before);
      FeedAppend(me, EMPTY, before, [e]);
      FeedOne(me, FeedAll(me, EMPTY, before), e);
      FeedStillTells(me, FeedAll(me, EMPTY, before), before, e);
    }
  }

  lemma OneOpenRequest(events: seq<Event>, id: string, j: nat, k: nat)
    requires OpenAt(events, id, j) && OpenAt(events, id, k)
    ensures j == k
  {
  }

  /** The row that closes the open request `j` of a call: its tool and site, the
      outcome, and whether a human approved or denied it. */
  function ClosingKind(events: seq<Event>, id: string, j: nat, e: Event, approved: bool): Kind
    requires j < |events| && TracksCall(events[j]) && Closes(e, id)
  {
    NetworkCall(events[j].tool, if events[j].tool == "fetch_url" then events[j].host else None,
                if e.ApprovalResolved? then "denied" else if e.success then "ok" else "error",
                if e.ApprovalResolved? then Some("human_denied")
                else if approved then Some("human_approved") else None)
  }

  lemma ClosingRow(me: Identity, events: seq<Event>, e: Event, id: string, j: nat)
    requires OpenAt(events, id, j) && Closes(e, id)
    ensures var s := FeedAll(me, EMPTY, events);
            Feed(me, s, e).books.rows
            == s.books.rows
               + [NewRow(me, CurrentChain(me, s.frames), ClosingKind(events, id, j, e, ApprovedSince(events, id, j)))]
  {
    hide FeedAll, ApprovedSince;
    var s := FeedAll(me, EMPTY, events);
    TrackersTellTheHistory(me, events);
    var t := s.books.calls[id];
    var k: nat :| TrackerTellsAt(events, id, t, k);
    OneOpenRequest(events, id, j, k);
  }

  // ---- Strips, and events that leave no row --------------------------------

  /** What was stripped, strip by strip. */
  function StripsIn(events: seq<Event>): seq<seq<(string, nat)>> {
    if events == [] then []
    else (if events[0].PrivacyStripped? then [events[0].counts] else []) + StripsIn(events[1..])
  }

  function StripRows(rows: seq<Row>): seq<seq<(string, nat)>> {
    if rows == [] then []
    else
      StripRows(rows[..|rows| - 1])
      + if rows[|rows| - 1].kind.PiiStrip? then [rows[|rows| - 1].kind.counts] else []
  }

  lemma StripRowsMore(rows: seq<Row>, row: Row)
    ensures StripRows(rows + [row]) == StripRows(rows) + if row.kind.PiiStrip? then [row.kind.counts] else []
  {
    assert (rows + [row])[..|rows|] == rows;
  }

  lemma FeedStrips(me: Identity, s: Sink, e: Event)
    ensures StripRows(Feed(me, s, e).books.rows)
         == StripRows(s.books.rows) + if e.PrivacyStripped? then [e.counts] else []
  {
    hide StripRows;
    var rows, rows' := s.books.rows, Feed(me, s, e).books.rows;
    if rows' != rows {
      StripRowsMore(rows, rows'[|rows|]);
      assert rows' == rows + [rows'[|rows|]];
    }
  }

  /** Whatever else happens, each strip leaves exactly one row with its counts,
      in order. */
  lemma {:induction false} StripsAreRecorded(me: Identity, s: Sink, events: seq<Event>)
    ensures StripRows(FeedAll(me, s, events).books.rows) == StripRows(s.books.rows) + StripsIn(events)
    decreases |events|
  {
    hide Feed, StripRows;
    if events != [] {
      FeedStrips(me, s, events[0]);
      StripsAreRecorded(me, Feed(me, s, events[0]), events[1..]);
    }
  }

  /** Neither a strip nor the end of an open request: no row. */
  lemma OthersLeaveNoRow(me: Identity, events: seq<Event>, e: Event)
    requires !e.PrivacyStripped? && forall id, j: nat | OpenAt(events, id, j) :: !Closes(e, id)
    ensures var s := FeedAll(me, EMPTY, events); Feed(me, s, e).books.rows == s.books.rows
  {
    hide FeedAll, ApprovedSince;
    var s := FeedAll(me, EMPTY, events);
    TrackersTellTheHistory(me, events);
    forall id | id in s.books.calls
      ensures !Closes(e, id)
    {
      var j: nat :| TrackerTellsAt(events, id, s.books.calls[id], j);
      assert OpenAt(events, id, j);
    }
  }

  lemma NothingToTell()
    ensures CallsTell([], map[])
  {
  }

  lemma FeedStillTells(me: Identity, s: Sink, events: seq<Event>, e: Event)
    requires CallsTell(events, s.books.calls)
    ensures CallsTell(events + [e], Feed(me, s, e).books.calls)
  {
    hide CallsTell;
    CallsStillTell(me, CurrentChain(me, s.frames), s.books, events, e);
  }
}
