/** Lives of a task: iterations, crashes at any point of an iteration and the
    resumes after them, in any order. */
module Crashes {
  import opened Wrappers
  import opened Messages
  import opened Gate
  import opened AgentLoop
  import opened Conversation
  import opened Counters
  import opened GateSafety
  import opened Coverage
  import opened Checkpoints
  import opened Lifetime

  /** `hist` are the events of the iterations the state remembers; `wire` is all
      that really happened, lost iterations included. A life is `whole` while no
      run that ended by the one-shot exit was resumed. */
  datatype Life<W> = Life(p: Prompts, conv: seq<Message>, g: Guard, w: W, used: nat,
                          hist: seq<Event>, wire: seq<Event>, live: bool, whole: bool)

  /** A crash loses the iteration after its first `cut` events; the resume finds
      whatever world there then is and the system prompt of the day. A run that
      ended can be suspended all the same, and resumed from its last checkpoint. */
  datatype Move<W> =
    | Iterate
    | Crash(cut: nat, world: W, systemPrompt: string)
    | Revive(world: W, systemPrompt: string)

  function FirstEvents(events: seq<Event>, n: nat): seq<Event> {
    if n <= |events| then events[..n] else events
  }

  function Advance<W>(a: Agent, env: Env<W>, h: Handle, s: Life<W>, move: Move<W>): (s': Life<W>)
    requires s.conv != []
    ensures s'.conv != []
  {
    if move.Revive? then
      if s.live then s else Revived(env, h, s, move.world, move.systemPrompt)
    else if !s.live || s.used >= a.maxSteps then s
    else
      var t := RunTurn(a, env, s.p, s.conv, s.g, s.w);
      if move.Iterate? then
        s.(conv := t.conv, g := t.g, w := t.w, used := s.used + 1,
           hist := s.hist + t.events, wire := s.wire + t.events, live := t.end.None?)
      else
        var cp := MakeCheckpoint(env.strip, h, Running, s.p.prompt, s.conv, s.g, s.used + 1, None);
        var r := Restore(move.systemPrompt, cp);
        s.(p := r.p, conv := r.conv, g := r.g, w := move.world, used := r.stepsUsed,
           wire := s.wire + FirstEvents(t.events, move.cut))
  }

  /** The last checkpoint of an ended run, suspended and resumed. */
  function Revived<W>(env: Env<W>, h: Handle, s: Life<W>, world: W, systemPrompt: string): (s': Life<W>)
    ensures s'.conv != []
  {
    var cp := MakeCheckpoint(env.strip, h, Suspended, s.p.prompt, s.conv, s.g, s.used, None);
    var r := Restore(systemPrompt, cp);
    s.(p := r.p, conv := r.conv, g := r.g, w := world, used := r.stepsUsed,
       live := true, whole := s.whole && !EndsInCalls(s.conv))
  }

  function Live<W>(a: Agent, env: Env<W>, h: Handle, s: Life<W>, moves: seq<Move<W>>): Life<W>
    requires s.conv != []
    decreases |moves|
  {
    if moves == [] then s else Live(a, env, h, Advance(a, env, h, s, moves[0]), moves[1..])
  }

  function Start<W>(a: Agent, env: Env<W>, systemPrompt: string, continuity: Option<string>, prompt: string,
                    w: W): Life<W> {
    Life(PromptsOf(a, env, prompt), Opening(systemPrompt, continuity, prompt), FRESH, w, 0, [], [], true, true)
  }

  /** What holds at every moment of every whole life: a live conversation is good
      and its counters agree with the history; an ended one may end in the calls
      of a one-shot exit instead. */
  ghost predicate Sound<W>(s: Life<W>) {
    && TraceOk(s.hist)
    && RequestsWellFormed(s.wire)
    && (EndsInCalls(s.conv) || (Good(s.conv) && LoopOk(s.conv, s.g, s.hist)))
    && (s.live ==> !EndsInCalls(s.conv))
  }

  /** What holds at every moment of every life. */
  ghost predicate LifeOk<W>(a: Agent, s: Life<W>) {
    && s.conv != []
    && GateSafe(a, s.wire) && Covered(s.wire)
    && |ChatLog(s.wire)| <= s.used <= a.maxSteps
    && (s.whole ==> Sound(s))
  }

  // ---- What a turn puts on the wire ----------------------------------------

  lemma {:induction false} ChatLogHas(events: seq<Event>, i: nat)
    requires i < |events| && events[i].ChatRequested?
    ensures events[i].messages in ChatLog(events)
  {
    if i > 0 {
      ChatLogHas(events[1..], i - 1);
    }
  }

  lemma TurnRequests<W>(a: Agent, env: Env<W>, p: Prompts, conv: seq<Message>, g: Guard, w: W)
    requires Good(conv)
    ensures RequestsWellFormed(RunTurn(a, env, p, conv, g, w).events)
  {
    hide RunTurn, WellFormedRequest, Good, ChatLog, Window, Outgoing;
    GoodIsNonempty(conv);
    var events := RunTurn(a, env, p, conv, g, w).events;
    WindowIsGood(conv);
    OutgoingIsGood(a, env, Window(conv));
    TurnAsksOnce(a, env, p, conv, g, w);
    forall i | 0 <= i < |events| && events[i].ChatRequested?
      ensures WellFormedRequest(events[i].messages)
    {
      ChatLogHas(events, i);
    }
  }

  lemma GoodIsNonempty(conv: seq<Message>)
    requires Good(conv)
    ensures conv != []
  {
  }

  lemma RequestsConcat(x: seq<Event>, y: seq<Event>)
    requires RequestsWellFormed(x) && RequestsWellFormed(y)
    ensures RequestsWellFormed(x + y)
  {
    hide WellFormedRequest;
  }

  /** The wire stays right when a part of a turn is added, from any conversation. */
  lemma WireKeeps<W>(a: Agent, env: Env<W>, p: Prompts, conv: seq<Message>, g: Guard, w: W, wire: seq<Event>, n: nat)
    requires conv != [] && GateSafe(a, wire) && Covered(wire)
    ensures var more := FirstEvents(RunTurn(a, env, p, conv, g, w).events, n);
            && GateSafe(a, wire + more) && Covered(wire + more)
            && |ChatLog(wire + more)| <= |ChatLog(wire)| + 1
  {
    hide RunTurn, ChatLog, GateSafe, Covered, Outgoing, Window;
    var events := RunTurn(a, env, p, conv, g, w).events;
    var more := FirstEvents(events, n);
    TurnIsGateSafe(a, env, p, conv, g, w);
    TurnAsksOnce(a, env, p, conv, g, w);
    if n <= |events| {
      GateSafePrefix(a, events, n);
      assert events == events[..n] + events[n..];
      ChatLogAppend(events[..n], events[n..]);
    }
    assert events[..|events|] == events;
    FirstEventsCovered(a, env, p, conv, g, w, |more|);
    CoveredTogether(wire, more);
    GateSafeConcat(a, wire, more);
    ChatLogAppend(wire, more);
  }

  /** And its requests well formed, from a good one. */
  lemma WireStaysFormed<W>(a: Agent, env: Env<W>, p: Prompts, conv: seq<Message>, g: Guard, w: W,
                           wire: seq<Event>, n: nat)
    requires Good(conv) && RequestsWellFormed(wire)
    ensures conv != [] && RequestsWellFormed(wire + FirstEvents(RunTurn(a, env, p, conv, g, w).events, n))
  {
    hide RunTurn, WellFormedRequest, Good;
    GoodIsNonempty(conv);
    TurnRequests(a, env, p, conv, g, w);
    RequestsConcat(wire, FirstEvents(RunTurn(a, env, p, conv, g, w).events, n));
  }

  // ---- Every move keeps it -------------------------------------------------

  lemma IterateKeeps<W(!new)>(a: Agent, env: Env<W>, h: Handle, s: Life<W>)
    requires HonestExecutor(env) && LifeOk(a, s) && s.live && s.used < a.maxSteps
    ensures LifeOk(a, Advance(a, env, h, s, Iterate))
  {
    hide RunTurn, ChatLog, GateSafe, Covered, RequestsWellFormed, TraceOk, LoopOk, Good, OneShotExit, EndsInCalls;
    var t := RunTurn(a, env, s.p, s.conv, s.g, s.w);
    WireKeeps(a, env, s.p, s.conv, s.g, s.w, s.wire, |t.events|);
    assert FirstEvents(t.events, |t.events|) == t.events;
    if s.whole {
      WireStaysFormed(a, env, s.p, s.conv, s.g, s.w, s.wire, |t.events|);
      TurnKeepsGood(a, env, s.p, s.conv, s.g, s.w);
      TurnKeepsCounts(a, env, s.p, s.conv, s.g, s.w, s.hist);
      if Good(t.conv) {
        GoodEndsAnswered(t.conv);
      }
    }
  }

  lemma ResumeKeepsLoop(strip: string -> string, systemPrompt: string, conv: seq<Message>, g: Guard, hist: seq<Event>)
    requires Shape(conv) && LoopOk(conv, g, hist)
    ensures LoopOk([SystemMessage(systemPrompt)] + Stored(strip, conv), g.(lastGood := StripOption(strip, g.lastGood)),
                   hist)
  {
    hide TallyOf, ToolCount, NamesOk, TraceOk, Stored, Shape, TrailingRun;
    ResumeKeepsToolCount(strip, systemPrompt, conv);
  }

  lemma CrashKeeps<W(!new)>(a: Agent, env: Env<W>, h: Handle, s: Life<W>, cut: nat, world: W, systemPrompt: string)
    requires LifeOk(a, s) && s.live && s.used < a.maxSteps
    ensures LifeOk(a, Advance(a, env, h, s, Crash(cut, world, systemPrompt)))
  {
    hide RunTurn, ChatLog, GateSafe, Covered, RequestsWellFormed, TraceOk, LoopOk, Good, Stored, FirstEvents,
         EndsInCalls;
    WireKeeps(a, env, s.p, s.conv, s.g, s.w, s.wire, cut);
    if s.whole {
      WireStaysFormed(a, env, s.p, s.conv, s.g, s.w, s.wire, cut);
      ResumeKeepsState(env.strip, systemPrompt, s.conv, s.g, s.hist);
    }
  }

  lemma ResumeKeepsState(strip: string -> string, systemPrompt: string, conv: seq<Message>, g: Guard, hist: seq<Event>)
    requires Good(conv) && LoopOk(conv, g, hist)
    ensures var conv' := [SystemMessage(systemPrompt)] + Stored(strip, conv);
            && Good(conv') && !EndsInCalls(conv')
            && LoopOk(conv', g.(lastGood := StripOption(strip, g.lastGood)), hist)
  {
    hide Good, LoopOk, Stored, EndsInCalls;
    GoodHasShape(conv);
    ResumeKeepsLoop(strip, systemPrompt, conv, g, hist);
    ResumeKeepsGood(strip, systemPrompt, conv);
    GoodEndsAnswered([SystemMessage(systemPrompt)] + Stored(strip, conv));
  }

  lemma ReviveKeeps<W(!new)>(a: Agent, env: Env<W>, h: Handle, s: Life<W>, world: W, systemPrompt: string)
    requires LifeOk(a, s) && !s.live
    ensures LifeOk(a, Revived(env, h, s, world, systemPrompt))
  {
    hide ChatLog, GateSafe, Covered, RequestsWellFormed, TraceOk, LoopOk, Good, Stored, EndsInCalls;
    if s.whole && !EndsInCalls(s.conv) {
      ResumeKeepsState(env.strip, systemPrompt, s.conv, s.g, s.hist);
    }
  }

  lemma GoodHasShape(conv: seq<Message>)
    requires Good(conv)
    ensures Shape(conv)
  {
  }

  lemma {:induction false} LiveKeeps<W(!new)>(a: Agent, env: Env<W>, h: Handle, s: Life<W>, moves: seq<Move<W>>)
    requires HonestExecutor(env) && LifeOk(a, s)
    ensures LifeOk(a, Live(a, env, h, s, moves))
    decreases |moves|
  {
    hide RunTurn, LifeOk, Revived, MakeCheckpoint, Restore, FirstEvents, HonestExecutor;
    if moves != [] {
      LifeIsNonempty(a, s);
      match moves[0] {
        case Iterate =>
          if s.live && s.used < a.maxSteps {
            IterateKeeps(a, env, h, s);
          }
        case Crash(cut, world, systemPrompt) =>
          if s.live && s.used < a.maxSteps {
            CrashKeeps(a, env, h, s, cut, world, systemPrompt);
          }
        case Revive(world, systemPrompt) =>
          if !s.live {
            ReviveKeeps(a, env, h, s, world, systemPrompt);
          }
      }
      LiveKeeps(a, env, h, Advance(a, env, h, s, moves[0]), moves[1..]);
    }
  }

  lemma LifeIsNonempty<W>(a: Agent, s: Life<W>)
    requires LifeOk(a, s)
    ensures s.conv != []
  {
    hide GateSafe, Covered, Sound, ChatLog;
  }

  lemma StartIsOk<W>(a: Agent, env: Env<W>, systemPrompt: string, continuity: Option<string>, prompt: string, w: W)
    ensures LifeOk(a, Start(a, env, systemPrompt, continuity, prompt, w))
  {
    hide Good, LoopOk, TraceOk, GateSafe, Covered, RequestsWellFormed, ChatLog, Opening, PromptsOf, EndsInCalls;
    OpeningIsGood(systemPrompt, continuity, prompt);
    GoodEndsAnswered(Opening(systemPrompt, continuity, prompt));
    NothingHappenedYet(a);
    ChatLogEmpty();
  }

  lemma OpeningIsGood(systemPrompt: string, continuity: Option<string>, prompt: string)
    ensures var conv := Opening(systemPrompt, continuity, prompt);
            conv != [] && Good(conv) && LoopOk(conv, FRESH, [])
  {
    var conv := Opening(systemPrompt, continuity, prompt);
    NoTools(conv);
    TallyEmpty();
    hide ToolCount, TallyOf, EventOk, AnsweredAt;
  }

  lemma NothingHappenedYet(a: Agent)
    ensures TraceOk([]) && RequestsWellFormed([]) && GateSafe(a, []) && Covered([])
  {
    hide EventOk, WellFormedRequest, AllowedIn, CoveredFor;
    forall call: ToolCall
      ensures CoveredFor([], call)
    {
      IdleIsCovered([], call);
    }
  }

  /** The part of the next iteration that a crash lets happen still nudges and
      audits rightly after the history the state remembers. */
  ghost predicate LostTurnOk<W>(a: Agent, env: Env<W>, s: Life<W>)
    requires s.conv != []
  {
    s.live && s.whole && s.used < a.maxSteps ==>
      forall cut: nat :: TraceOk(s.hist + FirstEvents(RunTurn(a, env, s.p, s.conv, s.g, s.w).events, cut))
  }

  lemma TracePart(hist: seq<Event>, more: seq<Event>, cut: nat)
    requires TraceOk(hist + more)
    ensures TraceOk(hist + FirstEvents(more, cut))
  {
    hide EventOk;
    var part := hist + FirstEvents(more, cut);
    forall i | 0 <= i < |part|
      ensures EventOk(part[..i], part[i])
    {
      assert part[..i] == (hist + more)[..i];
    }
  }

  lemma LostTurnIsOk<W(!new)>(a: Agent, env: Env<W>, s: Life<W>)
    requires HonestExecutor(env) && LifeOk(a, s)
    ensures LostTurnOk(a, env, s)
  {
    hide RunTurn, TraceOk, FirstEvents, HonestExecutor, Good, GateSafe, Covered, RequestsWellFormed, ChatLog, LoopOk,
         EndsInCalls;
    if s.live && s.whole && s.used < a.maxSteps {
      TurnKeepsCounts(a, env, s.p, s.conv, s.g, s.w, s.hist);
      forall cut: nat
        ensures TraceOk(s.hist + FirstEvents(RunTurn(a, env, s.p, s.conv, s.g, s.w).events, cut))
      {
        TracePart(s.hist, RunTurn(a, env, s.p, s.conv, s.g, s.w).events, cut);
      }
    }
  }

  /** Over any number of crashes, resumes and revivals of ended runs: every
      executor run has its gate pass behind it, no call outruns its passes, and no
      more requests are made than iterations are allowed. While no one-shot exit
      was revived, every chat request is well formed and inside the window and the
      counters and nudges are right, those of an iteration about to be lost
      included. */
  lemma EveryLifeIsOk<W(!new)>(a: Agent, env: Env<W>, h: Handle, systemPrompt: string, continuity: Option<string>,
                               prompt: string, w: W, moves: seq<Move<W>>)
    requires HonestExecutor(env)
    ensures var s := Live(a, env, h, Start(a, env, systemPrompt, continuity, prompt, w), moves);
            LifeOk(a, s) && LostTurnOk(a, env, s)
  {
    hide LifeOk, LostTurnOk, HonestExecutor;
    StartIsOk(a, env, systemPrompt, continuity, prompt, w);
    var start := Start(a, env, systemPrompt, continuity, prompt, w);
    LiveKeeps(a, env, h, start, moves);
    LostTurnIsOk(a, env, Live(a, env, h, start, moves));
  }

  // ---- Reviving an ended run -----------------------------------------------

  /** Reviving an ended run keeps its conversation good and its counters in step
      exactly when the run did not end by the one-shot exit. */
  lemma ReviveKeepsExactly<W(!new)>(a: Agent, env: Env<W>, h: Handle, s: Life<W>, world: W, systemPrompt: string)
    requires LifeOk(a, s) && s.whole && !s.live
    ensures var s' := Advance(a, env, h, s, Revive(world, systemPrompt));
            && s'.live && (s'.whole <==> !EndsInCalls(s.conv))
            && (Good(s'.conv) && LoopOk(s'.conv, s'.g, s'.hist) <==> !EndsInCalls(s.conv))
  {
    hide ChatLog, GateSafe, Covered, RequestsWellFormed, TraceOk, LoopOk, Good, Stored, EndsInCalls, RunTurn;
    if EndsInCalls(s.conv) {
      ResumeKeepsCalls(env.strip, systemPrompt, s.conv);
      if Good([SystemMessage(systemPrompt)] + Stored(env.strip, s.conv)) {
        GoodEndsAnswered([SystemMessage(systemPrompt)] + Stored(env.strip, s.conv));
      }
    } else {
      ResumeKeepsState(env.strip, systemPrompt, s.conv, s.g, s.hist);
    }
  }

  /** A revived one-shot exit asks with its calls unanswered: the first request is
      not well formed. */
  lemma RevivedOneShotAsksUnanswered<W(!new)>(a: Agent, env: Env<W>, h: Handle, s: Life<W>, world: W,
                                              systemPrompt: string)
    requires s.conv != [] && !s.live && EndsInCalls(s.conv)
    ensures var s' := Advance(a, env, h, s, Revive(world, systemPrompt));
            !WellFormedRequest(Outgoing(a, env, Window(s'.conv)))
  {
    hide Good, Stored;
    ResumeKeepsCalls(env.strip, systemPrompt, s.conv);
    var conv := [SystemMessage(systemPrompt)] + Stored(env.strip, s.conv);
    var sent := Outgoing(a, env, Window(conv));
    assert EndsInCalls(sent);
    if Good(sent) {
      GoodEndsAnswered(sent);
    }
  }

  lemma {:induction false} ResumeKeepsCalls(strip: string -> string, systemPrompt: string, conv: seq<Message>)
    requires EndsInCalls(conv)
    ensures EndsInCalls([SystemMessage(systemPrompt)] + Stored(strip, conv)) && Stored(strip, conv) != []
    ensures EndsInCalls(Stored(strip, conv))
  {
    var stored := Stored(strip, conv);
    if |conv| == 1 {
      assert stored == [StripMessage(strip, conv[0])] + Stored(strip, conv[1..]);
      assert |StripMessage(strip, conv[0]).toolCalls| == |conv[0].toolCalls|;
    } else {
      ResumeKeepsCalls(strip, systemPrompt, conv[1..]);
    }
  }

  // ---- The loop is such a life ---------------------------------------------

  function Iterations<W>(n: nat): seq<Move<W>> {
    seq(n, i => Iterate)
  }

  lemma {:induction false} LoopIsLife<W>(a: Agent, env: Env<W>, h: Handle, s: Life<W>, answer: Option<string>)
    requires s.conv != [] && s.live
    ensures var out := RunFrom(a, env, h, s.p, s.conv, s.g, s.w, s.used, answer);
            && out.used >= s.used
            && var s' := Live(a, env, h, s, Iterations(out.used - s.used));
               s'.wire == s.wire + out.events && s'.hist == s.hist + out.events
               && s'.conv == out.conv && s'.g == out.g && s'.w == out.w && s'.used == out.used && s'.whole == s.whole
    decreases a.maxSteps - s.used
  {
    hide RunFrom, RunTurn, Live, Advance, Latest;
    RunFromIs(a, env, h, s.p, s.conv, s.g, s.w, s.used, answer);
    var out := RunFrom(a, env, h, s.p, s.conv, s.g, s.w, s.used, answer);
    if s.used >= a.maxSteps {
      NoMoves(a, env, h, s);
      assert s.wire + [] == s.wire && s.hist + [] == s.hist;
    } else {
      var t := RunTurn(a, env, s.p, s.conv, s.g, s.w);
      var s1 := Advance(a, env, h, s, Iterate);
      AdvanceIs(a, env, h, s);
      if t.end.Some? {
        FirstMove(a, env, h, s, 0);
        NoMoves(a, env, h, s1);
      } else {
        LoopIsLife(a, env, h, s1, Latest(t.candidate, answer));
        var rest := RunFrom(a, env, h, s1.p, s1.conv, s1.g, s1.w, s1.used, Latest(t.candidate, answer));
        FirstMove(a, env, h, s, out.used - s1.used);
        assert s.wire + t.events + rest.events == s.wire + (t.events + rest.events);
        assert s.hist + t.events + rest.events == s.hist + (t.events + rest.events);
      }
    }
  }

  lemma RunFromIs<W>(a: Agent, env: Env<W>, h: Handle, p: Prompts, conv: seq<Message>, g: Guard, w: W,
                     used: nat, answer: Option<string>)
    requires conv != []
    ensures var out := RunFrom(a, env, h, p, conv, g, w, used, answer);
            if used >= a.maxSteps then
              out.events == [] && out.conv == conv && out.g == g && out.w == w && out.used == used
            else
              var t := RunTurn(a, env, p, conv, g, w);
              if t.end.Some? then
                out.events == t.events && out.conv == t.conv && out.g == t.g && out.w == t.w && out.used == used + 1
              else
                var rest := RunFrom(a, env, h, p, t.conv, t.g, t.w, used + 1, Latest(t.candidate, answer));
                out.events == t.events + rest.events && out.conv == rest.conv && out.g == rest.g && out.w == rest.w
                && out.used == rest.used
  {
    hide RunTurn, MakeCheckpoint, Latest;
  }

  lemma AdvanceIs<W>(a: Agent, env: Env<W>, h: Handle, s: Life<W>)
    requires s.conv != [] && s.live && s.used < a.maxSteps
    ensures var t := RunTurn(a, env, s.p, s.conv, s.g, s.w);
            Advance(a, env, h, s, Iterate)
            == Life(s.p, t.conv, t.g, t.w, s.used + 1, s.hist + t.events, s.wire + t.events, t.end.None?, s.whole)
  {
    hide RunTurn;
  }

  lemma NoMoves<W>(a: Agent, env: Env<W>, h: Handle, s: Life<W>)
    requires s.conv != []
    ensures Live(a, env, h, s, Iterations(0)) == s
  {
    hide Advance;
  }

  lemma FirstMove<W>(a: Agent, env: Env<W>, h: Handle, s: Life<W>, n: nat)
    requires s.conv != []
    ensures Live(a, env, h, s, Iterations(n + 1)) == Live(a, env, h, Advance(a, env, h, s, Iterate), Iterations(n))
  {
    hide Advance;
    assert Iterations<W>(n + 1)[1..] == Iterations<W>(n);
  }

  /** A whole run of the loop, as the methods `Run` and `Resume` compute it, from
      any good state. */
  lemma RunIsOk<W(!new)>(a: Agent, env: Env<W>, h: Handle, s: Life<W>, answer: Option<string>)
    requires HonestExecutor(env) && LifeOk(a, s) && s.live && s.whole
    ensures var out := RunFrom(a, env, h, s.p, s.conv, s.g, s.w, s.used, answer);
            && TraceOk(s.hist + out.events)
            && RequestsWellFormed(s.wire + out.events)
            && GateSafe(a, s.wire + out.events) && Covered(s.wire + out.events)
            && |ChatLog(s.wire + out.events)| <= out.used <= a.maxSteps
  {
    hide RunFrom, Live, HonestExecutor, TraceOk, RequestsWellFormed, GateSafe, Covered, ChatLog, Good, LoopOk,
         EndsInCalls;
    LoopIsLife(a, env, h, s, answer);
    var out := RunFrom(a, env, h, s.p, s.conv, s.g, s.w, s.used, answer);
    LiveKeeps(a, env, h, s, Iterations(out.used - s.used));
  }
}
