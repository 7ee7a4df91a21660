/** Approval buttons: the router that hands a press to the waiting gate, and the
    gates that register, send, wait, time out and give up around it. */
module Approvals {
  import opened Wrappers

  type Key = (string, string)   // chat, approval id

  // ---- The router ----------------------------------------------------------

  /** A one-shot channel, seen from its sender. `press` is the button press that
      sent the value, if it was one. */
  datatype ChanState = Open | Sent(value: bool, press: Option<nat>) | Dropped

  datatype Chan = Chan(key: Key, user: string, state: ChanState)

  datatype Entry = Entry(user: string, chan: nat)

  datatype Router = Router(pending: map<Key, Entry>, chans: seq<Chan>)

  datatype TakeResult = Routed(chan: nat) | AlreadyDecided | WrongUser

  function SetChan(chans: seq<Chan>, c: nat, state: ChanState): seq<Chan> {
    if c < |chans| then chans[c := chans[c].(state := state)] else chans
  }

  /** Inserting drops the sender that was there. */
  function AfterRegister(r: Router, key: Key, user: string): Router {
    var chans := if key in r.pending then SetChan(r.chans, r.pending[key].chan, Dropped) else r.chans;
    Router(r.pending[key := Entry(user, |r.chans|)], chans + [Chan(key, user, Open)])
  }

  function Taken(r: Router, key: Key, user: string): TakeResult {
    if key !in r.pending then AlreadyDecided
    else if r.pending[key].user != user then WrongUser
    else Routed(r.pending[key].chan)
  }

  function AfterTake(r: Router, key: Key, user: string): Router {
    if Taken(r, key, user).Routed? then r.(pending := r.pending - {key}) else r
  }

  function AfterUnregister(r: Router, key: Key): Router {
    if key in r.pending then
      Router(r.pending - {key}, SetChan(r.chans, r.pending[key].chan, Sent(false, None)))
    else r
  }

  class ApprovalRouter {
    var pending: map<Key, Entry>
    var chans: seq<Chan>

    function View(): Router
      reads this
    {
      Router(pending, chans)
    }

    constructor ()
      ensures View() == Router(map[], [])
    {
      pending, chans := map[], [];
    }

    method Register(key: Key, user: string) returns (chan: nat)
      modifies this
      ensures View() == AfterRegister(old(View()), key, user)
      ensures chan == old(|chans|)
    {
      if key in pending {
        chans := SetChan(chans, pending[key].chan, Dropped);
      }
      chan := |chans|;
      chans := chans + [Chan(key, user, Open)];
      pending := pending[key := Entry(user, chan)];
    }

    method Take(key: Key, user: string) returns (result: TakeResult)
      modifies this`pending
      ensures result == Taken(old(View()), key, user)
      ensures View() == AfterTake(old(View()), key, user)
    {
      if key !in pending {
        return AlreadyDecided;
      }
      if pending[key].user != user {
        return WrongUser;
      }
      result := Routed(pending[key].chan);
      pending := pending - {key};
    }

    method Unregister(key: Key) returns (present: bool)
      modifies this
      ensures View() == AfterUnregister(old(View()), key)
      ensures present == (key in old(pending))
    {
      present := key in pending;
      if present {
        var chan := pending[key].chan;
        pending := pending - {key};
        chans := SetChan(chans, chan, Sent(false, None));
      }
    }
  }

  // ---- Gates and presses ---------------------------------------------------

  /** Where a request for approval stands. A gate that gives up unregisters in a
      step of its own. */
  datatype Phase =
    | Sending(chan: nat)
    | Waiting(chan: nat)
    | GivingUp(chan: nat)
    | Ended(approved: bool, last: Option<nat>)

  datatype Gate = Gate(key: Key, user: string, auto: bool, phase: Phase)

  datatype Press = Press(key: Key, user: string, approve: bool, result: TakeResult)

  /** A sender handed to a press that has not sent yet. */
  datatype Hand = Hand(chan: nat, press: nat)

  datatype State = State(router: Router, gates: seq<Gate>, log: seq<Press>, hands: seq<Hand>)

  datatype Move =
    | Ask(key: Key, user: string, auto: bool)
    | SendDone(gate: nat, ok: bool)
    | ButtonPress(key: Key, user: string, approve: bool)
    | Deliver(hand: nat)
    | Receive(gate: nat)
    | Expire(gate: nat)
    | GiveUp(gate: nat)
    | Cancel(gate: nat)             // the outer timeout drops the ask

  function SetPhase(s: State, g: nat, phase: Phase): State
    requires g < |s.gates|
  {
    s.(gates := s.gates[g := s.gates[g].(phase := phase)])
  }

  function Step(s: State, move: Move): State {
    match move
    case Ask(key, user, auto) =>
      if auto then s.(gates := s.gates + [Gate(key, user, true, Ended(true, None))])
      else s.(router := AfterRegister(s.router, key, user),
              gates := s.gates + [Gate(key, user, false, Sending(|s.router.chans|))])
    case SendDone(g, ok) =>
      if g < |s.gates| && s.gates[g].phase.Sending? then
        SetPhase(s, g, if ok then Waiting(s.gates[g].phase.chan) else GivingUp(s.gates[g].phase.chan))
      else s
    case ButtonPress(key, user, approve) =>
      var result := Taken(s.router, key, user);
      s.(router := AfterTake(s.router, key, user),
         log := s.log + [Press(key, user, approve, result)],
         hands := if result.Routed? then s.hands + [Hand(result.chan, |s.log|)] else s.hands)
    case Deliver(h) =>
      if h < |s.hands| && s.hands[h].press < |s.log| then
        var hand := s.hands[h];
        s.(router := s.router.(chans := SetChan(s.router.chans, hand.chan,
                                                Sent(s.log[hand.press].approve, Some(hand.press)))),
           hands := s.hands[..h] + s.hands[h + 1..])
      else s
    case Receive(g) =>
      if g < |s.gates| && s.gates[g].phase.Waiting? && s.gates[g].phase.chan < |s.router.chans| then
        var c := s.gates[g].phase.chan;
        match s.router.chans[c].state
        case Open => s
        case Sent(value, _) => SetPhase(s, g, Ended(value, Some(c)))
        case Dropped => SetPhase(s, g, Ended(false, Some(c)))
      else s
    case Expire(g) =>
      if g < |s.gates| && s.gates[g].phase.Waiting? then SetPhase(s, g, GivingUp(s.gates[g].phase.chan)) else s
    case GiveUp(g) =>
      if g < |s.gates| && s.gates[g].phase.GivingUp? then
        SetPhase(s.(router := AfterUnregister(s.router, s.gates[g].key)), g, Ended(false, Some(s.gates[g].phase.chan)))
      else s
    case Cancel(g) =>
      if g < |s.gates| && !s.gates[g].phase.Ended? then SetPhase(s, g, Ended(false, Some(s.gates[g].phase.chan))) else s
  }

  function Steps(s: State, moves: seq<Move>): State
    decreases |moves|
  {
    if moves == [] then s else Steps(Step(s, moves[0]), moves[1..])
  }

  const START := State(Router(map[], []), [], [], [])

  // ---- The invariant -------------------------------------------------------

  /** A registered sender is open and belongs to its key and its user. */
  ghost predicate PendingOk(s: State) {
    forall k | k in s.router.pending ::
      var e := s.router.pending[k];
      e.chan < |s.router.chans| && s.router.chans[e.chan] == Chan(k, e.user, Open)
  }

  /** A press was the channel's own user's, on the channel's own buttons. */
  ghost predicate PressFits(s: State, c: nat, p: nat) {
    && c < |s.router.chans| && p < |s.log|
    && s.log[p].result == Routed(c)
    && s.log[p].user == s.router.chans[c].user
    && s.log[p].key == s.router.chans[c].key
  }

  ghost predicate HandsOk(s: State) {
    && (forall h | 0 <= h < |s.hands| ::
          PressFits(s, s.hands[h].chan, s.hands[h].press) && s.router.chans[s.hands[h].chan].state.Open?)
    && (forall h, h' | 0 <= h < h' < |s.hands| :: s.hands[h].chan != s.hands[h'].chan)
    && (forall h, k | 0 <= h < |s.hands| && k in s.router.pending :: s.hands[h].chan != s.router.pending[k].chan)
  }

  ghost predicate Registered(s: State, c: nat) {
    exists k :: k in s.router.pending && s.router.pending[k].chan == c
  }

  ghost predicate InHand(s: State, c: nat) {
    exists h :: 0 <= h < |s.hands| && s.hands[h].chan == c
  }

  /** An open sender is somewhere, and a sent value has its reason: a press that
      fits, or else it is a denial. */
  ghost predicate ChanOk(s: State, c: nat)
    requires c < |s.router.chans|
  {
    match s.router.chans[c].state
    case Open => Registered(s, c) || InHand(s, c)
    case Sent(value, press) =>
      if press.Some? then PressFits(s, c, press.value) && s.log[press.value].approve == value else !value
    case Dropped => true
  }

  ghost predicate ChansOk(s: State) {
    forall c | 0 <= c < |s.router.chans| :: ChanOk(s, c)
  }

  /** A gate waits on its own channel, and ends in a yes only on one that was
      sent a yes. */
  ghost predicate GateOk(s: State, g: Gate) {
    match g.phase
    case Ended(approved, chan) =>
      approved ==> g.auto || (chan.Some? && OwnChan(s, g, chan.value) && s.router.chans[chan.value].state.Sent?
                              && s.router.chans[chan.value].state.value)
    case Sending(c) => OwnChan(s, g, c)
    case Waiting(c) => OwnChan(s, g, c)
    case GivingUp(c) => OwnChan(s, g, c)
  }

  ghost predicate OwnChan(s: State, g: Gate, c: nat) {
    c < |s.router.chans| && s.router.chans[c].key == g.key && s.router.chans[c].user == g.user
  }

  ghost predicate GatesOk(s: State) {
    forall i | 0 <= i < |s.gates| :: GateOk(s, s.gates[i])
  }

  ghost predicate DeskOk(s: State) {
    PendingOk(s) && HandsOk(s) && ChansOk(s) && GatesOk(s)
  }

  // ---- What can change about a channel -------------------------------------

  /** Channels keep their owner, and a decided one its decision. */
  ghost predicate ChansGrow(s: State, s': State) {
    && |s.router.chans| <= |s'.router.chans|
    && s.log <= s'.log
    && forall c | 0 <= c < |s.router.chans| ::
         && s'.router.chans[c].key == s.router.chans[c].key
         && s'.router.chans[c].user == s.router.chans[c].user
         && (s.router.chans[c].state.Open? || s'.router.chans[c].state == s.router.chans[c].state)
  }

  lemma GateStays(s: State, s': State, g: Gate)
    requires GateOk(s, g) && ChansGrow(s, s')
    ensures GateOk(s', g)
  {
  }

  lemma GatesStay(s: State, s': State, i: nat)
    requires GatesOk(s) && ChansGrow(s, s')
    requires |s.gates| <= |s'.gates|
    requires forall j | 0 <= j < |s.gates| && j != i :: s'.gates[j] == s.gates[j]
    requires forall j | |s.gates| <= j < |s'.gates| || j == i < |s'.gates| :: GateOk(s', s'.gates[j])
    ensures GatesOk(s')
  {
    hide GateOk, ChansGrow;
    forall j | 0 <= j < |s'.gates|
      ensures GateOk(s', s'.gates[j])
    {
      if j < |s.gates| && j != i {
        assert GateOk(s, s.gates[j]);
        GateStays(s, s', s.gates[j]);
      }
    }
  }

  /** The three parts of the invariant that do not look at gates. */
  ghost predicate SendersOk(s: State) {
    PendingOk(s) && HandsOk(s) && ChansOk(s)
  }

  /** A step that only moves a gate. */
  lemma GateMoves(s: State, g: nat, phase: Phase)
    requires DeskOk(s) && g < |s.gates| && GateOk(s, s.gates[g].(phase := phase))
    ensures DeskOk(SetPhase(s, g, phase))
  {
    hide GateOk;
    var s' := SetPhase(s, g, phase);
    hide PendingOk, HandsOk, ChansOk, ChansGrow;
    SendersIgnoreGates(s, s');
    GateIgnoresGates(s, s', s'.gates[g]);
    GatesStay(s, s', g);
  }

  lemma GateIgnoresGates(s: State, s': State, gate: Gate)
    requires s' == s.(gates := s'.gates) && GateOk(s, gate)
    ensures GateOk(s', gate)
  {
  }

  lemma SendersIgnoreGates(s: State, s': State)
    requires s' == s.(gates := s'.gates)
    requires SendersOk(s)
    ensures SendersOk(s')
    ensures ChansGrow(s, s')
  {
    forall c | 0 <= c < |s.router.chans|
      ensures ChanOk(s', c)
    {
      assert ChanOk(s, c);
      if Registered(s, c) {
        var k :| k in s.router.pending && s.router.pending[k].chan == c;
        assert k in s'.router.pending && s'.router.pending[k].chan == c;
      } else if InHand(s, c) {
        var h :| 0 <= h < |s.hands| && s.hands[h].chan == c;
        assert s'.hands[h].chan == c;
      }
    }
  }

  // ---- Each move keeps the senders in order --------------------------------

  lemma RegisterKeeps(s: State, key: Key, user: string)
    requires SendersOk(s)
    ensures var s' := s.(router := AfterRegister(s.router, key, user)); SendersOk(s') && ChansGrow(s, s')
  {
    var s' := s.(router := AfterRegister(s.router, key, user));
    var n := |s.router.chans|;
    forall c | 0 <= c <= n
      ensures ChanOk(s', c)
    {
      if c == n {
        assert key in s'.router.pending && s'.router.pending[key].chan == n;
      } else {
        assert ChanOk(s, c);
        if s'.router.chans[c].state.Open? {
          StillHeld(s, s', c);
        }
      }
    }
  }

  /** A sender whose entry stays, or goes into a hand, is still held. */
  lemma StillHeld(s: State, s': State, c: nat)
    requires Registered(s, c) || InHand(s, c)
    requires s.hands <= s'.hands
    requires forall k | k in s.router.pending && s.router.pending[k].chan == c ::
               (k in s'.router.pending && s'.router.pending[k].chan == c) || InHand(s', c)
    ensures Registered(s', c) || InHand(s', c)
  {
    if InHand(s, c) {
      var h :| 0 <= h < |s.hands| && s.hands[h].chan == c;
      assert s'.hands[h].chan == c;
    }
  }

  lemma PressKeeps(s: State, key: Key, user: string, approve: bool)
    requires SendersOk(s)
    ensures var s' := Step(s, ButtonPress(key, user, approve)); SendersOk(s') && ChansGrow(s, s')
  {
    var s' := Step(s, ButtonPress(key, user, approve));
    if Taken(s.router, key, user).Routed? {
      var c0 := s.router.pending[key].chan;
      assert PressFits(s', c0, |s.log|);
      assert s'.hands[|s.hands|].chan == c0;
    }
    forall c | 0 <= c < |s.router.chans|
      ensures ChanOk(s', c)
    {
      assert ChanOk(s, c);
      if s.router.chans[c].state.Open? {
        StillHeld(s, s', c);
      }
    }
  }

  lemma UnregisterKeeps(s: State, key: Key)
    requires SendersOk(s)
    ensures var s' := s.(router := AfterUnregister(s.router, key)); SendersOk(s') && ChansGrow(s, s')
  {
    var s' := s.(router := AfterUnregister(s.router, key));
    forall c | 0 <= c < |s.router.chans|
      ensures ChanOk(s', c)
    {
      assert ChanOk(s, c);
      if s'.router.chans[c].state.Open? {
        StillHeld(s, s', c);
      }
    }
  }

  lemma DeliverKeeps(s: State, h: nat)
    requires SendersOk(s)
    ensures var s' := Step(s, Deliver(h)); SendersOk(s') && ChansGrow(s, s')
  {
    if h < |s.hands| && s.hands[h].press < |s.log| {
      hide PressFits;
      DeliverKeepsHands(s, h);
      DeliverKeepsChans(s, h);
    }
  }

  lemma DeliverKeepsHands(s: State, h: nat)
    requires PendingOk(s) && HandsOk(s) && h < |s.hands|
    ensures var s' := Step(s, Deliver(h)); PendingOk(s') && HandsOk(s')
  {
    var s' := Step(s, Deliver(h));
    assert PressFits(s, s.hands[h].chan, s.hands[h].press);
    assert forall i | 0 <= i < |s'.hands| :: s'.hands[i] == s.hands[if i < h then i else i + 1];
    forall i | 0 <= i < |s'.hands|
      ensures PressFits(s', s'.hands[i].chan, s'.hands[i].press) && s'.router.chans[s'.hands[i].chan].state.Open?
    {
      assert PressFits(s, s'.hands[i].chan, s'.hands[i].press);
    }
  }

  lemma DeliverKeepsChans(s: State, h: nat)
    requires HandsOk(s) && ChansOk(s) && h < |s.hands|
    ensures var s' := Step(s, Deliver(h)); ChansOk(s') && ChansGrow(s, s')
  {
    var s' := Step(s, Deliver(h));
    assert PressFits(s, s.hands[h].chan, s.hands[h].press);
    forall c | 0 <= c < |s.router.chans|
      ensures ChanOk(s', c)
    {
      assert ChanOk(s, c);
      if s'.router.chans[c].state.Open? {
        StillHeldAfterDelivery(s, s', c, h);
      }
    }
  }

  lemma StillHeldAfterDelivery(s: State, s': State, c: nat, h: nat)
    requires Registered(s, c) || InHand(s, c)
    requires h < |s.hands| && s.hands[h].chan != c
    requires s'.hands == s.hands[..h] + s.hands[h + 1..] && s'.router.pending == s.router.pending
    ensures Registered(s', c) || InHand(s', c)
  {
    if Registered(s, c) {
      var k :| k in s.router.pending && s.router.pending[k].chan == c;
      assert k in s'.router.pending && s'.router.pending[k].chan == c;
    } else {
      var i :| 0 <= i < |s.hands| && s.hands[i].chan == c;
      assert s'.hands[if i < h then i else i - 1].chan == c;
    }
  }

  lemma StepKeeps(s: State, move: Move)
    requires DeskOk(s)
    ensures DeskOk(Step(s, move))
  {
    hide PendingOk, HandsOk, ChansOk, ChansGrow, AfterRegister, AfterUnregister, Taken, AfterTake, SetChan;
    var s' := Step(s, move);
    match move {
      case Ask(key, user, auto) =>
        if auto {
          SendersIgnoreGates(s, s');
        } else {
          RegisterKeeps(s, key, user);
          SendersIgnoreGates(s.(router := AfterRegister(s.router, key, user)), s');
          RegisterGrows(s, s', key, user);
        }
        GatesStay(s, s', |s.gates|);
      case SendDone(g, ok) =>
        if g < |s.gates| && s.gates[g].phase.Sending? {
          assert GateOk(s, s.gates[g]);
          GateMoves(s, g, s'.gates[g].phase);
        }
      case ButtonPress(key, user, approve) =>
        PressKeeps(s, key, user, approve);
        GatesStay(s, s', |s.gates|);
      case Deliver(h) =>
        DeliverKeeps(s, h);
        GatesStay(s, s', |s.gates|);
      case Receive(g) =>
        if g < |s.gates| && s'.gates != s.gates {
          assert GateOk(s, s.gates[g]);
          GateMoves(s, g, s'.gates[g].phase);
        }
      case Expire(g) =>
        if g < |s.gates| && s.gates[g].phase.Waiting? {
          assert GateOk(s, s.gates[g]);
          GateMoves(s, g, s'.gates[g].phase);
        }
      case GiveUp(g) =>
        if g < |s.gates| && s.gates[g].phase.GivingUp? {
          var mid := s.(router := AfterUnregister(s.router, s.gates[g].key));
          UnregisterKeeps(s, s.gates[g].key);
          GatesStay(s, mid, |s.gates|);
          GateMoves(mid, g, s'.gates[g].phase);
        }
      case Cancel(g) =>
        if g < |s.gates| && !s.gates[g].phase.Ended? {
          GateMoves(s, g, s'.gates[g].phase);
        }
    }
  }

  lemma RegisterGrows(s: State, s': State, key: Key, user: string)
    requires s'.router == AfterRegister(s.router, key, user) && s'.log == s.log && PendingOk(s)
    ensures ChansGrow(s, s')
    ensures |s'.router.chans| == |s.router.chans| + 1 && s'.router.chans[|s.router.chans|] == Chan(key, user, Open)
  {
  }

  lemma {:induction false} StepsKeep(s: State, moves: seq<Move>)
    requires DeskOk(s)
    ensures DeskOk(Steps(s, moves))
    decreases |moves|
  {
    hide DeskOk, Step;
    if moves != [] {
      StepKeeps(s, moves[0]);
      StepsKeep(Step(s, moves[0]), moves[1..]);
    }
  }

  // ---- The results ---------------------------------------------------------

  /** Who said yes: auto-approval, or the gate's own user, on the gate's own
      buttons, with a press that was routed to the gate's own sender. */
  ghost predicate HasReason(s: State, g: Gate) {
    g.auto || exists p :: 0 <= p < |s.log| && Approves(s, g, s.log[p])
  }

  ghost predicate Approves(s: State, g: Gate, press: Press) {
    && press.approve && press.user == g.user && press.key == g.key
    && g.phase.Ended? && g.phase.last.Some? && press.result == Routed(g.phase.last.value)
  }

  /** In every interleaving of asks, presses by anybody, deliveries, supersedes,
      timeouts, failed sends and cancels: a gate that returned true had its
      reason, and it had it by then. */
  lemma OnlyTheRequesterApproves(moves: seq<Move>, i: nat)
    ensures var s := Steps(START, moves);
            i < |s.gates| && s.gates[i].phase.Ended? && s.gates[i].phase.approved ==> HasReason(s, s.gates[i])
  {
    StepsKeep(START, moves);
    var s := Steps(START, moves);
    if i < |s.gates| && s.gates[i].phase.Ended? && s.gates[i].phase.approved {
      var g := s.gates[i];
      assert GateOk(s, g);
      if !g.auto {
        var c := g.phase.last.value;
        assert ChanOk(s, c);
        assert Approves(s, g, s.log[s.router.chans[c].state.press.value]);
      }
    }
  }

  /** A verdict is final, so a press after a timeout changes none. */
  lemma {:induction false} VerdictsAreFinal(s: State, moves: seq<Move>, i: nat)
    requires i < |s.gates| && s.gates[i].phase.Ended?
    ensures i < |Steps(s, moves).gates| && Steps(s, moves).gates[i] == s.gates[i]
    decreases |moves|
  {
    hide AfterRegister, AfterUnregister, Taken, AfterTake, SetChan;
    if moves != [] {
      VerdictsAreFinal(Step(s, moves[0]), moves[1..], i);
    }
  }

  /** Every sender ever made is in exactly one place: registered, in the hand of
      one press, used, or dropped. */
  lemma SendersAreNeverLost(moves: seq<Move>, c: nat)
    ensures var s := Steps(START, moves);
            c < |s.router.chans| ==>
              && (s.router.chans[c].state.Open? <==> Registered(s, c) || InHand(s, c))
              && !(Registered(s, c) && InHand(s, c))
              && (forall k, k' | k in s.router.pending && k' in s.router.pending
                    && s.router.pending[k].chan == c && s.router.pending[k'].chan == c :: k == k')
              && (forall h, h' | 0 <= h < |s.hands| && 0 <= h' < |s.hands|
                    && s.hands[h].chan == c && s.hands[h'].chan == c :: h == h')
  {
    StepsKeep(START, moves);
    var s := Steps(START, moves);
    if c < |s.router.chans| {
      assert ChanOk(s, c);
    }
  }

  /** A press by anybody but the requester, or on a key without an entry, leaves
      the router and every gate as they were; the presser is told which it was. */
  lemma StrangersChangeNothing(s: State, key: Key, user: string, approve: bool)
    ensures var s' := Step(s, ButtonPress(key, user, approve));
            (s'.router == s.router <==> key !in s.router.pending || s.router.pending[key].user != user)
            && s'.gates == s.gates
            && (s'.router == s.router ==> s'.hands == s.hands)
            && (Taken(s.router, key, user) == AlreadyDecided <==> key !in s.router.pending)
            && (Taken(s.router, key, user) == WrongUser
                <==> key in s.router.pending && s.router.pending[key].user != user)
  {
  }

  /** The press of the requester of a registered gate decides it, and a second
      press finds nothing. The press may come while the message is still being
      sent: the gate is registered before it sends. */
  lemma PressDecides(moves: seq<Move>, g: nat, user: string, approve: bool)
    requires var s := Steps(START, moves);
             && g < |s.gates| && (s.gates[g].phase.Waiting? || s.gates[g].phase.Sending?)
             && Registered(s, s.gates[g].phase.chan)
    ensures var s := Steps(START, moves);
            var gate := s.gates[g];
            var s1 := Step(s, ButtonPress(gate.key, gate.user, approve));
            var s2 := Step(s1, Deliver(|s.hands|));
            var s3 := Step(Step(s2, SendDone(g, true)), Receive(g));
            && s3.gates[g].phase == Ended(approve, Some(gate.phase.chan))
            && Taken(s1.router, gate.key, user) == AlreadyDecided
  {
    StepsKeep(START, moves);
    hide Steps;
    var s := Steps(START, moves);
    OwnEntry(s, g);
    hide ChansOk, HandsOk, GatesOk;
    var gate := s.gates[g];
    var c := gate.phase.chan;
    var s1 := Step(s, ButtonPress(gate.key, gate.user, approve));
    assert s1.hands[|s.hands|] == Hand(c, |s.log|) && s1.log[|s.log|].approve == approve;
  }

  /** A gate that has not ended and whose sender is registered holds the entry of
      its own key. */
  lemma OwnEntry(s: State, g: nat)
    requires DeskOk(s) && g < |s.gates| && !s.gates[g].phase.Ended? && Registered(s, s.gates[g].phase.chan)
    ensures var gate := s.gates[g];
            gate.key in s.router.pending && s.router.pending[gate.key] == Entry(gate.user, gate.phase.chan)
  {
    var gate := s.gates[g];
    assert GateOk(s, gate);
    var k :| k in s.router.pending && s.router.pending[k].chan == gate.phase.chan;
    assert k == gate.key;
  }

  /** Every sender but `own` is as it was. */
  ghost predicate OthersUntouched(s: State, s': State, own: nat) {
    && |s'.router.chans| == |s.router.chans|
    && forall c | 0 <= c < |s.router.chans| && c != own :: s'.router.chans[c] == s.router.chans[c]
  }

  /** A gate that gives up, after a failed send or a timeout, unregisters its key,
      whoever holds it by then. Nobody else is hurt exactly when the entry is gone
      or still its own; otherwise the holder is denied without a press. */
  lemma GiveUpHarmsSuccessorExactly(s: State, g: nat)
    requires DeskOk(s) && g < |s.gates| && s.gates[g].phase.GivingUp?
    ensures var key, own := s.gates[g].key, s.gates[g].phase.chan;
            var s' := Step(s, GiveUp(g));
            && (OthersUntouched(s, s', own) <==> key !in s.router.pending || s.router.pending[key].chan == own)
            && (key in s.router.pending ==>
                  var holder := s.router.pending[key].chan;
                  holder < |s'.router.chans| && s'.router.chans[holder].state == Sent(false, None))
            && s'.router.pending == s.router.pending - {key}
  {
    var key, own := s.gates[g].key, s.gates[g].phase.chan;
    var s' := Step(s, GiveUp(g));
    if key in s.router.pending {
      var holder := s.router.pending[key].chan;
      assert s.router.chans[holder].state.Open? && s'.router.chans[holder].state == Sent(false, None);
    } else {
      assert s.router.pending - {key} == s.router.pending;
    }
  }

  /** A run that hurts: the first of two asks for one key fails to send, and the
      gate that superseded it is denied with nobody having pressed. */
  lemma FailedSendDeniesSuccessor(key: Key, user: string, user': string)
    ensures var s := Steps(START, [Ask(key, user, false), Ask(key, user', false), SendDone(1, true),
                                   SendDone(0, false), GiveUp(0), Receive(1)]);
            |s.gates| == 2 && s.gates[1].phase == Ended(false, Some(1)) && s.log == []
  {
    var s1 := Step(START, Ask(key, user, false));
    assert s1.router.pending == map[key := Entry(user, 0)] && s1.router.chans == [Chan(key, user, Open)];
    var s2 := Step(s1, Ask(key, user', false));
    assert s2.router.pending[key] == Entry(user', 1);
    assert s2.router.chans == [Chan(key, user, Dropped), Chan(key, user', Open)];
    var s3 := Step(s2, SendDone(1, true));
    var s4 := Step(s3, SendDone(0, false));
    var s5 := Step(s4, GiveUp(0));
    var s6 := Step(s5, Receive(1));
    assert s6.gates[1].phase == Ended(false, Some(1)) && s6.log == [];
    hide Step;
    assert Steps(s6, []) == s6;
    assert Steps(s5, [Receive(1)]) == s6;
    assert Steps(s4, [GiveUp(0), Receive(1)]) == s6;
    assert Steps(s3, [SendDone(0, false), GiveUp(0), Receive(1)]) == s6;
    assert Steps(s2, [SendDone(1, true), SendDone(0, false), GiveUp(0), Receive(1)]) == s6;
  }

  /** Asking approves at once and touches no entry when approval is automatic;
      else it registers an open sender of its own, and drops the one it
      supersedes. */
  lemma AskRegisters(s: State, key: Key, user: string)
    requires DeskOk(s)
    ensures var n := |s.gates|;
            && Step(s, Ask(key, user, true)) == s.(gates := s.gates + [Gate(key, user, true, Ended(true, None))])
            && var asked := Step(s, Ask(key, user, false));
               var c := |s.router.chans|;
               && |asked.gates| == n + 1 && asked.gates[n] == Gate(key, user, false, Sending(c))
               && asked.router.pending == s.router.pending[key := Entry(user, c)]
               && |asked.router.chans| == c + 1 && asked.router.chans[c] == Chan(key, user, Open)
               && (key in s.router.pending ==> asked.router.chans[s.router.pending[key].chan].state == Dropped)
  {
    hide HandsOk, ChansOk, GatesOk;
  }

  /** A waiting gate ends with the value that was sent and with no once its sender
      was dropped; a timeout ends it with no, and a failed send too, and both take
      the entry of its key away. */
  lemma EveryWaitEnds(s: State, g: nat)
    requires DeskOk(s) && g < |s.gates| && (s.gates[g].phase.Waiting? || s.gates[g].phase.Sending?)
    ensures var c := s.gates[g].phase.chan;
            && c < |s.router.chans|
            && (s.gates[g].phase.Waiting? ==>
                  match s.router.chans[c].state
                  case Open => Step(s, Receive(g)) == s
                  case Sent(value, _) => Step(s, Receive(g)).gates[g].phase == Ended(value, Some(c))
                  case Dropped => Step(s, Receive(g)).gates[g].phase == Ended(false, Some(c)))
    ensures var c := s.gates[g].phase.chan;
            var late := Step(s, if s.gates[g].phase.Waiting? then Expire(g) else SendDone(g, false));
            var given := Step(late, GiveUp(g));
            && late.router == s.router && late.gates[g].phase == GivingUp(c)
            && given.gates[g].phase == Ended(false, Some(c)) && s.gates[g].key !in given.router.pending
  {
    assert GateOk(s, s.gates[g]);
    hide HandsOk, ChansOk, PendingOk, GatesOk;
  }

  /** Cancelling an ask from outside, while it is sent, waits or gives up, leaves
      its entry behind: the requester's next press is still routed, to nobody. */
  lemma CancelLeavesEntry(s: State, g: nat)
    requires DeskOk(s) && g < |s.gates| && !s.gates[g].phase.Ended? && Registered(s, s.gates[g].phase.chan)
    ensures var s' := Step(s, Cancel(g));
            && s'.router == s.router
            && Taken(s'.router, s.gates[g].key, s.gates[g].user) == Routed(s.gates[g].phase.chan)
            && s'.gates[g].phase == Ended(false, Some(s.gates[g].phase.chan))
  {
    OwnEntry(s, g);
    hide PendingOk, HandsOk, ChansOk, GatesOk;
  }
}
