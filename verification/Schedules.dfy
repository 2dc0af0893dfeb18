/**
  One thread of the relay among the others.

  A schedule says, turn by turn, which steps the other threads take before the thread's next own step, and
  what the library does in it. `Driven` is the state after a number of own steps, by the machine of
  RelayMachine alone: the specification of the code of each thread.
 */
module Schedules {
  import opened Sequences
  import opened PacketTypes
  import opened RelayMachine
  import opened RelayInvariants

  /** What happens up to and in a thread's next step. */
  datatype Turn = Turn(others: seq<Action>, ok: bool, result: SendResult, event: CommandEvent, control: ControlEvent)

  /** A turn in which no other thread acts and nothing fails; there is no end of them after a schedule. */
  const QUIET: Turn := Turn([], true, Delivered, CommandEvent(None, 0, Delivered), Succeeds)

  datatype Who =
    | ACaller(t: ThreadId, packet: PacketInfo)
    | ThePublisher
    | ThePusher
    | TheCommander
    | TheController(stopping: bool)

  datatype Plan = Plan(who: Who, start: State, turns: seq<Turn>)

  predicate Acts(who: Who, a: Action) {
    match who
    case ACaller(t, _) => (a.Begin? || a.Continue?) && a.t == t
    case ThePublisher => a.Publish?
    case ThePusher => a.Push?
    case TheCommander => a.Serve?
    case TheController(_) => a.Initialize? || a.Shutdown?
  }

  /** The own step of the thread in a state, with what the turn says about it. */
  function OwnAction(who: Who, s: State, turn: Turn): Action {
    match who
    case ACaller(t, packet) => if t in s.callers.calls then Continue(t) else Begin(t, packet)
    case ThePublisher => Publish(turn.ok)
    case ThePusher => Push(turn.result)
    case TheCommander => Serve(turn.event)
    case TheController(stopping) => if stopping then Shutdown else Initialize(turn.control)
  }

  /** Another thread takes the step if it can. */
  function Other(c: Config, s: State, who: Who, a: Action): State {
    if Acts(who, a) || Step(c, s, a).None? then s else Step(c, s, a).value
  }

  function Others(c: Config, s: State, who: Who, actions: seq<Action>): State
    decreases |actions|
  {
    if actions == [] then s else Other(c, Others(c, s, who, Front(actions)), who, Last(actions))
  }

  function TurnAt(turns: seq<Turn>, k: nat): Turn {
    if k < |turns| then turns[k] else QUIET
  }

  function Later(turns: seq<Turn>, k: nat): seq<Turn> {
    if k <= |turns| then turns[k..] else []
  }

  /** The others, then the own step; a thread that must wait takes none. */
  function Turned(c: Config, s: State, who: Who, turn: Turn): State {
    var seen := Others(c, s, who, turn.others);
    var next := Step(c, seen, OwnAction(who, seen, turn));
    if next.Some? then next.value else seen
  }

  /** The state after `k` turns. */
  function Driven(c: Config, p: Plan, k: nat): State {
    if k == 0 then p.start else Turned(c, Driven(c, p, k - 1), p.who, TurnAt(p.turns, k - 1))
  }

  /** What the thread finds when it takes its own step of turn number `k`. */
  function Sees(c: Config, p: Plan, k: nat): State {
    Others(c, Driven(c, p, k), p.who, TurnAt(p.turns, k).others)
  }

  // ---------------------------------------------------------------------------------------------
  // What a thread may rely on while the others act: its own position, and what only it can change

  predicate Undisturbed(who: Who, s: State, s': State) {
    match who
    case ACaller(t, _) =>
      && (t in s'.callers.calls <==> t in s.callers.calls)
      && (t in s.callers.calls ==> s'.callers.calls[t] == s.callers.calls[t])
      && ByCaller(s'.publish.pushed, t) == ByCaller(s.publish.pushed, t)
      && ByCaller(Offers(s'.reliable.offers), t) == ByCaller(Offers(s.reliable.offers), t)
    case ThePublisher =>
      s.publish.thread != PubOff ==>
        s'.publish.thread == s.publish.thread && s'.publish.finished == s.publish.finished
        && s'.publish.nextMessageId == s.publish.nextMessageId && s.publish.queue <= s'.publish.queue
        && s'.publish.packetsPublished == s.publish.packetsPublished && s'.publish.sendErrors == s.publish.sendErrors
    case ThePusher =>
      s.reliable.thread != PushOff ==>
        s'.reliable.thread == s.reliable.thread && s'.reliable.handled == s.reliable.handled
        && s.reliable.queue <= s'.reliable.queue
    case TheCommander =>
      s.command.thread != CmdOff ==> s'.command == s.command
    case TheController(_) =>
      && s'.control == s.control
      && (s.publish.thread == PubOff ==> s'.publish.thread == PubOff)
      && (s.command.thread == CmdOff ==> s'.command.thread == CmdOff)
      && (s.reliable.thread == PushOff ==> s'.reliable.thread == PushOff)
  }

  lemma OthersLeaveCaller(c: Config, s: State, a: Action, s': State, t: ThreadId, p: PacketInfo)
    requires Step(c, s, a) == Some(s') && !Acts(ACaller(t, p), a)
    ensures Undisturbed(ACaller(t, p), s, s')
  {
    if a.Continue? {
      OtherCallLeavesHistories(c, s, a.t, s', t);
    } else {
      assert s'.publish.pushed == s.publish.pushed && s'.reliable.offers == s.reliable.offers;
    }
  }

  lemma OtherCallLeavesHistories(c: Config, s: State, u: ThreadId, s': State, t: ThreadId)
    requires ContinueStep(c, s, u) == Some(s') && u != t
    ensures ByCaller(s'.publish.pushed, t) == ByCaller(s.publish.pushed, t)
    ensures ByCaller(Offers(s'.reliable.offers), t) == ByCaller(Offers(s.reliable.offers), t)
  {
    var k := s.callers.calls[u];
    if k.Passed? && c.reliable {
      var o := Last(s'.reliable.offers);
      OffersSnoc(s.reliable.offers, o);
      ByCallerSnoc(Offers(s.reliable.offers), o.entry, t);
    } else if k.Offered? {
      ByCallerSnoc(s.publish.pushed, Entry(u, k.packet), t);
    }
  }

  lemma OthersLeaveWorker(c: Config, s: State, a: Action, s': State, who: Who)
    requires Lives(c, s) && Step(c, s, a) == Some(s') && !Acts(who, a)
    requires who.ThePublisher? || who.ThePusher? || who.TheCommander?
    ensures Undisturbed(who, s, s')
  {
    if a.Initialize? {
      InitializeTouches(c, s, a.outcome, s');
    }
  }

  lemma OthersDoNotDisturb(c: Config, s: State, a: Action, s': State, who: Who)
    requires Lives(c, s) && Step(c, s, a) == Some(s') && !Acts(who, a)
    ensures Undisturbed(who, s, s')
  {
    match who
    case ACaller(t, p) => OthersLeaveCaller(c, s, a, s', t, p);
    case TheController(_) =>
    case _ => OthersLeaveWorker(c, s, a, s', who);
  }

  lemma OtherDoesNotDisturb(c: Config, s: State, who: Who, a: Action)
    requires Invariant(c, s)
    ensures Invariant(c, Other(c, s, who, a)) && Undisturbed(who, s, Other(c, s, who, a))
  {
    if !Acts(who, a) && Step(c, s, a).Some? {
      InvariantKept(c, s, a, Step(c, s, a).value);
      OthersDoNotDisturb(c, s, a, Step(c, s, a).value, who);
    }
  }

  lemma UndisturbedTwice(who: Who, s: State, s': State, s'': State)
    requires Undisturbed(who, s, s') && Undisturbed(who, s', s'')
    ensures Undisturbed(who, s, s'')
  {
  }

  /** Whatever the others do: the invariant stays, and the thread is left where it is. */
  lemma {:induction false} OthersKeepInvariant(c: Config, s: State, who: Who, actions: seq<Action>)
    requires Invariant(c, s)
    ensures Invariant(c, Others(c, s, who, actions)) && Undisturbed(who, s, Others(c, s, who, actions))
    decreases |actions|
  {
    if actions != [] {
      OthersKeepInvariant(c, s, who, Front(actions));
      var before := Others(c, s, who, Front(actions));
      OtherDoesNotDisturb(c, before, who, Last(actions));
      UndisturbedTwice(who, s, before, Other(c, before, who, Last(actions)));
    }
  }

  lemma TurnedKeepsInvariant(c: Config, s: State, who: Who, turn: Turn)
    requires Invariant(c, s)
    ensures Invariant(c, Turned(c, s, who, turn))
  {
    OthersKeepInvariant(c, s, who, turn.others);
    var seen := Others(c, s, who, turn.others);
    var a := OwnAction(who, seen, turn);
    if Step(c, seen, a).Some? {
      InvariantKept(c, seen, a, Step(c, seen, a).value);
    }
  }

  lemma {:induction false} DrivenKeepsInvariant(c: Config, p: Plan, k: nat)
    requires Invariant(c, p.start)
    ensures Invariant(c, Driven(c, p, k))
    decreases k
  {
    if k > 0 {
      DrivenKeepsInvariant(c, p, k - 1);
      TurnedKeepsInvariant(c, Driven(c, p, k - 1), p.who, TurnAt(p.turns, k - 1));
    }
  }

  lemma DrivenInvariant(c: Config, p: Plan, k: nat)
    requires Reachable(c, p.start)
    ensures Invariant(c, Driven(c, p, k))
  {
    ReachableInvariant(c, p.start);
    DrivenKeepsInvariant(c, p, k);
  }

  lemma SeesInvariant(c: Config, p: Plan, k: nat)
    requires Invariant(c, Driven(c, p, k))
    ensures Invariant(c, Sees(c, p, k)) && Undisturbed(p.who, Driven(c, p, k), Sees(c, p, k))
  {
    OthersKeepInvariant(c, Driven(c, p, k), p.who, TurnAt(p.turns, k).others);
  }

  // ---------------------------------------------------------------------------------------------
  // Histories grow, and `running_` stays set unless a turn says `Shutdown`

  predicate Grown(s: State, s': State) {
    && s.publish.pushed <= s'.publish.pushed && s.publish.finished <= s'.publish.finished
    && KeptPackets(s.reliable.offers) <= KeptPackets(s'.reliable.offers)
    && s.reliable.handled <= s'.reliable.handled
  }

  lemma StepGrowsAll(c: Config, s: State, a: Action, s': State)
    requires Step(c, s, a) == Some(s')
    ensures Grown(s, s')
    ensures s.control.running && a != Shutdown ==> s'.control.running
  {
    if s'.reliable.offers != s.reliable.offers {
      assert a.Continue? && s.callers.calls[a.t].Passed?;
      OffersSnoc(s.reliable.offers, Last(s'.reliable.offers));
    }
  }

  predicate NoShutdown(turns: seq<Turn>) {
    forall turn :: turn in turns ==> Shutdown !in turn.others
  }

  lemma GrownTwice(s: State, s': State, s'': State)
    requires Grown(s, s') && Grown(s', s'')
    ensures Grown(s, s'')
  {
  }

  lemma OtherGrows(c: Config, s: State, who: Who, a: Action)
    ensures Grown(s, Other(c, s, who, a))
    ensures s.control.running && a != Shutdown ==> Other(c, s, who, a).control.running
  {
    if !Acts(who, a) && Step(c, s, a).Some? {
      StepGrowsAll(c, s, a, Step(c, s, a).value);
    }
  }

  lemma {:induction false} OthersGrow(c: Config, s: State, who: Who, actions: seq<Action>)
    ensures Grown(s, Others(c, s, who, actions))
    ensures s.control.running && Shutdown !in actions ==> Others(c, s, who, actions).control.running
    decreases |actions|
  {
    if actions != [] {
      OthersGrow(c, s, who, Front(actions));
      var before := Others(c, s, who, Front(actions));
      OtherGrows(c, before, who, Last(actions));
      GrownTwice(s, before, Other(c, before, who, Last(actions)));
    }
  }

  /** What the thread finds at its next step has grown, and runs if nobody shuts down. */
  lemma SeesGrown(c: Config, p: Plan, k: nat)
    ensures Grown(Driven(c, p, k), Sees(c, p, k))
    ensures NoShutdown(p.turns) && Driven(c, p, k).control.running ==> Sees(c, p, k).control.running
  {
    OthersGrow(c, Driven(c, p, k), p.who, TurnAt(p.turns, k).others);
  }

  lemma TurnedGrows(c: Config, s: State, who: Who, turn: Turn)
    ensures Grown(s, Turned(c, s, who, turn))
    ensures s.control.running && Shutdown !in turn.others && !who.TheController? ==> Turned(c, s, who, turn).control.running
  {
    OthersGrow(c, s, who, turn.others);
    var seen := Others(c, s, who, turn.others);
    var a := OwnAction(who, seen, turn);
    if Step(c, seen, a).Some? {
      StepGrowsAll(c, seen, a, Step(c, seen, a).value);
      GrownTwice(s, seen, Step(c, seen, a).value);
    }
  }

  lemma {:induction false} DrivenGrows(c: Config, p: Plan, k: nat)
    ensures Grown(p.start, Driven(c, p, k))
    ensures NoShutdown(p.turns) && p.start.control.running && !p.who.TheController? ==> Driven(c, p, k).control.running
    decreases k
  {
    if k > 0 {
      DrivenGrows(c, p, k - 1);
      TurnedGrows(c, Driven(c, p, k - 1), p.who, TurnAt(p.turns, k - 1));
      GrownTwice(p.start, Driven(c, p, k - 1), Driven(c, p, k));
    }
  }

  // ---------------------------------------------------------------------------------------------
  // The publisher drains its queue, whatever the other threads do: six own steps are enough for a packet

  function PublisherPlace(thread: Publisher): int {
    match thread
    case PubOff => 0
    case PubTop => 0
    case PubLocked => 1
    case PubPopping => 2
    case PubHolding(_) => 3
    case PubSending(_, _) => 4
    case PubCounting => -1
    case PubFailing => -1
  }

  function PublisherDone(q: PublishSide): int {
    6 * |q.finished| + PublisherPlace(q.thread)
  }

  /** With `n` packets pushed and fewer finished, a step of the running publisher gets something done. */
  lemma PublisherStepGetsOn(q: PublishSide, ok: bool, q': PublishSide, n: nat)
    requires PublishPath(q) && PublisherStep(q, true, ok) == Some(q') && q.thread != PubOff
    requires |q.finished| < n <= |q.pushed|
    ensures PublisherDone(q') > PublisherDone(q) && q'.thread != PubOff
  {
    assert |FinishedPackets(q.finished) + InHand(q.thread) + q.queue| == |Packets(q.pushed)|;
  }

  /** One turn of the running publisher: `q` is what it finds, `q'` what it leaves. */
  predicate PublisherTurn(start: PublishSide, q: PublishSide, ok: bool, q': PublishSide) {
    && start.thread != PubOff && start.thread == q.thread && start.finished == q.finished
    && start.nextMessageId == q.nextMessageId && start.pushed <= q.pushed
    && PublishPath(q) && PublisherStep(q, true, ok) == Some(q')
  }

  lemma PublisherTakesTurn(c: Config, p: Plan, k: nat) returns (q: PublishSide)
    requires Reachable(c, p.start) && p.who == ThePublisher && NoShutdown(p.turns) && p.start.control.running
    requires Driven(c, p, k).publish.thread != PubOff
    ensures PublisherTurn(Driven(c, p, k).publish, q, TurnAt(p.turns, k).ok, Driven(c, p, k + 1).publish)
    ensures p.start.publish.pushed <= Driven(c, p, k).publish.pushed
    ensures p.start.publish.finished <= Driven(c, p, k).publish.finished
  {
    DrivenInvariant(c, p, k);
    SeesInvariant(c, p, k);
    DrivenGrows(c, p, k);
    SeesGrown(c, p, k);
    q := Sees(c, p, k).publish;
  }

  lemma {:induction false} PublisherGetsOn(c: Config, p: Plan, k: nat)
    requires Reachable(c, p.start) && p.who == ThePublisher && NoShutdown(p.turns)
    requires p.start.control.running && p.start.publish.thread != PubOff
    ensures var q, q' := p.start.publish, Driven(c, p, k).publish;
            && q'.thread != PubOff
            && (|q'.finished| >= |q.pushed| || PublisherDone(q') >= PublisherDone(q) + k)
    decreases k
  {
    if k > 0 {
      PublisherGetsOn(c, p, k - 1);
      var q := PublisherTakesTurn(c, p, k - 1);
      if |q.finished| < |p.start.publish.pushed| {
        PublisherStepGetsOn(q, TurnAt(p.turns, k - 1).ok, Driven(c, p, k).publish, |p.start.publish.pushed|);
      }
    }
  }

  /** After six own steps for each packet, all that had been pushed is finished, in order. */
  lemma PublisherDrains(c: Config, p: Plan, k: nat)
    requires Reachable(c, p.start) && p.who == ThePublisher && NoShutdown(p.turns)
    requires p.start.control.running && p.start.publish.thread == PubTop
    requires k >= 6 * |p.start.publish.queue|
    ensures Driven(c, p, k).publish.thread != PubOff
    ensures Packets(p.start.publish.pushed) <= FinishedPackets(Driven(c, p, k).publish.finished)
  {
    ReachableInvariant(c, p.start);
    PublisherGetsOn(c, p, k);
    DrivenKeepsInvariant(c, p, k);
    DrivenGrows(c, p, k);
    var q, q' := p.start.publish, Driven(c, p, k).publish;
    assert |FinishedPackets(q.finished) + InHand(q.thread) + q.queue| == |Packets(q.pushed)|;
    PushedAmongFinished(q', |q.pushed|);
    assert Packets(q'.pushed)[..|q.pushed|] == Packets(q.pushed);
  }

  lemma PushedAmongFinished(q: PublishSide, n: nat)
    requires PublishPath(q) && n <= |q.finished| && n <= |q.pushed|
    ensures Packets(q.pushed)[..n] <= FinishedPackets(q.finished)
  {
    var done, rest := FinishedPackets(q.finished), InHand(q.thread) + q.queue;
    assert done + rest == Packets(q.pushed);
    assert (done + rest)[..n] == done[..n];
  }

  /** All that was finished between the two states was sent, with consecutive ids. */
  predicate SentInBetween(q: PublishSide, q': PublishSide) {
    && q.finished <= q'.finished
    && (forall i :: |q.finished| <= i < |q'.finished| ==>
          q'.finished[i].outcome == Sent(q.nextMessageId + (i - |q.finished|)))
    && q'.nextMessageId == q.nextMessageId + (|q'.finished| - |q.finished|) + |InFlight(q'.thread)|
    && (q'.thread.PubSending? ==> q'.thread.id == q'.nextMessageId - 1)
  }

  /** If nothing throws, every packet goes out, with the next ids. */
  lemma {:induction false} PublisherSends(c: Config, p: Plan, k: nat)
    requires Reachable(c, p.start) && p.who == ThePublisher && p.start.publish.thread == PubTop
    requires NoShutdown(p.turns) && p.start.control.running
    requires forall turn :: turn in p.turns ==> turn.ok
    ensures SentInBetween(p.start.publish, Driven(c, p, k).publish)
    decreases k
  {
    if k > 0 {
      PublisherSends(c, p, k - 1);
      PublisherGetsOn(c, p, k - 1);
      var q := PublisherTakesTurn(c, p, k - 1);
      TurnSends(p.start.publish, Driven(c, p, k - 1).publish, q, Driven(c, p, k).publish);
    }
  }

  lemma TurnSends(start: PublishSide, before: PublishSide, q: PublishSide, q': PublishSide)
    requires SentInBetween(start, before) && PublisherTurn(before, q, true, q')
    ensures SentInBetween(start, q')
  {
  }

  // ---------------------------------------------------------------------------------------------
  // The reliable queue thread drains its queue: three own steps are enough for a packet

  function PusherPlace(thread: Pusher): int {
    match thread
    case PushOff => 0
    case PushTop => 0
    case PushLocked => 1
    case PushHolding(_) => 2
  }

  function PusherDone(r: ReliableSide): int {
    3 * |r.handled| + PusherPlace(r.thread)
  }

  lemma PusherStepGetsOn(c: Config, r: ReliableSide, result: SendResult, r': ReliableSide, n: nat)
    requires ReliablePath(c, r) && PusherStep(r, true, result) == Some(r') && r.thread != PushOff
    requires |r.handled| < n <= |KeptPackets(r.offers)|
    ensures PusherDone(r') > PusherDone(r) && r'.thread != PushOff
  {
    assert |HandledPackets(r.handled) + PushInHand(r.thread) + r.queue| == |KeptPackets(r.offers)|;
  }

  /** One turn of the running thread: `r` is what it finds, `r'` what it leaves. */
  predicate PusherTurn(c: Config, start: ReliableSide, r: ReliableSide, result: SendResult, r': ReliableSide) {
    && start.thread != PushOff && start.thread == r.thread && start.handled == r.handled
    && KeptPackets(start.offers) <= KeptPackets(r.offers)
    && ReliablePath(c, r) && PusherStep(r, true, result) == Some(r')
  }

  lemma PusherTakesTurn(c: Config, p: Plan, k: nat) returns (r: ReliableSide)
    requires Reachable(c, p.start) && p.who == ThePusher && NoShutdown(p.turns) && p.start.control.running
    requires Driven(c, p, k).reliable.thread != PushOff
    ensures PusherTurn(c, Driven(c, p, k).reliable, r, TurnAt(p.turns, k).result, Driven(c, p, k + 1).reliable)
    ensures KeptPackets(p.start.reliable.offers) <= KeptPackets(Driven(c, p, k).reliable.offers)
  {
    DrivenInvariant(c, p, k);
    SeesInvariant(c, p, k);
    DrivenGrows(c, p, k);
    SeesGrown(c, p, k);
    r := Sees(c, p, k).reliable;
  }

  lemma {:induction false} PusherGetsOn(c: Config, p: Plan, k: nat)
    requires Reachable(c, p.start) && p.who == ThePusher && NoShutdown(p.turns)
    requires p.start.control.running && p.start.reliable.thread != PushOff
    ensures var r, r' := p.start.reliable, Driven(c, p, k).reliable;
            && r'.thread != PushOff
            && (|r'.handled| >= |KeptPackets(r.offers)| || PusherDone(r') >= PusherDone(r) + k)
    decreases k
  {
    if k > 0 {
      PusherGetsOn(c, p, k - 1);
      var r := PusherTakesTurn(c, p, k - 1);
      var n := |KeptPackets(p.start.reliable.offers)|;
      if |r.handled| < n {
        PusherStepGetsOn(c, r, TurnAt(p.turns, k - 1).result, Driven(c, p, k).reliable, n);
      }
    }
  }

  /** After three own steps for each packet, all that had been kept is handled, in order. */
  lemma PusherDrains(c: Config, p: Plan, k: nat)
    requires Reachable(c, p.start) && p.who == ThePusher && NoShutdown(p.turns)
    requires p.start.control.running && p.start.reliable.thread == PushTop
    requires k >= 3 * |p.start.reliable.queue|
    ensures Driven(c, p, k).reliable.thread != PushOff
    ensures KeptPackets(p.start.reliable.offers) <= HandledPackets(Driven(c, p, k).reliable.handled)
  {
    ReachableInvariant(c, p.start);
    PusherGetsOn(c, p, k);
    DrivenKeepsInvariant(c, p, k);
    DrivenGrows(c, p, k);
    HandledCatchesUp(c, p.start.reliable, Driven(c, p, k).reliable);
  }

  lemma HandledCatchesUp(c: Config, r: ReliableSide, r': ReliableSide)
    requires ReliablePath(c, r) && ReliablePath(c, r') && r.thread == PushTop
    requires KeptPackets(r.offers) <= KeptPackets(r'.offers)
    requires |r'.handled| >= |KeptPackets(r.offers)| || PusherDone(r') >= PusherDone(r) + 3 * |r.queue|
    ensures KeptPackets(r.offers) <= HandledPackets(r'.handled)
  {
    assert |HandledPackets(r.handled) + PushInHand(r.thread) + r.queue| == |KeptPackets(r.offers)|;
    var done, rest := HandledPackets(r'.handled), PushInHand(r'.thread) + r'.queue;
    assert done + rest == KeptPackets(r'.offers);
    assert (done + rest)[..|KeptPackets(r.offers)|] == KeptPackets(r.offers);
  }

  // ---------------------------------------------------------------------------------------------
  // The command thread answers what it is asked: five own steps are enough for a request

  function CommanderPlace(thread: Commander): int {
    match thread
    case CmdOff => 0
    case CmdTop => 0
    case CmdReceiving => 1
    case CmdGot(_) => 2
    case CmdReplying(_) => 3
    case CmdCounting => -1
  }

  function CommanderDone(m: CommandSide): int {
    5 * |m.replies| + CommanderPlace(m.thread)
  }

  /** The thread runs, and its socket owes a reply only while the thread is about to give it. */
  predicate InDialogue(m: CommandSide) {
    && m.thread != CmdOff
    && m.socket == (if m.thread.CmdGot? || m.thread.CmdReplying? then AwaitReply else AwaitRequest)
  }

  /** Every turn of the schedule has a request waiting, and no send fails. */
  predicate Asks(turns: seq<Turn>) {
    forall turn :: turn in turns ==> turn.event.request.Some? && turn.event.sent == Delivered
  }

  lemma CommanderStepGetsOn(c: Config, m: CommandSide, e: CommandEvent, m': CommandSide)
    requires InDialogue(m) && e.sent == Delivered && CommanderStep(c, m, true, e) == Some(m')
    ensures InDialogue(m') && m.replies <= m'.replies
    ensures e.request.Some? ==> CommanderDone(m') > CommanderDone(m)
  {
  }

  lemma CommanderTakesTurn(c: Config, p: Plan, k: nat)
    requires Reachable(c, p.start) && p.who == TheCommander && NoShutdown(p.turns) && p.start.control.running
    requires Driven(c, p, k).command.thread != CmdOff
    ensures CommanderStep(c, Driven(c, p, k).command, true, TurnAt(p.turns, k).event)
         == Some(Driven(c, p, k + 1).command)
  {
    DrivenInvariant(c, p, k);
    SeesInvariant(c, p, k);
    DrivenGrows(c, p, k);
    SeesGrown(c, p, k);
  }

  lemma {:induction false} CommanderGetsOn(c: Config, p: Plan, k: nat)
    requires Reachable(c, p.start) && p.who == TheCommander && NoShutdown(p.turns) && Asks(p.turns)
    requires p.start.control.running && InDialogue(p.start.command)
    ensures var m, m' := p.start.command, Driven(c, p, k).command;
            && InDialogue(m')
            && (k <= |p.turns| ==> CommanderDone(m') >= CommanderDone(m) + k)
            && (k >= |p.turns| ==> 5 * |m'.replies| + 3 >= CommanderDone(m) + |p.turns|)
    decreases k
  {
    if k > 0 {
      CommanderGetsOn(c, p, k - 1);
      CommanderTakesTurn(c, p, k - 1);
      CommanderStepGetsOn(c, Driven(c, p, k - 1).command, TurnAt(p.turns, k - 1).event, Driven(c, p, k).command);
    }
  }

  /** One more reply for every five turns. */
  lemma CommanderAnswers(c: Config, p: Plan, k: nat)
    requires Reachable(c, p.start) && p.who == TheCommander && NoShutdown(p.turns) && Asks(p.turns)
    requires p.start.control.running && p.start.command.thread == CmdTop && p.start.command.socket == AwaitRequest
    requires k >= |p.turns|
    ensures |Driven(c, p, k).command.replies| >= |p.start.command.replies| + |p.turns| / 5
  {
    CommanderGetsOn(c, p, k);
  }

  /** Whatever is asked, the thread does not exit while the relay runs. */
  lemma {:induction false} CommanderStays(c: Config, p: Plan, k: nat)
    requires Reachable(c, p.start) && p.who == TheCommander && NoShutdown(p.turns)
    requires p.start.control.running && p.start.command.thread != CmdOff
    ensures Driven(c, p, k).command.thread != CmdOff
    decreases k
  {
    if k > 0 {
      CommanderStays(c, p, k - 1);
      CommanderTakesTurn(c, p, k - 1);
    }
  }
}
