/**
  src/zmq_relay.cpp:84-293 in its own shape: the relay object and the code of its threads.

  Between two atomic regions of a thread, `Yield` lets the other threads take the steps that the schedule
  `turns` says, about which nothing is assumed. `Valid` says that the object's state is the one the machine
  reaches by the actions in `log`. `Took(plan, k)` says that it is the one to which `k` turns of the
  thread, as the machine has them, lead from the beginning of the call. A worker stops when its schedule
  is used up, so that every finite part of an execution is covered.
 */
module Relay {
  import opened Sequences
  import opened PacketTypes
  import opened RelayMachine
  import opened RelayInvariants
  import opened RelayTheorems
  import opened Schedules
  import opened Joins

  lemma OfferedByCaller(c: Config, r: ReliableSide, e: Entry)
    ensures ByCaller(Offers(OfferPacket(c, r, e).offers), e.caller)
         == ByCaller(Offers(r.offers), e.caller) + [e.packet]
  {
    var o := Last(OfferPacket(c, r, e).offers);
    OffersSnoc(r.offers, o);
    ByCallerSnoc(Offers(r.offers), e, e.caller);
  }

  /** A step of one call leaves the others. */
  lemma OtherCalls(calls: map<ThreadId, Call>, t: ThreadId, k: Call)
    ensures calls[t := k] - {t} == calls - {t} && calls - {t} - {t} == calls - {t}
    ensures t !in calls ==> calls - {t} == calls
  {
  }

  /** The machine's step at the second check. */
  lemma SocketStep(c: Config, s: State, t: ThreadId, p: PacketInfo)
    requires t in s.callers.calls && s.callers.calls[t] == SawRunning(p)
    ensures s.control.pubSocket ==> ContinueStep(c, s, t) == Some(s.(callers :=
      s.callers.(calls := s.callers.calls[t := Admitted(p)], admitted := s.callers.admitted + 1)))
    ensures !s.control.pubSocket ==> ContinueStep(c, s, t) == Some(s.(callers :=
      s.callers.(calls := s.callers.calls - {t})))
  {
  }

  /** Where a call of `PublishPacket` returns. */
  datatype PublishResult = NotRunning | NoSocket | Filtered | Queued

  /** The own steps of a call that returns there. */
  function StepsOf(r: PublishResult): nat {
    match r
    case NotRunning => 1
    case NoSocket => 2
    case Filtered => 3
    case Queued => 5
  }

  /** The own steps from popping a packet to counting it. */
  function TurnsFor(o: Outcome): nat {
    if o.LostWithoutId? then 2 else 3
  }

  /** The own steps from receiving a request to counting it. */
  function AnswerTurns(sent: SendResult): nat {
    if sent == Threw then 2 else 3
  }

  predicate NothingFails(turns: seq<Turn>) {
    forall turn :: turn in turns ==> turn.control.Succeeds?
  }

  lemma PublisherHasDrained(c: Config, p: Plan, k: nat)
    requires Reachable(c, p.start) && p.who == ThePublisher && p.start.publish.thread == PubTop
    requires k >= |p.turns| || Driven(c, p, k).publish.thread == PubOff
    ensures p.start.control.running && NoShutdown(p.turns) ==>
      && Driven(c, p, k).publish.thread != PubOff
      && (|p.turns| >= 6 * |p.start.publish.queue| ==>
            Packets(p.start.publish.pushed) <= FinishedPackets(Driven(c, p, k).publish.finished))
      && ((forall turn :: turn in p.turns ==> turn.ok) ==> SentInBetween(p.start.publish, Driven(c, p, k).publish))
  {
    if p.start.control.running && NoShutdown(p.turns) {
      PublisherGetsOn(c, p, k);
      if k >= 6 * |p.start.publish.queue| {
        PublisherDrains(c, p, k);
      }
      if forall turn :: turn in p.turns ==> turn.ok {
        PublisherSends(c, p, k);
      }
    }
  }

  lemma PusherHasDrained(c: Config, p: Plan, k: nat)
    requires Reachable(c, p.start) && p.who == ThePusher && p.start.reliable.thread == PushTop
    requires k >= |p.turns| || Driven(c, p, k).reliable.thread == PushOff
    ensures p.start.control.running && NoShutdown(p.turns) ==>
      && Driven(c, p, k).reliable.thread != PushOff
      && (|p.turns| >= 3 * |p.start.reliable.queue| ==>
            KeptPackets(p.start.reliable.offers) <= HandledPackets(Driven(c, p, k).reliable.handled))
  {
    if p.start.control.running && NoShutdown(p.turns) {
      PusherGetsOn(c, p, k);
      if k >= 3 * |p.start.reliable.queue| {
        PusherDrains(c, p, k);
      }
    }
  }

  lemma CommanderHasAnswered(c: Config, p: Plan, k: nat)
    requires Reachable(c, p.start) && p.who == TheCommander && p.start.command.thread == CmdTop
    requires k >= |p.turns| || Driven(c, p, k).command.thread == CmdOff
    ensures p.start.control.running && NoShutdown(p.turns) ==> Driven(c, p, k).command.thread != CmdOff
    ensures p.start.control.running && NoShutdown(p.turns) && Asks(p.turns) && p.start.command.socket == AwaitRequest
      ==> |Driven(c, p, k).command.replies| >= |p.start.command.replies| + |p.turns| / 5
  {
    if p.start.control.running && NoShutdown(p.turns) {
      CommanderStays(c, p, k);
      if Asks(p.turns) && p.start.command.socket == AwaitRequest {
        CommanderAnswers(c, p, k);
      }
    }
  }

  class ZmqRelay {
    const config: Config
    var control: Control
    var callers: Callers
    var publish: PublishSide
    var reliable: ReliableSide
    var command: CommandSide
    var turns: seq<Turn>
    ghost var log: seq<Action>

    function Now(): State
      reads this
    {
      State(control, callers, publish, reliable, command)
    }

    ghost predicate Valid()
      reads this
    {
      Execute(config, INITIAL, log) == Some(Now())
    }

    /** The plan of a call that begins now. */
    function PlanOf(who: Who): Plan
      reads this
    {
      Plan(who, Now(), turns)
    }

    /** `k` turns of the plan have been taken, no more and no less. */
    predicate Took(plan: Plan, k: nat)
      reads this
    {
      Now() == Driven(config, plan, k) && turns == Later(plan.turns, k)
    }

    constructor (config: Config, turns: seq<Turn>)
      ensures Valid() && log == [] && Now() == INITIAL
      ensures this.config == config && this.turns == turns
    {
      this.config := config;
      this.turns := turns;
      control, callers, publish, reliable, command :=
        INITIAL.control, INITIAL.callers, INITIAL.publish, INITIAL.reliable, INITIAL.command;
      log := [];
    }

    lemma ValidInvariant()
      requires Valid()
      ensures Invariant(config, Now())
    {
      ReachableInvariant(config, Now());
    }

    /** Records the action that took the object from `before` to its present state. */
    ghost method Note(before: State, a: Action)
      requires Execute(config, INITIAL, log) == Some(before) && Step(config, before, a) == Some(Now())
      modifies this`log
      ensures Valid() && log == old(log) + [a]
    {
      ExecuteSnoc(config, INITIAL, log, a);
      log := log + [a];
    }

    /** Records the thread's own step of turn number `k`. */
    ghost method NoteTurn(plan: Plan, k: nat)
      requires var seen := Sees(config, plan, k);
               && Execute(config, INITIAL, log) == Some(seen) && turns == Later(plan.turns, k + 1)
               && Step(config, seen, OwnAction(plan.who, seen, TurnAt(plan.turns, k))) == Some(Now())
      modifies this`log
      ensures Valid() && old(log) <= log && Took(plan, k + 1)
    {
      var seen := Sees(config, plan, k);
      Note(seen, OwnAction(plan.who, seen, TurnAt(plan.turns, k)));
    }

    /** Another thread takes the step `a` if it can. */
    method Interfere(who: Who, a: Action)
      requires Valid()
      modifies this
      ensures Valid() && old(log) <= log && turns == old(turns)
      ensures Now() == Other(config, old(Now()), who, a)
    {
      var next := Step(config, Now(), a);
      if !Acts(who, a) && next.Some? {
        ghost var before := Now();
        var s := next.value;
        control, callers, publish, reliable, command := s.control, s.callers, s.publish, s.reliable, s.command;
        Note(before, a);
      }
    }

    /** The other threads take those of the scheduled steps that they can take. */
    method Yield(who: Who, ghost plan: Plan, ghost k: nat) returns (turn: Turn)
      requires Valid() && Took(plan, k) && plan.who == who
      modifies this
      ensures Valid() && old(log) <= log && turn == TurnAt(plan.turns, k) && turns == Later(plan.turns, k + 1)
      ensures Now() == Sees(config, plan, k) && Undisturbed(who, old(Now()), Now())
      ensures old(turns) == [] ==> turn == QUIET && turns == [] && Now() == old(Now())
      ensures |turns| <= old(|turns|) && (old(turns) != [] ==> |turns| < old(|turns|))
    {
      ValidInvariant();
      SeesInvariant(config, plan, k);
      turn := QUIET;
      if turns != [] {
        turn, turns := turns[0], turns[1..];
        LetOthers(who, turn.others);
      }
    }

    method LetOthers(who: Who, actions: seq<Action>)
      requires Valid()
      modifies this
      ensures Valid() && old(log) <= log && turns == old(turns)
      ensures Now() == Others(config, old(Now()), who, actions)
    {
      for i := 0 to |actions|
        invariant Valid() && old(log) <= log && turns == old(turns)
        invariant Now() == Others(config, old(Now()), who, actions[..i])
      {
        assert Front(actions[..i + 1]) == actions[..i];
        Interfere(who, actions[i]);
      }
      assert actions[..|actions|] == actions;
    }

    /** The history since an earlier state of this object: what was left then has gone out first. */
    ghost method Leftovers(earlier: seq<Action>, s: State)
      requires Valid() && earlier <= log && Execute(config, INITIAL, earlier) == Some(s)
      ensures LeftoversFirst(s.publish, publish)
    {
      var rest := log[|earlier|..];
      assert log == earlier + rest;
      ExecuteConcat(config, INITIAL, earlier, rest);
      LeftoversGoFirst(config, s, rest);
    }

    // -------------------------------------------------------------------------------------------
    // PublishPacket (146-169)

    /** What the call does when no other thread acts during it. */
    ghost predicate PublishedAlone(before: State, packet: PacketInfo, r: PublishResult)
      reads this
    {
      && control == before.control && command == before.command && callers.calls == before.callers.calls
      && callers.packetsFiltered == before.callers.packetsFiltered + (if r == Filtered then 1 else 0)
      && publish.queue == before.publish.queue + (if r == Queued then [packet] else [])
      && reliable.queue == before.reliable.queue
           + (if r == Queued && config.reliable && |before.reliable.queue| < config.maxQueueSize then [packet] else [])
    }

    /** Where the call returns is decided by what it finds at its first two steps, and by the filter. */
    method PublishPacket(t: ThreadId, packet: PacketInfo) returns (r: PublishResult)
      requires Valid() && t !in callers.calls
      modifies this
      ensures Valid() && old(log) <= log && t !in callers.calls
      ensures Took(old(PlanOf(ACaller(t, packet))), StepsOf(r))
      ensures var plan := old(PlanOf(ACaller(t, packet)));
              r == if !Sees(config, plan, 0).control.running then NotRunning
                   else if !Sees(config, plan, 1).control.pubSocket then NoSocket
                   else if !config.filter(packet) then Filtered
                   else Queued
      ensures ByCaller(publish.pushed, t)
           == old(ByCaller(publish.pushed, t)) + if r == Queued then [packet] else []
      ensures ByCaller(Offers(reliable.offers), t)
           == old(ByCaller(Offers(reliable.offers), t)) + if r == Queued && config.reliable then [packet] else []
      ensures old(turns) == [] ==> PublishedAlone(old(Now()), packet, r)
    {
      ghost var plan := PlanOf(ACaller(t, packet));
      var running := CheckRunning(t, packet, plan);
      if !running { return NotRunning; }
      var admitted := CheckSocket(t, packet, plan);
      if !admitted { return NoSocket; }
      r := PublishAdmitted(t, packet, plan);
    }

    method PublishAdmitted(t: ThreadId, packet: PacketInfo, ghost plan: Plan) returns (r: PublishResult)
      requires Valid() && t in callers.calls && callers.calls[t] == Admitted(packet)
      requires Took(plan, 2) && plan.who == ACaller(t, packet)
      modifies this
      ensures Valid() && old(log) <= log && t !in callers.calls
      ensures Took(plan, StepsOf(r)) && r == (if config.filter(packet) then Queued else Filtered)
      ensures ByCaller(publish.pushed, t)
           == old(ByCaller(publish.pushed, t)) + if r == Queued then [packet] else []
      ensures ByCaller(Offers(reliable.offers), t)
           == old(ByCaller(Offers(reliable.offers), t)) + if r == Queued && config.reliable then [packet] else []
      ensures old(turns) == [] ==>
        && control == old(control) && command == old(command) && callers.calls == old(callers.calls) - {t}
        && callers.packetsFiltered == old(callers.packetsFiltered) + (if r == Filtered then 1 else 0)
        && publish.queue == old(publish.queue) + (if r == Queued then [packet] else [])
        && reliable.queue == old(reliable.queue)
             + (if r == Queued && config.reliable && |old(reliable.queue)| < config.maxQueueSize then [packet] else [])
    {
      var passed := ApplyFilter(t, packet, plan);
      if passed {
        OfferReliable(t, packet, plan);
        PushForPublishing(t, packet, plan);
        r := Queued;
      } else {
        r := Filtered;
      }
    }

    /** The first check: is the relay running? */
    method CheckRunning(t: ThreadId, packet: PacketInfo, ghost plan: Plan) returns (running: bool)
      requires Valid() && t !in callers.calls && Took(plan, 0) && plan.who == ACaller(t, packet)
      modifies this
      ensures Valid() && old(log) <= log && Took(plan, 1) && running == Sees(config, plan, 0).control.running
      ensures running ==> t in callers.calls && callers.calls[t] == SawRunning(packet)
      ensures !running ==> t !in callers.calls
      ensures ByCaller(publish.pushed, t) == old(ByCaller(publish.pushed, t))
      ensures ByCaller(Offers(reliable.offers), t) == old(ByCaller(Offers(reliable.offers), t))
      ensures old(turns) == [] ==>
        && turns == []
        && control == old(control) && command == old(command) && publish == old(publish) && reliable == old(reliable)
        && callers.calls - {t} == old(callers.calls) && callers.packetsFiltered == old(callers.packetsFiltered)
    {
      var turn := Yield(ACaller(t, packet), plan, 0);
      running := control.running;
      OtherCalls(callers.calls, t, SawRunning(packet));
      if running {
        callers := callers.(calls := callers.calls[t := SawRunning(packet)]);
      }
      NoteTurn(plan, 0);
    }

    /** The second check: is there a PUB socket? */
    method CheckSocket(t: ThreadId, packet: PacketInfo, ghost plan: Plan) returns (admitted: bool)
      requires Valid() && t in callers.calls && callers.calls[t] == SawRunning(packet)
      requires Took(plan, 1) && plan.who == ACaller(t, packet)
      modifies this
      ensures Valid() && old(log) <= log && Took(plan, 2) && admitted == Sees(config, plan, 1).control.pubSocket
      ensures admitted ==> t in callers.calls && callers.calls[t] == Admitted(packet)
      ensures !admitted ==> t !in callers.calls
      ensures ByCaller(publish.pushed, t) == old(ByCaller(publish.pushed, t))
      ensures ByCaller(Offers(reliable.offers), t) == old(ByCaller(Offers(reliable.offers), t))
      ensures old(turns) == [] ==>
        && turns == []
        && control == old(control) && command == old(command) && publish == old(publish) && reliable == old(reliable)
        && callers.calls - {t} == old(callers.calls) - {t} && callers.packetsFiltered == old(callers.packetsFiltered)
    {
      var turn := Yield(ACaller(t, packet), plan, 1);
      SocketStep(config, Now(), t, packet);
      admitted := control.pubSocket;
      OtherCalls(callers.calls, t, Admitted(packet));
      if admitted {
        callers := callers.(calls := callers.calls[t := Admitted(packet)], admitted := callers.admitted + 1);
      } else {
        callers := callers.(calls := callers.calls - {t});
      }
      NoteTurn(plan, 1);
    }

    method ApplyFilter(t: ThreadId, packet: PacketInfo, ghost plan: Plan) returns (passed: bool)
      requires Valid() && t in callers.calls && callers.calls[t] == Admitted(packet)
      requires Took(plan, 2) && plan.who == ACaller(t, packet)
      modifies this
      ensures Valid() && old(log) <= log && Took(plan, 3) && passed == config.filter(packet)
      ensures passed ==> t in callers.calls && callers.calls[t] == Passed(packet)
      ensures !passed ==> t !in callers.calls
      ensures ByCaller(publish.pushed, t) == old(ByCaller(publish.pushed, t))
      ensures ByCaller(Offers(reliable.offers), t) == old(ByCaller(Offers(reliable.offers), t))
      ensures old(turns) == [] ==>
        && turns == [] && control == old(control) && command == old(command)
        && publish == old(publish) && reliable == old(reliable)
        && callers.calls - {t} == old(callers.calls) - {t}
        && callers.packetsFiltered == old(callers.packetsFiltered) + (if passed then 0 else 1)
    {
      var turn := Yield(ACaller(t, packet), plan, 2);
      passed := config.filter(packet);
      OtherCalls(callers.calls, t, Passed(packet));
      if passed {
        callers := callers.(calls := callers.calls[t := Passed(packet)]);
      } else {
        callers := callers.(calls := callers.calls - {t}, packetsFiltered := callers.packetsFiltered + 1);
      }
      NoteTurn(plan, 2);
    }

    /** The push under `queue_mutex_`, which a full queue refuses. */
    method OfferReliable(t: ThreadId, packet: PacketInfo, ghost plan: Plan)
      requires Valid() && t in callers.calls && callers.calls[t] == Passed(packet)
      requires Took(plan, 3) && plan.who == ACaller(t, packet)
      modifies this
      ensures Valid() && old(log) <= log && Took(plan, 4)
      ensures t in callers.calls && callers.calls[t] == Offered(packet)
      ensures ByCaller(publish.pushed, t) == old(ByCaller(publish.pushed, t))
      ensures ByCaller(Offers(reliable.offers), t)
           == old(ByCaller(Offers(reliable.offers), t)) + if config.reliable then [packet] else []
      ensures old(turns) == [] ==>
        && turns == [] && control == old(control) && command == old(command) && publish == old(publish)
        && callers.calls - {t} == old(callers.calls) - {t} && callers.packetsFiltered == old(callers.packetsFiltered)
        && reliable.queue == old(reliable.queue)
             + (if config.reliable && |old(reliable.queue)| < config.maxQueueSize then [packet] else [])
    {
      var turn := Yield(ACaller(t, packet), plan, 3);
      ghost var before := reliable;
      OtherCalls(callers.calls, t, Offered(packet));
      callers := callers.(calls := callers.calls[t := Offered(packet)]);
      if config.reliable {
        OfferedByCaller(config, reliable, Entry(t, packet));
        var kept := |reliable.queue| < config.maxQueueSize;
        if kept {
          reliable := reliable.(queue := reliable.queue + [packet]);
        }
        reliable := reliable.(offers := reliable.offers + [Offer(Entry(t, packet), kept)]);
        assert reliable == OfferPacket(config, before, Entry(t, packet));
      }
      NoteTurn(plan, 3);
    }

    /** The push under `publish_mutex_`. */
    method PushForPublishing(t: ThreadId, packet: PacketInfo, ghost plan: Plan)
      requires Valid() && t in callers.calls && callers.calls[t] == Offered(packet)
      requires Took(plan, 4) && plan.who == ACaller(t, packet)
      modifies this
      ensures Valid() && old(log) <= log && Took(plan, 5) && t !in callers.calls
      ensures ByCaller(publish.pushed, t) == old(ByCaller(publish.pushed, t)) + [packet]
      ensures ByCaller(Offers(reliable.offers), t) == old(ByCaller(Offers(reliable.offers), t))
      ensures old(turns) == [] ==>
        && control == old(control) && command == old(command) && reliable == old(reliable)
        && callers.calls == old(callers.calls) - {t} && callers.packetsFiltered == old(callers.packetsFiltered)
        && publish.queue == old(publish.queue) + [packet]
    {
      var turn := Yield(ACaller(t, packet), plan, 4);
      ByCallerSnoc(publish.pushed, Entry(t, packet), t);
      publish := publish.(queue := publish.queue + [packet], pushed := publish.pushed + [Entry(t, packet)]);
      callers := callers.(calls := callers.calls - {t});
      NoteTurn(plan, 4);
    }

    // -------------------------------------------------------------------------------------------
    // PublisherThread (187-239)

    /**
      The loop takes the publisher's turns until it exits or the schedule ends. While the relay runs it does
      not exit, and in six turns for each packet queued at its start it finishes them all, in order.
     */
    method PublisherThread() returns (ghost steps: nat)
      requires Valid() && publish.thread == PubTop
      modifies this
      ensures Valid() && old(log) <= log && Took(old(PlanOf(ThePublisher)), steps)
      ensures publish.thread == PubOff || (publish.thread == PubTop && turns == [])
      ensures LeftoversFirst(old(publish), publish) && InHand(publish.thread) == []
      ensures old(control.running) && NoShutdown(old(turns)) ==>
        && publish.thread == PubTop
        && (|old(turns)| >= 6 * |old(publish.queue)| ==>
              Packets(old(publish.pushed)) <= FinishedPackets(publish.finished))
        && ((forall turn :: turn in old(turns) ==> turn.ok) ==> SentInBetween(old(publish), publish))
    {
      ghost var plan, earlier := PlanOf(ThePublisher), log;
      steps := PublisherLoop(plan);
      PublisherEnds(plan, earlier, steps);
    }

    method PublisherLoop(ghost plan: Plan) returns (ghost steps: nat)
      requires Valid() && publish.thread == PubTop && Took(plan, 0) && plan.who == ThePublisher
      modifies this
      ensures Valid() && old(log) <= log && Took(plan, steps)
      ensures publish.thread == PubOff || (publish.thread == PubTop && turns == [])
    {
      steps := 0;
      while turns != []
        invariant Valid() && old(log) <= log && publish.thread == PubTop && Took(plan, steps)
        decreases |turns|
      {
        var goOn;
        goOn, steps := PublisherPass(plan, steps);
        if !goOn { break; }
      }
    }

    /** One pass of the loop: the two tests of `running_`, and the oldest packet if there is one. */
    method PublisherPass(ghost plan: Plan, ghost k: nat) returns (goOn: bool, ghost steps: nat)
      requires Valid() && publish.thread == PubTop && Took(plan, k) && plan.who == ThePublisher && turns != []
      modifies this
      ensures Valid() && old(log) <= log && Took(plan, steps) && |turns| < old(|turns|)
      ensures publish.thread == if goOn then PubTop else PubOff
    {
      goOn := TestRunning(plan, k);
      steps := k + 1;
      if !goOn { return; }
      goOn := TestRunningLocked(plan, steps);
      steps := steps + 1;
      if !goOn { return; }
      steps := PublishNext(plan, steps);
    }

    /** What is known of the publisher's work when its loop ends. */
    ghost method PublisherEnds(plan: Plan, earlier: seq<Action>, k: nat)
      requires Valid() && Took(plan, k) && plan.who == ThePublisher && plan.start.publish.thread == PubTop
      requires earlier <= log && Execute(config, INITIAL, earlier) == Some(plan.start)
      requires publish.thread == PubOff || turns == []
      ensures LeftoversFirst(plan.start.publish, publish)
      ensures plan.start.control.running && NoShutdown(plan.turns) ==>
        && publish.thread != PubOff
        && (|plan.turns| >= 6 * |plan.start.publish.queue| ==>
              Packets(plan.start.publish.pushed) <= FinishedPackets(publish.finished))
        && ((forall turn :: turn in plan.turns ==> turn.ok) ==> SentInBetween(plan.start.publish, publish))
    {
      Leftovers(earlier, plan.start);
      PublisherHasDrained(config, plan, k);
    }

    /** The loop condition. */
    method TestRunning(ghost plan: Plan, ghost k: nat) returns (goOn: bool)
      requires Valid() && publish.thread == PubTop && Took(plan, k) && plan.who == ThePublisher
      modifies this
      ensures Valid() && old(log) <= log && Took(plan, k + 1) && publish.finished == old(publish.finished)
      ensures publish.thread == if goOn then PubLocked else PubOff
      ensures old(turns) != [] ==> |turns| < old(|turns|)
    {
      var turn := Yield(ThePublisher, plan, k);
      goOn := control.running;
      publish := publish.(thread := if goOn then PubLocked else PubOff);
      NoteTurn(plan, k);
    }

    /** The second test, after the wait for a packet, a shutdown or the timeout. */
    method TestRunningLocked(ghost plan: Plan, ghost k: nat) returns (goOn: bool)
      requires Valid() && publish.thread == PubLocked && Took(plan, k) && plan.who == ThePublisher
      modifies this
      ensures Valid() && old(log) <= log && Took(plan, k + 1) && publish.finished == old(publish.finished)
      ensures publish.thread == (if goOn then PubPopping else PubOff) && |turns| <= old(|turns|)
    {
      var turn := Yield(ThePublisher, plan, k);
      goOn := control.running;
      publish := publish.(thread := if goOn then PubPopping else PubOff);
      NoteTurn(plan, k);
    }

    /** The rest of the loop's body. */
    method PublishNext(ghost plan: Plan, ghost k: nat) returns (ghost steps: nat)
      requires Valid() && publish.thread == PubPopping && Took(plan, k) && plan.who == ThePublisher
      modifies this
      ensures Valid() && old(log) <= log && |turns| <= old(|turns|) && publish.thread == PubTop && Took(plan, steps)
      ensures |publish.finished| <= |old(publish.finished)| + 1
      ensures old(publish.queue) != [] ==> |publish.finished| == |old(publish.finished)| + 1
                                           && Last(publish.finished).packet == old(publish.queue)[0]
    {
      var popped, packet := PopForPublishing(plan, k);
      steps := k + 1;
      if popped {
        var outcome := SendPopped(packet, plan, steps);
        steps := steps + TurnsFor(outcome);
      }
    }

    /** Takes the oldest packet, if there is one. */
    method PopForPublishing(ghost plan: Plan, ghost k: nat) returns (popped: bool, packet: PacketInfo)
      requires Valid() && publish.thread == PubPopping && Took(plan, k) && plan.who == ThePublisher
      modifies this
      ensures Valid() && old(log) <= log && |turns| <= old(|turns|) && Took(plan, k + 1)
      ensures publish.thread == if popped then PubHolding(packet) else PubTop
      ensures old(publish.queue) != [] ==> popped && packet == old(publish.queue)[0]
      ensures publish.finished == old(publish.finished)
    {
      packet := BLANK;
      var turn := Yield(ThePublisher, plan, k);
      popped := publish.queue != [];
      if popped {
        packet := publish.queue[0];
        publish := publish.(thread := PubHolding(packet), queue := publish.queue[1..]);
      } else {
        publish := publish.(thread := PubTop);
      }
      NoteTurn(plan, k);
    }

    /** One packet from the queue to a counter: it is finished once, under a fresh id or none. */
    method SendPopped(packet: PacketInfo, ghost plan: Plan, ghost k: nat) returns (outcome: Outcome)
      requires Valid() && publish.thread == PubHolding(packet) && Took(plan, k) && plan.who == ThePublisher
      modifies this
      ensures Valid() && old(log) <= log && |turns| <= old(|turns|) && publish.thread == PubTop
      ensures Took(plan, k + TurnsFor(outcome))
      ensures publish.finished == old(publish.finished) + [Finished(packet, outcome)]
      ensures !outcome.LostWithoutId? ==> outcome.id == old(publish.nextMessageId)
      ensures publish.nextMessageId == old(publish.nextMessageId) + if outcome.LostWithoutId? then 0 else 1
      ensures publish.packetsPublished == old(publish.packetsPublished) + if outcome.Sent? then 1 else 0
      ensures publish.sendErrors == old(publish.sendErrors) + if outcome.Sent? then 0 else 1
    {
      var numbered, id := AssignId(packet, plan, k);
      if numbered {
        outcome := SendAssigned(packet, id, plan, k + 1);
        CountPublished(plan, k + 2);
      } else {
        outcome := LostWithoutId;
        CountPublished(plan, k + 1);
      }
    }

    /** Everything up to `next_message_id_++`; what throws before that finishes the packet without an id. */
    method AssignId(packet: PacketInfo, ghost plan: Plan, ghost k: nat) returns (numbered: bool, id: nat)
      requires Valid() && publish.thread == PubHolding(packet) && Took(plan, k) && plan.who == ThePublisher
      modifies this
      ensures Valid() && old(log) <= log && |turns| <= old(|turns|) && Took(plan, k + 1)
      ensures publish.thread == (if numbered then PubSending(packet, id) else PubFailing)
      ensures id == old(publish.nextMessageId) && publish.nextMessageId == id + if numbered then 1 else 0
      ensures publish.finished
           == old(publish.finished) + if numbered then [] else [Finished(packet, LostWithoutId)]
      ensures publish.packetsPublished == old(publish.packetsPublished) && publish.sendErrors == old(publish.sendErrors)
    {
      var turn := Yield(ThePublisher, plan, k);
      numbered, id := turn.ok, publish.nextMessageId;
      if numbered {
        publish := publish.(thread := PubSending(packet, id), nextMessageId := id + 1);
      } else {
        publish := publish.(thread := PubFailing, finished := publish.finished + [Finished(packet, LostWithoutId)]);
      }
      NoteTurn(plan, k);
    }

    method SendAssigned(packet: PacketInfo, id: nat, ghost plan: Plan, ghost k: nat) returns (outcome: Outcome)
      requires Valid() && publish.thread == PubSending(packet, id) && Took(plan, k) && plan.who == ThePublisher
      modifies this
      ensures Valid() && old(log) <= log && |turns| <= old(|turns|) && Took(plan, k + 1)
      ensures publish.thread == (if outcome.Sent? then PubCounting else PubFailing)
      ensures outcome == Sent(id) || outcome == LostWithId(id)
      ensures publish.finished == old(publish.finished) + [Finished(packet, outcome)]
      ensures publish.nextMessageId == old(publish.nextMessageId)
      ensures publish.packetsPublished == old(publish.packetsPublished) && publish.sendErrors == old(publish.sendErrors)
    {
      var turn := Yield(ThePublisher, plan, k);
      if turn.ok {
        outcome := Sent(id);
        publish := publish.(thread := PubCounting, finished := publish.finished + [Finished(packet, Sent(id))]);
      } else {
        outcome := LostWithId(id);
        publish := publish.(thread := PubFailing, finished := publish.finished + [Finished(packet, LostWithId(id))]);
      }
      NoteTurn(plan, k);
    }

    method CountPublished(ghost plan: Plan, ghost k: nat)
      requires Valid() && (publish.thread == PubCounting || publish.thread == PubFailing)
      requires Took(plan, k) && plan.who == ThePublisher
      modifies this
      ensures Valid() && old(log) <= log && |turns| <= old(|turns|) && publish.thread == PubTop && Took(plan, k + 1)
      ensures publish.finished == old(publish.finished) && publish.nextMessageId == old(publish.nextMessageId)
      ensures publish.packetsPublished
           == old(publish.packetsPublished) + if old(publish.thread) == PubCounting then 1 else 0
      ensures publish.sendErrors == old(publish.sendErrors) + if old(publish.thread) == PubCounting then 0 else 1
    {
      var turn := Yield(ThePublisher, plan, k);
      if publish.thread == PubCounting {
        publish := publish.(thread := PubTop, packetsPublished := publish.packetsPublished + 1);
      } else {
        publish := publish.(thread := PubTop, sendErrors := publish.sendErrors + 1);
      }
      NoteTurn(plan, k);
    }

    // -------------------------------------------------------------------------------------------
    // ReliableQueueThread (268-293)

    /** While the relay runs, three turns for each packet queued at the start are enough to handle them all, in order. */
    method ReliableQueueThread() returns (ghost steps: nat)
      requires Valid() && reliable.thread == PushTop
      modifies this
      ensures Valid() && old(log) <= log && Took(old(PlanOf(ThePusher)), steps)
      ensures reliable.thread == PushOff || (reliable.thread == PushTop && turns == [])
      ensures HandledPackets(reliable.handled) + reliable.queue == KeptPackets(reliable.offers)
      ensures old(control.running) && NoShutdown(old(turns)) ==>
        && reliable.thread == PushTop
        && (|old(turns)| >= 3 * |old(reliable.queue)| ==>
              KeptPackets(old(reliable.offers)) <= HandledPackets(reliable.handled))
    {
      ghost var plan, earlier := PlanOf(ThePusher), log;
      steps := PusherLoop(plan);
      PusherEnds(plan, earlier, steps);
    }

    method PusherLoop(ghost plan: Plan) returns (ghost steps: nat)
      requires Valid() && reliable.thread == PushTop && Took(plan, 0) && plan.who == ThePusher
      modifies this
      ensures Valid() && old(log) <= log && Took(plan, steps)
      ensures reliable.thread == PushOff || (reliable.thread == PushTop && turns == [])
    {
      steps := 0;
      while turns != []
        invariant Valid() && old(log) <= log && reliable.thread == PushTop && Took(plan, steps)
        decreases |turns|
      {
        var goOn;
        goOn, steps := PusherPass(plan, steps);
        if !goOn { break; }
      }
    }

    /** One pass of the loop: the test of `running_`, and the oldest packet if there is one. */
    method PusherPass(ghost plan: Plan, ghost k: nat) returns (goOn: bool, ghost steps: nat)
      requires Valid() && reliable.thread == PushTop && Took(plan, k) && plan.who == ThePusher && turns != []
      modifies this
      ensures Valid() && old(log) <= log && Took(plan, steps) && |turns| < old(|turns|)
      ensures reliable.thread == if goOn then PushTop else PushOff
    {
      goOn := TestPushing(plan, k);
      steps := k + 1;
      if !goOn { return; }
      var popped, packet := PopReliable(plan, steps);
      steps := steps + 1;
      if popped {
        var result := SendReliable(packet, plan, steps);
        steps := steps + 1;
      }
    }

    ghost method PusherEnds(plan: Plan, earlier: seq<Action>, k: nat)
      requires Valid() && Took(plan, k) && plan.who == ThePusher && plan.start.reliable.thread == PushTop
      requires Execute(config, INITIAL, earlier) == Some(plan.start)
      requires reliable.thread == PushOff || (reliable.thread == PushTop && turns == [])
      ensures HandledPackets(reliable.handled) + reliable.queue == KeptPackets(reliable.offers)
      ensures plan.start.control.running && NoShutdown(plan.turns) ==>
        && reliable.thread != PushOff
        && (|plan.turns| >= 3 * |plan.start.reliable.queue| ==>
              KeptPackets(plan.start.reliable.offers) <= HandledPackets(reliable.handled))
    {
      ValidInvariant();
      assert HandledPackets(reliable.handled) + [] == HandledPackets(reliable.handled);
      PusherHasDrained(config, plan, k);
    }

    /** The loop condition. */
    method TestPushing(ghost plan: Plan, ghost k: nat) returns (goOn: bool)
      requires Valid() && reliable.thread == PushTop && Took(plan, k) && plan.who == ThePusher
      modifies this
      ensures Valid() && old(log) <= log && Took(plan, k + 1)
      ensures reliable.thread == (if goOn then PushLocked else PushOff) && reliable.handled == old(reliable.handled)
      ensures old(turns) != [] ==> |turns| < old(|turns|)
    {
      var turn := Yield(ThePusher, plan, k);
      goOn := control.running;
      reliable := reliable.(thread := if goOn then PushLocked else PushOff);
      NoteTurn(plan, k);
    }

    method PopReliable(ghost plan: Plan, ghost k: nat) returns (popped: bool, packet: PacketInfo)
      requires Valid() && reliable.thread == PushLocked && Took(plan, k) && plan.who == ThePusher
      modifies this
      ensures Valid() && old(log) <= log && |turns| <= old(|turns|) && Took(plan, k + 1)
      ensures reliable.thread == if popped then PushHolding(packet) else PushTop
      ensures old(reliable.queue) != [] ==> popped && packet == old(reliable.queue)[0]
      ensures reliable.handled == old(reliable.handled)
    {
      packet := BLANK;
      var turn := Yield(ThePusher, plan, k);
      popped := reliable.queue != [];
      if popped {
        packet := reliable.queue[0];
        reliable := reliable.(thread := PushHolding(packet), queue := reliable.queue[1..]);
      } else {
        reliable := reliable.(thread := PushTop);
      }
      NoteTurn(plan, k);
    }

    /** The result of the send is ignored, whatever it is. */
    method SendReliable(packet: PacketInfo, ghost plan: Plan, ghost k: nat) returns (result: SendResult)
      requires Valid() && reliable.thread == PushHolding(packet) && Took(plan, k) && plan.who == ThePusher
      modifies this
      ensures Valid() && old(log) <= log && |turns| <= old(|turns|) && reliable.thread == PushTop && Took(plan, k + 1)
      ensures reliable.handled == old(reliable.handled) + [Handled(packet, result)]
    {
      var turn := Yield(ThePusher, plan, k);
      result := turn.result;
      reliable := reliable.(thread := PushTop, handled := reliable.handled + [Handled(packet, result)]);
      NoteTurn(plan, k);
    }

    // -------------------------------------------------------------------------------------------
    // CommandThread (241-266)

    /** While the relay runs, requests are waiting and sends succeed, every five turns give a reply. */
    method CommandThread() returns (ghost steps: nat)
      requires Valid() && command.thread == CmdTop
      modifies this
      ensures Valid() && old(log) <= log && Took(old(PlanOf(TheCommander)), steps)
      ensures command.thread == CmdOff || (command.thread == CmdTop && turns == [])
      ensures LockStep(config, command)
      ensures old(command.requests) <= command.requests && old(command.replies) <= command.replies
      ensures old(command.socket) == AwaitReply ==> command.requests == old(command.requests)
      ensures old(control.running) && NoShutdown(old(turns)) ==> command.thread == CmdTop
      ensures old(control.running) && NoShutdown(old(turns)) && Asks(old(turns)) && old(command.socket) == AwaitRequest
        ==> |command.replies| >= |old(command.replies)| + |old(turns)| / 5
    {
      ghost var plan, earlier := PlanOf(TheCommander), log;
      steps := 0;
      while turns != []
        invariant Valid() && old(log) <= log && command.thread == CmdTop && Took(plan, steps)
        invariant old(command.requests) <= command.requests && old(command.replies) <= command.replies
        invariant old(command.socket) == AwaitReply ==> command.socket == AwaitReply && command.requests == old(command.requests)
        decreases |turns|
      {
        var goOn := TestServing(plan, steps);
        steps := steps + 1;
        if !goOn { break; }
        steps := ServeNext(plan, steps);
      }
      CommanderEnds(plan, earlier, steps);
    }

    ghost method CommanderEnds(plan: Plan, earlier: seq<Action>, k: nat)
      requires Valid() && Took(plan, k) && plan.who == TheCommander && plan.start.command.thread == CmdTop
      requires Execute(config, INITIAL, earlier) == Some(plan.start)
      requires command.thread == CmdOff || turns == []
      ensures LockStep(config, command)
      ensures plan.start.control.running && NoShutdown(plan.turns) ==> command.thread != CmdOff
      ensures plan.start.control.running && NoShutdown(plan.turns) && Asks(plan.turns)
              && plan.start.command.socket == AwaitRequest
        ==> |command.replies| >= |plan.start.command.replies| + |plan.turns| / 5
    {
      ValidInvariant();
      CommanderHasAnswered(config, plan, k);
    }

    /** The loop condition. */
    method TestServing(ghost plan: Plan, ghost k: nat) returns (goOn: bool)
      requires Valid() && command.thread == CmdTop && Took(plan, k) && plan.who == TheCommander
      modifies this
      ensures Valid() && old(log) <= log && Took(plan, k + 1)
      ensures command == old(command).(thread := if goOn then CmdReceiving else CmdOff)
      ensures old(turns) != [] ==> |turns| < old(|turns|)
    {
      var turn := Yield(TheCommander, plan, k);
      goOn := control.running;
      command := command.(thread := if goOn then CmdReceiving else CmdOff);
      NoteTurn(plan, k);
    }

    /** The rest of the loop's body: a socket that owes a reply keeps owing it. */
    method ServeNext(ghost plan: Plan, ghost k: nat) returns (ghost steps: nat)
      requires Valid() && command.thread == CmdReceiving && Took(plan, k) && plan.who == TheCommander
      modifies this
      ensures Valid() && old(log) <= log && |turns| <= old(|turns|) && command.thread == CmdTop && Took(plan, steps)
      ensures old(command.requests) <= command.requests && old(command.replies) <= command.replies
      ensures old(command.socket) == AwaitReply ==> command == old(command).(thread := CmdTop)
    {
      var received, request := ReceiveCommand(plan, k);
      steps := k + 1;
      if received {
        var sent := Answer(request, plan, steps);
        steps := steps + AnswerTurns(sent);
      }
    }

    /** A receive on a socket that owes a reply throws; the exception is caught. */
    method ReceiveCommand(ghost plan: Plan, ghost k: nat) returns (received: bool, request: string)
      requires Valid() && command.thread == CmdReceiving && Took(plan, k) && plan.who == TheCommander
      modifies this
      ensures Valid() && old(log) <= log && |turns| <= old(|turns|) && Took(plan, k + 1)
      ensures received ==> old(command.socket) == AwaitRequest
      ensures command == if received then
          old(command).(thread := CmdGot(request), socket := AwaitReply, requests := old(command.requests) + [request])
        else old(command).(thread := CmdTop)
    {
      request := "";
      var turn := Yield(TheCommander, plan, k);
      received := turn.event.request.Some? && command.socket == AwaitRequest;
      if received {
        request := turn.event.request.value;
        command := command.(thread := CmdGot(request), socket := AwaitReply, requests := command.requests + [request]);
      } else {
        command := command.(thread := CmdTop);
      }
      NoteTurn(plan, k);
    }

    /** Processes the command and replies. */
    method Answer(request: string, ghost plan: Plan, ghost k: nat) returns (sent: SendResult)
      requires Valid() && command.thread == CmdGot(request) && Took(plan, k) && plan.who == TheCommander
      modifies this
      ensures Valid() && old(log) <= log && |turns| <= old(|turns|) && Took(plan, k + AnswerTurns(sent))
      ensures command.requests == old(command.requests) && command.thread == CmdTop
      ensures command.replies == old(command.replies)
        + if sent == Delivered then [config.respond(TurnAt(plan.turns, k).event.time, request)] else []
    {
      var reply := Process(request, plan, k);
      sent := SendReply(reply, plan, k + 1);
    }

    method Process(request: string, ghost plan: Plan, ghost k: nat) returns (reply: string)
      requires Valid() && command.thread == CmdGot(request) && Took(plan, k) && plan.who == TheCommander
      modifies this
      ensures Valid() && old(log) <= log && |turns| <= old(|turns|) && Took(plan, k + 1)
      ensures reply == config.respond(TurnAt(plan.turns, k).event.time, request)
      ensures command == old(command).(thread := CmdReplying(reply),
                                       ticks := old(command.ticks) + [TurnAt(plan.turns, k).event.time])
    {
      var turn := Yield(TheCommander, plan, k);
      reply := config.respond(turn.event.time, request);
      command := command.(thread := CmdReplying(reply), ticks := command.ticks + [turn.event.time]);
      NoteTurn(plan, k);
    }

    /** Only a send that throws goes uncounted: one that would block is counted like a reply. */
    method SendReply(reply: string, ghost plan: Plan, ghost k: nat) returns (sent: SendResult)
      requires Valid() && command.thread == CmdReplying(reply) && Took(plan, k) && plan.who == TheCommander
      modifies this
      ensures Valid() && old(log) <= log && |turns| <= old(|turns|) && command.thread == CmdTop
      ensures Took(plan, k + AnswerTurns(sent) - 1)
      ensures command.requests == old(command.requests)
      ensures command.replies == old(command.replies) + if sent == Delivered then [reply] else []
      ensures command.commandsProcessed == old(command.commandsProcessed) + if sent == Threw then 0 else 1
      ensures command.socket == if sent == Delivered then AwaitRequest else old(command.socket)
    {
      sent := TrySend(reply, plan, k);
      if sent != Threw {
        CountCommand(plan, k + 1);
      }
    }

    method TrySend(reply: string, ghost plan: Plan, ghost k: nat) returns (sent: SendResult)
      requires Valid() && command.thread == CmdReplying(reply) && Took(plan, k) && plan.who == TheCommander
      modifies this
      ensures Valid() && old(log) <= log && |turns| <= old(|turns|) && Took(plan, k + 1)
      ensures command.thread == if sent == Threw then CmdTop else CmdCounting
      ensures command.requests == old(command.requests) && command.commandsProcessed == old(command.commandsProcessed)
      ensures command.replies == old(command.replies) + if sent == Delivered then [reply] else []
      ensures command.socket == if sent == Delivered then AwaitRequest else old(command.socket)
    {
      var turn := Yield(TheCommander, plan, k);
      sent := turn.event.sent;
      if sent == Threw {
        command := command.(thread := CmdTop);
      } else {
        command := command.(thread := CmdCounting, returned := command.returned + 1);
        if sent == Delivered {
          command := command.(socket := AwaitRequest, replies := command.replies + [reply]);
        }
      }
      NoteTurn(plan, k);
    }

    method CountCommand(ghost plan: Plan, ghost k: nat)
      requires Valid() && command.thread == CmdCounting && Took(plan, k) && plan.who == TheCommander
      modifies this
      ensures Valid() && old(log) <= log && |turns| <= old(|turns|) && Took(plan, k + 1)
      ensures command == old(command).(thread := CmdTop, commandsProcessed := old(command.commandsProcessed) + 1)
    {
      var turn := Yield(TheCommander, plan, k);
      command := command.(thread := CmdTop, commandsProcessed := command.commandsProcessed + 1);
      NoteTurn(plan, k);
    }

    // -------------------------------------------------------------------------------------------
    // Initialize (84-129) and Shutdown (131-144)

    /**
      Every stage succeeds or the call returns false, with what was started before that running; after a
      success the enabled workers run, whatever they have done in the meantime.
     */
    method Initialize() returns (success: bool, ghost steps: nat)
      requires Valid() && control.phase == Down
      modifies this
      ensures Valid() && old(log) <= log && Took(old(PlanOf(TheController(false))), steps) && steps > 0
      ensures success ==> steps == 8 && control.phase == Returned(true) && control.running
      ensures success ==> control.pubSocket == config.streaming && control.pushSocket == config.reliable
      ensures success ==> (command.socket != RepClosed <==> config.commands)
      ensures success ==>
        && (publish.thread != PubOff <==> config.streaming)
        && (command.thread != CmdOff <==> config.commands)
        && (reliable.thread != PushOff <==> config.reliable)
      ensures !success ==> control.phase == Down || control.phase == Returned(false)
      ensures NothingFails(old(turns)) ==> success
      ensures old(turns) == [] ==>
        && success
        && publish.thread == (if config.streaming then PubTop else PubOff)
        && command.thread == (if config.commands then CmdTop else CmdOff)
        && reliable.thread == (if config.reliable then PushTop else PushOff)
      ensures LeftoversFirst(old(publish), publish)
    {
      ghost var plan, earlier := PlanOf(TheController(false)), log;
      ValidInvariant();
      success := CreateContext(plan);
      steps := 1;
      if success {
        success, steps := OpenSockets(plan);
        if success {
          StartRunning(plan);
          success, steps := StartThreads(plan);
        }
      }
      Leftovers(earlier, plan.start);
      ValidInvariant();
    }

    method OpenSockets(ghost plan: Plan) returns (ok: bool, ghost steps: nat)
      requires Valid() && control.phase == Starting(0) && Took(plan, 1) && plan.who == TheController(false)
      modifies this
      ensures Valid() && old(log) <= log && control.phase == if ok then Starting(3) else Returned(false)
      ensures Took(plan, steps) && steps > 0 && (ok ==> steps == 4) && (NothingFails(plan.turns) ==> ok)
      ensures old(turns) == [] ==> ThreadsAre(old(publish.thread), old(command.thread), old(reliable.thread))
    {
      ok := OpenPub(plan);
      steps := 2;
      if !ok { return; }
      ok := OpenRepSocket(plan);
      steps := 3;
      if !ok { return; }
      ok := OpenPush(plan);
      steps := 4;
    }

    method StartThreads(ghost plan: Plan) returns (ok: bool, ghost steps: nat)
      requires Valid() && control.phase == Starting(4) && Took(plan, 5) && plan.who == TheController(false)
      modifies this
      ensures Valid() && old(log) <= log && control.running == old(control.running)
      ensures control.phase == Returned(ok)
      ensures Took(plan, steps) && steps > 0 && (ok ==> steps == 8) && (NothingFails(plan.turns) ==> ok)
      ensures old(turns) == [] ==>
        ThreadsAre(if config.streaming then PubTop else old(publish.thread),
                   if config.commands then CmdTop else old(command.thread),
                   if config.reliable then PushTop else old(reliable.thread))
    {
      ok := StartPublisherThread(plan);
      steps := 6;
      if !ok { return; }
      ok := StartCommandThread(plan);
      steps := 7;
      if !ok { return; }
      ok := StartReliableQueueThread(plan);
      steps := 8;
    }

    predicate ThreadsAre(p: Publisher, m: Commander, r: Pusher)
      reads this
    {
      turns == [] && publish.thread == p && command.thread == m && reliable.thread == r
    }

    method CreateContext(ghost plan: Plan) returns (ok: bool)
      requires Valid() && control.phase == Down && Took(plan, 0) && plan.who == TheController(false)
      modifies this
      ensures Valid() && old(log) <= log && Took(plan, 1) && (NothingFails(plan.turns) ==> ok)
      ensures control == if ok then old(control).(phase := Starting(0)) else old(control)
      ensures old(turns) == [] ==> ThreadsAre(old(publish.thread), old(command.thread), old(reliable.thread))
    {
      var turn := Yield(TheController(false), plan, 0);
      ok := turn.control.Succeeds?;
      if ok {
        control := control.(phase := Starting(0));
      }
      NoteTurn(plan, 0);
    }

    // A socket whose `bind` throws has been stored by then.

    method OpenPub(ghost plan: Plan) returns (ok: bool)
      requires Valid() && control.phase == Starting(0) && Took(plan, 1) && plan.who == TheController(false)
      modifies this
      ensures Valid() && old(log) <= log && Took(plan, 2) && (NothingFails(plan.turns) ==> ok)
      ensures control.phase == if ok then Starting(1) else Returned(false)
      ensures old(turns) == [] ==> ThreadsAre(old(publish.thread), old(command.thread), old(reliable.thread))
    {
      var turn := Yield(TheController(false), plan, 1);
      ok := true;
      if config.streaming {
        ok := turn.control.Succeeds?;
        control := control.(pubSocket := ok || turn.control.stored);
      }
      control := control.(phase := if ok then Starting(1) else Returned(false));
      NoteTurn(plan, 1);
    }

    method OpenRepSocket(ghost plan: Plan) returns (ok: bool)
      requires Valid() && control.phase == Starting(1) && Took(plan, 2) && plan.who == TheController(false)
      modifies this
      ensures Valid() && old(log) <= log && Took(plan, 3) && (NothingFails(plan.turns) ==> ok)
      ensures control.phase == if ok then Starting(2) else Returned(false)
      ensures old(turns) == [] ==> ThreadsAre(old(publish.thread), old(command.thread), old(reliable.thread))
    {
      var turn := Yield(TheController(false), plan, 2);
      ok := true;
      if config.commands {
        ok := turn.control.Succeeds?;
        command := OpenRep(command, ok || turn.control.stored);
      }
      control := control.(phase := if ok then Starting(2) else Returned(false));
      NoteTurn(plan, 2);
    }

    method OpenPush(ghost plan: Plan) returns (ok: bool)
      requires Valid() && control.phase == Starting(2) && Took(plan, 3) && plan.who == TheController(false)
      modifies this
      ensures Valid() && old(log) <= log && Took(plan, 4) && (NothingFails(plan.turns) ==> ok)
      ensures control.phase == if ok then Starting(3) else Returned(false)
      ensures old(turns) == [] ==> ThreadsAre(old(publish.thread), old(command.thread), old(reliable.thread))
    {
      var turn := Yield(TheController(false), plan, 3);
      ok := true;
      if config.reliable {
        ok := turn.control.Succeeds?;
        control := control.(pushSocket := ok || turn.control.stored);
      }
      control := control.(phase := if ok then Starting(3) else Returned(false));
      NoteTurn(plan, 3);
    }

    method StartRunning(ghost plan: Plan)
      requires Valid() && control.phase == Starting(3) && Took(plan, 4) && plan.who == TheController(false)
      modifies this
      ensures Valid() && old(log) <= log && Took(plan, 5)
      ensures control.phase == Starting(4) && control.running
      ensures old(turns) == [] ==> ThreadsAre(old(publish.thread), old(command.thread), old(reliable.thread))
    {
      var turn := Yield(TheController(false), plan, 4);
      control := control.(running := true, phase := Starting(4));
      NoteTurn(plan, 4);
    }

    // The threads, each only if it is enabled.

    method StartPublisherThread(ghost plan: Plan) returns (ok: bool)
      requires Valid() && control.phase == Starting(4) && Took(plan, 5) && plan.who == TheController(false)
      modifies this
      ensures Valid() && old(log) <= log && control.running == old(control.running)
      ensures Took(plan, 6) && (NothingFails(plan.turns) ==> ok)
      ensures control.phase == if ok then Starting(5) else Returned(false)
      ensures old(turns) == [] ==> ThreadsAre(if config.streaming then PubTop else old(publish.thread), old(command.thread), old(reliable.thread))
    {
      var turn := Yield(TheController(false), plan, 5);
      ok := true;
      if config.streaming {
        ok := turn.control.Succeeds?;
        if ok {
          publish := publish.(thread := PubTop);
        }
      }
      control := control.(phase := if ok then Starting(5) else Returned(false));
      NoteTurn(plan, 5);
    }

    method StartCommandThread(ghost plan: Plan) returns (ok: bool)
      requires Valid() && control.phase == Starting(5) && Took(plan, 6) && plan.who == TheController(false)
      modifies this
      ensures Valid() && old(log) <= log && control.running == old(control.running)
      ensures Took(plan, 7) && (NothingFails(plan.turns) ==> ok)
      ensures control.phase == if ok then Starting(6) else Returned(false)
      ensures old(turns) == [] ==> ThreadsAre(old(publish.thread), if config.commands then CmdTop else old(command.thread), old(reliable.thread))
    {
      var turn := Yield(TheController(false), plan, 6);
      ok := true;
      if config.commands {
        ok := turn.control.Succeeds?;
        if ok {
          command := command.(thread := CmdTop);
        }
      }
      control := control.(phase := if ok then Starting(6) else Returned(false));
      NoteTurn(plan, 6);
    }

    method StartReliableQueueThread(ghost plan: Plan) returns (ok: bool)
      requires Valid() && control.phase == Starting(6) && Took(plan, 7) && plan.who == TheController(false)
      modifies this
      ensures Valid() && old(log) <= log && control.running == old(control.running)
      ensures Took(plan, 8) && (NothingFails(plan.turns) ==> ok)
      ensures control.phase == if ok then Returned(true) else Returned(false)
      ensures old(turns) == [] ==> ThreadsAre(old(publish.thread), old(command.thread), if config.reliable then PushTop else old(reliable.thread))
    {
      var turn := Yield(TheController(false), plan, 7);
      ok := true;
      if config.reliable {
        ok := turn.control.Succeeds?;
        if ok {
          reliable := reliable.(thread := PushTop);
        }
      }
      control := control.(phase := if ok then Returned(true) else Returned(false));
      NoteTurn(plan, 7);
    }

    /** Returns, unless the schedule ends while a worker is still running: `completed` is false only then. */
    method Shutdown() returns (completed: bool, ghost steps: nat)
      requires Valid() && (control.phase == Down || control.phase.Returned?)
      modifies this
      ensures Valid() && old(log) <= log && !control.running
      ensures Took(old(PlanOf(TheController(true))), steps) && steps > 0
      ensures completed ==> control == Control(false, false, false, Down) && command.socket == RepClosed
      ensures completed ==> publish.thread == PubOff && command.thread == CmdOff && reliable.thread == PushOff
      ensures completed ==>
        publish.packetsPublished + publish.sendErrors + |publish.queue| == |publish.pushed|
      ensures !completed ==> turns == [] && control.phase.Stopping? && !Exited(control.phase.stage)
      ensures old(AllExited()) ==> completed
      ensures var n := |old(turns)|;
        (Scheduled(ThePublisher, old(turns), n) >= 5 && Scheduled(TheCommander, old(turns), n) >= 5
         && Scheduled(ThePusher, old(turns), n) >= 3) ==> completed
      ensures LeftoversFirst(old(publish), publish)
    {
      ghost var plan, earlier := PlanOf(TheController(true)), log;
      StopRunning(plan);
      assert !Driven(config, plan, 1).control.running;
      completed, steps := true, 1;
      var stage := 1;
      while completed && stage < 4
        invariant Valid() && earlier <= log && 1 <= stage <= 4 && !control.running && Took(plan, steps) && steps > 0
        invariant control.phase == Stopping(stage)
        invariant !completed ==> stage < 4 && turns == [] && !Exited(stage)
        invariant old(AllExited()) ==> AllExited()
        decreases 4 - stage, completed
      {
        completed, steps := Join(stage, plan, steps);
        if completed {
          stage := stage + 1;
        }
      }
      if completed {
        CloseSockets(plan, steps);
        steps := steps + 1;
      } else {
        ghost var n := |plan.turns|;
        if Scheduled(ThePublisher, plan.turns, n) >= 5 && Scheduled(TheCommander, plan.turns, n) >= 5
           && Scheduled(ThePusher, plan.turns, n) >= 3 {
          WorkersHaveExited(config, plan, steps);
        }
      }
      Leftovers(earlier, plan.start);
    }

    predicate AllExited()
      reads this
    {
      publish.thread == PubOff && command.thread == CmdOff && reliable.thread == PushOff
    }

    method StopRunning(ghost plan: Plan)
      requires Valid() && (control.phase == Down || control.phase.Returned?)
      requires Took(plan, 0) && plan.who == TheController(true)
      modifies this
      ensures Valid() && old(log) <= log && Took(plan, 1)
      ensures control == old(control).(running := false, phase := Stopping(1)) && (old(AllExited()) ==> AllExited())
    {
      var turn := Yield(TheController(true), plan, 0);
      control := control.(running := false, phase := Stopping(1));
      NoteTurn(plan, 0);
    }

    method CloseSockets(ghost plan: Plan, ghost k: nat)
      requires Valid() && control.phase == Stopping(4) && !control.running
      requires Took(plan, k) && plan.who == TheController(true)
      modifies this
      ensures Valid() && old(log) <= log && Took(plan, k + 1)
      ensures control == Control(false, false, false, Down) && command.socket == RepClosed
      ensures publish.thread == PubOff && command.thread == CmdOff && reliable.thread == PushOff
      ensures publish.packetsPublished + publish.sendErrors + |publish.queue| == |publish.pushed|
    {
      var turn := Yield(TheController(true), plan, k);
      control := Control(control.running, false, false, Down);
      command := command.(socket := RepClosed);
      NoteTurn(plan, k);
      ValidInvariant();
      PublishedExactlyOnceInOrder(config, Now());
    }

    /** Waits for the publisher, the command or the reliable queue thread to exit. */
    method Join(stage: nat, ghost plan: Plan, ghost k: nat) returns (joined: bool, ghost steps: nat)
      requires Valid() && 1 <= stage < 4 && control.phase == Stopping(stage)
      requires Took(plan, k) && plan.who == TheController(true)
      modifies this
      ensures Valid() && old(log) <= log && control.running == old(control.running)
      ensures control.phase == Stopping(if joined then stage + 1 else stage)
      ensures Took(plan, steps) && steps > k && (old(AllExited()) ==> AllExited())
      ensures !joined ==> turns == [] && !Exited(stage)
    {
      joined := TryJoin(stage, plan, k);
      steps := k + 1;
      while !joined && turns != []
        invariant Valid() && old(log) <= log && control.running == old(control.running)
        invariant control.phase == Stopping(if joined then stage + 1 else stage)
        invariant Took(plan, steps) && steps > k && (old(AllExited()) ==> AllExited())
        invariant !joined ==> !Exited(stage)
        decreases |turns|
      {
        joined := TryJoin(stage, plan, steps);
        steps := steps + 1;
      }
    }

    method TryJoin(stage: nat, ghost plan: Plan, ghost k: nat) returns (joined: bool)
      requires Valid() && 1 <= stage < 4 && control.phase == Stopping(stage)
      requires Took(plan, k) && plan.who == TheController(true)
      modifies this
      ensures Valid() && old(log) <= log && control.running == old(control.running) && Took(plan, k + 1)
      ensures control.phase == Stopping(if joined then stage + 1 else stage) && joined == Exited(stage)
      ensures old(turns) != [] ==> |turns| < old(|turns|)
      ensures old(AllExited()) ==> AllExited()
    {
      var turn := Yield(TheController(true), plan, k);
      joined := Exited(stage);
      if joined {
        control := control.(phase := Stopping(stage + 1));
        NoteTurn(plan, k);
      }
    }

    predicate Exited(stage: nat)
      reads this
    {
      if stage == 1 then publish.thread == PubOff
      else if stage == 2 then command.thread == CmdOff
      else reliable.thread == PushOff
    }
  }
}
