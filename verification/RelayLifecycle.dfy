/** Shutting down and restarting the relay, over every execution. */
module RelayLifecycle {
  import opened Sequences
  import opened RelayMachine
  import opened RelayInvariants
  import opened RelayTheorems

  // ---------------------------------------------------------------------------------------------
  // Once `running_` is false every worker is a bounded number of its own steps away from its exit

  function PublisherRank(thread: Publisher): nat {
    match thread
    case PubOff => 0
    case PubTop => 1
    case PubLocked => 1
    case PubCounting => 2
    case PubFailing => 2
    case PubSending(_, _) => 3
    case PubHolding(_) => 4
    case PubPopping => 5
  }

  function PusherRank(thread: Pusher): nat {
    match thread
    case PushOff => 0
    case PushTop => 1
    case PushHolding(_) => 2
    case PushLocked => 3
  }

  function CommanderRank(thread: Commander): nat {
    match thread
    case CmdOff => 0
    case CmdTop => 1
    case CmdCounting => 2
    case CmdReplying(_) => 3
    case CmdGot(_) => 4
    case CmdReceiving => 5
  }

  predicate NoInitialize(run: seq<Action>) {
    forall a :: a in run ==> !a.Initialize?
  }

  function PublisherSteps(run: seq<Action>): nat {
    if run == [] then 0 else PublisherSteps(Front(run)) + if Last(run).Publish? then 1 else 0
  }

  function PusherSteps(run: seq<Action>): nat {
    if run == [] then 0 else PusherSteps(Front(run)) + if Last(run).Push? then 1 else 0
  }

  function CommanderSteps(run: seq<Action>): nat {
    if run == [] then 0 else CommanderSteps(Front(run)) + if Last(run).Serve? then 1 else 0
  }

  lemma RanksFall(c: Config, s: State, a: Action, s': State)
    requires !s.control.running && !a.Initialize? && Step(c, s, a) == Some(s')
    ensures !s'.control.running
    ensures PublisherRank(s'.publish.thread) + (if a.Publish? then 1 else 0) <= PublisherRank(s.publish.thread)
    ensures PusherRank(s'.reliable.thread) + (if a.Push? then 1 else 0) <= PusherRank(s.reliable.thread)
    ensures CommanderRank(s'.command.thread) + (if a.Serve? then 1 else 0) <= CommanderRank(s.command.thread)
  {
    match a
    case Publish(ok) =>
    case Push(result) =>
    case Serve(event) =>
    case _ =>
  }

  /** The bound on the workers' steps, for every execution that follows a cleared `running_`. */
  lemma {:induction false} WorkersExitSoon(c: Config, s: State, run: seq<Action>)
    requires !s.control.running && NoInitialize(run) && Execute(c, s, run).Some?
    ensures var s' := Execute(c, s, run).value;
            && !s'.control.running
            && PublisherSteps(run) + PublisherRank(s'.publish.thread) <= PublisherRank(s.publish.thread) <= 5
            && PusherSteps(run) + PusherRank(s'.reliable.thread) <= PusherRank(s.reliable.thread) <= 3
            && CommanderSteps(run) + CommanderRank(s'.command.thread) <= CommanderRank(s.command.thread) <= 5
    decreases |run|
  {
    if run != [] {
      assert NoInitialize(Front(run));
      WorkersExitSoon(c, s, Front(run));
      RanksFall(c, Execute(c, s, Front(run)).value, Last(run), Execute(c, s, run).value);
    }
  }

  const IDLE: CommandEvent := CommandEvent(None, 0, Delivered)

  lemma WorkersAreNeverStuck(c: Config, s: State)
    ensures s.publish.thread != PubOff ==> Step(c, s, Publish(true)).Some?
    ensures s.reliable.thread != PushOff ==> Step(c, s, Push(Delivered)).Some?
    ensures s.command.thread != CmdOff ==> Step(c, s, Serve(IDLE)).Some?
  {
  }

  function Remaining(s: State): nat
    requires s.control.phase.Stopping?
  {
    PublisherRank(s.publish.thread) + PusherRank(s.reliable.thread) + CommanderRank(s.command.thread)
    + if s.control.phase.stage <= 4 then 5 - s.control.phase.stage else 0
  }

  /** The worker being joined, or once it is off the join itself, can take a step that brings the end closer. */
  lemma ShutdownAdvances(c: Config, s: State) returns (a: Action, next: State)
    requires Lives(c, s) && s.control.phase.Stopping?
    ensures Step(c, s, a) == Some(next) && !a.Initialize?
    ensures next.control.phase == Down || (next.control.phase.Stopping? && Remaining(next) < Remaining(s))
  {
    a := if s.publish.thread != PubOff then Publish(true)
         else if s.command.thread != CmdOff then Serve(IDLE)
         else if s.reliable.thread != PushOff then Push(Delivered)
         else Shutdown;
    WorkersAreNeverStuck(c, s);
    next := Step(c, s, a).value;
    if a != Shutdown {
      RanksFall(c, s, a, next);
    }
  }

  /** A shutdown in progress can always be completed, within `Remaining` steps. */
  lemma {:induction false} ShutdownCompletes(c: Config, s: State) returns (run: seq<Action>, s': State)
    requires Invariant(c, s) && s.control.phase.Stopping?
    ensures Execute(c, s, run) == Some(s') && s'.control.phase == Down && NoInitialize(run)
    ensures |run| <= Remaining(s)
    decreases Remaining(s)
  {
    var a, next := ShutdownAdvances(c, s);
    InvariantKept(c, s, a, next);
    ExecuteSnoc(c, s, [], a);
    assert [] + [a] == [a];
    if next.control.phase == Down {
      run, s' := [a], next;
    } else {
      var rest;
      rest, s' := ShutdownCompletes(c, next);
      run := [a] + rest;
      ExecuteConcat(c, s, [a], rest);
    }
  }

  /** After the joins no worker can take a step, nothing is in hand, and the counters are exact. */
  lemma DownIsQuiet(c: Config, s: State, a: Action)
    requires Reachable(c, s) && s.control.phase == Down
    ensures a.Publish? || a.Push? || a.Serve? ==> Step(c, s, a) == None
    ensures FinishedPackets(s.publish.finished) + s.publish.queue == Packets(s.publish.pushed)
    ensures HandledPackets(s.reliable.handled) + s.reliable.queue == KeptPackets(s.reliable.offers)
    ensures s.publish.packetsPublished == |Stream(s.publish.finished)|
    ensures s.publish.packetsPublished + s.publish.sendErrors + |s.publish.queue| == |s.publish.pushed|
    ensures s.command.commandsProcessed == s.command.returned
  {
    ReachableInvariant(c, s);
    PublishedExactlyOnceInOrder(c, s);
    assert FinishedPackets(s.publish.finished) + [] == FinishedPackets(s.publish.finished);
    assert HandledPackets(s.reliable.handled) + [] == HandledPackets(s.reliable.handled);
  }

  /** Nothing is sent on a closed socket. */
  lemma SocketsOutliveWorkers(c: Config, s: State)
    requires Reachable(c, s)
    ensures s.publish.thread != PubOff ==> s.control.pubSocket
    ensures s.reliable.thread != PushOff ==> s.control.pushSocket
    ensures s.command.thread != CmdOff ==> s.command.socket != RepClosed
  {
    ReachableInvariant(c, s);
  }

  /** Between a successful `Initialize` and the next shutdown exactly the enabled workers run. */
  lemma WorkersKeepRunning(c: Config, s: State)
    requires Reachable(c, s) && s.control.phase == Returned(true)
    ensures s.publish.thread != PubOff <==> c.streaming
    ensures s.command.thread != CmdOff <==> c.commands
    ensures s.reliable.thread != PushOff <==> c.reliable
    ensures s.control.running
  {
    ReachableInvariant(c, s);
  }

  /** `running_` is set only with exactly the enabled sockets open, and cleared before any is closed. */
  lemma RunningMeansOpen(c: Config, s: State)
    requires Reachable(c, s)
    ensures s.control.running ==>
      && s.control.pubSocket == c.streaming
      && (s.command.socket != RepClosed <==> c.commands)
      && s.control.pushSocket == c.reliable
    ensures s.control.phase == Down || s.control.phase.Stopping? ==> !s.control.running
    ensures s.control.phase == Down ==>
      !s.control.pubSocket && s.command.socket == RepClosed && !s.control.pushSocket
  {
    ReachableInvariant(c, s);
  }

  /** No step lowers a counter, not even one that opens sockets again. */
  lemma CountersNeverFall(c: Config, s: State, a: Action, s': State)
    requires Step(c, s, a) == Some(s')
    ensures s.publish.packetsPublished <= s'.publish.packetsPublished && s.publish.sendErrors <= s'.publish.sendErrors
    ensures s.publish.nextMessageId <= s'.publish.nextMessageId <= s.publish.nextMessageId + 1
    ensures s.callers.packetsFiltered <= s'.callers.packetsFiltered <= s.callers.packetsFiltered + 1
    ensures s.command.commandsProcessed <= s'.command.commandsProcessed <= s.command.commandsProcessed + 1
  {
  }

  /** While `Initialize` is at work: the sockets in the order PUB, REP, PUSH, then `running_`, then the threads. */
  lemma StartedInOrder(c: Config, s: State)
    requires Reachable(c, s) && s.control.phase.Starting?
    ensures var k, stage := s.control, s.control.phase.stage;
      && (k.pubSocket <==> c.streaming && stage >= 1)
      && (s.command.socket != RepClosed <==> c.commands && stage >= 2)
      && (k.pushSocket <==> c.reliable && stage >= 3)
      && (k.running <==> stage >= 4)
      && (s.publish.thread != PubOff <==> c.streaming && stage >= 5)
      && (s.command.thread != CmdOff <==> c.commands && stage >= 6)
      && s.reliable.thread == PushOff
  {
    ReachableInvariant(c, s);
  }

  /** While `Shutdown` is at work: the publisher, the command and the reliable queue thread are joined in this order. */
  lemma JoinedInOrder(c: Config, s: State)
    requires Reachable(c, s) && s.control.phase.Stopping?
    ensures s.control.phase.stage >= 2 ==> s.publish.thread == PubOff
    ensures s.control.phase.stage >= 3 ==> s.command.thread == CmdOff
    ensures s.control.phase.stage >= 4 ==> s.reliable.thread == PushOff
    ensures !s.control.running
  {
    ReachableInvariant(c, s);
  }
}
