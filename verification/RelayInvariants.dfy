/** What every step of the relay keeps, and hence every execution from its construction on. */
module RelayInvariants {
  import opened Sequences
  import opened PacketTypes
  import opened RelayMachine

  // ---------------------------------------------------------------------------------------------
  // Views of the histories

  function Packets(entries: seq<Entry>): seq<PacketInfo> {
    seq(|entries|, i requires 0 <= i < |entries| => entries[i].packet)
  }

  function FinishedPackets(finished: seq<Finished>): seq<PacketInfo> {
    seq(|finished|, i requires 0 <= i < |finished| => finished[i].packet)
  }

  function HandledPackets(handled: seq<Handled>): seq<PacketInfo> {
    seq(|handled|, i requires 0 <= i < |handled| => handled[i].packet)
  }

  function Offers(offers: seq<Offer>): seq<Entry> {
    seq(|offers|, i requires 0 <= i < |offers| => offers[i].entry)
  }

  /** A message on the PUB socket. */
  datatype Message = Message(id: nat, packet: PacketInfo)

  /** What left the PUB socket. */
  function Stream(finished: seq<Finished>): seq<Message> {
    if finished == [] then []
    else
      var f := Last(finished);
      if f.outcome.Sent? then Stream(Front(finished)) + [Message(f.outcome.id, f.packet)]
      else Stream(Front(finished))
  }

  /** The message ids handed out, sent or not. */
  function AssignedIds(finished: seq<Finished>): seq<nat> {
    if finished == [] then []
    else
      var o := Last(finished).outcome;
      if o.LostWithoutId? then AssignedIds(Front(finished)) else AssignedIds(Front(finished)) + [o.id]
  }

  function KeptPackets(offers: seq<Offer>): seq<PacketInfo> {
    if offers == [] then []
    else if Last(offers).kept then KeptPackets(Front(offers)) + [Last(offers).entry.packet]
    else KeptPackets(Front(offers))
  }

  /** What left the PUSH socket. */
  function PushStream(handled: seq<Handled>): seq<PacketInfo> {
    if handled == [] then []
    else if Last(handled).result == Delivered then PushStream(Front(handled)) + [Last(handled).packet]
    else PushStream(Front(handled))
  }

  function ByCaller(entries: seq<Entry>, t: ThreadId): seq<PacketInfo> {
    if entries == [] then []
    else if Last(entries).caller == t then ByCaller(Front(entries), t) + [Last(entries).packet]
    else ByCaller(Front(entries), t)
  }

  lemma FinishedSnoc(finished: seq<Finished>, f: Finished)
    ensures FinishedPackets(finished + [f]) == FinishedPackets(finished) + [f.packet]
    ensures Stream(finished + [f]) ==
      if f.outcome.Sent? then Stream(finished) + [Message(f.outcome.id, f.packet)] else Stream(finished)
    ensures AssignedIds(finished + [f]) ==
      if f.outcome.LostWithoutId? then AssignedIds(finished) else AssignedIds(finished) + [f.outcome.id]
  {
    assert Front(finished + [f]) == finished;
  }

  lemma OffersSnoc(offers: seq<Offer>, o: Offer)
    ensures KeptPackets(offers + [o]) ==
      if o.kept then KeptPackets(offers) + [o.entry.packet] else KeptPackets(offers)
    ensures Offers(offers + [o]) == Offers(offers) + [o.entry]
  {
    assert Front(offers + [o]) == offers;
  }

  lemma HandledSnoc(handled: seq<Handled>, x: Handled)
    ensures HandledPackets(handled + [x]) == HandledPackets(handled) + [x.packet]
    ensures PushStream(handled + [x]) ==
      if x.result == Delivered then PushStream(handled) + [x.packet] else PushStream(handled)
  {
    assert Front(handled + [x]) == handled;
  }

  lemma ByCallerSnoc(entries: seq<Entry>, e: Entry, t: ThreadId)
    ensures ByCaller(entries + [e], t) ==
      if e.caller == t then ByCaller(entries, t) + [e.packet] else ByCaller(entries, t)
  {
    assert Front(entries + [e]) == entries;
  }

  // ---------------------------------------------------------------------------------------------
  // The publish path: exactly once, in order, with gap-free ids and honest counters

  function InHand(thread: Publisher): seq<PacketInfo> {
    if thread.PubHolding? || thread.PubSending? then [thread.packet] else []
  }

  function InFlight(thread: Publisher): seq<nat> {
    if thread.PubSending? then [thread.id] else []
  }

  /** The ids 1, 2, ... below `next`. */
  function IdsBelow(next: nat): seq<nat>
    requires next >= 1
  {
    seq(next - 1, i requires 0 <= i => i + 1)
  }

  predicate PublishPath(q: PublishSide) {
    FinishedPackets(q.finished) + InHand(q.thread) + q.queue == Packets(q.pushed)
  }

  predicate PublishIds(q: PublishSide) {
    q.nextMessageId >= 1 && AssignedIds(q.finished) + InFlight(q.thread) == IdsBelow(q.nextMessageId)
  }

  /** The counters lag behind the sends by the publisher's next step. `publish_dropped` never moves. */
  predicate PublishCounts(q: PublishSide) {
    && q.packetsPublished + (if q.thread == PubCounting then 1 else 0) == |Stream(q.finished)|
    && q.sendErrors + (if q.thread == PubFailing then 1 else 0) == |q.finished| - |Stream(q.finished)|
    && q.publishDropped == 0
  }

  lemma PushKeepsPublish(q: PublishSide, e: Entry)
    requires PublishPath(q) && PublishIds(q) && PublishCounts(q)
    ensures PublishPath(PushPacket(q, e)) && PublishIds(PushPacket(q, e)) && PublishCounts(PushPacket(q, e))
  {
    assert Packets(q.pushed + [e]) == Packets(q.pushed) + [e.packet];
  }

  lemma PublisherKeepsPath(q: PublishSide, running: bool, ok: bool, q': PublishSide)
    requires PublishPath(q) && PublisherStep(q, running, ok) == Some(q')
    ensures PublishPath(q')
  {
    if q'.finished != q.finished {
      FinishedSnoc(q.finished, Last(q'.finished));
    } else if q.thread.PubPopping? && q.queue != [] {
      assert q.queue == [q.queue[0]] + q.queue[1..];
    }
  }

  lemma PublisherKeepsIds(q: PublishSide, running: bool, ok: bool, q': PublishSide)
    requires PublishIds(q) && PublisherStep(q, running, ok) == Some(q')
    ensures PublishIds(q')
  {
    if q'.finished != q.finished {
      FinishedSnoc(q.finished, Last(q'.finished));
    } else if q'.thread.PubSending? {
      assert IdsBelow(q'.nextMessageId) == IdsBelow(q.nextMessageId) + [q.nextMessageId];
    }
  }

  lemma PublisherKeepsCounts(q: PublishSide, running: bool, ok: bool, q': PublishSide)
    requires PublishCounts(q) && PublisherStep(q, running, ok) == Some(q')
    ensures PublishCounts(q')
  {
    if q'.finished != q.finished {
      FinishedSnoc(q.finished, Last(q'.finished));
    }
  }

  // ---------------------------------------------------------------------------------------------
  // The reliable queue: bounded, and nothing kept is lost before it is handled

  function PushInHand(thread: Pusher): seq<PacketInfo> {
    if thread.PushHolding? then [thread.packet] else []
  }

  predicate ReliablePath(c: Config, r: ReliableSide) {
    && HandledPackets(r.handled) + PushInHand(r.thread) + r.queue == KeptPackets(r.offers)
    && |r.queue| <= c.maxQueueSize
  }

  lemma OfferKeepsReliable(c: Config, r: ReliableSide, e: Entry)
    requires ReliablePath(c, r)
    ensures ReliablePath(c, OfferPacket(c, r, e))
  {
    OffersSnoc(r.offers, Offer(e, true));
    OffersSnoc(r.offers, Offer(e, false));
  }

  lemma PusherKeepsReliable(c: Config, r: ReliableSide, running: bool, result: SendResult, r': ReliableSide)
    requires ReliablePath(c, r) && PusherStep(r, running, result) == Some(r')
    ensures ReliablePath(c, r')
  {
    if r.thread.PushHolding? {
      HandledSnoc(r.handled, Last(r'.handled));
    } else if r.thread.PushLocked? && r.queue != [] {
      assert r.queue == [r.queue[0]] + r.queue[1..];
    }
  }

  // ---------------------------------------------------------------------------------------------
  // Each caller's packets reach both queues in the order of its calls

  function BetweenPushes(calls: map<ThreadId, Call>, t: ThreadId): seq<PacketInfo> {
    if t in calls && calls[t].Offered? then [calls[t].packet] else []
  }

  predicate CallerAgrees(offers: seq<Offer>, pushed: seq<Entry>, calls: map<ThreadId, Call>, t: ThreadId) {
    ByCaller(Offers(offers), t) == ByCaller(pushed, t) + BetweenPushes(calls, t)
  }

  ghost predicate PerCaller(c: Config, s: State) {
    c.reliable ==> forall t: ThreadId :: CallerAgrees(s.reliable.offers, s.publish.pushed, s.callers.calls, t)
  }

  lemma OfferAgrees(offers: seq<Offer>, pushed: seq<Entry>, calls: map<ThreadId, Call>, o: Offer, t: ThreadId)
    requires CallerAgrees(offers, pushed, calls, t)
    requires o.entry.caller in calls && !calls[o.entry.caller].Offered?
    ensures CallerAgrees(offers + [o], pushed, calls[o.entry.caller := Offered(o.entry.packet)], t)
  {
    OffersSnoc(offers, o);
    ByCallerSnoc(Offers(offers), o.entry, t);
  }

  lemma PushAgrees(offers: seq<Offer>, pushed: seq<Entry>, calls: map<ThreadId, Call>, e: Entry, t: ThreadId)
    requires CallerAgrees(offers, pushed, calls, t)
    requires e.caller in calls && calls[e.caller] == Offered(e.packet)
    ensures CallerAgrees(offers, pushed + [e], calls - {e.caller}, t)
  {
    ByCallerSnoc(pushed, e, t);
  }

  lemma ContinueKeepsPerCaller(c: Config, s: State, t: ThreadId, s': State)
    requires PerCaller(c, s) && ContinueStep(c, s, t) == Some(s')
    ensures PerCaller(c, s')
  {
    if c.reliable {
      forall u: ThreadId ensures CallerAgrees(s'.reliable.offers, s'.publish.pushed, s'.callers.calls, u) {
        assert CallerAgrees(s.reliable.offers, s.publish.pushed, s.callers.calls, u);
        var k := s.callers.calls[t];
        if k.Passed? {
          var o := Last(s'.reliable.offers);
          OfferAgrees(s.reliable.offers, s.publish.pushed, s.callers.calls, o, u);
        } else if k.Offered? {
          PushAgrees(s.reliable.offers, s.publish.pushed, s.callers.calls, Entry(t, k.packet), u);
        }
      }
    }
  }

  // ---------------------------------------------------------------------------------------------
  // The filter and the admitted calls

  predicate FilterHolds(c: Config, s: State) {
    && (forall t :: t in s.callers.calls && (s.callers.calls[t].Passed? || s.callers.calls[t].Offered?)
                    ==> c.filter(s.callers.calls[t].packet))
    && (forall e :: e in s.publish.pushed ==> c.filter(e.packet))
    && (forall o :: o in s.reliable.offers ==> c.filter(o.entry.packet))
  }

  function AdmittedCalls(calls: map<ThreadId, Call>): set<ThreadId> {
    set t | t in calls && !calls[t].SawRunning?
  }

  predicate Admission(s: State) {
    s.callers.admitted
      == s.callers.packetsFiltered + |s.publish.pushed| + |AdmittedCalls(s.callers.calls)|
  }

  lemma ContinueKeepsFilter(c: Config, s: State, t: ThreadId, s': State)
    requires FilterHolds(c, s) && ContinueStep(c, s, t) == Some(s')
    ensures FilterHolds(c, s')
  {
    var k := s.callers.calls[t];
    if k.Passed? && c.reliable {
      var o := Last(s'.reliable.offers);
      assert o.entry.packet == k.packet;
      assert s'.reliable.offers == s.reliable.offers + [o];
    } else if k.Offered? {
      assert s'.publish.pushed == s.publish.pushed + [Entry(t, k.packet)];
    }
  }

  lemma AdmittedCallsMoved(calls: map<ThreadId, Call>, t: ThreadId, k: Call)
    requires t in calls && !k.SawRunning?
    ensures |AdmittedCalls(calls[t := k])| == |AdmittedCalls(calls)| + if calls[t].SawRunning? then 1 else 0
  {
    var before := AdmittedCalls(calls);
    assert t in before <==> !calls[t].SawRunning?;
    assert AdmittedCalls(calls[t := k]) == if t in before then before else before + {t};
  }

  lemma AdmittedCallsEnded(calls: map<ThreadId, Call>, t: ThreadId)
    requires t in calls
    ensures |AdmittedCalls(calls - {t})| == |AdmittedCalls(calls)| - if calls[t].SawRunning? then 0 else 1
  {
    var before := AdmittedCalls(calls);
    assert t in before <==> !calls[t].SawRunning?;
    assert AdmittedCalls(calls - {t}) == before - {t};
  }

  lemma ContinueKeepsAdmission(c: Config, s: State, t: ThreadId, s': State)
    requires Admission(s) && ContinueStep(c, s, t) == Some(s')
    ensures Admission(s')
  {
    if t in s'.callers.calls {
      AdmittedCallsMoved(s.callers.calls, t, s'.callers.calls[t]);
    } else {
      AdmittedCallsEnded(s.callers.calls, t);
    }
  }

  // ---------------------------------------------------------------------------------------------
  // Initialize, Shutdown and the lives of the threads

  predicate PubMayRun(phase: Phase) {
    (phase.Starting? && phase.stage >= 5) || phase.Returned? || (phase.Stopping? && phase.stage <= 1)
  }

  predicate CmdMayRun(phase: Phase) {
    (phase.Starting? && phase.stage >= 6) || phase.Returned? || (phase.Stopping? && phase.stage <= 2)
  }

  predicate PushMayRun(phase: Phase) {
    phase.Returned? || (phase.Stopping? && phase.stage <= 3)
  }

  predicate Phases(c: Config, k: Control, socket: RepSocket) {
    && (k.phase.Starting? ==> k.phase.stage <= 6)
    && (k.phase.Stopping? ==> 1 <= k.phase.stage <= 4)
    && (k.running ==> (k.phase.Starting? && k.phase.stage >= 4) || k.phase.Returned?)
    && (k.phase.Starting? && k.phase.stage >= 4 ==> k.running)
    && (k.phase.Starting? && k.phase.stage >= 1 && c.streaming ==> k.pubSocket)
    && (k.phase.Starting? && k.phase.stage >= 2 && c.commands ==> socket != RepClosed)
    && (k.phase.Starting? && k.phase.stage >= 3 && c.reliable ==> k.pushSocket)
    && (k.phase.Starting? && k.phase.stage <= 0 ==> !k.pubSocket)
    && (k.phase.Starting? && k.phase.stage <= 1 ==> socket == RepClosed)
    && (k.phase.Starting? && k.phase.stage <= 2 ==> !k.pushSocket)
    && (k.phase.Starting? && k.phase.stage <= 3 ==> !k.running)
    && (k.running ==> k.pubSocket == c.streaming && (socket != RepClosed <==> c.commands) && k.pushSocket == c.reliable)
    && (k.phase == Down ==> !k.pubSocket && socket == RepClosed && !k.pushSocket)
    && (k.phase == Returned(true) ==>
          k.running && k.pubSocket == c.streaming && (socket != RepClosed <==> c.commands) && k.pushSocket == c.reliable)
    && (k.pubSocket ==> c.streaming) && (socket != RepClosed ==> c.commands) && (k.pushSocket ==> c.reliable)
  }

  /** A worker that runs has its socket, and none runs outside the phases that may have it running. */
  predicate Lives(c: Config, s: State) {
    && Phases(c, s.control, s.command.socket)
    && (s.publish.thread != PubOff ==> c.streaming && s.control.pubSocket && PubMayRun(s.control.phase))
    && (s.command.thread != CmdOff ==> c.commands && s.command.socket != RepClosed && CmdMayRun(s.control.phase))
    && (s.reliable.thread != PushOff ==> c.reliable && s.control.pushSocket && PushMayRun(s.control.phase))
  }

  /** No worker exits of its own accord: from its start to the next shutdown every enabled one runs. */
  predicate WorkersRun(c: Config, s: State) {
    var k := s.control.phase;
    && (k == Returned(true) || (k.Starting? && k.stage >= 5) ==> c.streaming ==> s.publish.thread != PubOff)
    && (k == Returned(true) || (k.Starting? && k.stage >= 6) ==> c.commands ==> s.command.thread != CmdOff)
    && (k == Returned(true) ==> c.reliable ==> s.reliable.thread != PushOff)
  }

  lemma StepKeepsWorkersRunning(c: Config, s: State, a: Action, s': State)
    requires Lives(c, s) && WorkersRun(c, s) && Step(c, s, a) == Some(s')
    ensures WorkersRun(c, s')
  {
  }

  lemma InitializeKeepsPhases(c: Config, s: State, e: ControlEvent, s': State)
    requires Lives(c, s) && InitializeStep(c, s, e) == Some(s')
    ensures Phases(c, s'.control, s'.command.socket)
  {
  }

  lemma InitializeKeepsLives(c: Config, s: State, e: ControlEvent, s': State)
    requires Lives(c, s) && InitializeStep(c, s, e) == Some(s')
    ensures Lives(c, s')
  {
    InitializeKeepsPhases(c, s, e, s');
  }

  lemma ShutdownKeepsLives(c: Config, s: State, s': State)
    requires Lives(c, s) && ShutdownStep(s) == Some(s')
    ensures Lives(c, s')
  {
  }

  /** Without packet streaming there is no PUB socket, and then nothing is relayed on any socket. */
  predicate StreamingGuards(c: Config, s: State) {
    !c.streaming ==>
      && s.publish.pushed == [] && s.reliable.offers == [] && s.callers.packetsFiltered == 0
      && forall t :: t in s.callers.calls ==> s.callers.calls[t].SawRunning?
  }

  lemma ContinueKeepsStreamingGuards(c: Config, s: State, t: ThreadId, s': State)
    requires StreamingGuards(c, s) && Lives(c, s) && ContinueStep(c, s, t) == Some(s')
    ensures StreamingGuards(c, s')
  {
  }

  // ---------------------------------------------------------------------------------------------
  // The command interface: requests and replies of the current socket, in lock-step

  predicate LockStep(c: Config, m: CommandSide) {
    && |m.replies| <= |m.requests| <= |m.replies| + 1
    && (m.socket == AwaitRequest ==> |m.requests| == |m.replies|)
    && (m.socket == AwaitReply ==> |m.requests| == |m.replies| + 1)
    && |m.replies| <= |m.ticks| <= |m.requests|
    && (forall k :: 0 <= k < |m.replies| ==> m.replies[k] == c.respond(m.ticks[k], m.requests[k]))
    && (match m.thread
        case CmdGot(request) =>
          m.socket == AwaitReply && |m.ticks| == |m.replies| && request == Last(m.requests)
        case CmdReplying(reply) =>
          m.socket == AwaitReply && |m.ticks| == |m.requests|
          && reply == c.respond(Last(m.ticks), Last(m.requests))
        case _ => |m.ticks| == |m.requests|)
    && m.commandsProcessed + (if m.thread == CmdCounting then 1 else 0) == m.returned
  }

  lemma CommanderKeepsLockStep(c: Config, m: CommandSide, running: bool, e: CommandEvent, m': CommandSide)
    requires LockStep(c, m) && CommanderStep(c, m, running, e) == Some(m')
    ensures LockStep(c, m')
    ensures m'.socket == RepClosed <==> m.socket == RepClosed
  {
  }

  // ---------------------------------------------------------------------------------------------
  // All of them together

  ghost predicate Invariant(c: Config, s: State) {
    WorkersRun(c, s) && Sound(c, s)
  }

  ghost predicate Sound(c: Config, s: State) {
    && PublishPath(s.publish) && PublishIds(s.publish) && PublishCounts(s.publish)
    && ReliablePath(c, s.reliable)
    && LockStep(c, s.command)
    && PerCaller(c, s)
    && FilterHolds(c, s)
    && Admission(s)
    && Lives(c, s)
    && StreamingGuards(c, s)
  }

  lemma InvariantAtFirst(c: Config)
    ensures Invariant(c, INITIAL)
  {
    forall t: ThreadId ensures CallerAgrees([], [], map[], t) {
    }
    assert AdmittedCalls(map[]) == {};
  }

  lemma BeginKeepsSound(c: Config, s: State, t: ThreadId, p: PacketInfo, s': State)
    requires Sound(c, s) && BeginStep(s, t, p) == Some(s')
    ensures Sound(c, s')
  {
    assert AdmittedCalls(s'.callers.calls) == AdmittedCalls(s.callers.calls);
    if c.reliable {
      forall u: ThreadId ensures CallerAgrees(s'.reliable.offers, s'.publish.pushed, s'.callers.calls, u) {
        assert CallerAgrees(s.reliable.offers, s.publish.pushed, s.callers.calls, u);
      }
    }
  }

  lemma ContinueKeepsSound(c: Config, s: State, t: ThreadId, s': State)
    requires Sound(c, s) && ContinueStep(c, s, t) == Some(s')
    ensures Sound(c, s')
  {
    ContinueKeepsPerCaller(c, s, t, s');
    ContinueKeepsFilter(c, s, t, s');
    ContinueKeepsAdmission(c, s, t, s');
    ContinueKeepsStreamingGuards(c, s, t, s');
    var e := Entry(t, s.callers.calls[t].packet);
    PushKeepsPublish(s.publish, e);
    OfferKeepsReliable(c, s.reliable, e);
  }

  lemma PublisherKeepsSound(c: Config, s: State, ok: bool, q': PublishSide)
    requires Sound(c, s) && PublisherStep(s.publish, s.control.running, ok) == Some(q')
    ensures Sound(c, s.(publish := q'))
  {
    PublisherKeepsPath(s.publish, s.control.running, ok, q');
    PublisherKeepsIds(s.publish, s.control.running, ok, q');
    PublisherKeepsCounts(s.publish, s.control.running, ok, q');
    assert q'.pushed == s.publish.pushed;
  }

  lemma PusherKeepsSound(c: Config, s: State, result: SendResult, r': ReliableSide)
    requires Sound(c, s) && PusherStep(s.reliable, s.control.running, result) == Some(r')
    ensures Sound(c, s.(reliable := r'))
  {
    PusherKeepsReliable(c, s.reliable, s.control.running, result, r');
    assert r'.offers == s.reliable.offers;
  }

  lemma CommanderKeepsSound(c: Config, s: State, e: CommandEvent, m': CommandSide)
    requires Sound(c, s) && CommanderStep(c, s.command, s.control.running, e) == Some(m')
    ensures Sound(c, s.(command := m'))
  {
    CommanderKeepsLockStep(c, s.command, s.control.running, e, m');
  }

  /** Starting a thread that is off, or opening the REP socket, is all that `Initialize` does to the sides. */
  lemma InitializeTouches(c: Config, s: State, e: ControlEvent, s': State)
    requires Lives(c, s) && InitializeStep(c, s, e) == Some(s')
    ensures s'.callers == s.callers
    ensures s'.publish == s.publish || (s.publish.thread == PubOff && s'.publish == s.publish.(thread := PubTop))
    ensures s'.reliable == s.reliable || (s.reliable.thread == PushOff && s'.reliable == s.reliable.(thread := PushTop))
    ensures s.command.thread != CmdOff ==> s'.command == s.command
    ensures s'.command in {s.command, s.command.(thread := CmdTop), OpenRep(s.command, true), OpenRep(s.command, false)}
  {
  }

  lemma InitializeKeepsSound(c: Config, s: State, e: ControlEvent, s': State)
    requires Sound(c, s) && InitializeStep(c, s, e) == Some(s')
    ensures Sound(c, s')
  {
    InitializeKeepsLives(c, s, e, s');
    InitializeTouches(c, s, e, s');
  }

  lemma ShutdownKeepsSound(c: Config, s: State, s': State)
    requires Sound(c, s) && ShutdownStep(s) == Some(s')
    ensures Sound(c, s')
  {
    ShutdownKeepsLives(c, s, s');
  }

  /** Every step of every thread keeps the invariant. */
  lemma InvariantKept(c: Config, s: State, a: Action, s': State)
    requires Invariant(c, s) && Step(c, s, a) == Some(s')
    ensures Invariant(c, s')
  {
    StepKeepsWorkersRunning(c, s, a, s');
    match a
    case Begin(t, p) => BeginKeepsSound(c, s, t, p, s');
    case Continue(t) => ContinueKeepsSound(c, s, t, s');
    case Publish(ok) => PublisherKeepsSound(c, s, ok, s'.publish);
    case Push(result) => PusherKeepsSound(c, s, result, s'.reliable);
    case Serve(event) => CommanderKeepsSound(c, s, event, s'.command);
    case Initialize(outcome) => InitializeKeepsSound(c, s, outcome, s');
    case Shutdown => ShutdownKeepsSound(c, s, s');
  }

  lemma {:induction false} InvariantAlongRun(c: Config, s: State, run: seq<Action>)
    requires Invariant(c, s) && Execute(c, s, run).Some?
    ensures Invariant(c, Execute(c, s, run).value)
    decreases |run|
  {
    if run != [] {
      InvariantAlongRun(c, s, Front(run));
      InvariantKept(c, Execute(c, s, Front(run)).value, Last(run), Execute(c, s, run).value);
    }
  }

  /** Every reachable state satisfies the invariant. */
  lemma ReachableInvariant(c: Config, s: State)
    requires Reachable(c, s)
    ensures Invariant(c, s)
  {
    var run :| Execute(c, INITIAL, run) == Some(s);
    InvariantAtFirst(c);
    InvariantAlongRun(c, INITIAL, run);
  }
}
