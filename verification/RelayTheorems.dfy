/** What holds of every execution of the relay. */
module RelayTheorems {
  import opened Sequences
  import opened PacketTypes
  import opened RelayMachine
  import opened RelayInvariants

  // ---------------------------------------------------------------------------------------------
  // The publish path

  /** 1 while the publisher has a packet that no counter shows yet. */
  function Uncounted(thread: Publisher): nat {
    if thread.PubHolding? || thread.PubSending? || thread == PubCounting || thread == PubFailing then 1 else 0
  }

  /** Every packet pushed is finished, in the publisher's hand or queued: once, and in order. */
  lemma PublishedExactlyOnceInOrder(c: Config, s: State)
    requires Reachable(c, s)
    ensures FinishedPackets(s.publish.finished) + InHand(s.publish.thread) + s.publish.queue
         == Packets(s.publish.pushed)
    ensures s.publish.packetsPublished + s.publish.sendErrors + |s.publish.queue| + Uncounted(s.publish.thread)
         == |s.publish.pushed|
  {
    ReachableInvariant(c, s);
    assert |FinishedPackets(s.publish.finished) + InHand(s.publish.thread) + s.publish.queue|
        == |Packets(s.publish.pushed)|;
  }

  // ---------------------------------------------------------------------------------------------
  // Message ids

  function Ids(messages: seq<Message>): seq<nat> {
    seq(|messages|, i requires 0 <= i < |messages| => messages[i].id)
  }

  function MessagePackets(messages: seq<Message>): seq<PacketInfo> {
    seq(|messages|, i requires 0 <= i < |messages| => messages[i].packet)
  }

  /** The ids whose send failed. */
  function LostIds(finished: seq<Finished>): seq<nat> {
    if finished == [] then []
    else
      var o := Last(finished).outcome;
      if o.LostWithId? then LostIds(Front(finished)) + [o.id] else LostIds(Front(finished))
  }

  predicate Increasing(x: seq<nat>) {
    forall i, j :: 0 <= i < j < |x| ==> x[i] < x[j]
  }

  lemma {:induction false} SubsequenceIncreases(a: seq<nat>, b: seq<nat>)
    requires Subsequence(a, b) && Increasing(b)
    ensures Increasing(a)
    decreases |b|
  {
    if a != [] {
      assert Increasing(Front(b));
      if Last(a) == Last(b) && Subsequence(Front(a), Front(b)) {
        SubsequenceIncreases(Front(a), Front(b));
        SubsequenceMembers(Front(a), Front(b));
        forall i | 0 <= i < |a| - 1 ensures a[i] < Last(a) {
          assert Front(a)[i] in Front(b);
        }
      } else {
        SubsequenceIncreases(a, Front(b));
      }
    }
  }

  lemma {:induction false} StreamIdsAmongAssigned(finished: seq<Finished>)
    ensures Subsequence(Ids(Stream(finished)), AssignedIds(finished))
  {
    if finished != [] {
      var rest, f := Front(finished), Last(finished);
      StreamIdsAmongAssigned(rest);
      if f.outcome.Sent? {
        assert Ids(Stream(finished)) == Ids(Stream(rest)) + [f.outcome.id];
      }
      if !f.outcome.LostWithoutId? {
        SubsequenceSnoc(Ids(Stream(rest)), AssignedIds(rest), f.outcome.id);
      }
    }
  }

  lemma {:induction false} StreamPacketsAmongFinished(finished: seq<Finished>)
    ensures Subsequence(MessagePackets(Stream(finished)), FinishedPackets(finished))
  {
    if finished != [] {
      var rest, f := Front(finished), Last(finished);
      StreamPacketsAmongFinished(rest);
      assert FinishedPackets(finished) == FinishedPackets(rest) + [f.packet];
      if f.outcome.Sent? {
        assert MessagePackets(Stream(finished)) == MessagePackets(Stream(rest)) + [f.packet];
      }
      SubsequenceSnoc(MessagePackets(Stream(rest)), FinishedPackets(rest), f.packet);
    }
  }

  /** The ids on the stream and the lost ones make up the ids assigned. */
  lemma {:induction false} SentAndLost(finished: seq<Finished>)
    ensures |AssignedIds(finished)| == |Stream(finished)| + |LostIds(finished)|
    ensures |LostIds(finished)| <= |finished| - |Stream(finished)|
    ensures forall a :: a in AssignedIds(finished) <==> a in Ids(Stream(finished)) || a in LostIds(finished)
  {
    if finished != [] {
      var rest, f := Front(finished), Last(finished);
      SentAndLost(rest);
      if f.outcome.Sent? {
        assert Ids(Stream(finished)) == Ids(Stream(rest)) + [f.outcome.id];
      }
    }
  }

  lemma IdsAreIncreasing(next: nat)
    requires next >= 1
    ensures Increasing(IdsBelow(next))
  {
  }

  /** Ids on the PUB stream strictly increase from 1, over any number of shutdowns and restarts. */
  lemma StreamIdsIncrease(c: Config, s: State)
    requires Reachable(c, s)
    ensures Increasing(Ids(Stream(s.publish.finished)))
    ensures forall id :: id in Ids(Stream(s.publish.finished)) ==> 1 <= id < s.publish.nextMessageId
  {
    ReachableInvariant(c, s);
    var finished, flying := s.publish.finished, InFlight(s.publish.thread);
    StreamIdsAmongAssigned(finished);
    SubsequenceOfPrefix(Ids(Stream(finished)), AssignedIds(finished), flying);
    IdsAreIncreasing(s.publish.nextMessageId);
    SubsequenceIncreases(Ids(Stream(finished)), AssignedIds(finished) + flying);
    SubsequenceMembers(Ids(Stream(finished)), AssignedIds(finished) + flying);
  }

  /**
    Between packets, the assigned ids that are missing from the stream are exactly the failed sends,
    and there are no more of them than `pub_send_errors` counts.
   */
  lemma MissingIdsAreFailures(c: Config, s: State)
    requires Reachable(c, s) && !s.publish.thread.PubSending?
    ensures forall id: nat :: 1 <= id < s.publish.nextMessageId <==>
              id in Ids(Stream(s.publish.finished)) || id in LostIds(s.publish.finished)
    ensures s.publish.nextMessageId - 1 == |Stream(s.publish.finished)| + |LostIds(s.publish.finished)|
    ensures |LostIds(s.publish.finished)|
         <= s.publish.sendErrors + if s.publish.thread == PubFailing then 1 else 0
  {
    ReachableInvariant(c, s);
    SentAndLost(s.publish.finished);
    var ids := AssignedIds(s.publish.finished);
    assert ids == IdsBelow(s.publish.nextMessageId);
    forall id: nat ensures 1 <= id < s.publish.nextMessageId <==> id in ids {
      if 1 <= id < s.publish.nextMessageId {
        assert ids[id - 1] == id;
      }
    }
  }

  /** With no failure after assignment, the k-th message sent has id k. */
  lemma NoFailuresNoGaps(c: Config, s: State)
    requires Reachable(c, s) && LostIds(s.publish.finished) == []
    ensures forall k :: 0 <= k < |Stream(s.publish.finished)| ==> Stream(s.publish.finished)[k].id == k + 1
  {
    ReachableInvariant(c, s);
    var finished := s.publish.finished;
    StreamIdsAmongAssigned(finished);
    SentAndLost(finished);
    SubsequenceOfSameLength(Ids(Stream(finished)), AssignedIds(finished));
    var ids := Ids(Stream(finished));
    forall k | 0 <= k < |ids| ensures ids[k] == k + 1 {
      assert (ids + InFlight(s.publish.thread))[k] == IdsBelow(s.publish.nextMessageId)[k];
    }
    assert forall k :: 0 <= k < |ids| ==> ids[k] == Stream(finished)[k].id;
  }

  // ---------------------------------------------------------------------------------------------
  // Histories only grow, so what was finished stays finished and leftovers go out first

  lemma StepGrows(c: Config, s: State, a: Action, s': State)
    requires Step(c, s, a) == Some(s')
    ensures s.publish.pushed <= s'.publish.pushed && s.publish.finished <= s'.publish.finished
    ensures s.publish.nextMessageId <= s'.publish.nextMessageId
  {
  }

  lemma {:induction false} RunGrows(c: Config, s: State, run: seq<Action>)
    requires Execute(c, s, run).Some?
    ensures s.publish.pushed <= Execute(c, s, run).value.publish.pushed
    ensures s.publish.finished <= Execute(c, s, run).value.publish.finished
    ensures s.publish.nextMessageId <= Execute(c, s, run).value.publish.nextMessageId
    decreases |run|
  {
    if run != [] {
      RunGrows(c, s, Front(run));
      StepGrows(c, Execute(c, s, Front(run)).value, Last(run), Execute(c, s, run).value);
    }
  }

  lemma ReachableAfter(c: Config, s: State, run: seq<Action>)
    requires Reachable(c, s) && Execute(c, s, run).Some?
    ensures Reachable(c, Execute(c, s, run).value)
  {
    var first :| Execute(c, INITIAL, first) == Some(s);
    ExecuteConcat(c, INITIAL, first, run);
  }

  /** From any state on, what is in hand and queued is finished before anything pushed later. */
  lemma LeftoversGoFirst(c: Config, s: State, run: seq<Action>)
    requires Reachable(c, s) && Execute(c, s, run).Some?
    ensures LeftoversFirst(s.publish, Execute(c, s, run).value.publish)
  {
    RunGrows(c, s, run);
    ReachableAfter(c, s, run);
    ReachableInvariant(c, s);
    ReachableInvariant(c, Execute(c, s, run).value);
    PathsGiveLeftoversFirst(s.publish, Execute(c, s, run).value.publish);
  }

  /** Between `q` and `q'`: finished since, in hand and queued = leftovers of `q`, then pushed since. */
  predicate LeftoversFirst(q: PublishSide, q': PublishSide) {
    && q.finished <= q'.finished && q.pushed <= q'.pushed
    && FinishedPackets(q'.finished[|q.finished|..]) + InHand(q'.thread) + q'.queue
    == InHand(q.thread) + q.queue + Packets(q'.pushed[|q.pushed|..])
  }

  lemma PathsGiveLeftoversFirst(q: PublishSide, q': PublishSide)
    requires PublishPath(q) && PublishPath(q') && q.finished <= q'.finished && q.pushed <= q'.pushed
    ensures LeftoversFirst(q, q')
  {
    var done, later := q'.finished[|q.finished|..], q'.pushed[|q.pushed|..];
    assert FinishedPackets(q'.finished) == FinishedPackets(q.finished) + FinishedPackets(done);
    assert Packets(q'.pushed) == Packets(q.pushed) + Packets(later);
    SameTail(FinishedPackets(q.finished), FinishedPackets(done) + InHand(q'.thread) + q'.queue,
             InHand(q.thread) + q.queue + Packets(later), Packets(q'.pushed));
  }

  lemma SameTail(p: seq<PacketInfo>, x: seq<PacketInfo>, y: seq<PacketInfo>, whole: seq<PacketInfo>)
    requires p + x == whole == p + y
    ensures x == y
  {
    assert x == (p + x)[|p|..] == (p + y)[|p|..];
  }

  // ---------------------------------------------------------------------------------------------
  // The reliable queue

  function Dropped(offers: seq<Offer>): nat {
    if offers == [] then 0 else Dropped(Front(offers)) + if Last(offers).kept then 0 else 1
  }

  lemma {:induction false} KeptAndDropped(offers: seq<Offer>)
    ensures |offers| == |KeptPackets(offers)| + Dropped(offers)
    ensures Subsequence(KeptPackets(offers), Packets(Offers(offers)))
  {
    if offers != [] {
      var rest, o := Front(offers), Last(offers);
      KeptAndDropped(rest);
      assert Packets(Offers(offers)) == Packets(Offers(rest)) + [o.entry.packet];
      SubsequenceSnoc(KeptPackets(rest), Packets(Offers(rest)), o.entry.packet);
    }
  }

  lemma {:induction false} DeliveredOfHandled(handled: seq<Handled>)
    ensures Subsequence(PushStream(handled), HandledPackets(handled))
    ensures |PushStream(handled)| == |handled| <==> forall x :: x in handled ==> x.result == Delivered
  {
    if handled != [] {
      var rest, x := Front(handled), Last(handled);
      DeliveredOfHandled(rest);
      SubsequenceMembers(PushStream(rest), HandledPackets(rest));
      assert handled == rest + [x];
      assert HandledPackets(handled) == HandledPackets(rest) + [x.packet];
      SubsequenceSnoc(PushStream(rest), HandledPackets(rest), x.packet);
    }
  }

  /** The queue is bounded, and every offer is dropped, handled, in hand or still queued. */
  lemma ReliableQueueConservation(c: Config, s: State)
    requires Reachable(c, s)
    ensures |s.reliable.queue| <= c.maxQueueSize
    ensures |s.reliable.offers| == Dropped(s.reliable.offers) + |s.reliable.handled|
                                 + |PushInHand(s.reliable.thread)| + |s.reliable.queue|
    ensures HandledPackets(s.reliable.handled) + PushInHand(s.reliable.thread) + s.reliable.queue
         == KeptPackets(s.reliable.offers)
  {
    ReachableInvariant(c, s);
    KeptAndDropped(s.reliable.offers);
    assert |HandledPackets(s.reliable.handled) + PushInHand(s.reliable.thread) + s.reliable.queue|
        == |KeptPackets(s.reliable.offers)|;
  }

  lemma OfferGrows(c: Config, s: State, a: Action, s': State)
    requires Step(c, s, a) == Some(s') && s'.reliable.offers != s.reliable.offers
    requires |s.reliable.queue| <= c.maxQueueSize
    ensures s'.reliable.offers != [] && Front(s'.reliable.offers) == s.reliable.offers
    ensures Last(s'.reliable.offers).kept <==> |s.reliable.queue| != c.maxQueueSize
  {
    assert a.Continue? && s.callers.calls[a.t].Passed?;
  }

  /** A packet is dropped exactly when it is offered while the queue is full; no counter records it. */
  lemma DroppedOnlyWhenFull(c: Config, s: State, a: Action, s': State)
    requires Reachable(c, s) && Step(c, s, a) == Some(s')
    ensures Dropped(s'.reliable.offers) != Dropped(s.reliable.offers) <==>
              s'.reliable.offers != s.reliable.offers && |s.reliable.queue| == c.maxQueueSize
    ensures s'.publish.publishDropped == 0
  {
    ReachableInvariant(c, s);
    InvariantKept(c, s, a, s');
    if s'.reliable.offers != s.reliable.offers {
      OfferGrows(c, s, a, s');
    }
  }

  // ---------------------------------------------------------------------------------------------
  // The PUSH stream against the packets accepted for publishing

  /** Only the thread `t` calls `PublishPacket`. */
  predicate SingleCaller(run: seq<Action>, t: ThreadId) {
    forall a :: a in run && (a.Begin? || a.Continue?) ==> a.t == t
  }

  predicate OnlyCaller(s: State, t: ThreadId) {
    && (forall u :: u in s.callers.calls ==> u == t)
    && (forall e :: e in s.publish.pushed ==> e.caller == t)
    && (forall o :: o in s.reliable.offers ==> o.entry.caller == t)
  }

  lemma OnlyCallerKept(c: Config, s: State, a: Action, s': State, t: ThreadId)
    requires OnlyCaller(s, t) && Step(c, s, a) == Some(s')
    requires a.Begin? || a.Continue? ==> a.t == t
    ensures OnlyCaller(s', t)
  {
  }

  lemma {:induction false} OnlyCallerAlongRun(c: Config, run: seq<Action>, t: ThreadId)
    requires SingleCaller(run, t) && Execute(c, INITIAL, run).Some?
    ensures OnlyCaller(Execute(c, INITIAL, run).value, t)
    decreases |run|
  {
    if run != [] {
      OnlyCallerAlongRun(c, Front(run), t);
      OnlyCallerKept(c, Execute(c, INITIAL, Front(run)).value, Last(run), Execute(c, INITIAL, run).value, t);
    }
  }

  lemma {:induction false} ByOnlyCaller(entries: seq<Entry>, t: ThreadId)
    requires forall e :: e in entries ==> e.caller == t
    ensures ByCaller(entries, t) == Packets(entries)
  {
    if entries != [] {
      ByOnlyCaller(Front(entries), t);
      assert entries == Front(entries) + [Last(entries)];
    }
  }

  /** The packets accepted for publishing, and the one still between its two pushes. */
  function Accepted(s: State, t: ThreadId): seq<PacketInfo> {
    Packets(s.publish.pushed) + BetweenPushes(s.callers.calls, t)
  }

  /**
    With one calling thread the PUSH stream is a sub-sequence of the accepted packets; it is all of
    them, up to those in hand and queued, exactly when no offer was dropped and every send delivered.
   */
  lemma PushStreamFollowsAccepted(c: Config, run: seq<Action>, s: State, t: ThreadId)
    requires c.reliable && SingleCaller(run, t) && Execute(c, INITIAL, run) == Some(s)
    ensures Subsequence(PushStream(s.reliable.handled), Accepted(s, t))
    ensures PushStream(s.reliable.handled) + PushInHand(s.reliable.thread) + s.reliable.queue == Accepted(s, t)
       <==> Dropped(s.reliable.offers) == 0
            && forall x :: x in s.reliable.handled ==> x.result == Delivered
  {
    AcceptedIsOffered(c, run, s, t);
    ReachableInvariant(c, s);
    DeliveredAgainstOffered(c, s.reliable);
  }

  lemma DeliveredAgainstOffered(c: Config, r: ReliableSide)
    requires ReliablePath(c, r)
    ensures Subsequence(PushStream(r.handled), Packets(Offers(r.offers)))
    ensures PushStream(r.handled) + PushInHand(r.thread) + r.queue == Packets(Offers(r.offers))
       <==> Dropped(r.offers) == 0 && forall x :: x in r.handled ==> x.result == Delivered
  {
    KeptAndDropped(r.offers);
    DeliveredOfHandled(r.handled);
    var x, y, rest := PushStream(r.handled), HandledPackets(r.handled), PushInHand(r.thread) + r.queue;
    var kept, offered := KeptPackets(r.offers), Packets(Offers(r.offers));
    assert y + rest == kept && x + PushInHand(r.thread) + r.queue == x + rest;
    SubsequenceOfPrefix(x, y, rest);
    SubsequenceTransitive(x, kept, offered);
    SubsequenceMembers(x, y);
    if |x| == |y| && |kept| == |offered| {
      SubsequenceOfSameLength(x, y);
      SubsequenceOfSameLength(kept, offered);
    }
    assert |x + rest| == |x| + |rest|;
  }

  lemma AcceptedIsOffered(c: Config, run: seq<Action>, s: State, t: ThreadId)
    requires c.reliable && SingleCaller(run, t) && Execute(c, INITIAL, run) == Some(s)
    ensures Packets(Offers(s.reliable.offers)) == Accepted(s, t)
  {
    ReachableInvariant(c, s);
    OnlyCallerAlongRun(c, run, t);
    ByOnlyCaller(Offers(s.reliable.offers), t);
    ByOnlyCaller(s.publish.pushed, t);
    assert CallerAgrees(s.reliable.offers, s.publish.pushed, s.callers.calls, t);
  }

  /** With any number of calling threads, each one's packets keep their order on both paths. */
  lemma CallersKeepTheirOrder(c: Config, s: State, t: ThreadId)
    requires c.reliable && Reachable(c, s)
    ensures ByCaller(Offers(s.reliable.offers), t)
         == ByCaller(s.publish.pushed, t) + BetweenPushes(s.callers.calls, t)
  {
    ReachableInvariant(c, s);
    assert CallerAgrees(s.reliable.offers, s.publish.pushed, s.callers.calls, t);
  }

  // ---------------------------------------------------------------------------------------------
  // The filter

  predicate AllPass(c: Config, packets: seq<PacketInfo>) {
    forall p :: p in packets ==> c.filter(p)
  }

  /** No rejected packet is ever in a queue, in a thread's hand or on a stream. */
  lemma RejectedPacketsGoNowhere(c: Config, s: State)
    requires Reachable(c, s)
    ensures AllPass(c, s.publish.queue) && AllPass(c, s.reliable.queue)
    ensures AllPass(c, InHand(s.publish.thread)) && AllPass(c, PushInHand(s.reliable.thread))
    ensures AllPass(c, MessagePackets(Stream(s.publish.finished))) && AllPass(c, PushStream(s.reliable.handled))
  {
    ReachableInvariant(c, s);
    var q, r := s.publish, s.reliable;
    forall p | p in Packets(q.pushed) ensures c.filter(p) {
      var i :| 0 <= i < |q.pushed| && Packets(q.pushed)[i] == p;
      assert q.pushed[i] in q.pushed;
    }
    PartsPass(c, FinishedPackets(q.finished), InHand(q.thread), q.queue);
    StreamPacketsAmongFinished(q.finished);
    SubsequenceMembers(MessagePackets(Stream(q.finished)), FinishedPackets(q.finished));
    KeptAndDropped(r.offers);
    SubsequenceMembers(KeptPackets(r.offers), Packets(Offers(r.offers)));
    forall p | p in Packets(Offers(r.offers)) ensures c.filter(p) {
      var i :| 0 <= i < |r.offers| && Packets(Offers(r.offers))[i] == p;
      assert r.offers[i] in r.offers;
    }
    PartsPass(c, HandledPackets(r.handled), PushInHand(r.thread), r.queue);
    DeliveredOfHandled(r.handled);
    SubsequenceMembers(PushStream(r.handled), HandledPackets(r.handled));
  }

  lemma PartsPass(c: Config, x: seq<PacketInfo>, y: seq<PacketInfo>, z: seq<PacketInfo>)
    requires AllPass(c, x + y + z)
    ensures AllPass(c, x) && AllPass(c, y) && AllPass(c, z)
  {
    assert forall p :: p in x || p in y || p in z ==> p in x + y + z;
  }

  /** Calls that got past both checks were filtered, pushed for publishing, or are still under way. */
  lemma AdmittedCallsAccountedFor(c: Config, s: State)
    requires Reachable(c, s)
    ensures s.callers.admitted
         == s.callers.packetsFiltered + |s.publish.pushed| + |AdmittedCalls(s.callers.calls)|
  {
    ReachableInvariant(c, s);
  }

  /** With packet streaming disabled, nothing reaches the reliable queue either. */
  lemma NoStreamingNoRelaying(c: Config, s: State)
    requires Reachable(c, s) && !c.streaming
    ensures s.publish.queue == [] && s.publish.finished == []
    ensures s.reliable.queue == [] && s.reliable.handled == []
  {
    ReachableInvariant(c, s);
    assert |FinishedPackets(s.publish.finished) + InHand(s.publish.thread) + s.publish.queue| == 0;
    assert |HandledPackets(s.reliable.handled) + PushInHand(s.reliable.thread) + s.reliable.queue| == 0;
  }
}
