/** src/zmq_relay.cpp:155-167: when the two pushes of a call lose or reorder packets, and when they do not. */
module RelayDelivery {
  import opened Sequences
  import opened PacketTypes
  import opened RelayMachine
  import opened RelayInvariants
  import opened RelayTheorems
  import opened RelayRuns

  // ---------------------------------------------------------------------------------------------
  // What docs/DESIGN.md:50 promises and the code does not: no packet is missing on the PUSH socket

  function Kept(c: Config, n: nat): nat {
    if n <= c.maxQueueSize then n else c.maxQueueSize
  }

  /** Any burst may go unserved for so long that all of it beyond the size of the queue is dropped. */
  lemma {:induction false} BurstOverflows(c: Config, packets: seq<PacketInfo>) returns (run: seq<Action>, s: State)
    requires c.streaming && c.reliable && AllPass(c, packets)
    ensures Execute(c, INITIAL, run) == Some(s)
    ensures s.control.running && s.control.pubSocket && s.callers.calls == map[]
    ensures Packets(s.publish.pushed) == packets && Packets(Offers(s.reliable.offers)) == packets
    ensures s.reliable.queue == packets[..Kept(c, |packets|)]
    ensures Dropped(s.reliable.offers) == |packets| - Kept(c, |packets|)
    decreases |packets|
  {
    if packets == [] {
      run, s := StartedRelay(c);
    } else {
      run, s := BurstOverflows(c, Front(packets));
      run, s := PublishOne(c, run, s, Last(packets));
      assert packets == Front(packets) + [Last(packets)];
    }
  }

  /** A whole call that no other thread disturbs. */
  lemma PublishOne(c: Config, run: seq<Action>, s: State, p: PacketInfo) returns (run': seq<Action>, s': State)
    requires c.reliable && c.filter(p) && Execute(c, INITIAL, run) == Some(s)
    requires s.control.running && s.control.pubSocket && s.callers.calls == map[]
    ensures Execute(c, INITIAL, run') == Some(s') && s'.control == s.control && s'.callers.calls == map[]
    ensures Packets(s'.publish.pushed) == Packets(s.publish.pushed) + [p]
    ensures Packets(Offers(s'.reliable.offers)) == Packets(Offers(s.reliable.offers)) + [p]
    ensures var kept := |s.reliable.queue| < c.maxQueueSize;
            && s'.reliable.queue == s.reliable.queue + (if kept then [p] else [])
            && Dropped(s'.reliable.offers) == Dropped(s.reliable.offers) + (if kept then 0 else 1)
  {
    run', s' := CallPasses(c, run, s, 0, p);
    run', s' := Extend(c, run', s', Continue(0));
    assert Front(s'.reliable.offers) == s.reliable.offers;
    run', s' := Extend(c, run', s', Continue(0));
  }

  /** A drop leaves a trace: by then as many packets were kept as the queue can hold. */
  predicate Overflowed(c: Config, r: ReliableSide) {
    Dropped(r.offers) > 0 ==> |KeptPackets(r.offers)| >= c.maxQueueSize
  }

  lemma OfferKeepsOverflowed(c: Config, r: ReliableSide, e: Entry)
    requires ReliablePath(c, r) && Overflowed(c, r)
    ensures Overflowed(c, OfferPacket(c, r, e))
  {
    var o := Last(OfferPacket(c, r, e).offers);
    assert Front(r.offers + [o]) == r.offers;
    assert |HandledPackets(r.handled) + PushInHand(r.thread) + r.queue| == |KeptPackets(r.offers)|;
  }

  lemma StepKeepsOverflowed(c: Config, s: State, a: Action, s': State)
    requires ReliablePath(c, s.reliable) && Overflowed(c, s.reliable) && Step(c, s, a) == Some(s')
    ensures Overflowed(c, s'.reliable)
  {
    if s'.reliable.offers != s.reliable.offers {
      OfferKeepsOverflowed(c, s.reliable, Entry(a.t, s.callers.calls[a.t].packet));
    }
  }

  lemma {:induction false} RunKeepsOverflowed(c: Config, run: seq<Action>, s: State)
    requires Execute(c, INITIAL, run) == Some(s)
    ensures Overflowed(c, s.reliable)
    decreases |run|
  {
    if run != [] {
      var before := Execute(c, INITIAL, Front(run)).value;
      RunKeepsOverflowed(c, Front(run), before);
      ReachableInvariant(c, before);
      StepKeepsOverflowed(c, before, Last(run), s);
    }
  }

  /** As long as no more packets were offered than the queue holds, nothing is dropped. */
  lemma NothingDroppedWithinTheBound(c: Config, s: State)
    requires Reachable(c, s) && |s.reliable.offers| <= c.maxQueueSize
    ensures Dropped(s.reliable.offers) == 0
  {
    var run :| Execute(c, INITIAL, run) == Some(s);
    RunKeepsOverflowed(c, run, s);
    KeptAndDropped(s.reliable.offers);
  }

  /** Packets that pass the filter can lose one in some execution exactly when they are more than the queue holds. */
  lemma DropPossibleIffBeyondTheBound(c: Config, packets: seq<PacketInfo>)
    requires c.streaming && c.reliable && AllPass(c, packets)
    ensures (exists s :: Reachable(c, s) && Packets(Offers(s.reliable.offers)) == packets
                         && Dropped(s.reliable.offers) > 0)
       <==> |packets| > c.maxQueueSize
  {
    forall s | Reachable(c, s) && Packets(Offers(s.reliable.offers)) == packets && Dropped(s.reliable.offers) > 0
      ensures |packets| > c.maxQueueSize
    {
      assert |packets| == |s.reliable.offers|;
      if |packets| <= c.maxQueueSize {
        NothingDroppedWithinTheBound(c, s);
      }
    }
    if |packets| > c.maxQueueSize {
      var run, s := BurstOverflows(c, packets);
      assert Reachable(c, s) && Packets(Offers(s.reliable.offers)) == packets;
    }
  }

  // ---------------------------------------------------------------------------------------------
  // The order of the packets on the two paths

  /** The calls that are between their two pushes. */
  function OfferedCalls(calls: map<ThreadId, Call>): set<ThreadId> {
    set t | t in calls && calls[t].Offered?
  }

  predicate AtMostOne(calls: map<ThreadId, Call>) {
    forall t, u :: t in OfferedCalls(calls) && u in OfferedCalls(calls) ==> t == u
  }

  /** At no time during the run are two calls between their pushes. */
  predicate OneAtATime(c: Config, run: seq<Action>) {
    forall i :: 0 <= i <= |run| ==>
      var s := Execute(c, INITIAL, run[..i]); s.Some? ==> AtMostOne(s.value.callers.calls)
  }

  /** The offers are the pushes, and the packet of the call between the two if there is one. */
  predicate SameOrder(s: State) {
    var offered, calls := Offers(s.reliable.offers), s.callers.calls;
    && (OfferedCalls(calls) == {} ==> offered == s.publish.pushed)
    && (forall t :: t in OfferedCalls(calls) ==> offered == s.publish.pushed + [Entry(t, calls[t].packet)])
  }

  lemma StepKeepsSameOrder(c: Config, s: State, a: Action, s': State)
    requires c.reliable && Step(c, s, a) == Some(s')
    requires SameOrder(s) && AtMostOne(s.callers.calls) && AtMostOne(s'.callers.calls)
    ensures SameOrder(s')
  {
    if a.Continue? {
      ContinueKeepsSameOrder(c, s, a.t, s');
    } else {
      assert OfferedCalls(s'.callers.calls) == OfferedCalls(s.callers.calls);
    }
  }

  lemma ContinueKeepsSameOrder(c: Config, s: State, t: ThreadId, s': State)
    requires c.reliable && ContinueStep(c, s, t) == Some(s')
    requires SameOrder(s) && AtMostOne(s.callers.calls) && AtMostOne(s'.callers.calls)
    ensures SameOrder(s')
  {
    var before, after := OfferedCalls(s.callers.calls), OfferedCalls(s'.callers.calls);
    if s.callers.calls[t].Passed? {
      assert t in after && before <= after && t !in before;
      assert before == {};
      OffersSnoc(s.reliable.offers, Last(s'.reliable.offers));
    } else if s.callers.calls[t].Offered? {
      assert t in before && after == before - {t};
      assert before == {t};
    } else {
      assert after == before;
    }
  }

  lemma {:induction false} RunKeepsSameOrder(c: Config, run: seq<Action>, s: State)
    requires c.reliable && OneAtATime(c, run) && Execute(c, INITIAL, run) == Some(s)
    ensures SameOrder(s)
    decreases |run|
  {
    if run != [] {
      var before := Execute(c, INITIAL, Front(run)).value;
      assert run[..|run|] == run;
      forall i | 0 <= i <= |run| - 1 ensures Front(run)[..i] == run[..i] {
      }
      RunKeepsSameOrder(c, Front(run), before);
      StepKeepsSameOrder(c, before, Last(run), s);
    }
  }

  /** If no two calls are ever between their pushes at once, both paths get the packets in the same order. */
  lemma OrdersAgreeOneAtATime(c: Config, run: seq<Action>, s: State)
    requires c.reliable && OneAtATime(c, run) && Execute(c, INITIAL, run) == Some(s)
    ensures Packets(s.publish.pushed) <= Packets(Offers(s.reliable.offers))
    ensures |s.reliable.offers| <= |s.publish.pushed| + 1
  {
    RunKeepsSameOrder(c, run, s);
    assert run[..|run|] == run;
    if OfferedCalls(s.callers.calls) != {} {
      var t :| t in OfferedCalls(s.callers.calls);
    }
  }

  /** Every call between its pushes has offered its packet, and not pushed it yet. */
  predicate OffersAhead(s: State) {
    |s.reliable.offers| == |s.publish.pushed| + |OfferedCalls(s.callers.calls)|
  }

  lemma StepKeepsOffersAhead(c: Config, s: State, a: Action, s': State)
    requires c.reliable && OffersAhead(s) && Step(c, s, a) == Some(s')
    ensures OffersAhead(s')
  {
    if a.Continue? {
      ContinueKeepsOffersAhead(c, s, a.t, s');
    } else {
      assert OfferedCalls(s'.callers.calls) == OfferedCalls(s.callers.calls);
    }
  }

  lemma ContinueKeepsOffersAhead(c: Config, s: State, t: ThreadId, s': State)
    requires c.reliable && OffersAhead(s) && ContinueStep(c, s, t) == Some(s')
    ensures OffersAhead(s')
  {
    var calls := s.callers.calls;
    if t in s'.callers.calls {
      OfferedCallsMoved(calls, t, s'.callers.calls[t]);
    } else {
      OfferedCallsEnded(calls, t);
    }
  }

  lemma OfferedCallsMoved(calls: map<ThreadId, Call>, t: ThreadId, k: Call)
    requires t in calls && !calls[t].Offered?
    ensures |OfferedCalls(calls[t := k])| == |OfferedCalls(calls)| + if k.Offered? then 1 else 0
  {
    assert OfferedCalls(calls[t := k]) == OfferedCalls(calls) + if k.Offered? then {t} else {};
  }

  lemma OfferedCallsEnded(calls: map<ThreadId, Call>, t: ThreadId)
    requires t in calls
    ensures |OfferedCalls(calls - {t})| == |OfferedCalls(calls)| - if calls[t].Offered? then 1 else 0
  {
    assert OfferedCalls(calls - {t}) == OfferedCalls(calls) - {t};
  }

  lemma {:induction false} RunKeepsOffersAhead(c: Config, run: seq<Action>, s: State)
    requires c.reliable && Execute(c, INITIAL, run) == Some(s)
    ensures OffersAhead(s)
    decreases |run|
  {
    if run == [] {
      assert OfferedCalls(s.callers.calls) == {};
    } else {
      RunKeepsOffersAhead(c, Front(run), Execute(c, INITIAL, Front(run)).value);
      StepKeepsOffersAhead(c, Execute(c, INITIAL, Front(run)).value, Last(run), s);
    }
  }

  /** At some place both paths have a packet, and not the same one. */
  predicate OrdersDiffer(s: State) {
    exists i :: 0 <= i < |s.publish.pushed| && i < |s.reliable.offers|
                && s.publish.pushed[i].packet != s.reliable.offers[i].entry.packet
  }

  /** Two calls between their pushes with different packets can always still make the orders differ. */
  lemma TwoPendingCallsMayReorder(c: Config, s: State, t: ThreadId, u: ThreadId) returns (run: seq<Action>, s': State)
    requires c.reliable && Reachable(c, s) && t != u
    requires {t, u} <= OfferedCalls(s.callers.calls) && s.callers.calls[t].packet != s.callers.calls[u].packet
    ensures Execute(c, s, run) == Some(s') && OrdersDiffer(s')
    ensures run == [Continue(t), Continue(u)] || run == [Continue(u), Continue(t)]
  {
    var first :| Execute(c, INITIAL, first) == Some(s);
    RunKeepsOffersAhead(c, first, s);
    SubsetSize({t, u}, OfferedCalls(s.callers.calls));
    var n := |s.publish.pushed|;
    var x, y := if s.reliable.offers[n].entry.packet != s.callers.calls[t].packet then t else u,
                if s.reliable.offers[n].entry.packet != s.callers.calls[t].packet then u else t;
    var middle := Step(c, s, Continue(x)).value;
    run, s' := [Continue(x), Continue(y)], Step(c, middle, Continue(y)).value;
    assert Front(run) == [Continue(x)] && Front(Front(run)) == [];
    assert Execute(c, s, [Continue(x)]) == Some(middle);
    assert s'.publish.pushed[n] == Entry(x, s.callers.calls[x].packet);
    assert s'.reliable.offers == s.reliable.offers;
  }

  lemma SubsetSize<T>(a: set<T>, b: set<T>)
    requires a <= b
    ensures |a| <= |b|
  {
    assert b == a + (b - a);
  }

  /** Once different, the orders stay different. */
  lemma {:induction false} ReorderingIsForGood(c: Config, s: State, run: seq<Action>)
    requires OrdersDiffer(s) && Execute(c, s, run).Some?
    ensures OrdersDiffer(Execute(c, s, run).value)
    decreases |run|
  {
    if run != [] {
      ReorderingIsForGood(c, s, Front(run));
      StepKeepsDifference(c, Execute(c, s, Front(run)).value, Last(run), Execute(c, s, run).value);
    }
  }

  lemma StepKeepsDifference(c: Config, s: State, a: Action, s': State)
    requires OrdersDiffer(s) && Step(c, s, a) == Some(s')
    ensures OrdersDiffer(s')
  {
    StepExtendsBothPaths(c, s, a, s');
    DifferenceStays(s, s');
  }

  lemma StepExtendsBothPaths(c: Config, s: State, a: Action, s': State)
    requires Step(c, s, a) == Some(s')
    ensures s.publish.pushed <= s'.publish.pushed && s.reliable.offers <= s'.reliable.offers
  {
  }

  lemma DifferenceStays(s: State, s': State)
    requires s.publish.pushed <= s'.publish.pushed && s.reliable.offers <= s'.reliable.offers && OrdersDiffer(s)
    ensures OrdersDiffer(s')
  {
    var i :| 0 <= i < |s.publish.pushed| && i < |s.reliable.offers|
             && s.publish.pushed[i].packet != s.reliable.offers[i].entry.packet;
    assert s'.publish.pushed[i] == s.publish.pushed[i] && s'.reliable.offers[i] == s.reliable.offers[i];
  }

  /** Two callers are enough to get there. */
  lemma TwoCallersMayReorder(c: Config, p: PacketInfo, q: PacketInfo)
    requires c.streaming && c.reliable && c.filter(p) && c.filter(q)
    ensures exists s :: Reachable(c, s) && Packets(Offers(s.reliable.offers)) == [p, q]
                        && Packets(s.publish.pushed) == [q, p]
  {
    var run, s := StartedRelay(c);
    run, s := CallPasses(c, run, s, 0, p);
    run, s := CallPasses(c, run, s, 1, q);
    run, s := Extend(c, run, s, Continue(0));
    run, s := Extend(c, run, s, Continue(1));
    run, s := Extend(c, run, s, Continue(1));
    run, s := Extend(c, run, s, Continue(0));
    assert Packets(Offers(s.reliable.offers)) == [p, q] && Packets(s.publish.pushed) == [q, p];
  }
}
