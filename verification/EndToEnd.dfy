/**
  The relay, its wire forms and the monitor together: what a caller of `PublishPacket` hands in against
  what a subscriber behind a lossy, order-preserving channel makes of it.
 */
module EndToEnd {
  import opened Sequences
  import opened Words
  import opened PacketTypes
  import opened Json
  import opened Topics
  import opened WireForms
  import opened RelayMachine
  import opened RelayInvariants
  import opened RelayTheorems
  import opened Schedules
  import M = Monitor

  /** What is fixed for the life of a relay object. */
  datatype Session = Session(multipart: bool, version: string, sessionUuid: string)

  /** Ids are 64-bit numbers that have not wrapped. */
  type Sent64 = m: Message | m.id < TWO_64
    witness Message(0, BLANK)

  function EnvelopeOf(w: Session, m: Sent64): Envelope {
    Envelope(w.version, w.sessionUuid, m.id)
  }

  /** The frames the publisher sends for a message. */
  function Frames(w: Session, m: Sent64): seq<Frame> {
    WireForm(w.multipart, m.packet, EnvelopeOf(w, m))
  }

  /** What is on the wire for a message: topic, envelope and type, and the payloads where the form puts them. */
  lemma FramesOnTheWire(w: Session, m: Sent64)
    ensures var mp := Frames(w, m);
      && |mp| == (if !w.multipart then 2 else if m.packet.chunkData == [] then 3 else 4)
      && mp[0] == Text(TopicForPacket(w.version, m.packet)) && mp[1].Document?
      && At(mp[1].json, Version) == Some(JString(w.version))
      && At(mp[1].json, SessionUuid) == Some(JString(w.sessionUuid))
      && At(mp[1].json, MessageId) == Some(JInt(m.id))
      && At(mp[1].json, PacketTypeKey) == At(ToJson(m.packet), PacketTypeKey)
      && (w.multipart ==> At(mp[1].json, Data) == None && mp[2] == Raw(m.packet.data))
      && (w.multipart && m.packet.chunkData != [] ==> mp[3] == Raw(m.packet.chunkData))
      && (!w.multipart ==> ReadBytes(mp[1].json, Data) == Some(m.packet.data))
  {
    MultipartFrames(m.packet, EnvelopeOf(w, m));
    DocumentFrames(m.packet, EnvelopeOf(w, m));
    EnvelopeMembers(w.multipart, m.packet, EnvelopeOf(w, m));
  }

  // ---------------------------------------------------------------------------------------------
  // Reconstruction

  /** The packets a subscriber rebuilds from the messages it receives. */
  function Rebuilt(w: Session, received: seq<Sent64>): seq<Option<PacketInfo>> {
    seq(|received|, i requires 0 <= i < |received| =>
      match Receive(Frames(w, received[i])) case Some(d) => Some(d.packet) case None => None)
  }

  function Somes(packets: seq<PacketInfo>): seq<Option<PacketInfo>> {
    seq(|packets|, i requires 0 <= i < |packets| => Some(packets[i]))
  }

  lemma {:induction false} SomesOfSubsequence(a: seq<PacketInfo>, b: seq<PacketInfo>)
    requires Subsequence(a, b)
    ensures Subsequence(Somes(a), Somes(b))
    decreases |b|
  {
    if a != [] {
      assert Somes(b) == Somes(Front(b)) + [Some(Last(b))];
      if Last(a) == Last(b) && Subsequence(Front(a), Front(b)) {
        SomesOfSubsequence(Front(a), Front(b));
        assert Somes(a) == Somes(Front(a)) + [Some(Last(a))];
        SubsequenceSnoc(Somes(Front(a)), Somes(Front(b)), Some(Last(b)));
      } else {
        SomesOfSubsequence(a, Front(b));
        SubsequenceSnoc(Somes(a), Somes(Front(b)), Some(Last(b)));
      }
    }
  }

  lemma {:induction false} PacketsOfSubsequence(a: seq<Message>, b: seq<Message>)
    requires Subsequence(a, b)
    ensures Subsequence(MessagePackets(a), MessagePackets(b)) && Subsequence(Ids(a), Ids(b))
    decreases |b|
  {
    if a != [] {
      assert MessagePackets(b) == MessagePackets(Front(b)) + [Last(b).packet];
      assert Ids(b) == Ids(Front(b)) + [Last(b).id];
      if Last(a) == Last(b) && Subsequence(Front(a), Front(b)) {
        PacketsOfSubsequence(Front(a), Front(b));
        assert MessagePackets(a) == MessagePackets(Front(a)) + [Last(a).packet];
        assert Ids(a) == Ids(Front(a)) + [Last(a).id];
        SubsequenceSnoc(MessagePackets(Front(a)), MessagePackets(Front(b)), Last(b).packet);
        SubsequenceSnoc(Ids(Front(a)), Ids(Front(b)), Last(b).id);
      } else {
        PacketsOfSubsequence(a, Front(b));
        SubsequenceSnoc(MessagePackets(a), MessagePackets(Front(b)), Last(b).packet);
        SubsequenceSnoc(Ids(a), Ids(Front(b)), Last(b).id);
      }
    }
  }

  lemma RebuiltArePackets(w: Session, received: seq<Sent64>)
    requires forall p :: p in MessagePackets(received) ==> Built(p)
    ensures Rebuilt(w, received) == Somes(MessagePackets(received))
  {
    forall i | 0 <= i < |received| ensures Rebuilt(w, received)[i] == Some(received[i].packet) {
      assert MessagePackets(received)[i] in MessagePackets(received);
      WireFormsCarryThePacket(w.multipart, received[i].packet, EnvelopeOf(w, received[i]));
    }
  }

  /**
    In every reachable state, and whatever the channel loses, the packets rebuilt are packets handed in
    for publishing, unaltered and in order; when nothing is lost, pending or failed they are all of them.
   */
  lemma SubscriberRebuildsWhatWasPushed(c: Config, s: State, w: Session, received: seq<Sent64>)
    requires Reachable(c, s) && Subsequence(received, Stream(s.publish.finished))
    requires forall p :: p in Packets(s.publish.pushed) ==> Built(p)
    ensures Subsequence(Rebuilt(w, received), Somes(Packets(s.publish.pushed)))
    ensures |received| == |s.publish.pushed| ==> Rebuilt(w, received) == Somes(Packets(s.publish.pushed))
  {
    ReachableInvariant(c, s);
    ReceivedAmongPushed(s.publish, received);
    SubsequenceMembers(MessagePackets(received), Packets(s.publish.pushed));
    RebuiltArePackets(w, received);
    SomesOfSubsequence(MessagePackets(received), Packets(s.publish.pushed));
    if |received| == |s.publish.pushed| {
      SubsequenceOfSameLength(MessagePackets(received), Packets(s.publish.pushed));
    }
  }

  /** What a consumer of the PUSH socket makes of the documents it pulls. */
  function Pulled(packets: seq<PacketInfo>): seq<Option<PacketInfo>> {
    seq(|packets|, i requires 0 <= i < |packets| => ReceivePushed(ToJson(packets[i])))
  }

  lemma PulledArePackets(packets: seq<PacketInfo>)
    requires forall p :: p in packets ==> Built(p)
    ensures Pulled(packets) == Somes(packets)
  {
    forall i | 0 <= i < |packets| ensures Pulled(packets)[i] == Some(packets[i]) {
      assert packets[i] in packets;
      PushedDocumentReceived(packets[i]);
    }
  }

  /**
    With one calling thread, a consumer that pulls any part of the PUSH stream in order rebuilds accepted
    packets, unaltered and in order; it rebuilds all of them if it gets as many as were accepted.
   */
  lemma ConsumerRebuildsWhatWasAccepted(c: Config, run: seq<Action>, s: State, t: ThreadId, pulled: seq<PacketInfo>)
    requires c.reliable && SingleCaller(run, t) && Execute(c, INITIAL, run) == Some(s)
    requires Subsequence(pulled, PushStream(s.reliable.handled))
    requires forall p :: p in Accepted(s, t) ==> Built(p)
    ensures Subsequence(Pulled(pulled), Somes(Accepted(s, t)))
    ensures |pulled| == |Accepted(s, t)| ==> Pulled(pulled) == Somes(Accepted(s, t))
  {
    PushStreamFollowsAccepted(c, run, s, t);
    SubsequenceTransitive(pulled, PushStream(s.reliable.handled), Accepted(s, t));
    SubsequenceMembers(pulled, Accepted(s, t));
    PulledArePackets(pulled);
    SomesOfSubsequence(pulled, Accepted(s, t));
    if |pulled| == |Accepted(s, t)| {
      SubsequenceOfSameLength(pulled, Accepted(s, t));
    }
  }

  lemma ReceivedAmongPushed(q: PublishSide, received: seq<Message>)
    requires PublishPath(q) && Subsequence(received, Stream(q.finished))
    ensures Subsequence(MessagePackets(received), Packets(q.pushed))
  {
    StreamPacketsAmongFinished(q.finished);
    PacketsOfSubsequence(received, Stream(q.finished));
    SubsequenceTransitive(MessagePackets(received), MessagePackets(Stream(q.finished)), FinishedPackets(q.finished));
    var rest := InHand(q.thread) + q.queue;
    SubsequenceOfPrefix(MessagePackets(received), FinishedPackets(q.finished), rest);
    assert FinishedPackets(q.finished) + rest == Packets(q.pushed);
  }

  // ---------------------------------------------------------------------------------------------
  // Where every packet is

  /** The messages on the stream whose id is not among those received. */
  function LostOnTheWay(stream: seq<Message>, ids: seq<nat>): seq<Message> {
    if stream == [] then []
    else
      var rest := LostOnTheWay(Front(stream), ids);
      if Last(stream).id in ids then rest else rest + [Last(stream)]
  }

  /** The packets that did not leave the PUB socket. */
  function FailedPackets(finished: seq<Finished>): seq<PacketInfo> {
    if finished == [] then []
    else
      var rest := FailedPackets(Front(finished));
      if Last(finished).outcome.Sent? then rest else rest + [Last(finished).packet]
  }

  lemma {:induction false} SentOrFailed(finished: seq<Finished>)
    ensures multiset(FinishedPackets(finished))
         == multiset(MessagePackets(Stream(finished))) + multiset(FailedPackets(finished))
    ensures |FailedPackets(finished)| == |finished| - |Stream(finished)|
  {
    if finished != [] {
      var rest, f := Front(finished), Last(finished);
      SentOrFailed(rest);
      assert FinishedPackets(finished) == FinishedPackets(rest) + [f.packet];
      if f.outcome.Sent? {
        assert MessagePackets(Stream(finished)) == MessagePackets(Stream(rest)) + [f.packet];
      }
    }
  }

  lemma {:induction false} LostDependsOnIds(stream: seq<Message>, ids: seq<nat>, ids': seq<nat>)
    requires forall m :: m in stream ==> (m.id in ids <==> m.id in ids')
    ensures LostOnTheWay(stream, ids) == LostOnTheWay(stream, ids')
    decreases |stream|
  {
    if stream != [] {
      LostDependsOnIds(Front(stream), ids, ids');
    }
  }

  /** With distinct ids, the messages received and those lost make up the stream. */
  lemma {:induction false} ReceivedOrLost(stream: seq<Message>, received: seq<Message>)
    requires Subsequence(received, stream) && Increasing(Ids(stream))
    ensures SplitsInto(stream, received, LostOnTheWay(stream, Ids(received)))
    decreases |stream|
  {
    if stream != [] {
      var rest := Front(stream);
      LastIdIsNew(stream);
      if received != [] && Last(received) == Last(stream) && Subsequence(Front(received), rest) {
        ReceivedOrLost(rest, Front(received));
        LastReceived(stream, received);
        SplitsOneMore(stream, received, LostOnTheWay(rest, Ids(Front(received))));
      } else {
        ReceivedOrLost(rest, received);
        LastLost(stream, received);
        SplitsOneMoreLost(rest, received, LostOnTheWay(rest, Ids(received)), Last(stream));
        assert stream == rest + [Last(stream)];
      }
    }
  }

  lemma LastReceived(stream: seq<Message>, received: seq<Message>)
    requires stream != [] && received != [] && Last(stream) == Last(received) && Increasing(Ids(stream))
    ensures LostOnTheWay(stream, Ids(received)) == LostOnTheWay(Front(stream), Ids(Front(received)))
  {
    LastIdIsNew(stream);
    LastPacket(received);
    assert Last(Ids(received)) == Last(stream).id;
    LostDependsOnIds(Front(stream), Ids(Front(received)), Ids(received));
  }

  lemma LastLost(stream: seq<Message>, received: seq<Message>)
    requires stream != [] && Subsequence(received, Front(stream)) && Increasing(Ids(stream))
    ensures LostOnTheWay(stream, Ids(received)) == LostOnTheWay(Front(stream), Ids(received)) + [Last(stream)]
  {
    LastIdIsNew(stream);
    PacketsOfSubsequence(received, Front(stream));
    SubsequenceMembers(Ids(received), Ids(Front(stream)));
  }

  predicate SplitsInto(stream: seq<Message>, received: seq<Message>, lost: seq<Message>) {
    multiset(MessagePackets(stream)) == multiset(MessagePackets(received)) + multiset(MessagePackets(lost))
  }

  lemma SplitsOneMore(stream: seq<Message>, received: seq<Message>, lost: seq<Message>)
    requires stream != [] && received != [] && Last(stream) == Last(received)
    requires SplitsInto(Front(stream), Front(received), lost)
    ensures SplitsInto(stream, received, lost)
  {
    LastPacket(stream);
    LastPacket(received);
  }

  lemma SplitsOneMoreLost(stream: seq<Message>, received: seq<Message>, lost: seq<Message>, m: Message)
    requires SplitsInto(stream, received, lost)
    ensures SplitsInto(stream + [m], received, lost + [m])
  {
    LastPacket(stream + [m]);
    LastPacket(lost + [m]);
    assert Front(stream + [m]) == stream && Front(lost + [m]) == lost;
  }

  lemma LastPacket(messages: seq<Message>)
    requires messages != []
    ensures multiset(MessagePackets(messages))
         == multiset(MessagePackets(Front(messages))) + multiset{Last(messages).packet}
    ensures Ids(messages) == Ids(Front(messages)) + [Last(messages).id]
  {
    assert MessagePackets(messages) == MessagePackets(Front(messages)) + [Last(messages).packet];
  }

  lemma LastIdIsNew(stream: seq<Message>)
    requires stream != [] && Increasing(Ids(stream))
    ensures Last(stream).id !in Ids(Front(stream)) && Increasing(Ids(Front(stream)))
    ensures forall m :: m in Front(stream) ==> m.id != Last(stream).id
  {
    var ids := Ids(stream);
    assert Ids(Front(stream)) == Front(ids);
    forall i | 0 <= i < |stream| - 1 ensures stream[i].id != Last(stream).id {
      assert ids[i] < ids[|stream| - 1];
    }
  }

  /**
    Every packet handed over for publishing is in exactly one place: received, lost on the way, failed, in
    the publisher's hand or queued; and `pub_send_errors` counts the failed ones.
   */
  lemma EveryPacketAccountedFor(c: Config, s: State, received: seq<Message>)
    requires Reachable(c, s) && Subsequence(received, Stream(s.publish.finished))
    ensures var q := s.publish;
            && multiset(Packets(q.pushed))
            == multiset(MessagePackets(received))
               + multiset(MessagePackets(LostOnTheWay(Stream(q.finished), Ids(received))))
               + multiset(FailedPackets(q.finished)) + multiset(InHand(q.thread)) + multiset(q.queue)
            && |FailedPackets(q.finished)| == q.sendErrors + (if q.thread == PubFailing then 1 else 0)
    ensures s.callers.admitted
         == s.callers.packetsFiltered + |received| + |LostOnTheWay(Stream(s.publish.finished), Ids(received))|
            + |FailedPackets(s.publish.finished)| + |InHand(s.publish.thread)| + |s.publish.queue|
            + |AdmittedCalls(s.callers.calls)|
  {
    ReachableInvariant(c, s);
    StreamIdsIncrease(c, s);
    var q := s.publish;
    SentOrFailed(q.finished);
    ReceivedOrLost(Stream(q.finished), received);
    assert multiset(Packets(q.pushed)) == multiset(FinishedPackets(q.finished) + InHand(q.thread) + q.queue);
    assert |multiset(Packets(q.pushed))| == |q.pushed|;
  }

  // ---------------------------------------------------------------------------------------------
  // The monitor's view of the stream

  /** The monitor's history is what the relay sent in the messages received. */
  predicate Observes(w: Session, log: seq<M.Message>, received: seq<Sent64>) {
    && |log| == |received|
    && forall k :: 0 <= k < |log| ==> Carried(w, log[k], received[k])
  }

  /** The arrival is that of the message. */
  predicate Carried(w: Session, a: M.Message, m: Sent64) {
    M.ArrivalOf(Frames(w, m), a.nowMs, a.timeStr) == Some(a)
  }

  lemma MetadataIsComplete(w: Session, m: Sent64)
    ensures Frames(w, m)[0] == Text(TopicForPacket(w.version, m.packet)) && Frames(w, m)[1].Document?
    ensures Describes(Frames(w, m)[1].json, m.packet)
    ensures ReadEnvelope(Frames(w, m)[1].json) == Some(EnvelopeOf(w, m))
  {
    AugmentedMembers(m.packet, EnvelopeOf(w, m));
  }

  lemma MetadataReads(j: Value, p: PacketInfo, e: Envelope)
    requires j.JObject? && HasBasics(j, p) && ReadEnvelope(j) == Some(e)
    ensures M.IdOf(j) == Some(p.id) && M.NameOf(j) == Some(p.name) && M.SizeOf(j) == Some(p.size)
    ensures M.DirOf(j) == Some(if p.direction == Incoming then "incoming" else "outgoing")
    ensures M.RemoteIdOf(j) == Some(e.messageId)
  {
    MemberReads(j);
  }

  /** Reading a member with a default is reading it, when it is there. */
  lemma MemberReads(j: Value)
    requires j.JObject?
    ensures At(j, PacketId).Some? ==> M.IdOf(j) == AsUInt16(At(j, PacketId).value)
    ensures At(j, PacketName).Some? ==> M.NameOf(j) == AsString(At(j, PacketName).value)
    ensures At(j, DirectionKey).Some? ==> M.DirOf(j) == AsString(At(j, DirectionKey).value)
    ensures At(j, Size).Some? ==> M.SizeOf(j) == AsUInt32(At(j, Size).value)
    ensures At(j, MessageId).Some? ==> M.RemoteIdOf(j) == AsUInt64(At(j, MessageId).value)
  {
  }

  /** A message of the relay gives a row with its own topic, id and name. */
  lemma ArrivalsAreWellFormed(w: Session, m: Sent64, nowMs: int, timeStr: string)
    ensures var a := M.ArrivalOf(Frames(w, m), nowMs, timeStr);
            && a.Some? && M.WellFormed(a.value) && M.RemoteId(a.value) == m.id
            && a.value.nowMs == nowMs && a.value.timeStr == timeStr
            && a.value.topic == TopicForPacket(w.version, m.packet)
            && M.IdOf(a.value.meta) == Some(m.packet.id) && M.NameOf(a.value.meta) == Some(m.packet.name)
            && M.SizeOf(a.value.meta) == Some(m.packet.size)
            && M.DirOf(a.value.meta) == Some(if m.packet.direction == Incoming then "incoming" else "outgoing")
  {
    MetadataIsComplete(w, m);
    DescribedMembers(Frames(w, m)[1].json, m.packet);
    MetadataReads(Frames(w, m)[1].json, m.packet, EnvelopeOf(w, m));
  }

  /** The inputs of the loop deliver these messages, between timeouts, until it is stopped or a receive throws. */
  predicate Carries(w: Session, inputs: seq<M.Input>, received: seq<Sent64>) {
    if inputs == [] || inputs[0].Stopped? || inputs[0].Failed? then received == []
    else if inputs[0].TimedOut? then Carries(w, inputs[1..], received)
    else
      && received != [] && inputs[0].mp == Frames(w, received[0])
      && Carries(w, inputs[1..], received[1..])
  }

  /** The loop records exactly the relay's messages that the channel delivers to it, and none of them ends it. */
  lemma {:induction false} LoopObservesTheStream(w: Session, inputs: seq<M.Input>, received: seq<Sent64>)
    requires Carries(w, inputs, received)
    ensures Observes(w, M.Accepted(inputs), received) && !M.EndingOf(inputs).IllFormed?
    decreases |inputs|
  {
    if inputs != [] && inputs[0].TimedOut? {
      LoopObservesTheStream(w, inputs[1..], received);
    } else if inputs != [] && inputs[0].Received? {
      var a := MessageRecorded(w, inputs[0], received[0]);
      LoopObservesTheStream(w, inputs[1..], received[1..]);
      ObservesOneMore(w, a, M.Accepted(inputs[1..]), received);
    }
  }

  lemma MessageRecorded(w: Session, input: M.Input, m: Sent64) returns (a: M.Message)
    requires input.Received? && input.mp == Frames(w, m)
    ensures M.EndingOn(input) == M.Returned && M.RecordedFrom(input) == [a]
    ensures Carried(w, a, m)
  {
    ArrivalsAreWellFormed(w, m, input.nowMs, input.timeStr);
    a := M.Readable(input).value;
  }

  lemma ObservesOneMore(w: Session, a: M.Message, log: seq<M.Message>, received: seq<Sent64>)
    requires received != [] && Observes(w, log, received[1..]) && Carried(w, a, received[0])
    ensures Observes(w, [a] + log, received)
  {
    var longer := [a] + log;
    forall k | 0 <= k < |longer| ensures Carried(w, longer[k], received[k]) {
      if k > 0 {
        assert longer[k] == log[k - 1] && received[k] == received[1..][k - 1];
      }
    }
  }

  predicate SameIds(log: seq<M.Message>, ids: seq<nat>) {
    |log| == |ids| && forall k :: 0 <= k < |log| ==> M.RemoteId(log[k]) == ids[k]
  }

  lemma ObservedIds(w: Session, log: seq<M.Message>, received: seq<Sent64>)
    requires Observes(w, log, received)
    ensures SameIds(log, Ids(received))
  {
    forall k | 0 <= k < |log| ensures M.RemoteId(log[k]) == received[k].id {
      assert Carried(w, log[k], received[k]);
      ArrivalsAreWellFormed(w, received[k], log[k].nowMs, log[k].timeStr);
    }
  }

  /** Positive, increasing ids, as a session delivers them. */
  predicate SessionIds(ids: seq<nat>) {
    Increasing(ids) && forall k :: 0 <= k < |ids| ==> ids[k] >= 1
  }

  /** The ids the relay has handed out so far. */
  predicate Assigned(s: State, id: nat) {
    1 <= id < s.publish.nextMessageId
  }

  /** Ids received in one session strictly increase, and each was assigned by the relay. */
  lemma ReceivedIdsIncrease(c: Config, s: State, received: seq<Message>)
    requires Reachable(c, s) && Subsequence(received, Stream(s.publish.finished))
    ensures SessionIds(Ids(received))
    ensures forall id :: id in Ids(received) ==> Assigned(s, id)
  {
    StreamIdsIncrease(c, s);
    PacketsOfSubsequence(received, Stream(s.publish.finished));
    SubsequenceIncreases(Ids(received), Ids(Stream(s.publish.finished)));
    SubsequenceMembers(Ids(received), Ids(Stream(s.publish.finished)));
    forall k | 0 <= k < |received| ensures Ids(received)[k] >= 1 {
      assert Ids(received)[k] in Ids(received);
    }
  }

  lemma FlagOf(log: seq<M.Message>, ids: seq<nat>, k: nat)
    requires SameIds(log, ids) && SessionIds(ids) && k < |log|
    ensures M.Flagged(log, k) <==> k > 0 && ids[k] != ids[k - 1] + 1
  {
    M.FlaggedIffSkips(log, k);
  }

  /** Some id assigned between message `k` and the one received before it was not received. */
  ghost predicate MissedBefore(s: State, received: seq<Message>, k: nat)
    requires 0 < k < |received|
  {
    exists id: nat :: received[k - 1].id < id < received[k].id && Assigned(s, id) && id !in Ids(received)
  }

  /** Gap detection is sound and complete; the first row is never flagged. */
  lemma GapsAreExact(c: Config, s: State, received: seq<Message>, log: seq<M.Message>, k: nat)
    requires Reachable(c, s) && Subsequence(received, Stream(s.publish.finished))
    requires SameIds(log, Ids(received)) && k < |log|
    ensures M.Flagged(log, k) <==> k > 0 && MissedBefore(s, received, k)
  {
    ReceivedIdsIncrease(c, s, received);
    FlagOf(log, Ids(received), k);
    if k > 0 {
      SkippedMeansMissed(s, received, k);
    }
  }

  lemma SkippedMeansMissed(s: State, received: seq<Message>, k: nat)
    requires 0 < k < |received| && SessionIds(Ids(received))
    requires forall id :: id in Ids(received) ==> Assigned(s, id)
    ensures received[k].id != received[k - 1].id + 1 <==> MissedBefore(s, received, k)
  {
    var ids := Ids(received);
    assert ids[k] in ids && ids[k - 1] < ids[k];
    if ids[k] != ids[k - 1] + 1 {
      var id := ids[k - 1] + 1;
      forall i | 0 <= i < |ids| ensures ids[i] != id {
        assert i < k - 1 ==> ids[i] < ids[k - 1];
        assert i > k ==> ids[k] < ids[i];
      }
      assert Assigned(s, id) && received[k - 1].id < id < received[k].id && id !in ids;
    }
  }

  /** No row is flagged iff the ids received form one contiguous interval. */
  lemma NoFlagsIffContiguous(c: Config, s: State, received: seq<Message>, log: seq<M.Message>)
    requires Reachable(c, s) && Subsequence(received, Stream(s.publish.finished)) && SameIds(log, Ids(received))
    ensures (forall k :: 0 <= k < |log| ==> !M.Flagged(log, k))
       <==> (forall k :: 0 <= k < |log| ==> received[k].id == received[0].id + k)
  {
    ReceivedIdsIncrease(c, s, received);
    NoFlagsOf(log, Ids(received));
    assert forall k :: 0 <= k < |log| ==> Ids(received)[k] == received[k].id;
  }

  lemma NoFlagsOf(log: seq<M.Message>, ids: seq<nat>)
    requires SameIds(log, ids) && SessionIds(ids)
    ensures (forall k :: 0 <= k < |log| ==> !M.Flagged(log, k))
       <==> (forall k :: 0 <= k < |log| ==> ids[k] == ids[0] + k)
  {
    forall k | 0 <= k < |log| ensures M.Flagged(log, k) <==> k > 0 && ids[k] != ids[k - 1] + 1 {
      FlagOf(log, ids, k);
    }
    if forall k :: 0 <= k < |log| ==> !M.Flagged(log, k) {
      forall k | 0 <= k < |log| ensures ids[k] == ids[0] + k {
        forall i | 0 < i < |ids| ensures ids[i] == ids[i - 1] + 1 {
          assert !M.Flagged(log, i);
        }
        Contiguous(ids, k);
      }
    }
  }

  lemma {:induction false} Contiguous(ids: seq<nat>, k: nat)
    requires k < |ids| && forall i :: 0 < i < |ids| ==> ids[i] == ids[i - 1] + 1
    ensures ids[k] == ids[0] + k
    decreases k
  {
    if k > 0 {
      Contiguous(ids, k - 1);
    }
  }

  /** Every assigned id that was not received either failed at the sender or was lost on the way, not both. */
  lemma MissingIdsExplained(c: Config, s: State, received: seq<Message>, id: nat)
    requires Reachable(c, s) && Subsequence(received, Stream(s.publish.finished))
    requires Assigned(s, id) && id !in Ids(received) && InFlight(s.publish.thread) != [id]
    ensures (id in LostIds(s.publish.finished)) != (id in Ids(Stream(s.publish.finished)))
  {
    ReachableInvariant(c, s);
    var q := s.publish;
    var ids, flying := AssignedIds(q.finished), InFlight(q.thread);
    SentAndLost(q.finished);
    assert (ids + flying)[id - 1] == IdsBelow(q.nextMessageId)[id - 1] == id;
    assert id in ids;
    IdsAreIncreasing(q.nextMessageId);
    assert forall i :: 0 <= i < |ids| ==> ids[i] == (ids + flying)[i];
    SentOrLost(q.finished);
  }

  lemma {:induction false} SentOrLost(finished: seq<Finished>)
    requires Increasing(AssignedIds(finished))
    ensures forall id :: !(id in Ids(Stream(finished)) && id in LostIds(finished))
  {
    if finished != [] {
      var rest, f := Front(finished), Last(finished);
      var before, after := AssignedIds(rest), AssignedIds(finished);
      assert forall i :: 0 <= i < |before| ==> after[i] == before[i];
      SentOrLost(rest);
      SentAndLost(rest);
      if !f.outcome.LostWithoutId? {
        assert after[|before|] == f.outcome.id;
        assert forall i :: 0 <= i < |before| ==> after[i] < after[|before|];
      }
      if f.outcome.Sent? {
        assert Ids(Stream(finished)) == Ids(Stream(rest)) + [f.outcome.id];
      }
    }
  }

  /** Within a session the rows show strictly decreasing message ids from top to bottom. */
  lemma RowsDecrease(c: Config, s: State, received: seq<Message>, log: seq<M.Message>, maxRows: nat, i: nat, j: nat)
    requires Reachable(c, s) && Subsequence(received, Stream(s.publish.finished)) && SameIds(log, Ids(received))
    requires i < j < |M.NewestFirst(log, maxRows)|
    ensures M.NewestFirst(log, maxRows)[i].remoteMsgId > M.NewestFirst(log, maxRows)[j].remoteMsgId
    ensures M.NewestFirst(log, maxRows)[i].localSeq == M.NewestFirst(log, maxRows)[j].localSeq + (j - i)
  {
    M.RowsAreNumbered(log, maxRows, i);
    M.RowsAreNumbered(log, maxRows, j);
    ReceivedIdsIncrease(c, s, received);
    assert Ids(received)[|log| - 1 - j] < Ids(received)[|log| - 1 - i];
  }

  /**
    From the inputs of the loop to the flags it shows: for messages of the relay that a lossy channel
    delivers in order, each is recorded, and flagged exactly when one before it is missing.
   */
  lemma MonitorShowsExactlyTheLosses(c: Config, s: State, w: Session, inputs: seq<M.Input>, received: seq<Sent64>)
    requires Reachable(c, s) && Subsequence(received, Stream(s.publish.finished))
    requires Carries(w, inputs, received)
    ensures var log := M.Accepted(inputs);
            |log| == |received|
            && forall k :: 0 <= k < |log| ==> (M.Flagged(log, k) <==> k > 0 && MissedBefore(s, received, k))
  {
    var log := M.Accepted(inputs);
    LoopObservesTheStream(w, inputs, received);
    ObservedIds(w, log, received);
    forall k | 0 <= k < |log| ensures M.Flagged(log, k) <==> k > 0 && MissedBefore(s, received, k) {
      GapsAreExact(c, s, received, log, k);
    }
  }

  /** The row shows message number `k`, and its flag whether one before it is missing. */
  ghost predicate RowShows(row: M.PacketRow, s: State, w: Session, received: seq<Sent64>, k: nat)
    requires k < |received|
  {
    var p := received[k].packet;
    && row.topic == TopicForPacket(w.version, p) && row.id == p.id && row.name == p.name && row.size == p.size
    && row.dir == (if p.direction == Incoming then "incoming" else "outgoing")
    && row.localSeq == k + 1 && row.remoteMsgId == received[k].id
    && (row.gap <==> k > 0 && MissedBefore(s, received, k))
  }

  lemma RowShowsMessage(c: Config, s: State, w: Session, received: seq<Sent64>, log: seq<M.Message>, maxRows: nat,
                        i: nat)
    requires Reachable(c, s) && Subsequence(received, Stream(s.publish.finished)) && Observes(w, log, received)
    requires i < |received| && i < maxRows
    ensures i < |M.NewestFirst(log, maxRows)|
    ensures RowShows(M.NewestFirst(log, maxRows)[i], s, w, received, |received| - 1 - i)
  {
    var k := |received| - 1 - i;
    ObservedIds(w, log, received);
    GapsAreExact(c, s, received, log, k);
    M.RowShowsFlag(log, maxRows, i);
    M.RowsAreNumbered(log, maxRows, i);
    M.RowsShowTheirMessages(log, maxRows, i);
    assert Carried(w, log[k], received[k]);
    ArrivalsAreWellFormed(w, received[k], log[k].nowMs, log[k].timeStr);
  }

  /**
    What the screen shows: the newest messages of the relay that arrive, from top to bottom and up to
    `maxRows`, each flagged exactly when one before it is missing.
   */
  ghost predicate ShowsExactlyTheLosses(rows: seq<M.PacketRow>, maxRows: nat, s: State, w: Session,
                                        received: seq<Sent64>) {
    && |rows| == M.Min(|received|, maxRows)
    && forall i :: 0 <= i < |rows| ==> RowShows(rows[i], s, w, received, |received| - 1 - i)
  }

  lemma RowsShowExactlyTheLosses(c: Config, s: State, w: Session, received: seq<Sent64>, log: seq<M.Message>,
                                 maxRows: nat)
    requires Reachable(c, s) && Subsequence(received, Stream(s.publish.finished)) && Observes(w, log, received)
    ensures ShowsExactlyTheLosses(M.NewestFirst(log, maxRows), maxRows, s, w, received)
  {
    var rows := M.NewestFirst(log, maxRows);
    forall i | 0 <= i < |rows| ensures RowShows(rows[i], s, w, received, |received| - 1 - i) {
      RowShowsMessage(c, s, w, received, log, maxRows, i);
    }
  }

  /**
    A new monitor that runs its loop on what a lossy channel delivers of the relay's messages: only a
    receive that throws can end the loop early, and in either case its rows show exactly the losses.
   */
  method RunMonitor(ghost c: Config, ghost s: State, ghost w: Session, ghost received: seq<Sent64>,
                    inputs: seq<M.Input>, maxRows: nat) returns (m: M.MonitorModel, crashed: bool)
    requires Reachable(c, s) && Subsequence(received, Stream(s.publish.finished))
    requires Carries(w, inputs, received)
    ensures fresh(m) && m.maxRows == maxRows
    ensures ShowsExactlyTheLosses(m.rows, maxRows, s, w, received)
    ensures m.totalPackets == |received| && m.batchCount == |received| % 10
    ensures m.isConnected <==> !crashed && received != []
    ensures crashed <==> exists i :: 0 <= i < |inputs| && inputs[i].Failed? && forall j :: 0 <= j < i ==> !inputs[j].Stopped?
  {
    m := new M.MonitorModel(maxRows);
    crashed := m.SubscriberThread(inputs);
    assert m.log == M.Accepted(inputs);
    OnlyAThrowEndsIt(w, inputs, received);
    LoopShowsExactlyTheLosses(c, s, w, received, inputs, maxRows);
  }

  /** On messages of the relay the loop ends by an exception exactly when a receive throws before a stop. */
  lemma {:induction false} OnlyAThrowEndsIt(w: Session, inputs: seq<M.Input>, received: seq<Sent64>)
    requires Carries(w, inputs, received)
    ensures M.EndingOf(inputs) != M.Returned <==>
      exists i :: 0 <= i < |inputs| && inputs[i].Failed? && forall j :: 0 <= j < i ==> !inputs[j].Stopped?
    decreases |inputs|
  {
    if inputs != [] && !inputs[0].Stopped? && !inputs[0].Failed? {
      var rest := inputs[1..];
      if inputs[0].TimedOut? {
        OnlyAThrowEndsIt(w, rest, received);
      } else {
        var a := MessageRecorded(w, inputs[0], received[0]);
        OnlyAThrowEndsIt(w, rest, received[1..]);
      }
      assert M.EndingOf(inputs) == M.EndingOf(rest);
      ThrowsLater(inputs);
    }
  }

  lemma ThrowsLater(inputs: seq<M.Input>)
    requires inputs != [] && !inputs[0].Stopped? && !inputs[0].Failed?
    ensures (exists i :: 0 <= i < |inputs| && inputs[i].Failed? && forall j :: 0 <= j < i ==> !inputs[j].Stopped?)
       <==> var rest := inputs[1..];
            exists i :: 0 <= i < |rest| && rest[i].Failed? && forall j :: 0 <= j < i ==> !rest[j].Stopped?
  {
    var rest := inputs[1..];
    if i :| 0 <= i < |rest| && rest[i].Failed? && forall j :: 0 <= j < i ==> !rest[j].Stopped? {
      assert inputs[i + 1].Failed? && forall j :: 0 < j < i + 1 ==> inputs[j] == rest[j - 1];
    }
    if i :| 0 <= i < |inputs| && inputs[i].Failed? && forall j :: 0 <= j < i ==> !inputs[j].Stopped? {
      assert rest[i - 1].Failed? && forall j :: 0 <= j < i - 1 ==> rest[j] == inputs[j + 1];
    }
  }

  lemma LoopShowsExactlyTheLosses(c: Config, s: State, w: Session, received: seq<Sent64>, inputs: seq<M.Input>,
                                  maxRows: nat)
    requires Reachable(c, s) && Subsequence(received, Stream(s.publish.finished))
    requires Carries(w, inputs, received)
    ensures |M.Accepted(inputs)| == |received| && !M.EndingOf(inputs).IllFormed?
    ensures ShowsExactlyTheLosses(M.NewestFirst(M.Accepted(inputs), maxRows), maxRows, s, w, received)
  {
    LoopObservesTheStream(w, inputs, received);
    RowsShowExactlyTheLosses(c, s, w, received, M.Accepted(inputs), maxRows);
  }

  // ---------------------------------------------------------------------------------------------
  // When everything arrives

  lemma {:induction false} NothingFailed(finished: seq<Finished>)
    requires forall i :: 0 <= i < |finished| ==> finished[i].outcome.Sent?
    ensures MessagePackets(Stream(finished)) == FinishedPackets(finished)
  {
    if finished != [] {
      var rest, f := Front(finished), Last(finished);
      assert forall i :: 0 <= i < |rest| ==> rest[i] == finished[i];
      NothingFailed(rest);
      assert FinishedPackets(finished) == FinishedPackets(rest) + [f.packet];
      assert MessagePackets(Stream(finished)) == MessagePackets(Stream(rest)) + [f.packet];
    }
  }

  lemma {:induction false} NoFailedPackets(finished: seq<Finished>)
    requires FailedPackets(finished) == []
    ensures forall i :: 0 <= i < |finished| ==> finished[i].outcome.Sent?
  {
    if finished != [] {
      var rest := Front(finished);
      NoFailedPackets(rest);
      assert Last(finished).outcome.Sent?;
      assert forall i :: 0 <= i < |rest| ==> rest[i] == finished[i];
    }
  }

  /**
    If no send has failed so far and none does, nobody shuts the relay down, the publisher gets six turns for
    each packet queued, and the channel loses nothing, then the packets rebuilt begin with all those that
    had been handed over for publishing, in order and unaltered.
   */
  lemma EverythingPushedArrives(c: Config, p: Plan, k: nat, w: Session, received: seq<Sent64>)
    requires Reachable(c, p.start) && p.who == ThePublisher && p.start.publish.thread == PubTop
    requires p.start.control.running && NoShutdown(p.turns) && (forall turn :: turn in p.turns ==> turn.ok)
    requires FailedPackets(p.start.publish.finished) == []
    requires k >= 6 * |p.start.publish.queue|
    requires received == Stream(Driven(c, p, k).publish.finished)
    requires forall q :: q in Packets(Driven(c, p, k).publish.pushed) ==> Built(q)
    ensures Somes(Packets(p.start.publish.pushed)) <= Rebuilt(w, received)
  {
    var before, after := p.start.publish, Driven(c, p, k).publish;
    PublisherDrains(c, p, k);
    PublisherSends(c, p, k);
    NoFailedPackets(before.finished);
    AllSent(before, after);
    NothingFailed(after.finished);
    DrivenPath(c, p, k);
    RebuiltArePackets(w, received);
    assert Packets(before.pushed) <= MessagePackets(received);
  }

  lemma AllSent(q: PublishSide, q': PublishSide)
    requires SentInBetween(q, q') && forall i :: 0 <= i < |q.finished| ==> q.finished[i].outcome.Sent?
    ensures forall i :: 0 <= i < |q'.finished| ==> q'.finished[i].outcome.Sent?
  {
  }

  lemma DrivenPath(c: Config, p: Plan, k: nat)
    requires Reachable(c, p.start)
    ensures var q := Driven(c, p, k).publish;
            forall x :: x in FinishedPackets(q.finished) ==> x in Packets(q.pushed)
  {
    ReachableInvariant(c, p.start);
    DrivenKeepsInvariant(c, p, k);
    var q := Driven(c, p, k).publish;
    assert FinishedPackets(q.finished) + InHand(q.thread) + q.queue == Packets(q.pushed);
  }
}
