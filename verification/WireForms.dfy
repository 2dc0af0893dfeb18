/** src/zmq_relay.cpp:198-231, 405-436 and 468-484: the two wire forms of a packet and their reader. */
module WireForms {
  import opened Sequences
  import opened Words
  import opened PacketTypes
  import opened Json
  import opened Topics
  import Base64

  // ---------------------------------------------------------------------------------------------
  // to_json

  function TypeName(t: PacketType): string {
    match t
    case WorldClientToServer => "world_c2s"
    case WorldServerToClient => "world_s2c"
    case LobbyClientToServer => "lobby_c2s"
    case LobbyServerToClient => "lobby_s2c"
    case PatchClientToServer => "patch_c2s"
    case PatchServerToClient => "patch_s2c"
    case Unknown => "unknown"
  }

  /** The member `packet_type`, type by type. */
  lemma PacketTypeMember(p: PacketInfo)
    ensures At(ToJson(p), PacketTypeKey) == Some(JString(
      match p.packetType
      case WorldClientToServer => "world_c2s"
      case WorldServerToClient => "world_s2c"
      case LobbyClientToServer => "lobby_c2s"
      case LobbyServerToClient => "lobby_s2c"
      case PatchClientToServer => "patch_c2s"
      case PatchServerToClient => "patch_s2c"
      case Unknown => "unknown"))
  {
  }

  /** The member `packet_type` of a built packet consists of the class and the direction in its topic. */
  lemma TypeNameAgreesWithTopic(p: PacketInfo)
    requires Built(p)
    ensures At(ToJson(p), PacketTypeKey) == Some(JString(
      ClassName(ClassOf(p.packetType)) +
      (if ClassOf(p.packetType) == UnknownClass then "" else "_" + DirectionName(p.direction))))
  {
    Classification(p.id, p.direction);
    assert TypeName(p.packetType) ==
      ClassName(ClassOf(p.packetType)) +
      (if ClassOf(p.packetType) == UnknownClass then "" else "_" + DirectionName(p.direction));
  }

  function ToJson(p: PacketInfo): Value {
    JObject(Members(p))
  }

  function MetadataOf(p: PacketInfo): Value {
    JObject(map[
      Injected := JBool(p.injected),
      Blocked := JBool(p.blocked),
      ChunkSize := JInt(p.chunkSize),
      SessionId := JString(p.sessionId),
      SyncCount := JInt(p.syncCount)])
  }

  function Members(p: PacketInfo): map<Key, Value> {
    var m := map[
      Timestamp := JInt(p.timestamp),
      DirectionKey := JString(if p.direction == Incoming then "incoming" else "outgoing"),
      PacketTypeKey := JString(TypeName(p.packetType)),
      PacketId := JInt(p.id),
      PacketName := JString(p.name),
      Size := JInt(p.size),
      Data := JString(Base64.Encode(p.data)),
      Metadata := MetadataOf(p)];
    if p.chunkData != [] then m[ChunkData := JString(Base64.Encode(p.chunkData))] else m
  }

  /** The whole document, member by member. */
  lemma ToJsonMembers(p: PacketInfo)
    ensures var j := ToJson(p);
      && At(j, Timestamp) == Some(JInt(p.timestamp))
      && At(j, DirectionKey) == Some(JString(if p.direction == Incoming then "incoming" else "outgoing"))
      && At(j, PacketId) == Some(JInt(p.id)) && At(j, PacketName) == Some(JString(p.name))
      && At(j, Size) == Some(JInt(p.size)) && At(j, Data) == Some(JString(Base64.Encode(p.data)))
      && At(j, ChunkData) == (if p.chunkData == [] then None else Some(JString(Base64.Encode(p.chunkData))))
    ensures At(ToJson(p), Metadata) == Some(JObject(map[
      Injected := JBool(p.injected), Blocked := JBool(p.blocked), ChunkSize := JInt(p.chunkSize),
      SessionId := JString(p.sessionId), SyncCount := JInt(p.syncCount)]))
    ensures ToJson(p).members.Keys == {Timestamp, DirectionKey, PacketTypeKey, PacketId, PacketName, Size, Data, Metadata}
                                      + if p.chunkData == [] then {} else {ChunkData}
  {
  }

  // ---------------------------------------------------------------------------------------------
  // from_json: ten assignments in a fixed order, each of which may throw

  const FIELDS: nat := 10

  /** Assignment number `k`: None stands for the exception it throws. */
  function Assign(j: Value, p: PacketInfo, k: nat): Option<PacketInfo>
    requires k < FIELDS
  {
    if k == 0 then var v :- At(j, Timestamp); var x :- AsUInt64(v); Some(p.(timestamp := x))
    else if k == 1 then
      var v :- At(j, DirectionKey);
      Some(p.(direction := if v == JString("incoming") then Incoming else Outgoing))
    else if k == 2 then var v :- At(j, PacketId); var x :- AsUInt16(v); Some(p.(id := x))
    else if k == 3 then var v :- At(j, PacketName); var x :- AsString(v); Some(p.(name := x))
    else if k == 4 then var v :- At(j, Size); var x :- AsUInt32(v); Some(p.(size := x))
    else
      var m :- At(j, Metadata);
      if k == 5 then var v :- At(m, Injected); var x :- AsBool(v); Some(p.(injected := x))
      else if k == 6 then var v :- At(m, Blocked); var x :- AsBool(v); Some(p.(blocked := x))
      else if k == 7 then var v :- At(m, ChunkSize); var x :- AsUInt32(v); Some(p.(chunkSize := x))
      else if k == 8 then var v :- At(m, SessionId); var x :- AsString(v); Some(p.(sessionId := x))
      else var v :- At(m, SyncCount); var x :- AsUInt16(v); Some(p.(syncCount := x))
  }

  /** The record after the first `k` assignments, if none of them throws. */
  function AssignedUpTo(j: Value, p: PacketInfo, k: nat): Option<PacketInfo>
    requires k <= FIELDS
  {
    if k == 0 then Some(p)
    else
      var q :- AssignedUpTo(j, p, k - 1);
      Assign(j, q, k - 1)
  }

  function FromJson(j: Value, p: PacketInfo): Option<PacketInfo> {
    AssignedUpTo(j, p, FIELDS)
  }

  lemma {:induction false} ThrownStaysThrown(j: Value, p: PacketInfo, k: nat, n: nat)
    requires k <= n <= FIELDS && AssignedUpTo(j, p, k).None?
    ensures AssignedUpTo(j, p, n).None?
    decreases n
  {
    if k < n {
      ThrownStaysThrown(j, p, k, n - 1);
    }
  }

  lemma AssignNext(j: Value, p: PacketInfo, k: nat, q: PacketInfo)
    requires k < FIELDS && AssignedUpTo(j, p, k) == Some(q)
    ensures AssignedUpTo(j, p, k + 1) == Assign(j, q, k)
  {
  }

  /** The packet that `from_json` is given a reference to. */
  class PacketReference {
    var packet: PacketInfo

    constructor (packet: PacketInfo)
      ensures this.packet == packet
    {
      this.packet := packet;
    }

    /** An exception leaves the assignments made before it in place. */
    method FromJsonInPlace(j: Value) returns (thrown: bool, ghost done: nat)
      modifies this
      ensures done <= FIELDS && (thrown <==> done < FIELDS)
      ensures AssignedUpTo(j, old(packet), done) == Some(packet)
      ensures thrown ==> AssignedUpTo(j, old(packet), done + 1).None?
      ensures thrown <==> FromJson(j, old(packet)).None?
      ensures !thrown ==> FromJson(j, old(packet)) == Some(packet)
    {
      thrown, done := AssignBasics(j);
      if !thrown {
        thrown, done := AssignMetadata(j, old(packet));
      }
      if thrown {
        ThrownStaysThrown(j, old(packet), done + 1, FIELDS);
      }
    }

    method AssignBasics(j: Value) returns (thrown: bool, ghost done: nat)
      modifies this
      ensures done <= 5 && (thrown <==> done < 5)
      ensures AssignedUpTo(j, old(packet), done) == Some(packet)
      ensures thrown ==> AssignedUpTo(j, old(packet), done + 1).None?
    {
      thrown, done := true, 0;
      ghost var start := packet;
      var v: Option<Value>;
      v := At(j, Timestamp);
      AssignNext(j, start, 0, packet);
      if v.None? || AsUInt64(v.value).None? { return; }
      packet, done := packet.(timestamp := AsUInt64(v.value).value), 1;
      v := At(j, DirectionKey);
      AssignNext(j, start, 1, packet);
      if v.None? { return; }
      packet, done := packet.(direction := if v.value == JString("incoming") then Incoming else Outgoing), 2;
      v := At(j, PacketId);
      AssignNext(j, start, 2, packet);
      if v.None? || AsUInt16(v.value).None? { return; }
      packet, done := packet.(id := AsUInt16(v.value).value), 3;
      v := At(j, PacketName);
      AssignNext(j, start, 3, packet);
      if v.None? || AsString(v.value).None? { return; }
      packet, done := packet.(name := AsString(v.value).value), 4;
      v := At(j, Size);
      AssignNext(j, start, 4, packet);
      if v.None? || AsUInt32(v.value).None? { return; }
      packet, done := packet.(size := AsUInt32(v.value).value), 5;
      thrown := false;
    }

    method AssignMetadata(j: Value, ghost start: PacketInfo) returns (thrown: bool, ghost done: nat)
      requires AssignedUpTo(j, start, 5) == Some(packet)
      modifies this
      ensures 5 <= done <= FIELDS && (thrown <==> done < FIELDS)
      ensures AssignedUpTo(j, start, done) == Some(packet)
      ensures thrown ==> AssignedUpTo(j, start, done + 1).None?
    {
      thrown, done := true, 5;
      var metadata := At(j, Metadata);
      AssignNext(j, start, 5, packet);
      if metadata.None? { return; }
      var v: Option<Value>;
      v := At(metadata.value, Injected);
      AssignNext(j, start, 5, packet);
      if v.None? || AsBool(v.value).None? { return; }
      packet, done := packet.(injected := AsBool(v.value).value), 6;
      v := At(metadata.value, Blocked);
      AssignNext(j, start, 6, packet);
      if v.None? || AsBool(v.value).None? { return; }
      packet, done := packet.(blocked := AsBool(v.value).value), 7;
      v := At(metadata.value, ChunkSize);
      AssignNext(j, start, 7, packet);
      if v.None? || AsUInt32(v.value).None? { return; }
      packet, done := packet.(chunkSize := AsUInt32(v.value).value), 8;
      v := At(metadata.value, SessionId);
      AssignNext(j, start, 8, packet);
      if v.None? || AsString(v.value).None? { return; }
      packet, done := packet.(sessionId := AsString(v.value).value), 9;
      v := At(metadata.value, SyncCount);
      AssignNext(j, start, 9, packet);
      if v.None? || AsUInt16(v.value).None? { return; }
      packet, done := packet.(syncCount := AsUInt16(v.value).value), 10;
      thrown := false;
    }
  }

  /** `q` with the ten fields that travel as JSON members taken from `p`. */
  function Restored(p: PacketInfo, q: PacketInfo): PacketInfo {
    p.(packetType := q.packetType, data := q.data, chunkData := q.chunkData)
  }

  /** `q` with field number `k` taken from `p`. */
  function Take(p: PacketInfo, q: PacketInfo, k: nat): PacketInfo
    requires k < FIELDS
  {
    if k == 0 then q.(timestamp := p.timestamp)
    else if k == 1 then q.(direction := p.direction)
    else if k == 2 then q.(id := p.id)
    else if k == 3 then q.(name := p.name)
    else if k == 4 then q.(size := p.size)
    else if k == 5 then q.(injected := p.injected)
    else if k == 6 then q.(blocked := p.blocked)
    else if k == 7 then q.(chunkSize := p.chunkSize)
    else if k == 8 then q.(sessionId := p.sessionId)
    else q.(syncCount := p.syncCount)
  }

  function TakeUpTo(p: PacketInfo, q: PacketInfo, k: nat): PacketInfo
    requires k <= FIELDS
  {
    if k == 0 then q else Take(p, TakeUpTo(p, q, k - 1), k - 1)
  }

  lemma TakeAll(p: PacketInfo, q: PacketInfo)
    ensures TakeUpTo(p, q, FIELDS) == Restored(p, q)
  {
    assert TakeUpTo(p, q, 1) == q.(timestamp := p.timestamp);
    assert TakeUpTo(p, q, 2) == Take(p, TakeUpTo(p, q, 1), 1);
    assert TakeUpTo(p, q, 3) == Take(p, TakeUpTo(p, q, 2), 2);
    assert TakeUpTo(p, q, 4) == Take(p, TakeUpTo(p, q, 3), 3);
    assert TakeUpTo(p, q, 5) == Take(p, TakeUpTo(p, q, 4), 4);
    assert TakeUpTo(p, q, 6) == Take(p, TakeUpTo(p, q, 5), 5);
    assert TakeUpTo(p, q, 7) == Take(p, TakeUpTo(p, q, 6), 6);
    assert TakeUpTo(p, q, 8) == Take(p, TakeUpTo(p, q, 7), 7);
    assert TakeUpTo(p, q, 9) == Take(p, TakeUpTo(p, q, 8), 8);
  }

  /** The document has the members of the packet, except perhaps for the two byte strings. */
  predicate Describes(j: Value, p: PacketInfo) {
    j.JObject? && forall k :: k in Members(p) && k != Data && k != ChunkData ==>
                    k in j.members && j.members[k] == Members(p)[k]
  }

  predicate HasBasics(j: Value, p: PacketInfo) {
    && At(j, Timestamp) == Some(JInt(p.timestamp))
    && At(j, DirectionKey) == Some(JString(if p.direction == Incoming then "incoming" else "outgoing"))
    && At(j, PacketId) == Some(JInt(p.id))
    && At(j, PacketName) == Some(JString(p.name))
    && At(j, Size) == Some(JInt(p.size))
  }

  lemma MembersOf(p: PacketInfo)
    ensures HasBasics(JObject(Members(p)), p)
    ensures At(JObject(Members(p)), Metadata) == Some(MetadataOf(p))
  {
  }

  lemma DescribedMembers(j: Value, p: PacketInfo)
    requires Describes(j, p)
    ensures HasBasics(j, p) && At(j, Metadata) == Some(MetadataOf(p))
  {
    MembersOf(p);
    DescribedAt(j, p, Timestamp);
    DescribedAt(j, p, DirectionKey);
    DescribedAt(j, p, PacketId);
    DescribedAt(j, p, PacketName);
    DescribedAt(j, p, Size);
    DescribedAt(j, p, Metadata);
  }

  lemma DescribedAt(j: Value, p: PacketInfo, k: Key)
    requires Describes(j, p) && At(JObject(Members(p)), k).Some? && k != Data && k != ChunkData
    ensures At(j, k) == At(JObject(Members(p)), k)
  {
  }

  lemma AssignTakesBasics(j: Value, p: PacketInfo, q: PacketInfo, k: nat)
    requires HasBasics(j, p) && k < 5
    ensures Assign(j, q, k) == Some(Take(p, q, k))
  {
    assert "incoming"[0] != "outgoing"[0];
  }

  lemma AssignTakesMetadata(j: Value, p: PacketInfo, q: PacketInfo, k: nat)
    requires At(j, Metadata) == Some(MetadataOf(p)) && 5 <= k < FIELDS
    ensures Assign(j, q, k) == Some(Take(p, q, k))
  {
  }

  lemma {:induction false} AssignedUpToTakes(j: Value, p: PacketInfo, q: PacketInfo, k: nat)
    requires HasBasics(j, p) && At(j, Metadata) == Some(MetadataOf(p)) && k <= FIELDS
    ensures AssignedUpTo(j, q, k) == Some(TakeUpTo(p, q, k))
    decreases k
  {
    if k > 0 {
      AssignedUpToTakes(j, p, q, k - 1);
      if k - 1 < 5 {
        AssignTakesBasics(j, p, TakeUpTo(p, q, k - 1), k - 1);
      } else {
        AssignTakesMetadata(j, p, TakeUpTo(p, q, k - 1), k - 1);
      }
    }
  }

  /** `from_json` after `to_json`, or after any document with the same members, restores ten fields. */
  lemma FromJsonRestores(j: Value, p: PacketInfo, q: PacketInfo)
    requires Describes(j, p)
    ensures FromJson(j, q) == Some(Restored(p, q))
  {
    DescribedMembers(j, p);
    AssignedUpToTakes(j, p, q, FIELDS);
    TakeAll(p, q);
  }

  /** The order of the ten assignments: number `k` touches no other field than this. */
  lemma AssignmentOrder(j: Value, p: PacketInfo, k: nat)
    requires k < FIELDS && Assign(j, p, k).Some?
    ensures var r := Assign(j, p, k).value;
      && (k == 0 ==> r == p.(timestamp := r.timestamp)) && (k == 1 ==> r == p.(direction := r.direction))
      && (k == 2 ==> r == p.(id := r.id)) && (k == 3 ==> r == p.(name := r.name))
      && (k == 4 ==> r == p.(size := r.size)) && (k == 5 ==> r == p.(injected := r.injected))
      && (k == 6 ==> r == p.(blocked := r.blocked)) && (k == 7 ==> r == p.(chunkSize := r.chunkSize))
      && (k == 8 ==> r == p.(sessionId := r.sessionId)) && (k == 9 ==> r == p.(syncCount := r.syncCount))
  {
  }

  /** Whether an assignment throws depends on the document alone. */
  lemma AssignThrowsAlike(j: Value, p: PacketInfo, q: PacketInfo, k: nat)
    requires k < FIELDS
    ensures Assign(j, p, k).None? <==> Assign(j, q, k).None?
  {
  }

  lemma {:induction false} SucceedsStepByStep(j: Value, q: PacketInfo, k: nat)
    requires k <= FIELDS
    ensures AssignedUpTo(j, q, k).Some? <==> forall i :: 0 <= i < k ==> Assign(j, q, i).Some?
    decreases k
  {
    if k > 0 {
      SucceedsStepByStep(j, q, k - 1);
      if AssignedUpTo(j, q, k - 1).Some? {
        AssignThrowsAlike(j, AssignedUpTo(j, q, k - 1).value, q, k - 1);
      }
    }
  }

  /** `from_json` succeeds exactly on objects with these members of these types; the order does not matter. */
  lemma FromJsonSucceedsIff(j: Value, q: PacketInfo)
    ensures FromJson(j, q).Some? <==>
      && j.JObject? && {Timestamp, DirectionKey, PacketId, PacketName, Size, Metadata} <= j.members.Keys
      && j.members[Timestamp].JInt? && (j.members[PacketId].JInt? || j.members[PacketId].JBool?)
      && j.members[PacketName].JString? && (j.members[Size].JInt? || j.members[Size].JBool?)
      && var m := j.members[Metadata];
         && m.JObject? && {Injected, Blocked, ChunkSize, SessionId, SyncCount} <= m.members.Keys
         && m.members[Injected].JBool? && m.members[Blocked].JBool?
         && (m.members[ChunkSize].JInt? || m.members[ChunkSize].JBool?)
         && m.members[SessionId].JString? && (m.members[SyncCount].JInt? || m.members[SyncCount].JBool?)
  {
    SucceedsStepByStep(j, q, FIELDS);
    BasicsSucceedIff(j, q);
    MetadataSucceedsIff(j, q);
  }

  lemma BasicsSucceedIff(j: Value, q: PacketInfo)
    ensures (forall i :: 0 <= i < 5 ==> Assign(j, q, i).Some?) <==>
      && j.JObject? && {Timestamp, DirectionKey, PacketId, PacketName, Size} <= j.members.Keys
      && j.members[Timestamp].JInt? && (j.members[PacketId].JInt? || j.members[PacketId].JBool?)
      && j.members[PacketName].JString? && (j.members[Size].JInt? || j.members[Size].JBool?)
  {
    assert (forall i :: 0 <= i < 5 ==> Assign(j, q, i).Some?) <==>
      Assign(j, q, 0).Some? && Assign(j, q, 1).Some? && Assign(j, q, 2).Some? && Assign(j, q, 3).Some?
      && Assign(j, q, 4).Some?;
  }

  lemma MetadataSucceedsIff(j: Value, q: PacketInfo)
    ensures (forall i :: 5 <= i < 10 ==> Assign(j, q, i).Some?) <==>
      && j.JObject? && Metadata in j.members
      && var m := j.members[Metadata];
         && m.JObject? && {Injected, Blocked, ChunkSize, SessionId, SyncCount} <= m.members.Keys
         && m.members[Injected].JBool? && m.members[Blocked].JBool?
         && (m.members[ChunkSize].JInt? || m.members[ChunkSize].JBool?)
         && m.members[SessionId].JString? && (m.members[SyncCount].JInt? || m.members[SyncCount].JBool?)
  {
    assert (forall i :: 5 <= i < 10 ==> Assign(j, q, i).Some?) <==>
      Assign(j, q, 5).Some? && Assign(j, q, 6).Some? && Assign(j, q, 7).Some? && Assign(j, q, 8).Some?
      && Assign(j, q, 9).Some?;
  }

  /** Any word but "incoming" makes the packet an outgoing one. */
  lemma DirectionRead(j: Value, q: PacketInfo)
    requires FromJson(j, q).Some?
    ensures FromJson(j, q).value.direction == Incoming <==> At(j, DirectionKey) == Some(JString("incoming"))
  {
    DirectionStays(j, q, FIELDS);
  }

  lemma {:induction false} DirectionStays(j: Value, q: PacketInfo, k: nat)
    requires 2 <= k <= FIELDS && AssignedUpTo(j, q, k).Some?
    ensures AssignedUpTo(j, q, k).value.direction == Incoming <==> At(j, DirectionKey) == Some(JString("incoming"))
    decreases k
  {
    if k > 2 {
      DirectionStays(j, q, k - 1);
    } else {
      AssignNext(j, q, 1, AssignedUpTo(j, q, 1).value);
    }
  }

  // ---------------------------------------------------------------------------------------------
  // The two wire forms

  /** A frame of a multipart message; a dumped document is kept as the value it stands for. */
  datatype Frame = Text(text: string) | Document(json: Value) | Raw(bytes: seq<Byte>)

  /** What the publisher adds to every packet. */
  datatype Envelope = Envelope(version: string, sessionUuid: string, messageId: UInt64)

  function Augment(m: map<Key, Value>, e: Envelope): map<Key, Value> {
    m[Version := JString(e.version)][SessionUuid := JString(e.sessionUuid)][MessageId := JInt(e.messageId)]
  }

  function Augmented(p: PacketInfo, e: Envelope): map<Key, Value> {
    Augment(Members(p), e)
  }

  /** topic, metadata without the payloads, raw data, optional raw chunk */
  function MultipartForm(p: PacketInfo, e: Envelope): seq<Frame> {
    [Text(TopicForPacket(e.version, p)), Document(JObject(Augmented(p, e) - {Data, ChunkData})), Raw(p.data)]
    + if p.chunkData != [] then [Raw(p.chunkData)] else []
  }

  /** topic, one document */
  function DocumentForm(p: PacketInfo, e: Envelope): seq<Frame> {
    [Text(TopicForPacket(e.version, p)), Document(JObject(Augmented(p, e)))]
  }

  function WireForm(multipart: bool, p: PacketInfo, e: Envelope): seq<Frame> {
    if multipart then MultipartForm(p, e) else DocumentForm(p, e)
  }

  /** With the flag set the payloads are raw frames beside the metadata. */
  lemma MultipartFrames(p: PacketInfo, e: Envelope)
    ensures var mp := WireForm(true, p, e);
      && |mp| == (if p.chunkData == [] then 3 else 4)
      && mp[0] == Text(TopicForPacket(e.version, p)) && mp[1].Document? && mp[1].json.JObject?
      && Data !in mp[1].json.members && ChunkData !in mp[1].json.members
      && mp[2] == Raw(p.data) && (p.chunkData != [] ==> mp[3] == Raw(p.chunkData))
  {
  }

  /** Without it they are base64 members of the one document. */
  lemma DocumentFrames(p: PacketInfo, e: Envelope)
    ensures var mp := WireForm(false, p, e);
      && |mp| == 2
      && mp[0] == Text(TopicForPacket(e.version, p)) && mp[1].Document? && mp[1].json.JObject?
      && At(mp[1].json, Data) == Some(JString(Base64.Encode(p.data)))
      && At(mp[1].json, ChunkData) == (if p.chunkData == [] then None else Some(JString(Base64.Encode(p.chunkData))))
      && ReadBytes(mp[1].json, Data) == Some(p.data) && ReadBytes(mp[1].json, ChunkData) == Some(p.chunkData)
  {
    AugmentedMembers(p, e);
    ToJsonMembers(p);
    PayloadMembers(p);
  }

  /** What the publisher adds, and that it changes no other member. */
  lemma EnvelopeMembers(multipart: bool, p: PacketInfo, e: Envelope)
    ensures var j := WireForm(multipart, p, e)[1].json;
      && At(j, Version) == Some(JString(e.version)) && At(j, SessionUuid) == Some(JString(e.sessionUuid))
      && At(j, MessageId) == Some(JInt(e.messageId))
    ensures forall k :: k !in {Version, SessionUuid, MessageId, Data, ChunkData} ==>
      At(WireForm(multipart, p, e)[1].json, k) == At(ToJson(p), k)
  {
    NoEnvelopeMembers(p);
  }

  /** The frames in the order in which the publisher thread adds them. */
  method BuildMessage(multipart: bool, p: PacketInfo, e: Envelope) returns (mp: seq<Frame>)
    ensures mp == WireForm(multipart, p, e)
    ensures multipart ==> |mp| == (if p.chunkData == [] then 3 else 4) && mp[2] == Raw(p.data)
    ensures multipart && p.chunkData != [] ==> mp[3] == Raw(p.chunkData)
    ensures multipart ==> mp[1].Document? && mp[1].json.JObject?
                          && Data !in mp[1].json.members && ChunkData !in mp[1].json.members
    ensures !multipart ==> |mp| == 2 && mp[1].Document? && ReadBytes(mp[1].json, Data) == Some(p.data)
                           && ReadBytes(mp[1].json, ChunkData) == Some(p.chunkData)
  {
    MultipartFrames(p, e);
    DocumentFrames(p, e);
    var members := Members(p);
    members := members[Version := JString(e.version)];
    members := members[SessionUuid := JString(e.sessionUuid)];
    members := members[MessageId := JInt(e.messageId)];
    mp := [Text(TopicForPacket(e.version, p))];
    if multipart {
      var meta := members - {Data};
      meta := meta - {ChunkData};
      assert meta == members - {Data, ChunkData};
      mp := mp + [Document(JObject(meta))];
      mp := mp + [Raw(p.data)];
      if p.chunkData != [] {
        mp := mp + [Raw(p.chunkData)];
      }
    } else {
      mp := mp + [Document(JObject(members))];
    }
  }

  // ---------------------------------------------------------------------------------------------
  // A subscriber that rebuilds packets

  datatype Delivery = Delivery(topic: string, packet: PacketInfo, envelope: Envelope)

  function Reclassified(p: PacketInfo): PacketInfo {
    p.(packetType := ClassifyPacket(p.id, p.direction))
  }

  function ReadEnvelope(j: Value): Option<Envelope> {
    var v :- At(j, Version);
    var version :- AsString(v);
    var s :- At(j, SessionUuid);
    var sessionUuid :- AsString(s);
    var m :- At(j, MessageId);
    var messageId :- AsUInt64(m);
    Some(Envelope(version, sessionUuid, messageId))
  }

  /** The packet a document describes, with the payloads given. */
  function ReadPacket(topic: string, j: Value, data: seq<Byte>, chunkData: seq<Byte>): Option<Delivery> {
    var p :- FromJson(j, BLANK);
    var e :- ReadEnvelope(j);
    Some(Delivery(topic, Reclassified(p.(data := data, chunkData := chunkData)), e))
  }

  /** A base64 member; an absent one stands for no bytes. */
  function ReadBytes(j: Value, k: Key): Option<seq<Byte>> {
    if At(j, k).None? then Some([])
    else
      var s :- AsString(At(j, k).value);
      Base64.Decode(s)
  }

  function Receive(mp: seq<Frame>): Option<Delivery> {
    if |mp| < 2 || !mp[0].Text? || !mp[1].Document? then None
    else
      var topic, j := mp[0].text, mp[1].json;
      if |mp| == 2 then
        var data :- ReadBytes(j, Data);
        var chunkData :- ReadBytes(j, ChunkData);
        ReadPacket(topic, j, data, chunkData)
      else if |mp| > 4 || !mp[2].Raw? || (|mp| == 4 && !mp[3].Raw?) then None
      else ReadPacket(topic, j, mp[2].bytes, if |mp| == 4 then mp[3].bytes else [])
  }

  lemma ReadPacketOf(topic: string, j: Value, p: PacketInfo, e: Envelope)
    requires Describes(j, p) && ReadEnvelope(j) == Some(e)
    ensures ReadPacket(topic, j, p.data, p.chunkData) == Some(Delivery(topic, Reclassified(p), e))
  {
    FromJsonRestores(j, p, BLANK);
  }

  lemma AugmentKeeps(m: map<Key, Value>, e: Envelope)
    requires m.Keys !! {Version, SessionUuid, MessageId}
    ensures forall k :: k in m ==> k in Augment(m, e) && Augment(m, e)[k] == m[k]
    ensures forall k :: k in Augment(m, e) ==> k in m || k in {Version, SessionUuid, MessageId}
    ensures ReadEnvelope(JObject(Augment(m, e))) == Some(e)
    ensures ReadEnvelope(JObject(Augment(m, e) - {Data, ChunkData})) == Some(e)
  {
  }

  lemma AugmentedMembers(p: PacketInfo, e: Envelope)
    ensures var j := JObject(Augmented(p, e));
            && Describes(j, p) && ReadEnvelope(j) == Some(e)
            && At(j, Data) == At(ToJson(p), Data) && At(j, ChunkData) == At(ToJson(p), ChunkData)
    ensures var j := JObject(Augmented(p, e) - {Data, ChunkData});
            Describes(j, p) && ReadEnvelope(j) == Some(e)
  {
    NoEnvelopeMembers(p);
    AugmentKeeps(Members(p), e);
    assert Data !in {Version, SessionUuid, MessageId} && ChunkData !in {Version, SessionUuid, MessageId};
  }

  lemma NoEnvelopeMembers(p: PacketInfo)
    ensures Members(p).Keys !! {Version, SessionUuid, MessageId}
  {
  }

  /** Decoding the base64 members gives the payloads; an empty chunk has no member. */
  lemma PayloadMembers(p: PacketInfo)
    ensures ReadBytes(ToJson(p), Data) == Some(p.data)
    ensures ReadBytes(ToJson(p), ChunkData) == Some(p.chunkData)
    ensures At(ToJson(p), ChunkData).Some? <==> p.chunkData != []
  {
    Base64.DecodeEncode(p.data);
    Base64.DecodeEncode(p.chunkData);
  }

  lemma DocumentFormReceived(p: PacketInfo, e: Envelope)
    ensures Receive(DocumentForm(p, e)) == Some(Delivery(TopicForPacket(e.version, p), Reclassified(p), e))
  {
    var j := JObject(Augmented(p, e));
    AugmentedMembers(p, e);
    PayloadMembers(p);
    ReadPacketOf(TopicForPacket(e.version, p), j, p, e);
  }

  lemma MultipartFormReceived(p: PacketInfo, e: Envelope)
    ensures Receive(MultipartForm(p, e)) == Some(Delivery(TopicForPacket(e.version, p), Reclassified(p), e))
  {
    var j := JObject(Augmented(p, e) - {Data, ChunkData});
    AugmentedMembers(p, e);
    ReceiveRaw(TopicForPacket(e.version, p), j, p.data, p.chunkData);
    ReadPacketOf(TopicForPacket(e.version, p), j, p, e);
  }

  lemma ReceiveRaw(topic: string, j: Value, data: seq<Byte>, chunkData: seq<Byte>)
    ensures Receive([Text(topic), Document(j), Raw(data)] + if chunkData != [] then [Raw(chunkData)] else [])
         == ReadPacket(topic, j, data, chunkData)
  {
  }

  /**
    Both forms carry the same packet, whatever its payloads; the chunk frame is present exactly when
    the member `chunk_data` is. A packet built from a callback comes back unchanged.
   */
  lemma WireFormsCarryThePacket(multipart: bool, p: PacketInfo, e: Envelope)
    ensures Receive(WireForm(multipart, p, e))
         == Some(Delivery(TopicForPacket(e.version, p), Reclassified(p), e))
    ensures |MultipartForm(p, e)| == 4 <==> ChunkData in DocumentForm(p, e)[1].json.members
    ensures Built(p) ==> Reclassified(p) == p
  {
    DocumentFormReceived(p, e);
    MultipartFormReceived(p, e);
  }

  // ---------------------------------------------------------------------------------------------
  // The document on the PUSH socket (277-283): the packet alone, without an envelope

  function ReceivePushed(j: Value): Option<PacketInfo> {
    var p :- FromJson(j, BLANK);
    var data :- ReadBytes(j, Data);
    var chunkData :- ReadBytes(j, ChunkData);
    Some(Reclassified(p.(data := data, chunkData := chunkData)))
  }

  lemma PushedDocumentReceived(p: PacketInfo)
    ensures ReceivePushed(ToJson(p)) == Some(Reclassified(p))
    ensures Built(p) ==> Reclassified(p) == p
  {
    PayloadMembers(p);
    FromJsonRestores(ToJson(p), p, BLANK);
  }
}
