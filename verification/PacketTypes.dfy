/** src/packet_types.hpp and src/packet_types.cpp: packets, their classification and their headers. */
module PacketTypes {
  import opened Words

  datatype Direction = Incoming | Outgoing

  datatype PacketType =
    | WorldClientToServer
    | WorldServerToClient
    | LobbyClientToServer
    | LobbyServerToClient
    | PatchClientToServer
    | PatchServerToClient
    | Unknown

  datatype PacketInfo = PacketInfo(
    timestamp: UInt64,
    direction: Direction,
    packetType: PacketType,
    id: UInt16,
    name: string,
    size: UInt32,
    data: seq<Byte>,
    injected: bool,
    blocked: bool,
    chunkSize: UInt32,
    sessionId: string,
    syncCount: UInt16,
    chunkData: seq<Byte>)

  /** A record whose fields are still to be filled in. */
  const BLANK: PacketInfo := PacketInfo(0, Incoming, Unknown, 0, "", 0, [], false, false, 0, "", 0, [])

  // ---------------------------------------------------------------------------------------------
  // Classification

  /** The keys of the table of lobby packets. */
  const LOBBY_IDS: set<int> := {0x0007, 0x0014, 0x001F, 0x0021, 0x0022, 0x0024, 0x0026, 0x0028, 0x002B}

  predicate IsWorldPacket(id: UInt16) {
    id >= 0x0005 && id <= 0x011E
  }

  predicate IsLobbyPacket(id: UInt16) {
    id in LOBBY_IDS
  }

  predicate IsPatchPacket(id: UInt16) {
    id >= 0x0001 && id <= 0x0008
  }

  function ClassifyPacket(id: UInt16, direction: Direction): PacketType {
    if id >= 0x0005 && id <= 0x011E then
      if direction == Incoming then WorldServerToClient else WorldClientToServer
    else if id in LOBBY_IDS then
      if direction == Incoming then LobbyServerToClient else LobbyClientToServer
    else if id >= 0x0001 && id <= 0x0008 then
      if direction == Incoming then PatchServerToClient else PatchClientToServer
    else Unknown
  }

  predicate IsWorldType(t: PacketType) {
    t == WorldClientToServer || t == WorldServerToClient
  }

  predicate IsLobbyType(t: PacketType) {
    t == LobbyClientToServer || t == LobbyServerToClient
  }

  predicate IsPatchType(t: PacketType) {
    t == PatchClientToServer || t == PatchServerToClient
  }

  /**
    What the three tests, tried in this order, amount to: every lobby id lies in the world range, so
    no packet is ever classified as lobby, and of the documented patch range only 1 to 4 is left.
   */
  lemma Classification(id: UInt16, direction: Direction)
    ensures 0x0005 <= id <= 0x011E ==>
      ClassifyPacket(id, direction) == if direction == Incoming then WorldServerToClient else WorldClientToServer
    ensures 0x0001 <= id <= 0x0004 ==>
      ClassifyPacket(id, direction) == if direction == Incoming then PatchServerToClient else PatchClientToServer
    ensures IsWorldType(ClassifyPacket(id, direction)) <==> IsWorldPacket(id)
    ensures !IsLobbyType(ClassifyPacket(id, direction)) && (IsLobbyPacket(id) ==> IsWorldPacket(id))
    ensures IsPatchType(ClassifyPacket(id, direction)) <==> IsPatchPacket(id) && id <= 4
    ensures ClassifyPacket(id, direction) == Unknown <==> id == 0 || id > 0x011E
    ensures ClassifyPacket(id, direction) in {WorldServerToClient, PatchServerToClient} ==> direction == Incoming
    ensures ClassifyPacket(id, direction) in {WorldClientToServer, PatchClientToServer} ==> direction == Outgoing
  {
  }

  // ---------------------------------------------------------------------------------------------
  // Headers

  /** The header union: other packet types leave it unset. */
  datatype PacketHeader =
    | World(id: int, size: int, sync: UInt16)
    | Lobby(packetSize: UInt32, terminator: UInt32, command: UInt32, identifier: seq<Byte>)
    | Unset

  function Little16(x: UInt16): (b: seq<Byte>)
    ensures |b| == 2
  {
    [x % 0x100, x / 0x100]
  }

  function Little32(x: UInt32): (b: seq<Byte>)
    ensures |b| == 4
  {
    Little16(x % 0x1_0000) + Little16(x / 0x1_0000)
  }

  /** Number of bytes in front of the payload; a lobby header takes 28, whatever docs/DESIGN.md:77 says. */
  function HeaderLength(t: PacketType): nat {
    if IsWorldType(t) then 4 else if IsLobbyType(t) then 28 else 0
  }

  /** The header a peer writes for these fields: the specification of the parser. */
  function HeaderBytes(h: PacketHeader): seq<Byte>
    requires WellFormed(h)
  {
    match h
    case World(id, size, sync) => Little16(id + 512 * size) + Little16(sync)
    case Lobby(packetSize, terminator, command, identifier) =>
      Little32(packetSize) + Little32(terminator) + Little32(command) + identifier
    case Unset => []
  }

  /** The bit fields are 9 and 7 bits wide, the identifier has 16 bytes. */
  predicate WellFormed(h: PacketHeader) {
    match h
    case World(id, size, sync) => 0 <= id < 512 && 0 <= size < 128
    case Lobby(_, _, _, identifier) => |identifier| == 16
    case Unset => true
  }

  lemma Little16Injective(x: UInt16, y: UInt16)
    requires Little16(x) == Little16(y)
    ensures x == y
  {
    assert Little16(x)[0] == Little16(y)[0] && Little16(x)[1] == Little16(y)[1];
  }

  lemma Little32Injective(x: UInt32, y: UInt32)
    requires Little32(x) == Little32(y)
    ensures x == y
  {
    assert Little16(x % 0x1_0000) == Little32(x)[..2] && Little16(x / 0x1_0000) == Little32(x)[2..];
    assert Little16(y % 0x1_0000) == Little32(y)[..2] && Little16(y / 0x1_0000) == Little32(y)[2..];
    Little16Injective(x % 0x1_0000, y % 0x1_0000);
    Little16Injective(x / 0x1_0000, y / 0x1_0000);
  }

  /** Two headers of the same kind with the same bytes are the same header. */
  lemma HeaderBytesInjective(g: PacketHeader, h: PacketHeader)
    requires WellFormed(g) && WellFormed(h) && HeaderBytes(g) == HeaderBytes(h)
    requires (g.World? && h.World?) || (g.Lobby? && h.Lobby?)
    ensures g == h
  {
    var b := HeaderBytes(g);
    if g.World? {
      assert b[..2] == Little16(g.id + 512 * g.size) == Little16(h.id + 512 * h.size);
      assert b[2..] == Little16(g.sync) == Little16(h.sync);
      Little16Injective(g.id + 512 * g.size, h.id + 512 * h.size);
      Little16Injective(g.sync, h.sync);
    } else {
      assert b[..4] == Little32(g.packetSize) == Little32(h.packetSize);
      assert b[4..8] == Little32(g.terminator) == Little32(h.terminator);
      assert b[8..12] == Little32(g.command) == Little32(h.command);
      assert b[12..] == g.identifier == h.identifier;
      Little32Injective(g.packetSize, h.packetSize);
      Little32Injective(g.terminator, h.terminator);
      Little32Injective(g.command, h.command);
    }
  }

  /** `*reinterpret_cast<const uint16_t*>(data + k)` on a little-endian machine. */
  method Read16(data: array<Byte>, k: nat) returns (x: UInt16)
    requires k + 2 <= data.Length
    ensures x == data[k] as int + 0x100 * data[k + 1] as int
    ensures Little16(x) == data[k..k + 2]
  {
    var low: int, high: int := data[k], data[k + 1];
    x := low + 0x100 * high;
  }

  method Read32(data: array<Byte>, k: nat) returns (x: UInt32)
    requires k + 4 <= data.Length
    ensures x == data[k] as int + 0x100 * data[k + 1] as int
                 + 0x1_0000 * data[k + 2] as int + 0x100_0000 * data[k + 3] as int
    ensures Little32(x) == data[k..k + 4]
  {
    var low: int := Read16(data, k);
    var high: int := Read16(data, k + 2);
    x := low + 0x1_0000 * high;
    Split65536(high, low);
    assert data[k..k + 4] == data[k..k + 2] + data[k + 2..k + 4];
  }

  /** The 9-bit id takes the lowest bit of the second byte. */
  lemma WorldWord(x: Byte, y: Byte)
    ensures var word: int := x as int + 0x100 * (y as int);
            word % 0x200 == x as int + 0x100 * (y as int % 2) && word / 0x200 % 0x80 == y / 2
  {
    Split512(y / 2, x as int + 0x100 * (y as int % 2));
  }

  /** The parsed header is the one whose bytes the buffer starts with. */
  method ParseHeader(data: array<Byte>, packetType: PacketType) returns (header: PacketHeader)
    requires HeaderLength(packetType) <= data.Length
    ensures header.World? <==> packetType == WorldClientToServer || packetType == WorldServerToClient
    ensures header.Lobby? <==> packetType == LobbyClientToServer || packetType == LobbyServerToClient
    ensures header.World? ==>
      && data.Length >= 4
      && header.id == data[0] as int + 0x100 * (data[1] as int % 2) && header.size == data[1] as int / 2
      && header.sync == data[2] as int + 0x100 * data[3] as int
    ensures header.Lobby? ==>
      && data.Length >= 28
      && header.packetSize == data[0] as int + 0x100 * data[1] as int
                              + 0x1_0000 * data[2] as int + 0x100_0000 * data[3] as int
      && header.terminator == data[4] as int + 0x100 * data[5] as int
                              + 0x1_0000 * data[6] as int + 0x100_0000 * data[7] as int
      && header.command == data[8] as int + 0x100 * data[9] as int
                              + 0x1_0000 * data[10] as int + 0x100_0000 * data[11] as int
      && header.identifier == data[12..28]
    ensures WellFormed(header) && HeaderBytes(header) == data[..HeaderLength(packetType)]
    ensures forall h | WellFormed(h) && h.World? == header.World? && h.Lobby? == header.Lobby?
                    && HeaderBytes(h) == data[..HeaderLength(packetType)] :: h == header
  {
    header := Unset;
    if packetType == WorldClientToServer || packetType == WorldServerToClient {
      var firstWord := Read16(data, 0);
      var sync := Read16(data, 2);
      header := World(firstWord % 0x200, firstWord / 0x200 % 0x80, sync);
      assert firstWord % 0x200 + 512 * (firstWord / 0x200 % 0x80) == firstWord;
      WorldWord(data[0], data[1]);
      assert data[..4] == data[0..2] + data[2..4];
    } else if packetType == LobbyClientToServer || packetType == LobbyServerToClient {
      var packetSize := Read32(data, 0);
      var terminator := Read32(data, 4);
      var command := Read32(data, 8);
      var identifier := data[12..28];
      header := Lobby(packetSize, terminator, command, identifier);
      assert data[..28] == data[0..4] + data[4..8] + data[8..12] + data[12..28];
    }
    forall h | WellFormed(h) && h.World? == header.World? && h.Lobby? == header.Lobby?
            && HeaderBytes(h) == data[..HeaderLength(packetType)] ensures h == header {
      if !h.Unset? {
        HeaderBytesInjective(h, header);
      }
    }
  }

  // ---------------------------------------------------------------------------------------------
  // Building a packet from the raw buffers of a callback

  function Decimal(n: nat): string {
    if n < 10 then ['0' + n as char] else Decimal(n / 10) + ['0' + (n % 10) as char]
  }

  /** One digit after the other, the most significant first. */
  lemma DecimalDigits(n: nat, d: nat)
    requires d < 10
    ensures Decimal(d) == ["0123456789"[d]]
    ensures n > 0 ==> Decimal(10 * n + d) == Decimal(n) + ["0123456789"[d]]
  {
    assert (10 * n + d) / 10 == n && (10 * n + d) % 10 == d;
  }

  /** What a decimal numeral stands for. */
  function DecimalValue(s: string): int {
    if s == "" then 0 else 10 * DecimalValue(s[..|s| - 1]) + (s[|s| - 1] as int - '0' as int)
  }

  lemma {:induction false} DecimalReadsBack(n: nat)
    ensures DecimalValue(Decimal(n)) == n && |Decimal(n)| > 0
    ensures forall c :: c in Decimal(n) ==> '0' <= c <= '9'
    ensures Decimal(n)[0] == '0' ==> n == 0
    decreases n
  {
    var s := Decimal(n);
    if n >= 10 {
      DecimalReadsBack(n / 10);
      assert s[..|s| - 1] == Decimal(n / 10);
    } else {
      assert s[..0] == "";
    }
  }

  /** A packet as the rest of the program sees it: its type and header agree with its id and bytes. */
  predicate Built(p: PacketInfo) {
    && p.packetType == ClassifyPacket(p.id, p.direction)
    && |p.data| == p.size
    && (p.chunkData != [] ==> |p.chunkData| == p.chunkSize)
    && p.sessionId == "session_" + Decimal(p.timestamp)
  }

  /**
    `now` is the clock; `indeterminate` is what the field `sync_count` of the new record happens to
    hold; `names` is the name table. The raw buffers may be longer than the sizes given for them, and a
    world packet's header is read even when `size` is smaller than four.
   */
  method CreatePacketInfo(id: UInt16, size: UInt32, data: array<Byte>, direction: Direction, injected: bool,
                          blocked: bool, chunkSize: UInt32, chunkData: array?<Byte>,
                          now: UInt64, indeterminate: UInt16, names: (UInt16, PacketType) -> string)
    returns (info: PacketInfo)
    requires size <= data.Length && (IsWorldPacket(id) ==> 4 <= data.Length)
    requires chunkData != null ==> chunkSize <= chunkData.Length
    ensures Built(info)
    ensures info.timestamp == now && info.direction == direction && info.id == id && info.size == size
    ensures info.data == data[..size] && info.name == names(id, info.packetType)
    ensures info.injected == injected && info.blocked == blocked && info.chunkSize == chunkSize
    ensures info.packetType == ClassifyPacket(id, direction) && info.sessionId == "session_" + Decimal(now)
    ensures 0x0005 <= id <= 0x011E ==> data.Length >= 4 && info.syncCount == data[2] as int + 0x100 * data[3] as int
    ensures !(0x0005 <= id <= 0x011E) ==> info.syncCount == indeterminate
    ensures info.chunkData == if chunkData != null then chunkData[..chunkSize] else []
  {
    info := BLANK.(syncCount := indeterminate);
    info := info.(timestamp := now);
    info := info.(direction := direction, id := id, size := size, data := data[..size]);
    info := info.(packetType := ClassifyPacket(id, direction));
    info := info.(name := names(id, info.packetType));
    info := info.(injected := injected, blocked := blocked, chunkSize := chunkSize);
    if IsWorldPacket(id) {
      var header := ParseHeader(data, info.packetType);
      info := info.(syncCount := header.sync);
    }
    if chunkData != null && chunkSize > 0 {
      info := info.(chunkData := chunkData[..chunkSize]);
    }
    info := info.(sessionId := "session_" + Decimal(info.timestamp));
  }
}
