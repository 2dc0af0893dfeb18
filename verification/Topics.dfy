/** src/zmq_relay.cpp:438-449: the topic of a packet, a parser for it, and prefix subscriptions. */
module Topics {
  import opened Sequences
  import opened Words
  import opened PacketTypes

  datatype Class = WorldClass | LobbyClass | PatchClass | UnknownClass

  function ClassOf(t: PacketType): Class {
    if t == WorldClientToServer || t == WorldServerToClient then WorldClass
    else if t == LobbyClientToServer || t == LobbyServerToClient then LobbyClass
    else if t == PatchClientToServer || t == PatchServerToClient then PatchClass
    else UnknownClass
  }

  function ClassName(c: Class): string {
    match c
    case WorldClass => "world"
    case LobbyClass => "lobby"
    case PatchClass => "patch"
    case UnknownClass => "unknown"
  }

  function DirectionName(d: Direction): string {
    if d == Incoming then "s2c" else "c2s"
  }

  type Nibble = x: int | 0 <= x < 16

  function HexDigit(x: Nibble): char {
    if x < 10 then '0' + x as char else 'A' + (x - 10) as char
  }

  /** The four digits of `%04X`. */
  function Hex4(id: UInt16): (s: string)
    ensures |s| == 4
  {
    [HexDigit(id / 0x1000), HexDigit(id / 0x100 % 0x10), HexDigit(id / 0x10 % 0x10), HexDigit(id % 0x10)]
  }

  function Head(version: string): string {
    "kpacket." + version + "."
  }

  function ClassPart(c: Class): string {
    ClassName(c) + "."
  }

  function DirectionPart(d: Direction): string {
    DirectionName(d) + ".0x"
  }

  function Topic(version: string, c: Class, d: Direction, id: UInt16): string {
    Head(version) + (ClassPart(c) + (DirectionPart(d) + Hex4(id)))
  }

  /** The concatenation of the code, left to right. */
  function TopicForPacket(version: string, packet: PacketInfo): (topic: string)
    ensures topic == Topic(version, ClassOf(packet.packetType), packet.direction, packet.id)
  {
    var hexId := "0x" + Hex4(packet.id);
    var c, d := ClassName(ClassOf(packet.packetType)), DirectionName(packet.direction);
    var topic := "kpacket." + version + "." + c + "." + d + "." + hexId;
    assert DirectionPart(packet.direction) + Hex4(packet.id) == d + "." + hexId;
    assert topic == Head(version) + (c + "." + (d + "." + hexId));
    topic
  }

  /** The text of a topic, written out. */
  lemma TopicText(version: string, packet: PacketInfo)
    ensures TopicForPacket(version, packet) ==
      "kpacket." + version + "."
      + (match packet.packetType
         case WorldClientToServer => "world"
         case WorldServerToClient => "world"
         case LobbyClientToServer => "lobby"
         case LobbyServerToClient => "lobby"
         case PatchClientToServer => "patch"
         case PatchServerToClient => "patch"
         case Unknown => "unknown")
      + "." + (if packet.direction == Incoming then "s2c" else "c2s") + ".0x"
      + ["0123456789ABCDEF"[packet.id / 0x1000], "0123456789ABCDEF"[packet.id / 0x100 % 0x10],
         "0123456789ABCDEF"[packet.id / 0x10 % 0x10], "0123456789ABCDEF"[packet.id % 0x10]]
  {
    var id := packet.id;
    HexDigits(id / 0x1000);
    HexDigits(id / 0x100 % 0x10);
    HexDigits(id / 0x10 % 0x10);
    HexDigits(id % 0x10);
    var c, d := ClassName(ClassOf(packet.packetType)), DirectionName(packet.direction);
    assert DirectionPart(packet.direction) + Hex4(id) == d + (".0x" + Hex4(id));
    assert Topic(version, ClassOf(packet.packetType), packet.direction, id)
        == "kpacket." + version + "." + c + "." + d + ".0x" + Hex4(id);
  }

  lemma HexDigits(x: Nibble)
    ensures HexDigit(x) == "0123456789ABCDEF"[x]
  {
  }

  // ---------------------------------------------------------------------------------------------
  // Prefixes, part by part

  lemma CommonPrefix(p: string, x: string, y: string)
    ensures p + x <= p + y <==> x <= y
  {
    assert (p + x)[|p|..] == x && (p + y)[|p|..] == y;
    if p + x <= p + y {
      assert x == (p + x)[|p|..] == (p + y)[..|p| + |x|][|p|..] == y[..|x|];
    }
  }

  /** The first letter of the class word tells the classes apart. */
  lemma ClassesDiffer(c: Class, x: string, e: Class, y: string)
    requires ClassPart(c) + x <= ClassPart(e) + y
    ensures c == e
  {
    assert (ClassPart(c) + x)[0] == (ClassPart(e) + y)[0];
    assert ClassPart(c)[0] == ClassPart(e)[0];
  }

  lemma DirectionsDiffer(d: Direction, x: string, e: Direction, y: string)
    requires DirectionPart(d) + x <= DirectionPart(e) + y
    ensures d == e
  {
    assert (DirectionPart(d) + x)[0] == (DirectionPart(e) + y)[0];
    assert DirectionPart(d)[0] == DirectionPart(e)[0];
  }

  /** Number of ids that share their first `k` hexadecimal digits. */
  function BlockSize(k: nat): nat
    requires k <= 4
  {
    if k == 0 then 0x1_0000 else if k == 1 then 0x1000 else if k == 2 then 0x100 else if k == 3 then 0x10 else 1
  }

  lemma HexDigitInjective(x: Nibble, y: Nibble)
    ensures HexDigit(x) == HexDigit(y) <==> x == y
  {
  }

  lemma OneMoreDigit(x: nat, y: nat)
    ensures x == y <==> x / 16 == y / 16 && x % 16 == y % 16
  {
  }

  lemma BlocksByDigits(i: UInt16, j: UInt16)
    ensures i / 0x100 == j / 0x100 <==> i / 0x1000 == j / 0x1000 && i / 0x100 % 16 == j / 0x100 % 16
    ensures i / 0x10 == j / 0x10 <==> i / 0x100 == j / 0x100 && i / 0x10 % 16 == j / 0x10 % 16
    ensures i == j <==> i / 0x10 == j / 0x10 && i % 16 == j % 16
  {
    OneMoreDigit(i, j);
    OneMoreDigit(i / 0x10, j / 0x10);
    OneMoreDigit(i / 0x100, j / 0x100);
    assert forall x: nat :: x / 0x10 / 16 == x / 0x100 && x / 0x100 / 16 == x / 0x1000;
  }

  lemma DigitsEqual(i: UInt16, j: UInt16)
    ensures Hex4(i)[0] == Hex4(j)[0] <==> i / 0x1000 == j / 0x1000
    ensures Hex4(i)[1] == Hex4(j)[1] <==> i / 0x100 % 16 == j / 0x100 % 16
    ensures Hex4(i)[2] == Hex4(j)[2] <==> i / 0x10 % 16 == j / 0x10 % 16
    ensures Hex4(i)[3] == Hex4(j)[3] <==> i % 16 == j % 16
  {
    HexDigitInjective(i / 0x1000, j / 0x1000);
    HexDigitInjective(i / 0x100 % 0x10, j / 0x100 % 0x10);
    HexDigitInjective(i / 0x10 % 0x10, j / 0x10 % 0x10);
    HexDigitInjective(i % 0x10, j % 0x10);
  }

  lemma PrefixByDigits(x: string, y: string, k: nat)
    requires |x| == |y| == 4 && k <= 4
    ensures x[..k] <= y <==>
      && (k >= 1 ==> x[0] == y[0]) && (k >= 2 ==> x[1] == y[1])
      && (k >= 3 ==> x[2] == y[2]) && (k >= 4 ==> x[3] == y[3])
  {
    if x[..k] <= y {
      assert forall n :: 0 <= n < k ==> x[..k][n] == y[n];
    }
  }

  lemma HexPrefix(k: nat, i: UInt16, j: UInt16)
    requires k <= 4
    ensures Hex4(i)[..k] <= Hex4(j) <==> i / BlockSize(k) == j / BlockSize(k)
  {
    var x, y := Hex4(i), Hex4(j);
    DigitsEqual(i, j);
    PrefixByDigits(x, y, k);
    BlocksByDigits(i, j);
  }

  /** What a subscriber passes to ZMQ_SUBSCRIBE to follow a block of ids. */
  function Subscription(version: string, c: Class, d: Direction, i: UInt16, k: nat): string
    requires k <= 4
  {
    Head(version) + (ClassPart(c) + (DirectionPart(d) + Hex4(i)[..k]))
  }

  /** A subscription that ends after `k` digits selects one aligned block of ids of its class and direction. */
  lemma SubscriptionSelectsBlock(version: string, c: Class, d: Direction, i: UInt16, k: nat,
                                 e: Class, f: Direction, j: UInt16)
    requires k <= 4
    ensures Subscription(version, c, d, i, k) <= Topic(version, e, f, j)
       <==> c == e && d == f && i / BlockSize(k) == j / BlockSize(k)
  {
    var x, y := Hex4(i)[..k], Hex4(j);
    CommonPrefix(Head(version), ClassPart(c) + (DirectionPart(d) + x), ClassPart(e) + (DirectionPart(f) + y));
    if ClassPart(c) + (DirectionPart(d) + x) <= ClassPart(e) + (DirectionPart(f) + y) {
      ClassesDiffer(c, DirectionPart(d) + x, e, DirectionPart(f) + y);
    }
    if c == e {
      CommonPrefix(ClassPart(c), DirectionPart(d) + x, DirectionPart(f) + y);
      if DirectionPart(d) + x <= DirectionPart(f) + y {
        DirectionsDiffer(d, x, f, y);
      }
      if d == f {
        CommonPrefix(DirectionPart(d), x, y);
        HexPrefix(k, i, j);
      }
    }
  }

  /** No topic is a prefix of another one. */
  lemma TopicsArePrefixFree(version: string, c: Class, d: Direction, i: UInt16, e: Class, f: Direction, j: UInt16)
    ensures Topic(version, c, d, i) <= Topic(version, e, f, j) <==> c == e && d == f && i == j
  {
    assert Hex4(i)[..4] == Hex4(i);
    SubscriptionSelectsBlock(version, c, d, i, 4, e, f, j);
  }

  // ---------------------------------------------------------------------------------------------
  // A parser: it reads a topic from the left

  datatype Parsed = Parsed(class_: Class, direction: Direction, id: UInt16)

  function NibbleOf(c: char): Option<Nibble> {
    if '0' <= c <= '9' then Some(c as int - '0' as int)
    else if 'A' <= c <= 'F' then Some(c as int - 'A' as int + 10)
    else None
  }

  lemma NibbleOfHexDigit(x: Nibble, c: char)
    ensures NibbleOf(HexDigit(x)) == Some(x)
    ensures NibbleOf(c).Some? ==> HexDigit(NibbleOf(c).value) == c
  {
  }

  function ParseHex4(s: string): Option<UInt16> {
    if |s| != 4 || exists n :: 0 <= n < 4 && NibbleOf(s[n]).None? then None
    else Some(NibbleOf(s[0]).value * 0x1000 + NibbleOf(s[1]).value * 0x100
              + NibbleOf(s[2]).value * 0x10 + NibbleOf(s[3]).value)
  }

  function ParseTopic(version: string, s: string): Option<Parsed> {
    if !(Head(version) <= s) then None else ParseClass(s[|Head(version)|..])
  }

  function ParseClass(s: string): Option<Parsed> {
    if ClassPart(WorldClass) <= s then ParseDirection(WorldClass, s[|ClassPart(WorldClass)|..])
    else if ClassPart(LobbyClass) <= s then ParseDirection(LobbyClass, s[|ClassPart(LobbyClass)|..])
    else if ClassPart(PatchClass) <= s then ParseDirection(PatchClass, s[|ClassPart(PatchClass)|..])
    else if ClassPart(UnknownClass) <= s then ParseDirection(UnknownClass, s[|ClassPart(UnknownClass)|..])
    else None
  }

  function ParseDirection(c: Class, s: string): Option<Parsed> {
    if DirectionPart(Incoming) <= s then ParseId(c, Incoming, s[|DirectionPart(Incoming)|..])
    else if DirectionPart(Outgoing) <= s then ParseId(c, Outgoing, s[|DirectionPart(Outgoing)|..])
    else None
  }

  function ParseId(c: Class, d: Direction, s: string): Option<Parsed> {
    match ParseHex4(s)
    case Some(id) => Some(Parsed(c, d, id))
    case None => None
  }

  lemma ParseHex4Inverse(s: string, id: UInt16)
    ensures ParseHex4(s) == Some(id) <==> s == Hex4(id)
  {
    if s == Hex4(id) {
      NibbleOfHexDigit(id / 0x1000, s[0]);
      NibbleOfHexDigit(id / 0x100 % 0x10, s[1]);
      NibbleOfHexDigit(id / 0x10 % 0x10, s[2]);
      NibbleOfHexDigit(id % 0x10, s[3]);
      HexSum(id);
    }
    if ParseHex4(s) == Some(id) {
      var a, b, c, d := NibbleOf(s[0]).value, NibbleOf(s[1]).value, NibbleOf(s[2]).value, NibbleOf(s[3]).value;
      HexParts(a, b, c, d);
      NibbleOfHexDigit(a, s[0]);
      NibbleOfHexDigit(b, s[1]);
      NibbleOfHexDigit(c, s[2]);
      NibbleOfHexDigit(d, s[3]);
      assert s == [s[0], s[1], s[2], s[3]];
    }
  }

  lemma HexSum(id: UInt16)
    ensures id / 0x1000 * 0x1000 + id / 0x100 % 0x10 * 0x100 + id / 0x10 % 0x10 * 0x10 + id % 0x10 == id
  {
    assert id / 0x10 / 0x10 == id / 0x100 && id / 0x100 / 0x10 == id / 0x1000;
  }

  lemma HexParts(a: Nibble, b: Nibble, c: Nibble, d: Nibble)
    ensures var id := a * 0x1000 + b * 0x100 + c * 0x10 + d;
            id / 0x1000 == a && id / 0x100 % 0x10 == b && id / 0x10 % 0x10 == c && id % 0x10 == d
  {
    Split16(a * 0x100 + b * 0x10 + c, d);
    Split16(a * 0x10 + b, c);
    Split16(a, b);
  }

  lemma StripPart(p: string, s: string)
    ensures p <= s ==> s == p + s[|p|..]
    ensures forall x :: s == p + x ==> p <= s && s[|p|..] == x
  {
  }

  lemma ParseDirectionInverse(c: Class, s: string, r: Parsed)
    ensures ParseDirection(c, s) == Some(r)
       <==> r.class_ == c && s == DirectionPart(r.direction) + Hex4(r.id)
  {
    StripPart(DirectionPart(Incoming), s);
    StripPart(DirectionPart(Outgoing), s);
    assert DirectionPart(Incoming)[0] != DirectionPart(Outgoing)[0];
    if s == DirectionPart(r.direction) + Hex4(r.id) {
      ParseHex4Inverse(Hex4(r.id), r.id);
    }
    if DirectionPart(Incoming) <= s {
      ParseHex4Inverse(s[|DirectionPart(Incoming)|..], r.id);
    } else if DirectionPart(Outgoing) <= s {
      ParseHex4Inverse(s[|DirectionPart(Outgoing)|..], r.id);
    }
  }

  lemma ParseClassInverse(s: string, r: Parsed)
    ensures ParseClass(s) == Some(r)
       <==> s == ClassPart(r.class_) + (DirectionPart(r.direction) + Hex4(r.id))
  {
    forall c: Class
      ensures ClassPart(c) <= s ==> s == ClassPart(c) + s[|ClassPart(c)|..] && s[0] == ClassPart(c)[0]
    {
      StripPart(ClassPart(c), s);
    }
    StripPart(ClassPart(r.class_), s);
    assert ClassPart(WorldClass)[0] == 'w' && ClassPart(LobbyClass)[0] == 'l';
    assert ClassPart(PatchClass)[0] == 'p' && ClassPart(UnknownClass)[0] == 'u';
    forall c: Class | ClassPart(c) <= s
      ensures ParseClass(s) == ParseDirection(c, s[|ClassPart(c)|..])
      ensures ParseDirection(c, s[|ClassPart(c)|..]) == Some(r)
         <==> r.class_ == c && s[|ClassPart(c)|..] == DirectionPart(r.direction) + Hex4(r.id)
    {
      ParseDirectionInverse(c, s[|ClassPart(c)|..], r);
    }
  }

  /** The parser accepts exactly the topics, and recovers class, direction and id. */
  lemma ParseTopicInverse(version: string, s: string, r: Parsed)
    ensures ParseTopic(version, s) == Some(r) <==> s == Topic(version, r.class_, r.direction, r.id)
  {
    StripPart(Head(version), s);
    if Head(version) <= s {
      ParseClassInverse(s[|Head(version)|..], r);
    }
  }
}
