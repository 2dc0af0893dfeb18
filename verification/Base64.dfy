/**
  src/zmq_relay.cpp:32-51: the encoder, its specification (RFC 4648, section 4) and a strict decoder.
  Both are stated on symbols, the numbers 0 to 64, and rendered as characters afterwards.
 */
module Base64 {
  import opened Sequences
  import opened Words

  // ---------------------------------------------------------------------------------------------
  // The alphabet (RFC 4648, section 4, table 1)

  type Sextet = x: int | 0 <= x < 64
  type Symbol = x: int | 0 <= x <= 64

  const PAD: Symbol := 64

  function Glyph(i: Symbol): char {
    if i < 26 then 'A' + i as char
    else if i < 52 then 'a' + (i - 26) as char
    else if i < 62 then '0' + (i - 52) as char
    else if i == 62 then '+'
    else if i == 63 then '/'
    else '='
  }

  function SymbolOf(c: char): Option<Symbol> {
    if 'A' <= c <= 'Z' then Some(c as int - 'A' as int)
    else if 'a' <= c <= 'z' then Some(c as int - 'a' as int + 26)
    else if '0' <= c <= '9' then Some(c as int - '0' as int + 52)
    else if c == '+' then Some(62)
    else if c == '/' then Some(63)
    else if c == '=' then Some(PAD)
    else None
  }

  lemma SymbolOfGlyph(i: Symbol)
    ensures SymbolOf(Glyph(i)) == Some(i)
  {
  }

  lemma GlyphOfSymbol(c: char)
    ensures SymbolOf(c).Some? ==> Glyph(SymbolOf(c).value) == c
  {
  }

  /** Table 1 of the standard, and the padding. */
  lemma Alphabet(i: Symbol)
    ensures 0 <= i < 26 ==> Glyph(i) == "ABCDEFGHIJKLMNOPQRSTUVWXYZ"[i]
    ensures 26 <= i < 52 ==> Glyph(i) == "abcdefghijklmnopqrstuvwxyz"[i - 26]
    ensures 52 <= i <= 64 ==> Glyph(i) == "0123456789+/="[i - 52]
  {
  }

  function Render(x: seq<Symbol>): string {
    seq(|x|, i requires 0 <= i < |x| => Glyph(x[i]))
  }

  lemma RenderSnoc(x: seq<Symbol>, i: Symbol)
    ensures Render(x + [i]) == Render(x) + [Glyph(i)]
  {
  }

  /** The encoder's table, in the three pieces it is made of. */
  const UPPER: string := "ABCDEFGHIJKLMNOPQRSTUVWXYZ"
  const LOWER: string := "abcdefghijklmnopqrstuvwxyz"
  const DIGITS_AND_SIGNS: string := "0123456789+/"
  const CHARS: string := UPPER + LOWER + DIGITS_AND_SIGNS

  lemma UpperGlyphs(i: Sextet)
    ensures |UPPER| == 26 && (i < 26 ==> UPPER[i] == Glyph(i))
  {
  }

  lemma LowerGlyphs(i: Sextet)
    ensures |LOWER| == 26 && (26 <= i < 52 ==> LOWER[i - 26] == Glyph(i))
  {
  }

  /** `chars[i]` is the character the standard's table gives for `i`. */
  method Lookup(i: Sextet) returns (c: char)
    ensures c == Glyph(i)
  {
    UpperGlyphs(i);
    LowerGlyphs(i);
    assert |DIGITS_AND_SIGNS| == 12 && (52 <= i ==> DIGITS_AND_SIGNS[i - 52] == Glyph(i));
    c := CHARS[i];
  }

  // ---------------------------------------------------------------------------------------------
  // The specification: RFC 4648, section 4, one 24-bit group at a time

  function Symbols(b: seq<Byte>): seq<Symbol> {
    if |b| == 0 then []
    else if |b| == 1 then [b[0] / 4, b[0] % 4 * 16, PAD, PAD]
    else if |b| == 2 then [b[0] / 4, b[0] % 4 * 16 + b[1] / 16, b[1] % 16 * 4, PAD]
    else Group(b[0], b[1], b[2]) + Symbols(b[3..])
  }

  function Group(x: Byte, y: Byte, z: Byte): seq<Symbol> {
    [x / 4, x % 4 * 16 + y / 16, y % 16 * 4 + z / 64, z % 64]
  }

  /** A group is one 24-bit number, written in base 256 and in base 64, the most significant digit first. */
  lemma GroupIsOneNumber(x: Byte, y: Byte, z: Byte)
    ensures var g := Group(x, y, z);
      0x4_0000 * g[0] as int + 0x1000 * g[1] as int + 0x40 * g[2] as int + g[3] as int
      == 0x1_0000 * x as int + 0x100 * y as int + z as int
  {
  }

  function Encode(b: seq<Byte>): string {
    Render(Symbols(b))
  }

  lemma {:induction false} SymbolsLength(b: seq<Byte>)
    ensures |Symbols(b)| == (|b| + 2) / 3 * 4
    decreases |b|
  {
    if |b| > 2 {
      SymbolsLength(b[3..]);
    }
  }

  lemma {:induction false} SymbolsConcat(a: seq<Byte>, b: seq<Byte>)
    requires |a| % 3 == 0
    ensures Symbols(a + b) == Symbols(a) + Symbols(b)
    decreases |a|
  {
    if a == [] {
      assert a + b == b;
    } else {
      SymbolsConcat(a[3..], b);
      assert (a + b)[3..] == a[3..] + b;
    }
  }

  lemma EncodeLength(b: seq<Byte>)
    ensures |Encode(b)| == (|b| + 2) / 3 * 4
  {
    SymbolsLength(b);
  }

  /** The longest of the test vectors in RFC 4648, section 10, and the shorter ones it begins with. */
  lemma StandardVectors(f: Byte, o: Byte, b: Byte, a: Byte, r: Byte)
    requires f == 'f' as int && o == 'o' as int && b == 'b' as int && a == 'a' as int && r == 'r' as int
    ensures Encode([]) == "" && Encode([f]) == "Zg==" && Encode([f, o]) == "Zm8="
    ensures Encode([f, o, o]) == "Zm9v" && Encode([f, o, o, b, a, r]) == "Zm9vYmFy"
  {
    assert Symbols([f]) == [25, 32, PAD, PAD] && Symbols([f, o]) == [25, 38, 60, PAD];
    RenderFour(25, 32, PAD, PAD);
    RenderFour(25, 38, 60, PAD);
    RenderFour(25, 38, 61, 47);
    RenderFour(24, 38, 5, 50);
    EncodeOneGroup(f, o, o);
    EncodeOneGroup(b, a, r);
    EncodeConcat([f, o, o], [b, a, r]);
    assert [f, o, o] + [b, a, r] == [f, o, o, b, a, r];
  }

  lemma RenderFour(p: Symbol, q: Symbol, r: Symbol, s: Symbol)
    ensures Render([p, q, r, s]) == [Glyph(p), Glyph(q), Glyph(r), Glyph(s)]
  {
  }

  lemma EncodeOneGroup(x: Byte, y: Byte, z: Byte)
    ensures Encode([x, y, z]) == Render(Group(x, y, z))
  {
    var b: seq<Byte> := [x, y, z];
    assert b[3..] == [] && Symbols(b) == Group(x, y, z) + Symbols(b[3..]);
    assert Symbols(b) == Group(x, y, z);
  }

  /** Whole groups are encoded independently of what follows. */
  lemma EncodeConcat(a: seq<Byte>, b: seq<Byte>)
    requires |a| % 3 == 0
    ensures Encode(a + b) == Encode(a) + Encode(b)
  {
    SymbolsConcat(a, b);
  }

  // ---------------------------------------------------------------------------------------------
  // The encoder: a signed 32-bit accumulator that is never masked

  /** `v << 8` on a signed 32-bit value. */
  function ShiftLeft8(v: Int32): Int32 {
    Wrap32(v * 0x100)
  }

  /** `v >> k`: an arithmetic shift, one bit at a time. */
  function ShiftRight(v: Int32, k: nat): Int32
    decreases k
  {
    if k == 0 then v else ShiftRight(v / 2, k - 1)
  }

  /** `(v >> k) & 0x3F`: the low six bits of the two's complement. */
  function SextetAt(v: Int32, k: nat): Sextet {
    ShiftRight(v, k) % 64
  }

  lemma ShiftsUsed(v: Int32)
    ensures ShiftRight(v, 2) == v / 4 && ShiftRight(v, 4) == v / 16 && ShiftRight(v, 6) == v / 64
  {
    ShiftByTwo(v, 0);
    ShiftByTwo(v, 2);
    ShiftByTwo(v, 4);
    ShiftByTwo(v / 4, 0);
    ShiftByTwo(v / 4, 2);
    ShiftByTwo(v / 16, 0);
    Split16(v / 64, v / 4 % 16);
  }

  lemma ShiftByTwo(v: Int32, k: nat)
    ensures ShiftRight(v, k + 2) == ShiftRight(v / 4, k)
  {
    assert v / 2 / 2 == v / 4;
    assert ShiftRight(v, k + 2) == ShiftRight(v / 2, k + 1);
  }

  /** The low eight bits after the shift are zero, so adding a byte cannot overflow. */
  lemma AddCannotOverflow(v: Int32, c: Byte)
    ensures -0x8000_0000 <= ShiftLeft8(v) + c < 0x8000_0000
    ensures (ShiftLeft8(v) + c) % 0x100 == c
    ensures (ShiftLeft8(v) - 0x100 * v) % 0x1_0000_0000 == 0
  {
    var q := (v * 0x100 + 0x8000_0000) / 0x1_0000_0000;
    assert ShiftLeft8(v) == 0x100 * (v - q * 0x100_0000);
  }

  lemma LowBits(v: Int32)
    ensures v % 4 == v % 0x100 % 4 && v % 16 == v % 0x100 % 16
  {
    Split4(v / 0x100 * 64 + v % 0x100 / 4, v % 0x100 % 4);
    Split16(v / 0x100 * 16 + v % 0x100 / 16, v % 0x100 % 16);
  }

  /** Only the bits of the last two bytes reach the sextets; the wrap never does. */
  lemma LiveBits(v: Int32, c: Byte)
    requires -0x8000_0000 <= ShiftLeft8(v) + c < 0x8000_0000
    ensures SextetAt(ShiftLeft8(v) + c, 0) == c % 64
    ensures SextetAt(ShiftLeft8(v) + c, 2) == c / 4
    ensures SextetAt(ShiftLeft8(v) + c, 4) == v % 4 * 16 + c / 16
    ensures SextetAt(ShiftLeft8(v) + c, 6) == v % 16 * 4 + c / 64
  {
    var q := (v * 0x100 + 0x8000_0000) / 0x1_0000_0000;
    var x := v - q * 0x100_0000;
    assert ShiftLeft8(v) + c == 0x100 * x + c;
    ShiftsUsed(ShiftLeft8(v) + c);
    SextetsOfSum(x, c);
    Split4(v / 4 - q * 0x40_0000, v % 4);
    Split16(v / 16 - q * 0x10_0000, v % 16);
  }

  lemma SextetsOfSum(x: int, c: Byte)
    ensures (0x100 * x + c) % 64 == c % 64
    ensures (0x100 * x + c) / 4 % 64 == c / 4
    ensures (0x100 * x + c) / 16 % 64 == x % 4 * 16 + c / 16
    ensures (0x100 * x + c) / 64 % 64 == x % 16 * 4 + c / 64
  {
    Split4(64 * x + c / 4, c % 4);
    Split64(x, c / 4);
    Split16(16 * x + c / 16, c % 16);
    Split64(x / 4, x % 4 * 16 + c / 16);
    Split64(4 * x + c / 64, c % 64);
    Split64(x / 16, x % 16 * 4 + c / 64);
  }

  /** The sextets that are complete once the bytes `tail` of an unfinished group are known. */
  function Complete(tail: seq<Byte>): seq<Symbol>
    requires |tail| < 3
  {
    if |tail| == 0 then []
    else if |tail| == 1 then [tail[0] / 4]
    else [tail[0] / 4, tail[0] % 4 * 16 + tail[1] / 16]
  }

  /** The sextets that become complete when the byte `c` follows `tail`. */
  function Completed(tail: seq<Byte>, c: Byte): seq<Symbol>
    requires |tail| < 3
  {
    if |tail| == 0 then [c / 4]
    else if |tail| == 1 then [tail[0] % 4 * 16 + c / 16]
    else [tail[1] % 16 * 4 + c / 64, c % 64]
  }

  /** The started sextet and the padding of an unfinished group. */
  function Closing(tail: seq<Byte>): seq<Symbol>
    requires |tail| < 3
  {
    if |tail| == 0 then []
    else if |tail| == 1 then [tail[0] % 4 * 16, PAD, PAD]
    else [tail[1] % 16 * 4, PAD]
  }

  /** One turn of the loop: the sextets it emits are those the byte `c` completes. */
  lemma TurnSextets(v: Int32, tail: seq<Byte>, c: Byte)
    requires |tail| < 3 && (tail != [] ==> v % 0x100 == Last(tail))
    ensures -0x8000_0000 <= ShiftLeft8(v) + c < 0x8000_0000
    ensures (ShiftLeft8(v) + c) % 0x100 == c
    ensures |Completed(tail, c)| == if |tail| < 2 then 1 else 2
    ensures Completed(tail, c)[0] == SextetAt(ShiftLeft8(v) + c, 2 + 2 * |tail|)
    ensures |tail| == 2 ==> Completed(tail, c)[1] == SextetAt(ShiftLeft8(v) + c, 0)
  {
    AddCannotOverflow(v, c);
    LowBits(v);
    LiveBits(v, c);
  }

  /** After the loop: the started sextet, filled up with zero bits. */
  lemma LastSextet(v: Int32, tail: seq<Byte>)
    requires 0 < |tail| < 3 && v % 0x100 == Last(tail)
    ensures SextetAt(ShiftLeft8(v), 2 + 2 * |tail|) == Closing(tail)[0]
  {
    AddCannotOverflow(v, 0);
    LowBits(v);
    LiveBits(v, 0);
  }

  /** The symbols emitted once the bytes `whole + tail` are consumed. */
  function Progress(whole: seq<Byte>, tail: seq<Byte>): seq<Symbol>
    requires |whole| % 3 == 0 && |tail| < 3
  {
    Symbols(whole) + Complete(tail)
  }

  lemma NextProgress(whole: seq<Byte>, tail: seq<Byte>, c: Byte) returns (w: seq<Byte>, t: seq<Byte>)
    requires |whole| % 3 == 0 && |tail| < 3
    ensures w + t == whole + tail + [c] && |w| % 3 == 0
    ensures |t| == (if |tail| < 2 then |tail| + 1 else 0) && (t != [] ==> Last(t) == c)
    ensures Progress(w, t) == Progress(whole, tail) + Completed(tail, c)
  {
    if |tail| < 2 {
      w, t := whole, tail + [c];
    } else {
      w, t := whole + tail + [c], [];
      var group := tail + [c];
      assert w == whole + group;
      SymbolsConcat(whole, group);
      assert Symbols(group) == Group(group[0], group[1], group[2]) + Symbols(group[3..]);
    }
  }

  lemma TailSymbols(tail: seq<Byte>)
    requires |tail| < 3
    ensures Symbols(tail) == Complete(tail) + Closing(tail)
  {
    if |tail| == 1 {
      TailOfOne(tail, tail[0] / 4, tail[0] % 4 * 16);
    } else if |tail| == 2 {
      TailOfTwo(tail, tail[0] / 4, tail[0] % 4 * 16 + tail[1] / 16, tail[1] % 16 * 4);
    }
  }

  lemma TailOfOne(tail: seq<Byte>, p: Symbol, q: Symbol)
    requires |tail| == 1 && p == tail[0] / 4 && q == tail[0] % 4 * 16
    ensures Symbols(tail) == Complete(tail) + Closing(tail)
  {
    CutFour(p, q, PAD, PAD);
    assert Symbols(tail) == [p, q, PAD, PAD] && Complete(tail) == [p] && Closing(tail) == [q, PAD, PAD];
  }

  lemma TailOfTwo(tail: seq<Byte>, p: Symbol, q: Symbol, r: Symbol)
    requires |tail| == 2 && p == tail[0] / 4 && q == tail[0] % 4 * 16 + tail[1] / 16 && r == tail[1] % 16 * 4
    ensures Symbols(tail) == Complete(tail) + Closing(tail)
  {
    CutFour(p, q, r, PAD);
    assert Symbols(tail) == [p, q, r, PAD] && Complete(tail) == [p, q] && Closing(tail) == [r, PAD];
  }

  lemma CutFour(p: Symbol, q: Symbol, r: Symbol, s: Symbol)
    ensures [p, q, r, s] == [p] + [q, r, s] == [p, q] + [r, s]
  {
  }

  lemma CompleteThenClosing(whole: seq<Byte>, tail: seq<Byte>)
    requires |whole| % 3 == 0 && |tail| < 3
    ensures Symbols(whole + tail) == Progress(whole, tail) + Closing(tail)
  {
    SymbolsConcat(whole, tail);
    TailSymbols(tail);
  }

  /** The last loop: fill up to a multiple of four characters. */
  method Pad(unpadded: string, ghost x: seq<Symbol>, ghost padding: seq<Symbol>, ghost groups: nat)
    returns (result: string)
    requires unpadded == Render(x) && |x| + |padding| == 4 * groups
    requires |padding| <= 2 && forall i :: 0 <= i < |padding| ==> padding[i] == PAD
    ensures result == Render(x + padding)
  {
    result := unpadded;
    ghost var k := 0;
    while |result| % 4 != 0
      invariant 0 <= k <= |padding| && result == Render(x + padding[..k])
      decreases |padding| - k
    {
      Split4(groups, 0);
      RenderSnoc(x + padding[..k], PAD);
      assert x + padding[..k + 1] == x + padding[..k] + [PAD];
      k := k + 1;
      result := result + ['='];
    }
    Split4(groups - 1, if k == |padding| then 0 else 4 - (|padding| - k));
    assert padding[..k] == padding;
  }

  /** The inner loop: emit the sextets that the newest byte completes. */
  method EmitComplete(val: Int32, bits: int, ghost x: seq<Symbol>, ghost done: seq<Symbol>, emitted: string)
    returns (result: string, valb: int)
    requires emitted == Render(x) && 0 <= bits + 6 - 6 * |done| < 6
    requires forall k :: 0 <= k < |done| ==> done[k] == SextetAt(val, bits - 6 * k)
    ensures result == Render(x + done) && valb == bits - 6 * |done|
  {
    result, valb := emitted, bits;
    ghost var k := 0;
    assert x + done[..0] == x;
    while valb >= 0
      invariant 0 <= k <= |done| && valb == bits - 6 * k
      invariant result == Render(x + done[..k])
    {
      var digit := Lookup(SextetAt(val, valb));
      RenderSnoc(x + done[..k], done[k]);
      assert x + done[..k + 1] == x + done[..k] + [done[k]];
      k := k + 1;
      result := result + [digit];
      valb := valb - 6;
    }
    assert done[..k] == done;
  }

  /** After the loop: the open group, if there is one. */
  method Close(val: Int32, valb: int, ghost whole: seq<Byte>, ghost tail: seq<Byte>, emitted: string)
    returns (result: string)
    requires |whole| % 3 == 0 && |tail| < 3 && valb == -6 + 2 * |tail|
    requires tail != [] ==> val % 0x100 == Last(tail)
    requires emitted == Render(Progress(whole, tail))
    ensures result == Encode(whole + tail)
  {
    ghost var x: seq<Symbol>, rest: seq<Symbol> := Progress(whole, tail), Closing(tail);
    CompleteThenClosing(whole, tail);
    SymbolsLength(whole + tail);
    result := emitted;
    if valb > -6 {
      LastSextet(val, tail);
      var last := SextetAt(ShiftLeft8(val), valb + 8);
      var digit := Lookup(last);
      RenderSnoc(x, last);
      x, rest := x + [last], rest[1..];
      result := result + [digit];
    }
    result := Pad(result, x, rest, (|whole + tail| + 2) / 3);
  }

  method Base64Encode(data: seq<Byte>) returns (result: string)
    ensures result == Encode(data)
  {
    result := [];
    var val: Int32, valb := 0, -6;
    ghost var whole: seq<Byte>, tail: seq<Byte>, x: seq<Symbol> := [], [], [];
    for i := 0 to |data|
      invariant data[..i] == whole + tail && |whole| % 3 == 0 && |tail| < 3
      invariant valb == -6 + 2 * |tail|
      invariant tail != [] ==> val % 0x100 == Last(tail)
      invariant x == Progress(whole, tail) && result == Render(x)
    {
      var c := data[i];
      TurnSextets(val, tail, c);
      val := ShiftLeft8(val) + c;
      valb := valb + 8;
      result, valb := EmitComplete(val, valb, x, Completed(tail, c), result);
      x := x + Completed(tail, c);
      assert data[..i + 1] == data[..i] + [c];
      whole, tail := NextProgress(whole, tail, c);
    }
    assert data == data[..|data|] == whole + tail;
    result := Close(val, valb, whole, tail, result);
  }

  // ---------------------------------------------------------------------------------------------
  // A strict decoder: RFC 4648, section 4, with zero pad bits as in section 3.5

  function Decode(s: string): Option<seq<Byte>> {
    if forall i :: 0 <= i < |s| ==> SymbolOf(s[i]).Some? then
      DecodeSymbols(seq(|s|, i requires 0 <= i < |s| => SymbolOf(s[i]).value))
    else None
  }

  function DecodeSymbols(x: seq<Symbol>): Option<seq<Byte>> {
    if x == [] then Some([])
    else if |x| < 4 || x[0] == PAD || x[1] == PAD then None
    else if x[2] == PAD then
      if |x| == 4 && x[3] == PAD && x[1] % 16 == 0 then Some([First(x[0], x[1])]) else None
    else if x[3] == PAD then
      if |x| == 4 && x[2] % 4 == 0 then Some([First(x[0], x[1]), Second(x[1], x[2])]) else None
    else if DecodeSymbols(x[4..]).None? then None
    else Some([First(x[0], x[1]), Second(x[1], x[2]), Third(x[2], x[3])] + DecodeSymbols(x[4..]).value)
  }

  function First(p: Sextet, q: Sextet): Byte {
    p * 4 + q / 16
  }

  function Second(q: Sextet, r: Sextet): Byte {
    q % 16 * 16 + r / 4
  }

  function Third(r: Sextet, s: Sextet): Byte {
    r % 4 * 64 + s
  }

  lemma BytesOfGroup(x: Byte, y: Byte, z: Byte)
    ensures First(x / 4, x % 4 * 16 + y / 16) == x
    ensures Second(x % 4 * 16 + y / 16, y % 16 * 4 + z / 64) == y
    ensures Third(y % 16 * 4 + z / 64, z % 64) == z
  {
    Split16(x % 4, y / 16);
    Split4(y % 16, z / 64);
  }

  lemma GroupOfBytes(p: Sextet, q: Sextet, r: Sextet, s: Sextet)
    ensures First(p, q) / 4 == p && First(p, q) % 4 * 16 + Second(q, r) / 16 == q
    ensures Second(q, r) % 16 * 4 + Third(r, s) / 64 == r && Third(r, s) % 64 == s
  {
    Split4(p, q / 16);
    Split16(q % 16, r / 4);
    Split64(r % 4, s);
  }

  lemma DecodeGroup(p: Sextet, q: Sextet, r: Sextet, s: Sextet, rest: seq<Symbol>)
    requires DecodeSymbols(rest).Some?
    ensures DecodeSymbols([p, q, r, s] + rest)
         == Some([First(p, q), Second(q, r), Third(r, s)] + DecodeSymbols(rest).value)
  {
    assert ([p, q, r, s] + rest)[4..] == rest;
  }

  lemma DecodeOne(x: Byte, p: Sextet, q: Sextet)
    requires p == x / 4 && q == x % 4 * 16
    ensures DecodeSymbols([p, q, PAD, PAD]) == Some([x])
  {
    assert q % 16 == 0 by { Split16(x % 4, 0); }
    assert First(p, q) == x by { BytesOfGroup(x, 0, 0); }
  }

  lemma DecodeTwo(x: Byte, y: Byte, p: Sextet, q: Sextet, r: Sextet)
    requires p == x / 4 && q == x % 4 * 16 + y / 16 && r == y % 16 * 4
    ensures DecodeSymbols([p, q, r, PAD]) == Some([x, y])
  {
    assert r % 4 == 0 by { Split4(y % 16, 0); }
    assert First(p, q) == x && Second(q, r) == y by { BytesOfGroup(x, y, 0); }
  }

  /** A whole group in front decodes to its three bytes. */
  lemma DecodeThree(x: Byte, y: Byte, z: Byte, rest: seq<Symbol>)
    requires DecodeSymbols(rest).Some?
    ensures DecodeSymbols(Group(x, y, z) + rest) == Some([x, y, z] + DecodeSymbols(rest).value)
  {
    var g := Group(x, y, z);
    BytesOfGroup(x, y, z);
    DecodeGroup(g[0], g[1], g[2], g[3], rest);
    assert g == [g[0], g[1], g[2], g[3]];
  }

  lemma {:induction false} DecodeSymbolsOf(b: seq<Byte>)
    ensures DecodeSymbols(Symbols(b)) == Some(b)
    decreases |b|
  {
    if |b| == 1 {
      DecodeOne(b[0], b[0] / 4, b[0] % 4 * 16);
      assert b == [b[0]];
    } else if |b| == 2 {
      DecodeTwo(b[0], b[1], b[0] / 4, b[0] % 4 * 16 + b[1] / 16, b[1] % 16 * 4);
      assert b == [b[0], b[1]];
    } else if |b| > 2 {
      DecodeSymbolsOf(b[3..]);
      DecodeThree(b[0], b[1], b[2], Symbols(b[3..]));
      assert b == [b[0], b[1], b[2]] + b[3..];
    }
  }

  lemma {:induction false} SymbolsOfDecoded(x: seq<Symbol>)
    requires DecodeSymbols(x).Some?
    ensures Symbols(DecodeSymbols(x).value) == x
    decreases |x|
  {
    if x != [] {
      if x[2] == PAD {
        GroupOfBytes(x[0], x[1], 0, 0);
        assert x == [x[0], x[1], PAD, PAD];
      } else if x[3] == PAD {
        GroupOfBytes(x[0], x[1], x[2], 0);
        assert x == [x[0], x[1], x[2], PAD];
      } else {
        GroupOfBytes(x[0], x[1], x[2], x[3]);
        SymbolsOfDecoded(x[4..]);
        assert DecodeSymbols(x).value[3..] == DecodeSymbols(x[4..]).value;
        assert x == [x[0], x[1], x[2], x[3]] + x[4..];
      }
    }
  }

  lemma DecodeEncode(b: seq<Byte>)
    ensures Decode(Encode(b)) == Some(b)
  {
    var x := Symbols(b);
    var s := Render(x);
    forall i | 0 <= i < |x| ensures SymbolOf(s[i]) == Some(x[i]) {
      SymbolOfGlyph(x[i]);
    }
    assert x == seq(|s|, i requires 0 <= i < |s| => SymbolOf(s[i]).value);
    DecodeSymbolsOf(b);
  }

  lemma EncodeDecode(s: string)
    requires Decode(s).Some?
    ensures Encode(Decode(s).value) == s
  {
    var x := seq(|s|, i requires 0 <= i < |s| => SymbolOf(s[i]).value);
    SymbolsOfDecoded(x);
    forall i | 0 <= i < |s| ensures Render(x)[i] == s[i] {
      GlyphOfSymbol(s[i]);
    }
  }

  /** The canonical strings, by position: padding only at the very end, and the pad bits are zero. */
  predicate CanonicalSymbols(x: seq<Symbol>) {
    && |x| % 4 == 0
    && (forall i :: 0 <= i < |x| - 2 ==> x[i] != PAD)
    && (x != [] ==>
          var y, z := x[|x| - 2], x[|x| - 1];
          || (y != PAD && z != PAD)
          || (y != PAD && y % 4 == 0 && z == PAD)
          || (y == PAD && z == PAD && x[|x| - 3] % 16 == 0))
  }

  predicate Canonical(s: string) {
    && (forall i :: 0 <= i < |s| ==> SymbolOf(s[i]).Some?)
    && CanonicalSymbols(seq(|s|, i requires 0 <= i < |s| => SymbolOf(s[i]).value))
  }

  lemma {:induction false} DecodesIffCanonicalSymbols(x: seq<Symbol>)
    ensures DecodeSymbols(x).Some? <==> CanonicalSymbols(x)
    decreases |x|
  {
    if |x| >= 4 {
      var y := x[4..];
      DecodesIffCanonicalSymbols(y);
      assert |x| % 4 == |y| % 4;
      if |x| > 4 && |x| % 4 == 0 {
        assert forall i :: 4 <= i < |x| ==> x[i] == y[i - 4];
        assert |x| >= 8;
        assert CanonicalSymbols(x) <==> CanonicalSymbols(y) && forall i :: 0 <= i < 4 ==> x[i] != PAD;
      }
    }
  }

  /** The decoder accepts exactly the canonical strings, so encoding is a bijection onto them. */
  lemma DecodesIffCanonical(s: string)
    ensures Decode(s).Some? <==> Canonical(s)
  {
    if forall i :: 0 <= i < |s| ==> SymbolOf(s[i]).Some? {
      DecodesIffCanonicalSymbols(seq(|s|, i requires 0 <= i < |s| => SymbolOf(s[i]).value));
    }
  }
}
