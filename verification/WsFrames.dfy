/** WebSocket frames between a client and this server: sections 5.2 and 5.3 of RFC 6455. */
module WsFrames {
  import opened Common
  import opened Bytes

  const CONTINUATION: byte := 0
  const TEXT: byte := 1
  const BINARY: byte := 2
  const CLOSE: byte := 8
  const PING: byte := 9
  const PONG: byte := 10
  const MAX_INT64: nat := 0x7fff_ffff_ffff_ffff

  function U64(v: nat): (b: bytes)
    requires v < 0x1_0000_0000_0000_0000
    ensures |b| == 8
  {
    U32(v / 0x1_0000_0000) + U32(v % 0x1_0000_0000)
  }

  function GetU64(b: bytes): (v: nat)
    requires |b| >= 8
    ensures v < 0x1_0000_0000_0000_0000
  {
    GetU32(b) * 0x1_0000_0000 + GetU32(b[4..])
  }

  lemma U64RoundTrip(v: nat, rest: bytes)
    requires v < 0x1_0000_0000_0000_0000
    ensures GetU64(U64(v) + rest) == v && (U64(v) + rest)[8..] == rest
  {
    var tail := U32(v % 0x1_0000_0000) + rest;
    assert U64(v) + rest == U32(v / 0x1_0000_0000) + tail;
    U32RoundTrip(v / 0x1_0000_0000, tail);
    U32RoundTrip(v % 0x1_0000_0000, rest);
  }

  lemma Digits64(b: bytes)
    requires |b| == 8
    ensures BigEndian(b) == GetU64(b)
  {
    hide GetU32;
    var high, low := b[..4], b[4..];
    assert b == high + low[..2] + low[2..] && low == low[..2] + low[2..];
    Digits32(high);
    Digits32(low);
    DigitsAppend(high, low[..2]);
    DigitsAppend(high + low[..2], low[2..]);
    DigitsAppend(low[..2], low[2..]);
    assert GetU32(b) == GetU32(high) by { FirstFour(b); }
  }

  lemma FirstFour(b: bytes)
    requires |b| >= 4
    ensures GetU32(b) == GetU32(b[..4])
  {
  }

  lemma U64Back(b: bytes)
    requires |b| >= 8
    ensures U64(GetU64(b)) == b[..8]
  {
    hide U32, GetU32;
    U32Back(b);
    U32Back(b[4..]);
    assert b[..8] == b[..4] + b[4..][..4];
  }

  // --- masking ---

  function XorBits(a: nat, b: nat, n: nat): (x: nat)
    ensures x < Pow2(n)
  {
    if n == 0 then 0 else (a % 2 + b % 2) % 2 + 2 * XorBits(a / 2, b / 2, n - 1)
  }

  function Xor(a: byte, b: byte): (x: byte) {
    assert Pow2(8) == 256 by { TwoToTheEighth(); }
    XorBits(a, b, 8)
  }

  lemma TwoToTheEighth()
    ensures Pow2(8) == 256
  {
    assert Pow2(4) == 16;
    Pow2Add(4, 4);
  }

  lemma BitAndRest(bit: nat, rest: nat)
    requires bit < 2
    ensures (bit + 2 * rest) % 2 == bit && (bit + 2 * rest) / 2 == rest
  {
  }

  lemma BitTwice(a: nat, b: nat)
    ensures ((a % 2 + b % 2) % 2 + b % 2) % 2 == a % 2
  {
  }

  lemma XorBitsStep(a: nat, b: nat, n: nat)
    requires n > 0
    ensures var x := XorBits(a, b, n); x % 2 == (a % 2 + b % 2) % 2 && x / 2 == XorBits(a / 2, b / 2, n - 1)
  {
    BitAndRest((a % 2 + b % 2) % 2, XorBits(a / 2, b / 2, n - 1));
  }

  lemma {:induction false} XorBitsTwice(a: nat, b: nat, n: nat)
    requires a < Pow2(n)
    ensures XorBits(XorBits(a, b, n), b, n) == a
  {
    if n > 0 {
      var x := XorBits(a, b, n);
      XorBitsStep(a, b, n);
      XorBitsStep(x, b, n);
      BitTwice(a, b);
      XorBitsTwice(a / 2, b / 2, n - 1) by { Halved(a, n); }
      Whole(XorBits(x, b, n), a);
    }
  }

  lemma Halved(a: nat, n: nat)
    requires n > 0 && a < Pow2(n)
    ensures a / 2 < Pow2(n - 1)
  {
  }

  /** A number is its last bit and the rest. */
  lemma Whole(a: nat, b: nat)
    requires a % 2 == b % 2 && a / 2 == b / 2
    ensures a == b
  {
  }

  lemma {:induction false} XorBitsAt(a: nat, b: nat, n: nat, k: nat)
    requires k < n
    ensures BitAt(XorBits(a, b, n), k) <==> BitAt(a, k) != BitAt(b, k)
  {
    XorBitsStep(a, b, n);
    if k == 0 {
      assert Pow2(0) == 1;
    } else {
      XorBitsAt(a / 2, b / 2, n - 1, k - 1);
      var p := Pow2(k - 1);
      HalfThenDivide(a, p);
      HalfThenDivide(b, p);
      HalfThenDivide(XorBits(a, b, n), p);
    }
  }

  /** `x` is `a ^ b`: each of its bits is set if and only if exactly one of theirs is. */
  predicate ExclusiveOr(x: byte, a: byte, b: byte) {
    forall k :: 0 <= k < 8 ==> (BitAt(x, k) <==> BitAt(a, k) != BitAt(b, k))
  }

  lemma XorBitwise(a: byte, b: byte)
    ensures ExclusiveOr(Xor(a, b), a, b)
  {
    forall k | 0 <= k < 8
      ensures BitAt(Xor(a, b), k) <==> BitAt(a, k) != BitAt(b, k)
    {
      XorBitsAt(a, b, 8, k);
    }
  }

  /** Masking twice with the same key byte is the identity. */
  lemma XorTwice(a: byte, b: byte)
    ensures Xor(Xor(a, b), b) == a
  {
    TwoToTheEighth();
    XorBitsTwice(a, b, 8);
  }

  type Key = k: bytes | |k| == 4 witness [0, 0, 0, 0]

  /** Mask or unmask `data`, whose first octet is at `pos` in the frame. */
  function Mask(key: Key, pos: nat, data: bytes): (r: bytes)
    ensures |r| == |data|
    decreases |data|
  {
    if data == [] then [] else [Xor(data[0], key[pos % 4])] + Mask(key, pos + 1, data[1..])
  }

  lemma {:induction false} MaskAppend(key: Key, pos: nat, a: bytes, b: bytes)
    ensures Mask(key, pos, a + b) == Mask(key, pos, a) + Mask(key, pos + |a|, b)
    decreases |a|
  {
    hide Xor;
    if a == [] {
      assert a + b == b;
    } else {
      assert (a + b)[0] == a[0] && (a + b)[1..] == a[1..] + b;
      MaskAppend(key, pos + 1, a[1..], b);
      assert Mask(key, pos, a) == [Xor(a[0], key[pos % 4])] + Mask(key, pos + 1, a[1..]);
      assert Mask(key, pos, a + b) == [Xor(a[0], key[pos % 4])] + (Mask(key, pos + 1, a[1..]) + Mask(key, pos + |a|, b));
    }
  }

  lemma {:induction false} MaskTwice(key: Key, pos: nat, data: bytes)
    ensures Mask(key, pos, Mask(key, pos, data)) == data
    decreases |data|
  {
    hide Xor;
    if data != [] {
      var m := Mask(key, pos, data);
      XorTwice(data[0], key[pos % 4]);
      assert m[1..] == Mask(key, pos + 1, data[1..]);
      MaskTwice(key, pos + 1, data[1..]);
    }
  }

  lemma {:induction false} MaskAt(key: Key, pos: nat, data: bytes, i: nat)
    requires i < |data|
    ensures Mask(key, pos, data)[i] == Xor(data[i], key[(pos + i) % 4])
    decreases |data|
  {
    if i > 0 {
      MaskAt(key, pos + 1, data[1..], i - 1);
    }
  }

  /** Masking, octet by octet and bit by bit. */
  lemma MaskOctets(key: Key, pos: nat, data: bytes)
    ensures forall i :: 0 <= i < |data| ==> ExclusiveOr(Mask(key, pos, data)[i], data[i], key[(pos + i) % 4])
  {
    hide Xor, ExclusiveOr, Mask;
    forall i | 0 <= i < |data|
      ensures ExclusiveOr(Mask(key, pos, data)[i], data[i], key[(pos + i) % 4])
    {
      MaskAt(key, pos, data, i);
      XorBitwise(data[i], key[(pos + i) % 4]);
    }
  }

  // --- what the server reads ---

  /** Why reading stops. `Eof` is a clean end, `CutOff` an end inside a read. */
  datatype Violation = ReservedBits | Unmasked | LengthOverflow | FragmentedControl | LongControl | ReservedOpcode
  datatype Error = Eof | CutOff | Protocol(violation: Violation)

  datatype Filled = Filled(taken: bytes, rest: bytes) | Short(error: Error)

  /** `io.ReadFull`. */
  function ReadFull(input: bytes, n: nat): (r: Filled) {
    if |input| >= n then Filled(input[..n], input[n..])
    else if input == [] then Short(Eof)
    else Short(CutOff)
  }

  datatype Header = Header(opcode: byte, length: nat, key: Key, rest: bytes) | BadHeader(error: Error)

  datatype Length = Length(length: nat, rest: bytes) | BadLength(error: Error)

  /** The seven-bit length, or one of its two extensions. */
  function ReadLength(short: nat, input: bytes): (r: Length)
    ensures r.Length? ==> |r.rest| <= |input|
  {
    if short == 126 then
      match ReadFull(input, 2)
      case Short(e) => BadLength(e)
      case Filled(ext, rest) => Length(GetU16(ext), rest)
    else if short == 127 then
      match ReadFull(input, 8)
      case Short(e) => BadLength(e)
      case Filled(ext, rest) => if GetU64(ext) > MAX_INT64 then BadLength(Protocol(LengthOverflow)) else Length(GetU64(ext), rest)
    else Length(short, input)
  }

  function ReadHeader(input: bytes): (h: Header)
    ensures h.Header? ==> |h.rest| < |input|
  {
    match ReadFull(input, 2)
    case Short(e) => BadHeader(e)
    case Filled(h, rest) =>
      if h[0] / 16 % 8 != 0 then BadHeader(Protocol(ReservedBits))
      else if h[1] < 128 then BadHeader(Protocol(Unmasked))
      else match ReadLength(h[1] % 128, rest)
        case BadLength(e) => BadHeader(e)
        case Length(length, rest') =>
          if h[0] % 16 >= 8 && h[0] < 128 then BadHeader(Protocol(FragmentedControl))
          else if h[0] % 16 >= 8 && length > 125 then BadHeader(Protocol(LongControl))
          else match ReadFull(rest', 4)
            case Short(e) => BadHeader(e)
            case Filled(key, rest'') => Header(h[0] % 16, length, key, rest'')
  }

  // --- what the server writes ---

  /** The FIN, unmasked header of a server frame. */
  function ServerHeader(opcode: byte, n: nat): (b: bytes)
    requires opcode < 16 && n <= MAX_INT64
    ensures 2 <= |b| <= 10
  {
    [128 + opcode as int] +
    if n <= 125 then [n]
    else if n <= 0xffff then [126] + U16(n)
    else [127] + U64(n)
  }

  function ServerFrame(opcode: byte, payload: bytes): (b: bytes)
    requires opcode < 16 && |payload| <= MAX_INT64
    ensures |b| >= 2
  {
    ServerHeader(opcode, |payload|) + payload
  }

  function Sendable(code: nat): (b: bool) {
    code >= 1000 && code != 1005 && code != 1006 && code != 1015
  }

  function ClosePayload(code: nat): (b: bytes)
    requires code < 0x1_0000
    ensures |b| <= 2
  {
    if Sendable(code) then U16(code) else []
  }

  function CloseFrame(code: nat): (b: bytes)
    requires code < 0x1_0000
  {
    ServerFrame(CLOSE, ClosePayload(code))
  }

  /** How a client reads a server frame back: section 5.2 of RFC 6455, FIN and unmasked only. */
  datatype Parsed = Parsed(opcode: byte, payload: bytes, rest: bytes) | Unparsed

  function ParseLength(short: nat, input: bytes): (r: Option<(nat, bytes)>) {
    if short == 126 then if |input| >= 2 then Some((GetU16(input), input[2..])) else None
    else if short == 127 then if |input| >= 8 then Some((GetU64(input), input[8..])) else None
    else Some((short, input))
  }

  function ParseServerFrame(input: bytes): (r: Parsed)
    ensures r.Parsed? ==> |r.rest| < |input|
  {
    if |input| < 2 || input[0] < 128 || input[0] / 16 % 8 != 0 || input[1] >= 128 then Unparsed
    else match ParseLength(input[1], input[2..])
      case None => Unparsed
      case Some((length, body)) =>
        if |body| < length then Unparsed else Parsed(input[0] % 16, body[..length], body[length..])
  }

  lemma ServerFrameRoundTrip(opcode: byte, payload: bytes, tail: bytes)
    requires opcode < 16 && |payload| <= MAX_INT64
    ensures ParseServerFrame(ServerFrame(opcode, payload) + tail) == Parsed(opcode, payload, tail)
  {
    hide U64, GetU64, U16, GetU16;
    var n := |payload|;
    var input := ServerFrame(opcode, payload) + tail;
    var body := payload + tail;
    assert body[..n] == payload && body[n..] == tail;
    var ext := ServerHeader(opcode, n)[2..];
    assert input[2..] == ext + body;
    if n <= 125 {
      assert ext == [] && ext + body == body;
    } else if n <= 0xffff {
      assert ext == U16(n);
      U16RoundTrip(n, body);
    } else {
      assert ext == U64(n);
      U64RoundTrip(n, body);
    }
  }
}
