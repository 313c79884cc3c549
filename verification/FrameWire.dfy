/**
 * The octets of every frame as section 4.1 and section 6 of RFC 7540 draw them, in terms of bits
 * and big-endian numbers only; the serializer and the parser are shown to agree with it.
 */
module FrameWire {
  import opened Common
  import opened Bytes
  import opened Frames
  import opened FrameStream

  datatype Reading = Reads(frame: Frame) | Faulty(code: ErrorCode)

  /** A payload without its padding: the first octet counts the octets of padding at the end. */
  function Inner(payload: bytes, padded: bool): (inner: Option<bytes>) {
    if !padded then Some(payload)
    else if payload == [] || payload[0] > |payload| - 1 then None
    else Some(payload[1..|payload| - payload[0]])
  }

  function Dependency(b: bytes): (p: Priority)
    requires |b| == 5
  {
    Priority(BigEndian(b[..4]) % 0x8000_0000, b[4] as int + 1, BitAt(b[0], 7))
  }

  /** The last value given for a setting, in entries of two octets for the number and four for the value. */
  function Setting(payload: bytes, number: nat): (v: Option<nat>)
    requires |payload| % 6 == 0
    decreases |payload|
  {
    if payload == [] then None
    else
      var n := |payload| - 6;
      if BigEndian(payload[n..n + 2]) == number then Some(BigEndian(payload[n + 2..])) else Setting(payload[..n], number)
  }

  function Given(payload: bytes): (s: Settings)
    requires |payload| % 6 == 0
  {
    var push := Setting(payload, 2);
    Settings(Setting(payload, 1), if push.Some? then Some(push.value != 0) else None,
             Setting(payload, 3), Setting(payload, 4), Setting(payload, 5), Setting(payload, 6))
  }

  /** What a payload of a known type is: bit 0 of the flags is END_STREAM or ACK, 2 END_HEADERS, 3 PADDED, 5 PRIORITY. */
  function Means(typeId: byte, flags: byte, id: nat, payload: bytes): (r: Reading)
    requires typeId <= 9
  {
    var inner := Inner(payload, BitAt(flags, 3) && typeId in [0, 1, 5]);
    if inner.None? then Faulty(ProtocolError)
    else
      var body, n := inner.value, |payload|;
      match typeId
      case 0 => Reads(Data(id, body, BitAt(flags, 0)))
      case 1 =>
        var first := if BitAt(flags, 5) then 5 else 0;
        if |body| < first then Faulty(ProtocolError)
        else Reads(Headers(id, body[first..], BitAt(flags, 0), BitAt(flags, 2), if first == 5 then Some(Dependency(body[..5])) else None))
      case 2 => if n != 5 then Faulty(FrameSizeError) else Reads(Prioritize(id, Dependency(payload)))
      case 3 => if n != 4 then Faulty(FrameSizeError) else Reads(RstStream(id, BigEndian(payload)))
      case 4 =>
        if n % 6 != 0 || (BitAt(flags, 0) && n > 0) then Faulty(FrameSizeError)
        else Reads(SettingsFrame(BitAt(flags, 0), Given(payload)))
      case 5 =>
        if |body| < 4 then Faulty(ProtocolError)
        else Reads(PushPromise(id, BigEndian(body[..4]) % 0x8000_0000, body[4..], BitAt(flags, 2)))
      case 6 => if n != 8 then Faulty(FrameSizeError) else Reads(Ping(BitAt(flags, 0), payload))
      case 7 =>
        if n < 8 then Faulty(FrameSizeError)
        else Reads(Goaway(BigEndian(payload[..4]) % 0x8000_0000, BigEndian(payload[4..8]), payload[8..]))
      case 8 => if n != 4 then Faulty(FrameSizeError) else Reads(WindowUpdate(id, BigEndian(payload) % 0x8000_0000))
      case _ => Reads(Continuation(id, payload, BitAt(flags, 2)))
  }

  /**
   * The front of a buffer: a 24-bit length, type, flags and a 31-bit stream id whose top bit is
   * ignored. Of an error only the code is meant.
   */
  function Drawn(buf: bytes, max: nat): (front: Front) {
    if |buf| < 9 then Incomplete
    else
      var n := BigEndian(buf[..3]);
      if n > max then Broken(H2Error(FrameSizeError, FrameTooLarge))
      else if |buf| < 9 + n then Incomplete
      else if buf[3] > 9 then Whole(None, buf[9 + n..])
      else match Means(buf[3], buf[4], BigEndian(buf[5..9]) % 0x8000_0000, buf[9..9 + n])
        case Reads(f) => Whole(Some(f), buf[9 + n..])
        case Faulty(code) => Broken(H2Error(code, FrameTooLarge))
  }

  // --- numbers and bits ---

  lemma Flags(flags: byte)
    ensures Flag(flags, 0x1) == BitAt(flags, 0) && Flag(flags, 0x4) == BitAt(flags, 2)
    ensures Flag(flags, 0x8) == BitAt(flags, 3) && Flag(flags, 0x20) == BitAt(flags, 5)
  {
    assert Pow2(0) == 1 && Pow2(1) == 2 && Pow2(2) == 4 && Pow2(3) == 8 && Pow2(4) == 16 && Pow2(5) == 32;
  }

  lemma Numbers(b: bytes)
    ensures |b| >= 2 ==> GetU16(b) == BigEndian(b[..2])
    ensures |b| >= 3 ==> GetU24(b) == BigEndian(b[..3])
    ensures |b| >= 4 ==> GetU32(b) == BigEndian(b[..4])
  {
    if |b| >= 2 {
      Digits16(b[..2]);
    }
    if |b| >= 3 {
      var high: bytes := b[..1];
      assert high[..0] == [] && BigEndian([]) == 0 && BigEndian(high) == b[0];
      DigitsAppend(high, b[1..3]);
      Digits16(b[1..3]);
      assert b[..3] == high + b[1..3];
    }
    if |b| >= 4 {
      Digits32(b[..4]);
      assert b[..4][2..] == b[2..4];
    }
  }

  /** The exclusive bit is the first of the word. */
  lemma TopBit(b: bytes)
    requires |b| >= 4
    ensures GetU32(b) / U31 == 1 <==> BitAt(b[0], 7)
  {
    assert Pow2(7) == 128 by { assert Pow2(3) == 8; }
  }

  lemma DependencyRead(b: bytes)
    requires |b| >= 5
    ensures ReadPriority(b) == Dependency(b[..5])
  {
    hide GetU32, BitAt, BigEndian;
    Numbers(b);
    TopBit(b);
    assert b[..5][..4] == b[..4];
  }

  // --- settings ---

  /** One more entry at the end is applied last. */
  lemma {:induction false} AppliedLast(s: Settings, payload: bytes, entry: bytes)
    requires |payload| % 6 == 0 && |entry| == 6
    ensures ReadSettings(s, payload + entry) == ApplySetting(ReadSettings(s, payload), GetU16(entry), GetU32(entry[2..]))
    decreases |payload|
  {
    hide ApplySetting, GetU16, GetU32;
    if payload == [] {
      assert payload + entry == entry;
      assert entry[6..] == [];
    } else {
      var s' := ApplySetting(s, GetU16(payload), GetU32(payload[2..]));
      assert (payload + entry)[6..] == payload[6..] + entry;
      AppliedLast(s', payload[6..], entry);
      SameEntry(payload, entry);
    }
  }

  lemma SameEntry(payload: bytes, entry: bytes)
    requires |payload| >= 6
    ensures GetU16(payload + entry) == GetU16(payload) && GetU32((payload + entry)[2..]) == GetU32(payload[2..])
  {
  }

  lemma {:induction false} SettingsRead(payload: bytes)
    requires |payload| % 6 == 0
    ensures ReadSettings(NO_SETTINGS, payload) == Given(payload)
    decreases |payload|
  {
    if payload != [] {
      var n := |payload| - 6;
      var before, entry := payload[..n], payload[n..];
      assert payload == before + entry;
      SettingsRead(before);
      AppliedLast(NO_SETTINGS, before, entry);
      Numbers(entry);
      Numbers(entry[2..]);
      assert entry[..2] == payload[n..n + 2] && entry[2..][..4] == payload[n + 2..];
      hide GetU16, GetU32, BigEndian;
    }
  }

  // --- the parser ---

  /** The parser's answer, the error by its code. */
  predicate Agrees(r: Result<Frame>, m: Reading) {
    match r case Ok(f) => m == Reads(f) case Err(e) => m == Faulty(e.code)
  }

  lemma HeadersRead(flags: byte, id: nat, payload: bytes)
    ensures Agrees(ParseHeaders(flags, id, payload), Means(1, flags, id, payload))
  {
    Flags(flags);
    hide BitAt, Flag, ReadPriority, Dependency;
    var padded := BitAt(flags, 3);
    if Inner(payload, padded).Some? {
      var inner := Inner(payload, padded).value;
      var body := if padded then payload[1..] else payload;
      var p := if padded then payload[0] as int else 0;
      assert body[..|body| - p] == inner && inner[0..] == inner;
      if BitAt(flags, 5) && |inner| >= 5 {
        DependencyRead(body);
        assert body[..5] == inner[..5];
        assert body[5..][..|body| - 5 - p] == inner[5..];
      }
    }
  }

  lemma PushRead(flags: byte, id: nat, payload: bytes)
    ensures Agrees(ParsePushPromise(flags, id, payload), Means(5, flags, id, payload))
  {
    Flags(flags);
    hide BitAt, Flag, GetU32, BigEndian;
    var padded := BitAt(flags, 3);
    if Inner(payload, padded).Some? && |Inner(payload, padded).value| >= 4 {
      var inner := Inner(payload, padded).value;
      var body := if padded then payload[1..] else payload;
      Numbers(body);
      assert body[..4] == inner[..4];
      assert inner[4..] == body[4..|body| - if padded then payload[0] as int else 0];
    }
  }

  lemma OthersRead(typeId: byte, flags: byte, id: nat, payload: bytes)
    requires typeId <= 9 && typeId != 1 && typeId != 5
    ensures Agrees(ParseKnown(typeId, flags, id, payload), Means(typeId, flags, id, payload))
  {
    Flags(flags);
    Numbers(payload);
    if |payload| >= 4 {
      Numbers(payload[4..]);
      assert |payload| == 4 ==> payload[..4] == payload;
      assert |payload| >= 8 ==> payload[4..][..4] == payload[4..8];
    }
    if |payload| == 5 {
      DependencyRead(payload);
      assert payload[..5] == payload;
    }
    if |payload| % 6 == 0 {
      SettingsRead(payload);
    }
    hide BitAt, Flag, GetU16, GetU24, GetU32, BigEndian, ReadPriority, Dependency, Given, ReadSettings;
  }

  /**
   * For every type, flags, stream and payload whatever, the parser reads the frame that is drawn,
   * or fails with the code the standard names.
   */
  lemma ParsesAsDrawn(typeId: byte, flags: byte, id: nat, payload: bytes)
    requires typeId <= 9
    ensures Agrees(ParseKnown(typeId, flags, id, payload), Means(typeId, flags, id, payload))
  {
    hide Means, ParseHeaders, ParsePushPromise;
    if typeId == 1 {
      HeadersRead(flags, id, payload);
    } else if typeId == 5 {
      PushRead(flags, id, payload);
    } else {
      OthersRead(typeId, flags, id, payload);
    }
  }

  predicate SameFront(a: Front, b: Front) {
    if b.Broken? then a.Broken? && a.error.code == b.error.code else a == b
  }

  /** And so for the front of every buffer, header and all. */
  lemma NextAsDrawn(buf: bytes, max: nat)
    ensures SameFront(Next(buf, max), Drawn(buf, max))
  {
    hide Means, ParseKnown, BigEndian, GetU24, GetU32;
    Numbers(buf);
    if |buf| >= 9 {
      Numbers(buf[5..]);
      assert buf[5..][..4] == buf[5..9];
      var n := GetU24(buf);
      if buf[3] <= 9 && |buf| >= 9 + n {
        ParsesAsDrawn(buf[3], buf[4], GetU32(buf[5..]) % U31, buf[9..9 + n]);
      }
    }
  }

  // --- the serializer ---

  /** The flags of a frame that is written; nothing is padded. */
  function FlagBits(f: Frame): (flags: byte) {
    match f
    case Data(_, _, endStream) => if endStream then 0x01 else 0x00
    case Headers(_, _, endStream, endHeaders, priority) =>
      (if endStream then 0x01 else 0x00) + (if endHeaders then 0x04 else 0x00) + (if priority.Some? then 0x20 else 0x00)
    case PushPromise(_, _, _, endHeaders) => if endHeaders then 0x04 else 0x00
    case Continuation(_, _, endHeaders) => if endHeaders then 0x04 else 0x00
    case SettingsFrame(ack, _) => if ack then 0x01 else 0x00
    case Ping(ack, _) => if ack then 0x01 else 0x00
    case _ => 0x00
  }

  /**
   * Every well-formed frame is written as it is drawn: the length of its payload in three octets,
   * its type, its flags and nothing else set, its stream in four octets, and a payload that means it.
   */
  lemma WrittenAsDrawn(f: Frame)
    requires Typed(f) && WellFormed(f)
    ensures var b := Serialize(f);
            && |b| >= 9 && BigEndian(b[..3]) == |b| - 9 && b[3] <= 9 && b[4] == FlagBits(f) && BigEndian(b[5..9]) < 0x8000_0000
            && Means(b[3], b[4], BigEndian(b[5..9]), b[9..]) == Reads(f)
  {
    hide Means, ParseKnown, BigEndian, U24, U32;
    var e, b := EncodeBody(f), Serialize(f);
    var length := |e.payload|;
    assert e.flags == FlagBits(f);
    hide EncodeBody, FlagBits;
    assert b[..3] == U24(length) && b[5..9] == U32(e.streamId) && b[9..] == e.payload;
    WrittenDigits(length);
    WrittenDigits(e.streamId);
    BodyRoundTrip(f);
    ParsesAsDrawn(e.typeId, e.flags, e.streamId, e.payload);
  }

  /** The settings present are written, each once, and nothing else. */
  lemma SettingsWritten(s: Settings)
    requires TypedSettings(s)
    ensures |SettingsBytes(s)| == 6 * SettingCount(s) && Given(SettingsBytes(s)) == s
  {
    hide SettingBytes, Given, ReadSettings;
    SettingsRoundTrip(s);
    SettingsRead(SettingsBytes(s));
  }

  /** Section 7: the numbers of the error codes. */
  lemma ErrorNumbers()
    ensures NoError.Value() == 0 && ProtocolError.Value() == 1 && InternalError.Value() == 2 && FlowControlError.Value() == 3
    ensures SettingsTimeout.Value() == 4 && StreamClosed.Value() == 5 && FrameSizeError.Value() == 6 && RefusedStream.Value() == 7
    ensures Cancel.Value() == 8 && CompressionError.Value() == 9 && ConnectError.Value() == 10 && EnhanceYourCalm.Value() == 11
    ensures InadequateSecurity.Value() == 12 && Http11Required.Value() == 13
    ensures forall v: nat :: match ErrorCode.FromValue(v) case Some(c) => c.Value() == v case None => v > 13
  {
  }
}
