/** Cutting a byte stream into frames, however it was chunked: section 4.1 of RFC 7540. */
module FrameStream {
  import opened Common
  import opened Bytes
  import opened Frames

  /** What the front of a buffer holds. */
  datatype Front = Incomplete | Broken(error: H2Error) | Whole(frame: Option<Frame>, rest: bytes)

  function Next(buf: bytes, max: nat): (r: Front)
    ensures r.Whole? ==> |r.rest| < |buf|
  {
    if |buf| < FRAME_HEADER_SIZE then Incomplete
    else
      var length := GetU24(buf);
      if length > max then Broken(H2Error(FrameSizeError, FrameTooLarge))
      else if |buf| < FRAME_HEADER_SIZE + length then Incomplete
      else match ParsePayload(buf[3], buf[4], GetU32(buf[5..]) % U31, buf[FRAME_HEADER_SIZE..FRAME_HEADER_SIZE + length])
        case Err(e) => Broken(e)
        case Ok(f) => Whole(f, buf[FRAME_HEADER_SIZE + length..])
  }

  datatype Scanned = Scanned(frames: seq<Frame>, rest: bytes)

  function Listed(f: Option<Frame>): (fs: seq<Frame>) {
    match f case Some(g) => [g] case None => []
  }

  function Before(fs: seq<Frame>, r: Result<Scanned>): (r': Result<Scanned>) {
    match r case Ok(s) => Ok(Scanned(fs + s.frames, s.rest)) case Err(e) => Err(e)
  }

  /** All whole frames at the front of a buffer, unknown types dropped, and what is left. */
  function Scan(buf: bytes, max: nat): (r: Result<Scanned>)
    decreases |buf|
  {
    match Next(buf, max)
    case Incomplete => Ok(Scanned([], buf))
    case Broken(e) => Err(e)
    case Whole(f, rest) => Before(Listed(f), Scan(rest, max))
  }

  /** A sequence of pushes into a decoder that holds `pending`, up to the first error. */
  function PushAll(pending: bytes, chunks: seq<bytes>, max: nat): (r: Result<Scanned>)
    decreases |chunks|
  {
    if chunks == [] then Ok(Scanned([], pending))
    else match Scan(pending + chunks[0], max)
      case Err(e) => Err(e)
      case Ok(s) => Before(s.frames, PushAll(s.rest, chunks[1..], max))
  }

  /** The frames those pushes hand out before the first one that fails. */
  function Delivered(pending: bytes, chunks: seq<bytes>, max: nat): (fs: seq<Frame>)
    decreases |chunks|
  {
    if chunks == [] then []
    else match Scan(pending + chunks[0], max)
      case Err(_) => []
      case Ok(s) => s.frames + Delivered(s.rest, chunks[1..], max)
  }

  lemma BeforeBefore(a: seq<Frame>, b: seq<Frame>, r: Result<Scanned>)
    ensures Before(a, Before(b, r)) == Before(a + b, r)
  {
    if r.Ok? {
      assert a + (b + r.value.frames) == a + b + r.value.frames;
    }
  }

  lemma BeforeNothing(r: Result<Scanned>)
    ensures Before([], r) == r
  {
    if r.Ok? {
      assert [] + r.value.frames == r.value.frames;
    }
  }

  lemma NextAppend(a: bytes, b: bytes, max: nat)
    ensures match Next(a, max)
            case Incomplete => true
            case Broken(e) => Next(a + b, max) == Broken(e)
            case Whole(f, rest) => Next(a + b, max) == Whole(f, rest + b)
  {
    if |a| >= FRAME_HEADER_SIZE {
      assert GetU24(a + b) == GetU24(a) by {
        assert (a + b)[1..][..2] == a[1..][..2];
      }
      HeadOfFour(a[5..], b);
      assert (a + b)[5..] == a[5..] + b;
      var total := FRAME_HEADER_SIZE + GetU24(a);
      if |a| >= total {
        assert (a + b)[FRAME_HEADER_SIZE..total] == a[FRAME_HEADER_SIZE..total];
        assert (a + b)[total..] == a[total..] + b;
      }
    }
  }

  lemma HeadOfFour(a: bytes, b: bytes)
    requires |a| >= 4
    ensures GetU32(a + b) == GetU32(a)
  {
    assert (a + b)[2..][..2] == a[2..][..2];
  }

  /** Scanning can stop anywhere and go on from what was left. */
  lemma {:induction false} ScanAppend(a: bytes, b: bytes, max: nat)
    ensures Scan(a + b, max) == match Scan(a, max) case Ok(s) => Before(s.frames, Scan(s.rest + b, max)) case Err(e) => Err(e)
    decreases |a|
  {
    hide Next;
    NextAppend(a, b, max);
    match Next(a, max)
    case Incomplete => BeforeNothing(Scan(a + b, max));
    case Broken(e) =>
    case Whole(f, rest) =>
      ScanAppend(rest, b, max);
      if Scan(rest, max).Ok? {
        var s := Scan(rest, max).value;
        BeforeBefore(Listed(f), s.frames, Scan(s.rest + b, max));
      }
  }

  /** What is left is one incomplete frame, shorter than a header and a maximal payload. */
  lemma {:induction false} LeftoverIncomplete(buf: bytes, max: nat)
    requires Scan(buf, max).Ok?
    ensures Next(Scan(buf, max).value.rest, max) == Incomplete
    ensures |Scan(buf, max).value.rest| < FRAME_HEADER_SIZE + max
    decreases |buf|
  {
    if Next(buf, max).Whole? {
      LeftoverIncomplete(Next(buf, max).rest, max);
    }
  }

  /**
   * Chunking independence: pushing the bytes in any chunks gives what one push of them all
   * gives, the same frames and leftover, or the same error.
   */
  lemma {:induction false} ChunkingIndependent(pending: bytes, chunks: seq<bytes>, max: nat)
    requires Next(pending, max) == Incomplete
    ensures PushAll(pending, chunks, max) == Scan(pending + Flatten(chunks), max)
    decreases |chunks|
  {
    hide Next;
    if chunks == [] {
      assert pending + [] == pending;
    } else {
      var tail := Flatten(chunks[1..]);
      assert pending + Flatten(chunks) == pending + chunks[0] + tail;
      ScanAppend(pending + chunks[0], tail, max);
      if Scan(pending + chunks[0], max).Ok? {
        LeftoverIncomplete(pending + chunks[0], max);
        ChunkingIndependent(Scan(pending + chunks[0], max).value.rest, chunks[1..], max);
      }
    }
  }

  /**
   * When the pushes fail, what was handed out is exactly the frames of the chunks before the
   * failing one: the whole frames that share a push with the error are lost.
   */
  lemma {:induction false} LostWithTheError(pending: bytes, chunks: seq<bytes>, max: nat) returns (k: nat)
    requires Next(pending, max) == Incomplete && PushAll(pending, chunks, max).Err?
    ensures k < |chunks|
    ensures var good := Scan(pending + Flatten(chunks[..k]), max);
            good.Ok? && Delivered(pending, chunks, max) == good.value.frames
    ensures Scan(pending + Flatten(chunks[..k + 1]), max).Err?
    decreases |chunks|
  {
    hide Next;
    var first := Scan(pending + chunks[0], max);
    if first.Err? {
      k := 0;
      assert pending + Flatten(chunks[..0]) == pending;
      assert chunks[..1] == [] + [chunks[0]];
      FlattenSnoc([], chunks[0]);
      assert [] + chunks[0] == chunks[0];
    } else {
      LeftoverIncomplete(pending + chunks[0], max);
      k := LostWithTheError(first.value.rest, chunks[1..], max);
      ScanFirst(pending, chunks, k, max);
      ScanFirst(pending, chunks, k + 1, max);
      k := k + 1;
    }
  }

  lemma ScanFirst(pending: bytes, chunks: seq<bytes>, k: nat, max: nat)
    requires chunks != [] && k <= |chunks[1..]| && Scan(pending + chunks[0], max).Ok?
    ensures var s := Scan(pending + chunks[0], max).value;
            Scan(pending + Flatten(chunks[..k + 1]), max)
            == Before(s.frames, Scan(s.rest + Flatten(chunks[1..][..k]), max))
  {
    var tail := chunks[1..][..k];
    assert chunks[..k + 1] == [chunks[0]] + tail;
    assert chunks[..k + 1][1..] == tail;
    assert pending + Flatten(chunks[..k + 1]) == pending + chunks[0] + Flatten(tail);
    ScanAppend(pending + chunks[0], Flatten(tail), max);
  }

  /** Frames of unknown type may stand between frames: they change nothing. */
  lemma UnknownSkipped(a: bytes, unknown: bytes, b: bytes, max: nat)
    requires Scan(a, max).Ok? && Scan(a, max).value.rest == []
    requires Next(unknown, max) == Whole(None, [])
    ensures Scan(a + unknown + b, max) == Scan(a + b, max)
  {
    hide Next;
    ScanAppend(a, unknown + b, max);
    ScanAppend(a, b, max);
    assert a + unknown + b == a + (unknown + b);
    assert [] + (unknown + b) == unknown + b;
    assert [] + b == b;
    NextAppend(unknown, b, max);
    BeforeNothing(Scan(b, max));
  }

  /** Any type number above 9 is unknown, whatever its flags and payload. */
  lemma UnknownFrame(typeId: byte, flags: byte, id: nat, payload: bytes, max: nat)
    requires typeId > 9 && id < U32_LIMIT && |payload| <= max && |payload| < U24_LIMIT
    ensures Next(HeaderBytes(Encoded(typeId, flags, id, payload)) + payload, max) == Whole(None, [])
  {
    HeaderRoundTrip(Encoded(typeId, flags, id, payload), payload);
  }

  // --- serialized frames ---

  lemma HeaderRoundTrip(e: Encoded, rest: bytes)
    requires e.streamId < U32_LIMIT
    ensures var buf := HeaderBytes(e) + rest;
            && |buf| >= FRAME_HEADER_SIZE && GetU24(buf) == |e.payload| % U24_LIMIT
            && buf[3] == e.typeId && buf[4] == e.flags && GetU32(buf[5..]) == e.streamId % U31
            && buf[FRAME_HEADER_SIZE..] == rest
  {
    hide U24, U32, GetU24, GetU32;
    var length, id := |e.payload| % U24_LIMIT, e.streamId % U31;
    var tail := [e.typeId, e.flags] + U32(id) + rest;
    assert HeaderBytes(e) + rest == U24(length) + tail;
    U24RoundTrip(length, tail);
    U32RoundTrip(id, rest);
    assert (HeaderBytes(e) + rest)[5..] == U32(id) + rest;
  }

  /**
   * Frame round trip, exact: within the receiver's limit, the decoder gives back the frame and
   * consumes exactly its bytes if and only if the frame is well formed.
   */
  lemma FrameRoundTrip(f: Frame, tail: bytes, max: nat)
    requires Typed(f) && |EncodeBody(f).payload| <= max
    ensures Next(Serialize(f) + tail, max) == Whole(Some(f), tail) <==> WellFormed(f)
  {
    hide ParseKnown, EncodeBody, HeaderBytes, WellFormed, GetU24, GetU32;
    var e := EncodeBody(f);
    assert e.typeId <= 9;
    var buf := HeaderBytes(e) + (e.payload + tail);
    HeaderRoundTrip(e, e.payload + tail);
    assert Serialize(f) + tail == buf;
    var length := |e.payload| % U24_LIMIT;
    assert buf[FRAME_HEADER_SIZE..FRAME_HEADER_SIZE + length] == (e.payload + tail)[..length];
    assert buf[FRAME_HEADER_SIZE + length..] == (e.payload + tail)[length..];
    if |e.payload| < U24_LIMIT {
      BodyRoundTrip(f);
      assert (e.payload + tail)[..length] == e.payload;
    } else {
      TooLong(f);
    }
  }

  lemma TooLong(f: Frame)
    requires Typed(f) && |EncodeBody(f).payload| >= U24_LIMIT
    ensures !WellFormed(f)
  {
  }

  function SerializeAll(fs: seq<Frame>): (b: bytes)
    requires forall i :: 0 <= i < |fs| ==> Typed(fs[i])
  {
    if fs == [] then [] else Serialize(fs[0]) + SerializeAll(fs[1..])
  }

  ghost predicate Sendable(fs: seq<Frame>, max: nat) {
    forall i :: 0 <= i < |fs| ==> Typed(fs[i]) && WellFormed(fs[i]) && |EncodeBody(fs[i]).payload| <= max
  }

  /** The frames of a serialized list come back in order, and what follows is scanned as before. */
  lemma {:induction false} ScanSerialized(fs: seq<Frame>, tail: bytes, max: nat)
    requires Sendable(fs, max)
    ensures Scan(SerializeAll(fs) + tail, max) == Before(fs, Scan(tail, max))
  {
    hide Next, Serialize, WellFormed;
    if fs == [] {
      assert [] + tail == tail;
      BeforeNothing(Scan(tail, max));
    } else {
      var rest := SerializeAll(fs[1..]) + tail;
      FrameRoundTrip(fs[0], rest, max);
      assert SerializeAll(fs) + tail == Serialize(fs[0]) + rest;
      ScanSerialized(fs[1..], tail, max);
      BeforeBefore([fs[0]], fs[1..], Scan(tail, max));
      assert [fs[0]] + fs[1..] == fs;
    }
  }

  lemma OneSerialized(f: Frame, max: nat)
    requires Sendable([f], max)
    ensures Typed(f) && Scan(Serialize(f), max) == Ok(Scanned([f], []))
  {
    hide Serialize, WellFormed;
    assert Typed([f][0]);
    ScanSerialized([f], [], max);
    assert [f][1..] == [];
    assert SerializeAll([f]) == Serialize(f) + SerializeAll([]);
    assert SerializeAll([f]) + [] == Serialize(f);
    assert Scan([], max) == Ok(Scanned([], []));
    assert [f] + [] == [f];
  }

  // --- padding ---

  /** Padding a payload: the pad length in front, the padding behind. */
  function Pad(payload: bytes, padding: bytes): (b: bytes)
    requires |padding| < 256
  {
    [|padding|] + payload + padding
  }

  /**
   * DATA, HEADERS and PUSH_PROMISE parse the same with any legal padding as without:
   * the same frame, or a protocol error in both cases.
   */
  lemma PaddingTransparent(typeId: byte, flags: byte, id: nat, payload: bytes, padding: bytes)
    requires typeId == 0 || typeId == 1 || typeId == 5
    requires !Flag(flags, 0x8) && flags + 8 < 256 && |padding| < 256
    ensures var plain, padded := ParseKnown(typeId, flags, id, payload), ParseKnown(typeId, flags + 8, id, Pad(payload, padding));
            && (plain.Ok? ==> padded == plain)
            && (plain.Err? ==> padded.Err? && plain.error.code == padded.error.code == ProtocolError)
  {
    FlagsWithPadding(flags);
    var all := Pad(payload, padding);
    var p := |padding|;
    assert all[1..] == payload + padding;
    assert all[1..|all| - p] == payload;
    if typeId == 1 {
      PaddedHeaders(flags, id, payload, padding);
    } else if typeId == 5 {
      PaddedPush(flags, id, payload, padding);
    }
  }

  lemma FlagsWithPadding(flags: byte)
    requires !Flag(flags, 0x8) && flags + 8 < 256
    ensures Flag(flags + 8, 0x8) && Flag(flags + 8, 0x1) == Flag(flags, 0x1)
    ensures Flag(flags + 8, 0x4) == Flag(flags, 0x4) && Flag(flags + 8, 0x20) == Flag(flags, 0x20)
  {
  }

  lemma PaddedHeaders(flags: byte, id: nat, payload: bytes, padding: bytes)
    requires !Flag(flags, 0x8) && flags + 8 < 256 && |padding| < 256
    ensures var plain, padded := ParseHeaders(flags, id, payload), ParseHeaders(flags + 8, id, Pad(payload, padding));
            && (plain.Ok? ==> padded == plain)
            && (plain.Err? ==> padded.Err? && plain.error.code == padded.error.code == ProtocolError)
  {
    hide Flag;
    FlagsWithPadding(flags);
    var body := payload + padding;
    assert Pad(payload, padding)[1..] == body;
    assert payload[..|payload| - 0] == payload;
    assert body[..|body| - |padding|] == payload;
    if Flag(flags, 0x20) && |payload| >= 5 {
      HeadOfFour(payload, padding);
      assert body[5..][..|body[5..]| - |padding|] == payload[5..];
      assert payload[5..][..|payload[5..]| - 0] == payload[5..];
    }
  }

  lemma PaddedPush(flags: byte, id: nat, payload: bytes, padding: bytes)
    requires !Flag(flags, 0x8) && flags + 8 < 256 && |padding| < 256
    ensures var plain, padded := ParsePushPromise(flags, id, payload), ParsePushPromise(flags + 8, id, Pad(payload, padding));
            && (plain.Ok? ==> padded == plain)
            && (plain.Err? ==> padded.Err? && plain.error.code == padded.error.code == ProtocolError)
  {
    hide Flag;
    FlagsWithPadding(flags);
    var body := payload + padding;
    assert Pad(payload, padding)[1..] == body;
    if |payload| >= 4 {
      HeadOfFour(payload, padding);
      assert body[4..|body| - |padding|] == payload[4..];
      assert payload[4..|payload| - 0] == payload[4..];
    }
  }
}
