/** The frame serializer, payload parser and streaming decoder as the source runs them. */
module FrameLoops {
  import opened Common
  import opened Bytes
  import opened Frames
  import opened FrameStream

  // --- serializing ---

  method WritePriority(w: ByteWriter, p: Priority)
    requires TypedPriority(p)
    modifies w
    ensures w.buf == old(w.buf) + PriorityBytes(p)
  {
    var dep := p.dependency % U31;
    w.PutU32(if p.exclusive then dep + U31 else dep);
    w.PutU8((p.weight - 1) % 256);
  }

  method WriteSetting(w: ByteWriter, id: nat, v: Option<nat>)
    requires id < 0x1_0000 && TypedSetting(v)
    modifies w
    ensures w.buf == old(w.buf) + SettingBytes(id, v)
  {
    if v.Some? {
      w.PutU16(id);
      w.PutU32(v.value);
    }
  }

  method WriteSettings(w: ByteWriter, s: Settings)
    requires TypedSettings(s)
    modifies w
    ensures w.buf == old(w.buf) + SettingsBytes(s)
  {
    hide SettingBytes;
    WriteSetting(w, 1, s.headerTableSize);
    WriteSetting(w, 2, PushSetting(s.enablePush));
    WriteSetting(w, 3, s.maxConcurrentStreams);
    WriteSetting(w, 4, s.initialWindowSize);
    WriteSetting(w, 5, s.maxFrameSize);
    WriteSetting(w, 6, s.maxHeaderListSize);
  }

  method SerializeFrame(f: Frame) returns (b: bytes)
    requires Typed(f)
    ensures b == Serialize(f)
  {
    hide U24, U32, PriorityBytes, SettingsBytes;
    var body := new ByteWriter();
    match f {
      case Headers(_, fragment, _, _, priority) =>
        if priority.Some? {
          WritePriority(body, priority.value);
        }
        body.PutBytes(fragment);
      case Prioritize(_, p) => WritePriority(body, p);
      case RstStream(_, code) => body.PutU32(code);
      case SettingsFrame(_, s) => WriteSettings(body, s);
      case PushPromise(_, promised, fragment, _) =>
        body.PutU32(promised % U31);
        body.PutBytes(fragment);
      case Goaway(last, code, debug) =>
        body.PutU32(last % U31);
        body.PutU32(code);
        body.PutBytes(debug);
      case WindowUpdate(_, inc) => body.PutU32(inc % U31);
      case Data(_, data, _) => body.PutBytes(data);
      case Ping(_, opaque8) => body.PutBytes(opaque8);
      case Continuation(_, fragment, _) => body.PutBytes(fragment);
    }
    var e := EncodeBody(f);
    assert body.buf == e.payload;
    b := Assemble(e.typeId, e.flags, e.streamId, body.buf);
  }

  method Assemble(typeId: byte, flags: byte, streamId: nat, payload: bytes) returns (b: bytes)
    requires streamId < U32_LIMIT
    ensures b == HeaderBytes(Encoded(typeId, flags, streamId, payload)) + payload
  {
    hide U24, U32;
    var w := new ByteWriter();
    w.PutU24(|payload| % U24_LIMIT);
    w.PutU8(typeId);
    w.PutU8(flags);
    w.PutU32(streamId % U31);
    w.PutBytes(payload);
    b := w.buf;
  }

  // --- parsing: the reader never runs past the payload ---

  method ReadPaddedData(r: ByteReader, padded: bool) returns (out: Result<bytes>)
    requires r.Valid()
    modifies r
    ensures r.Valid() && out == ReadPadded(old(r.Left()), padded)
  {
    var len := r.Remaining();
    ghost var before := r.Left();
    if !padded {
      var all := r.Take(len);
      assert before[..|before|] == before;
      return Ok(all.value);
    }
    if len < 1 {
      return Protocol(MissingPadLength);
    }
    var padLength := r.GetByte();
    if len - 1 < padLength {
      return Protocol(PadTooLong);
    }
    var data := r.Take(len - 1 - padLength);
    assert before[1..][..len - 1 - padLength] == before[1..len - padLength];
    var _ := r.Take(padLength);
    return Ok(data.value);
  }

  method TakePriority(r: ByteReader) returns (p: Priority)
    requires r.Valid() && |r.Left()| >= 5
    modifies r
    ensures r.Valid() && p == ReadPriority(old(r.Left())) && r.Left() == old(r.Left())[5..]
  {
    hide GetU32;
    var dep := r.ReadU32();
    var weight := r.GetByte();
    p := Priority(dep % U31, weight as int + 1, dep / U31 == 1);
  }

  method ParseHeadersFrame(r: ByteReader, flags: byte, id: nat) returns (out: Result<Frame>)
    requires r.Valid()
    modifies r
    ensures r.Valid() && out == ParseHeaders(flags, id, old(r.Left()))
  {
    hide Flag, ReadPriority;
    var len := r.Remaining();
    var padded, hasPriority := Flag(flags, 0x8), Flag(flags, 0x20);
    var padLength: nat := 0;
    if padded {
      if len < 1 {
        return Protocol(BadHeadersPadding);
      }
      padLength := r.GetByte();
    }
    var priority := None;
    if hasPriority {
      var left := r.Remaining();
      if left < 5 {
        return Protocol(PriorityTruncated);
      }
      var p := TakePriority(r);
      priority := Some(p);
    }
    var overhead := (if padded then 1 else 0) + (if hasPriority then 5 else 0) + padLength;
    if len < overhead {
      return Protocol(BadHeadersPadding);
    }
    var fragment := r.Take(len - overhead);
    return Ok(Headers(id, fragment.value, Flag(flags, 0x1), Flag(flags, 0x4), priority));
  }

  method ParsePushFrame(r: ByteReader, flags: byte, id: nat) returns (out: Result<Frame>)
    requires r.Valid()
    modifies r
    ensures r.Valid() && out == ParsePushPromise(flags, id, old(r.Left()))
  {
    hide Flag, GetU32;
    var len := r.Remaining();
    var padded := Flag(flags, 0x8);
    var padLength: nat := 0;
    if padded {
      if len < 1 {
        return Protocol(BadPushPadding);
      }
      padLength := r.GetByte();
    }
    var left := r.Remaining();
    if left < 4 {
      return Protocol(PushTruncated);
    }
    ghost var body := r.Left();
    var promised := r.ReadU32();
    var overhead := (if padded then 1 else 0) + 4 + padLength;
    if len < overhead {
      return Protocol(BadPushPadding);
    }
    var fragment := r.Take(len - overhead);
    assert body[4..][..len - overhead] == body[4..|body| - padLength];
    return Ok(PushPromise(id, promised % U31, fragment.value, Flag(flags, 0x4)));
  }

  method ParseSettingsFrame(r: ByteReader, flags: byte) returns (out: Result<Frame>)
    requires r.Valid()
    modifies r
    ensures r.Valid() && out == ParseSettings(flags, old(r.Left()))
  {
    hide Flag, GetU16, GetU32, ApplySetting;
    var len := r.Remaining();
    var ack := Flag(flags, 0x1);
    if ack && len != 0 {
      return FrameSize(SettingsAckNotEmpty);
    }
    if len % 6 != 0 {
      return FrameSize(BadSettingsSize);
    }
    var settings := NO_SETTINGS;
    for i := 0 to len / 6
      invariant r.Valid() && |r.Left()| == len - 6 * i
      invariant ReadSettings(settings, r.Left()) == ReadSettings(NO_SETTINGS, old(r.Left()))
    {
      ghost var before := r.Left();
      var id := r.ReadU16();
      var value := r.ReadU32();
      assert r.Left() == before[6..];
      settings := ApplySetting(settings, id, value);
    }
    return Ok(SettingsFrame(ack, settings));
  }

  method ParseFrame(typeId: byte, flags: byte, id: nat, payload: bytes) returns (out: Result<Option<Frame>>)
    ensures out == ParsePayload(typeId, flags, id, payload)
  {
    if typeId > 9 {
      return Ok(None); // unknown frame type: skip
    }
    var frame := ParseKnownFrame(typeId, flags, id, payload);
    out := match frame case Ok(f) => Ok(Some(f)) case Err(e) => Err(e);
  }

  method ParseKnownFrame(typeId: byte, flags: byte, id: nat, payload: bytes) returns (out: Result<Frame>)
    requires typeId <= 9
    ensures out == ParseKnown(typeId, flags, id, payload)
  {
    hide Flag, GetU32, ReadPriority, ReadPadded, ParseHeaders, ParseSettings, ParsePushPromise;
    var r := new ByteReader(payload);
    assert r.Left() == payload;
    var len := |payload|;
    if typeId == 0 {
      var data := ReadPaddedData(r, Flag(flags, 0x8));
      out := match data case Ok(d) => Ok(Data(id, d, Flag(flags, 0x1))) case Err(e) => Err(e);
    } else if typeId == 1 {
      out := ParseHeadersFrame(r, flags, id);
    } else if typeId == 4 {
      out := ParseSettingsFrame(r, flags);
    } else if typeId == 5 {
      out := ParsePushFrame(r, flags, id);
    } else {
      out := ParseFixed(r, typeId, flags, id);
    }
  }

  method ParseFixed(r: ByteReader, typeId: byte, flags: byte, id: nat) returns (out: Result<Frame>)
    requires r.Valid() && typeId <= 9 && typeId !in [0, 1, 4, 5]
    modifies r
    ensures r.Valid() && out == ParseKnown(typeId, flags, id, old(r.Left()))
  {
    hide Flag, GetU32, ReadPriority;
    var len := r.Remaining();
    if typeId == 2 {
      if len != 5 {
        return FrameSize(BadPrioritySize);
      }
      var p := TakePriority(r);
      return Ok(Prioritize(id, p));
    } else if typeId == 3 {
      if len != 4 {
        return FrameSize(BadRstSize);
      }
      var code := r.ReadU32();
      return Ok(RstStream(id, code));
    } else if typeId == 6 {
      if len != 8 {
        return FrameSize(BadPingSize);
      }
      ghost var before := r.Left();
      var opaque8 := r.Take(8);
      assert before[..8] == before;
      return Ok(Ping(Flag(flags, 0x1), opaque8.value));
    } else if typeId == 7 {
      if len < 8 {
        return FrameSize(GoawayTooShort);
      }
      ghost var before := r.Left();
      var last := r.ReadU32();
      var code := r.ReadU32();
      assert r.Left() == before[8..];
      var debug := r.Take(len - 8);
      assert before[8..][..len - 8] == before[8..];
      return Ok(Goaway(last % U31, code, debug.value));
    } else if typeId == 8 {
      if len != 4 {
        return FrameSize(BadWindowUpdateSize);
      }
      var inc := r.ReadU32();
      return Ok(WindowUpdate(id, inc % U31));
    } else {
      ghost var before := r.Left();
      var fragment := r.Take(len);
      assert before[..len] == before;
      return Ok(Continuation(id, fragment.value, Flag(flags, 0x4)));
    }
  }

  // --- the streaming decoder ---

  class FrameDecoder {
    var pending: bytes
    const maxFrameSize: nat

    /** What is buffered is always one incomplete frame. */
    ghost predicate Valid()
      reads this
    {
      Next(pending, maxFrameSize) == Incomplete
    }

    constructor (maxFrameSize: nat)
      ensures Valid() && pending == [] && this.maxFrameSize == maxFrameSize
    {
      pending := [];
      this.maxFrameSize := maxFrameSize;
    }

    method Push(chunk: bytes) returns (out: Result<seq<Frame>>)
      requires Valid()
      modifies this
      ensures Valid()
      ensures match Scan(old(pending) + chunk, maxFrameSize)
              case Ok(s) => out == Ok(s.frames) && pending == s.rest
              case Err(e) => out == Err(e) && pending == []
    {
      hide Next;
      var buf := if pending == [] then chunk else pending + chunk;
      assert buf == pending + chunk;
      pending := []; // taken; an error below leaves the decoder empty
      assert Next([], maxFrameSize) == Incomplete by {
        NothingYet(maxFrameSize);
      }
      var frames := [];
      var offset := 0;
      ghost var all := Scan(buf, maxFrameSize);
      assert buf[0..] == buf;
      BeforeNothing(all);
      while true
        invariant 0 <= offset <= |buf| && pending == []
        invariant all == Before(frames, Scan(buf[offset..], maxFrameSize))
        decreases |buf| - offset
      {
        var front := Front(buf, offset);
        match front
        case Incomplete => break;
        case Broken(e) => return Err(e);
        case Whole(f, rest) =>
          BeforeBefore(frames, Listed(f), Scan(rest, maxFrameSize));
          frames := frames + Listed(f);
          offset := |buf| - |rest|;
      }
      LeftoverIncomplete(buf, maxFrameSize);
      assert frames + [] == frames;
      pending := if offset == |buf| then [] else buf[offset..];
      return Ok(frames);
    }

    /** The frame at `offset`: its header fields are read in place. */
    method Front(buf: bytes, offset: nat) returns (front: Front)
      requires offset <= |buf|
      ensures front == Next(buf[offset..], maxFrameSize)
      ensures front.Whole? ==> offset < |buf| - |front.rest| && buf[|buf| - |front.rest|..] == front.rest
    {
      hide ParsePayload, GetU32;
      if |buf| - offset < FRAME_HEADER_SIZE {
        return Incomplete;
      }
      var length := buf[offset] as int * 0x1_0000 + buf[offset + 1] as int * 256 + buf[offset + 2] as int;
      assert length == GetU24(buf[offset..]);
      if length > maxFrameSize {
        return Broken(H2Error(FrameSizeError, FrameTooLarge));
      }
      var total := FRAME_HEADER_SIZE + length;
      if |buf| - offset < total {
        return Incomplete; // wait for more bytes
      }
      var payload := buf[offset + FRAME_HEADER_SIZE..offset + total];
      assert payload == buf[offset..][FRAME_HEADER_SIZE..total];
      assert buf[offset + 5..] == buf[offset..][5..];
      var frame := ParseFrame(buf[offset + 3], buf[offset + 4], GetU32(buf[offset + 5..]) % U31, payload);
      if frame.Err? {
        return Broken(frame.error);
      }
      assert buf[offset + total..] == buf[offset..][total..];
      return Whole(frame.value, buf[offset + total..]);
    }
  }

  lemma NothingYet(max: nat)
    ensures Next([], max) == Incomplete
  {
  }
}
