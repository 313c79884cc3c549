/** HTTP/2 frames and their wire form, section 6 of RFC 7540. */
module Frames {
  import opened Common
  import opened Bytes

  const FRAME_HEADER_SIZE: nat := 9
  const DEFAULT_MAX_FRAME_SIZE: nat := 16384
  const U31: nat := 0x8000_0000
  const U32_LIMIT: nat := 0x1_0000_0000
  const U24_LIMIT: nat := 0x100_0000

  datatype Settings = Settings(
    headerTableSize: Option<nat>, enablePush: Option<bool>, maxConcurrentStreams: Option<nat>,
    initialWindowSize: Option<nat>, maxFrameSize: Option<nat>, maxHeaderListSize: Option<nat>)

  const NO_SETTINGS := Settings(None, None, None, None, None, None)

  datatype Priority = Priority(dependency: nat, weight: nat, exclusive: bool)

  datatype Frame =
    | Data(streamId: nat, data: bytes, endStream: bool)
    | Headers(streamId: nat, fragment: bytes, endStream: bool, endHeaders: bool, priority: Option<Priority>)
    | Prioritize(streamId: nat, weighting: Priority)
    | RstStream(streamId: nat, errorCode: nat)
    | SettingsFrame(ack: bool, settings: Settings)
    | PushPromise(streamId: nat, promisedId: nat, fragment: bytes, endHeaders: bool)
    | Ping(ack: bool, opaque8: bytes)
    | Goaway(lastStreamId: nat, errorCode: nat, debugData: bytes)
    | WindowUpdate(streamId: nat, increment: nat)
    | Continuation(streamId: nat, fragment: bytes, endHeaders: bool)

  /** The ranges of the source's integer types: u32 everywhere, a u16 weight that is not zero. */
  predicate Typed(f: Frame) {
    match f
    case Data(id, _, _) => id < U32_LIMIT
    case Headers(id, _, _, _, p) => id < U32_LIMIT && (p.Some? ==> TypedPriority(p.value))
    case Prioritize(id, p) => id < U32_LIMIT && TypedPriority(p)
    case RstStream(id, code) => id < U32_LIMIT && code < U32_LIMIT
    case SettingsFrame(_, s) => TypedSettings(s)
    case PushPromise(id, promised, _, _) => id < U32_LIMIT && promised < U32_LIMIT
    case Ping(_, o) => |o| == 8
    case Goaway(last, code, _) => last < U32_LIMIT && code < U32_LIMIT
    case WindowUpdate(id, inc) => id < U32_LIMIT && inc < U32_LIMIT
    case Continuation(id, _, _) => id < U32_LIMIT
  }

  predicate TypedPriority(p: Priority) {
    p.dependency < U32_LIMIT && 1 <= p.weight < 0x1_0000
  }

  predicate TypedSetting(v: Option<nat>) {
    v.Some? ==> v.value < U32_LIMIT
  }

  predicate TypedSettings(s: Settings) {
    TypedSetting(s.headerTableSize) && TypedSetting(s.maxConcurrentStreams) && TypedSetting(s.initialWindowSize)
    && TypedSetting(s.maxFrameSize) && TypedSetting(s.maxHeaderListSize)
  }

  // --- serializing ---

  datatype Encoded = Encoded(typeId: byte, flags: byte, streamId: nat, payload: bytes)

  function PriorityBytes(p: Priority): (b: bytes)
    requires TypedPriority(p)
    ensures |b| == 5
  {
    U32(PriorityWord(p)) + [(p.weight - 1) % 256]
  }

  function PriorityWord(p: Priority): (w: nat)
    ensures w < U32_LIMIT && w % U31 == p.dependency % U31 && (w / U31 == 1 <==> p.exclusive)
  {
    p.dependency % U31 + if p.exclusive then U31 else 0
  }

  function SettingBytes(id: nat, v: Option<nat>): (b: bytes)
    requires id < 0x1_0000 && TypedSetting(v)
    ensures |b| == if v.Some? then 6 else 0
  {
    match v case Some(x) => U16(id) + U32(x) case None => []
  }

  function PushSetting(v: Option<bool>): (r: Option<nat>) {
    match v case Some(b) => Some(if b then 1 else 0) case None => None
  }

  function Present<T>(v: Option<T>): (n: nat) {
    if v.Some? then 1 else 0
  }

  function SettingCount(s: Settings): (n: nat)
    ensures n == 0 <==> s == NO_SETTINGS
  {
    Present(s.headerTableSize) + Present(s.enablePush) + Present(s.maxConcurrentStreams)
    + Present(s.initialWindowSize) + Present(s.maxFrameSize) + Present(s.maxHeaderListSize)
  }

  function SettingsBytes(s: Settings): (b: bytes)
    requires TypedSettings(s)
    ensures |b| == 6 * SettingCount(s)
  {
    SettingBytes(1, s.headerTableSize) + SettingBytes(2, PushSetting(s.enablePush))
    + SettingBytes(3, s.maxConcurrentStreams) + SettingBytes(4, s.initialWindowSize)
    + SettingBytes(5, s.maxFrameSize) + SettingBytes(6, s.maxHeaderListSize)
  }

  function EncodeBody(f: Frame): (e: Encoded)
    requires Typed(f)
    ensures e.typeId <= 9 && e.streamId < U32_LIMIT
  {
    match f
    case Data(id, data, endStream) =>
      Encoded(0, if endStream then 0x1 else 0, id, data)
    case Headers(id, fragment, endStream, endHeaders, priority) =>
      var flags := (if endHeaders then 0x4 else 0) + if endStream then 0x1 else 0;
      (match priority
       case Some(p) => Encoded(1, flags + 0x20, id, PriorityBytes(p) + fragment)
       case None => Encoded(1, flags, id, fragment))
    case Prioritize(id, p) => Encoded(2, 0, id, PriorityBytes(p))
    case RstStream(id, code) => Encoded(3, 0, id, U32(code))
    case SettingsFrame(ack, s) => Encoded(4, if ack then 0x1 else 0, 0, SettingsBytes(s))
    case PushPromise(id, promised, fragment, endHeaders) =>
      Encoded(5, if endHeaders then 0x4 else 0, id, U32(promised % U31) + fragment)
    case Ping(ack, opaque8) => Encoded(6, if ack then 0x1 else 0, 0, opaque8)
    case Goaway(last, code, debug) => Encoded(7, 0, 0, U32(last % U31) + U32(code) + debug)
    case WindowUpdate(id, inc) => Encoded(8, 0, id, U32(inc % U31))
    case Continuation(id, fragment, endHeaders) => Encoded(9, if endHeaders then 0x4 else 0, id, fragment)
  }

  /** The nine header bytes: the length is cut to 24 bits and the stream id to 31. */
  function HeaderBytes(e: Encoded): (b: bytes)
    requires e.streamId < U32_LIMIT
    ensures |b| == FRAME_HEADER_SIZE
  {
    U24(|e.payload| % U24_LIMIT) + [e.typeId, e.flags] + U32(e.streamId % U31)
  }

  function Serialize(f: Frame): (b: bytes)
    requires Typed(f)
    ensures |b| == FRAME_HEADER_SIZE + |EncodeBody(f).payload|
  {
    HeaderBytes(EncodeBody(f)) + EncodeBody(f).payload
  }

  // --- parsing ---

  /** `flags & mask != 0` for a mask of one bit. */
  function Flag(flags: byte, mask: nat): (b: bool)
    requires mask >= 1
  {
    flags as int / mask % 2 == 1
  }

  function Protocol<T>(why: Reason): (r: Result<T>) {
    Err(H2Error(ProtocolError, why))
  }

  function FrameSize<T>(why: Reason): (r: Result<T>) {
    Err(H2Error(FrameSizeError, why))
  }

  /** Strip the pad length byte and the padding it announces. */
  function ReadPadded(payload: bytes, padded: bool): (r: Result<bytes>)
    ensures r.Ok? ==> |r.value| <= |payload|
  {
    if !padded then Ok(payload)
    else if |payload| < 1 then Protocol(MissingPadLength)
    else if |payload| - 1 < payload[0] then Protocol(PadTooLong)
    else Ok(payload[1..|payload| - payload[0]])
  }

  function ReadPriority(b: bytes): (p: Priority)
    requires |b| >= 5
    ensures TypedPriority(p)
  {
    Priority(GetU32(b) % U31, b[4] + 1 as int, GetU32(b) / U31 == 1)
  }

  function ParseHeaders(flags: byte, id: nat, payload: bytes): (r: Result<Frame>) {
    var padded, hasPriority := Flag(flags, 0x8), Flag(flags, 0x20);
    if padded && |payload| < 1 then Protocol(BadHeadersPadding)
    else
      var padLength := if padded then payload[0] else 0;
      var body := if padded then payload[1..] else payload;
      if hasPriority && |body| < 5 then Protocol(PriorityTruncated)
      else
        var rest := if hasPriority then body[5..] else body;
        if |rest| < padLength then Protocol(BadHeadersPadding)
        else Ok(Headers(id, rest[..|rest| - padLength], Flag(flags, 0x1), Flag(flags, 0x4),
                        if hasPriority then Some(ReadPriority(body)) else None))
  }

  function ParsePushPromise(flags: byte, id: nat, payload: bytes): (r: Result<Frame>) {
    var padded := Flag(flags, 0x8);
    if padded && |payload| < 1 then Protocol(BadPushPadding)
    else
      var padLength := if padded then payload[0] else 0;
      var body := if padded then payload[1..] else payload;
      if |body| < 4 then Protocol(PushTruncated)
      else if |body| - 4 < padLength then Protocol(BadPushPadding)
      else Ok(PushPromise(id, GetU32(body) % U31, body[4..|body| - padLength], Flag(flags, 0x4)))
  }

  function ApplySetting(s: Settings, id: nat, v: nat): (r: Settings) {
    if id == 1 then s.(headerTableSize := Some(v))
    else if id == 2 then s.(enablePush := Some(v != 0))
    else if id == 3 then s.(maxConcurrentStreams := Some(v))
    else if id == 4 then s.(initialWindowSize := Some(v))
    else if id == 5 then s.(maxFrameSize := Some(v))
    else if id == 6 then s.(maxHeaderListSize := Some(v))
    else s
  }

  function ReadSettings(s: Settings, payload: bytes): (r: Settings)
    requires |payload| % 6 == 0
    decreases |payload|
  {
    if payload == [] then s
    else ReadSettings(ApplySetting(s, GetU16(payload), GetU32(payload[2..])), payload[6..])
  }

  function ParseSettings(flags: byte, payload: bytes): (r: Result<Frame>) {
    if Flag(flags, 0x1) && |payload| != 0 then FrameSize(SettingsAckNotEmpty)
    else if |payload| % 6 != 0 then FrameSize(BadSettingsSize)
    else Ok(SettingsFrame(Flag(flags, 0x1), ReadSettings(NO_SETTINGS, payload)))
  }

  /** A known frame type, by its number. */
  function ParseKnown(typeId: byte, flags: byte, id: nat, payload: bytes): (r: Result<Frame>)
    requires typeId <= 9
  {
    if typeId == 0 then
      match ReadPadded(payload, Flag(flags, 0x8)) case Ok(data) => Ok(Data(id, data, Flag(flags, 0x1))) case Err(e) => Err(e)
    else if typeId == 1 then ParseHeaders(flags, id, payload)
    else if typeId == 2 then
      if |payload| != 5 then FrameSize(BadPrioritySize) else Ok(Prioritize(id, ReadPriority(payload)))
    else if typeId == 3 then
      if |payload| != 4 then FrameSize(BadRstSize) else Ok(RstStream(id, GetU32(payload)))
    else if typeId == 4 then ParseSettings(flags, payload)
    else if typeId == 5 then ParsePushPromise(flags, id, payload)
    else if typeId == 6 then
      if |payload| != 8 then FrameSize(BadPingSize) else Ok(Ping(Flag(flags, 0x1), payload))
    else if typeId == 7 then
      if |payload| < 8 then FrameSize(GoawayTooShort)
      else Ok(Goaway(GetU32(payload) % U31, GetU32(payload[4..]), payload[8..]))
    else if typeId == 8 then
      if |payload| != 4 then FrameSize(BadWindowUpdateSize) else Ok(WindowUpdate(id, GetU32(payload) % U31))
    else Ok(Continuation(id, payload, Flag(flags, 0x4)))
  }

  /** `Ok(None)` is an unknown frame type, to be skipped. */
  function ParsePayload(typeId: byte, flags: byte, id: nat, payload: bytes): (r: Result<Option<Frame>>) {
    if typeId > 9 then Ok(None)
    else match ParseKnown(typeId, flags, id, payload) case Ok(f) => Ok(Some(f)) case Err(e) => Err(e)
  }

  // --- the round trip ---

  predicate GoodPriority(p: Priority) {
    TypedPriority(p) && p.dependency < U31 && p.weight <= 256
  }

  /** What survives the wire: 31-bit ids and increments, weights up to 256, empty ACKs, 24-bit lengths. */
  predicate WellFormed(f: Frame)
    requires Typed(f)
  {
    && |EncodeBody(f).payload| < U24_LIMIT
    && EncodeBody(f).streamId < U31
    && (f.Headers? && f.priority.Some? ==> GoodPriority(f.priority.value))
    && (f.Prioritize? ==> GoodPriority(f.weighting))
    && (f.SettingsFrame? && f.ack ==> f.settings == NO_SETTINGS)
    && (f.PushPromise? ==> f.promisedId < U31)
    && (f.Goaway? ==> f.lastStreamId < U31)
    && (f.WindowUpdate? ==> f.increment < U31)
  }

  lemma PriorityRoundTrip(p: Priority, rest: bytes)
    requires TypedPriority(p)
    ensures |PriorityBytes(p) + rest| >= 5 && (PriorityBytes(p) + rest)[5..] == rest
    ensures ReadPriority(PriorityBytes(p) + rest) == p <==> GoodPriority(p)
  {
    hide U32, GetU32, PriorityWord;
    var tail := [(p.weight - 1) % 256] + rest;
    assert PriorityBytes(p) + rest == U32(PriorityWord(p)) + tail;
    U32RoundTrip(PriorityWord(p), tail);
  }

  lemma SettingRoundTrip(s: Settings, id: nat, v: Option<nat>, rest: bytes)
    requires id < 0x1_0000 && TypedSetting(v) && |rest| % 6 == 0
    ensures ReadSettings(s, SettingBytes(id, v) + rest)
         == ReadSettings(if v.Some? then ApplySetting(s, id, v.value) else s, rest)
  {
    var all := SettingBytes(id, v) + rest;
    if v.Some? {
      assert all == U16(id) + (U32(v.value) + rest);
      U16RoundTrip(id, U32(v.value) + rest);
      U32RoundTrip(v.value, rest);
      assert all[6..] == all[2..][4..];
    } else {
      assert all == rest;
    }
  }

  /** The last three settings, from what the first three have left. */
  function LastBytes(s: Settings): (b: bytes)
    requires TypedSettings(s)
    ensures |b| % 6 == 0
  {
    SettingBytes(4, s.initialWindowSize) + (SettingBytes(5, s.maxFrameSize) + SettingBytes(6, s.maxHeaderListSize))
  }

  lemma LastRoundTrip(s: Settings)
    requires TypedSettings(s)
    ensures ReadSettings(s.(initialWindowSize := None, maxFrameSize := None, maxHeaderListSize := None), LastBytes(s)) == s
  {
    hide SettingBytes, ReadSettings;
    var six := SettingBytes(6, s.maxHeaderListSize);
    var five := SettingBytes(5, s.maxFrameSize) + six;
    var s3 := s.(initialWindowSize := None, maxFrameSize := None, maxHeaderListSize := None);
    SettingRoundTrip(s3, 4, s.initialWindowSize, five);
    var s4 := s3.(initialWindowSize := s.initialWindowSize);
    SettingRoundTrip(s4, 5, s.maxFrameSize, six);
    assert six == six + [];
    SettingRoundTrip(s4.(maxFrameSize := s.maxFrameSize), 6, s.maxHeaderListSize, []);
    ReadNothing(s);
  }

  lemma SettingsInParts(s: Settings)
    requires TypedSettings(s)
    ensures SettingsBytes(s) == SettingBytes(1, s.headerTableSize)
         + (SettingBytes(2, PushSetting(s.enablePush)) + (SettingBytes(3, s.maxConcurrentStreams) + LastBytes(s)))
  {
    hide SettingBytes, SettingCount;
  }

  lemma SettingsRoundTrip(s: Settings)
    requires TypedSettings(s)
    ensures ReadSettings(NO_SETTINGS, SettingsBytes(s)) == s
  {
    hide SettingBytes, SettingsBytes, ReadSettings, LastBytes, SettingCount;
    var three := SettingBytes(3, s.maxConcurrentStreams) + LastBytes(s);
    var two := SettingBytes(2, PushSetting(s.enablePush)) + three;
    SettingsInParts(s);
    SettingRoundTrip(NO_SETTINGS, 1, s.headerTableSize, two);
    var s1 := NO_SETTINGS.(headerTableSize := s.headerTableSize);
    SettingRoundTrip(s1, 2, PushSetting(s.enablePush), three);
    SettingRoundTrip(s1.(enablePush := s.enablePush), 3, s.maxConcurrentStreams, LastBytes(s));
    LastRoundTrip(s);
  }

  lemma ReadNothing(s: Settings)
    ensures ReadSettings(s, []) == s
  {
  }

  /** What the frame's own flags, stream id and payload parse to, the id cut to 31 bits. */
  function Reparse(f: Frame): (r: Result<Frame>)
    requires Typed(f)
  {
    var e := EncodeBody(f);
    ParseKnown(e.typeId, e.flags, e.streamId % U31, e.payload)
  }

  lemma HeadersBody(f: Frame)
    requires Typed(f) && f.Headers?
    ensures Reparse(f) == Ok(f) <==> f.streamId < U31 && (f.priority.Some? ==> GoodPriority(f.priority.value))
  {
    hide PriorityBytes, ReadPriority;
    assert f.fragment[..|f.fragment| - 0] == f.fragment;
    if f.priority.Some? {
      PriorityRoundTrip(f.priority.value, f.fragment);
    }
  }

  lemma PushPromiseBody(f: Frame)
    requires Typed(f) && f.PushPromise?
    ensures Reparse(f) == Ok(f) <==> f.streamId < U31 && f.promisedId < U31
  {
    hide U32, GetU32;
    U32RoundTrip(f.promisedId % U31, f.fragment);
    var payload := U32(f.promisedId % U31) + f.fragment;
    assert payload[4..|payload| - 0] == payload[4..];
  }

  lemma GoawayBody(f: Frame)
    requires Typed(f) && f.Goaway?
    ensures Reparse(f) == Ok(f) <==> f.lastStreamId < U31
  {
    hide U32, GetU32;
    var last := f.lastStreamId % U31;
    U32RoundTrip(last, U32(f.errorCode) + f.debugData);
    U32RoundTrip(f.errorCode, f.debugData);
    var payload := EncodeBody(f).payload;
    assert payload == U32(last) + (U32(f.errorCode) + f.debugData);
    assert payload[8..] == payload[4..][4..];
  }

  lemma SettingsBody(f: Frame)
    requires Typed(f) && f.SettingsFrame?
    ensures Reparse(f) == Ok(f) <==> (f.ack ==> f.settings == NO_SETTINGS)
  {
    hide SettingsBytes, ReadSettings, SettingCount;
    SettingsRoundTrip(f.settings);
  }

  lemma FixedBody(f: Frame)
    requires Typed(f) && (f.Prioritize? || f.RstStream? || f.WindowUpdate?)
    ensures Reparse(f) == Ok(f) <==> f.streamId < U31 && (f.Prioritize? ==> GoodPriority(f.weighting))
                                     && (f.WindowUpdate? ==> f.increment < U31)
  {
    hide U32, GetU32, PriorityBytes, ReadPriority;
    if f.Prioritize? {
      PriorityRoundTrip(f.weighting, []);
      assert PriorityBytes(f.weighting) + [] == PriorityBytes(f.weighting);
    } else {
      var word := if f.RstStream? then f.errorCode else f.increment % U31;
      U32RoundTrip(word, []);
      assert U32(word) + [] == U32(word);
    }
  }

  /** Apart from the payload length, a frame survives exactly when it is well formed. */
  lemma BodyRoundTrip(f: Frame)
    requires Typed(f) && |EncodeBody(f).payload| < U24_LIMIT
    ensures Reparse(f) == Ok(f) <==> WellFormed(f)
  {
    match f
    case Headers(_, _, _, _, _) => hide Reparse; HeadersBody(f);
    case PushPromise(_, _, _, _) => hide Reparse; PushPromiseBody(f);
    case Goaway(_, _, _) => hide Reparse; GoawayBody(f);
    case SettingsFrame(_, _) => hide Reparse; SettingsBody(f);
    case Prioritize(_, _) => hide Reparse; FixedBody(f);
    case RstStream(_, _) => hide Reparse; FixedBody(f);
    case WindowUpdate(_, _) => hide Reparse; FixedBody(f);
    case Data(_, _, _) =>
    case Ping(_, _) =>
    case Continuation(_, _, _) =>
  }
}
