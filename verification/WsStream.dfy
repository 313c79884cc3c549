/** The WebSocket as a byte stream: what the application reads, and the answers on the way. */
module WsStream {
  import opened Common
  import opened Bytes
  import opened WsFrames

  /** Why the connection ended, as recorded. */
  datatype Cause = ByPeer(text: bytes) | ByViolation(violation: Violation) | ByDrop | ByCut
  datatype CloseReason = CloseReason(code: nat, cause: Cause)

  /** The data frame being streamed: octets left, its key, and the position in the key. */
  datatype State = State(remaining: nat, key: Key, pos: nat)

  /**
   * All that is still to come: the data, the frames written in answer, and how it ends. The
   * answers to a peer's close or to a violation are the last frame written.
   */
  datatype Outcome = Outcome(data: bytes, written: seq<bytes>, error: Error, reason: CloseReason)

  function ParseClose(payload: bytes): (r: (nat, bytes))
    ensures r.0 < 0x1_0000
  {
    if |payload| < 2 then (1005, []) else (GetU16(payload), payload[2..])
  }

  /** The record and the answer for an error of the reading side. */
  function ErrorReason(e: Error): (r: CloseReason) {
    match e
    case Protocol(v) => CloseReason(1002, ByViolation(v))
    case Eof => CloseReason(1006, ByDrop)
    case CutOff => CloseReason(1006, ByCut)
  }

  function ErrorAnswer(e: Error): (frames: seq<bytes>) {
    if e.Protocol? then [CloseFrame(1002)] else []
  }

  function Ended(e: Error): (o: Outcome) {
    Outcome([], ErrorAnswer(e), e, ErrorReason(e))
  }

  function EndedByPeer(payload: bytes): (o: Outcome) {
    var (code, text) := ParseClose(payload);
    Outcome([], [CloseFrame(code)], Eof, CloseReason(code, ByPeer(text)))
  }

  function Then(data: bytes, written: seq<bytes>, o: Outcome): (o': Outcome) {
    o.(data := data + o.data, written := written + o.written)
  }

  predicate IsData(opcode: byte) {
    opcode == CONTINUATION || opcode == TEXT || opcode == BINARY
  }

  /** A control frame's payload, or the error that cut it off. */
  function Control(h: Header): (r: Filled)
    requires h.Header?
    ensures r.Filled? ==> |r.rest| <= |h.rest| && |r.taken| == h.length
  {
    match ReadFull(h.rest, h.length)
    case Short(e) => Short(e)
    case Filled(masked, rest) => Filled(Mask(h.key, 0, masked), rest)
  }

  function Meaning(s: State, input: bytes): (o: Outcome)
    decreases |input|
  {
    if s.remaining > 0 then
      if input == [] then Ended(Eof)
      else Then([Xor(input[0], s.key[s.pos % 4])], [], Meaning(State(s.remaining - 1, s.key, s.pos + 1), input[1..]))
    else
      var h := ReadHeader(input);
      if h.BadHeader? then Ended(h.error)
      else if IsData(h.opcode) then Meaning(State(h.length, h.key, 0), h.rest)
      else if h.opcode == PING || h.opcode == PONG then
        match Control(h)
        case Short(e) => Ended(e)
        case Filled(payload, rest) =>
          Then([], if h.opcode == PING then [ServerFrame(PONG, payload)] else [],
               Meaning(State(0, h.key, 0), rest))
      else if h.opcode == CLOSE then
        match Control(h)
        case Short(_) => EndedByPeer([])
        case Filled(payload, _) => EndedByPeer(payload)
      else Ended(Protocol(ReservedOpcode))
  }

  lemma ControlIsShort(input: bytes)
    requires ReadHeader(input).Header? && ReadHeader(input).opcode >= 8
    ensures ReadHeader(input).length <= 125
  {
  }

  lemma ThenThen(a: bytes, v: seq<bytes>, b: bytes, w: seq<bytes>, o: Outcome)
    ensures Then(a, v, Then(b, w, o)) == Then(a + b, v + w, o)
  {
    assert a + (b + o.data) == a + b + o.data;
    assert v + (w + o.written) == v + w + o.written;
  }

  lemma AnswersThen(v: seq<bytes>, w: seq<bytes>, o: Outcome)
    ensures Then([], v, Then([], w, o)) == Then([], v + w, o)
  {
    ThenThen([], v, [], w, o);
    assert ([] + []) + o.data == [] + o.data;
  }

  lemma ThenNothing(o: Outcome)
    ensures Then([], [], o) == o
  {
    assert [] + o.data == o.data && [] + o.written == o.written;
  }

  /** Between frames the key and the position do not matter. */
  lemma BetweenFrames(k: Key, p: nat, k': Key, p': nat, input: bytes)
    ensures Meaning(State(0, k, p), input) == Meaning(State(0, k', p'), input)
  {
    hide ReadHeader, Control;
  }

  /** Inside a frame only the position modulo four matters. */
  lemma {:induction false} PositionModFour(s: State, p: nat, input: bytes)
    requires s.pos % 4 == p % 4
    ensures Meaning(s, input) == Meaning(s.(pos := p), input)
    decreases |input|
  {
    hide ReadHeader, Control, Xor;
    if s.remaining == 0 {
      BetweenFrames(s.key, s.pos, s.key, p, input);
    } else if input != [] {
      assert (s.pos + 1) % 4 == (p + 1) % 4;
      PositionModFour(State(s.remaining - 1, s.key, s.pos + 1), p + 1, input[1..]);
    }
  }

  /** Reading part of a data frame hands out that part, unmasked, and goes on from there. */
  lemma {:induction false} TakeData(s: State, input: bytes, m: nat)
    requires m <= s.remaining && m <= |input|
    ensures Meaning(s, input)
         == Then(Mask(s.key, s.pos, input[..m]), [], Meaning(State(s.remaining - m, s.key, s.pos + m), input[m..]))
    decreases m
  {
    hide ReadHeader, Control, Xor;
    if m == 0 {
      assert input[0..] == input;
      ThenNothing(Meaning(s, input));
    } else {
      var next := State(s.remaining - 1, s.key, s.pos + 1);
      TakeData(next, input[1..], m - 1);
      assert input[..m][1..] == input[1..][..m - 1] && input[1..][m - 1..] == input[m..];
      ThenThen([Xor(input[0], s.key[s.pos % 4])], [], Mask(s.key, s.pos + 1, input[1..][..m - 1]), [],
               Meaning(State(s.remaining - m, s.key, s.pos + m), input[m..]));
    }
  }

  // --- what a client sends ---

  /** The three length forms; a longer form than needed is allowed. */
  datatype Form = Seven | Sixteen | SixtyFour

  predicate FormFits(form: Form, n: nat) {
    match form
    case Seven => n <= 125
    case Sixteen => n <= 0xffff
    case SixtyFour => n <= MAX_INT64
  }

  datatype ClientFrame = ClientFrame(fin: bool, opcode: byte, key: Key, payload: bytes, form: Form)

  predicate WellFormed(f: ClientFrame) {
    && f.opcode < 16 && FormFits(f.form, |f.payload|)
    && (IsData(f.opcode) || ((f.opcode == PING || f.opcode == PONG || f.opcode == CLOSE) && f.fin && |f.payload| <= 125))
  }

  function LengthBytes(form: Form, n: nat): (b: bytes)
    requires FormFits(form, n)
    ensures |b| >= 1
  {
    match form
    case Seven => [128 + n]
    case Sixteen => [128 + 126] + U16(n)
    case SixtyFour => [128 + 127] + U64(n)
  }

  function ClientHead(f: ClientFrame): (b: bytes)
    requires WellFormed(f)
    ensures |b| >= 6
  {
    [(if f.fin then 128 else 0) + f.opcode as int] + LengthBytes(f.form, |f.payload|) + f.key
  }

  function ClientBytes(f: ClientFrame): (b: bytes)
    requires WellFormed(f)
  {
    ClientHead(f) + Mask(f.key, 0, f.payload)
  }

  function AllBytes(fs: seq<ClientFrame>): (b: bytes)
    requires forall i :: 0 <= i < |fs| ==> WellFormed(fs[i])
  {
    if fs == [] then [] else ClientBytes(fs[0]) + AllBytes(fs[1..])
  }

  /** The data payloads put together, and the pongs owed for the pings. */
  function DataOf(fs: seq<ClientFrame>): (data: bytes) {
    if fs == [] then [] else (if IsData(fs[0].opcode) then fs[0].payload else []) + DataOf(fs[1..])
  }

  function PongFor(f: ClientFrame): (pongs: seq<bytes>)
    requires WellFormed(f)
  {
    if f.opcode == PING && |f.payload| <= 125 then [ServerFrame(PONG, f.payload)] else []
  }

  function PongsOf(fs: seq<ClientFrame>): (pongs: seq<bytes>)
    requires forall i :: 0 <= i < |fs| ==> WellFormed(fs[i])
  {
    if fs == [] then [] else PongFor(fs[0]) + PongsOf(fs[1..])
  }

  lemma ReadClientLength(form: Form, n: nat, tail: bytes)
    requires FormFits(form, n)
    ensures var b := LengthBytes(form, n) + tail;
            b[0] >= 128 && ReadLength(b[0] % 128, b[1..]) == Length(n, tail)
  {
    hide U64, GetU64, U16, GetU16;
    var b := LengthBytes(form, n) + tail;
    match form
    case Seven => assert b[1..] == tail;
    case Sixteen =>
      assert b[1..] == U16(n) + tail && (U16(n) + tail)[..2] == U16(n) && (U16(n) + tail)[2..] == tail;
      U16RoundTrip(n, []);
      assert U16(n) + [] == U16(n);
    case SixtyFour =>
      assert b[1..] == U64(n) + tail && (U64(n) + tail)[..8] == U64(n) && (U64(n) + tail)[8..] == tail;
      U64RoundTrip(n, []);
      assert U64(n) + [] == U64(n);
  }

  lemma ReadClientHeader(f: ClientFrame, tail: bytes)
    requires WellFormed(f)
    ensures ReadHeader(ClientHead(f) + tail) == Header(f.opcode, |f.payload|, f.key, tail)
  {
    hide ReadLength, LengthBytes;
    var n := |f.payload|;
    var first: byte := (if f.fin then 128 else 0) + f.opcode as int;
    var rest := LengthBytes(f.form, n) + (f.key + tail);
    ReadClientLength(f.form, n, f.key + tail);
    var input := ClientHead(f) + tail;
    assert input == [first] + rest;
    assert input[..2] == [first, rest[0]] && input[2..] == rest[1..];
    assert (f.key + tail)[..4] == f.key && (f.key + tail)[4..] == tail;
    assert first / 16 % 8 == 0 && first % 16 == f.opcode;
  }

  lemma OneFrame(f: ClientFrame, k: Key, p: nat, tail: bytes)
    requires WellFormed(f) && f.opcode != CLOSE
    ensures Meaning(State(0, k, p), ClientBytes(f) + tail)
         == Then(if IsData(f.opcode) then f.payload else [],
                 PongFor(f),
                 Meaning(State(0, f.key, 0), tail))
  {
    assert f.opcode == PING ==> |f.payload| <= 125;
    hide ReadHeader, ClientHead, Mask, Xor;
    var masked := Mask(f.key, 0, f.payload);
    assert ClientBytes(f) + tail == ClientHead(f) + (masked + tail);
    ReadClientHeader(f, masked + tail);
    assert (masked + tail)[..|f.payload|] == masked && (masked + tail)[|f.payload|..] == tail;
    MaskTwice(f.key, 0, f.payload);
    if IsData(f.opcode) {
      TakeData(State(|f.payload|, f.key, 0), masked + tail, |f.payload|);
      BetweenFrames(f.key, |f.payload|, f.key, 0, tail);
    }
  }

  /**
   * For every sequence of masked client frames, data of any opcode and fragmentation with pings
   * and pongs between, in any length forms: the application reads exactly the data payloads in
   * order, each ping is answered by a pong with its payload, in order, and then comes the rest.
   */
  lemma {:induction false} ReadsFrames(fs: seq<ClientFrame>, k: Key, p: nat, tail: bytes)
    requires forall i :: 0 <= i < |fs| ==> WellFormed(fs[i]) && fs[i].opcode != CLOSE
    ensures Meaning(State(0, k, p), AllBytes(fs) + tail) == Then(DataOf(fs), PongsOf(fs), Meaning(State(0, k, p), tail))
    decreases |fs|
  {
    hide Meaning, ClientBytes, ServerFrame, WellFormed, PongFor;
    if fs == [] {
      assert [] + tail == tail;
      ThenNothing(Meaning(State(0, k, p), tail));
    } else {
      var f := fs[0];
      var rest := AllBytes(fs[1..]) + tail;
      assert AllBytes(fs) + tail == ClientBytes(f) + rest;
      OneFrame(f, k, p, rest);
      ReadsFrames(fs[1..], f.key, 0, tail);
      BetweenFrames(f.key, 0, k, p, tail);
      ThenThen(if IsData(f.opcode) then f.payload else [], PongFor(f),
               DataOf(fs[1..]), PongsOf(fs[1..]), Meaning(State(0, k, p), tail));
    }
  }

  /** A close frame ends the stream cleanly: its code is recorded and echoed. */
  lemma ReadsClose(f: ClientFrame, k: Key, p: nat, tail: bytes)
    requires WellFormed(f) && f.opcode == CLOSE
    ensures Meaning(State(0, k, p), ClientBytes(f) + tail) == EndedByPeer(f.payload)
  {
    hide ReadHeader, ClientHead, Mask, Xor;
    var masked := Mask(f.key, 0, f.payload);
    assert ClientBytes(f) + tail == ClientHead(f) + (masked + tail);
    ReadClientHeader(f, masked + tail);
    assert (masked + tail)[..|f.payload|] == masked && (masked + tail)[|f.payload|..] == tail;
    MaskTwice(f.key, 0, f.payload);
  }

  /**
   * The six violations, in the order they are looked for, in a header that is all there; the
   * first two as soon as two octets are. Each ends the stream with 1002; no input at all with 1006.
   */
  lemma ReadsViolation(k: Key, p: nat, h0: byte, h1: byte, tail: bytes)
    ensures Meaning(State(0, k, p), []) == Outcome([], [], Eof, CloseReason(1006, ByDrop))
    ensures h0 / 16 % 8 != 0 || h1 < 128 ==>
              Meaning(State(0, k, p), [h0, h1] + tail) == Ended(Protocol(if h0 / 16 % 8 != 0 then ReservedBits else Unmasked))
    ensures |tail| >= 12 && ViolationIn(h0, h1, tail).Some? ==>
              var v := ViolationIn(h0, h1, tail).value;
              Meaning(State(0, k, p), [h0, h1] + tail)
              == Outcome([], [CloseFrame(1002)], Protocol(v), CloseReason(1002, ByViolation(v)))
    ensures |tail| >= 12 && ViolationIn(h0, h1, tail).None? ==>
              var h := ReadHeader([h0, h1] + tail); h.Header? && (IsData(h.opcode) || IsControl(h.opcode))
  {
    EarlyViolation(h0, h1, tail);
    hide ReadHeader, ViolationIn, CloseFrame, Control;
    if |tail| >= 12 {
      HeaderViolates(h0, h1, tail);
    }
  }

  lemma EarlyViolation(h0: byte, h1: byte, tail: bytes)
    ensures ReadHeader([]) == BadHeader(Eof)
    ensures h0 / 16 % 8 != 0 || h1 < 128 ==>
              ReadHeader([h0, h1] + tail) == BadHeader(Protocol(if h0 / 16 % 8 != 0 then ReservedBits else Unmasked))
  {
    assert ([h0, h1] + tail)[..2] == [h0, h1];
  }

  lemma HeaderViolates(h0: byte, h1: byte, tail: bytes)
    requires |tail| >= 12
    ensures var v, h := ViolationIn(h0, h1, tail), ReadHeader([h0, h1] + tail);
            if v == Some(ReservedOpcode) then h.Header? && !IsData(h.opcode) && !IsControl(h.opcode)
            else if v.Some? then h == BadHeader(Protocol(v.value))
            else h.Header? && (IsData(h.opcode) || IsControl(h.opcode))
  {
    var input := [h0, h1] + tail;
    assert input[..2] == [h0, h1] && input[2..] == tail;
    ExtendedLength(tail);
    hide GetU16, GetU64;
  }

  predicate IsControl(opcode: byte) {
    opcode == PING || opcode == PONG || opcode == CLOSE
  }

  function ViolationIn(h0: byte, h1: byte, tail: bytes): (v: Option<Violation>)
    requires |tail| >= 8
  {
    var fin, opcode, short := h0 >= 128, h0 % 16, h1 % 128;
    if h0 / 16 % 8 != 0 then Some(ReservedBits)
    else if h1 < 128 then Some(Unmasked)
    else if short == 127 && GetU64(tail) > 0x7fff_ffff_ffff_ffff then Some(LengthOverflow)
    else if opcode >= 8 && !fin then Some(FragmentedControl)
    else if opcode >= 8 && ((short == 127 && GetU64(tail) > 125) || (short == 126 && GetU16(tail) > 125)) then Some(LongControl)
    else if opcode !in [0, 1, 2, 8, 9, 10] then Some(ReservedOpcode)
    else None
  }

  lemma ExtendedLength(tail: bytes)
    requires |tail| >= 8
    ensures GetU16(tail[..2]) == GetU16(tail) && GetU64(tail[..8]) == GetU64(tail)
  {
    var b := tail[..8];
    assert b[4..] == tail[4..8];
    assert b[2..] == tail[2..8] && b[4..][2..] == tail[6..8] && tail[4..][2..] == tail[6..];
  }

  // --- every input is one of these ---

  /** Not a whole frame that reading goes on from. */
  predicate Final(tail: bytes) {
    var h := ReadHeader(tail);
    h.BadHeader? || (!IsData(h.opcode) && h.opcode != PING && h.opcode != PONG) || |h.rest| < h.length
  }

  /** How the stream ends there: an error in the header, a close, a reserved opcode, or a frame cut off. */
  function LastWords(tail: bytes): (o: Outcome)
    requires Final(tail)
  {
    var h := ReadHeader(tail);
    if h.BadHeader? then Ended(h.error)
    else if h.opcode == CLOSE then
      EndedByPeer(if h.length <= |h.rest| then Mask(h.key, 0, h.rest[..h.length]) else [])
    else if !IsData(h.opcode) && !IsControl(h.opcode) then Ended(Protocol(ReservedOpcode))
    else if IsData(h.opcode) then Ended(Eof).(data := Mask(h.key, 0, h.rest))
    else Ended(if h.rest == [] then Eof else CutOff)
  }

  lemma FinalMeaning(k: Key, p: nat, tail: bytes)
    requires Final(tail)
    ensures Meaning(State(0, k, p), tail) == LastWords(tail)
  {
    hide ReadHeader, Mask, Xor;
    var h := ReadHeader(tail);
    if h.Header? && IsData(h.opcode) {
      assert h.rest[..|h.rest|] == h.rest && h.rest[|h.rest|..] == [];
      TakeData(State(h.length, h.key, 0), h.rest, |h.rest|);
      var s := State(h.length - |h.rest|, h.key, |h.rest|);
      assert Meaning(s, []) == Ended(Eof);
      assert Mask(h.key, 0, h.rest) + [] == Mask(h.key, 0, h.rest);
    }
  }

  function FormOf(short: nat): (form: Form) {
    if short == 126 then Sixteen else if short == 127 then SixtyFour else Seven
  }

  /** The frame at the front of an input that is not final. */
  function FrontFrame(input: bytes): (f: ClientFrame)
    requires !Final(input)
  {
    var h := ReadHeader(input);
    ClientFrame(input[0] >= 128, h.opcode, h.key, Mask(h.key, 0, h.rest[..h.length]), FormOf(input[1] % 128))
  }

  /** What follows it. */
  function Remainder(input: bytes): (rest: bytes)
    requires !Final(input)
    ensures |rest| < |input|
  {
    ReadHeader(input).rest[ReadHeader(input).length..]
  }

  lemma LengthBack(short: nat, input: bytes)
    requires short < 128 && ReadLength(short, input).Length?
    ensures var r := ReadLength(short, input);
            FormFits(FormOf(short), r.length) && [128 + short as int] + input == LengthBytes(FormOf(short), r.length) + r.rest
  {
    hide U16, GetU16, U64, GetU64;
    if short == 126 {
      U16Back(input[..2]);
      assert input == input[..2] + input[2..];
    } else if short == 127 {
      U64Back(input[..8]);
      assert input == input[..8] + input[8..];
    }
  }

  lemma HeaderBack(input: bytes)
    requires ReadHeader(input).Header?
    ensures var h, form := ReadHeader(input), FormOf(input[1] % 128);
            && |input| >= 2 && FormFits(form, h.length)
            && input == [(if input[0] >= 128 then 128 else 0) + h.opcode as int] + LengthBytes(form, h.length) + h.key + h.rest
            && (h.opcode >= 8 ==> input[0] >= 128 && h.length <= 125)
  {
    hide ReadLength, LengthBytes;
    var h, rest := ReadHeader(input), input[2..];
    var l := ReadLength(input[1] % 128, rest);
    LengthBack(input[1] % 128, rest);
    assert input == [input[0]] + ([input[1]] + rest);
    assert l.rest == h.key + h.rest;
    assert LengthBytes(FormOf(input[1] % 128), l.length) + l.rest
        == LengthBytes(FormOf(input[1] % 128), l.length) + h.key + h.rest;
  }

  /** An input that is not final begins with a well-formed frame. */
  lemma FrontBack(input: bytes)
    requires !Final(input)
    ensures var f := FrontFrame(input);
            && WellFormed(f) && f.opcode != CLOSE && input == ClientBytes(f) + Remainder(input)
  {
    hide ReadHeader, LengthBytes, Mask;
    var f, h := FrontFrame(input), ReadHeader(input);
    HeaderBack(input);
    var masked := h.rest[..h.length];
    MaskTwice(h.key, 0, masked);
    assert h.rest == masked + h.rest[h.length..];
  }

  /** One that begins with such a frame is not final, and that frame is its front. */
  lemma FrontUnique(f: ClientFrame, tail: bytes)
    requires WellFormed(f) && f.opcode != CLOSE
    ensures var input := ClientBytes(f) + tail;
            !Final(input) && FrontFrame(input) == f && Remainder(input) == tail
  {
    hide ReadHeader, Mask;
    var masked := Mask(f.key, 0, f.payload);
    var input := ClientBytes(f) + tail;
    assert input == ClientHead(f) + (masked + tail);
    ReadClientHeader(f, masked + tail);
    assert (masked + tail)[..|f.payload|] == masked && (masked + tail)[|f.payload|..] == tail;
    MaskTwice(f.key, 0, f.payload);
  }

  ghost predicate Splits(input: bytes, fs: seq<ClientFrame>, tail: bytes) {
    && (forall i :: 0 <= i < |fs| ==> WellFormed(fs[i]) && fs[i].opcode != CLOSE)
    && Final(tail) && input == AllBytes(fs) + tail
  }

  /** Every input is frames to go on from and then a final rest, */
  lemma {:induction false} SplitsSomehow(input: bytes) returns (fs: seq<ClientFrame>, tail: bytes)
    ensures Splits(input, fs, tail)
    decreases |input|
  {
    hide Final, WellFormed, ClientBytes, FrontFrame, Remainder;
    if Final(input) {
      fs, tail := [], input;
      assert AllBytes([]) + input == input;
    } else {
      var f := FrontFrame(input);
      FrontBack(input);
      fs, tail := SplitsSomehow(Remainder(input));
      assert ([f] + fs)[1..] == fs;
      assert AllBytes([f] + fs) + tail == ClientBytes(f) + (AllBytes(fs) + tail);
      fs := [f] + fs;
    }
  }

  /** and in one way only. */
  lemma {:induction false} SplitsOnce(input: bytes, fs: seq<ClientFrame>, tail: bytes, gs: seq<ClientFrame>, rest: bytes)
    requires Splits(input, fs, tail) && Splits(input, gs, rest)
    ensures fs == gs && tail == rest
    decreases |fs|
  {
    hide Final, WellFormed, ClientBytes, FrontFrame, Remainder;
    if fs != [] {
      FrontOf(input, fs, tail);
    }
    if gs != [] {
      FrontOf(input, gs, rest);
    }
    if fs == [] || gs == [] {
      assert AllBytes([]) + tail == tail && AllBytes([]) + rest == rest;
    } else {
      SplitsOnce(AllBytes(fs[1..]) + tail, fs[1..], tail, gs[1..], rest);
      assert fs == [fs[0]] + fs[1..] && gs == [gs[0]] + gs[1..];
    }
  }

  lemma FrontOf(input: bytes, fs: seq<ClientFrame>, tail: bytes)
    requires Splits(input, fs, tail) && fs != []
    ensures !Final(input) && FrontFrame(input) == fs[0]
    ensures Remainder(input) == AllBytes(fs[1..]) + tail
    ensures Splits(AllBytes(fs[1..]) + tail, fs[1..], tail)
  {
    hide Final, WellFormed, ClientBytes, FrontFrame, Remainder;
    assert input == ClientBytes(fs[0]) + (AllBytes(fs[1..]) + tail);
    FrontUnique(fs[0], AllBytes(fs[1..]) + tail);
  }

  /** A close from the peer, echoed; one violation, answered by 1002; or the end of the input, with no answer. */
  ghost predicate EndsOneWay(o: Outcome) {
    || (o.data == [] && o.error == Eof && o.reason.cause.ByPeer? && o.reason.code < 0x1_0000 && o.written == [CloseFrame(o.reason.code)])
    || (o.data == [] && o.error.Protocol? && o.reason == CloseReason(1002, ByViolation(o.error.violation))
        && o.written == [CloseFrame(1002)])
    || (o.error == Eof && o.reason == CloseReason(1006, ByDrop) && o.written == [])
    || (o.data == [] && o.error == CutOff && o.reason == CloseReason(1006, ByCut) && o.written == [])
  }

  lemma LastWordsOneWay(tail: bytes)
    requires Final(tail)
    ensures EndsOneWay(LastWords(tail))
  {
    hide ReadHeader, CloseFrame, Mask;
  }

  /**
   * Every input whatever, and in one way only, is well-formed frames and then an end: the frames
   * are read and answered as they should be, and then the stream ends with the peer's close, with
   * one violation and a 1002 close as the last frame written, or with the end of the input.
   */
  lemma ReadsAnything(k: Key, p: nat, input: bytes) returns (fs: seq<ClientFrame>, tail: bytes)
    ensures Splits(input, fs, tail) && forall gs, rest :: Splits(input, gs, rest) ==> gs == fs && rest == tail
    ensures Meaning(State(0, k, p), input) == Then(DataOf(fs), PongsOf(fs), LastWords(tail)) && EndsOneWay(LastWords(tail))
  {
    hide Final, Meaning, WellFormed, LastWords, AllBytes;
    fs, tail := SplitsSomehow(input);
    forall gs, rest | Splits(input, gs, rest)
      ensures gs == fs && rest == tail
    {
      SplitsOnce(input, gs, rest, fs, tail);
    }
    ReadsFrames(fs, k, p, tail);
    FinalMeaning(k, p, tail);
    LastWordsOneWay(tail);
  }
}
