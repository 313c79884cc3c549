/** The octets of WebSocket frames, as section 5.2 of RFC 6455 draws them, and what reading makes of them. */
module WsWire {
  import opened Common
  import opened Bytes
  import opened WsFrames
  import opened WsStream

  /** The mask bit and the length: seven bits, or 126 or 127 and the length in two or eight octets. */
  predicate LengthOctets(b: bytes, n: nat) {
    || (|b| == 1 && n <= 125 && b[0] == 0x80 + n)
    || (|b| == 3 && b[0] == 0xfe && BigEndian(b[1..]) == n)
    || (|b| == 9 && b[0] == 0xff && BigEndian(b[1..]) == n <= MAX_INT64)
  }

  /** Each octet of `y` is that of `x` and the key octet in its turn, the one or the other. */
  predicate MaskedWith(y: bytes, x: bytes, key: Key) {
    |y| == |x| && forall i :: 0 <= i < |x| ==> ExclusiveOr(y[i], x[i], key[i % 4])
  }

  function FormFrom(b: bytes): (form: Form)
    requires b != []
  {
    if b[0] == 0xfe then Sixteen else if b[0] == 0xff then SixtyFour else Seven
  }

  lemma LengthWritten(b: bytes, n: nat)
    requires LengthOctets(b, n)
    ensures FormFits(FormFrom(b), n) && LengthBytes(FormFrom(b), n) == b
  {
    hide U64, GetU64, U16;
    assert b == [b[0]] + b[1..];
    if |b| == 3 {
      Digits16(b[1..]);
      U16Back(b[1..]);
      assert b[1..][..2] == b[1..];
    } else if |b| == 9 {
      Digits64(b[1..]);
      U64Back(b[1..]);
      assert b[1..][..8] == b[1..];
    }
  }

  /** The frame that these octets are. */
  lemma FrameFrom(h0: byte, length: bytes, key: Key, masked: bytes) returns (f: ClientFrame)
    requires h0 / 16 % 8 == 0 && LengthOctets(length, |masked|)
    requires IsData(h0 % 16) || (0x88 <= h0 <= 0x8a && |masked| <= 125)
    ensures WellFormed(f) && f.opcode == h0 % 16 && f.key == key && ClientBytes(f) == [h0] + length + key + masked
    ensures MaskedWith(f.payload, masked, key)
  {
    hide Mask, LengthBytes, ExclusiveOr, LengthOctets;
    var payload := Mask(key, 0, masked);
    f := ClientFrame(h0 >= 128, h0 % 16, key, payload, FormFrom(length)) by { SomeOctets(length, |masked|); }
    LengthWritten(length, |masked|);
    MaskTwice(key, 0, masked);
    MaskOctets(key, 0, masked);
  }

  lemma SomeOctets(b: bytes, n: nat)
    requires LengthOctets(b, n)
    ensures b != []
  {
  }

  /** A data frame: the application gets exactly its octets, unmasked bit by bit, whatever its form. */
  lemma ReadsMasked(h0: byte, length: bytes, key: Key, masked: bytes, k: Key, p: nat, tail: bytes) returns (payload: bytes)
    requires h0 / 16 % 8 == 0 && h0 % 16 <= 2 && LengthOctets(length, |masked|)
    ensures MaskedWith(payload, masked, key)
    ensures Meaning(State(0, k, p), [h0] + length + key + masked + tail) == Then(payload, [], Meaning(State(0, k, p), tail))
  {
    hide Meaning, ClientBytes, LengthOctets, WellFormed, MaskedWith;
    var f := FrameFrom(h0, length, key, masked);
    payload := f.payload;
    OneFrame(f, k, p, tail);
    BetweenFrames(f.key, 0, k, p, tail);
  }

  /** A ping is answered with a pong of its unmasked octets; a pong passes. */
  lemma AnswersPing(h0: byte, length: bytes, key: Key, masked: bytes, k: Key, p: nat, tail: bytes) returns (payload: bytes)
    requires h0 in [0x89, 0x8a] && |masked| <= 125 && LengthOctets(length, |masked|)
    ensures MaskedWith(payload, masked, key)
    ensures Meaning(State(0, k, p), [h0] + length + key + masked + tail)
         == Then([], if h0 == 0x89 then [[0x8a, |masked|] + payload] else [], Meaning(State(0, k, p), tail))
  {
    hide Meaning, ClientBytes, LengthOctets, MaskedWith;
    var f := FrameFrom(h0, length, key, masked);
    payload := f.payload;
    assert |payload| == |masked| by { SameLength(payload, masked, key); }
    OneFrame(f, k, p, tail);
    BetweenFrames(f.key, 0, k, p, tail);
    if h0 == 0x89 {
      assert ServerFrame(PONG, payload) == [0x8a, |masked|] + payload;
    }
  }

  lemma SameLength(y: bytes, x: bytes, key: Key)
    requires MaskedWith(y, x, key)
    ensures |y| == |x|
  {
  }

  /**
   * A close: its code is its first two octets, 1005 if there are none; it is echoed if it may be
   * sent, and otherwise the answer is empty; what follows the code is the text.
   */
  lemma AnswersClose(length: bytes, key: Key, masked: bytes, k: Key, p: nat, tail: bytes) returns (payload: bytes)
    requires |masked| <= 125 && LengthOctets(length, |masked|)
    ensures MaskedWith(payload, masked, key)
    ensures var code := if |payload| < 2 then 1005 else payload[0] as int * 256 + payload[1];
            Meaning(State(0, k, p), [0x88] + length + key + masked + tail)
            == Outcome([], [if code < 1000 || code in [1005, 1006, 1015] then [0x88, 0x00] else [0x88, 0x02, payload[0], payload[1]]],
                       Eof, CloseReason(code, ByPeer(if |payload| < 2 then [] else payload[2..])))
  {
    hide Meaning, ClientBytes, LengthOctets, MaskedWith;
    var f := FrameFrom(0x88, length, key, masked);
    payload := f.payload;
    ReadsClose(f, k, p, tail);
    var code := if |payload| < 2 then 1005 else payload[0] as int * 256 + payload[1];
    EchoOctets(code);
    assert ParseClose(payload) == (code, if |payload| < 2 then [] else payload[2..]) by { CloseParsed(payload); }
    if |payload| >= 2 {
      assert [0x88, 0x02] + U16(code) == [0x88, 0x02, payload[0], payload[1]] by { CodeOctets(payload[0], payload[1]); }
    }
    hide ParseClose, CloseFrame;
    assert EndedByPeer(payload) == Outcome([], [CloseFrame(code)], Eof, CloseReason(code, ByPeer(ParseClose(payload).1)));
  }

  lemma CodeOctets(a: byte, b: byte)
    ensures [0x88, 0x02] + U16(a as int * 256 + b) == [0x88, 0x02, a, b]
  {
  }

  lemma CloseParsed(payload: bytes)
    ensures ParseClose(payload) == if |payload| < 2 then (1005, []) else (payload[0] as int * 256 + payload[1], payload[2..])
  {
  }

  /** The close frames of the server, and so the answer to a violation: 1002 is 0x03ea. */
  lemma EchoOctets(code: nat)
    requires code < 0x1_0000
    ensures CloseFrame(code) == if code < 1000 || code in [1005, 1006, 1015] then [0x88, 0x00] else [0x88, 0x02] + U16(code)
    ensures CloseFrame(1002) == [0x88, 0x02, 0x03, 0xea]
  {
  }

  /** What the server writes: FIN, no mask, and the shortest length. */
  lemma ServerOctets(opcode: byte, payload: bytes)
    requires opcode < 16 && |payload| <= MAX_INT64
    ensures var n, b := |payload|, ServerFrame(opcode, payload);
            && (n <= 125 ==> b == [0x80 + opcode as int, n] + payload)
            && (125 < n <= 0xffff ==> b == [0x80 + opcode as int, 126, n / 256, n % 256] + payload)
            && (n > 0xffff ==>
                  |b| == 10 + n && b[..2] == [0x80 + opcode as int, 127] && BigEndian(b[2..10]) == n && b[10..] == payload)
  {
    var n, b := |payload|, ServerFrame(opcode, payload);
    if n > 0xffff {
      assert b[2..10] == U64(n) && b[10..] == payload;
      Digits64(U64(n));
      U64RoundTrip(n, []);
      assert U64(n) + [] == U64(n);
      hide U64, GetU64;
    }
  }
}
