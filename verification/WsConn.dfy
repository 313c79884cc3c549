/** The WebSocket connection as the server keeps it, reading in place over a transport with short reads. */
module WsConns {
  import opened Common
  import opened Bytes
  import opened WsFrames
  import opened WsStream

  /** What the client has sent and was not read. Each read returns as few octets as it likes. */
  class Source {
    var left: bytes

    constructor (input: bytes)
      ensures left == input
    {
      left := input;
    }

    /** Into `buf[from..from + n]`; zero octets mean the end. */
    method Read(buf: array<byte>, from: nat, n: nat) returns (m: nat)
      requires 1 <= n && from + n <= buf.Length
      modifies this, buf
      ensures m <= n && m <= |old(left)| && (m == 0 <==> old(left) == [])
      ensures left == old(left)[m..] && buf[from..from + m] == old(left)[..m]
      ensures forall i :: 0 <= i < buf.Length && !(from <= i < from + m) ==> buf[i] == old(buf[i])
    {
      if left == [] {
        return 0;
      }
      var most := Min(n, |left|);
      var k: nat :| 1 <= k <= most;
      for i := 0 to k
        invariant left == old(left)
        invariant forall j :: 0 <= j < i ==> buf[from + j] == left[j]
        invariant forall j :: 0 <= j < buf.Length && !(from <= j < from + i) ==> buf[j] == old(buf[j])
      {
        buf[from + i] := left[i];
      }
      assert buf[from..from + k] == left[..k];
      left := left[k..];
      m := k;
    }

    /** Reads until the buffer is full or nothing is left. */
    method Fill(buf: array<byte>) returns (err: Option<Error>)
      modifies this, buf
      ensures match ReadFull(old(left), buf.Length)
              case Filled(taken, rest) => err == None && buf[..] == taken && left == rest
              case Short(e) => err == Some(e) && left == []
    {
      var got := 0;
      while got < buf.Length
        invariant got <= buf.Length && got <= |old(left)| && left == old(left)[got..] && buf[..got] == old(left)[..got]
        decreases buf.Length - got
      {
        ghost var before := buf[..got];
        var m := Read(buf, got, buf.Length - got);
        if m == 0 {
          return Some(if got == 0 then Eof else CutOff);
        }
        assert buf[..got] == before;
        assert buf[..got + m] == buf[..got] + buf[got..got + m];
        assert old(left)[got..][..m] == old(left)[got..got + m];
        assert old(left)[..got + m] == old(left)[..got] + old(left)[got..got + m];
        got := got + m;
      }
      assert buf[..] == buf[..got];
      return None;
    }
  }

  class Conn {
    const source: Source
    var written: seq<bytes>
    var frameRemaining: nat
    var maskKey: Key
    var maskPos: nat
    var reason: Option<CloseReason>

    ghost predicate Valid()
      reads this
    {
      source as object != this && maskPos < 4
    }

    ghost function View(): (s: State)
      reads this
    {
      State(frameRemaining, maskKey, maskPos)
    }

    /** Everything this connection will still yield. */
    ghost function Future(): (o: Outcome)
      reads this, source
    {
      Meaning(View(), source.left)
    }

    constructor (source: Source)
      ensures Valid() && this.source == source && written == [] && reason == None
      ensures Future() == Meaning(State(0, [0, 0, 0, 0], 0), source.left)
    {
      this.source := source;
      written, frameRemaining, maskKey, maskPos, reason := [], 0, [0, 0, 0, 0], 0, None;
    }

    /** The first reason wins. */
    method SetReason(r: CloseReason) returns (won: bool)
      modifies this`reason
      ensures won == old(reason).None? && reason == if old(reason).None? then Some(r) else old(reason)
    {
      if reason.Some? {
        return false;
      }
      reason := Some(r);
      return true;
    }

    method WriteControl(opcode: byte, payload: bytes)
      requires opcode < 16 && |payload| <= 125
      modifies this`written
      ensures written == old(written) + [ServerFrame(opcode, payload)]
    {
      assert [128 + opcode as int, |payload|] + payload == ServerFrame(opcode, payload);
      written := written + [[128 + opcode as int, |payload|] + payload];
    }

    method WriteClose(code: nat)
      requires code < 0x1_0000
      modifies this`written
      ensures written == old(written) + [CloseFrame(code)]
    {
      var payload := if Sendable(code) then U16(code) else [];
      WriteControl(CLOSE, payload);
    }

    method ReadErr(e: Error)
      modifies this`written, this`reason
      ensures written == old(written) + ErrorAnswer(e)
      ensures reason == if old(reason).None? then Some(ErrorReason(e)) else old(reason)
    {
      var _ := SetReason(ErrorReason(e));
      if e.Protocol? {
        WriteClose(1002);
      }
    }

    method TakeLength(short: nat) returns (length: nat, err: Option<Error>)
      requires Valid() && short < 128
      modifies source
      ensures match ReadLength(short, old(source.left))
              case Length(n, rest) => err == None && length == n && source.left == rest
              case BadLength(e) => err == Some(e)
    {
      hide U64, GetU64, GetU16;
      if short == 126 {
        var ext := new byte[2];
        err := source.Fill(ext);
        length := if err.None? then GetU16(ext[..]) else 0;
      } else if short == 127 {
        var ext := new byte[8];
        err := source.Fill(ext);
        if err.Some? {
          return 0, err;
        }
        length := GetU64(ext[..]);
        if length > MAX_INT64 {
          return 0, Some(Protocol(LengthOverflow));
        }
      } else {
        return short, None;
      }
    }

    method TakeHeader() returns (opcode: byte, length: nat, err: Option<Error>)
      requires Valid()
      modifies this`maskKey, source
      ensures Valid()
      ensures match ReadHeader(old(source.left))
              case Header(op, n, key, rest) => err == None && opcode == op && length == n && maskKey == key && source.left == rest
              case BadHeader(e) => err == Some(e)
    {
      hide ReadLength;
      opcode, length := 0, 0;
      var h := new byte[2];
      err := source.Fill(h);
      if err.Some? {
        return;
      }
      assert h[..][0] == h[0] && h[..][1] == h[1];
      if h[0] / 16 % 8 != 0 {
        err := Some(Protocol(ReservedBits));
        return;
      }
      opcode := h[0] % 16;
      if h[1] < 128 {
        err := Some(Protocol(Unmasked));
        return;
      }
      length, err := TakeLength(h[1] % 128);
      if err.Some? {
        return;
      }
      if opcode >= 8 {
        if h[0] < 128 {
          err := Some(Protocol(FragmentedControl));
          return;
        }
        if length > 125 {
          err := Some(Protocol(LongControl));
          return;
        }
      }
      var key := new byte[4];
      err := source.Fill(key);
      if err.None? {
        maskKey := key[..];
      }
    }

    method ReadControlPayload(length: nat) returns (payload: bytes, err: Option<Error>)
      requires Valid()
      modifies source
      ensures match ReadFull(old(source.left), length)
              case Filled(masked, rest) => err == None && payload == Mask(maskKey, 0, masked) && source.left == rest
              case Short(e) => err == Some(e) && payload == []
    {
      if length == 0 {
        return [], None;
      }
      var buf := new byte[length];
      err := source.Fill(buf);
      if err.Some? {
        return [], err;
      }
      assert buf[..length] == buf[..];
      UnmaskIn(buf, length, maskKey, 0);
      assert buf[..length] == buf[..];
      payload := buf[..];
    }

    /** Take a ping or a pong; a ping is answered with its payload. */
    method OnPingOrPong(opcode: byte, length: nat) returns (err: Option<Error>)
      requires Valid() && length <= 125
      modifies this`written, this`reason, source
      ensures match ReadFull(old(source.left), length)
              case Short(e) =>
                err == Some(e) && written == old(written) + ErrorAnswer(e)
                && reason == if old(reason).None? then Some(ErrorReason(e)) else old(reason)
              case Filled(masked, rest) =>
                && err == None && source.left == rest && reason == old(reason)
                && written == old(written) + if opcode == PING then [ServerFrame(PONG, Mask(maskKey, 0, masked))] else []
    {
      hide Mask, ServerFrame;
      var payload, e := ReadControlPayload(length);
      if e.Some? {
        ReadErr(e.value);
        return e;
      }
      if opcode == PING {
        WriteControl(PONG, payload);
      }
      return None;
    }

    method OnClose(length: nat)
      requires Valid() && length <= 125
      modifies this`written, this`reason, source
      ensures var payload := match ReadFull(old(source.left), length)
                             case Filled(masked, _) => Mask(maskKey, 0, masked)
                             case Short(_) => [];
              && written == old(written) + EndedByPeer(payload).written
              && reason == if old(reason).None? then Some(EndedByPeer(payload).reason) else old(reason)
    {
      hide Mask, ServerFrame;
      var payload, _ := ReadControlPayload(length);
      var (code, text) := ParseClose(payload);
      var _ := SetReason(CloseReason(code, ByPeer(text)));
      WriteClose(code); // echo the peer's close
    }

    /** One frame header: a data frame starts, a control frame is dealt with, or it ends here. */
    method NextFrame() returns (started: bool, err: Option<Error>)
      requires Valid() && frameRemaining == 0
      modifies this, source
      ensures Valid() && old(written) <= written
      ensures err.None? ==>
                Then([], written[|old(written)|..], Future()) == old(Future()) && reason == old(reason)
                && |source.left| < |old(source.left)| && (!started ==> frameRemaining == 0)
      ensures err.Some? ==>
                var o := old(Future());
                o.data == [] && written == old(written) + o.written && err == Some(o.error)
                && reason == if old(reason).None? then Some(o.reason) else old(reason)
    {
      hide ReadHeader, Mask, Xor, ServerFrame, CloseFrame;
      ghost var input, key, pos, start := source.left, maskKey, maskPos, written;
      var opcode, length, e := TakeHeader();
      if e.Some? {
        ReadErr(e.value);
        return false, e;
      }
      BetweenFrames(key, pos, maskKey, maskPos, input);
      if opcode == BINARY || opcode == TEXT || opcode == CONTINUATION {
        frameRemaining, maskPos := length, 0;
        ThenNothing(Future());
        assert written[|start|..] == [];
        return true, None;
      }
      if opcode >= 8 {
        ControlIsShort(input);
      }
      if opcode == PING || opcode == PONG {
        err := OnPingOrPong(opcode, length);
        BetweenFrames(maskKey, 0, maskKey, maskPos, source.left);
        return false, err;
      } else if opcode == CLOSE {
        OnClose(length);
        return false, Some(Eof);
      }
      ReadErr(Protocol(ReservedOpcode));
      return false, Some(Protocol(ReservedOpcode));
    }

    /** Read headers and answer control frames until a data frame or the end. */
    method NextDataFrame() returns (err: Option<Error>)
      requires Valid() && frameRemaining == 0
      modifies this, source
      ensures Valid() && old(written) <= written
      ensures err.None? ==>
                Then([], written[|old(written)|..], Future()) == old(Future()) && reason == old(reason)
                && |source.left| < |old(source.left)|
      ensures err.Some? ==>
                var o := old(Future());
                o.data == [] && written == old(written) + o.written && err == Some(o.error)
                && reason == if old(reason).None? then Some(o.reason) else old(reason)
    {
      hide Meaning, Then;
      ghost var o, start := Future(), written;
      assert written[|start|..] == [];
      ThenNothing(o);
      var started := false;
      while !started
        invariant Valid() && reason == old(reason) && start <= written && (!started ==> frameRemaining == 0)
        invariant Then([], written[|start|..], Future()) == o && |source.left| <= |old(source.left)|
        invariant started ==> |source.left| < |old(source.left)|
        decreases !started, |source.left|
      {
        ghost var soFar, before := written, Future();
        started, err := NextFrame();
        if err.Some? {
          ThenParts([], soFar[|start|..], before);
          Appended(start, soFar, before.written);
          return;
        }
        AnswersThen(soFar[|start|..], written[|soFar|..], Future());
        Appended(start, soFar, written[|soFar|..]);
        assert soFar + written[|soFar|..] == written;
      }
      err := None;
    }

    /** Skip to a data frame that has octets. */
    method Advance() returns (err: Option<Error>)
      requires Valid()
      modifies this, source
      ensures Valid() && old(written) <= written
      ensures err.None? ==>
                frameRemaining > 0 && Then([], written[|old(written)|..], Future()) == old(Future()) && reason == old(reason)
      ensures err.Some? ==>
                var o := old(Future());
                o.data == [] && written == old(written) + o.written && err == Some(o.error)
                && reason == if old(reason).None? then Some(o.reason) else old(reason)
    {
      hide Meaning, Then;
      ghost var o, start := Future(), written;
      assert written[|start|..] == [];
      ThenNothing(o);
      while frameRemaining == 0
        invariant Valid() && reason == old(reason) && start <= written
        invariant Then([], written[|start|..], Future()) == o
        decreases frameRemaining == 0, |source.left|
      {
        ghost var soFar, before := written, Future();
        var e := NextDataFrame();
        if e.Some? {
          ThenParts([], soFar[|start|..], before);
          Appended(start, soFar, before.written);
          return e;
        }
        AnswersThen(soFar[|start|..], written[|soFar|..], Future());
        Appended(start, soFar, written[|soFar|..]);
        assert soFar + written[|soFar|..] == written;
      }
      return None;
    }

    /** Part of the current data frame, unmasked in the caller's buffer. */
    method Stream(p: array<byte>) returns (n: nat, err: Option<Error>)
      requires Valid() && frameRemaining > 0 && p.Length > 0
      modifies this, source, p
      ensures Valid() && n <= p.Length
      ensures err.None? ==>
                n > 0 && Then(p[..n], [], Future()) == old(Future()) && reason == old(reason) && written == old(written)
      ensures err.Some? ==>
                var o := old(Future());
                n == 0 && o.data == [] && written == old(written) + o.written && err == Some(o.error)
                && reason == if old(reason).None? then Some(o.reason) else old(reason)
    {
      hide Xor, Mask, ExclusiveOr;
      ghost var before, input := View(), source.left;
      var m := source.Read(p, 0, Min(p.Length, frameRemaining));
      if m == 0 {
        ReadErr(Eof);
        return 0, Some(Eof);
      }
      hide Meaning, Then;
      assert p[..m] == input[..m];
      Streamed(before, input, m);
      UnmaskIn(p, m, maskKey, maskPos);
      maskPos := (maskPos + m) % 4;
      frameRemaining := frameRemaining - m;
      return m, None;
    }

    /**
     * At most one data frame's worth. Whatever the buffer sizes and short reads, what is handed
     * out and written is the front of what was still to come.
     */
    method Read(p: array<byte>) returns (n: nat, err: Option<Error>)
      requires Valid()
      modifies this, source, p
      ensures Valid() && n <= p.Length && old(written) <= written
      ensures p.Length == 0 ==> n == 0 && err.None? && written == old(written) && Future() == old(Future())
      ensures p.Length > 0 && err.None? ==>
                n > 0 && Then(p[..n], written[|old(written)|..], Future()) == old(Future()) && reason == old(reason)
      ensures err.Some? ==>
                var o := old(Future());
                n == 0 && o.data == [] && written == old(written) + o.written && err == Some(o.error)
                && reason == if old(reason).None? then Some(o.reason) else old(reason)
    {
      hide Meaning;
      if p.Length == 0 {
        return 0, None;
      }
      ghost var start := written;
      err := Advance();
      if err.Some? {
        return 0, err;
      }
      ghost var answers, mid := written[|start|..], Future();
      n, err := Stream(p);
      if err.None? {
        ThenThen([], answers, p[..n], [], Future());
        assert [] + p[..n] == p[..n] && answers + [] == answers;
      } else {
        assert mid.data == [];
        assert written == start + (answers + mid.written);
      }
    }

    /** Reading on until an error, in buffers of any sizes, yields everything there was. */
    method Drain() returns (all: bytes, err: Error)
      requires Valid()
      modifies this, source
      ensures Valid() && all == old(Future()).data && written == old(written) + old(Future()).written
      ensures err == old(Future()).error && reason == if old(reason).None? then Some(old(Future()).reason) else old(reason)
    {
      hide Meaning, Then;
      all := [];
      ghost var o, start := Future(), written;
      assert written[|start|..] == [];
      ThenNothing(o);
      while true
        invariant Valid() && reason == old(reason) && start <= written
        invariant Then(all, written[|start|..], Future()) == o
        decreases |Future().data|
      {
        var size: nat :| 1 <= size <= 0x1_0000;
        ghost var soFar, before := written, Future();
        var chunk, e := ReadChunk(size);
        if e.Some? {
          ThenParts(all, soFar[|start|..], before);
          Appended(start, soFar, before.written);
          return all, e.value;
        }
        ThenParts(chunk, written[|soFar|..], Future());
        ThenThen(all, soFar[|start|..], chunk, written[|soFar|..], Future());
        Appended(start, soFar, written[|soFar|..]);
        assert soFar + written[|soFar|..] == written;
        all := all + chunk;
      }
    }

    method ReadChunk(size: nat) returns (chunk: bytes, err: Option<Error>)
      requires Valid() && size > 0
      modifies this, source
      ensures Valid() && old(written) <= written
      ensures err.None? ==>
                |chunk| > 0 && Then(chunk, written[|old(written)|..], Future()) == old(Future()) && reason == old(reason)
      ensures err.Some? ==>
                var o := old(Future());
                o.data == [] && written == old(written) + o.written && err == Some(o.error)
                && reason == if old(reason).None? then Some(o.reason) else old(reason)
    {
      hide Meaning;
      var p := new byte[size];
      var n, e := Read(p);
      return p[..n], e;
    }
  }

  /** After part of a frame, with the position of the key kept below four. */
  lemma Streamed(s: State, input: bytes, m: nat)
    requires m <= s.remaining && m <= |input|
    ensures Then(Mask(s.key, s.pos, input[..m]), [], Meaning(State(s.remaining - m, s.key, (s.pos + m) % 4), input[m..])) == Meaning(s, input)
  {
    hide Meaning, Mask;
    TakeData(s, input, m);
    PositionModFour(State(s.remaining - m, s.key, s.pos + m), (s.pos + m) % 4, input[m..]);
  }

  lemma ThenParts(data: bytes, written: seq<bytes>, o: Outcome)
    ensures var o' := Then(data, written, o);
            && o'.data == data + o.data && o'.written == written + o.written && o'.error == o.error && o'.reason == o.reason
            && (o.data == [] ==> o'.data == data) && |o'.data| == |data| + |o.data|
  {
  }

  lemma Appended<T>(start: seq<T>, soFar: seq<T>, more: seq<T>)
    requires start <= soFar
    ensures (soFar + more)[|start|..] == soFar[|start|..] + more && soFar + more == start + (soFar[|start|..] + more)
    ensures start <= soFar + more
  {
  }

  /** XOR the first `n` octets in place with the key, from position `pos` of the key on. */
  method UnmaskIn(b: array<byte>, n: nat, key: Key, pos: nat)
    requires n <= b.Length
    modifies b
    ensures b[..n] == Mask(key, pos, old(b[..n]))
    ensures forall i :: 0 <= i < n ==> ExclusiveOr(b[i], old(b[i]), key[(pos + i) % 4])
    ensures forall i :: n <= i < b.Length ==> b[i] == old(b[i])
  {
    hide Xor, ExclusiveOr;
    for i := 0 to n
      invariant forall j :: 0 <= j < i ==> b[j] == Xor(old(b[j]), key[(pos + j) % 4])
      invariant forall j :: i <= j < b.Length ==> b[j] == old(b[j])
    {
      b[i] := Xor(b[i], key[(pos + i) % 4]);
    }
    ghost var was := old(b[..n]);
    forall j | 0 <= j < n
      ensures b[..n][j] == Mask(key, pos, was)[j] && ExclusiveOr(b[j], old(b[j]), key[(pos + j) % 4])
    {
      XorBitwise(was[j], key[(pos + j) % 4]);
      MaskAt(key, pos, was, j);
    }
  }
}
