/** Retirement and teardown of streams, requests and pings, and what stays true after a GOAWAY or a close. */
module Teardown {
  import opened Common
  import opened Hpack
  import opened Frames
  import opened Flow
  import opened Connection
  import opened Moves

  function FramesSent(log: Trace): (n: nat) {
    match log
    case Begin => 0
    case After(past, Sent(_)) => FramesSent(past) + 1
    case After(past, _) => FramesSent(past)
  }

  /** A request still waits for its head exactly while its stream is mapped and has none. */
  ghost predicate HeadsLive(c: Conn) {
    && c.streams.Keys <= c.cells.Keys
    && (forall id: nat :: id in c.cells <==> id % 2 == 1 && id < c.nextId)
    && (forall id :: id in c.cells ==> (c.cells[id].head.Awaiting? <==> id in c.streams && !c.streams[id].gotHead))
  }

  /** The octets of the ping with number `t`: its count from one, modulo 2^32. */
  function Octets(t: nat): (b: bytes) {
    PingKey((t + 1) % 0x1_0000_0000)
  }

  /** A ping still waits exactly while it is registered, under its own octets. */
  ghost predicate PingsLive(pings: map<bytes, nat>, pongs: map<nat, Pong>, next: nat) {
    && (forall k :: k in pings ==> pings[k] in pongs)
    && (forall k :: k in pings ==> k == Octets(pings[k]))
    && (forall t :: t in pongs ==> t < next && (pongs[t].Waiting? <==> t in pings.Values))
    && (forall t :: t in pongs && pongs[t].Overwritten? ==> t + 0x1_0000_0000 < next)
  }

  /** Client streams are odd; only the ids in `ids` may have both directions closed. */
  ghost predicate StreamsLive(c: Conn, ids: set<nat>) {
    && c.nextId % 2 == 1
    && (forall id :: id in c.streams ==> id % 2 == 1)
    && (forall id :: id in c.streams && id !in ids ==> !(c.streams[id].localClosed && c.streams[id].remoteClosed))
  }

  ghost predicate ClosedClean(c: Conn) {
    && (c.closed.Some? ==> c.streams.Keys == {} && c.pings == map[] && c.waiters == [])
    && (forall t :: t in c.pongs && c.pongs[t].PingFailed? ==> c.closed == Some(c.pongs[t].error))
  }

  /** What later states never take back. */
  ghost predicate Since(before: Conn, c: Conn) {
    && before.nextId <= c.nextId && before.cells.Keys <= c.cells.Keys
    && (forall id :: id in before.cells && !before.cells[id].head.Awaiting? ==> c.cells[id].head == before.cells[id].head)
    && before.pongs.Keys <= c.pongs.Keys && before.nextPong <= c.nextPong
    && (forall t :: t in before.pongs && !before.pongs[t].Waiting? ==> c.pongs[t] == before.pongs[t])
    && (before.goaway ==> c.goaway && c.nextId == before.nextId)
    && (before.closed.Some? ==>
          c.closed == before.closed && c.nextId == before.nextId && FramesSent(c.log) == FramesSent(before.log))
  }

  ghost predicate Settling(before: Conn, c: Conn, ids: set<nat>) {
    && HeadsLive(c) && PingsLive(c.pings, c.pongs, c.nextPong) && c.pingCounter == c.nextPong % 0x1_0000_0000
    && StreamsLive(c, ids) && ClosedClean(c) && Since(before, c)
  }

  ghost predicate Inv(before: Conn, c: Conn) {
    Settling(before, c, {})
  }

  // --- changes that do not matter here ---

  ghost predicate Same(c: Conn, c': Conn) {
    && (c.closed.Some? ==> FramesSent(c'.log) == FramesSent(c.log))
    && c'.nextId == c.nextId && c'.closed == c.closed && (c.goaway ==> c'.goaway)
    && c'.pings == c.pings && c'.pongs == c.pongs && c'.nextPong == c.nextPong && c'.pingCounter == c.pingCounter
    && (c'.waiters == c.waiters || c'.waiters == [] || c.closed.None?)
    && c'.cells.Keys == c.cells.Keys && (forall id :: id in c.cells ==> c'.cells[id].head == c.cells[id].head)
    && c'.streams.Keys == c.streams.Keys
    && (forall id :: id in c.streams ==>
          && c'.streams[id].gotHead == c.streams[id].gotHead && c'.streams[id].localClosed == c.streams[id].localClosed
          && c'.streams[id].remoteClosed == c.streams[id].remoteClosed)
  }

  lemma SameKeeps(before: Conn, c: Conn, c': Conn)
    requires Inv(before, c) && Same(c, c')
    ensures Inv(before, c')
  {
    hide FramesSent;
  }

  lemma LogSame(c: Conn, e: Event)
    requires !e.Sent?
    ensures Same(c, Log(c, e))
  {
  }

  lemma SendSame(c: Conn, f: Frame)
    ensures Same(c, Send(c, f))
  {
  }

  lemma SameTrans(c: Conn, c': Conn, c'': Conn)
    requires Same(c, c') && Same(c', c'')
    ensures Same(c, c'')
  {
    hide FramesSent;
  }

  lemma {:induction false} SendAllSame(c: Conn, fs: seq<Frame>)
    ensures Same(c, SendAll(c, fs))
    decreases |fs|
  {
    hide Same, Send;
    if fs == [] {
      SameSelf(c);
    } else {
      SendSame(c, fs[0]);
      SendAllSame(Send(c, fs[0]), fs[1..]);
      SameTrans(c, Send(c, fs[0]), SendAll(c, fs));
    }
  }

  lemma SameSelf(c: Conn)
    ensures Same(c, c)
  {
  }

  // --- retirement and failure ---

  /** A stream with both directions closed goes, and its request with it. */
  lemma RetireKeeps(before: Conn, c: Conn, id: nat)
    requires Settling(before, c, {id})
    ensures Inv(before, Retire(c, id))
  {
    hide FramesSent, PingsLive;
  }

  lemma DoomKeeps(before: Conn, c: Conn, ids: set<nat>, err: H2Error)
    requires Inv(before, c)
    ensures Inv(before, Doom(c, ids, err)) && Inv(before, WakeSlots(Doom(c, ids, err)))
  {
    hide FramesSent, PingsLive, FailRecv, Sleepers;
  }

  lemma DestroyKeeps(before: Conn, c: Conn, err: H2Error)
    requires Inv(before, c)
    ensures Inv(before, Destroy(c, err))
  {
    if c.closed.None? {
      hide FramesSent, FailPongs, PingsLive, Doom, Destroy;
      DestroyShape(c, err);
      DoomKeeps(before, c, c.streams.Keys, err);
      DoomPongs(c, c.streams.Keys, err);
      PongsFail(c, err);
    }
  }

  lemma DoomPongs(c: Conn, ids: set<nat>, err: H2Error)
    ensures var d := Doom(c, ids, err); d.pongs == c.pongs && d.pings == c.pings && d.nextPong == c.nextPong
  {
  }

  lemma PongsFail(c: Conn, err: H2Error)
    requires PingsLive(c.pings, c.pongs, c.nextPong)
    ensures var pongs := FailPongs(c.pongs, c.pings, err);
            && pongs.Keys == c.pongs.Keys
            && (forall t :: t in c.pongs && !c.pongs[t].Waiting? ==> pongs[t] == c.pongs[t])
            && PingsLive(map[], pongs, c.nextPong)
  {
  }

  lemma LastWords(before: Conn, c: Conn, f: Frame, err: H2Error)
    requires Inv(before, c)
    ensures Inv(before, Destroy(Send(c, f), err))
  {
    hide Inv, Destroy;
    SendSame(c, f);
    SameKeeps(before, c, Send(c, f));
    DestroyKeeps(before, Send(c, f), err);
  }

  lemma CrashKeeps(before: Conn, cfg: Config, c: Conn, f: Frame)
    requires Inv(before, c) && Handle(cfg, c, f).error.Some?
    ensures Inv(before, ConnectionError(Handle(cfg, c, f).conn, Handle(cfg, c, f).error.value))
  {
    hide Inv, Destroy, Handle, FramesSent;
    var o := Handle(cfg, c, f);
    CrashShape(cfg, c, f);
    LogSame(c, Event.Recv(f));
    SameKeeps(before, c, Log(c, Event.Recv(f)));
    SameKeeps(before, Log(c, Event.Recv(f)), o.conn);
    LastWords(before, o.conn, Goaway(o.conn.highestPromised, o.error.value.code.Value(), []), o.error.value);
  }

  // --- the peer's END_STREAM, heads and pings ---

  /** One stream and its cell have changed together; the stream may now be closed both ways. */
  lemma OneChanged(before: Conn, c: Conn, c': Conn, id: nat)
    requires Inv(before, c) && id in c.streams && id in c'.streams && id in c'.cells
    requires c'.streams == c.streams[id := c'.streams[id]] && c'.cells == c.cells[id := c'.cells[id]]
    requires c'.nextId == c.nextId && c'.closed == c.closed && c'.goaway == c.goaway && c'.waiters == c.waiters
    requires c'.pings == c.pings && c'.pongs == c.pongs && c'.nextPong == c.nextPong && c'.pingCounter == c.pingCounter
    requires c.closed.Some? ==> FramesSent(c'.log) == FramesSent(c.log)
    requires c'.cells[id].head.Awaiting? <==> !c'.streams[id].gotHead
    requires !c.cells[id].head.Awaiting? ==> c'.cells[id].head == c.cells[id].head
    ensures Settling(before, c', {id})
  {
    hide FramesSent, PingsLive;
  }

  lemma DataKeeps(before: Conn, c: Conn, id: nat, data: bytes, endStream: bool)
    requires Inv(before, c)
    ensures Inv(before, TakeData(c, id, data, endStream))
  {
    hide FramesSent, Retire, DataOnRecv, Inv, Settling;
    var c1 := ReceiveData(Log(c, Event.Recv(Data(id, data, endStream))), id, data, endStream);
    DataSent(c, id, data, endStream);
    if id in c.streams {
      InvParts(before, c);
      OneChanged(before, c, c1, id);
    } else {
      DeadDataSame(c, id, data, endStream);
      SameKeeps(before, c, c1);
      InvSettles(before, c1, id);
    }
    if endStream {
      RetireKeeps(before, c1, id);
    } else {
      StillInv(before, c, c1, id);
    }
  }

  lemma DeadDataSame(c: Conn, id: nat, data: bytes, endStream: bool)
    requires id !in c.streams
    ensures Same(c, ReceiveData(Log(c, Event.Recv(Data(id, data, endStream))), id, data, endStream))
  {
  }

  lemma InvParts(before: Conn, c: Conn)
    requires Inv(before, c)
    ensures c.streams.Keys <= c.cells.Keys
    ensures forall id :: id in c.streams ==> (c.cells[id].head.Awaiting? <==> !c.streams[id].gotHead)
  {
  }

  lemma InvSettles(before: Conn, c: Conn, id: nat)
    requires Inv(before, c)
    ensures Settling(before, c, {id})
  {
  }

  lemma StillInv(before: Conn, c: Conn, c': Conn, id: nat)
    requires Inv(before, c) && Settling(before, c', {id})
    requires id in c'.streams ==> id in c.streams && c'.streams[id].localClosed == c.streams[id].localClosed
                                  && c'.streams[id].remoteClosed == c.streams[id].remoteClosed
    ensures Inv(before, c')
  {
  }

  lemma DataSent(c: Conn, id: nat, data: bytes, endStream: bool)
    ensures var c1 := ReceiveData(Log(c, Event.Recv(Data(id, data, endStream))), id, data, endStream);
            c.closed.Some? ==> FramesSent(c1.log) == FramesSent(c.log)
  {
    hide DataOnRecv;
  }

  lemma DeliverKeeps(before: Conn, c: Conn, id: nat, headers: seq<Header>, endStream: bool)
    requires Inv(before, c)
    ensures Inv(before, Deliver(c, id, headers, endStream))
  {
    hide Retire, Interim, Inv, Settling;
    var c1 := ReceiveHeaders(Log(c, Block(id, false, headers, endStream)), id, headers, endStream);
    assert FramesSent(c1.log) == FramesSent(c.log);
    hide FramesSent;
    if id in c.streams {
      InvParts(before, c);
      OneChanged(before, c, c1, id);
    } else {
      SameKeeps(before, c, c1);
      InvSettles(before, c1, id);
    }
    if endStream {
      RetireKeeps(before, c1, id);
    } else {
      StillInv(before, c, c1, id);
    }
  }

  lemma AckPongs(pings: map<bytes, nat>, pongs: map<nat, Pong>, next: nat, key: bytes)
    requires PingsLive(pings, pongs, next) && key in pings
    ensures PingsLive(pings - {key}, pongs[pings[key] := Acked], next)
  {
    var left, t := pings - {key}, pings[key];
    forall u | u in pongs
      ensures u in left.Values <==> u in pings.Values && u != t
    {
      if u in pings.Values && u != t {
        var k :| k in pings && pings[k] == u;
        assert k in left && left[k] == u;
      }
    }
  }

  lemma AckKeeps(before: Conn, c: Conn, opaque8: bytes)
    requires Inv(before, c)
    ensures Inv(before, HandlePing(c, true, opaque8))
  {
    hide FramesSent;
    if opaque8 in c.pings {
      AckPongs(c.pings, c.pongs, c.nextPong, opaque8);
      WasWaiting(c, opaque8);
      hide PingsLive;
    }
  }

  lemma WasWaiting(c: Conn, key: bytes)
    requires PingsLive(c.pings, c.pongs, c.nextPong) && key in c.pings
    ensures c.pings[key] in c.pongs && c.pongs[c.pings[key]].Waiting?
  {
    assert c.pings[key] in c.pings.Values;
  }

  lemma PingKeyInjective(m: nat, n: nat)
    requires m < U32_LIMIT && n < U32_LIMIT && PingKey(m) == PingKey(n)
    ensures m == n
  {
    Bytes.U32RoundTrip(m, []);
    Bytes.U32RoundTrip(n, []);
    assert Bytes.U32(m) == PingKey(m)[4..] && Bytes.U32(n) == PingKey(n)[4..];
  }

  /** Two pings have the same octets only if the counter has come round between them. */
  lemma ComesRound(t: nat, u: nat)
    requires t < u && Octets(t) == Octets(u)
    ensures t + 0x1_0000_0000 <= u
  {
    hide PingKey;
    PingKeyInjective((t + 1) % 0x1_0000_0000, (u + 1) % 0x1_0000_0000);
  }

  lemma RegisterPongs(pings: map<bytes, nat>, pongs: map<nat, Pong>, t: nat)
    requires PingsLive(pings, pongs, t)
    ensures var key := Octets(t);
            var pongs' := if key in pings then pongs[pings[key] := Overwritten] else pongs;
            PingsLive(pings[key := t], pongs'[t := Waiting], t + 1)
  {
    hide Octets;
    var key := Octets(t);
    var pings' := pings[key := t];
    assert key in pings' && pings'[key] == t;
    if key in pings {
      ComesRound(pings[key], t);
    }
    forall u | u in pongs
      ensures u in pings'.Values <==> u in pings.Values && (key in pings ==> u != pings[key])
    {
      if u in pings'.Values {
        var k :| k in pings' && pings'[k] == u;
        assert k != key && k in pings;
      }
      if u in pings.Values && (key in pings ==> u != pings[key]) {
        var k :| k in pings && pings[k] == u;
        assert k in pings' && pings'[k] == u;
      }
    }
  }

  lemma RegisterKeeps(before: Conn, c: Conn)
    requires Inv(before, c) && c.closed.None?
    ensures var key := Octets(c.nextPong);
            var pongs := if key in c.pings then c.pongs[c.pings[key] := Overwritten] else c.pongs;
            Inv(before, c.(pingCounter := (c.nextPong + 1) % 0x1_0000_0000, nextPong := c.nextPong + 1,
                           pings := c.pings[key := c.nextPong], pongs := pongs[c.nextPong := Waiting]))
  {
    hide FramesSent, Octets, PingsLive, ClosedClean, Since;
    var key, t := Octets(c.nextPong), c.nextPong;
    var pongs := if key in c.pings then c.pongs[c.pings[key] := Overwritten] else c.pongs;
    var d := c.(pingCounter := (t + 1) % 0x1_0000_0000, nextPong := t + 1, pings := c.pings[key := t], pongs := pongs[t := Waiting]);
    RegisterPongs(c.pings, c.pongs, t);
    RegisterSince(before, c, d, key);
  }

  lemma RegisterSince(before: Conn, c: Conn, d: Conn, key: bytes)
    requires Inv(before, c) && c.closed.None?
    requires var pongs := if key in c.pings then c.pongs[c.pings[key] := Overwritten] else c.pongs;
             d == c.(pingCounter := d.pingCounter, nextPong := c.nextPong + 1, pings := d.pings, pongs := pongs[c.nextPong := Waiting])
    ensures ClosedClean(d) && Since(before, d)
  {
    hide FramesSent, Octets, HeadsLive, StreamsLive;
    if key in c.pings {
      WasWaiting(c, key);
    }
  }

  lemma CounterIs(before: Conn, c: Conn)
    requires Inv(before, c)
    ensures (c.pingCounter + 1) % U32_LIMIT == (c.nextPong + 1) % 0x1_0000_0000
  {
  }

  lemma StartPingKeeps(before: Conn, c: Conn)
    requires Inv(before, c)
    ensures Inv(before, StartPing(c))
  {
    hide Inv, Send, PingKey;
    if c.closed.None? {
      CounterIs(before, c);
      var n := (c.pingCounter + 1) % U32_LIMIT;
      var key := PingKey(n);
      RegisterKeeps(before, c);
      var pongs := if key in c.pings then c.pongs[c.pings[key] := Overwritten] else c.pongs;
      var c1 := c.(pingCounter := n, nextPong := c.nextPong + 1, pings := c.pings[key := c.nextPong],
                   pongs := pongs[c.nextPong := Waiting]);
      SendSame(c1, Ping(false, key));
      SameKeeps(before, c1, Send(c1, Ping(false, key)));
    }
  }

  lemma HeardKeeps(before: Conn, c: Conn, f: Frame, c': Conn)
    requires Inv(before, c) && Same(Log(c, Event.Recv(f)), c')
    ensures Inv(before, c')
  {
    hide Inv, FramesSent;
    LogSame(c, Event.Recv(f));
    SameKeeps(before, c, Log(c, Event.Recv(f)));
    SameKeeps(before, Log(c, Event.Recv(f)), c');
  }

  lemma CreditSame(c: Conn, id: nat, n: nat)
    ensures Same(Log(c, Event.Recv(WindowUpdate(id, n))), TakeCredit(c, id, n))
  {
    hide FramesSent, TakeCredit;
    CreditShape(c, id, n);
  }

  lemma SettingsKeep(before: Conn, c: Conn, s: Settings)
    requires Inv(before, c)
    ensures Inv(before, TakeSettings(c, s))
  {
    hide Inv, Send, ApplySettings, FramesSent;
    var c1 := Log(c, Event.Recv(SettingsFrame(false, s)));
    SettingsShape(c1, s);
    var c2 := ApplySettings(c1, s).conn;
    HeardKeeps(before, c, SettingsFrame(false, s), c2);
    SendSame(c2, SettingsFrame(true, NO_SETTINGS));
    SameKeeps(before, c2, Send(c2, SettingsFrame(true, NO_SETTINGS)));
  }

  lemma HearPingKeeps(before: Conn, c: Conn, ack: bool, opaque8: bytes)
    requires Inv(before, c)
    ensures Inv(before, HandlePing(Log(c, Event.Recv(Ping(ack, opaque8))), ack, opaque8))
  {
    hide Inv, Send, FramesSent;
    var c1 := Log(c, Event.Recv(Ping(ack, opaque8)));
    HeardKeeps(before, c, Ping(ack, opaque8), c1) by { SameSelf(c1); }
    if ack {
      AckKeeps(before, c1, opaque8);
    } else {
      SendSame(c1, Ping(true, opaque8));
      SameKeeps(before, c1, Send(c1, Ping(true, opaque8)));
    }
  }

  lemma GoawayKeeps(before: Conn, c: Conn, last: nat, code: nat, debug: bytes)
    requires Inv(before, c)
    ensures Inv(before, TakeGoaway(c, last, code, debug))
  {
    hide Inv, Doom, FramesSent;
    var c1 := Log(c, Event.Recv(Goaway(last, code, debug))).(goaway := true);
    HeardKeeps(before, c, Goaway(last, code, debug), c1);
    DoomKeeps(before, c1, Above(c.streams.Keys, last), H2Error(CodeOr(code, NoError), PeerGoaway));
  }

  lemma RefuseSame(c: Conn, promised: nat, headers: seq<Header>)
    ensures Same(c, RefusePush(c, promised, headers))
  {
  }

  lemma InKeeps(before: Conn, cfg: Config, c: Conn, m: Inward)
    requires Inv(before, c) && MayIn(cfg, c, m)
    ensures Inv(before, DoIn(cfg, c, m))
  {
    hide Inv, FramesSent, TakeData, TakeSettings, TakeCredit, TakeGoaway, Deliver, RefusePush, HandlePing,
         ResetStream, Send, Destroy, Doom, Handle, DecodeBlock, ApplySettings;
    match m
    case SetInbox(rest) => SameKeeps(before, c, DoIn(cfg, c, m));
    case SetCodec(input) => SameKeeps(before, c, DoIn(cfg, c, m));
    case Hear(f, block) => HeardKeeps(before, c, f, DoIn(cfg, c, m));
    case HearCredit(id, n) => CreditSame(c, id, n); HeardKeeps(before, c, WindowUpdate(id, n), DoIn(cfg, c, m));
    case HearData(id, data, endStream) => DataKeeps(before, c, id, data, endStream);
    case HearSettings(s) => SettingsKeep(before, c, s);
    case HearZero(id) =>
      var c1 := Log(c, Event.Recv(WindowUpdate(id, 0)));
      HeardKeeps(before, c, WindowUpdate(id, 0), c1) by { SameSelf(c1); }
      ResetKeeps(before, c1, id, ProtocolError);
    case HearReset(id, code) =>
      var c1 := Log(c, Event.Recv(RstStream(id, code)));
      HeardKeeps(before, c, RstStream(id, code), c1) by { SameSelf(c1); }
      DoomKeeps(before, c1, {id}, H2Error(CodeOr(code, ProtocolError), PeerReset));
    case HearPing(ack, opaque8) => HearPingKeeps(before, c, ack, opaque8);
    case HearGoaway(last, code, debug) => GoawayKeeps(before, c, last, code, debug);
    case TakeHeaders(id, headers, endStream) => DeliverKeeps(before, c, id, headers, endStream);
    case Refuse(promised, headers) => RefuseSame(c, promised, headers); SameKeeps(before, c, DoIn(cfg, c, m));
    case Crash(f) => CrashKeeps(before, cfg, c, f);
    case Garbled(e) => LastWords(before, c, Goaway(c.highestPromised, e.code.Value(), []), e);
    case Stop(e) => DestroyKeeps(before, c, e);
  }

  // --- the application's side ---

  lemma OpenKeeps(before: Conn, cfg: Config, c: Conn, headers: seq<Header>, hasBody: bool)
    requires cfg.tables.Sized() && Inv(before, c) && !Refusing(c)
    ensures Inv(before, Open(cfg, c, headers, hasBody))
  {
    hide EncodeHeaders, SendAll, SplitHeaders, FramesSent, PingsLive;
    var block := EncodeHeaders(cfg.tables, headers);
    var c1 := Log(Reserve(c, hasBody), Event.Opened(c.nextId, block, hasBody));
    assert Inv(before, c1);
    hide Inv;
    var fs := SplitHeaders(c.nextId, block, !hasBody, c.remote.maxFrameSize);
    SendAllSame(c1, fs);
    SameKeeps(before, c1, SendAll(c1, fs));
  }

  lemma TurnKeeps(before: Conn, c: Conn, id: nat)
    requires PumpIs(c, id, false) && c.cells[id].pump.offset <= |c.cells[id].pump.chunk| && Inv(before, c)
    ensures Inv(before, Turn(c, id))
  {
    hide Inv, Turn;
    TurnShape(c, id);
    SameKeeps(before, c, Turn(c, id));
  }

  lemma FinishKeeps(before: Conn, c: Conn, id: nat)
    requires PumpIs(c, id, true) && Inv(before, c)
    ensures Inv(before, FinishBody(c, id))
  {
    hide Inv, Settling, Retire, FramesSent;
    var c1 := SetPump(Log(c, Event.FedAll(id)), id, Finished);
    assert FramesSent(Log(c, Event.FedAll(id)).log) == FramesSent(c.log) by { LogSame(c, Event.FedAll(id)); FedAllSilent(c.log, id); }
    SameKeeps(before, c, c1);
    if id in c.streams {
      var c2 := Send(c1, Data(id, [], true));
      SendSame(c1, Data(id, [], true));
      SameKeeps(before, c1, c2);
      var c3 := SetStream(c2, id, c2.streams[id].(localClosed := true));
      assert c2.streams == c1.streams && c2.cells == c1.cells;
      InvParts(before, c2);
      assert c3.cells == c2.cells[id := c3.cells[id]];
      OneChanged(before, c2, c3, id);
      RetireKeeps(before, c3, id);
    }
  }

  lemma FedAllSilent(log: Trace, id: nat)
    ensures FramesSent(After(log, Event.FedAll(id))) == FramesSent(log)
  {
  }

  lemma ReplenishSame(c: Conn, id: nat, n: nat)
    ensures Same(c, Replenish(c, id, n))
  {
    hide Same, Send;
    var c0 := Log(c, Returned(id, n));
    var f, g := WindowUpdate(id, n % U32_LIMIT), WindowUpdate(0, n % U32_LIMIT);
    var c1 := if id in c.streams then Send(c0, f) else c0;
    LogSame(c, Returned(id, n));
    SendSame(c0, f);
    SameTrans(c, c0, Send(c0, f));
    SendSame(c1, g);
    SameTrans(c, c1, Send(c1, g));
  }

  lemma ResetKeeps(before: Conn, c: Conn, id: nat, code: ErrorCode)
    requires Inv(before, c)
    ensures Inv(before, ResetStream(c, id, code))
  {
    hide Inv, Send, Doom;
    var c1 := Send(c, RstStream(id, code.Value()));
    SendSame(c, RstStream(id, code.Value()));
    SameKeeps(before, c, c1);
    DoomKeeps(before, c1, {id}, H2Error(code, StreamReset));
  }

  lemma YieldKeeps(before: Conn, c: Conn, id: nat)
    requires Inv(before, c) && Holds(c, id) && c.cells[id].recv.queue != []
    ensures Inv(before, YieldChunk(c, id))
  {
    hide Inv, Replenish;
    SameKeeps(before, c, TakeChunk(c, id));
    ReplenishSame(TakeChunk(c, id), id, |c.cells[id].recv.queue[0]|);
    SameKeeps(before, TakeChunk(c, id), YieldChunk(c, id));
  }

  lemma DropKeeps(before: Conn, c: Conn, id: nat)
    requires Inv(before, c) && Holds(c, id)
    ensures Inv(before, DropBody(c, id))
  {
    hide Inv, Replenish, ResetStream;
    var c0 := Log(c, Event.Released(id));
    var c1, c2 := SetCell(c0, id, c.cells[id].(body := Dropped)), Relinquish(c, id);
    LogSame(c, Event.Released(id));
    SameKeeps(before, c, c0);
    SameKeeps(before, c0, c1);
    if c.cells[id].recv.buffered > 0 {
      ReplenishSame(c1, id, c.cells[id].recv.buffered);
      SameKeeps(before, c1, c2);
    }
    ResetKeeps(before, c2, id, Cancel);
  }

  lemma OutKeeps(before: Conn, cfg: Config, c: Conn, m: Outward)
    requires Inv(before, c) && MayOut(cfg, c, m)
    ensures Inv(before, DoOut(cfg, c, m))
  {
    hide Inv, Turn, FinishBody, YieldChunk, DropBody, Open, Send, Destroy, StartPing, ResetStream, CanOpen;
    match m
    case Quit(e) => DestroyKeeps(before, c, e);
    case MoveOpen(headers, hasBody) => OpenKeeps(before, cfg, c, headers, hasBody);
    case MoveTurn(id) => TurnKeeps(before, c, id);
    case MoveFinish(id) => FinishKeeps(before, c, id);
    case MoveYield(id) => YieldKeeps(before, c, id);
    case MoveDrop(id) => DropKeeps(before, c, id);
    case MovePing => StartPingKeeps(before, c);
    case MoveClose => LastWords(before, c, Goaway(c.highestPromised, 0, []), H2Error(NoError, ClosedByClient));
    case _ => LocalSame(cfg, c, m); SameKeeps(before, c, DoOut(cfg, c, m));
  }

  lemma LocalSame(cfg: Config, c: Conn, m: Outward)
    requires MayOut(cfg, c, m)
    requires Local(m)
    ensures Same(c, DoOut(cfg, c, m))
  {
    LocalShape(cfg, c, m);
    assert m.MoveQueue? ==> c.closed.None?;
    hide DoOut;
  }

  lemma QuietInv(cfg: Config)
    ensures Inv(Connect(cfg), Connect(cfg))
  {
    ConnectShape(cfg);
    hide Connect, FramesSent;
  }

  /** From any settled state on, whatever happens: the state stays settled and takes nothing back. */
  lemma RunSettles(cfg: Config, before: Conn, steps: seq<Step>)
    requires cfg.tables.Sized() && Inv(before, before)
    ensures Inv(before, RunFrom(cfg, before, steps))
  {
    hide Inv, DoIn, DoOut, MayIn, MayOut, RunFrom;
    var inv := c => Inv(before, c);
    forall c, m | MayIn(cfg, c, m) && inv(c)
      ensures inv(DoIn(cfg, c, m))
    {
      InKeeps(before, cfg, c, m);
    }
    forall c, m | MayOut(cfg, c, m) && inv(c)
      ensures inv(DoOut(cfg, c, m))
    {
      OutKeeps(before, cfg, c, m);
    }
    RunFromByMoves(cfg, inv, before, steps);
  }

  // --- the theorems ---

  lemma RunInv(cfg: Config, steps: seq<Step>)
    requires cfg.tables.Sized()
    ensures Inv(Run(cfg, steps), Run(cfg, steps))
  {
    hide FramesSent, Connect, RunFrom;
    QuietInv(cfg);
    RunSettles(cfg, Connect(cfg), steps);
  }

  /**
   * In every state of every run: the streams opened so far are the odd numbers below the next; no
   * mapped stream is closed both ways; a request waits for its
   * head exactly while its stream is mapped without one, and a ping exactly while it is
   * registered; and once closed there are no streams, pings or parked requests.
   */
  lemma Settled(cfg: Config, steps: seq<Step>)
    requires cfg.tables.Sized()
    ensures var c := Run(cfg, steps);
            && c.nextId % 2 == 1 && (forall id: nat :: id in c.cells <==> id % 2 == 1 && id < c.nextId)
            && (forall id :: id in c.streams ==> id in c.cells && !(c.streams[id].localClosed && c.streams[id].remoteClosed))
            && (forall id :: id in c.cells ==> (c.cells[id].head.Awaiting? <==> id in c.streams && !c.streams[id].gotHead))
            && (forall t :: t in c.pongs ==> (c.pongs[t].Waiting? <==> t in c.pings.Values))
            && (c.closed.Some? ==> c.streams.Keys == {} && c.pings == map[] && c.waiters == [])
  {
    hide Run;
    RunInv(cfg, steps);
  }

  /**
   * From any state of any run on: a head or a ping once settled never changes; after a GOAWAY
   * from the peer no stream is opened; after the close nothing is opened and nothing written.
   */
  lemma NothingTakenBack(cfg: Config, steps: seq<Step>, more: seq<Step>)
    requires cfg.tables.Sized()
    ensures Since(Run(cfg, steps), RunFrom(cfg, Run(cfg, steps), more))
  {
    hide Run, RunFrom;
    RunInv(cfg, steps);
    RunSettles(cfg, Run(cfg, steps), more);
  }

  /** All that waited on `c` has failed with `err` in `c'`, and what was settled is as it was. */
  ghost predicate AllFailed(c: Conn, c': Conn, err: H2Error) {
    && c'.closed == Some(err) && c'.streams == map[] && c'.waiters == [] && c'.pings == map[]
    && c'.cells.Keys == c.cells.Keys && c'.pongs.Keys == c.pongs.Keys
    && (forall id :: id in c.cells ==>
          && c'.cells[id].head == (if c.cells[id].head.Awaiting? then Failed(err) else c.cells[id].head)
          && (if id in c.streams then c'.cells[id].recv.ended && c'.cells[id].recv.error == Some(if c.cells[id].recv.error.Some? then c.cells[id].recv.error.value else err)
              else c'.cells[id] == c.cells[id]))
    && (forall t :: t in c.pongs ==> c'.pongs[t] == if c.pongs[t].Waiting? then PingFailed(err) else c.pongs[t])
  }

  lemma PongsFailed(c: Conn, err: H2Error)
    requires PingsLive(c.pings, c.pongs, c.nextPong)
    ensures forall t :: t in c.pongs ==>
              FailPongs(c.pongs, c.pings, err)[t] == if c.pongs[t].Waiting? then PingFailed(err) else c.pongs[t]
  {
  }

  lemma CellsFailed(c: Conn, ids: set<nat>, err: H2Error)
    requires HeadsLive(c)
    ensures var d := Doom(c, ids, err);
            && d.cells.Keys == c.cells.Keys
            && forall id :: id in c.cells ==>
                 && d.cells[id].head == (if c.cells[id].head.Awaiting? && id in ids then Failed(err) else c.cells[id].head)
                 && (if id in ids && id in c.streams
                     then d.cells[id].recv.ended && d.cells[id].recv.error == Some(if c.cells[id].recv.error.Some? then c.cells[id].recv.error.value else err)
                     else d.cells[id] == c.cells[id])
  {
    hide Sleepers;
  }

  /** Teardown, for whatever reason, on any settled open connection; it writes nothing. */
  lemma DestroyFails(c: Conn, err: H2Error)
    requires Inv(c, c) && c.closed.None?
    ensures AllFailed(c, Destroy(c, err), err) && Destroy(c, err).log == After(c.log, TornDown(err))
  {
    hide FramesSent, FailPongs, PingsLive, Doom, Destroy;
    DestroyShape(c, err);
    CellsFailed(c, c.streams.Keys, err);
    DoomPongs(c, c.streams.Keys, err);
    PongsFailed(c, err);
    assert FailPongs(c.pongs, c.pings, err).Keys == c.pongs.Keys by { PongsFail(c, err); }
  }

  /** GOAWAY(last) without an error fails exactly the mapped streams above `last` and leaves the others alone. */
  ghost predicate FailedAbove(c: Conn, c': Conn, last: nat) {
    && c'.closed == c.closed && c'.cells.Keys == c.cells.Keys && c'.pongs == c.pongs && c'.pings == c.pings
    && (forall id :: id in c'.streams <==> id in c.streams && id <= last)
    && (forall id :: id in c'.streams ==> c'.streams[id] == c.streams[id])
    && (forall id :: id in c.cells ==>
          if id in c.streams && id > last
          then c'.cells[id].recv.error.Some? && c'.cells[id].recv.ended
               && (!c.streams[id].gotHead ==> c'.cells[id].head.Failed?)
          else c'.cells[id] == c.cells[id])
  }

  /** The error a peer's GOAWAY stands for: its code if the standard knows it. */
  predicate Blames(err: H2Error, code: nat) {
    err.reason == PeerGoaway && err.code.Value() == if code <= 13 then code else 0
  }

  lemma Blamed(code: nat)
    ensures Blames(H2Error(CodeOr(code, NoError), PeerGoaway), code)
  {
  }

  lemma SettledAlone(before: Conn, c: Conn)
    requires Inv(before, c)
    ensures Inv(c, c)
  {
  }

  lemma NoneClosed(cfg: Config, c: Conn, last: nat, debug: bytes)
    requires c.block.None? && c.closed.None?
    ensures var c' := Inbound(cfg, c, Goaway(last, 0, debug));
            FailedAbove(c, c', last) && c'.goaway && c'.log == After(c.log, Event.Recv(Goaway(last, 0, debug)))
  {
  }

  /** The streams above `last` have failed first, and teardown finds only the others. */
  lemma FailTwice(c: Conn, last: nat, code: nat, debug: bytes, c': Conn)
    requires var err := H2Error(CodeOr(code, NoError), PeerGoaway); AllFailed(TakeGoaway(c, last, code, debug), c', err)
    requires HeadsLive(c)
    ensures AllFailed(c, c', H2Error(CodeOr(code, NoError), PeerGoaway))
  {
    hide CodeOr, FailCell, Sleepers;
    var err := H2Error(CodeOr(code, NoError), PeerGoaway);
    var ids, c1 := Above(c.streams.Keys, last), TakeGoaway(c, last, code, debug);
    GoawayCells(c, last, code, debug);
    hide Doom, TakeGoaway;
  }

  lemma GoawayCells(c: Conn, last: nat, code: nat, debug: bytes)
    requires HeadsLive(c)
    ensures var c1, err := TakeGoaway(c, last, code, debug), H2Error(CodeOr(code, NoError), PeerGoaway);
            && c1.cells.Keys == c.cells.Keys && c1.pongs == c.pongs
            && (forall id :: id in c1.streams <==> id in c.streams && id <= last)
            && forall id :: id in c.cells ==>
                 && c1.cells[id].head == (if c.cells[id].head.Awaiting? && id > last then Failed(err) else c.cells[id].head)
                 && (if id > last && id in c.streams
                     then c1.cells[id].recv.ended && c1.cells[id].recv.error == Some(if c.cells[id].recv.error.Some? then c.cells[id].recv.error.value else err)
                     else c1.cells[id] == c.cells[id])
  {
    hide CodeOr;
    var c0 := Log(c, Event.Recv(Goaway(last, code, debug))).(goaway := true);
    CellsFailed(c0, Above(c.streams.Keys, last), H2Error(CodeOr(code, NoError), PeerGoaway));
  }

  /**
   * Over every run: a GOAWAY closes an open connection if and only if its code is not zero. Then
   * every waiting head and ping fails with that code, no stream is left, nothing is parked and
   * nothing is written; with code zero exactly the streams above `last` fail.
   */
  lemma GoawayFails(cfg: Config, steps: seq<Step>, last: nat, code: nat, debug: bytes)
    requires cfg.tables.Sized() && Run(cfg, steps).closed.None? && Run(cfg, steps).block.None?
    ensures var c := Run(cfg, steps); var c' := Inbound(cfg, c, Goaway(last, code, debug));
            && c'.goaway && (c'.closed.Some? <==> code != 0)
            && (code != 0 ==>
                  && Blames(c'.closed.value, code) && AllFailed(c, c', c'.closed.value)
                  && c'.log == After(After(c.log, Event.Recv(Goaway(last, code, debug))), TornDown(c'.closed.value)))
            && (code == 0 ==> FailedAbove(c, c', last) && c'.log == After(c.log, Event.Recv(Goaway(last, code, debug))))
  {
    hide Run;
    var c := Run(cfg, steps);
    RunInv(cfg, steps);
    Blamed(code);
    if code == 0 {
      hide Inv, CodeOr, Blames;
      NoneClosed(cfg, c, last, debug);
    } else {
      hide Blames, CodeOr;
      var err := H2Error(CodeOr(code, NoError), PeerGoaway);
      var c1 := TakeGoaway(c, last, code, debug);
      GoawayKeeps(c, c, last, code, debug);
      SettledAlone(c, c1);
      DestroyFails(c1, err);
      FailTwice(c, last, code, debug, Destroy(c1, err));
      GoawayIs(cfg, c, last, code, debug);
    }
  }

  lemma GoawayIs(cfg: Config, c: Conn, last: nat, code: nat, debug: bytes)
    requires c.block.None? && c.closed.None? && code != 0
    ensures var c1 := TakeGoaway(c, last, code, debug);
            && Inbound(cfg, c, Goaway(last, code, debug)) == Destroy(c1, H2Error(CodeOr(code, NoError), PeerGoaway))
            && c1.closed.None? && Destroy(c1, H2Error(CodeOr(code, NoError), PeerGoaway)).goaway
            && c1.log == After(c.log, Event.Recv(Goaway(last, code, debug)))
  {
    hide CodeOr;
  }

  // --- pings ---

  /**
   * In every state of every run: a ping waits exactly while it is registered under its own octets
   * on a connection that is open; it fails only with the error that closed the connection; and it
   * is overwritten only once 2^32 more pings have been started.
   */
  lemma PingFates(cfg: Config, steps: seq<Step>, t: nat)
    requires cfg.tables.Sized() && t in Run(cfg, steps).pongs
    ensures var c := Run(cfg, steps); var pong := c.pongs[t];
            && (pong.Waiting? <==> Octets(t) in c.pings && c.pings[Octets(t)] == t)
            && (pong.Waiting? ==> c.closed.None?)
            && (pong.PingFailed? ==> c.closed == Some(pong.error))
            && (pong.Overwritten? ==> t + 0x1_0000_0000 < c.nextPong)
  {
    hide Run, Octets;
    RunInv(cfg, steps);
    var c := Run(cfg, steps);
    if c.pongs[t].Waiting? {
      var k :| k in c.pings && c.pings[k] == t;
    } else if Octets(t) in c.pings && c.pings[Octets(t)] == t {
      WasWaiting(c, Octets(t));
    }
  }

  /** Starting a ping registers the next number as waiting, in place of one with the same octets, and sends those. */
  lemma PingStarts(cfg: Config, steps: seq<Step>)
    requires cfg.tables.Sized() && Run(cfg, steps).closed.None?
    ensures var c, c' := Run(cfg, steps), StartPing(Run(cfg, steps));
            && c'.log == After(c.log, Sent(Ping(false, Octets(c.nextPong))))
            && c'.pongs.Keys == c.pongs.Keys + {c.nextPong} && c.nextPong !in c.pongs && c'.pongs[c.nextPong] == Waiting
            && forall t :: t in c.pongs ==>
                 c'.pongs[t] == if c.pongs[t].Waiting? && Octets(t) == Octets(c.nextPong) then Overwritten else c.pongs[t]
  {
    hide Run, PingKey;
    RunInv(cfg, steps);
    var c := Run(cfg, steps);
    var key := Octets(c.nextPong);
    CounterIs(c, c);
    assert StartPing(c).log == After(c.log, Sent(Ping(false, key)));
    forall t | t in c.pongs
      ensures t != c.nextPong && (c.pongs[t].Waiting? && Octets(t) == key <==> key in c.pings && c.pings[key] == t)
    {
      PingFates(cfg, steps, t);
    }
  }

  /** An acknowledgement settles the waiting ping that has its octets, and no other. */
  lemma PingAcked(cfg: Config, steps: seq<Step>, opaque8: bytes)
    requires cfg.tables.Sized() && Run(cfg, steps).closed.None? && Run(cfg, steps).block.None?
    ensures var c, c' := Run(cfg, steps), Inbound(cfg, Run(cfg, steps), Ping(true, opaque8));
            && c'.log == After(c.log, Event.Recv(Ping(true, opaque8))) && c'.pongs.Keys == c.pongs.Keys
            && forall t :: t in c.pongs ==>
                 c'.pongs[t] == if c.pongs[t].Waiting? && Octets(t) == opaque8 then Acked else c.pongs[t]
  {
    hide Run, Octets;
    RunInv(cfg, steps);
    var c := Run(cfg, steps);
    if opaque8 in c.pings {
      WasWaiting(c, opaque8);
    }
    forall t | t in c.pongs
      ensures c.pongs[t].Waiting? && Octets(t) == opaque8 <==> opaque8 in c.pings && c.pings[opaque8] == t
    {
      PingFates(cfg, steps, t);
    }
  }

  /** The octets of a ping: four zeros and its number in four octets, most significant first. */
  lemma PingOctets(t: nat)
    ensures var b, n := Octets(t), (t + 1) % 0x1_0000_0000;
            |b| == 8 && b[..4] == [0, 0, 0, 0] && n == b[4] as int * 0x100_0000 + b[5] as int * 0x1_0000 + b[6] as int * 0x100 + b[7]
  {
    var n := (t + 1) % 0x1_0000_0000;
    assert Octets(t) == [0, 0, 0, 0] + Bytes.U32(n);
  }
}
