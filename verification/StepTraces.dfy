/** What a step adds to the trace: the frames it takes in, the stream it opens, and plain events. */
module StepTraces {
  import opened Common
  import opened Bytes
  import opened Hpack
  import opened Frames
  import opened FrameStream
  import opened Flow
  import opened Connection
  import opened Moves

  predicate Plain(e: Event) {
    !e.Recv? && !e.Opened?
  }

  /** `later` is `log` and then plain events. */
  predicate Follows(log: Trace, later: Trace) {
    later == log || (later.After? && Plain(later.event) && Follows(log, later.past))
  }

  lemma {:induction false} FollowsTrans(a: Trace, b: Trace, c: Trace)
    requires Follows(a, b) && Follows(b, c)
    ensures Follows(a, c)
  {
    if c != b {
      FollowsTrans(a, b, c.past);
    }
  }

  /** Only plain events; the undecoded bytes and the next id are as before, and closed stays closed. */
  predicate Murmurs(c: Conn, c': Conn) {
    Follows(c.log, c'.log) && c'.inbox == c.inbox && c'.nextId == c.nextId && (c.closed.Some? ==> c'.closed == c.closed)
  }

  lemma Trans(c: Conn, c': Conn, c'': Conn)
    requires Murmurs(c, c') && Murmurs(c', c'')
    ensures Murmurs(c, c'')
  {
    hide Follows;
    FollowsTrans(c.log, c'.log, c''.log);
  }

  predicate Silent(c: Conn, c': Conn) {
    c'.log == c.log && c'.inbox == c.inbox && c'.nextId == c.nextId && c'.closed == c.closed
  }

  lemma SilentMurmurs(c: Conn, c': Conn)
    requires Silent(c, c')
    ensures Murmurs(c, c')
  {
  }

  lemma LogMurmurs(c: Conn, e: Event)
    requires Plain(e)
    ensures Murmurs(c, Log(c, e))
  {
    assert Follows(c.log, c.log);
  }

  lemma SendMurmurs(c: Conn, f: Frame)
    ensures Murmurs(c, Send(c, f))
  {
    LogMurmurs(c, Sent(f));
    SilentMurmurs(c, c);
  }

  lemma {:induction false} SendAllMurmurs(c: Conn, fs: seq<Frame>)
    ensures Murmurs(c, SendAll(c, fs))
    decreases |fs|
  {
    hide Murmurs, Send;
    if fs == [] {
      SilentMurmurs(c, c);
    } else {
      SendMurmurs(c, fs[0]);
      SendAllMurmurs(Send(c, fs[0]), fs[1..]);
      Trans(c, Send(c, fs[0]), SendAll(c, fs));
    }
  }

  lemma DoomSilent(c: Conn, ids: set<nat>, err: H2Error)
    ensures Silent(c, Doom(c, ids, err))
  {
  }

  lemma RetireSilent(c: Conn, id: nat)
    ensures Silent(c, Retire(c, id))
  {
  }

  lemma DestroyMurmurs(c: Conn, err: H2Error)
    ensures Murmurs(c, Destroy(c, err))
  {
    LogMurmurs(c, TornDown(err));
    SilentMurmurs(c, c);
    hide Doom, Destroy, Follows;
    if c.closed.None? {
      DestroyShape(c, err);
      DoomSilent(c, c.streams.Keys, err);
    } else {
      assert Destroy(c, err) == c by { Closed(c, err); }
    }
  }

  lemma Closed(c: Conn, err: H2Error)
    requires c.closed.Some?
    ensures Destroy(c, err) == c
  {
  }

  lemma ErrorMurmurs(c: Conn, err: H2Error)
    ensures Murmurs(c, ConnectionError(c, err)) && ConnectionError(c, err).closed.Some?
  {
    var f := Goaway(c.highestPromised, err.code.Value(), []);
    assert Destroy(Send(c, f), err).closed.Some?;
    hide Murmurs, Send, Destroy;
    SendMurmurs(c, f);
    DestroyMurmurs(Send(c, f), err);
    Trans(c, Send(c, f), ConnectionError(c, err));
  }

  lemma ResetMurmurs(c: Conn, id: nat, code: ErrorCode)
    ensures Murmurs(c, ResetStream(c, id, code))
  {
    hide Murmurs, Send, Doom;
    var c1 := Send(c, RstStream(id, code.Value()));
    SendMurmurs(c, RstStream(id, code.Value()));
    DoomSilent(c1, {id}, H2Error(code, StreamReset));
    SilentMurmurs(c1, ResetStream(c, id, code));
    Trans(c, c1, ResetStream(c, id, code));
  }

  lemma ReplenishMurmurs(c: Conn, id: nat, n: nat)
    ensures Murmurs(c, Replenish(c, id, n))
  {
    hide Murmurs, Send;
    var c0 := Log(c, Returned(id, n));
    var f, g := WindowUpdate(id, n % U32_LIMIT), WindowUpdate(0, n % U32_LIMIT);
    var c1 := if id in c.streams then Send(c0, f) else c0;
    LogMurmurs(c, Returned(id, n));
    SendMurmurs(c0, f);
    Trans(c, c0, Send(c0, f));
    SendMurmurs(c1, g);
    Trans(c, c1, Send(c1, g));
  }

  // --- frames taken in ---

  lemma DataMurmurs(c: Conn, id: nat, data: bytes, endStream: bool)
    ensures Murmurs(c, ReceiveData(c, id, data, endStream))
    ensures Murmurs(c, Retire(ReceiveData(c, id, data, endStream), id))
  {
    hide Murmurs, Send, DataOnRecv, Retire;
    var c1 := ReceiveData(c, id, data, endStream);
    if id in c.streams && id in c.cells {
      LogMurmurs(c, Discarded(id, |data|));
      SilentMurmurs(c, c);
      var noted := if Dropping(c.cells[id].recv, data) then Log(c, Discarded(id, |data|)) else c;
      SilentMurmurs(noted, c1);
      Trans(c, noted, c1);
    } else if data != [] {
      LogMurmurs(c, Returned(id, |data|));
      SendMurmurs(Log(c, Returned(id, |data|)), WindowUpdate(0, |data| % U32_LIMIT));
      Trans(c, Log(c, Returned(id, |data|)), c1);
    } else {
      SilentMurmurs(c, c);
    }
    RetireSilent(c1, id);
    SilentMurmurs(c1, Retire(c1, id));
    Trans(c, c1, Retire(c1, id));
  }

  lemma DeliverMurmurs(c: Conn, id: nat, headers: seq<Header>, endStream: bool)
    ensures Murmurs(c, Deliver(c, id, headers, endStream))
  {
    hide Murmurs, Retire, HeadersOnCell, Interim;
    var c0 := Log(c, Block(id, false, headers, endStream));
    var c1 := ReceiveHeaders(c0, id, headers, endStream);
    LogMurmurs(c, Block(id, false, headers, endStream));
    SilentMurmurs(c0, c1);
    Trans(c, c0, c1);
    RetireSilent(c1, id);
    SilentMurmurs(c1, Retire(c1, id));
    Trans(c, c1, Retire(c1, id));
  }

  lemma RefuseMurmurs(c: Conn, promised: nat, headers: seq<Header>)
    ensures Murmurs(c, RefusePush(c, promised, headers))
  {
    hide Murmurs, Send;
    var c1 := Log(c, Block(promised, true, headers, false));
    var c2 := c1.(highestPromised := if promised > c.highestPromised then promised else c.highestPromised);
    LogMurmurs(c, Block(promised, true, headers, false));
    SilentMurmurs(c1, c2);
    Trans(c, c1, c2);
    SendMurmurs(c2, RstStream(promised, RefusedStream.Value()));
    Trans(c, c2, RefusePush(c, promised, headers));
  }

  lemma GatherMurmurs(cfg: Config, c: Conn, pb: Pending, endHeaders: bool)
    ensures Murmurs(c, Gather(cfg, c, pb, endHeaders).conn)
  {
    hide Murmurs, DecodeBlock, ReceiveHeaders, Retire, RefusePush;
    var c1 := c.(block := Some(pb));
    SilentMurmurs(c, c1);
    if pb.size <= MAX_HEADER_BLOCK && endHeaders {
      var decoded := DecodeBlock(cfg.tables, c.table, Flatten(pb.fragments));
      var c2 := c1.(block := None, table := decoded.table);
      SilentMurmurs(c, c2);
      if decoded.headers.Ok? {
        if pb.push {
          RefuseMurmurs(c2, pb.promised, decoded.headers.value);
          Trans(c, c2, RefusePush(c2, pb.promised, decoded.headers.value));
        } else {
          DeliverMurmurs(c2, pb.streamId, decoded.headers.value, pb.endStream);
          Trans(c, c2, Deliver(c2, pb.streamId, decoded.headers.value, pb.endStream));
        }
      }
    }
  }

  lemma SettingsMurmur(c: Conn, s: Settings)
    ensures var o := ApplySettings(c, s);
            Murmurs(c, o.conn) && Murmurs(c, Send(o.conn, SettingsFrame(true, NO_SETTINGS)))
  {
    hide Murmurs, Send, ApplySettings;
    var o := ApplySettings(c, s);
    SettingsShape(c, s);
    assert o.conn.inbox == c.inbox by { SettingsInbox(c, s); }
    SilentMurmurs(c, o.conn);
    SendMurmurs(o.conn, SettingsFrame(true, NO_SETTINGS));
    Trans(c, o.conn, Send(o.conn, SettingsFrame(true, NO_SETTINGS)));
  }

  lemma SettingsInbox(c: Conn, s: Settings)
    ensures ApplySettings(c, s).conn.inbox == c.inbox
  {
  }

  lemma GoawayMurmurs(c: Conn, last: nat, code: nat)
    ensures Murmurs(c, HandleGoaway(c, last, code))
  {
    hide Murmurs, Doom, Destroy;
    var err := H2Error(CodeOr(code, NoError), PeerGoaway);
    var c1 := WakeSlots(Doom(c.(goaway := true), Above(c.streams.Keys, last), err));
    DoomSilent(c.(goaway := true), Above(c.streams.Keys, last), err);
    SilentMurmurs(c, c1);
    DestroyMurmurs(c1, err);
    Trans(c, c1, Destroy(c1, err));
  }

  lemma UpdateMurmurs(c: Conn, id: nat, n: nat)
    ensures Murmurs(c, HandleWindowUpdate(c, id, n).conn)
  {
    hide Murmurs, ResetStream;
    SilentMurmurs(c, c);
    ResetMurmurs(c, id, ProtocolError);
    SilentMurmurs(c, GrantConn(c, n));
    SilentMurmurs(c, GrantStream(c, id, n));
  }

  lemma PingMurmurs(c: Conn, ack: bool, opaque8: bytes)
    ensures Murmurs(c, HandlePing(c, ack, opaque8))
  {
    hide Murmurs, Send;
    SendMurmurs(c, Ping(true, opaque8));
    if ack {
      SilentMurmurs(c, HandlePing(c, ack, opaque8));
    }
  }

  lemma HandleMurmurs(cfg: Config, c: Conn, f: Frame)
    ensures Murmurs(Log(c, Event.Recv(f)), Handle(cfg, c, f).conn)
  {
    hide Murmurs, Gather, ApplySettings, Doom, ReceiveData, Retire, HandleWindowUpdate, HandleGoaway, HandlePing, Send;
    var c1 := Log(c, Event.Recv(f));
    SilentMurmurs(c1, c1);
    if OfBlock(f) {
      HandleGathers(cfg, c, f);
      hide Handle;
      if Gathering(c, f).Some? {
        GatherMurmurs(cfg, c1, Gathering(c, f).value, f.endHeaders);
      }
    } else {
      match f {
        case SettingsFrame(_, s) => SettingsMurmur(c1, s);
        case Data(id, data, endStream) => DataMurmurs(c1, id, data, endStream);
        case RstStream(id, code) =>
          DoomSilent(c1, {id}, H2Error(CodeOr(code, ProtocolError), PeerReset));
          SilentMurmurs(c1, Doom(c1, {id}, H2Error(CodeOr(code, ProtocolError), PeerReset)));
        case WindowUpdate(id, n) => UpdateMurmurs(c1, id, n);
        case Ping(ack, opaque8) => PingMurmurs(c1, ack, opaque8);
        case Goaway(last, code, _) => GoawayMurmurs(c1, last, code);
        case Prioritize(_, _) =>
      }
    }
  }

  /** A frame is heard once, and then only plain events; a frame that fails closes. */
  lemma InboundMurmurs(cfg: Config, c: Conn, f: Frame)
    ensures Murmurs(Log(c, Event.Recv(f)), Inbound(cfg, c, f))
    ensures Handle(cfg, c, f).error.Some? ==> Inbound(cfg, c, f).closed.Some?
  {
    hide Murmurs, Handle, ConnectionError;
    HandleMurmurs(cfg, c, f);
    var o := Handle(cfg, c, f);
    if o.error.Some? {
      ErrorMurmurs(o.conn, o.error.value);
      Trans(Log(c, Event.Recv(f)), o.conn, Inbound(cfg, c, f));
    }
  }

  // --- steps of our own ---

  lemma YieldMurmurs(c: Conn, id: nat)
    requires Holds(c, id) && c.cells[id].recv.queue != []
    ensures Murmurs(c, YieldChunk(c, id))
  {
    hide Murmurs, Replenish;
    var e, n := Yielded(id, c.cells[id].recv.queue[0]), |c.cells[id].recv.queue[0]|;
    LogMurmurs(c, e);
    SilentMurmurs(Log(c, e), TakeChunk(c, id));
    Trans(c, Log(c, e), TakeChunk(c, id));
    ReplenishMurmurs(TakeChunk(c, id), id, n);
    Trans(c, TakeChunk(c, id), YieldChunk(c, id));
  }

  lemma DropMurmurs(c: Conn, id: nat)
    requires Holds(c, id)
    ensures Murmurs(c, DropBody(c, id))
  {
    hide Murmurs, Replenish, ResetStream;
    var c0 := Log(c, Event.Released(id));
    var c1, c2 := SetCell(c0, id, c.cells[id].(body := Dropped)), Relinquish(c, id);
    LogMurmurs(c, Event.Released(id));
    SilentMurmurs(c0, c1);
    Trans(c, c0, c1);
    if c.cells[id].recv.buffered > 0 {
      ReplenishMurmurs(c1, id, c.cells[id].recv.buffered);
      Trans(c, c1, c2);
    }
    ResetMurmurs(c2, id, Cancel);
    Trans(c, c2, ResetStream(c2, id, Cancel));
  }

  lemma FinishMurmurs(c: Conn, id: nat)
    requires PumpIs(c, id, true)
    ensures Murmurs(c, FinishBody(c, id))
  {
    hide Murmurs, Retire, Send;
    var c0, f := Log(c, Event.FedAll(id)), Data(id, [], true);
    var c1 := SetPump(c0, id, Finished);
    LogMurmurs(c, Event.FedAll(id));
    SilentMurmurs(c0, c1);
    Trans(c, c0, c1);
    if id in c.streams {
      SendShape(c1, f);
      SendMurmurs(c1, f);
      Trans(c, c1, Send(c1, f));
      var c3 := SetStream(Send(c1, f), id, Send(c1, f).streams[id].(localClosed := true));
      SilentMurmurs(Send(c1, f), c3);
      Trans(c, Send(c1, f), c3);
      RetireSilent(c3, id);
      SilentMurmurs(c3, Retire(c3, id));
      Trans(c, c3, Retire(c3, id));
    }
  }

  lemma PingStarts(c: Conn)
    ensures Murmurs(c, StartPing(c))
  {
    hide Murmurs, Send, PingKey;
    if c.closed.None? {
      var n := (c.pingCounter + 1) % U32_LIMIT;
      var key, token := PingKey(n), c.nextPong;
      var pongs := if key in c.pings then c.pongs[c.pings[key] := Overwritten] else c.pongs;
      var c1 := c.(pingCounter := n, nextPong := token + 1, pings := c.pings[key := token], pongs := pongs[token := Waiting]);
      SilentMurmurs(c, c1);
      SendMurmurs(c1, Ping(false, key));
      Trans(c, c1, Send(c1, Ping(false, key)));
    } else {
      SilentMurmurs(c, c);
    }
  }

  lemma TurnMurmurs(c: Conn, id: nat)
    requires PumpIs(c, id, false) && c.cells[id].pump.offset <= |c.cells[id].pump.chunk|
    ensures Murmurs(c, Turn(c, id))
  {
    hide Turn;
    TurnShape(c, id);
    assert Follows(c.log, c.log);
  }

  lemma CloseMurmurs(c: Conn)
    ensures Murmurs(c, Close(c))
  {
    hide Murmurs, Send, Destroy;
    if c.closed.None? {
      var f := Goaway(c.highestPromised, 0, []);
      SendMurmurs(c, f);
      DestroyMurmurs(Send(c, f), H2Error(NoError, ClosedByClient));
      Trans(c, Send(c, f), Close(c));
    } else {
      SilentMurmurs(c, c);
    }
  }

  lemma LocalMurmurs(c: Conn, id: nat, chunk: bytes)
    ensures PumpIs(c, id, true) ==> Murmurs(c, Feed(c, id, chunk))
    ensures id in c.cells ==> Murmurs(c, Claim(c, id))
    ensures Holds(c, id) ==> Murmurs(c, YieldError(c, id)) && Murmurs(c, Wait(c, id)) && Murmurs(c, Log(c, YieldedEnd(id)))
  {
    hide Murmurs;
    SilentMurmurs(c, c);
    LogMurmurs(c, Event.Fed(id, chunk));
    LogMurmurs(c, YieldedError(id));
    LogMurmurs(c, YieldedEnd(id));
    if PumpIs(c, id, true) && chunk != [] {
      SilentMurmurs(Log(c, Event.Fed(id, chunk)), Feed(c, id, chunk));
      Trans(c, Log(c, Event.Fed(id, chunk)), Feed(c, id, chunk));
    }
    if id in c.cells {
      SilentMurmurs(c, Claim(c, id));
    }
    if Holds(c, id) {
      SilentMurmurs(c, Wait(c, id));
      SilentMurmurs(Log(c, YieldedError(id)), YieldError(c, id));
      Trans(c, Log(c, YieldedError(id)), YieldError(c, id));
    }
  }

  /** Steps that take in no bytes and open no stream. */
  lemma StepMurmurs(cfg: Config, c: Conn, s: Step)
    requires cfg.tables.Sized() && Enabled(c, s) && !s.DoBytes? && !s.DoRequest?
    ensures Murmurs(c, Perform(cfg, c, s))
  {
    hide Murmurs, Destroy, Feed, Turn, FinishBody, Claim, YieldChunk, YieldError, Wait, DropBody, StartPing, Close;
    match s
    case DoLost(writing) => DestroyMurmurs(c, LostError(writing));
    case DoFeed(id, chunk) => LocalMurmurs(c, id, chunk);
    case DoTurn(id) => TurnMurmurs(c, id);
    case DoFinish(id) => FinishMurmurs(c, id);
    case DoClaim(id) => LocalMurmurs(c, id, []);
    case DoRead(id) =>
      LocalMurmurs(c, id, []);
      if c.cells[id].recv.queue != [] {
        YieldMurmurs(c, id);
      }
    case DoDrop(id) => DropMurmurs(c, id);
    case DoPing => PingStarts(c);
    case DoClose => CloseMurmurs(c);
  }

  /** A stream is opened first, and then written about. */
  lemma OpenMurmurs(cfg: Config, c: Conn, headers: seq<Header>, hasBody: bool)
    requires cfg.tables.Sized()
    ensures var block := EncodeHeaders(cfg.tables, headers);
            Murmurs(Log(Reserve(c, hasBody), Event.Opened(c.nextId, block, hasBody)), Open(cfg, c, headers, hasBody))
  {
    hide Murmurs, EncodeHeaders, SendAll, SplitHeaders;
    var block := EncodeHeaders(cfg.tables, headers);
    SendAllMurmurs(Log(Reserve(c, hasBody), Event.Opened(c.nextId, block, hasBody)),
                   SplitHeaders(c.nextId, block, !hasBody, c.remote.maxFrameSize));
  }

  // --- all that came in ---

  /** The frames heard, in order. */
  function FramesIn(log: Trace): (fs: seq<Frame>) {
    match log
    case Begin => []
    case After(past, Recv(f)) => FramesIn(past) + [f]
    case After(past, _) => FramesIn(past)
  }

  lemma {:induction false} FollowsFrames(log: Trace, later: Trace)
    requires Follows(log, later)
    ensures FramesIn(later) == FramesIn(log)
  {
    if later != log {
      FollowsFrames(log, later.past);
    }
  }

  lemma MurmursFrames(c: Conn, c': Conn)
    requires Murmurs(c, c')
    ensures FramesIn(c'.log) == FramesIn(c.log)
  {
    FollowsFrames(c.log, c'.log);
  }

  /** The bytes of all chunks. */
  function Input(steps: seq<Step>): (b: bytes) {
    if steps == [] then []
    else
      var s := steps[|steps| - 1];
      Input(steps[..|steps| - 1]) + if s.DoBytes? then s.chunk else []
  }

  /** A connection that is open after these frames was open before them and has heard them all. */
  lemma {:induction false} InboundAllHears(cfg: Config, c: Conn, fs: seq<Frame>)
    ensures var c' := InboundAll(cfg, c, fs);
            c'.closed.None? ==> c.closed.None? && FramesIn(c'.log) == FramesIn(c.log) + fs && c'.inbox == c.inbox
    decreases |fs|
  {
    hide Handle, Inbound, FramesIn;
    if fs == [] {
      assert FramesIn(c.log) + [] == FramesIn(c.log);
    } else {
      InboundMurmurs(cfg, c, fs[0]);
      var c1 := Inbound(cfg, c, fs[0]);
      MurmursFrames(Log(c, Event.Recv(fs[0])), c1);
      assert FramesIn(Log(c, Event.Recv(fs[0])).log) == FramesIn(c.log) + [fs[0]] by { HeardFrame(c.log, fs[0]); }
      InboundAllHears(cfg, c1, fs[1..]);
      assert FramesIn(c.log) + [fs[0]] + fs[1..] == FramesIn(c.log) + fs;
    }
  }

  lemma HeardFrame(log: Trace, f: Frame)
    ensures FramesIn(After(log, Event.Recv(f))) == FramesIn(log) + [f]
  {
  }

  lemma BytesHeard(cfg: Config, c: Conn, chunk: bytes)
    requires OnBytes(cfg, c, chunk).closed.None?
    ensures var c' := OnBytes(cfg, c, chunk);
            && c.closed.None? && Scan(c.inbox + chunk, cfg.maxFrame).Ok?
            && var s := Scan(c.inbox + chunk, cfg.maxFrame).value;
               FramesIn(c'.log) == FramesIn(c.log) + s.frames && c'.inbox == s.rest
  {
    hide Scan, InboundAll, ConnectionError, FramesIn;
    var scanned := Scan(c.inbox + chunk, cfg.maxFrame);
    if scanned.Err? {
      ErrorMurmurs(c.(inbox := []), scanned.error);
    } else {
      InboundAllHears(cfg, c.(inbox := scanned.value.rest), scanned.value.frames);
    }
  }

  lemma OwnStepHears(cfg: Config, c: Conn, s: Step)
    requires cfg.tables.Sized() && Enabled(c, s) && !s.DoBytes?
    ensures var c' := Perform(cfg, c, s);
            FramesIn(c'.log) == FramesIn(c.log) && c'.inbox == c.inbox && (c'.closed.None? ==> c.closed.None?)
  {
    hide Perform, FramesIn, Follows;
    if !s.DoRequest? {
      StepMurmurs(cfg, c, s);
      MurmursFrames(c, Perform(cfg, c, s));
    } else {
      RequestHears(cfg, c, s.token, s.headers, s.hasBody);
      assert Perform(cfg, c, s) == Request(cfg, c, s.token, s.headers, s.hasBody) by { RequestStep(cfg, c, s); }
    }
  }

  lemma RequestStep(cfg: Config, c: Conn, s: Step)
    requires cfg.tables.Sized() && s.DoRequest?
    ensures Enabled(c, s) && Perform(cfg, c, s) == Request(cfg, c, s.token, s.headers, s.hasBody)
  {
    hide Request;
  }

  lemma RequestHears(cfg: Config, c: Conn, token: nat, headers: seq<Header>, hasBody: bool)
    requires cfg.tables.Sized()
    ensures var c' := Request(cfg, c, token, headers, hasBody);
            FramesIn(c'.log) == FramesIn(c.log) && c'.inbox == c.inbox && (c'.closed.None? ==> c.closed.None?)
  {
    hide Open, CanOpen, Follows;
    var block := EncodeHeaders(cfg.tables, headers);
    OpenMurmurs(cfg, c, headers, hasBody);
    var c1 := Log(Reserve(c, hasBody), Event.Opened(c.nextId, block, hasBody));
    MurmursFrames(c1, Open(cfg, c, headers, hasBody));
    assert FramesIn(c1.log) == FramesIn(c.log);
    hide FramesIn;
  }

  /**
   * While a connection is open, the frames it has handled are exactly those of all the bytes
   * that came in, in order and each once, and what it holds undecoded is what they leave.
   */
  lemma {:induction false} AllHeard(cfg: Config, steps: seq<Step>)
    requires cfg.tables.Sized() && Run(cfg, steps).closed.None?
    ensures var c := Run(cfg, steps);
            Scan(Input(steps), cfg.maxFrame) == Ok(Scanned(FramesIn(c.log), c.inbox))
    decreases |steps|
  {
    hide Perform, Enabled, FramesIn, Connect, Scan;
    if steps == [] {
      StartHears(cfg);
    } else {
      var before, s := steps[..|steps| - 1], steps[|steps| - 1];
      var c := Run(cfg, before);
      assert Run(cfg, steps) == if Enabled(c, s) then Perform(cfg, c, s) else c;
      if s.DoBytes? {
        assert Enabled(c, s) && Perform(cfg, c, s) == OnBytes(cfg, c, s.chunk) by { BytesStep(cfg, c, s); }
        hide OnBytes;
        BytesHeard(cfg, c, s.chunk);
        AllHeard(cfg, before);
        ScanAppend(Input(before), s.chunk, cfg.maxFrame);
      } else {
        if Enabled(c, s) {
          OwnStepHears(cfg, c, s);
        }
        AllHeard(cfg, before);
        assert Input(before) + [] == Input(before);
      }
    }
  }

  lemma BytesStep(cfg: Config, c: Conn, s: Step)
    requires cfg.tables.Sized() && s.DoBytes?
    ensures Enabled(c, s) && Perform(cfg, c, s) == OnBytes(cfg, c, s.chunk)
  {
    hide OnBytes;
  }

  lemma StartHears(cfg: Config)
    ensures var c := Connect(cfg); Scan([], cfg.maxFrame) == Ok(Scanned(FramesIn(c.log), c.inbox))
  {
    ConnectShape(cfg);
    hide Connect;
    var log := After(Begin, Sent(SettingsFrame(false, OurSettings(cfg))));
    assert FramesIn(log) == [];
  }
}
