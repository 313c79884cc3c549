/** Exactly what each frame and each step makes the connection write, and which frames close it. */
module Replies {
  import opened Common
  import opened Hpack
  import opened Frames
  import opened FrameStream
  import opened Flow
  import opened Connection
  import opened Moves

  /** The frames written, in order. */
  function SentIn(log: Trace): (fs: seq<Frame>) {
    match log
    case Begin => []
    case After(past, Sent(f)) => SentIn(past) + [f]
    case After(past, _) => SentIn(past)
  }

  /** Between these two states exactly these frames are written. */
  predicate Says(c: Conn, c': Conn, fs: seq<Frame>) {
    SentIn(c'.log) == SentIn(c.log) + fs && (c.closed.Some? ==> c'.closed == c.closed)
  }

  lemma SaysTrans(c: Conn, c': Conn, c'': Conn, fs: seq<Frame>, gs: seq<Frame>)
    requires Says(c, c', fs) && Says(c', c'', gs)
    ensures Says(c, c'', fs + gs)
  {
    hide SentIn;
    assert SentIn(c.log) + fs + gs == SentIn(c.log) + (fs + gs);
  }

  /** A change that writes nothing may come first or last. */
  lemma SaysAfter(c: Conn, c': Conn, c'': Conn, gs: seq<Frame>)
    requires Says(c, c', []) && Says(c', c'', gs)
    ensures Says(c, c'', gs)
  {
    hide Says;
    SaysTrans(c, c', c'', [], gs);
    assert [] + gs == gs;
  }

  lemma SaysBefore(c: Conn, c': Conn, c'': Conn, fs: seq<Frame>)
    requires Says(c, c', fs) && Says(c', c'', [])
    ensures Says(c, c'', fs)
  {
    hide Says;
    SaysTrans(c, c', c'', fs, []);
    assert fs + [] == fs;
  }

  lemma Quietly(c: Conn, c': Conn)
    requires c'.log == c.log && c'.closed == c.closed
    ensures Says(c, c', [])
  {
    assert SentIn(c.log) + [] == SentIn(c.log);
  }

  lemma LogSays(c: Conn, e: Event)
    requires !e.Sent?
    ensures Says(c, Log(c, e), [])
  {
    assert SentIn(c.log) + [] == SentIn(c.log);
  }

  function IfOpen(c: Conn, fs: seq<Frame>): (r: seq<Frame>) {
    if c.closed.Some? then [] else fs
  }

  lemma SendSays(c: Conn, f: Frame)
    ensures Says(c, Send(c, f), IfOpen(c, [f])) && Send(c, f).closed == c.closed
  {
    assert SentIn(c.log) + [] == SentIn(c.log);
  }

  lemma {:induction false} SendAllSays(c: Conn, fs: seq<Frame>)
    requires c.closed.None?
    ensures Says(c, SendAll(c, fs), fs)
    decreases |fs|
  {
    hide Says, Send;
    if fs == [] {
      Quietly(c, c);
    } else {
      SendSays(c, fs[0]);
      SendAllSays(Send(c, fs[0]), fs[1..]);
      SaysTrans(c, Send(c, fs[0]), SendAll(c, fs), [fs[0]], fs[1..]);
      assert [fs[0]] + fs[1..] == fs;
    }
  }

  lemma DoomQuiet(c: Conn, ids: set<nat>, err: H2Error)
    ensures var d := Doom(c, ids, err); d.log == c.log && d.closed == c.closed
  {
  }

  lemma RetireQuiet(c: Conn, id: nat)
    ensures var d := Retire(c, id); d.log == c.log && d.closed == c.closed
  {
  }

  lemma DestroySays(c: Conn, err: H2Error)
    ensures Says(c, Destroy(c, err), []) && Destroy(c, err).closed == if c.closed.Some? then c.closed else Some(err)
  {
    if c.closed.None? {
      hide Doom, Destroy;
      DestroyShape(c, err);
      LogSays(c, TornDown(err));
    } else {
      Quietly(c, c);
    }
  }

  lemma ErrorSays(c: Conn, err: H2Error)
    requires c.closed.None?
    ensures Says(c, ConnectionError(c, err), [Goaway(c.highestPromised, err.code.Value(), [])])
    ensures ConnectionError(c, err).closed == Some(err)
  {
    hide Says, Send, Destroy;
    var g := Goaway(c.highestPromised, err.code.Value(), []);
    SendSays(c, g);
    DestroySays(Send(c, g), err);
    SaysBefore(c, Send(c, g), ConnectionError(c, err), [g]);
  }

  lemma ResetSays(c: Conn, id: nat, code: ErrorCode)
    ensures Says(c, ResetStream(c, id, code), IfOpen(c, [RstStream(id, code.Value())])) && ResetStream(c, id, code).closed == c.closed
  {
    hide Says, Send, Doom;
    var f := RstStream(id, code.Value());
    SendSays(c, f);
    DoomQuiet(Send(c, f), {id}, H2Error(code, StreamReset));
    Quietly(Send(c, f), ResetStream(c, id, code));
    SaysBefore(c, Send(c, f), ResetStream(c, id, code), IfOpen(c, [f]));
  }

  /** Credit for `n` bytes: the connection's always, the stream's while it is mapped. */
  function Credit(c: Conn, id: nat, n: nat): (fs: seq<Frame>) {
    if c.closed.Some? || n == 0 then []
    else (if id in c.streams then [WindowUpdate(id, n % 0x1_0000_0000)] else []) + [WindowUpdate(0, n % 0x1_0000_0000)]
  }

  lemma ReplenishSays(c: Conn, id: nat, n: nat)
    ensures Says(c, Replenish(c, id, n), Credit(c, id, n)) && Replenish(c, id, n).closed == c.closed
  {
    hide Says, Send;
    var c0 := Log(c, Returned(id, n));
    LogSays(c, Returned(id, n));
    if c.closed.None? && n > 0 {
      var f, g := WindowUpdate(id, n % U32_LIMIT), WindowUpdate(0, n % U32_LIMIT);
      SendSays(c0, f);
      SaysAfter(c, c0, Send(c0, f), [f]);
      if id in c.streams {
        SendSays(Send(c0, f), g);
        SaysTrans(c, Send(c0, f), Replenish(c, id, n), [f], [g]);
      } else {
        SendSays(c0, g);
        SaysAfter(c, c0, Send(c0, g), [g]);
        assert [] + [g] == [g];
      }
    }
  }

  // --- what a frame may be faulted for ---

  /** The fault of a header block with this frame: out of place, more than 1 MiB, or undecodable. */
  function BlockFault(cfg: Config, c: Conn, f: Frame): (code: Option<ErrorCode>)
    requires OfBlock(f)
  {
    match Gathering(c, f)
    case None => Some(ProtocolError)
    case Some(pb) =>
      if pb.size > 0x10_0000 then Some(EnhanceYourCalm)
      else if !f.endHeaders then None
      else match DecodeBlock(cfg.tables, c.table, Flatten(pb.fragments)).headers
        case Ok(_) => None
        case Err(e) => Some(e.code)
  }

  /** Why a frame closes the connection with a GOAWAY of ours, if it does. */
  function Fault(cfg: Config, c: Conn, f: Frame): (code: Option<ErrorCode>) {
    if c.block.Some? && !f.Continuation? then Some(ProtocolError)
    else if OfBlock(f) then BlockFault(cfg, c, f)
    else match f
      case SettingsFrame(ack, s) =>
        if ack then None
        else if s.initialWindowSize.Some? && s.initialWindowSize.value > 0x7fff_ffff then Some(FlowControlError)
        else if s.maxFrameSize.Some? && !(16384 <= s.maxFrameSize.value <= 16777215) then Some(ProtocolError)
        else None
      case WindowUpdate(id, n) => if id == 0 && n == 0 then Some(ProtocolError) else None
      case _ => None
  }

  predicate FaultIs(o: Outcome, code: Option<ErrorCode>) {
    if o.error.Some? then code == Some(o.error.value.code) else code.None?
  }

  lemma GatherFault(cfg: Config, c: Conn, pb: Pending, endHeaders: bool)
    ensures FaultIs(Gather(cfg, c, pb, endHeaders),
                    if pb.size > 0x10_0000 then Some(EnhanceYourCalm)
                    else if !endHeaders then None
                    else var d := DecodeBlock(cfg.tables, c.table, Flatten(pb.fragments)).headers;
                      if d.Ok? then None else Some(d.error.code))
  {
    hide DecodeBlock, ReceiveHeaders, Retire, RefusePush;
  }

  lemma SettingsFault(c: Conn, s: Settings)
    ensures FaultIs(ApplySettings(c, s),
                    if s.initialWindowSize.Some? && s.initialWindowSize.value > 0x7fff_ffff then Some(FlowControlError)
                    else if s.maxFrameSize.Some? && !(16384 <= s.maxFrameSize.value <= 16777215) then Some(ProtocolError)
                    else None)
  {
    hide SetInitialWindow;
  }

  lemma HandleFault(cfg: Config, c: Conn, f: Frame)
    ensures FaultIs(Handle(cfg, c, f), Fault(cfg, c, f))
  {
    hide Gather, ApplySettings, Doom, ReceiveData, Retire, ResetStream, HandleGoaway, HandlePing, GrantConn, GrantStream, Gathering, DecodeBlock;
    if OfBlock(f) {
      HandleGathers(cfg, c, f);
      if c.block.Some? && !f.Continuation? {
        OutOfTurn(cfg, c, f);
      } else {
        hide Handle;
        if Gathering(c, f).Some? {
          GatherFault(cfg, Log(c, Event.Recv(f)), Gathering(c, f).value, f.endHeaders);
        } else {
          NotGathering(cfg, c, f);
        }
      }
    } else if f.SettingsFrame? {
      SettingsFault(Log(c, Event.Recv(f)), f.settings);
    }
  }

  lemma OutOfTurn(cfg: Config, c: Conn, f: Frame)
    requires c.block.Some? && !f.Continuation?
    ensures FaultIs(Handle(cfg, c, f), Some(ProtocolError))
  {
  }

  lemma NotGathering(cfg: Config, c: Conn, f: Frame)
    requires OfBlock(f) && Gathering(c, f).None?
    ensures FaultIs(Handle(cfg, c, f), Some(ProtocolError))
  {
  }

  // --- what a frame is answered with ---

  /** The stream of the promise that this frame completes. */
  function PromiseIn(cfg: Config, c: Conn, f: Frame): (id: Option<nat>) {
    var pb := Gathering(c, f);
    if OfBlock(f) && f.endHeaders && pb.Some? && pb.value.push then Some(pb.value.promised) else None
  }

  /** The answer to a frame that is not faulted. */
  function Answer(cfg: Config, c: Conn, f: Frame): (fs: seq<Frame>) {
    match f
    case SettingsFrame(false, _) => [SettingsFrame(true, NO_SETTINGS)]
    case Ping(false, opaque8) => [Ping(true, opaque8)]
    case WindowUpdate(id, n) => if n == 0 then [RstStream(id, 1)] else []
    case Data(id, data, _) => if id !in c.streams && data != [] then [WindowUpdate(0, |data| % 0x1_0000_0000)] else []
    case _ => match PromiseIn(cfg, c, f) case Some(id) => [RstStream(id, 7)] case None => []
  }

  function Reply(cfg: Config, c: Conn, f: Frame): (fs: seq<Frame>) {
    match Fault(cfg, c, f)
    case Some(code) => [Goaway(c.highestPromised, code.Value(), [])]
    case None => Answer(cfg, c, f)
  }

  lemma DataSays(c: Conn, id: nat, data: bytes, endStream: bool)
    requires c.closed.None? && c.streams.Keys <= c.cells.Keys
    ensures var d := ReceiveData(c, id, data, endStream);
            Says(c, d, if id !in c.streams && data != [] then [WindowUpdate(0, |data| % 0x1_0000_0000)] else []) && d.closed.None?
  {
    hide Says, Send, DataOnRecv, Dropping;
    var d := ReceiveData(c, id, data, endStream);
    Quietly(c, c);
    if id in c.streams {
      var noted := if Dropping(c.cells[id].recv, data) then Log(c, Discarded(id, |data|)) else c;
      LogSays(c, Discarded(id, |data|));
      Quietly(noted, d);
      SaysAfter(c, noted, d, []);
    } else if data != [] {
      var c1, f := Log(c, Returned(id, |data|)), WindowUpdate(0, |data| % U32_LIMIT);
      LogSays(c, Returned(id, |data|));
      SendSays(c1, f);
      SaysAfter(c, c1, Send(c1, f), [f]);
    }
  }

  lemma DeliverSays(c: Conn, id: nat, headers: seq<Header>, endStream: bool)
    ensures Says(c, Deliver(c, id, headers, endStream), []) && Deliver(c, id, headers, endStream).closed == c.closed
  {
    hide Says, Retire, HeadersOnCell, Interim;
    var c0 := Log(c, Block(id, false, headers, endStream));
    var c1 := ReceiveHeaders(c0, id, headers, endStream);
    LogSays(c, Block(id, false, headers, endStream));
    RetireQuiet(c1, id);
    Quietly(c0, Deliver(c, id, headers, endStream));
    SaysAfter(c, c0, Deliver(c, id, headers, endStream), []);
  }

  lemma RefuseSays(c: Conn, promised: nat, headers: seq<Header>)
    requires c.closed.None?
    ensures Says(c, RefusePush(c, promised, headers), [RstStream(promised, 7)]) && RefusePush(c, promised, headers).closed.None?
  {
    hide Says, Send;
    var e := Block(promised, true, headers, false);
    var c1 := Log(c, e).(highestPromised := if promised > c.highestPromised then promised else c.highestPromised);
    LogSays(c, e);
    Quietly(Log(c, e), c1);
    SaysAfter(c, Log(c, e), c1, []);
    SendSays(c1, RstStream(promised, 7));
    SaysAfter(c, c1, RefusePush(c, promised, headers), [RstStream(promised, 7)]);
  }

  lemma GatherSays(cfg: Config, c: Conn, pb: Pending, endHeaders: bool)
    requires c.closed.None? && Gather(cfg, c, pb, endHeaders).error.None?
    ensures var d := Gather(cfg, c, pb, endHeaders).conn;
            Says(c, d, if endHeaders && pb.push then [RstStream(pb.promised, 7)] else []) && d.closed.None?
  {
    hide Says, DecodeBlock, ReceiveHeaders, Retire, RefusePush;
    var c1 := c.(block := Some(pb));
    Quietly(c, c1);
    if endHeaders {
      var decoded := DecodeBlock(cfg.tables, c.table, Flatten(pb.fragments));
      var c2 := c1.(block := None, table := decoded.table);
      Quietly(c, c2);
      if pb.push {
        RefuseSays(c2, pb.promised, decoded.headers.value);
        SaysAfter(c, c2, RefusePush(c2, pb.promised, decoded.headers.value), [RstStream(pb.promised, 7)]);
      } else {
        DeliverSays(c2, pb.streamId, decoded.headers.value, pb.endStream);
        SaysAfter(c, c2, Deliver(c2, pb.streamId, decoded.headers.value, pb.endStream), []);
      }
    }
  }

  lemma BlockSays(cfg: Config, c: Conn, f: Frame)
    requires c.closed.None? && OfBlock(f) && Handle(cfg, c, f).error.None?
    ensures var d := Handle(cfg, c, f).conn; Says(Log(c, Event.Recv(f)), d, Answer(cfg, c, f)) && d.closed.None?
  {
    HandleGathers(cfg, c, f);
    hide Says, Handle, Gather, Gathering;
    GatherSays(cfg, Log(c, Event.Recv(f)), Gathering(c, f).value, f.endHeaders);
  }

  lemma SettingsSays(c: Conn, s: Settings)
    requires c.closed.None?
    ensures var d := Send(ApplySettings(c, s).conn, SettingsFrame(true, NO_SETTINGS));
            Says(c, d, [SettingsFrame(true, NO_SETTINGS)]) && d.closed.None?
  {
    hide Says, Send, ApplySettings;
    SettingsShape(c, s);
    var c1 := ApplySettings(c, s).conn;
    Quietly(c, c1);
    SendSays(c1, SettingsFrame(true, NO_SETTINGS));
    SaysAfter(c, c1, Send(c1, SettingsFrame(true, NO_SETTINGS)), [SettingsFrame(true, NO_SETTINGS)]);
  }

  lemma GoawaySays(c: Conn, last: nat, code: nat)
    requires c.closed.None?
    ensures var d := HandleGoaway(c, last, code);
            Says(c, d, []) && d.closed == if code == 0 then None else Some(H2Error(CodeOr(code, NoError), PeerGoaway))
  {
    hide Says, Doom, Destroy;
    var err := H2Error(CodeOr(code, NoError), PeerGoaway);
    var c1 := WakeSlots(Doom(c.(goaway := true), Above(c.streams.Keys, last), err));
    DoomQuiet(c.(goaway := true), Above(c.streams.Keys, last), err);
    Quietly(c, c1);
    DestroySays(c1, err);
    SaysAfter(c, c1, Destroy(c1, err), []);
  }

  lemma NoticeSays(cfg: Config, c: Conn, f: Frame)
    requires c.closed.None? && c.block.None? && !OfBlock(f) && Handle(cfg, c, f).error.None? && c.streams.Keys <= c.cells.Keys
    ensures var d := Handle(cfg, c, f).conn;
            && Says(Log(c, Event.Recv(f)), d, Answer(cfg, c, f))
            && d.closed == if f.Goaway? && f.errorCode != 0 then Some(H2Error(CodeOr(f.errorCode, NoError), PeerGoaway)) else None
  {
    hide Says, ApplySettings, Doom, ReceiveData, Retire, HandleGoaway, ResetStream, GrantConn, GrantStream, Send;
    var c1 := Log(c, Event.Recv(f));
    Quietly(c1, c1);
    match f
    case SettingsFrame(_, s) => SettingsSays(c1, s);
    case Data(id, data, endStream) =>
      var d := ReceiveData(c1, id, data, endStream);
      DataSays(c1, id, data, endStream);
      RetireQuiet(d, id);
      Quietly(d, Retire(d, id));
      SaysBefore(c1, d, Retire(d, id), Answer(cfg, c, f));
    case RstStream(id, code) =>
      DoomQuiet(c1, {id}, H2Error(CodeOr(code, ProtocolError), PeerReset));
      Quietly(c1, Doom(c1, {id}, H2Error(CodeOr(code, ProtocolError), PeerReset)));
    case WindowUpdate(id, n) => UpdateSays(c1, id, n);
    case Ping(ack, opaque8) =>
      SendSays(c1, Ping(true, opaque8));
      Quietly(c1, HandlePing(c1, true, opaque8));
    case Goaway(last, code, _) => GoawaySays(c1, last, code);
    case Prioritize(_, _) =>
  }

  lemma UpdateSays(c: Conn, id: nat, n: nat)
    requires c.closed.None?
    ensures var o := HandleWindowUpdate(c, id, n);
            o.error.None? ==> Says(c, o.conn, if n == 0 then [RstStream(id, 1)] else []) && o.conn.closed.None?
  {
    hide Says, ResetStream;
    ResetSays(c, id, ProtocolError);
    Quietly(c, GrantConn(c, n));
    Quietly(c, GrantStream(c, id, n));
  }

  /**
   * A frame makes an open connection write exactly its answer, or a GOAWAY if it is at fault; and
   * it closes the connection exactly if it is at fault or is a GOAWAY with an error, with that code.
   */
  lemma FrameReplies(cfg: Config, c: Conn, f: Frame)
    requires c.closed.None? && c.streams.Keys <= c.cells.Keys
    ensures var d := Inbound(cfg, c, f);
            && SentIn(d.log) == SentIn(c.log) + Reply(cfg, c, f)
            && (d.closed.Some? <==> Fault(cfg, c, f).Some? || (f.Goaway? && f.errorCode != 0))
            && (d.closed.Some? ==> d.closed.value.code == if Fault(cfg, c, f).Some? then Fault(cfg, c, f).value else CodeOr(f.errorCode, NoError))
  {
    hide Says, Handle, Fault, Answer, ConnectionError;
    var c1, o := Log(c, Event.Recv(f)), Handle(cfg, c, f);
    HandleFault(cfg, c, f);
    LogSays(c, Event.Recv(f));
    if o.error.Some? {
      CrashShape(cfg, c, f);
      Quietly(c1, o.conn);
      SaysAfter(c, c1, o.conn, []);
      ErrorSays(o.conn, o.error.value);
      SaysAfter(c, o.conn, Inbound(cfg, c, f), Reply(cfg, c, f));
    } else {
      if OfBlock(f) {
        BlockSays(cfg, c, f);
      } else {
        InOrder(cfg, c, f);
        NoticeSays(cfg, c, f);
      }
      SaysAfter(c, c1, o.conn, Answer(cfg, c, f));
    }
    SaysMeans(c, Inbound(cfg, c, f), Reply(cfg, c, f));
  }

  lemma InOrder(cfg: Config, c: Conn, f: Frame)
    requires Fault(cfg, c, f).None? && !OfBlock(f)
    ensures c.block.None?
  {
  }

  lemma SaysMeans(c: Conn, c': Conn, fs: seq<Frame>)
    requires Says(c, c', fs)
    ensures SentIn(c'.log) == SentIn(c.log) + fs
  {
  }

  // --- what a step of our own writes ---

  /** The rest of the chunk as far as the windows and the peer's frame limit go, if there is capacity at all. */
  predicate Fills(c: Conn, id: nat, f: Frame)
    requires id in c.cells && c.cells[id].pump.Sending? && c.cells[id].pump.offset <= |c.cells[id].pump.chunk| && id in c.streams
  {
    var p := c.cells[id].pump;
    var rest, n := p.chunk[p.offset..], if f.Data? then |f.data| else 0;
    && 0 < n <= |rest| && f == Data(id, rest[..n], false)
    && n <= c.window.available && n <= c.streams[id].window.available && n <= c.remote.maxFrameSize
    && (n == |rest| || n == c.window.available || n == c.streams[id].window.available || n == c.remote.maxFrameSize)
  }

  predicate MaySend(c: Conn, id: nat) {
    c.closed.None? && id in c.streams && c.window.available > 0 && c.streams[id].window.available > 0
  }

  /** One turn of an upload writes one frame, as large as it may be, exactly if there is capacity. */
  lemma TurnWrites(c: Conn, id: nat)
    requires PumpIs(c, id, false) && c.cells[id].pump.offset < |c.cells[id].pump.chunk| && WindowsOpen(c)
    ensures var d := Turn(c, id);
            if MaySend(c, id) then
              && |SentIn(d.log)| == |SentIn(c.log)| + 1 && SentIn(d.log)[..|SentIn(c.log)|] == SentIn(c.log)
              && Fills(c, id, SentIn(d.log)[|SentIn(c.log)|]) && |SentIn(d.log)[|SentIn(c.log)|].data| == Grant(c, id)
            else SentIn(d.log) == SentIn(c.log)
  {
    if MaySend(c, id) {
      var n, p := Grant(c, id), c.cells[id].pump;
      var f := Data(id, p.chunk[p.offset..p.offset + n], false);
      assert p.chunk[p.offset..][..n] == p.chunk[p.offset..p.offset + n];
      SendChunkLog(c, id, n);
      hide SendChunk;
      assert SentIn(After(c.log, Sent(f))) == SentIn(c.log) + [f];
    } else {
      hide SentIn;
    }
  }

  /** And it moves the upload on: past what was written, to the windows it must wait for, or to its end if nobody is there. */
  lemma TurnMoves(c: Conn, id: nat)
    requires PumpIs(c, id, false) && c.cells[id].pump.offset < |c.cells[id].pump.chunk| && WindowsOpen(c)
    ensures var p, d := c.cells[id].pump, Turn(c, id);
            && id in d.cells
            && if c.closed.Some? || id !in c.streams then d.cells[id].pump == Finished
               else if MaySend(c, id) then
                 var n := Grant(c, id);
                 d.cells[id].pump == if p.offset + n == |p.chunk| then Idle else Sending(p.chunk, p.offset + n)
               else d.cells[id].pump == p && id in d.parked
  {
    if c.closed.None? && id in c.streams && MaySend(c, id) {
      var n := Grant(c, id);
      SendChunkPump(c, id, n);
      hide SendChunk, Park;
    } else {
      hide SendChunk, Grant;
    }
  }

  lemma SendChunkPump(c: Conn, id: nat, n: nat)
    requires PumpIs(c, id, false) && id in c.streams && c.closed.None?
    requires var p := c.cells[id].pump; p.offset + n <= |p.chunk|
    ensures var p, d := c.cells[id].pump, SendChunk(c, id, n);
            id in d.cells && d.cells[id].pump == if p.offset + n == |p.chunk| then Idle else Sending(p.chunk, p.offset + n)
  {
  }

  lemma SendChunkLog(c: Conn, id: nat, n: nat)
    requires PumpIs(c, id, false) && id in c.streams && c.closed.None?
    requires var p := c.cells[id].pump; p.offset + n <= |p.chunk|
    ensures var p := c.cells[id].pump;
            SendChunk(c, id, n).log == After(c.log, Sent(Data(id, p.chunk[p.offset..p.offset + n], false)))
  {
  }

  /** What the other steps write. */
  function Written(cfg: Config, c: Conn, s: Step): (fs: seq<Frame>)
    requires cfg.tables.Sized() && Enabled(c, s) && !s.DoBytes? && !s.DoTurn?
  {
    match s
    case DoRequest(token, headers, hasBody) =>
      if Refusing(c) || token in c.waiters || !CanOpen(c) then []
      else SplitHeaders(c.nextId, EncodeHeaders(cfg.tables, headers), !hasBody, c.remote.maxFrameSize)
    case DoFinish(id) => if id in c.streams then IfOpen(c, [Data(id, [], true)]) else []
    case DoRead(id) => if c.cells[id].recv.queue == [] then [] else Credit(c, id, |c.cells[id].recv.queue[0]|)
    case DoDrop(id) =>
      var r := c.cells[id].recv;
      Credit(c, id, if r.buffered > 0 then r.buffered else 0) + if r.ended then [] else IfOpen(c, [RstStream(id, 8)])
    case DoPing => IfOpen(c, [Ping(false, PingKey((c.pingCounter + 1) % 0x1_0000_0000))])
    case DoClose => IfOpen(c, [Goaway(c.highestPromised, 0, [])])
    case _ => []
  }

  lemma OpenSays(cfg: Config, c: Conn, headers: seq<Header>, hasBody: bool)
    requires cfg.tables.Sized() && c.closed.None?
    ensures Says(c, Open(cfg, c, headers, hasBody),
                 SplitHeaders(c.nextId, EncodeHeaders(cfg.tables, headers), !hasBody, c.remote.maxFrameSize))
  {
    hide Says, EncodeHeaders, SendAll, SplitHeaders;
    var block := EncodeHeaders(cfg.tables, headers);
    var c0 := Reserve(c, hasBody);
    var c1, fs := Log(c0, Event.Opened(c.nextId, block, hasBody)), SplitHeaders(c.nextId, block, !hasBody, c.remote.maxFrameSize);
    Quietly(c, c0);
    LogSays(c0, Event.Opened(c.nextId, block, hasBody));
    SaysAfter(c, c0, c1, []);
    SendAllSays(c1, fs);
    SaysAfter(c, c1, SendAll(c1, fs), fs);
  }

  lemma ReadSays(c: Conn, id: nat)
    requires Holds(c, id)
    ensures Says(c, Read(c, id), if c.cells[id].recv.queue == [] then [] else Credit(c, id, |c.cells[id].recv.queue[0]|))
  {
    hide Says, Replenish;
    var r := c.cells[id].recv;
    if r.queue != [] {
      var e, c1 := Yielded(id, r.queue[0]), TakeChunk(c, id);
      LogSays(c, e);
      Quietly(Log(c, e), c1);
      SaysAfter(c, Log(c, e), c1, []);
      ReplenishSays(c1, id, |r.queue[0]|);
      SaysAfter(c, c1, Read(c, id), Credit(c1, id, |r.queue[0]|));
    } else {
      LogSays(c, YieldedEnd(id));
      LogSays(c, YieldedError(id));
      Quietly(Log(c, YieldedError(id)), YieldError(c, id));
      SaysAfter(c, Log(c, YieldedError(id)), YieldError(c, id), []);
      Quietly(c, Wait(c, id));
    }
  }

  lemma DropSays(c: Conn, id: nat)
    requires Holds(c, id)
    ensures var r := c.cells[id].recv;
            Says(c, DropBody(c, id), Credit(c, id, if r.buffered > 0 then r.buffered else 0)
                                     + if r.ended then [] else IfOpen(c, [RstStream(id, 8)]))
  {
    hide Says, Replenish, ResetStream;
    var r := c.cells[id].recv;
    var c0 := Log(c, Event.Released(id));
    var c1, c2 := SetCell(c0, id, c.cells[id].(body := Dropped)), Relinquish(c, id);
    LogSays(c, Event.Released(id));
    Quietly(c0, c1);
    SaysAfter(c, c0, c1, []);
    if r.buffered > 0 {
      ReplenishSays(c1, id, r.buffered);
      SaysAfter(c, c1, c2, Credit(c1, id, r.buffered));
      ReplenishShape(c1, id, r.buffered);
    }
    var fs := Credit(c, id, if r.buffered > 0 then r.buffered else 0);
    ResetSays(c2, id, Cancel);
    SaysTrans(c, c2, ResetStream(c2, id, Cancel), fs, IfOpen(c, [RstStream(id, 8)]));
    assert fs + [] == fs;
  }

  lemma FinishSays(c: Conn, id: nat)
    requires PumpIs(c, id, true)
    ensures Says(c, FinishBody(c, id), if id in c.streams then IfOpen(c, [Data(id, [], true)]) else [])
  {
    hide Says, Retire, Send;
    var c0, f := Log(c, Event.FedAll(id)), Data(id, [], true);
    var c1 := SetPump(c0, id, Finished);
    LogSays(c, Event.FedAll(id));
    Quietly(c0, c1);
    SaysAfter(c, c0, c1, []);
    if id in c.streams {
      SendShape(c1, f);
      SendSays(c1, f);
      SaysAfter(c, c1, Send(c1, f), IfOpen(c, [f]));
      var c3 := SetStream(Send(c1, f), id, Send(c1, f).streams[id].(localClosed := true));
      RetireQuiet(c3, id);
      Quietly(Send(c1, f), Retire(c3, id));
      SaysBefore(c, Send(c1, f), Retire(c3, id), IfOpen(c, [f]));
    }
  }

  lemma PingSays(c: Conn)
    ensures Says(c, StartPing(c), IfOpen(c, [Ping(false, PingKey((c.pingCounter + 1) % 0x1_0000_0000))]))
  {
    hide Says, Send, PingKey;
    Quietly(c, c);
    if c.closed.None? {
      var n := (c.pingCounter + 1) % U32_LIMIT;
      var key := PingKey(n);
      var pongs := if key in c.pings then c.pongs[c.pings[key] := Overwritten] else c.pongs;
      var c1 := c.(pingCounter := n, nextPong := c.nextPong + 1, pings := c.pings[key := c.nextPong], pongs := pongs[c.nextPong := Waiting]);
      Quietly(c, c1);
      SendSays(c1, Ping(false, key));
      SaysAfter(c, c1, StartPing(c), [Ping(false, key)]);
    }
  }

  lemma CloseSays(c: Conn)
    ensures Says(c, Close(c), IfOpen(c, [Goaway(c.highestPromised, 0, [])]))
  {
    hide Says, Send, Destroy;
    Quietly(c, c);
    if c.closed.None? {
      var g := Goaway(c.highestPromised, 0, []);
      SendSays(c, g);
      DestroySays(Send(c, g), H2Error(NoError, ClosedByClient));
      SaysBefore(c, Send(c, g), Close(c), [g]);
    }
  }

  /** Every step but a turn of an upload writes exactly these frames. */
  lemma StepWrites(cfg: Config, c: Conn, s: Step)
    requires cfg.tables.Sized() && Enabled(c, s) && !s.DoBytes? && !s.DoTurn?
    ensures SentIn(Perform(cfg, c, s).log) == SentIn(c.log) + Written(cfg, c, s)
  {
    hide Says, Destroy, Open, CanOpen, DropBody, Read, FinishBody, StartPing, Close, SplitHeaders, EncodeHeaders, PingKey, Credit;
    Quietly(c, c);
    match s {
      case DoLost(writing) => DestroySays(c, LostError(writing));
      case DoRequest(token, headers, hasBody) =>
        if !Refusing(c) {
          OpenSays(cfg, c, headers, hasBody);
          Quietly(c, c.(waiters := c.waiters + [token]));
        }
      case DoFeed(id, chunk) => FeedSays(c, id, chunk);
      case DoFinish(id) => FinishSays(c, id);
      case DoClaim(id) => Quietly(c, Claim(c, id));
      case DoRead(id) => ReadSays(c, id);
      case DoDrop(id) => DropSays(c, id);
      case DoPing => PingSays(c);
      case DoClose => CloseSays(c);
    }
    SaysMeans(c, Perform(cfg, c, s), Written(cfg, c, s));
  }

  lemma FeedSays(c: Conn, id: nat, chunk: bytes)
    requires PumpIs(c, id, true)
    ensures Says(c, Feed(c, id, chunk), [])
  {
    hide Says;
    Quietly(c, c);
    LogSays(c, Event.Fed(id, chunk));
    if chunk != [] {
      Quietly(Log(c, Event.Fed(id, chunk)), Feed(c, id, chunk));
      SaysAfter(c, Log(c, Event.Fed(id, chunk)), Feed(c, id, chunk), []);
    }
  }

  /** Bytes that are no frames are answered with a GOAWAY of the decoder's code, and close the connection with it. */
  lemma GarbledReplies(cfg: Config, c: Conn, chunk: bytes)
    requires c.closed.None? && Scan(c.inbox + chunk, cfg.maxFrame).Err?
    ensures var d, err := OnBytes(cfg, c, chunk), Scan(c.inbox + chunk, cfg.maxFrame).error;
            SentIn(d.log) == SentIn(c.log) + [Goaway(c.highestPromised, err.code.Value(), [])] && d.closed == Some(err)
  {
    hide Scan, ConnectionError;
    ErrorSays(c.(inbox := []), Scan(c.inbox + chunk, cfg.maxFrame).error);
  }

  /** Besides frames, only the loss of the transport and the application close an open connection. */
  lemma StepCloses(cfg: Config, c: Conn, s: Step)
    requires cfg.tables.Sized() && Enabled(c, s) && !s.DoBytes? && c.closed.None?
    ensures Perform(cfg, c, s).closed == match s
              case DoLost(writing) => Some(if writing then H2Error(InternalError, WriteFailed) else H2Error(NoError, TransportClosed))
              case DoClose => Some(H2Error(NoError, ClosedByClient))
              case _ => None
  {
    hide Turn, Send, Destroy, Open, CanOpen, Replenish, ResetStream, Retire, StartPing;
    match s {
      case DoLost(writing) => DestroySays(c, LostError(writing));
      case DoRequest(token, headers, hasBody) => OpenStays(cfg, c, headers, hasBody);
      case DoTurn(id) => TurnShape(c, id);
      case DoFinish(id) => FinishStays(c, id);
      case DoRead(id) => ReadStays(c, id);
      case DoDrop(id) => DropStays(c, id);
      case DoPing => PingShape(c);
      case DoClose =>
        SendSays(c, Goaway(c.highestPromised, 0, []));
        DestroySays(Send(c, Goaway(c.highestPromised, 0, [])), H2Error(NoError, ClosedByClient));
      case _ =>
    }
  }

  lemma OpenStays(cfg: Config, c: Conn, headers: seq<Header>, hasBody: bool)
    requires cfg.tables.Sized() && c.closed.None?
    ensures Open(cfg, c, headers, hasBody).closed.None?
  {
    hide EncodeHeaders, SendAll, SplitHeaders;
    var c1 := Log(Reserve(c, hasBody), Event.Opened(c.nextId, EncodeHeaders(cfg.tables, headers), hasBody));
    AllStay(c1, SplitHeaders(c.nextId, EncodeHeaders(cfg.tables, headers), !hasBody, c.remote.maxFrameSize));
  }

  lemma {:induction false} AllStay(c: Conn, fs: seq<Frame>)
    requires c.closed.None?
    ensures SendAll(c, fs).closed.None?
    decreases |fs|
  {
    if fs != [] {
      AllStay(Send(c, fs[0]), fs[1..]);
    }
  }

  lemma FinishStays(c: Conn, id: nat)
    requires PumpIs(c, id, true)
    ensures FinishBody(c, id).closed == c.closed
  {
    hide Retire, Send;
    var c1, f := SetPump(Log(c, Event.FedAll(id)), id, Finished), Data(id, [], true);
    if id in c.streams {
      SendShape(c1, f);
      RetireQuiet(SetStream(Send(c1, f), id, Send(c1, f).streams[id].(localClosed := true)), id);
    }
  }

  lemma ReadStays(c: Conn, id: nat)
    requires Holds(c, id)
    ensures Read(c, id).closed == c.closed
  {
    hide Replenish;
    if c.cells[id].recv.queue != [] {
      ReplenishShape(TakeChunk(c, id), id, |c.cells[id].recv.queue[0]|);
    }
  }

  lemma DropStays(c: Conn, id: nat)
    requires Holds(c, id)
    ensures DropBody(c, id).closed == c.closed
  {
    hide Replenish, ResetStream;
    var r := c.cells[id].recv;
    ReplenishShape(SetCell(Log(c, Event.Released(id)), id, c.cells[id].(body := Dropped)), id, if r.buffered > 0 then r.buffered else 0);
    ResetSays(Relinquish(c, id), id, Cancel);
  }

  /** The first frames of every connection: SETTINGS with what was configured, and the growth of its window. */
  lemma FirstFrames(cfg: Config)
    ensures SentIn(Connect(cfg).log)
         == [SettingsFrame(false, Settings(Some(cfg.headerTable), Some(cfg.enablePush), None, Some(cfg.initialWindow), Some(cfg.maxFrame), None))]
            + if cfg.connectionWindow > 65535 then [WindowUpdate(0, cfg.connectionWindow - 65535)] else []
  {
    ConnectShape(cfg);
    hide Connect;
    var hello := Sent(SettingsFrame(false, OurSettings(cfg)));
    assert SentIn(After(Begin, hello)) == [hello.frame];
  }
}
