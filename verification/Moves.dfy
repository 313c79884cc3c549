/**
 * Every step of the connection is a few moves, each of them atomic for what one may want to
 * keep invariant. A predicate kept by the moves holds in every state of every run.
 */
module Moves {
  import opened Common
  import opened Bytes
  import opened Hpack
  import opened Frames
  import opened FrameStream
  import opened Flow
  import opened Connection

  /** What the peer causes. */
  datatype Inward =
    | SetInbox(rest: bytes)
    | Hear(frame: Frame, block: Option<Pending>)
    | HearData(streamId: nat, data: bytes, endStream: bool)
    | HearCredit(streamId: nat, n: nat)
    | HearZero(streamId: nat)
    | HearSettings(settings: Settings)
    | HearReset(streamId: nat, code: nat)
    | HearPing(ack: bool, opaque8: bytes)
    | HearGoaway(last: nat, code: nat, debug: bytes)
    | SetCodec(input: bytes)
    | TakeHeaders(streamId: nat, headers: seq<Header>, endStream: bool)
    | Refuse(promised: nat, headers: seq<Header>)
    | Crash(frame: Frame)
    | Garbled(error: H2Error)
    | Stop(error: H2Error)

  /** What the application, the uploads or a lost transport cause. */
  datatype Outward =
    | Quit(error: H2Error)
    | MoveOpen(headers: seq<Header>, hasBody: bool)
    | MoveQueue(token: nat)
    | MoveFeed(streamId: nat, chunk: bytes)
    | MoveTurn(streamId: nat)
    | MoveFinish(streamId: nat)
    | MoveClaim(streamId: nat)
    | MoveYield(streamId: nat)
    | MoveYieldError(streamId: nat)
    | MoveYieldEnd(streamId: nat)
    | MoveWait(streamId: nat)
    | MoveDrop(streamId: nat)
    | MovePing
    | MoveClose

  /** Frames that only change the pending header block, if anything. */
  predicate Passive(f: Frame) {
    OfBlock(f) || f.Prioritize? || (f.SettingsFrame? && f.ack)
  }

  predicate Exhausted(r: Recv) {
    r.queue == [] && r.error.None?
  }

  /** A frame that is not the continuation of a pending header block comes only when there is none. */
  predicate InTurn(c: Conn, f: Frame) {
    c.block.Some? ==> f.Continuation?
  }

  /** Whether a header block is pending after this frame. */
  predicate Unfinished(f: Frame) {
    OfBlock(f) && !f.endHeaders
  }

  ghost predicate MayIn(cfg: Config, c: Conn, m: Inward) {
    match m
    case Hear(f, block) => Passive(f) && InTurn(c, f) && (block.Some? <==> Unfinished(f))
    case HearData(_, data, _) => c.block.None? && |data| < U24_LIMIT
    case HearCredit(_, n) => c.block.None? && n > 0
    case HearZero(id) => c.block.None? && id > 0
    case HearSettings(s) => c.block.None? && ApplySettings(c, s).error.None?
    case HearReset(_, _) => c.block.None?
    case HearPing(_, _) => c.block.None?
    case HearGoaway(_, _, _) => c.block.None?
    case Crash(f) => Handle(cfg, c, f).error.Some?
    case _ => true
  }

  predicate MayOut(cfg: Config, c: Conn, m: Outward) {
    match m
    case MoveOpen(_, _) => !Refusing(c) && CanOpen(c) && cfg.tables.Sized()
    case MoveQueue(_) => !Refusing(c) && !CanOpen(c)
    case MoveFeed(id, chunk) => PumpIs(c, id, true) && chunk != []
    case MoveTurn(id) => PumpIs(c, id, false) && id !in c.parked && c.cells[id].pump.offset <= |c.cells[id].pump.chunk|
    case MoveFinish(id) => PumpIs(c, id, true)
    case MoveClaim(id) => id in c.cells
    case MoveYield(id) => Holds(c, id) && c.cells[id].recv.queue != []
    case MoveYieldError(id) => Holds(c, id) && c.cells[id].recv.queue == [] && c.cells[id].recv.error.Some?
    case MoveYieldEnd(id) => Holds(c, id) && Exhausted(c.cells[id].recv) && c.cells[id].recv.ended
    case MoveWait(id) => Holds(c, id) && Exhausted(c.cells[id].recv) && !c.cells[id].recv.ended
    case MoveDrop(id) => Holds(c, id)
    case MoveClose => c.closed.None?
    case _ => true
  }

  function TakeData(c: Conn, id: nat, data: bytes, endStream: bool): (c': Conn) {
    var c1 := ReceiveData(Log(c, Event.Recv(Data(id, data, endStream))), id, data, endStream);
    if endStream then Retire(c1, id) else c1
  }

  function Deliver(c: Conn, id: nat, headers: seq<Header>, endStream: bool): (c': Conn) {
    var c1 := ReceiveHeaders(Log(c, Block(id, false, headers, endStream)), id, headers, endStream);
    if endStream then Retire(c1, id) else c1
  }

  function TakeCredit(c: Conn, id: nat, n: nat): (c': Conn) {
    var c1 := Log(c, Event.Recv(WindowUpdate(id, n)));
    if id == 0 then GrantConn(c1, n) else GrantStream(c1, id, n)
  }

  function TakeZero(c: Conn, id: nat): (c': Conn) {
    ResetStream(Log(c, Event.Recv(WindowUpdate(id, 0))), id, ProtocolError)
  }

  function TakeSettings(c: Conn, s: Settings): (c': Conn) {
    Send(ApplySettings(Log(c, Event.Recv(SettingsFrame(false, s))), s).conn, SettingsFrame(true, NO_SETTINGS))
  }

  function TakeReset(c: Conn, id: nat, code: nat): (c': Conn) {
    Doom(Log(c, Event.Recv(RstStream(id, code))), {id}, H2Error(CodeOr(code, ProtocolError), PeerReset))
  }

  function TakeGoaway(c: Conn, last: nat, code: nat, debug: bytes): (c': Conn) {
    var c1 := Log(c, Event.Recv(Goaway(last, code, debug))).(goaway := true);
    WakeSlots(Doom(c1, Above(c.streams.Keys, last), H2Error(CodeOr(code, NoError), PeerGoaway)))
  }

  function Relinquish(c: Conn, id: nat): (c': Conn)
    requires Holds(c, id)
  {
    var cell := c.cells[id];
    var c1 := SetCell(Log(c, Event.Released(id)), id, cell.(body := Dropped));
    if cell.recv.buffered > 0 then Replenish(c1, id, cell.recv.buffered) else c1
  }

  ghost function DoIn(cfg: Config, c: Conn, m: Inward): (c': Conn)
    requires MayIn(cfg, c, m)
  {
    match m
    case SetInbox(rest) => c.(inbox := rest)
    case Hear(f, block) => Log(c, Event.Recv(f)).(block := block)
    case HearData(id, data, endStream) => TakeData(c, id, data, endStream)
    case HearCredit(id, n) => TakeCredit(c, id, n)
    case HearZero(id) => TakeZero(c, id)
    case HearSettings(s) => TakeSettings(c, s)
    case HearReset(id, code) => TakeReset(c, id, code)
    case HearPing(ack, opaque8) => HandlePing(Log(c, Event.Recv(Ping(ack, opaque8))), ack, opaque8)
    case HearGoaway(last, code, debug) => TakeGoaway(c, last, code, debug)
    case SetCodec(input) => c.(table := DecodeBlock(cfg.tables, c.table, input).table)
    case TakeHeaders(id, headers, endStream) => Deliver(c, id, headers, endStream)
    case Refuse(promised, headers) => RefusePush(c, promised, headers)
    case Crash(f) => ConnectionError(Handle(cfg, c, f).conn, Handle(cfg, c, f).error.value)
    case Garbled(e) => ConnectionError(c, e)
    case Stop(e) => Destroy(c, e)
  }

  function DoOut(cfg: Config, c: Conn, m: Outward): (c': Conn)
    requires MayOut(cfg, c, m)
  {
    match m
    case Quit(e) => Destroy(c, e)
    case MoveOpen(headers, hasBody) => Open(cfg, c, headers, hasBody)
    case MoveQueue(token) => c.(waiters := c.waiters + [token])
    case MoveFeed(id, chunk) => SetPump(Log(c, Event.Fed(id, chunk)), id, Sending(chunk, 0))
    case MoveTurn(id) => Turn(c, id)
    case MoveFinish(id) => FinishBody(c, id)
    case MoveClaim(id) => Claim(c, id)
    case MoveYield(id) => YieldChunk(c, id)
    case MoveYieldError(id) => YieldError(c, id)
    case MoveYieldEnd(id) => Log(c, YieldedEnd(id))
    case MoveWait(id) => Wait(c, id)
    case MoveDrop(id) => DropBody(c, id)
    case MovePing => StartPing(c)
    case MoveClose => Close(c)
  }

  /** Two states that agree on everything but the trace, the windows, the limit and the decoding state. */
  ghost predicate SameStreams(c: Conn, d: Conn) {
    && d.cells == c.cells && d.nextId == c.nextId && d.window == c.window && d.parked <= c.parked
    && d.pings == c.pings && d.pongs == c.pongs && d.nextPong == c.nextPong && d.pingCounter == c.pingCounter
    && d.closed == c.closed && d.goaway == c.goaway && d.highestPromised == c.highestPromised
    && d.streams.Keys == c.streams.Keys
    && forall id :: id in c.streams ==> d.streams[id].(window := c.streams[id].window) == c.streams[id]
  }

  ghost predicate SameLimit(c: Conn, d: Conn) {
    d.remote.maxConcurrent == c.remote.maxConcurrent && d.waiters == c.waiters
  }

  lemma AdjustShape(c: Conn, delta: int)
    ensures AdjustAll(c, delta).log == c.log && SameStreams(c, AdjustAll(c, delta)) && SameLimit(c, AdjustAll(c, delta))
  {
  }

  /** The state after the initial window size, if any, has been applied. */
  function Resized(c: Conn, s: Settings): (c': Conn) {
    if s.initialWindowSize.Some? && s.initialWindowSize.value <= MAX_WINDOW
    then SetInitialWindow(c, s.initialWindowSize.value) else c
  }

  lemma SettingsTail(c: Conn, s: Settings)
    ensures var o, c1 := ApplySettings(c, s), Resized(c, s);
            && o.conn == c1.(remote := o.conn.remote, waiters := o.conn.waiters)
            && (SameLimit(c1, o.conn) || (o.error.None? && o.conn.waiters == []))
  {
    hide SetInitialWindow;
  }

  /** SETTINGS touch the windows, and the request queue only together with the limit. */
  lemma SettingsShape(c: Conn, s: Settings)
    ensures var o := ApplySettings(c, s);
            && o.conn.log == c.log && SameStreams(c, o.conn)
            && (SameLimit(c, o.conn) || (o.error.None? && o.conn.waiters == []))
  {
    hide AdjustAll, ApplySettings;
    SettingsTail(c, s);
    if s.initialWindowSize.Some? {
      var c1 := c.(remote := c.remote.(initialWindow := s.initialWindowSize.value));
      AdjustShape(c1, s.initialWindowSize.value - c.remote.initialWindow);
    }
  }

  /** The header block as it stands with this frame. */
  function Gathering(c: Conn, f: Frame): (pb: Option<Pending>) {
    match f
    case Headers(id, fragment, endStream, _, _) =>
      if c.block.None? then Some(Pending(id, false, endStream, 0, [fragment], |fragment|)) else None
    case PushPromise(id, promised, fragment, _) =>
      if c.block.None? then Some(Pending(id, true, false, promised, [fragment], |fragment|)) else None
    case Continuation(id, fragment, _) =>
      if c.block.Some? && c.block.value.streamId == id then
        Some(c.block.value.(fragments := c.block.value.fragments + [fragment], size := c.block.value.size + |fragment|))
      else None
    case _ => None
  }

  predicate OfBlock(f: Frame) {
    f.Headers? || f.PushPromise? || f.Continuation?
  }

  lemma HandleGathers(cfg: Config, c: Conn, f: Frame)
    requires OfBlock(f)
    ensures var c1, pb := Log(c, Event.Recv(f)), Gathering(c, f);
            if pb.Some? then Handle(cfg, c, f) == Gather(cfg, c1, pb.value, f.endHeaders)
            else Handle(cfg, c, f).conn == c1 && Handle(cfg, c, f).error.Some?
  {
    hide Gather;
  }

  lemma GatherFails(cfg: Config, c: Conn, pb: Pending, endHeaders: bool)
    requires Gather(cfg, c, pb, endHeaders).error.Some?
    ensures var d := Gather(cfg, c, pb, endHeaders).conn; d.log == c.log && SameStreams(c, d) && SameLimit(c, d)
  {
    hide DecodeBlock, ReceiveHeaders, Retire, RefusePush;
  }

  /** A frame that fails has changed next to nothing before the connection error. */
  lemma CrashShape(cfg: Config, c: Conn, f: Frame)
    requires Handle(cfg, c, f).error.Some?
    ensures var d := Handle(cfg, c, f).conn;
            d.log == After(c.log, Event.Recv(f)) && SameStreams(c, d) && SameLimit(c, d)
  {
    hide Gather, ApplySettings, Doom, ReceiveData, Retire, ResetStream, HandleGoaway, HandlePing, GrantConn, GrantStream;
    var c1 := Log(c, Event.Recv(f));
    if OfBlock(f) {
      hide Handle;
      HandleGathers(cfg, c, f);
      if Gathering(c, f).Some? {
        GatherFails(cfg, c1, Gathering(c, f).value, f.endHeaders);
      }
    } else if f.SettingsFrame? {
      SettingsShape(c1, f.settings);
    }
  }

  /** Teardown removes and fails every stream, and what else waits. */
  lemma DestroyShape(c: Conn, err: H2Error)
    requires c.closed.None?
    ensures var d := Doom(c, c.streams.Keys, err);
            d.streams == map[] && d.closed.None? && d.log == c.log && d.nextId == c.nextId
            && Destroy(c, err) == d.(log := After(c.log, TornDown(err)), closed := Some(err), window := c.window.Shut(), parked := Destroy(c, err).parked,
                                     pings := map[], pongs := FailPongs(c.pongs, c.pings, err), waiters := [])
  {
    assert c.streams - c.streams.Keys == map[];
    hide FailCell, FailPongs, Sleepers;
  }

  /** Two states that agree on everything but the trace, the windows and one upload. */
  ghost predicate SameButUpload(c: Conn, d: Conn, id: nat) {
    && d.nextId == c.nextId && d.remote == c.remote && d.block == c.block && d.table == c.table && d.inbox == c.inbox
    && d.pings == c.pings && d.pongs == c.pongs && d.nextPong == c.nextPong && d.pingCounter == c.pingCounter
    && d.waiters == c.waiters && d.closed == c.closed && d.goaway == c.goaway && d.highestPromised == c.highestPromised
    && id in c.cells && id in d.cells && d.cells == c.cells[id := d.cells[id]]
    && d.cells[id].(pump := c.cells[id].pump) == c.cells[id]
    && d.streams.Keys == c.streams.Keys
    && forall i :: i in c.streams ==> d.streams[i].(window := c.streams[i].window) == c.streams[i]
  }

  lemma ChunkShape(c: Conn, id: nat, n: nat)
    requires PumpIs(c, id, false) && id in c.streams && c.closed.None?
    requires var p := c.cells[id].pump; p.offset + n <= |p.chunk|
    ensures SameButUpload(c, SendChunk(c, id, n), id)
    ensures var p := c.cells[id].pump;
            SendChunk(c, id, n).log == After(c.log, Sent(Data(id, p.chunk[p.offset..p.offset + n], false)))
  {
  }

  lemma ParkShape(c: Conn, id: nat)
    requires id in c.streams && id in c.cells
    ensures Park(c, id).log == c.log && SameButUpload(c, Park(c, id), id)
  {
    assert c.cells == c.cells[id := c.cells[id]];
  }

  /** A turn of the upload writes nothing, or one non-empty DATA frame on a live stream. */
  lemma TurnShape(c: Conn, id: nat)
    requires PumpIs(c, id, false) && c.cells[id].pump.offset <= |c.cells[id].pump.chunk|
    ensures SameButUpload(c, Turn(c, id), id)
    ensures Turn(c, id).log == c.log
         || (c.closed.None? && id in c.streams && Grant(c, id) > 0
             && var p := c.cells[id].pump;
                Turn(c, id).log == After(c.log, Sent(Data(id, p.chunk[p.offset..p.offset + Grant(c, id)], false))))
  {
    hide Park, SendChunk, SameButUpload;
    if c.closed.Some? || id !in c.streams {
      PumpShape(c, id, Finished);
    } else if !(c.window.Ready() && c.streams[id].window.Ready()) {
      ParkShape(c, id);
    } else if c.streams[id].window.closed {
      PumpShape(c, id, Finished);
    } else if Grant(c, id) <= 0 {
      PumpShape(c, id, c.cells[id].pump);
      assert SetPump(c, id, c.cells[id].pump) == c by { SetSame(c, id); }
    } else {
      ChunkShape(c, id, Grant(c, id));
    }
  }

  lemma PumpShape(c: Conn, id: nat, p: Pump)
    requires id in c.cells
    ensures SetPump(c, id, p).log == c.log && SameButUpload(c, SetPump(c, id, p), id)
  {
  }

  lemma SetSame(c: Conn, id: nat)
    requires id in c.cells
    ensures SetPump(c, id, c.cells[id].pump) == c
  {
    assert c.cells[id := c.cells[id]] == c.cells;
  }

  lemma SendShape(c: Conn, f: Frame)
    ensures Send(c, f) == c.(log := Send(c, f).log)
  {
  }

  /** Credit is heard, moves one window, and may wake uploads. */
  lemma CreditShape(c: Conn, id: nat, n: nat)
    ensures var d := TakeCredit(c, id, n);
            && d == c.(log := After(c.log, Event.Recv(WindowUpdate(id, n))), window := d.window, streams := d.streams, parked := d.parked)
            && d.streams.Keys == c.streams.Keys
            && forall i :: i in c.streams ==> d.streams[i].(window := c.streams[i].window) == c.streams[i]
  {
    hide GrantConn, GrantStream;
    var c1 := Log(c, Event.Recv(WindowUpdate(id, n)));
    if id == 0 {
      GrantConnShape(c1, n);
    } else {
      GrantStreamShape(c1, id, n);
    }
  }

  lemma GrantConnShape(c: Conn, n: nat)
    ensures var d := GrantConn(c, n); d == c.(window := d.window, parked := d.parked)
  {
  }

  lemma GrantStreamShape(c: Conn, id: nat, n: nat)
    ensures var d := GrantStream(c, id, n);
            && d == c.(streams := d.streams, parked := d.parked) && d.streams.Keys == c.streams.Keys
            && forall i :: i in c.streams ==> d.streams[i].(window := c.streams[i].window) == c.streams[i]
  {
  }

  /** A ping writes and registers, and does nothing else. */
  lemma PingShape(c: Conn)
    ensures var d := StartPing(c);
            d == c.(log := d.log, pingCounter := d.pingCounter, nextPong := d.nextPong, pings := d.pings, pongs := d.pongs)
  {
    hide Send, PingKey;
    if c.closed.None? {
      var n := (c.pingCounter + 1) % U32_LIMIT;
      var key := PingKey(n);
      var pongs := if key in c.pings then c.pongs[c.pings[key] := Overwritten] else c.pongs;
      SendShape(c.(pingCounter := n, nextPong := c.nextPong + 1, pings := c.pings[key := c.nextPong],
                   pongs := pongs[c.nextPong := Waiting]), Ping(false, key));
    }
  }

  /** These touch one cell or the queue of requests, and write nothing. */
  predicate Local(m: Outward) {
    m.MoveQueue? || m.MoveFeed? || m.MoveClaim? || m.MoveYieldError? || m.MoveYieldEnd? || m.MoveWait?
  }

  /** A cell is what it was, but for an upload fed, a body claimed, or what a reader has seen. */
  predicate Light(m: Outward, cell: Cell, cell': Cell) {
    && cell'.head == cell.head && (cell'.pump == cell.pump || m.MoveFeed?) && (cell'.body == cell.body || m.MoveClaim?)
    && cell'.recv.queue == cell.recv.queue && cell'.recv.buffered == cell.recv.buffered && cell'.recv.ended == cell.recv.ended
  }

  predicate Unheard(log: Trace, log': Trace) {
    log' == log || (log'.After? && log'.past == log && !log'.event.Sent? && !log'.event.Recv?)
  }

  lemma LocalShape(cfg: Config, c: Conn, m: Outward)
    requires MayOut(cfg, c, m) && Local(m)
    ensures var d := DoOut(cfg, c, m);
            && d == c.(log := d.log, waiters := d.waiters, cells := d.cells) && (d.waiters == c.waiters || m.MoveQueue?)
            && Unheard(c.log, d.log) && d.cells.Keys == c.cells.Keys
            && forall id :: id in c.cells ==> Light(m, c.cells[id], d.cells[id])
  {
    hide CanOpen, Light;
    forall cell: Cell
      ensures Light(m, cell, cell)
    {
      LightSelf(m, cell);
    }
    if !m.MoveQueue? && !m.MoveYieldEnd? {
      LocalCell(cfg, c, m);
      var id := m.streamId;
      hide DoOut;
      assert DoOut(cfg, c, m).cells == c.cells[id := DoOut(cfg, c, m).cells[id]];
    }
  }

  lemma LightSelf(m: Outward, cell: Cell)
    ensures Light(m, cell, cell)
  {
  }

  lemma LocalCell(cfg: Config, c: Conn, m: Outward)
    requires MayOut(cfg, c, m) && Local(m) && !m.MoveQueue? && !m.MoveYieldEnd?
    ensures var d := DoOut(cfg, c, m);
            && d == c.(log := d.log, cells := d.cells) && Unheard(c.log, d.log)
            && m.streamId in c.cells && m.streamId in d.cells && d.cells == c.cells[m.streamId := d.cells[m.streamId]]
            && Light(m, c.cells[m.streamId], d.cells[m.streamId])
  {
    hide CanOpen;
    assert m.MoveClaim? ==> c.cells[m.streamId := c.cells[m.streamId]] == c.cells;
  }

  /** Giving bytes back writes, and does nothing else. */
  lemma ReplenishShape(c: Conn, id: nat, n: nat)
    ensures Replenish(c, id, n) == c.(log := Replenish(c, id, n).log)
  {
    hide Send;
    var c0 := Log(c, Returned(id, n));
    SendShape(c0, WindowUpdate(id, n % U32_LIMIT));
    var c1 := if id in c.streams then Send(c0, WindowUpdate(id, n % U32_LIMIT)) else c0;
    SendShape(c1, WindowUpdate(0, n % U32_LIMIT));
  }

  lemma {:induction false} ContinuationsOnly(id: nat, rest: bytes, max: FrameLimit)
    ensures forall f :: f in Continuations(id, rest, max) ==> f.Continuation?
    decreases |rest|
  {
    if |rest| > max {
      ContinuationsOnly(id, rest[max..], max);
    }
  }

  lemma HeaderFramesOnly(id: nat, block: bytes, endStream: bool, max: FrameLimit)
    ensures forall f :: f in SplitHeaders(id, block, endStream, max) ==> f.Headers? || f.Continuation?
  {
    if |block| > max {
      ContinuationsOnly(id, block[max..], max);
    }
  }

  /** What is written before anything is received. */
  function StartLog(cfg: Config): (log: Trace) {
    var log := After(Begin, Sent(SettingsFrame(false, OurSettings(cfg))));
    if cfg.connectionWindow > SPEC_WINDOW then After(log, Sent(WindowUpdate(0, cfg.connectionWindow - SPEC_WINDOW))) else log
  }

  lemma ConnectShape(cfg: Config)
    ensures Connect(cfg) == Quiet(cfg).(log := StartLog(cfg))
  {
  }

  ghost predicate KeptIn(cfg: Config, inv: Conn -> bool) {
    forall c, m :: MayIn(cfg, c, m) && inv(c) ==> inv(DoIn(cfg, c, m))
  }

  ghost predicate KeptOut(cfg: Config, inv: Conn -> bool) {
    forall c, m :: MayOut(cfg, c, m) && inv(c) ==> inv(DoOut(cfg, c, m))
  }

  lemma In(cfg: Config, inv: Conn -> bool, c: Conn, m: Inward)
    requires KeptIn(cfg, inv) && inv(c) && MayIn(cfg, c, m)
    ensures inv(DoIn(cfg, c, m))
  {
    hide MayIn, DoIn;
  }

  lemma Out(cfg: Config, inv: Conn -> bool, c: Conn, m: Outward)
    requires KeptOut(cfg, inv) && inv(c) && MayOut(cfg, c, m)
    ensures inv(DoOut(cfg, c, m))
  {
    hide MayOut, DoOut;
  }

  lemma CompleteByMoves(cfg: Config, inv: Conn -> bool, c: Conn, pb: Pending)
    requires KeptIn(cfg, inv) && inv(c) && c.block.None? && CompleteBlock(cfg, c, pb).error.None?
    ensures inv(CompleteBlock(cfg, c, pb).conn)
  {
    hide KeptIn, DecodeBlock, ReceiveHeaders, Retire, RefusePush;
    var input := Flatten(pb.fragments);
    var headers := DecodeBlock(cfg.tables, c.table, input).headers.value;
    In(cfg, inv, c, SetCodec(input));
    var c1 := c.(table := DecodeBlock(cfg.tables, c.table, input).table);
    assert c1 == c.(block := None, table := c1.table);
    if pb.push {
      In(cfg, inv, c1, Refuse(pb.promised, headers));
    } else {
      In(cfg, inv, c1, TakeHeaders(pb.streamId, headers, pb.endStream));
    }
  }

  lemma GatherByMoves(cfg: Config, inv: Conn -> bool, c: Conn, f: Frame, pb: Pending)
    requires KeptIn(cfg, inv) && inv(c) && Passive(f) && InTurn(c, f) && OfBlock(f)
    ensures var o := Gather(cfg, Log(c, Event.Recv(f)), pb, f.endHeaders); o.error.None? ==> inv(o.conn)
  {
    hide KeptIn, CompleteBlock;
    var c1 := Log(c, Event.Recv(f));
    In(cfg, inv, c, Hear(f, if f.endHeaders then None else Some(pb)));
    if pb.size <= MAX_HEADER_BLOCK && f.endHeaders {
      ForgetsBlock(cfg, c1, Some(pb), pb);
      if CompleteBlock(cfg, c1.(block := None), pb).error.None? {
        CompleteByMoves(cfg, inv, c1.(block := None), pb);
      }
    }
  }

  /** The pending block is forgotten when it completes. */
  lemma ForgetsBlock(cfg: Config, c: Conn, b: Option<Pending>, pb: Pending)
    ensures CompleteBlock(cfg, c.(block := b), pb) == CompleteBlock(cfg, c.(block := None), pb)
  {
    hide DecodeBlock, ReceiveHeaders, Retire, RefusePush;
  }

  lemma NoticeByMoves(cfg: Config, inv: Conn -> bool, c: Conn, f: Frame)
    requires KeptIn(cfg, inv) && inv(c) && Handle(cfg, c, f).error.None?
    requires f.WindowUpdate? || f.SettingsFrame? || f.Goaway?
    ensures inv(Inbound(cfg, c, f))
  {
    hide KeptIn, ResetStream, GrantConn, GrantStream, ApplySettings, Doom, Destroy;
    match f
    case WindowUpdate(id, n) =>
      if n == 0 {
        In(cfg, inv, c, HearZero(id));
      } else {
        In(cfg, inv, c, HearCredit(id, n));
      }
    case SettingsFrame(ack, s) =>
      if ack {
        In(cfg, inv, c, Hear(f, c.block));
      } else {
        SameVerdict(c, Log(c, Event.Recv(f)), s);
        In(cfg, inv, c, HearSettings(s));
      }
    case Goaway(last, code, debug) =>
      In(cfg, inv, c, HearGoaway(last, code, debug));
      if code != 0 {
        In(cfg, inv, TakeGoaway(c, last, code, debug), Stop(H2Error(CodeOr(code, NoError), PeerGoaway)));
      }
  }

  lemma SameVerdict(c: Conn, c': Conn, s: Settings)
    ensures ApplySettings(c, s).error == ApplySettings(c', s).error
  {
  }

  /** The length field of a frame has 24 bits. */
  predicate Sized(f: Frame) {
    f.Data? ==> |f.data| < U24_LIMIT
  }

  predicate AllSized(fs: seq<Frame>) {
    forall i :: 0 <= i < |fs| ==> Sized(fs[i])
  }

  lemma ParsedSized(typeId: byte, flags: byte, id: nat, payload: bytes)
    requires |payload| < U24_LIMIT
    ensures var r := ParsePayload(typeId, flags, id, payload); r.Ok? && r.value.Some? ==> Sized(r.value.value)
  {
    hide ReadPriority, ReadSettings, GetU32;
  }

  lemma {:induction false} ScanSized(buf: bytes, max: nat)
    ensures Scan(buf, max).Ok? ==> AllSized(Scan(buf, max).value.frames)
    decreases |buf|
  {
    hide ParsePayload;
    if Next(buf, max).Whole? {
      ParsedSized(buf[3], buf[4], GetU32(buf[5..]) % U31, buf[FRAME_HEADER_SIZE..FRAME_HEADER_SIZE + GetU24(buf)]);
      ScanSized(Next(buf, max).rest, max);
    }
  }

  lemma InboundByMoves(cfg: Config, inv: Conn -> bool, c: Conn, f: Frame)
    requires KeptIn(cfg, inv) && inv(c) && Sized(f)
    ensures inv(Inbound(cfg, c, f))
  {
    if Handle(cfg, c, f).error.Some? {
      hide KeptIn, Handle;
      In(cfg, inv, c, Crash(f));
    } else {
      hide KeptIn, ResetStream, Gather, HandleWindowUpdate, ApplySettings, Doom, HandlePing, HandleGoaway, ReceiveData, Retire;
      if OfBlock(f) {
        HandleGathers(cfg, c, f);
        hide Handle;
        GatherByMoves(cfg, inv, c, f, Gathering(c, f).value);
      } else {
        match f {
          case WindowUpdate(_, _) => NoticeByMoves(cfg, inv, c, f);
          case SettingsFrame(_, _) => NoticeByMoves(cfg, inv, c, f);
          case Goaway(_, _, _) => NoticeByMoves(cfg, inv, c, f);
          case Data(id, data, endStream) => In(cfg, inv, c, HearData(id, data, endStream));
          case RstStream(id, code) => In(cfg, inv, c, HearReset(id, code));
          case Ping(ack, opaque8) => In(cfg, inv, c, HearPing(ack, opaque8));
          case Prioritize(_, _) => In(cfg, inv, c, Hear(f, c.block));
        }
      }
    }
  }

  lemma {:induction false} InboundAllByMoves(cfg: Config, inv: Conn -> bool, c: Conn, fs: seq<Frame>)
    requires KeptIn(cfg, inv) && inv(c) && AllSized(fs)
    ensures inv(InboundAll(cfg, c, fs))
    decreases |fs|
  {
    hide KeptIn, Handle, Inbound;
    if fs != [] {
      InboundByMoves(cfg, inv, c, fs[0]);
      if Handle(cfg, c, fs[0]).error.None? {
        InboundAllByMoves(cfg, inv, Inbound(cfg, c, fs[0]), fs[1..]);
      }
    }
  }

  lemma BytesByMoves(cfg: Config, inv: Conn -> bool, c: Conn, chunk: bytes)
    requires KeptIn(cfg, inv) && inv(c)
    ensures inv(OnBytes(cfg, c, chunk))
  {
    hide KeptIn, Scan, InboundAll, ConnectionError;
    var scanned := Scan(c.inbox + chunk, cfg.maxFrame);
    if scanned.Ok? {
      ScanSized(c.inbox + chunk, cfg.maxFrame);
      In(cfg, inv, c, SetInbox(scanned.value.rest));
      InboundAllByMoves(cfg, inv, c.(inbox := scanned.value.rest), scanned.value.frames);
    } else {
      In(cfg, inv, c, SetInbox([]));
      In(cfg, inv, c.(inbox := []), Garbled(scanned.error));
    }
  }

  lemma RequestByMoves(cfg: Config, inv: Conn -> bool, c: Conn, token: nat, headers: seq<Header>, hasBody: bool)
    requires KeptOut(cfg, inv) && inv(c) && cfg.tables.Sized()
    ensures inv(Request(cfg, c, token, headers, hasBody))
  {
    hide KeptOut, Open, CanOpen;
    if !Refusing(c) && token !in c.waiters {
      if CanOpen(c) {
        Out(cfg, inv, c, MoveOpen(headers, hasBody));
      } else {
        Out(cfg, inv, c, MoveQueue(token));
      }
    }
  }

  lemma ReadByMoves(cfg: Config, inv: Conn -> bool, c: Conn, id: nat)
    requires KeptOut(cfg, inv) && inv(c) && Holds(c, id)
    ensures inv(Read(c, id))
  {
    hide KeptOut, YieldChunk, YieldError, Wait;
    var r := c.cells[id].recv;
    if r.queue != [] {
      Out(cfg, inv, c, MoveYield(id));
    } else if r.error.Some? {
      Out(cfg, inv, c, MoveYieldError(id));
    } else if r.ended {
      Out(cfg, inv, c, MoveYieldEnd(id));
    } else {
      Out(cfg, inv, c, MoveWait(id));
    }
  }

  /** What the moves of our own side keep, every step keeps that takes in no bytes. */
  lemma OwnStepByMoves(cfg: Config, inv: Conn -> bool, c: Conn, s: Step)
    requires KeptOut(cfg, inv) && inv(c) && cfg.tables.Sized() && Enabled(c, s) && !s.DoBytes?
    ensures inv(Perform(cfg, c, s))
  {
    hide KeptOut, OnBytes, Destroy, Request, Turn, FinishBody, Claim, Read, DropBody, StartPing;
    match s
    case DoLost(writing) => Out(cfg, inv, c, Quit(LostError(writing)));
    case DoRequest(token, headers, hasBody) => RequestByMoves(cfg, inv, c, token, headers, hasBody);
    case DoFeed(id, chunk) => if chunk != [] { Out(cfg, inv, c, MoveFeed(id, chunk)); }
    case DoTurn(id) => Out(cfg, inv, c, MoveTurn(id));
    case DoFinish(id) => Out(cfg, inv, c, MoveFinish(id));
    case DoClaim(id) => Out(cfg, inv, c, MoveClaim(id));
    case DoRead(id) => ReadByMoves(cfg, inv, c, id);
    case DoDrop(id) => Out(cfg, inv, c, MoveDrop(id));
    case DoPing => Out(cfg, inv, c, MovePing);
    case DoClose => if c.closed.None? { Out(cfg, inv, c, MoveClose); }
  }

  lemma StepByMoves(cfg: Config, inv: Conn -> bool, c: Conn, s: Step)
    requires KeptIn(cfg, inv) && KeptOut(cfg, inv) && inv(c) && cfg.tables.Sized() && Enabled(c, s)
    ensures inv(Perform(cfg, c, s))
  {
    hide KeptIn, KeptOut, Enabled, OnBytes;
    if s.DoBytes? {
      BytesByMoves(cfg, inv, c, s.chunk);
    } else {
      hide Perform;
      OwnStepByMoves(cfg, inv, c, s);
    }
  }

  /** What holds at some point and is kept by the moves holds after any further steps. */
  lemma {:induction false} RunFromByMoves(cfg: Config, inv: Conn -> bool, start: Conn, steps: seq<Step>)
    requires KeptIn(cfg, inv) && KeptOut(cfg, inv) && inv(start) && cfg.tables.Sized()
    ensures inv(RunFrom(cfg, start, steps))
    decreases |steps|
  {
    hide KeptIn, KeptOut, Perform, Enabled;
    if steps != [] {
      var c, s := RunFrom(cfg, start, steps[..|steps| - 1]), steps[|steps| - 1];
      RunFromByMoves(cfg, inv, start, steps[..|steps| - 1]);
      if Enabled(c, s) {
        StepByMoves(cfg, inv, c, s);
      }
    }
  }

  /** What holds at the start and is kept by the moves holds after any steps. */
  lemma RunByMoves(cfg: Config, inv: Conn -> bool, steps: seq<Step>)
    requires KeptIn(cfg, inv) && KeptOut(cfg, inv) && inv(Connect(cfg)) && cfg.tables.Sized()
    ensures inv(Run(cfg, steps))
  {
    hide KeptIn, KeptOut, Connect, RunFrom;
    RunFromByMoves(cfg, inv, Connect(cfg), steps);
  }

  // --- one frame at a time ---

  lemma OneFrame(cfg: Config, c: Conn, f: Frame)
    ensures InboundAll(cfg, c, [f]) == Inbound(cfg, c, f)
  {
    hide Handle, Inbound;
    assert [f][1..] == [];
  }

  /** A chunk that is exactly one frame. */
  lemma FrameArrives(cfg: Config, c: Conn, f: Frame)
    requires c.inbox == [] && Sendable([f], cfg.maxFrame)
    ensures Typed(f) && OnBytes(cfg, c, Serialize(f)) == Inbound(cfg, c, f)
  {
    hide Serialize, WellFormed, EncodeBody, Scan, InboundAll, Inbound;
    OneSerialized(f, cfg.maxFrame);
    assert c.inbox + Serialize(f) == Serialize(f);
    assert c.(inbox := []) == c;
    OneFrame(cfg, c, f);
  }

  /** A whole header block in one frame, and what it decodes to. */
  lemma HeadersArrive(cfg: Config, c: Conn, id: nat, block: bytes, headers: seq<Header>, endStream: bool)
    requires c.inbox == [] && c.block.None? && id < U31 && |block| <= cfg.maxFrame && |block| <= MAX_HEADER_BLOCK
    requires DecodeBlock(cfg.tables, c.table, block) == Decoded(Ok(headers), c.table)
    ensures var f := Headers(id, block, endStream, true, None);
            Typed(f) && OnBytes(cfg, c, Serialize(f)) == Deliver(Log(c, Event.Recv(f)), id, headers, endStream)
  {
    hide Serialize, OnBytes, ReceiveHeaders, Retire, DecodeBlock, ConnectionError;
    var f := Headers(id, block, endStream, true, None);
    assert Sendable([f], cfg.maxFrame) by { HeadersSendable(f, cfg.maxFrame); }
    FrameArrives(cfg, c, f);
    FlattenSnoc([], block);
    assert [] + [block] == [block] && [] + block == block;
    assert Flatten([block]) == block;
    var c1 := Log(c, Event.Recv(f));
    assert c1.(block := Some(Pending(id, false, endStream, 0, [block], |block|))).(block := None, table := c.table) == c1;
  }

  lemma HeadersSendable(f: Frame, max: nat)
    requires f.Headers? && f.streamId < U31 && f.priority.None? && |f.fragment| <= max && |f.fragment| < U24_LIMIT
    ensures Sendable([f], max)
  {
  }

  // --- concrete runs ---

  lemma RunNext(cfg: Config, steps: seq<Step>, s: Step)
    requires cfg.tables.Sized()
    ensures var c := Run(cfg, steps); Run(cfg, steps + [s]) == if Enabled(c, s) then Perform(cfg, c, s) else c
  {
    hide Enabled, Perform, Connect;
    assert (steps + [s])[..|steps + [s]| - 1] == steps;
  }

  lemma RunNone(cfg: Config)
    requires cfg.tables.Sized()
    ensures Run(cfg, []) == Connect(cfg)
  {
    hide Enabled, Perform, Connect;
  }

  lemma RunFirst(cfg: Config, s: Step)
    requires cfg.tables.Sized()
    ensures Run(cfg, [s]) == if Enabled(Connect(cfg), s) then Perform(cfg, Connect(cfg), s) else Connect(cfg)
  {
    hide Run, Enabled, Perform, Connect;
    RunNone(cfg);
    RunNext(cfg, [], s);
    assert [] + [s] == [s];
  }

  lemma SendOne(c: Conn, f: Frame)
    ensures SendAll(c, [f]) == Send(c, f)
  {
    assert [f][1..] == [];
    assert SendAll(c, [f]) == SendAll(Send(c, f), []);
  }

  function OpenedLog(cfg: Config): (log: Trace) {
    After(After(StartLog(cfg), Event.Opened(1, [], true)), Sent(Headers(1, [], false, true, None)))
  }

  /** The first request, with a body. */
  lemma OneOpened(cfg: Config) returns (c: Conn)
    requires cfg.tables.Sized()
    ensures c == Request(cfg, Connect(cfg), 0, [], true)
    ensures c == Quiet(cfg).(
              log := OpenedLog(cfg), nextId := 3,
              streams := map[1 := Strm(Fresh(SPEC_WINDOW), false, false, false)],
              cells := map[1 := Cell(Awaiting, EMPTY_INBOX, None, Unclaimed, Idle)])
  {
    var c0 := Connect(cfg);
    ConnectShape(cfg);
    hide Connect;
    ActiveAtMost(c0, {});
    assert CanOpen(c0);
    var f := Headers(1, [], false, true, None);
    c := Open(cfg, c0, [], true);
    var c1 := Log(Reserve(c0, true), Event.Opened(1, [], true));
    assert c == SendAll(c1, [f]);
    SendOne(c1, f);
  }
}
