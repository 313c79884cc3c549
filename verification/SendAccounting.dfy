/** Send-side flow control over whole runs: sections 6.9.1 and 6.9.2 of RFC 7540. */
module SendAccounting {
  import opened Common
  import opened Hpack
  import opened Frames
  import opened FrameStream
  import opened Flow
  import opened Connection
  import opened Moves

  // --- what a reader of the trace is owed, without looking at the connection ---

  /** `streams` holds, for each opened stream, its credits minus the DATA bytes sent on it. */
  datatype Ledger = Ledger(
    conn: int, initial: nat, frameLimit: nat, tableSize: nat, push: bool, streamLimit: nat, streams: map<nat, int>)

  function Post(a: Ledger, e: Event): (a': Ledger) {
    match e
    case Opened(id, _, _) => a.(streams := a.streams[id := 0])
    case Recv(WindowUpdate(id, n)) =>
      if id == 0 then a.(conn := a.conn + n)
      else if id in a.streams then a.(streams := a.streams[id := a.streams[id] + n])
      else a
    case Recv(SettingsFrame(false, s)) =>
      a.(initial := if s.initialWindowSize.Some? then s.initialWindowSize.value else a.initial,
         frameLimit := if s.maxFrameSize.Some? then s.maxFrameSize.value else a.frameLimit,
         tableSize := if s.headerTableSize.Some? then s.headerTableSize.value else a.tableSize,
         push := if s.enablePush.Some? then s.enablePush.value else a.push,
         streamLimit := if s.maxConcurrentStreams.Some? then s.maxConcurrentStreams.value else a.streamLimit)
    case Sent(Data(id, data, _)) =>
      var b := a.(conn := a.conn - |data|);
      if id in a.streams then b.(streams := a.streams[id := a.streams[id] - |data|]) else b
    case _ => a
  }

  function Account(log: Trace): (a: Ledger) {
    match log
    case Begin => Ledger(65535, 65535, 16384, 4096, true, 4294967295, map[])
    case After(past, e) => Post(Account(past), e)
  }

  /** A DATA frame may be sent: both windows and the peer's frame limit cover it. */
  predicate Covered(a: Ledger, id: nat, n: nat) {
    id in a.streams && (n > 0 ==> n <= a.conn && n <= a.frameLimit && n <= a.initial + a.streams[id])
  }

  /** Streams are opened once, and every DATA frame was covered when it was sent. */
  predicate Fits(log: Trace) {
    match log
    case Begin => true
    case After(past, e) => Fits(past) && Allowed(Account(past), e)
  }

  predicate Allowed(a: Ledger, e: Event) {
    match e
    case Sent(Data(id, data, _)) => Covered(a, id, |data|)
    case Opened(id, _, _) => id > 0 && id !in a.streams
    case _ => true
  }

  // --- the connection agrees with the ledger ---

  ghost predicate Core(c: Conn) {
    && Fits(c.log)
    && c.nextId > 0 && (forall id :: id in Account(c.log).streams ==> 0 < id < c.nextId)
    && (forall id :: id in c.streams ==> id in Account(c.log).streams)
    && (c.closed.Some? ==> c.streams == map[])
  }

  predicate Agreed(r: Remote, a: Ledger) {
    && r.initialWindow == a.initial && r.maxFrameSize == a.frameLimit && r.headerTableSize == a.tableSize
    && r.enablePush == a.push && r.maxConcurrent == a.streamLimit
  }

  ghost predicate Inv(c: Conn) {
    && Core(c)
    && (c.closed.None? ==>
          var a := Account(c.log);
          && c.window.available == a.conn && Agreed(c.remote, a)
          && forall id :: id in c.streams ==> c.streams[id].window.available == a.initial + a.streams[id])
  }

  /** `c'` follows `c` without touching anything the ledger is about. */
  ghost predicate Calm(c: Conn, c': Conn) {
    && Account(c'.log) == Account(c.log) && (Fits(c.log) ==> Fits(c'.log)) && c'.nextId == c.nextId
    && (c.closed.Some? ==> c'.closed.Some?)
    && (c'.closed.Some? ==> c'.streams == map[] || c.closed.Some?)
    && (c'.closed.None? ==>
          c'.window.available == c.window.available && c'.remote == c.remote)
    && forall id :: id in c'.streams ==>
         id in c.streams && c'.streams[id].window.available == c.streams[id].window.available
  }

  lemma CalmKeeps(c: Conn, c': Conn)
    requires Calm(c, c')
    ensures Core(c) ==> Core(c')
    ensures Inv(c) ==> Inv(c')
  {
    hide Fits, Account;
  }

  lemma CalmTrans(c: Conn, c': Conn, c'': Conn)
    requires Calm(c, c') && Calm(c', c'')
    ensures Calm(c, c'')
  {
    hide Fits, Account;
  }

  predicate Neutral(e: Event) {
    match e
    case Opened(_, _, _) => false
    case Recv(f) => !f.WindowUpdate? && !f.SettingsFrame?
    case Sent(f) => !f.Data?
    case _ => true
  }

  lemma CalmLog(c: Conn, e: Event)
    requires Neutral(e)
    ensures Calm(c, Log(c, e))
  {
  }

  lemma CalmSend(c: Conn, f: Frame)
    requires !f.Data?
    ensures Calm(c, Send(c, f))
  {
    if c.closed.None? {
      CalmLog(c, Sent(f));
    }
  }

  lemma CalmDoom(c: Conn, ids: set<nat>, err: H2Error)
    ensures Calm(c, Doom(c, ids, err))
  {
    hide Fits, Account;
  }

  lemma CalmRetire(c: Conn, id: nat)
    ensures Calm(c, Retire(c, id))
  {
    hide Fits, Account;
  }

  lemma CalmReset(c: Conn, id: nat, code: ErrorCode)
    ensures Calm(c, ResetStream(c, id, code))
  {
    hide Fits, Account, Calm;
    var sent := Send(c, RstStream(id, code.Value()));
    CalmSend(c, RstStream(id, code.Value()));
    CalmDoom(sent, {id}, H2Error(code, StreamReset));
    CalmTrans(c, sent, Doom(sent, {id}, H2Error(code, StreamReset)));
    CalmWake(Doom(sent, {id}, H2Error(code, StreamReset)));
    CalmTrans(c, Doom(sent, {id}, H2Error(code, StreamReset)), ResetStream(c, id, code));
  }

  lemma CalmWake(c: Conn)
    ensures Calm(c, WakeSlots(c))
  {
  }

  lemma CalmDestroy(c: Conn, err: H2Error)
    ensures Calm(c, Destroy(c, err)) && Destroy(c, err).closed.Some?
  {
    if c.closed.None? {
      hide Doom, Destroy;
      DestroyShape(c, err);
      CalmLog(c, TornDown(err));
    }
  }

  lemma CalmError(c: Conn, err: H2Error)
    ensures Calm(c, ConnectionError(c, err)) && ConnectionError(c, err).closed.Some?
  {
    hide Calm;
    var f := Goaway(c.highestPromised, err.code.Value(), []);
    CalmSend(c, f);
    CalmDestroy(Send(c, f), err);
    CalmTrans(c, Send(c, f), ConnectionError(c, err));
  }

  /** An outcome with an error is followed by teardown, so only `Core` matters there. */
  lemma ErrorCloses(c: Conn, err: H2Error)
    requires Core(c)
    ensures Inv(ConnectionError(c, err))
  {
    hide Fits, Account;
    CalmError(c, err);
    CalmKeeps(c, ConnectionError(c, err));
  }

  // --- inbound frames ---

  lemma CalmReceiveHeaders(c: Conn, id: nat, headers: seq<Header>, endStream: bool)
    ensures Calm(c, ReceiveHeaders(c, id, headers, endStream))
  {
    hide Fits, Account, HeadersOnCell, Interim;
  }

  lemma CalmReceiveData(c: Conn, id: nat, data: bytes, endStream: bool)
    ensures Calm(c, ReceiveData(c, id, data, endStream))
  {
    hide DataOnRecv;
    if id in c.streams && id in c.cells {
      CalmLog(c, Discarded(id, |data|));
      hide Fits, Account;
    } else {
      var c1 := Log(c, Returned(id, |data|));
      CalmLog(c, Returned(id, |data|));
      CalmSend(c1, WindowUpdate(0, |data| % U32_LIMIT));
      CalmTrans(c, c1, Send(c1, WindowUpdate(0, |data| % U32_LIMIT)));
      CalmSame(c);
    }
  }

  lemma CalmRefuse(c: Conn, promised: nat, headers: seq<Header>)
    ensures Calm(c, RefusePush(c, promised, headers))
  {
  }

  lemma CalmDeliver(c: Conn, id: nat, headers: seq<Header>, endStream: bool)
    ensures Calm(c, Deliver(c, id, headers, endStream))
  {
    hide Calm, ReceiveHeaders, Retire;
    var c1 := Log(c, Block(id, false, headers, endStream));
    CalmLog(c, Block(id, false, headers, endStream));
    var c2 := ReceiveHeaders(c1, id, headers, endStream);
    CalmReceiveHeaders(c1, id, headers, endStream);
    CalmTrans(c, c1, c2);
    CalmRetire(c2, id);
    CalmTrans(c, c2, Retire(c2, id));
  }

  lemma CalmData(c: Conn, id: nat, data: bytes, endStream: bool)
    ensures Calm(c, TakeData(c, id, data, endStream))
  {
    hide Calm, ReceiveData, Retire;
    var c1 := Log(c, Event.Recv(Data(id, data, endStream)));
    CalmLog(c, Event.Recv(Data(id, data, endStream)));
    var c2 := ReceiveData(c1, id, data, endStream);
    CalmReceiveData(c1, id, data, endStream);
    CalmTrans(c, c1, c2);
    CalmRetire(c2, id);
    CalmTrans(c, c2, Retire(c2, id));
  }

  lemma CalmGoaway(c: Conn, last: nat, code: nat, debug: bytes)
    ensures Calm(c, TakeGoaway(c, last, code, debug))
  {
    hide Calm, Doom;
    var err := H2Error(CodeOr(code, NoError), PeerGoaway);
    var c1 := Log(c, Event.Recv(Goaway(last, code, debug)));
    CalmLog(c, Event.Recv(Goaway(last, code, debug)));
    var c2 := c1.(goaway := true);
    CalmGoing(c1);
    CalmTrans(c, c1, c2);
    CalmDoom(c2, Above(c.streams.Keys, last), err);
    CalmTrans(c, c2, Doom(c2, Above(c.streams.Keys, last), err));
    CalmWake(Doom(c2, Above(c.streams.Keys, last), err));
    CalmTrans(c, Doom(c2, Above(c.streams.Keys, last), err), TakeGoaway(c, last, code, debug));
  }

  lemma CalmGoing(c: Conn)
    ensures Calm(c, c.(goaway := true))
  {
  }

  lemma CalmPing(c: Conn, ack: bool, opaque8: bytes)
    ensures Calm(c, HandlePing(Log(c, Event.Recv(Ping(ack, opaque8))), ack, opaque8))
  {
  }

  lemma CalmSame(c: Conn)
    ensures Calm(c, c)
  {
  }

  lemma CreditKeeps(c: Conn, id: nat, n: nat)
    requires Inv(c)
    ensures Inv(TakeCredit(c, id, n))
  {
    hide GrantStream, Fits, Account;
    RecvPosts(c, WindowUpdate(id, n));
    if id != 0 {
      GrantStreamKeeps(c, id, n);
    }
  }

  lemma RecvPosts(c: Conn, f: Frame)
    requires Fits(c.log)
    ensures var log := Log(c, Event.Recv(f)).log; Fits(log) && Account(log) == Post(Account(c.log), Event.Recv(f))
  {
  }

  lemma GrantStreamKeeps(c: Conn, id: nat, n: nat)
    requires Inv(c) && id != 0
    ensures Inv(GrantStream(Log(c, Event.Recv(WindowUpdate(id, n))), id, n))
  {
    hide Fits, Account;
    RecvPosts(c, WindowUpdate(id, n));
  }

  /** Windows follow a changed initial size retroactively, below zero if need be. */
  lemma SettingsKeep(c: Conn, s: Settings)
    requires Inv(c) && ApplySettings(c, s).error.None?
    ensures Inv(TakeSettings(c, s))
  {
    hide ApplySettings, Fits, Account;
    var c1 := Log(c, Event.Recv(SettingsFrame(false, s)));
    RecvPosts(c, SettingsFrame(false, s));
    SameVerdict(c, c1, s);
    AdjustFacts(c1, s);
    var c2 := ApplySettings(c1, s).conn;
    CalmSend(c2, SettingsFrame(true, NO_SETTINGS));
    CalmKeeps(c2, Send(c2, SettingsFrame(true, NO_SETTINGS)));
  }

  /** Settings move the windows by the difference, and nothing else that is accounted. */
  lemma AdjustFacts(c: Conn, s: Settings)
    ensures var c' := ApplySettings(c, s).conn;
            && c'.log == c.log && c'.nextId == c.nextId && c'.closed == c.closed && c'.window == c.window
            && c'.streams.Keys == c.streams.Keys
            && (ApplySettings(c, s).error.None? ==>
                  && (forall a :: Agreed(c.remote, a) ==> Agreed(c'.remote, Post(a, Event.Recv(SettingsFrame(false, s)))))
                  && c'.remote.initialWindow == (if s.initialWindowSize.Some? then s.initialWindowSize.value else c.remote.initialWindow)
                  && forall id :: id in c.streams ==>
                       c'.streams[id].window.available - c.streams[id].window.available
                       == c'.remote.initialWindow - c.remote.initialWindow)
  {
    hide SetInitialWindow;
    if s.initialWindowSize.Some? {
      AdjustMoves(c, s.initialWindowSize.value);
    }
  }

  lemma AdjustMoves(c: Conn, w: nat)
    ensures var c' := SetInitialWindow(c, w);
            && c'.log == c.log && c'.nextId == c.nextId && c'.closed == c.closed && c'.window == c.window
            && c'.streams.Keys == c.streams.Keys && c'.remote == c.remote.(initialWindow := w)
            && forall id :: id in c.streams ==>
                 c'.streams[id].window.available - c.streams[id].window.available == w - c.remote.initialWindow
  {
  }

  /** Whatever a failing frame has changed, the teardown that follows makes the windows moot. */
  lemma CrashKeeps(cfg: Config, c: Conn, f: Frame)
    requires Inv(c) && Handle(cfg, c, f).error.Some?
    ensures Inv(ConnectionError(Handle(cfg, c, f).conn, Handle(cfg, c, f).error.value))
  {
    hide Handle, ConnectionError, Fits, Account;
    var o := Handle(cfg, c, f);
    CrashShape(cfg, c, f);
    RecvPosts(c, f);
    ErrorCloses(o.conn, o.error.value);
  }

  // --- requests, uploads and bodies ---

  lemma {:induction false} CalmSendAll(c: Conn, fs: seq<Frame>)
    requires forall i :: 0 <= i < |fs| ==> !fs[i].Data?
    ensures Calm(c, SendAll(c, fs))
    decreases |fs|
  {
    hide Calm, Send;
    if fs == [] {
      CalmSame(c);
    } else {
      CalmSend(c, fs[0]);
      CalmSendAll(Send(c, fs[0]), fs[1..]);
      CalmTrans(c, Send(c, fs[0]), SendAll(c, fs));
    }
  }

  lemma OpenKeeps(cfg: Config, c: Conn, headers: seq<Header>, hasBody: bool)
    requires cfg.tables.Sized() && Inv(c) && c.closed.None?
    ensures Inv(Open(cfg, c, headers, hasBody))
  {
    hide SplitHeaders, SendAll, EncodeHeaders;
    var id := c.nextId;
    var block := EncodeHeaders(cfg.tables, headers);
    var fs := SplitHeaders(id, block, !hasBody, c.remote.maxFrameSize);
    var c1 := Log(Reserve(c, hasBody), Event.Opened(id, block, hasBody));
    assert Inv(c1);
    HeaderFramesOnly(id, block, !hasBody, c.remote.maxFrameSize);
    forall i | 0 <= i < |fs|
      ensures !fs[i].Data?
    {
      assert fs[i] in fs;
    }
    CalmSendAll(c1, fs);
    CalmKeeps(c1, SendAll(c1, fs));
  }

  /** The pump never overdraws: its DATA frame is covered by the ledger. */
  lemma SendChunkKeeps(c: Conn, id: nat)
    requires PumpIs(c, id, false) && id in c.streams && c.closed.None? && Inv(c)
    requires c.cells[id].pump.offset <= |c.cells[id].pump.chunk| && Grant(c, id) > 0
    ensures Inv(SendChunk(c, id, Grant(c, id)))
  {
    var p, n := c.cells[id].pump, Grant(c, id);
    var frame := Data(id, p.chunk[p.offset..p.offset + n], false);
    assert Covered(Account(c.log), id, n);
    assert SendChunk(c, id, n).log == After(c.log, Sent(frame));
    assert |frame.data| == n;
  }

  lemma TurnKeeps(c: Conn, id: nat)
    requires PumpIs(c, id, false) && c.cells[id].pump.offset <= |c.cells[id].pump.chunk| && Inv(c)
    ensures Inv(Turn(c, id))
  {
    if c.closed.None? && id in c.streams && c.window.Ready() && c.streams[id].window.Ready()
       && !c.streams[id].window.closed && Grant(c, id) > 0 {
      SendChunkKeeps(c, id);
    } else {
      hide Fits, Account;
    }
  }

  lemma FinishKeeps(c: Conn, id: nat)
    requires PumpIs(c, id, true) && Inv(c)
    ensures Inv(FinishBody(c, id))
  {
    var c1 := SetPump(Log(c, Event.FedAll(id)), id, Finished);
    CalmLog(c, Event.FedAll(id));
    if id in c.streams {
      var c2 := Send(c1, Data(id, [], true));
      var c3 := SetStream(c2, id, c2.streams[id].(localClosed := true));
      assert Inv(c3);
      CalmRetire(c3, id);
      CalmKeeps(c3, Retire(c3, id));
    }
  }

  lemma CalmReplenish(c: Conn, id: nat, n: nat)
    ensures Calm(c, Replenish(c, id, n))
  {
    hide Calm, Send;
    var c0 := Log(c, Returned(id, n));
    var f, g := WindowUpdate(id, n % U32_LIMIT), WindowUpdate(0, n % U32_LIMIT);
    var c1 := if id in c.streams then Send(c0, f) else c0;
    CalmLog(c, Returned(id, n));
    CalmSend(c0, f);
    CalmTrans(c, c0, Send(c0, f));
    CalmSend(c1, g);
    CalmTrans(c, c1, Send(c1, g));
  }

  lemma CalmYield(c: Conn, id: nat)
    requires Holds(c, id) && c.cells[id].recv.queue != []
    ensures Calm(c, YieldChunk(c, id))
  {
    hide Calm, Replenish;
    var n := |c.cells[id].recv.queue[0]|;
    CalmLog(c, Yielded(id, c.cells[id].recv.queue[0]));
    var c1 := Log(c, Yielded(id, c.cells[id].recv.queue[0]));
    assert Calm(c1, TakeChunk(c, id)) by { CalmCells(c1, TakeChunk(c, id).cells); }
    CalmTrans(c, c1, TakeChunk(c, id));
    CalmReplenish(TakeChunk(c, id), id, n);
    CalmTrans(c, TakeChunk(c, id), YieldChunk(c, id));
  }

  lemma CalmCells(c: Conn, cells: map<nat, Cell>)
    ensures Calm(c, c.(cells := cells))
  {
  }

  lemma CalmDrop(c: Conn, id: nat)
    requires Holds(c, id)
    ensures Calm(c, DropBody(c, id))
  {
    hide Calm, Replenish, ResetStream;
    var c0 := Log(c, Event.Released(id));
    var c1, c2 := SetCell(c0, id, c.cells[id].(body := Dropped)), Relinquish(c, id);
    CalmLog(c, Event.Released(id));
    CalmCells(c0, c1.cells);
    CalmTrans(c, c0, c1);
    CalmReplenish(c1, id, if c.cells[id].recv.buffered > 0 then c.cells[id].recv.buffered else 0);
    CalmTrans(c, c1, Replenish(c1, id, if c.cells[id].recv.buffered > 0 then c.cells[id].recv.buffered else 0));
    CalmReset(c2, id, Cancel);
    CalmTrans(c, c2, ResetStream(c2, id, Cancel));
  }

  lemma CalmStartPing(c: Conn)
    ensures Calm(c, StartPing(c))
  {
    hide PingKey;
  }

  lemma InKeeps(cfg: Config, c: Conn, m: Inward)
    requires Inv(c) && MayIn(cfg, c, m)
    ensures Inv(DoIn(cfg, c, m))
  {
    hide Inv, Calm, TakeData, TakeCredit, TakeZero, TakeSettings, TakeReset, TakeGoaway, HandlePing, Deliver, RefusePush,
         ConnectionError, Handle, DecodeBlock, ApplySettings;
    match m {
      case HearCredit(id, n) => CreditKeeps(c, id, n);
      case HearSettings(s) => SettingsKeep(c, s);
      case Crash(f) => CrashKeeps(cfg, c, f);
      case SetInbox(rest) => CalmDecoding(c, c.block, c.table, rest);
      case Hear(f, block) => CalmHear(c, f, block);
      case HearData(id, data, endStream) => CalmData(c, id, data, endStream);
      case HearReset(id, code) => CalmTakeReset(c, id, code);
      case HearZero(id) => ZeroKeeps(c, id);
      case HearPing(ack, opaque8) => CalmPing(c, ack, opaque8);
      case HearGoaway(last, code, debug) => CalmGoaway(c, last, code, debug);
      case SetCodec(input) => CalmDecoding(c, c.block, DecodeBlock(cfg.tables, c.table, input).table, c.inbox);
      case TakeHeaders(id, headers, endStream) => CalmDeliver(c, id, headers, endStream);
      case Refuse(promised, headers) => CalmRefuse(c, promised, headers);
      case Garbled(e) => CalmError(c, e);
      case Stop(e) => CalmDestroy(c, e);
    }
    if Calm(c, DoIn(cfg, c, m)) {
      CalmKeeps(c, DoIn(cfg, c, m));
    }
  }

  lemma CalmDecoding(c: Conn, block: Option<Pending>, table: DynamicTable.Table, inbox: bytes)
    ensures Calm(c, c.(block := block, table := table)) && Calm(c, c.(inbox := inbox))
  {
  }

  lemma CalmHear(c: Conn, f: Frame, block: Option<Pending>)
    requires Passive(f)
    ensures Calm(c, Log(c, Event.Recv(f)).(block := block))
  {
  }

  lemma ZeroKeeps(c: Conn, id: nat)
    requires Inv(c) && id > 0
    ensures Inv(TakeZero(c, id))
  {
    hide Fits, Account, Calm, ResetStream;
    var c1 := Log(c, Event.Recv(WindowUpdate(id, 0)));
    RecvPosts(c, WindowUpdate(id, 0));
    assert Inv(c1);
    CalmReset(c1, id, ProtocolError);
    CalmKeeps(c1, TakeZero(c, id));
  }

  lemma CalmTakeReset(c: Conn, id: nat, code: nat)
    ensures Calm(c, TakeReset(c, id, code))
  {
    hide Calm, Doom;
    var c1 := Log(c, Event.Recv(RstStream(id, code)));
    CalmLog(c, Event.Recv(RstStream(id, code)));
    CalmDoom(c1, {id}, H2Error(CodeOr(code, ProtocolError), PeerReset));
    CalmTrans(c, c1, TakeReset(c, id, code));
  }

  lemma OutKeeps(cfg: Config, c: Conn, m: Outward)
    requires Inv(c) && MayOut(cfg, c, m)
    ensures Inv(DoOut(cfg, c, m))
  {
    hide Inv, Calm, Open, Turn, FinishBody, Claim, YieldChunk, DropBody, Replenish, StartPing, Close, Destroy, ResetStream, CanOpen;
    match m {
      case MoveOpen(headers, hasBody) => OpenKeeps(cfg, c, headers, hasBody);
      case MoveTurn(id) => TurnKeeps(c, id);
      case MoveFinish(id) => FinishKeeps(c, id);
      case Quit(e) => CalmDestroy(c, e);
      case MoveQueue(token) => CalmQueue(c, c.waiters + [token]);
      case MoveFeed(id, chunk) => CalmFeed(c, id, chunk);
      case MoveClaim(id) => CalmClaim(c, id);
      case MoveYield(id) => CalmYield(c, id);
      case MoveYieldError(id) => CalmYieldError(c, id);
      case MoveYieldEnd(id) => CalmLog(c, YieldedEnd(id));
      case MoveWait(id) => CalmCells(c, Wait(c, id).cells);
      case MoveDrop(id) => CalmDrop(c, id);
      case MovePing => CalmStartPing(c);
      case MoveClose => CalmClose(c);
    }
    if Calm(c, DoOut(cfg, c, m)) {
      CalmKeeps(c, DoOut(cfg, c, m));
    }
  }

  lemma CalmYieldError(c: Conn, id: nat)
    requires Holds(c, id)
    ensures Calm(c, YieldError(c, id))
  {
  }

  lemma CalmClose(c: Conn)
    requires c.closed.None?
    ensures Calm(c, Close(c))
  {
    hide Calm, Destroy;
    var f := Goaway(c.highestPromised, 0, []);
    CalmSend(c, f);
    CalmDestroy(Send(c, f), H2Error(NoError, ClosedByClient));
    CalmTrans(c, Send(c, f), Close(c));
  }

  lemma CalmQueue(c: Conn, waiters: seq<nat>)
    ensures Calm(c, c.(waiters := waiters))
  {
  }

  lemma CalmClaim(c: Conn, id: nat)
    requires id in c.cells
    ensures Calm(c, Claim(c, id))
  {
  }

  lemma CalmFeed(c: Conn, id: nat, chunk: bytes)
    requires PumpIs(c, id, true)
    ensures Calm(c, SetPump(Log(c, Event.Fed(id, chunk)), id, Sending(chunk, 0)))
  {
  }

  lemma RunKeeps(cfg: Config, steps: seq<Step>)
    requires cfg.tables.Sized()
    ensures Inv(Run(cfg, steps))
  {
    hide Inv, DoIn, DoOut, MayIn, MayOut, Run, Connect;
    ConnectInv(cfg);
    forall c, m | MayIn(cfg, c, m) && Inv(c)
      ensures Inv(DoIn(cfg, c, m))
    {
      InKeeps(cfg, c, m);
    }
    forall c, m | MayOut(cfg, c, m) && Inv(c)
      ensures Inv(DoOut(cfg, c, m))
    {
      OutKeeps(cfg, c, m);
    }
    RunByMoves(cfg, Inv, steps);
  }

  lemma ConnectInv(cfg: Config)
    ensures Inv(Connect(cfg))
  {
    hide Fits, Account;
    var quiet := Quiet(cfg);
    assert Inv(quiet) by { QuietInv(cfg); }
    var settings := SettingsFrame(false, OurSettings(cfg));
    var grow := WindowUpdate(0, if cfg.connectionWindow > SPEC_WINDOW then cfg.connectionWindow - SPEC_WINDOW else 0);
    CalmSend(quiet, settings);
    CalmSend(Send(quiet, settings), grow);
    CalmKeeps(quiet, Send(quiet, settings));
    CalmKeeps(Send(quiet, settings), Send(Send(quiet, settings), grow));
  }

  lemma QuietInv(cfg: Config)
    ensures Inv(Quiet(cfg))
  {
  }

  // --- the theorems ---

  function ConnCredit(log: Trace): (n: nat) {
    match log
    case Begin => 0
    case After(past, Recv(WindowUpdate(id, n))) => ConnCredit(past) + if id == 0 then n else 0
    case After(past, _) => ConnCredit(past)
  }

  predicate HasOpened(log: Trace, id: nat) {
    match log
    case Begin => false
    case After(past, Opened(i, _, _)) => i == id || HasOpened(past, id)
    case After(past, _) => HasOpened(past, id)
  }

  /** Credit given to a stream since it was opened. */
  function StreamCredit(log: Trace, id: nat): (n: nat) {
    match log
    case Begin => 0
    case After(past, Recv(WindowUpdate(i, n))) => StreamCredit(past, id) + if i == id && HasOpened(past, id) then n else 0
    case After(past, _) => StreamCredit(past, id)
  }

  /** DATA bytes sent on one stream; on all streams if `any`. */
  function DataSent(log: Trace, id: nat, any: bool): (n: nat) {
    match log
    case Begin => 0
    case After(past, Sent(Data(i, data, _))) => DataSent(past, id, any) + if any || i == id then |data| else 0
    case After(past, _) => DataSent(past, id, any)
  }

  /** The peer's current SETTINGS_INITIAL_WINDOW_SIZE. */
  function PeerWindow(log: Trace): (w: nat) {
    match log
    case Begin => 65535
    case After(past, Recv(SettingsFrame(false, s))) =>
      if s.initialWindowSize.Some? then s.initialWindowSize.value else PeerWindow(past)
    case After(past, _) => PeerWindow(past)
  }

  /** The peer's current SETTINGS_MAX_FRAME_SIZE. */
  function PeerFrameLimit(log: Trace): (n: nat) {
    match log
    case Begin => 16384
    case After(past, Recv(SettingsFrame(false, s))) =>
      if s.maxFrameSize.Some? then s.maxFrameSize.value else PeerFrameLimit(past)
    case After(past, _) => PeerFrameLimit(past)
  }

  /** The peer's current SETTINGS_HEADER_TABLE_SIZE. */
  function PeerTableSize(log: Trace): (n: nat) {
    match log
    case Begin => 4096
    case After(past, Recv(SettingsFrame(false, s))) =>
      if s.headerTableSize.Some? then s.headerTableSize.value else PeerTableSize(past)
    case After(past, _) => PeerTableSize(past)
  }

  /** The peer's current SETTINGS_ENABLE_PUSH. */
  function PeerPush(log: Trace): (b: bool) {
    match log
    case Begin => true
    case After(past, Recv(SettingsFrame(false, s))) => if s.enablePush.Some? then s.enablePush.value else PeerPush(past)
    case After(past, _) => PeerPush(past)
  }

  /** The peer's current SETTINGS_MAX_CONCURRENT_STREAMS. */
  function PeerStreamLimit(log: Trace): (n: nat) {
    match log
    case Begin => 4294967295
    case After(past, Recv(SettingsFrame(false, s))) =>
      if s.maxConcurrentStreams.Some? then s.maxConcurrentStreams.value else PeerStreamLimit(past)
    case After(past, _) => PeerStreamLimit(past)
  }

  function ConnWindow(log: Trace): (n: int) {
    65535 + ConnCredit(log) - DataSent(log, 0, true)
  }

  function StreamWindow(log: Trace, id: nat): (n: int) {
    PeerWindow(log) + StreamCredit(log, id) - DataSent(log, id, false)
  }

  lemma {:induction false} LedgerIsSums(log: Trace, id: nat)
    requires Fits(log) && id > 0
    ensures var a := Account(log);
            && a.conn == ConnWindow(log) >= 0 && a.initial == PeerWindow(log) && a.frameLimit == PeerFrameLimit(log)
            && a.tableSize == PeerTableSize(log) && a.push == PeerPush(log) && a.streamLimit == PeerStreamLimit(log)
            && (id in a.streams <==> HasOpened(log, id)) && 0 !in a.streams
            && (id in a.streams ==> a.streams[id] == StreamCredit(log, id) - DataSent(log, id, false))
            && (id !in a.streams ==> StreamCredit(log, id) == 0 && DataSent(log, id, false) == 0)
  {
    if log.After? {
      LedgerIsSums(log.past, id);
    }
  }

  /**
   * Over every run, while the connection is open: the connection window is 65535 plus its
   * credits minus all DATA sent, whatever SETTINGS said, and never negative; each live stream's
   * window is the peer's current initial window plus its credits minus its DATA.
   */
  lemma SendWindows(cfg: Config, steps: seq<Step>)
    requires cfg.tables.Sized() && Run(cfg, steps).closed.None?
    ensures var c := Run(cfg, steps);
            && c.window.available == ConnWindow(c.log) >= 0
            && forall id :: id in c.streams ==> c.streams[id].window.available == StreamWindow(c.log, id)
  {
    hide Run, Fits, Account, ConnWindow, StreamWindow;
    RunKeeps(cfg, steps);
    var c := Run(cfg, steps);
    LedgerIsSums(c.log, 1);
    forall id | id in c.streams
      ensures c.streams[id].window.available == StreamWindow(c.log, id)
    {
      LedgerIsSums(c.log, id);
      assert StreamWindow(c.log, id) == PeerWindow(c.log) + StreamCredit(c.log, id) - DataSent(c.log, id, false) by {
        StreamWindowIs(c.log, id);
      }
    }
  }

  /** While the connection is open, each setting is the last value the peer sent for it. */
  lemma SettingsAreThePeers(cfg: Config, steps: seq<Step>)
    requires cfg.tables.Sized() && Run(cfg, steps).closed.None?
    ensures var c := Run(cfg, steps);
            && c.remote.initialWindow == PeerWindow(c.log) && c.remote.maxFrameSize == PeerFrameLimit(c.log)
            && c.remote.headerTableSize == PeerTableSize(c.log) && c.remote.enablePush == PeerPush(c.log)
            && c.remote.maxConcurrent == PeerStreamLimit(c.log)
  {
    hide Run, Fits, Account, ConnWindow, PeerStreamLimit, PeerTableSize, PeerPush, PeerWindow, PeerFrameLimit;
    RunKeeps(cfg, steps);
    LedgerIsSums(Run(cfg, steps).log, 1);
  }

  lemma StreamWindowIs(log: Trace, id: nat)
    ensures StreamWindow(log, id) == PeerWindow(log) + StreamCredit(log, id) - DataSent(log, id, false)
  {
  }

  lemma {:induction false} FitsBefore(log: Trace, earlier: Trace)
    requires Fits(log) && Reaches(log, earlier)
    ensures Fits(earlier)
  {
    if log != earlier {
      FitsBefore(log.past, earlier);
    }
  }

  /**
   * Every non-empty DATA frame a run ever wrote was within both windows and the peer's maximum
   * frame size at the moment it was written.
   */
  lemma DataWithinWindows(cfg: Config, steps: seq<Step>, past: Trace, id: nat, data: bytes, endStream: bool)
    requires cfg.tables.Sized() && data != []
    requires Reaches(Run(cfg, steps).log, After(past, Sent(Data(id, data, endStream))))
    ensures HasOpened(past, id) && |data| <= ConnWindow(past) && |data| <= StreamWindow(past, id) && |data| <= PeerFrameLimit(past)
  {
    hide Run, Reaches, Account, ConnWindow;
    RunKeeps(cfg, steps);
    FitsBefore(Run(cfg, steps).log, After(past, Sent(Data(id, data, endStream))));
    if id > 0 {
      LedgerIsSums(past, id);
    } else {
      LedgerIsSums(past, 1);
    }
  }
}
