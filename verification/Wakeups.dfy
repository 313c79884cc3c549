/** No lost wakeup: an upload is parked only on a window that cannot serve it. */
module Wakeups {
  import opened Common
  import opened Hpack
  import opened Frames
  import opened Flow
  import opened Connection
  import opened Moves

  ghost predicate WindowsValid(c: Conn) {
    && WindowsOpen(c) && c.window.Valid() && (c.closed.Some? ==> c.streams.Keys == {} && c.parked == {})
    && (forall id :: id in c.streams ==> c.streams[id].window.Valid())
  }

  /** A parked upload is inside a chunk and registered on a window that will wake it. */
  ghost predicate Registered(c: Conn, id: nat) {
    && id in c.cells && c.cells[id].pump.Sending?
    && (id in c.window.wakers || (id in c.streams && id in c.streams[id].window.wakers))
  }

  ghost predicate UploadsLive(c: Conn) {
    && c.streams.Keys <= c.cells.Keys && (forall id :: id in c.cells ==> id < c.nextId)
    && (forall id :: id in c.streams && c.streams[id].localClosed ==> !c.cells[id].pump.Sending?)
    && (forall id :: id in c.cells && c.cells[id].pump.Idle? && id in c.streams ==> !c.streams[id].localClosed)
  }

  ghost predicate Inv(c: Conn) {
    WindowsValid(c) && UploadsLive(c) && forall id :: id in c.parked ==> Registered(c, id)
  }

  /** Windows, parked uploads and pumps are as they were. */
  ghost predicate Same(c: Conn, c': Conn) {
    && c'.window == c.window && c'.parked == c.parked && c'.nextId == c.nextId && c'.closed == c.closed
    && c'.cells.Keys == c.cells.Keys && c'.streams.Keys == c.streams.Keys
    && (forall id :: id in c.cells ==> c'.cells[id].pump == c.cells[id].pump)
    && (forall id :: id in c.streams ==>
          c'.streams[id].window == c.streams[id].window && c'.streams[id].localClosed == c.streams[id].localClosed)
  }

  lemma SameKeeps(c: Conn, c': Conn)
    requires Inv(c) && Same(c, c')
    ensures Inv(c')
  {
  }

  lemma {:induction false} SendAllSame(c: Conn, fs: seq<Frame>)
    ensures Same(c, SendAll(c, fs))
    decreases |fs|
  {
    if fs != [] {
      SendAllSame(Send(c, fs[0]), fs[1..]);
    }
  }

  lemma GrantConnKeeps(c: Conn, n: nat)
    requires Inv(c)
    ensures Inv(GrantConn(c, n))
  {
  }

  lemma GrantStreamKeeps(c: Conn, id: nat, n: nat)
    requires Inv(c)
    ensures Inv(GrantStream(c, id, n))
  {
  }

  lemma AdjustKeeps(c: Conn, delta: int)
    requires Inv(c)
    ensures Inv(AdjustAll(c, delta))
  {
    var c' := AdjustAll(c, delta);
    forall id | id in c'.parked
      ensures Registered(c', id)
    {
      assert Registered(c, id);
      if id in c.streams && id in c.streams[id].window.wakers {
        assert id !in c.streams[id].window.WokenBy(delta);
      }
    }
  }

  lemma ApplyKeeps(c: Conn, s: Settings)
    requires Inv(c)
    ensures Inv(ApplySettings(c, s).conn)
  {
    hide Inv, AdjustAll;
    SettingsTail(c, s);
    if s.initialWindowSize.Some? {
      var c1 := c.(remote := c.remote.(initialWindow := s.initialWindowSize.value));
      SameKeeps(c, c1);
      AdjustKeeps(c1, s.initialWindowSize.value - c.remote.initialWindow);
    }
    SameKeeps(Resized(c, s), ApplySettings(c, s).conn);
  }

  lemma RetireKeeps(c: Conn, id: nat)
    requires Inv(c)
    ensures Inv(Retire(c, id))
  {
  }

  /** Failing a stream wakes what was parked on its window. */
  lemma DoomKeeps(c: Conn, ids: set<nat>, err: H2Error)
    requires Inv(c)
    ensures Inv(Doom(c, ids, err)) && Inv(WakeSlots(Doom(c, ids, err)))
  {
    var c' := Doom(c, ids, err);
    forall id | id in ids && id in c.streams && id in c.streams[id].window.wakers
      ensures id in Sleepers(c.streams, ids)
    {
    }
    forall id | id in c'.parked
      ensures Registered(c', id)
    {
      assert Registered(c, id);
    }
  }

  lemma DestroyKeeps(c: Conn, err: H2Error)
    requires Inv(c)
    ensures Inv(Destroy(c, err))
  {
    if c.closed.None? {
      var c' := Destroy(c, err);
      forall id | id in c.parked
        ensures id !in c'.parked
      {
        assert Registered(c, id);
        if id in c.streams && id in c.streams[id].window.wakers {
          assert id in Sleepers(c.streams, c.streams.Keys);
        }
      }
      assert c'.parked == {};
      assert c'.streams.Keys == {};
    }
  }

  lemma LastWords(c: Conn, f: Frame, err: H2Error)
    requires Inv(c)
    ensures Inv(Destroy(Send(c, f), err))
  {
    hide Inv, Destroy;
    SameKeeps(c, Send(c, f));
    DestroyKeeps(Send(c, f), err);
  }

  lemma CrashKeeps(cfg: Config, c: Conn, f: Frame)
    requires Inv(c) && Handle(cfg, c, f).error.Some?
    ensures Inv(ConnectionError(Handle(cfg, c, f).conn, Handle(cfg, c, f).error.value))
  {
    hide Inv, Destroy, Gather, ApplySettings, ReceiveData, Retire, Doom, ResetStream, HandlePing, HandleGoaway, GrantConn, GrantStream;
    var o, c1 := Handle(cfg, c, f), Log(c, Event.Recv(f));
    SameKeeps(c, c1);
    if OfBlock(f) {
      HandleGathers(cfg, c, f);
      hide Handle;
      if Gathering(c, f).Some? {
        GatherFailsSame(cfg, c1, Gathering(c, f).value, f.endHeaders);
      }
    } else if f.SettingsFrame? {
      ApplyKeeps(c1, f.settings);
    }
    LastWords(o.conn, Goaway(o.conn.highestPromised, o.error.value.code.Value(), []), o.error.value);
  }

  lemma GatherFailsSame(cfg: Config, c: Conn, pb: Pending, endHeaders: bool)
    requires Inv(c)
    ensures Gather(cfg, c, pb, endHeaders).error.Some? ==> Inv(Gather(cfg, c, pb, endHeaders).conn)
  {
    hide Inv, DecodeBlock, ReceiveHeaders, Retire, RefusePush;
    var o := Gather(cfg, c, pb, endHeaders);
    if o.error.Some? {
      SameKeeps(c, o.conn);
    }
  }

  lemma DataSame(c: Conn, id: nat, data: bytes, endStream: bool)
    ensures Same(c, ReceiveData(Log(c, Event.Recv(Data(id, data, endStream))), id, data, endStream))
  {
    hide DataOnRecv, Send, Dropping;
    SendShape(Log(Log(c, Event.Recv(Data(id, data, endStream))), Returned(id, |data|)), WindowUpdate(0, |data| % U32_LIMIT));
  }

  lemma HeadersSame(c: Conn, id: nat, headers: seq<Header>, endStream: bool)
    ensures Same(c, ReceiveHeaders(Log(c, Block(id, false, headers, endStream)), id, headers, endStream))
  {
    hide Interim;
  }

  lemma DataKeeps(c: Conn, id: nat, data: bytes, endStream: bool)
    requires Inv(c)
    ensures Inv(TakeData(c, id, data, endStream))
  {
    hide Inv, ReceiveData, Retire;
    DataSame(c, id, data, endStream);
    var c1 := ReceiveData(Log(c, Event.Recv(Data(id, data, endStream))), id, data, endStream);
    SameKeeps(c, c1);
    RetireKeeps(c1, id);
  }

  lemma DeliverKeeps(c: Conn, id: nat, headers: seq<Header>, endStream: bool)
    requires Inv(c)
    ensures Inv(Deliver(c, id, headers, endStream))
  {
    hide Inv, ReceiveHeaders, Retire;
    HeadersSame(c, id, headers, endStream);
    var c1 := ReceiveHeaders(Log(c, Block(id, false, headers, endStream)), id, headers, endStream);
    SameKeeps(c, c1);
    RetireKeeps(c1, id);
  }

  lemma SettingsKeep(c: Conn, s: Settings)
    requires Inv(c)
    ensures Inv(TakeSettings(c, s))
  {
    hide Inv, ApplySettings, Send;
    var c1 := Log(c, Event.Recv(SettingsFrame(false, s)));
    SameKeeps(c, c1);
    ApplyKeeps(c1, s);
    SendShape(ApplySettings(c1, s).conn, SettingsFrame(true, NO_SETTINGS));
    SameKeeps(ApplySettings(c1, s).conn, TakeSettings(c, s));
  }

  lemma InKeeps(cfg: Config, c: Conn, m: Inward)
    requires Inv(c) && MayIn(cfg, c, m)
    ensures Inv(DoIn(cfg, c, m))
  {
    hide Inv, GrantConn, GrantStream, TakeData, TakeSettings, Deliver, HandlePing, RefusePush, ApplySettings, ResetStream, Destroy, Doom, Handle, DecodeBlock;
    match m
    case HearCredit(id, n) =>
      var c1 := Log(c, Event.Recv(WindowUpdate(id, n)));
      SameKeeps(c, c1);
      GrantConnKeeps(c1, n);
      GrantStreamKeeps(c1, id, n);
    case HearData(id, data, endStream) => DataKeeps(c, id, data, endStream);
    case HearSettings(s) => SettingsKeep(c, s);
    case HearZero(id) =>
      SameKeeps(c, Log(c, Event.Recv(WindowUpdate(id, 0))));
      ResetKeeps(Log(c, Event.Recv(WindowUpdate(id, 0))), id, ProtocolError);
    case HearReset(id, code) =>
      SameKeeps(c, Log(c, Event.Recv(RstStream(id, code))));
      DoomKeeps(Log(c, Event.Recv(RstStream(id, code))), {id}, H2Error(CodeOr(code, ProtocolError), PeerReset));
    case HearGoaway(last, code, debug) =>
      var c1 := Log(c, Event.Recv(Goaway(last, code, debug))).(goaway := true);
      SameKeeps(c, c1);
      DoomKeeps(c1, Above(c.streams.Keys, last), H2Error(CodeOr(code, NoError), PeerGoaway));
    case TakeHeaders(id, headers, endStream) => DeliverKeeps(c, id, headers, endStream);
    case Crash(f) => CrashKeeps(cfg, c, f);
    case Garbled(e) => LastWords(c, Goaway(c.highestPromised, e.code.Value(), []), e);
    case Stop(e) => DestroyKeeps(c, e);
    case HearPing(ack, opaque8) => PingSame(c, ack, opaque8); SameKeeps(c, DoIn(cfg, c, m));
    case Refuse(promised, headers) => RefuseSame(c, promised, headers); SameKeeps(c, DoIn(cfg, c, m));
    case _ => SameKeeps(c, DoIn(cfg, c, m));
  }

  lemma PingSame(c: Conn, ack: bool, opaque8: bytes)
    ensures Same(c, HandlePing(Log(c, Event.Recv(Ping(ack, opaque8))), ack, opaque8))
  {
  }

  lemma RefuseSame(c: Conn, promised: nat, headers: seq<Header>)
    ensures Same(c, RefusePush(c, promised, headers))
  {
  }

  // --- the application's side ---

  lemma ReserveKeeps(c: Conn, hasBody: bool)
    requires Inv(c) && c.closed.None?
    ensures Inv(Reserve(c, hasBody))
  {
  }

  lemma OpenKeeps(cfg: Config, c: Conn, headers: seq<Header>, hasBody: bool)
    requires cfg.tables.Sized() && Inv(c) && c.closed.None?
    ensures Inv(Open(cfg, c, headers, hasBody))
  {
    hide Inv, SendAll, SplitHeaders, EncodeHeaders, Reserve;
    var block := EncodeHeaders(cfg.tables, headers);
    var c1 := Log(Reserve(c, hasBody), Event.Opened(c.nextId, block, hasBody));
    ReserveKeeps(c, hasBody);
    SameKeeps(Reserve(c, hasBody), c1);
    var fs := SplitHeaders(c.nextId, block, !hasBody, c.remote.maxFrameSize);
    SendAllSame(c1, fs);
    SameKeeps(c1, SendAll(c1, fs));
  }

  lemma ParkKeeps(c: Conn, id: nat)
    requires Inv(c) && id in c.streams && PumpIs(c, id, false) && c.closed.None?
    requires !(c.window.Ready() && c.streams[id].window.Ready())
    ensures Inv(Park(c, id))
  {
    var c' := Park(c, id);
    forall t | t in c'.parked
      ensures Registered(c', t)
    {
      assert t != id ==> Registered(c, t);
    }
  }

  lemma SendChunkKeeps(c: Conn, id: nat, n: nat)
    requires Inv(c) && PumpIs(c, id, false) && id in c.streams && c.closed.None? && id !in c.parked
    requires var p := c.cells[id].pump; p.offset + n <= |p.chunk|
    ensures Inv(SendChunk(c, id, n))
  {
    var c' := SendChunk(c, id, n);
    forall t | t in c'.parked
      ensures Registered(c', t)
    {
      assert Registered(c, t);
    }
  }

  lemma PumpKeeps(c: Conn, id: nat, p: Pump)
    requires Inv(c) && id in c.cells && id !in c.parked
    requires p.Finished? || (p.Sending? && c.cells[id].pump.Idle?)
    ensures Inv(SetPump(c, id, p))
  {
    forall t | t in c.parked
      ensures Registered(SetPump(c, id, p), t)
    {
      assert Registered(c, t);
    }
  }

  lemma TurnKeeps(c: Conn, id: nat)
    requires PumpIs(c, id, false) && c.cells[id].pump.offset <= |c.cells[id].pump.chunk| && Inv(c) && id !in c.parked
    ensures Inv(Turn(c, id))
  {
    hide Inv, Park, SendChunk, SetPump;
    if c.closed.Some? || id !in c.streams {
      PumpKeeps(c, id, Finished);
    } else if !(c.window.Ready() && c.streams[id].window.Ready()) {
      ParkKeeps(c, id);
    } else if c.streams[id].window.closed {
      PumpKeeps(c, id, Finished);
    } else if Grant(c, id) > 0 {
      SendChunkKeeps(c, id, Grant(c, id));
    }
  }

  lemma NotParked(c: Conn, id: nat)
    requires Inv(c) && PumpIs(c, id, true)
    ensures id !in c.parked && (id in c.streams ==> !c.streams[id].localClosed)
  {
    assert id in c.parked ==> Registered(c, id);
  }

  lemma FeedKeeps(c: Conn, id: nat, chunk: bytes)
    requires Inv(c) && PumpIs(c, id, true)
    ensures Inv(SetPump(Log(c, Event.Fed(id, chunk)), id, Sending(chunk, 0)))
  {
    hide Inv, SetPump;
    NotParked(c, id);
    SameKeeps(c, Log(c, Event.Fed(id, chunk)));
    PumpKeeps(Log(c, Event.Fed(id, chunk)), id, Sending(chunk, 0));
  }

  lemma HalfCloseKeeps(c: Conn, id: nat)
    requires Inv(c) && id in c.streams && id in c.cells && c.cells[id].pump.Finished?
    ensures Inv(SetStream(c, id, c.streams[id].(localClosed := true)))
  {
    var c' := SetStream(c, id, c.streams[id].(localClosed := true));
    forall t | t in c.parked
      ensures Registered(c', t)
    {
      assert Registered(c, t);
    }
  }

  lemma FinishKeeps(c: Conn, id: nat)
    requires PumpIs(c, id, true) && Inv(c)
    ensures Inv(FinishBody(c, id))
  {
    hide Inv, Retire;
    NotParked(c, id);
    SameKeeps(c, Log(c, Event.FedAll(id)));
    var c1 := SetPump(Log(c, Event.FedAll(id)), id, Finished);
    PumpKeeps(Log(c, Event.FedAll(id)), id, Finished);
    if id in c.streams {
      var c2 := Send(c1, Data(id, [], true));
      SameKeeps(c1, c2);
      HalfCloseKeeps(c2, id);
      RetireKeeps(SetStream(c2, id, c2.streams[id].(localClosed := true)), id);
    }
  }

  lemma ReplenishSame(c: Conn, id: nat, n: nat)
    ensures Same(c, Replenish(c, id, n))
  {
    hide Replenish;
    ReplenishShape(c, id, n);
  }

  lemma ResetKeeps(c: Conn, id: nat, code: ErrorCode)
    requires Inv(c)
    ensures Inv(ResetStream(c, id, code))
  {
    hide Inv, Doom;
    var c1 := Send(c, RstStream(id, code.Value()));
    SameKeeps(c, c1);
    DoomKeeps(c1, {id}, H2Error(code, StreamReset));
  }

  lemma YieldKeeps(c: Conn, id: nat)
    requires Inv(c) && Holds(c, id) && c.cells[id].recv.queue != []
    ensures Inv(YieldChunk(c, id))
  {
    hide Inv, Replenish;
    SameKeeps(c, TakeChunk(c, id));
    ReplenishSame(TakeChunk(c, id), id, |c.cells[id].recv.queue[0]|);
    SameKeeps(TakeChunk(c, id), YieldChunk(c, id));
  }

  lemma DropKeeps(c: Conn, id: nat)
    requires Inv(c) && Holds(c, id)
    ensures Inv(DropBody(c, id))
  {
    hide Inv, Replenish, ResetStream;
    var c1, c2 := SetCell(Log(c, Event.Released(id)), id, c.cells[id].(body := Dropped)), Relinquish(c, id);
    SameKeeps(c, c1);
    if c.cells[id].recv.buffered > 0 {
      ReplenishSame(c1, id, c.cells[id].recv.buffered);
      SameKeeps(c1, c2);
    }
    ResetKeeps(c2, id, Cancel);
  }

  lemma OutKeeps(cfg: Config, c: Conn, m: Outward)
    requires Inv(c) && MayOut(cfg, c, m)
    ensures Inv(DoOut(cfg, c, m))
  {
    hide Inv, Turn, FinishBody, YieldChunk, DropBody, Open, Send, SetPump, Destroy, StartPing, ResetStream, CanOpen;
    match m
    case Quit(e) => DestroyKeeps(c, e);
    case MoveOpen(headers, hasBody) => OpenKeeps(cfg, c, headers, hasBody);
    case MoveTurn(id) => TurnKeeps(c, id);
    case MoveFeed(id, chunk) => FeedKeeps(c, id, chunk);
    case MoveFinish(id) => FinishKeeps(c, id);
    case MoveYield(id) => YieldKeeps(c, id);
    case MoveDrop(id) => DropKeeps(c, id);
    case MoveClose => LastWords(c, Goaway(c.highestPromised, 0, []), H2Error(NoError, ClosedByClient));
    case MovePing => PingShape(c); SameKeeps(c, StartPing(c));
    case _ => LocalSame(cfg, c, m); SameKeeps(c, DoOut(cfg, c, m));
  }

  lemma LocalSame(cfg: Config, c: Conn, m: Outward)
    requires MayOut(cfg, c, m)
    requires Local(m) && !m.MoveFeed?
    ensures Same(c, DoOut(cfg, c, m))
  {
    LocalShape(cfg, c, m);
    hide DoOut;
  }

  /**
   * In every state of every run, an upload is parked only while the connection is open and its
   * connection window or its stream window has no capacity; so an upload that could send is
   * never left asleep.
   */
  lemma NoLostWakeup(cfg: Config, steps: seq<Step>, id: nat)
    requires cfg.tables.Sized() && id in Run(cfg, steps).parked
    ensures var c := Run(cfg, steps);
            && c.closed.None? && PumpIs(c, id, false)
            && (c.window.available <= 0 || (id in c.streams && c.streams[id].window.available <= 0))
  {
    hide Inv, Run;
    RunKeeps(cfg, steps);
    ParkedMeans(Run(cfg, steps), id);
  }

  /** Windows stay open until teardown, in every run. */
  lemma WindowsStayOpen(cfg: Config, steps: seq<Step>)
    requires cfg.tables.Sized()
    ensures WindowsOpen(Run(cfg, steps))
  {
    hide Run;
    RunKeeps(cfg, steps);
  }

  lemma RunKeeps(cfg: Config, steps: seq<Step>)
    requires cfg.tables.Sized()
    ensures Inv(Run(cfg, steps))
  {
    hide Inv, DoIn, DoOut, MayIn, MayOut, Run, Connect;
    assert Inv(Connect(cfg)) by { Started(cfg); }
    forall c, m | MayIn(cfg, c, m) && Inv(c)
      ensures Inv(DoIn(cfg, c, m))
    {
      InKeeps(cfg, c, m);
    }
    forall c, m | MayOut(cfg, c, m) && Inv(c)
      ensures Inv(DoOut(cfg, c, m))
    {
      OutKeeps(cfg, c, m);
    }
    RunByMoves(cfg, Inv, steps);
  }

  lemma ParkedMeans(c: Conn, id: nat)
    requires Inv(c) && id in c.parked
    ensures c.closed.None? && PumpIs(c, id, false)
    ensures c.window.available <= 0 || (id in c.streams && c.streams[id].window.available <= 0)
  {
    assert Registered(c, id);
  }

  lemma Started(cfg: Config)
    ensures Inv(Connect(cfg))
  {
    ConnectShape(cfg);
    hide Connect;
  }
}
