/** Received bytes that no request can ever read and nothing gives back. */
module StrandedBytes {
  import opened Common
  import opened Bytes
  import opened Hpack
  import opened Frames
  import opened FrameStream
  import opened Flow
  import opened Connection
  import opened Moves
  import opened ReceiveCredit

  /** A mapped stream waits for its head or has it, an unmapped one has settled, and only an answer is claimed. */
  ghost predicate Heads(c: Conn) {
    && c.streams.Keys <= c.cells.Keys && (forall id :: id in c.cells ==> id < c.nextId)
    && (forall id :: id in c.cells && !c.cells[id].body.Unclaimed? ==> c.cells[id].head.Answered?)
    && (forall id :: id in c.streams ==> if c.streams[id].gotHead then c.cells[id].head.Answered? else c.cells[id].head.Awaiting?)
    && (forall id :: id in c.cells && id !in c.streams ==> !c.cells[id].head.Awaiting?)
  }

  /** What has left the map stays out, and what is stranded there stays as it is. */
  ghost predicate Onward(c: Conn, c': Conn) {
    && Heads(c') && c.cells.Keys <= c'.cells.Keys
    && forall id :: id in c.cells && id !in c.streams ==>
         && id !in c'.streams && Lost(c'.cells[id]) == Lost(c.cells[id])
         && (Lost(c.cells[id]) ==> c'.cells[id].recv.buffered == c.cells[id].recv.buffered)
  }

  lemma OnwardTrans(c: Conn, c': Conn, c'': Conn)
    requires Onward(c, c') && Onward(c', c'')
    ensures Onward(c, c'')
  {
    hide Lost;
  }

  /** Streams, heads, bodies and buffers are as they were. */
  ghost predicate Same(c: Conn, c': Conn) {
    && c'.nextId == c.nextId && c'.cells.Keys == c.cells.Keys && c'.streams.Keys == c.streams.Keys
    && (forall id :: id in c.streams ==> c'.streams[id].gotHead == c.streams[id].gotHead)
    && (forall id :: id in c.cells ==>
          && c'.cells[id].head == c.cells[id].head && c'.cells[id].body == c.cells[id].body
          && c'.cells[id].recv.buffered == c.cells[id].recv.buffered)
  }

  lemma SameOnward(c: Conn, c': Conn)
    requires Heads(c) && Same(c, c')
    ensures Onward(c, c')
  {
  }

  /** One stream's cell has changed: it is still mapped, or it was answered and still is. */
  lemma CellOnward(c: Conn, c': Conn, id: nat)
    requires Heads(c) && id in c.cells && id in c'.cells && c'.cells == c.cells[id := c'.cells[id]]
    requires c'.nextId == c.nextId && c'.streams.Keys == c.streams.Keys
    requires forall i :: i in c.streams && i != id ==> c'.streams[i].gotHead == c.streams[i].gotHead
    requires id in c.streams ==>
      if c'.streams[id].gotHead then c'.cells[id].head.Answered? else c'.cells[id].head.Awaiting? && c'.cells[id].body.Unclaimed?
    requires id !in c.streams ==> c.cells[id].head.Answered? && c'.cells[id].head.Answered?
    ensures Onward(c, c')
  {
  }

  lemma {:induction false} SendAllSame(c: Conn, fs: seq<Frame>)
    ensures Same(c, SendAll(c, fs))
    decreases |fs|
  {
    if fs != [] {
      SendAllSame(Send(c, fs[0]), fs[1..]);
    }
  }

  // --- the two ways out of the map ---

  /** Failing streams strands exactly the buffers of those without a head. */
  lemma DoomStrands(c: Conn, ids: set<nat>, err: H2Error, id: nat)
    requires Heads(c)
    ensures Stranded(Doom(c, ids, err).cells, id)
         == if id in ids && id in c.streams && !c.streams[id].gotHead then c.cells[id].recv.buffered else Stranded(c.cells, id)
  {
    hide Sleepers;
  }

  /** So does retirement. */
  lemma RetireStrands(c: Conn, id: nat)
    requires Heads(c)
    ensures Stranded(Retire(c, id).cells, id)
         == if id in c.streams && id !in Retire(c, id).streams && !c.streams[id].gotHead
            then c.cells[id].recv.buffered else Stranded(c.cells, id)
  {
  }

  lemma DoomOnward(c: Conn, ids: set<nat>, err: H2Error)
    requires Heads(c)
    ensures Onward(c, Doom(c, ids, err)) && Onward(c, WakeSlots(Doom(c, ids, err)))
  {
    hide Sleepers, FailRecv;
  }

  lemma RetireOnward(c: Conn, id: nat)
    requires Heads(c)
    ensures Onward(c, Retire(c, id))
  {
    if id in c.streams && id in c.cells && !c.streams[id].gotHead {
      assert c.cells[id].head.Awaiting? && c.cells[id].body.Unclaimed?;
    }
  }

  lemma DestroyOnward(c: Conn, err: H2Error)
    requires Heads(c)
    ensures Onward(c, Destroy(c, err))
  {
    if c.closed.None? {
      hide Onward, Doom, Destroy, FailPongs;
      DestroyShape(c, err);
      DoomOnward(c, c.streams.Keys, err);
      var d := Doom(c, c.streams.Keys, err);
      SameOnward(d, Destroy(c, err)) by { OnwardHeads(c, d); }
      OnwardTrans(c, d, Destroy(c, err));
    } else {
      SameOnward(c, c);
    }
  }

  lemma OnwardHeads(c: Conn, c': Conn)
    requires Onward(c, c')
    ensures Heads(c')
  {
  }

  /** A change that does not matter, and then one that may. */
  lemma AfterSame(c: Conn, c1: Conn, c2: Conn)
    requires Heads(c) && Same(c, c1) && (Heads(c1) ==> Onward(c1, c2))
    ensures Onward(c, c2)
  {
    hide Onward;
    SameOnward(c, c1);
    OnwardHeads(c, c1);
    OnwardTrans(c, c1, c2);
  }

  lemma DestroyAfter(c: Conn, c1: Conn, err: H2Error)
    requires Heads(c) && Same(c, c1)
    ensures Onward(c, Destroy(c1, err))
  {
    hide Onward, Destroy;
    SameOnward(c, c1);
    OnwardHeads(c, c1);
    DestroyOnward(c1, err);
    OnwardTrans(c, c1, Destroy(c1, err));
  }

  lemma DoomAfter(c: Conn, c1: Conn, ids: set<nat>, err: H2Error)
    requires Heads(c) && Same(c, c1)
    ensures Onward(c, Doom(c1, ids, err)) && Onward(c, WakeSlots(Doom(c1, ids, err)))
  {
    hide Onward, Doom;
    SameOnward(c, c1);
    OnwardHeads(c, c1);
    DoomOnward(c1, ids, err);
    OnwardTrans(c, c1, Doom(c1, ids, err));
    OnwardTrans(c, c1, WakeSlots(Doom(c1, ids, err)));
  }

  lemma RetireAfter(c: Conn, c1: Conn, id: nat)
    requires Onward(c, c1)
    ensures Onward(c, Retire(c1, id))
  {
    hide Onward, Retire;
    OnwardHeads(c, c1);
    RetireOnward(c1, id);
    OnwardTrans(c, c1, Retire(c1, id));
  }

  // --- what the peer causes ---

  lemma DataOnward(c: Conn, id: nat, data: bytes, endStream: bool)
    requires Heads(c)
    ensures Onward(c, TakeData(c, id, data, endStream))
  {
    hide Onward, Retire, ReceiveData;
    var c1 := ReceiveData(Log(c, Event.Recv(Data(id, data, endStream))), id, data, endStream);
    if id in c.streams {
      LiveDataOnward(c, id, data, endStream);
    } else {
      DeadDataSame(c, id, data, endStream);
      SameOnward(c, c1);
    }
    RetireAfter(c, c1, id);
  }

  lemma LiveDataOnward(c: Conn, id: nat, data: bytes, endStream: bool)
    requires Heads(c) && id in c.streams
    ensures Onward(c, ReceiveData(Log(c, Event.Recv(Data(id, data, endStream))), id, data, endStream))
  {
    hide Onward, DataOnRecv;
    CellOnward(c, ReceiveData(Log(c, Event.Recv(Data(id, data, endStream))), id, data, endStream), id);
  }

  lemma DeadDataSame(c: Conn, id: nat, data: bytes, endStream: bool)
    requires id !in c.streams
    ensures Same(c, ReceiveData(Log(c, Event.Recv(Data(id, data, endStream))), id, data, endStream))
  {
    hide Send;
    SendShape(Log(Log(c, Event.Recv(Data(id, data, endStream))), Returned(id, |data|)), WindowUpdate(0, |data| % U32_LIMIT));
  }

  lemma DeliverOnward(c: Conn, id: nat, headers: seq<Header>, endStream: bool)
    requires Heads(c)
    ensures Onward(c, Deliver(c, id, headers, endStream))
  {
    hide Onward, Retire, Interim;
    var c1 := ReceiveHeaders(Log(c, Block(id, false, headers, endStream)), id, headers, endStream);
    if id in c.streams {
      CellOnward(c, c1, id);
    } else {
      SameOnward(c, c1);
    }
    RetireAfter(c, c1, id);
  }

  lemma CrashOnward(cfg: Config, c: Conn, f: Frame)
    requires Heads(c) && Handle(cfg, c, f).error.Some?
    ensures Onward(c, ConnectionError(Handle(cfg, c, f).conn, Handle(cfg, c, f).error.value))
  {
    hide Onward, Heads, Destroy, Handle;
    var o := Handle(cfg, c, f);
    CrashShape(cfg, c, f);
    DestroyAfter(c, Send(o.conn, Goaway(o.conn.highestPromised, o.error.value.code.Value(), [])), o.error.value);
  }

  lemma CreditSame(c: Conn, id: nat, n: nat)
    ensures Same(c, TakeCredit(c, id, n))
  {
    hide TakeCredit;
    CreditShape(c, id, n);
  }

  lemma RefuseSame(c: Conn, promised: nat, headers: seq<Header>)
    ensures Same(c, RefusePush(c, promised, headers))
  {
  }

  lemma PingSame(c: Conn, ack: bool, opaque8: bytes)
    ensures Same(c, HandlePing(Log(c, Event.Recv(Ping(ack, opaque8))), ack, opaque8))
  {
  }

  lemma SettingsSame(c: Conn, s: Settings)
    ensures Same(c, TakeSettings(c, s))
  {
    hide ApplySettings, Send;
    var c1 := Log(c, Event.Recv(SettingsFrame(false, s)));
    SettingsShape(c1, s);
    SendShape(ApplySettings(c1, s).conn, SettingsFrame(true, NO_SETTINGS));
  }

  lemma ResetOnward(c: Conn, c1: Conn, id: nat, code: ErrorCode)
    requires Heads(c) && Same(c, c1)
    ensures Onward(c, ResetStream(c1, id, code))
  {
    hide Onward, Doom, Heads, Send;
    SendShape(c1, RstStream(id, code.Value()));
    DoomAfter(c, Send(c1, RstStream(id, code.Value())), {id}, H2Error(code, StreamReset));
  }

  lemma InOnward(cfg: Config, c: Conn, m: Inward)
    requires Heads(c) && MayIn(cfg, c, m)
    ensures Onward(c, DoIn(cfg, c, m))
  {
    hide Onward, Heads, TakeData, TakeSettings, TakeCredit, Deliver, RefusePush, HandlePing,
         ResetStream, Destroy, Doom, Handle, DecodeBlock, ApplySettings;
    match m
    case SetInbox(rest) => SameOnward(c, DoIn(cfg, c, m));
    case SetCodec(input) => SameOnward(c, DoIn(cfg, c, m));
    case Hear(f, block) => SameOnward(c, DoIn(cfg, c, m));
    case HearCredit(id, n) => CreditSame(c, id, n); SameOnward(c, DoIn(cfg, c, m));
    case HearZero(id) => ResetOnward(c, Log(c, Event.Recv(WindowUpdate(id, 0))), id, ProtocolError);
    case HearData(id, data, endStream) => DataOnward(c, id, data, endStream);
    case HearSettings(s) => SettingsSame(c, s); SameOnward(c, DoIn(cfg, c, m));
    case HearReset(id, code) =>
      DoomAfter(c, Log(c, Event.Recv(RstStream(id, code))), {id}, H2Error(CodeOr(code, ProtocolError), PeerReset));
    case HearPing(ack, opaque8) => PingSame(c, ack, opaque8); SameOnward(c, DoIn(cfg, c, m));
    case HearGoaway(last, code, debug) =>
      DoomAfter(c, Log(c, Event.Recv(Goaway(last, code, debug))).(goaway := true), Above(c.streams.Keys, last),
                H2Error(CodeOr(code, NoError), PeerGoaway));
    case TakeHeaders(id, headers, endStream) => DeliverOnward(c, id, headers, endStream);
    case Refuse(promised, headers) => RefuseSame(c, promised, headers); SameOnward(c, DoIn(cfg, c, m));
    case Crash(f) => CrashOnward(cfg, c, f);
    case Garbled(e) => DestroyAfter(c, Send(c, Goaway(c.highestPromised, e.code.Value(), [])), e);
    case Stop(e) => DestroyOnward(c, e);
  }

  // --- what the application and the uploads cause ---

  lemma OpenOnward(cfg: Config, c: Conn, headers: seq<Header>, hasBody: bool)
    requires cfg.tables.Sized() && Heads(c)
    ensures Onward(c, Open(cfg, c, headers, hasBody))
  {
    hide EncodeHeaders, SendAll, SplitHeaders;
    var block := EncodeHeaders(cfg.tables, headers);
    var c1 := Log(Reserve(c, hasBody), Event.Opened(c.nextId, block, hasBody));
    assert Onward(c, c1);
    hide Onward;
    var fs := SplitHeaders(c.nextId, block, !hasBody, c.remote.maxFrameSize);
    SendAllSame(c1, fs);
    OnwardHeads(c, c1);
    SameOnward(c1, SendAll(c1, fs));
    OnwardTrans(c, c1, SendAll(c1, fs));
  }

  lemma FinishOnward(c: Conn, id: nat)
    requires PumpIs(c, id, true) && Heads(c)
    ensures Onward(c, FinishBody(c, id))
  {
    hide Onward, Heads, Retire;
    var c1 := SetPump(Log(c, Event.FedAll(id)), id, Finished);
    SameOnward(c, c1);
    if id in c.streams {
      SendShape(c1, Data(id, [], true));
      var c2 := Send(c1, Data(id, [], true));
      var c3 := SetStream(c2, id, c2.streams[id].(localClosed := true));
      SameOnward(c, c3);
      RetireAfter(c, c3, id);
    }
  }

  lemma ReplenishSame(c: Conn, id: nat, n: nat)
    ensures Same(c, Replenish(c, id, n))
  {
    hide Replenish;
    ReplenishShape(c, id, n);
  }

  lemma YieldOnward(c: Conn, id: nat)
    requires Heads(c) && Holds(c, id) && c.cells[id].recv.queue != []
    ensures Onward(c, YieldChunk(c, id))
  {
    hide Onward, Replenish;
    var c1 := TakeChunk(c, id);
    CellOnward(c, c1, id);
    OnwardHeads(c, c1);
    ReplenishSame(c1, id, |c.cells[id].recv.queue[0]|);
    SameOnward(c1, YieldChunk(c, id));
    OnwardTrans(c, c1, YieldChunk(c, id));
  }

  lemma DropOnward(c: Conn, id: nat)
    requires Heads(c) && Holds(c, id)
    ensures Onward(c, DropBody(c, id))
  {
    hide Onward, Replenish, ResetStream;
    var n := c.cells[id].recv.buffered;
    var c1 := SetCell(Log(c, Event.Released(id)), id, c.cells[id].(body := Dropped));
    CellOnward(c, c1, id);
    OnwardHeads(c, c1);
    var c2 := Relinquish(c, id);
    if n > 0 {
      ReplenishSame(c1, id, n);
    }
    SameOnward(c1, c2);
    ResetOnward(c1, c2, id, Cancel);
    OnwardTrans(c, c1, DropBody(c, id));
  }

  lemma OutOnward(cfg: Config, c: Conn, m: Outward)
    requires Heads(c) && MayOut(cfg, c, m)
    ensures Onward(c, DoOut(cfg, c, m))
  {
    hide Onward, Heads, Turn, FinishBody, YieldChunk, DropBody, Open, Send, Destroy, StartPing, ResetStream, CanOpen;
    match m
    case Quit(e) => DestroyOnward(c, e);
    case MoveOpen(headers, hasBody) => OpenOnward(cfg, c, headers, hasBody);
    case MoveTurn(id) => TurnShape(c, id); SameOnward(c, Turn(c, id));
    case MoveFinish(id) => FinishOnward(c, id);
    case MoveClaim(id) => ClaimOnward(c, id);
    case MoveYield(id) => YieldOnward(c, id);
    case MoveDrop(id) => DropOnward(c, id);
    case MoveClose =>
      SendShape(c, Goaway(c.highestPromised, 0, []));
      DestroyAfter(c, Send(c, Goaway(c.highestPromised, 0, [])), H2Error(NoError, ClosedByClient));
    case MovePing => PingShape(c); SameOnward(c, StartPing(c));
    case _ => LocalSame(cfg, c, m); SameOnward(c, DoOut(cfg, c, m));
  }

  lemma LocalSame(cfg: Config, c: Conn, m: Outward)
    requires MayOut(cfg, c, m)
    requires Local(m) && !m.MoveClaim?
    ensures Same(c, DoOut(cfg, c, m))
  {
    LocalShape(cfg, c, m);
    hide DoOut;
  }

  lemma ClaimOnward(c: Conn, id: nat)
    requires Heads(c) && id in c.cells
    ensures Onward(c, Claim(c, id))
  {
    hide Onward;
    if c.cells[id].head.Answered? && c.cells[id].body.Unclaimed? {
      CellOnward(c, Claim(c, id), id);
    } else {
      SameOnward(c, c);
    }
  }

  // --- over runs ---

  lemma OnwardRuns(cfg: Config, before: Conn, more: seq<Step>)
    requires cfg.tables.Sized() && Heads(before)
    ensures Onward(before, RunFrom(cfg, before, more))
  {
    hide Onward, Heads, DoIn, DoOut, MayIn, MayOut, RunFrom;
    var inv := c => Onward(before, c);
    SameOnward(before, before);
    forall c, m | MayIn(cfg, c, m) && inv(c)
      ensures inv(DoIn(cfg, c, m))
    {
      OnwardHeads(before, c);
      InOnward(cfg, c, m);
      OnwardTrans(before, c, DoIn(cfg, c, m));
    }
    forall c, m | MayOut(cfg, c, m) && inv(c)
      ensures inv(DoOut(cfg, c, m))
    {
      OnwardHeads(before, c);
      OutOnward(cfg, c, m);
      OnwardTrans(before, c, DoOut(cfg, c, m));
    }
    RunFromByMoves(cfg, inv, before, more);
  }

  lemma RunHeads(cfg: Config, steps: seq<Step>)
    requires cfg.tables.Sized()
    ensures Heads(Run(cfg, steps))
  {
    hide Onward, Heads, Connect, RunFrom;
    QuietHeads(cfg);
    OnwardRuns(cfg, Connect(cfg), steps);
    OnwardHeads(Connect(cfg), Run(cfg, steps));
  }

  lemma QuietHeads(cfg: Config)
    ensures Heads(Connect(cfg))
  {
    ConnectShape(cfg);
    hide Connect;
  }

  /**
   * From any state of any run to any later one: a stream has stranded bytes if and only if it
   * had them already, or it has left the map in between without ever having got its head and
   * with bytes in its buffer. What is stranded never becomes less.
   */
  lemma StrandsExactly(cfg: Config, steps: seq<Step>, more: seq<Step>, id: nat)
    requires cfg.tables.Sized() && id in Run(cfg, steps).cells
    ensures var c, c' := Run(cfg, steps), RunFrom(cfg, Run(cfg, steps), more);
            && id in c'.cells
            && (Stranded(c'.cells, id) > 0
                <==> Stranded(c.cells, id) > 0
                     || (id in c.streams && id !in c'.streams && !c'.cells[id].head.Answered? && c'.cells[id].recv.buffered > 0))
            && (Stranded(c.cells, id) > 0 ==> Stranded(c'.cells, id) == Stranded(c.cells, id))
  {
    hide Run, RunFrom;
    RunHeads(cfg, steps);
    OnwardRuns(cfg, Run(cfg, steps), more);
  }

  // --- a run that strands a byte ---

  /** Open a stream, one byte of DATA before any head, and the peer resets the stream. */
  function StrandingSteps(): (steps: seq<Step>) {
    [DoRequest(0, [], true), DoBytes(Serialize(Data(1, [7], false))), DoBytes(Serialize(RstStream(1, 8)))]
  }

  lemma SmallFrames(max: nat)
    requires max >= 4
    ensures Sendable([Data(1, [7], false)], max) && Sendable([RstStream(1, 8)], max)
  {
  }

  lemma ByteArrives(cfg: Config, c: Conn)
    requires cfg.maxFrame >= 4 && c.inbox == [] && c.block.None? && 1 in c.streams && 1 in c.cells && c.cells[1].recv == EMPTY_INBOX
    ensures OnBytes(cfg, c, Serialize(Data(1, [7], false)))
         == c.(log := After(c.log, Event.Recv(Data(1, [7], false))),
               cells := c.cells[1 := c.cells[1].(recv := Inbox([[7]], 1, false, None, false))])
  {
    hide Serialize, OnBytes;
    SmallFrames(cfg.maxFrame);
    FrameArrives(cfg, c, Data(1, [7], false));
    assert c.streams[1 := c.streams[1]] == c.streams;
    assert [] + [[7]] == [[7]];
  }

  lemma ResetArrives(cfg: Config, c: Conn)
    requires cfg.maxFrame >= 4 && c.inbox == [] && c.block.None? && c.closed.None? && 1 in c.streams && 1 in c.cells
    requires !c.streams[1].gotHead
    ensures var c' := OnBytes(cfg, c, Serialize(RstStream(1, 8)));
            && c'.log == After(c.log, Event.Recv(RstStream(1, 8))) && c'.closed.None? && 1 in c'.cells
            && c'.cells[1].head.Failed? && c'.cells[1].body == c.cells[1].body
            && c'.cells[1].recv.buffered == c.cells[1].recv.buffered
  {
    hide Serialize, OnBytes;
    SmallFrames(cfg.maxFrame);
    FrameArrives(cfg, c, RstStream(1, 8));
  }

  lemma StrandingBooks(cfg: Config)
    ensures var log := After(After(OpenedLog(cfg), Event.Recv(Data(1, [7], false))), Event.Recv(RstStream(1, 8)));
            BooksOf(log).received == 1 && BooksOf(log).credited == Grow(cfg)
  {
    hide BooksOf, OnWire;
    NoBooks();
    Book(Begin, Sent(SettingsFrame(false, OurSettings(cfg))));
    Book(After(Begin, Sent(SettingsFrame(false, OurSettings(cfg)))), Sent(WindowUpdate(0, if cfg.connectionWindow > SPEC_WINDOW then cfg.connectionWindow - SPEC_WINDOW else 0)));
    Book(StartLog(cfg), Event.Opened(1, [], true));
    Book(After(StartLog(cfg), Event.Opened(1, [], true)), Sent(Headers(1, [], false, true, None)));
    Book(OpenedLog(cfg), Event.Recv(Data(1, [7], false)));
    Book(After(OpenedLog(cfg), Event.Recv(Data(1, [7], false))), Event.Recv(RstStream(1, 8)));
  }

  /** The leak is real: after this run a byte has come in that was not, and never will be, given back. */
  lemma ByteStranded(cfg: Config)
    requires cfg.tables.Sized() && cfg.maxFrame >= 4
    ensures var c := Run(cfg, StrandingSteps());
            && c.closed.None? && BooksOf(c.log).received == 1 && BooksOf(c.log).credited == Grow(cfg)
            && Stranded(c.cells, 1) == 1
  {
    hide Run, Request, Connect, OnBytes, Serialize, BooksOf, OpenedLog;
    var s := StrandingSteps();
    assert s == [s[0]] + [s[1]] + [s[2]];
    var c1 := OneOpened(cfg);
    ByteArrives(cfg, c1);
    ResetArrives(cfg, OnBytes(cfg, c1, s[1].chunk));
    RunFirst(cfg, s[0]);
    RunNext(cfg, [s[0]], s[1]);
    RunNext(cfg, [s[0]] + [s[1]], s[2]);
    StrandingBooks(cfg);
  }
}
