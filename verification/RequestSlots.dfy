/** The peer's limit on concurrent streams, and requests parked behind it: section 5.1.2 of RFC 7540. */
module RequestSlots {
  import opened Common
  import opened Bytes
  import opened Hpack
  import opened Frames
  import opened FrameStream
  import opened Flow
  import opened Connection
  import opened Moves
  import SendAccounting
  import StepTraces
  import Teardown

  /** A request is parked only while no slot is free. */
  predicate Parked(c: Conn) {
    c.waiters != [] ==> !CanOpen(c)
  }

  function PeerResets(log: Trace): (n: nat) {
    match log
    case Begin => 0
    case After(past, Recv(RstStream(_, _))) => PeerResets(past) + 1
    case After(past, _) => PeerResets(past)
  }

  /** Since `before`, the peer has sent RST_STREAM, or nobody is parked beside a free slot. */
  ghost predicate Inv(before: Conn, c: Conn) {
    PeerResets(c.log) >= PeerResets(before.log) && (Parked(c) || PeerResets(c.log) > PeerResets(before.log))
  }

  /** The slots have not become freer, unless everyone was woken; the trace has only grown. */
  ghost predicate NoFreer(c: Conn, c': Conn) {
    && PeerResets(c'.log) >= PeerResets(c.log)
    && (c'.waiters == [] || (c'.waiters == c.waiters && c.streams.Keys <= c'.streams.Keys
                             && c'.remote.maxConcurrent == c.remote.maxConcurrent))
  }

  lemma NoFreerKeeps(before: Conn, c: Conn, c': Conn)
    requires Inv(before, c) && NoFreer(c, c')
    ensures Inv(before, c')
  {
    hide PeerResets;
    if c'.waiters != [] {
      SubsetSize(ActiveIds(c), ActiveIds(c'));
    }
  }

  lemma NoFreerTrans(c: Conn, c': Conn, c'': Conn)
    requires NoFreer(c, c') && NoFreer(c', c'')
    ensures NoFreer(c, c'')
  {
    hide PeerResets;
  }

  lemma LogNoFreer(c: Conn, e: Event)
    ensures NoFreer(c, Log(c, e))
  {
  }

  lemma SendNoFreer(c: Conn, f: Frame)
    ensures NoFreer(c, Send(c, f))
  {
  }

  lemma {:induction false} SendAllNoFreer(c: Conn, fs: seq<Frame>)
    ensures NoFreer(c, SendAll(c, fs))
    decreases |fs|
  {
    hide NoFreer, Send;
    if fs == [] {
      SelfNoFreer(c);
    } else {
      SendNoFreer(c, fs[0]);
      SendAllNoFreer(Send(c, fs[0]), fs[1..]);
      NoFreerTrans(c, Send(c, fs[0]), SendAll(c, fs));
    }
  }

  lemma SelfNoFreer(c: Conn)
    ensures NoFreer(c, c)
  {
  }

  lemma DestroyNoFreer(c: Conn, err: H2Error)
    ensures NoFreer(c, Destroy(c, err))
  {
    if c.closed.None? {
      hide Doom, Destroy;
      DestroyShape(c, err);
      LogNoFreer(c, TornDown(err));
    }
  }

  lemma LastWords(c: Conn, f: Frame, err: H2Error)
    ensures NoFreer(c, Destroy(Send(c, f), err))
  {
    hide NoFreer, Destroy, Send;
    SendNoFreer(c, f);
    DestroyNoFreer(Send(c, f), err);
    NoFreerTrans(c, Send(c, f), Destroy(Send(c, f), err));
  }

  lemma CrashNoFreer(cfg: Config, c: Conn, f: Frame)
    requires Handle(cfg, c, f).error.Some?
    ensures NoFreer(c, ConnectionError(Handle(cfg, c, f).conn, Handle(cfg, c, f).error.value))
  {
    hide Destroy, Handle, Send;
    var o := Handle(cfg, c, f);
    CrashShape(cfg, c, f);
    LogNoFreer(c, Event.Recv(f));
    assert NoFreer(c, o.conn);
    hide NoFreer;
    LastWords(o.conn, Goaway(o.conn.highestPromised, o.error.value.code.Value(), []), o.error.value);
    NoFreerTrans(c, o.conn, ConnectionError(o.conn, o.error.value));
  }

  lemma RetireNoFreer(c: Conn, id: nat)
    ensures NoFreer(c, Retire(c, id))
  {
    hide PeerResets;
  }

  lemma ReceiveNoFreer(c: Conn, id: nat, data: bytes, endStream: bool)
    ensures NoFreer(c, ReceiveData(c, id, data, endStream))
  {
    hide DataOnRecv;
    if !(id in c.streams && id in c.cells) && data != [] {
      var c1 := Log(c, Returned(id, |data|));
      LogNoFreer(c, Returned(id, |data|));
      SendNoFreer(c1, WindowUpdate(0, |data| % U32_LIMIT));
      NoFreerTrans(c, c1, Send(c1, WindowUpdate(0, |data| % U32_LIMIT)));
    }
  }

  lemma RefuseNoFreer(c: Conn, promised: nat, headers: seq<Header>)
    ensures NoFreer(c, RefusePush(c, promised, headers))
  {
    var c1 := Log(c, Block(promised, true, headers, false));
    LogNoFreer(c, Block(promised, true, headers, false));
    var c2 := c1.(highestPromised := if promised > c.highestPromised then promised else c.highestPromised);
    SendNoFreer(c2, RstStream(promised, RefusedStream.Value()));
    hide PeerResets, Send;
  }

  lemma DataNoFreer(c: Conn, id: nat, data: bytes, endStream: bool)
    ensures NoFreer(c, TakeData(c, id, data, endStream))
  {
    hide NoFreer, Retire, ReceiveData;
    var c0 := Log(c, Event.Recv(Data(id, data, endStream)));
    var c1 := ReceiveData(c0, id, data, endStream);
    LogNoFreer(c, Event.Recv(Data(id, data, endStream)));
    ReceiveNoFreer(c0, id, data, endStream);
    NoFreerTrans(c, c0, c1);
    RetireNoFreer(c1, id);
    NoFreerTrans(c, c1, Retire(c1, id));
  }

  lemma DeliverNoFreer(c: Conn, id: nat, headers: seq<Header>, endStream: bool)
    ensures NoFreer(c, Deliver(c, id, headers, endStream))
  {
    hide Retire, HeadersOnCell, Interim;
    var c1 := ReceiveHeaders(Log(c, Block(id, false, headers, endStream)), id, headers, endStream);
    assert NoFreer(c, c1);
    hide NoFreer;
    RetireNoFreer(c1, id);
    NoFreerTrans(c, c1, Retire(c1, id));
  }

  lemma SettingsNoFreer(c: Conn, s: Settings)
    requires ApplySettings(c, s).error.None?
    ensures NoFreer(c, TakeSettings(c, s))
  {
    hide ApplySettings, Send;
    var c1 := Log(c, Event.Recv(SettingsFrame(false, s)));
    LogNoFreer(c, Event.Recv(SettingsFrame(false, s)));
    SettingsShape(c1, s);
    var c2 := ApplySettings(c1, s).conn;
    assert NoFreer(c, c2);
    SendNoFreer(c2, SettingsFrame(true, NO_SETTINGS));
    NoFreerTrans(c, c2, Send(c2, SettingsFrame(true, NO_SETTINGS)));
  }

  lemma HeardNoFreer(cfg: Config, c: Conn, m: Inward)
    requires MayIn(cfg, c, m)
    requires m.SetInbox? || m.SetCodec? || m.Hear? || m.HearCredit? || m.HearGoaway?
    ensures NoFreer(c, DoIn(cfg, c, m))
  {
    hide Doom, DecodeBlock, Handle, ApplySettings, RefusePush, CanOpen;
    if m.HearGoaway? {
      var c1 := Log(c, Event.Recv(Goaway(m.last, m.code, m.debug))).(goaway := true);
      DoomLog(c1, Above(c.streams.Keys, m.last), H2Error(CodeOr(m.code, NoError), PeerGoaway));
    }
  }

  lemma PingNoFreer(c: Conn, ack: bool, opaque8: bytes)
    ensures NoFreer(c, HandlePing(Log(c, Event.Recv(Ping(ack, opaque8))), ack, opaque8))
  {
    var c1 := Log(c, Event.Recv(Ping(ack, opaque8)));
    LogNoFreer(c, Event.Recv(Ping(ack, opaque8)));
    SendNoFreer(c1, Ping(true, opaque8));
    hide Send, PeerResets;
  }

  lemma DoomLog(c: Conn, ids: set<nat>, err: H2Error)
    ensures Doom(c, ids, err).log == c.log
  {
  }

  lemma InKeeps(before: Conn, cfg: Config, c: Conn, m: Inward)
    requires Inv(before, c) && MayIn(cfg, c, m)
    ensures Inv(before, DoIn(cfg, c, m))
  {
    hide Inv, NoFreer, TakeData, TakeSettings, TakeZero, Deliver, TakeReset, Send, Destroy, Handle, DecodeBlock, ApplySettings;
    match m {
      case HearData(id, data, endStream) => DataNoFreer(c, id, data, endStream);
      case HearSettings(s) => SettingsNoFreer(c, s);
      case HearReset(id, code) => ResetCounted(before, c, id, code);
      case HearZero(id) => ZeroNoFreer(c, id);
      case Stop(e) => DestroyNoFreer(c, e);
      case TakeHeaders(id, headers, endStream) => DeliverNoFreer(c, id, headers, endStream);
      case HearPing(ack, opaque8) => PingNoFreer(c, ack, opaque8);
      case Refuse(promised, headers) => RefuseNoFreer(c, promised, headers);
      case Crash(f) => CrashNoFreer(cfg, c, f);
      case Garbled(e) => LastWords(c, Goaway(c.highestPromised, e.code.Value(), []), e);
      case _ => HeardNoFreer(cfg, c, m);
    }
    if NoFreer(c, DoIn(cfg, c, m)) {
      NoFreerKeeps(before, c, DoIn(cfg, c, m));
    }
  }

  lemma ResetCounted(before: Conn, c: Conn, id: nat, code: nat)
    requires Inv(before, c)
    ensures Inv(before, TakeReset(c, id, code))
  {
    hide Doom;
    DoomLog(Log(c, Event.Recv(RstStream(id, code))), {id}, H2Error(CodeOr(code, ProtocolError), PeerReset));
  }

  // --- the application's side ---

  lemma OpenNoFreer(cfg: Config, c: Conn, headers: seq<Header>, hasBody: bool)
    requires cfg.tables.Sized()
    ensures NoFreer(c, Open(cfg, c, headers, hasBody))
  {
    hide EncodeHeaders, SendAll, SplitHeaders;
    var block := EncodeHeaders(cfg.tables, headers);
    var c1 := Log(Reserve(c, hasBody), Event.Opened(c.nextId, block, hasBody));
    assert NoFreer(c, c1);
    hide NoFreer;
    var fs := SplitHeaders(c.nextId, block, !hasBody, c.remote.maxFrameSize);
    SendAllNoFreer(c1, fs);
    NoFreerTrans(c, c1, SendAll(c1, fs));
  }

  lemma FinishNoFreer(c: Conn, id: nat)
    requires PumpIs(c, id, true)
    ensures NoFreer(c, FinishBody(c, id))
  {
    hide Retire;
    var c1 := SetPump(Log(c, Event.FedAll(id)), id, Finished);
    assert NoFreer(c, c1);
    if id in c.streams {
      var c2 := Send(c1, Data(id, [], true));
      SendNoFreer(c1, Data(id, [], true));
      var c3 := SetStream(c2, id, c2.streams[id].(localClosed := true));
      assert NoFreer(c2, c3);
      RetireNoFreer(c3, id);
      hide NoFreer;
      NoFreerTrans(c, c1, c2);
      NoFreerTrans(c, c2, c3);
      NoFreerTrans(c, c3, Retire(c3, id));
    }
  }

  lemma ReplenishNoFreer(c: Conn, id: nat, n: nat)
    ensures NoFreer(c, Replenish(c, id, n))
  {
    hide NoFreer, Send;
    var c0 := Log(c, Returned(id, n));
    var f, g := WindowUpdate(id, n % U32_LIMIT), WindowUpdate(0, n % U32_LIMIT);
    var c1 := if id in c.streams then Send(c0, f) else c0;
    LogNoFreer(c, Returned(id, n));
    SendNoFreer(c0, f);
    NoFreerTrans(c, c0, Send(c0, f));
    SendNoFreer(c1, g);
    NoFreerTrans(c, c1, Send(c1, g));
  }

  lemma ResetNoFreer(c: Conn, id: nat, code: ErrorCode)
    ensures NoFreer(c, ResetStream(c, id, code))
  {
    hide Doom;
    var c1 := Send(c, RstStream(id, code.Value()));
    SendNoFreer(c, RstStream(id, code.Value()));
    DoomLog(c1, {id}, H2Error(code, StreamReset));
    hide PeerResets, Send;
  }

  lemma ZeroNoFreer(c: Conn, id: nat)
    ensures NoFreer(c, TakeZero(c, id))
  {
    hide NoFreer, ResetStream;
    var c1 := Log(c, Event.Recv(WindowUpdate(id, 0)));
    LogNoFreer(c, Event.Recv(WindowUpdate(id, 0)));
    ResetNoFreer(c1, id, ProtocolError);
    NoFreerTrans(c, c1, TakeZero(c, id));
  }

  lemma BodyNoFreer(c: Conn, id: nat)
    requires Holds(c, id)
    ensures NoFreer(c, DropBody(c, id)) && (c.cells[id].recv.queue != [] ==> NoFreer(c, YieldChunk(c, id)))
  {
    var c1 := SetCell(Log(c, Event.Released(id)), id, c.cells[id].(body := Dropped));
    assert NoFreer(c, c1);
    assert c.cells[id].recv.queue != [] ==> NoFreer(c, TakeChunk(c, id));
    hide NoFreer, Replenish, ResetStream, TakeChunk;
    if c.cells[id].recv.queue != [] {
      ReplenishNoFreer(TakeChunk(c, id), id, |c.cells[id].recv.queue[0]|);
      NoFreerTrans(c, TakeChunk(c, id), YieldChunk(c, id));
    }
    var c2 := Relinquish(c, id);
    if c.cells[id].recv.buffered > 0 {
      ReplenishNoFreer(c1, id, c.cells[id].recv.buffered);
      NoFreerTrans(c, c1, c2);
    }
    ResetNoFreer(c2, id, Cancel);
    NoFreerTrans(c, c2, ResetStream(c2, id, Cancel));
  }

  lemma LocalNoFreer(cfg: Config, c: Conn, m: Outward)
    requires MayOut(cfg, c, m)
    requires Local(m) && !m.MoveQueue?
    ensures NoFreer(c, DoOut(cfg, c, m))
  {
    LocalShape(cfg, c, m);
    hide DoOut;
  }

  lemma StartPingNoFreer(c: Conn)
    ensures NoFreer(c, StartPing(c))
  {
    hide NoFreer, Send, PingKey;
    if c.closed.None? {
      var n := (c.pingCounter + 1) % U32_LIMIT;
      var key := PingKey(n);
      var pongs := if key in c.pings then c.pongs[c.pings[key] := Overwritten] else c.pongs;
      var c1 := c.(pingCounter := n, nextPong := c.nextPong + 1, pings := c.pings[key := c.nextPong],
                   pongs := pongs[c.nextPong := Waiting]);
      assert NoFreer(c, c1) by { SlotsAlike(c, c1); }
      SendNoFreer(c1, Ping(false, key));
      NoFreerTrans(c, c1, Send(c1, Ping(false, key)));
    } else {
      SelfNoFreer(c);
    }
  }

  lemma SlotsAlike(c: Conn, c': Conn)
    requires c'.log == c.log && c'.streams == c.streams && c'.waiters == c.waiters && c'.remote == c.remote
    ensures NoFreer(c, c')
  {
  }

  lemma TurnNoFreer(c: Conn, id: nat)
    requires PumpIs(c, id, false) && c.cells[id].pump.offset <= |c.cells[id].pump.chunk|
    ensures NoFreer(c, Turn(c, id))
  {
    hide Turn;
    TurnShape(c, id);
  }

  lemma OutKeeps(before: Conn, cfg: Config, c: Conn, m: Outward)
    requires Inv(before, c) && MayOut(cfg, c, m)
    ensures Inv(before, DoOut(cfg, c, m))
  {
    hide Inv, NoFreer, Turn, FinishBody, YieldChunk, DropBody, Open, Send, SetPump, Destroy, StartPing, ResetStream, CanOpen;
    match m {
      case Quit(e) => DestroyNoFreer(c, e);
      case MoveOpen(headers, hasBody) => OpenNoFreer(cfg, c, headers, hasBody);
      case MoveQueue(token) => QueueKeeps(before, c, token);
      case MoveTurn(id) => TurnNoFreer(c, id);
      case MoveFinish(id) => FinishNoFreer(c, id);
      case MoveYield(id) => BodyNoFreer(c, id);
      case MoveDrop(id) => BodyNoFreer(c, id);
      case MoveClose => LastWords(c, Goaway(c.highestPromised, 0, []), H2Error(NoError, ClosedByClient));
      case MovePing => StartPingNoFreer(c);
      case _ => LocalNoFreer(cfg, c, m);
    }
    if NoFreer(c, DoOut(cfg, c, m)) {
      NoFreerKeeps(before, c, DoOut(cfg, c, m));
    }
  }

  /** A request parks only when there is no slot. */
  lemma QueueKeeps(before: Conn, c: Conn, token: nat)
    requires Inv(before, c) && !CanOpen(c)
    ensures Inv(before, c.(waiters := c.waiters + [token]))
  {
  }

  // --- the theorems ---

  /**
   * In any state, every step that does not take in a RST_STREAM of the peer's keeps
   * "a request is parked only while no slot is free".
   */
  lemma OnlyPeerResetsStrand(cfg: Config, c: Conn, s: Step)
    requires cfg.tables.Sized() && Enabled(c, s) && Parked(c)
    ensures Parked(Perform(cfg, c, s)) || PeerResets(Perform(cfg, c, s).log) > PeerResets(c.log)
  {
    hide DoIn, DoOut, MayIn, MayOut, Perform, Enabled, CanOpen;
    var inv := d => Inv(c, d);
    forall d, m | MayIn(cfg, d, m) && inv(d)
      ensures inv(DoIn(cfg, d, m))
    {
      InKeeps(c, cfg, d, m);
    }
    forall d, m | MayOut(cfg, d, m) && inv(d)
      ensures inv(DoOut(cfg, d, m))
    {
      OutKeeps(c, cfg, d, m);
    }
    StepByMoves(cfg, inv, c, s);
  }

  /**
   * A RST_STREAM of the peer's strands a parked request beside a free slot exactly when it
   * names a mapped stream, someone is parked, and the open streams are exactly at the limit.
   */
  lemma PeerResetStrands(c: Conn, id: nat, code: nat)
    requires Parked(c) && forall i :: i in c.streams ==> i % 2 == 1
    ensures !Parked(TakeReset(c, id, code))
       <==> id in c.streams && c.waiters != [] && Active(c) == c.remote.maxConcurrent
  {
    var c' := TakeReset(c, id, code);
    if id in c.streams {
      assert ActiveIds(c') == ActiveIds(c) - {id};
    } else {
      assert c'.streams.Keys == c.streams.Keys;
      assert ActiveIds(c') == ActiveIds(c);
    }
  }

  /** A request turn: refused, parked, or given the next stream with the open streams still within the limit. */
  lemma RequestAdmits(cfg: Config, c: Conn, token: nat, headers: seq<Header>, hasBody: bool)
    requires cfg.tables.Sized() && c.nextId % 2 == 1 && c.nextId !in c.streams
    ensures var c' := Request(cfg, c, token, headers, hasBody);
            if Refusing(c) || token in c.waiters then c' == c
            else if Active(c) < c.remote.maxConcurrent
            then c'.streams.Keys == c.streams.Keys + {c.nextId} && Active(c') == Active(c) + 1 <= c.remote.maxConcurrent
            else c' == c.(waiters := c.waiters + [token])
  {
    hide Open, ActiveIds;
    if !Refusing(c) && token !in c.waiters && CanOpen(c) {
      OpenTakesSlot(cfg, c, headers, hasBody);
    }
  }

  lemma OpenTakesSlot(cfg: Config, c: Conn, headers: seq<Header>, hasBody: bool)
    requires cfg.tables.Sized() && c.nextId % 2 == 1 && c.nextId !in c.streams
    ensures var c' := Open(cfg, c, headers, hasBody);
            c'.streams.Keys == c.streams.Keys + {c.nextId} && Active(c') == Active(c) + 1
  {
    hide EncodeHeaders, SendAll, SplitHeaders, ActiveIds, Fresh;
    var block := EncodeHeaders(cfg.tables, headers);
    var c1 := Log(Reserve(c, hasBody), Event.Opened(c.nextId, block, hasBody));
    SendAllStreams(c1, SplitHeaders(c.nextId, block, !hasBody, c.remote.maxFrameSize));
    OneMoreActive(c, Open(cfg, c, headers, hasBody), c.nextId);
  }

  lemma OneMoreActive(c: Conn, c': Conn, id: nat)
    requires c'.streams.Keys == c.streams.Keys + {id} && id !in c.streams && id % 2 == 1
    ensures Active(c') == Active(c) + 1
  {
    assert ActiveIds(c') == ActiveIds(c) + {id};
  }

  lemma {:induction false} SendAllStreams(c: Conn, fs: seq<Frame>)
    ensures SendAll(c, fs).streams == c.streams && SendAll(c, fs).remote == c.remote
    decreases |fs|
  {
    if fs != [] {
      SendAllStreams(Send(c, fs[0]), fs[1..]);
    }
  }

  // --- every opening of a run ---

  lemma {:induction false} OpenedBefore(log: Trace, later: Trace, past: Trace, e: Event)
    requires StepTraces.Follows(log, later) && e.Opened? && Reaches(later, After(past, e))
    ensures Reaches(log, After(past, e))
  {
    if later != log {
      OpenedBefore(log, later.past, past, e);
    }
  }

  lemma {:induction false} FramesOpenNothing(cfg: Config, c: Conn, fs: seq<Frame>, past: Trace, e: Event)
    requires e.Opened? && Reaches(InboundAll(cfg, c, fs).log, After(past, e))
    ensures Reaches(c.log, After(past, e))
    decreases |fs|
  {
    hide Handle, Inbound;
    if fs != [] {
      var c1 := Inbound(cfg, c, fs[0]);
      if Handle(cfg, c, fs[0]).error.None? {
        FramesOpenNothing(cfg, c1, fs[1..], past, e);
      }
      StepTraces.InboundMurmurs(cfg, c, fs[0]);
      OpenedBefore(After(c.log, Event.Recv(fs[0])), c1.log, past, e);
    }
  }

  lemma BytesOpenNothing(cfg: Config, c: Conn, chunk: bytes, past: Trace, e: Event)
    requires e.Opened? && Reaches(OnBytes(cfg, c, chunk).log, After(past, e))
    ensures Reaches(c.log, After(past, e))
  {
    hide Scan, InboundAll, ConnectionError, Reaches;
    var scanned := Scan(c.inbox + chunk, cfg.maxFrame);
    if scanned.Err? {
      StepTraces.ErrorMurmurs(c.(inbox := []), scanned.error);
      OpenedBefore(c.log, OnBytes(cfg, c, chunk).log, past, e);
    } else {
      FramesOpenNothing(cfg, c.(inbox := scanned.value.rest), scanned.value.frames, past, e);
    }
  }

  /** A stream is opened by the one step that admits its request. */
  lemma StepOpens(cfg: Config, c: Conn, s: Step, past: Trace, e: Event)
    requires cfg.tables.Sized() && Enabled(c, s) && e.Opened?
    requires Reaches(Perform(cfg, c, s).log, After(past, e)) && !Reaches(c.log, After(past, e))
    ensures s.DoRequest? && past == c.log && CanOpen(c) && !Refusing(c) && s.token !in c.waiters
    ensures e == Event.Opened(c.nextId, EncodeHeaders(cfg.tables, s.headers), s.hasBody)
  {
    hide Reaches, Perform, OnBytes, CanOpen, Open;
    if s.DoBytes? {
      StepTraces.BytesStep(cfg, c, s);
      BytesOpenNothing(cfg, c, s.chunk, past, e);
    } else if !s.DoRequest? {
      StepTraces.StepMurmurs(cfg, c, s);
      OpenedBefore(c.log, Perform(cfg, c, s).log, past, e);
    } else {
      StepTraces.RequestStep(cfg, c, s);
      if !Refusing(c) && s.token !in c.waiters && CanOpen(c) {
        var opening := Event.Opened(c.nextId, EncodeHeaders(cfg.tables, s.headers), s.hasBody);
        StepTraces.OpenMurmurs(cfg, c, s.headers, s.hasBody);
        OpenedBefore(After(c.log, opening), Open(cfg, c, s.headers, s.hasBody).log, past, e);
        assert After(c.log, opening) == After(past, e) by { NewestReached(c.log, opening, past, e); }
      }
    }
  }

  lemma NewestReached(log: Trace, newest: Event, past: Trace, e: Event)
    requires Reaches(After(log, newest), After(past, e)) && !Reaches(log, After(past, e))
    ensures After(log, newest) == After(past, e)
  {
  }

  /**
   * In every run, wherever a stream was opened, there was a request step that opened it, for its
   * own headers and body; and at that moment the open streams of ours were below the last limit
   * the peer had sent, 2^32 - 1 before any, and after it within it.
   */
  lemma {:induction false} OpenedWithinLimit(cfg: Config, steps: seq<Step>, past: Trace, id: nat, block: bytes, hasBody: bool)
    returns (k: nat)
    requires cfg.tables.Sized() && Reaches(Run(cfg, steps).log, After(past, Event.Opened(id, block, hasBody)))
    ensures k < |steps| && steps[k].DoRequest?
    ensures block == EncodeHeaders(cfg.tables, steps[k].headers) && hasBody == steps[k].hasBody
    ensures var c, c' := Run(cfg, steps[..k]), Run(cfg, steps[..k + 1]);
            && c.log == past && id == c.nextId && !Refusing(c)
            && Active(c) < SendAccounting.PeerStreamLimit(past) && Active(c') == Active(c) + 1
    decreases |steps|
  {
    hide Perform, Enabled, Connect, Reaches, Active;
    var e := Event.Opened(id, block, hasBody);
    if steps == [] {
      NothingOpenedYet(cfg, past, e);
    } else {
      var before, s := steps[..|steps| - 1], steps[|steps| - 1];
      var c := Run(cfg, before);
      assert Run(cfg, steps) == if Enabled(c, s) then Perform(cfg, c, s) else c;
      if Reaches(c.log, After(past, e)) {
        k := OpenedWithinLimit(cfg, before, past, id, block, hasBody);
        assert before[..k] == steps[..k] && before[..k + 1] == steps[..k + 1];
      } else {
        k := |steps| - 1;
        assert steps[..k + 1] == steps;
        StepOpens(cfg, c, s, past, e);
        hide RunFrom;
        StepTraces.RequestStep(cfg, c, s);
        Teardown.RunInv(cfg, before);
        NextIsNew(c, c);
        RequestAdmits(cfg, c, s.token, s.headers, s.hasBody);
        SendAccounting.SettingsAreThePeers(cfg, before);
        HasRoom(c);
      }
    }
  }

  lemma NextIsNew(before: Conn, c: Conn)
    requires Teardown.Inv(before, c)
    ensures c.nextId % 2 == 1 && c.nextId !in c.streams
  {
  }

  lemma HasRoom(c: Conn)
    requires CanOpen(c)
    ensures Active(c) < c.remote.maxConcurrent
  {
  }

  /**
   * In every run, one turn of a request: refused by a connection that is closed or going away,
   * admitted exactly while the streams of ours are fewer than the last limit the peer has sent,
   * and parked otherwise.
   */
  lemma RequestByTheLimit(cfg: Config, steps: seq<Step>, token: nat, headers: seq<Header>, hasBody: bool)
    requires cfg.tables.Sized()
    ensures var c, c' := Run(cfg, steps), Request(cfg, Run(cfg, steps), token, headers, hasBody);
            if c.closed.Some? || c.goaway || token in c.waiters then c' == c
            else if Active(c) < SendAccounting.PeerStreamLimit(c.log)
            then c'.streams.Keys == c.streams.Keys + {c.nextId} && c.nextId !in c.streams && Active(c') == Active(c) + 1
            else c' == c.(waiters := c.waiters + [token])
  {
    hide Run, Request, Active;
    Teardown.RunInv(cfg, steps);
    var c := Run(cfg, steps);
    NextIsNew(c, c);
    RequestAdmits(cfg, c, token, headers, hasBody);
    if c.closed.None? {
      SendAccounting.SettingsAreThePeers(cfg, steps);
    }
  }

  lemma NothingOpenedYet(cfg: Config, past: Trace, e: Event)
    requires e.Opened?
    ensures !Reaches(Connect(cfg).log, After(past, e))
  {
    ConnectShape(cfg);
    hide Connect;
    var start := After(Begin, Sent(SettingsFrame(false, OurSettings(cfg))));
    assert !Reaches(start, After(past, e));
  }

  // --- a run that strands a request ---

  const ONE_AT_A_TIME := NO_SETTINGS.(maxConcurrentStreams := Some(1))

  /** The peer allows one stream, a second request parks, the peer resets the first. */
  function StrandSteps(): (steps: seq<Step>) {
    [DoBytes(Serialize(SettingsFrame(false, ONE_AT_A_TIME))), DoRequest(0, [], true), DoRequest(1, [], true),
     DoBytes(Serialize(RstStream(1, 8)))]
  }

  lemma SmallFrames(max: nat)
    requires max >= 6
    ensures Sendable([SettingsFrame(false, ONE_AT_A_TIME)], max) && Sendable([RstStream(1, 8)], max)
  {
  }

  lemma LimitArrives(cfg: Config)
    requires cfg.maxFrame >= 6
    ensures var c := OnBytes(cfg, Connect(cfg), Serialize(SettingsFrame(false, ONE_AT_A_TIME)));
            c == Quiet(cfg).(log := c.log, remote := INITIAL_REMOTE.(maxConcurrent := 1))
  {
    hide Serialize, OnBytes, Connect;
    ConnectShape(cfg);
    SmallFrames(cfg.maxFrame);
    FrameArrives(cfg, Connect(cfg), SettingsFrame(false, ONE_AT_A_TIME));
  }

  lemma SecondParks(cfg: Config, c: Conn)
    requires cfg.tables.Sized() && c.streams == map[] && c.nextId == 1 && c.remote.maxConcurrent == 1
    requires !Refusing(c) && c.waiters == [] && c.inbox == [] && c.block.None?
    ensures var c2 := Request(cfg, Request(cfg, c, 0, [], true), 1, [], true);
            && c2.streams.Keys == {1} && c2.waiters == [1] && c2.remote.maxConcurrent == 1
            && c2.closed.None? && c2.inbox == [] && c2.block.None?
  {
    hide Open, CanOpen;
    ActiveAtMost(c, {});
    RequestAdmits(cfg, c, 0, [], true);
    var c1 := Request(cfg, c, 0, [], true);
    OpenQuiet(cfg, c);
    RequestAdmits(cfg, c1, 1, [], true);
    assert c1 == Open(cfg, c, [], true) by { Room(c); }
  }

  lemma OpenQuiet(cfg: Config, c: Conn)
    requires cfg.tables.Sized()
    ensures var c' := Open(cfg, c, [], true);
            && c'.nextId == c.nextId + 2 && c'.remote == c.remote && c'.waiters == c.waiters && c'.closed == c.closed
            && c'.goaway == c.goaway && c'.inbox == c.inbox && c'.block == c.block
  {
    var c1 := Log(Reserve(c, true), Event.Opened(c.nextId, [], true));
    SendOne(c1, Headers(c.nextId, [], false, true, None));
  }

  lemma PeerResetArrives(cfg: Config, c: Conn)
    requires c.inbox == [] && c.block.None? && cfg.maxFrame >= 6 && c.streams.Keys == {1}
    ensures var c' := OnBytes(cfg, c, Serialize(RstStream(1, 8)));
            c'.streams.Keys == {} && c'.waiters == c.waiters && c'.remote == c.remote && c'.closed == c.closed
  {
    hide Serialize, OnBytes;
    SmallFrames(cfg.maxFrame);
    FrameArrives(cfg, c, RstStream(1, 8));
  }

  /** The exception is real: at the end of this run a request sleeps although the connection is idle. */
  lemma RequestStranded(cfg: Config)
    requires cfg.tables.Sized() && cfg.maxFrame >= 6
    ensures var c := Run(cfg, StrandSteps()); c.closed.None? && c.waiters == [1] && CanOpen(c) && c.streams.Keys == {}
  {
    hide Run, Request, Connect, OnBytes, Serialize, CanOpen;
    var s := StrandSteps();
    assert s == [s[0]] + [s[1]] + [s[2]] + [s[3]];
    RunFirst(cfg, s[0]);
    RunNext(cfg, [s[0]], s[1]);
    RunNext(cfg, [s[0]] + [s[1]], s[2]);
    RunNext(cfg, [s[0]] + [s[1]] + [s[2]], s[3]);
    LimitArrives(cfg);
    var c1 := OnBytes(cfg, Connect(cfg), s[0].chunk);
    SecondParks(cfg, c1);
    var c3 := Request(cfg, Request(cfg, c1, 0, [], true), 1, [], true);
    PeerResetArrives(cfg, c3);
    var c := OnBytes(cfg, c3, s[3].chunk);
    ActiveAtMost(c, {});
    assert CanOpen(c) by { Room(c); }
  }

  lemma Room(c: Conn)
    requires Active(c) < c.remote.maxConcurrent
    ensures CanOpen(c)
  {
  }
}
