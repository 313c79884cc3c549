/** RST_STREAM: which streams the client resets, and what may follow on them. */
module ResetDiscipline {
  import opened Common
  import opened Bytes
  import opened Hpack
  import opened Frames
  import opened FrameStream
  import opened Flow
  import opened Connection
  import opened Moves
  import ResponseBodies

  /** What the last events call for. */
  datatype Prompt = NoPrompt | Zero(streamId: nat) | Promise(streamId: nat) | Drop(streamId: nat)

  /**
   * Opened streams; those we reset, those we refused and those the peer promised, each since it
   * was opened; and what is to be answered.
   */
  datatype Marks = Marks(begun: set<nat>, reset: set<nat>, refused: set<nat>, promised: set<nat>, prompt: Prompt)

  function Prompted(p: Prompt, e: Event): (p': Prompt) {
    match e
    case Recv(WindowUpdate(id, n)) => if n == 0 then Zero(id) else NoPrompt
    case Block(id, true, _, _) => Promise(id)
    case Released(id) => Drop(id)
    case Returned(_, _) => if p.Drop? then p else NoPrompt
    case Sent(WindowUpdate(_, _)) => if p.Drop? then p else NoPrompt
    case _ => NoPrompt
  }

  function Mark(m: Marks, e: Event): (m': Marks) {
    var m1 := m.(prompt := Prompted(m.prompt, e));
    match e
    case Opened(id, _, _) => m1.(begun := m.begun + {id})
    case Sent(RstStream(id, code)) =>
      if id !in m.begun then m1
      else if code == RefusedStream.Value() then m1.(refused := m.refused + {id})
      else m1.(reset := m.reset + {id})
    case Block(id, true, _, _) => if id in m.begun then m1.(promised := m.promised + {id}) else m1
    case _ => m1
  }

  function MarksOf(log: Trace): (m: Marks) {
    match log
    case Begin => Marks({}, {}, {}, {}, NoPrompt)
    case After(past, e) => Mark(MarksOf(past), e)
  }

  /** A RST_STREAM is the answer to a zero WINDOW_UPDATE, to a promise, or to a dropped body. */
  predicate Answers(m: Marks, id: nat, code: nat) {
    || (m.prompt == Zero(id) && id > 0 && code == ProtocolError.Value())
    || (m.prompt == Promise(id) && code == RefusedStream.Value())
    || (m.prompt == Drop(id) && id in m.begun && code == Cancel.Value())
  }

  predicate Allowed(m: Marks, e: Event) {
    match e
    case Sent(Data(id, _, _)) => id !in m.reset && (id in m.refused <==> id in m.promised)
    case Sent(RstStream(id, code)) => Answers(m, id, code)
    case _ => true
  }

  /** DATA only where nothing but refusals were written, and those for a promise; RST_STREAM only as an answer. */
  predicate Clean(log: Trace) {
    match log
    case Begin => true
    case After(past, e) => Clean(past) && Allowed(MarksOf(past), e)
  }

  ghost predicate Inv(c: Conn) {
    var m := MarksOf(c.log);
    && Clean(c.log) && (forall id :: id in m.begun ==> id < c.nextId)
    && c.streams.Keys <= m.begun && c.cells.Keys <= m.begun && m.reset <= m.begun && m.refused <= m.begun && m.promised <= m.begun
    && (forall id :: id in c.streams ==> id !in m.reset)
    && (c.closed.None? ==> m.refused == m.promised)
  }

  ghost predicate Shrinks(c: Conn, c': Conn) {
    && c'.log == c.log && c'.nextId == c.nextId && (c'.closed.None? ==> c.closed.None?)
    && c'.streams.Keys <= c.streams.Keys && c'.cells.Keys == c.cells.Keys
  }

  lemma ShrinkKeeps(c: Conn, c': Conn)
    requires Inv(c) && Shrinks(c, c')
    ensures Inv(c')
  {
  }

  predicate Unseen(e: Event) {
    match e
    case Opened(_, _, _) => false
    case Sent(f) => !f.RstStream? && !f.Data?
    case Block(_, push, _, _) => !push
    case _ => true
  }

  lemma LogKeeps(c: Conn, e: Event)
    requires Inv(c) && Unseen(e)
    ensures Inv(Log(c, e))
  {
    var m := MarksOf(c.log);
    assert MarksOf(Log(c, e).log) == m.(prompt := Prompted(m.prompt, e));
  }

  lemma SendKeeps(c: Conn, f: Frame)
    requires Inv(c) && !f.RstStream? && !f.Data?
    ensures Inv(Send(c, f))
  {
    if c.closed.None? {
      LogKeeps(c, Sent(f));
    }
  }

  lemma {:induction false} SendAllKeeps(c: Conn, fs: seq<Frame>)
    requires Inv(c) && forall i :: 0 <= i < |fs| ==> !fs[i].RstStream? && !fs[i].Data?
    ensures Inv(SendAll(c, fs))
    decreases |fs|
  {
    hide Inv, Send;
    if fs != [] {
      SendKeeps(c, fs[0]);
      SendAllKeeps(Send(c, fs[0]), fs[1..]);
    }
  }

  lemma OpenKeeps(cfg: Config, c: Conn, headers: seq<Header>, hasBody: bool)
    requires cfg.tables.Sized() && Inv(c)
    ensures Inv(Open(cfg, c, headers, hasBody))
  {
    hide EncodeHeaders, SendAll, Clean, Fresh;
    var id, block := c.nextId, EncodeHeaders(cfg.tables, headers);
    var c1 := Reserve(c, hasBody);
    var c2 := Log(c1, Event.Opened(id, block, hasBody));
    var m := MarksOf(c.log);
    assert MarksOf(c2.log) == m.(begun := m.begun + {id}, prompt := NoPrompt);
    assert Clean(c2.log) by { OpenClean(c.log, id, block, hasBody); }
    hide MarksOf;
    var max := c.remote.maxFrameSize;
    HeaderFramesOnly(id, block, !hasBody, max);
    var fs := SplitHeaders(id, block, !hasBody, max);
    forall i | 0 <= i < |fs|
      ensures !fs[i].RstStream? && !fs[i].Data?
    {
      assert fs[i] in fs;
    }
    SendAllKeeps(c2, fs);
  }

  lemma OpenClean(log: Trace, id: nat, block: bytes, hasBody: bool)
    ensures Clean(After(log, Event.Opened(id, block, hasBody))) == Clean(log)
  {
  }

  /** `reset_stream` unmaps what it resets. */
  lemma ResetKeeps(c: Conn, id: nat, code: ErrorCode)
    requires Inv(c) && Answers(MarksOf(c.log), id, code.Value()) && code != RefusedStream
    ensures Inv(ResetStream(c, id, code))
  {
    if c.closed.None? {
      var m := MarksOf(c.log);
      var c1 := Send(c, RstStream(id, code.Value()));
      assert MarksOf(c1.log) == m.(prompt := NoPrompt, reset := if id in m.begun then m.reset + {id} else m.reset);
      assert Clean(c1.log);
    }
    hide Clean, MarksOf, Sleepers, FailCell;
  }

  lemma ZeroKeeps(c: Conn, id: nat)
    requires Inv(c) && id > 0
    ensures Inv(TakeZero(c, id))
  {
    hide Inv, ResetStream;
    var e := Event.Recv(WindowUpdate(id, 0));
    LogKeeps(c, e);
    assert MarksOf(Log(c, e).log).prompt == Zero(id);
    ResetKeeps(Log(c, e), id, ProtocolError);
  }

  /** Refusing a push does not unmap anything, but it marks what was promised. */
  lemma RefuseKeeps(c: Conn, promised: nat, headers: seq<Header>)
    requires Inv(c)
    ensures Inv(RefusePush(c, promised, headers))
  {
    var c' := RefusePush(c, promised, headers);
    var m, block := MarksOf(c.log), Block(promised, true, headers, false);
    assert MarksOf(After(c.log, block))
        == m.(prompt := Promise(promised), promised := if promised in m.begun then m.promised + {promised} else m.promised);
    assert Clean(After(c.log, block));
    if c.closed.None? {
      var m1, rst := MarksOf(After(c.log, block)), Sent(RstStream(promised, RefusedStream.Value()));
      assert c'.log == After(After(c.log, block), rst);
      assert MarksOf(c'.log)
          == m1.(prompt := NoPrompt, refused := if promised in m.begun then m.refused + {promised} else m.refused);
      assert Clean(c'.log);
    }
    hide Clean, MarksOf;
  }

  lemma DataSendKeeps(c: Conn, f: Frame)
    requires Inv(c) && f.Data? && f.streamId in c.streams
    ensures Inv(Send(c, f))
  {
    if c.closed.None? {
      assert MarksOf(After(c.log, Sent(f))) == MarksOf(c.log).(prompt := NoPrompt);
    }
  }

  lemma TurnKeeps(c: Conn, id: nat)
    requires PumpIs(c, id, false) && c.cells[id].pump.offset <= |c.cells[id].pump.chunk| && Inv(c)
    ensures Inv(Turn(c, id))
  {
    hide Inv, Turn, Grant;
    TurnShape(c, id);
    if Turn(c, id).log == c.log {
      ShrinkKeeps(c, Turn(c, id));
    } else {
      DataSendKeeps(c, Turn(c, id).log.event.frame);
      ShrinkKeeps(Send(c, Turn(c, id).log.event.frame), Turn(c, id));
    }
  }

  lemma FinishKeeps(c: Conn, id: nat)
    requires PumpIs(c, id, true) && Inv(c)
    ensures Inv(FinishBody(c, id))
  {
    hide Inv, Retire;
    LogKeeps(c, Event.FedAll(id));
    var c1 := SetPump(Log(c, Event.FedAll(id)), id, Finished);
    ShrinkKeeps(Log(c, Event.FedAll(id)), c1);
    if id in c.streams {
      var c2 := Send(c1, Data(id, [], true));
      DataSendKeeps(c1, Data(id, [], true));
      var c3 := SetStream(c2, id, c2.streams[id].(localClosed := true));
      ShrinkKeeps(c2, c3);
      RetireShrinks(c3, id);
      ShrinkKeeps(c3, Retire(c3, id));
    }
  }

  lemma RetireShrinks(c: Conn, id: nat)
    ensures Shrinks(c, Retire(c, id))
  {
  }

  lemma ReplenishKeeps(c: Conn, id: nat, n: nat)
    requires Inv(c)
    ensures Inv(Replenish(c, id, n))
  {
    hide Inv, Send;
    var c0 := Log(c, Returned(id, n));
    var f := WindowUpdate(id, n % U32_LIMIT);
    var c1 := if id in c.streams then Send(c0, f) else c0;
    LogKeeps(c, Returned(id, n));
    SendKeeps(c0, f);
    SendKeeps(c1, WindowUpdate(0, n % U32_LIMIT));
  }

  lemma YieldKeeps(c: Conn, id: nat)
    requires Inv(c) && Holds(c, id) && c.cells[id].recv.queue != []
    ensures Inv(YieldChunk(c, id))
  {
    hide Inv, Replenish;
    var c1 := Log(c, Yielded(id, c.cells[id].recv.queue[0]));
    LogKeeps(c, Yielded(id, c.cells[id].recv.queue[0]));
    ShrinkKeeps(c1, TakeChunk(c, id));
    ReplenishKeeps(TakeChunk(c, id), id, |c.cells[id].recv.queue[0]|);
  }

  /** Giving bytes back leaves a drop to be answered. */
  lemma ReplenishPrompt(c: Conn, id: nat, n: nat)
    requires MarksOf(c.log).prompt.Drop?
    ensures var m, m' := MarksOf(c.log), MarksOf(Replenish(c, id, n).log); m'.prompt == m.prompt && m'.begun == m.begun
  {
    hide MarksOf;
    CreditMarks(c.log, Returned(id, n));
    var l0 := After(c.log, Returned(id, n));
    var f, g := WindowUpdate(id, n % U32_LIMIT), WindowUpdate(0, n % U32_LIMIT);
    CreditMarks(l0, Sent(f));
    CreditMarks(l0, Sent(g));
    CreditMarks(After(l0, Sent(f)), Sent(g));
  }

  lemma CreditMarks(log: Trace, e: Event)
    requires e.Returned? || (e.Sent? && e.frame.WindowUpdate?)
    ensures MarksOf(log).prompt.Drop? ==> MarksOf(After(log, e)) == MarksOf(log)
  {
  }

  lemma DropKeeps(c: Conn, id: nat)
    requires Inv(c) && Holds(c, id)
    ensures Inv(DropBody(c, id))
  {
    var c0 := Log(c, Event.Released(id));
    var c1, c2 := SetCell(c0, id, c.cells[id].(body := Dropped)), Relinquish(c, id);
    LogKeeps(c, Event.Released(id));
    assert MarksOf(c0.log).prompt == Drop(id) && MarksOf(c0.log).begun == MarksOf(c.log).begun;
    hide MarksOf, Clean;
    assert id in MarksOf(c.log).begun;
    hide Inv, Replenish, ResetStream;
    ShrinkKeeps(c0, c1);
    if c.cells[id].recv.buffered > 0 {
      ReplenishKeeps(c1, id, c.cells[id].recv.buffered);
      ReplenishPrompt(c1, id, c.cells[id].recv.buffered);
    }
    ResetKeeps(c2, id, Cancel);
  }

  lemma DataKeeps(c: Conn, id: nat, data: bytes, endStream: bool)
    requires Inv(c)
    ensures Inv(TakeData(c, id, data, endStream))
  {
    hide Inv, Retire, Send, DataOnRecv;
    var f := Data(id, data, endStream);
    var c1 := Log(c, Event.Recv(f));
    LogKeeps(c, Event.Recv(f));
    var c2 := ReceiveData(c1, id, data, endStream);
    assert Inv(c2) by {
      if id in c.streams && id in c.cells {
        LogKeeps(c1, Discarded(id, |data|));
        var c3 := if Dropping(c.cells[id].recv, data) then Log(c1, Discarded(id, |data|)) else c1;
        ShrinkKeeps(c3, c2);
      } else {
        LogKeeps(c1, Returned(id, |data|));
        SendKeeps(Log(c1, Returned(id, |data|)), WindowUpdate(0, |data| % U32_LIMIT));
      }
    }
    RetireShrinks(c2, id);
    ShrinkKeeps(c2, Retire(c2, id));
  }

  lemma DeliverKeeps(c: Conn, id: nat, headers: seq<Header>, endStream: bool)
    requires Inv(c)
    ensures Inv(Deliver(c, id, headers, endStream))
  {
    hide Inv, Retire, HeadersOnCell, Interim;
    var c1 := Log(c, Block(id, false, headers, endStream));
    LogKeeps(c, Block(id, false, headers, endStream));
    var c2 := ReceiveHeaders(c1, id, headers, endStream);
    ShrinkKeeps(c1, c2);
    RetireShrinks(c2, id);
    ShrinkKeeps(c2, Retire(c2, id));
  }

  lemma SettingsKeep(c: Conn, s: Settings)
    requires Inv(c)
    ensures Inv(TakeSettings(c, s))
  {
    hide Inv, Send, ApplySettings;
    var c1 := Log(c, Event.Recv(SettingsFrame(false, s)));
    LogKeeps(c, Event.Recv(SettingsFrame(false, s)));
    SettingsShape(c1, s);
    ShrinkKeeps(c1, ApplySettings(c1, s).conn);
    SendKeeps(ApplySettings(c1, s).conn, SettingsFrame(true, NO_SETTINGS));
  }

  lemma HeardKeeps(c: Conn, f: Frame, c': Conn)
    requires Inv(c) && Shrinks(Log(c, Event.Recv(f)), c')
    ensures Inv(c')
  {
    hide Inv;
    LogKeeps(c, Event.Recv(f));
    ShrinkKeeps(Log(c, Event.Recv(f)), c');
  }

  lemma HeardShapes(c: Conn, id: nat, n: nat, last: nat, debug: bytes, err: H2Error)
    ensures Shrinks(Log(c, Event.Recv(WindowUpdate(id, n))), TakeCredit(c, id, n))
    ensures Shrinks(Log(c, Event.Recv(RstStream(id, n))), Doom(Log(c, Event.Recv(RstStream(id, n))), {id}, err))
    ensures Shrinks(Log(c, Event.Recv(Goaway(last, n, debug))), TakeGoaway(c, last, n, debug))
  {
    hide FailCell, Sleepers;
  }

  lemma PingKeeps(c: Conn, ack: bool, opaque8: bytes)
    requires Inv(c)
    ensures Inv(HandlePing(Log(c, Event.Recv(Ping(ack, opaque8))), ack, opaque8)) && Inv(StartPing(c))
  {
    hide Inv, Send, PingKey;
    var c1 := Log(c, Event.Recv(Ping(ack, opaque8)));
    LogKeeps(c, Event.Recv(Ping(ack, opaque8)));
    if ack {
      ShrinkKeeps(c1, HandlePing(c1, ack, opaque8));
    } else {
      SendKeeps(c1, Ping(true, opaque8));
    }
    if c.closed.None? {
      var n := (c.pingCounter + 1) % U32_LIMIT;
      var key, token := PingKey(n), c.nextPong;
      var pongs := if key in c.pings then c.pongs[c.pings[key] := Overwritten] else c.pongs;
      var c2 := c.(pingCounter := n, nextPong := token + 1, pings := c.pings[key := token], pongs := pongs[token := Waiting]);
      ShrinkKeeps(c, c2);
      SendKeeps(c2, Ping(false, key));
    }
  }

  lemma CrashKeeps(cfg: Config, c: Conn, f: Frame)
    requires Inv(c) && Handle(cfg, c, f).error.Some?
    ensures Inv(ConnectionError(Handle(cfg, c, f).conn, Handle(cfg, c, f).error.value))
  {
    hide Inv, Send, Destroy, Handle;
    var o := Handle(cfg, c, f);
    CrashShape(cfg, c, f);
    LogKeeps(c, Event.Recv(f));
    ShrinkKeeps(Log(c, Event.Recv(f)), o.conn);
    LastWords(o.conn, Goaway(o.conn.highestPromised, o.error.value.code.Value(), []), o.error.value);
  }

  lemma LastWords(c: Conn, f: Frame, err: H2Error)
    requires Inv(c) && f.Goaway?
    ensures Inv(Destroy(Send(c, f), err))
  {
    hide Inv, Destroy;
    SendKeeps(c, f);
    DestroyKeeps(Send(c, f), err);
  }

  lemma DestroyKeeps(c: Conn, err: H2Error)
    requires Inv(c)
    ensures Inv(Destroy(c, err))
  {
    hide Inv, Doom, Destroy;
    if c.closed.None? {
      DestroyShape(c, err);
      LogKeeps(c, TornDown(err));
      DoomKeys(c, c.streams.Keys, err);
      ShrinkKeeps(Log(c, TornDown(err)), Destroy(c, err));
    } else {
      assert Destroy(c, err) == c by { Closed(c, err); }
    }
  }

  lemma DoomKeys(c: Conn, ids: set<nat>, err: H2Error)
    ensures Doom(c, ids, err).cells.Keys == c.cells.Keys
  {
  }

  lemma Closed(c: Conn, err: H2Error)
    requires c.closed.Some?
    ensures Destroy(c, err) == c
  {
  }

  lemma InKeeps(cfg: Config, c: Conn, m: Inward)
    requires Inv(c) && MayIn(cfg, c, m)
    ensures Inv(DoIn(cfg, c, m))
  {
    hide Inv, TakeData, TakeSettings, TakeCredit, Deliver, RefusePush, TakeGoaway, HandlePing, Turn, FinishBody, YieldChunk,
         DropBody, Open, Doom, Send, Destroy, StartPing, Handle, DecodeBlock, ResetStream, TakeZero;
    match m
    case SetInbox(rest) => ShrinkKeeps(c, DoIn(cfg, c, m));
    case SetCodec(input) => ShrinkKeeps(c, DoIn(cfg, c, m));
    case HearData(id, data, endStream) => DataKeeps(c, id, data, endStream);
    case HearSettings(s) => SettingsKeep(c, s);
    case HearPing(ack, opaque8) => PingKeeps(c, ack, opaque8);
    case TakeHeaders(id, headers, endStream) => DeliverKeeps(c, id, headers, endStream);
    case Refuse(promised, headers) => RefuseKeeps(c, promised, headers);
    case Hear(f, block) => HeardKeeps(c, f, DoIn(cfg, c, m));
    case HearCredit(id, n) =>
      HeardShapes(c, id, n, 0, [], H2Error(NoError, PeerReset));
      HeardKeeps(c, WindowUpdate(id, n), DoIn(cfg, c, m));
    case HearZero(id) => ZeroKeeps(c, id);
    case HearReset(id, code) =>
      HeardShapes(c, id, code, 0, [], H2Error(CodeOr(code, ProtocolError), PeerReset));
      HeardKeeps(c, RstStream(id, code), DoIn(cfg, c, m));
    case HearGoaway(last, code, debug) =>
      HeardShapes(c, 0, code, last, debug, H2Error(NoError, PeerReset));
      HeardKeeps(c, Goaway(last, code, debug), DoIn(cfg, c, m));
    case Crash(f) => CrashKeeps(cfg, c, f);
    case Garbled(e) => LastWords(c, Goaway(c.highestPromised, e.code.Value(), []), e);
    case Stop(e) => DestroyKeeps(c, e);
  }

  lemma OutKeeps(cfg: Config, c: Conn, m: Outward)
    requires Inv(c) && MayOut(cfg, c, m)
    ensures Inv(DoOut(cfg, c, m))
  {
    hide Inv, TakeData, TakeSettings, TakeCredit, Deliver, RefusePush, TakeGoaway, HandlePing, Turn, FinishBody, YieldChunk,
         DropBody, Open, Doom, Send, Destroy, StartPing, Handle, DecodeBlock, ResetStream;
    match m
    case MoveOpen(headers, hasBody) => OpenKeeps(cfg, c, headers, hasBody);
    case MoveQueue(token) => ShrinkKeeps(c, DoOut(cfg, c, m));
    case MoveFeed(id, chunk) =>
      LogKeeps(c, Event.Fed(id, chunk));
      ShrinkKeeps(Log(c, Event.Fed(id, chunk)), DoOut(cfg, c, m));
    case MoveTurn(id) => TurnKeeps(c, id);
    case MoveFinish(id) => FinishKeeps(c, id);
    case MoveClaim(id) => ShrinkKeeps(c, DoOut(cfg, c, m));
    case MovePing => PingKeeps(c, false, []);
    case MoveYield(id) => YieldKeeps(c, id);
    case MoveYieldError(id) => LogKeeps(c, YieldedError(id)); ShrinkKeeps(Log(c, YieldedError(id)), YieldError(c, id));
    case MoveYieldEnd(id) => LogKeeps(c, YieldedEnd(id));
    case MoveWait(id) => ShrinkKeeps(c, Wait(c, id));
    case MoveDrop(id) => DropKeeps(c, id);
    case Quit(e) => DestroyKeeps(c, e);
    case MoveClose => LastWords(c, Goaway(c.highestPromised, 0, []), H2Error(NoError, ClosedByClient));
  }

  lemma RunClean(cfg: Config, steps: seq<Step>)
    requires cfg.tables.Sized()
    ensures Inv(Run(cfg, steps))
  {
    hide Inv, DoIn, DoOut, MayIn, MayOut, Run, Send;
    var quiet, f := Quiet(cfg), SettingsFrame(false, OurSettings(cfg));
    assert Inv(quiet) by { QuietInv(cfg); }
    SendKeeps(quiet, f);
    if cfg.connectionWindow > SPEC_WINDOW {
      SendKeeps(Send(quiet, f), WindowUpdate(0, cfg.connectionWindow - SPEC_WINDOW));
    }
    forall c, m | MayIn(cfg, c, m) && Inv(c)
      ensures Inv(DoIn(cfg, c, m))
    {
      InKeeps(cfg, c, m);
    }
    forall c, m | MayOut(cfg, c, m) && Inv(c)
      ensures Inv(DoOut(cfg, c, m))
    {
      OutKeeps(cfg, c, m);
    }
    RunByMoves(cfg, Inv, steps);
  }

  lemma QuietInv(cfg: Config)
    ensures Inv(Quiet(cfg))
  {
  }

  // --- the theorems ---

  /** A RST_STREAM other than a refusal was written since the stream was opened. */
  predicate ResetSince(log: Trace, id: nat) {
    id in MarksOf(log).reset
  }

  /** A RST_STREAM with REFUSED_STREAM was written since the stream was opened. */
  predicate RefusedSince(log: Trace, id: nat) {
    id in MarksOf(log).refused
  }

  predicate PromisedSince(log: Trace, id: nat) {
    id in MarksOf(log).promised
  }

  lemma {:induction false} CleanBefore(log: Trace, past: Trace, e: Event)
    requires Clean(log) && Reaches(log, After(past, e))
    ensures Allowed(MarksOf(past), e)
  {
    if log != After(past, e) {
      CleanBefore(log.past, past, e);
    }
  }

  /**
   * In every run, wherever DATA is written: no RST_STREAM but refusals was written on that
   * stream since it was opened, and a refusal was if and only if the peer promised the stream.
   */
  lemma NoDataAfterReset(cfg: Config, steps: seq<Step>, past: Trace, id: nat, data: bytes, endStream: bool)
    requires cfg.tables.Sized()
    requires Reaches(Run(cfg, steps).log, After(past, Sent(Data(id, data, endStream))))
    ensures !ResetSince(past, id) && (RefusedSince(past, id) <==> PromisedSince(past, id))
  {
    hide Run, Reaches;
    RunClean(cfg, steps);
    CleanBefore(Run(cfg, steps).log, past, Sent(Data(id, data, endStream)));
  }

  /** The same of every mapped stream of an open connection, whether or not it writes again. */
  lemma LiveNotReset(cfg: Config, steps: seq<Step>, id: nat)
    requires cfg.tables.Sized() && Run(cfg, steps).closed.None? && id in Run(cfg, steps).streams
    ensures var log := Run(cfg, steps).log; !ResetSince(log, id) && (RefusedSince(log, id) <==> PromisedSince(log, id))
  {
    hide Run, MarksOf, Clean;
    RunClean(cfg, steps);
  }

  /** What was just heard, or was dropped with at most credit written since. */
  ghost predicate Calls(past: Trace, id: nat, code: nat) {
    past.After? &&
    if code == ProtocolError.Value() then past.event == Event.Recv(WindowUpdate(id, 0)) && id > 0
    else if code == RefusedStream.Value() then past.event.Block? && past.event.push && past.event.streamId == id
    else code == Cancel.Value() && DroppedLast(past, id)
  }

  predicate DroppedLast(log: Trace, id: nat) {
    match log
    case Begin => false
    case After(_, Released(i)) => i == id
    case After(past, Returned(_, _)) => DroppedLast(past, id)
    case After(past, Sent(WindowUpdate(_, _))) => DroppedLast(past, id)
    case _ => false
  }

  lemma {:induction false} PromptMeans(log: Trace, id: nat)
    ensures MarksOf(log).prompt == Zero(id) <==> log.After? && log.event == Event.Recv(WindowUpdate(id, 0))
    ensures MarksOf(log).prompt == Promise(id) <==> log.After? && log.event.Block? && log.event.push && log.event.streamId == id
    ensures MarksOf(log).prompt == Drop(id) <==> DroppedLast(log, id)
  {
    if log.After? {
      PromptMeans(log.past, id);
    }
  }

  /**
   * In every run, every RST_STREAM is the immediate answer to one of three things: a zero
   * WINDOW_UPDATE (PROTOCOL_ERROR), a promise (REFUSED_STREAM), or a response body dropped
   * (CANCEL). A stream that was never opened is never cancelled.
   */
  lemma ResetsAnswer(cfg: Config, steps: seq<Step>, past: Trace, id: nat, code: nat)
    requires cfg.tables.Sized()
    requires Reaches(Run(cfg, steps).log, After(past, Sent(RstStream(id, code))))
    ensures Calls(past, id, code) && (code == Cancel.Value() ==> id in MarksOf(past).begun)
  {
    hide Run, Reaches, MarksOf;
    RunClean(cfg, steps);
    CleanBefore(Run(cfg, steps).log, past, Sent(RstStream(id, code)));
    assert Answers(MarksOf(past), id, code);
    PromptMeans(past, id);
  }

  /** The two places that write RST_STREAM: one always unmaps the stream it names, the other never does. */
  lemma WhoResets(c: Conn, id: nat, code: ErrorCode, headers: seq<Header>)
    requires c.closed.None?
    ensures var reset, refused := ResetStream(c, id, code), RefusePush(c, id, headers);
            && reset.log == After(c.log, Sent(RstStream(id, code.Value()))) && id !in reset.streams
            && refused.log.event == Sent(RstStream(id, RefusedStream.Value()))
            && (id in refused.streams <==> id in c.streams)
  {
  }

  // --- exactly when, and on unmapped streams in particular ---

  /** The RST_STREAM frames written, with their codes. */
  function Resets(log: Trace): (rs: seq<(nat, nat)>) {
    match log
    case Begin => []
    case After(past, Sent(RstStream(id, code))) => Resets(past) + [(id, code)]
    case After(past, _) => Resets(past)
  }

  /** A promise complete, within bounds and decodable. */
  predicate Complete(cfg: Config, c: Conn, pb: Pending, endHeaders: bool) {
    pb.push && endHeaders && pb.size <= MAX_HEADER_BLOCK && DecodeBlock(cfg.tables, c.table, Flatten(pb.fragments)).headers.Ok?
  }

  /** The promise that this frame completes. */
  function PromiseDone(cfg: Config, c: Conn, f: Frame): (id: Option<nat>) {
    var pb := Gathering(c, f);
    if OfBlock(f) && pb.Some? && Complete(cfg, c, pb.value, f.endHeaders) then Some(pb.value.promised) else None
  }

  function ResetsDue(cfg: Config, c: Conn, f: Frame): (rs: seq<(nat, nat)>) {
    if c.block.None? && f.WindowUpdate? && f.increment == 0 && f.streamId > 0 then [(f.streamId, ProtocolError.Value())]
    else match PromiseDone(cfg, c, f)
      case Some(id) => [(id, RefusedStream.Value())]
      case None => []
  }

  predicate SameResets(c: Conn, c': Conn) {
    Resets(c'.log) == Resets(c.log)
  }

  lemma LogResets(c: Conn, e: Event)
    requires e.Sent? ==> !e.frame.RstStream?
    ensures SameResets(c, Log(c, e))
  {
  }

  lemma SendResets(c: Conn, f: Frame)
    ensures Resets(Send(c, f).log)
         == Resets(c.log) + if c.closed.None? && f.RstStream? then [(f.streamId, f.errorCode)] else []
  {
    if c.closed.Some? || !f.RstStream? {
      assert Resets(c.log) + [] == Resets(c.log);
    }
    if c.closed.None? && !f.RstStream? {
      hide Send;
      LogResets(c, Sent(f));
      assert Send(c, f) == Log(c, Sent(f)) by { OpenSends(c, f); }
    }
  }

  lemma OpenSends(c: Conn, f: Frame)
    requires c.closed.None?
    ensures Send(c, f) == Log(c, Sent(f))
  {
  }

  lemma DestroyResets(c: Conn, err: H2Error)
    ensures SameResets(c, Destroy(c, err)) && SameResets(c, ConnectionError(c, err))
  {
    hide Resets, Doom, FailPongs;
    var f := Goaway(c.highestPromised, err.code.Value(), []);
    SendResets(c, f);
    DestroyLog(c, err);
    DestroyLog(Send(c, f), err);
    LogResets(c, TornDown(err));
    LogResets(Send(c, f), TornDown(err));
  }

  lemma DestroyLog(c: Conn, err: H2Error)
    ensures Destroy(c, err).log == if c.closed.None? then After(c.log, TornDown(err)) else c.log
  {
  }

  lemma CompleteResets(cfg: Config, c: Conn, pb: Pending)
    requires c.closed.None?
    ensures Resets(CompleteBlock(cfg, c, pb).conn.log) == Resets(c.log)
         + if pb.push && DecodeBlock(cfg.tables, c.table, Flatten(pb.fragments)).headers.Ok?
           then [(pb.promised, RefusedStream.Value())] else []
  {
    hide DecodeBlock, HeadersOnCell, Interim;
    var decoded := DecodeBlock(cfg.tables, c.table, Flatten(pb.fragments));
    if decoded.headers.Ok? {
      var c1 := c.(block := None, table := decoded.table);
      if pb.push {
        LogResets(c1, Block(pb.promised, true, decoded.headers.value, false));
      } else {
        LogResets(c1, Block(pb.streamId, false, decoded.headers.value, pb.endStream));
      }
    }
  }

  lemma GatherResets(cfg: Config, c: Conn, pb: Pending, endHeaders: bool)
    requires c.closed.None?
    ensures Resets(Gather(cfg, c, pb, endHeaders).conn.log) == Resets(c.log)
         + if Complete(cfg, c, pb, endHeaders) then [(pb.promised, RefusedStream.Value())] else []
  {
    hide DecodeBlock, CompleteBlock, Resets;
    if pb.size <= MAX_HEADER_BLOCK && endHeaders {
      CompleteResets(cfg, c.(block := Some(pb)), pb);
    }
  }

  lemma SameComplete(cfg: Config, c: Conn, c': Conn, pb: Pending, endHeaders: bool)
    requires c'.table == c.table
    ensures Complete(cfg, c', pb, endHeaders) == Complete(cfg, c, pb, endHeaders)
  {
    hide DecodeBlock;
  }

  lemma BlockResets(cfg: Config, c: Conn, f: Frame)
    requires c.closed.None? && OfBlock(f)
    ensures Resets(Handle(cfg, c, f).conn.log) == Resets(c.log) + ResetsDue(cfg, c, f)
  {
    var c1, pb := Log(c, Event.Recv(f)), Gathering(c, f);
    HandleGathers(cfg, c, f);
    LogResets(c, Event.Recv(f));
    hide Resets, Handle, Gather, Gathering, Complete;
    if pb.Some? {
      GatherResets(cfg, c1, pb.value, f.endHeaders);
      SameComplete(cfg, c, c1, pb.value, f.endHeaders);
    }
  }

  lemma HandleResets(cfg: Config, c: Conn, f: Frame)
    requires c.closed.None?
    ensures Resets(Handle(cfg, c, f).conn.log) == Resets(c.log) + ResetsDue(cfg, c, f)
  {
    var c1 := Log(c, Event.Recv(f));
    LogResets(c, Event.Recv(f));
    hide Resets, Gather, ApplySettings, Doom, ReceiveData, Retire, HandleWindowUpdate, HandleGoaway, HandlePing, Send;
    if OfBlock(f) {
      hide Handle, ResetsDue;
      BlockResets(cfg, c, f);
    } else if c.block.None? {
      match f {
        case SettingsFrame(ack, s) =>
          SettingsShape(c1, s);
          SendResets(ApplySettings(c1, s).conn, SettingsFrame(true, NO_SETTINGS));
        case Data(id, data, endStream) => DataResets(c1, id, data, endStream);
        case RstStream(id, code) => ResetLogs(c1, id, ProtocolError, H2Error(CodeOr(code, ProtocolError), PeerReset));
        case WindowUpdate(id, n) => CreditResets(c1, id, n);
        case Ping(ack, opaque8) => PingResets(c1, ack, opaque8);
        case Goaway(last, code, _) => GoawayResets(c1, last, code);
        case Prioritize(_, _) =>
      }
    }
  }

  lemma DataResets(c: Conn, id: nat, data: bytes, endStream: bool)
    ensures SameResets(c, ReceiveData(c, id, data, endStream))
    ensures SameResets(c, Retire(ReceiveData(c, id, data, endStream), id))
  {
    hide DataOnRecv, Resets;
    LogResets(c, Discarded(id, |data|));
    LogResets(c, Returned(id, |data|));
    SendResets(Log(c, Returned(id, |data|)), WindowUpdate(0, |data| % U32_LIMIT));
  }

  lemma ResetLogs(c: Conn, id: nat, code: ErrorCode, err: H2Error)
    ensures Doom(c, {id}, err).log == c.log
    ensures Resets(ResetStream(c, id, code).log) == Resets(c.log) + if c.closed.None? then [(id, code.Value())] else []
  {
    SendResets(c, RstStream(id, code.Value()));
  }

  lemma PingResets(c: Conn, ack: bool, opaque8: bytes)
    ensures SameResets(c, HandlePing(c, ack, opaque8))
  {
    hide Resets;
    SendResets(c, Ping(true, opaque8));
  }

  lemma CreditResets(c: Conn, id: nat, n: nat)
    requires c.closed.None?
    ensures Resets(HandleWindowUpdate(c, id, n).conn.log)
         == Resets(c.log) + if n == 0 && id > 0 then [(id, ProtocolError.Value())] else []
  {
    hide Resets, ResetStream;
    ResetLogs(c, id, ProtocolError, H2Error(ProtocolError, PeerReset));
  }

  lemma GoawayResets(c: Conn, last: nat, code: nat)
    ensures SameResets(c, HandleGoaway(c, last, code))
  {
    var err := H2Error(CodeOr(code, NoError), PeerGoaway);
    var c1 := WakeSlots(Doom(c.(goaway := true), Above(c.streams.Keys, last), err));
    assert c1.log == c.log;
    DestroyResets(c1, err);
    hide Doom, Destroy, Resets;
  }

  /**
   * What a frame makes an open connection reset is exactly this: the stream of a zero
   * WINDOW_UPDATE, whether mapped, gone or never opened, and the stream of a finished promise.
   */
  lemma FrameResets(cfg: Config, c: Conn, f: Frame)
    requires c.closed.None?
    ensures Resets(Inbound(cfg, c, f).log) == Resets(c.log) + ResetsDue(cfg, c, f)
  {
    hide Resets, Handle, ResetsDue, Destroy, ConnectionError;
    HandleResets(cfg, c, f);
    var o := Handle(cfg, c, f);
    if o.error.Some? {
      DestroyResets(o.conn, o.error.value);
    }
  }

  lemma DropResets(c: Conn, id: nat)
    requires Holds(c, id)
    ensures Resets(DropBody(c, id).log)
         == Resets(c.log) + if c.closed.None? && !c.cells[id].recv.ended then [(id, Cancel.Value())] else []
  {
    hide Resets, Replenish, ResetStream;
    var c1 := SetCell(Log(c, Event.Released(id)), id, c.cells[id].(body := Dropped));
    LogResets(c, Event.Released(id));
    if c.cells[id].recv.buffered > 0 {
      ReplenishResets(c1, id, c.cells[id].recv.buffered);
    }
    ResetLogs(Relinquish(c, id), id, Cancel, H2Error(Cancel, StreamReset));
  }

  lemma ReplenishResets(c: Conn, id: nat, n: nat)
    ensures SameResets(c, Replenish(c, id, n)) && Replenish(c, id, n).closed == c.closed
  {
    hide Resets;
    var c0 := Log(c, Returned(id, n));
    var c1 := if id in c.streams then Send(c0, WindowUpdate(id, n % U32_LIMIT)) else c0;
    LogResets(c, Returned(id, n));
    SendResets(c0, WindowUpdate(id, n % U32_LIMIT));
    SendResets(c1, WindowUpdate(0, n % U32_LIMIT));
  }

  lemma {:induction false} SendAllResets(c: Conn, fs: seq<Frame>)
    requires forall f :: f in fs ==> !f.RstStream?
    ensures SameResets(c, SendAll(c, fs))
    decreases |fs|
  {
    hide Resets, Send;
    if fs != [] {
      SendResets(c, fs[0]);
      SendAllResets(Send(c, fs[0]), fs[1..]);
    }
  }

  lemma OpenResets(cfg: Config, c: Conn, headers: seq<Header>, hasBody: bool)
    requires cfg.tables.Sized()
    ensures SameResets(c, Open(cfg, c, headers, hasBody))
  {
    hide EncodeHeaders, SendAll, SplitHeaders, Resets;
    var block := EncodeHeaders(cfg.tables, headers);
    LogResets(Reserve(c, hasBody), Event.Opened(c.nextId, block, hasBody));
    HeaderFramesOnly(c.nextId, block, !hasBody, c.remote.maxFrameSize);
    SendAllResets(Log(Reserve(c, hasBody), Event.Opened(c.nextId, block, hasBody)),
                  SplitHeaders(c.nextId, block, !hasBody, c.remote.maxFrameSize));
  }

  /**
   * Of the steps that take in no bytes, only a response body dropped before its end resets a
   * stream, and it resets its own, mapped or not.
   */
  lemma StepResets(cfg: Config, c: Conn, s: Step)
    requires cfg.tables.Sized() && Enabled(c, s) && !s.DoBytes?
    ensures Resets(Perform(cfg, c, s).log) == Resets(c.log)
         + if s.DoDrop? && c.closed.None? && !c.cells[s.id].recv.ended then [(s.id, Cancel.Value())] else []
  {
    hide Resets, Destroy, Open, Turn, CanOpen, DropBody, Replenish, PingKey, Send;
    match s
    case DoLost(writing) => DestroyResets(c, LostError(writing));
    case DoRequest(token, headers, hasBody) => OpenResets(cfg, c, headers, hasBody);
    case DoFeed(id, chunk) => LogResets(c, Event.Fed(id, chunk));
    case DoTurn(id) =>
      TurnShape(c, id);
      if Turn(c, id).log != c.log {
        LogResets(c, Turn(c, id).log.event);
      }
    case DoFinish(id) =>
      LogResets(c, Event.FedAll(id));
      SendResets(SetPump(Log(c, Event.FedAll(id)), id, Finished), Data(id, [], true));
    case DoClaim(_) =>
    case DoRead(id) => ReadResets(c, id);
    case DoDrop(id) => DropResets(c, id);
    case DoPing =>
      var n := (c.pingCounter + 1) % U32_LIMIT;
      var key := PingKey(n);
      var pongs := if key in c.pings then c.pongs[c.pings[key] := Overwritten] else c.pongs;
      SendResets(c.(pingCounter := n, nextPong := c.nextPong + 1, pings := c.pings[key := c.nextPong],
                    pongs := pongs[c.nextPong := Waiting]), Ping(false, key));
    case DoClose =>
      SendResets(c, Goaway(c.highestPromised, 0, []));
      DestroyResets(Send(c, Goaway(c.highestPromised, 0, [])), H2Error(NoError, ClosedByClient));
  }

  lemma ReadResets(c: Conn, id: nat)
    requires Holds(c, id)
    ensures SameResets(c, Read(c, id))
  {
    hide Resets, Replenish;
    var r := c.cells[id].recv;
    if r.queue != [] {
      LogResets(c, Yielded(id, r.queue[0]));
      ReplenishResets(TakeChunk(c, id), id, |r.queue[0]|);
    } else {
      LogResets(c, YieldedError(id));
      LogResets(c, YieldedEnd(id));
    }
  }

  /**
   * A body whose stream is no longer mapped cancels it all the same exactly if it was left
   * without an end, which takes an END_STREAM that closed the stream and not the body.
   */
  lemma UnmappedCancel(cfg: Config, steps: seq<Step>, id: nat)
    requires cfg.tables.Sized()
    requires var c := Run(cfg, steps); c.closed.None? && Holds(c, id) && id !in c.streams
    ensures var c := Run(cfg, steps);
            && (Resets(DropBody(c, id).log) != Resets(c.log) <==> !c.cells[id].recv.ended)
            && (!c.cells[id].recv.ended ==> id in ResponseBodies.Transfers(c.log) && ResponseBodies.Transfers(c.log)[id].half)
  {
    hide Run, Resets, DropBody, ResponseBodies.Transfers;
    ResponseBodies.RunKeeps(cfg, steps);
    DropResets(Run(cfg, steps), id);
  }

  /** A zero WINDOW_UPDATE is answered with RST_STREAM whether or not the stream exists, or ever did. */
  lemma ZeroUpdateResets(cfg: Config, c: Conn, id: nat)
    requires c.closed.None? && c.block.None? && id > 0
    ensures var c' := Inbound(cfg, c, WindowUpdate(id, 0));
            && c'.log == After(After(c.log, Event.Recv(WindowUpdate(id, 0))), Sent(RstStream(id, ProtocolError.Value())))
            && c'.streams == c.streams - {id}
  {
  }

  /** Open stream 1 with a body, receive a PUSH_PROMISE of stream 1, go on uploading. */
  function QuirkSteps(): (steps: seq<Step>) {
    [DoRequest(0, [], true), DoBytes(Serialize(PushPromise(1, 1, [], true))), DoFeed(1, [7]), DoTurn(1)]
  }

  lemma OpenedMarks(cfg: Config, log: Trace)
    requires log == OpenedLog(cfg)
    ensures MarksOf(log) == Marks({1}, {}, {}, {}, NoPrompt)
  {
    assert MarksOf(After(Begin, Sent(SettingsFrame(false, OurSettings(cfg))))) == Marks({}, {}, {}, {}, NoPrompt);
    assert MarksOf(StartLog(cfg)) == Marks({}, {}, {}, {}, NoPrompt);
    assert MarksOf(After(StartLog(cfg), Event.Opened(1, [], true))) == Marks({1}, {}, {}, {}, NoPrompt);
  }

  lemma PromiseArrives(cfg: Config, c: Conn, id: nat)
    requires c.inbox == [] && c.block.None? && cfg.maxFrame >= 4 && 0 < id < U31
    ensures OnBytes(cfg, c, Serialize(PushPromise(id, id, [], true)))
         == RefusePush(Log(c, Event.Recv(PushPromise(id, id, [], true))), id, [])
  {
    hide Serialize, OnBytes, Inbound, RefusePush;
    SmallPromise(id);
    FrameArrives(cfg, c, PushPromise(id, id, [], true));
    PromiseHandled(cfg, c, id);
  }

  lemma PromiseHandled(cfg: Config, c: Conn, id: nat)
    requires c.block.None?
    ensures Inbound(cfg, c, PushPromise(id, id, [], true))
         == RefusePush(Log(c, Event.Recv(PushPromise(id, id, [], true))), id, [])
  {
    hide RefusePush, ConnectionError;
    var c1 := Log(c, Event.Recv(PushPromise(id, id, [], true)));
    var pb := Pending(id, true, false, id, [[]], 0);
    FlattenSnoc([], pb.fragments[0]);
    assert [] + [pb.fragments[0]] == pb.fragments;
    assert c1.(block := Some(pb)).(block := None) == c1;
    assert DecodeBlock(cfg.tables, c1.table, []) == Decoded(Ok([]), c1.table);
    hide DecodeBlock;
  }

  lemma SmallPromise(id: nat)
    requires 0 < id < U31
    ensures var f := PushPromise(id, id, [], true); forall max :: max >= 4 ==> Sendable([f], max)
  {
  }

  /** The exception is real: this run writes DATA on stream 1 after RST_STREAM for it. */
  lemma DataAfterReset(cfg: Config)
    requires cfg.tables.Sized() && cfg.maxFrame >= 4
    ensures var log := Run(cfg, QuirkSteps()).log;
            log.After? && log.event == Sent(Data(1, [7], false)) && RefusedSince(log.past, 1)
  {
    hide Run, Request, Connect, OnBytes, Turn, RefusePush, ResetStream, MarksOf;
    var c1 := OneOpened(cfg);
    OpenedMarks(cfg, c1.log);
    PromiseArrives(cfg, c1, 1);
    var c2 := OnBytes(cfg, c1, Serialize(PushPromise(1, 1, [], true)));
    PromiseRefused(c1);
    FourSteps(cfg);
    ThenData(c2);
    FedUnseen(c2.log);
  }

  lemma FedUnseen(log: Trace)
    ensures MarksOf(After(log, Event.Fed(1, [7]))).refused == MarksOf(log).refused
  {
  }

  lemma PromiseRefused(c: Conn)
    requires c.closed.None? && MarksOf(c.log).begun == {1}
    ensures var c' := RefusePush(Log(c, Event.Recv(PushPromise(1, 1, [], true))), 1, []);
            c' == c.(log := c'.log, highestPromised := c'.highestPromised) && RefusedSince(c'.log, 1)
  {
    var log1 := After(c.log, Event.Recv(PushPromise(1, 1, [], true)));
    var log2 := After(log1, Block(1, true, [], false));
    assert MarksOf(log1).begun == MarksOf(c.log).begun;
    assert MarksOf(log2).begun == {1};
    assert RefusePush(Log(c, Event.Recv(PushPromise(1, 1, [], true))), 1, []).log
        == After(log2, Sent(RstStream(1, RefusedStream.Value())));
  }

  lemma FourSteps(cfg: Config)
    requires cfg.tables.Sized()
    ensures var c1 := Request(cfg, Connect(cfg), 0, [], true);
            var c2 := OnBytes(cfg, c1, Serialize(PushPromise(1, 1, [], true)));
            PumpIs(c2, 1, true) && 1 !in c2.parked ==> Run(cfg, QuirkSteps()) == Turn(Feed(c2, 1, [7]), 1)
  {
    hide Request, OnBytes, Connect, Serialize, Turn, Run;
    var s := QuirkSteps();
    assert s == [s[0]] + [s[1]] + [s[2]] + [s[3]];
    RunFirst(cfg, s[0]);
    RunNext(cfg, [s[0]], s[1]);
    RunNext(cfg, [s[0]] + [s[1]], s[2]);
    RunNext(cfg, [s[0]] + [s[1]] + [s[2]], s[3]);
  }

  lemma ThenData(c: Conn)
    requires PumpIs(c, 1, true) && 1 in c.streams && c.closed.None? && c.remote == INITIAL_REMOTE
    requires c.window == Fresh(SPEC_WINDOW) && c.streams[1].window == Fresh(SPEC_WINDOW)
    ensures Turn(Feed(c, 1, [7]), 1).log == After(After(c.log, Event.Fed(1, [7])), Sent(Data(1, [7], false)))
  {
    var c' := Feed(c, 1, [7]);
    assert Grant(c', 1) == 1;
    assert [7][0..1] == [7];
  }
}
