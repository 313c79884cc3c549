/**
 * The compression context of a connection: one dynamic table for all header blocks, which every
 * whole block goes through exactly once and in order. Section 4.3 of RFC 7540.
 */
module HeaderContext {
  import opened Common
  import opened DynamicTable
  import opened Hpack
  import opened Frames
  import opened FrameStream
  import opened Flow
  import opened Connection
  import opened Moves
  import opened StepTraces

  /** The octets of the block that is not complete, if any, and the table. */
  datatype Context = Context(partial: Option<bytes>, table: Table)

  /** Read off the frames alone: HEADERS and PUSH_PROMISE begin a block, CONTINUATION goes on, END_HEADERS completes it. */
  function Taken(tb: Tables, x: Context, f: Frame): (x': Context) {
    if !OfBlock(f) then x
    else
      var octets := (if f.Continuation? && x.partial.Some? then x.partial.value else []) + f.fragment;
      if f.endHeaders then Context(None, DecodeBlock(tb, x.table, octets).table) else Context(Some(octets), x.table)
  }

  function ContextOf(cfg: Config, fs: seq<Frame>): (x: Context) {
    if fs == [] then Context(None, Table([], cfg.headerTable, cfg.headerTable))
    else Taken(cfg.tables, ContextOf(cfg, fs[..|fs| - 1]), fs[|fs| - 1])
  }

  ghost predicate Agrees(c: Conn, x: Context) {
    c.table == x.table && x.partial == match c.block case None => None case Some(pb) => Some(Flatten(pb.fragments))
  }

  // --- what does not touch it ---

  ghost predicate Same(c: Conn, c': Conn) {
    c'.table == c.table && c'.block == c.block && c'.remote == c.remote
  }

  lemma SendSame(c: Conn, f: Frame)
    ensures Same(c, Send(c, f))
  {
  }

  lemma {:induction false} SendAllSame(c: Conn, fs: seq<Frame>)
    ensures Same(c, SendAll(c, fs))
    decreases |fs|
  {
    hide Send;
    if fs != [] {
      SendSame(c, fs[0]);
      SendAllSame(Send(c, fs[0]), fs[1..]);
    }
  }

  lemma DoomSame(c: Conn, ids: set<nat>, err: H2Error)
    ensures Same(c, Doom(c, ids, err)) && Same(c, WakeSlots(Doom(c, ids, err)))
  {
  }

  lemma DestroySame(c: Conn, err: H2Error)
    ensures Same(c, Destroy(c, err))
  {
    hide Doom, FailPongs;
    if c.closed.None? {
      DoomSame(Log(c, TornDown(err)).(closed := Some(err), window := c.window.Shut(), parked := c.parked - c.window.wakers), c.streams.Keys, err);
    }
  }

  lemma ResetSame(c: Conn, id: nat, code: ErrorCode)
    ensures Same(c, ResetStream(c, id, code))
  {
    hide Send, Doom;
    SendSame(c, RstStream(id, code.Value()));
    DoomSame(Send(c, RstStream(id, code.Value())), {id}, H2Error(code, StreamReset));
  }

  lemma RetireSame(c: Conn, id: nat)
    ensures Same(c, Retire(c, id))
  {
  }

  lemma OpenSame(cfg: Config, c: Conn, headers: seq<Header>, hasBody: bool)
    requires cfg.tables.Sized()
    ensures Same(c, Open(cfg, c, headers, hasBody))
  {
    hide EncodeHeaders, SendAll, SplitHeaders;
    var c1 := Log(Reserve(c, hasBody), Event.Opened(c.nextId, EncodeHeaders(cfg.tables, headers), hasBody));
    SendAllSame(c1, SplitHeaders(c.nextId, EncodeHeaders(cfg.tables, headers), !hasBody, c.remote.maxFrameSize));
  }

  lemma FinishSame(c: Conn, id: nat)
    requires PumpIs(c, id, true)
    ensures Same(c, FinishBody(c, id))
  {
    hide Retire, Send;
    var c1, f := SetPump(Log(c, Event.FedAll(id)), id, Finished), Data(id, [], true);
    if id in c.streams {
      SendShape(c1, f);
      RetireSame(SetStream(Send(c1, f), id, Send(c1, f).streams[id].(localClosed := true)), id);
    }
  }

  lemma ReadSame(c: Conn, id: nat)
    requires Holds(c, id)
    ensures Same(c, Read(c, id))
  {
    hide Replenish;
    if c.cells[id].recv.queue != [] {
      ReplenishShape(TakeChunk(c, id), id, |c.cells[id].recv.queue[0]|);
    }
  }

  lemma DropSame(c: Conn, id: nat)
    requires Holds(c, id)
    ensures Same(c, DropBody(c, id))
  {
    hide Replenish, ResetStream;
    var r := c.cells[id].recv;
    ReplenishShape(SetCell(Log(c, Event.Released(id)), id, c.cells[id].(body := Dropped)), id, if r.buffered > 0 then r.buffered else 0);
    ResetSame(Relinquish(c, id), id, Cancel);
  }

  /** No step of our own touches the table, a partial block or the peer's settings. */
  lemma OwnStepsKeep(cfg: Config, c: Conn, s: Step)
    requires cfg.tables.Sized() && Enabled(c, s) && !s.DoBytes?
    ensures Same(c, Perform(cfg, c, s))
  {
    hide Turn, Send, Destroy, Open, CanOpen, Replenish, ResetStream, Retire, StartPing, Read, DropBody, FinishBody;
    match s {
      case DoLost(writing) => DestroySame(c, LostError(writing));
      case DoRequest(token, headers, hasBody) => OpenSame(cfg, c, headers, hasBody);
      case DoTurn(id) => TurnShape(c, id);
      case DoFinish(id) => FinishSame(c, id);
      case DoRead(id) => ReadSame(c, id);
      case DoDrop(id) => DropSame(c, id);
      case DoPing => PingShape(c);
      case DoClose =>
        SendSame(c, Goaway(c.highestPromised, 0, []));
        DestroySame(Send(c, Goaway(c.highestPromised, 0, [])), H2Error(NoError, ClosedByClient));
      case _ =>
    }
  }

  // --- frames ---

  lemma DataSame(c: Conn, id: nat, data: bytes, endStream: bool)
    ensures Same(c, ReceiveData(c, id, data, endStream))
  {
    hide Send, DataOnRecv;
    SendSame(Log(c, Returned(id, |data|)), WindowUpdate(0, |data| % U32_LIMIT));
  }

  lemma SettingsSame(c: Conn, s: Settings)
    ensures var d := ApplySettings(c, s).conn; d.table == c.table && d.block == c.block
  {
  }

  lemma OtherFrames(cfg: Config, c: Conn, f: Frame)
    requires !OfBlock(f) && Handle(cfg, c, f).error.None?
    ensures var c' := Handle(cfg, c, f).conn; c'.table == c.table && c'.block == c.block
  {
    hide ApplySettings, Doom, ReceiveData, Retire, Destroy, ResetStream, Send;
    var c1 := Log(c, Event.Recv(f));
    match f
    case SettingsFrame(_, s) => SettingsSame(c1, s); SendSame(ApplySettings(c1, s).conn, SettingsFrame(true, NO_SETTINGS));
    case Data(id, data, endStream) => DataSame(c1, id, data, endStream); RetireSame(ReceiveData(c1, id, data, endStream), id);
    case RstStream(id, code) => DoomSame(c1, {id}, H2Error(CodeOr(code, ProtocolError), PeerReset));
    case WindowUpdate(id, n) => ResetSame(c1, id, ProtocolError);
    case Ping(_, opaque8) => SendSame(c1, Ping(true, opaque8));
    case Goaway(last, code, _) =>
      var err := H2Error(CodeOr(code, NoError), PeerGoaway);
      DoomSame(c1.(goaway := true), Above(c1.streams.Keys, last), err);
      DestroySame(WakeSlots(Doom(c1.(goaway := true), Above(c1.streams.Keys, last), err)), err);
    case Prioritize(_, _) =>
  }

  /**
   * A frame of a header block that is not at fault: before END_HEADERS it only adds its fragment.
   * With it, the whole goes through the table once, and what it decodes to is delivered, a
   * promise answered besides.
   */
  lemma BlockFrames(cfg: Config, c: Conn, f: Frame)
    requires OfBlock(f) && Handle(cfg, c, f).error.None?
    ensures Gathering(c, f).Some?
    ensures var c1, c', pb := Log(c, Event.Recv(f)), Handle(cfg, c, f).conn, Gathering(c, f).value;
            if !f.endHeaders then c' == c1.(block := Some(pb))
            else
              var whole := DecodeBlock(cfg.tables, c.table, Flatten(pb.fragments));
              && c'.block.None? && c'.table == whole.table && whole.headers.Ok?
              && c'.log == if pb.push
                           then Send(Log(c1, Block(pb.promised, true, whole.headers.value, false)), RstStream(pb.promised, 7)).log
                           else After(c1.log, Block(pb.streamId, false, whole.headers.value, pb.endStream))
  {
    HandleGathers(cfg, c, f);
    hide Handle, DecodeBlock, ReceiveHeaders, Retire, Send, RefusePush, Gathering;
    var c1, pb := Log(c, Event.Recv(f)), Gathering(c, f).value;
    if f.endHeaders {
      var whole := DecodeBlock(cfg.tables, c.table, Flatten(pb.fragments));
      var c2 := c1.(block := None, table := whole.table);
      if pb.push {
        RefuseShape(c2, pb.promised, whole.headers.value);
        SendBlind(c2, c1, Block(pb.promised, true, whole.headers.value, false), RstStream(pb.promised, 7));
      } else {
        DeliverShape(c2, pb.streamId, whole.headers.value, pb.endStream);
      }
    }
  }

  lemma RefuseShape(c: Conn, promised: nat, headers: seq<Header>)
    ensures var d := RefusePush(c, promised, headers);
            && d.block == c.block && d.table == c.table
            && d.log == Send(Log(c, Block(promised, true, headers, false)), RstStream(promised, 7)).log
  {
  }

  lemma SendBlind(c: Conn, c': Conn, e: Event, f: Frame)
    requires c'.log == c.log && c'.closed == c.closed
    ensures Send(Log(c, e), f).log == Send(Log(c', e), f).log
  {
  }

  lemma DeliverShape(c: Conn, id: nat, headers: seq<Header>, endStream: bool)
    ensures var c2 := ReceiveHeaders(Log(c, Block(id, false, headers, endStream)), id, headers, endStream);
            var d := if endStream then Retire(c2, id) else c2;
            d.block == c.block && d.table == c.table && d.log == After(c.log, Block(id, false, headers, endStream))
  {
    hide HeadersOnCell, Interim;
  }

  /** One frame, faults aside, moves the context as the frames alone say. */
  lemma FrameAgrees(cfg: Config, c: Conn, f: Frame, x: Context)
    requires Agrees(c, x) && Inbound(cfg, c, f).closed.None?
    ensures Agrees(Inbound(cfg, c, f), Taken(cfg.tables, x, f))
  {
    hide DecodeBlock, Handle, ConnectionError;
    if Handle(cfg, c, f).error.Some? {
      ErrorMurmurs(Handle(cfg, c, f).conn, Handle(cfg, c, f).error.value);
    } else if OfBlock(f) {
      BlockFrames(cfg, c, f);
      GatheredOctets(c, f);
    } else {
      OtherFrames(cfg, c, f);
    }
  }

  lemma GatheredOctets(c: Conn, f: Frame)
    requires OfBlock(f) && Gathering(c, f).Some?
    ensures f.Continuation? <==> c.block.Some?
    ensures Flatten(Gathering(c, f).value.fragments)
         == (if f.Continuation? then Flatten(c.block.value.fragments) else []) + f.fragment
  {
    if f.Continuation? {
      FlattenSnoc(c.block.value.fragments, f.fragment);
    } else {
      FlattenSnoc([], f.fragment);
      assert [] + [f.fragment] == [f.fragment];
    }
  }

  // --- whole runs ---

  ghost predicate Inv(cfg: Config, c: Conn) {
    c.closed.None? ==> Agrees(c, ContextOf(cfg, FramesIn(c.log)))
  }

  lemma OneMore(cfg: Config, fs: seq<Frame>, f: Frame)
    ensures ContextOf(cfg, fs + [f]) == Taken(cfg.tables, ContextOf(cfg, fs), f)
  {
    assert (fs + [f])[..|fs|] == fs;
  }

  lemma {:induction false} FramesKeep(cfg: Config, c: Conn, fs: seq<Frame>)
    requires Inv(cfg, c)
    ensures Inv(cfg, InboundAll(cfg, c, fs))
    decreases |fs|
  {
    hide Handle, Inbound, FramesIn, ContextOf, Taken, Agrees, Follows;
    if fs != [] {
      var c1 := Inbound(cfg, c, fs[0]);
      InboundMurmurs(cfg, c, fs[0]);
      MurmursFrames(Log(c, Event.Recv(fs[0])), c1);
      HeardFrame(c.log, fs[0]);
      if c1.closed.None? {
        OneMore(cfg, FramesIn(c.log), fs[0]);
        FrameAgrees(cfg, c, fs[0], ContextOf(cfg, FramesIn(c.log)));
      }
      FramesKeep(cfg, c1, fs[1..]);
    }
  }

  lemma BytesKeep(cfg: Config, c: Conn, chunk: bytes)
    requires Inv(cfg, c)
    ensures Inv(cfg, OnBytes(cfg, c, chunk))
  {
    hide Scan, InboundAll, ConnectionError, FramesIn, ContextOf;
    var scanned := Scan(c.inbox + chunk, cfg.maxFrame);
    if scanned.Err? {
      ErrorMurmurs(c.(inbox := []), scanned.error);
    } else {
      FramesKeep(cfg, c.(inbox := scanned.value.rest), scanned.value.frames);
    }
  }

  /**
   * In every state of every run of an open connection, the dynamic table is what all the whole
   * header blocks received so far leave when they are decoded one after the other, from the empty
   * table of the size that was advertised; and the block in progress is the fragments since then.
   */
  lemma {:induction false} ContextExactly(cfg: Config, steps: seq<Step>)
    requires cfg.tables.Sized()
    ensures var c := Run(cfg, steps); c.closed.None? ==> Agrees(c, ContextOf(cfg, FramesIn(c.log)))
    decreases |steps|
  {
    hide Perform, Enabled, FramesIn, Connect, ContextOf, Agrees;
    if steps == [] {
      StartAgrees(cfg);
    } else {
      var before, s := steps[..|steps| - 1], steps[|steps| - 1];
      var c := Run(cfg, before);
      assert Run(cfg, steps) == if Enabled(c, s) then Perform(cfg, c, s) else c;
      ContextExactly(cfg, before);
      hide Run, RunFrom;
      if s.DoBytes? {
        BytesStep(cfg, c, s);
        BytesKeep(cfg, c, s.chunk);
      } else if Enabled(c, s) {
        OwnStepHears(cfg, c, s);
        OwnStepsKeep(cfg, c, s);
        AgreesBlind(c, Perform(cfg, c, s));
      }
    }
  }

  lemma AgreesBlind(c: Conn, c': Conn)
    requires Same(c, c')
    ensures forall x :: Agrees(c, x) ==> Agrees(c', x)
  {
  }

  lemma StartAgrees(cfg: Config)
    ensures Agrees(Connect(cfg), ContextOf(cfg, FramesIn(Connect(cfg).log)))
  {
    ConnectShape(cfg);
    hide Connect;
    var log := After(Begin, Sent(SettingsFrame(false, OurSettings(cfg))));
    assert FramesIn(log) == [];
  }
}
