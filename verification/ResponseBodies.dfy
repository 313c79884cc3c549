/** What a response body hands to the application, against what the peer sent. */
module ResponseBodies {
  import opened Common
  import opened Bytes
  import opened Hpack
  import opened Frames
  import opened FrameStream
  import opened Flow
  import opened Connection
  import opened Moves

  /**
   * Of one opened stream: the non-empty DATA payloads up to END_STREAM, whether END_STREAM came
   * with DATA, a final head or trailers (`finished`), or with any frame at all (`half`),
   * and what the application was handed: chunks, errors and ends.
   */
  datatype Transfer = Transfer(
    arrived: seq<bytes>, finished: bool, half: bool, gotHead: bool,
    yielded: seq<bytes>, errors: nat, ends: nat)

  const NEW_TRANSFER := Transfer([], false, false, false, [], 0, 0)

  function WithData(t: Transfer, data: bytes, endStream: bool): (t': Transfer) {
    t.(arrived := if data != [] && !t.finished then t.arrived + [data] else t.arrived,
       finished := t.finished || endStream, half := t.half || endStream)
  }

  function WithHead(t: Transfer, headers: seq<Header>, endStream: bool): (t': Transfer) {
    if !t.gotHead && Interim(headers) then t.(half := t.half || endStream)
    else t.(gotHead := true, finished := t.finished || endStream, half := t.half || endStream)
  }

  function Track(ts: map<nat, Transfer>, e: Event): (ts': map<nat, Transfer>) {
    match e
    case Opened(id, _, _) => ts[id := NEW_TRANSFER]
    case Recv(Data(id, data, endStream)) => if id in ts then ts[id := WithData(ts[id], data, endStream)] else ts
    case Block(id, false, headers, endStream) => if id in ts then ts[id := WithHead(ts[id], headers, endStream)] else ts
    case Yielded(id, chunk) => if id in ts then ts[id := ts[id].(yielded := ts[id].yielded + [chunk])] else ts
    case YieldedError(id) => if id in ts then ts[id := ts[id].(errors := ts[id].errors + 1)] else ts
    case YieldedEnd(id) => if id in ts then ts[id := ts[id].(ends := ts[id].ends + 1)] else ts
    case _ => ts
  }

  function Transfers(log: Trace): (ts: map<nat, Transfer>) {
    match log
    case Begin => map[]
    case After(past, e) => Track(Transfers(past), e)
  }

  /** No chunk after an error or an end, one error at most, and an end without an error only with everything. */
  predicate HonestEvent(ts: map<nat, Transfer>, e: Event) {
    match e
    case Opened(id, _, _) => id !in ts
    case Yielded(id, chunk) =>
      id in ts && ts[id].errors == 0 && ts[id].ends == 0 && ts[id].yielded + [chunk] <= ts[id].arrived
    case YieldedError(id) => id in ts && ts[id].errors == 0
    case YieldedEnd(id) => id in ts && (ts[id].errors == 0 ==> ts[id].finished && ts[id].yielded == ts[id].arrived)
    case _ => true
  }

  predicate Honest(log: Trace) {
    match log
    case Begin => true
    case After(past, e) => Honest(past) && HonestEvent(Transfers(past), e)
  }

  // --- the receive cells hold exactly what has arrived and was not handed out ---

  predicate Matches(r: Recv, t: Transfer) {
    && t.yielded + r.queue <= t.arrived && t.errors <= 1
    && (t.errors > 0 ==> r.queue == [] && r.error.None? && r.ended)
    && (t.ends > 0 ==> r.queue == [] && r.ended)
    && (r.ended && r.error.None? && t.errors == 0 ==> t.finished && t.yielded + r.queue == t.arrived)
    && (r.error.Some? ==> r.ended)
    && (r.waiting ==> Exhausted(r) && !r.ended)
  }

  predicate MatchesLive(s: Strm, r: Recv, t: Transfer) {
    && r.error.None? && t.errors == 0 && r.ended == t.finished && t.yielded + r.queue == t.arrived
    && s.remoteClosed == t.half && s.gotHead == t.gotHead
  }

  /** What holds even while a frame is being refused. */
  ghost predicate Loose(c: Conn) {
    var ts := Transfers(c.log);
    && Honest(c.log) && ts.Keys == c.cells.Keys && c.streams.Keys <= c.cells.Keys
    && (c.closed.Some? ==> c.streams.Keys == {})
    && (forall id :: id in c.cells ==> id < c.nextId && Matches(c.cells[id].recv, ts[id]))
    && (forall id :: id in c.streams ==> ts[id].errors == 0)
    && (forall id :: id in c.cells && id !in c.streams && !c.cells[id].recv.ended ==> ts[id].half)
  }

  ghost predicate Inv(c: Conn) {
    && Loose(c)
    && (forall id :: id in c.streams ==> MatchesLive(c.streams[id], c.cells[id].recv, Transfers(c.log)[id]))
  }

  predicate Unseen(e: Event) {
    match e
    case Opened(_, _, _) => false
    case Recv(f) => !f.Data?
    case Block(_, push, _, _) => push
    case Yielded(_, _) => false
    case YieldedError(_) => false
    case YieldedEnd(_) => false
    case _ => true
  }

  lemma Unfold(log: Trace, e: Event)
    ensures Transfers(After(log, e)) == Track(Transfers(log), e)
    ensures Honest(After(log, e)) == (Honest(log) && HonestEvent(Transfers(log), e))
  {
  }

  lemma LogShape(log: Trace, e: Event)
    requires Unseen(e)
    ensures Transfers(After(log, e)) == Transfers(log) && Honest(After(log, e)) == Honest(log)
  {
  }

  lemma LogKeeps(c: Conn, e: Event)
    requires Inv(c) && Unseen(e)
    ensures Inv(Log(c, e))
  {
    hide Transfers, Honest, Matches, MatchesLive;
    LogShape(c.log, e);
  }

  /** DATA that is not taken: what has arrived may now be ahead of the cells. */
  lemma RefusedDataLoose(c: Conn, f: Frame)
    requires Loose(c) && f.Data?
    ensures Loose(Log(c, Event.Recv(f)))
  {
    hide Transfers, Honest, Matches, WithData;
    Unfold(c.log, Event.Recv(f));
    if f.streamId in c.cells {
      AheadMatches(c.cells[f.streamId].recv, Transfers(c.log)[f.streamId], f.data, f.endStream);
    }
  }

  lemma AheadMatches(r: Recv, t: Transfer, data: bytes, endStream: bool)
    requires Matches(r, t)
    ensures var t' := WithData(t, data, endStream);
            Matches(r, t') && t'.errors == t.errors && (t.half ==> t'.half)
  {
  }

  lemma SendKeeps(c: Conn, f: Frame)
    requires Inv(c)
    ensures Inv(Send(c, f))
  {
    hide Inv;
    if c.closed.None? {
      LogKeeps(c, Sent(f));
    }
  }

  lemma {:induction false} SendAllKeeps(c: Conn, fs: seq<Frame>)
    requires Inv(c)
    ensures Inv(SendAll(c, fs))
    decreases |fs|
  {
    hide Inv, Send;
    if fs != [] {
      SendKeeps(c, fs[0]);
      SendAllKeeps(Send(c, fs[0]), fs[1..]);
    }
  }

  /** Nothing here has changed: the same streams and receive cells. */
  ghost predicate SameRecv(c: Conn, c': Conn) {
    && c'.log == c.log && c'.nextId == c.nextId && c'.closed == c.closed
    && c'.cells.Keys == c.cells.Keys && c'.streams.Keys == c.streams.Keys
    && (forall id :: id in c.cells ==> c'.cells[id].recv == c.cells[id].recv)
    && (forall id :: id in c.streams ==>
          c'.streams[id].remoteClosed == c.streams[id].remoteClosed && c'.streams[id].gotHead == c.streams[id].gotHead)
  }

  lemma SameKeeps(c: Conn, c': Conn)
    requires Inv(c) && SameRecv(c, c')
    ensures Inv(c')
  {
    hide Transfers, Honest;
  }

  lemma RetireKeeps(c: Conn, id: nat)
    requires Inv(c)
    ensures Inv(Retire(c, id))
  {
    hide Transfers, Honest, Matches;
  }

  lemma FailMatches(r: Recv, t: Transfer, err: H2Error)
    requires Matches(r, t) && t.errors == 0
    ensures Matches(FailRecv(r, err), t) && FailRecv(r, err).ended
  {
  }

  lemma DoomLoose(c: Conn, ids: set<nat>, err: H2Error)
    requires Loose(c)
    ensures Loose(Doom(c, ids, err))
  {
    hide Transfers, Honest, Matches, FailRecv, Sleepers;
    var ts := Transfers(c.log);
    forall id | id in c.streams
      ensures Matches(FailRecv(c.cells[id].recv, err), ts[id]) && FailRecv(c.cells[id].recv, err).ended
    {
      FailMatches(c.cells[id].recv, ts[id], err);
    }
  }

  lemma DoomKeeps(c: Conn, ids: set<nat>, err: H2Error)
    requires Inv(c)
    ensures Inv(Doom(c, ids, err)) && Inv(WakeSlots(Doom(c, ids, err)))
  {
    hide Loose, Transfers, MatchesLive;
    DoomLoose(c, ids, err);
    DoomRest(c, ids, err);
    assert Inv(Doom(c, ids, err));
    hide Inv;
    SameKeeps(Doom(c, ids, err), WakeSlots(Doom(c, ids, err)));
  }

  lemma DoomRest(c: Conn, ids: set<nat>, err: H2Error)
    ensures Doom(c, ids, err).log == c.log
    ensures forall id :: id in Doom(c, ids, err).streams ==>
              id in c.streams && Doom(c, ids, err).streams[id] == c.streams[id]
              && (id in c.cells ==> Doom(c, ids, err).cells[id] == c.cells[id])
  {
  }

  lemma DestroyKeeps(c: Conn, err: H2Error)
    requires Loose(c)
    ensures Inv(Destroy(c, err))
  {
    hide Transfers, Honest, Matches, Doom, FailPongs;
    if c.closed.None? {
      DoomLoose(c, c.streams.Keys, err);
      DestroyShape(c, err);
      LogShape(c.log, TornDown(err));
    }
  }

  lemma LastWords(c: Conn, f: Frame, err: H2Error)
    requires Loose(c)
    ensures Inv(Destroy(Send(c, f), err))
  {
    hide Inv, Destroy, Transfers, Honest, Matches;
    if c.closed.None? {
      LogShape(c.log, Sent(f));
    }
    DestroyKeeps(Send(c, f), err);
  }

  lemma CrashKeeps(cfg: Config, c: Conn, f: Frame)
    requires Inv(c) && Handle(cfg, c, f).error.Some?
    ensures Inv(ConnectionError(Handle(cfg, c, f).conn, Handle(cfg, c, f).error.value))
  {
    hide Inv, Send, Destroy, Handle, Transfers, Honest, Matches;
    var o := Handle(cfg, c, f);
    CrashShape(cfg, c, f);
    InvLoose(c);
    if f.Data? {
      RefusedDataLoose(c, f);
    } else {
      LogShape(c.log, Event.Recv(f));
    }
    LastWords(o.conn, Goaway(o.conn.highestPromised, o.error.value.code.Value(), []), o.error.value);
  }

  lemma InvLoose(c: Conn)
    requires Inv(c)
    ensures Loose(c)
  {
  }

  // --- DATA and header blocks ---

  lemma DataMatches(s: Strm, r: Recv, t: Transfer, data: bytes, endStream: bool)
    requires Matches(r, t) && MatchesLive(s, r, t)
    ensures var s', r', t' := s.(remoteClosed := s.remoteClosed || endStream), DataOnRecv(r, data, endStream), WithData(t, data, endStream);
            Matches(r', t') && MatchesLive(s', r', t')
  {
    if data != [] && !r.ended {
      assert t.yielded + (r.queue + [data]) == t.yielded + r.queue + [data];
    }
  }

  lemma WithDataFacts(t: Transfer, data: bytes, endStream: bool)
    ensures var t' := WithData(t, data, endStream); t'.errors == t.errors && (t.half ==> t'.half)
  {
  }

  lemma DataKeeps(c: Conn, id: nat, data: bytes, endStream: bool)
    requires Inv(c)
    ensures Inv(TakeData(c, id, data, endStream))
  {
    hide Inv, Retire, ReceiveData, Transfers;
    var f := Data(id, data, endStream);
    var c1 := Log(c, Event.Recv(f));
    var c2 := ReceiveData(c1, id, data, endStream);
    if id in c.streams {
      LiveDataKeeps(c, id, data, endStream);
    } else {
      DeadDataKeeps(c, id, data, endStream);
    }
    RetireKeeps(c2, id);
  }

  /** One live transfer has moved on, with its stream and cell; nothing else has changed. */
  lemma LiveMoved(c: Conn, c': Conn, id: nat, t: Transfer)
    requires Inv(c) && id in c.streams && Honest(c'.log)
    requires Transfers(c'.log) == Transfers(c.log)[id := t]
    requires id in c'.streams && id in c'.cells
    requires c'.streams == c.streams[id := c'.streams[id]] && c'.cells == c.cells[id := c'.cells[id]]
    requires c'.nextId == c.nextId && c'.closed == c.closed
    requires Matches(c'.cells[id].recv, t) && MatchesLive(c'.streams[id], c'.cells[id].recv, t) && t.errors == 0
    ensures Inv(c')
  {
    hide Transfers, Honest, Matches, MatchesLive;
  }

  lemma LiveDataKeeps(c: Conn, id: nat, data: bytes, endStream: bool)
    requires Inv(c) && id in c.streams
    ensures Inv(ReceiveData(Log(c, Event.Recv(Data(id, data, endStream))), id, data, endStream))
  {
    hide Transfers, Honest, Matches, MatchesLive, DataOnRecv, WithData, Dropping;
    var ts, e := Transfers(c.log), Event.Recv(Data(id, data, endStream));
    WithDataFacts(ts[id], data, endStream);
    DataMatches(c.streams[id], c.cells[id].recv, ts[id], data, endStream);
    Unfold(c.log, e);
    LogShape(After(c.log, e), Discarded(id, |data|));
    hide Inv;
    LiveMoved(c, ReceiveData(Log(c, e), id, data, endStream), id, WithData(ts[id], data, endStream));
  }

  /** DATA for a stream that is gone, or never was: its cell, if any, is not touched. */
  lemma DeadDataKeeps(c: Conn, id: nat, data: bytes, endStream: bool)
    requires Inv(c) && id !in c.streams
    ensures Inv(ReceiveData(Log(c, Event.Recv(Data(id, data, endStream))), id, data, endStream))
  {
    hide Transfers, Honest, Send;
    var f := Data(id, data, endStream);
    var c1 := Log(c, Event.Recv(f));
    RefusedDataLoose(c, f);
    TrackOther(c.log, f);
    assert Inv(c1) by { hide Matches; }
    if data != [] {
      LogKeeps(c1, Returned(id, |data|));
      SendKeeps(Log(c1, Returned(id, |data|)), WindowUpdate(0, |data| % U32_LIMIT));
    }
  }

  lemma TrackOther(log: Trace, f: Frame)
    requires f.Data?
    ensures forall i :: i in Transfers(log) && i != f.streamId ==>
              i in Transfers(After(log, Event.Recv(f))) && Transfers(After(log, Event.Recv(f)))[i] == Transfers(log)[i]
  {
  }

  lemma HeadMatches(s: Strm, r: Recv, t: Transfer, headers: seq<Header>, endStream: bool)
    requires Matches(r, t) && MatchesLive(s, r, t)
    ensures var s' := s.(gotHead := s.gotHead || !Interim(headers), remoteClosed := s.remoteClosed || endStream);
            var r' := if (s.gotHead || !Interim(headers)) && endStream then EndRecv(r) else r;
            var t' := WithHead(t, headers, endStream);
            Matches(r', t') && MatchesLive(s', r', t')
  {
    hide Interim;
  }

  lemma HeadFacts(cell: Cell, gotHead: bool, t: Transfer, headers: seq<Header>, endStream: bool)
    ensures var t' := WithHead(t, headers, endStream); t'.errors == t.errors && (t.half ==> t'.half)
    ensures HeadersOnCell(cell, gotHead, headers, endStream).recv
         == if (gotHead || !Interim(headers)) && endStream then EndRecv(cell.recv) else cell.recv
  {
    hide Interim;
  }

  lemma DeliverKeeps(c: Conn, id: nat, headers: seq<Header>, endStream: bool)
    requires Inv(c)
    ensures Inv(Deliver(c, id, headers, endStream))
  {
    hide Inv, Retire, ReceiveHeaders, Transfers;
    var c1 := Log(c, Block(id, false, headers, endStream));
    if id in c.streams {
      LiveHeadKeeps(c, id, headers, endStream);
    } else {
      DeadHeadKeeps(c, id, headers, endStream);
    }
    RetireKeeps(ReceiveHeaders(c1, id, headers, endStream), id);
  }

  lemma LiveHeadKeeps(c: Conn, id: nat, headers: seq<Header>, endStream: bool)
    requires Inv(c) && id in c.streams
    ensures Inv(ReceiveHeaders(Log(c, Block(id, false, headers, endStream)), id, headers, endStream))
  {
    hide Transfers, Honest, Matches, MatchesLive, WithHead, Interim, EndRecv, HeadersOnCell;
    var ts, e := Transfers(c.log), Block(id, false, headers, endStream);
    HeadMatches(c.streams[id], c.cells[id].recv, ts[id], headers, endStream);
    HeadFacts(c.cells[id], c.streams[id].gotHead, ts[id], headers, endStream);
    Unfold(c.log, e);
    hide Inv;
    LiveMoved(c, ReceiveHeaders(Log(c, e), id, headers, endStream), id, WithHead(ts[id], headers, endStream));
  }

  lemma HeadAhead(r: Recv, t: Transfer, headers: seq<Header>, endStream: bool)
    requires Matches(r, t)
    ensures Matches(r, WithHead(t, headers, endStream))
  {
    hide Interim;
  }

  lemma DeadHeadKeeps(c: Conn, id: nat, headers: seq<Header>, endStream: bool)
    requires Inv(c) && id !in c.streams
    ensures Inv(ReceiveHeaders(Log(c, Block(id, false, headers, endStream)), id, headers, endStream))
  {
    hide Transfers, Honest, Interim, HeadersOnCell, WithHead, Matches, MatchesLive;
    var ts, e := Transfers(c.log), Block(id, false, headers, endStream);
    Unfold(c.log, e);
    if id in c.cells {
      HeadAhead(c.cells[id].recv, ts[id], headers, endStream);
      HeadFacts(c.cells[id], false, ts[id], headers, endStream);
      assert c.cells == c.cells[id := c.cells[id]];
      CellMoved(c, Log(c, e), id, WithHead(ts[id], headers, endStream));
    }
  }

  lemma RefuseKeeps(c: Conn, promised: nat, headers: seq<Header>)
    requires Inv(c)
    ensures Inv(RefusePush(c, promised, headers))
  {
    hide Inv, Send;
    var c1 := Log(c, Block(promised, true, headers, false));
    LogKeeps(c, Block(promised, true, headers, false));
    var c2 := c1.(highestPromised := if promised > c.highestPromised then promised else c.highestPromised);
    SameKeeps(c1, c2);
    SendKeeps(c2, RstStream(promised, RefusedStream.Value()));
  }

  lemma SettingsKeep(c: Conn, s: Settings)
    requires Inv(c)
    ensures Inv(TakeSettings(c, s))
  {
    hide Inv, Send, ApplySettings;
    var c1 := Log(c, Event.Recv(SettingsFrame(false, s)));
    LogKeeps(c, Event.Recv(SettingsFrame(false, s)));
    SettingsShape(c1, s);
    SameKeeps(c1, ApplySettings(c1, s).conn);
    SendKeeps(ApplySettings(c1, s).conn, SettingsFrame(true, NO_SETTINGS));
  }

  lemma HeardKeeps(c: Conn, f: Frame, c': Conn)
    requires Inv(c) && !f.Data? && SameRecv(Log(c, Event.Recv(f)), c')
    ensures Inv(c')
  {
    hide Inv;
    LogKeeps(c, Event.Recv(f));
    SameKeeps(Log(c, Event.Recv(f)), c');
  }

  lemma CreditSame(c: Conn, id: nat, n: nat)
    ensures SameRecv(Log(c, Event.Recv(WindowUpdate(id, n))), TakeCredit(c, id, n))
  {
    hide TakeCredit;
    CreditShape(c, id, n);
  }

  lemma ResetKeeps(c: Conn, id: nat, code: nat)
    requires Inv(c)
    ensures Inv(TakeReset(c, id, code))
  {
    hide Inv, Doom;
    LogKeeps(c, Event.Recv(RstStream(id, code)));
    DoomKeeps(Log(c, Event.Recv(RstStream(id, code))), {id}, H2Error(CodeOr(code, ProtocolError), PeerReset));
  }

  lemma ZeroKeeps(c: Conn, id: nat)
    requires Inv(c)
    ensures Inv(TakeZero(c, id))
  {
    hide Inv, ResetStream;
    LogKeeps(c, Event.Recv(WindowUpdate(id, 0)));
    ResetStreamKeeps(Log(c, Event.Recv(WindowUpdate(id, 0))), id, ProtocolError);
  }

  lemma GoawayKeeps(c: Conn, last: nat, code: nat, debug: bytes)
    requires Inv(c)
    ensures Inv(TakeGoaway(c, last, code, debug))
  {
    hide Inv, Doom;
    var c1 := Log(c, Event.Recv(Goaway(last, code, debug)));
    HeardKeeps(c, Goaway(last, code, debug), c1.(goaway := true));
    DoomKeeps(c1.(goaway := true), Above(c.streams.Keys, last), H2Error(CodeOr(code, NoError), PeerGoaway));
  }

  lemma PingKeeps(c: Conn, ack: bool, opaque8: bytes)
    requires Inv(c)
    ensures Inv(HandlePing(Log(c, Event.Recv(Ping(ack, opaque8))), ack, opaque8)) && Inv(StartPing(c))
  {
    hide Inv, Send, PingKey;
    var c1 := Log(c, Event.Recv(Ping(ack, opaque8)));
    LogKeeps(c, Event.Recv(Ping(ack, opaque8)));
    if ack {
      SameKeeps(c1, HandlePing(c1, ack, opaque8));
    } else {
      SendKeeps(c1, Ping(true, opaque8));
    }
    if c.closed.None? {
      var n := (c.pingCounter + 1) % U32_LIMIT;
      var key, token := PingKey(n), c.nextPong;
      var pongs := if key in c.pings then c.pongs[c.pings[key] := Overwritten] else c.pongs;
      var c2 := c.(pingCounter := n, nextPong := token + 1, pings := c.pings[key := token], pongs := pongs[token := Waiting]);
      SameKeeps(c, c2);
      SendKeeps(c2, Ping(false, key));
    }
  }

  lemma InKeeps(cfg: Config, c: Conn, m: Inward)
    requires Inv(c) && MayIn(cfg, c, m)
    ensures Inv(DoIn(cfg, c, m))
  {
    hide Inv, TakeData, TakeSettings, TakeCredit, TakeReset, TakeGoaway, Deliver, RefusePush, HandlePing,
         Send, Destroy, Handle, DecodeBlock, ApplySettings;
    match m
    case SetInbox(rest) => SameKeeps(c, DoIn(cfg, c, m));
    case SetCodec(input) => SameKeeps(c, DoIn(cfg, c, m));
    case Hear(f, block) => HeardKeeps(c, f, DoIn(cfg, c, m));
    case HearCredit(id, n) => CreditSame(c, id, n); HeardKeeps(c, WindowUpdate(id, n), DoIn(cfg, c, m));
    case HearData(id, data, endStream) => DataKeeps(c, id, data, endStream);
    case HearSettings(s) => SettingsKeep(c, s);
    case HearZero(id) => ZeroKeeps(c, id);
    case HearReset(id, code) => ResetKeeps(c, id, code);
    case HearPing(ack, opaque8) => PingKeeps(c, ack, opaque8);
    case HearGoaway(last, code, debug) => GoawayKeeps(c, last, code, debug);
    case TakeHeaders(id, headers, endStream) => DeliverKeeps(c, id, headers, endStream);
    case Refuse(promised, headers) => RefuseKeeps(c, promised, headers);
    case Crash(f) => CrashKeeps(cfg, c, f);
    case Garbled(e) => InvLoose(c); LastWords(c, Goaway(c.highestPromised, e.code.Value(), []), e);
    case Stop(e) => InvLoose(c); DestroyKeeps(c, e);
  }

  // --- the application's side ---

  lemma OpenKeeps(cfg: Config, c: Conn, headers: seq<Header>, hasBody: bool)
    requires cfg.tables.Sized() && Inv(c) && c.closed.None?
    ensures Inv(Open(cfg, c, headers, hasBody))
  {
    hide EncodeHeaders, SendAll, SplitHeaders, Inv;
    var block := EncodeHeaders(cfg.tables, headers);
    ReserveKeeps(c, hasBody, block);
    SendAllKeeps(Log(Reserve(c, hasBody), Event.Opened(c.nextId, block, hasBody)),
                 SplitHeaders(c.nextId, block, !hasBody, c.remote.maxFrameSize));
  }

  lemma ReserveKeeps(c: Conn, hasBody: bool, block: bytes)
    requires Inv(c) && c.closed.None?
    ensures Inv(Log(Reserve(c, hasBody), Event.Opened(c.nextId, block, hasBody)))
  {
    var id, s := c.nextId, Strm(Fresh(c.remote.initialWindow), false, !hasBody, false);
    assert Matches(EMPTY_INBOX, NEW_TRANSFER) && MatchesLive(s, EMPTY_INBOX, NEW_TRANSFER);
    assert NEW_TRANSFER.errors == 0;
    hide Transfers, Honest, Fresh, Matches, MatchesLive;
    Unfold(c.log, Event.Opened(id, block, hasBody));
    Appeared(c, Log(Reserve(c, hasBody), Event.Opened(id, block, hasBody)), id, NEW_TRANSFER);
  }

  lemma Appeared(c: Conn, c': Conn, id: nat, t: Transfer)
    requires Inv(c) && c.closed.None? && c'.closed.None? && id == c.nextId && c'.nextId == id + 2 && Honest(c'.log)
    requires Transfers(c'.log) == Transfers(c.log)[id := t] && t.errors == 0
    requires id in c'.streams && id in c'.cells
    requires c'.streams == c.streams[id := c'.streams[id]] && c'.cells == c.cells[id := c'.cells[id]]
    requires Matches(c'.cells[id].recv, t) && MatchesLive(c'.streams[id], c'.cells[id].recv, t)
    ensures Inv(c')
  {
    hide Transfers, Honest, Matches, MatchesLive;
  }

  lemma ReplenishKeeps(c: Conn, id: nat, n: nat)
    requires Inv(c)
    ensures Inv(Replenish(c, id, n))
  {
    hide Inv, Send;
    var c0 := Log(c, Returned(id, n));
    var f := WindowUpdate(id, n % U32_LIMIT);
    var c1 := if id in c.streams then Send(c0, f) else c0;
    LogKeeps(c, Returned(id, n));
    SendKeeps(c0, f);
    SendKeeps(c1, WindowUpdate(0, n % U32_LIMIT));
  }

  /** One cell has been read from; its transfer records it. */
  lemma CellMoved(c: Conn, c': Conn, id: nat, t: Transfer)
    requires Inv(c) && id in c.cells && Honest(c'.log)
    requires Transfers(c'.log) == Transfers(c.log)[id := t]
    requires c' == c.(log := c'.log, cells := c'.cells) && id in c'.cells && c'.cells == c.cells[id := c'.cells[id]]
    requires Matches(c'.cells[id].recv, t)
    requires id in c.streams ==> MatchesLive(c.streams[id], c'.cells[id].recv, t) && t.errors == 0
    requires c'.cells[id].recv.ended == c.cells[id].recv.ended && (Transfers(c.log)[id].half ==> t.half)
    ensures Inv(c')
  {
    hide Transfers, Honest, Matches, MatchesLive;
  }

  lemma PopMatches(r: Recv, t: Transfer)
    requires Matches(r, t) && r.queue != []
    ensures var r', t' := r.(queue := r.queue[1..], buffered := r.buffered - |r.queue[0]|), t.(yielded := t.yielded + [r.queue[0]]);
            && Matches(r', t') && t.errors == 0 && t.ends == 0 && t'.yielded <= t.arrived
            && t'.yielded + r'.queue == t.yielded + r.queue
  {
    assert t.yielded + [r.queue[0]] + r.queue[1..] == t.yielded + r.queue;
  }

  lemma YieldKeeps(c: Conn, id: nat)
    requires Inv(c) && Holds(c, id) && c.cells[id].recv.queue != []
    ensures Inv(YieldChunk(c, id))
  {
    var r, t := c.cells[id].recv, Transfers(c.log)[id];
    hide Transfers, Honest, Matches, Replenish;
    PopMatches(r, t);
    Unfold(c.log, Yielded(id, r.queue[0]));
    CellMoved(c, TakeChunk(c, id), id, t.(yielded := t.yielded + [r.queue[0]]));
    hide Inv;
    ReplenishKeeps(TakeChunk(c, id), id, |r.queue[0]|);
  }

  lemma YieldErrorKeeps(c: Conn, id: nat)
    requires Inv(c) && Holds(c, id) && c.cells[id].recv.queue == [] && c.cells[id].recv.error.Some?
    ensures Inv(YieldError(c, id))
  {
    hide Transfers, Honest;
    var t := Transfers(c.log)[id];
    Unfold(c.log, YieldedError(id));
    CellMoved(c, YieldError(c, id), id, t.(errors := t.errors + 1));
  }

  lemma YieldEndKeeps(c: Conn, id: nat)
    requires Inv(c) && Holds(c, id) && Exhausted(c.cells[id].recv) && c.cells[id].recv.ended
    ensures Inv(Log(c, YieldedEnd(id)))
  {
    hide Transfers, Honest;
    var t := Transfers(c.log)[id];
    assert t.yielded + [] == t.yielded;
    Unfold(c.log, YieldedEnd(id));
    CellMoved(c, Log(c, YieldedEnd(id)), id, t.(ends := t.ends + 1));
  }

  lemma DropKeeps(c: Conn, id: nat)
    requires Inv(c) && Holds(c, id)
    ensures Inv(DropBody(c, id))
  {
    hide Inv, Replenish, ResetStream;
    var c0 := Log(c, Event.Released(id));
    var c1, c2 := SetCell(c0, id, c.cells[id].(body := Dropped)), Relinquish(c, id);
    LogKeeps(c, Event.Released(id));
    SameKeeps(c0, c1);
    if c.cells[id].recv.buffered > 0 {
      ReplenishKeeps(c1, id, c.cells[id].recv.buffered);
    }
    ResetStreamKeeps(c2, id, Cancel);
  }

  lemma ResetStreamKeeps(c: Conn, id: nat, code: ErrorCode)
    requires Inv(c)
    ensures Inv(ResetStream(c, id, code))
  {
    hide Inv, Send, Doom;
    SendKeeps(c, RstStream(id, code.Value()));
    DoomKeeps(Send(c, RstStream(id, code.Value())), {id}, H2Error(code, StreamReset));
  }

  lemma TurnKeeps(c: Conn, id: nat)
    requires PumpIs(c, id, false) && c.cells[id].pump.offset <= |c.cells[id].pump.chunk| && Inv(c)
    ensures Inv(Turn(c, id))
  {
    hide Inv, Turn;
    TurnShape(c, id);
    if Turn(c, id).log != c.log {
      LogKeeps(c, Turn(c, id).log.event);
      SameKeeps(Log(c, Turn(c, id).log.event), Turn(c, id));
    } else {
      SameKeeps(c, Turn(c, id));
    }
  }

  lemma FinishKeeps(c: Conn, id: nat)
    requires PumpIs(c, id, true) && Inv(c)
    ensures Inv(FinishBody(c, id))
  {
    hide Inv, Retire;
    LogKeeps(c, Event.FedAll(id));
    var c1 := SetPump(Log(c, Event.FedAll(id)), id, Finished);
    SameKeeps(Log(c, Event.FedAll(id)), c1);
    if id in c.streams {
      var c2 := Send(c1, Data(id, [], true));
      SendKeeps(c1, Data(id, [], true));
      var c3 := SetStream(c2, id, c2.streams[id].(localClosed := true));
      SameKeeps(c2, c3);
      RetireKeeps(c3, id);
    }
  }

  lemma FeedKeeps(c: Conn, id: nat, chunk: bytes)
    requires Inv(c) && PumpIs(c, id, true)
    ensures Inv(SetPump(Log(c, Event.Fed(id, chunk)), id, Sending(chunk, 0)))
  {
    hide Inv;
    LogKeeps(c, Event.Fed(id, chunk));
    SameKeeps(Log(c, Event.Fed(id, chunk)), SetPump(Log(c, Event.Fed(id, chunk)), id, Sending(chunk, 0)));
  }

  lemma ClaimKeeps(c: Conn, id: nat)
    requires Inv(c) && id in c.cells
    ensures Inv(Claim(c, id))
  {
    hide Inv;
    SameKeeps(c, Claim(c, id));
  }

  lemma WaitKeeps(c: Conn, id: nat)
    requires Inv(c) && Holds(c, id) && Exhausted(c.cells[id].recv) && !c.cells[id].recv.ended
    ensures Inv(Wait(c, id))
  {
    var t := Transfers(c.log)[id];
    assert Transfers(c.log)[id := t] == Transfers(c.log);
    hide Transfers, Honest;
    CellMoved(c, Wait(c, id), id, t);
  }

  lemma OutKeeps(cfg: Config, c: Conn, m: Outward)
    requires Inv(c) && MayOut(cfg, c, m)
    ensures Inv(DoOut(cfg, c, m))
  {
    hide Inv, SetPump, Claim, YieldError, Wait, Turn, FinishBody, YieldChunk, DropBody, Open, Send, Destroy, StartPing, ResetStream, CanOpen;
    match m
    case Quit(e) => InvLoose(c); DestroyKeeps(c, e);
    case MoveOpen(headers, hasBody) => OpenKeeps(cfg, c, headers, hasBody);
    case MoveQueue(token) => SameKeeps(c, DoOut(cfg, c, m));
    case MoveFeed(id, chunk) => FeedKeeps(c, id, chunk);
    case MoveTurn(id) => TurnKeeps(c, id);
    case MoveFinish(id) => FinishKeeps(c, id);
    case MoveClaim(id) => ClaimKeeps(c, id);
    case MoveYield(id) => YieldKeeps(c, id);
    case MoveYieldError(id) => YieldErrorKeeps(c, id);
    case MoveYieldEnd(id) => YieldEndKeeps(c, id);
    case MoveWait(id) => WaitKeeps(c, id);
    case MoveDrop(id) => DropKeeps(c, id);
    case MovePing => PingKeeps(c, false, []);
    case MoveClose => InvLoose(c); LastWords(c, Goaway(c.highestPromised, 0, []), H2Error(NoError, ClosedByClient));
  }

  lemma ConnectKeeps(cfg: Config)
    ensures Inv(Connect(cfg))
  {
    var quiet, f := Quiet(cfg), SettingsFrame(false, OurSettings(cfg));
    assert Inv(quiet);
    hide Inv, Send;
    SendKeeps(quiet, f);
    if cfg.connectionWindow > SPEC_WINDOW {
      SendKeeps(Send(quiet, f), WindowUpdate(0, cfg.connectionWindow - SPEC_WINDOW));
    }
  }

  lemma RunKeeps(cfg: Config, steps: seq<Step>)
    requires cfg.tables.Sized()
    ensures Inv(Run(cfg, steps))
  {
    hide Inv, DoIn, DoOut, MayIn, MayOut, Run, Connect;
    ConnectKeeps(cfg);
    forall c, m | MayIn(cfg, c, m) && Inv(c)
      ensures Inv(DoIn(cfg, c, m))
    {
      InKeeps(cfg, c, m);
    }
    forall c, m | MayOut(cfg, c, m) && Inv(c)
      ensures Inv(DoOut(cfg, c, m))
    {
      OutKeeps(cfg, c, m);
    }
    RunByMoves(cfg, Inv, steps);
  }

  // --- the theorems ---

  lemma {:induction false} HonestBefore(log: Trace, past: Trace, e: Event)
    requires Honest(log) && Reaches(log, After(past, e))
    ensures HonestEvent(Transfers(past), e)
  {
    if log != After(past, e) {
      HonestBefore(log.past, past, e);
    }
  }

  /**
   * In every run, the chunks a body yields are always a prefix of the DATA payloads of its
   * stream; it yields at most one error and no chunk after it; and it ends without an error
   * only when it has yielded everything up to an END_STREAM that has arrived.
   */
  lemma BodiesHonest(cfg: Config, steps: seq<Step>, past: Trace, id: nat, chunk: bytes)
    requires cfg.tables.Sized()
    ensures Reaches(Run(cfg, steps).log, After(past, Yielded(id, chunk))) ==>
              id in Transfers(past) && var t := Transfers(past)[id];
              t.errors == 0 && t.ends == 0 && t.yielded + [chunk] <= t.arrived
    ensures Reaches(Run(cfg, steps).log, After(past, YieldedError(id))) ==>
              id in Transfers(past) && Transfers(past)[id].errors == 0
    ensures Reaches(Run(cfg, steps).log, After(past, YieldedEnd(id))) ==>
              id in Transfers(past) && var t := Transfers(past)[id];
              t.errors == 0 ==> t.finished && t.yielded == t.arrived
  {
    hide Run, Reaches, Transfers;
    RunKeeps(cfg, steps);
    var log := Run(cfg, steps).log;
    assert Honest(log);
    if Reaches(log, After(past, Yielded(id, chunk))) {
      HonestBefore(log, past, Yielded(id, chunk));
    }
    if Reaches(log, After(past, YieldedError(id))) {
      HonestBefore(log, past, YieldedError(id));
    }
    if Reaches(log, After(past, YieldedEnd(id))) {
      HonestBefore(log, past, YieldedEnd(id));
    }
  }

  /**
   * In every state of every run: what has arrived on a live stream was yielded or is queued,
   * in order; a reader that waits has nothing to read.
   */
  lemma NothingWithheld(cfg: Config, steps: seq<Step>, id: nat)
    requires cfg.tables.Sized() && id in Run(cfg, steps).cells
    ensures var c := Run(cfg, steps); var r := c.cells[id].recv;
            && id in Transfers(c.log)
            && (id in c.streams ==> Transfers(c.log)[id].yielded + r.queue == Transfers(c.log)[id].arrived)
            && (r.waiting ==> r.queue == [] && r.error.None? && !r.ended)
  {
    hide Run, Transfers;
    RunKeeps(cfg, steps);
  }

  /**
   * When an upload finishes, its stream is retired exactly if END_STREAM has been seen; the body
   * is left without an end, for good, exactly if END_STREAM was seen on an interim head only.
   */
  lemma HangsExactly(c: Conn, id: nat)
    requires Inv(c) && c.closed.None? && PumpIs(c, id, true) && id in c.streams
    ensures var c', t := FinishBody(c, id), Transfers(c.log)[id];
            && (id !in c'.streams <==> t.half)
            && (id !in c'.streams && !c'.cells[id].recv.ended <==> t.half && !t.finished)
  {
    hide Transfers, Honest, Matches;
  }

  /** DATA is thrown away uncredited exactly when it follows END_STREAM on a stream still mapped. */
  lemma DiscardsExactly(c: Conn, id: nat, data: bytes)
    requires Inv(c) && id in c.streams && data != []
    ensures Dropping(c.cells[id].recv, data) <==> Transfers(c.log)[id].finished
  {
    hide Transfers, Honest;
  }

  function StatusBlock(status: bytes): (block: bytes)
    requires |status| < 127
  {
    PlainLiteral(STATUS_NAME, status)
  }

  const EARLY_HINTS: bytes := [49, 48, 51]
  const OK_STATUS: bytes := [50, 48, 48]

  /** A 103 head with END_STREAM, a 200 head without, the upload ends, the body is read, the connection closes. */
  function HangSteps(): (steps: seq<Step>) {
    [DoRequest(0, [], true),
     DoBytes(Serialize(Headers(1, StatusBlock(EARLY_HINTS), true, true, None))),
     DoBytes(Serialize(Headers(1, StatusBlock(OK_STATUS), false, true, None))),
     DoFinish(1), DoClaim(1), DoRead(1), DoClose]
  }

  lemma Statuses()
    ensures Status([Header(STATUS_NAME, EARLY_HINTS, false)]) == 103 && Status([Header(STATUS_NAME, OK_STATUS, false)]) == 200
  {
    assert Decimal([]) == Some(0);
    assert [49][..0] == [] && [49, 48][..1] == [49] && EARLY_HINTS[..2] == [49, 48];
    assert Decimal([49]) == Some(1) && Decimal([49, 48]) == Some(10);
    assert [50][..0] == [] && [50, 48][..1] == [50] && OK_STATUS[..2] == [50, 48];
    assert Decimal([50]) == Some(2) && Decimal([50, 48]) == Some(20);
  }

  /** An interim head with END_STREAM closes the far side of the stream and nothing else. */
  lemma InterimArrives(cfg: Config, c: Conn)
    requires c.closed.None? && c.block.None? && c.inbox == [] && cfg.maxFrame >= 13
    requires 1 in c.streams && 1 in c.cells && !c.streams[1].gotHead && !c.streams[1].localClosed
    ensures var c' := OnBytes(cfg, c, Serialize(Headers(1, StatusBlock(EARLY_HINTS), true, true, None)));
            c' == c.(log := c'.log, streams := c.streams[1 := c.streams[1].(remoteClosed := true)])
  {
    hide OnBytes, Serialize, DecodeBlock, Status, PlainLiteral;
    Statuses();
    assert |StatusBlock(EARLY_HINTS)| == 13 by { BlockSize(EARLY_HINTS); }
    PlainLiteralDecodes(cfg.tables, c.table, STATUS_NAME, EARLY_HINTS);
    HeadersArrive(cfg, c, 1, StatusBlock(EARLY_HINTS), [Header(STATUS_NAME, EARLY_HINTS, false)], true);
    assert c.cells[1 := c.cells[1]] == c.cells;
  }

  lemma BlockSize(status: bytes)
    requires |status| == 3
    ensures |StatusBlock(status)| == 13
  {
  }

  lemma FinalArrives(cfg: Config, c: Conn)
    requires c.closed.None? && c.block.None? && c.inbox == [] && cfg.maxFrame >= 13
    requires 1 in c.streams && 1 in c.cells && !c.streams[1].gotHead && !c.streams[1].localClosed
    ensures var c' := OnBytes(cfg, c, Serialize(Headers(1, StatusBlock(OK_STATUS), false, true, None)));
            c' == c.(log := c'.log, streams := c.streams[1 := c.streams[1].(gotHead := true)],
                     cells := c.cells[1 := c.cells[1].(head := Answered(200, [Header(STATUS_NAME, OK_STATUS, false)]))])
  {
    hide OnBytes, Serialize, DecodeBlock, Status, PlainLiteral;
    Statuses();
    assert |StatusBlock(OK_STATUS)| == 13 by { BlockSize(OK_STATUS); }
    PlainLiteralDecodes(cfg.tables, c.table, STATUS_NAME, OK_STATUS);
    HeadersArrive(cfg, c, 1, StatusBlock(OK_STATUS), [Header(STATUS_NAME, OK_STATUS, false)], false);
  }

  predicate Hanging(c: Conn) {
    c.closed.Some? && 1 in c.cells &&
    var cell := c.cells[1];
    cell.body.Held? && cell.head.Answered? && cell.recv.waiting && !cell.recv.ended && cell.recv.error.None?
  }

  lemma HangTail(c: Conn)
    requires c.closed.None? && c.streams.Keys == {1} && 1 in c.cells && c.streams[1].gotHead && c.streams[1].remoteClosed
    requires var cell := c.cells[1]; cell.pump.Idle? && cell.body.Unclaimed? && cell.head.Answered? && cell.recv == EMPTY_INBOX
    ensures var c1 := FinishBody(c, 1);
            && 1 in c1.cells && Holds(Claim(c1, 1), 1) && Hanging(Close(Read(Claim(c1, 1), 1)))
  {
    var c1 := FinishBody(c, 1);
    assert c1.streams.Keys == {} && c1.cells[1] == c.cells[1].(pump := Finished);
    var c3 := Read(Claim(c1, 1), 1);
    assert c3 == Wait(Claim(c1, 1), 1);
    assert c3.closed.None? && c3.streams.Keys == {};
  }

  /** This run leaves the application waiting on a response body that nothing will ever end. */
  lemma BodyHangs(cfg: Config)
    requires cfg.tables.Sized() && cfg.maxFrame >= 13
    ensures Hanging(Run(cfg, HangSteps()))
  {
    hide Run, Request, Connect, OnBytes, Serialize, FinishBody, Claim, Read, Close, Hanging, StatusBlock;
    var s := HangSteps();
    assert s == [s[0]] + [s[1]] + [s[2]] + [s[3]] + [s[4]] + [s[5]] + [s[6]];
    var c1 := OneOpened(cfg);
    InterimArrives(cfg, c1);
    var c2 := OnBytes(cfg, c1, s[1].chunk);
    FinalArrives(cfg, c2);
    HangTail(OnBytes(cfg, c2, s[2].chunk));
    RunFirst(cfg, s[0]);
    RunNext(cfg, [s[0]], s[1]);
    RunNext(cfg, [s[0]] + [s[1]], s[2]);
    RunNext(cfg, [s[0]] + [s[1]] + [s[2]], s[3]);
    RunNext(cfg, [s[0]] + [s[1]] + [s[2]] + [s[3]], s[4]);
    RunNext(cfg, [s[0]] + [s[1]] + [s[2]] + [s[3]] + [s[4]], s[5]);
    RunNext(cfg, [s[0]] + [s[1]] + [s[2]] + [s[3]] + [s[4]] + [s[5]], s[6]);
  }
}
