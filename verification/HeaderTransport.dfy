/**
 * Header lists end to end: encode, split into frames, serialize, cut the bytes anywhere, decode,
 * reassemble and decode again.
 */
module HeaderTransport {
  import opened Common
  import opened Bytes
  import opened DynamicTable
  import HpackInteger
  import opened Hpack
  import opened Frames
  import opened FrameStream
  import opened Connection
  import opened Moves

  /** The read loop: it stops when the connection is closed. */
  function OnChunks(cfg: Config, c: Conn, chunks: seq<bytes>): (c': Conn)
    decreases |chunks|
  {
    if chunks == [] || c.closed.Some? then c else OnChunks(cfg, OnBytes(cfg, c, chunks[0]), chunks[1..])
  }

  // --- handling a frame neither looks at the undecoded bytes nor changes them ---

  lemma DoomBlind(c: Conn, x: bytes, ids: set<nat>, err: H2Error)
    ensures Doom(c.(inbox := x), ids, err) == Doom(c, ids, err).(inbox := x)
  {
    hide FailCell, Sleepers;
    assert Doom(c.(inbox := x), ids, err).cells == Doom(c, ids, err).cells;
  }

  lemma RetireBlind(c: Conn, x: bytes, id: nat)
    ensures Retire(c.(inbox := x), id) == Retire(c, id).(inbox := x)
  {
    var stays := !(id in c.streams && c.streams[id].localClosed && c.streams[id].remoteClosed);
    assert stays ==> Retire(c, id) == c;
  }

  lemma ResetBlind(c: Conn, x: bytes, id: nat, code: ErrorCode)
    ensures ResetStream(c.(inbox := x), id, code) == ResetStream(c, id, code).(inbox := x)
  {
    hide Doom;
    DoomBlind(Send(c, RstStream(id, code.Value())), x, {id}, H2Error(code, StreamReset));
  }

  lemma DestroyBlind(c: Conn, x: bytes, err: H2Error)
    ensures Destroy(c.(inbox := x), err) == Destroy(c, err).(inbox := x)
  {
    hide Doom, FailPongs;
    var shut := Log(c, TornDown(err)).(closed := Some(err), window := c.window.Shut(), parked := c.parked - c.window.wakers);
    DoomBlind(shut, x, c.streams.Keys, err);
  }

  lemma DataBlind(c: Conn, x: bytes, id: nat, data: bytes, endStream: bool)
    ensures ReceiveData(c.(inbox := x), id, data, endStream) == ReceiveData(c, id, data, endStream).(inbox := x)
  {
    hide DataOnRecv, Dropping, Send;
    if id in c.streams && id in c.cells {
    } else {
      SendBlind(Log(c, Returned(id, |data|)), x, WindowUpdate(0, |data| % U32_LIMIT));
    }
  }

  lemma SendBlind(c: Conn, x: bytes, f: Frame)
    ensures Send(c.(inbox := x), f) == Send(c, f).(inbox := x)
  {
  }

  lemma HeadersBlind(c: Conn, x: bytes, id: nat, headers: seq<Header>, endStream: bool)
    ensures ReceiveHeaders(c.(inbox := x), id, headers, endStream) == ReceiveHeaders(c, id, headers, endStream).(inbox := x)
  {
    hide HeadersOnCell, Interim;
  }

  function Rebased(o: Outcome, x: bytes): (o': Outcome) {
    Outcome(o.conn.(inbox := x), o.error)
  }

  lemma CompleteBlind(cfg: Config, c: Conn, x: bytes, pb: Pending)
    ensures CompleteBlock(cfg, c.(inbox := x), pb) == Rebased(CompleteBlock(cfg, c, pb), x)
  {
    hide DecodeBlock, ReceiveHeaders, Retire;
    var decoded := DecodeBlock(cfg.tables, c.table, Flatten(pb.fragments));
    var c1 := c.(block := None, table := decoded.table);
    if decoded.headers.Ok? && !pb.push {
      var headers := decoded.headers.value;
      var c2 := Log(c1, Block(pb.streamId, false, headers, pb.endStream));
      HeadersBlind(c2, x, pb.streamId, headers, pb.endStream);
      RetireBlind(ReceiveHeaders(c2, pb.streamId, headers, pb.endStream), x, pb.streamId);
    }
  }

  lemma GatherBlind(cfg: Config, c: Conn, x: bytes, pb: Pending, endHeaders: bool)
    ensures Gather(cfg, c.(inbox := x), pb, endHeaders) == Rebased(Gather(cfg, c, pb, endHeaders), x)
  {
    hide CompleteBlock;
    CompleteBlind(cfg, c.(block := Some(pb)), x, pb);
  }

  lemma SettingsBlind(c: Conn, x: bytes, s: Settings)
    ensures ApplySettings(c.(inbox := x), s) == Rebased(ApplySettings(c, s), x)
  {
    hide SetInitialWindow;
    if s.initialWindowSize.Some? {
      WindowBlind(c, x, s.initialWindowSize.value);
    }
  }

  lemma WindowBlind(c: Conn, x: bytes, w: nat)
    ensures SetInitialWindow(c.(inbox := x), w) == SetInitialWindow(c, w).(inbox := x)
  {
  }

  lemma GoawayBlind(c: Conn, x: bytes, last: nat, code: nat)
    ensures HandleGoaway(c.(inbox := x), last, code) == HandleGoaway(c, last, code).(inbox := x)
  {
    hide Doom, Destroy;
    var err := H2Error(CodeOr(code, NoError), PeerGoaway);
    DoomBlind(c.(goaway := true), x, Above(c.streams.Keys, last), err);
    DestroyBlind(WakeSlots(Doom(c.(goaway := true), Above(c.streams.Keys, last), err)), x, err);
  }

  lemma UpdateBlind(c: Conn, x: bytes, id: nat, n: nat)
    ensures HandleWindowUpdate(c.(inbox := x), id, n) == Rebased(HandleWindowUpdate(c, id, n), x)
  {
    hide ResetStream;
    ResetBlind(c, x, id, ProtocolError);
  }

  lemma PingBlind(c: Conn, x: bytes, ack: bool, opaque8: bytes)
    ensures HandlePing(c.(inbox := x), ack, opaque8) == HandlePing(c, ack, opaque8).(inbox := x)
  {
  }

  lemma HandleBlind(cfg: Config, c: Conn, x: bytes, f: Frame)
    ensures Handle(cfg, c.(inbox := x), f) == Rebased(Handle(cfg, c, f), x)
  {
    hide Gather, ApplySettings, ReceiveData, Retire, Doom, HandleWindowUpdate, HandleGoaway, HandlePing, Send;
    var c1 := Log(c, Event.Recv(f));
    match f
    case SettingsFrame(_, s) =>
      SettingsBlind(c1, x, s);
      SendBlind(ApplySettings(c1, s).conn, x, SettingsFrame(true, NO_SETTINGS));
    case Headers(id, fragment, endStream, endHeaders, _) =>
      GatherBlind(cfg, c1, x, Pending(id, false, endStream, 0, [fragment], |fragment|), endHeaders);
    case PushPromise(id, promised, fragment, endHeaders) =>
      GatherBlind(cfg, c1, x, Pending(id, true, false, promised, [fragment], |fragment|), endHeaders);
    case Continuation(id, fragment, endHeaders) =>
      if c.block.Some? {
        var pb := c.block.value;
        GatherBlind(cfg, c1, x, pb.(fragments := pb.fragments + [fragment], size := pb.size + |fragment|), endHeaders);
      }
    case Data(id, data, endStream) =>
      DataBlind(c1, x, id, data, endStream);
      RetireBlind(ReceiveData(c1, id, data, endStream), x, id);
    case RstStream(id, code) => DoomBlind(c1, x, {id}, H2Error(CodeOr(code, ProtocolError), PeerReset));
    case WindowUpdate(id, n) => UpdateBlind(c1, x, id, n);
    case Goaway(last, code, _) => GoawayBlind(c1, x, last, code);
    case Ping(ack, opaque8) => PingBlind(c1, x, ack, opaque8);
    case Prioritize(_, _) =>
  }

  lemma InboundBlind(cfg: Config, c: Conn, x: bytes, f: Frame)
    ensures Inbound(cfg, c.(inbox := x), f) == Inbound(cfg, c, f).(inbox := x)
  {
    hide Handle, Destroy;
    HandleBlind(cfg, c, x, f);
    var o := Handle(cfg, c, f);
    if o.error.Some? {
      DestroyBlind(Send(o.conn, Goaway(o.conn.highestPromised, o.error.value.code.Value(), [])), x, o.error.value);
    }
  }

  lemma {:induction false} InboundAllBlind(cfg: Config, c: Conn, x: bytes, fs: seq<Frame>)
    ensures InboundAll(cfg, c.(inbox := x), fs) == InboundAll(cfg, c, fs).(inbox := x)
    decreases |fs|
  {
    hide Handle, Inbound;
    if fs != [] {
      HandleBlind(cfg, c, x, fs[0]);
      InboundBlind(cfg, c, x, fs[0]);
      InboundAllBlind(cfg, Inbound(cfg, c, fs[0]), x, fs[1..]);
    }
  }

  // --- chunking, seen from the connection ---

  /** The connection is closed by nothing but a failing frame, if at all. */
  ghost predicate Orderly(cfg: Config, c: Conn, fs: seq<Frame>)
    decreases |fs|
  {
    fs != [] && Handle(cfg, c, fs[0]).error.None? ==>
      Inbound(cfg, c, fs[0]).closed.None? && Orderly(cfg, Inbound(cfg, c, fs[0]), fs[1..])
  }

  lemma ErrorShuts(cfg: Config, c: Conn, f: Frame)
    requires Handle(cfg, c, f).error.Some?
    ensures Inbound(cfg, c, f).closed.Some?
  {
    hide Handle, ConnectionError;
    ErrorCloses(Handle(cfg, c, f).conn, Handle(cfg, c, f).error.value);
  }

  lemma ErrorCloses(c: Conn, err: H2Error)
    ensures ConnectionError(c, err).closed == if c.closed.Some? then c.closed else Some(err)
  {
  }

  /** Handling frames can stop anywhere and go on, as long as the connection is open. */
  lemma {:induction false} InboundAllAppend(cfg: Config, c: Conn, a: seq<Frame>, b: seq<Frame>)
    requires c.closed.None? && Orderly(cfg, c, a + b)
    ensures var mid := InboundAll(cfg, c, a);
            if mid.closed.None? then InboundAll(cfg, c, a + b) == InboundAll(cfg, mid, b) && Orderly(cfg, mid, b)
            else InboundAll(cfg, c, a + b) == mid
    decreases |a|
  {
    hide Handle, Inbound;
    if a == [] {
      assert a + b == b;
    } else {
      assert (a + b)[0] == a[0] && (a + b)[1..] == a[1..] + b;
      if Handle(cfg, c, a[0]).error.Some? {
        ErrorShuts(cfg, c, a[0]);
      } else {
        InboundAllAppend(cfg, Inbound(cfg, c, a[0]), a[1..], b);
      }
    }
  }

  lemma {:induction false} OrderlyBlind(cfg: Config, c: Conn, x: bytes, fs: seq<Frame>)
    requires Orderly(cfg, c, fs)
    ensures Orderly(cfg, c.(inbox := x), fs)
    decreases |fs|
  {
    hide Handle, Inbound;
    if fs != [] && Handle(cfg, c, fs[0]).error.None? {
      HandleBlind(cfg, c, x, fs[0]);
      InboundBlind(cfg, c, x, fs[0]);
      OrderlyBlind(cfg, Inbound(cfg, c, fs[0]), x, fs[1..]);
    }
    HandleBlind(cfg, c, x, if fs == [] then Prioritize(0, Priority(0, 1, false)) else fs[0]);
  }

  /**
   * However the bytes are cut, the connection ends in the same state as if they had come at once,
   * as far as they decode; only what is left undecoded by a closed connection may differ.
   */
  lemma {:induction false} ChunksAgree(cfg: Config, c: Conn, chunks: seq<bytes>, whole: Scanned)
    requires c.closed.None? && Scan(c.inbox + Flatten(chunks), cfg.maxFrame) == Ok(whole)
    requires Next(c.inbox, cfg.maxFrame) == Incomplete && Orderly(cfg, c, whole.frames)
    ensures var once, cut := InboundAll(cfg, c, whole.frames), OnChunks(cfg, c, chunks);
            && cut == once.(inbox := cut.inbox) && (cut.closed.None? ==> cut.inbox == whole.rest)
    decreases |chunks|
  {
    hide Next, Handle, Inbound, InboundAll, Orderly;
    if chunks == [] {
      assert c.inbox + [] == c.inbox;
      NothingMore(cfg, c, whole);
    } else {
      var tail := Flatten(chunks[1..]);
      assert c.inbox + Flatten(chunks) == c.inbox + chunks[0] + tail;
      ScanAppend(c.inbox + chunks[0], tail, cfg.maxFrame);
      var first := Scan(c.inbox + chunks[0], cfg.maxFrame).value;
      var later := Scan(first.rest + tail, cfg.maxFrame).value;
      LeftoverIncomplete(c.inbox + chunks[0], cfg.maxFrame);
      var mid := InboundAll(cfg, c, first.frames);
      InboundAllAppend(cfg, c, first.frames, later.frames);
      InboundAllBlind(cfg, c, first.rest, first.frames);
      var next := mid.(inbox := first.rest);
      assert OnBytes(cfg, c, chunks[0]) == next;
      if mid.closed.None? {
        OrderlyBlind(cfg, mid, first.rest, later.frames);
        ChunksAgree(cfg, next, chunks[1..], later);
        InboundAllBlind(cfg, mid, first.rest, later.frames);
      }
    }
  }

  lemma NothingMore(cfg: Config, c: Conn, whole: Scanned)
    requires Next(c.inbox, cfg.maxFrame) == Incomplete && Scan(c.inbox, cfg.maxFrame) == Ok(whole)
    ensures whole == Scanned([], c.inbox) && InboundAll(cfg, c, whole.frames) == c
  {
  }

  // --- reassembly ---

  /** The trace after hearing these frames. */
  function Heard(log: Trace, fs: seq<Frame>): (log': Trace)
    decreases |fs|
  {
    if fs == [] then log else Heard(After(log, Event.Recv(fs[0])), fs[1..])
  }

  /** What a whole block does, wherever it was cut. */
  function Whole(cfg: Config, c: Conn, id: nat, endStream: bool, block: bytes): (o: Outcome) {
    if |block| > MAX_HEADER_BLOCK then Fails(c, EnhanceYourCalm, HeaderBlockTooLarge)
    else
      var decoded := DecodeBlock(cfg.tables, c.table, block);
      var c1 := c.(block := None, table := decoded.table);
      match decoded.headers
      case Err(e) => Outcome(c1, Some(e))
      case Ok(headers) => Fine(Deliver(c1, id, headers, endStream))
  }

  lemma CompleteIsWhole(cfg: Config, c: Conn, pb: Pending)
    requires !pb.push && |Flatten(pb.fragments)| <= MAX_HEADER_BLOCK
    ensures CompleteBlock(cfg, c.(block := Some(pb)), pb) == Whole(cfg, c, pb.streamId, pb.endStream, Flatten(pb.fragments))
  {
    hide DecodeBlock, ReceiveHeaders, Retire;
  }

  /** How a run of frames ends: as the block as a whole would, or closed for the same reason. */
  ghost predicate EndsAs(cfg: Config, c: Conn, fs: seq<Frame>, id: nat, endStream: bool, block: bytes) {
    var o := Whole(cfg, c.(log := Heard(c.log, fs)), id, endStream, block);
    && Orderly(cfg, c, fs)
    && if o.error.None? then InboundAll(cfg, c, fs) == o.conn else InboundAll(cfg, c, fs).closed == o.error
  }

  lemma LastFragment(cfg: Config, c: Conn, f: Frame, pb: Pending)
    requires c.closed.None? && !pb.push && pb.size == |Flatten(pb.fragments)|
    requires Handle(cfg, c, f) == Gather(cfg, Log(c, Event.Recv(f)), pb, true)
    ensures EndsAs(cfg, c, [f], pb.streamId, pb.endStream, Flatten(pb.fragments))
  {
    hide Handle, CompleteBlock, Whole, ConnectionError;
    var c1 := Log(c, Event.Recv(f));
    OneFrame(cfg, c, f);
    assert [f][1..] == [];
    assert Heard(c.log, [f]) == Heard(c1.log, []) == c1.log;
    assert c.(log := Heard(c.log, [f])) == c1;
    assert Orderly(cfg, Inbound(cfg, c, f), []);
    if pb.size <= MAX_HEADER_BLOCK {
      CompleteIsWhole(cfg, c1, pb);
      WholeOpen(cfg, c1, pb.streamId, pb.endStream, Flatten(pb.fragments));
      var o := Whole(cfg, c1, pb.streamId, pb.endStream, Flatten(pb.fragments));
      if o.error.Some? {
        ErrorCloses(o.conn, o.error.value);
      }
    } else {
      ErrorCloses(c1.(block := Some(pb)), H2Error(EnhanceYourCalm, HeaderBlockTooLarge));
      TooLarge(cfg, c1, pb.streamId, pb.endStream, Flatten(pb.fragments));
    }
  }

  lemma TooLarge(cfg: Config, c: Conn, id: nat, endStream: bool, block: bytes)
    requires |block| > MAX_HEADER_BLOCK
    ensures Whole(cfg, c, id, endStream, block) == Fails(c, EnhanceYourCalm, HeaderBlockTooLarge)
  {
  }

  lemma WholeOpen(cfg: Config, c: Conn, id: nat, endStream: bool, block: bytes)
    ensures var d := Whole(cfg, c, id, endStream, block).conn; d.closed == c.closed && d.inbox == c.inbox
  {
    hide DecodeBlock, HeadersOnCell, Interim;
  }

  lemma {:induction false} ContinuationsReassemble(cfg: Config, c: Conn, pb: Pending, rest: bytes, max: FrameLimit)
    requires c.closed.None? && c.block == Some(pb) && !pb.push && pb.size == |Flatten(pb.fragments)| <= MAX_HEADER_BLOCK
    ensures EndsAs(cfg, c, Continuations(pb.streamId, rest, max), pb.streamId, pb.endStream, Flatten(pb.fragments) + rest)
    decreases |rest|
  {
    hide Gather, Whole, Doom, SendAll;
    var last := |rest| <= max;
    var fragment := if last then rest else rest[..max];
    var f := Continuation(pb.streamId, fragment, last);
    var pb' := pb.(fragments := pb.fragments + [fragment], size := pb.size + |fragment|);
    FlattenSnoc(pb.fragments, fragment);
    assert Handle(cfg, c, f) == Gather(cfg, Log(c, Event.Recv(f)), pb', last);
    if last {
      LastFragment(cfg, c, f, pb');
    } else {
      var more := Continuations(pb.streamId, rest[max..], max);
      assert rest == fragment + rest[max..];
      assert Flatten(pb'.fragments) + rest[max..] == Flatten(pb.fragments) + rest;
      if pb'.size <= MAX_HEADER_BLOCK {
        var c1 := Log(c, Event.Recv(f)).(block := Some(pb'));
        ContinuationsReassemble(cfg, c1, pb', rest[max..], max);
        FirstOfMany(cfg, c, f, pb', more, Flatten(pb.fragments) + rest);
      } else {
        Overflow(cfg, c, f, pb', more, Flatten(pb.fragments) + rest);
      }
    }
  }

  lemma FirstOfMany(cfg: Config, c: Conn, f: Frame, pb: Pending, more: seq<Frame>, block: bytes)
    requires c.closed.None? && pb.size <= MAX_HEADER_BLOCK
    requires Handle(cfg, c, f) == Gather(cfg, Log(c, Event.Recv(f)), pb, false)
    requires EndsAs(cfg, Log(c, Event.Recv(f)).(block := Some(pb)), more, pb.streamId, pb.endStream, block)
    ensures EndsAs(cfg, c, [f] + more, pb.streamId, pb.endStream, block)
  {
    hide Handle, CompleteBlock, Doom;
    assert ([f] + more)[1..] == more && ([f] + more)[0] == f;
    var c1 := Log(c, Event.Recv(f)).(block := Some(pb));
    assert Handle(cfg, c, f) == Fine(c1);
    assert Heard(c.log, [f] + more) == Heard(c1.log, more);
    SameWhole(cfg, c.(log := Heard(c1.log, more)), Some(pb), pb.streamId, pb.endStream, block);
    hide Whole;
  }

  /** A pending block is forgotten by the whole. */
  lemma SameWhole(cfg: Config, c: Conn, b: Option<Pending>, id: nat, endStream: bool, block: bytes)
    ensures var o, o' := Whole(cfg, c, id, endStream, block), Whole(cfg, c.(block := b), id, endStream, block);
            o.error == o'.error && (o.error.None? ==> o == o')
  {
    hide DecodeBlock, Deliver;
  }

  lemma Overflow(cfg: Config, c: Conn, f: Frame, pb: Pending, more: seq<Frame>, block: bytes)
    requires c.closed.None? && pb.size > MAX_HEADER_BLOCK && |block| >= pb.size
    requires Handle(cfg, c, f) == Gather(cfg, Log(c, Event.Recv(f)), pb, false)
    ensures EndsAs(cfg, c, [f] + more, pb.streamId, pb.endStream, block)
  {
    hide Handle, CompleteBlock, ConnectionError;
    assert ([f] + more)[0] == f;
    ErrorCloses(Log(c, Event.Recv(f)).(block := Some(pb)), H2Error(EnhanceYourCalm, HeaderBlockTooLarge));
  }

  lemma Reassembled(cfg: Config, c: Conn, id: nat, block: bytes, endStream: bool, max: FrameLimit)
    requires c.closed.None? && c.block.None?
    ensures EndsAs(cfg, c, SplitHeaders(id, block, endStream, max), id, endStream, block)
  {
    hide Gather, Whole, Doom;
    var whole := |block| <= max;
    var fragment := if whole then block else block[..max];
    var f := Headers(id, fragment, endStream, whole, None);
    var pb := Pending(id, false, endStream, 0, [fragment], |fragment|);
    FlattenSnoc([], fragment);
    assert [] + [fragment] == [fragment] && [] + fragment == fragment;
    assert Flatten(pb.fragments) == fragment;
    assert Handle(cfg, c, f) == Gather(cfg, Log(c, Event.Recv(f)), pb, whole);
    if whole {
      LastFragment(cfg, c, f, pb);
    } else {
      var more := Continuations(id, block[max..], max);
      assert block == fragment + block[max..];
      if pb.size <= MAX_HEADER_BLOCK {
        ContinuationsReassemble(cfg, Log(c, Event.Recv(f)).(block := Some(pb)), pb, block[max..], max);
        FirstOfMany(cfg, c, f, pb, more, block);
      } else {
        Overflow(cfg, c, f, pb, more, block);
      }
    }
  }

  // --- the theorem ---

  lemma {:induction false} FragmentsSendable(id: nat, rest: bytes, max: FrameLimit, limit: nat)
    requires id < U31 && max <= limit
    ensures Sendable(Continuations(id, rest, max), limit)
    decreases |rest|
  {
    if |rest| > max {
      FragmentsSendable(id, rest[max..], max, limit);
    }
  }

  lemma SplitSendable(id: nat, block: bytes, endStream: bool, max: FrameLimit, limit: nat)
    requires id < U31 && max <= limit
    ensures Sendable(SplitHeaders(id, block, endStream, max), limit)
  {
    if |block| > max {
      FragmentsSendable(id, block[max..], max, limit);
    }
  }

  /** The bytes of a header block as the sender writes them. */
  function OnTheWire(id: nat, block: bytes, endStream: bool, max: FrameLimit): (b: bytes)
    requires id < U31
  {
    SplitSendable(id, block, endStream, max, max);
    SerializeAll(SplitHeaders(id, block, endStream, max))
  }

  /** However a block was split and its bytes were cut, it ends as the whole would. */
  lemma BlockArrives(cfg: Config, c: Conn, id: nat, block: bytes, endStream: bool, max: FrameLimit, chunks: seq<bytes>)
    requires max <= cfg.maxFrame && id < U31 && c.closed.None? && c.block.None? && c.inbox == []
    requires Flatten(chunks) == OnTheWire(id, block, endStream, max)
    ensures var fs := SplitHeaders(id, block, endStream, max);
            var o := Whole(cfg, c.(log := Heard(c.log, fs)), id, endStream, block);
            var c' := OnChunks(cfg, c, chunks);
            if o.error.None? then c' == o.conn else c'.closed == o.error
  {
    hide Next, Whole, SplitHeaders, SerializeAll, InboundAll, OnChunks, Orderly, Heard, Sendable;
    var fs := SplitHeaders(id, block, endStream, max);
    SplitSendable(id, block, endStream, max, cfg.maxFrame);
    assert forall i :: 0 <= i < |fs| ==> Typed(fs[i]) by { SendableTyped(fs, cfg.maxFrame); }
    ScanSerialized(fs, [], cfg.maxFrame);
    assert SerializeAll(fs) + [] == SerializeAll(fs) && c.inbox + Flatten(chunks) == Flatten(chunks);
    EmptyScan(cfg.maxFrame);
    assert fs + [] == fs;
    Reassembled(cfg, c, id, block, endStream, max);
    ChunksAgree(cfg, c, chunks, Scanned(fs, []));
    WholeOpen(cfg, c.(log := Heard(c.log, fs)), id, endStream, block);
  }

  /**
   * What a whole block does to the request: a first final head answers it, any block after that is
   * trailers, and an interim one tells it nothing; whichever ends both directions of a stream
   * without a head, the request is abandoned. A stream that is not mapped is told nothing.
   */
  predicate Informed(c: Conn, c': Conn, id: nat, headers: seq<Header>, endStream: bool) {
    if id in c.streams && id in c.cells then
      && c'.cells.Keys == c.cells.Keys
      && (forall i :: i in c.cells && i != id ==> c'.cells[i] == c.cells[i])
      && var s, cell, cell' := c.streams[id], c.cells[id], c'.cells[id];
      && cell'.recv.queue == cell.recv.queue && cell'.recv.error == cell.recv.error
      && (if s.gotHead then cell'.head == cell.head && cell'.trailers == Some(headers)
          else
            && cell'.trailers == cell.trailers
            && cell'.head == if !Interim(headers) then Answered(Status(headers), headers)
                             else if endStream && s.localClosed then Abandoned else cell.head)
    else c'.cells == c.cells
  }

  lemma DeliverInforms(c: Conn, id: nat, headers: seq<Header>, endStream: bool)
    ensures Informed(c, Deliver(c, id, headers, endStream), id, headers, endStream)
  {
    hide Status, Interim;
  }

  /**
   * For every header list, every way the block is split at a sender's frame limit that the
   * receiver accepts, and every way the bytes are then cut into chunks: if the block is at most
   * 1 MiB, the receiver gets the same fields in order, names in lower case, and its dynamic
   * table is as before; otherwise it closes the connection, saying that the block is too large.
   */
  lemma HeadersArriveWhole(cfg: Config, c: Conn, id: nat, hs: seq<Header>, endStream: bool, max: FrameLimit, chunks: seq<bytes>)
    requires cfg.tables.Good() && max <= cfg.maxFrame && id < U31
    requires c.closed.None? && c.block.None? && c.inbox == []
    requires Flatten(chunks) == OnTheWire(id, EncodeHeaders(cfg.tables, hs), endStream, max)
    ensures var block := EncodeHeaders(cfg.tables, hs);
            var fs := SplitHeaders(id, block, endStream, max);
            var c' := OnChunks(cfg, c, chunks);
            if |block| > MAX_HEADER_BLOCK then c'.closed == Some(H2Error(EnhanceYourCalm, HeaderBlockTooLarge))
            else
              && c' == Deliver(c.(log := Heard(c.log, fs)), id, Lowered(hs), endStream)
              && Informed(c, c', id, Lowered(hs), endStream)
  {
    hide OnTheWire, DecodeBlock, EncodeHeaders, Lowered, Fits, SplitHeaders, OnChunks, Deliver, Heard;
    var block := EncodeHeaders(cfg.tables, hs);
    var c1 := c.(log := Heard(c.log, SplitHeaders(id, block, endStream, max)));
    BlockArrives(cfg, c, id, block, endStream, max, chunks);
    if |block| <= MAX_HEADER_BLOCK {
      assert MAX_HEADER_BLOCK < HpackInteger.Bound(7);
      ShortBlockFits(cfg.tables, hs);
      HpackRoundTrip(cfg.tables, c.table, hs);
      assert c1.(block := None, table := c.table) == c1;
      DeliverInforms(c1, id, Lowered(hs), endStream);
    }
  }

  lemma SendableTyped(fs: seq<Frame>, max: nat)
    requires Sendable(fs, max)
    ensures forall i :: 0 <= i < |fs| ==> Typed(fs[i])
  {
  }

  lemma EmptyScan(max: nat)
    ensures Scan([], max) == Ok(Scanned([], [])) && Next([], max) == Incomplete
  {
  }
}
