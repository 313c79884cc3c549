/** The connection as the source keeps it: one object, updated in place, proved against `Connection`. */
module ConnStates {
  import opened Common
  import opened Bytes
  import opened DynamicTable
  import opened Hpack
  import opened HpackLoops
  import opened Frames
  import opened FrameStream
  import opened FrameLoops
  import opened Flow
  import opened Connection
  import opened Moves

  /** The frames of a trace that were queued for the peer, in order. */
  function Outbound(log: Trace): (fs: seq<Frame>) {
    match log
    case Begin => []
    case After(past, Sent(f)) => Outbound(past) + [f]
    case After(past, _) => Outbound(past)
  }

  lemma {:induction false} DoomMore(c: Conn, a: set<nat>, i: nat, err: H2Error)
    requires i !in a
    ensures Doom(Doom(c, a, err), {i}, err) == Doom(c, a + {i}, err)
  {
    var c1, c2 := Doom(Doom(c, a, err), {i}, err), Doom(c, a + {i}, err);
    assert c1.streams == c2.streams;
    assert c1.cells == c2.cells;
    assert Sleepers(c.streams, a + {i}) == Sleepers(c.streams, a) + Sleepers(c.streams, {i});
    SleepersOne(c.streams, i);
    SleepersOne(c.streams - a, i);
    assert c1.parked == c2.parked;
  }

  lemma SleepersOne(streams: map<nat, Strm>, i: nat)
    ensures Sleepers(streams, {i}) == if i in streams then streams[i].window.wakers else {}
  {
  }

  lemma DoomOne(c: Conn, id: nat, err: H2Error)
    requires id in c.streams ==> id in c.cells
    ensures Doom(c, {id}, err)
         == if id in c.streams
            then c.(streams := c.streams - {id},
                    cells := c.cells[id := FailCell(c.cells[id], c.streams[id].gotHead, err)],
                    parked := c.parked - c.streams[id].window.wakers)
            else c
  {
    hide FailCell;
    SleepersOne(c.streams, id);
    var d := Doom(c, {id}, err);
    if id in c.streams {
      assert d.cells == c.cells[id := FailCell(c.cells[id], c.streams[id].gotHead, err)];
    } else {
      assert c.streams - {id} == c.streams && d.cells == c.cells && c.parked - {} == c.parked;
    }
  }

  lemma DoomNone(c: Conn, err: H2Error)
    ensures Doom(c, {}, err) == c
  {
    assert c.streams - {} == c.streams;
    assert Doom(c, {}, err).cells == c.cells;
    assert Sleepers(c.streams, {}) == {};
  }

  ghost function Odd(ids: set<nat>): (odd: set<nat>) {
    set i | i in ids && i % 2 == 1
  }

  class ConnState {
    const cfg: Config
    const decoder: HpackDecoder
    const frameDecoder: FrameDecoder
    const connSendWindow: SendWindow

    var outQueue: seq<Frame>
    ghost var log: Trace
    var streams: map<nat, Strm>
    var cells: map<nat, Cell>
    var nextStreamId: nat
    var remote: Remote
    var pendingBlock: Option<Pending>
    var pings: map<bytes, nat>
    var pongs: map<nat, Pong>
    var nextPong: nat
    var pingCounter: nat
    var slotWaiters: seq<nat>
    var closed: bool
    var closeError: Option<H2Error>
    var goawayReceived: bool
    var highestPromised: nat
    var parked: set<nat>

    /** The connection and the objects only it holds. */
    ghost function Repr(): (objects: set<object>) {
      {this, decoder, frameDecoder, connSendWindow}
    }

    ghost predicate Valid()
      reads this, decoder, frameDecoder
    {
      && decoder as object != this && frameDecoder as object != this && connSendWindow as object != this
      && decoder as object != frameDecoder && decoder as object != connSendWindow
      && frameDecoder as object != connSendWindow
      && Linked() && closed == closeError.Some? && outQueue == Outbound(log)
      && streams.Keys <= cells.Keys
    }

    /** The two decoders are in order and run with our settings. */
    ghost predicate Linked()
      reads decoder, frameDecoder
    {
      && cfg.tables.Sized() && decoder.tb == cfg.tables && decoder.Valid()
      && frameDecoder.maxFrameSize == cfg.maxFrame && frameDecoder.Valid()
    }

    ghost function View(): (c: Conn)
      reads this, decoder, frameDecoder, connSendWindow
    {
      Conn(log, streams, cells, nextStreamId, parked, connSendWindow.View(), remote, pendingBlock, decoder.View(),
           pings, pongs, nextPong, pingCounter, slotWaiters, closeError, goawayReceived, highestPromised,
           frameDecoder.pending)
    }

    constructor (cfg: Config)
      requires cfg.tables.Sized()
      ensures Valid() && fresh(Repr()) && this.cfg == cfg && View() == Connect(cfg)
    {
      this.cfg := cfg;
      decoder := new HpackDecoder(cfg.tables, cfg.headerTable);
      frameDecoder := new FrameDecoder(cfg.maxFrame);
      connSendWindow := new SendWindow(SPEC_WINDOW);
      outQueue, log, streams, cells, nextStreamId := [], Begin, map[], map[], 1;
      remote, pendingBlock, pings, pongs, nextPong, pingCounter := INITIAL_REMOTE, None, map[], map[], 0, 0;
      slotWaiters, closed, closeError, goawayReceived, highestPromised, parked := [], false, None, false, 0, {};
      new;
      assert Valid() && View() == Quiet(cfg);
      Start();
    }

    method Start()
      requires Valid() && View() == Quiet(cfg)
      modifies this`outQueue, this`log
      ensures Valid() && View() == Connect(cfg)
    {
      hide Linked, Outbound, HpackDecoder.View, SendWindow.View;
      SendFrame(SettingsFrame(false, OurSettings(cfg)));
      if cfg.connectionWindow > SPEC_WINDOW {
        SendFrame(WindowUpdate(0, cfg.connectionWindow - SPEC_WINDOW));
      }
    }

    method SendFrame(f: Frame)
      requires Valid()
      modifies this`outQueue, this`log
      ensures Valid() && View() == Send(old(View()), f)
    {
      if !closed {
        outQueue := outQueue + [f];
        log := After(log, Sent(f));
      }
    }

    ghost method Note(e: Event)
      requires Valid() && !e.Sent?
      modifies this`log
      ensures Valid() && View() == Log(old(View()), e)
    {
      log := After(log, e);
    }

    // --- streams ---

    /** Remove one stream, if it is mapped, and fail it: its request, its body and its upload. */
    method RemoveAndFail(id: nat, err: H2Error)
      requires Valid()
      modifies this`streams, this`cells, this`parked
      ensures Valid() && View() == Doom(old(View()), {id}, err)
    {
      hide Linked, HpackDecoder.View, SendWindow.View, Doom;
      DoomOne(View(), id, err);
      if id in streams {
        var s, cell := streams[id], cells[id];
        streams := streams - {id};
        parked := parked - s.window.wakers; // the window closes and wakes
        if !s.gotHead {
          cell := cell.(head := Failed(err));
        }
        var r := cell.recv;
        if r.error.None? {
          r := r.(error := Some(err));
        }
        cells := cells[id := cell.(recv := r.(ended := true, waiting := false))];
      }
    }

    method RemoveAndFailAll(ids: set<nat>, err: H2Error)
      requires Valid()
      modifies this`streams, this`cells, this`parked
      ensures Valid() && View() == Doom(old(View()), ids, err)
    {
      hide Doom, Linked, HpackDecoder.View, SendWindow.View;
      ghost var c := View();
      DoomNone(c, err);
      var left := ids;
      assert ids - left == {};
      while left != {}
        invariant left <= ids && Valid() && View() == Doom(c, ids - left, err)
        decreases |left|
      {
        var id :| id in left;
        DoomMore(c, ids - left, id, err);
        assert ids - (left - {id}) == (ids - left) + {id};
        RemoveAndFail(id, err);
        left := left - {id};
      }
      assert ids - {} == ids;
    }

    method WakeSlotWaiters()
      requires Valid()
      modifies this`slotWaiters
      ensures Valid() && View() == WakeSlots(old(View()))
    {
      slotWaiters := []; // each parked request runs its loop again
    }

    method RetireIfFullyClosed(id: nat)
      requires Valid()
      modifies this`streams, this`cells, this`slotWaiters
      ensures Valid() && View() == Retire(old(View()), id)
    {
      if id in streams && streams[id].localClosed && streams[id].remoteClosed {
        if !streams[id].gotHead {
          cells := cells[id := cells[id].(head := Abandoned)];
        }
        streams := streams - {id};
        WakeSlotWaiters();
      }
    }

    method ResetStream(id: nat, code: ErrorCode)
      requires Valid()
      modifies this
      ensures Valid() && View() == Connection.ResetStream(old(View()), id, code)
    {
      hide Doom, Send;
      SendFrame(RstStream(id, code.Value()));
      RemoveAndFail(id, H2Error(code, StreamReset));
      WakeSlotWaiters();
    }

    method Shut(err: H2Error)
      requires Valid() && !closed
      modifies this`log, this`closed, this`closeError, this`parked, connSendWindow
      ensures Valid() && View() == Log(old(View()), TornDown(err)).(closed := Some(err), window := old(View()).window.Shut(),
                                                parked := old(View()).parked - old(View()).window.wakers)
    {
      hide Linked, Outbound, HpackDecoder.View, SendWindow.View;
      Note(TornDown(err));
      closed, closeError := true, Some(err);
      var woken := connSendWindow.Close();
      parked := parked - woken;
    }

    method Destroy(err: H2Error)
      requires Valid()
      modifies this, connSendWindow
      ensures Valid() && View() == Connection.Destroy(old(View()), err)
    {
      hide Doom, FailPongs, Linked, Outbound, HpackDecoder.View, SendWindow.View;
      if closed {
        return;
      }
      ghost var c := View();
      Shut(err);
      ghost var shut := View();
      RemoveAndFailAll(streams.Keys, err);
      DoomPings(shut, c.streams.Keys, err);
      FailInFlight(err);
    }

    method FailInFlight(err: H2Error)
      requires Valid()
      modifies this`pings, this`pongs, this`slotWaiters
      ensures Valid()
      ensures View() == old(View()).(pings := map[], pongs := FailPongs(old(pongs), old(pings), err), waiters := [])
    {
      hide FailPongs, Linked, Outbound, HpackDecoder.View, SendWindow.View;
      var failed := FailPings(pings, pongs, err);
      pings, pongs, slotWaiters := map[], failed, []; // parked requests wake and see the closed state
    }

    method ConnectionError(err: H2Error)
      requires Valid()
      modifies this, connSendWindow
      ensures Valid() && View() == Connection.ConnectionError(old(View()), err)
    {
      hide Connection.Destroy;
      SendFrame(Goaway(highestPromised, err.code.Value(), []));
      Destroy(err);
    }

    // --- receiving ---

    method ReceiveData(id: nat, data: bytes, endStream: bool)
      requires Valid()
      modifies this
      ensures Valid() && View() == Connection.ReceiveData(old(View()), id, data, endStream)
    {
      hide Connection.Send, DataOnRecv, Dropping, Linked, Outbound, HpackDecoder.View, SendWindow.View;
      if id in streams {
        BufferData(id, data, endStream);
      } else if data != [] {
        // nobody will read it: the connection window gets it back at once
        Note(Returned(id, |data|));
        SendFrame(WindowUpdate(0, |data| % U32_LIMIT));
      }
    }

    /** A stream and its cell are replaced together. */
    method Put(id: nat, s: Strm, cell: Cell)
      requires Valid()
      modifies this`streams, this`cells
      ensures Valid() && View() == SetCell(SetStream(old(View()), id, s), id, cell)
    {
      hide Linked, Outbound, HpackDecoder.View, SendWindow.View;
      streams, cells := streams[id := s], cells[id := cell];
    }

    method BufferData(id: nat, data: bytes, endStream: bool)
      requires Valid() && id in streams
      modifies this`log, this`streams, this`cells
      ensures Valid() && View() == Connection.ReceiveData(old(View()), id, data, endStream)
    {
      LiveData(View(), id, data, endStream);
      hide Connection.ReceiveData, DataOnRecv, Dropping, Linked, Outbound, HpackDecoder.View, SendWindow.View;
      var r, dropped := PushData(cells[id].recv, data, endStream);
      if dropped {
        Note(Discarded(id, |data|));
      }
      Put(id, streams[id].(remoteClosed := streams[id].remoteClosed || endStream), cells[id].(recv := r));
    }

    method ReceiveHeaders(id: nat, headers: seq<Header>, endStream: bool)
      requires Valid()
      modifies this`streams, this`cells
      ensures Valid() && View() == Connection.ReceiveHeaders(old(View()), id, headers, endStream)
    {
      hide Interim, Status, Linked, Outbound, HpackDecoder.View, SendWindow.View;
      if id !in streams {
        return;
      }
      var s, cell := streams[id], cells[id];
      var status := Status(headers);
      assert Interim(headers) == (100 <= status < 200) by { InterimIs(headers); }
      if s.gotHead || !(100 <= status < 200) {
        if !s.gotHead {
          s := s.(gotHead := true);
          cell := cell.(head := Answered(status, headers));
        } else {
          cell := cell.(trailers := Some(headers)); // a second block on an open stream
        }
        if endStream && !cell.recv.ended {
          cell := cell.(recv := cell.recv.(ended := true, waiting := false));
        }
      }
      cells := cells[id := cell];
      streams := streams[id := s.(remoteClosed := s.remoteClosed || endStream)];
    }

    method GuardHeaderBlockSize() returns (err: Option<H2Error>)
      requires Valid() && pendingBlock.Some?
      ensures err == if pendingBlock.value.size > MAX_HEADER_BLOCK
                     then Some(H2Error(EnhanceYourCalm, HeaderBlockTooLarge)) else None
    {
      if pendingBlock.value.size > MAX_HEADER_BLOCK {
        return Some(H2Error(EnhanceYourCalm, HeaderBlockTooLarge));
      }
      return None;
    }

    method DeliverHeaders(id: nat, headers: seq<Header>, endStream: bool)
      requires Valid()
      modifies this
      ensures Valid() && View() == Deliver(old(View()), id, headers, endStream)
    {
      hide Connection.ReceiveHeaders, Retire, Linked, Outbound, HpackDecoder.View, SendWindow.View;
      Note(Block(id, false, headers, endStream));
      ReceiveHeaders(id, headers, endStream);
      if endStream {
        RetireIfFullyClosed(id);
      }
    }

    /** Pushes are not surfaced: they are refused. */
    method RefusePush(promised: nat, headers: seq<Header>)
      requires Valid()
      modifies this
      ensures Valid() && View() == Connection.RefusePush(old(View()), promised, headers)
    {
      hide Connection.Send, Linked, Outbound, HpackDecoder.View, SendWindow.View;
      Note(Block(promised, true, headers, false));
      if promised > highestPromised {
        highestPromised := promised;
      }
      SendFrame(RstStream(promised, RefusedStream.Value()));
    }

    method CompleteHeaderBlock() returns (err: Option<H2Error>)
      requires Valid() && pendingBlock.Some?
      modifies this, decoder
      ensures Valid() && Outcome(View(), err) == CompleteBlock(cfg, old(View()), old(pendingBlock).value)
    {
      hide DecodeBlock, Deliver, Connection.RefusePush, Outbound, HpackDecoder.Valid, SendWindow.View;
      ghost var c := View();
      var pb := pendingBlock.value;
      pendingBlock := None;
      var block := Concat(pb.fragments);
      var decoded := decoder.Decode(block);
      if decoded.Err? {
        return Some(decoded.error);
      }
      Completed(cfg, c, pb);
      if pb.push {
        RefusePush(pb.promised, decoded.value);
      } else {
        DeliverHeaders(pb.streamId, decoded.value, pb.endStream);
      }
      return None;
    }

    /** Store a block with its latest fragment, bound it, and complete it at END_HEADERS. */
    method Store(pb: Pending, endHeaders: bool) returns (err: Option<H2Error>)
      requires Valid()
      modifies this, decoder
      ensures Valid() && Outcome(View(), err) == Gather(cfg, old(View()), pb, endHeaders)
    {
      hide CompleteBlock, Linked, Outbound, HpackDecoder.View, SendWindow.View;
      pendingBlock := Some(pb);
      err := GuardHeaderBlockSize();
      if err.None? && endHeaders {
        err := CompleteHeaderBlock();
      }
    }

    method AdjustStreamWindows(delta: int)
      requires Valid()
      modifies this`streams, this`parked
      ensures Valid() && View() == AdjustAll(old(View()), delta)
    {
      hide Linked, Outbound, HpackDecoder.View, SendWindow.View;
      ghost var c := View();
      var woken;
      streams, woken := AdjustWindows(streams, delta);
      parked := parked - woken;
    }

    method ApplyRemoteSettings(s: Settings) returns (err: Option<H2Error>)
      requires Valid()
      modifies this
      ensures Valid() && Outcome(View(), err) == ApplySettings(old(View()), s)
    {
      hide AdjustAll;
      if s.initialWindowSize.Some? {
        if s.initialWindowSize.value > MAX_WINDOW {
          return Some(H2Error(FlowControlError, InitialWindowTooLarge));
        }
        var delta := s.initialWindowSize.value - remote.initialWindow;
        remote := remote.(initialWindow := s.initialWindowSize.value);
        AdjustStreamWindows(delta);
      }
      err := ApplyOtherSettings(s);
    }

    method ApplyOtherSettings(s: Settings) returns (err: Option<H2Error>)
      requires Valid()
      modifies this`remote, this`slotWaiters
      ensures Valid()
      ensures Outcome(View(), err) == if GoodFrameSize(s) then Fine(Tune(old(View()), s))
                                      else Fails(old(View()), ProtocolError, MaxFrameSizeOutOfRange)
    {
      hide Linked, Outbound, HpackDecoder.View, SendWindow.View;
      var r := remote;
      if s.maxFrameSize.Some? {
        if !(16384 <= s.maxFrameSize.value <= 0xff_ffff) {
          return Some(H2Error(ProtocolError, MaxFrameSizeOutOfRange));
        }
        r := r.(maxFrameSize := s.maxFrameSize.value);
      }
      if s.headerTableSize.Some? {
        r := r.(headerTableSize := s.headerTableSize.value);
      }
      if s.enablePush.Some? {
        r := r.(enablePush := s.enablePush.value);
      }
      if s.maxConcurrentStreams.Some? {
        r := r.(maxConcurrent := s.maxConcurrentStreams.value);
        slotWaiters := []; // a raised limit may free parked requests
      }
      remote := r;
      return None;
    }

    method OnWindowUpdate(id: nat, n: nat) returns (err: Option<H2Error>)
      requires Valid()
      modifies this, connSendWindow
      ensures Valid() && Outcome(View(), err) == HandleWindowUpdate(old(View()), id, n)
    {
      hide Connection.ResetStream;
      if n == 0 {
        if id == 0 {
          return Some(H2Error(ProtocolError, ZeroWindowUpdate));
        }
        ResetStream(id, ProtocolError);
      } else if id == 0 {
        var woken := connSendWindow.Update(n);
        parked := parked - woken;
      } else if id in streams {
        parked := parked - streams[id].window.WokenBy(n);
        streams := streams[id := streams[id].(window := streams[id].window.Granted(n))];
      }
      return None;
    }

    method OnPing(ack: bool, opaque8: bytes)
      requires Valid()
      modifies this
      ensures Valid() && View() == HandlePing(old(View()), ack, opaque8)
    {
      if ack {
        if opaque8 in pings {
          pongs := pongs[pings[opaque8] := Acked];
          pings := pings - {opaque8};
        }
      } else {
        SendFrame(Ping(true, opaque8));
      }
    }

    method OnGoaway(last: nat, code: nat)
      requires Valid()
      modifies this, connSendWindow
      ensures Valid() && View() == HandleGoaway(old(View()), last, code)
    {
      hide Doom, Connection.Destroy;
      goawayReceived := true;
      var err := H2Error(CodeOr(code, NoError), PeerGoaway);
      var doomed := set id | id in streams.Keys && id > last;
      RemoveAndFailAll(doomed, err);
      WakeSlotWaiters(); // parked requests now reject
      if code != 0 {
        Destroy(err);
      }
    }

    method Dispatch(f: Frame) returns (err: Option<H2Error>)
      requires Valid()
      modifies Repr()
      ensures Valid() && Outcome(View(), err) == Handle(cfg, old(View()), f)
    {
      hide Gather, ApplySettings, Connection.ReceiveData, Retire, Doom, HandleWindowUpdate, HandlePing, HandleGoaway, Connection.Send,
           Linked, Outbound, HpackDecoder.View, SendWindow.View;
      Note(Event.Recv(f));
      if pendingBlock.Some? && !f.Continuation? {
        return Some(H2Error(ProtocolError, ExpectedContinuation));
      }
      err := None;
      match f {
        case SettingsFrame(ack, s) =>
          if !ack {
            err := ApplyRemoteSettings(s);
            if err.None? {
              SendFrame(SettingsFrame(true, NO_SETTINGS));
            }
          }
        case Headers(id, fragment, endStream, endHeaders, _) =>
          err := Store(Pending(id, false, endStream, 0, [fragment], |fragment|), endHeaders);
        case PushPromise(id, promised, fragment, endHeaders) =>
          err := Store(Pending(id, true, false, promised, [fragment], |fragment|), endHeaders);
        case Continuation(id, fragment, endHeaders) =>
          if pendingBlock.None? || pendingBlock.value.streamId != id {
            return Some(H2Error(ProtocolError, UnexpectedContinuation));
          }
          var pb := pendingBlock.value;
          err := Store(pb.(fragments := pb.fragments + [fragment], size := pb.size + |fragment|), endHeaders);
        case Data(id, data, endStream) =>
          ReceiveData(id, data, endStream);
          if endStream {
            RetireIfFullyClosed(id);
          }
        case RstStream(id, code) =>
          RemoveAndFail(id, H2Error(CodeOr(code, ProtocolError), PeerReset));
        case WindowUpdate(id, n) => err := OnWindowUpdate(id, n);
        case Ping(ack, opaque8) => OnPing(ack, opaque8);
        case Goaway(last, code, _) => OnGoaway(last, code);
        case Prioritize(_, _) =>
      }
    }

    method OnBytes(chunk: bytes)
      requires Valid()
      modifies Repr()
      ensures Valid() && View() == Connection.OnBytes(cfg, old(View()), chunk)
    {
      hide Handle, Inbound, Connection.ConnectionError, Scan, Outbound, SendWindow.View, Next;
      var frames := PushBytes(chunk);
      if frames.Err? {
        ConnectionError(frames.error);
        return;
      }
      DispatchAll(frames.value);
    }

    method PushBytes(chunk: bytes) returns (frames: Result<seq<Frame>>)
      requires Valid()
      modifies frameDecoder
      ensures Valid()
      ensures match Scan(old(View()).inbox + chunk, cfg.maxFrame)
              case Ok(s) => frames == Ok(s.frames) && View() == old(View()).(inbox := s.rest)
              case Err(e) => frames == Err(e) && View() == old(View()).(inbox := [])
    {
      hide Scan, Outbound, Next, SendWindow.View, HpackDecoder.View, HpackDecoder.Valid;
      frames := frameDecoder.Push(chunk);
    }

    method DispatchAll(frames: seq<Frame>)
      requires Valid()
      modifies Repr()
      ensures Valid() && View() == InboundAll(cfg, old(View()), frames)
    {
      hide Handle, Connection.ConnectionError, Linked, Outbound, HpackDecoder.View, SendWindow.View;
      ghost var start := View();
      assert frames[0..] == frames;
      for i := 0 to |frames|
        invariant Valid() && InboundAll(cfg, View(), frames[i..]) == InboundAll(cfg, start, frames)
      {
        assert frames[i..][0] == frames[i] && frames[i..][1..] == frames[i + 1..];
        var err := Dispatch(frames[i]);
        if err.Some? {
          ConnectionError(err.value);
          return;
        }
      }
      assert frames[|frames|..] == [];
    }

    /** The transport has ended, or a write on it has failed. */
    method TransportLost(writing: bool)
      requires Valid()
      modifies this, connSendWindow
      ensures Valid() && View() == Connection.Destroy(old(View()), LostError(writing))
    {
      hide Connection.Destroy;
      Destroy(LostError(writing));
    }

    // --- requests ---

    method ActiveStreams() returns (n: nat)
      requires Valid()
      ensures n == Active(View())
    {
      n := 0;
      var left := streams.Keys;
      assert Odd(left) == ActiveIds(View());
      while left != {}
        invariant left <= streams.Keys && n + |Odd(left)| == Active(View())
        decreases |left|
      {
        var id :| id in left;
        assert Odd(left) == if id % 2 == 1 then Odd(left - {id}) + {id} else Odd(left - {id});
        if id % 2 == 1 {
          n := n + 1;
        }
        left := left - {id};
      }
    }

    method CanOpenStream() returns (free: bool)
      requires Valid()
      ensures free == CanOpen(View())
    {
      var active := ActiveStreams();
      free := active < remote.maxConcurrent;
    }

    /** An oversized block is split into HEADERS and CONTINUATION frames. */
    method SendHeaders(id: nat, block: bytes, endStream: bool)
      requires Valid()
      modifies this`outQueue, this`log
      ensures Valid() && View() == SendAll(old(View()), SplitHeaders(id, block, endStream, remote.maxFrameSize))
    {
      hide Connection.Send, Linked, Outbound, HpackDecoder.View, SendWindow.View;
      var max := remote.maxFrameSize;
      if |block| <= max {
        SendFrame(Headers(id, block, endStream, true, None));
        SendOne(old(View()), Headers(id, block, endStream, true, None));
        return;
      }
      ghost var c := View();
      var first := Headers(id, block[..max], endStream, false, None);
      SendFrame(first);
      assert ([first] + Continuations(id, block[max..], max))[1..] == Continuations(id, block[max..], max);
      var offset: nat := max;
      while offset < |block|
        invariant offset <= |block| && Valid() && View() == c.(log := View().log)
        invariant offset < |block| ==>
          SendAll(View(), Continuations(id, block[offset..], max)) == SendAll(c, SplitHeaders(id, block, endStream, max))
        invariant offset == |block| ==> View() == SendAll(c, SplitHeaders(id, block, endStream, max))
      {
        var next := if offset + max < |block| then offset + max else |block|;
        var f := Continuation(id, block[offset..next], next >= |block|);
        SendContinuation(View(), id, block, offset, max);
        SendShape(View(), f);
        SendFrame(f);
        offset := next;
      }
    }

    /** One turn of the request loop. There is no await between the passing check and the reservation. */
    method Request(token: nat, headers: seq<Header>, hasBody: bool)
      requires Valid()
      modifies this
      ensures Valid() && View() == Connection.Request(cfg, old(View()), token, headers, hasBody)
    {
      hide Connection.CanOpen, Open, Outbound, HpackDecoder.Valid, FrameDecoder.Valid, HpackDecoder.View, SendWindow.View;
      if closed || goawayReceived || token in slotWaiters {
        return;
      }
      var free := CanOpenStream();
      if free {
        OpenStream(headers, hasBody);
      } else {
        slotWaiters := slotWaiters + [token];
      }
    }

    method OpenStream(headers: seq<Header>, hasBody: bool)
      requires Valid() && cfg.tables.Sized()
      modifies this
      ensures Valid() && View() == Open(cfg, old(View()), headers, hasBody)
    {
      hide SplitHeaders, SendAll, EncodeHeaders, Linked, Outbound, HpackDecoder.View, SendWindow.View;
      var id := nextStreamId;
      nextStreamId := id + 2;
      streams := streams[id := Strm(Fresh(remote.initialWindow), false, !hasBody, false)];
      cells := cells[id := Cell(Awaiting, EMPTY_INBOX, None, Unclaimed, if hasBody then Idle else NoPump)];
      assert View() == Reserve(old(View()), hasBody);
      var block := Encode(cfg.tables, headers);
      Note(Event.Opened(id, block, hasBody));
      SendHeaders(id, block, !hasBody);
    }

    // --- uploads ---

    method Feed(id: nat, chunk: bytes)
      requires Valid() && PumpIs(View(), id, true)
      modifies this`log, this`cells
      ensures Valid() && View() == Connection.Feed(old(View()), id, chunk)
    {
      hide Linked, Outbound, HpackDecoder.View, SendWindow.View;
      if chunk == [] {
        return;
      }
      Note(Event.Fed(id, chunk));
      cells := cells[id := cells[id].(pump := Sending(chunk, 0))];
    }

    /** Not ready: register on each window without capacity, and sleep. */
    method ParkUpload(id: nat)
      requires Valid() && id in streams
      modifies this`parked, this`streams, connSendWindow
      ensures Valid() && View() == Park(old(View()), id)
    {
      hide Linked, Outbound, HpackDecoder.View;
      if !connSendWindow.View().Ready() {
        connSendWindow.RegisterWaker(id);
      }
      var w := streams[id].window;
      if !w.Ready() {
        streams := streams[id := streams[id].(window := w.Joined(id))];
      }
      parked := parked + {id};
    }

    method SendNextChunk(id: nat, n: nat)
      requires Valid() && PumpIs(View(), id, false) && id in streams
      requires cells[id].pump.offset + n <= |cells[id].pump.chunk|
      modifies this, connSendWindow
      ensures Valid() && View() == SendChunk(old(View()), id, n)
    {
      hide Connection.Send, Linked, Outbound, HpackDecoder.View, SendWindow.View;
      ghost var c := View();
      var p := cells[id].pump;
      connSendWindow.Consume(n);
      streams := streams[id := streams[id].(window := streams[id].window.Consumed(n))];
      ghost var spent := View();
      SendShape(spent, Data(id, p.chunk[p.offset..p.offset + n], false));
      SendFrame(Data(id, p.chunk[p.offset..p.offset + n], false));
      var offset := p.offset + n;
      cells := cells[id := cells[id].(pump := if offset == |p.chunk| then Idle else Sending(p.chunk, offset))];
    }

    /** One turn of the loop that sends a chunk. */
    method Turn(id: nat)
      requires Valid() && PumpIs(View(), id, false) && cells[id].pump.offset <= |cells[id].pump.chunk|
      modifies this, connSendWindow
      ensures Valid() && View() == Connection.Turn(old(View()), id)
    {
      hide Park, SendChunk, Linked, Outbound, HpackDecoder.View;
      if closed || id !in streams {
        cells := cells[id := cells[id].(pump := Finished)];
        return;
      }
      var w, v := connSendWindow.View(), streams[id].window;
      if !w.Ready() || !v.Ready() {
        ParkUpload(id);
        return;
      }
      if v.closed {
        cells := cells[id := cells[id].(pump := Finished)];
        return;
      }
      var p := cells[id].pump;
      var grant := Min(Min(|p.chunk| - p.offset, w.available), Min(v.available, remote.maxFrameSize));
      if grant > 0 {
        SendNextChunk(id, grant);
      }
    }

    /** Send the chunk frame by frame until it is out, the stream is gone, or the windows are empty. */
    method PumpChunk(id: nat) returns (ghost turns: nat)
      requires Valid() && PumpIs(View(), id, false) && WindowsOpen(View()) && id !in parked
      requires cells[id].pump.offset < |cells[id].pump.chunk|
      modifies this, connSendWindow
      ensures Valid() && View() == RunFrom(cfg, old(View()), Turns(id, turns))
      ensures !PumpIs(View(), id, false) || id in parked
    {
      hide Connection.Turn, RunFrom, Linked, Outbound, HpackDecoder.View, SendWindow.View;
      ghost var c := View();
      turns := 0;
      LinkedSized();
      assert RunFrom(cfg, c, Turns(id, 0)) == c by { NoTurns(cfg, c, id); }
      while cells[id].pump.Sending? && id !in parked
        invariant Valid() && id in cells && WindowsOpen(View())
        invariant cells[id].pump.Sending? ==> cells[id].pump.offset < |cells[id].pump.chunk|
        invariant View() == RunFrom(cfg, c, Turns(id, turns))
        decreases if cells[id].pump.Sending? && id !in parked then |cells[id].pump.chunk| - cells[id].pump.offset else 0
      {
        TurnProgress(View(), id);
        OneTurn(cfg, c, id, turns);
        Turn(id);
        turns := turns + 1;
      }
    }

    lemma LinkedSized()
      requires Valid()
      ensures cfg.tables.Sized()
    {
    }

    method FinishBody(id: nat)
      requires Valid() && PumpIs(View(), id, true)
      modifies this
      ensures Valid() && View() == Connection.FinishBody(old(View()), id)
    {
      hide Connection.Send, Retire, Linked, Outbound, HpackDecoder.View, SendWindow.View;
      SendShape(SetPump(Log(View(), Event.FedAll(id)), id, Finished), Data(id, [], true));
      Note(Event.FedAll(id));
      cells := cells[id := cells[id].(pump := Finished)];
      if id in streams {
        HalfClose(id);
        RetireIfFullyClosed(id); // if the peer has finished too
      }
    }

    method HalfClose(id: nat)
      requires Valid() && id in streams
      modifies this`outQueue, this`log, this`streams
      ensures Valid() && id in old(streams)
      ensures View() == SetStream(Send(old(View()), Data(id, [], true)), id, old(streams)[id].(localClosed := true))
    {
      hide Connection.Send, Linked, Outbound, HpackDecoder.View, SendWindow.View;
      SendShape(View(), Data(id, [], true));
      SendFrame(Data(id, [], true));
      streams := streams[id := streams[id].(localClosed := true)];
    }

    // --- response bodies ---

    method ReplenishRecvWindow(id: nat, n: nat)
      requires Valid()
      modifies this`outQueue, this`log
      ensures Valid() && View() == Replenish(old(View()), id, n)
    {
      hide Connection.Send, Linked, Outbound, HpackDecoder.View, SendWindow.View;
      Note(Returned(id, n));
      if closed || n == 0 {
        return;
      }
      SendShape(View(), WindowUpdate(id, n % U32_LIMIT));
      if id in streams {
        SendFrame(WindowUpdate(id, n % U32_LIMIT));
      }
      SendFrame(WindowUpdate(0, n % U32_LIMIT));
    }

    method PollNext(id: nat) returns (item: Option<Result<bytes>>, waits: bool)
      requires Valid() && Holds(View(), id)
      modifies this
      ensures Valid() && View() == Read(old(View()), id)
      ensures var r := old(View()).cells[id].recv;
              && waits == (r.queue == [] && r.error.None? && !r.ended)
              && item == if r.queue != [] then Some(Ok(r.queue[0]))
                         else if r.error.Some? then Some(Err(r.error.value)) else None
    {
      hide Replenish, Linked, Outbound, HpackDecoder.View, SendWindow.View;
      var cell := cells[id];
      var r := cell.recv;
      item, waits := None, false;
      if r.queue != [] {
        var chunk := r.queue[0];
        Note(Yielded(id, chunk));
        cells := cells[id := cell.(recv := r.(queue := r.queue[1..], buffered := r.buffered - |chunk|))];
        ReplenishRecvWindow(id, |chunk|);
        item := Some(Ok(chunk));
      } else if r.error.Some? {
        Note(YieldedError(id));
        cells := cells[id := cell.(recv := r.(error := None))];
        item := Some(Err(r.error.value));
      } else if r.ended {
        Note(YieldedEnd(id));
      } else {
        cells := cells[id := cell.(recv := r.(waiting := true))];
        waits := true;
      }
    }

    method Claim(id: nat)
      requires Valid() && id in cells
      modifies this`cells
      ensures Valid() && View() == Connection.Claim(old(View()), id)
    {
      if cells[id].head.Answered? && cells[id].body.Unclaimed? {
        cells := cells[id := cells[id].(body := Held)];
      }
    }

    /** Dropping a body gives its bytes back, and cancels a stream that has not ended. */
    method DropBody(id: nat)
      requires Valid() && Holds(View(), id)
      modifies this
      ensures Valid() && View() == Connection.DropBody(old(View()), id)
    {
      hide Replenish, Connection.ResetStream, Linked, Outbound, HpackDecoder.View, SendWindow.View;
      var remaining, stillOpen := cells[id].recv.buffered, !cells[id].recv.ended;
      Note(Event.Released(id));
      cells := cells[id := cells[id].(body := Dropped)];
      if remaining > 0 {
        ReplenishRecvWindow(id, remaining);
      }
      if stillOpen {
        ResetStream(id, Cancel);
      }
    }

    // --- ping and close ---

    /** Register the next ping; a key still in flight loses its first waiter. */
    method RegisterPing() returns (key: bytes)
      requires Valid()
      modifies this`pingCounter, this`nextPong, this`pings, this`pongs
      ensures Valid() && key == PingKey((old(pingCounter) + 1) % U32_LIMIT)
      ensures View() == old(View()).(
                pingCounter := (old(pingCounter) + 1) % U32_LIMIT, nextPong := old(nextPong) + 1,
                pings := old(pings)[key := old(nextPong)],
                pongs := (if key in old(pings) then old(pongs)[old(pings)[key] := Overwritten] else old(pongs))[old(nextPong) := Waiting])
    {
      hide PingKey, Linked, Outbound, HpackDecoder.View, SendWindow.View;
      var token := nextPong;
      pingCounter := (pingCounter + 1) % U32_LIMIT;
      key := PingKey(pingCounter);
      var known := if key in pings then pongs[pings[key] := Overwritten] else pongs;
      nextPong, pings, pongs := token + 1, pings[key := token], known[token := Waiting];
    }

    method StartPing()
      requires Valid()
      modifies this
      ensures Valid() && View() == Connection.StartPing(old(View()))
    {
      hide Connection.Send, PingKey, Linked, Outbound, HpackDecoder.View, SendWindow.View;
      if closed {
        return;
      }
      var key := RegisterPing();
      SendFrame(Ping(false, key));
    }

    method Close()
      requires Valid()
      modifies this, connSendWindow
      ensures Valid() && View() == Connection.Close(old(View()))
    {
      hide Connection.Send, Connection.Destroy, Linked, Outbound, HpackDecoder.View, SendWindow.View;
      if closed {
        return;
      }
      SendFrame(Goaway(highestPromised, 0, []));
      Destroy(H2Error(NoError, ClosedByClient));
    }

    // --- one step of any party ---

    method Apply(s: Step)
      requires Valid()
      modifies Repr()
      ensures Valid() && View() == if Enabled(old(View()), s) then Perform(cfg, old(View()), s) else old(View())
    {
      hide Connection.OnBytes, Connection.Destroy, Connection.Request, Connection.Feed, Connection.Turn, Connection.FinishBody,
           Connection.Claim, Read, Connection.DropBody, Connection.StartPing, Connection.Close,
           Linked, Outbound, HpackDecoder.View, SendWindow.View;
      LinkedSized();
      match s {
        case DoBytes(chunk) => OnBytes(chunk);
        case DoLost(writing) => TransportLost(writing);
        case DoRequest(token, headers, hasBody) => Request(token, headers, hasBody);
        case DoFeed(id, chunk) =>
          if id in cells && cells[id].pump.Idle? {
            Feed(id, chunk);
          }
        case DoTurn(id) =>
          if id in cells && cells[id].pump.Sending? && id !in parked && cells[id].pump.offset <= |cells[id].pump.chunk| {
            Turn(id);
          }
        case DoFinish(id) =>
          if id in cells && cells[id].pump.Idle? {
            FinishBody(id);
          }
        case DoClaim(id) =>
          if id in cells {
            Claim(id);
          }
        case DoRead(id) =>
          if id in cells && cells[id].body.Held? {
            var _, _ := PollNext(id);
          }
        case DoDrop(id) =>
          if id in cells && cells[id].body.Held? {
            DropBody(id);
          }
        case DoPing => StartPing();
        case DoClose => Close();
      }
    }
  }

  /** The object, run through any steps, is in the state the machine says. */
  method Play(cfg: Config, steps: seq<Step>) returns (c: ConnState)
    requires cfg.tables.Sized()
    ensures c.Valid() && c.cfg == cfg && c.View() == Run(cfg, steps)
  {
    hide Perform, Enabled, Connect;
    c := new ConnState(cfg);
    assert steps[..0] == [];
    for i := 0 to |steps|
      invariant c.Valid() && c.cfg == cfg && fresh(c.Repr()) && c.View() == Run(cfg, steps[..i])
    {
      assert steps[..i + 1][..i] == steps[..i];
      c.Apply(steps[i]);
    }
    assert steps[..|steps|] == steps;
  }

  function Turns(id: nat, n: nat): (steps: seq<Step>) {
    if n == 0 then [] else Turns(id, n - 1) + [DoTurn(id)]
  }

  lemma NoTurns(cfg: Config, c: Conn, id: nat)
    requires cfg.tables.Sized()
    ensures RunFrom(cfg, c, Turns(id, 0)) == c
  {
  }

  lemma OneTurn(cfg: Config, c: Conn, id: nat, n: nat)
    requires cfg.tables.Sized()
    ensures var c' := RunFrom(cfg, c, Turns(id, n));
            PumpIs(c', id, false) && id !in c'.parked && c'.cells[id].pump.offset <= |c'.cells[id].pump.chunk| ==>
              RunFrom(cfg, c, Turns(id, n + 1)) == Turn(c', id)
  {
    hide Turn;
    assert Turns(id, n + 1)[..|Turns(id, n + 1)| - 1] == Turns(id, n);
  }

  /** A turn with open windows sends at least a byte, parks, or gives up. */
  lemma TurnProgress(c: Conn, id: nat)
    requires PumpIs(c, id, false) && WindowsOpen(c) && c.cells[id].pump.offset < |c.cells[id].pump.chunk|
    ensures var c' := Turn(c, id);
            && WindowsOpen(c') && id in c'.cells
            && (c'.cells[id].pump.Sending? ==>
                  && c'.cells[id].pump.offset < |c'.cells[id].pump.chunk| && c'.cells[id].pump.chunk == c.cells[id].pump.chunk
                  && (id in c'.parked || c'.cells[id].pump.offset > c.cells[id].pump.offset))
  {
  }

  /** One more CONTINUATION of a block, from `offset` on. */
  lemma SendContinuation(c: Conn, id: nat, block: bytes, offset: nat, max: FrameLimit)
    requires offset < |block|
    ensures var next := if offset + max < |block| then offset + max else |block|;
            var c' := Send(c, Continuation(id, block[offset..next], next >= |block|));
            SendAll(c, Continuations(id, block[offset..], max))
            == if next < |block| then SendAll(c', Continuations(id, block[next..], max)) else c'
  {
    hide Send;
    var rest := block[offset..];
    if |rest| <= max {
      assert block[offset..|block|] == rest;
      SendOne(c, Continuation(id, rest, true));
    } else {
      var f := Continuation(id, rest[..max], false);
      assert rest[..max] == block[offset..offset + max] && rest[max..] == block[offset + max..];
      assert ([f] + Continuations(id, rest[max..], max))[1..] == Continuations(id, rest[max..], max);
    }
  }

  lemma Completed(cfg: Config, c: Conn, pb: Pending)
    ensures var decoded := DecodeBlock(cfg.tables, c.table, Flatten(pb.fragments));
            var c1 := c.(block := None, table := decoded.table);
            decoded.headers.Ok? ==>
              CompleteBlock(cfg, c, pb) == Fine(if pb.push then RefusePush(c1, pb.promised, decoded.headers.value)
                                                else Deliver(c1, pb.streamId, decoded.headers.value, pb.endStream))
  {
    hide DecodeBlock, ReceiveHeaders, Retire, RefusePush;
  }

  lemma DoomPings(c: Conn, ids: set<nat>, err: H2Error)
    ensures Doom(c, ids, err).pings == c.pings && Doom(c, ids, err).pongs == c.pongs
  {
  }

  /** Buffer DATA for the body, unless it has ended; `dropped` says it was thrown away. */
  lemma LiveData(c: Conn, id: nat, data: bytes, endStream: bool)
    requires id in c.streams && id in c.cells
    ensures var s, cell := c.streams[id], c.cells[id];
            ReceiveData(c, id, data, endStream)
            == SetCell(SetStream(if Dropping(cell.recv, data) then Log(c, Discarded(id, |data|)) else c,
                                 id, s.(remoteClosed := s.remoteClosed || endStream)),
                       id, cell.(recv := DataOnRecv(cell.recv, data, endStream)))
  {
    hide DataOnRecv, Dropping;
  }

  method PushData(recv: Recv, data: bytes, endStream: bool) returns (r: Recv, dropped: bool)
    ensures r == DataOnRecv(recv, data, endStream) && dropped == Dropping(recv, data)
  {
    r, dropped := recv, false;
    if data != [] {
      if r.error.None? && !r.ended {
        r := r.(queue := r.queue + [data], buffered := r.buffered + |data|);
      } else {
        dropped := true;
      }
    }
    if endStream {
      r := r.(ended := true);
    }
    r := r.(waiting := false);
  }

  /** Every ping in flight is answered with the error. */
  method FailPings(pings: map<bytes, nat>, pongs: map<nat, Pong>, err: H2Error) returns (failed: map<nat, Pong>)
    ensures failed == FailPongs(pongs, pings, err)
  {
    failed := pongs;
    var left := pings.Values;
    while left != {}
      invariant left <= pings.Values && failed.Keys == pongs.Keys
      invariant forall t :: t in pongs ==> failed[t] == if t in pings.Values - left then PingFailed(err) else pongs[t]
      decreases |left|
    {
      var token :| token in left;
      if token in failed {
        failed := failed[token := PingFailed(err)];
      }
      left := left - {token};
    }
  }

  /** Every stream window moves by the same difference; what it wakes is collected. */
  method AdjustWindows(streams: map<nat, Strm>, delta: int) returns (adjusted: map<nat, Strm>, woken: set<nat>)
    ensures adjusted == map i | i in streams :: streams[i].(window := streams[i].window.Granted(delta))
    ensures woken == set i, t | i in streams && t in streams[i].window.WokenBy(delta) :: t
  {
    adjusted, woken := streams, {};
    var left := streams.Keys;
    while left != {}
      invariant left <= streams.Keys == adjusted.Keys
      invariant forall i :: i in streams ==>
                  adjusted[i] == if i in left then streams[i] else streams[i].(window := streams[i].window.Granted(delta))
      invariant woken == set i, t | i in streams && i !in left && t in streams[i].window.WokenBy(delta) :: t
      decreases |left|
    {
      var id :| id in left;
      adjusted := adjusted[id := streams[id].(window := streams[id].window.Granted(delta))];
      woken := woken + streams[id].window.WokenBy(delta);
      left := left - {id};
    }
  }

  lemma InterimIs(headers: seq<Header>)
    ensures Interim(headers) == (100 <= Status(headers) < 200)
  {
  }

  method Concat(parts: seq<bytes>) returns (all: bytes)
    ensures all == Flatten(parts)
  {
    all := [];
    for i := 0 to |parts|
      invariant all == Flatten(parts[..i])
    {
      FlattenSnoc(parts[..i], parts[i]);
      assert parts[..i + 1] == parts[..i] + [parts[i]];
      all := all + parts[i];
    }
    assert parts[..|parts|] == parts;
  }
}
