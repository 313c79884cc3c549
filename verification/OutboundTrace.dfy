/** What the client may write, and in what order, read off the trace alone: sections 5 and 6 of RFC 7540. */
module OutboundTrace {
  import opened Common
  import opened Hpack
  import opened Frames
  import opened Flow
  import opened Connection
  import opened Moves

  // --- an observer of the trace ---

  /** `fed` is the body so far, `sent` how much of it went out, `whole` that it has ended. */
  datatype Upload = Upload(fed: bytes, sent: nat, whole: bool, ended: bool)

  /** The rest of a header block being written. */
  datatype Partial = Partial(streamId: nat, rest: bytes, endStream: bool, first: bool)

  datatype Watch = Watch(next: nat, uploads: map<nat, Upload>, block: Option<Partial>, away: bool)

  predicate LegalFragment(p: Partial, f: Frame) {
    match f
    case Headers(id, fragment, endStream, endHeaders, priority) =>
      p.first && id == p.streamId && endStream == p.endStream && priority.None?
      && fragment <= p.rest && (endHeaders <==> fragment == p.rest)
    case Continuation(id, fragment, endHeaders) =>
      !p.first && id == p.streamId && fragment <= p.rest && (endHeaders <==> fragment == p.rest)
    case _ => false
  }

  /** DATA carries the next bytes of the body, and ends it only when there are no more. */
  predicate LegalData(w: Watch, id: nat, data: bytes, endStream: bool) {
    id in w.uploads &&
    var u := w.uploads[id];
    && !u.ended && u.sent + |data| <= |u.fed| && u.fed[u.sent..u.sent + |data|] == data
    && (endStream ==> u.whole && u.sent + |data| == |u.fed|)
  }

  predicate Legal(w: Watch, e: Event) {
    match e
    case Opened(id, _, _) => !w.away && w.block.None? && id == w.next
    case Sent(f) =>
      && !w.away
      && (if w.block.Some? then LegalFragment(w.block.value, f)
          else !f.Headers? && !f.Continuation? && !f.PushPromise?
               && (f.Data? ==> LegalData(w, f.streamId, f.data, f.endStream)))
    case Fed(id, _) => id in w.uploads && !w.uploads[id].whole
    case FedAll(id) => id in w.uploads && !w.uploads[id].whole
    case _ => true
  }

  function Progress(p: Partial, fragment: bytes): (p': Option<Partial>) {
    if |fragment| >= |p.rest| then None else Some(p.(rest := p.rest[|fragment|..], first := false))
  }

  function Observe(w: Watch, e: Event): (w': Watch) {
    match e
    case Opened(id, block, hasBody) =>
      w.(next := id + 2, uploads := w.uploads[id := Upload([], 0, !hasBody, false)],
         block := Some(Partial(id, block, !hasBody, true)))
    case Sent(Headers(id, fragment, endStream, _, _)) =>
      w.(block := if w.block.Some? then Progress(w.block.value, fragment) else None,
         uploads := if id in w.uploads then w.uploads[id := w.uploads[id].(ended := endStream)] else w.uploads)
    case Sent(Continuation(_, fragment, _)) =>
      w.(block := if w.block.Some? then Progress(w.block.value, fragment) else None)
    case Sent(Data(id, data, endStream)) =>
      if id in w.uploads then
        w.(uploads := w.uploads[id := w.uploads[id].(sent := w.uploads[id].sent + |data|, ended := endStream)])
      else w
    case Sent(Goaway(_, _, _)) => w.(away := true)
    case Fed(id, chunk) =>
      if id in w.uploads then w.(uploads := w.uploads[id := w.uploads[id].(fed := w.uploads[id].fed + chunk)]) else w
    case FedAll(id) =>
      if id in w.uploads then w.(uploads := w.uploads[id := w.uploads[id].(whole := true)]) else w
    case _ => w
  }

  function Watching(log: Trace): (w: Watch) {
    match log
    case Begin => Watch(1, map[], None, false)
    case After(past, e) => Observe(Watching(past), e)
  }

  predicate Accepted(log: Trace) {
    match log
    case Begin => true
    case After(past, e) => Accepted(past) && Legal(Watching(past), e)
  }

  // --- the connection is where the observer thinks it is ---

  predicate PumpMatches(p: Pump, u: Upload) {
    match p
    case NoPump => u.whole && u.ended
    case Idle => !u.whole && !u.ended && u.sent == |u.fed|
    case Sending(chunk, offset) =>
      !u.whole && !u.ended && offset < |chunk| && u.sent + |chunk| == |u.fed| + offset && u.fed[u.sent..] == chunk[offset..]
    case Finished => true
  }

  ghost predicate Inv(c: Conn) {
    var w := Watching(c.log);
    && Accepted(c.log) && w.next == c.nextId && w.block.None? && (w.away ==> c.closed.Some?)
    && (c.closed.Some? ==> c.streams == map[])
    && c.cells.Keys == w.uploads.Keys && c.streams.Keys <= c.cells.Keys
    && (forall id :: id in c.cells ==> id < c.nextId && PumpMatches(c.cells[id].pump, w.uploads[id]))
    && (forall id :: id in c.streams ==> c.streams[id].localClosed == w.uploads[id].ended)
  }

  predicate Unseen(e: Event) {
    match e
    case Opened(_, _, _) => false
    case Fed(_, _) => false
    case FedAll(_) => false
    case Sent(_) => false
    case _ => true
  }

  predicate Control(f: Frame) {
    !f.Headers? && !f.Continuation? && !f.PushPromise? && !f.Data? && !f.Goaway?
  }

  lemma LogKeeps(c: Conn, e: Event)
    requires Unseen(e)
    ensures Watching(Log(c, e).log) == Watching(c.log) && Accepted(Log(c, e).log) == Accepted(c.log)
    ensures Inv(c) ==> Inv(Log(c, e))
  {
  }

  lemma SendKeeps(c: Conn, f: Frame)
    requires Inv(c) && Control(f)
    ensures Inv(Send(c, f))
  {
    if c.closed.None? {
      assert Watching(After(c.log, Sent(f))) == Watching(c.log);
    }
  }

  /** Apart from the trace, only these parts of the state matter here. */
  ghost predicate SameUploads(c: Conn, c': Conn) {
    && c'.log == c.log && c'.nextId == c.nextId && c'.cells.Keys == c.cells.Keys && c'.streams.Keys <= c.streams.Keys
    && (c.closed.Some? ==> c'.closed.Some?) && (c'.closed.Some? ==> c.closed.Some? || c'.streams == map[])
    && (forall id :: id in c.cells ==> c'.cells[id].pump == c.cells[id].pump)
    && (forall id :: id in c'.streams ==> c'.streams[id].localClosed == c.streams[id].localClosed)
  }

  lemma SameKeeps(c: Conn, c': Conn)
    requires Inv(c) && SameUploads(c, c')
    ensures Inv(c')
  {
    hide Watching, Accepted, PumpMatches;
  }

  lemma RetireKeeps(c: Conn, id: nat)
    requires Inv(c)
    ensures Inv(Retire(c, id))
  {
    hide Watching, Accepted, PumpMatches;
    SameKeeps(c, Retire(c, id));
  }

  lemma DoomKeeps(c: Conn, ids: set<nat>, err: H2Error)
    requires Inv(c)
    ensures Inv(WakeSlots(Doom(c, ids, err))) && Inv(Doom(c, ids, err))
  {
    hide Inv;
    SameKeeps(c, Doom(c, ids, err));
    SameKeeps(c, WakeSlots(Doom(c, ids, err)));
  }

  lemma DestroySame(c: Conn, err: H2Error)
    ensures Destroy(c, err).closed.Some?
    ensures SameUploads(if c.closed.None? then Log(c, TornDown(err)) else c, Destroy(c, err))
  {
    if c.closed.None? {
      hide Destroy, FailPongs;
      DestroyShape(c, err);
    }
  }

  lemma DestroyKeeps(c: Conn, err: H2Error)
    requires Inv(c)
    ensures Inv(Destroy(c, err))
  {
    hide Inv, Destroy;
    DestroySame(c, err);
    LogKeeps(c, TornDown(err));
    SameKeeps(if c.closed.None? then Log(c, TornDown(err)) else c, Destroy(c, err));
  }

  /** The one GOAWAY, and the teardown that makes it the last frame. */
  lemma LastWords(c: Conn, last: nat, code: nat, err: H2Error)
    requires Inv(c)
    ensures Inv(Destroy(Send(c, Goaway(last, code, [])), err))
  {
    hide PumpMatches, Destroy;
    DestroySame(Send(c, Goaway(last, code, [])), err);
    LogKeeps(Send(c, Goaway(last, code, [])), TornDown(err));
    if c.closed.None? {
      assert Watching(After(c.log, Sent(Goaway(last, code, [])))) == Watching(c.log).(away := true);
      hide Watching;
    } else {
      hide Watching, Accepted;
    }
  }

  // --- opening a stream ---

  /** Between frames of a header block. */
  ghost predicate Midway(c: Conn, p: Partial) {
    && c.closed.None? && Accepted(c.log) && Watching(c.log).block == Some(p) && !Watching(c.log).away
  }

  lemma {:induction false} ContinuationsKeep(c: Conn, id: nat, rest: bytes, endStream: bool, max: FrameLimit)
    requires Midway(c, Partial(id, rest, endStream, false))
    ensures var c' := SendAll(c, Continuations(id, rest, max));
            Accepted(c'.log) && Watching(c'.log) == Watching(c.log).(block := None) && c' == c.(log := c'.log)
    decreases |rest|
  {
    if |rest| <= max {
      SendOne(c, Continuation(id, rest, true));
      assert LegalFragment(Partial(id, rest, endStream, false), Continuation(id, rest, true));
    } else {
      var f := Continuation(id, rest[..max], false);
      var fs := Continuations(id, rest[max..], max);
      assert LegalFragment(Partial(id, rest, endStream, false), f);
      assert ([f] + fs)[1..] == fs;
      ContinuationsKeep(Send(c, f), id, rest[max..], endStream, max);
    }
  }

  lemma HeadersKeep(c: Conn, id: nat, block: bytes, endStream: bool, max: FrameLimit)
    requires Midway(c, Partial(id, block, endStream, true)) && id in Watching(c.log).uploads
    ensures var c' := SendAll(c, SplitHeaders(id, block, endStream, max));
            var w := Watching(c.log);
            && Accepted(c'.log) && c' == c.(log := c'.log)
            && Watching(c'.log) == w.(block := None, uploads := w.uploads[id := w.uploads[id].(ended := endStream)])
  {
    if |block| <= max {
      SendOne(c, Headers(id, block, endStream, true, None));
    } else {
      var f := Headers(id, block[..max], endStream, false, None);
      var fs := Continuations(id, block[max..], max);
      assert ([f] + fs)[1..] == fs;
      assert SendAll(c, [f] + fs) == SendAll(Send(c, f), fs);
      assert LegalFragment(Partial(id, block, endStream, true), f);
      ContinuationsKeep(Send(c, f), id, block[max..], endStream, max);
    }
  }

  lemma OpenKeeps(cfg: Config, c: Conn, headers: seq<Header>, hasBody: bool)
    requires cfg.tables.Sized() && Inv(c) && c.closed.None?
    ensures Inv(Open(cfg, c, headers, hasBody))
  {
    hide SplitHeaders, SendAll, EncodeHeaders, Fresh;
    var id := c.nextId;
    var block := EncodeHeaders(cfg.tables, headers);
    var c1 := Log(Reserve(c, hasBody), Event.Opened(id, block, hasBody));
    assert Midway(c1, Partial(id, block, !hasBody, true));
    HeadersKeep(c1, id, block, !hasBody, c.remote.maxFrameSize);
    assert Open(cfg, c, headers, hasBody) == SendAll(c1, SplitHeaders(id, block, !hasBody, c.remote.maxFrameSize));
    hide Accepted;
    AfterOpening(c, c1, Open(cfg, c, headers, hasBody), id, hasBody, block);
  }

  lemma AfterOpening(c: Conn, c1: Conn, c2: Conn, id: nat, hasBody: bool, block: bytes)
    requires Inv(c) && id == c.nextId && c.closed.None?
    requires c1.streams == c.streams[id := Strm(Fresh(c.remote.initialWindow), false, !hasBody, false)]
    requires c1.cells == c.cells[id := Cell(Awaiting, EMPTY_INBOX, None, Unclaimed, if hasBody then Idle else NoPump)]
    requires c1.nextId == id + 2 && c1.closed == c.closed && c1.log == After(c.log, Event.Opened(id, block, hasBody))
    requires c2 == c1.(log := c2.log) && Accepted(c2.log)
    requires var w := Watching(c1.log);
             Watching(c2.log) == w.(block := None, uploads := w.uploads[id := w.uploads[id].(ended := !hasBody)])
    ensures Inv(c2)
  {
    hide Accepted, Fresh;
    var w := Watching(c.log);
    assert Watching(c1.log) == Observe(w, Event.Opened(id, block, hasBody));
    hide Watching;
  }

  // --- the upload ---

  lemma FeedKeeps(c: Conn, id: nat, chunk: bytes)
    requires Inv(c) && PumpIs(c, id, true) && chunk != []
    ensures Inv(SetPump(Log(c, Event.Fed(id, chunk)), id, Sending(chunk, 0)))
  {
    var u := Watching(c.log).uploads[id];
    assert (u.fed + chunk)[u.sent..] == chunk;
    assert chunk[0..] == chunk;
    assert Watching(After(c.log, Event.Fed(id, chunk))) == Observe(Watching(c.log), Event.Fed(id, chunk));
    hide Watching;
  }

  /** The next slice of the chunk is the next slice of the body. */
  lemma NextSlice(u: Upload, chunk: bytes, offset: nat, n: nat)
    requires PumpMatches(Sending(chunk, offset), u) && offset + n <= |chunk|
    ensures u.sent + n <= |u.fed| && u.fed[u.sent..u.sent + n] == chunk[offset..offset + n]
    ensures PumpMatches(if offset + n == |chunk| then Idle else Sending(chunk, offset + n), u.(sent := u.sent + n))
  {
    assert u.fed[u.sent..u.sent + n] == u.fed[u.sent..][..n] == chunk[offset..][..n] == chunk[offset..offset + n];
    assert u.fed[u.sent + n..] == u.fed[u.sent..][n..] == chunk[offset..][n..] == chunk[offset + n..];
  }

  /** One upload has moved on, with its pump and its stream; nothing else has changed. */
  lemma UploadMoved(c: Conn, c': Conn, id: nat, u: Upload)
    requires Inv(c) && c.closed.None? && id in c.cells && Accepted(c'.log)
    requires Watching(c'.log) == Watching(c.log).(uploads := Watching(c.log).uploads[id := u])
    requires c'.nextId == c.nextId && c'.closed == c.closed
    requires c'.cells.Keys == c.cells.Keys && c'.streams.Keys == c.streams.Keys
    requires forall i :: i in c.cells && i != id ==> c'.cells[i].pump == c.cells[i].pump
    requires forall i :: i in c.streams && i != id ==> c'.streams[i].localClosed == c.streams[i].localClosed
    requires PumpMatches(c'.cells[id].pump, u) && (id in c.streams ==> c'.streams[id].localClosed == u.ended)
    ensures Inv(c')
  {
    hide Watching, Accepted, PumpMatches;
  }

  lemma SendChunkKeeps(c: Conn, id: nat, n: nat)
    requires PumpIs(c, id, false) && id in c.streams && c.closed.None? && Inv(c)
    requires var p := c.cells[id].pump; 0 < n && p.offset + n <= |p.chunk|
    ensures Inv(SendChunk(c, id, n))
  {
    hide Watching, Accepted, PumpMatches, Inv;
    InvParts(c, id);
    var w, p := Watching(c.log), c.cells[id].pump;
    var u, f := w.uploads[id], Data(id, p.chunk[p.offset..p.offset + n], false);
    NextSlice(u, p.chunk, p.offset, n);
    DataAccepted(c.log, f);
    UploadMoved(c, SendChunk(c, id, n), id, u.(sent := u.sent + n));
  }

  lemma InvParts(c: Conn, id: nat)
    requires Inv(c) && id in c.streams && c.closed.None?
    ensures var w := Watching(c.log);
            && Accepted(c.log) && w.block.None? && !w.away && id in c.cells && id in w.uploads
            && PumpMatches(c.cells[id].pump, w.uploads[id]) && c.streams[id].localClosed == w.uploads[id].ended
            && (c.cells[id].pump.Sending? ==> !w.uploads[id].ended)
  {
    hide Watching, Accepted;
  }

  lemma DataAccepted(log: Trace, f: Frame)
    requires f.Data? && Accepted(log) && LegalData(Watching(log), f.streamId, f.data, f.endStream)
    requires !Watching(log).away && Watching(log).block.None?
    ensures Accepted(After(log, Sent(f)))
    ensures var w := Watching(log); var u := w.uploads[f.streamId];
            Watching(After(log, Sent(f))) == w.(uploads := w.uploads[f.streamId := u.(sent := u.sent + |f.data|, ended := f.endStream)])
  {
    hide Watching, Accepted;
    Unfold(log, Sent(f));
  }

  lemma Unfold(log: Trace, e: Event)
    ensures Watching(After(log, e)) == Observe(Watching(log), e)
    ensures Accepted(After(log, e)) == (Accepted(log) && Legal(Watching(log), e))
  {
  }

  lemma TurnKeeps(c: Conn, id: nat)
    requires PumpIs(c, id, false) && c.cells[id].pump.offset <= |c.cells[id].pump.chunk| && Inv(c)
    ensures Inv(Turn(c, id))
  {
    hide Inv, Park, SendChunk, SetPump;
    if c.closed.Some? || id !in c.streams {
      StopKeeps(c, id);
    } else if !(c.window.Ready() && c.streams[id].window.Ready()) {
      ParkSame(c, id);
      SameKeeps(c, Park(c, id));
    } else if c.streams[id].window.closed {
      StopKeeps(c, id);
    } else if Grant(c, id) > 0 {
      SendChunkKeeps(c, id, Grant(c, id));
    }
  }

  lemma ParkSame(c: Conn, id: nat)
    requires id in c.streams && c.closed.None?
    ensures SameUploads(c, Park(c, id))
  {
  }

  lemma StopKeeps(c: Conn, id: nat)
    requires Inv(c) && id in c.cells
    ensures Inv(SetPump(c, id, Finished))
  {
    hide Watching, Accepted;
  }

  lemma FedAllKeeps(c: Conn, id: nat)
    requires PumpIs(c, id, true) && Inv(c)
    ensures var c' := SetPump(Log(c, Event.FedAll(id)), id, Finished);
            Inv(c') && var u := Watching(c'.log).uploads[id]; u.whole && !u.ended && u.sent == |u.fed|
  {
    assert Watching(After(c.log, Event.FedAll(id))) == Observe(Watching(c.log), Event.FedAll(id));
    assert Accepted(After(c.log, Event.FedAll(id)));
    hide Watching, Accepted;
  }

  lemma HalfCloseKeeps(c: Conn, id: nat)
    requires Inv(c) && id in c.streams && c.cells[id].pump.Finished?
    requires var u := Watching(c.log).uploads[id]; u.whole && !u.ended && u.sent == |u.fed|
    ensures Inv(SetStream(Send(c, Data(id, [], true)), id, c.streams[id].(localClosed := true)))
  {
    var u := Watching(c.log).uploads[id];
    assert u.fed[u.sent..u.sent + 0] == [];
    DataAccepted(c.log, Data(id, [], true));
    hide Watching, Accepted;
  }

  lemma FinishKeeps(c: Conn, id: nat)
    requires PumpIs(c, id, true) && Inv(c)
    ensures Inv(FinishBody(c, id))
  {
    hide Inv, Watching, Send, Retire;
    var c1 := SetPump(Log(c, Event.FedAll(id)), id, Finished);
    FedAllKeeps(c, id);
    if id in c.streams {
      HalfCloseKeeps(c1, id);
      var c3 := SetStream(Send(c1, Data(id, [], true)), id, c.streams[id].(localClosed := true));
      SendShape(c1, Data(id, [], true));
      RetireKeeps(c3, id);
    }
  }

  // --- everything else ---

  lemma ReplenishKeeps(c: Conn, id: nat, n: nat)
    requires Inv(c)
    ensures Inv(Replenish(c, id, n))
  {
    hide Inv, Send;
    var c0 := Log(c, Returned(id, n));
    var f := WindowUpdate(id, n % U32_LIMIT);
    var c1 := if id in c.streams then Send(c0, f) else c0;
    LogKeeps(c, Returned(id, n));
    SendKeeps(c0, f);
    SendKeeps(c1, WindowUpdate(0, n % U32_LIMIT));
  }

  lemma YieldKeeps(c: Conn, id: nat)
    requires Inv(c) && Holds(c, id) && c.cells[id].recv.queue != []
    ensures Inv(YieldChunk(c, id))
  {
    hide Inv, Replenish;
    var c1 := Log(c, Yielded(id, c.cells[id].recv.queue[0]));
    LogKeeps(c, Yielded(id, c.cells[id].recv.queue[0]));
    SameKeeps(c1, TakeChunk(c, id));
    ReplenishKeeps(TakeChunk(c, id), id, |c.cells[id].recv.queue[0]|);
  }

  lemma ResetStreamKeeps(c: Conn, id: nat, code: ErrorCode)
    requires Inv(c)
    ensures Inv(ResetStream(c, id, code))
  {
    hide Inv, Send, Doom;
    SendKeeps(c, RstStream(id, code.Value()));
    DoomKeeps(Send(c, RstStream(id, code.Value())), {id}, H2Error(code, StreamReset));
  }

  lemma DropKeeps(c: Conn, id: nat)
    requires Inv(c) && Holds(c, id)
    ensures Inv(DropBody(c, id))
  {
    hide Inv, Replenish, ResetStream;
    var c0 := Log(c, Event.Released(id));
    var c1, c2 := SetCell(c0, id, c.cells[id].(body := Dropped)), Relinquish(c, id);
    LogKeeps(c, Event.Released(id));
    SameKeeps(c0, c1);
    if c.cells[id].recv.buffered > 0 {
      ReplenishKeeps(c1, id, c.cells[id].recv.buffered);
    }
    ResetStreamKeeps(c2, id, Cancel);
  }

  lemma DataKeeps(c: Conn, id: nat, data: bytes, endStream: bool)
    requires Inv(c)
    ensures Inv(TakeData(c, id, data, endStream))
  {
    hide Inv, Retire, Send;
    var f := Data(id, data, endStream);
    var c1 := Log(c, Event.Recv(f));
    LogKeeps(c, Event.Recv(f));
    var c2 := ReceiveData(c1, id, data, endStream);
    assert Inv(c2) by {
      if id in c.streams && id in c.cells {
        LogKeeps(c1, Discarded(id, |data|));
        var c3 := if Dropping(c.cells[id].recv, data) then Log(c1, Discarded(id, |data|)) else c1;
        SameKeeps(c3, c2);
      } else {
        LogKeeps(c1, Returned(id, |data|));
        SendKeeps(Log(c1, Returned(id, |data|)), WindowUpdate(0, |data| % U32_LIMIT));
      }
    }
    RetireKeeps(c2, id);
  }

  lemma DeliverKeeps(c: Conn, id: nat, headers: seq<Header>, endStream: bool)
    requires Inv(c)
    ensures Inv(Deliver(c, id, headers, endStream))
  {
    hide Inv, Retire, HeadersOnCell, Interim;
    var c1 := Log(c, Block(id, false, headers, endStream));
    LogKeeps(c, Block(id, false, headers, endStream));
    var c2 := ReceiveHeaders(c1, id, headers, endStream);
    assert SameUploads(c1, c2) by { hide *; HeadersShape(c1, id, headers, endStream); }
    SameKeeps(c1, c2);
    RetireKeeps(c2, id);
  }

  lemma HeadersShape(c: Conn, id: nat, headers: seq<Header>, endStream: bool)
    ensures SameUploads(c, ReceiveHeaders(c, id, headers, endStream))
  {
    hide Interim;
  }

  lemma RefuseKeeps(c: Conn, promised: nat, headers: seq<Header>)
    requires Inv(c)
    ensures Inv(RefusePush(c, promised, headers))
  {
    hide Inv, Send;
    var c1 := Log(c, Block(promised, true, headers, false));
    LogKeeps(c, Block(promised, true, headers, false));
    var c2 := c1.(highestPromised := if promised > c.highestPromised then promised else c.highestPromised);
    SameKeeps(c1, c2);
    SendKeeps(c2, RstStream(promised, RefusedStream.Value()));
  }

  lemma SettingsKeep(c: Conn, s: Settings)
    requires Inv(c)
    ensures Inv(TakeSettings(c, s))
  {
    hide Inv, Send, ApplySettings;
    var c1 := Log(c, Event.Recv(SettingsFrame(false, s)));
    LogKeeps(c, Event.Recv(SettingsFrame(false, s)));
    SettingsShape(c1, s);
    assert c1.streams == map[] ==> ApplySettings(c1, s).conn.streams == map[];
    SameKeeps(c1, ApplySettings(c1, s).conn);
    SendKeeps(ApplySettings(c1, s).conn, SettingsFrame(true, NO_SETTINGS));
  }

  lemma HeardKeeps(c: Conn, f: Frame, c': Conn)
    requires Inv(c) && SameUploads(Log(c, Event.Recv(f)), c')
    ensures Inv(c')
  {
    hide Inv;
    LogKeeps(c, Event.Recv(f));
    SameKeeps(Log(c, Event.Recv(f)), c');
  }

  lemma HearResetKeeps(c: Conn, id: nat, code: nat, err: H2Error)
    requires Inv(c)
    ensures Inv(Doom(Log(c, Event.Recv(RstStream(id, code))), {id}, err))
  {
    hide Inv, Doom;
    LogKeeps(c, Event.Recv(RstStream(id, code)));
    DoomKeeps(Log(c, Event.Recv(RstStream(id, code))), {id}, err);
  }

  lemma HearPingKeeps(c: Conn, ack: bool, opaque8: bytes)
    requires Inv(c)
    ensures Inv(HandlePing(Log(c, Event.Recv(Ping(ack, opaque8))), ack, opaque8))
  {
    hide Inv, Send;
    var c1 := Log(c, Event.Recv(Ping(ack, opaque8)));
    LogKeeps(c, Event.Recv(Ping(ack, opaque8)));
    if ack {
      SameKeeps(c1, HandlePing(c1, ack, opaque8));
    } else {
      SendKeeps(c1, Ping(true, opaque8));
    }
  }

  lemma GoawayKeeps(c: Conn, last: nat, code: nat, debug: bytes)
    requires Inv(c)
    ensures Inv(TakeGoaway(c, last, code, debug))
  {
    hide Inv, Doom;
    var c1 := Log(c, Event.Recv(Goaway(last, code, debug)));
    LogKeeps(c, Event.Recv(Goaway(last, code, debug)));
    SameKeeps(c1, c1.(goaway := true));
    DoomKeeps(c1.(goaway := true), Above(c.streams.Keys, last), H2Error(CodeOr(code, NoError), PeerGoaway));
  }

  lemma CrashKeeps(cfg: Config, c: Conn, f: Frame)
    requires Inv(c) && Handle(cfg, c, f).error.Some?
    ensures Inv(ConnectionError(Handle(cfg, c, f).conn, Handle(cfg, c, f).error.value))
  {
    hide Inv, Send, Destroy, Handle;
    var o := Handle(cfg, c, f);
    CrashShape(cfg, c, f);
    LogKeeps(c, Event.Recv(f));
    SameKeeps(Log(c, Event.Recv(f)), o.conn);
    LastWords(o.conn, o.conn.highestPromised, o.error.value.code.Value(), o.error.value);
  }

  lemma CreditSame(c: Conn, id: nat, n: nat)
    ensures SameUploads(Log(c, Event.Recv(WindowUpdate(id, n))), TakeCredit(c, id, n))
  {
    hide TakeCredit;
    CreditShape(c, id, n);
    assert c.streams == map[] ==> TakeCredit(c, id, n).streams == map[];
  }

  lemma InKeeps(cfg: Config, c: Conn, m: Inward)
    requires Inv(c) && MayIn(cfg, c, m)
    ensures Inv(DoIn(cfg, c, m))
  {
    hide Inv, TakeData, TakeSettings, TakeCredit, Deliver, RefusePush, TakeGoaway, HandlePing, Turn, FinishBody, ResetStream, YieldChunk, DropBody, Open, Doom, Send, Destroy, StartPing, Handle, DecodeBlock;
    match m
    case SetInbox(rest) => SameKeeps(c, DoIn(cfg, c, m));
    case Hear(f, block) => HeardKeeps(c, f, DoIn(cfg, c, m));
    case HearCredit(id, n) => CreditSame(c, id, n); HeardKeeps(c, WindowUpdate(id, n), DoIn(cfg, c, m));
    case HearZero(id) =>
      LogKeeps(c, Event.Recv(WindowUpdate(id, 0)));
      ResetStreamKeeps(Log(c, Event.Recv(WindowUpdate(id, 0))), id, ProtocolError);
    case HearReset(id, code) => HearResetKeeps(c, id, code, H2Error(CodeOr(code, ProtocolError), PeerReset));
    case HearPing(ack, opaque8) => HearPingKeeps(c, ack, opaque8);
    case HearGoaway(last, code, debug) => GoawayKeeps(c, last, code, debug);
    case HearData(id, data, endStream) => DataKeeps(c, id, data, endStream);
    case HearSettings(s) => SettingsKeep(c, s);
    case SetCodec(input) => SameKeeps(c, DoIn(cfg, c, m));
    case TakeHeaders(id, headers, endStream) => DeliverKeeps(c, id, headers, endStream);
    case Refuse(promised, headers) => RefuseKeeps(c, promised, headers);
    case Crash(f) => CrashKeeps(cfg, c, f);
    case Garbled(e) => LastWords(c, c.highestPromised, e.code.Value(), e);
    case Stop(e) => DestroyKeeps(c, e);
  }

  lemma OutKeeps(cfg: Config, c: Conn, m: Outward)
    requires Inv(c) && MayOut(cfg, c, m)
    ensures Inv(DoOut(cfg, c, m))
  {
    hide Inv, TakeData, TakeSettings, TakeCredit, Deliver, RefusePush, TakeGoaway, HandlePing, Turn, FinishBody, ResetStream, YieldChunk, DropBody, Open, Doom, Send, Destroy, StartPing, Handle, DecodeBlock;
    match m
    case MoveOpen(headers, hasBody) => OpenKeeps(cfg, c, headers, hasBody);
    case MoveQueue(token) => SameKeeps(c, DoOut(cfg, c, m));
    case MoveFeed(id, chunk) => FeedKeeps(c, id, chunk);
    case MoveTurn(id) => TurnKeeps(c, id);
    case MoveFinish(id) => FinishKeeps(c, id);
    case MoveClaim(id) => SameKeeps(c, DoOut(cfg, c, m));
    case MoveYield(id) => YieldKeeps(c, id);
    case MoveYieldError(id) => LogKeeps(c, YieldedError(id)); SameKeeps(Log(c, YieldedError(id)), YieldError(c, id));
    case MoveYieldEnd(id) => LogKeeps(c, YieldedEnd(id));
    case MoveWait(id) => SameKeeps(c, Wait(c, id));
    case MoveDrop(id) => DropKeeps(c, id);
    case MovePing => PingKeeps(c);
    case Quit(e) => DestroyKeeps(c, e);
    case MoveClose => LastWords(c, c.highestPromised, 0, H2Error(NoError, ClosedByClient));
  }

  lemma PingKeeps(c: Conn)
    requires Inv(c)
    ensures Inv(StartPing(c))
  {
    hide Inv, Send, PingKey;
    if c.closed.None? {
      var n := (c.pingCounter + 1) % U32_LIMIT;
      var key, token := PingKey(n), c.nextPong;
      var pongs := if key in c.pings then c.pongs[c.pings[key] := Overwritten] else c.pongs;
      var c1 := c.(pingCounter := n, nextPong := token + 1, pings := c.pings[key := token], pongs := pongs[token := Waiting]);
      SameKeeps(c, c1);
      SendKeeps(c1, Ping(false, key));
    }
  }

  lemma ConnectKeeps(cfg: Config)
    ensures Inv(Connect(cfg))
  {
    var quiet, f := Quiet(cfg), SettingsFrame(false, OurSettings(cfg));
    assert Inv(quiet);
    hide Inv, Send;
    SendKeeps(quiet, f);
    if cfg.connectionWindow > SPEC_WINDOW {
      SendKeeps(Send(quiet, f), WindowUpdate(0, cfg.connectionWindow - SPEC_WINDOW));
    }
  }

  /** Every trace of every run is accepted by the observer. */
  lemma RunAccepted(cfg: Config, steps: seq<Step>)
    requires cfg.tables.Sized()
    ensures Inv(Run(cfg, steps)) && Accepted(Run(cfg, steps).log)
  {
    hide Inv, DoIn, DoOut, MayIn, MayOut, Run, Connect;
    ConnectKeeps(cfg);
    forall c, m | MayIn(cfg, c, m) && Inv(c)
      ensures Inv(DoIn(cfg, c, m))
    {
      InKeeps(cfg, c, m);
    }
    forall c, m | MayOut(cfg, c, m) && Inv(c)
      ensures Inv(DoOut(cfg, c, m))
    {
      OutKeeps(cfg, c, m);
    }
    RunByMoves(cfg, Inv, steps);
    assert Accepted(Run(cfg, steps).log) by { InvAccepts(Run(cfg, steps)); }
  }

  lemma InvAccepts(c: Conn)
    requires Inv(c)
    ensures Accepted(c.log)
  {
  }

  // --- what the observer's verdict means, event by event ---

  /** The streams opened, in order. */
  function Opens(log: Trace): (ids: seq<nat>) {
    match log
    case Begin => []
    case After(past, Opened(id, _, _)) => Opens(past) + [id]
    case After(past, _) => Opens(past)
  }

  /** The body a stream was given so far, and whether that is all of it. */
  function BodyOf(log: Trace, id: nat): (body: bytes) {
    match log
    case Begin => []
    case After(past, Fed(i, chunk)) => BodyOf(past, id) + if i == id then chunk else []
    case After(past, _) => BodyOf(past, id)
  }

  predicate BodyWhole(log: Trace, id: nat) {
    match log
    case Begin => false
    case After(past, FedAll(i)) => i == id || BodyWhole(past, id)
    case After(past, Opened(i, _, hasBody)) => (i == id && !hasBody) || BodyWhole(past, id)
    case After(past, _) => BodyWhole(past, id)
  }

  /** The DATA bytes written on a stream, and whether END_STREAM was. */
  function DataOf(log: Trace, id: nat): (data: bytes) {
    match log
    case Begin => []
    case After(past, Sent(Data(i, d, _))) => DataOf(past, id) + if i == id then d else []
    case After(past, _) => DataOf(past, id)
  }

  predicate EndSent(log: Trace, id: nat) {
    match log
    case Begin => false
    case After(past, Sent(Data(i, _, end))) => (i == id && end) || EndSent(past, id)
    case After(past, Sent(Headers(i, _, end, _, _))) => (i == id && end) || EndSent(past, id)
    case After(past, _) => EndSent(past, id)
  }

  /** The header block fragments written on a stream, put together, and the block it was opened with. */
  function FragmentsOf(log: Trace, id: nat): (block: bytes) {
    match log
    case Begin => []
    case After(past, Sent(Headers(i, fragment, _, _, _))) => FragmentsOf(past, id) + if i == id then fragment else []
    case After(past, Sent(Continuation(i, fragment, _))) => FragmentsOf(past, id) + if i == id then fragment else []
    case After(past, _) => FragmentsOf(past, id)
  }

  function BlockOf(log: Trace, id: nat): (block: bytes) {
    match log
    case Begin => []
    case After(past, Opened(i, block, _)) => if i == id then block else BlockOf(past, id)
    case After(past, _) => BlockOf(past, id)
  }

  predicate GoawaySent(log: Trace) {
    match log
    case Begin => false
    case After(past, Sent(Goaway(_, _, _))) => true
    case After(past, _) => GoawaySent(past)
  }

  /** A block that has not begun belongs to a stream on which nothing was written. */
  predicate BlockSane(w: Watch) {
    w.block.Some? ==>
      var p := w.block.value;
      p.streamId in w.uploads &&
      (p.first ==>
        var u := w.uploads[p.streamId];
        !u.ended && u.sent == 0 && (p.endStream ==> u.whole && u.fed == []))
  }

  lemma {:induction false} OpensInOrder(log: Trace)
    requires Accepted(log)
    ensures BlockSane(Watching(log))
    ensures Watching(log).next == 2 * |Opens(log)| + 1
    ensures forall i :: 0 <= i < |Opens(log)| ==> Opens(log)[i] == 2 * i + 1
    ensures forall id :: id in Watching(log).uploads ==> id < Watching(log).next
    ensures Watching(log).away == GoawaySent(log)
  {
    if log.After? {
      OpensInOrder(log.past);
    }
  }

  /** What the observer keeps for a stream is what the trace says about it. */
  ghost predicate Recorded(log: Trace, id: nat) {
    var w := Watching(log);
    if id in w.uploads then
      var u := w.uploads[id];
      && u.fed == BodyOf(log, id) && u.whole == BodyWhole(log, id) && u.ended == EndSent(log, id)
      && u.sent <= |u.fed| && DataOf(log, id) == u.fed[..u.sent]
      && (u.ended ==> u.whole && u.sent == |u.fed|)
    else BodyOf(log, id) == DataOf(log, id) == [] && !BodyWhole(log, id) && !EndSent(log, id)
  }

  lemma {:induction false} UploadRecorded(log: Trace, id: nat)
    requires Accepted(log)
    ensures Recorded(log, id)
  {
    if log.After? {
      UploadRecorded(log.past, id);
      OpensInOrder(log.past);
      StillRecorded(log.past, log.event, id);
    }
  }

  lemma StillRecorded(past: Trace, e: Event, id: nat)
    requires Recorded(past, id) && Legal(Watching(past), e) && BlockSane(Watching(past))
    requires forall i :: i in Watching(past).uploads ==> i < Watching(past).next
    ensures Recorded(After(past, e), id)
  {
    var w := Watching(past);
    match e
    case Fed(i, chunk) => FedRecorded(past, i, chunk, id);
    case Sent(f) => SentRecorded(past, f, id);
    case _ =>
  }

  lemma FedRecorded(past: Trace, i: nat, chunk: bytes, id: nat)
    requires Recorded(past, id) && Legal(Watching(past), Event.Fed(i, chunk))
    ensures Recorded(After(past, Event.Fed(i, chunk)), id)
  {
    hide LegalFragment, LegalData;
    var w := Watching(past);
    if i == id {
      var u := w.uploads[id];
      assert (u.fed + chunk)[..u.sent] == u.fed[..u.sent];
    }
  }

  lemma SentRecorded(past: Trace, f: Frame, id: nat)
    requires Recorded(past, id) && Legal(Watching(past), Sent(f)) && BlockSane(Watching(past))
    ensures Recorded(After(past, Sent(f)), id)
  {
    var w := Watching(past);
    match f
    case Data(i, data, _) =>
      if i == id {
        var u := w.uploads[id];
        assert u.fed[..u.sent + |data|] == u.fed[..u.sent] + u.fed[u.sent..u.sent + |data|];
      }
    case _ =>
  }

  /**
   * Per stream, in an accepted trace: what went out as DATA is a prefix of the body, and
   * END_STREAM is written only with all of it.
   */
  lemma UploadFaithful(log: Trace, id: nat)
    requires Accepted(log)
    ensures DataOf(log, id) <= BodyOf(log, id)
    ensures EndSent(log, id) ==> BodyWhole(log, id) && DataOf(log, id) == BodyOf(log, id)
  {
    UploadRecorded(log, id);
  }

  /** No DATA is written on a stream after END_STREAM, and nothing anywhere after a GOAWAY. */
  lemma {:induction false} NothingAfterTheEnd(log: Trace, past: Trace, f: Frame)
    requires Accepted(log) && Reaches(log, After(past, Sent(f)))
    ensures !GoawaySent(past) && (f.Data? ==> !EndSent(past, f.streamId))
  {
    if log == After(past, Sent(f)) {
      OpensInOrder(past);
      if f.Data? {
        UploadRecorded(past, f.streamId);
      }
    } else {
      NothingAfterTheEnd(log.past, past, f);
    }
  }

  // --- the header block of a stream ---

  ghost predicate BlockRecorded(log: Trace, id: nat) {
    var w := Watching(log);
    if id in w.uploads then
      BlockOf(log, id) == FragmentsOf(log, id) + (if w.block.Some? && w.block.value.streamId == id then w.block.value.rest else [])
    else FragmentsOf(log, id) == []
  }

  lemma {:induction false} BlockFaithful(log: Trace, id: nat)
    requires Accepted(log)
    ensures BlockRecorded(log, id)
  {
    if log.After? {
      BlockFaithful(log.past, id);
      OpensInOrder(log.past);
      BlockStill(log.past, log.event, id);
    }
  }

  lemma BlockStill(past: Trace, e: Event, id: nat)
    requires BlockRecorded(past, id) && Legal(Watching(past), e) && BlockSane(Watching(past))
    requires forall i :: i in Watching(past).uploads ==> i < Watching(past).next
    ensures BlockRecorded(After(past, e), id)
  {
    var w := Watching(past);
    if e.Sent? && w.block.Some? {
      var p := w.block.value;
      var fragment := e.frame.fragment;
      assert p.rest == fragment + p.rest[|fragment|..];
    }
  }

  /**
   * The write side of a run. Streams are opened as 1, 3, 5 and so on; each writes exactly the
   * header block it was opened with, then a prefix of its body as DATA, END_STREAM only with
   * the whole body, and then no more DATA; nothing follows a GOAWAY.
   */
  lemma OutboundLegal(cfg: Config, steps: seq<Step>, id: nat)
    requires cfg.tables.Sized()
    ensures var log := Run(cfg, steps).log;
            && Accepted(log)
            && (forall i :: 0 <= i < |Opens(log)| ==> Opens(log)[i] == 2 * i + 1)
            && (id in Opens(log) ==> FragmentsOf(log, id) == BlockOf(log, id))
            && DataOf(log, id) <= BodyOf(log, id)
            && (EndSent(log, id) ==> BodyWhole(log, id) && DataOf(log, id) == BodyOf(log, id))
  {
    hide Run, Inv, Watching, Accepted, BlockOf, FragmentsOf;
    var log := Run(cfg, steps).log;
    RunAccepted(cfg, steps);
    OpensInOrder(log);
    UploadFaithful(log, id);
    BlockFaithful(log, id);
    BetweenBlocks(Run(cfg, steps));
    if id in Opens(log) {
      OpenedWatched(log, id);
      assert FragmentsOf(log, id) + [] == FragmentsOf(log, id);
    }
  }

  lemma BetweenBlocks(c: Conn)
    requires Inv(c)
    ensures Watching(c.log).block.None?
  {
  }

  lemma {:induction false} OpenedWatched(log: Trace, id: nat)
    requires id in Opens(log)
    ensures id in Watching(log).uploads
  {
    match log
    case After(past, e) => if id in Opens(past) { OpenedWatched(past, id); }
  }
}
