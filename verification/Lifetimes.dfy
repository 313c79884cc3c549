/** How long a stream lives and what its request is told, read off the trace alone: section 5.1 of RFC 7540. */
module Lifetimes {
  import opened Common
  import opened Hpack
  import opened Frames
  import opened Flow
  import opened Connection
  import opened Moves

  // --- an observer of the trace ---

  /**
   * Of an opened stream: END_STREAM each way, the first final head, the last block after it, the
   * error that cut it off, and whether the body has yielded that error.
   */
  datatype Life = Life(
    sentEnd: bool, heardEnd: bool, head: Option<seq<Header>>, trailers: Option<seq<Header>>, cut: Option<H2Error>, told: bool)

  predicate Living(l: Life) {
    l.cut.None? && !(l.sentEnd && l.heardEnd)
  }

  /** `pending` is that a header block is open, which only a CONTINUATION may follow; `highest` the highest stream promised. */
  datatype World = World(lives: map<nat, Life>, pending: bool, highest: nat)

  /** An interim head changes nothing; the first other one is the head, and any later block trailers. */
  function WithBlock(l: Life, headers: seq<Header>, endStream: bool): (l': Life) {
    if l.head.None? && Interim(headers) then l.(heardEnd := l.heardEnd || endStream)
    else if l.head.None? then l.(head := Some(headers), heardEnd := l.heardEnd || endStream)
    else l.(trailers := Some(headers), heardEnd := l.heardEnd || endStream)
  }

  predicate Alive(ls: map<nat, Life>, id: nat) {
    id in ls && Living(ls[id])
  }

  function Cut(ls: map<nat, Life>, ids: set<nat>, err: H2Error): (ls': map<nat, Life>) {
    map i | i in ls :: if i in ids && Living(ls[i]) then ls[i].(cut := Some(err)) else ls[i]
  }

  function Hearing(w: World, f: Frame): (w': World) {
    if w.pending && !f.Continuation? then w
    else
      var ls := match f
        case Data(id, _, endStream) => if Alive(w.lives, id) && endStream then w.lives[id := w.lives[id].(heardEnd := true)] else w.lives
        case RstStream(id, code) => Cut(w.lives, {id}, H2Error(CodeOr(code, ProtocolError), PeerReset))
        case Goaway(last, code, _) => Cut(w.lives, Above(w.lives.Keys, last), H2Error(CodeOr(code, NoError), PeerGoaway))
        case _ => w.lives;
      World(ls, Unfinished(f), w.highest)
  }

  function Observe(w: World, e: Event): (w': World) {
    match e
    case Opened(id, _, hasBody) => w.(lives := w.lives[id := Life(!hasBody, false, None, None, None, false)])
    case Recv(f) => Hearing(w, f)
    case Block(id, true, _, _) => w.(highest := if id > w.highest then id else w.highest)
    case Block(id, false, headers, endStream) =>
      if Alive(w.lives, id) then w.(lives := w.lives[id := WithBlock(w.lives[id], headers, endStream)]) else w
    case Sent(Data(id, _, true)) =>
      if Alive(w.lives, id) then w.(lives := w.lives[id := w.lives[id].(sentEnd := true)]) else w
    case Sent(RstStream(id, code)) =>
      if code == RefusedStream.Value() then w
      else w.(lives := Cut(w.lives, {id}, H2Error(CodeOr(code, ProtocolError), StreamReset)))
    case TornDown(err) => w.(lives := Cut(w.lives, w.lives.Keys, err))
    case YieldedError(id) => if id in w.lives then w.(lives := w.lives[id := w.lives[id].(told := true)]) else w
    case _ => w
  }

  function Seen(log: Trace): (w: World) {
    match log
    case Begin => World(map[], false, 0)
    case After(past, e) => Observe(Seen(past), e)
  }

  // --- the connection is where the observer thinks it is ---

  predicate StreamFits(s: Strm, l: Life) {
    s.localClosed == l.sentEnd && s.remoteClosed == l.heardEnd && s.gotHead == l.head.Some?
  }

  /** The request waits while its stream lives, and then is answered, failed or abandoned. */
  predicate HeadFits(head: Head, l: Life, mapped: bool) {
    if l.head.Some? then head == Answered(Status(l.head.value), l.head.value)
    else if mapped then head.Awaiting?
    else if l.cut.Some? then head == Failed(l.cut.value)
    else head.Abandoned?
  }

  predicate CellFits(cell: Cell, l: Life, mapped: bool) {
    && HeadFits(cell.head, l, mapped) && cell.trailers == l.trailers && (l.told ==> l.cut.Some?)
    && cell.recv.error == if l.told then None else l.cut
  }

  /** What holds of one stream; one that is `loose` may have both directions ended and not be retired yet. */
  ghost predicate Fits(c: Conn, ls: map<nat, Life>, id: nat, loose: bool)
    requires id in c.cells && id in ls
  {
    && (id in c.streams ==> ls[id].cut.None? && StreamFits(c.streams[id], ls[id]) && (loose || Living(ls[id])))
    && (id !in c.streams ==> !Living(ls[id]))
    && CellFits(c.cells[id], ls[id], id in c.streams)
  }

  ghost predicate Settling(c: Conn, loose: set<nat>) {
    var w := Seen(c.log);
    && w.lives.Keys == c.cells.Keys && c.streams.Keys <= c.cells.Keys
    && (c.closed.None? ==> (w.pending <==> c.block.Some?)) && w.highest == c.highestPromised
    && (c.closed.Some? ==> c.streams.Keys == {})
    && (forall id :: id in c.cells ==> id < c.nextId && Fits(c, w.lives, id, id in loose))
  }

  ghost predicate Inv(c: Conn) {
    Settling(c, {})
  }

  predicate Unseen(e: Event) {
    match e
    case Opened(_, _, _) => false
    case Recv(_) => false
    case Block(_, _, _, _) => false
    case Sent(f) => !f.RstStream? && (f.Data? ==> !f.endStream)
    case TornDown(_) => false
    case YieldedError(_) => false
    case _ => true
  }

  lemma Unfold(log: Trace, e: Event)
    ensures Seen(After(log, e)) == Observe(Seen(log), e)
    ensures Unseen(e) ==> Seen(After(log, e)) == Seen(log)
  {
  }

  // --- changes that do not matter here ---

  ghost predicate Same(c: Conn, c': Conn) {
    && c'.nextId == c.nextId && c'.closed == c.closed && c'.highestPromised == c.highestPromised && (c'.block.Some? <==> c.block.Some?)
    && c'.cells.Keys == c.cells.Keys && c'.streams.Keys == c.streams.Keys
    && (forall id :: id in c.streams ==>
          && c'.streams[id].gotHead == c.streams[id].gotHead && c'.streams[id].localClosed == c.streams[id].localClosed
          && c'.streams[id].remoteClosed == c.streams[id].remoteClosed)
    && (forall id :: id in c.cells ==>
          && c'.cells[id].head == c.cells[id].head && c'.cells[id].trailers == c.cells[id].trailers
          && c'.cells[id].recv.error == c.cells[id].recv.error)
  }

  lemma SameKeeps(c: Conn, c': Conn)
    requires Inv(c) && Same(c, c') && Seen(c'.log) == Seen(c.log)
    ensures Inv(c')
  {
    hide Seen, Living, HeadFits;
  }

  lemma LogKeeps(c: Conn, e: Event)
    requires Inv(c) && Unseen(e)
    ensures Inv(Log(c, e))
  {
    hide Inv;
    Unfold(c.log, e);
    SameKeeps(c, Log(c, e));
  }

  lemma SendKeeps(c: Conn, f: Frame)
    requires Inv(c) && Unseen(Sent(f))
    ensures Inv(Send(c, f)) && Seen(Send(c, f).log) == Seen(c.log)
  {
    hide Inv;
    Unfold(c.log, Sent(f));
    if c.closed.None? {
      LogKeeps(c, Sent(f));
    }
  }

  lemma {:induction false} SendAllKeeps(c: Conn, fs: seq<Frame>)
    requires Inv(c) && forall f :: f in fs ==> Unseen(Sent(f))
    ensures Inv(SendAll(c, fs))
    decreases |fs|
  {
    hide Inv, Send;
    if fs != [] {
      SendKeeps(c, fs[0]);
      SendAllKeeps(Send(c, fs[0]), fs[1..]);
    }
  }

  /** Once closed nobody lives, and nothing more is seen of anyone. */
  lemma ClosedLog(c: Conn, e: Event)
    requires Inv(c) && c.closed.Some? && !e.Opened? && !e.YieldedError? && !(e.Block? && e.push)
    ensures Seen(After(c.log, e)).lives == Seen(c.log).lives && Inv(Log(c, e))
  {
    Unfold(c.log, e);
    var ls := Seen(c.log).lives;
    forall id | id in ls
      ensures !Living(ls[id])
    {
      assert id in c.cells;
    }
    NoneCut(ls);
    hide Seen, Living, HeadFits;
  }

  lemma NoneCut(ls: map<nat, Life>)
    requires forall id :: id in ls ==> !Living(ls[id])
    ensures forall ids: set<nat>, err: H2Error :: Cut(ls, ids, err) == ls
  {
  }

  // --- what ends a stream ---

  /** A stream with both directions ended goes, and its request with it. */
  lemma RetireKeeps(c: Conn, id: nat)
    requires Settling(c, {id})
    ensures Inv(Retire(c, id))
  {
    hide Seen, CellFits;
    if id in c.streams && c.streams[id].localClosed && c.streams[id].remoteClosed {
      GoneFits(c.cells[id], Seen(c.log).lives[id]);
    }
  }

  lemma GoneFits(cell: Cell, l: Life)
    requires CellFits(cell, l, true) && l.cut.None?
    ensures CellFits(if l.head.None? then cell.(head := Abandoned) else cell, l, false)
  {
    hide Status;
  }

  lemma Settles(c: Conn, id: nat)
    requires Inv(c)
    ensures Settling(c, {id})
  {
    hide Seen, Living, CellFits;
  }

  lemma DoomFits(c: Conn, ls: map<nat, Life>, ids: set<nat>, err: H2Error, id: nat)
    requires id in c.cells && id in ls && Fits(c, ls, id, false)
    ensures Fits(Doom(c, ids, err), Cut(ls, ids, err), id, false)
  {
    hide Sleepers, CellFits;
    if id in c.streams {
      FailFits(c.cells[id], ls[id], c.streams[id].gotHead, err);
    }
  }

  lemma FailFits(cell: Cell, l: Life, gotHead: bool, err: H2Error)
    requires CellFits(cell, l, true) && l.cut.None? && gotHead == l.head.Some?
    ensures CellFits(FailCell(cell, gotHead, err), l.(cut := Some(err)), false) && CellFits(cell, l, true)
  {
    hide Status;
  }

  /** Streams fail exactly as the trace says they are cut. */
  lemma DoomKeeps(c: Conn, ids: set<nat>, err: H2Error, log: Trace)
    requires Inv(c) && Seen(log) == Seen(c.log).(lives := Cut(Seen(c.log).lives, ids, err))
    ensures Inv(Doom(c, ids, err).(log := log)) && Inv(WakeSlots(Doom(c, ids, err)).(log := log))
  {
    hide Seen, Living, Cut, Fits;
    var ls, d := Seen(c.log).lives, Doom(c, ids, err);
    assert Cut(ls, ids, err).Keys == ls.Keys by { CutKeys(ls, ids, err); }
    DoomShape(c, ids, err);
    forall id | id in c.cells
      ensures id in d.cells && Fits(d, Cut(ls, ids, err), id, false)
    {
      DoomFits(c, ls, ids, err, id);
    }
    hide Doom;
    FitsBlind(d, log, Cut(ls, ids, err));
  }

  lemma CutKeys(ls: map<nat, Life>, ids: set<nat>, err: H2Error)
    ensures Cut(ls, ids, err).Keys == ls.Keys
  {
  }

  lemma DoomShape(c: Conn, ids: set<nat>, err: H2Error)
    ensures var d := Doom(c, ids, err);
            && d.streams.Keys == c.streams.Keys - ids && d.cells.Keys == c.cells.Keys && d.closed == c.closed
            && d.block == c.block && d.nextId == c.nextId
  {
  }

  lemma FitsBlind(c: Conn, log: Trace, ls: map<nat, Life>)
    requires forall id :: id in c.cells ==> id in ls && Fits(c, ls, id, false)
    ensures forall id :: id in c.cells ==>
              && Fits(c.(log := log), ls, id, false) && Fits(WakeSlots(c).(log := log), ls, id, false)
  {
    hide Living, CellFits;
  }

  /** One frame or event has cut `ids` off. */
  lemma CutBy(c: Conn, e: Event, ids: set<nat>, err: H2Error)
    requires Inv(c) && Seen(After(c.log, e)) == Seen(c.log).(lives := Cut(Seen(c.log).lives, ids, err))
    ensures Inv(Doom(Log(c, e), ids, err)) && Inv(WakeSlots(Doom(Log(c, e), ids, err)))
  {
    hide Inv, Seen, Doom;
    DoomKeeps(c, ids, err, After(c.log, e));
    DoomBlind(c, e, ids, err);
  }

  lemma DoomBlind(c: Conn, e: Event, ids: set<nat>, err: H2Error)
    ensures Doom(Log(c, e), ids, err) == Doom(c, ids, err).(log := After(c.log, e))
  {
    hide FailCell, Sleepers;
  }

  lemma ResetKeeps(c: Conn, id: nat, code: ErrorCode)
    requires Inv(c) && code != RefusedStream
    ensures Inv(ResetStream(c, id, code))
  {
    hide Inv, Doom, Send;
    if c.closed.None? {
      CodeBack(code);
      Unfold(c.log, Sent(RstStream(id, code.Value())));
      CutBy(c, Sent(RstStream(id, code.Value())), {id}, H2Error(code, StreamReset));
      assert Send(c, RstStream(id, code.Value())) == Log(c, Sent(RstStream(id, code.Value()))) by { OpenSends(c, RstStream(id, code.Value())); }
    } else {
      NobodyThere(c, {id}, H2Error(code, StreamReset));
      assert Send(c, RstStream(id, code.Value())) == c by { ClosedSends(c, RstStream(id, code.Value())); }
    }
  }

  lemma CodeBack(code: ErrorCode)
    ensures ErrorCode.FromValue(code.Value()) == Some(code)
    ensures code.Value() == RefusedStream.Value() ==> code == RefusedStream
  {
  }

  lemma OpenSends(c: Conn, f: Frame)
    requires c.closed.None?
    ensures Send(c, f) == Log(c, Sent(f))
  {
  }

  lemma ClosedSends(c: Conn, f: Frame)
    requires c.closed.Some?
    ensures Send(c, f) == c
  {
  }

  lemma NobodyThere(c: Conn, ids: set<nat>, err: H2Error)
    requires Inv(c) && c.closed.Some?
    ensures Inv(Doom(c, ids, err)) && Inv(WakeSlots(Doom(c, ids, err)))
  {
    hide Inv;
    assert c.streams.Keys == {} by { NoStreams(c); }
    SameKeeps(c, Doom(c, ids, err));
    SameKeeps(c, WakeSlots(Doom(c, ids, err)));
  }

  lemma NoStreams(c: Conn)
    requires Inv(c) && c.closed.Some?
    ensures c.streams.Keys == {}
  {
  }

  lemma DestroyKeeps(c: Conn, err: H2Error)
    requires Inv(c)
    ensures Inv(Destroy(c, err))
  {
    hide Inv, Doom, Destroy, FailPongs;
    if c.closed.None? {
      DestroyShape(c, err);
      Unfold(c.log, TornDown(err));
      EveryoneCut(c, err);
      DoomKeeps(c, c.streams.Keys, err, After(c.log, TornDown(err)));
      NowClosed(Doom(c, c.streams.Keys, err).(log := After(c.log, TornDown(err))), Destroy(c, err));
    } else {
      assert Destroy(c, err) == c by { Closed(c, err); }
    }
  }

  lemma EveryoneCut(c: Conn, err: H2Error)
    requires Inv(c)
    ensures var ls := Seen(c.log).lives; Cut(ls, ls.Keys, err) == Cut(ls, c.streams.Keys, err)
  {
    hide Seen, CellFits;
  }

  lemma NowClosed(c: Conn, c': Conn)
    requires Inv(c) && c.streams == map[] && c'.closed.Some?
    requires c'.log == c.log && c'.streams == c.streams && c'.cells == c.cells && c'.nextId == c.nextId
    requires c'.highestPromised == c.highestPromised
    ensures Inv(c')
  {
    hide Seen, Living, CellFits;
  }

  lemma Closed(c: Conn, err: H2Error)
    requires c.closed.Some?
    ensures Destroy(c, err) == c
  {
  }

  lemma LastWords(c: Conn, f: Frame, err: H2Error)
    requires Inv(c) && f.Goaway?
    ensures Inv(Destroy(Send(c, f), err))
  {
    hide Inv, Destroy;
    SendKeeps(c, f);
    DestroyKeeps(Send(c, f), err);
  }

  /** A frame that fails is out of turn or is none that the observer acts on. */
  lemma CrashKeeps(cfg: Config, c: Conn, f: Frame)
    requires Inv(c) && Handle(cfg, c, f).error.Some?
    ensures Inv(ConnectionError(Handle(cfg, c, f).conn, Handle(cfg, c, f).error.value))
  {
    var o := Handle(cfg, c, f);
    FailingFrames(cfg, c, f);
    CrashShape(cfg, c, f);
    hide Inv, Handle, Destroy;
    if c.closed.Some? {
      ClosedLog(c, Event.Recv(f));
      SameKeeps(Log(c, Event.Recv(f)), o.conn.(block := c.block)) by { SameCore(Log(c, Event.Recv(f)), o.conn); }
      NowBlocked(o.conn.(block := c.block), o.conn);
      LastWords(o.conn, Goaway(o.conn.highestPromised, o.error.value.code.Value(), []), o.error.value);
    } else {
      ThenCloses(c, f, o.conn, o.error.value);
    }
  }

  lemma SameCore(c: Conn, d: Conn)
    requires SameStreams(c, d)
    ensures Same(c, d.(block := c.block))
  {
  }

  lemma NowBlocked(c: Conn, c': Conn)
    requires Inv(c) && c.closed.Some? && c' == c.(block := c'.block)
    ensures Inv(c')
  {
    hide Seen, Living, CellFits;
  }

  lemma FailingFrames(cfg: Config, c: Conn, f: Frame)
    requires Handle(cfg, c, f).error.Some?
    ensures (c.block.Some? && !f.Continuation?) || f.SettingsFrame? || OfBlock(f) || f.WindowUpdate?
  {
    hide Gather, ApplySettings, Doom, ReceiveData, Retire, ResetStream, HandleGoaway, HandlePing, GrantConn, GrantStream;
  }

  /** Whatever such a frame did to the pending block, the close that follows makes it moot. */
  lemma ThenCloses(c: Conn, f: Frame, d: Conn, err: H2Error)
    requires Inv(c) && c.closed.None?
    requires (c.block.Some? && !f.Continuation?) || f.SettingsFrame? || OfBlock(f) || f.WindowUpdate?
    requires d.log == After(c.log, Event.Recv(f)) && SameStreams(c, d)
    ensures Inv(ConnectionError(d, err))
  {
    hide Destroy;
    var g := Goaway(d.highestPromised, err.code.Value(), []);
    Unfold(c.log, Event.Recv(f));
    Unfold(d.log, Sent(g));
    assert Seen(d.log).lives == Seen(c.log).lives && Seen(d.log).highest == Seen(c.log).highest;
    hide Seen, Hearing;
    var e := c.(log := Send(d, g).log);
    var steady := d.(log := e.log, block := if Seen(e.log).pending then Some(Pending(0, false, false, 0, [], 0)) else None);
    assert Inv(steady) by { SteadyKeeps(c, steady); }
    hide Inv;
    DestroyKeeps(steady, err);
    BlockMoot(steady, Send(d, g), err);
  }

  lemma SteadyKeeps(c: Conn, d: Conn)
    requires Inv(c) && c.closed.None? && SameStreams(c, d.(log := c.log))
    requires Seen(d.log).lives == Seen(c.log).lives && (Seen(d.log).pending <==> d.block.Some?) && Seen(d.log).highest == Seen(c.log).highest
    ensures Inv(d)
  {
    hide Seen, Living, HeadFits;
  }

  lemma BlockMoot(c: Conn, c': Conn, err: H2Error)
    requires c.closed.None? && c' == c.(block := c'.block, remote := c'.remote, table := c'.table, waiters := c'.waiters) && Inv(Destroy(c, err))
    ensures Inv(Destroy(c', err))
  {
    hide Seen, Living, CellFits, FailCell, FailPongs;
    var d, d' := Destroy(c, err), Destroy(c', err);
    assert d'.cells == d.cells && d'.streams == d.streams && d'.log == d.log && d'.nextId == d.nextId && d'.closed == d.closed;
  }

  // --- what the peer causes ---

  lemma HearKeeps(c: Conn, f: Frame, block: Option<Pending>)
    requires Inv(c) && Passive(f) && InTurn(c, f) && (block.Some? <==> Unfinished(f))
    ensures Inv(Log(c, Event.Recv(f)).(block := block))
  {
    if c.closed.Some? {
      ClosedLog(c, Event.Recv(f));
      hide Inv;
      NowBlocked(Log(c, Event.Recv(f)), Log(c, Event.Recv(f)).(block := block));
    } else {
      Unfold(c.log, Event.Recv(f));
      hide Seen, Living, HeadFits;
    }
  }

  /** A frame in its turn that ends no stream. */
  lemma HeardKeeps(c: Conn, f: Frame, c': Conn)
    requires Inv(c) && c.block.None? && (f.WindowUpdate? || f.SettingsFrame? || f.Ping?) && Same(Log(c, Event.Recv(f)), c')
    requires c'.log == After(c.log, Event.Recv(f))
    ensures Inv(c')
  {
    hide Inv;
    if c.closed.Some? {
      ClosedLog(c, Event.Recv(f));
    } else {
      TurnKeepsLives(c, f);
    }
    SameKeeps(Log(c, Event.Recv(f)), c');
  }

  lemma TurnKeepsLives(c: Conn, f: Frame)
    requires Inv(c) && c.block.None? && c.closed.None? && (f.WindowUpdate? || f.SettingsFrame? || f.Ping?)
    ensures Inv(Log(c, Event.Recv(f)))
  {
    Unfold(c.log, Event.Recv(f));
    hide Seen, Living, HeadFits;
  }

  lemma DataKeeps(c: Conn, id: nat, data: bytes, endStream: bool)
    requires Inv(c) && c.block.None?
    ensures Inv(TakeData(c, id, data, endStream))
  {
    hide Inv, Settling, Retire, ReceiveData;
    var f := Data(id, data, endStream);
    var c1 := ReceiveData(Log(c, Event.Recv(f)), id, data, endStream);
    if c.closed.Some? {
      ClosedLog(c, Event.Recv(f));
      NoStreams(c);
      DeadDataKeeps(Log(c, Event.Recv(f)), id, data, endStream);
      Settles(c1, id);
    } else if id in c.streams {
      LiveDataKeeps(c, id, data, endStream);
    } else {
      DeadHeard(c, f);
      DeadDataKeeps(Log(c, Event.Recv(f)), id, data, endStream);
      Settles(c1, id);
    }
    if endStream {
      RetireKeeps(c1, id);
    }
  }

  lemma DeadHeard(c: Conn, f: Frame)
    requires Inv(c) && c.block.None? && c.closed.None? && f.Data? && f.streamId !in c.streams
    ensures Inv(Log(c, Event.Recv(f)))
  {
    Unfold(c.log, Event.Recv(f));
    assert f.streamId in c.cells ==> !Living(Seen(c.log).lives[f.streamId]);
    hide Seen, Living, HeadFits;
  }

  lemma DeadDataKeeps(c: Conn, id: nat, data: bytes, endStream: bool)
    requires Inv(c) && id !in c.streams
    ensures Inv(ReceiveData(c, id, data, endStream))
  {
    hide Inv, Send;
    if data != [] {
      LogKeeps(c, Returned(id, |data|));
      SendKeeps(Log(c, Returned(id, |data|)), WindowUpdate(0, |data| % U32_LIMIT));
    }
  }

  /** One live stream has moved on, with its cell and its life; it may now have ended both ways. */
  lemma LiveMoved(c: Conn, c': Conn, id: nat, l: Life)
    requires Inv(c) && c.closed.None? && id in c.streams
    requires Seen(c'.log) == Seen(c.log).(lives := Seen(c.log).lives[id := l])
    requires id in c'.streams && id in c'.cells && c'.streams == c.streams[id := c'.streams[id]] && c'.cells == c.cells[id := c'.cells[id]]
    requires c'.nextId == c.nextId && c'.closed == c.closed && c'.block == c.block && c'.highestPromised == c.highestPromised
    requires l.cut.None? && StreamFits(c'.streams[id], l) && CellFits(c'.cells[id], l, true)
    ensures Settling(c', {id})
  {
    hide Seen, Living, CellFits, StreamFits;
  }

  lemma LiveFits(c: Conn, id: nat)
    requires Inv(c) && id in c.streams
    ensures var ls := Seen(c.log).lives;
            && id in ls && id in c.cells && Living(ls[id]) && StreamFits(c.streams[id], ls[id]) && CellFits(c.cells[id], ls[id], true)
  {
    hide Seen, Living, CellFits, StreamFits;
  }

  lemma LiveDataKeeps(c: Conn, id: nat, data: bytes, endStream: bool)
    requires Inv(c) && c.block.None? && c.closed.None? && id in c.streams
    ensures var c1 := ReceiveData(Log(c, Event.Recv(Data(id, data, endStream))), id, data, endStream);
            Settling(c1, {id}) && (!endStream ==> Inv(c1))
  {
    hide DataOnRecv, Inv, Settling;
    var w, f := Seen(c.log), Data(id, data, endStream);
    LiveFits(c, id);
    NotPending(c);
    DataSeen(c, id, data, endStream);
    var l' := w.lives[id].(heardEnd := w.lives[id].heardEnd || endStream);
    var c1 := ReceiveData(Log(c, Event.Recv(f)), id, data, endStream);
    DataCell(c.cells[id], w.lives[id], data, endStream);
    hide Seen, CellFits, ReceiveData;
    ReceivedShape(c, id, data, endStream);
    LiveMoved(c, c1, id, l');
    if !endStream {
      StillLiving(c1, id);
    }
  }

  lemma ReceivedShape(c: Conn, id: nat, data: bytes, endStream: bool)
    requires id in c.streams && id in c.cells
    ensures var c1 := ReceiveData(Log(c, Event.Recv(Data(id, data, endStream))), id, data, endStream);
            && c1 == c.(log := c1.log, streams := c1.streams, cells := c1.cells)
            && c1.streams == c.streams[id := c.streams[id].(remoteClosed := c.streams[id].remoteClosed || endStream)]
            && c1.cells == c.cells[id := c.cells[id].(recv := DataOnRecv(c.cells[id].recv, data, endStream))]
  {
    hide DataOnRecv;
  }

  lemma DataCell(cell: Cell, l: Life, data: bytes, endStream: bool)
    requires CellFits(cell, l, true)
    ensures CellFits(cell.(recv := DataOnRecv(cell.recv, data, endStream)), l.(heardEnd := l.heardEnd || endStream), true)
  {
    hide Status;
  }

  lemma DataSeen(c: Conn, id: nat, data: bytes, endStream: bool)
    requires id in c.streams && id in c.cells && Alive(Seen(c.log).lives, id) && !Seen(c.log).pending
    ensures var ls := Seen(c.log).lives;
            Seen(ReceiveData(Log(c, Event.Recv(Data(id, data, endStream))), id, data, endStream).log)
            == Seen(c.log).(lives := ls[id := ls[id].(heardEnd := ls[id].heardEnd || endStream)])
  {
    hide DataOnRecv;
    var ls, log := Seen(c.log).lives, After(c.log, Event.Recv(Data(id, data, endStream)));
    assert ls[id := ls[id]] == ls;
    Unfold(c.log, Event.Recv(Data(id, data, endStream)));
    Unfold(log, Discarded(id, |data|));
    hide Seen;
  }

  lemma NotPending(c: Conn)
    requires Inv(c) && c.block.None? && c.closed.None?
    ensures !Seen(c.log).pending
  {
  }

  lemma StillLiving(c: Conn, id: nat)
    requires Settling(c, {id}) && id in Seen(c.log).lives && Living(Seen(c.log).lives[id])
    ensures Inv(c)
  {
    hide Seen, Living, CellFits, StreamFits;
  }

  lemma DeliverKeeps(c: Conn, id: nat, headers: seq<Header>, endStream: bool)
    requires Inv(c)
    ensures Inv(Deliver(c, id, headers, endStream))
  {
    hide Inv, Settling, Retire, ReceiveHeaders;
    var c0 := Log(c, Block(id, false, headers, endStream));
    var c1 := ReceiveHeaders(c0, id, headers, endStream);
    if id in c.streams {
      LiveBlockKeeps(c, id, headers, endStream);
    } else {
      DeadBlockKeeps(c, id, headers, endStream);
      assert c1 == c0 by { NotTaken(c0, id, headers, endStream); }
      Settles(c1, id);
    }
    if endStream {
      RetireKeeps(c1, id);
    }
  }

  lemma NotTaken(c: Conn, id: nat, headers: seq<Header>, endStream: bool)
    requires id !in c.streams
    ensures ReceiveHeaders(c, id, headers, endStream) == c
  {
  }

  lemma DeadBlockKeeps(c: Conn, id: nat, headers: seq<Header>, endStream: bool)
    requires Inv(c) && id !in c.streams
    ensures Inv(Log(c, Block(id, false, headers, endStream)))
  {
    Unfold(c.log, Block(id, false, headers, endStream));
    assert id in c.cells ==> !Living(Seen(c.log).lives[id]);
    hide Seen, Living, HeadFits, Interim;
  }

  lemma LiveBlockKeeps(c: Conn, id: nat, headers: seq<Header>, endStream: bool)
    requires Inv(c) && id in c.streams
    ensures var c1 := ReceiveHeaders(Log(c, Block(id, false, headers, endStream)), id, headers, endStream);
            Settling(c1, {id}) && (!endStream ==> Inv(c1))
  {
    hide Interim, Status;
    var w, e := Seen(c.log), Block(id, false, headers, endStream);
    var l' := WithBlock(w.lives[id], headers, endStream);
    LiveFits(c, id);
    Unfold(c.log, e);
    var c1 := ReceiveHeaders(Log(c, e), id, headers, endStream);
    BlockFits(c.streams[id], c.cells[id], w.lives[id], headers, endStream);
    assert c.closed.None? by { StillOpen(c, id); }
    hide Seen, Inv, Settling, HeadersOnCell, WithBlock, CellFits, StreamFits;
    LiveMoved(c, c1, id, l');
    if !endStream {
      StillLiving(c1, id);
    }
  }

  lemma StillOpen(c: Conn, id: nat)
    requires Inv(c) && id in c.streams
    ensures c.closed.None?
  {
  }

  lemma BlockFits(s: Strm, cell: Cell, l: Life, headers: seq<Header>, endStream: bool)
    requires Living(l) && StreamFits(s, l) && CellFits(cell, l, true)
    ensures var l' := WithBlock(l, headers, endStream);
            && l'.cut.None? && (!endStream ==> Living(l'))
            && StreamFits(s.(gotHead := s.gotHead || !Interim(headers), remoteClosed := s.remoteClosed || endStream), l')
            && CellFits(HeadersOnCell(cell, s.gotHead, headers, endStream), l', true)
  {
    hide Interim, Status;
  }

  lemma PromisedKeeps(c: Conn, promised: nat, headers: seq<Header>)
    requires Inv(c)
    ensures Inv(Log(c, Block(promised, true, headers, false)).(
                  highestPromised := if promised > c.highestPromised then promised else c.highestPromised))
  {
    Unfold(c.log, Block(promised, true, headers, false));
    hide Seen, Living, CellFits;
  }

  lemma RefuseKeeps(c: Conn, promised: nat, headers: seq<Header>)
    requires Inv(c)
    ensures Inv(RefusePush(c, promised, headers))
  {
    hide Inv, Send;
    var e, f := Block(promised, true, headers, false), RstStream(promised, RefusedStream.Value());
    var c2 := Log(c, e).(highestPromised := if promised > c.highestPromised then promised else c.highestPromised);
    PromisedKeeps(c, promised, headers);
    if c.closed.None? {
      Unfold(c2.log, Sent(f));
      assert Send(c2, f) == Log(c2, Sent(f)) by { OpenSends(c2, f); }
      SameKeeps(c2, Log(c2, Sent(f)));
    } else {
      assert Send(c2, f) == c2 by { ClosedSends(c2, f); }
    }
  }

  lemma SettingsKeep(c: Conn, s: Settings)
    requires Inv(c) && c.block.None?
    ensures Inv(TakeSettings(c, s))
  {
    hide Inv, Send, ApplySettings;
    var c1 := Log(c, Event.Recv(SettingsFrame(false, s)));
    SettingsShape(c1, s);
    SettingsBlock(c1, s);
    HeardKeeps(c, SettingsFrame(false, s), ApplySettings(c1, s).conn);
    SendKeeps(ApplySettings(c1, s).conn, SettingsFrame(true, NO_SETTINGS));
  }

  lemma SettingsBlock(c: Conn, s: Settings)
    ensures ApplySettings(c, s).conn.block == c.block
  {
  }

  lemma PingKeeps(c: Conn, ack: bool, opaque8: bytes)
    requires Inv(c) && c.block.None?
    ensures Inv(HandlePing(Log(c, Event.Recv(Ping(ack, opaque8))), ack, opaque8))
  {
    hide Inv, Send;
    var c1 := Log(c, Event.Recv(Ping(ack, opaque8)));
    HeardKeeps(c, Ping(ack, opaque8), c1);
    if ack {
      SameKeeps(c1, HandlePing(c1, ack, opaque8));
    } else {
      SendKeeps(c1, Ping(true, opaque8));
    }
  }

  lemma PeerResetKeeps(c: Conn, id: nat, code: nat)
    requires Inv(c) && c.block.None?
    ensures Inv(TakeReset(c, id, code))
  {
    hide Inv, Doom;
    var e, err := Event.Recv(RstStream(id, code)), H2Error(CodeOr(code, ProtocolError), PeerReset);
    if c.closed.Some? {
      ClosedLog(c, e);
      NobodyThere(Log(c, e), {id}, err);
    } else {
      NotPending(c);
      Unfold(c.log, e);
      assert Seen(After(c.log, e)) == Seen(c.log).(lives := Cut(Seen(c.log).lives, {id}, err));
      CutBy(c, e, {id}, err);
    }
  }

  lemma GoawayKeeps(c: Conn, last: nat, code: nat, debug: bytes)
    requires Inv(c) && c.block.None?
    ensures Inv(TakeGoaway(c, last, code, debug))
  {
    hide Inv, Doom;
    var e, err := Event.Recv(Goaway(last, code, debug)), H2Error(CodeOr(code, NoError), PeerGoaway);
    var ids, c1 := Above(c.streams.Keys, last), c.(goaway := true);
    SameKeeps(c, c1);
    if c.closed.Some? {
      ClosedLog(c1, e);
      NobodyThere(Log(c1, e), ids, err);
    } else {
      NotPending(c);
      Unfold(c.log, e);
      AboveCut(c, last, err);
      assert Seen(After(c.log, e)) == Seen(c.log).(lives := Cut(Seen(c.log).lives, ids, err));
      CutBy(c1, e, ids, err);
    }
  }

  lemma AboveCut(c: Conn, last: nat, err: H2Error)
    requires Inv(c)
    ensures var ls := Seen(c.log).lives; Cut(ls, Above(ls.Keys, last), err) == Cut(ls, Above(c.streams.Keys, last), err)
  {
    hide Seen, CellFits;
  }

  lemma ZeroKeeps(c: Conn, id: nat)
    requires Inv(c) && c.block.None?
    ensures Inv(TakeZero(c, id))
  {
    hide Inv, ResetStream;
    HeardKeeps(c, WindowUpdate(id, 0), Log(c, Event.Recv(WindowUpdate(id, 0))));
    ResetKeeps(Log(c, Event.Recv(WindowUpdate(id, 0))), id, ProtocolError);
  }

  lemma CreditKeeps(c: Conn, id: nat, n: nat)
    requires Inv(c) && c.block.None?
    ensures Inv(TakeCredit(c, id, n))
  {
    hide Inv, TakeCredit;
    CreditShape(c, id, n);
    HeardKeeps(c, WindowUpdate(id, n), TakeCredit(c, id, n));
  }

  lemma InKeeps(cfg: Config, c: Conn, m: Inward)
    requires Inv(c) && MayIn(cfg, c, m)
    ensures Inv(DoIn(cfg, c, m))
  {
    hide Inv, TakeData, TakeSettings, TakeCredit, TakeZero, TakeReset, TakeGoaway, Deliver, RefusePush, HandlePing,
         Destroy, Handle, DecodeBlock, ApplySettings;
    match m
    case SetInbox(rest) => SameKeeps(c, DoIn(cfg, c, m));
    case SetCodec(input) => SameKeeps(c, DoIn(cfg, c, m));
    case Hear(f, block) => HearKeeps(c, f, block);
    case HearCredit(id, n) => CreditKeeps(c, id, n);
    case HearZero(id) => ZeroKeeps(c, id);
    case HearData(id, data, endStream) => DataKeeps(c, id, data, endStream);
    case HearSettings(s) => SettingsKeep(c, s);
    case HearReset(id, code) => PeerResetKeeps(c, id, code);
    case HearPing(ack, opaque8) => PingKeeps(c, ack, opaque8);
    case HearGoaway(last, code, debug) => GoawayKeeps(c, last, code, debug);
    case TakeHeaders(id, headers, endStream) => DeliverKeeps(c, id, headers, endStream);
    case Refuse(promised, headers) => RefuseKeeps(c, promised, headers);
    case Crash(f) => CrashKeeps(cfg, c, f);
    case Garbled(e) => LastWords(c, Goaway(c.highestPromised, e.code.Value(), []), e);
    case Stop(e) => DestroyKeeps(c, e);
  }

  // --- what the application and the uploads cause ---

  lemma OpenKeeps(cfg: Config, c: Conn, headers: seq<Header>, hasBody: bool)
    requires cfg.tables.Sized() && Inv(c) && c.closed.None?
    ensures Inv(Open(cfg, c, headers, hasBody))
  {
    hide EncodeHeaders, SendAll, SplitHeaders, Inv;
    var block := EncodeHeaders(cfg.tables, headers);
    var c1 := Log(Reserve(c, hasBody), Event.Opened(c.nextId, block, hasBody));
    ReserveKeeps(c, hasBody, block);
    HeaderFramesOnly(c.nextId, block, !hasBody, c.remote.maxFrameSize);
    SendAllKeeps(c1, SplitHeaders(c.nextId, block, !hasBody, c.remote.maxFrameSize));
  }

  lemma ReserveKeeps(c: Conn, hasBody: bool, block: bytes)
    requires Inv(c) && c.closed.None?
    ensures Inv(Log(Reserve(c, hasBody), Event.Opened(c.nextId, block, hasBody)))
  {
    var id, l := c.nextId, Life(!hasBody, false, None, None, None, false);
    var c' := Log(Reserve(c, hasBody), Event.Opened(id, block, hasBody));
    Unfold(c.log, Event.Opened(id, block, hasBody));
    assert StreamFits(c'.streams[id], l) && CellFits(c'.cells[id], l, true) && Living(l);
    hide Seen, Fresh, CellFits, StreamFits, Living;
    Appeared(c, c', id, l);
  }

  lemma Appeared(c: Conn, c': Conn, id: nat, l: Life)
    requires Inv(c) && c.closed.None? && c'.closed.None? && id == c.nextId && c'.nextId > id && c'.block == c.block
    requires c'.highestPromised == c.highestPromised
    requires Seen(c'.log) == Seen(c.log).(lives := Seen(c.log).lives[id := l]) && l.cut.None? && Living(l)
    requires id in c'.streams && id in c'.cells && c'.streams == c.streams[id := c'.streams[id]] && c'.cells == c.cells[id := c'.cells[id]]
    requires StreamFits(c'.streams[id], l) && CellFits(c'.cells[id], l, true)
    ensures Inv(c')
  {
    hide Seen, Living, CellFits, StreamFits;
  }

  lemma TurnKeeps(c: Conn, id: nat)
    requires PumpIs(c, id, false) && c.cells[id].pump.offset <= |c.cells[id].pump.chunk| && Inv(c)
    ensures Inv(Turn(c, id))
  {
    hide Inv, Turn;
    TurnShape(c, id);
    if Turn(c, id).log != c.log {
      Unfold(c.log, Turn(c, id).log.event);
    }
    SameKeeps(c, Turn(c, id));
  }

  lemma FinishKeeps(c: Conn, id: nat)
    requires PumpIs(c, id, true) && Inv(c)
    ensures Inv(FinishBody(c, id))
  {
    hide Inv, Settling, Retire;
    LogKeeps(c, Event.FedAll(id));
    var c1 := SetPump(Log(c, Event.FedAll(id)), id, Finished);
    SameKeeps(Log(c, Event.FedAll(id)), c1);
    if id in c.streams {
      HalfCloseSettles(c1, id);
      var c2 := Send(c1, Data(id, [], true));
      RetireKeeps(SetStream(c2, id, c2.streams[id].(localClosed := true)), id);
    }
  }

  lemma HalfCloseSettles(c: Conn, id: nat)
    requires Inv(c) && id in c.streams
    ensures var c2 := Send(c, Data(id, [], true));
            id in c2.streams && Settling(SetStream(c2, id, c2.streams[id].(localClosed := true)), {id})
  {
    var w, e := Seen(c.log), Sent(Data(id, [], true));
    LiveFits(c, id);
    StillOpen(c, id);
    Unfold(c.log, e);
    assert c.cells[id := c.cells[id]] == c.cells;
    hide Seen, Inv, Settling;
    var c2 := Send(c, Data(id, [], true));
    LiveMoved(c, SetStream(c2, id, c2.streams[id].(localClosed := true)), id, w.lives[id].(sentEnd := true));
  }

  lemma YieldErrorKeeps(c: Conn, id: nat)
    requires Inv(c) && Holds(c, id) && c.cells[id].recv.error.Some?
    ensures Inv(YieldError(c, id))
  {
    Unfold(c.log, YieldedError(id));
    var l := Seen(c.log).lives[id];
    assert id !in c.streams && CellFits(YieldError(c, id).cells[id], l.(told := true), false);
    hide Seen, CellFits;
    DeadMoved(c, YieldError(c, id), id, l.(told := true));
  }

  lemma DeadMoved(c: Conn, c': Conn, id: nat, l: Life)
    requires Inv(c) && id in c.cells && id !in c.streams && !Living(l)
    requires Seen(c'.log) == Seen(c.log).(lives := Seen(c.log).lives[id := l])
    requires id in c'.cells && c' == c.(log := c'.log, cells := c.cells[id := c'.cells[id]]) && CellFits(c'.cells[id], l, false)
    ensures Inv(c')
  {
    hide Seen, Living, CellFits;
  }

  lemma YieldKeeps(c: Conn, id: nat)
    requires Inv(c) && Holds(c, id) && c.cells[id].recv.queue != []
    ensures Inv(YieldChunk(c, id))
  {
    hide Inv, Replenish;
    var e := Yielded(id, c.cells[id].recv.queue[0]);
    LogKeeps(c, e);
    SameKeeps(Log(c, e), TakeChunk(c, id));
    ReplenishKeeps(TakeChunk(c, id), id, |c.cells[id].recv.queue[0]|);
  }

  lemma ReplenishKeeps(c: Conn, id: nat, n: nat)
    requires Inv(c)
    ensures Inv(Replenish(c, id, n))
  {
    hide Inv, Send;
    var c0 := Log(c, Returned(id, n));
    var f := WindowUpdate(id, n % U32_LIMIT);
    var c1 := if id in c.streams then Send(c0, f) else c0;
    LogKeeps(c, Returned(id, n));
    SendKeeps(c0, f);
    SendKeeps(c1, WindowUpdate(0, n % U32_LIMIT));
  }

  lemma DropKeeps(c: Conn, id: nat)
    requires Inv(c) && Holds(c, id)
    ensures Inv(DropBody(c, id))
  {
    hide Inv, Replenish, ResetStream;
    var c0 := Log(c, Event.Released(id));
    var c1, c2 := SetCell(c0, id, c.cells[id].(body := Dropped)), Relinquish(c, id);
    LogKeeps(c, Event.Released(id));
    SameKeeps(c0, c1);
    if c.cells[id].recv.buffered > 0 {
      ReplenishKeeps(c1, id, c.cells[id].recv.buffered);
    }
    ResetKeeps(c2, id, Cancel);
  }

  lemma StartPingKeeps(c: Conn)
    requires Inv(c)
    ensures Inv(StartPing(c))
  {
    hide Inv, Send, PingKey;
    if c.closed.None? {
      var n := (c.pingCounter + 1) % U32_LIMIT;
      var key, token := PingKey(n), c.nextPong;
      var pongs := if key in c.pings then c.pongs[c.pings[key] := Overwritten] else c.pongs;
      var c1 := c.(pingCounter := n, nextPong := token + 1, pings := c.pings[key := token], pongs := pongs[token := Waiting]);
      SameKeeps(c, c1);
      SendKeeps(c1, Ping(false, key));
    }
  }

  lemma OutKeeps(cfg: Config, c: Conn, m: Outward)
    requires Inv(c) && MayOut(cfg, c, m)
    ensures Inv(DoOut(cfg, c, m))
  {
    hide Inv, SetPump, Claim, YieldError, Turn, FinishBody, YieldChunk, DropBody, Open, Destroy, StartPing, CanOpen, Unheard;
    match m
    case Quit(e) => DestroyKeeps(c, e);
    case MoveOpen(headers, hasBody) => OpenKeeps(cfg, c, headers, hasBody);
    case MoveTurn(id) => TurnKeeps(c, id);
    case MoveFinish(id) => FinishKeeps(c, id);
    case MoveYield(id) => YieldKeeps(c, id);
    case MoveYieldError(id) => YieldErrorKeeps(c, id);
    case MoveDrop(id) => DropKeeps(c, id);
    case MovePing => StartPingKeeps(c);
    case MoveClose => LastWords(c, Goaway(c.highestPromised, 0, []), H2Error(NoError, ClosedByClient));
    case MoveFeed(id, chunk) => FeedKeeps(c, id, chunk);
    case MoveYieldEnd(id) => LogKeeps(c, YieldedEnd(id));
    case MoveQueue(_) => SameKeeps(c, DoOut(cfg, c, m));
    case MoveClaim(id) => ClaimKeeps(c, id);
    case MoveWait(id) => SameKeeps(c, DoOut(cfg, c, m));
  }

  lemma FeedKeeps(c: Conn, id: nat, chunk: bytes)
    requires Inv(c) && PumpIs(c, id, true)
    ensures Inv(SetPump(Log(c, Event.Fed(id, chunk)), id, Sending(chunk, 0)))
  {
    hide Inv;
    LogKeeps(c, Event.Fed(id, chunk));
    SameKeeps(Log(c, Event.Fed(id, chunk)), SetPump(Log(c, Event.Fed(id, chunk)), id, Sending(chunk, 0)));
  }

  lemma ClaimKeeps(c: Conn, id: nat)
    requires Inv(c) && id in c.cells
    ensures Inv(Claim(c, id))
  {
    hide Inv;
    SameKeeps(c, Claim(c, id));
  }

  lemma ConnectKeeps(cfg: Config)
    ensures Inv(Connect(cfg))
  {
    ConnectShape(cfg);
    hide Connect;
    var f := SettingsFrame(false, OurSettings(cfg));
    Unfold(Begin, Sent(f));
    Unfold(After(Begin, Sent(f)), Sent(WindowUpdate(0, if cfg.connectionWindow > SPEC_WINDOW then cfg.connectionWindow - SPEC_WINDOW else 0)));
    assert Seen(Begin) == World(map[], false, 0);
    hide Seen;
  }

  lemma RunKeeps(cfg: Config, steps: seq<Step>)
    requires cfg.tables.Sized()
    ensures Inv(Run(cfg, steps))
  {
    hide Inv, DoIn, DoOut, MayIn, MayOut, Run, Connect;
    ConnectKeeps(cfg);
    forall c, m | MayIn(cfg, c, m) && Inv(c)
      ensures Inv(DoIn(cfg, c, m))
    {
      InKeeps(cfg, c, m);
    }
    forall c, m | MayOut(cfg, c, m) && Inv(c)
      ensures Inv(DoOut(cfg, c, m))
    {
      OutKeeps(cfg, c, m);
    }
    RunByMoves(cfg, Inv, steps);
  }

  // --- the theorems ---

  /**
   * In every state of every run a stream is mapped if and only if, by the trace alone, it was
   * opened, END_STREAM has not gone both ways, and nothing has cut it off: no RST_STREAM of the
   * peer's, none of ours but a refusal, no GOAWAY below it, no teardown.
   */
  lemma MappedExactly(cfg: Config, steps: seq<Step>, id: nat)
    requires cfg.tables.Sized()
    ensures var c := Run(cfg, steps);
            && (id in c.cells <==> id in Seen(c.log).lives)
            && (id in c.streams <==> Alive(Seen(c.log).lives, id))
            && (id in c.streams ==>
                  c.streams[id].localClosed == Seen(c.log).lives[id].sentEnd && c.streams[id].remoteClosed == Seen(c.log).lives[id].heardEnd)
  {
    hide Run, Seen, Living, CellFits;
    RunKeeps(cfg, steps);
  }

  /**
   * And its request: it is answered if and only if a final head came while the stream was
   * mapped, with the first such; the trailers are the last block after that; without a head it
   * waits while mapped, fails with the error that cut the stream off, or else is abandoned. The
   * body holds that error until it has yielded it.
   */
  lemma ToldExactly(cfg: Config, steps: seq<Step>, id: nat)
    requires cfg.tables.Sized() && id in Run(cfg, steps).cells
    ensures var c := Run(cfg, steps); var cell := c.cells[id];
            && id in Seen(c.log).lives
            && var l := Seen(c.log).lives[id];
            && (cell.head.Answered? <==> l.head.Some?)
            && (l.head.Some? ==> cell.head == Answered(Status(l.head.value), l.head.value))
            && (cell.head.Awaiting? <==> l.head.None? && id in c.streams)
            && (cell.head.Failed? <==> l.head.None? && id !in c.streams && l.cut.Some?)
            && (cell.head.Failed? ==> Some(cell.head.error) == l.cut)
            && cell.trailers == l.trailers && cell.recv.error == if l.told then None else l.cut
  {
    hide Run, Seen;
    RunKeeps(cfg, steps);
  }

  function HighestPromise(log: Trace): (id: nat) {
    match log
    case Begin => 0
    case After(past, Block(promised, true, _, _)) => if promised > HighestPromise(past) then promised else HighestPromise(past)
    case After(past, _) => HighestPromise(past)
  }

  lemma {:induction false} HighestSeen(log: Trace)
    ensures Seen(log).highest == HighestPromise(log)
  {
    if log.After? {
      HighestSeen(log.past);
    }
  }

  /** What our GOAWAY frames name, in every state of every run: the highest stream the peer has promised, 0 before any. */
  lemma PromisesExactly(cfg: Config, steps: seq<Step>)
    requires cfg.tables.Sized()
    ensures Run(cfg, steps).highestPromised == HighestPromise(Run(cfg, steps).log)
  {
    hide Run, Seen, Living, HighestPromise;
    RunKeeps(cfg, steps);
    HighestSeen(Run(cfg, steps).log);
  }
}
