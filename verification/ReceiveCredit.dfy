/** Conservation of receive-window credit over whole runs. */
module ReceiveCredit {
  import opened Common
  import opened Hpack
  import opened Frames
  import opened Flow
  import opened Connection
  import opened Moves

  /** The increment as the peer reads it: a 31-bit field. */
  function OnWire(n: nat): (w: nat) {
    n % U31
  }

  lemma Truncated(n: nat)
    ensures OnWire(n % U32_LIMIT) == OnWire(n)
  {
    assert n == U32_LIMIT * (n / U32_LIMIT) + n % U32_LIMIT;
    assert U32_LIMIT * (n / U32_LIMIT) == U31 * (2 * (n / U32_LIMIT));
    ModShift(n % U32_LIMIT, 2 * (n / U32_LIMIT));
  }

  lemma ModShift(a: nat, k: nat)
    ensures (U31 * k + a) % U31 == a % U31
  {
    if k > 0 {
      ModShift(a, k - 1);
      assert U31 * k + a == U31 * (k - 1) + a + U31;
    }
  }

  /**
   * DATA bytes received; credit returned on the connection; credit lost to 31-bit truncation;
   * bytes discarded after END_STREAM; and per stream, bytes received minus credit returned.
   * The streams whose body was dropped, and whether only those gave back 2^24 bytes at once.
   */
  datatype Books = Books(
    received: nat, credited: nat, lost: nat, discarded: nat, owed: map<nat, int>, gone: set<nat>, fit: bool)

  const NO_BOOKS := Books(0, 0, 0, 0, map[], {}, true)

  function Owed(b: Books, id: nat): (n: int) {
    if id in b.owed then b.owed[id] else 0
  }

  function Enter(b: Books, e: Event): (b': Books) {
    match e
    case Recv(Data(id, data, _)) => b.(received := b.received + |data|, owed := b.owed[id := Owed(b, id) + |data|])
    case Sent(WindowUpdate(id, inc)) =>
      if id == 0 then b.(credited := b.credited + OnWire(inc))
      else b.(owed := b.owed[id := Owed(b, id) - OnWire(inc)])
    case Released(id) => b.(gone := b.gone + {id})
    case Returned(id, n) => b.(lost := b.lost + (n - OnWire(n)), fit := b.fit && (n < U24_LIMIT || id in b.gone))
    case Discarded(_, n) => b.(discarded := b.discarded + n)
    case _ => b
  }

  function BooksOf(log: Trace): (b: Books) {
    match log
    case Begin => NO_BOOKS
    case After(past, e) => Enter(BooksOf(past), e)
  }

  /** A request that has failed never claims its body. */
  predicate Lost(cell: Cell) {
    cell.body.Unclaimed? && (cell.head.Failed? || cell.head.Abandoned?)
  }

  /** Bytes the application can still read, of one stream and of the streams below `n`; */
  function Readable(cells: map<nat, Cell>, id: nat): (n: int) {
    if id in cells && !cells[id].body.Dropped? && !Lost(cells[id]) then cells[id].recv.buffered else 0
  }

  function ReadableBelow(cells: map<nat, Cell>, n: nat): (sum: int) {
    if n == 0 then 0 else ReadableBelow(cells, n - 1) + Readable(cells, n - 1)
  }

  /** bytes that nobody can ever read and nothing gives back; */
  function Stranded(cells: map<nat, Cell>, id: nat): (n: int) {
    if id in cells && Lost(cells[id]) then cells[id].recv.buffered else 0
  }

  function StrandedBelow(cells: map<nat, Cell>, n: nat): (sum: int) {
    if n == 0 then 0 else StrandedBelow(cells, n - 1) + Stranded(cells, n - 1)
  }

  /** both together. */
  function Unread(cells: map<nat, Cell>, id: nat): (n: int) {
    if id in cells && !cells[id].body.Dropped? then cells[id].recv.buffered else 0
  }

  function UnreadBelow(cells: map<nat, Cell>, n: nat): (sum: int) {
    if n == 0 then 0 else UnreadBelow(cells, n - 1) + Unread(cells, n - 1)
  }

  lemma {:induction false} UnreadParts(cells: map<nat, Cell>, n: nat)
    ensures UnreadBelow(cells, n) == ReadableBelow(cells, n) + StrandedBelow(cells, n)
  {
    if n > 0 {
      UnreadParts(cells, n - 1);
    }
  }

  lemma {:induction false} UnreadCounts(cells: map<nat, Cell>, n: nat)
    requires forall id :: id in cells ==> cells[id].recv.buffered >= 0
    ensures UnreadBelow(cells, n) >= 0 && StrandedBelow(cells, n) >= 0 && ReadableBelow(cells, n) >= 0
  {
    if n > 0 {
      UnreadCounts(cells, n - 1);
    }
  }

  lemma {:induction false} UnreadMoves(cells: map<nat, Cell>, cells': map<nat, Cell>, id: nat, n: nat)
    requires forall i :: i != id ==> Unread(cells', i) == Unread(cells, i)
    ensures UnreadBelow(cells', n) == UnreadBelow(cells, n) + if id < n then Unread(cells', id) - Unread(cells, id) else 0
  {
    if n > 0 {
      UnreadMoves(cells, cells', id, n - 1);
    }
  }

  /** What the first WINDOW_UPDATE grows the connection window by. */
  function Grow(cfg: Config): (n: nat) {
    if cfg.connectionWindow > SPEC_WINDOW then OnWire(cfg.connectionWindow - SPEC_WINDOW) else 0
  }

  ghost predicate Balanced(cfg: Config, c: Conn) {
    var b := BooksOf(c.log);
    b.received + Grow(cfg) == b.credited + b.lost + b.discarded + UnreadBelow(c.cells, c.nextId)
  }

  /** What is accounted for is never more than what came in, not even once closed. */
  ghost predicate Bounded(cfg: Config, c: Conn) {
    var b := BooksOf(c.log);
    b.credited + b.lost + b.discarded + UnreadBelow(c.cells, c.nextId) <= b.received + Grow(cfg)
  }

  predicate Small(queue: seq<bytes>) {
    forall i :: 0 <= i < |queue| ==> |queue[i]| < U24_LIMIT
  }

  predicate Sound(cell: Cell) {
    cell.recv.buffered == Total(cell.recv.queue) && Small(cell.recv.queue)
  }

  ghost predicate Core(c: Conn) {
    && (forall id :: Unread(c.cells, id) <= Owed(BooksOf(c.log), id))
    && BooksOf(c.log).fit
    && (forall id :: id in c.cells ==> id < c.nextId && Sound(c.cells[id]))
    && c.streams.Keys <= c.cells.Keys && 0 !in c.cells && c.nextId > 0
    && (forall id :: id in c.streams && c.cells[id].body.Dropped? ==> c.cells[id].recv.ended)
  }

  ghost predicate Inv(cfg: Config, c: Conn) {
    Core(c) && Bounded(cfg, c) && (c.closed.None? ==> Balanced(cfg, c))
  }

  predicate Unbooked(e: Event) {
    match e
    case Recv(f) => !f.Data?
    case Sent(f) => !f.WindowUpdate?
    case Released(_) => false
    case Returned(_, _) => false
    case Discarded(_, _) => false
    case _ => true
  }

  lemma Book(log: Trace, e: Event)
    ensures BooksOf(After(log, e)) == Enter(BooksOf(log), e)
    ensures Unbooked(e) ==> BooksOf(After(log, e)) == BooksOf(log)
  {
  }

  /** Nothing booked, nothing read, no body dropped. */
  ghost predicate Idle(c: Conn, c': Conn) {
    && BooksOf(c'.log) == BooksOf(c.log) && c'.nextId == c.nextId && (c'.closed.None? ==> c.closed.None?)
    && c'.cells.Keys == c.cells.Keys && c'.streams.Keys <= c.streams.Keys
    && forall id :: id in c.cells ==>
         && c'.cells[id].recv.buffered == c.cells[id].recv.buffered && c'.cells[id].recv.queue == c.cells[id].recv.queue
         && (c.cells[id].recv.ended ==> c'.cells[id].recv.ended)
         && c'.cells[id].body.Dropped? == c.cells[id].body.Dropped?
  }

  lemma IdleKeeps(cfg: Config, c: Conn, c': Conn)
    requires Inv(cfg, c) && Idle(c, c')
    ensures Inv(cfg, c')
  {
    hide BooksOf, UnreadBelow, Total, Small, Owed;
    IdleBase(cfg, c, c');
    UnreadMoves(c.cells, c'.cells, 0, c.nextId);
  }

  lemma LogKeeps(cfg: Config, c: Conn, e: Event)
    requires Inv(cfg, c) && Unbooked(e)
    ensures Inv(cfg, Log(c, e))
  {
    hide Inv, BooksOf;
    Book(c.log, e);
    IdleKeeps(cfg, c, Log(c, e));
  }

  lemma SendKeeps(cfg: Config, c: Conn, f: Frame)
    requires Inv(cfg, c) && !f.WindowUpdate?
    ensures Inv(cfg, Send(c, f))
  {
    hide Inv;
    if c.closed.None? {
      LogKeeps(cfg, c, Sent(f));
    }
  }

  lemma {:induction false} SendAllKeeps(cfg: Config, c: Conn, fs: seq<Frame>)
    requires Inv(cfg, c) && forall f :: f in fs ==> !f.WindowUpdate?
    ensures Inv(cfg, SendAll(c, fs))
    decreases |fs|
  {
    hide Inv, Send;
    if fs != [] {
      SendKeeps(cfg, c, fs[0]);
      SendAllKeeps(cfg, Send(c, fs[0]), fs[1..]);
    }
  }

  lemma DoomIdle(c: Conn, ids: set<nat>, err: H2Error)
    ensures Idle(c, Doom(c, ids, err)) && Idle(c, WakeSlots(Doom(c, ids, err)))
  {
  }

  lemma RetireIdle(c: Conn, id: nat)
    ensures Idle(c, Retire(c, id))
  {
  }

  lemma DestroyIdle(c: Conn, err: H2Error)
    ensures Idle(c, Destroy(c, err))
  {
    if c.closed.None? {
      hide BooksOf, FailPongs, Doom, Destroy;
      DestroyShape(c, err);
      Book(c.log, TornDown(err));
      DoomIdle(c, c.streams.Keys, err);
    }
  }

  lemma LastWords(cfg: Config, c: Conn, f: Frame, err: H2Error)
    requires Inv(cfg, c) && !f.WindowUpdate?
    ensures Inv(cfg, Destroy(Send(c, f), err))
  {
    hide Inv, Destroy;
    SendKeeps(cfg, c, f);
    DestroyIdle(Send(c, f), err);
    IdleKeeps(cfg, Send(c, f), Destroy(Send(c, f), err));
  }

  /** DATA that is refused by the frame checks is owed for ever, but then the connection is gone. */
  lemma CrashKeeps(cfg: Config, c: Conn, f: Frame)
    requires Inv(cfg, c) && Handle(cfg, c, f).error.Some?
    ensures Inv(cfg, ConnectionError(Handle(cfg, c, f).conn, Handle(cfg, c, f).error.value))
  {
    hide Handle, Destroy, BooksOf, Total, Small, UnreadBelow, Core, Bounded, Balanced, Idle;
    var o := Handle(cfg, c, f);
    CrashShape(cfg, c, f);
    var g := Goaway(o.conn.highestPromised, o.error.value.code.Value(), []);
    var c1 := Send(o.conn, g);
    RefusedBase(cfg, c, f, o.conn, c1);
    DestroyIdle(c1, o.error.value);
    Destroys(c1, o.error.value);
    IdleBase(cfg, c1, Destroy(c1, o.error.value));
  }

  lemma RefusedBase(cfg: Config, c: Conn, f: Frame, d: Conn, d': Conn)
    requires Core(c) && Bounded(cfg, c) && SameStreams(c, d) && d.log == After(c.log, Event.Recv(f))
    requires d' == d.(log := d'.log) && (d'.log == d.log || (d'.log.After? && d'.log.past == d.log && Unbooked(d'.log.event)))
    ensures Core(d') && Bounded(cfg, d')
  {
    hide BooksOf, Total, Small, UnreadBelow;
    Book(c.log, Event.Recv(f));
    if d'.log != d.log {
      Book(d.log, d'.log.event);
    }
  }

  lemma Destroys(c: Conn, err: H2Error)
    ensures Destroy(c, err).closed.Some?
  {
  }

  lemma IdleBase(cfg: Config, c: Conn, c': Conn)
    requires Core(c) && Bounded(cfg, c) && Idle(c, c')
    ensures Core(c') && Bounded(cfg, c')
  {
    hide BooksOf, Total, Small, UnreadBelow, Owed;
    UnreadMoves(c.cells, c'.cells, 0, c.nextId);
  }

  // --- DATA in, credit out ---

  /** One cell and the books have moved together. */
  lemma CellMoved(cfg: Config, c: Conn, c': Conn, id: nat)
    requires Inv(cfg, c) && id in c.cells && id in c'.cells && c'.cells == c.cells[id := c'.cells[id]]
    requires c'.nextId == c.nextId && c'.closed == c.closed && c'.streams.Keys <= c.streams.Keys
    requires Sound(c'.cells[id])
    requires id in c'.streams && c'.cells[id].body.Dropped? ==> c'.cells[id].recv.ended
    requires forall i :: i != id ==> Owed(BooksOf(c'.log), i) == Owed(BooksOf(c.log), i)
    requires Unread(c'.cells, id) - Unread(c.cells, id) <= Owed(BooksOf(c'.log), id) - Owed(BooksOf(c.log), id)
    requires BooksOf(c'.log).fit
    requires var b, b' := BooksOf(c.log), BooksOf(c'.log);
             var more := b'.credited - b.credited + b'.lost - b.lost + b'.discarded - b.discarded
                         + Unread(c'.cells, id) - Unread(c.cells, id);
             more <= b'.received - b.received && (c.closed.None? ==> more == b'.received - b.received)
    ensures Inv(cfg, c')
  {
    hide BooksOf, Total, Small, UnreadBelow, Owed;
    UnreadMoves(c.cells, c'.cells, id, c.nextId);
  }

  lemma LiveDataKeeps(cfg: Config, c: Conn, id: nat, data: bytes, endStream: bool)
    requires Inv(cfg, c) && id in c.streams && |data| < U24_LIMIT
    ensures Inv(cfg, ReceiveData(Log(c, Event.Recv(Data(id, data, endStream))), id, data, endStream))
  {
    hide BooksOf, Total, UnreadBelow, Balanced;
    var r := c.cells[id].recv;
    var c1 := Log(c, Event.Recv(Data(id, data, endStream)));
    var c2 := ReceiveData(c1, id, data, endStream);
    Book(c.log, Event.Recv(Data(id, data, endStream)));
    Book(c1.log, Discarded(id, |data|));
    TotalAppend(r.queue, [data]);
    TotalOne(data);
    CellMoved(cfg, c, c2, id);
  }

  /** Bytes given back: credited as far as the wire can say, the rest lost. */
  lemma ReplenishBooks(c: Conn, id: nat, n: nat)
    requires id > 0
    ensures var b, b' := BooksOf(c.log), BooksOf(Replenish(c, id, n).log);
            && (forall i :: i != id ==> Owed(b', i) == Owed(b, i)) && Owed(b', id) >= Owed(b, id) - n
            && b'.received == b.received && b'.discarded == b.discarded
            && b'.credited - b.credited + b'.lost - b.lost <= n
            && (c.closed.None? ==> b'.credited - b.credited + b'.lost - b.lost == n)
            && b'.gone == b.gone && b'.fit == (b.fit && (n < U24_LIMIT || id in b.gone))
  {
    hide BooksOf, OnWire, Owed;
    Book(c.log, Returned(id, n));
    WireAtMost(n);
    OwedSame(BooksOf(c.log), BooksOf(After(c.log, Returned(id, n))));
    if c.closed.None? && n > 0 {
      CreditBooks(c, id, n);
    }
  }

  lemma OwedSame(b: Books, b': Books)
    requires b'.owed == b.owed
    ensures forall i :: Owed(b', i) == Owed(b, i)
  {
  }

  lemma CreditBooks(c: Conn, id: nat, n: nat)
    requires id > 0 && n > 0 && c.closed.None?
    ensures var b, b' := BooksOf(After(c.log, Returned(id, n))), BooksOf(Replenish(c, id, n).log);
            && (forall i :: i != id ==> Owed(b', i) == Owed(b, i)) && Owed(b', id) >= Owed(b, id) - n
            && b' == b.(credited := b.credited + OnWire(n), owed := b'.owed)
  {
    hide BooksOf, OnWire;
    var t0 := After(c.log, Returned(id, n));
    var f, g := WindowUpdate(id, n % U32_LIMIT), WindowUpdate(0, n % U32_LIMIT);
    var t1 := if id in c.streams then After(t0, Sent(f)) else t0;
    assert Replenish(c, id, n).log == After(t1, Sent(g));
    Truncated(n);
    WireAtMost(n);
    Book(t0, Sent(f));
    Book(t1, Sent(g));
  }

  lemma WireAtMost(n: nat)
    ensures OnWire(n) <= n
  {
  }

  lemma YieldKeeps(cfg: Config, c: Conn, id: nat)
    requires Inv(cfg, c) && Holds(c, id) && c.cells[id].recv.queue != []
    ensures Inv(cfg, YieldChunk(c, id))
  {
    hide BooksOf, UnreadBelow, Balanced, Replenish, Owed;
    var chunk := c.cells[id].recv.queue[0];
    Book(c.log, Yielded(id, chunk));
    ReplenishBooks(TakeChunk(c, id), id, |chunk|);
    ReplenishShape(TakeChunk(c, id), id, |chunk|);
    CellMoved(cfg, c, YieldChunk(c, id), id);
  }

  lemma ResetBooks(c: Conn, id: nat, code: ErrorCode)
    requires id in c.cells
    ensures var c' := ResetStream(c, id, code);
            && BooksOf(c'.log) == BooksOf(c.log) && c'.nextId == c.nextId && c'.closed == c.closed
            && c'.streams == c.streams - {id} && id in c'.cells && c'.cells == c.cells[id := c'.cells[id]]
            && c'.cells[id].recv.queue == c.cells[id].recv.queue && c'.cells[id].recv.buffered == c.cells[id].recv.buffered
            && c'.cells[id].body == c.cells[id].body
  {
    hide BooksOf;
    Book(c.log, Sent(RstStream(id, code.Value())));
  }

  lemma DropKeeps(cfg: Config, c: Conn, id: nat)
    requires Inv(cfg, c) && Holds(c, id)
    ensures Inv(cfg, DropBody(c, id))
  {
    hide BooksOf, UnreadBelow, Balanced, Replenish, Owed, ResetStream, Total;
    var n := c.cells[id].recv.buffered;
    var c1 := SetCell(Log(c, Event.Released(id)), id, c.cells[id].(body := Dropped));
    Book(c.log, Event.Released(id));
    OwedSame(BooksOf(c.log), BooksOf(c1.log));
    ReplenishBooks(c1, id, n);
    ReplenishShape(c1, id, n);
    var c2 := Relinquish(c, id);
    ResetBooks(c2, id, Cancel);
    CellMoved(cfg, c, DropBody(c, id), id);
  }

  /** DATA nobody can read is given back at once. */
  lemma DeadDataKeeps(cfg: Config, c: Conn, id: nat, data: bytes, endStream: bool)
    requires Inv(cfg, c) && id !in c.streams && |data| < U24_LIMIT
    ensures Inv(cfg, ReceiveData(Log(c, Event.Recv(Data(id, data, endStream))), id, data, endStream))
  {
    hide BooksOf, UnreadBelow, Total, OnWire, Send, Owed;
    var c1 := Log(c, Event.Recv(Data(id, data, endStream)));
    DeadBooks(c, id, data, endStream);
    if data != [] {
      SendShape(Log(c1, Returned(id, |data|)), WindowUpdate(0, |data| % U32_LIMIT));
    }
  }

  lemma DeadBooks(c: Conn, id: nat, data: bytes, endStream: bool)
    requires id !in c.streams && |data| < U24_LIMIT
    ensures var b := BooksOf(c.log);
            var b' := BooksOf(ReceiveData(Log(c, Event.Recv(Data(id, data, endStream))), id, data, endStream).log);
            && (forall i :: Owed(b', i) >= Owed(b, i)) && b'.discarded == b.discarded && b'.fit == b.fit
            && b'.received - b.received >= b'.credited - b.credited + b'.lost - b.lost
            && (c.closed.None? ==> b'.received - b.received == b'.credited - b.credited + b'.lost - b.lost)
  {
    hide BooksOf, Owed, OnWire;
    var t1 := After(c.log, Event.Recv(Data(id, data, endStream)));
    var t2 := After(t1, Returned(id, |data|));
    var f := WindowUpdate(0, |data| % U32_LIMIT);
    GivenBack(c.log, id, data, endStream);
    assert ReceiveData(Log(c, Event.Recv(Data(id, data, endStream))), id, data, endStream).log
        == if data == [] then t1 else if c.closed.Some? then t2 else After(t2, Sent(f));
    hide ReceiveData;
  }

  /** DATA, its return and its credit, one after the other. */
  lemma GivenBack(log: Trace, id: nat, data: bytes, endStream: bool)
    ensures var t1 := After(log, Event.Recv(Data(id, data, endStream)));
            var t2 := After(t1, Returned(id, |data|));
            var t3 := After(t2, Sent(WindowUpdate(0, |data| % U32_LIMIT)));
            var b, b1, b2, b3 := BooksOf(log), BooksOf(t1), BooksOf(t2), BooksOf(t3);
            && (forall i :: Owed(b1, i) >= Owed(b, i) && Owed(b2, i) >= Owed(b, i) && Owed(b3, i) >= Owed(b, i))
            && b1.discarded == b2.discarded == b3.discarded == b.discarded
            && b1 == b.(received := b.received + |data|, owed := b1.owed)
            && b3.received == b.received + |data| && b3.credited - b.credited + b3.lost - b.lost == |data|
            && b2.lost - b.lost <= |data| && b2.credited == b.credited && b2.received == b3.received
            && b1.fit == b.fit && (|data| < U24_LIMIT ==> b2.fit == b3.fit == b.fit)
  {
    hide BooksOf, OnWire;
    var t1 := After(log, Event.Recv(Data(id, data, endStream)));
    var t2 := After(t1, Returned(id, |data|));
    Book(log, Event.Recv(Data(id, data, endStream)));
    MoreOwed(BooksOf(log), id, |data|);
    Book(t1, Returned(id, |data|));
    Book(t2, Sent(WindowUpdate(0, |data| % U32_LIMIT)));
    Truncated(|data|);
    WireAtMost(|data|);
  }

  lemma MoreOwed(b: Books, id: nat, n: nat)
    ensures forall i :: Owed(b.(received := b.received + n, owed := b.owed[id := Owed(b, id) + n]), i) >= Owed(b, i)
  {
  }

  lemma DataKeeps(cfg: Config, c: Conn, id: nat, data: bytes, endStream: bool)
    requires Inv(cfg, c) && |data| < U24_LIMIT
    ensures Inv(cfg, TakeData(c, id, data, endStream))
  {
    hide Inv, Retire, ReceiveData;
    var c1 := ReceiveData(Log(c, Event.Recv(Data(id, data, endStream))), id, data, endStream);
    if id in c.streams {
      LiveDataKeeps(cfg, c, id, data, endStream);
    } else {
      DeadDataKeeps(cfg, c, id, data, endStream);
    }
    RetireIdle(c1, id);
    IdleKeeps(cfg, c1, Retire(c1, id));
  }

  // --- everything else ---

  lemma DeliverKeeps(cfg: Config, c: Conn, id: nat, headers: seq<Header>, endStream: bool)
    requires Inv(cfg, c)
    ensures Inv(cfg, Deliver(c, id, headers, endStream))
  {
    hide Inv, Retire, Interim;
    var c1 := Log(c, Block(id, false, headers, endStream));
    LogKeeps(cfg, c, Block(id, false, headers, endStream));
    var c2 := ReceiveHeaders(c1, id, headers, endStream);
    IdleKeeps(cfg, c1, c2);
    RetireIdle(c2, id);
    IdleKeeps(cfg, c2, Retire(c2, id));
  }

  lemma RefuseKeeps(cfg: Config, c: Conn, promised: nat, headers: seq<Header>)
    requires Inv(cfg, c)
    ensures Inv(cfg, RefusePush(c, promised, headers))
  {
    hide Inv, Send;
    var c1 := Log(c, Block(promised, true, headers, false));
    LogKeeps(cfg, c, Block(promised, true, headers, false));
    var c2 := c1.(highestPromised := if promised > c.highestPromised then promised else c.highestPromised);
    IdleKeeps(cfg, c1, c2);
    SendKeeps(cfg, c2, RstStream(promised, RefusedStream.Value()));
  }

  lemma SettingsKeep(cfg: Config, c: Conn, s: Settings)
    requires Inv(cfg, c)
    ensures Inv(cfg, TakeSettings(c, s))
  {
    hide Inv, Send, ApplySettings;
    var c1 := Log(c, Event.Recv(SettingsFrame(false, s)));
    LogKeeps(cfg, c, Event.Recv(SettingsFrame(false, s)));
    SettingsShape(c1, s);
    IdleKeeps(cfg, c1, ApplySettings(c1, s).conn);
    SendKeeps(cfg, ApplySettings(c1, s).conn, SettingsFrame(true, NO_SETTINGS));
  }

  lemma HeardKeeps(cfg: Config, c: Conn, f: Frame, c': Conn)
    requires Inv(cfg, c) && !f.Data? && Idle(Log(c, Event.Recv(f)), c')
    ensures Inv(cfg, c')
  {
    hide Inv, BooksOf;
    LogKeeps(cfg, c, Event.Recv(f));
    IdleKeeps(cfg, Log(c, Event.Recv(f)), c');
  }

  lemma CreditIdle(c: Conn, id: nat, n: nat)
    ensures Idle(Log(c, Event.Recv(WindowUpdate(id, n))), TakeCredit(c, id, n))
  {
    hide BooksOf, TakeCredit;
    CreditShape(c, id, n);
  }

  lemma GoawayIdle(c: Conn, last: nat, code: nat, debug: bytes)
    ensures Idle(Log(c, Event.Recv(Goaway(last, code, debug))), TakeGoaway(c, last, code, debug))
  {
    hide Doom;
    var c1 := Log(c, Event.Recv(Goaway(last, code, debug)));
    DoomIdle(c1.(goaway := true), Above(c.streams.Keys, last), H2Error(CodeOr(code, NoError), PeerGoaway));
  }

  lemma PingKeeps(cfg: Config, c: Conn, ack: bool, opaque8: bytes)
    requires Inv(cfg, c)
    ensures Inv(cfg, HandlePing(Log(c, Event.Recv(Ping(ack, opaque8))), ack, opaque8)) && Inv(cfg, StartPing(c))
  {
    hide Inv, Send, PingKey;
    var c1 := Log(c, Event.Recv(Ping(ack, opaque8)));
    LogKeeps(cfg, c, Event.Recv(Ping(ack, opaque8)));
    if ack {
      IdleKeeps(cfg, c1, HandlePing(c1, ack, opaque8));
    } else {
      SendKeeps(cfg, c1, Ping(true, opaque8));
    }
    if c.closed.None? {
      var n := (c.pingCounter + 1) % U32_LIMIT;
      var key, token := PingKey(n), c.nextPong;
      var pongs := if key in c.pings then c.pongs[c.pings[key] := Overwritten] else c.pongs;
      var c2 := c.(pingCounter := n, nextPong := token + 1, pings := c.pings[key := token], pongs := pongs[token := Waiting]);
      IdleKeeps(cfg, c, c2);
      SendKeeps(cfg, c2, Ping(false, key));
    }
  }

  lemma InKeeps(cfg: Config, c: Conn, m: Inward)
    requires Inv(cfg, c) && MayIn(cfg, c, m)
    ensures Inv(cfg, DoIn(cfg, c, m))
  {
    hide Inv, BooksOf, TakeData, TakeSettings, TakeCredit, TakeGoaway, Deliver, RefusePush, HandlePing,
         ResetStream, Send, Destroy, Doom, Handle, DecodeBlock, ApplySettings;
    match m
    case SetInbox(rest) => IdleKeeps(cfg, c, DoIn(cfg, c, m));
    case SetCodec(input) => IdleKeeps(cfg, c, DoIn(cfg, c, m));
    case Hear(f, block) => HeardKeeps(cfg, c, f, DoIn(cfg, c, m));
    case HearCredit(id, n) => CreditIdle(c, id, n); HeardKeeps(cfg, c, WindowUpdate(id, n), DoIn(cfg, c, m));
    case HearData(id, data, endStream) => DataKeeps(cfg, c, id, data, endStream);
    case HearSettings(s) => SettingsKeep(cfg, c, s);
    case HearZero(id) =>
      LogKeeps(cfg, c, Event.Recv(WindowUpdate(id, 0)));
      ResetKeeps(cfg, Log(c, Event.Recv(WindowUpdate(id, 0))), id, ProtocolError);
    case HearReset(id, code) =>
      DoomIdle(Log(c, Event.Recv(RstStream(id, code))), {id}, H2Error(CodeOr(code, ProtocolError), PeerReset));
      HeardKeeps(cfg, c, RstStream(id, code), DoIn(cfg, c, m));
    case HearPing(ack, opaque8) => PingKeeps(cfg, c, ack, opaque8);
    case HearGoaway(last, code, debug) =>
      GoawayIdle(c, last, code, debug);
      HeardKeeps(cfg, c, Goaway(last, code, debug), DoIn(cfg, c, m));
    case TakeHeaders(id, headers, endStream) => DeliverKeeps(cfg, c, id, headers, endStream);
    case Refuse(promised, headers) => RefuseKeeps(cfg, c, promised, headers);
    case Crash(f) => CrashKeeps(cfg, c, f);
    case Garbled(e) => LastWords(cfg, c, Goaway(c.highestPromised, e.code.Value(), []), e);
    case Stop(e) => DestroyIdle(c, e); IdleKeeps(cfg, c, Destroy(c, e));
  }

  lemma OpenKeeps(cfg: Config, c: Conn, headers: seq<Header>, hasBody: bool)
    requires cfg.tables.Sized() && Inv(cfg, c)
    ensures Inv(cfg, Open(cfg, c, headers, hasBody))
  {
    hide EncodeHeaders, SendAll, SplitHeaders, Inv;
    var block := EncodeHeaders(cfg.tables, headers);
    ReserveKeeps(cfg, c, hasBody, block);
    HeaderFramesOnly(c.nextId, block, !hasBody, c.remote.maxFrameSize);
    SendAllKeeps(cfg, Log(Reserve(c, hasBody), Event.Opened(c.nextId, block, hasBody)),
                 SplitHeaders(c.nextId, block, !hasBody, c.remote.maxFrameSize));
  }

  lemma ReserveKeeps(cfg: Config, c: Conn, hasBody: bool, block: bytes)
    requires Inv(cfg, c)
    ensures Inv(cfg, Log(Reserve(c, hasBody), Event.Opened(c.nextId, block, hasBody)))
  {
    hide BooksOf, Owed, Fresh;
    Book(c.log, Event.Opened(c.nextId, block, hasBody));
    var cells := Reserve(c, hasBody).cells;
    assert Unread(cells, c.nextId) == 0 && Unread(cells, c.nextId + 1) == 0;
    UnreadMoves(c.cells, cells, c.nextId, c.nextId);
    assert UnreadBelow(cells, c.nextId + 2) == UnreadBelow(cells, c.nextId);
  }

  lemma TurnKeeps(cfg: Config, c: Conn, id: nat)
    requires PumpIs(c, id, false) && c.cells[id].pump.offset <= |c.cells[id].pump.chunk| && Inv(cfg, c)
    ensures Inv(cfg, Turn(c, id))
  {
    hide Inv, Turn, BooksOf;
    TurnShape(c, id);
    if Turn(c, id).log != c.log {
      Book(c.log, Turn(c, id).log.event);
    }
    IdleKeeps(cfg, c, Turn(c, id));
  }

  lemma FinishKeeps(cfg: Config, c: Conn, id: nat)
    requires PumpIs(c, id, true) && Inv(cfg, c)
    ensures Inv(cfg, FinishBody(c, id))
  {
    hide Inv, Retire, BooksOf;
    LogKeeps(cfg, c, Event.FedAll(id));
    var c1 := SetPump(Log(c, Event.FedAll(id)), id, Finished);
    IdleKeeps(cfg, Log(c, Event.FedAll(id)), c1);
    if id in c.streams {
      var c2 := Send(c1, Data(id, [], true));
      SendKeeps(cfg, c1, Data(id, [], true));
      var c3 := SetStream(c2, id, c2.streams[id].(localClosed := true));
      IdleKeeps(cfg, c2, c3);
      RetireIdle(c3, id);
      IdleKeeps(cfg, c3, Retire(c3, id));
    }
  }

  lemma ResetKeeps(cfg: Config, c: Conn, id: nat, code: ErrorCode)
    requires Inv(cfg, c)
    ensures Inv(cfg, ResetStream(c, id, code))
  {
    hide Inv, Send, Doom;
    var c1 := Send(c, RstStream(id, code.Value()));
    SendKeeps(cfg, c, RstStream(id, code.Value()));
    DoomIdle(c1, {id}, H2Error(code, StreamReset));
    IdleKeeps(cfg, c1, ResetStream(c, id, code));
  }

  lemma FeedKeeps(cfg: Config, c: Conn, id: nat, chunk: bytes)
    requires Inv(cfg, c) && PumpIs(c, id, true)
    ensures Inv(cfg, SetPump(Log(c, Event.Fed(id, chunk)), id, Sending(chunk, 0)))
  {
    hide Inv, BooksOf;
    LogKeeps(cfg, c, Event.Fed(id, chunk));
    IdleKeeps(cfg, Log(c, Event.Fed(id, chunk)), SetPump(Log(c, Event.Fed(id, chunk)), id, Sending(chunk, 0)));
  }

  lemma ClaimKeeps(cfg: Config, c: Conn, id: nat)
    requires Inv(cfg, c) && id in c.cells
    ensures Inv(cfg, Claim(c, id))
  {
    hide Inv, BooksOf;
    IdleKeeps(cfg, c, Claim(c, id));
  }

  lemma YieldErrorKeeps(cfg: Config, c: Conn, id: nat)
    requires Inv(cfg, c) && Holds(c, id)
    ensures Inv(cfg, YieldError(c, id))
  {
    hide Inv, BooksOf;
    LogKeeps(cfg, c, YieldedError(id));
    IdleKeeps(cfg, Log(c, YieldedError(id)), YieldError(c, id));
  }

  lemma WaitKeeps(cfg: Config, c: Conn, id: nat)
    requires Inv(cfg, c) && Holds(c, id)
    ensures Inv(cfg, Wait(c, id))
  {
    hide Inv, BooksOf;
    IdleKeeps(cfg, c, Wait(c, id));
  }

  lemma OutKeeps(cfg: Config, c: Conn, m: Outward)
    requires Inv(cfg, c) && MayOut(cfg, c, m)
    ensures Inv(cfg, DoOut(cfg, c, m))
  {
    hide Inv, BooksOf, SetPump, Claim, YieldError, Wait, Turn, FinishBody, YieldChunk, DropBody, Open, Send, Destroy, StartPing, ResetStream, CanOpen;
    match m
    case Quit(e) => DestroyIdle(c, e); IdleKeeps(cfg, c, Destroy(c, e));
    case MoveOpen(headers, hasBody) => OpenKeeps(cfg, c, headers, hasBody);
    case MoveQueue(token) => IdleKeeps(cfg, c, DoOut(cfg, c, m));
    case MoveFeed(id, chunk) => FeedKeeps(cfg, c, id, chunk);
    case MoveTurn(id) => TurnKeeps(cfg, c, id);
    case MoveFinish(id) => FinishKeeps(cfg, c, id);
    case MoveClaim(id) => ClaimKeeps(cfg, c, id);
    case MoveYield(id) => YieldKeeps(cfg, c, id);
    case MoveYieldError(id) => YieldErrorKeeps(cfg, c, id);
    case MoveYieldEnd(id) => LogKeeps(cfg, c, YieldedEnd(id));
    case MoveWait(id) => WaitKeeps(cfg, c, id);
    case MoveDrop(id) => DropKeeps(cfg, c, id);
    case MovePing => PingKeeps(cfg, c, false, []);
    case MoveClose => LastWords(cfg, c, Goaway(c.highestPromised, 0, []), H2Error(NoError, ClosedByClient));
  }

  lemma ConnectKeeps(cfg: Config)
    ensures Inv(cfg, Connect(cfg))
  {
    ConnectShape(cfg);
    hide Connect, BooksOf;
    var f := SettingsFrame(false, OurSettings(cfg));
    assert BooksOf(Begin) == NO_BOOKS by { NoBooks(); }
    Book(Begin, Sent(f));
    if cfg.connectionWindow > SPEC_WINDOW {
      Book(After(Begin, Sent(f)), Sent(WindowUpdate(0, cfg.connectionWindow - SPEC_WINDOW)));
    }
    assert UnreadBelow(map[], 1) == 0;
  }

  lemma NoBooks()
    ensures BooksOf(Begin) == NO_BOOKS
  {
  }

  lemma RunKeeps(cfg: Config, steps: seq<Step>)
    requires cfg.tables.Sized()
    ensures Inv(cfg, Run(cfg, steps))
  {
    hide Inv, DoIn, DoOut, MayIn, MayOut, Run, Connect;
    ConnectKeeps(cfg);
    var inv := c => Inv(cfg, c);
    forall c, m | MayIn(cfg, c, m) && inv(c)
      ensures inv(DoIn(cfg, c, m))
    {
      InKeeps(cfg, c, m);
    }
    forall c, m | MayOut(cfg, c, m) && inv(c)
      ensures inv(DoOut(cfg, c, m))
    {
      OutKeeps(cfg, c, m);
    }
    RunByMoves(cfg, inv, steps);
  }

  // --- the theorems ---

  /**
   * In every run, while the connection is open: the DATA bytes received are the credit returned
   * on the connection (beyond the initial growth), plus what the application can still read,
   * plus what is stranded in requests that failed before their head, plus what followed an
   * END_STREAM, plus what truncation lost.
   */
  lemma CreditConserved(cfg: Config, steps: seq<Step>)
    requires cfg.tables.Sized() && Run(cfg, steps).closed.None?
    ensures var c := Run(cfg, steps);
            var b := BooksOf(c.log);
            b.received == (b.credited - Grow(cfg)) + ReadableBelow(c.cells, c.nextId) + StrandedBelow(c.cells, c.nextId)
                          + b.discarded + b.lost
  {
    hide Run, BooksOf, UnreadBelow, ReadableBelow, StrandedBelow, Grow;
    RunKeeps(cfg, steps);
    UnreadParts(Run(cfg, steps).cells, Run(cfg, steps).nextId);
  }

  /** No stream is ever credited beyond what arrived on it and was given up. */
  lemma NeverOvercredited(cfg: Config, steps: seq<Step>, id: nat)
    requires cfg.tables.Sized()
    ensures 0 <= Unread(Run(cfg, steps).cells, id) <= Owed(BooksOf(Run(cfg, steps).log), id)
  {
    hide Run, BooksOf;
    RunKeeps(cfg, steps);
  }

  /** Nor is the connection, closed or not, beyond what arrived in all and the initial growth, less what is stranded. */
  lemma ConnectionNeverOvercredited(cfg: Config, steps: seq<Step>)
    requires cfg.tables.Sized()
    ensures var c := Run(cfg, steps);
            var b := BooksOf(c.log);
            0 <= StrandedBelow(c.cells, c.nextId) && b.credited + StrandedBelow(c.cells, c.nextId) <= b.received + Grow(cfg)
  {
    hide Run, BooksOf, UnreadBelow, ReadableBelow, StrandedBelow, Grow;
    RunKeeps(cfg, steps);
    UnreadParts(Run(cfg, steps).cells, Run(cfg, steps).nextId);
    UnreadCounts(Run(cfg, steps).cells, Run(cfg, steps).nextId);
  }

  // --- what truncation loses ---

  /** The return of `n` bytes on stream `id` is in the trace. */
  predicate Gave(log: Trace, id: nat, n: nat) {
    match log
    case Begin => false
    case After(past, Returned(i, m)) => (i == id && m == n) || Gave(past, id, n)
    case After(past, _) => Gave(past, id, n)
  }

  predicate WasDropped(log: Trace, id: nat) {
    match log
    case Begin => false
    case After(past, Released(i)) => i == id || WasDropped(past, id)
    case After(past, _) => WasDropped(past, id)
  }

  lemma {:induction false} GoneWasDropped(log: Trace, id: nat)
    ensures id in BooksOf(log).gone <==> WasDropped(log, id)
  {
    if log.After? {
      GoneWasDropped(log.past, id);
    }
  }

  lemma {:induction false} FitBefore(log: Trace, id: nat, n: nat)
    requires BooksOf(log).fit && Gave(log, id, n)
    ensures n < U24_LIMIT || WasDropped(log, id)
  {
    match log
    case After(past, e) =>
      if Gave(past, id, n) {
        FitBefore(past, id, n);
      } else {
        GoneWasDropped(past, id);
      }
  }

  lemma {:induction false} Loss(log: Trace) returns (id: nat, n: nat)
    requires BooksOf(log).lost > 0
    ensures Gave(log, id, n) && n >= U31
  {
    match log
    case After(past, e) =>
      if BooksOf(past).lost > 0 {
        id, n := Loss(past);
      } else {
        id, n := e.streamId, e.size;
        WireExact(n);
      }
  }

  lemma {:induction false} Losing(log: Trace, id: nat, n: nat)
    requires Gave(log, id, n) && n >= U31
    ensures BooksOf(log).lost > 0
  {
    match log
    case After(past, e) =>
      if Gave(past, id, n) {
        Losing(past, id, n);
      } else {
        WireExact(n);
      }
  }

  /**
   * In every run, credit has been lost if and only if a dropped body gave back 2^31 bytes or
   * more at once; nothing else ever gives back as much as 2^24.
   */
  lemma LostExactly(cfg: Config, steps: seq<Step>)
    requires cfg.tables.Sized()
    ensures var log := Run(cfg, steps).log;
            && (BooksOf(log).lost > 0 <==> exists id: nat, n: nat :: n >= U31 && WasDropped(log, id) && Gave(log, id, n))
            && (forall id: nat, n: nat :: Gave(log, id, n) ==> n < U24_LIMIT || WasDropped(log, id))
  {
    hide Run, BooksOf, Gave, WasDropped;
    RunKeeps(cfg, steps);
    var log := Run(cfg, steps).log;
    forall id: nat, n: nat | Gave(log, id, n)
      ensures n < U24_LIMIT || WasDropped(log, id)
      ensures n >= U31 ==> BooksOf(log).lost > 0
    {
      FitBefore(log, id, n);
      if n >= U31 {
        Losing(log, id, n);
      }
    }
    if BooksOf(log).lost > 0 {
      var id, n := Loss(log);
      assert n >= U31 && WasDropped(log, id) && Gave(log, id, n);
    }
  }

  lemma WireExact(n: nat)
    ensures OnWire(n) <= n && (OnWire(n) == n <==> n < U31)
  {
  }
}
