/**
 * The client connection as a state machine: one pure function per critical section of the
 * source, over a value that holds the connection, the cells it shares with the application
 * and a trace of everything that went in and out.
 */
module Connection {
  import opened Common
  import opened Bytes
  import opened StaticTable
  import opened DynamicTable
  import opened Hpack
  import opened Frames
  import opened FrameStream
  import opened Flow

  const SPEC_WINDOW: nat := 65535
  const MAX_WINDOW: nat := 0x7fff_ffff
  const MAX_HEADER_BLOCK: nat := 0x10_0000
  const NO_LIMIT: nat := 0xffff_ffff

  // --- what can be observed ---

  datatype Event =
    | Recv(frame: Frame)                                   // a frame from the peer, about to be handled
    | Block(streamId: nat, push: bool, headers: seq<Header>, endStream: bool) // a whole header block, decoded
    | Discarded(streamId: nat, size: nat)                  // DATA after END_STREAM on a mapped stream
    | Sent(frame: Frame)                                   // a frame queued for the peer
    | Opened(streamId: nat, block: bytes, hasBody: bool)   // a request got its stream
    | Fed(streamId: nat, chunk: bytes)                     // the next chunk of a request body
    | FedAll(streamId: nat)                                // the request body has ended
    | Yielded(streamId: nat, chunk: bytes)                 // a response body handed out a chunk
    | YieldedError(streamId: nat)
    | YieldedEnd(streamId: nat)
    | Released(streamId: nat)                              // a response body was dropped
    | Returned(streamId: nat, size: nat)                   // that many received bytes were given up
    | TornDown(error: H2Error)                             // the connection has closed

  /** Events in order, the last one outermost. */
  datatype Trace = Begin | After(past: Trace, event: Event)

  /** `earlier` is `log` at some moment of its past, or `log` itself. */
  predicate Reaches(log: Trace, earlier: Trace) {
    log == earlier || (log.After? && Reaches(log.past, earlier))
  }

  // --- streams and the cells shared with the application ---

  datatype Strm = Strm(window: Window, gotHead: bool, localClosed: bool, remoteClosed: bool)

  datatype Head = Awaiting | Answered(status: nat, headers: seq<Header>) | Failed(error: H2Error) | Abandoned

  datatype Recv = Inbox(queue: seq<bytes>, buffered: int, ended: bool, error: Option<H2Error>, waiting: bool)

  datatype Body = Unclaimed | Held | Dropped

  /** The upload of a request body: between chunks, or somewhere inside one. */
  datatype Pump = NoPump | Idle | Sending(chunk: bytes, offset: nat) | Finished

  datatype Cell = Cell(head: Head, recv: Recv, trailers: Option<seq<Header>>, body: Body, pump: Pump)

  const EMPTY_INBOX := Inbox([], 0, false, None, false)

  datatype Pong = Waiting | Acked | PingFailed(error: H2Error) | Overwritten

  // --- the connection ---

  type FrameLimit = n: int | 16384 <= n <= 0xff_ffff witness 16384

  datatype Remote = Remote(
    initialWindow: nat, maxFrameSize: FrameLimit, headerTableSize: nat, enablePush: bool, maxConcurrent: nat)

  const INITIAL_REMOTE := Remote(SPEC_WINDOW, 16384, 4096, true, NO_LIMIT)

  datatype Pending = Pending(
    streamId: nat, push: bool, endStream: bool, promised: nat, fragments: seq<bytes>, size: nat)

  datatype Config = Config(tables: Tables, headerTable: nat, enablePush: bool, initialWindow: nat,
                           maxFrame: nat, connectionWindow: nat)

  datatype Conn = Conn(
    log: Trace,
    streams: map<nat, Strm>, cells: map<nat, Cell>, nextId: nat,
    parked: set<nat>, window: Window, remote: Remote,
    block: Option<Pending>, table: Table,
    pings: map<bytes, nat>, pongs: map<nat, Pong>, nextPong: nat, pingCounter: nat,
    waiters: seq<nat>, closed: Option<H2Error>, goaway: bool, highestPromised: nat,
    inbox: bytes)

  datatype Outcome = Outcome(conn: Conn, error: Option<H2Error>)

  function Log(c: Conn, e: Event): (c': Conn) {
    c.(log := After(c.log, e))
  }

  /** Nothing is written once the connection is closed. */
  function Send(c: Conn, f: Frame): (c': Conn) {
    if c.closed.Some? then c else Log(c, Sent(f))
  }

  function SendAll(c: Conn, fs: seq<Frame>): (c': Conn)
    decreases |fs|
  {
    if fs == [] then c else SendAll(Send(c, fs[0]), fs[1..])
  }

  // --- starting up ---

  function OurSettings(cfg: Config): (s: Settings) {
    Settings(Some(cfg.headerTable), Some(cfg.enablePush), None, Some(cfg.initialWindow), Some(cfg.maxFrame), None)
  }

  function Quiet(cfg: Config): (c: Conn) {
    Conn(Begin, map[], map[], 1, {}, Fresh(SPEC_WINDOW), INITIAL_REMOTE, None, Table([], cfg.headerTable, cfg.headerTable),
         map[], map[], 0, 0, [], None, false, 0, [])
  }

  function Connect(cfg: Config): (c: Conn) {
    var c := Send(Quiet(cfg), SettingsFrame(false, OurSettings(cfg)));
    if cfg.connectionWindow > SPEC_WINDOW then Send(c, WindowUpdate(0, cfg.connectionWindow - SPEC_WINDOW)) else c
  }

  // --- failing and removing streams ---

  function FailRecv(r: Recv, err: H2Error): (r': Recv) {
    r.(error := if r.error.None? then Some(err) else r.error, ended := true, waiting := false)
  }

  function FailCell(cell: Cell, gotHead: bool, err: H2Error): (cell': Cell) {
    cell.(head := if gotHead then cell.head else Failed(err), recv := FailRecv(cell.recv, err))
  }

  /** The uploads parked on the windows of these streams. */
  function Sleepers(streams: map<nat, Strm>, ids: set<nat>): (tasks: set<nat>) {
    set i, t | i in ids && i in streams && t in streams[i].window.wakers :: t
  }

  /** Remove and fail the mapped streams among `ids`. */
  function Doom(c: Conn, ids: set<nat>, err: H2Error): (c': Conn) {
    c.(streams := c.streams - ids,
       cells := map i | i in c.cells ::
         if i in ids && i in c.streams then FailCell(c.cells[i], c.streams[i].gotHead, err) else c.cells[i],
       parked := c.parked - Sleepers(c.streams, ids))
  }

  function WakeSlots(c: Conn): (c': Conn) {
    c.(waiters := [])
  }

  /** A stream leaves the map only when both directions have ended. */
  function Retire(c: Conn, id: nat): (c': Conn) {
    if id in c.streams && c.streams[id].localClosed && c.streams[id].remoteClosed then
      WakeSlots(c.(streams := c.streams - {id},
                   cells := if id in c.cells && !c.streams[id].gotHead
                            then c.cells[id := c.cells[id].(head := Abandoned)] else c.cells))
    else c
  }

  function ResetStream(c: Conn, id: nat, code: ErrorCode): (c': Conn) {
    WakeSlots(Doom(Send(c, RstStream(id, code.Value())), {id}, H2Error(code, StreamReset)))
  }

  function FailPongs(pongs: map<nat, Pong>, pings: map<bytes, nat>, err: H2Error): (pongs': map<nat, Pong>) {
    map t | t in pongs :: if t in pings.Values then PingFailed(err) else pongs[t]
  }

  function Destroy(c: Conn, err: H2Error): (c': Conn) {
    if c.closed.Some? then c
    else
      var shut := Log(c, TornDown(err)).(closed := Some(err), window := c.window.Shut(), parked := c.parked - c.window.wakers);
      Doom(shut, c.streams.Keys, err).(
        pings := map[], pongs := FailPongs(c.pongs, c.pings, err), waiters := [])
  }

  function ConnectionError(c: Conn, err: H2Error): (c': Conn) {
    Destroy(Send(c, Goaway(c.highestPromised, err.code.Value(), [])), err)
  }

  // --- response heads and bodies ---

  /** Rust's `u16::from_str` on the octets, with an optional plus sign. */
  function Decimal(digits: bytes): (v: Option<nat>) {
    if digits == [] then Some(0)
    else
      var d := digits[|digits| - 1];
      match Decimal(digits[..|digits| - 1])
      case Some(v) => if 48 <= d <= 57 && 10 * v + (d - 48) < 0x1_0000 then Some(10 * v + (d - 48)) else None
      case None => None
  }

  function ParseStatus(s: bytes): (v: nat) {
    var digits := if |s| > 1 && s[0] == 43 then s[1..] else s;
    if digits == [] then 0
    else match Decimal(digits) case Some(v) => v case None => 0
  }

  const STATUS_NAME: bytes := [58, 115, 116, 97, 116, 117, 115]

  /** The last `:status` field, 0 if there is none or it is not a number. */
  function Status(headers: seq<Header>): (v: nat) {
    if headers == [] then 0
    else
      var last := headers[|headers| - 1];
      if last.name == STATUS_NAME then ParseStatus(last.value) else Status(headers[..|headers| - 1])
  }

  predicate Interim(headers: seq<Header>) {
    100 <= Status(headers) < 200
  }

  function EndRecv(r: Recv): (r': Recv) {
    if r.ended then r else r.(ended := true, waiting := false)
  }

  function SetStream(c: Conn, id: nat, s: Strm): (c': Conn) {
    c.(streams := c.streams[id := s])
  }

  function SetCell(c: Conn, id: nat, cell: Cell): (c': Conn) {
    c.(cells := c.cells[id := cell])
  }

  /** The final head, an interim head to be ignored, or trailers. */
  function HeadersOnCell(cell: Cell, gotHead: bool, headers: seq<Header>, endStream: bool): (cell': Cell) {
    if !gotHead && Interim(headers) then cell
    else
      var recv := if endStream then EndRecv(cell.recv) else cell.recv;
      if gotHead then cell.(trailers := Some(headers), recv := recv)
      else cell.(head := Answered(Status(headers), headers), recv := recv)
  }

  function ReceiveHeaders(c: Conn, id: nat, headers: seq<Header>, endStream: bool): (c': Conn) {
    if id in c.streams && id in c.cells then
      var s := c.streams[id];
      SetCell(SetStream(c, id, s.(gotHead := s.gotHead || !Interim(headers), remoteClosed := s.remoteClosed || endStream)),
              id, HeadersOnCell(c.cells[id], s.gotHead, headers, endStream))
    else c
  }

  predicate Dropping(r: Recv, data: bytes) {
    data != [] && (r.error.Some? || r.ended)
  }

  function DataOnRecv(r: Recv, data: bytes, endStream: bool): (r': Recv) {
    var kept := if data != [] && r.error.None? && !r.ended
                then r.(queue := r.queue + [data], buffered := r.buffered + |data|) else r;
    kept.(ended := r.ended || endStream, waiting := false)
  }

  function ReceiveData(c: Conn, id: nat, data: bytes, endStream: bool): (c': Conn) {
    if id in c.streams && id in c.cells then
      var s, cell := c.streams[id], c.cells[id];
      var noted := if Dropping(cell.recv, data) then Log(c, Discarded(id, |data|)) else c;
      SetCell(SetStream(noted, id, s.(remoteClosed := s.remoteClosed || endStream)),
              id, cell.(recv := DataOnRecv(cell.recv, data, endStream)))
    else if data != [] then Send(Log(c, Returned(id, |data|)), WindowUpdate(0, |data| % U32_LIMIT))
    else c
  }

  // --- inbound frames ---

  function Fails(c: Conn, code: ErrorCode, why: Reason): (o: Outcome) {
    Outcome(c, Some(H2Error(code, why)))
  }

  function Fine(c: Conn): (o: Outcome) {
    Outcome(c, None)
  }

  function AdjustAll(c: Conn, delta: int): (c': Conn) {
    c.(streams := map i | i in c.streams :: c.streams[i].(window := c.streams[i].window.Granted(delta)),
       parked := c.parked - (set i, t | i in c.streams && t in c.streams[i].window.WokenBy(delta) :: t))
  }

  function SetInitialWindow(c: Conn, w: nat): (c': Conn) {
    AdjustAll(c.(remote := c.remote.(initialWindow := w)), w - c.remote.initialWindow)
  }

  predicate GoodFrameSize(s: Settings) {
    s.maxFrameSize.Some? ==> 16384 <= s.maxFrameSize.value <= 0xff_ffff
  }

  function Tuned(r: Remote, s: Settings): (r': Remote)
    requires GoodFrameSize(s)
  {
    Remote(r.initialWindow,
           if s.maxFrameSize.Some? then s.maxFrameSize.value else r.maxFrameSize,
           if s.headerTableSize.Some? then s.headerTableSize.value else r.headerTableSize,
           if s.enablePush.Some? then s.enablePush.value else r.enablePush,
           if s.maxConcurrentStreams.Some? then s.maxConcurrentStreams.value else r.maxConcurrent)
  }

  /** The settings after the window; a new stream limit wakes the parked requests. */
  function Tune(c: Conn, s: Settings): (c': Conn)
    requires GoodFrameSize(s)
  {
    c.(remote := Tuned(c.remote, s), waiters := if s.maxConcurrentStreams.Some? then [] else c.waiters)
  }

  /** In this order; what precedes a failing setting stays applied. */
  function ApplySettings(c: Conn, s: Settings): (o: Outcome) {
    if s.initialWindowSize.Some? && s.initialWindowSize.value > MAX_WINDOW then
      Fails(c, FlowControlError, InitialWindowTooLarge)
    else
      var c1 := if s.initialWindowSize.Some? then SetInitialWindow(c, s.initialWindowSize.value) else c;
      if GoodFrameSize(s) then Fine(Tune(c1, s)) else Fails(c1, ProtocolError, MaxFrameSizeOutOfRange)
  }

  function CompleteBlock(cfg: Config, c: Conn, pb: Pending): (o: Outcome) {
    var decoded := DecodeBlock(cfg.tables, c.table, Flatten(pb.fragments));
    var c1 := c.(block := None, table := decoded.table);
    match decoded.headers
    case Err(e) => Outcome(c1, Some(e))
    case Ok(headers) =>
      if pb.push then Fine(RefusePush(c1, pb.promised, headers))
      else
        var c2 := ReceiveHeaders(Log(c1, Block(pb.streamId, false, headers, pb.endStream)), pb.streamId, headers, pb.endStream);
        Fine(if pb.endStream then Retire(c2, pb.streamId) else c2)
  }

  function RefusePush(c: Conn, promised: nat, headers: seq<Header>): (c': Conn) {
    var noted := Log(c, Block(promised, true, headers, false));
    Send(noted.(highestPromised := if promised > c.highestPromised then promised else c.highestPromised),
         RstStream(promised, RefusedStream.Value()))
  }

  /** A header block fragment has arrived: bound the block, complete it at END_HEADERS. */
  function Gather(cfg: Config, c: Conn, pb: Pending, endHeaders: bool): (o: Outcome) {
    if pb.size > MAX_HEADER_BLOCK then Fails(c.(block := Some(pb)), EnhanceYourCalm, HeaderBlockTooLarge)
    else if endHeaders then CompleteBlock(cfg, c.(block := Some(pb)), pb)
    else Fine(c.(block := Some(pb)))
  }

  function GrantStream(c: Conn, id: nat, n: nat): (c': Conn) {
    if id in c.streams then
      SetStream(c, id, c.streams[id].(window := c.streams[id].window.Granted(n))).(
        parked := c.parked - c.streams[id].window.WokenBy(n))
    else c
  }

  function GrantConn(c: Conn, n: nat): (c': Conn) {
    c.(window := c.window.Granted(n), parked := c.parked - c.window.WokenBy(n))
  }

  function HandleWindowUpdate(c: Conn, id: nat, n: nat): (o: Outcome) {
    if n == 0 then
      if id == 0 then Fails(c, ProtocolError, ZeroWindowUpdate) else Fine(ResetStream(c, id, ProtocolError))
    else if id == 0 then Fine(GrantConn(c, n))
    else Fine(GrantStream(c, id, n))
  }

  function HandlePing(c: Conn, ack: bool, opaque8: bytes): (c': Conn) {
    if !ack then Send(c, Ping(true, opaque8))
    else if opaque8 in c.pings then
      c.(pings := c.pings - {opaque8}, pongs := c.pongs[c.pings[opaque8] := Acked])
    else c
  }

  function CodeOr(code: nat, default: ErrorCode): (c: ErrorCode) {
    match ErrorCode.FromValue(code) case Some(k) => k case None => default
  }

  function Above(ids: set<nat>, last: nat): (s: set<nat>) {
    set i | i in ids && i > last
  }

  function HandleGoaway(c: Conn, last: nat, code: nat): (c': Conn) {
    var err := H2Error(CodeOr(code, NoError), PeerGoaway);
    var c1 := WakeSlots(Doom(c.(goaway := true), Above(c.streams.Keys, last), err));
    if code != 0 then Destroy(c1, err) else c1
  }

  /** `dispatch`: an error outcome is answered by `ConnectionError`. */
  function Handle(cfg: Config, before: Conn, f: Frame): (o: Outcome) {
    var c := Log(before, Event.Recv(f));
    if c.block.Some? && !f.Continuation? then Fails(c, ProtocolError, ExpectedContinuation)
    else match f
      case SettingsFrame(ack, s) =>
        if ack then Fine(c)
        else
          var o := ApplySettings(c, s);
          if o.error.Some? then o else Fine(Send(o.conn, SettingsFrame(true, NO_SETTINGS)))
      case Headers(id, fragment, endStream, endHeaders, _) =>
        Gather(cfg, c, Pending(id, false, endStream, 0, [fragment], |fragment|), endHeaders)
      case PushPromise(id, promised, fragment, endHeaders) =>
        Gather(cfg, c, Pending(id, true, false, promised, [fragment], |fragment|), endHeaders)
      case Continuation(id, fragment, endHeaders) =>
        if c.block.Some? && c.block.value.streamId == id then
          var pb := c.block.value;
          Gather(cfg, c, pb.(fragments := pb.fragments + [fragment], size := pb.size + |fragment|), endHeaders)
        else Fails(c, ProtocolError, UnexpectedContinuation)
      case Data(id, data, endStream) =>
        var c1 := ReceiveData(c, id, data, endStream);
        Fine(if endStream then Retire(c1, id) else c1)
      case RstStream(id, code) =>
        Fine(Doom(c, {id}, H2Error(CodeOr(code, ProtocolError), PeerReset)))
      case WindowUpdate(id, n) => HandleWindowUpdate(c, id, n)
      case Ping(ack, opaque8) => Fine(HandlePing(c, ack, opaque8))
      case Goaway(last, code, _) => Fine(HandleGoaway(c, last, code))
      case Prioritize(_, _) => Fine(c)
  }

  function Inbound(cfg: Config, c: Conn, f: Frame): (c': Conn) {
    var o := Handle(cfg, c, f);
    if o.error.Some? then ConnectionError(o.conn, o.error.value) else o.conn
  }

  /** The frames of one chunk, up to the first that fails. */
  function InboundAll(cfg: Config, c: Conn, fs: seq<Frame>): (c': Conn)
    decreases |fs|
  {
    if fs == [] then c
    else if Handle(cfg, c, fs[0]).error.Some? then Inbound(cfg, c, fs[0])
    else InboundAll(cfg, Inbound(cfg, c, fs[0]), fs[1..])
  }

  function OnBytes(cfg: Config, c: Conn, chunk: bytes): (c': Conn) {
    match Scan(c.inbox + chunk, cfg.maxFrame)
    case Err(e) => ConnectionError(c.(inbox := []), e)
    case Ok(s) => InboundAll(cfg, c.(inbox := s.rest), s.frames)
  }

  // --- requests ---

  /** Client-initiated streams, the ones the peer's limit counts. */
  function ActiveIds(c: Conn): (ids: set<nat>) {
    set i | i in c.streams && i % 2 == 1
  }

  function Active(c: Conn): (n: nat) {
    |ActiveIds(c)|
  }

  lemma ActiveAtMost(c: Conn, ids: set<nat>)
    requires c.streams.Keys <= ids
    ensures Active(c) <= |ids|
  {
    SubsetSize(ActiveIds(c), ids);
  }

  predicate CanOpen(c: Conn) {
    Active(c) < c.remote.maxConcurrent
  }

  /** CONTINUATION frames for the rest of a header block. */
  function Continuations(id: nat, rest: bytes, max: FrameLimit): (fs: seq<Frame>)
    decreases |rest|
  {
    if |rest| <= max then [Continuation(id, rest, true)]
    else [Continuation(id, rest[..max], false)] + Continuations(id, rest[max..], max)
  }

  function SplitHeaders(id: nat, block: bytes, endStream: bool, max: FrameLimit): (fs: seq<Frame>) {
    if |block| <= max then [Headers(id, block, endStream, true, None)]
    else [Headers(id, block[..max], endStream, false, None)] + Continuations(id, block[max..], max)
  }

  /** The stream and its cell, before anything is written. */
  function Reserve(c: Conn, hasBody: bool): (c': Conn) {
    c.(nextId := c.nextId + 2,
       streams := c.streams[c.nextId := Strm(Fresh(c.remote.initialWindow), false, !hasBody, false)],
       cells := c.cells[c.nextId := Cell(Awaiting, EMPTY_INBOX, None, Unclaimed, if hasBody then Idle else NoPump)])
  }

  function Open(cfg: Config, c: Conn, headers: seq<Header>, hasBody: bool): (c': Conn)
    requires cfg.tables.Sized()
  {
    var block := EncodeHeaders(cfg.tables, headers);
    SendAll(Log(Reserve(c, hasBody), Event.Opened(c.nextId, block, hasBody)),
            SplitHeaders(c.nextId, block, !hasBody, c.remote.maxFrameSize))
  }

  predicate Refusing(c: Conn) {
    c.closed.Some? || c.goaway
  }

  /** One turn of the request loop: refused, admitted, or parked under its token. */
  function Request(cfg: Config, c: Conn, token: nat, headers: seq<Header>, hasBody: bool): (c': Conn)
    requires cfg.tables.Sized()
  {
    if Refusing(c) || token in c.waiters then c
    else if CanOpen(c) then Open(cfg, c, headers, hasBody)
    else c.(waiters := c.waiters + [token])
  }

  // --- the upload pump ---

  predicate PumpIs(c: Conn, id: nat, idle: bool) {
    id in c.cells && if idle then c.cells[id].pump.Idle? else c.cells[id].pump.Sending?
  }

  function SetPump(c: Conn, id: nat, p: Pump): (c': Conn)
    requires id in c.cells
  {
    SetCell(c, id, c.cells[id].(pump := p))
  }

  /** The body stream has produced a chunk; empty ones are skipped. */
  function Feed(c: Conn, id: nat, chunk: bytes): (c': Conn)
    requires PumpIs(c, id, true)
  {
    if chunk == [] then c else SetPump(Log(c, Event.Fed(id, chunk)), id, Sending(chunk, 0))
  }

  function Grant(c: Conn, id: nat): (n: int)
    requires PumpIs(c, id, false) && id in c.streams
  {
    var p := c.cells[id].pump;
    Min(Min(|p.chunk| - p.offset, c.window.available), Min(c.streams[id].window.available, c.remote.maxFrameSize))
  }

  function Park(c: Conn, id: nat): (c': Conn)
    requires id in c.streams
  {
    var s := c.streams[id];
    c.(parked := c.parked + {id},
       window := if c.window.Ready() then c.window else c.window.Joined(id),
       streams := if s.window.Ready() then c.streams else c.streams[id := s.(window := s.window.Joined(id))])
  }

  function SendChunk(c: Conn, id: nat, n: nat): (c': Conn)
    requires PumpIs(c, id, false) && id in c.streams
    requires var p := c.cells[id].pump; p.offset + n <= |p.chunk|
  {
    var p, s := c.cells[id].pump, c.streams[id];
    var spent := c.(window := c.window.Consumed(n), streams := c.streams[id := s.(window := s.window.Consumed(n))]);
    var sent := Send(spent, Data(id, p.chunk[p.offset..p.offset + n], false));
    SetPump(sent, id, if p.offset + n == |p.chunk| then Idle else Sending(p.chunk, p.offset + n))
  }

  /** Windows are closed only by teardown, after which nothing is mapped. */
  ghost predicate WindowsOpen(c: Conn) {
    (c.window.closed ==> c.closed.Some?) && forall id :: id in c.streams ==> !c.streams[id].window.closed
  }

  /** One turn of the loop that sends a chunk: give up, send one DATA frame, or park. */
  function Turn(c: Conn, id: nat): (c': Conn)
    requires PumpIs(c, id, false) && c.cells[id].pump.offset <= |c.cells[id].pump.chunk|
  {
    if c.closed.Some? || id !in c.streams then SetPump(c, id, Finished)
    else if !(c.window.Ready() && c.streams[id].window.Ready()) then Park(c, id)
    else if c.streams[id].window.closed then SetPump(c, id, Finished)
    else if Grant(c, id) <= 0 then c
    else SendChunk(c, id, Grant(c, id))
  }

  /** The body has ended: half-close a stream that is still live. */
  function FinishBody(c: Conn, id: nat): (c': Conn)
    requires PumpIs(c, id, true)
  {
    var c1 := SetPump(Log(c, Event.FedAll(id)), id, Finished);
    if id in c.streams then
      var c2 := Send(c1, Data(id, [], true));
      Retire(SetStream(c2, id, c2.streams[id].(localClosed := true)), id)
    else c1
  }

  // --- response bodies ---

  function Replenish(c: Conn, id: nat, n: nat): (c': Conn) {
    var c0 := Log(c, Returned(id, n));
    if c.closed.Some? || n == 0 then c0
    else
      var c1 := if id in c.streams then Send(c0, WindowUpdate(id, n % U32_LIMIT)) else c0;
      Send(c1, WindowUpdate(0, n % U32_LIMIT))
  }

  /** The request resumes with its head and holds the body from now on. */
  function Claim(c: Conn, id: nat): (c': Conn)
    requires id in c.cells
  {
    if c.cells[id].head.Answered? && c.cells[id].body.Unclaimed? then SetCell(c, id, c.cells[id].(body := Held)) else c
  }

  predicate Holds(c: Conn, id: nat) {
    id in c.cells && c.cells[id].body.Held?
  }

  /** The front chunk leaves the queue, */
  function TakeChunk(c: Conn, id: nat): (c': Conn)
    requires Holds(c, id) && c.cells[id].recv.queue != []
  {
    var cell := c.cells[id];
    var r := cell.recv;
    SetCell(Log(c, Yielded(id, r.queue[0])), id,
            cell.(recv := r.(queue := r.queue[1..], buffered := r.buffered - |r.queue[0]|)))
  }

  /** and its bytes go back to the receive windows. */
  function YieldChunk(c: Conn, id: nat): (c': Conn)
    requires Holds(c, id) && c.cells[id].recv.queue != []
  {
    Replenish(TakeChunk(c, id), id, |c.cells[id].recv.queue[0]|)
  }

  function YieldError(c: Conn, id: nat): (c': Conn)
    requires Holds(c, id)
  {
    var cell := c.cells[id];
    SetCell(Log(c, YieldedError(id)), id, cell.(recv := cell.recv.(error := None)))
  }

  function Wait(c: Conn, id: nat): (c': Conn)
    requires Holds(c, id)
  {
    var cell := c.cells[id];
    SetCell(c, id, cell.(recv := cell.recv.(waiting := true)))
  }

  /** The queue first, then an error, then the end. */
  function Read(c: Conn, id: nat): (c': Conn)
    requires Holds(c, id)
  {
    var r := c.cells[id].recv;
    if r.queue != [] then YieldChunk(c, id)
    else if r.error.Some? then YieldError(c, id)
    else if r.ended then Log(c, YieldedEnd(id))
    else Wait(c, id)
  }

  function DropBody(c: Conn, id: nat): (c': Conn)
    requires Holds(c, id)
  {
    var cell := c.cells[id];
    var c1 := SetCell(Log(c, Event.Released(id)), id, cell.(body := Dropped));
    var c2 := if cell.recv.buffered > 0 then Replenish(c1, id, cell.recv.buffered) else c1;
    if cell.recv.ended then c2 else ResetStream(c2, id, Cancel)
  }

  // --- ping and close ---

  function PingKey(n: nat): (k: bytes)
    requires n < U32_LIMIT
    ensures |k| == 8
  {
    [0, 0, 0, 0] + U32(n)
  }

  /** A counter that wraps: a key still in flight loses its first waiter. */
  function StartPing(c: Conn): (c': Conn) {
    if c.closed.Some? then c
    else
      var n := (c.pingCounter + 1) % U32_LIMIT;
      var key, token := PingKey(n), c.nextPong;
      var pongs := if key in c.pings then c.pongs[c.pings[key] := Overwritten] else c.pongs;
      Send(c.(pingCounter := n, nextPong := token + 1, pings := c.pings[key := token], pongs := pongs[token := Waiting]),
           Ping(false, key))
  }

  function Close(c: Conn): (c': Conn) {
    if c.closed.Some? then c
    else Destroy(Send(c, Goaway(c.highestPromised, 0, [])), H2Error(NoError, ClosedByClient))
  }

  // --- runs ---

  datatype Step =
    | DoBytes(chunk: bytes)
    | DoLost(writing: bool)
    | DoRequest(token: nat, headers: seq<Header>, hasBody: bool)
    | DoFeed(id: nat, chunk: bytes)
    | DoTurn(id: nat)
    | DoFinish(id: nat)
    | DoClaim(id: nat)
    | DoRead(id: nat)
    | DoDrop(id: nat)
    | DoPing
    | DoClose

  function LostError(writing: bool): (e: H2Error) {
    if writing then H2Error(InternalError, WriteFailed) else H2Error(NoError, TransportClosed)
  }

  /** What a step needs in order to happen at all. A parked upload does not run. */
  predicate Enabled(c: Conn, s: Step) {
    match s
    case DoFeed(id, _) => PumpIs(c, id, true)
    case DoFinish(id) => PumpIs(c, id, true)
    case DoTurn(id) => PumpIs(c, id, false) && id !in c.parked && c.cells[id].pump.offset <= |c.cells[id].pump.chunk|
    case DoClaim(id) => id in c.cells
    case DoRead(id) => Holds(c, id)
    case DoDrop(id) => Holds(c, id)
    case _ => true
  }

  function Perform(cfg: Config, c: Conn, s: Step): (c': Conn)
    requires cfg.tables.Sized() && Enabled(c, s)
  {
    match s
    case DoBytes(chunk) => OnBytes(cfg, c, chunk)
    case DoLost(writing) => Destroy(c, LostError(writing))
    case DoRequest(token, headers, hasBody) => Request(cfg, c, token, headers, hasBody)
    case DoFeed(id, chunk) => Feed(c, id, chunk)
    case DoTurn(id) => Turn(c, id)
    case DoFinish(id) => FinishBody(c, id)
    case DoClaim(id) => Claim(c, id)
    case DoRead(id) => Read(c, id)
    case DoDrop(id) => DropBody(c, id)
    case DoPing => StartPing(c)
    case DoClose => Close(c)
  }

  /** Steps of any of the parties in any order; one that is not enabled is passed over. */
  function RunFrom(cfg: Config, start: Conn, steps: seq<Step>): (c: Conn)
    requires cfg.tables.Sized()
    decreases |steps|
  {
    if steps == [] then start
    else
      var c, s := RunFrom(cfg, start, steps[..|steps| - 1]), steps[|steps| - 1];
      if Enabled(c, s) then Perform(cfg, c, s) else c
  }

  function Run(cfg: Config, steps: seq<Step>): (c: Conn)
    requires cfg.tables.Sized()
  {
    RunFrom(cfg, Connect(cfg), steps)
  }
}
