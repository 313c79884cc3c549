/** A run that loses credit: a dropped body gives back 2^31 bytes, which the wire cannot say. */
module LostCredit {
  import opened Common
  import opened Hpack
  import opened Frames
  import opened FrameStream
  import opened Flow
  import opened Connection
  import opened Moves
  import opened ReceiveCredit
  import ResponseBodies

  const PIECE: nat := 0x80_0000

  function Piece(): (f: Frame) {
    Data(1, seq(PIECE, i => 0), false)
  }

  /** The same frame, `n` times. */
  function Fill(n: nat): (steps: seq<Step>) {
    if n == 0 then [] else Fill(n - 1) + [DoBytes(Serialize(Piece()))]
  }

  /** A request whose head has arrived and whose body is held, */
  function HeldSteps(): (steps: seq<Step>) {
    [DoRequest(0, [], true),
     DoBytes(Serialize(Headers(1, ResponseBodies.StatusBlock(ResponseBodies.OK_STATUS), false, true, None))),
     DoClaim(1)]
  }

  /** then 2^31 bytes of it, which the application never reads, and drops. */
  function LossSteps(): (steps: seq<Step>) {
    HeldSteps() + Fill(256) + [DoDrop(1)]
  }

  ghost predicate Filling(c: Conn, n: nat) {
    && c.closed.None? && c.block.None? && c.inbox == [] && 1 in c.streams && Holds(c, 1)
    && var r := c.cells[1].recv; !r.ended && r.error.None? && r.buffered == n * PIECE && BooksOf(c.log).lost == 0
  }

  lemma PieceSendable(max: nat)
    requires max >= PIECE
    ensures Sendable([Piece()], max)
  {
  }

  lemma PieceArrives(cfg: Config, c: Conn, n: nat)
    requires Filling(c, n) && cfg.maxFrame >= PIECE
    ensures Filling(OnBytes(cfg, c, Serialize(Piece())), n + 1)
  {
    hide Serialize, OnBytes, BooksOf;
    PieceSendable(cfg.maxFrame);
    FrameArrives(cfg, c, Piece());
    Book(c.log, Event.Recv(Piece()));
    assert |Piece().data| == PIECE;
  }

  lemma {:induction false} Filled(cfg: Config, n: nat)
    requires cfg.tables.Sized() && cfg.maxFrame >= PIECE && Filling(Run(cfg, HeldSteps()), 0)
    ensures Filling(Run(cfg, HeldSteps() + Fill(n)), n)
  {
    hide Run, Filling, HeldSteps, OnBytes, Serialize, Piece;
    if n == 0 {
      assert HeldSteps() + [] == HeldSteps();
    } else {
      Filled(cfg, n - 1);
      var steps, s := HeldSteps() + Fill(n - 1), DoBytes(Serialize(Piece()));
      assert HeldSteps() + Fill(n) == steps + [s];
      RunNext(cfg, steps, s);
      PieceArrives(cfg, Run(cfg, steps), n - 1);
    }
  }

  lemma NoLoss(log: Trace, e: Event)
    requires !e.Returned?
    ensures BooksOf(After(log, e)).lost == BooksOf(log).lost
  {
    hide OnWire;
  }

  lemma HeldFilling(cfg: Config)
    requires cfg.tables.Sized() && cfg.maxFrame >= PIECE
    ensures Filling(Run(cfg, HeldSteps()), 0)
  {
    hide Run, Request, Connect, OnBytes, Serialize, BooksOf, OpenedLog, ResponseBodies.StatusBlock;
    var s := HeldSteps();
    assert s == [s[0]] + [s[1]] + [s[2]];
    var c1 := OneOpened(cfg);
    ResponseBodies.FinalArrives(cfg, c1);
    RunFirst(cfg, s[0]);
    RunNext(cfg, [s[0]], s[1]);
    RunNext(cfg, [s[0]] + [s[1]], s[2]);
    OpenedLoss(cfg);
    HeadLoss(cfg, c1);
  }

  lemma OpenedLoss(cfg: Config)
    ensures BooksOf(OpenedLog(cfg)).lost == 0
  {
    hide BooksOf;
    NoBooks();
    var f, g := SettingsFrame(false, OurSettings(cfg)), WindowUpdate(0, if cfg.connectionWindow > SPEC_WINDOW then cfg.connectionWindow - SPEC_WINDOW else 0);
    NoLoss(Begin, Sent(f));
    NoLoss(After(Begin, Sent(f)), Sent(g));
    NoLoss(StartLog(cfg), Event.Opened(1, [], true));
    NoLoss(After(StartLog(cfg), Event.Opened(1, [], true)), Sent(Headers(1, [], false, true, None)));
  }

  /** What the arrival of the head writes into the trace. */
  lemma HeadLoss(cfg: Config, c: Conn)
    requires c.closed.None? && c.block.None? && c.inbox == [] && cfg.maxFrame >= 13
    requires 1 in c.streams && 1 in c.cells && !c.streams[1].gotHead && !c.streams[1].localClosed
    ensures var f := Headers(1, ResponseBodies.StatusBlock(ResponseBodies.OK_STATUS), false, true, None);
            BooksOf(OnBytes(cfg, c, Serialize(f)).log).lost == BooksOf(c.log).lost
  {
    hide BooksOf, OnBytes, Serialize, DecodeBlock, Status, PlainLiteral, HeadersOnCell;
    var block := ResponseBodies.StatusBlock(ResponseBodies.OK_STATUS);
    var headers := [Header(STATUS_NAME, ResponseBodies.OK_STATUS, false)];
    assert |block| == 13 by { ResponseBodies.BlockSize(ResponseBodies.OK_STATUS); }
    PlainLiteralDecodes(cfg.tables, c.table, STATUS_NAME, ResponseBodies.OK_STATUS);
    HeadersArrive(cfg, c, 1, block, headers, false);
    var f := Headers(1, block, false, true, None);
    NoLoss(c.log, Event.Recv(f));
    NoLoss(After(c.log, Event.Recv(f)), Block(1, false, headers, false));
  }

  lemma DropLoses(c: Conn)
    requires Filling(c, 256)
    ensures DropBody(c, 1).closed.None? && BooksOf(DropBody(c, 1).log).lost == U31
  {
    hide BooksOf, Doom;
    var n := c.cells[1].recv.buffered;
    assert n == U31 && OnWire(n) == 0;
    var l0 := After(c.log, Event.Released(1));
    var l1 := After(l0, Returned(1, n));
    var f, g := WindowUpdate(1, n % U32_LIMIT), WindowUpdate(0, n % U32_LIMIT);
    NoLoss(c.log, Event.Released(1));
    Book(l0, Returned(1, n));
    NoLoss(l1, Sent(f));
    NoLoss(After(l1, Sent(f)), Sent(g));
    NoLoss(After(After(l1, Sent(f)), Sent(g)), Sent(RstStream(1, Cancel.Value())));
    DoomLog(ResetPart(c), {1}, H2Error(Cancel, StreamReset));
  }

  function ResetPart(c: Conn): (c': Conn)
    requires Holds(c, 1)
  {
    Send(Relinquish(c, 1), RstStream(1, Cancel.Value()))
  }

  lemma DoomLog(c: Conn, ids: set<nat>, err: H2Error)
    ensures Doom(c, ids, err).log == c.log && Doom(c, ids, err).closed == c.closed
  {
  }

  /** After this run the peer has been given nothing for 2^31 bytes, by two WINDOW_UPDATEs of zero. */
  lemma CreditLost(cfg: Config)
    requires cfg.tables.Sized() && cfg.maxFrame >= PIECE
    ensures var c := Run(cfg, LossSteps()); c.closed.None? && BooksOf(c.log).lost == U31
  {
    hide Run, Filling, HeldSteps, Fill, BooksOf, DropBody;
    HeldFilling(cfg);
    Filled(cfg, 256);
    var c := Run(cfg, HeldSteps() + Fill(256));
    assert Holds(c, 1) by { FillingHolds(c, 256); }
    DropLoses(c);
    RunNext(cfg, HeldSteps() + Fill(256), DoDrop(1));
  }

  lemma FillingHolds(c: Conn, n: nat)
    requires Filling(c, n)
    ensures Holds(c, 1)
  {
  }
}
