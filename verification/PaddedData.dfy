/** Padding of DATA against flow control: what the peer is charged and what it gets back. */
module PaddedData {
  import opened Common
  import opened Bytes
  import opened Frames
  import opened FrameStream
  import opened Connection
  import opened ReceiveCredit
  import StepTraces

  /** The frame at the front is DATA: its whole payload counts against the windows, section 6.9.1 of RFC 7540. */
  function ChargeOf(buf: bytes): (n: nat)
    requires |buf| >= FRAME_HEADER_SIZE
  {
    if buf[3] == 0 then GetU24(buf) else 0
  }

  predicate Padded(buf: bytes)
    requires |buf| >= FRAME_HEADER_SIZE
  {
    buf[3] == 0 && Flag(buf[4], 0x8)
  }

  /** Its pad length octet and its padding. */
  function PadOf(buf: bytes): (n: nat)
    requires |buf| >= FRAME_HEADER_SIZE
  {
    if Padded(buf) && |buf| > FRAME_HEADER_SIZE then 1 + buf[FRAME_HEADER_SIZE] as int else 0
  }

  /** The same of all whole frames at the front of a buffer. */
  function Charged(buf: bytes, max: nat): (n: nat)
    decreases |buf|
  {
    match Next(buf, max) case Whole(_, rest) => ChargeOf(buf) + Charged(rest, max) case _ => 0
  }

  function PadOctets(buf: bytes, max: nat): (n: nat)
    decreases |buf|
  {
    match Next(buf, max) case Whole(_, rest) => PadOf(buf) + PadOctets(rest, max) case _ => 0
  }

  predicate SomePadded(buf: bytes, max: nat)
    decreases |buf|
  {
    match Next(buf, max) case Whole(_, rest) => Padded(buf) || SomePadded(rest, max) case _ => false
  }

  function DataOctets(fs: seq<Frame>): (n: nat) {
    if fs == [] then 0
    else
      var f := fs[|fs| - 1];
      DataOctets(fs[..|fs| - 1]) + if f.Data? then |f.data| else 0
  }

  lemma {:induction false} DataOctetsAppend(a: seq<Frame>, b: seq<Frame>)
    ensures DataOctets(a + b) == DataOctets(a) + DataOctets(b)
    decreases |b|
  {
    if b == [] {
      assert a + b == a;
    } else {
      assert (a + b)[..|a + b| - 1] == a + b[..|b| - 1];
      DataOctetsAppend(a, b[..|b| - 1]);
    }
  }

  lemma ListedOctets(f: Option<Frame>)
    ensures DataOctets(Listed(f)) == if f.Some? && f.value.Data? then |f.value.data| else 0
  {
    if f.Some? {
      assert [f.value][..0] == [];
    }
  }

  /** Parsing takes exactly the pad length octet and the padding away. */
  lemma FrameCharge(buf: bytes, max: nat)
    requires Next(buf, max).Whole?
    ensures ChargeOf(buf) == DataOctets(Listed(Next(buf, max).frame)) + PadOf(buf)
    ensures PadOf(buf) > 0 <==> Padded(buf)
  {
    hide Flag, GetU24, GetU32, ParseHeaders, ParseSettings, ParsePushPromise, ReadPriority, DataOctets;
    ListedOctets(Next(buf, max).frame);
    if buf[3] == 0 {
      var payload := buf[FRAME_HEADER_SIZE..FRAME_HEADER_SIZE + GetU24(buf)];
      assert payload != [] ==> payload[0] == buf[FRAME_HEADER_SIZE];
    } else {
      NotData(buf[3], buf[4], GetU32(buf[5..]) % U31, buf[FRAME_HEADER_SIZE..FRAME_HEADER_SIZE + GetU24(buf)]);
    }
  }

  lemma NotData(typeId: byte, flags: byte, id: nat, payload: bytes)
    requires typeId != 0
    ensures var r := ParsePayload(typeId, flags, id, payload); r.Ok? && r.value.Some? ==> !r.value.value.Data?
  {
    hide Flag, GetU32, ReadSettings, ReadPriority;
  }

  lemma {:induction false} ChargedSplits(buf: bytes, max: nat)
    requires Scan(buf, max).Ok?
    ensures Charged(buf, max) == DataOctets(Scan(buf, max).value.frames) + PadOctets(buf, max)
    ensures PadOctets(buf, max) > 0 <==> SomePadded(buf, max)
    decreases |buf|
  {
    hide Next, ChargeOf, PadOf, Padded, DataOctets;
    if Next(buf, max).Whole? {
      var f, rest := Next(buf, max).frame, Next(buf, max).rest;
      FrameCharge(buf, max);
      ChargedSplits(rest, max);
      DataOctetsAppend(Listed(f), Scan(rest, max).value.frames);
    } else {
      assert DataOctets([]) == 0 by { NoOctets(); }
    }
  }

  lemma NoOctets()
    ensures DataOctets([]) == 0
  {
  }

  /** The books enter what was parsed. */
  lemma {:induction false} BooksEnter(log: Trace)
    ensures BooksOf(log).received == DataOctets(StepTraces.FramesIn(log))
  {
    match log
    case Begin =>
    case After(past, e) =>
      BooksEnter(past);
      if e.Recv? {
        var fs := StepTraces.FramesIn(past);
        assert (fs + [e.frame])[..|fs + [e.frame]| - 1] == fs;
      }
  }

  /**
   * While a connection is open, the DATA it was charged for by all the bytes that came in is what
   * it has given back beyond the initial growth, plus what is readable, stranded, discarded or
   * lost, plus the padding, which is never given back. The padding is nothing exactly if no
   * padded DATA frame has come in.
   */
  lemma PaddingUncredited(cfg: Config, steps: seq<Step>)
    requires cfg.tables.Sized() && Run(cfg, steps).closed.None?
    ensures var c, input := Run(cfg, steps), StepTraces.Input(steps);
            var b := BooksOf(c.log);
            && Charged(input, cfg.maxFrame)
               == (b.credited - Grow(cfg)) + ReadableBelow(c.cells, c.nextId) + StrandedBelow(c.cells, c.nextId)
                  + b.discarded + b.lost + PadOctets(input, cfg.maxFrame)
            && (PadOctets(input, cfg.maxFrame) > 0 <==> SomePadded(input, cfg.maxFrame))
  {
    hide Run, BooksOf, Scan, Charged, PadOctets, SomePadded, DataOctets, ReadableBelow, StrandedBelow, Grow;
    StepTraces.AllHeard(cfg, steps);
    ChargedSplits(StepTraces.Input(steps), cfg.maxFrame);
    BooksEnter(Run(cfg, steps).log);
    CreditConserved(cfg, steps);
  }

  /** One octet of data on stream 1 and two of padding: four are charged, one is ever given back. */
  const PADDED_FRAME: bytes := [0, 0, 4, 0, 8, 0, 0, 0, 1, 2, 7, 0, 0]

  lemma PaddedExample(max: nat)
    requires max >= 4
    ensures Next(PADDED_FRAME, max) == Whole(Some(Data(1, [7], false)), [])
    ensures Charged(PADDED_FRAME, max) == 4 && PadOctets(PADDED_FRAME, max) == 3
  {
    var buf := PADDED_FRAME;
    assert GetU24(buf) == 4 && GetU32(buf[5..]) == 1;
    assert buf[9..13] == [2, 7, 0, 0] && buf[13..] == [];
    assert [2, 7, 0, 0][1..4 - 2] == [7];
    assert Flag(8, 0x8) && !Flag(8, 0x1);
  }
}
