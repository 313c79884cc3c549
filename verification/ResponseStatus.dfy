/** What a request is answered with, from the octets of `:status` on: section 8.1.2.4 of RFC 7540. */
module ResponseStatus {
  import opened Common
  import opened StaticTable
  import opened Hpack
  import opened Frames
  import opened Connection
  import opened Moves
  import opened HeaderTransport
  import opened Lifetimes

  // --- a number by the places of its digits ---

  predicate AllDigits(s: bytes) {
    forall i :: 0 <= i < |s| ==> 48 <= s[i] <= 57
  }

  function Pow10(n: nat): (p: nat)
    ensures p >= 1
  {
    if n == 0 then 1 else 10 * Pow10(n - 1)
  }

  /** The first digit weighs most. */
  function Places(s: bytes): (v: nat)
    requires AllDigits(s)
  {
    if s == [] then 0 else (s[0] - 48) * Pow10(|s| - 1) + Places(s[1..])
  }

  lemma {:induction false} PlacesSnoc(s: bytes)
    requires AllDigits(s) && s != []
    ensures Places(s) == 10 * Places(s[..|s| - 1]) + (s[|s| - 1] - 48)
  {
    var n := |s| - 1;
    if n == 0 {
      assert s[1..] == [] && s[..0] == [] && Pow10(0) == 1;
    } else {
      PlacesSnoc(s[1..]);
      assert s[1..][..n - 1] == s[..n][1..];
      var x, p := s[0] - 48, Pow10(n - 1);
      assert Pow10(n) == 10 * p && x * (10 * p) == 10 * (x * p);
    }
  }

  /** The reader's running number is the sum of the places, and none if that leaves sixteen bits. */
  lemma {:induction false} DecimalByPlaces(s: bytes)
    ensures Decimal(s) == if AllDigits(s) && Places(s) < 65536 then Some(Places(s)) else None
  {
    if s != [] {
      var n := |s| - 1;
      DecimalByPlaces(s[..n]);
      if AllDigits(s) {
        PlacesSnoc(s);
      } else if AllDigits(s[..n]) {
        assert !(48 <= s[n] <= 57);
      }
    }
  }

  /** The value of a `:status`: zero for anything that is not a number of sixteen bits. */
  lemma StatusValue(s: bytes)
    ensures var digits := if |s| > 1 && s[0] == 43 then s[1..] else s;
            ParseStatus(s) == if digits != [] && AllDigits(digits) && Places(digits) < 65536 then Places(digits) else 0
  {
    DecimalByPlaces(s);
    DecimalByPlaces(if s == [] then s else s[1..]);
  }

  lemma ThreeDigits(a: nat, b: nat, d: nat)
    requires a < 10 && b < 10 && d < 10
    ensures ParseStatus([48 + a, 48 + b, 48 + d]) == 100 * a + 10 * b + d
  {
    var s: bytes := [48 + a, 48 + b, 48 + d];
    StatusValue(s);
    assert Pow10(1) == 10 && Pow10(2) == 100;
    var t: bytes := [48 + b, 48 + d];
    var u: bytes := [48 + d];
    assert s[1..] == t && t[1..] == u && u[1..] == [];
    assert Places(u) == d by { assert Pow10(0) == 1; }
    assert Places(t) == 10 * b + d;
    assert Places(s) == 100 * a + 10 * b + d;
  }

  predicate NamesStatus(h: Header) {
    h.name == Ascii(":status")
  }

  lemma StatusName()
    ensures STATUS_NAME == Ascii(":status")
  {
  }

  lemma {:induction false} LastWins(before: seq<Header>, h: Header, after: seq<Header>)
    requires NamesStatus(h) && forall g :: g in after ==> !NamesStatus(g)
    ensures Status(before + [h] + after) == ParseStatus(h.value)
  {
    StatusName();
    var hs := before + [h] + after;
    if after == [] {
      assert hs[|hs| - 1] == h;
    } else {
      assert hs[|hs| - 1] == after[|after| - 1] && after[|after| - 1] in after;
      assert hs[..|hs| - 1] == before + [h] + after[..|after| - 1];
      LastWins(before, h, after[..|after| - 1]);
    }
  }

  /**
   * The status of a header list is what the digits of its last `:status` say, and the list is
   * interim exactly if the first of three digits is a one.
   */
  lemma StatusByDigits(before: seq<Header>, h: Header, after: seq<Header>, a: nat, b: nat, d: nat)
    requires NamesStatus(h) && forall g :: g in after ==> !NamesStatus(g)
    requires a < 10 && b < 10 && d < 10 && h.value == [48 + a, 48 + b, 48 + d]
    ensures Status(before + [h] + after) == 100 * a + 10 * b + d
    ensures Interim(before + [h] + after) <==> a == 1
  {
    LastWins(before, h, after);
    ThreeDigits(a, b, d);
  }

  /** Without one there is no status, and the list is final. */
  lemma {:induction false} NoStatus(hs: seq<Header>)
    requires forall g :: g in hs ==> !NamesStatus(g)
    ensures Status(hs) == 0 && !Interim(hs)
  {
    StatusName();
    if hs != [] {
      assert hs[|hs| - 1] in hs;
      NoStatus(hs[..|hs| - 1]);
    }
  }

  // --- from the peer's header list to the request ---

  lemma {:induction false} LoweredAppend(a: seq<Header>, b: seq<Header>)
    ensures Lowered(a + b) == Lowered(a) + Lowered(b)
  {
    if a == [] {
      assert a + b == b;
    } else {
      assert (a + b)[1..] == a[1..] + b;
      LoweredAppend(a[1..], b);
    }
  }

  lemma {:induction false} NoneLowered(hs: seq<Header>)
    requires forall g :: g in hs ==> Lower(g.name) != Ascii(":status")
    ensures forall g :: g in Lowered(hs) ==> !NamesStatus(g)
  {
    if hs != [] {
      NoneLowered(hs[1..]);
    }
  }

  /**
   * From end to end: the fields of a peer's final head reach the waiting request with the status
   * its digits say, however the block was split and cut up; an interim head leaves it waiting,
   * unless it ends a stream that is already half closed.
   */
  lemma ResponseArrives(cfg: Config, c: Conn, id: nat, before: seq<Header>, h: Header, after: seq<Header>,
                        a: nat, b: nat, d: nat, endStream: bool, max: FrameLimit, chunks: seq<bytes>)
    requires Lower(h.name) == Ascii(":status") && forall g :: g in after ==> Lower(g.name) != Ascii(":status")
    requires a < 10 && b < 10 && d < 10 && h.value == [48 + a, 48 + b, 48 + d]
    requires cfg.tables.Good() && max <= cfg.maxFrame && id < U31
    requires c.closed.None? && c.block.None? && c.inbox == []
    requires id in c.streams && id in c.cells && !c.streams[id].gotHead
    requires |EncodeHeaders(cfg.tables, before + [h] + after)| <= MAX_HEADER_BLOCK
    requires Flatten(chunks) == OnTheWire(id, EncodeHeaders(cfg.tables, before + [h] + after), endStream, max)
    ensures var c' := OnChunks(cfg, c, chunks);
            && id in c'.cells
            && c'.cells[id].head == if a != 1 then Answered(100 * a + 10 * b + d, Lowered(before + [h] + after))
                                    else if endStream && c.streams[id].localClosed then Abandoned else c.cells[id].head
  {
    hide OnTheWire, OnChunks, EncodeHeaders;
    var hs := before + [h] + after;
    HeadersArriveWhole(cfg, c, id, hs, endStream, max, chunks);
    LoweredAppend(before + [h], after);
    LoweredAppend(before, [h]);
    NoneLowered(after);
    var h' := Header(Lower(h.name), h.value, false);
    assert Lowered([h]) == [h'];
    hide Lowered, Status;
    StatusByDigits(Lowered(before), h', Lowered(after), a, b, d);
  }

  /**
   * Over every run: a request whose stream got a final head while it was mapped is answered with
   * the first such, its fields and the number that the digits of its last `:status` spell.
   */
  lemma AnsweredByDigits(cfg: Config, steps: seq<Step>, id: nat, before: seq<Header>, h: Header, after: seq<Header>, a: nat, b: nat, d: nat)
    requires cfg.tables.Sized() && id in Run(cfg, steps).cells && id in Seen(Run(cfg, steps).log).lives
    requires NamesStatus(h) && forall g :: g in after ==> !NamesStatus(g)
    requires a < 10 && b < 10 && d < 10 && h.value == [48 + a, 48 + b, 48 + d]
    ensures var c := Run(cfg, steps); var head := Seen(c.log).lives[id].head;
            && (head == Some(before + [h] + after) ==> c.cells[id].head == Answered(100 * a + 10 * b + d, before + [h] + after))
            && (head.None? ==> !c.cells[id].head.Answered?)
  {
    hide Run, Seen, Status;
    ToldExactly(cfg, steps, id);
    StatusByDigits(before, h, after, a, b, d);
  }
}
