/**
 * What the instructions of a header block mean, told by the order in which fields were inserted:
 * sections 2.3.3, 4.4 and 6 of RFC 7541. The decoder is then shown to mean the same.
 */
module HpackWire {
  import opened Common
  import opened Bytes
  import opened HpackInteger
  import opened Tiling
  import opened Huffman
  import opened StaticTable
  import opened DynamicTable
  import opened Hpack

  // --- instructions and their octets ---

  /** A string, written as it is or Huffman coded. */
  datatype Text = Text(octets: bytes, huffman: bool)

  datatype Name = Named(index: nat) | Spelled(text: Text)

  datatype Form = Indexing | NotIndexing | NeverIndexing

  datatype Wire =
    | Indexed(index: nat)
    | Literal(form: Form, name: Name, value: Text)
    | SizeUpdate(size: nat)

  function Raw(tb: Tables, x: Text): (b: bytes)
    requires tb.Sized()
  {
    if x.huffman then EncodeWith(Codes(tb.words), x.octets) else x.octets
  }

  function TextOctets(tb: Tables, x: Text): (b: bytes)
    requires tb.Sized()
  {
    PrefixSizes();
    EncodeInteger(|Raw(tb, x)|, 7, if x.huffman then 0x80 else 0x00) + Raw(tb, x)
  }

  /** The octets of the representation's first integer: its pattern bits above a prefix of `n` bits. */
  function Lead(form: Form, index: nat): (b: bytes)
    ensures b != []
  {
    PrefixSizes();
    match form
    case Indexing => EncodeInteger(index, 6, 0x40)
    case NotIndexing => EncodeInteger(index, 4, 0x00)
    case NeverIndexing => EncodeInteger(index, 4, 0x10)
  }

  function WireOctets(tb: Tables, w: Wire): (b: bytes)
    requires tb.Sized()
    ensures b != []
  {
    PrefixSizes();
    match w
    case Indexed(index) => EncodeInteger(index, 7, 0x80)
    case Literal(form, Named(index), value) => Lead(form, index) + TextOctets(tb, value)
    case Literal(form, Spelled(name), value) => Lead(form, 0) + TextOctets(tb, name) + TextOctets(tb, value)
    case SizeUpdate(size) => EncodeInteger(size, 5, 0x20)
  }

  function AllOctets(tb: Tables, ws: seq<Wire>): (b: bytes)
    requires tb.Sized()
  {
    if ws == [] then [] else WireOctets(tb, ws[0]) + AllOctets(tb, ws[1..])
  }

  /** Every integer is within the range of the decoder. */
  ghost predicate TextFits(tb: Tables, x: Text)
    requires tb.Sized()
  {
    |Raw(tb, x)| < Bound(7)
  }

  ghost predicate WireFits(tb: Tables, w: Wire)
    requires tb.Sized()
  {
    match w
    case Indexed(index) => index < Bound(7)
    case Literal(form, Named(index), value) => 0 < index < Bound(4) && TextFits(tb, value)
    case Literal(form, Spelled(name), value) => TextFits(tb, name) && TextFits(tb, value)
    case SizeUpdate(size) => size < Bound(5)
  }

  // --- their meaning ---

  /** The fields still remembered, in the order they were inserted. */
  datatype Memory = Memory(added: seq<Field>, limit: nat)

  function Weight(fs: seq<Field>): (n: nat) {
    if fs == [] then 0 else |fs[0].name| + |fs[0].value| + 32 + Weight(fs[1..])
  }

  /** The oldest are forgotten until the rest fits. */
  function Newest(fs: seq<Field>, limit: nat): (kept: seq<Field>) {
    if Weight(fs) <= limit then fs else Newest(fs[1..], limit)
  }

  /** The static fields from 1, then the remembered ones, the last inserted first. */
  function Meant(fields: seq<Field>, m: Memory, index: nat): (f: Option<Field>) {
    if index == 0 then None
    else if index <= |fields| then Some(fields[index - 1])
    else if index - |fields| <= |m.added| then Some(m.added[|m.added| - (index - |fields|)])
    else None
  }

  datatype Meaning =
    | Said(header: Header, memory: Memory)
    | Update(memory: Memory)
    | Wrong(reason: Reason)

  function Means(fields: seq<Field>, ceiling: nat, m: Memory, w: Wire): (r: Meaning) {
    match w
    case Indexed(index) => (
      match Meant(fields, m, index)
      case Some(f) => Said(Header(f.name, f.value, false), m)
      case None => Wrong(if index == 0 then IndexZero else InvalidIndex))
    case Literal(form, Spelled(name), value) => Literally(form, name.octets, value.octets, m)
    case Literal(form, Named(index), value) => (
      match Meant(fields, m, index)
      case Some(f) => Literally(form, f.name, value.octets, m)
      case None => Wrong(InvalidIndex))
    case SizeUpdate(size) =>
      if size > ceiling then Wrong(TableUpdateTooLarge) else Update(Memory(Newest(m.added, size), size))
  }

  function Literally(form: Form, name: bytes, value: bytes, m: Memory): (r: Meaning) {
    Said(Header(name, value, false),
         if form.Indexing? then m.(added := Newest(m.added + [Field(name, value)], m.limit)) else m)
  }

  /** The fields of a list of instructions, or the first error, and what is remembered then. */
  datatype Story = Story(headers: Result<seq<Header>>, memory: Memory)

  function Tell(fields: seq<Field>, ceiling: nat, m: Memory, ws: seq<Wire>): (s: Story)
    decreases |ws|
  {
    if ws == [] then Story(Ok([]), m)
    else match Means(fields, ceiling, m, ws[0])
      case Wrong(why) => Story(Err(H2Error(CompressionError, why)), m)
      case Update(m') => Tell(fields, ceiling, m', ws[1..])
      case Said(h, m') =>
        var rest := Tell(fields, ceiling, m', ws[1..]);
        if rest.headers.Ok? then rest.(headers := Ok([h] + rest.headers.value)) else rest
  }

  // --- the decoder's table is the memory, newest first ---

  ghost predicate Mirrors(entries: seq<Field>, added: seq<Field>) {
    |entries| == |added| && forall k :: 0 <= k < |entries| ==> entries[k] == added[|added| - 1 - k]
  }

  ghost predicate Remembers(t: Table, m: Memory) {
    Mirrors(t.entries, m.added) && t.limit == m.limit
  }

  lemma {:induction false} SameWeight(entries: seq<Field>, added: seq<Field>)
    requires Mirrors(entries, added)
    ensures TableSize(entries) == Weight(added)
    decreases |entries|
  {
    if entries != [] {
      SameWeight(entries[..|entries| - 1], added[1..]);
    }
  }

  lemma {:induction false} EvictMirrors(entries: seq<Field>, added: seq<Field>, limit: nat)
    requires Mirrors(entries, added)
    ensures Mirrors(Evict(entries, limit), Newest(added, limit))
    decreases |entries|
  {
    SameWeight(entries, added);
    if TableSize(entries) > limit {
      EvictMirrors(entries[..|entries| - 1], added[1..], limit);
    }
  }

  lemma {:induction false} WeightSnoc(fs: seq<Field>, f: Field)
    ensures Weight(fs + [f]) == Weight(fs) + EntrySize(f)
  {
    if fs != [] {
      assert (fs + [f])[1..] == fs[1..] + [f];
      WeightSnoc(fs[1..], f);
    } else {
      assert (fs + [f])[1..] == [];
    }
  }

  /** Making room first and then inserting comes to the same. */
  lemma {:induction false} RoomFirst(fs: seq<Field>, f: Field, limit: nat)
    ensures Newest(fs + [f], limit) == if EntrySize(f) <= limit then Newest(fs, limit - EntrySize(f)) + [f] else []
  {
    WeightSnoc(fs, f);
    if Weight(fs + [f]) > limit {
      if fs == [] {
        assert (fs + [f])[1..] == [];
      } else {
        assert (fs + [f])[1..] == fs[1..] + [f];
        RoomFirst(fs[1..], f, limit);
      }
    }
  }

  lemma InsertRemembers(t: Table, m: Memory, f: Field)
    requires Remembers(t, m)
    ensures Remembers(Inserted(t, f), m.(added := Newest(m.added + [f], m.limit))) && Inserted(t, f).ceiling == t.ceiling
  {
    RoomFirst(m.added, f, m.limit);
    if EntrySize(f) <= t.limit {
      EvictMirrors(t.entries, m.added, t.limit - EntrySize(f));
    }
  }

  lemma LooksUp(tb: Tables, t: Table, m: Memory, index: nat)
    requires Remembers(t, m) && index >= 1
    ensures EntryAt(tb, t, index) == match Meant(tb.fields, m, index) case Some(f) => Ok(f) case None => Err(H2Error(CompressionError, InvalidIndex))
  {
  }

  // --- one instruction ---

  lemma LeadBack(form: Form, index: nat, tail: bytes)
    requires index < Bound(4)
    ensures var input := Lead(form, index) + tail; var n := if form.Indexing? then 6 else 4;
            && DecodeInteger(input, n) == Got(index, tail)
            && (if form.Indexing? then 64 <= input[0] < 128 else input[0] < 32)
  {
    PrefixSizes();
    IntegerRoundTrip(index, 6, 0x40, tail);
    IntegerRoundTrip(index, 4, 0x00, tail);
    IntegerRoundTrip(index, 4, 0x10, tail);
    hide EncodeInteger, DecodeInteger;
  }

  lemma TextBack(tb: Tables, x: Text, tail: bytes)
    requires tb.Good() && TextFits(tb, x)
    ensures DecodeString(tb, TextOctets(tb, x) + tail) == Got(x.octets, tail)
  {
    hide DecodeInteger, EncodeInteger, DecodeWith, EncodeWith, Bound, Suits, Codes;
    PrefixSizes();
    var raw, flags := Raw(tb, x), if x.huffman then 0x80 else 0x00;
    var length := EncodeInteger(|raw|, 7, flags);
    var input := TextOctets(tb, x) + tail;
    assert input == length + (raw + tail);
    assert DecodeInteger(input, 7) == Got(|raw|, raw + tail) by { IntegerRoundTrip(|raw|, 7, flags, raw + tail); }
    assert input[0] == length[0] && (input[0] >= 128 <==> x.huffman);
    assert (raw + tail)[..|raw|] == raw && (raw + tail)[|raw|..] == tail;
    if x.huffman {
      DecodeEncode(Codes(tb.words), x.octets);
    }
  }

  ghost predicate Agrees(i: Instruction, r: Meaning, tail: bytes, ceiling: nat) {
    match r
    case Said(h, m) => i.Emit? && i.header == h && Remembers(i.table, m) && i.rest == tail && i.table.ceiling == ceiling
    case Update(m) => i.Resize? && Remembers(i.table, m) && i.rest == tail && i.table.ceiling == ceiling
    case Wrong(why) => i == Fail(H2Error(CompressionError, why))
  }

  lemma LiteralMeans(tb: Tables, t: Table, m: Memory, w: Wire, tail: bytes)
    requires tb.Good() && Remembers(t, m) && WireFits(tb, w) && w.Literal?
    ensures Agrees(DecodeInstruction(tb, t, WireOctets(tb, w) + tail), Means(tb.fields, t.ceiling, m, w), tail, t.ceiling)
  {
    hide DecodeString, TextOctets, Lead, DecodeInteger, Inserted, Newest, EntryAt, Meant, Mirrors, Bound;
    var input := WireOctets(tb, w) + tail;
    var index := if w.name.Named? then w.name.index else 0;
    var value := TextOctets(tb, w.value) + tail;
    var rest := if w.name.Named? then value else TextOctets(tb, w.name.text) + value;
    assert input == Lead(w.form, index) + rest;
    assert index < Bound(4) by { BoundPositive(); }
    LeadBack(w.form, index, rest);
    TextBack(tb, w.value, tail);
    var n := if w.form.Indexing? then 6 else 4;
    assert DecodeInstruction(tb, t, input) == DecodeLiteral(tb, t, input, n, w.form.Indexing?);
    hide DecodeInstruction;
    var name := if w.name.Named? then Meant(tb.fields, m, index) else None;
    if w.name.Named? {
      LooksUp(tb, t, m, index);
      if name.None? {
        assert DecodeName(tb, t, input, n) == Bad(H2Error(CompressionError, InvalidIndex));
      } else {
        assert DecodeName(tb, t, input, n) == Got(name.value.name, value);
        InsertRemembers(t, m, Field(name.value.name, w.value.octets));
      }
    } else {
      TextBack(tb, w.name.text, value);
      assert DecodeName(tb, t, input, n) == Got(w.name.text.octets, value);
      InsertRemembers(t, m, Field(w.name.text.octets, w.value.octets));
    }
  }

  lemma BoundPositive()
    ensures Bound(4) > 0
  {
  }

  lemma OtherMeans(tb: Tables, t: Table, m: Memory, w: Wire, tail: bytes)
    requires tb.Good() && Remembers(t, m) && WireFits(tb, w) && !w.Literal?
    ensures Agrees(DecodeInstruction(tb, t, WireOctets(tb, w) + tail), Means(tb.fields, t.ceiling, m, w), tail, t.ceiling)
  {
    PrefixSizes();
    if w.Indexed? {
      IntegerRoundTrip(w.index, 7, 0x80, tail);
      assert (WireOctets(tb, w) + tail)[0] >= 128;
      hide DecodeInteger, EncodeInteger, EntryAt, Meant, Bound;
      if w.index >= 1 {
        LooksUp(tb, t, m, w.index);
      } else {
        assert Meant(tb.fields, m, 0) == None by { NoZero(tb.fields, m); }
      }
    } else {
      IntegerRoundTrip(w.size, 5, 0x20, tail);
      assert 32 <= (WireOctets(tb, w) + tail)[0] < 64;
      hide DecodeInteger, EncodeInteger, Evict, Newest, Bound;
      EvictMirrors(t.entries, m.added, w.size);
    }
  }

  lemma NoZero(fields: seq<Field>, m: Memory)
    ensures Meant(fields, m, 0) == None
  {
  }

  /**
   * For every list of instructions of every form, with any choice of Huffman coding: the decoder
   * reads their octets as their meaning says, the same fields or the same error, and its table
   * ends up holding what is then remembered.
   */
  lemma {:induction false} BlockMeans(tb: Tables, t: Table, m: Memory, ws: seq<Wire>)
    requires tb.Good() && Remembers(t, m) && forall w :: w in ws ==> WireFits(tb, w)
    ensures var d, s := DecodeBlock(tb, t, AllOctets(tb, ws)), Tell(tb.fields, t.ceiling, m, ws);
            d.headers == s.headers && Remembers(d.table, s.memory)
    decreases |ws|
  {
    hide DecodeInstruction, WireOctets, Means, Remembers, WireFits;
    if ws != [] {
      var tail := AllOctets(tb, ws[1..]);
      var i := DecodeInstruction(tb, t, WireOctets(tb, ws[0]) + tail);
      if ws[0].Literal? {
        LiteralMeans(tb, t, m, ws[0], tail);
      } else {
        OtherMeans(tb, t, m, ws[0], tail);
      }
      if !i.Fail? {
        BlockMeans(tb, i.table, Means(tb.fields, t.ceiling, m, ws[0]).memory, ws[1..]);
      }
    }
  }

  // --- the last inserted comes first ---

  /** Literals with incremental indexing, names spelled out, each string coded either way. */
  predicate Inserting(ws: seq<Wire>, fs: seq<Field>) {
    && |ws| == |fs|
    && forall i :: 0 <= i < |ws| ==>
         && ws[i].Literal? && ws[i].form.Indexing? && ws[i].name.Spelled?
         && ws[i].name.text.octets == fs[i].name && ws[i].value.octets == fs[i].value
  }

  function Received(fs: seq<Field>): (hs: seq<Header>)
    ensures |hs| == |fs|
  {
    seq(|fs|, i requires 0 <= i < |fs| => Header(fs[i].name, fs[i].value, false))
  }

  lemma {:induction false} WeightAppend(a: seq<Field>, b: seq<Field>)
    ensures Weight(a + b) == Weight(a) + Weight(b)
  {
    if a == [] {
      assert a + b == b;
    } else {
      assert (a + b)[1..] == a[1..] + b;
      WeightAppend(a[1..], b);
    }
  }

  lemma OneInserted(fields: seq<Field>, ceiling: nat, m: Memory, w: Wire, f: Field)
    requires Inserting([w], [f]) && Weight(m.added + [f]) <= m.limit
    ensures Means(fields, ceiling, m, w) == Said(Header(f.name, f.value, false), m.(added := m.added + [f]))
  {
    assert [w][0] == w && [f][0] == f;
  }

  lemma OneLast(fields: seq<Field>, ceiling: nat, m: Memory, last: Wire, k: nat)
    requires last == Indexed(|fields| + 1 + k) || (last.Literal? && last.name == Named(|fields| + 1 + k))
    ensures Tell(fields, ceiling, m, [last]).headers
         == if k >= |m.added| then Err(H2Error(CompressionError, InvalidIndex))
            else var f := m.added[|m.added| - 1 - k];
              Ok([Header(f.name, if last.Literal? then last.value.octets else f.value, false)])
  {
    hide Newest;
    assert [last][1..] == [] && [last][0] == last;
    var r := Means(fields, ceiling, m, last);
    if r.Said? {
      assert Tell(fields, ceiling, r.memory, []).headers == Ok([]);
      assert [r.header] + [] == [r.header];
    }
  }

  lemma {:induction false} TellInserted(
    fields: seq<Field>, ceiling: nat, m: Memory, ws: seq<Wire>, fs: seq<Field>, last: Wire)
    requires Inserting(ws, fs) && Weight(m.added + fs) <= m.limit
    ensures var s, e := Tell(fields, ceiling, m, ws + [last]), Tell(fields, ceiling, m.(added := m.added + fs), [last]);
            s.headers == if e.headers.Ok? then Ok(Received(fs) + e.headers.value) else e.headers
    decreases |ws|
  {
    if ws == [] {
      assert ws + [last] == [last] && m.added + fs == m.added;
      var e := Tell(fields, ceiling, m, [last]).headers;
      assert e.Ok? ==> Received(fs) + e.value == e.value;
    } else {
      var m' := m.(added := m.added + [fs[0]]);
      assert (ws + [last])[1..] == ws[1..] + [last];
      assert m'.added + fs[1..] == m.added + fs;
      WeightAppend(m'.added, fs[1..]);
      assert Weight(m'.added) <= m.limit;
      TellInserted(fields, ceiling, m', ws[1..], fs[1..], last);
      var h, e := Header(fs[0].name, fs[0].value, false), Tell(fields, ceiling, m'.(added := m.added + fs), [last]);
      OneInserted(fields, ceiling, m, ws[0], fs[0]);
      hide Means, Newest, Weight;
      assert Received(fs) == [h] + Received(fs[1..]);
      if e.headers.Ok? {
        assert [h] + (Received(fs[1..]) + e.headers.value) == Received(fs) + e.headers.value;
      }
    }
  }

  /**
   * After literals with incremental indexing of f0..fn that fit the limit, the index after the
   * static table's plus k names the k-th most recently inserted, as a whole field or as the name
   * of a literal of any form; an index past the run is an error.
   */
  lemma NewestFirst(tb: Tables, t: Table, ws: seq<Wire>, fs: seq<Field>, last: Wire, k: nat)
    requires tb.Good() && t.entries == [] && Inserting(ws, fs) && Weight(fs) <= t.limit
    requires forall w :: w in ws + [last] ==> WireFits(tb, w)
    requires last == Indexed(|tb.fields| + 1 + k) || (last.Literal? && last.name == Named(|tb.fields| + 1 + k))
    ensures DecodeBlock(tb, t, AllOctets(tb, ws + [last])).headers
         == if k >= |fs| then Err(H2Error(CompressionError, InvalidIndex))
            else var f := fs[|fs| - 1 - k];
              Ok(Received(fs) + [Header(f.name, if last.Literal? then last.value.octets else f.value, false)])
  {
    hide WireFits, DecodeBlock, Tell, AllOctets, Weight, Inserting;
    var m := Memory([], t.limit);
    BlockMeans(tb, t, m, ws + [last]);
    assert m.added + fs == fs;
    TellInserted(tb.fields, t.ceiling, m, ws, fs, last);
    OneLast(tb.fields, t.ceiling, m.(added := fs), last, k);
  }

  // --- the octets themselves ---

  /** Section 6, for small indexes and short strings without Huffman coding. */
  lemma ShortForms(tb: Tables, form: Form, index: nat, name: bytes, value: bytes)
    requires tb.Sized() && |name| < 127 && |value| < 127
    ensures index < 127 ==> WireOctets(tb, Indexed(index)) == [0x80 + index]
    ensures index < 31 ==> WireOctets(tb, SizeUpdate(index)) == [0x20 + index]
    ensures var pattern := match form case Indexing => 0x40 case NotIndexing => 0x00 case NeverIndexing => 0x10;
            && WireOctets(tb, Literal(form, Spelled(Text(name, false)), Text(value, false))) == [pattern, |name|] + name + [|value|] + value
            && (index < 15 ==> WireOctets(tb, Literal(form, Named(index), Text(value, false))) == [pattern + index, |value|] + value)
  {
    PrefixSizes();
  }

  lemma Alone(tb: Tables, t: Table, m: Memory, w: Wire)
    requires tb.Good() && Remembers(t, m) && WireFits(tb, w) && Means(tb.fields, t.ceiling, m, w).Said?
    ensures var r := Means(tb.fields, t.ceiling, m, w);
            DecodeBlock(tb, t, WireOctets(tb, w)).headers == Ok([r.header])
            && Remembers(DecodeBlock(tb, t, WireOctets(tb, w)).table, r.memory)
  {
    hide DecodeBlock, WireOctets, Means, WireFits, Remembers;
    assert [w][0] == w && [w][1..] == [] && AllOctets(tb, [w]) == WireOctets(tb, w) + [];
    assert WireOctets(tb, w) + [] == WireOctets(tb, w);
    BlockMeans(tb, t, m, [w]);
    var r := Means(tb.fields, t.ceiling, m, w);
    assert Tell(tb.fields, t.ceiling, r.memory, []) == Story(Ok([]), r.memory);
    assert [r.header] + [] == [r.header];
  }

  /** The pattern bits of section 6.2. */
  function Pattern(form: Form): (b: byte) {
    match form case Indexing => 0x40 case NotIndexing => 0x00 case NeverIndexing => 0x10
  }

  /**
   * Any short literal alone, in octets: it is the field, and it is inserted into an empty table
   * exactly if it says so and fits. Sections C.2.1 and C.2.3 of RFC 7541 are two of them.
   */
  lemma LiteralAlone(tb: Tables, t: Table, form: Form, name: bytes, value: bytes)
    requires tb.Good() && |name| < 127 && |value| < 127 && t.entries == []
    ensures var d := DecodeBlock(tb, t, [Pattern(form), |name|] + name + [|value|] + value);
            && d.headers == Ok([Header(name, value, false)])
            && d.table.entries == if form.Indexing? && |name| + |value| + 32 <= t.limit then [Field(name, value)] else []
  {
    var w := Literal(form, Spelled(Text(name, false)), Text(value, false));
    var m := Memory([], t.limit);
    ShortForms(tb, form, 0, name, value);
    assert WireFits(tb, w) by { ShortFits(tb, w); }
    assert m.added + [Field(name, value)] == [Field(name, value)];
    OneNewest(Field(name, value), t.limit);
    hide WireOctets, DecodeBlock, WireFits, Newest;
    Alone(tb, t, m, w);
  }

  lemma ShortFits(tb: Tables, w: Wire)
    requires tb.Sized() && w.Literal? && w.name.Spelled? && !w.name.text.huffman && !w.value.huffman
    requires |w.name.text.octets| < 127 && |w.value.octets| < 127
    ensures WireFits(tb, w)
  {
  }

  lemma OneNewest(f: Field, limit: nat)
    ensures Newest([f], limit) == if |f.name| + |f.value| + 32 <= limit then [f] else []
  {
    assert [f][1..] == [];
  }

  /** The static table by number, from 1: 0x82 is the second field of Appendix A, as in section C.2.4. */
  lemma StaticByNumber(tb: Tables, t: Table, index: nat)
    requires tb.Good() && 1 <= index <= |tb.fields|
    ensures DecodeBlock(tb, t, [0x80 + index])
         == Decoded(Ok([Header(tb.fields[index - 1].name, tb.fields[index - 1].value, false)]), t)
  {
    PrefixSizes();
    var f := tb.fields[index - 1];
    assert DecodeInteger([0x80 + index], 7) == Got(index, []);
    hide DecodeInteger;
    assert DecodeInstruction(tb, t, [0x80 + index]) == Emit(Header(f.name, f.value, false), t, []);
    hide DecodeInstruction;
    assert DecodeBlock(tb, t, []) == Decoded(Ok([]), t);
    assert [Header(f.name, f.value, false)] + [] == [Header(f.name, f.value, false)];
  }

  // --- what our encoder writes ---

  /**
   * A field of the static table is written as its number alone. Any other is a literal that no
   * one inserts, and the bit that forbids indexing for good is set exactly if the field asks for it.
   */
  lemma FormWritten(tb: Tables, h: Header)
    requires tb.Good()
    ensures var b, f := EncodeHeader(tb, h), Field(Lower(h.name), h.value);
            if f in tb.fields then |b| == 1 && 1 <= b[0] - 0x80 <= |tb.fields| && tb.fields[b[0] - 0x81] == f
            else b[0] / 16 == if h.neverIndex then 1 else 0
  {
    PrefixSizes();
    var f := Field(Lower(h.name), h.value);
    var pair := LastPair(tb.fields, PairKey(f), |tb.fields|);
    if f in tb.fields {
      var i :| 0 <= i < |tb.fields| && tb.fields[i] == f;
      assert PairKey(tb.fields[i]) == PairKey(f);
      assert pair.Some?;
      PairKeyUnambiguous(tb.fields[pair.value - 1], f);
      assert EncodeInteger(pair.value, 7, 0x80) == [0x80 + pair.value];
    } else {
      if pair.Some? {
        PairKeyUnambiguous(tb.fields[pair.value - 1], f);
        assert false;
      }
    }
  }

  /** A field as the decoder gives it back: the value untouched, capitals of the name moved by 32. */
  predicate ArrivesAs(h: Header, g: Header) {
    && g.value == h.value && |g.name| == |h.name|
    && forall j :: 0 <= j < |h.name| ==> g.name[j] == if 65 <= h.name[j] <= 90 then h.name[j] + 32 else h.name[j]
  }

  lemma {:induction false} LoweredArrives(hs: seq<Header>)
    ensures forall i :: 0 <= i < |hs| ==> ArrivesAs(hs[i], Lowered(hs)[i])
  {
    if hs != [] {
      LoweredArrives(hs[1..]);
      forall i | 0 <= i < |hs|
        ensures ArrivesAs(hs[i], Lowered(hs)[i])
      {
        if i > 0 {
          assert hs[i] == hs[1..][i - 1] && Lowered(hs)[i] == Lowered(hs[1..])[i - 1];
        }
      }
    }
  }

  /** A header list whose strings fit arrives field by field, in order. */
  lemma FieldsArrive(tb: Tables, t: Table, hs: seq<Header>)
    requires tb.Good() && forall i :: 0 <= i < |hs| ==> Fits(tb, hs[i])
    ensures var d := DecodeBlock(tb, t, EncodeHeaders(tb, hs));
            && d.table == t && d.headers.Ok? && |d.headers.value| == |hs|
            && forall i :: 0 <= i < |hs| ==> ArrivesAs(hs[i], d.headers.value[i])
  {
    HpackRoundTrip(tb, t, hs);
    LoweredArrives(hs);
  }
}
