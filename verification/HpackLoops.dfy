/** The HPACK encoder and decoder as the source runs them, over a writer and a reader. */
module HpackLoops {
  import opened Common
  import opened Bytes
  import opened HpackInteger
  import opened Tiling
  import opened HuffmanLoops
  import opened Huffman
  import opened StaticTable
  import opened DynamicTable
  import opened Hpack

  method WriteString(tb: Tables, w: ByteWriter, s: bytes)
    requires tb.Sized()
    modifies w
    ensures w.buf == old(w.buf) + EncodeString(tb, s)
  {
    PrefixSizes();
    if Shorter(tb.words, s) {
      var encoded := EncodeHuffman(tb.words, s);
      WriteInteger(w, encoded.Length, 7, 0x80);
      w.PutBytes(encoded[..]);
    } else {
      WriteInteger(w, |s|, 7, 0x00);
      w.PutBytes(s);
    }
  }

  method ReadString(tb: Tables, r: ByteReader) returns (out: Result<bytes>)
    requires r.Valid()
    modifies r
    ensures r.Valid()
    ensures match DecodeString(tb, old(r.Left()))
            case Got(s, rest) => out == Ok(s) && r.Left() == rest
            case Bad(e) => out == Err(e)
  {
    var left := r.Remaining();
    if left == 0 {
      return Err(H2Error(CompressionError, TruncatedString));
    }
    var first := r.Peek();
    var length := ReadInteger(r, 7);
    if length.Err? {
      return Err(length.error);
    }
    left := r.Remaining();
    if length.value > left {
      return Err(H2Error(CompressionError, StringExceedsBlock));
    }
    var raw := r.Take(length.value);
    if first >= 128 {
      out := DecodeHuffman(Codes(tb.words), raw.value);
    } else {
      out := Ok(raw.value);
    }
  }

  method Encode(tb: Tables, headers: seq<Header>) returns (block: bytes)
    requires tb.Sized()
    ensures block == EncodeHeaders(tb, headers)
  {
    hide EncodeHeader, IndexesNames, IndexesPairs;
    var nameToIndex, pairToIndex := BuildMaps(tb.fields);
    var w := new ByteWriter();
    assert headers[0..] == headers;
    for i := 0 to |headers|
      invariant w.buf + EncodeHeaders(tb, headers[i..]) == EncodeHeaders(tb, headers)
    {
      HeadersAt(tb, headers, i);
      EncodeOne(tb, nameToIndex, pairToIndex, w, headers[i]);
    }
    block := w.buf;
  }

  lemma HeadersAt(tb: Tables, headers: seq<Header>, i: nat)
    requires tb.Sized() && i < |headers|
    ensures EncodeHeaders(tb, headers[i..]) == EncodeHeader(tb, headers[i]) + EncodeHeaders(tb, headers[i + 1..])
  {
    assert headers[i..][1..] == headers[i + 1..];
  }

  method EncodeOne(tb: Tables, nameToIndex: map<bytes, nat>, pairToIndex: map<bytes, nat>, w: ByteWriter, h: Header)
    requires tb.Sized()
    requires IndexesNames(tb.fields, |tb.fields|, nameToIndex) && IndexesPairs(tb.fields, |tb.fields|, pairToIndex)
    modifies w
    ensures w.buf == old(w.buf) + EncodeHeader(tb, h)
  {
    hide EncodeInteger, EncodeName, EncodeString, IndexesNames, LastPair;
    PrefixSizes();
    var name := Lower(h.name);
    var key := PairKey(Field(name, h.value));
    if key in pairToIndex {
      WriteInteger(w, pairToIndex[key], 7, 0x80);
    } else {
      WriteName(tb, nameToIndex, w, name, if h.neverIndex then 0x10 else 0x00);
      WriteString(tb, w, h.value);
    }
  }

  method WriteName(tb: Tables, nameToIndex: map<bytes, nat>, w: ByteWriter, name: bytes, flags: nat)
    requires tb.Sized() && FlagsFit(flags, 4)
    requires IndexesNames(tb.fields, |tb.fields|, nameToIndex)
    modifies w
    ensures w.buf == old(w.buf) + EncodeName(tb, name, flags)
  {
    hide EncodeInteger, EncodeString, FirstName;
    if name in nameToIndex {
      WriteInteger(w, nameToIndex[name], 4, flags);
    } else {
      WriteInteger(w, 0, 4, flags);
      WriteString(tb, w, name);
    }
  }

  /** One decoder per connection: the inbound compression context. */
  class HpackDecoder {
    const tb: Tables
    var dynamic: seq<Field>
    var size: nat
    var maxSize: nat
    var protocolMax: nat

    /** `size` is kept equal to the sum of the entry sizes and never exceeds the limits. */
    ghost predicate Valid()
      reads this
    {
      size == TableSize(dynamic) && size <= maxSize <= protocolMax
    }

    ghost function View(): (t: Table)
      reads this
    {
      Table(dynamic, maxSize, protocolMax)
    }

    constructor (tb: Tables, maxSize: nat)
      ensures Valid() && this.tb == tb && View() == Table([], maxSize, maxSize)
    {
      this.tb := tb;
      dynamic, size := [], 0;
      this.maxSize, protocolMax := maxSize, maxSize;
    }

    method EntryAt(index: nat) returns (r: Result<Field>)
      requires index >= 1
      ensures r == Hpack.EntryAt(tb, View(), index)
    {
      if 1 <= index <= |tb.fields| {
        return Ok(tb.fields[index - 1]);
      }
      var di: nat := index - |tb.fields| - 1;
      if di < |dynamic| {
        return Ok(dynamic[di]);
      }
      return Err(H2Error(CompressionError, InvalidIndex));
    }

    /** Pop from the end; subtracting the popped size cannot underflow. */
    method EvictTo(limit: nat)
      requires size == TableSize(dynamic)
      modifies this`dynamic, this`size
      ensures size == TableSize(dynamic) && dynamic == Evict(old(dynamic), limit)
    {
      while size > limit && dynamic != []
        invariant size == TableSize(dynamic)
        invariant Evict(dynamic, limit) == Evict(old(dynamic), limit)
        decreases |dynamic|
      {
        var removed := dynamic[|dynamic| - 1];
        dynamic := dynamic[..|dynamic| - 1];
        assert EntrySize(removed) <= size;
        size := size - EntrySize(removed);
      }
    }

    method Insert(f: Field)
      requires Valid()
      modifies this`dynamic, this`size
      ensures Valid() && View() == Inserted(old(View()), f)
    {
      var entrySize := EntrySize(f);
      InsertLongest(View(), f);
      if entrySize <= maxSize {
        EvictTo(maxSize - entrySize);
        SizeCons(f, dynamic);
        dynamic := [f] + dynamic;
        size := size + entrySize;
      } else {
        dynamic := [];
        size := 0;
      }
    }

    method ApplyMaxSize(newSize: nat) returns (r: Result<()>)
      requires size == TableSize(dynamic)
      modifies this
      ensures size == TableSize(dynamic)
      ensures if newSize > protocolMax then r == Err(H2Error(CompressionError, TableUpdateTooLarge)) && View() == old(View())
              else r == Ok(()) && View() == Resized(old(View()), newSize) && Valid()
    {
      if newSize > protocolMax {
        return Err(H2Error(CompressionError, TableUpdateTooLarge));
      }
      ResizeLongest(View(), newSize);
      maxSize := newSize;
      EvictTo(newSize);
      return Ok(());
    }

    /** The ceiling follows our SETTINGS; the table shrinks with it, and never fails to. */
    method SetProtocolMaxSize(n: nat)
      requires Valid()
      modifies this
      ensures Valid() && protocolMax == n && maxSize == Min(old(maxSize), n)
      ensures LongestFit(dynamic, old(dynamic), n)
    {
      EvictLongest(dynamic, n);
      protocolMax := n;
      if maxSize > n {
        var _ := ApplyMaxSize(n);
      }
    }

    method ReadName(r: ByteReader, n: nat) returns (out: Result<bytes>)
      requires r.Valid() && r.Left() != [] && 1 <= n <= 7
      modifies r
      ensures r.Valid()
      ensures match DecodeName(tb, View(), old(r.Left()), n)
              case Got(name, rest) => out == Ok(name) && r.Left() == rest
              case Bad(e) => out == Err(e)
    {
      var index := ReadInteger(r, n);
      if index.Err? {
        return Err(index.error);
      }
      if index.value == 0 {
        out := ReadString(tb, r);
      } else {
        var f := EntryAt(index.value);
        out := match f case Ok(e) => Ok(e.name) case Err(e) => Err(e);
      }
    }

    method ReadLiteral(r: ByteReader, n: nat) returns (out: Result<Field>)
      requires r.Valid() && r.Left() != [] && 1 <= n <= 7
      modifies r
      ensures r.Valid()
      ensures match DecodeLiteral(tb, View(), old(r.Left()), n, false)
              case Emit(h, _, rest) => out == Ok(Field(h.name, h.value)) && r.Left() == rest
              case Fail(e) => out == Err(e)
              case Resize(_, _) => false
    {
      var name := ReadName(r, n);
      if name.Err? {
        return Err(name.error);
      }
      var value := ReadString(tb, r);
      if value.Err? {
        return Err(value.error);
      }
      return Ok(Field(name.value, value.value));
    }

    method Step(r: ByteReader) returns (out: Result<Option<Header>>)
      requires Valid() && r.Valid() && r.Left() != [] && r as object != this
      modifies this, r
      ensures Valid() && r.Valid()
      ensures match DecodeInstruction(tb, old(View()), old(r.Left()))
              case Fail(e) => out == Err(e) && View() == old(View())
              case Resize(t, rest) => out == Ok(None) && View() == t && r.Left() == rest
              case Emit(h, t, rest) => out == Ok(Some(h)) && View() == t && r.Left() == rest
    {
      var first := r.Peek();
      if first >= 128 {
        var index := ReadInteger(r, 7);
        if index.Err? {
          return Err(index.error);
        }
        if index.value == 0 {
          return Err(H2Error(CompressionError, IndexZero));
        }
        var f := EntryAt(index.value);
        if f.Err? {
          return Err(f.error);
        }
        return Ok(Some(Header(f.value.name, f.value.value, false)));
      } else if 32 <= first < 64 {
        var newSize := ReadInteger(r, 5);
        if newSize.Err? {
          return Err(newSize.error);
        }
        var done := ApplyMaxSize(newSize.value);
        if done.Err? {
          return Err(done.error);
        }
        return Ok(None);
      } else {
        var f := ReadLiteral(r, if first >= 64 then 6 else 4);
        if f.Err? {
          return Err(f.error);
        }
        if first >= 64 {
          Insert(f.value);
        }
        return Ok(Some(Header(f.value.name, f.value.value, false)));
      }
    }

    method Decode(block: bytes) returns (out: Result<seq<Header>>)
      requires Valid()
      modifies this
      ensures Valid() && Decoded(out, View()) == DecodeBlock(tb, old(View()), block)
    {
      var r := new ByteReader(block);
      var headers := [];
      ghost var all := DecodeBlock(tb, View(), block);
      PrefixedNone(all);
      assert r.Left() == block;
      while true
        invariant Valid() && r.Valid() && fresh(r)
        invariant all == Prefixed(headers, DecodeBlock(tb, View(), r.Left()))
        decreases |r.Left()|
      {
        var left := r.Remaining();
        if left == 0 {
          break;
        }
        ghost var before := r.Left();
        ghost var t := View();
        var step := Step(r);
        if step.Err? {
          return Err(step.error);
        }
        if step.value.Some? {
          PrefixedTwice(headers, [step.value.value], DecodeBlock(tb, View(), r.Left()));
          headers := headers + [step.value.value];
        }
      }
      assert headers + [] == headers;
      return Ok(headers);
    }
  }

  lemma PrefixedNone(d: Decoded)
    ensures Prefixed([], d) == d
  {
    if d.headers.Ok? {
      assert [] + d.headers.value == d.headers.value;
    }
  }

  lemma PrefixedTwice(a: seq<Header>, b: seq<Header>, d: Decoded)
    ensures Prefixed(a, Prefixed(b, d)) == Prefixed(a + b, d)
  {
    if d.headers.Ok? {
      assert a + (b + d.headers.value) == a + b + d.headers.value;
    }
  }
}
