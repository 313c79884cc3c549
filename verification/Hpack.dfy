/** HPACK strings, header fields and header blocks, RFC 7541. */
module Hpack {
  import opened Common
  import opened Bytes
  import opened HpackInteger
  import opened HuffmanTable
  import opened Tiling
  import opened Huffman
  import opened StaticTable
  import opened DynamicTable

  datatype Header = Header(name: bytes, value: bytes, neverIndex: bool)

  /** The two constant tables of the RFC: the Huffman code words and the static fields. */
  datatype Tables = Tables(words: seq<Entry>, fields: seq<Field>) {
    predicate Sized() {
      |words| == SYMBOLS && |fields| <= STATIC_LENGTH
    }

    ghost predicate Good() {
      |words| == SYMBOLS && Suits(Codes(words)) && Plain(fields)
    }
  }

  function Standard(): (tb: Tables) {
    Tables(Words(), StaticFields())
  }

  lemma StandardGood()
    ensures Standard().Good() && |Standard().fields| == STATIC_LENGTH
  {
    HuffmanCodec();
    StaticTablePlain();
  }

  // --- strings, section 5.2 ---

  /** The octets of a string: its Huffman form if that is shorter. */
  function Octets(tb: Tables, s: bytes): (b: bytes)
    requires tb.Sized()
  {
    if Shorter(tb.words, s) then EncodeWith(Codes(tb.words), s) else s
  }

  function EncodeString(tb: Tables, s: bytes): (b: bytes)
    requires tb.Sized()
    ensures |b| >= 1
  {
    PrefixSizes();
    EncodeInteger(|Octets(tb, s)|, 7, if Shorter(tb.words, s) then 0x80 else 0x00) + Octets(tb, s)
  }

  function DecodeString(tb: Tables, input: bytes): (r: Parsed<bytes>)
    ensures r.Got? ==> |r.rest| < |input|
  {
    if input == [] then Bad(H2Error(CompressionError, TruncatedString))
    else match DecodeInteger(input, 7)
      case Bad(e) => Bad(e)
      case Got(length, rest) =>
        if length > |rest| then Bad(H2Error(CompressionError, StringExceedsBlock))
        else if input[0] >= 128 then
          match DecodeWith(Codes(tb.words), rest[..length])
          case Err(e) => Bad(e)
          case Ok(s) => Got(s, rest[length..])
        else Got(rest[..length], rest[length..])
  }

  /** The length of the string's octets is within the decoder's integer range. */
  ghost predicate StringFits(tb: Tables, s: bytes)
    requires tb.Sized()
  {
    |Octets(tb, s)| < Bound(7)
  }

  /** A string comes back, its own bytes consumed, exactly when its octets fit. */
  lemma StringRoundTrip(tb: Tables, s: bytes, tail: bytes)
    requires tb.Good()
    ensures DecodeString(tb, EncodeString(tb, s) + tail)
         == if StringFits(tb, s) then Got(s, tail) else Bad(H2Error(CompressionError, IntegerOverflow))
  {
    hide DecodeInteger, EncodeInteger, DecodeWith, EncodeWith, Shorter, Bound;
    PrefixSizes();
    var flags := if Shorter(tb.words, s) then 0x80 else 0;
    var raw := Octets(tb, s);
    var length := EncodeInteger(|raw|, 7, flags);
    var input := EncodeString(tb, s) + tail;
    assert input == length + (raw + tail);
    IntegerRoundTrip(|raw|, 7, flags, raw + tail);
    assert input[0] == length[0];
    assert (raw + tail)[..|raw|] == raw && (raw + tail)[|raw|..] == tail;
    DecodeEncode(Codes(tb.words), s);
  }

  // --- header fields, section 6 ---

  /** ASCII lower case. */
  function Lower(s: bytes): (r: bytes)
    ensures |r| == |s|
  {
    seq(|s|, i requires 0 <= i < |s| => if 65 <= s[i] <= 90 then s[i] + 32 else s[i])
  }

  /** The name part of a literal: an index into the static table, or zero and a string. */
  function EncodeName(tb: Tables, name: bytes, flags: nat): (b: bytes)
    requires tb.Sized() && FlagsFit(flags, 4)
    ensures |b| >= 1 && (flags <= 16 ==> b[0] < 32)
  {
    PrefixSizes();
    match FirstName(tb.fields, name, |tb.fields|)
    case Some(index) => EncodeInteger(index, 4, flags)
    case None => EncodeInteger(0, 4, flags) + EncodeString(tb, name)
  }

  ghost predicate NameFits(tb: Tables, name: bytes)
    requires tb.Sized()
  {
    FirstName(tb.fields, name, |tb.fields|).None? ==> StringFits(tb, name)
  }

  function EncodeHeader(tb: Tables, h: Header): (b: bytes)
    requires tb.Sized()
    ensures |b| >= 1
  {
    PrefixSizes();
    var name := Lower(h.name);
    match LastPair(tb.fields, PairKey(Field(name, h.value)), |tb.fields|)
    case Some(index) => EncodeInteger(index, 7, 0x80)
    case None =>
      EncodeName(tb, name, if h.neverIndex then 0x10 else 0x00) + EncodeString(tb, h.value)
  }

  function EncodeHeaders(tb: Tables, hs: seq<Header>): (b: bytes)
    requires tb.Sized()
  {
    if hs == [] then [] else EncodeHeader(tb, hs[0]) + EncodeHeaders(tb, hs[1..])
  }

  function EntryAt(tb: Tables, t: Table, index: nat): (r: Result<Field>)
    requires index >= 1
  {
    if index <= |tb.fields| then Ok(tb.fields[index - 1])
    else if index - |tb.fields| - 1 < |t.entries| then Ok(t.entries[index - |tb.fields| - 1])
    else Err(H2Error(CompressionError, InvalidIndex))
  }

  /** One instruction of a header block: a field, a size update, or an error. */
  datatype Instruction =
    | Emit(header: Header, table: Table, rest: bytes)
    | Resize(table: Table, rest: bytes)
    | Fail(error: H2Error)

  function DecodeIndexed(tb: Tables, t: Table, input: bytes): (r: Instruction)
    requires input != []
    ensures !r.Fail? ==> |r.rest| < |input|
  {
    match DecodeInteger(input, 7)
    case Bad(e) => Fail(e)
    case Got(index, rest) =>
      if index == 0 then Fail(H2Error(CompressionError, IndexZero))
      else match EntryAt(tb, t, index)
        case Err(e) => Fail(e)
        case Ok(f) => Emit(Header(f.name, f.value, false), t, rest)
  }

  function DecodeName(tb: Tables, t: Table, input: bytes, n: nat): (r: Parsed<bytes>)
    requires input != [] && 1 <= n <= 7
    ensures r.Got? ==> |r.rest| < |input|
  {
    match DecodeInteger(input, n)
    case Bad(e) => Bad(e)
    case Got(index, rest) =>
      if index == 0 then DecodeString(tb, rest)
      else match EntryAt(tb, t, index)
        case Err(e) => Bad(e)
        case Ok(f) => Got(f.name, rest)
  }

  function DecodeLiteral(tb: Tables, t: Table, input: bytes, n: nat, insert: bool): (r: Instruction)
    requires input != [] && 1 <= n <= 7
    ensures !r.Fail? ==> |r.rest| < |input|
  {
    match DecodeName(tb, t, input, n)
    case Bad(e) => Fail(e)
    case Got(name, rest) =>
      match DecodeString(tb, rest)
      case Bad(e) => Fail(e)
      case Got(value, rest') =>
        Emit(Header(name, value, false), if insert then Inserted(t, Field(name, value)) else t, rest')
  }

  function DecodeResize(t: Table, input: bytes): (r: Instruction)
    requires input != []
    ensures !r.Fail? ==> |r.rest| < |input|
  {
    match DecodeInteger(input, 5)
    case Bad(e) => Fail(e)
    case Got(limit, rest) =>
      if limit > t.ceiling then Fail(H2Error(CompressionError, TableUpdateTooLarge))
      else Resize(Resized(t, limit), rest)
  }

  function DecodeInstruction(tb: Tables, t: Table, input: bytes): (r: Instruction)
    requires input != []
    ensures !r.Fail? ==> |r.rest| < |input|
  {
    var first := input[0]; // tested against 0x80, 0x40 and 0x20 in this order
    if first >= 128 then DecodeIndexed(tb, t, input)
    else if first >= 64 then DecodeLiteral(tb, t, input, 6, true)
    else if first >= 32 then DecodeResize(t, input)
    else DecodeLiteral(tb, t, input, 4, false)
  }

  /** What a block decodes to, and the dynamic table it leaves. */
  datatype Decoded = Decoded(headers: Result<seq<Header>>, table: Table)

  function Prefixed(hs: seq<Header>, d: Decoded): (r: Decoded) {
    match d.headers case Ok(rest) => d.(headers := Ok(hs + rest)) case Err(_) => d
  }

  function DecodeBlock(tb: Tables, t: Table, input: bytes): (d: Decoded)
    decreases |input|
  {
    if input == [] then Decoded(Ok([]), t)
    else match DecodeInstruction(tb, t, input)
      case Fail(e) => Decoded(Err(e), t)
      case Resize(t', rest) => DecodeBlock(tb, t', rest)
      case Emit(h, t', rest) => Prefixed([h], DecodeBlock(tb, t', rest))
  }

  // --- properties ---

  /** The strings of `h` that the encoder writes out fit the integer range. */
  ghost predicate Fits(tb: Tables, h: Header)
    requires tb.Sized()
  {
    var name := Lower(h.name);
    LastPair(tb.fields, PairKey(Field(name, h.value)), |tb.fields|).None? ==>
      NameFits(tb, name) && StringFits(tb, h.value)
  }

  function Lowered(hs: seq<Header>): (r: seq<Header>)
    ensures |r| == |hs|
  {
    if hs == [] then [] else [Header(Lower(hs[0].name), hs[0].value, false)] + Lowered(hs[1..])
  }

  lemma SmallInteger(value: nat, n: nat, flags: nat, tail: bytes)
    requires FlagsFit(flags, n) && value <= STATIC_LENGTH
    ensures DecodeInteger(EncodeInteger(value, n, flags) + tail, n) == Got(value, tail)
  {
    IntegerRoundTrip(value, n, flags, tail);
  }

  lemma NameByIndex(tb: Tables, t: Table, index: nat, flags: nat, tail: bytes)
    requires 1 <= index <= |tb.fields| <= STATIC_LENGTH && FlagsFit(flags, 4)
    ensures DecodeName(tb, t, EncodeInteger(index, 4, flags) + tail, 4) == Got(tb.fields[index - 1].name, tail)
  {
    SmallInteger(index, 4, flags, tail);
  }

  lemma NameInline(tb: Tables, t: Table, flags: nat, rest: bytes)
    requires FlagsFit(flags, 4)
    ensures DecodeName(tb, t, EncodeInteger(0, 4, flags) + rest, 4) == DecodeString(tb, rest)
  {
    SmallInteger(0, 4, flags, rest);
  }

  lemma NameRoundTrip(tb: Tables, t: Table, name: bytes, flags: nat, tail: bytes)
    requires tb.Good() && FlagsFit(flags, 4)
    ensures DecodeName(tb, t, EncodeName(tb, name, flags) + tail, 4)
         == if NameFits(tb, name) then Got(name, tail) else Bad(H2Error(CompressionError, IntegerOverflow))
  {
    hide DecodeName, DecodeString, EncodeString, EncodeInteger, StringFits;
    var found := FirstName(tb.fields, name, |tb.fields|);
    if found.Some? {
      NameByIndex(tb, t, found.value, flags, tail);
    } else {
      var written := EncodeString(tb, name);
      NameInline(tb, t, flags, written + tail);
      assert EncodeName(tb, name, flags) + tail == EncodeInteger(0, 4, flags) + (written + tail);
      StringRoundTrip(tb, name, tail);
    }
  }

  lemma LiteralDispatch(tb: Tables, t: Table, input: bytes)
    requires input != [] && input[0] < 32
    ensures DecodeInstruction(tb, t, input) == DecodeLiteral(tb, t, input, 4, false)
  {
  }

  lemma LiteralRoundTrip(tb: Tables, t: Table, name: bytes, value: bytes, flags: nat, tail: bytes)
    requires tb.Good() && FlagsFit(flags, 4) && flags <= 16
    ensures DecodeInstruction(tb, t, EncodeName(tb, name, flags) + EncodeString(tb, value) + tail)
         == if NameFits(tb, name) && StringFits(tb, value) then Emit(Header(name, value, false), t, tail)
            else Fail(H2Error(CompressionError, IntegerOverflow))
  {
    var input := EncodeName(tb, name, flags) + EncodeString(tb, value) + tail;
    assert input == EncodeName(tb, name, flags) + (EncodeString(tb, value) + tail);
    LiteralDispatch(tb, t, input);
    NameRoundTrip(tb, t, name, flags, EncodeString(tb, value) + tail);
    StringRoundTrip(tb, value, tail);
  }

  lemma HeaderRoundTrip(tb: Tables, t: Table, h: Header, tail: bytes)
    requires tb.Good()
    ensures DecodeInstruction(tb, t, EncodeHeader(tb, h) + tail)
         == if Fits(tb, h) then Emit(Header(Lower(h.name), h.value, false), t, tail)
            else Fail(H2Error(CompressionError, IntegerOverflow))
  {
    var f := Field(Lower(h.name), h.value);
    match LastPair(tb.fields, PairKey(f), |tb.fields|)
    case None =>
      PrefixSizes();
      LiteralRoundTrip(tb, t, f.name, h.value, if h.neverIndex then 0x10 else 0, tail);
    case Some(index) =>
      PrefixSizes();
      PairKeyUnambiguous(tb.fields[index - 1], f);
      SmallInteger(index, 7, 0x80, tail);
      assert (EncodeHeader(tb, h) + tail)[0] == EncodeInteger(index, 7, 0x80)[0];
  }

  /**
   * Exactly when every string fits, the decoder gives back the same fields with names in
   * lower case, from whatever dynamic table it starts, and leaves that table as it was.
   */
  lemma {:induction false} HpackRoundTrip(tb: Tables, t: Table, hs: seq<Header>)
    requires tb.Good()
    ensures DecodeBlock(tb, t, EncodeHeaders(tb, hs))
         == Decoded(if forall i :: 0 <= i < |hs| ==> Fits(tb, hs[i]) then Ok(Lowered(hs))
                    else Err(H2Error(CompressionError, IntegerOverflow)), t)
  {
    if hs != [] {
      HeaderRoundTrip(tb, t, hs[0], EncodeHeaders(tb, hs[1..]));
      HpackRoundTrip(tb, t, hs[1..]);
      if Fits(tb, hs[0]) {
        FitsCons(tb, hs);
      }
    }
  }

  /** What a field needs is part of what it is encoded to. */
  lemma ShortHeaderFits(tb: Tables, h: Header)
    requires tb.Sized() && |EncodeHeader(tb, h)| < Bound(7)
    ensures Fits(tb, h)
  {
    hide EncodeInteger, Octets, Lower, FirstName, LastPair, Bound;
  }

  /** A block shorter than the integer bound has only strings that fit. */
  lemma {:induction false} ShortBlockFits(tb: Tables, hs: seq<Header>)
    requires tb.Sized() && |EncodeHeaders(tb, hs)| < Bound(7)
    ensures forall i :: 0 <= i < |hs| ==> Fits(tb, hs[i])
  {
    hide EncodeHeader, Fits, Bound;
    if hs != [] {
      ShortHeaderFits(tb, hs[0]);
      ShortBlockFits(tb, hs[1..]);
      FitsCons(tb, hs);
    }
  }

  lemma FitsCons(tb: Tables, hs: seq<Header>)
    requires tb.Sized() && hs != [] && Fits(tb, hs[0])
    ensures (forall i :: 0 <= i < |hs| ==> Fits(tb, hs[i])) <==> (forall i :: 0 <= i < |hs[1..]| ==> Fits(tb, hs[1..][i]))
  {
    if forall i :: 0 <= i < |hs[1..]| ==> Fits(tb, hs[1..][i]) {
      forall i | 0 <= i < |hs|
        ensures Fits(tb, hs[i])
      {
        assert i > 0 ==> hs[i] == hs[1..][i - 1];
      }
    }
  }

  /** A literal field without indexing, both strings short and not Huffman coded. */
  function PlainLiteral(name: bytes, value: bytes): (b: bytes)
    requires |name| < 127 && |value| < 127
  {
    [0, |name|] + name + [|value|] + value
  }

  lemma PlainString(tb: Tables, s: bytes, rest: bytes)
    requires |s| < 127
    ensures DecodeString(tb, [|s|] + s + rest) == Got(s, rest)
  {
    var input := [|s|] + s + rest;
    assert input[1..] == s + rest;
    assert DecodeInteger(input, 7) == Got(|s|, s + rest);
    assert (s + rest)[..|s|] == s && (s + rest)[|s|..] == rest;
  }

  lemma PlainLiteralDecodes(tb: Tables, t: Table, name: bytes, value: bytes)
    requires |name| < 127 && |value| < 127
    ensures DecodeBlock(tb, t, PlainLiteral(name, value)) == Decoded(Ok([Header(name, value, false)]), t)
  {
    hide DecodeString;
    var input := PlainLiteral(name, value);
    var rest := [|name|] + name + ([|value|] + value);
    assert input[1..] == rest && [|value|] + value == [|value|] + value + [];
    assert DecodeInteger(input, 4) == Got(0, rest);
    PlainString(tb, name, [|value|] + value);
    PlainString(tb, value, []);
    hide DecodeInteger;
    assert DecodeName(tb, t, input, 4) == Got(name, [|value|] + value);
    assert DecodeInstruction(tb, t, input) == Emit(Header(name, value, false), t, []);
    hide DecodeInstruction;
    assert DecodeBlock(tb, t, []) == Decoded(Ok([]), t);
    assert [Header(name, value, false)] + [] == [Header(name, value, false)];
  }

  /** Every block, well formed or not, leaves the table within its limits. */
  lemma {:induction false} DecodeKeepsValid(tb: Tables, t: Table, input: bytes)
    requires t.Valid()
    ensures DecodeBlock(tb, t, input).table.Valid()
    ensures DecodeBlock(tb, t, input).table.ceiling == t.ceiling
    decreases |input|
  {
    if input != [] {
      var step := DecodeInstruction(tb, t, input);
      if !step.Fail? {
        if step.Emit? {
          InsertLongest(t, Field(step.header.name, step.header.value));
        } else {
          ResizeLongest(t, step.table.limit);
        }
        DecodeKeepsValid(tb, step.table, step.rest);
      }
    }
  }
}
