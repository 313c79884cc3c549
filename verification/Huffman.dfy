/**
 * HPACK Huffman strings, section 5.2 of RFC 7541: bit packing, the trie decoder,
 * and the proof that the two are inverse to each other.
 */
module Huffman {
  import opened Common
  import opened PrefixCode
  import opened Tiling
  import opened HuffmanTable

  function Words(): (w: seq<Entry>)
    ensures |w| == SYMBOLS
  {
    seq(SYMBOLS, s requires 0 <= s < SYMBOLS => Code(s))
  }

  function CodeWords(): (codes: seq<Bits>)
    ensures |codes| == SYMBOLS
  {
    Codes(Words())
  }

  // --- the concrete table ---

  lemma Meet(e: Entry, f: Entry, width: nat)
    requires 0 <= f.bits - e.bits <= 4 && f.bits <= width
    requires f.code == Widen(e.code + 1, f.bits - e.bits)
    ensures Right(e, width) == Left(f, width)
  {
    var d, p := f.bits - e.bits, Pow2(width - f.bits);
    assert Pow2(0) == 1 && Pow2(1) == 2 && Pow2(2) == 4 && Pow2(3) == 8 && Pow2(4) == 16;
    Pow2Add(width - f.bits, d);
    var c := e.code + 1;
    assert Widen(c, d) == c * Pow2(d);
    assert c * Pow2(d) * p == c * (p * Pow2(d));
  }

  lemma {:induction false} ShortEnough(k: nat)
    requires k < SYMBOLS
    ensures Sorted(k) < SYMBOLS && Code(Sorted(k)).bits <= 30
    decreases SYMBOLS - k
  {
    if k < 256 {
      EachLinked(k);
      ShortEnough(k + 1);
    }
  }

  /** Appendix B of RFC 7541 tiles the 30-bit numbers. */
  lemma TableTiles() returns (order: seq<nat>)
    ensures Tiles(Words(), order, 30)
  {
    order := seq(SYMBOLS, k requires 0 <= k < SYMBOLS => Sorted(k));
    forall k | 0 <= k < |order|
      ensures order[k] < |Words()| && Words()[order[k]].bits <= 30
    {
      ShortEnough(k);
    }
    forall k | 0 <= k < |order| - 1
      ensures Right(Words()[order[k]], 30) == Left(Words()[order[k + 1]], 30)
    {
      EachLinked(k);
      ShortEnough(k + 1);
      var s, t :| Adjacent(k, s, t);
      Meet(Code(s), Code(t), 30);
    }
    TableEnds();
  }

  lemma TableEnds()
    ensures Sorted(0) == 48 && Code(48) == Entry(0, 5)
    ensures Sorted(256) < SYMBOLS && Code(Sorted(256)) == Entry(0x3fffffff, 30)
    ensures Right(Entry(0x3fffffff, 30), 30) == Pow2(30)
  {
    assert Pow2(10) == 1024;
    Pow2Add(10, 10);
    Pow2Add(20, 10);
  }

  lemma {:induction false} AllOnes(n: nat)
    ensures BitsOf(Pow2(n) - 1, n) == Ones(n)
  {
    if n > 0 {
      AllOnes(n - 1);
      assert (Pow2(n) - 1) / 2 == Pow2(n - 1) - 1;
    }
  }

  lemma EosWord()
    ensures CodeWords()[EOS] == Ones(30)
  {
    assert Code(EOS) == Entry(0x3fffffff, 30);
    assert Pow2(10) == 1024;
    Pow2Add(10, 10);
    Pow2Add(20, 10);
    AllOnes(30);
  }

  /** A table for this codec: 256 byte values and an end-of-string word of ones. */
  ghost predicate Suits(codes: seq<Bits>) {
    |codes| == SYMBOLS && Codec(codes, EOS)
  }

  /** The table of Appendix B is a prefix-free and complete code whose EOS is thirty ones. */
  lemma HuffmanCodec()
    ensures Suits(CodeWords())
  {
    var order := TableTiles();
    TilesPrefixFree(Words(), order, 30);
    TilesComplete(Words(), order, 30);
    EosWord();
  }

  // --- bits in bytes ---

  function Unpack(b: bytes): (bits: Bits)
    ensures |bits| == 8 * |b|
  {
    if b == [] then [] else BitsOf(b[0], 8) + Unpack(b[1..])
  }

  function Pack(bits: Bits): (b: bytes)
    requires |bits| % 8 == 0
    ensures 8 * |b| == |bits|
  {
    if bits == [] then []
    else
      ValBound(bits[..8]);
      assert Pow2(8) == 256;
      [Val(bits[..8])] + Pack(bits[8..])
  }

  lemma BitsVal(b: Bits)
    ensures Val(b) < Pow2(|b|) && BitsOf(Val(b), |b|) == b
  {
    ValBound(b);
    ValBits(Val(b), |b|);
    ValInjective(BitsOf(Val(b), |b|), b);
  }

  lemma {:induction false} UnpackPack(bits: Bits)
    requires |bits| % 8 == 0
    ensures Unpack(Pack(bits)) == bits
  {
    if bits != [] {
      BitsVal(bits[..8]);
      UnpackPack(bits[8..]);
      assert Pack(bits)[1..] == Pack(bits[8..]);
      assert bits == bits[..8] + bits[8..];
    }
  }

  lemma {:induction false} PackUnpack(b: bytes)
    ensures Pack(Unpack(b)) == b
  {
    if b != [] {
      assert Pow2(8) == 256;
      ValBits(b[0], 8);
      PackUnpack(b[1..]);
      assert Unpack(b)[..8] == BitsOf(b[0], 8);
      assert Unpack(b)[8..] == Unpack(b[1..]);
    }
  }

  lemma {:induction false} UnpackAppend(a: bytes, b: bytes)
    ensures Unpack(a + b) == Unpack(a) + Unpack(b)
  {
    if a == [] {
      assert a + b == b;
    } else {
      assert (a + b)[1..] == a[1..] + b;
      UnpackAppend(a[1..], b);
    }
  }

  // --- encoding ---

  function PadLength(n: nat): (p: nat)
    ensures p <= 7 && (n + p) % 8 == 0
  {
    (8 - n % 8) % 8
  }

  function Padded(bits: Bits): (r: Bits)
    ensures |r| % 8 == 0
  {
    bits + Ones(PadLength(|bits|))
  }

  function EncodeWith(codes: seq<Bits>, x: bytes): (y: bytes)
    requires |codes| == SYMBOLS
  {
    Pack(Padded(Encode(codes, x)))
  }

  function HuffmanEncode(x: bytes): (y: bytes) {
    EncodeWith(CodeWords(), x)
  }

  function BitLength(words: seq<Entry>, x: bytes): (n: nat)
    requires |words| == SYMBOLS
    ensures n == |Encode(Codes(words), x)|
  {
    if x == [] then 0 else words[x[0]].bits + BitLength(words, x[1..])
  }

  /** Whether the Huffman form of `x` is shorter than `x`. */
  predicate Shorter(words: seq<Entry>, x: bytes)
    requires |words| == SYMBOLS
  {
    (BitLength(words, x) + 7) / 8 < |x|
  }

  /** The test for the shorter form agrees with what the encoder writes. */
  lemma EncodedLength(words: seq<Entry>, x: bytes)
    requires |words| == SYMBOLS
    ensures Shorter(words, x) <==> |EncodeWith(Codes(words), x)| < |x|
  {
    var bits := Encode(Codes(words), x);
    assert 8 * |EncodeWith(Codes(words), x)| == |bits| + PadLength(|bits|);
  }

  // --- decoding ---

  function ToBytes(xs: seq<nat>): (b: bytes)
    ensures |b| == |xs|
  {
    seq(|xs|, i requires 0 <= i < |xs| => xs[i] % 256)
  }

  function DecodeWith(codes: seq<Bits>, y: bytes): (r: Result<bytes>) {
    var root := Build(codes, |codes|);
    match Walk(root, root, Unpack(y), 0, true, EOS)
    case Ok(xs) => Ok(ToBytes(xs))
    case Err(e) => Err(e)
  }

  function HuffmanDecode(y: bytes): (r: Result<bytes>) {
    DecodeWith(CodeWords(), y)
  }

  /** The decoder's run over a bit string, from the root. */
  ghost function Run(codes: seq<Bits>, bits: Bits): (r: Result<seq<nat>>)
    requires Suits(codes)
  {
    RootWithin(codes, EOS);
    WalkFrom(codes, [], bits, EOS)
  }

  lemma DecodeIsRun(codes: seq<Bits>, y: bytes)
    requires Suits(codes)
    ensures DecodeWith(codes, y) == match Run(codes, Unpack(y)) case Ok(xs) => Ok(ToBytes(xs)) case Err(e) => Err(e)
  {
    assert [] == Ones(0);
  }

  lemma RunEncoded(codes: seq<Bits>, x: seq<nat>, pad: Bits)
    requires Suits(codes) && Symbols(codes, EOS, x) && Padding(pad)
    ensures Run(codes, Encode(codes, x) + pad) == Ok(x)
  {
    WalkEncoded(codes, x, pad, EOS);
  }

  lemma RunSound(codes: seq<Bits>, bits: Bits)
    requires Suits(codes) && |bits| % 8 == 0
    ensures var r := Run(codes, bits);
            && (r.Ok? ==> Symbols(codes, EOS, r.value) && bits == Padded(Encode(codes, r.value)))
            && (r.Err? ==> r.error.reason != InvalidHuffmanCode)
  {
    RootWithin(codes, EOS);
    var pad := WalkSound(codes, [], bits, EOS);
    assert [] + bits == bits;
    var r := Run(codes, bits);
    if r.Ok? {
      PadUnique(Encode(codes, r.value), pad);
    }
  }

  lemma PadUnique(text: Bits, pad: Bits)
    requires Padding(pad) && |text + pad| % 8 == 0
    ensures text + pad == Padded(text)
  {
  }

  lemma BytesAreSymbols(codes: seq<Bits>, x: bytes)
    requires |codes| == SYMBOLS
    ensures Symbols(codes, EOS, x) && ToBytes(x) == x
  {
  }

  /** decode(encode(x)) == x for every byte string, with any suitable table. */
  lemma DecodeEncode(codes: seq<Bits>, x: bytes)
    requires Suits(codes)
    ensures DecodeWith(codes, EncodeWith(codes, x)) == Ok(x)
  {
    DecodeIsRun(codes, EncodeWith(codes, x));
    var bits := Encode(codes, x);
    UnpackPack(Padded(bits));
    BytesAreSymbols(codes, x);
    RunEncoded(codes, x, Ones(PadLength(|bits|)));
  }

  /**
   * Whenever y decodes, it is the encoding of what it decodes to; and no input
   * whatever takes the "invalid Huffman code" branch.
   */
  lemma EncodeDecode(codes: seq<Bits>, y: bytes)
    requires Suits(codes)
    ensures var r := DecodeWith(codes, y);
            && (r.Ok? ==> EncodeWith(codes, r.value) == y)
            && (r.Err? ==> r.error.reason != InvalidHuffmanCode)
  {
    DecodeIsRun(codes, y);
    RunSound(codes, Unpack(y));
    var r := Run(codes, Unpack(y));
    if r.Ok? {
      assert ToBytes(r.value) == r.value;
      PackUnpack(y);
    }
  }

  /** The decoder accepts exactly the encoder's outputs, each for one text. */
  lemma HuffmanBijection(x: bytes, y: bytes)
    ensures HuffmanDecode(y) == Ok(x) <==> HuffmanEncode(x) == y
    ensures HuffmanDecode(y).Err? ==> HuffmanDecode(y).error.reason != InvalidHuffmanCode
  {
    HuffmanCodec();
    EncodeDecode(CodeWords(), y);
    DecodeEncode(CodeWords(), x);
  }
}
