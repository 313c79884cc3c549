/** The Huffman encoder and decoder as the source runs them: loops over bytes and bits. */
module HuffmanLoops {
  import opened Common
  import opened PrefixCode
  import opened Tiling
  import opened HuffmanTable
  import opened Huffman

  // --- shifts and masks ---

  /** `b | 0x80 >> j` */
  function SetBit(b: byte, j: nat): (r: byte)
    requires j < 8
    ensures BitsOf(r, 8) == BitsOf(b, 8)[j := true]
  {
    SetBitAdds(b, j);
    if BitAt(b, 7 - j) then b else b + Pow2(7 - j)
  }

  lemma {:induction false} ShiftBit(v: nat, n: nat, i: nat)
    requires i < n
    ensures BitsOf(v, n)[n - 1 - i] == BitAt(v, i)
  {
    if i == 0 {
      assert Pow2(0) == 1;
    } else {
      ShiftBit(v / 2, n - 1, i - 1);
      var p := Pow2(i - 1);
      assert v / 2 / p == v / (2 * p) by {
        HalfThenDivide(v, p);
      }
    }
  }

  lemma {:induction false} ValSet(b: Bits, j: nat)
    requires j < |b| && !b[j]
    ensures Val(b[j := true]) == Val(b) + Pow2(|b| - 1 - j)
  {
    var c := b[j := true];
    var n := |b| - 1;
    if j == n {
      assert c[..n] == b[..n];
      assert Pow2(0) == 1;
    } else {
      assert c[..n] == b[..n][j := true];
      ValSet(b[..n], j);
    }
  }

  lemma SetBitAdds(b: byte, j: nat)
    requires j < 8
    ensures BitsOf(b, 8)[j] == BitAt(b, 7 - j)
    ensures BitsOf(b, 8)[j] ==> BitsOf(b, 8)[j := true] == BitsOf(b, 8)
    ensures !BitsOf(b, 8)[j] ==> b + Pow2(7 - j) < 256 && BitsOf(b + Pow2(7 - j), 8) == BitsOf(b, 8)[j := true]
  {
    var bits := BitsOf(b, 8);
    ShiftBit(b, 8, 7 - j);
    assert Pow2(8) == 256;
    ValBits(b, 8);
    if !bits[j] {
      ValSet(bits, j);
      BitsVal(bits[j := true]);
    }
  }

  lemma {:induction false} UnpackUpdate(y: bytes, i: nat, v: byte)
    requires i < |y|
    ensures Unpack(y[i := v]) == Unpack(y)[..8 * i] + BitsOf(v, 8) + Unpack(y)[8 * i + 8..]
  {
    if i == 0 {
      assert y[0 := v][1..] == y[1..];
      assert Unpack(y)[8..] == Unpack(y[1..]);
    } else {
      assert y[i := v][1..] == y[1..][i - 1 := v];
      UnpackUpdate(y[1..], i - 1, v);
    }
  }

  lemma {:induction false} UnpackAt(y: bytes, i: nat)
    requires i < |y|
    ensures Unpack(y)[8 * i..8 * i + 8] == BitsOf(y[i], 8)
  {
    if i > 0 {
      UnpackAt(y[1..], i - 1);
      assert Unpack(y)[8 * i..8 * i + 8] == Unpack(y[1..])[8 * (i - 1)..8 * (i - 1) + 8];
    }
  }

  /** Setting one bit of one byte sets that bit of the whole string. */
  lemma UnpackSet(y: bytes, pos: nat)
    requires pos < 8 * |y|
    ensures Unpack(y[pos / 8 := SetBit(y[pos / 8], pos % 8)]) == Unpack(y)[pos := true]
  {
    var i, j := pos / 8, pos % 8;
    UnpackUpdate(y, i, SetBit(y[i], j));
    UnpackAt(y, i);
    SpliceSet(Unpack(y), 8 * i, j);
  }

  lemma SpliceSet(bits: Bits, from: nat, j: nat)
    requires from + 8 <= |bits| && j < 8
    ensures bits[..from] + bits[from..from + 8][j := true] + bits[from + 8..] == bits[from + j := true]
  {
  }

  // --- encoding ---

  /** The bits written so far, then zeros up to the end of the array. */
  ghost predicate Filled(y: bytes, done: Bits) {
    |done| <= 8 * |y| && Unpack(y) == done + Zeros(8 * |y| - |done|)
  }

  method PutBit(out: array<byte>, pos: nat, bit: bool, ghost done: Bits)
    requires Filled(out[..], done) && pos == |done| < 8 * out.Length
    modifies out
    ensures Filled(out[..], done + [bit])
  {
    ghost var y := out[..];
    if bit {
      UnpackSet(y, pos);
      out[pos / 8] := SetBit(out[pos / 8], pos % 8);
      assert out[..] == y[pos / 8 := SetBit(y[pos / 8], pos % 8)];
    }
    assert Zeros(8 * |y| - pos)[1..] == Zeros(8 * |y| - pos - 1);
    assert Unpack(out[..]) == done + [bit] + Zeros(8 * |y| - pos - 1);
  }

  lemma {:induction false} UnpackZeros(y: bytes)
    requires forall i :: 0 <= i < |y| ==> y[i] == 0
    ensures Unpack(y) == Zeros(8 * |y|)
  {
    if y != [] {
      UnpackZeros(y[1..]);
      ZeroBits(8);
    }
  }

  lemma {:induction false} ZeroBits(n: nat)
    ensures BitsOf(0, n) == Zeros(n)
  {
    if n > 0 {
      ZeroBits(n - 1);
    }
  }

  lemma {:induction false} TextPrefix(codes: seq<Bits>, x: bytes, k: nat)
    requires |codes| == SYMBOLS && k <= |x|
    ensures |Encode(codes, x[..k])| <= |Encode(codes, x)|
  {
    if k > 0 {
      assert x[..k][1..] == x[1..][..k - 1];
      TextPrefix(codes, x[1..], k - 1);
    }
  }

  lemma TextSnoc(codes: seq<Bits>, x: bytes, k: nat)
    requires |codes| == SYMBOLS && k < |x|
    ensures Encode(codes, x[..k + 1]) == Encode(codes, x[..k]) + codes[x[k]]
    ensures |Encode(codes, x[..k + 1])| <= |Encode(codes, x)|
  {
    assert x[..k + 1] == x[..k] + [x[k]];
    EncodeSnoc(codes, x[..k], x[k]);
    TextPrefix(codes, x, k + 1);
  }

  method EncodeHuffman(words: seq<Entry>, input: bytes) returns (out: array<byte>)
    requires |words| == SYMBOLS
    ensures fresh(out) && out[..] == EncodeWith(Codes(words), input)
  {
    var totalBits := BitLength(words, input);
    out := new byte[(totalBits + 7) / 8](_ => 0);
    Untouched(out[..]);
    ghost var text := PutText(out, words, input);
    ghost var done := PadOut(out, totalBits, text);
    Finished(out[..], text);
  }

  lemma Untouched(y: bytes)
    requires forall i :: 0 <= i < |y| ==> y[i] == 0
    ensures Filled(y, [])
  {
    UnpackZeros(y);
    assert [] + Zeros(8 * |y|) == Zeros(8 * |y|);
  }

  lemma Finished(y: bytes, text: Bits)
    requires |y| == (|text| + 7) / 8 && Filled(y, Padded(text))
    ensures y == Pack(Padded(text))
  {
    assert |Padded(text)| == 8 * |y|;
    assert Unpack(y) == Padded(text);
    PackUnpack(y);
  }

  method PutText(out: array<byte>, words: seq<Entry>, input: bytes) returns (ghost done: Bits)
    requires |words| == SYMBOLS && Filled(out[..], [])
    requires |Encode(Codes(words), input)| <= 8 * out.Length
    modifies out
    ensures done == Encode(Codes(words), input) && Filled(out[..], done)
  {
    var bitPos := 0;
    done := [];
    assert input[..0] == [];
    for k := 0 to |input|
      invariant bitPos == |done| && done == Encode(Codes(words), input[..k])
      invariant Filled(out[..], done)
    {
      TextSnoc(Codes(words), input, k);
      bitPos, done := PutCode(out, words[input[k]], bitPos, done);
    }
    assert input[..|input|] == input;
  }

  /** Pad the remainder of the last byte with ones. */
  method PadOut(out: array<byte>, start: nat, ghost text: Bits) returns (ghost done: Bits)
    requires Filled(out[..], text) && start == |text| && out.Length == (|text| + 7) / 8
    modifies out
    ensures done == Padded(text) && Filled(out[..], done)
  {
    done := text;
    var bitPos := start;
    while bitPos % 8 != 0
      invariant |text| <= bitPos == |done| <= 8 * out.Length
      invariant done == text + Ones(bitPos - |text|)
      invariant Filled(out[..], done)
      decreases 8 * out.Length - bitPos
    {
      PutBit(out, bitPos, true, done);
      done := done + [true];
      OnesSnoc(Ones(bitPos - |text|), true);
      bitPos := bitPos + 1;
    }
  }

  method PutCode(out: array<byte>, word: Entry, start: nat, ghost before: Bits) returns (bitPos: nat, ghost done: Bits)
    requires Filled(out[..], before) && start == |before| && start + word.bits <= 8 * out.Length
    modifies out
    ensures done == before + BitsOf(word.code, word.bits) && bitPos == |done|
    ensures Filled(out[..], done)
  {
    ghost var bits := BitsOf(word.code, word.bits);
    bitPos, done := start, before;
    var i := word.bits;
    assert bits[..0] == [];
    while i > 0
      invariant 0 <= i <= word.bits
      invariant bitPos == |done| == start + word.bits - i && done == before + bits[..word.bits - i]
      invariant Filled(out[..], done)
    {
      i := i - 1;
      ShiftBit(word.code, word.bits, i);
      PutBit(out, bitPos, BitAt(word.code, i), done);
      done := done + [BitAt(word.code, i)];
      assert bits[..word.bits - i] == bits[..word.bits - i - 1] + [bits[word.bits - 1 - i]];
      bitPos := bitPos + 1;
    }
    assert bits[..word.bits] == bits;
  }

  // --- decoding ---

  lemma PrependPrepend(xs: seq<nat>, ys: seq<nat>, r: Result<seq<nat>>)
    ensures Prepend(xs, Prepend(ys, r)) == Prepend(xs + ys, r)
  {
    if r.Ok? {
      assert xs + (ys + r.value) == xs + ys + r.value;
    }
  }

  lemma NextBit(b: byte, bit: nat, tail: Bits)
    requires bit < 8
    ensures var rest := BitsOf(b, 8)[7 - bit..] + tail;
            rest[0] == BitAt(b, bit) && rest[1..] == BitsOf(b, 8)[8 - bit..] + tail
  {
    ShiftBit(b, 8, bit);
  }

  lemma PrependNone(r: Result<seq<nat>>)
    ensures Prepend([], r) == r
  {
    if r.Ok? {
      assert [] + r.value == r.value;
    }
  }

  method DecodeHuffman(codes: seq<Bits>, input: bytes) returns (r: Result<bytes>)
    ensures r == DecodeWith(codes, input)
  {
    var root := BuildTrie(codes);
    var symbols := WalkBytes(root, input);
    r := match symbols case Ok(xs) => Ok(ToBytes(xs)) case Err(e) => Err(e);
  }

  method WalkBytes(root: Trie, input: bytes) returns (r: Result<seq<nat>>)
    ensures r == Walk(root, root, Unpack(input), 0, true, EOS)
  {
    var out: seq<nat> := [];
    var node := root;
    var partialBits := 0;
    var partialAllOnes := true;
    ghost var all := Walk(root, root, Unpack(input), 0, true, EOS);
    ghost var rest := Unpack(input);
    assert input[0..] == input;
    PrependNone(all);
    for k := 0 to |input|
      invariant rest == Unpack(input[k..])
      invariant all == Prepend(out, Walk(root, node, rest, partialBits, partialAllOnes, EOS))
    {
      var byte := input[k];
      assert input[k..][1..] == input[k + 1..];
      var bit := 8;
      while bit > 0
        invariant 0 <= bit <= 8
        invariant rest == BitsOf(byte, 8)[8 - bit..] + Unpack(input[k + 1..])
        invariant all == Prepend(out, Walk(root, node, rest, partialBits, partialAllOnes, EOS))
      {
        bit := bit - 1;
        var b := BitAt(byte, bit);
        NextBit(byte, bit, Unpack(input[k + 1..]));
        rest := rest[1..];
        if !b {
          partialAllOnes := false;
        }
        match Child(node, b) {
          case None =>
            return Err(H2Error(CompressionError, InvalidHuffmanCode));
          case Some(n) =>
            node := n;
        }
        partialBits := partialBits + 1;
        if node.symbol.Some? {
          var sym := node.symbol.value;
          if sym == EOS {
            return Err(H2Error(CompressionError, EosInHuffman));
          }
          PrependPrepend(out, [sym], Walk(root, root, rest, 0, true, EOS));
          out := out + [sym];
          node := root;
          partialBits := 0;
          partialAllOnes := true;
        }
      }
    }
    if node != root && (partialBits > 7 || !partialAllOnes) {
      return Err(H2Error(CompressionError, InvalidHuffmanPadding));
    }
    assert out + [] == out;
    return Ok(out);
  }

  // --- the octets of a Huffman string ---

  /** The bit of `y` at this place, the most significant of an octet first. */
  predicate BitIn(y: bytes, pos: nat)
    requires pos < 8 * |y|
  {
    y[pos / 8] / Pow2(7 - pos % 8) % 2 == 1
  }

  lemma UnpackBit(y: bytes, pos: nat)
    requires pos < 8 * |y|
    ensures Unpack(y)[pos] == BitIn(y, pos)
  {
    hide Unpack, BitsOf, Pow2;
    var i, j := pos / 8, pos % 8;
    UnpackAt(y, i);
    ShiftBit(y[i], 8, 7 - j);
    assert Unpack(y)[pos] == Unpack(y)[8 * i..8 * i + 8][j];
  }

  lemma {:induction false} TextSplit(codes: seq<Bits>, a: bytes, b: bytes)
    requires |codes| == SYMBOLS
    ensures Encode(codes, a + b) == Encode(codes, a) + Encode(codes, b)
  {
    if a == [] {
      assert a + b == b;
    } else {
      assert (a + b)[1..] == a[1..] + b;
      TextSplit(codes, a[1..], b);
    }
  }

  /**
   * Section 5.2: after the words of what precedes it, every octet has its code word, most
   * significant bit first.
   */
  lemma HuffmanOctets(before: bytes, s: byte, after: bytes, j: nat)
    requires j < Code(s).bits
    ensures var y, start := HuffmanEncode(before + [s] + after), BitLength(Words(), before);
            start + j < 8 * |y| && BitIn(y, start + j) == BitAt(Code(s).code, Code(s).bits - 1 - j)
  {
    hide Code, BitAt, BitIn, Pack, Unpack, BitsOf, Encode;
    var x, codes := before + [s] + after, CodeWords();
    var bits := Encode(codes, x);
    UnpackPack(Padded(bits));
    TextSplit(codes, before + [s], after);
    TextSplit(codes, before, [s]);
    OneWord(codes, s);
    var start := |Encode(codes, before)|;
    assert bits == Encode(codes, before) + codes[s] + Encode(codes, after);
    assert Padded(bits)[start + j] == codes[s][j];
    UnpackBit(HuffmanEncode(x), start + j);
    ShiftBit(Code(s).code, Code(s).bits, Code(s).bits - 1 - j);
  }

  lemma OneWord(codes: seq<Bits>, s: byte)
    requires |codes| == SYMBOLS
    ensures Encode(codes, [s]) == codes[s]
  {
    assert [s][1..] == [] && Encode(codes, [s]) == codes[s] + [];
  }

  /** And the last octet is filled up with ones. */
  lemma HuffmanPadding(x: bytes, pos: nat)
    ensures |HuffmanEncode(x)| == (BitLength(Words(), x) + 7) / 8
    ensures BitLength(Words(), x) <= pos < 8 * |HuffmanEncode(x)| ==> BitIn(HuffmanEncode(x), pos)
  {
    hide BitIn, Pack, Unpack, Encode;
    var bits := Encode(CodeWords(), x);
    UnpackPack(Padded(bits));
    if |bits| <= pos < 8 * |HuffmanEncode(x)| {
      UnpackBit(HuffmanEncode(x), pos);
    }
  }
}
