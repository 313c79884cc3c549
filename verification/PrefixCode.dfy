/**
 * Prefix codes and the binary trie that decodes them. Everything here holds of any
 * code table that is prefix-free and complete; module Huffman supplies the table.
 */
module PrefixCode {
  import opened Common

  type Bits = seq<bool>

  function Ones(n: nat): (b: Bits)
    ensures |b| == n
  {
    seq(n, i => true)
  }

  ghost predicate PrefixFree(codes: seq<Bits>) {
    forall i, j :: 0 <= i < |codes| && 0 <= j < |codes| && codes[i] <= codes[j] ==> i == j
  }

  /** Some code word starts with `p`. */
  ghost predicate Starts(codes: seq<Bits>, p: Bits) {
    exists s :: 0 <= s < |codes| && p <= codes[s]
  }

  /** Wherever a code word goes on after `p`, code words go on in both directions. */
  ghost predicate Complete(codes: seq<Bits>) {
    forall s, p: Bits, b ::
      0 <= s < |codes| && p < codes[s] ==> Starts(codes, p + [b])
  }

  /** A code with an end-of-string word of at least eight one bits. */
  ghost predicate Codec(codes: seq<Bits>, eos: nat) {
    && PrefixFree(codes) && Complete(codes)
    && |codes| >= 2 && eos < |codes|
    && |codes[eos]| >= 8 && codes[eos] == Ones(|codes[eos]|)
  }

  // --- the trie ---

  datatype Trie = Node(zero: Option<Trie>, one: Option<Trie>, symbol: Option<nat>)

  const EMPTY := Node(None, None, None)

  function Child(t: Trie, b: bool): (c: Option<Trie>) {
    if b then t.one else t.zero
  }

  function Insert(t: Trie, code: Bits, sym: nat): (r: Trie)
    decreases |code|
  {
    if code == [] then t.(symbol := Some(sym))
    else
      var child := match Child(t, code[0]) { case Some(c) => c case None => EMPTY };
      var grown := Insert(child, code[1..], sym);
      if code[0] then t.(one := Some(grown)) else t.(zero := Some(grown))
  }

  function Find(t: Trie, path: Bits): (r: Option<Trie>)
    decreases |path|
  {
    if path == [] then Some(t)
    else match Child(t, path[0])
      case Some(c) => Find(c, path[1..])
      case None => None
  }

  lemma {:induction false} FindInsert(t: Trie, code: Bits, sym: nat, path: Bits)
    ensures var before, after := Find(t, path), Find(Insert(t, code, sym), path);
            && (after.Some? <==> before.Some? || path <= code)
            && (after.Some? ==> after.value.symbol ==
                                if path == code then Some(sym) else if before.Some? then before.value.symbol else None)
    decreases |code|
  {
    if code == [] || path == [] {
      if path != [] {
        assert Find(Insert(t, code, sym), path) == Find(t, path);
      }
    } else if path[0] == code[0] {
      var child := match Child(t, code[0]) { case Some(c) => c case None => EMPTY };
      FindInsert(child, code[1..], sym, path[1..]);
      assert path <= code <==> path[1..] <= code[1..];
      assert path == code <==> path[1..] == code[1..];
      if Child(t, code[0]).None? && path[1..] != [] {
        assert Find(EMPTY, path[1..]) == None;
      }
    }
  }

  lemma {:induction false} FindAppend(t: Trie, p: Bits, b: bool)
    ensures Find(t, p + [b]) == if Find(t, p).Some? then Child(Find(t, p).value, b) else None
    decreases |p|
  {
    if p == [] {
      assert p + [b] == [b];
      assert [b][1..] == [];
    } else {
      assert (p + [b])[1..] == p[1..] + [b];
      if Child(t, p[0]).Some? {
        FindAppend(Child(t, p[0]).value, p[1..], b);
      }
    }
  }

  function Build(codes: seq<Bits>, n: nat): (t: Trie)
    requires n <= |codes|
  {
    if n == 0 then EMPTY else Insert(Build(codes, n - 1), codes[n - 1], n - 1)
  }

  method BuildTrie(codes: seq<Bits>) returns (root: Trie)
    ensures root == Build(codes, |codes|)
  {
    root := EMPTY;
    for sym := 0 to |codes|
      invariant root == Build(codes, sym)
    {
      root := Insert(root, codes[sym], sym);
    }
  }

  /** The nodes of the trie are the starts of code words, and symbols sit at their ends. */
  lemma {:induction false} FindBuild(codes: seq<Bits>, n: nat, path: Bits)
    requires n <= |codes| && PrefixFree(codes)
    ensures var node := Find(Build(codes, n), path);
            && (node.Some? <==> path == [] || exists s :: 0 <= s < n && path <= codes[s])
            && (node.Some? ==> match node.value.symbol
                               case Some(s) => s < n && codes[s] == path
                               case None => forall s :: 0 <= s < n ==> codes[s] != path)
  {
    if n > 0 {
      FindBuild(codes, n - 1, path);
      FindInsert(Build(codes, n - 1), codes[n - 1], n - 1, path);
    }
  }

  function Size(t: Trie): (n: nat)
    ensures n >= 1
  {
    1 + (match t.zero { case Some(c) => Size(c) case None => 0 })
    + (match t.one { case Some(c) => Size(c) case None => 0 })
  }

  lemma {:induction false} FindSize(t: Trie, path: Bits)
    requires Find(t, path).Some?
    ensures Size(Find(t, path).value) + |path| <= Size(t)
    decreases |path|
  {
    if path != [] {
      FindSize(Child(t, path[0]).value, path[1..]);
    }
  }

  // --- walking the trie ---

  function Prepend(xs: seq<nat>, r: Result<seq<nat>>): Result<seq<nat>> {
    match r case Ok(ys) => Ok(xs + ys) case Err(e) => Err(e)
  }

  /**
   * The decoder from one bit on: at `node`, `partial` bits into a symbol, which
   * were all ones or not.
   */
  function Walk(root: Trie, node: Trie, bits: Bits, partial: nat, ones: bool, eos: nat): (r: Result<seq<nat>>)
    decreases |bits|
  {
    if bits == [] then
      if node != root && (partial > 7 || !ones) then Err(H2Error(CompressionError, InvalidHuffmanPadding))
      else Ok([])
    else match Child(node, bits[0])
      case None => Err(H2Error(CompressionError, InvalidHuffmanCode))
      case Some(next) =>
        match next.symbol
        case None => Walk(root, next, bits[1..], partial + 1, ones && bits[0], eos)
        case Some(s) =>
          if s == eos then Err(H2Error(CompressionError, EosInHuffman))
          else Prepend([s], Walk(root, root, bits[1..], 0, true, eos))
  }

  /** The decoder after reading `p`, a proper start of some code word. */
  ghost function WalkFrom(codes: seq<Bits>, p: Bits, bits: Bits, eos: nat): (r: Result<seq<nat>>)
    requires Codec(codes, eos) && Within(codes, p)
  {
    var root := Build(codes, |codes|);
    FindBuild(codes, |codes|, p);
    Walk(root, Find(root, p).value, bits, |p|, p == Ones(|p|), eos)
  }

  ghost predicate Within(codes: seq<Bits>, p: Bits) {
    exists s :: 0 <= s < |codes| && p < codes[s]
  }

  lemma RootWithin(codes: seq<Bits>, eos: nat)
    requires Codec(codes, eos)
    ensures Within(codes, [])
  {
    assert [] < codes[eos];
  }

  /** One more bit leads either further into code words or to the end of exactly one. */
  lemma Fork(codes: seq<Bits>, p: Bits, b: bool, eos: nat)
    requires Codec(codes, eos) && Within(codes, p)
    ensures Within(codes, p + [b]) || exists s :: 0 <= s < |codes| && codes[s] == p + [b]
  {
    var t :| 0 <= t < |codes| && p < codes[t];
    assert Starts(codes, p + [b]);
    var s :| 0 <= s < |codes| && p + [b] <= codes[s];
  }

  lemma WordEnds(codes: seq<Bits>, s: nat, eos: nat)
    requires Codec(codes, eos) && s < |codes|
    ensures !Within(codes, codes[s])
  {
    forall t | 0 <= t < |codes|
      ensures !(codes[s] < codes[t])
    {
      assert codes[s] <= codes[t] ==> s == t;
    }
  }

  lemma WalkInside(codes: seq<Bits>, p: Bits, bits: Bits, eos: nat)
    requires Codec(codes, eos) && bits != [] && Within(codes, p) && Within(codes, p + [bits[0]])
    ensures WalkFrom(codes, p, bits, eos) == WalkFrom(codes, p + [bits[0]], bits[1..], eos)
  {
    var q := p + [bits[0]];
    var root := Build(codes, |codes|);
    FindBuild(codes, |codes|, p);
    FindAppend(root, p, bits[0]);
    FindBuild(codes, |codes|, q);
    OnesSnoc(p, bits[0]);
    var next := Find(root, q).value;
    if next.symbol.Some? {
      WordEnds(codes, next.symbol.value, eos);
    }
  }

  lemma WalkEnd(codes: seq<Bits>, p: Bits, bits: Bits, s: nat, eos: nat)
    requires Codec(codes, eos) && bits != [] && Within(codes, p) && s < |codes| && codes[s] == p + [bits[0]]
    ensures Within(codes, [])
    ensures WalkFrom(codes, p, bits, eos)
         == if s == eos then Err(H2Error(CompressionError, EosInHuffman))
            else Prepend([s], WalkFrom(codes, [], bits[1..], eos))
  {
    var root := Build(codes, |codes|);
    FindBuild(codes, |codes|, p);
    FindAppend(root, p, bits[0]);
    FindBuild(codes, |codes|, codes[s]);
    RootWithin(codes, eos);
    assert Find(root, []) == Some(root);
    assert [] == Ones(0);
    var next := Find(root, codes[s]).value;
    assert next.symbol.Some?;
    var t := next.symbol.value;
    assert codes[t] <= codes[s];
  }

  lemma OnesSnoc(p: Bits, b: bool)
    ensures p + [b] == Ones(|p| + 1) <==> p == Ones(|p|) && b
  {
    if p + [b] == Ones(|p| + 1) {
      assert p == (p + [b])[..|p|];
      assert (p + [b])[|p|];
    }
  }

  function Encode(codes: seq<Bits>, xs: seq<nat>): (bits: Bits)
    requires forall i :: 0 <= i < |xs| ==> xs[i] < |codes|
  {
    if xs == [] then [] else codes[xs[0]] + Encode(codes, xs[1..])
  }

  lemma {:induction false} EncodeSnoc(codes: seq<Bits>, xs: seq<nat>, x: nat)
    requires x < |codes| && forall i :: 0 <= i < |xs| ==> xs[i] < |codes|
    ensures Encode(codes, xs + [x]) == Encode(codes, xs) + codes[x]
  {
    if xs == [] {
      assert xs + [x] == [x];
      assert Encode(codes, [x]) == codes[x] + Encode(codes, []);
    } else {
      assert (xs + [x])[1..] == xs[1..] + [x];
      EncodeSnoc(codes, xs[1..], x);
    }
  }

  /** The symbols a decoder may emit: code words of the table other than EOS. */
  predicate Symbols(codes: seq<Bits>, eos: nat, xs: seq<nat>) {
    forall i :: 0 <= i < |xs| ==> xs[i] < |codes| && xs[i] != eos
  }

  predicate Padding(pad: Bits) {
    |pad| <= 7 && pad == Ones(|pad|)
  }

  lemma {:induction false} WalkWord(codes: seq<Bits>, p: Bits, s: nat, rest: Bits, eos: nat)
    requires Codec(codes, eos) && s < |codes| && p < codes[s]
    ensures Within(codes, p) && Within(codes, [])
    ensures WalkFrom(codes, p, codes[s][|p|..] + rest, eos)
         == if s == eos then Err(H2Error(CompressionError, EosInHuffman))
            else Prepend([s], WalkFrom(codes, [], rest, eos))
    decreases |codes[s]| - |p|
  {
    RootWithin(codes, eos);
    var bits := codes[s][|p|..] + rest;
    var q := p + [bits[0]];
    assert q <= codes[s];
    if q == codes[s] {
      assert bits[1..] == rest;
      WalkEnd(codes, p, bits, s, eos);
    } else {
      assert bits[1..] == codes[s][|q|..] + rest;
      WalkInside(codes, p, bits, eos);
      WalkWord(codes, q, s, rest, eos);
    }
  }

  lemma {:induction false} WalkPadding(codes: seq<Bits>, p: Bits, pad: Bits, eos: nat)
    requires Codec(codes, eos) && Padding(p + pad)
    ensures Within(codes, p) && WalkFrom(codes, p, pad, eos) == Ok([])
    decreases |pad|
  {
    assert p + pad < codes[eos];
    assert p == (p + pad)[..|p|] == Ones(|p|);
    assert p < codes[eos];
    if pad != [] {
      var q := p + [pad[0]];
      assert q + pad[1..] == p + pad;
      WalkPadding(codes, q, pad[1..], eos);
      WalkInside(codes, p, pad, eos);
    }
  }

  /** Every encoded text, padded with at most seven ones, decodes to itself. */
  lemma {:induction false} WalkEncoded(codes: seq<Bits>, xs: seq<nat>, pad: Bits, eos: nat)
    requires Codec(codes, eos) && Symbols(codes, eos, xs) && Padding(pad)
    ensures Within(codes, []) && WalkFrom(codes, [], Encode(codes, xs) + pad, eos) == Ok(xs)
  {
    RootWithin(codes, eos);
    if xs == [] {
      assert [] + pad == pad;
      WalkPadding(codes, [], pad, eos);
    } else {
      var s := xs[0];
      NotEmpty(codes, s, eos);
      assert Encode(codes, xs) + pad == codes[s][0..] + (Encode(codes, xs[1..]) + pad);
      WalkWord(codes, [], s, Encode(codes, xs[1..]) + pad, eos);
      WalkEncoded(codes, xs[1..], pad, eos);
      assert xs == [s] + xs[1..];
    }
  }

  lemma NotEmpty(codes: seq<Bits>, s: nat, eos: nat)
    requires Codec(codes, eos) && s < |codes|
    ensures codes[s] != []
  {
    var t := if s == 0 then 1 else 0;
    assert !(codes[s] <= codes[t]);
  }

  /** Whatever decodes is an encoded text with such padding, and no bit is ever off the code. */
  lemma {:induction false} WalkSound(codes: seq<Bits>, p: Bits, bits: Bits, eos: nat) returns (pad: Bits)
    requires Codec(codes, eos) && Within(codes, p)
    ensures var r := WalkFrom(codes, p, bits, eos);
            && (r.Ok? ==> && Symbols(codes, eos, r.value) && Padding(pad)
                          && p + bits == Encode(codes, r.value) + pad)
            && (r.Err? ==> r.error.reason != InvalidHuffmanCode)
    decreases |bits|
  {
    if bits == [] {
      pad := p;
      WalkDone(codes, p, eos);
      assert p + bits == Encode(codes, []) + pad;
    } else {
      var q := p + [bits[0]];
      assert p + bits == q + bits[1..];
      if Within(codes, q) {
        WalkInside(codes, p, bits, eos);
        pad := WalkSound(codes, q, bits[1..], eos);
      } else {
        Fork(codes, p, bits[0], eos);
        var s :| 0 <= s < |codes| && codes[s] == q;
        WalkEnd(codes, p, bits, s, eos);
        pad := WalkSound(codes, [], bits[1..], eos);
        var tail := WalkFrom(codes, [], bits[1..], eos);
        if s != eos && tail.Ok? {
          assert [] + bits[1..] == bits[1..];
          EncodeCons(codes, s, tail.value);
        }
      }
    }
  }

  lemma WalkDone(codes: seq<Bits>, p: Bits, eos: nat)
    requires Codec(codes, eos) && Within(codes, p)
    ensures WalkFrom(codes, p, [], eos) == if Padding(p) then Ok([]) else Err(H2Error(CompressionError, InvalidHuffmanPadding))
  {
    var root := Build(codes, |codes|);
    FindBuild(codes, |codes|, p);
    FindSize(root, p);
    if p == [] {
      assert p == Ones(0);
    }
  }

  lemma EncodeCons(codes: seq<Bits>, s: nat, xs: seq<nat>)
    requires s < |codes| && forall i :: 0 <= i < |xs| ==> xs[i] < |codes|
    ensures Encode(codes, [s] + xs) == codes[s] + Encode(codes, xs)
  {
    assert ([s] + xs)[1..] == xs;
  }
}
