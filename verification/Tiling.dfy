/**
 * When the code words, aligned left in `width` bits and sorted, tile the numbers
 * below 2^width without gap or overlap, the code is prefix-free and complete.
 * Checking that needs one comparison per neighbour instead of one per pair.
 */
module Tiling {
  import opened Common
  import opened PrefixCode
  import opened HuffmanTable

  // --- bit strings as numbers, most significant bit first ---

  function BitsOf(v: nat, n: nat): (b: Bits)
    ensures |b| == n
  {
    if n == 0 then [] else BitsOf(v / 2, n - 1) + [v % 2 == 1]
  }

  function Val(b: Bits): (v: nat) {
    if b == [] then 0 else 2 * Val(b[..|b| - 1]) + if b[|b| - 1] then 1 else 0
  }

  lemma {:induction false} ValBits(v: nat, n: nat)
    requires v < Pow2(n)
    ensures Val(BitsOf(v, n)) == v
  {
    if n > 0 {
      ValBits(v / 2, n - 1);
      assert BitsOf(v, n)[..n - 1] == BitsOf(v / 2, n - 1);
    }
  }

  lemma {:induction false} ValBound(b: Bits)
    ensures Val(b) < Pow2(|b|)
  {
    if b != [] {
      ValBound(b[..|b| - 1]);
    }
  }

  lemma {:induction false} ValAppend(a: Bits, b: Bits)
    ensures Val(a + b) == Val(a) * Pow2(|b|) + Val(b)
  {
    if b == [] {
      assert a + b == a;
    } else {
      var b' := b[..|b| - 1];
      assert (a + b)[..|a + b| - 1] == a + b';
      ValAppend(a, b');
      var x, p := Val(a), Pow2(|b'|);
      Double(x, p);
      assert Pow2(|b|) == 2 * p && Val(b) == 2 * Val(b') + Val(b[|b'|..]) by { LastBit(b); }
      assert Val(a + b) == 2 * Val(a + b') + Val(b[|b'|..]) by { LastBit(a + b); assert (a + b)[|a + b| - 1..] == b[|b'|..]; }
      hide Val, Pow2;
    }
  }

  lemma LastBit(b: Bits)
    requires b != []
    ensures Val(b) == 2 * Val(b[..|b| - 1]) + Val(b[|b| - 1..]) && Pow2(|b|) == 2 * Pow2(|b| - 1)
  {
    var last := b[|b| - 1..];
    assert last[..|last| - 1] == [];
    assert Val([]) == 0;
  }

  lemma Double(x: nat, p: nat)
    ensures 2 * (x * p) == x * (2 * p)
  {
  }

  lemma {:induction false} ValInjective(a: Bits, b: Bits)
    requires |a| == |b| && Val(a) == Val(b)
    ensures a == b
  {
    if a != [] {
      ValInjective(a[..|a| - 1], b[..|b| - 1]);
      assert a == a[..|a| - 1] + [a[|a| - 1]];
      assert b == b[..|b| - 1] + [b[|b| - 1]];
    }
  }

  function Zeros(n: nat): (b: Bits)
    ensures |b| == n
  {
    seq(n, i => false)
  }

  lemma {:induction false} ValZeros(n: nat)
    ensures Val(Zeros(n)) == 0
  {
    if n > 0 {
      ValZeros(n - 1);
      assert Zeros(n)[..n - 1] == Zeros(n - 1);
    }
  }

  // --- intervals ---

  function Left(e: Entry, width: nat): (v: nat)
    requires e.bits <= width
  {
    e.code * Pow2(width - e.bits)
  }

  function Right(e: Entry, width: nat): (v: nat)
    requires e.bits <= width
  {
    (e.code + 1) * Pow2(width - e.bits)
  }

  ghost predicate Tiles(words: seq<Entry>, order: seq<nat>, width: nat) {
    && |order| == |words| > 0
    && (forall k :: 0 <= k < |order| ==> order[k] < |words| && words[order[k]].bits <= width)
    && Left(words[order[0]], width) == 0
    && (forall k :: 0 <= k < |order| - 1 ==> Right(words[order[k]], width) == Left(words[order[k + 1]], width))
    && Right(words[order[|order| - 1]], width) == Pow2(width)
  }

  function Codes(words: seq<Entry>): (codes: seq<Bits>)
    ensures |codes| == |words|
  {
    seq(|words|, s requires 0 <= s < |words| => BitsOf(words[s].code, words[s].bits))
  }

  lemma Width(e: Entry, width: nat)
    requires e.bits <= width
    ensures Right(e, width) == Left(e, width) + Pow2(width - e.bits)
  {
    assert (e.code + 1) * Pow2(width - e.bits) == e.code * Pow2(width - e.bits) + Pow2(width - e.bits);
  }

  lemma {:induction false} Increasing(words: seq<Entry>, order: seq<nat>, width: nat, i: nat, j: nat)
    requires Tiles(words, order, width) && i < j < |order|
    ensures Right(words[order[i]], width) <= Left(words[order[j]], width)
    decreases j
  {
    if i + 1 < j {
      Increasing(words, order, width, i, j - 1);
      Width(words[order[j - 1]], width);
      assert Right(words[order[j - 1]], width) == Left(words[order[j - 1 + 1]], width);
    }
  }

  /** Every number lies in one of the intervals of rank at most `k` if it is below the end of `k`. */
  lemma {:induction false} Covered(words: seq<Entry>, order: seq<nat>, width: nat, v: nat, k: nat) returns (i: nat)
    requires Tiles(words, order, width) && k < |order| && v < Right(words[order[k]], width)
    ensures i <= k && Left(words[order[i]], width) <= v < Right(words[order[i]], width)
  {
    if Left(words[order[k]], width) <= v {
      i := k;
    } else {
      assert Right(words[order[k - 1]], width) == Left(words[order[k - 1 + 1]], width);
      i := Covered(words, order, width, v, k - 1);
    }
  }

  /** Distinct numbers below `n`, `n` of them, are all the numbers below `n`. */
  lemma Pigeonhole(order: seq<nat>, n: nat, s: nat) returns (k: nat)
    requires |order| == n && s < n
    requires forall i :: 0 <= i < n ==> order[i] < n
    requires forall i, j :: 0 <= i < j < n ==> order[i] != order[j]
    ensures k < n && order[k] == s
  {
    var all, hit := UpTo(n), Seen(order, n);
    if s !in hit {
      SubsetSize(hit, all - {s});
      assert false;
    }
    k :| 0 <= k < n && order[k] == s;
  }

  function UpTo(n: nat): (r: set<nat>)
    ensures |r| == n && forall i: nat :: i in r <==> i < n
  {
    if n == 0 then {} else UpTo(n - 1) + {n - 1}
  }

  function Seen(order: seq<nat>, n: nat): (r: set<nat>)
    requires n <= |order|
    requires forall i, j :: 0 <= i < j < n ==> order[i] != order[j]
    ensures |r| == n
    ensures forall x :: x in r <==> exists i :: 0 <= i < n && order[i] == x
  {
    if n == 0 then {} else Seen(order, n - 1) + {order[n - 1]}
  }

  lemma RankOf(words: seq<Entry>, order: seq<nat>, width: nat, s: nat) returns (k: nat)
    requires Tiles(words, order, width) && s < |words|
    ensures k < |order| && order[k] == s
  {
    forall i, j | 0 <= i < j < |order|
      ensures order[i] != order[j]
    {
      Increasing(words, order, width, i, j);
      Width(words[order[i]], width);
    }
    k := Pigeonhole(order, |words|, s);
  }

  /** A code word starts a `width`-bit string exactly when the string's number is in its interval. */
  lemma StartsIffInside(words: seq<Entry>, order: seq<nat>, width: nat, s: nat, q: Bits)
    requires Tiles(words, order, width) && s < |words| && |q| == width
    ensures words[s].bits <= width
    ensures Codes(words)[s] <= q <==> Left(words[s], width) <= Val(q) < Right(words[s], width)
  {
    hide Pow2, Val;
    var k := RankOf(words, order, width, s);
    var e := words[s];
    CodeFits(words, order, width, k);
    ValBits(e.code, e.bits);
    var c := Codes(words)[s];
    var a, b := q[..e.bits], q[e.bits..];
    assert q == a + b;
    ValAppend(a, b);
    ValBound(b);
    var p := Pow2(width - e.bits);
    Width(e, width);
    if c <= q {
      assert a == c;
    }
    if Left(e, width) <= Val(q) < Right(e, width) {
      SameQuotient(e.code, Val(a), Val(b), p);
      ValInjective(a, c);
    }
  }

  lemma SameQuotient(c: nat, a: nat, b: nat, p: nat)
    requires b < p && c * p <= a * p + b < (c + 1) * p
    ensures a == c
  {
    if a < c {
      MulMono(a + 1, c, p);
    } else if c < a {
      MulMono(c + 1, a, p);
    }
  }

  lemma CodeFits(words: seq<Entry>, order: seq<nat>, width: nat, k: nat)
    requires Tiles(words, order, width) && k < |order|
    ensures words[order[k]].code < Pow2(words[order[k]].bits)
  {
    var e := words[order[k]];
    var last := |order| - 1;
    if k < last {
      Increasing(words, order, width, k, last);
      Width(words[order[last]], width);
    }
    var p := Pow2(width - e.bits);
    Pow2Add(e.bits, width - e.bits);
    CancelMul(e.code + 1, Pow2(e.bits), p);
  }

  lemma CancelMul(a: nat, b: nat, p: nat)
    requires p > 0 && a * p <= b * p
    ensures a <= b
  {
    if a > b {
      MulMono(b + 1, a, p);
    }
  }

  lemma Fill(p: Bits, width: nat) returns (q: Bits)
    requires |p| <= width
    ensures |q| == width && p <= q && Val(q) == Val(p) * Pow2(width - |p|)
  {
    q := p + Zeros(width - |p|);
    ValAppend(p, Zeros(width - |p|));
    ValZeros(width - |p|);
  }

  /** Two code words that start the same full-width string are the same. */
  lemma OneStart(words: seq<Entry>, order: seq<nat>, width: nat, q: Bits, s: nat, t: nat)
    requires Tiles(words, order, width) && |q| == width && s < |words| && t < |words|
    requires Codes(words)[s] <= q && Codes(words)[t] <= q
    ensures s == t
  {
    StartsIffInside(words, order, width, s, q);
    StartsIffInside(words, order, width, t, q);
    var i := RankOf(words, order, width, s);
    var j := RankOf(words, order, width, t);
    if i < j {
      Increasing(words, order, width, i, j);
    } else if j < i {
      Increasing(words, order, width, j, i);
    }
  }

  lemma TilesPrefixFree(words: seq<Entry>, order: seq<nat>, width: nat)
    requires Tiles(words, order, width)
    ensures PrefixFree(Codes(words))
  {
    var codes := Codes(words);
    forall s, t | 0 <= s < |codes| && 0 <= t < |codes| && codes[s] <= codes[t]
      ensures s == t
    {
      var k := RankOf(words, order, width, t);
      var q := Fill(codes[t], width);
      OneStart(words, order, width, q, s, t);
    }
  }

  lemma TilesComplete(words: seq<Entry>, order: seq<nat>, width: nat)
    requires Tiles(words, order, width)
    ensures Complete(Codes(words))
  {
    var codes := Codes(words);
    TilesPrefixFree(words, order, width);
    forall s, p: Bits, b | 0 <= s < |codes| && p < codes[s]
      ensures Starts(codes, p + [b])
    {
      var k := RankOf(words, order, width, s);
      var q := Fill(p + [b], width);
      ValBound(q);
      var i := Covered(words, order, width, Val(q), |order| - 1);
      var t := order[i];
      StartsIffInside(words, order, width, t, q);
      if |codes[t]| <= |p| {
        ShorterStart(codes[t], p, q, codes[s]);
      } else {
        assert p + [b] == q[..|p| + 1] == codes[t][..|p| + 1];
      }
    }
  }

  lemma ShorterStart(c: Bits, p: Bits, q: Bits, d: Bits)
    requires c <= q && p <= q && |c| <= |p| && p <= d
    ensures c <= d
  {
    assert c == q[..|c|] == p[..|c|] == d[..|c|];
  }
}
