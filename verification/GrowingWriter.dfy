/** The TypeScript client's byte writer: one buffer that doubles on demand, refining plain appends. */
module GrowingWriters {
  import opened Common
  import opened Bytes

  /** The loop of `Ensure`: the capacity after at most `k` turns. */
  function Grown(cap: nat, need: nat, k: nat): (c: nat) {
    if k == 0 then cap
    else
      var c := Grown(cap, need, k - 1);
      if c < need then c * 2 else c
  }

  lemma {:induction false} GrownLater(cap: nat, need: nat, k: nat)
    ensures cap < need ==> Grown(cap, need, k + 1) == Grown(cap * 2, need, k)
  {
    if k > 0 {
      GrownLater(cap, need, k - 1);
    }
  }

  lemma {:induction false} GrowsEnough(cap: nat, need: nat) returns (k: nat)
    requires cap > 0
    ensures Grown(cap, need, k) >= need
    decreases need - cap
  {
    if cap >= need {
      k := 0;
    } else {
      k := GrowsEnough(cap * 2, need);
      GrownLater(cap, need, k);
      k := k + 1;
    }
  }

  lemma {:induction false} NothingGrows(need: nat, k: nat)
    ensures Grown(0, need, k) == 0
  {
    if k > 0 {
      NothingGrows(need, k - 1);
    }
  }

  /** The loop ends, and with this capacity. */
  ghost predicate EndsWith(cap: nat, need: nat, final: nat) {
    final >= need && exists k: nat :: Grown(cap, need, k) == final
  }

  /** The loop ends exactly from a positive capacity, as every caller passes, or if nothing is needed. */
  lemma DoublingNeedsCapacity(cap: nat, need: nat)
    ensures (exists final: nat :: EndsWith(cap, need, final)) <==> cap > 0 || need == 0
  {
    if cap > 0 {
      var k := GrowsEnough(cap, need);
      assert EndsWith(cap, need, Grown(cap, need, k));
    } else {
      forall k: nat
        ensures Grown(cap, need, k) == 0
      {
        NothingGrows(need, k);
      }
      assert need == 0 ==> EndsWith(cap, need, Grown(cap, need, 0));
    }
  }

  class GrowingWriter {
    var buf: array<byte>
    var len: nat

    ghost predicate Valid()
      reads this
    {
      len <= buf.Length && buf.Length > 0
    }

    /** What has been written. */
    ghost function Written(): (b: bytes)
      requires Valid()
      reads this, buf
    {
      buf[..len]
    }

    constructor (initialCapacity: nat)
      requires initialCapacity > 0
      ensures Valid() && fresh(buf) && Written() == [] && buf.Length == initialCapacity
    {
      buf := new byte[initialCapacity];
      len := 0;
    }

    /** Room for `extra` more octets; the buffer never grows beyond twice what is needed. */
    method Ensure(extra: nat)
      requires Valid()
      modifies this`buf
      ensures Valid() && Written() == old(Written()) && len + extra <= buf.Length
      ensures buf == old(buf) || (fresh(buf) && buf.Length < 2 * (len + extra))
      ensures buf != old(buf) ==> EndsWith(old(buf).Length * 2, len + extra, buf.Length)
    {
      var need := len + extra;
      if need <= buf.Length {
        return;
      }
      var cap := buf.Length * 2;
      ghost var turns: nat := 0;
      while cap < need
        invariant buf.Length < cap < 2 * need && cap == Grown(buf.Length * 2, need, turns)
        decreases need - cap
      {
        cap := cap * 2;
        turns := turns + 1;
      }
      var next := new byte[cap];
      for i := 0 to len
        invariant len <= buf.Length && next.Length == cap
        invariant forall j :: 0 <= j < i ==> next[j] == buf[j]
        invariant buf == old(buf) && buf[..len] == old(buf[..len])
      {
        next[i] := buf[i];
      }
      assert next[..len] == buf[..len];
      buf := next;
    }

    method Append(b: bytes)
      requires Valid()
      modifies this, buf
      ensures Valid() && Written() == old(Written()) + b && (buf == old(buf) || fresh(buf))
    {
      ghost var before := Written();
      Ensure(|b|);
      for i := 0 to |b|
        invariant Valid() && len == old(len) && len + |b| <= buf.Length && (buf == old(buf) || fresh(buf))
        invariant buf[..len] == before
        invariant forall j :: 0 <= j < i ==> buf[len + j] == b[j]
      {
        buf[len + i] := b[i];
      }
      assert buf[..len + |b|] == buf[..len] + buf[len..len + |b|];
      assert buf[len..len + |b|] == b;
      len := len + |b|;
    }

    /** JavaScript numbers are cut to the field's width. */
    method U8(v: nat)
      requires Valid()
      modifies this, buf
      ensures Valid() && Written() == old(Written()) + [v % 256] && (buf == old(buf) || fresh(buf))
    {
      Append([v % 256]);
    }

    method U16(v: nat)
      requires Valid()
      modifies this, buf
      ensures Valid() && Written() == old(Written()) + Bytes.U16(v % 0x1_0000) && (buf == old(buf) || fresh(buf))
    {
      Append(Bytes.U16(v % 0x1_0000));
    }

    method U24(v: nat)
      requires Valid()
      modifies this, buf
      ensures Valid() && Written() == old(Written()) + Bytes.U24(v % 0x100_0000) && (buf == old(buf) || fresh(buf))
    {
      ghost var start := Written();
      U8(v / 0x1_0000);
      U8(v / 0x100);
      U8(v);
      CutTo24(v);
      assert Written() == start + ([v / 0x1_0000 % 256] + [v / 0x100 % 256] + [v % 256]);
    }

    method U32(v: nat)
      requires Valid()
      modifies this, buf
      ensures Valid() && Written() == old(Written()) + Bytes.U32(v % 0x1_0000_0000) && (buf == old(buf) || fresh(buf))
    {
      Append(Bytes.U32(v % 0x1_0000_0000));
    }

    method Take() returns (b: bytes)
      requires Valid()
      ensures b == Written()
    {
      b := buf[..len];
    }
  }

  lemma CutTo24(v: nat)
    ensures Bytes.U24(v % 0x100_0000) == [v / 0x1_0000 % 256] + [v / 0x100 % 256] + [v % 256]
  {
    var q, a, b, c := v / 0x100_0000, v / 0x1_0000 % 256, v / 0x100 % 256, v % 256;
    Digits(v);
    CutTop(q, a * 0x1_0000 + b * 0x100 + c);
    Digits24(a, b, c);
  }

  lemma Digits(v: nat)
    ensures v == v / 0x100_0000 * 0x100_0000 + v / 0x1_0000 % 256 * 0x1_0000 + v / 0x100 % 256 * 0x100 + v % 256
  {
    OneDigit(v, 1);
    OneDigit(v, 0x100);
    OneDigit(v, 0x1_0000);
  }

  lemma OneDigit(v: nat, unit: nat)
    requires unit == 1 || unit == 0x100 || unit == 0x1_0000
    ensures v / unit == v / (unit * 256) * 256 + v / unit % 256
  {
  }

  lemma CutTop(q: nat, w: nat)
    requires w < 0x100_0000
    ensures (q * 0x100_0000 + w) % 0x100_0000 == w
  {
  }

  lemma Digits24(a: nat, b: nat, c: nat)
    requires a < 256 && b < 256 && c < 256
    ensures Bytes.U24(a * 0x1_0000 + b * 0x100 + c) == [a] + [b] + [c]
  {
    var low := b * 0x100 + c;
    assert low / 256 == b && low % 256 == c;
    assert (a * 0x1_0000 + low) / 0x1_0000 == a && (a * 0x1_0000 + low) % 0x1_0000 == low;
  }
}
