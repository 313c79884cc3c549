/** Big-endian byte primitives: the growable writer and the cursor reader. */
module Bytes {
  import opened Common

  function U16(v: nat): (b: bytes)
    requires v < 0x1_0000
    ensures |b| == 2
  {
    [v / 256, v % 256]
  }

  function U24(v: nat): (b: bytes)
    requires v < 0x100_0000
    ensures |b| == 3
  {
    [v / 0x1_0000] + U16(v % 0x1_0000)
  }

  function U32(v: nat): (b: bytes)
    requires v < 0x1_0000_0000
    ensures |b| == 4
  {
    U16(v / 0x1_0000) + U16(v % 0x1_0000)
  }

  function GetU16(b: bytes): (v: nat)
    requires |b| >= 2
    ensures v < 0x1_0000
  {
    b[0] as int * 256 + b[1]
  }

  function GetU24(b: bytes): (v: nat)
    requires |b| >= 3
    ensures v < 0x100_0000
  {
    b[0] as int * 0x1_0000 + GetU16(b[1..])
  }

  function GetU32(b: bytes): (v: nat)
    requires |b| >= 4
    ensures v < 0x1_0000_0000
  {
    GetU16(b) * 0x1_0000 + GetU16(b[2..])
  }

  // The most significant octet comes first.

  function BigEndian(b: bytes): (v: nat) {
    if b == [] then 0 else 256 * BigEndian(b[..|b| - 1]) + b[|b| - 1]
  }

  lemma Digits16(b: bytes)
    requires |b| == 2
    ensures BigEndian(b) == b[0] as int * 256 + b[1]
  {
    var one := b[..1];
    assert one[..0] == [] && BigEndian([]) == 0;
    assert BigEndian(one) == b[0];
  }

  lemma DigitsAppend(a: bytes, b: bytes)
    requires |b| == 2
    ensures BigEndian(a + b) == BigEndian(a) * 0x1_0000 + BigEndian(b)
  {
    Digits16(b);
    assert (a + b)[..|a| + 1] == a + [b[0]] && (a + [b[0]])[..|a|] == a;
    assert (a + b)[|a| + 1] == b[1];
  }

  lemma Digits32(b: bytes)
    requires |b| == 4
    ensures BigEndian(b) == GetU32(b)
  {
    assert b == b[..2] + b[2..];
    DigitsAppend(b[..2], b[2..]);
    Digits16(b[..2]);
    Digits16(b[2..]);
  }

  /** What is written is the number's octets, most significant first. */
  lemma WrittenDigits(v: nat)
    ensures v < 0x1_0000 ==> BigEndian(U16(v)) == v
    ensures v < 0x100_0000 ==> BigEndian(U24(v)) == v
    ensures v < 0x1_0000_0000 ==> BigEndian(U32(v)) == v
  {
    if v < 0x1_0000 {
      Digits16(U16(v));
    }
    if v < 0x100_0000 {
      var high: bytes := [v / 0x1_0000];
      assert high[..0] == [] && BigEndian([]) == 0;
      DigitsAppend(high, U16(v % 0x1_0000));
      Digits16(U16(v % 0x1_0000));
    }
    if v < 0x1_0000_0000 {
      DigitsAppend(U16(v / 0x1_0000), U16(v % 0x1_0000));
      Digits16(U16(v / 0x1_0000));
      Digits16(U16(v % 0x1_0000));
    }
  }

  // Reading back what was written, and writing back what was read.

  lemma U16RoundTrip(v: nat, rest: bytes)
    requires v < 0x1_0000
    ensures GetU16(U16(v) + rest) == v && (U16(v) + rest)[2..] == rest
  {
  }

  lemma U16Back(b: bytes)
    requires |b| >= 2
    ensures U16(GetU16(b)) == b[..2]
  {
  }

  lemma U32Back(b: bytes)
    requires |b| >= 4
    ensures U32(GetU32(b)) == b[..4]
  {
    U16Back(b);
    U16Back(b[2..]);
    assert b[..4] == b[..2] + b[2..][..2];
    hide U16, GetU16;
  }

  lemma U24RoundTrip(v: nat, rest: bytes)
    requires v < 0x100_0000
    ensures GetU24(U24(v) + rest) == v && (U24(v) + rest)[3..] == rest
  {
    var tail := U16(v % 0x1_0000) + rest;
    assert U24(v) + rest == [v / 0x1_0000] + tail;
    U16RoundTrip(v % 0x1_0000, rest);
  }

  lemma U32RoundTrip(v: nat, rest: bytes)
    requires v < 0x1_0000_0000
    ensures GetU32(U32(v) + rest) == v && (U32(v) + rest)[4..] == rest
  {
    var tail := U16(v % 0x1_0000) + rest;
    assert U32(v) + rest == U16(v / 0x1_0000) + tail;
    U16RoundTrip(v / 0x1_0000, tail);
    U16RoundTrip(v % 0x1_0000, rest);
  }

  /** Bytes are appended in the order the calls are made. */
  class ByteWriter {
    var buf: bytes

    constructor ()
      ensures buf == []
    {
      buf := [];
    }

    method PutU8(v: byte)
      modifies this
      ensures buf == old(buf) + [v]
    {
      buf := buf + [v];
    }

    method PutU16(v: nat)
      requires v < 0x1_0000
      modifies this
      ensures buf == old(buf) + U16(v)
    {
      buf := buf + U16(v);
    }

    method PutU24(v: nat)
      requires v < 0x100_0000
      modifies this
      ensures buf == old(buf) + U24(v)
    {
      buf := buf + U24(v);
    }

    method PutU32(v: nat)
      requires v < 0x1_0000_0000
      modifies this
      ensures buf == old(buf) + U32(v)
    {
      buf := buf + U32(v);
    }

    method PutBytes(b: bytes)
      modifies this
      ensures buf == old(buf) + b
    {
      buf := buf + b;
    }
  }

  /**
   * A cursor over a fixed slice. The fixed-width reads demand enough remaining
   * bytes, as the source's indexing does; `Take` is the fallible slice read.
   */
  class ByteReader {
    const data: bytes
    var cursor: nat

    ghost predicate Valid()
      reads this
    {
      cursor <= |data|
    }

    constructor (data: bytes)
      ensures Valid() && this.data == data && cursor == 0
    {
      this.data := data;
      cursor := 0;
    }

    /** The bytes not read yet. */
    ghost function Left(): (left: bytes)
      requires Valid()
      reads this
    {
      data[cursor..]
    }

    method Remaining() returns (n: nat)
      requires Valid()
      ensures n == |Left()|
    {
      n := |data| - cursor;
    }

    method Peek() returns (v: byte)
      requires Valid() && |Left()| >= 1
      ensures v == Left()[0]
    {
      v := data[cursor];
    }

    method GetByte() returns (v: byte)
      requires Valid() && |Left()| >= 1
      modifies this
      ensures Valid() && v == old(Left())[0] && Left() == old(Left())[1..]
    {
      v := data[cursor];
      cursor := cursor + 1;
    }

    method ReadU16() returns (v: nat)
      requires Valid() && |Left()| >= 2
      modifies this
      ensures Valid() && v == GetU16(old(Left())) && Left() == old(Left())[2..]
    {
      v := GetU16(data[cursor..]);
      cursor := cursor + 2;
    }

    method ReadU32() returns (v: nat)
      requires Valid() && |Left()| >= 4
      modifies this
      ensures Valid() && v == GetU32(old(Left())) && Left() == old(Left())[4..]
    {
      v := GetU32(data[cursor..]);
      cursor := cursor + 4;
    }

    method Take(n: nat) returns (out: Option<bytes>)
      requires Valid()
      modifies this
      ensures Valid()
      ensures n <= |old(Left())| ==> out == Some(old(Left())[..n]) && Left() == old(Left())[n..]
      ensures n > |old(Left())| ==> out == None && Left() == old(Left())
    {
      if |data| - cursor < n {
        out := None;
      } else {
        out := Some(data[cursor..cursor + n]);
        assert data[cursor..cursor + n] == Left()[..n];
        cursor := cursor + n;
      }
    }
  }
}
