/** HPACK prefix integers, section 5.1 of RFC 7541. */
module HpackInteger {
  import opened Common
  import opened Bytes

  const SIX_GROUPS := 0x400_0000_0000 // 2^42: what six 7-bit continuation bytes can add

  const USIZE_LIMIT := 0x1_0000_0000_0000_0000 // 2^64

  /** The values a prefix of `n` bits can carry through this decoder. */
  function Bound(n: nat): (b: nat) {
    Pow2(n) - 1 + SIX_GROUPS
  }

  /** The high bits of a first byte: they must not overlap an `n`-bit prefix. */
  predicate FlagsFit(flags: nat, n: nat) {
    1 <= n <= 7 && flags + Pow2(n) <= 256 && flags % Pow2(n) == 0
  }

  lemma PrefixSizes()
    ensures Pow2(4) == 16 && Pow2(5) == 32 && Pow2(6) == 64 && Pow2(7) == 128
    ensures FlagsFit(0x80, 7) && FlagsFit(0, 7) && FlagsFit(0x10, 4) && FlagsFit(0, 4)
  {
    assert Pow2(3) == 8;
    assert Pow2(4) == 16;
    assert Pow2(5) == 32;
    assert Pow2(6) == 64;
  }

  lemma {:induction false} Pow2Mono(a: nat, b: nat)
    requires a <= b
    ensures Pow2(a) <= Pow2(b)
  {
    if a < b {
      Pow2Mono(a, b - 1);
    }
  }

  // --- what is written ---

  function Groups(rest: nat): (b: bytes)
    ensures |b| >= 1
  {
    if rest >= 128 then [rest % 128 + 128] + Groups(rest / 128) else [rest]
  }

  function EncodeInteger(value: nat, n: nat, flags: nat): (b: bytes)
    requires FlagsFit(flags, n)
    ensures |b| >= 1 && b[0] / Pow2(n) == flags / Pow2(n)
  {
    var max := Pow2(n) - 1;
    var first := if value < max then value else max;
    FlagBits(flags, first, n);
    if value < max then [flags + value] else [flags + max] + Groups(value - max)
  }

  /** Flags above the prefix and the prefix itself do not disturb each other. */
  lemma FlagBits(flags: nat, v: nat, n: nat)
    requires FlagsFit(flags, n) && v < Pow2(n)
    ensures (flags + v) % Pow2(n) == v && (flags + v) / Pow2(n) == flags / Pow2(n)
  {
    hide Pow2;
    var p := Pow2(n);
    var q := flags / p;
    assert flags == p * q;
    assert flags + v == p * q + v;
    DivModUnique(flags + v, p, q, v);
  }

  lemma DivModUnique(x: int, p: int, q: int, v: int)
    requires p > 0 && x == p * q + v && 0 <= v < p
    ensures x / p == q && x % p == v
  {
    assert x - p * q == v;
    assert x == p * (x / p) + x % p;
    if x / p > q {
      MulMono(1, x / p - q, p);
    } else if x / p < q {
      MulMono(1, q - x / p, p);
    }
  }

  method WriteInteger(w: ByteWriter, value: nat, n: nat, flags: nat)
    requires FlagsFit(flags, n)
    modifies w
    ensures w.buf == old(w.buf) + EncodeInteger(value, n, flags)
  {
    var max := Pow2(n) - 1;
    if value < max {
      w.PutU8(flags + value);
      return;
    }
    w.PutU8(flags + max);
    var rest: nat := value - max;
    while rest >= 128
      invariant w.buf + Groups(rest) == old(w.buf) + [flags + max] + Groups(value - max)
    {
      w.PutU8(rest % 128 + 128);
      rest := rest / 128;
    }
    w.PutU8(rest);
    assert Groups(rest) == [rest];
  }

  // --- what is read ---

  /** The continuation bytes, at most six of them; the next group weighs `weight`. */
  function ReadGroups(input: bytes, value: nat, weight: nat, k: nat): (r: Parsed<nat>)
    ensures r.Got? ==> |r.rest| < |input|
    decreases |input|
  {
    if input == [] then Bad(H2Error(CompressionError, TruncatedInteger))
    else
      var value' := value + input[0] % 128 * weight;
      if k >= 6 then Bad(H2Error(CompressionError, IntegerOverflow))
      else if input[0] < 128 then Got(value', input[1..])
      else ReadGroups(input[1..], value', 128 * weight, k + 1)
  }

  function DecodeInteger(input: bytes, n: nat): (r: Parsed<nat>)
    requires |input| >= 1 && 1 <= n <= 7
    ensures r.Got? ==> |r.rest| < |input|
  {
    var max := Pow2(n) - 1;
    var value := input[0] % Pow2(n);
    if value < max then Got(value, input[1..]) else ReadGroups(input[1..], value, 1, 0)
  }

  /** The accumulator of the loop never leaves a 64-bit `usize`. */
  method ReadInteger(r: ByteReader, n: nat) returns (out: Result<nat>)
    requires r.Valid() && |r.Left()| >= 1 && 1 <= n <= 7
    modifies r
    ensures r.Valid() && |r.Left()| < |old(r.Left())|
    ensures match DecodeInteger(old(r.Left()), n)
            case Got(v, rest) => out == Ok(v) && r.Left() == rest
            case Bad(e) => out == Err(e)
  {
    var max := Pow2(n) - 1;
    var first := r.GetByte();
    var value: nat := first % Pow2(n);
    if value < max {
      return Ok(value);
    }
    assert value < Pow2(7) == 128 by {
      Pow2Mono(n, 7);
      PrefixSizes();
    }
    out := ReadContinuation(r, value);
  }

  /** 128^k: the shift by 7k bits of the source's loop. */
  function Weight(k: nat): (w: nat)
    ensures w >= 1
  {
    if k == 0 then 1 else 128 * Weight(k - 1)
  }

  method ReadContinuation(r: ByteReader, first: nat) returns (out: Result<nat>)
    requires r.Valid() && first < 128
    modifies r
    ensures r.Valid() && |r.Left()| <= |old(r.Left())|
    ensures match ReadGroups(old(r.Left()), first, 1, 0)
            case Got(v, rest) => out == Ok(v) && r.Left() == rest
            case Bad(e) => out == Err(e)
  {
    var value: nat, shift: nat := first, 0;
    ghost var all := ReadGroups(r.Left(), first, 1, 0);
    while true
      invariant r.Valid() && shift <= 42 && shift % 7 == 0 && |r.Left()| <= |old(r.Left())|
      invariant all == ReadGroups(r.Left(), value, Weight(shift / 7), shift / 7)
      invariant value < 128 * Weight(shift / 7)
      decreases |r.Left()|
    {
      var left := r.Remaining();
      if left == 0 {
        return Err(H2Error(CompressionError, TruncatedInteger));
      }
      var b := r.GetByte();
      var digit: nat := b % 128;
      GroupFits(value, digit, shift / 7);
      assert value + digit * Weight(shift / 7) < USIZE_LIMIT; // `value += ... << shift` cannot overflow
      value := value + digit * Weight(shift / 7);
      shift := shift + 7;
      if shift > 42 {
        return Err(H2Error(CompressionError, IntegerOverflow));
      }
      if b < 128 {
        break;
      }
    }
    return Ok(value);
  }

  lemma GroupFits(value: nat, digit: nat, k: nat)
    requires value < 128 * Weight(k) && digit < 128 && k <= 6
    ensures value + digit * Weight(k) < 128 * Weight(k + 1)
    ensures value + digit * Weight(k) < USIZE_LIMIT
  {
    MulMono(digit, 127, Weight(k));
    WeightBound(k);
  }

  lemma {:induction false} WeightBound(k: nat)
    requires k <= 6
    ensures Weight(k) * Room(k) == SIX_GROUPS && Weight(k) <= SIX_GROUPS
  {
    if k > 0 {
      WeightBound(k - 1);
      assert Weight(k) * Room(k) == Weight(k - 1) * Room(k - 1) by {
        var w, m := Weight(k - 1), Room(k);
        assert 128 * w * m == w * (128 * m);
      }
    } else {
      assert Room(6) == 1 && Room(5) == 128 && Room(4) == 0x4000 && Room(3) == 0x20_0000;
    }
    MulMono(1, Room(k), Weight(k));
  }

  /** How many values the groups after the first `k` can still add, in units of their weight. */
  function Room(k: nat): (m: nat)
    requires k <= 6
    ensures m >= 1
    decreases 6 - k
  {
    if k == 6 then 1 else 128 * Room(k + 1)
  }

  // --- the round trip and its exact range ---

  lemma {:induction false} GroupsRoundTrip(rest: nat, value: nat, weight: nat, k: nat, tail: bytes)
    requires k < 6 && rest < Room(k)
    ensures ReadGroups(Groups(rest) + tail, value, weight, k) == Got(value + rest * weight, tail)
    decreases rest
  {
    var input := Groups(rest) + tail;
    if rest >= 128 {
      assert input[1..] == Groups(rest / 128) + tail;
      GroupsRoundTrip(rest / 128, value + rest % 128 * weight, 128 * weight, k + 1, tail);
      Regroup(rest, weight);
    } else {
      assert input[1..] == tail;
    }
  }

  lemma Regroup(rest: nat, p: nat)
    ensures rest % 128 * p + rest / 128 * (128 * p) == rest * p
  {
    var q, m := rest / 128, rest % 128;
    calc {
      m * p + q * (128 * p);
      m * p + 128 * q * p;
      (m + 128 * q) * p;
    }
  }

  lemma {:induction false} GroupsTooLong(rest: nat, value: nat, weight: nat, k: nat, tail: bytes)
    requires k <= 6 && rest >= Room(k)
    ensures ReadGroups(Groups(rest) + tail, value, weight, k) == Bad(H2Error(CompressionError, IntegerOverflow))
    decreases rest
  {
    var input := Groups(rest) + tail;
    if k < 6 {
      assert input[1..] == Groups(rest / 128) + tail;
      GroupsTooLong(rest / 128, value + rest % 128 * weight, 128 * weight, k + 1, tail);
    }
  }

  /**
   * Exact range: an integer comes back, with exactly its own bytes consumed, if
   * and only if it is below the bound; every larger one is refused as an overflow.
   */
  lemma IntegerRoundTrip(value: nat, n: nat, flags: nat, tail: bytes)
    requires FlagsFit(flags, n)
    ensures DecodeInteger(EncodeInteger(value, n, flags) + tail, n)
         == if value < Bound(n) then Got(value, tail) else Bad(H2Error(CompressionError, IntegerOverflow))
  {
    hide Pow2, ReadGroups, Groups;
    var max := Pow2(n) - 1;
    var input := EncodeInteger(value, n, flags) + tail;
    if value < max {
      FlagBits(flags, value, n);
      assert input[1..] == tail;
    } else {
      FlagBits(flags, max, n);
      assert input[1..] == Groups(value - max) + tail;
      ContinuationRoundTrip(value - max, max, tail);
    }
  }

  lemma ContinuationRoundTrip(rest: nat, max: nat, tail: bytes)
    ensures ReadGroups(Groups(rest) + tail, max, 1, 0)
         == if rest < SIX_GROUPS then Got(max + rest, tail) else Bad(H2Error(CompressionError, IntegerOverflow))
  {
    assert Room(0) == SIX_GROUPS by {
      WeightBound(0);
    }
    if rest < SIX_GROUPS {
      GroupsRoundTrip(rest, max, 1, 0, tail);
    } else {
      GroupsTooLong(rest, max, 1, 0, tail);
    }
  }

  lemma {:induction false} GroupsBounded(input: bytes, value: nat, w: nat, k: nat) returns (used: nat)
    requires k <= 6 && ReadGroups(input, value, w, k).Got?
    ensures k < 6 && ReadGroups(input, value, w, k).value + w <= value + w * Room(k)
    ensures 1 <= used <= |input| && used + k <= 6 && ReadGroups(input, value, w, k).rest == input[used..]
    decreases |input|
  {
    var d: nat := input[0] % 128;
    var p := d * w;
    GroupRoom(d, w, k);
    if input[0] < 128 {
      LastGroup(input, value, w, k);
      hide ReadGroups, Room;
      used := 1;
    } else {
      assert ReadGroups(input, value, w, k) == ReadGroups(input[1..], value + p, 128 * w, k + 1);
      hide ReadGroups, Room;
      used := GroupsBounded(input[1..], value + p, 128 * w, k + 1);
      assert input[1..][used..] == input[used + 1..];
      used := used + 1;
    }
  }

  /** A group and all that may follow it. */
  lemma GroupRoom(d: nat, w: nat, k: nat)
    requires d < 128 && k < 6
    ensures d * w + w <= 128 * w <= w * Room(k) == 128 * w * Room(k + 1)
  {
    MulMono(d, 127, w);
    var m := Room(k + 1);
    assert w * (128 * m) == 128 * w * m;
    MulMono(1, m, 128 * w);
  }

  lemma LastGroup(input: bytes, value: nat, weight: nat, k: nat)
    requires k < 6 && input != [] && input[0] < 128
    ensures ReadGroups(input, value, weight, k) == Got(value + input[0] % 128 * weight, input[1..])
  {
  }

  /** No accepted input, canonical or not, yields a value at or above the bound. */
  lemma IntegerBounded(input: bytes, n: nat) returns (used: nat)
    requires |input| >= 1 && 1 <= n <= 7 && DecodeInteger(input, n).Got?
    ensures DecodeInteger(input, n).value < Bound(n)
    ensures 1 <= used <= 7 && used <= |input| && DecodeInteger(input, n).rest == input[used..]
  {
    var max := Pow2(n) - 1;
    if input[0] % Pow2(n) < max {
      used := 1;
    } else {
      assert Weight(0) == 1 && Room(0) == SIX_GROUPS by { WeightBound(0); }
      used := GroupsBounded(input[1..], max, 1, 0);
      assert input[1..][used..] == input[used + 1..];
      used := used + 1;
    }
  }

  // --- the octets of an integer ---

  /** The octets from the second on, least significant group of seven bits first. */
  function GroupsValue(b: bytes): (v: nat) {
    if b == [] then 0 else b[0] % 128 + 128 * GroupsValue(b[1..])
  }

  lemma {:induction false} GroupsOctets(rest: nat)
    ensures var b := Groups(rest);
            && GroupsValue(b) == rest && b[|b| - 1] < 128
            && forall i :: 0 <= i < |b| - 1 ==> b[i] >= 128
  {
    var b := Groups(rest);
    if rest >= 128 {
      GroupsOctets(rest / 128);
      assert b[1..] == Groups(rest / 128);
    } else {
      assert b[1..] == [];
    }
  }

  /**
   * Section 5.1: a value that fits the prefix is there beside the flags; otherwise the prefix is
   * all ones, and the rest follows in groups of seven bits, each octet but the last marked.
   */
  lemma IntegerOctets(value: nat, n: nat, flags: nat)
    requires FlagsFit(flags, n)
    ensures var b := EncodeInteger(value, n, flags); var max := Pow2(n) - 1;
            if value < max then b == [flags + value]
            else
              && |b| >= 2 && b[0] == flags + max && max + GroupsValue(b[1..]) == value && b[|b| - 1] < 128
              && forall i :: 1 <= i < |b| - 1 ==> b[i] >= 128
  {
    hide Pow2, Groups;
    var max := Pow2(n) - 1;
    if value >= max {
      GroupsOctets(value - max);
      var b, more := EncodeInteger(value, n, flags), Groups(value - max);
      assert b == [flags + max] + more && b[1..] == more;
      assert forall i :: 1 <= i < |b| ==> b[i] == more[i - 1];
      hide EncodeInteger;
    }
  }

  /** Section C.1: 10 and 1337 with a prefix of five bits. */
  lemma SectionC1()
    ensures EncodeInteger(10, 5, 0) == [0x0a] && EncodeInteger(1337, 5, 0) == [0x1f, 0x9a, 0x0a]
  {
    assert Pow2(5) == 32 by { PrefixSizes(); }
    assert Groups(1306) == [1306 % 128 + 128] + Groups(10);
  }
}
