/**
 * The HPACK Huffman code, Appendix B of RFC 7541: 256 byte values and EOS, and
 * the check that the concrete table tiles the 30-bit numbers.
 *
 * Both tables are rows of eight picked by a decision tree, so that looking up one
 * entry costs the verifier a handful of comparisons.
 */
module HuffmanTable {
  import opened Common

  const EOS: nat := 256
  const SYMBOLS: nat := 257

  /** A code word: its value and its length in bits, most significant bit first. */
  datatype Entry = Entry(code: nat, bits: nat)

  function Row<T>(i: int, a: T, b: T, c: T, d: T, e: T, f: T, g: T, h: T): T {
    if i < 4 then
      if i < 2 then (if i < 1 then a else b) else (if i < 3 then c else d)
    else
      if i < 6 then (if i < 5 then e else f) else (if i < 7 then g else h)
  }

  /** The code words by symbol. */
  function Code(sym: nat): (e: Entry)
    requires sym < SYMBOLS
  {
    if sym == EOS then Entry(0x3fffffff, 30) else
    if sym < 128 then
      if sym < 64 then
        if sym < 32 then
          if sym < 16 then
            if sym < 8 then
              Row(sym - 0, Entry(0x1ff8, 13), Entry(0x7fffd8, 23), Entry(0xfffffe2, 28), Entry(0xfffffe3, 28), Entry(0xfffffe4, 28), Entry(0xfffffe5, 28), Entry(0xfffffe6, 28), Entry(0xfffffe7, 28))
            else
              Row(sym - 8, Entry(0xfffffe8, 28), Entry(0xffffea, 24), Entry(0x3ffffffc, 30), Entry(0xfffffe9, 28), Entry(0xfffffea, 28), Entry(0x3ffffffd, 30), Entry(0xfffffeb, 28), Entry(0xfffffec, 28))
          else
            if sym < 24 then
              Row(sym - 16, Entry(0xfffffed, 28), Entry(0xfffffee, 28), Entry(0xfffffef, 28), Entry(0xffffff0, 28), Entry(0xffffff1, 28), Entry(0xffffff2, 28), Entry(0x3ffffffe, 30), Entry(0xffffff3, 28))
            else
              Row(sym - 24, Entry(0xffffff4, 28), Entry(0xffffff5, 28), Entry(0xffffff6, 28), Entry(0xffffff7, 28), Entry(0xffffff8, 28), Entry(0xffffff9, 28), Entry(0xffffffa, 28), Entry(0xffffffb, 28))
        else
          if sym < 48 then
            if sym < 40 then
              Row(sym - 32, Entry(0x14, 6), Entry(0x3f8, 10), Entry(0x3f9, 10), Entry(0xffa, 12), Entry(0x1ff9, 13), Entry(0x15, 6), Entry(0xf8, 8), Entry(0x7fa, 11))
            else
              Row(sym - 40, Entry(0x3fa, 10), Entry(0x3fb, 10), Entry(0xf9, 8), Entry(0x7fb, 11), Entry(0xfa, 8), Entry(0x16, 6), Entry(0x17, 6), Entry(0x18, 6))
          else
            if sym < 56 then
              Row(sym - 48, Entry(0x0, 5), Entry(0x1, 5), Entry(0x2, 5), Entry(0x19, 6), Entry(0x1a, 6), Entry(0x1b, 6), Entry(0x1c, 6), Entry(0x1d, 6))
            else
              Row(sym - 56, Entry(0x1e, 6), Entry(0x1f, 6), Entry(0x5c, 7), Entry(0xfb, 8), Entry(0x7ffc, 15), Entry(0x20, 6), Entry(0xffb, 12), Entry(0x3fc, 10))
      else
        if sym < 96 then
          if sym < 80 then
            if sym < 72 then
              Row(sym - 64, Entry(0x1ffa, 13), Entry(0x21, 6), Entry(0x5d, 7), Entry(0x5e, 7), Entry(0x5f, 7), Entry(0x60, 7), Entry(0x61, 7), Entry(0x62, 7))
            else
              Row(sym - 72, Entry(0x63, 7), Entry(0x64, 7), Entry(0x65, 7), Entry(0x66, 7), Entry(0x67, 7), Entry(0x68, 7), Entry(0x69, 7), Entry(0x6a, 7))
          else
            if sym < 88 then
              Row(sym - 80, Entry(0x6b, 7), Entry(0x6c, 7), Entry(0x6d, 7), Entry(0x6e, 7), Entry(0x6f, 7), Entry(0x70, 7), Entry(0x71, 7), Entry(0x72, 7))
            else
              Row(sym - 88, Entry(0xfc, 8), Entry(0x73, 7), Entry(0xfd, 8), Entry(0x1ffb, 13), Entry(0x7fff0, 19), Entry(0x1ffc, 13), Entry(0x3ffc, 14), Entry(0x22, 6))
        else
          if sym < 112 then
            if sym < 104 then
              Row(sym - 96, Entry(0x7ffd, 15), Entry(0x3, 5), Entry(0x23, 6), Entry(0x4, 5), Entry(0x24, 6), Entry(0x5, 5), Entry(0x25, 6), Entry(0x26, 6))
            else
              Row(sym - 104, Entry(0x27, 6), Entry(0x6, 5), Entry(0x74, 7), Entry(0x75, 7), Entry(0x28, 6), Entry(0x29, 6), Entry(0x2a, 6), Entry(0x7, 5))
          else
            if sym < 120 then
              Row(sym - 112, Entry(0x2b, 6), Entry(0x76, 7), Entry(0x2c, 6), Entry(0x8, 5), Entry(0x9, 5), Entry(0x2d, 6), Entry(0x77, 7), Entry(0x78, 7))
            else
              Row(sym - 120, Entry(0x79, 7), Entry(0x7a, 7), Entry(0x7b, 7), Entry(0x7ffe, 15), Entry(0x7fc, 11), Entry(0x3ffd, 14), Entry(0x1ffd, 13), Entry(0xffffffc, 28))
    else
      if sym < 192 then
        if sym < 160 then
          if sym < 144 then
            if sym < 136 then
              Row(sym - 128, Entry(0xfffe6, 20), Entry(0x3fffd2, 22), Entry(0xfffe7, 20), Entry(0xfffe8, 20), Entry(0x3fffd3, 22), Entry(0x3fffd4, 22), Entry(0x3fffd5, 22), Entry(0x7fffd9, 23))
            else
              Row(sym - 136, Entry(0x3fffd6, 22), Entry(0x7fffda, 23), Entry(0x7fffdb, 23), Entry(0x7fffdc, 23), Entry(0x7fffdd, 23), Entry(0x7fffde, 23), Entry(0xffffeb, 24), Entry(0x7fffdf, 23))
          else
            if sym < 152 then
              Row(sym - 144, Entry(0xffffec, 24), Entry(0xffffed, 24), Entry(0x3fffd7, 22), Entry(0x7fffe0, 23), Entry(0xffffee, 24), Entry(0x7fffe1, 23), Entry(0x7fffe2, 23), Entry(0x7fffe3, 23))
            else
              Row(sym - 152, Entry(0x7fffe4, 23), Entry(0x1fffdc, 21), Entry(0x3fffd8, 22), Entry(0x7fffe5, 23), Entry(0x3fffd9, 22), Entry(0x7fffe6, 23), Entry(0x7fffe7, 23), Entry(0xffffef, 24))
        else
          if sym < 176 then
            if sym < 168 then
              Row(sym - 160, Entry(0x3fffda, 22), Entry(0x1fffdd, 21), Entry(0xfffe9, 20), Entry(0x3fffdb, 22), Entry(0x3fffdc, 22), Entry(0x7fffe8, 23), Entry(0x7fffe9, 23), Entry(0x1fffde, 21))
            else
              Row(sym - 168, Entry(0x7fffea, 23), Entry(0x3fffdd, 22), Entry(0x3fffde, 22), Entry(0xfffff0, 24), Entry(0x1fffdf, 21), Entry(0x3fffdf, 22), Entry(0x7fffeb, 23), Entry(0x7fffec, 23))
          else
            if sym < 184 then
              Row(sym - 176, Entry(0x1fffe0, 21), Entry(0x1fffe1, 21), Entry(0x3fffe0, 22), Entry(0x1fffe2, 21), Entry(0x7fffed, 23), Entry(0x3fffe1, 22), Entry(0x7fffee, 23), Entry(0x7fffef, 23))
            else
              Row(sym - 184, Entry(0xfffea, 20), Entry(0x3fffe2, 22), Entry(0x3fffe3, 22), Entry(0x3fffe4, 22), Entry(0x7ffff0, 23), Entry(0x3fffe5, 22), Entry(0x3fffe6, 22), Entry(0x7ffff1, 23))
      else
        if sym < 224 then
          if sym < 208 then
            if sym < 200 then
              Row(sym - 192, Entry(0x3ffffe0, 26), Entry(0x3ffffe1, 26), Entry(0xfffeb, 20), Entry(0x7fff1, 19), Entry(0x3fffe7, 22), Entry(0x7ffff2, 23), Entry(0x3fffe8, 22), Entry(0x1ffffec, 25))
            else
              Row(sym - 200, Entry(0x3ffffe2, 26), Entry(0x3ffffe3, 26), Entry(0x3ffffe4, 26), Entry(0x7ffffde, 27), Entry(0x7ffffdf, 27), Entry(0x3ffffe5, 26), Entry(0xfffff1, 24), Entry(0x1ffffed, 25))
          else
            if sym < 216 then
              Row(sym - 208, Entry(0x7fff2, 19), Entry(0x1fffe3, 21), Entry(0x3ffffe6, 26), Entry(0x7ffffe0, 27), Entry(0x7ffffe1, 27), Entry(0x3ffffe7, 26), Entry(0x7ffffe2, 27), Entry(0xfffff2, 24))
            else
              Row(sym - 216, Entry(0x1fffe4, 21), Entry(0x1fffe5, 21), Entry(0x3ffffe8, 26), Entry(0x3ffffe9, 26), Entry(0xffffffd, 28), Entry(0x7ffffe3, 27), Entry(0x7ffffe4, 27), Entry(0x7ffffe5, 27))
        else
          if sym < 240 then
            if sym < 232 then
              Row(sym - 224, Entry(0xfffec, 20), Entry(0xfffff3, 24), Entry(0xfffed, 20), Entry(0x1fffe6, 21), Entry(0x3fffe9, 22), Entry(0x1fffe7, 21), Entry(0x1fffe8, 21), Entry(0x7ffff3, 23))
            else
              Row(sym - 232, Entry(0x3fffea, 22), Entry(0x3fffeb, 22), Entry(0x1ffffee, 25), Entry(0x1ffffef, 25), Entry(0xfffff4, 24), Entry(0xfffff5, 24), Entry(0x3ffffea, 26), Entry(0x7ffff4, 23))
          else
            if sym < 248 then
              Row(sym - 240, Entry(0x3ffffeb, 26), Entry(0x7ffffe6, 27), Entry(0x3ffffec, 26), Entry(0x3ffffed, 26), Entry(0x7ffffe7, 27), Entry(0x7ffffe8, 27), Entry(0x7ffffe9, 27), Entry(0x7ffffea, 27))
            else
              Row(sym - 248, Entry(0x7ffffeb, 27), Entry(0xffffffe, 28), Entry(0x7ffffec, 27), Entry(0x7ffffed, 27), Entry(0x7ffffee, 27), Entry(0x7ffffef, 27), Entry(0x7fffff0, 27), Entry(0x3ffffee, 26))
  }

  /** The symbols in increasing order of their code words, aligned left. */
  function Sorted(k: nat): (sym: nat)
    requires k < SYMBOLS
  {
    if k == 256 then 256 else
    if k < 128 then
      if k < 64 then
        if k < 32 then
          if k < 16 then
            if k < 8 then
              Row(k - 0, 48, 49, 50, 97, 99, 101, 105, 111)
            else
              Row(k - 8, 115, 116, 32, 37, 45, 46, 47, 51)
          else
            if k < 24 then
              Row(k - 16, 52, 53, 54, 55, 56, 57, 61, 65)
            else
              Row(k - 24, 95, 98, 100, 102, 103, 104, 108, 109)
        else
          if k < 48 then
            if k < 40 then
              Row(k - 32, 110, 112, 114, 117, 58, 66, 67, 68)
            else
              Row(k - 40, 69, 70, 71, 72, 73, 74, 75, 76)
          else
            if k < 56 then
              Row(k - 48, 77, 78, 79, 80, 81, 82, 83, 84)
            else
              Row(k - 56, 85, 86, 87, 89, 106, 107, 113, 118)
      else
        if k < 96 then
          if k < 80 then
            if k < 72 then
              Row(k - 64, 119, 120, 121, 122, 38, 42, 44, 59)
            else
              Row(k - 72, 88, 90, 33, 34, 40, 41, 63, 39)
          else
            if k < 88 then
              Row(k - 80, 43, 124, 35, 62, 0, 36, 64, 91)
            else
              Row(k - 88, 93, 126, 94, 125, 60, 96, 123, 92)
        else
          if k < 112 then
            if k < 104 then
              Row(k - 96, 195, 208, 128, 130, 131, 162, 184, 194)
            else
              Row(k - 104, 224, 226, 153, 161, 167, 172, 176, 177)
          else
            if k < 120 then
              Row(k - 112, 179, 209, 216, 217, 227, 229, 230, 129)
            else
              Row(k - 120, 132, 133, 134, 136, 146, 154, 156, 160)
    else
      if k < 192 then
        if k < 160 then
          if k < 144 then
            if k < 136 then
              Row(k - 128, 163, 164, 169, 170, 173, 178, 181, 185)
            else
              Row(k - 136, 186, 187, 189, 190, 196, 198, 228, 232)
          else
            if k < 152 then
              Row(k - 144, 233, 1, 135, 137, 138, 139, 140, 141)
            else
              Row(k - 152, 143, 147, 149, 150, 151, 152, 155, 157)
        else
          if k < 176 then
            if k < 168 then
              Row(k - 160, 158, 165, 166, 168, 174, 175, 180, 182)
            else
              Row(k - 168, 183, 188, 191, 197, 231, 239, 9, 142)
          else
            if k < 184 then
              Row(k - 176, 144, 145, 148, 159, 171, 206, 215, 225)
            else
              Row(k - 184, 236, 237, 199, 207, 234, 235, 192, 193)
      else
        if k < 224 then
          if k < 208 then
            if k < 200 then
              Row(k - 192, 200, 201, 202, 205, 210, 213, 218, 219)
            else
              Row(k - 200, 238, 240, 242, 243, 255, 203, 204, 211)
          else
            if k < 216 then
              Row(k - 208, 212, 214, 221, 222, 223, 241, 244, 245)
            else
              Row(k - 216, 246, 247, 248, 250, 251, 252, 253, 254)
        else
          if k < 240 then
            if k < 232 then
              Row(k - 224, 2, 3, 4, 5, 6, 7, 8, 11)
            else
              Row(k - 232, 12, 14, 15, 16, 17, 18, 19, 20)
          else
            if k < 248 then
              Row(k - 240, 21, 23, 24, 25, 26, 27, 28, 29)
            else
              Row(k - 248, 30, 31, 127, 220, 249, 10, 13, 22)
  }

  function Widen(c: nat, d: int): nat {
    if d == 0 then c else if d == 1 then 2 * c else if d == 2 then 4 * c else if d == 3 then 8 * c else 16 * c
  }

  /** The code word of rank `k` is that of `s`, and `t` takes up where it ends; words of one length go up with their symbols. */
  predicate Adjacent(k: nat, s: nat, t: nat) {
    && k < 256 && s < SYMBOLS && t < SYMBOLS && Sorted(k) == s && Sorted(k + 1) == t
    && 0 <= Code(t).bits - Code(s).bits <= 4 && (Code(t).bits == Code(s).bits ==> s < t)
    && Code(t).code == Widen(Code(s).code + 1, Code(t).bits - Code(s).bits)
  }

  ghost predicate Linked(k: nat) {
    exists s, t :: Adjacent(k, s, t)
  }

  lemma Links(p: (nat, nat, nat) -> bool, k: nat, base: nat,
              s: nat, t: nat, u: nat, v: nat, w: nat, x: nat, y: nat, z: nat, end: nat)
    requires base <= k < base + 8
    requires p(base, s, t) && p(base + 1, t, u) && p(base + 2, u, v) && p(base + 3, v, w)
    requires p(base + 4, w, x) && p(base + 5, x, y) && p(base + 6, y, z) && p(base + 7, z, end)
    ensures exists a, b :: p(k, a, b)
  {
  }

  /** In that order each of the 257 words ends where the next begins. */
  lemma EachLinked(k: nat)
    requires k < 256
    ensures Linked(k)
  {
    if k < 16 {
      Linked0(k);
    } else if k < 32 {
      Linked1(k);
    } else if k < 48 {
      Linked2(k);
    } else if k < 64 {
      Linked3(k);
    } else if k < 80 {
      Linked4(k);
    } else if k < 96 {
      Linked5(k);
    } else if k < 112 {
      Linked6(k);
    } else if k < 128 {
      Linked7(k);
    } else if k < 144 {
      Linked8(k);
    } else if k < 160 {
      Linked9(k);
    } else if k < 176 {
      Linked10(k);
    } else if k < 192 {
      Linked11(k);
    } else if k < 208 {
      Linked12(k);
    } else if k < 224 {
      Linked13(k);
    } else if k < 240 {
      Linked14(k);
    } else {
      Linked15(k);
    }
  }

  lemma Linked0(k: nat)
    requires 0 <= k < 16
    ensures Linked(k)
  {
    if k < 8 {
      Links(Adjacent, k, 0, 48, 49, 50, 97, 99, 101, 105, 111, 115);
    } else {
      Links(Adjacent, k, 8, 115, 116, 32, 37, 45, 46, 47, 51, 52);
    }
  }

  lemma Linked1(k: nat)
    requires 16 <= k < 32
    ensures Linked(k)
  {
    if k < 24 {
      Links(Adjacent, k, 16, 52, 53, 54, 55, 56, 57, 61, 65, 95);
    } else {
      Links(Adjacent, k, 24, 95, 98, 100, 102, 103, 104, 108, 109, 110);
    }
  }

  lemma Linked2(k: nat)
    requires 32 <= k < 48
    ensures Linked(k)
  {
    if k < 40 {
      Links(Adjacent, k, 32, 110, 112, 114, 117, 58, 66, 67, 68, 69);
    } else {
      Links(Adjacent, k, 40, 69, 70, 71, 72, 73, 74, 75, 76, 77);
    }
  }

  lemma Linked3(k: nat)
    requires 48 <= k < 64
    ensures Linked(k)
  {
    if k < 56 {
      Links(Adjacent, k, 48, 77, 78, 79, 80, 81, 82, 83, 84, 85);
    } else {
      Links(Adjacent, k, 56, 85, 86, 87, 89, 106, 107, 113, 118, 119);
    }
  }

  lemma Linked4(k: nat)
    requires 64 <= k < 80
    ensures Linked(k)
  {
    if k < 72 {
      Links(Adjacent, k, 64, 119, 120, 121, 122, 38, 42, 44, 59, 88);
    } else {
      Links(Adjacent, k, 72, 88, 90, 33, 34, 40, 41, 63, 39, 43);
    }
  }

  lemma Linked5(k: nat)
    requires 80 <= k < 96
    ensures Linked(k)
  {
    if k < 88 {
      Links(Adjacent, k, 80, 43, 124, 35, 62, 0, 36, 64, 91, 93);
    } else {
      Links(Adjacent, k, 88, 93, 126, 94, 125, 60, 96, 123, 92, 195);
    }
  }

  lemma Linked6(k: nat)
    requires 96 <= k < 112
    ensures Linked(k)
  {
    if k < 104 {
      Links(Adjacent, k, 96, 195, 208, 128, 130, 131, 162, 184, 194, 224);
    } else {
      Links(Adjacent, k, 104, 224, 226, 153, 161, 167, 172, 176, 177, 179);
    }
  }

  lemma Linked7(k: nat)
    requires 112 <= k < 128
    ensures Linked(k)
  {
    if k < 120 {
      Links(Adjacent, k, 112, 179, 209, 216, 217, 227, 229, 230, 129, 132);
    } else {
      Links(Adjacent, k, 120, 132, 133, 134, 136, 146, 154, 156, 160, 163);
    }
  }

  lemma Linked8(k: nat)
    requires 128 <= k < 144
    ensures Linked(k)
  {
    if k < 136 {
      Links(Adjacent, k, 128, 163, 164, 169, 170, 173, 178, 181, 185, 186);
    } else {
      Links(Adjacent, k, 136, 186, 187, 189, 190, 196, 198, 228, 232, 233);
    }
  }

  lemma Linked9(k: nat)
    requires 144 <= k < 160
    ensures Linked(k)
  {
    if k < 152 {
      Links(Adjacent, k, 144, 233, 1, 135, 137, 138, 139, 140, 141, 143);
    } else {
      Links(Adjacent, k, 152, 143, 147, 149, 150, 151, 152, 155, 157, 158);
    }
  }

  lemma Linked10(k: nat)
    requires 160 <= k < 176
    ensures Linked(k)
  {
    if k < 168 {
      Links(Adjacent, k, 160, 158, 165, 166, 168, 174, 175, 180, 182, 183);
    } else {
      Links(Adjacent, k, 168, 183, 188, 191, 197, 231, 239, 9, 142, 144);
    }
  }

  lemma Linked11(k: nat)
    requires 176 <= k < 192
    ensures Linked(k)
  {
    if k < 184 {
      Links(Adjacent, k, 176, 144, 145, 148, 159, 171, 206, 215, 225, 236);
    } else {
      Links(Adjacent, k, 184, 236, 237, 199, 207, 234, 235, 192, 193, 200);
    }
  }

  lemma Linked12(k: nat)
    requires 192 <= k < 208
    ensures Linked(k)
  {
    if k < 200 {
      Links(Adjacent, k, 192, 200, 201, 202, 205, 210, 213, 218, 219, 238);
    } else {
      Links(Adjacent, k, 200, 238, 240, 242, 243, 255, 203, 204, 211, 212);
    }
  }

  lemma Linked13(k: nat)
    requires 208 <= k < 224
    ensures Linked(k)
  {
    if k < 216 {
      Links(Adjacent, k, 208, 212, 214, 221, 222, 223, 241, 244, 245, 246);
    } else {
      Links(Adjacent, k, 216, 246, 247, 248, 250, 251, 252, 253, 254, 2);
    }
  }

  lemma Linked14(k: nat)
    requires 224 <= k < 240
    ensures Linked(k)
  {
    if k < 232 {
      Links(Adjacent, k, 224, 2, 3, 4, 5, 6, 7, 8, 11, 12);
    } else {
      Links(Adjacent, k, 232, 12, 14, 15, 16, 17, 18, 19, 20, 21);
    }
  }

  lemma Linked15(k: nat)
    requires 240 <= k < 256
    ensures Linked(k)
  {
    if k < 248 {
      Links(Adjacent, k, 240, 21, 23, 24, 25, 26, 27, 28, 29, 30);
    } else {
      Links(Adjacent, k, 248, 30, 31, 127, 220, 249, 10, 13, 22, 256);
    }
  }
}
