// FNV-1a, 64-bit (section 2 of draft-eastlake-fnv), and the ids derived from it.
module Fnv {
  import opened Ids

  const WORD := 0x1_0000_0000_0000_0000
  const OFFSET_BASIS := 0xcbf29ce484222325
  const PRIME := 0x100000001b3
  // PRIME * PRIME_INVERSE == 1 modulo 2^64.
  const PRIME_INVERSE := 0xce965057aff6957b

  type Byte = n: nat | n < 256
  type Word = n: nat | n < WORD

  // Bitwise exclusive or of the low `width` bits.
  function Xor(a: nat, b: nat, width: nat): nat {
    if width == 0 then 0 else 2 * Xor(a / 2, b / 2, width - 1) + (a + b) % 2
  }

  function Power2(width: nat): nat {
    if width == 0 then 1 else 2 * Power2(width - 1)
  }

  lemma {:induction false} XorBound(a: nat, b: nat, width: nat)
    ensures Xor(a, b, width) < Power2(width)
  {
    if width > 0 {
      XorBound(a / 2, b / 2, width - 1);
    }
  }

  lemma LowBit(high: nat, low: nat)
    requires low < 2
    ensures (2 * high + low) / 2 == high && (2 * high + low) % 2 == low
  {
  }

  // One bit at a time: the sum's parity, added to again, is the first bit.
  lemma ParityTwice(a: nat, b: nat, high: nat)
    ensures (2 * high + (a + b) % 2 + b) % 2 == a % 2
  {
    assert (2 * high + (a + b) % 2 + b) % 2 == ((a + b) % 2 + b) % 2;
  }

  lemma {:induction false} XorUndoes(a: nat, b: nat, width: nat)
    requires a < Power2(width)
    ensures Xor(Xor(a, b, width), b, width) == a
  {
    if width > 0 {
      var high := Xor(a / 2, b / 2, width - 1);
      XorUndoes(a / 2, b / 2, width - 1);
      LowBit(high, (a + b) % 2);
      ParityTwice(a, b, high);
    }
  }

  lemma {:induction false} XorCommutes(a: nat, b: nat, width: nat)
    ensures Xor(a, b, width) == Xor(b, a, width)
  {
    if width > 0 {
      XorCommutes(a / 2, b / 2, width - 1);
    }
  }

  lemma Power2Of8()
    ensures Power2(8) == 256
  {
    assert Power2(4) == 16;
  }

  // hash ^= u64::from(byte): only the low eight bits can change.
  function XorByte(hash: Word, byte: Byte): Word {
    Power2Of8();
    XorBound(hash % 256, byte, 8);
    256 * (hash / 256) + Xor(hash % 256, byte, 8)
  }

  function WrappingMul(a: Word, b: Word): Word {
    (a * b) % WORD
  }

  function Absorb(hash: Word, byte: Byte): Word {
    WrappingMul(XorByte(hash, byte), PRIME)
  }

  function HashFrom(hash: Word, bytes: seq<Byte>): Word {
    if bytes == [] then hash else Absorb(HashFrom(hash, bytes[..|bytes| - 1]), bytes[|bytes| - 1])
  }

  method Fnv1a64(bytes: seq<Byte>) returns (hash: Word)
    ensures hash == HashFrom(OFFSET_BASIS, bytes)
  {
    hash := OFFSET_BASIS;
    for i := 0 to |bytes|
      invariant hash == HashFrom(OFFSET_BASIS, bytes[..i])
    {
      hash := XorByte(hash, bytes[i]);
      hash := WrappingMul(hash, PRIME);
      assert bytes[..i + 1][..i] == bytes[..i];
    }
    assert bytes[..|bytes|] == bytes;
  }

  lemma XorOfFirstByte()
    ensures Xor(0x25, 0x61, 8) == 0x44
  {
    assert Xor(0, 1, 2) == 1;
    assert Xor(2, 6, 4) == 4;
    assert Xor(9, 24, 6) == 17;
  }

  lemma FirstXor()
    ensures XorByte(OFFSET_BASIS, 0x61) == 0xcbf29ce484222344
  {
    XorOfFirstByte();
    assert OFFSET_BASIS % 256 == 0x25 && OFFSET_BASIS / 256 == 0xcbf29ce4842223;
  }

  lemma FirstMul()
    ensures WrappingMul(0xcbf29ce484222344, PRIME) == 0xaf63dc4c8601ec8c
  {
    assert 0xcbf29ce484222344 * PRIME == 0xcbf29ce5de * WORD + 0xaf63dc4c8601ec8c;
  }

  // A test vector of the draft: the hash of the one letter "a".
  lemma HashOfLetterA()
    ensures HashFrom(OFFSET_BASIS, [0x61]) == 0xaf63dc4c8601ec8c
  {
    FirstXor();
    FirstMul();
    var bytes: seq<Byte> := [0x61];
    assert bytes[..0] == [] && bytes[0] == 0x61;
  }

  // The prime is odd, hence invertible modulo 2^64, so multiplying by it is injective.
  lemma PrimeCancels(a: Word, b: Word)
    requires WrappingMul(a, PRIME) == WrappingMul(b, PRIME)
    ensures a == b
  {
    var m := a * PRIME / WORD - b * PRIME / WORD;
    assert (a - b) * PRIME == m * WORD;
    assert PRIME * PRIME_INVERSE == 1 + (PRIME * PRIME_INVERSE / WORD) * WORD;
    assert (a - b) * PRIME * PRIME_INVERSE == m * WORD * PRIME_INVERSE;
    assert a - b == WORD * (m * PRIME_INVERSE - (PRIME * PRIME_INVERSE / WORD) * (a - b));
  }

  lemma XorByteInjective(g: Word, h: Word, a: Byte, b: Byte)
    requires XorByte(g, a) == XorByte(h, b)
    ensures a == b ==> g == h
    ensures g == h ==> a == b
  {
    Power2Of8();
    XorBound(g % 256, a, 8);
    XorBound(h % 256, b, 8);
    assert g / 256 == h / 256 && Xor(g % 256, a, 8) == Xor(h % 256, b, 8);
    XorUndoes(g % 256, a, 8);
    XorUndoes(h % 256, b, 8);
    XorCommutes(g % 256, a, 8);
    XorCommutes(h % 256, b, 8);
    XorUndoes(a, g % 256, 8);
    XorUndoes(b, h % 256, 8);
  }

  // One step is a bijection on the state for a fixed byte, and injective in the byte for a fixed
  // state.
  lemma AbsorbInjective(g: Word, h: Word, a: Byte, b: Byte)
    requires Absorb(g, a) == Absorb(h, b)
    ensures a == b ==> g == h
    ensures g == h ==> a == b
  {
    PrimeCancels(XorByte(g, a), XorByte(h, b));
    XorByteInjective(g, h, a, b);
  }

  // States that differ stay different while equal bytes are absorbed.
  lemma {:induction false} CommonSuffixKeepsApart(g: Word, h: Word, suffix: seq<Byte>)
    requires g != h
    ensures HashFrom(g, suffix) != HashFrom(h, suffix)
  {
    if suffix != [] {
      var front, last := suffix[..|suffix| - 1], suffix[|suffix| - 1];
      CommonSuffixKeepsApart(g, h, front);
      if HashFrom(g, suffix) == HashFrom(h, suffix) {
        AbsorbInjective(HashFrom(g, front), HashFrom(h, front), last, last);
      }
    }
  }

  lemma {:induction false} HashSplits(hash: Word, a: seq<Byte>, b: seq<Byte>)
    ensures HashFrom(hash, a + b) == HashFrom(HashFrom(hash, a), b)
  {
    if b == [] {
      assert a + b == a;
    } else {
      assert (a + b)[..|a + b| - 1] == a + b[..|b| - 1];
      HashSplits(hash, a, b[..|b| - 1]);
    }
  }

  // Two byte strings of one length that differ in exactly one position have different hashes.
  lemma OneByteChangesHash(s: seq<Byte>, t: seq<Byte>, k: nat)
    requires |s| == |t| && k < |s| && s[k] != t[k]
    requires forall i :: 0 <= i < |s| && i != k ==> s[i] == t[i]
    ensures HashFrom(OFFSET_BASIS, s) != HashFrom(OFFSET_BASIS, t)
  {
    var front := HashFrom(OFFSET_BASIS, s[..k]);
    assert s == s[..k + 1] + s[k + 1..] && t == t[..k + 1] + t[k + 1..];
    assert s[..k] == t[..k] && s[k + 1..] == t[k + 1..];
    assert s[..k + 1][..k] == s[..k] && t[..k + 1][..k] == t[..k];
    HashSplits(OFFSET_BASIS, s[..k + 1], s[k + 1..]);
    HashSplits(OFFSET_BASIS, t[..k + 1], t[k + 1..]);
    if Absorb(front, s[k]) == Absorb(front, t[k]) {
      AbsorbInjective(front, front, s[k], t[k]);
    }
    CommonSuffixKeepsApart(Absorb(front, s[k]), Absorb(front, t[k]), s[k + 1..]);
  }

  /* Differences within three bytes */

  lemma XorByteNear(hash: Word, byte: Byte)
    ensures -255 <= XorByte(hash, byte) - hash <= 255
    ensures XorByte(hash, byte) / 256 == hash / 256
  {
    Power2Of8();
    XorBound(hash % 256, byte, 8);
  }

  // A multiple of n that is smaller than n is zero.
  lemma SmallMultiple(n: nat, a: int, m: int)
    requires a < n && -a < n && a == n * m
    ensures m == 0
  {
  }

  // The prime is 2^40 + 435, so a small multiple of it is not small modulo 2^64.
  lemma OnceIsFar(d: int, w: int, k: int)
    requires -255 <= d <= 255 && d != 0 && -255 <= w <= 255
    ensures w != d * PRIME - k * WORD
  {
    if w == d * PRIME - k * WORD {
      assert w - 435 * d == 0x100_0000_0000 * (d - 0x100_0000 * k);
      SmallMultiple(0x100_0000_0000, w - 435 * d, d - 0x100_0000 * k);
    }
  }

  // The square of the prime is 870 * 2^40 + 189225 modulo 2^64.
  lemma TwiceIsFar(d: int, e: int, w: int, k: int)
    requires -255 <= d <= 255 && d != 0 && -510 <= e <= 510 && -255 <= w <= 255
    ensures w != d * (PRIME * PRIME) + e * PRIME - k * WORD
  {
    if w == d * (PRIME * PRIME) + e * PRIME - k * WORD {
      var m := k - 0x1_0000 * d;
      assert PRIME * PRIME == 0x1_0000 * WORD + 870 * 0x100_0000_0000 + 189225;
      assert w - 189225 * d - 435 * e == 0x100_0000_0000 * (870 * d + e - 0x100_0000 * m);
      SmallMultiple(0x100_0000_0000, w - 189225 * d - 435 * e, 870 * d + e - 0x100_0000 * m);
      SmallMultiple(0x100_0000, 870 * d + e, m);
    }
  }

  // What a state was before the wrap-around.
  lemma AbsorbFrom(hash: Word, byte: Byte) returns (q: int)
    ensures Absorb(hash, byte) == XorByte(hash, byte) * PRIME - q * WORD
  {
    q := XorByte(hash, byte) * PRIME / WORD;
  }

  lemma XorsApart(hash: Word, a: Byte, b: Byte)
    requires a != b
    ensures XorByte(hash, a) != XorByte(hash, b)
    ensures -255 <= XorByte(hash, a) - XorByte(hash, b) <= 255
  {
    if XorByte(hash, a) == XorByte(hash, b) {
      XorByteInjective(hash, hash, a, b);
    }
    XorByteNear(hash, a);
    XorByteNear(hash, b);
  }

  // Absorbed into states that are 256 or more apart, any two bytes give different states.
  lemma FarApart(g: Word, h: Word, a: Byte, b: Byte)
    requires g - h > 255 || h - g > 255
    ensures Absorb(g, a) != Absorb(h, b)
  {
    XorByteNear(g, a);
    XorByteNear(h, b);
    if Absorb(g, a) == Absorb(h, b) {
      PrimeCancels(XorByte(g, a), XorByte(h, b));
    }
  }

  predicate Far(g: Word, h: Word) {
    g - h > 255 || h - g > 255
  }

  lemma FarAfterOne(hash: Word, a: Byte, b: Byte)
    requires a != b
    ensures Far(Absorb(hash, a), Absorb(hash, b))
  {
    XorsApart(hash, a, b);
    var p := AbsorbFrom(hash, a);
    var q := AbsorbFrom(hash, b);
    if !Far(Absorb(hash, a), Absorb(hash, b)) {
      OnceIsFar(XorByte(hash, a) - XorByte(hash, b), Absorb(hash, a) - Absorb(hash, b), p - q);
    }
  }

  // Two bytes of which the first differs lead to states far apart.
  lemma FarAfterTwo(hash: Word, a: Byte, b: Byte, x: Byte, y: Byte)
    requires a != b
    ensures Far(Absorb(Absorb(hash, a), x), Absorb(Absorb(hash, b), y))
  {
    var g, h := Absorb(hash, a), Absorb(hash, b);
    XorsApart(hash, a, b);
    XorByteNear(g, x);
    XorByteNear(h, y);
    var p := AbsorbFrom(hash, a);
    var q := AbsorbFrom(hash, b);
    var p2 := AbsorbFrom(g, x);
    var q2 := AbsorbFrom(h, y);
    if !Far(Absorb(g, x), Absorb(h, y)) {
      var d, e := XorByte(hash, a) - XorByte(hash, b), (XorByte(g, x) - g) - (XorByte(h, y) - h);
      assert Absorb(g, x) - Absorb(h, y) == d * (PRIME * PRIME) + e * PRIME - ((p - q) * PRIME + p2 - q2) * WORD;
      TwiceIsFar(d, e, Absorb(g, x) - Absorb(h, y), (p - q) * PRIME + p2 - q2);
    }
  }

  // Three bytes that are not all the same lead to different states.
  lemma ThreeBytesApart(hash: Word, a: Byte, b: Byte, x: Byte, y: Byte, u: Byte, v: Byte)
    requires a != b || x != y || u != v
    ensures Absorb(Absorb(Absorb(hash, a), x), u) != Absorb(Absorb(Absorb(hash, b), y), v)
  {
    if a != b {
      FarAfterTwo(hash, a, b, x, y);
      FarApart(Absorb(Absorb(hash, a), x), Absorb(Absorb(hash, b), y), u, v);
    } else if x != y {
      FarAfterOne(Absorb(hash, a), x, y);
      FarApart(Absorb(Absorb(hash, a), x), Absorb(Absorb(hash, b), y), u, v);
    } else {
      AbsorbDiffers(Absorb(Absorb(hash, a), x), u, v);
    }
  }

  lemma AbsorbDiffers(hash: Word, a: Byte, b: Byte)
    requires a != b
    ensures Absorb(hash, a) != Absorb(hash, b)
  {
    if Absorb(hash, a) == Absorb(hash, b) {
      AbsorbInjective(hash, hash, a, b);
    }
  }

  lemma HashOfThree(hash: Word, a: Byte, x: Byte, u: Byte)
    ensures HashFrom(hash, [a, x, u]) == Absorb(Absorb(Absorb(hash, a), x), u)
  {
    assert [a, x, u][..2] == [a, x] && [a, x][..1] == [a] && [a][..0] == [];
    assert HashFrom(hash, [a, x]) == Absorb(HashFrom(hash, [a]), x);
  }

  // The strings have one length, differ, and agree outside the three places from k on.
  predicate NearAt(s: seq<Byte>, t: seq<Byte>, k: nat) {
    |s| == |t| && s != t && forall i :: 0 <= i < |s| && !(k <= i < k + 3) ==> s[i] == t[i]
  }

  lemma WindowChangesHash(s: seq<Byte>, t: seq<Byte>, k: nat)
    requires NearAt(s, t, k) && k + 3 <= |s|
    ensures HashFrom(OFFSET_BASIS, s) != HashFrom(OFFSET_BASIS, t)
  {
    var front := HashFrom(OFFSET_BASIS, s[..k]);
    assert s == s[..k] + [s[k], s[k + 1], s[k + 2]] + s[k + 3..];
    assert t == t[..k] + [t[k], t[k + 1], t[k + 2]] + t[k + 3..];
    assert s[..k] == t[..k] && s[k + 3..] == t[k + 3..];
    WindowHash(s[..k], s[k], s[k + 1], s[k + 2], s[k + 3..]);
    WindowHash(t[..k], t[k], t[k + 1], t[k + 2], t[k + 3..]);
    ThreeBytesApart(front, s[k], t[k], s[k + 1], t[k + 1], s[k + 2], t[k + 2]);
    CommonSuffixKeepsApart(Absorb(Absorb(Absorb(front, s[k]), s[k + 1]), s[k + 2]),
                           Absorb(Absorb(Absorb(front, t[k]), t[k + 1]), t[k + 2]), s[k + 3..]);
  }

  lemma WindowHash(before: seq<Byte>, a: Byte, x: Byte, u: Byte, after: seq<Byte>)
    ensures HashFrom(OFFSET_BASIS, before + [a, x, u] + after)
         == HashFrom(Absorb(Absorb(Absorb(HashFrom(OFFSET_BASIS, before), a), x), u), after)
  {
    HashSplits(OFFSET_BASIS, before + [a, x, u], after);
    HashSplits(OFFSET_BASIS, before, [a, x, u]);
    HashOfThree(HashFrom(OFFSET_BASIS, before), a, x, u);
  }

  // Two byte strings of one length that differ only within three consecutive places have different
  // hashes: 64 bits do not wrap around far enough for the first difference to be undone.
  lemma ThreeBytesChangeHash(s: seq<Byte>, t: seq<Byte>, k: nat)
    requires NearAt(s, t, k)
    ensures HashFrom(OFFSET_BASIS, s) != HashFrom(OFFSET_BASIS, t)
  {
    var pad: seq<Byte> := [0, 0, 0];
    HashSplits(OFFSET_BASIS, s, pad);
    HashSplits(OFFSET_BASIS, t, pad);
    assert k < |s|;
    assert s == (s + pad)[..|s|] && t == (t + pad)[..|s|];
    WindowChangesHash(s + pad, t + pad, k);
  }

  /* {:016x} */

  function HexDigit(d: nat): char
    requires d < 16
  {
    "0123456789abcdef"[d]
  }

  // The low `width` hexadecimal digits of n, most significant first.
  function Hex(n: nat, width: nat): (s: string)
    ensures |s| == width
  {
    if width == 0 then "" else Hex(n / 16, width - 1) + [HexDigit(n % 16)]
  }

  function Power16(width: nat): nat {
    if width == 0 then 1 else 16 * Power16(width - 1)
  }

  lemma HexDigitInjective(a: nat, b: nat)
    requires a < 16 && b < 16 && HexDigit(a) == HexDigit(b)
    ensures a == b
  {
  }

  // Padded hexadecimal printing is injective on the numbers that fit the width.
  lemma {:induction false} HexInjective(m: nat, n: nat, width: nat)
    requires m < Power16(width) && n < Power16(width) && Hex(m, width) == Hex(n, width)
    ensures m == n
  {
    if width > 0 {
      assert Hex(m, width)[..width - 1] == Hex(m / 16, width - 1);
      assert Hex(n, width)[..width - 1] == Hex(n / 16, width - 1);
      assert Hex(m, width)[width - 1] == HexDigit(m % 16);
      assert Hex(n, width)[width - 1] == HexDigit(n % 16);
      HexDigitInjective(m % 16, n % 16);
      HexInjective(m / 16, n / 16, width - 1);
    }
  }

  // format!("{prefix}{:016x}", fnv1a64(bytes))
  function HashedId(prefix: string, bytes: seq<Byte>): string {
    prefix + Hex(HashFrom(OFFSET_BASIS, bytes), 16)
  }

  // Raw id material of one length that differs in exactly one byte gives different ids.
  lemma OneByteChangesId(prefix: string, s: seq<Byte>, t: seq<Byte>, k: nat)
    requires |s| == |t| && k < |s| && s[k] != t[k]
    requires forall i :: 0 <= i < |s| && i != k ==> s[i] == t[i]
    ensures HashedId(prefix, s) != HashedId(prefix, t)
  {
    OneByteChangesHash(s, t, k);
    HashedIdInjective(prefix, s, t);
  }

  lemma ThreeBytesChangeId(prefix: string, s: seq<Byte>, t: seq<Byte>, k: nat)
    requires NearAt(s, t, k)
    ensures HashedId(prefix, s) != HashedId(prefix, t)
  {
    ThreeBytesChangeHash(s, t, k);
    HashedIdInjective(prefix, s, t);
  }

  lemma HashedIdInjective(prefix: string, s: seq<Byte>, t: seq<Byte>)
    requires HashFrom(OFFSET_BASIS, s) != HashFrom(OFFSET_BASIS, t)
    ensures HashedId(prefix, s) != HashedId(prefix, t)
  {
    var g, h := HashFrom(OFFSET_BASIS, s), HashFrom(OFFSET_BASIS, t);
    Power16Of16();
    if HashedId(prefix, s) == HashedId(prefix, t) {
      CancelPrefix(prefix, Hex(g, 16), Hex(h, 16));
      HexInjective(g, h, 16);
    }
  }

  lemma Power16Of16()
    ensures Power16(16) == 0x1_0000_0000_0000_0000
  {
    assert Power16(4) == 0x1_0000;
    assert Power16(8) == 0x1_0000_0000;
    assert Power16(12) == 0x1_0000_0000_0000;
  }
}
