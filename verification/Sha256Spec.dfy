/** SHA-256 as FIPS 180-4 defines it, on 32-bit words. */
module Sha256Spec {

  type Word = bv32
  type Octet = bv8

  // ---- Functions of section 4.1.2 ----

  /** Addition modulo 2^32. */
  function Add(x: Word, y: Word): Word { x + y }

  lemma SumsAssociate(x: Word, y: Word, z: Word)
    ensures Add(x, y + z) == Add(x + y, z)
  {
  }

  lemma AddIsSum(x: Word, y: Word)
    ensures Add(x, y) == x + y
  {
  }

  lemma AddAssociates(x: Word, y: Word, z: Word)
    ensures Add(x, Add(y, z)) == Add(Add(x, y), z)
  {
    hide Add;
    SumsAssociate(x, y, z);
    AddIsSum(y, z);
    AddIsSum(x, y);
  }

  lemma AddCommutes(x: Word, y: Word)
    ensures Add(x, y) == Add(y, x)
  {
    assert x + y == y + x;
  }

  function Ch(x: Word, y: Word, z: Word): Word { (x & y) ^ (!x & z) }

  function Maj(x: Word, y: Word, z: Word): Word { (x & y) ^ (x & z) ^ (y & z) }

  function BigSigma0(x: Word): Word { x.RotateRight(2) ^ x.RotateRight(13) ^ x.RotateRight(22) }

  function BigSigma1(x: Word): Word { x.RotateRight(6) ^ x.RotateRight(11) ^ x.RotateRight(25) }

  function SmallSigma0(x: Word): Word { x.RotateRight(7) ^ x.RotateRight(18) ^ (x >> 3) }

  function SmallSigma1(x: Word): Word { x.RotateRight(17) ^ x.RotateRight(19) ^ (x >> 10) }

  /** The `i`-th of eight words. */
  function Pick(i: nat, x0: Word, x1: Word, x2: Word, x3: Word, x4: Word, x5: Word, x6: Word, x7: Word): Word {
    if i < 4 then
      if i < 2 then if i < 1 then x0 else x1
      else if i < 3 then x2 else x3
    else
      if i < 6 then if i < 5 then x4 else x5
      else if i < 7 then x6 else x7
  }

  /** The constants of section 4.2.2. */
  function K(t: nat): Word
    requires t < 64
  {
    if t < 32 then
      if t < 16 then
        if t < 8 then
          Pick(t, 0x428a2f98, 0x71374491, 0xb5c0fbcf, 0xe9b5dba5, 0x3956c25b, 0x59f111f1, 0x923f82a4, 0xab1c5ed5)
        else
          Pick(t - 8, 0xd807aa98, 0x12835b01, 0x243185be, 0x550c7dc3, 0x72be5d74, 0x80deb1fe, 0x9bdc06a7, 0xc19bf174)
      else
        if t < 24 then
          Pick(t - 16, 0xe49b69c1, 0xefbe4786, 0x0fc19dc6, 0x240ca1cc, 0x2de92c6f, 0x4a7484aa, 0x5cb0a9dc, 0x76f988da)
        else
          Pick(t - 24, 0x983e5152, 0xa831c66d, 0xb00327c8, 0xbf597fc7, 0xc6e00bf3, 0xd5a79147, 0x06ca6351, 0x14292967)
    else
      if t < 48 then
        if t < 40 then
          Pick(t - 32, 0x27b70a85, 0x2e1b2138, 0x4d2c6dfc, 0x53380d13, 0x650a7354, 0x766a0abb, 0x81c2c92e, 0x92722c85)
        else
          Pick(t - 40, 0xa2bfe8a1, 0xa81a664b, 0xc24b8b70, 0xc76c51a3, 0xd192e819, 0xd6990624, 0xf40e3585, 0x106aa070)
      else
        if t < 56 then
          Pick(t - 48, 0x19a4c116, 0x1e376c08, 0x2748774c, 0x34b0bcb5, 0x391c0cb3, 0x4ed8aa4a, 0x5b9cca4f, 0x682e6ff3)
        else
          Pick(t - 56, 0x748f82ee, 0x78a5636f, 0x84c87814, 0x8cc70208, 0x90befffa, 0xa4506ceb, 0xbef9a3f7, 0xc67178f2)
  }

  // ---- Words and octets ----

  function ReadBE32(b: seq<Octet>): Word
    requires |b| == 4
  {
    (b[0] as Word << 24) | (b[1] as Word << 16) | (b[2] as Word << 8) | b[3] as Word
  }

  function WriteBE32(w: Word): (b: seq<Octet>)
    ensures |b| == 4
  {
    [((w >> 24) & 0xff) as Octet, ((w >> 16) & 0xff) as Octet, ((w >> 8) & 0xff) as Octet, (w & 0xff) as Octet]
  }

  const TWO64: nat := 0x1_0000_0000_0000_0000

  /** A number as eight octets, the most significant one first. */
  function WriteBE64(n: nat): (b: seq<Octet>)
    requires n < TWO64
    ensures |b| == 8
  {
    [(n / 0x100_0000_0000_0000) as Octet, (n / 0x1_0000_0000_0000 % 0x100) as Octet,
     (n / 0x100_0000_0000 % 0x100) as Octet, (n / 0x1_0000_0000 % 0x100) as Octet,
     (n / 0x100_0000 % 0x100) as Octet, (n / 0x1_0000 % 0x100) as Octet,
     (n / 0x100 % 0x100) as Octet, (n % 0x100) as Octet]
  }

  function Zeros(n: nat): (z: seq<Octet>)
    ensures |z| == n
  {
    seq(n, i => 0)
  }

  // ---- Preprocessing, section 5 ----

  /** The least number of zero octets that brings message, 0x80 and zeros to 56 modulo 64. */
  function ZeroCount(length: nat): (z: nat)
    ensures z < 64 && (length + 1 + z) % 64 == 56
  {
    (55 - length) % 64
  }

  /** Section 5.1.1: a one bit, zeros, and the message length in bits. The standard is for
      messages of less than 2^64 bits; longer ones would enter their length modulo 2^64. */
  function Padding(length: nat): (p: seq<Octet>)
    ensures (length + |p|) % 64 == 0
  {
    Multiple64(length + 1 + ZeroCount(length));
    [0x80] + Zeros(ZeroCount(length)) + WriteBE64(8 * length % TWO64)
  }

  lemma Multiple64(n: nat)
    requires n % 64 == 56
    ensures (n + 8) % 64 == 0
  {
  }

  datatype Regs = Regs(a: Word, b: Word, c: Word, d: Word, e: Word, f: Word, g: Word, h: Word)

  /** Section 5.3.3. */
  const INITIAL := Regs(0x6a09e667, 0xbb67ae85, 0x3c6ef372, 0xa54ff53a, 0x510e527f, 0x9b05688c, 0x1f83d9ab, 0x5be0cd19)

  // ---- Hash computation, section 6.2.2 ----

  /** The `t`-th word of a block of 64 octets. */
  function WordAt(block: seq<Octet>, t: nat): Word
    requires |block| == 64 && t < 16
  {
    ReadBE32(block[4 * t..4 * t + 4])
  }

  function ScheduleStep(w2: Word, w7: Word, w15: Word, w16: Word): Word {
    Add(Add(Add(SmallSigma1(w2), w7), SmallSigma0(w15)), w16)
  }

  /** The message schedule: 64 words from 16. */
  function Schedule(block: seq<Octet>, t: nat): Word
    requires |block| == 64 && t < 64
  {
    if t < 16 then WordAt(block, t)
    else
      ScheduleStep(Schedule(block, t - 2), Schedule(block, t - 7), Schedule(block, t - 15), Schedule(block, t - 16))
  }

  function T1(r: Regs, k: Word, w: Word): Word { Add(Add(Add(Add(r.h, BigSigma1(r.e)), Ch(r.e, r.f, r.g)), k), w) }

  function T2(r: Regs): Word { Add(BigSigma0(r.a), Maj(r.a, r.b, r.c)) }

  function Round(r: Regs, k: Word, w: Word): Regs {
    Regs(Add(T1(r, k, w), T2(r)), r.a, r.b, r.c, Add(r.d, T1(r, k, w)), r.e, r.f, r.g)
  }

  function Rounds(r: Regs, block: seq<Octet>, n: nat): Regs
    requires |block| == 64 && n <= 64
  {
    if n == 0 then r else Round(Rounds(r, block, n - 1), K(n - 1), Schedule(block, n - 1))
  }

  function Sum(r: Regs, s: Regs): Regs {
    Regs(Add(r.a, s.a), Add(r.b, s.b), Add(r.c, s.c), Add(r.d, s.d), Add(r.e, s.e), Add(r.f, s.f), Add(r.g, s.g),
      Add(r.h, s.h))
  }

  function Compress(r: Regs, block: seq<Octet>): Regs
    requires |block| == 64
  {
    Sum(r, Rounds(r, block, 64))
  }

  function CompressAll(r: Regs, blocks: seq<Octet>): Regs
    requires |blocks| % 64 == 0
  {
    if blocks == [] then r
    else Compress(CompressAll(r, blocks[..|blocks| - 64]), blocks[|blocks| - 64..])
  }

  function FourWords(w: Word, x: Word, y: Word, z: Word): (b: seq<Octet>)
    ensures |b| == 16
  {
    WriteBE32(w) + WriteBE32(x) + WriteBE32(y) + WriteBE32(z)
  }

  function Output(r: Regs): (b: seq<Octet>)
    ensures |b| == 32
  {
    FourWords(r.a, r.b, r.c, r.d) + FourWords(r.e, r.f, r.g, r.h)
  }

  function Sha256(message: seq<Octet>): (digest: seq<Octet>)
    ensures |digest| == 32
  {
    Output(CompressAll(INITIAL, message + Padding(|message|)))
  }

  /** Compression goes block by block. */
  lemma {:induction false} CompressAppend(r: Regs, x: seq<Octet>, y: seq<Octet>)
    requires |x| % 64 == 0 && |y| % 64 == 0
    ensures CompressAll(r, x + y) == CompressAll(CompressAll(r, x), y)
    decreases |y|
  {
    hide Compress;
    if y == [] {
      assert x + y == x;
    } else {
      var front, last := y[..|y| - 64], y[|y| - 64..];
      CompressAppend(r, x, front);
      assert (x + y)[..|x + y| - 64] == x + front && (x + y)[|x + y| - 64..] == last;
    }
  }

  lemma CompressOne(r: Regs, block: seq<Octet>)
    requires |block| == 64
    ensures CompressAll(r, block) == Compress(r, block)
  {
    hide Compress;
    assert block[..0] == [] && block[0..] == block;
  }
}
