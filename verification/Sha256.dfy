/** The scalar SHA-256 of 3rdparty/crypto/sha256.cpp: the in-place transform with rotated
    registers and a 16-word rolling schedule, and the streaming hasher. */
module Sha256Impl {
  import opened Sha256Spec

  // ---- The source's forms of the functions ----

  function SrcCh(x: Word, y: Word, z: Word): Word { z ^ (x & (y ^ z)) }

  function SrcMaj(x: Word, y: Word, z: Word): Word { (x & y) | (z & (x | y)) }

  function SrcBigSigma0(x: Word): Word { ((x >> 2) | (x << 30)) ^ ((x >> 13) | (x << 19)) ^ ((x >> 22) | (x << 10)) }

  function SrcBigSigma1(x: Word): Word { ((x >> 6) | (x << 26)) ^ ((x >> 11) | (x << 21)) ^ ((x >> 25) | (x << 7)) }

  function SrcSmallSigma0(x: Word): Word { ((x >> 7) | (x << 25)) ^ ((x >> 18) | (x << 14)) ^ (x >> 3) }

  function SrcSmallSigma1(x: Word): Word { ((x >> 17) | (x << 15)) ^ ((x >> 19) | (x << 13)) ^ (x >> 10) }

  lemma ChooseAgrees(x: Word, y: Word, z: Word)
    ensures SrcCh(x, y, z) == Ch(x, y, z)
  {
    assert z ^ (x & (y ^ z)) == (x & y) ^ (!x & z);
  }

  lemma MajorityAgrees(x: Word, y: Word, z: Word)
    ensures SrcMaj(x, y, z) == Maj(x, y, z)
  {
    assert (x & y) | (z & (x | y)) == (x & y) ^ (x & z) ^ (y & z);
  }

  lemma BigSigmasAgree(x: Word)
    ensures SrcBigSigma0(x) == BigSigma0(x) && SrcBigSigma1(x) == BigSigma1(x)
  {
    assert (x >> 2) | (x << 30) == x.RotateRight(2) && (x >> 13) | (x << 19) == x.RotateRight(13)
      && (x >> 22) | (x << 10) == x.RotateRight(22);
    assert (x >> 6) | (x << 26) == x.RotateRight(6) && (x >> 11) | (x << 21) == x.RotateRight(11)
      && (x >> 25) | (x << 7) == x.RotateRight(25);
  }

  lemma SmallSigmasAgree(x: Word)
    ensures SrcSmallSigma0(x) == SmallSigma0(x) && SrcSmallSigma1(x) == SmallSigma1(x)
  {
    assert (x >> 7) | (x << 25) == x.RotateRight(7) && (x >> 18) | (x << 14) == x.RotateRight(18);
    assert (x >> 17) | (x << 15) == x.RotateRight(17) && (x >> 19) | (x << 13) == x.RotateRight(19);
  }

  // ---- Rounds on rotating registers ----

  /** Which register plays the part of the `j`-th one in round `i`. */
  function Pos(i: nat, j: nat): (p: nat)
    ensures p < 8
  {
    (j - i) % 8
  }

  /** The registers in the order in which round `i` takes them. */
  function Seen(r: seq<Word>, i: nat): Regs
    requires |r| == 8
  {
    Regs(r[Pos(i, 0)], r[Pos(i, 1)], r[Pos(i, 2)], r[Pos(i, 3)], r[Pos(i, 4)], r[Pos(i, 5)], r[Pos(i, 6)], r[Pos(i, 7)])
  }

  /** What a round leaves in its two output registers. */
  function RoundOut(x: Regs, k: Word): (Word, Word) {
    var t1 := Add(Add(Add(x.h, SrcBigSigma1(x.e)), SrcCh(x.e, x.f, x.g)), k);
    var t2 := Add(SrcBigSigma0(x.a), SrcMaj(x.a, x.b, x.c));
    (Add(x.d, t1), Add(t1, t2))
  }

  lemma RoundOutAgrees(x: Regs, k: Word, w: Word)
    ensures RoundOut(x, Add(k, w)) == (Add(x.d, T1(x, k, w)), Add(T1(x, k, w), T2(x)))
  {
    hide Add, BigSigma0, BigSigma1, Ch, Maj, SrcBigSigma0, SrcBigSigma1, SrcCh, SrcMaj;
    BigSigmasAgree(x.a);
    BigSigmasAgree(x.e);
    ChooseAgrees(x.e, x.f, x.g);
    MajorityAgrees(x.a, x.b, x.c);
    AddAssociates(Add(Add(x.h, BigSigma1(x.e)), Ch(x.e, x.f, x.g)), k, w);
  }

  /** The parts move on by one register each round. */
  lemma PosMoves(i: nat, j: nat)
    ensures Pos(i + 1, j + 1) == Pos(i, j) && Pos(i + 1, 0) == Pos(i, 7)
  {
    var x := -(i + 1);
    assert (x + 8) % 8 == x % 8;
  }

  lemma PosApart(i: nat, j: nat, k: nat)
    requires j < 8 && k < 8 && j != k
    ensures Pos(i, j) != Pos(i, k)
  {
  }

  /** Writing two registers of round `i` and renaming gives the registers of the next round. */
  lemma RotateRegisters(r: seq<Word>, i: nat, d: Word, h: Word)
    requires |r| == 8
    ensures var x := Seen(r, i);
            Pos(i, 3) != Pos(i, 7) && Seen(r[Pos(i, 3) := d][Pos(i, 7) := h], i + 1) == Regs(h, x.a, x.b, x.c, d, x.e,
              x.f, x.g)
  {
    forall j: nat ensures Pos(i + 1, j + 1) == Pos(i, j) && Pos(i + 1, 0) == Pos(i, 7) {
      PosMoves(i, j);
    }
    forall j: nat, k: nat | j < 8 && k < 8 && j != k ensures Pos(i, j) != Pos(i, k) {
      PosApart(i, j, k);
    }
    hide Pos;
    assert Pos(i + 1, 1) == Pos(i + 1, 0 + 1) == Pos(i, 0) && Pos(i + 1, 2) == Pos(i + 1, 1 + 1) == Pos(i, 1);
    assert Pos(i + 1, 3) == Pos(i + 1, 2 + 1) == Pos(i, 2) && Pos(i + 1, 4) == Pos(i + 1, 3 + 1) == Pos(i, 3);
    assert Pos(i + 1, 5) == Pos(i + 1, 4 + 1) == Pos(i, 4) && Pos(i + 1, 6) == Pos(i + 1, 5 + 1) == Pos(i, 5);
    assert Pos(i + 1, 7) == Pos(i + 1, 6 + 1) == Pos(i, 6);
  }

  /** One round in place, given the sum of its constant and its word. */
  method RoundInPlace(r: array<Word>, i: nat, sum: Word, ghost k: Word, ghost w: Word)
    requires r.Length == 8 && sum == Add(k, w)
    modifies r
    ensures Seen(r[..], i + 1) == Round(Seen(old(r[..]), i), k, w)
  {
    hide Add, RoundOut, T1, T2, Seen, Pos;
    RoundOutAgrees(Seen(r[..], i), k, w);
    var out := RoundOut(Seen(r[..], i), sum);
    RotateRegisters(r[..], i, out.0, out.1);
    r[Pos(i, 3)] := out.0;
    r[Pos(i, 7)] := out.1;
    assert r[..] == old(r[..])[Pos(i, 3) := out.0][Pos(i, 7) := out.1];
  }

  // ---- The rolling schedule ----

  /** The window holds the last sixteen words of the schedule before round `i`. */
  ghost predicate Window(w: seq<Word>, block: seq<Octet>, i: nat)
    requires |block| == 64
  {
    |w| == 16 && i <= 64 && forall t :: 0 <= t < i && i <= t + 16 ==> w[t % 16] == Schedule(block, t)
  }

  function RollingWord(w: seq<Word>, i: nat): Word
    requires |w| == 16
  {
    Add(w[i % 16], Add(Add(SrcSmallSigma1(w[(i + 14) % 16]), w[(i + 9) % 16]), SrcSmallSigma0(w[(i + 1) % 16])))
  }

  function NextWord(w: seq<Word>, block: seq<Octet>, i: nat): Word
    requires |w| == 16 && |block| == 64 && i < 64
  {
    if i < 16 then ReadBE32(block[4 * i..4 * i + 4]) else RollingWord(w, i)
  }

  lemma NextWordAgrees(w: seq<Word>, block: seq<Octet>, i: nat)
    requires |block| == 64 && i < 64 && Window(w, block, i)
    ensures NextWord(w, block, i) == Schedule(block, i)
  {
    hide Add, SmallSigma0, SmallSigma1, SrcSmallSigma0, SrcSmallSigma1, ReadBE32;
    if i >= 16 {
      SmallSigmasAgree(w[(i + 14) % 16]);
      SmallSigmasAgree(w[(i + 1) % 16]);
      assert (i - 2) % 16 == (i + 14) % 16 && (i - 7) % 16 == (i + 9) % 16 && (i - 15) % 16 == (i + 1) % 16
        && (i - 16) % 16 == i % 16;
      assert w[(i - 2) % 16] == Schedule(block, i - 2) && w[(i - 7) % 16] == Schedule(block, i - 7);
      assert w[(i - 15) % 16] == Schedule(block, i - 15) && w[(i - 16) % 16] == Schedule(block, i - 16);
      AddCommutes(w[i % 16], Add(Add(SmallSigma1(w[(i + 14) % 16]), w[(i + 9) % 16]), SmallSigma0(w[(i + 1) % 16])));
    }
  }

  lemma WindowMoves(w: seq<Word>, block: seq<Octet>, i: nat)
    requires |block| == 64 && i < 64 && Window(w, block, i)
    ensures NextWord(w, block, i) == Schedule(block, i)
    ensures Window(w[i % 16 := NextWord(w, block, i)], block, i + 1)
  {
    hide Schedule, NextWord;
    NextWordAgrees(w, block, i);
    var w' := w[i % 16 := NextWord(w, block, i)];
    forall t | 0 <= t < i + 1 && i + 1 <= t + 16 ensures w'[t % 16] == Schedule(block, t) {
      if t != i { assert t % 16 != i % 16; }
    }
  }

  // ---- The transform ----

  function RegsOf(s: seq<Word>): Regs
    requires |s| == 8
  {
    Regs(s[0], s[1], s[2], s[3], s[4], s[5], s[6], s[7])
  }

  lemma SeenAligned(r: seq<Word>)
    requires |r| == 8
    ensures Seen(r, 0) == RegsOf(r) && Seen(r, 64) == RegsOf(r)
  {
  }

  /** One round and the word of the schedule it takes. */
  method RoundStep(r: array<Word>, w: array<Word>, block: seq<Octet>, i: nat)
    requires r.Length == 8 && w.Length == 16 && r != w && |block| == 64 && i < 64 && Window(w[..], block, i)
    modifies r, w
    ensures Window(w[..], block, i + 1)
    ensures Seen(r[..], i + 1) == Round(Seen(old(r[..]), i), K(i), Schedule(block, i))
  {
    hide Add, Seen, Round, Schedule, K, Window, NextWord, ReadBE32;
    WindowMoves(w[..], block, i);
    w[i % 16] := NextWord(w[..], block, i);
    assert w[..] == old(w[..])[i % 16 := NextWord(old(w[..]), block, i)];
    RoundInPlace(r, i, Add(K(i), w[i % 16]), K(i), w[i % 16]);
  }

  /** The 64 rounds on one block, register by register and word by word in place. */
  method RunRounds(r: array<Word>, block: seq<Octet>)
    requires r.Length == 8 && |block| == 64
    modifies r
    ensures RegsOf(r[..]) == Rounds(RegsOf(old(r[..])), block, 64)
  {
    hide Add, Seen, Round, Rounds, RegsOf, Schedule, K, Window;
    var w := new Word[16](i => 0);
    ghost var start := RegsOf(r[..]);
    SeenAligned(r[..]);
    RoundsStart(start, block, w[..]);
    for i := 0 to 64
      invariant Seen(r[..], i) == Rounds(start, block, i)
      invariant Window(w[..], block, i)
    {
      NextRound(start, block, i);
      RoundStep(r, w, block, i);
    }
    SeenAligned(r[..]);
  }

  lemma RoundsStart(start: Regs, block: seq<Octet>, w: seq<Word>)
    requires |block| == 64 && |w| == 16
    ensures Rounds(start, block, 0) == start && Window(w, block, 0)
  {
  }

  lemma NextRound(start: Regs, block: seq<Octet>, i: nat)
    requires |block| == 64 && i < 64
    ensures Rounds(start, block, i + 1) == Round(Rounds(start, block, i), K(i), Schedule(block, i))
  {
    hide Round, K, Schedule;
  }

  method TransformBlock(s: array<Word>, block: seq<Octet>)
    requires s.Length == 8 && |block| == 64
    modifies s
    ensures RegsOf(s[..]) == Compress(RegsOf(old(s[..])), block)
  {
    hide Add, Rounds;
    var r := new Word[8](i requires 0 <= i < 8 reads s => s[i]);
    assert r[..] == s[..];
    RunRounds(r, block);
    s[0], s[1], s[2], s[3] := Add(s[0], r[0]), Add(s[1], r[1]), Add(s[2], r[2]), Add(s[3], r[3]);
    s[4], s[5], s[6], s[7] := Add(s[4], r[4]), Add(s[5], r[5]), Add(s[6], r[6]), Add(s[7], r[7]);
  }

  method Transform(s: array<Word>, chunk: seq<Octet>, blocks: nat)
    requires s.Length == 8 && |chunk| == 64 * blocks
    modifies s
    ensures RegsOf(s[..]) == CompressAll(RegsOf(old(s[..])), chunk)
  {
    hide Compress;
    var left, pos := blocks, 0;
    ghost var start := RegsOf(s[..]);
    while left > 0
      invariant 0 <= left <= blocks && pos == 64 * (blocks - left)
      invariant pos <= |chunk| && pos % 64 == 0
      invariant RegsOf(s[..]) == CompressAll(start, chunk[..pos])
    {
      TransformBlock(s, chunk[pos..pos + 64]);
      assert chunk[..pos + 64][..pos] == chunk[..pos] && chunk[..pos + 64][pos..] == chunk[pos..pos + 64];
      left, pos := left - 1, pos + 64;
    }
    assert chunk[..pos] == chunk;
  }

  // ---- The streaming hasher ----

  function Whole(m: seq<Octet>): seq<Octet> { m[..|m| - |m| % 64] }

  function Rest(m: seq<Octet>): (r: seq<Octet>)
    ensures |r| == |m| % 64
  {
    m[|m| - |m| % 64..]
  }

  /** The registers after the whole blocks of a message. */
  ghost predicate Absorbed(r: Regs, m: seq<Octet>) { r == CompressAll(INITIAL, Whole(m)) }

  lemma AbsorbBuffer(r: Regs, m: seq<Octet>, data: seq<Octet>)
    requires Absorbed(r, m) && |data| == 64 - |m| % 64
    ensures Absorbed(Compress(r, Rest(m) + data), m + data) && Rest(m + data) == []
  {
    hide Compress;
    assert |m + data| % 64 == 0;
    assert Whole(m + data) == Whole(m) + (Rest(m) + data);
    CompressAppend(INITIAL, Whole(m), Rest(m) + data);
    CompressOne(r, Rest(m) + data);
  }

  lemma AlignedSum(a: nat, b: nat)
    requires a % 64 == 0 && b % 64 == 0
    ensures (a + b) % 64 == 0
  {
  }

  lemma AlignedWhole(m: seq<Octet>)
    requires |m| % 64 == 0
    ensures Whole(m) == m && Rest(m) == []
  {
  }

  lemma AbsorbedAligned(r: Regs, m: seq<Octet>)
    requires |m| % 64 == 0
    ensures Absorbed(r, m) <==> r == CompressAll(INITIAL, m)
  {
    hide CompressAll;
    AlignedWhole(m);
  }

  lemma AbsorbBlocks(r: Regs, m: seq<Octet>, data: seq<Octet>)
    requires Absorbed(r, m) && |m| % 64 == 0 && |data| % 64 == 0
    ensures Absorbed(CompressAll(r, data), m + data) && Rest(m + data) == []
  {
    hide CompressAll, Absorbed, Rest, Whole;
    AlignedSum(|m|, |data|);
    AbsorbedAligned(r, m);
    CompressAppend(INITIAL, m, data);
    AbsorbedAligned(CompressAll(r, data), m + data);
    AlignedWhole(m + data);
  }

  lemma AbsorbNothing(r: Regs, m: seq<Octet>, data: seq<Octet>)
    requires Absorbed(r, m) && |m| % 64 + |data| < 64
    ensures Absorbed(r, m + data) && Rest(m + data) == Rest(m) + data
  {
    hide CompressAll;
    assert |m + data| % 64 == |m| % 64 + |data|;
    assert Whole(m + data) == Whole(m);
  }

  // ---- The 64-bit byte count ----

  function Wrapped(n: nat): nat { n % TWO64 }

  lemma WrapAdds(n: nat, k: nat)
    ensures Wrapped(Wrapped(n) + k) == Wrapped(n + k)
  {
    var q, r := n / TWO64, n % TWO64;
    Modulo(q, r + k);
    assert n + k == q * TWO64 + (r + k);
  }

  lemma WrapKeeps(n: nat)
    ensures Wrapped(n) % 64 == n % 64 && Wrapped(8 * Wrapped(n)) == Wrapped(8 * n) && Wrapped(n) < TWO64
  {
    var q, r := n / TWO64, n % TWO64;
    assert n == q * TWO64 + r;
    assert 8 * n == (8 * q) * TWO64 + 8 * r;
    Modulo(8 * q, 8 * r);
  }

  lemma Modulo(q: nat, x: nat)
    ensures (q * TWO64 + x) % TWO64 == x % TWO64
  {
  }

  lemma PiecesJoin(m: seq<Octet>, data: seq<Octet>, n: nat)
    requires n <= |data|
    ensures m + data[..n] + data[n..] == m + data
  {
    assert data == data[..n] + data[n..];
  }

  lemma BlockCount(n: nat)
    ensures 64 * (n / 64) <= n < 64 * (n / 64) + 64 && 64 * (n / 64) % 64 == 0
  {
  }

  class Hasher {
    const s: array<Word>
    const buf: array<Octet>
    var bytes: nat
    ghost var written: seq<Octet>

    ghost predicate Valid()
      reads this, s, buf
    {
      && s.Length == 8 && buf.Length == 64
      && bytes == Wrapped(|written|)
      && Absorbed(RegsOf(s[..]), written)
      && buf[..|written| % 64] == Rest(written)
    }

    constructor ()
      ensures Valid() && fresh(s) && fresh(buf) && written == []
    {
      s := new Word[8];
      buf := new Octet[64];
      bytes := 0;
      written := [];
      new;
      Initialize(s);
    }

    method Reset()
      requires Valid()
      modifies this, s
      ensures Valid() && written == []
    {
      bytes := 0;
      Initialize(s);
      written := [];
    }

    /** Copies `data` into the buffer, after what it already holds. */
    method CopyIn(data: seq<Octet>)
      requires Valid() && |written| % 64 + |data| <= 64
      modifies buf
      ensures buf[..|written| % 64 + |data|] == Rest(written) + data
    {
      WrapKeeps(|written|);
      hide Absorbed, Wrapped, Rest, RegsOf;
      var size := bytes % 64;
      ghost var rest := buf[..size];
      forall i | 0 <= i < |data| { buf[size + i] := data[i]; }
      assert forall k :: 0 <= k < size ==> buf[k] == rest[k];
      assert buf[..size + |data|] == rest + data;
    }

    /** Fills the buffer and processes it. */
    method FillBuffer(data: seq<Octet>)
      requires Valid() && |data| == 64 - |written| % 64
      modifies this, s, buf
      ensures Valid() && written == old(written) + data && |written| % 64 == 0
    {
      hide Absorbed, Wrapped, Compress;
      WrapAdds(|written|, |data|);
      AbsorbBuffer(RegsOf(s[..]), written, data);
      CopyIn(data);
      assert buf[..] == buf[..64];
      TransformBlock(s, buf[..]);
      bytes := Wrapped(bytes + |data|);
      written := written + data;
    }

    /** Processes whole blocks straight from the input. */
    method TakeBlocks(data: seq<Octet>)
      requires Valid() && |written| % 64 == 0 && |data| % 64 == 0
      modifies this, s
      ensures Valid() && written == old(written) + data && |written| % 64 == 0
    {
      hide Absorbed, Wrapped, CompressAll;
      WrapAdds(|written|, |data|);
      AbsorbBlocks(RegsOf(s[..]), written, data);
      Transform(s, data, |data| / 64);
      bytes := Wrapped(bytes + |data|);
      written := written + data;
    }

    /** Keeps what does not fill the buffer. */
    method KeepRest(data: seq<Octet>)
      requires Valid() && |written| % 64 + |data| < 64
      modifies this, buf
      ensures Valid() && written == old(written) + data
    {
      hide Absorbed, Wrapped;
      WrapAdds(|written|, |data|);
      AbsorbNothing(RegsOf(s[..]), written, data);
      CopyIn(data);
      bytes := Wrapped(bytes + |data|);
      written := written + data;
    }

    /** Any split of a message into writes leaves the hasher with the whole message. */
    method Write(data: seq<Octet>)
      requires Valid()
      modifies this, s, buf
      ensures Valid() && written == old(written) + data
    {
      hide *;
      var size := Buffered();
      var left := data;
      if size != 0 && size + |data| >= 64 {
        FillBuffer(data[..64 - size]);
        left := data[64 - size..];
        PiecesJoin(old(written), data, 64 - size);
      }
      WriteRest(left);
    }

    /** The part of a write that starts on a block boundary, or fits into the buffer. */
    method WriteRest(data: seq<Octet>)
      requires Valid() && (|written| % 64 == 0 || |written| % 64 + |data| < 64)
      modifies this, s, buf
      ensures Valid() && written == old(written) + data
    {
      hide *;
      var left := data;
      if |data| >= 64 {
        BlockCount(|data|);
        var n := 64 * (|data| / 64);
        TakeBlocks(data[..n]);
        left := data[n..];
        PiecesJoin(old(written), data, n);
      }
      if |left| > 0 {
        KeepRest(left);
      }
    }

    /** How much of the buffer is in use. */
    method Buffered() returns (size: nat)
      requires Valid()
      ensures size == |written| % 64
    {
      WrapKeeps(|written|);
      size := bytes % 64;
    }

    /** The digest of everything that was written. */
    method Finalize() returns (hash: seq<Octet>)
      requires Valid()
      modifies this, s, buf
      ensures hash == Sha256(old(written))
    {
      WrapKeeps(|written|);
      var size := WriteBE64(Wrapped(8 * bytes));
      var pad := PadOctets(bytes % 64);
      ghost var message := written;
      hide Absorbed, Wrapped, Valid;
      Write(pad);
      Write(size);
      PaddingIs(message, pad, size);
      assert written == message + Padding(|message|);
      hash := ReadOut();
    }

    method ReadOut() returns (hash: seq<Octet>)
      requires Valid() && |written| % 64 == 0
      ensures hash == Output(CompressAll(INITIAL, written))
    {
      hide CompressAll, WriteBE32;
      assert Whole(written) == written;
      hash := FourWords(s[0], s[1], s[2], s[3]) + FourWords(s[4], s[5], s[6], s[7]);
    }
  }

  method Initialize(s: array<Word>)
    requires s.Length == 8
    modifies s
    ensures RegsOf(s[..]) == INITIAL
  {
    s[0], s[1], s[2], s[3] := 0x6a09e667, 0xbb67ae85, 0x3c6ef372, 0xa54ff53a;
    s[4], s[5], s[6], s[7] := 0x510e527f, 0x9b05688c, 0x1f83d9ab, 0x5be0cd19;
  }

  /** The octets that go before the length: as many as bring the last block to 56. */
  function PadOctets(size: nat): (pad: seq<Octet>)
    requires size < 64
    ensures |pad| == 1 + (119 - size) % 64
  {
    ([0x80] + Zeros(63))[..1 + (119 - size) % 64]
  }

  lemma PaddingIs(message: seq<Octet>, pad: seq<Octet>, size: seq<Octet>)
    requires pad == PadOctets(|message| % 64) && size == WriteBE64(8 * |message| % TWO64)
    ensures message + pad + size == message + Padding(|message|)
    ensures |message + pad + size| % 64 == 0
  {
    hide WriteBE64;
    ZerosNeeded(|message|);
    hide ZeroCount;
    assert pad == [0x80] + Zeros(ZeroCount(|message|));
  }

  lemma ZerosNeeded(n: nat)
    ensures (119 - n % 64) % 64 == ZeroCount(n)
  {
    assert n == 64 * (n / 64) + n % 64;
  }

  function Flatten(pieces: seq<seq<Octet>>): seq<Octet> {
    if pieces == [] then [] else Flatten(pieces[..|pieces| - 1]) + pieces[|pieces| - 1]
  }

  /** For every message and every split of it into writes, the digest is SHA-256 of the whole. */
  method HashPieces(pieces: seq<seq<Octet>>) returns (digest: seq<Octet>)
    ensures digest == Sha256(Flatten(pieces))
  {
    hide Sha256, Absorbed;
    var hasher := new Hasher();
    for i := 0 to |pieces|
      invariant hasher.Valid() && fresh(hasher) && fresh(hasher.s) && fresh(hasher.buf)
      invariant hasher.written == Flatten(pieces[..i])
    {
      assert pieces[..i + 1][..i] == pieces[..i];
      hasher.Write(pieces[i]);
    }
    assert pieces[..|pieces|] == pieces;
    digest := hasher.Finalize();
  }
}
