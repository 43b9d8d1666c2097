/** The specialised double SHA-256 of 64-octet inputs (3rdparty/crypto/sha256.cpp): three
    transforms with the padding blocks folded into constants. */
module Sha256D64 {
  import opened Sha256Spec
  import opened Sha256Impl
  import opened Basics

  // ---- The padding block of a 64-octet message ----

  const PADDING1: seq<Octet> := [0x80] + Zeros(61) + [2, 0]

  /** Its message schedule. */
  function PadW(t: nat): Word
    requires t < 64
  {
    if t < 32 then
      if t < 16 then
        if t < 8 then
          Pick(t, 0x80000000, 0x00000000, 0x00000000, 0x00000000, 0x00000000, 0x00000000, 0x00000000, 0x00000000)
        else
          Pick(t - 8, 0x00000000, 0x00000000, 0x00000000, 0x00000000, 0x00000000, 0x00000000, 0x00000000, 0x00000200)
      else
        if t < 24 then
          Pick(t - 16, 0x80000000, 0x01400000, 0x00205000, 0x00005088, 0x22000800, 0x22550014, 0x05089742, 0xa0000020)
        else
          Pick(t - 24, 0x5a880000, 0x005c9400, 0x0016d49d, 0xfa801f00, 0xd33225d0, 0x11675959, 0xf6e6bfda, 0xb30c1549)
    else
      if t < 48 then
        if t < 40 then
          Pick(t - 32, 0x08b2b050, 0x9d7c4c27, 0x0ce2a393, 0x88e6e1ea, 0xa52b4335, 0x67a16f49, 0xd732016f, 0x4eeb2e91)
        else
          Pick(t - 40, 0x5dbf55e5, 0x8eee2335, 0xe2bc5ec2, 0xa83f4394, 0x45ad78f7, 0x36f3d0cd, 0xd99c05e8, 0xb0511dc7)
      else
        if t < 56 then
          Pick(t - 48, 0x69bc7ac4, 0xbd11375b, 0xe3ba71e5, 0x3b209ff2, 0x18feee17, 0xe25ad9e7, 0x13375046, 0x0515089d)
        else
          Pick(t - 56, 0x4f0d0f04, 0x2627484e, 0x310128d2, 0xc668b434, 0x420841cc, 0x62d311b8, 0xe59ba771, 0x85a7a484)
  }

  /** The constants of the second transform. */
  function PadSum(t: nat): Word
    requires t < 64
  {
    if t < 32 then
      if t < 16 then
        if t < 8 then
          Pick(t, 0xc28a2f98, 0x71374491, 0xb5c0fbcf, 0xe9b5dba5, 0x3956c25b, 0x59f111f1, 0x923f82a4, 0xab1c5ed5)
        else
          Pick(t - 8, 0xd807aa98, 0x12835b01, 0x243185be, 0x550c7dc3, 0x72be5d74, 0x80deb1fe, 0x9bdc06a7, 0xc19bf374)
      else
        if t < 24 then
          Pick(t - 16, 0x649b69c1, 0xf0fe4786, 0x0fe1edc6, 0x240cf254, 0x4fe9346f, 0x6cc984be, 0x61b9411e, 0x16f988fa)
        else
          Pick(t - 24, 0xf2c65152, 0xa88e5a6d, 0xb019fc65, 0xb9d99ec7, 0x9a1231c3, 0xe70eeaa0, 0xfdb1232b, 0xc7353eb0)
    else
      if t < 48 then
        if t < 40 then
          Pick(t - 32, 0x3069bad5, 0xcb976d5f, 0x5a0f118f, 0xdc1eeefd, 0x0a35b689, 0xde0b7a04, 0x58f4ca9d, 0xe15d5b16)
        else
          Pick(t - 40, 0x007f3e86, 0x37088980, 0xa507ea32, 0x6fab9537, 0x17406110, 0x0d8cd6f1, 0xcdaa3b6d, 0xc0bbbe37)
      else
        if t < 56 then
          Pick(t - 48, 0x83613bda, 0xdb48a363, 0x0b02e931, 0x6fd15ca7, 0x521afaca, 0x31338431, 0x6ed41a95, 0x6d437890)
        else
          Pick(t - 56, 0xc39c91f2, 0x9eccabbd, 0xb5c9a0e6, 0x532fb63c, 0xd2c741c6, 0x07237ea3, 0xa4954b68, 0x4c191d76)
  }

  predicate PadStepOk(t: int) {
    16 <= t < 64 ==> PadW(t) == ScheduleStep(PadW(t - 2), PadW(t - 7), PadW(t - 15), PadW(t - 16))
  }

  predicate SumOk(t: int) { 0 <= t < 64 ==> PadSum(t) == Add(K(t), PadW(t)) }

  lemma PadSteps16()
    ensures forall t :: 16 <= t < 24 ==> PadStepOk(t)
  {
    assert PadStepOk(16);
    assert PadStepOk(17);
    assert PadStepOk(18);
    assert PadStepOk(19);
    assert PadStepOk(20);
    assert PadStepOk(21);
    assert PadStepOk(22);
    assert PadStepOk(23);
  }

  lemma PadSteps24()
    ensures forall t :: 24 <= t < 32 ==> PadStepOk(t)
  {
    assert PadStepOk(24);
    assert PadStepOk(25);
    assert PadStepOk(26);
    assert PadStepOk(27);
    assert PadStepOk(28);
    assert PadStepOk(29);
    assert PadStepOk(30);
    assert PadStepOk(31);
  }

  lemma PadSteps32()
    ensures forall t :: 32 <= t < 40 ==> PadStepOk(t)
  {
    assert PadStepOk(32);
    assert PadStepOk(33);
    assert PadStepOk(34);
    assert PadStepOk(35);
    assert PadStepOk(36);
    assert PadStepOk(37);
    assert PadStepOk(38);
    assert PadStepOk(39);
  }

  lemma PadSteps40()
    ensures forall t :: 40 <= t < 48 ==> PadStepOk(t)
  {
    assert PadStepOk(40);
    assert PadStepOk(41);
    assert PadStepOk(42);
    assert PadStepOk(43);
    assert PadStepOk(44);
    assert PadStepOk(45);
    assert PadStepOk(46);
    assert PadStepOk(47);
  }

  lemma PadSteps48()
    ensures forall t :: 48 <= t < 56 ==> PadStepOk(t)
  {
    assert PadStepOk(48);
    assert PadStepOk(49);
    assert PadStepOk(50);
    assert PadStepOk(51);
    assert PadStepOk(52);
    assert PadStepOk(53);
    assert PadStepOk(54);
    assert PadStepOk(55);
  }

  lemma PadSteps56()
    ensures forall t :: 56 <= t < 64 ==> PadStepOk(t)
  {
    assert PadStepOk(56);
    assert PadStepOk(57);
    assert PadStepOk(58);
    assert PadStepOk(59);
    assert PadStepOk(60);
    assert PadStepOk(61);
    assert PadStepOk(62);
    assert PadStepOk(63);
  }

  lemma PadSums0()
    ensures forall t :: 0 <= t < 4 ==> SumOk(t)
  {
    assert SumOk(0);
    assert SumOk(1);
    assert SumOk(2);
    assert SumOk(3);
  }

  lemma PadSums4()
    ensures forall t :: 4 <= t < 8 ==> SumOk(t)
  {
    assert SumOk(4);
    assert SumOk(5);
    assert SumOk(6);
    assert SumOk(7);
  }

  lemma PadSums8()
    ensures forall t :: 8 <= t < 12 ==> SumOk(t)
  {
    assert SumOk(8);
    assert SumOk(9);
    assert SumOk(10);
    assert SumOk(11);
  }

  lemma PadSums12()
    ensures forall t :: 12 <= t < 16 ==> SumOk(t)
  {
    assert SumOk(12);
    assert SumOk(13);
    assert SumOk(14);
    assert SumOk(15);
  }

  lemma PadSums16()
    ensures forall t :: 16 <= t < 24 ==> SumOk(t)
  {
    assert SumOk(16);
    assert SumOk(17);
    assert SumOk(18);
    assert SumOk(19);
    assert SumOk(20);
    assert SumOk(21);
    assert SumOk(22);
    assert SumOk(23);
  }

  lemma PadSums24()
    ensures forall t :: 24 <= t < 32 ==> SumOk(t)
  {
    assert SumOk(24);
    assert SumOk(25);
    assert SumOk(26);
    assert SumOk(27);
    assert SumOk(28);
    assert SumOk(29);
    assert SumOk(30);
    assert SumOk(31);
  }

  lemma PadSums32()
    ensures forall t :: 32 <= t < 40 ==> SumOk(t)
  {
    assert SumOk(32);
    assert SumOk(33);
    assert SumOk(34);
    assert SumOk(35);
    assert SumOk(36);
    assert SumOk(37);
    assert SumOk(38);
    assert SumOk(39);
  }

  lemma PadSums40()
    ensures forall t :: 40 <= t < 48 ==> SumOk(t)
  {
    assert SumOk(40);
    assert SumOk(41);
    assert SumOk(42);
    assert SumOk(43);
    assert SumOk(44);
    assert SumOk(45);
    assert SumOk(46);
    assert SumOk(47);
  }

  lemma PadSums48()
    ensures forall t :: 48 <= t < 56 ==> SumOk(t)
  {
    assert SumOk(48);
    assert SumOk(49);
    assert SumOk(50);
    assert SumOk(51);
    assert SumOk(52);
    assert SumOk(53);
    assert SumOk(54);
    assert SumOk(55);
  }

  lemma PadSums56()
    ensures forall t :: 56 <= t < 64 ==> SumOk(t)
  {
    assert SumOk(56);
    assert SumOk(57);
    assert SumOk(58);
    assert SumOk(59);
    assert SumOk(60);
    assert SumOk(61);
    assert SumOk(62);
    assert SumOk(63);
  }

  /** The constants of the second transform are the round constants plus the padding block's
      schedule. */
  lemma PadTables(t: nat)
    requires t < 64
    ensures PadSum(t) == Add(K(t), PadW(t))
    ensures 16 <= t ==> PadW(t) == ScheduleStep(PadW(t - 2), PadW(t - 7), PadW(t - 15), PadW(t - 16))
  {
    hide PadW, PadSum, K, Add, ScheduleStep;
    PadSums0();
    PadSums4();
    PadSums8();
    PadSums12();
    PadSums16();
    PadSums24();
    PadSums32();
    PadSums40();
    PadSums48();
    PadSums56();
    PadSteps16();
    PadSteps24();
    PadSteps32();
    PadSteps40();
    PadSteps48();
    PadSteps56();
    assert SumOk(t) && PadStepOk(t);
  }

  lemma PadWords(t: nat)
    requires t < 16
    ensures WordAt(PADDING1, t) == PadW(t)
  {
    if t == 0 {
      assert PADDING1[0..4] == [0x80, 0, 0, 0];
    } else if t == 15 {
      assert PADDING1[60..64] == [0, 0, 2, 0];
    } else {
      assert PADDING1[4 * t..4 * t + 4] == [0, 0, 0, 0];
    }
  }

  lemma {:induction false} PadSchedule(t: nat)
    requires t < 64
    ensures Schedule(PADDING1, t) == PadW(t)
  {
    hide PadW, ScheduleStep, WordAt;
    if t < 16 {
      PadWords(t);
    } else {
      PadTables(t);
      PadSchedule(t - 2);
      PadSchedule(t - 7);
      PadSchedule(t - 15);
      PadSchedule(t - 16);
    }
  }

  /** The second transform: 64 rounds with constants only. */
  method RunPadding(r: array<Word>)
    requires r.Length == 8
    modifies r
    ensures RegsOf(r[..]) == Rounds(RegsOf(old(r[..])), PADDING1, 64)
  {
    hide Add, Seen, Round, Schedule, K, PadSum, PadW;
    ghost var start := RegsOf(r[..]);
    SeenAligned(r[..]);
    for i := 0 to 64
      invariant Seen(r[..], i) == Rounds(start, PADDING1, i)
    {
      PadTables(i);
      PadSchedule(i);
      RoundInPlace(r, i, PadSum(i), K(i), Schedule(PADDING1, i));
    }
    SeenAligned(r[..]);
  }

  // ---- The block of a 32-octet digest ----

  const PADDING2: seq<Octet> := [0x80] + Zeros(29) + [1, 0]

  function DigestBlock(d: Regs): (b: seq<Octet>)
    ensures |b| == 64
  {
    Output(d) + PADDING2
  }

  /** Its sixteen words. */
  function DigestWord(d: Regs, t: nat): Word
    requires t < 16
  {
    if t < 8 then Pick(t, d.a, d.b, d.c, d.d, d.e, d.f, d.g, d.h)
    else if t == 8 then 0x80000000 else if t == 15 then 0x100 else 0
  }

  lemma WordRoundTrip(w: Word)
    ensures ReadBE32(WriteBE32(w)) == w
  {
    var b := WriteBE32(w);
    assert b[0] as Word == (w >> 24) & 0xff && b[1] as Word == (w >> 16) & 0xff && b[2] as Word == (w >> 8) & 0xff
      && b[3] as Word == w & 0xff;
    assert (((w >> 24) & 0xff) << 24) | (((w >> 16) & 0xff) << 16) | (((w >> 8) & 0xff) << 8) | (w & 0xff) == w;
  }

  lemma FourSlices(w: Word, x: Word, y: Word, z: Word)
    ensures var b := FourWords(w, x, y, z);
            b[0..4] == WriteBE32(w) && b[4..8] == WriteBE32(x) && b[8..12] == WriteBE32(y) && b[12..16] == WriteBE32(z)
  {
    hide WriteBE32;
  }

  lemma SliceLeft(x: seq<Octet>, y: seq<Octet>, i: nat, j: nat)
    requires i <= j <= |x|
    ensures (x + y)[i..j] == x[i..j]
  {
  }

  lemma SliceRight(x: seq<Octet>, y: seq<Octet>, i: nat, j: nat)
    requires |x| <= i <= j <= |x| + |y|
    ensures (x + y)[i..j] == y[i - |x|..j - |x|]
  {
  }

  lemma FourSlice(w: Word, x: Word, y: Word, z: Word, t: nat)
    requires t < 4
    ensures FourWords(w, x, y, z)[4 * t..4 * t + 4] == WriteBE32(if t == 0 then w else if t == 1 then x else if t == 2
            then y else z)
  {
    hide FourWords, WriteBE32;
    FourSlices(w, x, y, z);
    if t == 0 {} else if t == 1 {} else if t == 2 {} else {}
  }

  lemma OutputSlice(d: Regs, t: nat)
    requires t < 8
    ensures Output(d)[4 * t..4 * t + 4] == WriteBE32(DigestWord(d, t))
  {
    hide FourWords, WriteBE32;
    var left, right := FourWords(d.a, d.b, d.c, d.d), FourWords(d.e, d.f, d.g, d.h);
    if t < 4 {
      SliceLeft(left, right, 4 * t, 4 * t + 4);
      FourSlice(d.a, d.b, d.c, d.d, t);
    } else {
      SliceRight(left, right, 4 * t, 4 * t + 4);
      assert 4 * t - 16 == 4 * (t - 4);
      FourSlice(d.e, d.f, d.g, d.h, t - 4);
    }
  }

  lemma Padding2Words(t: nat)
    requires t < 8
    ensures ReadBE32(PADDING2[4 * t..4 * t + 4]) == if t == 0 then 0x80000000 else if t == 7 then 0x100 else 0
  {
    if t == 0 {
      assert PADDING2[0..4] == [0x80, 0, 0, 0];
    } else if t == 7 {
      assert PADDING2[28..32] == [0, 0, 1, 0];
    } else {
      assert PADDING2[4 * t..4 * t + 4] == [0, 0, 0, 0];
    }
  }

  lemma DigestWords(d: Regs, t: nat)
    requires t < 16
    ensures WordAt(DigestBlock(d), t) == DigestWord(d, t)
  {
    hide WriteBE32, ReadBE32, Output;
    if t < 8 {
      SliceLeft(Output(d), PADDING2, 4 * t, 4 * t + 4);
      OutputSlice(d, t);
      WordRoundTrip(DigestWord(d, t));
    } else {
      SliceRight(Output(d), PADDING2, 4 * t, 4 * t + 4);
      Padding2Words(t - 8);
      assert 4 * t - 32 == 4 * (t - 8);
    }
  }

  /** The schedule words 16 to 31 with what is known of the padding folded in. */
  function ShortWord(w: seq<Word>, i: nat): Word
    requires |w| == 16 && 16 <= i < 32
  {
    if i == 16 then Add(w[0], SrcSmallSigma0(w[1]))
    else if i == 17 then Add(w[1], Add(0xa00000, SrcSmallSigma0(w[2])))
    else if i < 22 then Add(w[i - 16], Add(SrcSmallSigma1(w[i - 18]), SrcSmallSigma0(w[i - 15])))
    else if i == 22 then Add(w[6], Add(Add(SrcSmallSigma1(w[4]), 0x100), SrcSmallSigma0(w[7])))
    else if i == 23 then Add(w[7], Add(Add(SrcSmallSigma1(w[5]), w[0]), 0x11002000))
    else if i == 24 then Add(Add(0x80000000, SrcSmallSigma1(w[6])), w[1])
    else if i < 30 then Add(SrcSmallSigma1(w[i - 18]), w[i - 23])
    else if i == 30 then Add(Add(SrcSmallSigma1(w[12]), w[7]), 0x400022)
    else Add(Add(Add(0x100, SrcSmallSigma1(w[13])), w[8]), SrcSmallSigma0(w[0]))
  }

  lemma SigmaConstants()
    ensures SrcSmallSigma0(0) == 0 && SrcSmallSigma1(0) == 0 && SrcSmallSigma1(0x100) == 0xa00000
    ensures SrcSmallSigma0(0x80000000) == 0x11002000 && SrcSmallSigma0(0x100) == 0x400022
  {
  }

  lemma AddZero(x: Word)
    ensures Add(x, 0) == x && Add(0, x) == x
  {
  }

  /** A schedule step as the source groups it. */
  function RollingStep(a: Word, b: Word, c: Word, e: Word): Word { Add(a, Add(Add(b, c), e)) }

  lemma StepShapes(a: Word, b: Word, c: Word, e: Word)
    ensures RollingStep(a, 0, 0, e) == Add(a, e)
    ensures RollingStep(a, b, 0, e) == Add(a, Add(b, e))
    ensures RollingStep(0, b, c, 0) == Add(b, c)
    ensures RollingStep(0, b, c, e) == Add(Add(b, c), e)
  {
    hide Add;
    AddZero(0);
    AddZero(b);
    AddZero(e);
    AddZero(Add(b, c));
    AddZero(Add(Add(b, c), e));
  }

  lemma StepRegroups(a: Word, b: Word, c: Word, e: Word)
    ensures RollingStep(a, b, c, 0) == Add(Add(a, b), c)
    ensures RollingStep(a, b, c, e) == Add(Add(Add(a, b), c), e)
  {
    hide Add;
    AddZero(Add(b, c));
    AddAssociates(a, b, c);
    AddAssociates(a, Add(b, c), e);
  }

  lemma NextIsRolling(w: seq<Word>, block: seq<Octet>, i: nat)
    requires |w| == 16 && |block| == 64 && 16 <= i < 32
    ensures var j := i - 16;
            NextWord(w, block, i) ==
              RollingStep(w[j], SrcSmallSigma1(w[(j + 14) % 16]), w[(j + 9) % 16], SrcSmallSigma0(w[(j + 1) % 16]))
  {
    hide Add, SrcSmallSigma0, SrcSmallSigma1;
    assert (i + 14) % 16 == (i - 2) % 16 && i % 16 == i - 16;
  }

  lemma ShortAt16(w: seq<Word>, i: nat)
    requires |w| == 16 && 16 <= i < 22
    requires w[9] == w[10] == w[11] == w[12] == w[13] == w[14] == 0 && w[15] == 0x100
    ensures var j := i - 16;
            ShortWord(w, i) == RollingStep(w[j], SrcSmallSigma1(w[(j + 14) % 16]), w[(j + 9) % 16],
              SrcSmallSigma0(w[(j + 1) % 16]))
  {
    SigmaConstants();
    hide Add, SrcSmallSigma0, SrcSmallSigma1, RollingStep;
    var j := i - 16;
    assert w[(j + 9) % 16] == 0;
    StepShapes(w[j], SrcSmallSigma1(w[(j + 14) % 16]), 0, SrcSmallSigma0(w[(j + 1) % 16]));
    if i == 16 { assert w[(j + 14) % 16] == 0; } else if i == 17 { assert w[(j + 14) % 16] == 0x100; }
      else { assert (j + 14) % 16 == i - 18; }
  }

  lemma ShortAt22(w: seq<Word>, i: nat)
    requires |w| == 16 && 22 <= i < 24 && w[8] == 0x80000000 && w[15] == 0x100
    ensures var j := i - 16;
            ShortWord(w, i) == RollingStep(w[j], SrcSmallSigma1(w[(j + 14) % 16]), w[(j + 9) % 16],
              SrcSmallSigma0(w[(j + 1) % 16]))
  {
    SigmaConstants();
    hide Add, SrcSmallSigma0, SrcSmallSigma1;
  }

  lemma ShortAt24(w: seq<Word>, i: nat)
    requires |w| == 16 && 24 <= i < 32
    requires w[i - 16] == (if i == 24 then 0x80000000 else if i == 31 then 0x100 else 0)
    requires i < 31 ==> w[i - 15] == if i == 30 then 0x100 else 0
    ensures var j := i - 16;
            ShortWord(w, i) == RollingStep(w[j], SrcSmallSigma1(w[(j + 14) % 16]), w[(j + 9) % 16],
              SrcSmallSigma0(w[(j + 1) % 16]))
  {
    SigmaConstants();
    hide Add, SrcSmallSigma0, SrcSmallSigma1, RollingStep;
    var j := i - 16;
    assert (j + 14) % 16 == i - 18 && (j + 9) % 16 == i - 23 && (i < 31 ==> (j + 1) % 16 == i - 15);
    var b, c, e := SrcSmallSigma1(w[i - 18]), w[i - 23], SrcSmallSigma0(w[(j + 1) % 16]);
    StepShapes(w[j], b, c, e);
    StepRegroups(w[j], b, c, e);
    if i == 24 {} else if i < 30 {} else if i == 30 {} else {}
  }

  /** Where the padding words are still in the window, the short form is the general one. */
  lemma ShortAgrees(w: seq<Word>, block: seq<Octet>, i: nat)
    requires |w| == 16 && |block| == 64 && 16 <= i < 32
    requires forall j :: 8 <= j < 16 && i - 16 <= j ==> w[j] == if j == 8 then 0x80000000 else if j == 15 then 0x100
             else 0
    ensures ShortWord(w, i) == NextWord(w, block, i)
  {
    hide ShortWord, NextWord, RollingStep;
    NextIsRolling(w, block, i);
    if i < 22 {
      ShortAt16(w, i);
    } else if i < 24 {
      ShortAt22(w, i);
    } else {
      ShortAt24(w, i);
    }
  }

  // ---- The third transform ----

  /** The window before round `i` of the third transform, whose padding words are known. */
  ghost predicate DigestWindow(w: seq<Word>, d: Regs, i: nat) {
    && 16 <= i <= 64 && Window(w, DigestBlock(d), i)
    && forall j :: 8 <= j < 16 && i - 16 <= j ==> w[j] == DigestWord(d, j)
  }

  lemma DigestWindowStarts(w: seq<Word>, d: Regs)
    requires |w| == 16 && forall j :: 0 <= j < 16 ==> w[j] == DigestWord(d, j)
    ensures DigestWindow(w, d, 16)
  {
    hide DigestWord, DigestBlock, WordAt;
    forall t | 0 <= t < 16 ensures w[t % 16] == Schedule(DigestBlock(d), t) { DigestWords(d, t); }
  }

  lemma ShortIsNext(w: seq<Word>, d: Regs, i: nat)
    requires |w| == 16 && 16 <= i < 32 && forall j :: 8 <= j < 16 && i - 16 <= j ==> w[j] == DigestWord(d, j)
    ensures ShortWord(w, i) == NextWord(w, DigestBlock(d), i)
  {
    hide ShortWord, NextWord, DigestBlock, Pick;
    ShortAgrees(w, DigestBlock(d), i);
  }

  lemma ShortMoves(w: seq<Word>, d: Regs, i: nat)
    requires DigestWindow(w, d, i) && i < 32
    ensures ShortWord(w, i) == Schedule(DigestBlock(d), i) && DigestWindow(w[i - 16 := ShortWord(w, i)], d, i + 1)
  {
    hide ShortWord, Schedule, NextWord, DigestWord, DigestBlock;
    ShortIsNext(w, d, i);
    WindowMoves(w, DigestBlock(d), i);
    hide Window;
    assert i % 16 == i - 16;
  }

  /** The constants of rounds 8 to 15, with the padding words added. */
  function DigestSum(i: nat): Word
    requires 8 <= i < 16
  {
    Pick(i - 8, 0x5807aa98, 0x12835b01, 0x243185be, 0x550c7dc3, 0x72be5d74, 0x80deb1fe, 0x9bdc06a7, 0xc19bf274)
  }

  lemma DigestSums(d: Regs, i: nat)
    requires 8 <= i < 16
    ensures DigestSum(i) == Add(K(i), DigestWord(d, i))
  {
    if i < 12 {
      if i == 8 {} else if i == 9 {} else if i == 10 {} else {}
    } else {
      if i == 12 {} else if i == 13 {} else if i == 14 {} else {}
    }
  }

  /** Rounds 0 to 15: the words of the digest, then constants. */
  method EarlyRounds(r: array<Word>, w: array<Word>, d: Regs)
    requires r.Length == 8 && w.Length == 16 && r != w && forall j :: 0 <= j < 16 ==> w[j] == DigestWord(d, j)
    modifies r
    ensures Seen(r[..], 16) == Rounds(Seen(old(r[..]), 0), DigestBlock(d), 16)
  {
    hide Add, Seen, Round, Rounds, Schedule, K, DigestSum, DigestBlock, DigestWord;
    ghost var start, block := Seen(r[..], 0), DigestBlock(d);
    RoundsStart(start, block, w[..]);
    for i := 0 to 16
      invariant Seen(r[..], i) == Rounds(start, block, i)
    {
      ScheduleIsWord(d, i);
      NextRound(start, block, i);
      if i >= 8 {
        DigestSums(d, i);
        RoundInPlace(r, i, DigestSum(i), K(i), DigestWord(d, i));
      } else {
        RoundInPlace(r, i, Add(K(i), w[i]), K(i), w[i]);
      }
    }
  }

  /** Rounds 16 to 31, with the short schedule. */
  method ShortRounds(r: array<Word>, w: array<Word>, ghost d: Regs, ghost start: Regs)
    requires r.Length == 8 && w.Length == 16 && r != w && DigestWindow(w[..], d, 16)
    requires Seen(r[..], 16) == Rounds(start, DigestBlock(d), 16)
    modifies r, w
    ensures Seen(r[..], 32) == Rounds(start, DigestBlock(d), 32) && Window(w[..], DigestBlock(d), 32)
  {
    hide Add, Seen, Round, Rounds, Schedule, K, DigestBlock, DigestWord, ShortWord, Window;
    for i := 16 to 32
      invariant Seen(r[..], i) == Rounds(start, DigestBlock(d), i)
      invariant DigestWindow(w[..], d, i)
    {
      ShortMoves(w[..], d, i);
      NextRound(start, DigestBlock(d), i);
      hide DigestWindow;
      ghost var before := w[..];
      w[i - 16] := ShortWord(w[..], i);
      assert w[..] == before[i - 16 := ShortWord(before, i)];
      RoundInPlace(r, i, Add(K(i), w[i - 16]), K(i), w[i - 16]);
    }
  }

  /** Rounds 32 to 63. */
  method LateRounds(r: array<Word>, w: array<Word>, ghost d: Regs, ghost start: Regs)
    requires r.Length == 8 && w.Length == 16 && r != w && Window(w[..], DigestBlock(d), 32)
    requires Seen(r[..], 32) == Rounds(start, DigestBlock(d), 32)
    modifies r, w
    ensures Seen(r[..], 64) == Rounds(start, DigestBlock(d), 64)
  {
    hide Add, Seen, Round, Rounds, Schedule, K, DigestBlock, RollingWord, Window;
    for i := 32 to 64
      invariant Seen(r[..], i) == Rounds(start, DigestBlock(d), i)
      invariant Window(w[..], DigestBlock(d), i)
    {
      WindowRolls(w[..], d, i);
      NextRound(start, DigestBlock(d), i);
      ghost var before := w[..];
      w[i % 16] := RollingWord(w[..], i);
      assert w[..] == before[i % 16 := RollingWord(before, i)];
      RoundInPlace(r, i, Add(K(i), w[i % 16]), K(i), w[i % 16]);
    }
  }

  method RunDigest(r: array<Word>, d: Regs)
    requires r.Length == 8
    modifies r
    ensures RegsOf(r[..]) == Rounds(RegsOf(old(r[..])), DigestBlock(d), 64)
  {
    var w := new Word[16](i requires 0 <= i < 16 => DigestWord(d, i));
    hide DigestWord, Rounds, Seen, RegsOf, Window, DigestBlock;
    DigestWindowStarts(w[..], d);
    SeenAligned(r[..]);
    ghost var start := Seen(r[..], 0);
    EarlyRounds(r, w, d);
    ShortRounds(r, w, d, start);
    LateRounds(r, w, d, start);
    SeenAligned(r[..]);
  }

  lemma ScheduleIsWord(d: Regs, i: nat)
    requires i < 16
    ensures Schedule(DigestBlock(d), i) == DigestWord(d, i)
  {
    hide DigestWord, DigestBlock, WordAt;
    DigestWords(d, i);
  }

  lemma WindowRolls(w: seq<Word>, d: Regs, i: nat)
    requires Window(w, DigestBlock(d), i) && 16 <= i < 64
    ensures RollingWord(w, i) == Schedule(DigestBlock(d), i)
            && Window(w[i % 16 := RollingWord(w, i)], DigestBlock(d), i + 1)
  {
    hide RollingWord, Schedule, Window;
    WindowMoves(w, DigestBlock(d), i);
  }

  // ---- The double hash ----

  lemma LengthOctets512()
    ensures WriteBE64(512) == [0, 0, 0, 0, 0, 0, 2, 0]
  {
  }

  lemma LengthOctets256()
    ensures WriteBE64(256) == [0, 0, 0, 0, 0, 0, 1, 0]
  {
  }

  lemma KnownPaddings()
    ensures Padding(64) == PADDING1 && Padding(32) == PADDING2
  {
    LengthOctets512();
    LengthOctets256();
    hide WriteBE64;
    assert ZeroCount(64) == 55 && ZeroCount(32) == 23;
    assert Padding(64) == [0x80] + Zeros(55) + [0, 0, 0, 0, 0, 0, 2, 0];
    assert Padding(32) == [0x80] + Zeros(23) + [0, 0, 0, 0, 0, 0, 1, 0];
  }

  function DoubleSha(input: seq<Octet>): (out: seq<Octet>)
    ensures |out| == 32
  {
    Sha256(Sha256(input))
  }

  /** The double hash of 64 octets is three compressions. */
  lemma DoubleInBlocks(input: seq<Octet>)
    requires |input| == 64
    ensures DoubleSha(input) == Output(Compress(INITIAL, DigestBlock(Compress(Compress(INITIAL, input), PADDING1))))
  {
    hide Compress, Output, Padding;
    KnownPaddings();
    var d := Compress(Compress(INITIAL, input), PADDING1);
    CompressAppend(INITIAL, input, PADDING1);
    CompressOne(INITIAL, input);
    CompressOne(Compress(INITIAL, input), PADDING1);
    assert Sha256(input) == Output(d);
    CompressOne(INITIAL, DigestBlock(d));
  }

  method AddRegs(r: array<Word>, s: Regs)
    requires r.Length == 8
    modifies r
    ensures RegsOf(r[..]) == Sum(s, RegsOf(old(r[..])))
  {
    hide Add;
    r[0], r[1], r[2], r[3] := Add(s.a, r[0]), Add(s.b, r[1]), Add(s.c, r[2]), Add(s.d, r[3]);
    r[4], r[5], r[6], r[7] := Add(s.e, r[4]), Add(s.f, r[5]), Add(s.g, r[6]), Add(s.h, r[7]);
  }

  method ReadRegs(r: array<Word>) returns (s: Regs)
    requires r.Length == 8
    ensures s == RegsOf(r[..])
  {
    s := Regs(r[0], r[1], r[2], r[3], r[4], r[5], r[6], r[7]);
  }

  /** The generic form: three transforms over padded blocks. */
  method TransformD64Wrapper(input: seq<Octet>) returns (out: seq<Octet>)
    requires |input| == 64
    ensures out == DoubleSha(input)
  {
    hide Compress, Output, RegsOf;
    DoubleInBlocks(input);
    var s := new Word[8];
    Initialize(s);
    TransformBlock(s, input);
    TransformBlock(s, PADDING1);
    var d := ReadRegs(s);
    Initialize(s);
    TransformBlock(s, Output(d) + PADDING2);
    var r := ReadRegs(s);
    out := Output(r);
  }

  /** The specialised form agrees with the generic one on every input. */
  method TransformD64(input: seq<Octet>) returns (out: seq<Octet>)
    requires |input| == 64
    ensures out == DoubleSha(input)
  {
    hide Rounds, Output, RegsOf, DigestBlock, DoubleSha, Sum;
    DoubleInBlocks(input);
    var r := new Word[8];
    Initialize(r);
    RunRounds(r, input);
    AddRegs(r, INITIAL);
    var t := ReadRegs(r);
    RunPadding(r);
    AddRegs(r, t);
    var d := ReadRegs(r);
    Initialize(r);
    RunDigest(r, d);
    AddRegs(r, INITIAL);
    var s := ReadRegs(r);
    out := Output(s);
  }

  // ---- Batches ----

  function Block(input: seq<Octet>, i: nat): (b: seq<Octet>)
    requires 64 * (i + 1) <= |input|
    ensures |b| == 64
  {
    input[64 * i..64 * (i + 1)]
  }

  /** The double hashes of the first `n` blocks of 64 octets. */
  function DoubleAll(input: seq<Octet>, n: nat): seq<Octet>
    requires 64 * n <= |input|
  {
    if n == 0 then [] else DoubleAll(input, n - 1) + DoubleSha(Block(input, n - 1))
  }

  lemma {:induction false} DoubleAppend(input: seq<Octet>, i: nat, n: nat)
    requires 64 * (i + n) <= |input|
    ensures DoubleAll(input, i + n) == DoubleAll(input, i) + DoubleAll(input[64 * i..64 * (i + n)], n)
    decreases n
  {
    hide DoubleSha;
    if n > 0 {
      var part, less := input[64 * i..64 * (i + n)], input[64 * i..64 * (i + n - 1)];
      DoubleAppend(input, i, n - 1);
      SameBlocks(part, less, n - 1);
      assert Block(part, n - 1) == Block(input, i + n - 1);
    }
  }

  lemma {:induction false} SameBlocks(x: seq<Octet>, y: seq<Octet>, n: nat)
    requires 64 * n <= |x| && 64 * n <= |y| && x[..64 * n] == y[..64 * n]
    ensures DoubleAll(x, n) == DoubleAll(y, n)
  {
    hide DoubleSha;
    if n > 0 {
      assert x[..64 * (n - 1)] == x[..64 * n][..64 * (n - 1)] && y[..64 * (n - 1)] == y[..64 * n][..64 * (n - 1)];
      assert Block(x, n - 1) == x[..64 * n][64 * (n - 1)..] && Block(y, n - 1) == y[..64 * n][64 * (n - 1)..];
      SameBlocks(x, y, n - 1);
    }
  }

  /** A routine for `n` blocks at once does what hashing each block alone does. */
  ghost predicate Wide(f: seq<Octet> -> seq<Octet>, n: nat) {
    forall x :: |x| == 64 * n ==> f(x) == DoubleAll(x, n)
  }

  /** As many groups of `n` blocks as there are, with the wide routine. */
  method RunWide(f: seq<Octet> -> seq<Octet>, n: nat, input: seq<Octet>, blocks: nat, before: seq<Octet>, start: nat)
    returns (out: seq<Octet>, done: nat)
    requires n > 0 && Wide(f, n) && |input| == 64 * blocks && start <= blocks && before == DoubleAll(input, start)
    ensures start <= done <= blocks < done + n && out == DoubleAll(input, done)
  {
    hide DoubleAll;
    out, done := before, start;
    while blocks - done >= n
      invariant start <= done <= blocks && out == DoubleAll(input, done)
    {
      DoubleAppend(input, done, n);
      out := out + f(input[64 * done..64 * (done + n)]);
      done := done + n;
    }
  }

  /** Batches of eight, four, two and one give the double hash of every block, in order,
      whichever wide routines are present. */
  method Sha256D64(input: seq<Octet>, blocks: nat, way8: Option<seq<Octet> -> seq<Octet>>,
                   way4: Option<seq<Octet> -> seq<Octet>>, way2: Option<seq<Octet> -> seq<Octet>>)
    returns (out: seq<Octet>)
    requires |input| == 64 * blocks
    requires (way8.Some? ==> Wide(way8.value, 8)) && (way4.Some? ==> Wide(way4.value, 4))
             && (way2.Some? ==> Wide(way2.value, 2))
    ensures out == DoubleAll(input, blocks)
  {
    hide DoubleSha, Wide;
    var done: nat := 0;
    out := [];
    if way8.Some? { out, done := RunWide(way8.value, 8, input, blocks, out, done); }
    if way4.Some? { out, done := RunWide(way4.value, 4, input, blocks, out, done); }
    if way2.Some? { out, done := RunWide(way2.value, 2, input, blocks, out, done); }
    while done < blocks
      invariant done <= blocks && out == DoubleAll(input, done)
    {
      var hash := TransformD64(Block(input, done));
      out := out + hash;
      done := done + 1;
    }
  }
}
