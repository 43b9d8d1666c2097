/** Bech32 (3rdparty/bech32/bech32.cpp; the checksum of BIP 173): its GF(32) checksum, encoder
    and decoder. */
module Bech32 {
  import opened Basics

  // ---- The checksum ----

  type Word = bv32

  /** A 5-bit value. */
  type Symbol = x: bv32 | x < 32 witness 0

  /** Addition in GF(32), on any number of packed coefficients. */
  function Plus(a: Word, b: Word): Word { a ^ b }

  lemma Interchange(a: Word, b: Word, c: Word, d: Word)
    ensures Plus(Plus(a, b), Plus(c, d)) == Plus(Plus(a, c), Plus(b, d))
  {
    hide Plus;
    PlusIsXor(a, b);
    PlusIsXor(c, d);
    PlusIsXor(a, c);
    PlusIsXor(b, d);
    XorsInterchange(a, b, c, d);
  }

  lemma PlusIsXor(a: Word, b: Word)
    ensures Plus(a, b) == a ^ b
  {
  }

  lemma XorsInterchange(a: Word, b: Word, c: Word, d: Word)
    ensures Plus(a ^ b, c ^ d) == Plus(a ^ c, b ^ d)
  {
  }

  /** `k` if the given bit of `c` is set. */
  function Select(c: Word, bit: Word, k: Word): Word { if c & bit != 0 then k else 0 }

  /** What a leading coefficient adds when the polynomial is reduced: the sum of the multiples of
      x^6 modulo the generator that its set bits select. */
  function Reduction(c0: Word): Word {
    Plus(Plus(Plus(Plus(Select(c0, 1, 0x3b6a57b2), Select(c0, 2, 0x26508e6d)), Select(c0, 4, 0x1ea119fa)),
      Select(c0, 8, 0x3d4233dd)), Select(c0, 16, 0x2a1462b3))
  }

  /** Multiplication by x plus a coefficient, modulo the generator. */
  function Step(c: Word, v: Symbol): Word { Plus(Plus(Shifted(c), v), Reduction(Leading(c))) }

  /** All coefficients but the leading one, times x. */
  function Shifted(c: Word): Word { (c & 0x1ffffff) << 5 }

  function Leading(c: Word): Word { c >> 25 }

  function Run(c: Word, v: seq<Symbol>): Word {
    if v == [] then c else Step(Run(c, v[..|v| - 1]), v[|v| - 1])
  }

  function PolyMod(v: seq<Symbol>): Word { Run(1, v) }

  lemma PlusIsSmall(a: Word, b: Word)
    requires a < 0x40000000 && b < 0x40000000
    ensures Plus(a, b) < 0x40000000
  {
    assert a ^ b < 0x40000000;
  }

  lemma ReductionIsSmall(c: Word)
    ensures Reduction(c) < 0x40000000
  {
    var s1, s2, s3, s4, s5 := Select(c, 1, 0x3b6a57b2), Select(c, 2, 0x26508e6d), Select(c, 4, 0x1ea119fa),
      Select(c, 8, 0x3d4233dd), Select(c, 16, 0x2a1462b3);
    assert s1 < 0x40000000 && s2 < 0x40000000 && s3 < 0x40000000 && s4 < 0x40000000 && s5 < 0x40000000;
    hide Select, Plus;
    PlusIsSmall(s1, s2);
    PlusIsSmall(Plus(s1, s2), s3);
    PlusIsSmall(Plus(Plus(s1, s2), s3), s4);
    PlusIsSmall(Plus(Plus(Plus(s1, s2), s3), s4), s5);
  }

  lemma StepIsSmall(c: Word, v: Symbol)
    ensures Step(c, v) < 0x40000000
  {
    assert (c & 0x1ffffff) << 5 < 0x40000000;
    hide Reduction, Plus;
    ReductionIsSmall(Leading(c));
    PlusIsSmall(Shifted(c), v);
    PlusIsSmall(Plus(Shifted(c), v), Reduction(Leading(c)));
  }

  lemma SelectPlus(a: Word, b: Word, bit: Word, k: Word)
    requires bit == 1 || bit == 2 || bit == 4 || bit == 8 || bit == 16
    ensures Select(Plus(a, b), bit, k) == Plus(Select(a, bit, k), Select(b, bit, k))
  {
    AndXor(a, b, bit);
    BitOf(a, bit);
    BitOf(b, bit);
    XorFacts(bit);
    XorFacts(k);
  }

  lemma AndXor(a: Word, b: Word, bit: Word)
    ensures (a ^ b) & bit == (a & bit) ^ (b & bit)
  {
    assert (a ^ b) & bit == (a & bit) ^ (b & bit);
  }

  lemma BitOf(a: Word, bit: Word)
    requires bit == 1 || bit == 2 || bit == 4 || bit == 8 || bit == 16
    ensures a & bit == 0 || a & bit == bit
  {
    assert a & 1 == 0 || a & 1 == 1;
    assert a & 2 == 0 || a & 2 == 2;
    assert a & 4 == 0 || a & 4 == 4;
    assert a & 8 == 0 || a & 8 == 8;
    assert a & 16 == 0 || a & 16 == 16;
  }

  lemma XorFacts(k: Word)
    ensures k ^ k == 0 && 0 ^ k == k && k ^ 0 == k
  {
    assert k ^ k == 0 && 0 ^ k == k && k ^ 0 == k;
  }

  lemma ReductionPlus(a: Word, b: Word)
    ensures Reduction(Plus(a, b)) == Plus(Reduction(a), Reduction(b))
  {
    hide Select, Plus;
    var a1, a2, a3, a4, a5 := Select(a, 1, 0x3b6a57b2), Select(a, 2, 0x26508e6d), Select(a, 4, 0x1ea119fa),
      Select(a, 8, 0x3d4233dd), Select(a, 16, 0x2a1462b3);
    var b1, b2, b3, b4, b5 := Select(b, 1, 0x3b6a57b2), Select(b, 2, 0x26508e6d), Select(b, 4, 0x1ea119fa),
      Select(b, 8, 0x3d4233dd), Select(b, 16, 0x2a1462b3);
    SelectPlus(a, b, 1, 0x3b6a57b2);
    SelectPlus(a, b, 2, 0x26508e6d);
    SelectPlus(a, b, 4, 0x1ea119fa);
    SelectPlus(a, b, 8, 0x3d4233dd);
    SelectPlus(a, b, 16, 0x2a1462b3);
    Interchange(a1, b1, a2, b2);
    Interchange(Plus(a1, a2), Plus(b1, b2), a3, b3);
    Interchange(Plus(Plus(a1, a2), a3), Plus(Plus(b1, b2), b3), a4, b4);
    Interchange(Plus(Plus(Plus(a1, a2), a3), a4), Plus(Plus(Plus(b1, b2), b3), b4), a5, b5);
  }

  lemma PlusOfSymbols(v: Symbol, w: Symbol)
    ensures Plus(v, w) < 32
  {
    assert v & 31 == v && w & 31 == w;
    assert v ^ w < 32;
  }

  lemma ShiftPlus(c: Word, d: Word)
    ensures Shifted(Plus(c, d)) == Plus(Shifted(c), Shifted(d)) && Leading(Plus(c, d)) == Plus(Leading(c), Leading(d))
  {
    assert ((c ^ d) & 0x1ffffff) << 5 == ((c & 0x1ffffff) << 5) ^ ((d & 0x1ffffff) << 5);
    assert (c ^ d) >> 25 == (c >> 25) ^ (d >> 25);
  }

  /** The checksum is linear: that is what makes it a polynomial remainder. */
  lemma StepPlus(c: Word, d: Word, v: Symbol, w: Symbol)
    ensures Plus(v, w) < 32 && Step(Plus(c, d), Plus(v, w)) == Plus(Step(c, v), Step(d, w))
  {
    hide Plus, Reduction, Shifted, Leading;
    PlusOfSymbols(v, w);
    ShiftPlus(c, d);
    ReductionPlus(Leading(c), Leading(d));
    Interchange(Shifted(c), Shifted(d), v, w);
    Interchange(Plus(Shifted(c), v), Plus(Shifted(d), w), Reduction(Leading(c)), Reduction(Leading(d)));
  }

  // ---- Lists of symbols ----

  /** The difference of two lists of the same length. */
  function Difference(v: seq<Symbol>, w: seq<Symbol>): (d: seq<Symbol>)
    requires |v| == |w|
    ensures |d| == |v|
  {
    seq(|v|, i requires 0 <= i < |v| => PlusSymbol(v[i], w[i]))
  }

  function PlusSymbol(v: Symbol, w: Symbol): Symbol {
    PlusOfSymbols(v, w);
    Plus(v, w)
  }

  lemma {:induction false} RunPlus(c: Word, d: Word, v: seq<Symbol>, w: seq<Symbol>)
    requires |v| == |w|
    ensures Run(Plus(c, d), Difference(v, w)) == Plus(Run(c, v), Run(d, w))
  {
    hide Plus, Step;
    if v == [] {
    } else {
      var n := |v| - 1;
      RunPlus(c, d, v[..n], w[..n]);
      assert Difference(v, w)[..n] == Difference(v[..n], w[..n]);
      StepPlus(Run(c, v[..n]), Run(d, w[..n]), v[n], w[n]);
    }
  }

  lemma {:induction false} RunAppend(c: Word, v: seq<Symbol>, w: seq<Symbol>)
    ensures Run(c, v + w) == Run(Run(c, v), w)
    decreases |w|
  {
    hide Step;
    if w == [] {
      assert v + w == v;
    } else {
      assert (v + w)[..|v + w| - 1] == v + w[..|w| - 1];
      RunAppend(c, v, w[..|w| - 1]);
    }
  }

  lemma PlusZero(a: Word)
    ensures Plus(a, a) == 0 && Plus(a, 0) == a && Plus(0, a) == a
  {
  }

  // ---- A nonzero remainder stays nonzero ----

  lemma ReductionIsInjective(c0: Word)
    requires c0 < 32 && Reduction(c0) & 31 == 0
    ensures c0 == 0
  {
  }

  lemma PlusCancels(a: Word, b: Word)
    requires Plus(a, b) == 0
    ensures a == b
  {
    assert a ^ b == 0 ==> a == b;
  }

  lemma NothingLeft(c: Word)
    requires Shifted(c) == 0 && Leading(c) == 0
    ensures c == 0
  {
    assert (c & 0x1ffffff) << 5 == 0 && c >> 25 == 0 ==> c == 0;
  }

  lemma SmallParts(c: Word)
    requires c < 0x40000000
    ensures Leading(c) < 32 && Shifted(c) & 31 == 0
  {
    assert c < 0x40000000 ==> c >> 25 < 32;
    assert ((c & 0x1ffffff) << 5) & 31 == 0;
  }

  lemma ReductionOfZero()
    ensures Reduction(0) == 0
  {
  }

  /** The generator has a nonzero constant term, so multiplication by x loses nothing. */
  lemma StepZero(c: Word)
    requires c < 0x40000000 && Step(c, 0) == 0
    ensures c == 0
  {
    hide Plus, Reduction, Shifted, Leading;
    SmallParts(c);
    PlusZero(Shifted(c));
    PlusCancels(Shifted(c), Reduction(Leading(c)));
    ReductionIsInjective(Leading(c));
    ReductionOfZero();
    NothingLeft(c);
  }

  predicate AllZero(v: seq<Symbol>) { forall i :: 0 <= i < |v| ==> v[i] == 0 }

  lemma {:induction false} RunKeepsNonzero(c: Word, v: seq<Symbol>)
    requires c < 0x40000000 && c != 0 && AllZero(v)
    ensures Run(c, v) != 0 && Run(c, v) < 0x40000000
  {
    hide Step;
    if v != [] {
      var front := v[..|v| - 1];
      RunKeepsNonzero(c, front);
      StepIsSmall(Run(c, front), 0);
      if Step(Run(c, front), 0) == 0 { StepZero(Run(c, front)); }
    }
  }

  lemma StepOfZero()
    ensures Step(0, 0) == 0
  {
    ReductionOfZero();
  }

  lemma {:induction false} RunOfZeros(v: seq<Symbol>)
    requires AllZero(v)
    ensures Run(0, v) == 0
  {
    hide Step;
    if v != [] {
      RunOfZeros(v[..|v| - 1]);
      StepOfZero();
    }
  }

  // ---- Six symbols fill the remainder ----

  function Push(c: Word, v: Word): Word { (c << 5) | v }

  /** Six symbols packed into 30 bits, the first one on top. */
  function Pack(v: seq<Symbol>): Word
    requires |v| == 6
  {
    Push(Push(Push(Push(Push(v[0], v[1]), v[2]), v[3]), v[4]), v[5])
  }

  lemma ShiftIsOr(c: Word, v: Word)
    requires c < 0x2000000 && v < 32
    ensures c >> 25 == 0 && ((c & 0x1ffffff) << 5) ^ v == (c << 5) | v
  {
  }

  lemma Definitions(c: Word, v: Word)
    ensures Shifted(c) == (c & 0x1ffffff) << 5 && Leading(c) == c >> 25 && Push(c, v) == (c << 5) | v
  {
  }

  lemma ShiftIsPush(c: Word, v: Symbol)
    requires c < 0x2000000
    ensures Leading(c) == 0 && Plus(Shifted(c), v) == Push(c, v)
  {
    hide Plus, Shifted, Leading, Push;
    ShiftIsOr(c, v);
    Definitions(c, v);
    PlusIsXor(Shifted(c), v);
  }

  /** While the leading coefficient is zero, a step only shifts. */
  lemma StepPushes(c: Word, v: Symbol)
    requires c < 0x2000000
    ensures Step(c, v) == Push(c, v)
  {
    hide Plus, Reduction, Shifted, Leading, Push;
    ShiftIsPush(c, v);
    ReductionOfZero();
    PlusZero(Push(c, v));
  }

  lemma PushGrows(c: Word, v: Symbol)
    ensures c < 0x20 ==> Push(c, v) < 0x400
    ensures c < 0x400 ==> Push(c, v) < 0x8000
    ensures c < 0x8000 ==> Push(c, v) < 0x100000
    ensures c < 0x100000 ==> Push(c, v) < 0x2000000
  {
    assert c < 0x20 && v < 32 ==> (c << 5) | v < 0x400;
    assert c < 0x400 && v < 32 ==> (c << 5) | v < 0x8000;
    assert c < 0x8000 && v < 32 ==> (c << 5) | v < 0x100000;
    assert c < 0x100000 && v < 32 ==> (c << 5) | v < 0x2000000;
  }

  lemma PushOntoZero(v: Symbol)
    ensures Push(0, v) == v
  {
  }

  lemma RunOne(c: Word, v: seq<Symbol>, n: nat)
    requires n < |v|
    ensures Run(c, v[..n + 1]) == Step(Run(c, v[..n]), v[n])
  {
    assert v[..n + 1][..n] == v[..n];
  }

  lemma RunPacks(v: seq<Symbol>)
    requires |v| == 6
    ensures Run(0, v) == Pack(v)
  {
    hide Step, Push;
    var c1: Word := v[0];
    var c2 := Push(c1, v[1]);
    var c3 := Push(c2, v[2]);
    var c4 := Push(c3, v[3]);
    var c5 := Push(c4, v[4]);
    PushGrows(c1, v[1]);
    PushGrows(c2, v[2]);
    PushGrows(c3, v[3]);
    PushGrows(c4, v[4]);
    PushOntoZero(v[0]);
    StepPushes(0, v[0]);
    StepPushes(c1, v[1]);
    StepPushes(c2, v[2]);
    StepPushes(c3, v[3]);
    StepPushes(c4, v[4]);
    StepPushes(c5, v[5]);
    assert v[..6] == v && v[..0] == [];
    RunOne(0, v, 0);
    RunOne(0, v, 1);
    RunOne(0, v, 2);
    RunOne(0, v, 3);
    RunOne(0, v, 4);
    RunOne(0, v, 5);
  }

  lemma PushZero(c: Word, v: Symbol)
    requires c < 0x2000000 && Push(c, v) == 0
    ensures c == 0 && v == 0
  {
    assert c < 0x2000000 && (c << 5) | v == 0 ==> c == 0 && v == 0;
  }

  lemma PackZero(v: seq<Symbol>)
    requires |v| == 6 && Pack(v) == 0
    ensures AllZero(v)
  {
    hide Push;
    var c1: Word := v[0];
    var c2 := Push(c1, v[1]);
    var c3 := Push(c2, v[2]);
    var c4 := Push(c3, v[3]);
    var c5 := Push(c4, v[4]);
    PushGrows(c1, v[1]);
    PushGrows(c2, v[2]);
    PushGrows(c3, v[3]);
    PushGrows(c4, v[4]);
    PushZero(c5, v[5]);
    PushZero(c4, v[4]);
    PushZero(c3, v[3]);
    PushZero(c2, v[2]);
    PushZero(c1, v[1]);
  }

  lemma PackSmall(v: seq<Symbol>)
    requires |v| == 6
    ensures Pack(v) < 0x40000000
  {
    RunPacks(v);
    hide Pack, Step;
    RunOne(0, v, 5);
    assert v[..6] == v;
    StepIsSmall(Run(0, v[..5]), v[5]);
  }

  // ---- Creating and verifying checksums ----

  function Low5(w: Word): Symbol {
    assert w & 31 < 32;
    w & 31
  }

  /** The six 5-bit groups of a remainder. */
  function Groups(w: Word): (g: seq<Symbol>)
    ensures |g| == 6
  {
    [Low5(w >> 25), Low5(w >> 20), Low5(w >> 15), Low5(w >> 10), Low5(w >> 5), Low5(w)]
  }

  lemma PushAt20(w: Word)
    ensures Push(w >> 25, Low5(w >> 20)) == w >> 20
  {
    assert ((w >> 25) << 5) | ((w >> 20) & 31) == w >> 20;
  }

  lemma PushAt15(w: Word)
    ensures Push(w >> 20, Low5(w >> 15)) == w >> 15
  {
    assert ((w >> 20) << 5) | ((w >> 15) & 31) == w >> 15;
  }

  lemma PushAt10(w: Word)
    ensures Push(w >> 15, Low5(w >> 10)) == w >> 10
  {
    assert ((w >> 15) << 5) | ((w >> 10) & 31) == w >> 10;
  }

  lemma PushAt5(w: Word)
    ensures Push(w >> 10, Low5(w >> 5)) == w >> 5
  {
    assert ((w >> 10) << 5) | ((w >> 5) & 31) == w >> 5;
  }

  lemma PushAt0(w: Word)
    ensures Push(w >> 5, Low5(w)) == w
  {
    assert ((w >> 5) << 5) | (w & 31) == w;
  }

  lemma TopGroup(w: Word)
    requires w < 0x40000000
    ensures Low5(w >> 25) == w >> 25
  {
    assert w < 0x40000000 ==> (w >> 25) & 31 == w >> 25;
  }

  lemma PackGroups(w: Word)
    requires w < 0x40000000
    ensures Pack(Groups(w)) == w
  {
    hide Push, Low5;
    TopGroup(w);
    PushAt20(w);
    PushAt15(w);
    PushAt10(w);
    PushAt5(w);
    PushAt0(w);
  }

  const SIX_ZEROS: seq<Symbol> := [0, 0, 0, 0, 0, 0]

  /** Appending six symbols adds them, packed, to the remainder of appending six zeros. */
  lemma ChecksumAdds(v: seq<Symbol>, sum: seq<Symbol>)
    requires |sum| == 6
    ensures PolyMod(v + sum) == Plus(PolyMod(v + SIX_ZEROS), Pack(sum))
  {
    hide Plus, Step, Pack;
    var c := PolyMod(v);
    RunAppend(1, v, sum);
    RunAppend(1, v, SIX_ZEROS);
    PlusZero(c);
    assert Difference(SIX_ZEROS, sum) == sum by {
      forall i | 0 <= i < 6 ensures Difference(SIX_ZEROS, sum)[i] == sum[i] { PlusZero(sum[i]); }
    }
    RunPlus(c, 0, SIX_ZEROS, sum);
    RunPacks(sum);
  }

  function Checksum(v: seq<Symbol>): (sum: seq<Symbol>)
    ensures |sum| == 6
  {
    Groups(Plus(PolyMod(v + SIX_ZEROS), 1))
  }

  lemma PolyModIsSmall(v: seq<Symbol>)
    requires v != []
    ensures PolyMod(v) < 0x40000000
  {
    hide Step;
    StepIsSmall(Run(1, v[..|v| - 1]), v[|v| - 1]);
  }

  lemma PlusTwice(a: Word, b: Word)
    ensures Plus(a, Plus(a, b)) == b
  {
    assert a ^ (a ^ b) == b;
  }

  /** Exactly one list of six symbols makes a list verify. */
  lemma ChecksumIsUnique(v: seq<Symbol>, sum: seq<Symbol>)
    requires |sum| == 6
    ensures PolyMod(v + sum) == 1 <==> sum == Checksum(v)
  {
    hide Plus, Step, Pack, Groups;
    var p := PolyMod(v + SIX_ZEROS);
    PolyModIsSmall(v + SIX_ZEROS);
    PlusIsSmall(p, 1);
    PackGroups(Plus(p, 1));
    ChecksumAdds(v, Checksum(v));
    PlusTwice(p, 1);
    ChecksumAdds(v, sum);
    if PolyMod(v + sum) == 1 {
      SamePack(p, sum, Checksum(v));
    }
  }

  lemma SamePack(p: Word, v: seq<Symbol>, w: seq<Symbol>)
    requires |v| == |w| == 6 && Plus(p, Pack(v)) == Plus(p, Pack(w))
    ensures v == w
  {
    hide Plus, Pack;
    PlusTwice(p, Pack(v));
    PlusTwice(p, Pack(w));
    RunPacks(v);
    RunPacks(w);
    PlusZero(0);
    RunPlus(0, 0, v, w);
    PlusZero(Pack(v));
    RunPacks(Difference(v, w));
    PackZero(Difference(v, w));
    forall i | 0 <= i < 6 ensures v[i] == w[i] {
      assert Difference(v, w)[i] == 0;
      PlusCancels(v[i], w[i]);
    }
  }

  // ---- Errors are detected ----

  lemma DifferenceOfSums(v: seq<Symbol>, w: seq<Symbol>)
    requires |v| == |w|
    ensures PolyMod(v) == PolyMod(w) <==> Run(0, Difference(v, w)) == 0
  {
    hide Plus, Step;
    PlusZero(1);
    RunPlus(1, 1, v, w);
    PlusZero(PolyMod(v));
    if Run(0, Difference(v, w)) == 0 { PlusCancels(PolyMod(v), PolyMod(w)); }
  }

  lemma SameSymbols(v: seq<Symbol>, w: seq<Symbol>, i: nat)
    requires |v| == |w| && i < |v|
    ensures Difference(v, w)[i] == 0 <==> v[i] == w[i]
  {
    if v[i] == w[i] { PlusZero(v[i]); }
    if Difference(v, w)[i] == 0 { PlusCancels(v[i], w[i]); }
  }

  /** Zeros, a part with a nonzero remainder, and zeros again have a nonzero remainder. */
  lemma NonzeroPart(before: seq<Symbol>, part: seq<Symbol>, after: seq<Symbol>)
    requires AllZero(before) && AllZero(after) && Run(0, part) != 0 && Run(0, part) < 0x40000000
    ensures Run(0, before + part + after) != 0
  {
    hide Step;
    RunAppend(0, before + part, after);
    RunAppend(0, before, part);
    RunOfZeros(before);
    RunKeepsNonzero(Run(0, part), after);
  }

  /** Two lists that differ in exactly one symbol have different remainders, whatever their length. */
  lemma OneErrorDetected(v: seq<Symbol>, w: seq<Symbol>, p: nat)
    requires |v| == |w| && p < |v| && v[p] != w[p] && forall i :: 0 <= i < |v| && i != p ==> v[i] == w[i]
    ensures PolyMod(v) != PolyMod(w)
  {
    hide Step, Push;
    var d := Difference(v, w);
    forall i | 0 <= i < |d| ensures d[i] == 0 <==> v[i] == w[i] { SameSymbols(v, w, i); }
    DifferenceOfSums(v, w);
    var before, part, after := d[..p], [d[p]], d[p + 1..];
    assert d == before + part + after;
    StepPushes(0, d[p]);
    PushOntoZero(d[p]);
    RunOne(0, part, 0);
    assert part[..1] == part && part[..0] == [];
    NonzeroPart(before, part, after);
  }

  lemma PackNonzero(part: seq<Symbol>, i: nat)
    requires |part| == 6 && i < 6 && part[i] != 0
    ensures Pack(part) != 0
  {
    if Pack(part) == 0 {
      PackZero(part);
    }
  }

  /** Two lists that differ, and only within six consecutive symbols, have different remainders. */
  lemma BurstDetected(v: seq<Symbol>, w: seq<Symbol>, p: nat)
    requires |v| == |w| && p + 6 <= |v| && v != w
    requires forall i :: 0 <= i < |v| && !(p <= i < p + 6) ==> v[i] == w[i]
    ensures PolyMod(v) != PolyMod(w)
  {
    hide Step, Push, Pack, Difference, AllZero;
    var d := Difference(v, w);
    var i := BurstParts(v, w, p);
    DifferenceOfSums(v, w);
    var before, part, after := d[..p], d[p..p + 6], d[p + 6..];
    assert d == before + part + after;
    RunPacks(part);
    PackSmall(part);
    PackNonzero(part, i);
    NonzeroPart(before, part, after);
  }

  lemma BurstParts(v: seq<Symbol>, w: seq<Symbol>, p: nat) returns (i: nat)
    requires |v| == |w| && p + 6 <= |v| && v != w
    requires forall i :: 0 <= i < |v| && !(p <= i < p + 6) ==> v[i] == w[i]
    ensures var d := Difference(v, w);
            |d| == |v| && AllZero(d[..p]) && AllZero(d[p + 6..]) && i < 6 && d[p + i] != 0
  {
    var d := Difference(v, w);
    forall j | 0 <= j < |d| ensures d[j] == 0 <==> v[j] == w[j] { SameSymbols(v, w, j); }
    hide Difference;
    var k :| 0 <= k < |v| && v[k] != w[k];
    i := k - p;
  }

  // ---- Characters ----

  function Letter(v: Symbol): char {
    if v < 16 then
      if v < 8 then
        if v < 4 then
          if v < 2 then if v < 1 then 'q' else 'p' else if v < 3 then 'z' else 'r'
        else
          if v < 6 then if v < 5 then 'y' else '9' else if v < 7 then 'x' else '8'
      else
        if v < 12 then
          if v < 10 then if v < 9 then 'g' else 'f' else if v < 11 then '2' else 't'
        else
          if v < 14 then if v < 13 then 'v' else 'd' else if v < 15 then 'w' else '0'
    else
      if v < 24 then
        if v < 20 then
          if v < 18 then if v < 17 then 's' else '3' else if v < 19 then 'j' else 'n'
        else
          if v < 22 then if v < 21 then '5' else '4' else if v < 23 then 'k' else 'h'
      else
        if v < 28 then
          if v < 26 then if v < 25 then 'c' else 'e' else if v < 27 then '6' else 'm'
        else
          if v < 30 then if v < 29 then 'u' else 'a' else if v < 31 then '7' else 'l'
  }

  predicate IsUpper(c: char) { 'A' <= c <= 'Z' }

  predicate IsLower(c: char) { 'a' <= c <= 'z' }

  function LowerCase(c: char): char {
    if IsUpper(c) then (c as int - 'A' as int + 'a' as int) as char else c
  }

  function SymbolOf(c: char): Option<Symbol> {
    match c
    case 'q' => Some(0) case 'p' => Some(1) case 'z' => Some(2) case 'r' => Some(3)
    case 'y' => Some(4) case '9' => Some(5) case 'x' => Some(6) case '8' => Some(7)
    case 'g' => Some(8) case 'f' => Some(9) case '2' => Some(10) case 't' => Some(11)
    case 'v' => Some(12) case 'd' => Some(13) case 'w' => Some(14) case '0' => Some(15)
    case 's' => Some(16) case '3' => Some(17) case 'j' => Some(18) case 'n' => Some(19)
    case '5' => Some(20) case '4' => Some(21) case 'k' => Some(22) case 'h' => Some(23)
    case 'c' => Some(24) case 'e' => Some(25) case '6' => Some(26) case 'm' => Some(27)
    case 'u' => Some(28) case 'a' => Some(29) case '7' => Some(30) case 'l' => Some(31)
    case _ => None
  }

  /** The value of a character; the table gives upper-case letters the same values. */
  function Reverse(c: char): Option<Symbol> { SymbolOf(LowerCase(c)) }

  lemma LetterHasValue(v: Symbol)
    ensures SymbolOf(Letter(v)) == Some(v) && Letter(v) != '1' && !IsUpper(Letter(v)) && 33 <= Letter(v) as int <= 126
  {
    if v == 0 {} else if v == 1 {} else if v == 2 {} else if v == 3 {} else if v == 4 {} else if v == 5 {}
      else if v == 6 {} else if v == 7 {} else if v == 8 {} else if v == 9 {} else if v == 10 {} else if v == 11 {}
      else if v == 12 {} else if v == 13 {} else if v == 14 {} else if v == 15 {} else if v == 16 {}
      else if v == 17 {} else if v == 18 {} else if v == 19 {} else if v == 20 {} else if v == 21 {}
      else if v == 22 {} else if v == 23 {} else if v == 24 {} else if v == 25 {} else if v == 26 {}
      else if v == 27 {} else if v == 28 {} else if v == 29 {} else if v == 30 {} else {}
  }

  lemma ValueHasLetter(c: char)
    requires SymbolOf(c).Some?
    ensures Letter(SymbolOf(c).value) == c
  {
  }

  // ---- The specification of encoding and decoding ----

  function High(c: char): Symbol
    requires c as int < 256
  {
    (c as int / 32) as bv5 as bv32
  }

  function Low(c: char): Symbol { (c as int % 32) as bv5 as bv32 }

  /** The characters of a prefix are octets. */
  predicate Octets(hrp: string) { forall i :: 0 <= i < |hrp| ==> hrp[i] as int < 256 }

  function Expand(hrp: string): seq<Symbol>
    requires Octets(hrp)
  {
    seq(|hrp|, i requires 0 <= i < |hrp| => High(hrp[i])) + [0] + seq(|hrp|, i requires 0 <= i < |hrp| => Low(hrp[i]))
  }

  predicate Verifies(hrp: string, values: seq<Symbol>)
    requires Octets(hrp)
  {
    PolyMod(Expand(hrp) + values) == 1
  }

  function Letters(v: seq<Symbol>): string { seq(|v|, i requires 0 <= i < |v| => Letter(v[i])) }

  function Encoded(hrp: string, values: seq<Symbol>): string
    requires Octets(hrp)
  {
    hrp + "1" + Letters(values + Checksum(Expand(hrp) + values))
  }

  predicate InRange(str: string) { forall i :: 0 <= i < |str| ==> 33 <= str[i] as int <= 126 }

  predicate HasUpper(str: string) { exists i :: 0 <= i < |str| && IsUpper(str[i]) }

  predicate HasLower(str: string) { exists i :: 0 <= i < |str| && IsLower(str[i]) }

  function Lowered(str: string): string { seq(|str|, i requires 0 <= i < |str| => LowerCase(str[i])) }

  predicate AllLetters(str: string) { forall i :: 0 <= i < |str| ==> Reverse(str[i]).Some? }

  function Values(str: string): seq<Symbol>
    requires AllLetters(str)
  {
    seq(|str|, i requires 0 <= i < |str| => Reverse(str[i]).value)
  }

  /** `p` is the position of the last separator. */
  predicate LastSeparator(str: string, p: nat) {
    p < |str| && str[p] == '1' && forall i :: p < i < |str| ==> str[i] != '1'
  }

  /** What decoding a string with its last separator at `p` must find. */
  predicate Decodable(str: string, p: nat) {
    && InRange(str) && !(HasUpper(str) && HasLower(str)) && |str| <= 90
    && LastSeparator(str, p) && 0 < p && p + 7 <= |str| && AllLetters(str[p + 1..])
    && Octets(Lowered(str[..p])) && Verifies(Lowered(str[..p]), Values(str[p + 1..]))
  }

  /** A result of decoding: the prefix and the values without the checksum. */
  datatype Decoding = Decoding(hrp: string, values: seq<Symbol>)

  ghost predicate DecodesTo(str: string, r: Option<Decoding>) {
    match r
    case None => forall p: nat :: !Decodable(str, p)
    case Some(d) =>
      exists p: nat :: Decodable(str, p) && d.hrp == Lowered(str[..p])
                       && d.values == Values(str[p + 1..])[..|str| - p - 7]
  }

  // ---- Round trips ----

  /** Prefixes BIP 173 allows, in lower case. */
  predicate Legal(hrp: string) { hrp != "" && InRange(hrp) && !HasUpper(hrp) }

  lemma LoweredIsSame(str: string)
    requires !HasUpper(str)
    ensures Lowered(str) == str
  {
  }

  lemma LettersDecode(v: seq<Symbol>)
    ensures InRange(Letters(v)) && !HasUpper(Letters(v)) && AllLetters(Letters(v)) && Values(Letters(v)) == v
    ensures forall i :: 0 <= i < |v| ==> Letters(v)[i] != '1'
  {
    hide Letter, SymbolOf;
    forall i | 0 <= i < |v|
      ensures SymbolOf(Letters(v)[i]) == Some(v[i]) && Letters(v)[i] != '1' && !IsUpper(Letters(v)[i])
              && 33 <= Letters(v)[i] as int <= 126
    {
      LetterHasValue(v[i]);
    }
  }

  lemma ChecksumVerifies(hrp: string, values: seq<Symbol>)
    requires Octets(hrp)
    ensures Verifies(hrp, values + Checksum(Expand(hrp) + values))
  {
    hide PolyMod, Checksum, Expand;
    var enc := Expand(hrp) + values;
    ChecksumIsUnique(enc, Checksum(enc));
    assert Expand(hrp) + (values + Checksum(enc)) == enc + Checksum(enc);
  }

  /** Decoding undoes encoding, for every legal prefix and all values that fit 90 characters. */
  lemma DecodeUndoesEncode(hrp: string, values: seq<Symbol>, r: Option<Decoding>)
    requires Legal(hrp) && |hrp| + |values| + 7 <= 90 && DecodesTo(Encoded(hrp, values), r)
    ensures r == Some(Decoding(hrp, values))
  {
    var all := values + Checksum(Expand(hrp) + values);
    var str := Encoded(hrp, values);
    ChecksumVerifies(hrp, values);
    EncodedShape(hrp, all);
    hide Expand, PolyMod, Checksum, Letters;
    assert Decodable(str, |hrp|);
    match r
    case None => assert false;
    case Some(d) =>
      var p: nat :| Decodable(str, p) && d.hrp == Lowered(str[..p])
        && d.values == Values(str[p + 1..])[..|str| - p - 7];
      SoleSeparator(str, p, |hrp|);
      assert all[..|values|] == values;
  }

  lemma SoleSeparator(str: string, p: nat, q: nat)
    requires LastSeparator(str, p) && LastSeparator(str, q)
    ensures p == q
  {
  }

  lemma EncodedShape(hrp: string, all: seq<Symbol>)
    requires Legal(hrp)
    ensures var str := hrp + "1" + Letters(all);
            && InRange(str) && !HasUpper(str) && LastSeparator(str, |hrp|)
            && str[..|hrp|] == hrp && Lowered(str[..|hrp|]) == hrp
            && str[|hrp| + 1..] == Letters(all) && AllLetters(str[|hrp| + 1..]) && Values(str[|hrp| + 1..]) == all
  {
    hide Reverse, LowerCase;
    LettersDecode(all);
    LoweredIsSame(hrp);
    var str := hrp + "1" + Letters(all);
    assert str[..|hrp|] == hrp && str[|hrp| + 1..] == Letters(all);
    forall i | 0 <= i < |str| ensures 33 <= str[i] as int <= 126 && !IsUpper(str[i]) {
      if i > |hrp| { assert str[i] == Letters(all)[i - |hrp| - 1]; }
    }
    forall i | |hrp| < i < |str| ensures str[i] != '1' { assert str[i] == Letters(all)[i - |hrp| - 1]; }
  }

  lemma ValuesHaveLetters(str: string)
    requires AllLetters(str)
    ensures Letters(Values(str)) == Lowered(str)
  {
    hide Letter, SymbolOf, LowerCase;
    forall i | 0 <= i < |str| ensures Letters(Values(str))[i] == Lowered(str)[i] {
      ValueHasLetter(LowerCase(str[i]));
    }
  }

  /** Encoding what a string decodes to gives the string back, in lower case. */
  lemma EncodeUndoesDecode(str: string, d: Decoding)
    requires DecodesTo(str, Some(d))
    ensures Octets(d.hrp) && Encoded(d.hrp, d.values) == Lowered(str)
  {
    var p: nat :| Decodable(str, p) && d.hrp == Lowered(str[..p]) && d.values == Values(str[p + 1..])[..|str| - p - 7];
    var all := Values(str[p + 1..]);
    var n := |all| - 6;
    var enc := Expand(d.hrp) + d.values;
    hide Expand, PolyMod, Checksum, Letters, Reverse;
    assert all == d.values + all[n..];
    assert Expand(d.hrp) + all == enc + all[n..];
    ChecksumIsUnique(enc, all[n..]);
    ValuesHaveLetters(str[p + 1..]);
    LoweredAround(str, p);
  }

  lemma LoweredAround(str: string, p: nat)
    requires p < |str| && str[p] == '1'
    ensures Lowered(str) == Lowered(str[..p]) + "1" + Lowered(str[p + 1..])
  {
    assert LowerCase(str[p]) == '1';
    hide LowerCase;
  }

  /** Two value lists with the same prefix that differ in exactly one symbol do not both verify. */
  lemma NotBothVerify(hrp: string, v: seq<Symbol>, w: seq<Symbol>, p: nat)
    requires Octets(hrp) && |v| == |w| && p < |v| && v[p] != w[p] && forall i :: 0 <= i < |v| && i != p ==> v[i] == w[i]
    ensures !(Verifies(hrp, v) && Verifies(hrp, w))
  {
    hide PolyMod, Expand;
    var e := Expand(hrp);
    OneErrorDetected(e + v, e + w, |e| + p);
  }

  // ---- The algorithms ----

  method ComputePolyMod(v: seq<Symbol>) returns (c: Word)
    ensures c == PolyMod(v)
  {
    c := 1;
    for i := 0 to |v|
      invariant c == Run(1, v[..i])
    {
      RunOne(1, v, i);
      hide Step;
      c := NextRemainder(c, v[i]);
    }
    assert v[..|v|] == v;
  }

  /** One step, bit by bit of the leading coefficient. */
  method NextRemainder(c: Word, v: Symbol) returns (r: Word)
    ensures r == Step(c, v)
  {
    hide Plus, Select, Shifted, Leading;
    var c0 := Leading(c);
    r := Plus(Shifted(c), v);
    SelectsAdd(r, c0);
    r := AddIf(r, c0, 1, 0x3b6a57b2);
    r := AddIf(r, c0, 2, 0x26508e6d);
    r := AddIf(r, c0, 4, 0x1ea119fa);
    r := AddIf(r, c0, 8, 0x3d4233dd);
    r := AddIf(r, c0, 16, 0x2a1462b3);
  }

  method AddIf(c: Word, c0: Word, bit: Word, k: Word) returns (r: Word)
    ensures r == Plus(c, Select(c0, bit, k))
  {
    hide Plus;
    PlusZero(c);
    r := if c0 & bit != 0 then Plus(c, k) else c;
  }

  lemma XorsAssociate(a: Word, b: Word, c: Word)
    ensures Plus(a, b ^ c) == Plus(a ^ b, c)
  {
  }

  lemma PlusAssociates(a: Word, b: Word, c: Word)
    ensures Plus(a, Plus(b, c)) == Plus(Plus(a, b), c)
  {
    hide Plus;
    PlusIsXor(b, c);
    PlusIsXor(a, b);
    XorsAssociate(a, b, c);
  }

  lemma SelectsAdd(x: Word, c0: Word)
    ensures Plus(Plus(Plus(Plus(Plus(x, Select(c0, 1, 0x3b6a57b2)), Select(c0, 2, 0x26508e6d)),
            Select(c0, 4, 0x1ea119fa)), Select(c0, 8, 0x3d4233dd)), Select(c0, 16, 0x2a1462b3))
            == Plus(x, Reduction(c0))
  {
    hide Select, Plus;
    var s1, s2, s3, s4, s5 := Select(c0, 1, 0x3b6a57b2), Select(c0, 2, 0x26508e6d), Select(c0, 4, 0x1ea119fa),
      Select(c0, 8, 0x3d4233dd), Select(c0, 16, 0x2a1462b3);
    PlusAssociates(x, s1, s2);
    PlusAssociates(x, Plus(s1, s2), s3);
    PlusAssociates(x, Plus(Plus(s1, s2), s3), s4);
    PlusAssociates(x, Plus(Plus(Plus(s1, s2), s3), s4), s5);
  }

  method ExpandHrp(hrp: string) returns (r: seq<Symbol>)
    requires Octets(hrp)
    ensures r == Expand(hrp)
  {
    var n := |hrp|;
    var a := new Symbol[2 * n + 1](i => 0);
    hide High, Low;
    for i := 0 to n
      invariant forall j :: 0 <= j < i ==> a[j] == High(hrp[j]) && a[j + n + 1] == Low(hrp[j])
      invariant a[n] == 0
    {
      a[i] := High(hrp[i]);
      a[i + n + 1] := Low(hrp[i]);
    }
    r := a[..];
  }

  method CreateChecksum(hrp: string, values: seq<Symbol>) returns (sum: seq<Symbol>)
    requires Octets(hrp)
    ensures sum == Checksum(Expand(hrp) + values)
  {
    hide PolyMod, Expand, Plus, Low5;
    var enc := ExpandHrp(hrp);
    enc := enc + values;
    var p := ComputePolyMod(enc + SIX_ZEROS);
    sum := Groups(Plus(p, 1));
  }

  method Encode(hrp: string, values: seq<Symbol>) returns (str: string)
    requires Octets(hrp) && !HasUpper(hrp)
    ensures str == Encoded(hrp, values)
  {
    hide Checksum, Expand, Letter;
    var sum := CreateChecksum(hrp, values);
    var combined := values + sum;
    str := hrp + "1";
    for i := 0 to |combined|
      invariant str == hrp + "1" + Letters(combined[..i])
    {
      assert Letters(combined[..i + 1]) == Letters(combined[..i]) + [Letter(combined[i])];
      str := str + [Letter(combined[i])];
    }
    assert combined[..|combined|] == combined;
  }

  /** Checks the characters and the case of a string. */
  method CheckCase(str: string) returns (ok: bool)
    ensures ok <==> InRange(str) && !(HasUpper(str) && HasLower(str))
  {
    var lower, upper := false, false;
    for i := 0 to |str|
      invariant lower <==> exists j :: 0 <= j < i && IsLower(str[j])
      invariant upper <==> exists j :: 0 <= j < i && IsUpper(str[j])
      invariant forall j :: 0 <= j < i ==> 33 <= str[j] as int <= 126
    {
      if IsLower(str[i]) {
        lower := true;
      } else if IsUpper(str[i]) {
        upper := true;
      } else if (str[i] as int) < 33 || str[i] as int > 126 {
        return false;
      }
    }
    ok := !(lower && upper);
  }

  /** The last separator, searched from the end. */
  method FindSeparator(str: string) returns (found: bool, p: nat)
    ensures if found then LastSeparator(str, p) else forall i: nat :: !LastSeparator(str, i)
  {
    p := |str|;
    while p > 0
      invariant p <= |str| && forall i :: p <= i < |str| ==> str[i] != '1'
    {
      p := p - 1;
      if str[p] == '1' {
        return true, p;
      }
    }
    found := false;
  }

  method ReverseAll(str: string) returns (ok: bool, values: seq<Symbol>)
    ensures ok <==> AllLetters(str)
    ensures ok ==> values == Values(str)
  {
    hide Reverse;
    values := [];
    for i := 0 to |str|
      invariant |values| == i && forall j :: 0 <= j < i ==> Reverse(str[j]) == Some(values[j])
    {
      var v := Reverse(str[i]);
      if v.None? {
        return false, [];
      }
      values := values + [v.value];
    }
    ok := true;
  }

  method LowerPrefix(str: string) returns (r: string)
    ensures r == Lowered(str)
  {
    hide LowerCase;
    r := "";
    for i := 0 to |str|
      invariant |r| == i && forall j :: 0 <= j < i ==> r[j] == LowerCase(str[j])
    {
      r := r + [LowerCase(str[i])];
    }
  }

  lemma LoweredOctets(str: string)
    requires InRange(str)
    ensures Octets(Lowered(str))
  {
  }

  method Decode(str: string) returns (r: Option<Decoding>)
    ensures DecodesTo(str, r)
  {
    hide Reverse, LowerCase, Expand, PolyMod, InRange, HasUpper, HasLower;
    var ok := CheckCase(str);
    if !ok {
      return None;
    }
    var found, p := FindSeparator(str);
    if |str| > 90 || !found || p == 0 || p + 7 > |str| {
      if found { OnlyHere(str, p); }
      return None;
    }
    OnlyHere(str, p);
    var values;
    ok, values := ReverseAll(str[p + 1..]);
    if !ok {
      return None;
    }
    var hrp := LowerPrefix(str[..p]);
    RangeOfPrefix(str, p);
    LoweredOctets(str[..p]);
    var enc := ExpandHrp(hrp);
    var m := ComputePolyMod(enc + values);
    if m != 1 {
      return None;
    }
    assert Decodable(str, p);
    r := Some(Decoding(hrp, values[..|values| - 6]));
  }

  lemma RangeOfPrefix(str: string, p: nat)
    requires InRange(str) && p <= |str|
    ensures InRange(str[..p])
  {
  }

  lemma OnlyHere(str: string, p: nat)
    requires LastSeparator(str, p)
    ensures forall q: nat :: Decodable(str, q) ==> q == p
  {
    hide Octets, Verifies, AllLetters, InRange, HasUpper, HasLower;
    forall q: nat | Decodable(str, q) ensures q == p { SoleSeparator(str, p, q); }
  }
}
