/** Two and three errors. The generator of the checksum has three roots in the field of 1024 elements that are
    consecutive powers of y: it makes a BCH code. A list with remainder zero, read as a polynomial, vanishes at
    them. For a list with at most three symbols that are not zero, within 1023 symbols, this is impossible: the
    three equations leave a multiple of the first symbol that comes back to itself too early. */
module Bech32Errors {
  import opened Basics
  import opened Bech32
  import opened Bech32Field

  // ---- GF(32) in the larger field ----

  function Choose(s: Word, bit: Word, x: Point): Point { if s & bit != 0 then x else 0 }

  /** A 5-bit value as an element of the larger field. */
  function Embed(s: Word): Point {
    Sum(Sum(Sum(Sum(Choose(s, 1, 0x001), Choose(s, 2, 0x00e)), Choose(s, 4, 0x054)), Choose(s, 8, 0x358)),
      Choose(s, 16, 0x0bf))
  }

  lemma ChoosePlus(a: Word, b: Word, bit: Word, x: Point)
    requires bit == 1 || bit == 2 || bit == 4 || bit == 8 || bit == 16
    ensures Choose(Plus(a, b), bit, x) == Sum(Choose(a, bit, x), Choose(b, bit, x))
  {
    AndXor(a, b, bit);
    BitOf(a, bit);
    BitOf(b, bit);
    XorFacts(bit);
    SumFacts(x, 0);
    SumFacts(0, x);
    SumFacts(0, 0);
    hide Sum;
  }

  lemma EmbedPlus(a: Word, b: Word)
    ensures Embed(Plus(a, b)) == Sum(Embed(a), Embed(b))
  {
    hide Sum, Plus, Choose;
    var a1, a2, a3, a4, a5 := Choose(a, 1, 0x001), Choose(a, 2, 0x00e), Choose(a, 4, 0x054), Choose(a, 8, 0x358),
      Choose(a, 16, 0x0bf);
    var b1, b2, b3, b4, b5 := Choose(b, 1, 0x001), Choose(b, 2, 0x00e), Choose(b, 4, 0x054), Choose(b, 8, 0x358),
      Choose(b, 16, 0x0bf);
    ChoosePlus(a, b, 1, 0x001);
    ChoosePlus(a, b, 2, 0x00e);
    ChoosePlus(a, b, 4, 0x054);
    ChoosePlus(a, b, 8, 0x358);
    ChoosePlus(a, b, 16, 0x0bf);
    SumsInterchange(a1, b1, a2, b2);
    SumsInterchange(Sum(a1, a2), Sum(b1, b2), a3, b3);
    SumsInterchange(Sum(Sum(a1, a2), a3), Sum(Sum(b1, b2), b3), a4, b4);
    SumsInterchange(Sum(Sum(Sum(a1, a2), a3), a4), Sum(Sum(Sum(b1, b2), b3), b4), a5, b5);
  }

  lemma EmbedNonzero(s: Symbol)
    ensures Embed(s) == 0 <==> s == 0
  {
  }

  // ---- The value of a remainder at a root ----

  predicate Root(r: nat) { r == 24 || r == 25 || r == 26 }

  /** A polynomial with six coefficients at y^r. */
  function Horner(r: nat, p0: Point, p1: Point, p2: Point, p3: Point, p4: Point, p5: Point): Point {
    Sum(p0, Times(Sum(p1, Times(Sum(p2, Times(Sum(p3, Times(Sum(p4, Times(p5, r)), r)), r)), r)), r))
  }

  lemma TermSum(r: nat, p: Point, q: Point, x: Point, z: Point)
    ensures Sum(Sum(p, q), Times(Sum(x, z), r)) == Sum(Sum(p, Times(x, r)), Sum(q, Times(z, r)))
  {
    hide Sum, Times;
    TimesSum(x, z, r);
    SumsInterchange(p, q, Times(x, r), Times(z, r));
  }

  lemma HornerSum(r: nat, p0: Point, p1: Point, p2: Point, p3: Point, p4: Point, p5: Point,
                  q0: Point, q1: Point, q2: Point, q3: Point, q4: Point, q5: Point)
    ensures Horner(r, Sum(p0, q0), Sum(p1, q1), Sum(p2, q2), Sum(p3, q3), Sum(p4, q4), Sum(p5, q5))
            == Sum(Horner(r, p0, p1, p2, p3, p4, p5), Horner(r, q0, q1, q2, q3, q4, q5))
  {
    hide Sum, Times;
    var a4, b4 := Sum(p4, Times(p5, r)), Sum(q4, Times(q5, r));
    var a3, b3 := Sum(p3, Times(a4, r)), Sum(q3, Times(b4, r));
    var a2, b2 := Sum(p2, Times(a3, r)), Sum(q2, Times(b3, r));
    var a1, b1 := Sum(p1, Times(a2, r)), Sum(q1, Times(b2, r));
    TermSum(r, p4, q4, p5, q5);
    TermSum(r, p3, q3, a4, b4);
    TermSum(r, p2, q2, a3, b3);
    TermSum(r, p1, q1, a2, b2);
    TermSum(r, p0, q0, a1, b1);
  }

  /** The value at y^r of the polynomial that `c` packs. */
  function AtRoot(r: nat, c: Word): Point {
    Horner(r, Embed(Low5(c)), Embed(Low5(c >> 5)), Embed(Low5(c >> 10)), Embed(Low5(c >> 15)), Embed(Low5(c >> 20)),
      Embed(Low5(c >> 25)))
  }

  lemma LowPlus(c: Word, d: Word)
    ensures Low5(Plus(c, d)) == Plus(Low5(c), Low5(d))
  {
  }

  lemma LowPlus5(c: Word, d: Word)
    ensures Low5(Plus(c, d) >> 5) == Plus(Low5(c >> 5), Low5(d >> 5))
  {
  }

  lemma LowPlus10(c: Word, d: Word)
    ensures Low5(Plus(c, d) >> 10) == Plus(Low5(c >> 10), Low5(d >> 10))
  {
  }

  lemma LowPlus15(c: Word, d: Word)
    ensures Low5(Plus(c, d) >> 15) == Plus(Low5(c >> 15), Low5(d >> 15))
  {
  }

  lemma LowPlus20(c: Word, d: Word)
    ensures Low5(Plus(c, d) >> 20) == Plus(Low5(c >> 20), Low5(d >> 20))
  {
  }

  lemma LowPlus25(c: Word, d: Word)
    ensures Low5(Plus(c, d) >> 25) == Plus(Low5(c >> 25), Low5(d >> 25))
  {
  }

  lemma ValuePlus(r: nat, c: Word, d: Word)
    ensures AtRoot(r, Plus(c, d)) == Sum(AtRoot(r, c), AtRoot(r, d))
  {
    hide Plus, Low5, Embed, Horner;
    LowPlus(c, d);
    LowPlus5(c, d);
    LowPlus10(c, d);
    LowPlus15(c, d);
    LowPlus20(c, d);
    LowPlus25(c, d);
    EmbedPlus(Low5(c), Low5(d));
    EmbedPlus(Low5(c >> 5), Low5(d >> 5));
    EmbedPlus(Low5(c >> 10), Low5(d >> 10));
    EmbedPlus(Low5(c >> 15), Low5(d >> 15));
    EmbedPlus(Low5(c >> 20), Low5(d >> 20));
    EmbedPlus(Low5(c >> 25), Low5(d >> 25));
    HornerSum(r, Embed(Low5(c)), Embed(Low5(c >> 5)), Embed(Low5(c >> 10)), Embed(Low5(c >> 15)), Embed(Low5(c >> 20)),
      Embed(Low5(c >> 25)), Embed(Low5(d)), Embed(Low5(d >> 5)), Embed(Low5(d >> 10)), Embed(Low5(d >> 15)),
      Embed(Low5(d >> 20)), Embed(Low5(d >> 25)));
  }

  // ---- The roots ----

  /** What reduction adds for a leading coefficient is x^6 times that coefficient, at a root. */
  predicate Reduces(r: nat, s: Word) { AtRoot(r, Reduction(s)) == Times(Embed(s), 6 * r) }

  /** The same with the powers of y that occur. */
  predicate ReducesBy(w: Point, v: Point, c: Word, s: Word) {
    Sum(Embed(Low5(c)), Product(Sum(Embed(Low5(c >> 5)), Product(Sum(Embed(Low5(c >> 10)),
      Product(Sum(Embed(Low5(c >> 15)), Product(Sum(Embed(Low5(c >> 20)), Product(Embed(Low5(c >> 25)), w)), w)), w)),
        w)), w))
    == Product(Embed(s), v)
  }

  lemma ReducesBit(r: nat, w: Point, v: Point, s: Word, c: Word)
    requires Times(1, r) == w && Times(1, 6 * r) == v && Reduction(s) == c && ReducesBy(w, v, c, s)
    ensures Reduces(r, s)
  {
    hide Sum, Times, Product, Low5, Embed, Reduction;
    ProductIsTimes(Embed(s), 6 * r);
    var p4 := Sum(Embed(Low5(c >> 20)), Product(Embed(Low5(c >> 25)), w));
    var p3 := Sum(Embed(Low5(c >> 15)), Product(p4, w));
    var p2 := Sum(Embed(Low5(c >> 10)), Product(p3, w));
    var p1 := Sum(Embed(Low5(c >> 5)), Product(p2, w));
    ProductIsTimes(Embed(Low5(c >> 25)), r);
    ProductIsTimes(p4, r);
    ProductIsTimes(p3, r);
    ProductIsTimes(p2, r);
    ProductIsTimes(p1, r);
  }

  lemma Root24()
    ensures Reduces(24, 1) && Reduces(24, 2) && Reduces(24, 4) && Reduces(24, 8) && Reduces(24, 16)
  {
    hide Times, Reduces;
    Powers();
    ReducesBit(24, 0x3f0, 0x2ba, 1, 0x3b6a57b2);
    ReducesBit(24, 0x3f0, 0x2ba, 2, 0x26508e6d);
    ReducesBit(24, 0x3f0, 0x2ba, 4, 0x1ea119fa);
    ReducesBit(24, 0x3f0, 0x2ba, 8, 0x3d4233dd);
    ReducesBit(24, 0x3f0, 0x2ba, 16, 0x2a1462b3);
  }

  lemma Root25()
    ensures Reduces(25, 1) && Reduces(25, 2) && Reduces(25, 4) && Reduces(25, 8) && Reduces(25, 16)
  {
    hide Times, Reduces;
    Powers();
    ReducesBit(25, 0x2c3, 0x0a6, 1, 0x3b6a57b2);
    ReducesBit(25, 0x2c3, 0x0a6, 2, 0x26508e6d);
    ReducesBit(25, 0x2c3, 0x0a6, 4, 0x1ea119fa);
    ReducesBit(25, 0x2c3, 0x0a6, 8, 0x3d4233dd);
    ReducesBit(25, 0x2c3, 0x0a6, 16, 0x2a1462b3);
  }

  lemma Root26()
    ensures Reduces(26, 1) && Reduces(26, 2) && Reduces(26, 4) && Reduces(26, 8) && Reduces(26, 16)
  {
    hide Times, Reduces;
    Powers();
    ReducesBit(26, 0x0a5, 0x098, 1, 0x3b6a57b2);
    ReducesBit(26, 0x0a5, 0x098, 2, 0x26508e6d);
    ReducesBit(26, 0x0a5, 0x098, 4, 0x1ea119fa);
    ReducesBit(26, 0x0a5, 0x098, 8, 0x3d4233dd);
    ReducesBit(26, 0x0a5, 0x098, 16, 0x2a1462b3);
  }

  lemma ReducesPlus(r: nat, a: Word, b: Word)
    requires Reduces(r, a) && Reduces(r, b)
    ensures Reduces(r, Plus(a, b))
  {
    hide Plus, Reduction, AtRoot, Times, Embed, Sum;
    ReductionPlus(a, b);
    ValuePlus(r, Reduction(a), Reduction(b));
    EmbedPlus(a, b);
    TimesSum(Embed(a), Embed(b), 6 * r);
  }

  lemma ReducesNone(r: nat)
    ensures Reduces(r, 0)
  {
    hide Plus, Reduction, AtRoot, Times, Embed, Sum;
    PlusZero(0);
    ReductionPlus(0, 0);
    ValuePlus(r, Reduction(0), Reduction(0));
    PlusZero(Reduction(0));
    EmbedPlus(0, 0);
    SumFacts(Embed(0), Embed(0));
    SumFacts(AtRoot(r, Reduction(0)), AtRoot(r, Reduction(0)));
    TimesNonzero(Embed(0), 6 * r);
  }

  lemma ReducesPart(r: nat, s: Word, bit: Word)
    requires Root(r) && (bit == 1 || bit == 2 || bit == 4 || bit == 8 || bit == 16)
    ensures Reduces(r, s & bit)
  {
    hide Reduces;
    BitOf(s, bit);
    ReducesNone(r);
    Root24();
    Root25();
    Root26();
  }

  lemma BitsOf(s: Word)
    requires s < 32
    ensures s == Plus(Plus(Plus(Plus(s & 1, s & 2), s & 4), s & 8), s & 16)
  {
  }

  lemma ReducesAll(r: nat, s: Word)
    requires Root(r) && s < 32
    ensures Reduces(r, s)
  {
    hide Plus, Reduces, Root;
    BitsOf(s);
    var a, b, c, d, e := s & 1, s & 2, s & 4, s & 8, s & 16;
    ReducesPart(r, s, 1);
    ReducesPart(r, s, 2);
    ReducesPart(r, s, 4);
    ReducesPart(r, s, 8);
    ReducesPart(r, s, 16);
    ReducesPlus(r, a, b);
    ReducesPlus(r, Plus(a, b), c);
    ReducesPlus(r, Plus(Plus(a, b), c), d);
    ReducesPlus(r, Plus(Plus(Plus(a, b), c), d), e);
  }

  lemma ShiftedLows(c: Word, v: Symbol)
    requires c < 0x40000000
    ensures var d := Plus(Shifted(c), v);
            && Low5(d) == v && Low5(d >> 5) == Low5(c) && Low5(d >> 10) == Low5(c >> 5)
            && Low5(d >> 15) == Low5(c >> 10) && Low5(d >> 20) == Low5(c >> 15) && Low5(d >> 25) == Low5(c >> 20)
                 && Leading(c) == Low5(c >> 25)
  {
  }

  /** Without the reduction: multiplication by x drops the leading coefficient. */
  lemma ValueShifted(r: nat, c: Word, v: Symbol)
    requires c < 0x40000000
    ensures Sum(AtRoot(r, Plus(Shifted(c), v)), Times(Embed(Leading(c)), 6 * r))
            == Sum(Times(AtRoot(r, c), r), Embed(v))
  {
    hide Plus, Shifted, Low5, Embed, Leading, Sum, Times;
    ShiftedLows(c, v);
    HornerShifts(r, Embed(v), Embed(Low5(c)), Embed(Low5(c >> 5)), Embed(Low5(c >> 10)), Embed(Low5(c >> 15)),
      Embed(Low5(c >> 20)), Embed(Low5(c >> 25)));
  }

  lemma LeadingTerm(r: nat, p: Point)
    ensures Horner(r, 0, 0, 0, 0, 0, p) == Times(p, 5 * r)
  {
    hide Sum, Times;
    TimesAgain(p, r, r);
    TimesAgain(p, 2 * r, r);
    TimesAgain(p, 3 * r, r);
    TimesAgain(p, 4 * r, r);
    SumFacts(0, Times(p, r));
    SumFacts(Times(p, r), 0);
    SumFacts(Times(p, 2 * r), 0);
    SumFacts(Times(p, 3 * r), 0);
    SumFacts(Times(p, 4 * r), 0);
    SumFacts(Times(p, 5 * r), 0);
    SumFacts(0, Times(p, 2 * r));
    SumFacts(0, Times(p, 3 * r));
    SumFacts(0, Times(p, 4 * r));
    SumFacts(0, Times(p, 5 * r));
  }

  lemma OtherTerms(r: nat, v: Point, p0: Point, p1: Point, p2: Point, p3: Point, p4: Point)
    ensures Horner(r, v, p0, p1, p2, p3, p4) == Sum(v, Times(Horner(r, p0, p1, p2, p3, p4, 0), r))
  {
    hide Sum, Times;
    TimesNonzero(0, r);
    SumFacts(p4, 0);
  }

  lemma HornerSplits(r: nat, p0: Point, p1: Point, p2: Point, p3: Point, p4: Point, p5: Point)
    ensures Horner(r, p0, p1, p2, p3, p4, p5) == Sum(Horner(r, p0, p1, p2, p3, p4, 0), Times(p5, 5 * r))
  {
    hide Sum, Times, Horner;
    HornerSum(r, p0, p1, p2, p3, p4, 0, 0, 0, 0, 0, 0, p5);
    SumFacts(p0, 0);
    SumFacts(p1, 0);
    SumFacts(p2, 0);
    SumFacts(p3, 0);
    SumFacts(p4, 0);
    SumFacts(p5, 0);
    SumFacts(0, p5);
    LeadingTerm(r, p5);
  }

  lemma HornerShifts(r: nat, v: Point, p0: Point, p1: Point, p2: Point, p3: Point, p4: Point, p5: Point)
    ensures Sum(Horner(r, v, p0, p1, p2, p3, p4), Times(p5, 6 * r))
            == Sum(Times(Horner(r, p0, p1, p2, p3, p4, p5), r), v)
  {
    hide Sum, Times, Horner;
    var h := Horner(r, p0, p1, p2, p3, p4, 0);
    HornerSplits(r, p0, p1, p2, p3, p4, p5);
    TimesSum(h, Times(p5, 5 * r), r);
    TimesAgain(p5, 5 * r, r);
    OtherTerms(r, v, p0, p1, p2, p3, p4);
    SumAssociates(v, Times(h, r), Times(p5, 6 * r));
    SumFacts(v, Sum(Times(h, r), Times(p5, 6 * r)));
  }

  /** At a root, a step of the checksum is a step of Horner's rule. */
  lemma ValueStep(r: nat, c: Word, v: Symbol)
    requires Root(r) && c < 0x40000000
    ensures AtRoot(r, Step(c, v)) == Sum(Times(AtRoot(r, c), r), Embed(v))
  {
    hide Plus, Shifted, Leading, Reduction, AtRoot, Embed, Sum, Times, Root;
    LeadingIsSmall(c);
    ReducesAll(r, Leading(c));
    ValuePlus(r, Plus(Shifted(c), v), Reduction(Leading(c)));
    ValueShifted(r, c, v);
  }

  lemma LeadingIsSmall(c: Word)
    requires c < 0x40000000
    ensures Leading(c) < 32
  {
  }

  // ---- Lists ----

  lemma RunIsSmall(c: Word, v: seq<Symbol>)
    requires c < 0x40000000
    ensures Run(c, v) < 0x40000000
  {
    hide Step;
    if v != [] { StepIsSmall(Run(c, v[..|v| - 1]), v[|v| - 1]); }
  }

  lemma ValueNone(r: nat)
    ensures AtRoot(r, 0) == 0
  {
    hide Plus, AtRoot, Sum;
    PlusZero(0);
    ValuePlus(r, 0, 0);
    SumFacts(AtRoot(r, 0), AtRoot(r, 0));
  }

  lemma {:induction false} ValueZeros(r: nat, c: Word, v: seq<Symbol>)
    requires Root(r) && c < 0x40000000 && AllZero(v)
    ensures AtRoot(r, Run(c, v)) == Times(AtRoot(r, c), r * |v|)
  {
    hide Step, AtRoot, Embed, Sum, Times, Root;
    if v == [] {
      assert r * 0 == 0;
      TimesNone(AtRoot(r, c));
    } else {
      var n := |v| - 1;
      ValueZeros(r, c, v[..n]);
      RunIsSmall(c, v[..n]);
      ValueStep(r, Run(c, v[..n]), 0);
      EmbedNonzero(0);
      SumFacts(Times(AtRoot(r, Run(c, v[..n])), r), 0);
      TimesAgain(AtRoot(r, c), r * n, r);
      assert r * n + r == r * (n + 1);
    }
  }

  /** Zeros and then a symbol. */
  lemma ValueOn(r: nat, c: Word, zeros: seq<Symbol>, f: Symbol)
    requires Root(r) && c < 0x40000000 && AllZero(zeros)
    ensures AtRoot(r, Run(c, zeros + [f])) == Sum(Times(AtRoot(r, c), r * (|zeros| + 1)), Embed(f))
  {
    hide Step, AtRoot, Embed, Sum, Times, Root;
    var d := Run(c, zeros);
    RunAppend(c, zeros, [f]);
    assert [f][..0] == [];
    assert Run(d, [f]) == Step(d, f);
    ValueZeros(r, c, zeros);
    RunIsSmall(c, zeros);
    ValueStep(r, d, f);
    TimesAgain(AtRoot(r, c), r * |zeros|, r);
    assert r * |zeros| + r == r * (|zeros| + 1);
  }

  lemma ValueFirst(r: nat, e: Symbol)
    requires Root(r)
    ensures AtRoot(r, Run(0, [e])) == Embed(e)
  {
    hide Step, AtRoot, Embed, Sum, Times, Root, Run;
    ValueOn(r, 0, [], e);
    assert [] + [e] == [e];
    ValueNone(r);
    TimesNonzero(0, r * 1);
    SumFacts(0, Embed(e));
    SumFacts(Embed(e), 0);
  }

  // ---- Three errors ----

  /** What three errors amount to at a root. */
  lemma ValueOfThree(r: nat, e: Symbol, zeros: seq<Symbol>, f: Symbol, zeros': seq<Symbol>, g: Symbol)
    requires Root(r) && AllZero(zeros) && AllZero(zeros')
    ensures var n, m := |zeros| + 1, |zeros'| + 1;
            AtRoot(r, Run(0, [e] + (zeros + [f]) + (zeros' + [g])))
            == Sum(Sum(Times(Embed(e), r * (n + m)), Times(Embed(f), r * m)), Embed(g))
  {
    hide AtRoot, Embed, Sum, Times, Root, Run, AllZero;
    var n, m := |zeros| + 1, |zeros'| + 1;
    RunAppend(0, [e] + (zeros + [f]), zeros' + [g]);
    RunAppend(0, [e], zeros + [f]);
    ValueFirst(r, e);
    RunIsSmall(0, [e]);
    ValueOn(r, Run(0, [e]), zeros, f);
    RunIsSmall(0, [e] + (zeros + [f]));
    ValueOn(r, Run(0, [e] + (zeros + [f])), zeros', g);
    TimesSum(Times(Embed(e), r * n), Embed(f), r * m);
    TimesAgain(Embed(e), r * n, r * m);
    assert r * n + r * m == r * (n + m);
  }

  /** Three equations of which the first term is zero. */
  lemma Vandermonde(p: Point, q: Point, s: Point, n: nat, m: nat)
    requires 0 < m < n < 1023 && Sum(Sum(p, q), s) == 0
    requires Sum(Sum(Times(p, n), Times(q, m)), s) == 0
    requires Sum(Sum(Times(p, 2 * n), Times(q, 2 * m)), s) == 0
    ensures p == 0
  {
    hide Sum, Times;
    var d, d' := Sum(Times(p, n), p), Sum(Times(q, m), q);
    Moves(p, q, s, Times(p, n), Times(q, m));
    Moves(p, q, s, Times(p, 2 * n), Times(q, 2 * m));
    Squares(p, n);
    Squares(q, m);
    SumCancels(Times(d, n), Times(d, m), d);
    TimesAgain(d, n - m, m);
    TimesInjective(Times(d, n - m), d, m);
    Period(d, n - m);
    SumFacts(Times(p, n), p);
    Period(p, n);
  }

  lemma Moves(p: Point, q: Point, s: Point, p': Point, q': Point)
    requires Sum(Sum(p, q), s) == 0 && Sum(Sum(p', q'), s) == 0
    ensures Sum(p', p) == Sum(q', q)
  {
    hide Sum;
    SumFacts(Sum(p, q), s);
    SumFacts(Sum(p', q'), s);
    SumsInterchange(p', q', p, q);
    SumFacts(s, s);
    SumFacts(Sum(p', p), Sum(q', q));
  }

  lemma Squares(p: Point, n: nat)
    ensures Sum(Times(p, 2 * n), p) == Sum(Times(Sum(Times(p, n), p), n), Sum(Times(p, n), p))
  {
    hide Sum, Times;
    var w := Times(p, n);
    TimesSum(w, p, n);
    TimesAgain(p, n, n);
    SumAssociates(Times(p, 2 * n), w, Sum(w, p));
    SumAssociates(w, w, p);
    SumFacts(w, w);
    SumFacts(0, p);
    SumFacts(p, 0);
  }

  lemma SumCancels(a: Point, b: Point, c: Point)
    requires Sum(a, c) == Sum(b, c)
    ensures a == b
  {
    hide Sum;
    SumAssociates(a, c, c);
    SumAssociates(b, c, c);
    SumFacts(c, c);
    SumFacts(a, 0);
    SumFacts(b, 0);
  }

  /** Three errors that close leave a remainder. */
  lemma ThreeErrorsRemain(e: Symbol, zeros: seq<Symbol>, f: Symbol, zeros': seq<Symbol>, g: Symbol)
    requires e != 0 && AllZero(zeros) && AllZero(zeros') && |zeros| + |zeros'| < 1021
    ensures Run(0, [e] + (zeros + [f]) + (zeros' + [g])) != 0
  {
    hide AtRoot, Embed, Sum, Times, Run, AllZero;
    var n, m := |zeros| + 1, |zeros'| + 1;
    if Run(0, [e] + (zeros + [f]) + (zeros' + [g])) == 0 {
      ValueNone(24);
      ValueNone(25);
      ValueNone(26);
      ValueOfThree(24, e, zeros, f, zeros', g);
      ValueOfThree(25, e, zeros, f, zeros', g);
      ValueOfThree(26, e, zeros, f, zeros', g);
      var p, q := Times(Embed(e), 24 * (n + m)), Times(Embed(f), 24 * m);
      TimesAgain(Embed(e), 24 * (n + m), n + m);
      TimesAgain(Embed(f), 24 * m, m);
      TimesAgain(Embed(e), 24 * (n + m), 2 * (n + m));
      TimesAgain(Embed(f), 24 * m, 2 * m);
      Vandermonde(p, q, Embed(g), n + m, m);
      TimesNonzero(Embed(e), 24 * (n + m));
      EmbedNonzero(e);
    }
  }

  /** Two lists that differ in two or three symbols, within a window of 1023, have different remainders, whatever
      their length. */
  lemma ThreeErrorsDetected(v: seq<Symbol>, w: seq<Symbol>, p: nat, q: nat, r: nat)
    requires |v| == |w| && p < q < r < |v| && r - p < 1023 && v[p] != w[p]
    requires forall i :: 0 <= i < |v| && i != p && i != q && i != r ==> v[i] == w[i]
    ensures PolyMod(v) != PolyMod(w)
  {
    hide Step, Plus, Difference, Run;
    var d := Difference(v, w);
    forall i | 0 <= i < |d| ensures d[i] == 0 <==> v[i] == w[i] { SameSymbols(v, w, i); }
    DifferenceOfSums(v, w);
    var part := [d[p]] + (d[p + 1..q] + [d[q]]) + (d[q + 1..r] + [d[r]]);
    assert d == d[..p] + part + d[r + 1..];
    ThreeErrorsRemain(d[p], d[p + 1..q], d[q], d[q + 1..r], d[r]);
    RunIsSmall(0, part);
    NonzeroPart(d[..p], part, d[r + 1..]);
  }

  /** Two errors that close leave a remainder. */
  lemma TwoErrorsRemain(e: Symbol, zeros: seq<Symbol>, f: Symbol)
    requires e != 0 && AllZero(zeros) && |zeros| < 1022
    ensures Run(0, [e] + (zeros + [f])) != 0
  {
    hide AtRoot, Embed, Sum, Times, Run, AllZero;
    var n := |zeros| + 1;
    if Run(0, [e] + (zeros + [f])) == 0 {
      RunAppend(0, [e], zeros + [f]);
      RunIsSmall(0, [e]);
      ValueNone(24);
      ValueNone(25);
      ValueFirst(24, e);
      ValueFirst(25, e);
      ValueOn(24, Run(0, [e]), zeros, f);
      ValueOn(25, Run(0, [e]), zeros, f);
      var p := Times(Embed(e), 24 * n);
      TimesAgain(Embed(e), 24 * n, n);
      SumCancels(p, Times(p, n), Embed(f));
      Period(p, n);
      TimesNonzero(Embed(e), 24 * n);
      EmbedNonzero(e);
    }
  }

  /** Two lists that differ in exactly two symbols, within a window of 1023, have different remainders, whatever
      their length. */
  lemma TwoErrorsDetected(v: seq<Symbol>, w: seq<Symbol>, p: nat, q: nat)
    requires |v| == |w| && p < q < |v| && q - p < 1023 && v[p] != w[p]
    requires forall i :: 0 <= i < |v| && i != p && i != q ==> v[i] == w[i]
    ensures PolyMod(v) != PolyMod(w)
  {
    hide Step, Plus, Difference, Run;
    var d := Difference(v, w);
    forall i | 0 <= i < |d| ensures d[i] == 0 <==> v[i] == w[i] { SameSymbols(v, w, i); }
    DifferenceOfSums(v, w);
    var part := [d[p]] + (d[p + 1..q] + [d[q]]);
    assert d == d[..p] + part + d[q + 1..];
    TwoErrorsRemain(d[p], d[p + 1..q], d[q]);
    RunIsSmall(0, part);
    NonzeroPart(d[..p], part, d[q + 1..]);
  }

  // ---- Up to three errors ----

  function Differences<T(==)>(v: seq<T>, w: seq<T>): set<nat>
    requires |v| == |w|
  {
    set i: nat | i < |v| && v[i] != w[i]
  }

  lemma Least(places: set<nat>) returns (p: nat)
    requires places != {}
    ensures p in places && forall i :: i in places ==> p <= i
    decreases |places|
  {
    var some :| some in places;
    var rest := places - {some};
    p := some;
    if rest != {} {
      var q := Least(rest);
      if q < p { p := q; }
    }
    assert places == rest + {some};
  }

  lemma DifferAt<T>(v: seq<T>, w: seq<T>)
    requires |v| == |w|
    ensures forall i :: 0 <= i < |v| ==> (v[i] == w[i] <==> i !in Differences(v, w))
    ensures v != w ==> Differences(v, w) != {}
  {
    if v != w {
      var i :| 0 <= i < |v| && v[i] != w[i];
      assert i in Differences(v, w);
    }
  }

  /** Any one, two or three errors within a window of 1023 symbols change the remainder. */
  lemma ErrorsDetected(v: seq<Symbol>, w: seq<Symbol>, start: nat)
    requires |v| == |w| && v != w && |Differences(v, w)| <= 3
    requires forall i :: i in Differences(v, w) ==> start <= i < start + 1023
    ensures PolyMod(v) != PolyMod(w)
  {
    hide PolyMod;
    var places := Differences(v, w);
    DifferAt(v, w);
    var p := Least(places);
    var rest := places - {p};
    if rest == {} {
      assert places == {p};
      OneErrorDetected(v, w, p);
    } else {
      var q := Least(rest);
      var last := rest - {q};
      if last == {} {
        assert places == {p, q};
        TwoErrorsDetected(v, w, p, q);
      } else {
        var r := Least(last);
        assert |last - {r}| == 0;
        assert places == {p, q, r};
        ThreeErrorsDetected(v, w, p, q, r);
      }
    }
  }

  /** Of two value lists with the same prefix that differ in up to three symbols, at most one verifies. */
  lemma NotBothVerifyThree(hrp: string, v: seq<Symbol>, w: seq<Symbol>)
    requires Octets(hrp) && |v| == |w| <= 1023 && v != w && |Differences(v, w)| <= 3
    ensures !(Verifies(hrp, v) && Verifies(hrp, w))
  {
    hide PolyMod, Expand;
    var e := Expand(hrp);
    assert (e + v)[|e|..] == v && (e + w)[|e|..] == w;
    SameNumber(e, v, w);
    ErrorsDetected(e + v, e + w, |e|);
  }

  lemma {:induction false} SameNumber<T>(e: seq<T>, v: seq<T>, w: seq<T>)
    requires |v| == |w|
    ensures |Differences(e + v, e + w)| == |Differences(v, w)|
    ensures forall i :: i in Differences(e + v, e + w) ==> |e| <= i
    decreases |v|
  {
    hide Differences;
    if v == [] {
      assert e + v == e + w;
      NoneDiffer(v);
      NoneDiffer(e + v);
    } else {
      var n := |v| - 1;
      var a, b := e + v, e + w;
      assert a[..|e| + n] == e + v[..n] && b[..|e| + n] == e + w[..n];
      SameNumber(e, v[..n], w[..n]);
      LastDiffers(v, w);
      LastDiffers(a, b);
    }
  }

  lemma NoneDiffer<T>(v: seq<T>)
    ensures Differences(v, v) == {}
  {
  }

  lemma LastDiffers<T>(v: seq<T>, w: seq<T>)
    requires |v| == |w| && v != []
    ensures var n := |v| - 1;
            var d := Differences(v[..n], w[..n]);
            Differences(v, w) == (if v[n] == w[n] then d else d + {n}) && n !in d
  {
  }

  /** No two strings that decode to the same prefix, and are of the same length, differ in one, two or three
      characters other than in case. */
  lemma StringsFarApart(str: string, str': string, d: Decoding, d': Decoding)
    requires DecodesTo(str, Some(d)) && DecodesTo(str', Some(d')) && d.hrp == d'.hrp && |str| == |str'|
    requires |Differences(Lowered(str), Lowered(str'))| <= 3
    ensures d == d' && Lowered(str) == Lowered(str')
  {
    hide Lowered, Expand, PolyMod, Checksum, Decodable, DecodesTo, Differences;
    var v := Parts(str, d);
    var w := Parts(str', d');
    if v != w {
      var e := d.hrp + "1";
      SameNumber(e, Letters(v), Letters(w));
      LettersDiffer(v, w);
      NotBothVerifyThree(d.hrp, v, w);
    }
  }

  lemma LettersDiffer(v: seq<Symbol>, w: seq<Symbol>)
    requires |v| == |w|
    ensures Differences(Letters(v), Letters(w)) == Differences(v, w)
  {
    hide Letter, SymbolOf;
    forall i | 0 <= i < |v| ensures Letters(v)[i] == Letters(w)[i] <==> v[i] == w[i] {
      LetterHasValue(v[i]);
      LetterHasValue(w[i]);
    }
  }

  /** The symbols of a string that decodes. */
  lemma Parts(str: string, d: Decoding) returns (v: seq<Symbol>)
    requires DecodesTo(str, Some(d))
    ensures Octets(d.hrp) && Verifies(d.hrp, v) && |v| + |d.hrp| + 1 == |str| && |str| <= 90
    ensures 6 <= |v| && d.values == v[..|v| - 6] && Lowered(str) == d.hrp + "1" + Letters(v)
  {
    var p: nat :| Decodable(str, p) && d.hrp == Lowered(str[..p]) && d.values == Values(str[p + 1..])[..|str| - p - 7];
    v := Values(str[p + 1..]);
    hide Expand, PolyMod, Letters, Reverse;
    ValuesHaveLetters(str[p + 1..]);
    LoweredAround(str, p);
  }
}
