/** The field of 1024 elements, of which the Bech32 checksum makes use: polynomials in y over GF(2), modulo
    y^10 + y^8 + y^5 + y + 1. Every nonzero element comes back to itself after 1023 multiplications by y, and not
    before. */
module Bech32Field {
  type Point = bv10

  function Sum(a: Point, b: Point): Point { a ^ b }

  lemma SumFacts(a: Point, b: Point)
    ensures Sum(a, b) == Sum(b, a) && Sum(a, a) == 0 && Sum(a, 0) == a && (Sum(a, b) == 0 ==> a == b)
  {
  }

  lemma SumAssociates(a: Point, b: Point, c: Point)
    ensures Sum(Sum(a, b), c) == Sum(a, Sum(b, c))
  {
  }

  lemma SumsInterchange(a: Point, b: Point, c: Point, d: Point)
    ensures Sum(Sum(a, b), Sum(c, d)) == Sum(Sum(a, c), Sum(b, d))
  {
    hide Sum;
    SumAssociates(a, b, Sum(c, d));
    SumAssociates(b, c, d);
    SumFacts(b, c);
    SumAssociates(c, b, d);
    SumAssociates(a, c, Sum(b, d));
  }

  // ---- Multiplication by y ----

  function Next(x: Point): Point { (x << 1) ^ (if x & 0x200 != 0 then 0x123 else 0) }

  function Doubled(x: Point): Point { x << 1 }

  function Carry(x: Point): Point { if x & 0x200 != 0 then 0x123 else 0 }

  lemma NextIs(x: Point)
    ensures Next(x) == Sum(Doubled(x), Carry(x))
  {
  }

  lemma DoubledSum(a: Point, b: Point)
    ensures Doubled(Sum(a, b)) == Sum(Doubled(a), Doubled(b))
  {
    assert (a ^ b) << 1 == (a << 1) ^ (b << 1);
  }

  lemma CarrySum(a: Point, b: Point)
    ensures Carry(Sum(a, b)) == Sum(Carry(a), Carry(b))
  {
    assert (a ^ b) & 0x200 == (a & 0x200) ^ (b & 0x200);
    assert (a & 0x200 == 0 || a & 0x200 == 0x200) && (b & 0x200 == 0 || b & 0x200 == 0x200);
  }

  lemma NextSum(a: Point, b: Point)
    ensures Next(Sum(a, b)) == Sum(Next(a), Next(b))
  {
    hide Next, Sum, Doubled, Carry;
    NextIs(a);
    NextIs(b);
    NextIs(Sum(a, b));
    DoubledSum(a, b);
    CarrySum(a, b);
    SumsInterchange(Doubled(a), Doubled(b), Carry(a), Carry(b));
  }

  lemma NextNonzero(x: Point)
    ensures Next(x) == 0 <==> x == 0
  {
  }

  /** `x` times y^n. */
  function Times(x: Point, n: nat): Point { if n == 0 then x else Next(Times(x, n - 1)) }

  lemma {:induction false} TimesSum(a: Point, b: Point, n: nat)
    ensures Times(Sum(a, b), n) == Sum(Times(a, n), Times(b, n))
  {
    hide Sum, Next;
    if n > 0 {
      TimesSum(a, b, n - 1);
      NextSum(Times(a, n - 1), Times(b, n - 1));
    }
  }

  lemma {:induction false} TimesAgain(x: Point, n: nat, m: nat)
    ensures Times(Times(x, n), m) == Times(x, n + m)
  {
    hide Next;
    if m > 0 { TimesAgain(x, n, m - 1); }
  }

  lemma {:induction false} TimesNonzero(x: Point, n: nat)
    ensures Times(x, n) == 0 <==> x == 0
  {
    hide Next;
    if n > 0 {
      TimesNonzero(x, n - 1);
      NextNonzero(Times(x, n - 1));
    }
  }

  lemma TimesInjective(a: Point, b: Point, n: nat)
    requires Times(a, n) == Times(b, n)
    ensures a == b
  {
    hide Sum, Times;
    TimesSum(a, b, n);
    SumFacts(Times(a, n), Times(a, n));
    TimesNonzero(Sum(a, b), n);
    SumFacts(a, b);
  }

  // ---- Multiplication by any element ----

  /** `rest`, and `w` too if the given bit of `x` is set. */
  function Take(x: Point, bit: Point, w: Point, rest: Point): Point { (if x & bit != 0 then w else 0) ^ rest }

  lemma TakeIs(x: Point, bit: Point, w: Point, rest: Point)
    ensures Take(x, bit, w, rest) == Sum(if x & bit != 0 then w else 0, rest)
  {
  }

  /** The sum of the multiples of `w` by powers of y that the bits of `x` select. */
  function Product(x: Point, w: Point): Point {
    Take(x, 1, w, Next(Take(x, 2, w, Next(Take(x, 4, w, Next(Take(x, 8, w, Next(Take(x, 0x10, w, Next(Take(x,
      0x20, w, Next(Take(x, 0x40, w, Next(Take(x, 0x80, w, Next(Take(x, 0x100, w, Next(Take(x, 0x200, w,
      0)))))))))))))))))))
  }

  lemma Halves(x: Point)
    ensures Take(x, 1, 1, Next(x >> 1)) == x
  {
  }

  predicate SameBit(x: Point, bit: Point, z: Point) { x & bit != 0 <==> z & 1 != 0 }

  lemma HalvesAt(x: Point, z: Point, bit: Point)
    requires SameBit(x, bit, z)
    ensures Take(x, bit, 1, Next(z >> 1)) == z
  {
    hide Next;
    Halves(z);
    hide Take;
    TakeIs(x, bit, 1, Next(z >> 1));
    TakeIs(z, 1, 1, Next(z >> 1));
  }

  lemma Bits(x: Point)
    ensures x >> 10 == 0 && SameBit(x, 1, x)
    ensures SameBit(x, 2, x >> 1) && (x >> 1) >> 1 == x >> 2
    ensures SameBit(x, 4, x >> 2) && (x >> 2) >> 1 == x >> 3
    ensures SameBit(x, 8, x >> 3) && (x >> 3) >> 1 == x >> 4
    ensures SameBit(x, 0x10, x >> 4) && (x >> 4) >> 1 == x >> 5
    ensures SameBit(x, 0x20, x >> 5) && (x >> 5) >> 1 == x >> 6
    ensures SameBit(x, 0x40, x >> 6) && (x >> 6) >> 1 == x >> 7
    ensures SameBit(x, 0x80, x >> 7) && (x >> 7) >> 1 == x >> 8
    ensures SameBit(x, 0x100, x >> 8) && (x >> 8) >> 1 == x >> 9
    ensures SameBit(x, 0x200, x >> 9) && (x >> 9) >> 1 == x >> 10
  {
  }

  lemma ProductOne(x: Point)
    ensures Product(x, 1) == x
  {
    NextNonzero(0);
    hide Next, Take, SameBit;
    Bits(x);
    HalvesAt(x, x >> 9, 0x200);
    HalvesAt(x, x >> 8, 0x100);
    HalvesAt(x, x >> 7, 0x80);
    HalvesAt(x, x >> 6, 0x40);
    HalvesAt(x, x >> 5, 0x20);
    HalvesAt(x, x >> 4, 0x10);
    HalvesAt(x, x >> 3, 8);
    HalvesAt(x, x >> 2, 4);
    HalvesAt(x, x >> 1, 2);
    HalvesAt(x, x, 1);
  }

  lemma NextTake(x: Point, bit: Point, w: Point, rest: Point)
    ensures Next(Take(x, bit, w, rest)) == Take(x, bit, Next(w), Next(rest))
  {
    NextNonzero(0);
    hide Next, Sum, Take;
    TakeIs(x, bit, w, rest);
    TakeIs(x, bit, Next(w), Next(rest));
    NextSum(if x & bit != 0 then w else 0, rest);
  }

  lemma ProductNext(x: Point, w: Point)
    ensures Product(x, Next(w)) == Next(Product(x, w))
  {
    NextNonzero(0);
    hide Next, Take;
    var c9 := Next(Take(x, 0x200, w, 0));
    var c8 := Next(Take(x, 0x100, w, c9));
    var c7 := Next(Take(x, 0x80, w, c8));
    var c6 := Next(Take(x, 0x40, w, c7));
    var c5 := Next(Take(x, 0x20, w, c6));
    var c4 := Next(Take(x, 0x10, w, c5));
    var c3 := Next(Take(x, 8, w, c4));
    var c2 := Next(Take(x, 4, w, c3));
    var c1 := Next(Take(x, 2, w, c2));
    NextTake(x, 0x200, w, 0);
    NextTake(x, 0x100, w, c9);
    NextTake(x, 0x80, w, c8);
    NextTake(x, 0x40, w, c7);
    NextTake(x, 0x20, w, c6);
    NextTake(x, 0x10, w, c5);
    NextTake(x, 8, w, c4);
    NextTake(x, 4, w, c3);
    NextTake(x, 2, w, c2);
    NextTake(x, 1, w, c1);
  }

  lemma {:induction false} ProductIsTimes(x: Point, n: nat)
    ensures Product(x, Times(1, n)) == Times(x, n)
  {
    hide Product, Next;
    if n == 0 {
      ProductOne(x);
    } else {
      ProductIsTimes(x, n - 1);
      ProductNext(x, Times(1, n - 1));
    }
  }

  // ---- Powers of y ----

  lemma Adds(n: nat, v: Point, m: nat, w: Point, r: Point)
    requires Times(1, n) == v && Times(1, m) == w && Product(v, w) == r
    ensures Times(1, n + m) == r
  {
    hide Product, Times;
    ProductIsTimes(v, m);
    TimesAgain(1, n, m);
  }

  lemma Powers()
    ensures Times(1, 24) == 0x3f0 && Times(1, 25) == 0x2c3 && Times(1, 26) == 0x0a5
    ensures Times(1, 144) == 0x2ba && Times(1, 150) == 0x0a6 && Times(1, 156) == 0x098
    ensures Times(1, 33) == 0x0b0 && Times(1, 93) == 0x36a && Times(1, 341) == 0x036 && Times(1, 1023) == 1
  {
    assert Times(1, 1) == 2 by { assert Times(1, 0) == 1; }
    hide Times;
    Adds(1, 0x002, 1, 0x002, 0x004);
    Adds(2, 0x004, 1, 0x002, 0x008);
    Adds(3, 0x008, 3, 0x008, 0x040);
    Adds(6, 0x040, 6, 0x040, 0x1af);
    Adds(12, 0x1af, 12, 0x1af, 0x3f0);
    Adds(24, 0x3f0, 1, 0x002, 0x2c3);
    Adds(25, 0x2c3, 1, 0x002, 0x0a5);
    Adds(24, 0x3f0, 24, 0x3f0, 0x24d);
    Adds(48, 0x24d, 48, 0x24d, 0x0b9);
    Adds(96, 0x0b9, 48, 0x24d, 0x2ba);
    Adds(25, 0x2c3, 25, 0x2c3, 0x372);
    Adds(50, 0x372, 50, 0x372, 0x1d6);
    Adds(100, 0x1d6, 50, 0x372, 0x0a6);
    Adds(26, 0x0a5, 26, 0x0a5, 0x2ad);
    Adds(52, 0x2ad, 52, 0x2ad, 0x3aa);
    Adds(104, 0x3aa, 52, 0x2ad, 0x098);
    Adds(6, 0x040, 2, 0x004, 0x100);
    Adds(25, 0x2c3, 8, 0x100, 0x0b0);
    Adds(33, 0x0b0, 33, 0x0b0, 0x3bc);
    Adds(66, 0x3bc, 26, 0x0a5, 0x1b5);
    Adds(92, 0x1b5, 1, 0x002, 0x36a);
    Adds(25, 0x2c3, 12, 0x1af, 0x146);
    Adds(37, 0x146, 3, 0x008, 0x076);
    Adds(40, 0x076, 1, 0x002, 0x0ec);
    Adds(144, 0x2ba, 156, 0x098, 0x2a8);
    Adds(300, 0x2a8, 41, 0x0ec, 0x036);
    Adds(341, 0x036, 341, 0x036, 0x037);
    Adds(682, 0x037, 341, 0x036, 0x001);
  }

  // ---- The period ----

  lemma NoThird(x: Point)
    requires Product(x, 0x036) == x
    ensures x == 0
  {
  }

  lemma NoEleventh(x: Point)
    requires Product(x, 0x36a) == x
    ensures x == 0
  {
  }

  lemma NoThirtyFirst(x: Point)
    requires Product(x, 0x0b0) == x
    ensures x == 0
  {
  }

  lemma {:induction false} Multiple(x: Point, d: nat, k: nat)
    requires Times(x, d) == x
    ensures Times(x, d * k) == x
  {
    hide Times;
    if k == 0 {
      TimesNone(x);
    } else {
      Multiple(x, d, k - 1);
      assert d * k == d * (k - 1) + d;
      TimesAgain(x, d * (k - 1), d);
    }
  }

  lemma TimesNone(x: Point)
    ensures Times(x, 0) == x
  {
  }

  /** What is a period along with 1023 has a common divisor with it that is one too. */
  lemma {:induction false} Common(x: Point, n: nat, m: nat) returns (d: nat, i: nat, k: nat)
    requires 0 < n && 0 < m && Times(x, n) == x && Times(x, m) == x
    ensures 0 < d <= n && Times(x, d) == x && n == d * i && m == d * k
    decreases n + m
  {
    hide Times;
    if n == m {
      d, i, k := n, 1, 1;
    } else if n < m {
      TimesAgain(x, m - n, n);
      TimesInjective(Times(x, m - n), x, n);
      d, i, k := Common(x, n, m - n);
      assert m == d * k + d * i;
      assert d * k + d * i == d * (k + i);
      k := k + i;
    } else {
      TimesAgain(x, n - m, m);
      TimesInjective(Times(x, n - m), x, m);
      d, i, k := Common(x, n - m, m);
      assert n == d * i + d * k;
      assert d * i + d * k == d * (i + k);
      i := i + k;
    }
  }

  lemma Divisors(d: nat, k: nat)
    requires d * k == 1023 && d < 1023
    ensures d == 1 || d == 3 || d == 11 || d == 31 || d == 33 || d == 93 || d == 341
  {
  }

  /** No element but zero comes back to itself early. */
  lemma Period(x: Point, n: nat)
    requires 0 < n < 1023 && Times(x, n) == x
    ensures x == 0
  {
    hide Times, Product;
    Powers();
    ProductIsTimes(x, 1023);
    ProductIsTimes(x, 341);
    ProductIsTimes(x, 93);
    ProductIsTimes(x, 33);
    ProductOne(x);
    var d, i, k := Common(x, n, 1023);
    Divisors(d, k);
    if d == 1 || d == 3 || d == 11 || d == 33 {
      Multiple(x, d, 33 / d);
      NoThirtyFirst(x);
    } else if d == 31 || d == 93 {
      Multiple(x, d, 93 / d);
      NoEleventh(x);
    } else {
      NoThird(x);
    }
  }
}
