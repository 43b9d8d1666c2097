/** Conversion between power-of-two number bases (3rdparty/bech32/util/strencodings.h),
    specified through the stream of bits that the digits stand for. */
module BaseConversion {

  // ---- Shifts and masks on natural numbers ----

  function Shr(x: nat, n: nat): nat { if n == 0 then x else Shr(x / 2, n - 1) }

  function Shl(x: nat, n: nat): nat { if n == 0 then x else 2 * Shl(x, n - 1) }

  function Or(x: nat, y: nat): nat {
    if x == 0 && y == 0 then 0 else 2 * Or(x / 2, y / 2) + if x % 2 == 1 || y % 2 == 1 then 1 else 0
  }

  /** The low `n` bits: the conjunction with a mask of `n` ones. */
  function Mask(x: nat, n: nat): nat { if n == 0 then 0 else 2 * Mask(x / 2, n - 1) + x % 2 }

  predicate Fits(x: nat, n: nat) { Shr(x, n) == 0 }

  /** The low `n` bits of a number, the most significant one first. */
  function Bits(x: nat, n: nat): (b: seq<bool>)
    ensures |b| == n
  {
    if n == 0 then [] else Bits(x / 2, n - 1) + [x % 2 == 1]
  }

  /** The bits of a list of digits of the given width. */
  function Stream(v: seq<nat>, width: nat): seq<bool> {
    if v == [] then [] else Stream(v[..|v| - 1], width) + Bits(v[|v| - 1], width)
  }

  predicate InBase(v: seq<nat>, width: nat) { forall i :: 0 <= i < |v| ==> Fits(v[i], width) }

  predicate AllFalse(b: seq<bool>) { forall i :: 0 <= i < |b| ==> !b[i] }

  function Zeros(n: nat): (z: seq<bool>)
    ensures |z| == n && AllFalse(z)
  {
    seq(n, i => false)
  }

  // ---- Numbers and their bits ----

  lemma {:induction false} BitsSplit(x: nat, n: nat, m: nat)
    ensures Bits(x, n + m) == Bits(Shr(x, m), n) + Bits(x, m)
    decreases m
  {
    if m > 0 { BitsSplit(x / 2, n, m - 1); }
  }

  lemma {:induction false} BitsOfMask(x: nat, k: nat, n: nat)
    requires n <= k
    ensures Bits(Mask(x, k), n) == Bits(x, n)
    decreases n
  {
    if n > 0 { BitsOfMask(x / 2, k - 1, n - 1); }
  }

  lemma {:induction false} MaskFits(x: nat, n: nat)
    ensures Fits(Mask(x, n), n)
  {
    if n > 0 { MaskFits(x / 2, n - 1); }
  }

  lemma {:induction false} BitsOfShl(x: nat, n: nat, m: nat)
    ensures Bits(Shl(x, m), n + m) == Bits(x, n) + Zeros(m)
    decreases m
  {
    if m > 0 {
      BitsOfShl(x, n, m - 1);
      assert Zeros(m) == Zeros(m - 1) + [false];
    }
  }

  lemma {:induction false} BitsOfOr(x: nat, y: nat, n: nat)
    ensures forall i :: 0 <= i < n ==> Bits(Or(x, y), n)[i] == (Bits(x, n)[i] || Bits(y, n)[i])
  {
    if n > 0 { BitsOfOr(x / 2, y / 2, n - 1); }
  }

  lemma {:induction false} BitsOfZero(n: nat)
    ensures Bits(0, n) == Zeros(n)
  {
    if n > 0 { BitsOfZero(n - 1); }
  }

  lemma {:induction false} BitsInjective(x: nat, y: nat, n: nat)
    requires Fits(x, n) && Fits(y, n) && Bits(x, n) == Bits(y, n)
    ensures x == y
  {
    if n > 0 {
      assert Bits(x, n)[..n - 1] == Bits(x / 2, n - 1) && Bits(y, n)[..n - 1] == Bits(y / 2, n - 1);
      assert Bits(x, n)[n - 1] == Bits(y, n)[n - 1];
      BitsInjective(x / 2, y / 2, n - 1);
    }
  }

  lemma {:induction false} ZeroFits(n: nat)
    ensures Fits(0, n)
  {
    if n > 0 { ZeroFits(n - 1); }
  }

  lemma ZeroIffAllFalse(x: nat, n: nat)
    requires Fits(x, n)
    ensures x == 0 <==> AllFalse(Bits(x, n))
  {
    BitsOfZero(n);
    ZeroFits(n);
    if AllFalse(Bits(x, n)) {
      assert Bits(x, n) == Zeros(n);
      BitsInjective(x, 0, n);
    }
  }

  lemma StreamAppend(v: seq<nat>, x: nat, width: nat)
    ensures Stream(v + [x], width) == Stream(v, width) + Bits(x, width)
  {
    assert (v + [x])[..|v|] == v;
  }

  lemma {:induction false} StreamInjective(v: seq<nat>, w: seq<nat>, width: nat)
    requires width >= 1 && InBase(v, width) && InBase(w, width) && Stream(v, width) == Stream(w, width)
    ensures v == w
    decreases |v|
  {
    var s := Stream(v, width);
    assert v != [] ==> |s| >= width;
    assert w != [] ==> |s| >= width;
    if v != [] && w != [] {
      var x, y := v[|v| - 1], w[|w| - 1];
      assert s[|s| - width..] == Bits(x, width) && s[|s| - width..] == Bits(y, width);
      assert s[..|s| - width] == Stream(v[..|v| - 1], width) && s[..|s| - width] == Stream(w[..|w| - 1], width);
      BitsInjective(x, y, width);
      StreamInjective(v[..|v| - 1], w[..|w| - 1], width);
    }
  }

  // ---- The conversion ----

  /** Where either has a one. */
  function Both(a: seq<bool>, b: seq<bool>): (r: seq<bool>)
    requires |a| == |b|
    ensures |r| == |a|
  {
    seq(|a|, i requires 0 <= i < |a| => a[i] || b[i])
  }

  /** Bits that make whole output digits, and those that are still less than one. */
  datatype Parts = Parts(whole: seq<bool>, rest: seq<bool>)

  /** How many of `n` bits make whole digits. */
  function Full(n: nat, to: nat): (r: nat)
    requires to >= 1
    ensures r <= n && n - r < to
  {
    n - n % to
  }

  /** The bits after one more input digit. A digit that is wider than it should be runs into the
      bits that wait. */
  function Shifted(p: Parts, x: nat, from: nat, to: nat): Parts
    requires to >= 1
  {
    var all := Both(p.rest + Zeros(from), Bits(x, |p.rest| + from));
    var n := Full(|all|, to);
    Parts(p.whole + all[..n], all[n..])
  }

  function PartsOf(input: seq<nat>, from: nat, to: nat): Parts
    requires to >= 1
  {
    if input == [] then Parts([], []) else Shifted(PartsOf(input[..|input| - 1], from, to), input[|input| - 1], from,
      to)
  }

  lemma BothFits(rest: seq<bool>, x: nat, from: nat)
    requires Fits(x, from)
    ensures Both(rest + Zeros(from), Bits(x, |rest| + from)) == rest + Bits(x, from)
  {
    BitsSplit(x, |rest|, from);
    BitsOfZero(|rest|);
    hide Bits, Shr;
    assert Bits(x, |rest| + from) == Zeros(|rest|) + Bits(x, from);
  }

  /** A digit of the right width just follows the bits that wait. */
  lemma ShiftedFits(p: Parts, x: nat, from: nat, to: nat)
    requires to >= 1 && Fits(x, from)
    ensures var r := Shifted(p, x, from, to); r.whole + r.rest == p.whole + p.rest + Bits(x, from)
  {
    BothFits(p.rest, x, from);
    hide Both, Bits, Fits, Zeros, Full;
    var all := p.rest + Bits(x, from);
    Halves(p.whole, all, Full(|all|, to));
    Regroup(p.whole, p.rest, Bits(x, from));
  }

  lemma Halves(a: seq<bool>, b: seq<bool>, n: nat)
    requires n <= |b|
    ensures (a + b[..n]) + b[n..] == a + b
  {
  }

  /** So the bits of proper digits are kept. */
  lemma {:induction false} PartsOfStream(input: seq<nat>, from: nat, to: nat)
    requires to >= 1 && InBase(input, from)
    ensures PartsOf(input, from, to).whole + PartsOf(input, from, to).rest == Stream(input, from)
  {
    if input == [] {
    } else {
      var n := |input| - 1;
      PartsOfStream(input[..n], from, to);
      ShiftedFits(PartsOf(input[..n], from, to), input[n], from, to);
    }
  }

  /** `ok` and `out` are what the conversion makes of `input`. With padding the rest becomes a last
      digit, filled up with zeros. Without, it must be less than an input digit and all zeros. */
  ghost predicate ConvertsTo(input: seq<nat>, from: nat, to: nat, pad: bool, ok: bool, out: seq<nat>)
    requires to >= 1
  {
    var p := PartsOf(input, from, to);
    && InBase(out, to)
    && if pad then ok && Stream(out, to) == p.whole + p.rest + Zeros(if p.rest == [] then 0 else to - |p.rest|)
       else (ok <==> |p.rest| < from && AllFalse(p.rest)) && Stream(out, to) == p.whole
  }

  method ConvertBits(input: seq<nat>, from: nat, to: nat, pad: bool) returns (ok: bool, out: seq<nat>)
    requires from >= 1 && to >= 1
    ensures ConvertsTo(input, from, to, pad, ok, out)
    ensures InBase(input, from) ==> |PartsOf(input, from, to).rest| < to
                                    && PartsOf(input, from, to).whole + PartsOf(input, from, to).rest
                                         == Stream(input, from)
  {
    hide Bits, Stream, Fits, Shifted, Mask, Or, Shl;
    var acc: nat, bits: nat := 0, 0;
    out := [];
    EmptyStream(from, to);
    for i := 0 to |input|
      invariant bits < to && InBase(out, to)
      invariant PartsOf(input[..i], from, to) == Parts(Stream(out, to), Bits(acc, bits))
    {
      assert input[..i + 1][..i] == input[..i];
      ShiftIn(acc, bits, input[i], from, to);
      acc := Mask(Or(Shl(acc, from), input[i]), from + to - 1);
      ghost var before := Parts(Stream(out, to), PartsOf(input[..i], from, to).rest);
      var all := bits + from;
      out, bits := TakeDigits(acc, all, to, out);
      ShiftedParts(before, input[i], from, to, Stream(out, to), Bits(acc, bits), Bits(acc, all));
    }
    assert input[..|input|] == input;
    var last := Mask(Shl(acc, to - bits), to);
    LastDigit(acc, bits, to);
    if pad {
      if bits != 0 {
        StreamAppend(out, last, to);
        Regroup(Stream(out, to), Bits(acc, bits), Zeros(to - bits));
        out := out + [last];
      } else {
        assert Bits(acc, 0) == [] && Zeros(0) == [];
      }
      ok := true;
    } else {
      ok := !(bits >= from || last != 0);
    }
    if InBase(input, from) { PartsOfStream(input, from, to); }
  }

  /** What one step of the loop leaves is what `Shifted` says. */
  lemma ShiftedParts(p: Parts, x: nat, from: nat, to: nat, whole: seq<bool>, rest: seq<bool>, all: seq<bool>)
    requires to >= 1 && all == Both(p.rest + Zeros(from), Bits(x, |p.rest| + from))
    requires whole + rest == p.whole + all && |rest| == |all| - Full(|all|, to)
    ensures Shifted(p, x, from, to) == Parts(whole, rest)
  {
    var n := Full(|all|, to);
    hide Full;
    assert p.whole + all == (p.whole + all[..n]) + all[n..];
    SameParts(whole, rest, p.whole + all[..n], all[n..]);
  }

  lemma EmptyStream(from: nat, to: nat)
    ensures Stream([], from) == [] && Stream([], to) == [] && Bits(0, 0) == []
  {
  }

  lemma Regroup(a: seq<bool>, b: seq<bool>, c: seq<bool>)
    ensures a + b + c == a + (b + c)
  {
  }

  lemma ShiftIn(acc: nat, bits: nat, v: nat, from: nat, to: nat)
    requires bits < to && from >= 1
    ensures Bits(Mask(Or(Shl(acc, from), v), from + to - 1), bits + from)
            == Both(Bits(acc, bits) + Zeros(from), Bits(v, bits + from))
  {
    BitsOfMask(Or(Shl(acc, from), v), from + to - 1, bits + from);
    BitsOfOr(Shl(acc, from), v, bits + from);
    BitsOfShl(acc, bits, from);
    hide Bits, Mask, Or, Shl;
  }

  lemma LessOne(n: nat, to: nat)
    requires 1 <= to <= n
    ensures (n - to) % to == n % to
  {
    var q, r := n / to, n % to;
    assert n - to == (q - 1) * to + r;
    assert q >= 1;
    Remainder(q - 1, to, r);
  }

  lemma Remainder(q: nat, to: nat, r: nat)
    requires r < to
    ensures (q * to + r) % to == r
  {
    var m := q * to + r;
    var d := q - m / to;
    assert m == m / to * to + m % to;
    assert d * to == q * to - m / to * to;
    Multiple(d, to);
  }

  lemma Multiple(d: int, to: int)
    requires to >= 0
    ensures (d >= 1 ==> d * to >= to) && (d <= -1 ==> d * to <= -to)
  {
    assert d >= 1 ==> d * to == to + (d - 1) * to && (d - 1) * to >= 0;
    assert d <= -1 ==> d * to == -to + (d + 1) * to && (-1 - d) * to >= 0;
  }

  /** The digits that the accumulator holds in full. */
  method TakeDigits(acc: nat, bits: nat, to: nat, out: seq<nat>) returns (r: seq<nat>, left: nat)
    requires to >= 1 && InBase(out, to)
    ensures left == bits % to && InBase(r, to) && Stream(r, to) + Bits(acc, left) == Stream(out, to) + Bits(acc, bits)
  {
    hide Bits, Stream, Fits, Shr, Mask;
    r, left := out, bits;
    while left >= to
      invariant InBase(r, to) && Stream(r, to) + Bits(acc, left) == Stream(out, to) + Bits(acc, bits)
      invariant left % to == bits % to
    {
      LessOne(left, to);
      left := left - to;
      var digit := Mask(Shr(acc, left), to);
      MaskFits(Shr(acc, left), to);
      BitsSplit(acc, to, left);
      BitsOfMask(Shr(acc, left), to, to);
      StreamAppend(r, digit, to);
      Regroup(Stream(r, to), Bits(digit, to), Bits(acc, left));
      r := r + [digit];
    }
    Remainder(0, to, left);
  }

  lemma LastDigit(acc: nat, bits: nat, to: nat)
    requires bits < to
    ensures var last := Mask(Shl(acc, to - bits), to);
            && Fits(last, to) && Bits(last, to) == Bits(acc, bits) + Zeros(to - bits)
            && (last == 0 <==> AllFalse(Bits(acc, bits)))
  {
    var last := Mask(Shl(acc, to - bits), to);
    MaskFits(Shl(acc, to - bits), to);
    BitsOfMask(Shl(acc, to - bits), to, to);
    BitsOfShl(acc, bits, to - bits);
    ZeroIffAllFalse(last, to);
    assert forall i :: 0 <= i < bits ==> Bits(last, to)[i] == Bits(acc, bits)[i];
  }

  lemma {:induction false} OctetStream(v: seq<nat>)
    ensures |Stream(v, 8)| % 8 == 0
  {
    if v != [] { OctetStream(v[..|v| - 1]); }
  }

  /** Converting octets to 5-bit digits with padding and back gives the octets again. */
  lemma OctetsRoundTrip(octets: seq<nat>, there: bool, digits: seq<nat>, back: bool, out: seq<nat>)
    requires InBase(octets, 8)
    requires ConvertsTo(octets, 8, 5, true, there, digits) && ConvertsTo(digits, 5, 8, false, back, out)
    ensures there && back && out == octets
  {
    hide Stream, Fits, PartsOf;
    PartsOfStream(octets, 8, 5);
    PartsOfStream(digits, 5, 8);
    RestIsShort(octets, 8, 5);
    RestIsShort(digits, 5, 8);
    var p, q := PartsOf(octets, 8, 5), PartsOf(digits, 5, 8);
    var s := Stream(octets, 8);
    var z := if p.rest == [] then 0 else 5 - |p.rest|;
    OctetStream(octets);
    OctetStream(out);
    assert Stream(digits, 5) == s + Zeros(z);
    assert Stream(out, 8) + q.rest == s + Zeros(z);
    SameLengths(|Stream(out, 8)|, |q.rest|, |s|, z);
    SameParts(Stream(out, 8), q.rest, s, Zeros(z));
    StreamInjective(out, octets, 8);
  }

  lemma SameLengths(a: nat, r: nat, b: nat, z: nat)
    requires a % 8 == 0 && b % 8 == 0 && a + r == b + z && r < 8 && z < 8
    ensures a == b && r == z
  {
  }

  lemma RestIsShort(input: seq<nat>, from: nat, to: nat)
    requires to >= 1
    ensures |PartsOf(input, from, to).rest| < to
  {
  }

  lemma SameParts(a: seq<bool>, b: seq<bool>, c: seq<bool>, d: seq<bool>)
    requires a + b == c + d && |a| == |c|
    ensures a == c && b == d
  {
    assert (a + b)[..|a|] == a && (c + d)[..|c|] == c;
    assert (a + b)[|a|..] == b && (c + d)[|c|..] == d;
  }
}
