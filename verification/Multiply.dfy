/** Multiplication: the native path and the shift-and-add loop. */
module Multiply {
  import opened Logic
  import opened Numbers
  import opened Native
  import opened Arithmetic

  /** The shift amount that stands for "unknown". */
  const UNKNOWN_SHIFT: nat := 0xffff_ffff_ffff_ffff

  function ShiftedBy(s: seq<Bit>, amount: nat): (t: seq<Bit>)
    ensures |t| == |s|
  {
    if amount == UNKNOWN_SHIFT then DCs(|s|)
    else if amount < |s| then Rep(LO, amount) + s[..|s| - amount]
    else Rep(LO, |s|)
  }

  /** One shift to the left within the width. */
  function Shifted(s: seq<Bit>): (t: seq<Bit>)
    ensures |t| == |s|
  {
    if s == [] then [] else [LO] + s[..|s| - 1]
  }

  lemma ShiftedOnce(s: seq<Bit>)
    ensures ShiftedBy(s, 1) == Shifted(s)
  {
  }

  /** The largest word. */
  lemma LargestWord()
    ensures UNKNOWN_SHIFT == Pow2(WORD) - 1
  {
    ByteSize();
    hide Pow2;
    PowAdd(8, 8);
    PowAdd(16, 16);
    PowAdd(32, 32);
  }

  lemma ByteSize()
    ensures Pow2(8) == 256
  {
    assert Pow2(4) == 16;
    PowAdd(4, 4);
  }

  /** Shifting left multiplies by a power of two, modulo the width; the largest
      word, which stands for an unknown amount, makes every bit unknown. */
  lemma ShiftedByVal(s: seq<Bit>, amount: nat)
    ensures amount != Pow2(64) - 1 ==> Val(ShiftedBy(s, amount)) == Val(s) * Pow2(amount) % Pow2(|s|)
    ensures ShiftedBy(s, Pow2(64) - 1) == Rep(DC, |s|)
  {
    hide Val, Pow2, ShiftedBy, Rep;
    LargestWord();
    if amount != UNKNOWN_SHIFT { ShiftedVals(s, amount); }
    assert ShiftedBy(s, UNKNOWN_SHIFT) == Rep(DC, |s|) by { ShiftUnknown(s); }
  }

  lemma ShiftUnknown(s: seq<Bit>)
    ensures ShiftedBy(s, UNKNOWN_SHIFT) == Rep(DC, |s|)
  {
  }

  lemma ShiftedVals(s: seq<Bit>, amount: nat)
    requires amount != UNKNOWN_SHIFT
    ensures Val(ShiftedBy(s, amount)) == Val(s) * Pow2(amount) % Pow2(|s|)
  {
    hide Val, Pow2, Pad, ShiftedBy, Rep;
    var z := Rep(LO, amount);
    ShiftedByPad(s, amount);
    Concat(z, s);
    Zeros(amount);
    var t := z + s;
    var v := Val(s) * Pow2(amount);
    assert Val(t) == v;
    PadModulo(t, |s|);
  }

  lemma ShiftedByPad(s: seq<Bit>, amount: nat)
    requires amount != UNKNOWN_SHIFT
    ensures Pad(Rep(LO, amount) + s, |s|) == ShiftedBy(s, amount)
  {
    var t := Rep(LO, amount) + s;
    forall i | 0 <= i < |s| ensures Pad(t, |s|)[i] == ShiftedBy(s, amount)[i] {
      assert Pad(t, |s|)[i] == t[i];
    }
  }

  lemma Doubled(b: Bit, s: seq<Bit>)
    ensures Val([b] + s) == B(b) + 2 * Val(s)
  {
    hide Val;
    Concat([b], s);
    Single(b);
  }

  lemma ShiftedVal(s: seq<Bit>)
    ensures Val(Shifted(s)) == 2 * Val(s) % Pow2(|s|)
  {
    hide Val, Pow2, Pad, Shifted;
    ShiftedPad(s);
    Doubled(LO, s);
    var t := [LO] + s;
    assert Val(t) == 2 * Val(s);
    PadModulo(t, |s|);
  }

  lemma ShiftedPad(s: seq<Bit>)
    ensures Pad([LO] + s, |s|) == Shifted(s)
  {
    var t := Pad([LO] + s, |s|);
    forall i | 0 <= i < |s| ensures t[i] == Shifted(s)[i] {
      assert t[i] == ([LO] + s)[i];
    }
  }

  /** The product after adding the shifted multiplicand `m` for every 1 of `r`
      from bit `i` on. */
  function MulFrom(p: seq<Bit>, m: seq<Bit>, r: seq<Bit>, i: nat): (t: seq<Bit>)
    requires i <= |r|
    ensures |t| == |p|
    decreases |r| - i
  {
    if i == |r| then p
    else MulFrom(if r[i] == HI then AddInto(p, m) else p, Shifted(m), r, i + 1)
  }

  lemma ModMulAdd(x: nat, y: nat, v: nat, p: nat)
    requires p > 0
    ensures (x % p + y % p * v) % p == (x + y * v) % p
  {
    DropMultiples(x / p, y / p, x % p, y % p, v, p);
    assert x == p * (x / p) + x % p && y == p * (y / p) + y % p;
  }

  lemma DropMultiples(a: nat, c: nat, m: nat, n: nat, v: nat, p: nat)
    requires p > 0
    ensures (m + n * v) % p == (p * a + m + (p * c + n) * v) % p
  {
    var z := p * a + m + (p * c + n) * v;
    Spread(p, a, c, m, n, v);
    ModuloShift(z, a + c * v, p);
  }

  lemma Spread(p: nat, a: nat, c: nat, m: nat, n: nat, v: nat)
    ensures p * a + m + (p * c + n) * v - p * (a + c * v) == m + n * v
  {
    assert (p * c + n) * v == p * c * v + n * v;
    assert p * (a + c * v) == p * a + p * (c * v);
    assert p * c * v == p * (c * v);
  }

  /** Adding `m` times `r` to `p`, modulo `n`. */
  function Accumulated(p: nat, m: nat, r: nat, n: nat): nat
    requires n > 0
  {
    (p + m * r) % n
  }

  /** Adding for the lowest bit of the multiplier and doubling the multiplicand
      leaves the total unchanged. */
  lemma AccumulatedStep(p: nat, m: nat, b: nat, v: nat, n: nat)
    requires n > 0
    ensures Accumulated(Accumulated(p, m, b, n), Accumulated(0, m, 2, n), v, n) == Accumulated(p, m, b + 2 * v, n)
  {
    ModMulAdd(p + m * b, m * 2, v, n);
    Regroup(p, b, m, v);
  }

  lemma Regroup(p: nat, b: nat, m: nat, v: nat)
    ensures p + m * b + m * 2 * v == p + m * (b + 2 * v)
  {
  }

  lemma AccumulatedNone(p: nat, m: nat, n: nat)
    requires p < n
    ensures Accumulated(p, m, 0, n) == p
  {
    assert m * 0 == 0;
    Modulo(0, n, p);
  }

  /** The loop computes the total: the invariant of the shift-and-add loop. */
  lemma {:induction false} MulFromVal(p: seq<Bit>, m: seq<Bit>, r: seq<Bit>, i: nat)
    requires AllKnown(p) && AllKnown(m) && AllKnown(r) && i <= |r| && |m| == |p|
    ensures AllKnown(MulFrom(p, m, r, i))
    ensures Val(MulFrom(p, m, r, i)) == Accumulated(Val(p), Val(m), Val(r[i..]), Pow2(|p|))
    decreases |r| - i
  {
    hide Val, Pow2, AddInto, Shifted, B, Accumulated, MulFrom;
    MulFromCases(p, m, r, i);
    if i == |r| {
      ValZero(r[i..]);
      Bound(p);
      AccumulatedNone(Val(p), Val(m), Pow2(|p|));
    } else {
      var q := if r[i] == HI then AddInto(p, m) else p;
      assert Known(r[i]);
      MulStep(p, m, r[i]);
      MulFromVal(q, Shifted(m), r, i + 1);
      NextBit(r, i);
      AccumulatedStep(Val(p), Val(m), B(r[i]), Val(r[i + 1..]), Pow2(|p|));
    }
  }

  lemma MulFromCases(p: seq<Bit>, m: seq<Bit>, r: seq<Bit>, i: nat)
    requires i <= |r|
    ensures MulFrom(p, m, r, i) ==
      if i == |r| then p else MulFrom(if r[i] == HI then AddInto(p, m) else p, Shifted(m), r, i + 1)
  {
  }

  lemma NextBit(r: seq<Bit>, i: nat)
    requires i < |r|
    ensures Val(r[i..]) == B(r[i]) + 2 * Val(r[i + 1..])
  {
    hide Val;
    assert r[i..] == [r[i]] + r[i + 1..];
    Doubled(r[i], r[i + 1..]);
  }

  lemma MulStep(p: seq<Bit>, m: seq<Bit>, b: Bit)
    requires AllKnown(p) && AllKnown(m) && Known(b) && |m| == |p|
    ensures var q := if b == HI then AddInto(p, m) else p;
      AllKnown(q) && AllKnown(Shifted(m)) && Val(q) == Accumulated(Val(p), Val(m), B(b), Pow2(|p|)) &&
      Val(Shifted(m)) == Accumulated(0, Val(m), 2, Pow2(|p|))
  {
    hide Val, Pow2, AddInto;
    ShiftedVal(m);
    assert Val(m) * 2 == 2 * Val(m);
    if b == HI {
      AddIntoExact(p, m);
      assert Val(m) * 1 == Val(m);
    } else {
      Bound(p);
      AccumulatedNone(Val(p), Val(m), Pow2(|p|));
    }
  }

  // ----- choosing the path -----

  const HALF: nat := 32

  /** The binary digits of a word, at least one. */
  function Digits(n: nat): (s: seq<Bit>)
    ensures AllKnown(s)
  {
    if n == 0 then [] else [Digit(n)] + Digits(n / 2)
  }

  function FromWord(n: nat): (s: seq<Bit>)
    ensures AllKnown(s) && s != []
  {
    if n == 0 then [LO] else Digits(n)
  }

  lemma {:induction false} DigitsVal(n: nat)
    ensures Val(Digits(n)) == n
  {
    if n > 0 {
      DigitsVal(n / 2);
      Doubled(Digit(n), Digits(n / 2));
    }
  }

  lemma FromWordVal(n: nat)
    ensures Val(FromWord(n)) == n
  {
    DigitsVal(n);
    Single(LO);
  }

  /** Storing a word in a vector of `w` bits. */
  lemma StoredWord(n: nat, w: nat)
    ensures Val(Pad(FromWord(n), w)) == n % Pow2(w)
    ensures AllKnown(Pad(FromWord(n), w))
  {
    FromWordVal(n);
    PadModulo(FromWord(n), w);
  }

  /** Both factors convert and lie below 2^32. */
  predicate Fast(l: seq<Bit>, ls: Sign, r: seq<Bit>, rs: Sign)
    requires l != [] && r != []
  {
    var a, b := ToWord(l, ls, WORD), ToWord(r, rs, WORD);
    !a.fail && !b.fail && a.value < Pow2(HALF) && b.value < Pow2(HALF)
  }

  /** For known operands that are not misread, these are the numbers below 2^32. */
  lemma FastExactly(l: seq<Bit>, ls: Sign, r: seq<Bit>, rs: Sign)
    requires l != [] && r != [] && AllKnown(l) && AllKnown(r) && !Negative(l, ls) && !Negative(r, rs)
    requires !Misread(l) && !Misread(r)
    ensures Fast(l, ls, r, rs) <==> Val(l) < Pow2(32) && Val(r) < Pow2(32)
  {
    hide Val, Pow2, ToWord, Misread, Fits, Low, High;
    PlainWord(l, ls);
    PlainWord(r, rs);
  }

  lemma PlainWord(s: seq<Bit>, sign: Sign)
    requires s != [] && AllKnown(s) && !Negative(s, sign) && !Misread(s)
    ensures var w := ToWord(s, sign, WORD); if w.fail then Val(s) >= Pow2(32) else w.value == Val(s)
  {
    hide Val, Pow2, ToWord, Misread, Fits, Low, High;
    WordPlain(s, sign);
    FitsValue(s);
    HighBits(s);
    PowMono(32, WORD);
    Scaled(Pow2(WORD), High(s));
  }

  lemma Scaled(p: nat, h: nat)
    ensures (h == 0 ==> p * h == 0) && (h > 0 ==> p * h >= p)
  {
    if h > 0 { MulLe(p, 1, h); }
  }

  function MulOut(l: seq<Bit>, ls: Sign, r: seq<Bit>, rs: Sign, n: nat): (t: seq<Bit>)
    requires l != [] && r != [] && !Negative(l, ls) && !Negative(r, rs)
    ensures |t| == n
  {
    var a, b := ToWord(l, ls, WORD), ToWord(r, rs, WORD);
    if a == Word(0, true) || b == Word(0, true) then DCs(n)
    else if Fast(l, ls, r, rs) then Pad(FromWord(a.value * b.value % Pow2(WORD)), n)
    else MulFrom(Rep(LO, n), Assigned(l, ls, n), r, 0)
  }

  lemma MulWide(l: seq<Bit>, r: seq<Bit>, n: nat)
    requires AllKnown(l) && AllKnown(r)
    ensures var t := MulFrom(Rep(LO, n), Pad(l, n), r, 0);
      AllKnown(t) && Val(t) == Val(l) * Val(r) % Pow2(n)
  {
    hide Val, Pow2, MulFrom, Accumulated;
    assert r[0..] == r;
    MulFromVal(Rep(LO, n), Pad(l, n), r, 0);
    Zeros(n);
    PadModulo(l, n);
    AccumulatedProduct(Val(l), Val(r), Pow2(n));
  }

  lemma AccumulatedProduct(x: nat, y: nat, n: nat)
    requires n > 0
    ensures Accumulated(0, x % n, y, n) == x * y % n
  {
    ModMulAdd(0, x, y, n);
    Modulo(0, n, 0);
  }

  lemma ProductFits(a: nat, b: nat)
    requires a < Pow2(HALF) && b < Pow2(HALF)
    ensures a * b % Pow2(WORD) == a * b
  {
    hide Pow2;
    PowAdd(HALF, HALF);
    Below(a, b, Pow2(HALF));
    Modulo(0, Pow2(WORD), a * b);
  }

  lemma Below(a: nat, b: nat, p: nat)
    requires a < p && b < p
    ensures a * b < p * p
  {
    MulLe(a, b, p);
    MulLe(p, a, p - 1);
    assert p * (p - 1) == p * p - p;
    assert a * p == p * a;
  }

  /** The native path multiplies the low 64 bits. */
  lemma MulFast(l: seq<Bit>, ls: Sign, r: seq<Bit>, rs: Sign, n: nat)
    requires l != [] && r != [] && !Negative(l, ls) && !Negative(r, rs) && AllKnown(l) && AllKnown(r)
    requires Fast(l, ls, r, rs)
    ensures var t := MulOut(l, ls, r, rs, n);
      AllKnown(t) && Val(t) == Low(l) * Low(r) % Pow2(n)
  {
    hide Val, Pow2, MulFrom, ToWord, FromWord, Pad, Low;
    WordPlain(l, ls);
    WordPlain(r, rs);
    ProductFits(Low(l), Low(r));
    StoredWord(Low(l) * Low(r), n);
  }

  /** Where multiplication may be trusted: no operand of the native path has its
      bits from 64 up all 1, or the result is no wider than a word. */
  predicate MulDomain(l: seq<Bit>, ls: Sign, r: seq<Bit>, rs: Sign, n: nat)
    requires l != [] && r != []
  {
    n <= WORD || !Fast(l, ls, r, rs) || (!Misread(l) && !Misread(r))
  }

  /** Both paths compute the product modulo the width of the result. */
  lemma MulExact(l: seq<Bit>, ls: Sign, r: seq<Bit>, rs: Sign, n: nat)
    requires l != [] && r != [] && !Negative(l, ls) && !Negative(r, rs) && AllKnown(l) && AllKnown(r)
    requires MulDomain(l, ls, r, rs, n)
    ensures var t := MulOut(l, ls, r, rs, n);
      AllKnown(t) && Val(t) == Val(l) * Val(r) % Pow2(n)
  {
    hide Val, Pow2, MulFrom, Pad, Low, Misread, Fits;
    WordPlain(l, ls);
    WordPlain(r, rs);
    if Fast(l, ls, r, rs) {
      MulFast(l, ls, r, rs, n);
      if n <= WORD {
        LowProduct(l, r, n);
      } else {
        FitsLow(l);
        FitsLow(r);
      }
    } else {
      AssignedPlain(l, ls, n);
      MulWide(l, r, n);
    }
  }

  lemma FitsLow(s: seq<Bit>)
    requires AllKnown(s) && Fits(s)
    ensures Low(s) == Val(s)
  {
    hide Val, Pow2, Low, High;
    FitsValue(s);
    HighBits(s);
    assert Pow2(WORD) * 0 == 0;
  }

  /** What the native path loses when it multiplies only the low 64 bits, in
      units of 2^64. */
  function Dropped(l: seq<Bit>, r: seq<Bit>): nat {
    Cross(Low(l), High(l), Low(r), High(r), Pow2(WORD))
  }

  function Cross(a: nat, c: nat, b: nat, d: nat, w: nat): nat { a * d + c * b + w * (c * d) }

  lemma CrossProduct(a: nat, c: nat, b: nat, d: nat, w: nat)
    ensures (a + w * c) * (b + w * d) == a * b + w * Cross(a, c, b, d, w)
  {
    var y := b + w * d;
    assert (a + w * c) * y == a * y + w * c * y;
    assert a * y == a * b + w * (a * d) by { Shuffle(a, b, w, d); }
    assert w * c * y == w * (c * b) + w * (w * (c * d)) by { Shuffle2(w, c, b, d); }
    Join3(w, a * d, c * b, w * (c * d));
  }

  lemma Shuffle(a: nat, b: nat, w: nat, d: nat)
    ensures a * (b + w * d) == a * b + w * (a * d)
  {
    assert a * (w * d) == w * (a * d);
  }

  lemma Shuffle2(w: nat, c: nat, b: nat, d: nat)
    ensures w * c * (b + w * d) == w * (c * b) + w * (w * (c * d))
  {
    Shuffle(c, b, w, d);
    assert w * c * (b + w * d) == w * (c * (b + w * d));
    assert w * (c * b + w * (c * d)) == w * (c * b) + w * (w * (c * d));
  }

  lemma Join3(w: nat, x: nat, y: nat, z: nat)
    ensures w * x + w * y + w * z == w * (x + y + z)
  {
  }

  lemma WholeProduct(l: seq<Bit>, r: seq<Bit>)
    ensures Val(l) * Val(r) == Low(l) * Low(r) + Pow2(WORD) * Dropped(l, r)
  {
    hide Val, Pow2, Low, High, Cross;
    HighBits(l);
    HighBits(r);
    CrossProduct(Low(l), High(l), Low(r), High(r), Pow2(WORD));
  }

  lemma LowProduct(l: seq<Bit>, r: seq<Bit>, n: nat)
    requires n <= WORD
    ensures Low(l) * Low(r) % Pow2(n) == Val(l) * Val(r) % Pow2(n)
  {
    hide Val, Pow2, Low, Dropped;
    WholeProduct(l, r);
    PowAdd(n, WORD - n);
    var k := Pow2(WORD - n) * Dropped(l, r);
    assert Pow2(WORD) * Dropped(l, r) == Pow2(n) * k by { Assoc(Pow2(n), Pow2(WORD - n), Dropped(l, r)); }
    ModuloShift(Val(l) * Val(r), k, Pow2(n));
  }

  // ----- an operand that is misread -----

  lemma {:induction false} OddFactor(h: nat, r: nat, k: nat)
    requires h % 2 == 1
    ensures h * r % Pow2(k) == 0 <==> r % Pow2(k) == 0
  {
    if k > 0 {
      var p := Pow2(k - 1);
      HalfModulo(r, p);
      HalfModulo(h * r, p);
      OddTimes(h, r);
      if r % 2 == 0 {
        OddFactor(h, r / 2, k - 1);
        assert h * r / 2 == h * (r / 2) by { EvenHalf(h, r); }
      }
    }
  }

  lemma OddTimes(h: nat, r: nat)
    requires h % 2 == 1
    ensures h * r % 2 == r % 2
  {
    var a := h / 2;
    assert h == 2 * a + 1;
    assert h * r == r + 2 * (a * r);
    ModuloShift(h * r, a * r, 2);
  }

  lemma EvenHalf(h: nat, r: nat)
    requires r % 2 == 0
    ensures h * r / 2 == h * (r / 2)
  {
    assert h * r == 2 * (h * (r / 2));
  }

  lemma SameRemainder(x: nat, y: nat, p: nat, q: nat)
    requires p > 0 && q > 0 && p * q > 0
    ensures (x + p * y) % (p * q) == x % (p * q) <==> y % q == 0
  {
    var n, z := p * q, x + p * y;
    if y % q == 0 {
      var k := y / q;
      assert y == q * k;
      assert p * y == n * k by { Assoc(p, q, k); }
      ModuloShift(z, k, n);
    } else if z % n == x % n {
      var a, b := z / n, x / n;
      assert z == n * a + z % n && x == n * b + x % n;
      var k := a - b;
      assert p * y == n * k by { assert n * a - n * b == n * (a - b); }
      Assoc(p, q, k);
      Cancel(p, y, q * k);
      ModuloShift(y, k, q);
      Modulo(0, q, 0);
      assert false;
    }
  }

  lemma Assoc(p: int, q: int, k: int)
    ensures p * (q * k) == p * q * k
  {
  }

  lemma Cancel(p: nat, x: int, y: int)
    requires p > 0 && p * x == p * y
    ensures x == y
  {
    assert p * (x - y) == 0;
    Multiple(p, x - y);
  }

  /** On the native path, whatever the operands, a result wider than a word is
      right exactly when what was dropped vanishes in its width. */
  lemma MulFastExact(l: seq<Bit>, ls: Sign, r: seq<Bit>, rs: Sign, n: nat)
    requires l != [] && r != [] && !Negative(l, ls) && !Negative(r, rs) && AllKnown(l) && AllKnown(r)
    requires Fast(l, ls, r, rs) && n > WORD
    ensures Val(MulOut(l, ls, r, rs, n)) == Val(l) * Val(r) % Pow2(n) <==> Dropped(l, r) % Pow2(n - WORD) == 0
  {
    hide Val, Pow2, MulOut, Low, Fast, Dropped;
    MulFast(l, ls, r, rs, n);
    PowAdd(WORD, n - WORD);
    WholeProduct(l, r);
    SameRemainder(Low(l) * Low(r), Dropped(l, r), Pow2(WORD), Pow2(n - WORD));
  }

  lemma DroppedOneSided(l: seq<Bit>, r: seq<Bit>)
    requires AllKnown(r) && Fits(r)
    ensures Dropped(l, r) == High(l) * Val(r) == Dropped(r, l)
  {
    hide Val, Pow2, Low, High;
    FitsLow(r);
    FitsValue(r);
    var a, c, b, w := Low(l), High(l), Low(r), Pow2(WORD);
    assert a * 0 == 0 && c * 0 == 0 && w * 0 == 0 && 0 * a == 0 && 0 * c == 0;
    assert b * c == c * b;
  }

  /** In particular with one misread operand: the product is right exactly when
      the other one makes up for the lost bits. */
  lemma MulMisread(l: seq<Bit>, ls: Sign, r: seq<Bit>, rs: Sign, n: nat)
    requires l != [] && r != [] && !Negative(l, ls) && !Negative(r, rs) && AllKnown(l) && AllKnown(r)
    requires Fast(l, ls, r, rs) && n > WORD
    ensures Misread(l) && Fits(r) ==>
      (Val(MulOut(l, ls, r, rs, n)) == Val(l) * Val(r) % Pow2(n) <==> Val(r) % Pow2(n - WORD) == 0)
    ensures Fits(l) && Misread(r) ==>
      (Val(MulOut(l, ls, r, rs, n)) == Val(l) * Val(r) % Pow2(n) <==> Val(l) % Pow2(n - WORD) == 0)
  {
    hide Val, Pow2, MulOut, Low, High, Fast, Dropped, Misread, Fits;
    MulFastExact(l, ls, r, rs, n);
    if Misread(l) && Fits(r) {
      DroppedOneSided(l, r);
      HighOdd(l);
      OddFactor(High(l), Val(r), n - WORD);
    }
    if Fits(l) && Misread(r) {
      DroppedOneSided(r, l);
      HighOdd(r);
      OddFactor(High(r), Val(l), n - WORD);
    }
  }

  lemma HighOdd(s: seq<Bit>)
    requires Misread(s)
    ensures High(s) % 2 == 1
  {
    hide Val, Pow2, High;
    HighBits(s);
    var k := |s| - WORD;
    assert s[WORD..] == Rep(HI, k);
    Ones(k);
    PowPos(k);
  }
}
