/** Equality and order of vectors. */
module Compare {
  import opened Logic
  import opened Numbers
  import opened Native

  // ----- less than -----

  /** The scan from bit `k - 1` down; the shorter operand is extended with 0. */
  function Scan(l: seq<Bit>, r: seq<Bit>, k: nat): Bit {
    if k == 0 then LO
    else
      var c := Les(At(l, k - 1), At(r, k - 1));
      if c != Z then c else Scan(l, r, k - 1)
  }

  /** Taken as non-negative next to a negative operand. */
  predicate NonNegative(s: seq<Bit>, sign: Sign)
    requires s != []
  {
    sign == Unsigned || (sign == Signed && s[|s| - 1] == LO)
  }

  function Less(l: seq<Bit>, ls: Sign, r: seq<Bit>, rs: Sign): Bit
    requires l != [] && r != []
  {
    if Negative(l, ls) && NonNegative(r, rs) then (if AllKnown(l) && AllKnown(r) then HI else DC)
    else if !Negative(l, ls) && Negative(r, rs) && NonNegative(l, ls) then
      (if AllKnown(l) && AllKnown(r) then LO else DC)
    else Scan(l, r, Max(|l|, |r|))
  }

  lemma {:induction false} ScanOrder(l: seq<Bit>, r: seq<Bit>, k: nat)
    requires AllKnown(l) && AllKnown(r)
    ensures Scan(l, r, k) == if Val(Pad(l, k)) < Val(Pad(r, k)) then HI else LO
  {
    hide Val, Pad;
    if k == 0 {
      ValZero(Pad(l, 0));
      ValZero(Pad(r, 0));
    } else {
      ScanOrder(l, r, k - 1);
      PadSnoc(l, k - 1);
      PadSnoc(r, k - 1);
      Bound(Pad(l, k - 1));
      Bound(Pad(r, k - 1));
      assert Known(At(l, k - 1)) && Known(At(r, k - 1));
    }
  }

  lemma ScanExact(l: seq<Bit>, r: seq<Bit>)
    requires AllKnown(l) && AllKnown(r)
    ensures Scan(l, r, Max(|l|, |r|)) == if Val(l) < Val(r) then HI else LO
  {
    hide Val, Pad, Scan;
    ScanOrder(l, r, Max(|l|, |r|));
    PadVal(l, Max(|l|, |r|));
    PadVal(r, Max(|l|, |r|));
  }

  predicate Ordinary(s: Sign) { s == Signed || s == Unsigned }

  /** On known vectors `<` is the order of the integers unless both are negative
      and of different widths. */
  lemma LessExact(l: seq<Bit>, ls: Sign, r: seq<Bit>, rs: Sign)
    requires l != [] && r != [] && AllKnown(l) && AllKnown(r) && Ordinary(ls) && Ordinary(rs)
    requires Negative(l, ls) && Negative(r, rs) ==> |l| == |r|
    ensures Less(l, ls, r, rs) == if Integer(l, ls) < Integer(r, rs) then HI else LO
  {
    hide Val, Pow2, Scan;
    ScanExact(l, r);
    TopBit(l);
    TopBit(r);
    assert Known(l[|l| - 1]) && Known(r[|r| - 1]);
  }

  lemma LessPlain(l: seq<Bit>, ls: Sign, r: seq<Bit>, rs: Sign)
    requires l != [] && r != [] && AllKnown(l) && AllKnown(r) && !Negative(l, ls) && !Negative(r, rs)
    ensures Less(l, ls, r, rs) == if Val(l) < Val(r) then HI else LO
  {
    hide Val, Scan;
    ScanExact(l, r);
  }

  /** Two negative vectors of different widths compare by their widths. */
  lemma LessNegative(l: seq<Bit>, r: seq<Bit>)
    requires l != [] && r != [] && AllKnown(l) && AllKnown(r) && |l| != |r|
    requires Negative(l, Signed) && Negative(r, Signed)
    ensures Less(l, Signed, r, Signed) == if |l| < |r| then HI else LO
  {
    hide Val, Pow2, Scan;
    ScanExact(l, r);
    TopBit(l);
    TopBit(r);
    if |l| < |r| { PowMono(|l|, |r| - 1); } else { PowMono(|r|, |l| - 1); }
  }

  // ----- equality -----

  /** The scan upwards from position `i`: the first result that is not HI. */
  function SameFrom(l: seq<Bit>, r: seq<Bit>, i: nat): Bit
    requires |l| == |r| && i <= |l|
    decreases |l| - i
  {
    if i == |l| then HI
    else if Equ(l[i], r[i]) != HI then Equ(l[i], r[i])
    else SameFrom(l, r, i + 1)
  }

  /** The bit that extends the shorter operand: its own top bit if signed. */
  function Extension(l: seq<Bit>, ls: Sign, r: seq<Bit>, rs: Sign): Bit
    requires l != [] && r != []
  {
    if |l| < |r| && ls == Signed then l[|l| - 1]
    else if |r| < |l| && rs == Signed then r[|r| - 1]
    else LO
  }

  function Equal(l: seq<Bit>, ls: Sign, r: seq<Bit>, rs: Sign): Bit
    requires l != [] && r != []
  {
    var h, n := Extension(l, ls, r, rs), Max(|l|, |r|);
    SameFrom(Extend(l, h, n), Extend(r, h, n), 0)
  }

  lemma {:induction false} SameExact(l: seq<Bit>, r: seq<Bit>, i: nat)
    requires |l| == |r| && i <= |l| && AllKnown(l) && AllKnown(r)
    ensures SameFrom(l, r, i) == if l[i..] == r[i..] then HI else LO
    decreases |l| - i
  {
    if i < |l| {
      SameExact(l, r, i + 1);
      assert Known(l[i]) && Known(r[i]);
      assert l[i..] == [l[i]] + l[i + 1..] && r[i..] == [r[i]] + r[i + 1..];
    }
  }

  /** Known vectors are equal exactly when, after extension, they are the same
      number. */
  lemma EqualExact(l: seq<Bit>, ls: Sign, r: seq<Bit>, rs: Sign)
    requires l != [] && r != [] && AllKnown(l) && AllKnown(r)
    ensures var h, n := Extension(l, ls, r, rs), Max(|l|, |r|);
      Equal(l, ls, r, rs) == if Val(Extend(l, h, n)) == Val(Extend(r, h, n)) then HI else LO
  {
    hide Val, SameFrom;
    var h, n := Extension(l, ls, r, rs), Max(|l|, |r|);
    assert Known(l[|l| - 1]) && Known(r[|r| - 1]);
    var x, y := Extend(l, h, n), Extend(r, h, n);
    SameExact(x, y, 0);
    assert x[0..] == x && y[0..] == y;
    if Val(x) == Val(y) { Unique(x, y); }
  }

  lemma ExtendPad(s: seq<Bit>, n: nat)
    ensures Extend(s, LO, n) == Pad(s, n)
  {
  }

  /** For unsigned vectors equality is equality of the numbers. */
  lemma EqualUnsigned(l: seq<Bit>, r: seq<Bit>)
    requires l != [] && r != [] && AllKnown(l) && AllKnown(r)
    ensures Equal(l, Unsigned, r, Unsigned) == if Val(l) == Val(r) then HI else LO
  {
    hide Val, SameFrom, Pad, Extend;
    EqualExact(l, Unsigned, r, Unsigned);
    var n := Max(|l|, |r|);
    ExtendPad(l, n);
    ExtendPad(r, n);
    PadVal(l, n);
    PadVal(r, n);
  }

  /** Exactly one of less, equal and greater holds of known unsigned vectors. */
  lemma Trichotomy(l: seq<Bit>, r: seq<Bit>)
    requires l != [] && r != [] && AllKnown(l) && AllKnown(r)
    ensures var a, e, b := Less(l, Unsigned, r, Unsigned), Equal(l, Unsigned, r, Unsigned),
      Less(r, Unsigned, l, Unsigned);
      (a, e, b) == (HI, LO, LO) || (a, e, b) == (LO, HI, LO) || (a, e, b) == (LO, LO, HI)
  {
    hide Less, Equal, Val;
    LessExact(l, Unsigned, r, Unsigned);
    LessExact(r, Unsigned, l, Unsigned);
    EqualUnsigned(l, r);
  }

  lemma {:induction false} SignExtended(s: seq<Bit>, n: nat)
    requires s != [] && |s| <= n && AllKnown(s)
    ensures Integer(Extend(s, s[|s| - 1], n), Signed) == Integer(s, Signed)
    decreases n
  {
    hide Val;
    var h := s[|s| - 1];
    if n == |s| {
      assert Extend(s, h, n) == s;
    } else {
      SignExtended(s, n - 1);
      assert Extend(s, h, n) == Extend(s, h, n - 1) + [h];
      Snoc(Extend(s, h, n - 1), h);
    }
  }

  /** Assignment keeps the integer of a known vector, of any sign, modulo what the
      target can hold; in a target that is wide enough it keeps the integer itself. */
  lemma AssignedValue(s: seq<Bit>, sign: Sign, n: nat)
    requires s != [] && AllKnown(s)
    ensures AllKnown(Assigned(s, sign, n)) && Val(Assigned(s, sign, n)) == Integer(s, sign) % Pow2(n)
    ensures n >= |s| ==> Integer(Assigned(s, sign, n), sign) == Integer(s, sign)
  {
    hide Val, Pow2, Pad;
    assert Known(s[|s| - 1]);
    if !Negative(s, sign) {
      AssignedPlain(s, sign, n);
      PadModulo(s, n);
      if n >= |s| { PadVal(s, n); }
    } else if n < |s| {
      assert Assigned(s, sign, n) == s[..n];
      CutModulo(s, n);
      PowShift(Val(s), |s|, n);
    } else {
      SignExtended(s, n);
      var t := Assigned(s, sign, n);
      Bound(t);
      assert Negative(t, sign);
      Wrap(Integer(s, sign), Val(t), Pow2(n));
    }
  }

  lemma Wrap(x: int, v: nat, p: nat)
    requires v < p && x == v - p
    ensures x % p == v
  {
    ModuloShift(v, 1, p);
    Modulo(0, p, v);
    assert v + p * 0 == v;
  }

  /** For signed vectors equality is equality of the integers. */
  lemma EqualSigned(l: seq<Bit>, r: seq<Bit>)
    requires l != [] && r != [] && AllKnown(l) && AllKnown(r)
    ensures Equal(l, Signed, r, Signed) == if Integer(l, Signed) == Integer(r, Signed) then HI else LO
  {
    hide Val, Pow2, Equal, Extend;
    EqualExact(l, Signed, r, Signed);
    var h, n := Extension(l, Signed, r, Signed), Max(|l|, |r|);
    var x, y := Extend(l, h, n), Extend(r, h, n);
    ExtendSigned(l, h, n);
    ExtendSigned(r, h, n);
    TopBit(x);
    TopBit(y);
  }

  lemma ExtendSigned(s: seq<Bit>, h: Bit, n: nat)
    requires s != [] && |s| <= n && AllKnown(s) && (|s| < n ==> h == s[|s| - 1])
    ensures Integer(Extend(s, h, n), Signed) == Integer(s, Signed)
  {
    hide Val, Pow2, Integer;
    SignExtended(s, n);
    assert Extend(s, h, n) == Extend(s, s[|s| - 1], n);
  }

  /** Up to 64 bits, comparing signed vectors is comparing the machine words
      they convert to. */
  lemma LessWords(l: seq<Bit>, r: seq<Bit>)
    requires l != [] && r != [] && |l| <= WORD && |r| <= WORD && AllKnown(l) && AllKnown(r)
    requires Negative(l, Signed) && Negative(r, Signed) ==> |l| == |r|
    ensures Less(l, Signed, r, Signed) ==
      if AsSigned(ToWord(l, Signed, WORD).value) < AsSigned(ToWord(r, Signed, WORD).value) then HI else LO
  {
    hide Val, Pow2, Less, ToWord, AsSigned;
    WordSigned(l);
    WordSigned(r);
    LessExact(l, Signed, r, Signed);
  }
}
