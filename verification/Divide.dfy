/** Division: the native path and the shift-and-subtract loop. */
module Divide {
  import opened Logic
  import opened Numbers
  import opened Native
  import opened Arithmetic
  import opened Compare
  import opened Multiply

  /** The quotient bits of the dividend bits taken so far, and the running
      remainder; `Lost` when a comparison came out unknown. */
  datatype Steps = Steps(q: seq<Bit>, rem: seq<Bit>) | Lost

  /** The remainder with the next dividend bit shifted in. */
  function Taken(rem: seq<Bit>, b: Bit): (t: seq<Bit>)
    requires rem != []
    ensures |t| == |rem|
  {
    [b] + rem[..|rem| - 1]
  }

  /** One round of the loop. */
  function Round(p: Steps, d: seq<Bit>, sign: Sign, b: Bit): (t: Steps)
    requires p.Steps? && p.rem != [] && d != []
    ensures t.Steps? ==> |t.q| == |p.q| + 1 && |t.rem| == |p.rem|
  {
    var rem := Taken(p.rem, b);
    match Less(rem, sign, d, Unsigned)
    case HI => Steps([LO] + p.q, rem)
    case LO => Steps([HI] + p.q, SubInto(rem, d))
    case _ => Lost
  }

  /** The loop after the `k` highest bits of the dividend. */
  function DivSteps(l: seq<Bit>, d: seq<Bit>, sign: Sign, w: nat, k: nat): (p: Steps)
    requires d != [] && k <= |l| && w > 0
    ensures p.Steps? ==> |p.q| == k && |p.rem| == w
  {
    if k == 0 then Steps([], Rep(LO, w))
    else
      var p := DivSteps(l, d, sign, w, k - 1);
      if p.Lost? then Lost else Round(p, d, sign, l[|l| - k])
  }

  /** The invariant of the loop: the bits taken so far are divided. */
  predicate Divided(p: Steps, taken: nat, d: nat) {
    p.Steps? && AllKnown(p.q) && AllKnown(p.rem) && Val(p.q) * d + Val(p.rem) == taken && Val(p.rem) < d
  }

  /** The remainder's own sign bit stays out of the way. */
  predicate RoomForSign(l: seq<Bit>, sign: Sign, w: nat) {
    l != [] && |l| <= w && (sign == Signed ==> |l| < w || l[|l| - 1] == LO)
  }

  lemma PrefixBound(l: seq<Bit>, sign: Sign, w: nat, k: nat)
    requires RoomForSign(l, sign, w) && 0 < k <= |l|
    ensures var t := l[|l| - k..]; Val(t) < Pow2(w) && (sign == Signed ==> Val(t) < Pow2(w - 1))
  {
    hide Val, Pow2;
    var t := l[|l| - k..];
    assert t[|t| - 1] == l[|l| - 1];
    TopBit(t);
    PowMono(k, w);
    if k <= w - 1 { PowMono(k, w - 1); }
    PowMono(k - 1, w - 1);
  }

  /** The shifted remainder never exceeds the dividend bits taken, so nothing is
      shifted out. */
  lemma TakenVal(rem: seq<Bit>, b: Bit, w: nat)
    requires |rem| == w && w > 0 && AllKnown(rem) && Known(b) && B(b) + 2 * Val(rem) < Pow2(w)
    ensures AllKnown(Taken(rem, b)) && Val(Taken(rem, b)) == B(b) + 2 * Val(rem)
  {
    hide Val, Pow2, Pad;
    Doubled(b, rem);
    var t := [b] + rem;
    PadModulo(t, w);
    Modulo(0, Pow2(w), Val(t));
    TakenPad(rem, b);
    forall i | 0 <= i < w ensures Known(Taken(rem, b)[i]) {
      assert i > 0 ==> Known(rem[i - 1]);
    }
  }

  lemma TakenPad(rem: seq<Bit>, b: Bit)
    requires rem != []
    ensures Pad([b] + rem, |rem|) == Taken(rem, b)
  {
    var t := Pad([b] + rem, |rem|);
    forall i | 0 <= i < |rem| ensures t[i] == Taken(rem, b)[i] {
      assert t[i] == ([b] + rem)[i];
    }
  }

  lemma DivCompare(rem: seq<Bit>, sign: Sign, d: seq<Bit>, w: nat)
    requires |rem| == w && w > 0 && d != [] && AllKnown(rem) && AllKnown(d)
    requires sign == Signed ==> Val(rem) < Pow2(w - 1)
    ensures Less(rem, sign, d, Unsigned) == if Val(rem) < Val(d) then HI else LO
  {
    hide Val, Pow2, Less;
    TopBit(rem);
    LessPlain(rem, sign, d, Unsigned);
  }

  lemma DivSubtract(rem: seq<Bit>, d: seq<Bit>)
    requires AllKnown(rem) && AllKnown(d) && Val(d) <= Val(rem)
    ensures AllKnown(SubInto(rem, d)) && Val(SubInto(rem, d)) == Val(rem) - Val(d)
  {
    hide Val, Pow2, SubInto;
    SubIntoExact(rem, d);
    Bound(rem);
    Modulo(0, Pow2(|rem|), Val(rem) - Val(d));
  }

  lemma {:induction false} DivInvariant(l: seq<Bit>, d: seq<Bit>, sign: Sign, w: nat, k: nat)
    requires d != [] && k <= |l| && AllKnown(l) && AllKnown(d) && Val(d) > 0 && RoomForSign(l, sign, w)
    ensures Divided(DivSteps(l, d, sign, w, k), Val(l[|l| - k..]), Val(d))
  {
    hide Val, Pow2, Round, RoomForSign;
    assert w > 0 by { RoomWidth(l, sign, w); }
    if k == 0 {
      DivStart(d, w);
      ValZero(l[|l|..]);
    } else {
      DivInvariant(l, d, sign, w, k - 1);
      PrefixBound(l, sign, w, k);
      var b, t := l[|l| - k], l[|l| - k + 1..];
      assert l[|l| - k..] == [b] + t;
      assert t == l[|l| - (k - 1)..];
      DivStep(DivSteps(l, d, sign, w, k - 1), d, sign, w, b, t);
    }
  }

  lemma RoomWidth(l: seq<Bit>, sign: Sign, w: nat)
    requires RoomForSign(l, sign, w)
    ensures w > 0 && l != []
  {
  }

  lemma DivStart(d: seq<Bit>, w: nat)
    requires Val(d) > 0
    ensures Divided(Steps([], Rep(LO, w)), 0, Val(d))
  {
    Zeros(w);
  }

  lemma DivStep(p: Steps, d: seq<Bit>, sign: Sign, w: nat, b: Bit, t: seq<Bit>)
    requires w > 0 && d != [] && AllKnown(d) && Known(b) && Divided(p, Val(t), Val(d)) && |p.rem| == w
    requires var v := Val([b] + t); v < Pow2(w) && (sign == Signed ==> v < Pow2(w - 1))
    ensures Divided(Round(p, d, sign, b), Val([b] + t), Val(d))
  {
    hide Val, Pow2, Less, SubInto, Taken;
    Doubled(b, t);
    var q, r, dv := Val(p.q), Val(p.rem), Val(d);
    assert r <= Val(t) by { assert q * dv >= 0; }
    TakenVal(p.rem, b, w);
    var rem := Taken(p.rem, b);
    DivCompare(rem, sign, d, w);
    if Val(rem) < dv {
      Doubled(LO, p.q);
      Double(q, 0, dv);
    } else {
      Doubled(HI, p.q);
      Double(q, 1, dv);
      DivSubtract(rem, d);
    }
  }

  lemma Double(q: nat, b: nat, d: nat)
    ensures (b + 2 * q) * d == b * d + 2 * (q * d)
  {
  }

  // ----- choosing the path -----

  datatype Division = Division(q: seq<Bit>, rem: seq<Bit>)

  function Undefined(n: nat): Division { Division(DCs(n), DCs(n)) }

  /** Both operands convert to words. */
  predicate Words(l: seq<Bit>, ls: Sign, r: seq<Bit>, rs: Sign)
    requires l != [] && r != []
  {
    !ToWord(l, ls, WORD).fail && !ToWord(r, rs, WORD).fail
  }

  function WordDivision(a: nat, b: nat, n: nat): Division {
    if b == 0 then Undefined(n) else Division(Pad(FromWord(a / b), n), Pad(FromWord(a % b), n))
  }

  function WideDivision(l: seq<Bit>, r: seq<Bit>, rs: Sign, sign: Sign, n: nat): Division
    requires r != [] && n > 0
  {
    if Equal(r, rs, [LO], Unsigned) == HI then Undefined(n)
    else
      match DivSteps(l, r, sign, n, |l|)
      case Lost => Undefined(n)
      case Steps(q, rem) => Division(Pad(q, n), rem)
  }

  /** Quotient and remainder of `n` bits each; `sign` is the sign the remainder
      vector had before. */
  function DivOut(l: seq<Bit>, ls: Sign, r: seq<Bit>, rs: Sign, sign: Sign, n: nat): Division
    requires l != [] && r != [] && n > 0 && !Negative(l, ls) && !Negative(r, rs)
  {
    var a, b := ToWord(l, ls, WORD), ToWord(r, rs, WORD);
    if a == Word(0, true) || b == Word(0, true) then Undefined(n)
    else if Words(l, ls, r, rs) then WordDivision(a.value, b.value, n)
    else WideDivision(l, r, rs, sign, n)
  }

  /** How a division ends: with unknown bits, on the native path or after the
      loop. The signs of the results depend on it. */
  datatype Path = Nowhere | Native | Loop

  function PathTaken(l: seq<Bit>, ls: Sign, r: seq<Bit>, rs: Sign, sign: Sign, n: nat): Path
    requires l != [] && r != [] && n > 0
  {
    var a, b := ToWord(l, ls, WORD), ToWord(r, rs, WORD);
    if a == Word(0, true) || b == Word(0, true) then Nowhere
    else if Words(l, ls, r, rs) then (if b.value == 0 then Nowhere else Native)
    else if Equal(r, rs, [LO], Unsigned) == HI || DivSteps(l, r, sign, n, |l|).Lost? then Nowhere
    else Loop
  }

  function QuotientSign(path: Path, was: Sign, ls: Sign, rs: Sign): Sign {
    if was != Unset || path == Nowhere then was
    else if path == Loop && (ls == Signed || rs == Signed) then Signed
    else Unsigned
  }

  /** After the loop the remainder takes the sign of the dividend. */
  function RemainderSign(path: Path, was: Sign, ls: Sign): Sign {
    if path == Loop then ls else if was == Unset && path == Native then Unsigned else was
  }

  /** Results are defined exactly when the path leads somewhere. */
  lemma PathDefined(l: seq<Bit>, ls: Sign, r: seq<Bit>, rs: Sign, sign: Sign, n: nat)
    requires l != [] && r != [] && n > 0 && !Negative(l, ls) && !Negative(r, rs) && AllKnown(l) && AllKnown(r)
    requires RoomForSign(l, sign, n)
    ensures PathTaken(l, ls, r, rs, sign, n) != Nowhere <==> DivOut(l, ls, r, rs, sign, n) != Undefined(n)
  {
    hide Val, Pow2, Pad, DivSteps, Equal, ToWord, Misread, Fits, Low, High, RoomForSign;
    WordPlain(l, ls);
    WordPlain(r, rs);
    ZeroTest(r, rs);
    assert !Known(DCs(n)[0]);
    if Words(l, ls, r, rs) {
      var b := ToWord(r, rs, WORD).value;
      if b > 0 { StoredKnown(ToWord(l, ls, WORD).value / b, n); }
    } else if Val(r) > 0 {
      DivInvariant(l, r, sign, n, |l|);
    }
  }

  lemma StoredKnown(v: nat, n: nat)
    requires n > 0
    ensures Known(Pad(FromWord(v), n)[0])
  {
    hide FromWord;
    assert AllKnown(FromWord(v));
  }

  /** The law of division with remainder. */
  predicate Exact(p: Division, l: seq<Bit>, r: seq<Bit>) {
    AllKnown(p.q) && AllKnown(p.rem) && Val(p.q) * Val(r) + Val(p.rem) == Val(l) && Val(p.rem) < Val(r)
  }

  lemma WideExact(l: seq<Bit>, r: seq<Bit>, rs: Sign, sign: Sign, n: nat)
    requires r != [] && AllKnown(l) && AllKnown(r) && Val(r) > 0 && RoomForSign(l, sign, n)
    ensures n > 0 && Exact(WideDivision(l, r, rs, sign, n), l, r)
  {
    hide Val, Pow2, Pad, DivSteps, Equal;
    ZeroTest(r, rs);
    DivInvariant(l, r, sign, n, |l|);
    var p := DivSteps(l, r, sign, n, |l|);
    assert l[0..] == l;
    PadVal(p.q, n);
  }

  /** Comparing with a single 0 bit recognises zero. */
  lemma ZeroTest(r: seq<Bit>, rs: Sign)
    requires r != [] && AllKnown(r)
    ensures Equal(r, rs, [LO], Unsigned) == HI <==> Val(r) == 0
  {
    hide Val, Pad, Extend, Equal;
    EqualExact(r, rs, [LO], Unsigned);
    var n := Max(|r|, 1);
    ExtendSame(r, LO);
    ZeroExtended(n);
    assert n == |r| && Extension(r, rs, [LO], Unsigned) == LO;
  }

  lemma ExtendSame(s: seq<Bit>, h: Bit)
    ensures Extend(s, h, |s|) == s
  {
  }

  lemma ZeroExtended(n: nat)
    ensures Val(Extend([LO], LO, n)) == 0
  {
    ValZero(Extend([LO], LO, n));
  }

  /** Dividing by zero gives all unknown bits. */
  lemma DivideByZero(l: seq<Bit>, ls: Sign, r: seq<Bit>, rs: Sign, sign: Sign, n: nat)
    requires l != [] && r != [] && n > 0 && !Negative(l, ls) && !Negative(r, rs) && AllKnown(l) && AllKnown(r)
    requires Val(r) == 0
    ensures DivOut(l, ls, r, rs, sign, n) == Undefined(n)
  {
    hide Val, Pow2, Equal, Low, High, Fits, Misread, ToWord;
    WordPlain(l, ls);
    WordPlain(r, rs);
    ZeroTest(r, rs);
    HighBits(r);
    LowZero(r);
    FitsValue(r);
  }

  lemma LowZero(r: seq<Bit>)
    requires Val(r) == 0
    ensures Low(r) == 0 && High(r) == 0
  {
    hide Val, Pow2;
    Modulo(0, Pow2(WORD), 0);
  }

  /** The native path divides the low 64 bits, and nothing it stores is cut off. */
  lemma WordsVal(l: seq<Bit>, ls: Sign, r: seq<Bit>, rs: Sign, sign: Sign, n: nat)
    requires l != [] && r != [] && !Negative(l, ls) && !Negative(r, rs) && AllKnown(l) && AllKnown(r)
    requires |l| <= n && Words(l, ls, r, rs) && Low(r) > 0
    ensures var p := DivOut(l, ls, r, rs, sign, n);
      AllKnown(p.q) && AllKnown(p.rem) && Val(p.q) == Quotient(Low(l), Low(r)) && Val(p.rem) == Low(l) % Low(r)
  {
    hide Val, Pow2, Low, High, Fits, Misread, ToWord, Pad, FromWord;
    WordPlain(l, ls);
    WordPlain(r, rs);
    var a, b := Low(l), Low(r);
    LowBound(l, n);
    Shrinks(a, b);
    StoredWord(a / b, n);
    StoredWord(a % b, n);
    Modulo(0, Pow2(n), a / b);
    Modulo(0, Pow2(n), a % b);
  }

  lemma LowBound(l: seq<Bit>, n: nat)
    requires |l| <= n
    ensures Low(l) < Pow2(n)
  {
    hide Val, Pow2, Low, High;
    HighBits(l);
    Bound(l);
    PowMono(|l|, n);
    assert Pow2(WORD) * High(l) >= 0;
  }

  lemma Shrinks(a: nat, b: nat)
    requires b > 0
    ensures a / b <= a && a % b <= a
  {
    assert a == b * (a / b) + a % b;
    MulLe(a / b, 1, b);
    assert b * (a / b) == (a / b) * b;
  }

  /** What the native path loses by dropping the bits from 64 up. */
  predicate WordsAgree(l: seq<Bit>, r: seq<Bit>) {
    Low(r) > 0 && Quotient(Low(l), Low(r)) * High(r) == High(l)
  }

  /** Division is exact exactly when it takes the wide path or the native path
      loses nothing. */
  lemma DivideExactly(l: seq<Bit>, ls: Sign, r: seq<Bit>, rs: Sign, sign: Sign, n: nat)
    requires l != [] && r != [] && !Negative(l, ls) && !Negative(r, rs) && AllKnown(l) && AllKnown(r)
    requires Val(r) > 0 && RoomForSign(l, sign, n)
    ensures Exact(DivOut(l, ls, r, rs, sign, n), l, r) <==> (Words(l, ls, r, rs) ==> WordsAgree(l, r))
  {
    hide Val, Pow2, Low, High, Fits, Misread, ToWord, WideDivision;
    WordPlain(l, ls);
    WordPlain(r, rs);
    if !Words(l, ls, r, rs) {
      WideExact(l, r, rs, sign, n);
    } else if Low(r) == 0 {
      assert !Known(DCs(n)[0]);
    } else {
      WordsVal(l, ls, r, rs, sign, n);
      HighBits(l);
      HighBits(r);
      WordLaw(Low(l), High(l), Low(r), High(r), Pow2(WORD));
    }
  }

  lemma WordLaw(a: nat, c: nat, b: nat, d: nat, w: nat)
    requires b > 0 && w > 0
    ensures var q, m := Quotient(a, b), a % b;
      (q * (b + w * d) + m == a + w * c && m < b + w * d) <==> q * d == c
  {
    var q, m := a / b, a % b;
    assert a == b * q + m;
    assert q * (b + w * d) == q * b + w * (q * d) by { Split2(q, b, w, d); }
    assert b * q == q * b;
    assert w * d >= 0;
    if w * (q * d) == w * c { Cancel(w, q * d, c); }
  }

  lemma Split2(q: nat, b: nat, w: nat, d: nat)
    ensures q * (b + w * d) == q * b + w * (q * d)
  {
    assert q * (w * d) == w * (q * d);
  }

  /** In particular whenever no operand is wider than 64 bits with all the bits
      above being 1. */
  lemma DivideWithin(l: seq<Bit>, ls: Sign, r: seq<Bit>, rs: Sign, sign: Sign, n: nat)
    requires l != [] && r != [] && !Negative(l, ls) && !Negative(r, rs) && AllKnown(l) && AllKnown(r)
    requires Val(r) > 0 && RoomForSign(l, sign, n) && !Misread(l) && !Misread(r)
    ensures Exact(DivOut(l, ls, r, rs, sign, n), l, r)
  {
    hide Val, Pow2, Low, High, Fits, Misread, ToWord, DivOut, Exact;
    DivideExactly(l, ls, r, rs, sign, n);
    WordPlain(l, ls);
    WordPlain(r, rs);
    if Words(l, ls, r, rs) {
      FitsLow(r);
      FitsValue(l);
      FitsValue(r);
      assert Quotient(Low(l), Low(r)) * 0 == 0;
    }
  }

  /** A misread dividend spoils every division by a divisor of at most 64 bits. */
  lemma DivideMisread(l: seq<Bit>, ls: Sign, r: seq<Bit>, rs: Sign, sign: Sign, n: nat)
    requires l != [] && r != [] && !Negative(l, ls) && !Negative(r, rs) && AllKnown(l) && AllKnown(r)
    requires Val(r) > 0 && RoomForSign(l, sign, n) && Misread(l) && Fits(r)
    ensures !Exact(DivOut(l, ls, r, rs, sign, n), l, r)
  {
    hide Val, Pow2, Low, High, Fits, Misread, ToWord, DivOut, Exact;
    DivideExactly(l, ls, r, rs, sign, n);
    WordPlain(l, ls);
    WordPlain(r, rs);
    FitsValue(r);
    HighOdd(l);
    assert Quotient(Low(l), 1) * 0 == 0;
  }
}
