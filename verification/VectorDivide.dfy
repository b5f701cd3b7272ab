/** Division with remainder on vectors. */
module VectorDivide {
  import opened Logic
  import opened Numbers
  import opened Native
  import opened Arithmetic
  import opened Compare
  import opened Multiply
  import opened Divide
  import opened Vector
  import opened VectorCompare
  import opened VectorMultiply

  /** What the loop has done when it is about to read bit `i - 1`. */
  ghost predicate Dividing(q: BitVector, rem: BitVector, l: seq<Bit>, d: seq<Bit>, i: nat)
    requires q.Valid() && rem.Valid() && q.begin == 0 && rem.begin == 0 && d != []
    reads q.bits, rem.bits, rem`sign
  {
    && i <= |l| <= q.stop
    && DivSteps(l, d, rem.sign, rem.stop, |l| - i) == Steps(q.bits[i..|l|], rem.Value())
    && (forall k | 0 <= k < i || |l| <= k < q.stop :: q.bits[k] == LO)
  }

  /** Take the next bit of the dividend into the remainder. */
  method TakeBit(rem: BitVector, b: Bit)
    requires rem.Valid() && rem.begin == 0
    modifies rem.bits
    ensures rem.Value() == Taken(old(rem.Value()), b)
  {
    ghost var s := rem.Value();
    ShiftedOnce(s);
    rem.ShiftLeft(1);
    rem.bits[0] := b;
    assert rem.Value() == Shifted(s)[0 := b];
  }

  lemma RoundStep(l: seq<Bit>, d: seq<Bit>, sign: Sign, w: nat, k: nat)
    requires d != [] && k < |l| && w > 0 && DivSteps(l, d, sign, w, k).Steps?
    ensures DivSteps(l, d, sign, w, k + 1) == Round(DivSteps(l, d, sign, w, k), d, sign, l[|l| - (k + 1)])
  {
  }

  lemma {:induction false} LostStays(l: seq<Bit>, d: seq<Bit>, sign: Sign, w: nat, k: nat, n: nat)
    requires d != [] && k <= n <= |l| && w > 0 && DivSteps(l, d, sign, w, k).Lost?
    ensures DivSteps(l, d, sign, w, n).Lost?
    decreases n
  {
    if k < n { LostStays(l, d, sign, w, k, n - 1); }
  }

  /** Shift and subtract. */
  method DivLoop(q: BitVector, rem: BitVector, dend: BitVector, dsor: BitVector) returns (lost: bool)
    requires q.Valid() && rem.Valid() && dend.Valid() && dsor.Valid()
    requires q.begin == 0 && rem.begin == 0 && dend.begin == 0 && dsor.begin == 0
    requires {q.bits} !! {rem.bits} && q.bits != dend.bits && q.bits != dsor.bits
    requires rem.bits != dend.bits && rem.bits != dsor.bits
    requires dend.stop <= q.stop && dsor.sign == Unsigned
    requires q.Value() == Rep(LO, q.stop) && rem.Value() == Rep(LO, rem.stop)
    modifies q.bits, rem.bits
    ensures var p := DivSteps(dend.Value(), dsor.Value(), rem.sign, rem.stop, dend.stop);
      (lost <==> p.Lost?) && (!lost ==> q.Value() == Pad(p.q, q.stop) && rem.Value() == p.rem)
  {
    hide Less, SubInto, Taken, DivSteps;
    ghost var l, d := dend.Value(), dsor.Value();
    DivFirst(l, d, rem.sign, rem.stop);
    assert forall k | 0 <= k < q.stop :: q.bits[k] == q.Value()[k];
    assert q.bits[|l|..|l|] == [];
    var i: nat := dend.stop;
    while i > 0
      invariant i <= dend.stop && dend.Value() == l && dsor.Value() == d
      invariant Dividing(q, rem, l, d, i)
    {
      lost := DivRound(q, rem, dend, dsor, i - 1);
      if lost {
        LostStays(l, d, rem.sign, rem.stop, |l| - i + 1, |l|);
        return;
      }
      i := i - 1;
    }
    DividedValue(q, rem, l, d);
    return false;
  }

  lemma DivFirst(l: seq<Bit>, d: seq<Bit>, sign: Sign, w: nat)
    requires d != [] && w > 0
    ensures DivSteps(l, d, sign, w, 0) == Steps([], Rep(LO, w))
  {
  }

  lemma DividedValue(q: BitVector, rem: BitVector, l: seq<Bit>, d: seq<Bit>)
    requires q.Valid() && rem.Valid() && q.begin == 0 && rem.begin == 0 && d != []
    requires Dividing(q, rem, l, d, 0)
    ensures var p := DivSteps(l, d, rem.sign, rem.stop, |l|);
      p.Steps? && q.Value() == Pad(p.q, q.stop) && rem.Value() == p.rem
  {
    hide DivSteps;
    var p := q.bits[0..|l|];
    forall k | 0 <= k < q.stop ensures q.Value()[k] == Pad(p, q.stop)[k] {}
  }

  method DivRound(q: BitVector, rem: BitVector, dend: BitVector, dsor: BitVector, i: nat) returns (lost: bool)
    requires q.Valid() && rem.Valid() && dend.Valid() && dsor.Valid()
    requires q.begin == 0 && rem.begin == 0 && dend.begin == 0 && dsor.begin == 0
    requires {q.bits} !! {rem.bits} && q.bits != dend.bits && q.bits != dsor.bits
    requires rem.bits != dend.bits && rem.bits != dsor.bits && dsor.sign == Unsigned
    requires i < dend.stop && Dividing(q, rem, dend.Value(), dsor.Value(), i + 1)
    modifies q.bits, rem.bits
    ensures lost ==> DivSteps(dend.Value(), dsor.Value(), rem.sign, rem.stop, dend.stop - i).Lost?
    ensures !lost ==> Dividing(q, rem, dend.Value(), dsor.Value(), i)
  {
    hide Less, SubInto, Taken, DivSteps;
    ghost var l, d := dend.Value(), dsor.Value();
    RoundStep(l, d, rem.sign, rem.stop, |l| - (i + 1));
    ghost var taken := q.bits[i + 1..|l|];
    assert dend.bits[i] == l[i];
    TakeBit(rem, dend.bits[i]);
    var cmp := LessThan(rem, dsor);
    if cmp == HI {
      q.bits[i] := LO;
    } else if cmp == LO {
      q.bits[i] := HI;
      rem.SubAssign(dsor);
    } else {
      return true;
    }
    assert q.bits[i..|l|] == [q.bits[i]] + taken;
    return false;
  }

  /** Quotient and remainder; both start as zeros. Signed operands must not be
      negative. */
  method BinaryDivRem(q: BitVector, rem: BitVector, l: BitVector, r: BitVector)
    requires q.Valid() && rem.Valid() && l.Valid() && r.Valid()
    requires q.begin == 0 && rem.begin == 0 && l.begin == 0 && r.begin == 0
    requires q != rem && {q.bits} !! {rem.bits} && q.bits != l.bits && q.bits != r.bits
    requires rem.bits != l.bits && rem.bits != r.bits && q != l && q != r && rem != l && rem != r
    requires l.stop <= q.stop == rem.stop && q.Value() == Rep(LO, q.stop) && rem.Value() == Rep(LO, rem.stop)
    requires !Negative(l.Value(), l.sign) && !Negative(r.Value(), r.sign)
    modifies q`sign, q.bits, rem`sign, rem.bits
    ensures Division(q.Value(), rem.Value()) == DivOut(l.Value(), l.sign, r.Value(), r.sign, old(rem.sign), q.stop)
    ensures var path := PathTaken(l.Value(), l.sign, r.Value(), r.sign, old(rem.sign), q.stop);
      q.sign == QuotientSign(path, old(q.sign), l.sign, r.sign) &&
      rem.sign == RemainderSign(path, old(rem.sign), l.sign)
  {
    hide Pow2, ToWord, FromWord, WideDivision, WordDivision, Negative;
    ghost var a, b, sign := l.Value(), r.Value(), rem.sign;
    var ld := ToDecimal(l, WORD);
    if ld.fail && ld.value == 0 {
      StoreUnknown(rem);
      StoreUnknown(q);
      return;
    }
    var rd := ToDecimal(r, WORD);
    if rd.fail && rd.value == 0 {
      StoreUnknown(rem);
      StoreUnknown(q);
      return;
    }
    if !ld.fail && !rd.fail {
      WordBound(a, l.sign, WORD);
      DivWords(q, rem, ld.value, rd.value);
      return;
    }
    DivLong(q, rem, l, r);
  }

  /** The path for operands that do not both convert to words. */
  method DivLong(q: BitVector, rem: BitVector, l: BitVector, r: BitVector)
    requires q.Valid() && rem.Valid() && l.Valid() && r.Valid()
    requires q.begin == 0 && rem.begin == 0 && l.begin == 0 && r.begin == 0
    requires q != rem && {q.bits} !! {rem.bits} && q.bits != l.bits && q.bits != r.bits
    requires rem.bits != l.bits && rem.bits != r.bits && q != l && q != r && rem != l && rem != r
    requires l.stop <= q.stop == rem.stop && q.Value() == Rep(LO, q.stop) && rem.Value() == Rep(LO, rem.stop)
    modifies q`sign, q.bits, rem`sign, rem.bits
    ensures Division(q.Value(), rem.Value()) == WideDivision(l.Value(), r.Value(), r.sign, old(rem.sign), q.stop)
    ensures
      var lost := Equal(r.Value(), r.sign, [LO], Unsigned) == HI ||
        DivSteps(l.Value(), r.Value(), old(rem.sign), q.stop, l.stop).Lost?;
      var path := if lost then Nowhere else Loop;
      q.sign == QuotientSign(path, old(q.sign), l.sign, r.sign) &&
      rem.sign == RemainderSign(path, old(rem.sign), l.sign)
  {
    hide DivSteps, Pad, Equal;
    var zero := new BitVector.Make(0, 0, Unsigned, LO);
    assert zero.Value() == [LO];
    var same := EqualTo(r, zero);
    if same == HI {
      StoreUnknown(rem);
      StoreUnknown(q);
      return;
    }
    var lost := DivWide(q, rem, l, r);
    if lost { return; }
    if q.sign == Unset {
      q.sign := if l.sign == Signed || r.sign == Signed then Signed else Unsigned;
    }
    rem.sign := l.sign;
  }

  method DivWords(q: BitVector, rem: BitVector, a: nat, b: nat)
    requires q.Valid() && rem.Valid() && q.begin == 0 && rem.begin == 0 && q.stop == rem.stop
    requires q != rem && {q.bits} !! {rem.bits} && a < Pow2(WORD)
    modifies q`sign, q.bits, rem`sign, rem.bits
    ensures Division(q.Value(), rem.Value()) == WordDivision(a, b, q.stop)
    ensures var path := if b == 0 then Nowhere else Native;
      q.sign == QuotientSign(path, old(q.sign), Unset, Unset) && rem.sign == RemainderSign(path, old(rem.sign), Unset)
  {
    hide Pow2, FromWord;
    if b == 0 {
      StoreUnknown(rem);
      StoreUnknown(q);
      return;
    }
    Shrinks(a, b);
    StoreWord(q, a / b);
    StoreWord(rem, a % b);
  }

  /** The loop on copies of the operands. */
  method DivWide(q: BitVector, rem: BitVector, l: BitVector, r: BitVector) returns (lost: bool)
    requires q.Valid() && rem.Valid() && l.Valid() && r.Valid()
    requires q.begin == 0 && rem.begin == 0 && l.begin == 0 && r.begin == 0
    requires q != rem && {q.bits} !! {rem.bits} && q.bits != l.bits && q.bits != r.bits
    requires rem.bits != l.bits && rem.bits != r.bits
    requires l.stop <= q.stop == rem.stop && q.Value() == Rep(LO, q.stop) && rem.Value() == Rep(LO, rem.stop)
    modifies q`sign, q.bits, rem`sign, rem.bits
    ensures var p := DivSteps(l.Value(), r.Value(), old(rem.sign), q.stop, l.stop);
      Division(q.Value(), rem.Value()) ==
      if p.Lost? then Undefined(q.stop) else Division(Pad(p.q, q.stop), p.rem)
    ensures lost == DivSteps(l.Value(), r.Value(), old(rem.sign), q.stop, l.stop).Lost?
    ensures q.sign == old(q.sign) && rem.sign == old(rem.sign)
  {
    hide Pad, DivSteps;
    ghost var a, b := l.Value(), r.Value();
    var dend := new BitVector.Make(l.stop - 1, 0, Unsigned, DC);
    var dsor := new BitVector.Make(r.stop - 1, 0, Unsigned, DC);
    dend.Assign(l);
    dsor.Assign(r);
    assert dend.Value() == a && dsor.Value() == b by {
      SameWidth(a, l.sign);
      SameWidth(b, r.sign);
    }
    lost := DivLoop(q, rem, dend, dsor);
    if lost {
      StoreUnknown(rem);
      StoreUnknown(q);
    }
  }

  lemma SameWidth(s: seq<Bit>, sign: Sign)
    requires s != []
    ensures Assigned(s, sign, |s|) == s
  {
  }

  method BinaryDiv(q: BitVector, l: BitVector, r: BitVector)
    requires q.Valid() && l.Valid() && r.Valid() && q.begin == 0 && l.begin == 0 && r.begin == 0
    requires q != l && q != r && q.bits != l.bits && q.bits != r.bits && l.stop <= q.stop
    requires !Negative(l.Value(), l.sign) && !Negative(r.Value(), r.sign)
    modifies q`sign, q.bits
    ensures q.Value() == DivOut(l.Value(), l.sign, r.Value(), r.sign, Unset, q.stop).q
    ensures q.sign == if old(q.sign) == Unset then Unsigned else old(q.sign)
  {
    hide Rep, DivOut, Negative, PathTaken;
    ghost var a, b := l.Value(), r.Value();
    var rem := new BitVector.Make(q.stop - 1, 0, Unset, LO);
    ClearVector(q);
    assert l.Value() == a && r.Value() == b;
    BinaryDivRem(q, rem, l, r);
  }

  method BinaryMod(rem: BitVector, l: BitVector, r: BitVector)
    requires rem.Valid() && l.Valid() && r.Valid() && rem.begin == 0 && l.begin == 0 && r.begin == 0
    requires rem != l && rem != r && rem.bits != l.bits && rem.bits != r.bits && l.stop <= rem.stop
    requires !Negative(l.Value(), l.sign) && !Negative(r.Value(), r.sign)
    modifies rem`sign, rem.bits
    ensures var sign := if old(rem.sign) == Unset then Unsigned else old(rem.sign);
      rem.Value() == DivOut(l.Value(), l.sign, r.Value(), r.sign, sign, rem.stop).rem &&
      rem.sign == RemainderSign(PathTaken(l.Value(), l.sign, r.Value(), r.sign, sign, rem.stop), sign, l.sign)
  {
    hide Rep, DivOut, Negative, PathTaken;
    ghost var a, b := l.Value(), r.Value();
    var q := new BitVector.Make(rem.stop - 1, 0, Unset, LO);
    ClearVector(rem);
    assert l.Value() == a && r.Value() == b;
    BinaryDivRem(q, rem, l, r);
  }
}
