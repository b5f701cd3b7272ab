/** Multiplication and division on vectors. */
module VectorMultiply {
  import opened Logic
  import opened Numbers
  import opened Native
  import opened Arithmetic
  import opened Compare
  import opened Multiply
  import opened Vector
  import opened VectorCompare

  lemma DigitsStep(rem: nat)
    requires rem > 0
    ensures Digits(rem) == [Digit(rem)] + Digits(rem / 2)
  {
  }

  lemma HalfBelow(rem: nat, i: nat)
    requires i < WORD && rem < Pow2(WORD - i)
    ensures rem / 2 < Pow2(WORD - i - 1)
  {
    hide Pow2;
    PowPos(WORD - i);
  }

  /** The conversion of a word to an unsigned vector of just its digits. */
  method WordVector(value: nat) returns (bv: BitVector)
    requires value < Pow2(WORD)
    ensures fresh(bv) && fresh(bv.bits) && bv.Valid() && bv.begin == 0 && bv.sign == Unsigned
    ensures bv.Value() == FromWord(value)
  {
    hide Pow2, Digits;
    if value == 0 {
      bv := new BitVector.Make(0, 0, Unsigned, LO);
      assert bv.Value() == [LO];
      return;
    }
    var bits := new Bit[WORD](_ => NVL);
    var rem: nat, i: nat := value, 0;
    PowZero();
    while rem > 0
      invariant 0 <= i <= WORD && rem < Pow2(WORD - i)
      invariant Digits(value) == bits[..i] + Digits(rem)
      invariant i == 0 ==> rem == value
    {
      DigitsStep(rem);
      if i == WORD {
        PowZero();
        assert false;
      }
      HalfBelow(rem, i);
      ghost var done := bits[..i];
      bits[i] := Digit(rem);
      assert bits[..i + 1] == done + [Digit(rem)];
      i := i + 1;
      rem := rem / 2;
    }
    DigitsZero();
    assert bits[..i] + [] == bits[..i];
    bv := new BitVector.Raw(bits, 0, i, Unsigned);
  }

  lemma DigitsZero()
    ensures Digits(0) == []
  {
  }

  /** Assign a word to a vector. */
  method StoreWord(res: BitVector, value: nat)
    requires res.Valid() && value < Pow2(WORD)
    modifies res`sign, res.bits
    ensures res.Value() == Pad(FromWord(value), res.stop - res.begin)
    ensures res.sign == if old(res.sign) == Unset then Unsigned else old(res.sign)
  {
    hide Pow2, FromWord;
    var bv := WordVector(value);
    res.Assign(bv);
    ghost var t := FromWord(value);
    ExtendPad(t, res.stop - res.begin);
  }

  /** Assign unknown bits; a sign that was not set stays so. */
  method StoreUnknown(res: BitVector)
    requires res.Valid() && res.begin == 0
    modifies res`sign, res.bits
    ensures res.Value() == DCs(res.stop) && res.sign == old(res.sign)
  {
    var nan := new BitVector.Make(res.stop - 1, 0, Unset, DC);
    res.Assign(nan);
  }

  /** Shift and add. */
  method MulLoop(p: BitVector, mcand: BitVector, mplier: BitVector)
    requires p.Valid() && mcand.Valid() && mplier.Valid() && p.begin == 0 && mcand.begin == 0 && mplier.begin == 0
    requires p.bits != mcand.bits && p.bits != mplier.bits && mcand.bits != mplier.bits
    modifies p.bits, mcand.bits
    ensures p.Value() == MulFrom(old(p.Value()), old(mcand.Value()), mplier.Value(), 0)
  {
    hide AddInto, Shifted, ShiftedBy;
    ghost var o, m, r := p.Value(), mcand.Value(), mplier.Value();
    var i := 0;
    while i < mplier.stop
      invariant 0 <= i <= mplier.stop && mplier.Value() == r
      invariant MulFrom(o, m, r, 0) == MulFrom(p.Value(), mcand.Value(), r, i)
    {
      assert mplier.bits[i] == r[i];
      if mplier.bits[i] == HI { p.AddAssign(mcand); }
      ShiftedOnce(mcand.Value());
      mcand.ShiftLeft(1);
      i := i + 1;
    }
  }

  /** Signed operands must not be negative. */
  method BinaryMul(p: BitVector, l: BitVector, r: BitVector)
    requires p.Valid() && l.Valid() && r.Valid() && p.begin == 0 && l.begin == 0 && r.begin == 0
    requires p != l && p != r && p.bits != l.bits && p.bits != r.bits
    requires !Negative(l.Value(), l.sign) && !Negative(r.Value(), r.sign)
    modifies p`sign, p.bits
    ensures p.Value() == MulOut(l.Value(), l.sign, r.Value(), r.sign, p.stop)
    ensures var unknown := ToWord(l.Value(), l.sign, WORD) == Word(0, true) ||
      ToWord(r.Value(), r.sign, WORD) == Word(0, true);
      p.sign == if old(p.sign) != Unset || unknown then old(p.sign) else Unsigned
  {
    hide Pow2, ToWord, FromWord, MulFrom, Pad, Negative, Assigned;
    ghost var a, b := l.Value(), r.Value();
    var ld := ToDecimal(l, WORD);
    if ld.fail && ld.value == 0 {
      StoreUnknown(p);
      return;
    }
    var rd := ToDecimal(r, WORD);
    if rd.fail && rd.value == 0 {
      StoreUnknown(p);
      return;
    }
    if !ld.fail && ld.value < Pow2(HALF) && !rd.fail && rd.value < Pow2(HALF) {
      StoreWord(p, ld.value * rd.value % Pow2(WORD));
      return;
    }
    MulLong(p, l, r);
  }

  /** The loop on copies of the operands. */
  method MulLong(p: BitVector, l: BitVector, r: BitVector)
    requires p.Valid() && l.Valid() && r.Valid() && p.begin == 0 && l.begin == 0 && r.begin == 0
    requires p != l && p != r && p.bits != l.bits && p.bits != r.bits
    modifies p`sign, p.bits
    ensures p.Value() == MulFrom(Rep(LO, p.stop), Assigned(l.Value(), l.sign, p.stop), r.Value(), 0)
    ensures p.sign == if old(p.sign) == Unset then Unsigned else old(p.sign)
  {
    hide MulFrom, Extend, Rep;
    ghost var a, b := l.Value(), r.Value();
    ClearVector(p);
    assert l.Value() == a && r.Value() == b;
    var mcand := new BitVector.Make(p.stop - 1, 0, Unsigned, DC);
    mcand.Assign(l);
    var mplier := new BitVector.Copy(r);
    MulLoop(p, mcand, mplier);
  }

  /** Assign a single 0 bit. */
  method ClearVector(p: BitVector)
    requires p.Valid() && p.begin == 0
    modifies p`sign, p.bits
    ensures p.Value() == Rep(LO, p.stop)
    ensures p.sign == if old(p.sign) == Unset then Unsigned else old(p.sign)
  {
    var zero := new BitVector.Make(0, 0, Unsigned, LO);
    p.Assign(zero);
  }
}
