/** Bit vectors as objects: the operations work bit by bit on their arrays. */
module Vector {
  import opened Logic
  import opened Numbers
  import opened Native
  import opened Arithmetic
  import opened Multiply

  lemma RepIs(s: seq<Bit>, b: Bit)
    requires forall i | 0 <= i < |s| :: s[i] == b
    ensures s == Rep(b, |s|)
  {
  }

  /** A vector with at least one bit. Its bits are `bits[begin..stop]`; the slots
      outside that range are unused. */
  class BitVector {
    const bits: array<Bit>
    const begin: nat
    const stop: nat
    /** Declared with the lower index on the left. */
    const mirrored: bool
    var sign: Sign

    predicate Valid() { begin < stop <= bits.Length }

    /** The bits, least significant first. */
    function Value(): (s: seq<Bit>)
      requires Valid()
      reads bits
      ensures s != []
    {
      bits[begin..stop]
    }

    constructor Raw(bits: array<Bit>, begin: nat, stop: nat, sign: Sign)
      requires begin < stop <= bits.Length
      ensures this.bits == bits && this.begin == begin && this.stop == stop && this.sign == sign && Valid()
      ensures !mirrored
    {
      mirrored := false;
      this.bits, this.begin, this.stop, this.sign := bits, begin, stop, sign;
    }

    /** A vector declared with bounds `ms` and `ls`, every bit `b`. */
    constructor Make(ms: nat, ls: nat, sign: Sign, b: Bit)
      ensures Valid() && fresh(bits) && this.sign == sign
      ensures begin == Min(ms, ls) && Value() == Rep(b, Max(ms, ls) + 1 - begin)
      ensures forall k | 0 <= k < begin :: bits[k] == NVL
      ensures stop == bits.Length && mirrored == (ms < ls)
    {
      mirrored := ms < ls;
      var lo := Min(ms, ls);
      begin := lo;
      stop := Max(ms, ls) + 1;
      bits := new Bit[Max(ms, ls) + 1](k => if k < lo then NVL else b);
      this.sign := sign;
    }

    /** An exact copy. */
    constructor Copy(bv: BitVector)
      requires bv.Valid()
      ensures Valid() && fresh(bits) && begin == bv.begin && stop == bv.stop && sign == bv.sign
      ensures Value() == bv.Value() && mirrored == bv.mirrored
    {
      begin, stop, sign, mirrored := bv.begin, bv.stop, bv.sign, bv.mirrored;
      bits := new Bit[bv.stop](k requires 0 <= k < bv.stop <= bv.bits.Length reads bv.bits => bv.bits[k]);
    }

    /** Assignment: keep the width, cut off or extend the source. */
    method Assign(bv: BitVector)
      requires Valid() && bv.Valid() && bits != bv.bits
      modifies this`sign, bits
      ensures Value() == Assigned(bv.Value(), bv.sign, stop - begin)
      ensures sign == if old(sign) == Unset then bv.sign else old(sign)
      ensures forall k | 0 <= k < bits.Length && !(begin <= k < stop) :: bits[k] == old(bits[k])
    {
      var n, m := stop - begin, bv.stop - bv.begin;
      if m < n {
        forall k | 0 <= k < m { bits[begin + k] := bv.bits[bv.begin + k]; }
        var h := if bv.sign == Signed then bits[begin + m - 1] else LO;
        forall k | begin + m <= k < stop { bits[k] := h; }
      } else {
        forall k | 0 <= k < n { bits[begin + k] := bv.bits[bv.begin + k]; }
      }
      if sign == Unset { sign := bv.sign; }
    }

    method MoveUp(amount: nat)
      requires Valid() && amount < stop - begin
      modifies bits
      ensures bits[begin + amount..stop] == old(Value())[..stop - begin - amount]
      ensures forall k | 0 <= k < bits.Length && !(begin + amount <= k < stop) :: bits[k] == old(bits[k])
    {
      ghost var s := Value();
      forall k | begin + amount <= k < stop { bits[k] := bits[k - amount]; }
      forall j | 0 <= j < stop - begin - amount ensures bits[begin + amount + j] == s[j] {
        assert bits[begin + amount + j] == old(bits[begin + j]);
      }
    }

    /** Shift in place; amounts that are too large clear the vector. */
    method ShiftLeft(amount: nat)
      requires Valid()
      modifies bits
      ensures Value() == ShiftedBy(old(Value()), amount)
      ensures forall k | 0 <= k < bits.Length && !(begin <= k < stop) :: bits[k] == old(bits[k])
    {
      var n := stop - begin;
      if amount == UNKNOWN_SHIFT {
        forall k | begin <= k < stop { bits[k] := DC; }
      } else if amount < n {
        ghost var s := Value();
        MoveUp(amount);
        ghost var high := bits[begin + amount..stop];
        forall k | begin <= k < begin + amount { bits[k] := LO; }
        RepIs(bits[begin..begin + amount], LO);
        assert bits[begin + amount..stop] == high;
        assert Value() == bits[begin..begin + amount] + bits[begin + amount..stop];
      } else {
        forall k | begin <= k < stop { bits[k] := LO; }
      }
    }

    /** Make everything from bit `i` on unknown. */
    method Spoil(i: nat)
      requires Valid() && begin == 0 && i <= stop
      modifies bits
      ensures Value() == old(bits[..i]) + DCs(stop - i)
    {
      ghost var done := bits[..i];
      forall k | i <= k < stop { bits[k] := DC; }
      assert bits[..i] == done;
    }

    /** Addition in place. */
    method AddAssign(bv: BitVector)
      requires Valid() && bv.Valid() && begin == 0 && bv.begin == 0 && bits != bv.bits
      modifies bits
      ensures Value() == AddInto(old(Value()), bv.Value())
    {
      hide AddInto, AddedSoFar, B, Digit;
      ghost var a, b := Value(), bv.Value();
      AddedStart(a, b);
      assert bits[..0] == [];
      var carry: nat := 0;
      var i := 0;
      while i < stop
        invariant 0 <= i <= stop && carry <= 1 && (forall k | i <= k < stop :: bits[k] == a[k])
        invariant AddedSoFar(a, b, bits[..i], i, carry)
      {
        if i >= bv.stop && carry == 0 {
          AddedCopy(a, b, bits[..i], i);
          assert bits[..stop] == bits[..i] + a[i..];
          return;
        }
        var r := if i < bv.stop then bv.bits[i] else LO;
        var l := bits[i];
        assert r == At(b, i) && l == a[i];
        if !Known(r) || !Known(l) {
          AddedLost(a, b, bits[..i], i, carry);
          Spoil(i);
          return;
        }
        AddedStep(a, b, bits[..i], i, carry);
        ghost var done := bits[..i];
        var pad := carry + B(l) + B(r);
        bits[i] := Digit(pad);
        assert bits[..i + 1] == done + [Digit(pad)];
        carry := pad / 2;
        i := i + 1;
      }
      AddedEnd(a, b, bits[..i], carry);
    }

    /** Subtraction in place. */
    method SubAssign(bv: BitVector)
      requires Valid() && bv.Valid() && begin == 0 && bv.begin == 0 && bits != bv.bits
      modifies bits
      ensures Value() == SubInto(old(Value()), bv.Value())
    {
      hide SubInto, SubbedSoFar, B, Digit;
      ghost var a, b := Value(), bv.Value();
      SubbedStart(a, b);
      assert bits[..0] == [];
      var borrow: nat := 0;
      var i := 0;
      while i < stop
        invariant 0 <= i <= stop && borrow <= 1 && (forall k | i <= k < stop :: bits[k] == a[k])
        invariant SubbedSoFar(a, b, bits[..i], i, borrow)
      {
        var r := if i < bv.stop then bv.bits[i] else LO;
        var l := bits[i];
        assert r == At(b, i) && l == a[i];
        if !Known(r) || !Known(l) {
          SubbedLost(a, b, bits[..i], i, borrow);
          Spoil(i);
          return;
        }
        SubbedStep(a, b, bits[..i], i, borrow);
        ghost var done := bits[..i];
        var pad := (B(l) - B(r) - borrow) % 4;
        bits[i] := Digit(pad);
        assert bits[..i + 1] == done + [Digit(pad)];
        borrow := pad / 2;
        i := i + 1;
      }
      SubbedEnd(a, b, bits[..i], borrow);
    }
  }

  // ----- the in-place loops so far -----

  predicate AddedSoFar(a: seq<Bit>, b: seq<Bit>, done: seq<Bit>, i: nat, c: nat) {
    i <= |a| && c <= 1 && AddInto(a, b) == done + AddIntoFrom(a, b, i, c)
  }

  lemma AddedStart(a: seq<Bit>, b: seq<Bit>)
    ensures AddedSoFar(a, b, [], 0, 0)
  {
    hide AddIntoFrom;
  }

  lemma AddedStep(a: seq<Bit>, b: seq<Bit>, done: seq<Bit>, i: nat, c: nat)
    requires AddedSoFar(a, b, done, i, c) && i < |a| && Known(a[i]) && Known(At(b, i)) && (i >= |b| ==> c == 1)
    ensures var pad := c + B(a[i]) + B(At(b, i)); AddedSoFar(a, b, done + [Digit(pad)], i + 1, pad / 2)
  {
    hide AddInto, Carry;
    var pad := c + B(a[i]) + B(At(b, i));
    CarryIs(B(a[i]), B(At(b, i)), c);
    Glue(done, Digit(pad), AddIntoFrom(a, b, i + 1, pad / 2));
  }

  lemma AddedCopy(a: seq<Bit>, b: seq<Bit>, done: seq<Bit>, i: nat)
    requires AddedSoFar(a, b, done, i, 0) && |b| <= i < |a|
    ensures AddInto(a, b) == done + a[i..]
  {
  }

  lemma AddedLost(a: seq<Bit>, b: seq<Bit>, done: seq<Bit>, i: nat, c: nat)
    requires AddedSoFar(a, b, done, i, c) && i < |a| && (!Known(a[i]) || !Known(At(b, i))) && (i >= |b| ==> c == 1)
    ensures AddInto(a, b) == done + DCs(|a| - i)
  {
  }

  lemma AddedEnd(a: seq<Bit>, b: seq<Bit>, done: seq<Bit>, c: nat)
    requires AddedSoFar(a, b, done, |a|, c)
    ensures AddInto(a, b) == done
  {
    assert done + [] == done;
  }

  predicate SubbedSoFar(a: seq<Bit>, b: seq<Bit>, done: seq<Bit>, i: nat, c: nat) {
    i <= |a| && c <= 1 && SubInto(a, b) == done + SubIntoFrom(a, b, i, c)
  }

  lemma SubbedStart(a: seq<Bit>, b: seq<Bit>)
    ensures SubbedSoFar(a, b, [], 0, 0)
  {
    hide SubIntoFrom;
  }

  /** The code keeps the two low bits of a difference that may be negative. */
  lemma SubbedStep(a: seq<Bit>, b: seq<Bit>, done: seq<Bit>, i: nat, c: nat)
    requires SubbedSoFar(a, b, done, i, c) && i < |a| && Known(a[i]) && Known(At(b, i))
    ensures var x: int := B(a[i]); var pad := (x - B(At(b, i)) - c) % 4;
      SubbedSoFar(a, b, done + [Digit(pad)], i + 1, pad / 2)
  {
    hide SubInto, Borrow;
    var x: int := B(a[i]);
    var pad := (x - B(At(b, i)) - c) % 4;
    BorrowIs(B(a[i]), B(At(b, i)), c);
    Glue(done, Digit(pad), SubIntoFrom(a, b, i + 1, pad / 2));
  }

  lemma SubbedLost(a: seq<Bit>, b: seq<Bit>, done: seq<Bit>, i: nat, c: nat)
    requires SubbedSoFar(a, b, done, i, c) && i < |a| && (!Known(a[i]) || !Known(At(b, i)))
    ensures SubInto(a, b) == done + DCs(|a| - i)
  {
  }

  lemma SubbedEnd(a: seq<Bit>, b: seq<Bit>, done: seq<Bit>, c: nat)
    requires SubbedSoFar(a, b, done, |a|, c)
    ensures SubInto(a, b) == done
  {
    assert done + [] == done;
  }

  lemma CarryIs(a: nat, b: nat, c: nat)
    requires a <= 1 && b <= 1 && c <= 1
    ensures Carry(a, b, c) == (Digit(c + a + b), (c + a + b) / 2)
  {
  }

  /** The code keeps the two low bits of a negative difference. */
  lemma BorrowIs(a: nat, b: nat, c: nat)
    requires a <= 1 && b <= 1 && c <= 1
    ensures var d: int := a; Borrow(a, b, c) == (Digit((d - b - c) % 4), (d - b - c) % 4 / 2)
  {
  }

  // ----- operations with a separate result -----

  /** The sign of a result that had none. */
  function JoinedSign(res: Sign, l: Sign, r: Sign): Sign {
    if res != Unset then res else if l == Signed || r == Signed then Signed else Unsigned
  }

  method UnaryInv(res: BitVector, bv: BitVector)
    requires res.Valid() && bv.Valid() && res.begin == 0 && bv.begin == 0 && res.bits != bv.bits
    modifies res.bits
    ensures res.Value() == Inverted(bv.Value(), res.stop)
  {
    var i := 0;
    while i < bv.stop && i < res.stop
      invariant 0 <= i <= bv.stop && i <= res.stop
      invariant forall k | 0 <= k < i :: res.bits[k] == Inv(bv.bits[k])
    {
      res.bits[i] := Inv(bv.bits[i]);
      i := i + 1;
    }
    while i < res.stop
      invariant i <= res.stop && Min(bv.stop, res.stop) <= i
      invariant forall k | 0 <= k < i :: res.bits[k] == Inv(At(bv.Value(), k))
    {
      res.bits[i] := Inv(LO);
      i := i + 1;
    }
  }

  method UnaryNeg(res: BitVector, bv: BitVector)
    requires res.Valid() && bv.Valid() && res.begin == 0 && bv.begin == 0 && res.bits != bv.bits
    modifies res.bits
    ensures res.Value() == Negated(bv.Value(), res.stop)
  {
    UnaryInv(res, bv);
    var one := new BitVector.Make(0, 0, Unsigned, HI);
    assert one.Value() == [HI];
    res.AddAssign(one);
  }

  method SubLoop(res: BitVector, l: BitVector, r: BitVector)
    requires res.Valid() && l.Valid() && r.Valid() && res.begin == 0 && l.begin == 0 && r.begin == 0
    requires res.bits != l.bits && res.bits != r.bits
    modifies res.bits
    ensures res.Value() == SubOut(l.Value(), r.Value(), res.stop)
  {
    hide Difference, Borrow;
    ghost var a, b := l.Value(), r.Value();
    DifferenceZero(a, b);
    var borrow: nat := 0;
    var i := 0;
    while i < res.stop
      invariant 0 <= i <= res.stop && l.Value() == a && r.Value() == b
      invariant KnownBelow(a, i) && KnownBelow(b, i)
      invariant Difference(a, b, i) == Ripple(res.bits[..i], borrow)
    {
      var y := if i < r.stop then r.bits[i] else LO;
      var x := if i < l.stop then l.bits[i] else LO;
      assert x == At(a, i) && y == At(b, i);
      if !Known(y) || !Known(x) {
        SubLost(a, b, i, res.stop);
        res.Spoil(0);
        assert [] + DCs(res.stop) == DCs(res.stop);
        return;
      }
      DifferenceStep(a, b, i);
      BorrowIs(B(x), B(y), borrow);
      var pad := (B(x) - B(y) - borrow) % 4;
      ghost var done := res.bits[..i];
      res.bits[i] := Digit(pad);
      assert res.bits[..i + 1] == done + [Digit(pad)];
      borrow := pad / 2;
      i := i + 1;
    }
  }

  lemma SubLost(l: seq<Bit>, r: seq<Bit>, i: nat, n: nat)
    requires i < n && (!Known(At(l, i)) || !Known(At(r, i)))
    ensures SubOut(l, r, n) == DCs(n)
  {
  }

  method BinarySub(res: BitVector, l: BitVector, r: BitVector)
    requires res.Valid() && l.Valid() && r.Valid() && res.begin == 0 && l.begin == 0 && r.begin == 0
    requires res.bits != l.bits && res.bits != r.bits && res != l && res != r
    modifies res`sign, res.bits
    ensures res.Value() == SubOut(l.Value(), r.Value(), res.stop)
    ensures res.sign == JoinedSign(old(res.sign), l.sign, r.sign)
  {
    hide SubOut;
    SubLoop(res, l, r);
    if res.sign == Unset {
      res.sign := if l.sign == Signed || r.sign == Signed then Signed else Unsigned;
    }
  }
}
