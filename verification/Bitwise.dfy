/** Bitwise operations, reductions and the conditional operator. */
module Bitwise {
  import opened Logic
  import opened Numbers
  import opened Native
  import opened Compare
  import opened Vector
  import VectorCompare

  datatype Op = AND | NAND | OR | NOR | XOR | XNOR | TERNARY

  function Apply(op: Op, a: Bit, b: Bit): Bit {
    match op
    case AND => And(a, b)
    case NAND => Nand(a, b)
    case OR => Or(a, b)
    case NOR => Nor(a, b)
    case XOR => Xor(a, b)
    case XNOR => Xnor(a, b)
    case TERNARY => Ternary(a, b)
  }

  /** The operation on every bit; operands are extended with 0. */
  function LogicOut(op: Op, l: seq<Bit>, r: seq<Bit>, n: nat): (t: seq<Bit>)
    ensures |t| == n
  {
    seq(n, i requires 0 <= i < n => Apply(op, At(l, i), At(r, i)))
  }

  /** The lowest `i` bits of the result are done. */
  ghost predicate Applied(op: Op, res: BitVector, a: seq<Bit>, b: seq<Bit>, i: nat)
    requires res.Valid() && res.begin == 0
    reads res.bits
  {
    i <= res.stop && forall k | 0 <= k < i :: res.bits[k] == Apply(op, At(a, k), At(b, k))
  }

  method ApplyBit(op: Op, res: BitVector, x: Bit, y: Bit, i: nat, ghost a: seq<Bit>, ghost b: seq<Bit>)
    requires res.Valid() && res.begin == 0 && i < res.stop && Applied(op, res, a, b, i)
    requires x == At(a, i) && y == At(b, i)
    modifies res.bits
    ensures Applied(op, res, a, b, i + 1)
  {
    hide Apply;
    res.bits[i] := Apply(op, x, y);
  }

  lemma AllApplied(op: Op, res: BitVector, a: seq<Bit>, b: seq<Bit>)
    requires res.Valid() && res.begin == 0 && Applied(op, res, a, b, res.stop)
    ensures res.Value() == LogicOut(op, a, b, res.stop)
  {
    hide Apply;
  }

  method LogicOp(op: Op, res: BitVector, l: BitVector, r: BitVector)
    requires res.Valid() && l.Valid() && r.Valid() && res.begin == 0 && l.begin == 0 && r.begin == 0
    requires res.bits != l.bits && res.bits != r.bits
    modifies res.bits
    ensures res.Value() == LogicOut(op, l.Value(), r.Value(), res.stop)
  {
    hide Apply, Applied;
    ghost var a, b := l.Value(), r.Value();
    var i: nat := 0;
    assert Applied(op, res, a, b, 0) by { NoneApplied(op, res, a, b); }
    while i < l.stop && i < r.stop && i < res.stop
      invariant i <= l.stop && i <= r.stop && i <= res.stop
      invariant l.Value() == a && r.Value() == b && Applied(op, res, a, b, i)
    {
      assert a[i] == l.bits[i] && b[i] == r.bits[i];
      ApplyBit(op, res, l.bits[i], r.bits[i], i, a, b);
      i := i + 1;
    }
    if l.stop <= r.stop {
      while i < r.stop && i < res.stop
        invariant Min(l.stop, res.stop) <= i <= r.stop && i <= res.stop
        invariant l.Value() == a && r.Value() == b && Applied(op, res, a, b, i)
      {
        assert b[i] == r.bits[i];
        ApplyBit(op, res, LO, r.bits[i], i, a, b);
        i := i + 1;
      }
    } else {
      while i < l.stop && i < res.stop
        invariant Min(r.stop, res.stop) <= i <= l.stop && i <= res.stop
        invariant l.Value() == a && r.Value() == b && Applied(op, res, a, b, i)
      {
        assert a[i] == l.bits[i];
        ApplyBit(op, res, l.bits[i], LO, i, a, b);
        i := i + 1;
      }
    }
    while i < res.stop
      invariant i <= res.stop && Min(Max(l.stop, r.stop), res.stop) <= i && Applied(op, res, a, b, i)
    {
      ApplyBit(op, res, LO, LO, i, a, b);
      i := i + 1;
    }
    AllApplied(op, res, a, b);
  }

  lemma NoneApplied(op: Op, res: BitVector, a: seq<Bit>, b: seq<Bit>)
    requires res.Valid() && res.begin == 0
    ensures Applied(op, res, a, b, 0)
  {
  }

  /** Each bit of the result in numbers: products, sums and parities where both
      operand bits are known. An unknown bit matters unless the other one decides;
      the unused marker decides nothing. */
  lemma LogicBits(op: Op, l: seq<Bit>, r: seq<Bit>, n: nat, i: nat)
    requires i < n
    ensures var a, b, t := At(l, i), At(r, i), LogicOut(op, l, r, n)[i];
      if Known(a) && Known(b) then
        (match op
         case AND => Known(t) && B(t) == B(a) * B(b)
         case NAND => Known(t) && B(t) == 1 - B(a) * B(b)
         case OR => Known(t) && (B(t) == 0 <==> B(a) + B(b) == 0)
         case NOR => Known(t) && (B(t) == 1 <==> B(a) + B(b) == 0)
         case XOR => Known(t) && B(t) == (B(a) + B(b)) % 2
         case XNOR => Known(t) && B(t) == (B(a) + B(b) + 1) % 2
         case TERNARY => t == if a == b then a else DC)
      else
        var decided := (x: Bit) => (a == x || b == x) && a != NVL && b != NVL;
        (match op
         case AND => t == if decided(LO) then LO else DC
         case NAND => t == if decided(LO) then HI else DC
         case OR => t == if decided(HI) then HI else DC
         case NOR => t == if decided(HI) then LO else DC
         case _ => t == DC)
  {
  }

  // ----- reductions -----

  /** The fold of the first `k` bits. */
  function Folded(op: Op, s: seq<Bit>, k: nat): Bit
    requires 2 <= k <= |s|
  {
    if k == 2 then Apply(op, s[0], s[1]) else Apply(op, Folded(op, s, k - 1), s[k - 1])
  }

  function Reduced(op: Op, s: seq<Bit>): Bit {
    if s == [] then DC
    else if |s| == 1 then (if Known(s[0]) then s[0] else DC)
    else Folded(op, s, |s|)
  }

  method Reduce(op: Op, bv: BitVector) returns (res: Bit)
    requires bv.Valid() && bv.begin == 0 && op in {AND, OR, XOR}
    ensures res == Reduced(op, bv.Value())
  {
    hide Apply;
    ghost var s := bv.Value();
    if bv.stop < 2 {
      assert s[0] == bv.bits[0];
      return if Known(bv.bits[0]) then bv.bits[0] else DC;
    }
    assert s[0] == bv.bits[0] && s[1] == bv.bits[1];
    res := Apply(op, bv.bits[0], bv.bits[1]);
    var i := 2;
    while i < bv.stop
      invariant 2 <= i <= bv.stop && bv.Value() == s
      invariant res == Folded(op, s, i)
    {
      assert s[i] == bv.bits[i];
      res := Apply(op, res, bv.bits[i]);
      i := i + 1;
    }
  }

  function CountOnes(s: seq<Bit>): nat {
    if s == [] then 0 else CountOnes(s[..|s| - 1]) + B(s[|s| - 1])
  }

  /** What the reductions mean on known vectors. */
  lemma {:induction false} FoldedMeaning(s: seq<Bit>, k: nat)
    requires 2 <= k <= |s| && AllKnown(s)
    ensures Folded(AND, s, k) == if CountOnes(s[..k]) == k then HI else LO
    ensures Folded(OR, s, k) == if CountOnes(s[..k]) > 0 then HI else LO
    ensures Folded(XOR, s, k) == Digit(CountOnes(s[..k]))
    ensures CountOnes(s[..k]) <= k
  {
    assert Known(s[k - 1]);
    assert s[..k][..k - 1] == s[..k - 1];
    if k == 2 {
      assert Known(s[0]);
      OnesTwo(s[..2]);
    } else {
      FoldedMeaning(s, k - 1);
    }
  }

  lemma OnesTwo(s: seq<Bit>)
    requires |s| == 2
    ensures CountOnes(s) == B(s[0]) + B(s[1])
  {
    assert s[..1] == [s[0]];
    assert CountOnes([s[0]]) == CountOnes([]) + B(s[0]) by { assert [s[0]][..0] == []; }
  }

  /** Conjunction, disjunction and parity of all the bits. */
  lemma ReducedMeaning(s: seq<Bit>)
    requires s != [] && AllKnown(s)
    ensures Reduced(AND, s) == if CountOnes(s) == |s| then HI else LO
    ensures Reduced(OR, s) == if CountOnes(s) > 0 then HI else LO
    ensures Reduced(XOR, s) == Digit(CountOnes(s))
  {
    assert Known(s[0]);
    if |s| == 1 {
      assert s[..0] == [];
    } else {
      FoldedMeaning(s, |s|);
      assert s[..|s|] == s;
    }
  }

  // ----- the conditional operator -----

  /** `c > 0` decides; if it is unknown the branches are merged. */
  function Chosen(c: seq<Bit>, cs: Sign, t: seq<Bit>, ts: Sign, f: seq<Bit>, fs: Sign, n: nat): (s: seq<Bit>)
    requires c != [] && t != [] && f != []
    ensures |s| == n
  {
    match Less([LO], Unsigned, c, cs)
    case LO => Assigned(f, fs, n)
    case HI => Assigned(t, ts, n)
    case _ => LogicOut(TERNARY, t, f, n)
  }

  lemma ZeroVal()
    ensures Val([LO]) == 0
  {
    ValZero([LO]);
  }

  /** On known conditions the first branch is taken exactly for positive
      numbers: a negative condition counts as false. */
  lemma ChosenBranch(c: seq<Bit>, cs: Sign, t: seq<Bit>, ts: Sign, f: seq<Bit>, fs: Sign, n: nat)
    requires c != [] && t != [] && f != [] && AllKnown(c) && Ordinary(cs)
    ensures Chosen(c, cs, t, ts, f, fs, n) ==
      if Integer(c, cs) > 0 then Assigned(t, ts, n) else Assigned(f, fs, n)
  {
    hide Val, Pow2, Less, Assigned, LogicOut;
    ZeroVal();
    assert AllKnown([LO]) && !Negative([LO], Unsigned);
    LessExact([LO], Unsigned, c, cs);
  }

  method Conditional(res: BitVector, c: BitVector, t: BitVector, f: BitVector)
    requires res.Valid() && c.Valid() && t.Valid() && f.Valid()
    requires res.begin == 0 && c.begin == 0 && t.begin == 0 && f.begin == 0
    requires res.bits != c.bits && res.bits != t.bits && res.bits != f.bits
    modifies res`sign, res.bits
    ensures res.Value() == old(Chosen(c.Value(), c.sign, t.Value(), t.sign, f.Value(), f.sign, res.stop))
    ensures res.sign == old(if res.sign != Unset then res.sign
                            else match Less([LO], Unsigned, c.Value(), c.sign)
                              case LO => f.sign case HI => t.sign case _ => Unset)
  {
    var zero := new BitVector.Make(0, 0, Unsigned, LO);
    assert zero.Value() == [LO];
    var nonzero := VectorCompare.LessThan(zero, c);
    match nonzero {
      case LO => res.Assign(f);
      case HI => res.Assign(t);
      case DC => LogicOp(TERNARY, res, t, f);
      case Z => LogicOp(TERNARY, res, t, f);
      case NVL => LogicOp(TERNARY, res, t, f);
    }
  }
}
