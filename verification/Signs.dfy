/** What the sign given to the result of an addition or a subtraction means. */
module Signs {
  import opened Logic
  import opened Numbers
  import opened Native
  import opened Arithmetic
  import opened Compare
  import opened Vector

  /** The integers a vector of `n` bits can hold. */
  predicate Holds(x: int, signed: bool, n: nat)
    requires n > 0
  {
    if signed then 0 <= x + Pow2(n - 1) && x < Pow2(n - 1) else 0 <= x < Pow2(n)
  }

  /** A known vector that is right modulo its width stands for the integer itself
      if its sign lets it hold that. */
  lemma Held(s: seq<Bit>, sign: Sign, x: int)
    requires s != [] && AllKnown(s) && Ordinary(sign) && Val(s) == x % Pow2(|s|)
    requires Holds(x, sign == Signed, |s|)
    ensures Integer(s, sign) == x
  {
    hide Val, Pow2;
    var n := |s|;
    TopBit(s);
    PowPos(n);
    if x >= 0 { Modulo(0, Pow2(n), x); } else { Wrap(x, x + Pow2(n), Pow2(n)); }
  }

  lemma {:induction false} IntegerModulo(s: seq<Bit>, sign: Sign, n: nat)
    requires s != [] && AllKnown(s) && (n <= |s| || !Negative(s, sign))
    ensures Integer(s, sign) % Pow2(n) == Val(s) % Pow2(n)
  {
    hide Val, Pow2;
    if Negative(s, sign) { PowShift(Val(s), |s|, n); }
  }

  lemma SumModulo(a: int, b: int, x: int, y: int, p: nat)
    requires p > 0 && a % p == x % p && b % p == y % p
    ensures (a + b) % p == (x + y) % p && (a - b) % p == (x - y) % p
  {
    var k := Quotients(a, x, p);
    var l := Quotients(b, y, p);
    Gather(p, k, l);
    Shifted(a + b, x + y, k + l, p);
    Shifted(a - b, x - y, k - l, p);
  }

  lemma Shifted(a: int, x: int, k: int, p: nat)
    requires p > 0 && a == x + p * k
    ensures a % p == x % p
  {
    ModuloShift(a, k, p);
  }

  lemma Gather(p: nat, k: int, l: int)
    ensures p * (k + l) == p * k + p * l && p * (k - l) == p * k - p * l
  {
  }

  /** Numbers with the same remainder differ by a multiple. */
  lemma Quotients(a: int, x: int, p: nat) returns (k: int)
    requires p > 0 && a % p == x % p
    ensures a == x + p * k
  {
    k := a / p - x / p;
    Gather(p, a / p, x / p);
  }

  /** Operands of which no bit that the result needs is missing: they are as wide
      as the result, or not negative. */
  predicate Wide(s: seq<Bit>, sign: Sign, n: nat)
    requires s != []
  {
    n <= |s| || !Negative(s, sign)
  }

  /** A result without a sign becomes signed if an operand is, and then stands for
      the sum of the integers wherever a signed vector of its width can hold it;
      unsigned operands give the sum where it fits without a sign. A result that
      has a sign keeps it. */
  lemma SumOfIntegers(o: seq<Bit>, was: Sign, l: seq<Bit>, ls: Sign, r: seq<Bit>, rs: Sign)
    requires o != [] && l != [] && r != [] && AllKnown(l) && AllKnown(r) && Ordinary(ls) && Ordinary(rs)
    requires AddFits(l, r, |o|) && Wide(l, ls, |o|) && Wide(r, rs, |o|)
    ensures var x, t := Integer(l, ls) + Integer(r, rs), AddOut(o, l, r);
      var signed := if was == Unset then ls == Signed || rs == Signed else was == Signed;
      Holds(x, signed, |o|) ==> Integer(t, JoinedSign(was, ls, rs)) == x
  {
    hide Val, Pow2, AddOut, AddFits, Holds;
    var x, t, p := Integer(l, ls) + Integer(r, rs), AddOut(o, l, r), Pow2(|o|);
    AddExact(o, l, r);
    IntegerModulo(l, ls, |o|);
    IntegerModulo(r, rs, |o|);
    SumModulo(Integer(l, ls), Integer(r, rs), Val(l), Val(r), p);
    var sign := JoinedSign(was, ls, rs);
    if Holds(x, sign == Signed, |o|) { Held(t, sign, x); }
  }

  /** The same for the difference. */
  lemma DifferenceOfIntegers(was: Sign, l: seq<Bit>, ls: Sign, r: seq<Bit>, rs: Sign, n: nat)
    requires n > 0 && l != [] && r != [] && AllKnown(l) && AllKnown(r) && Ordinary(ls) && Ordinary(rs)
    requires Wide(l, ls, n) && Wide(r, rs, n)
    ensures var x, t := Integer(l, ls) - Integer(r, rs), SubOut(l, r, n);
      var signed := if was == Unset then ls == Signed || rs == Signed else was == Signed;
      Holds(x, signed, n) ==> Integer(t, JoinedSign(was, ls, rs)) == x
  {
    hide Val, Pow2, SubOut, Holds;
    var x, t, p := Integer(l, ls) - Integer(r, rs), SubOut(l, r, n), Pow2(n);
    SubExact(l, r, n);
    IntegerModulo(l, ls, n);
    IntegerModulo(r, rs, n);
    SumModulo(Integer(l, ls), Integer(r, rs), Val(l), Val(r), p);
    var sign := JoinedSign(was, ls, rs);
    if Holds(x, sign == Signed, n) { Held(t, sign, x); }
  }
}
