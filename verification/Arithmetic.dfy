/** What the bit-serial operations compute, as functions of bit sequences, and
    what that means for the numbers. */
module Arithmetic {
  import opened Logic
  import opened Numbers

  /** The bits so far and the carry (or borrow) into the next position. */
  datatype Ripple = Ripple(out: seq<Bit>, carry: nat)

  function DCs(n: nat): (s: seq<Bit>)
    ensures |s| == n && forall i | 0 <= i < n :: s[i] == DC
  {
    Rep(DC, n)
  }

  // ----- subtraction -----

  /** One step of the borrow chain, in two's complement of two bits. */
  function Borrow(a: nat, b: nat, c: nat): (r: (Bit, nat))
    requires a <= 1 && b <= 1 && c <= 1
    ensures Known(r.0) && r.1 <= 1 && B(r.0) + b + c == a + 2 * r.1
  {
    var pad := (a + 4 - b - c) % 4;
    (Digit(pad), pad / 2)
  }

  function Difference(l: seq<Bit>, r: seq<Bit>, n: nat): (p: Ripple)
    ensures |p.out| == n && p.carry <= 1 && AllKnown(p.out)
  {
    if n == 0 then Ripple([], 0)
    else
      var p := Difference(l, r, n - 1);
      var s := Borrow(B(At(l, n - 1)), B(At(r, n - 1)), p.carry);
      Ripple(p.out + [s.0], s.1)
  }

  lemma {:induction false} DifferenceVal(l: seq<Bit>, r: seq<Bit>, n: nat)
    ensures var p := Difference(l, r, n);
      Val(p.out) + Val(Pad(r, n)) == Val(Pad(l, n)) + p.carry * Pow2(n)
  {
    if n > 0 {
      DifferenceVal(l, r, n - 1);
      var p := Difference(l, r, n - 1);
      var s := Borrow(B(At(l, n - 1)), B(At(r, n - 1)), p.carry);
      Snoc(p.out, s.0);
      PadSnoc(l, n - 1);
      PadSnoc(r, n - 1);
      BorrowStep(B(s.0), B(At(l, n - 1)), B(At(r, n - 1)), p.carry, s.1, Pow2(n - 1));
    }
  }

  lemma BorrowStep(d: nat, a: nat, b: nat, c: nat, e: nat, p: nat)
    requires d + b + c == a + 2 * e
    ensures d * p + b * p + c * p == a * p + e * (2 * p)
  {
    assert (d + b + c) * p == (a + 2 * e) * p;
  }

  lemma ModuloSub(x: int, l: int, r: int, c: int, p: nat)
    requires 0 <= x < p && x + r % p == l % p + c * p
    ensures (l - r) % p == x
  {
    var a, b := l / p, r / p;
    assert l == p * a + l % p && r == p * b + r % p;
    Collect(p, a, b, c);
    ModuloInt(x, l - r, p, a - b - c);
  }

  lemma ModuloAdd(x: int, l: int, r: int, c: int, p: nat)
    requires 0 <= x < p && x + c * p == l % p + r % p
    ensures (l + r) % p == x
  {
    var a, b := l / p, r / p;
    assert l == p * a + l % p && r == p * b + r % p;
    assert p * a + p * b + c * p == p * (a + b + c);
    ModuloInt(x, l + r, p, a + b + c);
  }

  lemma DifferenceMod(l: seq<Bit>, r: seq<Bit>, n: nat)
    ensures Val(Difference(l, r, n).out) == (Val(l) - Val(r)) % Pow2(n)
  {
    hide Val, Pow2, Pad, Difference;
    var p := Difference(l, r, n);
    DifferenceVal(l, r, n);
    Bound(p.out);
    PadModulo(l, n);
    PadModulo(r, n);
    ModuloSub(Val(p.out), Val(l), Val(r), p.carry, Pow2(n));
  }

  lemma Collect(m: int, a: int, b: int, c: int)
    ensures m * a - m * b - c * m == m * (a - b - c)
  {
  }

  // ----- addition -----

  /** One step of the carry chain. */
  function Carry(a: nat, b: nat, c: nat): (r: (Bit, nat))
    requires a <= 1 && b <= 1 && c <= 1
    ensures Known(r.0) && r.1 <= 1 && B(r.0) + 2 * r.1 == a + b + c
  {
    var pad := c + a + b;
    (Digit(pad), pad / 2)
  }

  function Sum(l: seq<Bit>, r: seq<Bit>, n: nat): (p: Ripple)
    ensures |p.out| == n && p.carry <= 1 && AllKnown(p.out)
  {
    if n == 0 then Ripple([], 0)
    else
      var p := Sum(l, r, n - 1);
      var s := Carry(B(At(l, n - 1)), B(At(r, n - 1)), p.carry);
      Ripple(p.out + [s.0], s.1)
  }

  lemma {:induction false} SumVal(l: seq<Bit>, r: seq<Bit>, n: nat)
    ensures var p := Sum(l, r, n);
      Val(p.out) + p.carry * Pow2(n) == Val(Pad(l, n)) + Val(Pad(r, n))
  {
    if n > 0 {
      SumVal(l, r, n - 1);
      var p := Sum(l, r, n - 1);
      var s := Carry(B(At(l, n - 1)), B(At(r, n - 1)), p.carry);
      Snoc(p.out, s.0);
      PadSnoc(l, n - 1);
      PadSnoc(r, n - 1);
      CarryStep(B(s.0), B(At(l, n - 1)), B(At(r, n - 1)), p.carry, s.1, Pow2(n - 1));
    }
  }

  lemma CarryStep(d: nat, a: nat, b: nat, c: nat, e: nat, p: nat)
    requires d + 2 * e == a + b + c
    ensures d * p + e * (2 * p) == a * p + b * p + c * p
  {
    assert (d + 2 * e) * p == (a + b + c) * p;
  }

  lemma SumMod(l: seq<Bit>, r: seq<Bit>, n: nat)
    ensures Val(Sum(l, r, n).out) == (Val(l) + Val(r)) % Pow2(n)
  {
    hide Val, Pow2, Pad, Sum;
    var p := Sum(l, r, n);
    SumVal(l, r, n);
    Bound(p.out);
    PadModulo(l, n);
    PadModulo(r, n);
    ModuloAdd(Val(p.out), Val(l), Val(r), p.carry, Pow2(n));
  }

  // ----- how the addition loop ends -----

  /** `Met`: an unknown bit was reached before one operand ran out without a
      carry. */
  datatype Tail = Met | Rest(bits: seq<Bit>)

  /** Once the shorter operand has run out and nothing is carried, the rest of
      the longer one is copied; result bits beyond it keep what they held. Equal
      widths are filled with zeros. */
  function Copied(o: seq<Bit>, l: seq<Bit>, r: seq<Bit>, i: nat): (t: seq<Bit>)
    requires i <= |o|
    ensures |t| == |o| - i
  {
    if |l| > |r| then (if i <= |l| <= |o| then l[i..] + o[|l|..] else o[i..])
    else Rep(LO, |o| - i)
  }

  /** The addition loop from position `i` on, over a result that held `o`. */
  function AddFrom(o: seq<Bit>, l: seq<Bit>, r: seq<Bit>, i: nat, c: nat): (t: Tail)
    requires i <= |o| && c <= 1
    ensures t.Rest? ==> |t.bits| == |o| - i
    decreases |o| - i
  {
    if i == |o| then Rest([])
    else if i >= |r| && c == 0 then Rest(Copied(o, l, r, i))
    else if i < |r| && !Known(r[i]) then Met
    else if i >= |l| && c == 0 then Rest(Copied(o, r, l, i))
    else if i < |l| && !Known(l[i]) then Met
    else
      var s := Carry(B(At(l, i)), B(At(r, i)), c);
      var t := AddFrom(o, l, r, i + 1, s.1);
      if t.Met? then Met else Rest([s.0] + t.bits)
  }

  function AddOut(o: seq<Bit>, l: seq<Bit>, r: seq<Bit>): (t: seq<Bit>)
    ensures |t| == |o|
  {
    match AddFrom(o, l, r, 0, 0)
    case Met => DCs(|o|)
    case Rest(bits) => bits
  }

  /** Widths for which the loop adds exactly. */
  predicate AddFits(l: seq<Bit>, r: seq<Bit>, n: nat) {
    |l| == |r| || n <= Min(|l|, |r|) || n == Max(|l|, |r|)
  }

  /** A result wider than two operands of different widths, whose sum does not
      carry out of the wider one. */
  predicate AddStale(l: seq<Bit>, r: seq<Bit>, n: nat) {
    |l| != |r| && n > Max(|l|, |r|) && AllKnown(l) && AllKnown(r) && Val(l) + Val(r) < Pow2(Max(|l|, |r|))
  }

  lemma SumCommutes(l: seq<Bit>, r: seq<Bit>, n: nat)
    ensures Sum(l, r, n) == Sum(r, l, n)
  {
  }

  /** Past the end of `r` and without a carry, the sum is the rest of `l`. */
  lemma {:induction false} SumTail(l: seq<Bit>, r: seq<Bit>, i: nat, n: nat)
    requires |r| <= i <= n && Sum(l, r, i).carry == 0 && AllKnown(l)
    ensures Sum(l, r, n) == Ripple(Sum(l, r, i).out + Pad(l, n)[i..], 0)
    decreases n
  {
    hide Pad, Carry, B;
    if n > i {
      SumTail(l, r, i, n - 1);
      CarryZero(At(l, n - 1));
      PadTail(l, n - 1, i);
    } else {
      assert Pad(l, n)[i..] == [];
    }
  }

  lemma CarryZero(b: Bit)
    requires Known(b)
    ensures Carry(B(b), B(LO), 0) == (b, 0)
  {
  }

  lemma PadTail(l: seq<Bit>, n: nat, i: nat)
    requires i <= n
    ensures Pad(l, n + 1)[i..] == Pad(l, n)[i..] + [At(l, n)]
  {
  }

  /** Stopping at the end of `r` leaves the rest of the sum. */
  lemma StopLeft(o: seq<Bit>, l: seq<Bit>, r: seq<Bit>, i: nat)
    requires AllKnown(l) && AddFits(l, r, |o|) && |r| <= i < |o| && Sum(l, r, i).carry == 0
    ensures AddFrom(o, l, r, i, 0) == Rest(Pad(l, |o|)[i..])
    ensures Sum(l, r, |o|).out == Sum(l, r, i).out + Pad(l, |o|)[i..]
  {
    hide Sum;
    SumTail(l, r, i, |o|);
    assert Pad(l, |o|)[i..] == Copied(o, l, r, i);
  }

  lemma StopRight(o: seq<Bit>, l: seq<Bit>, r: seq<Bit>, i: nat)
    requires AllKnown(l) && AllKnown(r) && AddFits(l, r, |o|) && |l| <= i < |o| && i < |r| && Sum(l, r, i).carry == 0
    ensures AddFrom(o, l, r, i, 0) == Rest(Pad(r, |o|)[i..])
    ensures Sum(l, r, |o|).out == Sum(l, r, i).out + Pad(r, |o|)[i..]
  {
    hide Sum;
    SumCommutes(l, r, i);
    SumCommutes(l, r, |o|);
    SumTail(r, l, i, |o|);
    assert Pad(r, |o|)[i..] == Copied(o, r, l, i);
  }

  lemma {:induction false} AddFromSum(o: seq<Bit>, l: seq<Bit>, r: seq<Bit>, i: nat)
    requires AllKnown(l) && AllKnown(r) && AddFits(l, r, |o|) && i <= |o|
    ensures var t := AddFrom(o, l, r, i, Sum(l, r, i).carry);
      t.Rest? && Sum(l, r, |o|).out == Sum(l, r, i).out + t.bits
    decreases |o| - i
  {
    hide Sum, Carry, AddFits, Copied, Pad;
    var p := Sum(l, r, i);
    if i == |o| {
    } else if i >= |r| && p.carry == 0 {
      StopLeft(o, l, r, i);
    } else if i >= |l| && p.carry == 0 {
      StopRight(o, l, r, i);
    } else {
      SumStep(l, r, i, |o|);
      AddFromSum(o, l, r, i + 1);
      var s := Carry(B(At(l, i)), B(At(r, i)), p.carry);
      Glue(p.out, s.0, AddFrom(o, l, r, i + 1, s.1).bits);
    }
  }

  /** On known operands of fitting widths, addition is exact modulo the width of
      the result. */
  lemma AddExact(o: seq<Bit>, l: seq<Bit>, r: seq<Bit>)
    requires AllKnown(l) && AllKnown(r) && AddFits(l, r, |o|)
    ensures AllKnown(AddOut(o, l, r)) && Val(AddOut(o, l, r)) == (Val(l) + Val(r)) % Pow2(|o|)
  {
    AddFromSum(o, l, r, 0);
    assert Sum(l, r, 0).out == [];
    assert [] + AddFrom(o, l, r, 0, 0).bits == AddFrom(o, l, r, 0, 0).bits;
    SumMod(l, r, |o|);
  }

  // ----- results wider than operands of different widths -----

  /** The carry runs through all bits by which `r` is longer than `l`, so that
      the loop ends by filling with zeros. */
  predicate CarryRunsOut(l: seq<Bit>, r: seq<Bit>) {
    |l| < |r| && Sum(l, r, |r| - 1).carry == 1
  }

  /** What the bits beyond both operands become. */
  function Beyond(o: seq<Bit>, l: seq<Bit>, r: seq<Bit>): seq<Bit>
    requires Max(|l|, |r|) <= |o|
  {
    if CarryRunsOut(l, r) then Rep(LO, |o| - |r|) else o[Max(|l|, |r|)..]
  }

  /** Where the loop stands at position `i`: it has not stopped before. */
  predicate StillAdding(l: seq<Bit>, r: seq<Bit>, i: nat) {
    i <= Max(|l|, |r|) && (|l| < |r| && i > |l| ==> Sum(l, r, i - 1).carry == 1)
  }

  function StaleFrom(o: seq<Bit>, l: seq<Bit>, r: seq<Bit>, i: nat): seq<Bit>
    requires i <= Max(|l|, |r|) <= |o|
  {
    Sum(l, r, Max(|l|, |r|)).out[i..] + Beyond(o, l, r)
  }

  lemma DropAll(s: seq<Bit>, t: seq<Bit>)
    ensures s[|s|..] + t == t
  {
    assert s[|s|..] == [];
  }

  lemma StaleAll(o: seq<Bit>, l: seq<Bit>, r: seq<Bit>, m: nat)
    requires m == Max(|l|, |r|) <= |o|
    ensures StaleFrom(o, l, r, m) == Beyond(o, l, r)
  {
    hide Sum, Beyond, Max;
    DropAll(Sum(l, r, m).out, Beyond(o, l, r));
  }

  lemma StaleEndRight(o: seq<Bit>, l: seq<Bit>, r: seq<Bit>)
    requires |l| < |r| < |o| && Sum(l, r, |r|).carry == 0 && CarryRunsOut(l, r)
    ensures AddFrom(o, l, r, |r|, 0) == Rest(StaleFrom(o, l, r, |r|))
  {
    hide Sum, AddFrom, StaleFrom;
    StopsAt(o, l, r, |r|);
    StaleAll(o, l, r, |r|);
  }

  lemma StopsAt(o: seq<Bit>, l: seq<Bit>, r: seq<Bit>, i: nat)
    requires |r| <= i < |o|
    ensures AddFrom(o, l, r, i, 0) == Rest(Copied(o, l, r, i))
  {
  }

  lemma StaleLeft(o: seq<Bit>, l: seq<Bit>, r: seq<Bit>, i: nat)
    requires |r| <= i <= |l| && |r| < |l| < |o| && AllKnown(l) && Sum(l, r, i).carry == 0
    ensures AddFrom(o, l, r, i, 0) == Rest(StaleFrom(o, l, r, i))
  {
    hide Sum, AddFrom;
    StopsAt(o, l, r, i);
    SumTail(l, r, i, |l|);
    assert Sum(l, r, |l|).out[i..] == Pad(l, |l|)[i..] == l[i..];
  }

  lemma StaleRight(o: seq<Bit>, l: seq<Bit>, r: seq<Bit>, i: nat)
    requires |l| <= i < |r| < |o| && AllKnown(r) && Sum(l, r, i).carry == 0
    ensures AddFrom(o, l, r, i, 0) == Rest(StaleFrom(o, l, r, i))
  {
    hide Sum, AddFrom;
    StopsAtRight(o, l, r, i);
    TailRight(l, r, i);
  }

  lemma TailRight(l: seq<Bit>, r: seq<Bit>, i: nat)
    requires |l| <= i < |r| && AllKnown(r) && Sum(l, r, i).carry == 0
    ensures Sum(l, r, |r|).out[i..] == r[i..] && Sum(l, r, |r| - 1).carry == 0
  {
    hide Sum;
    SumCommutes(l, r, i);
    SumTail(r, l, i, |r|);
    SumTail(r, l, i, |r| - 1);
    SumCommutes(l, r, |r|);
    SumCommutes(l, r, |r| - 1);
    assert Pad(r, |r|)[i..] == r[i..];
  }

  lemma StopsAtRight(o: seq<Bit>, l: seq<Bit>, r: seq<Bit>, i: nat)
    requires |l| <= i < |r| && i < |o| && Known(r[i])
    ensures AddFrom(o, l, r, i, 0) == Rest(Copied(o, r, l, i))
  {
  }

  lemma StaleStep(o: seq<Bit>, l: seq<Bit>, r: seq<Bit>, i: nat)
    requires i < Max(|l|, |r|) <= |o|
    ensures StaleFrom(o, l, r, i) == [Carry(B(At(l, i)), B(At(r, i)), Sum(l, r, i).carry).0] + StaleFrom(o, l, r, i + 1)
  {
    hide Sum, Carry, Beyond, B, At;
    var m := Max(|l|, |r|);
    SumStep(l, r, i, m);
    Regrouped([Carry(B(At(l, i)), B(At(r, i)), Sum(l, r, i).carry).0], Sum(l, r, m).out[i + 1..], Beyond(o, l, r));
  }

  lemma Regrouped(a: seq<Bit>, b: seq<Bit>, c: seq<Bit>)
    ensures (a + b) + c == a + (b + c)
  {
  }

  lemma {:induction false} AddFromStale(o: seq<Bit>, l: seq<Bit>, r: seq<Bit>, i: nat)
    requires |l| != |r| && |o| > Max(|l|, |r|) && AllKnown(l) && AllKnown(r)
    requires Sum(l, r, Max(|l|, |r|)).carry == 0 && StillAdding(l, r, i)
    ensures AddFrom(o, l, r, i, Sum(l, r, i).carry) == Rest(StaleFrom(o, l, r, i))
    decreases |o| - i
  {
    hide Sum, Carry, StaleFrom, Copied, B, Beyond;
    var m := Max(|l|, |r|);
    var p := Sum(l, r, i);
    if |l| > |r| && i >= |r| && p.carry == 0 {
      StaleLeft(o, l, r, i);
    } else if i == m {
      StaleEndRight(o, l, r);
    } else if i >= |l| && p.carry == 0 {
      StaleRight(o, l, r, i);
    } else {
      SumStep(l, r, i, m);
      AddFromStale(o, l, r, i + 1);
      StaleStep(o, l, r, i);
    }
  }

  lemma SumStep(l: seq<Bit>, r: seq<Bit>, i: nat, n: nat)
    requires i < n
    ensures var s := Carry(B(At(l, i)), B(At(r, i)), Sum(l, r, i).carry);
      Sum(l, r, i + 1) == Ripple(Sum(l, r, i).out + [s.0], s.1) &&
      Sum(l, r, n).out[i..] == [s.0] + Sum(l, r, n).out[i + 1..]
  {
    hide Carry;
    SumPrefix(l, r, i + 1, n);
    var s := Carry(B(At(l, i)), B(At(r, i)), Sum(l, r, i).carry);
    assert Sum(l, r, n).out[i] == Sum(l, r, n).out[..i + 1][i] == s.0;
  }

  lemma NoCarryOut(l: seq<Bit>, r: seq<Bit>, n: nat)
    requires AddStale(l, r, n)
    ensures var p := Sum(l, r, Max(|l|, |r|)); p.carry == 0 && Val(p.out) == Val(l) + Val(r)
  {
    hide Sum, Val, Pow2, Pad;
    var m := Max(|l|, |r|);
    SumVal(l, r, m);
    PadVal(l, m);
    PadVal(r, m);
    var p := Sum(l, r, m);
    assert p.carry == 1 ==> p.carry * Pow2(m) == Pow2(m);
  }

  lemma {:induction false} SumPrefix(l: seq<Bit>, r: seq<Bit>, i: nat, n: nat)
    requires i <= n
    ensures Sum(l, r, n).out[..i] == Sum(l, r, i).out
    decreases n
  {
    if i < n {
      SumPrefix(l, r, i, n - 1);
      assert Sum(l, r, n).out[..i] == Sum(l, r, n - 1).out[..i];
    }
  }

  /** The bits beyond both operands in the result are zeros afterwards: the
      carry ran out through the second operand, or they were zeros before. */
  predicate CleanBeyond(o: seq<Bit>, l: seq<Bit>, r: seq<Bit>) {
    CarryRunsOut(l, r) || forall i | Max(|l|, |r|) <= i < |o| :: o[i] == LO
  }

  /** The result bits are known and make up the sum. */
  predicate SumReported(o: seq<Bit>, l: seq<Bit>, r: seq<Bit>) {
    AllKnown(AddOut(o, l, r)) && Val(AddOut(o, l, r)) == Val(l) + Val(r)
  }

  /** Outside the fitting widths the sum is right exactly when the bits beyond
      both operands were 0 before, or the carry happens to run out through the
      second operand: those bits are never written otherwise. */
  lemma AddStaleExact(o: seq<Bit>, l: seq<Bit>, r: seq<Bit>)
    requires AddStale(l, r, |o|)
    ensures SumReported(o, l, r) <==> CleanBeyond(o, l, r)
  {
    hide Sum, CarryRunsOut, Val, Pow2, AddFrom, AddOut, AddStale, Beyond, AllKnown;
    var m := Max(|l|, |r|);
    var s := Sum(l, r, m).out;
    assert m <= |o| by { StaleWide(l, r, |o|); }
    var t := Beyond(o, l, r);
    AddStaleOut(o, l, r);
    NoCarryOut(l, r, |o|);
    Concat(s, t);
    KnownJoin(s, t);
    KnownZero(t);
    ScaledZero(Pow2(m), Val(t));
    BeyondZeros(o, l, r);
  }

  lemma KnownJoin(s: seq<Bit>, t: seq<Bit>)
    ensures AllKnown(s + t) <==> AllKnown(s) && AllKnown(t)
  {
    var u := s + t;
    if AllKnown(u) {
      forall i | 0 <= i < |s| ensures Known(s[i]) { assert u[i] == s[i]; }
      forall i | 0 <= i < |t| ensures Known(t[i]) { assert u[|s| + i] == t[i]; }
    }
  }

  lemma KnownZero(t: seq<Bit>)
    ensures AllKnown(t) && Val(t) == 0 <==> forall i | 0 <= i < |t| :: t[i] == LO
  {
    hide Val;
    ValZero(t);
  }

  /** In a result that still has its initial unknown bits, as on the first
      evaluation of an expression, the sum of operands of different widths comes
      out right only when the carry runs out through the second one. */
  lemma AddFreshExact(l: seq<Bit>, r: seq<Bit>, n: nat)
    requires AddStale(l, r, n)
    ensures SumReported(DCs(n), l, r) <==> CarryRunsOut(l, r)
    ensures !CarryRunsOut(l, r) ==> AddOut(DCs(n), l, r)[n - 1] == DC
  {
    hide Sum, CarryRunsOut, AddFrom, AddOut, SumReported, Val, Pow2;
    AddStaleExact(DCs(n), l, r);
    StaleWide(l, r, n);
    assert DCs(n)[n - 1] == DC;
    AddStaleOut(DCs(n), l, r);
  }

  lemma StaleWide(l: seq<Bit>, r: seq<Bit>, n: nat)
    requires AddStale(l, r, n)
    ensures Max(|l|, |r|) < n
  {
  }

  lemma BeyondZeros(o: seq<Bit>, l: seq<Bit>, r: seq<Bit>)
    requires Max(|l|, |r|) <= |o|
    ensures var t := Beyond(o, l, r); (forall i | 0 <= i < |t| :: t[i] == LO) <==> CleanBeyond(o, l, r)
  {
    hide CarryRunsOut;
    var m := Max(|l|, |r|);
    var t := Beyond(o, l, r);
    if !CarryRunsOut(l, r) {
      forall i | m <= i < |o| ensures o[i] == t[i - m] {}
    }
  }

  lemma AddStaleOut(o: seq<Bit>, l: seq<Bit>, r: seq<Bit>)
    requires AddStale(l, r, |o|)
    ensures AddOut(o, l, r) == Sum(l, r, Max(|l|, |r|)).out + Beyond(o, l, r)
  {
    hide CarryRunsOut, Val, Pow2, AddFrom, Sum;
    SumZero(l, r);
    NoCarryOut(l, r, |o|);
    AddFromStale(o, l, r, 0);
    var s := Sum(l, r, Max(|l|, |r|)).out;
    assert s[0..] == s;
  }

  lemma SumZero(l: seq<Bit>, r: seq<Bit>)
    ensures Sum(l, r, 0) == Ripple([], 0)
  {
  }

  lemma ScaledZero(p: nat, v: nat)
    requires p > 0
    ensures p * v == 0 <==> v == 0
  {
  }

  // ----- sums that carry out of the wider operand -----

  /** The sum does not fit the wider operand, and the result has room for it:
      one more bit, or any number when `r` is the wider one. */
  predicate CarriesOut(l: seq<Bit>, r: seq<Bit>, n: nat) {
    var m := Max(|l|, |r|);
    |l| != |r| && m < n && Sum(l, r, m).carry == 1 && (|l| < |r| || n == m + 1)
  }

  lemma NoEarlyStop(l: seq<Bit>, r: seq<Bit>, i: nat)
    requires AllKnown(l) && AllKnown(r) && Min(|l|, |r|) <= i <= Max(|l|, |r|)
    requires Sum(l, r, Max(|l|, |r|)).carry == 1 && |l| != |r|
    ensures Sum(l, r, i).carry == 1
  {
    hide Sum;
    if Sum(l, r, i).carry == 0 {
      if |r| < |l| {
        SumTail(l, r, i, |l|);
      } else {
        SumCommutes(l, r, i);
        SumCommutes(l, r, |r|);
        SumTail(r, l, i, |r|);
      }
      assert false;
    }
  }

  /** Beyond both operands only zeros follow once the carry is gone. */
  lemma ZeroTail(o: seq<Bit>, l: seq<Bit>, r: seq<Bit>, i: nat)
    requires |l| < |r| <= i < |o| && Sum(l, r, i).carry == 0 && AllKnown(l)
    ensures AddFrom(o, l, r, i, 0) == Rest(Rep(LO, |o| - i))
    ensures Sum(l, r, |o|).out == Sum(l, r, i).out + Rep(LO, |o| - i)
  {
    hide Sum;
    StopsAt(o, l, r, i);
    SumTail(l, r, i, |o|);
    assert Pad(l, |o|)[i..] == Rep(LO, |o| - i);
  }

  lemma {:induction false} AddFromCarry(o: seq<Bit>, l: seq<Bit>, r: seq<Bit>, i: nat)
    requires AllKnown(l) && AllKnown(r) && CarriesOut(l, r, |o|) && i <= |o|
    ensures var t := AddFrom(o, l, r, i, Sum(l, r, i).carry);
      t.Rest? && Sum(l, r, |o|).out == Sum(l, r, i).out + t.bits
    decreases |o| - i
  {
    hide Sum, Carry;
    var p := Sum(l, r, i);
    if i == |o| {
    } else if Max(|l|, |r|) < i && p.carry == 0 {
      ZeroTail(o, l, r, i);
    } else {
      if Min(|l|, |r|) <= i <= Max(|l|, |r|) { NoEarlyStop(l, r, i); }
      SumStep(l, r, i, |o|);
      AddFromCarry(o, l, r, i + 1);
      var s := Carry(B(At(l, i)), B(At(r, i)), p.carry);
      Glue(p.out, s.0, AddFrom(o, l, r, i + 1, s.1).bits);
    }
  }

  lemma AddCarriedExact(o: seq<Bit>, l: seq<Bit>, r: seq<Bit>)
    requires AllKnown(l) && AllKnown(r) && CarriesOut(l, r, |o|)
    ensures AllKnown(AddOut(o, l, r)) && Val(AddOut(o, l, r)) == (Val(l) + Val(r)) % Pow2(|o|)
  {
    hide Sum, CarriesOut, Val, Pow2, AddFrom;
    AddFromCarry(o, l, r, 0);
    SumZero(l, r);
    assert [] + AddFrom(o, l, r, 0, 0).bits == AddFrom(o, l, r, 0, 0).bits;
    SumMod(l, r, |o|);
  }

  // ----- subtraction into a third vector; negation -----

  /** All unknown exactly when an operand bit the result needs is unknown. */
  function SubOut(l: seq<Bit>, r: seq<Bit>, n: nat): (t: seq<Bit>)
    ensures |t| == n
  {
    if KnownBelow(l, n) && KnownBelow(r, n) then Difference(l, r, n).out else DCs(n)
  }

  lemma SubExact(l: seq<Bit>, r: seq<Bit>, n: nat)
    ensures KnownBelow(l, n) && KnownBelow(r, n) ==>
      AllKnown(SubOut(l, r, n)) && Val(SubOut(l, r, n)) == (Val(l) - Val(r)) % Pow2(n)
    ensures n > 0 ==> (SubOut(l, r, n) == DCs(n) <==> !KnownBelow(l, n) || !KnownBelow(r, n))
  {
    hide Val, Pow2, Difference;
    if KnownBelow(l, n) && KnownBelow(r, n) {
      DifferenceMod(l, r, n);
      if n > 0 {
        assert Known(SubOut(l, r, n)[0]);
        assert DCs(n)[0] == DC;
      }
    }
  }

  // ----- the in-place operations -----

  /** The bits from position `i` on after adding `b` to `a` in place. */
  function AddIntoFrom(a: seq<Bit>, b: seq<Bit>, i: nat, c: nat): (t: seq<Bit>)
    requires i <= |a| && c <= 1
    ensures |t| == |a| - i
    decreases |a| - i
  {
    if i == |a| then []
    else if i >= |b| && c == 0 then a[i..]
    else if i < |b| && !Known(b[i]) then DCs(|a| - i)
    else if !Known(a[i]) then DCs(|a| - i)
    else
      var s := Carry(B(a[i]), B(At(b, i)), c);
      [s.0] + AddIntoFrom(a, b, i + 1, s.1)
  }

  function AddInto(a: seq<Bit>, b: seq<Bit>): (t: seq<Bit>)
    ensures |t| == |a|
  {
    AddIntoFrom(a, b, 0, 0)
  }

  /** The bits from position `i` on after subtracting `b` from `a` in place. */
  function SubIntoFrom(a: seq<Bit>, b: seq<Bit>, i: nat, c: nat): (t: seq<Bit>)
    requires i <= |a| && c <= 1
    ensures |t| == |a| - i
    decreases |a| - i
  {
    if i == |a| then []
    else if i < |b| && !Known(b[i]) then DCs(|a| - i)
    else if !Known(a[i]) then DCs(|a| - i)
    else
      var s := Borrow(B(a[i]), B(At(b, i)), c);
      [s.0] + SubIntoFrom(a, b, i + 1, s.1)
  }

  function SubInto(a: seq<Bit>, b: seq<Bit>): (t: seq<Bit>)
    ensures |t| == |a|
  {
    SubIntoFrom(a, b, 0, 0)
  }

  lemma {:induction false} AddIntoSum(a: seq<Bit>, b: seq<Bit>, i: nat)
    requires AllKnown(a) && KnownBelow(b, |a|) && i <= |a|
    ensures Sum(a, b, |a|).out == Sum(a, b, i).out + AddIntoFrom(a, b, i, Sum(a, b, i).carry)
    decreases |a| - i
  {
    hide Sum, Carry;
    var p := Sum(a, b, i);
    if i == |a| {
    } else if i >= |b| && p.carry == 0 {
      SumTail(a, b, i, |a|);
      assert Pad(a, |a|) == a;
    } else {
      SumStep(a, b, i, |a|);
      AddIntoSum(a, b, i + 1);
      var s := Carry(B(At(a, i)), B(At(b, i)), p.carry);
      Glue(p.out, s.0, AddIntoFrom(a, b, i + 1, s.1));
    }
  }

  /** In-place addition is exact modulo the width. */
  lemma AddIntoExact(a: seq<Bit>, b: seq<Bit>)
    requires AllKnown(a) && KnownBelow(b, |a|)
    ensures AllKnown(AddInto(a, b)) && Val(AddInto(a, b)) == (Val(a) + Val(b)) % Pow2(|a|)
  {
    hide Sum, Val, Pow2, AddIntoFrom;
    AddIntoSum(a, b, 0);
    SumZero(a, b);
    assert [] + AddInto(a, b) == AddInto(a, b);
    SumMod(a, b, |a|);
  }

  lemma DifferenceStep(l: seq<Bit>, r: seq<Bit>, i: nat)
    ensures var s := Borrow(B(At(l, i)), B(At(r, i)), Difference(l, r, i).carry);
      Difference(l, r, i + 1) == Ripple(Difference(l, r, i).out + [s.0], s.1)
  {
  }

  lemma {:induction false} SubIntoDifference(a: seq<Bit>, b: seq<Bit>, i: nat)
    requires AllKnown(a) && KnownBelow(b, |a|) && i <= |a|
    ensures Difference(a, b, |a|).out == Difference(a, b, i).out + SubIntoFrom(a, b, i, Difference(a, b, i).carry)
    decreases |a| - i
  {
    hide Difference, Borrow;
    if i < |a| {
      DifferenceStep(a, b, i);
      SubIntoDifference(a, b, i + 1);
    }
  }

  /** In-place subtraction is exact modulo the width. */
  lemma SubIntoExact(a: seq<Bit>, b: seq<Bit>)
    requires AllKnown(a) && KnownBelow(b, |a|)
    ensures AllKnown(SubInto(a, b)) && Val(SubInto(a, b)) == (Val(a) - Val(b)) % Pow2(|a|)
  {
    hide Difference, Val, Pow2, SubIntoFrom;
    SubIntoDifference(a, b, 0);
    DifferenceZero(a, b);
    assert [] + SubInto(a, b) == SubInto(a, b);
    DifferenceMod(a, b, |a|);
  }

  lemma DifferenceZero(l: seq<Bit>, r: seq<Bit>)
    ensures Difference(l, r, 0) == Ripple([], 0)
  {
  }

  /** Bitwise inversion into a vector of `n` bits; bits beyond the operand are
      the inverse of 0. */
  function Inverted(s: seq<Bit>, n: nat): (t: seq<Bit>)
    ensures |t| == n
  {
    seq(n, i requires 0 <= i < n => Inv(At(s, i)))
  }

  function Negated(s: seq<Bit>, n: nat): (t: seq<Bit>)
    ensures |t| == n
  {
    AddInto(Inverted(s, n), [HI])
  }

  lemma InvertedSnoc(s: seq<Bit>, n: nat)
    requires Known(At(s, n))
    ensures Val(Inverted(s, n + 1)) + B(At(s, n)) * Pow2(n) == Val(Inverted(s, n)) + Pow2(n)
  {
    hide Val, Pow2;
    assert Inverted(s, n + 1) == Inverted(s, n) + [Inv(At(s, n))];
    Snoc(Inverted(s, n), Inv(At(s, n)));
  }

  lemma {:induction false} InvertedVal(s: seq<Bit>, n: nat)
    requires KnownBelow(s, n)
    ensures Val(Inverted(s, n)) + Val(Pad(s, n)) == Pow2(n) - 1
  {
    hide Val, Inverted, Pad;
    if n == 0 {
      assert Val(Inverted(s, 0)) == 0 by { ValZero(Inverted(s, 0)); }
      assert Val(Pad(s, 0)) == 0 by { ValZero(Pad(s, 0)); }
    } else {
      InvertedVal(s, n - 1);
      PadSnoc(s, n - 1);
      InvertedSnoc(s, n - 1);
    }
  }

  /** Negation is exact modulo the width. */
  lemma NegatedExact(s: seq<Bit>, n: nat)
    requires KnownBelow(s, n)
    ensures AllKnown(Negated(s, n)) && Val(Negated(s, n)) == (0 - Val(s)) % Pow2(n)
  {
    hide Val, Pow2, AddInto, Pad;
    InvertedVal(s, n);
    AddIntoExact(Inverted(s, n), [HI]);
    Single(HI);
    PadModulo(s, n);
    NegateModulo(Val(s), Pow2(n));
  }

  lemma NegateModulo(x: nat, p: nat)
    requires p > 0
    ensures (p - 1 - x % p + 1) % p == (0 - x) % p
  {
    var d, m := x / p, x % p;
    assert x == p * d + m;
    if m == 0 {
      ModuloInt(0, p - m, p, 1);
      ModuloInt(0, 0 - x, p, 0 - d);
    } else {
      ModuloInt(p - m, p - m, p, 0);
      assert p * (-d - 1) == -(p * d) - p;
      ModuloInt(p - m, 0 - x, p, 0 - d - 1);
    }
  }
}
