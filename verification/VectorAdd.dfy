/** Addition into a third vector, which copies the rest of the longer operand as
    soon as the shorter one has run out without a carry. */
module VectorAdd {
  import opened Logic
  import opened Numbers
  import opened Native
  import opened Arithmetic
  import opened Vector

  /** Widths for which the copies stay inside both arrays. */
  predicate AddSafe(l: seq<Bit>, r: seq<Bit>, n: nat) {
    && (|l| == |r| || n <= Min(|l|, |r|) || n >= Max(|l|, |r|))
    && (|r| < |l| && n > |l| + 1 && AllKnown(l) && AllKnown(r) ==> Sum(l, r, |l|).carry == 0)
  }

  /** What the loop leaves, given the bits written so far. */
  function After(done: seq<Bit>, t: Tail): Tail {
    if t.Met? then Met else Rest(done + t.bits)
  }

  lemma AfterGlue(done: seq<Bit>, x: Bit, t: Tail)
    ensures After(done, After([x], t)) == After(done + [x], t)
  {
    if t.Rest? { Glue(done, x, t.bits); }
  }

  lemma AddCases(o: seq<Bit>, l: seq<Bit>, r: seq<Bit>, i: nat, c: nat)
    requires i < |o| && c <= 1
    ensures AddFrom(o, l, r, i, c) ==
      if i >= |r| && c == 0 then Rest(Copied(o, l, r, i))
      else if i < |r| && !Known(r[i]) then Met
      else if i >= |l| && c == 0 then Rest(Copied(o, r, l, i))
      else if i < |l| && !Known(l[i]) then Met
      else
        var s := Carry(B(At(l, i)), B(At(r, i)), c);
        After([s.0], AddFrom(o, l, r, i + 1, s.1))
  {
  }

  /** How far the loop has come: everything read was known, and the carry is
      that of the sum. */
  predicate Adding(l: seq<Bit>, r: seq<Bit>, i: nat, c: nat) {
    && KnownBelow(l, i) && KnownBelow(r, i) && c == Sum(l, r, i).carry
    && (|r| < |l| && i > |l| ==> Sum(l, r, |l|).carry == 1)
  }

  lemma AddingStep(l: seq<Bit>, r: seq<Bit>, i: nat, c: nat)
    requires Adding(l, r, i, c) && Known(At(l, i)) && Known(At(r, i)) && (i >= |r| ==> c == 1)
    ensures Adding(l, r, i + 1, Carry(B(At(l, i)), B(At(r, i)), c).1)
  {
    hide Carry;
  }

  /** The loop never gets past a longer first operand by more than one bit. */
  lemma CopyInside(l: seq<Bit>, r: seq<Bit>, n: nat, i: nat)
    requires AddSafe(l, r, n) && Adding(l, r, i, 0) && |r| <= i < n && |r| < |l|
    ensures i <= |l| <= n
  {
    hide Sum;
  }

  lemma CopiedAgree(o: seq<Bit>, p: seq<Bit>, l: seq<Bit>, r: seq<Bit>, i: nat)
    requires i <= |o| == |p| && o[i..] == p[i..] && (|l| > |r| ==> i <= |l| <= |o|)
    ensures Copied(o, l, r, i) == Copied(p, l, r, i)
  {
    if |l| > |r| {
      assert o[|l|..] == o[i..][|l| - i..] && p[|l|..] == p[i..][|l| - i..];
    }
  }

  /** Copy the rest of `long` from position `i`, or fill with zeros. The result
      still holds `o` from `i` on. */
  method FinishAdd(res: BitVector, long: BitVector, short: BitVector, i: nat, ghost o: seq<Bit>)
    requires res.Valid() && long.Valid() && short.Valid()
    requires res.begin == 0 && long.begin == 0 && short.begin == 0 && res.bits != long.bits && res.bits != short.bits
    requires i < res.stop && (long.stop > short.stop ==> i <= long.stop <= res.stop)
    requires |o| == res.stop && forall k | i <= k < res.stop :: res.bits[k] == o[k]
    modifies res.bits
    ensures res.Value() == old(res.bits[..i]) + Copied(o, long.Value(), short.Value(), i)
  {
    ghost var p, done := res.bits[..res.stop], res.bits[..i];
    if long.stop > short.stop {
      forall k | i <= k < long.stop { res.bits[k] := long.bits[k]; }
    } else {
      forall k | i <= k < res.stop { res.bits[k] := LO; }
    }
    assert p[i..] == o[i..];
    CopiedAgree(p, o, long.Value(), short.Value(), i);
    assert res.bits[i..res.stop] == Copied(p, long.Value(), short.Value(), i);
    assert res.bits[..i] == done;
    assert res.bits[..res.stop] == res.bits[..i] + res.bits[i..res.stop];
  }

  method SpoilAll(res: BitVector)
    requires res.Valid() && res.begin == 0
    modifies res.bits
    ensures res.Value() == DCs(res.stop)
  {
    res.Spoil(0);
    assert [] + DCs(res.stop) == DCs(res.stop);
  }

  lemma AddDone(o: seq<Bit>, l: seq<Bit>, r: seq<Bit>, c: nat)
    requires c <= 1
    ensures AddFrom(o, l, r, |o|, c) == Rest([])
  {
  }

  lemma StartAdding(l: seq<Bit>, r: seq<Bit>)
    ensures Adding(l, r, 0, 0)
  {
  }

  method AddLoop(res: BitVector, l: BitVector, r: BitVector, ghost o: seq<Bit>)
    requires res.Valid() && l.Valid() && r.Valid() && res.begin == 0 && l.begin == 0 && r.begin == 0
    requires res.bits != l.bits && res.bits != r.bits
    requires AddSafe(l.Value(), r.Value(), res.stop) && o == res.Value()
    modifies res.bits
    ensures res.Value() == AddOut(o, l.Value(), r.Value())
  {
    hide AddFrom, Carry, AddSafe, Adding, Copied, Sum;
    ghost var a, b := l.Value(), r.Value();
    StartAdding(a, b);
    var carry: nat := 0;
    var i := 0;
    while i < res.stop
      invariant 0 <= i <= res.stop && carry <= 1 && Adding(a, b, i, carry)
      invariant l.Value() == a && r.Value() == b && (forall k | i <= k < res.stop :: res.bits[k] == o[k])
      invariant AddFrom(o, a, b, 0, 0) == After(res.bits[..i], AddFrom(o, a, b, i, carry))
    {
      AddCases(o, a, b, i, carry);
      if i >= r.stop && carry == 0 {
        if l.stop > r.stop { CopyInside(a, b, res.stop, i); }
        FinishAdd(res, l, r, i, o);
        return;
      }
      var y := if i >= r.stop then LO else r.bits[i];
      assert y == At(b, i);
      if !Known(y) {
        SpoilAll(res);
        return;
      }
      if i >= l.stop && carry == 0 {
        SafeWidths(a, b, res.stop, i);
        FinishAdd(res, r, l, i, o);
        return;
      }
      var x := if i >= l.stop then LO else l.bits[i];
      assert x == At(a, i);
      if !Known(x) {
        SpoilAll(res);
        return;
      }
      AddingStep(a, b, i, carry);
      CarryIs(B(x), B(y), carry);
      var pad := carry + B(x) + B(y);
      ghost var done := res.bits[..i];
      res.bits[i] := Digit(pad);
      carry := pad / 2;
      i := i + 1;
      assert res.bits[..i] == done + [Digit(pad)];
      AfterGlue(done, Digit(pad), AddFrom(o, a, b, i, carry));
    }
    AddDone(o, a, b, carry);
  }

  method BinaryAdd(res: BitVector, l: BitVector, r: BitVector)
    requires res.Valid() && l.Valid() && r.Valid() && res.begin == 0 && l.begin == 0 && r.begin == 0
    requires res.bits != l.bits && res.bits != r.bits && res != l && res != r
    requires AddSafe(l.Value(), r.Value(), res.stop)
    modifies res`sign, res.bits
    ensures res.Value() == AddOut(old(res.Value()), l.Value(), r.Value())
    ensures res.sign == JoinedSign(old(res.sign), l.sign, r.sign)
  {
    hide AddFrom, Carry, AddSafe, Adding, Copied, Sum;
    ghost var o, a, b := res.Value(), l.Value(), r.Value();
    StartAdding(a, b);
    AddLoop(res, l, r, o);
    if res.sign == Unset {
      res.sign := if l.sign == Signed || r.sign == Signed then Signed else Unsigned;
    }
  }

  lemma SafeWidths(l: seq<Bit>, r: seq<Bit>, n: nat, i: nat)
    requires AddSafe(l, r, n) && |l| <= i < n && i < |r|
    ensures |r| <= n
  {
  }
}
