/** The comparison loops and the conversion to a machine word. */
module VectorCompare {
  import opened Logic
  import opened Numbers
  import opened Native
  import opened Compare
  import opened Vector

  /** Look at both operands from the top for an unknown bit. */
  method AnyUnknown(l: BitVector, r: BitVector) returns (found: bool)
    requires l.Valid() && r.Valid() && l.begin == 0 && r.begin == 0
    ensures found <==> !(AllKnown(l.Value()) && AllKnown(r.Value()))
  {
    var li: int, ri: int := l.stop - 1, r.stop - 1;
    while li >= 0 || ri >= 0
      invariant -1 <= li < l.stop && -1 <= ri < r.stop
      invariant forall k | li < k < l.stop :: Known(l.bits[k])
      invariant forall k | ri < k < r.stop :: Known(r.bits[k])
      decreases li + ri + 2
    {
      if li >= 0 {
        if !Known(l.bits[li]) {
          assert !Known(l.Value()[li]);
          return true;
        }
        li := li - 1;
      }
      if ri >= 0 {
        if !Known(r.bits[ri]) {
          assert !Known(r.Value()[ri]);
          return true;
        }
        ri := ri - 1;
      }
    }
    return false;
  }

  /** The scan from the top, over the longer operand first. */
  method ScanDown(l: BitVector, r: BitVector) returns (res: Bit)
    requires l.Valid() && r.Valid() && l.begin == 0 && r.begin == 0
    ensures res == Scan(l.Value(), r.Value(), Max(l.stop, r.stop))
  {
    ghost var a, b, n := l.Value(), r.Value(), Max(l.stop, r.stop);
    if l.stop <= r.stop {
      var i := r.stop;
      while i > l.stop
        invariant l.stop <= i <= r.stop && l.Value() == a && r.Value() == b
        invariant Scan(a, b, n) == Scan(a, b, i)
      {
        i := i - 1;
        assert r.bits[i] == b[i];
        var c := Les(LO, r.bits[i]);
        if c != Z { return c; }
      }
      res := ScanBoth(l, r, i);
    } else {
      var i := l.stop;
      while i > r.stop
        invariant r.stop <= i <= l.stop && l.Value() == a && r.Value() == b
        invariant Scan(a, b, n) == Scan(a, b, i)
      {
        i := i - 1;
        assert l.bits[i] == a[i];
        var c := Les(l.bits[i], LO);
        if c != Z { return c; }
      }
      res := ScanBoth(l, r, i);
    }
  }

  method ScanBoth(l: BitVector, r: BitVector, n: nat) returns (res: Bit)
    requires l.Valid() && r.Valid() && l.begin == 0 && r.begin == 0 && n <= l.stop && n <= r.stop
    ensures res == Scan(l.Value(), r.Value(), n)
  {
    ghost var a, b := l.Value(), r.Value();
    var i := n;
    while i > 0
      invariant 0 <= i <= n && l.Value() == a && r.Value() == b
      invariant Scan(a, b, n) == Scan(a, b, i)
    {
      i := i - 1;
      assert l.bits[i] == a[i] && r.bits[i] == b[i];
      var c := Les(l.bits[i], r.bits[i]);
      if c != Z { return c; }
    }
    return LO;
  }

  method LessThan(l: BitVector, r: BitVector) returns (res: Bit)
    requires l.Valid() && r.Valid() && l.begin == 0 && r.begin == 0
    ensures res == Less(l.Value(), l.sign, r.Value(), r.sign)
  {
    hide Scan, AllKnown;
    assert l.Value()[l.stop - 1] == l.bits[l.stop - 1] && r.Value()[r.stop - 1] == r.bits[r.stop - 1];
    if l.sign == Signed && l.bits[l.stop - 1] == HI {
      if r.sign == Unsigned || (r.sign == Signed && r.bits[r.stop - 1] == LO) {
        var lost := AnyUnknown(l, r);
        return if lost then DC else HI;
      }
    } else if r.sign == Signed && r.bits[r.stop - 1] == HI {
      if l.sign == Unsigned || (l.sign == Signed && l.bits[l.stop - 1] == LO) {
        var lost := AnyUnknown(l, r);
        return if lost then DC else LO;
      }
    }
    res := ScanDown(l, r);
  }

  method EqualTo(l: BitVector, r: BitVector) returns (res: Bit)
    requires l.Valid() && r.Valid() && l.begin == 0 && r.begin == 0
    ensures res == Equal(l.Value(), l.sign, r.Value(), r.sign)
  {
    var h := LO;
    assert l.Value()[l.stop - 1] == l.bits[l.stop - 1] && r.Value()[r.stop - 1] == r.bits[r.stop - 1];
    if l.stop < r.stop && l.sign == Signed {
      h := l.bits[l.stop - 1];
    } else if r.stop < l.stop && r.sign == Signed {
      h := r.bits[r.stop - 1];
    }
    res := CompareUp(l, r, h);
  }

  /** The scan from the bottom, over the common bits first. */
  method CompareUp(l: BitVector, r: BitVector, h: Bit) returns (res: Bit)
    requires l.Valid() && r.Valid() && l.begin == 0 && r.begin == 0
    ensures var n := Max(l.stop, r.stop); res == SameFrom(Extend(l.Value(), h, n), Extend(r.Value(), h, n), 0)
  {
    ghost var n := Max(l.stop, r.stop);
    ghost var a, b := Extend(l.Value(), h, n), Extend(r.Value(), h, n);
    var i := 0;
    while i < l.stop && i < r.stop
      invariant 0 <= i <= l.stop && i <= r.stop
      invariant SameFrom(a, b, 0) == SameFrom(a, b, i)
    {
      assert a[i] == l.bits[i] && b[i] == r.bits[i];
      var c := Equ(l.bits[i], r.bits[i]);
      if c != HI { return c; }
      i := i + 1;
    }
    if l.stop <= r.stop {
      while i < r.stop
        invariant l.stop <= i <= r.stop && SameFrom(a, b, 0) == SameFrom(a, b, i)
      {
        assert a[i] == h && b[i] == r.bits[i];
        var c := Equ(h, r.bits[i]);
        if c != HI { return c; }
        i := i + 1;
      }
    } else {
      while i < l.stop
        invariant r.stop <= i <= l.stop && SameFrom(a, b, 0) == SameFrom(a, b, i)
      {
        assert a[i] == l.bits[i] && b[i] == h;
        var c := Equ(l.bits[i], h);
        if c != HI { return c; }
        i := i + 1;
      }
    }
    return HI;
  }

  /** Convert the low `n` bits to a word; a failure with value 0 is an unknown
      bit, one with the largest value a number that does not fit. */
  method ToDecimal(bv: BitVector, n: nat) returns (w: Word)
    requires bv.Valid() && bv.begin == 0 && 0 < n <= WORD
    ensures w == ToWord(bv.Value(), bv.sign, n)
  {
    hide Val, Pow2, Pad;
    ghost var s := bv.Value();
    var size := bv.stop;
    var extend := n > size && bv.sign == Signed && bv.bits[size - 1] == HI;
    assert s[size - 1] == bv.bits[size - 1];
    var last := if n > size then size else n;
    var value, weight := 0, 1;
    ValZero(Pad(s, 0));
    assert Pow2(0) == 1 by { PowZero(); }
    var j := 0;
    while j < last
      invariant 0 <= j <= last && bv.Value() == s
      invariant KnownBelow(s, j) && value == Val(Pad(s, j)) && weight == Pow2(j)
    {
      assert bv.bits[j] == s[j];
      PadSnoc(s, j);
      PowPos(j + 1);
      if bv.bits[j] == HI { value := value + weight; }
      if !Known(bv.bits[j]) { return Word(0, true); }
      j := j + 1;
      weight := 2 * weight;
    }
    var top := bv.bits[size - 1];
    while j < size
      invariant last <= j <= size && bv.Value() == s
      invariant forall k | n <= k < j :: s[k] == top
    {
      assert bv.bits[j] == s[j];
      if bv.bits[j] != top { return Word(Pow2(WORD) - 1, true); }
      j := j + 1;
    }
    if extend {
      PadVal(s, size);
      var t := Pow2(size - 1);
      ExtendWord(s);
      value := (value - t - t) % Pow2(WORD);
    } else if n > size {
      PadVal(s, size);
      PadVal(s, n);
    }
    return Word(value, false);
  }

  /** Clearing the top bit and subtracting its weight is sign extension. */
  lemma ExtendWord(s: seq<Bit>)
    requires s != [] && s[|s| - 1] == HI && |s| <= WORD
    ensures var t: int := Pow2(|s| - 1);
      (Val(s) - t - t) % Pow2(WORD) == Val(s) + Pow2(WORD) - Pow2(|s|)
  {
    hide Val, Pow2;
    TopBit(s);
    PowMono(|s|, WORD);
    PowPos(|s|);
    var x := Val(s) + Pow2(WORD) - Pow2(|s|);
    ModuloInt(x, x - Pow2(WORD), Pow2(WORD), -1);
  }
}
