/** What single characters mean in texts of base 2, 8 and 16, told from the bits:
    digits of either case, letters for unknown bits, and what fills up a text that
    is shorter than the vector. */
module Letters {
  import opened Wrappers
  import opened Logic
  import opened Numbers
  import opened Arithmetic
  import opened Radix

  const LOWER := "0123456789abcdef"
  const UPPER := "0123456789ABCDEF"

  // ----- printing -----

  lemma LowerDigits(v: nat)
    requires v < 16
    ensures DigitChar(v) == LOWER[v] && DigitValue(LOWER[v]) == v == DigitValue(UPPER[v])
  {
  }

  lemma {:induction false} CodeUnknown(g: seq<Bit>)
    ensures AllKnown(g) || Code(g) >= 100
  {
    if g != [] { CodeUnknown(g[..|g| - 1]); }
  }

  /** A digit whose bits are all known is printed as their number; one with an
      unknown bit is an `x`, save a single Z in base 2. */
  lemma DigitPrinted(g: seq<Bit>, k: nat)
    requires 0 < |g| <= k <= 4 && forall i | 0 <= i < |g| :: g[i] != NVL
    ensures AllKnown(g) ==> Val(g) < 16 && Letter(k, Code(g)) == LOWER[Val(g)]
    ensures !AllKnown(g) ==> Letter(k, Code(g)) == if k == 1 && g == [Z] then 'z' else 'x'
  {
    hide Val, Pow2, DigitChar;
    if AllKnown(g) {
      DigitNumber(g, k);
      LowerDigits(Val(g));
    } else {
      CodeUnknown(g);
      if k == 1 { CodeOne(g); }
    }
  }

  lemma CodeOne(g: seq<Bit>)
    requires |g| == 1
    ensures Code(g) == Weight(g[0], 0)
  {
    assert g[..0] == [];
  }

  /** The bits of digit `j`, counted from the right. */
  function Group(s: seq<Bit>, k: nat, j: nat): seq<Bit>
    requires j * k < |s|
  {
    s[j * k..Min(j * k + k, |s|)]
  }

  lemma GroupTail(s: seq<Bit>, k: nat, j: nat)
    requires k > 0 && j > 0 && j * k < |s|
    ensures k < |s| && (j - 1) * k < |s| - k && Group(s[k..], k, j - 1) == Group(s, k, j)
  {
    Times(j, k);
    SliceTail(s, k, (j - 1) * k, j * k);
  }

  lemma SliceTail(s: seq<Bit>, k: nat, a: nat, b: nat)
    requires b == k + a < |s|
    ensures s[k..][a..Min(a + k, |s[k..]|)] == s[b..Min(b + k, |s|)]
  {
  }

  lemma GroupFirst(s: seq<Bit>, k: nat)
    requires s != []
    ensures Group(s, k, 0) == s[..Min(k, |s|)]
  {
    assert 0 * k == 0;
  }

  lemma PrintedLast(s: seq<Bit>, k: nat)
    requires k > 0 && s != []
    ensures Printed(s, k) == Printed(s[Min(k, |s|)..], k) + [Letter(k, Code(s[..Min(k, |s|)]))]
  {
    hide Letter, Code;
    if |s| <= k { assert s[..|s|] == s && Printed(s[|s|..], k) == ""; }
  }

  /** Each character is the letter of its own bits. */
  lemma {:induction false} PrintedAt(s: seq<Bit>, k: nat, j: nat)
    requires k > 0 && j * k < |s|
    ensures var t := Printed(s, k); j < |t| && t[|t| - 1 - j] == Letter(k, Code(Group(s, k, j)))
    decreases j
  {
    hide Letter, Code, Printed, Group;
    assert s != [] by { assert j * k >= 0; }
    PrintedLast(s, k);
    if j > 0 {
      GroupTail(s, k, j);
      PrintedAt(s[k..], k, j - 1);
    } else {
      GroupFirst(s, k);
    }
  }

  // ----- reading one character -----

  lemma FirstChar(c: char, k: nat, w: nat)
    requires 0 < k <= 4 && c != '_' && CharBits(c, k).Some?
    ensures var m := Min(k, w); Parsed([c], 1, k, w) == CharBits(c, k).value[..m] + Rep(PadBit([c]), w - m)
  {
    hide CharBits, PadBit;
    if w > 0 {
      var m := Min(k, w);
      if w == m { assert Rep(PadBit([c]), 0) == []; }
      assert Parsed([c], 0, k, w - m) == Rep(PadBit([c]), w - m);
    } else {
      assert CharBits(c, k).value[..0] + Rep(PadBit([c]), 0) == [];
    }
  }

  /** A single `x` makes a vector of any width unknown, a `z` or a `?` makes it
      high-impedance. */
  lemma UnknownText(c: char, k: nat, w: nat)
    requires k in {1, 3, 4}
    ensures c in "xX" ==> Parsed([c], 1, k, w) == Rep(DC, w)
    ensures c in "?zZ" ==> Parsed([c], 1, k, w) == Rep(Z, w)
  {
    hide Parsed;
    if c in "xX" {
      UnknownBits(c, k);
      FirstChar(c, k, w);
      assert DCs(k)[..Min(k, w)] + Rep(DC, w - Min(k, w)) == Rep(DC, w);
    } else if c in "?zZ" {
      UnknownBits(c, k);
      FirstChar(c, k, w);
      assert Rep(Z, k)[..Min(k, w)] + Rep(Z, w - Min(k, w)) == Rep(Z, w);
    }
  }

  lemma UnknownBits(c: char, k: nat)
    requires k in {1, 3, 4} && c in "xX?zZ"
    ensures c in "xX" ==> CharBits(c, k) == Some(DCs(k)) && PadBit([c]) == DC
    ensures c in "?zZ" ==> CharBits(c, k) == Some(Rep(Z, k)) && PadBit([c]) == Z
  {
    SmallPowers();
  }

  /** The empty text is zero. */
  lemma EmptyText(k: nat, w: nat)
    requires k in {1, 3, 4}
    ensures Parsed("", 0, k, w) == Rep(LO, w)
  {
    if w == 0 { assert Rep(LO, 0) == []; }
  }

  /** A single digit, in either case, reads as its number. */
  lemma DigitText(c: char, v: nat, k: nat, w: nat)
    requires k in {1, 3, 4} && v < Pow2(k) && v < 16 && (c == LOWER[v] || c == UPPER[v])
    ensures AllKnown(Parsed([c], 1, k, w)) && Val(Parsed([c], 1, k, w)) == v % Pow2(w)
  {
    hide Val, Pow2, Parsed, Bits, Pad;
    DigitBits(c, v, k);
    FirstChar(c, k, w);
    var g := Bits(v, k);
    var t := g[..Min(k, w)] + Rep(LO, w - Min(k, w));
    assert t == Pad(g, w);
    PadModulo(g, w);
    BitsVal(v, k);
    Modulo(0, Pow2(k), v);
  }

  lemma DigitBits(c: char, v: nat, k: nat)
    requires k in {1, 3, 4} && v < Pow2(k) && v < 16 && (c == LOWER[v] || c == UPPER[v])
    ensures c != '_' && CharBits(c, k) == Some(Bits(v, k)) && PadBit([c]) == LO
  {
    hide Pow2, Bits;
    LowerDigits(v);
  }

  /** Any other character ends the conversion: the bits stay unset. */
  lemma OtherText(c: char, k: nat, w: nat)
    requires k in {1, 3, 4} && c !in "xX?zZ_" && forall v | 0 <= v < Pow2(k) && v < 16 :: c != LOWER[v] && c != UPPER[v]
    ensures Parsed([c], 1, k, w) == Rep(NVL, w)
  {
    hide Bits, Pow2;
    OtherValue(c);
    var v := DigitValue(c);
    assert v >= Pow2(k) || v >= 16;
    assert CharBits(c, k).None?;
    if w == 0 { assert Rep(NVL, 0) == []; }
  }

  lemma OtherValue(c: char)
    ensures var v := DigitValue(c); v < 16 ==> c == LOWER[v] || c == UPPER[v]
  {
  }

  /** An underscore behind the first character changes nothing. */
  lemma {:induction false} UnderscoreIgnored(t: string, u: string, k: nat, w: nat)
    requires k in {1, 3, 4} && t != ""
    ensures Parsed(t + "_" + u, |t| + 1 + |u|, k, w) == Parsed(t + u, |t| + |u|, k, w)
    decreases |u|
  {
    hide CharBits, PadBit, Parsed;
    if u == "" {
      assert t + "_" + u == t + ['_'] && t + u == t;
      LastChar(t, '_', k, w);
      ParsedEmpty(t, |t|, k);
    } else {
      var v, c := u[..|u| - 1], u[|u| - 1];
      assert t + "_" + u == (t + "_" + v) + [c] && t + u == (t + v) + [c];
      LastChar(t + "_" + v, c, k, w);
      LastChar(t + v, c, k, w);
      UnderscoreIgnored(t, v, k, w);
      UnderscoreIgnored(t, v, k, if w == 0 then 0 else w - Min(k, w));
    }
  }

  lemma LastChar(t: string, c: char, k: nat, w: nat)
    requires 0 < k <= 4 && t != ""
    ensures Parsed(t + [c], |t| + 1, k, w) ==
      if w == 0 then []
      else if c == '_' then Parsed(t, |t|, k, w)
      else
        match CharBits(c, k)
        case None => Rep(NVL, w)
        case Some(g) => g[..Min(k, w)] + Parsed(t, |t|, k, w - Min(k, w))
  {
    hide CharBits, PadBit;
    assert (t + [c])[|t|] == c;
    ParsedPrefix(t, [c], |t|, k, w);
    if w > 0 { ParsedPrefix(t, [c], |t|, k, w - Min(k, w)); }
  }

  // ----- reading what was printed, in a wider vector -----

  /** What fills up behind the top bit of a printed vector. */
  function Filling(b: Bit): Bit { if b == DC || b == Z then b else LO }

  lemma {:induction false} BinaryFirst(s: seq<Bit>)
    requires s != [] && forall i | 0 <= i < |s| :: s[i] != NVL
    ensures Printed(s, 1) != "" && PadBit(Printed(s, 1)) == Filling(s[|s| - 1])
    decreases |s|
  {
    hide Letter, Code, PadBit;
    if |s| == 1 {
      BitPrinted(s[0]);
      assert s == [s[0]];
    } else {
      BinaryFirst(s[1..]);
      PadFirst(Printed(s[1..], 1), [Letter(1, Code(s[..1]))]);
    }
  }

  lemma PadFirst(t: string, u: string)
    requires t != ""
    ensures PadBit(t + u) == PadBit(t)
  {
    assert (t + u)[0] == t[0];
  }

  lemma BitPrinted(b: Bit)
    requires b != NVL
    ensures var c := Letter(1, Code([b])); CharBits(c, 1) == Some([b]) && c != '_' && PadBit([c]) == Filling(b)
  {
    hide Letter, Code, CharBits, PadBit;
    BitRoundTrip(b);
    if Known(b) {
      DigitRoundTrip([b], 1);
    } else {
      DigitPrinted([b], 1);
      UnknownBits(Letter(1, Code([b])), 1);
      assert !AllKnown([b]) by { assert ![b][0].LO? && ![b][0].HI?; }
    }
  }

  /** In base 2, what a vector without unused bits prints reads back in a wider
      vector as its bits, filled up with its top bit if that is unknown, and with
      zeros otherwise. */
  lemma {:induction false} PrintedFills(s: seq<Bit>, e: nat)
    requires s != [] && forall i | 0 <= i < |s| :: s[i] != NVL
    ensures Parsed(Printed(s, 1), |Printed(s, 1)|, 1, |s| + e) == s + Rep(Filling(s[|s| - 1]), e)
    decreases |s|
  {
    hide Letter, Code, CharBits, PadBit, Parsed;
    var c := Letter(1, Code(s[..1]));
    assert s[..1] == [s[0]];
    BitPrinted(s[0]);
    if |s| == 1 {
      assert s == [s[0]];
      FirstChar(c, 1, 1 + e);
    } else {
      var u := s[1..];
      PrintedFills(u, e);
      BinaryFirst(u);
      LastChar(Printed(u, 1), c, 1, |s| + e);
      assert [s[0]] + (u + Rep(Filling(s[|s| - 1]), e)) == s + Rep(Filling(s[|s| - 1]), e);
    }
  }
}
