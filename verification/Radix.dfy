/** Printing vectors in bases 2, 8, 10 and 16 and reading them back. */
module Radix {
  import opened Wrappers
  import opened Logic
  import opened Numbers
  import opened Native
  import opened Arithmetic
  import opened Vector

  // ----- bases 2, 8 and 16 -----

  /** What a bit at position `p` of a digit adds to the digit's code. */
  function Weight(b: Bit, p: nat): nat {
    match b
    case LO => 0
    case HI => Pow2(p)
    case DC => 100
    case Z => 1000
    case NVL => 10000
  }

  function Code(g: seq<Bit>): nat {
    if g == [] then 0 else Code(g[..|g| - 1]) + Weight(g[|g| - 1], |g| - 1)
  }

  function DigitChar(v: nat): char
    requires v < 16
  {
    if v < 10 then '0' + v as char else 'a' + (v - 10) as char
  }

  function Letter(k: nat, code: nat): char {
    if code < 16 then DigitChar(code) else if k == 1 && code >= 1000 then 'z' else 'x'
  }

  /** The digits of `k` bits each, most significant first; the top digit may
      have fewer bits. */
  function Printed(s: seq<Bit>, k: nat): (t: string)
    requires k > 0
    decreases |s|
  {
    if s == [] then ""
    else if |s| <= k then [Letter(k, Code(s))]
    else Printed(s[k..], k) + [Letter(k, Code(s[..k]))]
  }

  function DigitValue(c: char): nat {
    if '0' <= c <= '9' then (c - '0') as nat
    else if 'a' <= c <= 'f' then 10 + (c - 'a') as nat
    else if 'A' <= c <= 'F' then 10 + (c - 'A') as nat
    else 16
  }

  /** The bits of a digit; None for characters that end the conversion. */
  function CharBits(c: char, k: nat): (g: Option<seq<Bit>>)
    requires k <= 4
    ensures g.Some? ==> |g.value| == k
  {
    if DigitValue(c) < Pow2(k) && DigitValue(c) < 16 then Some(Bits(DigitValue(c), k))
    else if c == 'x' || c == 'X' then Some(DCs(k))
    else if c == '?' || c == 'z' || c == 'Z' then Some(Rep(Z, k))
    else None
  }

  /** What the bits above the first digit become. */
  function PadBit(t: string): Bit {
    if t == "" then LO
    else if t[0] == 'x' || t[0] == 'X' then DC
    else if t[0] == '?' || t[0] == 'z' || t[0] == 'Z' then Z
    else LO
  }

  /** The lowest `w` bits read from the first `n` characters. After a character
      that is no digit, the rest stays unset. */
  function Parsed(t: string, n: nat, k: nat, w: nat): (s: seq<Bit>)
    requires n <= |t| && 0 < k <= 4
    ensures |s| == w
    decreases n
  {
    if w == 0 then []
    else if n == 0 then Rep(PadBit(t), w)
    else if t[n - 1] == '_' then Parsed(t, n - 1, k, w)
    else
      match CharBits(t[n - 1], k)
      case None => Rep(NVL, w)
      case Some(g) => g[..Min(k, w)] + Parsed(t, n - 1, k, w - Min(k, w))
  }

  // ----- the round trip -----

  lemma {:induction false} CodeVal(g: seq<Bit>)
    requires AllKnown(g)
    ensures Code(g) == Val(g)
  {
    if g != [] {
      assert Known(g[|g| - 1]);
      CodeVal(g[..|g| - 1]);
    }
  }

  lemma DigitBack(v: nat)
    requires v < 16
    ensures DigitValue(DigitChar(v)) == v && DigitChar(v) != '_' && PadBit([DigitChar(v)]) == LO
  {
  }

  lemma SmallPowers()
    ensures Pow2(0) == 1 && Pow2(1) == 2 && Pow2(3) == 8 && Pow2(4) == 16
  {
    assert Pow2(1) == 2 * Pow2(0);
    assert Pow2(2) == 2 * Pow2(1);
    assert Pow2(3) == 2 * Pow2(2);
  }

  /** The number of a digit of known bits. */
  lemma DigitNumber(g: seq<Bit>, k: nat)
    requires 0 < |g| <= k <= 4 && AllKnown(g)
    ensures Code(g) == Val(g) < Pow2(k) <= 16
  {
    hide Val, Pow2, Code;
    CodeVal(g);
    Bound(g);
    PowMono(|g|, k);
    PowMono(k, 4);
    SmallPowers();
  }

  lemma NumberBits(g: seq<Bit>, k: nat)
    requires 0 < |g| <= k && AllKnown(g) && Val(g) < Pow2(k)
    ensures Bits(Val(g), k) == Pad(g, k)
  {
    hide Val, Pow2, Bits, Pad;
    BitsVal(Val(g), k);
    PadVal(g, k);
    Modulo(0, Pow2(k), Val(g));
    PadKnown(g, k);
    Unique(Bits(Val(g), k), Pad(g, k));
  }

  /** A digit of known bits reads back as those bits, extended with 0. */
  lemma DigitRoundTrip(g: seq<Bit>, k: nat)
    requires 0 < |g| <= k <= 4 && AllKnown(g)
    ensures var c := Letter(k, Code(g)); CharBits(c, k) == Some(Pad(g, k)) && c != '_' && PadBit([c]) == LO
  {
    hide Val, Pow2, Code, Bits, Pad, DigitChar, DigitValue, PadBit;
    DigitNumber(g, k);
    DigitBack(Code(g));
    NumberBits(g, k);
  }

  lemma PadKnown(g: seq<Bit>, k: nat)
    requires AllKnown(g)
    ensures AllKnown(Pad(g, k))
  {
  }

  /** Reading looks only at the characters it is given, and at the first one. */
  lemma {:induction false} ParsedPrefix(t: string, u: string, n: nat, k: nat, w: nat)
    requires n <= |t| && 0 < k <= 4 && t != ""
    ensures Parsed(t + u, n, k, w) == Parsed(t, n, k, w)
    decreases n
  {
    hide CharBits;
    if n > 0 {
      assert (t + u)[n - 1] == t[n - 1];
      ParsedPrefix(t, u, n - 1, k, w);
      if w > 0 { ParsedPrefix(t, u, n - 1, k, w - Min(k, w)); }
    } else {
      assert (t + u)[0] == t[0];
    }
  }

  lemma ParsedLast(t: string, c: char, k: nat, w: nat)
    requires 0 < k <= 4 && w > 0 && c != '_' && CharBits(c, k).Some? && (t == "" ==> w <= k)
    ensures Parsed(t + [c], |t| + 1, k, w) == CharBits(c, k).value[..Min(k, w)] + Parsed(t, |t|, k, w - Min(k, w))
  {
    hide CharBits;
    if t != "" { ParsedPrefix(t, [c], |t|, k, w - Min(k, w)); }
  }

  lemma {:induction false} PrintedFirst(s: seq<Bit>, k: nat)
    requires s != [] && AllKnown(s) && 0 < k <= 4
    ensures Printed(s, k) != "" && PadBit(Printed(s, k)) == LO
    decreases |s|
  {
    hide Letter, Code;
    if |s| <= k {
      DigitRoundTrip(s, k);
    } else {
      PrintedFirst(s[k..], k);
    }
  }

  /** Printing a known vector and reading it back at the same width gives the
      same vector, whatever the width of the top digit. */
  lemma {:induction false} RoundTrip(s: seq<Bit>, k: nat)
    requires AllKnown(s) && 0 < k <= 4
    ensures Parsed(Printed(s, k), |Printed(s, k)|, k, |s|) == s
    decreases |s|
  {
    hide Letter, Code, CharBits, Parsed;
    if s == [] {
      ParsedEmpty("", 0, k);
    } else if |s| <= k {
      DigitRoundTrip(s, k);
      var c := Letter(k, Code(s));
      ParsedLast("", c, k, |s|);
      ParsedEmpty("", 0, k);
      assert "" + [c] == [c];
      assert Pad(s, k)[..|s|] == s;
      assert s + [] == s;
    } else {
      var t, g := Printed(s[k..], k), s[..k];
      RoundTrip(s[k..], k);
      DigitRoundTrip(g, k);
      PrintedFirst(s[k..], k);
      ParsedLast(t, Letter(k, Code(g)), k, |s|);
      assert Pad(g, k)[..k] == g;
      assert g + s[k..] == s;
    }
  }

  lemma ParsedEmpty(t: string, n: nat, k: nat)
    requires n <= |t| && 0 < k <= 4
    ensures Parsed(t, n, k, 0) == []
  {
  }

  /** A print without leading zero digits reads back too: what is missing on the
      left is filled with zeros. */
  lemma {:induction false} TrimmedRoundTrip(s: seq<Bit>, k: nat, m: nat, e: nat)
    requires AllKnown(s) && 0 < k <= 4 && m > 0 && |s| == m * k
    ensures Parsed(Printed(s, k), |Printed(s, k)|, k, |s| + e) == s + Rep(LO, e)
    decreases m
  {
    hide Letter, Code, CharBits, Parsed;
    Times(m, k);
    if m == 1 {
      DigitRoundTrip(s, k);
      var c := Letter(k, Code(s));
      assert Pad(s, k)[..k] == s;
      ParsedOne(c, k, e);
    } else {
      var u, g := s[k..], s[..k];
      TrimmedRoundTrip(u, k, m - 1, e);
      DigitRoundTrip(g, k);
      PrintedFirst(u, k);
      ParsedLast(Printed(u, k), Letter(k, Code(g)), k, |s| + e);
      assert Pad(g, k)[..k] == g;
      assert g + (u + Rep(LO, e)) == s + Rep(LO, e);
    }
  }

  lemma Times(m: nat, k: nat)
    requires m > 0 && k > 0
    ensures m * k == k + (m - 1) * k && m * k >= k && (m > 1 ==> m * k > k)
  {
    assert m > 1 ==> (m - 1) * k >= 1 * k;
  }

  lemma ParsedOne(c: char, k: nat, e: nat)
    requires 0 < k <= 4 && c != '_' && CharBits(c, k).Some? && PadBit([c]) == LO
    ensures Parsed([c], 1, k, k + e) == CharBits(c, k).value[..k] + Rep(LO, e)
  {
    hide CharBits;
    var g := CharBits(c, k).value[..k];
    if e == 0 { assert g + [] == g + Rep(LO, 0); }
  }

  /** In base 2 unknown and high-impedance bits survive as well. */
  lemma {:induction false} BinaryRoundTrip(s: seq<Bit>)
    requires forall i | 0 <= i < |s| :: s[i] != NVL
    ensures Parsed(Printed(s, 1), |Printed(s, 1)|, 1, |s|) == s && (s != [] ==> Printed(s, 1) != "")
    decreases |s|
  {
    hide Letter, Code, CharBits, Parsed;
    if s == [] {
      ParsedEmpty("", 0, 1);
    } else {
      var t, g := if |s| == 1 then "" else Printed(s[1..], 1), s[..1];
      BitRoundTrip(s[0]);
      assert g == [s[0]];
      var c := Letter(1, Code(g));
      if |s| == 1 { assert s == g; }
      assert Printed(s, 1) == t + [c];
      BinaryRoundTrip(s[1..]);
      ParsedLast(t, c, 1, |s|);
      if |s| == 1 { ParsedEmpty("", 0, 1); }
      assert g + s[1..] == s;
    }
  }

  lemma BitRoundTrip(b: Bit)
    requires b != NVL
    ensures var c := Letter(1, Code([b])); CharBits(c, 1).Some? && CharBits(c, 1).value == [b] && c != '_'
  {
    SmallPowers();
    assert Code([b]) == Weight(b, 0) by { assert [b][..0] == []; }
    if Known(b) {
      DigitRoundTrip([b], 1);
      assert Pad([b], 1) == [b];
    }
  }

  // ----- base 10 -----

  function Decimal(n: nat): (t: string)
    ensures t != "" && forall i | 0 <= i < |t| :: '0' <= t[i] <= '9'
  {
    if n < 10 then [DigitChar(n)] else Decimal(n / 10) + [DigitChar(n % 10)]
  }

  function Number(t: string): nat {
    if t == "" then 0 else 10 * Number(t[..|t| - 1]) + DigitValue(t[|t| - 1])
  }

  function SkipSpaces(t: string): string {
    if t != "" && t[0] == ' ' then SkipSpaces(t[1..]) else t
  }

  function Leading(t: string): (r: string)
    ensures r <= t
  {
    if t != "" && '0' <= t[0] <= '9' then [t[0]] + Leading(t[1..]) else ""
  }

  /** The library conversion: skip blanks, read digits, stop at the largest word. */
  function ToUnsigned(t: string): nat {
    Min(Number(Leading(SkipSpaces(t))), Pow2(WORD) - 1)
  }

  function ParsedDecimal(t: string, w: nat): (s: seq<Bit>) { Bits(ToUnsigned(t), w) }

  lemma {:induction false} DecimalNumber(n: nat)
    ensures Number(Decimal(n)) == n
  {
    if n < 10 {
      assert [DigitChar(n)][..0] == "";
      DigitBack(n);
    } else {
      DecimalNumber(n / 10);
      DigitBack(n % 10);
      assert Decimal(n)[..|Decimal(n)| - 1] == Decimal(n / 10);
    }
  }

  lemma {:induction false} AllDigits(t: string)
    requires forall i | 0 <= i < |t| :: '0' <= t[i] <= '9'
    ensures Leading(t) == t
  {
    if t != "" { AllDigits(t[1..]); }
  }

  lemma {:induction false} SpacesSkipped(n: nat, t: string)
    requires t != "" && t[0] != ' '
    ensures SkipSpaces(seq(n, _ => ' ') + t) == t
  {
    var p := seq(n, _ => ' ') + t;
    if n > 0 {
      SpacesSkipped(n - 1, t);
      assert p[1..] == seq(n - 1, _ => ' ') + t;
    } else {
      assert p == t;
    }
  }

  /** Decimal print and read back, with any number of leading blanks. */
  lemma DecimalRoundTrip(s: seq<Bit>, blanks: nat)
    requires AllKnown(s) && |s| <= WORD
    ensures ParsedDecimal(seq(blanks, _ => ' ') + Decimal(Val(s)), |s|) == s
  {
    hide Val, Pow2, Decimal, Number, Bits, Leading, SkipSpaces;
    var v := Val(s);
    SpacesSkipped(blanks, Decimal(v));
    AllDigits(Decimal(v));
    DecimalNumber(v);
    Bound(s);
    PowMono(|s|, WORD);
    BitsVal(v, |s|);
    Modulo(0, Pow2(|s|), v);
    Unique(Bits(v, |s|), s);
  }

  lemma {:induction false} LeadingStops(t: string, rest: string)
    requires (forall i | 0 <= i < |t| :: '0' <= t[i] <= '9') && (rest == "" || !('0' <= rest[0] <= '9'))
    ensures Leading(t + rest) == t
  {
    if t == "" {
      assert "" + rest == rest;
    } else {
      assert (t + rest)[1..] == t[1..] + rest;
      LeadingStops(t[1..], rest);
    }
  }

  /** Decimal text behind any blanks reads as its number, up to the first character
      that is no digit; a number that no word holds reads as the largest word. */
  lemma DecimalWord(n: nat, blanks: nat, rest: string)
    requires rest == "" || !('0' <= rest[0] <= '9')
    ensures ToUnsigned(seq(blanks, _ => ' ') + (Decimal(n) + rest)) == if n < Pow2(64) then n else Pow2(64) - 1
  {
    hide Pow2, Decimal, Number, Leading, SkipSpaces;
    assert (Decimal(n) + rest)[0] == Decimal(n)[0];
    SpacesSkipped(blanks, Decimal(n) + rest);
    LeadingStops(Decimal(n), rest);
    DecimalNumber(n);
  }

  // ----- the length of the text -----

  /** How long the text is to be: no leading zeros, all digits, or a given
      number of characters. */
  datatype Length = Exact | Full | Given(n: nat)

  /** The text right-aligned in `n` characters; digits that do not fit are
      dropped on the left. */
  function Fitted(t: string, n: nat): (r: string)
    ensures |r| == n
  {
    if n >= |t| then seq(n - |t|, _ => ' ') + t else t[|t| - n..]
  }

  lemma {:induction false} DecimalMono(a: nat, b: nat)
    requires a <= b
    ensures |Decimal(a)| <= |Decimal(b)|
    decreases b
  {
    if a >= 10 { DecimalMono(a / 10, b / 10); }
  }

  lemma Regroup(w: nat, b: nat, c: nat, r: nat)
    ensures w * (10 * b + c) + r == (w * c + r) + (w * 10) * b
  {
    assert w * (10 * b + c) == w * (10 * b) + w * c;
    assert w * (10 * b) == (w * 10) * b;
  }

  lemma SmallRest(w: nat, c: nat, r: nat)
    requires c <= 9 && r < w
    ensures w * c + r < w * 10
  {
    MulLe(w, c, 9);
  }

  lemma Division(v: nat, w: nat)
    requires w > 0
    ensures v == w * (v / w) + v % w && v % w < w
  {
  }

  lemma DivideTwice(v: nat, w: nat)
    requires w > 0
    ensures v / w / 10 == v / (w * 10)
  {
    var a, r := v / w, v % w;
    var b, c := a / 10, a % 10;
    Division(v, w);
    QuotientIs(v, w, a, r, b, c);
  }

  /** The quotient of a number written with its digits apart. */
  lemma QuotientIs(v: nat, w: nat, a: nat, r: nat, b: nat, c: nat)
    requires w > 0 && v == w * a + r && r < w && a == 10 * b + c && c <= 9
    ensures b == v / (w * 10)
  {
    Regroup(w, b, c, r);
    SmallRest(w, c, r);
    Modulo(b, w * 10, w * c + r);
  }

  /** The number of decimal digits; the weight never exceeds the value, so the
      word arithmetic does not overflow. */
  method FindDigits(value: nat) returns (digits: nat)
    requires value < Pow2(WORD)
    ensures digits == |Decimal(value)|
  {
    hide Pow2, Decimal;
    MaxWord();
    var weight: nat := 1;
    digits := 1;
    assert value / 1 == value;
    while value / weight >= 10
      invariant 0 < weight && (weight == 1 || weight <= value) && weight < Pow2(WORD)
      invariant |Decimal(value)| + 1 == digits + |Decimal(value / weight)|
      decreases value - weight
    {
      DivideTwice(value, weight);
      Tenfold(value, weight);
      DecimalTail(value / weight);
      weight := weight * 10;
      digits := digits + 1;
    }
    DecimalOne(value / weight);
  }

  lemma Tenfold(v: nat, w: nat)
    requires w > 0 && v / w >= 10
    ensures w * 10 <= v && w < w * 10
  {
    assert v == w * (v / w) + v % w;
    MulLe(w, 10, v / w);
  }

  lemma DecimalTail(n: nat)
    requires n >= 10
    ensures Decimal(n) == Decimal(n / 10) + [DigitChar(n % 10)]
  {
  }

  lemma DecimalOne(n: nat)
    requires n < 10
    ensures Decimal(n) == [DigitChar(n)]
  {
  }

  // ----- printing -----

  function Ceiling(n: nat, k: nat): nat
    requires k > 0
  {
    (n + k - 1) / k
  }

  /** The bits up to the highest one that is not 0. */
  function Significant(s: seq<Bit>): (n: nat)
    ensures n <= |s| && forall i | n <= i < |s| :: s[i] == LO
  {
    if s == [] then 0 else if s[|s| - 1] != LO then |s| else Significant(s[..|s| - 1])
  }

  function TextSize(s: seq<Bit>, k: nat, len: Length): nat
    requires k > 0
  {
    match len
    case Exact => Max(1, Ceiling(Significant(s), k))
    case Full => Max(1, Ceiling(|s|, k))
    case Given(n) => Max(1, n)
  }

  method CountSignificant(bv: BitVector) returns (n: nat)
    requires bv.Valid() && bv.begin == 0
    ensures n == Significant(bv.Value())
  {
    ghost var s := bv.Value();
    n := bv.stop;
    assert s[..n] == s;
    while n > 0
      invariant n <= bv.stop && bv.Value() == s && Significant(s) == Significant(s[..n])
    {
      assert bv.bits[n - 1] == s[n - 1] && s[..n][..n - 1] == s[..n - 1];
      if bv.bits[n - 1] != LO { return; }
      n := n - 1;
    }
  }

  lemma {:induction false} PrintedLength(s: seq<Bit>, k: nat)
    requires k > 0
    ensures |Printed(s, k)| == Ceiling(|s|, k)
    decreases |s|
  {
    hide Letter, Code;
    if s == [] {
      Modulo(0, k, k - 1);
    } else if |s| <= k {
      Modulo(1, k, |s| - 1);
    } else {
      PrintedLength(s[k..], k);
      CeilingStep(|s|, k);
    }
  }

  lemma CeilingStep(n: nat, k: nat)
    requires k > 0 && n >= k
    ensures Ceiling(n, k) == Ceiling(n - k, k) + 1
  {
    var a := n - 1;
    assert a == k * (a / k) + a % k;
    assert a + k == k * (a / k + 1) + a % k;
    Modulo(a / k + 1, k, a % k);
  }

  lemma PrintedStep(s: seq<Bit>, j: nat, k: nat)
    requires k > 0 && j < |s|
    ensures var m := Min(k, |s| - j);
      Printed(s[j..], k) == Printed(s[j + m..], k) + [Letter(k, Code(s[j..j + m]))]
  {
    hide Letter, Code;
    var t := s[j..];
    if |t| <= k {
      assert s[j..|s|] == t && Printed(s[|s|..], k) == "";
      assert "" + [Letter(k, Code(t))] == [Letter(k, Code(t))];
    } else {
      assert t[k..] == s[j + k..] && t[..k] == s[j..j + k];
    }
  }

  /** Print in base 2, 8 or 16 (1, 3 or 4 bits a digit). */
  method Print(bv: BitVector, k: nat, len: Length) returns (t: string)
    requires bv.Valid() && bv.begin == 0 && k in {1, 3, 4}
    ensures t == Fitted(Printed(bv.Value(), k), TextSize(bv.Value(), k, len))
  {
    var size := bv.stop;
    match len {
      case Exact =>
        var n := CountSignificant(bv);
        size := (n + k - 1) / k;
      case Full => size := (size + k - 1) / k;
      case Given(n) => size := n;
    }
    if size <= 0 { size := 1; }
    t := PrintInto(bv, k, size);
  }

  method PrintInto(bv: BitVector, k: nat, size: nat) returns (t: string)
    requires bv.Valid() && bv.begin == 0 && k > 0
    ensures t == Fitted(Printed(bv.Value(), k), size)
  {
    hide Letter, Code, Printed, PrintedSoFar, Fitted;
    ghost var s := bv.Value();
    var res := new char[size](_ => ' ');
    var i, j := size, 0;
    PrintedStart(s, k);
    assert res[size..] == "";
    while j < bv.stop && i > 0
      invariant 0 <= i <= size && 0 <= j <= bv.stop && bv.Value() == s
      invariant PrintedSoFar(s, k, j, res[i..])
      invariant forall c | 0 <= c < i :: res[c] == ' '
    {
      var m := Min(k, bv.stop - j);
      ghost var done := res[i..];
      PrintedNext(s, k, j, done);
      res[i - 1] := Letter(k, Code(bv.Value()[j..j + m]));
      assert res[i - 1..] == [res[i - 1]] + done;
      i := i - 1;
      j := j + m;
    }
    PrintedEnd(s, k, j, res[..i], res[i..]);
    assert res[..] == res[..i] + res[i..];
    return res[..];
  }

  /** The digits `done` print the bits below `j`. */
  predicate PrintedSoFar(s: seq<Bit>, k: nat, j: nat, done: string)
    requires k > 0
  {
    j <= |s| && Printed(s, k) == Printed(s[j..], k) + done
  }

  lemma PrintedStart(s: seq<Bit>, k: nat)
    requires k > 0
    ensures PrintedSoFar(s, k, 0, "")
  {
    hide Printed;
    assert s[0..] == s;
  }

  lemma PrintedNext(s: seq<Bit>, k: nat, j: nat, done: string)
    requires k > 0 && j < |s| && PrintedSoFar(s, k, j, done)
    ensures var m := Min(k, |s| - j); PrintedSoFar(s, k, j + m, [Letter(k, Code(s[j..j + m]))] + done)
  {
    hide Printed, Letter, Code;
    PrintedStep(s, j, k);
    var m := Min(k, |s| - j);
    Glue(Printed(s[j + m..], k), Letter(k, Code(s[j..j + m])), done);
  }

  lemma PrintedEnd(s: seq<Bit>, k: nat, j: nat, blank: string, done: string)
    requires k > 0 && PrintedSoFar(s, k, j, done)
    requires (forall c | 0 <= c < |blank| :: blank[c] == ' ') && (blank == "" || j == |s|)
    ensures blank + done == Fitted(Printed(s, k), |blank| + |done|)
  {
    hide Printed;
    if j == |s| { PrintedNone(s[j..], k); }
    FittedParts(blank, Printed(s[j..], k), done);
  }

  lemma PrintedNone(s: seq<Bit>, k: nat)
    requires s == [] && k > 0
    ensures Printed(s, k) == ""
  {
  }

  lemma FittedParts(blank: string, rest: string, done: string)
    requires (forall c | 0 <= c < |blank| :: blank[c] == ' ') && (blank == "" || rest == "")
    ensures blank + done == Fitted(rest + done, |blank| + |done|)
  {
  }

  /** The lowest digits of the print are the print of the lowest bits. */
  lemma {:induction false} PrintedLow(s: seq<Bit>, k: nat, m: nat)
    requires k > 0 && m * k <= |s|
    ensures m <= |Printed(s, k)| && Printed(s, k)[|Printed(s, k)| - m..] == Printed(s[..m * k], k)
    decreases m
  {
    hide Letter, Code;
    if m > 0 {
      Times(m, k);
      assert (m - 1) * k >= 0;
      if |s| <= k {
        assert m * k == k && s[..k] == s;
        assert m == 1 by { if m > 1 { Times(m, k); } }
      } else {
        PrintedLow(s[k..], k, m - 1);
        assert s[k..][..(m - 1) * k] == s[..m * k][k..];
        var t := Printed(s[k..], k);
        if m == 1 {
          assert s[..1 * k] == s[..k];
        } else {
          assert s[..m * k][..k] == s[..k];
        }
      }
    }
  }

  lemma FullReadBack(s: seq<Bit>, k: nat, n: nat)
    requires AllKnown(s) && 0 < k <= 4 && n == |Printed(s, k)|
    ensures var t := Fitted(Printed(s, k), n); Parsed(t, |t|, k, |s|) == s
  {
    hide Printed, Parsed;
    RoundTrip(s, k);
    assert Fitted(Printed(s, k), n) == Printed(s, k);
  }

  lemma ShortReadBack(s: seq<Bit>, k: nat, n: nat)
    requires AllKnown(s) && 0 < k <= 4 && 0 < n && Significant(s) <= n * k < |s|
    ensures n <= |Printed(s, k)|
    ensures var t := Printed(s, k)[|Printed(s, k)| - n..]; Parsed(t, |t|, k, |s|) == s
  {
    hide Printed, Parsed;
    PrintedLow(s, k, n);
    TrimmedRoundTrip(s[..n * k], k, n, |s| - n * k);
    assert s == s[..n * k] + Rep(LO, |s| - n * k);
  }

  /** Whatever `Print` writes without a given length reads back as the vector. */
  lemma PrintReadBack(s: seq<Bit>, k: nat, len: Length)
    requires s != [] && AllKnown(s) && k in {1, 3, 4} && !len.Given?
    ensures var t := Fitted(Printed(s, k), TextSize(s, k, len)); Parsed(t, |t|, k, |s|) == s
  {
    hide Printed, Parsed, Ceiling, Significant, AllKnown;
    PrintedLength(s, k);
    CeilingPositive(|s|, k);
    var n := TextSize(s, k, len);
    if n == |Printed(s, k)| {
      FullReadBack(s, k, n);
    } else {
      ExactBelow(s, k);
      ShortReadBack(s, k, n);
    }
  }

  lemma CeilingPositive(n: nat, k: nat)
    requires n > 0 && k > 0
    ensures Ceiling(n, k) > 0
  {
    if n >= k { CeilingStep(n, k); } else { Modulo(1, k, n - 1); }
  }

  /** Dropping leading zero digits leaves whole digits that hold every 1. */
  lemma ExactBelow(s: seq<Bit>, k: nat)
    requires s != [] && k > 0 && TextSize(s, k, Exact) != Ceiling(|s|, k)
    ensures var n := TextSize(s, k, Exact); 0 < n && Significant(s) <= n * k < |s|
  {
    hide Ceiling, Significant;
    var g, z := Significant(s), |s|;
    CeilingBounds(g, k);
    CeilingBounds(z, k);
    CeilingPositive(z, k);
    CeilingMono(g, z, k);
    var n, m := TextSize(s, k, Exact), Ceiling(z, k);
    NextMultiple(n, m, k);
    if n != Ceiling(g, k) { assert g == 0 by { if g > 0 { CeilingPositive(g, k); } } }
    assert n * k >= 0;
  }

  lemma NextMultiple(n: nat, m: nat, k: nat)
    requires n < m
    ensures n * k + k <= m * k
  {
    MulLe(k, n + 1, m);
    assert k * (n + 1) == n * k + k && k * m == m * k;
  }

  lemma CeilingBounds(n: nat, k: nat)
    requires k > 0
    ensures n <= Ceiling(n, k) * k < n + k
  {
    var a := n + k - 1;
    assert a == k * (a / k) + a % k;
    assert k * (a / k) == a / k * k;
  }

  lemma CeilingMono(a: nat, b: nat, k: nat)
    requires a <= b && k > 0
    ensures Ceiling(a, k) <= Ceiling(b, k)
  {
    CeilingBounds(a, k);
    CeilingBounds(b, k);
    var x, y := Ceiling(a, k), Ceiling(b, k);
    if x > y { NextMultiple(y, x, k); }
  }
}
