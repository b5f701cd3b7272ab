/** Reading digit strings into vectors, and printing in base 10. */
module Reading {
  import opened Logic
  import opened Numbers
  import opened Native
  import opened Arithmetic
  import opened Vector
  import opened Radix

  predicate Fresh(s: seq<Bit>) { forall i | 0 <= i < |s| :: s[i] == NVL }

  lemma ParsedStep(t: string, n: nat, k: nat, w: nat)
    requires 0 < n <= |t| && 0 < k <= 4 && w > 0
    ensures Parsed(t, n, k, w) ==
      if t[n - 1] == '_' then Parsed(t, n - 1, k, w)
      else
        match CharBits(t[n - 1], k)
        case None => Rep(NVL, w)
        case Some(g) => g[..Min(k, w)] + Parsed(t, n - 1, k, w - Min(k, w))
  {
    hide CharBits;
  }

  /** The bits from `i` on are still unset. */
  ghost predicate Untouched(bv: BitVector, i: nat)
    requires bv.Valid() && bv.begin == 0 && i <= bv.stop
    reads bv.bits
  {
    bv.bits[i..bv.stop] == Rep(NVL, bv.stop - i)
  }

  lemma FreshUntouched(bv: BitVector)
    requires bv.Valid() && bv.begin == 0 && Fresh(bv.Value())
    ensures Untouched(bv, 0)
  {
  }

  lemma UntouchedValue(bv: BitVector, i: nat)
    requires bv.Valid() && bv.begin == 0 && i <= bv.stop && Untouched(bv, i)
    ensures bv.Value() == bv.bits[..i] + Rep(NVL, bv.stop - i)
  {
    assert bv.Value() == bv.bits[..i] + bv.bits[i..bv.stop];
  }

  /** Store as many bits of a digit as there is room for. */
  method StoreDigit(bv: BitVector, i: nat, m: nat, g: seq<Bit>)
    requires bv.Valid() && bv.begin == 0 && i + m <= bv.stop && m <= |g|
    requires Untouched(bv, i)
    modifies bv.bits
    ensures bv.bits[..i + m] == old(bv.bits[..i]) + g[..m] && Untouched(bv, i + m)
  {
    ghost var rest := bv.bits[i..bv.stop];
    forall c | i <= c < i + m { bv.bits[c] := g[c - i]; }
    forall c | i + m <= c < bv.stop ensures bv.bits[c] == NVL { assert rest[c - i] == NVL; }
  }

  lemma ParsedEnd(t: string, j: nat, k: nat, w: nat)
    requires 0 < k <= 4 && j <= |t| && (w == 0 || j == 0)
    ensures Parsed(t, j, k, w) == Rep(PadBit(t), w)
  {
  }

  method PadLeft(bv: BitVector, i: nat, b: Bit)
    requires bv.Valid() && bv.begin == 0 && i <= bv.stop
    modifies bv.bits
    ensures bv.Value() == old(bv.bits[..i]) + Rep(b, bv.stop - i)
  {
    ghost var done := bv.bits[..i];
    forall c | i <= c < bv.stop { bv.bits[c] := b; }
    assert bv.bits[..i] == done;
  }

  /** The `i` lowest bits have been read, the first `j` characters are left. */
  ghost predicate ReadSoFar(bv: BitVector, t: string, k: nat, i: nat, j: nat)
    requires bv.Valid() && bv.begin == 0 && 0 < k <= 4
    reads bv.bits
  {
    && i <= bv.stop && j <= |t| && Untouched(bv, i)
    && Parsed(t, |t|, k, bv.stop) == bv.bits[..i] + Parsed(t, j, k, bv.stop - i)
  }

  lemma ReadNothing(bv: BitVector, t: string, k: nat)
    requires bv.Valid() && bv.begin == 0 && 0 < k <= 4 && Fresh(bv.Value())
    ensures ReadSoFar(bv, t, k, 0, |t|)
  {
    hide Parsed;
    FreshUntouched(bv);
    assert bv.bits[..0] == [];
  }

  /** Read one character. */
  method ReadDigit(bv: BitVector, t: string, k: nat, i: nat, j: nat) returns (next: nat, stopped: bool)
    requires bv.Valid() && bv.begin == 0 && 0 < k <= 4 && ReadSoFar(bv, t, k, i, j) && i < bv.stop && j > 0
    modifies bv.bits
    ensures next <= bv.stop
    ensures stopped ==> bv.Value() == Parsed(t, |t|, k, bv.stop)
    ensures !stopped ==> ReadSoFar(bv, t, k, next, j - 1)
  {
    hide CharBits, Parsed, Untouched;
    ParsedStep(t, j, k, bv.stop - i);
    if t[j - 1] == '_' { return i, false; }
    var g := CharBits(t[j - 1], k);
    if g.None? {
      UntouchedValue(bv, i);
      return i, true;
    }
    var m := Min(k, bv.stop - i);
    ghost var done, rest := bv.bits[..i], Parsed(t, j - 1, k, bv.stop - i - m);
    StoreDigit(bv, i, m, g.value);
    Regrouped(done, g.value[..m], rest);
    return i + m, false;
  }

  /** Read digits of `k` bits from the right into a vector just allocated. */
  method AssignDigits(bv: BitVector, t: string, k: nat)
    requires bv.Valid() && bv.begin == 0 && k in {1, 3, 4} && Fresh(bv.Value())
    modifies bv.bits
    ensures bv.Value() == Parsed(t, |t|, k, bv.stop)
  {
    hide Parsed, PadBit, ReadSoFar;
    var i: nat, j: nat := 0, |t|;
    ReadNothing(bv, t, k);
    while i < bv.stop && j > 0
      invariant i <= bv.stop && j <= |t| && ReadSoFar(bv, t, k, i, j)
      decreases j
    {
      var stopped;
      i, stopped := ReadDigit(bv, t, k, i, j);
      if stopped { return; }
      j := j - 1;
    }
    FinishRead(bv, t, k, i, j);
  }

  method FinishRead(bv: BitVector, t: string, k: nat, i: nat, j: nat)
    requires bv.Valid() && bv.begin == 0 && 0 < k <= 4 && ReadSoFar(bv, t, k, i, j) && (i == bv.stop || j == 0)
    modifies bv.bits
    ensures bv.Value() == Parsed(t, |t|, k, bv.stop)
  {
    hide Parsed, PadBit, Untouched;
    ParsedEnd(t, j, k, bv.stop - i);
    PadLeft(bv, i, PadBit(t));
  }

  /** Read a decimal string into the vector. */
  method AssignDecimal(bv: BitVector, t: string)
    requires bv.Valid() && bv.begin == 0
    modifies bv.bits
    ensures bv.Value() == ParsedDecimal(t, bv.stop)
  {
    hide Pow2, Bits, ToUnsigned;
    var value := ToUnsigned(t);
    if value == 0 {
      forall c | 0 <= c < bv.stop { bv.bits[c] := LO; }
      ZeroBits(bv.stop);
      return;
    }
    var rem: nat := value;
    var i := 0;
    while i < bv.stop
      invariant 0 <= i <= bv.stop
      invariant Bits(value, bv.stop) == bv.bits[..i] + Bits(rem, bv.stop - i)
    {
      BitsStep(rem, bv.stop - i);
      ghost var done := bv.bits[..i];
      bv.bits[i] := Digit(rem);
      assert bv.bits[..i + 1] == done + [Digit(rem)];
      rem := rem / 2;
      i := i + 1;
    }
  }

  lemma BitsStep(n: nat, w: nat)
    requires w > 0
    ensures Bits(n, w) == [Digit(n)] + Bits(n / 2, w - 1)
  {
  }

  lemma {:induction false} ZeroBits(w: nat)
    ensures Bits(0, w) == Rep(LO, w)
  {
    if w > 0 {
      ZeroBits(w - 1);
      assert [LO] + Rep(LO, w - 1) == Rep(LO, w);
    }
  }

  // ----- base 10 -----

  predicate Has(s: seq<Bit>, b: Bit) { exists i | 0 <= i < |s| :: s[i] == b }

  /** The letter printed instead of a number with unknown bits: capital if there
      are ones, or unknown bits of both kinds. */
  function UnknownLetter(one: bool, x: bool, z: bool): char {
    if x && !one && !z then 'x'
    else if z && !one && !x then 'z'
    else if z && one && !x then 'Z'
    else 'X'
  }

  function DecimalSize(v: nat, len: Length): nat {
    match len
    case Exact => |Decimal(v)|
    case Full => |Decimal(Pow2(WORD) - 1)|
    case Given(n) => Max(1, n)
  }

  /** What is printed for the low 64 bits of a vector that is not negative. */
  function DecimalText(s: seq<Bit>, len: Length): string {
    if Has(s, DC) || Has(s, Z) then [UnknownLetter(Has(s, HI), Has(s, DC), Has(s, Z))]
    else Fitted(Decimal(Val(s)), DecimalSize(Val(s), len))
  }

  /** Told from the bits: a small letter if all unknown bits are of one kind and
      all others are 0, whether or not there are any; otherwise a capital Z if there
      is no x, and a capital X. */
  lemma UnknownDecimal(s: seq<Bit>, len: Length)
    requires (forall i | 0 <= i < |s| :: s[i] != NVL) && exists i | 0 <= i < |s| :: !Known(s[i])
    ensures DecimalText(s, len) == "x" <==> forall i | 0 <= i < |s| :: s[i] == DC || s[i] == LO
    ensures DecimalText(s, len) == "z" <==> forall i | 0 <= i < |s| :: s[i] == Z || s[i] == LO
    ensures DecimalText(s, len) == "Z" <==>
      (forall i | 0 <= i < |s| :: s[i] != DC) && exists i | 0 <= i < |s| :: s[i] == HI
    ensures DecimalText(s, len) == "X" <==>
      (exists i | 0 <= i < |s| :: s[i] == DC) && exists i | 0 <= i < |s| :: s[i] == HI || s[i] == Z
  {
    var i :| 0 <= i < |s| && !Known(s[i]);
    assert s[i] == DC || s[i] == Z;
    var t := DecimalText(s, len);
    assert t == [UnknownLetter(Has(s, HI), Has(s, DC), Has(s, Z))] && |t| == 1;
    forall j | 0 <= j < |s| ensures Known(s[j]) || s[j] == DC || s[j] == Z {}
  }

  lemma HasSnoc(s: seq<Bit>, j: nat, b: Bit)
    requires j < |s|
    ensures Has(s[..j + 1], b) <==> Has(s[..j], b) || s[j] == b
  {
    var t, u := s[..j], s[..j + 1];
    forall i | 0 <= i < j ensures t[i] == u[i] {}
    assert u[j] == s[j];
    if Has(t, b) {
      var i :| 0 <= i < |t| && t[i] == b;
      assert u[i] == b;
    }
    if Has(u, b) {
      var i :| 0 <= i < |u| && u[i] == b;
      if i < j { assert t[i] == b; }
    }
  }

  lemma ValStep(s: seq<Bit>, j: nat)
    requires j < |s|
    ensures Val(s[..j + 1]) == Val(s[..j]) + B(s[j]) * Pow2(j)
  {
    hide Val, Pow2;
    assert s[..j + 1] == s[..j] + [s[j]];
    Snoc(s[..j], s[j]);
  }

  /** Signed vectors must not be negative. */
  method PrintDecimal(bv: BitVector, len: Length) returns (t: string)
    requires bv.Valid() && bv.begin == 0 && !Negative(bv.Value(), bv.sign)
    ensures t == DecimalText(bv.Value()[..Min(bv.stop, WORD)], len)
  {
    hide Val, Pow2, Decimal, Has, UnknownLetter, Fitted;
    ghost var s := bv.Value();
    var last := Min(bv.stop, WORD);
    var haveX, haveZ, haveOne := false, false, false;
    var num, weight, j := 0, 1, 0;
    DecimalStart(s);
    while j < last
      invariant 0 <= j <= last && bv.Value() == s && weight == Pow2(j)
      invariant haveX == Has(s[..j], DC) && haveZ == Has(s[..j], Z) && haveOne == Has(s[..j], HI)
      invariant num == Val(s[..j])
    {
      assert bv.bits[j] == s[j];
      HasSnoc(s, j, DC);
      HasSnoc(s, j, Z);
      HasSnoc(s, j, HI);
      ValStep(s, j);
      PowPos(j + 1);
      match bv.bits[j] {
        case DC => haveX := true;
        case Z => haveZ := true;
        case HI => num, haveOne := num + weight, true;
        case LO =>
        case NVL =>
      }
      weight := 2 * weight;
      j := j + 1;
    }
    if haveX || haveZ { return [UnknownLetter(haveOne, haveX, haveZ)]; }
    WordSized(s[..last]);
    t := DecimalDigits(num, len);
  }

  lemma DecimalStart(s: seq<Bit>)
    ensures Val(s[..0]) == 0 && Pow2(0) == 1 && !Has(s[..0], DC) && !Has(s[..0], Z) && !Has(s[..0], HI)
  {
  }

  lemma WordSized(s: seq<Bit>)
    requires |s| <= WORD
    ensures Val(s) < Pow2(WORD)
  {
    hide Val, Pow2;
    Bound(s);
    PowMono(|s|, WORD);
  }

  method DecimalDigits(value: nat, len: Length) returns (t: string)
    requires value < Pow2(WORD)
    ensures t == Fitted(Decimal(value), DecimalSize(value, len))
  {
    hide Decimal, Fitted, Pow2;
    var size := 0;
    match len {
      case Exact => size := FindDigits(value);
      case Full => size := FindDigits(Pow2(WORD) - 1);
      case Given(n) => size := n;
    }
    DecimalNonempty(value);
    DecimalNonempty(Pow2(WORD) - 1);
    if size == 0 { size := 1; }
    t := DecimalInto(value, size);
  }

  lemma DecimalNonempty(n: nat)
    ensures |Decimal(n)| > 0
  {
  }

  /** The digits of `num` are still to be written before `done`. */
  predicate WrittenSoFar(value: nat, num: nat, more: bool, done: string) {
    Decimal(value) == (if more then Decimal(num) else "") + done
  }

  lemma WrittenNext(value: nat, num: nat, done: string)
    requires WrittenSoFar(value, num, true, done)
    ensures WrittenSoFar(value, num / 10, num / 10 > 0, [DigitChar(num % 10)] + done)
  {
    hide Decimal, DigitChar;
    if num >= 10 {
      DecimalTail(num);
      Glue(Decimal(num / 10), DigitChar(num % 10), done);
    } else {
      DecimalOne(num);
    }
  }

  lemma WrittenEnd(value: nat, num: nat, more: bool, blank: string, done: string)
    requires WrittenSoFar(value, num, more, done)
    requires (forall c | 0 <= c < |blank| :: blank[c] == ' ') && (blank == "" || !more)
    ensures blank + done == Fitted(Decimal(value), |blank| + |done|)
  {
    hide Decimal;
    FittedParts(blank, if more then Decimal(num) else "", done);
  }

  /** Write the digits from the right as long as there is room. */
  method DecimalInto(value: nat, size: nat) returns (t: string)
    requires size > 0
    ensures t == Fitted(Decimal(value), size)
  {
    hide Decimal, DigitChar, WrittenSoFar, Fitted;
    var res := new char[size](_ => ' ');
    var num: nat, i := value, size;
    assert res[size..] == "";
    WrittenStart(value);
    var more := true;
    while i > 0 && more
      invariant 0 <= i <= size && (i == size ==> more)
      invariant forall c | 0 <= c < i :: res[c] == ' '
      invariant WrittenSoFar(value, num, more, res[i..])
      decreases i
    {
      ghost var done := res[i..];
      WrittenNext(value, num, done);
      res[i - 1] := DigitChar(num % 10);
      assert res[i - 1..] == [res[i - 1]] + done;
      more := num / 10 > 0;
      num := num / 10;
      i := i - 1;
    }
    WrittenEnd(value, num, more, res[..i], res[i..]);
    assert res[..] == res[..i] + res[i..];
    return res[..];
  }

  lemma WrittenStart(value: nat)
    ensures WrittenSoFar(value, value, true, "")
  {
    hide Decimal;
  }

  /** Printing a known vector of at most 64 bits in base 10, at its own length
      or at full length, and reading it back gives the same vector. */
  lemma DecimalReadBack(s: seq<Bit>, len: Length)
    requires AllKnown(s) && |s| <= WORD && !len.Given?
    ensures ParsedDecimal(DecimalText(s, len), |s|) == s
  {
    hide Val, Pow2, Decimal, ParsedDecimal;
    NoneUnknown(s);
    var v := Val(s);
    WordSized(s);
    DecimalMono(v, Pow2(WORD) - 1);
    DecimalRoundTrip(s, DecimalSize(v, len) - |Decimal(v)|);
  }

  lemma NoneUnknown(s: seq<Bit>)
    requires AllKnown(s)
    ensures !Has(s, DC) && !Has(s, Z)
  {
  }
}
