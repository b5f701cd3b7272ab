/** Reading a vector as a 64-bit machine word, and as an integer. */
module Native {
  import opened Logic
  import opened Numbers

  datatype Sign = Unset | Unsigned | Signed

  const WORD: nat := 64

  /** A signed vector whose top bit is 1. */
  predicate Negative(s: seq<Bit>, sign: Sign)
    requires s != []
  {
    sign == Signed && s[|s| - 1] == HI
  }

  /** The integer a known vector stands for. */
  function Integer(s: seq<Bit>, sign: Sign): int
    requires s != []
  {
    Val(s) - (if Negative(s, sign) then Pow2(|s|) else 0)
  }

  /** `Word(w, false)` carries a result; `Word(0, true)` means an unknown bit was
      found, any other failure that the value does not fit. */
  datatype Word = Word(value: nat, fail: bool)

  /** All bits from `n` up equal the top bit. */
  predicate Uniform(s: seq<Bit>, n: nat)
    requires s != []
  {
    forall j | n <= j < |s| :: s[j] == s[|s| - 1]
  }

  /** The vector as a word, looking at `n` bits (at most 64). */
  function ToWord(s: seq<Bit>, sign: Sign, n: nat): (w: Word)
    requires s != [] && 0 < n <= WORD
  {
    if !KnownBelow(s, n) then Word(0, true)
    else if |s| > n && !Uniform(s, n) then Word(Pow2(WORD) - 1, true)
    else if |s| < n && Negative(s, sign) then (PowMono(|s|, WORD); Word(Val(s) + Pow2(WORD) - Pow2(|s|), false))
    else Word(Val(Pad(s, n)), false)
  }

  /** `n` bits, extended with `h`. */
  function Extend(s: seq<Bit>, h: Bit, n: nat): (t: seq<Bit>)
    ensures |t| == n
  {
    seq(n, i requires 0 <= i < n => if i < |s| then s[i] else h)
  }

  /** What assigning a vector to one of `n` bits leaves there: the low bits,
      or an extension by the sign of the source. */
  function Assigned(s: seq<Bit>, sign: Sign, n: nat): (t: seq<Bit>)
    requires s != []
    ensures |t| == n
  {
    Extend(s, if sign == Signed then s[|s| - 1] else LO, n)
  }

  lemma AssignedPlain(s: seq<Bit>, sign: Sign, n: nat)
    requires s != [] && AllKnown(s) && !Negative(s, sign)
    ensures Assigned(s, sign, n) == Pad(s, n)
  {
    assert Known(s[|s| - 1]);
  }

  lemma WordBound(s: seq<Bit>, sign: Sign, n: nat)
    requires s != [] && 0 < n <= WORD
    ensures ToWord(s, sign, n).value < Pow2(WORD)
  {
    hide Val, Pow2;
    Bound(Pad(s, n));
    PowMono(n, WORD);
    Bound(s);
    if |s| < n { PowMono(|s|, WORD); }
  }

  // ----- what the word means -----

  lemma PowShift(x: int, a: nat, b: nat)
    requires b <= a
    ensures (x - Pow2(a)) % Pow2(b) == x % Pow2(b)
  {
    PowAdd(b, a - b);
    ModuloShift(x, Pow2(a - b), Pow2(b));
  }

  /** On known vectors the word agrees with the integer modulo 2^n, and reading
      fails exactly when the bits from `n` up are not all the same. */
  lemma WordModulo(s: seq<Bit>, sign: Sign, n: nat)
    requires s != [] && 0 < n <= WORD && AllKnown(s)
    ensures var w := ToWord(s, sign, n);
      (w.fail <==> |s| > n && !Uniform(s, n)) &&
      (!w.fail ==> w.value % Pow2(n) == Integer(s, sign) % Pow2(n))
  {
    hide Val, Pow2, Pad, Uniform;
    PadModulo(s, n);
    if |s| < n && Negative(s, sign) {
      var x := Integer(s, sign) + Pow2(WORD);
      PowShift(x, WORD, n);
    } else {
      Twice(Val(s), Pow2(n));
      if Negative(s, sign) && n <= |s| { PowShift(Val(s), |s|, n); }
    }
  }

  lemma Twice(x: nat, p: nat)
    requires p > 0
    ensures x % p % p == x % p
  {
    Modulo(0, p, x % p);
  }

  /** The two's complement reading of a word. */
  function AsSigned(w: nat): int {
    if w < Pow2(WORD - 1) then w else w - Pow2(WORD)
  }

  /** Up to 64 bits the sign extension gives back the integer. */
  lemma WordSigned(s: seq<Bit>)
    requires s != [] && AllKnown(s) && |s| <= WORD
    ensures var w := ToWord(s, Signed, WORD); !w.fail && AsSigned(w.value) == Integer(s, Signed)
  {
    hide Pad, Pow2, Uniform;
    var n := |s|;
    TopBit(s);
    PowMono(n, WORD);
    PowMono(n - 1, WORD - 1);
    PowPos(n);
    PowPos(WORD);
    assert Pad(s, WORD) == s + Rep(LO, WORD - n);
    PadVal(s, WORD);
  }

  /** The top bit tells whether the number is in the upper half. */
  lemma TopBit(s: seq<Bit>)
    requires s != []
    ensures s[|s| - 1] == HI <==> Val(s) >= Pow2(|s| - 1)
    ensures Val(s) < Pow2(|s|)
  {
    Bound(s);
    Bound(s[..|s| - 1]);
  }

  /** A vector wider than a word whose bits from 64 up are all 1: its low 64
      bits are taken for the whole value. */
  predicate Misread(s: seq<Bit>) {
    |s| > WORD && forall j | WORD <= j < |s| :: s[j] == HI
  }

  /** Whether a known vector's bits from 64 up are all 0. */
  predicate Fits(s: seq<Bit>) {
    forall j | WORD <= j < |s| :: s[j] == LO
  }

  function Low(s: seq<Bit>): nat { Val(s) % Pow2(WORD) }

  function High(s: seq<Bit>): nat { Quotient(Val(s), Pow2(WORD)) }

  function Quotient(a: nat, b: nat): nat
    requires b > 0
  {
    a / b
  }

  lemma WordPlain(s: seq<Bit>, sign: Sign)
    requires s != [] && AllKnown(s) && !Negative(s, sign)
    ensures var w := ToWord(s, sign, WORD);
      (w.fail <==> !Fits(s) && !Misread(s)) && (!w.fail ==> w.value == Low(s)) && (w.fail ==> w.value != 0)
  {
    hide Val, Pow2, Pad;
    PadModulo(s, WORD);
    assert s[|s| - 1] == LO || s[|s| - 1] == HI by { assert Known(s[|s| - 1]); }
    MaxWord();
  }

  lemma MaxWord()
    ensures Pow2(WORD) > 1
  {
    PowMono(1, WORD);
    assert Pow2(1) == 2;
  }

  lemma HighBits(s: seq<Bit>)
    ensures Low(s) + Pow2(WORD) * High(s) == Val(s) && Low(s) < Pow2(WORD)
    ensures High(s) == if |s| <= WORD then 0 else Val(s[WORD..])
  {
    hide Val, Pow2;
    if |s| > WORD {
      assert s == s[..WORD] + s[WORD..];
      Concat(s[..WORD], s[WORD..]);
      Bound(s[..WORD]);
      Modulo(Val(s[WORD..]), Pow2(WORD), Val(s[..WORD]));
    } else {
      Bound(s);
      PowMono(|s|, WORD);
      Modulo(0, Pow2(WORD), Val(s));
    }
  }

  lemma FitsValue(s: seq<Bit>)
    requires AllKnown(s)
    ensures Fits(s) <==> High(s) == 0
  {
    hide Val, Pow2;
    HighBits(s);
    if |s| > WORD {
      var h := s[WORD..];
      ValZero(h);
      forall j | WORD <= j < |s| ensures s[j] == h[j - WORD] && Known(s[j]) {}
      if !Fits(s) {
        var j :| WORD <= j < |s| && s[j] != LO;
        assert h[j - WORD] == HI by { assert Known(s[j]); }
      }
    }
  }
}
