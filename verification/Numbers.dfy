/** Bit sequences as binary numbers, least significant bit first. */
module Numbers {
  import opened Logic

  function Pow2(n: nat): (r: nat)
    ensures r > 0
  {
    if n == 0 then 1 else 2 * Pow2(n - 1)
  }

  /** The weight of a bit: everything but 1 counts as 0. */
  function B(b: Bit): (n: nat)
    ensures n <= 1
  {
    if b.HI? then 1 else 0
  }

  function Digit(n: nat): Bit { if n % 2 == 1 then HI else LO }

  function Val(s: seq<Bit>): nat {
    if s == [] then 0 else Val(s[..|s| - 1]) + B(s[|s| - 1]) * Pow2(|s| - 1)
  }

  predicate AllKnown(s: seq<Bit>) { forall i | 0 <= i < |s| :: Known(s[i]) }

  /** The lowest `n` bits are 0 or 1. */
  predicate KnownBelow(s: seq<Bit>, n: nat) { forall i | 0 <= i < |s| && i < n :: Known(s[i]) }

  function Rep(b: Bit, n: nat): (s: seq<Bit>)
    ensures |s| == n && forall i | 0 <= i < n :: s[i] == b
  {
    seq(n, i => b)
  }

  function At(s: seq<Bit>, i: nat): Bit { if i < |s| then s[i] else LO }

  /** The lowest `n` bits, zero-extended. */
  function Pad(s: seq<Bit>, n: nat): (r: seq<Bit>)
    ensures |r| == n && forall i | 0 <= i < n :: r[i] == At(s, i)
  {
    seq(n, i requires 0 <= i < n => At(s, i))
  }

  /** The middle element may be counted to either side. */
  lemma Glue<T>(a: seq<T>, x: T, b: seq<T>)
    ensures a + ([x] + b) == (a + [x]) + b
  {
  }

  lemma Snoc(s: seq<Bit>, b: Bit)
    ensures Val(s + [b]) == Val(s) + B(b) * Pow2(|s|)
  {
    assert (s + [b])[..|s|] == s;
  }

  lemma PadSnoc(s: seq<Bit>, n: nat)
    ensures Pad(s, n + 1) == Pad(s, n) + [At(s, n)]
    ensures Val(Pad(s, n + 1)) == Val(Pad(s, n)) + B(At(s, n)) * Pow2(n)
  {
    Snoc(Pad(s, n), At(s, n));
  }

  lemma {:induction false} Bound(s: seq<Bit>)
    ensures Val(s) < Pow2(|s|)
  {
    if s != [] { Bound(s[..|s| - 1]); }
  }

  lemma PowZero()
    ensures Pow2(0) == 1
  {
  }

  lemma PowPos(n: nat)
    requires n > 0
    ensures Pow2(n) == 2 * Pow2(n - 1)
  {
  }

  lemma {:induction false} PowAdd(a: nat, b: nat)
    ensures Pow2(a + b) == Pow2(a) * Pow2(b)
    decreases b
  {
    if b > 0 { PowAdd(a, b - 1); }
  }

  lemma {:induction false} PowMono(a: nat, b: nat)
    requires a <= b
    ensures Pow2(a) <= Pow2(b)
    decreases b
  {
    if a < b { PowMono(a, b - 1); }
  }

  lemma {:induction false} Concat(s: seq<Bit>, t: seq<Bit>)
    ensures Val(s + t) == Val(s) + Pow2(|s|) * Val(t)
    decreases |t|
  {
    if t == [] {
      assert s + t == s;
    } else {
      var u, b := t[..|t| - 1], t[|t| - 1];
      assert s + t == (s + u) + [b];
      Concat(s, u);
      Snoc(s + u, b);
      PowAdd(|s|, |u|);
      Distribute(Pow2(|s|), Val(u), B(b), Pow2(|u|));
    }
  }

  lemma Distribute(p: nat, u: nat, b: nat, q: nat)
    ensures p * u + b * (p * q) == p * (u + b * q)
  {
  }

  lemma {:induction false} Zeros(n: nat)
    ensures Val(Rep(LO, n)) == 0
  {
    if n > 0 {
      Zeros(n - 1);
      assert Rep(LO, n)[..n - 1] == Rep(LO, n - 1);
    }
  }

  lemma {:induction false} Ones(n: nat)
    ensures Val(Rep(HI, n)) == Pow2(n) - 1
  {
    if n > 0 {
      Ones(n - 1);
      assert Rep(HI, n)[..n - 1] == Rep(HI, n - 1);
    }
  }

  /** Cutting off high bits is taking the remainder. */
  lemma Modulo(q: nat, p: nat, r: nat)
    requires r < p
    ensures (r + p * q) % p == r && (r + p * q) / p == q
  {
    var n := r + p * q;
    var d, m := n / p, n % p;
    assert n == p * d + m;
    assert p * (d + 1) == p * d + p && p * (q + 1) == p * q + p;
    if d < q { MulLe(p, d + 1, q); } else if d > q { MulLe(p, q + 1, d); }
  }

  lemma MulLe(p: nat, a: nat, b: nat)
    requires a <= b
    ensures p * a <= p * b
  {
  }

  lemma CutModulo(s: seq<Bit>, n: nat)
    requires n <= |s|
    ensures Val(s[..n]) == Val(s) % Pow2(n)
  {
    hide Val, Pow2;
    assert s == s[..n] + s[n..];
    Concat(s[..n], s[n..]);
    Bound(s[..n]);
    Modulo(Val(s[n..]), Pow2(n), Val(s[..n]));
  }

  lemma PadVal(s: seq<Bit>, n: nat)
    requires n >= |s|
    ensures Val(Pad(s, n)) == Val(s)
  {
    hide Val, Pow2;
    assert Pad(s, n) == s + Rep(LO, n - |s|);
    Concat(s, Rep(LO, n - |s|));
    Zeros(n - |s|);
  }

  lemma PadModulo(s: seq<Bit>, n: nat)
    ensures Val(Pad(s, n)) == Val(s) % Pow2(n)
  {
    hide Val, Pow2;
    if n <= |s| {
      CutModulo(s, n);
      assert Pad(s, n) == s[..n];
    } else {
      PadVal(s, n);
      Bound(Pad(s, n));
      Modulo(0, Pow2(n), Val(s));
    }
  }

  /** Known bits are determined by the number. */
  lemma {:induction false} Unique(s: seq<Bit>, t: seq<Bit>)
    requires |s| == |t| && AllKnown(s) && AllKnown(t) && Val(s) == Val(t)
    ensures s == t
  {
    if s != [] {
      var n := |s| - 1;
      Bound(s[..n]);
      Bound(t[..n]);
      assert B(s[n]) == B(t[n]);
      assert Known(s[n]) && Known(t[n]);
      Unique(s[..n], t[..n]);
      assert s == s[..n] + [s[n]] && t == t[..n] + [t[n]];
    }
  }

  /** The `w` lowest binary digits of a number. */
  function Bits(n: nat, w: nat): (s: seq<Bit>)
    ensures |s| == w && AllKnown(s)
  {
    if w == 0 then [] else [Digit(n)] + Bits(n / 2, w - 1)
  }

  lemma {:induction false} BitsVal(n: nat, w: nat)
    ensures Val(Bits(n, w)) == n % Pow2(w)
  {
    if w > 0 {
      BitsVal(n / 2, w - 1);
      Concat([Digit(n)], Bits(n / 2, w - 1));
      Single(Digit(n));
      HalfModulo(n, Pow2(w - 1));
    }
  }

  lemma Single(b: Bit)
    ensures Val([b]) == B(b)
  {
    assert [b] == [] + [b];
    Snoc([], b);
  }

  lemma HalfModulo(n: nat, p: nat)
    requires p > 0
    ensures n % (2 * p) == n % 2 + 2 * (n / 2 % p)
  {
    var q := n / 2;
    var h, r := q / p, q % p;
    assert q == p * h + r;
    DoubleAssoc(p, h);
    assert n == (n % 2 + 2 * r) + (2 * p) * h;
    Modulo(h, 2 * p, n % 2 + 2 * r);
  }

  lemma DoubleAssoc(p: nat, h: nat)
    ensures 2 * (p * h) == (2 * p) * h
  {
  }

  lemma {:induction false} ValZero(s: seq<Bit>)
    ensures Val(s) == 0 <==> forall i | 0 <= i < |s| :: s[i] != HI
  {
    if s != [] {
      var n := |s| - 1;
      ValZero(s[..n]);
      assert B(s[n]) * Pow2(n) > 0 <==> s[n] == HI;
    }
  }

  function Max(a: nat, b: nat): nat { if a < b then b else a }

  function Min(a: nat, b: nat): nat { if a < b then a else b }

  // ----- remainders of integers -----

  lemma Multiple(p: nat, e: int)
    ensures (e >= 1 ==> p * e >= p) && (e <= -1 ==> p * e <= -(p as int))
  {
    if e >= 1 { assert p * e == p + p * (e - 1); } else if e <= -1 { assert p * e == p * (e + 1) - p; }
  }

  lemma ModuloInt(x: int, y: int, p: nat, k: int)
    requires 0 <= x < p && y == x + p * k
    ensures y % p == x
  {
    var d, m := y / p, y % p;
    var e := d - k;
    assert y == p * d + m;
    assert p * e == x - m by { assert p * d - p * k == p * e; }
    Multiple(p, e);
  }

  lemma ModuloShift(x: int, k: int, p: nat)
    requires p > 0
    ensures (x - p * k) % p == x % p
  {
    var d, m := x / p, x % p;
    assert x == p * d + m;
    var y := x - p * k;
    var e, n := y / p, y % p;
    assert y == p * e + n;
    Factor(p, d, e, k);
    Multiple(p, d - e - k);
  }

  lemma Factor(p: int, d: int, e: int, k: int)
    ensures p * d - p * e - p * k == p * (d - e - k)
  {
  }
}
