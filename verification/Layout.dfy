/** How concatenations and split targets lay out their elements, and that the
    two are inverse. */
module Layout {
  import opened Logic
  import opened Numbers
  import opened Native
  import opened Vector
  import opened Selection

  /** The bits `ms` down to `ls` of one element; both -1 for "everything". */
  datatype Slot = Slot(ms: int, ls: int)

  function Total(sizes: seq<nat>): nat {
    if sizes == [] then 0 else sizes[0] + Total(sizes[1..])
  }

  /** Every element sits above the elements to its right. */
  function Slots(sizes: seq<nat>): (t: seq<Slot>)
    ensures |t| == |sizes|
  {
    if sizes == [] then [] else [Slot(Total(sizes) - 1, Total(sizes[1..]))] + Slots(sizes[1..])
  }

  lemma SlotsStep(sizes: seq<nat>, i: nat)
    requires i < |sizes|
    ensures Slots(sizes[i..]) == [Slot(Total(sizes[i..]) - 1, Total(sizes[i + 1..]))] + Slots(sizes[i + 1..])
    ensures Total(sizes[i..]) == sizes[i] + Total(sizes[i + 1..])
  {
    assert sizes[i..][1..] == sizes[i + 1..];
  }

  /** The setup of a concatenation walks its elements from the right. */
  method SetupConcat(sizes: seq<nat>, repeat: nat) returns (slots: seq<Slot>, size: nat)
    ensures slots == Slots(sizes) && size == repeat * Total(sizes)
  {
    hide Slots, Total;
    slots, size := [], 0;
    var prev := 0;
    var i := |sizes|;
    SlotsEmpty(sizes[i..]);
    while i > 0
      invariant 0 <= i <= |sizes|
      invariant size == prev == Total(sizes[i..]) && slots == Slots(sizes[i..])
    {
      i := i - 1;
      SlotsStep(sizes, i);
      size := size + sizes[i];
      slots := [Slot(size - 1, prev)] + slots;
      prev := size;
    }
    assert sizes[0..] == sizes;
    size := size * repeat;
  }

  lemma SlotsEmpty(sizes: seq<nat>)
    requires sizes == []
    ensures Slots(sizes) == [] && Total(sizes) == 0
  {
  }

  /** The setup of a target list: a single target takes the whole value. */
  method SetupTargets(sizes: seq<nat>) returns (slots: seq<Slot>, size: nat)
    ensures slots == TargetSlots(sizes) && size == Total(sizes)
  {
    hide Slots, Total;
    slots, size := [], 0;
    var prev := 0;
    var i := |sizes|;
    SlotsEmpty(sizes[i..]);
    while i > 0
      invariant 0 <= i <= |sizes| && size == Total(sizes[i..])
      invariant |sizes| < 2 ==> slots == if i == |sizes| then [] else [Slot(-1, -1)]
      invariant |sizes| >= 2 ==> prev == size && slots == Slots(sizes[i..])
    {
      i := i - 1;
      SlotsStep(sizes, i);
      size := size + sizes[i];
      if |sizes| < 2 {
        slots := [Slot(-1, -1)] + slots;
      } else {
        slots := [Slot(size - 1, prev)] + slots;
        prev := size;
      }
    }
    assert sizes[0..] == sizes;
    if sizes == [] { SlotsEmpty(sizes); }
  }

  function TargetSlots(sizes: seq<nat>): (t: seq<Slot>)
    ensures |t| == |sizes|
  {
    if |sizes| == 1 then [Slot(-1, -1)] else Slots(sizes)
  }

  /** The slots partition the bits: every position lies in exactly one, and each
      has the size of its element. */
  lemma {:induction false} SlotsPartition(sizes: seq<nat>, p: nat)
    requires p < Total(sizes)
    ensures exists i | 0 <= i < |sizes| :: Slots(sizes)[i].ls <= p <= Slots(sizes)[i].ms
    ensures forall i, j | 0 <= i < |sizes| && 0 <= j < |sizes| &&
      Slots(sizes)[i].ls <= p <= Slots(sizes)[i].ms && Slots(sizes)[j].ls <= p <= Slots(sizes)[j].ms :: i == j
  {
    var t := Slots(sizes);
    if p >= Total(sizes[1..]) {
      assert t[0].ls <= p <= t[0].ms;
      forall j | 0 < j < |sizes| ensures !(t[j].ls <= p <= t[j].ms) {
        SlotBounds(sizes[1..], j - 1);
        assert t[j] == Slots(sizes[1..])[j - 1];
      }
    } else {
      SlotsPartition(sizes[1..], p);
      var u := Slots(sizes[1..]);
      var i :| 0 <= i < |u| && u[i].ls <= p <= u[i].ms;
      assert t[i + 1] == u[i];
      forall j, k | 0 <= j < |sizes| && 0 <= k < |sizes| && t[j].ls <= p <= t[j].ms && t[k].ls <= p <= t[k].ms
        ensures j == k
      {
        assert j > 0 ==> t[j] == u[j - 1];
        assert k > 0 ==> t[k] == u[k - 1];
      }
    }
  }

  lemma {:induction false} SlotBounds(sizes: seq<nat>, i: nat)
    requires i < |sizes|
    ensures var s := Slots(sizes)[i];
      s == Slot(s.ls + sizes[i] - 1, Total(sizes[i + 1..])) && 0 <= s.ls && s.ls + sizes[i] <= Total(sizes)
  {
    if i > 0 {
      SlotBounds(sizes[1..], i - 1);
      assert sizes[1..][i..] == sizes[i + 1..];
    }
  }

  // ----- evaluation -----

  function Clean(v: seq<Bit>): (t: seq<Bit>)
    ensures |t| == |v|
  {
    seq(|v|, i requires 0 <= i < |v| => if v[i] == NVL then DC else v[i])
  }

  /** The concatenation itself, lowest bits first: the last element is lowest. */
  function Joined(vs: seq<seq<Bit>>): seq<Bit> {
    if vs == [] then [] else Joined(vs[1..]) + Clean(vs[0])
  }

  function Repeated(s: seq<Bit>, n: nat): seq<Bit> {
    if n == 0 then [] else Repeated(s, n - 1) + s
  }

  function Sizes(vs: seq<seq<Bit>>): (t: seq<nat>)
    ensures |t| == |vs| && forall i | 0 <= i < |vs| :: t[i] == |vs[i]|
  {
    seq(|vs|, i requires 0 <= i < |vs| => |vs[i]|)
  }

  lemma SizesTail(vs: seq<seq<Bit>>, i: nat)
    requires i <= |vs|
    ensures Sizes(vs)[i..] == Sizes(vs[i..])
  {
  }

  lemma {:induction false} JoinedLength(vs: seq<seq<Bit>>)
    ensures |Joined(vs)| == Total(Sizes(vs))
  {
    if vs != [] {
      JoinedLength(vs[1..]);
      SizesTail(vs, 1);
    }
  }

  lemma {:induction false} RepeatedLength(s: seq<Bit>, n: nat)
    ensures |Repeated(s, n)| == n * |s|
  {
    if n > 0 { RepeatedLength(s, n - 1); }
  }

  /** Every element is found again in its slot. */
  lemma {:induction false} ElementInSlot(vs: seq<seq<Bit>>, i: nat)
    requires i < |vs|
    ensures var s := Slots(Sizes(vs))[i];
      0 <= s.ls && s.ls + |vs[i]| == s.ms + 1 <= |Joined(vs)| && Joined(vs)[s.ls..s.ms + 1] == Clean(vs[i])
  {
    JoinedLength(vs);
    JoinedLength(vs[1..]);
    SizesTail(vs, 1);
    if i > 0 { ElementInSlot(vs[1..], i - 1); }
  }

  /** Put one element in place. */
  function Put(o: seq<Bit>, s: nat, v: seq<Bit>): seq<Bit>
    requires s + |v| <= |o|
  {
    RangeWritten(o, s, |v|, v)
  }

  predicate NoUnused(o: seq<Bit>) { forall i | 0 <= i < |o| :: o[i] != NVL }

  /** Writing the elements from the left fills the bits from the top down. */
  lemma PutTop(o: seq<Bit>, done: seq<Bit>, s: nat, v: seq<Bit>)
    requires s + |v| <= |o| && NoUnused(o) && o[s + |v|..] == done
    ensures var t := Put(o, s, v); NoUnused(t) && t[s..] == Clean(v) + done
  {
    var t := Put(o, s, v);
    forall i | 0 <= i < |t| ensures t[i] != NVL {
      if i >= s + |v| { assert t[i] == o[i]; }
    }
    assert t[s + |v|..] == done;
    assert t[s..s + |v|] == Clean(v);
    assert t[s..] == t[s..s + |v|] + t[s + |v|..];
  }

  /** A result without a sign takes that of the first element that has one. */
  function FirstSign(was: Sign, ss: seq<Sign>): Sign
    decreases ss
  {
    if was != Unset || ss == [] then was else FirstSign(ss[0], ss[1..])
  }

  /** Evaluation of a concatenation into its result vector. */
  method Evaluate(res: BitVector, values: seq<BitVector>, slots: seq<Slot>, repeat: nat,
      ghost vs: seq<seq<Bit>>, ghost ss: seq<Sign>)
    requires res.Valid() && res.begin == 0 && |values| == |vs| > 0
    requires forall i | 0 <= i < |values| ::
      values[i].Valid() && values[i].begin == 0 && values[i].bits != res.bits && values[i] != res &&
      values[i].Value() == vs[i]
    requires |ss| == |values| && forall i | 0 <= i < |values| :: values[i].sign == ss[i]
    requires slots == Slots(Sizes(vs)) && res.stop == repeat * Total(Sizes(vs)) && NoUnused(res.Value())
    modifies res`sign, res.bits
    ensures res.Value() == Repeated(Joined(vs), repeat) && res.sign == FirstSign(old(res.sign), ss)
  {
    hide Slots, Total, Joined, Repeated, NoUnused, RangeWritten, Span, Sizes;
    ghost var total := Total(Sizes(vs));
    SpanIs(repeat, total);
    var size := res.stop / repeat;
    assert size == total by { ExactQuotient(res.stop, repeat, total); }
    RepeatedNone(Joined(vs));
    assert res.Value()[res.stop..] == [];
    var i := 1;
    while i <= repeat
      invariant 1 <= i <= repeat + 1
      invariant forall k | 0 <= k < |values| :: values[k].Value() == vs[k] && values[k].sign == ss[k]
      invariant res.sign == if i == 1 then old(res.sign) else FirstSign(old(res.sign), ss)
      invariant NoUnused(res.Value()) && Span(repeat + 1 - i, total) <= res.stop
      invariant res.Value()[Span(repeat + 1 - i, total)..] == Repeated(Joined(vs), i - 1)
    {
      SpanStep(repeat - i, total);
      EvaluateOnce(res, values, slots, Span(repeat - i, size), vs, ss, Repeated(Joined(vs), i - 1));
      RepeatedStep(Joined(vs), i);
      i := i + 1;
    }
    SpanIs(0, total);
    assert res.Value()[0..] == res.Value();
  }

  /** The bits of `n` copies. */
  function Span(n: nat, size: nat): nat { n * size }

  lemma SpanIs(n: nat, size: nat)
    ensures Span(n, size) == n * size && Span(0, size) == 0
  {
  }

  lemma SpanStep(n: nat, size: nat)
    ensures Span(n + 1, size) == Span(n, size) + size
  {
  }

  lemma ExactQuotient(n: nat, a: nat, b: nat)
    requires n == a * b && n > 0
    ensures a > 0 && n / a == b
  {
    Modulo(b, a, 0);
  }

  lemma RepeatedNone(s: seq<Bit>)
    ensures Repeated(s, 0) == []
  {
  }

  /** Copies may be added at either end. */
  lemma {:induction false} RepeatedStep(s: seq<Bit>, n: nat)
    requires n > 0
    ensures Repeated(s, n) == s + Repeated(s, n - 1)
  {
    if n > 1 {
      RepeatedStep(s, n - 1);
      assert s + Repeated(s, n - 2) + s == s + (Repeated(s, n - 2) + s);
    }
  }

  lemma JoinedAbove(vs: seq<seq<Bit>>, k: nat, above: seq<Bit>)
    requires k < |vs|
    ensures Clean(vs[k]) + (JoinedUpTo(vs, k) + above) == JoinedUpTo(vs, k + 1) + above
  {
    hide JoinedUpTo, Clean;
    JoinedMore(vs, k);
    assert Clean(vs[k]) + (JoinedUpTo(vs, k) + above) == Clean(vs[k]) + JoinedUpTo(vs, k) + above;
  }

  /** Write one element below what is already there. */
  method PutElement(res: BitVector, value: BitVector, from: nat, n: nat, ghost above: seq<Bit>)
    requires res.Valid() && res.begin == 0 && value.Valid() && value.begin == 0 && value.bits != res.bits
    requires from + n <= res.stop && n == value.stop && NoUnused(res.Value()) && res.Value()[from + n..] == above
    modifies res`sign, res.bits
    ensures NoUnused(res.Value()) && res.Value()[from..] == Clean(value.Value()) + above
    ensures res.sign == if old(res.sign) == Unset then value.sign else old(res.sign)
  {
    hide RangeWritten, NoUnused, Clean;
    PutTop(res.Value(), above, from, value.Value());
    assert Cells(res) == res.Value();
    WriteRange(res, from, n, value);
    assert Cells(res) == res.Value();
  }

  /** One copy of all the elements, `base` bits above the bottom. */
  method EvaluateOnce(res: BitVector, values: seq<BitVector>, slots: seq<Slot>, base: nat,
      ghost vs: seq<seq<Bit>>, ghost ss: seq<Sign>, ghost above: seq<Bit>)
    requires res.Valid() && res.begin == 0 && |values| == |vs|
    requires forall i | 0 <= i < |values| ::
      values[i].Valid() && values[i].begin == 0 && values[i].bits != res.bits && values[i] != res &&
      values[i].Value() == vs[i]
    requires |ss| == |values| && forall i | 0 <= i < |values| :: values[i].sign == ss[i]
    requires slots == Slots(Sizes(vs)) && base + Total(Sizes(vs)) <= res.stop && NoUnused(res.Value())
    requires res.Value()[base + Total(Sizes(vs))..] == above
    modifies res`sign, res.bits
    ensures forall i | 0 <= i < |values| :: values[i].Value() == vs[i] && values[i].sign == ss[i]
    ensures NoUnused(res.Value()) && res.Value()[base..] == Joined(vs) + above
    ensures res.sign == FirstSign(old(res.sign), ss)
  {
    hide Slots, Total, Joined, JoinedUpTo, NoUnused, RangeWritten, Clean;
    ghost var sizes := Sizes(vs);
    var k := 0;
    assert sizes[0..] == sizes && ss[0..] == ss;
    JoinedNothing(vs, above);
    while k < |values|
      invariant 0 <= k <= |values|
      invariant forall i | 0 <= i < |values| :: values[i].Value() == vs[i] && values[i].sign == ss[i]
      invariant FirstSign(old(res.sign), ss) == FirstSign(res.sign, ss[k..])
      invariant NoUnused(res.Value()) && base + Total(sizes[k..]) <= res.stop
      invariant res.Value()[base + Total(sizes[k..])..] == JoinedUpTo(vs, k) + above
    {
      SlotBounds(sizes, k);
      SlotsStep(sizes, k);
      PutElement(res, values[k], base + slots[k].ls, slots[k].ms + 1 - slots[k].ls, JoinedUpTo(vs, k) + above);
      JoinedAbove(vs, k, above);
      assert ss[k..][1..] == ss[k + 1..];
      k := k + 1;
    }
    SlotsEmpty(sizes[k..]);
    JoinedWhole(vs);
  }

  lemma JoinedWhole(vs: seq<seq<Bit>>)
    ensures JoinedUpTo(vs, |vs|) == Joined(vs)
  {
    assert vs[..|vs|] == vs;
  }

  /** The concatenation of the first `k` elements. */
  function JoinedUpTo(vs: seq<seq<Bit>>, k: nat): seq<Bit>
    requires k <= |vs|
  {
    Joined(vs[..k])
  }

  lemma JoinedNothing(vs: seq<seq<Bit>>, above: seq<Bit>)
    ensures JoinedUpTo(vs, 0) + above == above
  {
  }

  lemma {:induction false} JoinedMore(vs: seq<seq<Bit>>, k: nat)
    requires k < |vs|
    ensures JoinedUpTo(vs, k + 1) == Clean(vs[k]) + JoinedUpTo(vs, k)
  {
    JoinedSnoc(vs[..k], vs[k]);
    assert vs[..k + 1] == vs[..k] + [vs[k]];
  }

  lemma {:induction false} JoinedSnoc(vs: seq<seq<Bit>>, v: seq<Bit>)
    ensures Joined(vs + [v]) == Clean(v) + Joined(vs)
  {
    if vs == [] {
      assert ([] + [v])[1..] == [];
    } else {
      JoinedSnoc(vs[1..], v);
      assert (vs + [v])[1..] == vs[1..] + [v] && (vs + [v])[0] == vs[0];
      assert Clean(v) + Joined(vs[1..]) + Clean(vs[0]) == Clean(v) + (Joined(vs[1..]) + Clean(vs[0]));
    }
  }
}
