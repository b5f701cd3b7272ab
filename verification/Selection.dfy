/** Part selects: which bits a range names, and assignment to a range. */
module Selection {
  import opened Logic
  import opened Numbers
  import opened Native
  import opened Vector

  /** Where bit `i`, in declared indices, is stored for range selects. */
  function Place(mirrored: bool, begin: nat, stop: nat, i: nat): int
    requires begin < stop
  {
    if mirrored then stop - 1 + begin - i else i
  }

  /** The lowest storage position of the range `ms:ls`. */
  function RangeStart(mirrored: bool, begin: nat, stop: nat, ms: nat, ls: nat): int
    requires begin < stop
  {
    Place(mirrored, begin, stop, ls)
  }

  predicate RightOrder(mirrored: bool, ms: nat, ls: nat) {
    if mirrored then ms <= ls else ms >= ls
  }

  function Distance(ms: nat, ls: nat): nat { if ms < ls then ls - ms else ms - ls }

  /** Where a single index is looked up. */
  function IndexPlace(mirrored: bool, begin: nat, stop: nat, i: nat): int
    requires begin < stop
  {
    if mirrored then stop - 1 - i else i
  }

  /** In a range the leftmost declared bit is the most significant one, in both
      directions of declaration, and different indices name different bits. */
  lemma RangePlaces(mirrored: bool, begin: nat, stop: nat, ms: nat, ls: nat, i: nat)
    requires begin < stop && RightOrder(mirrored, ms, ls)
    requires begin <= ms < stop && begin <= ls < stop && begin <= i < stop
    ensures var s := RangeStart(mirrored, begin, stop, ms, ls);
      begin <= s && s + Distance(ms, ls) < stop &&
      (s <= Place(mirrored, begin, stop, i) <= s + Distance(ms, ls) <==>
        Distance(ms, i) + Distance(i, ls) == Distance(ms, ls)) &&
      (Distance(ms, i) + Distance(i, ls) == Distance(ms, ls) ==> Place(mirrored, begin, stop, i) == s + Distance(i, ls))
  {
  }

  /** A single index and a range of one bit name the same bit exactly when the
      vector is not mirrored or starts at index 0. */
  lemma IndexAgrees(mirrored: bool, begin: nat, stop: nat, i: nat)
    requires begin < stop
    ensures IndexPlace(mirrored, begin, stop, i) == Place(mirrored, begin, stop, i) <==> !mirrored || begin == 0
  {
  }

  /** Bits that are unused in the target stay so, unused source bits are stored
      as unknown. */
  function Written(was: Bit, now: Bit): Bit {
    if was == NVL then NVL else if now == NVL then DC else now
  }

  /** `o` after `v` was assigned to its `n` bits from `s` on. */
  function RangeWritten(o: seq<Bit>, s: nat, n: nat, v: seq<Bit>): (t: seq<Bit>)
    requires s + n <= |o|
    ensures |t| == |o|
    ensures t[..s] == o[..s] && t[s + n..] == o[s + n..]
  {
    seq(|o|, i requires 0 <= i < |o| =>
      if i < s || s + n <= i then o[i]
      else if i - s < |v| then Written(o[i], v[i - s])
      else LO)
  }

  /** The storage of a vector up to its top bit, with the unused slots below. */
  function Cells(bv: BitVector): seq<Bit>
    requires bv.Valid()
    reads bv.bits
  {
    bv.bits[..bv.stop]
  }

  /** The part of `n` bits from `from` on that lies below `stop`. */
  function Clipped(from: nat, n: nat, stop: nat): nat {
    if from >= stop then 0 else Min(n, stop - from)
  }

  /** The storage after `v` was assigned to `n` bits from `from` on; what lies
      above the top bit is dropped. */
  function Ranged(o: seq<Bit>, from: nat, n: nat, v: seq<Bit>): (t: seq<Bit>)
    ensures |t| == |o|
  {
    if from >= |o| then o else RangeWritten(o, from, Clipped(from, n, |o|), v)
  }

  /** `t` after the first `i - from` bits of the range have been assigned. */
  ghost predicate Taken(t: seq<Bit>, o: seq<Bit>, from: nat, i: nat, v: seq<Bit>) {
    |t| == |o| && i - from <= |v| &&
    forall k | 0 <= k < |o| :: t[k] == if from <= k < i then Written(o[k], v[k - from]) else o[k]
  }

  lemma TakenOne(t: seq<Bit>, u: seq<Bit>, o: seq<Bit>, from: nat, i: nat, v: seq<Bit>)
    requires from <= i < |t| && i - from < |v| && Taken(t, o, from, i, v) && u == t[i := Written(t[i], v[i - from])]
    ensures Taken(u, o, from, i + 1, v)
  {
  }

  lemma RangedAt(o: seq<Bit>, from: nat, n: nat, v: seq<Bit>, k: nat)
    requires k < |o|
    ensures Ranged(o, from, n, v)[k] ==
      if k < from || from + n <= k then o[k] else if k - from < |v| then Written(o[k], v[k - from]) else LO
  {
    hide Written, RangeWritten;
    if from < |o| { RangeWrittenAt(o, from, Clipped(from, n, |o|), v, k); }
  }

  lemma RangeWrittenAt(o: seq<Bit>, s: nat, n: nat, v: seq<Bit>, k: nat)
    requires s + n <= |o| && k < |o|
    ensures RangeWritten(o, s, n, v)[k] ==
      if k < s || s + n <= k then o[k] else if k - s < |v| then Written(o[k], v[k - s]) else LO
  {
    hide Written;
  }

  /** The range is finished when it, the source or the target ends. */
  lemma TakenAll(t: seq<Bit>, u: seq<Bit>, o: seq<Bit>, from: nat, n: nat, i: nat, v: seq<Bit>)
    requires from <= i <= from + n && Taken(t, o, from, i, v) && |u| == |o| &&
      (i == from + n || i >= |o| || i - from == |v|)
    requires i < from + n && i < |o| ==> from + n <= |o|
    requires forall k | 0 <= k < |o| :: u[k] == if i <= k < from + n then LO else t[k]
    ensures u == Ranged(o, from, n, v)
  {
    hide Ranged, Written;
    var r := Ranged(o, from, n, v);
    forall k | 0 <= k < |o| ensures u[k] == r[k] { RangedAt(o, from, n, v, k); }
  }

  /** Assignment to a range, given by its place in the storage. The code fills
      the rest of the range with 0 without looking at the top of the target: if
      the range goes beyond the top, the source must have bits enough. */
  method WriteRange(res: BitVector, from: nat, n: nat, bv: BitVector)
    requires res.Valid() && bv.Valid() && res.bits != bv.bits
    requires from + n <= res.stop || from + (bv.stop - bv.begin) >= res.stop
    modifies res`sign, res.bits
    ensures Cells(res) == Ranged(old(Cells(res)), from, n, bv.Value())
    ensures res.sign == if old(res.sign) == Unset then bv.sign else old(res.sign)
  {
    hide Taken, Ranged;
    ghost var o, v := Cells(res), bv.Value();
    var i, j := from, bv.begin;
    assert Taken(o, o, from, from, v) by { TakenNone(o, from, v); }
    while i < from + n && i < res.stop && j < bv.stop
      invariant from <= i <= from + n && i - from == j - bv.begin && bv.begin <= j <= bv.stop
      invariant bv.Value() == v && res.sign == old(res.sign) && Taken(Cells(res), o, from, i, v)
    {
      assert bv.bits[j] == v[j - bv.begin];
      ghost var t := Cells(res);
      if res.bits[i] != NVL {
        res.bits[i] := if bv.bits[j] == NVL then DC else bv.bits[j];
      }
      assert Cells(res) == t[i := Written(t[i], v[i - from])];
      TakenOne(t, Cells(res), o, from, i, v);
      i, j := i + 1, j + 1;
    }
    ghost var t := Cells(res);
    if i < from + n && i < res.stop {
      forall k | i <= k < from + n { res.bits[k] := LO; }
    }
    TakenAll(t, Cells(res), o, from, n, i, v);
    if res.sign == Unset { res.sign := bv.sign; }
  }

  lemma TakenNone(o: seq<Bit>, from: nat, v: seq<Bit>)
    ensures Taken(o, o, from, from, v)
  {
  }

  /** Assignment to the range `ms:ls` of declared indices; negative indices name
      nothing. */
  method WriteSelect(res: BitVector, ms: int, ls: int, bv: BitVector)
    requires res.Valid() && bv.Valid() && res.bits != bv.bits
    requires ms >= 0 && ls >= 0 ==>
      RightOrder(res.mirrored, ms, ls) && (res.mirrored ==> ls < res.begin + res.stop) &&
      var s := RangeStart(res.mirrored, res.begin, res.stop, ms, ls);
      s + Distance(ms, ls) < res.stop || s + (bv.stop - bv.begin) >= res.stop
    modifies res`sign, res.bits
    ensures Cells(res) ==
      if ms < 0 || ls < 0 then old(Cells(res))
      else Ranged(old(Cells(res)), RangeStart(res.mirrored, res.begin, res.stop, ms, ls), Distance(ms, ls) + 1,
        bv.Value())
    ensures res.sign == if old(res.sign) == Unset then bv.sign else old(res.sign)
  {
    if ms < 0 || ls < 0 {
      if res.sign == Unset { res.sign := bv.sign; }
    } else if !res.mirrored {
      WriteRange(res, ls, ms + 1 - ls, bv);
    } else {
      var t := res.stop - 1 + res.begin;
      WriteRange(res, t - ls, ls + 1 - ms, bv);
    }
  }

  /** In terms of declared indices, for both directions of declaration: the bits
      between the bounds receive the bits of the source from the right bound on,
      then 0; no other bit changes; bits that were unused stay so. */
  lemma SelectWritten(mirrored: bool, begin: nat, ms: nat, ls: nat, o: seq<Bit>, v: seq<Bit>, i: nat)
    requires begin < |o| && RightOrder(mirrored, ms, ls)
    requires begin <= ms < |o| && begin <= ls < |o| && begin <= i < |o|
    ensures var t := Ranged(o, RangeStart(mirrored, begin, |o|, ms, ls), Distance(ms, ls) + 1, v);
      var p := Place(mirrored, begin, |o|, i);
      var k := Distance(i, ls);
      begin <= p < |o| &&
      t[p] == (if Distance(ms, i) + k != Distance(ms, ls) then o[p]
               else if k < |v| then Written(o[p], v[k]) else LO) &&
      t[..begin] == o[..begin]
  {
    RangePlaces(mirrored, begin, |o|, ms, ls, i);
    RangePlaces(mirrored, begin, |o|, ms, ls, ls);
    var s := RangeStart(mirrored, begin, |o|, ms, ls);
    assert Clipped(s, Distance(ms, ls) + 1, |o|) == Distance(ms, ls) + 1;
    var t := Ranged(o, s, Distance(ms, ls) + 1, v);
    forall q | 0 <= q < begin ensures t[q] == o[q] {}
  }
}
