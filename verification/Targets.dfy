/** Assigning one value to several targets. */
module Targets {
  import opened Logic
  import opened Native
  import opened Selection
  import opened Layout

  type Storage = seq<seq<Bit>>

  datatype Part = Whole | Range(hi: nat, lo: nat)

  datatype Target = Target(net: nat, part: Part)

  predicate Valid(st: Storage, t: Target) {
    t.net < |st| && st[t.net] != [] && (t.part.Range? ==> t.part.lo <= t.part.hi < |st[t.net]|)
  }

  /** The part of the value that an element receives. */
  predicate Inside(num: seq<Bit>, s: Slot) {
    num != [] && (s == Slot(-1, -1) || 0 <= s.ls <= s.ms < |num|)
  }

  function Cut(num: seq<Bit>, s: Slot): (v: seq<Bit>)
    requires Inside(num, s)
    ensures v != []
  {
    if s == Slot(-1, -1) then num else num[s.ls..s.ms + 1]
  }

  /** A whole net extends the value by its sign, a range of bits by zeros. */
  function Stored(st: Storage, num: seq<Bit>, sign: Sign, s: Slot, t: Target): (r: Storage)
    requires Valid(st, t) && Inside(num, s)
    ensures |r| == |st| && forall n | 0 <= n < |st| :: |r[n]| == |st[n]|
  {
    var v := Cut(num, s);
    match t.part
    case Whole => st[t.net := Assigned(v, sign, |st[t.net]|)]
    case Range(hi, lo) => st[t.net := RangeWritten(st[t.net], lo, hi + 1 - lo, v)]
  }

  predicate AllValid(st: Storage, num: seq<Bit>, slots: seq<Slot>, targets: seq<Target>) {
    |slots| == |targets| && forall i | 0 <= i < |slots| :: Valid(st, targets[i]) && Inside(num, slots[i])
  }

  lemma StoredValid(st: Storage, r: Storage, num: seq<Bit>, slots: seq<Slot>, targets: seq<Target>)
    requires AllValid(st, num, slots, targets) && |r| == |st| && forall n | 0 <= n < |st| :: |r[n]| == |st[n]|
    ensures AllValid(r, num, slots, targets)
  {
    forall i | 0 <= i < |slots| ensures Valid(r, targets[i]) && Inside(num, slots[i]) {
      assert Valid(st, targets[i]);
    }
  }

  /** All elements in turn. */
  function Distributed(st: Storage, num: seq<Bit>, sign: Sign, slots: seq<Slot>, targets: seq<Target>): (r: Storage)
    requires AllValid(st, num, slots, targets)
    ensures |r| == |st| && forall n | 0 <= n < |st| :: |r[n]| == |st[n]|
    decreases |slots|
  {
    if slots == [] then st
    else
      assert Valid(st, targets[0]) && Inside(num, slots[0]);
      var u := Stored(st, num, sign, slots[0], targets[0]);
      assert AllValid(st, num, slots[1..], targets[1..]);
      StoredValid(st, u, num, slots[1..], targets[1..]);
      Distributed(u, num, sign, slots[1..], targets[1..])
  }

  class Nets {
    var storage: Storage

    method Assign(num: seq<Bit>, sign: Sign, s: Slot, t: Target)
      requires Valid(storage, t) && Inside(num, s)
      modifies this
      ensures storage == Stored(old(storage), num, sign, s, t)
    {
      var v := if s.ms != -1 then num[s.ls..s.ms + 1] else num;
      match t.part {
        case Whole =>
          storage := storage[t.net := Assigned(v, sign, |storage[t.net]|)];
        case Range(hi, lo) =>
          storage := storage[t.net := RangeWritten(storage[t.net], lo, hi + 1 - lo, v)];
      }
    }

    method Trigger(num: seq<Bit>, sign: Sign, slots: seq<Slot>, targets: seq<Target>)
      requires AllValid(storage, num, slots, targets)
      modifies this
      ensures storage == Distributed(old(storage), num, sign, slots, targets)
    {
      hide Stored, Inside, Valid;
      var k := 0;
      assert slots[0..] == slots && targets[0..] == targets;
      while k < |slots|
        invariant 0 <= k <= |slots|
        invariant AllValid(storage, num, slots[k..], targets[k..])
        invariant Distributed(storage, num, sign, slots[k..], targets[k..]) ==
          old(Distributed(storage, num, sign, slots, targets))
      {
        ghost var st := storage;
        assert Valid(storage, targets[k..][0]) && Inside(num, slots[k..][0]);
        Assign(num, sign, slots[k], targets[k]);
        assert slots[k..][1..] == slots[k + 1..] && targets[k..][1..] == targets[k + 1..];
        assert AllValid(st, num, slots[k + 1..], targets[k + 1..]) by { ValidTail(st, num, slots[k..], targets[k..]); }
        StoredValid(st, storage, num, slots[k + 1..], targets[k + 1..]);
        k := k + 1;
      }
    }
  }

  lemma ValidTail(st: Storage, num: seq<Bit>, slots: seq<Slot>, targets: seq<Target>)
    requires AllValid(st, num, slots, targets) && slots != []
    ensures AllValid(st, num, slots[1..], targets[1..])
  {
    hide Valid, Inside;
  }

  // ----- reading back -----

  function Read(st: Storage, t: Target): seq<Bit>
    requires Valid(st, t)
  {
    match t.part
    case Whole => st[t.net]
    case Range(hi, lo) => st[t.net][lo..hi + 1]
  }

  /** The targets have no bit in common. */
  predicate Apart(t: Target, u: Target) {
    t.net != u.net || (t.part.Range? && u.part.Range? && (t.part.hi < u.part.lo || u.part.hi < t.part.lo))
  }

  predicate AllUsed(st: Storage) { forall n | 0 <= n < |st| :: NoUnused(st[n]) }

  /** A range that takes as many used bits as it has holds them afterwards. */
  lemma RangeHolds(o: seq<Bit>, lo: nat, v: seq<Bit>)
    requires lo + |v| <= |o| && NoUnused(o) && NoUnused(v)
    ensures var t := RangeWritten(o, lo, |v|, v); NoUnused(t) && t[lo..lo + |v|] == v
  {
    var t := RangeWritten(o, lo, |v|, v);
    forall k | 0 <= k < |t| ensures t[k] != NVL && (lo <= k < lo + |v| ==> t[k] == v[k - lo]) {
      assert o[k] != NVL;
      if lo <= k < lo + |v| { assert v[k - lo] != NVL; }
    }
  }

  lemma WholeHolds(v: seq<Bit>, sign: Sign, n: nat)
    requires v != [] && |v| == n
    ensures Assigned(v, sign, n) == v
  {
  }

  lemma CutUsed(num: seq<Bit>, s: Slot)
    requires Inside(num, s) && NoUnused(num)
    ensures NoUnused(Cut(num, s))
  {
    var v := Cut(num, s);
    forall k | 0 <= k < |v| ensures v[k] != NVL {
      assert v[k] == if s == Slot(-1, -1) then num[k] else num[s.ls + k];
    }
  }

  lemma StoredRead(st: Storage, num: seq<Bit>, sign: Sign, s: Slot, t: Target)
    requires Valid(st, t) && Inside(num, s) && AllUsed(st) && NoUnused(num)
    requires |Cut(num, s)| == |Read(st, t)|
    ensures var r := Stored(st, num, sign, s, t); Valid(r, t) && AllUsed(r) && Read(r, t) == Cut(num, s)
  {
    hide RangeWritten, NoUnused, Cut, Extend, Inside;
    var v := Cut(num, s);
    CutUsed(num, s);
    assert NoUnused(st[t.net]);
    match t.part {
      case Whole => WholeHolds(v, sign, |st[t.net]|);
      case Range(hi, lo) => RangeHolds(st[t.net], lo, v);
    }
  }

  lemma StoredApart(st: Storage, num: seq<Bit>, sign: Sign, s: Slot, t: Target, u: Target)
    requires Valid(st, t) && Valid(st, u) && Inside(num, s) && Apart(t, u)
    ensures var r := Stored(st, num, sign, s, t); Valid(r, u) && Read(r, u) == Read(st, u)
  {
    var r := Stored(st, num, sign, s, t);
    if t.net == u.net {
      var (a, b) := (t.part, u.part);
      forall k | 0 <= k < b.hi + 1 - b.lo ensures Read(r, u)[k] == Read(st, u)[k] {}
    }
  }

  lemma {:induction false} DistributedApart(st: Storage, num: seq<Bit>, sign: Sign, slots: seq<Slot>,
      targets: seq<Target>, u: Target)
    requires AllValid(st, num, slots, targets) && Valid(st, u) && forall i | 0 <= i < |targets| :: Apart(targets[i], u)
    ensures var r := Distributed(st, num, sign, slots, targets); Valid(r, u) && Read(r, u) == Read(st, u)
    decreases |slots|
  {
    hide Stored, Read, Apart, Inside;
    if slots != [] {
      var v := Stored(st, num, sign, slots[0], targets[0]);
      StoredApart(st, num, sign, slots[0], targets[0], u);
      ValidTail(st, num, slots, targets);
      StoredValid(st, v, num, slots[1..], targets[1..]);
      DistributedApart(v, num, sign, slots[1..], targets[1..], u);
    }
  }

  predicate PairwiseApart(targets: seq<Target>) {
    forall i, j | 0 <= i < j < |targets| :: Apart(targets[i], targets[j])
  }

  predicate SameSizes(st: Storage, num: seq<Bit>, slots: seq<Slot>, targets: seq<Target>)
    requires AllValid(st, num, slots, targets)
  {
    forall i | 0 <= i < |targets| ::
      assert Valid(st, targets[i]) && Inside(num, slots[i]); |Cut(num, slots[i])| == |Read(st, targets[i])|
  }

  lemma SizesKept(st: Storage, r: Storage, num: seq<Bit>, slots: seq<Slot>, targets: seq<Target>)
    requires AllValid(st, num, slots, targets) && SameSizes(st, num, slots, targets) && slots != []
    requires |r| == |st| && forall n | 0 <= n < |st| :: |r[n]| == |st[n]|
    ensures AllValid(r, num, slots[1..], targets[1..]) && SameSizes(r, num, slots[1..], targets[1..])
  {
    ValidTail(st, num, slots, targets);
    StoredValid(st, r, num, slots[1..], targets[1..]);
    forall i | 0 <= i < |targets| - 1
      ensures assert Valid(r, targets[1..][i]) && Inside(num, slots[1..][i]);
        |Cut(num, slots[1..][i])| == |Read(r, targets[1..][i])|
    {
      assert Valid(st, targets[i + 1]) && Inside(num, slots[i + 1]);
      assert |Cut(num, slots[i + 1])| == |Read(st, targets[i + 1])|;
    }
  }

  /** Every target receives its part, whatever is assigned after it. */
  lemma {:induction false} DistributedRead(st: Storage, num: seq<Bit>, sign: Sign, slots: seq<Slot>,
      targets: seq<Target>, i: nat)
    requires AllValid(st, num, slots, targets) && PairwiseApart(targets) && AllUsed(st) && NoUnused(num)
    requires i < |targets| && SameSizes(st, num, slots, targets)
    ensures var r := Distributed(st, num, sign, slots, targets);
      Valid(r, targets[i]) && Inside(num, slots[i]) && Read(r, targets[i]) == Cut(num, slots[i])
    decreases |slots|
  {
    hide Stored, Read, Apart, Inside, Cut, AllUsed, Valid, SameSizes;
    assert Valid(st, targets[0]) && Inside(num, slots[0]);
    assert |Cut(num, slots[0])| == |Read(st, targets[0])| by { SizeOf(st, num, slots, targets, 0); }
    var u := Stored(st, num, sign, slots[0], targets[0]);
    StoredRead(st, num, sign, slots[0], targets[0]);
    SizesKept(st, u, num, slots, targets);
    if i == 0 {
      forall j | 0 <= j < |targets| - 1 ensures Apart(targets[1..][j], targets[0]) {
        ApartSym(targets[0], targets[j + 1]);
      }
      DistributedApart(u, num, sign, slots[1..], targets[1..], targets[0]);
    } else {
      DistributedRead(u, num, sign, slots[1..], targets[1..], i - 1);
    }
  }

  lemma ApartSym(t: Target, u: Target)
    requires Apart(t, u)
    ensures Apart(u, t)
  {
  }

  lemma SizeOf(st: Storage, num: seq<Bit>, slots: seq<Slot>, targets: seq<Target>, i: nat)
    requires AllValid(st, num, slots, targets) && SameSizes(st, num, slots, targets) && i < |targets|
    ensures Valid(st, targets[i]) && Inside(num, slots[i]) && |Cut(num, slots[i])| == |Read(st, targets[i])|
  {
  }

  /** Assigning a concatenation to targets of the same sizes, no two of which
      share a bit, stores every element unchanged in its target and leaves all
      bits outside the targets alone. */
  lemma SplitInverse(st: Storage, vs: seq<seq<Bit>>, sign: Sign, targets: seq<Target>)
    requires |vs| == |targets| > 0 && PairwiseApart(targets) && AllUsed(st)
    requires forall i | 0 <= i < |vs| :: NoUnused(vs[i])
    requires forall i | 0 <= i < |vs| :: Valid(st, targets[i]) && |vs[i]| == |Read(st, targets[i])|
    ensures AllValid(st, Joined(vs), TargetSlots(Sizes(vs)), targets)
    ensures var r := Distributed(st, Joined(vs), sign, TargetSlots(Sizes(vs)), targets);
      (forall i | 0 <= i < |vs| :: Valid(r, targets[i]) && Read(r, targets[i]) == vs[i]) &&
      (forall u | Valid(st, u) && (forall i | 0 <= i < |targets| :: Apart(targets[i], u)) ::
        Valid(r, u) && Read(r, u) == Read(st, u))
  {
    hide Joined, Read, Apart, AllUsed, Distributed, SameSizes, TargetSlots;
    var num, slots := Joined(vs), TargetSlots(Sizes(vs));
    forall i | 0 <= i < |vs| ensures Inside(num, slots[i]) && Cut(num, slots[i]) == vs[i] {
      SlotHolds(st, vs, targets, i);
    }
    assert AllValid(st, num, slots, targets);
    SizesMatch(st, vs, num, slots, targets);
    JoinedUsed(vs);
    forall i | 0 <= i < |vs|
      ensures var r := Distributed(st, num, sign, slots, targets); Valid(r, targets[i]) && Read(r, targets[i]) == vs[i]
    {
      DistributedRead(st, num, sign, slots, targets, i);
    }
    forall u | Valid(st, u) && (forall i | 0 <= i < |targets| :: Apart(targets[i], u))
      ensures var r := Distributed(st, num, sign, slots, targets); Valid(r, u) && Read(r, u) == Read(st, u)
    {
      DistributedApart(st, num, sign, slots, targets, u);
    }
  }

  lemma SizesMatch(st: Storage, vs: seq<seq<Bit>>, num: seq<Bit>, slots: seq<Slot>, targets: seq<Target>)
    requires AllValid(st, num, slots, targets) && |vs| == |targets|
    requires forall i | 0 <= i < |vs| :: Valid(st, targets[i]) && |vs[i]| == |Read(st, targets[i])|
    requires forall i | 0 <= i < |vs| :: Inside(num, slots[i]) && Cut(num, slots[i]) == vs[i]
    ensures SameSizes(st, num, slots, targets)
  {
    hide Read, Cut;
  }

  lemma CleanUsed(v: seq<Bit>)
    requires NoUnused(v)
    ensures Clean(v) == v
  {
  }

  lemma {:induction false} JoinedUsed(vs: seq<seq<Bit>>)
    ensures NoUnused(Joined(vs))
  {
    if vs != [] { JoinedUsed(vs[1..]); }
  }

  /** The slot set up for target `i` holds exactly element `i`. */
  lemma SlotHolds(st: Storage, vs: seq<seq<Bit>>, targets: seq<Target>, i: nat)
    requires |vs| == |targets| && i < |vs| && NoUnused(vs[i])
    requires Valid(st, targets[i]) && |vs[i]| == |Read(st, targets[i])|
    ensures var num, s := Joined(vs), TargetSlots(Sizes(vs))[i]; Inside(num, s) && Cut(num, s) == vs[i]
  {
    hide Joined, Slots, NoUnused;
    CleanUsed(vs[i]);
    if |vs| == 1 {
      JoinedSingle(vs);
    } else {
      ElementInSlot(vs, i);
    }
  }

  lemma JoinedSingle(vs: seq<seq<Bit>>)
    requires |vs| == 1
    ensures Joined(vs) == Clean(vs[0])
  {
    assert Joined(vs[1..]) == [];
  }
}
