/** Unknown bits are treated soundly: settling an unknown input bit either way
    never changes a result bit that was already reported as 0 or 1. */
module Unknowns {
  import opened Logic
  import opened Numbers
  import opened Native
  import opened Arithmetic
  import opened Compare
  import opened Bitwise

  /** `b` is `a`, or a number bit that `a` left open. */
  predicate Settles(a: Bit, b: Bit) { a == b || ((a == DC || a == Z) && Known(b)) }

  predicate SettlesAll(s: seq<Bit>, t: seq<Bit>) {
    |s| == |t| && forall i | 0 <= i < |s| :: Settles(s[i], t[i])
  }

  /** What was reported as 0 or 1 stays. */
  predicate Keeps(a: Bit, b: Bit) { Known(a) ==> a == b }

  predicate KeepsAll(s: seq<Bit>, t: seq<Bit>) {
    |s| == |t| && forall i | 0 <= i < |s| :: Keeps(s[i], t[i])
  }

  lemma SettlesAt(s: seq<Bit>, t: seq<Bit>, i: nat)
    requires SettlesAll(s, t)
    ensures Settles(At(s, i), At(t, i))
  {
  }

  lemma ApplyKeeps(op: Op, a: Bit, b: Bit, x: Bit, y: Bit)
    requires Settles(a, x) && Settles(b, y)
    ensures Keeps(Apply(op, a, b), Apply(op, x, y))
  {
    match op {
      case AND => case NAND => case OR => case NOR => case XOR => case XNOR => case TERNARY =>
    }
  }

  lemma LogicKeeps(op: Op, l: seq<Bit>, r: seq<Bit>, l1: seq<Bit>, r1: seq<Bit>, n: nat)
    requires SettlesAll(l, l1) && SettlesAll(r, r1)
    ensures KeepsAll(LogicOut(op, l, r, n), LogicOut(op, l1, r1, n))
  {
    hide Apply, Settles, Keeps;
    forall i | 0 <= i < n ensures Keeps(Apply(op, At(l, i), At(r, i)), Apply(op, At(l1, i), At(r1, i))) {
      SettlesAt(l, l1, i);
      SettlesAt(r, r1, i);
      ApplyKeeps(op, At(l, i), At(r, i), At(l1, i), At(r1, i));
    }
  }

  /** A fold settles: it never yields Z or the unused marker. */
  lemma {:induction false} FoldedSettles(op: Op, s: seq<Bit>, t: seq<Bit>, k: nat)
    requires 2 <= k <= |s| && SettlesAll(s, t)
    requires forall i | 0 <= i < |s| :: s[i] != NVL
    ensures Settles(Folded(op, s, k), Folded(op, t, k)) && Folded(op, s, k) != NVL
  {
    hide Apply;
    assert Settles(s[0], t[0]) && Settles(s[1], t[1]) && Settles(s[k - 1], t[k - 1]);
    if k == 2 {
      ApplySettles(op, s[0], s[1], t[0], t[1]);
    } else {
      FoldedSettles(op, s, t, k - 1);
      ApplySettles(op, Folded(op, s, k - 1), s[k - 1], Folded(op, t, k - 1), t[k - 1]);
    }
  }

  lemma ApplySettles(op: Op, a: Bit, b: Bit, x: Bit, y: Bit)
    requires Settles(a, x) && Settles(b, y) && a != NVL && b != NVL
    ensures Settles(Apply(op, a, b), Apply(op, x, y)) && Apply(op, a, b) != NVL
  {
    match op {
      case AND => case NAND => case OR => case NOR => case XOR => case XNOR => case TERNARY =>
    }
  }

  lemma ReducedKeeps(op: Op, s: seq<Bit>, t: seq<Bit>)
    requires SettlesAll(s, t) && forall i | 0 <= i < |s| :: s[i] != NVL
    ensures Keeps(Reduced(op, s), Reduced(op, t))
  {
    if |s| == 1 {
      assert Settles(s[0], t[0]);
    } else if |s| > 1 {
      FoldedSettles(op, s, t, |s|);
    }
  }

  lemma SubKeeps(l: seq<Bit>, r: seq<Bit>, l1: seq<Bit>, r1: seq<Bit>, n: nat)
    requires SettlesAll(l, l1) && SettlesAll(r, r1)
    ensures KeepsAll(SubOut(l, r, n), SubOut(l1, r1, n))
  {
    hide Difference;
    if KnownBelow(l, n) && KnownBelow(r, n) {
      KnownStays(l, l1, n);
      KnownStays(r, r1, n);
      SameDifference(l, r, l1, r1, n);
    }
  }

  lemma KnownStays(s: seq<Bit>, t: seq<Bit>, n: nat)
    requires SettlesAll(s, t) && KnownBelow(s, n)
    ensures KnownBelow(t, n) && forall i | 0 <= i < n :: At(s, i) == At(t, i)
  {
    forall i | 0 <= i < |s| && i < n ensures s[i] == t[i] && Known(t[i]) { assert Settles(s[i], t[i]); }
  }

  lemma {:induction false} SameDifference(l: seq<Bit>, r: seq<Bit>, l1: seq<Bit>, r1: seq<Bit>, n: nat)
    requires forall i | 0 <= i < n :: At(l, i) == At(l1, i) && At(r, i) == At(r1, i)
    ensures Difference(l, r, n) == Difference(l1, r1, n)
  {
    hide Borrow;
    if n > 0 { SameDifference(l, r, l1, r1, n - 1); }
  }

  lemma CopiedKeeps(o: seq<Bit>, l: seq<Bit>, r: seq<Bit>, l1: seq<Bit>, r1: seq<Bit>, i: nat)
    requires SettlesAll(l, l1) && |r| == |r1| && i <= |o|
    ensures KeepsAll(Copied(o, l, r, i), Copied(o, l1, r1, i))
  {
    if |l| > |r| && i <= |l| <= |o| {
      forall k | 0 <= k < |o| - i ensures Keeps(Copied(o, l, r, i)[k], Copied(o, l1, r1, i)[k]) {
        if i + k < |l| { assert Settles(l[i + k], l1[i + k]); }
      }
    }
  }

  /** Once unknown, the whole sum is unknown; otherwise both runs agree as far
      as the first one knew. */
  predicate TailKeeps(s: Tail, t: Tail) {
    s.Rest? ==> t.Rest? && KeepsAll(s.bits, t.bits)
  }

  lemma {:induction false} AddFromKeeps(o: seq<Bit>, l: seq<Bit>, r: seq<Bit>, l1: seq<Bit>, r1: seq<Bit>, i: nat,
      c: nat)
    requires SettlesAll(l, l1) && SettlesAll(r, r1) && i <= |o| && c <= 1
    ensures TailKeeps(AddFrom(o, l, r, i, c), AddFrom(o, l1, r1, i, c))
    decreases |o| - i
  {
    hide Carry, Copied, SettlesAll;
    SettledWidths(l, l1);
    SettledWidths(r, r1);
    SettlesAt(l, l1, i);
    SettlesAt(r, r1, i);
    if i == |o| {
    } else if i >= |r| && c == 0 {
      CopiedKeeps(o, l, r, l1, r1, i);
    } else if !Known(At(r, i)) {
    } else if i >= |l| && c == 0 {
      CopiedKeeps(o, r, l, r1, l1, i);
    } else if Known(At(l, i)) {
      var s := Carry(B(At(l, i)), B(At(r, i)), c);
      AddFromKeeps(o, l, r, l1, r1, i + 1, s.1);
    }
  }

  lemma SettledWidths(s: seq<Bit>, t: seq<Bit>)
    requires SettlesAll(s, t)
    ensures |s| == |t|
  {
  }

  lemma AddKeeps(o: seq<Bit>, l: seq<Bit>, r: seq<Bit>, l1: seq<Bit>, r1: seq<Bit>)
    requires SettlesAll(l, l1) && SettlesAll(r, r1)
    ensures KeepsAll(AddOut(o, l, r), AddOut(o, l1, r1))
  {
    hide AddFrom, SettlesAll;
    AddFromKeeps(o, l, r, l1, r1, 0, 0);
  }

  lemma {:induction false} ScanKeeps(l: seq<Bit>, r: seq<Bit>, l1: seq<Bit>, r1: seq<Bit>, k: nat)
    requires SettlesAll(l, l1) && SettlesAll(r, r1)
    ensures Keeps(Scan(l, r, k), Scan(l1, r1, k))
  {
    if k > 0 {
      SettlesAt(l, l1, k - 1);
      SettlesAt(r, r1, k - 1);
      ScanKeeps(l, r, l1, r1, k - 1);
    }
  }

  lemma LessKeeps(l: seq<Bit>, r: seq<Bit>, l1: seq<Bit>, r1: seq<Bit>)
    requires l != [] && r != [] && SettlesAll(l, l1) && SettlesAll(r, r1)
    ensures Keeps(Less(l, Unsigned, r, Unsigned), Less(l1, Unsigned, r1, Unsigned))
  {
    ScanKeeps(l, r, l1, r1, Max(|l|, |r|));
  }

  lemma {:induction false} SameKeeps(l: seq<Bit>, r: seq<Bit>, l1: seq<Bit>, r1: seq<Bit>, i: nat)
    requires |l| == |r| && i <= |l| && SettlesAll(l, l1) && SettlesAll(r, r1)
    ensures Keeps(SameFrom(l, r, i), SameFrom(l1, r1, i))
    decreases |l| - i
  {
    if i < |l| {
      assert Settles(l[i], l1[i]) && Settles(r[i], r1[i]);
      SameKeeps(l, r, l1, r1, i + 1);
    }
  }

  lemma EqualKeeps(l: seq<Bit>, r: seq<Bit>, l1: seq<Bit>, r1: seq<Bit>)
    requires l != [] && r != [] && SettlesAll(l, l1) && SettlesAll(r, r1)
    ensures Keeps(Equal(l, Unsigned, r, Unsigned), Equal(l1, Unsigned, r1, Unsigned))
  {
    hide SameFrom;
    var n := Max(|l|, |r|);
    ExtendSettles(l, l1, n);
    ExtendSettles(r, r1, n);
    SameKeeps(Extend(l, LO, n), Extend(r, LO, n), Extend(l1, LO, n), Extend(r1, LO, n), 0);
  }

  lemma ExtendSettles(s: seq<Bit>, t: seq<Bit>, n: nat)
    requires SettlesAll(s, t)
    ensures SettlesAll(Extend(s, LO, n), Extend(t, LO, n))
  {
  }

  /** The merge of two branches is below both. */
  lemma MergeBelow(t: seq<Bit>, f: seq<Bit>, n: nat)
    requires t != [] && f != []
    ensures var m := LogicOut(TERNARY, t, f, n);
      KeepsAll(m, Assigned(t, Unsigned, n)) && KeepsAll(m, Assigned(f, Unsigned, n))
  {
  }

  /** The conditional operator as a whole, over unsigned vectors. */
  lemma ChosenKeeps(c: seq<Bit>, t: seq<Bit>, f: seq<Bit>, c1: seq<Bit>, t1: seq<Bit>, f1: seq<Bit>, n: nat)
    requires c != [] && t != [] && f != [] && SettlesAll(c, c1) && SettlesAll(t, t1) && SettlesAll(f, f1)
    ensures KeepsAll(Chosen(c, Unsigned, t, Unsigned, f, Unsigned, n),
      Chosen(c1, Unsigned, t1, Unsigned, f1, Unsigned, n))
  {
    hide Less, LogicOut, Extend;
    LessKeeps([LO], c, [LO], c1);
    LogicKeeps(TERNARY, t, f, t1, f1, n);
    MergeBelow(t1, f1, n);
    AssignedKeeps(t, t1, Unsigned, n);
    AssignedKeeps(f, f1, Unsigned, n);
    KeepsTrans(LogicOut(TERNARY, t, f, n), LogicOut(TERNARY, t1, f1, n), Assigned(t1, Unsigned, n));
    KeepsTrans(LogicOut(TERNARY, t, f, n), LogicOut(TERNARY, t1, f1, n), Assigned(f1, Unsigned, n));
  }

  lemma AssignedKeeps(s: seq<Bit>, t: seq<Bit>, sign: Sign, n: nat)
    requires s != [] && SettlesAll(s, t)
    ensures KeepsAll(Assigned(s, sign, n), Assigned(t, sign, n))
  {
    assert Settles(s[|s| - 1], t[|s| - 1]);
    forall i | 0 <= i < |s| ensures Keeps(s[i], t[i]) { assert Settles(s[i], t[i]); }
  }

  lemma KeepsTrans(s: seq<Bit>, t: seq<Bit>, u: seq<Bit>)
    requires KeepsAll(s, t) && KeepsAll(t, u)
    ensures KeepsAll(s, u)
  {
    forall i | 0 <= i < |s| ensures Keeps(s[i], u[i]) {
      assert Keeps(s[i], t[i]) && Keeps(t[i], u[i]);
    }
  }

  // ----- signed branches -----

  /** Branch `t` is extended by its sign, the merge by 0: that does not matter
      where the other branch makes the merge unknown. */
  predicate SideOk(t: seq<Bit>, ts: Sign, f: seq<Bit>, n: nat)
    requires t != []
  {
    ts == Signed ==> t[|t| - 1] == LO || forall i | |t| <= i < n :: At(f, i) != LO
  }

  lemma MergeBelowSide(t: seq<Bit>, ts: Sign, f: seq<Bit>, n: nat)
    requires t != [] && f != []
    ensures KeepsAll(LogicOut(TERNARY, t, f, n), Assigned(t, ts, n)) <==> SideOk(t, ts, f, n)
    ensures KeepsAll(LogicOut(TERNARY, f, t, n), Assigned(t, ts, n)) <==> SideOk(t, ts, f, n)
  {
    var m, k, a := LogicOut(TERNARY, t, f, n), LogicOut(TERNARY, f, t, n), Assigned(t, ts, n);
    if SideOk(t, ts, f, n) {
      forall i | 0 <= i < n ensures Keeps(m[i], a[i]) && Keeps(k[i], a[i]) {}
    } else {
      var i :| |t| <= i < n && At(f, i) == LO;
      assert m[i] == LO && k[i] == LO && a[i] == t[|t| - 1];
    }
  }

  /** The merge is below both branches, whatever their signs and widths, exactly
      when neither is extended with something else than 0 beside a 0 of the
      other one. */
  lemma MergeBelowExact(t: seq<Bit>, ts: Sign, f: seq<Bit>, fs: Sign, n: nat)
    requires t != [] && f != []
    ensures var m := LogicOut(TERNARY, t, f, n);
      KeepsAll(m, Assigned(t, ts, n)) && KeepsAll(m, Assigned(f, fs, n)) <==> SideOk(t, ts, f, n) && SideOk(f, fs, t, n)
  {
    hide LogicOut, Extend, SideOk;
    MergeBelowSide(t, ts, f, n);
    MergeBelowSide(f, fs, t, n);
  }

  /** The same for branches whose unknown bits are settled afterwards. */
  lemma MergeSettled(t: seq<Bit>, ts: Sign, f: seq<Bit>, t1: seq<Bit>, n: nat)
    requires t != [] && f != [] && SettlesAll(t, t1) && SideOk(t, ts, f, n)
    ensures KeepsAll(LogicOut(TERNARY, t, f, n), Assigned(t1, ts, n))
    ensures KeepsAll(LogicOut(TERNARY, f, t, n), Assigned(t1, ts, n))
  {
    var m, k, a := LogicOut(TERNARY, t, f, n), LogicOut(TERNARY, f, t, n), Assigned(t1, ts, n);
    assert Settles(t[|t| - 1], t1[|t| - 1]);
    forall i | 0 <= i < n ensures Keeps(m[i], a[i]) && Keeps(k[i], a[i]) {
      if i < |t| { assert Settles(t[i], t1[i]); }
    }
  }

  /** No way of settling condition and branches changes a known bit. */
  ghost predicate Sound(c: seq<Bit>, t: seq<Bit>, ts: Sign, f: seq<Bit>, fs: Sign, n: nat)
    requires c != [] && t != [] && f != []
  {
    forall c1, t1, f1 | SettlesAll(c, c1) && SettlesAll(t, t1) && SettlesAll(f, f1) ::
      KeepsAll(Chosen(c, Unsigned, t, ts, f, fs, n), Chosen(c1, Unsigned, t1, ts, f1, fs, n))
  }

  /** The condition is reported as neither true nor false. */
  predicate Undecided(c: seq<Bit>)
    requires c != []
  {
    var b := Less([LO], Unsigned, c, Unsigned);
    b != LO && b != HI
  }

  predicate NoOne(c: seq<Bit>) { forall i | 0 <= i < |c| :: c[i] != HI }

  lemma {:induction false} ScanZero(c: seq<Bit>, k: nat)
    requires Scan([LO], c, k) == LO
    ensures forall i | 0 <= i < k :: At(c, i) == LO
  {
    if k > 0 { ScanZero(c, k - 1); }
  }

  lemma FalseMeansZero(c: seq<Bit>)
    requires c != [] && Less([LO], Unsigned, c, Unsigned) == LO
    ensures NoOne(c)
  {
    ScanZero(c, Max(1, |c|));
    forall i | 0 <= i < |c| ensures c[i] != HI { assert At(c, i) == LO; }
  }

  lemma TruthOfKnown(c: seq<Bit>)
    requires c != [] && AllKnown(c)
    ensures Less([LO], Unsigned, c, Unsigned) == if NoOne(c) then LO else HI
  {
    hide Val, Less;
    ZeroVal();
    ValZero(c);
    assert AllKnown([LO]) && !Negative([LO], Unsigned);
    LessPlain([LO], Unsigned, c, Unsigned);
  }

  /** Unknown bits settled to 1, or to 0. */
  function SettledTo(c: seq<Bit>, b: Bit): (t: seq<Bit>)
    ensures |t| == |c|
  {
    seq(|c|, i requires 0 <= i < |c| => if Known(c[i]) then c[i] else b)
  }

  lemma SettledToOk(c: seq<Bit>, b: Bit)
    requires Known(b) && forall i | 0 <= i < |c| :: c[i] != NVL
    ensures SettlesAll(c, SettledTo(c, b)) && AllKnown(SettledTo(c, b))
    ensures b == LO && NoOne(c) ==> NoOne(SettledTo(c, b))
    ensures b == HI && !AllKnown(c) ==> !NoOne(SettledTo(c, b))
  {
    var t := SettledTo(c, b);
    forall i | 0 <= i < |c| ensures Settles(c[i], t[i]) && Known(t[i]) { assert c[i] != NVL; }
    if b == HI && !AllKnown(c) {
      var i :| 0 <= i < |c| && !Known(c[i]);
      assert t[i] == HI;
    }
  }

  lemma SettlesSelf(s: seq<Bit>)
    ensures SettlesAll(s, s)
  {
  }

  /** Where the merge may be taken for one of the branches. */
  predicate BranchesOk(c: seq<Bit>, t: seq<Bit>, ts: Sign, f: seq<Bit>, fs: Sign, n: nat)
    requires c != [] && t != [] && f != []
  {
    Undecided(c) ==> SideOk(t, ts, f, n) && (NoOne(c) ==> SideOk(f, fs, t, n))
  }

  lemma DecidedSettled(c: seq<Bit>, t: seq<Bit>, ts: Sign, f: seq<Bit>, fs: Sign, n: nat,
                       c1: seq<Bit>, t1: seq<Bit>, f1: seq<Bit>)
    requires c != [] && t != [] && f != [] && !Undecided(c)
    requires SettlesAll(c, c1) && SettlesAll(t, t1) && SettlesAll(f, f1)
    ensures KeepsAll(Chosen(c, Unsigned, t, ts, f, fs, n), Chosen(c1, Unsigned, t1, ts, f1, fs, n))
  {
    hide Less, LogicOut, Assigned, KeepsAll;
    SettlesSelf([LO]);
    LessKeeps([LO], c, [LO], c1);
    AssignedKeeps(t, t1, ts, n);
    AssignedKeeps(f, f1, fs, n);
  }

  lemma ChosenSettled(c: seq<Bit>, t: seq<Bit>, ts: Sign, f: seq<Bit>, fs: Sign, n: nat,
                      c1: seq<Bit>, t1: seq<Bit>, f1: seq<Bit>)
    requires c != [] && t != [] && f != [] && Undecided(c) && BranchesOk(c, t, ts, f, fs, n)
    requires SettlesAll(c, c1) && SettlesAll(t, t1) && SettlesAll(f, f1)
    ensures KeepsAll(Chosen(c, Unsigned, t, ts, f, fs, n), Chosen(c1, Unsigned, t1, ts, f1, fs, n))
  {
    hide Less, LogicOut, Assigned, SideOk, SettlesAll, KeepsAll, Extend;
    SettledWidths(c, c1);
    SettledWidths(t, t1);
    SettledWidths(f, f1);
    match Less([LO], Unsigned, c1, Unsigned) {
      case LO =>
        FalseMeansZero(c1);
        NoOneBefore(c, c1);
        MergeSettled(f, fs, t, f1, n);
      case HI => MergeSettled(t, ts, f, t1, n);
      case DC => LogicKeeps(TERNARY, t, f, t1, f1, n);
      case Z => LogicKeeps(TERNARY, t, f, t1, f1, n);
      case NVL => LogicKeeps(TERNARY, t, f, t1, f1, n);
    }
  }

  lemma NoOneBefore(c: seq<Bit>, c1: seq<Bit>)
    requires SettlesAll(c, c1) && NoOne(c1)
    ensures NoOne(c)
  {
    forall i | 0 <= i < |c| ensures c[i] != HI { assert Settles(c[i], c1[i]) && c1[i] != HI; }
  }

  /** The conditional operator treats unknown bits soundly exactly when its
      condition is decided, or the first branch and, if the condition may still
      turn out 0, the second one are not extended with something else than 0
      beside a 0 of the other. */
  lemma ChosenKeepsExact(c: seq<Bit>, t: seq<Bit>, ts: Sign, f: seq<Bit>, fs: Sign, n: nat)
    requires c != [] && t != [] && f != [] && forall i | 0 <= i < |c| :: c[i] != NVL
    ensures Sound(c, t, ts, f, fs, n) <==> BranchesOk(c, t, ts, f, fs, n)
  {
    hide Less, LogicOut, Assigned, SideOk, KeepsAll, NoOne, AllKnown, Chosen, Undecided;
    if BranchesOk(c, t, ts, f, fs, n) {
      forall c1, t1, f1 | SettlesAll(c, c1) && SettlesAll(t, t1) && SettlesAll(f, f1)
        ensures KeepsAll(Chosen(c, Unsigned, t, ts, f, fs, n), Chosen(c1, Unsigned, t1, ts, f1, fs, n)) {
        if Undecided(c) {
          ChosenSettled(c, t, ts, f, fs, n, c1, t1, f1);
        } else {
          DecidedSettled(c, t, ts, f, fs, n, c1, t1, f1);
        }
      }
    } else if Sound(c, t, ts, f, fs, n) {
      SoundNeeds(c, t, ts, f, fs, n, HI);
      SoundNeeds(c, t, ts, f, fs, n, LO);
      MergeBelowSide(t, ts, f, n);
      MergeBelowSide(f, fs, t, n);
    }
  }

  /** What soundness says about settling the condition to 1 or to 0. */
  lemma SoundNeeds(c: seq<Bit>, t: seq<Bit>, ts: Sign, f: seq<Bit>, fs: Sign, n: nat, b: Bit)
    requires c != [] && t != [] && f != [] && Undecided(c) && forall i | 0 <= i < |c| :: c[i] != NVL
    requires Sound(c, t, ts, f, fs, n) && Known(b)
    ensures b == HI ==> KeepsAll(LogicOut(TERNARY, t, f, n), Assigned(t, ts, n))
    ensures b == LO && NoOne(c) ==> KeepsAll(LogicOut(TERNARY, t, f, n), Assigned(f, fs, n))
  {
    hide Less, LogicOut, Assigned, SettlesAll, KeepsAll, NoOne, AllKnown, SettledTo;
    if AllKnown(c) { TruthOfKnown(c); }
    var c1 := SettledTo(c, b);
    SettledToOk(c, b);
    TruthOfKnown(c1);
    SettlesSelf(t);
    SettlesSelf(f);
    assert KeepsAll(Chosen(c, Unsigned, t, ts, f, fs, n), Chosen(c1, Unsigned, t, ts, f, fs, n));
    assert Chosen(c, Unsigned, t, ts, f, fs, n) == LogicOut(TERNARY, t, f, n);
  }

  /** A witness: settling the condition changes a bit that was reported as 0. */
  lemma SignedMergeUnsound()
    ensures var t, f := [HI], [HI, LO];
      Chosen([DC], Unsigned, t, Signed, f, Unsigned, 2) == [HI, LO] &&
      Chosen([HI], Unsigned, t, Signed, f, Unsigned, 2) == [HI, HI]
  {
    var t, f := [HI], [HI, LO];
    assert Scan([LO], [DC], 1) == DC;
    assert Scan([LO], [HI], 1) == HI;
    assert LogicOut(TERNARY, t, f, 2) == [HI, LO];
    assert Assigned(t, Signed, 2) == [HI, HI];
  }
}
