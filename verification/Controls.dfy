/** Statements with controls of their own under ifs, cases and loops. */
module Controls {
  import opened Program
  import opened Machine
  import opened Shape
  import opened Refinement
  import opened Restarts
  import opened Branches
  import opened Excursions

  // ----- the way to the branch -----

  /** Where a trigger of a nest of ifs and cases gets to, if the controls of
      `armed` have elapsed: it arms the next control, or passes all of them and
      reaches a statement. Controls it passes are no longer armed. */
  datatype Walked = Stops(at: Stmt, armed: set<nat>) | Reaches(leaf: Stmt, armed: set<nat>)

  function Walk(d: Design, c: Stmt, armed: set<nat>, store: Store): (v: Walked)
    ensures v.Stops? ==> !v.at.dec.Free?
    ensures v.Reaches? ==> !v.leaf.If? && !v.leaf.Case?
    decreases c
  {
    if !c.dec.Free? && c.id !in armed then Stops(c, armed)
    else
      var rest := if c.dec.Free? then armed else armed - {c.id};
      if c.If? || c.Case? then Walk(d, Children(c)[Picked(d, c, store)], rest, store) else Reaches(c, rest)
  }

  /** What it may reach: a block, or something that cannot wait. */
  ghost predicate Leafy(d: Design, t: Stmt) {
    (t.Block? && Item(d, t)) || t.Null? || t.NonBlocking? || (t.Assign? && t.store.Free?) || Still(t)
  }

  ghost predicate Nest(d: Design, c: Stmt)
    decreases c
  {
    var cs := Children(c);
    if c.If? || c.Case? then forall i | 0 <= i < |cs| :: Nest(d, cs[i]) else Leafy(d, c)
  }

  /** Everything in `c` is idle, except that the controls of `armed` are armed. */
  ghost predicate Flags(m: State, c: Stmt, armed: set<nat>) {
    forall x | x in Ids(c) :: Idle(Of(m, x).(armed := false)) && (Of(m, x).armed <==> x in armed)
  }

  lemma {:induction false} WalkInside(d: Design, c: Stmt, armed: set<nat>, store: Store)
    requires Unique(c)
    ensures var v := Walk(d, c, armed, store);
      v.armed <= armed && (forall x | x in armed && x !in Ids(c) :: x in v.armed) &&
      if v.Stops? then v.at.id in Ids(c) && v.at.id !in v.armed
      else
        Unique(v.leaf) && Ids(v.leaf) <= Ids(c) && Size(v.leaf) <= Size(c) &&
        (v.leaf != c ==> Ids(v.leaf) <= Kids(c)) &&
        (v.leaf.dec.Free? || v.leaf.id !in v.armed)
    decreases c
  {
    hide Picked;
    SelfId(c);
    if (c.dec.Free? || c.id in armed) && (c.If? || c.Case?) {
      var i := Picked(d, c, store);
      IdsChild(c, i);
      ApartFromChild(c, i);
      hide Ids, Size, Unique;
      WalkInside(d, Children(c)[i], if c.dec.Free? then armed else armed - {c.id}, store);
    }
  }

  lemma {:induction false} NestLeaf(d: Design, c: Stmt, armed: set<nat>, store: Store)
    requires Nest(d, c)
    ensures var v := Walk(d, c, armed, store); v.Reaches? ==> Leafy(d, v.leaf)
    decreases c
  {
    hide Picked, Leafy;
    if (c.dec.Free? || c.id in armed) && (c.If? || c.Case?) {
      NestLeaf(d, Children(c)[Picked(d, c, store)], if c.dec.Free? then armed else armed - {c.id}, store);
    }
  }

  /** Only controls on the way to the branches are armed. */
  predicate Controlled(c: Stmt, armed: set<nat>)
    decreases c
  {
    var cs := Children(c);
    (c.dec.Free? ==> c.id !in armed) &&
    if c.If? || c.Case? then forall i | 0 <= i < |cs| :: Controlled(cs[i], armed) else Ids(c) * armed <= {c.id}
  }

  lemma {:induction false} ControlledLess(c: Stmt, armed: set<nat>, less: set<nat>)
    requires Controlled(c, armed) && forall x | x in less && x in Ids(c) :: x in armed
    ensures Controlled(c, less)
    decreases c
  {
    SelfId(c);
    if c.If? || c.Case? {
      forall i | 0 <= i < |Children(c)| ensures Controlled(Children(c)[i], less) {
        IdsChild(c, i);
        hide Ids;
        ControlledLess(Children(c)[i], armed, less);
      }
    }
  }

  /** What a trigger leaves armed are controls again. */
  lemma {:induction false} WalkControlled(d: Design, c: Stmt, armed: set<nat>, store: Store)
    requires Unique(c) && Controlled(c, armed)
    ensures var v := Walk(d, c, armed, store);
      Controlled(c, if v.Stops? then v.armed + {v.at.id} else v.armed) && (v.Reaches? ==> v.leaf.id !in v.armed)
    decreases c
  {
    hide Picked;
    var v := Walk(d, c, armed, store);
    WalkInside(d, c, armed, store);
    if !c.dec.Free? && c.id !in armed {
      ControlledSelf(c, armed, armed + {c.id});
    } else if c.If? || c.Case? {
      var i := Picked(d, c, store);
      var rest := if c.dec.Free? then armed else armed - {c.id};
      ControlledLess(c, armed, rest);
      WalkControlled(d, Children(c)[i], rest, store);
      IdsChild(c, i);
      WalkInside(d, Children(c)[i], rest, store);
      ControlledChild(c, i, rest, if v.Stops? then v.armed + {v.at.id} else v.armed);
    } else {
      ControlledLess(c, armed, v.armed);
    }
  }

  lemma ControlledSelf(c: Stmt, armed: set<nat>, more: set<nat>)
    requires Unique(c) && Controlled(c, armed) && !c.dec.Free? && more == armed + {c.id}
    ensures Controlled(c, more)
  {
    if c.If? || c.Case? {
      forall i | 0 <= i < |Children(c)| ensures Controlled(Children(c)[i], more) {
        ApartFromChild(c, i);
        hide Ids, Unique;
        ControlledLess(Children(c)[i], armed, more);
      }
    }
  }

  lemma ControlledChild(c: Stmt, i: nat, rest: set<nat>, after: set<nat>)
    requires Unique(c) && (c.If? || c.Case?) && Controlled(c, rest) && i < |Children(c)| &&
      Controlled(Children(c)[i], after)
    requires forall x | x !in Ids(Children(c)[i]) :: x in after ==> x in rest
    ensures Controlled(c, after)
  {
    hide Ids, Unique;
    ApartFromChild(c, i);
    forall j | 0 <= j < |Children(c)| ensures Controlled(Children(c)[j], after) {
      if j != i {
        ChildrenApart(c, i, j);
        ControlledLess(Children(c)[j], rest, after);
      }
    }
  }

  // ----- the machine goes that way -----

  lemma FlagsChild(m: State, c: Stmt, i: nat, armed: set<nat>)
    requires Flags(m, c, armed) && i < |Children(c)|
    ensures Flags(m, Children(c)[i], armed)
  {
    IdsChild(c, i);
    hide Ids;
  }

  lemma FlagsPassed(m: State, c: Stmt, armed: set<nat>)
    requires Flags(m, c, armed) && Controlled(c, armed)
    ensures Flags(Unarmed(m, c), c, if c.dec.Free? then armed else armed - {c.id})
    ensures SameOff(m, Unarmed(m, c), Ids(c))
  {
    SelfId(c);
    hide Ids, Controlled;
  }

  lemma FlagsWider(m: State, p: State, c: Stmt, i: nat, rest: set<nat>, after: set<nat>)
    requires i < |Children(c)| && Flags(m, c, rest) && Flags(p, Children(c)[i], after) &&
      SameOff(m, p, Ids(Children(c)[i]))
    requires forall x | x !in Ids(Children(c)[i]) :: x in after <==> x in rest
    ensures Flags(p, c, after) && SameOff(m, p, Ids(c))
  {
    OffWider(m, p, c, i);
    hide Ids;
  }

  lemma StopsHere(d: Design, c: Stmt, armed: set<nat>, m: State)
    requires Flags(m, c, armed) && !c.dec.Free? && c.id !in armed
    ensures var p := Set(m, c.id, Of(m, c.id).(armed := true));
      Flags(p, c, armed + {c.id}) && Trigger(d, c, m) == Result(Arm(d, c.dec, p), Delayed) && SameOff(m, p, Ids(c)) &&
      p == m.(fields := p.fields)
  {
    SelfId(c);
    hide Ids, Act, Arm;
  }

  lemma PassesHere(d: Design, c: Stmt, armed: set<nat>, m: State)
    requires Flags(m, c, armed) && (c.dec.Free? || c.id in armed)
    ensures Trigger(d, c, m) == Act(d, c, Unarmed(m, c)) && Unarmed(m, c) == m.(fields := Unarmed(m, c).fields)
  {
    SelfId(c);
    hide Ids, Act;
  }

  lemma BranchTriggers(d: Design, c: Stmt, p: State)
    requires c.If? || c.Case?
    ensures Act(d, c, p) == Trigger(d, Children(c)[Picked(d, c, p.world.store)], p)
  {
    hide Trigger, Picked;
  }

  lemma ControlledDown(c: Stmt, i: nat, armed: set<nat>, rest: set<nat>)
    requires Controlled(c, armed) && (c.If? || c.Case?) && i < |Children(c)| && rest <= armed
    ensures Controlled(Children(c)[i], rest)
  {
    hide Ids;
    ControlledLess(Children(c)[i], armed, rest);
  }

  lemma {:induction false} WalkTriggers(d: Design, c: Stmt, armed: set<nat>, m: State) returns (p: State)
    requires Unique(c) && Controlled(c, armed) && Flags(m, c, armed)
    ensures p == m.(fields := p.fields) && SameOff(m, p, Ids(c))
    ensures var v := Walk(d, c, armed, m.world.store);
      if v.Stops? then
        Flags(p, c, v.armed + {v.at.id}) && Trigger(d, c, m) == Result(Arm(d, v.at.dec, p), Delayed)
      else
        Flags(p, c, v.armed) && Trigger(d, c, m) == Act(d, v.leaf, p)
    decreases c
  {
    hide Act, Picked, Arm, Controlled, Set;
    SelfId(c);
    if !c.dec.Free? && c.id !in armed {
      p := Set(m, c.id, Of(m, c.id).(armed := true));
      StopsHere(d, c, armed, m);
    } else {
      p := Unarmed(m, c);
      FlagsPassed(m, c, armed);
      PassesHere(d, c, armed, m);
      if c.If? || c.Case? {
        var i := Picked(d, c, m.world.store);
        var rest := if c.dec.Free? then armed else armed - {c.id};
        IdsChild(c, i);
        FlagsChild(p, c, i, rest);
        ControlledDown(c, i, armed, rest);
        var q := WalkTriggers(d, Children(c)[i], rest, p);
        WalkInside(d, Children(c)[i], rest, m.world.store);
        var v := Walk(d, c, armed, m.world.store);
        BranchTriggers(d, c, p);
        FlagsWider(p, q, c, i, rest, if v.Stops? then v.armed + {v.at.id} else v.armed);
        p := q;
      }
    }
  }

  // ----- at the branch -----

  /** The process is at position `k`, where the controls of `armed` in `c` are armed. */
  ghost predicate Posed(d: Design, a: Stmt, k: nat, c: Stmt, armed: set<nat>, m: State) {
    Around(d, a, k) && At(m, a, k, armed) && Flags(m, c, armed) && armed <= Ids(c) && Within(d, a, k, c, armed)
  }

  /** `c` is what stands at position `k`, or the body of the loop there. */
  ghost predicate Within(d: Design, a: Stmt, k: nat, c: Stmt, armed: set<nat>) {
    a.Block? && k < |a.items| && Unique(c) && Nest(d, c) && Controlled(c, armed) && Ids(c) <= Ids(a.items[k]) &&
    Size(c) < Size(a)
  }

  lemma PosedWalk(d: Design, a: Stmt, k: nat, c: Stmt, armed: set<nat>, m: State) returns (p: State)
    requires Posed(d, a, k, c, armed, m)
    ensures p == m.(fields := p.fields) && SameOff(m, p, Ids(c))
    ensures var v := Walk(d, c, armed, m.world.store);
      var after := if v.Stops? then v.armed + {v.at.id} else v.armed;
      Posed(d, a, k, c, after, p) &&
      Trigger(d, c, m) == if v.Stops? then Result(Arm(d, v.at.dec, p), Delayed) else Act(d, v.leaf, p)
  {
    hide Act, Arm, Controlled, Nest, Unique, Ids, Around, Size, Clean, Flags;
    p := WalkTriggers(d, c, armed, m);
    WalkInside(d, c, armed, m.world.store);
    WalkControlled(d, c, armed, m.world.store);
    var v := Walk(d, c, armed, m.world.store);
    var after := if v.Stops? then v.armed + {v.at.id} else v.armed;
    AroundId(d, a, k);
    AtOther(m, p, a, k, c, armed, after);
  }

  lemma AtOther(m: State, p: State, a: Stmt, k: nat, c: Stmt, armed: set<nat>, after: set<nat>)
    requires At(m, a, k, armed) && p == m.(fields := p.fields) && SameOff(m, p, Ids(c)) && Flags(p, c, after)
    requires armed <= Ids(c) && a.id !in Ids(c)
    ensures At(p, a, k, after)
  {
    hide Ids;
    forall x | x in Kids(a) - after ensures Idle(Of(p, x)) {
      if x in Ids(c) {
        assert Idle(Of(p, x).(armed := false)) && !Of(p, x).armed;
      } else {
        assert Of(p, x) == Of(m, x);
      }
    }
  }

  /** The statement a trigger has reached is idle. */
  lemma LeafIdle(d: Design, a: Stmt, k: nat, c: Stmt, armed: set<nat>, store: Store, p: State)
    requires Within(d, a, k, c, armed) && Walk(d, c, armed, store).Reaches?
    requires var v := Walk(d, c, armed, store); Flags(p, c, v.armed)
    ensures var v := Walk(d, c, armed, store);
      Clean(p, Ids(v.leaf)) && Ids(v.leaf) !! v.armed && Leafy(d, v.leaf) && Unique(v.leaf) && Ids(v.leaf) <= Ids(c) &&
      Size(v.leaf) < Size(a)
  {
    hide Controlled, Nest, Leafy, Unique, Size;
    WalkInside(d, c, armed, store);
    WalkControlled(d, c, armed, store);
    NestLeaf(d, c, armed, store);
    LeafApart(d, c, armed, store);
    hide Ids;
  }

  lemma {:induction false} LeafApart(d: Design, c: Stmt, armed: set<nat>, store: Store)
    requires Unique(c) && Controlled(c, armed) && Walk(d, c, armed, store).Reaches?
    ensures var v := Walk(d, c, armed, store); Ids(v.leaf) !! v.armed
    decreases c
  {
    hide Picked;
    WalkInside(d, c, armed, store);
    if c.If? || c.Case? {
      var i := Picked(d, c, store);
      var rest := if c.dec.Free? then armed else armed - {c.id};
      hide Ids, Unique;
      IdsChild(c, i);
      ControlledDown(c, i, armed, rest);
      LeafApart(d, Children(c)[i], rest, store);
    }
  }

  /** It runs to its end, or it is a block and waits inside. */
  lemma LeafActs(d: Design, t: Stmt, p: State)
    requires Leafy(d, t) && Unique(t) && Clean(p, Ids(t)) && !t.If? && !t.Case?
    ensures var r := Act(d, t, p);
      var o := Body(d, t, p.world);
      match r.status
      case Done => o == Fin(r.m.world, false) && Quiet(p, r.m, Ids(t))
      case Bound => o == Cut(r.m.world)
      case Delayed => t.Block? && Item(d, t) && (o.Fin? ==> o.paused) && SameOff(p, r.m, Ids(t))
      case Stuck => false
  {
    hide Ids, Act, Body, Unique, Still, Item, Suspended;
    SelfId(t);
    if t.Null? || t.NonBlocking? {
      SimpleOk(d, t, p);
      SimpleDone(d, t, p);
    } else if t.Assign? && t.store.Free? {
      AssignOk(d, t, p);
      SimpleDone(d, t, p);
    } else {
      if Still(t) { StillItem(d, t); }
      ActOk(d, t, p);
      if Act(d, t, p).status.Delayed? { SuspendedOff(d, t, p, Act(d, t, p).m, Body(d, t, p.world)); }
    }
  }

  lemma SuspendedOff(d: Design, t: Stmt, p: State, n: State, o: Outcome)
    requires exists seg :: Suspended(d, t, p, n, seg, o)
    ensures SameOff(p, n, Ids(t)) && (o.Fin? ==> o.paused)
  {
    hide Ids, Later, Hung;
  }

  lemma SimpleDone(d: Design, t: Stmt, p: State)
    requires (t.Null? || t.NonBlocking? || (t.Assign? && t.store.Free?)) && Of(p, t.id).pending.None?
    ensures Act(d, t, p).status.Done?
  {
  }

  lemma {:induction false} StillItem(d: Design, t: Stmt)
    requires Still(t)
    ensures Item(d, t)
    decreases t
  {
    forall i | 0 <= i < |Children(t)| ensures Item(d, Children(t)[i]) && Sheltered(Children(t)[i]) {
      StillItem(d, Children(t)[i]);
    }
  }

  // ----- the process around it -----

  /** Waiting for control `dec`. */
  lemma ArmWaits(d: Design, a: Stmt, k: nat, c: Stmt, armed: set<nat>, p: State, dec: Control)
    requires Posed(d, a, k, c, armed, p) && !dec.Free?
    ensures var n := Arm(d, dec, p);
      At(n.(wake := []), a, k, armed) && n.fields == p.fields && n.stk == p.stk && n.world == p.world &&
      |n.wake| == 1 &&
      !n.wake[0].Requeue? && n.wake[0].at == p.world.now + Span(d, dec, p.world)
    ensures forall w :: Posed(d, a, k, c, armed, Arm(d, dec, p).(wake := [], world := w))
  {
    hide Ids, Around, Within, Span;
    Arming(d, dec, p);
  }

  lemma DelayedGoes(d: Design, a: Stmt, k: nat, r: Result)
    requires a.Block? && !r.status.Done?
    ensures GoOn(d, a, k, r) == r
  {
  }

  lemma RejoinedCut(d: Design, a: Stmt, k: nat, w: World)
    requires a.Block?
    ensures Rejoined(d, a, k, Outcome.Cut(w)) == Outcome.Cut(w)
  {
  }

  /** What belongs to the process that ends with the reached block is idle. */
  lemma LeafHere(d: Design, a: Stmt, k: nat, c: Stmt, armed: set<nat>, p: State, t: Stmt)
    requires Posed(d, a, k, c, armed, p) && Ids(t) <= Ids(c) && Ids(t) !! armed
    ensures Here(d, a, k, t, p)
  {
    hide Ids, Item, Unique, Flags, Within;
    var b := Ending(a, k, t);
    forall x | x in Kids(b) ensures Idle(Of(p, x)) {
      PosedIds(d, a, k, c, armed, p, t, x);
      assert x in Kids(a) - armed;
    }
  }

  lemma PosedIds(d: Design, a: Stmt, k: nat, c: Stmt, armed: set<nat>, p: State, t: Stmt, x: nat)
    requires Posed(d, a, k, c, armed, p) && Ids(t) <= Ids(c) && Ids(t) !! armed && x in Kids(Ending(a, k, t))
    ensures x in Kids(a) - armed
  {
    hide Item, Unique, Flags, Nest, Controlled, Size;
    EndingIds(d, a, k, t, x);
    hide Ids;
  }
}
