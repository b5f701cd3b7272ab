/** Controls directly on the branches of an if or a case: every restart goes
    through the conditions, and the controls on the way, again. */
module BranchedControls {
  import opened Program
  import opened Machine
  import opened Shape
  import opened Refinement
  import opened Restarts
  import opened SideBySide
  import opened Branches
  import opened Excursions
  import opened Controls

  /** The machine's reading of a nest of ifs and cases: a trigger waits at the
      first control on its way that is not armed, and starts over; what it has
      passed is no longer armed, what other branches have armed still is. */
  function Wander(d: Design, c: Stmt, armed: set<nat>, w: World): (o: Outcome)
    decreases w.ticks
  {
    match Walk(d, c, armed, w.store)
    case Reaches(t, _) => Body(d, t, w)
    case Stops(x, rest) =>
      var v := Wait(d, x.dec, w);
      if v.Cut? then v else Join(true, Wander(d, c, rest + {x.id}, v.w))
  }

  lemma WanderStops(d: Design, c: Stmt, armed: set<nat>, w: World)
    requires Walk(d, c, armed, w.store).Stops?
    ensures var x := Walk(d, c, armed, w.store);
      var v := Wait(d, x.at.dec, w);
      Wander(d, c, armed, w) == if v.Cut? then v else Join(true, Wander(d, c, x.armed + {x.at.id}, v.w))
  {
    hide Wait, Walk;
  }

  lemma RejoinedPaused(d: Design, a: Stmt, k: nat, o: Outcome)
    requires a.Block?
    ensures Rejoined(d, a, k, Join(true, o)) == Rejoined(d, a, k, o)
  {
    hide RunFrom;
  }

  lemma WanderReaches(d: Design, c: Stmt, armed: set<nat>, w: World)
    requires Walk(d, c, armed, w.store).Reaches?
    ensures Wander(d, c, armed, w) == Body(d, Walk(d, c, armed, w.store).leaf, w)
  {
    hide Body, Walk;
  }

  /** The reached statement, and what follows. */
  lemma LeafEnds(d: Design, a: Stmt, k: nat, armed: set<nat>, store: Store, p: State)
    requires a.Block? && k < |a.items| && (a.items[k].If? || a.items[k].Case?) && Around(d, a, k) && !d.atomic
    requires Within(d, a, k, a.items[k], armed) && Walk(d, a.items[k], armed, store).Reaches?
    requires Posed(d, a, k, a.items[k], Walk(d, a.items[k], armed, store).armed, p)
    ensures var t := Walk(d, a.items[k], armed, store).leaf;
      EndsWith(d, a, GoOn(d, a, k, Act(d, t, p)), Rejoined(d, a, k, Body(d, t, p.world)))
  {
    hide Trigger, Act, EndsWith, RunEnds, Rejoined, GoOn, Body, Leafy, Ids, Around, Size, Nest, Controlled, Unique,
      Flags, Clean, At, Item, Restarted, Reports;
    var c := a.items[k];
    var v := Walk(d, c, armed, store);
    var t := v.leaf;
    LeafIdle(d, a, k, c, armed, store, p);
    WalkInside(d, c, armed, store);
    LeafActs(d, t, p);
    RootPassed(d, c, armed, store);
    PosedParts(d, a, k, c, v.armed, p);
    var r := Act(d, t, p);
    match r.status
    case Done => LeafDone(d, a, k, v.armed, p, t, r);
    case Bound =>
      BoundEnds(d, a, k, r);
      RejoinedCut(d, a, k, r.m.world);
    case Delayed =>
      LeafHere(d, a, k, c, v.armed, p, t);
      LeafDelayed(d, a, k, v.armed, p, t, r);
    case _ =>
  }

  lemma PosedParts(d: Design, a: Stmt, k: nat, c: Stmt, armed: set<nat>, m: State)
    requires Posed(d, a, k, c, armed, m)
    ensures Around(d, a, k) && Within(d, a, k, c, armed) && At(m, a, k, armed) && armed <= Ids(c)
  {
    hide Ids, Around, Within, Flags;
  }

  lemma WaitTicks(d: Design, c: Control, w: World)
    ensures Wait(d, c, w).Fin? ==> Wait(d, c, w).w.ticks < w.ticks
  {
  }

  lemma RootPassed(d: Design, c: Stmt, armed: set<nat>, store: Store)
    requires Unique(c) && Controlled(c, armed) && (c.If? || c.Case?) && Walk(d, c, armed, store).Reaches?
    ensures c.id !in Walk(d, c, armed, store).armed
  {
    hide Picked, Ids, Unique;
    var i := Picked(d, c, store);
    IdsChild(c, i);
    WalkInside(d, Children(c)[i], if c.dec.Free? then armed else armed - {c.id}, store);
  }

  lemma LeafDone(d: Design, a: Stmt, k: nat, armed: set<nat>, p: State, t: Stmt, r: Result)
    requires Around(d, a, k) && !d.atomic && At(p, a, k, armed) && armed <= Kids(a.items[k]) &&
      Ids(t) <= Ids(a.items[k])
    requires r.status.Done? && Quiet(p, r.m, Ids(t))
    ensures EndsWith(d, a, GoOn(d, a, k, r), Rejoined(d, a, k, Fin(r.m.world, false)))
  {
    hide Ids, RunFrom, GoOn, EndsWith, Item, Unique, Size;
    AroundId(d, a, k);
    Passes(d, a, k, armed, p, r);
  }

  /** The process waits inside the block, and returns behind the statement. */
  lemma LeafDelayed(d: Design, a: Stmt, k: nat, armed: set<nat>, p: State, t: Stmt, r: Result)
    requires Here(d, a, k, t, p) && PartOf(d, a, k, t) && !d.atomic && At(p, a, k, armed) && armed <= Kids(a.items[k])
    requires r == Act(d, t, p) && r.status.Delayed? && SameOff(p, r.m, Ids(t)) && !a.items[k].Loop?
    ensures EndsWith(d, a, GoOn(d, a, k, r), Rejoined(d, a, k, Body(d, t, p.world)))
  {
    hide Ids, RunFrom, GoOn, EndsWith, RunEnds, Item, Unique, Size, Act, Body, Restarted, Reports, Around, Back, Clean;
    HereFree(d, a, k, t, p);
    var o := Body(d, t, p.world);
    var i, f := Excursion(d, a, k, t, {}, p, r.m);
    DelayedGoes(d, a, k, r);
    if o.Cut? {
      RejoinedCut(d, a, k, o.w);
      RunEndsBy(d, a, r.m, i, o);
      DelayedEnds(d, a, r, o);
    } else {
      var u := Rejoined(d, a, k, o);
      var v := f.(wake := [], world := o.w);
      BackBehind(d, a, k, t, armed, p, r.m, f, o.w);
      Resumes(d, a, k, armed, v);
      BackGoes(d, a, Ending(a, k, t), r.m, f, o.w, u);
      Continues(d, a, r.m, i, f, u);
      DelayedEnds(d, a, r, u);
    }
  }

  lemma RunEndsBy(d: Design, a: Stmt, m: State, i: nat, o: Outcome)
    requires Reports(Restarted(d, a, m, i), o)
    ensures RunEnds(d, a, m, o)
  {
    hide Restarted, Reports;
  }

  lemma BackBehind(d: Design, a: Stmt, k: nat, t: Stmt, armed: set<nat>, p: State, e: State, f: State, w: World)
    requires At(p, a, k, armed) && Around(d, a, k) && !a.items[k].Loop? && Ids(t) <= Ids(a.items[k])
    requires Back(d, a, Ending(a, k, t), e, f, w) && SameOff(p, e, Ids(t)) && Of(e, a.id) == Of(p, a.id)
    ensures At(f.(wake := [], world := w), a, k + 1, armed) && Onto(e, a).cur == k + 1
  {
    hide Item, Unique, Ids;
    var b := Ending(a, k, t);
    EndingHas(a, k, t);
    assert !Stays(e, a);
    BehindClean(a, b, armed, t, p, e, f);
    assert forall x :: Of(f.(wake := [], world := w), x) == Of(f, x);
  }

  lemma EndingHas(a: Stmt, k: nat, t: Stmt)
    requires a.Block? && k < |a.items|
    ensures Ids(t) <= Ids(Ending(a, k, t)) && a.id in Ids(Ending(a, k, t))
  {
    var b := Ending(a, k, t);
    assert Children(b)[k] == t;
    IdsChild(b, k);
    SelfId(b);
    hide Ids;
  }

  lemma BehindClean(a: Stmt, b: Stmt, armed: set<nat>, t: Stmt, p: State, e: State, f: State)
    requires Clean(p, Kids(a) - armed) && SameOff(p, e, Ids(t)) && SameOff(e, f, Ids(b)) && Clean(f, Kids(b))
    requires Ids(t) <= Ids(b) && a.id == b.id
    ensures Clean(f, Kids(a) - armed)
  {
    hide Ids;
    forall x | x in Kids(a) - armed ensures Idle(Of(f, x)) {
      if x !in Kids(b) { assert Of(f, x) == Of(e, x) == Of(p, x); }
    }
  }

  /** A nest of ifs and cases in the outermost block, with any controls in it:
      the process ends in the world of that reading. */
  lemma {:induction false} WanderEnds(d: Design, a: Stmt, k: nat, armed: set<nat>, m: State)
    requires a.Block? && a.dec.Free? && k < |a.items| && (a.items[k].If? || a.items[k].Case?) && !d.atomic
    requires Posed(d, a, k, a.items[k], armed, m)
    ensures EndsWith(d, a, GoOn(d, a, k, Trigger(d, a.items[k], m)),
      Rejoined(d, a, k, Wander(d, a.items[k], armed, m.world)))
    decreases m.world.ticks
  {
    hide Trigger, Act, Walk, Wander, EndsWith, RunEnds, Rejoined, GoOn, Posed, Arm, Wait, Body, Leafy;
    var c := a.items[k];
    var v := Walk(d, c, armed, m.world.store);
    PosedParts(d, a, k, c, armed, m);
    var p := PosedWalk(d, a, k, c, armed, m);
    if v.Stops? {
      var n := Arm(d, v.at.dec, p);
      var after := v.armed + {v.at.id};
      var w := Wait(d, v.at.dec, m.world);
      WanderStops(d, c, armed, m.world);
      ArmWaits(d, a, k, c, after, p, v.at.dec);
      DelayedGoes(d, a, k, Result(n, Delayed));
      if w.Cut? {
        WaitRestarts(d, a, k, n, v.at.dec, after, w);
        DelayedEnds(d, a, Result(n, Delayed), w);
        RejoinedCut(d, a, k, w.w);
      } else {
        var u := n.(wake := [], world := w.w);
        var o := Rejoined(d, a, k, Wander(d, c, after, w.w));
        WaitTicks(d, v.at.dec, m.world);
        WanderEnds(d, a, k, after, u);
        WaitRestarts(d, a, k, n, v.at.dec, after, o);
        DelayedEnds(d, a, Result(n, Delayed), o);
        RejoinedPaused(d, a, k, Wander(d, c, after, w.w));
      }
    } else {
      LeafEnds(d, a, k, armed, m.world.store, p);
      WanderReaches(d, c, armed, m.world);
    }
  }

  // ----- when that is what the plain semantics says -----

  /** The if or case at position `k`, without a control, leads to `t`, which has one. */
  ghost predicate Delays(d: Design, a: Stmt, k: nat, m: State, t: Stmt) {
    Around(d, a, k) && At(m, a, k, {}) && Branching(a.items[k]) && Nest(d, a.items[k]) &&
    t == Leaf(d, a.items[k], m.world.store) && !t.dec.Free? && !t.If? && !t.Case?
  }

  lemma {:induction false} NestIdle(c: Stmt)
    ensures Controlled(c, {})
    decreases c
  {
    forall i | 0 <= i < |Children(c)| ensures Controlled(Children(c)[i], {}) { NestIdle(Children(c)[i]); }
  }

  lemma DelaysPosed(d: Design, a: Stmt, k: nat, m: State, t: Stmt)
    requires Delays(d, a, k, m, t)
    ensures a.Block? && a.dec.Free? && k < |a.items| && Branching(a.items[k]) && !t.dec.Free? &&
      Posed(d, a, k, a.items[k], {}, m)
    ensures m.stk != []
  {
    hide Ids, Nest, Item, Unique, Size, Leaf;
    var c := a.items[k];
    AroundId(d, a, k);
    NestIdle(c);
    assert Flags(m, c, {});
  }

  /** With at most the control of `t` armed, a trigger gets to what the free ifs
      and cases lead to. */
  lemma {:induction false} WalkLeaf(d: Design, c: Stmt, armed: set<nat>, store: Store)
    requires Controlled(c, armed)
    ensures var t := Leaf(d, c, store);
      Walk(d, c, armed, store) ==
        if !t.dec.Free? && t.id !in armed then Stops(t, armed)
        else if t.If? || t.Case? then Walk(d, t, armed, store)
        else Reaches(t, if t.dec.Free? then armed else armed - {t.id})
    decreases c
  {
    hide Picked;
    if Branching(c) { WalkLeaf(d, Children(c)[Picked(d, c, store)], armed, store); }
  }

  /** The first restart: the conditions lead to the same statement again, or the
      machine goes another way and the control of `t` stays armed. */
  lemma FirstWait(d: Design, c: Stmt, w: World)
    requires Unique(c)
    ensures var t := Leaf(d, c, w.store);
      !t.dec.Free? && !t.If? && !t.Case? && Wait(d, t.dec, w).Fin? ==>
        var v := Wait(d, t.dec, w).w;
        var u := Leaf(d, c, v.store);
        Run(d, c, w) == Join(true, Body(d, t, v)) && Wander(d, c, {}, w) == Join(true, Wander(d, c, {t.id}, v)) &&
        (u == t ==> Wander(d, c, {t.id}, v) == Body(d, t, v)) &&
        (u != t && u.dec.Free? ==> Wander(d, c, {t.id}, v) == Run(d, u, v))
  {
    hide Body, Wait, Picked, Ids, Unique, Run, Leaf, Walk;
    var t := Leaf(d, c, w.store);
    if !t.dec.Free? && !t.If? && !t.Case? && Wait(d, t.dec, w).Fin? {
      var v := Wait(d, t.dec, w).w;
      var u := Leaf(d, c, v.store);
      NestIdle(c);
      WalkLeaf(d, c, {}, w.store);
      WalkControlled(d, c, {}, w.store);
      assert {} + {t.id} == {t.id};
      WalkLeaf(d, c, {t.id}, v.store);
      LeafRun(d, c, w);
      ControlRun(d, t, w);
      LeavesApart(d, c, w.store, v.store);
      SelfId(t);
      SelfId(u);
      if u.dec.Free? { FreeRun(d, u, v); }
    }
  }

  lemma {:induction false} LeafRun(d: Design, c: Stmt, w: World)
    ensures Run(d, c, w) == Run(d, Leaf(d, c, w.store), w)
    decreases c
  {
    hide Picked, Run;
    if Branching(c) {
      BranchRuns(d, c, w);
      LeafRun(d, Children(c)[Picked(d, c, w.store)], w);
    }
  }

  lemma ControlRun(d: Design, t: Stmt, w: World)
    requires !t.dec.Free? && Wait(d, t.dec, w).Fin?
    ensures Run(d, t, w) == Join(true, Body(d, t, Wait(d, t.dec, w).w))
  {
    hide Body;
  }

  /** A delayed statement under an if or a case: if the store found after the wait
      leads to it again, restarts do what the plain semantics says; otherwise what
      that store leads to is triggered instead, and the first control stays armed. */
  lemma ControlTakesBranch(d: Design, a: Stmt, k: nat, m: State, t: Stmt)
    requires Delays(d, a, k, m, t) && !d.atomic && Wait(d, t.dec, m.world).Fin?
    ensures var v := Wait(d, t.dec, m.world).w;
      var u := Leaf(d, a.items[k], v.store);
      EndsWith(d, a, Items(d, a, k, m),
        Rejoined(d, a, k, if u == t then Body(d, t, v) else Wander(d, a.items[k], {t.id}, v))) &&
      (u != t && u.dec.Free? ==> Wander(d, a.items[k], {t.id}, v) == Run(d, u, v))
  {
    hide Body, Wait, Ids, Unique, Run, Leaf, Wander, Posed, EndsWith, Items, Trigger, Rejoined, GoOn, At, Around, Nest;
    DelaysPosed(d, a, k, m, t);
    var c := a.items[k];
    PosedParts(d, a, k, c, {}, m);
    AroundId(d, a, k);
    FirstWait(d, c, m.world);
    WanderEnds(d, a, k, {}, m);
    ItemsGoOn(d, a, k, m);
    RejoinedPaused(d, a, k, Wander(d, c, {t.id}, Wait(d, t.dec, m.world).w));
  }

  lemma ItemsGoOn(d: Design, a: Stmt, k: nat, m: State)
    requires a.Block? && k < |a.items| && m.stk != []
    ensures Items(d, a, k, m) == GoOn(d, a, k, Trigger(d, a.items[k], m))
  {
    hide Trigger;
    assert Children(a)[k] == a.items[k];
  }

  /** If nothing follows, restarts agree with the plain semantics exactly if the
      conditions lead to the same statement again, or what happens instead ends
      in just the world in which that statement would end. */
  lemma ControlAgrees(d: Design, a: Stmt, k: nat, m: State, t: Stmt)
    requires Delays(d, a, k, m, t) && !d.atomic && k == |a.items| - 1 && Wait(d, t.dec, m.world).Fin?
    ensures var v := Wait(d, t.dec, m.world).w;
      var u := Leaf(d, a.items[k], v.store);
      var o := if u.dec.Free? then Run(d, u, v) else Wander(d, a.items[k], {t.id}, v);
      EndsWith(d, a, Items(d, a, k, m), RunFrom(d, a, k, m.world)) <==>
        u == t || (o.w == Body(d, t, v).w && (o.Fin? <==> Body(d, t, v).Fin?))
  {
    hide Body, Wait, Ids, Unique, Run, Leaf, Wander, Posed, EndsWith, Items, Trigger, Rejoined, GoOn, At, Around,
      Nest, RunFrom;
    DelaysPosed(d, a, k, m, t);
    var c := a.items[k];
    PosedParts(d, a, k, c, {}, m);
    AroundId(d, a, k);
    FirstWait(d, c, m.world);
    ControlTakesBranch(d, a, k, m, t);
    var v := Wait(d, t.dec, m.world).w;
    var u := Leaf(d, c, v.store);
    var o := if u == t then Body(d, t, v) else Wander(d, c, {t.id}, v);
    LastRuns(d, a, m.world);
    LastJoined(d, a, o);
    SameEnd(d, a, Items(d, a, k, m), Rejoined(d, a, k, o), RunFrom(d, a, k, m.world));
  }

  /** The same for a whole process that consists of the if or case. */
  lemma ControlUnderBranch(d: Design, a: Stmt, w: World, t: Stmt)
    requires Around(d, a, 0) && |a.items| == 1 && !d.atomic && Branching(a.items[0]) && Nest(d, a.items[0])
    requires t == Leaf(d, a.items[0], Woken(d, w).store) && !t.dec.Free? && !t.If? && !t.Case?
    requires Wait(d, t.dec, Woken(d, w)).Fin?
    ensures var v := Wait(d, t.dec, Woken(d, w)).w;
      var u := Leaf(d, a.items[0], v.store);
      var o := if u.dec.Free? then Run(d, u, v) else Wander(d, a.items[0], {t.id}, v);
      RunEnds(d, a, Start(w), RunProcess(d, a, Woken(d, w))) <==>
        u == t || (o.w == Body(d, t, v).w && (o.Fin? <==> Body(d, t, v).Fin?))
  {
    hide Item, Unique, Run, Leaf, Body, Wander, EndsWith, RunFrom, Items, Wait, RunEnds, At, Ids, Nest;
    var u := Woken(d, w);
    FromStart(d, a, w, RunProcess(d, a, u));
    ControlAgrees(d, a, 0, Push(a, Fresh(u)), t);
  }
}
