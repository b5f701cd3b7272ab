/** Loops in the outermost block whose body has a control that is not inside a
    begin/end block: the loop takes the restart after the wait for the end of an
    iteration. */
module LoopedControls {
  import opened Program
  import opened Machine
  import opened Shape
  import opened Refinement
  import opened Restarts
  import opened SideBySide
  import opened Branches
  import opened Excursions
  import opened Controls
  import opened BranchedControls

  // ----- the machine's reading -----

  /** Each wait in the body counts as an iteration; the body runs in the next
      one, when the controls on its way have elapsed, if there is a next one. */
  function SkipStart(d: Design, s: Stmt, armed: set<nat>, w: World): (o: Outcome)
    requires s.Loop?
  {
    match s.kind
    case Forever => SkipGo(d, s, 0, armed, w)
    case Repeat(e) =>
      var n := d.times(e, w.store) % TWO32;
      if n == 0 then Fin(w, false) else SkipGo(d, s, n, armed, w)
    case While(e) => if d.test(e, w.store) then SkipGo(d, s, 0, armed, w) else Fin(w, false)
    case For(first, e, _) =>
      var w1 := MoveNow(d, first, w);
      if d.test(e, w1.store) then SkipGo(d, s, 0, armed, w1) else Fin(w1, false)
  }

  function SkipGo(d: Design, s: Stmt, n: nat, armed: set<nat>, w: World): (o: Outcome)
    requires s.Loop?
    decreases w.ticks, 0
  {
    if w.ticks == 0 then Cut(w)
    else
      var v := w.(ticks := w.ticks - 1);
      match Walk(d, s.body, armed, v.store)
      case Stops(x, rest) =>
        var o := Wait(d, x.dec, v);
        if o.Cut? then o else Join(true, SkipNext(d, s, n, rest + {x.id}, o.w))
      case Reaches(t, rest) =>
        var o := Body(d, t, v);
        if o.Cut? then o else Join(o.paused, SkipNext(d, s, n, rest, o.w))
  }

  function SkipNext(d: Design, s: Stmt, n: nat, armed: set<nat>, w: World): (o: Outcome)
    requires s.Loop?
    decreases w.ticks, 1
  {
    match s.kind
    case Forever => SkipGo(d, s, 0, armed, w)
    case Repeat(_) => if n <= 1 then Fin(w, false) else SkipGo(d, s, n - 1, armed, w)
    case While(e) => if d.test(e, w.store) then SkipGo(d, s, 0, armed, w) else Fin(w, false)
    case For(_, e, next) =>
      var w1 := MoveNow(d, next, w);
      if d.test(e, w1.store) then SkipGo(d, s, 0, armed, w1) else Fin(w1, false)
  }

  // ----- the machine does that -----

  /** The process is at the loop at position `k`, which is not in an iteration. */
  ghost predicate InLoop(d: Design, a: Stmt, k: nat, armed: set<nat>, m: State) {
    a.Block? && k < |a.items| && a.items[k].Loop? && !a.items[k].dec.Event? && Posed(d, a, k, a.items[k].body, armed, m)
  }

  ghost predicate LoopEnds(d: Design, a: Stmt, k: nat, r: Result, o: Outcome)
    requires a.Block?
  {
    EndsWith(d, a, GoOn(d, a, k, r), Rejoined(d, a, k, o))
  }

  /** The loop is triggered again after a wait in its body. */
  function Again(s: Stmt, m: State): State { Set(m, s.id, Of(m, s.id).(looped := false, armed := false)) }

  lemma LoopAgain(d: Design, s: Stmt, u: State)
    requires s.Loop? && !s.dec.Event? && Of(u, s.id).looped && (Of(u, s.id).armed <==> s.dec.Delay?)
    ensures Trigger(d, s, u) == LoopNextM(d, s, Again(s, u))
  {
    hide LoopNextM, LoopStartM;
    var f := Of(u, s.id);
    var h := if s.dec.Free? then u else Set(u, s.id, f.(armed := false));
    assert Trigger(d, s, u) == Act(d, s, h);
    assert Set(h, s.id, Of(h, s.id).(looped := false)).fields == Again(s, u).fields;
  }

  lemma GoIs(d: Design, s: Stmt, m: State)
    requires s.Loop? && m.world.ticks > 0
    ensures var r := Trigger(d, s.body, m.(world := m.world.(ticks := m.world.ticks - 1)));
      LoopGoM(d, s, m) ==
        match r.status
        case Done => LoopNextM(d, s, r.m)
        case Delayed => Result(Set(r.m, s.id, Looped(s, Of(r.m, s.id))), Delayed)
        case _ => r
  {
    assert Children(s)[0] == s.body;
    hide Trigger, LoopNextM;
  }

  lemma PosedTick(d: Design, a: Stmt, k: nat, armed: set<nat>, m: State)
    requires InLoop(d, a, k, armed, m)
    ensures forall w :: InLoop(d, a, k, armed, m.(world := w))
    ensures Around(d, a, k) && a.dec.Free? && Within(d, a, k, a.items[k].body, armed) && At(m, a, k, armed) &&
      armed <= Ids(a.items[k].body)
  {
    hide Ids, Around, Within;
    PosedParts(d, a, k, a.items[k].body, armed, m);
    AroundFree(d, a, k);
  }

  lemma AroundFree(d: Design, a: Stmt, k: nat)
    requires Around(d, a, k)
    ensures a.dec.Free?
  {
    hide Item, Unique;
  }

  /** The loop itself is not part of its body. */
  lemma LoopIds(d: Design, a: Stmt, k: nat)
    requires Around(d, a, k) && a.items[k].Loop?
    ensures var s := a.items[k];
      s.id !in Ids(s.body) && Ids(s.body) <= Kids(s) && s.id in Kids(a) && s.id != a.id && a.id !in Ids(s)
  {
    var s := a.items[k];
    AroundId(d, a, k);
    assert Children(s)[0] == s.body;
    ApartFromChild(s, 0);
    IdsChild(s, 0);
    SelfId(s);
    hide Ids;
  }

  /** A change of the loop's own fields, and of the world. */
  lemma PosedLoop(d: Design, a: Stmt, k: nat, armed: set<nat>, p: State, u: State)
    requires InLoop(d, a, k, armed, p) && u.stk == p.stk && u.wake == [] && SameOff(p, u, {a.items[k].id}) &&
      Idle(Of(u, a.items[k].id))
    ensures InLoop(d, a, k, armed, u)
  {
    hide Ids, Around, Within;
    PosedParts(d, a, k, a.items[k].body, armed, p);
    LoopIds(d, a, k);
  }

  /** The step bound, at the beginning of an iteration or in it. */
  lemma BoundHere(d: Design, a: Stmt, k: nat, r: Result)
    requires a.Block? && r.status.Bound?
    ensures LoopEnds(d, a, k, r, Outcome.Cut(r.m.world))
  {
    hide GoOn, EndsWith, Rejoined;
    BoundEnds(d, a, k, r);
  }

  lemma LoopPaused(d: Design, a: Stmt, k: nat, r: Result, paused: bool, o: Outcome)
    requires a.Block? && LoopEnds(d, a, k, r, o)
    ensures LoopEnds(d, a, k, r, Join(paused, o))
  {
    hide GoOn, EndsWith, RunFrom;
    assert Rejoined(d, a, k, Join(paused, o)) == Rejoined(d, a, k, o);
  }

  /** The state in which the loop is triggered again after a wait for control `dec`. */
  function Waited(s: Stmt, p: State, w: World): State {
    Again(s, Set(p, s.id, Looped(s, Of(p, s.id))).(world := w))
  }

  lemma WaitedPosed(d: Design, a: Stmt, k: nat, armed: set<nat>, p: State, w: World)
    requires InLoop(d, a, k, armed, p)
    ensures var s := a.items[k];
      var u := Waited(s, p, w);
      InLoop(d, a, k, armed, u) && u.world == w && Of(u, s.id).count == Of(p, s.id).count
  {
    hide Around, Within, Ids, InLoop;
    PosedIdle(d, a, k, armed, p);
    PosedTick(d, a, k, armed, p);
    LoopIds(d, a, k);
    PosedLoop(d, a, k, armed, p, Waited(a.items[k], p, w));
  }

  lemma PosedIdle(d: Design, a: Stmt, k: nat, armed: set<nat>, p: State)
    requires InLoop(d, a, k, armed, p)
    ensures p.stk == [a] && p.wake == [] && Idle(Of(p, a.items[k].id))
    ensures a.Block? && k < |a.items| && a.items[k].Loop? && !a.items[k].dec.Event?
  {
    hide Around, Within, Ids;
    PosedParts(d, a, k, a.items[k].body, armed, p);
    LoopIds(d, a, k);
  }

  /** A wait in the body. */
  lemma GoWaits(d: Design, a: Stmt, k: nat, armed: set<nat>, p: State, dec: Control, o: Outcome)
    requires InLoop(d, a, k, armed, p) && !dec.Free? && !d.atomic
    requires var v := Wait(d, dec, p.world);
      v.Fin? ==> LoopEnds(d, a, k, LoopNextM(d, a.items[k], Waited(a.items[k], p, v.w)), o)
    ensures var s := a.items[k];
      var v := Wait(d, dec, p.world);
      var n := Arm(d, dec, p);
      LoopEnds(d, a, k, Result(Set(n, s.id, Looped(s, Of(n, s.id))), Delayed), if v.Cut? then v else o)
  {
    hide EndsWith, RunEnds, Rejoined, GoOn, Arm, Wait, LoopNextM, InLoop, Around, Within, Ids, Trigger, Span;
    PosedIdle(d, a, k, armed, p);
    var s := a.items[k];
    var v := Wait(d, dec, p.world);
    PosedTick(d, a, k, armed, p);
    LoopIds(d, a, k);
    Arming(d, dec, p);
    var n := Set(Arm(d, dec, p), s.id, Looped(s, Of(p, s.id)));
    assert Of(Arm(d, dec, p), s.id) == Of(p, s.id);
    WaitAt(d, a, k, armed, p, n);
    DelayedGoes(d, a, k, Result(n, Delayed));
    if v.Cut? {
      WaitRestarts(d, a, k, n, dec, armed + {s.id}, v);
      DelayedEnds(d, a, Result(n, Delayed), v);
      RejoinedCut(d, a, k, v.w);
    } else {
      var u := n.(wake := [], world := v.w);
      WaitRestarts(d, a, k, n, dec, armed + {s.id}, Rejoined(d, a, k, o));
      LoopAgain(d, s, u);
      assert Again(s, u).fields == Waited(s, p, v.w).fields;
      DelayedEnds(d, a, Result(n, Delayed), Rejoined(d, a, k, o));
    }
  }

  lemma WaitAt(d: Design, a: Stmt, k: nat, armed: set<nat>, p: State, n: State)
    requires InLoop(d, a, k, armed, p) && n.stk == p.stk && SameOff(p, n, {a.items[k].id}) && a.items[k].id != a.id
    ensures At(n.(wake := []), a, k, armed + {a.items[k].id})
  {
    hide Around, Within, Ids;
    PosedParts(d, a, k, a.items[k].body, armed, p);
  }

  // ----- iterations -----

  lemma BodyIn(d: Design, a: Stmt, k: nat, armed: set<nat>, store: Store, p: State)
    requires a.Block? && k < |a.items| && a.items[k].Loop? && Around(d, a, k) && Within(d, a, k, a.items[k].body, armed)
    requires Walk(d, a.items[k].body, armed, store).Reaches?
    requires InLoop(d, a, k, Walk(d, a.items[k].body, armed, store).armed, p)
    ensures var v := Walk(d, a.items[k].body, armed, store);
      var t := v.leaf;
      Clean(p, Ids(t)) && Leafy(d, t) && Unique(t) && Ids(t) <= Ids(a.items[k].body) && Here(d, a, k, t, p) &&
      Ids(t) !! v.armed &&
      (t.Block? && Item(d, t) ==> PartOf(d, a, k, t))
  {
    hide Ids, Around, Leafy, Controlled, Nest, Unique, Item, Size, Clean, At;
    var c := a.items[k].body;
    LeafIdle(d, a, k, c, armed, store, p);
    LoopIds(d, a, k);
    LeafHere(d, a, k, c, Walk(d, c, armed, store).armed, p, Walk(d, c, armed, store).leaf);
  }

  /** The body has run without a pause. */
  lemma BodyQuiet(d: Design, a: Stmt, k: nat, armed: set<nat>, p: State, t: Stmt, n: State)
    requires InLoop(d, a, k, armed, p) && Ids(t) <= Ids(a.items[k].body) && Ids(t) !! armed && Quiet(p, n, Ids(t))
    ensures InLoop(d, a, k, armed, n) && Of(n, a.items[k].id) == Of(p, a.items[k].id)
  {
    hide Ids, Around, Within;
    PosedParts(d, a, k, a.items[k].body, armed, p);
    LoopIds(d, a, k);
    forall x | x in Ids(a.items[k].body)
      ensures Idle(Of(n, x).(armed := false)) && (Of(n, x).armed <==> x in armed) {
      if x in Ids(t) { assert Idle(Of(n, x)); } else { assert Of(n, x) == Of(p, x); }
    }
    forall x | x in Kids(a) - armed ensures Idle(Of(n, x)) { if x !in Ids(t) { assert Of(n, x) == Of(p, x); } }
  }

  /** The process is back from the body, at the loop. */
  lemma BodyBack(d: Design, a: Stmt, k: nat, armed: set<nat>, p: State, t: Stmt, r: State, e: State, f: State, w: World)
    requires InLoop(d, a, k, armed, p) && Ids(t) <= Ids(a.items[k].body) && Ids(t) !! armed && SameOff(p, r, Ids(t))
    requires var s := a.items[k]; e == Set(r, s.id, Looped(s, Of(r, s.id)))
    requires Back(d, a, Ending(a, k, t), e, f, w) && Of(e, a.id) == Of(p, a.id)
    ensures var s := a.items[k];
      var v := f.(wake := [], world := w);
      Of(v, s.id) == Looped(s, Of(p, s.id)) && Onto(e, a) == Of(p, a.id) && Onto(e, a).cur == k &&
      Of(p, a.id).pushed && v.stk == [a]
    ensures var u := Again(a.items[k], f.(wake := [], world := w));
      InLoop(d, a, k, armed, u) && u.world == w && Of(u, a.items[k].id).count == Of(p, a.items[k].id).count
  {
    hide Ids, Around, Within;
    var s := a.items[k];
    var b := Ending(a, k, t);
    PosedParts(d, a, k, s.body, armed, p);
    LoopIds(d, a, k);
    EndingHas(a, k, t);
    LoopNotIn(d, a, k, t);
    assert Of(r, s.id) == Of(p, s.id);
    assert Of(f, s.id) == Of(e, s.id) == Looped(s, Of(p, s.id));
    assert Stays(e, a);
    var v := f.(wake := [], world := w);
    assert forall x :: Of(v, x) == Of(f, x);
    forall x | x != s.id && x !in Ids(b) ensures Of(f, x) == Of(p, x) { assert Of(f, x) == Of(e, x) == Of(r, x); }
    BackPosed(d, a, k, armed, p, t, Again(s, v));
  }

  lemma LoopNotIn(d: Design, a: Stmt, k: nat, t: Stmt)
    requires Around(d, a, k) && a.items[k].Loop? && Ids(t) <= Ids(a.items[k].body)
    ensures a.items[k].id !in Ids(Ending(a, k, t))
  {
    hide Item, Unique;
    LoopIds(d, a, k);
    SelfId(a.items[k]);
    var x := a.items[k].id;
    if x in Kids(Ending(a, k, t)) { EndingIds(d, a, k, t, x); }
  }

  lemma BackPosed(d: Design, a: Stmt, k: nat, armed: set<nat>, p: State, t: Stmt, u: State)
    requires InLoop(d, a, k, armed, p) && Ids(t) <= Ids(a.items[k].body) && Ids(t) !! armed && u.stk == [a] &&
      u.wake == []
    requires Idle(Of(u, a.items[k].id)) && Of(u, a.id) == Of(p, a.id)
    requires var b := Ending(a, k, t);
      Clean(u, Kids(b) - {a.items[k].id}) && forall x | x != a.items[k].id && x !in Ids(b) :: Of(u, x) == Of(p, x)
    ensures InLoop(d, a, k, armed, u)
  {
    hide Ids, Around, Within;
    var s := a.items[k];
    var b := Ending(a, k, t);
    PosedParts(d, a, k, s.body, armed, p);
    LoopIds(d, a, k);
    EndingHas(a, k, t);
    forall x | x in Ids(s.body) ensures Idle(Of(u, x).(armed := false)) && (Of(u, x).armed <==> x in armed) {
      BackIds(d, a, k, t, x);
      if x in Ids(t) { assert x in Kids(b); } else { assert Of(u, x) == Of(p, x); }
    }
    forall x | x in Kids(a) - armed ensures Idle(Of(u, x)) {
      if x != s.id && x !in Ids(b) { assert Of(u, x) == Of(p, x); }
    }
  }

  lemma BackIds(d: Design, a: Stmt, k: nat, t: Stmt, x: nat)
    requires Around(d, a, k) && a.items[k].Loop? && Ids(t) <= Ids(a.items[k].body) && x in Ids(a.items[k].body)
    ensures x in Ids(Ending(a, k, t)) ==> x in Ids(t)
    ensures x != a.id && x != a.items[k].id
  {
    hide Item, Unique;
    LoopIds(d, a, k);
    if x in Kids(Ending(a, k, t)) { EndingIds(d, a, k, t, x); }
  }

  /** After the body, which paused, the loop goes on like `o`. */
  lemma BodyGoes(d: Design, a: Stmt, k: nat, e: State, i: nat, t: Stmt, f: State, w: World, o: Outcome)
    requires a.Block? && a.dec.Free? && k < |a.items| && a.items[k].Loop? && !a.items[k].dec.Event?
    requires Restarted(d, a, e, i) == Result(f, Delayed) && Back(d, a, Ending(a, k, t), e, f, w)
    requires var v := f.(wake := [], world := w);
      Onto(e, a).cur == k && Of(e, a.id).pushed && v.stk == [a] && Of(v, a.items[k].id).looped &&
      (Of(v, a.items[k].id).armed <==> a.items[k].dec.Delay?) &&
      LoopEnds(d, a, k, LoopNextM(d, a.items[k], Again(a.items[k], v)), o)
    ensures LoopEnds(d, a, k, Result(e, Delayed), o)
  {
    hide EndsWith, RunEnds, Rejoined, GoOn, LoopNextM, Restarted, Items, Trigger, Back;
    var s := a.items[k];
    var v := f.(wake := [], world := w);
    var u := Rejoined(d, a, k, o);
    LoopAgain(d, s, v);
    ItemsGoOn(d, a, k, v);
    BackGoes(d, a, Ending(a, k, t), e, f, w, u);
    Continues(d, a, e, i, f, u);
    DelayedEnds(d, a, Result(e, Delayed), u);
    DelayedGoes(d, a, k, Result(e, Delayed));
  }

  lemma CutEnds(d: Design, a: Stmt, k: nat, e: State, i: nat, w: World)
    requires a.Block? && Reports(Restarted(d, a, e, i), Outcome.Cut(w))
    ensures LoopEnds(d, a, k, Result(e, Delayed), Outcome.Cut(w))
  {
    hide EndsWith, RunEnds, Rejoined, GoOn, Restarted, Reports;
    RunEndsBy(d, a, e, i, Outcome.Cut(w));
    DelayedEnds(d, a, Result(e, Delayed), Outcome.Cut(w));
    DelayedGoes(d, a, k, Result(e, Delayed));
    RejoinedCut(d, a, k, w);
  }

  lemma {:induction false} GoEnds(d: Design, a: Stmt, k: nat, armed: set<nat>, m: State)
    requires InLoop(d, a, k, armed, m) && !d.atomic && Counting(m, a.items[k])
    ensures LoopEnds(d, a, k, LoopGoM(d, a.items[k], m),
      SkipGo(d, a.items[k], N(a.items[k], Of(m, a.items[k].id)), armed, m.world))
    decreases m.world.ticks, 0
  {
    hide Act, Trigger, Walk, LoopEnds, Arm, Wait, Body, Leafy, LoopNextM, SkipNext, Within, Around, Ids, InLoop, SkipGo,
      LoopGoM, Back, Restarted, Reports, Unique, Item, Size, Clean, Here, PartOf;
    PosedIdle(d, a, k, armed, m);
    var s := a.items[k];
    var n := N(s, Of(m, s.id));
    SkipIs(d, s, n, armed, m.world);
    if m.world.ticks == 0 {
      GoBound(d, s, m);
      BoundHere(d, a, k, LoopGoM(d, s, m));
    } else {
      var m1 := m.(world := m.world.(ticks := m.world.ticks - 1));
      PosedTick(d, a, k, armed, m);
      GoIs(d, s, m);
      var v := Walk(d, s.body, armed, m1.world.store);
      var p := BodyWalk(d, a, k, armed, m1);
      if v.Stops? {
        var after := v.armed + {v.at.id};
        var w := Wait(d, v.at.dec, m1.world);
        if w.Fin? {
          WaitTicks(d, v.at.dec, m1.world);
          WaitedPosed(d, a, k, after, p, w.w);
          NextEnds(d, a, k, after, Waited(s, p, w.w));
          LoopPaused(d, a, k, LoopNextM(d, s, Waited(s, p, w.w)), true, SkipNext(d, s, n, after, w.w));
        }
        GoWaits(d, a, k, after, p, v.at.dec, if w.Cut? then w else Join(true, SkipNext(d, s, n, after, w.w)));
      } else {
        var t := v.leaf;
        var o := Body(d, t, m1.world);
        BodyIn(d, a, k, armed, m1.world.store, p);
        LeafActs(d, t, p);
        var r := Act(d, t, p);
        match r.status
        case Done =>
          BodyQuiet(d, a, k, v.armed, p, t, r.m);
          NextEnds(d, a, k, v.armed, r.m);
          LoopPaused(d, a, k, LoopNextM(d, s, r.m), false, SkipNext(d, s, n, v.armed, r.m.world));
        case Bound => BoundHere(d, a, k, r);
        case Delayed =>
          var e := Set(r.m, s.id, Looped(s, Of(r.m, s.id)));
          LoopNotIn(d, a, k, t);
          var i, f := Excursion(d, a, k, t, {s.id}, p, e);
          if o.Cut? {
            CutEnds(d, a, k, e, i, o.w);
          } else {
            BodyBack(d, a, k, v.armed, p, t, r.m, e, f, o.w);
            var u := Again(s, f.(wake := [], world := o.w));
            NextEnds(d, a, k, v.armed, u);
            LoopPaused(d, a, k, LoopNextM(d, s, u), o.paused, SkipNext(d, s, n, v.armed, o.w));
            LoopedArmed(s, Of(p, s.id));
            BodyGoes(d, a, k, e, i, t, f, o.w, Join(o.paused, SkipNext(d, s, n, v.armed, o.w)));
          }
        case _ =>
      }
    }
  }

  lemma LoopedArmed(s: Stmt, f: Fields)
    requires Idle(f)
    ensures Looped(s, f).looped && (Looped(s, f).armed <==> s.dec.Delay?)
  {
  }

  lemma GoBound(d: Design, s: Stmt, m: State)
    requires s.Loop? && m.world.ticks == 0
    ensures LoopGoM(d, s, m) == Result(m, Bound)
  {
  }

  lemma SkipIs(d: Design, s: Stmt, n: nat, armed: set<nat>, w: World)
    requires s.Loop?
    ensures SkipGo(d, s, n, armed, w) ==
      if w.ticks == 0 then Outcome.Cut(w)
      else
        var v := w.(ticks := w.ticks - 1);
        match Walk(d, s.body, armed, v.store)
        case Stops(x, rest) =>
          var o := Wait(d, x.dec, v);
          if o.Cut? then o else Join(true, SkipNext(d, s, n, rest + {x.id}, o.w))
        case Reaches(t, rest) =>
          var o := Body(d, t, v);
          if o.Cut? then o else Join(o.paused, SkipNext(d, s, n, rest, o.w))
  {
    hide Walk, Wait, Body, SkipNext;
  }

  /** The trigger of the body. */
  lemma BodyWalk(d: Design, a: Stmt, k: nat, armed: set<nat>, m: State) returns (p: State)
    requires InLoop(d, a, k, armed, m)
    ensures p.world == m.world && Of(p, a.items[k].id) == Of(m, a.items[k].id)
    ensures var v := Walk(d, a.items[k].body, armed, m.world.store);
      InLoop(d, a, k, if v.Stops? then v.armed + {v.at.id} else v.armed, p) &&
      (v.Stops? ==> !v.at.dec.Free?) &&
      Trigger(d, a.items[k].body, m) == if v.Stops? then Result(Arm(d, v.at.dec, p), Delayed) else Act(d, v.leaf, p)
  {
    hide Act, Arm, Walk, Ids, Posed, Trigger;
    p := PosedWalk(d, a, k, a.items[k].body, armed, m);
    PosedParts(d, a, k, a.items[k].body, armed, m);
    LoopIds(d, a, k);
  }

  lemma {:induction false} NextEnds(d: Design, a: Stmt, k: nat, armed: set<nat>, m: State)
    requires InLoop(d, a, k, armed, m) && !d.atomic && Counting(m, a.items[k])
    ensures LoopEnds(d, a, k, LoopNextM(d, a.items[k], m),
      SkipNext(d, a.items[k], N(a.items[k], Of(m, a.items[k].id)), armed, m.world))
    decreases m.world.ticks, 1
  {
    hide LoopEnds, Within, Around, Ids, InLoop, SkipGo, LoopGoM;
    PosedIdle(d, a, k, armed, m);
    PosedTick(d, a, k, armed, m);
    var s := a.items[k];
    match s.kind
    case Forever => GoEnds(d, a, k, armed, m);
    case Repeat(_) =>
      var f := Of(m, s.id);
      var m1 := Set(m, s.id, f.(count := f.count - 1));
      PosedLoop(d, a, k, armed, m, m1);
      if f.count > 1 { GoEnds(d, a, k, armed, m1); } else { LoopOut(d, a, k, armed, m1); }
    case While(e) => if d.test(e, m.world.store) { GoEnds(d, a, k, armed, m); } else { LoopOut(d, a, k, armed, m); }
    case For(_, e, next) =>
      var m1 := m.(world := MoveNow(d, next, m.world));
      if d.test(e, m1.world.store) { GoEnds(d, a, k, armed, m1); } else { LoopOut(d, a, k, armed, m1); }
  }

  /** The loop has ended, perhaps with controls of its body still armed. */
  lemma LoopOut(d: Design, a: Stmt, k: nat, armed: set<nat>, m: State)
    requires InLoop(d, a, k, armed, m) && !d.atomic
    ensures LoopEnds(d, a, k, Result(m, Done), Fin(m.world, false))
  {
    hide Ids, RunFrom, GoOn, EndsWith, Around, Within;
    PosedParts(d, a, k, a.items[k].body, armed, m);
    LoopIds(d, a, k);
    AroundId(d, a, k);
    Passes(d, a, k, armed, m, Result(m, Done));
  }

  lemma {:induction false} StartEnds(d: Design, a: Stmt, k: nat, armed: set<nat>, m: State)
    requires InLoop(d, a, k, armed, m) && !d.atomic
    ensures LoopEnds(d, a, k, LoopStartM(d, a.items[k], m), SkipStart(d, a.items[k], armed, m.world))
  {
    hide LoopEnds, Within, Around, Ids, InLoop, SkipGo, LoopGoM;
    PosedIdle(d, a, k, armed, m);
    PosedTick(d, a, k, armed, m);
    var s := a.items[k];
    match s.kind
    case Forever => GoEnds(d, a, k, armed, m);
    case Repeat(e) =>
      var n := d.times(e, m.world.store) % TWO32;
      var m1 := Set(m, s.id, Of(m, s.id).(count := n));
      PosedLoop(d, a, k, armed, m, m1);
      if n > 0 { GoEnds(d, a, k, armed, m1); } else { LoopOut(d, a, k, armed, m1); }
    case While(e) => if d.test(e, m.world.store) { GoEnds(d, a, k, armed, m); } else { LoopOut(d, a, k, armed, m); }
    case For(first, e, _) =>
      var m1 := m.(world := MoveNow(d, first, m.world));
      if d.test(e, m1.world.store) { GoEnds(d, a, k, armed, m1); } else { LoopOut(d, a, k, armed, m1); }
  }

  // ----- the result -----

  /** The loop `s`, without a control of its own, stands at position `k`. */
  ghost predicate ReadyToLoop(d: Design, a: Stmt, k: nat, m: State, s: Stmt) {
    Around(d, a, k) && At(m, a, k, {}) && s == a.items[k] && s.Loop? && s.dec.Free? && Nest(d, s.body)
  }

  lemma LoopPosed(d: Design, a: Stmt, k: nat, m: State, s: Stmt)
    requires ReadyToLoop(d, a, k, m, s)
    ensures InLoop(d, a, k, {}, m) && m.stk != [] && !Of(m, s.id).looped
  {
    hide Ids, Nest, Item, Unique, Size;
    AroundId(d, a, k);
    LoopIds(d, a, k);
    assert Children(s)[0] == s.body;
    IdsChild(s, 0);
    NestIdle(s.body);
    assert Size(s.body) < Size(s);
    assert Flags(m, s.body, {});
  }

  /** A loop with controls on the way to what its body does, at any position of
      the outermost block: each wait is taken for the end of an iteration, the
      body runs only if there is another one. */
  lemma LoopSkips(d: Design, a: Stmt, k: nat, m: State, s: Stmt)
    requires ReadyToLoop(d, a, k, m, s) && !d.atomic
    ensures EndsWith(d, a, Items(d, a, k, m), Rejoined(d, a, k, SkipStart(d, s, {}, m.world)))
  {
    hide Items, Trigger, LoopStartM, SkipStart, EndsWith, Rejoined, GoOn, InLoop, Nest, Ids, Run, LoopStart, Item,
      Unique;
    LoopPosed(d, a, k, m, s);
    StartEnds(d, a, k, {}, m);
    LoopTriggered(d, s, m);
    ItemsGoOn(d, a, k, m);
  }

  lemma LoopTriggered(d: Design, s: Stmt, m: State)
    requires s.Loop? && s.dec.Free? && !Of(m, s.id).looped
    ensures Trigger(d, s, m) == LoopStartM(d, s, m) && Run(d, s, m.world) == LoopStart(d, s, m.world)
  {
    hide LoopStart, LoopStartM, LoopNextM;
  }

  /** The same for a whole process. */
  lemma ProcessSkips(d: Design, a: Stmt, w: World, s: Stmt)
    requires Around(d, a, 0) && !d.atomic && s == a.items[0] && s.Loop? && s.dec.Free? && Nest(d, s.body)
    ensures RunEnds(d, a, Start(w), Rejoined(d, a, 0, SkipStart(d, s, {}, Woken(d, w))))
  {
    hide Items, SkipStart, EndsWith, RunEnds, Rejoined, At, Nest, Ids, Item, Unique;
    var u := Woken(d, w);
    FromStart(d, a, w, Rejoined(d, a, 0, SkipStart(d, s, {}, u)));
    LoopSkips(d, a, 0, Push(a, Fresh(u)), s);
  }
}
