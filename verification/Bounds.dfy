/** The step bound of the plain semantics matters only where it is hit. */
module Bounds {
  import opened Program

  /** The environment does not see how many steps are left. */
  ghost predicate Tickless(d: Design) {
    (forall w: World, n: nat :: d.disturb(w.(ticks := n)) == d.disturb(w)) &&
    (forall x: nat, w: World, n: nat :: d.arrival(x, w.(ticks := n)) == d.arrival(x, w))
  }

  /** The same but for the steps that are left. */
  ghost predicate SameWork(w: World, v: World) { w == v.(ticks := w.ticks) }

  // ----- a run only adds -----

  ghost predicate Grew(w: World, v: World) { w.log <= v.log && w.wakes <= v.wakes }

  /** A run that has paused has been restarted. */
  ghost predicate Grows(w: World, o: Outcome) {
    Grew(w, o.w) && (o.Fin? && o.paused ==> w.wakes < o.w.wakes)
  }

  lemma MoveGrows(d: Design, move: Move, w: World)
    ensures Grew(w, MoveNow(d, move, w)) && MoveNow(d, move, w).wakes == w.wakes
  {
  }

  lemma GrewOn(w: World, v: World, u: World)
    requires Grew(w, v) && Grew(v, u)
    ensures Grew(w, u)
  {
  }

  lemma JoinGrows(w: World, o: Outcome, p: Outcome)
    requires Grows(w, o) && o.Fin? && Grows(o.w, p)
    ensures Grows(w, Join(o.paused, p))
  {
  }

  lemma {:induction false} RunGrows(d: Design, s: Stmt, w: World)
    ensures Grows(w, Run(d, s, w))
    decreases w.ticks, Size(s), 5
  {
    hide Body;
    if s.dec.Free? {
      BodyGrows(d, s, w);
    } else {
      var o := Wait(d, s.dec, w);
      if o.Fin? { BodyGrows(d, s, o.w); }
    }
  }

  lemma {:induction false} BodyGrows(d: Design, s: Stmt, w: World)
    ensures Grows(w, Body(d, s, w))
    decreases w.ticks, Size(s), 4
  {
    hide Run, RunFrom, LoopStart, Picked;
    match s
    case If(_, _, _, _, _) => RunGrows(d, Children(s)[Picked(d, s, w.store)], w);
    case Case(_, _, _, _, _, _) => RunGrows(d, Children(s)[Picked(d, s, w.store)], w);
    case Loop(_, _, _, _) => LoopStartGrows(d, s, w);
    case Block(_, _, _) => RunFromGrows(d, s, 0, w);
    case _ =>
  }

  lemma {:induction false} RunFromGrows(d: Design, b: Stmt, i: nat, w: World)
    requires b.Block?
    ensures Grows(w, RunFrom(d, b, i, w))
    decreases w.ticks, Size(b), 1, |b.items| - i
  {
    hide Run;
    if i < |b.items| {
      RunGrows(d, Children(b)[i], w);
      var o := Run(d, Children(b)[i], w);
      if o.Fin? { RunFromGrows(d, b, i + 1, o.w); }
    }
  }

  lemma {:induction false} LoopStartGrows(d: Design, s: Stmt, w: World)
    requires s.Loop?
    ensures Grows(w, LoopStart(d, s, w))
    decreases w.ticks, Size(s), 3
  {
    hide LoopGo, MoveNow;
    match s.kind
    case Forever => LoopGoGrows(d, s, 0, w);
    case Repeat(e) => LoopGoGrows(d, s, d.times(e, w.store) % TWO32, w);
    case While(_) => LoopGoGrows(d, s, 0, w);
    case For(first, _, _) =>
      MoveGrows(d, first, w);
      MoveTick(d, first, w);
      LoopGoGrows(d, s, 0, MoveNow(d, first, w));
  }

  lemma MoveTick(d: Design, move: Move, w: World)
    ensures MoveNow(d, move, w).ticks == w.ticks
  {
  }

  lemma {:induction false} LoopGoGrows(d: Design, s: Stmt, n: nat, w: World)
    requires s.Loop?
    ensures Grows(w, LoopGo(d, s, n, w))
    decreases w.ticks, Size(s), 1
  {
    hide Run, LoopNext;
    if w.ticks > 0 {
      var v := w.(ticks := w.ticks - 1);
      RunGrows(d, Children(s)[0], v);
      var o := Run(d, Children(s)[0], v);
      if o.Fin? { LoopNextGrows(d, s, n, o.w); }
    }
  }

  lemma {:induction false} LoopNextGrows(d: Design, s: Stmt, n: nat, w: World)
    requires s.Loop?
    ensures Grows(w, LoopNext(d, s, n, w))
    decreases w.ticks, Size(s), 2
  {
    hide LoopGo, MoveNow;
    match s.kind
    case Forever => LoopGoGrows(d, s, 0, w);
    case Repeat(_) => if n > 1 { LoopGoGrows(d, s, n - 1, w); }
    case While(_) => LoopGoGrows(d, s, 0, w);
    case For(_, _, next) =>
      MoveGrows(d, next, w);
      MoveTick(d, next, w);
      LoopGoGrows(d, s, 0, MoveNow(d, next, w));
  }

  // ----- more steps -----

  /** What more steps change: a run that ends does the same and has as many more
      left; one that is cut has done a part of it. */
  ghost predicate Slack(o: Outcome, p: Outcome, w: World, v: World) {
    (o.Fin? ==> p.Fin? && SameWork(o.w, p.w) && o.paused == p.paused && p.w.ticks - o.w.ticks == v.ticks - w.ticks) &&
    Grew(o.w, p.w)
  }

  ghost predicate Fewer(w: World, v: World) { SameWork(w, v) && w.ticks <= v.ticks }

  lemma {:induction false} RunSlack(d: Design, s: Stmt, w: World, v: World)
    requires Tickless(d) && Fewer(w, v)
    ensures Slack(Run(d, s, w), Run(d, s, v), w, v)
    decreases w.ticks, Size(s), 5
  {
    hide Body;
    if s.dec.Free? {
      BodySlack(d, s, w, v);
    } else {
      WaitSlack(d, s.dec, w, v);
      var o, p := Wait(d, s.dec, w), Wait(d, s.dec, v);
      if o.Fin? { BodySlack(d, s, o.w, p.w); } else { RunGrows(d, s, v); }
    }
  }

  lemma WaitSlack(d: Design, c: Control, w: World, v: World)
    requires Tickless(d) && Fewer(w, v)
    ensures Slack(Wait(d, c, w), Wait(d, c, v), w, v)
  {
    assert w == v.(ticks := w.ticks);
    assert Span(d, c, w) == Span(d, c, v);
    if w.ticks > 0 {
      var x := w.(now := w.now + Span(d, c, w), ticks := w.ticks - 1);
      var y := v.(now := v.now + Span(d, c, v), ticks := v.ticks - 1);
      assert x == y.(ticks := x.ticks);
    }
  }

  lemma YieldSlack(d: Design, o: Outcome, p: Outcome, w: World, v: World)
    requires Tickless(d) && Slack(o, p, w, v)
    ensures Slack(if o.Fin? && o.paused then Yield(d, o) else o, if p.Fin? && p.paused then Yield(d, p) else p, w, v)
  {
    if o.Fin? { assert o.w == p.w.(ticks := o.w.ticks); }
  }

  lemma {:induction false} BodySlack(d: Design, s: Stmt, w: World, v: World)
    requires Tickless(d) && Fewer(w, v)
    ensures Slack(Body(d, s, w), Body(d, s, v), w, v)
    decreases w.ticks, Size(s), 4
  {
    hide Run, RunFrom, LoopStart, Wait, Yield, Picked;
    match s
    case Assign(_, _, move, store) => if !store.Free? { WaitSlack(d, store, w, v); }
    case If(_, _, _, _, _) => RunSlack(d, Children(s)[Picked(d, s, w.store)], w, v);
    case Case(_, _, _, _, _, _) => RunSlack(d, Children(s)[Picked(d, s, w.store)], w, v);
    case Loop(_, _, _, _) => LoopStartSlack(d, s, w, v);
    case Block(_, _, _) =>
      RunFromSlack(d, s, 0, w, v);
      YieldSlack(d, RunFrom(d, s, 0, w), RunFrom(d, s, 0, v), w, v);
    case _ =>
  }

  lemma JoinSlack(o: Outcome, p: Outcome, q: Outcome, r: Outcome, w: World, v: World)
    requires Slack(o, p, w, v) && o.Fin? && Slack(q, r, o.w, p.w)
    ensures Slack(Join(o.paused, q), Join(p.paused, r), w, v)
  {
  }

  lemma CutSlack(o: Outcome, p: Outcome, r: Outcome, w: World, v: World)
    requires Slack(o, p, w, v) && o.Cut? && (if p.Cut? then r == p else Grew(p.w, r.w))
    ensures Slack(o, r, w, v)
  {
  }

  lemma {:induction false} RunFromSlack(d: Design, b: Stmt, i: nat, w: World, v: World)
    requires Tickless(d) && Fewer(w, v) && b.Block?
    ensures Slack(RunFrom(d, b, i, w), RunFrom(d, b, i, v), w, v)
    decreases w.ticks, Size(b), 1, |b.items| - i
  {
    hide Run, Tickless;
    if i < |b.items| {
      RunSlack(d, Children(b)[i], w, v);
      var o, p := Run(d, Children(b)[i], w), Run(d, Children(b)[i], v);
      if o.Fin? {
        RunFromSlack(d, b, i + 1, o.w, p.w);
        JoinSlack(o, p, RunFrom(d, b, i + 1, o.w), RunFrom(d, b, i + 1, p.w), w, v);
      } else {
        if p.Fin? { RunFromGrows(d, b, i + 1, p.w); }
        CutSlack(o, p, RunFrom(d, b, i, v), w, v);
      }
    }
  }

  lemma MoveSlack(d: Design, move: Move, w: World, v: World)
    requires Fewer(w, v)
    ensures Fewer(MoveNow(d, move, w), MoveNow(d, move, v))
    ensures MoveNow(d, move, w).ticks == w.ticks && MoveNow(d, move, v).ticks == v.ticks
  {
  }

  lemma {:induction false} LoopStartSlack(d: Design, s: Stmt, w: World, v: World)
    requires Tickless(d) && Fewer(w, v) && s.Loop?
    ensures Slack(LoopStart(d, s, w), LoopStart(d, s, v), w, v)
    decreases w.ticks, Size(s), 3
  {
    hide LoopGo, MoveNow, Tickless;
    match s.kind
    case Forever => LoopGoSlack(d, s, 0, w, v);
    case Repeat(e) => LoopGoSlack(d, s, d.times(e, w.store) % TWO32, w, v);
    case While(_) => LoopGoSlack(d, s, 0, w, v);
    case For(first, _, _) =>
      MoveSlack(d, first, w, v);
      LoopGoSlack(d, s, 0, MoveNow(d, first, w), MoveNow(d, first, v));
  }

  lemma {:induction false} LoopGoSlack(d: Design, s: Stmt, n: nat, w: World, v: World)
    requires Tickless(d) && Fewer(w, v) && s.Loop?
    ensures Slack(LoopGo(d, s, n, w), LoopGo(d, s, n, v), w, v)
    decreases w.ticks, Size(s), 1
  {
    hide Run, LoopNext, Tickless;
    LoopGoGrows(d, s, n, v);
    if w.ticks > 0 {
      var w1, v1 := w.(ticks := w.ticks - 1), v.(ticks := v.ticks - 1);
      RunSlack(d, Children(s)[0], w1, v1);
      var o, p := Run(d, Children(s)[0], w1), Run(d, Children(s)[0], v1);
      if o.Fin? {
        LoopNextSlack(d, s, n, o.w, p.w);
        JoinSlack(o, p, LoopNext(d, s, n, o.w), LoopNext(d, s, n, p.w), w1, v1);
      } else {
        if p.Fin? { LoopNextGrows(d, s, n, p.w); }
        CutSlack(o, p, LoopGo(d, s, n, v), w1, v1);
      }
    }
  }

  lemma {:induction false} LoopNextSlack(d: Design, s: Stmt, n: nat, w: World, v: World)
    requires Tickless(d) && Fewer(w, v) && s.Loop?
    ensures Slack(LoopNext(d, s, n, w), LoopNext(d, s, n, v), w, v)
    decreases w.ticks, Size(s), 2
  {
    hide LoopGo, MoveNow, Tickless;
    match s.kind
    case Forever => LoopGoSlack(d, s, 0, w, v);
    case Repeat(_) => if n > 1 { LoopGoSlack(d, s, n - 1, w, v); }
    case While(_) => LoopGoSlack(d, s, 0, w, v);
    case For(_, _, next) =>
      MoveSlack(d, next, w, v);
      LoopGoSlack(d, s, 0, MoveNow(d, next, w), MoveNow(d, next, v));
  }

  /** Two runs of the same statement that end, under whatever bounds, do the same. */
  lemma BodySame(d: Design, s: Stmt, w: World, v: World)
    requires Tickless(d) && SameWork(w, v) && Body(d, s, w).Fin? && Body(d, s, v).Fin?
    ensures SameWork(Body(d, s, w).w, Body(d, s, v).w)
  {
    hide Body, Tickless;
    if w.ticks <= v.ticks { BodySlack(d, s, w, v); } else { BodySlack(d, s, v, w); }
  }
}
