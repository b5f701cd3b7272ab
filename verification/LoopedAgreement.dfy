/** When a loop around a delayed block does what the plain semantics says. The two
    runs are compared under any two step bounds that let both end. */
module LoopedAgreement {
  import opened Program
  import opened Machine
  import opened Shape
  import opened Restarts
  import opened Branches
  import opened Bounds
  import opened Controls
  import opened LoopedControls

  /** A loop around a begin/end block with a control. */
  predicate AroundDelayed(s: Stmt) { s.Loop? && s.body.Block? && !s.body.dec.Free? }

  /** The world after the first wait. */
  function Waiting(d: Design, s: Stmt, w: World): Outcome
    requires s.Loop?
  {
    if w.ticks == 0 then Outcome.Cut(w) else Wait(d, s.body.dec, w.(ticks := w.ticks - 1))
  }

  /** The body after a wait. */
  function Working(d: Design, s: Stmt, w: World): Outcome
    requires s.Loop?
  {
    if w.ticks == 0 then Outcome.Cut(w) else Body(d, s.body, w.(ticks := w.ticks - 1))
  }

  lemma SkipWaits(d: Design, s: Stmt, n: nat, w: World)
    requires AroundDelayed(s)
    ensures var x := Waiting(d, s, w);
      SkipGo(d, s, n, {}, w) == if x.Cut? then x else Join(true, SkipNext(d, s, n, {s.body.id}, x.w))
  {
    hide Wait, Body, SkipNext;
    assert {} + {s.body.id} == {s.body.id};
  }

  lemma SkipWorks(d: Design, s: Stmt, n: nat, w: World)
    requires AroundDelayed(s)
    ensures var y := Working(d, s, w);
      SkipGo(d, s, n, {s.body.id}, w) == if y.Cut? then y else Join(y.paused, SkipNext(d, s, n, {}, y.w))
  {
    hide Wait, Body, SkipNext;
    assert {s.body.id} - {s.body.id} == {};
  }

  /** The plain loop. */
  lemma LoopDoes(d: Design, s: Stmt, n: nat, v: World)
    requires AroundDelayed(s)
    ensures var x := Waiting(d, s, v);
      LoopGo(d, s, n, v) ==
        if x.Cut? then x
        else
          var y := Body(d, s.body, x.w);
          if y.Cut? then y else Join(true, LoopNext(d, s, n, y.w))
  {
    hide Wait, Body, LoopNext;
    assert Children(s)[0] == s.body;
    if v.ticks > 0 { RunWaits(d, s.body, v.(ticks := v.ticks - 1)); }
  }

  lemma RunWaits(d: Design, c: Stmt, w: World)
    requires !c.dec.Free?
    ensures var x := Wait(d, c.dec, w); Run(d, c, w) == if x.Cut? then x else Join(true, Body(d, c, x.w))
  {
    hide Body, Wait;
  }

  lemma SameWait(d: Design, s: Stmt, w: World, v: World)
    requires s.Loop? && Tickless(d) && SameWork(w, v) && Waiting(d, s, w).Fin? && Waiting(d, s, v).Fin?
    ensures SameWork(Waiting(d, s, w).w, Waiting(d, s, v).w)
  {
    hide Tickless, Wait;
    var a, b := w.(ticks := w.ticks - 1), v.(ticks := v.ticks - 1);
    if a.ticks <= b.ticks { WaitSlack(d, s.body.dec, a, b); } else { WaitSlack(d, s.body.dec, b, a); }
  }

  lemma SameBody(d: Design, s: Stmt, w: World, v: World)
    requires s.Loop? && Tickless(d) && SameWork(w, v) && Working(d, s, w).Fin? && Body(d, s.body, v).Fin?
    ensures SameWork(Working(d, s, w).w, Body(d, s.body, v).w)
  {
    hide Tickless, Body;
    BodySame(d, s.body, w.(ticks := w.ticks - 1), v);
  }

  /** A plain loop that runs at all waits. */
  lemma LoopPauses(d: Design, s: Stmt, n: nat, v: World)
    requires AroundDelayed(s) && LoopGo(d, s, n, v).Fin?
    ensures LoopGo(d, s, n, v).w.wakes > v.wakes
  {
    hide LoopGo, Waiting, Body, LoopNext;
    LoopDoes(d, s, n, v);
    LoopGoGrows(d, s, n, v);
  }

  // ----- repeat -----

  /** The machine waits less often than the plain loop, unless both have exactly
      one iteration. */
  lemma {:induction false} RepeatShort(d: Design, s: Stmt, n: nat, p: nat, w: World, v: World)
    requires AroundDelayed(s) && s.kind.Repeat? && Tickless(d) && SameWork(w, v) && 1 <= n <= p && (n < p || n >= 2)
    requires SkipGo(d, s, n, {}, w).Fin? && LoopGo(d, s, p, v).Fin?
    ensures SkipGo(d, s, n, {}, w).w.wakes < LoopGo(d, s, p, v).w.wakes
    decreases n
  {
    hide Tickless, Body, SkipGo, LoopGo, Waiting, Working, SameWork;
    SkipWaits(d, s, n, w);
    LoopDoes(d, s, p, v);
    SameWait(d, s, w, v);
    var x, u := Waiting(d, s, w).w, Waiting(d, s, v).w;
    var y := Body(d, s.body, u).w;
    WorkWakes(x, u);
    BodyGrows(d, s.body, u);
    if n == 1 {
      LoopPauses(d, s, p - 1, y);
    } else {
      SkipWorks(d, s, n - 1, x);
      SameBody(d, s, x, u);
      WorkWakes(Working(d, s, x).w, y);
      if n == 2 {
        LoopPauses(d, s, p - 1, y);
      } else {
        RepeatShort(d, s, n - 2, p - 1, Working(d, s, x).w, y);
      }
    }
  }

  lemma WorkWakes(w: World, v: World)
    requires SameWork(w, v)
    ensures w.wakes == v.wakes && w.store == v.store
  {
  }

  /** For any environment that does not see the step bound, any count and any
      body, if both runs end: they do the same exactly if the count, cut to 32
      bits, is 0, or it is 1 and the body leaves the world as it is. */
  lemma RepeatAgrees(d: Design, s: Stmt, w: World, v: World)
    requires AroundDelayed(s) && s.kind.Repeat? && Tickless(d) && SameWork(w, v)
    requires SkipStart(d, s, {}, w).Fin? && LoopStart(d, s, v).Fin?
    ensures var n := d.times(s.kind.times, v.store) % TWO32;
      var x := Waiting(d, s, v).w;
      SameWork(SkipStart(d, s, {}, w).w, LoopStart(d, s, v).w) <==>
        n == 0 || (n == 1 && SameWork(x, Body(d, s.body, x).w))
  {
    hide Tickless, Body, SkipGo, LoopGo, Waiting, Working;
    WorkWakes(w, v);
    var n := d.times(s.kind.times, v.store) % TWO32;
    if n >= 2 {
      RepeatShort(d, s, n, n, w, v);
    } else if n == 1 {
      SkipWaits(d, s, 1, w);
      LoopDoes(d, s, 1, v);
      SameWait(d, s, w, v);
    }
  }

  // ----- while -----

  /** After every wait of the plain loop the test holds, so that the body runs
      here as well; only the last body may be left out, if it does nothing. */
  ghost predicate TestsHold(d: Design, s: Stmt, v: World)
    requires s.Loop? && s.kind.While?
    decreases v.ticks
  {
    var x := Waiting(d, s, v);
    x.Fin? ==>
      var y := Body(d, s.body, x.w);
      y.Fin? ==>
        if !d.test(s.kind.test, x.w.store) then SameWork(x.w, y.w)
        else d.test(s.kind.test, y.w.store) ==> y.w.ticks < v.ticks && TestsHold(d, s, y.w)
  }

  lemma WaitingTicks(d: Design, s: Stmt, w: World)
    requires s.Loop?
    ensures Waiting(d, s, w).Fin? ==> Waiting(d, s, w).w.ticks < w.ticks
  {
  }

  lemma {:induction false} WhileGo(d: Design, s: Stmt, w: World, v: World)
    requires AroundDelayed(s) && s.kind.While? && Tickless(d) && SameWork(w, v)
    requires SkipGo(d, s, 0, {}, w).Fin? && LoopGo(d, s, 0, v).Fin?
    ensures SameWork(SkipGo(d, s, 0, {}, w).w, LoopGo(d, s, 0, v).w) <==> TestsHold(d, s, v)
    decreases v.ticks
  {
    hide Tickless, Body, SkipGo, LoopGo, Waiting, Working, SameWork;
    SkipWaits(d, s, 0, w);
    LoopDoes(d, s, 0, v);
    SameWait(d, s, w, v);
    WaitingTicks(d, s, v);
    var x, u := Waiting(d, s, w).w, Waiting(d, s, v).w;
    var y := Body(d, s.body, u).w;
    WorkWakes(x, u);
    BodyGrows(d, s.body, u);
    if d.test(s.kind.test, u.store) {
      SkipWorks(d, s, 0, x);
      SameBody(d, s, x, u);
      WorkWakes(Working(d, s, x).w, y);
      if d.test(s.kind.test, y.store) { WhileGo(d, s, Working(d, s, x).w, y); }
    } else {
      WhileLeft(d, s, x, u, y);
    }
  }

  /** The machine ends after a wait, the plain loop with the body. */
  lemma WhileLeft(d: Design, s: Stmt, x: World, u: World, y: World)
    requires AroundDelayed(s) && s.kind.While? && SameWork(x, u) && !d.test(s.kind.test, u.store) && u.wakes <= y.wakes
    requires LoopNext(d, s, 0, y).Fin?
    ensures SameWork(x, LoopNext(d, s, 0, y).w) <==> SameWork(u, y)
  {
    hide LoopGo;
    if d.test(s.kind.test, y.store) { LoopPauses(d, s, 0, y); }
  }

  /** The same for a while loop: exactly if the test holds after every wait. */
  lemma WhileAgrees(d: Design, s: Stmt, w: World, v: World)
    requires AroundDelayed(s) && s.kind.While? && Tickless(d) && SameWork(w, v)
    requires SkipStart(d, s, {}, w).Fin? && LoopStart(d, s, v).Fin?
    ensures SameWork(SkipStart(d, s, {}, w).w, LoopStart(d, s, v).w) <==>
      (d.test(s.kind.test, v.store) ==> TestsHold(d, s, v))
  {
    hide Tickless, SkipGo, LoopGo, TestsHold;
    WorkWakes(w, v);
    if d.test(s.kind.test, v.store) { WhileGo(d, s, w, v); }
  }

  // ----- forever -----

  lemma {:induction false} SkipGoGrows(d: Design, s: Stmt, n: nat, armed: set<nat>, w: World)
    requires s.Loop?
    ensures Grows(w, SkipGo(d, s, n, armed, w))
    decreases w.ticks, 0
  {
    hide Walk, Body, SkipNext;
    if w.ticks > 0 {
      var v := w.(ticks := w.ticks - 1);
      match Walk(d, s.body, armed, v.store)
      case Stops(x, rest) =>
        var o := Wait(d, x.dec, v);
        if o.Fin? { SkipNextGrows(d, s, n, rest + {x.id}, o.w); }
      case Reaches(t, rest) =>
        BodyGrows(d, t, v);
        var o := Body(d, t, v);
        if o.Fin? { SkipNextGrows(d, s, n, rest, o.w); }
    }
  }

  lemma {:induction false} SkipNextGrows(d: Design, s: Stmt, n: nat, armed: set<nat>, w: World)
    requires s.Loop?
    ensures Grows(w, SkipNext(d, s, n, armed, w))
    decreases w.ticks, 1
  {
    hide SkipGo, MoveNow;
    match s.kind
    case Forever => SkipGoGrows(d, s, 0, armed, w);
    case Repeat(_) => if n > 1 { SkipGoGrows(d, s, n - 1, armed, w); }
    case While(_) => SkipGoGrows(d, s, 0, armed, w);
    case For(_, _, next) =>
      MoveGrows(d, next, w);
      MoveTick(d, next, w);
      SkipGoGrows(d, s, 0, armed, MoveNow(d, next, w));
  }

  lemma WaitingIs(d: Design, s: Stmt, w: World)
    requires s.Loop?
    ensures var x := Waiting(d, s, w);
      x.w.log == w.log && (x.Fin? <==> w.ticks >= 2) &&
      (x.Fin? ==> x.w.ticks == w.ticks - 2 && x.w.wakes == w.wakes + 1)
  {
  }

  /** Whatever one does under a step bound, the other does as well: the same
      effects at the same times. The machine needs at most twice the steps. */
  lemma {:induction false} ForeverAgrees(d: Design, s: Stmt, w: World, v: World)
    requires AroundDelayed(s) && s.kind.Forever? && Tickless(d) && SameWork(w, v)
    ensures w.ticks <= v.ticks ==> SkipGo(d, s, 0, {}, w).w.log <= LoopGo(d, s, 0, v).w.log
    ensures 2 * v.ticks <= w.ticks ==> LoopGo(d, s, 0, v).w.log <= SkipGo(d, s, 0, {}, w).w.log
    decreases v.ticks
  {
    hide Tickless, Body, SkipGo, LoopGo, Waiting, Working, Wait;
    SkipWaits(d, s, 0, w);
    LoopDoes(d, s, 0, v);
    SkipGoGrows(d, s, 0, {}, w);
    LoopGoGrows(d, s, 0, v);
    WaitingIs(d, s, w);
    WaitingIs(d, s, v);
    if w.ticks >= 2 && v.ticks >= 2 {
      SameWait(d, s, w, v);
      var x, u := Waiting(d, s, w).w, Waiting(d, s, v).w;
      SkipWorks(d, s, 0, x);
      WorkingIs(d, s, x);
      SkipGoGrows(d, s, 0, {s.body.id}, x);
      BodyGrows(d, s.body, u);
      if x.ticks > 0 {
        var z := x.(ticks := x.ticks - 1);
        var o, p := Body(d, s.body, z), Body(d, s.body, u);
        if z.ticks <= u.ticks { BodySlack(d, s.body, z, u); }
        if u.ticks <= z.ticks { BodySlack(d, s.body, u, z); }
        if p.Fin? { LoopGoGrows(d, s, 0, p.w); }
        if o.Fin? { SkipGoGrows(d, s, 0, {}, o.w); }
        if o.Fin? && p.Fin? {
          BodySame(d, s.body, z, u);
          ForeverAgrees(d, s, o.w, p.w);
        }
      } else if Body(d, s.body, u).Fin? {
        ForeverRest(d, s, u);
      }
    }
  }

  lemma WorkingIs(d: Design, s: Stmt, w: World)
    requires s.Loop?
    ensures Working(d, s, w) == if w.ticks == 0 then Outcome.Cut(w) else Body(d, s.body, w.(ticks := w.ticks - 1))
  {
    hide Body;
  }

  lemma ForeverRest(d: Design, s: Stmt, u: World)
    requires s.Loop? && Body(d, s.body, u).Fin?
    ensures Grew(u, LoopGo(d, s, 0, Body(d, s.body, u).w).w)
  {
    hide Body, LoopGo;
    BodyGrows(d, s.body, u);
    LoopGoGrows(d, s, 0, Body(d, s.body, u).w);
  }

  // ----- for -----

  /** Some assignment in `s` has the left-hand side `l`. */
  predicate Writes(s: Stmt, l: nat)
    decreases s
  {
    var cs := Children(s);
    (s.Assign? && s.move.lvalue == l) ||
    (s.Loop? && s.kind.For? && (s.kind.first.lvalue == l || s.kind.next.lvalue == l)) ||
    exists i | 0 <= i < |cs| :: Writes(cs[i], l)
  }

  /** Targets tell the left-hand sides apart. */
  ghost predicate Telling(d: Design) { forall l: nat, st: Store :: d.target(l, st).lvalue == l }

  /** How often a left-hand side was written. */
  function Count(log: seq<Effect>, l: nat): nat {
    if log == [] then 0
    else
      var e := log[|log| - 1];
      Count(log[..|log| - 1], l) + if e.Wrote? && e.target.lvalue == l then 1 else 0
  }

  lemma CountMore(log: seq<Effect>, e: Effect, l: nat)
    ensures Count(log + [e], l) == Count(log, l) + if e.Wrote? && e.target.lvalue == l then 1 else 0
  {
    assert (log + [e])[..|log|] == log;
  }

  /** Without a wait, and without writing `l`. */
  ghost predicate Briefly(w: World, v: World, l: nat) {
    v.wakes == w.wakes && v.now == w.now && w.log <= v.log && Count(v.log, l) == Count(w.log, l) &&
    (|v.log| == |w.log| ==> v.store == w.store)
  }

  ghost predicate Brief(w: World, o: Outcome, l: nat) { o.Fin? ==> !o.paused && Briefly(w, o.w, l) }

  lemma BrieflyOn(w: World, v: World, u: World, l: nat)
    requires Briefly(w, v, l) && Briefly(v, u, l)
    ensures Briefly(w, u, l)
  {
    hide Count;
  }

  lemma BriefMove(d: Design, move: Move, w: World, l: nat)
    requires Telling(d) && move.lvalue != l
    ensures Briefly(w, MoveNow(d, move, w), l) && MoveNow(d, move, w).ticks == w.ticks
  {
    var c := Read(d, move, w);
    if !c.value.tristate { CountMore(w.log, Wrote(w.now, c.target, c.value), l); }
  }

  lemma {:induction false} BriefRun(d: Design, s: Stmt, w: World, l: nat)
    requires Still(s) && !Writes(s, l) && Telling(d)
    ensures Brief(w, Run(d, s, w), l)
    decreases w.ticks, Size(s), 5
  {
    hide Body, Briefly, Still, Writes, Telling;
    assert s.dec.Free? by { StillFree(s); }
    BriefBody(d, s, w, l);
  }

  lemma StillFree(s: Stmt)
    requires Still(s)
    ensures s.dec.Free? && (s.Assign? ==> s.store.Free?) && forall i | 0 <= i < |Children(s)| :: Still(Children(s)[i])
  {
  }

  lemma WritesChild(s: Stmt, l: nat)
    requires !Writes(s, l)
    ensures forall i | 0 <= i < |Children(s)| :: !Writes(Children(s)[i], l)
  {
  }

  lemma {:induction false} BriefBody(d: Design, s: Stmt, w: World, l: nat)
    requires Still(s) && !Writes(s, l) && Telling(d)
    ensures Brief(w, Body(d, s, w), l)
    decreases w.ticks, Size(s), 4
  {
    StillFree(s);
    WritesChild(s, l);
    match s
    case Null(_, _) => hide *; BriefSelf(w, l); NullBody(d, s, w);
    case Assign(_, _, move, _) => BriefMove(d, move, w, l);
    case NonBlocking(_, _, move, store) =>
      CountMore(w.log, Posted(w.now, store, Read(d, move, w).target, Read(d, move, w).value), l);
    case If(_, _, _, _, _) => hide Run, Picked, Still, Writes; BriefRun(d, Children(s)[Picked(d, s, w.store)], w, l);
    case Case(_, _, _, _, _, _) => hide Run, Picked, Still, Writes;
      BriefRun(d, Children(s)[Picked(d, s, w.store)], w, l);
    case Loop(_, _, _, _) => hide LoopStart; BriefLoopStart(d, s, w, l);
    case Block(_, _, _) => hide RunFrom; BriefRunFrom(d, s, 0, w, l);
  }

  lemma BriefSelf(w: World, l: nat)
    ensures Briefly(w, w, l)
  {
  }

  lemma NullBody(d: Design, s: Stmt, w: World)
    requires s.Null?
    ensures Body(d, s, w) == Fin(w, false)
  {
  }

  lemma {:induction false} BriefRunFrom(d: Design, b: Stmt, i: nat, w: World, l: nat)
    requires b.Block? && (forall i | 0 <= i < |b.items| :: Still(b.items[i])) && !Writes(b, l) && Telling(d)
    ensures Brief(w, RunFrom(d, b, i, w), l)
    decreases w.ticks, Size(b), 1, |b.items| - i
  {
    hide Run, Still, Writes, Briefly, Telling;
    BriefSelf(w, l);
    WritesChild(b, l);
    if i < |b.items| {
      BriefRun(d, Children(b)[i], w, l);
      var o := Run(d, Children(b)[i], w);
      if o.Fin? {
        BriefRunFrom(d, b, i + 1, o.w, l);
        if RunFrom(d, b, i + 1, o.w).Fin? { BrieflyOn(w, o.w, RunFrom(d, b, i + 1, o.w).w, l); }
      }
    }
  }

  lemma ForWrites(s: Stmt, l: nat)
    requires s.Loop? && !Writes(s, l) && s.kind.For?
    ensures s.kind.first.lvalue != l && s.kind.next.lvalue != l
  {
  }

  lemma {:induction false} BriefLoopStart(d: Design, s: Stmt, w: World, l: nat)
    requires s.Loop? && Still(s) && !Writes(s, l) && Telling(d)
    ensures Brief(w, LoopStart(d, s, w), l)
    decreases w.ticks, Size(s), 3
  {
    hide LoopGo, MoveNow, Still, Writes, Briefly, Telling;
    BriefSelf(w, l);
    match s.kind
    case Forever => BriefLoopGo(d, s, 0, w, l);
    case Repeat(e) => BriefLoopGo(d, s, d.times(e, w.store) % TWO32, w, l);
    case While(_) => BriefLoopGo(d, s, 0, w, l);
    case For(first, _, _) =>
      var v := MoveNow(d, first, w);
      ForWrites(s, l);
      BriefMove(d, first, w, l);
      BriefLoopGo(d, s, 0, v, l);
      if LoopGo(d, s, 0, v).Fin? { BrieflyOn(w, v, LoopGo(d, s, 0, v).w, l); }
  }

  lemma {:induction false} BriefLoopGo(d: Design, s: Stmt, n: nat, w: World, l: nat)
    requires s.Loop? && Still(s) && !Writes(s, l) && Telling(d)
    ensures Brief(w, LoopGo(d, s, n, w), l)
    decreases w.ticks, Size(s), 1
  {
    hide Run, LoopNext, Still, Writes, Telling, Count;
    StillFree(s);
    WritesChild(s, l);
    if w.ticks > 0 {
      var v := w.(ticks := w.ticks - 1);
      BriefRun(d, Children(s)[0], v, l);
      var o := Run(d, Children(s)[0], v);
      if o.Fin? { BriefLoopNext(d, s, n, o.w, l); }
    }
  }

  lemma {:induction false} BriefLoopNext(d: Design, s: Stmt, n: nat, w: World, l: nat)
    requires s.Loop? && Still(s) && !Writes(s, l) && Telling(d)
    ensures Brief(w, LoopNext(d, s, n, w), l)
    decreases w.ticks, Size(s), 2
  {
    hide LoopGo, MoveNow, Still, Writes, Briefly, Telling;
    BriefSelf(w, l);
    match s.kind
    case Forever => BriefLoopGo(d, s, 0, w, l);
    case Repeat(_) => if n > 1 { BriefLoopGo(d, s, n - 1, w, l); }
    case While(_) => BriefLoopGo(d, s, 0, w, l);
    case For(_, _, next) =>
      var v := MoveNow(d, next, w);
      ForWrites(s, l);
      BriefMove(d, next, w, l);
      BriefLoopGo(d, s, 0, v, l);
      if LoopGo(d, s, 0, v).Fin? { BrieflyOn(w, v, LoopGo(d, s, 0, v).w, l); }
  }

  /** A for loop whose next assignment stores something, in a net of its own; the
      body waits only at its control. */
  ghost predicate Counted(d: Design, s: Stmt) {
    AroundDelayed(s) && s.kind.For? && Telling(d) && !Writes(s.body, s.kind.next.lvalue) &&
    (forall i | 0 <= i < |s.body.items| :: Still(s.body.items[i])) &&
    forall st: Store :: !d.value(s.kind.next.rvalue, st).tristate
  }

  lemma BodyBrief(d: Design, s: Stmt, w: World)
    requires Counted(d, s)
    ensures Brief(w, Body(d, s.body, w), s.kind.next.lvalue)
  {
    hide RunFrom, Still, Writes, Briefly;
    BriefRunFrom(d, s.body, 0, w, s.kind.next.lvalue);
  }

  /** `v` comes from `w` by `i` waits and `j` assignments of the loop. */
  ghost predicate Steps(w: World, v: World, i: nat, j: nat, l: nat) {
    w.log <= v.log && v.wakes == w.wakes + i && Count(v.log, l) == Count(w.log, l) + j
  }

  lemma StepsOn(w: World, v: World, u: World, i: nat, j: nat, p: nat, q: nat, l: nat)
    requires Steps(w, v, i, j, l) && Steps(v, u, p, q, l)
    ensures Steps(w, u, i + p, j + q, l)
  {
    hide Count;
  }

  lemma BriefSteps(w: World, v: World, l: nat)
    requires Briefly(w, v, l)
    ensures Steps(w, v, 0, 0, l)
  {
  }

  lemma NextSteps(d: Design, s: Stmt, w: World)
    requires Counted(d, s)
    ensures var v := MoveNow(d, s.kind.next, w);
      Steps(w, v, 0, 1, s.kind.next.lvalue) && v.ticks == w.ticks && |v.log| == |w.log| + 1 && v.wakes == w.wakes
  {
    hide Writes, Still;
    var c := Read(d, s.kind.next, w);
    CountMore(w.log, Wrote(w.now, c.target, c.value), s.kind.next.lvalue);
  }

  lemma WaitSteps(d: Design, s: Stmt, w: World, l: nat)
    requires s.Loop? && Waiting(d, s, w).Fin?
    ensures Steps(w, Waiting(d, s, w).w, 1, 0, l) && Waiting(d, s, w).w.ticks < w.ticks
  {
    hide Count;
  }

  /** The machine assigns at least once for every wait, and exactly once only if
      the loop ends after the first one. */
  lemma {:induction false} ForSkip(d: Design, s: Stmt, w: World) returns (i: nat, j: nat)
    requires Counted(d, s) && SkipGo(d, s, 0, {}, w).Fin?
    ensures Steps(w, SkipGo(d, s, 0, {}, w).w, i, j, s.kind.next.lvalue) && 1 <= i <= j
    ensures var x := Waiting(d, s, w);
      x.Fin? && var x1 := MoveNow(d, s.kind.next, x.w);
      if d.test(s.kind.test, x1.store) then i < j else i == j == 1 && SkipGo(d, s, 0, {}, w).w == x1
    decreases w.ticks
  {
    hide Body, SkipGo, Waiting, Working, Steps, MoveNow, Counted, Count;
    CountedIs(d, s);
    var l := s.kind.next.lvalue;
    SkipWaits(d, s, 0, w);
    var x := Waiting(d, s, w).w;
    var x1 := MoveNow(d, s.kind.next, x);
    WaitSteps(d, s, w, l);
    NextSteps(d, s, x);
    StepsOn(w, x, x1, 1, 0, 0, 1, l);
    i, j := 1, 1;
    if d.test(s.kind.test, x1.store) {
      SkipWorks(d, s, 0, x1);
      WorkingIs(d, s, x1);
      var v := x1.(ticks := x1.ticks - 1);
      var y := Body(d, s.body, v).w;
      var y1 := MoveNow(d, s.kind.next, y);
      BodyBrief(d, s, v);
      BriefSteps(v, y, l);
      TickSteps(w, x1, v, 1, 1, l);
      StepsOn(w, v, y, 1, 1, 0, 0, l);
      NextSteps(d, s, y);
      StepsOn(w, y, y1, 1, 1, 0, 1, l);
      i, j := 1, 2;
      if d.test(s.kind.test, y1.store) {
        var p, q := ForSkip(d, s, y1);
        StepsOn(w, y1, SkipGo(d, s, 0, {}, y1).w, 1, 2, p, q, l);
        i, j := 1 + p, 2 + q;
      }
    }
  }

  lemma CountedIs(d: Design, s: Stmt)
    requires Counted(d, s)
    ensures AroundDelayed(s) && s.kind.For?
  {
    hide Still, Writes;
  }

  lemma TickSteps(w: World, v: World, u: World, i: nat, j: nat, l: nat)
    requires Steps(w, v, i, j, l) && v.ticks > 0 && u == v.(ticks := v.ticks - 1)
    ensures Steps(w, u, i, j, l)
  {
  }

  /** The plain loop assigns exactly once for every wait. */
  lemma {:induction false} ForLoop(d: Design, s: Stmt, v: World) returns (i: nat)
    requires Counted(d, s) && LoopGo(d, s, 0, v).Fin?
    ensures Steps(v, LoopGo(d, s, 0, v).w, i, i, s.kind.next.lvalue) && 1 <= i
    ensures var x := Waiting(d, s, v);
      x.Fin? && Body(d, s.body, x.w).Fin? &&
      var y := Body(d, s.body, x.w).w;
      var y1 := MoveNow(d, s.kind.next, y);
      Briefly(x.w, y, s.kind.next.lvalue) &&
      if d.test(s.kind.test, y1.store) then i > 1 else i == 1 && LoopGo(d, s, 0, v).w == y1
    decreases v.ticks
  {
    hide Body, LoopGo, Waiting, Steps, MoveNow, Counted, Briefly;
    CountedIs(d, s);
    var l := s.kind.next.lvalue;
    LoopDoes(d, s, 0, v);
    var x := Waiting(d, s, v).w;
    var y := Body(d, s.body, x).w;
    var y1 := MoveNow(d, s.kind.next, y);
    WaitSteps(d, s, v, l);
    BodyBrief(d, s, x);
    BriefSteps(x, y, l);
    StepsOn(v, x, y, 1, 0, 0, 0, l);
    NextSteps(d, s, y);
    StepsOn(v, y, y1, 1, 0, 0, 1, l);
    i := 1;
    if d.test(s.kind.test, y1.store) {
      var p := ForLoop(d, s, y1);
      StepsOn(v, y1, LoopGo(d, s, 0, y1).w, 1, 1, p, p, l);
      i := 1 + p;
    }
  }

  /** The same for such a for loop: exactly if the test fails after the first wait
      and the next assignment, and the body does nothing. */
  lemma ForAgrees(d: Design, s: Stmt, w: World, v: World)
    requires Counted(d, s) && Tickless(d) && SameWork(w, v) && SkipStart(d, s, {}, w).Fin? && LoopStart(d, s, v).Fin?
    ensures var v1 := MoveNow(d, s.kind.first, v);
      var x := Waiting(d, s, v1).w;
      SameWork(SkipStart(d, s, {}, w).w, LoopStart(d, s, v).w) <==>
        (d.test(s.kind.test, v1.store) ==>
           !d.test(s.kind.test, MoveNow(d, s.kind.next, x).store) && SameWork(x, Body(d, s.body, x).w))
  {
    hide SkipGo, LoopGo, Waiting, Body, Steps, Counted, MoveNow, Tickless, Briefly;
    CountedIs(d, s);
    SameMove(d, s.kind.first, w, v);
    var w1, v1 := MoveNow(d, s.kind.first, w), MoveNow(d, s.kind.first, v);
    WorkWakes(w1, v1);
    if d.test(s.kind.test, v1.store) { ForGo(d, s, w1, v1); }
  }

  lemma SameMove(d: Design, move: Move, w: World, v: World)
    requires SameWork(w, v)
    ensures SameWork(MoveNow(d, move, w), MoveNow(d, move, v))
  {
  }

  lemma ForGo(d: Design, s: Stmt, w: World, v: World)
    requires Counted(d, s) && Tickless(d) && SameWork(w, v) && SkipGo(d, s, 0, {}, w).Fin? && LoopGo(d, s, 0, v).Fin?
    ensures var x := Waiting(d, s, v).w;
      SameWork(SkipGo(d, s, 0, {}, w).w, LoopGo(d, s, 0, v).w) <==>
        !d.test(s.kind.test, MoveNow(d, s.kind.next, x).store) && SameWork(x, Body(d, s.body, x).w)
  {
    hide SkipGo, LoopGo, Waiting, Body, Steps, Counted, MoveNow, Tickless, Briefly, SameWork;
    CountedIs(d, s);
    var l := s.kind.next.lvalue;
    var i, j := ForSkip(d, s, w);
    var p := ForLoop(d, s, v);
    SameWait(d, s, w, v);
    var x, u := Waiting(d, s, w).w, Waiting(d, s, v).w;
    var y := Body(d, s.body, u).w;
    SameMove(d, s.kind.next, x, u);
    WorkWakes(MoveNow(d, s.kind.next, x), MoveNow(d, s.kind.next, u));
    var r, q := SkipGo(d, s, 0, {}, w).w, LoopGo(d, s, 0, v).w;
    if SameWork(r, q) {
      SameSteps(w, r, v, q, i, j, p, p, l);
      NextSteps(d, s, x);
      NextSteps(d, s, y);
      ForFirst(x, u, y, MoveNow(d, s.kind.next, x), MoveNow(d, s.kind.next, y), l);
    }
    if SameWork(u, y) {
      SameMove(d, s.kind.next, u, y);
      WorkWakes(MoveNow(d, s.kind.next, u), MoveNow(d, s.kind.next, y));
      SameTwice(MoveNow(d, s.kind.next, x), MoveNow(d, s.kind.next, u), MoveNow(d, s.kind.next, y));
    }
  }

  lemma SameTwice(w: World, v: World, u: World)
    requires SameWork(w, v) && SameWork(v, u)
    ensures SameWork(w, u)
  {
  }

  lemma SameSteps(w: World, r: World, v: World, q: World, i: nat, j: nat, p: nat, n: nat, l: nat)
    requires SameWork(w, v) && SameWork(r, q) && Steps(w, r, i, j, l) && Steps(v, q, p, n, l)
    ensures i == p && j == n
  {
  }

  lemma ForFirst(x: World, u: World, y: World, x1: World, y1: World, l: nat)
    requires SameWork(x, u) && Briefly(u, y, l) && SameWork(x1, y1) && |x1.log| == |x.log| + 1 &&
      |y1.log| == |y.log| + 1
    ensures SameWork(u, y)
  {
    hide Count;
  }

  // ----- whole processes -----

  /** When restarts agree with the plain semantics that begins in `v`. */
  ghost predicate Agrees(d: Design, s: Stmt, v: World)
    requires AroundDelayed(s)
  {
    match s.kind
    case Forever => true
    case Repeat(e) =>
      var n := d.times(e, v.store) % TWO32;
      var x := Waiting(d, s, v).w;
      n == 0 || (n == 1 && SameWork(x, Body(d, s.body, x).w))
    case While(e) => d.test(e, v.store) ==> TestsHold(d, s, v)
    case For(first, e, next) =>
      var v1 := MoveNow(d, first, v);
      var x := Waiting(d, s, v1).w;
      d.test(e, v1.store) ==> !d.test(e, MoveNow(d, next, x).store) && SameWork(x, Body(d, s.body, x).w)
  }

  /** A process that consists of a loop around a delayed block, in any environment
      that does not see the step bound: if its restarts end, and the plain run
      ends, under whatever bounds, they have done the same exactly if the loop
      meets that condition. */
  lemma DelayedBodyAgrees(d: Design, a: Stmt, s: Stmt, w: World, v: World, x: World)
    requires Around(d, a, 0) && |a.items| == 1 && s == a.items[0] && AroundDelayed(s) && s.dec.Free? && Item(d, s.body)
    requires !d.atomic && Tickless(d) && SameWork(w, v) && (s.kind.For? ==> Counted(d, s))
    requires RunEnds(d, a, Start(w), Fin(x, true)) && RunProcess(d, a, Woken(d, v)).Fin?
    ensures SameWork(x, RunProcess(d, a, Woken(d, v)).w) <==> Agrees(d, s, Woken(d, v))
  {
    hide SkipStart, LoopStart, RunEnds, Around, RunFrom, Item, Tickless, TestsHold, Body, Waiting, MoveNow, Counted,
      Rejoined;
    var u, t := Woken(d, w), Woken(d, v);
    WokenSame(d, w, v);
    AroundBlock(d, a, 0);
    ProcessSkips(d, a, w, s);
    LastJoined(d, a, SkipStart(d, s, {}, u));
    RunEndsOnce(d, a, Start(w), Fin(x, true), Rejoined(d, a, 0, SkipStart(d, s, {}, u)));
    LastRuns(d, a, t);
    LoopRun(d, s, t);
    match s.kind
    case Forever => NeverEnds(d, s, t);
    case Repeat(_) => RepeatAgrees(d, s, u, t);
    case While(_) => WhileAgrees(d, s, u, t);
    case For(_, _, _) => ForAgrees(d, s, u, t);
  }

  lemma WokenSame(d: Design, w: World, v: World)
    requires Tickless(d) && SameWork(w, v)
    ensures SameWork(Woken(d, w), Woken(d, v))
  {
    assert w == v.(ticks := w.ticks);
  }

  lemma LoopRun(d: Design, s: Stmt, w: World)
    requires s.Loop? && s.dec.Free?
    ensures Run(d, s, w) == LoopStart(d, s, w)
  {
    hide LoopStart;
  }

  lemma {:induction false} NeverEnds(d: Design, s: Stmt, w: World)
    requires s.Loop? && s.kind.Forever?
    ensures LoopGo(d, s, 0, w).Cut? && LoopStart(d, s, w) == LoopGo(d, s, 0, w)
    decreases w.ticks
  {
    hide Run;
    if w.ticks > 0 {
      var o := Run(d, Children(s)[0], w.(ticks := w.ticks - 1));
      if o.Fin? {
        NeverEnds(d, s, o.w);
        assert LoopNext(d, s, 0, o.w) == LoopGo(d, s, 0, o.w);
      }
    }
  }

  lemma RunEndsOnce(d: Design, a: Stmt, m: State, o: Outcome, u: Outcome)
    requires RunEnds(d, a, m, o) && RunEnds(d, a, m, u)
    ensures o.w == u.w && (o.Fin? <==> u.Fin?)
  {
    hide RunEnds, Restarted;
    DelayedEnds(d, a, Result(m, Delayed), o);
    DelayedEnds(d, a, Result(m, Delayed), u);
    EndsOnce(d, a, Result(m, Delayed), o, u);
  }
}
