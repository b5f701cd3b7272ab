/** A loop directly under an if or a case: the restart that follows a suspended
    iteration goes on behind the outermost statement and the loop is never
    continued. */
module BranchedLoops {
  import opened Program
  import opened Machine
  import opened Shape
  import opened Refinement
  import opened Restarts
  import opened Branches

  // ----- a loop that ends with the first iteration that pauses -----

  function OnceStart(d: Design, s: Stmt, w: World): (o: Outcome)
    requires s.Loop?
  {
    match s.kind
    case Forever => OnceGo(d, s, 0, w)
    case Repeat(e) =>
      var n := d.times(e, w.store) % TWO32;
      if n == 0 then Fin(w, false) else OnceGo(d, s, n, w)
    case While(e) => if d.test(e, w.store) then OnceGo(d, s, 0, w) else Fin(w, false)
    case For(first, e, _) =>
      var w1 := MoveNow(d, first, w);
      if d.test(e, w1.store) then OnceGo(d, s, 0, w1) else Fin(w1, false)
  }

  function OnceGo(d: Design, s: Stmt, n: nat, w: World): (o: Outcome)
    requires s.Loop?
    decreases w.ticks, 0
  {
    var o := Iteration(d, s, w);
    if o.Cut? || o.paused then o else OnceNext(d, s, n, o.w)
  }

  function OnceNext(d: Design, s: Stmt, n: nat, w: World): (o: Outcome)
    requires s.Loop?
    decreases w.ticks, 1
  {
    match s.kind
    case Forever => OnceGo(d, s, 0, w)
    case Repeat(_) => if n <= 1 then Fin(w, false) else OnceGo(d, s, n - 1, w)
    case While(e) => if d.test(e, w.store) then OnceGo(d, s, 0, w) else Fin(w, false)
    case For(_, e, next) =>
      var w1 := MoveNow(d, next, w);
      if d.test(e, w1.store) then OnceGo(d, s, 0, w1) else Fin(w1, false)
  }

  /** One iteration. */
  function Iteration(d: Design, s: Stmt, w: World): (o: Outcome)
    requires s.Loop?
    ensures o.Fin? ==> o.w.ticks < w.ticks
  {
    if w.ticks == 0 then Cut(w) else Run(d, Children(s)[0], w.(ticks := w.ticks - 1))
  }

  // ----- the machine does that -----

  /** The loop `s` stands under the statement at position `k`, and its body may
      stand in a loop. */
  ghost predicate Under(d: Design, a: Stmt, k: nat, s: Stmt) {
    Around(d, a, k) && !a.items[k].Loop? && s.Loop? && Unique(s) && Ids(s) <= Kids(a.items[k]) && Item(d, s.body) &&
    Sheltered(s.body) && Size(s) < Size(a)
  }

  ghost predicate LoopEnds(d: Design, a: Stmt, k: nat, r: Result, o: Outcome)
    requires a.Block?
  {
    EndsWith(d, a, GoOn(d, a, k, r), Rejoined(d, a, k, o))
  }

  lemma UnderBody(d: Design, a: Stmt, k: nat, s: Stmt)
    requires Under(d, a, k, s)
    ensures var c := Children(s)[0];
      c == s.body && Item(d, c) && Unique(c) && Ids(c) <= Kids(s) && Ids(c) <= Ids(a.items[k]) - {s.id} &&
      Size(c) < Size(a)
    ensures a.Block? && Ids(s) <= Ids(a.items[k]) && {s.id} <= Ids(a.items[k]) && a.id !in Ids(s)
  {
    IdsChild(s, 0);
    SelfId(s);
    AroundId(d, a, k);
    hide Ids, Unique, Item;
  }

  /** The loop has ended without a pause. */
  lemma LoopDone(d: Design, a: Stmt, k: nat, s: Stmt, m: State, w: World)
    requires Under(d, a, k, s) && !d.atomic && At(m, a, k, {})
    ensures LoopEnds(d, a, k, Result(m.(world := w), Done), Fin(w, false))
  {
    hide Ids, Item, EndsWith, RunFrom, Items, Unique;
    AroundId(d, a, k);
    Passes(d, a, k, {}, m.(world := w), Result(m.(world := w), Done));
  }

  lemma {:induction false} GoEnds(d: Design, a: Stmt, k: nat, s: Stmt, m: State)
    requires Under(d, a, k, s) && !d.atomic && At(m, a, k, {}) && Counting(m, s)
    ensures LoopEnds(d, a, k, LoopGoM(d, s, m), OnceGo(d, s, N(s, Of(m, s.id)), m.world))
    decreases m.world.ticks, 0
  {
    hide Ids, Item, EndsWith, RunFrom, Items, Unique, Run, Trigger, LoopNextM, OnceNext, Suspended, Around, Size,
      GoOn, Rejoined;
    UnderBody(d, a, k, s);
    if m.world.ticks == 0 {
      BoundEnds(d, a, k, LoopGoM(d, s, m));
    } else {
      var c := Children(s)[0];
      var m1 := m.(world := m.world.(ticks := m.world.ticks - 1));
      var r := Trigger(d, c, m1);
      var o := Run(d, c, m1.world);
      BodyTriggered(d, a, k, s, m1);
      match r.status
      case Done =>
        IterationKept(d, a, k, s, m, m1, r.m);
        NextEnds(d, a, k, s, r.m);
      case Delayed => IterationPaused(d, a, k, s, m, m1, r);
      case Bound => BoundEnds(d, a, k, r);
      case _ =>
    }
  }

  lemma BodyTriggered(d: Design, a: Stmt, k: nat, s: Stmt, m: State)
    requires Under(d, a, k, s) && At(m, a, k, {})
    ensures Refinement.Post(d, Children(s)[0], m, Trigger(d, Children(s)[0], m), Run(d, Children(s)[0], m.world))
  {
    hide Ids, Item, Unique, Run, Trigger, Suspended, Size;
    UnderBody(d, a, k, s);
    AroundId(d, a, k);
    IdleRuns(d, m, Children(s)[0], m.world);
    TriggerOk(d, Children(s)[0], m);
  }

  lemma IterationKept(d: Design, a: Stmt, k: nat, s: Stmt, m: State, m1: State, n: State)
    requires Under(d, a, k, s) && At(m, a, k, {}) && m1 == m.(world := m1.world) && Quiet(m1, n, Ids(Children(s)[0]))
    ensures At(n, a, k, {}) && Of(n, s.id) == Of(m, s.id)
  {
    hide Ids, Item, Unique, Size;
    UnderBody(d, a, k, s);
    AroundId(d, a, k);
    CleanOutside(a, k, s, m, m1, n);
  }

  lemma CleanOutside(a: Stmt, k: nat, s: Stmt, m: State, m1: State, n: State)
    requires s.Loop? && Ids(Children(s)[0]) <= Kids(a) && Clean(m, Kids(a))
    requires m1.fields == m.fields && Quiet(m1, n, Ids(Children(s)[0]))
    ensures Clean(n, Kids(a))
  {
    hide Ids;
    forall x | x in Kids(a) ensures Idle(Of(n, x)) {
      if x !in Ids(Children(s)[0]) { assert Of(n, x) == Of(m1, x) == Of(m, x); }
    }
  }

  /** The first iteration that pauses is the last one. */
  lemma IterationPaused(d: Design, a: Stmt, k: nat, s: Stmt, m: State, m1: State, r: Result)
    requires Under(d, a, k, s) && !d.atomic && At(m, a, k, {}) && m.world.ticks > 0
    requires m1 == m.(world := m.world.(ticks := m.world.ticks - 1)) && r == Trigger(d, Children(s)[0], m1)
    requires r.status.Delayed? && Refinement.Post(d, Children(s)[0], m1, r, Run(d, Children(s)[0], m1.world))
    ensures LoopEnds(d, a, k, LoopGoM(d, s, m), OnceGo(d, s, N(s, Of(m, s.id)), m.world))
  {
    hide Ids, Item, EndsWith, RunFrom, Items, Unique, Run, Trigger, LoopNextM, OnceNext, Suspended, Size;
    var c := Children(s)[0];
    UnderBody(d, a, k, s);
    BodyPauses(d, c, m1, r, Run(d, c, m1.world));
    var q := LoopGoM(d, s, m);
    Enters(d, a, k, c, {s.id}, m1, q);
  }

  lemma BodyPauses(d: Design, c: Stmt, m: State, r: Result, o: Outcome)
    requires r.status.Delayed? && Refinement.Post(d, c, m, r, o) && Sheltered(c)
    ensures Enterable(c) && (o.Fin? ==> o.paused)
  {
    hide Still, Ids, Later, Hung;
  }

  lemma {:induction false} NextEnds(d: Design, a: Stmt, k: nat, s: Stmt, m: State)
    requires Under(d, a, k, s) && !d.atomic && At(m, a, k, {}) && Counting(m, s)
    ensures LoopEnds(d, a, k, LoopNextM(d, s, m), OnceNext(d, s, N(s, Of(m, s.id)), m.world))
    decreases m.world.ticks, 1
  {
    hide Ids, Item, Unique, LoopGoM, OnceGo, Around, Size, LoopEnds;
    UnderBody(d, a, k, s);
    match s.kind
    case Forever => GoEnds(d, a, k, s, m);
    case Repeat(_) =>
      var f := Of(m, s.id);
      var m1 := Set(m, s.id, f.(count := f.count - 1));
      if f.count > 1 { GoEnds(d, a, k, s, m1); } else { LoopDone(d, a, k, s, m1, m.world); }
    case While(e) => if d.test(e, m.world.store) { GoEnds(d, a, k, s, m); } else { LoopDone(d, a, k, s, m, m.world); }
    case For(_, e, next) =>
      var m1 := m.(world := MoveNow(d, next, m.world));
      if d.test(e, m1.world.store) { GoEnds(d, a, k, s, m1); } else { LoopDone(d, a, k, s, m1, m1.world); }
  }

  lemma {:induction false} StartEnds(d: Design, a: Stmt, k: nat, s: Stmt, m: State)
    requires Under(d, a, k, s) && !d.atomic && At(m, a, k, {})
    ensures LoopEnds(d, a, k, LoopStartM(d, s, m), OnceStart(d, s, m.world))
  {
    hide Ids, Item, Unique, LoopGoM, OnceGo, Around, Size, LoopEnds;
    UnderBody(d, a, k, s);
    match s.kind
    case Forever => GoEnds(d, a, k, s, m);
    case Repeat(e) =>
      var n := d.times(e, m.world.store) % TWO32;
      var m1 := Set(m, s.id, Of(m, s.id).(count := n));
      if n > 0 { GoEnds(d, a, k, s, m1); } else { LoopDone(d, a, k, s, m1, m.world); }
    case While(e) => if d.test(e, m.world.store) { GoEnds(d, a, k, s, m); } else { LoopDone(d, a, k, s, m, m.world); }
    case For(first, e, _) =>
      var m1 := m.(world := MoveNow(d, first, m.world));
      if d.test(e, m1.world.store) { GoEnds(d, a, k, s, m1); } else { LoopDone(d, a, k, s, m1, m1.world); }
  }

  /** The statement at position `k` leads to the loop `s` in the present store. */
  ghost predicate LeadsTo(d: Design, a: Stmt, k: nat, m: State, s: Stmt) {
    Around(d, a, k) && At(m, a, k, {}) && s == Leaf(d, a.items[k], m.world.store) && s != a.items[k] &&
    s.Loop? && s.dec.Free? && Item(d, s.body) && Sheltered(s.body)
  }

  lemma LeadsUnder(d: Design, a: Stmt, k: nat, m: State, s: Stmt)
    requires LeadsTo(d, a, k, m, s)
    ensures Under(d, a, k, s) && Run(d, a.items[k], m.world) == Run(d, s, m.world)
    ensures Items(d, a, k, m) == GoOn(d, a, k, LoopStartM(d, s, m)) && Run(d, s, m.world) == LoopStart(d, s, m.world)
  {
    assert Branching(a.items[k]) by { hide Item, Unique, Ids; }
    hide Ids, Item, Unique, Run, Trigger, Size, LoopStartM, LoopStart, Leaf;
    AroundId(d, a, k);
    LeafRuns(d, a.items[k], m);
    LeafInside(d, a.items[k], m.world.store);
    SelfId(s);
    LoopTriggered(d, s, m);
    assert Children(a)[k] == a.items[k];
  }

  lemma LoopTriggered(d: Design, s: Stmt, m: State)
    requires s.Loop? && s.dec.Free? && !Of(m, s.id).looped
    ensures Trigger(d, s, m) == LoopStartM(d, s, m) && Run(d, s, m.world) == LoopStart(d, s, m.world)
  {
    hide LoopStart, LoopStartM, LoopNextM;
  }

  /** What the restarting interpreter makes of a loop under an if or a case: it
      is left for good with the first iteration that pauses, and the process
      goes on behind the outermost if or case. */
  lemma LoopLeftEarly(d: Design, a: Stmt, k: nat, m: State, s: Stmt)
    requires LeadsTo(d, a, k, m, s) && !d.atomic
    ensures EndsWith(d, a, Items(d, a, k, m), Rejoined(d, a, k, OnceStart(d, s, m.world)))
  {
    hide LeadsTo, Under, At, Items, LoopStart, LoopStartM, OnceStart, EndsWith, RunFrom, Run, Around, Rejoined, GoOn;
    LeadsUnder(d, a, k, m, s);
    LeadsBlock(d, a, k, m, s);
    StartEnds(d, a, k, s, m);
  }

  lemma LeadsBlock(d: Design, a: Stmt, k: nat, m: State, s: Stmt)
    requires LeadsTo(d, a, k, m, s)
    ensures a.Block? && k < |a.items| && At(m, a, k, {}) && s.Loop?
  {
    hide Item, Unique;
  }

  /** A loop that was left keeps its flag and its count: when the conditions lead
      to it once more, it is taken up behind its body with the old count. */
  lemma AbandonedResumes(d: Design, a: Stmt, k: nat, m: State, s: Stmt)
    requires Under(d, a, k, s) && s == Leaf(d, a.items[k], m.world.store) && s.dec.Free? && !d.atomic
    requires At(m, a, k, {s.id}) && Loops(s, Of(m, s.id))
    ensures EndsWith(d, a, Items(d, a, k, m), Rejoined(d, a, k, OnceNext(d, s, N(s, Of(m, s.id)), m.world)))
  {
    hide Ids, Item, Unique, Trigger, Size, LoopNextM, LoopStartM, OnceNext, Leaf, EndsWith, RunFrom, Around, Under,
      LoopEnds, Items;
    UnderBody(d, a, k, s);
    UnderBranch(d, a, k, s);
    LeafRuns(d, a.items[k], m);
    var n := Set(m, s.id, Of(m, s.id).(looped := false));
    AbandonedTriggers(d, s, m);
    LeftClean(a, k, s, m, n);
    NextEnds(d, a, k, s, n);
    AbandonedItems(d, a, k, m, LoopNextM(d, s, n), OnceNext(d, s, N(s, Of(m, s.id)), m.world));
  }

  lemma UnderBranch(d: Design, a: Stmt, k: nat, s: Stmt)
    requires Under(d, a, k, s)
    ensures a.Block? && k < |a.items| && s.Loop? && s.id != a.id
  {
    hide Ids, Item, Unique;
    UnderBody(d, a, k, s);
    SelfId(s);
  }

  lemma AbandonedTriggers(d: Design, s: Stmt, m: State)
    requires s.Loop? && s.dec.Free? && Of(m, s.id).looped
    ensures Trigger(d, s, m) == LoopNextM(d, s, Set(m, s.id, Of(m, s.id).(looped := false)))
  {
    hide LoopNextM, LoopStartM;
  }

  lemma LeftClean(a: Stmt, k: nat, s: Stmt, m: State, n: State)
    requires s.Loop? && At(m, a, k, {s.id}) && Loops(s, Of(m, s.id)) && s.dec.Free? && s.id != a.id
    requires n == Set(m, s.id, Of(m, s.id).(looped := false))
    ensures At(n, a, k, {}) && Counting(n, s) && N(s, Of(n, s.id)) == N(s, Of(m, s.id)) && n.world == m.world
  {
    hide Ids;
  }

  lemma AbandonedItems(d: Design, a: Stmt, k: nat, m: State, r: Result, o: Outcome)
    requires a.Block? && k < |a.items| && m.stk != [] && Trigger(d, a.items[k], m) == r && LoopEnds(d, a, k, r, o)
    ensures EndsWith(d, a, Items(d, a, k, m), Rejoined(d, a, k, o))
  {
    hide Trigger, EndsWith, RunFrom;
    assert Children(a)[k] == a.items[k];
  }

  // ----- when that is what the plain semantics says -----

  /** Is there a first iteration, and where does it begin? */
  function Entry(d: Design, s: Stmt, w: World): (e: (bool, World))
    requires s.Loop?
  {
    match s.kind
    case Forever => (true, w)
    case Repeat(e) => (Times(d, s, w) > 0, w)
    case While(e) => (d.test(e, w.store), w)
    case For(first, e, _) => (d.test(e, MoveNow(d, first, w).store), MoveNow(d, first, w))
  }

  function Times(d: Design, s: Stmt, w: World): nat
    requires s.Loop?
  {
    if s.kind.Repeat? then d.times(s.kind.times, w.store) % TWO32 else 0
  }

  /** The loop ends with nothing more to do when an iteration has ended in `w`. */
  predicate Exits(d: Design, s: Stmt, n: nat, w: World)
    requires s.Loop?
  {
    match s.kind
    case Forever => false
    case Repeat(_) => n <= 1
    case While(e) => !d.test(e, w.store)
    case For(_, e, next) => Read(d, next, w).value.tristate && !d.test(e, w.store)
  }

  lemma ExitsExactly(d: Design, s: Stmt, n: nat, w: World)
    requires s.Loop?
    ensures Exits(d, s, n, w) <==> LoopNext(d, s, n, w).Fin? && LoopNext(d, s, n, w).w == w
  {
    hide Run;
    match s.kind
    case Forever => GoCosts(d, s, 0, w);
    case Repeat(_) => if n > 1 { GoCosts(d, s, n - 1, w); }
    case While(_) => GoCosts(d, s, 0, w);
    case For(_, _, next) =>
      GoCosts(d, s, 0, MoveNow(d, next, w));
      assert MoveNow(d, next, w) == w <==> Read(d, next, w).value.tristate by { MoveLogs(d, next, w); }
  }

  lemma MoveLogs(d: Design, move: Move, w: World)
    ensures MoveNow(d, move, w) == w <==> Read(d, move, w).value.tristate
    ensures MoveNow(d, move, w).ticks == w.ticks
  {
    if !Read(d, move, w).value.tristate { assert |MoveNow(d, move, w).log| == |w.log| + 1; }
  }

  lemma GoCosts(d: Design, s: Stmt, n: nat, w: World)
    requires s.Loop?
    ensures LoopGo(d, s, n, w).Fin? ==> LoopGo(d, s, n, w).w.ticks < w.ticks
  {
    hide Run, LoopNext;
  }

  /** The loop in the plain semantics and in the machine, if an iteration that
      ends has paused. */
  lemma FirstIteration(d: Design, s: Stmt, w: World)
    requires s.Loop? && var one := Iteration(d, s, Entry(d, s, w).1); one.Fin? ==> one.paused
    ensures var e := Entry(d, s, w);
      var one := Iteration(d, s, e.1);
      if e.0 then
        OnceStart(d, s, w) == one &&
        LoopStart(d, s, w) == if one.Cut? then one else Join(true, LoopNext(d, s, Times(d, s, w), one.w))
      else OnceStart(d, s, w) == LoopStart(d, s, w)
  {
    hide Run, LoopNext;
  }

  /** A loop as the last statement, under an if or a case, whose iterations
      pause: restarts agree with the plain semantics exactly if the loop is not
      entered, or the first iteration meets the step bound, or the loop ends
      with that iteration anyway; otherwise one iteration is all that is done. */
  lemma LoopAgrees(d: Design, a: Stmt, k: nat, m: State, s: Stmt)
    requires LeadsTo(d, a, k, m, s) && !d.atomic && k == |a.items| - 1
    requires var one := Iteration(d, s, Entry(d, s, m.world).1); one.Fin? ==> one.paused
    ensures var e := Entry(d, s, m.world);
      var one := Iteration(d, s, e.1);
      (e.0 ==> EndsWith(d, a, Items(d, a, k, m), one)) &&
      (EndsWith(d, a, Items(d, a, k, m), RunFrom(d, a, k, m.world)) <==>
         !e.0 || one.Cut? || Exits(d, s, Times(d, s, m.world), one.w))
  {
    hide LeadsTo, Items, LoopStart, OnceStart, EndsWith, RunFrom, Run, Rejoined, Exits, Entry, Times, Iteration,
      LoopNext;
    LeadsBlock(d, a, k, m, s);
    LeadsUnder(d, a, k, m, s);
    var e := Entry(d, s, m.world);
    var one := Iteration(d, s, e.1);
    var r := Items(d, a, k, m);
    LoopLeftEarly(d, a, k, m, s);
    FirstIteration(d, s, m.world);
    LastRuns(d, a, m.world);
    LastJoined(d, a, OnceStart(d, s, m.world));
    SameEnd(d, a, r, Rejoined(d, a, k, OnceStart(d, s, m.world)), RunFrom(d, a, k, m.world));
    SameEnd(d, a, r, Rejoined(d, a, k, OnceStart(d, s, m.world)), one);
    if e.0 && one.Fin? { ExitsExactly(d, s, Times(d, s, m.world), one.w); }
  }

  // ----- a repeat loop around a block that suspends -----

  /** `s` waits at least once, whichever branches it takes. */
  predicate Suspends(s: Stmt)
    decreases s
  {
    var cs := Children(s);
    !s.dec.Free? || (s.Assign? && !s.store.Free?) ||
    (s.Block? && exists i | 0 <= i < |cs| :: Suspends(cs[i])) ||
    ((s.If? || s.Case?) && forall i | 0 <= i < |cs| :: Suspends(cs[i]))
  }

  lemma {:induction false} SuspendsPauses(d: Design, s: Stmt, w: World)
    requires Suspends(s)
    ensures Run(d, s, w).Fin? ==> Run(d, s, w).paused
    decreases s, 0
  {
    hide Picked, RunFrom, LoopStart;
    if s.dec.Free? && (s.If? || s.Case?) {
      SuspendsPauses(d, Children(s)[Picked(d, s, w.store)], w);
      hide Run;
      assert Body(d, s, w) == Run(d, Children(s)[Picked(d, s, w.store)], w);
      FreeRuns(d, s, w);
    } else if s.dec.Free? && s.Block? {
      var i :| 0 <= i < |Children(s)| && Suspends(Children(s)[i]);
      ItemsPause(d, s, i, 0, w);
    }
  }

  lemma FreeRuns(d: Design, s: Stmt, w: World)
    requires s.dec.Free?
    ensures Run(d, s, w) == Body(d, s, w)
  {
    hide Body;
  }

  lemma {:induction false} ItemsPause(d: Design, b: Stmt, i: nat, j: nat, w: World)
    requires b.Block? && j <= i < |Children(b)| && Suspends(Children(b)[i])
    ensures RunFrom(d, b, j, w).Fin? ==> RunFrom(d, b, j, w).paused
    decreases b, 0, i - j
  {
    hide Run;
    if j == i {
      SuspendsPauses(d, Children(b)[i], w);
    } else {
      var o := Run(d, Children(b)[j], w);
      if o.Fin? { ItemsPause(d, b, i, j + 1, o.w); }
    }
  }

  /** A process that begins with an if or a case that leads to `repeat` around
      a statement that suspends: when the loop is entered one iteration is all
      that is done. If nothing follows, restarts agree with the plain semantics
      exactly if the count, cut to 32 bits, is at most 1 (or that iteration
      meets the step bound). */
  lemma RepeatUnderBranch(d: Design, a: Stmt, w: World, s: Stmt)
    requires Around(d, a, 0) && !d.atomic && s == Leaf(d, a.items[0], Woken(d, w).store) && s != a.items[0]
    requires s.Loop? && s.kind.Repeat? && s.dec.Free? && Item(d, s.body) && Sheltered(s.body) && Suspends(s.body)
    ensures var v := Woken(d, w);
      var n := d.times(s.kind.times, v.store) % TWO32;
      (n > 0 ==> RunEnds(d, a, Start(w), Rejoined(d, a, 0, Iteration(d, s, v)))) &&
      (|a.items| == 1 ==>
         (RunEnds(d, a, Start(w), RunProcess(d, a, v)) <==> n <= 1 || Iteration(d, s, v).Cut?))
  {
    hide Items, LoopStart, EndsWith, RunFrom, Run, Rejoined, Around, At, RunEnds, Item, Still, Suspends, Leaf;
    var v := Woken(d, w);
    var m := Push(a, Fresh(v));
    AroundBlock(d, a, 0);
    assert Children(s)[0] == s.body;
    if v.ticks > 0 { SuspendsPauses(d, s.body, v.(ticks := v.ticks - 1)); }
    var one := Iteration(d, s, v);
    FromStart(d, a, w, Rejoined(d, a, 0, one));
    LoopLeftEarly(d, a, 0, m, s);
    FirstIteration(d, s, v);
    if |a.items| == 1 {
      FromStart(d, a, w, RunProcess(d, a, v));
      LoopAgrees(d, a, 0, m, s);
    }
  }
}
