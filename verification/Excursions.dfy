/** The process is suspended in a block that a loop of its outermost block has
    led to: until it is back in the outermost block, it does what it would do if
    that block stood there by itself; then the loop goes on. */
module Excursions {
  import opened Program
  import opened Machine
  import opened Shape
  import opened Refinement
  import opened Restarts
  import opened SideBySide
  import opened Branches

  /** The process that ends with `t` at position `k`. */
  function Ending(a: Stmt, k: nat, t: Stmt): Stmt
    requires a.Block? && k < |a.items|
  {
    Block(a.id, Free, a.items[..k] + [t])
  }

  lemma EndingUnique(a: Stmt, k: nat, t: Stmt)
    requires a.Block? && k < |a.items| && Unique(a) && Unique(t) && Ids(t) <= Ids(a.items[k])
    ensures Unique(Ending(a, k, t))
  {
    hide Ids;
    var b := Ending(a, k, t);
    var cs, es := Children(a), Children(b);
    forall i | 0 <= i < |es| ensures Ids(es[i]) <= Ids(cs[i]) && Unique(es[i]) && a.id !in Ids(es[i]) {
      ApartFromChild(a, i);
      IdsChild(a, i);
    }
    forall i, j | 0 <= i < j < |es| ensures Ids(es[i]) !! Ids(es[j]) { ChildrenApart(a, i, j); }
  }

  lemma EndingFragment(d: Design, a: Stmt, k: nat, t: Stmt)
    requires Around(d, a, k) && Item(d, t) && Unique(t) && Ids(t) <= Ids(a.items[k])
    ensures Fragment(d, Ending(a, k, t))
  {
    var b := Ending(a, k, t);
    assert Unique(b) by { EndingUnique(a, k, t); }
    hide Unique, Ids;
    assert Children(b) == b.items;
    forall i | 0 <= i < |b.items| ensures Item(d, b.items[i]) { if i < k { assert b.items[i] == a.items[i]; } }
  }

  /** Whatever is in the process that ends with `t` is in `a`. */
  lemma EndingIds(d: Design, a: Stmt, k: nat, t: Stmt, x: nat)
    requires Around(d, a, k) && Ids(t) <= Ids(a.items[k]) && x in Kids(Ending(a, k, t))
    ensures x in Kids(a) && (x in Ids(a.items[k]) ==> x in Ids(t))
  {
    hide Item;
    var b := Ending(a, k, t);
    var i :| 0 <= i < |Children(b)| && x in Ids(Children(b)[i]);
    EndingChild(d, a, k, t, i, x);
  }

  lemma EndingChild(d: Design, a: Stmt, k: nat, t: Stmt, i: nat, x: nat)
    requires Around(d, a, k) && Ids(t) <= Ids(a.items[k]) && i <= k && x in Ids(Ending(a, k, t).items[i])
    ensures x in Kids(a) && (x in Ids(a.items[k]) ==> x in Ids(t))
  {
    assert Children(a)[i] == a.items[i] && Children(a)[k] == a.items[k];
    IdsChild(a, i);
    IdsChild(a, k);
    if i < k { ChildrenApart(a, i, k); }
    hide Ids, Item;
  }

  // ----- one restart stays inside the process -----

  lemma StepLocal(d: Design, root: Stmt, m: State)
    requires Fragment(d, root) && !d.atomic && Resting(d, root, m) && m.wake != []
    ensures Step(d, root, m).status.Bound? || SameOff(m, Step(d, root, m).m, Ids(root))
  {
    hide Ids, Unique, Item, Encloses, Others, RunFrom, AfterInner, TopRun, Items, Top, TopWaits, Poised, Frame, Chain,
      Fragment, StackSuspended, PostProc, Trigger, Clean;
    var r0 := Deliver(d, m);
    if r0.status.Done? {
      assert |m.wake| == 1;
      FragmentIs(d, root);
      DeliveredOk(d, root, m, r0.m);
      var p := Push(root, r0.m);
      var o := Remaining(d, root, m);
      StepTriggers(d, root, r0.m, p, o);
      var r := Trigger(d, root, r0.m);
      DeliveredIn(d, root, p, o);
      PushLocal(root, r0.m);
      TriggerLocal(d, root, p, r);
      if r.status.Done? {
        PostProcLocal(r.m);
        if r.m.stk != [] { StackIn(d, root, p, o); }
      }
    }
  }

  lemma PushLocal(root: Stmt, m: State)
    ensures SameOff(m, Push(root, m), {root.id}) && root.id in Ids(root)
  {
    SelfId(root);
    hide Ids;
  }

  lemma PostProcLocal(m: State)
    ensures m.stk == [] ==> PostProc(m) == m
    ensures m.stk != [] ==> SameOff(m, PostProc(m), {m.stk[0].id})
  {
  }

  lemma DeliveredIn(d: Design, root: Stmt, m: State, o: Outcome)
    requires Fragment(d, root) && Delivered(d, root, m, o)
    ensures Ids(m.stk[0]) <= Ids(root)
  {
    hide Ids, Unique, Item, TopRun, Outer, Top, Chain, Fragment;
    FragmentIs(d, root);
    assert Last(m.stk[1..], m.stk[0]) == root;
    ChainSub(d, m, m.stk[1..], m.stk[0]);
  }

  lemma StackIn(d: Design, root: Stmt, m: State, o: Outcome)
    requires Fragment(d, root) && Delivered(d, root, m, o) && |m.stk| > 1
    ensures m.stk[1].id in Ids(root)
  {
    hide Ids, Unique, Item, TopRun, Outer, Top, Fragment, Frame;
    FragmentIs(d, root);
    var rest := m.stk[1..];
    assert Last(rest, m.stk[0]) == root;
    ChainStep(m, rest, m.stk[0]);
    FrameBlock(m, rest[0], m.stk[0]);
    ChainSub(d, m, rest[1..], rest[0]);
    SelfId(rest[0]);
  }

  lemma TriggerLocal(d: Design, root: Stmt, p: State, r: Result)
    requires p.stk != [] && p.stk[0].Block? && Ids(p.stk[0]) <= Ids(root)
    requires PostItems(d, p.stk[0], p, r, TopRun(d, p, p.stk[0], p.world))
    ensures !r.status.Stuck? && (!r.status.Bound? ==> SameOff(p, r.m, Ids(root)))
    ensures r.status.Done? ==> r.m.stk == p.stk[1..]
  {
    hide Ids, Unique, Item, TopRun, LaterStack, Stacked, Still, Clean;
  }

  // ----- until the process is back -----

  /** Suspended in a block above the outermost one, `m` in `a` and `n` in `b`. */
  ghost predicate Deep(m: State, n: State, a: Stmt, b: Stmt, g: Fields) {
    Twins(a, b, {}) && a.dec.Free? && b.dec.Free? && Alike(m, n, a, b, {}, g) && g.pushed && |m.stk| > 1
  }

  /** Back in the outermost block, where `b` ended: at the loop that led away
      from it, or else behind the statement. */
  ghost predicate Back(d: Design, a: Stmt, b: Stmt, m: State, e: State, w: World) {
    e.stk == [a] && e.wake == [Requeue(e.world.now)] && Woken(d, e.world) == w && Of(e, a.id) == Onto(m, a) &&
    SameOff(m, e, Ids(b)) && Clean(e, Kids(b))
  }

  /** The fields of the outermost block then. */
  function Onto(m: State, a: Stmt): Fields {
    var g := Of(m, a.id);
    if Stays(m, a) then g else g.(cur := g.cur + 1)
  }

  lemma DeepWorld(m: State, n: State, a: Stmt, b: Stmt, g: Fields)
    requires Deep(m, n, a, b, g)
    ensures m.world == n.world && m.wake == n.wake && |m.stk| == |n.stk| > 1 && Of(m, a.id) == g
    ensures forall x :: Of(m, x) == Of(n, x)
  {
    hide Small;
  }

  lemma DeepDeliver(d: Design, a: Stmt, b: Stmt, m: State, n: State, g: Fields)
    requires Deep(m, n, a, b, g) && m.wake != []
    ensures n.wake != []
    ensures var r, q := Deliver(d, m), Deliver(d, n); r.status == q.status && Deep(r.m, q.m, a, b, g)
  {
    hide Small;
  }

  lemma DeepStep(d: Design, a: Stmt, b: Stmt, m: State, n: State, g: Fields)
    requires Deep(m, n, a, b, g) && m.wake != []
    ensures n.wake != []
    ensures var r, q := Trigger(d, a, Deliver(d, m).m), Trigger(d, b, Deliver(d, n).m);
      Deliver(d, m).status == Deliver(d, n).status && (Deliver(d, m).status.Done? ==> SameResult(r, q, a, b, {}, g))
    ensures Deliver(d, m).m.world == Deliver(d, n).m.world
  {
    hide Trigger, Deliver, Alike, Twins;
    DeepDeliver(d, a, b, m, n, g);
    DeepWorld(Deliver(d, m).m, Deliver(d, n).m, a, b, g);
    if Deliver(d, m).status.Done? { DeepAlike(d, a, b, {}, Deliver(d, m).m, Deliver(d, n).m, g); }
  }

  lemma {:induction false} Returns(d: Design, a: Stmt, b: Stmt, k: nat, m: State, n: State, g: Fields)
    returns (i: nat, e: State)
    requires Deep(m, n, a, b, g) && g.cur == k && Fragment(d, b) && !d.atomic && Resting(d, b, n)
    requires Led(a, b, k)
    ensures var o := Remaining(d, b, n);
      if o.Cut? then Reports(Restarted(d, a, m, i), o)
      else Restarted(d, a, m, i) == Result(e, Delayed) && Back(d, a, b, m, e, o.w)
    decreases n.world.ticks, n.wake != [] && n.wake[0].Requeue?, |n.stk|
  {
    hide Step, Fragment, Resting, Deep, Unwind, RunProcess, Back, Remaining, Clean;
    DeepWorld(m, n, a, b, g);
    WakeOne(d, b, n);
    StepOk(d, b, n);
    StepLocal(d, b, n);
    StepFound(d, a, b, k, m, n, g);
    var r, q := Step(d, a, m), Step(d, b, n);
    if r.status.Bound? {
      i, e := 1, r.m;
    } else if |r.m.stk| > 1 {
      i, e := Returns(d, a, b, k, r.m, q.m, g);
      i := i + 1;
      DeepWorld(r.m, q.m, a, b, g);
      StaysSame(a, b, k, m, r.m);
      if Remaining(d, b, n).Fin? { BackFrom(d, a, b, m, r.m, e, Remaining(d, b, n).w); }
    } else {
      i, e := 1, r.m;
      BackWake(d, a, b, m, e, Remaining(d, b, n).w);
    }
  }

  lemma StaysSame(a: Stmt, b: Stmt, k: nat, m: State, n: State)
    requires Led(a, b, k) && Of(m, a.id) == Of(n, a.id) && Of(m, a.id).cur == k && SameOff(m, n, Ids(b))
    ensures Stays(m, a) == Stays(n, a)
  {
    hide Ids;
  }

  lemma BackWake(d: Design, a: Stmt, b: Stmt, m: State, e: State, w: World)
    requires Back(d, a, b, m, e, w)
    ensures Restarted(d, a, e, 0) == Result(e, Delayed)
  {
    hide Ids, Clean;
  }

  /** The position at which `b` ends with a part of what `a` has there. */
  predicate Led(a: Stmt, b: Stmt, k: nat) {
    a.Block? && b.Block? && k < |a.items| && k == |b.items| - 1 && !b.items[k].Loop? && a.items[k].id !in Ids(b)
  }

  lemma WakeOne(d: Design, root: Stmt, n: State)
    requires Resting(d, root, n) && n.stk != []
    ensures |n.wake| == 1
  {
    hide Ids, Top, TopWaits, Chain, Poised;
  }

  lemma BackFrom(d: Design, a: Stmt, b: Stmt, m: State, n: State, e: State, w: World)
    requires SameOff(m, n, Ids(b)) && Of(m, a.id) == Of(n, a.id) && Stays(m, a) == Stays(n, a) && Back(d, a, b, n, e, w)
    ensures Back(d, a, b, m, e, w)
  {
    hide Ids, Clean;
  }

  /** One restart: still inside, at the step bound, or back. */
  lemma StepFound(d: Design, a: Stmt, b: Stmt, k: nat, m: State, n: State, g: Fields)
    requires Deep(m, n, a, b, g) && g.cur == k && Fragment(d, b) && !d.atomic && Resting(d, b, n) && |n.wake| == 1 &&
      m.wake == n.wake
    requires StepPost(d, b, n, Step(d, b, n)) && (Step(d, b, n).status.Bound? || SameOff(n, Step(d, b, n).m, Ids(b)))
    requires Led(a, b, k)
    ensures var r, q := Step(d, a, m), Step(d, b, n);
      if q.status.Bound? then r.status.Bound? && r.m.world == q.m.world
      else
        r.status == q.status && SameOff(m, r.m, Ids(b)) &&
        (if |r.m.stk| > 1 then Deep(r.m, q.m, a, b, g)
         else Remaining(d, b, n).Fin? && Back(d, a, b, m, r.m, Remaining(d, b, n).w))
  {
    hide Trigger, Deliver, Fragment, Remaining, Back, Ids, Alike, PostProc, Resting, Deep, Step;
    DeepStep(d, a, b, m, n, g);
    DeepWorld(m, n, a, b, g);
    var v, u := Deliver(d, m), Deliver(d, n);
    StepIs(d, a, m);
    StepIs(d, b, n);
    if v.status.Done? {
      var r, q := Trigger(d, a, v.m), Trigger(d, b, u.m);
      DeepAgain(a, b, m, n, r.m, q.m, g);
      if q.status.Done? {
        DeepDone(d, a, b, k, m, n, r, q, g);
      } else if q.status.Delayed? {
        OffAlike(m, n, r.m, q.m, Ids(b));
      }
    }
  }

  lemma StepIs(d: Design, root: Stmt, m: State)
    requires m.wake != []
    ensures Step(d, root, m) ==
      var v := Deliver(d, m);
      if !v.status.Done? then v
      else
        var r := Trigger(d, root, v.m);
        if r.status.Done? then Result(PostProc(r.m), Done) else r
    ensures Deliver(d, m).status.Done? || Deliver(d, m).status.Bound?
  {
    hide Trigger, PostProc;
  }

  lemma OffAlike(m: State, n: State, r: State, q: State, ids: set<nat>)
    requires (forall x :: Of(m, x) == Of(n, x)) && (forall x :: Of(r, x) == Of(q, x)) && SameOff(n, q, ids)
    ensures SameOff(m, r, ids)
  {
  }

  lemma DeepAgain(a: Stmt, b: Stmt, m: State, n: State, r: State, q: State, g: Fields)
    requires Deep(m, n, a, b, g) && Alike(r, q, a, b, {}, g)
    ensures r.world == q.world && r.wake == q.wake && |r.stk| == |q.stk| > 0 && Of(r, a.id) == g
    ensures forall x :: Of(r, x) == Of(q, x)
    ensures |r.stk| > 1 ==> Deep(r, q, a, b, g)
    ensures |r.stk| == 1 ==> r.stk == [a] && q.stk == [b]
  {
    hide Small;
  }

  /** A block has ended. */
  lemma DeepDone(d: Design, a: Stmt, b: Stmt, k: nat, m: State, n: State, r: Result, q: Result, g: Fields)
    requires Deep(m, n, a, b, g) && g.cur == k && Alike(r.m, q.m, a, b, {}, g)
    requires Resting(d, b, PostProc(q.m)) && Remaining(d, b, PostProc(q.m)) == Remaining(d, b, n) && !d.atomic
    requires SameOff(n, PostProc(q.m), Ids(b)) && Led(a, b, k)
    requires PostProc(q.m).stk == [] ==> PostProc(q.m).wake == []
    ensures var e, p := PostProc(r.m), PostProc(q.m);
      SameOff(m, e, Ids(b)) &&
      (if |e.stk| > 1 then Deep(e, p, a, b, g)
       else Remaining(d, b, n).Fin? && Back(d, a, b, m, e, Remaining(d, b, n).w))
  {
    hide Ids, Alike, Resting, Remaining, PostProc, Set;
    var e, p := PostProc(r.m), PostProc(q.m);
    DeepAgain(a, b, m, n, r.m, q.m, g);
    DeepWorld(m, n, a, b, g);
    PostProcStack(r.m);
    PostProcStack(q.m);
    SelfId(b);
    if |r.m.stk| > 1 {
      DeepPostProc(a, b, {}, r.m, q.m, g);
      DeepAgain(a, b, m, n, e, p, g);
    } else {
      PostProcIs(r.m);
      PostProcIs(q.m);
      assert p == Set(q.m, b.id, Of(q.m, b.id).(cur := Of(q.m, b.id).cur + 1))
        .(wake := q.m.wake + [Requeue(q.m.world.now)]);
      BackNow(d, a, b, k, m, n, r.m, q.m, g);
    }
  }

  lemma BackNow(d: Design, a: Stmt, b: Stmt, k: nat, m: State, n: State, r: State, q: State, g: Fields)
    requires r.stk == [a] && q.stk == [b] && r.world == q.world && r.wake == q.wake && g.cur == k && Led(a, b, k)
    requires (forall x :: Of(r, x) == Of(q, x)) && (forall x :: Of(m, x) == Of(n, x)) && Of(r, a.id) == g == Of(m, a.id)
    requires a.id == b.id && !d.atomic
    requires var p := Set(q, b.id, g.(cur := k + 1)).(wake := q.wake + [Requeue(q.world.now)]);
      Resting(d, b, p) && Remaining(d, b, p) == Remaining(d, b, n) && SameOff(n, p, Ids(b))
    ensures var e := PostProc(r);
      SameOff(m, e, Ids(b)) && |e.stk| == 1 &&
      Remaining(d, b, n).Fin? && Back(d, a, b, m, e, Remaining(d, b, n).w)
  {
    hide Ids, TopWaits, Poised;
    var p := Set(q, b.id, g.(cur := k + 1)).(wake := q.wake + [Requeue(q.world.now)]);
    SelfId(b);
    assert forall x | x != b.id :: Of(p, x) == Of(q, x);
    assert Of(r, a.items[k].id) == Of(q, a.items[k].id) == Of(p, a.items[k].id) == Of(n, a.items[k].id);
    PostProcIs(r);
    assert Stays(r, a) == Stays(m, a);
    assert forall x | x != a.id :: Of(PostProc(r), x) == Of(r, x);
    BackClean(d, b, k, p);
    BackEnd(d, b, k, p, q.world);
    CleanFrame(p, PostProc(r), Kids(b));
  }

  lemma BackClean(d: Design, b: Stmt, k: nat, p: State)
    requires Resting(d, b, p) && p.stk == [b] && Of(p, b.id).cur == k + 1 == |b.items|
    ensures Clean(p, Kids(b)) && |p.wake| == 1
  {
    hide Ids, WaitsIn, Poised, TopWaits;
    assert Children(b) == b.items;
    OthersClean(p, b, k + 1);
  }

  lemma BackEnd(d: Design, b: Stmt, k: nat, p: State, w: World)
    requires b.Block? && p.stk == [b] && Of(p, b.id).cur == k + 1 == |b.items| && p.world == w
    requires p.wake == [Requeue(w.now)]
    ensures Remaining(d, b, p) == Fin(Woken(d, w), true)
  {
    OuterNone(d, p, p.stk, Norm(TopRun(d, p, b, Woken(d, w))));
  }

  // ----- the way in -----

  /** A block that is suspended stays on the stack. */
  lemma BlockDeep(d: Design, t: Stmt, m: State)
    requires t.Block? && Item(d, t) && Unique(t) && Clean(m, Ids(t)) && m.stk != []
    ensures Act(d, t, m).status.Delayed? ==> |Act(d, t, m).m.stk| > |m.stk|
  {
    hide Ids, Items, Unique, Item, PostItems, Waits, Ready;
    var p := Push(t, m);
    SelfId(t);
    PushOk(t, m);
    KidsOthers(p, t, 0);
    if t.items != [] { IdleRuns(d, p, t.items[0], m.world); }
    ItemsOk(d, t, 0, p);
    var r := Items(d, t, 0, p);
    assert p.stk == [t] + m.stk && Act(d, t, m) == r;
    if r.status.Delayed? { ItemsDeep(d, t, p, r); }
  }

  lemma ItemsDeep(d: Design, t: Stmt, p: State, r: Result)
    requires p.stk != [] && t.Block? && r.status.Delayed? && PostItems(d, t, p, r, TopRun(d, p, t, p.world))
    ensures |r.m.stk| >= |p.stk|
  {
    hide Ids, LaterStack, Stacked, Still, TopRun;
  }

  /** The state `m`, with the fields of `ys` taken from `p`. */
  function Mixed(m: State, p: State, ys: set<nat>): (n: State)
    ensures n.world == m.world && n.stk == m.stk && n.wake == m.wake
    ensures forall x :: Of(n, x) == if x in ys then Of(p, x) else Of(m, x)
  {
    m.(fields := map x | x in m.fields.Keys + p.fields.Keys + ys :: if x in ys then Of(p, x) else Of(m, x))
  }

  /** The process runs in its outermost block at position `k`, and everything
      that belongs to the process that ends with a part of it is idle. */
  ghost predicate Here(d: Design, a: Stmt, k: nat, t: Stmt, m: State) {
    Around(d, a, k) && m.stk == [a] && m.wake == [] && Of(m, a.id).pushed && Of(m, a.id).cur == k &&
    Idle(Of(m, a.id).(pushed := false)) && Clean(m, Kids(Ending(a, k, t)))
  }

  ghost predicate PartOf(d: Design, a: Stmt, k: nat, t: Stmt) {
    a.Block? && k < |a.items| && t.Block? && Item(d, t) && Unique(t) && Ids(t) <= Kids(a.items[k]) && Size(t) < Size(a)
  }

  /** The twin process, about to trigger `t` past its control. */
  function Armed(m: State, t: Stmt): State {
    if t.dec.Free? then m else Set(m, t.id, Of(m, t.id).(armed := true))
  }

  lemma TwinHere(d: Design, a: Stmt, k: nat, t: Stmt, m: State)
    requires Here(d, a, k, t, m) && PartOf(d, a, k, t)
    ensures var b := Ending(a, k, t);
      var n := Armed(m.(stk := [b]), t);
      Fragment(d, b) && OnStack(n, b) && Of(n, b.id).cur == k && Ready(d, n, t) &&
      Delivered(d, b, n, Norm(Body(d, t, m.world))) && Norm(TopRun(d, n, b, m.world)) == Norm(Body(d, t, m.world))
  {
    hide Ids, Item, Unique, Body, TopRun, Around;
    var b := Ending(a, k, t);
    var n := Armed(m.(stk := [b]), t);
    EndingFragment(d, a, k, t);
    FragmentIs(d, b);
    assert Children(b) == b.items && b.items[k] == t;
    ArmedClean(d, b, k, t, m.(stk := [b]));
    ArmedResumes(d, t, n, m.world);
    TopIs(d, n, b, k, m.world);
    OuterNone(d, n, n.stk, Norm(TopRun(d, n, b, n.world)));
  }

  lemma ArmedClean(d: Design, b: Stmt, k: nat, t: Stmt, m: State)
    requires b.Block? && Unique(b) && k < |b.items| && b.items[k] == t && t.Block? && Clean(m, Kids(b))
    ensures var n := Armed(m, t);
      Others(n, b.items, k) && Ready(d, n, t) && Of(n, b.id) == Of(m, b.id) &&
      (if t.dec.Free? then Idle(Of(n, t.id)) else Of(n, t.id).armed && !Of(n, t.id).looped && Of(n, t.id).pending.None?)
  {
    hide Ids, Unique;
    var n := Armed(m, t);
    assert Children(b) == b.items;
    KidsOthers(m, b, k);
    ApartFromChild(b, k);
    SelfId(t);
    OthersFrame(m, n, b, k);
  }

  lemma ArmedResumes(d: Design, t: Stmt, n: State, w: World)
    requires t.Block?
    requires var f := Of(n, t.id); if t.dec.Free? then Idle(f) else f.armed && !f.looped && f.pending.None?
    ensures Resumed(d, n, t, w) == Body(d, t, w)
  {
    hide Body;
    if t.dec.Free? { FreeRun(d, t, w); }
  }

  lemma TopIs(d: Design, n: State, b: Stmt, k: nat, w: World)
    requires b.Block? && Of(n, b.id).cur == k == |b.items| - 1
    ensures Norm(TopRun(d, n, b, w)) == Norm(Resumed(d, n, b.items[k], w))
  {
    hide Resumed;
  }

  lemma MixedHere(d: Design, a: Stmt, k: nat, t: Stmt, ys: set<nat>, m: State, e: State)
    requires Here(d, a, k, t, m) && PartOf(d, a, k, t) && ys !! Ids(Ending(a, k, t))
    ensures Here(d, a, k, t, Mixed(m, e, ys)) && a.id !in ys && Ids(t) !! ys && Ids(t) <= Ids(Ending(a, k, t))
    ensures Clean(m, Ids(t)) && Idle(Of(m, t.id)) && a.id !in Ids(t)
  {
    var b := Ending(a, k, t);
    SelfId(b);
    assert Children(b)[k] == t;
    IdsChild(b, k);
    AroundId(d, a, k);
    hide Ids, Item, Unique, Around, Mixed, Size;
    assert forall x | x in Kids(b) :: Of(Mixed(m, e, ys), x) == Of(m, x);
    forall x | x in Ids(t) ensures Idle(Of(m, x)) { assert x in Kids(b); }
    SelfId(t);
  }

  /** The control of `t` is passed. */
  function Unarmed(n: State, t: Stmt): State {
    if t.dec.Free? then n else Set(n, t.id, Of(n, t.id).(armed := false))
  }

  lemma ArmedActs(d: Design, t: Stmt, n: State)
    ensures var p := Armed(n, t); Trigger(d, t, p) == Act(d, t, Unarmed(p, t))
    ensures !Of(n, t.id).armed ==> forall x :: Of(Unarmed(Armed(n, t), t), x) == Of(n, x)
  {
    hide Act;
  }

  lemma Passed(d: Design, a: Stmt, b: Stmt, k: nat, t: Stmt, ys: set<nat>, m: State, p: State, g: Fields)
    requires PartOf(d, a, k, t) && b == Ending(a, k, t) && a.dec.Free? && m.stk == [a] && m.wake == [] &&
      Of(m, a.id) == g
    requires p == m.(fields := p.fields) && (forall x | x !in ys :: Of(p, x) == Of(m, x)) && a.id !in ys && Ids(t) !! ys
    requires a.id !in Ids(t) && Idle(Of(m, t.id))
    ensures Twins(a, b, ys) && SameResult(Act(d, t, m), Trigger(d, t, Armed(p.(stk := [b]), t)), a, b, ys, g)
  {
    hide Ids, Item, Unique, Act, Trigger, Size;
    var n := p.(stk := [b]);
    SelfId(t);
    ArmedActs(d, t, n);
    var u := Unarmed(Armed(n, t), t);
    assert Children(b)[k] == t;
    SmallOne(a, b, k, t, ys);
    assert Alike(m, u, a, b, ys, g);
    ActAlike(d, t, m, u, a, b, ys, g);
  }

  lemma EnteredDeep(d: Design, a: Stmt, b: Stmt, ys: set<nat>, r: State, e: State, n0: State, q: State, g: Fields)
    requires Alike(r, q, a, b, ys, g) && Twins(a, b, ys) && SameOff(n0, q, Ids(b)) && ys !! Ids(b) && a.dec.Free? &&
      b.dec.Free?
    requires e.world == r.world && e.wake == r.wake && e.stk == r.stk && SameOff(r, e, ys) && |e.stk| > 1 && g.pushed
    requires forall x | x in ys :: Of(n0, x) == Of(e, x)
    ensures Deep(e, q, a, b, g)
  {
    hide Size, Ids;
  }

  lemma LedIs(d: Design, a: Stmt, k: nat, t: Stmt)
    requires Around(d, a, k) && PartOf(d, a, k, t)
    ensures Led(a, Ending(a, k, t), k)
  {
    hide Item, Unique, Size;
    var b := Ending(a, k, t);
    var x := a.items[k].id;
    SelfId(a.items[k]);
    AroundId(d, a, k);
    if x in Kids(b) { EndingIds(d, a, k, t, x); }
  }

  lemma StackLocal(d: Design, b: Stmt, m: State, n: State, seg: seq<Stmt>, o: Outcome)
    requires m.stk != [] && StackSuspended(d, b, m, n, seg, o)
    ensures SameOff(m, n, Ids(b))
  {
    hide Ids, Stacked, LaterStack;
  }

  lemma HereFree(d: Design, a: Stmt, k: nat, t: Stmt, m: State)
    requires Here(d, a, k, t, m)
    ensures a.Block? && a.dec.Free? && k < |a.items| && Of(m, a.id).pushed
  {
    hide Item, Unique, Ids;
  }

  /** Suspended in `t`, the process has a twin that has the rest of `t` left. The
      fields of `ys` may have been set meanwhile. */
  lemma Departs(d: Design, a: Stmt, k: nat, t: Stmt, ys: set<nat>, m: State, e: State) returns (n: State)
    requires Here(d, a, k, t, m) && PartOf(d, a, k, t) && !d.atomic && ys !! Ids(Ending(a, k, t))
    requires var r := Act(d, t, m);
      r.status.Delayed? && e.world == r.m.world && e.wake == r.m.wake && e.stk == r.m.stk && SameOff(r.m, e, ys)
    ensures var b := Ending(a, k, t);
      Deep(e, n, a, b, Of(m, a.id)) && Resting(d, b, n) && Fragment(d, b) &&
      Remaining(d, b, n) == Norm(Body(d, t, m.world)) &&
      Led(a, b, k)
  {
    hide Ids, Item, Unique, Body, Act, Trigger, TopRun, Around, Size, Resting, Remaining, Fragment, Ready, OnStack,
      Delivered, Items, StackSuspended, Still, Alike, Deep, Clean, Small;
    var b := Ending(a, k, t);
    var g := Of(m, a.id);
    var p := Mixed(m, e, ys);
    HereFree(d, a, k, t, m);
    MixedHere(d, a, k, t, ys, m, e);
    TwinHere(d, a, k, t, p);
    var n0 := Armed(p.(stk := [b]), t);
    var q := Trigger(d, t, n0);
    Passed(d, a, b, k, t, ys, m, p, g);
    LedIs(d, a, k, t);
    FragmentIs(d, b);
    assert Children(b)[k] == t;
    EnterItems(d, b, k, n0, q);
    var seg :| StackSuspended(d, b, n0, q.m, seg, TopRun(d, n0, b, n0.world));
    SuspendedOk(d, b, n0, q.m, seg, Norm(Body(d, t, m.world)));
    n := q.m;
    StackLocal(d, b, n0, n, seg, TopRun(d, n0, b, n0.world));
    BlockDeep(d, t, m);
    EnteredDeep(d, a, b, ys, Act(d, t, m).m, e, n0, n, g);
  }

  // ----- there and back -----

  /** What follows when the process is suspended in `t`: the rest of `t`, and the
      process is back in its outermost block. */
  lemma Excursion(d: Design, a: Stmt, k: nat, t: Stmt, ys: set<nat>, m: State, e: State) returns (i: nat, f: State)
    requires Here(d, a, k, t, m) && PartOf(d, a, k, t) && !d.atomic && ys !! Ids(Ending(a, k, t))
    requires var r := Act(d, t, m);
      r.status.Delayed? && e.world == r.m.world && e.wake == r.m.wake && e.stk == r.m.stk && SameOff(r.m, e, ys)
    ensures var o := Body(d, t, m.world);
      Of(e, a.id) == Of(m, a.id) &&
      if o.Cut? then Reports(Restarted(d, a, e, i), o)
      else Restarted(d, a, e, i) == Result(f, Delayed) && Back(d, a, Ending(a, k, t), e, f, o.w)
  {
    hide Ids, Item, Unique, Body, Act, Around, Size, Resting, Remaining, Fragment, Restarted, Deep, Back, Reports,
      Clean;
    var n := Departs(d, a, k, t, ys, m, e);
    HereFree(d, a, k, t, m);
    DeepWorld(e, n, a, Ending(a, k, t), Of(m, a.id));
    i, f := Returns(d, a, Ending(a, k, t), k, e, n, Of(m, a.id));
  }

  lemma {:induction false} RestartedJoin(d: Design, a: Stmt, m: State, i: nat, j: nat)
    requires Restarted(d, a, m, i).status.Delayed?
    ensures Restarted(d, a, m, i + j) == Restarted(d, a, Restarted(d, a, m, i).m, j)
    decreases i
  {
    hide Step;
    if m.wake != [] && i > 0 { RestartedJoin(d, a, Step(d, a, m).m, i - 1, j); }
  }

  lemma Continues(d: Design, a: Stmt, m: State, i: nat, e: State, o: Outcome)
    requires Restarted(d, a, m, i) == Result(e, Delayed) && RunEnds(d, a, e, o)
    ensures RunEnds(d, a, m, o)
  {
    hide Restarted;
    var j: nat :| Reports(Restarted(d, a, e, j), o);
    RestartedJoin(d, a, m, i, j);
    assert Reports(Restarted(d, a, m, i + j), o);
  }

  /** Back in the outermost block, the process triggers what it has there. */
  lemma BackGoes(d: Design, a: Stmt, b: Stmt, m: State, e: State, w: World, o: Outcome)
    requires Back(d, a, b, m, e, w) && a.Block? && a.dec.Free? && Of(m, a.id).pushed
    requires EndsWith(d, a, Items(d, a, Onto(m, a).cur, e.(wake := [], world := w)), o)
    ensures RunEnds(d, a, e, o)
  {
    hide RunEnds, EndsWith, Items, Ids, Clean;
    var v := e.(wake := [], world := w);
    assert e.wake[1..] == [];
    assert Deliver(d, e) == Result(v, Done);
    OneMore(d, a, e, o);
    PushedRoot(d, a, v);
  }
}
