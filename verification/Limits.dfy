/** Small processes outside the fragment for which the restarting interpreter and
    the plain semantics differ: instances of modules BranchedLoops and
    BranchedStores. */
module Limits {
  import BranchedControls
  import BranchedLoops
  import BranchedStores
  import Branches
  import Controls
  import LoopedAgreement
  import LoopedControls
  import opened Logic
  import opened Program
  import opened Machine
  import opened Shape

  /** Every value is a single 1, every loop count is 2; the test holds until
      another process has written net 0, which happens after time 0 if `busy`. */
  function Example(busy: bool): Design {
    Design((e, st) => 0 !in st, (e, st) => 2, (e, l, st) => false,
           (r, st) => Value([HI], false), (l, st) => Target(l, []), (t, v, st) => st,
           (e, w) => 0, (w: World) => if busy && w.now > 0 then map[0 := [HI]] else w.store, false)
  }

  const ORIGIN := World(0, map[], [], 0, 9)
  const MOVE := Move(7, 7)

  /** begin if (test) net = #5 value; end */
  const DELAYED_STORE := Block(0, Free, [If(1, Free, 0, Assign(2, Free, MOVE, Delay(5)), Null(3, Free))])

  /** begin if (test) repeat (2) begin #1 net = value; end end */
  const LOOP_BRANCH :=
    Block(0, Free, [If(1, Free, 0, Loop(2, Free, Repeat(0), Block(3, Free, [Assign(4, Delay(1), MOVE, Free)])),
      Null(5, Free))])

  function WroteAt(t: nat): Effect { Wrote(t, Target(7, []), Value([HI], false)) }

  // ----- a delayed store under an if -----

  function Start0(): State { Fresh(ORIGIN).(wake := [Requeue(0)]) }

  lemma FirstStore()
    ensures var r := Step(Example(true), DELAYED_STORE, Start0());
      r.status.Delayed? && r.m.wake == [Timer(5)] && r.m.stk == [DELAYED_STORE] &&
      r.m.world.now == 0 && r.m.world.log == [] && r.m.world.ticks == 9 &&
      Of(r.m, 0) == IDLE.(pushed := true) && Of(r.m, 1) == IDLE && Of(r.m, 3) == IDLE
  {
    var d := Example(true);
    var root := DELAYED_STORE;
    var s1 := root.items[0];
    var s2 := s1.yes;
    assert Children(root)[0] == s1 && Children(s1)[0] == s2;
    var v := Deliver(d, Start0()).m;
    assert v.world.store == map[];
    var p := Push(root, v);
    var q := Assignment(d, s2, p);
    assert Act(d, s1, p) == q by { assert Trigger(d, s2, p) == q; }
    assert Items(d, root, 0, p) == q by { assert Trigger(d, s1, p) == q; }
    assert Act(d, root, v) == q;
  }

  lemma SecondStore(m: State)
    requires m.wake == [Timer(5)] && m.stk == [DELAYED_STORE] && m.world.ticks == 9 && m.world.log == []
    requires Of(m, 0) == IDLE.(pushed := true) && Of(m, 1) == IDLE && Of(m, 3) == IDLE
    ensures var r := Step(Example(true), DELAYED_STORE, m);
      r.status.Done? && r.m.wake == [] && r.m.world.log == []
  {
    var d := Example(true);
    var root := DELAYED_STORE;
    var s1 := root.items[0];
    assert Children(root)[0] == s1 && Children(s1)[1] == s1.no;
    var v := Deliver(d, m).m;
    assert v.world.store == map[0 := [HI]];
    assert Trigger(d, s1, v) == Result(v, Done) by { assert Trigger(d, s1.no, v) == Result(v, Done); }
    assert Items(d, root, 0, v) == Items(d, root, 1, Set(v, 0, Of(v, 0).(cur := 1)));
    assert Act(d, root, v) == Items(d, root, 0, v);
  }

  lemma PlainStore()
    ensures RunProcess(Example(true), DELAYED_STORE, ORIGIN).w.log == [WroteAt(5)]
  {
    var d := Example(true);
    var root := DELAYED_STORE;
    var s1 := root.items[0];
    assert Children(root)[0] == s1 && Children(s1)[0] == s1.yes;
    var o := Body(d, s1.yes, ORIGIN);
    assert Run(d, s1, ORIGIN) == o by { assert Run(d, s1.yes, ORIGIN) == o; }
    assert RunFrom(d, root, 1, o.w) == Fin(o.w, false);
  }

  /** The restart evaluates the test of the if again; when it has changed
      meanwhile the assignment in progress is lost. */
  lemma DelayedStoreIsLost()
    ensures !Fragment(Example(true), DELAYED_STORE)
    ensures var r1 := Step(Example(true), DELAYED_STORE, Start0());
      r1.status.Delayed? && r1.m.wake == [Timer(5)] &&
      var r2 := Step(Example(true), DELAYED_STORE, r1.m);
      r2.status.Done? && r2.m.wake == [] && r2.m.world.log == []
    ensures RunProcess(Example(true), DELAYED_STORE, ORIGIN).w.log == [WroteAt(5)]
  {
    hide Step, RunProcess;
    var s1 := DELAYED_STORE.items[0];
    assert !Item(Example(true), DELAYED_STORE) by {
      assert Children(s1)[0] == s1.yes && Children(DELAYED_STORE)[0] == s1;
      assert !Still(s1.yes) && !Sheltered(s1.yes);
      assert 0 in Example(true).disturb(World(1, map[], [], 0, 0));
      assert !Calm(Example(true));
      assert !Item(Example(true), s1);
    }
    FirstStore();
    SecondStore(Step(Example(true), DELAYED_STORE, Start0()).m);
    PlainStore();
  }

  // ----- a loop that suspends under an if -----

  const INNER := Block(3, Free, [Assign(4, Delay(1), MOVE, Free)])

  /** The stack and the clock while the loop body waits. */
  ghost predicate InBody(m: State) {
    m.stk == [INNER, LOOP_BRANCH] && m.wake == [Timer(1)] && m.world == World(0, map[], [], 1, 8) &&
    Of(m, 0) == IDLE.(pushed := true) && Of(m, 3) == IDLE.(pushed := true) && Of(m, 4) == IDLE.(armed := true)
  }

  lemma FirstIteration()
    ensures var r := Step(Example(false), LOOP_BRANCH, Start0()); r.status.Delayed? && InBody(r.m)
  {
    var d := Example(false);
    var root := LOOP_BRANCH;
    var s1 := root.items[0];
    var loop := s1.yes;
    var s4 := INNER.items[0];
    assert Children(root)[0] == s1 && Children(s1)[0] == loop && Children(loop)[0] == INNER && Children(INNER)[0] == s4;
    var v := Deliver(d, Start0()).m;
    assert v.world == World(0, map[], [], 1, 9);
    var p := Push(root, v);
    var c := Set(p, 2, Of(p, 2).(count := 2));
    var g := c.(world := c.world.(ticks := 8));
    var q := HandleDec(d, s4, Push(INNER, g));
    assert Trigger(d, INNER, g) == q by {
      assert Trigger(d, s4, Push(INNER, g)) == q;
      assert Items(d, INNER, 0, Push(INNER, g)) == q;
      assert Act(d, INNER, g) == q;
    }
    var z := Result(Set(q.m, 2, Of(q.m, 2).(looped := true)), Delayed);
    assert LoopGoM(d, loop, c) == z;
    assert Trigger(d, loop, p) == z by { assert Act(d, loop, p) == z; }
    assert Trigger(d, s1, p) == z by { assert Act(d, s1, p) == z; }
    assert Items(d, root, 0, p) == z;
    assert Act(d, root, v) == z;
  }

  ghost predicate PastBranch(m: State) {
    m.stk == [LOOP_BRANCH] && m.wake == [Requeue(1)] && m.world.log == [WroteAt(1)] &&
    Of(m, 0) == IDLE.(pushed := true, cur := 1)
  }

  lemma InnerFits()
    ensures Size(INNER) <= Size(LOOP_BRANCH)
  {
    var root := LOOP_BRANCH;
    assert Children(root)[0] == root.items[0] && Children(root.items[0])[0] == root.items[0].yes;
    assert Children(root.items[0].yes)[0] == INNER;
  }

  lemma BodyEnds(m: State)
    requires InBody(m)
    ensures var r := Step(Example(false), LOOP_BRANCH, m); r.status.Done? && PastBranch(r.m)
  {
    var d := Example(false);
    var root := LOOP_BRANCH;
    var s4 := INNER.items[0];
    assert Children(INNER)[0] == s4;
    InnerFits();
    var v := Deliver(d, m).m;
    assert v.world == World(1, map[], [], 2, 7);
    var t := Assignment(d, s4, Set(v, 4, IDLE));
    assert Trigger(d, s4, v) == t by { assert Act(d, s4, Set(v, 4, IDLE)) == t; }
    assert t.status.Done? && t.m.world.log == [WroteAt(1)] && t.m.stk == v.stk && t.m.wake == [];
    var e := Set(t.m, 3, Of(t.m, 3).(cur := 1));
    assert Items(d, INNER, 0, v) == Items(d, INNER, 1, e);
    assert Act(d, root, v) == Items(d, INNER, 0, v);
  }

  lemma BranchEnds(m: State)
    requires PastBranch(m)
    ensures var r := Step(Example(false), LOOP_BRANCH, m);
      r.status.Done? && r.m.wake == [] && r.m.world.log == [WroteAt(1)]
  {
    var d := Example(false);
    var v := Deliver(d, m).m;
    assert Act(d, LOOP_BRANCH, v) == Items(d, LOOP_BRANCH, 1, v);
  }

  lemma PlainIteration(w: World)
    requires w.ticks > 0
    ensures var o := Run(Example(false), INNER, w);
      o.Fin? && o.w.log == w.log + [WroteAt(w.now + 1)] && o.w.now == w.now + 1 &&
      o.w.ticks == w.ticks - 1 && o.w.store == w.store
  {
    var d := Example(false);
    var s4 := INNER.items[0];
    assert Children(INNER)[0] == s4;
    var v := Wait(d, Delay(1), w).w;
    var o := Fin(MoveNow(d, MOVE, v), true);
    assert Run(d, s4, w) == o by { assert Body(d, s4, v) == Fin(o.w, false); }
    assert RunFrom(d, INNER, 1, o.w) == Fin(o.w, false);
    assert RunFrom(d, INNER, 0, w) == o;
    assert Body(d, INNER, w) == Yield(d, o);
  }

  lemma PlainLoop()
    ensures RunProcess(Example(false), LOOP_BRANCH, ORIGIN).w.log == [WroteAt(1), WroteAt(2)]
  {
    hide Body;
    var d := Example(false);
    var root := LOOP_BRANCH;
    var s1 := root.items[0];
    var loop := s1.yes;
    assert Children(root)[0] == s1 && Children(s1)[0] == loop && Children(loop)[0] == INNER;
    var w0 := ORIGIN.(ticks := 8);
    PlainIteration(w0);
    var w1 := Run(d, INNER, w0).w;
    var w2 := w1.(ticks := w1.ticks - 1);
    PlainIteration(w2);
    var w3 := Run(d, INNER, w2).w;
    TwoIterations(d, loop, w0, w1, w2, w3);
    PlainBranch(d, root, loop);
  }

  lemma TwoIterations(d: Design, loop: Stmt, w0: World, w1: World, w2: World, w3: World)
    requires loop.Loop? && loop.kind.Repeat? && w0 == ORIGIN.(ticks := 8)
    requires var o := Run(d, loop.body, w0); o.Fin? && o.w == w1
    requires w1.ticks > 0 && w2 == w1.(ticks := w1.ticks - 1)
    requires var o := Run(d, loop.body, w2); o.Fin? && o.w == w3
    ensures LoopGo(d, loop, 2, ORIGIN).Fin? && LoopGo(d, loop, 2, ORIGIN).w == w3
  {
    hide Run;
    assert Children(loop)[0] == loop.body;
    assert LoopGo(d, loop, 1, w1).w == w3 by { assert LoopNext(d, loop, 1, w3) == Fin(w3, false); }
    assert LoopNext(d, loop, 2, w1) == LoopGo(d, loop, 1, w1);
  }

  lemma PlainBranch(d: Design, root: Stmt, loop: Stmt)
    requires d == Example(false) && root == LOOP_BRANCH && loop == root.items[0].yes
    requires LoopGo(d, loop, 2, ORIGIN).Fin?
    ensures RunProcess(d, root, ORIGIN).w == LoopGo(d, loop, 2, ORIGIN).w
  {
    hide LoopGo;
    var s1 := root.items[0];
    assert Children(root)[0] == s1 && Children(s1)[0] == loop;
    var o := LoopGo(d, loop, 2, ORIGIN);
    assert Run(d, loop, ORIGIN) == o by { assert Body(d, loop, ORIGIN) == o; }
    assert Run(d, s1, ORIGIN) == o by { assert Body(d, s1, ORIGIN) == o; }
    assert RunFrom(d, root, 1, o.w) == Fin(o.w, false);
  }

  /** A restart continues a loop only if the block's current statement is the
      loop itself: under an if, the remaining iterations are lost. */
  lemma LoopUnderIfIsAbandoned()
    ensures !Fragment(Example(false), LOOP_BRANCH)
    ensures var r1 := Step(Example(false), LOOP_BRANCH, Start0());
      r1.m.wake != [] && var r2 := Step(Example(false), LOOP_BRANCH, r1.m);
      r2.m.wake != [] && var r3 := Step(Example(false), LOOP_BRANCH, r2.m);
      r3.status.Done? && r3.m.wake == [] && r3.m.world.log == [WroteAt(1)]
    ensures RunProcess(Example(false), LOOP_BRANCH, ORIGIN).w.log == [WroteAt(1), WroteAt(2)]
  {
    hide Step, RunProcess;
    var s1 := LOOP_BRANCH.items[0];
    assert !Item(Example(false), LOOP_BRANCH) by {
      assert Children(s1)[0] == s1.yes && Children(LOOP_BRANCH)[0] == s1;
      LoopNotStill();
      assert !Sheltered(s1.yes);
      assert !Item(Example(false), s1);
    }
    FirstIteration();
    var r1 := Step(Example(false), LOOP_BRANCH, Start0());
    BodyEnds(r1.m);
    BranchEnds(Step(Example(false), LOOP_BRANCH, r1.m).m);
    PlainLoop();
  }

  lemma LoopNotStill()
    ensures !Still(LOOP_BRANCH.items[0].yes)
  {
    var loop := LOOP_BRANCH.items[0].yes;
    assert Children(loop)[0] == INNER && Children(INNER)[0] == INNER.items[0];
    assert !Still(INNER.items[0]);
    assert !Still(INNER);
  }

  // ----- both are what the general results speak about -----

  lemma StoreInstance()
    ensures var d, a := Example(true), DELAYED_STORE;
      Branches.Around(d, a, 0) && !Branches.RunEnds(d, a, Start0(), RunProcess(d, a, Woken(d, ORIGIN)))
  {
    hide RunProcess, Branches.RunEnds, Run;
    var d, a := Example(true), DELAYED_STORE;
    var t := a.items[0];
    assert Children(t)[0] == t.yes && Children(t)[1] == t.no;
    StoreAround(d);
    var u := Woken(d, ORIGIN);
    var v := Wait(d, t.yes.store, u).w;
    assert Leaf(d, t, u.store) == t.yes by { assert Leaf(d, t.yes, u.store) == t.yes; }
    assert Leaf(d, t, v.store) == t.no by { assert Leaf(d, t.no, v.store) == t.no; }
    BranchedStores.StoreUnderBranch(d, a, ORIGIN, t.yes);
    BranchedStores.NothingElse(d, t.no, Read(d, MOVE, u), v);
  }

  lemma StoreAround(d: Design)
    ensures Branches.Around(d, DELAYED_STORE, 0) && Item(d, DELAYED_STORE.items[0].no)
  {
    hide Ids, Unique;
    var a := DELAYED_STORE;
    var t := a.items[0];
    LeafIds(d, t.yes);
    LeafIds(d, t.no);
    IfIds(t);
    IfUnique(t);
    assert Unique(a) by { OneUnique(a); }
  }

  lemma LeafIds(d: Design, s: Stmt)
    requires Children(s) == []
    ensures Ids(s) == {s.id} && Unique(s) && Item(d, s)
  {
  }

  lemma IfIds(t: Stmt)
    requires t.If?
    ensures Ids(t) == {t.id} + Ids(t.yes) + Ids(t.no)
  {
    var cs := Children(t);
    forall x ensures x in Ids(t) <==> x in {t.id} + Ids(t.yes) + Ids(t.no) {
      if x in Ids(cs[0]) {} else if x in Ids(cs[1]) {}
    }
  }

  lemma IfUnique(t: Stmt)
    requires t.If? && Unique(t.yes) && Unique(t.no) && Ids(t.yes) !! Ids(t.no) && t.id !in Ids(t.yes) + Ids(t.no)
    ensures Unique(t)
  {
    hide Ids;
    var cs := Children(t);
    forall i | 0 <= i < |cs| ensures t.id !in Ids(cs[i]) && Unique(cs[i]) { if i == 0 {} else {} }
    forall i, j | 0 <= i < j < |cs| ensures Ids(cs[i]) !! Ids(cs[j]) { assert i == 0 && j == 1; }
  }

  lemma OneUnique(s: Stmt)
    requires |Children(s)| == 1 && Unique(Children(s)[0]) && s.id !in Ids(Children(s)[0])
    ensures Unique(s) && Ids(s) == {s.id} + Ids(Children(s)[0])
  {
  }

  lemma LoopInstance()
    ensures var d, a := Example(false), LOOP_BRANCH;
      Branches.Around(d, a, 0) && !Branches.RunEnds(d, a, Start0(), RunProcess(d, a, Woken(d, ORIGIN)))
  {
    hide RunProcess, Branches.RunEnds, Run, Unique, Ids;
    var d, a := Example(false), LOOP_BRANCH;
    var t := a.items[0];
    assert Children(t)[0] == t.yes && Children(t.yes)[0] == INNER && Children(INNER)[0] == INNER.items[0];
    LoopAround(d);
    var u := Woken(d, ORIGIN);
    assert Leaf(d, t, u.store) == t.yes by { assert Leaf(d, t.yes, u.store) == t.yes; }
    assert BranchedLoops.Suspends(INNER) by { assert BranchedLoops.Suspends(INNER.items[0]); }
    assert Item(d, INNER);
    BranchedLoops.RepeatUnderBranch(d, a, ORIGIN, t.yes);
    PlainIteration(u.(ticks := u.ticks - 1));
  }

  lemma LoopAround(d: Design)
    ensures Branches.Around(d, LOOP_BRANCH, 0)
  {
    hide Ids, Unique;
    var a := LOOP_BRANCH;
    var t := a.items[0];
    var s4 := INNER.items[0];
    assert Children(a)[0] == t && Children(t.yes)[0] == INNER && Children(INNER)[0] == s4;
    LeafIds(d, s4);
    LeafIds(d, t.no);
    OneUnique(INNER);
    OneUnique(t.yes);
    IfIds(t);
    IfUnique(t);
    assert Unique(a) by { OneUnique(a); }
  }

  // ----- controls outside blocks -----

  /** begin repeat (1) #5 begin net = value; end end */
  const DELAYED_BODY :=
    Block(0, Free, [Loop(1, Free, Repeat(0), Block(2, Delay(5), [Assign(3, Free, MOVE, Free)]))])

  /** The count is 1. */
  function Once(): Design { Example(false).(times := (e: nat, st: Store) => 1) }

  lemma BodyAround(d: Design)
    ensures Branches.Around(d, DELAYED_BODY, 0) && Item(d, DELAYED_BODY.items[0].body)
  {
    hide Ids, Unique;
    var a := DELAYED_BODY;
    var s := a.items[0];
    assert Children(a)[0] == s && Children(s)[0] == s.body && Children(s.body)[0] == s.body.items[0];
    LeafIds(d, s.body.items[0]);
    OneUnique(s.body);
    OneUnique(s);
    assert Unique(a) by { OneUnique(a); }
  }

  lemma BodyNotItem(d: Design)
    ensures !Fragment(d, DELAYED_BODY)
  {
    var a := DELAYED_BODY;
    var s := a.items[0];
    assert Children(a)[0] == s && Children(s)[0] == s.body;
    assert !Still(s.body) && !Sheltered(s.body);
    assert !Item(d, s);
  }

  /** The plain run writes at time 5. */
  lemma PlainBody(w: World)
    requires w.ticks >= 2 && w.now == 0
    ensures var o := RunProcess(Once(), DELAYED_BODY, w); o.Fin? && o.w.log == w.log + [WroteAt(5)]
  {
    var d, a := Once(), DELAYED_BODY;
    var s := a.items[0];
    var c := s.body;
    assert Children(a)[0] == s && Children(s)[0] == c && Children(c)[0] == c.items[0];
    var v := Wait(d, c.dec, w.(ticks := w.ticks - 1)).w;
    var o := Fin(MoveNow(d, MOVE, v), false);
    assert Run(d, c.items[0], v) == o by { assert Body(d, c.items[0], v) == o; }
    assert RunFrom(d, c, 1, o.w) == o;
    assert Body(d, c, v) == o by { assert RunFrom(d, c, 0, v) == o; }
    hide Body, RunFrom;
    var x := LoopedAgreement.Waiting(d, s, w);
    LoopedAgreement.LoopDoes(d, s, 1, w);
    assert LoopGo(d, s, 1, w) == Fin(o.w, true) by { assert LoopNext(d, s, 1, o.w) == o; }
    LoopedAgreement.LoopRun(d, s, w);
    assert Run(d, s, w) == Fin(o.w, true);
    Branches.LastRuns(d, a, w);
  }

  /** The machine ends at time 5 without having run the body. */
  lemma DelayedBodyIsSkipped()
    ensures !Fragment(Once(), DELAYED_BODY)
    ensures exists x: World ::
      Branches.RunEnds(Once(), DELAYED_BODY, Start0(), Fin(x, true)) && x.log == [] && x.now == 5
    ensures RunProcess(Once(), DELAYED_BODY, Woken(Once(), ORIGIN)).w.log == [WroteAt(5)]
  {
    hide RunProcess, Branches.RunEnds, Unique, Ids, Fragment;
    var d, a := Once(), DELAYED_BODY;
    var s := a.items[0];
    var u := Woken(d, ORIGIN);
    BodyAround(d);
    BodyNotItem(d);
    PlainBody(u);
    LoopedControls.ProcessSkips(d, a, ORIGIN, s);
    LoopedAgreement.SkipWaits(d, s, 1, u);
    var x := LoopedAgreement.Waiting(d, s, u).w;
    assert LoopedControls.SkipNext(d, s, 1, {2}, x) == Fin(x, false);
    Branches.LastJoined(d, a, LoopedControls.SkipStart(d, s, {}, u));
    assert Branches.Rejoined(d, a, 0, LoopedControls.SkipStart(d, s, {}, u)) == Fin(x, true);
  }

  /** begin if (test) #5 begin net = value; end end */
  const DELAYED_BRANCH :=
    Block(0, Free, [If(1, Free, 0, Block(2, Delay(5), [Assign(3, Free, MOVE, Free)]), Null(4, Free))])

  /** Another process turns the test off during the wait; the branch is not run. */
  lemma DelayedBranchIsDropped()
    ensures var d, a := Example(true), DELAYED_BRANCH;
      Branches.Around(d, a, 0) && !Branches.RunEnds(d, a, Start0(), RunProcess(d, a, Woken(d, ORIGIN)))
  {
    hide RunProcess, Branches.RunEnds, Unique, Ids, Run;
    var d, a := Example(true), DELAYED_BRANCH;
    var t := a.items[0];
    var u := Woken(d, ORIGIN);
    var v := Wait(d, t.yes.dec, u).w;
    BranchAround(d);
    assert Children(t)[0] == t.yes && Children(t)[1] == t.no;
    assert Leaf(d, t, u.store) == t.yes by { assert Leaf(d, t.yes, u.store) == t.yes; }
    assert Leaf(d, t, v.store) == t.no by { assert Leaf(d, t.no, v.store) == t.no; }
    assert Run(d, t.no, v) == Fin(v, false) by { NullRuns(d, t.no, v); }
    BranchBody(d, v);
    assert Controls.Nest(d, t) by { assert Controls.Nest(d, t.yes) && Controls.Nest(d, t.no); }
    BranchedControls.ControlUnderBranch(d, a, ORIGIN, t.yes);
  }

  lemma BranchAround(d: Design)
    ensures Branches.Around(d, DELAYED_BRANCH, 0) && Item(d, DELAYED_BRANCH.items[0].yes)
  {
    hide Ids, Unique;
    var a := DELAYED_BRANCH;
    var t := a.items[0];
    assert Children(t.yes)[0] == t.yes.items[0];
    LeafIds(d, t.yes.items[0]);
    LeafIds(d, t.no);
    OneUnique(t.yes);
    IfIds(t);
    IfUnique(t);
    assert Unique(a) by { OneUnique(a); }
  }

  lemma NullRuns(d: Design, s: Stmt, w: World)
    requires s.Null? && s.dec.Free?
    ensures Run(d, s, w) == Fin(w, false)
  {
  }

  lemma BranchBody(d: Design, w: World)
    requires d == Example(true)
    ensures Body(d, DELAYED_BRANCH.items[0].yes, w).w.log == w.log + [Wrote(w.now, Target(7, []), Value([HI], false))]
  {
    var c := DELAYED_BRANCH.items[0].yes;
    assert Children(c)[0] == c.items[0];
    var o := Fin(MoveNow(d, MOVE, w), false);
    assert Run(d, c.items[0], w) == o by { assert Body(d, c.items[0], w) == o; }
    assert RunFrom(d, c, 1, o.w) == o;
    assert RunFrom(d, c, 0, w) == o;
  }
}
