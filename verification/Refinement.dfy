/** The restarting interpreter does what the plain recursive semantics says. */
module Refinement {
  import opened Wrappers
  import opened Program
  import opened Machine
  import opened Shape

  // ----- statements inside statements -----

  lemma IdsChild(s: Stmt, i: nat)
    requires i < |Children(s)|
    ensures Ids(Children(s)[i]) <= Ids(s)
    ensures Unique(s) ==> Ids(Children(s)[i]) <= Kids(s) && Unique(Children(s)[i])
  {
  }

  lemma {:induction false} EnclosesSub(d: Design, m: State, s: Stmt, inner: Stmt)
    requires Encloses(m, s, inner)
    ensures inner.Block? && Ids(inner) <= Ids(s) && Size(inner) <= Size(s)
    ensures Item(d, s) ==> Item(d, inner)
    ensures Unique(s) ==> Unique(inner) && (s != inner ==> s.id !in Ids(inner))
    decreases s
  {
    if s != inner {
      var cs := Children(s);
      var i :| 0 <= i < |cs| && Encloses(m, cs[i], inner);
      EnclosesSub(d, m, cs[i], inner);
      IdsChild(s, i);
    }
  }

  lemma OthersFrame(m: State, n: State, b: Stmt, c: nat)
    requires Unique(b) && c < |Children(b)| && Others(m, Children(b), c)
    requires SameOn(m, n, Kids(b) - Ids(Children(b)[c]))
    ensures Others(n, Children(b), c)
  {
    var cs := Children(b);
    forall j, x | 0 <= j < |cs| && j != c && x in Ids(cs[j]) ensures Idle(Of(n, x)) {
      IdsChild(b, j);
      assert x !in Ids(cs[c]);
      assert Of(m, x) == Of(n, x) && Idle(Of(m, x));
    }
  }

  lemma {:induction false} EnclosesFrame(d: Design, m: State, n: State, s: Stmt, inner: Stmt)
    requires Encloses(m, s, inner) && Unique(s) && SameOn(m, n, Ids(s) - Ids(inner))
    ensures Encloses(n, s, inner)
    decreases s
  {
    hide Unique, Others, Ids, Item;
    if s != inner {
      var cs := Children(s);
      var i :| 0 <= i < |cs| && !cs[i].Loop? && Encloses(m, cs[i], inner) && Others(m, cs, i);
      EnclosesSub(d, m, s, inner);
      EnclosesSub(d, m, cs[i], inner);
      IdsChild(s, i);
      SelfId(s);
      EnclosesFrame(d, m, n, cs[i], inner);
      assert Of(m, s.id) == Of(n, s.id);
      OthersFrame(m, n, s, i);
      assert !cs[i].Loop? && Encloses(n, cs[i], inner) && Others(n, cs, i);
    }
  }

  lemma SelfId(s: Stmt)
    ensures s.id in Ids(s)
  {
  }

  lemma LoopOutside(d: Design, m: State, s: Stmt, inner: Stmt)
    requires Encloses(m, s, inner) && Unique(s) && s.Loop?
    ensures s.id !in Ids(inner)
  {
    EnclosesSub(d, m, s, inner);
  }

  /** Once the block is finished, what encloses it is idle, or a loop about to
      continue. */
  lemma {:induction false} EnclosesClear(m: State, s: Stmt, inner: Stmt)
    requires Encloses(m, s, inner) && Clean(m, Ids(inner)) && Unique(s)
    ensures if s.Loop? then Loops(s, Of(m, s.id)) && Clean(m, Kids(s)) else Clean(m, Ids(s))
    decreases s
  {
    hide Unique, Loops, Ids;
    if s != inner {
      var cs := Children(s);
      var i :| 0 <= i < |cs| && !cs[i].Loop? && Encloses(m, cs[i], inner) && Others(m, cs, i);
      IdsChild(s, i);
      EnclosesClear(m, cs[i], inner);
      OthersClean(m, s, i);
    }
  }

  // ----- stacks -----

  lemma {:induction false} OuterJoin(d: Design, m: State, f: seq<Stmt>, g: seq<Stmt>, o: Outcome)
    ensures Outer(d, m, f + g, o) == Outer(d, m, g, Outer(d, m, f, o))
    decreases |f|
  {
    if f == [] {
      assert f + g == g;
    } else {
      assert (f + g)[1..] == f[1..] + g;
      OuterJoin(d, m, f[1..], g, AfterInner(d, m, f[0], o));
    }
  }

  lemma {:induction false} ChainJoin(m: State, f: seq<Stmt>, g: seq<Stmt>, inner: Stmt)
    requires Chain(m, f, inner) && Chain(m, g, Last(f, inner))
    ensures Chain(m, f + g, inner)
    decreases |f|
  {
    hide Frame;
    if f == [] {
      assert f + g == g;
    } else {
      assert (f + g)[1..] == f[1..] + g;
      assert Last(f, inner) == Last(f[1..], f[0]);
      ChainJoin(m, f[1..], g, f[0]);
    }
  }

  lemma ChainStep(m: State, frames: seq<Stmt>, inner: Stmt)
    requires Chain(m, frames, inner) && frames != []
    ensures Frame(m, frames[0], inner) && Chain(m, frames[1..], frames[0])
    ensures Last(frames, inner) == Last(frames[1..], frames[0])
  {
    hide Frame;
  }

  lemma FrameSub(d: Design, m: State, b: Stmt, inner: Stmt)
    requires Frame(m, b, inner) && Item(d, b) && Unique(b)
    ensures inner.Block? && Item(d, inner) && Unique(inner)
    ensures Ids(inner) <= Kids(b) && Size(inner) < Size(b)
  {
    var c := Of(m, b.id).cur;
    assert b.items[c] == Children(b)[c];
    EnclosesSub(d, m, b.items[c], inner);
    IdsChild(b, c);
  }

  lemma FrameKept(d: Design, m: State, n: State, b: Stmt, inner: Stmt)
    requires Frame(m, b, inner) && Item(d, b) && Unique(b) && SameOn(m, n, Ids(b) - Ids(inner))
    ensures Frame(n, b, inner) && Of(m, b.id) == Of(n, b.id)
  {
    hide Ids, Unique, Item, Encloses, Others;
    var c := Of(m, b.id).cur;
    var s := Children(b)[c];
    FrameSub(d, m, b, inner);
    IdsChild(b, c);
    EnclosesSub(d, m, s, inner);
    assert Of(m, b.id) == Of(n, b.id) by { assert b.id !in Ids(inner); }
    assert Encloses(n, s, inner) by { EnclosesFrame(d, m, n, s, inner); }
    assert Others(n, b.items, c) by { OthersFrame(m, n, b, c); }
  }

  lemma AfterBlockSame(d: Design, f: Fields, g: Fields, s: Stmt, o: Outcome)
    requires s.Loop? ==> f == g
    ensures AfterBlock(d, f, s, o) == AfterBlock(d, g, s, o)
  {
  }

  lemma FrameFrame(d: Design, m: State, n: State, b: Stmt, inner: Stmt, o: Outcome)
    requires Frame(m, b, inner) && Item(d, b) && Unique(b) && SameOn(m, n, Ids(b) - Ids(inner))
    ensures Frame(n, b, inner)
    ensures AfterInner(d, m, b, o) == AfterInner(d, n, b, o)
  {
    hide Ids, Unique, Item, Encloses, Others, RunFrom, AfterBlock;
    FrameKept(d, m, n, b, inner);
    var c := Of(m, b.id).cur;
    var s := Children(b)[c];
    IdsChild(b, c);
    SelfId(s);
    if s.Loop? { LoopOutside(d, m, s, inner); }
    AfterBlockSame(d, Of(m, s.id), Of(n, s.id), s, o);
  }

  lemma {:induction false} ChainSub(d: Design, m: State, frames: seq<Stmt>, inner: Stmt)
    requires Chain(m, frames, inner) && inner.Block?
    requires Item(d, Last(frames, inner)) && Unique(Last(frames, inner))
    ensures Item(d, inner) && Unique(inner)
    ensures Ids(inner) <= Ids(Last(frames, inner)) && Size(inner) <= Size(Last(frames, inner))
    decreases |frames|
  {
    if frames != [] {
      assert Last(frames, inner) == Last(frames[1..], frames[0]);
      ChainSub(d, m, frames[1..], frames[0]);
      FrameSub(d, m, frames[0], inner);
    }
  }

  lemma {:induction false} ChainFrame(d: Design, m: State, n: State, frames: seq<Stmt>, inner: Stmt, o: Outcome)
    requires Chain(m, frames, inner) && inner.Block?
    requires Item(d, Last(frames, inner)) && Unique(Last(frames, inner))
    requires SameOn(m, n, Ids(Last(frames, inner)) - Ids(inner))
    ensures Chain(n, frames, inner)
    ensures Outer(d, m, frames, o) == Outer(d, n, frames, o)
    decreases |frames|
  {
    if frames != [] {
      var b := frames[0];
      assert Last(frames, inner) == Last(frames[1..], b);
      ChainSub(d, m, frames[1..], b);
      FrameSub(d, m, b, inner);
      FrameFrame(d, m, n, b, inner, o);
      ChainFrame(d, m, n, frames[1..], b, AfterInner(d, m, b, o));
    }
  }

  // ----- what one trigger promises -----

  ghost predicate Quiet(m: State, n: State, ids: set<nat>) {
    n.stk == m.stk && n.wake == m.wake && SameOff(m, n, ids) && Clean(n, ids)
  }

  /** Exactly one restart has been asked for, and it is a wait. */
  ghost predicate Asked(m: State, n: State) {
    |n.wake| == |m.wake| + 1 && n.wake[..|m.wake|] == m.wake && !n.wake[|m.wake|].Requeue?
  }

  ghost predicate Stacked(d: Design, n: State, seg: seq<Stmt>) {
    seg != [] && TopWaits(d, n, seg[0]) && Chain(n, seg[1..], seg[0])
  }

  ghost predicate Hung(d: Design, n: State, s: Stmt, seg: seq<Stmt>) {
    if seg == [] then WaitsIn(d, n, s)
    else Stacked(d, n, seg) && Encloses(n, s, seg[|seg| - 1])
  }

  ghost predicate Suspended(d: Design, s: Stmt, m: State, n: State, seg: seq<Stmt>, o: Outcome) {
    n.stk == seg + m.stk && SameOff(m, n, Ids(s)) && Asked(m, n) && Hung(d, n, s, seg) &&
    (seg == [] ==> n.world.store == m.world.store) &&
    Norm(o) == Later(d, n, s, seg, n.wake[|m.wake|]) && (o.Fin? ==> o.paused)
  }

  /** `o` is what the plain semantics says about the work `r` reports on. */
  ghost predicate Post(d: Design, s: Stmt, m: State, r: Result, o: Outcome) {
    match r.status
    case Done => o == Fin(r.m.world, false) && Quiet(m, r.m, Ids(s))
    case Bound => o == Cut(r.m.world)
    case Stuck => false
    case Delayed => !Still(s) && exists seg :: Suspended(d, s, m, r.m, seg, o)
  }

  ghost predicate StackSuspended(d: Design, b: Stmt, m: State, n: State, seg: seq<Stmt>, o: Outcome)
    requires m.stk != []
  {
    n.stk == seg + m.stk[1..] && SameOff(m, n, Ids(b)) && Asked(m, n) && Stacked(d, n, seg) &&
    seg != [] && seg[|seg| - 1] == b && Norm(o) == LaterStack(d, n, seg, n.wake[|m.wake|]) && (o.Fin? ==> o.paused)
  }

  ghost predicate PostItems(d: Design, b: Stmt, m: State, r: Result, o: Outcome)
    requires m.stk != []
  {
    match r.status
    case Done => o == Fin(r.m.world, false) && Quiet(m.(stk := m.stk[1..]), r.m, Ids(b))
    case Bound => o == Cut(r.m.world)
    case Stuck => false
    case Delayed => !Still(b) && exists seg :: StackSuspended(d, b, m, r.m, seg, o)
  }

  /** A statement past its own control. */
  ghost predicate Started(m: State, s: Stmt) {
    var f := Of(m, s.id);
    Clean(m, Kids(s)) && !f.pushed && !f.armed &&
    (Idle(f) || Waits(s, f.(armed := !s.dec.Free?)) || Loops(s, f.(armed := s.dec.Delay?)))
  }

  function Rest(d: Design, f: Fields, s: Stmt, w: World): Outcome {
    if s.Loop? && f.looped then LoopNext(d, s, N(s, f), w)
    else if f.pending.Some? then Fin(Commit(d, f.pending.value, w), false)
    else Body(d, s, w)
  }

  lemma PostFrom(d: Design, s: Stmt, m: State, n: State, r: Result, o: Outcome)
    requires Post(d, s, n, r, o) && n.stk == m.stk && n.wake == m.wake && SameOff(m, n, Ids(s))
    requires n.world.store == m.world.store
    ensures Post(d, s, m, r, o)
  {
    hide Ids, Later, Hung, Still, Clean;
    if r.status.Delayed? {
      var seg :| Suspended(d, s, n, r.m, seg, o);
      assert Suspended(d, s, m, r.m, seg, o);
    }
  }

  /** The same for a loop past its control, which is never suspended in itself. */
  ghost predicate PostIn(d: Design, s: Stmt, m: State, r: Result, o: Outcome) {
    s.Loop? && Post(d, s, m, r, o) && (r.status.Delayed? ==> Of(r.m, s.id).looped)
  }

  lemma PostInFrom(d: Design, s: Stmt, m: State, n: State, r: Result, o: Outcome)
    requires PostIn(d, s, n, r, o) && n.stk == m.stk && n.wake == m.wake && SameOff(m, n, Ids(s))
    ensures PostIn(d, s, m, r, o)
  {
    hide Ids, Later, Stacked, Still, Clean, Encloses;
    if r.status.Delayed? {
      var seg :| Suspended(d, s, n, r.m, seg, o);
      assert seg != [];
      assert Suspended(d, s, m, r.m, seg, o);
    }
  }

  lemma TriggerWaits(d: Design, s: Stmt, m: State)
    requires !Of(m, s.id).armed && !s.dec.Free?
    ensures Trigger(d, s, m) == Result(Arm(d, s.dec, Set(m, s.id, Of(m, s.id).(armed := true))), Delayed)
  {
  }

  lemma WaitLater(d: Design, s: Stmt, f: Fields, w: World, k: Wakeup)
    requires !s.dec.Free? && f.armed && !f.looped && f.pending.None?
    requires !k.Requeue? && k.at == w.now + Span(d, s.dec, w)
    ensures var o := Run(d, s, w);
      Norm(o) == (if w.ticks == 0 then Outcome.Cut(w) else Norm(ResumedOne(d, f, s, Wake(d, k, w).w))) &&
      (o.Fin? ==> o.paused)
  {
    hide Body;
  }

  lemma Arming(d: Design, c: Control, m: State)
    requires !c.Free?
    ensures var n := Arm(d, c, m);
      n.stk == m.stk && n.fields == m.fields && n.world == m.world && n.wake[..|m.wake|] == m.wake &&
      |n.wake| == |m.wake| + 1 && !n.wake[|m.wake|].Requeue? && n.wake[|m.wake|].at == m.world.now + Span(d, c, m.world)
  {
  }

  lemma ArmedHangs(d: Design, m: State, n: State, s: Stmt, f: Fields)
    requires Clean(m, Ids(s)) && !s.dec.Free? && n.fields == Set(m, s.id, f).fields && f == Of(m, s.id).(armed := true)
    ensures Of(n, s.id) == f && f.armed && !f.looped && f.pending.None? && Hung(d, n, s, []) &&
      SameOff(m, n, Ids(s)) && !Still(s)
  {
    SelfId(s);
    hide Ids;
  }

  lemma ArmedOk(d: Design, s: Stmt, m: State)
    requires Clean(m, Ids(s)) && !s.dec.Free?
    ensures Post(d, s, m, Trigger(d, s, m), Run(d, s, m.world))
  {
    hide Ids, Trigger, Run, ResumedOne, Norm, Arm, Span, Still, Hung;
    var f := Of(m, s.id);
    var n := Arm(d, s.dec, Set(m, s.id, f.(armed := true)));
    TriggerWaits(d, s, m);
    Arming(d, s.dec, Set(m, s.id, f.(armed := true)));
    ArmedHangs(d, m, n, s, f.(armed := true));
    assert n.stk == [] + m.stk;
    WaitLater(d, s, Of(n, s.id), m.world, n.wake[|m.wake|]);
    assert Suspended(d, s, m, n, [], Run(d, s, m.world));
  }

  // ----- the suspended stack depends only on the fields of its own blocks -----

  lemma CleanFrame(m: State, n: State, ids: set<nat>)
    requires Clean(m, ids) && SameOn(m, n, ids)
    ensures Clean(n, ids)
  {
  }

  lemma {:induction false} WaitsFrame(d: Design, m: State, n: State, s: Stmt)
    requires WaitsIn(d, m, s) && Unique(s) && SameOn(m, n, Ids(s)) && m.world.store == n.world.store
    ensures WaitsIn(d, n, s)
    decreases s
  {
    hide Picked, Waits;
    SelfId(s);
    if Branching(s) {
      var i := Picked(d, s, m.world.store);
      IdsChild(s, i);
      ApartFromChild(s, i);
      OthersFrame(m, n, s, i);
      hide Ids;
      hide Unique;
      WaitsFrame(d, m, n, Children(s)[i]);
    } else {
      CleanFrame(m, n, Kids(s));
    }
  }

  lemma {:induction false} ResumedFrame(d: Design, m: State, n: State, s: Stmt, w: World)
    requires SameOn(m, n, Ids(s))
    ensures Resumed(d, m, s, w) == Resumed(d, n, s, w)
    decreases s
  {
    hide Picked, ResumedOne;
    SelfId(s);
    if Branching(s) {
      IdsChild(s, Picked(d, s, w.store));
      hide Ids;
      ResumedFrame(d, m, n, Children(s)[Picked(d, s, w.store)], w);
    }
  }

  lemma TopFrame(d: Design, m: State, n: State, b: Stmt, w: World)
    requires TopWaits(d, m, b) && Unique(b) && SameOn(m, n, Ids(b)) && m.world.store == n.world.store
    ensures TopWaits(d, n, b) && TopRun(d, m, b, w) == TopRun(d, n, b, w)
  {
    hide Ids, Unique, Resumed, RunFrom, WaitsIn;
    var c := Of(m, b.id).cur;
    assert b.items == Children(b);
    IdsChild(b, c);
    OthersFrame(m, n, b, c);
    WaitsFrame(d, m, n, b.items[c]);
    ResumedFrame(d, m, n, b.items[c], w);
  }

  lemma StackedSub(d: Design, n: State, seg: seq<Stmt>)
    requires Stacked(d, n, seg) && Item(d, seg[|seg| - 1]) && Unique(seg[|seg| - 1])
    ensures Last(seg[1..], seg[0]) == seg[|seg| - 1]
    ensures seg[0].Block? && Item(d, seg[0]) && Unique(seg[0]) && Ids(seg[0]) <= Ids(seg[|seg| - 1])
  {
    hide Ids, Unique, Item, Frame;
    ChainSub(d, n, seg[1..], seg[0]);
  }

  lemma StackedFrame(d: Design, m: State, n: State, seg: seq<Stmt>, w: World)
    requires Stacked(d, m, seg) && Item(d, seg[|seg| - 1]) && Unique(seg[|seg| - 1])
    requires SameOn(m, n, Ids(seg[|seg| - 1])) && m.world.store == n.world.store
    ensures Stacked(d, n, seg) && Unwind(d, m, seg, w) == Unwind(d, n, seg, w)
  {
    hide Ids, Unique, Item, Frame, TopWaits, TopRun, Outer, Chain;
    StackedSub(d, m, seg);
    TopFrame(d, m, n, seg[0], w);
    ChainFrame(d, m, n, seg[1..], seg[0], Norm(TopRun(d, m, seg[0], w)));
  }

  // ----- loops -----

  lemma LoopEnclosed(d: Design, n0: State, s: Stmt, g: Fields, inner: Stmt)
    requires s.Loop? && !s.body.Loop? && Encloses(n0, s.body, inner) && Unique(s) && Loops(s, g)
    ensures Encloses(Set(n0, s.id, g), s, inner)
  {
    hide Ids, Unique, Loops;
    var n := Set(n0, s.id, g);
    assert Children(s)[0] == s.body;
    IdsChild(s, 0);
    EnclosesFrame(d, n0, n, s.body, inner);
    assert Others(n, Children(s), 0);
    EnclosesSub(d, n0, s.body, inner);
  }

  lemma LoopSuspended(d: Design, s: Stmt, m: State, n0: State, seg: seq<Stmt>, g: Fields, ob: Outcome)
    requires s.Loop? && Item(d, s) && Unique(s) && Loops(s, g) && !Still(s.body)
    requires Suspended(d, s.body, m, n0, seg, ob)
    ensures Stacked(d, Set(n0, s.id, g), seg) && Encloses(Set(n0, s.id, g), s, seg[|seg| - 1])
    ensures forall w :: Unwind(d, n0, seg, w) == Unwind(d, Set(n0, s.id, g), seg, w)
    ensures !s.body.Loop?
  {
    hide Ids, Unique, Stacked, Unwind, Encloses, Loops, Still, Later;
    var n := Set(n0, s.id, g);
    assert Children(s)[0] == s.body;
    IdsChild(s, 0);
    NotEmpty(d, s, m, n0, seg, ob);
    LoopEnclosed(d, n0, s, g, seg[|seg| - 1]);
    EnclosesSub(d, n0, s.body, seg[|seg| - 1]);
    assert SameOn(n0, n, Ids(seg[|seg| - 1]));
    forall w ensures Unwind(d, n0, seg, w) == Unwind(d, n, seg, w) {
      StackedFrame(d, n0, n, seg, w);
    }
    StackedFrame(d, n0, n, seg, m.world);
  }

  ghost predicate Counting(m: State, s: Stmt) {
    s.Loop? && (s.kind.Repeat? ==> 1 <= Of(m, s.id).count < TWO32)
  }

  /** The fields of a loop whose body has just been suspended. */
  function Looped(s: Stmt, f: Fields): Fields { f.(looped := true, armed := f.armed || s.dec.Delay?) }

  lemma GoLater(d: Design, s: Stmt, n0: State, seg: seq<Stmt>, g: Fields, k: Wakeup, w: World, ob: Outcome)
    requires s.Loop? && g.looped && w.ticks > 0 && ob == Run(d, s.body, w.(ticks := w.ticks - 1))
    requires !s.body.Loop? && seg != [] && (ob.Fin? ==> ob.paused)
    requires Norm(ob) == Later(d, n0, s.body, seg, k)
    requires forall w :: Unwind(d, n0, seg, w) == Unwind(d, Set(n0, s.id, g), seg, w)
    ensures var o := LoopGo(d, s, N(s, g), w);
      Norm(o) == Later(d, Set(n0, s.id, g), s, seg, k) && (o.Fin? ==> o.paused)
  {
    hide Unwind, Run, LoopNext;
  }

  lemma GoDelayed(d: Design, s: Stmt, m: State, n0: State, seg: seq<Stmt>, ob: Outcome)
    requires s.Loop? && Item(d, s) && Unique(s) && Clean(m, Ids(s)) && Counting(m, s) && m.world.ticks > 0
    requires !Still(s.body)
    requires var m1 := m.(world := m.world.(ticks := m.world.ticks - 1));
      ob == Run(d, s.body, m1.world) && Suspended(d, s.body, m1, n0, seg, ob)
    ensures var g := Looped(s, Of(n0, s.id));
      Suspended(d, s, m, Set(n0, s.id, g), seg, LoopGo(d, s, N(s, Of(m, s.id)), m.world))
  {
    hide Ids, Unique, Stacked, Unwind, Encloses, Still, Later, Run, LoopGo, Waits;
    var m1 := m.(world := m.world.(ticks := m.world.ticks - 1));
    var g := Looped(s, Of(n0, s.id));
    assert Children(s)[0] == s.body;
    IdsChild(s, 0);
    assert Of(n0, s.id) == Of(m, s.id);
    LoopSuspended(d, s, m1, n0, seg, g, ob);
    NotEmpty(d, s, m1, n0, seg, ob);
    GoLater(d, s, n0, seg, g, n0.wake[|m.wake|], m.world, ob);
  }

  lemma NotEmpty(d: Design, s: Stmt, m: State, n0: State, seg: seq<Stmt>, ob: Outcome)
    requires s.Loop? && Item(d, s) && Suspended(d, s.body, m, n0, seg, ob)
    ensures seg != []
  {
    hide Ids, Later, Stacked, Encloses, Still, WaitsIn;
    assert Children(s)[0] == s.body;
    ShelteredNever(d, n0, s.body);
  }

  // ----- the main induction -----

  lemma {:induction false} TriggerOk(d: Design, s: Stmt, m: State)
    requires Item(d, s) && Unique(s) && Ready(d, m, s)
    ensures Post(d, s, m, Trigger(d, s, m), Resumed(d, m, s, m.world))
    decreases m.world.ticks, Size(s), 5
  {
    hide Ids, Unique, Item, Act, Body, LoopNext, Run, Post, Started, ResumedOne;
    if Branching(s) {
      BranchingReady(d, s, m);
      BranchOk(d, s, m);
    } else {
      var f := Of(m, s.id);
      NotBranching(d, s, m);
      if s.dec.Free? || f.armed {
        var m1 := HandleDec(d, s, m).m;
        ActOk(d, s, m1);
        ControlPassed(d, s, f, m.world);
        PostFrom(d, s, m, m1, Act(d, s, m1), Rest(d, Of(m1, s.id), s, m1.world));
      } else {
        ArmedOk(d, s, m);
        ResumedFresh(d, s, f, m.world);
      }
    }
  }

  /** An if or a case passes a trigger on to the branch it leads to. */
  lemma BranchingReady(d: Design, s: Stmt, m: State)
    requires Item(d, s) && Unique(s) && Ready(d, m, s) && Branching(s)
    ensures PickReady(d, s, m) && Trigger(d, s, m) == Act(d, s, m)
  {
    hide Ids, Unique, Item, Act, Picked;
    var i := Picked(d, s, m.world.store);
    if Clean(m, Ids(s)) {
      KidsOthers(m, s, i);
      SelfId(s);
    }
  }

  lemma NotBranching(d: Design, s: Stmt, m: State)
    requires Ready(d, m, s) && !Branching(s)
    ensures var f := Of(m, s.id);
      if s.dec.Free? || f.armed then Started(HandleDec(d, s, m).m, s) else Clean(m, Ids(s))
    ensures Trigger(d, s, m) ==
      if s.dec.Free? || Of(m, s.id).armed then Act(d, s, HandleDec(d, s, m).m) else HandleDec(d, s, m)
  {
    hide Act;
    SelfId(s);
    hide Ids;
  }

  lemma ControlPassed(d: Design, s: Stmt, f: Fields, w: World)
    requires s.dec.Free? || f.armed
    ensures ResumedOne(d, f, s, w) == Rest(d, f.(armed := false), s, w)
  {
    hide Body, LoopNext;
  }

  lemma ResumedFresh(d: Design, s: Stmt, f: Fields, w: World)
    requires Idle(f)
    ensures ResumedOne(d, f, s, w) == Run(d, s, w)
  {
    hide Run;
  }

  lemma {:induction false} ActOk(d: Design, s: Stmt, m: State)
    requires Item(d, s) && Unique(s) && Started(m, s)
    ensures Post(d, s, m, Act(d, s, m), Rest(d, Of(m, s.id), s, m.world))
    decreases m.world.ticks, Size(s), 4
  {
    hide Ids, Unique, Item, Act, Rest, Post;
    match s
    case Null(_, _) => SimpleOk(d, s, m);
    case NonBlocking(_, _, _, _) => SimpleOk(d, s, m);
    case Assign(_, _, _, _) => AssignOk(d, s, m);
    case If(_, _, _, _, _) =>
      BranchActs(d, s, m);
      BranchOk(d, s, m);
    case Case(_, _, _, _, _, _) =>
      BranchActs(d, s, m);
      BranchOk(d, s, m);
    case Loop(_, _, _, _) => LoopOk(d, s, m);
    case Block(_, _, _) => BlockOk(d, s, m);
  }

  lemma SimpleOk(d: Design, s: Stmt, m: State)
    requires (s.Null? || s.NonBlocking?) && Started(m, s)
    ensures Post(d, s, m, Act(d, s, m), Rest(d, Of(m, s.id), s, m.world))
  {
    hide Suspended;
  }

  lemma AssignOk(d: Design, s: Stmt, m: State)
    requires s.Assign? && Started(m, s)
    ensures Post(d, s, m, Act(d, s, m), Rest(d, Of(m, s.id), s, m.world))
  {
    hide Ids, Later;
    var r := Assignment(d, s, m);
    assert Act(d, s, m) == r;
    if r.status.Delayed? {
      assert r.m.stk == [] + m.stk;
      StoreLater(d, s, Of(r.m, s.id), m.world, r.m.wake[|m.wake|], r.m);
      assert Suspended(d, s, m, r.m, [], Rest(d, Of(m, s.id), s, m.world));
      assert Post(d, s, m, Act(d, s, m), Rest(d, Of(m, s.id), s, m.world));
    } else {
      forall x | x in Ids(s) ensures Idle(Of(r.m, x)) {
        if x == s.id {
          assert Idle(Of(r.m, x));
        } else {
          assert x in Kids(s);
          assert Of(r.m, x) == Of(m, x);
        }
      }
      assert Quiet(m, r.m, Ids(s));
      assert Rest(d, Of(m, s.id), s, m.world) == Fin(r.m.world, false);
      assert Post(d, s, m, Act(d, s, m), Rest(d, Of(m, s.id), s, m.world));
    }
  }

  lemma StoreLater(d: Design, s: Stmt, f: Fields, w: World, k: Wakeup, n: State)
    requires s.Assign? && !s.store.Free? && f.pending == Some(Read(d, s.move, w)) && !k.Requeue?
    requires Of(n, s.id) == f && n.world == w && k.at == w.now + Span(d, s.store, w)
    ensures Norm(Body(d, s, w)) == Later(d, n, s, [], k) && (Body(d, s, w).Fin? ==> Body(d, s, w).paused)
  {
  }

  // ----- branches -----

  /** Everything in `s` but the child at position `i` is idle. */
  ghost predicate IdleBut(m: State, s: Stmt, i: nat) { Idle(Of(m, s.id)) && Others(m, Children(s), i) }

  lemma QuietWider(m: State, n: State, s: Stmt, i: nat)
    requires i < |Children(s)| && Unique(s) && Quiet(m, n, Ids(Children(s)[i])) && IdleBut(m, s, i)
    ensures Quiet(m, n, Ids(s))
  {
    hide Ids, Unique;
    BranchOthers(m, n, s, i);
    OthersClean(n, s, i);
    OffWider(m, n, s, i);
    forall x | x in Ids(s) ensures Idle(Of(n, x)) { assert x == s.id || x in Kids(s); }
  }

  lemma OffWider(m: State, n: State, s: Stmt, i: nat)
    requires i < |Children(s)| && SameOff(m, n, Ids(Children(s)[i]))
    ensures SameOff(m, n, Ids(s))
  {
    IdsChild(s, i);
    hide Ids;
  }

  lemma BranchEnclosed(d: Design, m: State, n: State, s: Stmt, i: nat, inner: Stmt)
    requires (s.If? || s.Case?) && i < |Children(s)| && Unique(s) && IdleBut(m, s, i)
    requires SameOff(m, n, Ids(Children(s)[i])) && !Children(s)[i].Loop? && Encloses(n, Children(s)[i], inner)
    ensures Encloses(n, s, inner)
  {
    hide Ids, Unique, Clean, IdleBut;
    ApartFromChild(s, i);
    EnclosesSub(d, n, Children(s)[i], inner);
    BranchOthers(m, n, s, i);
  }

  lemma BranchOthers(m: State, n: State, s: Stmt, i: nat)
    requires i < |Children(s)| && Unique(s) && IdleBut(m, s, i) && SameOff(m, n, Ids(Children(s)[i]))
    ensures Others(n, Children(s), i) && Idle(Of(n, s.id))
  {
    hide Ids, Unique;
    ApartFromChild(s, i);
    OthersFrame(m, n, s, i);
  }

  /** What is sheltered never waits in itself. */
  lemma {:induction false} ShelteredNever(d: Design, m: State, s: Stmt)
    requires Sheltered(s)
    ensures !WaitsIn(d, m, s)
    decreases s
  {
    hide Ids, Picked;
    if Branching(s) {
      var c := Children(s)[Picked(d, s, m.world.store)];
      if Still(s) { assert Still(c); }
      ShelteredNever(d, m, c);
    }
  }

  /** A branch that waits in itself. */
  lemma BranchWaits(d: Design, s: Stmt, m: State, n: State, i: nat, o: Outcome)
    requires (s.If? || s.Case?) && Item(d, s) && Unique(s) && IdleBut(m, s, i) && i == Picked(d, s, m.world.store)
    requires Suspended(d, Children(s)[i], m, n, [], o)
    ensures Suspended(d, s, m, n, [], o)
  {
    hide Ids, Unique, Picked, IdleBut, Still, Resumed, Span;
    var c := Children(s)[i];
    if Sheltered(c) { ShelteredNever(d, n, c); }
    assert MayWait(d, s, c);
    BranchOthers(m, n, s, i);
    OffWider(m, n, s, i);
    SameResumed(d, s, n, i, n.wake[|m.wake|]);
  }

  lemma SameResumed(d: Design, s: Stmt, n: State, i: nat, k: Wakeup)
    requires Calm(d) && Branching(s) && i == Picked(d, s, n.world.store)
    ensures Later(d, n, s, [], k) == Later(d, n, Children(s)[i], [], k)
  {
    hide ResumedOne, Picked;
  }

  lemma BranchSuspended(d: Design, s: Stmt, m: State, n: State, i: nat, seg: seq<Stmt>, o: Outcome)
    requires (s.If? || s.Case?) && i == Picked(d, s, m.world.store) && Item(d, s) && Unique(s) && IdleBut(m, s, i)
    requires !Still(Children(s)[i]) && Suspended(d, Children(s)[i], m, n, seg, o)
    ensures Suspended(d, s, m, n, seg, o)
  {
    hide Ids, Unique, Stacked, Encloses, Unwind, Still, IdleBut, Resumed;
    var c := Children(s)[i];
    if seg == [] {
      BranchWaits(d, s, m, n, i, o);
    } else {
      NoLoop(d, s, i);
      BranchEnclosed(d, m, n, s, i, seg[|seg| - 1]);
      OffWider(m, n, s, i);
    }
  }

  lemma NoLoop(d: Design, s: Stmt, i: nat)
    requires (s.If? || s.Case?) && Item(d, s) && i < |Children(s)| && !Still(Children(s)[i])
    ensures !Children(s)[i].Loop?
  {
    hide Still;
  }

  /** The branch an if or a case leads to may be triggered, the rest is idle. */
  ghost predicate PickReady(d: Design, s: Stmt, m: State)
    requires s.If? || s.Case?
  {
    var i := Picked(d, s, m.world.store);
    Ready(d, m, Children(s)[i]) && IdleBut(m, s, i)
  }

  lemma {:induction false} BranchOk(d: Design, s: Stmt, m: State)
    requires (s.If? || s.Case?) && Item(d, s) && Unique(s) && PickReady(d, s, m)
    ensures Post(d, s, m, Act(d, s, m), Resumed(d, m, Children(s)[Picked(d, s, m.world.store)], m.world))
    decreases m.world.ticks, Size(s), 3
  {
    hide Ids, Trigger, Quiet, Suspended, Unique, Picked, Resumed, IdleBut, Ready;
    var i := Picked(d, s, m.world.store);
    var c := Children(s)[i];
    IdsChild(s, i);
    TriggerOk(d, c, m);
    var r := Trigger(d, c, m);
    match r.status
    case Done => QuietWider(m, r.m, s, i);
    case Delayed =>
      var seg :| Suspended(d, c, m, r.m, seg, Resumed(d, m, c, m.world));
      BranchSuspended(d, s, m, r.m, i, seg, Resumed(d, m, c, m.world));
    case _ =>
  }

  /** An if or a case with a control of its own, past it. */
  lemma BranchActs(d: Design, s: Stmt, m: State)
    requires (s.If? || s.Case?) && Item(d, s) && Unique(s) && Started(m, s)
    ensures var c := Children(s)[Picked(d, s, m.world.store)];
      PickReady(d, s, m) && Rest(d, Of(m, s.id), s, m.world) == Resumed(d, m, c, m.world)
  {
    hide Trigger, Run, Ids, Picked, Unique, Resumed, Item;
    var i := Picked(d, s, m.world.store);
    KidsOthers(m, s, i);
    IdleRuns(d, m, Children(s)[i], m.world);
  }

  lemma {:induction false} IdleRuns(d: Design, m: State, s: Stmt, w: World)
    requires Clean(m, Ids(s))
    ensures Ready(d, m, s) && Resumed(d, m, s, w) == Run(d, s, w)
    decreases s
  {
    hide Picked;
    if Branching(s) {
      var i := Picked(d, s, w.store);
      IdsChild(s, i);
      hide Ids;
      IdleRuns(d, m, Children(s)[i], w);
      hide Run;
      BranchRuns(d, s, w);
    } else {
      hide Run;
      SelfId(s);
    }
  }

  lemma BranchRuns(d: Design, s: Stmt, w: World)
    requires Branching(s)
    ensures Run(d, s, w) == Run(d, Children(s)[Picked(d, s, w.store)], w)
  {
    var o := Run(d, Children(s)[Picked(d, s, w.store)], w);
    hide Picked;
    assert Body(d, s, w) == o;
    hide Run;
    FreeRun(d, s, w);
  }

  lemma FreeRun(d: Design, s: Stmt, w: World)
    requires s.dec.Free?
    ensures Run(d, s, w) == Body(d, s, w)
  {
    hide Body;
  }

  // ----- iterations -----

  lemma {:induction false} LoopGoOk(d: Design, s: Stmt, m: State)
    requires Item(d, s) && Unique(s) && Counting(m, s) && Clean(m, Ids(s))
    ensures PostIn(d, s, m, LoopGoM(d, s, m), LoopGo(d, s, N(s, Of(m, s.id)), m.world))
    decreases m.world.ticks, Size(s), 1
  {
    hide Ids, Trigger, Run, Quiet, Suspended, Stacked, LoopNext, LoopNextM, Unique;
    if m.world.ticks > 0 {
      var m1 := m.(world := m.world.(ticks := m.world.ticks - 1));
      var c := Children(s)[0];
      IdsChild(s, 0);
      TriggerOk(d, c, m1);
      IdleRuns(d, m1, c, m1.world);
      var r := Trigger(d, c, m1);
      var o := Run(d, c, m1.world);
      match r.status
      case Done => IterationDone(d, s, m, m1, r.m);
      case Delayed =>
        var seg :| Suspended(d, c, m1, r.m, seg, o);
        GoDelayed(d, s, m, r.m, seg, o);
      case _ =>
    }
  }

  lemma {:induction false} IterationDone(d: Design, s: Stmt, m: State, m1: State, n: State)
    requires Item(d, s) && Unique(s) && Counting(m, s) && Clean(m, Ids(s)) && n.world.ticks < m.world.ticks
    requires m1 == m.(world := m1.world) && Quiet(m1, n, Ids(Children(s)[0]))
    ensures PostIn(d, s, m, LoopNextM(d, s, n), LoopNext(d, s, N(s, Of(m, s.id)), n.world))
    decreases m.world.ticks, Size(s), 0
  {
    hide Ids, LoopNext, LoopNextM, PostIn, Unique;
    IdsChild(s, 0);
    QuietWider(m1, n, s, 0);
    assert Of(n, s.id) == Of(m, s.id) by { ChildNotSelf(s); }
    LoopNextOk(d, s, n);
    PostInFrom(d, s, m, n, LoopNextM(d, s, n), LoopNext(d, s, N(s, Of(m, s.id)), n.world));
  }

  lemma ChildNotSelf(s: Stmt)
    requires Unique(s)
    ensures forall i | 0 <= i < |Children(s)| :: s.id !in Ids(Children(s)[i])
  {
  }

  lemma {:induction false} LoopNextOk(d: Design, s: Stmt, m: State)
    requires Item(d, s) && Unique(s) && Counting(m, s) && Clean(m, Ids(s))
    ensures PostIn(d, s, m, LoopNextM(d, s, m), LoopNext(d, s, N(s, Of(m, s.id)), m.world))
    decreases m.world.ticks, Size(s), 2
  {
    hide Ids, LoopGo, LoopGoM, Unique, Suspended;
    match s.kind
    case Forever => LoopGoOk(d, s, m);
    case Repeat(_) =>
      var f := Of(m, s.id);
      var m1 := Set(m, s.id, f.(count := f.count - 1));
      if f.count > 1 {
        LoopGoOk(d, s, m1);
        PostInFrom(d, s, m, m1, LoopGoM(d, s, m1), LoopGo(d, s, f.count - 1, m.world));
      }
    case While(e) => if d.test(e, m.world.store) { LoopGoOk(d, s, m); }
    case For(_, e, next) =>
      var m1 := m.(world := MoveNow(d, next, m.world));
      if d.test(e, m1.world.store) {
        LoopGoOk(d, s, m1);
        PostInFrom(d, s, m, m1, LoopGoM(d, s, m1), LoopGo(d, s, 0, m1.world));
      }
  }

  lemma {:induction false} LoopStartOk(d: Design, s: Stmt, m: State)
    requires s.Loop? && Item(d, s) && Unique(s) && Clean(m, Ids(s))
    ensures PostIn(d, s, m, LoopStartM(d, s, m), LoopStart(d, s, m.world))
    decreases m.world.ticks, Size(s), 2
  {
    hide Ids, LoopGo, LoopGoM, Unique, Suspended;
    match s.kind
    case Forever => LoopGoOk(d, s, m);
    case Repeat(e) =>
      var n := d.times(e, m.world.store) % TWO32;
      var m1 := Set(m, s.id, Of(m, s.id).(count := n));
      if n > 0 {
        LoopGoOk(d, s, m1);
        PostInFrom(d, s, m, m1, LoopGoM(d, s, m1), LoopGo(d, s, n, m.world));
      }
    case While(e) => if d.test(e, m.world.store) { LoopGoOk(d, s, m); }
    case For(first, e, _) =>
      var m1 := m.(world := MoveNow(d, first, m.world));
      if d.test(e, m1.world.store) {
        LoopGoOk(d, s, m1);
        PostInFrom(d, s, m, m1, LoopGoM(d, s, m1), LoopGo(d, s, 0, m1.world));
      }
  }

  lemma {:induction false} LoopOk(d: Design, s: Stmt, m: State)
    requires s.Loop? && Item(d, s) && Unique(s) && Started(m, s)
    ensures Post(d, s, m, Act(d, s, m), Rest(d, Of(m, s.id), s, m.world))
    decreases m.world.ticks, Size(s), 3
  {
    hide Ids, LoopStart, LoopStartM, LoopNext, LoopNextM, Unique, Post;
    var f := Of(m, s.id);
    if f.looped {
      var m1 := Set(m, s.id, f.(looped := false));
      assert Clean(m1, Ids(s));
      LoopNextOk(d, s, m1);
      PostInFrom(d, s, m, m1, LoopNextM(d, s, m1), LoopNext(d, s, N(s, f), m.world));
    } else {
      assert Clean(m, Ids(s));
      LoopStartOk(d, s, m);
    }
  }

  // ----- blocks -----

  lemma {:induction false} BlockOk(d: Design, s: Stmt, m: State)
    requires s.Block? && Item(d, s) && Unique(s) && Started(m, s)
    ensures Post(d, s, m, Act(d, s, m), Rest(d, Of(m, s.id), s, m.world))
    decreases m.world.ticks, Size(s), 3
  {
    hide Ids, Items, Unique, Item, PostItems, Waits;
    var m1 := Push(s, m);
    assert Idle(Of(m, s.id)) by { BlockIdle(s, Of(m, s.id)); }
    PushOk(s, m);
    KidsOthers(m1, s, 0);
    if s.items != [] { IdleRuns(d, m1, s.items[0], m.world); }
    ItemsOk(d, s, 0, m1);
    FreshTop(d, m1, s, m.world);
    var r := Items(d, s, 0, m1);
    var o := RunFrom(d, s, 0, m.world);
    assert m1.stk[1..] == m.stk;
    BlockPost(d, s, m, m1, r, o);
  }

  lemma BlockIdle(s: Stmt, f: Fields)
    requires s.Block? && !f.pushed && !f.armed
    requires Idle(f) || Waits(s, f.(armed := !s.dec.Free?)) || Loops(s, f.(armed := s.dec.Delay?))
    ensures Idle(f)
  {
  }

  lemma PushOk(s: Stmt, m: State)
    requires s.Block? && Unique(s) && Clean(m, Ids(s))
    ensures var n := Push(s, m);
      OnStack(n, s) && Of(n, s.id).cur == 0 && Clean(n, Kids(s)) && SameOff(m, n, Ids(s))
  {
    var n := Push(s, m);
    forall i | 0 <= i < |s.items| ensures Clean(n, Ids(s.items[i])) {
      IdsChild(s, i);
      hide Ids;
      assert s.items[i] == Children(s)[i];
    }
  }

  lemma FreshTop(d: Design, m: State, b: Stmt, w: World)
    requires b.Block? && Clean(m, Kids(b)) && Unique(b)
    ensures TopRun(d, m, b, w) == RunFrom(d, b, Of(m, b.id).cur, w)
  {
    hide Ids, Unique, Run;
    var c := Of(m, b.id).cur;
    if c < |b.items| {
      assert Children(b)[c] == b.items[c];
      IdsChild(b, c);
      IdleRuns(d, m, b.items[c], w);
    }
  }

  lemma BlockPost(d: Design, s: Stmt, m: State, m1: State, r: Result, o: Outcome)
    requires s.Block? && m1.stk != [] && m1.stk[1..] == m.stk && m1.wake == m.wake && SameOff(m, m1, Ids(s))
    requires PostItems(d, s, m1, r, o)
    ensures Post(d, s, m, r, if o.Fin? && o.paused then Yield(d, o) else o)
  {
    hide Ids, Stacked, Unwind, Still;
    if r.status.Delayed? {
      var seg :| StackSuspended(d, s, m1, r.m, seg, o);
      assert Encloses(r.m, s, s);
      assert Suspended(d, s, m, r.m, seg, if o.Fin? && o.paused then Yield(d, o) else o);
    }
  }

  // ----- the items of the block on top of the stack -----

  lemma ItemFits(d: Design, b: Stmt, c: nat)
    requires Item(d, b) && Unique(b) && c < |Children(b)|
    ensures Item(d, Children(b)[c]) && Unique(Children(b)[c]) && Size(Children(b)[c]) < Size(b)
  {
  }

  lemma OthersClean(m: State, b: Stmt, c: nat)
    requires Others(m, Children(b), c) && (c < |Children(b)| ==> Clean(m, Ids(Children(b)[c])))
    ensures Clean(m, Kids(b))
  {
    var cs := Children(b);
    forall x | x in Kids(b) ensures Idle(Of(m, x)) {
      var j :| 0 <= j < |cs| && x in Ids(cs[j]);
    }
  }

  lemma LastItem(m: State, b: Stmt)
    requires m.stk != [] && OnStack(m, b) && Of(m, b.id).cur == |b.items|
    ensures Quiet(m.(stk := m.stk[1..]),
                  Set(m, b.id, Of(m, b.id).(pushed := false)).(stk := m.stk[1..]), Ids(b))
  {
    OthersClean(m, b, |b.items|);
    hide Ids, Others;
    var n := Set(m, b.id, Of(m, b.id).(pushed := false)).(stk := m.stk[1..]);
    forall x | x in Ids(b) ensures Idle(Of(n, x)) {
      if x != b.id { assert x in Kids(b) && Of(n, x) == Of(m, x); }
    }
  }

  lemma TopAfter(d: Design, m: State, b: Stmt, seg: seq<Stmt>, w: World)
    requires b.Block? && Of(m, b.id).cur < |b.items| && (seg != [] ==> seg[0].Block?)
    ensures var c := Of(m, b.id).cur;
      var y := if seg == [] then Norm(Resumed(d, m, b.items[c], w))
               else Norm(AfterBlock(d, Of(m, b.items[c].id), b.items[c], Unwind(d, m, seg, w)));
      Unwind(d, m, seg + [b], w) == if y.Cut? then y else Norm(RunFrom(d, b, c + 1, y.w))
  {
    hide Resumed, RunFrom, TopRun, Yield;
    if seg == [] {
      assert seg + [b] == [b] && [b][1..] == [];
      TopNorm(d, m, b, w);
    } else {
      assert (seg + [b])[0] == seg[0] && (seg + [b])[1..] == seg[1..] + [b];
      OuterJoin(d, m, seg[1..], [b], Norm(TopRun(d, m, seg[0], w)));
      OuterOne(d, m, b, Unwind(d, m, seg, w));
    }
  }

  lemma OuterOne(d: Design, m: State, b: Stmt, o: Outcome)
    ensures Outer(d, m, [b], o) == AfterInner(d, m, b, o)
  {
    hide AfterInner;
    assert [b][1..] == [];
    assert Outer(d, m, [b], o) == Outer(d, m, [], AfterInner(d, m, b, o));
  }

  lemma TopNorm(d: Design, m: State, b: Stmt, w: World)
    requires b.Block? && Of(m, b.id).cur < |b.items|
    ensures var c := Of(m, b.id).cur;
      var y := Resumed(d, m, b.items[c], w);
      Norm(TopRun(d, m, b, w)) == if y.Cut? then y else Norm(RunFrom(d, b, c + 1, y.w))
  {
    hide Resumed, RunFrom;
  }

  /** The blocks of a suspended item, with its own block below them. */
  lemma ItemStacked(d: Design, n: State, m: State, b: Stmt, c: nat, seg: seq<Stmt>)
    requires Unique(b) && OnStack(m, b) && c == Of(m, b.id).cur < |b.items|
    requires SameOff(m, n, Ids(b.items[c])) && Hung(d, n, b.items[c], seg)
    ensures Stacked(d, n, seg + [b]) && Of(n, b.id).cur == c
  {
    hide Ids, Unique, Encloses, Others, Waits, TopWaits;
    assert b.items == Children(b);
    ApartFromChild(b, c);
    OthersFrame(m, n, b, c);
    assert OnStack(n, b);
    if seg == [] {
      assert seg + [b] == [b];
      assert Chain(n, [], b);
      WaitsOnTop(d, n, b, c);
    } else {
      assert Frame(n, b, seg[|seg| - 1]);
      assert (seg + [b])[0] == seg[0] && (seg + [b])[1..] == seg[1..] + [b];
      ChainOne(n, b, Last(seg[1..], seg[0]));
      ChainJoin(n, seg[1..], [b], seg[0]);
    }
  }

  lemma ChainOne(n: State, b: Stmt, inner: Stmt)
    requires Frame(n, b, inner)
    ensures Chain(n, [b], inner)
  {
    hide Frame;
    assert [b][1..] == [];
    assert Chain(n, [], b);
  }

  lemma WaitsOnTop(d: Design, n: State, b: Stmt, c: nat)
    requires OnStack(n, b) && c == Of(n, b.id).cur < |b.items|
    requires WaitsIn(d, n, b.items[c])
    ensures TopWaits(d, n, b)
  {
    hide OnStack, Clean, Waits;
  }

  lemma ApartFromChild(s: Stmt, c: nat)
    requires Unique(s) && c < |Children(s)|
    ensures s.id !in Ids(Children(s)[c])
  {
    hide Ids;
  }

  lemma StackedBlock(d: Design, n: State, seg: seq<Stmt>)
    requires Stacked(d, n, seg)
    ensures seg[0].Block?
  {
    hide Others;
  }

  lemma ItemLater(d: Design, n: State, b: Stmt, c: nat, seg: seq<Stmt>, k: Wakeup, o: Outcome)
    requires b.Block? && Of(n, b.id).cur == c < |b.items| && (seg != [] ==> seg[0].Block?)
    requires Norm(o) == Later(d, n, b.items[c], seg, k) && (o.Fin? ==> o.paused)
    ensures var t := if o.Cut? then o else Join(o.paused, RunFrom(d, b, c + 1, o.w));
      Norm(t) == LaterStack(d, n, seg + [b], k) && (t.Fin? ==> t.paused)
  {
    hide Resumed, RunFrom, AfterBlock, Unwind, Wake;
    var v := Wake(d, k, n.world);
    if v.Fin? { TopAfter(d, n, b, seg, v.w); }
  }

  lemma ItemSuspended(d: Design, b: Stmt, c: nat, m: State, n: State, seg: seq<Stmt>, o: Outcome)
    requires b.Block? && m.stk != [] && m.stk[0] == b && Unique(b) && OnStack(m, b) && c == Of(m, b.id).cur < |b.items|
    requires Suspended(d, b.items[c], m, n, seg, o)
    ensures StackSuspended(d, b, m, n, seg + [b],
              if o.Cut? then o else Join(o.paused, RunFrom(d, b, c + 1, o.w)))
  {
    hide Ids, Unique, OnStack, RunFrom, Later, LaterStack, Encloses, Waits, Chain;
    assert b.items == Children(b);
    ItemStacked(d, n, m, b, c, seg);
    if seg != [] { assert (seg + [b])[0] == seg[0]; }
    StackedBlock(d, n, seg + [b]);
    ItemLater(d, n, b, c, seg, n.wake[|m.wake|], o);
    OffWider(m, n, b, c);
    assert m.stk == [b] + m.stk[1..];
    assert seg + m.stk == seg + [b] + m.stk[1..];
  }

  lemma ItemPost(d: Design, b: Stmt, c: nat, m: State, r: Result, o: Outcome)
    requires b.Block? && m.stk != [] && m.stk[0] == b && Unique(b) && OnStack(m, b) && c == Of(m, b.id).cur < |b.items|
    requires Post(d, b.items[c], m, r, o) && !r.status.Done?
    ensures PostItems(d, b, m, r, if o.Cut? then o else Join(o.paused, RunFrom(d, b, c + 1, o.w)))
  {
    hide Ids, Unique, OnStack, RunFrom, Suspended, StackSuspended, Quiet;
    assert b.items == Children(b);
    if r.status.Delayed? {
      var seg :| Suspended(d, b.items[c], m, r.m, seg, o);
      ItemSuspended(d, b, c, m, r.m, seg, o);
    }
  }

  lemma NextItem(d: Design, b: Stmt, c: nat, m: State, n: State, w: World)
    requires Unique(b) && OnStack(m, b) && c == Of(m, b.id).cur < |b.items|
    requires Quiet(m, n, Ids(b.items[c]))
    ensures var m1 := Set(n, b.id, Of(n, b.id).(cur := c + 1));
      OnStack(m1, b) && Clean(m1, Kids(b)) && SameOff(m, m1, Ids(b)) &&
      TopRun(d, m1, b, w) == RunFrom(d, b, c + 1, w)
  {
    hide Ids, Unique, RunFrom, Others, TopRun;
    assert b.items == Children(b);
    var m1 := Set(n, b.id, Of(n, b.id).(cur := c + 1));
    ApartFromChild(b, c);
    OthersFrame(m, n, b, c);
    OthersClean(n, b, c);
    CleanFrame(n, m1, Kids(b));
    OffWider(m, n, b, c);
    FreshTop(d, m1, b, w);
    KidsOthers(m1, b, c + 1);
  }

  lemma KidsOthers(m: State, b: Stmt, c: nat)
    requires Clean(m, Kids(b)) && Unique(b)
    ensures Others(m, Children(b), c) && (c < |Children(b)| ==> Clean(m, Ids(Children(b)[c])))
  {
    forall i | 0 <= i < |Children(b)| ensures Clean(m, Ids(Children(b)[i])) { IdsChild(b, i); hide Ids; }
  }

  lemma PostItemsFrom(d: Design, b: Stmt, m: State, n: State, r: Result, o: Outcome)
    requires m.stk != [] && n.stk == m.stk && n.wake == m.wake && SameOff(m, n, Ids(b))
    requires PostItems(d, b, n, r, o)
    ensures PostItems(d, b, m, r, o)
  {
    hide Ids, LaterStack, Stacked, Still, Clean;
    if r.status.Delayed? {
      var seg :| StackSuspended(d, b, n, r.m, seg, o);
      assert StackSuspended(d, b, m, r.m, seg, o);
    }
  }

  lemma {:induction false} ItemsOk(d: Design, b: Stmt, c: nat, m: State)
    requires b.Block? && m.stk != [] && m.stk[0] == b && Item(d, b) && Unique(b)
    requires OnStack(m, b) && c == Of(m, b.id).cur <= |b.items|
    requires c < |b.items| ==> Ready(d, m, b.items[c])
    ensures PostItems(d, b, m, Items(d, b, c, m), TopRun(d, m, b, m.world))
    decreases m.world.ticks, Size(b), 1, |b.items| - c
  {
    hide Ids, Unique, Item, Size, Trigger, Resumed, RunFrom, Suspended, StackSuspended, Ready, OnStack, Others,
      PostItems, Clean, SameOff, Still;
    assert b.items == Children(b);
    if c == |b.items| {
      LastItem(m, b);
      EndPost(d, b, m);
    } else {
      ItemFits(d, b, c);
      TriggerOk(d, b.items[c], m);
      var r := Trigger(d, b.items[c], m);
      var o := Resumed(d, m, b.items[c], m.world);
      if r.status.Done? {
        var m1 := Set(r.m, b.id, Of(r.m, b.id).(cur := c + 1));
        NextItem(d, b, c, m, r.m, r.m.world);
        KidsOthers(m1, b, c + 1);
        if c + 1 < |b.items| { IdleRuns(d, m1, b.items[c + 1], m1.world); }
        ItemsOk(d, b, c + 1, m1);
        PostItemsFrom(d, b, m, m1, Items(d, b, c + 1, m1), RunFrom(d, b, c + 1, m1.world));
      } else {
        ItemPost(d, b, c, m, r, o);
      }
    }
  }

  lemma EndPost(d: Design, b: Stmt, m: State)
    requires m.stk != [] && b.Block? && Of(m, b.id).cur == |b.items|
    requires Quiet(m.(stk := m.stk[1..]), Items(d, b, |b.items|, m).m, Ids(b))
    ensures PostItems(d, b, m, Items(d, b, |b.items|, m), TopRun(d, m, b, m.world))
  {
    hide Quiet, Ids;
  }
}
