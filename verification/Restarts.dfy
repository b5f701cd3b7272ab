/** Whole runs: an initial process driven by restarts until it ends. */
module Restarts {
  import opened Program
  import opened Machine
  import opened Shape
  import opened Refinement

  /** Nothing is armed where block `b` goes on: a fresh statement or a loop about
      to continue. */
  ghost predicate Poised(m: State, b: Stmt) {
    b.Block? &&
    var c := Of(m, b.id).cur;
    c < |b.items| ==> Idle(Of(m, b.items[c].id)) || Loops(b.items[c], Of(m, b.items[c].id))
  }

  /** The state between two activations of the root: after a wait its control is
      armed on top of the stack, after a preemption point nothing is. */
  ghost predicate Resting(d: Design, root: Stmt, m: State) {
    if m.stk == [] then Clean(m, Ids(root)) && |m.wake| <= 1
    else
      m.stk[|m.stk| - 1] == root && |m.wake| == 1 && Top(d, m, m.stk[0]) && Chain(m, m.stk[1..], m.stk[0]) &&
      if m.wake[0].Requeue? then Poised(m, m.stk[0]) else TopWaits(d, m, m.stk[0])
  }

  /** What the process still has to do, in terms of the plain semantics. */
  ghost function Remaining(d: Design, root: Stmt, m: State): Outcome
    requires root.Block?
  {
    if m.wake == [] then Fin(m.world, true)
    else
      var v := Wake(d, m.wake[0], m.world);
      if v.Cut? then v
      else if m.stk == [] then Norm(RunProcess(d, root, v.w))
      else Unwind(d, m, m.stk, v.w)
  }

  lemma {:induction false} OuterCut(d: Design, m: State, frames: seq<Stmt>, w: World)
    ensures Outer(d, m, frames, Outcome.Cut(w)) == Outcome.Cut(w)
    decreases |frames|
  {
    hide RunFrom, LoopNext;
    if frames != [] { OuterCut(d, m, frames[1..], w); }
  }

  lemma {:induction false} LastOnStack(m: State, frames: seq<Stmt>, b: Stmt)
    requires OnStack(m, b) && Chain(m, frames, b)
    ensures OnStack(m, Last(frames, b))
    decreases |frames|
  {
    hide OnStack, Encloses;
    if frames != [] {
      assert Last(frames, b) == Last(frames[1..], frames[0]);
      LastOnStack(m, frames[1..], frames[0]);
    }
  }

  // ----- the enclosing block after an inner one has ended -----

  ghost predicate Advanced(d: Design, n: State, b: Stmt, w: World) {
    var p := PostProc(n);
    Top(d, p, b) && Poised(p, b) && SameOff(n, p, {b.id}) && p.stk == n.stk &&
    p.wake == n.wake + [Requeue(n.world.now)] &&
    p.world == n.world && Norm(TopRun(d, p, b, Woken(d, w))) == AfterInner(d, n, b, Fin(w, true))
  }

  lemma LoopStays(d: Design, n: State, b: Stmt, c: nat, w: World)
    requires n.stk != [] && n.stk[0] == b && OnStack(n, b) && c == Of(n, b.id).cur < |b.items| && !d.atomic
    requires Loops(b.items[c], Of(n, b.items[c].id)) && Clean(n, Kids(b.items[c]))
    ensures Advanced(d, n, b, w)
  {
    hide Ids, LoopNext, RunFrom;
    var p := PostProc(n);
    assert p.fields == n.fields;
    assert OnStack(p, b);
    assert Ready(d, p, b.items[c]);
  }

  lemma ItemGoes(d: Design, n: State, b: Stmt, c: nat, w: World)
    requires n.stk != [] && n.stk[0] == b && OnStack(n, b) && c == Of(n, b.id).cur < |b.items| && !d.atomic
    requires !b.items[c].Loop? && Clean(n, Kids(b)) && Unique(b)
    ensures Advanced(d, n, b, w)
  {
    hide Ids, LoopNext, RunFrom, Unique, TopRun, Others;
    var p := PostProc(n);
    assert Of(p, b.id) == Of(n, b.id).(cur := c + 1);
    CleanFrame(n, p, Kids(b));
    KidsOthers(p, b, c + 1);
    FreshTop(d, p, b, Woken(d, w));
    if c + 1 < |b.items| { IdleRuns(d, p, b.items[c + 1], w); }
  }

  lemma Advance(d: Design, m: State, n: State, b1: Stmt, b: Stmt, w: World)
    requires Item(d, b1) && Unique(b1) && Frame(m, b1, b) && !d.atomic
    requires SameOff(m, n, Ids(b)) && Clean(n, Ids(b)) && n.stk != [] && n.stk[0] == b1
    ensures Advanced(d, n, b1, w)
    ensures AfterInner(d, m, b1, Fin(w, true)) == AfterInner(d, n, b1, Fin(w, true))
  {
    hide Ids, Unique, Item, Encloses, Waits, Loops, Others, Advanced, AfterInner;
    var c := Of(m, b1.id).cur;
    var t := Children(b1)[c];
    FrameFrame(d, m, n, b1, b, Fin(w, true));
    FrameSub(d, m, b1, b);
    assert Of(m, b1.id) == Of(n, b1.id);
    IdsChild(b1, c);
    EnclosesClear(n, t, b);
    if t.Loop? {
      LoopStays(d, n, b1, c, w);
    } else {
      OthersClean(n, b1, c);
      ItemGoes(d, n, b1, c, w);
    }
  }

  // ----- one restart -----

  /** How far the run is: ticks left, then whether a preemption point is
      pending, then the number of blocks to unwind. */
  ghost predicate Closer(n: State, m: State) {
    n.world.ticks < m.world.ticks ||
    (n.world.ticks == m.world.ticks && m.wake != [] && m.wake[0].Requeue? &&
     (n.wake == [] || !n.wake[0].Requeue? || |n.stk| < |m.stk|))
  }

  ghost predicate StepPost(d: Design, root: Stmt, m: State, r: Result)
    requires root.Block?
  {
    match r.status
    case Stuck => false
    case Bound => Remaining(d, root, m) == Outcome.Cut(r.m.world)
    case _ =>
      Resting(d, root, r.m) && Remaining(d, root, r.m) == Remaining(d, root, m) && Closer(r.m, m) &&
      (r.m.stk == [] ==> r.m.wake == []) && (r.status.Delayed? ==> |m.stk| <= |r.m.stk|)
  }

  /** The top block of a delivered restart, and what the process amounts to. */
  ghost predicate Delivered(d: Design, root: Stmt, m: State, o: Outcome) {
    m.stk != [] && m.wake == [] && m.stk[|m.stk| - 1] == root && Top(d, m, m.stk[0]) &&
    Chain(m, m.stk[1..], m.stk[0]) &&
    m.stk[0].Block? && o == Outer(d, m, m.stk[1..], Norm(TopRun(d, m, m.stk[0], m.world)))
  }

  lemma FinishedOk(d: Design, root: Stmt, m: State, n: State, o: Outcome)
    requires Fragment(d, root) && !d.atomic && Delivered(d, root, m, o)
    requires TopRun(d, m, m.stk[0], m.world) == Fin(n.world, false)
    requires Quiet(m.(stk := m.stk[1..]), n, Ids(m.stk[0]))
    ensures Resting(d, root, PostProc(n)) && Remaining(d, root, PostProc(n)) == o
    ensures PostProc(n).world == n.world
    ensures if m.stk[1..] == [] then PostProc(n).wake == [] else 0 < |PostProc(n).stk| < |m.stk|
  {
    hide Ids, Unique, Item, Encloses, Top, Frame, TopRun, AfterInner, Others, Fragment;
    if m.stk[1..] == [] {
      assert m.stk[0] == root;
    } else {
      FragmentIs(d, root);
      assert Last(m.stk[1..], m.stk[0]) == root;
      FinishedInner(d, root, m, n, o);
    }
  }

  /** Unwinding into the block below, which is now on top. */
  lemma Unwound(d: Design, m: State, n: State, rest: seq<Stmt>, b: Stmt)
    requires rest != [] && Chain(m, rest, b) && b.Block? && Item(d, Last(rest, b)) && Unique(Last(rest, b)) && !d.atomic
    requires SameOff(m, n, Ids(b)) && Clean(n, Ids(b)) && n.stk == rest
    ensures var p := PostProc(n);
      Advanced(d, n, rest[0], n.world) && Chain(p, rest[1..], rest[0]) &&
      Outer(d, m, rest, Fin(n.world, true)) == Outer(d, p, rest[1..], AfterInner(d, n, rest[0], Fin(n.world, true)))
  {
    hide Ids, Unique, Item, Encloses, Top, Frame, TopRun, AfterInner, Others, Last, Chain;
    ChainStep(m, rest, b);
    FrameBlock(m, rest[0], b);
    ChainSub(d, m, rest[1..], rest[0]);
    Advance(d, m, n, rest[0], b, n.world);
    FrameSub(d, m, rest[0], b);
    ChainFrame(d, m, PostProc(n), rest[1..], rest[0], AfterInner(d, m, rest[0], Fin(n.world, true)));
  }

  lemma FinishedInner(d: Design, root: Stmt, m: State, n: State, o: Outcome)
    requires Item(d, root) && Unique(root) && !d.atomic && Delivered(d, root, m, o) && root.Block?
    requires TopRun(d, m, m.stk[0], m.world) == Fin(n.world, false)
    requires Quiet(m.(stk := m.stk[1..]), n, Ids(m.stk[0]))
    requires m.stk[1..] != [] && Last(m.stk[1..], m.stk[0]) == root
    ensures Resting(d, root, PostProc(n)) && Remaining(d, root, PostProc(n)) == o
    ensures PostProc(n).world == n.world && 0 < |PostProc(n).stk| < |m.stk|
  {
    hide Ids, Unique, Item, Top, TopRun, AfterInner, Last, Chain, Outer;
    Unwound(d, m, n, m.stk[1..], m.stk[0]);
  }

  lemma FragmentIs(d: Design, root: Stmt)
    requires Fragment(d, root)
    ensures Item(d, root) && Unique(root) && root.Block? && root.dec.Free?
  {
    hide Item, Unique;
  }

  lemma FrameBlock(m: State, b: Stmt, inner: Stmt)
    requires Frame(m, b, inner)
    ensures b.Block?
  {
    hide Encloses;
  }

  /** The blocks below a suspended one are as they were. */
  lemma FramesBelow(d: Design, root: Stmt, m: State, n: State, o: Outcome)
    requires Fragment(d, root) && Delivered(d, root, m, o) && SameOff(m, n, Ids(m.stk[0]))
    ensures Chain(n, m.stk[1..], m.stk[0]) && (m.stk[1..] == [] ==> m.stk[0] == root)
    ensures o == Outer(d, n, m.stk[1..], Norm(TopRun(d, m, m.stk[0], m.world)))
  {
    hide Ids, Unique, Item, Chain, Top, TopRun, Fragment, Norm, Outer;
    FragmentIs(d, root);
    assert Last(m.stk[1..], m.stk[0]) == root;
    ChainFrame(d, m, n, m.stk[1..], m.stk[0], Norm(TopRun(d, m, m.stk[0], m.world)));
  }

  lemma SuspendedBelow(d: Design, root: Stmt, m: State, n: State, seg: seq<Stmt>, o: Outcome)
    requires Fragment(d, root) && Delivered(d, root, m, o)
    requires StackSuspended(d, m.stk[0], m, n, seg, TopRun(d, m, m.stk[0], m.world))
    ensures n.stk == seg + m.stk[1..] && n.stk[0] == seg[0] && n.stk[1..] == seg[1..] + m.stk[1..]
    ensures Chain(n, n.stk[1..], n.stk[0]) && n.stk[|n.stk| - 1] == root && TopWaits(d, n, seg[0])
    ensures o == Outer(d, n, m.stk[1..], Norm(TopRun(d, m, m.stk[0], m.world)))
  {
    hide Ids, Chain, Top, TopRun, Fragment, Wake, Norm, LaterStack, TopWaits, Outer, SameOff;
    var rest := m.stk[1..];
    FramesBelow(d, root, m, n, o);
    assert Last(seg[1..], seg[0]) == m.stk[0];
    ChainJoin(n, seg[1..], rest, seg[0]);
    assert n.stk[1..] == seg[1..] + rest;
  }

  /** Unwinding a joined stack. */
  lemma UnwindJoin(d: Design, n: State, seg: seq<Stmt>, rest: seq<Stmt>, w: World)
    requires seg != [] && seg[0].Block?
    ensures Unwind(d, n, seg + rest, w) == Outer(d, n, rest, Unwind(d, n, seg, w))
  {
    hide Outer, TopRun, Norm;
    assert (seg + rest)[1..] == seg[1..] + rest;
    OuterJoin(d, n, seg[1..], rest, Norm(TopRun(d, n, seg[0], w)));
  }

  lemma SuspendedOk(d: Design, root: Stmt, m: State, n: State, seg: seq<Stmt>, o: Outcome)
    requires Fragment(d, root) && Delivered(d, root, m, o)
    requires StackSuspended(d, m.stk[0], m, n, seg, TopRun(d, m, m.stk[0], m.world))
    ensures Resting(d, root, n) && Remaining(d, root, n) == o && |m.stk| <= |n.stk| && n.wake != [] &&
      !n.wake[0].Requeue?
  {
    hide Ids, Unique, Item, Chain, Top, TopWaits, TopRun, Fragment, Wake, Outer, Unwind, SameOff;
    FragmentIs(d, root);
    SuspendedBelow(d, root, m, n, seg, o);
    TopWaiting(d, n, seg[0]);
    var rest := m.stk[1..];
    var v := Wake(d, n.wake[0], n.world);
    if v.Cut? {
      OuterCut(d, n, rest, v.w);
    } else {
      UnwindJoin(d, n, seg, rest, v.w);
    }
  }

  lemma TopWaiting(d: Design, n: State, b: Stmt)
    requires TopWaits(d, n, b)
    ensures Top(d, n, b) && b.Block?
  {
    hide Others, Waits, Clean;
  }

  lemma DeliveredOk(d: Design, root: Stmt, m: State, v: State)
    requires Fragment(d, root) && Resting(d, root, m) && m.wake != []
    requires Wake(d, m.wake[0], m.world).Fin? && v == m.(wake := [], world := Wake(d, m.wake[0], m.world).w)
    ensures Delivered(d, root, Push(root, v), Remaining(d, root, m))
    ensures m.stk != [] ==> Push(root, v) == v
  {
    hide Ids, Unique, Item, Encloses, Wake, Others, RunFrom, AfterInner, TopRun;
    FragmentIs(d, root);
    if m.stk == [] {
      assert Of(v, root.id) == Of(m, root.id);
      assert Clean(v, Ids(root));
      PushOk(root, v);
      var p := Push(root, v);
      KidsOthers(p, root, 0);
      if root.items != [] { IdleRuns(d, p, root.items[0], p.world); }
      FreshTop(d, p, root, p.world);
      assert p.stk == [root] && p.stk[1..] == [];
    } else {
      var b := m.stk[0];
      var rest := m.stk[1..];
      assert Last(rest, b) == root;
      LastOnStack(m, rest, b);
      assert Push(root, v) == v;
      WakeCalm(d, m.wake[0], m.world);
      SameFields(d, m, v, rest, b);
    }
  }

  lemma WakeCalm(d: Design, k: Wakeup, w: World)
    ensures Calm(d) && Wake(d, k, w).Fin? ==> Wake(d, k, w).w.store == w.store
  {
  }

  lemma SameFields(d: Design, m: State, v: State, rest: seq<Stmt>, b: Stmt)
    requires v.fields == m.fields && (Calm(d) ==> v.world.store == m.world.store) && Top(d, m, b) && Chain(m, rest, b)
    requires Item(d, Last(rest, b)) && Unique(Last(rest, b))
    ensures Top(d, v, b) && b.Block? && Chain(v, rest, b)
    ensures forall o :: Outer(d, m, rest, o) == Outer(d, v, rest, o)
    ensures forall w :: b.Block? ==> TopRun(d, m, b, w) == TopRun(d, v, b, w)
  {
    hide Ids, Unique, Item, Encloses, RunFrom, Resumed, TopRun, Top;
    TopKept(d, m, v, b);
    forall w ensures TopRun(d, m, b, w) == TopRun(d, v, b, w) { TopRunKept(d, m, v, b, w); }
    forall o ensures Outer(d, m, rest, o) == Outer(d, v, rest, o) { ChainFrame(d, m, v, rest, b, o); }
    ChainFrame(d, m, v, rest, b, Fin(m.world, true));
  }

  lemma TopKept(d: Design, m: State, v: State, b: Stmt)
    requires v.fields == m.fields && (Calm(d) ==> v.world.store == m.world.store) && Top(d, m, b)
    ensures Top(d, v, b) && b.Block?
  {
    hide Ids, WaitsIn;
    var c := Of(m, b.id).cur;
    if c < |b.items| && WaitsIn(d, m, b.items[c]) { WaitsKept(d, m, v, b.items[c]); }
  }

  lemma {:induction false} WaitsKept(d: Design, m: State, v: State, s: Stmt)
    requires v.fields == m.fields && (Calm(d) ==> v.world.store == m.world.store) && WaitsIn(d, m, s)
    ensures WaitsIn(d, v, s)
    decreases s
  {
    hide Picked, Ids;
    if Branching(s) { WaitsKept(d, m, v, Children(s)[Picked(d, s, m.world.store)]); }
  }

  lemma TopRunKept(d: Design, m: State, v: State, b: Stmt, w: World)
    requires v.fields == m.fields && b.Block?
    ensures TopRun(d, m, b, w) == TopRun(d, v, b, w)
  {
    hide Ids, RunFrom, Resumed;
    var c := Of(m, b.id).cur;
    if c < |b.items| { ResumedFrame(d, m, v, b.items[c], w); }
  }

  /** One restart does a piece of the remaining work, and no more. */
  lemma StepOk(d: Design, root: Stmt, m: State)
    requires Fragment(d, root) && !d.atomic && Resting(d, root, m) && m.wake != []
    ensures StepPost(d, root, m, Step(d, root, m))
  {
    hide Ids, Unique, Item, Encloses, Others, RunFrom, AfterInner, TopRun, Items, Top, Frame, Chain, Fragment,
      StackSuspended, PostProc, Quiet;
    var r0 := Deliver(d, m);
    if r0.status.Done? {
      var v := r0.m;
      assert |m.wake| == 1;
      FragmentIs(d, root);
      DeliveredOk(d, root, m, v);
      var p := Push(root, v);
      var o := Remaining(d, root, m);
      StepTriggers(d, root, v, p, o);
      var r := Trigger(d, root, v);
      var t := TopRun(d, p, p.stk[0], p.world);
      match r.status
      case Done => FinishedOk(d, root, p, r.m, o);
      case Delayed =>
        var seg :| StackSuspended(d, p.stk[0], p, r.m, seg, t);
        SuspendedOk(d, root, p, r.m, seg, o);
      case Bound => OuterCut(d, p, p.stk[1..], r.m.world);
      case _ =>
    }
  }

  lemma StepTriggers(d: Design, root: Stmt, v: State, p: State, o: Outcome)
    requires Fragment(d, root) && p == Push(root, v) && Delivered(d, root, p, o)
    ensures PostItems(d, p.stk[0], p, Trigger(d, root, v), TopRun(d, p, p.stk[0], p.world))
  {
    hide Ids, Unique, Item, Encloses, Others, RunFrom, AfterInner, TopRun, Items, Frame, Fragment, PostItems, Ready;
    FragmentIs(d, root);
    var b := p.stk[0];
    assert Last(p.stk[1..], b) == root;
    ChainSub(d, p, p.stk[1..], b);
    TriggerRoot(d, root, v, p);
    ItemsOk(d, b, Of(p, b.id).cur, p);
  }

  lemma TriggerRoot(d: Design, root: Stmt, v: State, p: State)
    requires root.Block? && root.dec.Free? && p == Push(root, v) && p.stk != [] && p.stk[0].Block?
    requires Size(p.stk[0]) <= Size(root)
    ensures Trigger(d, root, v) == Items(d, p.stk[0], Of(p, p.stk[0].id).cur, p)
  {
    hide Items, Push;
  }

  // ----- whole runs -----

  /** An initial process, added to the current time of the wheel. */
  function Start(w: World): State { Fresh(w).(wake := [Requeue(w.now)]) }

  /** Restart the root until no restart is pending or the step bound is hit. */
  ghost function Drive(d: Design, root: Stmt, m: State): Result
    requires Fragment(d, root) && !d.atomic && Resting(d, root, m)
    decreases m.world.ticks, m.wake != [] && m.wake[0].Requeue?, |m.stk|
  {
    if m.wake == [] then Result(m, Done)
    else
      var r := Step(d, root, m);
      StepOk(d, root, m);
      if r.status.Bound? then r else if r.m.wake == [] then Result(r.m, Done) else Drive(d, root, r.m)
  }

  lemma {:induction false} DriveOk(d: Design, root: Stmt, m: State)
    requires Fragment(d, root) && !d.atomic && Resting(d, root, m)
    ensures var r := Drive(d, root, m);
      Remaining(d, root, m) == if r.status.Done? then Fin(r.m.world, true) else Outcome.Cut(r.m.world)
    ensures Drive(d, root, m).status.Done? || Drive(d, root, m).status.Bound?
    ensures Drive(d, root, m).status.Done? ==> Clean(Drive(d, root, m).m, Ids(root))
    decreases m.world.ticks, m.wake != [] && m.wake[0].Requeue?, |m.stk|
  {
    hide Step, Ids, Fragment, Unwind, Top, Chain, RunProcess;
    if m.wake != [] {
      StepOk(d, root, m);
      var r := Step(d, root, m);
      if !r.status.Bound? && r.m.wake != [] { DriveOk(d, root, r.m); }
    }
  }

  /** The restarting interpreter refines the plain recursive semantics: for
      every design, environment and step bound, the run driven through the block
      stack and the flags ends exactly when the plain run ends, in the same
      world: the same clock, the same store and the same timed effects. */
  lemma RestartsRefinePlain(d: Design, root: Stmt, w: World)
    requires Fragment(d, root) && !d.atomic
    ensures Resting(d, root, Start(w))
    ensures var r := Drive(d, root, Start(w));
      var o := RunProcess(d, root, Woken(d, w));
      r.m.world == o.w && (r.status.Done? <==> o.Fin?)
  {
    hide Fragment, Ids;
    DriveOk(d, root, Start(w));
  }
}
